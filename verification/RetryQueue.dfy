/** The bounded queue of unacknowledged datagrams behind UDP-over-TCP recovery. */
module RetryQueues {
  import opened Common

  const MAX_UOT_RETRY_BYTES: nat := 256 * 1024
  const MAX_UOT_RETRY_FRAMES: nat := 128

  datatype Pending = Pending(id: nat, target: Endpoint, payload: seq<Byte>)

  /** What a replay writes for one queued datagram. */
  datatype Frame = Frame(target: Endpoint, payload: seq<Byte>)

  function TotalBytes(frames: seq<Pending>): nat {
    if frames == [] then 0 else |frames[0].payload| + TotalBytes(frames[1..])
  }

  predicate Fits(frames: seq<Pending>, frame: Pending) {
    |frames| < MAX_UOT_RETRY_FRAMES && TotalBytes(frames) + |frame.payload| <= MAX_UOT_RETRY_BYTES
  }

  /** Index of the first element satisfying `p`, or the length when there is none. */
  function FirstWhere(frames: seq<Pending>, p: Pending -> bool): (i: nat)
    ensures i <= |frames|
    ensures i < |frames| ==> p(frames[i])
    ensures forall j :: 0 <= j < i ==> !p(frames[j])
  {
    if frames == [] then 0
    else if p(frames[0]) then 0
    else 1 + FirstWhere(frames[1..], p)
  }

  function RemoveAt(frames: seq<Pending>, i: nat): (r: seq<Pending>)
    ensures i >= |frames| ==> r == frames
    ensures i < |frames| ==> |r| == |frames| - 1
    ensures i < |frames| ==> forall j :: 0 <= j < |r| ==> r[j] == frames[if j < i then j else j + 1]
    ensures i < |frames| ==> multiset(r) == multiset(frames) - multiset{frames[i]}
  {
    if i < |frames| then
      assert frames == frames[..i] + [frames[i]] + frames[i + 1..];
      frames[..i] + frames[i + 1..]
    else frames
  }

  function RemoveId(frames: seq<Pending>, id: nat): seq<Pending> {
    RemoveAt(frames, FirstWhere(frames, (f: Pending) => f.id == id))
  }

  /**
   * `i` is the datagram one reply acknowledges: the oldest one with the same
   * endpoint and payload, failing that the oldest one to that endpoint,
   * failing that the oldest one with that payload.
   */
  ghost predicate Acknowledges(frames: seq<Pending>, i: nat, source: Endpoint, payload: seq<Byte>) {
    && i < |frames|
    && var f := frames[i];
    if f.target == source && f.payload == payload then
      forall j :: 0 <= j < i ==> !(frames[j].target == source && frames[j].payload == payload)
    else if f.target == source then
      && (forall j :: 0 <= j < |frames| ==> !(frames[j].target == source && frames[j].payload == payload))
      && (forall j :: 0 <= j < i ==> frames[j].target != source)
    else
      && f.payload == payload
      && (forall j :: 0 <= j < |frames| ==> frames[j].target != source)
      && (forall j :: 0 <= j < i ==> frames[j].payload != payload)
  }

  function AckIndex(frames: seq<Pending>, source: Endpoint, payload: seq<Byte>): (i: nat)
    ensures i < |frames| ==> Acknowledges(frames, i, source, payload)
    ensures i >= |frames| ==> forall f :: f in frames ==> f.target != source && f.payload != payload
  {
    var exact := FirstWhere(frames, (f: Pending) => f.target == source && f.payload == payload);
    var target := FirstWhere(frames, (f: Pending) => f.target == source);
    if exact < |frames| then exact
    else if target < |frames| then target
    else FirstWhere(frames, (f: Pending) => f.payload == payload)
  }

  function Acknowledge(frames: seq<Pending>, source: Endpoint, payload: seq<Byte>): seq<Pending> {
    RemoveAt(frames, AckIndex(frames, source, payload))
  }

  function Snapshot(frames: seq<Pending>): (r: seq<Frame>)
    ensures |r| == |frames|
    ensures forall i :: 0 <= i < |r| ==> r[i] == Frame(frames[i].target, frames[i].payload)
  {
    if frames == [] then [] else [Frame(frames[0].target, frames[0].payload)] + Snapshot(frames[1..])
  }

  /** At most one queued datagram answers to a reply. */
  lemma AcknowledgedIndexIsUnique(frames: seq<Pending>, i: nat, j: nat, source: Endpoint, payload: seq<Byte>)
    requires Acknowledges(frames, i, source, payload) && Acknowledges(frames, j, source, payload)
    ensures i == j
  {
    var f, g := frames[i], frames[j];
    if f.target == source && f.payload == payload {
    } else if g.target == source {
    }
  }

  lemma {:induction false} TotalBytesSplit(a: seq<Pending>, b: seq<Pending>)
    ensures TotalBytes(a + b) == TotalBytes(a) + TotalBytes(b)
  {
    if a == [] {
      assert a + b == b;
    } else {
      assert (a + b)[1..] == a[1..] + b;
      TotalBytesSplit(a[1..], b);
    }
  }

  lemma RemoveAtBytes(frames: seq<Pending>, i: nat)
    requires i < |frames|
    ensures TotalBytes(RemoveAt(frames, i)) + |frames[i].payload| == TotalBytes(frames)
  {
    assert frames == frames[..i] + ([frames[i]] + frames[i + 1..]);
    TotalBytesSplit(frames[..i], [frames[i]] + frames[i + 1..]);
    TotalBytesSplit([frames[i]], frames[i + 1..]);
    TotalBytesSplit(frames[..i], frames[i + 1..]);
    assert TotalBytes([frames[i]]) == |frames[i].payload|;
  }

  /** The mutable queue, with its byte counter kept beside the frames. */
  class RetryQueue {
    var frames: seq<Pending>
    var bytes: nat

    ghost predicate Valid()
      reads this
    {
      && bytes == TotalBytes(frames)
      && bytes <= MAX_UOT_RETRY_BYTES
      && |frames| <= MAX_UOT_RETRY_FRAMES
    }

    constructor ()
      ensures Valid() && frames == []
    {
      frames, bytes := [], 0;
    }

    method Push(frame: Pending) returns (r: Result<(), ErrorKind>)
      requires Valid()
      modifies this
      ensures Valid()
      ensures r.Ok? <==> old(Fits(frames, frame))
      ensures r.Ok? ==> frames == old(frames) + [frame]
      ensures r.Err? ==> r.error == Timeout && frames == old(frames)
    {
      if |frame.payload| > MAX_UOT_RETRY_BYTES
         || |frames| >= MAX_UOT_RETRY_FRAMES
         || bytes + |frame.payload| > MAX_UOT_RETRY_BYTES
      {
        return Err(Timeout);
      }
      TotalBytesSplit(frames, [frame]);
      bytes := bytes + |frame.payload|;
      frames := frames + [frame];
      return Ok(());
    }

    method Position(p: Pending -> bool) returns (i: nat)
      ensures i == FirstWhere(frames, p)
    {
      i := 0;
      while i < |frames| && !p(frames[i])
        invariant i <= |frames|
        invariant forall j :: 0 <= j < i ==> !p(frames[j])
      {
        i := i + 1;
      }
    }

    method RemoveIndex(i: nat)
      requires Valid() && i < |frames|
      modifies this
      ensures Valid() && frames == RemoveAt(old(frames), i)
    {
      RemoveAtBytes(frames, i);
      bytes := bytes - |frames[i].payload|;
      frames := frames[..i] + frames[i + 1..];
    }

    method DropId(id: nat)
      requires Valid()
      modifies this
      ensures Valid() && frames == RemoveId(old(frames), id)
    {
      var index := Position((f: Pending) => f.id == id);
      if index < |frames| {
        RemoveIndex(index);
      }
    }

    method Ack(source: Endpoint, payload: seq<Byte>)
      requires Valid()
      modifies this
      ensures Valid()
      ensures frames == Acknowledge(old(frames), source, payload)
    {
      var exact := Position((f: Pending) => f.target == source && f.payload == payload);
      var target := Position((f: Pending) => f.target == source);
      var index := exact;
      if exact == |frames| {
        index := target;
        if target == |frames| {
          index := Position((f: Pending) => f.payload == payload);
        }
      }
      if index < |frames| {
        RemoveIndex(index);
      }
    }

    method Clear()
      modifies this
      ensures Valid() && frames == []
    {
      frames, bytes := [], 0;
    }
  }
}
