/** The coalescing half of one UDP-over-TCP session. */
module UotWriters {
  import opened Common

  /** An encoded frame. It always starts with an address tag byte, so it is never empty. */
  type EncodedFrame = f: seq<Byte> | |f| > 0 witness [0]

  /** Outcome of one `write_all` followed by `flush`: everything, or a prefix and an error. */
  datatype WriteOutcome = Written | Failed(accepted: nat)

  function Concat(frames: seq<EncodedFrame>): seq<Byte> {
    if frames == [] then [] else Concat(frames[..|frames| - 1]) + frames[|frames| - 1]
  }

  lemma ConcatSnoc(frames: seq<EncodedFrame>, frame: EncodedFrame)
    ensures Concat(frames + [frame]) == Concat(frames) + frame
  {
    assert (frames + [frame])[..|frames|] == frames;
  }

  lemma ConcatEmpty(frames: seq<EncodedFrame>)
    ensures Concat(frames) == [] <==> frames == []
  {
  }

  /** Buffering a frame keeps the bytes in send order. */
  lemma Coalesced(wire: seq<Byte>, pending: seq<Byte>, sent: seq<EncodedFrame>, frame: EncodedFrame)
    requires wire + pending == Concat(sent)
    ensures wire + (pending + frame) == Concat(sent + [frame])
  {
    ConcatSnoc(sent, frame);
    ConcatIsAssociative(wire, pending, frame);
  }

  class UotWriter {
    const coalesce: bool
    const maxBytes: nat
    const maxFrames: nat
    /** Every byte handed to the transport, oldest first. */
    var wire: seq<Byte>
    var pending: seq<Byte>
    var pendingFrames: nat
    /** The frames accepted by `SendTo`, those still buffered, and whether a write ever failed. */
    ghost var sent: seq<EncodedFrame>
    ghost var batch: seq<EncodedFrame>
    ghost var failed: bool

    ghost predicate Valid()
      reads this
    {
      && maxFrames > 0
      && pending == Concat(batch)
      && pendingFrames == |batch| <= maxFrames
      && (!coalesce ==> batch == [])
      && (|pending| > maxBytes ==> |batch| == 1)
      && (!failed ==> wire + pending == Concat(sent))
    }

    constructor (coalesce: bool, maxBytes: nat, maxFrames: nat)
      requires maxFrames > 0
      ensures Valid() && fresh(this) && wire == [] && sent == [] && !failed
      ensures this.coalesce == coalesce && this.maxBytes == maxBytes && this.maxFrames == maxFrames
    {
      this.coalesce, this.maxBytes, this.maxFrames := coalesce, maxBytes, maxFrames;
      wire, pending, pendingFrames := [], [], 0;
      sent, batch, failed := [], [], false;
    }

    method Flush(outcome: WriteOutcome) returns (r: Result<(), ErrorKind>)
      requires Valid()
      modifies this
      ensures Valid() && sent == old(sent)
      ensures r.Ok? ==> pending == [] && batch == [] && wire == old(wire + pending) && failed == old(failed)
      ensures r.Err? ==> r.error == Io && failed && pending == old(pending) && batch == old(batch) && old(wire) <= wire
      ensures outcome.Written? || old(pending) == [] ==> r.Ok?
    {
      ConcatEmpty(batch);
      if pending == [] {
        return Ok(());
      }
      match outcome {
        case Failed(accepted) =>
          wire := wire + pending[..if accepted < |pending| then accepted else |pending|];
          failed := true;
          return Err(Io);
        case Written =>
          wire := wire + pending;
          pending, pendingFrames := [], 0;
          batch := [];
          return Ok(());
      }
    }

    /** The unbuffered path: write the frame straight through. */
    method WriteThrough(frame: EncodedFrame, outcome: WriteOutcome) returns (r: Result<(), ErrorKind>)
      requires Valid() && !coalesce
      modifies this
      ensures Valid() && old(wire) <= wire
      ensures outcome.Written? ==> r.Ok?
      ensures r.Ok? ==> sent == old(sent) + [frame] && pendingFrames < maxFrames && failed == old(failed)
      ensures r.Err? ==> r.error == Io && failed && sent == old(sent)
    {
      match outcome {
        case Failed(accepted) =>
          wire := wire + frame[..if accepted < |frame| then accepted else |frame|];
          failed := true;
          return Err(Io);
        case Written =>
          ConcatSnoc(sent, frame);
          assert !failed ==> wire == Concat(sent);
          wire := wire + frame;
          sent := sent + [frame];
          return Ok(());
      }
    }

    /** Append one frame to a batch that has room for it. */
    method Buffer(frame: EncodedFrame)
      requires Valid() && coalesce
      requires pendingFrames < maxFrames
      requires pending != [] ==> |pending| + |frame| <= maxBytes
      modifies this
      ensures Valid() && wire == old(wire) && failed == old(failed)
      ensures sent == old(sent) + [frame]
    {
      ConcatEmpty(batch);
      ConcatSnoc(batch, frame);
      if !failed {
        Coalesced(wire, pending, sent, frame);
      }
      pending := pending + frame;
      pendingFrames := pendingFrames + 1;
      batch := batch + [frame];
      sent := sent + [frame];
    }

    /**
     * Send one frame. `first` is the outcome of the direct write or of the
     * flush that makes room, `second` that of the flush a full batch triggers.
     */
    method SendTo(frame: EncodedFrame, first: WriteOutcome, second: WriteOutcome) returns (r: Result<(), ErrorKind>)
      requires Valid()
      modifies this
      ensures Valid() && old(wire) <= wire
      ensures first.Written? && second.Written? ==> r.Ok? && failed == old(failed)
      ensures r.Ok? ==> sent == old(sent) + [frame] && pendingFrames < maxFrames
      ensures r.Err? ==> r.error == Io && failed && (sent == old(sent) || sent == old(sent) + [frame])
    {
      if !coalesce {
        r := WriteThrough(frame, first);
        return;
      }
      if |frame| > maxBytes || |pending| + |frame| > maxBytes || pendingFrames >= maxFrames {
        r := Flush(first);
        if r.Err? {
          return;
        }
      }
      Buffer(frame);
      if pendingFrames >= maxFrames {
        r := Flush(second);
        return;
      }
      return Ok(());
    }
  }
}
