/** Abstract DNS messages, the canonical request key, response validation and rewriting. */
module DnsMessages {
  import opened Common

  type U32 = n: int | 0 <= n < 0x1_0000_0000

  datatype MessageType = Query | Response
  datatype OpCode = OpQuery | OpOther(code: nat)
  datatype ResponseCode = NoError | NXDomain | OtherCode(code: nat)

  datatype Metadata = Metadata(
    id: nat,
    messageType: MessageType,
    opCode: OpCode,
    authoritative: bool,
    truncation: bool,
    recursionDesired: bool,
    recursionAvailable: bool,
    authenticData: bool,
    checkingDisabled: bool,
    responseCode: ResponseCode)

  /** A domain name as its labels. */
  type Name = seq<string>

  datatype Question = Question(name: Name, queryType: nat, queryClass: nat)

  datatype RData = Soa(minimum: U32, rest: seq<Byte>) | Data(recordType: nat, rest: seq<Byte>)

  datatype Record = Record(name: Name, dnsClass: nat, ttl: U32, data: RData)

  datatype Edns = Edns(maxPayload: nat, version: nat, flags: nat, options: seq<(nat, seq<Byte>)>)

  datatype Message = Message(
    metadata: Metadata,
    queries: seq<Question>,
    answers: seq<Record>,
    authorities: seq<Record>,
    additionals: seq<Record>,
    edns: Option<Edns>,
    signature: Option<Record>)

  /** A byte packet, seen through the message decoder. */
  datatype Packet = Malformed | Decodes(message: Message)

  function LowerChar(c: char): char {
    if 'A' <= c <= 'Z' then c - 'A' + 'a' else c
  }

  function Lower(text: string): (r: string)
    ensures |r| == |text|
    ensures forall i :: 0 <= i < |r| ==> r[i] == LowerChar(text[i])
  {
    seq(|text|, i requires 0 <= i < |text| => LowerChar(text[i]))
  }

  function LowerName(name: Name): (r: Name)
    ensures |r| == |name|
    ensures forall i :: 0 <= i < |r| ==> r[i] == Lower(name[i])
  {
    seq(|name|, i requires 0 <= i < |name| => Lower(name[i]))
  }

  /** Two spellings of one label: equal up to the case of ASCII letters. */
  predicate SameLabel(a: string, b: string) {
    |a| == |b| && forall i :: 0 <= i < |a| ==> LowerChar(a[i]) == LowerChar(b[i])
  }

  /** Name comparison ignores case. */
  predicate SameName(a: Name, b: Name) {
    |a| == |b| && forall i :: 0 <= i < |a| ==> SameLabel(a[i], b[i])
  }

  lemma LowerDecidesSameName(a: Name, b: Name)
    ensures LowerName(a) == LowerName(b) <==> SameName(a, b)
    ensures SameName(LowerName(a), b) <==> SameName(a, b)
  {
    LowerIdempotent();
    if LowerName(a) == LowerName(b) {
      forall i | 0 <= i < |a|
        ensures SameLabel(a[i], b[i])
      {
        assert LowerName(a)[i] == LowerName(b)[i];
        assert forall k :: 0 <= k < |a[i]| ==> Lower(a[i])[k] == Lower(b[i])[k];
      }
    }
    if SameName(a, b) {
      forall i | 0 <= i < |a|
        ensures LowerName(a)[i] == LowerName(b)[i]
      {
        assert SameLabel(a[i], b[i]);
        assert Lower(a[i]) == Lower(b[i]);
      }
    }
    assert forall i :: 0 <= i < |a| ==> LowerName(a)[i] == Lower(a[i]);
    forall i | 0 <= i < |a| && |a| == |b|
      ensures SameLabel(Lower(a[i]), b[i]) <==> SameLabel(a[i], b[i])
    {
    }
  }

  lemma LowerIdempotent()
    ensures forall c {:trigger LowerChar(LowerChar(c))} :: LowerChar(LowerChar(c)) == LowerChar(c)
  {
  }

  // ---------------------------------------------------------------- key

  /** The canonical request shared by the raw cache and the in-flight table. */
  datatype RawKey = RawKey(request: Message)

  predicate Plain(m: Message) {
    && |m.queries| == 1
    && m.metadata.messageType == Query
    && m.metadata.opCode == OpQuery
    && m.answers == [] && m.authorities == [] && m.additionals == []
    && m.signature.None?
  }

  function Canonical(m: Message): Message
    requires |m.queries| == 1
  {
    m.(metadata := m.metadata.(id := 0),
       queries := [m.queries[0].(name := LowerName(m.queries[0].name))])
  }

  /** `RawDnsCacheKey::from_packet`: an error, no key (the request bypasses the cache), or a key. */
  function FromPacket(packet: Packet): Result<Option<RawKey>, ErrorKind> {
    match packet
    case Malformed => Err(Protocol)
    case Decodes(m) =>
      if m.queries == [] then Err(Protocol)
      else if !Plain(m) then Ok(None)
      else Ok(Some(RawKey(Canonical(m))))
  }

  predicate HasKey(packet: Packet, key: RawKey) {
    FromPacket(packet) == Ok(Some(key))
  }

  /** The two requests differ at most in their id and in the case of the name they ask for. */
  predicate SameRequest(a: Message, b: Message) {
    && a == b.(metadata := b.metadata.(id := a.metadata.id), queries := a.queries)
    && |a.queries| == |b.queries| == 1
    && a.queries[0] == b.queries[0].(name := a.queries[0].name)
    && SameName(a.queries[0].name, b.queries[0].name)
  }

  /** Two cacheable requests share a key exactly when they are the same request. */
  lemma SharedKeyIffSameRequest(p: Packet, q: Packet, j: RawKey, k: RawKey)
    requires HasKey(p, j) && HasKey(q, k)
    ensures j == k <==> SameRequest(p.message, q.message)
  {
    var a, b := p.message, q.message;
    LowerDecidesSameName(a.queries[0].name, b.queries[0].name);
    if SameRequest(a, b) {
      assert Canonical(a) == Canonical(b);
    }
    if j == k {
      assert Canonical(a).queries[0] == Canonical(b).queries[0];
      assert Canonical(a).metadata == Canonical(b).metadata;
      assert a.metadata == b.metadata.(id := a.metadata.id);
      assert a == b.(metadata := b.metadata.(id := a.metadata.id), queries := a.queries);
    }
  }

  // --------------------------------------------------------- validation

  predicate SameQuestions(answers: seq<Question>, questions: seq<Question>) {
    && |answers| == |questions|
    && forall i :: 0 <= i < |answers| ==>
         && SameName(answers[i].name, questions[i].name)
         && answers[i].queryType == questions[i].queryType
         && answers[i].queryClass == questions[i].queryClass
  }

  /** `validate_response_packet`: does this response belong to that request? */
  predicate Validates(query: Packet, response: Packet) {
    && query.Decodes? && response.Decodes?
    && response.message.metadata.id == query.message.metadata.id
    && response.message.metadata.messageType == Response
    && response.message.metadata.opCode == query.message.metadata.opCode
    && SameQuestions(response.message.queries, query.message.queries)
  }

  /** `rewrite_dns_response_for_query`. */
  function Rewrite(response: Packet, query: Packet): Result<Packet, ErrorKind> {
    if response.Malformed? || query.Malformed? || query.message.queries == [] then Err(Protocol)
    else
      var m := response.message;
      Ok(Decodes(m.(metadata := m.metadata.(id := query.message.metadata.id), queries := query.message.queries)))
  }

  /** What every response stored under a key must be, whoever asked. */
  predicate Answers(key: RawKey, response: Packet) {
    && |key.request.queries| == 1
    && response.Decodes?
    && response.message.metadata.messageType == Response
    && response.message.metadata.opCode == OpQuery
    && SameQuestions(response.message.queries, key.request.queries)
  }

  lemma ValidatedAnswersKey(query: Packet, key: RawKey, response: Packet)
    requires HasKey(query, key) && Validates(query, response)
    ensures Answers(key, response)
  {
    var asked, given := query.message.queries[0].name, response.message.queries[0].name;
    LowerDecidesSameName(asked, given);
    assert SameName(given, asked);
    assert SameName(given, LowerName(asked));
  }

  /** A shared response, rewritten for any request with that key, is a valid response to that request. */
  lemma RewrittenAnswerValidates(query: Packet, key: RawKey, response: Packet)
    requires HasKey(query, key) && Answers(key, response)
    ensures Rewrite(response, query).Ok?
    ensures Validates(query, Rewrite(response, query).value)
  {
  }

  /** Replaying a request under another transaction id keeps its key. */
  lemma NewIdKeepsKey(query: Packet, key: RawKey, id: nat)
    requires HasKey(query, key)
    ensures HasKey(Decodes(query.message.(metadata := query.message.metadata.(id := id))), key)
  {
  }

  // ------------------------------------------------------ what a reply keeps

  /** `a` with the id and the questions of `b` in place of its own. */
  function Readdressed(a: Message, b: Message): Message {
    a.(metadata := a.metadata.(id := b.metadata.id), queries := b.queries)
  }

  /** Rewriting replaces the id and the questions and nothing else: putting them back gives the response again. */
  lemma RewriteKeepsContent(response: Packet, query: Packet)
    ensures Rewrite(response, query).Ok? <==> response.Decodes? && query.Decodes? && query.message.queries != []
    ensures Rewrite(response, query).Ok? ==>
              var r := Rewrite(response, query).value;
              && r.Decodes?
              && Readdressed(r.message, response.message) == response.message
              && r.message.metadata.id == query.message.metadata.id
              && r.message.queries == query.message.queries
  {
  }

  /** Which requests are cached and shared, which bypass the machinery, and which are refused. */
  lemma KeyedExactlyWhenPlain(packet: Packet)
    ensures FromPacket(packet).Err? <==> packet.Malformed? || |packet.message.queries| == 0
    ensures (exists key :: HasKey(packet, key)) <==>
              && packet.Decodes?
              && |packet.message.queries| == 1
              && packet.message.metadata.messageType.Query? && packet.message.metadata.opCode.OpQuery?
              && |packet.message.answers + packet.message.authorities + packet.message.additionals| == 0
              && packet.message.signature.None?
  {
    if packet.Decodes? && |packet.message.queries| == 1 && Plain(packet.message) {
      assert HasKey(packet, RawKey(Canonical(packet.message)));
    }
  }
}
