/** The fold of a validated chain into a tower of proxies, and the choice of its front end. */
module ChainFolds {
  import opened Common
  import opened ChainConfigs

  /** One proxy around another. `index` only labels an HTTP/2 pool. */
  datatype Layer =
    | FixedLayer(addresses: seq<ValidatedAddress>)
    | TlsLayer(tls: ValidatedTls)
    | WebSocketLayer(host: string, path: string)
    | Http2Layer(concurrency: nat, maxStreams: nat, idleTimeoutSecs: nat, index: nat)
    | HttpLayer(user: string, password: string)
    | Socks5Layer(user: string, password: string, hostname: string, overridePort: int)

  /** Direct dialling at the bottom, the last node on top. */
  datatype Tower = Base(networkInterface: Option<string>) | Over(layer: Layer, below: Tower)

  datatype FoldError = MissingParent | BadLayer

  datatype Client = Client(tower: Tower, h2Layers: seq<Tower>)

  /** The proxy a node wraps around the tower below it, if it wraps anything. */
  function LayerOf(node: ValidatedNode, index: nat): Option<Layer> {
    match node
    case VFixed(addresses) => Some(FixedLayer(addresses))
    case VTls(tls) => Some(TlsLayer(tls))
    case VWebSocket(host, path) => Some(WebSocketLayer(host, path))
    case VHttp2(c, m, t) => Some(Http2Layer(c, m, t, index))
    case VHttp(user, password) => Some(HttpLayer(user, password))
    case VHttpProxy(user, password) => Some(HttpLayer(user, password))
    case VSocks5(user, password, hostname, port) => Some(Socks5Layer(user, password, hostname, port))
    case _ => None
  }

  /** Constructors that can refuse: certificates, a blank WebSocket host, a SOCKS port out of range. */
  predicate Builds(env: Env, node: ValidatedNode) {
    match node
    case VTls(tls) => env.buildsTls(tls)
    case VWebSocket(host, _) => env.trim(host) != ""
    case VSocks5(_, _, _, port) => 0 <= port <= 65535
    case _ => true
  }

  predicate AllBuild(env: Env, nodes: seq<ValidatedNode>) {
    forall node :: node in nodes ==> Builds(env, node)
  }

  lemma AllBuildSnoc(env: Env, front: seq<ValidatedNode>, node: ValidatedNode)
    ensures AllBuild(env, front + [node]) <==> AllBuild(env, front) && Builds(env, node)
  {
    assert forall n :: n in front ==> n in front + [node];
    assert node in front + [node];
  }

  /** The loop as written: `proxy` is taken out and put back, a direct node starts over. */
  method Fold(env: Env, nodes: seq<ValidatedNode>) returns (r: Result<Client, FoldError>)
    ensures r.Ok? <==> AllBuild(env, nodes)
    ensures r.Ok? ==> r.value == ClientOf(nodes)
    ensures r != Err(MissingParent)
  {
    var proxy := Some(Base(None));
    var h2Layers: seq<Tower> := [];
    for i := 0 to |nodes|
      invariant AllBuild(env, nodes[..i])
      invariant proxy == Some(TowerOf(nodes[..i])) && h2Layers == H2Of(TowerOf(nodes[..i]))
    {
      assert nodes[..i + 1] == nodes[..i] + [nodes[i]] && nodes[i] in nodes;
      TowerSnoc(nodes[..i], nodes[i]);
      AllBuildSnoc(env, nodes[..i], nodes[i]);
      match nodes[i] {
        case VDirect(networkInterface) =>
          proxy := Some(Base(networkInterface));
          h2Layers := [];
        case VFixed(addresses) =>
          var upstream := proxy;
          proxy := None;
          proxy := Some(Over(FixedLayer(addresses), upstream.value));
        case VTls(tls) =>
          var upstream := proxy;
          proxy := None;
          if upstream.None? { return Err(MissingParent); }
          if !env.buildsTls(tls) { return Err(BadLayer); }
          proxy := Some(Over(TlsLayer(tls), upstream.value));
        case VWebSocket(host, path) =>
          var upstream := proxy;
          proxy := None;
          if upstream.None? { return Err(MissingParent); }
          if env.trim(host) == "" { return Err(BadLayer); }
          proxy := Some(Over(WebSocketLayer(host, path), upstream.value));
        case VHttp2(c, m, t) =>
          var upstream := proxy;
          proxy := None;
          if upstream.None? { return Err(MissingParent); }
          proxy := Some(Over(Http2Layer(c, m, t, i), upstream.value));
          h2Layers := h2Layers + [proxy.value];
        case VHttp(user, password) =>
          var upstream := proxy;
          proxy := None;
          if upstream.None? { return Err(MissingParent); }
          proxy := Some(Over(HttpLayer(user, password), upstream.value));
        case VHttpProxy(user, password) =>
          var upstream := proxy;
          proxy := None;
          if upstream.None? { return Err(MissingParent); }
          proxy := Some(Over(HttpLayer(user, password), upstream.value));
        case VSocks5(user, password, hostname, port) =>
          var upstream := proxy;
          proxy := None;
          if upstream.None? { return Err(MissingParent); }
          if !(0 <= port <= 65535) { return Err(BadLayer); }
          proxy := Some(Over(Socks5Layer(user, password, hostname, port), upstream.value));
        case _ =>
      }
    }
    assert nodes[..|nodes|] == nodes;
    if proxy.None? {
      return Err(MissingParent);
    }
    return Ok(Client(proxy.value, h2Layers));
  }

  /** One node on top of a tower. */
  function Stack(node: ValidatedNode, index: nat, below: Tower): Tower {
    if node.VDirect? then Base(node.networkInterface)
    else if LayerOf(node, index).Some? then Over(LayerOf(node, index).value, below)
    else below
  }

  function TowerOf(nodes: seq<ValidatedNode>): Tower {
    if nodes == [] then Base(None)
    else Stack(nodes[|nodes| - 1], |nodes| - 1, TowerOf(nodes[..|nodes| - 1]))
  }

  lemma TowerSnoc(front: seq<ValidatedNode>, node: ValidatedNode)
    ensures TowerOf(front + [node]) == Stack(node, |front|, TowerOf(front))
  {
    assert (front + [node])[..|front|] == front;
  }

  /** The HTTP/2 proxies of a tower, bottom first. */
  function H2Of(tower: Tower): seq<Tower> {
    match tower
    case Base(_) => []
    case Over(layer, below) => H2Of(below) + if layer.Http2Layer? then [tower] else []
  }

  // ------------------------------------------------- what is in the tower

  function Layers(tower: Tower): seq<Layer> {
    match tower
    case Base(_) => []
    case Over(layer, below) => Layers(below) + [layer]
  }

  function Bottom(tower: Tower): Option<string> {
    match tower
    case Base(networkInterface) => networkInterface
    case Over(_, below) => Bottom(below)
  }

  /** How many nodes there are up to and including the last direct one. */
  function DirectEnd(nodes: seq<ValidatedNode>): (n: nat)
    ensures n <= |nodes|
    ensures n > 0 ==> nodes[n - 1].VDirect?
    ensures forall i :: n <= i < |nodes| ==> !nodes[i].VDirect?
  {
    if nodes == [] then 0
    else if nodes[|nodes| - 1].VDirect? then |nodes|
    else DirectEnd(nodes[..|nodes| - 1])
  }

  /** The layers contributed by the nodes from position `start` on. */
  function LayersFrom(nodes: seq<ValidatedNode>, start: nat): seq<Layer>
    requires start <= |nodes|
    decreases |nodes| - start
  {
    if start == |nodes| then []
    else
      var layer := LayerOf(nodes[start], start);
      (if layer.Some? then [layer.value] else []) + LayersFrom(nodes, start + 1)
  }

  lemma {:induction false} LayersFromSnoc(nodes: seq<ValidatedNode>, start: nat)
    requires start < |nodes|
    ensures var layer := LayerOf(nodes[|nodes| - 1], |nodes| - 1);
            LayersFrom(nodes, start) ==
              LayersFrom(nodes[..|nodes| - 1], start) + if layer.Some? then [layer.value] else []
    decreases |nodes| - start
  {
    if start < |nodes| - 1 {
      LayersFromSnoc(nodes, start + 1);
    } else {
      assert LayersFrom(nodes, start + 1) == [];
    }
  }

  /** The tower is exactly the layers after the last direct node, on that node's interface. */
  lemma {:induction false} TowerStartsAtLastDirect(nodes: seq<ValidatedNode>)
    ensures var start := DirectEnd(nodes);
            && Layers(TowerOf(nodes)) == LayersFrom(nodes, start)
            && Bottom(TowerOf(nodes)) == if start == 0 then None else nodes[start - 1].networkInterface
  {
    if nodes != [] && !nodes[|nodes| - 1].VDirect? {
      TowerStartsAtLastDirect(nodes[..|nodes| - 1]);
      LayersFromSnoc(nodes, DirectEnd(nodes));
    }
  }

  // ------------------------------------------------------- erasing the no-ops

  function Unlabelled(layer: Layer): Layer {
    if layer.Http2Layer? then layer.(index := 0) else layer
  }

  /** A tower without the labels of its HTTP/2 pools. */
  function Plain(tower: Tower): Tower {
    match tower
    case Base(_) => tower
    case Over(layer, below) => Over(Unlabelled(layer), Plain(below))
  }

  function PlainAll(towers: seq<Tower>): seq<Tower> {
    seq(|towers|, i requires 0 <= i < |towers| => Plain(towers[i]))
  }

  lemma {:induction false} PlainKeepsH2(tower: Tower)
    ensures H2Of(Plain(tower)) == PlainAll(H2Of(tower))
  {
    if tower.Over? {
      PlainKeepsH2(tower.below);
    }
  }

  lemma PlainStack(node: ValidatedNode, i: nat, one: Tower, j: nat, other: Tower)
    requires Plain(one) == Plain(other)
    ensures Plain(Stack(node, i, one)) == Plain(Stack(node, j, other))
  {
  }

  lemma {:induction false} VEraseSnoc(nodes: seq<ValidatedNode>, node: ValidatedNode)
    ensures VErase(nodes + [node]) == if VNoop(node) then VErase(nodes) else VErase(nodes) + [node]
  {
    if nodes == [] {
      assert nodes + [node] == [node];
    } else {
      VEraseSnoc(nodes[1..], node);
      assert (nodes + [node])[1..] == nodes[1..] + [node];
    }
  }

  lemma {:induction false} ErasureKeepsTower(nodes: seq<ValidatedNode>)
    ensures Plain(TowerOf(VErase(nodes))) == Plain(TowerOf(nodes))
  {
    if nodes != [] {
      var front, node := nodes[..|nodes| - 1], nodes[|nodes| - 1];
      ErasureKeepsTower(front);
      VEraseSnoc(front, node);
      assert nodes == front + [node];
      TowerSnoc(front, node);
      if !VNoop(node) {
        TowerSnoc(VErase(front), node);
        PlainStack(node, |VErase(front)|, TowerOf(VErase(front)), |front|, TowerOf(front));
      }
    }
  }

  lemma {:induction false} ErasureKeepsMembers(nodes: seq<ValidatedNode>)
    ensures forall node :: node in VErase(nodes) <==> node in nodes && !VNoop(node)
  {
    if nodes != [] {
      ErasureKeepsMembers(nodes[1..]);
    }
  }

  /** Same verdict, same tower and same HTTP/2 layers up to the pool labels. */
  lemma ErasureCommutesWithFold(env: Env, nodes: seq<ValidatedNode>)
    ensures AllBuild(env, VErase(nodes)) <==> AllBuild(env, nodes)
    ensures Plain(TowerOf(VErase(nodes))) == Plain(TowerOf(nodes))
    ensures PlainAll(H2Of(TowerOf(VErase(nodes)))) == PlainAll(H2Of(TowerOf(nodes)))
  {
    ErasureKeepsMembers(nodes);
    ErasureKeepsTower(nodes);
    PlainKeepsH2(TowerOf(nodes));
    PlainKeepsH2(TowerOf(VErase(nodes)));
  }

  // ------------------------------------------------------------ the front end

  datatype Backend = H2Backend(client: Client, yuubinsya: ValidatedNode) | ProtocolBackend(tower: Tower)

  /** The last node that is not a no-op. */
  function LastRunnable(nodes: seq<ValidatedNode>): Option<ValidatedNode> {
    if nodes == [] then None
    else if VNoop(nodes[|nodes| - 1]) then LastRunnable(nodes[..|nodes| - 1])
    else Some(nodes[|nodes| - 1])
  }

  /** What the fold gives when every node builds. */
  function ClientOf(nodes: seq<ValidatedNode>): Client {
    Client(TowerOf(nodes), H2Of(TowerOf(nodes)))
  }

  function FinalProxy(nodes: seq<ValidatedNode>): Result<Backend, ErrorKind> {
    var last := LastRunnable(nodes);
    if last.Some? && last.value.VYuubinsya? then Ok(H2Backend(ClientOf(nodes), last.value))
    else if last.Some? && VIsDestination(last.value) then Ok(ProtocolBackend(TowerOf(nodes)))
    else Err(Unsupported)
  }

  function PlainBackend(r: Result<Backend, ErrorKind>): Result<Backend, ErrorKind> {
    match r
    case Ok(ProtocolBackend(tower)) => Ok(ProtocolBackend(Plain(tower)))
    case Ok(H2Backend(client, node)) => Ok(H2Backend(Client(Plain(client.tower), PlainAll(client.h2Layers)), node))
    case Err(_) => r
  }

  lemma {:induction false} ErasureKeepsLast(nodes: seq<ValidatedNode>)
    ensures LastRunnable(VErase(nodes)) == LastRunnable(nodes)
  {
    if nodes != [] {
      var front, node := nodes[..|nodes| - 1], nodes[|nodes| - 1];
      ErasureKeepsLast(front);
      VEraseSnoc(front, node);
      assert nodes == front + [node];
      assert VErase(nodes)[..|VErase(front)|] == VErase(front);
    }
  }

  lemma ErasureKeepsBackend(nodes: seq<ValidatedNode>)
    ensures PlainBackend(FinalProxy(VErase(nodes))) == PlainBackend(FinalProxy(nodes))
  {
    ErasureKeepsLast(nodes);
    ErasureKeepsTower(nodes);
    PlainKeepsH2(TowerOf(nodes));
    PlainKeepsH2(TowerOf(VErase(nodes)));
  }

  // ---------------------------------------------------------- validated chains

  predicate IsDestinationLayer(layer: Layer) {
    layer.HttpLayer? || layer.Socks5Layer?
  }

  /** Below the top there are only transports. */
  predicate TransportsBelow(tower: Tower) {
    tower.Over? ==> forall layer :: layer in Layers(tower.below) ==> !IsDestinationLayer(layer)
  }

  /** In a validated chain a destination protocol has only no-ops after it. */
  lemma {:induction false} DestinationsComeLast(env: Env, chain: seq<ChainNode>, i: nat, j: nat)
    requires Checked(env, chain).Ok? && i < j < |chain|
    requires VIsDestination(Checked(env, chain).value[i])
    ensures VNoop(Checked(env, chain).value[j])
  {
    if i > 0 {
      DestinationsComeLast(env, chain[1..], i - 1, j - 1);
    } else if !Noop(chain[j]) {
      RunsLater(chain, 1, j);
    } else {
      CheckedAt(env, chain, j);
    }
  }

  lemma {:induction false} CheckedAt(env: Env, chain: seq<ChainNode>, j: nat)
    requires Checked(env, chain).Ok? && j < |chain|
    ensures Accepted(env, chain[j], NextRunnable(chain[j + 1..]))
    ensures Checked(env, chain).value[j] == Validated(env, chain[j], NextRunnable(chain[j + 1..]))
  {
    if j > 0 {
      CheckedAt(env, chain[1..], j - 1);
      assert chain[1..][j..] == chain[j + 1..];
    }
  }

  lemma {:induction false} TransportNodesMakeTransports(nodes: seq<ValidatedNode>)
    requires forall node :: node in nodes ==> !VIsDestination(node)
    ensures forall layer :: layer in Layers(TowerOf(nodes)) ==> !IsDestinationLayer(layer)
  {
    if nodes != [] {
      var front, node := nodes[..|nodes| - 1], nodes[|nodes| - 1];
      TransportNodesMakeTransports(front);
      assert node in nodes;
      assert Layers(TowerOf(nodes)) == [] || Layers(TowerOf(nodes)) == Layers(TowerOf(front))
          || Layers(TowerOf(nodes)) == Layers(TowerOf(front)) + [LayerOf(node, |front|).value];
    }
  }

  lemma {:induction false} TopIsLast(nodes: seq<ValidatedNode>)
    requires forall i, j :: 0 <= i < j < |nodes| && VIsDestination(nodes[i]) ==> VNoop(nodes[j])
    ensures TransportsBelow(TowerOf(nodes))
  {
    if nodes != [] {
      var front := nodes[..|nodes| - 1];
      if VNoop(nodes[|nodes| - 1]) {
        TopIsLast(front);
      } else {
        assert forall i :: 0 <= i < |front| ==> !VIsDestination(front[i]);
        TransportNodesMakeTransports(front);
        TransportsStayBelow(TowerOf(front));
      }
    }
  }

  lemma TransportsStayBelow(tower: Tower)
    requires forall layer :: layer in Layers(tower) ==> !IsDestinationLayer(layer)
    ensures TransportsBelow(tower)
  {
  }

  /** Only the top of a validated chain's tower speaks to the destination. */
  lemma ValidatedTowerHasTransportsBelow(env: Env, chain: seq<ChainNode>)
    requires SpecValidate(env, chain).Ok?
    ensures TransportsBelow(TowerOf(SpecValidate(env, chain).value))
  {
    var nodes := SpecValidate(env, chain).value;
    forall i, j | 0 <= i < j < |nodes| && VIsDestination(nodes[i]) ensures VNoop(nodes[j]) {
      DestinationsComeLast(env, chain, i, j);
    }
    TopIsLast(nodes);
  }

  /** A validated chain fails to fold only on a certificate or a WebSocket host of nothing but white space. */
  lemma ValidatedNodesBuild(env: Env, chain: seq<ChainNode>, node: ValidatedNode)
    requires SpecValidate(env, chain).Ok? && node in SpecValidate(env, chain).value
    ensures !Builds(env, node) <==>
              (node.VTls? && !env.buildsTls(node.tls)) || (node.VWebSocket? && env.trim(node.host) == "")
    ensures node.VWebSocket? ==> node.host != ""
  {
    var nodes := SpecValidate(env, chain).value;
    var j :| 0 <= j < |nodes| && nodes[j] == node;
    CheckedAt(env, chain, j);
  }

  // -------------------------------------------------- what the tower and front end keep

  /** The node a layer was made from; both HTTP nodes make the same layer. */
  function NodeOf(layer: Layer): ValidatedNode {
    match layer
    case FixedLayer(addresses) => VFixed(addresses)
    case TlsLayer(tls) => VTls(tls)
    case WebSocketLayer(host, path) => VWebSocket(host, path)
    case Http2Layer(c, m, t, _) => VHttp2(c, m, t)
    case HttpLayer(user, password) => VHttp(user, password)
    case Socks5Layer(user, password, hostname, port) => VSocks5(user, password, hostname, port)
  }

  /** A layer keeps every setting of its node; direct, Yuubinsya and no-op nodes make none. */
  lemma LayerKeepsNode(node: ValidatedNode, index: nat)
    ensures LayerOf(node, index).None? <==> node.VDirect? || node.VYuubinsya? || VNoop(node)
    ensures LayerOf(node, index).Some? ==>
              NodeOf(LayerOf(node, index).value) ==
                if node.VHttpProxy? then VHttp(node.user, node.password) else node
    ensures node.VHttp2? ==> LayerOf(node, index).value.index == index
  {
  }

  /** `i` is the last node that is not a no-op. */
  predicate RunsLast(nodes: seq<ValidatedNode>, i: nat) {
    i < |nodes| && !VNoop(nodes[i]) && forall k :: i < k < |nodes| ==> VNoop(nodes[k])
  }

  lemma {:induction false} LastRunnableIs(nodes: seq<ValidatedNode>, i: nat)
    requires RunsLast(nodes, i)
    ensures LastRunnable(nodes) == Some(nodes[i])
  {
    if i < |nodes| - 1 {
      LastRunnableIs(nodes[..|nodes| - 1], i);
    }
  }

  lemma {:induction false} SomethingRunsLast(nodes: seq<ValidatedNode>) returns (i: nat)
    requires LastRunnable(nodes).Some?
    ensures RunsLast(nodes, i)
  {
    i := |nodes| - 1;
    if VNoop(nodes[i]) {
      i := SomethingRunsLast(nodes[..|nodes| - 1]);
    }
  }

  /** The node that runs last decides the front end, and the front end is built on the whole tower. */
  lemma BackendExactly(nodes: seq<ValidatedNode>, i: nat)
    requires RunsLast(nodes, i)
    ensures nodes[i].VYuubinsya? ==> FinalProxy(nodes) == Ok(H2Backend(ClientOf(nodes), nodes[i]))
    ensures nodes[i].VHttp? || nodes[i].VHttpProxy? || nodes[i].VSocks5? ==>
              FinalProxy(nodes) == Ok(ProtocolBackend(TowerOf(nodes)))
    ensures !VIsDestination(nodes[i]) ==> FinalProxy(nodes) == Err(Unsupported)
  {
    LastRunnableIs(nodes, i);
  }

  /** With nothing that runs there is no front end. */
  lemma NoBackend(nodes: seq<ValidatedNode>)
    ensures (forall i :: 0 <= i < |nodes| ==> VNoop(nodes[i])) ==> FinalProxy(nodes) == Err(Unsupported)
  {
    if LastRunnable(nodes).Some? {
      var i := SomethingRunsLast(nodes);
    }
  }
}
