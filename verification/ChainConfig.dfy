/** Validation of a configured chain of proxy nodes. */
module ChainConfigs {
  import opened Common

  datatype FixedAddress = FixedAddress(host: string, networkInterface: Option<string>)

  datatype TlsConfig = TlsConfig(
    enable: bool,
    insecureSkipVerify: bool,
    servernames: seq<string>,
    caCert: seq<string>,
    nextProtos: seq<string>)

  datatype ChainNode =
    | Direct(networkInterface: Option<string>)
    | FixedV2(addresses: seq<FixedAddress>)
    | Tls(tls: TlsConfig)
    | WebSocket(host: string, path: string)
    | Http2(concurrency: nat, maxStreams: nat, idleTimeoutSecs: nat)
    | Yuubinsya(password: string, udpOverStream: bool, udpCoalesce: bool)
    | Http(user: string, password: string)
    | HttpProxy(user: string, password: string)
    | Socks5(user: string, password: string, hostname: string, overridePort: int)
    | NoNode | Proxy | BootstrapDnsWarp

  datatype ValidatedAddress = ValidatedAddress(host: string, port: nat, networkInterface: Option<string>)

  datatype ValidatedTls = ValidatedTls(
    insecureSkipVerify: bool,
    servernames: seq<string>,
    caCertificates: seq<seq<Byte>>,
    nextProtos: seq<string>)

  datatype ValidatedNode =
    | VDirect(networkInterface: Option<string>)
    | VFixed(addresses: seq<ValidatedAddress>)
    | VTls(tls: ValidatedTls)
    | VWebSocket(host: string, path: string)
    | VHttp2(concurrency: nat, maxStreams: nat, idleTimeoutSecs: nat)
    | VYuubinsya(password: string, udpOverStream: bool, udpCoalesce: bool)
    | VHttp(user: string, password: string)
    | VHttpProxy(user: string, password: string)
    | VSocks5(user: string, password: string, hostname: string, overridePort: int)
    | VNone | VProxy | VBootstrapDnsWarp

  /** Text handling that is not modelled: host parsing, base64, trimming, entity replacement, certificate parsing. */
  datatype Env = Env(
    splitHost: string -> Option<(string, nat)>,
    decodeBase64: string -> Option<seq<Byte>>,
    trim: string -> string,
    unescape: string -> string,
    buildsTls: ValidatedTls -> bool)

  predicate Noop(node: ChainNode) {
    node.NoNode? || node.Proxy? || node.BootstrapDnsWarp?
  }

  predicate VNoop(node: ValidatedNode) {
    node.VNone? || node.VProxy? || node.VBootstrapDnsWarp?
  }

  // --------------------------------------------------------- single nodes

  function NonBlank(env: Env, value: Option<string>): Option<string> {
    if value.Some? && env.trim(value.value) != "" then value else None
  }

  function Trimmed(env: Env, value: Option<string>): Option<string> {
    if value.Some? && env.trim(value.value) != "" then Some(env.trim(value.value)) else None
  }

  function FixedAddresses(env: Env, addresses: seq<FixedAddress>): Option<seq<ValidatedAddress>> {
    if addresses == [] then Some([])
    else
      var host := env.splitHost(addresses[0].host);
      var rest := FixedAddresses(env, addresses[1..]);
      if host.None? || rest.None? then None
      else
        var networkInterface := Trimmed(env, addresses[0].networkInterface);
        Some([ValidatedAddress(host.value.0, host.value.1, networkInterface)] + rest.value)
  }

  /** All certificates decode to something. */
  predicate CertificatesDecode(env: Env, certificates: seq<string>) {
    forall i :: 0 <= i < |certificates| ==>
      env.decodeBase64(certificates[i]).Some? && env.decodeBase64(certificates[i]).value != []
  }

  function Decoded(env: Env, certificates: seq<string>): seq<seq<Byte>>
    requires CertificatesDecode(env, certificates)
  {
    seq(|certificates|, i requires 0 <= i < |certificates| => env.decodeBase64(certificates[i]).value)
  }

  function Unescaped(env: Env, names: seq<string>): seq<string> {
    seq(|names|, i requires 0 <= i < |names| => env.unescape(names[i]))
  }

  /** HTTP/2 by default, nothing in front of a WebSocket. */
  function Alpn(nextProtos: seq<string>, next: Option<ChainNode>): seq<string> {
    if nextProtos != [] then nextProtos
    else if next.Some? && next.value.WebSocket? then [] else ["h2"]
  }

  predicate TlsAccepted(env: Env, config: TlsConfig, next: Option<ChainNode>) {
    && config.enable && config.servernames != []
    && CertificatesDecode(env, config.caCert)
    && (next.Some? && next.value.Http2? ==> "h2" in Alpn(config.nextProtos, next))
  }

  method ValidateTls(env: Env, config: TlsConfig, next: Option<ChainNode>) returns (r: Result<ValidatedTls, ErrorKind>)
    ensures r.Ok? <==> TlsAccepted(env, config, next)
    ensures r.Ok? ==> r.value == ValidatedTls(config.insecureSkipVerify,
                        Unescaped(env, config.servernames),
                        Decoded(env, config.caCert), Alpn(config.nextProtos, next))
    ensures r.Err? ==> r.error == InvalidInput
  {
    if !config.enable || config.servernames == [] {
      return Err(InvalidInput);
    }
    var certificates: seq<seq<Byte>> := [];
    for i := 0 to |config.caCert|
      invariant CertificatesDecode(env, config.caCert[..i])
      invariant certificates == Decoded(env, config.caCert[..i])
    {
      var certificate := env.decodeBase64(config.caCert[i]);
      if certificate.None? || certificate.value == [] {
        return Err(InvalidInput);
      }
      certificates := certificates + [certificate.value];
    }
    assert config.caCert[..|config.caCert|] == config.caCert;
    var nextProtos := config.nextProtos;
    if nextProtos == [] && !(next.Some? && next.value.WebSocket?) {
      nextProtos := ["h2"];
    }
    if next.Some? && next.value.Http2? && "h2" !in nextProtos {
      return Err(InvalidInput);
    }
    var names := Unescaped(env, config.servernames);
    return Ok(ValidatedTls(config.insecureSkipVerify, names, certificates, nextProtos));
  }

  function NormalPath(path: string): string {
    if path == "" then "/" else if path[0] == '/' then path else "/" + path
  }

  function AtLeastOne(n: nat): nat {
    if n == 0 then 1 else n
  }

  /** Protocols that speak to the destination; they must come last. */
  predicate IsDestination(node: ChainNode) {
    node.Yuubinsya? || node.Http? || node.HttpProxy? || node.Socks5?
  }

  predicate VIsDestination(node: ValidatedNode) {
    node.VYuubinsya? || node.VHttp? || node.VHttpProxy? || node.VSocks5?
  }

  predicate Accepted(env: Env, node: ChainNode, next: Option<ChainNode>) {
    && (IsDestination(node) ==> next.None?)
    && match node
       case FixedV2(addresses) => addresses != [] && FixedAddresses(env, addresses).Some?
       case Tls(config) => TlsAccepted(env, config, next)
       case Yuubinsya(password, _, _) => password != ""
       case Socks5(_, _, _, port) => 0 <= port <= 65535
       case _ => true
  }

  /** What an accepted node becomes, given the next runnable node. */
  function Validated(env: Env, node: ChainNode, next: Option<ChainNode>): ValidatedNode
    requires Accepted(env, node, next)
  {
    match node
    case Direct(networkInterface) => VDirect(NonBlank(env, networkInterface))
    case FixedV2(addresses) => VFixed(FixedAddresses(env, addresses).value)
    case Tls(config) =>
      VTls(ValidatedTls(config.insecureSkipVerify,
                        Unescaped(env, config.servernames),
                        Decoded(env, config.caCert), Alpn(config.nextProtos, next)))
    case WebSocket(host, path) => VWebSocket(if host == "" then "localhost" else host, NormalPath(path))
    case Http2(c, m, t) => VHttp2(AtLeastOne(c), AtLeastOne(m), AtLeastOne(t))
    case Yuubinsya(password, over, coalesce) => VYuubinsya(password, over, coalesce)
    case Http(user, password) => VHttp(user, password)
    case HttpProxy(user, password) => VHttpProxy(user, password)
    case Socks5(user, password, hostname, port) => VSocks5(user, password, hostname, port)
    case NoNode => VNone
    case Proxy => VProxy
    case BootstrapDnsWarp => VBootstrapDnsWarp
  }

  method ValidateNode(env: Env, node: ChainNode, next: Option<ChainNode>, last: bool)
    returns (r: Result<ValidatedNode, ErrorKind>)
    requires IsDestination(node) ==> (last <==> next.None?)
    ensures r == if Accepted(env, node, next) then Ok(Validated(env, node, next)) else Err(InvalidInput)
  {
    match node {
      case Direct(networkInterface) => return Ok(VDirect(NonBlank(env, networkInterface)));
      case FixedV2(addresses) =>
        var validated := FixedAddresses(env, addresses);
        return if addresses == [] || validated.None? then Err(InvalidInput) else Ok(VFixed(validated.value));
      case Tls(config) =>
        var tls := ValidateTls(env, config, next);
        return if tls.Ok? then Ok(VTls(tls.value)) else Err(InvalidInput);
      case WebSocket(host, path) =>
        return Ok(VWebSocket(if host == "" then "localhost" else host, NormalPath(path)));
      case Http2(c, m, t) => return Ok(VHttp2(AtLeastOne(c), AtLeastOne(m), AtLeastOne(t)));
      case Yuubinsya(password, over, coalesce) =>
        return if !last || password == "" then Err(InvalidInput) else Ok(VYuubinsya(password, over, coalesce));
      case Http(user, password) => return if !last then Err(InvalidInput) else Ok(VHttp(user, password));
      case HttpProxy(user, password) => return if !last then Err(InvalidInput) else Ok(VHttpProxy(user, password));
      case Socks5(user, password, hostname, port) =>
        return if !last || !(0 <= port <= 65535) then Err(InvalidInput)
               else Ok(VSocks5(user, password, hostname, port));
      case NoNode => return Ok(VNone);
      case Proxy => return Ok(VProxy);
      case BootstrapDnsWarp => return Ok(VBootstrapDnsWarp);
    }
  }

  // ----------------------------------------------------------- whole chains

  /** The first node that is not a no-op. */
  function NextRunnable(chain: seq<ChainNode>): Option<ChainNode> {
    if chain == [] then None else if Noop(chain[0]) then NextRunnable(chain[1..]) else Some(chain[0])
  }

  /** Every node against what follows it. */
  function Checked(env: Env, chain: seq<ChainNode>): (r: Result<seq<ValidatedNode>, ErrorKind>)
    ensures r.Err? ==> r.error == InvalidInput
    ensures r.Ok? ==> |r.value| == |chain|
  {
    if chain == [] then Ok([])
    else
      var next := NextRunnable(chain[1..]);
      var rest := Checked(env, chain[1..]);
      if !Accepted(env, chain[0], next) || rest.Err? then Err(InvalidInput)
      else Ok([Validated(env, chain[0], next)] + rest.value)
  }

  function SpecValidate(env: Env, chain: seq<ChainNode>): Result<seq<ValidatedNode>, ErrorKind> {
    if NextRunnable(chain).None? then Err(InvalidInput) else Checked(env, chain)
  }

  function Prepend(front: seq<ValidatedNode>, rest: Result<seq<ValidatedNode>, ErrorKind>)
    : Result<seq<ValidatedNode>, ErrorKind>
  {
    if rest.Err? then rest else Ok(front + rest.value)
  }

  lemma PrependStep(front: seq<ValidatedNode>, node: ValidatedNode, rest: Result<seq<ValidatedNode>, ErrorKind>)
    ensures Prepend(front, Prepend([node], rest)) == Prepend(front + [node], rest)
  {
    if rest.Ok? {
      assert front + ([node] + rest.value) == front + [node] + rest.value;
    }
  }

  /** `runnable` lists the runnable nodes among the first `n`, with their positions, in order. */
  ghost predicate Listed(chain: seq<ChainNode>, n: nat, runnable: seq<(nat, ChainNode)>)
    requires n <= |chain|
  {
    && (forall p :: 0 <= p < |runnable| ==>
          runnable[p].0 < n && runnable[p].1 == chain[runnable[p].0] && !Noop(runnable[p].1))
    && (forall p, q :: 0 <= p < q < |runnable| ==> runnable[p].0 < runnable[q].0)
    && (forall j :: 0 <= j < n && !Noop(chain[j]) ==> (j, chain[j]) in runnable)
  }

  method ListRunnable(chain: seq<ChainNode>) returns (runnable: seq<(nat, ChainNode)>)
    ensures Listed(chain, |chain|, runnable)
  {
    runnable := [];
    for i := 0 to |chain|
      invariant Listed(chain, i, runnable)
    {
      if !Noop(chain[i]) {
        runnable := runnable + [(i, chain[i])];
      }
    }
  }

  lemma {:induction false} NextRunnableFound(chain: seq<ChainNode>, start: nat, j: nat)
    requires start <= j < |chain| && !Noop(chain[j]) && forall k :: start <= k < j ==> Noop(chain[k])
    ensures NextRunnable(chain[start..]) == Some(chain[j])
    decreases j - start
  {
    if start < j {
      assert chain[start..][1..] == chain[start + 1..];
      NextRunnableFound(chain, start + 1, j);
    }
  }

  lemma {:induction false} NextRunnableAbsent(chain: seq<ChainNode>, start: nat)
    requires start <= |chain| && forall k :: start <= k < |chain| ==> Noop(chain[k])
    ensures NextRunnable(chain[start..]).None?
    decreases |chain| - start
  {
    if start < |chain| {
      assert chain[start..][1..] == chain[start + 1..];
      NextRunnableAbsent(chain, start + 1);
    }
  }

  /** Searching the position list forward finds the next runnable node. */
  method FindAfter(chain: seq<ChainNode>, runnable: seq<(nat, ChainNode)>, index: nat) returns (next: Option<ChainNode>)
    requires Listed(chain, |chain|, runnable) && index < |chain|
    ensures next == NextRunnable(chain[index + 1..])
  {
    for p := 0 to |runnable|
      invariant forall q :: 0 <= q < p ==> runnable[q].0 <= index
    {
      if runnable[p].0 > index {
        NextRunnableFound(chain, index + 1, runnable[p].0);
        return Some(runnable[p].1);
      }
    }
    NextRunnableAbsent(chain, index + 1);
    return None;
  }

  method Validate(env: Env, chain: seq<ChainNode>) returns (r: Result<seq<ValidatedNode>, ErrorKind>)
    ensures r == SpecValidate(env, chain)
  {
    var runnable := ListRunnable(chain);
    if runnable == [] {
      NextRunnableAbsent(chain, 0);
      assert chain[0..] == chain;
      return Err(InvalidInput);
    }
    SomethingRuns(chain, runnable);
    var lastIndex := runnable[|runnable| - 1].0;
    var validated: seq<ValidatedNode> := [];
    assert chain[0..] == chain && forall rest: seq<ValidatedNode> :: [] + rest == rest;
    for i := 0 to |chain|
      invariant Checked(env, chain) == Prepend(validated, Checked(env, chain[i..]))
    {
      var next := FindAfter(chain, runnable, i);
      LastIsLast(chain, runnable, i);
      assert chain[i..][1..] == chain[i + 1..];
      var node := ValidateNode(env, chain[i], next, i == lastIndex);
      if node.Err? {
        return Err(InvalidInput);
      }
      PrependStep(validated, node.value, Checked(env, chain[i + 1..]));
      validated := validated + [node.value];
    }
    assert chain[|chain|..] == [] && validated + [] == validated;
    return Ok(validated);
  }

  lemma SomethingRuns(chain: seq<ChainNode>, runnable: seq<(nat, ChainNode)>)
    requires Listed(chain, |chain|, runnable) && runnable != []
    ensures NextRunnable(chain).Some?
  {
    RunsLater(chain, 0, runnable[0].0);
    assert chain[0..] == chain;
  }

  /** The last listed position is the only runnable one with nothing runnable after it. */
  lemma LastIsLast(chain: seq<ChainNode>, runnable: seq<(nat, ChainNode)>, i: nat)
    requires Listed(chain, |chain|, runnable) && runnable != [] && i < |chain|
    ensures !Noop(chain[i]) ==> (i == runnable[|runnable| - 1].0 <==> NextRunnable(chain[i + 1..]).None?)
  {
    var last := runnable[|runnable| - 1].0;
    if i == last {
      NextRunnableAbsent(chain, i + 1);
    } else if !Noop(chain[i]) {
      assert (i, chain[i]) in runnable;
      RunsLater(chain, i + 1, last);
    }
  }

  lemma {:induction false} RunsLater(chain: seq<ChainNode>, start: nat, j: nat)
    requires start <= j < |chain| && !Noop(chain[j])
    ensures NextRunnable(chain[start..]).Some?
    decreases j - start
  {
    if start < j {
      assert chain[start..][1..] == chain[start + 1..];
      RunsLater(chain, start + 1, j);
    }
  }

  // ------------------------------------------------------ erasing the no-ops

  function Erase(chain: seq<ChainNode>): seq<ChainNode> {
    if chain == [] then [] else if Noop(chain[0]) then Erase(chain[1..]) else [chain[0]] + Erase(chain[1..])
  }

  function VErase(nodes: seq<ValidatedNode>): seq<ValidatedNode> {
    if nodes == [] then [] else if VNoop(nodes[0]) then VErase(nodes[1..]) else [nodes[0]] + VErase(nodes[1..])
  }

  lemma {:induction false} EraseKeepsNext(chain: seq<ChainNode>)
    ensures NextRunnable(Erase(chain)) == NextRunnable(chain)
  {
    if chain != [] {
      EraseKeepsNext(chain[1..]);
    }
  }

  lemma {:induction false} ErasureCommutesWithChecks(env: Env, chain: seq<ChainNode>)
    ensures Checked(env, Erase(chain)) ==
              var whole := Checked(env, chain); if whole.Err? then Err(InvalidInput) else Ok(VErase(whole.value))
  {
    if chain != [] {
      ErasureCommutesWithChecks(env, chain[1..]);
      EraseKeepsNext(chain[1..]);
      if !Noop(chain[0]) {
        assert Erase(chain)[1..] == Erase(chain[1..]);
      }
      var whole := Checked(env, chain);
      if whole.Ok? {
        assert whole.value[1..] == Checked(env, chain[1..]).value;
      }
    }
  }

  /** Removing the no-op nodes first gives the same verdict and the same runnable nodes, ALPN included. */
  lemma ErasureCommutesWithValidation(env: Env, chain: seq<ChainNode>)
    ensures SpecValidate(env, Erase(chain)) ==
              var whole := SpecValidate(env, chain); if whole.Err? then Err(InvalidInput) else Ok(VErase(whole.value))
  {
    EraseKeepsNext(chain);
    ErasureCommutesWithChecks(env, chain);
  }

  // ------------------------------------------------- what validation keeps and refuses

  lemma {:induction false} FixedAddressesKeep(env: Env, addresses: seq<FixedAddress>)
    ensures FixedAddresses(env, addresses).Some? <==>
              forall i :: 0 <= i < |addresses| ==> env.splitHost(addresses[i].host).Some?
    ensures FixedAddresses(env, addresses).Some? ==>
              var r := FixedAddresses(env, addresses).value;
              && |r| == |addresses|
              && forall i :: 0 <= i < |r| ==>
                   && Some((r[i].host, r[i].port)) == env.splitHost(addresses[i].host)
                   && r[i].networkInterface == Trimmed(env, addresses[i].networkInterface)
  {
    if addresses != [] {
      FixedAddressesKeep(env, addresses[1..]);
      assert forall i :: 0 < i < |addresses| ==> addresses[i] == addresses[1..][i - 1];
    }
  }

  /** An interface survives exactly when there is something in it; fixed nodes also strip it. */
  lemma InterfacesKeep(env: Env, value: Option<string>)
    ensures NonBlank(env, value).Some? <==> value.Some? && env.trim(value.value) != ""
    ensures NonBlank(env, value).Some? ==> NonBlank(env, value) == value
    ensures Trimmed(env, value).Some? <==> NonBlank(env, value).Some?
    ensures Trimmed(env, value).Some? ==> Trimmed(env, value).value == env.trim(value.value)
  {
  }

  /** The path a WebSocket asks for: the one configured, with the leading slash it may lack. */
  predicate AbsolutePath(configured: string, path: string) {
    && |path| > 0 && path[0] == '/'
    && (path == configured || path[1..] == configured)
    && (|configured| > 0 && configured[0] == '/' ==> path == configured)
  }

  /** A limit stays as configured; zero means one. */
  predicate Limit(configured: nat, limit: nat) {
    limit >= 1 && (configured >= 1 ==> limit == configured) && (configured == 0 ==> limit == 1)
  }

  /** Every setting of an accepted node is in what it becomes. */
  predicate Keeps(env: Env, node: ChainNode, v: ValidatedNode) {
    match node
    case Direct(i) => v.VDirect? && v.networkInterface == NonBlank(env, i)
    case FixedV2(addresses) =>
      && v.VFixed? && |v.addresses| == |addresses| > 0
      && forall i :: 0 <= i < |addresses| ==>
           && env.splitHost(addresses[i].host) == Some((v.addresses[i].host, v.addresses[i].port))
           && v.addresses[i].networkInterface == Trimmed(env, addresses[i].networkInterface)
    case Tls(config) =>
      && v.VTls? && v.tls.insecureSkipVerify == config.insecureSkipVerify
      && |v.tls.servernames| == |config.servernames| && |v.tls.caCertificates| == |config.caCert|
      && (forall i :: 0 <= i < |config.servernames| ==> v.tls.servernames[i] == env.unescape(config.servernames[i]))
      && (forall i :: 0 <= i < |config.caCert| ==> env.decodeBase64(config.caCert[i]) == Some(v.tls.caCertificates[i]))
    case WebSocket(host, path) =>
      && v.VWebSocket? && AbsolutePath(path, v.path)
      && (if |host| == 0 then v.host == "localhost" else v.host == host)
    case Http2(c, m, t) =>
      v.VHttp2? && Limit(c, v.concurrency) && Limit(m, v.maxStreams) && Limit(t, v.idleTimeoutSecs)
    case Yuubinsya(password, over, coalesce) =>
      v.VYuubinsya? && v.password == password && v.udpOverStream == over && v.udpCoalesce == coalesce
    case Http(user, password) => v.VHttp? && v.user == user && v.password == password
    case HttpProxy(user, password) => v.VHttpProxy? && v.user == user && v.password == password
    case Socks5(user, password, hostname, port) =>
      v.VSocks5? && v.user == user && v.password == password && v.hostname == hostname && v.overridePort == port
    case NoNode => v.VNone?
    case Proxy => v.VProxy?
    case BootstrapDnsWarp => v.VBootstrapDnsWarp?
  }

  lemma ValidationKeepsSettings(env: Env, node: ChainNode, next: Option<ChainNode>)
    requires Accepted(env, node, next)
    ensures Keeps(env, node, Validated(env, node, next))
  {
    if node.FixedV2? {
      FixedAddressesKeep(env, node.addresses);
    }
  }

  /** The ALPN offered: what is configured; without that, nothing before a WebSocket and HTTP/2 everywhere else. */
  lemma AlpnExactly(env: Env, config: TlsConfig, next: Option<ChainNode>)
    requires TlsAccepted(env, config, next)
    ensures var offered := Validated(env, Tls(config), next).tls.nextProtos;
      && (config.nextProtos != [] ==> offered == config.nextProtos)
      && (offered == [] <==> config.nextProtos == [] && next.Some? && next.value.WebSocket?)
      && (config.nextProtos == [] && offered != [] ==> offered == ["h2"])
      && (next.Some? && next.value.Http2? ==> "h2" in offered)
  {
  }

  /** `j` is the first runnable position after `i`, if there is one. */
  predicate RunsNext(chain: seq<ChainNode>, i: nat, j: nat) {
    i < j < |chain| && !Noop(chain[j]) && forall k :: i < k < j ==> Noop(chain[k])
  }

  /** Everything a chain can be refused for, position by position. */
  ghost predicate Refusable(env: Env, chain: seq<ChainNode>, i: nat)
    requires i < |chain|
  {
    match chain[i]
    case FixedV2(addresses) => addresses == [] || exists a :: a in addresses && env.splitHost(a.host).None?
    case Tls(config) =>
      || !config.enable || config.servernames == []
      || (exists c :: c in config.caCert && env.decodeBase64(c) in {None, Some([])})
      || (config.nextProtos != [] && "h2" !in config.nextProtos
          && exists j: nat :: RunsNext(chain, i, j) && chain[j].Http2?)
    case Yuubinsya(password, _, _) => password == "" || exists j: nat :: RunsNext(chain, i, j)
    case Socks5(_, _, _, port) => port < 0 || port > 65535 || exists j: nat :: RunsNext(chain, i, j)
    case Http(_, _) => exists j: nat :: RunsNext(chain, i, j)
    case HttpProxy(_, _) => exists j: nat :: RunsNext(chain, i, j)
    case _ => false
  }

  lemma {:induction false} NextRunnableIs(chain: seq<ChainNode>, i: nat)
    requires i < |chain|
    ensures var next := NextRunnable(chain[i + 1..]);
      && (next.Some? <==> exists j: nat :: RunsNext(chain, i, j))
      && (forall j: nat :: RunsNext(chain, i, j) ==> next == Some(chain[j]))
  {
    if j: nat :| RunsNext(chain, i, j) {
      NextRunnableFound(chain, i + 1, j);
    }
    forall j: nat | RunsNext(chain, i, j) ensures NextRunnable(chain[i + 1..]) == Some(chain[j]) {
      NextRunnableFound(chain, i + 1, j);
    }
    if NextRunnable(chain[i + 1..]).Some? {
      var j := FirstRunnable(chain, i + 1);
      assert RunsNext(chain, i, j);
    }
  }

  lemma {:induction false} FirstRunnable(chain: seq<ChainNode>, start: nat) returns (j: nat)
    requires start <= |chain| && NextRunnable(chain[start..]).Some?
    ensures start <= j < |chain| && !Noop(chain[j]) && forall k :: start <= k < j ==> Noop(chain[k])
    decreases |chain| - start
  {
    j := start;
    if Noop(chain[start]) {
      assert chain[start..][1..] == chain[start + 1..];
      j := FirstRunnable(chain, start + 1);
    }
  }

  lemma CertificatesExactly(env: Env, certificates: seq<string>)
    ensures CertificatesDecode(env, certificates) <==>
              !exists c :: c in certificates && env.decodeBase64(c) in {None, Some([])}
  {
    if !CertificatesDecode(env, certificates) {
      var i :| 0 <= i < |certificates| &&
        !(env.decodeBase64(certificates[i]).Some? && env.decodeBase64(certificates[i]).value != []);
      assert certificates[i] in certificates;
    }
  }

  lemma RefusedExactlyAt(env: Env, chain: seq<ChainNode>, i: nat)
    requires i < |chain|
    ensures Accepted(env, chain[i], NextRunnable(chain[i + 1..])) <==> !Refusable(env, chain, i)
  {
    NextRunnableIs(chain, i);
    match chain[i] {
      case FixedV2(addresses) => FixedAddressesKeep(env, addresses);
      case Tls(config) => CertificatesExactly(env, config.caCert);
      case _ =>
    }
  }

  lemma {:induction false} CheckedExactly(env: Env, chain: seq<ChainNode>)
    ensures Checked(env, chain).Ok? <==>
              forall i :: 0 <= i < |chain| ==> Accepted(env, chain[i], NextRunnable(chain[i + 1..]))
  {
    if chain != [] {
      CheckedExactly(env, chain[1..]);
      forall i | 0 < i < |chain|
        ensures chain[i] == chain[1..][i - 1] && chain[i + 1..] == chain[1..][i..]
      {
      }
    }
  }

  /** A chain is refused exactly when nothing in it runs or one of its positions gives a reason. */
  lemma RefusedExactly(env: Env, chain: seq<ChainNode>)
    ensures SpecValidate(env, chain).Err? <==>
              || (forall i :: 0 <= i < |chain| ==> Noop(chain[i]))
              || (exists i :: 0 <= i < |chain| && Refusable(env, chain, i))
  {
    CheckedExactly(env, chain);
    forall i | 0 <= i < |chain|
      ensures Accepted(env, chain[i], NextRunnable(chain[i + 1..])) <==> !Refusable(env, chain, i)
    {
      RefusedExactlyAt(env, chain, i);
    }
    assert chain[0..] == chain;
    if forall i :: 0 <= i < |chain| ==> Noop(chain[i]) {
      NextRunnableAbsent(chain, 0);
    } else {
      var i :| 0 <= i < |chain| && !Noop(chain[i]);
      RunsLater(chain, 0, i);
    }
  }
}
