/** From a stored tunnel to what the kernel is asked for: parsing, validation, endpoint resolution. */
module Tunnel {
  import opened Basics
  import opened Prefix
  import opened Text
  import opened Config
  import opened Kernel

  /** The text parsers and the key arithmetic of the libraries the daemon links. */
  datatype Lib = Lib(
    parseKey: string -> Option<Key>,
    showKey: Key -> string,
    publicOf: Key -> Key,
    parseMask: string -> Option<IpAddrMask>,
    parseIp: string -> Option<IpAddr>,
    parseSocket: string -> Option<SocketAddr>,
    showSocket: SocketAddr -> string)

  /** A printed socket address parses back to itself. */
  ghost predicate PrintsParse(lib: Lib) {
    forall a :: lib.parseSocket(lib.showSocket(a)) == Some(a)
  }

  /** `keys::public_key`. */
  function PublicKey(lib: Lib, privateKey: string): Option<string> {
    match lib.parseKey(Trim(privateKey))
    case None => None
    case Some(k) => Some(lib.showKey(lib.publicOf(k)))
  }

  // --- resolving the endpoint --------------------------------------------------

  /** A literal address needs no resolver; otherwise `answer` is what the resolver said. */
  function ResolveEndpoint(lib: Lib, s: ServerConfig, answer: Option<SocketAddr>): Option<SocketAddr> {
    var literal := lib.parseSocket(Trim(s.endpoint));
    if literal.Some? then literal else answer
  }

  function OrCached(lib: Lib, resolved: Option<SocketAddr>, cached: Option<string>): Option<SocketAddr> {
    if resolved.Some? then resolved
    else if cached.Some? then lib.parseSocket(cached.value)
    else None
  }

  function EndpointAddr(lib: Lib, s: ServerConfig, answer: Option<SocketAddr>): Option<SocketAddr> {
    OrCached(lib, ResolveEndpoint(lib, s, answer), s.resolvedEndpoint)
  }

  // --- parsing the fields ------------------------------------------------------

  function MaskParser(lib: Lib): string -> Option<IpAddrMask> {
    t => lib.parseMask(Trim(t))
  }

  function ParseMasks(lib: Lib, texts: seq<string>): Option<seq<IpAddrMask>> {
    CollectSome(texts, MaskParser(lib))
  }

  function IpParser(lib: Lib): string -> Option<IpAddr> {
    t => lib.parseIp(Trim(t))
  }

  function ParseDns(lib: Lib, s: ServerConfig): Result<seq<IpAddr>, Error> {
    match CollectSome(s.dns, IpParser(lib))
    case None => Err(BadDns)
    case Some(dns) => Ok(dns)
  }

  function ParseAddresses(lib: Lib, s: ServerConfig): Result<seq<IpAddrMask>, Error> {
    if s.addresses == [] then Err(NoAddress)
    else
      match ParseMasks(lib, s.addresses)
      case None => Err(BadAddress)
      case Some(addresses) => Ok(addresses)
  }

  function PeerOf(lib: Lib, s: ServerConfig, answer: Option<SocketAddr>): Result<Peer, Error> {
    match lib.parseKey(Trim(s.publicKey))
    case None => Err(BadPublicKey)
    case Some(key) =>
      match EndpointAddr(lib, s, answer)
      case None => Err(Unresolved)
      case Some(endpoint) =>
        match ParseMasks(lib, s.allowedIps)
        case None => Err(BadAllowedIp)
        case Some(allowed) =>
          var peer := Peer(key, Some(endpoint), allowed, s.keepalive, None);
          if s.presharedKey.None? then Ok(peer)
          else
            match lib.parseKey(Trim(s.presharedKey.value))
            case None => Err(BadPresharedKey)
            case Some(psk) => Ok(peer.(presharedKey := Some(psk)))
  }

  /** `build_peer` as the source runs it: a peer filled in field by field, AllowedIPs pushed one at a time. */
  method BuildPeer(lib: Lib, s: ServerConfig, answer: Option<SocketAddr>) returns (r: Result<Peer, Error>)
    ensures r == PeerOf(lib, s, answer)
  {
    hide Trim, EndpointAddr;
    var key := lib.parseKey(Trim(s.publicKey));
    if key.None? {
      return Err(BadPublicKey);
    }
    var peer := Peer(key.value, None, [], None, None);
    var endpoint := EndpointAddr(lib, s, answer);
    if endpoint.None? {
      return Err(Unresolved);
    }
    peer := peer.(endpoint := endpoint);
    for i := 0 to |s.allowedIps|
      invariant peer == Peer(key.value, endpoint, peer.allowedIps, None, None)
      invariant ParseMasks(lib, s.allowedIps[..i]) == Some(peer.allowedIps)
    {
      var mask := lib.parseMask(Trim(s.allowedIps[i]));
      if mask.None? {
        CollectSomeElements(s.allowedIps, MaskParser(lib));
        return Err(BadAllowedIp);
      }
      CollectSnoc(s.allowedIps[..i], s.allowedIps[i], MaskParser(lib));
      assert s.allowedIps[..i] + [s.allowedIps[i]] == s.allowedIps[..i + 1];
      peer := peer.(allowedIps := peer.allowedIps + [mask.value]);
    }
    assert s.allowedIps[..|s.allowedIps|] == s.allowedIps;
    peer := peer.(keepalive := s.keepalive);
    if s.presharedKey.Some? {
      var psk := lib.parseKey(Trim(s.presharedKey.value));
      if psk.None? {
        return Err(BadPresharedKey);
      }
      peer := peer.(presharedKey := psk);
    }
    r := Ok(peer);
  }

  function ValidateServer(lib: Lib, s: ServerConfig, answer: Option<SocketAddr>): Result<SocketAddr, Error> {
    if lib.parseKey(Trim(s.privateKey)).None? then Err(BadPrivateKey)
    else
      match PeerOf(lib, s, answer)
      case Err(e) => Err(e)
      case Ok(peer) =>
        match ParseDns(lib, s)
        case Err(e) => Err(e)
        case Ok(_) =>
          match ParseAddresses(lib, s)
          case Err(e) => Err(e)
          case Ok(_) => if peer.endpoint.None? then Err(Unresolved) else Ok(peer.endpoint.value)
  }

  function NotDefault(): IpAddrMask -> bool {
    (a: IpAddrMask) => !IsUnspecified(a.address)
  }

  /** The AllowedIPs that get a main-table route of their own, as network prefixes. */
  function SplitRoutePrefixes(peer: Peer): seq<IpAddrMask> {
    Map(Keep(peer.allowedIps, NotDefault()), NetworkPrefix)
  }

  /** Everything `switch` parses before it touches the tunnel. */
  datatype Plan = Plan(
    peer: Peer,
    split: seq<IpAddrMask>,
    fullTunnel: bool,
    dns: seq<IpAddr>,
    addresses: seq<IpAddrMask>,
    endpoint: SocketAddr)

  function PlanSwitch(lib: Lib, s: ServerConfig, answer: Option<SocketAddr>): Result<Plan, Error> {
    match PeerOf(lib, s, answer)
    case Err(e) => Err(e)
    case Ok(peer) =>
      match ParseDns(lib, s)
      case Err(e) => Err(e)
      case Ok(dns) =>
        match ParseAddresses(lib, s)
        case Err(e) => Err(e)
        case Ok(addresses) =>
          if peer.endpoint.None? then Err(Unresolved)
          else Ok(Plan(peer, SplitRoutePrefixes(peer), HasDefaultRoute([peer]), dns, addresses, peer.endpoint.value))
  }

  function BuildInterfaceConfig(lib: Lib, s: ServerConfig, peers: seq<Peer>, fwmark: Option<nat>)
    : Result<InterfaceConfiguration, Error>
  {
    match lib.parseKey(Trim(s.privateKey))
    case None => Err(BadPrivateKey)
    case Some(key) =>
      match ParseAddresses(lib, s)
      case Err(e) => Err(e)
      case Ok(addresses) => Ok(InterfaceConfiguration(key, addresses, s.listenPort, peers, s.mtu, fwmark))
  }

  // --- what validation is worth ------------------------------------------------

  /** The peer's own fields parse. */
  predicate PeerFields(lib: Lib, s: ServerConfig) {
    && lib.parseKey(Trim(s.publicKey)).Some?
    && (s.presharedKey.Some? ==> lib.parseKey(Trim(s.presharedKey.value)).Some?)
    && ParseMasks(lib, s.allowedIps).Some?
  }

  /** Everything about a stored tunnel that does not depend on the resolver is in order. */
  predicate WellFormed(lib: Lib, s: ServerConfig) {
    && lib.parseKey(Trim(s.privateKey)).Some?
    && PeerFields(lib, s)
    && ParseAddresses(lib, s).Ok?
    && ParseDns(lib, s).Ok?
  }

  /** A cached endpoint that still parses. */
  predicate HasCache(lib: Lib, s: ServerConfig) {
    s.resolvedEndpoint.Some? && lib.parseSocket(s.resolvedEndpoint.value).Some?
  }

  lemma PeerOfExactly(lib: Lib, s: ServerConfig, answer: Option<SocketAddr>)
    ensures PeerOf(lib, s, answer).Ok? <==> PeerFields(lib, s) && EndpointAddr(lib, s, answer).Some?
    ensures PeerOf(lib, s, answer).Ok? ==> PeerOf(lib, s, answer).value.endpoint == EndpointAddr(lib, s, answer)
  {
    hide Trim, ParseMasks;
  }

  /** Validation accepts exactly the well-formed tunnels whose endpoint can be found, and reports that endpoint. */
  lemma ValidateExactly(lib: Lib, s: ServerConfig, answer: Option<SocketAddr>)
    ensures ValidateServer(lib, s, answer).Ok? <==> WellFormed(lib, s) && EndpointAddr(lib, s, answer).Some?
    ensures ValidateServer(lib, s, answer).Ok? ==>
            ValidateServer(lib, s, answer).value == EndpointAddr(lib, s, answer).value
  {
    hide Trim, ParseMasks, ParseDns, ParseAddresses, PeerOf;
    PeerOfExactly(lib, s, answer);
    var peer := PeerOf(lib, s, answer).Ok?;
    var dns := ParseDns(lib, s).Ok?;
    var addresses := ParseAddresses(lib, s).Ok?;
    assert ValidateServer(lib, s, answer).Ok? <==> lib.parseKey(Trim(s.privateKey)).Some? && peer && dns && addresses;
  }

  lemma PlanExactly(lib: Lib, s: ServerConfig, answer: Option<SocketAddr>)
    ensures PlanSwitch(lib, s, answer).Ok? <==>
            PeerFields(lib, s) && ParseAddresses(lib, s).Ok? && ParseDns(lib, s).Ok?
              && EndpointAddr(lib, s, answer).Some?
  {
    hide Trim, ParseMasks, ParseDns, ParseAddresses, PeerOf;
    PeerOfExactly(lib, s, answer);
    var peer := PeerOf(lib, s, answer).Ok?;
    var dns := ParseDns(lib, s).Ok?;
    var addresses := ParseAddresses(lib, s).Ok?;
    assert PlanSwitch(lib, s, answer).Ok? <==> peer && dns && addresses;
  }

  /** The parse phase of a switch survives every resolver answer exactly when the fields are well-formed
      and the endpoint is a literal or has a usable cached address. */
  lemma PlanNeverFails(lib: Lib, s: ServerConfig)
    ensures (forall answer :: PlanSwitch(lib, s, answer).Ok?) <==>
            && PeerFields(lib, s) && ParseAddresses(lib, s).Ok? && ParseDns(lib, s).Ok?
            && (HasCache(lib, s) || lib.parseSocket(Trim(s.endpoint)).Some?)
  {
    hide Trim, ParseDns, ParseAddresses, PeerFields, PlanSwitch;
    var fields := PeerFields(lib, s) && ParseAddresses(lib, s).Ok? && ParseDns(lib, s).Ok?;
    forall answer ensures PlanSwitch(lib, s, answer).Ok? <==> fields && EndpointAddr(lib, s, answer).Some? {
      PlanExactly(lib, s, answer);
    }
    assert EndpointAddr(lib, s, None).Some? <==> HasCache(lib, s) || lib.parseSocket(Trim(s.endpoint)).Some?;
    assert forall answer :: EndpointAddr(lib, s, None).Some? ==> EndpointAddr(lib, s, answer).Some?;
    assert PlanSwitch(lib, s, None).Ok? <==> fields && EndpointAddr(lib, s, None).Some?;
  }
}
