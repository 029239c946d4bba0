/** The kernel the daemon drives, reduced to the effects its operations are documented to have.
    An operation's outcome is read from an oracle, so a claim about every oracle is a claim about
    every pattern of successes, failures and half-done work. */
module Kernel {
  import opened Basics
  import opened Prefix
  import Nft

  const INTERFACE_NAME := "wirefinder"

  datatype Key = Key(id: nat)

  datatype SocketAddr = SocketAddr(ip: IpAddr, port: nat)

  datatype Peer = Peer(
    publicKey: Key,
    endpoint: Option<SocketAddr>,
    allowedIps: seq<IpAddrMask>,
    keepalive: Option<nat>,
    presharedKey: Option<Key>)

  datatype InterfaceConfiguration = InterfaceConfiguration(
    prvkey: Key,
    addresses: seq<IpAddrMask>,
    port: nat,
    peers: seq<Peer>,
    mtu: Option<nat>,
    fwmark: Option<nat>)

  datatype Interface = Interface(
    privateKey: Option<Key>,
    addresses: seq<IpAddrMask>,
    port: nat,
    peers: seq<Peer>,
    mtu: Option<nat>,
    fwmark: Option<nat>)

  /** The `ip rule`s of the kill switch: the main table's default route is suppressed, and whatever does not carry
      the mark is sent to the tunnel's own table. */
  datatype KillRule = SuppressDefault | NotFwmark(mark: nat)

  function KillSwitch(mark: nat): set<KillRule> {
    {SuppressDefault, NotFwmark(mark)}
  }

  /** Both rules are there, for some mark. */
  ghost predicate Armed(rules: set<KillRule>) {
    SuppressDefault in rules && exists m: nat :: NotFwmark(m) in rules
  }

  datatype Proto = Static | OnLink | OtherProto(id: nat)

  /** A route of the main table. */
  datatype Route = Route(prefix: IpAddrMask, dev: string, proto: Proto, metric: nat)

  datatype KState = KState(
    iface: Option<Interface>,
    rules: set<KillRule>,
    routes: seq<Route>,
    nft: Nft.Ruleset,
    resolver: Option<seq<IpAddr>>)

  datatype PeerStats = PeerStats(endpoint: Option<SocketAddr>, lastHandshake: Option<nat>, rxBytes: nat, txBytes: nat)

  /** What the oracle decides about one operation: whether it succeeds, what a failure leaves behind,
      and the values the kernel picks on its own. */
  datatype Outcome = Outcome(
    ok: bool,
    partial: KState,
    stats: Key -> PeerStats,
    freeMark: nat,
    freePort: nat,
    proto: Proto)

  type Oracle = nat -> Outcome

  datatype Op =
    | ReadInterfaceData
    | CreateInterface
    | RemoveInterface
    | ConfigureInterface(cfg: InterfaceConfiguration)
    | ConfigurePeerRouting(peers: seq<Peer>)
    | RouteReplace(prefix: IpAddrMask)
    | RouteShow(family: Family)
    | RouteDel(prefix: IpAddrMask)
    | ApplyFirewall(addresses: seq<IpAddrMask>, fwmark: Option<nat>)
    | ClearFirewall
    | ConfigureDns(dns: seq<IpAddr>)
    | ResetDns

  /** The operations that only a disconnect may issue. */
  predicate Teardown(op: Op) {
    op.RemoveInterface? || op.ClearFirewall?
  }

  datatype Reply =
    | Failed
    | Done
    | Host(iface: Interface, stats: Key -> PeerStats)
    | Prefixes(prefixes: seq<IpAddrMask>)

  // --- routes ------------------------------------------------------------------

  /** The routes wirefinder tags as its own. */
  predicate Owned(r: Route) {
    r.dev == INTERFACE_NAME && r.proto == Static
  }

  function NotAt(p: IpAddrMask, metric: nat): Route -> bool {
    (r: Route) => !(r.prefix == p && r.metric == metric)
  }

  function NotOwnedAt(p: IpAddrMask): Route -> bool {
    (r: Route) => !(Owned(r) && r.prefix == p)
  }

  function ListedIn(family: Family): Route -> bool {
    (r: Route) => Owned(r) && r.prefix.address.family == family && r.prefix.cidr > 0
  }

  /** `ip route replace`: a route with the same destination and metric gives way. */
  function PutRoute(routes: seq<Route>, route: Route): seq<Route> {
    Keep(routes, NotAt(route.prefix, route.metric)) + [route]
  }

  function PutAll(routes: seq<Route>, prefixes: seq<IpAddrMask>, proto: Proto): seq<Route>
    decreases prefixes
  {
    if prefixes == [] then routes
    else PutAll(PutRoute(routes, Route(NetworkPrefix(prefixes[0]), INTERFACE_NAME, proto, 0)), prefixes[1..], proto)
  }

  /** A route for the prefix is ours. */
  predicate HasOwned(routes: seq<Route>, p: IpAddrMask) {
    exists r :: r in routes && Owned(r) && r.prefix == p
  }

  function DropOwned(routes: seq<Route>, p: IpAddrMask): seq<Route> {
    Keep(routes, NotOwnedAt(p))
  }

  /** The destinations `ip -j route show` lists for us; a default route prints as a word and is not parsed. */
  function ReadBack(routes: seq<Route>, family: Family): seq<IpAddrMask> {
    Map(Keep(routes, ListedIn(family)), (r: Route) => r.prefix)
  }

  /** The kernel's own on-link routes follow the interface's addresses. */
  predicate Linked(r: Route) {
    r.dev == INTERFACE_NAME && r.proto == OnLink
  }

  function NotLinked(): Route -> bool {
    (r: Route) => !Linked(r)
  }

  function FreshLink(): Route -> bool {
    (r: Route) => Linked(r) && Canonical(r.prefix)
  }

  function NotOnInterface(): Route -> bool {
    (r: Route) => r.dev != INTERFACE_NAME
  }

  function Relink(routes: seq<Route>, linked: seq<Route>): seq<Route> {
    Keep(routes, NotLinked()) + Keep(linked, FreshLink())
  }

  function OffInterface(routes: seq<Route>): seq<Route> {
    Keep(routes, NotOnInterface())
  }

  // --- effects -----------------------------------------------------------------

  predicate HasDefaultRoute(peers: seq<Peer>) {
    exists p, a :: p in peers && a in p.allowedIps && IsUnspecified(a.address)
  }

  function AllAllowedIps(peers: seq<Peer>): seq<IpAddrMask> {
    if peers == [] then [] else peers[0].allowedIps + AllAllowedIps(peers[1..])
  }

  function Configured(i: Interface, cfg: InterfaceConfiguration, o: Outcome): Interface {
    Interface(Some(cfg.prvkey), cfg.addresses, if cfg.port != 0 then cfg.port else o.freePort, cfg.peers,
              if cfg.mtu.Some? then cfg.mtu else i.mtu, cfg.fwmark)
  }

  function NonZero(m: Option<nat>): Option<nat> {
    if m == Some(0) then None else m
  }

  /** The mark the interface puts on its own packets. */
  function DeviceMark(k: KState): Option<nat> {
    if k.iface.None? then None else NonZero(k.iface.value.fwmark)
  }

  /** A device that carries a mark keeps it; otherwise routing picks a free, non-zero one. */
  function RoutingMark(i: Interface, o: Outcome): nat {
    var kept := NonZero(i.fwmark);
    if kept.Some? then kept.value else o.freeMark + 1
  }

  /** The tag on the routes defguard adds itself: not the kernel's. */
  function DefguardProto(o: Outcome): Proto {
    if o.proto.OnLink? then OtherProto(0) else o.proto
  }

  function ApplyConfigure(k: KState, cfg: InterfaceConfiguration, o: Outcome): (KState, Reply) {
    if k.iface.None? then (k, Failed)
    else
      var relinked := k.(routes := Relink(k.routes, o.partial.routes));
      if o.ok then (relinked.(iface := Some(Configured(k.iface.value, cfg, o))), Done)
      else (relinked.(iface := if o.partial.iface.Some? then o.partial.iface else k.iface), Failed)
  }

  /** With a default route: the kill switch, and no other route. Without: one route per AllowedIP. */
  function ApplyPeerRouting(k: KState, peers: seq<Peer>, o: Outcome): (KState, Reply) {
    if k.iface.None? then (k, Failed)
    else if HasDefaultRoute(peers) then
      if o.ok then 
        var mark := RoutingMark(k.iface.value, o);
        (k.(rules := k.rules + KillSwitch(mark), iface := Some(k.iface.value.(fwmark := Some(mark)))), Done)
      else (k.(rules := k.rules + o.partial.rules), Failed)
    else
      var wanted := AllAllowedIps(peers);
      if o.ok then (k.(routes := PutAll(k.routes, wanted, DefguardProto(o))), Done)
      else
        var n := if o.freeMark <= |wanted| then o.freeMark else |wanted|;
        (k.(routes := PutAll(k.routes, wanted[..n], DefguardProto(o))), Failed)
  }

  function ApplyScript(k: KState, addresses: seq<IpAddrMask>, fwmark: Option<nat>, o: Outcome): (KState, Reply) {
    match Nft.Exec(Nft.NftScript(INTERFACE_NAME, addresses, fwmark), k.nft)
    case None => (k, Failed)
    case Some(rules) => if o.ok then (k.(nft := rules), Done) else (k, Failed)
  }

  /** The interface goes, and with it the kill switch, its routes and its DNS. A failure may stop part-way. */
  function ApplyRemove(k: KState, o: Outcome): (KState, Reply) {
    if k.iface.None? then (k, Failed)
    else if o.ok then (k.(iface := None, rules := {}, routes := OffInterface(k.routes), resolver := None), Done)
    else if o.partial.iface.None?
    then (k.(iface := None, rules := k.rules * o.partial.rules, routes := OffInterface(k.routes),
             resolver := o.partial.resolver), Failed)
    else (k.(rules := k.rules * o.partial.rules, resolver := o.partial.resolver), Failed)
  }

  const FRESH_INTERFACE := Interface(None, [], 0, [], None, None)

  function Effect(k: KState, op: Op, o: Outcome): (KState, Reply) {
    match op
    case ReadInterfaceData =>
      if o.ok && k.iface.Some? then (k, Host(k.iface.value, o.stats)) else (k, Failed)
    case CreateInterface =>
      if o.ok && k.iface.None? then (k.(iface := Some(FRESH_INTERFACE)), Done) else (k, Failed)
    case RemoveInterface => ApplyRemove(k, o)
    case ConfigureInterface(cfg) => ApplyConfigure(k, cfg, o)
    case ConfigurePeerRouting(peers) => ApplyPeerRouting(k, peers, o)
    case RouteReplace(p) =>
      if o.ok && k.iface.Some? && Canonical(p)
      then (k.(routes := PutRoute(k.routes, Route(p, INTERFACE_NAME, Static, 0))), Done)
      else (k, Failed)
    case RouteShow(family) =>
      if o.ok then (k, Prefixes(ReadBack(k.routes, family))) else (k, Failed)
    case RouteDel(p) =>
      if o.ok && HasOwned(k.routes, p) then (k.(routes := DropOwned(k.routes, p)), Done) else (k, Failed)
    case ApplyFirewall(addresses, fwmark) => ApplyScript(k, addresses, fwmark, o)
    case ClearFirewall => ApplyScript(k, [], None, o)
    case ConfigureDns(dns) =>
      if o.ok then (k.(resolver := Some(dns)), Done) else (k.(resolver := o.partial.resolver), Failed)
    case ResetDns =>
      if o.ok then (k.(resolver := None), Done) else (k.(resolver := o.partial.resolver), Failed)
  }

  // --- worlds ------------------------------------------------------------------

  /** An operation that was issued, whether it succeeded, and the kernel right after it. */
  datatype Event = Event(op: Op, ok: bool, after: KState)

  /** The kernel, how far the oracle has been read, and everything that has happened so far. */
  datatype World = World(k: KState, clock: nat, trace: seq<Event>)

  function Step(env: Oracle, w: World, op: Op): (World, Reply) {
    var (k, reply) := Effect(w.k, op, env(w.clock));
    (World(k, w.clock + 1, w.trace + [Event(op, !reply.Failed?, k)]), reply)
  }

  /** The kernel as the object the daemon holds: every operation changes it in place. */
  class Device {
    const env: Oracle
    var k: KState
    var clock: nat
    ghost var trace: seq<Event>

    ghost function Now(): World
      reads this
    {
      World(k, clock, trace)
    }

    constructor (env: Oracle, k: KState)
      ensures this.env == env && Now() == World(k, 0, [])
    {
      this.env := env;
      this.k := k;
      clock := 0;
      trace := [];
    }

    method Do(op: Op) returns (reply: Reply)
      modifies this
      ensures (Now(), reply) == Step(env, old(Now()), op)
    {
      var (next, answer) := Effect(k, op, env(clock));
      k := next;
      clock := clock + 1;
      reply := answer;
      trace := trace + [Event(op, !answer.Failed?, next)];
    }
  }
}
