/** Two kernels that differ only in secrets, driven the same way: what the secrets cannot influence. */
module KernelSecrecy {
  import opened Basics
  import opened Prefix
  import opened Text
  import opened Config
  import opened Kernel
  import opened Tunnel
  import opened Switch
  import Nft

  // --- the same but for secrets ------------------------------------------------

  /** The public half of a private key, as clients see it. */
  function Shown(lib: Lib, key: Option<Key>): Option<string> {
    if key.None? then None else Some(lib.showKey(lib.publicOf(key.value)))
  }

  function WithoutSecret(): Peer -> Peer {
    (p: Peer) => p.(presharedKey := None)
  }

  predicate SamePeers(a: seq<Peer>, b: seq<Peer>) {
    Map(a, WithoutSecret()) == Map(b, WithoutSecret())
  }

  predicate SameIface(lib: Lib, a: Interface, b: Interface) {
    && Shown(lib, a.privateKey) == Shown(lib, b.privateKey)
    && SamePeers(a.peers, b.peers)
    && a.(privateKey := None, peers := []) == b.(privateKey := None, peers := [])
  }

  predicate SameKernel(lib: Lib, a: KState, b: KState) {
    && a.(iface := None) == b.(iface := None)
    && (a.iface.Some? <==> b.iface.Some?)
    && (a.iface.Some? ==> SameIface(lib, a.iface.value, b.iface.value))
  }

  /** Two operations that go the same way: both succeed or both fail, with the same values picked, and a failure leaves
      each kernel half-done alike, each with its own secrets. */
  ghost predicate SameOutcome(lib: Lib, a: Outcome, b: Outcome) {
    && a.ok == b.ok && a.stats == b.stats && a.freeMark == b.freeMark && a.freePort == b.freePort && a.proto == b.proto
    && SameKernel(lib, a.partial, b.partial)
  }

  ghost predicate AlikeOracles(lib: Lib, a: Oracle, b: Oracle) {
    forall n: nat :: SameOutcome(lib, a(n), b(n))
  }

  predicate SameWorld(lib: Lib, a: World, b: World) {
    SameKernel(lib, a.k, b.k) && a.clock == b.clock
  }

  predicate SameArguments(lib: Lib, a: InterfaceConfiguration, b: InterfaceConfiguration) {
    && Shown(lib, Some(a.prvkey)) == Shown(lib, Some(b.prvkey))
    && SamePeers(a.peers, b.peers)
    && a.(prvkey := Key(0), peers := []) == b.(prvkey := Key(0), peers := [])
  }

  predicate SameOp(lib: Lib, a: Op, b: Op) {
    match a
    case ConfigureInterface(cfg) => b.ConfigureInterface? && SameArguments(lib, cfg, b.cfg)
    case ConfigurePeerRouting(peers) => b.ConfigurePeerRouting? && SamePeers(peers, b.peers)
    case _ => a == b
  }

  ghost predicate SameReply(lib: Lib, a: Reply, b: Reply) {
    match a
    case Host(iface, stats) => b.Host? && SameIface(lib, iface, b.iface) && stats == b.stats
    case _ => a == b
  }

  // --- one operation -----------------------------------------------------------

  lemma SamePeersAt(a: seq<Peer>, b: seq<Peer>)
    requires SamePeers(a, b)
    ensures |a| == |b| && forall i :: 0 <= i < |a| ==> a[i].(presharedKey := None) == b[i].(presharedKey := None)
  {
    var va, vb := Map(a, WithoutSecret()), Map(b, WithoutSecret());
    forall i | 0 <= i < |a| ensures a[i].(presharedKey := None) == b[i].(presharedKey := None) {
      assert va[i] == vb[i];
    }
  }

  lemma SamePeersFrom(a: seq<Peer>, b: seq<Peer>)
    requires |a| == |b| && forall i :: 0 <= i < |a| ==> a[i].(presharedKey := None) == b[i].(presharedKey := None)
    ensures SamePeers(a, b)
  {
  }

  lemma {:induction false} SameAllowed(a: seq<Peer>, b: seq<Peer>)
    requires |a| == |b| && forall i :: 0 <= i < |a| ==> a[i].(presharedKey := None) == b[i].(presharedKey := None)
    ensures AllAllowedIps(a) == AllAllowedIps(b)
    decreases a
  {
    if a != [] {
      assert a[0].(presharedKey := None) == b[0].(presharedKey := None);
      SameAllowed(a[1..], b[1..]);
    }
  }

  lemma SameRouting(a: seq<Peer>, b: seq<Peer>)
    requires SamePeers(a, b)
    ensures HasDefaultRoute(a) <==> HasDefaultRoute(b)
    ensures AllAllowedIps(a) == AllAllowedIps(b)
  {
    SamePeersAt(a, b);
    SameAllowed(a, b);
    SameDefault(a, b);
    SameDefault(b, a);
  }

  lemma SameDefault(a: seq<Peer>, b: seq<Peer>)
    requires |a| == |b| && forall i :: 0 <= i < |a| ==> a[i].(presharedKey := None) == b[i].(presharedKey := None)
    ensures HasDefaultRoute(a) ==> HasDefaultRoute(b)
  {
    if HasDefaultRoute(a) {
      var p, m :| p in a && m in p.allowedIps && IsUnspecified(m.address);
      var i :| 0 <= i < |a| && a[i] == p;
      assert a[i].(presharedKey := None).allowedIps == b[i].(presharedKey := None).allowedIps;
      assert b[i] in b && m in b[i].allowedIps;
    }
  }

  lemma ConfigureAlike(lib: Lib, a: KState, b: KState, ca: InterfaceConfiguration, cb: InterfaceConfiguration,
                       oa: Outcome, ob: Outcome)
    requires SameKernel(lib, a, b) && SameOutcome(lib, oa, ob) && SameArguments(lib, ca, cb)
    ensures SameKernel(lib, ApplyConfigure(a, ca, oa).0, ApplyConfigure(b, cb, ob).0)
            && SameReply(lib, ApplyConfigure(a, ca, oa).1, ApplyConfigure(b, cb, ob).1)
  {
    hide SamePeers, Relink;
  }

  lemma RoutingAlike(lib: Lib, a: KState, b: KState, pa: seq<Peer>, pb: seq<Peer>, oa: Outcome, ob: Outcome)
    requires SameKernel(lib, a, b) && SameOutcome(lib, oa, ob) && SamePeers(pa, pb)
    ensures SameKernel(lib, ApplyPeerRouting(a, pa, oa).0, ApplyPeerRouting(b, pb, ob).0)
            && SameReply(lib, ApplyPeerRouting(a, pa, oa).1, ApplyPeerRouting(b, pb, ob).1)
  {
    hide SamePeers, HasDefaultRoute, AllAllowedIps, PutAll;
    SameRouting(pa, pb);
  }

  lemma RemoveAlike(lib: Lib, a: KState, b: KState, oa: Outcome, ob: Outcome)
    requires SameKernel(lib, a, b) && SameOutcome(lib, oa, ob)
    ensures SameKernel(lib, ApplyRemove(a, oa).0, ApplyRemove(b, ob).0)
            && SameReply(lib, ApplyRemove(a, oa).1, ApplyRemove(b, ob).1)
  {
    hide SamePeers, OffInterface;
  }

  lemma ScriptAlike(lib: Lib, a: KState, b: KState, addresses: seq<IpAddrMask>, fwmark: Option<nat>, oa: Outcome,
                    ob: Outcome)
    requires SameKernel(lib, a, b) && SameOutcome(lib, oa, ob)
    ensures SameKernel(lib, ApplyScript(a, addresses, fwmark, oa).0, ApplyScript(b, addresses, fwmark, ob).0)
            && SameReply(lib, ApplyScript(a, addresses, fwmark, oa).1, ApplyScript(b, addresses, fwmark, ob).1)
  {
    hide SamePeers, SameIface, Nft.Exec, Nft.NftScript;
  }

  /** No operation of the kernel lets a secret show in its reply, or in anything but the secrets of the state. */
  lemma StepAlike(lib: Lib, ea: Oracle, eb: Oracle, a: World, b: World, opA: Op, opB: Op)
    requires AlikeOracles(lib, ea, eb) && SameWorld(lib, a, b) && SameOp(lib, opA, opB)
    ensures SameWorld(lib, Step(ea, a, opA).0, Step(eb, b, opB).0)
    ensures SameReply(lib, Step(ea, a, opA).1, Step(eb, b, opB).1)
  {
    hide SamePeers, SameIface, SameArguments, SameReply, ApplyConfigure, ApplyPeerRouting, ApplyRemove, ApplyScript,
         PutRoute, DropOwned, HasOwned, ReadBack;
    var oa, ob := ea(a.clock), eb(b.clock);
    assert SameOutcome(lib, oa, ob);
    match opA
    case ConfigureInterface(cfg) => ConfigureAlike(lib, a.k, b.k, cfg, opB.cfg, oa, ob);
    case ConfigurePeerRouting(peers) => RoutingAlike(lib, a.k, b.k, peers, opB.peers, oa, ob);
    case RemoveInterface => RemoveAlike(lib, a.k, b.k, oa, ob);
    case ApplyFirewall(addresses, fwmark) => ScriptAlike(lib, a.k, b.k, addresses, fwmark, oa, ob);
    case ClearFirewall => ScriptAlike(lib, a.k, b.k, [], None, oa, ob);
    case _ => OtherAlike(lib, a.k, b.k, opA, oa, ob);
  }

  lemma OtherAlike(lib: Lib, a: KState, b: KState, op: Op, oa: Outcome, ob: Outcome)
    requires SameKernel(lib, a, b) && SameOutcome(lib, oa, ob)
    requires !op.ConfigureInterface? && !op.ConfigurePeerRouting? && !op.RemoveInterface? && !op.ApplyFirewall?
             && !op.ClearFirewall?
    ensures SameKernel(lib, Effect(a, op, oa).0, Effect(b, op, ob).0)
    ensures SameReply(lib, Effect(a, op, oa).1, Effect(b, op, ob).1)
  {
    hide SamePeers, ApplyConfigure, ApplyPeerRouting, ApplyRemove, ApplyScript, PutRoute, DropOwned, HasOwned, ReadBack;
    SamePeersFrom([], []);
  }

  // --- the switch --------------------------------------------------------------

  lemma {:induction false} InstallAlike(lib: Lib, ea: Oracle, eb: Oracle, a: World, b: World, prefixes: seq<IpAddrMask>)
    requires AlikeOracles(lib, ea, eb) && SameWorld(lib, a, b)
    ensures SameWorld(lib, InstallAll(ea, a, prefixes).0, InstallAll(eb, b, prefixes).0)
    ensures InstallAll(ea, a, prefixes).1 == InstallAll(eb, b, prefixes).1
    decreases prefixes
  {
    hide Effect, SameWorld;
    if prefixes != [] {
      var op := RouteReplace(prefixes[0]);
      StepAlike(lib, ea, eb, a, b, op, op);
      InstallAlike(lib, ea, eb, Step(ea, a, op).0, Step(eb, b, op).0, prefixes[1..]);
    }
  }

  lemma {:induction false} PruneAlike(lib: Lib, ea: Oracle, eb: Oracle, a: World, b: World, stale: seq<IpAddrMask>)
    requires AlikeOracles(lib, ea, eb) && SameWorld(lib, a, b)
    ensures SameWorld(lib, PruneAll(ea, a, stale), PruneAll(eb, b, stale))
    decreases stale
  {
    hide Effect, SameWorld;
    if stale != [] {
      var op := RouteDel(stale[0]);
      StepAlike(lib, ea, eb, a, b, op, op);
      PruneAlike(lib, ea, eb, Step(ea, a, op).0, Step(eb, b, op).0, stale[1..]);
    }
  }

  lemma SyncAlike(lib: Lib, ea: Oracle, eb: Oracle, a: World, b: World, split: seq<IpAddrMask>)
    requires AlikeOracles(lib, ea, eb) && SameWorld(lib, a, b)
    ensures SameWorld(lib, SyncSplitRoutes(ea, a, split).0, SyncSplitRoutes(eb, b, split).0)
    ensures SyncSplitRoutes(ea, a, split).1 == SyncSplitRoutes(eb, b, split).1
  {
    hide Effect, SameWorld, InstallAll, PruneAll, StaleRoutes;
    InstallAlike(lib, ea, eb, a, b, split);
    var a1, b1 := InstallAll(ea, a, split).0, InstallAll(eb, b, split).0;
    StepAlike(lib, ea, eb, a1, b1, RouteShow(V4), RouteShow(V4));
    var a4, b4 := Step(ea, a1, RouteShow(V4)), Step(eb, b1, RouteShow(V4));
    StepAlike(lib, ea, eb, a4.0, b4.0, RouteShow(V6), RouteShow(V6));
    var a6, b6 := Step(ea, a4.0, RouteShow(V6)), Step(eb, b4.0, RouteShow(V6));
    SameListing(lib, a4.1, b4.1);
    SameListing(lib, a6.1, b6.1);
    var installed := Listing(a4.1) + Listing(a6.1);
    PruneAlike(lib, ea, eb, a6.0, b6.0, StaleRoutes(installed, split));
  }

  lemma SameListing(lib: Lib, a: Reply, b: Reply)
    requires SameReply(lib, a, b)
    ensures Listing(a) == Listing(b) && (a.Failed? <==> b.Failed?)
  {
  }

  /** Two stored tunnels that differ in secrets only. */
  predicate SameServer(lib: Lib, a: ServerConfig, b: ServerConfig) {
    && a.(privateKey := "", presharedKey := None) == b.(privateKey := "", presharedKey := None)
    && PublicKey(lib, a.privateKey) == PublicKey(lib, b.privateKey)
    && (a.presharedKey.Some? <==> b.presharedKey.Some?)
    && (a.presharedKey.Some? ==>
          (lib.parseKey(Trim(a.presharedKey.value)).Some? <==> lib.parseKey(Trim(b.presharedKey.value)).Some?))
  }

  predicate SamePlan(a: Plan, b: Plan) {
    a.(peer := a.peer.(presharedKey := None)) == b.(peer := b.peer.(presharedKey := None))
  }

  lemma PeerAlike(lib: Lib, a: ServerConfig, b: ServerConfig, answer: Option<SocketAddr>)
    requires SameServer(lib, a, b)
    ensures var pa, pb := PeerOf(lib, a, answer), PeerOf(lib, b, answer);
            && (pa.Ok? <==> pb.Ok?) && (pa.Err? ==> pa.error == pb.error)
            && (pa.Ok? ==> pa.value.(presharedKey := None) == pb.value.(presharedKey := None))
  {
    hide Trim, ParseMasks;
  }

  lemma PlanAlike(lib: Lib, a: ServerConfig, b: ServerConfig, answer: Option<SocketAddr>)
    requires SameServer(lib, a, b)
    ensures var pa, pb := PlanSwitch(lib, a, answer), PlanSwitch(lib, b, answer);
            && (pa.Ok? <==> pb.Ok?) && (pa.Err? ==> pa.error == pb.error)
            && (pa.Ok? ==> SamePlan(pa.value, pb.value))
  {
    hide Trim, ParseMasks, PeerOf, HasDefaultRoute;
    PeerAlike(lib, a, b, answer);
    var pa, pb := PeerOf(lib, a, answer), PeerOf(lib, b, answer);
    if pa.Ok? {
      SamePeersFrom([pa.value], [pb.value]);
      SameRouting([pa.value], [pb.value]);
    }
  }

  lemma ValidateAlike(lib: Lib, a: ServerConfig, b: ServerConfig, answer: Option<SocketAddr>)
    requires SameServer(lib, a, b)
    ensures ValidateServer(lib, a, answer) == ValidateServer(lib, b, answer)
  {
    hide Trim, ParseMasks, PeerOf;
    PeerAlike(lib, a, b, answer);
  }

  lemma ArgumentsAlike(lib: Lib, a: ServerConfig, b: ServerConfig, pa: Peer, pb: Peer, fwmark: Option<nat>)
    requires SameServer(lib, a, b) && pa.(presharedKey := None) == pb.(presharedKey := None)
    ensures var ca, cb := BuildInterfaceConfig(lib, a, [pa], fwmark), BuildInterfaceConfig(lib, b, [pb], fwmark);
            && (ca.Ok? <==> cb.Ok?) && (ca.Err? ==> ca.error == cb.error)
            && (ca.Ok? ==> SameArguments(lib, ca.value, cb.value))
  {
    hide Trim, ParseMasks, SamePeers;
    SamePeersFrom([pa], [pb]);
  }

  lemma ReconfigureAlike(lib: Lib, ea: Oracle, eb: Oracle, wa: World, wb: World, a: ServerConfig, b: ServerConfig,
                         pa: Peer, pb: Peer)
    requires AlikeOracles(lib, ea, eb) && SameWorld(lib, wa, wb) && SameServer(lib, a, b)
             && pa.(presharedKey := None) == pb.(presharedKey := None)
    ensures SameWorld(lib, Reconfigure(lib, ea, wa, a, pa).0, Reconfigure(lib, eb, wb, b, pb).0)
    ensures Reconfigure(lib, ea, wa, a, pa).1 == Reconfigure(lib, eb, wb, b, pb).1
  {
    hide Effect, SameWorld, BuildInterfaceConfig, SameArguments;
    StepAlike(lib, ea, eb, wa, wb, ReadInterfaceData, ReadInterfaceData);
    var ra, rb := Step(ea, wa, ReadInterfaceData), Step(eb, wb, ReadInterfaceData);
    var fwmark := if ra.1.Host? then ra.1.iface.fwmark else None;
    ArgumentsAlike(lib, a, b, pa, pb, fwmark);
    var ca, cb := BuildInterfaceConfig(lib, a, [pa], fwmark), BuildInterfaceConfig(lib, b, [pb], fwmark);
    if ca.Ok? {
      var opA, opB := ConfigureInterface(ca.value), ConfigureInterface(cb.value);
      if ra.1.Host? {
        StepAlike(lib, ea, eb, ra.0, rb.0, opA, opB);
      } else {
        StepAlike(lib, ea, eb, ra.0, rb.0, CreateInterface, CreateInterface);
        StepAlike(lib, ea, eb, Step(ea, ra.0, CreateInterface).0, Step(eb, rb.0, CreateInterface).0, opA, opB);
      }
    }
  }

  lemma GuardAlike(lib: Lib, ea: Oracle, eb: Oracle, a: World, b: World, addresses: seq<IpAddrMask>)
    requires AlikeOracles(lib, ea, eb) && SameWorld(lib, a, b)
    ensures SameWorld(lib, Guard(ea, a, addresses).0, Guard(eb, b, addresses).0)
    ensures Guard(ea, a, addresses).1 == Guard(eb, b, addresses).1
  {
    hide Effect, SameWorld;
    StepAlike(lib, ea, eb, a, b, ReadInterfaceData, ReadInterfaceData);
    var ra, rb := Step(ea, a, ReadInterfaceData), Step(eb, b, ReadInterfaceData);
    var op := ApplyFirewall(addresses, if ra.1.Host? then NonZero(ra.1.iface.fwmark) else None);
    StepAlike(lib, ea, eb, ra.0, rb.0, op, op);
  }

  lemma DnsAlike(lib: Lib, ea: Oracle, eb: Oracle, a: World, b: World, dns: seq<IpAddr>)
    requires AlikeOracles(lib, ea, eb) && SameWorld(lib, a, b)
    ensures SameWorld(lib, ApplyDns(ea, a, dns).0, ApplyDns(eb, b, dns).0)
    ensures ApplyDns(ea, a, dns).1 == ApplyDns(eb, b, dns).1
  {
    hide Effect, SameWorld;
    var op := if dns == [] then ResetDns else ConfigureDns(dns);
    StepAlike(lib, ea, eb, a, b, op, op);
  }

  lemma FinishAlike(lib: Lib, ea: Oracle, eb: Oracle, wa: World, wb: World, a: Plan, b: Plan)
    requires AlikeOracles(lib, ea, eb) && SameWorld(lib, wa, wb) && SamePlan(a, b)
    ensures SameWorld(lib, SyncAndFinish(ea, wa, a).0, SyncAndFinish(eb, wb, b).0)
    ensures SyncAndFinish(ea, wa, a).1 == SyncAndFinish(eb, wb, b).1
  {
    hide SyncSplitRoutes, Guard, ApplyDns, SameWorld;
    SyncAlike(lib, ea, eb, wa, wb, a.split);
    var sa, sb := SyncSplitRoutes(ea, wa, a.split).0, SyncSplitRoutes(eb, wb, b.split).0;
    GuardAlike(lib, ea, eb, sa, sb, a.addresses);
    DnsAlike(lib, ea, eb, Guard(ea, sa, a.addresses).0, Guard(eb, sb, b.addresses).0, a.dns);
  }

  lemma RunPlanAlike(lib: Lib, ea: Oracle, eb: Oracle, wa: World, wb: World, a: ServerConfig, b: ServerConfig, pa: Plan,
                     pb: Plan)
    requires AlikeOracles(lib, ea, eb) && SameWorld(lib, wa, wb) && SameServer(lib, a, b) && SamePlan(pa, pb)
    ensures SameWorld(lib, RunPlan(lib, ea, wa, a, pa).0, RunPlan(lib, eb, wb, b, pb).0)
    ensures RunPlan(lib, ea, wa, a, pa).1 == RunPlan(lib, eb, wb, b, pb).1
  {
    hide Effect, SameWorld, SameServer, Reconfigure, SyncAndFinish, SamePeers;
    ReconfigureAlike(lib, ea, eb, wa, wb, a, b, pa.peer, pb.peer);
    var ra, rb := Reconfigure(lib, ea, wa, a, pa.peer), Reconfigure(lib, eb, wb, b, pb.peer);
    if ra.1.None? {
      var opA, opB := ConfigurePeerRouting([pa.peer]), ConfigurePeerRouting([pb.peer]);
      SamePeersFrom([pa.peer], [pb.peer]);
      StepAlike(lib, ea, eb, ra.0, rb.0, opA, opB);
      FinishAlike(lib, ea, eb, Step(ea, ra.0, opA).0, Step(eb, rb.0, opB).0, pa, pb);
    }
  }

  /** A whole switch, between tunnels and kernels that differ in secrets only, answers alike and leaves alike
      kernels. */
  lemma SwitchAlike(lib: Lib, ea: Oracle, eb: Oracle, wa: World, wb: World, a: ServerConfig, b: ServerConfig,
                    answer: Option<SocketAddr>)
    requires AlikeOracles(lib, ea, eb) && SameWorld(lib, wa, wb) && SameServer(lib, a, b)
    ensures SameWorld(lib, SwitchTo(lib, ea, wa, a, answer).0, SwitchTo(lib, eb, wb, b, answer).0)
    ensures SwitchTo(lib, ea, wa, a, answer).1 == SwitchTo(lib, eb, wb, b, answer).1
  {
    hide SameWorld, SameServer, PlanSwitch, RunPlan, SamePlan;
    PlanAlike(lib, a, b, answer);
    if PlanSwitch(lib, a, answer).Ok? {
      RunPlanAlike(lib, ea, eb, wa, wb, a, b, PlanSwitch(lib, a, answer).value, PlanSwitch(lib, b, answer).value);
    }
  }

  lemma DisconnectAlike(lib: Lib, ea: Oracle, eb: Oracle, a: World, b: World)
    requires AlikeOracles(lib, ea, eb) && SameWorld(lib, a, b)
    ensures SameWorld(lib, Disconnect(ea, a).0, Disconnect(eb, b).0) && Disconnect(ea, a).1 == Disconnect(eb, b).1
  {
    hide Effect, SameWorld;
    StepAlike(lib, ea, eb, a, b, RemoveInterface, RemoveInterface);
    StepAlike(lib, ea, eb, Step(ea, a, RemoveInterface).0, Step(eb, b, RemoveInterface).0, ClearFirewall,
              ClearFirewall);
  }
}
