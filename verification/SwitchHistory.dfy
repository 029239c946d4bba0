/** Runs of switches: what came before a successful switch does not show in what it leaves. */
module SwitchHistory {
  import opened Basics
  import opened Prefix
  import opened Config
  import opened Kernel
  import opened Routes
  import opened Tunnel
  import opened Switch
  import opened SwitchSafety
  import opened SwitchTarget
  import Nft

  /** None of the plan's prefixes is a `/0`. An all-zero address never reaches the plan's prefixes; only a
      non-zero address written with `/0` does. */
  predicate NoDefaultPrefix(plan: Plan) {
    forall p :: p in plan.split ==> p.cidr > 0
  }

  function WithoutOwnedDefault(): World -> bool {
    (w: World) => NoOwnedDefault(w.k.routes)
  }

  /** No default route of the main table is tagged as ours. */
  predicate NoOwnedDefault(routes: seq<Route>) {
    forall r :: r in routes && Owned(r) ==> r.prefix.cidr > 0
  }

  lemma StepKeepsNoDefault(env: Oracle, w: World, op: Op, plan: Plan)
    requires IssuedFor(plan, op) && NoOwnedDefault(w.k.routes)
    requires NoDefaultPrefix(plan) && plan.split == SplitRoutePrefixes(plan.peer)
    ensures NoOwnedDefault(Step(env, w, op).0.k.routes)
  {
    hide Nft.Exec;
    var o := env(w.clock);
    var routes := w.k.routes;
    match op
    case ConfigureInterface(cfg) => RelinkElements(routes, o.partial.routes);
    case ConfigurePeerRouting(peers) =>
      if !HasDefaultRoute(peers) {
        PutAllKeepsNoDefault(routes, plan, |plan.peer.allowedIps|, DefguardProto(o));
        var n := if o.freeMark <= |plan.peer.allowedIps| then o.freeMark else |plan.peer.allowedIps|;
        PutAllKeepsNoDefault(routes, plan, n, DefguardProto(o));
        assert AllAllowedIps(peers) == plan.peer.allowedIps + AllAllowedIps(peers[1..]) == plan.peer.allowedIps + []
               == plan.peer.allowedIps;
        assert plan.peer.allowedIps[..|plan.peer.allowedIps|] == plan.peer.allowedIps;
      }
    case RouteReplace(q) => PutRouteElements(routes, Route(q, INTERFACE_NAME, Static, 0));
    case RouteDel(q) => DropOwnedElements(routes, q);
    case _ =>
  }

  lemma PutAllKeepsNoDefault(routes: seq<Route>, plan: Plan, n: nat, proto: Proto)
    requires n <= |plan.peer.allowedIps| && !HasDefaultRoute([plan.peer])
    requires NoOwnedDefault(routes) && NoDefaultPrefix(plan) && plan.split == SplitRoutePrefixes(plan.peer)
    ensures NoOwnedDefault(PutAll(routes, plan.peer.allowedIps[..n], proto))
  {
    hide SplitRoutePrefixes;
    PutAllElements(routes, plan.peer.allowedIps[..n], proto);
    assert plan.peer in [plan.peer];
    forall a | a in plan.peer.allowedIps[..n] ensures NetworkPrefix(a).cidr > 0 {
      assert a in plan.peer.allowedIps;
      SplitPrefixElements(plan.peer, NetworkPrefix(a));
    }
  }

  /** The command does not bring a `/0` with a non-zero address. */
  predicate Benign(lib: Lib, c: Command) {
    c.Switching? ==>
      var plan := PlanSwitch(lib, c.server, c.answer);
      plan.Ok? ==> NoDefaultPrefix(plan.value)
  }

  lemma PerformKeepsNoDefault(lib: Lib, env: Oracle, w: World, c: Command)
    requires Benign(lib, c) && WithoutOwnedDefault()(w)
    ensures WithoutOwnedDefault()(Perform(lib, env, w, c))
  {
    hide RunPlan, PlanSwitch, NoDefaultPrefix, Nft.Exec, NoOwnedDefault;
    match c
    case Switching(s, answer) =>
      if PlanSwitch(lib, s, answer).Ok? {
        var plan := PlanSwitch(lib, s, answer).value;
        PlanParts(lib, s, answer);
        forall v, op | WithoutOwnedDefault()(v) && IssuedFor(plan, op)
          ensures WithoutOwnedDefault()(Step(env, v, op).0) {
          StepKeepsNoDefault(env, v, op, plan);
        }
      }
      SwitchKeeps(lib, env, w, s, answer, WithoutOwnedDefault());
    case Disconnecting => DisconnectKeepsNoDefault(env, w);
    case Restarting =>
  }

  lemma DisconnectKeepsNoDefault(env: Oracle, w: World)
    requires WithoutOwnedDefault()(w)
    ensures WithoutOwnedDefault()(Disconnect(env, w).0)
  {
    hide Nft.Exec;
    OffInterfaceElements(w.k.routes);
  }

  lemma {:induction false} RunKeepsNoDefault(lib: Lib, env: Oracle, w: World, cmds: seq<Command>)
    requires WithoutOwnedDefault()(w) && forall c :: c in cmds ==> Benign(lib, c)
    ensures WithoutOwnedDefault()(Run(lib, env, w, cmds))
    decreases cmds
  {
    hide Perform, WithoutOwnedDefault, Benign;
    if cmds != [] {
      assert cmds[0] in cmds;
      PerformKeepsNoDefault(lib, env, w, cmds[0]);
      RunKeepsNoDefault(lib, env, Perform(lib, env, w, cmds[0]), cmds[1..]);
    }
  }

  const MARK_CHAINS: set<string> := {"premangle", "postmangle"}

  /** One family's table is the same up to the mark: there in both rulesets or in neither, with the same guard chain
      and nothing else besides the mark chains; and the same altogether when the mark chains save the same mark. */
  predicate SameUpToMark(r1: Nft.Ruleset, r2: Nft.Ruleset, family: Family) {
    var id := Nft.TableId(family, Nft.NFT_TABLE);
    && (id in r1 <==> id in r2)
    && (id in r1 ==>
          var t1, t2 := r1[id], r2[id];
          && t1.Keys - MARK_CHAINS == t2.Keys - MARK_CHAINS == {"preraw"} && t1["preraw"] == t2["preraw"]
          && (("postmangle" in t1 <==> "postmangle" in t2)
              && ("postmangle" in t1 ==> t1["postmangle"] == t2["postmangle"])
              ==> t1 == t2))
  }

  /** Two kernels hold the same tunnel: identity, addresses, peers, configured port, our routes, our nft tables up to
      the mark, the resolver. The MTU is not compared. */
  ghost predicate SameTunnel(s: ServerConfig, k1: KState, k2: KState) {
    && k1.iface.Some? && k2.iface.Some?
    && k1.iface.value.privateKey == k2.iface.value.privateKey
    && k1.iface.value.addresses == k2.iface.value.addresses
    && k1.iface.value.peers == k2.iface.value.peers
    && (s.listenPort != 0 ==> k1.iface.value.port == k2.iface.value.port)
    && k1.resolver == k2.resolver
    && (forall p :: HasOwned(k1.routes, p) <==> HasOwned(k2.routes, p))
    && (forall family :: SameUpToMark(k1.nft, k2.nft, family))
    && (forall pkt :: Nft.Drops(k1.nft, pkt) <==> Nft.Drops(k2.nft, pkt))
  }

  lemma SameTables(r1: Nft.Ruleset, r2: Nft.Ruleset, addresses: seq<IpAddrMask>, m1: Option<nat>, m2: Option<nat>,
                   family: Family)
    ensures SameUpToMark(Nft.Installed(r1, INTERFACE_NAME, addresses, m1),
                         Nft.Installed(r2, INTERFACE_NAME, addresses, m2), family)
  {
    hide Nft.Installed, Nft.OfFamily, Nft.GuardRules;
    Nft.OurTable(r1, INTERFACE_NAME, addresses, m1, family);
    Nft.OurTable(r2, INTERFACE_NAME, addresses, m2, family);
    var addrs := Nft.OfFamily(addresses, family);
    if addrs != [] {
      GuardTablesDiffer(addrs, m1, m2);
    }
  }

  lemma GuardTablesDiffer(addrs: seq<IpAddrMask>, m1: Option<nat>, m2: Option<nat>)
    ensures var t1, t2 := Nft.GuardTable(INTERFACE_NAME, addrs, m1), Nft.GuardTable(INTERFACE_NAME, addrs, m2);
            && t1.Keys - MARK_CHAINS == t2.Keys - MARK_CHAINS == {"preraw"} && t1["preraw"] == t2["preraw"]
            && (("postmangle" in t1 <==> "postmangle" in t2)
                && ("postmangle" in t1 ==> t1["postmangle"] == t2["postmangle"])
                ==> t1 == t2)
  {
    hide Nft.GuardRules;
    var t1, t2 := Nft.GuardTable(INTERFACE_NAME, addrs, m1), Nft.GuardTable(INTERFACE_NAME, addrs, m2);
    if Nft.UsableMark(m1) && Nft.UsableMark(m2) && t1["postmangle"] == t2["postmangle"] {
      assert t1["postmangle"].rules[0] == Nft.SaveMark(m1.value);
      assert t2["postmangle"].rules[0] == Nft.SaveMark(m2.value);
    }
  }

  lemma SameDrops(r1: Nft.Ruleset, r2: Nft.Ruleset, addresses: seq<IpAddrMask>, m1: Option<nat>, m2: Option<nat>,
                  pkt: Nft.Packet)
    ensures Nft.Drops(Nft.Installed(r1, INTERFACE_NAME, addresses, m1), pkt) <==>
            Nft.Drops(Nft.Installed(r2, INTERFACE_NAME, addresses, m2), pkt)
  {
    hide Nft.Exec, Nft.NftScript, Nft.Installed, Nft.Drops;
    Nft.DropsExactly(r1, INTERFACE_NAME, addresses, m1, pkt);
    Nft.DropsExactly(r2, INTERFACE_NAME, addresses, m2, pkt);
    Nft.ScriptInstalls(r1, INTERFACE_NAME, addresses, m1);
    Nft.ScriptInstalls(r2, INTERFACE_NAME, addresses, m2);
  }

  /** Two kernels that both reached one plan hold the same tunnel. */
  lemma ReachedAgree(lib: Lib, s: ServerConfig, plan: Plan, w1: KState, w2: KState, k1: KState, k2: KState)
    requires exists m :: Reached(lib, s, plan, w1, k1, m)
    requires exists m :: Reached(lib, s, plan, w2, k2, m)
    requires Settled(plan, w1, k1) && Settled(plan, w2, k2)
    requires NoOwnedDefault(w1.routes) && NoOwnedDefault(w2.routes)
    ensures SameTunnel(s, k1, k2)
  {
    hide Nft.Installed, Nft.Drops, SameUpToMark;
    var m1 :| Reached(lib, s, plan, w1, k1, m1);
    var m2 :| Reached(lib, s, plan, w2, k2, m2);
    forall pkt ensures Nft.Drops(k1.nft, pkt) <==> Nft.Drops(k2.nft, pkt) {
      SameDrops(w1.nft, w2.nft, plan.addresses, m1, m2, pkt);
    }
    forall family ensures SameUpToMark(k1.nft, k2.nft, family) {
      SameTables(w1.nft, w2.nft, plan.addresses, m1, m2, family);
    }
  }

  lemma RunHasNoOwnedDefault(lib: Lib, env: Oracle, w: World, cmds: seq<Command>)
    requires NoOwnedDefault(w.k.routes) && forall c :: c in cmds ==> Benign(lib, c)
    ensures NoOwnedDefault(Run(lib, env, w, cmds).k.routes)
  {
    hide Benign, Run;
    RunKeepsNoDefault(lib, env, w, cmds);
  }

  /** History independence. After any run of switches (failed ones too), disconnects and restarts, a switch that
      succeeds leaves the same tunnel as the same switch on any other kernel, a cold one included. */
  lemma HistoryIndependence(lib: Lib, env: Oracle, w: World, before: seq<Command>,
                            env2: Oracle, other: World, s: ServerConfig, answer: Option<SocketAddr>)
    requires NoOwnedDefault(w.k.routes) && NoOwnedDefault(other.k.routes)
    requires forall c :: c in before ==> Benign(lib, c)
    requires var here := Run(lib, env, w, before);
             && SwitchTo(lib, env, here, s, answer).1.Ok?
             && BestEffortOk(|here.trace|, SwitchTo(lib, env, here, s, answer).0)
    requires && SwitchTo(lib, env2, other, s, answer).1.Ok?
             && BestEffortOk(|other.trace|, SwitchTo(lib, env2, other, s, answer).0)
    ensures SameTunnel(s, SwitchTo(lib, env, Run(lib, env, w, before), s, answer).0.k,
                       SwitchTo(lib, env2, other, s, answer).0.k)
  {
    hide RunPlan, PlanSwitch, Run, Benign, Reached, Settled, RoutesWanted, SameTunnel, BestEffortOk, NoOwnedDefault;
    var here := Run(lib, env, w, before);
    RunHasNoOwnedDefault(lib, env, w, before);
    SwitchReaches(lib, env, here, s, answer);
    SwitchReaches(lib, env2, other, s, answer);
    ReachedAgree(lib, s, PlanSwitch(lib, s, answer).value, here.k, other.k,
                 SwitchTo(lib, env, here, s, answer).0.k, SwitchTo(lib, env2, other, s, answer).0.k);
  }

  /** Exactly when the routes come out as wanted: no default route was ours before, unless it is wanted again. */
  lemma RoutesExactIff(lib: Lib, env: Oracle, w: World, s: ServerConfig, answer: Option<SocketAddr>)
    requires SwitchTo(lib, env, w, s, answer).1.Ok?
    requires BestEffortOk(|w.trace|, SwitchTo(lib, env, w, s, answer).0)
    ensures var split := PlanSwitch(lib, s, answer).value.split;
            (forall p :: HasOwned(SwitchTo(lib, env, w, s, answer).0.k.routes, p) <==> p in split) <==>
            (forall p: IpAddrMask :: p.cidr == 0 && HasOwned(w.k.routes, p) ==> p in split)
  {
    hide RunPlan, PlanSwitch, RoutesWanted, Reached, BestEffortOk, HasOwned;
    SwitchReaches(lib, env, w, s, answer);
  }

  /** A default route of ours that the plan does not want. */
  ghost function LeftBehind(p: IpAddrMask): World -> bool {
    (w: World) => HasOwned(w.k.routes, p)
  }

  /** No operation of a plan that does not want it takes such a route away: it is not listed, so it is not stale. */
  lemma StepLeavesDefault(env: Oracle, w: World, op: Op, plan: Plan, p: IpAddrMask)
    requires IssuedFor(plan, op) && plan.split == SplitRoutePrefixes(plan.peer)
    requires p.cidr == 0 && p !in plan.split && HasOwned(w.k.routes, p)
    ensures HasOwned(Step(env, w, op).0.k.routes, p)
  {
    hide Nft.Exec, SplitRoutePrefixes;
    var o := env(w.clock);
    var routes := w.k.routes;
    var r :| r in routes && Owned(r) && r.prefix == p;
    match op
    case ConfigureInterface(cfg) => RelinkElements(routes, o.partial.routes);
    case ConfigurePeerRouting(peers) =>
      if !HasDefaultRoute(peers) {
        var allowed := plan.peer.allowedIps;
        var n := if o.freeMark <= |allowed| then o.freeMark else |allowed|;
        assert AllAllowedIps(peers) == allowed + AllAllowedIps(peers[1..]) == allowed + [] == allowed;
        assert plan.peer in [plan.peer];
        forall a | a in allowed ensures NetworkPrefix(a) in plan.split {
          SplitPrefixElements(plan.peer, NetworkPrefix(a));
        }
        PutAllElements(routes, allowed, DefguardProto(o));
        PutAllElements(routes, allowed[..n], DefguardProto(o));
        assert r in PutAll(routes, allowed, DefguardProto(o));
        assert r in PutAll(routes, allowed[..n], DefguardProto(o));
      }
    case RouteReplace(q) =>
      PutRouteElements(routes, Route(q, INTERFACE_NAME, Static, 0));
    case RouteDel(q) => DropOwnedElements(routes, q);
    case _ =>
  }

  /** The command is no disconnect, and its plan does not want `p`. */
  predicate LeavesAlone(lib: Lib, c: Command, p: IpAddrMask) {
    match c
    case Switching(s, answer) => var plan := PlanSwitch(lib, s, answer); plan.Ok? ==> p !in plan.value.split
    case Disconnecting => false
    case Restarting => true
  }

  /** A default route that became ours stays ours through any run of switches that do not want it, settled ones and
      failed ones alike, until a disconnect. */
  lemma {:induction false} OwnedDefaultOutlives(lib: Lib, env: Oracle, w: World, cmds: seq<Command>, p: IpAddrMask)
    requires p.cidr == 0 && HasOwned(w.k.routes, p) && forall c :: c in cmds ==> LeavesAlone(lib, c, p)
    ensures HasOwned(Run(lib, env, w, cmds).k.routes, p)
    decreases cmds
  {
    hide SwitchTo, PlanSwitch, HasOwned;
    if cmds != [] {
      assert cmds[0] in cmds && LeavesAlone(lib, cmds[0], p);
      if cmds[0].Switching? {
        SwitchLeavesDefault(lib, env, w, cmds[0].server, cmds[0].answer, p);
      }
      OwnedDefaultOutlives(lib, env, Perform(lib, env, w, cmds[0]), cmds[1..], p);
    }
  }

  lemma SwitchLeavesDefault(lib: Lib, env: Oracle, w: World, s: ServerConfig, answer: Option<SocketAddr>, p: IpAddrMask)
    requires p.cidr == 0 && HasOwned(w.k.routes, p)
    requires PlanSwitch(lib, s, answer).Ok? ==> p !in PlanSwitch(lib, s, answer).value.split
    ensures HasOwned(SwitchTo(lib, env, w, s, answer).0.k.routes, p)
  {
    hide RunPlan, PlanSwitch, HasOwned, Step;
    if PlanSwitch(lib, s, answer).Ok? {
      var plan := PlanSwitch(lib, s, answer).value;
      PlanParts(lib, s, answer);
      forall v, op | LeftBehind(p)(v) && IssuedFor(plan, op) ensures LeftBehind(p)(Step(env, v, op).0) {
        StepLeavesDefault(env, v, op, plan, p);
      }
    }
    assert LeftBehind(p)(w);
    SwitchKeeps(lib, env, w, s, answer, LeftBehind(p));
  }

  /** The history that makes the routes come out wrong, at any length: a successful switch to a plan with a `/0` prefix,
      any run of switches without it, and a settled switch to a plan without it, whose routes are then not its own. */
  lemma SlashZeroIsNeverPruned(lib: Lib, env: Oracle, w: World, first: ServerConfig, answer: Option<SocketAddr>,
                               between: seq<Command>, last: ServerConfig, answer2: Option<SocketAddr>, p: IpAddrMask)
    requires SwitchTo(lib, env, w, first, answer).1.Ok?
    requires p.cidr == 0 && p in PlanSwitch(lib, first, answer).value.split
    requires forall c :: c in between ==> LeavesAlone(lib, c, p)
    requires var here := Run(lib, env, SwitchTo(lib, env, w, first, answer).0, between);
             SwitchTo(lib, env, here, last, answer2).1.Ok? && p !in PlanSwitch(lib, last, answer2).value.split
    ensures var here := Run(lib, env, SwitchTo(lib, env, w, first, answer).0, between);
            var end := SwitchTo(lib, env, here, last, answer2).0;
            && HasOwned(end.k.routes, p)
            && !(forall q :: HasOwned(end.k.routes, q) <==> q in PlanSwitch(lib, last, answer2).value.split)
  {
    hide RunPlan, PlanSwitch, Run, HasOwned, Reached, Settled, BestEffortOk;
    SwitchReaches(lib, env, w, first, answer);
    var up := SwitchTo(lib, env, w, first, answer).0;
    OwnedDefaultOutlives(lib, env, up, between, p);
    SwitchLeavesDefault(lib, env, Run(lib, env, up, between), last, answer2, p);
  }

  /** And over every benign history the routes do come out exactly as wanted. */
  lemma BenignRoutesAreExact(lib: Lib, env: Oracle, w: World, before: seq<Command>, s: ServerConfig,
                             answer: Option<SocketAddr>)
    requires NoOwnedDefault(w.k.routes) && forall c :: c in before ==> Benign(lib, c)
    requires var here := Run(lib, env, w, before);
             SwitchTo(lib, env, here, s, answer).1.Ok?
               && BestEffortOk(|here.trace|, SwitchTo(lib, env, here, s, answer).0)
    ensures forall p :: HasOwned(SwitchTo(lib, env, Run(lib, env, w, before), s, answer).0.k.routes, p) <==>
                        p in PlanSwitch(lib, s, answer).value.split
  {
    hide RunPlan, PlanSwitch, Run, Benign, BestEffortOk;
    var here := Run(lib, env, w, before);
    RunHasNoOwnedDefault(lib, env, w, before);
    RoutesExactIff(lib, env, here, s, answer);
  }

  /** A prefix that starts it: `0.0.0.1/0` is not taken for a default route, is canonicalised to `0.0.0.0/0`, and
      is not listed by the read-back that pruning relies on. */
  lemma NonZeroSlashZero()
    ensures var a: IpAddrMask := AddressMask(Address(V4, 1), 0);
            var peer := Peer(Key(0), None, [a], None, None);
            var zero: IpAddrMask := AddressMask(Address(V4, 0), 0);
            && SplitRoutePrefixes(peer) == [zero]
            && HasOwned([Route(zero, INTERFACE_NAME, Static, 0)], zero)
            && ReadBack([Route(zero, INTERFACE_NAME, Static, 0)], V4) == []
  {
    var a: IpAddrMask := AddressMask(Address(V4, 1), 0);
    var zero: IpAddrMask := AddressMask(Address(V4, 0), 0);
    var route := Route(zero, INTERFACE_NAME, Static, 0);
    forall i: nat | i < 32 ensures Bit(NetworkPrefix(a).address.bits, i) == Bit(0, i) {
      NetworkPrefixBits(a, i);
      ZeroBits(i);
    }
    LimitIsPow2(V4);
    EqualBits(NetworkPrefix(a).address.bits, 0, 32);
    assert NetworkPrefix(a) == zero;
    assert [a][1..] == [];
    assert Keep([a], NotDefault()) == [a] + Keep([], NotDefault()) == [a];
    assert route in [route] && Owned(route);
    assert [route][1..] == [];
    assert Keep([route], ListedIn(V4)) == [];
  }
}
