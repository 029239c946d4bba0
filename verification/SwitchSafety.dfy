/** What every switch keeps, over every oracle and every intermediate kernel state. */
module SwitchSafety {
  import opened Basics
  import opened Prefix
  import opened Config
  import opened Kernel
  import Nft
  import opened Routes
  import opened Tunnel
  import opened Switch

  // --- an induction principle for switches -------------------------------------

  /** The operations a switch to this plan may issue. */
  predicate IssuedFor(plan: Plan, op: Op) {
    match op
    case ReadInterfaceData => true
    case CreateInterface => true
    case RemoveInterface => false
    case ConfigureInterface(cfg) => cfg.peers == [plan.peer] && cfg.addresses == plan.addresses
    case ConfigurePeerRouting(peers) => peers == [plan.peer]
    case RouteReplace(p) => p in plan.split
    case RouteShow(_) => true
    case RouteDel(p) => p !in plan.split && p.cidr > 0
    case ApplyFirewall(addresses, _) => addresses == plan.addresses
    case ClearFirewall => false
    case ConfigureDns(dns) => dns == plan.dns && dns != []
    case ResetDns => plan.dns == []
  }

  /** `inv` survives every operation a switch to this plan may issue, whatever its outcome. */
  ghost predicate KeptBy(env: Oracle, plan: Plan, inv: World -> bool) {
    forall w, op :: inv(w) && IssuedFor(plan, op) ==> inv(Step(env, w, op).0)
  }

  /** `inv` survives the operations that come after the interface is configured. */
  ghost predicate KeptLater(env: Oracle, plan: Plan, inv: World -> bool) {
    forall w, op :: inv(w) && IssuedFor(plan, op) && !op.ConfigureInterface? && !op.CreateInterface? ==>
      inv(Step(env, w, op).0)
  }

  lemma {:induction false} InstallKeeps(env: Oracle, w: World, prefixes: seq<IpAddrMask>, plan: Plan,
                                        inv: World -> bool)
    requires KeptLater(env, plan, inv) && inv(w)
    requires forall p :: p in prefixes ==> p in plan.split
    ensures inv(InstallAll(env, w, prefixes).0)
    decreases prefixes
  {
    if prefixes != [] {
      var (w', reply) := Step(env, w, RouteReplace(prefixes[0]));
      assert IssuedFor(plan, RouteReplace(prefixes[0]));
      if !reply.Failed? {
        InstallKeeps(env, w', prefixes[1..], plan, inv);
      }
    }
  }

  lemma {:induction false} PruneKeeps(env: Oracle, w: World, stale: seq<IpAddrMask>, plan: Plan, inv: World -> bool)
    requires KeptLater(env, plan, inv) && inv(w)
    requires forall p :: p in stale ==> p !in plan.split && p.cidr > 0
    ensures inv(PruneAll(env, w, stale))
    decreases stale
  {
    if stale != [] {
      assert IssuedFor(plan, RouteDel(stale[0]));
      PruneKeeps(env, Step(env, w, RouteDel(stale[0])).0, stale[1..], plan, inv);
    }
  }

  lemma SyncKeeps(env: Oracle, w: World, plan: Plan, inv: World -> bool)
    requires KeptLater(env, plan, inv) && inv(w)
    ensures inv(SyncSplitRoutes(env, w, plan.split).0)
  {
    InstallKeeps(env, w, plan.split, plan, inv);
    var (w1, ok) := InstallAll(env, w, plan.split);
    if ok {
      assert IssuedFor(plan, RouteShow(V4)) && IssuedFor(plan, RouteShow(V6));
      var (w2, installed) := InstalledSplitRoutes(env, w1);
      assert inv(Step(env, w1, RouteShow(V4)).0);
      assert inv(w2);
      KeepElements(installed, NotIn(plan.split));
      ListedHaveLength(env, w1);
      PruneKeeps(env, w2, StaleRoutes(installed, plan.split), plan, inv);
    }
  }

  /** The read-back never lists a default route. */
  lemma ListedHaveLength(env: Oracle, w: World)
    ensures forall p :: p in InstalledSplitRoutes(env, w).1 ==> p.cidr > 0
  {
    hide Nft.Exec, ReadBack;
    ReadBackElements(w.k.routes, V4);
    ReadBackElements(w.k.routes, V6);
  }

  /** The parsed plan is what the interface configuration is built from. */
  lemma ConfigMatchesPlan(lib: Lib, s: ServerConfig, answer: Option<SocketAddr>, fwmark: Option<nat>)
    requires PlanSwitch(lib, s, answer).Ok?
    ensures var plan := PlanSwitch(lib, s, answer).value;
            var cfg := BuildInterfaceConfig(lib, s, [plan.peer], fwmark);
            && ParseAddresses(lib, s) == Ok(plan.addresses)
            && (cfg.Ok? ==> cfg.value.peers == [plan.peer] && cfg.value.addresses == plan.addresses)
  {
    hide ParseMasks, PeerOf, ParseDns;
  }

  lemma ReconfigureKeeps(lib: Lib, env: Oracle, w: World, s: ServerConfig, plan: Plan, inv: World -> bool)
    requires KeptBy(env, plan, inv) && inv(w)
    requires ParseAddresses(lib, s) == Ok(plan.addresses)
    ensures inv(Reconfigure(lib, env, w, s, plan.peer).0)
  {
    var (w1, host) := Step(env, w, ReadInterfaceData);
    assert IssuedFor(plan, ReadInterfaceData) && inv(w1);
    var cfg := BuildInterfaceConfig(lib, s, [plan.peer], if host.Host? then host.iface.fwmark else None);
    if cfg.Ok? {
      assert IssuedFor(plan, ConfigureInterface(cfg.value)) && IssuedFor(plan, CreateInterface);
      assert inv(Step(env, w1, CreateInterface).0);
    }
  }

  lemma FinishKeeps(env: Oracle, w: World, plan: Plan, inv: World -> bool)
    requires KeptLater(env, plan, inv) && inv(w)
    ensures inv(Guard(env, w, plan.addresses).0)
    ensures inv(ApplyDns(env, w, plan.dns).0)
  {
    var (w1, host) := Step(env, w, ReadInterfaceData);
    assert IssuedFor(plan, ReadInterfaceData) && inv(w1);
    assert IssuedFor(plan, ApplyFirewall(plan.addresses, if host.Host? then NonZero(host.iface.fwmark) else None));
    if plan.dns == [] {
      assert IssuedFor(plan, ResetDns);
    } else {
      assert IssuedFor(plan, ConfigureDns(plan.dns));
    }
  }

  lemma RunPlanKeeps(lib: Lib, env: Oracle, w: World, s: ServerConfig, plan: Plan, inv: World -> bool)
    requires KeptBy(env, plan, inv) && inv(w)
    requires ParseAddresses(lib, s) == Ok(plan.addresses)
    ensures inv(RunPlan(lib, env, w, s, plan).0)
  {
    hide RouteAndFinish, Reconfigure, Effect;
    ReconfigureKeeps(lib, env, w, s, plan, inv);
    var (w1, failure) := Reconfigure(lib, env, w, s, plan.peer);
    if failure.None? {
      RouteAndFinishKeeps(env, w1, plan, inv);
    }
  }

  lemma RouteAndFinishKeeps(env: Oracle, w: World, plan: Plan, inv: World -> bool)
    requires KeptLater(env, plan, inv) && inv(w)
    ensures inv(RouteAndFinish(env, w, plan).0)
  {
    var op := ConfigurePeerRouting([plan.peer]);
    assert IssuedFor(plan, op);
    var (w2, routing) := Step(env, w, op);
    assert inv(w2);
    if !routing.Failed? {
      SyncAndFinishKeeps(env, w2, plan, inv);
    }
  }

  lemma SyncAndFinishKeeps(env: Oracle, w: World, plan: Plan, inv: World -> bool)
    requires KeptLater(env, plan, inv) && inv(w)
    ensures inv(SyncAndFinish(env, w, plan).0)
  {
    SyncKeeps(env, w, plan, inv);
    var (w3, _) := SyncSplitRoutes(env, w, plan.split);
    FinishKeeps(env, w3, plan, inv);
    var (w4, _) := Guard(env, w3, plan.addresses);
    FinishKeeps(env, w4, plan, inv);
  }

  /** Whatever the operations of a switch keep, the switch keeps, however far it gets. */
  lemma SwitchKeeps(lib: Lib, env: Oracle, w: World, s: ServerConfig, answer: Option<SocketAddr>, inv: World -> bool)
    requires inv(w)
    requires PlanSwitch(lib, s, answer).Ok? ==> KeptBy(env, PlanSwitch(lib, s, answer).value, inv)
    ensures inv(SwitchTo(lib, env, w, s, answer).0)
  {
    hide RunPlan, PlanSwitch;
    if PlanSwitch(lib, s, answer).Ok? {
      ConfigMatchesPlan(lib, s, answer, None);
      RunPlanKeeps(lib, env, w, s, PlanSwitch(lib, s, answer).value, inv);
    }
  }

  // --- the operations a switch issues ------------------------------------------

  function IssuedSince(w: World, plan: Plan): World -> bool {
    (v: World) => w.trace <= v.trace && forall i :: |w.trace| <= i < |v.trace| ==> IssuedFor(plan, v.trace[i].op)
  }

  lemma PlanKeepsIssued(env: Oracle, w: World, plan: Plan)
    ensures KeptBy(env, plan, IssuedSince(w, plan))
  {
  }

  /** A switch issues only the operations of its plan: never a teardown, never the firewall script without
      the server's own addresses, never a delete of a wanted prefix. With no plan it issues nothing. */
  lemma SwitchIssues(lib: Lib, env: Oracle, w: World, s: ServerConfig, answer: Option<SocketAddr>)
    ensures var plan := PlanSwitch(lib, s, answer);
            var w' := SwitchTo(lib, env, w, s, answer).0;
            if plan.Err? then w' == w else IssuedSince(w, plan.value)(w')
  {
    hide RunPlan, PlanSwitch;
    if PlanSwitch(lib, s, answer).Ok? {
      var plan := PlanSwitch(lib, s, answer).value;
      PlanKeepsIssued(env, w, plan);
      SwitchKeeps(lib, env, w, s, answer, IssuedSince(w, plan));
    }
  }

  // --- the kill switch ---------------------------------------------------------

  /** Only removing the interface can take a kill-switch rule away. */
  lemma OnlyRemovalDropsRules(k: KState, op: Op, o: Outcome)
    requires !op.RemoveInterface?
    ensures k.rules <= Effect(k, op, o).0.rules
  {
  }

  /** An event that tears nothing down and leaves at least `rules` in place; routing a peer with a default route
      leaves the kill switch installed. */
  ghost predicate Closed(rules: set<KillRule>, e: Event) {
    && !Teardown(e.op) && rules <= e.after.rules
    && (e.ok && e.op.ConfigurePeerRouting? && HasDefaultRoute(e.op.peers) ==> Armed(e.after.rules))
  }

  /** From event `n` on, a rule that is there after one event is there after every later one. */
  predicate Growing(n: nat, trace: seq<Event>) {
    forall i, j :: n <= i <= j < |trace| ==> trace[i].after.rules <= trace[j].after.rules
  }

  /** From `w` on, every event was closed, no rule that any of them installed went away, and all of them are there
      now. */
  ghost function ClosedSince(w: World): World -> bool {
    (v: World) =>
      && w.trace <= v.trace && w.k.rules <= v.k.rules
      && (forall i :: |w.trace| <= i < |v.trace| ==>
          Closed(w.k.rules, v.trace[i]) && v.trace[i].after.rules <= v.k.rules)
      && Growing(|w.trace|, v.trace)
  }

  lemma StepStaysClosed(env: Oracle, w: World, v: World, op: Op)
    requires ClosedSince(w)(v) && !Teardown(op)
    ensures ClosedSince(w)(Step(env, v, op).0)
  {
    hide Effect;
    var v' := Step(env, v, op).0;
    OnlyRemovalDropsRules(v.k, op, env(v.clock));
    RoutingArms(v.k, op, env(v.clock));
    var n := |v.trace|;
    forall i, j | |w.trace| <= i <= j < |v'.trace| ensures v'.trace[i].after.rules <= v'.trace[j].after.rules {
      assert i < n ==> v'.trace[i] == v.trace[i];
      assert j < n ==> v'.trace[j] == v.trace[j];
    }
  }

  lemma RoutingArms(k: KState, op: Op, o: Outcome)
    ensures op.ConfigurePeerRouting? && HasDefaultRoute(op.peers) && !Effect(k, op, o).1.Failed? ==>
            Armed(Effect(k, op, o).0.rules)
  {
    hide HasDefaultRoute, AllAllowedIps, PutAll;
  }

  lemma PlanKeepsClosed(env: Oracle, w: World, plan: Plan)
    ensures KeptBy(env, plan, ClosedSince(w))
  {
    hide Step, ClosedSince;
    forall v, op | ClosedSince(w)(v) && IssuedFor(plan, op) ensures ClosedSince(w)(Step(env, v, op).0) {
      StepStaysClosed(env, w, v, op);
    }
  }

  /** Fail-closed: the rules in place when a switch starts are in place in every kernel state it passes through,
      and so is every rule that one of its own steps installs, from that step on: succeed or fail, warm or cold.
      No step of it is a teardown. */
  lemma SwitchFailsClosed(lib: Lib, env: Oracle, w: World, s: ServerConfig, answer: Option<SocketAddr>)
    ensures ClosedSince(w)(SwitchTo(lib, env, w, s, answer).0)
  {
    hide RunPlan, PlanSwitch, SwitchTo;
    if PlanSwitch(lib, s, answer).Ok? {
      PlanKeepsClosed(env, w, PlanSwitch(lib, s, answer).value);
    }
    SwitchKeeps(lib, env, w, s, answer, ClosedSince(w));
  }

  /** What the daemon may be told to do over its lifetime. A restart is control-plane only. */
  datatype Command =
    | Switching(server: ServerConfig, answer: Option<SocketAddr>)
    | Disconnecting
    | Restarting

  function Perform(lib: Lib, env: Oracle, w: World, c: Command): World {
    match c
    case Switching(s, answer) => SwitchTo(lib, env, w, s, answer).0
    case Disconnecting => Disconnect(env, w).0
    case Restarting => w
  }

  function Run(lib: Lib, env: Oracle, w: World, cmds: seq<Command>): World
    decreases cmds
  {
    if cmds == [] then w else Run(lib, env, Perform(lib, env, w, cmds[0]), cmds[1..])
  }

  lemma ClosedNow(w: World)
    ensures ClosedSince(w)(w)
  {
  }

  lemma ClosedTransitive(w: World, w1: World, w2: World)
    requires ClosedSince(w)(w1) && ClosedSince(w1)(w2)
    ensures ClosedSince(w)(w2)
  {
    hide Armed, HasDefaultRoute;
    var n := |w1.trace|;
    forall i | |w.trace| <= i < |w2.trace|
      ensures Closed(w.k.rules, w2.trace[i]) && w2.trace[i].after.rules <= w2.k.rules {
      if i < n {
        assert w2.trace[i] == w1.trace[i];
      } else {
        assert Closed(w1.k.rules, w2.trace[i]);
      }
    }
    forall i, j | |w.trace| <= i <= j < |w2.trace| ensures w2.trace[i].after.rules <= w2.trace[j].after.rules {
      if i < n {
        assert w2.trace[i] == w1.trace[i];
        if j < n {
          assert w2.trace[j] == w1.trace[j];
        } else {
          assert Closed(w1.k.rules, w2.trace[j]);
        }
      }
    }
  }

  lemma PerformFailsClosed(lib: Lib, env: Oracle, w: World, c: Command)
    requires !c.Disconnecting?
    ensures ClosedSince(w)(Perform(lib, env, w, c))
  {
    hide SwitchTo, ClosedSince;
    if c.Switching? {
      SwitchFailsClosed(lib, env, w, c.server, c.answer);
    } else {
      ClosedNow(w);
    }
  }

  /** Over any run of switches and restarts without a disconnect, event by event: nothing is torn down, and a rule that
      is there at the start, or after any operation of any switch, failed switches included, is there after every
      later operation and at the end. */
  lemma {:induction false} RulesStayUntilDisconnect(lib: Lib, env: Oracle, w: World, cmds: seq<Command>)
    requires forall c :: c in cmds ==> !c.Disconnecting?
    ensures ClosedSince(w)(Run(lib, env, w, cmds))
    decreases cmds
  {
    hide Perform, ClosedSince;
    if cmds == [] {
      ClosedNow(w);
    } else {
      var w1 := Perform(lib, env, w, cmds[0]);
      assert cmds[0] in cmds;
      PerformFailsClosed(lib, env, w, cmds[0]);
      RulesStayUntilDisconnect(lib, env, w1, cmds[1..]);
      ClosedTransitive(w, w1, Run(lib, env, w1, cmds[1..]));
    }
  }

  lemma ArmedGrows(a: set<KillRule>, b: set<KillRule>)
    requires Armed(a) && a <= b
    ensures Armed(b)
  {
    var m: nat :| NotFwmark(m) in a;
    assert NotFwmark(m) in b;
  }

  /** The moment at which a kill switch is installed: an operation that routes a peer with a default route and
      succeeds. */
  predicate Arms(e: Event) {
    e.ok && e.op.ConfigurePeerRouting? && HasDefaultRoute(e.op.peers)
  }

  /** From event `i` on, and still. */
  ghost predicate ArmedFrom(v: World, i: nat) {
    && Armed(v.k.rules)
    && forall j :: i <= j < |v.trace| ==> Armed(v.trace[j].after.rules) && !Teardown(v.trace[j].op)
  }

  lemma ArmedStays(w: World, v: World, i: nat)
    requires ClosedSince(w)(v) && |w.trace| <= i < |v.trace| && Arms(v.trace[i])
    ensures ArmedFrom(v, i)
  {
    hide Armed, HasDefaultRoute;
    assert Closed(w.k.rules, v.trace[i]);
    var rules := v.trace[i].after.rules;
    ArmedGrows(rules, v.k.rules);
    forall j | i <= j < |v.trace| ensures Armed(v.trace[j].after.rules) && !Teardown(v.trace[j].op) {
      assert Closed(w.k.rules, v.trace[j]);
      ArmedGrows(rules, v.trace[j].after.rules);
    }
  }

  /** The whole guarantee: once a default route has been routed, in whatever switch and however that switch ends, every
      kernel state before the next disconnect has the kill switch. */
  lemma KillSwitchOverRuns(lib: Lib, env: Oracle, w: World, cmds: seq<Command>, i: nat)
    requires forall c :: c in cmds ==> !c.Disconnecting?
    requires |w.trace| <= i < |Run(lib, env, w, cmds).trace| && Arms(Run(lib, env, w, cmds).trace[i])
    ensures ArmedFrom(Run(lib, env, w, cmds), i)
  {
    hide Run, ClosedSince, Arms, ArmedFrom;
    RulesStayUntilDisconnect(lib, env, w, cmds);
    ArmedStays(w, Run(lib, env, w, cmds), i);
  }

  /** A switch to a full tunnel that gets past routing arms the kill switch there and then, even if the sync, the
      firewall or DNS fails after it; its only routing operation is such a one. */
  lemma FullTunnelArms(lib: Lib, env: Oracle, w: World, s: ServerConfig, answer: Option<SocketAddr>, i: nat)
    requires PlanSwitch(lib, s, answer).Ok? && PlanSwitch(lib, s, answer).value.fullTunnel
    requires var w' := SwitchTo(lib, env, w, s, answer).0;
             |w.trace| <= i < |w'.trace| && w'.trace[i].op.ConfigurePeerRouting? && w'.trace[i].ok
    ensures ArmedFrom(SwitchTo(lib, env, w, s, answer).0, i)
  {
    hide SwitchTo, PlanSwitch, ClosedSince, ArmedFrom, HasDefaultRoute;
    var w' := SwitchTo(lib, env, w, s, answer).0;
    SwitchIssues(lib, env, w, s, answer);
    assert IssuedFor(PlanSwitch(lib, s, answer).value, w'.trace[i].op);
    FullTunnelMeans(lib, s, answer);
    SwitchFailsClosed(lib, env, w, s, answer);
    ArmedStays(w, w', i);
  }

  lemma FullTunnelMeans(lib: Lib, s: ServerConfig, answer: Option<SocketAddr>)
    requires PlanSwitch(lib, s, answer).Ok?
    ensures var plan := PlanSwitch(lib, s, answer).value; plan.fullTunnel == HasDefaultRoute([plan.peer])
  {
    hide PeerOf, ParseDns, ParseAddresses, HasDefaultRoute;
  }

  /** A switch to a full tunnel that succeeds did get past routing. */
  lemma FullTunnelInstallsRules(lib: Lib, env: Oracle, w: World, s: ServerConfig, answer: Option<SocketAddr>)
    requires SwitchTo(lib, env, w, s, answer).1.Ok?
    requires PlanSwitch(lib, s, answer).value.fullTunnel
    ensures Armed(SwitchTo(lib, env, w, s, answer).0.k.rules)
  {
    hide RunPlan, PeerOf, ParseDns, ParseAddresses, Armed;
    FullTunnelMeans(lib, s, answer);
    RunPlanArms(lib, env, w, s, PlanSwitch(lib, s, answer).value);
  }

  ghost function StaysArmed(): World -> bool {
    (v: World) => Armed(v.k.rules)
  }

  lemma PlanKeepsArmed(env: Oracle, plan: Plan)
    ensures KeptBy(env, plan, StaysArmed())
  {
    hide Effect, Armed;
    forall v, op | StaysArmed()(v) && IssuedFor(plan, op) ensures StaysArmed()(Step(env, v, op).0) {
      OnlyRemovalDropsRules(v.k, op, env(v.clock));
      ArmedGrows(v.k.rules, Step(env, v, op).0.k.rules);
    }
  }

  lemma RunPlanArms(lib: Lib, env: Oracle, w: World, s: ServerConfig, plan: Plan)
    requires RunPlan(lib, env, w, s, plan).1.Ok? && HasDefaultRoute([plan.peer])
    ensures Armed(RunPlan(lib, env, w, s, plan).0.k.rules)
  {
    hide Effect, Armed, Reconfigure, SyncAndFinish, HasDefaultRoute;
    var (w1, _) := Reconfigure(lib, env, w, s, plan.peer);
    var op := ConfigurePeerRouting([plan.peer]);
    var (w2, _) := Step(env, w1, op);
    RoutingArms(w1.k, op, env(w1.clock));
    PlanKeepsArmed(env, plan);
    SyncAndFinishKeeps(env, w2, plan, StaysArmed());
  }

  // --- routes during a switch --------------------------------------------------

  /** No operation of the plan breaks a way through the tunnel to a prefix the plan wants. */
  lemma StepKeepsTunnel(env: Oracle, w: World, op: Op, plan: Plan, p: IpAddrMask)
    requires IssuedFor(plan, op) && p in plan.split && ThroughTunnel(w.k.routes, p)
    ensures ThroughTunnel(Step(env, w, op).0.k.routes, p)
  {
    hide Nft.Exec;
    var o := env(w.clock);
    var routes := w.k.routes;
    var r :| r in routes && r.dev == INTERFACE_NAME && !r.proto.OnLink? && r.prefix == p;
    match op
    case ConfigureInterface(cfg) =>
      RelinkElements(routes, o.partial.routes);
      assert !Linked(r);
    case ConfigurePeerRouting(peers) =>
      var wanted := AllAllowedIps(peers);
      PutAllKeepsTunnel(routes, wanted, DefguardProto(o), p);
      PutAllKeepsTunnel(routes, wanted[..if o.freeMark <= |wanted| then o.freeMark else |wanted|], DefguardProto(o), p);
    case RouteReplace(q) =>
      PutRouteKeepsTunnel(routes, Route(q, INTERFACE_NAME, Static, 0), p);
    case RouteDel(q) =>
      DropOwnedElements(routes, q);
    case _ =>
  }

  /** A prefix that both the old and the new server carry has a route into the tunnel in every kernel state of the
      switch. */
  lemma CommonPrefixNeverLeaves(lib: Lib, env: Oracle, w: World, s: ServerConfig, answer: Option<SocketAddr>,
                                p: IpAddrMask)
    requires PlanSwitch(lib, s, answer).Ok? && p in PlanSwitch(lib, s, answer).value.split
    requires HasOwned(w.k.routes, p)
    ensures TunneledSince(w, p)(SwitchTo(lib, env, w, s, answer).0)
  {
    hide RunPlan, PeerOf, ParseDns, ParseAddresses, PlanSwitch, SwitchTo;
    var plan := PlanSwitch(lib, s, answer).value;
    var r :| r in w.k.routes && Owned(r) && r.prefix == p;
    assert ThroughTunnel(w.k.routes, p);
    PlanKeepsTunneled(env, w, plan, p);
    SwitchKeeps(lib, env, w, s, answer, TunneledSince(w, p));
  }

  ghost function TunneledSince(w: World, p: IpAddrMask): World -> bool {
    (v: World) =>
      && ThroughTunnel(v.k.routes, p) && w.trace <= v.trace
      && forall i :: |w.trace| <= i < |v.trace| ==> ThroughTunnel(v.trace[i].after.routes, p)
  }

  lemma PlanKeepsTunneled(env: Oracle, w: World, plan: Plan, p: IpAddrMask)
    requires p in plan.split
    ensures KeptBy(env, plan, TunneledSince(w, p))
  {
    forall v, op | TunneledSince(w, p)(v) && IssuedFor(plan, op) ensures TunneledSince(w, p)(Step(env, v, op).0) {
      StepKeepsTunnel(env, v, op, plan, p);
    }
  }

  /** No operation of the plan lets anything foreign in at metric 0 on a prefix the plan wants. */
  lemma StepKeepsAlone(env: Oracle, w: World, op: Op, plan: Plan, p: IpAddrMask)
    requires IssuedFor(plan, op) && p in plan.split && TunnelAlone(w.k.routes, p) && AllCanonical(w.k.routes)
    ensures var routes := Step(env, w, op).0.k.routes; TunnelAlone(routes, p) && AllCanonical(routes)
  {
    hide Nft.Exec, TunnelAlone, AllCanonical, Relink, DropOwned, PutAll, PutRoute, Canonical, HasDefaultRoute,
         AllAllowedIps;
    var o := env(w.clock);
    var routes := w.k.routes;
    match op
    case ConfigureInterface(cfg) => RelinkKeepsAlone(routes, o.partial.routes, p);
    case ConfigurePeerRouting(peers) =>
      var wanted := AllAllowedIps(peers);
      var n := if o.freeMark <= |wanted| then o.freeMark else |wanted|;
      PutAllKeepsAlone(routes, wanted, DefguardProto(o), p);
      PutAllKeepsAlone(routes, wanted[..n], DefguardProto(o), p);
    case RouteReplace(q) =>
      if Canonical(q) {
        PutRouteKeepsAlone(routes, Route(q, INTERFACE_NAME, Static, 0), p);
      }
    case RouteDel(q) => DropKeepsAlone(routes, q, p);
    case _ =>
  }

  lemma RelinkKeepsAlone(routes: seq<Route>, linked: seq<Route>, p: IpAddrMask)
    requires TunnelAlone(routes, p) && AllCanonical(routes)
    ensures TunnelAlone(Relink(routes, linked), p) && AllCanonical(Relink(routes, linked))
  {
    RelinkElements(routes, linked);
    var r :| r in routes && r.prefix == p && r.metric == 0 && r.dev == INTERFACE_NAME && !r.proto.OnLink?;
    assert r in Relink(routes, linked);
  }

  lemma DropKeepsAlone(routes: seq<Route>, q: IpAddrMask, p: IpAddrMask)
    requires TunnelAlone(routes, p) && AllCanonical(routes) && q != p
    ensures TunnelAlone(DropOwned(routes, q), p) && AllCanonical(DropOwned(routes, q))
  {
    DropOwnedElements(routes, q);
    var r :| r in routes && r.prefix == p && r.metric == 0 && r.dev == INTERFACE_NAME && !r.proto.OnLink?;
    assert r in DropOwned(routes, q);
  }

  ghost function AloneSince(w: World, p: IpAddrMask): World -> bool {
    (v: World) =>
      && TunnelAlone(v.k.routes, p) && AllCanonical(v.k.routes) && w.trace <= v.trace
      && forall i :: |w.trace| <= i < |v.trace| ==>
           TunnelAlone(v.trace[i].after.routes, p) && AllCanonical(v.trace[i].after.routes)
  }

  lemma PlanKeepsAlone(env: Oracle, w: World, plan: Plan, p: IpAddrMask)
    requires p in plan.split
    ensures KeptBy(env, plan, AloneSince(w, p))
  {
    hide TunnelAlone, AllCanonical, Effect;
    forall v, op | AloneSince(w, p)(v) && IssuedFor(plan, op) ensures AloneSince(w, p)(Step(env, v, op).0) {
      StepKeepsAlone(env, v, op, plan, p);
    }
  }

  /** Not even for an instant: a destination inside a prefix that was installed before a switch and that the new server
      carries too leaves through the tunnel in every kernel state of the switch, unless a strictly longer prefix takes
      it, however the switch goes. */
  lemma CommonDestinationStaysInside(lib: Lib, env: Oracle, w: World, s: ServerConfig, answer: Option<SocketAddr>,
                                     p: IpAddrMask, x: IpAddr, i: nat)
    requires PlanSwitch(lib, s, answer).Ok? && p in PlanSwitch(lib, s, answer).value.split
    requires AllCanonical(w.k.routes) && OnlyOurs(w.k.routes, p) && Covers(p, x)
    requires |w.trace| <= i < |SwitchTo(lib, env, w, s, answer).0.trace|
    ensures var best := Lookup(SwitchTo(lib, env, w, s, answer).0.trace[i].after.routes, x);
            best.Some? && (best.value.dev == INTERFACE_NAME || best.value.prefix.cidr > p.cidr)
  {
    hide SwitchTo, PlanSwitch, TunnelAlone, AllCanonical, OnlyOurs, Lookup;
    PlanKeepsAlone(env, w, PlanSwitch(lib, s, answer).value, p);
    OursIsAlone(w.k.routes, p);
    SwitchKeeps(lib, env, w, s, answer, AloneSince(w, p));
    TunnelAloneWins(SwitchTo(lib, env, w, s, answer).0.trace[i].after.routes, p, x);
  }

  /** Pruning touches only routes tagged as ours: every other route outlives the whole sync, unless an
      install replaced it at the same prefix and metric. */
  lemma SyncSparesForeign(env: Oracle, w: World, split: seq<IpAddrMask>, r: Route)
    requires r in w.k.routes && !Owned(r)
    requires r.metric != 0 || r.prefix !in split
    ensures r in SyncSplitRoutes(env, w, split).0.k.routes
  {
    InstallSpares(env, w, split, r);
    var (w1, ok) := InstallAll(env, w, split);
    if ok {
      var (w2, installed) := InstalledSplitRoutes(env, w1);
      PruneSpares(env, w2, StaleRoutes(installed, split), r);
    }
  }

  lemma {:induction false} InstallSpares(env: Oracle, w: World, prefixes: seq<IpAddrMask>, r: Route)
    requires r in w.k.routes && (r.metric != 0 || r.prefix !in prefixes)
    ensures r in InstallAll(env, w, prefixes).0.k.routes
    decreases prefixes
  {
    if prefixes != [] {
      PutRouteElements(w.k.routes, Route(prefixes[0], INTERFACE_NAME, Static, 0));
      InstallSpares(env, Step(env, w, RouteReplace(prefixes[0])).0, prefixes[1..], r);
    }
  }

  lemma {:induction false} PruneSpares(env: Oracle, w: World, stale: seq<IpAddrMask>, r: Route)
    requires r in w.k.routes && (!Owned(r) || r.prefix !in stale)
    ensures r in PruneAll(env, w, stale).k.routes
    decreases stale
  {
    if stale != [] {
      DropOwnedElements(w.k.routes, stale[0]);
      PruneSpares(env, Step(env, w, RouteDel(stale[0])).0, stale[1..], r);
    }
  }
}
