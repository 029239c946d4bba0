/** The other leg of leak safety: the device's mark, and the rule of the kill switch that names it. */
module SwitchMarks {
  import opened Basics
  import opened Prefix
  import opened Text
  import opened Config
  import opened Kernel
  import opened Routes
  import opened Tunnel
  import opened Switch
  import opened SwitchSafety
  import opened SwitchTarget
  import Nft

  /** Every rule that exempts a mark exempts the device's: its own packets never go back into the tunnel. */
  ghost predicate Agree(k: KState) {
    forall m: nat :: NotFwmark(m) in k.rules ==> DeviceMark(k) == Some(m)
  }

  // --- what the parts of a switch do to marks and rules ------------------------

  /** The first read found a live interface: the warm path. */
  predicate Warm(env: Oracle, w: World) {
    env(w.clock).ok && w.k.iface.Some?
  }

  lemma ReconfigureMark(lib: Lib, env: Oracle, w: World, s: ServerConfig, plan: Plan)
    requires Reconfigure(lib, env, w, s, plan.peer).1.None?
    ensures var w' := Reconfigure(lib, env, w, s, plan.peer).0;
            && w'.k.iface.Some? && w'.k.iface.value.fwmark == (if Warm(env, w) then w.k.iface.value.fwmark else None)
            && w'.k.rules == w.k.rules && w'.clock == w.clock + if Warm(env, w) then 2 else 3
  {
    hide Nft.Exec, Trim, ParseAddresses, Relink;
  }

  lemma RoutingMarks(env: Oracle, w: World, plan: Plan)
    requires !Step(env, w, ConfigurePeerRouting([plan.peer])).1.Failed?
    ensures var w' := Step(env, w, ConfigurePeerRouting([plan.peer])).0;
            && w.k.iface.Some? && w'.k.iface.Some?
            && var mark := RoutingMark(w.k.iface.value, env(w.clock));
               if HasDefaultRoute([plan.peer])
               then w'.k.iface.value.fwmark == Some(mark) && w'.k.rules == w.k.rules + KillSwitch(mark)
               else w'.k.iface.value.fwmark == w.k.iface.value.fwmark && w'.k.rules == w.k.rules
  {
    hide HasDefaultRoute, AllAllowedIps, PutAll;
  }

  // --- where a switch ends -----------------------------------------------------

  /** The mark a full tunnel ends with: the one that was read, or the one routing picks. */
  function FullTunnelMark(env: Oracle, w: World): nat {
    if Warm(env, w) && DeviceMark(w.k).Some? then DeviceMark(w.k).value
    else env(w.clock + if Warm(env, w) then 2 else 3).freeMark + 1
  }

  /** Exactly which mark and which rules a successful switch leaves. */
  lemma SwitchMark(lib: Lib, env: Oracle, w: World, s: ServerConfig, answer: Option<SocketAddr>)
    requires SwitchTo(lib, env, w, s, answer).1.Ok?
    ensures var w' := SwitchTo(lib, env, w, s, answer).0;
            var mark := FullTunnelMark(env, w);
            && w'.k.iface.Some?
            && if PlanSwitch(lib, s, answer).value.fullTunnel
               then w'.k.iface.value.fwmark == Some(mark) && w'.k.rules == w.k.rules + KillSwitch(mark)
               else && w'.k.iface.value.fwmark == (if Warm(env, w) then w.k.iface.value.fwmark else None)
                    && w'.k.rules == w.k.rules
  {
    hide Effect, HasDefaultRoute, PlanSwitch, Reconfigure, SyncAndFinish, HasOwned, OnlyOurs, AllCanonical, Trim,
         ParseAddresses, SplitRoutePrefixes, RoutesWanted, Settled, BestEffortOk, Nft.Installed;
    var plan := PlanSwitch(lib, s, answer).value;
    FullTunnelMeans(lib, s, answer);
    PlanParts(lib, s, answer);
    var (w1, _) := Reconfigure(lib, env, w, s, plan.peer);
    var (w2, _) := Step(env, w1, ConfigurePeerRouting([plan.peer]));
    ReconfigureMark(lib, env, w, s, plan);
    RoutingMarks(env, w1, plan);
    SyncAndFinishReaches(env, w2, plan, |w2.trace|);
  }

  /** A live interface that could be read keeps its mark through a successful switch. */
  lemma MarkIsKept(lib: Lib, env: Oracle, w: World, s: ServerConfig, answer: Option<SocketAddr>)
    requires SwitchTo(lib, env, w, s, answer).1.Ok? && Warm(env, w) && DeviceMark(w.k).Some?
    ensures DeviceMark(SwitchTo(lib, env, w, s, answer).0.k) == DeviceMark(w.k)
  {
    hide SwitchTo, PlanSwitch;
    SwitchMark(lib, env, w, s, answer);
  }

  /** Exactly when rule and device still agree after a switch that started from an armed, agreeing kernel: the live
      interface could be read. A transient read error sends the switch down the cold path, which configures the
      interface without a mark while the old rule stays; only routing picking that very mark again would mend it. */
  lemma AgreesIff(lib: Lib, env: Oracle, w: World, s: ServerConfig, answer: Option<SocketAddr>, m: nat)
    requires SwitchTo(lib, env, w, s, answer).1.Ok?
    requires Agree(w.k) && NotFwmark(m) in w.k.rules
    ensures Agree(SwitchTo(lib, env, w, s, answer).0.k) <==>
            env(w.clock).ok || (PlanSwitch(lib, s, answer).value.fullTunnel && env(w.clock + 3).freeMark + 1 == m)
  {
    hide RunPlan, PlanSwitch;
    SwitchMark(lib, env, w, s, answer);
    var k := SwitchTo(lib, env, w, s, answer).0.k;
    assert DeviceMark(w.k) == Some(m) && NotFwmark(m) in k.rules;
    forall n: nat | NotFwmark(n) in w.k.rules ensures n == m {
      assert DeviceMark(w.k) == Some(n);
    }
    if PlanSwitch(lib, s, answer).value.fullTunnel {
      assert NotFwmark(FullTunnelMark(env, w)) in k.rules;
    }
  }

  /** What the cold path does to a live, marked interface: right after the configuration the device carries no mark,
      while the rule that exempts its old one is still there. */
  lemma TransientReadClearsTheMark(lib: Lib, env: Oracle, w: World, s: ServerConfig, plan: Plan, m: nat)
    requires Reconfigure(lib, env, w, s, plan.peer).1.None?
    requires !env(w.clock).ok && DeviceMark(w.k) == Some(m) && NotFwmark(m) in w.k.rules
    ensures var k := Reconfigure(lib, env, w, s, plan.peer).0.k;
            DeviceMark(k) == None && NotFwmark(m) in k.rules && !Agree(k)
  {
    hide Reconfigure;
    ReconfigureMark(lib, env, w, s, plan);
  }

  /** And once rule and device disagree because two marks are exempted, they disagree in every kernel state until a
      disconnect: the device carries one mark at most, and no switch takes a rule away. */
  lemma DisagreementLasts(lib: Lib, env: Oracle, w: World, cmds: seq<Command>, m: nat, n: nat)
    requires m != n && NotFwmark(m) in w.k.rules && NotFwmark(n) in w.k.rules
    requires forall c :: c in cmds ==> !c.Disconnecting?
    ensures var end := Run(lib, env, w, cmds);
            && !Agree(end.k)
            && forall i :: |w.trace| <= i < |end.trace| ==> !Agree(end.trace[i].after)
  {
    hide Run, HasDefaultRoute, Armed;
    RulesStayUntilDisconnect(lib, env, w, cmds);
    var end := Run(lib, env, w, cmds);
    TwoMarksDisagree(end.k, m, n);
    forall i | |w.trace| <= i < |end.trace| ensures !Agree(end.trace[i].after) {
      assert Closed(w.k.rules, end.trace[i]);
      TwoMarksDisagree(end.trace[i].after, m, n);
    }
  }

  lemma TwoMarksDisagree(k: KState, m: nat, n: nat)
    requires m != n && NotFwmark(m) in k.rules && NotFwmark(n) in k.rules
    ensures !Agree(k)
  {
    assert DeviceMark(k) != Some(m) || DeviceMark(k) != Some(n);
  }

  /** That is where a transient read error on the way to another full tunnel leads, unless routing picks the old
      mark. */
  lemma TransientReadLasts(lib: Lib, env: Oracle, w: World, s: ServerConfig, answer: Option<SocketAddr>, m: nat,
                           cmds: seq<Command>)
    requires SwitchTo(lib, env, w, s, answer).1.Ok? && PlanSwitch(lib, s, answer).value.fullTunnel
    requires NotFwmark(m) in w.k.rules && !env(w.clock).ok && env(w.clock + 3).freeMark + 1 != m
    requires forall c :: c in cmds ==> !c.Disconnecting?
    ensures var up := SwitchTo(lib, env, w, s, answer).0;
            var end := Run(lib, env, up, cmds);
            && !Agree(end.k)
            && forall i :: |up.trace| <= i < |end.trace| ==> !Agree(end.trace[i].after)
  {
    hide RunPlan, PlanSwitch, Run, Agree;
    SwitchMark(lib, env, w, s, answer);
    DisagreementLasts(lib, env, SwitchTo(lib, env, w, s, answer).0, cmds, m, env(w.clock + 3).freeMark + 1);
  }

  // --- every step of the way ---------------------------------------------------

  /** From `w` on, the mark is `m` in every kernel state that a failed configuration did not leave. */
  function MarkedSince(w: World, m: nat): World -> bool {
    (v: World) =>
      && w.trace <= v.trace && DeviceMark(v.k) == Some(m)
      && forall i :: |w.trace| <= i < |v.trace| ==> DeviceMark(v.trace[i].after) == Some(m)
  }

  lemma LaterKeepsMark(env: Oracle, w: World, plan: Plan, m: nat)
    ensures KeptLater(env, plan, MarkedSince(w, m))
  {
    forall v, op | MarkedSince(w, m)(v) && IssuedFor(plan, op) && !op.ConfigureInterface? && !op.CreateInterface?
      ensures MarkedSince(w, m)(Step(env, v, op).0)
    {
      OpKeepsMark(v.k, op, env(v.clock), m);
    }
  }

  lemma OpKeepsMark(k: KState, op: Op, o: Outcome, m: nat)
    requires DeviceMark(k) == Some(m) && !op.ConfigureInterface? && !op.CreateInterface? && !op.RemoveInterface?
    ensures DeviceMark(Effect(k, op, o).0) == Some(m)
  {
    hide Nft.Exec, HasDefaultRoute, AllAllowedIps, PutAll, PutRoute, HasOwned, DropOwned, ReadBack;
  }

  /** Warm, the device carries its mark in every kernel state of the switch, whether it succeeds or fails: the only
      state not covered is the one that a failed configuration leaves, and the switch ends there. */
  lemma MarkThroughout(lib: Lib, env: Oracle, w: World, s: ServerConfig, answer: Option<SocketAddr>, m: nat)
    requires Warm(env, w) && DeviceMark(w.k) == Some(m) && PlanSwitch(lib, s, answer).Ok?
    ensures var w' := SwitchTo(lib, env, w, s, answer).0;
            && w.trace <= w'.trace
            && forall i :: |w.trace| <= i < |w'.trace| ==>
                 DeviceMark(w'.trace[i].after) == Some(m) ||
                 (i == |w'.trace| - 1 && w'.trace[i].op.ConfigureInterface? && !w'.trace[i].ok)
  {
    hide PlanSwitch, Effect, RouteAndFinish, BuildInterfaceConfig;
    var plan := PlanSwitch(lib, s, answer).value;
    WarmReconfigure(lib, env, w, s, plan, m);
    var (w1, failure) := Reconfigure(lib, env, w, s, plan.peer);
    if failure.None? {
      LaterKeepsMark(env, w, plan, m);
      RouteAndFinishKeeps(env, w1, plan, MarkedSince(w, m));
    }
  }

  lemma WarmReconfigure(lib: Lib, env: Oracle, w: World, s: ServerConfig, plan: Plan, m: nat)
    requires Warm(env, w) && DeviceMark(w.k) == Some(m)
    ensures var (w1, failure) := Reconfigure(lib, env, w, s, plan.peer);
            && w.trace <= w1.trace
            && (failure.None? ==> MarkedSince(w, m)(w1))
            && forall i :: |w.trace| <= i < |w1.trace| ==>
                 DeviceMark(w1.trace[i].after) == Some(m) ||
                 (i == |w1.trace| - 1 && w1.trace[i].op.ConfigureInterface? && !w1.trace[i].ok)
  {
    hide Nft.Exec, Trim, ParseAddresses, Relink;
  }
}
