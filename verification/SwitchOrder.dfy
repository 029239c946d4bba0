/** The order of a switch's operations, and which failures end it. */
module SwitchOrder {
  import opened Basics
  import opened Prefix
  import opened Text
  import opened Config
  import opened Kernel
  import opened Tunnel
  import opened Switch
  import Nft

  /** The place of an operation in a switch. The interface is read at two places, so a read has none. */
  function Stage(op: Op): Option<nat> {
    match op
    case CreateInterface => Some(0)
    case ConfigureInterface(_) => Some(1)
    case ConfigurePeerRouting(_) => Some(2)
    case RouteReplace(_) => Some(3)
    case RouteShow(_) => Some(4)
    case RouteDel(_) => Some(5)
    case ApplyFirewall(_, _) => Some(6)
    case ConfigureDns(_) => Some(7)
    case ResetDns => Some(7)
    case _ => None
  }

  /** The operations whose failure ends a switch. */
  predicate Mandatory(op: Op) {
    op.ConfigureInterface? || op.ConfigurePeerRouting? || op.RouteReplace? || op.ApplyFirewall? || op.ConfigureDns?
  }

  predicate Between(e: Event, low: nat, high: nat) {
    Stage(e.op).Some? ==> low <= Stage(e.op).value <= high
  }

  predicate NotAfter(e: Event, later: Event) {
    Stage(e.op).Some? && Stage(later.op).Some? ==> Stage(e.op).value <= Stage(later.op).value
  }

  /** What happened from `w` to `v`, in order, in the stages from `low` to `high`; `ok` says whether every mandatory
      operation succeeded, and if one failed it is the last. */
  predicate Part(w: World, v: World, low: nat, high: nat, ok: bool) {
    && w.trace <= v.trace
    && (forall i :: |w.trace| <= i < |v.trace| ==> Between(v.trace[i], low, high))
    && (forall i, j :: |w.trace| <= i < j < |v.trace| ==> NotAfter(v.trace[i], v.trace[j]))
    && (forall i :: |w.trace| <= i < |v.trace| ==> Mandatory(v.trace[i].op) && !v.trace[i].ok ==>
          !ok && i == |v.trace| - 1)
    && (!ok ==> |w.trace| < |v.trace| && Mandatory(v.trace[|v.trace| - 1].op) && !v.trace[|v.trace| - 1].ok)
  }

  lemma Then(w: World, v1: World, v2: World, a: nat, b: nat, c: nat, d: nat, ok: bool)
    requires Part(w, v1, a, b, true) && Part(v1, v2, c, d, ok) && a <= c && b <= c && b <= d
    ensures Part(w, v2, a, d, ok)
  {
    hide Mandatory, Stage;
    assert forall i :: |w.trace| <= i < |v1.trace| ==> v2.trace[i] == v1.trace[i];
    forall i | |w.trace| <= i < |v2.trace| ensures Between(v2.trace[i], a, d) {
      if i < |v1.trace| {
        assert Between(v1.trace[i], a, b);
      } else {
        assert Between(v2.trace[i], c, d);
      }
    }
    forall i, j | |w.trace| <= i < j < |v2.trace| ensures NotAfter(v2.trace[i], v2.trace[j]) {
      if j < |v1.trace| {
        assert NotAfter(v1.trace[i], v1.trace[j]);
      } else if i < |v1.trace| {
        assert Between(v1.trace[i], a, b) && Between(v2.trace[j], c, d);
      }
    }
  }

  lemma Widen(w: World, v: World, a: nat, b: nat, low: nat, high: nat, ok: bool)
    requires Part(w, v, a, b, ok) && low <= a && b <= high
    ensures Part(w, v, low, high, ok)
  {
    hide Mandatory, Stage;
    forall i | |w.trace| <= i < |v.trace| ensures Between(v.trace[i], low, high) {
      assert Between(v.trace[i], a, b);
    }
  }

  lemma OneStep(env: Oracle, w: World, op: Op, low: nat, high: nat)
    requires Stage(op).Some? ==> low <= Stage(op).value <= high
    ensures var (v, reply) := Step(env, w, op);
            Part(w, v, low, high, !Mandatory(op) || !reply.Failed?)
  {
    hide Effect;
  }

  lemma {:induction false} InstallPart(env: Oracle, w: World, prefixes: seq<IpAddrMask>)
    ensures var (v, ok) := InstallAll(env, w, prefixes); Part(w, v, 3, 3, ok)
    decreases prefixes
  {
    hide Step, Part;
    if prefixes == [] {
      NoStep(w, 3, 3);
    } else {
      var (v, reply) := Step(env, w, RouteReplace(prefixes[0]));
      OneStep(env, w, RouteReplace(prefixes[0]), 3, 3);
      if !reply.Failed? {
        InstallPart(env, v, prefixes[1..]);
        var (v', ok) := InstallAll(env, v, prefixes[1..]);
        Then(w, v, v', 3, 3, 3, 3, ok);
      }
    }
  }

  lemma NoStep(w: World, low: nat, high: nat)
    ensures Part(w, w, low, high, true)
  {
  }

  lemma {:induction false} PrunePart(env: Oracle, w: World, stale: seq<IpAddrMask>)
    ensures Part(w, PruneAll(env, w, stale), 5, 5, true)
    decreases stale
  {
    hide Step, Part;
    if stale == [] {
      NoStep(w, 5, 5);
    } else {
      var v := Step(env, w, RouteDel(stale[0])).0;
      OneStep(env, w, RouteDel(stale[0]), 5, 5);
      PrunePart(env, v, stale[1..]);
      Then(w, v, PruneAll(env, v, stale[1..]), 5, 5, 5, 5, true);
    }
  }

  lemma ListPart(env: Oracle, w: World)
    ensures Part(w, InstalledSplitRoutes(env, w).0, 4, 4, true)
  {
    hide Step, Part;
    var (v4, _) := Step(env, w, RouteShow(V4));
    var (v6, _) := Step(env, v4, RouteShow(V6));
    OneStep(env, w, RouteShow(V4), 4, 4);
    OneStep(env, v4, RouteShow(V6), 4, 4);
    Then(w, v4, v6, 4, 4, 4, 4, true);
  }

  lemma SyncPart(env: Oracle, w: World, wanted: seq<IpAddrMask>)
    ensures var (v, ok) := SyncSplitRoutes(env, w, wanted); Part(w, v, 3, 5, ok)
  {
    hide Part, InstallAll, InstalledSplitRoutes, PruneAll, StaleRoutes;
    var (w1, ok) := InstallAll(env, w, wanted);
    InstallPart(env, w, wanted);
    if !ok {
      Widen(w, w1, 3, 3, 3, 5, false);
    } else {
      var (w2, installed) := InstalledSplitRoutes(env, w1);
      ListPart(env, w1);
      Then(w, w1, w2, 3, 3, 4, 4, true);
      PrunePart(env, w2, StaleRoutes(installed, wanted));
      Then(w, w2, PruneAll(env, w2, StaleRoutes(installed, wanted)), 3, 4, 5, 5, true);
    }
  }

  lemma GuardPart(env: Oracle, w: World, addresses: seq<IpAddrMask>)
    ensures var (v, ok) := Guard(env, w, addresses); Part(w, v, 6, 6, ok)
  {
    hide Step, Part;
    var (w1, host) := Step(env, w, ReadInterfaceData);
    var op := ApplyFirewall(addresses, if host.Host? then NonZero(host.iface.fwmark) else None);
    var (w2, reply) := Step(env, w1, op);
    OneStep(env, w, ReadInterfaceData, 6, 6);
    OneStep(env, w1, op, 6, 6);
    Then(w, w1, w2, 6, 6, 6, 6, !reply.Failed?);
  }

  /** A reset of the resolver is not mandatory, a configuration is. */
  lemma DnsPart(env: Oracle, w: World, dns: seq<IpAddr>)
    ensures var (v, ok) := ApplyDns(env, w, dns); Part(w, v, 7, 7, ok)
  {
    hide Step, Part;
    OneStep(env, w, if dns == [] then ResetDns else ConfigureDns(dns), 7, 7);
  }

  lemma FinishPart(env: Oracle, w: World, plan: Plan)
    ensures var (v, ok) := RouteAndFinish(env, w, plan); Part(w, v, 2, 7, ok)
  {
    hide Step, Part, SyncSplitRoutes, Guard, ApplyDns;
    var (w1, routing) := Step(env, w, ConfigurePeerRouting([plan.peer]));
    OneStep(env, w, ConfigurePeerRouting([plan.peer]), 2, 2);
    var (w2, synced) := SyncSplitRoutes(env, w1, plan.split);
    var (w3, guarded) := Guard(env, w2, plan.addresses);
    var (w4, named) := ApplyDns(env, w3, plan.dns);
    if routing.Failed? {
      Widen(w, w1, 2, 2, 2, 7, false);
      return;
    }
    SyncPart(env, w1, plan.split);
    Then(w, w1, w2, 2, 2, 3, 5, synced);
    if !synced {
      Widen(w, w2, 2, 5, 2, 7, false);
      return;
    }
    GuardPart(env, w2, plan.addresses);
    Then(w, w2, w3, 2, 5, 6, 6, guarded);
    if !guarded {
      Widen(w, w3, 2, 6, 2, 7, false);
      return;
    }
    DnsPart(env, w3, plan.dns);
    Then(w, w3, w4, 2, 6, 7, 7, named);
  }

  lemma ReconfigurePart(lib: Lib, env: Oracle, w: World, s: ServerConfig, peer: Peer)
    requires lib.parseKey(Trim(s.privateKey)).Some? && ParseAddresses(lib, s).Ok?
    ensures var (v, failure) := Reconfigure(lib, env, w, s, peer); Part(w, v, 0, 1, failure.None?)
  {
    hide Step, Part, Trim, ParseAddresses;
    var (w1, host) := Step(env, w, ReadInterfaceData);
    OneStep(env, w, ReadInterfaceData, 0, 0);
    var cfg := BuildInterfaceConfig(lib, s, [peer], if host.Host? then host.iface.fwmark else None).value;
    if host.Host? {
      var (w2, reply) := Step(env, w1, ConfigureInterface(cfg));
      OneStep(env, w1, ConfigureInterface(cfg), 1, 1);
      Then(w, w1, w2, 0, 0, 1, 1, !reply.Failed?);
    } else {
      var (w2, _) := Step(env, w1, CreateInterface);
      var (w3, reply) := Step(env, w2, ConfigureInterface(cfg));
      OneStep(env, w1, CreateInterface, 0, 0);
      Then(w, w1, w2, 0, 0, 0, 0, true);
      OneStep(env, w2, ConfigureInterface(cfg), 1, 1);
      Then(w, w2, w3, 0, 0, 1, 1, !reply.Failed?);
    }
  }

  /** A switch whose text parses issues its operations in this order: create if cold, configure, route, install every
      route, list, prune, guard, and the resolver last. It succeeds exactly when every mandatory one of them succeeds: a
      failed create, read, listing, delete or reset of the resolver is passed over. The first mandatory one that fails
      is the last operation it issues. */
  lemma SwitchIsOrdered(lib: Lib, env: Oracle, w: World, s: ServerConfig, answer: Option<SocketAddr>)
    requires PlanSwitch(lib, s, answer).Ok? && lib.parseKey(Trim(s.privateKey)).Some?
    ensures var (v, r) := SwitchTo(lib, env, w, s, answer);
            && Part(w, v, 0, 7, r.Ok?)
            && (r.Ok? <==> forall i :: |w.trace| <= i < |v.trace| && Mandatory(v.trace[i].op) ==> v.trace[i].ok)
  {
    hide Trim, PlanSwitch, ParseAddresses, Reconfigure, RouteAndFinish, Mandatory, Stage, Between, NotAfter;
    var plan := PlanSwitch(lib, s, answer).value;
    PlanHasAddresses(lib, s, answer);
    var (w1, failure) := Reconfigure(lib, env, w, s, plan.peer);
    ReconfigurePart(lib, env, w, s, plan.peer);
    if failure.Some? {
      Widen(w, w1, 0, 1, 0, 7, false);
    } else {
      var (w2, ok) := RouteAndFinish(env, w1, plan);
      FinishPart(env, w1, plan);
      Then(w, w1, w2, 0, 1, 2, 7, ok);
    }
  }

  lemma PlanHasAddresses(lib: Lib, s: ServerConfig, answer: Option<SocketAddr>)
    requires PlanSwitch(lib, s, answer).Ok?
    ensures ParseAddresses(lib, s).Ok?
  {
    hide PeerOf, ParseDns, ParseAddresses, SplitRoutePrefixes;
  }

  /** A disconnect issues two operations, the second whatever becomes of the first, and its answer is the first one's.
      When the second succeeds none of our tables is left, even if the interface stays; tables of other programs
      stay. */
  lemma DisconnectIssues(env: Oracle, w: World)
    ensures var (v, ok) := Disconnect(env, w);
            && |v.trace| == |w.trace| + 2 && w.trace <= v.trace
            && v.trace[|w.trace|].op == RemoveInterface && v.trace[|w.trace| + 1].op == ClearFirewall
            && ok == v.trace[|w.trace|].ok
            && (v.trace[|w.trace| + 1].ok ==> forall id: Nft.TableId ::
                  && (id.name == "wirefinder" ==> id !in v.k.nft)
                  && (id.name != "wirefinder" ==>
                        (id in v.k.nft <==> id in w.k.nft) && (id in v.k.nft ==> v.k.nft[id] == w.k.nft[id])))
  {
    hide Nft.Exec, Nft.NftScript, OffInterface;
    var v := Disconnect(env, w).0;
    Nft.ScriptInstalls(w.k.nft, INTERFACE_NAME, [], None);
    if v.trace[|w.trace| + 1].ok {
      forall id: Nft.TableId ensures && (id.name == "wirefinder" ==> id !in v.k.nft)
                        && (id.name != "wirefinder" ==>
                              (id in v.k.nft <==> id in w.k.nft) && (id in v.k.nft ==> v.k.nft[id] == w.k.nft[id]))
      {
        Nft.ScriptFrame(w.k.nft, INTERFACE_NAME, [], None, id);
      }
    }
  }
}
