/** Where a successful switch ends up, from any kernel state: the routes, the lookup they give, and
    independence of everything that came before. */
module SwitchTarget {
  import opened Basics
  import opened Prefix
  import opened Text
  import opened Config
  import opened Kernel
  import opened Routes
  import opened Tunnel
  import opened Switch
  import Nft

  // --- the sync ----------------------------------------------------------------

  /** Only the routes differ. */
  predicate SameButRoutes(k: KState, k': KState) {
    k'.iface == k.iface && k'.rules == k.rules && k'.nft == k.nft && k'.resolver == k.resolver
  }

  /** Installing: every prefix gets a route at metric 0 that is ours, nothing of ours is lost, nothing else becomes
      ours. When an install fails, what was ours before still is: nothing is pruned. */
  lemma {:induction false} InstallEffect(env: Oracle, w: World, prefixes: seq<IpAddrMask>)
    ensures var (w', ok) := InstallAll(env, w, prefixes);
            && SameButRoutes(w.k, w'.k)
            && (AllCanonical(w.k.routes) ==> AllCanonical(w'.k.routes))
            && (ok ==> forall p :: p in prefixes ==> OnlyOurs(w'.k.routes, p))
            && (ok ==> forall q :: HasOwned(w'.k.routes, q) <==> q in prefixes || HasOwned(w.k.routes, q))
            && (forall q :: HasOwned(w.k.routes, q) ==> HasOwned(w'.k.routes, q))
            && (forall q :: OnlyOurs(w.k.routes, q) ==> OnlyOurs(w'.k.routes, q))
    decreases prefixes
  {
    hide Nft.Exec;
    if prefixes != [] {
      var (w1, reply) := Step(env, w, RouteReplace(prefixes[0]));
      if !reply.Failed? {
        PutOwned(w.k.routes, prefixes[0]);
        InstallEffect(env, w1, prefixes[1..]);
        forall p | p in prefixes && InstallAll(env, w, prefixes).1
          ensures OnlyOurs(InstallAll(env, w, prefixes).0.k.routes, p)
        {
          assert p == prefixes[0] || p in prefixes[1..];
        }
        assert forall q :: q in prefixes <==> q == prefixes[0] || q in prefixes[1..];
      }
    }
  }

  lemma PutOwned(routes: seq<Route>, p: IpAddrMask)
    ensures var after := PutRoute(routes, Route(p, INTERFACE_NAME, Static, 0));
            && OnlyOurs(after, p)
            && (forall q :: HasOwned(after, q) <==> q == p || HasOwned(routes, q))
            && (forall q :: OnlyOurs(routes, q) ==> OnlyOurs(after, q))
            && (AllCanonical(routes) && Canonical(p) ==> AllCanonical(after))
  {
    var route := Route(p, INTERFACE_NAME, Static, 0);
    var after := PutRoute(routes, route);
    PutRouteElements(routes, route);
    assert route in after;
    forall q | HasOwned(routes, q) ensures HasOwned(after, q) {
      var r :| r in routes && Owned(r) && r.prefix == q;
      if r.prefix == p && r.metric == 0 {
        assert route in after && Owned(route);
      } else {
        assert r in after;
      }
    }
  }

  /** Every event after the first `n` succeeded. */
  predicate AllOk(n: nat, w: World) {
    forall i :: n <= i < |w.trace| ==> w.trace[i].ok
  }

  /** Pruning removes nothing that is not stale, and everything stale when every delete succeeds. */
  lemma {:induction false} PruneEffect(env: Oracle, w: World, stale: seq<IpAddrMask>)
    ensures var w' := PruneAll(env, w, stale);
            && SameButRoutes(w.k, w'.k) && w.trace <= w'.trace
            && (AllCanonical(w.k.routes) ==> AllCanonical(w'.k.routes))
            && (forall q :: OnlyOurs(w.k.routes, q) && q !in stale ==> OnlyOurs(w'.k.routes, q))
            && (forall q :: HasOwned(w'.k.routes, q) ==> HasOwned(w.k.routes, q))
            && (forall q :: HasOwned(w.k.routes, q) && q !in stale ==> HasOwned(w'.k.routes, q))
            && (AllOk(|w.trace|, w') ==> forall q :: q in stale ==> !HasOwned(w'.k.routes, q))
    decreases stale
  {
    hide Nft.Exec;
    if stale != [] {
      var (w1, reply) := Step(env, w, RouteDel(stale[0]));
      DropStale(w.k.routes, stale[0]);
      PruneEffect(env, w1, stale[1..]);
      var w' := PruneAll(env, w, stale);
      assert w' == PruneAll(env, w1, stale[1..]);
      assert w'.trace[|w.trace|] == w1.trace[|w.trace|];
      assert forall q :: q in stale <==> q == stale[0] || q in stale[1..];
    }
  }

  lemma DropStale(routes: seq<Route>, p: IpAddrMask)
    ensures var after := DropOwned(routes, p);
            && (forall q :: HasOwned(after, q) <==> q != p && HasOwned(routes, q))
            && (forall q :: q != p && OnlyOurs(routes, q) ==> OnlyOurs(after, q))
            && (AllCanonical(routes) ==> AllCanonical(after))
  {
    DropOwnedElements(routes, p);
    var after := DropOwned(routes, p);
    forall q | q != p && HasOwned(routes, q) ensures HasOwned(after, q) {
      var r :| r in routes && Owned(r) && r.prefix == q;
      assert r in after;
    }
  }

  /** The steps whose failure is swallowed: the two read-backs, the deletes, the resolver reset. */
  predicate BestEffort(op: Op) {
    op.RouteShow? || op.RouteDel? || op.ResetDns?
  }

  predicate BestEffortOk(n: nat, w: World) {
    forall i :: n <= i < |w.trace| ==> (BestEffort(w.trace[i].op) ==> w.trace[i].ok)
  }

  /** What a sync that succeeded leaves: all that is wanted, nothing that was not there before; and when its
      best-effort steps succeeded too, exactly what is wanted plus the default routes that the read-back cannot see. */
  lemma SyncEffect(env: Oracle, w: World, wanted: seq<IpAddrMask>)
    requires SyncSplitRoutes(env, w, wanted).1
    ensures var w' := SyncSplitRoutes(env, w, wanted).0;
            && SameButRoutes(w.k, w'.k)
            && (AllCanonical(w.k.routes) ==> AllCanonical(w'.k.routes))
            && (forall p :: p in wanted ==> OnlyOurs(w'.k.routes, p))
            && (forall p :: p in wanted ==> HasOwned(w'.k.routes, p))
            && (forall p :: HasOwned(w'.k.routes, p) ==> p in wanted || HasOwned(w.k.routes, p))
            && (BestEffortOk(|w.trace|, w') ==>
                  forall p :: HasOwned(w'.k.routes, p) <==> p in wanted || (p.cidr == 0 && HasOwned(w.k.routes, p)))
  {
    hide Nft.Exec, OnlyOurs, AllCanonical;
    InstallEffect(env, w, wanted);
    InstallTrace(env, w, wanted);
    var (w1, _) := InstallAll(env, w, wanted);
    var (w2, installed) := InstalledSplitRoutes(env, w1);
    var stale := StaleRoutes(installed, wanted);
    var w' := PruneAll(env, w2, stale);
    KeepElements(installed, NotIn(wanted));
    PruneEffect(env, w2, stale);
    PruneTrace(env, w2, stale);
    assert w2.k == w1.k;
    if BestEffortOk(|w.trace|, w') {
      ReadBackElements(w1.k.routes, V4);
      ReadBackElements(w1.k.routes, V6);
      ListingComplete(env, w1, w', |w.trace|);
      assert AllOk(|w2.trace|, w');
      forall p ensures HasOwned(w'.k.routes, p) <==> p in wanted || (p.cidr == 0 && HasOwned(w.k.routes, p)) {
        assert p in installed <==> HasOwned(w1.k.routes, p) && p.cidr > 0;
        assert p in stale <==> p in installed && p !in wanted;
      }
    }
  }

  lemma {:induction false} InstallTrace(env: Oracle, w: World, prefixes: seq<IpAddrMask>)
    ensures w.trace <= InstallAll(env, w, prefixes).0.trace
    decreases prefixes
  {
    hide Effect;
    if prefixes != [] {
      var (w1, reply) := Step(env, w, RouteReplace(prefixes[0]));
      if !reply.Failed? {
        InstallTrace(env, w1, prefixes[1..]);
      }
    }
  }

  lemma {:induction false} PruneTrace(env: Oracle, w: World, stale: seq<IpAddrMask>)
    ensures var w' := PruneAll(env, w, stale);
            w.trace <= w'.trace && forall i :: |w.trace| <= i < |w'.trace| ==> w'.trace[i].op.RouteDel?
    decreases stale
  {
    hide Effect;
    if stale != [] {
      PruneTrace(env, Step(env, w, RouteDel(stale[0])).0, stale[1..]);
    }
  }

  /** When both read-backs succeeded, they list every owned route but the default ones. */
  lemma ListingComplete(env: Oracle, w1: World, w': World, n: nat)
    requires n <= |w1.trace| && InstalledSplitRoutes(env, w1).0.trace <= w'.trace && BestEffortOk(n, w')
    ensures var installed := InstalledSplitRoutes(env, w1).1;
            forall p :: p in installed <==> p in ReadBack(w1.k.routes, V4) || p in ReadBack(w1.k.routes, V6)
  {
    hide Nft.Exec, ReadBack;
    var (w4, v4) := Step(env, w1, RouteShow(V4));
    var (w6, v6) := Step(env, w4, RouteShow(V6));
    assert w'.trace[|w1.trace|] == w6.trace[|w1.trace|];
    assert w'.trace[|w1.trace| + 1] == w6.trace[|w1.trace| + 1];
    assert v4 == Prefixes(ReadBack(w1.k.routes, V4));
    assert v6 == Prefixes(ReadBack(w1.k.routes, V6));
  }

  /** A failed install prunes nothing: everything we owned, we still own. */
  lemma FailedSyncPrunesNothing(env: Oracle, w: World, wanted: seq<IpAddrMask>, p: IpAddrMask)
    requires !SyncSplitRoutes(env, w, wanted).1 && HasOwned(w.k.routes, p)
    ensures HasOwned(SyncSplitRoutes(env, w, wanted).0.k.routes, p)
  {
    hide Effect;
    InstallEffect(env, w, wanted);
  }

  /** `stale_routes` on canonical lists is the difference of the denoted sets. */
  lemma StaleIsSetDifference(installed: seq<IpAddrMask>, wanted: seq<IpAddrMask>, p: IpAddrMask)
    requires forall q :: q in installed || q in wanted ==> Canonical(q)
    ensures p in StaleRoutes(installed, wanted) <==>
            p in installed && !exists q :: q in wanted && (forall x: IpAddr :: Covers(p, x) <==> Covers(q, x))
  {
    KeepElements(installed, NotIn(wanted));
    if p in installed {
      forall q | q in wanted ensures q == p <==> (forall x: IpAddr :: Covers(p, x) <==> Covers(q, x)) {
        CanonicalEqualIffSameSet(p, q);
      }
    }
  }

  /** Why the prefixes are canonicalised first. A wanted prefix with host bits set makes every sync fail, since no
      install of it is accepted. */
  lemma {:induction false} HostBitsFailTheInstall(env: Oracle, w: World, prefixes: seq<IpAddrMask>)
    ensures InstallAll(env, w, prefixes).1 ==> forall p :: p in prefixes ==> Canonical(p)
    decreases prefixes
  {
    hide Canonical, PutRoute;
    if prefixes != [] {
      var (w1, reply) := Step(env, w, RouteReplace(prefixes[0]));
      if !reply.Failed? {
        HostBitsFailTheInstall(env, w1, prefixes[1..]);
        assert forall p :: p in prefixes ==> p == prefixes[0] || p in prefixes[1..];
      }
    }
  }

  /** And if an install masked it instead, the route would not live: read back it is the network prefix, which is stale
      exactly when it is not on the list itself, and the delete that follows the install takes it away again. */
  lemma HostBitsWouldBePruned(routes: seq<Route>, wanted: seq<IpAddrMask>, p: IpAddrMask)
    requires p in wanted && p.cidr > 0 && !Canonical(p)
    ensures var masked := NetworkPrefix(p);
            var installed := PutRoute(routes, Route(masked, INTERFACE_NAME, Static, 0));
            && (masked in StaleRoutes(ReadBack(installed, V4) + ReadBack(installed, V6), wanted) <==> masked !in wanted)
            && !HasOwned(DropOwned(installed, masked), masked)
  {
    hide ReadBack, HasOwned, Canonical;
    var masked := NetworkPrefix(p);
    var installed := PutRoute(routes, Route(masked, INTERFACE_NAME, Static, 0));
    PutOwned(routes, masked);
    ReadBackElements(installed, V4);
    ReadBackElements(installed, V6);
    KeepElements(ReadBack(installed, V4) + ReadBack(installed, V6), NotIn(wanted));
    DropStale(installed, masked);
  }

  // --- the whole switch --------------------------------------------------------

  /** The interface carries this server's identity and nothing of another's. */
  predicate Carries(lib: Lib, s: ServerConfig, plan: Plan, k: KState) {
    && k.iface.Some?
    && k.iface.value.privateKey.Some? && k.iface.value.privateKey == lib.parseKey(Trim(s.privateKey))
    && k.iface.value.addresses == plan.addresses
    && k.iface.value.peers == [plan.peer]
    && (s.listenPort != 0 ==> k.iface.value.port == s.listenPort)
  }

  lemma ReconfigureEffect(lib: Lib, env: Oracle, w: World, s: ServerConfig, plan: Plan)
    requires Reconfigure(lib, env, w, s, plan.peer).1.None?
    requires ParseAddresses(lib, s) == Ok(plan.addresses)
    ensures var w' := Reconfigure(lib, env, w, s, plan.peer).0;
            && Carries(lib, s, plan, w'.k)
            && w'.k.iface.value.mtu
               == (if s.mtu.Some? then s.mtu else if w.k.iface.Some? then w.k.iface.value.mtu else None)
            && w'.k.nft == w.k.nft && w'.k.resolver == w.k.resolver
            && w.trace <= w'.trace
            && (forall q :: HasOwned(w'.k.routes, q) <==> HasOwned(w.k.routes, q))
            && (AllCanonical(w.k.routes) ==> AllCanonical(w'.k.routes))
  {
    hide Nft.Exec, Trim, ParseAddresses, HasOwned, AllCanonical, Relink;
    var (w1, host) := Step(env, w, ReadInterfaceData);
    var cfg := BuildInterfaceConfig(lib, s, [plan.peer], if host.Host? then host.iface.fwmark else None).value;
    var w2 := if host.Host? then w1 else Step(env, w1, CreateInterface).0;
    ConfigureEffect(env, w2, cfg);
  }

  lemma ConfigureEffect(env: Oracle, w: World, cfg: InterfaceConfiguration)
    requires !Step(env, w, ConfigureInterface(cfg)).1.Failed?
    ensures var w' := Step(env, w, ConfigureInterface(cfg)).0;
            && w.k.iface.Some? && w'.k.iface == Some(Configured(w.k.iface.value, cfg, env(w.clock)))
            && w'.k.nft == w.k.nft && w'.k.resolver == w.k.resolver
            && (forall q :: HasOwned(w'.k.routes, q) <==> HasOwned(w.k.routes, q))
            && (AllCanonical(w.k.routes) ==> AllCanonical(w'.k.routes))
  {
    hide Nft.Exec;
    var linked := env(w.clock).partial.routes;
    RelinkElements(w.k.routes, linked);
    forall q ensures HasOwned(Relink(w.k.routes, linked), q) <==> HasOwned(w.k.routes, q) {
      if HasOwned(w.k.routes, q) {
        var r :| r in w.k.routes && Owned(r) && r.prefix == q;
        assert r in Relink(w.k.routes, linked);
      }
    }
  }

  lemma SplitPrefixElements(peer: Peer, p: IpAddrMask)
    ensures p in SplitRoutePrefixes(peer) <==>
            exists a :: a in peer.allowedIps && !IsUnspecified(a.address) && p == NetworkPrefix(a)
    ensures p in SplitRoutePrefixes(peer) ==> Canonical(p)
  {
    var kept := KeptForSplit(peer);
    var split := SplitRoutePrefixes(peer);
    if p in split {
      var i :| 0 <= i < |split| && split[i] == p;
      assert kept[i] in kept;
      NetworkPrefixIdempotent(kept[i]);
    }
    if a :| a in peer.allowedIps && !IsUnspecified(a.address) && p == NetworkPrefix(a) {
      assert a in kept;
      var i :| 0 <= i < |kept| && kept[i] == a;
      assert split[i] == p;
    }
  }

  lemma KeptForSplit(peer: Peer) returns (kept: seq<IpAddrMask>)
    ensures kept == Keep(peer.allowedIps, NotDefault())
    ensures forall a :: a in kept <==> a in peer.allowedIps && !IsUnspecified(a.address)
  {
    kept := Keep(peer.allowedIps, NotDefault());
    KeepElements(peer.allowedIps, NotDefault());
  }

  lemma RoutingEffect(env: Oracle, w: World, plan: Plan)
    requires !Step(env, w, ConfigurePeerRouting([plan.peer])).1.Failed?
    requires plan.split == SplitRoutePrefixes(plan.peer)
    ensures var w' := Step(env, w, ConfigurePeerRouting([plan.peer])).0;
            && w.k.iface.Some? && w'.k.iface.Some?
            && w'.k.iface.value == w.k.iface.value.(fwmark := w'.k.iface.value.fwmark)
            && w'.k.nft == w.k.nft && w'.k.resolver == w.k.resolver
            && (forall q :: HasOwned(w'.k.routes, q) ==> q in plan.split || HasOwned(w.k.routes, q))
            && (forall q :: q !in plan.split && HasOwned(w.k.routes, q) ==> HasOwned(w'.k.routes, q))
            && (AllCanonical(w.k.routes) ==> AllCanonical(w'.k.routes))
  {
    hide Nft.Exec;
    var allowed := plan.peer.allowedIps;
    assert AllAllowedIps([plan.peer]) == allowed + AllAllowedIps([plan.peer][1..]) == allowed + [] == allowed;
    if !HasDefaultRoute([plan.peer]) {
      var after := PutAll(w.k.routes, allowed, DefguardProto(env(w.clock)));
      PutAllElements(w.k.routes, allowed, DefguardProto(env(w.clock)));
      forall a | a in allowed ensures NetworkPrefix(a) in plan.split {
        assert plan.peer in [plan.peer];
        SplitPrefixElements(plan.peer, NetworkPrefix(a));
      }
      forall q | q !in plan.split && HasOwned(w.k.routes, q) ensures HasOwned(after, q) {
        var r :| r in w.k.routes && Owned(r) && r.prefix == q;
        assert r in after;
      }
    }
  }

  /** The mark the guard script is built with: the device's, when it can be read and is not zero. */
  function GuardMark(env: Oracle, w: World): Option<nat> {
    if env(w.clock).ok && w.k.iface.Some? then NonZero(w.k.iface.value.fwmark) else None
  }

  lemma GuardEffect(env: Oracle, w: World, addresses: seq<IpAddrMask>)
    requires Guard(env, w, addresses).1
    ensures var w' := Guard(env, w, addresses).0;
            && w'.k == w.k.(nft := Nft.Installed(w.k.nft, INTERFACE_NAME, addresses, GuardMark(env, w)))
            && w.trace <= w'.trace
  {
    hide Nft.Exec, Nft.NftScript, Nft.Installed;
    Nft.ScriptInstalls(w.k.nft, INTERFACE_NAME, addresses, GuardMark(env, w));
  }

  lemma DnsEffect(env: Oracle, w: World, dns: seq<IpAddr>, n: nat)
    requires ApplyDns(env, w, dns).1 && n <= |w.trace|
    ensures var w' := ApplyDns(env, w, dns).0;
            && w.trace <= w'.trace && w'.k == w.k.(resolver := w'.k.resolver)
            && (BestEffortOk(n, w') ==> w'.k.resolver == if dns == [] then None else Some(dns))
  {
    hide Nft.Exec;
    if dns == [] {
      var w' := ApplyDns(env, w, dns).0;
      assert w'.trace[|w.trace|].op == ResetDns;
    }
  }

  /** Every read of the interface since event `n` succeeded. */
  predicate ReadsOk(n: nat, w: World) {
    forall i :: n <= i < |w.trace| ==> (w.trace[i].op.ReadInterfaceData? ==> w.trace[i].ok)
  }

  /** When the guard's own read succeeds, the guard is built with the mark that the device carries. */
  lemma GuardReadsTheMark(env: Oracle, w: World, addresses: seq<IpAddrMask>, w': World)
    requires Guard(env, w, addresses).1 && Guard(env, w, addresses).0.trace <= w'.trace && ReadsOk(|w.trace|, w')
    ensures GuardMark(env, w) == DeviceMark(w.k)
  {
    hide Nft.Exec, Nft.NftScript;
    assert w'.trace[|w.trace|] == Guard(env, w, addresses).0.trace[|w.trace|];
  }

  /** Where a successful switch to this server ends, given the kernel it started from. */
  predicate Reached(lib: Lib, s: ServerConfig, plan: Plan, k: KState, k': KState, mark: Option<nat>) {
    && Carries(lib, s, plan, k')
    && k'.iface.value.mtu == (if s.mtu.Some? then s.mtu else if k.iface.Some? then k.iface.value.mtu else None)
    && k'.nft == Nft.Installed(k.nft, INTERFACE_NAME, plan.addresses, mark)
  }

  /** Every wanted prefix is ours and ours alone at metric 0; nothing else is ours that was not before. */
  ghost predicate RoutesWanted(plan: Plan, k: KState, k': KState) {
    && (forall p :: p in plan.split ==> HasOwned(k'.routes, p) && OnlyOurs(k'.routes, p))
    && (forall p :: HasOwned(k'.routes, p) ==> p in plan.split || HasOwned(k.routes, p))
    && (AllCanonical(k.routes) ==> AllCanonical(k'.routes))
  }

  /** With the best-effort steps done too: this server's resolver, and our routes are the wanted ones plus any
      default route owned before, which no read-back lists. */
  ghost predicate Settled(plan: Plan, k: KState, k': KState) {
    && k'.resolver == (if plan.dns == [] then None else Some(plan.dns))
    && forall p :: HasOwned(k'.routes, p) <==> p in plan.split || (p.cidr == 0 && HasOwned(k.routes, p))
  }

  lemma SyncAndFinishReaches(env: Oracle, w: World, plan: Plan, n: nat)
    requires SyncAndFinish(env, w, plan).1 && n <= |w.trace|
    ensures var w' := SyncAndFinish(env, w, plan).0;
            && w'.k.iface == w.k.iface && w'.k.rules == w.k.rules
            && (exists mark :: mark in {None, DeviceMark(w'.k)} &&
                               w'.k.nft == Nft.Installed(w.k.nft, INTERFACE_NAME, plan.addresses, mark))
            && (ReadsOk(n, w') ==> w'.k.nft == Nft.Installed(w.k.nft, INTERFACE_NAME, plan.addresses, DeviceMark(w'.k)))
            && RoutesWanted(plan, w.k, w'.k)
            && (BestEffortOk(n, w') ==> Settled(plan, w.k, w'.k))
  {
    hide Effect, Nft.Installed, HasOwned, OnlyOurs, AllCanonical, Guard, ApplyDns, SyncSplitRoutes;
    var (w1, _) := SyncSplitRoutes(env, w, plan.split);
    var (w2, _) := Guard(env, w1, plan.addresses);
    var (w3, _) := ApplyDns(env, w2, plan.dns);
    assert SyncAndFinish(env, w, plan) == (w3, true);
    SyncTrace(env, w, plan.split);
    GuardEffect(env, w1, plan.addresses);
    DnsEffect(env, w2, plan.dns, n);
    if ReadsOk(n, w3) {
      GuardReadsTheMark(env, w1, plan.addresses, w3);
    }
    if BestEffortOk(n, w3) {
      forall i | |w.trace| <= i < |w1.trace| ensures BestEffort(w1.trace[i].op) ==> w1.trace[i].ok {
        assert w1.trace[i] == w3.trace[i];
      }
    }
    SyncEffect(env, w, plan.split);
  }

  lemma SyncTrace(env: Oracle, w: World, wanted: seq<IpAddrMask>)
    requires SyncSplitRoutes(env, w, wanted).1
    ensures w.trace <= SyncSplitRoutes(env, w, wanted).0.trace
  {
    hide Effect;
    InstallTrace(env, w, wanted);
    var (w1, _) := InstallAll(env, w, wanted);
    var (w2, installed) := InstalledSplitRoutes(env, w1);
    PruneTrace(env, w2, StaleRoutes(installed, wanted));
  }

  lemma RunPlanReaches(lib: Lib, env: Oracle, w: World, s: ServerConfig, plan: Plan)
    requires RunPlan(lib, env, w, s, plan).1.Ok?
    requires ParseAddresses(lib, s) == Ok(plan.addresses) && plan.split == SplitRoutePrefixes(plan.peer)
    ensures var w' := RunPlan(lib, env, w, s, plan).0;
            && (exists mark :: mark in {None, DeviceMark(w'.k)} && Reached(lib, s, plan, w.k, w'.k, mark))
            && (ReadsOk(|w.trace|, w') ==> Reached(lib, s, plan, w.k, w'.k, DeviceMark(w'.k)))
            && RoutesWanted(plan, w.k, w'.k)
            && (BestEffortOk(|w.trace|, w') ==> Settled(plan, w.k, w'.k))
  {
    hide Effect, Nft.Installed, HasOwned, OnlyOurs, AllCanonical, Reconfigure, SyncAndFinish, Trim, ParseAddresses,
         SplitRoutePrefixes;
    var (w1, _) := Reconfigure(lib, env, w, s, plan.peer);
    var (w2, _) := Step(env, w1, ConfigurePeerRouting([plan.peer]));
    var (w3, _) := SyncAndFinish(env, w2, plan);
    assert RunPlan(lib, env, w, s, plan).0 == w3;
    ReconfigureEffect(lib, env, w, s, plan);
    RoutingEffect(env, w1, plan);
    SyncAndFinishReaches(env, w2, plan, |w.trace|);
    var mark :| mark in {None, DeviceMark(w3.k)} &&
                w3.k.nft == Nft.Installed(w2.k.nft, INTERFACE_NAME, plan.addresses, mark);
    assert Reached(lib, s, plan, w.k, w3.k, mark);
  }

  lemma PlanParts(lib: Lib, s: ServerConfig, answer: Option<SocketAddr>)
    requires PlanSwitch(lib, s, answer).Ok?
    ensures var plan := PlanSwitch(lib, s, answer).value;
            ParseAddresses(lib, s) == Ok(plan.addresses) && plan.split == SplitRoutePrefixes(plan.peer)
  {
    hide ParseMasks, PeerOf, ParseDns, SplitRoutePrefixes;
  }

  /** A switch that succeeds ends with this server's identity, firewall and routes, from whatever state it started in;
      when it could read the interface, the firewall's mark is the device's; and when its best-effort steps succeed too,
      the routes and the resolver are exactly this server's. */
  lemma SwitchReaches(lib: Lib, env: Oracle, w: World, s: ServerConfig, answer: Option<SocketAddr>)
    requires SwitchTo(lib, env, w, s, answer).1.Ok?
    ensures var plan := PlanSwitch(lib, s, answer).value;
            var w' := SwitchTo(lib, env, w, s, answer).0;
            && (exists mark :: mark in {None, DeviceMark(w'.k)} && Reached(lib, s, plan, w.k, w'.k, mark))
            && (ReadsOk(|w.trace|, w') ==> Reached(lib, s, plan, w.k, w'.k, DeviceMark(w'.k)))
            && RoutesWanted(plan, w.k, w'.k)
            && (BestEffortOk(|w.trace|, w') ==> Settled(plan, w.k, w'.k))
  {
    hide RunPlan, PlanSwitch, RoutesWanted, Settled, Reached, ParseAddresses, SplitRoutePrefixes, BestEffortOk, ReadsOk;
    PlanParts(lib, s, answer);
    RunPlanReaches(lib, env, w, s, PlanSwitch(lib, s, answer).value);
  }

  /** A destination inside any non-default AllowedIP leaves through the tunnel, whatever the host's own
      routes, unless one of them is strictly more specific than the AllowedIP. */
  lemma AllowedIpsGoThroughTunnel(lib: Lib, env: Oracle, w: World, s: ServerConfig, answer: Option<SocketAddr>,
                                  a: IpAddrMask, x: IpAddr)
    requires SwitchTo(lib, env, w, s, answer).1.Ok? && AllCanonical(w.k.routes)
    requires a in PlanSwitch(lib, s, answer).value.peer.allowedIps && !IsUnspecified(a.address) && Covers(a, x)
    ensures var best := Lookup(SwitchTo(lib, env, w, s, answer).0.k.routes, x);
            best.Some? && (best.value.dev == INTERFACE_NAME || best.value.prefix.cidr > a.cidr)
  {
    hide RunPlan, PlanSwitch, ParseAddresses, SplitRoutePrefixes, Reached, Settled, BestEffortOk, Lookup;
    SwitchReaches(lib, env, w, s, answer);
    PlanParts(lib, s, answer);
    var plan := PlanSwitch(lib, s, answer).value;
    SplitPrefixElements(plan.peer, NetworkPrefix(a));
    NetworkPrefixSameSet(a, x);
    InstalledPrefixWins(SwitchTo(lib, env, w, s, answer).0.k.routes, NetworkPrefix(a), x);
  }

  /** And nothing more goes in by our doing: once settled, every route we own denotes one of the peer's AllowedIPs,
      or is a default route that was ours before. */
  lemma OwnedRoutesAreAllowed(lib: Lib, env: Oracle, w: World, s: ServerConfig, answer: Option<SocketAddr>,
                              p: IpAddrMask)
    requires SwitchTo(lib, env, w, s, answer).1.Ok?
    requires BestEffortOk(|w.trace|, SwitchTo(lib, env, w, s, answer).0)
    requires HasOwned(SwitchTo(lib, env, w, s, answer).0.k.routes, p)
    ensures (exists a :: a in PlanSwitch(lib, s, answer).value.peer.allowedIps
               && forall x: IpAddr :: Covers(p, x) <==> Covers(a, x))
            || (p.cidr == 0 && HasOwned(w.k.routes, p))
  {
    hide RunPlan, PlanSwitch, ParseAddresses, SplitRoutePrefixes, Reached, RoutesWanted, BestEffortOk, HasOwned;
    SwitchReaches(lib, env, w, s, answer);
    PlanParts(lib, s, answer);
    var plan := PlanSwitch(lib, s, answer).value;
    if p in plan.split {
      SplitPrefixElements(plan.peer, p);
      var a :| a in plan.peer.allowedIps && !IsUnspecified(a.address) && p == NetworkPrefix(a);
      forall x: IpAddr ensures Covers(p, x) <==> Covers(a, x) {
        NetworkPrefixSameSet(a, x);
      }
    }
  }

  // --- disconnecting -----------------------------------------------------------

  /** Where a successful disconnect ends: no interface, no kill switch, no resolver of ours, no route on the interface
      while every other route stays; and, once the clear succeeds, none of our tables, while those of other programs
      stay. A clear that fails leaves the tables as they were. */
  lemma DisconnectReaches(env: Oracle, w: World)
    requires Disconnect(env, w).1
    ensures var k := Disconnect(env, w).0.k;
            && k.iface.None? && k.rules == {} && k.resolver.None?
            && (forall r :: r in k.routes <==> r in w.k.routes && r.dev != INTERFACE_NAME)
            && (!env(w.clock + 1).ok ==> k.nft == w.k.nft)
            && (env(w.clock + 1).ok ==> forall id ::
                  && (Nft.Ours(id) ==> id !in k.nft)
                  && (!Nft.Ours(id) ==> (id in k.nft <==> id in w.k.nft) && (id in k.nft ==> k.nft[id] == w.k.nft[id])))
  {
    hide Nft.Exec, Nft.NftScript, OffInterface;
    OffInterfaceElements(w.k.routes);
    var k := Disconnect(env, w).0.k;
    Nft.ScriptInstalls(w.k.nft, INTERFACE_NAME, [], None);
    if env(w.clock + 1).ok {
      forall id ensures (Nft.Ours(id) ==> id !in k.nft) &&
                        (!Nft.Ours(id) ==>
                         (id in k.nft <==> id in w.k.nft) && (id in k.nft ==> k.nft[id] == w.k.nft[id]))
      {
        Nft.ScriptFrame(w.k.nft, INTERFACE_NAME, [], None, id);
      }
    }
  }
}
