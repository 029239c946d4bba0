/** When everything works: a switch whose operations succeed does succeed, from any kernel state. */
module SwitchProgress {
  import opened Basics
  import opened Prefix
  import opened Text
  import opened Config
  import opened Kernel
  import opened Routes
  import opened Tunnel
  import opened Switch
  import opened SwitchTarget
  import Nft

  /** Every operation from step `n` on succeeds. */
  ghost predicate SucceedsFrom(env: Oracle, n: nat) {
    forall i: nat :: n <= i ==> env(i).ok
  }

  lemma {:induction false} InstallSucceeds(env: Oracle, w: World, prefixes: seq<IpAddrMask>)
    requires SucceedsFrom(env, w.clock) && w.k.iface.Some? && forall p :: p in prefixes ==> Canonical(p)
    ensures var (w', ok) := InstallAll(env, w, prefixes); ok && w'.k.iface == w.k.iface && w'.clock >= w.clock
    decreases prefixes
  {
    hide PutRoute, Canonical;
    if prefixes != [] {
      assert prefixes[0] in prefixes;
      InstallSucceeds(env, Step(env, w, RouteReplace(prefixes[0])).0, prefixes[1..]);
    }
  }

  lemma {:induction false} PruneKeepsInterface(env: Oracle, w: World, stale: seq<IpAddrMask>)
    ensures PruneAll(env, w, stale).k.iface == w.k.iface && PruneAll(env, w, stale).clock >= w.clock
    decreases stale
  {
    hide HasOwned, DropOwned;
    if stale != [] {
      PruneKeepsInterface(env, Step(env, w, RouteDel(stale[0])).0, stale[1..]);
    }
  }

  lemma SyncSucceeds(env: Oracle, w: World, wanted: seq<IpAddrMask>)
    requires SucceedsFrom(env, w.clock) && w.k.iface.Some? && forall p :: p in wanted ==> Canonical(p)
    ensures var (w', ok) := SyncSplitRoutes(env, w, wanted); ok && w'.k.iface == w.k.iface && w'.clock >= w.clock
  {
    hide Canonical, StaleRoutes, ReadBack;
    InstallSucceeds(env, w, wanted);
    var (w1, _) := InstallAll(env, w, wanted);
    var (w2, installed) := InstalledSplitRoutes(env, w1);
    PruneKeepsInterface(env, w2, StaleRoutes(installed, wanted));
  }

  lemma ReconfigureSucceeds(lib: Lib, env: Oracle, w: World, s: ServerConfig, plan: Plan)
    requires SucceedsFrom(env, w.clock + 1) && WellFormed(lib, s)
    ensures var (w', failure) := Reconfigure(lib, env, w, s, plan.peer);
            failure.None? && w'.k.iface.Some? && w'.clock > w.clock
  {
    hide Trim, ParseAddresses, ParseDns, PeerFields, Relink;
  }

  lemma GuardSucceeds(env: Oracle, w: World, addresses: seq<IpAddrMask>)
    requires SucceedsFrom(env, w.clock)
    ensures Guard(env, w, addresses).1 && Guard(env, w, addresses).0.clock >= w.clock
  {
    hide Nft.Exec, Nft.NftScript, Nft.Installed;
    Nft.ScriptInstalls(w.k.nft, INTERFACE_NAME, addresses, GuardMark(env, w));
  }

  lemma RoutingSucceeds(env: Oracle, w: World, peer: Peer)
    requires SucceedsFrom(env, w.clock) && w.k.iface.Some?
    ensures var (w', r) := Step(env, w, ConfigurePeerRouting([peer]));
            !r.Failed? && w'.k.iface.Some? && w'.clock >= w.clock
  {
    hide HasDefaultRoute, AllAllowedIps, PutAll;
  }

  /** Progress: with every operation succeeding, the first read perhaps excepted, a well-formed tunnel whose plan parses
      is switched to from any kernel state whatever, warm, cold or stale, and the answer is its endpoint. */
  lemma SwitchSucceeds(lib: Lib, env: Oracle, w: World, s: ServerConfig, answer: Option<SocketAddr>)
    requires SucceedsFrom(env, w.clock + 1) && WellFormed(lib, s) && PlanSwitch(lib, s, answer).Ok?
    ensures SwitchTo(lib, env, w, s, answer).1 == Ok(PlanSwitch(lib, s, answer).value.endpoint)
  {
    hide PlanSwitch, Reconfigure, Effect, SyncSplitRoutes, Guard, WellFormed, Canonical, SplitRoutePrefixes,
         ParseAddresses;
    var plan := PlanSwitch(lib, s, answer).value;
    PlanParts(lib, s, answer);
    ReconfigureSucceeds(lib, env, w, s, plan);
    var (w1, _) := Reconfigure(lib, env, w, s, plan.peer);
    RoutingSucceeds(env, w1, plan.peer);
    var (w2, _) := Step(env, w1, ConfigurePeerRouting([plan.peer]));
    forall p | p in plan.split ensures Canonical(p) {
      SplitPrefixElements(plan.peer, p);
    }
    SyncSucceeds(env, w2, plan.split);
    var (w3, _) := SyncSplitRoutes(env, w2, plan.split);
    GuardSucceeds(env, w3, plan.addresses);
    DnsSucceeds(env, Guard(env, w3, plan.addresses).0, plan.dns);
  }

  lemma DnsSucceeds(env: Oracle, w: World, dns: seq<IpAddr>)
    requires SucceedsFrom(env, w.clock)
    ensures ApplyDns(env, w, dns).1
  {
  }

  /** And a tunnel that is up comes down, with everything that came with it. */
  lemma DisconnectSucceeds(env: Oracle, w: World)
    requires SucceedsFrom(env, w.clock) && w.k.iface.Some?
    ensures Disconnect(env, w).1
    ensures var k := Disconnect(env, w).0.k;
            && k.iface.None? && k.rules == {} && k.resolver.None?
            && (forall r :: r in k.routes ==> r.dev != INTERFACE_NAME)
            && forall id :: id in k.nft ==> !Nft.Ours(id)
  {
    hide Nft.Exec, Nft.NftScript, OffInterface;
    DisconnectReaches(env, w);
  }
}
