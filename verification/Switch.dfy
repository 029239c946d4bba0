/** The leak-safe switch: the order of kernel operations, as functions of the oracle and as the code runs it. */
module Switch {
  import opened Basics
  import opened Prefix
  import opened Text
  import opened Config
  import opened Kernel
  import opened Tunnel

  // --- split routes ------------------------------------------------------------

  function NotIn(wanted: seq<IpAddrMask>): IpAddrMask -> bool {
    (p: IpAddrMask) => p !in wanted
  }

  function StaleRoutes(installed: seq<IpAddrMask>, wanted: seq<IpAddrMask>): seq<IpAddrMask> {
    Keep(installed, NotIn(wanted))
  }

  /** Install every prefix, stopping at the first failure. */
  function InstallAll(env: Oracle, w: World, prefixes: seq<IpAddrMask>): (World, bool)
    decreases prefixes
  {
    if prefixes == [] then (w, true)
    else
      var (w', reply) := Step(env, w, RouteReplace(prefixes[0]));
      if reply.Failed? then (w', false) else InstallAll(env, w', prefixes[1..])
  }

  /** Delete every stale route; a failure is logged and passed over. */
  function PruneAll(env: Oracle, w: World, stale: seq<IpAddrMask>): World
    decreases stale
  {
    if stale == [] then w else PruneAll(env, Step(env, w, RouteDel(stale[0])).0, stale[1..])
  }

  function Listing(reply: Reply): seq<IpAddrMask> {
    if reply.Prefixes? then reply.prefixes else []
  }

  function InstalledSplitRoutes(env: Oracle, w: World): (World, seq<IpAddrMask>) {
    var (w4, v4) := Step(env, w, RouteShow(V4));
    var (w6, v6) := Step(env, w4, RouteShow(V6));
    (w6, Listing(v4) + Listing(v6))
  }

  function SyncSplitRoutes(env: Oracle, w: World, prefixes: seq<IpAddrMask>): (World, bool) {
    var (w1, ok) := InstallAll(env, w, prefixes);
    if !ok then (w1, false)
    else
      var (w2, installed) := InstalledSplitRoutes(env, w1);
      (PruneAll(env, w2, StaleRoutes(installed, prefixes)), true)
  }

  // --- the switch --------------------------------------------------------------

  function BringUpWith(env: Oracle, w: World, cfg: InterfaceConfiguration): (World, bool) {
    var (w1, _) := Step(env, w, CreateInterface);
    var (w2, reply) := Step(env, w1, ConfigureInterface(cfg));
    (w2, !reply.Failed?)
  }

  /** Warm when the interface can be read, cold otherwise. */
  function Reconfigure(lib: Lib, env: Oracle, w: World, s: ServerConfig, peer: Peer): (World, Option<Error>) {
    var (w1, host) := Step(env, w, ReadInterfaceData);
    match BuildInterfaceConfig(lib, s, [peer], if host.Host? then host.iface.fwmark else None)
    case Err(e) => (w1, Some(e))
    case Ok(cfg) =>
      if host.Host? then
        var (w2, reply) := Step(env, w1, ConfigureInterface(cfg));
        (w2, if reply.Failed? then Some(OpFailed) else None)
      else
        var (w2, ok) := BringUpWith(env, w1, cfg);
        (w2, if ok then None else Some(OpFailed))
  }

  /** The mark is read back from the device: only routing knows it. */
  function Guard(env: Oracle, w: World, addresses: seq<IpAddrMask>): (World, bool) {
    var (w1, host) := Step(env, w, ReadInterfaceData);
    var (w2, reply) := Step(env, w1, ApplyFirewall(addresses, if host.Host? then NonZero(host.iface.fwmark) else None));
    (w2, !reply.Failed?)
  }

  function ApplyDns(env: Oracle, w: World, dns: seq<IpAddr>): (World, bool) {
    if dns == [] then (Step(env, w, ResetDns).0, true)
    else
      var (w1, reply) := Step(env, w, ConfigureDns(dns));
      (w1, !reply.Failed?)
  }

  function SyncAndFinish(env: Oracle, w: World, plan: Plan): (World, bool) {
    var (w1, synced) := SyncSplitRoutes(env, w, plan.split);
    if !synced then (w1, false)
    else
      var (w2, guarded) := Guard(env, w1, plan.addresses);
      if !guarded then (w2, false) else ApplyDns(env, w2, plan.dns)
  }

  function RouteAndFinish(env: Oracle, w: World, plan: Plan): (World, bool) {
    var (w1, routing) := Step(env, w, ConfigurePeerRouting([plan.peer]));
    if routing.Failed? then (w1, false) else SyncAndFinish(env, w1, plan)
  }

  /** Configure, route, sync the split routes, guard, set DNS: the first failure ends the switch. */
  function RunPlan(lib: Lib, env: Oracle, w: World, s: ServerConfig, plan: Plan): (World, Result<SocketAddr, Error>) {
    var (w1, failure) := Reconfigure(lib, env, w, s, plan.peer);
    if failure.Some? then (w1, Err(failure.value))
    else
      var (w2, ok) := RouteAndFinish(env, w1, plan);
      (w2, if ok then Ok(plan.endpoint) else Err(OpFailed))
  }

  function SwitchTo(lib: Lib, env: Oracle, w: World, s: ServerConfig, answer: Option<SocketAddr>)
    : (World, Result<SocketAddr, Error>)
  {
    match PlanSwitch(lib, s, answer)
    case Err(e) => (w, Err(e))
    case Ok(plan) => RunPlan(lib, env, w, s, plan)
  }

  function Disconnect(env: Oracle, w: World): (World, bool) {
    var (w1, removed) := Step(env, w, RemoveInterface);
    var (w2, _) := Step(env, w1, ClearFirewall);
    (w2, !removed.Failed?)
  }

  // --- as the code runs it -----------------------------------------------------

  /** `KernelWireguard`: the orchestration over a device it holds. */
  class KernelWireguard {
    const lib: Lib
    const ops: Device

    constructor (lib: Lib, ops: Device)
      ensures this.lib == lib && this.ops == ops
    {
      this.lib := lib;
      this.ops := ops;
    }

    method BringUp(cfg: InterfaceConfiguration) returns (ok: bool)
      modifies ops
      ensures (ops.Now(), ok) == BringUpWith(ops.env, old(ops.Now()), cfg)
    {
      var _ := ops.Do(CreateInterface);
      var reply := ops.Do(ConfigureInterface(cfg));
      ok := !reply.Failed?;
    }

    method SyncRoutes(prefixes: seq<IpAddrMask>) returns (ok: bool)
      modifies ops
      ensures (ops.Now(), ok) == SyncSplitRoutes(ops.env, old(ops.Now()), prefixes)
    {
      for i := 0 to |prefixes|
        invariant InstallAll(ops.env, old(ops.Now()), prefixes) == InstallAll(ops.env, ops.Now(), prefixes[i..])
      {
        var reply := ops.Do(RouteReplace(prefixes[i]));
        if reply.Failed? {
          return false;
        }
        assert prefixes[i..][1..] == prefixes[i + 1..];
      }
      var v4 := ops.Do(RouteShow(V4));
      var v6 := ops.Do(RouteShow(V6));
      var stale := StaleRoutes(Listing(v4) + Listing(v6), prefixes);
      ghost var listed := ops.Now();
      for i := 0 to |stale|
        invariant PruneAll(ops.env, listed, stale) == PruneAll(ops.env, ops.Now(), stale[i..])
      {
        var _ := ops.Do(RouteDel(stale[i]));
        assert stale[i..][1..] == stale[i + 1..];
      }
      ok := true;
    }

    method SetDns(dns: seq<IpAddr>) returns (ok: bool)
      modifies ops
      ensures (ops.Now(), ok) == ApplyDns(ops.env, old(ops.Now()), dns)
    {
      if dns == [] {
        var _ := ops.Do(ResetDns);
        ok := true;
      } else {
        var reply := ops.Do(ConfigureDns(dns));
        ok := !reply.Failed?;
      }
    }

    method TearDown() returns (ok: bool)
      modifies ops
      ensures (ops.Now(), ok) == Disconnect(ops.env, old(ops.Now()))
    {
      var removed := ops.Do(RemoveInterface);
      var _ := ops.Do(ClearFirewall);
      ok := !removed.Failed?;
    }

    method Switch(s: ServerConfig, answer: Option<SocketAddr>) returns (r: Result<SocketAddr, Error>)
      modifies ops
      ensures (ops.Now(), r) == SwitchTo(lib, ops.env, old(ops.Now()), s, answer)
    {
      var peer := BuildPeer(lib, s, answer);
      if peer.Err? {
        return Err(peer.error);
      }
      var split := SplitRoutePrefixes(peer.value);
      var dns := ParseDns(lib, s);
      if dns.Err? {
        return Err(dns.error);
      }
      var addresses := ParseAddresses(lib, s);
      if addresses.Err? {
        return Err(addresses.error);
      }
      if peer.value.endpoint.None? {
        return Err(Unresolved);
      }
      var endpoint := peer.value.endpoint.value;

      var failure := Configure(s, peer.value);
      if failure.Some? {
        return Err(failure.value);
      }
      var routing := ops.Do(ConfigurePeerRouting([peer.value]));
      if routing.Failed? {
        return Err(OpFailed);
      }
      var synced := SyncRoutes(split);
      if !synced {
        return Err(OpFailed);
      }
      var host := ops.Do(ReadInterfaceData);
      var fwmark := if host.Host? then NonZero(host.iface.fwmark) else None;
      var guarded := ops.Do(ApplyFirewall(addresses.value, fwmark));
      if guarded.Failed? {
        return Err(OpFailed);
      }
      var named := SetDns(dns.value);
      r := if named then Ok(endpoint) else Err(OpFailed);
    }

    /** The first half of a switch: read, then reconfigure in place or bring up. */
    method Configure(s: ServerConfig, peer: Peer) returns (failure: Option<Error>)
      modifies ops
      ensures (ops.Now(), failure) == Reconfigure(lib, ops.env, old(ops.Now()), s, peer)
    {
      var host := ops.Do(ReadInterfaceData);
      if host.Host? {
        var cfg := BuildInterfaceConfig(lib, s, [peer], host.iface.fwmark);
        if cfg.Err? {
          return Some(cfg.error);
        }
        var reply := ops.Do(ConfigureInterface(cfg.value));
        failure := if reply.Failed? then Some(OpFailed) else None;
      } else {
        var cfg := BuildInterfaceConfig(lib, s, [peer], None);
        if cfg.Err? {
          return Some(cfg.error);
        }
        var ok := BringUp(cfg.value);
        failure := if ok then None else Some(OpFailed);
      }
    }
  }
}
