/** The kill switch under the daemon: whatever clients ask and however it goes, it stays until a disconnect. */
module DaemonKillSwitch {
  import opened Basics
  import opened Text
  import opened Config
  import opened Kernel
  import opened Tunnel
  import opened Switch
  import opened SwitchSafety
  import opened Daemon
  import opened DaemonSafety

  lemma ReadStaysClosed(lib: Lib, env: Oracle, w: World, v: World)
    requires ClosedSince(w)(v)
    ensures ClosedSince(w)(ReadLive(lib, env, v).0)
  {
    hide ClosedSince, Effect, LiveOf;
    StepStaysClosed(env, w, v, ReadInterfaceData);
  }

  lemma ListedStaysClosed(lib: Lib, env: Oracle, w: World, d: DState, ext: Ext)
    requires ClosedSince(w)(d.w)
    ensures ClosedSince(w)(Listed(lib, env, d, ext).0.w)
  {
    hide ReadLive, ClosedSince, InfoOf;
    ReadStaysClosed(lib, env, w, d.w);
  }

  lemma AdmitKeepsWorld(lib: Lib, d: DState, s: ServerConfig, ext: Ext)
    ensures Admit(lib, d, s, ext).0.w == d.w
  {
    hide ValidateServer, UpsertIn;
  }

  lemma AddKeepsWorld(lib: Lib, d: DState, spec: ServerSpec, ext: Ext)
    ensures Add(lib, d, spec, ext).0.w == d.w
  {
    hide Admit, Assembled;
    AdmitKeepsWorld(lib, d, Assembled(spec, Or(Supplied(spec.privateKey), ext.freshKey), spec.presharedKey), ext);
  }

  lemma EditOnlyReads(lib: Lib, env: Oracle, d: DState, spec: ServerSpec, ext: Ext)
    ensures Edit(lib, env, d, spec, ext).0.w in {d.w, ReadLive(lib, env, d.w).0}
  {
    hide Admit, FindIn, ReadLive, PublicKey, Edited;
    var existing := FindIn(d.servers, Trim(spec.name));
    if existing.Some? {
      AdmitKeepsWorld(lib, d.(w := ReadLive(lib, env, d.w).0), Edited(spec, existing.value), ext);
    }
  }

  /** Changes to the configuration reach the kernel only to read it. */
  lemma ChangeStaysClosed(lib: Lib, env: Oracle, d: DState, req: Request, ext: Ext)
    requires Changes(req)
    ensures ClosedSince(d.w)(Handle(lib, env, d, req, ext).0.w)
  {
    hide Add, Edit, RemoveIn, FindIn, ReadConf, Listed, ReadLive, ClosedSince;
    ClosedNow(d.w);
    ReadStaysClosed(lib, env, d.w, d.w);
    match req
    case AddServer(spec) =>
      AddKeepsWorld(lib, d, spec, ext);
      ListedStaysClosed(lib, env, d.w, Add(lib, d, spec, ext).0, ext);
    case EditServer(spec) =>
      EditOnlyReads(lib, env, d, spec, ext);
      ListedStaysClosed(lib, env, d.w, Edit(lib, env, d, spec, ext).0, ext);
    case ImportServer(name, conf) =>
      if ReadConf(conf).Some? {
        var spec := SpecOf(name, ReadConf(conf).value);
        AddKeepsWorld(lib, d, spec, ext);
        ListedStaysClosed(lib, env, d.w, Add(lib, d, spec, ext).0, ext);
      }
    case RemoveServer(name) => ListedStaysClosed(lib, env, d.w, Remove(d, name, ext).0, ext);
    case _ =>
  }

  /** Any turn but a disconnect keeps every rule in place through every kernel state it passes. */
  lemma TurnFailsClosed(lib: Lib, env: Oracle, d: DState, t: Turn)
    requires t.Asked? ==> !t.req.Disconnecting?
    ensures ClosedSince(d.w)(Next(lib, env, d, t).0.w)
  {
    hide ClosedSince, Listed, ReadLive, SwitchTo, UpsertIn, FindIn, Add, Edit, Import, Remove;
    assert ClosedSince(d.w)(d.w) by {
      ClosedNow(d.w);
    }
    if t.Asked? {
      var ext := t.ext;
      ReadStaysClosed(lib, env, d.w, d.w);
      match t.req
      case ListServers(_) => ListedStaysClosed(lib, env, d.w, d, ext);
      case SwitchServer(name) =>
        var found := FindIn(d.servers, name);
        if found.Some? {
          SwitchFailsClosed(lib, env, d.w, found.value, ext.answer);
        }
      case Status =>
      case GetServer(_) =>
      case Disconnecting => assert false;
      case _ =>
        hide Handle;
        ChangeStaysClosed(lib, env, d, t.req, ext);
    }
  }

  /** Nobody asks to disconnect between turns `j` and `k`. */
  predicate NoDisconnect(turns: seq<Turn>, j: nat, k: nat)
    requires j <= k <= |turns|
  {
    forall i :: j <= i < k && turns[i].Asked? ==> !turns[i].req.Disconnecting?
  }

  lemma {:induction false} RunFailsClosed(lib: Lib, env: Oracle, d: DState, turns: seq<Turn>, j: nat, k: nat)
    requires j <= k <= |turns| && NoDisconnect(turns, j, k)
    ensures ClosedSince(StateAt(lib, env, d, turns, j).w)(StateAt(lib, env, d, turns, k).w)
    decreases k
  {
    hide Next, ClosedSince;
    var from := StateAt(lib, env, d, turns, j).w;
    if j == k {
      ClosedNow(from);
    } else {
      RunFailsClosed(lib, env, d, turns, j, k - 1);
      var before := StateAt(lib, env, d, turns, k - 1);
      TurnFailsClosed(lib, env, before, turns[k - 1]);
      ClosedTransitive(from, before.w, StateAt(lib, env, d, turns, k).w);
    }
  }

  /** Over any run of requests and restarts in which nobody asks to disconnect, every kernel rule that is there after
      any operation is there after every later one, and once a default route has been routed the kill switch is there in
      every kernel state: through failed switches, edits, imports and restarts, whether or not the switch that armed it
      was answered as successful. */
  lemma KillSwitchUntilDisconnect(lib: Lib, env: Oracle, d: DState, turns: seq<Turn>, j: nat, k: nat, i: nat)
    requires j <= k <= |turns| && NoDisconnect(turns, j, k)
    requires var w := StateAt(lib, env, d, turns, k).w;
             |StateAt(lib, env, d, turns, j).w.trace| <= i < |w.trace| && Arms(w.trace[i])
    ensures ArmedFrom(StateAt(lib, env, d, turns, k).w, i)
  {
    hide StateAt, Arms, ArmedFrom, ClosedSince, NoDisconnect;
    RunFailsClosed(lib, env, d, turns, j, k);
    ArmedStays(StateAt(lib, env, d, turns, j).w, StateAt(lib, env, d, turns, k).w, i);
  }

  /** The stored tunnel of that name takes the default route. */
  predicate FullTunnel(lib: Lib, d: DState, name: string, answer: Option<SocketAddr>) {
    var s := FindIn(d.servers, name);
    s.Some? && PlanSwitch(lib, s.value, answer).Ok? && PlanSwitch(lib, s.value, answer).value.fullTunnel
  }

  lemma ConnectArms(lib: Lib, env: Oracle, d: DState, name: string, ext: Ext)
    requires Connect(lib, env, d, name, ext).1.Switched?
    requires FullTunnel(lib, d, name, ext.answer)
    ensures Armed(Connect(lib, env, d, name, ext).0.w.k.rules)
  {
    hide SwitchTo, PlanSwitch, UpsertIn, FindIn, Armed;
    FullTunnelInstallsRules(lib, env, d.w, FindIn(d.servers, name).value, ext.answer);
  }

  /** In particular from the answer to a full-tunnel switch on. */
  lemma ArmedSinceAnswered(lib: Lib, env: Oracle, d: DState, turns: seq<Turn>, j: nat, k: nat)
    requires j < k <= |turns| && turns[j].Asked? && turns[j].req.SwitchServer?
    requires ResponseAt(lib, env, d, turns, j).Switched?
    requires FullTunnel(lib, StateAt(lib, env, d, turns, j), turns[j].req.name, turns[j].ext.answer)
    requires NoDisconnect(turns, j + 1, k)
    ensures ArmedFrom(StateAt(lib, env, d, turns, k).w, |StateAt(lib, env, d, turns, j + 1).w.trace|)
  {
    hide Connect, FullTunnel, Armed, ClosedSince, ArmedFrom;
    ConnectArms(lib, env, StateAt(lib, env, d, turns, j), turns[j].req.name, turns[j].ext);
    RunFailsClosed(lib, env, d, turns, j + 1, k);
    ClosedMeans(StateAt(lib, env, d, turns, j + 1).w, StateAt(lib, env, d, turns, k).w);
  }

  lemma ClosedMeans(w: World, v: World)
    requires ClosedSince(w)(v) && Armed(w.k.rules)
    ensures ArmedFrom(v, |w.trace|)
  {
    hide Armed, HasDefaultRoute;
    ArmedGrows(w.k.rules, v.k.rules);
    forall i | |w.trace| <= i < |v.trace| ensures Armed(v.trace[i].after.rules) && !Teardown(v.trace[i].op) {
      assert Closed(w.k.rules, v.trace[i]);
      ArmedGrows(w.k.rules, v.trace[i].after.rules);
    }
  }
}
