/** The daemon refines a machine whose state is a map of tunnels, a saved map, and the key that is live: the vector, its
    order, the kernel's routes, rules and tables, the clocks and the file's layout are gone. */
module DaemonRefinement {
  import opened Basics
  import opened Text
  import opened Config
  import opened Kernel
  import opened Tunnel
  import opened Switch
  import opened SwitchSafety
  import opened SwitchTarget
  import opened Daemon
  import opened DaemonSafety
  import opened DaemonViews
  import Nft

  type TunnelMap = map<string, ServerConfig>

  datatype Machine = Machine(tunnels: TunnelMap, saved: TunnelMap, active: Option<string>)

  // --- the abstract machine ----------------------------------------------------

  /** The map a change wants, or why it is refused. `seen` is the live key, when the interface can be read. */
  function Stored(lib: Lib, tunnels: TunnelMap, server: ServerConfig,
                  answer: Option<SocketAddr>): Result<TunnelMap, Error> {
    match ValidateServer(lib, server, answer)
    case Err(e) => Err(e)
    case Ok(addr) => Ok(tunnels[server.name := server.(resolvedEndpoint := Some(lib.showSocket(addr)))])
  }

  function WantedByAdd(lib: Lib, tunnels: TunnelMap, spec: ServerSpec, ext: Ext): Result<TunnelMap, Error> {
    if Trim(spec.name) == "" then Err(EmptyName)
    else Stored(lib, tunnels, Assembled(spec, Or(Supplied(spec.privateKey), ext.freshKey), spec.presharedKey),
                ext.answer)
  }

  function WantedByEdit(lib: Lib, tunnels: TunnelMap, spec: ServerSpec, seen: Option<string>,
                        ext: Ext): Result<TunnelMap, Error> {
    var name := Trim(spec.name);
    if name == "" then Err(EmptyName)
    else if name !in tunnels then Err(UnknownServer)
    else
      var derived := PublicKey(lib, tunnels[name].privateKey);
      if derived.None? then Err(BadPrivateKey)
      else if seen == derived then Err(ActiveTunnel)
      else Stored(lib, tunnels, Edited(spec, tunnels[name]), ext.answer)
  }

  function Wanted(lib: Lib, tunnels: TunnelMap, req: Request, seen: Option<string>, ext: Ext): Result<TunnelMap, Error>
    requires Changes(req)
  {
    match req
    case AddServer(spec) => WantedByAdd(lib, tunnels, spec, ext)
    case EditServer(spec) => WantedByEdit(lib, tunnels, spec, seen, ext)
    case ImportServer(name, conf) =>
      var parsed := ReadConf(conf);
      if parsed.None? then Err(BadConf) else WantedByAdd(lib, tunnels, SpecOf(name, parsed.value), ext)
    case RemoveServer(name) => if name !in tunnels then Err(UnknownServer) else Ok(tunnels - {name})
  }

  /** How a tunnel is listed, its state aside, when `seen` is the live key that could be read. */
  function Line(lib: Lib, s: ServerConfig, seen: Option<string>): ServerInfo {
    ServerInfo(s.name, s.endpoint, s.addresses, ShownKey(lib, s), seen == Some(ShownKey(lib, s)), None)
  }

  predicate Shows(lib: Lib, s: ServerConfig, seen: Option<string>, info: ServerInfo) {
    info.(state := None) == Line(lib, s, seen) && (info.state.Some? <==> info.active)
  }

  predicate LetThrough(query: Option<string>, info: ServerInfo) {
    query.None? || Matches(query.value)(info)
  }

  /** The list shows every tunnel of the map that the filter lets through, as it is and flagged by the live key, and
      nothing that is not in the map. */
  ghost predicate ListShows(lib: Lib, tunnels: TunnelMap, seen: Option<string>, query: Option<string>,
                            infos: seq<ServerInfo>) {
    && (forall name :: name in tunnels && LetThrough(query, Line(lib, tunnels[name], seen)) ==>
          exists info :: info in infos && Shows(lib, tunnels[name], seen, info))
    && (forall info :: info in infos ==> info.name in tunnels && LetThrough(query, info))
  }

  /** A wanted map is taken over and, if it was saved, shown; a refusal changes nothing. */
  ghost predicate Takes(lib: Lib, m: Machine, wanted: Result<TunnelMap, Error>, save: SaveOutcome, r: Response,
                        m': Machine) {
    match wanted
    case Err(e) => m' == m && r == Refused(e)
    case Ok(tunnels) =>
      && m' == Machine(tunnels, if save.FailedKept? then m.saved else tunnels, m.active)
      && (if save.Saved?
          then r.ServerList? &&
               exists seen :: seen in {m.active, None} && ListShows(lib, tunnels, seen, None, r.servers)
          else r == Refused(NotPersisted))
  }

  /** A switch either names a tunnel that is then live, its cached endpoint perhaps refreshed, or is refused and changes
      no tunnel. Refused while parsing it changes nothing at all; refused later, the live key is the old one or the
      named tunnel's, unless a configuration of the interface failed half-way (`broken`). */
  ghost predicate Switches(lib: Lib, m: Machine, name: string, answer: Option<SocketAddr>, broken: bool, r: Response,
                           m': Machine) {
    if name !in m.tunnels then m' == m && r == Refused(UnknownServer)
    else if PlanSwitch(lib, m.tunnels[name], answer).Err? then
      m' == m && r == Refused(PlanSwitch(lib, m.tunnels[name], answer).error)
    else if r.Refused? then
      && m'.tunnels == m.tunnels && m'.saved == m.saved
      && r.error == (if PublicKey(lib, m.tunnels[name].privateKey).None? then BadPrivateKey else OpFailed)
      && (!broken ==> m'.active in {m.active, PublicKey(lib, m.tunnels[name].privateKey)})
    else
      && r == Switched(name) && m'.active == PublicKey(lib, m.tunnels[name].privateKey) && m'.active.Some?
      && name in m'.tunnels
      && m'.tunnels == m.tunnels[name := m.tunnels[name].(resolvedEndpoint := m'.tunnels[name].resolvedEndpoint)]
      && m'.saved in {m.saved, m'.tunnels}
  }

  predicate Disconnects(m: Machine, r: Response, m': Machine) {
    if r == Disconnected then m' == m.(active := None)
    else r == Refused(OpFailed) && m'.active in {m.active, None} && m' == m.(active := m'.active)
  }

  /** One turn: `readable` says whether the interface can be read, `broken` whether a configuration of it failed. */
  ghost predicate Moves(lib: Lib, m: Machine, t: Turn, readable: bool, broken: bool, r: Option<Response>, m': Machine) {
    match t
    case Restarted => m' == m.(tunnels := m.saved) && r.None?
    case Asked(req, ext) =>
      && r.Some?
      && match req
         case Status => m' == m && (if readable then r.value.StatusIs? else r.value == Disconnected)
         case ListServers(query) =>
           && m' == m && r.value.ServerList?
           && ListShows(lib, m.tunnels, if readable then m.active else None, query, r.value.servers)
         case GetServer(name) =>
           && m' == m
           && r.value == (if name in m.tunnels then DetailIs(DetailOf(m.tunnels[name])) else Refused(UnknownServer))
         case SwitchServer(name) => Switches(lib, m, name, ext.answer, broken, r.value, m')
         case Disconnecting => Disconnects(m, r.value, m')
         case _ => Takes(lib, m, Wanted(lib, m.tunnels, req, if readable then m.active else None, ext), ext.save,
                         r.value, m')
  }

  // --- the abstraction ---------------------------------------------------------

  /** The first entry of a name counts. */
  function Tunnels(servers: seq<ServerConfig>): TunnelMap {
    if servers == [] then map[] else Tunnels(servers[1..])[servers[0].name := servers[0]]
  }

  function Abstract(lib: Lib, d: DState): Machine {
    Machine(Tunnels(d.servers), Tunnels(d.disk), LiveKey(lib, d.w.k))
  }

  function Readable(env: Oracle, w: World): bool {
    env(w.clock).ok && w.k.iface.Some?
  }

  lemma {:induction false} TunnelsFind(servers: seq<ServerConfig>, name: string)
    ensures FindIn(servers, name) == if name in Tunnels(servers) then Some(Tunnels(servers)[name]) else None
    decreases servers
  {
    if servers != [] {
      TunnelsFind(servers[1..], name);
    }
  }

  lemma {:induction false} TunnelsUpsert(servers: seq<ServerConfig>, s: ServerConfig)
    ensures Tunnels(UpsertIn(servers, s)) == Tunnels(servers)[s.name := s]
    decreases servers
  {
    if servers == [] {
      assert [s][1..] == [];
    } else {
      var r := UpsertIn(servers, s);
      if servers[0].name == s.name {
        assert r[1..] == servers[1..];
      } else {
        assert r[1..] == UpsertIn(servers[1..], s);
        TunnelsUpsert(servers[1..], s);
      }
    }
  }

  lemma {:induction false} TunnelsRemove(servers: seq<ServerConfig>, name: string)
    ensures Tunnels(RemoveIn(servers, name)) == Tunnels(servers) - {name}
    decreases servers
  {
    if servers != [] {
      var rest := RemoveIn(servers[1..], name);
      TunnelsRemove(servers[1..], name);
      if servers[0].name != name {
        assert RemoveIn(servers, name) == [servers[0]] + rest;
        assert RemoveIn(servers, name)[1..] == rest;
      } else {
        assert RemoveIn(servers, name) == [] + rest == rest;
      }
    }
  }

  // --- lists -------------------------------------------------------------------

  lemma {:induction false} TunnelsMember(servers: seq<ServerConfig>, name: string)
    ensures name in Tunnels(servers) ==> Tunnels(servers)[name] in servers && Tunnels(servers)[name].name == name
    decreases servers
  {
    if servers != [] {
      TunnelsMember(servers[1..], name);
    }
  }

  lemma {:induction false} NamesAreTunnels(servers: seq<ServerConfig>, s: ServerConfig)
    requires s in servers
    ensures s.name in Tunnels(servers)
    decreases servers
  {
    if s != servers[0] {
      NamesAreTunnels(servers[1..], s);
    }
  }

  /** The filter does not look at the state. */
  lemma FilterIgnoresState(query: Option<string>, info: ServerInfo)
    ensures LetThrough(query, info) <==> LetThrough(query, info.(state := None))
  {
    hide Contains, Lower, Trim;
  }

  /** What can be seen of the live key. */
  function Seen(lib: Lib, env: Oracle, w: World): Option<string> {
    if Readable(env, w) then LiveKey(lib, w.k) else None
  }

  lemma ListedLine(lib: Lib, env: Oracle, d: DState, ext: Ext, i: nat)
    requires i < |d.servers|
    ensures var r := Listed(lib, env, d, ext).1;
            r.ServerList? && |r.servers| == |d.servers| && Shows(lib, d.servers[i], Seen(lib, env, d.w), r.servers[i])
  {
    hide Listed, ShownKey, LiveKey, LastOk;
    ActiveIffLiveKey(lib, env, d, ext, i);
    ListReadOk(lib, env, d, ext);
  }

  lemma ListedShows(lib: Lib, env: Oracle, d: DState, query: Option<string>, ext: Ext)
    ensures var r := Filtered(query, Listed(lib, env, d, ext).1);
            r.ServerList? && ListShows(lib, Tunnels(d.servers), Seen(lib, env, d.w), query, r.servers)
  {
    hide Listed, Tunnels, LetThrough, Seen, Line, ShownKey;
    ListedLength(lib, env, d, ext);
    var all := Listed(lib, env, d, ext).1;
    var seen := Seen(lib, env, d.w);
    FilteredLetsThrough(query, all);
    var r := Filtered(query, all);
    forall name | name in Tunnels(d.servers) && LetThrough(query, Line(lib, Tunnels(d.servers)[name], seen))
      ensures exists info :: info in r.servers && Shows(lib, Tunnels(d.servers)[name], seen, info)
    {
      TunnelsMember(d.servers, name);
      var i :| 0 <= i < |d.servers| && d.servers[i] == Tunnels(d.servers)[name];
      ListedLine(lib, env, d, ext, i);
      FilterIgnoresState(query, all.servers[i]);
      assert all.servers[i] in all.servers;
      assert all.servers[i] in r.servers;
    }
    forall info | info in r.servers ensures info.name in Tunnels(d.servers) && LetThrough(query, info) {
      var i :| 0 <= i < |all.servers| && all.servers[i] == info;
      ListedLine(lib, env, d, ext, i);
      LineName(lib, d.servers[i], seen, info);
      NamesAreTunnels(d.servers, d.servers[i]);
    }
  }

  lemma FilteredLetsThrough(query: Option<string>, r: Response)
    requires r.ServerList?
    ensures Filtered(query, r).ServerList?
    ensures forall info :: info in Filtered(query, r).servers <==> info in r.servers && LetThrough(query, info)
  {
    FilteredIsPart(query, r);
  }

  lemma LineName(lib: Lib, s: ServerConfig, seen: Option<string>, info: ServerInfo)
    requires Shows(lib, s, seen, info)
    ensures info.name == s.name
  {
    hide ShownKey;
    assert info.(state := None).name == Line(lib, s, seen).name;
  }

  /** With unique names, as in every reachable state, each line of the full list is the map's tunnel of that name. */
  lemma ListIsTheMap(lib: Lib, env: Oracle, d: DState, ext: Ext, i: nat)
    requires UniqueNames(d.servers) && i < |d.servers|
    ensures var r := Listed(lib, env, d, ext).1;
            && r.ServerList? && |r.servers| == |d.servers| && r.servers[i].name in Tunnels(d.servers)
            && Shows(lib, Tunnels(d.servers)[r.servers[i].name], Seen(lib, env, d.w), r.servers[i])
  {
    hide Listed, Tunnels, Seen, Line, ShownKey;
    ListedLine(lib, env, d, ext, i);
    LineName(lib, d.servers[i], Seen(lib, env, d.w), Listed(lib, env, d, ext).1.servers[i]);
    var s := d.servers[i];
    NamesAreTunnels(d.servers, s);
    TunnelsMember(d.servers, s.name);
    var j :| 0 <= j < |d.servers| && d.servers[j] == Tunnels(d.servers)[s.name];
    assert i == j;
  }

  // --- the live key after a switch ---------------------------------------------

  /** A configuration of the interface failed between the two. */
  ghost predicate ConfigFailed(w: World, w': World) {
    exists i :: |w.trace| <= i < |w'.trace| && w'.trace[i].op.ConfigureInterface? && !w'.trace[i].ok
  }

  lemma ReconfigureKey(lib: Lib, env: Oracle, w: World, s: ServerConfig, plan: Plan)
    ensures var w' := Reconfigure(lib, env, w, s, plan.peer).0;
            && w.trace <= w'.trace
            && (ConfigFailed(w, w') || LiveKey(lib, w'.k) in {LiveKey(lib, w.k), PublicKey(lib, s.privateKey)})
  {
    hide Nft.Exec, Trim, ParseAddresses, Relink, ConfigFailed;
    var w' := Reconfigure(lib, env, w, s, plan.peer).0;
    var last := |w'.trace| - 1;
    if w'.trace[last].op.ConfigureInterface? && !w'.trace[last].ok {
      FailedAt(w, w', last);
    }
  }

  lemma FailedAt(w: World, w': World, i: nat)
    requires |w.trace| <= i < |w'.trace| && w'.trace[i].op.ConfigureInterface? && !w'.trace[i].ok
    ensures ConfigFailed(w, w')
  {
  }

  function KeyStays(lib: Lib, w: World): World -> bool {
    (v: World) => w.trace <= v.trace && LiveKey(lib, v.k) == LiveKey(lib, w.k)
  }

  lemma LaterKeepsKey(lib: Lib, env: Oracle, w: World, plan: Plan)
    ensures KeptLater(env, plan, KeyStays(lib, w))
  {
    hide Effect, LiveKey;
    forall v, op | KeyStays(lib, w)(v) && IssuedFor(plan, op) && !op.ConfigureInterface? && !op.CreateInterface?
      ensures KeyStays(lib, w)(Step(env, v, op).0)
    {
      OpKeepsKey(lib, v.k, op, env(v.clock));
    }
  }

  lemma OpKeepsKey(lib: Lib, k: KState, op: Op, o: Outcome)
    requires !op.ConfigureInterface? && !op.CreateInterface? && !op.RemoveInterface?
    ensures LiveKey(lib, Effect(k, op, o).0) == LiveKey(lib, k)
  {
    hide Nft.Exec, HasDefaultRoute, AllAllowedIps, PutAll, PutRoute, HasOwned, DropOwned, ReadBack;
  }

  /** After a switch, successful or refused: unless a configuration failed, the live key is the old one or the
      tunnel's. */
  lemma KeyAfterSwitch(lib: Lib, env: Oracle, w: World, s: ServerConfig, answer: Option<SocketAddr>)
    ensures var w' := SwitchTo(lib, env, w, s, answer).0;
            ConfigFailed(w, w') || LiveKey(lib, w'.k) in {LiveKey(lib, w.k), PublicKey(lib, s.privateKey)}
  {
    hide PlanSwitch, Effect, Reconfigure, RouteAndFinish, LiveKey, PublicKey, ConfigFailed;
    if PlanSwitch(lib, s, answer).Ok? {
      var plan := PlanSwitch(lib, s, answer).value;
      ReconfigureKey(lib, env, w, s, plan);
      var (w1, failure) := Reconfigure(lib, env, w, s, plan.peer);
      if failure.None? {
        LaterKeepsKey(lib, env, w1, plan);
        RouteAndFinishKeeps(env, w1, plan, KeyStays(lib, w1));
        FailureStays(w, w1, RouteAndFinish(env, w1, plan).0);
      }
    }
  }

  lemma FailureStays(w: World, w1: World, w2: World)
    requires w1.trace <= w2.trace
    ensures ConfigFailed(w, w1) ==> ConfigFailed(w, w2)
  {
    if ConfigFailed(w, w1) {
      var i :| |w.trace| <= i < |w1.trace| && w1.trace[i].op.ConfigureInterface? && !w1.trace[i].ok;
      assert w2.trace[i] == w1.trace[i];
    }
  }

  /** A switch whose plan parses is refused because an operation failed, or because the private key does not parse. */
  lemma RefusalAfterParsing(lib: Lib, env: Oracle, w: World, s: ServerConfig, answer: Option<SocketAddr>)
    requires PlanSwitch(lib, s, answer).Ok? && SwitchTo(lib, env, w, s, answer).1.Err?
    ensures SwitchTo(lib, env, w, s, answer).1.error ==
            if PublicKey(lib, s.privateKey).None? then BadPrivateKey else OpFailed
  {
    hide PlanSwitch, Effect, RouteAndFinish, ParseAddresses, Trim;
    PlanParts(lib, s, answer);
  }

  // --- the refinement ----------------------------------------------------------

  /** A step on the configuration is the abstract take-over of what is wanted. */
  predicate TakesOver(lib: Lib, d: DState, wanted: Result<TunnelMap, Error>, save: SaveOutcome,
                      change: (DState, Option<Error>)) {
    var m, m' := Abstract(lib, d), Abstract(lib, change.0);
    match wanted
    case Err(e) => m' == m && change.1 == Some(e)
    case Ok(tunnels) =>
      && m' == Machine(tunnels, if save.FailedKept? then m.saved else tunnels, m.active)
      && change.1 == if save.Saved? then None else Some(NotPersisted)
  }

  lemma AdmitRefines(lib: Lib, d: DState, server: ServerConfig, ext: Ext)
    ensures TakesOver(lib, d, Stored(lib, Tunnels(d.servers), server, ext.answer), ext.save, Admit(lib, d, server, ext))
  {
    hide ValidateServer, UpsertIn, Tunnels, LiveKey;
    var r := ValidateServer(lib, server, ext.answer);
    if r.Ok? {
      TunnelsUpsert(d.servers, server.(resolvedEndpoint := Some(lib.showSocket(r.value))));
    }
  }

  lemma AddRefines(lib: Lib, d: DState, spec: ServerSpec, ext: Ext)
    ensures TakesOver(lib, d, WantedByAdd(lib, Tunnels(d.servers), spec, ext), ext.save, Add(lib, d, spec, ext))
  {
    hide Admit, Assembled, Trim, Supplied, Stored, Tunnels, LiveKey;
    AdmitRefines(lib, d, Assembled(spec, Or(Supplied(spec.privateKey), ext.freshKey), spec.presharedKey), ext);
  }

  lemma SeenWhenReadable(lib: Lib, env: Oracle, w: World)
    ensures ActiveKey(ReadLive(lib, env, w).1) == if Readable(env, w) then LiveKey(lib, w.k) else None
    ensures ReadLive(lib, env, w).0.k == w.k && (ReadLive(lib, env, w).1.Some? <==> Readable(env, w))
  {
  }

  lemma EditRefines(lib: Lib, env: Oracle, d: DState, spec: ServerSpec, ext: Ext)
    ensures var seen := if Readable(env, d.w) then LiveKey(lib, d.w.k) else None;
            TakesOver(lib, d, WantedByEdit(lib, Tunnels(d.servers), spec, seen, ext), ext.save,
                      Edit(lib, env, d, spec, ext))
  {
    hide Admit, Edited, Trim, ReadLive, ActiveKey, PublicKey, Stored, Tunnels, LiveKey, Readable, FindIn;
    var name := Trim(spec.name);
    TunnelsFind(d.servers, name);
    SeenWhenReadable(lib, env, d.w);
    var existing := FindIn(d.servers, name);
    if existing.Some? {
      AdmitRefines(lib, d.(w := ReadLive(lib, env, d.w).0), Edited(spec, existing.value), ext);
    }
  }

  lemma RemoveRefines(lib: Lib, d: DState, name: string, ext: Ext)
    ensures var tunnels := Tunnels(d.servers);
            TakesOver(lib, d, if name !in tunnels then Err(UnknownServer) else Ok(tunnels - {name}), ext.save,
                      Remove(d, name, ext))
  {
    hide Tunnels, RemoveIn, FindIn, LiveKey;
    TunnelsFind(d.servers, name);
    TunnelsRemove(d.servers, name);
  }

  lemma AnswerRefines(lib: Lib, env: Oracle, d: DState, wanted: Result<TunnelMap, Error>,
                      change: (DState, Option<Error>), ext: Ext)
    requires TakesOver(lib, d, wanted, ext.save, change)
    ensures var (d', r) := Answer(lib, env, change, ext);
            Takes(lib, Abstract(lib, d), wanted, ext.save, r, Abstract(lib, d'))
  {
    hide Listed, Tunnels, LiveKey, ListShows;
    ListedKeeps(lib, env, change.0, ext);
    ListedShows(lib, env, change.0, None, ext);
  }

  lemma ChangeRefines(lib: Lib, env: Oracle, d: DState, req: Request, ext: Ext)
    requires Changes(req)
    ensures var (d', r) := Handle(lib, env, d, req, ext);
            var seen := if Readable(env, d.w) then LiveKey(lib, d.w.k) else None;
            Takes(lib, Abstract(lib, d), Wanted(lib, Tunnels(d.servers), req, seen, ext), ext.save, r,
                  Abstract(lib, d'))
  {
    hide Add, Edit, Remove, Answer, ReadConf, WantedByAdd, WantedByEdit, TakesOver, Takes, Tunnels, LiveKey, Readable;
    var seen := if Readable(env, d.w) then LiveKey(lib, d.w.k) else None;
    var wanted := Wanted(lib, Tunnels(d.servers), req, seen, ext);
    match req
    case AddServer(spec) =>
      AddRefines(lib, d, spec, ext);
      AnswerRefines(lib, env, d, wanted, Add(lib, d, spec, ext), ext);
    case EditServer(spec) =>
      EditRefines(lib, env, d, spec, ext);
      AnswerRefines(lib, env, d, wanted, Edit(lib, env, d, spec, ext), ext);
    case ImportServer(name, conf) =>
      ImportRefines(lib, d, name, conf, seen, ext);
      AnswerRefines(lib, env, d, wanted, Import(lib, d, name, conf, ext), ext);
    case RemoveServer(name) =>
      RemoveRefines(lib, d, name, ext);
      AnswerRefines(lib, env, d, wanted, Remove(d, name, ext), ext);
  }

  lemma ImportRefines(lib: Lib, d: DState, name: string, conf: string, seen: Option<string>, ext: Ext)
    ensures TakesOver(lib, d, Wanted(lib, Tunnels(d.servers), ImportServer(name, conf), seen, ext), ext.save,
                      Import(lib, d, name, conf, ext))
  {
    hide Add, ReadConf, WantedByAdd, Tunnels, LiveKey;
    if ReadConf(conf).Some? {
      AddRefines(lib, d, SpecOf(name, ReadConf(conf).value), ext);
    }
  }

  /** Refreshing the cache is an update of the map, even when there is nothing to refresh. */
  lemma RecacheRefines(d: DState, s: ServerConfig, addr: string, save: SaveOutcome)
    requires FindIn(d.servers, s.name) == Some(s)
    ensures var d' := Recache(d, s, addr, save);
            && Tunnels(d'.servers) == Tunnels(d.servers)[s.name := s.(resolvedEndpoint := Some(addr))]
            && Tunnels(d'.disk) in {Tunnels(d.disk), Tunnels(d'.servers)} && d'.w == d.w
  {
    hide Tunnels, FindIn, UpsertIn;
    TunnelsFind(d.servers, s.name);
    TunnelsUpsert(d.servers, s.(resolvedEndpoint := Some(addr)));
    assert Tunnels(d.servers)[s.name := s] == Tunnels(d.servers);
  }

  lemma ConnectRefines(lib: Lib, env: Oracle, d: DState, name: string, ext: Ext)
    ensures var (d', r) := Connect(lib, env, d, name, ext);
            Switches(lib, Abstract(lib, d), name, ext.answer, ConfigFailed(d.w, d'.w), r, Abstract(lib, d'))
  {
    hide RunPlan, PlanSwitch, Tunnels, LiveKey, PublicKey, FindIn, Recache, ConfigFailed;
    TunnelsFind(d.servers, name);
    var found := FindIn(d.servers, name);
    if found.Some? {
      var s := found.value;
      var (w, r) := SwitchTo(lib, env, d.w, s, ext.answer);
      KeyAfterSwitch(lib, env, d.w, s, ext.answer);
      if r.Err? && PlanSwitch(lib, s, ext.answer).Ok? {
        RefusalAfterParsing(lib, env, d.w, s, ext.answer);
      }
      if r.Ok? {
        var addr := lib.showSocket(r.value);
        RecacheRefines(d.(w := w, lastConnect := Some(ext.now)), s, addr, ext.save);
        SwitchedSetsKey(lib, env, d, name, ext);
        var tunnels := Tunnels(Connect(lib, env, d, name, ext).0.servers);
        assert tunnels == Tunnels(d.servers)[name := s.(resolvedEndpoint := Some(addr))];
        assert tunnels[name].resolvedEndpoint == Some(addr);
      }
    }
  }

  lemma DropRefines(lib: Lib, env: Oracle, d: DState)
    ensures var (d', r) := Drop(env, d); Disconnects(Abstract(lib, d), r, Abstract(lib, d'))
  {
    hide Tunnels, Nft.Exec, Nft.NftScript, OffInterface;
  }

  lemma ViewsRefine(lib: Lib, env: Oracle, d: DState, ext: Ext)
    ensures Abstract(lib, Listed(lib, env, d, ext).0) == Abstract(lib, d)
    ensures Abstract(lib, ReadStatus(lib, env, d, ext).0) == Abstract(lib, d)
    ensures Listed(lib, env, d, ext).1.ServerList?
    ensures var r := ReadStatus(lib, env, d, ext).1; if Readable(env, d.w) then r.StatusIs? else r == Disconnected
  {
    hide ReadLive, Tunnels, LiveKey, InfoOf, StatusOf, Readable;
    SeenWhenReadable(lib, env, d.w);
  }

  /** Every turn of the daemon, whatever the kernel, the resolver and the disk do, is a move of the abstract machine. */
  lemma DaemonRefines(lib: Lib, env: Oracle, d: DState, t: Turn)
    ensures var (d', r) := Next(lib, env, d, t);
            Moves(lib, Abstract(lib, d), t, Readable(env, d.w), ConfigFailed(d.w, d'.w), r, Abstract(lib, d'))
  {
    hide Listed, ReadStatus, Connect, Drop, Answer, Add, Edit, Import, Remove, Tunnels, LiveKey, Readable, Takes,
         Switches, Disconnects, Wanted, FindIn, DetailOf, ListShows, Filtered, ConfigFailed;
    if t.Asked? {
      var ext := t.ext;
      match t.req
      case Status => ViewsRefine(lib, env, d, ext);
      case ListServers(query) =>
        ViewsRefine(lib, env, d, ext);
        ListedShows(lib, env, d, query, ext);
      case GetServer(name) => TunnelsFind(d.servers, name);
      case SwitchServer(name) => ConnectRefines(lib, env, d, name, ext);
      case Disconnecting => DropRefines(lib, env, d);
      case _ => ChangeRefines(lib, env, d, t.req, ext);
    }
  }

  // --- a consequence -----------------------------------------------------------

  /** The request names this tunnel. */
  predicate About(req: Request, name: string) {
    match req
    case AddServer(spec) => Trim(spec.name) == name
    case EditServer(spec) => Trim(spec.name) == name
    case ImportServer(n, _) => Trim(n) == name
    case RemoveServer(n) => n == name
    case SwitchServer(n) => n == name
    case _ => false
  }

  function At(tunnels: TunnelMap, name: string): Option<ServerConfig> {
    if name in tunnels then Some(tunnels[name]) else None
  }

  /** No move touches a tunnel its request does not name. */
  lemma OthersUntouched(lib: Lib, m: Machine, t: Turn, readable: bool, broken: bool, r: Option<Response>, m': Machine,
                        name: string)
    requires Moves(lib, m, t, readable, broken, r, m') && t.Asked? && !About(t.req, name)
    ensures At(m'.tunnels, name) == At(m.tunnels, name)
  {
    hide Trim, ValidateServer, Supplied, ReadConf, PublicKey, DetailOf, PlanSwitch, ListShows, Or;
  }

  /** Over a run without restarts, a tunnel that no request names stays exactly as it is, secrets and cached endpoint
      included, whatever happens to the others. */
  lemma {:induction false} TunnelSurvives(lib: Lib, env: Oracle, d: DState, turns: seq<Turn>, j: nat, k: nat,
                                          name: string)
    requires j <= k <= |turns|
    requires forall i :: j <= i < k ==> turns[i].Asked? && !About(turns[i].req, name)
    ensures FindIn(StateAt(lib, env, d, turns, k).servers, name) == FindIn(StateAt(lib, env, d, turns, j).servers, name)
    decreases k
  {
    hide Next, Moves, Tunnels, LiveKey, About, Readable;
    if j < k {
      TunnelSurvives(lib, env, d, turns, j, k - 1, name);
      var before, after := StateAt(lib, env, d, turns, k - 1), StateAt(lib, env, d, turns, k);
      DaemonRefines(lib, env, before, turns[k - 1]);
      OthersUntouched(lib, Abstract(lib, before), turns[k - 1], Readable(env, before.w),
                      ConfigFailed(before.w, after.w), Next(lib, env, before, turns[k - 1]).1, Abstract(lib, after),
                      name);
      TunnelsFind(before.servers, name);
      TunnelsFind(after.servers, name);
    }
  }
}
