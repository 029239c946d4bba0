/** What every run of the daemon keeps: a valid configuration, agreement of memory and disk, the connecting window. */
module DaemonSafety {
  import opened Basics
  import opened Text
  import opened Config
  import opened Kernel
  import opened Tunnel
  import opened Switch
  import opened Daemon

  // --- runs --------------------------------------------------------------------

  /** A request with what the outside answers to it, or a restart of the daemon. */
  datatype Turn = Asked(req: Request, ext: Ext) | Restarted

  /** A restart reads the file back and forgets the connecting window; the kernel does not notice. */
  function Next(lib: Lib, env: Oracle, d: DState, t: Turn): (DState, Option<Response>) {
    match t
    case Asked(req, ext) =>
      var (d', r) := Handle(lib, env, d, req, ext);
      (d', Some(r))
    case Restarted => (d.(servers := d.disk, lastConnect := None), None)
  }

  /** The state before turn `k`. */
  function StateAt(lib: Lib, env: Oracle, d: DState, turns: seq<Turn>, k: nat): DState
    requires k <= |turns|
  {
    if k == 0 then d else Next(lib, env, StateAt(lib, env, d, turns, k - 1), turns[k - 1]).0
  }

  function ResponseAt(lib: Lib, env: Oracle, d: DState, turns: seq<Turn>, k: nat): Response
    requires k < |turns| && turns[k].Asked?
  {
    Handle(lib, env, StateAt(lib, env, d, turns, k), turns[k].req, turns[k].ext).1
  }

  // --- validated state ---------------------------------------------------------

  /** A tunnel the daemon would accept: it parses throughout, has a usable cached endpoint, and a trimmed name. */
  predicate Proper(lib: Lib, s: ServerConfig) {
    WellFormed(lib, s) && HasCache(lib, s) && Trimmed(s.name) && s.name != ""
  }

  predicate AllProper(lib: Lib, servers: seq<ServerConfig>) {
    UniqueNames(servers) && forall s :: s in servers ==> Proper(lib, s)
  }

  /** Memory and file both. */
  predicate Valid(lib: Lib, d: DState) {
    AllProper(lib, d.servers) && AllProper(lib, d.disk)
  }

  lemma UpsertProper(lib: Lib, servers: seq<ServerConfig>, s: ServerConfig)
    requires AllProper(lib, servers) && Proper(lib, s)
    ensures AllProper(lib, UpsertIn(servers, s))
  {
    hide Proper, UniqueNames;
    UpsertUnique(servers, s);
  }

  lemma AdmitKeeps(lib: Lib, d: DState, server: ServerConfig, ext: Ext)
    requires Valid(lib, d) && PrintsParse(lib) && Trimmed(server.name) && server.name != ""
    ensures Valid(lib, Admit(lib, d, server, ext).0)
  {
    hide AllProper, Trim, ValidateServer, EndpointAddr, ParseMasks, ParseAddresses, ParseDns;
    ValidateExactly(lib, server, ext.answer);
    var r := ValidateServer(lib, server, ext.answer);
    if r.Ok? {
      var cached := server.(resolvedEndpoint := Some(lib.showSocket(r.value)));
      assert WellFormed(lib, cached) by {
        SameFields(lib, server, cached);
      }
      UpsertProper(lib, d.servers, cached);
    }
  }

  /** Validity of the fields does not look at the cached endpoint. */
  lemma SameFields(lib: Lib, s: ServerConfig, t: ServerConfig)
    requires t == s.(resolvedEndpoint := t.resolvedEndpoint)
    ensures WellFormed(lib, s) <==> WellFormed(lib, t)
  {
    hide Trim, ParseMasks;
  }

  lemma AddKeeps(lib: Lib, d: DState, spec: ServerSpec, ext: Ext)
    requires Valid(lib, d) && PrintsParse(lib)
    ensures Valid(lib, Add(lib, d, spec, ext).0)
  {
    hide Admit, Trim, Trimmed, Supplied, Or, Valid, PrintsParse;
    if Trim(spec.name) != "" {
      TrimGivesTrimmed(spec.name);
      AdmitKeeps(lib, d, Assembled(spec, Or(Supplied(spec.privateKey), ext.freshKey), spec.presharedKey), ext);
    }
  }

  lemma EditKeeps(lib: Lib, env: Oracle, d: DState, spec: ServerSpec, ext: Ext)
    requires Valid(lib, d) && PrintsParse(lib)
    ensures Valid(lib, Edit(lib, env, d, spec, ext).0)
  {
    hide Admit, Trim, Trimmed, Supplied, Or, AllProper, PrintsParse, PublicKey, ReadLive, ActiveKey;
    var existing := FindIn(d.servers, Trim(spec.name));
    if Trim(spec.name) != "" && existing.Some? {
      TrimGivesTrimmed(spec.name);
      var (w, live) := ReadLive(lib, env, d.w);
      AdmitKeeps(lib, d.(w := w), Edited(spec, existing.value), ext);
    }
  }

  lemma RemoveKeeps(lib: Lib, d: DState, name: string, ext: Ext)
    requires Valid(lib, d)
    ensures Valid(lib, Remove(d, name, ext).0)
  {
    hide Proper, UniqueNames, RemoveIn;
    RemoveUnique(d.servers, name);
    RemoveKeepsElements(d.servers, name);
  }

  lemma ConnectKeeps(lib: Lib, env: Oracle, d: DState, name: string, ext: Ext)
    requires Valid(lib, d) && PrintsParse(lib)
    ensures Valid(lib, Connect(lib, env, d, name, ext).0)
  {
    hide SwitchTo, UniqueNames, WellFormed, Trimmed, AllProper;
    var found := FindIn(d.servers, name);
    if found.Some? {
      var r := SwitchTo(lib, env, d.w, found.value, ext.answer).1;
      assert Proper(lib, found.value) by {
        ProperMember(lib, d.servers, found.value);
      }
      if r.Ok? {
        var cached := found.value.(resolvedEndpoint := Some(lib.showSocket(r.value)));
        SameFields(lib, found.value, cached);
        UpsertProper(lib, d.servers, cached);
      }
    }
  }

  lemma ProperMember(lib: Lib, servers: seq<ServerConfig>, s: ServerConfig)
    requires AllProper(lib, servers) && s in servers
    ensures Proper(lib, s)
  {
  }

  lemma NextKeeps(lib: Lib, env: Oracle, d: DState, t: Turn)
    requires Valid(lib, d) && PrintsParse(lib)
    ensures Valid(lib, Next(lib, env, d, t).0)
  {
    hide AllProper, PrintsParse, Add, Edit, Remove, Connect, Drop, ReadLive, ReadConf, StatusOf, InfoOf;
    if t.Asked? {
      var ext := t.ext;
      match t.req
      case AddServer(spec) => AddKeeps(lib, d, spec, ext);
      case EditServer(spec) => EditKeeps(lib, env, d, spec, ext);
      case ImportServer(name, conf) =>
        if ReadConf(conf).Some? {
          AddKeeps(lib, d, SpecOf(name, ReadConf(conf).value), ext);
        }
      case RemoveServer(name) => RemoveKeeps(lib, d, name, ext);
      case SwitchServer(name) => ConnectKeeps(lib, env, d, name, ext);
      case Disconnecting => assert Valid(lib, Drop(env, d).0) by { DropKeepsConfig(env, d); }
      case _ =>
    }
  }

  lemma DropKeepsConfig(env: Oracle, d: DState)
    ensures Drop(env, d).0.servers == d.servers && Drop(env, d).0.disk == d.disk
  {
  }

  /** In every state of every run from a valid one, an empty configuration for instance, all that is stored is
      valid, and the names are unique, trimmed and non-empty, in memory and in the file. */
  lemma {:induction false} RunKeepsValid(lib: Lib, env: Oracle, d: DState, turns: seq<Turn>, k: nat)
    requires Valid(lib, d) && PrintsParse(lib) && k <= |turns|
    ensures Valid(lib, StateAt(lib, env, d, turns, k))
    decreases k
  {
    hide Valid, PrintsParse, Next;
    if k > 0 {
      RunKeepsValid(lib, env, d, turns, k - 1);
      NextKeeps(lib, env, StateAt(lib, env, d, turns, k - 1), turns[k - 1]);
    }
  }

  lemma EmptyIsValid(lib: Lib, w: World)
    ensures Valid(lib, DState([], [], None, w))
  {
  }

  /** Runs of a daemon that started with an empty configuration. */
  lemma RunFromEmpty(lib: Lib, env: Oracle, w: World, turns: seq<Turn>, k: nat)
    requires PrintsParse(lib) && k <= |turns|
    ensures Valid(lib, StateAt(lib, env, DState([], [], None, w), turns, k))
  {
    hide Valid, PrintsParse, StateAt;
    EmptyIsValid(lib, w);
    RunKeepsValid(lib, env, DState([], [], None, w), turns, k);
  }

  // --- what validity is worth --------------------------------------------------

  /** Switching to a stored tunnel never fails while parsing, whatever the resolver says: it is refused only when
      a kernel operation fails. */
  lemma StoredTunnelsParse(lib: Lib, env: Oracle, d: DState, name: string, ext: Ext)
    requires Valid(lib, d) && FindIn(d.servers, name).Some?
    ensures PlanSwitch(lib, FindIn(d.servers, name).value, ext.answer).Ok?
    ensures Connect(lib, env, d, name, ext).1 in {Switched(name), Refused(OpFailed)}
  {
    hide RunPlan, PlanSwitch, ParseMasks, ParseAddresses, ParseDns, Trim, PeerFields, AllProper, UpsertIn;
    var s := FindIn(d.servers, name).value;
    ProperMember(lib, d.servers, s);
    PlanNeverFails(lib, s);
    assert PlanSwitch(lib, s, ext.answer).Ok?;
    RunPlanErrors(lib, env, d.w, s, PlanSwitch(lib, s, ext.answer).value);
  }

  lemma RunPlanErrors(lib: Lib, env: Oracle, w: World, s: ServerConfig, plan: Plan)
    requires WellFormed(lib, s)
    ensures var r := RunPlan(lib, env, w, s, plan).1; r.Err? ==> r.error == OpFailed
  {
    hide Effect, RouteAndFinish, ParseMasks, ParseAddresses, ParseDns, Trim, PeerFields;
  }

  /** No stored tunnel lists with the placeholder, and no edit is refused because a stored key does not parse:
      the checks after the key was derived decide. */
  lemma KeysAlwaysDerive(lib: Lib, env: Oracle, d: DState, spec: ServerSpec, ext: Ext, s: ServerConfig)
    requires Valid(lib, d)
    ensures s in d.servers ==> PublicKey(lib, s.privateKey) == Some(ShownKey(lib, s))
    ensures var existing := FindIn(d.servers, Trim(spec.name));
            Trim(spec.name) != "" && existing.Some? ==>
              var (w, live) := ReadLive(lib, env, d.w);
              Edit(lib, env, d, spec, ext) ==
                if ActiveKey(live) == Some(ShownKey(lib, existing.value)) then (d.(w := w), Some(ActiveTunnel))
                else Admit(lib, d.(w := w), Edited(spec, existing.value), ext)
  {
    hide Trim, AllProper, Admit, ReadLive, ActiveKey, Edited, PeerFields, ParseAddresses, ParseDns;
    if s in d.servers {
      ProperMember(lib, d.servers, s);
    }
    var existing := FindIn(d.servers, Trim(spec.name));
    if existing.Some? {
      ProperMember(lib, d.servers, existing.value);
    }
  }

  // --- memory and disk ---------------------------------------------------------

  predicate Changes(req: Request) {
    req.AddServer? || req.EditServer? || req.ImportServer? || req.RemoveServer?
  }

  predicate SameConfig(d: DState, d': DState) {
    d'.servers == d.servers && d'.disk == d.disk
  }

  /** How a change comes out, whatever it was. */
  predicate Accounted(d: DState, d': DState, failure: Option<Error>, save: SaveOutcome) {
    && (failure.None? ==> save.Saved? && d'.disk == d'.servers)
    && (failure == Some(NotPersisted) ==> !save.Saved? && d'.disk == if save.FailedKept? then d.disk else d'.servers)
    && (failure.Some? && failure.value != NotPersisted ==> SameConfig(d, d'))
    && d'.w.k == d.w.k && d'.lastConnect == d.lastConnect
  }

  lemma AdmitSettles(lib: Lib, d: DState, server: ServerConfig, ext: Ext)
    ensures Accounted(d, Admit(lib, d, server, ext).0, Admit(lib, d, server, ext).1, ext.save)
  {
    hide ValidateServer, UpsertIn;
    ValidateErrors(lib, server, ext.answer);
  }

  lemma AddSettles(lib: Lib, d: DState, spec: ServerSpec, ext: Ext)
    ensures Accounted(d, Add(lib, d, spec, ext).0, Add(lib, d, spec, ext).1, ext.save)
  {
    hide Admit, Trim, Assembled, Supplied;
    if Trim(spec.name) != "" {
      AdmitSettles(lib, d, Assembled(spec, Or(Supplied(spec.privateKey), ext.freshKey), spec.presharedKey), ext);
    }
  }

  lemma EditSettles(lib: Lib, env: Oracle, d: DState, spec: ServerSpec, ext: Ext)
    ensures Accounted(d, Edit(lib, env, d, spec, ext).0, Edit(lib, env, d, spec, ext).1, ext.save)
  {
    hide Admit, Trim, Edited, FindIn, PublicKey, LiveOf, ActiveKey;
    var existing := FindIn(d.servers, Trim(spec.name));
    if existing.Some? {
      AdmitSettles(lib, d.(w := ReadLive(lib, env, d.w).0), Edited(spec, existing.value), ext);
    }
  }

  lemma ListedKeeps(lib: Lib, env: Oracle, d: DState, ext: Ext)
    ensures var (d', r) := Listed(lib, env, d, ext);
            r.ServerList? && SameConfig(d, d') && d'.w.k == d.w.k && d'.lastConnect == d.lastConnect
  {
    hide InfoOf, LiveOf;
  }

  /** The same request, had its save gone differently. */
  function HadItSaved(ext: Ext): Ext {
    ext.(save := SaveOutcome.Saved)
  }

  lemma AdmitMemory(lib: Lib, d: DState, server: ServerConfig, ext: Ext)
    ensures Admit(lib, d, server, ext).0.servers == Admit(lib, d, server, HadItSaved(ext)).0.servers
  {
    hide ValidateServer, UpsertIn;
  }

  lemma MemoryIgnoresSave(lib: Lib, env: Oracle, d: DState, req: Request, ext: Ext)
    requires Changes(req)
    ensures Handle(lib, env, d, req, ext).0.servers == Handle(lib, env, d, req, HadItSaved(ext)).0.servers
  {
    hide Admit, RemoveIn, FindIn, ReadConf, ReadLive, InfoOf, Assembled, Edited, Trim, PublicKey, Supplied, ActiveKey;
    match req
    case AddServer(spec) =>
      AdmitMemory(lib, d, Assembled(spec, Or(Supplied(spec.privateKey), ext.freshKey), spec.presharedKey), ext);
    case EditServer(spec) =>
      var existing := FindIn(d.servers, Trim(spec.name));
      if existing.Some? {
        AdmitMemory(lib, d.(w := ReadLive(lib, env, d.w).0), Edited(spec, existing.value), ext);
      }
    case ImportServer(name, conf) =>
      if ReadConf(conf).Some? {
        var spec := SpecOf(name, ReadConf(conf).value);
        AdmitMemory(lib, d, Assembled(spec, Or(Supplied(spec.privateKey), ext.freshKey), spec.presharedKey), ext);
      }
    case RemoveServer(_) =>
  }

  /** A change answers with the list exactly when it was saved, and then the file equals memory. Refused as not
      persisted, memory holds what it would hold had the save gone well, and the file is as it was or, if the save
      failed after replacing it, equals memory. Refused for any other reason, nothing has changed. And no change
      touches the kernel or the connecting window. */
  lemma ChangeOutcome(lib: Lib, env: Oracle, d: DState, req: Request, ext: Ext)
    requires Changes(req)
    ensures var (d', r) := Handle(lib, env, d, req, ext);
            && (r.ServerList? || r.Refused?)
            && Accounted(d, d', if r.Refused? then Some(r.error) else None, ext.save)
            && d'.servers == Handle(lib, env, d, req, HadItSaved(ext)).0.servers
  {
    MemoryIgnoresSave(lib, env, d, req, ext);
    hide HadItSaved;
    hide Add, Edit, RemoveIn, FindIn, ReadConf, Listed, Accounted;
    var change :=
      match req
      case AddServer(spec) => Add(lib, d, spec, ext)
      case EditServer(spec) => Edit(lib, env, d, spec, ext)
      case ImportServer(name, conf) => Import(lib, d, name, conf, ext)
      case RemoveServer(name) => Remove(d, name, ext)
      case _ => (d, None);
    assert Accounted(d, change.0, change.1, ext.save) by {
      ChangeSettles(lib, env, d, req, ext);
    }
    ListedKeeps(lib, env, change.0, ext);
    assert change.1.None? ==> Accounted(d, Listed(lib, env, change.0, ext).0, None, ext.save) by {
      AccountedThrough(d, change.0, Listed(lib, env, change.0, ext).0, change.1, ext.save);
    }
  }

  lemma AccountedThrough(d: DState, d1: DState, d2: DState, failure: Option<Error>, save: SaveOutcome)
    requires SameConfig(d1, d2) && d2.w.k == d1.w.k && d2.lastConnect == d1.lastConnect
    ensures Accounted(d, d1, failure, save) ==> Accounted(d, d2, failure, save)
  {
  }

  lemma ChangeSettles(lib: Lib, env: Oracle, d: DState, req: Request, ext: Ext)
    ensures req.AddServer? ==> var c := Add(lib, d, req.server, ext); Accounted(d, c.0, c.1, ext.save)
    ensures req.EditServer? ==> var c := Edit(lib, env, d, req.server, ext); Accounted(d, c.0, c.1, ext.save)
    ensures req.ImportServer? ==> var c := Import(lib, d, req.name, req.conf, ext); Accounted(d, c.0, c.1, ext.save)
    ensures req.RemoveServer? ==> var c := Remove(d, req.name, ext); Accounted(d, c.0, c.1, ext.save)
  {
    hide Add, Edit, ReadConf, RemoveIn, FindIn;
    match req
    case AddServer(spec) => AddSettles(lib, d, spec, ext);
    case EditServer(spec) => EditSettles(lib, env, d, spec, ext);
    case ImportServer(name, conf) =>
      if ReadConf(conf).Some? {
        AddSettles(lib, d, SpecOf(name, ReadConf(conf).value), ext);
      }
    case _ =>
  }

  /** Validation never answers that the save failed. */
  lemma ValidateErrors(lib: Lib, s: ServerConfig, answer: Option<SocketAddr>)
    ensures ValidateServer(lib, s, answer) != Err(NotPersisted)
  {
    hide Trim, ParseMasks, EndpointAddr;
  }

  /** Exactly when a change leaves the file behind memory, if they agreed: it was refused as not persisted, its save
      left the old file in place, and it changes anything at all. */
  lemma FileLagsIff(lib: Lib, env: Oracle, d: DState, req: Request, ext: Ext)
    requires Changes(req) && d.disk == d.servers
    ensures var (d', r) := Handle(lib, env, d, req, ext);
            d'.disk != d'.servers <==> r == Refused(NotPersisted) && ext.save.FailedKept? && d'.servers != d.servers
  {
    hide Handle;
    ChangeOutcome(lib, env, d, req, ext);
  }

  /** Only the cached endpoint of that tunnel may differ. */
  predicate Recached(d: DState, d': DState, name: string) {
    var s := FindIn(d.servers, name);
    var s' := FindIn(d'.servers, name);
    s.Some? && s'.Some? && d'.servers == UpsertIn(d.servers, s.value.(resolvedEndpoint := s'.value.resolvedEndpoint))
  }

  /** Every other request leaves the configuration alone, except that a switch may refresh the cached endpoint of
      the tunnel it connects. */
  lemma OthersKeepConfig(lib: Lib, env: Oracle, d: DState, req: Request, ext: Ext)
    requires !Changes(req)
    ensures var (d', r) := Handle(lib, env, d, req, ext);
            && (!r.Switched? ==> SameConfig(d, d'))
            && (r.Switched? ==>
                req == SwitchServer(r.name) && d'.disk in {d.disk, d'.servers} && Recached(d, d', r.name))
  {
    hide SwitchTo, InfoOf, LiveOf, StatusOf, Disconnect, UpsertIn;
    if req.SwitchServer? {
      var found := FindIn(d.servers, req.name);
      if found.Some? {
        var s := found.value;
        var r := SwitchTo(lib, env, d.w, s, ext.answer).1;
        if r.Ok? {
          var cached := s.(resolvedEndpoint := Some(lib.showSocket(r.value)));
          UpsertLookup(d.servers, cached, req.name);
          UpsertSame(d.servers, s);
        }
      }
    }
  }

  /** Storing what is found changes nothing. */
  lemma {:induction false} UpsertSame(servers: seq<ServerConfig>, s: ServerConfig)
    requires FindIn(servers, s.name) == Some(s)
    ensures UpsertIn(servers, s) == servers
    decreases servers
  {
    if servers[0].name != s.name {
      UpsertSame(servers[1..], s);
    }
  }

  /** After a change that was answered with the list, a restart finds the same configuration, whatever saves had
      failed before: one success heals them all. */
  lemma RestartAfterSuccess(lib: Lib, env: Oracle, d: DState, turns: seq<Turn>, k: nat)
    requires k < |turns| && turns[k].Asked? && Changes(turns[k].req)
    requires ResponseAt(lib, env, d, turns, k).ServerList?
    ensures var after := StateAt(lib, env, d, turns, k + 1);
            Next(lib, env, after, Restarted).0.servers == after.servers
  {
    hide Handle;
    ChangeOutcome(lib, env, StateAt(lib, env, d, turns, k), turns[k].req, turns[k].ext);
  }

  /** What the file holds is always what memory held at some earlier moment: saves never mix configurations. */
  lemma {:induction false} DiskIsPast(lib: Lib, env: Oracle, d: DState, turns: seq<Turn>, k: nat)
    requires d.disk == d.servers && k <= |turns|
    ensures exists j :: 0 <= j <= k && StateAt(lib, env, d, turns, k).disk == StateAt(lib, env, d, turns, j).servers
    decreases k
  {
    hide Handle;
    if k == 0 {
      assert StateAt(lib, env, d, turns, 0).servers == d.servers;
    } else {
      DiskIsPast(lib, env, d, turns, k - 1);
      var before := StateAt(lib, env, d, turns, k - 1);
      var j :| 0 <= j <= k - 1 && before.disk == StateAt(lib, env, d, turns, j).servers;
      var t := turns[k - 1];
      if t.Asked? {
        if Changes(t.req) {
          ChangeOutcome(lib, env, before, t.req, t.ext);
        } else {
          OthersKeepConfig(lib, env, before, t.req, t.ext);
        }
      }
      var after := StateAt(lib, env, d, turns, k);
      assert after.disk == before.disk || after.disk == after.servers;
    }
  }

  // --- the connecting window ---------------------------------------------------

  /** What a turn does to the time of the last connection. */
  function Window(last: Option<nat>, t: Turn, r: Option<Response>): Option<nat> {
    if t.Restarted? then None
    else if r.Some? && r.value.Switched? then Some(t.ext.now)
    else if t.req.Disconnecting? && r == Some(Disconnected) then None
    else last
  }

  /** Only a successful switch opens the window and only a successful disconnect or a restart closes it: a switch or
      a disconnect that fails, and every other request, leaves it alone. */
  lemma WindowMoves(lib: Lib, env: Oracle, d: DState, t: Turn)
    ensures Next(lib, env, d, t).0.lastConnect == Window(d.lastConnect, t, Next(lib, env, d, t).1)
  {
    hide SwitchTo, InfoOf, LiveOf, StatusOf, Disconnect, UpsertIn, FindIn;
    if t.Asked? && Changes(t.req) {
      hide Handle;
      ChangeOutcome(lib, env, d, t.req, t.ext);
    }
  }

  /** Some tunnel or peer in the response is reported as connecting. */
  predicate ReportsConnecting(r: Response) {
    || (r.ServerList? && exists i :: 0 <= i < |r.servers| && r.servers[i].state == Some(Connecting))
    || (r.StatusIs? && exists i :: 0 <= i < |r.status.peers| && r.status.peers[i].state == Connecting)
  }

  /** A filtered list is part of the list. */
  lemma FilteredIsPart(query: Option<string>, r: Response)
    requires r.ServerList?
    ensures Filtered(query, r).ServerList?
    ensures forall info :: info in Filtered(query, r).servers <==>
            info in r.servers && (query.None? || Matches(query.value)(info))
    ensures ReportsConnecting(Filtered(query, r)) ==> ReportsConnecting(r)
  {
    hide Matches;
    if query.Some? {
      KeepElements(r.servers, Matches(query.value));
      var kept := Filtered(query, r).servers;
      if ReportsConnecting(Filtered(query, r)) {
        var i :| 0 <= i < |kept| && kept[i].state == Some(Connecting);
        assert kept[i] in r.servers;
      }
    }
  }

  lemma ListReportsInWindow(lib: Lib, env: Oracle, d: DState, ext: Ext)
    requires ReportsConnecting(Listed(lib, env, d, ext).1)
    ensures WithinWindow(d.lastConnect, ext.now)
  {
    hide LiveOf, HandshakeAge, FirstPeer, WithinWindow, ShownKey, Step;
  }

  lemma StatusReportsInWindow(lib: Lib, env: Oracle, d: DState, ext: Ext)
    requires ReportsConnecting(ReadStatus(lib, env, d, ext).1)
    ensures WithinWindow(d.lastConnect, ext.now)
  {
    hide LiveOf, HandshakeAge, WithinWindow, Step;
  }

  lemma ReportNeedsWindow(lib: Lib, env: Oracle, d: DState, req: Request, ext: Ext)
    requires ReportsConnecting(Handle(lib, env, d, req, ext).1)
    ensures WithinWindow(d.lastConnect, ext.now)
  {
    hide Listed, ReadStatus, ReportsConnecting, SwitchTo, Disconnect, Recache, FindIn, WithinWindow, Filtered, DetailOf,
      Add, Edit, Import, Remove;
    match req
    case Status => StatusReportsInWindow(lib, env, d, ext);
    case ListServers(query) =>
      ListedKeeps(lib, env, d, ext);
      FilteredIsPart(query, Listed(lib, env, d, ext).1);
      ListReportsInWindow(lib, env, d, ext);
    case AddServer(spec) => ChangeReportsInWindow(lib, env, d, req, Add(lib, d, spec, ext), ext);
    case EditServer(spec) => ChangeReportsInWindow(lib, env, d, req, Edit(lib, env, d, spec, ext), ext);
    case ImportServer(name, conf) => ChangeReportsInWindow(lib, env, d, req, Import(lib, d, name, conf, ext), ext);
    case RemoveServer(name) => ChangeReportsInWindow(lib, env, d, req, Remove(d, name, ext), ext);
    case _ => NothingReported(Handle(lib, env, d, req, ext).1);
  }

  lemma NothingReported(r: Response)
    requires !r.ServerList? && !r.StatusIs?
    ensures !ReportsConnecting(r)
  {
  }

  lemma ChangeReportsInWindow(lib: Lib, env: Oracle, d: DState, req: Request, change: (DState, Option<Error>), ext: Ext)
    requires Changes(req) && Handle(lib, env, d, req, ext) == Answer(lib, env, change, ext)
    requires ReportsConnecting(Answer(lib, env, change, ext).1)
    ensures WithinWindow(d.lastConnect, ext.now)
  {
    hide Handle, Listed, ReportsConnecting, WithinWindow;
    ChangeOutcome(lib, env, d, req, ext);
    if change.1.Some? {
      NothingReported(Refused(change.1.value));
    }
    ListedKeeps(lib, env, change.0, ext);
    ListReportsInWindow(lib, env, change.0, ext);
  }

  /** The turn connected a tunnel. */
  predicate Connected(lib: Lib, env: Oracle, d: DState, turns: seq<Turn>, j: nat)
    requires j < |turns|
  {
    turns[j].Asked? && ResponseAt(lib, env, d, turns, j).Switched?
  }

  /** The turn ended a connection: a disconnect that succeeded, or a restart. */
  predicate Ended(lib: Lib, env: Oracle, d: DState, turns: seq<Turn>, j: nat)
    requires j < |turns|
  {
    turns[j].Restarted? || (turns[j].req.Disconnecting? && ResponseAt(lib, env, d, turns, j) == Disconnected)
  }

  lemma WindowAt(lib: Lib, env: Oracle, d: DState, turns: seq<Turn>, k: nat)
    requires k < |turns|
    ensures StateAt(lib, env, d, turns, k + 1).lastConnect ==
            if Connected(lib, env, d, turns, k) then Some(turns[k].ext.now)
            else if Ended(lib, env, d, turns, k) then None
            else StateAt(lib, env, d, turns, k).lastConnect
  {
    hide Handle;
    WindowMoves(lib, env, StateAt(lib, env, d, turns, k), turns[k]);
  }

  /** The last connection that is still on record before turn `k` happened at turn `j`. */
  ghost predicate LastConnected(lib: Lib, env: Oracle, d: DState, turns: seq<Turn>, k: nat, j: nat)
    requires k <= |turns|
  {
    && j < k && Connected(lib, env, d, turns, j)
    && forall i :: j < i < k ==> !Connected(lib, env, d, turns, i) && !Ended(lib, env, d, turns, i)
  }

  lemma {:induction false} LastConnectIsOnRecord(lib: Lib, env: Oracle, d: DState, turns: seq<Turn>, k: nat)
    requires d.lastConnect.None? && k <= |turns|
    ensures var last := StateAt(lib, env, d, turns, k).lastConnect;
            last.Some? ==> exists j: nat :: LastConnected(lib, env, d, turns, k, j) && turns[j].ext.now == last.value
    decreases k
  {
    hide Next, ResponseAt, Ended;
    if k > 0 {
      LastConnectIsOnRecord(lib, env, d, turns, k - 1);
      var before := StateAt(lib, env, d, turns, k - 1);
      WindowAt(lib, env, d, turns, k - 1);
      if StateAt(lib, env, d, turns, k).lastConnect.Some? {
        if Connected(lib, env, d, turns, k - 1) {
          assert LastConnected(lib, env, d, turns, k, k - 1);
        } else {
          assert !Ended(lib, env, d, turns, k - 1);
          var j: nat :| LastConnected(lib, env, d, turns, k - 1, j) && turns[j].ext.now == before.lastConnect.value;
          assert LastConnected(lib, env, d, turns, k, j);
        }
      }
    }
  }

  /** The requests' times never go back. */
  predicate Monotone(turns: seq<Turn>) {
    forall i, j :: 0 <= i < j < |turns| && turns[i].Asked? && turns[j].Asked? ==> turns[i].ext.now <= turns[j].ext.now
  }

  /** Connecting is reported only within 15 s of a successful switch that no successful disconnect and no restart
      has followed. */
  lemma ConnectingNeedsASwitch(lib: Lib, env: Oracle, d: DState, turns: seq<Turn>, k: nat)
    requires d.lastConnect.None? && Monotone(turns) && k < |turns| && turns[k].Asked?
    requires ReportsConnecting(ResponseAt(lib, env, d, turns, k))
    ensures exists j: nat ::
              LastConnected(lib, env, d, turns, k, j) && turns[k].ext.now - turns[j].ext.now < CONNECTING_WINDOW
  {
    hide Handle, ReportsConnecting;
    var before := StateAt(lib, env, d, turns, k);
    ReportNeedsWindow(lib, env, before, turns[k].req, turns[k].ext);
    LastConnectIsOnRecord(lib, env, d, turns, k);
    var j: nat :| LastConnected(lib, env, d, turns, k, j) && turns[j].ext.now == before.lastConnect.value;
    assert turns[k].ext.now - turns[j].ext.now < CONNECTING_WINDOW;
  }

  /** Once over, the window stays over until a switch succeeds: a peer without a handshake goes from Connecting to
      Never and not back. */
  lemma {:induction false} NeverIsFinal(lib: Lib, env: Oracle, d: DState, turns: seq<Turn>, j: nat, k: nat)
    requires Monotone(turns) && j <= k < |turns| && turns[j].Asked? && turns[k].Asked?
    requires !WithinWindow(StateAt(lib, env, d, turns, j).lastConnect, turns[j].ext.now)
    requires forall i :: j <= i < k ==> !Connected(lib, env, d, turns, i)
    ensures !WithinWindow(StateAt(lib, env, d, turns, k).lastConnect, turns[k].ext.now)
    ensures !ReportsConnecting(ResponseAt(lib, env, d, turns, k))
  {
    hide Handle, ReportsConnecting, Connected, WithinWindow;
    WindowOnlyCloses(lib, env, d, turns, j, k);
    assert !WithinWindow(StateAt(lib, env, d, turns, k).lastConnect, turns[k].ext.now) by {
      var at := StateAt(lib, env, d, turns, j).lastConnect;
      LaterStaysOut(at, turns[j].ext.now, turns[k].ext.now);
    }
    if ReportsConnecting(ResponseAt(lib, env, d, turns, k)) {
      ReportNeedsWindow(lib, env, StateAt(lib, env, d, turns, k), turns[k].req, turns[k].ext);
    }
  }

  lemma LaterStaysOut(last: Option<nat>, now: nat, later: nat)
    requires !WithinWindow(last, now) && now <= later
    ensures !WithinWindow(last, later) && !WithinWindow(None, later)
  {
  }

  lemma {:induction false} WindowOnlyCloses(lib: Lib, env: Oracle, d: DState, turns: seq<Turn>, j: nat, k: nat)
    requires j <= k <= |turns|
    requires forall i :: j <= i < k ==> !Connected(lib, env, d, turns, i)
    ensures StateAt(lib, env, d, turns, k).lastConnect in {None, StateAt(lib, env, d, turns, j).lastConnect}
    decreases k
  {
    hide Next, Connected, Ended;
    if j < k {
      WindowOnlyCloses(lib, env, d, turns, j, k - 1);
      WindowAt(lib, env, d, turns, k - 1);
      assert !Connected(lib, env, d, turns, k - 1);
    }
  }
}
