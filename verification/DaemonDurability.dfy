/** The daemon on a machine that loses power: its saves are the steps of the state file, and power may go after any of
    them, or at any other moment. */
module DaemonDurability {
  import opened Basics
  import opened Text
  import opened Config
  import opened Kernel
  import opened Tunnel
  import opened Switch
  import opened Daemon
  import opened DaemonSafety
  import S = Store

  // --- the machine -------------------------------------------------------------

  /** The daemon, the disk, and every configuration that memory has held so far. */
  datatype Machine = Machine(d: DState, disk: S.FsWorld, held: set<Config>)

  /** `k` is the kernel that a machine comes up with. */
  datatype Happening =
    | Request(req: Request, ext: Ext)
    | Restart
    | PowerLoss(r: S.Recovery, k: KState)
    | PowerLossDuring(req: Request, ext: Ext, at: nat, r: S.Recovery, k: KState)

  /** What the store is built from: the codec, whether the path has a directory, how its steps go. */
  datatype Medium = Medium(codec: S.Codec, hasParent: bool, steps: S.SysOracle)

  /** The configuration that a request asks the store to save, if it gets that far. */
  function Attempted(lib: Lib, env: Oracle, d: DState, req: Request, ext: Ext): Option<Config> {
    var (d', r) := Handle(lib, env, d, req, HadItSaved(ext));
    if (Changes(req) && r.ServerList?) || (r.Switched? && d'.servers != d.servers)
    then Some(Config(d'.servers))
    else None
  }

  /** How the save went, as the daemon and the next load can tell. */
  function OutcomeOf(codec: S.Codec, ok: bool, fs: S.Fs, cfg: Config): SaveOutcome {
    if ok then SaveOutcome.Saved else if S.Load(codec, fs) == Ok(cfg) then FailedReplaced else FailedKept
  }

  /** The world outside the daemon, with the outcome of the save that the disk decides. */
  function Saving(lib: Lib, m: Medium, env: Oracle, h: Machine, req: Request, ext: Ext): Ext {
    match Attempted(lib, env, h.d, req, ext)
    case None => HadItSaved(ext)
    case Some(cfg) =>
      var (disk, ok) := S.Save(m.codec, m.hasParent, m.steps, h.disk, cfg);
      ext.(save := OutcomeOf(m.codec, ok, disk.fs, cfg))
  }

  function Serve(lib: Lib, m: Medium, env: Oracle, h: Machine, req: Request, ext: Ext): (Machine, Response) {
    var (d, r) := Handle(lib, env, h.d, req, Saving(lib, m, env, h, req, ext));
    var disk :=
      match Attempted(lib, env, h.d, req, ext)
      case None => h.disk
      case Some(cfg) => S.Save(m.codec, m.hasParent, m.steps, h.disk, cfg).0;
    (Machine(d, disk, h.held + {Config(d.servers)}), r)
  }

  /** A daemon that starts on this disk and kernel. One whose file does not load would not start at all. */
  function Started(codec: S.Codec, fs: S.Fs, d: DState, k: KState): DState {
    var loaded := S.Load(codec, fs);
    var servers := if loaded.Ok? then loaded.value.servers else [];
    DState(servers, servers, None, d.w.(k := k))
  }

  function Boot(codec: S.Codec, h: Machine, fs: S.Fs, k: KState): Machine {
    var d := Started(codec, fs, h.d, k);
    Machine(d, h.disk.(fs := fs), h.held + {Config(d.servers)})
  }

  /** What memory holds, and the disk is at, when power goes `at` steps into the save of a request. */
  function MidSave(lib: Lib, m: Medium, env: Oracle, h: Machine, req: Request, ext: Ext, at: nat): Machine {
    match Attempted(lib, env, h.d, req, ext)
    case None => h
    case Some(cfg) =>
      var disk := S.Save(m.codec, m.hasParent, m.steps, h.disk, cfg).0;
      h.(disk := disk.(fs := S.StateAt(h.disk, disk, at)), held := h.held + {cfg})
  }

  function Happen(lib: Lib, m: Medium, env: Oracle, h: Machine, e: Happening): Machine {
    match e
    case Request(req, ext) => Serve(lib, m, env, h, req, ext).0
    case Restart => Boot(m.codec, h, h.disk.fs, h.d.w.k)
    case PowerLoss(r, k) => Boot(m.codec, h, S.Recovered(h.disk.fs, r), k)
    case PowerLossDuring(req, ext, at, r, k) =>
      var mid := MidSave(lib, m, env, h, req, ext, at);
      Boot(m.codec, mid, S.Recovered(mid.disk.fs, r), k)
  }

  function HostAt(lib: Lib, m: Medium, env: Oracle, h: Machine, events: seq<Happening>, n: nat): Machine
    requires n <= |events|
  {
    if n == 0 then h else Happen(lib, m, env, HostAt(lib, m, env, h, events, n - 1), events[n - 1])
  }

  // --- what a save leaves ------------------------------------------------------

  lemma AdmitFollowsSave(lib: Lib, d: DState, server: ServerConfig, ext: Ext)
    requires Admit(lib, d, server, HadItSaved(ext)).1.None?
    ensures Admit(lib, d, server, ext).1 == if ext.save.Saved? then None else Some(NotPersisted)
  {
    hide ValidateServer, UpsertIn;
  }

  /** A change that would be answered with the list is refused only if its save fails, and then as not persisted. */
  lemma ChangeFollowsSave(lib: Lib, env: Oracle, d: DState, req: Request, ext: Ext)
    requires Changes(req) && Handle(lib, env, d, req, HadItSaved(ext)).1.ServerList?
    ensures Handle(lib, env, d, req, ext).1.ServerList? || Handle(lib, env, d, req, ext).1 == Refused(NotPersisted)
  {
    hide Admit, RemoveIn, FindIn, ReadConf, ReadLive, InfoOf, Assembled, Edited, Trim, PublicKey, Supplied, ActiveKey;
    match req
    case AddServer(spec) =>
      AdmitFollowsSave(lib, d, Assembled(spec, Or(Supplied(spec.privateKey), ext.freshKey), spec.presharedKey), ext);
    case EditServer(spec) =>
      var existing := FindIn(d.servers, Trim(spec.name));
      AdmitFollowsSave(lib, d.(w := ReadLive(lib, env, d.w).0), Edited(spec, existing.value), ext);
    case ImportServer(name, conf) =>
      var spec := SpecOf(name, ReadConf(conf).value);
      AdmitFollowsSave(lib, d, Assembled(spec, Or(Supplied(spec.privateKey), ext.freshKey), spec.presharedKey), ext);
    case RemoveServer(_) =>
  }

  lemma SwitchFollowsSave(lib: Lib, env: Oracle, d: DState, name: string, ext: Ext)
    requires Handle(lib, env, d, SwitchServer(name), HadItSaved(ext)).1.Switched?
    ensures var d0 := Handle(lib, env, d, SwitchServer(name), HadItSaved(ext)).0;
            var d' := Handle(lib, env, d, SwitchServer(name), ext).0;
            && d'.servers == d0.servers
            && (d0.servers != d.servers ==> d'.disk == if ext.save.FailedKept? then d.disk else d'.servers)
            && (d0.servers == d.servers ==> SameConfig(d, d0))
  {
    hide SwitchTo, FindIn, UpsertIn;
    var s := FindIn(d.servers, name).value;
    var addr := lib.showSocket(SwitchTo(lib, env, d.w, s, ext.answer).1.value);
    UpsertLookup(d.servers, s.(resolvedEndpoint := Some(addr)), name);
  }

  /** When a request gets to its save, memory holds what it wanted however the save goes, and the file is as the outcome
      says; when it does not, neither changes. */
  lemma AttemptSettles(lib: Lib, env: Oracle, d: DState, req: Request, ext: Ext)
    ensures var attempted := Attempted(lib, env, d, req, ext);
            var d' := Handle(lib, env, d, req, ext).0;
            && (attempted.Some? ==> && Config(d'.servers) == attempted.value
                                    && d'.disk == if ext.save.FailedKept? then d.disk else d'.servers)
            && (attempted.None? ==> SameConfig(d, Handle(lib, env, d, req, HadItSaved(ext)).0))
  {
    hide Handle;
    if Changes(req) {
      ChangeOutcome(lib, env, d, req, ext);
      ChangeOutcome(lib, env, d, req, HadItSaved(ext));
      if Handle(lib, env, d, req, HadItSaved(ext)).1.ServerList? {
        ChangeFollowsSave(lib, env, d, req, ext);
      }
    } else {
      OthersKeepConfig(lib, env, d, req, HadItSaved(ext));
      if Handle(lib, env, d, req, HadItSaved(ext)).1.Switched? {
        SwitchFollowsSave(lib, env, d, req.name, ext);
      }
    }
  }

  // --- the invariant -----------------------------------------------------------

  /** The file loads to what the daemon takes it to hold; whatever a loss of power may bring back, memory once held; and
      all of that is valid. */
  ghost predicate Sane(lib: Lib, m: Medium, h: Machine) {
    && S.Sound(m.codec, h.disk.fs, h.held) && S.Load(m.codec, h.disk.fs) == Ok(Config(h.d.disk))
    && Config(h.d.servers) in h.held && Config(h.d.disk) in h.held
    && forall c :: c in h.held ==> AllProper(lib, c.servers)
  }

  lemma SaneIsValid(lib: Lib, m: Medium, h: Machine)
    requires Sane(lib, m, h)
    ensures Valid(lib, h.d)
  {
    hide AllProper;
    assert AllProper(lib, Config(h.d.servers).servers) && AllProper(lib, Config(h.d.disk).servers);
  }

  /** A save on the host's disk keeps what may come back within what memory held, the new configuration included. */
  lemma SaveStaysHeld(m: Medium, disk: S.FsWorld, held: set<Config>, cfg: Config)
    requires S.Sound(m.codec, disk.fs, held) && S.Faithful(m.codec)
    ensures var (after, ok) := S.Save(m.codec, m.hasParent, m.steps, disk, cfg);
            && S.Sound(m.codec, after.fs, held + {cfg})
            && (S.Load(m.codec, after.fs) == Ok(cfg) || (!ok && S.Load(m.codec, after.fs) == S.Load(m.codec, disk.fs)))
            && forall at: nat :: S.Sound(m.codec, S.StateAt(disk, after, at), held + {cfg})
  {
    hide S.Sound, S.Save, S.Load, S.Faithful;
    S.SaveKeeps(m.codec, m.hasParent, m.steps, disk, held, cfg);
    S.SaveIsVisible(m.codec, m.hasParent, m.steps, disk, held, cfg);
    S.SoundGrows(m.codec, disk.fs, held, cfg);
  }

  lemma ServeStaysSane(lib: Lib, m: Medium, env: Oracle, h: Machine, req: Request, ext: Ext)
    requires Sane(lib, m, h) && S.Faithful(m.codec) && PrintsParse(lib)
    ensures Sane(lib, m, Serve(lib, m, env, h, req, ext).0)
  {
    hide Handle, S.Sound, S.Save, S.Load, S.Faithful, AllProper, PrintsParse, Attempted;
    SaneIsValid(lib, m, h);
    var attempted := Attempted(lib, env, h.d, req, ext);
    var saving := Saving(lib, m, env, h, req, ext);
    SameAttempt(lib, env, h.d, req, ext, saving);
    AttemptSettles(lib, env, h.d, req, saving);
    if attempted.None? {
      assert HadItSaved(saving) == saving;
      assert Serve(lib, m, env, h, req, ext).0.held == h.held;
    } else {
      SaveStaysHeld(m, h.disk, h.held, attempted.value);
      HandleStaysProper(lib, env, h.d, req, saving);
    }
  }

  lemma SameAttempt(lib: Lib, env: Oracle, d: DState, req: Request, ext: Ext, gone: Ext)
    requires gone == ext.(save := gone.save)
    ensures Attempted(lib, env, d, req, gone) == Attempted(lib, env, d, req, ext)
  {
    hide Handle;
    assert HadItSaved(gone) == HadItSaved(ext);
  }

  lemma HandleStaysProper(lib: Lib, env: Oracle, d: DState, req: Request, ext: Ext)
    requires Valid(lib, d) && PrintsParse(lib)
    ensures AllProper(lib, Handle(lib, env, d, req, ext).0.servers)
  {
    hide Handle, AllProper, PrintsParse;
    NextKeeps(lib, env, d, Asked(req, ext));
  }

  lemma BootStaysSane(lib: Lib, m: Medium, h: Machine, fs: S.Fs, k: KState)
    requires S.Sound(m.codec, fs, h.held) && forall c :: c in h.held ==> AllProper(lib, c.servers)
    ensures Sane(lib, m, Boot(m.codec, h, fs, k))
  {
    hide S.Sound, AllProper;
    S.SoundLoads(m.codec, fs, h.held);
    var h' := Boot(m.codec, h, fs, k);
    assert Config(h'.d.servers) == S.Load(m.codec, fs).value;
    assert h'.held == h.held;
  }

  lemma HappenStaysSane(lib: Lib, m: Medium, env: Oracle, h: Machine, e: Happening)
    requires Sane(lib, m, h) && S.Faithful(m.codec) && PrintsParse(lib)
    ensures Sane(lib, m, Happen(lib, m, env, h, e))
  {
    hide Serve, S.Sound, S.Save, S.Load, S.Recovered, S.Faithful, AllProper, PrintsParse, Attempted, Handle;
    match e
    case Request(req, ext) => ServeStaysSane(lib, m, env, h, req, ext);
    case Restart => BootStaysSane(lib, m, h, h.disk.fs, h.d.w.k);
    case PowerLoss(r, k) =>
      S.OutageKeeps(m.codec, h.disk.fs, h.held, r);
      BootStaysSane(lib, m, h, S.Recovered(h.disk.fs, r), k);
    case PowerLossDuring(req, ext, at, r, k) =>
      var mid := MidSave(lib, m, env, h, req, ext, at);
      MidSaveIsSound(lib, m, env, h, req, ext, at);
      S.OutageKeeps(m.codec, mid.disk.fs, mid.held, r);
      BootStaysSane(lib, m, mid, S.Recovered(mid.disk.fs, r), k);
  }

  lemma MidSaveIsSound(lib: Lib, m: Medium, env: Oracle, h: Machine, req: Request, ext: Ext, at: nat)
    requires Sane(lib, m, h) && S.Faithful(m.codec) && PrintsParse(lib)
    ensures var mid := MidSave(lib, m, env, h, req, ext, at);
            S.Sound(m.codec, mid.disk.fs, mid.held) && forall c :: c in mid.held ==> AllProper(lib, c.servers)
  {
    hide S.Sound, S.Save, S.Load, S.Faithful, AllProper, PrintsParse, Handle;
    SaneIsValid(lib, m, h);
    var attempted := Attempted(lib, env, h.d, req, ext);
    if attempted.Some? {
      SaveStaysHeld(m, h.disk, h.held, attempted.value);
      HandleStaysProper(lib, env, h.d, req, HadItSaved(ext));
    }
  }

  lemma {:induction false} RunStaysSane(lib: Lib, m: Medium, env: Oracle, h: Machine, events: seq<Happening>, n: nat)
    requires Sane(lib, m, h) && S.Faithful(m.codec) && PrintsParse(lib) && n <= |events|
    ensures Sane(lib, m, HostAt(lib, m, env, h, events, n))
    decreases n
  {
    hide Sane, Happen, S.Faithful, PrintsParse;
    if n > 0 {
      RunStaysSane(lib, m, env, h, events, n - 1);
      HappenStaysSane(lib, m, env, HostAt(lib, m, env, h, events, n - 1), events[n - 1]);
    }
  }

  // --- from a fresh install ----------------------------------------------------

  /** Nothing stored, with or without the directory. */
  function Fresh(w: World, present: bool, anchored: bool): Machine {
    Machine(DState([], [], None, w), S.FsWorld(S.Fs(map[], [map[]], 0, present, anchored), 0, []), {S.EMPTY})
  }

  lemma FreshIsSane(lib: Lib, m: Medium, w: World, present: bool, anchored: bool)
    ensures Sane(lib, m, Fresh(w, present, anchored))
  {
    hide S.Sound, S.Load;
    S.FreshIsSound(m.codec, present, anchored);
    assert AllProper(lib, []);
  }

  /** The daemon was in the middle of saving this when power went. */
  function Interrupted(lib: Lib, env: Oracle, h: Machine, e: Happening): Option<Config> {
    if e.PowerLossDuring? then Attempted(lib, env, h.d, e.req, e.ext) else None
  }

  /** Memory held `c` at some moment up to `n`: between two happenings, or during a save that lost power. */
  ghost predicate WasHeld(lib: Lib, m: Medium, env: Oracle, h: Machine, events: seq<Happening>, n: nat, c: Config)
    requires n <= |events|
  {
    || (exists j :: 0 <= j <= n && c == Config(HostAt(lib, m, env, h, events, j).d.servers))
    || (exists j :: 0 <= j < n && Interrupted(lib, env, HostAt(lib, m, env, h, events, j), events[j]) == Some(c))
  }

  lemma {:induction false} HeldMeansHeld(lib: Lib, m: Medium, env: Oracle, h: Machine, events: seq<Happening>, n: nat,
                                         c: Config)
    requires n <= |events| && h.held == {Config(h.d.servers)} && c in HostAt(lib, m, env, h, events, n).held
    ensures WasHeld(lib, m, env, h, events, n, c)
    decreases n
  {
    hide Happen, Interrupted;
    if n > 0 {
      var before := HostAt(lib, m, env, h, events, n - 1);
      HappenHolds(lib, m, env, before, events[n - 1], c);
      if c in before.held {
        HeldMeansHeld(lib, m, env, h, events, n - 1, c);
      } else if c == Config(Happen(lib, m, env, before, events[n - 1]).d.servers) {
        assert c == Config(HostAt(lib, m, env, h, events, n).d.servers);
      }
    } else {
      assert c == Config(HostAt(lib, m, env, h, events, 0).d.servers);
    }
  }

  lemma HappenHolds(lib: Lib, m: Medium, env: Oracle, h: Machine, e: Happening, c: Config)
    requires c in Happen(lib, m, env, h, e).held
    ensures c in h.held || c == Config(Happen(lib, m, env, h, e).d.servers) || Interrupted(lib, env, h, e) == Some(c)
  {
    hide Handle, S.Save, S.Load, S.Recovered, Attempted;
  }

  /** The daemon and its disk together, from a fresh install: after any requests, restarts and losses of power, those in
      the middle of a save included, whatever the next outage brings back loads, is a configuration that memory held at
      some moment, and is valid throughout. */
  lemma WhatLoadsWasHeld(lib: Lib, m: Medium, env: Oracle, w: World, present: bool, anchored: bool,
                         events: seq<Happening>, n: nat, r: S.Recovery)
    requires S.Faithful(m.codec) && PrintsParse(lib) && n <= |events|
    ensures var h := Fresh(w, present, anchored);
            var loaded := S.Load(m.codec, S.Recovered(HostAt(lib, m, env, h, events, n).disk.fs, r));
            && loaded.Ok? && AllProper(lib, loaded.value.servers)
            && WasHeld(lib, m, env, h, events, n, loaded.value)
  {
    hide S.Sound, S.Load, S.Recovered, S.Faithful, AllProper, PrintsParse, HostAt, WasHeld;
    var h := Fresh(w, present, anchored);
    FreshIsSane(lib, m, w, present, anchored);
    RunStaysSane(lib, m, env, h, events, n);
    var now := HostAt(lib, m, env, h, events, n);
    S.OutageKeeps(m.codec, now.disk.fs, now.held, r);
    HeldMeansHeld(lib, m, env, h, events, n, S.Load(m.codec, S.Recovered(now.disk.fs, r)).value);
  }

  // --- what an answer promises -------------------------------------------------

  /** The same machine, counting from now on. */
  function FromNow(h: Machine): Machine {
    h.(held := {Config(h.d.servers)})
  }

  /** A change that is answered with the list was saved, and on a directory that cannot vanish nothing older is left. */
  lemma AnsweredIsSaved(lib: Lib, m: Medium, env: Oracle, h: Machine, req: Request, ext: Ext)
    requires Sane(lib, m, h) && S.Faithful(m.codec) && PrintsParse(lib) && m.hasParent && S.Rooted(h.disk.fs)
    requires Changes(req) && Serve(lib, m, env, h, req, ext).1.ServerList?
    ensures Sane(lib, m, FromNow(Serve(lib, m, env, h, req, ext).0))
  {
    hide Handle, S.Sound, S.Save, S.Load, S.Faithful, AllProper, PrintsParse;
    ServeStaysSane(lib, m, env, h, req, ext);
    var saving := Saving(lib, m, env, h, req, ext);
    ChangeOutcome(lib, env, h.d, req, saving);
    SameAttempt(lib, env, h.d, req, ext, saving);
    AttemptSettles(lib, env, h.d, req, saving);
    var cfg := Attempted(lib, env, h.d, req, ext).value;
    S.SaveKeeps(m.codec, m.hasParent, m.steps, h.disk, h.held, cfg);
  }

  /** An answer outlives the power: once a change is answered with the list, on a directory that cannot vanish, what
      loads after any later requests, restarts and losses of power is what memory held at the answer or later. */
  lemma AnsweredIsKept(lib: Lib, m: Medium, env: Oracle, h: Machine, req: Request, ext: Ext, events: seq<Happening>,
                       n: nat, r: S.Recovery)
    requires Sane(lib, m, h) && S.Faithful(m.codec) && PrintsParse(lib) && m.hasParent && S.Rooted(h.disk.fs)
    requires Changes(req) && Serve(lib, m, env, h, req, ext).1.ServerList? && n <= |events|
    ensures var after := FromNow(Serve(lib, m, env, h, req, ext).0);
            var loaded := S.Load(m.codec, S.Recovered(HostAt(lib, m, env, after, events, n).disk.fs, r));
            loaded.Ok? && WasHeld(lib, m, env, after, events, n, loaded.value)
  {
    hide Serve, S.Sound, S.Load, S.Recovered, S.Faithful, AllProper, PrintsParse, HostAt, WasHeld, S.Rooted;
    var after := FromNow(Serve(lib, m, env, h, req, ext).0);
    AnsweredIsSaved(lib, m, env, h, req, ext);
    RunStaysSane(lib, m, env, after, events, n);
    var now := HostAt(lib, m, env, after, events, n);
    S.OutageKeeps(m.codec, now.disk.fs, now.held, r);
    HeldMeansHeld(lib, m, env, after, events, n, S.Load(m.codec, S.Recovered(now.disk.fs, r)).value);
  }
}
