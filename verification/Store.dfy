/** The state file: the steps of a save over a file system that can lose power after any of them. */
module Store {
  import opened Basics
  import opened Config

  /** Serialisation, of which only the round trip matters. */
  datatype Codec = Codec(encode: Config -> string, decode: string -> Option<Config>)

  ghost predicate Faithful(codec: Codec) {
    forall c :: codec.decode(codec.encode(c)) == Some(c)
  }

  const EMPTY := Config([])

  // --- the file system ---------------------------------------------------------

  datatype Name = Target | Temp

  /** A file's contents, and whether they are on the medium. Unsynced contents may come back as anything. */
  datatype File = File(content: string, synced: bool)

  type Dir = map<Name, nat>

  /** `dirs` holds every version of the directory that may be on the medium; the last one is in use.
      `present`: the directory exists. `anchored`: its own entry in its parent is on the medium. */
  datatype Fs = Fs(files: map<nat, File>, dirs: seq<Dir>, next: nat, present: bool, anchored: bool)

  function Current(fs: Fs): Dir {
    if fs.dirs == [] then map[] else fs.dirs[|fs.dirs| - 1]
  }

  /** What a loss of power brings back: a version of the directory, contents for unsynced files, and
      whether an unanchored directory is there at all. */
  datatype Recovery = Recovery(version: nat, contents: nat -> string, vanished: bool)

  function Recovered(fs: Fs, r: Recovery): Fs {
    var files := map i | i in fs.files :: File(if fs.files[i].synced then fs.files[i].content else r.contents(i), true);
    if !fs.present || (!fs.anchored && r.vanished) then Fs(files, [map[]], fs.next, false, false)
    else Fs(files, [if r.version < |fs.dirs| then fs.dirs[r.version] else Current(fs)], fs.next, true, true)
  }

  /** A missing file is a fresh install. */
  function Load(codec: Codec, fs: Fs): Result<Config, Error> {
    var dir := Current(fs);
    if !fs.present || Target !in dir || dir[Target] !in fs.files then Ok(EMPTY)
    else
      match codec.decode(fs.files[dir[Target]].content)
      case Some(c) => Ok(c)
      case None => Err(NotPersisted)
  }

  // --- the steps of a save -----------------------------------------------------

  datatype SysOp = MakeDir | OpenTruncate | WriteAll(text: string) | SyncFile | Rename | SyncDir

  /** How a step goes: whether it succeeds, and how much a failed write had written. */
  datatype SysOutcome = SysOutcome(ok: bool, written: nat)

  type SysOracle = nat -> SysOutcome

  function SysEffect(fs: Fs, op: SysOp, o: SysOutcome): (Fs, bool) {
    var dir := Current(fs);
    match op
    case MakeDir =>
      if fs.present then (fs, o.ok)
      else if o.ok then (Fs(fs.files, [map[]], fs.next, true, false), true)
      else (fs, false)
    case OpenTruncate =>
      if !o.ok || !fs.present then (fs, false)
      else if Temp in dir then (fs.(files := fs.files[dir[Temp] := File([], false)]), true)
      else (fs.(files := fs.files[fs.next := File([], false)], dirs := fs.dirs + [dir[Temp := fs.next]],
                next := fs.next + 1), true)
    case WriteAll(text) =>
      if Temp !in dir then (fs, false)
      else if o.ok then (fs.(files := fs.files[dir[Temp] := File(text, false)]), true)
      else
        var n := if o.written <= |text| then o.written else |text|;
        (fs.(files := fs.files[dir[Temp] := File(text[..n], false)]), false)
    case SyncFile =>
      if !o.ok || Temp !in dir || dir[Temp] !in fs.files then (fs, false)
      else (fs.(files := fs.files[dir[Temp] := fs.files[dir[Temp]].(synced := true)]), true)
    case Rename =>
      if !o.ok || Temp !in dir then (fs, false)
      else (fs.(dirs := fs.dirs + [(dir - {Temp})[Target := dir[Temp]]]), true)
    case SyncDir =>
      if !o.ok then (fs, false) else (fs.(dirs := [dir]), true)
  }

  datatype FsWorld = FsWorld(fs: Fs, clock: nat, trace: seq<Fs>)

  function SysStep(env: SysOracle, w: FsWorld, op: SysOp): (FsWorld, bool) {
    var (fs, ok) := SysEffect(w.fs, op, env(w.clock));
    (FsWorld(fs, w.clock + 1, w.trace + [fs]), ok)
  }

  /** Steps in order, up to and including the first that fails. */
  function RunOps(env: SysOracle, w: FsWorld, ops: seq<SysOp>): (FsWorld, bool)
    decreases ops
  {
    if ops == [] then (w, true)
    else
      var (w', ok) := SysStep(env, w, ops[0]);
      if !ok then (w', false) else RunOps(env, w', ops[1..])
  }

  /** `write_private`. */
  function WriteOps(text: string): seq<SysOp> {
    [OpenTruncate, WriteAll(text), SyncFile]
  }

  /** The steps around the directory are skipped for a path without one (`hasParent` false). */
  function SaveOps(hasParent: bool, text: string): seq<SysOp> {
    (if hasParent then [MakeDir] else []) + (WriteOps(text) + ([Rename] + if hasParent then [SyncDir] else []))
  }

  function Save(codec: Codec, hasParent: bool, env: SysOracle, w: FsWorld, cfg: Config): (FsWorld, bool) {
    RunOps(env, w, SaveOps(hasParent, codec.encode(cfg)))
  }

  /** The file system as an object whose operations change it. */
  class Disk {
    const env: SysOracle
    var fs: Fs
    var clock: nat
    ghost var trace: seq<Fs>

    ghost function Now(): FsWorld
      reads this
    {
      FsWorld(fs, clock, trace)
    }

    constructor (env: SysOracle, fs: Fs)
      ensures this.env == env && Now() == FsWorld(fs, 0, [])
    {
      this.env := env;
      this.fs := fs;
      clock := 0;
      trace := [];
    }

    method Do(op: SysOp) returns (ok: bool)
      modifies this
      ensures (Now(), ok) == SysStep(env, old(Now()), op)
    {
      var (next, done) := SysEffect(fs, op, env(clock));
      fs := next;
      clock := clock + 1;
      ok := done;
      trace := trace + [next];
    }
  }

  /** `Store`: saving as the code does it, step by step. */
  class StateFile {
    const codec: Codec
    const hasParent: bool
    const disk: Disk

    constructor (codec: Codec, hasParent: bool, disk: Disk)
      ensures this.codec == codec && this.hasParent == hasParent && this.disk == disk
    {
      this.codec := codec;
      this.hasParent := hasParent;
      this.disk := disk;
    }

    method WritePrivate(text: string) returns (ok: bool)
      modifies disk
      ensures (disk.Now(), ok) == RunOps(disk.env, old(disk.Now()), WriteOps(text))
    {
      hide SysEffect;
      ghost var tail := [WriteAll(text), SyncFile];
      var created := disk.Do(OpenTruncate);
      assert WriteOps(text)[0] == OpenTruncate && WriteOps(text)[1..] == tail;
      if !created {
        return false;
      }
      assert RunOps(disk.env, old(disk.Now()), WriteOps(text)) == RunOps(disk.env, disk.Now(), tail);
      ghost var w1 := disk.Now();
      var written := disk.Do(WriteAll(text));
      assert tail[0] == WriteAll(text) && tail[1..] == [SyncFile];
      if !written {
        return false;
      }
      assert RunOps(disk.env, w1, tail) == RunOps(disk.env, disk.Now(), [SyncFile]);
      ghost var w2 := disk.Now();
      ok := disk.Do(SyncFile);
      assert [SyncFile][1..] == [];
      assert RunOps(disk.env, w2, [SyncFile]) == (disk.Now(), ok);
    }

    method SaveConfig(cfg: Config) returns (ok: bool)
      modifies disk
      ensures (disk.Now(), ok) == Save(codec, hasParent, disk.env, old(disk.Now()), cfg)
    {
      hide SysEffect, WriteOps;
      ghost var text := codec.encode(cfg);
      ghost var rest := [Rename] + if hasParent then [SyncDir] else [];
      if hasParent {
        var made := disk.Do(MakeDir);
        assert ([MakeDir] + (WriteOps(text) + rest))[1..] == WriteOps(text) + rest;
        if !made {
          return false;
        }
      } else {
        assert [] + (WriteOps(text) + rest) == WriteOps(text) + rest;
      }
      ghost var w1 := disk.Now();
      var written := WritePrivate(codec.encode(cfg));
      RunOpsAppend(disk.env, w1, WriteOps(text), rest);
      if !written {
        return false;
      }
      ghost var w2 := disk.Now();
      var renamed := disk.Do(Rename);
      assert rest[1..] == if hasParent then [SyncDir] else [];
      if !renamed {
        return false;
      }
      if hasParent {
        ok := disk.Do(SyncDir);
        assert [SyncDir][1..] == [];
      } else {
        ok := true;
      }
    }
  }

  lemma {:induction false} RunOpsAppend(env: SysOracle, w: FsWorld, a: seq<SysOp>, b: seq<SysOp>)
    ensures RunOps(env, w, a + b) ==
            (var (w', ok) := RunOps(env, w, a); if ok then RunOps(env, w', b) else (w', false))
    decreases a
  {
    hide SysEffect;
    if a == [] {
      assert a + b == b;
    } else {
      assert (a + b)[0] == a[0] && (a + b)[1..] == a[1..] + b;
      var (w', ok) := SysStep(env, w, a[0]);
      if ok {
        RunOpsAppend(env, w', a[1..], b);
      }
    }
  }

  // --- what is kept ------------------------------------------------------------

  /** Every version of the directory that may come back names a complete, synced configuration out of
      `configs`, or none when a fresh install is among them; and the temporary file is nobody's target. */
  ghost predicate Sound(codec: Codec, fs: Fs, configs: set<Config>) {
    && fs.dirs != []
    && (forall i :: i in fs.files ==> i < fs.next)
    && (forall d, n :: d in fs.dirs && n in d ==> d[n] in fs.files)
    && (forall d :: d in fs.dirs && Target in d ==>
          var f := fs.files[d[Target]];
          f.synced && codec.decode(f.content).Some? && codec.decode(f.content).value in configs)
    && (forall d :: d in fs.dirs && Target !in d ==> EMPTY in configs)
    && (forall d :: d in fs.dirs && Temp in d && Target in d ==> d[Temp] != d[Target])
    && (forall d :: d in fs.dirs && Temp in Current(fs) && Target in d ==> d[Target] != Current(fs)[Temp])
    && (!fs.present || !fs.anchored ==> EMPTY in configs)
    && (!fs.present ==> fs.dirs == [map[]])
  }

  /** A machine without a state file, with or without its directory: an empty configuration. */
  lemma FreshIsSound(codec: Codec, present: bool, anchored: bool)
    ensures var fs := Fs(map[], [map[]], 0, present, anchored);
            Sound(codec, fs, {EMPTY}) && Load(codec, fs) == Ok(EMPTY)
  {
  }

  /** Whatever comes back after a loss of power loads, and is one of the configurations; and recovery is
      itself a sound state that holds exactly that one. */
  lemma RecoveryLoads(codec: Codec, fs: Fs, configs: set<Config>, r: Recovery)
    requires Sound(codec, fs, configs)
    ensures var after := Recovered(fs, r);
            var loaded := Load(codec, after);
            loaded.Ok? && loaded.value in configs && Sound(codec, after, {loaded.value})
  {
    var after := Recovered(fs, r);
    var d := Current(after);
    if fs.present && !(!fs.anchored && r.vanished) {
      assert d in fs.dirs;
    }
  }

  /** With power on, too, what loads is one of the configurations. */
  lemma SoundLoads(codec: Codec, fs: Fs, configs: set<Config>)
    requires Sound(codec, fs, configs)
    ensures Load(codec, fs).Ok? && Load(codec, fs).value in configs
  {
    assert Current(fs) in fs.dirs;
  }

  lemma CurrentIsLast(fs: Fs, d: Dir)
    requires fs.dirs != []
    ensures Current(fs.(dirs := fs.dirs + [d])) == d
    ensures forall e :: e in fs.dirs + [d] <==> e in fs.dirs || e == d
    ensures Current(fs) in fs.dirs
  {
  }

  lemma MakeDirKeeps(codec: Codec, fs: Fs, configs: set<Config>, o: SysOutcome)
    requires Sound(codec, fs, configs)
    ensures Sound(codec, SysEffect(fs, MakeDir, o).0, configs)
  {
  }

  lemma OpenKeeps(codec: Codec, fs: Fs, configs: set<Config>, o: SysOutcome)
    requires Sound(codec, fs, configs)
    ensures Sound(codec, SysEffect(fs, OpenTruncate, o).0, configs)
  {
    var dir := Current(fs);
    assert dir in fs.dirs;
    if o.ok && fs.present && Temp !in dir {
      var d := dir[Temp := fs.next];
      CurrentIsLast(fs, d);
      assert fs.next !in fs.files;
      assert Target in d ==> d[Target] == dir[Target];
    }
  }

  /** Filling or syncing the temporary file touches no file that may be loaded. */
  lemma FillKeeps(codec: Codec, fs: Fs, configs: set<Config>, f: File)
    requires Sound(codec, fs, configs) && Temp in Current(fs)
    ensures Sound(codec, fs.(files := fs.files[Current(fs)[Temp] := f]), configs)
  {
    assert Current(fs) in fs.dirs;
  }

  /** The steps before the rename leave what may be loaded as it was, done or failed. */
  lemma PrepareKeeps(codec: Codec, fs: Fs, configs: set<Config>, op: SysOp, o: SysOutcome)
    requires Sound(codec, fs, configs)
    requires op.MakeDir? || op.OpenTruncate? || op.WriteAll? || op.SyncFile?
    ensures Sound(codec, SysEffect(fs, op, o).0, configs)
  {
    hide Sound;
    match op
    case MakeDir => MakeDirKeeps(codec, fs, configs, o);
    case OpenTruncate => OpenKeeps(codec, fs, configs, o);
    case WriteAll(text) =>
      if Temp in Current(fs) {
        FillKeeps(codec, fs, configs,
                  File(if o.ok then text else text[..if o.written <= |text| then o.written else |text|], false));
      }
    case SyncFile =>
      if Temp in Current(fs) && Current(fs)[Temp] in fs.files {
        FillKeeps(codec, fs, configs, fs.files[Current(fs)[Temp]].(synced := true));
      }
  }

  /** The rename of a complete, synced file adds the new configuration to what may be loaded, all at once. */
  lemma RenameKeeps(codec: Codec, fs: Fs, configs: set<Config>, cfg: Config, o: SysOutcome)
    requires Sound(codec, fs, configs) && Faithful(codec)
    requires Temp in Current(fs) && fs.files[Current(fs)[Temp]] == File(codec.encode(cfg), true)
    ensures var (fs', ok) := SysEffect(fs, Rename, o);
            && Sound(codec, fs', if ok then configs + {cfg} else configs)
            && (ok ==> Target in Current(fs') && fs'.files[Current(fs')[Target]] == File(codec.encode(cfg), true))
            && fs'.present == fs.present && fs'.anchored == fs.anchored
  {
    var dir := Current(fs);
    assert dir in fs.dirs;
    var d := (dir - {Temp})[Target := dir[Temp]];
    CurrentIsLast(fs, d);
    assert codec.decode(codec.encode(cfg)) == Some(cfg);
    assert Temp !in d;
  }

  /** Syncing the directory leaves only the version in use: the new configuration alone, provided the
      directory itself cannot vanish. */
  lemma SyncDirKeeps(codec: Codec, fs: Fs, configs: set<Config>, cfg: Config, o: SysOutcome)
    requires Sound(codec, fs, configs) && Faithful(codec)
    requires Target in Current(fs) && fs.files[Current(fs)[Target]] == File(codec.encode(cfg), true)
    ensures var (fs', ok) := SysEffect(fs, SyncDir, o);
            && Sound(codec, fs', configs)
            && (ok && fs.present && fs.anchored ==> Sound(codec, fs', {cfg}))
            && (ok && !(fs.present && fs.anchored) ==> Sound(codec, fs', {cfg, EMPTY}))
            && (ok ==> fs'.dirs == [Current(fs)]) && fs'.present == fs.present && fs'.anchored == fs.anchored
  {
    assert Current(fs) in fs.dirs;
    assert codec.decode(codec.encode(cfg)) == Some(cfg);
  }

  // --- a whole save ------------------------------------------------------------

  /** Every state the save passed through so far, and the one it is in, is sound. */
  ghost predicate SoundSince(codec: Codec, n: nat, w: FsWorld, configs: set<Config>) {
    && Sound(codec, w.fs, configs)
    && n <= |w.trace|
    && forall i :: n <= i < |w.trace| ==> Sound(codec, w.trace[i], configs)
  }

  lemma PrepareSince(codec: Codec, env: SysOracle, n: nat, w: FsWorld, configs: set<Config>, op: SysOp)
    requires SoundSince(codec, n, w, configs)
    requires op.MakeDir? || op.OpenTruncate? || op.WriteAll? || op.SyncFile?
    ensures SoundSince(codec, n, SysStep(env, w, op).0, configs)
  {
    hide SysEffect, Sound;
    PrepareKeeps(codec, w.fs, configs, op, env(w.clock));
  }

  /** Writing the temporary file: what may be loaded does not change, and on success it is complete and synced. */
  lemma WriteKeeps(codec: Codec, env: SysOracle, n: nat, w: FsWorld, configs: set<Config>, text: string)
    requires SoundSince(codec, n, w, configs)
    ensures var (w', ok) := RunOps(env, w, WriteOps(text));
            && SoundSince(codec, n, w', configs)
            && w'.fs.present == w.fs.present && w'.fs.anchored == w.fs.anchored
            && (ok ==> w.fs.present && Temp in Current(w'.fs) && Current(w'.fs)[Temp] in w'.fs.files &&
                       w'.fs.files[Current(w'.fs)[Temp]] == File(text, true))
  {
    hide Sound;
    var ops := WriteOps(text);
    var (w1, ok1) := SysStep(env, w, OpenTruncate);
    PrepareSince(codec, env, n, w, configs, OpenTruncate);
    assert ops[0] == OpenTruncate && ops[1..] == [WriteAll(text), SyncFile];
    if ok1 {
      var (w2, ok2) := SysStep(env, w1, WriteAll(text));
      PrepareSince(codec, env, n, w1, configs, WriteAll(text));
      assert [WriteAll(text), SyncFile][1..] == [SyncFile];
      assert RunOps(env, w, ops) == RunOps(env, w1, [WriteAll(text), SyncFile]);
      if ok2 {
        PrepareSince(codec, env, n, w2, configs, SyncFile);
        assert RunOps(env, w1, [WriteAll(text), SyncFile]) == RunOps(env, w2, [SyncFile]);
        assert [SyncFile][1..] == [];
      }
    }
  }

  lemma {:induction false} SoundMore(codec: Codec, n: nat, w: FsWorld, configs: set<Config>, cfg: Config)
    requires SoundSince(codec, n, w, configs)
    ensures SoundSince(codec, n, w, configs + {cfg})
  {
    forall i | n <= i < |w.trace| ensures Sound(codec, w.trace[i], configs + {cfg}) {
      SoundGrows(codec, w.trace[i], configs, cfg);
    }
    SoundGrows(codec, w.fs, configs, cfg);
  }

  lemma SoundGrows(codec: Codec, fs: Fs, configs: set<Config>, cfg: Config)
    requires Sound(codec, fs, configs)
    ensures Sound(codec, fs, configs + {cfg})
  {
  }

  /** What may be loaded once a save has answered. */
  function Answered(hasParent: bool, fs: Fs, ok: bool, configs: set<Config>, cfg: Config): set<Config> {
    if !ok || !hasParent then configs + {cfg}
    else if fs.present && fs.anchored then {cfg}
    else {cfg, EMPTY}
  }

  /** The rename and what follows it. */
  lemma CommitKeeps(codec: Codec, hasParent: bool, env: SysOracle, n: nat, w: FsWorld, configs: set<Config>,
                    cfg: Config)
    requires SoundSince(codec, n, w, configs) && Faithful(codec)
    requires Temp in Current(w.fs) && Current(w.fs)[Temp] in w.fs.files && w.fs.present
    requires w.fs.files[Current(w.fs)[Temp]] == File(codec.encode(cfg), true)
    ensures var (w', ok) := RunOps(env, w, [Rename] + if hasParent then [SyncDir] else []);
            && SoundSince(codec, n, w', configs + {cfg})
            && (ok ==> Sound(codec, w'.fs, Answered(hasParent, w.fs, true, configs, cfg)))
            && w'.fs.present == w.fs.present && w'.fs.anchored == w.fs.anchored
  {
    hide Sound, SysEffect, Faithful;
    var ops := [Rename] + if hasParent then [SyncDir] else [];
    var (w1, ok1) := SysStep(env, w, Rename);
    SoundMore(codec, n, w, configs, cfg);
    RenameKeeps(codec, w.fs, configs, cfg, env(w.clock));
    if !ok1 {
      SoundGrows(codec, w1.fs, configs, cfg);
    }
    assert SoundSince(codec, n, w1, configs + {cfg});
    assert ops[0] == Rename && ops[1..] == if hasParent then [SyncDir] else [];
    if ok1 && hasParent {
      SyncDirKeeps(codec, w1.fs, configs + {cfg}, cfg, env(w1.clock));
      assert [SyncDir][1..] == [];
    }
  }

  /** A save, all of it: every state on the way may only bring back what could come back before or the new
      configuration, and its answer Ok settles it. */
  lemma SaveKeeps(codec: Codec, hasParent: bool, env: SysOracle, w: FsWorld, configs: set<Config>, cfg: Config)
    requires Sound(codec, w.fs, configs) && Faithful(codec)
    ensures var (w', ok) := Save(codec, hasParent, env, w, cfg);
            && SoundSince(codec, |w.trace|, w', configs + {cfg})
            && Sound(codec, w'.fs, Answered(hasParent, w.fs, ok, configs, cfg))
            && (ok ==> w'.fs.present && w'.fs.anchored == (w.fs.present && w.fs.anchored))
  {
    hide Sound, Faithful, WriteOps;
    var n := |w.trace|;
    var text := codec.encode(cfg);
    var rest := [Rename] + if hasParent then [SyncDir] else [];
    var ops := SaveOps(hasParent, text);
    var w0 := w;
    if hasParent {
      var (w1, made) := SysStep(env, w, MakeDir);
      PrepareSince(codec, env, n, w, configs, MakeDir);
      SoundMore(codec, n, w1, configs, cfg);
      assert ops[0] == MakeDir && ops[1..] == WriteOps(text) + rest;
      if !made {
        return;
      }
      w0 := w1;
      assert RunOps(env, w, ops) == RunOps(env, w0, WriteOps(text) + rest);
    } else {
      assert ops == WriteOps(text) + rest;
    }
    WriteKeeps(codec, env, n, w0, configs, text);
    RunOpsAppend(env, w0, WriteOps(text), rest);
    var (w2, written) := RunOps(env, w0, WriteOps(text));
    SoundMore(codec, n, w2, configs, cfg);
    if written {
      CommitKeeps(codec, hasParent, env, n, w2, configs, cfg);
    }
  }

  // --- what a running daemon sees -----------------------------------------------

  /** None of these steps changes what loads while the power stays on. */
  lemma QuietStep(codec: Codec, fs: Fs, configs: set<Config>, op: SysOp, o: SysOutcome)
    requires Sound(codec, fs, configs) && !op.Rename?
    ensures Load(codec, SysEffect(fs, op, o).0) == Load(codec, fs)
  {
    assert Current(fs) in fs.dirs;
  }

  lemma QuietWrite(codec: Codec, env: SysOracle, w: FsWorld, configs: set<Config>, text: string)
    requires Sound(codec, w.fs, configs)
    ensures Load(codec, RunOps(env, w, WriteOps(text)).0.fs) == Load(codec, w.fs)
  {
    hide Sound, SysEffect, Load;
    var ops := WriteOps(text);
    var (w1, ok1) := SysStep(env, w, OpenTruncate);
    QuietStep(codec, w.fs, configs, OpenTruncate, env(w.clock));
    PrepareKeeps(codec, w.fs, configs, OpenTruncate, env(w.clock));
    assert ops[0] == OpenTruncate && ops[1..] == [WriteAll(text), SyncFile];
    if ok1 {
      var (w2, ok2) := SysStep(env, w1, WriteAll(text));
      QuietStep(codec, w1.fs, configs, WriteAll(text), env(w1.clock));
      PrepareKeeps(codec, w1.fs, configs, WriteAll(text), env(w1.clock));
      assert [WriteAll(text), SyncFile][1..] == [SyncFile];
      assert RunOps(env, w, ops) == RunOps(env, w1, [WriteAll(text), SyncFile]);
      if ok2 {
        QuietStep(codec, w2.fs, configs, SyncFile, env(w2.clock));
        assert RunOps(env, w1, [WriteAll(text), SyncFile]) == RunOps(env, w2, [SyncFile]);
        assert [SyncFile][1..] == [];
      }
    }
  }

  lemma CommitIsVisible(codec: Codec, hasParent: bool, env: SysOracle, w: FsWorld, configs: set<Config>, cfg: Config)
    requires Sound(codec, w.fs, configs) && Faithful(codec)
    requires Temp in Current(w.fs) && Current(w.fs)[Temp] in w.fs.files && w.fs.present
    requires w.fs.files[Current(w.fs)[Temp]] == File(codec.encode(cfg), true)
    ensures var (w', ok) := RunOps(env, w, [Rename] + if hasParent then [SyncDir] else []);
            Load(codec, w'.fs) == Ok(cfg) || (!ok && Load(codec, w'.fs) == Load(codec, w.fs))
  {
    hide Sound, Faithful;
    var ops := [Rename] + if hasParent then [SyncDir] else [];
    var (w1, ok1) := SysStep(env, w, Rename);
    RenameKeeps(codec, w.fs, configs, cfg, env(w.clock));
    assert ops[0] == Rename && ops[1..] == if hasParent then [SyncDir] else [];
    assert ok1 ==> Load(codec, w1.fs) == Ok(cfg) by {
      assert codec.decode(codec.encode(cfg)) == Some(cfg) by {
        DecodesWhatItEncodes(codec, cfg);
      }
    }
    if ok1 && hasParent {
      QuietStep(codec, w1.fs, configs + {cfg}, SyncDir, env(w1.clock));
      assert [SyncDir][1..] == [];
    }
  }

  lemma DecodesWhatItEncodes(codec: Codec, cfg: Config)
    requires Faithful(codec)
    ensures codec.decode(codec.encode(cfg)) == Some(cfg)
  {
  }

  /** While the power stays on, a save that answered Ok is what loads next, and one that failed left either what was
      there or, if it failed after the rename, the new configuration: the three outcomes the daemon is modelled with. */
  lemma SaveIsVisible(codec: Codec, hasParent: bool, env: SysOracle, w: FsWorld, configs: set<Config>, cfg: Config)
    requires Sound(codec, w.fs, configs) && Faithful(codec)
    ensures var (w', ok) := Save(codec, hasParent, env, w, cfg);
            Load(codec, w'.fs) == Ok(cfg) || (!ok && Load(codec, w'.fs) == Load(codec, w.fs))
  {
    hide Sound, Faithful, WriteOps, Load, SysEffect;
    var text := codec.encode(cfg);
    var rest := [Rename] + if hasParent then [SyncDir] else [];
    var ops := SaveOps(hasParent, text);
    var w0 := w;
    if hasParent {
      var (w1, made) := SysStep(env, w, MakeDir);
      QuietStep(codec, w.fs, configs, MakeDir, env(w.clock));
      PrepareKeeps(codec, w.fs, configs, MakeDir, env(w.clock));
      assert ops[0] == MakeDir && ops[1..] == WriteOps(text) + rest;
      if !made {
        return;
      }
      w0 := w1;
      assert RunOps(env, w, ops) == RunOps(env, w0, WriteOps(text) + rest);
    } else {
      assert ops == WriteOps(text) + rest;
    }
    WriteKeeps(codec, env, |w0.trace|, w0, configs, text);
    QuietWrite(codec, env, w0, configs, text);
    RunOpsAppend(env, w0, WriteOps(text), rest);
    var (w2, written) := RunOps(env, w0, WriteOps(text));
    if written {
      CommitIsVisible(codec, hasParent, env, w2, configs, cfg);
    }
  }

  // --- lives -------------------------------------------------------------------

  /** A save that runs to its answer, a save cut short by a loss of power after `at` of its steps, or a loss of power
      while nothing is being saved. */
  datatype Life =
    | Saving(cfg: Config)
    | Cut(cfg: Config, at: nat, r: Recovery)
    | Outage(r: Recovery)

  function StateAt(w: FsWorld, w': FsWorld, at: nat): Fs {
    if |w'.trace| <= |w.trace| || at == 0 then w.fs
    else w'.trace[if |w.trace| + at <= |w'.trace| then |w.trace| + at - 1 else |w'.trace| - 1]
  }

  function Live(codec: Codec, hasParent: bool, env: SysOracle, w: FsWorld, life: Life): FsWorld {
    match life
    case Saving(cfg) => Save(codec, hasParent, env, w, cfg).0
    case Cut(cfg, at, r) =>
      var w' := Save(codec, hasParent, env, w, cfg).0;
      w'.(fs := Recovered(StateAt(w, w', at), r))
    case Outage(r) => w.(fs := Recovered(w.fs, r))
  }

  /** What the history allows to be loaded after it, given what it allowed before: a save that answered Ok leaves the
      new configuration (and an empty one, while the directory's own entry may still vanish); a failed or cut one adds
      the new configuration to what was possible; an outage adds nothing. */
  function Allowed(hasParent: bool, before: Fs, ok: bool, life: Life, configs: set<Config>): set<Config> {
    match life
    case Saving(cfg) => Answered(hasParent, before, ok, configs, cfg)
    case Cut(cfg, _, _) => configs + {cfg}
    case Outage(_) => configs
  }

  /** Whether the save, if it is one, answered Ok. */
  function AnswersOk(codec: Codec, hasParent: bool, env: SysOracle, w: FsWorld, life: Life): bool {
    life.Saving? && Save(codec, hasParent, env, w, life.cfg).1
  }

  lemma SoundSuperset(codec: Codec, fs: Fs, some: set<Config>, more: set<Config>)
    requires Sound(codec, fs, some) && some <= more
    ensures Sound(codec, fs, more)
  {
  }

  /** A loss of power leaves exactly one loadable configuration, one of those that may have been there. */
  lemma OutageKeeps(codec: Codec, fs: Fs, configs: set<Config>, r: Recovery)
    requires Sound(codec, fs, configs)
    ensures var after := Recovered(fs, r);
            var loaded := Load(codec, after);
            && loaded.Ok? && loaded.value in configs && Sound(codec, after, {loaded.value})
            && Sound(codec, after, configs)
  {
    hide Sound, Recovered, Load;
    RecoveryLoads(codec, fs, configs, r);
    SoundSuperset(codec, Recovered(fs, r), {Load(codec, Recovered(fs, r)).value}, configs);
  }

  /** One life: a sound disk stays sound for what the history then allows. */
  lemma LifeKeeps(codec: Codec, hasParent: bool, env: SysOracle, w: FsWorld, life: Life, configs: set<Config>)
    requires Sound(codec, w.fs, configs) && Faithful(codec)
    ensures var w' := Live(codec, hasParent, env, w, life);
            var allowed := Allowed(hasParent, w.fs, AnswersOk(codec, hasParent, env, w, life), life, configs);
            && Sound(codec, w'.fs, allowed)
            && (!life.Saving? ==> Load(codec, w'.fs).Ok? && Sound(codec, w'.fs, {Load(codec, w'.fs).value}))
  {
    hide Sound, Faithful, Save, Recovered, Load;
    match life
    case Saving(cfg) => SaveKeeps(codec, hasParent, env, w, configs, cfg);
    case Outage(r) => OutageKeeps(codec, w.fs, configs, r);
    case Cut(cfg, at, r) =>
      SaveKeeps(codec, hasParent, env, w, configs, cfg);
      var fs := StateAt(w, Save(codec, hasParent, env, w, cfg).0, at);
      SoundGrows(codec, w.fs, configs, cfg);
      assert Sound(codec, fs, configs + {cfg});
      OutageKeeps(codec, fs, configs + {cfg}, r);
  }

  function LiveAll(codec: Codec, hasParent: bool, env: SysOracle, w: FsWorld, lives: seq<Life>): FsWorld
    decreases lives
  {
    if lives == [] then w else LiveAll(codec, hasParent, env, Live(codec, hasParent, env, w, lives[0]), lives[1..])
  }

  function AllowedAll(codec: Codec, hasParent: bool, env: SysOracle, w: FsWorld, lives: seq<Life>,
                      configs: set<Config>): set<Config>
    decreases lives
  {
    if lives == [] then configs
    else AllowedAll(codec, hasParent, env, Live(codec, hasParent, env, w, lives[0]), lives[1..],
                    Allowed(hasParent, w.fs, AnswersOk(codec, hasParent, env, w, lives[0]), lives[0], configs))
  }

  /** Crash consistency over any sequence of saves, cut saves and losses of power: the file always loads, and it holds
      one of the configurations that its history allows. Leftover temporary files make no difference. */
  lemma {:induction false} CrashConsistency(codec: Codec, hasParent: bool, env: SysOracle, w: FsWorld, lives: seq<Life>,
                                            configs: set<Config>)
    requires Sound(codec, w.fs, configs) && Faithful(codec)
    ensures var w' := LiveAll(codec, hasParent, env, w, lives);
            var allowed := AllowedAll(codec, hasParent, env, w, lives, configs);
            && Sound(codec, w'.fs, allowed)
            && Load(codec, w'.fs).Ok? && Load(codec, w'.fs).value in allowed
    decreases lives
  {
    hide Sound, Faithful, Live, Allowed, AnswersOk, Load;
    if lives == [] {
      SoundLoads(codec, w.fs, configs);
    } else {
      LifeKeeps(codec, hasParent, env, w, lives[0], configs);
      CrashConsistency(codec, hasParent, env, Live(codec, hasParent, env, w, lives[0]), lives[1..],
                       Allowed(hasParent, w.fs, AnswersOk(codec, hasParent, env, w, lives[0]), lives[0], configs));
    }
  }

  // --- what the allowed configurations are -------------------------------------

  /** The configuration was handed to a save, answered or cut, in one of these lives. */
  ghost predicate Saved(lives: seq<Life>, cfg: Config) {
    exists i :: 0 <= i < |lives| && !lives[i].Outage? && lives[i].cfg == cfg
  }

  /** The directory is there, and its own entry cannot vanish. */
  predicate Rooted(fs: Fs) {
    fs.present && fs.anchored
  }

  /** Nothing is allowed but what was there and what was saved; an empty configuration only while the directory
      may vanish. */
  lemma {:induction false} AllowedIsSaved(codec: Codec, hasParent: bool, env: SysOracle, w: FsWorld, lives: seq<Life>,
                                          configs: set<Config>, cfg: Config)
    requires Sound(codec, w.fs, configs) && Faithful(codec)
    requires cfg in AllowedAll(codec, hasParent, env, w, lives, configs)
    ensures cfg in configs || Saved(lives, cfg) || (cfg == EMPTY && !Rooted(w.fs))
    decreases lives
  {
    hide Sound, Faithful, Live, AnswersOk;
    if lives != [] {
      var w' := Live(codec, hasParent, env, w, lives[0]);
      var allowed := Allowed(hasParent, w.fs, AnswersOk(codec, hasParent, env, w, lives[0]), lives[0], configs);
      LifeKeeps(codec, hasParent, env, w, lives[0], configs);
      if Rooted(w.fs) {
        LifeStaysRooted(codec, hasParent, env, w, lives[0]);
      }
      AllowedIsSaved(codec, hasParent, env, w', lives[1..], allowed, cfg);
      assert !lives[0].Outage? ==> Saved(lives, lives[0].cfg);
      if Saved(lives[1..], cfg) {
        var i :| 0 <= i < |lives[1..]| && !lives[1..][i].Outage? && lives[1..][i].cfg == cfg;
        assert lives[i + 1].cfg == cfg;
      }
    }
  }

  /** A directory whose entry is on the medium stays, through every step and every loss of power. */
  lemma {:induction false} RunStaysRooted(env: SysOracle, w: FsWorld, ops: seq<SysOp>)
    requires Rooted(w.fs)
    ensures var w' := RunOps(env, w, ops).0;
            && Rooted(w'.fs) && w.trace <= w'.trace
            && forall i :: |w.trace| <= i < |w'.trace| ==> Rooted(w'.trace[i])
    decreases ops
  {
    if ops != [] {
      var (w1, ok) := SysStep(env, w, ops[0]);
      if ok {
        RunStaysRooted(env, w1, ops[1..]);
      }
    }
  }

  lemma LifeStaysRooted(codec: Codec, hasParent: bool, env: SysOracle, w: FsWorld, life: Life)
    requires Rooted(w.fs)
    ensures Rooted(Live(codec, hasParent, env, w, life).fs)
  {
    hide RunOps, SaveOps;
    if !life.Outage? {
      RunStaysRooted(env, w, SaveOps(hasParent, codec.encode(life.cfg)));
    }
  }

  lemma {:induction false} LiveAllSplit(codec: Codec, hasParent: bool, env: SysOracle, w: FsWorld, a: seq<Life>,
                                        b: seq<Life>)
    ensures LiveAll(codec, hasParent, env, w, a + b)
            == LiveAll(codec, hasParent, env, LiveAll(codec, hasParent, env, w, a), b)
    decreases a
  {
    hide Live;
    if a == [] {
      assert a + b == b;
    } else {
      assert (a + b)[0] == a[0] && (a + b)[1..] == a[1..] + b;
      LiveAllSplit(codec, hasParent, env, Live(codec, hasParent, env, w, a[0]), a[1..], b);
    }
  }

  /** An answer is kept: once save `i` of a history answered Ok, on a directory that cannot vanish, whatever saves and
      losses of power come after it, the file holds what that save wrote or what a later one was given. */
  lemma OkIsKept(codec: Codec, hasParent: bool, env: SysOracle, w: FsWorld, lives: seq<Life>, configs: set<Config>,
                 i: nat)
    requires Sound(codec, w.fs, configs) && Faithful(codec) && hasParent && i < |lives|
    requires var before := LiveAll(codec, hasParent, env, w, lives[..i]);
             Rooted(before.fs) && AnswersOk(codec, hasParent, env, before, lives[i])
    ensures var loaded := Load(codec, LiveAll(codec, hasParent, env, w, lives).fs);
            loaded.Ok? && (loaded.value == lives[i].cfg || Saved(lives[i + 1..], loaded.value))
  {
    hide Sound, Faithful, Live, AllowedAll, Load, Save;
    var before := LiveAll(codec, hasParent, env, w, lives[..i]);
    var later := lives[i + 1..];
    CrashConsistency(codec, hasParent, env, w, lives[..i], configs);
    var possible := AllowedAll(codec, hasParent, env, w, lives[..i], configs);
    LifeKeeps(codec, hasParent, env, before, lives[i], possible);
    LifeStaysRooted(codec, hasParent, env, before, lives[i]);
    var after := Live(codec, hasParent, env, before, lives[i]);
    LiveAllSplit(codec, hasParent, env, w, lives[..i], lives[i..]);
    assert lives == lives[..i] + lives[i..];
    assert LiveAll(codec, hasParent, env, before, lives[i..]) == LiveAll(codec, hasParent, env, after, later);
    CrashConsistency(codec, hasParent, env, after, later, {lives[i].cfg});
    AllowedIsSaved(codec, hasParent, env, after, later, {lives[i].cfg},
                   Load(codec, LiveAll(codec, hasParent, env, after, later).fs).value);
  }

  /** From a fresh install, with or without the directory: whatever happens, what loads is something that was once
      handed to a save, or the empty configuration. */
  lemma FreshHistory(codec: Codec, hasParent: bool, env: SysOracle, present: bool, anchored: bool, lives: seq<Life>)
    requires Faithful(codec)
    ensures var fs := Fs(map[], [map[]], 0, present, anchored);
            var loaded := Load(codec, LiveAll(codec, hasParent, env, FsWorld(fs, 0, []), lives).fs);
            loaded.Ok? && (loaded.value == EMPTY || Saved(lives, loaded.value))
  {
    hide Sound, Faithful, LiveAll, AllowedAll, Load;
    var w := FsWorld(Fs(map[], [map[]], 0, present, anchored), 0, []);
    FreshIsSound(codec, present, anchored);
    CrashConsistency(codec, hasParent, env, w, lives, {EMPTY});
    AllowedIsSaved(codec, hasParent, env, w, lives, {EMPTY},
                   Load(codec, LiveAll(codec, hasParent, env, w, lives).fs).value);
  }

  // --- when Ok means durable ---------------------------------------------------

  /** The same version of the directory, by number. */
  function Pinned(fs: Fs, r: Recovery): Recovery {
    if r.version < |fs.dirs| || fs.dirs == [] then r else r.(version := |fs.dirs| - 1)
  }

  /** What loads after a loss of power, read off the disk as it was before. */
  function ComesBack(codec: Codec, fs: Fs, r: Recovery): Result<Config, Error> {
    var dir := if r.version < |fs.dirs| then fs.dirs[r.version] else Current(fs);
    if !fs.present || (!fs.anchored && r.vanished) || Target !in dir || dir[Target] !in fs.files then Ok(EMPTY)
    else
      var f := fs.files[dir[Target]];
      match codec.decode(if f.synced then f.content else r.contents(dir[Target]))
      case Some(c) => Ok(c)
      case None => Err(NotPersisted)
  }

  lemma RecoveredLoad(codec: Codec, fs: Fs, r: Recovery)
    ensures Load(codec, Recovered(fs, r)) == ComesBack(codec, fs, r)
  {
  }

  /** No step but the directory sync takes away anything that might come back. */
  lemma OldComesBack(codec: Codec, fs: Fs, configs: set<Config>, op: SysOp, o: SysOutcome, r: Recovery)
    requires Sound(codec, fs, configs) && !op.SyncDir?
    ensures Load(codec, Recovered(SysEffect(fs, op, o).0, Pinned(fs, r))) == Load(codec, Recovered(fs, r))
  {
    hide Load, Recovered;
    var fs' := SysEffect(fs, op, o).0;
    assert Current(fs) in fs.dirs;
    var p := Pinned(fs, r);
    RecoveredLoad(codec, fs, r);
    RecoveredLoad(codec, fs', p);
    var d := fs.dirs[p.version];
    assert d in fs.dirs;
    if fs.present && !(!fs.anchored && r.vanished) {
      assert fs'.dirs[p.version] == d;
      assert Target in d ==> fs'.files[d[Target]] == fs.files[d[Target]];
    }
  }

  lemma OldComesBackAfter(codec: Codec, env: SysOracle, w: FsWorld, configs: set<Config>, cfg: Config)
    requires Sound(codec, w.fs, configs) && Faithful(codec) && cfg !in configs
    ensures exists r ::
              Load(codec, Recovered(RunOps(env, w, WriteOps(codec.encode(cfg)) + [Rename]).0.fs, r)) != Ok(cfg)
  {
    hide Sound, SysEffect, Recovered, Load, Pinned, Faithful;
    var r := Recovery(0, n => "", false);
    RecoveryLoads(codec, w.fs, configs, r);
    var ops := WriteOps(codec.encode(cfg)) + [Rename];
    var i := 0;
    var v := w;
    var going := true;
    while i < 3 && going
      invariant 0 <= i <= 3
      invariant Sound(codec, v.fs, configs)
      invariant Load(codec, Recovered(v.fs, r)) != Ok(cfg)
      invariant going ==> RunOps(env, w, ops) == RunOps(env, v, ops[i..])
      invariant !going ==> RunOps(env, w, ops).0 == v
      decreases 3 - i, going
    {
      var op := ops[i];
      assert ops[i..][0] == op && ops[i..][1..] == ops[i + 1..];
      PrepareKeeps(codec, v.fs, configs, op, env(v.clock));
      OldComesBack(codec, v.fs, configs, op, env(v.clock), r);
      r := Pinned(v.fs, r);
      var (v', ok) := SysStep(env, v, op);
      going := ok;
      v := v';
      i := i + 1;
    }
    if going {
      assert ops[3..] == [Rename] && [Rename][1..] == [];
      OldComesBack(codec, v.fs, configs, Rename, env(v.clock), r);
    }
  }

  /** Whatever was saved, failed or cut before: a save of a new configuration that answered Ok survives every loss of
      power exactly when the path has a directory to sync and that directory's own entry was already on the medium. A
      directory that a save created, this one or an earlier one, is not enough, and neither is a bare file name. */
  lemma OkIsDurableIff(codec: Codec, hasParent: bool, env: SysOracle, w: FsWorld, configs: set<Config>, cfg: Config)
    requires Sound(codec, w.fs, configs) && Faithful(codec)
    requires Save(codec, hasParent, env, w, cfg).1 && cfg !in configs && cfg != EMPTY
    ensures (forall r :: Load(codec, Recovered(Save(codec, hasParent, env, w, cfg).0.fs, r)) == Ok(cfg)) <==>
            hasParent && Rooted(w.fs)
  {
    hide Sound, SysEffect, Faithful, WriteOps, Load, Recovered;
    var (w', ok) := Save(codec, hasParent, env, w, cfg);
    SaveKeeps(codec, hasParent, env, w, configs, cfg);
    if !hasParent {
      var text := codec.encode(cfg);
      assert SaveOps(false, text) == WriteOps(text) + [Rename] by {
        assert [Rename] + [] == [Rename];
        assert [] + (WriteOps(text) + [Rename]) == WriteOps(text) + [Rename];
      }
      OldComesBackAfter(codec, env, w, configs, cfg);
    } else if Rooted(w.fs) {
      forall r ensures Load(codec, Recovered(w'.fs, r)) == Ok(cfg) {
        RecoveryLoads(codec, w'.fs, {cfg}, r);
      }
    } else {
      RecoveredLoad(codec, w'.fs, Recovery(0, n => "", true));
    }
  }

  // --- a directory that vanishes -----------------------------------------------

  const WORKING: SysOracle := (n: nat) => SysOutcome(true, 0)

  const NO_DIRECTORY := FsWorld(Fs(map[], [map[]], 0, false, false), 0, [])

  /** When every step works, so does the save, on any sound disk. */
  lemma WorkingSaves(codec: Codec, w: FsWorld, configs: set<Config>, cfg: Config)
    requires Sound(codec, w.fs, configs)
    ensures Save(codec, true, WORKING, w, cfg).1
  {
    hide SysEffect, Sound;
    var text := codec.encode(cfg);
    var ops := SaveOps(true, text);
    var w1 := SysStep(WORKING, w, MakeDir).0;
    var w2 := SysStep(WORKING, w1, OpenTruncate).0;
    var w3 := SysStep(WORKING, w2, WriteAll(text)).0;
    var w4 := SysStep(WORKING, w3, SyncFile).0;
    var w5 := SysStep(WORKING, w4, Rename).0;
    StepsWork(codec, w, configs, text);
    assert ops == [MakeDir, OpenTruncate, WriteAll(text), SyncFile, Rename, SyncDir];
    assert ops[1..] == [OpenTruncate, WriteAll(text), SyncFile, Rename, SyncDir];
    assert ops[1..][1..] == [WriteAll(text), SyncFile, Rename, SyncDir];
    assert ops[1..][1..][1..] == [SyncFile, Rename, SyncDir];
    assert [SyncFile, Rename, SyncDir][1..] == [Rename, SyncDir];
    assert [Rename, SyncDir][1..] == [SyncDir] && [SyncDir][1..] == [];
    assert RunOps(WORKING, w5, [SyncDir]).1;
    assert RunOps(WORKING, w4, [Rename, SyncDir]) == RunOps(WORKING, w5, [SyncDir]);
    assert RunOps(WORKING, w3, [SyncFile, Rename, SyncDir]) == RunOps(WORKING, w4, [Rename, SyncDir]);
    assert RunOps(WORKING, w2, [WriteAll(text), SyncFile, Rename, SyncDir]) ==
           RunOps(WORKING, w3, [SyncFile, Rename, SyncDir]);
    assert RunOps(WORKING, w1, ops[1..]) == RunOps(WORKING, w2, [WriteAll(text), SyncFile, Rename, SyncDir]);
  }

  lemma StepsWork(codec: Codec, w: FsWorld, configs: set<Config>, text: string)
    requires Sound(codec, w.fs, configs)
    ensures var (w1, ok1) := SysStep(WORKING, w, MakeDir);
            var (w2, ok2) := SysStep(WORKING, w1, OpenTruncate);
            var (w3, ok3) := SysStep(WORKING, w2, WriteAll(text));
            var (w4, ok4) := SysStep(WORKING, w3, SyncFile);
            var (w5, ok5) := SysStep(WORKING, w4, Rename);
            ok1 && ok2 && ok3 && ok4 && ok5 && SysStep(WORKING, w5, SyncDir).1
  {
    var w1 := SysStep(WORKING, w, MakeDir).0;
    var w2 := SysStep(WORKING, w1, OpenTruncate).0;
    MakeDirKeeps(codec, w.fs, configs, WORKING(w.clock));
    assert Current(w1.fs) in w1.fs.dirs;
    assert Temp in Current(w2.fs) && Current(w2.fs)[Temp] in w2.fs.files;
  }

  /** A first save creates the directory, answers Ok, and is gone after a loss of power that takes the directory's own
      entry with it. And so is a second one: it finds the directory there and has no more claim to it. */
  lemma FirstSavesCanVanish(codec: Codec, cfg: Config, second: Config)
    requires Faithful(codec)
    ensures var (w1, ok1) := Save(codec, true, WORKING, NO_DIRECTORY, cfg);
            var (w2, ok2) := Save(codec, true, WORKING, w1, second);
            var outage := Recovery(0, n => "", true);
            && ok1 && Load(codec, w1.fs) == Ok(cfg) && Load(codec, Recovered(w1.fs, outage)) == Ok(EMPTY)
            && ok2 && Load(codec, w2.fs) == Ok(second) && Load(codec, Recovered(w2.fs, outage)) == Ok(EMPTY)
  {
    hide Sound, Faithful, Load, Recovered, Save;
    FreshIsSound(codec, false, false);
    UnrootedSave(codec, NO_DIRECTORY, {EMPTY}, cfg);
    var w1 := Save(codec, true, WORKING, NO_DIRECTORY, cfg).0;
    UnrootedSave(codec, w1, {cfg, EMPTY}, second);
  }

  lemma UnrootedSave(codec: Codec, w: FsWorld, configs: set<Config>, cfg: Config)
    requires Sound(codec, w.fs, configs) && Faithful(codec) && !Rooted(w.fs)
    ensures var (w', ok) := Save(codec, true, WORKING, w, cfg);
            && ok && Load(codec, w'.fs) == Ok(cfg) && Sound(codec, w'.fs, {cfg, EMPTY}) && !Rooted(w'.fs)
            && Load(codec, Recovered(w'.fs, Recovery(0, n => "", true))) == Ok(EMPTY)
  {
    hide Sound, Faithful, Load, Recovered, Save;
    WorkingSaves(codec, w, configs, cfg);
    SaveIsVisible(codec, true, WORKING, w, configs, cfg);
    SaveKeeps(codec, true, WORKING, w, configs, cfg);
    RecoveredLoad(codec, Save(codec, true, WORKING, w, cfg).0.fs, Recovery(0, n => "", true));
  }
}
