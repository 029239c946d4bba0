/** Two-run secrecy: two daemons that differ only in stored secrets cannot be told apart by any run of requests. */
module DaemonSecrecy {
  import opened Basics
  import opened Text
  import opened Config
  import opened Kernel
  import opened Tunnel
  import opened Switch
  import opened KernelSecrecy
  import opened Daemon
  import opened DaemonSafety

  predicate SameServers(lib: Lib, a: seq<ServerConfig>, b: seq<ServerConfig>) {
    |a| == |b| && forall i :: 0 <= i < |a| ==> SameServer(lib, a[i], b[i])
  }

  /** Equal but for private keys with the same public key, and for preshared keys, in memory, in the file and on the
      kernel. */
  predicate SameState(lib: Lib, a: DState, b: DState) {
    SameServers(lib, a.servers, b.servers) && SameServers(lib, a.disk, b.disk) && a.lastConnect == b.lastConnect
      && SameWorld(lib, a.w, b.w)
  }

  // --- the configuration -------------------------------------------------------

  lemma {:induction false} FindAlike(lib: Lib, a: seq<ServerConfig>, b: seq<ServerConfig>, name: string)
    requires SameServers(lib, a, b)
    ensures var fa, fb := FindIn(a, name), FindIn(b, name);
            (fa.Some? <==> fb.Some?) && (fa.Some? ==> SameServer(lib, fa.value, fb.value))
    decreases a
  {
    hide PublicKey, Trim;
    if a != [] {
      assert SameServer(lib, a[0], b[0]);
      FindAlike(lib, a[1..], b[1..], name);
    }
  }

  lemma SameName(lib: Lib, a: ServerConfig, b: ServerConfig)
    requires SameServer(lib, a, b)
    ensures a.name == b.name
  {
    hide PublicKey, Trim;
    assert a.(privateKey := "", presharedKey := None).name == b.(privateKey := "", presharedKey := None).name;
  }

  lemma {:induction false} UpsertAlike(lib: Lib, a: seq<ServerConfig>, b: seq<ServerConfig>, sa: ServerConfig,
                                       sb: ServerConfig)
    requires SameServers(lib, a, b) && SameServer(lib, sa, sb)
    ensures SameServers(lib, UpsertIn(a, sa), UpsertIn(b, sb))
    decreases a
  {
    hide SameServer;
    SameName(lib, sa, sb);
    if a != [] {
      assert SameServer(lib, a[0], b[0]);
      SameName(lib, a[0], b[0]);
      UpsertAlike(lib, a[1..], b[1..], sa, sb);
    }
  }

  lemma {:induction false} RemoveAlike(lib: Lib, a: seq<ServerConfig>, b: seq<ServerConfig>, name: string)
    requires SameServers(lib, a, b)
    ensures SameServers(lib, RemoveIn(a, name), RemoveIn(b, name))
    decreases a
  {
    hide PublicKey, Trim;
    if a != [] {
      assert SameServer(lib, a[0], b[0]);
      RemoveAlike(lib, a[1..], b[1..], name);
      var ra, rb := RemoveIn(a[1..], name), RemoveIn(b[1..], name);
      assert RemoveIn(a, name) == (if a[0].name != name then [a[0]] else []) + ra;
      assert RemoveIn(b, name) == (if b[0].name != name then [b[0]] else []) + rb;
    }
  }

  lemma SelfAlike(lib: Lib, s: ServerConfig)
    ensures SameServer(lib, s, s)
  {
  }

  /** The cached endpoint is no secret: setting it alike keeps the tunnels alike. */
  lemma CacheAlike(lib: Lib, a: ServerConfig, b: ServerConfig, addr: string)
    requires SameServer(lib, a, b)
    ensures SameServer(lib, a.(resolvedEndpoint := Some(addr)), b.(resolvedEndpoint := Some(addr)))
    ensures a.name == b.name && a.resolvedEndpoint == b.resolvedEndpoint
  {
    hide PublicKey, Trim;
    assert a.(privateKey := "", presharedKey := None).resolvedEndpoint
           == b.(privateKey := "", presharedKey := None).resolvedEndpoint;
    assert a.(privateKey := "", presharedKey := None).name == b.(privateKey := "", presharedKey := None).name;
  }

  lemma PersistAlike(lib: Lib, a: DState, b: DState, save: SaveOutcome)
    requires SameState(lib, a, b)
    ensures SameState(lib, Persist(a, save).0, Persist(b, save).0) && Persist(a, save).1 == Persist(b, save).1
  {
    hide SameServers, SameWorld;
  }

  lemma AdmitAlike(lib: Lib, a: DState, b: DState, sa: ServerConfig, sb: ServerConfig, ext: Ext)
    requires SameState(lib, a, b) && SameServer(lib, sa, sb)
    ensures SameState(lib, Admit(lib, a, sa, ext).0, Admit(lib, b, sb, ext).0)
    ensures Admit(lib, a, sa, ext).1 == Admit(lib, b, sb, ext).1
  {
    hide SameServers, SameWorld, SameServer, UpsertIn, ValidateServer, Persist;
    ValidateAlike(lib, sa, sb, ext.answer);
    var r := ValidateServer(lib, sa, ext.answer);
    if r.Ok? {
      var addr := lib.showSocket(r.value);
      CacheAlike(lib, sa, sb, addr);
      var ca, cb := sa.(resolvedEndpoint := Some(addr)), sb.(resolvedEndpoint := Some(addr));
      UpsertAlike(lib, a.servers, b.servers, ca, cb);
      PersistAlike(lib, a.(servers := UpsertIn(a.servers, ca)), b.(servers := UpsertIn(b.servers, cb)), ext.save);
    }
  }

  lemma AddAlike(lib: Lib, a: DState, b: DState, spec: ServerSpec, ext: Ext)
    requires SameState(lib, a, b)
    ensures SameState(lib, Add(lib, a, spec, ext).0, Add(lib, b, spec, ext).0)
    ensures Add(lib, a, spec, ext).1 == Add(lib, b, spec, ext).1
  {
    hide SameState, SameServer, Admit, Assembled, Trim, Supplied;
    var s := Assembled(spec, Or(Supplied(spec.privateKey), ext.freshKey), spec.presharedKey);
    SelfAlike(lib, s);
    AdmitAlike(lib, a, b, s, s, ext);
  }

  /** An edit that keeps a stored secret keeps tunnels alike that differ in it. */
  lemma EditedAlike(lib: Lib, spec: ServerSpec, a: ServerConfig, b: ServerConfig)
    requires SameServer(lib, a, b)
    ensures SameServer(lib, Edited(spec, a), Edited(spec, b))
  {
    hide Trim, PublicKey, Supplied;
  }

  // --- the views ---------------------------------------------------------------

  /** The interface reads the same. */
  lemma LiveAlike(lib: Lib, ea: Oracle, eb: Oracle, a: World, b: World)
    requires AlikeOracles(lib, ea, eb) && SameWorld(lib, a, b)
    ensures SameWorld(lib, ReadLive(lib, ea, a).0, ReadLive(lib, eb, b).0)
    ensures ReadLive(lib, ea, a).1 == ReadLive(lib, eb, b).1
  {
    hide SamePeers;
    if a.k.iface.Some? {
      var ia, ib := a.k.iface.value, b.k.iface.value;
      SamePeersAt(ia.peers, ib.peers);
      var stats := ea(a.clock).stats;
      LivePeersAlike(lib, ia.peers, ib.peers, stats);
      assert ia.port == ib.port by {
        assert ia.(privateKey := None, peers := []).port == ib.(privateKey := None, peers := []).port;
      }
    }
  }

  lemma LivePeersAlike(lib: Lib, a: seq<Peer>, b: seq<Peer>, stats: Key -> PeerStats)
    requires |a| == |b| && forall i :: 0 <= i < |a| ==> a[i].(presharedKey := None) == b[i].(presharedKey := None)
    ensures Map(a, LivePeerOf(lib, stats)) == Map(b, LivePeerOf(lib, stats))
  {
    forall i | 0 <= i < |a| ensures LivePeerOf(lib, stats)(a[i]) == LivePeerOf(lib, stats)(b[i]) {
      var va, vb := a[i].(presharedKey := None), b[i].(presharedKey := None);
      assert va.publicKey == vb.publicKey && va.allowedIps == vb.allowedIps;
    }
  }

  lemma ViewsAlike(lib: Lib, a: ServerConfig, b: ServerConfig, live: Option<LiveInterface>, connecting: bool, wall: nat)
    requires SameServer(lib, a, b)
    ensures InfoOf(lib, live, connecting, wall)(a) == InfoOf(lib, live, connecting, wall)(b)
    ensures DetailOf(a) == DetailOf(b)
  {
    hide Trim, PublicKey, HandshakeAge, FirstPeer, ActiveKey;
    var va, vb := a.(privateKey := "", presharedKey := None), b.(privateKey := "", presharedKey := None);
    assert va.name == vb.name && va.endpoint == vb.endpoint && va.addresses == vb.addresses
           && va.publicKey == vb.publicKey;
    assert va.allowedIps == vb.allowedIps && va.listenPort == vb.listenPort && va.mtu == vb.mtu
           && va.keepalive == vb.keepalive && va.dns == vb.dns;
  }

  lemma ListedAlike(lib: Lib, ea: Oracle, eb: Oracle, a: DState, b: DState, ext: Ext)
    requires AlikeOracles(lib, ea, eb) && SameState(lib, a, b)
    ensures SameState(lib, Listed(lib, ea, a, ext).0, Listed(lib, eb, b, ext).0)
    ensures Listed(lib, ea, a, ext).1 == Listed(lib, eb, b, ext).1
  {
    hide SameServer, SameWorld, ReadLive, InfoOf, WithinWindow;
    LiveAlike(lib, ea, eb, a.w, b.w);
    var view := InfoOf(lib, ReadLive(lib, ea, a.w).1, WithinWindow(a.lastConnect, ext.now), ext.wall);
    forall i | 0 <= i < |a.servers| ensures view(a.servers[i]) == view(b.servers[i]) {
      assert SameServer(lib, a.servers[i], b.servers[i]);
      ViewsAlike(lib, a.servers[i], b.servers[i], ReadLive(lib, ea, a.w).1, WithinWindow(a.lastConnect, ext.now),
                 ext.wall);
    }
    assert Map(a.servers, view) == Map(b.servers, view);
  }

  // --- requests ----------------------------------------------------------------

  lemma EditAlike(lib: Lib, ea: Oracle, eb: Oracle, a: DState, b: DState, spec: ServerSpec, ext: Ext)
    requires AlikeOracles(lib, ea, eb) && SameState(lib, a, b)
    ensures SameState(lib, Edit(lib, ea, a, spec, ext).0, Edit(lib, eb, b, spec, ext).0)
    ensures Edit(lib, ea, a, spec, ext).1 == Edit(lib, eb, b, spec, ext).1
  {
    hide SameServers, SameWorld, ReadLive, Admit, Edited, Trim, FindIn, PublicKey, ActiveKey;
    FindAlike(lib, a.servers, b.servers, Trim(spec.name));
    var fa, fb := FindIn(a.servers, Trim(spec.name)), FindIn(b.servers, Trim(spec.name));
    if fa.Some? {
      LiveAlike(lib, ea, eb, a.w, b.w);
      EditedAlike(lib, spec, fa.value, fb.value);
      AdmitAlike(lib, a.(w := ReadLive(lib, ea, a.w).0), b.(w := ReadLive(lib, eb, b.w).0),
                 Edited(spec, fa.value), Edited(spec, fb.value), ext);
    }
  }

  lemma RecacheAlike(lib: Lib, a: DState, b: DState, sa: ServerConfig, sb: ServerConfig, addr: string,
                     save: SaveOutcome)
    requires SameState(lib, a, b) && SameServer(lib, sa, sb)
    ensures SameState(lib, Recache(a, sa, addr, save), Recache(b, sb, addr, save))
  {
    hide SameServers, SameWorld, SameServer, UpsertIn, Persist;
    CacheAlike(lib, sa, sb, addr);
    var ca, cb := sa.(resolvedEndpoint := Some(addr)), sb.(resolvedEndpoint := Some(addr));
    UpsertAlike(lib, a.servers, b.servers, ca, cb);
    PersistAlike(lib, a.(servers := UpsertIn(a.servers, ca)), b.(servers := UpsertIn(b.servers, cb)), save);
  }

  lemma ConnectAlike(lib: Lib, ea: Oracle, eb: Oracle, a: DState, b: DState, name: string, ext: Ext)
    requires AlikeOracles(lib, ea, eb) && SameState(lib, a, b)
    ensures SameState(lib, Connect(lib, ea, a, name, ext).0, Connect(lib, eb, b, name, ext).0)
    ensures Connect(lib, ea, a, name, ext).1 == Connect(lib, eb, b, name, ext).1
  {
    hide SameServers, SameWorld, SameServer, SwitchTo, Recache, FindIn;
    FindAlike(lib, a.servers, b.servers, name);
    var fa, fb := FindIn(a.servers, name), FindIn(b.servers, name);
    if fa.Some? {
      SwitchAlike(lib, ea, eb, a.w, b.w, fa.value, fb.value, ext.answer);
      var (wa, ra) := SwitchTo(lib, ea, a.w, fa.value, ext.answer);
      var (wb, rb) := SwitchTo(lib, eb, b.w, fb.value, ext.answer);
      if ra.Ok? {
        RecacheAlike(lib, a.(w := wa, lastConnect := Some(ext.now)), b.(w := wb, lastConnect := Some(ext.now)),
                     fa.value, fb.value, lib.showSocket(ra.value), ext.save);
      }
    }
  }

  lemma RemovedAlike(lib: Lib, a: DState, b: DState, name: string, ext: Ext)
    requires SameState(lib, a, b)
    ensures SameState(lib, Remove(a, name, ext).0, Remove(b, name, ext).0)
            && Remove(a, name, ext).1 == Remove(b, name, ext).1
  {
    hide SameServers, SameWorld, RemoveIn, FindIn, Persist;
    FindAlike(lib, a.servers, b.servers, name);
    RemoveAlike(lib, a.servers, b.servers, name);
    PersistAlike(lib, a.(servers := RemoveIn(a.servers, name)), b.(servers := RemoveIn(b.servers, name)), ext.save);
  }

  lemma DropAlike(lib: Lib, ea: Oracle, eb: Oracle, a: DState, b: DState)
    requires AlikeOracles(lib, ea, eb) && SameState(lib, a, b)
    ensures SameState(lib, Drop(ea, a).0, Drop(eb, b).0) && Drop(ea, a).1 == Drop(eb, b).1
  {
    hide SameServers, SameWorld, Disconnect;
    DisconnectAlike(lib, ea, eb, a.w, b.w);
  }

  lemma AnswerAlike(lib: Lib, ea: Oracle, eb: Oracle, a: (DState, Option<Error>), b: (DState, Option<Error>), ext: Ext)
    requires AlikeOracles(lib, ea, eb) && SameState(lib, a.0, b.0) && a.1 == b.1
    ensures SameState(lib, Answer(lib, ea, a, ext).0, Answer(lib, eb, b, ext).0)
    ensures Answer(lib, ea, a, ext).1 == Answer(lib, eb, b, ext).1
  {
    hide SameState, Listed;
    ListedAlike(lib, ea, eb, a.0, b.0, ext);
  }

  lemma GetAlike(lib: Lib, ea: Oracle, eb: Oracle, a: DState, b: DState, name: string, ext: Ext)
    requires AlikeOracles(lib, ea, eb) && SameState(lib, a, b)
    ensures Handle(lib, ea, a, GetServer(name), ext).1 == Handle(lib, eb, b, GetServer(name), ext).1
  {
    hide SameServers, SameWorld, SameServer, DetailOf, FindIn;
    FindAlike(lib, a.servers, b.servers, name);
    var fa, fb := FindIn(a.servers, name), FindIn(b.servers, name);
    if fa.Some? {
      ViewsAlike(lib, fa.value, fb.value, None, false, 0);
    }
  }

  lemma StatusAlike(lib: Lib, ea: Oracle, eb: Oracle, a: DState, b: DState, ext: Ext)
    requires AlikeOracles(lib, ea, eb) && SameState(lib, a, b)
    ensures SameState(lib, ReadStatus(lib, ea, a, ext).0, ReadStatus(lib, eb, b, ext).0)
    ensures ReadStatus(lib, ea, a, ext).1 == ReadStatus(lib, eb, b, ext).1
  {
    hide SameServers, SameWorld, ReadLive, StatusOf;
    LiveAlike(lib, ea, eb, a.w, b.w);
  }

  /** One request: the same answer, and states that still differ in secrets only. */
  lemma HandleAlike(lib: Lib, ea: Oracle, eb: Oracle, a: DState, b: DState, req: Request, ext: Ext)
    requires AlikeOracles(lib, ea, eb) && SameState(lib, a, b)
    ensures SameState(lib, Handle(lib, ea, a, req, ext).0, Handle(lib, eb, b, req, ext).0)
    ensures Handle(lib, ea, a, req, ext).1 == Handle(lib, eb, b, req, ext).1
  {
    hide SameState, ReadStatus, Listed, Add, Edit, Remove, Connect, Drop, Answer, ReadConf;
    match req
    case Status => StatusAlike(lib, ea, eb, a, b, ext);
    case ListServers(_) => ListedAlike(lib, ea, eb, a, b, ext);
    case GetServer(name) => GetAlike(lib, ea, eb, a, b, name, ext);
    case AddServer(spec) =>
      AddAlike(lib, a, b, spec, ext);
      AnswerAlike(lib, ea, eb, Add(lib, a, spec, ext), Add(lib, b, spec, ext), ext);
    case EditServer(spec) =>
      EditAlike(lib, ea, eb, a, b, spec, ext);
      AnswerAlike(lib, ea, eb, Edit(lib, ea, a, spec, ext), Edit(lib, eb, b, spec, ext), ext);
    case ImportServer(name, conf) =>
      if ReadConf(conf).Some? {
        AddAlike(lib, a, b, SpecOf(name, ReadConf(conf).value), ext);
      }
      AnswerAlike(lib, ea, eb, Import(lib, a, name, conf, ext), Import(lib, b, name, conf, ext), ext);
    case RemoveServer(name) =>
      RemovedAlike(lib, a, b, name, ext);
      AnswerAlike(lib, ea, eb, Remove(a, name, ext), Remove(b, name, ext), ext);
    case SwitchServer(name) => ConnectAlike(lib, ea, eb, a, b, name, ext);
    case Disconnecting => DropAlike(lib, ea, eb, a, b);
  }

  lemma RestartAlike(lib: Lib, ea: Oracle, eb: Oracle, a: DState, b: DState)
    requires AlikeOracles(lib, ea, eb) && SameState(lib, a, b)
    ensures SameState(lib, Next(lib, ea, a, Restarted).0, Next(lib, eb, b, Restarted).0)
  {
    hide SameServers, SameWorld, Handle;
  }

  lemma {:induction false} StatesAlike(lib: Lib, ea: Oracle, eb: Oracle, a: DState, b: DState, turns: seq<Turn>, k: nat)
    requires AlikeOracles(lib, ea, eb) && SameState(lib, a, b) && k <= |turns|
    ensures SameState(lib, StateAt(lib, ea, a, turns, k), StateAt(lib, eb, b, turns, k))
    decreases k
  {
    hide SameState, Handle;
    if k > 0 {
      StatesAlike(lib, ea, eb, a, b, turns, k - 1);
      var pa, pb := StateAt(lib, ea, a, turns, k - 1), StateAt(lib, eb, b, turns, k - 1);
      match turns[k - 1]
      case Asked(req, ext) => HandleAlike(lib, ea, eb, pa, pb, req, ext);
      case Restarted => RestartAlike(lib, ea, eb, pa, pb);
    }
  }

  /** Secrecy: whatever is asked over a whole run, restarts included, and however the kernel, the resolver and the disk
      behave, no response depends on a preshared key or on a private key beyond its public half. */
  lemma ResponsesRevealNothing(lib: Lib, ea: Oracle, eb: Oracle, a: DState, b: DState, turns: seq<Turn>, k: nat)
    requires AlikeOracles(lib, ea, eb) && SameState(lib, a, b) && k < |turns| && turns[k].Asked?
    ensures ResponseAt(lib, ea, a, turns, k) == ResponseAt(lib, eb, b, turns, k)
  {
    hide SameState, Handle, StateAt;
    StatesAlike(lib, ea, eb, a, b, turns, k);
    HandleAlike(lib, ea, eb, StateAt(lib, ea, a, turns, k), StateAt(lib, eb, b, turns, k), turns[k].req, turns[k].ext);
  }
}
