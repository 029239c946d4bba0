/** What clients are told about the live tunnel: the active flag over whole runs, and the list against the status
    view. */
module DaemonViews {
  import opened Basics
  import opened Prefix
  import opened Text
  import opened Config
  import opened Kernel
  import opened Tunnel
  import opened Switch
  import SwitchTarget
  import opened Daemon
  import opened DaemonSafety

  // --- the live identity -------------------------------------------------------

  /** Our public key on the live interface, whether or not it can be read. */
  function LiveKey(lib: Lib, k: KState): Option<string> {
    if k.iface.None? || k.iface.value.privateKey.None? then None
    else Some(lib.showKey(lib.publicOf(k.iface.value.privateKey.value)))
  }

  /** The latest operation on the kernel succeeded. */
  predicate LastOk(w: World) {
    w.trace != [] && w.trace[|w.trace| - 1].ok
  }

  lemma ReadLiveKeeps(lib: Lib, env: Oracle, w: World)
    ensures var (w', live) := ReadLive(lib, env, w);
            && w'.k == w.k && (LastOk(w') <==> live.Some?)
            && (live.Some? ==> w.k.iface.Some? && ActiveKey(live) == LiveKey(lib, w.k) &&
                               live == Some(LiveOf(lib, w.k.iface.value, env(w.clock).stats)))
  {
  }

  /** Only switching and disconnecting touch the kernel. */
  predicate Quiet(t: Turn) {
    t.Asked? ==> !t.req.SwitchServer? && !t.req.Disconnecting?
  }

  lemma QuietKeepsKernel(lib: Lib, env: Oracle, d: DState, t: Turn)
    requires Quiet(t)
    ensures Next(lib, env, d, t).0.w.k == d.w.k
  {
    hide LiveOf, StatusOf, InfoOf, FindIn;
    if t.Asked? && Changes(t.req) {
      hide Handle;
      ChangeOutcome(lib, env, d, t.req, t.ext);
    }
  }

  lemma {:induction false} QuietRun(lib: Lib, env: Oracle, d: DState, turns: seq<Turn>, j: nat, k: nat)
    requires j <= k <= |turns| && forall i :: j <= i < k ==> Quiet(turns[i])
    ensures StateAt(lib, env, d, turns, k).w.k == StateAt(lib, env, d, turns, j).w.k
    decreases k
  {
    hide Next;
    if j < k {
      QuietRun(lib, env, d, turns, j, k - 1);
      QuietKeepsKernel(lib, env, StateAt(lib, env, d, turns, k - 1), turns[k - 1]);
    }
  }

  // --- the active flag ---------------------------------------------------------

  /** The list is of the servers stored when it is made, and a tunnel is flagged active exactly when the interface
      could be read and carries that tunnel's own derived key. */
  lemma ActiveIffLiveKey(lib: Lib, env: Oracle, d: DState, ext: Ext, i: nat)
    requires i < |d.servers|
    ensures var (d', r) := Listed(lib, env, d, ext);
            && r.ServerList? && |r.servers| == |d.servers| && d'.servers == d.servers && d'.w.k == d.w.k
            && r.servers[i].name == d.servers[i].name && r.servers[i].publicKey == ShownKey(lib, d.servers[i])
            && r.servers[i].endpoint == d.servers[i].endpoint && r.servers[i].addresses == d.servers[i].addresses
            && (r.servers[i].active <==> LastOk(d'.w) && LiveKey(lib, d.w.k) == Some(ShownKey(lib, d.servers[i])))
            && (r.servers[i].state.Some? <==> r.servers[i].active)
  {
    hide LiveOf, ShownKey, LiveKey, LastOk, FirstPeer, HandshakeAge;
    ReadLiveKeeps(lib, env, d.w);
  }

  /** A tunnel whose private key does not parse, which only a file from elsewhere can bring in, lists with a
      placeholder. */
  lemma PlaceholderListed(lib: Lib, env: Oracle, d: DState, ext: Ext, i: nat)
    requires i < |d.servers|
    ensures var r := Listed(lib, env, d, ext).1;
            && r.ServerList? && |r.servers| == |d.servers|
            && r.servers[i].publicKey == (match lib.parseKey(Trim(d.servers[i].privateKey))
                                          case None => "(unavailable)"
                                          case Some(key) => lib.showKey(lib.publicOf(key)))
  {
    hide Trim, ReadLive, FirstPeer, HandshakeAge;
  }

  /** Every answer that is a list is this one, taken in the state the request leaves, or what a filter lets through of
      it. */
  lemma ListsAreListings(lib: Lib, env: Oracle, d: DState, req: Request, ext: Ext)
    requires Handle(lib, env, d, req, ext).1.ServerList?
    ensures exists d0, query :: Handle(lib, env, d, req, ext).0 == Listed(lib, env, d0, ext).0 &&
                                Handle(lib, env, d, req, ext).1 == Filtered(query, Listed(lib, env, d0, ext).1)
  {
    hide Listed, Add, Edit, Import, Remove, SwitchTo, Disconnect, ReadLive, FindIn, Recache, Matches;
    var change :=
      match req
      case AddServer(spec) => Add(lib, d, spec, ext)
      case EditServer(spec) => Edit(lib, env, d, spec, ext)
      case ImportServer(name, conf) => Import(lib, d, name, conf, ext)
      case RemoveServer(name) => Remove(d, name, ext)
      case _ => (d, None);
    var query := if req.ListServers? then req.query else None;
    assert Handle(lib, env, d, req, ext).0 == Listed(lib, env, change.0, ext).0;
    assert Handle(lib, env, d, req, ext).1 == Filtered(query, Listed(lib, env, change.0, ext).1);
  }

  /** The filter shows exactly the tunnels of the list that match it, in the list's order; none or a blank one shows
      all. */
  lemma FilterShowsExactly(lib: Lib, env: Oracle, d: DState, query: Option<string>, ext: Ext)
    ensures var all := Handle(lib, env, d, ListServers(None), ext);
            var some := Handle(lib, env, d, ListServers(query), ext);
            && all.1.ServerList? && some.1.ServerList? && some.0 == all.0
            && (query.Some? ==> some.1.servers == Keep(all.1.servers, Matches(query.value)))
            && (query.None? || Trim(query.value) == "" ==> some.1 == all.1)
  {
    hide Listed, Trim;
    ListedKeeps(lib, env, d, ext);
    if query.Some? && Trim(query.value) == "" {
      KeepsAll(Listed(lib, env, d, ext).1.servers, Matches(query.value));
    }
  }

  lemma {:induction false} KeepsAll(infos: seq<ServerInfo>, p: ServerInfo -> bool)
    requires forall info :: p(info)
    ensures Keep(infos, p) == infos
    decreases infos
  {
    if infos != [] {
      KeepsAll(infos[1..], p);
    }
  }

  /** A successful switch puts the named tunnel's key on the interface. */
  lemma SwitchedSetsKey(lib: Lib, env: Oracle, d: DState, name: string, ext: Ext)
    requires Connect(lib, env, d, name, ext).1.Switched?
    ensures var s := FindIn(d.servers, name);
            && s.Some? && LiveKey(lib, Connect(lib, env, d, name, ext).0.w.k) == PublicKey(lib, s.value.privateKey)
            && PublicKey(lib, s.value.privateKey).Some?
            && Connect(lib, env, d, name, ext).0.w.k.iface.Some?
            && PlanSwitch(lib, s.value, ext.answer).Ok?
            && Connect(lib, env, d, name, ext).0.w.k.iface.value.peers
               == [PlanSwitch(lib, s.value, ext.answer).value.peer]
  {
    hide RunPlan, PlanSwitch, UpsertIn, Trim, SwitchTarget.RoutesWanted, SwitchTarget.Settled,
         SwitchTarget.BestEffortOk;
    var s := FindIn(d.servers, name).value;
    SwitchTarget.SwitchReaches(lib, env, d.w, s, ext.answer);
  }

  lemma DisconnectedClearsKey(lib: Lib, env: Oracle, d: DState)
    requires Drop(env, d).1 == Disconnected
    ensures LiveKey(lib, Drop(env, d).0.w.k) == None
  {
  }

  /** What a list flags active, given the key that is live. */
  predicate FlagsExactly(infos: seq<ServerInfo>, key: Option<string>, readOk: bool) {
    forall info :: info in infos ==> (info.active <==> readOk && key == Some(info.publicKey))
  }

  lemma ListedFlags(lib: Lib, env: Oracle, d: DState, req: Request, ext: Ext)
    requires Handle(lib, env, d, req, ext).1.ServerList?
    ensures var (d', r) := Handle(lib, env, d, req, ext);
            FlagsExactly(r.servers, LiveKey(lib, d.w.k), LastOk(d'.w))
  {
    hide Handle, LiveKey, LastOk, Listed, ShownKey, Filtered;
    ListsAreListings(lib, env, d, req, ext);
    var d0, query :| Handle(lib, env, d, req, ext).0 == Listed(lib, env, d0, ext).0 &&
                     Handle(lib, env, d, req, ext).1 == Filtered(query, Listed(lib, env, d0, ext).1);
    assert Quiet(Asked(req, ext)) by {
      ListsAreQuiet(lib, env, d, req, ext);
    }
    QuietKeepsKernel(lib, env, d, Asked(req, ext));
    ListedFlagsAt(lib, env, d0, ext);
    FilteredIsPart(query, Listed(lib, env, d0, ext).1);
  }

  lemma ListsAreQuiet(lib: Lib, env: Oracle, d: DState, req: Request, ext: Ext)
    requires Handle(lib, env, d, req, ext).1.ServerList?
    ensures Quiet(Asked(req, ext))
  {
    hide SwitchTo, Disconnect, FindIn, Recache, Matches;
  }

  lemma ListedFlagsAt(lib: Lib, env: Oracle, d: DState, ext: Ext)
    ensures var (d', r) := Listed(lib, env, d, ext);
            && r.ServerList? && d'.w.k == d.w.k
            && FlagsExactly(r.servers, LiveKey(lib, d.w.k), LastOk(d'.w))
  {
    hide LiveKey, LastOk, ShownKey, LiveOf, InfoOf;
    var (d', r) := Listed(lib, env, d, ext);
    ReadLiveKeeps(lib, env, d.w);
    forall info | info in r.servers
      ensures info.active <==> LastOk(d'.w) && LiveKey(lib, d.w.k) == Some(info.publicKey)
    {
      var i :| 0 <= i < |r.servers| && r.servers[i] == info;
      ActiveIffLiveKey(lib, env, d, ext, i);
    }
  }

  lemma SwitchTurn(lib: Lib, env: Oracle, d: DState, turns: seq<Turn>, j: nat)
    requires j < |turns| && turns[j].Asked? && turns[j].req.SwitchServer? && ResponseAt(lib, env, d, turns, j).Switched?
    ensures var s := FindIn(StateAt(lib, env, d, turns, j).servers, turns[j].req.name);
            && s.Some? && LiveKey(lib, StateAt(lib, env, d, turns, j + 1).w.k) == PublicKey(lib, s.value.privateKey)
            && StateAt(lib, env, d, turns, j + 1).w.k.iface.Some?
  {
    hide Connect, LiveKey, PublicKey, FindIn;
    SwitchedSetsKey(lib, env, StateAt(lib, env, d, turns, j), turns[j].req.name, turns[j].ext);
  }

  lemma DisconnectTurn(lib: Lib, env: Oracle, d: DState, turns: seq<Turn>, j: nat)
    requires j < |turns| && turns[j].Asked? && turns[j].req.Disconnecting?
             && ResponseAt(lib, env, d, turns, j) == Disconnected
    ensures LiveKey(lib, StateAt(lib, env, d, turns, j + 1).w.k) == None
  {
    hide Drop, LiveKey;
    DisconnectedClearsKey(lib, env, StateAt(lib, env, d, turns, j));
  }

  lemma ListTurn(lib: Lib, env: Oracle, d: DState, turns: seq<Turn>, k: nat)
    requires k < |turns| && turns[k].Asked? && ResponseAt(lib, env, d, turns, k).ServerList?
    ensures FlagsExactly(ResponseAt(lib, env, d, turns, k).servers, LiveKey(lib, StateAt(lib, env, d, turns, k).w.k),
                         LastOk(StateAt(lib, env, d, turns, k + 1).w))
  {
    hide Handle, FlagsExactly, LiveKey, LastOk;
    ListedFlags(lib, env, StateAt(lib, env, d, turns, k), turns[k].req, turns[k].ext);
  }

  /** After a switch was answered, and whatever adds, edits, imports, removals, queries and restarts follow, every
      list flags active exactly the tunnels whose derived key is that of the tunnel switched to. */
  lemma ActiveIsTheSwitchedOne(lib: Lib, env: Oracle, d: DState, turns: seq<Turn>, j: nat, k: nat)
    requires j < k < |turns| && turns[j].Asked? && turns[k].Asked?
    requires turns[j].req.SwitchServer? && ResponseAt(lib, env, d, turns, j).Switched?
    requires forall i :: j < i < k ==> Quiet(turns[i])
    requires ResponseAt(lib, env, d, turns, k).ServerList?
    ensures var s := FindIn(StateAt(lib, env, d, turns, j).servers, turns[j].req.name);
            && s.Some?
            && FlagsExactly(ResponseAt(lib, env, d, turns, k).servers, PublicKey(lib, s.value.privateKey),
                            LastOk(StateAt(lib, env, d, turns, k + 1).w))
  {
    hide StateAt, ResponseAt, LiveKey, FlagsExactly, LastOk, PublicKey, FindIn;
    SwitchTurn(lib, env, d, turns, j);
    QuietRun(lib, env, d, turns, j + 1, k);
    ListTurn(lib, env, d, turns, k);
  }

  /** After a disconnect was answered, nothing is listed as active until something is switched to again. */
  lemma NoneActiveAfterDisconnect(lib: Lib, env: Oracle, d: DState, turns: seq<Turn>, j: nat, k: nat)
    requires j < k < |turns| && turns[j].Asked? && turns[k].Asked?
    requires turns[j].req.Disconnecting? && ResponseAt(lib, env, d, turns, j) == Disconnected
    requires forall i :: j < i < k ==> Quiet(turns[i])
    requires ResponseAt(lib, env, d, turns, k).ServerList?
    ensures forall i :: 0 <= i < |ResponseAt(lib, env, d, turns, k).servers| ==>
            !ResponseAt(lib, env, d, turns, k).servers[i].active
  {
    hide ResponseAt, LiveKey, LastOk, Handle, Quiet;
    DisconnectTurn(lib, env, d, turns, j);
    QuietRun(lib, env, d, turns, j + 1, k);
    ListTurn(lib, env, d, turns, k);
  }

  /** No two of the listed tunnels are flagged active. */
  predicate AtMostOneActive(infos: seq<ServerInfo>) {
    forall i, j :: 0 <= i < j < |infos| ==> !(infos[i].active && infos[j].active)
  }

  /** No two stored tunnels derive this key. */
  predicate AtMostOneDerives(lib: Lib, servers: seq<ServerConfig>, key: Option<string>) {
    forall i, j :: 0 <= i < j < |servers| ==>
      !(key == Some(ShownKey(lib, servers[i])) && key == Some(ShownKey(lib, servers[j])))
  }

  /** In any state, after whatever requests and failures: at most one tunnel is listed as active exactly when the
      interface cannot be read or no two stored tunnels derive the key that is on it. Both sides are known before the
      list is asked for. */
  lemma SoleActiveIff(lib: Lib, env: Oracle, d: DState, ext: Ext)
    ensures var r := Listed(lib, env, d, ext).1;
            r.ServerList? &&
            (AtMostOneActive(r.servers) <==>
             !(env(d.w.clock).ok && d.w.k.iface.Some?) || AtMostOneDerives(lib, d.servers, LiveKey(lib, d.w.k)))
  {
    hide Listed, ShownKey, LiveKey, LastOk;
    ListedKeeps(lib, env, d, ext);
    ListedLength(lib, env, d, ext);
    var (d', r) := Listed(lib, env, d, ext);
    ListReadOk(lib, env, d, ext);
    forall i | 0 <= i < |d.servers|
      ensures r.servers[i].active <==> LastOk(d'.w) && LiveKey(lib, d.w.k) == Some(ShownKey(lib, d.servers[i]))
    {
      ActiveIffLiveKey(lib, env, d, ext, i);
    }
  }

  lemma ListedLength(lib: Lib, env: Oracle, d: DState, ext: Ext)
    ensures var r := Listed(lib, env, d, ext).1; r.ServerList? && |r.servers| == |d.servers|
  {
    hide InfoOf, ReadLive;
  }

  lemma ListReadOk(lib: Lib, env: Oracle, d: DState, ext: Ext)
    ensures LastOk(Listed(lib, env, d, ext).0.w) <==> env(d.w.clock).ok && d.w.k.iface.Some?
  {
    hide InfoOf, LiveOf;
  }

  predicate DistinctKeys(lib: Lib, servers: seq<ServerConfig>) {
    forall i, j :: 0 <= i < j < |servers| ==> ShownKey(lib, servers[i]) != ShownKey(lib, servers[j])
  }

  /** So with pairwise distinct derived keys it is at most one, whatever the kernel carries. */
  lemma DistinctKeysSuffice(lib: Lib, env: Oracle, d: DState, ext: Ext)
    requires DistinctKeys(lib, d.servers)
    ensures var r := Listed(lib, env, d, ext).1; r.ServerList? && AtMostOneActive(r.servers)
  {
    hide Listed, ShownKey, LiveKey, AtMostOneActive;
    SoleActiveIff(lib, env, d, ext);
  }

  /** And after a switch was answered, through whatever quiet requests and restarts: exactly when the interface cannot
      be read or no two of the tunnels then stored derive the key of the one switched to. */
  lemma SoleActiveAfterSwitch(lib: Lib, env: Oracle, d: DState, turns: seq<Turn>, j: nat, k: nat, ext: Ext)
    requires j < k <= |turns| && turns[j].Asked?
    requires turns[j].req.SwitchServer? && ResponseAt(lib, env, d, turns, j).Switched?
    requires forall i :: j < i < k ==> Quiet(turns[i])
    ensures var s := FindIn(StateAt(lib, env, d, turns, j).servers, turns[j].req.name);
            var now := StateAt(lib, env, d, turns, k);
            var r := Listed(lib, env, now, ext).1;
            && s.Some? && r.ServerList?
            && (AtMostOneActive(r.servers) <==>
                !env(now.w.clock).ok || AtMostOneDerives(lib, now.servers, PublicKey(lib, s.value.privateKey)))
  {
    hide StateAt, ResponseAt, Listed, LiveKey, PublicKey, FindIn, AtMostOneActive, AtMostOneDerives;
    SwitchTurn(lib, env, d, turns, j);
    QuietRun(lib, env, d, turns, j + 1, k);
    SoleActiveIff(lib, env, StateAt(lib, env, d, turns, k), ext);
  }

  // --- the status view ---------------------------------------------------------

  /** The peer shook hands less than `secs` seconds ago; the epoch stands for never. */
  predicate ShookWithin(handshake: Option<nat>, wall: nat, secs: nat) {
    handshake.Some? && handshake.value != 0 && wall < handshake.value + secs * 1_000_000_000
  }

  /** The four states, in terms of the times themselves: alive up to three minutes after a handshake, stale from then
      on, and without one connecting for fifteen seconds after a connect, never otherwise. */
  lemma StatesByTime(handshake: Option<nat>, wall: nat, lastConnect: Option<nat>, now: nat)
    ensures var state := DeriveState(HandshakeAge(handshake, wall), WithinWindow(lastConnect, now));
            var shook := handshake.Some? && handshake.value != 0;
            && (state == Alive <==> ShookWithin(handshake, wall, 180))
            && (state == Stale <==> shook && !ShookWithin(handshake, wall, 180))
            && (state == Connecting <==> !shook && lastConnect.Some? && now < lastConnect.value + 15_000_000_000)
            && (state == Never <==> !shook && (lastConnect.None? || now >= lastConnect.value + 15_000_000_000))
  {
    if handshake.Some? && handshake.value <= wall {
      var age := wall - handshake.value;
      assert age / NANOS_PER_SEC < 180 <==> age < 180 * NANOS_PER_SEC;
    }
  }

  /** The age of a handshake is the whole seconds since it; one in the future is of this second, and the epoch is
      none. */
  lemma AgeInSeconds(handshake: Option<nat>, wall: nat, age: nat)
    ensures HandshakeAge(handshake, wall) == Some(age) <==>
            && handshake.Some? && handshake.value != 0
            && (if handshake.value <= wall
                then age * 1_000_000_000 <= wall - handshake.value < (age + 1) * 1_000_000_000
                else age == 0)
  {
  }

  /** The status view is the kernel's: port, and for each peer its key, AllowedIPs, counters and state by its own
      handshake; a down or unreadable interface reads as disconnected. */
  lemma StatusIsTheKernels(lib: Lib, env: Oracle, d: DState, ext: Ext)
    ensures var r := Handle(lib, env, d, Status, ext).1;
            if !(env(d.w.clock).ok && d.w.k.iface.Some?) then r == Disconnected
            else
              var iface := d.w.k.iface.value;
              && r.StatusIs? && r.status.listenPort == iface.port && |r.status.peers| == |iface.peers|
              && forall i :: 0 <= i < |iface.peers| ==>
                   var p := r.status.peers[i];
                   var stats := env(d.w.clock).stats(iface.peers[i].publicKey);
                   && p.publicKey == lib.showKey(iface.peers[i].publicKey) && p.allowedIps == iface.peers[i].allowedIps
                   && p.endpoint == stats.endpoint && p.rxBytes == stats.rxBytes && p.txBytes == stats.txBytes
                   && p.handshakeAge == HandshakeAge(stats.lastHandshake, ext.wall)
                   && p.state == DeriveState(p.handshakeAge, WithinWindow(d.lastConnect, ext.now))
  {
    hide HandshakeAge, WithinWindow, DeriveState;
    ReadLiveKeeps(lib, env, d.w);
  }

  // --- list and status ---------------------------------------------------------

  /** The peer key is stored the way the kernel spells it. */
  predicate Canonically(lib: Lib, s: ServerConfig) {
    var key := lib.parseKey(Trim(s.publicKey));
    key.Some? && lib.showKey(key.value) == s.publicKey
  }

  /** One snapshot, one moment, one peer: the state listed for the active tunnel and the state of the peer in the status
      view are the same exactly when the peer key is stored in the kernel's spelling, or when the kernel has no
      handshake of that peer to miss. A key stored padded or in hex lists as never connected while the status says
      alive. */
  lemma ViewsAgreeIff(lib: Lib, env: Oracle, d: DState, ext: Ext, i: nat, peer: Peer)
    requires i < |d.servers| && d.w.k.iface.Some? && d.w.k.iface.value.peers == [peer]
    requires lib.parseKey(Trim(d.servers[i].publicKey)) == Some(peer.publicKey)
    requires ReadLive(lib, env, d.w).1.Some?
    requires LiveKey(lib, d.w.k) == Some(ShownKey(lib, d.servers[i]))
    ensures var listed := Handle(lib, env, d, ListServers(None), ext).1;
            var status := Handle(lib, env, d, Status, ext).1;
            && listed.ServerList? && |listed.servers| == |d.servers| && status.StatusIs? && |status.status.peers| == 1
            && (listed.servers[i].state == Some(status.status.peers[0].state) <==>
                Canonically(lib, d.servers[i]) || env(d.w.clock).stats(peer.publicKey).lastHandshake in {None, Some(0)})
  {
    hide Trim, ShownKey, LiveKey, WithinWindow, HandshakeAge;
    NoAge(env(d.w.clock).stats(peer.publicKey).lastHandshake, ext.wall);
    ReadLiveKeeps(lib, env, d.w);
    var live := ReadLive(lib, env, d.w).1.value;
    var stats := env(d.w.clock).stats;
    assert live.peers[0] == LivePeerOf(lib, stats)(peer);
    var s := d.servers[i];
    OnlyPeer(live.peers, s.publicKey);
    var age := HandshakeAge(stats(peer.publicKey).lastHandshake, ext.wall);
    var connecting := WithinWindow(d.lastConnect, ext.now);
    var info := InfoOf(lib, Some(live), connecting, ext.wall)(s);
    assert info.state == Some(DeriveState(if Canonically(lib, s) then age else None, connecting));
    assert PeerStatusOf(connecting, ext.wall)(live.peers[0]).state == DeriveState(age, connecting);
  }

  lemma NoAge(handshake: Option<nat>, wall: nat)
    ensures HandshakeAge(handshake, wall).None? <==> handshake in {None, Some(0)}
  {
  }

  lemma OnlyPeer(peers: seq<LivePeer>, key: string)
    requires |peers| == 1
    ensures FirstPeer(peers, key) == if peers[0].publicKey == key then Some(peers[0]) else None
  {
    assert peers[1..] == [];
  }

  /** And this is the state a successful switch leaves: one peer, with the stored peer key. */
  lemma SwitchedHasItsPeer(lib: Lib, env: Oracle, d: DState, name: string, ext: Ext)
    requires Connect(lib, env, d, name, ext).1.Switched?
    ensures var k := Connect(lib, env, d, name, ext).0.w.k;
            && k.iface.Some? && |k.iface.value.peers| == 1
            && lib.parseKey(Trim(FindIn(d.servers, name).value.publicKey)) == Some(k.iface.value.peers[0].publicKey)
  {
    hide Connect, FindIn, Trim, EndpointAddr, ParseMasks, ParseDns, ParseAddresses;
    SwitchedSetsKey(lib, env, d, name, ext);
  }
}
