/** Concrete inputs at which the documented behaviour fails, each run through the model. */
module Witnesses {
  import opened Basics
  import opened Prefix
  import opened Text
  import opened Config
  import opened Kernel
  import opened Routes
  import opened Tunnel
  import opened Switch
  import opened SwitchTarget
  import opened SwitchMarks
  import opened SwitchProgress
  import opened SwitchHistory
  import opened Daemon
  import opened DaemonSafety
  import opened DaemonViews
  import opened ImportRoundTrip
  import WgConf
  import WgConfLayout

  // --- a small world -----------------------------------------------------------

  const SOCKET := SocketAddr(Address(V4, 7), 51820)
  const TUNNEL_ADDRESS: IpAddrMask := AddressMask(Address(V4, 167772162), 32)
  const ONE_SLASH_ZERO: IpAddrMask := AddressMask(Address(V4, 1), 0)
  const ZERO_SLASH_ZERO: IpAddrMask := AddressMask(Address(V4, 0), 0)

  /** Libraries in which every key text is the same key, spelled "k", and two address texts are special. */
  const LIB := Lib(
    (t: string) => Some(Key(0)),
    (k: Key) => "k",
    (k: Key) => k,
    (t: string) =>
      Some(if t == "0.0.0.1/0" then ONE_SLASH_ZERO else if t == "0.0.0.0/0" then ZERO_SLASH_ZERO else TUNNEL_ADDRESS),
    (t: string) => Some(Address(V4, 9)),
    (t: string) => Some(SOCKET),
    (a: SocketAddr) => "s")

  const COLD := KState(None, {}, [], map[], None)
  const START := World(COLD, 0, [])

  /** A kernel on which everything succeeds, and whose peers all shook hands at one moment. */
  const FINE: Oracle := (n: nat) =>
    Outcome(true, COLD, (k: Key) => PeerStats(None, Some(1), 0, 0), 51819, 50000, Static)

  const EXT := Ext(0, 1, "generated", None, SaveOutcome.Saved)

  function Spec(name: string, peerKey: string, allowedIps: seq<string>): ServerSpec {
    ServerSpec(name, Some("private"), peerKey, "host:1", ["10.0.0.2/32"], allowedIps, None, None, None, None, [])
  }

  function Plain(name: string, peerKey: string, allowedIps: seq<string>, mtu: Option<u32>): ServerConfig {
    ServerConfig(name, "private", peerKey, "host:1", Some("s"), ["10.0.0.2/32"], allowedIps, 0, mtu, None, None, [])
  }

  lemma FineSucceeds(n: nat)
    ensures SucceedsFrom(FINE, n)
  {
  }

  /** Everything parses here. */
  lemma AllParse(s: ServerConfig, answer: Option<SocketAddr>)
    requires s.addresses != []
    ensures WellFormed(LIB, s) && PlanSwitch(LIB, s, answer).Ok? && PlanSwitch(LIB, s, answer).value.endpoint == SOCKET
    ensures ValidateServer(LIB, s, answer) == Ok(SOCKET)
    ensures PublicKey(LIB, s.privateKey) == Some("k") && ShownKey(LIB, s) == "k"
  {
    hide Trim, CollectSome, ParseDns, PeerOf;
    CollectSomeElements(s.addresses, MaskParser(LIB));
    CollectSomeElements(s.allowedIps, MaskParser(LIB));
    DnsParses(s);
    ValidateExactly(LIB, s, answer);
    PlanExactly(LIB, s, answer);
    PeerOfExactly(LIB, s, answer);
  }

  lemma DnsParses(s: ServerConfig)
    ensures ParseDns(LIB, s).Ok?
  {
    hide Trim, CollectSome;
    CollectSomeElements(s.dns, (t: string) => LIB.parseIp(Trim(t)));
    var parser := (t: string) => LIB.parseIp(Trim(t));
    assert forall t: string :: parser(t).Some?;
  }

  /** A switch works from anywhere. */
  lemma Switches(w: World, s: ServerConfig, answer: Option<SocketAddr>)
    requires s.addresses != []
    ensures SwitchTo(LIB, FINE, w, s, answer).1 == Ok(SOCKET)
  {
    hide SwitchTo, PlanSwitch, WellFormed, ValidateServer;
    FineSucceeds(w.clock + 1);
    AllParse(s, answer);
    SwitchSucceeds(LIB, FINE, w, s, answer);
  }

  // --- the `/0` that stays -----------------------------------------------------

  lemma SlashZeroSplit(answer: Option<SocketAddr>)
    ensures PlanSwitch(LIB, Plain("a", "k", ["0.0.0.1/0"], None), answer).Ok?
    ensures ZERO_SLASH_ZERO in PlanSwitch(LIB, Plain("a", "k", ["0.0.0.1/0"], None), answer).value.split
    ensures PlanSwitch(LIB, Plain("b", "k", [], None), answer).Ok?
    ensures PlanSwitch(LIB, Plain("b", "k", [], None), answer).value.split == []
  {
    hide Trim, CollectSome, ParseAddresses, ParseDns, EndpointAddr, SplitRoutePrefixes;
    var a, b := Plain("a", "k", ["0.0.0.1/0"], None), Plain("b", "k", [], None);
    AllParse(a, answer);
    AllParse(b, answer);
    TrimFixpoint("0.0.0.1/0");
    CollectSomeElements(a.allowedIps, MaskParser(LIB));
    CollectSomeElements(b.allowedIps, MaskParser(LIB));
    var pa, pb := PlanSwitch(LIB, a, answer).value, PlanSwitch(LIB, b, answer).value;
    assert pa.peer.allowedIps == [ONE_SLASH_ZERO] && pb.peer.allowedIps == [];
    NonZeroSlashZero();
    SplitPrefixElements(pa.peer, ZERO_SLASH_ZERO);
    assert NetworkPrefix(ONE_SLASH_ZERO) == ZERO_SLASH_ZERO by {
      SlashZeroMasks();
    }
    assert ONE_SLASH_ZERO in pa.peer.allowedIps;
    NothingToSplit(pb.peer);
  }

  lemma SlashZeroMasks()
    ensures NetworkPrefix(ONE_SLASH_ZERO) == ZERO_SLASH_ZERO
  {
    hide NetworkPrefix;
    NonZeroSlashZero();
    var peer := Peer(Key(0), None, [ONE_SLASH_ZERO], None, None);
    SplitPrefixElements(peer, ZERO_SLASH_ZERO);
    assert ZERO_SLASH_ZERO in SplitRoutePrefixes(peer);
  }

  lemma NothingToSplit(peer: Peer)
    requires peer.allowedIps == []
    ensures SplitRoutePrefixes(peer) == []
  {
  }

  /** Switching to a tunnel with `0.0.0.1/0` and then to one without any AllowedIP leaves a default route of ours
      behind. */
  lemma SlashZeroStays()
    ensures var a, b := Plain("a", "k", ["0.0.0.1/0"], None), Plain("b", "k", [], None);
            var w := SwitchTo(LIB, FINE, START, a, None);
            var w' := SwitchTo(LIB, FINE, w.0, b, None);
            && w.1.Ok? && w'.1.Ok? && PlanSwitch(LIB, b, None).Ok? && PlanSwitch(LIB, b, None).value.split == []
            && HasOwned(w'.0.k.routes, ZERO_SLASH_ZERO)
  {
    hide SwitchTo, PlanSwitch, HasOwned;
    var a, b := Plain("a", "k", ["0.0.0.1/0"], None), Plain("b", "k", [], None);
    var w := SwitchTo(LIB, FINE, START, a, None).0;
    Switches(START, a, None);
    Switches(w, b, None);
    SlashZeroSplit(None);
    SlashZeroStaysBehind(a, b);
  }

  lemma SlashZeroStaysBehind(a: ServerConfig, b: ServerConfig)
    requires SwitchTo(LIB, FINE, START, a, None).1.Ok?
    requires PlanSwitch(LIB, a, None).Ok? && ZERO_SLASH_ZERO in PlanSwitch(LIB, a, None).value.split
    requires SwitchTo(LIB, FINE, SwitchTo(LIB, FINE, START, a, None).0, b, None).1.Ok?
    requires PlanSwitch(LIB, b, None).Ok? && PlanSwitch(LIB, b, None).value.split == []
    ensures HasOwned(SwitchTo(LIB, FINE, SwitchTo(LIB, FINE, START, a, None).0, b, None).0.k.routes, ZERO_SLASH_ZERO)
  {
    hide RunPlan, PlanSwitch, HasOwned, Settled, Reached, BestEffortOk;
    SwitchReaches(LIB, FINE, START, a, None);
    SwitchLeavesDefault(LIB, FINE, SwitchTo(LIB, FINE, START, a, None).0, b, None, ZERO_SLASH_ZERO);
  }

  // --- the MTU that stays ------------------------------------------------------

  /** Whatever the tunnels: an MTU that the next one does not set is the last one's, while a cold kernel has none. */
  lemma MtuIsInherited(lib: Lib, env: Oracle, w: World, a: ServerConfig, b: ServerConfig, answer: Option<SocketAddr>)
    requires a.mtu.Some? && b.mtu.None? && SwitchTo(lib, env, w, a, answer).1.Ok?
    requires SwitchTo(lib, env, SwitchTo(lib, env, w, a, answer).0, b, answer).1.Ok?
    requires w.k.iface.None? && SwitchTo(lib, env, w, b, answer).1.Ok?
    ensures var warm := SwitchTo(lib, env, SwitchTo(lib, env, w, a, answer).0, b, answer).0.k;
            var cold := SwitchTo(lib, env, w, b, answer).0.k;
            && warm.iface.Some? && warm.iface.value.mtu == a.mtu
            && cold.iface.Some? && cold.iface.value.mtu == None
  {
    hide SwitchTo, PlanSwitch, RoutesWanted, Settled, BestEffortOk;
    SwitchReaches(lib, env, w, a, answer);
    SwitchReaches(lib, env, SwitchTo(lib, env, w, a, answer).0, b, answer);
    SwitchReaches(lib, env, w, b, answer);
  }

  /** An MTU of 1280 outlives the tunnel that set it. */
  lemma MtuStays()
    ensures var a, b := Plain("a", "k", [], Some(1280)), Plain("b", "k", [], None);
            var warm := SwitchTo(LIB, FINE, SwitchTo(LIB, FINE, START, a, None).0, b, None).0.k;
            var cold := SwitchTo(LIB, FINE, START, b, None).0.k;
            && warm.iface.Some? && warm.iface.value.mtu == Some(1280)
            && cold.iface.Some? && cold.iface.value.mtu == None
  {
    hide SwitchTo;
    var a, b := Plain("a", "k", [], Some(1280)), Plain("b", "k", [], None);
    Switches(START, a, None);
    Switches(SwitchTo(LIB, FINE, START, a, None).0, b, None);
    Switches(START, b, None);
    MtuIsInherited(LIB, FINE, START, a, b, None);
  }

  // --- the mark that is lost ---------------------------------------------------

  /** Everything succeeds but step `n`. */
  function FineBut(n: nat): Oracle {
    (i: nat) => if i == n then FINE(i).(ok := false) else FINE(i)
  }

  lemma FullTunnelPlan(answer: Option<SocketAddr>)
    ensures var a := Plain("a", "k", ["0.0.0.0/0"], None);
            PlanSwitch(LIB, a, answer).Ok? && PlanSwitch(LIB, a, answer).value.fullTunnel
    ensures var b := Plain("b", "k", [], None);
            PlanSwitch(LIB, b, answer).Ok? && !PlanSwitch(LIB, b, answer).value.fullTunnel
  {
    hide Trim, CollectSome, ParseAddresses, ParseDns, EndpointAddr, SplitRoutePrefixes;
    var a, b := Plain("a", "k", ["0.0.0.0/0"], None), Plain("b", "k", [], None);
    AllParse(a, answer);
    AllParse(b, answer);
    TrimFixpoint("0.0.0.0/0");
    CollectSomeElements(a.allowedIps, MaskParser(LIB));
    CollectSomeElements(b.allowedIps, MaskParser(LIB));
    var pa, pb := PlanSwitch(LIB, a, answer).value, PlanSwitch(LIB, b, answer).value;
    assert pa.peer.allowedIps == [ZERO_SLASH_ZERO] && pb.peer.allowedIps == [];
    assert pa.peer in [pa.peer] && ZERO_SLASH_ZERO in pa.peer.allowedIps;
  }

  /** A full tunnel is up; the next switch cannot read its interface once, and succeeds. The rule still exempts the old
      mark, and the device carries none. */
  lemma TransientReadLosesTheMark()
    ensures var a, b := Plain("a", "k", ["0.0.0.0/0"], None), Plain("b", "k", [], None);
            var w := SwitchTo(LIB, FINE, START, a, None).0;
            var w' := SwitchTo(LIB, FineBut(w.clock), w, b, None);
            && w'.1.Ok? && Agree(w.k) && DeviceMark(w.k) == Some(51820)
            && NotFwmark(51820) in w'.0.k.rules && DeviceMark(w'.0.k) == None && !Agree(w'.0.k)
  {
    hide SwitchTo, PlanSwitch, WellFormed, ValidateServer, FINE;
    var a, b := Plain("a", "k", ["0.0.0.0/0"], None), Plain("b", "k", [], None);
    var w := SwitchTo(LIB, FINE, START, a, None).0;
    FullTunnelPlan(None);
    Switches(START, a, None);
    SwitchMark(LIB, FINE, START, a, None);
    FineMark(3);
    assert START.k.iface.None? && START.k.rules == {};
    assert NotFwmark(51820) in w.k.rules;
    AllParse(b, None);
    FineSucceeds(w.clock + 1);
    SwitchSucceeds(LIB, FineBut(w.clock), w, b, None);
    SwitchMark(LIB, FineBut(w.clock), w, b, None);
  }

  lemma FineMark(n: nat)
    ensures FINE(n).freeMark + 1 == 51820
  {
  }

  // --- through the daemon ------------------------------------------------------

  /** An add of a plain name stores the tunnel and, if it was saved, is answered with the list. */
  lemma Adds(d: DState, name: string, peerKey: string, allowedIps: seq<string>, ext: Ext)
    requires Trimmed(name) && name != ""
    ensures var (d', failure) := Add(LIB, d, Spec(name, peerKey, allowedIps), ext);
            && d'.servers == UpsertIn(d.servers, Plain(name, peerKey, allowedIps, None))
            && d'.disk == (if ext.save.FailedKept? then d.disk else d'.servers)
            && failure == (if ext.save.Saved? then None else Some(NotPersisted))
            && d'.w == d.w && d'.lastConnect == d.lastConnect
  {
    hide Trim, ValidateServer, UpsertIn, PlanSwitch, WellFormed, PublicKey, Trimmed;
    TrimFixpoint(name);
    PrivateTrims();
    var spec := Spec(name, peerKey, allowedIps);
    var s := Assembled(spec, Or(Supplied(spec.privateKey), ext.freshKey), spec.presharedKey);
    AllParse(s, ext.answer);
  }

  lemma PrivateTrims()
    ensures Trim("private") == "private"
  {
    TrimFixpoint("private");
  }

  /** A switch to a stored tunnel of ours is answered, and its cached endpoint is up to date. */
  lemma Connects(d: DState, name: string, ext: Ext)
    requires FindIn(d.servers, name).Some? && FindIn(d.servers, name).value.addresses != []
    requires FindIn(d.servers, name).value.resolvedEndpoint == Some("s")
    ensures var (d', r) := Connect(LIB, FINE, d, name, ext);
            && r == Switched(name) && d'.servers == d.servers
            && d'.w == SwitchTo(LIB, FINE, d.w, FindIn(d.servers, name).value, ext.answer).0
  {
    hide SwitchTo, FindIn;
    Switches(d.w, FindIn(d.servers, name).value, ext.answer);
  }

  function Two(peerKey: string): seq<ServerConfig> {
    [Plain("a", peerKey, [], None), Plain("b", peerKey, [], None)]
  }

  /** The configuration after adding two tunnels that differ in their names only. */
  function AfterAdds(peerKey: string): DState {
    var d1 := Handle(LIB, FINE, DState([], [], None, START), AddServer(Spec("a", peerKey, [])), EXT).0;
    Handle(LIB, FINE, d1, AddServer(Spec("b", peerKey, [])), EXT).0
  }

  lemma AddAnswers(d: DState, name: string, peerKey: string)
    requires Trimmed(name) && name != ""
    ensures var (d', r) := Handle(LIB, FINE, d, AddServer(Spec(name, peerKey, [])), EXT);
            && r.ServerList? && d'.servers == UpsertIn(d.servers, Plain(name, peerKey, [], None)) && d'.w.k == d.w.k
  {
    hide Add, UpsertIn, Listed;
    Adds(d, name, peerKey, [], EXT);
    ListedKeeps(LIB, FINE, Add(LIB, d, Spec(name, peerKey, []), EXT).0, EXT);
  }

  lemma TwoAreStored(peerKey: string)
    ensures AfterAdds(peerKey).servers == Two(peerKey)
  {
    hide Handle;
    var d0 := DState([], [], None, START);
    AddAnswers(d0, "a", peerKey);
    var a := Plain("a", peerKey, [], None);
    var d1 := Handle(LIB, FINE, d0, AddServer(Spec("a", peerKey, [])), EXT).0;
    AddAnswers(d1, "b", peerKey);
    UpsertTwo(a, Plain("b", peerKey, [], None));
  }

  /** The daemon once "a" is connected. */
  function AfterSwitch(peerKey: string): DState {
    Handle(LIB, FINE, AfterAdds(peerKey), SwitchServer("a"), EXT).0
  }

  lemma AIsConnected(peerKey: string)
    ensures var d := AfterSwitch(peerKey);
            && Handle(LIB, FINE, AfterAdds(peerKey), SwitchServer("a"), EXT).1 == Switched("a")
            && d.servers == Two(peerKey) && d.lastConnect == Some(0)
            && LiveKey(LIB, d.w.k) == Some("k") && d.w.k.iface.Some? && |d.w.k.iface.value.peers| == 1
            && d.w.k.iface.value.peers[0].publicKey == Key(0)
  {
    hide AfterAdds, Connect, LiveKey;
    TwoAreStored(peerKey);
    var d := AfterAdds(peerKey);
    var a := Plain("a", peerKey, [], None);
    assert FindIn(d.servers, "a") == Some(a);
    Connects(d, "a", EXT);
    ConnectOpens(d);
    hide Handle;
    ConnectedKernel(d, a);
    ConnectIsHandled(d);
  }

  lemma ConnectIsHandled(d: DState)
    ensures Handle(LIB, FINE, d, SwitchServer("a"), EXT) == Connect(LIB, FINE, d, "a", EXT)
  {
    hide Connect;
  }

  lemma ConnectedKernel(d: DState, a: ServerConfig)
    requires FindIn(d.servers, "a") == Some(a) && a.addresses != []
    requires Connect(LIB, FINE, d, "a", EXT).1.Switched?
    ensures var k := Connect(LIB, FINE, d, "a", EXT).0.w.k;
            && LiveKey(LIB, k) == Some("k") && k.iface.Some? && |k.iface.value.peers| == 1
            && k.iface.value.peers[0].publicKey == Key(0)
  {
    hide Connect, LiveKey, PublicKey, FindIn, PlanSwitch, WellFormed, ValidateServer;
    SwitchedSetsKey(LIB, FINE, d, "a", EXT);
    SwitchedHasItsPeer(LIB, FINE, d, "a", EXT);
    AllParse(a, None);
  }

  lemma ConnectOpens(d: DState)
    requires Connect(LIB, FINE, d, "a", EXT).1 == Switched("a")
    ensures Connect(LIB, FINE, d, "a", EXT).0.lastConnect == Some(0)
  {
    hide SwitchTo, FindIn, UpsertIn;
  }

  /** Two names with one private key, one of them connected: both are listed as active. */
  lemma SharedKeyListsTwice()
    ensures var r := Handle(LIB, FINE, AfterSwitch("k"), ListServers(None), EXT).1;
            && r.ServerList? && |r.servers| == 2
            && r.servers[0].name == "a" && r.servers[0].active && r.servers[1].name == "b" && r.servers[1].active
  {
    hide AfterSwitch, Listed, ShownKey, LiveKey, LastOk;
    var d := AfterSwitch("k");
    AIsConnected("k");
    AllParse(d.servers[0], None);
    AllParse(d.servers[1], None);
    ActiveIffLiveKey(LIB, FINE, d, EXT, 0);
    ActiveIffLiveKey(LIB, FINE, d, EXT, 1);
    ListReadOk(LIB, FINE, d, EXT);
  }

  /** A peer key stored with a space before it: the status view says alive, the list says connecting. */
  lemma PaddedPeerKeyDisagrees()
    ensures var listed := Handle(LIB, FINE, AfterSwitch(" k"), ListServers(None), EXT).1;
            var status := Handle(LIB, FINE, AfterSwitch(" k"), Status, EXT).1;
            && listed.ServerList? && |listed.servers| == 2 && status.StatusIs? && |status.status.peers| == 1
            && status.status.peers[0].state == Alive && listed.servers[0].state != Some(Alive)
  {
    hide AfterSwitch, Listed, ShownKey, LiveKey, Handle, WithinWindow, Trim;
    var d := AfterSwitch(" k");
    AIsConnected(" k");
    AllParse(d.servers[0], None);
    StatusIsTheKernels(LIB, FINE, d, EXT);
    var peer := d.w.k.iface.value.peers[0];
    assert d.w.k.iface.value.peers == [peer];
    FineReads(d.w);
    ViewsAgreeIff(LIB, FINE, d, EXT, 0, peer);
    assert !Canonically(LIB, d.servers[0]);
  }

  lemma FineReads(w: World)
    requires w.k.iface.Some?
    ensures ReadLive(LIB, FINE, w).1.Some?
  {
  }

  // --- the save that failed ----------------------------------------------------

  /** An add whose save failed is refused, is in memory and not in the file, and is gone after a restart; but if
      something else is saved first, it is saved with it. */
  lemma FailedSaveLeavesMemoryAhead()
    ensures var d0 := DState([], [], None, START);
            var a, b := Plain("a", "k", [], None), Plain("b", "k", [], None);
            var (d1, r) := Handle(LIB, FINE, d0, AddServer(Spec("a", "k", [])), EXT.(save := FailedKept));
            && r == Refused(NotPersisted) && d1.servers == [a] && d1.disk == []
            && Next(LIB, FINE, d1, Restarted).0.servers == []
            && Handle(LIB, FINE, d1, AddServer(Spec("b", "k", [])), EXT).0.disk == [a, b]
  {
    hide Add, Listed, UpsertIn;
    var d0 := DState([], [], None, START);
    var a, b := Plain("a", "k", [], None), Plain("b", "k", [], None);
    Adds(d0, "a", "k", [], EXT.(save := FailedKept));
    UpsertTwo(a, b);
    var d1 := Handle(LIB, FINE, d0, AddServer(Spec("a", "k", [])), EXT.(save := FailedKept)).0;
    Adds(d1, "b", "k", [], EXT);
    ListedKeeps(LIB, FINE, Add(LIB, d1, Spec("b", "k", []), EXT).0, EXT);
  }

  lemma UpsertTwo(a: ServerConfig, b: ServerConfig)
    requires a.name != b.name
    ensures UpsertIn([], a) == [a] && UpsertIn([a], b) == [a, b]
  {
    assert [a][1..] == [];
    assert UpsertIn([a], b) == [a] + UpsertIn([], b);
  }

  // --- the private key that was empty ------------------------------------------

  const KEYLESS := WgConf.ParsedConfig("", ["10.0.0.2/32"], [], None, None, "k", "host:1", ["10.0.0.0/8"], None, None)

  lemma KeylessIsPrintable()
    ensures WgConfLayout.Printable(KEYLESS)
  {
  }

  /** A file whose `PrivateKey` is empty is imported, with a key that the daemon made up. */
  lemma EmptyPrivateKeyIsReplaced()
    ensures var d0 := DState([], [], None, START);
            var (d', r) := Handle(LIB, FINE, d0, ImportServer("a", WgConfLayout.Print(KEYLESS)), EXT);
            && r.ServerList? && FindIn(d'.servers, "a").Some? && FindIn(d'.servers, "a").value.privateKey == "generated"
  {
    hide WgConfLayout.Print, WgConf.Meaning, WgConf.ClassifyAll, WgConf.Lines, Trim, FindIn, Handle;
    KeylessIsPrintable();
    WgConfLayout.ParsePrint(KEYLESS);
    TrimFixpoint("a");
    var d0 := DState([], [], None, START);
    var conf := WgConfLayout.Print(KEYLESS);
    KeylessImports(d0, conf);
    var (d', r) := Handle(LIB, FINE, d0, ImportServer("a", conf), EXT);
    var s, _ := ImportStores(LIB, FINE, d0, "a", conf, EXT, KEYLESS, d', r.servers, "a");
  }

  lemma KeylessImports(d: DState, conf: string)
    requires ReadConf(conf) == Some(KEYLESS) && Trim("a") == "a"
    ensures Handle(LIB, FINE, d, ImportServer("a", conf), EXT).1.ServerList?
  {
    hide ReadConf, Trim, ValidateServer, UpsertIn, Listed, PlanSwitch, WellFormed, PublicKey;
    var spec := SpecOf("a", KEYLESS);
    var s := Assembled(spec, Or(Supplied(spec.privateKey), EXT.freshKey), spec.presharedKey);
    AllParse(s, EXT.answer);
    ListedKeeps(LIB, FINE, Add(LIB, d, spec, EXT).0, EXT);
  }
}
