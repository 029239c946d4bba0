/** The daemon's brain: each request as a function of its state and of what the outside answers, and as the
    code runs it, changing the vector, the state file, the connecting window and the kernel in place. */
module Daemon {
  import opened Basics
  import opened Prefix
  import opened Text
  import opened Config
  import opened Kernel
  import opened Tunnel
  import opened Switch
  import WgConf

  // --- the protocol ------------------------------------------------------------

  datatype ServerSpec = ServerSpec(
    name: string,
    privateKey: Option<string>,
    publicKey: string,
    endpoint: string,
    addresses: seq<string>,
    allowedIps: seq<string>,
    listenPort: Option<u16>,
    mtu: Option<u32>,
    keepalive: Option<u16>,
    presharedKey: Option<string>,
    dns: seq<string>)

  datatype Request =
    | Status
    | ListServers(query: Option<string>)
    | GetServer(name: string)
    | AddServer(server: ServerSpec)
    | EditServer(server: ServerSpec)
    | ImportServer(name: string, conf: string)
    | RemoveServer(name: string)
    | SwitchServer(name: string)
    | Disconnecting

  datatype ConnState = Alive | Connecting | Stale | Never

  datatype ServerInfo = ServerInfo(
    name: string,
    endpoint: string,
    addresses: seq<string>,
    publicKey: string,
    active: bool,
    state: Option<ConnState>)

  datatype ServerDetail = ServerDetail(
    name: string,
    publicKey: string,
    endpoint: string,
    addresses: seq<string>,
    allowedIps: seq<string>,
    listenPort: Option<u16>,
    mtu: Option<u32>,
    keepalive: Option<u16>,
    hasPresharedKey: bool,
    dns: seq<string>)

  datatype PeerStatus = PeerStatus(
    publicKey: string,
    endpoint: Option<SocketAddr>,
    allowedIps: seq<IpAddrMask>,
    state: ConnState,
    handshakeAge: Option<nat>,
    rxBytes: nat,
    txBytes: nat)

  datatype InterfaceStatus = InterfaceStatus(listenPort: nat, peers: seq<PeerStatus>)

  datatype Response =
    | StatusIs(status: InterfaceStatus)
    | Disconnected
    | ServerList(servers: seq<ServerInfo>)
    | DetailIs(detail: ServerDetail)
    | Switched(name: string)
    | Refused(error: Error)

  // --- time --------------------------------------------------------------------

  const NANOS_PER_SEC: nat := 1_000_000_000
  const CONNECTING_WINDOW: nat := 15 * NANOS_PER_SEC
  const STALE_AFTER_SECS: nat := 180

  function DeriveState(age: Option<nat>, connecting: bool): ConnState {
    match age
    case Some(secs) => if secs < STALE_AFTER_SECS then Alive else Stale
    case None => if connecting then Connecting else Never
  }

  /** Whole seconds since a handshake; the epoch means never, and a handshake in the future is fresh. */
  function HandshakeAge(handshake: Option<nat>, wall: nat): Option<nat> {
    if handshake.None? || handshake.value == 0 then None
    else Some(if handshake.value <= wall then (wall - handshake.value) / NANOS_PER_SEC else 0)
  }

  function WithinWindow(lastConnect: Option<nat>, now: nat): bool {
    lastConnect.Some? && (if lastConnect.value <= now then now - lastConnect.value else 0) < CONNECTING_WINDOW
  }

  // --- state -------------------------------------------------------------------

  /** How a save goes, as far as a running daemon or the next one can see: a failed save may have replaced the
      file before it failed. */
  datatype SaveOutcome = Saved | FailedKept | FailedReplaced

  /** What the outside supplies to one request: both clocks, a generated key, the resolver's answer, the save. */
  datatype Ext = Ext(now: nat, wall: nat, freshKey: string, answer: Option<SocketAddr>, save: SaveOutcome)

  datatype DState = DState(servers: seq<ServerConfig>, disk: seq<ServerConfig>, lastConnect: Option<nat>, w: World)

  function Persist(d: DState, save: SaveOutcome): (DState, Option<Error>) {
    (if save.FailedKept? then d else d.(disk := d.servers), if save.Saved? then None else Some(NotPersisted))
  }

  // --- live state --------------------------------------------------------------

  datatype LivePeer = LivePeer(publicKey: string, allowedIps: seq<IpAddrMask>, stats: PeerStats)

  datatype LiveInterface = LiveInterface(publicKey: Option<string>, listenPort: nat, peers: seq<LivePeer>)

  function LivePeerOf(lib: Lib, stats: Key -> PeerStats): Peer -> LivePeer {
    (p: Peer) => LivePeer(lib.showKey(p.publicKey), p.allowedIps, stats(p.publicKey))
  }

  function LiveOf(lib: Lib, iface: Interface, stats: Key -> PeerStats): LiveInterface {
    LiveInterface(if iface.privateKey.None? then None else Some(lib.showKey(lib.publicOf(iface.privateKey.value))),
                  iface.port, Map(iface.peers, LivePeerOf(lib, stats)))
  }

  function ReadLive(lib: Lib, env: Oracle, w: World): (World, Option<LiveInterface>) {
    var (w', host) := Step(env, w, ReadInterfaceData);
    (w', if host.Host? then Some(LiveOf(lib, host.iface, host.stats)) else None)
  }

  function ActiveKey(live: Option<LiveInterface>): Option<string> {
    if live.None? then None else live.value.publicKey
  }

  function FirstPeer(peers: seq<LivePeer>, key: string): Option<LivePeer> {
    if peers == [] then None else if peers[0].publicKey == key then Some(peers[0]) else FirstPeer(peers[1..], key)
  }

  // --- views -------------------------------------------------------------------

  /** What a tunnel whose private key does not parse lists as its key. */
  const UNAVAILABLE := "(unavailable)"

  function ShownKey(lib: Lib, s: ServerConfig): string {
    var key := PublicKey(lib, s.privateKey);
    if key.None? then UNAVAILABLE else key.value
  }

  function InfoOf(lib: Lib, live: Option<LiveInterface>, connecting: bool, wall: nat): ServerConfig -> ServerInfo {
    (s: ServerConfig) =>
      var shown := ShownKey(lib, s);
      var active := ActiveKey(live) == Some(shown);
      var peer := if live.None? then None else FirstPeer(live.value.peers, s.publicKey);
      var age := if peer.None? then None else HandshakeAge(peer.value.stats.lastHandshake, wall);
      ServerInfo(s.name, s.endpoint, s.addresses, shown, active,
                 if active then Some(DeriveState(age, connecting)) else None)
  }

  function DetailOf(s: ServerConfig): ServerDetail {
    ServerDetail(s.name, s.publicKey, s.endpoint, s.addresses, s.allowedIps,
                 if s.listenPort != 0 then Some(s.listenPort) else None, s.mtu, s.keepalive, s.presharedKey.Some?,
                 s.dns)
  }

  function PeerStatusOf(connecting: bool, wall: nat): LivePeer -> PeerStatus {
    (p: LivePeer) =>
      var age := HandshakeAge(p.stats.lastHandshake, wall);
      PeerStatus(p.publicKey, p.stats.endpoint, p.allowedIps, DeriveState(age, connecting), age, p.stats.rxBytes,
                 p.stats.txBytes)
  }

  function StatusOf(live: LiveInterface, connecting: bool, wall: nat): InterfaceStatus {
    InterfaceStatus(live.listenPort, Map(live.peers, PeerStatusOf(connecting, wall)))
  }

  function Listed(lib: Lib, env: Oracle, d: DState, ext: Ext): (DState, Response) {
    var (w, live) := ReadLive(lib, env, d.w);
    (d.(w := w), ServerList(Map(d.servers, InfoOf(lib, live, WithinWindow(d.lastConnect, ext.now), ext.wall))))
  }

  predicate Contains(text: string, part: string) {
    part <= text || (text != [] && Contains(text[1..], part))
  }

  /** The free-text filter: a substring of the name, the endpoint or an address, in any letter case. */
  function Matches(query: string): ServerInfo -> bool {
    (s: ServerInfo) =>
      var q := Lower(Trim(query));
      q == "" || Contains(Lower(s.name), q) || Contains(Lower(s.endpoint), q) ||
      exists a :: a in s.addresses && Contains(Lower(a), q)
  }

  /** What is left of a list when it was asked for with a filter. */
  function Filtered(query: Option<string>, r: Response): Response {
    if query.None? || !r.ServerList? then r else ServerList(Keep(r.servers, Matches(query.value)))
  }

  function ReadStatus(lib: Lib, env: Oracle, d: DState, ext: Ext): (DState, Response) {
    var (w, live) := ReadLive(lib, env, d.w);
    (d.(w := w), if live.None? then Disconnected
                 else StatusIs(StatusOf(live.value, WithinWindow(d.lastConnect, ext.now), ext.wall)))
  }

  // --- changing the configuration ----------------------------------------------

  /** A supplied secret, trimmed; a blank one counts as none. */
  function Supplied(secret: Option<string>): Option<string> {
    if secret.None? || Trim(secret.value) == "" then None else Some(Trim(secret.value))
  }

  function Or<T>(first: Option<T>, otherwise: T): T {
    if first.Some? then first.value else otherwise
  }

  function Assembled(spec: ServerSpec, privateKey: string, presharedKey: Option<string>): ServerConfig {
    ServerConfig(Trim(spec.name), privateKey, spec.publicKey, spec.endpoint, None, spec.addresses, spec.allowedIps,
                 Or(spec.listenPort, 0), spec.mtu, spec.keepalive, presharedKey, spec.dns)
  }

  /** Validate, cache the endpoint, upsert, persist. */
  function Admit(lib: Lib, d: DState, server: ServerConfig, ext: Ext): (DState, Option<Error>) {
    match ValidateServer(lib, server, ext.answer)
    case Err(e) => (d, Some(e))
    case Ok(addr) =>
      var cached := server.(resolvedEndpoint := Some(lib.showSocket(addr)));
      Persist(d.(servers := UpsertIn(d.servers, cached)), ext.save)
  }

  function Add(lib: Lib, d: DState, spec: ServerSpec, ext: Ext): (DState, Option<Error>) {
    if Trim(spec.name) == "" then (d, Some(EmptyName))
    else Admit(lib, d, Assembled(spec, Or(Supplied(spec.privateKey), ext.freshKey), spec.presharedKey), ext)
  }

  function SpecOf(name: string, c: WgConf.ParsedConfig): ServerSpec {
    ServerSpec(name, Some(c.privateKey), c.publicKey, c.endpoint, c.addresses, c.allowedIps, c.listenPort, c.mtu,
               c.keepalive, c.presharedKey, c.dns)
  }

  function ReadConf(conf: string): Option<WgConf.ParsedConfig> {
    WgConf.Meaning(WgConf.ClassifyAll(WgConf.Lines(conf)))
  }

  function Import(lib: Lib, d: DState, name: string, conf: string, ext: Ext): (DState, Option<Error>) {
    match ReadConf(conf)
    case None => (d, Some(BadConf))
    case Some(parsed) => Add(lib, d, SpecOf(name, parsed), ext)
  }

  /** What an edit stores: a secret that is not resupplied is kept. */
  function Edited(spec: ServerSpec, existing: ServerConfig): ServerConfig {
    Assembled(spec, Or(Supplied(spec.privateKey), existing.privateKey),
              if Supplied(spec.presharedKey).Some? then Supplied(spec.presharedKey) else existing.presharedKey)
  }

  function Edit(lib: Lib, env: Oracle, d: DState, spec: ServerSpec, ext: Ext): (DState, Option<Error>) {
    if Trim(spec.name) == "" then (d, Some(EmptyName))
    else
      match FindIn(d.servers, Trim(spec.name))
      case None => (d, Some(UnknownServer))
      case Some(existing) =>
        match PublicKey(lib, existing.privateKey)
        case None => (d, Some(BadPrivateKey))
        case Some(derived) =>
          var (w, live) := ReadLive(lib, env, d.w);
          if ActiveKey(live) == Some(derived) then (d.(w := w), Some(ActiveTunnel))
          else Admit(lib, d.(w := w), Edited(spec, existing), ext)
  }

  function Remove(d: DState, name: string, ext: Ext): (DState, Option<Error>) {
    if FindIn(d.servers, name).None? then (d, Some(UnknownServer))
    else Persist(d.(servers := RemoveIn(d.servers, name)), ext.save)
  }

  // --- connecting --------------------------------------------------------------

  /** The endpoint a switch used becomes the cached one; a save that fails here is not reported. */
  function Recache(d: DState, s: ServerConfig, addr: string, save: SaveOutcome): DState {
    if s.resolvedEndpoint == Some(addr) then d
    else Persist(d.(servers := UpsertIn(d.servers, s.(resolvedEndpoint := Some(addr)))), save).0
  }

  function Connect(lib: Lib, env: Oracle, d: DState, name: string, ext: Ext): (DState, Response) {
    match FindIn(d.servers, name)
    case None => (d, Refused(UnknownServer))
    case Some(s) =>
      var (w, r) := SwitchTo(lib, env, d.w, s, ext.answer);
      match r
      case Err(e) => (d.(w := w), Refused(e))
      case Ok(addr) =>
        (Recache(d.(w := w, lastConnect := Some(ext.now)), s, lib.showSocket(addr), ext.save), Switched(name))
  }

  function Drop(env: Oracle, d: DState): (DState, Response) {
    var (w, ok) := Disconnect(env, d.w);
    if ok then (d.(w := w, lastConnect := None), Disconnected) else (d.(w := w), Refused(OpFailed))
  }

  // --- one request -------------------------------------------------------------

  /** A change that succeeded is answered with the new list. */
  function Answer(lib: Lib, env: Oracle, change: (DState, Option<Error>), ext: Ext): (DState, Response) {
    if change.1.Some? then (change.0, Refused(change.1.value)) else Listed(lib, env, change.0, ext)
  }

  function Handle(lib: Lib, env: Oracle, d: DState, req: Request, ext: Ext): (DState, Response) {
    match req
    case Status => ReadStatus(lib, env, d, ext)
    case ListServers(query) =>
      var (d', r) := Listed(lib, env, d, ext);
      (d', Filtered(query, r))
    case GetServer(name) =>
      (d, match FindIn(d.servers, name)
          case None => Refused(UnknownServer)
          case Some(s) => DetailIs(DetailOf(s)))
    case AddServer(spec) => Answer(lib, env, Add(lib, d, spec, ext), ext)
    case EditServer(spec) => Answer(lib, env, Edit(lib, env, d, spec, ext), ext)
    case ImportServer(name, conf) => Answer(lib, env, Import(lib, d, name, conf, ext), ext)
    case RemoveServer(name) => Answer(lib, env, Remove(d, name, ext), ext)
    case SwitchServer(name) => Connect(lib, env, d, name, ext)
    case Disconnecting => Drop(env, d)
  }

  // --- as the code runs it -----------------------------------------------------

  class Daemon {
    const wg: KernelWireguard
    const cfg: Servers
    var disk: seq<ServerConfig>
    var lastConnect: Option<nat>

    ghost function Now(): DState
      reads this, cfg, wg.ops
    {
      DState(cfg.servers, disk, lastConnect, wg.ops.Now())
    }

    /** `Daemon::load`: what the file holds, and no connecting window. */
    constructor (wg: KernelWireguard, disk: seq<ServerConfig>)
      ensures this.wg == wg && fresh(cfg)
      ensures Now() == DState(disk, disk, None, old(wg.ops.Now()))
    {
      this.wg := wg;
      this.disk := disk;
      cfg := new Servers(Config(disk));
      lastConnect := None;
    }

    method Save(save: SaveOutcome) returns (failure: Option<Error>)
      modifies this`disk
      ensures (Now(), failure) == Persist(old(Now()), save)
    {
      if !save.FailedKept? {
        disk := cfg.servers;
      }
      failure := if save.Saved? then None else Some(NotPersisted);
    }

    method ReadInterface() returns (live: Option<LiveInterface>)
      modifies wg.ops
      ensures (wg.ops.Now(), live) == ReadLive(wg.lib, wg.ops.env, old(wg.ops.Now()))
    {
      var host := wg.ops.Do(ReadInterfaceData);
      live := if host.Host? then Some(LiveOf(wg.lib, host.iface, host.stats)) else None;
    }

    method AdmitServer(server: ServerConfig, ext: Ext) returns (failure: Option<Error>)
      modifies this`disk, cfg
      ensures (Now(), failure) == Admit(wg.lib, old(Now()), server, ext)
    {
      hide ValidateServer, UpsertIn;
      var addr := ValidateServer(wg.lib, server, ext.answer);
      if addr.Err? {
        return Some(addr.error);
      }
      var _ := cfg.UpsertServer(server.(resolvedEndpoint := Some(wg.lib.showSocket(addr.value))));
      failure := Save(ext.save);
    }

    method AddTunnel(spec: ServerSpec, ext: Ext) returns (failure: Option<Error>)
      modifies this`disk, cfg
      ensures (Now(), failure) == Add(wg.lib, old(Now()), spec, ext)
    {
      hide Trim, Admit;
      if Trim(spec.name) == "" {
        return Some(EmptyName);
      }
      var privateKey := Or(Supplied(spec.privateKey), ext.freshKey);
      failure := AdmitServer(Assembled(spec, privateKey, spec.presharedKey), ext);
    }

    method ImportTunnel(name: string, conf: string, ext: Ext) returns (failure: Option<Error>)
      modifies this`disk, cfg
      ensures (Now(), failure) == Import(wg.lib, old(Now()), name, conf, ext)
    {
      hide Add, WgConf.Meaning, WgConf.ClassifyAll, WgConf.Lines;
      var parsed := WgConf.Parse(conf);
      if parsed.Err? {
        return Some(BadConf);
      }
      failure := AddTunnel(SpecOf(name, parsed.value), ext);
    }

    method EditTunnel(spec: ServerSpec, ext: Ext) returns (failure: Option<Error>)
      modifies this`disk, cfg, wg.ops
      ensures (Now(), failure) == Edit(wg.lib, wg.ops.env, old(Now()), spec, ext)
    {
      hide Trim, Admit, ReadLive, Edited, FindIn, PublicKey;
      var name := Trim(spec.name);
      if name == "" {
        return Some(EmptyName);
      }
      var existing := cfg.FindServer(name);
      if existing.None? {
        return Some(UnknownServer);
      }
      var derived := PublicKey(wg.lib, existing.value.privateKey);
      if derived.None? {
        return Some(BadPrivateKey);
      }
      var live := ReadInterface();
      if ActiveKey(live) == derived {
        return Some(ActiveTunnel);
      }
      failure := AdmitServer(Edited(spec, existing.value), ext);
    }

    method RemoveTunnel(name: string, ext: Ext) returns (failure: Option<Error>)
      modifies this`disk, cfg
      ensures (Now(), failure) == Remove(old(Now()), name, ext)
    {
      var removed := cfg.RemoveServer(name);
      if !removed {
        RemoveMissing(old(cfg.servers), name);
        return Some(UnknownServer);
      }
      failure := Save(ext.save);
    }

    method ListAll(ext: Ext) returns (r: Response)
      modifies wg.ops
      ensures (Now(), r) == Listed(wg.lib, wg.ops.env, old(Now()), ext)
    {
      var live := ReadInterface();
      r := ServerList(Map(cfg.servers, InfoOf(wg.lib, live, WithinWindow(lastConnect, ext.now), ext.wall)));
    }

    method ConnectTo(name: string, ext: Ext) returns (r: Response)
      modifies this, cfg, wg.ops
      ensures (Now(), r) == Connect(wg.lib, wg.ops.env, old(Now()), name, ext)
    {
      hide SwitchTo, FindIn, UpsertIn;
      var server := cfg.FindServer(name);
      if server.None? {
        return Refused(UnknownServer);
      }
      var switched := wg.Switch(server.value, ext.answer);
      if switched.Err? {
        return Refused(switched.error);
      }
      lastConnect := Some(ext.now);
      var addr := Some(wg.lib.showSocket(switched.value));
      if server.value.resolvedEndpoint != addr {
        var _ := cfg.UpsertServer(server.value.(resolvedEndpoint := addr));
        var _ := Save(ext.save);
      }
      r := Switched(name);
    }

    method DropTunnel() returns (r: Response)
      modifies this`lastConnect, wg.ops
      ensures (Now(), r) == Drop(wg.ops.env, old(Now()))
    {
      var ok := wg.TearDown();
      if !ok {
        return Refused(OpFailed);
      }
      lastConnect := None;
      r := Disconnected;
    }

    method Serve(req: Request, ext: Ext) returns (r: Response)
      modifies this, cfg, wg.ops
      ensures (Now(), r) == Handle(wg.lib, wg.ops.env, old(Now()), req, ext)
    {
      hide Add, Edit, Import, Remove, Listed, Connect, Drop, ReadLive, Filtered;
      var failure: Option<Error>;
      match req {
        case Status =>
          var live := ReadInterface();
          r := if live.None? then Disconnected
               else StatusIs(StatusOf(live.value, WithinWindow(lastConnect, ext.now), ext.wall));
          return;
        case ListServers(query) =>
          r := ListAll(ext);
          r := Filtered(query, r);
          return;
        case GetServer(name) =>
          var s := cfg.FindServer(name);
          r := if s.None? then Refused(UnknownServer) else DetailIs(DetailOf(s.value));
          return;
        case SwitchServer(name) =>
          r := ConnectTo(name, ext);
          return;
        case Disconnecting =>
          r := DropTunnel();
          return;
        case AddServer(spec) => failure := AddTunnel(spec, ext);
        case EditServer(spec) => failure := EditTunnel(spec, ext);
        case ImportServer(name, conf) => failure := ImportTunnel(name, conf, ext);
        case RemoveServer(name) => failure := RemoveTunnel(name, ext);
      }
      if failure.Some? {
        r := Refused(failure.value);
      } else {
        r := ListAll(ext);
      }
    }
  }

  /** Removing a name that is not there changes nothing. */
  lemma {:induction false} RemoveMissing(servers: seq<ServerConfig>, name: string)
    requires FindIn(servers, name).None?
    ensures RemoveIn(servers, name) == servers
    decreases servers
  {
    if servers != [] {
      RemoveMissing(servers[1..], name);
    }
  }
}
