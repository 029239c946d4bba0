/** What requests store, use and show, field by field: an add, an edit, a switch, and the views of what was stored. */
module DaemonValues {
  import opened Basics
  import opened Prefix
  import opened Text
  import opened Config
  import opened Kernel
  import opened Tunnel
  import opened Switch
  import opened Daemon
  import opened DaemonSafety
  import opened DaemonRefinement
  import opened SwitchValues

  // --- what is stored ----------------------------------------------------------

  /** The fields that a request always supplies. */
  predicate TakenFrom(spec: ServerSpec, s: ServerConfig) {
    && s.name == Trim(spec.name)
    && s.publicKey == spec.publicKey && s.endpoint == spec.endpoint
    && s.addresses == spec.addresses && s.allowedIps == spec.allowedIps && s.dns == spec.dns
    && s.listenPort == (if spec.listenPort.Some? then spec.listenPort.value else 0)
    && s.mtu == spec.mtu && s.keepalive == spec.keepalive
  }

  /** The cached endpoint was found now: a literal, or what the resolver said; no earlier cache stands in for it. */
  predicate FoundNow(lib: Lib, s: ServerConfig, answer: Option<SocketAddr>) {
    var literal := lib.parseSocket(Trim(s.endpoint));
    if literal.Some? then s.resolvedEndpoint == Some(lib.showSocket(literal.value))
    else answer.Some? && s.resolvedEndpoint == Some(lib.showSocket(answer.value))
  }

  /** Admitted, a server is stored under its name with the endpoint found now, and nothing else changes. */
  lemma AdmitStores(lib: Lib, d: DState, server: ServerConfig, ext: Ext, other: string) returns (s: ServerConfig)
    requires server.resolvedEndpoint.None? && Admit(lib, d, server, ext).1.None?
    ensures var d' := Admit(lib, d, server, ext).0;
            && FindIn(d'.servers, server.name) == Some(s) && s.(resolvedEndpoint := None) == server
            && FoundNow(lib, s, ext.answer) && d'.disk == d'.servers
            && (other != server.name ==> FindIn(d'.servers, other) == FindIn(d.servers, other))
  {
    hide Trim, ValidateServer, UpsertIn, FindIn;
    ValidatedIsPreferred(lib, server, ext.answer);
    s := server.(resolvedEndpoint := Some(lib.showSocket(ValidateServer(lib, server, ext.answer).value)));
    UpsertLookup(d.servers, s, server.name);
    UpsertLookup(d.servers, s, other);
  }

  /** An add that is answered with the list stored what it was given under the trimmed name: a private key that is
      supplied and not blank, trimmed, and a generated one otherwise; the preshared key as it came. */
  lemma AddStores(lib: Lib, env: Oracle, d: DState, spec: ServerSpec, ext: Ext, d': DState, infos: seq<ServerInfo>,
                  other: string)
    returns (s: ServerConfig)
    requires Handle(lib, env, d, AddServer(spec), ext) == (d', ServerList(infos))
    ensures FindIn(d'.servers, Trim(spec.name)) == Some(s) && TakenFrom(spec, s) && FoundNow(lib, s, ext.answer)
    ensures s.privateKey ==
            if spec.privateKey.Some? && Trim(spec.privateKey.value) != "" then Trim(spec.privateKey.value)
                            else ext.freshKey
    ensures s.presharedKey == spec.presharedKey
    ensures other != Trim(spec.name) ==> FindIn(d'.servers, other) == FindIn(d.servers, other)
    ensures d'.disk == d'.servers
  {
    hide Trim, Admit, FindIn, Listed, FoundNow;
    var server := Assembled(spec, Or(Supplied(spec.privateKey), ext.freshKey), spec.presharedKey);
    ListedKeeps(lib, env, Add(lib, d, spec, ext).0, ext);
    s := AdmitStores(lib, d, server, ext, other);
  }

  /** An edit that is answered with the list stored what it was given: a secret that is supplied and not blank, trimmed,
      replaces the one before, and one that is not leaves it. */
  lemma EditStores(lib: Lib, env: Oracle, d: DState, spec: ServerSpec, ext: Ext, d': DState, infos: seq<ServerInfo>,
                   other: string)
    returns (was: ServerConfig, s: ServerConfig)
    requires Handle(lib, env, d, EditServer(spec), ext) == (d', ServerList(infos))
    ensures FindIn(d.servers, Trim(spec.name)) == Some(was) && FindIn(d'.servers, Trim(spec.name)) == Some(s)
    ensures TakenFrom(spec, s) && FoundNow(lib, s, ext.answer)
    ensures s.privateKey ==
            if spec.privateKey.Some? && Trim(spec.privateKey.value) != "" then Trim(spec.privateKey.value)
                            else was.privateKey
    ensures s.presharedKey == if spec.presharedKey.Some? && Trim(spec.presharedKey.value) != ""
                              then Some(Trim(spec.presharedKey.value))
                              else was.presharedKey
    ensures other != Trim(spec.name) ==> FindIn(d'.servers, other) == FindIn(d.servers, other)
    ensures d'.disk == d'.servers
  {
    hide Trim, Admit, FindIn, Listed, FoundNow, ReadLive, ActiveKey, PublicKey;
    was := FindIn(d.servers, Trim(spec.name)).value;
    var seen := d.(w := ReadLive(lib, env, d.w).0);
    ListedKeeps(lib, env, Edit(lib, env, d, spec, ext).0, ext);
    s := AdmitStores(lib, seen, Edited(spec, was), ext, other);
  }

  // --- what is shown of it -----------------------------------------------------

  /** The detail of a server that was stored from this request: its fields, and of its preshared key only whether there
      is one. Port 0 reads as none. */
  predicate ShowsSpec(spec: ServerSpec, detail: ServerDetail) {
    && detail.name == Trim(spec.name)
    && detail.publicKey == spec.publicKey && detail.endpoint == spec.endpoint
    && detail.addresses == spec.addresses && detail.allowedIps == spec.allowedIps && detail.dns == spec.dns
    && detail.listenPort == (if spec.listenPort == Some(0) then None else spec.listenPort)
    && detail.mtu == spec.mtu && detail.keepalive == spec.keepalive
  }

  /** A turn of a run, as the request it answers. */
  lemma TurnIs(lib: Lib, env: Oracle, d: DState, turns: seq<Turn>, k: nat)
    requires k < |turns| && turns[k].Asked?
    ensures Handle(lib, env, StateAt(lib, env, d, turns, k), turns[k].req, turns[k].ext) ==
            (StateAt(lib, env, d, turns, k + 1), ResponseAt(lib, env, d, turns, k))
  {
    hide Handle;
  }

  lemma DetailIsOf(lib: Lib, env: Oracle, d: DState, name: string, ext: Ext)
    ensures var found := FindIn(d.servers, name);
            Handle(lib, env, d, GetServer(name), ext) ==
            (d, if found.None? then Refused(UnknownServer) else DetailIs(DetailOf(found.value)))
  {
  }

  /** What was added is what is shown for editing, in any later state up to a request that names the tunnel. */
  lemma AddedIsShown(lib: Lib, env: Oracle, d: DState, turns: seq<Turn>, j: nat, k: nat, spec: ServerSpec, ext: Ext)
    requires j < k < |turns| && turns[j].Asked? && turns[j].req == AddServer(spec)
    requires ResponseAt(lib, env, d, turns, j).ServerList?
    requires forall i :: j < i < k ==> turns[i].Asked? && !About(turns[i].req, Trim(spec.name))
    requires turns[k].Asked? && turns[k].req == GetServer(Trim(spec.name))
    ensures var r := ResponseAt(lib, env, d, turns, k);
            r.DetailIs? && ShowsSpec(spec, r.detail) && r.detail.hasPresharedKey == spec.presharedKey.Some?
  {
    hide Trim, StateAt, ResponseAt, About, Handle, FindIn;
    var before, after := StateAt(lib, env, d, turns, j), StateAt(lib, env, d, turns, j + 1);
    TurnIs(lib, env, d, turns, j);
    var s := AddStores(lib, env, before, spec, turns[j].ext, after, ResponseAt(lib, env, d, turns, j).servers, "");
    TunnelSurvives(lib, env, d, turns, j + 1, k, Trim(spec.name));
    TurnIs(lib, env, d, turns, k);
    DetailIsOf(lib, env, StateAt(lib, env, d, turns, k), Trim(spec.name), turns[k].ext);
  }

  /** And so is what was edited, with the preshared key that is kept counted in. */
  lemma EditedIsShown(lib: Lib, env: Oracle, d: DState, turns: seq<Turn>, j: nat, k: nat, spec: ServerSpec,
                      was: ServerConfig)
    requires j < k < |turns| && turns[j].Asked? && turns[j].req == EditServer(spec)
    requires ResponseAt(lib, env, d, turns, j).ServerList?
    requires FindIn(StateAt(lib, env, d, turns, j).servers, Trim(spec.name)) == Some(was)
    requires forall i :: j < i < k ==> turns[i].Asked? && !About(turns[i].req, Trim(spec.name))
    requires turns[k].Asked? && turns[k].req == GetServer(Trim(spec.name))
    ensures var r := ResponseAt(lib, env, d, turns, k);
            && r.DetailIs? && ShowsSpec(spec, r.detail)
            && (r.detail.hasPresharedKey <==>
                was.presharedKey.Some? || (spec.presharedKey.Some? && Trim(spec.presharedKey.value) != ""))
  {
    hide Trim, StateAt, ResponseAt, About, Handle, FindIn;
    var before, after := StateAt(lib, env, d, turns, j), StateAt(lib, env, d, turns, j + 1);
    TurnIs(lib, env, d, turns, j);
    var _, s := EditStores(lib, env, before, spec, turns[j].ext, after, ResponseAt(lib, env, d, turns, j).servers, "");
    TunnelSurvives(lib, env, d, turns, j + 1, k, Trim(spec.name));
    TurnIs(lib, env, d, turns, k);
    DetailIsOf(lib, env, StateAt(lib, env, d, turns, k), Trim(spec.name), turns[k].ext);
  }

  // --- what a switch caches ----------------------------------------------------

  /** An answered switch leaves the tunnel as it was but for its cached endpoint, which is the address that the peer on
      the interface has and that a fresh resolution is preferred for; every other tunnel stays as it was, and the
      connecting window opens now. */
  lemma SwitchCaches(lib: Lib, env: Oracle, d: DState, name: string, ext: Ext, d': DState, other: string)
    returns (was: ServerConfig, addr: SocketAddr)
    requires Handle(lib, env, d, SwitchServer(name), ext) == (d', Switched(name))
    ensures FindIn(d.servers, name) == Some(was) && Preferred(lib, was, ext.answer, addr)
    ensures FindIn(d'.servers, name) == Some(was.(resolvedEndpoint := Some(lib.showSocket(addr))))
    ensures SwitchTo(lib, env, d.w, was, ext.answer) == (d'.w, Ok(addr))
    ensures d'.w.k.iface.Some? && |d'.w.k.iface.value.peers| == 1 && d'.w.k.iface.value.peers[0].endpoint == Some(addr)
    ensures other != name ==> FindIn(d'.servers, other) == FindIn(d.servers, other)
    ensures d'.lastConnect == Some(ext.now)
  {
    hide SwitchTo, UpsertIn, FindIn, Preferred;
    was := FindIn(d.servers, name).value;
    addr := SwitchTo(lib, env, d.w, was, ext.answer).1.value;
    SwitchConfigures(lib, env, d.w, was, ext.answer);
    FoundHasName(d.servers, name);
    UpsertLookup(d.servers, was.(resolvedEndpoint := Some(lib.showSocket(addr))), name);
    UpsertLookup(d.servers, was.(resolvedEndpoint := Some(lib.showSocket(addr))), other);
  }

  lemma FoundHasName(servers: seq<ServerConfig>, name: string)
    requires FindIn(servers, name).Some?
    ensures FindIn(servers, name).value.name == name
  {
  }

  /** The cache is worth having: while the resolver is silent, a switch to a tunnel with a host name that goes through
      uses the address of the last switch to it that was answered, whatever else was asked in between. */
  lemma OutageFallsBack(lib: Lib, env: Oracle, d: DState, turns: seq<Turn>, j: nat, k: nat, name: string)
    returns (addr: SocketAddr)
    requires PrintsParse(lib) && j < k < |turns|
    requires turns[j].Asked? && turns[j].req == SwitchServer(name)
    requires ResponseAt(lib, env, d, turns, j) == Switched(name)
    requires forall i :: j < i < k ==> turns[i].Asked? && !About(turns[i].req, name)
    requires turns[k].Asked? && turns[k].req == SwitchServer(name) && turns[k].ext.answer.None?
    requires ResponseAt(lib, env, d, turns, k) == Switched(name)
    ensures var was := FindIn(StateAt(lib, env, d, turns, j).servers, name);
            && was.Some? && Preferred(lib, was.value, turns[j].ext.answer, addr)
            && var iface := StateAt(lib, env, d, turns, k + 1).w.k.iface;
            && iface.Some? && |iface.value.peers| == 1
            && (lib.parseSocket(Trim(was.value.endpoint)).None? ==> iface.value.peers[0].endpoint == Some(addr))
  {
    hide Trim, StateAt, ResponseAt, About, Handle, FindIn, PrintsParse, SwitchTo;
    var before, after := StateAt(lib, env, d, turns, j), StateAt(lib, env, d, turns, j + 1);
    TurnIs(lib, env, d, turns, j);
    var was: ServerConfig;
    was, addr := SwitchCaches(lib, env, before, name, turns[j].ext, after, name);
    TunnelSurvives(lib, env, d, turns, j + 1, k, name);
    TurnIs(lib, env, d, turns, k);
    var now, used := SwitchCaches(lib, env, StateAt(lib, env, d, turns, k), name, turns[k].ext,
                                  StateAt(lib, env, d, turns, k + 1), name);
    PrintParses(lib, addr);
  }

  lemma PrintParses(lib: Lib, addr: SocketAddr)
    requires PrintsParse(lib)
    ensures lib.parseSocket(lib.showSocket(addr)) == Some(addr)
  {
  }

  // --- the filter --------------------------------------------------------------

  /** The same letters, whatever their case. */
  predicate SameLetters(a: string, b: string) {
    |a| == |b| && forall i :: 0 <= i < |a| ==> LowerChar(a[i]) == LowerChar(b[i])
  }

  /** The query occurs somewhere in the text. */
  predicate Occurs(query: string, text: string) {
    exists i, j :: 0 <= i <= j <= |text| && SameLetters(text[i..j], query)
  }

  lemma {:induction false} LowerAt(s: string)
    ensures |Lower(s)| == |s| && forall i :: 0 <= i < |s| ==> Lower(s)[i] == LowerChar(s[i])
    decreases s
  {
    if s != [] {
      LowerAt(s[1..]);
    }
  }

  lemma TailSlice(text: string, i: nat, j: nat)
    requires 1 <= i <= j <= |text|
    ensures text[i..j] == text[1..][i - 1..j - 1]
  {
    var a, b := text[i..j], text[1..][i - 1..j - 1];
    assert |a| == |b|;
    forall k | 0 <= k < |a| ensures a[k] == b[k] {
      assert a[k] == text[i + k] == text[1..][i - 1 + k];
    }
  }

  lemma {:induction false} ContainsThere(text: string, i: nat, j: nat)
    requires i <= j <= |text|
    ensures Contains(text, text[i..j])
    decreases text
  {
    if i > 0 {
      TailSlice(text, i, j);
      ContainsThere(text[1..], i - 1, j - 1);
    }
  }

  lemma {:induction false} ContainsSome(text: string, part: string) returns (i: nat, j: nat)
    requires Contains(text, part)
    ensures i <= j <= |text| && text[i..j] == part
    decreases text
  {
    if part <= text {
      i, j := 0, |part|;
    } else {
      var k, m := ContainsSome(text[1..], part);
      i, j := k + 1, m + 1;
      TailSlice(text, i, j);
    }
  }

  lemma ContainsMeans(text: string, part: string)
    ensures Contains(text, part) <==> exists i, j :: 0 <= i <= j <= |text| && text[i..j] == part
  {
    hide Contains;
    if Contains(text, part) {
      var i, j := ContainsSome(text, part);
    }
    if i, j :| 0 <= i <= j <= |text| && text[i..j] == part {
      ContainsThere(text, i, j);
    }
  }

  lemma OccursIff(text: string, query: string)
    ensures Contains(Lower(text), Lower(query)) <==> Occurs(query, text)
  {
    hide Lower, LowerChar, Contains;
    LowerAt(text);
    LowerAt(query);
    var low, q := Lower(text), Lower(query);
    ContainsMeans(low, q);
    forall i, j | 0 <= i <= j <= |text| ensures low[i..j] == q <==> SameLetters(text[i..j], query) {
      if low[i..j] == q {
        forall m | 0 <= m < |query| ensures LowerChar(text[i..j][m]) == LowerChar(query[m]) {
          assert low[i..j][m] == q[m];
        }
      }
    }
  }

  /** A tunnel is on the filtered list exactly when the query, without the white space around it, occurs in its name,
      its endpoint or one of its addresses, in any letter case; a blank query finds every tunnel. */
  lemma FilterFinds(lib: Lib, env: Oracle, d: DState, query: string, ext: Ext, info: ServerInfo)
    ensures var all := Handle(lib, env, d, ListServers(None), ext).1;
            var some := Handle(lib, env, d, ListServers(Some(query)), ext).1;
            && all.ServerList? && some.ServerList?
            && (info in some.servers <==>
                && info in all.servers
                && (|| Trim(query) == "" || Occurs(Trim(query), info.name) || Occurs(Trim(query), info.endpoint)
                    || exists a :: a in info.addresses && Occurs(Trim(query), a)))
  {
    hide Listed, Trim, Lower, Contains, Occurs;
    ListedKeeps(lib, env, d, ext);
    KeepElements(Listed(lib, env, d, ext).1.servers, Matches(query));
    var q := Trim(query);
    LowerAt(q);
    assert Lower(q) == "" <==> q == "";
    OccursIff(info.name, q);
    OccursIff(info.endpoint, q);
    forall a ensures Contains(Lower(a), Lower(q)) <==> Occurs(q, a) {
      OccursIff(a, q);
    }
  }
}
