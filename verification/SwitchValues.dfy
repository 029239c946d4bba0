/** What a successful switch puts into the kernel, item by item, in terms of the stored text. */
module SwitchValues {
  import opened Basics
  import opened Prefix
  import opened Text
  import opened Config
  import opened Kernel
  import opened Tunnel
  import opened Switch
  import opened SwitchTarget
  import SwitchOrder
  import Nft

  // --- the endpoint ------------------------------------------------------------

  /** A literal address first; then what the resolver just said; the cached address last. */
  predicate Preferred(lib: Lib, s: ServerConfig, answer: Option<SocketAddr>, addr: SocketAddr) {
    var literal := lib.parseSocket(Trim(s.endpoint));
    if literal.Some? then literal.value == addr
    else if answer.Some? then answer.value == addr
    else s.resolvedEndpoint.Some? && lib.parseSocket(s.resolvedEndpoint.value) == Some(addr)
  }

  lemma PeerIsPreferred(lib: Lib, s: ServerConfig, answer: Option<SocketAddr>)
    requires PeerOf(lib, s, answer).Ok?
    ensures var endpoint := PeerOf(lib, s, answer).value.endpoint;
            endpoint.Some? && Preferred(lib, s, answer, endpoint.value)
  {
    hide Trim, ParseMasks;
  }

  /** Validation, which an add or an edit rests on, finds the address by the same rule. */
  lemma ValidatedIsPreferred(lib: Lib, s: ServerConfig, answer: Option<SocketAddr>)
    requires ValidateServer(lib, s, answer).Ok?
    ensures Preferred(lib, s, answer, ValidateServer(lib, s, answer).value)
  {
    hide Trim, ParseMasks, ParseDns, ParseAddresses, PeerOf, Preferred;
    PeerIsPreferred(lib, s, answer);
  }

  // --- the peer ----------------------------------------------------------------

  /** Every text parses to the item in its place. */
  predicate EachMask(lib: Lib, texts: seq<string>, masks: seq<IpAddrMask>) {
    |masks| == |texts| && forall i :: 0 <= i < |texts| ==> lib.parseMask(Trim(texts[i])) == Some(masks[i])
  }

  predicate EachIp(lib: Lib, texts: seq<string>, ips: seq<IpAddr>) {
    |ips| == |texts| && forall i :: 0 <= i < |texts| ==> lib.parseIp(Trim(texts[i])) == Some(ips[i])
  }

  /** The peer that the stored text describes: its key, its preshared key if one is stored, its AllowedIPs, its
      keepalive. */
  predicate PeerCarries(lib: Lib, s: ServerConfig, p: Peer) {
    && lib.parseKey(Trim(s.publicKey)) == Some(p.publicKey)
    && (s.presharedKey.None? ==> p.presharedKey.None?)
    && (s.presharedKey.Some? ==> p.presharedKey.Some? && lib.parseKey(Trim(s.presharedKey.value)) == p.presharedKey)
    && p.keepalive == s.keepalive
    && EachMask(lib, s.allowedIps, p.allowedIps)
  }

  lemma MasksCarry(lib: Lib, texts: seq<string>)
    requires ParseMasks(lib, texts).Some?
    ensures EachMask(lib, texts, ParseMasks(lib, texts).value)
  {
    hide Trim;
    CollectSomeElements(texts, MaskParser(lib));
    var masks := ParseMasks(lib, texts).value;
    forall i | 0 <= i < |texts| ensures lib.parseMask(Trim(texts[i])) == Some(masks[i]) {
      assert MaskParser(lib)(texts[i]) == Some(masks[i]);
    }
  }

  lemma DnsCarries(lib: Lib, s: ServerConfig)
    requires ParseDns(lib, s).Ok?
    ensures EachIp(lib, s.dns, ParseDns(lib, s).value)
  {
    hide Trim;
    var ips := ParseDns(lib, s).value;
    CollectSomeElements(s.dns, IpParser(lib));
    forall i | 0 <= i < |s.dns| ensures lib.parseIp(Trim(s.dns[i])) == Some(ips[i]) {
      assert IpParser(lib)(s.dns[i]) == Some(ips[i]);
    }
  }

  lemma PeerIsCarried(lib: Lib, s: ServerConfig, answer: Option<SocketAddr>)
    requires PeerOf(lib, s, answer).Ok?
    ensures PeerCarries(lib, s, PeerOf(lib, s, answer).value)
  {
    hide Trim, ParseMasks, EndpointAddr, EachMask;
    MasksCarry(lib, s.allowedIps);
  }

  // --- the switch --------------------------------------------------------------

  /** After a successful switch the interface has the stored private key, the stored addresses, the configured port, and
      one peer: the stored one, at the address that is answered and that a fresh resolution is preferred for. Once the
      best-effort steps succeed the resolver has the stored servers, or none if none are stored. */
  lemma SwitchConfigures(lib: Lib, env: Oracle, w: World, s: ServerConfig, answer: Option<SocketAddr>)
    requires SwitchTo(lib, env, w, s, answer).1.Ok?
    ensures var (w', r) := SwitchTo(lib, env, w, s, answer);
            && w'.k.iface.Some?
            && var i := w'.k.iface.value;
            && i.privateKey.Some? && i.privateKey == lib.parseKey(Trim(s.privateKey))
            && EachMask(lib, s.addresses, i.addresses)
            && (s.listenPort != 0 ==> i.port == s.listenPort)
            && (s.mtu.Some? ==> i.mtu == s.mtu)
            && |i.peers| == 1 && PeerCarries(lib, s, i.peers[0]) && i.peers[0].endpoint == Some(r.value)
            && Preferred(lib, s, answer, r.value)
            && (BestEffortOk(|w.trace|, w') ==>
                  if s.dns == [] then w'.k.resolver.None?
                  else w'.k.resolver.Some? && EachIp(lib, s.dns, w'.k.resolver.value))
  {
    hide Trim, PeerOf, ParseDns, ParseAddresses, RunPlan, EachMask, EachIp, PeerCarries, Preferred, Effect,
         RoutesWanted, Nft.Installed;
    SwitchReaches(lib, env, w, s, answer);
    PlanCarries(lib, s, answer);
    AnswerIsThePlans(lib, env, w, s, answer);
  }

  /** What a plan, which a switch carries out and the route theorems speak of, has of the stored text: every field of
      its peer, its addresses and resolvers item by item, the preferred endpoint, and whether it is a full tunnel. */
  lemma PlanCarries(lib: Lib, s: ServerConfig, answer: Option<SocketAddr>)
    requires PlanSwitch(lib, s, answer).Ok?
    ensures var plan := PlanSwitch(lib, s, answer).value;
            && PeerOf(lib, s, answer) == Ok(plan.peer) && plan.peer.endpoint == Some(plan.endpoint)
            && EachMask(lib, s.addresses, plan.addresses)
            && EachIp(lib, s.dns, plan.dns) && (plan.dns == [] <==> s.dns == [])
            && PeerCarries(lib, s, plan.peer) && Preferred(lib, s, answer, plan.endpoint)
            && (plan.fullTunnel <==> exists a :: a in plan.peer.allowedIps && a.address.bits == 0)
  {
    hide Trim, PeerOf, ParseMasks, CollectSome, EachMask, EachIp, SplitRoutePrefixes, PeerCarries, Preferred;
    PeerIsCarried(lib, s, answer);
    PeerIsPreferred(lib, s, answer);
    MasksCarry(lib, s.addresses);
    DnsCarries(lib, s);
    assert |PlanSwitch(lib, s, answer).value.dns| == |s.dns| by {
      assert EachIp(lib, s.dns, PlanSwitch(lib, s, answer).value.dns);
      EachIpLength(lib, s.dns, PlanSwitch(lib, s, answer).value.dns);
    }
  }

  lemma EachIpLength(lib: Lib, texts: seq<string>, ips: seq<IpAddr>)
    requires EachIp(lib, texts, ips)
    ensures |ips| == |texts|
  {
  }

  lemma AnswerIsThePlans(lib: Lib, env: Oracle, w: World, s: ServerConfig, answer: Option<SocketAddr>)
    requires SwitchTo(lib, env, w, s, answer).1.Ok?
    ensures PlanSwitch(lib, s, answer).Ok?
    ensures SwitchTo(lib, env, w, s, answer).1.value == PlanSwitch(lib, s, answer).value.endpoint
  {
    hide PlanSwitch, Reconfigure, RouteAndFinish;
  }

  // --- the guard ---------------------------------------------------------------

  /** One of the stored addresses is this one. */
  predicate IsStoredAddress(lib: Lib, s: ServerConfig, addr: IpAddr) {
    exists i :: 0 <= i < |s.addresses| && lib.parseMask(Trim(s.addresses[i])).Some?
                && lib.parseMask(Trim(s.addresses[i])).value.address == addr
  }

  /** After a successful switch our tables drop a packet exactly when it is for one of the stored addresses, arrives on
      an interface other than ours, and does not come from this host: whatever tunnels were up before, none of their
      addresses is guarded any more. */
  lemma SwitchGuards(lib: Lib, env: Oracle, w: World, s: ServerConfig, answer: Option<SocketAddr>, p: Nft.Packet)
    requires SwitchTo(lib, env, w, s, answer).1.Ok?
    ensures Nft.Drops(SwitchTo(lib, env, w, s, answer).0.k.nft, p) <==>
            p.iif != "wirefinder" && !p.saddrLocal && IsStoredAddress(lib, s, p.daddr)
  {
    hide Trim, PlanSwitch, RunPlan, EachIp, PeerCarries, Preferred, Effect, RoutesWanted, Settled, Nft.Installed,
         Nft.Exec, Nft.NftScript, Nft.Drops, IsStoredAddress, EachMask;
    SwitchReaches(lib, env, w, s, answer);
    PlanCarries(lib, s, answer);
    var plan := PlanSwitch(lib, s, answer).value;
    var w' := SwitchTo(lib, env, w, s, answer).0;
    var mark :| mark in {None, DeviceMark(w'.k)} && Reached(lib, s, plan, w.k, w'.k, mark);
    ReachedTables(lib, s, plan, w.k, w'.k, mark);
    Nft.ScriptInstalls(w.k.nft, INTERFACE_NAME, plan.addresses, mark);
    Nft.DropsExactly(w.k.nft, INTERFACE_NAME, plan.addresses, mark, p);
    AddressAmong(lib, s, plan.addresses, p.daddr);
  }

  lemma ReachedTables(lib: Lib, s: ServerConfig, plan: Plan, k: KState, k': KState, mark: Option<nat>)
    requires Reached(lib, s, plan, k, k', mark)
    ensures k'.nft == Nft.Installed(k.nft, INTERFACE_NAME, plan.addresses, mark)
  {
    hide Nft.Installed, Trim;
  }

  lemma AddressAmong(lib: Lib, s: ServerConfig, masks: seq<IpAddrMask>, addr: IpAddr)
    requires EachMask(lib, s.addresses, masks)
    ensures IsStoredAddress(lib, s, addr) <==> exists a :: a in masks && a.address == addr
  {
    hide Trim;
    if a :| a in masks && a.address == addr {
      var i :| 0 <= i < |masks| && masks[i] == a;
      assert lib.parseMask(Trim(s.addresses[i])) == Some(a);
    }
    if IsStoredAddress(lib, s, addr) {
      var i :| 0 <= i < |s.addresses| && lib.parseMask(Trim(s.addresses[i])).Some?
               && lib.parseMask(Trim(s.addresses[i])).value.address == addr;
      assert masks[i] in masks;
    }
  }

  // --- refusals ----------------------------------------------------------------

  /** What a refusal says is so. */
  ghost predicate IsTrue(lib: Lib, s: ServerConfig, answer: Option<SocketAddr>, e: Error) {
    match e
    case BadPrivateKey => lib.parseKey(Trim(s.privateKey)).None?
    case BadPublicKey => lib.parseKey(Trim(s.publicKey)).None?
    case BadPresharedKey => s.presharedKey.Some? && lib.parseKey(Trim(s.presharedKey.value)).None?
    case BadAllowedIp => exists i :: 0 <= i < |s.allowedIps| && lib.parseMask(Trim(s.allowedIps[i])).None?
    case BadDns => exists i :: 0 <= i < |s.dns| && lib.parseIp(Trim(s.dns[i])).None?
    case NoAddress => s.addresses == []
    case BadAddress => exists i :: 0 <= i < |s.addresses| && lib.parseMask(Trim(s.addresses[i])).None?
    case Unresolved => forall addr :: !Preferred(lib, s, answer, addr)
    case _ => false
  }

  /** The first reason of a list that is true of the tunnel. */
  ghost function FirstTrue(lib: Lib, s: ServerConfig, answer: Option<SocketAddr>, reasons: seq<Error>): Option<Error> {
    if reasons == [] then None
    else if IsTrue(lib, s, answer, reasons[0]) then Some(reasons[0])
    else FirstTrue(lib, s, answer, reasons[1..])
  }

  lemma {:induction false} FirstOfBoth(lib: Lib, s: ServerConfig, answer: Option<SocketAddr>, a: seq<Error>,
                                       b: seq<Error>)
    ensures FirstTrue(lib, s, answer, a + b) ==
            if FirstTrue(lib, s, answer, a).Some? then FirstTrue(lib, s, answer, a) else FirstTrue(lib, s, answer, b)
    decreases a
  {
    hide IsTrue;
    if a == [] {
      assert a + b == b;
    } else {
      assert (a + b)[0] == a[0] && (a + b)[1..] == a[1..] + b;
      FirstOfBoth(lib, s, answer, a[1..], b);
    }
  }

  lemma OnlyReason(lib: Lib, s: ServerConfig, answer: Option<SocketAddr>, e: Error)
    ensures FirstTrue(lib, s, answer, [e]) == if IsTrue(lib, s, answer, e) then Some(e) else None
  {
    hide IsTrue;
    assert [e][1..] == [];
  }

  function Reason<T>(r: Result<T, Error>): Option<Error> {
    if r.Err? then Some(r.error) else None
  }

  /** The order in which the fields of the peer, and the addresses, are looked at. */
  const PEER_REASONS: seq<Error> := [BadPublicKey, Unresolved, BadAllowedIp, BadPresharedKey]
  const ADDRESS_REASONS: seq<Error> := [NoAddress, BadAddress]

  lemma MasksAreFine(lib: Lib, texts: seq<string>)
    ensures ParseMasks(lib, texts).Some? <==> forall i :: 0 <= i < |texts| ==> lib.parseMask(Trim(texts[i])).Some?
  {
    hide Trim;
    CollectSomeElements(texts, MaskParser(lib));
    assert forall i :: 0 <= i < |texts| ==> MaskParser(lib)(texts[i]) == lib.parseMask(Trim(texts[i]));
  }

  lemma DnsReason(lib: Lib, s: ServerConfig, answer: Option<SocketAddr>)
    ensures Reason(ParseDns(lib, s)) == FirstTrue(lib, s, answer, [BadDns])
  {
    hide Trim;
    OnlyReason(lib, s, answer, BadDns);
    CollectSomeElements(s.dns, IpParser(lib));
    assert forall i :: 0 <= i < |s.dns| ==> IpParser(lib)(s.dns[i]) == lib.parseIp(Trim(s.dns[i]));
  }

  lemma AddressReason(lib: Lib, s: ServerConfig, answer: Option<SocketAddr>)
    ensures Reason(ParseAddresses(lib, s)) == FirstTrue(lib, s, answer, ADDRESS_REASONS)
  {
    hide Trim, ParseMasks;
    MasksAreFine(lib, s.addresses);
    assert ADDRESS_REASONS[1..] == [BadAddress];
    OnlyReason(lib, s, answer, BadAddress);
  }

  lemma EndpointReason(lib: Lib, s: ServerConfig, answer: Option<SocketAddr>)
    ensures IsTrue(lib, s, answer, Unresolved) <==> EndpointAddr(lib, s, answer).None?
  {
    hide Trim;
    var found := EndpointAddr(lib, s, answer);
    assert found.Some? ==> Preferred(lib, s, answer, found.value);
  }

  lemma PeerReason(lib: Lib, s: ServerConfig, answer: Option<SocketAddr>)
    ensures Reason(PeerOf(lib, s, answer)) == FirstTrue(lib, s, answer, PEER_REASONS)
  {
    hide Trim, ParseMasks, EndpointAddr, Preferred, FirstTrue;
    MasksAreFine(lib, s.allowedIps);
    EndpointReason(lib, s, answer);
    var r1, r2, r3 := PEER_REASONS[1..], [BadAllowedIp, BadPresharedKey], [BadPresharedKey];
    assert r1 == [Unresolved] + r2 && r2 == [BadAllowedIp] + r3 && PEER_REASONS == [BadPublicKey] + r1;
    FirstOfBoth(lib, s, answer, [BadPublicKey], r1);
    FirstOfBoth(lib, s, answer, [Unresolved], r2);
    FirstOfBoth(lib, s, answer, [BadAllowedIp], r3);
    OnlyReason(lib, s, answer, BadPublicKey);
    OnlyReason(lib, s, answer, Unresolved);
    OnlyReason(lib, s, answer, BadAllowedIp);
    OnlyReason(lib, s, answer, BadPresharedKey);
  }

  /** Validation refuses with the first reason that is true of the tunnel, in this order, and only if there is one. */
  lemma ValidationReason(lib: Lib, s: ServerConfig, answer: Option<SocketAddr>)
    ensures Reason(ValidateServer(lib, s, answer)) ==
            FirstTrue(lib, s, answer, [BadPrivateKey] + (PEER_REASONS + ([BadDns] + ADDRESS_REASONS)))
  {
    hide Trim, PeerOf, ParseDns, ParseAddresses, FirstTrue, Preferred;
    PeerReason(lib, s, answer);
    DnsReason(lib, s, answer);
    AddressReason(lib, s, answer);
    OnlyReason(lib, s, answer, BadPrivateKey);
    FirstOfBoth(lib, s, answer, [BadDns], ADDRESS_REASONS);
    FirstOfBoth(lib, s, answer, PEER_REASONS, [BadDns] + ADDRESS_REASONS);
    FirstOfBoth(lib, s, answer, [BadPrivateKey], PEER_REASONS + ([BadDns] + ADDRESS_REASONS));
    if PeerOf(lib, s, answer).Ok? {
      PeerIsPreferred(lib, s, answer);
    }
  }

  lemma PlanReason(lib: Lib, s: ServerConfig, answer: Option<SocketAddr>)
    ensures Reason(PlanSwitch(lib, s, answer)) ==
            FirstTrue(lib, s, answer, PEER_REASONS + ([BadDns] + ADDRESS_REASONS))
  {
    hide Trim, PeerOf, ParseDns, ParseAddresses, FirstTrue, Preferred, SplitRoutePrefixes;
    PeerReason(lib, s, answer);
    DnsReason(lib, s, answer);
    AddressReason(lib, s, answer);
    FirstOfBoth(lib, s, answer, [BadDns], ADDRESS_REASONS);
    FirstOfBoth(lib, s, answer, PEER_REASONS, [BadDns] + ADDRESS_REASONS);
    if PeerOf(lib, s, answer).Ok? {
      PeerIsPreferred(lib, s, answer);
    }
  }

  /** A switch that is refused before it touches the kernel is refused with the first such reason; refused later, it is
      because an operation failed or the private key, which is looked at last, does not parse. */
  lemma SwitchReason(lib: Lib, env: Oracle, w: World, s: ServerConfig, answer: Option<SocketAddr>)
    requires SwitchTo(lib, env, w, s, answer).1.Err?
    ensures var e := SwitchTo(lib, env, w, s, answer).1.error;
            var first := FirstTrue(lib, s, answer, PEER_REASONS + ([BadDns] + ADDRESS_REASONS));
            if first.Some? then e == first.value && SwitchTo(lib, env, w, s, answer).0 == w
            else if IsTrue(lib, s, answer, BadPrivateKey) then e == BadPrivateKey
            else e == OpFailed
  {
    hide Trim, PlanSwitch, ParseAddresses, FirstTrue, Effect, RouteAndFinish;
    PlanReason(lib, s, answer);
    if PlanSwitch(lib, s, answer).Ok? {
      SwitchOrder.PlanHasAddresses(lib, s, answer);
    }
  }
}
