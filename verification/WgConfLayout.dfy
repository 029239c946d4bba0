/** Printing a configuration and reading it back, and the ways of laying a file out that make no difference. */
module WgConfLayout {
  import opened Basics
  import opened Text
  import opened WgConf

  // --- a reference printer -----------------------------------------------------

  function PairTexts(name: string, values: seq<string>): seq<string> {
    if values == [] then [] else [name + " = " + values[0]] + PairTexts(name, values[1..])
  }

  function IfPresent(v: Option<nat>): seq<string> {
    if v.Some? then [Decimal(v.value)] else []
  }

  /** Every key with the values a configuration gives it. */
  function ReadingsOf(cfg: ParsedConfig): Readings {
    Readings(
      [cfg.privateKey], [Join(cfg.addresses)], if cfg.dns == [] then [] else [Join(cfg.dns)],
      IfPresent(cfg.listenPort), IfPresent(cfg.mtu),
      [cfg.publicKey], [cfg.endpoint], [Join(cfg.allowedIps)],
      if cfg.presharedKey.Some? then [cfg.presharedKey.value] else [], IfPresent(cfg.keepalive))
  }

  function InterfaceTexts(v: Readings): seq<string> {
    ["[Interface]"] + (PairTexts("PrivateKey", v.privateKeys) + (PairTexts("Address", v.addresses) +
    (PairTexts("DNS", v.dns) + (PairTexts("ListenPort", v.listenPorts) + PairTexts("MTU", v.mtus)))))
  }

  function PeerTexts(v: Readings): seq<string> {
    ["[Peer]"] + (PairTexts("PublicKey", v.publicKeys) + (PairTexts("Endpoint", v.endpoints) +
    (PairTexts("AllowedIPs", v.allowedIps) + (PairTexts("PresharedKey", v.presharedKeys) +
    PairTexts("PersistentKeepalive", v.keepalives)))))
  }

  function JoinLines(lines: seq<string>): string {
    if lines == [] then "" else lines[0] + ['\n'] + JoinLines(lines[1..])
  }

  /** A file with a line for every value of every key. */
  function PrintReadings(v: Readings): string {
    JoinLines(InterfaceTexts(v) + PeerTexts(v))
  }

  /** The wg-quick form of a configuration. */
  function Print(cfg: ParsedConfig): string {
    PrintReadings(ReadingsOf(cfg))
  }

  // --- what can be printed -----------------------------------------------------

  /** A value one line can hold: nothing to trim, no comment sign, no newline. It may contain `=`. */
  predicate Holdable(s: string) {
    Trimmed(s) && Free(s, '#') && Free(s, '\n')
  }

  predicate HoldableList(items: seq<string>) {
    forall s :: s in items ==> ListItem(s) && Holdable(s)
  }

  predicate Printable(cfg: ParsedConfig) {
    && Holdable(cfg.privateKey) && Holdable(cfg.publicKey) && Holdable(cfg.endpoint)
    && (cfg.presharedKey.Some? ==> Holdable(cfg.presharedKey.value))
    && cfg.addresses != [] && HoldableList(cfg.addresses)
    && cfg.allowedIps != [] && HoldableList(cfg.allowedIps)
    && HoldableList(cfg.dns)
  }

  lemma {:induction false} JoinIsHoldable(items: seq<string>)
    requires HoldableList(items) && items != []
    ensures Holdable(Join(items)) && Join(items) != []
    decreases items
  {
    assert items[0] in items;
    if |items| > 1 {
      JoinIsHoldable(items[1..]);
      var rest := Join(items[1..]);
      var s := items[0] + ", " + rest;
      assert s[0] == items[0][0] && s[|s| - 1] == rest[|rest| - 1];
      assert forall c :: c in s ==> c in items[0] || c == ',' || c == ' ' || c in rest;
    }
  }

  lemma DecimalIsHoldable(n: nat)
    ensures Holdable(Decimal(n))
  {
    var s := Decimal(n);
    assert s[0] in s && s[|s| - 1] in s;
  }

  predicate AllHoldable(values: seq<string>) {
    forall s :: s in values ==> Holdable(s)
  }

  predicate HoldableReadings(v: Readings) {
    && AllHoldable(v.privateKeys) && AllHoldable(v.addresses) && AllHoldable(v.dns) && AllHoldable(v.listenPorts)
    && AllHoldable(v.mtus) && AllHoldable(v.publicKeys) && AllHoldable(v.endpoints) && AllHoldable(v.allowedIps)
    && AllHoldable(v.presharedKeys) && AllHoldable(v.keepalives)
  }

  lemma PrintableReadings(cfg: ParsedConfig)
    requires Printable(cfg)
    ensures HoldableReadings(ReadingsOf(cfg))
  {
    hide Join, Decimal, Holdable;
    JoinIsHoldable(cfg.addresses);
    JoinIsHoldable(cfg.allowedIps);
    if cfg.dns != [] {
      JoinIsHoldable(cfg.dns);
    }
    if cfg.listenPort.Some? {
      DecimalIsHoldable(cfg.listenPort.value);
    }
    if cfg.mtu.Some? {
      DecimalIsHoldable(cfg.mtu.value);
    }
    if cfg.keepalive.Some? {
      DecimalIsHoldable(cfg.keepalive.value);
    }
  }

  // --- lines -------------------------------------------------------------------

  lemma {:induction false} SplitLines(lines: seq<string>)
    requires forall l :: l in lines ==> Free(l, '\n')
    ensures Split(JoinLines(lines), '\n') == lines + [""]
    decreases lines
  {
    if lines != [] {
      assert lines[0] in lines;
      SplitFirst(lines[0], JoinLines(lines[1..]), '\n');
      SplitLines(lines[1..]);
      assert [lines[0]] + (lines[1..] + [""]) == lines + [""];
    }
  }

  lemma {:induction false} StripAllNothing(lines: seq<string>)
    requires forall l :: l in lines ==> StripCr(l) == l
    ensures StripAll(lines) == lines
    decreases lines
  {
    if lines != [] {
      assert lines[0] in lines;
      StripAllNothing(lines[1..]);
    }
  }

  lemma LinesOfJoin(lines: seq<string>)
    requires forall l :: l in lines ==> Free(l, '\n') && StripCr(l) == l
    ensures Lines(JoinLines(lines)) == lines
  {
    hide StripCr, Split;
    SplitLines(lines);
    var parts := lines + [""];
    assert parts[..|parts| - 1] == lines;
    StripAllNothing(lines);
  }

  lemma {:induction false} BeforeFree(s: string, c: char)
    requires Free(s, c)
    ensures Before(s, c) == s
  {
    BeforeLength(s, c);
  }

  lemma {:induction false} BeforeOf(a: string, c: char, rest: string)
    requires Free(a, c)
    ensures Before(a + [c] + rest, c) == a
    decreases a
  {
    if a == [] {
      assert ([] + [c] + rest)[0] == c;
    } else {
      assert a[0] in a;
      assert (a + [c] + rest)[1..] == a[1..] + [c] + rest;
      BeforeOf(a[1..], c, rest);
      assert [a[0]] + a[1..] == a;
    }
  }

  /** A trimmed content line that is a key, an equals sign and a value, white space allowed around the sign. */
  lemma PairContent(key: string, before: string, after: string, value: string)
    requires key != [] && Trimmed(key) && Free(key, '=') && key[0] != '['
    requires Blank(before) && Blank(after) && Trimmed(value)
    ensures ClassifyContent(key + before + ['='] + after + value) == Pair(KeyOf(Lower(key)), value)
  {
    hide Trim, Lower, KeyOf;
    var content := key + before + ['='] + after + value;
    assert content[0] == key[0];
    assert forall c :: c in before ==> c != '=';
    assert content == (key + before) + ['='] + (after + value);
    BeforeOf(key + before, '=', after + value);
    assert content[|key + before|] == '=';
    assert content[|key + before| + 1..] == after + value;
    TrimPad([], key, before);
    assert [] + key + before == key + before;
    TrimFixpoint(key);
    TrimPad(after, value, []);
    assert after + value + [] == after + value;
    TrimFixpoint(value);
  }

  predicate PlainName(name: string) {
    && name != [] && Trimmed(name) && Free(name, '=') && Free(name, '#') && Free(name, '\n') && name[0] != '['
  }

  lemma PrintedUncut(name: string, value: string)
    requires PlainName(name) && Holdable(value)
    ensures var raw := name + " = " + value;
            StripCr(raw) == raw && Before(raw, '#') == raw && Free(raw, '\n')
  {
    var raw := name + " = " + value;
    assert raw[|raw| - 1] == if value == [] then ' ' else value[|value| - 1];
    assert forall c :: c in raw ==> c in name || c == ' ' || c == '=' || c in value;
    BeforeFree(raw, '#');
  }

  /** A printed pair reads back as that pair, whatever its value holds. */
  lemma PrintedPair(name: string, value: string)
    requires PlainName(name) && Holdable(value)
    ensures Classify(name + " = " + value) == Pair(KeyOf(Lower(name)), value)
  {
    hide Trim, Lower, KeyOf, ClassifyContent, StripCr, Before;
    var raw := name + " = " + value;
    PrintedUncut(name, value);
    if value == [] {
      var tight := name + " =";
      assert tight[0] == name[0];
      TrimPad([], tight, " ");
      assert [] + tight + " " == raw;
      TrimFixpoint(tight);
      PairContent(name, " ", [], []);
      assert name + " " + ['='] + [] + [] == tight;
    } else {
      assert raw[0] == name[0] && raw[|raw| - 1] == value[|value| - 1];
      TrimFixpoint(raw);
      PairContent(name, " ", " ", value);
      assert name + " " + ['='] + " " + value == raw;
    }
  }

  function PairsOf(key: Key, values: seq<string>): seq<Line> {
    if values == [] then [] else [Pair(key, values[0])] + PairsOf(key, values[1..])
  }

  lemma {:induction false} ClassifyPairTexts(name: string, values: seq<string>)
    requires PlainName(name) && AllHoldable(values)
    ensures ClassifyAll(PairTexts(name, values)) == PairsOf(KeyOf(Lower(name)), values)
    ensures forall l :: l in PairTexts(name, values) ==> Free(l, '\n') && StripCr(l) == l
    decreases values
  {
    hide Classify, StripCr, Trimmed, Lower, KeyOf;
    if values != [] {
      var raw := name + " = " + values[0];
      assert values[0] in values;
      PrintedPair(name, values[0]);
      PrintedUncut(name, values[0]);
      ClassifyPairTexts(name, values[1..]);
      var rest := PairTexts(name, values[1..]);
      assert PairTexts(name, values)[1..] == rest;
    }
  }

  lemma {:induction false} ClassifyAppend(a: seq<string>, b: seq<string>)
    ensures ClassifyAll(a + b) == ClassifyAll(a) + ClassifyAll(b)
    decreases a
  {
    hide Classify;
    if a == [] {
      assert a + b == b;
    } else {
      assert (a + b)[1..] == a[1..] + b;
      ClassifyAppend(a[1..], b);
    }
  }

  /** Pairs under one header are read by their own key, in that section only. */
  lemma {:induction false} ValuesOfPairs(start: Option<Section>, key: Key, values: seq<string>, section: Section,
                                         asked: Key)
    ensures ValuesFrom(start, PairsOf(key, values), section, asked) ==
            if start == Some(section) && key == asked then values else []
    ensures SectionAfter(start, PairsOf(key, values)) == start
    ensures Count(PairsOf(key, values), section) == 0
    ensures start.Some? ==> CleanFrom(start, PairsOf(key, values))
    decreases values
  {
    if values != [] {
      assert PairsOf(key, values)[1..] == PairsOf(key, values[1..]);
      ValuesOfPairs(start, key, values[1..], section, asked);
    }
  }

  function InterfacePairs(v: Readings): seq<Line> {
    PairsOf(PrivateKey, v.privateKeys) + (PairsOf(Address, v.addresses) + (PairsOf(Dns, v.dns) +
    (PairsOf(ListenPort, v.listenPorts) + PairsOf(Mtu, v.mtus))))
  }

  function PeerPairs(v: Readings): seq<Line> {
    PairsOf(PublicKey, v.publicKeys) + (PairsOf(Endpoint, v.endpoints) + (PairsOf(AllowedIps, v.allowedIps) +
    (PairsOf(PresharedKey, v.presharedKeys) + PairsOf(Keepalive, v.keepalives))))
  }

  function Block(section: Section, pairs: seq<Line>): seq<Line> {
    [Header(section)] + pairs
  }

  /** Five runs of pairs, one after another. */
  lemma FiveRuns(section: Section, k1: Key, v1: seq<string>, k2: Key, v2: seq<string>, k3: Key, v3: seq<string>,
                 k4: Key, v4: seq<string>, k5: Key, v5: seq<string>, s: Section, asked: Key)
    ensures var pairs := PairsOf(k1, v1) + (PairsOf(k2, v2) + (PairsOf(k3, v3) + (PairsOf(k4, v4) + PairsOf(k5, v5))));
            && ValuesFrom(Some(section), pairs, s, asked) ==
               (if s == section && k1 == asked then v1 else []) + ((if s == section && k2 == asked then v2 else []) +
               ((if s == section && k3 == asked then v3 else []) + ((if s == section && k4 == asked then v4 else []) +
                (if s == section && k5 == asked then v5 else []))))
            && SectionAfter(Some(section), pairs) == Some(section)
            && Count(pairs, s) == 0
            && CleanFrom(Some(section), pairs)
  {
    hide ValuesFrom, SectionAfter, Count, CleanFrom, PairsOf;
    var start := Some(section);
    var p5 := PairsOf(k5, v5);
    var p4 := PairsOf(k4, v4) + p5;
    var p3 := PairsOf(k3, v3) + p4;
    var p2 := PairsOf(k2, v2) + p3;
    RunThen(section, k4, v4, p5, s, asked, k5, v5);
    RunThen(section, k3, v3, p4, s, asked, k4, v4);
    RunThen(section, k2, v2, p3, s, asked, k3, v3);
    RunThen(section, k1, v1, p2, s, asked, k2, v2);
  }

  lemma RunThen(section: Section, key: Key, values: seq<string>, rest: seq<Line>, s: Section, asked: Key,
                key5: Key, values5: seq<string>)
    ensures var pairs := PairsOf(key, values) + rest;
            && ValuesFrom(Some(section), pairs, s, asked) ==
               (if s == section && key == asked then values else []) + ValuesFrom(Some(section), rest, s, asked)
            && SectionAfter(Some(section), pairs) == SectionAfter(Some(section), rest)
            && Count(pairs, s) == Count(rest, s)
            && (CleanFrom(Some(section), pairs) <==> CleanFrom(Some(section), rest))
    ensures ValuesFrom(Some(section), PairsOf(key5, values5), s, asked) ==
            if s == section && key5 == asked then values5 else []
    ensures SectionAfter(Some(section), PairsOf(key5, values5)) == Some(section)
    ensures Count(PairsOf(key5, values5), s) == 0 && CleanFrom(Some(section), PairsOf(key5, values5))
  {
    hide ValuesFrom, SectionAfter, Count, CleanFrom, PairsOf;
    ValuesOfPairs(Some(section), key, values, s, asked);
    ValuesOfPairs(Some(section), key5, values5, s, asked);
    ValuesAppend(Some(section), PairsOf(key, values), rest, s, asked);
    SectionAfterAppend(Some(section), PairsOf(key, values), rest);
    CountAppend(PairsOf(key, values), rest, s);
    CleanAppend(Some(section), PairsOf(key, values), rest);
  }

  lemma LowerIs(name: string, lower: string)
    requires |name| == |lower| && forall i :: 0 <= i < |name| ==> LowerChar(name[i]) == lower[i]
    ensures Lower(name) == lower
  {
  }

  lemma IsPlain(name: string)
    requires name != [] && name[0] != '[' && forall i :: 0 <= i < |name| ==> 'A' <= name[i] <= 'z' && name[i] != '['
    ensures PlainName(name)
  {
  }

  lemma NamePrivateKey()
    ensures KeyOf(Lower("PrivateKey")) == PrivateKey && PlainName("PrivateKey")
  {
    hide Lower, PlainName;
    LowerIs("PrivateKey", "privatekey");
    IsPlain("PrivateKey");
  }

  lemma NameAddress()
    ensures KeyOf(Lower("Address")) == Address && PlainName("Address")
  {
    hide Lower, PlainName;
    LowerIs("Address", "address");
    IsPlain("Address");
  }

  lemma NameDns()
    ensures KeyOf(Lower("DNS")) == Dns && PlainName("DNS")
  {
    hide Lower, PlainName;
    LowerIs("DNS", "dns");
    IsPlain("DNS");
  }

  lemma NameListenPort()
    ensures KeyOf(Lower("ListenPort")) == ListenPort && PlainName("ListenPort")
  {
    hide Lower, PlainName;
    LowerIs("ListenPort", "listenport");
    IsPlain("ListenPort");
  }

  lemma NameMtu()
    ensures KeyOf(Lower("MTU")) == Mtu && PlainName("MTU")
  {
    hide Lower, PlainName;
    LowerIs("MTU", "mtu");
    IsPlain("MTU");
  }

  lemma NamePublicKey()
    ensures KeyOf(Lower("PublicKey")) == PublicKey && PlainName("PublicKey")
  {
    hide Lower, PlainName;
    LowerIs("PublicKey", "publickey");
    IsPlain("PublicKey");
  }

  lemma NameEndpoint()
    ensures KeyOf(Lower("Endpoint")) == Endpoint && PlainName("Endpoint")
  {
    hide Lower, PlainName;
    LowerIs("Endpoint", "endpoint");
    IsPlain("Endpoint");
  }

  lemma NameAllowedIps()
    ensures KeyOf(Lower("AllowedIPs")) == AllowedIps && PlainName("AllowedIPs")
  {
    hide Lower, PlainName;
    LowerIs("AllowedIPs", "allowedips");
    IsPlain("AllowedIPs");
  }

  lemma NamePresharedKey()
    ensures KeyOf(Lower("PresharedKey")) == PresharedKey && PlainName("PresharedKey")
  {
    hide Lower, PlainName;
    LowerIs("PresharedKey", "presharedkey");
    IsPlain("PresharedKey");
  }

  lemma NameKeepalive()
    ensures KeyOf(Lower("PersistentKeepalive")) == Keepalive && PlainName("PersistentKeepalive")
  {
    hide Lower, PlainName;
    LowerIs("PersistentKeepalive", "persistentkeepalive");
    IsPlain("PersistentKeepalive");
  }

  lemma HeaderText(inner: string)
    requires Trimmed(inner) && Free(inner, '#') && Free(inner, '\n')
    ensures var raw := ['['] + inner + [']'];
            && StripCr(raw) == raw && Free(raw, '\n')
            && (Lower(inner) == "interface" ==> Classify(raw) == Header(Interface))
            && (Lower(inner) == "peer" ==> Classify(raw) == Header(Peer))
  {
    hide Trim, Lower;
    var raw := ['['] + inner + [']'];
    BeforeFree(raw, '#');
    TrimFixpoint(raw);
    assert raw[1..|raw| - 1] == inner;
    TrimFixpoint(inner);
  }

  lemma HeaderTexts()
    ensures Classify("[Interface]") == Header(Interface) && StripCr("[Interface]") == "[Interface]"
            && Free("[Interface]", '\n')
    ensures Classify("[Peer]") == Header(Peer) && StripCr("[Peer]") == "[Peer]" && Free("[Peer]", '\n')
  {
    hide Classify, StripCr, Lower;
    LowerIs("Interface", "interface");
    LowerIs("Peer", "peer");
    HeaderText("Interface");
    HeaderText("Peer");
    assert ['['] + "Interface" + [']'] == "[Interface]";
    assert ['['] + "Peer" + [']'] == "[Peer]";
  }

  predicate Printed(lines: seq<string>) {
    forall l :: l in lines ==> Free(l, '\n') && StripCr(l) == l
  }

  lemma PrintedAppend(a: seq<string>, b: seq<string>)
    requires Printed(a) && Printed(b)
    ensures Printed(a + b)
    ensures ClassifyAll(a + b) == ClassifyAll(a) + ClassifyAll(b)
  {
    hide StripCr, Free;
    ClassifyAppend(a, b);
  }

  lemma ClassifyInterface(v: Readings)
    requires HoldableReadings(v)
    ensures ClassifyAll(InterfaceTexts(v)) == Block(Interface, InterfacePairs(v))
    ensures Printed(InterfaceTexts(v))
  {
    hide Classify, StripCr, Free, ClassifyAll, PairTexts, PairsOf, KeyOf, Lower;
    NamePrivateKey();
    NameAddress();
    NameDns();
    NameListenPort();
    NameMtu();
    HeaderTexts();
    ClassifyPairTexts("PrivateKey", v.privateKeys);
    ClassifyPairTexts("Address", v.addresses);
    ClassifyPairTexts("DNS", v.dns);
    ClassifyPairTexts("ListenPort", v.listenPorts);
    ClassifyPairTexts("MTU", v.mtus);
    var t5 := PairTexts("MTU", v.mtus);
    var t4 := PairTexts("ListenPort", v.listenPorts) + t5;
    var t3 := PairTexts("DNS", v.dns) + t4;
    var t2 := PairTexts("Address", v.addresses) + t3;
    PrintedAppend(PairTexts("ListenPort", v.listenPorts), t5);
    PrintedAppend(PairTexts("DNS", v.dns), t4);
    PrintedAppend(PairTexts("Address", v.addresses), t3);
    PrintedAppend(PairTexts("PrivateKey", v.privateKeys), t2);
    OneLine("[Interface]");
    PrintedAppend(["[Interface]"], PairTexts("PrivateKey", v.privateKeys) + t2);
  }

  lemma OneLine(raw: string)
    ensures ClassifyAll([raw]) == [Classify(raw)]
  {
    hide Classify;
    assert [raw][1..] == [];
  }

  lemma ClassifyPeer(v: Readings)
    requires HoldableReadings(v)
    ensures ClassifyAll(PeerTexts(v)) == Block(Peer, PeerPairs(v))
    ensures Printed(PeerTexts(v))
  {
    hide Classify, StripCr, Free, ClassifyAll, PairTexts, PairsOf, KeyOf, Lower;
    NamePublicKey();
    NameEndpoint();
    NameAllowedIps();
    NamePresharedKey();
    NameKeepalive();
    HeaderTexts();
    ClassifyPairTexts("PublicKey", v.publicKeys);
    ClassifyPairTexts("Endpoint", v.endpoints);
    ClassifyPairTexts("AllowedIPs", v.allowedIps);
    ClassifyPairTexts("PresharedKey", v.presharedKeys);
    ClassifyPairTexts("PersistentKeepalive", v.keepalives);
    var t5 := PairTexts("PersistentKeepalive", v.keepalives);
    var t4 := PairTexts("PresharedKey", v.presharedKeys) + t5;
    var t3 := PairTexts("AllowedIPs", v.allowedIps) + t4;
    var t2 := PairTexts("Endpoint", v.endpoints) + t3;
    PrintedAppend(PairTexts("PresharedKey", v.presharedKeys), t5);
    PrintedAppend(PairTexts("AllowedIPs", v.allowedIps), t4);
    PrintedAppend(PairTexts("Endpoint", v.endpoints), t3);
    PrintedAppend(PairTexts("PublicKey", v.publicKeys), t2);
    OneLine("[Peer]");
    PrintedAppend(["[Peer]"], PairTexts("PublicKey", v.publicKeys) + t2);
  }

  /** A block's own section reads its values; the other section reads nothing from it. */
  lemma BlockFacts(start: Option<Section>, section: Section, pairs: seq<Line>)
    requires SectionAfter(Some(section), pairs) == Some(section) && CleanFrom(Some(section), pairs)
    requires forall s :: Count(pairs, s) == 0
    ensures forall s, k :: ValuesFrom(start, Block(section, pairs), s, k) == ValuesFrom(Some(section), pairs, s, k)
    ensures SectionAfter(start, Block(section, pairs)) == Some(section)
    ensures CleanFrom(start, Block(section, pairs))
    ensures forall s :: Count(Block(section, pairs), s) == if s == section then 1 else 0
  {
    assert Block(section, pairs)[1..] == pairs;
  }

  lemma InterfaceRuns(v: Readings, s: Section, asked: Key)
    ensures var pairs := InterfacePairs(v);
            && ValuesFrom(Some(Interface), pairs, s, asked) ==
               (if s == Peer then [] else if asked == PrivateKey then v.privateKeys
                else if asked == Address then v.addresses
                else if asked == Dns then v.dns else if asked == ListenPort then v.listenPorts
                else if asked == Mtu then v.mtus else [])
            && SectionAfter(Some(Interface), pairs) == Some(Interface)
            && Count(pairs, s) == 0
            && CleanFrom(Some(Interface), pairs)
  {
    hide ValuesFrom, SectionAfter, Count, CleanFrom, PairsOf;
    FiveRuns(Interface, PrivateKey, v.privateKeys, Address, v.addresses, Dns, v.dns, ListenPort, v.listenPorts, Mtu,
             v.mtus, s, asked);
  }

  lemma InterfaceBlock(v: Readings)
    ensures var pairs := InterfacePairs(v);
            && ReadFrom(Some(Interface), pairs) ==
               Readings(v.privateKeys, v.addresses, v.dns, v.listenPorts, v.mtus, [], [], [], [], [])
            && SectionAfter(Some(Interface), pairs) == Some(Interface) && CleanFrom(Some(Interface), pairs)
            && forall s :: Count(pairs, s) == 0
  {
    hide ValuesFrom, SectionAfter, Count, CleanFrom, InterfacePairs;
    var pairs := InterfacePairs(v);
    InterfaceRuns(v, Interface, PrivateKey);
    InterfaceRuns(v, Interface, Address);
    InterfaceRuns(v, Interface, Dns);
    InterfaceRuns(v, Interface, ListenPort);
    InterfaceRuns(v, Interface, Mtu);
    forall k ensures ValuesFrom(Some(Interface), pairs, Peer, k) == [] {
      InterfaceRuns(v, Peer, k);
    }
    forall s ensures Count(pairs, s) == 0 {
      InterfaceRuns(v, s, Mtu);
    }
  }

  lemma PeerRuns(v: Readings, s: Section, asked: Key)
    ensures var pairs := PeerPairs(v);
            && ValuesFrom(Some(Peer), pairs, s, asked) ==
               (if s == Interface then [] else if asked == PublicKey then v.publicKeys
                else if asked == Endpoint then v.endpoints
                else if asked == AllowedIps then v.allowedIps else if asked == PresharedKey then v.presharedKeys
                else if asked == Keepalive then v.keepalives else [])
            && SectionAfter(Some(Peer), pairs) == Some(Peer)
            && Count(pairs, s) == 0
            && CleanFrom(Some(Peer), pairs)
  {
    hide ValuesFrom, SectionAfter, Count, CleanFrom, PairsOf;
    FiveRuns(Peer, PublicKey, v.publicKeys, Endpoint, v.endpoints, AllowedIps, v.allowedIps, PresharedKey,
             v.presharedKeys, Keepalive, v.keepalives, s, asked);
  }

  lemma PeerBlock(v: Readings)
    ensures var pairs := PeerPairs(v);
            && ReadFrom(Some(Peer), pairs) ==
               Readings([], [], [], [], [], v.publicKeys, v.endpoints, v.allowedIps, v.presharedKeys, v.keepalives)
            && SectionAfter(Some(Peer), pairs) == Some(Peer) && CleanFrom(Some(Peer), pairs)
            && forall s :: Count(pairs, s) == 0
  {
    hide ValuesFrom, SectionAfter, Count, CleanFrom, PeerPairs;
    var pairs := PeerPairs(v);
    PeerRuns(v, Peer, PublicKey);
    PeerRuns(v, Peer, Endpoint);
    PeerRuns(v, Peer, AllowedIps);
    PeerRuns(v, Peer, PresharedKey);
    PeerRuns(v, Peer, Keepalive);
    forall k ensures ValuesFrom(Some(Peer), pairs, Interface, k) == [] {
      PeerRuns(v, Interface, k);
    }
    forall s ensures Count(pairs, s) == 0 {
      PeerRuns(v, s, Keepalive);
    }
  }

  /** A printed file has exactly the readings it was printed from. */
  lemma PrintedLines(v: Readings)
    ensures var lines := Block(Interface, InterfacePairs(v)) + Block(Peer, PeerPairs(v));
            && Read(lines) == v
            && CleanFrom(None, lines) && Count(lines, Interface) == 1 && Count(lines, Peer) == 1
  {
    hide ValuesFrom, SectionAfter, Count, CleanFrom, InterfacePairs, PeerPairs, Block;
    InterfaceBlock(v);
    PeerBlock(v);
    var a := Block(Interface, InterfacePairs(v));
    var b := Block(Peer, PeerPairs(v));
    BlockFacts(None, Interface, InterfacePairs(v));
    BlockFacts(Some(Interface), Peer, PeerPairs(v));
    ReadAppend(None, a, b);
    CleanAppend(None, a, b);
    CountAppend(a, b, Interface);
    CountAppend(a, b, Peer);
    assert Concat(ReadFrom(None, a), ReadFrom(Some(Interface), b)) == v;
  }

  /** The readings of a printable configuration are sound, complete, and give the configuration back. */
  lemma FieldsOfReadings(cfg: ParsedConfig)
    requires Printable(cfg)
    ensures var v := ReadingsOf(cfg);
            Sound(v) && Complete(v) && FieldsOf(v) == cfg
  {
    hide Csv, Join, Holdable, Decimal, ParseNum;
    OneCsv(cfg.addresses);
    OneCsv(cfg.allowedIps);
    OneCsv(cfg.dns);
    OneNumber(cfg.listenPort, U16);
    OneNumber(cfg.mtu, U32);
    OneNumber(cfg.keepalive, U16);
  }

  lemma OneCsv(items: seq<string>)
    requires HoldableList(items)
    ensures CsvAll([Join(items)]) == items && CsvAll([]) == []
  {
    hide Csv, Join, ListItem, Holdable;
    CsvOfJoin(items);
    assert [Join(items)][1..] == [];
    assert items + [] == items;
  }

  lemma OneNumber(n: Option<nat>, limit: nat)
    requires n.Some? ==> n.value < limit
    ensures Numbers(IfPresent(n), limit) && LastNumber(IfPresent(n), limit) == n
  {
    hide Decimal, ParseNum;
    if n.Some? {
      ParseDecimal(n.value, limit);
    }
  }

  /** What the parser reads in a printed file. */
  lemma PrintedReads(v: Readings)
    requires HoldableReadings(v)
    ensures var lines := ClassifyAll(Lines(PrintReadings(v)));
            Read(lines) == v && CleanFrom(None, lines) && Count(lines, Interface) == 1 && Count(lines, Peer) == 1
  {
    hide Classify, StripCr, Free, ClassifyAll, Lines, HoldableReadings, InterfaceTexts, PeerTexts, CleanFrom, Count,
         ReadFrom, Block, InterfacePairs, PeerPairs, JoinLines;
    ClassifyInterface(v);
    ClassifyPeer(v);
    PrintedAppend(InterfaceTexts(v), PeerTexts(v));
    LinesOfJoin(InterfaceTexts(v) + PeerTexts(v));
    PrintedLines(v);
  }

  /** Round trip: parsing what was printed gives the configuration back, values with `=` in them included. */
  lemma ParsePrint(cfg: ParsedConfig)
    requires Printable(cfg)
    ensures Meaning(ClassifyAll(Lines(Print(cfg)))) == Some(cfg)
  {
    hide ClassifyAll, Lines, ReadingsOf, Printable, HoldableReadings, PrintReadings, Sound, Complete, FieldsOf,
         CleanFrom, Count, ReadFrom;
    PrintableReadings(cfg);
    PrintedReads(ReadingsOf(cfg));
    FieldsOfReadings(cfg);
  }

  // --- layout that makes no difference -----------------------------------------

  function IsSignificant(): Line -> bool {
    (l: Line) => !l.Skip?
  }

  /** The lines that are not blank and not only a comment. */
  function Significant(lines: seq<Line>): seq<Line> {
    Keep(lines, IsSignificant())
  }

  lemma {:induction false} SkipsChangeNothing(start: Option<Section>, lines: seq<Line>)
    ensures SectionAfter(start, Significant(lines)) == SectionAfter(start, lines)
    ensures forall s, k :: ValuesFrom(start, Significant(lines), s, k) == ValuesFrom(start, lines, s, k)
    ensures forall s :: Count(Significant(lines), s) == Count(lines, s)
    ensures CleanFrom(start, Significant(lines)) <==> CleanFrom(start, lines)
    decreases lines
  {
    if lines != [] {
      var rest := Significant(lines[1..]);
      SkipsChangeNothing(if lines[0].Header? then Some(lines[0].section) else start, lines[1..]);
      if lines[0].Skip? {
        assert Significant(lines) == rest;
      } else {
        assert Significant(lines) == [lines[0]] + rest;
        assert Significant(lines)[1..] == rest;
      }
    }
  }

  /** Two files whose significant lines agree mean the same. */
  lemma SameSignificantSameMeaning(a: seq<Line>, b: seq<Line>)
    requires Significant(a) == Significant(b)
    ensures Meaning(a) == Meaning(b)
  {
    hide ValuesFrom, CleanFrom, Count, Significant, Sound, Complete, FieldsOf;
    SkipsChangeNothing(None, a);
    SkipsChangeNothing(None, b);
  }

  lemma BeforeStep(s: string, c: char)
    requires s != []
    ensures Before(s, c) == if s[0] == c then [] else [s[0]] + Before(s[1..], c)
  {
  }

  lemma {:induction false} BeforeAppend(a: string, b: string, c: char)
    ensures Before(a + b, c) == if c in a then Before(a, c) else a + Before(b, c)
    decreases a
  {
    hide Before;
    if a == [] {
      assert a + b == b && a + Before(b, c) == Before(b, c);
    } else {
      var head, tail := a[0], a[1..];
      assert a == [head] + tail;
      assert (a + b)[0] == head && (a + b)[1..] == tail + b;
      BeforeStep(a, c);
      BeforeStep(a + b, c);
      if head != c {
        BeforeAppend(tail, b, c);
        Associates(head, tail, Before(b, c));
      }
    }
  }

  lemma Associates(head: char, tail: string, rest: string)
    ensures [head] + (tail + rest) == ([head] + tail) + rest
  {
  }

  lemma CrIsTrimmed(s: string)
    ensures Trim(Before(s + ['\r'], '#')) == Trim(Before(s, '#'))
  {
    hide Trim, Before;
    BeforeAppend(s, ['\r'], '#');
    if '#' !in s {
      BeforeFree(['\r'], '#');
      BeforeFree(s, '#');
      TrimPad([], s, ['\r']);
      assert [] + s + ['\r'] == s + ['\r'];
    }
  }

  /** A trailing CR is white space like any other. */
  lemma ContentIgnoresCr(raw: string)
    ensures Content(raw) == Trim(Before(raw, '#'))
  {
    hide Trim, Before;
    var s := StripCr(raw);
    if s != raw {
      assert raw == s + ['\r'];
      CrIsTrimmed(s);
    }
  }

  /** A comment at the end of a line, to the end of the line. */
  lemma CommentIgnored(raw: string, comment: string)
    ensures Classify(raw + ['#'] + comment) == Classify(raw)
  {
    hide Trim, ClassifyContent, StripCr;
    ContentIgnoresCr(raw);
    ContentIgnoresCr(raw + ['#'] + comment);
    assert raw + ['#'] + comment == raw + (['#'] + comment);
    BeforeAppend(raw, ['#'] + comment, '#');
    BeforeOf([], '#', comment);
    assert [] + ['#'] + comment == ['#'] + comment;
    BeforeLength(raw, '#');
    assert raw + [] == raw;
  }

  /** White space around a line, a trailing CR included. */
  lemma PaddingIgnored(before: string, raw: string, after: string)
    requires Blank(before) && Blank(after)
    ensures Classify(before + raw + after) == Classify(raw)
  {
    hide Trim, ClassifyContent, StripCr;
    ContentIgnoresCr(raw);
    ContentIgnoresCr(before + raw + after);
    assert before + raw + after == before + (raw + after);
    assert '#' !in before && '#' !in after;
    BeforeAppend(before, raw + after, '#');
    BeforeAppend(raw, after, '#');
    BeforeFree(after, '#');
    BeforeLength(raw, '#');
    if '#' in raw {
      TrimPad(before, Before(raw, '#'), []);
      assert before + Before(raw, '#') + [] == before + Before(raw, '#');
    } else {
      TrimPad(before, raw, after);
    }
  }

  /** A line of white space, with or without a comment. */
  lemma BlankLineSkipped(pad: string, comment: string)
    requires Blank(pad)
    ensures Classify(pad) == Skip && Classify(pad + ['#'] + comment) == Skip
  {
    hide Trim, StripCr;
    CommentIgnored(pad, comment);
    PaddingIgnored(pad, [], []);
    assert pad + [] + [] == pad;
    ContentIgnoresCr([]);
    TrimFixpoint([]);
  }

  /** The case of a key and the white space around the equals sign. */
  lemma KeyCaseIgnored(key1: string, key2: string, b1: string, a1: string, b2: string, a2: string, value: string)
    requires PlainName(key1) && PlainName(key2) && Lower(key1) == Lower(key2)
    requires Blank(b1) && Blank(a1) && Blank(b2) && Blank(a2) && Trimmed(value)
    ensures ClassifyContent(key1 + b1 + ['='] + a1 + value) == ClassifyContent(key2 + b2 + ['='] + a2 + value)
  {
    hide Lower, KeyOf, ClassifyContent;
    PairContent(key1, b1, a1, value);
    PairContent(key2, b2, a2, value);
  }

  /** The case of a section name and the white space inside its brackets. */
  lemma HeaderCaseIgnored(name1: string, name2: string, b1: string, a1: string, b2: string, a2: string)
    requires Trimmed(name1) && Trimmed(name2) && Lower(name1) == Lower(name2)
    requires Blank(b1) && Blank(a1) && Blank(b2) && Blank(a2)
    ensures ClassifyContent(['['] + (b1 + name1 + a1) + [']']) == ClassifyContent(['['] + (b2 + name2 + a2) + [']'])
  {
    hide Trim, Lower;
    var c1 := ['['] + (b1 + name1 + a1) + [']'];
    var c2 := ['['] + (b2 + name2 + a2) + [']'];
    assert c1[1..|c1| - 1] == b1 + name1 + a1;
    assert c2[1..|c2| - 1] == b2 + name2 + a2;
    TrimPad(b1, name1, a1);
    TrimPad(b2, name2, a2);
    TrimFixpoint(name1);
    TrimFixpoint(name2);
  }

  predicate StartsSection(lines: seq<Line>) {
    lines != [] && lines[0].Header?
  }

  /** A part of a file that begins with a header reads the same wherever it stands. */
  lemma PartIsIndependent(start: Option<Section>, part: seq<Line>)
    requires StartsSection(part)
    ensures forall s, k :: ValuesFrom(start, part, s, k) == ValuesFrom(None, part, s, k)
    ensures CleanFrom(start, part) <==> CleanFrom(None, part)
  {
  }

  /** Without its header, a section has no values. */
  lemma {:induction false} NoHeaderNoValues(start: Option<Section>, lines: seq<Line>, s: Section)
    requires Count(lines, s) == 0 && start != Some(s)
    ensures forall k :: ValuesFrom(start, lines, s, k) == []
    decreases lines
  {
    if lines != [] {
      NoHeaderNoValues(if lines[0].Header? then Some(lines[0].section) else start, lines[1..], s);
    }
  }

  lemma PartsCommute(a: seq<Line>, b: seq<Line>, s: Section, k: Key)
    requires StartsSection(a) && StartsSection(b) && Count(a, s) + Count(b, s) <= 1
    ensures ValuesFrom(None, a + b, s, k) == ValuesFrom(None, b + a, s, k)
  {
    hide ValuesFrom, SectionAfter, StartsSection;
    ValuesAppend(None, a, b, s, k);
    ValuesAppend(None, b, a, s, k);
    PartIsIndependent(SectionAfter(None, a), b);
    PartIsIndependent(SectionAfter(None, b), a);
    if Count(a, s) == 0 {
      NoHeaderNoValues(None, a, s);
      assert [] + ValuesFrom(None, b, s, k) == ValuesFrom(None, b, s, k) + [];
    } else {
      NoHeaderNoValues(None, b, s);
      assert ValuesFrom(None, a, s, k) + [] == [] + ValuesFrom(None, a, s, k);
    }
  }

  lemma HeadedPartsSwap(a: seq<Line>, b: seq<Line>)
    requires StartsSection(a) && StartsSection(b)
    ensures Meaning(a + b) == Meaning(b + a)
  {
    hide ValuesFrom, SectionAfter, StartsSection, CleanFrom, Sound, Complete, FieldsOf;
    CleanAppend(None, a, b);
    CleanAppend(None, b, a);
    PartIsIndependent(SectionAfter(None, a), b);
    PartIsIndependent(SectionAfter(None, b), a);
    CountAppend(a, b, Interface);
    CountAppend(b, a, Interface);
    CountAppend(a, b, Peer);
    CountAppend(b, a, Peer);
    if Count(a + b, Interface) <= 1 && Count(a + b, Peer) <= 1 {
      forall s, k ensures ValuesFrom(None, a + b, s, k) == ValuesFrom(None, b + a, s, k) {
        match s
        case Interface => PartsCommute(a, b, Interface, k);
        case Peer => PartsCommute(a, b, Peer, k);
      }
    }
  }

  /** The first line that is not blank and not a comment, if there is one, is a header. */
  predicate OpensSection(lines: seq<Line>) {
    Significant(lines) == [] || StartsSection(Significant(lines))
  }

  /** The two sections may come in either order, each with whatever blank lines and comments stand before it. */
  lemma SectionsSwap(a: seq<Line>, b: seq<Line>)
    requires OpensSection(a) && OpensSection(b)
    ensures Meaning(a + b) == Meaning(b + a)
  {
    hide Meaning, Significant;
    var sa, sb := Significant(a), Significant(b);
    SignificantParts(a, b);
    SignificantParts(b, a);
    SignificantTwice(a, b);
    SignificantTwice(b, a);
    SameSignificantSameMeaning(a + b, sa + sb);
    SameSignificantSameMeaning(b + a, sb + sa);
    if sa == [] || sb == [] {
      assert sa + sb == sb + sa;
    } else {
      HeadedPartsSwap(sa, sb);
    }
  }

  lemma SignificantParts(a: seq<Line>, b: seq<Line>)
    ensures Significant(a + b) == Significant(a) + Significant(b)
  {
    KeepAppend(a, b, IsSignificant());
  }

  lemma {:induction false} KeepTwice(lines: seq<Line>)
    ensures Significant(Significant(lines)) == Significant(lines)
    decreases lines
  {
    if lines != [] {
      KeepTwice(lines[1..]);
      var rest := Significant(lines[1..]);
      if lines[0].Skip? {
        assert Significant(lines) == rest;
      } else {
        assert Significant(lines) == [lines[0]] + rest;
        assert Significant(lines)[1..] == rest;
      }
    }
  }

  lemma SignificantTwice(a: seq<Line>, b: seq<Line>)
    ensures Significant(Significant(a) + Significant(b)) == Significant(a) + Significant(b)
  {
    hide Significant;
    KeepTwice(a);
    KeepTwice(b);
    SignificantParts(Significant(a), Significant(b));
  }

  // --- line endings ------------------------------------------------------------

  /** The same text with CRLF line endings. */
  function ToCrlf(text: string): string {
    if text == [] then [] else (if text[0] == '\n' then "\r\n" else [text[0]]) + ToCrlf(text[1..])
  }

  function WithCr(parts: seq<string>): seq<string> {
    if |parts| <= 1 then parts else [parts[0] + ['\r']] + WithCr(parts[1..])
  }

  lemma {:induction false} WithCrAt(parts: seq<string>)
    ensures |WithCr(parts)| == |parts|
    ensures forall i :: 0 <= i < |parts| - 1 ==> WithCr(parts)[i] == parts[i] + ['\r']
    ensures parts != [] ==> WithCr(parts)[|parts| - 1] == parts[|parts| - 1]
    decreases parts
  {
    if |parts| > 1 {
      WithCrAt(parts[1..]);
    }
  }

  lemma {:induction false} SplitCrlf(text: string)
    ensures Split(ToCrlf(text), '\n') == WithCr(Split(text, '\n'))
    decreases text
  {
    if text != [] {
      var rest := Split(text[1..], '\n');
      SplitCrlf(text[1..]);
      WithCrAt(rest);
      if text[0] == '\n' {
        assert ToCrlf(text) == ['\r'] + ['\n'] + ToCrlf(text[1..]);
        SplitFirst(['\r'], ToCrlf(text[1..]), '\n');
        assert ([""] + rest)[1..] == rest;
        assert Split(text, '\n') == [""] + rest;
        assert "" + ['\r'] == ['\r'];
        assert WithCr([""] + rest) == [['\r']] + WithCr(rest);
        assert Split(ToCrlf(text), '\n') == [['\r']] + WithCr(rest);
      } else {
        assert ToCrlf(text)[1..] == ToCrlf(text[1..]);
        var first := [text[0]] + rest[0];
        assert ([first] + rest[1..])[1..] == rest[1..];
        if |rest| > 1 {
          assert WithCr([first] + rest[1..]) == [first + ['\r']] + WithCr(rest[1..]);
          assert [text[0]] + (rest[0] + ['\r']) == first + ['\r'];
        }
      }
    }
  }

  lemma {:induction false} StripAllAt(parts: seq<string>)
    ensures |StripAll(parts)| == |parts| && forall i :: 0 <= i < |parts| ==> StripAll(parts)[i] == StripCr(parts[i])
    decreases parts
  {
    if parts != [] {
      StripAllAt(parts[1..]);
    }
  }

  lemma StripClassifies(raw: string)
    ensures Classify(StripCr(raw)) == Classify(raw) && Classify(raw + ['\r']) == Classify(raw)
  {
    hide Trim, ClassifyContent, Classify;
    var s := StripCr(raw);
    if s != raw {
      assert raw == [] + s + ['\r'];
      PaddingIgnored([], s, ['\r']);
    }
    assert [] + raw + ['\r'] == raw + ['\r'];
    PaddingIgnored([], raw, ['\r']);
  }

  /** Without a final empty piece. */
  function Cut(parts: seq<string>): seq<string>
    requires parts != []
  {
    if parts[|parts| - 1] == [] then parts[..|parts| - 1] else parts
  }

  /** The pieces between newlines, without a final empty one. */
  function Pieces(text: string): seq<string> {
    Cut(Split(text, '\n'))
  }

  lemma ClassifyPieces(text: string)
    ensures ClassifyAll(Lines(text)) == ClassifyAll(Pieces(text))
  {
    hide Split, Classify, StripCr;
    var pieces := Pieces(text);
    StripAllAt(pieces);
    ClassifyAllAt(Lines(text));
    ClassifyAllAt(pieces);
    forall i | 0 <= i < |pieces| ensures Classify(Lines(text)[i]) == Classify(pieces[i]) {
      StripClassifies(pieces[i]);
    }
  }

  lemma CutWithCr(parts: seq<string>)
    requires parts != []
    ensures WithCr(parts) != [] && |Cut(WithCr(parts))| == |Cut(parts)|
    ensures forall i :: 0 <= i < |Cut(parts)| ==> Cut(WithCr(parts))[i] in [Cut(parts)[i], Cut(parts)[i] + ['\r']]
  {
    hide WithCr;
    WithCrAt(parts);
  }

  lemma CrlfReadsAlike(parts: seq<string>)
    requires parts != []
    ensures WithCr(parts) != [] && ClassifyAll(Cut(WithCr(parts))) == ClassifyAll(Cut(parts))
  {
    hide WithCr, Cut, Classify, ClassifyAll;
    CutWithCr(parts);
    var a, b := Cut(parts), Cut(WithCr(parts));
    ClassifyAllAt(a);
    ClassifyAllAt(b);
    forall i | 0 <= i < |a| ensures Classify(b[i]) == Classify(a[i]) {
      StripClassifies(a[i]);
    }
  }

  /** CRLF line endings make no difference to a file, whatever else is in it. */
  lemma CrlfIgnored(text: string)
    ensures Meaning(ClassifyAll(Lines(ToCrlf(text)))) == Meaning(ClassifyAll(Lines(text)))
  {
    hide Split, Cut, WithCr, ClassifyAll, Meaning, Lines, ToCrlf;
    ClassifyPieces(text);
    ClassifyPieces(ToCrlf(text));
    SplitCrlf(text);
    CrlfReadsAlike(Split(text, '\n'));
  }
}
