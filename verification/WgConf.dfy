/** The wg-quick parser: a line-by-line state machine, proved against a declarative reading of the file. */
module WgConf {
  import opened Basics
  import opened Text

  const U16: nat := 0x1_0000
  const U32: nat := 0x1_0000_0000

  datatype ParsedConfig = ParsedConfig(
    privateKey: string,
    addresses: seq<string>,
    dns: seq<string>,
    listenPort: Option<u16>,
    mtu: Option<u32>,
    publicKey: string,
    endpoint: string,
    allowedIps: seq<string>,
    presharedKey: Option<string>,
    keepalive: Option<u16>)

  datatype Section = Interface | Peer

  datatype ParseError =
    | MultipleInterfaces
    | UnknownSection
    | NotAPair
    | BeforeAnySection
    | Duplicate
    | NotANumber
    | MissingInterface
    | MissingPeer
    | TooManyPeers
    | MissingPrivateKey
    | MissingAddress
    | MissingPublicKey
    | MissingEndpoint

  // --- lines -------------------------------------------------------------------

  function StripCr(s: string): string {
    if s != [] && s[|s| - 1] == '\r' then s[..|s| - 1] else s
  }

  function StripAll(lines: seq<string>): seq<string> {
    if lines == [] then [] else [StripCr(lines[0])] + StripAll(lines[1..])
  }

  /** `str::lines`: pieces between newlines, without a final empty piece, each without a trailing CR. */
  function Lines(text: string): seq<string> {
    var parts := Split(text, '\n');
    StripAll(if parts[|parts| - 1] == [] then parts[..|parts| - 1] else parts)
  }

  /** Everything before the first `c`. */
  function Before(s: string, c: char): string {
    if s == [] || s[0] == c then [] else [s[0]] + Before(s[1..], c)
  }

  /** A line without its comment and its surrounding white space. */
  function Content(raw: string): string {
    Trim(Before(StripCr(raw), '#'))
  }

  /** The keys the parser knows; any other is accepted and ignored. */
  datatype Key =
    | PrivateKey
    | Address
    | Dns
    | ListenPort
    | Mtu
    | PublicKey
    | Endpoint
    | AllowedIps
    | PresharedKey
    | Keepalive
    | OtherKey

  /** A key in lower case. */
  function KeyOf(name: string): Key {
    if name == "privatekey" then PrivateKey
    else if name == "address" then Address
    else if name == "dns" then Dns
    else if name == "listenport" then ListenPort
    else if name == "mtu" then Mtu
    else if name == "publickey" then PublicKey
    else if name == "endpoint" then Endpoint
    else if name == "allowedips" then AllowedIps
    else if name == "presharedkey" then PresharedKey
    else if name == "persistentkeepalive" then Keepalive
    else OtherKey
  }

  /** A line as the parser understands it. */
  datatype Line =
    | Skip
    | Header(section: Section)
    | BadHeader
    | Junk
    | Pair(key: Key, value: string)

  predicate Bracketed(s: string) {
    |s| >= 2 && s[0] == '[' && s[|s| - 1] == ']'
  }

  function ClassifyContent(content: string): Line {
    if content == [] then Skip
    else if Bracketed(content) then
      var inner := Lower(Trim(content[1..|content| - 1]));
      if inner == "interface" then Header(Interface)
      else if inner == "peer" then Header(Peer)
      else BadHeader
    else if '=' in content then
      var key := Before(content, '=');
      BeforeLength(content, '=');
      Pair(KeyOf(Lower(Trim(key))), Trim(content[|key| + 1..]))
    else Junk
  }

  function Classify(raw: string): Line {
    ClassifyContent(Content(raw))
  }

  lemma BeforeLength(s: string, c: char)
    ensures |Before(s, c)| <= |s|
    ensures c in s ==> |Before(s, c)| < |s| && s[|Before(s, c)|] == c && s[..|Before(s, c)|] == Before(s, c)
    ensures c !in s ==> Before(s, c) == s
  {
    if s != [] && s[0] != c {
      BeforeLength(s[1..], c);
      if c in s {
        assert c in s[1..];
      }
    }
  }

  function ClassifyAll(lines: seq<string>): seq<Line> {
    if lines == [] then [] else [Classify(lines[0])] + ClassifyAll(lines[1..])
  }

  // --- the declarative reading -------------------------------------------------

  /** The section in force after `lines`, when `start` was in force before. */
  function SectionAfter(start: Option<Section>, lines: seq<Line>): Option<Section>
    decreases lines
  {
    if lines == [] then start
    else SectionAfter(if lines[0].Header? then Some(lines[0].section) else start, lines[1..])
  }

  /** The values given to `key` in `section`, in file order. */
  function ValuesFrom(start: Option<Section>, lines: seq<Line>, section: Section, key: Key): seq<string>
    decreases lines
  {
    if lines == [] then []
    else
      match lines[0]
      case Header(s) => ValuesFrom(Some(s), lines[1..], section, key)
      case Pair(k, v) =>
        (if start == Some(section) && k == key then [v] else []) + ValuesFrom(start, lines[1..], section, key)
      case _ => ValuesFrom(start, lines[1..], section, key)
  }

  function Count(lines: seq<Line>, section: Section): nat {
    if lines == [] then 0 else (if lines[0] == Header(section) then 1 else 0) + Count(lines[1..], section)
  }

  /** No malformed line, and no pair before the first header. */
  predicate CleanFrom(start: Option<Section>, lines: seq<Line>)
    decreases lines
  {
    lines == [] ||
    match lines[0]
    case Header(s) => CleanFrom(Some(s), lines[1..])
    case Pair(_, _) => start.Some? && CleanFrom(start, lines[1..])
    case Skip => CleanFrom(start, lines[1..])
    case _ => false
  }

  predicate Numbers(values: seq<string>, limit: nat) {
    forall v :: v in values ==> ParseNum(v, limit).Some?
  }

  /** Every value of every key the parser knows, each from its own section. */
  datatype Readings = Readings(
    privateKeys: seq<string>,
    addresses: seq<string>,
    dns: seq<string>,
    listenPorts: seq<string>,
    mtus: seq<string>,
    publicKeys: seq<string>,
    endpoints: seq<string>,
    allowedIps: seq<string>,
    presharedKeys: seq<string>,
    keepalives: seq<string>)

  function ReadFrom(start: Option<Section>, lines: seq<Line>): Readings {
    Readings(
      ValuesFrom(start, lines, Interface, PrivateKey),
      ValuesFrom(start, lines, Interface, Address),
      ValuesFrom(start, lines, Interface, Dns),
      ValuesFrom(start, lines, Interface, ListenPort),
      ValuesFrom(start, lines, Interface, Mtu),
      ValuesFrom(start, lines, Peer, PublicKey),
      ValuesFrom(start, lines, Peer, Endpoint),
      ValuesFrom(start, lines, Peer, AllowedIps),
      ValuesFrom(start, lines, Peer, PresharedKey),
      ValuesFrom(start, lines, Peer, Keepalive))
  }

  function Read(lines: seq<Line>): Readings {
    ReadFrom(None, lines)
  }

  /** No scalar given twice, every number in range. */
  predicate Sound(v: Readings) {
    && |v.privateKeys| <= 1
    && |v.publicKeys| <= 1
    && |v.endpoints| <= 1
    && |v.presharedKeys| <= 1
    && Numbers(v.listenPorts, U16)
    && Numbers(v.mtus, U32)
    && Numbers(v.keepalives, U16)
  }

  /** Nothing so far rules the file out. */
  predicate Acceptable(lines: seq<Line>) {
    && CleanFrom(None, lines)
    && Count(lines, Interface) <= 1
    && Count(lines, Peer) <= 1
    && Sound(Read(lines))
  }

  /** The required keys are there. */
  predicate Complete(v: Readings) {
    && v.privateKeys != []
    && CsvAll(v.addresses) != []
    && v.publicKeys != []
    && v.endpoints != []
  }

  /** A file the parser accepts: one interface, one peer, no repeated scalar, the required keys, numbers in range. */
  predicate Grammar(lines: seq<Line>) {
    && Acceptable(lines)
    && Count(lines, Interface) == 1
    && Count(lines, Peer) == 1
    && Complete(Read(lines))
  }

  /** The list a key that may be repeated adds up to. */
  function CsvAll(values: seq<string>): seq<string> {
    if values == [] then [] else Csv(values[0]) + CsvAll(values[1..])
  }

  function Single(values: seq<string>): Option<string> {
    if values == [] then None else Some(values[0])
  }

  /** A number that is given again is replaced. */
  function LastNumber(values: seq<string>, limit: nat): (r: Option<nat>)
    ensures r.Some? ==> r.value < limit
  {
    if values == [] then None else ParseNum(values[|values| - 1], limit)
  }

  function Number16(values: seq<string>): Option<u16> {
    LastNumber(values, U16)
  }

  function Number32(values: seq<string>): Option<u32> {
    LastNumber(values, U32)
  }

  function AllowedOr(values: seq<string>): seq<string> {
    var allowed := CsvAll(values);
    if allowed == [] then ["0.0.0.0/0"] else allowed
  }

  /** Lists concatenate, scalars stand, a repeated number counts last, no AllowedIPs means all of them. */
  function FieldsOf(v: Readings): ParsedConfig
    requires v.privateKeys != [] && v.publicKeys != [] && v.endpoints != []
  {
    ParsedConfig(v.privateKeys[0], CsvAll(v.addresses), CsvAll(v.dns), Number16(v.listenPorts), Number32(v.mtus),
                 v.publicKeys[0], v.endpoints[0], AllowedOr(v.allowedIps), Single(v.presharedKeys),
                 Number16(v.keepalives))
  }

  /** What a sequence of lines means, if anything. */
  function Meaning(lines: seq<Line>): Option<ParsedConfig> {
    if Grammar(lines) then Some(FieldsOf(Read(lines))) else None
  }

  // --- the parser --------------------------------------------------------------

  /** What the parser puts in for missing AllowedIPs. */
  const DEFAULT_ALLOWED_IPS: seq<string> := ["0.0.0.0/0"]

  datatype Iface = Iface(
    privateKey: Option<string>,
    addresses: seq<string>,
    dns: seq<string>,
    listenPort: Option<u16>,
    mtu: Option<u32>)

  datatype PeerAcc = PeerAcc(
    publicKey: Option<string>,
    endpoint: Option<string>,
    allowedIps: seq<string>,
    presharedKey: Option<string>,
    keepalive: Option<u16>)

  const EMPTY_IFACE := Iface(None, [], [], None, None)
  const EMPTY_PEER := PeerAcc(None, None, [], None, None)

  function SetScalar(slot: Option<string>, value: string): Result<Option<string>, ParseError> {
    if slot.Some? then Err(Duplicate) else Ok(Some(value))
  }

  function SetIface(i: Iface, key: Key, value: string): Result<Iface, ParseError> {
    if key == PrivateKey then
      match SetScalar(i.privateKey, value)
      case Err(e) => Err(e)
      case Ok(slot) => Ok(i.(privateKey := slot))
    else if key == Address then Ok(i.(addresses := i.addresses + Csv(value)))
    else if key == Dns then Ok(i.(dns := i.dns + Csv(value)))
    else if key == ListenPort then
      var n := ParseNum(value, U16);
      if n.None? then Err(NotANumber) else Ok(i.(listenPort := n))
    else if key == Mtu then
      var n := ParseNum(value, U32);
      if n.None? then Err(NotANumber) else Ok(i.(mtu := n))
    else Ok(i)
  }

  function SetPeer(p: PeerAcc, key: Key, value: string): Result<PeerAcc, ParseError> {
    if key == PublicKey then
      match SetScalar(p.publicKey, value)
      case Err(e) => Err(e)
      case Ok(slot) => Ok(p.(publicKey := slot))
    else if key == Endpoint then
      match SetScalar(p.endpoint, value)
      case Err(e) => Err(e)
      case Ok(slot) => Ok(p.(endpoint := slot))
    else if key == AllowedIps then Ok(p.(allowedIps := p.allowedIps + Csv(value)))
    else if key == PresharedKey then
      match SetScalar(p.presharedKey, value)
      case Err(e) => Err(e)
      case Ok(slot) => Ok(p.(presharedKey := slot))
    else if key == Keepalive then
      var n := ParseNum(value, U16);
      if n.None? then Err(NotANumber) else Ok(p.(keepalive := n))
    else Ok(p)
  }

  // --- appending lines ---------------------------------------------------------

  lemma {:induction false} SectionAfterAppend(start: Option<Section>, a: seq<Line>, b: seq<Line>)
    ensures SectionAfter(start, a + b) == SectionAfter(SectionAfter(start, a), b)
    decreases a
  {
    if a == [] {
      assert a + b == b;
    } else {
      assert (a + b)[1..] == a[1..] + b;
      SectionAfterAppend(if a[0].Header? then Some(a[0].section) else start, a[1..], b);
    }
  }

  /** What the first line contributes, and where it leads. */
  function FirstValue(start: Option<Section>, line: Line, section: Section, key: Key): seq<string> {
    if line.Pair? && start == Some(section) && line.key == key then [line.value] else []
  }

  function Entered(start: Option<Section>, line: Line): Option<Section> {
    if line.Header? then Some(line.section) else start
  }

  lemma ValuesStep(start: Option<Section>, lines: seq<Line>, section: Section, key: Key)
    requires lines != []
    ensures ValuesFrom(start, lines, section, key) ==
            FirstValue(start, lines[0], section, key) + ValuesFrom(Entered(start, lines[0]), lines[1..], section, key)
    ensures SectionAfter(start, lines) == SectionAfter(Entered(start, lines[0]), lines[1..])
  {
  }

  lemma {:induction false} ValuesAppend(start: Option<Section>, a: seq<Line>, b: seq<Line>, section: Section, key: Key)
    ensures ValuesFrom(start, a + b, section, key) ==
            ValuesFrom(start, a, section, key) + ValuesFrom(SectionAfter(start, a), b, section, key)
    decreases a
  {
    if a == [] {
      assert a + b == b;
    } else {
      hide ValuesFrom, SectionAfter, FirstValue;
      assert (a + b)[0] == a[0] && (a + b)[1..] == a[1..] + b;
      ValuesStep(start, a, section, key);
      ValuesStep(start, a + b, section, key);
      ValuesAppend(Entered(start, a[0]), a[1..], b, section, key);
    }
  }

  lemma {:induction false} CountAppend(a: seq<Line>, b: seq<Line>, section: Section)
    ensures Count(a + b, section) == Count(a, section) + Count(b, section)
    decreases a
  {
    if a == [] {
      assert a + b == b;
    } else {
      assert (a + b)[1..] == a[1..] + b;
      CountAppend(a[1..], b, section);
    }
  }

  lemma {:induction false} CleanAppend(start: Option<Section>, a: seq<Line>, b: seq<Line>)
    ensures CleanFrom(start, a + b) <==> CleanFrom(start, a) && CleanFrom(SectionAfter(start, a), b)
    decreases a
  {
    if a == [] {
      assert a + b == b;
    } else {
      assert (a + b)[1..] == a[1..] + b;
      CleanAppend(if a[0].Header? then Some(a[0].section) else start, a[1..], b);
    }
  }

  lemma {:induction false} CsvAllAppend(a: seq<string>, b: seq<string>)
    ensures CsvAll(a + b) == CsvAll(a) + CsvAll(b)
    decreases a
  {
    hide Csv;
    if a == [] {
      assert a + b == b;
    } else {
      assert (a + b)[1..] == a[1..] + b;
      CsvAllAppend(a[1..], b);
    }
  }

  lemma NumbersAppend(a: seq<string>, b: seq<string>, limit: nat)
    ensures Numbers(a + b, limit) <==> Numbers(a, limit) && Numbers(b, limit)
  {
    hide ParseNum;
    assert forall v :: v in a + b <==> v in a || v in b;
  }

  /** Readings of one file after those of another. */
  function Concat(v: Readings, u: Readings): Readings {
    Readings(v.privateKeys + u.privateKeys, v.addresses + u.addresses, v.dns + u.dns, v.listenPorts + u.listenPorts,
             v.mtus + u.mtus, v.publicKeys + u.publicKeys, v.endpoints + u.endpoints, v.allowedIps + u.allowedIps,
             v.presharedKeys + u.presharedKeys, v.keepalives + u.keepalives)
  }

  lemma ReadAppend(start: Option<Section>, a: seq<Line>, b: seq<Line>)
    ensures ReadFrom(start, a + b) == Concat(ReadFrom(start, a), ReadFrom(SectionAfter(start, a), b))
  {
    hide ValuesFrom, SectionAfter;
    ValuesAppend(start, a, b, Interface, PrivateKey);
    ValuesAppend(start, a, b, Interface, Address);
    ValuesAppend(start, a, b, Interface, Dns);
    ValuesAppend(start, a, b, Interface, ListenPort);
    ValuesAppend(start, a, b, Interface, Mtu);
    ValuesAppend(start, a, b, Peer, PublicKey);
    ValuesAppend(start, a, b, Peer, Endpoint);
    ValuesAppend(start, a, b, Peer, AllowedIps);
    ValuesAppend(start, a, b, Peer, PresharedKey);
    ValuesAppend(start, a, b, Peer, Keepalive);
  }

  lemma SoundPrefix(v: Readings, u: Readings)
    requires Sound(Concat(v, u))
    ensures Sound(v)
  {
    hide ParseNum, Numbers;
    NumbersAppend(v.listenPorts, u.listenPorts, U16);
    NumbersAppend(v.mtus, u.mtus, U32);
    NumbersAppend(v.keepalives, u.keepalives, U16);
  }

  /** A file that is ruled out stays ruled out, whatever follows. */
  lemma AcceptablePrefix(a: seq<Line>, b: seq<Line>)
    requires Acceptable(a + b)
    ensures Acceptable(a)
  {
    hide ReadFrom, Sound;
    CleanAppend(None, a, b);
    CountAppend(a, b, Interface);
    CountAppend(a, b, Peer);
    ReadAppend(None, a, b);
    SoundPrefix(ReadFrom(None, a), ReadFrom(SectionAfter(None, a), b));
  }

  /** One pair, read in the section it stands in. */
  function OneIf(yes: bool, value: string): seq<string> {
    if yes then [value] else []
  }

  function ReadPair(section: Option<Section>, line: Line): Readings {
    var i := line.Pair? && section == Some(Interface);
    var p := line.Pair? && section == Some(Peer);
    var key := if line.Pair? then line.key else OtherKey;
    var value := if line.Pair? then line.value else "";
    Readings(OneIf(i && key == PrivateKey, value), OneIf(i && key == Address, value), OneIf(i && key == Dns, value),
             OneIf(i && key == ListenPort, value), OneIf(i && key == Mtu, value),
             OneIf(p && key == PublicKey, value), OneIf(p && key == Endpoint, value),
             OneIf(p && key == AllowedIps, value), OneIf(p && key == PresharedKey, value),
             OneIf(p && key == Keepalive, value))
  }

  lemma ValuesOneLine(start: Option<Section>, line: Line, section: Section, key: Key)
    ensures ValuesFrom(start, [line], section, key) ==
            OneIf(line.Pair? && start == Some(section) && line.key == key, if line.Pair? then line.value else "")
  {
    assert [line][1..] == [];
    match line
    case Header(h) => assert ValuesFrom(start, [line], section, key) == ValuesFrom(Some(h), [], section, key);
    case Pair(k, v) =>
      assert ValuesFrom(start, [line], section, key) ==
             OneIf(start == Some(section) && k == key, v) + ValuesFrom(start, [], section, key);
    case _ => assert ValuesFrom(start, [line], section, key) == ValuesFrom(start, [], section, key);
  }

  lemma ReadOneLine(section: Option<Section>, line: Line)
    ensures ReadFrom(section, [line]) == ReadPair(section, line)
  {
    hide ValuesFrom;
    forall s, k ensures ValuesFrom(section, [line], s, k) ==
                        OneIf(line.Pair? && section == Some(s) && line.key == k, if line.Pair? then line.value else "")
    {
      ValuesOneLine(section, line, s, k);
    }
  }

  /** One more line adds its pair, if it is one, to the readings of its section. */
  lemma LineSnoc(p: seq<Line>, line: Line)
    ensures SectionAfter(None, p + [line]) == if line.Header? then Some(line.section) else SectionAfter(None, p)
    ensures Count(p + [line], Interface) == Count(p, Interface) + if line == Header(Interface) then 1 else 0
    ensures Count(p + [line], Peer) == Count(p, Peer) + if line == Header(Peer) then 1 else 0
    ensures CleanFrom(None, p + [line]) <==>
            && CleanFrom(None, p) && !line.BadHeader? && !line.Junk?
            && (line.Pair? ==> SectionAfter(None, p).Some?)
    ensures Read(p + [line]) == Concat(Read(p), ReadPair(SectionAfter(None, p), line))
  {
    hide ValuesFrom, ReadPair;
    SectionAfterAppend(None, p, [line]);
    CountAppend(p, [line], Interface);
    CountAppend(p, [line], Peer);
    CleanAppend(None, p, [line]);
    ReadAppend(None, p, [line]);
    ReadOneLine(SectionAfter(None, p), line);
    assert [line][1..] == [];
  }

  lemma ConcatNothing(v: Readings, section: Option<Section>, line: Line)
    requires !line.Pair? || section.None?
    ensures Concat(v, ReadPair(section, line)) == v
  {
  }

  // --- the parser's invariant --------------------------------------------------

  predicate IfaceMatches(i: Iface, v: Readings) {
    && i.privateKey == Single(v.privateKeys)
    && i.addresses == CsvAll(v.addresses)
    && i.dns == CsvAll(v.dns)
    && i.listenPort == LastNumber(v.listenPorts, U16)
    && i.mtu == LastNumber(v.mtus, U32)
  }

  predicate PeerMatches(a: PeerAcc, v: Readings) {
    && a.publicKey == Single(v.publicKeys)
    && a.endpoint == Single(v.endpoints)
    && a.allowedIps == CsvAll(v.allowedIps)
    && a.presharedKey == Single(v.presharedKeys)
    && a.keepalive == LastNumber(v.keepalives, U16)
  }

  function IfaceOr(iface: Option<Iface>): Iface {
    if iface.Some? then iface.value else EMPTY_IFACE
  }

  function PeerOr(peers: seq<PeerAcc>): PeerAcc {
    if peers == [] then EMPTY_PEER else peers[|peers| - 1]
  }

  /** The parser's variables after the lines `p`. A second peer dooms the file, so from there on only the
      section structure is tracked. */
  predicate Tracks(p: seq<Line>, iface: Option<Iface>, peers: seq<PeerAcc>, section: Option<Section>) {
    && section == SectionAfter(None, p)
    && |peers| == Count(p, Peer)
    && Count(p, Interface) == (if iface.Some? then 1 else 0)
    && (section == Some(Interface) ==> iface.Some?)
    && (section == Some(Peer) ==> peers != [])
    && (|peers| <= 1 ==> Acceptable(p) && IfaceMatches(IfaceOr(iface), Read(p)) && PeerMatches(PeerOr(peers), Read(p)))
  }

  lemma TracksNothing()
    ensures Tracks([], None, [], None)
  {
    hide ParseNum, Csv;
  }

  lemma TracksSkip(p: seq<Line>, iface: Option<Iface>, peers: seq<PeerAcc>, section: Option<Section>)
    requires Tracks(p, iface, peers, section)
    ensures Tracks(p + [Skip], iface, peers, section)
  {
    hide Read, Sound, IfaceMatches, PeerMatches, ReadPair, Concat;
    LineSnoc(p, Skip);
    ConcatNothing(Read(p), section, Skip);
  }

  lemma TracksHeader(p: seq<Line>, iface: Option<Iface>, peers: seq<PeerAcc>, section: Option<Section>, s: Section)
    requires Tracks(p, iface, peers, section)
    ensures s == Interface && iface.Some? ==> !Acceptable(p + [Header(s)])
    ensures s == Interface && iface.None? ==> Tracks(p + [Header(s)], Some(EMPTY_IFACE), peers, Some(s))
    ensures s == Peer ==> Tracks(p + [Header(s)], iface, peers + [EMPTY_PEER], Some(s))
  {
    hide Read, Sound, IfaceMatches, PeerMatches, ReadPair, Concat;
    LineSnoc(p, Header(s));
    ConcatNothing(Read(p), section, Header(s));
  }

  lemma TracksBad(p: seq<Line>, iface: Option<Iface>, peers: seq<PeerAcc>, section: Option<Section>, line: Line)
    requires Tracks(p, iface, peers, section)
    requires line.BadHeader? || line.Junk? || (line.Pair? && section.None?)
    ensures !Acceptable(p + [line])
  {
    hide Read, Sound, ReadPair, Concat;
    LineSnoc(p, line);
  }

  lemma SingleSnoc(vs: seq<string>, v: string)
    requires |vs| <= 1
    ensures Single(vs + [v]) == if vs == [] then Some(v) else Single(vs)
  {
  }

  lemma NumberSnoc(vs: seq<string>, v: string, limit: nat)
    ensures LastNumber(vs + [v], limit) == ParseNum(v, limit)
    ensures Numbers(vs + [v], limit) <==> Numbers(vs, limit) && ParseNum(v, limit).Some?
  {
    hide ParseNum;
    NumbersAppend(vs, [v], limit);
    assert v in [v];
  }

  lemma CsvSnoc(vs: seq<string>, v: string)
    ensures CsvAll(vs + [v]) == CsvAll(vs) + Csv(v)
  {
    hide Csv;
    CsvAllAppend(vs, [v]);
    assert [v][1..] == [];
    assert CsvAll([v]) == Csv(v) + [];
  }

  /** A pair of the interface section: an error rules the file out, otherwise the accumulator follows the readings. */
  lemma IfacePair(v: Readings, i: Iface, key: Key, value: string)
    requires Sound(v) && IfaceMatches(i, v)
    ensures var v' := Concat(v, ReadPair(Some(Interface), Pair(key, value)));
            var next := SetIface(i, key, value);
            && (next.Err? ==> !Sound(v'))
            && (next.Ok? ==> Sound(v') && IfaceMatches(next.value, v'))
            && forall a :: PeerMatches(a, v) ==> PeerMatches(a, v')
  {
    hide ParseNum, Csv, Numbers, CsvAll, LastNumber;
    SingleSnoc(v.privateKeys, value);
    CsvSnoc(v.addresses, value);
    CsvSnoc(v.dns, value);
    NumberSnoc(v.listenPorts, value, U16);
    NumberSnoc(v.mtus, value, U32);
    AppendNothing(v);
  }

  lemma PeerPair(v: Readings, a: PeerAcc, key: Key, value: string)
    requires Sound(v) && PeerMatches(a, v)
    ensures var v' := Concat(v, ReadPair(Some(Peer), Pair(key, value)));
            var next := SetPeer(a, key, value);
            && (next.Err? ==> !Sound(v'))
            && (next.Ok? ==> Sound(v') && PeerMatches(next.value, v'))
            && forall i :: IfaceMatches(i, v) ==> IfaceMatches(i, v')
  {
    hide ParseNum, Csv, Numbers, CsvAll, LastNumber;
    SingleSnoc(v.publicKeys, value);
    SingleSnoc(v.endpoints, value);
    SingleSnoc(v.presharedKeys, value);
    CsvSnoc(v.allowedIps, value);
    NumberSnoc(v.keepalives, value, U16);
    AppendNothing(v);
  }

  lemma AppendNothing(v: Readings)
    ensures v.privateKeys + [] == v.privateKeys && v.addresses + [] == v.addresses && v.dns + [] == v.dns
    ensures v.listenPorts + [] == v.listenPorts && v.mtus + [] == v.mtus && v.publicKeys + [] == v.publicKeys
    ensures v.endpoints + [] == v.endpoints && v.allowedIps + [] == v.allowedIps
    ensures v.presharedKeys + [] == v.presharedKeys && v.keepalives + [] == v.keepalives
  {
  }

  lemma TracksIfacePair(p: seq<Line>, iface: Option<Iface>, peers: seq<PeerAcc>, section: Option<Section>, key: Key,
                        value: string)
    requires Tracks(p, iface, peers, section) && section == Some(Interface)
    ensures var p' := p + [Pair(key, value)];
            var next := SetIface(iface.value, key, value);
            && (next.Err? ==> !Acceptable(p'))
            && (next.Ok? ==> Tracks(p', Some(next.value), peers, section))
  {
    hide Read, Sound, IfaceMatches, PeerMatches, ReadPair, Concat, SetIface;
    LineSnoc(p, Pair(key, value));
    if |peers| <= 1 {
      IfacePair(Read(p), iface.value, key, value);
    }
  }

  lemma TracksPeerPair(p: seq<Line>, iface: Option<Iface>, peers: seq<PeerAcc>, section: Option<Section>, key: Key,
                       value: string)
    requires Tracks(p, iface, peers, section) && section == Some(Peer)
    ensures var p' := p + [Pair(key, value)];
            var next := SetPeer(peers[|peers| - 1], key, value);
            && (next.Err? ==> !Acceptable(p'))
            && (next.Ok? ==> Tracks(p', iface, peers[|peers| - 1 := next.value], section))
  {
    hide Read, Sound, IfaceMatches, PeerMatches, ReadPair, Concat, SetPeer;
    LineSnoc(p, Pair(key, value));
    if |peers| <= 1 {
      PeerPair(Read(p), peers[|peers| - 1], key, value);
    }
  }

  lemma {:induction false} ClassifyAllAt(lines: seq<string>)
    ensures |ClassifyAll(lines)| == |lines|
            && forall i :: 0 <= i < |lines| ==> ClassifyAll(lines)[i] == Classify(lines[i])
    decreases lines
  {
    hide Classify;
    if lines != [] {
      ClassifyAllAt(lines[1..]);
    }
  }

  /** An error at line `i` is an error of the file. */
  lemma ErrorIsFinal(all: seq<Line>, i: nat)
    requires i < |all| && !Acceptable(all[..i + 1])
    ensures Meaning(all).None?
  {
    if Acceptable(all) {
      assert all == all[..i + 1] + all[i + 1..];
      AcceptablePrefix(all[..i + 1], all[i + 1..]);
    }
  }


  // --- what an error means -------------------------------------------------------

  /** The keys a section takes at most once, and the bound of those that take a number. */
  predicate Scalar(section: Section, key: Key) {
    match section
    case Interface => key == PrivateKey
    case Peer => key == PublicKey || key == Endpoint || key == PresharedKey
  }

  function NumberLimit(section: Section, key: Key): Option<nat> {
    match section
    case Interface => if key == ListenPort then Some(U16) else if key == Mtu then Some(U32) else None
    case Peer => if key == Keepalive then Some(U16) else None
  }

  /** The key was given since the last header. */
  predicate Given(lines: seq<Line>, key: Key)
    decreases lines
  {
    if lines == [] then false
    else
      var last := lines[|lines| - 1];
      !last.Header? && ((last.Pair? && last.key == key) || Given(lines[..|lines| - 1], key))
  }

  /** Line `k` is what the error is about. */
  predicate ExplainsAt(e: ParseError, lines: seq<Line>, k: nat)
    requires k < |lines|
  {
    var line := lines[k];
    var section := SectionAfter(None, lines[..k]);
    match e
    case MultipleInterfaces => line == Header(Interface) && Count(lines[..k], Interface) > 0
    case UnknownSection => line.BadHeader?
    case NotAPair => line.Junk?
    case BeforeAnySection => line.Pair? && section.None?
    case Duplicate => line.Pair? && section.Some? && Scalar(section.value, line.key) && Given(lines[..k], line.key)
    case NotANumber =>
      && line.Pair? && section.Some? && NumberLimit(section.value, line.key).Some?
      && ParseNum(line.value, NumberLimit(section.value, line.key).value).None?
    case _ => false
  }

  /** Either some line is to blame, or what is missing is missing from the whole file. */
  predicate Explains(e: ParseError, lines: seq<Line>) {
    match e
    case MissingInterface => Count(lines, Interface) == 0
    case MissingPeer => Count(lines, Peer) == 0
    case TooManyPeers => Count(lines, Peer) > 1
    case MissingPrivateKey => Read(lines).privateKeys == []
    case MissingAddress => CsvAll(Read(lines).addresses) == []
    case MissingPublicKey => Read(lines).publicKeys == []
    case MissingEndpoint => Read(lines).endpoints == []
    case _ => exists k :: 0 <= k < |lines| && ExplainsAt(e, lines, k)
  }

  lemma ExplainedBy(e: ParseError, lines: seq<Line>, k: nat)
    requires k < |lines| && ExplainsAt(e, lines, k)
    ensures Explains(e, lines)
  {
    hide SectionAfter, Given, Count, ParseNum;
  }

  lemma GivenSnoc(p: seq<Line>, line: Line, key: Key)
    ensures Given(p + [line], key) <==> !line.Header? && ((line.Pair? && line.key == key) || Given(p, key))
  {
    assert (p + [line])[..|p|] == p;
  }

  /** A scalar's slot is filled exactly when its key was given in the section being read. */
  predicate Slots(p: seq<Line>, iface: Option<Iface>, peers: seq<PeerAcc>, section: Option<Section>) {
    && (section == Some(Interface) && iface.Some? ==> (iface.value.privateKey.Some? <==> Given(p, PrivateKey)))
    && (section == Some(Peer) && peers != [] ==>
          var a := peers[|peers| - 1];
          && (a.publicKey.Some? <==> Given(p, PublicKey))
          && (a.endpoint.Some? <==> Given(p, Endpoint))
          && (a.presharedKey.Some? <==> Given(p, PresharedKey)))
  }

  lemma NoSlots()
    ensures Slots([], None, [], None)
  {
  }

  lemma SlotsKept(p: seq<Line>, iface: Option<Iface>, peers: seq<PeerAcc>, section: Option<Section>, line: Line)
    requires Slots(p, iface, peers, section) && line.Skip?
    ensures Slots(p + [line], iface, peers, section)
  {
    hide Given;
    GivenSnoc(p, line, PrivateKey);
    GivenSnoc(p, line, PublicKey);
    GivenSnoc(p, line, Endpoint);
    GivenSnoc(p, line, PresharedKey);
  }

  lemma SlotsFresh(p: seq<Line>, iface: Option<Iface>, peers: seq<PeerAcc>, s: Section)
    requires s == Interface ==> iface == Some(EMPTY_IFACE)
    requires s == Peer ==> peers != [] && peers[|peers| - 1] == EMPTY_PEER
    ensures Slots(p + [Header(s)], iface, peers, Some(s))
  {
  }

  lemma SlotsIface(p: seq<Line>, iface: Iface, peers: seq<PeerAcc>, key: Key, value: string)
    requires Slots(p, Some(iface), peers, Some(Interface))
    ensures var next := SetIface(iface, key, value);
            && (next.Ok? ==> Slots(p + [Pair(key, value)], Some(next.value), peers, Some(Interface)))
            && (next.Err? ==> next.error in {Duplicate, NotANumber})
            && (next.Err? && next.error == Duplicate ==> Scalar(Interface, key) && Given(p, key))
            && (next.Err? && next.error == NotANumber ==>
                  NumberLimit(Interface, key).Some? && ParseNum(value, NumberLimit(Interface, key).value).None?)
  {
    hide Given, ParseNum, Csv;
    GivenSnoc(p, Pair(key, value), PrivateKey);
  }

  lemma SlotsPeer(p: seq<Line>, iface: Option<Iface>, peers: seq<PeerAcc>, key: Key, value: string)
    requires Slots(p, iface, peers, Some(Peer)) && peers != []
    ensures var next := SetPeer(peers[|peers| - 1], key, value);
            && (next.Ok? ==> Slots(p + [Pair(key, value)], iface, peers[|peers| - 1 := next.value], Some(Peer)))
            && (next.Err? ==> next.error in {Duplicate, NotANumber})
            && (next.Err? && next.error == Duplicate ==> Scalar(Peer, key) && Given(p, key))
            && (next.Err? && next.error == NotANumber ==>
                  NumberLimit(Peer, key).Some? && ParseNum(value, NumberLimit(Peer, key).value).None?)
  {
    hide Given, ParseNum, Csv;
    GivenSnoc(p, Pair(key, value), PublicKey);
    GivenSnoc(p, Pair(key, value), Endpoint);
    GivenSnoc(p, Pair(key, value), PresharedKey);
  }

  /** The parser. It succeeds exactly on files with a meaning, and returns that meaning; otherwise its error names
      something that is wrong with the file. */
  method Parse(text: string) returns (r: Result<ParsedConfig, ParseError>)
    ensures r.Ok? <==> Meaning(ClassifyAll(Lines(text))).Some?
    ensures r.Ok? ==> Some(r.value) == Meaning(ClassifyAll(Lines(text)))
    ensures r.Err? ==> Explains(r.error, ClassifyAll(Lines(text)))
  {
    hide Given, Slots, Scalar, NumberLimit, Explains, Meaning, Lines, Classify, Acceptable, IfaceMatches, PeerMatches,
         SetIface, SetPeer, ClassifyAll;
    var lines := Lines(text);
    var iface: Option<Iface> := None;
    var peers: seq<PeerAcc> := [];
    var section: Option<Section> := None;
    ghost var all := ClassifyAll(lines);
    ClassifyAllAt(lines);
    TracksNothing();
    assert Slots([], iface, peers, section) by {
      NoSlots();
    }
    for i := 0 to |lines|
      invariant Tracks(all[..i], iface, peers, section) && Slots(all[..i], iface, peers, section)
    {
      var line := Classify(lines[i]);
      assert all[i] == line && all[..i + 1] == all[..i] + [line];
      if !Acceptable(all[..i] + [line]) {
        ErrorIsFinal(all, i);
      }
      match line {
        case Skip =>
          TracksSkip(all[..i], iface, peers, section);
          SlotsKept(all[..i], iface, peers, section, line);
        case Header(s) =>
          TracksHeader(all[..i], iface, peers, section, s);
          if s == Interface {
            if iface.Some? {
              ExplainedBy(MultipleInterfaces, all, i);
              return Err(MultipleInterfaces);
            }
            iface := Some(EMPTY_IFACE);
          } else {
            peers := peers + [EMPTY_PEER];
          }
          SlotsFresh(all[..i], iface, peers, s);
          section := Some(s);
        case BadHeader =>
          TracksBad(all[..i], iface, peers, section, line);
          ExplainedBy(UnknownSection, all, i);
          return Err(UnknownSection);
        case Junk =>
          TracksBad(all[..i], iface, peers, section, line);
          ExplainedBy(NotAPair, all, i);
          return Err(NotAPair);
        case Pair(key, value) =>
          if section.None? {
            TracksBad(all[..i], iface, peers, section, line);
            ExplainedBy(BeforeAnySection, all, i);
            return Err(BeforeAnySection);
          } else if section.value == Interface {
            TracksIfacePair(all[..i], iface, peers, section, key, value);
            SlotsIface(all[..i], iface.value, peers, key, value);
            var next := SetIface(iface.value, key, value);
            if next.Err? {
              ExplainedBy(next.error, all, i);
              return Err(next.error);
            }
            iface := Some(next.value);
          } else {
            TracksPeerPair(all[..i], iface, peers, section, key, value);
            SlotsPeer(all[..i], iface, peers, key, value);
            var next := SetPeer(peers[|peers| - 1], key, value);
            if next.Err? {
              ExplainedBy(next.error, all, i);
              return Err(next.error);
            }
            peers := peers[|peers| - 1 := next.value];
          }
      }
    }
    assert all[..|lines|] == all;
    r := Assemble(all, iface, peers, section);
  }

  /** What is left once every line is read: the required parts, and the default for a missing AllowedIPs. */
  method Assemble(ghost all: seq<Line>, iface: Option<Iface>, peers: seq<PeerAcc>, ghost section: Option<Section>)
    returns (r: Result<ParsedConfig, ParseError>)
    requires Tracks(all, iface, peers, section)
    ensures r.Ok? <==> Meaning(all).Some?
    ensures r.Ok? ==> Some(r.value) == Meaning(all)
    ensures r.Err? ==> Explains(r.error, all)
  {
    hide Read, CsvAll, LastNumber, CleanFrom, Count, Sound, SectionAfter, ExplainsAt;
    if iface.None? {
      return Err(MissingInterface);
    }
    if peers == [] {
      return Err(MissingPeer);
    }
    if |peers| > 1 {
      return Err(TooManyPeers);
    }
    var i := iface.value;
    var p := peers[0];
    if i.privateKey.None? {
      return Err(MissingPrivateKey);
    }
    if i.addresses == [] {
      return Err(MissingAddress);
    }
    if p.publicKey.None? {
      return Err(MissingPublicKey);
    }
    if p.endpoint.None? {
      return Err(MissingEndpoint);
    }
    var allowed := if p.allowedIps == [] then DEFAULT_ALLOWED_IPS else p.allowedIps;
    r := Ok(ParsedConfig(i.privateKey.value, i.addresses, i.dns, i.listenPort, i.mtu,
                         p.publicKey.value, p.endpoint.value, allowed, p.presharedKey, p.keepalive));
  }

  // --- what comes out ----------------------------------------------------------

  predicate TrimmedValues(lines: seq<Line>) {
    forall l :: l in lines && l.Pair? ==> Trimmed(l.value)
  }

  lemma ClassifyTrims(raw: string)
    ensures Classify(raw).Pair? ==> Trimmed(Classify(raw).value)
  {
    hide Trim, Content, Lower, KeyOf, Trimmed;
    var content := Content(raw);
    if Classify(raw).Pair? {
      BeforeLength(content, '=');
      TrimGivesTrimmed(content[|Before(content, '=')| + 1..]);
    }
  }

  lemma {:induction false} ValuesAreTrimmed(start: Option<Section>, lines: seq<Line>, section: Section, key: Key)
    requires TrimmedValues(lines)
    ensures forall v :: v in ValuesFrom(start, lines, section, key) ==> Trimmed(v)
    decreases lines
  {
    hide Trimmed;
    if lines != [] {
      assert lines[0] in lines;
      ValuesStep(start, lines, section, key);
      ValuesAreTrimmed(Entered(start, lines[0]), lines[1..], section, key);
    }
  }

  /** The scalars that are read have no white space at their ends. */
  lemma ScalarsAreTrimmed(text: string)
    ensures var cfg := Meaning(ClassifyAll(Lines(text)));
            cfg.Some? ==> Trimmed(cfg.value.privateKey) && Trimmed(cfg.value.publicKey) && Trimmed(cfg.value.endpoint)
  {
    hide Classify, Lines, Acceptable, Trimmed, ValuesFrom, CsvAll, LastNumber, Count;
    var lines := ClassifyAll(Lines(text));
    ClassifyAllAt(Lines(text));
    forall l | l in lines && l.Pair? ensures Trimmed(l.value) {
      var i :| 0 <= i < |lines| && lines[i] == l;
      ClassifyTrims(Lines(text)[i]);
    }
    ValuesAreTrimmed(None, lines, Interface, PrivateKey);
    ValuesAreTrimmed(None, lines, Peer, PublicKey);
    ValuesAreTrimmed(None, lines, Peer, Endpoint);
  }
}
