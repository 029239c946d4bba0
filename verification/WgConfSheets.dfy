/** Files in which keys are repeated or left out: what the parser makes of them, and what an import stores. */
module WgConfSheets {
  import opened Basics
  import opened Text
  import opened Config
  import opened Kernel
  import opened Tunnel
  import opened Daemon
  import opened WgConf
  import opened WgConfLayout
  import ImportRoundTrip

  // --- which printed files parse -----------------------------------------------

  predicate Numerals(texts: seq<string>, limit: nat) {
    forall t :: t in texts ==> ParseNum(t, limit).Some?
  }

  /** A printed file parses exactly when each required scalar is given once, the preshared key at most once, some
      address at all, and every number given, the replaced ones included, is in range. */
  lemma PrintedParsesIff(v: Readings)
    requires HoldableReadings(v)
    ensures Meaning(ClassifyAll(Lines(PrintReadings(v)))).Some? <==>
            && |v.privateKeys| == 1 && |v.publicKeys| == 1 && |v.endpoints| == 1 && |v.presharedKeys| <= 1
            && (exists t :: t in v.addresses && Csv(t) != [])
            && Numerals(v.listenPorts, 0x1_0000) && Numerals(v.mtus, 0x1_0000_0000) && Numerals(v.keepalives, 0x1_0000)
  {
    hide ClassifyAll, Lines, PrintReadings, HoldableReadings, ParseNum, Csv, Read, CleanFrom, Count;
    PrintedReads(v);
    CsvAllEmpty(v.addresses);
  }

  lemma {:induction false} CsvAllEmpty(values: seq<string>)
    ensures CsvAll(values) != [] <==> exists t :: t in values && Csv(t) != []
    decreases values
  {
    hide Csv;
    if values != [] {
      CsvAllEmpty(values[1..]);
      assert forall t :: t in values <==> t == values[0] || t in values[1..];
    }
  }

  // --- lines that rule a file out ----------------------------------------------

  /** A line in brackets that names neither section, or one with neither brackets nor an equals sign. */
  predicate Malformed(content: string) {
    && content != ""
    && if |content| >= 2 && content[0] == '[' && content[|content| - 1] == ']'
       then Lower(Trim(content[1..|content| - 1])) !in {"interface", "peer"}
       else '=' !in content
  }

  lemma {:induction false} CleanHas(start: Option<Section>, lines: seq<Line>, k: nat)
    requires CleanFrom(start, lines) && k < |lines|
    ensures !lines[k].BadHeader? && !lines[k].Junk?
    ensures lines[k].Pair? ==> SectionAfter(start, lines[..k]).Some?
    decreases lines
  {
    if k > 0 {
      assert lines[..k][0] == lines[0] && lines[..k][1..] == lines[1..][..k - 1];
      CleanHas(if lines[0].Header? then Some(lines[0].section) else start, lines[1..], k - 1);
    } else {
      assert lines[..0] == [];
    }
  }

  lemma {:induction false} NoHeaderNoSection(lines: seq<Line>)
    requires forall l :: l in lines ==> !l.Header?
    ensures SectionAfter(None, lines).None?
    decreases lines
  {
    if lines != [] {
      assert forall l :: l in lines[1..] ==> l in lines;
      NoHeaderNoSection(lines[1..]);
    }
  }

  lemma {:induction false} CountsBoth(lines: seq<Line>, section: Section, i: nat, j: nat)
    requires i < j < |lines| && lines[i] == lines[j] == Header(section)
    ensures Count(lines, section) >= 2
  {
    CountAppend(lines[..j], lines[j..], section);
    assert lines == lines[..j] + lines[j..];
    CountAppend(lines[..i], lines[i..j], section);
    assert lines[..j] == lines[..i] + lines[i..j];
  }

  /** One malformed line anywhere, a pair before the first section, or a section opened twice rules a file out. */
  lemma LineRefused(file: seq<string>, k: nat)
    requires k < |file|
    requires || Malformed(Content(file[k]))
             || (Classify(file[k]).Pair? && forall i :: 0 <= i < k ==> !Classify(file[i]).Header?)
             || (Classify(file[k]).Header? && exists i :: 0 <= i < k && Classify(file[i]) == Classify(file[k]))
    ensures Meaning(ClassifyAll(file)).None?
  {
    hide Classify, ClassifyAll, CleanFrom, SectionAfter, Count, Read, Content, Malformed;
    var lines := ClassifyAll(file);
    ClassifyAllAt(file);
    if Grammar(lines) {
      CleanHas(None, lines, k);
      if Malformed(Content(file[k])) {
        MalformedIsRefused(file[k]);
      } else if lines[k].Pair? {
        forall l | l in lines[..k] ensures !l.Header? {
          var i :| 0 <= i < k && lines[i] == l;
          assert Classify(file[i]) == l;
        }
        NoHeaderNoSection(lines[..k]);
      } else {
        var i :| 0 <= i < k && Classify(file[i]) == Classify(file[k]);
        assert lines[i] == lines[k] == Header(lines[k].section);
        var section := lines[k].section;
        assert section == Section.Interface || section == Section.Peer;
        CountsBoth(lines, section, i, k);
      }
    }
  }

  lemma MalformedIsRefused(raw: string)
    requires Malformed(Content(raw))
    ensures Classify(raw).BadHeader? || Classify(raw).Junk?
  {
    hide Content, Lower, Trim;
  }

  // --- lines that say nothing --------------------------------------------------

  /** A key that means something in this section. */
  predicate Known(section: Section, name: string) {
    match section
    case Interface => name in {"privatekey", "address", "dns", "listenport", "mtu"}
    case Peer => name in {"publickey", "endpoint", "allowedips", "presharedkey", "persistentkeepalive"}
  }

  lemma ForeignReadsNothing(section: Section, name: string, value: string)
    requires !Known(section, name)
    ensures ReadPair(Some(section), Pair(KeyOf(name), value)) == Readings([], [], [], [], [], [], [], [], [], [])
  {
  }

  /** A pair whose key means nothing in the section it stands in, one of the other section's included, makes no
      difference there, whatever its value. */
  lemma ForeignPairIgnored(a: seq<string>, raw: string, b: seq<string>, name: string, value: string)
    requires Classify(raw) == Pair(KeyOf(name), value)
    requires SectionAfter(None, ClassifyAll(a)).Some? && !Known(SectionAfter(None, ClassifyAll(a)).value, name)
    ensures Meaning(ClassifyAll(a + [raw] + b)) == Meaning(ClassifyAll(a + b))
  {
    hide Classify, ClassifyAll, KeyOf, Known, ReadPair, ReadFrom, SectionAfter, CleanFrom, Count, Sound, Complete,
         FieldsOf;
    var before, line, after := ClassifyAll(a), Pair(KeyOf(name), value), ClassifyAll(b);
    ClassifyAppend(a, [raw]);
    ClassifyAppend(a + [raw], b);
    ClassifyAppend(a, b);
    OneLine(raw);
    var section := SectionAfter(None, before);
    ForeignReadsNothing(section.value, name, value);
    ReadOneLine(section, line);
    ReadAppend(None, before, [line]);
    ReadAppend(None, before + [line], after);
    ReadAppend(None, before, after);
    CleanAppend(None, before, [line]);
    CleanAppend(None, before + [line], after);
    CleanAppend(None, before, after);
    SectionAfterAppend(None, before, [line]);
    PairOpensNothing(section, line);
    assert Concat(ReadFrom(None, before), ReadFrom(section, [line])) == ReadFrom(None, before);
    forall s ensures Count(before + [line] + after, s) == Count(before + after, s) {
      CountAppend(before, [line], s);
      CountAppend(before + [line], after, s);
      CountAppend(before, after, s);
    }
  }

  lemma PairOpensNothing(section: Option<Section>, line: Line)
    requires line.Pair? && section.Some?
    ensures SectionAfter(section, [line]) == section && CleanFrom(section, [line])
    ensures forall s :: Count([line], s) == 0
  {
    assert [line][1..] == [];
  }

  // --- sheets ------------------------------------------------------------------

  /** A file with lists spread over any number of lines, and numbers given any number of times. */
  datatype Sheet = Sheet(
    privateKey: string,
    addresses: seq<seq<string>>,
    dns: seq<seq<string>>,
    listenPorts: seq<u16>,
    mtus: seq<u32>,
    publicKey: string,
    endpoint: string,
    allowedIps: seq<seq<string>>,
    presharedKey: Option<string>,
    keepalives: seq<u16>)

  function JoinEach(lists: seq<seq<string>>): seq<string> {
    if lists == [] then [] else [Join(lists[0])] + JoinEach(lists[1..])
  }

  function DecimalEach(numbers: seq<nat>): seq<string> {
    if numbers == [] then [] else [Decimal(numbers[0])] + DecimalEach(numbers[1..])
  }

  function TextsOf(sheet: Sheet): Readings {
    Readings(
      [sheet.privateKey], JoinEach(sheet.addresses), JoinEach(sheet.dns), DecimalEach(sheet.listenPorts),
      DecimalEach(sheet.mtus), [sheet.publicKey], [sheet.endpoint], JoinEach(sheet.allowedIps),
      if sheet.presharedKey.Some? then [sheet.presharedKey.value] else [], DecimalEach(sheet.keepalives))
  }

  function Flatten(lists: seq<seq<string>>): seq<string> {
    if lists == [] then [] else lists[0] + Flatten(lists[1..])
  }

  function LastOf(numbers: seq<nat>): Option<nat> {
    if numbers == [] then None else Some(numbers[|numbers| - 1])
  }

  predicate Writable(sheet: Sheet) {
    && Holdable(sheet.privateKey) && Holdable(sheet.publicKey) && Holdable(sheet.endpoint)
    && (sheet.presharedKey.Some? ==> Holdable(sheet.presharedKey.value))
    && WritableLists(sheet.addresses) && WritableLists(sheet.dns) && WritableLists(sheet.allowedIps)
    && Flatten(sheet.addresses) != []
  }

  predicate WritableLists(lists: seq<seq<string>>) {
    forall items :: items in lists ==> HoldableList(items)
  }

  lemma EmptyIsHoldable()
    ensures Holdable(Join([]))
  {
  }

  lemma {:induction false} ListsRead(lists: seq<seq<string>>)
    requires WritableLists(lists)
    ensures AllHoldable(JoinEach(lists)) && CsvAll(JoinEach(lists)) == Flatten(lists)
    decreases lists
  {
    hide Holdable, Join, Csv, ListItem;
    if lists != [] {
      ListsRead(lists[1..]);
      assert HoldableList(lists[0]);
      CsvOfJoin(lists[0]);
      EmptyIsHoldable();
      if lists[0] != [] {
        JoinIsHoldable(lists[0]);
      }
      assert JoinEach(lists)[1..] == JoinEach(lists[1..]);
    }
  }

  lemma {:induction false} NumbersRead(numbers: seq<nat>, limit: nat)
    requires forall n :: n in numbers ==> n < limit
    ensures AllHoldable(DecimalEach(numbers)) && Numbers(DecimalEach(numbers), limit)
    ensures LastNumber(DecimalEach(numbers), limit) == LastOf(numbers)
    decreases numbers
  {
    hide Holdable, Decimal, ParseNum;
    if numbers != [] {
      assert numbers[0] in numbers && forall n :: n in numbers[1..] ==> n in numbers;
      DecimalIsHoldable(numbers[0]);
      ParseDecimal(numbers[0], limit);
      NumbersRead(numbers[1..], limit);
      var texts := DecimalEach(numbers);
      assert texts[1..] == DecimalEach(numbers[1..]);
      if |numbers| > 1 {
        assert texts[|texts| - 1] == texts[1..][|texts| - 2];
      }
    }
  }

  /** Lists given in several lines add up in their order, a number given again replaces the one before, and a file
      without AllowedIPs means all of IPv4. */
  lemma ParseSheet(sheet: Sheet)
    requires Writable(sheet)
    ensures var cfg := Meaning(ClassifyAll(Lines(PrintReadings(TextsOf(sheet)))));
            && cfg.Some?
            && cfg.value.privateKey == sheet.privateKey
            && cfg.value.addresses == Flatten(sheet.addresses) && cfg.value.dns == Flatten(sheet.dns)
            && cfg.value.listenPort == LastOf(sheet.listenPorts) && cfg.value.mtu == LastOf(sheet.mtus)
            && cfg.value.publicKey == sheet.publicKey && cfg.value.endpoint == sheet.endpoint
            && cfg.value.allowedIps == (if Flatten(sheet.allowedIps) == [] then ["0.0.0.0/0"]
                                        else Flatten(sheet.allowedIps))
            && cfg.value.presharedKey == sheet.presharedKey && cfg.value.keepalive == LastOf(sheet.keepalives)
  {
    hide ClassifyAll, Lines, PrintReadings, CleanFrom, Count, ReadFrom, Holdable, JoinEach, DecimalEach, Flatten,
         CsvAll, LastNumber, LastOf, Numbers, WritableLists;
    ListsRead(sheet.addresses);
    ListsRead(sheet.dns);
    ListsRead(sheet.allowedIps);
    NumbersRead(sheet.listenPorts, U16);
    NumbersRead(sheet.mtus, U32);
    NumbersRead(sheet.keepalives, U16);
    PrintedReads(TextsOf(sheet));
  }

  /** And an import of such a file that is answered with the list stores just that: without AllowedIPs, the tunnel that
      takes all of IPv4. */
  lemma SheetImports(lib: Lib, env: Oracle, d: DState, name: string, sheet: Sheet, ext: Ext, d': DState,
                     infos: seq<ServerInfo>)
    returns (s: ServerConfig)
    requires Writable(sheet)
    requires Handle(lib, env, d, ImportServer(name, PrintReadings(TextsOf(sheet))), ext) == (d', ServerList(infos))
    ensures FindIn(d'.servers, Trim(name)) == Some(s)
    ensures s.allowedIps == (if Flatten(sheet.allowedIps) == [] then ["0.0.0.0/0"] else Flatten(sheet.allowedIps))
    ensures s.addresses == Flatten(sheet.addresses) && s.dns == Flatten(sheet.dns)
    ensures s.publicKey == sheet.publicKey && s.endpoint == sheet.endpoint && s.presharedKey == sheet.presharedKey
    ensures s.privateKey == if sheet.privateKey == "" then ext.freshKey else sheet.privateKey
    ensures s.listenPort == if sheet.listenPorts == [] then 0 else sheet.listenPorts[|sheet.listenPorts| - 1]
    ensures s.mtu == LastOf(sheet.mtus) && s.keepalive == LastOf(sheet.keepalives)
  {
    hide Trim, Handle, Meaning, ClassifyAll, Lines, PrintReadings, TextsOf, FindIn, Flatten, Writable;
    ParseSheet(sheet);
    var text := PrintReadings(TextsOf(sheet));
    var found: SocketAddr;
    s, found := ImportRoundTrip.ImportStores(lib, env, d, name, text, ext, ReadConf(text).value, d', infos, name);
  }
}
