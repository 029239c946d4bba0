/** Strings as the daemon and its clients handle them: trimming, comma lists, lines. ASCII only. */
module Text {
  import opened Basics

  predicate IsSpace(c: char) {
    c == ' ' || '\t' <= c <= '\r'
  }

  function TrimStart(s: string): string
  {
    if s != [] && IsSpace(s[0]) then TrimStart(s[1..]) else s
  }

  function TrimEnd(s: string): string
  {
    if s != [] && IsSpace(s[|s| - 1]) then TrimEnd(s[..|s| - 1]) else s
  }

  function Trim(s: string): string {
    TrimEnd(TrimStart(s))
  }

  /** No white space at either end. */
  predicate Trimmed(s: string) {
    s != [] ==> !IsSpace(s[0]) && !IsSpace(s[|s| - 1])
  }

  predicate Blank(s: string) {
    forall c :: c in s ==> IsSpace(c)
  }

  lemma {:induction false} TrimStartIsSuffix(s: string)
    ensures |TrimStart(s)| <= |s| && TrimStart(s) == s[|s| - |TrimStart(s)|..]
    decreases s
  {
    if s != [] && IsSpace(s[0]) {
      TrimStartIsSuffix(s[1..]);
    }
  }

  lemma {:induction false} TrimEndIsPrefix(s: string)
    ensures |TrimEnd(s)| <= |s| && TrimEnd(s) == s[..|TrimEnd(s)|]
    decreases s
  {
    if s != [] && IsSpace(s[|s| - 1]) {
      TrimEndIsPrefix(s[..|s| - 1]);
    }
  }

  lemma {:induction false} TrimStartIsTight(s: string)
    ensures TrimStart(s) != [] ==> !IsSpace(TrimStart(s)[0])
    decreases s
  {
    if s != [] && IsSpace(s[0]) {
      TrimStartIsTight(s[1..]);
    }
  }

  lemma {:induction false} TrimEndIsTight(s: string)
    ensures TrimEnd(s) != [] ==> !IsSpace(TrimEnd(s)[|TrimEnd(s)| - 1])
    decreases s
  {
    if s != [] && IsSpace(s[|s| - 1]) {
      TrimEndIsTight(s[..|s| - 1]);
    }
  }

  lemma TrimGivesTrimmed(s: string)
    ensures Trimmed(Trim(s))
  {
    hide TrimStart, TrimEnd;
    TrimStartIsTight(s);
    TrimEndIsTight(TrimStart(s));
    TrimEndIsPrefix(TrimStart(s));
  }

  /** Trimming does nothing exactly to trimmed strings. */
  lemma TrimFixpoint(s: string)
    ensures Trim(s) == s <==> Trimmed(s)
  {
    TrimGivesTrimmed(s);
  }

  lemma {:induction false} TrimStartPad(pad: string, s: string)
    requires Blank(pad)
    ensures TrimStart(pad + s) == TrimStart(s)
    decreases pad
  {
    if pad == [] {
      assert pad + s == s;
    } else {
      assert pad[0] in pad;
      assert (pad + s)[1..] == pad[1..] + s;
      TrimStartPad(pad[1..], s);
    }
  }

  lemma {:induction false} TrimEndPad(s: string, pad: string)
    requires Blank(pad)
    ensures TrimEnd(s + pad) == TrimEnd(s)
    decreases pad
  {
    if pad == [] {
      assert s + pad == s;
    } else {
      assert pad[|pad| - 1] in pad;
      assert (s + pad)[..|s + pad| - 1] == s + pad[..|pad| - 1];
      TrimEndPad(s, pad[..|pad| - 1]);
    }
  }

  lemma {:induction false} TrimStartOfTail(s: string, pad: string)
    requires Blank(pad)
    ensures TrimStart(s + pad) == TrimStart(s) + pad || (TrimStart(s) == [] && Blank(TrimStart(s + pad)))
    decreases s
  {
    if s == [] {
      assert s + pad == pad;
      TrimStartIsSuffix(pad);
      assert forall c :: c in TrimStart(pad) ==> c in pad;
    } else if IsSpace(s[0]) {
      assert (s + pad)[1..] == s[1..] + pad;
      TrimStartOfTail(s[1..], pad);
    }
  }

  lemma {:induction false} TrimEndOfBlank(s: string)
    requires Blank(s)
    ensures TrimEnd(s) == []
    decreases s
  {
    if s != [] {
      assert s[|s| - 1] in s;
      TrimEndOfBlank(s[..|s| - 1]);
    }
  }

  /** White space around a string does not survive trimming. */
  lemma TrimPad(before: string, s: string, after: string)
    requires Blank(before) && Blank(after)
    ensures Trim(before + s + after) == Trim(s)
  {
    assert before + s + after == before + (s + after);
    TrimStartPad(before, s + after);
    TrimStartOfTail(s, after);
    if TrimStart(s + after) == TrimStart(s) + after {
      TrimEndPad(TrimStart(s), after);
    } else {
      TrimEndOfBlank(TrimStart(s + after));
    }
  }

  // --- splitting and joining ---------------------------------------------------

  /** The pieces between separators; always at least one. */
  function Split(s: string, sep: char): (r: seq<string>)
    ensures r != []
  {
    if s == [] then [""]
    else
      var rest := Split(s[1..], sep);
      if s[0] == sep then [""] + rest else [[s[0]] + rest[0]] + rest[1..]
  }

  predicate Free(s: string, c: char) {
    c !in s
  }

  lemma {:induction false} SplitFirst(a: string, rest: string, sep: char)
    requires Free(a, sep)
    ensures Split(a + [sep] + rest, sep) == [a] + Split(rest, sep)
    decreases a
  {
    if a == [] {
      assert [] + [sep] + rest == [sep] + rest;
      assert ([sep] + rest)[1..] == rest;
    } else {
      assert a[0] in a;
      assert (a + [sep] + rest)[1..] == a[1..] + [sep] + rest;
      SplitFirst(a[1..], rest, sep);
      assert [a[0]] + a[1..] == a;
      assert ([a[1..]] + Split(rest, sep))[1..] == Split(rest, sep);
    }
  }

  lemma {:induction false} SplitWhole(a: string, sep: char)
    requires Free(a, sep)
    ensures Split(a, sep) == [a]
    decreases a
  {
    if a != [] {
      assert a[0] in a;
      SplitWhole(a[1..], sep);
      assert [a[0]] + a[1..] == a;
    }
  }

  lemma {:induction false} SplitIsFree(s: string, sep: char, i: nat)
    requires i < |Split(s, sep)|
    ensures Free(Split(s, sep)[i], sep)
    decreases s
  {
    if s != [] {
      var rest := Split(s[1..], sep);
      if s[0] == sep {
        if i > 0 {
          SplitIsFree(s[1..], sep, i - 1);
        }
      } else {
        SplitIsFree(s[1..], sep, i);
      }
    }
  }

  // --- comma lists -------------------------------------------------------------

  function TrimAll(parts: seq<string>): seq<string> {
    if parts == [] then [] else [Trim(parts[0])] + TrimAll(parts[1..])
  }

  function NonEmpty(): string -> bool {
    (s: string) => s != []
  }

  /** A comma-separated value as its trimmed, non-empty parts. The daemon and the form share this reading. */
  function Csv(value: string): seq<string> {
    Keep(TrimAll(Split(value, ',')), NonEmpty())
  }

  /** What a comma list can carry: no comma, nothing to trim, not empty. */
  predicate ListItem(s: string) {
    s != [] && Trimmed(s) && Free(s, ',')
  }

  function Join(items: seq<string>): string {
    if items == [] then ""
    else if |items| == 1 then items[0]
    else items[0] + ", " + Join(items[1..])
  }

  lemma CsvCons(a: string, rest: string)
    requires Free(a, ',')
    ensures Csv(a + [','] + rest) == (if Trim(a) != [] then [Trim(a)] else []) + Csv(rest)
  {
    SplitFirst(a, rest, ',');
    var parts := [a] + Split(rest, ',');
    assert parts[1..] == Split(rest, ',');
    var trimmed := TrimAll(parts);
    assert trimmed == [Trim(a)] + TrimAll(Split(rest, ','));
    assert trimmed[1..] == TrimAll(Split(rest, ','));
  }

  lemma CsvPad(rest: string)
    ensures Csv([' '] + rest) == Csv(rest)
  {
    var r := Split(rest, ',');
    assert ([' '] + rest)[1..] == rest;
    var p := Split([' '] + rest, ',');
    assert p == [[' '] + r[0]] + r[1..];
    TrimPad([' '], r[0], []);
    assert [' '] + r[0] + [] == [' '] + r[0];
    assert TrimAll(p) == [Trim(p[0])] + TrimAll(p[1..]);
    assert p[1..] == r[1..];
  }

  lemma CsvEmpty()
    ensures Csv("") == []
  {
    hide TrimStart, TrimEnd;
    TrimFixpoint("");
    assert Split("", ',') == [""];
    assert TrimAll([""]) == [""] + TrimAll([""][1..]) == [""];
    assert Keep([""], NonEmpty()) == Keep([""][1..], NonEmpty());
  }

  lemma CsvOne(a: string)
    requires ListItem(a)
    ensures Csv(a) == [a]
  {
    hide Trim;
    TrimFixpoint(a);
    SplitWhole(a, ',');
    assert [a][1..] == [];
    assert TrimAll([a]) == [a] + TrimAll([]) == [a];
    assert Keep([a], NonEmpty()) == [a] + Keep([], NonEmpty());
  }

  lemma {:induction false} CsvOfJoin(items: seq<string>)
    requires forall s :: s in items ==> ListItem(s)
    ensures Csv(Join(items)) == items
    decreases items
  {
    hide Trim, Csv;
    if items == [] {
      CsvEmpty();
    } else {
      var a := items[0];
      assert a in items;
      TrimFixpoint(a);
      if |items| == 1 {
        CsvOne(a);
        assert items == [a];
      } else {
        var rest := Join(items[1..]);
        assert a + ", " + rest == a + [','] + ([' '] + rest);
        CsvCons(a, [' '] + rest);
        CsvPad(rest);
        CsvOfJoin(items[1..]);
        assert [a] + items[1..] == items;
      }
    }
  }

  lemma {:induction false} TrimAllAt(parts: seq<string>)
    ensures |TrimAll(parts)| == |parts| && forall i :: 0 <= i < |parts| ==> TrimAll(parts)[i] == Trim(parts[i])
    decreases parts
  {
    hide Trim;
    if parts != [] {
      TrimAllAt(parts[1..]);
    }
  }

  /** Whatever is read from a comma list is an item. */
  lemma CsvGivesItems(value: string)
    ensures forall s :: s in Csv(value) ==> ListItem(s)
  {
    var parts := Split(value, ',');
    KeepElements(TrimAll(parts), NonEmpty());
    TrimAllAt(parts);
    forall s | s in Csv(value) ensures ListItem(s) {
      var i :| 0 <= i < |parts| && TrimAll(parts)[i] == s;
      SplitIsFree(value, ',', i);
      TrimGivesTrimmed(parts[i]);
      TrimIsPart(parts[i]);
    }
  }

  lemma TrimIsPart(s: string)
    ensures forall c :: c in Trim(s) ==> c in s
  {
    TrimStartIsSuffix(s);
    TrimEndIsPrefix(TrimStart(s));
  }

  /** A list survives being joined and split again exactly when all of it is items. */
  lemma CsvRoundTrip(items: seq<string>)
    ensures Csv(Join(items)) == items <==> forall s :: s in items ==> ListItem(s)
  {
    if forall s :: s in items ==> ListItem(s) {
      CsvOfJoin(items);
    }
    CsvGivesItems(Join(items));
  }

  /** What is trimmed away: space, tab, newline, vertical tab, form feed and carriage return, and nothing else. */
  lemma TrimsExactly(c: char)
    ensures Trim([c]) == if c in {' ', '\t', '\n', '\U{000B}', '\U{000C}', '\r'} then "" else [c]
  {
    if IsSpace(c) {
      assert [c][1..] == "" && TrimStart([c]) == TrimStart("") == "";
    } else {
      TrimFixpoint([c]);
    }
    assert IsSpace(c) <==> c in {' ', '\t', '\n', '\U{000B}', '\U{000C}', '\r'};
  }

  // --- decimal numbers ---------------------------------------------------------

  predicate IsDigit(c: char) {
    '0' <= c <= '9'
  }

  predicate AllDigits(s: string) {
    forall c :: c in s ==> IsDigit(c)
  }

  function DecValue(s: string): nat
    requires AllDigits(s)
  {
    if s == [] then 0
    else
      assert s[|s| - 1] in s;
      DecValue(s[..|s| - 1]) * 10 + (s[|s| - 1] as nat - '0' as nat)
  }

  function Decimal(n: nat): (r: string)
    ensures r != [] && AllDigits(r)
  {
    var last := ['0' + (n % 10) as char];
    if n < 10 then last else Decimal(n / 10) + last
  }

  lemma {:induction false} DecimalValue(n: nat)
    ensures DecValue(Decimal(n)) == n
    decreases n
  {
    var s := Decimal(n);
    var last := '0' + (n % 10) as char;
    if n < 10 {
      assert s == [last];
      assert s[..0] == [];
    } else {
      assert s[..|s| - 1] == Decimal(n / 10);
      DecimalValue(n / 10);
    }
  }

  /** An unsigned decimal below `limit`, with the optional plus sign the integer parser accepts. */
  function ParseNum(s: string, limit: nat): (r: Option<nat>)
    ensures r.Some? ==> r.value < limit
  {
    var digits := if s != [] && s[0] == '+' then s[1..] else s;
    if digits == [] || !AllDigits(digits) then None
    else if DecValue(digits) < limit then Some(DecValue(digits))
    else None
  }

  lemma ParseDecimal(n: nat, limit: nat)
    requires n < limit
    ensures ParseNum(Decimal(n), limit) == Some(n)
  {
    DecimalValue(n);
    assert Decimal(n)[0] in Decimal(n);
  }

  function Zeros(n: nat): string {
    if n == 0 then "" else ['0'] + Zeros(n - 1)
  }

  lemma {:induction false} ZerosRead(n: nat)
    ensures AllDigits(Zeros(n)) && DecValue(Zeros(n)) == 0
    ensures Zeros(n) + "0" == Zeros(n + 1)
    decreases n
  {
    if n > 0 {
      ZerosRead(n - 1);
      var s := Zeros(n);
      assert s == Zeros(n - 1) + "0";
      assert s[..|s| - 1] == Zeros(n - 1);
    }
  }

  lemma {:induction false} PaddedValue(zeros: nat, n: nat)
    ensures var s := Zeros(zeros) + Decimal(n);
            AllDigits(s) && DecValue(s) == n
    decreases n
  {
    hide Zeros;
    var s := Zeros(zeros) + Decimal(n);
    ZerosRead(zeros);
    if n < 10 {
      assert s[..|s| - 1] == Zeros(zeros);
    } else {
      PaddedValue(zeros, n / 10);
      assert s[..|s| - 1] == Zeros(zeros) + Decimal(n / 10);
    }
  }

  /** A text of digits is its value in decimal, with zeros before it. */
  lemma {:induction false} DigitsArePadded(s: string) returns (zeros: nat)
    requires s != [] && AllDigits(s)
    ensures s == Zeros(zeros) + Decimal(DecValue(s))
    decreases s
  {
    hide Zeros, Decimal;
    var t, c := s[..|s| - 1], s[|s| - 1];
    assert c in s && s == t + [c];
    var digit := c as nat - '0' as nat;
    if t == [] {
      zeros := 0;
      OneDigit(digit);
      assert Zeros(0) == "" by { ZerosNone(); }
    } else {
      zeros := DigitsArePadded(t);
      ZerosRead(zeros);
      NextDigit(DecValue(t), digit);
      if DecValue(t) == 0 {
        OneDigit(0);
        OneDigit(digit);
        zeros := zeros + 1;
      }
    }
  }

  lemma ZerosNone()
    ensures Zeros(0) == ""
  {
  }

  lemma OneDigit(digit: nat)
    requires digit < 10
    ensures Decimal(digit) == ['0' + digit as char]
  {
  }

  lemma NextDigit(n: nat, digit: nat)
    requires digit < 10
    ensures n > 0 ==> Decimal(n * 10 + digit) == Decimal(n) + ['0' + digit as char]
  {
  }

  /** Exactly which texts are numbers: a decimal below the limit, after any zeros and at most one plus sign. */
  lemma ParseNumIff(s: string, limit: nat, n: nat)
    ensures ParseNum(s, limit) == Some(n) <==>
            n < limit && exists zeros, sign :: sign in {"", "+"} && s == sign + (Zeros(zeros) + Decimal(n))
  {
    hide DecValue, Decimal, Zeros;
    var sign := if s != [] && s[0] == '+' then "+" else "";
    var digits := s[|sign|..];
    assert s == sign + digits;
    if ParseNum(s, limit) == Some(n) {
      var zeros := DigitsArePadded(digits);
      assert s == sign + (Zeros(zeros) + Decimal(n));
    }
    if zeros, plus :| n < limit && plus in {"", "+"} && s == plus + (Zeros(zeros) + Decimal(n)) {
      PaddedValue(zeros, n);
      var body := Zeros(zeros) + Decimal(n);
      assert body != [] && body[0] in body;
      assert plus == sign && digits == body;
    }
  }

  // --- letter case -------------------------------------------------------------

  function LowerChar(c: char): char {
    if 'A' <= c <= 'Z' then c - 'A' + 'a' else c
  }

  function Lower(s: string): string {
    Map(s, LowerChar)
  }
}
