/** Edits of a wg-quick file that change nothing, as one relation on whole texts. */
module WgConfEdits {
  import opened Basics
  import opened Text
  import opened WgConf
  import opened WgConfLayout

  /** What the parser makes of a text. */
  function Parsed(text: string): Option<ParsedConfig> {
    Meaning(ClassifyAll(Lines(text)))
  }

  /** One edit of a file, given as its lines: white space around a line (a CR at its end included), a comment after it,
      a blank or comment line put in, a key or a section name written in another case or with other spacing, and the
      part before `cut` moved behind the rest. */
  datatype Edit =
    | Pad(at: nat, before: string, after: string)
    | Remark(at: nat, remark: string)
    | Insert(at: nat, pad: string, comment: Option<string>)
    | Respell(at: nat, key1: string, b1: string, a1: string, key2: string, b2: string, a2: string, value: string)
    | Retitle(at: nat, name1: string, b1: string, a1: string, name2: string, b2: string, a2: string)
    | Exchange(cut: nat)

  function PairText(key: string, before: string, after: string, value: string): string {
    key + before + ['='] + after + value
  }

  function HeaderOf(before: string, name: string, after: string): string {
    ['['] + (before + name + after) + [']']
  }

  /** Nothing around the content: no white space at the ends, no comment. */
  predicate Bare(s: string) {
    Trimmed(s) && Free(s, '#')
  }

  predicate Fits(e: Edit, file: seq<string>) {
    match e
    case Pad(at, before, after) => at < |file| && Blank(before) && Blank(after)
    case Remark(at, _) => at < |file|
    case Insert(at, pad, _) => at <= |file| && Blank(pad)
    case Respell(at, key1, b1, a1, key2, b2, a2, value) =>
      && at < |file| && file[at] == PairText(key1, b1, a1, value) && Bare(file[at])
      && Bare(PairText(key2, b2, a2, value))
      && PlainName(key1) && PlainName(key2) && Lower(key1) == Lower(key2)
      && Blank(b1) && Blank(a1) && Blank(b2) && Blank(a2) && Trimmed(value)
    case Retitle(at, name1, b1, a1, name2, b2, a2) =>
      && at < |file| && file[at] == HeaderOf(b1, name1, a1) && Bare(file[at]) && Bare(HeaderOf(b2, name2, a2))
      && Trimmed(name1) && Trimmed(name2) && Lower(name1) == Lower(name2)
      && Blank(b1) && Blank(a1) && Blank(b2) && Blank(a2)
    case Exchange(cut) =>
      && cut <= |file|
      && OpensSection(ClassifyAll(file[..cut])) && OpensSection(ClassifyAll(file[cut..]))
  }

  function Apply(e: Edit, file: seq<string>): seq<string>
    requires Fits(e, file)
  {
    match e
    case Pad(at, before, after) => file[at := before + file[at] + after]
    case Remark(at, comment) => file[at := file[at] + ['#'] + comment]
    case Insert(at, pad, comment) =>
      file[..at] + [if comment.None? then pad else pad + ['#'] + comment.value] + file[at..]
    case Respell(at, _, _, _, key2, b2, a2, value) => file[at := PairText(key2, b2, a2, value)]
    case Retitle(at, _, _, _, name2, b2, a2) => file[at := HeaderOf(b2, name2, a2)]
    case Exchange(cut) => file[cut..] + file[..cut]
  }

  /** A line without decoration is its own content. */
  lemma BareIsContent(s: string)
    requires Bare(s)
    ensures Classify(s) == ClassifyContent(s)
  {
    hide Trim, ClassifyContent, StripCr;
    ContentIgnoresCr(s);
    BeforeLength(s, '#');
    TrimFixpoint(s);
  }

  lemma SameLineSameReading(file: seq<string>, at: nat, line: string)
    requires at < |file| && Classify(line) == Classify(file[at])
    ensures ClassifyAll(file[at := line]) == ClassifyAll(file)
  {
    hide Classify;
    ClassifyAllAt(file);
    ClassifyAllAt(file[at := line]);
  }

  lemma SkippedLine(file: seq<string>, at: nat, line: string)
    requires at <= |file| && Classify(line) == Skip
    ensures Meaning(ClassifyAll(file[..at] + [line] + file[at..])) == Meaning(ClassifyAll(file))
  {
    hide Classify, Meaning, Significant;
    var a, b := file[..at], file[at..];
    assert file == a + b;
    ClassifyAppend(a, b);
    ClassifyAppend(a + [line], b);
    ClassifyAppend(a, [line]);
    assert [line][1..] == [];
    assert ClassifyAll([line]) == [Skip];
    var ca, cb := ClassifyAll(a), ClassifyAll(b);
    SignificantParts(ca + [Skip], cb);
    SignificantParts(ca, [Skip]);
    SignificantParts(ca, cb);
    assert Significant([Skip]) == [] by {
      OnlySkip();
    }
    assert Significant(ca) + [] == Significant(ca);
    SameSignificantSameMeaning(ca + [Skip] + cb, ca + cb);
  }

  lemma OnlySkip()
    ensures Significant([Skip]) == []
  {
    assert [Skip][1..] == [];
  }

  /** One edit leaves the meaning of the file as it was. */
  lemma EditKeepsMeaning(e: Edit, file: seq<string>)
    requires Fits(e, file)
    ensures Meaning(ClassifyAll(Apply(e, file))) == Meaning(ClassifyAll(file))
  {
    hide Classify, Meaning, ClassifyContent, ClassifyAll, Lower, PlainName, Bare, OpensSection;
    match e
    case Pad(at, before, after) =>
      PaddingIgnored(before, file[at], after);
      SameLineSameReading(file, at, before + file[at] + after);
    case Remark(at, comment) =>
      CommentIgnored(file[at], comment);
      SameLineSameReading(file, at, file[at] + ['#'] + comment);
    case Insert(at, pad, comment) =>
      BlankLineSkipped(pad, if comment.Some? then comment.value else "");
      SkippedLine(file, at, if comment.None? then pad else pad + ['#'] + comment.value);
    case Respell(at, key1, b1, a1, key2, b2, a2, value) =>
      KeyCaseIgnored(key1, key2, b1, a1, b2, a2, value);
      BareIsContent(file[at]);
      BareIsContent(PairText(key2, b2, a2, value));
      SameLineSameReading(file, at, PairText(key2, b2, a2, value));
    case Retitle(at, name1, b1, a1, name2, b2, a2) =>
      HeaderCaseIgnored(name1, name2, b1, a1, b2, a2);
      BareIsContent(file[at]);
      BareIsContent(HeaderOf(b2, name2, a2));
      SameLineSameReading(file, at, HeaderOf(b2, name2, a2));
    case Exchange(cut) =>
      ClassifyAppend(file[..cut], file[cut..]);
      ClassifyAppend(file[cut..], file[..cut]);
      assert file == file[..cut] + file[cut..];
      SectionsSwap(ClassifyAll(file[..cut]), ClassifyAll(file[cut..]));
  }

  /** An edit, done or undone. */
  ghost predicate Linked(a: seq<string>, b: seq<string>) {
    (exists e :: Fits(e, a) && b == Apply(e, a)) || (exists e :: Fits(e, b) && a == Apply(e, b))
  }

  ghost predicate Chain(files: seq<seq<string>>) {
    files != [] && forall i :: 0 <= i < |files| - 1 ==> Linked(files[i], files[i + 1])
  }

  lemma {:induction false} ChainKeepsMeaning(files: seq<seq<string>>, k: nat)
    requires Chain(files) && k < |files|
    ensures Meaning(ClassifyAll(files[k])) == Meaning(ClassifyAll(files[0]))
    decreases k
  {
    hide Meaning, ClassifyAll, Fits, Apply;
    if k > 0 {
      ChainKeepsMeaning(files, k - 1);
      var a, b := files[k - 1], files[k - 1 + 1];
      assert Linked(a, b);
      if e :| Fits(e, a) && b == Apply(e, a) {
        EditKeepsMeaning(e, a);
      } else {
        var e :| Fits(e, b) && a == Apply(e, b);
        EditKeepsMeaning(e, b);
      }
    }
  }

  /** Two texts that differ by any number of these edits, done or undone in any order, and by their line endings, parse
      to the same configuration or are both refused. */
  lemma EditedTextsParseAlike(a: string, b: string, files: seq<seq<string>>)
    requires Chain(files) && files[0] == Pieces(a) && files[|files| - 1] == Pieces(b)
    ensures Parsed(a) == Parsed(b) == Parsed(ToCrlf(a)) == Parsed(ToCrlf(b))
  {
    hide Meaning, ClassifyAll, Lines, Pieces, ToCrlf, Linked;
    ClassifyPieces(a);
    ClassifyPieces(b);
    ChainKeepsMeaning(files, |files| - 1);
    CrlfIgnored(a);
    CrlfIgnored(b);
  }
}
