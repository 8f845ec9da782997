/** The text of a diff that git prints: lines ended by line feeds, some of them behind a carriage return
    that belongs to the content of a file. */
module DiffText {
  import opened Wrappers
  import opened Unicode
  import opened SessionReview
  import opened DiffParse
  import opened DiffGrammar
  import opened DiffPrinted
  import GitPath
  import Utf8

  // ----- texts and lines -----

  /** Each line with its line feed. */
  function Ended(lines: seq<Text>): Text {
    if lines == [] then [] else lines[0] + ([LF] + Ended(lines[1..]))
  }

  function AllWithoutCr(lines: seq<Text>): seq<Text> {
    if lines == [] then [] else [WithoutCr(lines[0])] + AllWithoutCr(lines[1..])
  }

  lemma {:induction false} ReadThrough(line: Text, more: Text, rest: Text)
    requires LF !in more
    ensures SplitLines(line, more + rest) == SplitLines(line + more, rest)
    decreases |more|
  {
    if more == [] {
      NothingAfter(rest);
      NothingAfter(line);
    } else {
      assert (more + rest)[1..] == more[1..] + rest;
      ReadThrough(line + [more[0]], more[1..], rest);
      assert line + [more[0]] + more[1..] == line + more;
    }
  }

  ghost predicate NoLf(lines: seq<Text>) { forall i :: 0 <= i < |lines| ==> LF !in lines[i] }

  /** A text of lines is split into those lines, each without the carriage return that ends it, if any. */
  lemma {:induction false} EndedRead(lines: seq<Text>)
    requires NoLf(lines)
    ensures LinesOf(Ended(lines)) == AllWithoutCr(lines) + [[]]
  {
    if lines != [] {
      var rest := Ended(lines[1..]);
      EndedRead(lines[1..]);
      ReadThrough([], lines[0], [LF] + rest);
      NothingAfter(lines[0]);
      assert ([LF] + rest)[1..] == rest;
      Assoc([WithoutCr(lines[0])], AllWithoutCr(lines[1..]), [[]]);
    }
  }

  lemma {:induction false} AllWithoutCrBoth(a: seq<Text>, b: seq<Text>)
    ensures AllWithoutCr(a + b) == AllWithoutCr(a) + AllWithoutCr(b)
  {
    if a == [] {
      NothingAfter(b);
    } else {
      assert (a + b)[1..] == a[1..] + b;
      AllWithoutCrBoth(a[1..], b);
      Assoc([WithoutCr(a[0])], AllWithoutCr(a[1..]), AllWithoutCr(b));
    }
  }

  // ----- what ends in a carriage return -----

  predicate EndsInCr(t: Text) { t != [] && t[|t| - 1] == CR }

  lemma EndOfBoth(a: Text, b: Text)
    requires !EndsInCr(a)
    ensures WithoutCr(a + b) == a + WithoutCr(b) && (!EndsInCr(b) ==> !EndsInCr(a + b))
  {
    if b == [] {
      NothingAfter(a);
    } else {
      CutLast(a, b);
    }
  }

  lemma CutLast(a: Text, b: Text)
    requires b != []
    ensures (a + b)[|a + b| - 1] == b[|b| - 1] && (a + b)[..|a + b| - 1] == a + b[..|b| - 1]
  {
  }

  /** The payload without the carriage return at the end of its line. */
  function PayloadWithoutCr(p: Payload): Payload { p.(text := WithoutCr(p.text)) }

  function BodyWithoutCr(body: seq<Payload>): seq<Payload> {
    if body == [] then [] else [PayloadWithoutCr(body[0])] + BodyWithoutCr(body[1..])
  }

  function HunkWithoutCr(it: Item): Item
    requires it.HunkItem?
  {
    it.(section := WithoutCr(it.section), body := BodyWithoutCr(it.body))
  }

  function HunksWithoutCr(hunks: seq<Item>): (r: seq<Item>)
    requires forall i :: 0 <= i < |hunks| ==> hunks[i].HunkItem?
    ensures |r| == |hunks| && forall i :: 0 <= i < |r| ==> r[i].HunkItem?
  {
    if hunks == [] then [] else [HunkWithoutCr(hunks[0])] + HunksWithoutCr(hunks[1..])
  }

  /** The same record with the final carriage return of every line of its hunks removed, and nothing else. */
  function RecordWithoutCr(p: Printed): Printed
    requires forall i :: 0 <= i < |HunksOf(p)| ==> HunksOf(p)[i].HunkItem?
  {
    if p.content.Hunks? then p.(content := Hunks(HunksWithoutCr(HunksOf(p)))) else p
  }

  ghost function DiffWithoutCr(ps: seq<Printed>): seq<Printed>
    requires AllPrinted(ps)
  {
    if ps == [] then [] else [RecordWithoutCr(ps[0])] + DiffWithoutCr(ps[1..])
  }

  /** What git itself writes around file names ends in no carriage return. */
  predicate CleanMeta(m: Meta) { !EndsInCr(m.rest) }

  predicate CleanLines(p: Printed) {
    && (forall i :: 0 <= i < |p.preface| ==> CleanMeta(p.preface[i]))
    && (forall i :: 0 <= i < |p.metadata| ==> CleanMeta(p.metadata[i]))
    && (p.kind.Created? || p.kind.Deleted? ==> !EndsInCr(p.kind.mode))
  }

  lemma PayloadEnd(p: Payload)
    requires LegalPayload(p)
    ensures WithoutCr(PayloadText(p)) == PayloadText(PayloadWithoutCr(p)) && LegalPayload(PayloadWithoutCr(p))
  {
    match p
    case Plus(text) => EndOfBoth([PLUS], text);
    case Minus(text) => EndOfBoth([MINUS], text);
    case Same(text) => EndOfBoth([SPACE], text);
    case Note(text, spaced) => EndOfBoth([BACKSLASH] + (if spaced then [SPACE] else []), text);
  }

  lemma {:induction false} BodyLinesWithoutCr(body: seq<Payload>)
    requires LegalBody(body)
    ensures AllWithoutCr(PayloadTexts(body)) == PayloadTexts(BodyWithoutCr(body)) && LegalBody(BodyWithoutCr(body))
    ensures |BodyWithoutCr(body)| == |body|
  {
    if body != [] {
      BodyLinesWithoutCr(body[1..]);
      PayloadEnd(body[0]);
      assert PayloadTexts(body)[1..] == PayloadTexts(body[1..]);
      assert BodyWithoutCr(body)[1..] == BodyWithoutCr(body[1..]);
    }
  }

  lemma HunkEnd(it: Item)
    requires it.HunkItem? && IsHeader(it.header) && LegalBody(it.body)
    ensures AllWithoutCr(ItemLines(it)) == ItemLines(HunkWithoutCr(it)) && LegalBody(HunkWithoutCr(it).body)
  {
    var head, texts := HeaderText(it.header), PayloadTexts(it.body);
    assert head[|head| - 1] == AT;
    EndOfBoth(head, it.section);
    BodyLinesWithoutCr(it.body);
    assert ([head + it.section] + texts)[1..] == texts;
  }

  lemma {:induction false} HunksLines(hunks: seq<Item>)
    requires LegalHunks(hunks)
    ensures AllWithoutCr(ItemsLines(hunks)) == ItemsLines(HunksWithoutCr(hunks)) && LegalHunks(HunksWithoutCr(hunks))
  {
    if hunks != [] {
      HunksLines(hunks[1..]);
      HunkEnd(hunks[0]);
      AllWithoutCrBoth(ItemLines(hunks[0]), ItemsLines(hunks[1..]));
      assert HunksWithoutCr(hunks)[1..] == HunksWithoutCr(hunks[1..]);
    }
  }

  // ----- lines git writes itself -----

  ghost predicate NoCr(lines: seq<Text>) { forall i :: 0 <= i < |lines| ==> !EndsInCr(lines[i]) }

  lemma {:induction false} CleanUnchanged(lines: seq<Text>)
    requires NoCr(lines)
    ensures AllWithoutCr(lines) == lines
  {
    if lines != [] {
      CleanUnchanged(lines[1..]);
      assert lines == [lines[0]] + lines[1..];
    }
  }

  lemma NameEnds(side: Unit, n: Name)
    ensures !EndsInCr(BareText(n)) && !EndsInCr(SideText(side, n)) && !EndsInCr(NameLine(side, n))
  {
    if n.styles.None? {
      PlainUnits(n.path);
      var path := PathText(n);
      assert !MustQuote(path[|path| - 1]);
      EndOfBoth([side, 47], path);
    }
    EndOfBoth(SideText(side, n), if HasSpace(n) then [TAB] else []);
  }

  lemma KeywordEnds(key: Key)
    ensures !EndsInCr(Ascii(Keyword(key)))
  {
    var word := Keyword(key);
    assert word[|word| - 1] == ' ';
  }

  lemma FieldEnds(f: Field)
    requires !EndsInCr(f.value)
    ensures !EndsInCr(FieldText(f))
  {
    KeywordEnds(f.key);
    EndOfBoth(Ascii(Keyword(f.key)), f.value);
  }

  lemma MetaEnds(m: Meta)
    requires CleanMeta(m)
    ensures !EndsInCr(MetaText(m))
  {
    var word := MetaWord(m);
    assert word[|word| - 1] == ' ';
    EndOfBoth(Ascii(word), m.rest);
  }

  lemma BinaryEnds(kind: Kind)
    ensures !EndsInCr(BinaryText(kind))
  {
    var x := if kind.Created? then DEV_NULL else SideText(A, Source(kind));
    var y := if kind.Deleted? then DEV_NULL else SideText(B, Target(kind));
    DifferEnds();
    LastOfFive(Ascii("Binary files "), x, Ascii(" and "), y, Ascii(" differ"));
  }

  lemma DifferEnds()
    ensures var end := Ascii(" differ"); |end| == 7 && end[6] == 114
  {
  }

  lemma LastOfFive(a: Text, b: Text, c: Text, d: Text, e: Text)
    requires e != []
    ensures var line := a + (b + (c + (d + e))); line != [] && line[|line| - 1] == e[|e| - 1]
  {
    LastStays(d, e);
    LastStays(c, d + e);
    LastStays(b, c + (d + e));
    LastStays(a, b + (c + (d + e)));
  }

  lemma LastStays(a: Text, b: Text)
    requires b != []
    ensures a + b != [] && (a + b)[|a + b| - 1] == b[|b| - 1]
  {
  }

  lemma HeaderEnds(kind: Kind)
    ensures !EndsInCr(RecordHeader(kind))
  {
    NameEnds(B, Target(kind));
    var y := SideText(B, Target(kind));
    LastStays([32], y);
    LastStays(SideText(A, Source(kind)), [32] + y);
    LastStays(GitPath.RECORD_START, SideText(A, Source(kind)) + ([32] + y));
  }

  ghost predicate CleanItems(items: seq<Item>) {
    forall i :: 0 <= i < |items| ==> |ItemLines(items[i])| == 1 && !EndsInCr(ItemLines(items[i])[0])
  }

  lemma {:induction false} CleanItemsLines(items: seq<Item>)
    requires CleanItems(items)
    ensures NoCr(ItemsLines(items))
  {
    if items != [] { CleanItemsLines(items[1..]); }
  }

  lemma {:induction false} MetadataClean(metadata: seq<Meta>)
    requires forall i :: 0 <= i < |metadata| ==> CleanMeta(metadata[i])
    ensures CleanItems(MetadataItems(metadata))
  {
    if metadata != [] {
      MetaEnds(metadata[0]);
      MetadataClean(metadata[1..]);
    }
  }

  lemma EntryClean(f: Field)
    requires !EndsInCr(f.value)
    ensures |ItemLines(Entry(f))| == 1 && !EndsInCr(ItemLines(Entry(f))[0])
  {
    FieldEnds(f);
  }

  lemma KindClean(kind: Kind)
    requires kind.Created? || kind.Deleted? ==> !EndsInCr(kind.mode)
    ensures CleanItems(KindItems(kind))
  {
    match kind
    case Edited(_) =>
    case Created(_, mode) => EntryClean(Field(NewMode, mode));
    case Deleted(_, mode) => EntryClean(Field(DeletedMode, mode));
    case Moved(from, to) =>
      NameEnds(A, from);
      NameEnds(B, to);
      EntryClean(Field(RenameFrom, BareText(from)));
      EntryClean(Field(RenameTo, BareText(to)));
    case Copied(from, to) =>
      NameEnds(A, from);
      NameEnds(B, to);
      EntryClean(Field(CopyFrom, BareText(from)));
      EntryClean(Field(CopyTo, BareText(to)));
  }

  lemma BaseClean(p: Printed)
    requires CleanLines(p)
    ensures AllWithoutCr(ItemsLines(Base(p))) == ItemsLines(Base(p))
  {
    MetadataClean(p.preface);
    MetadataClean(p.metadata);
    KindClean(p.kind);
    CleanItemsLines(Base(p));
    CleanUnchanged(ItemsLines(Base(p)));
  }

  lemma ContentClean(p: Printed)
    ensures AllWithoutCr(ContentLines(p)) == ContentLines(p)
  {
    NameEnds(A, Source(p.kind));
    NameEnds(B, Target(p.kind));
    FieldEnds(SourceField(p.kind));
    FieldEnds(TargetField(p.kind));
    BinaryEnds(p.kind);
    CleanUnchanged(ContentLines(p));
  }

  // ----- whole texts -----

  lemma RecordLines(p: Printed)
    requires IsPrinted(p) && CleanLines(p)
    ensures IsPrinted(RecordWithoutCr(p)) && AllWithoutCr(BodyLines(p, 0)) == BodyLines(RecordWithoutCr(p), 0)
  {
    var q, hunks := RecordWithoutCr(p), HunksOf(p);
    BaseClean(p);
    ContentClean(p);
    HunksLines(hunks);
    NothingAfter(hunks);
    NothingAfter(HunksOf(q));
    AllWithoutCrBoth(ContentLines(p), ItemsLines(hunks));
    AllWithoutCrBoth(ItemsLines(Base(p)), ContentLines(p) + ItemsLines(hunks));
  }

  ghost predicate AllClean(ps: seq<Printed>) { forall i :: 0 <= i < |ps| ==> CleanLines(ps[i]) }

  lemma FirstRecordLines(header: Text, body: seq<Text>, rest: seq<Text>)
    requires !EndsInCr(header)
    ensures AllWithoutCr([header] + (body + rest)) == [header] + (AllWithoutCr(body) + AllWithoutCr(rest))
  {
    AllWithoutCrBoth(body, rest);
    assert ([header] + (body + rest))[1..] == body + rest;
  }

  lemma MorePrinted(p: Printed, ps: seq<Printed>)
    requires IsPrinted(p) && AllPrinted(ps)
    ensures AllPrinted([p] + ps) && ([p] + ps)[1..] == ps
  {
  }

  lemma {:induction false} DiffLines(ps: seq<Printed>)
    requires AllPrinted(ps) && AllClean(ps)
    ensures |DiffWithoutCr(ps)| == |ps| && AllPrinted(DiffWithoutCr(ps))
    ensures AllWithoutCr(PrintedLines(ps, 0)) == PrintedLines(DiffWithoutCr(ps), 0)
  {
    if ps != [] {
      var header, body, rest := RecordHeader(ps[0].kind), BodyLines(ps[0], 0), PrintedLines(ps[1..], 0);
      DiffLines(ps[1..]);
      RecordLines(ps[0]);
      HeaderEnds(ps[0].kind);
      FirstRecordLines(header, body, rest);
      MorePrinted(RecordWithoutCr(ps[0]), DiffWithoutCr(ps[1..]));
    }
  }

  lemma {:induction false} ItemsLinesBoth(a: seq<Item>, b: seq<Item>)
    ensures ItemsLines(a + b) == ItemsLines(a) + ItemsLines(b)
  {
    if a == [] {
      NothingAfter(b);
    } else {
      assert (a + b)[1..] == a[1..] + b;
      ItemsLinesBoth(a[1..], b);
      Assoc(ItemLines(a[0]), ItemsLines(a[1..]), ItemsLines(b));
    }
  }

  lemma OneBlank(p: Printed)
    ensures BodyLines(p, 1) == BodyLines(p, 0) + [[]]
  {
    var hunks := HunksOf(p);
    assert Blanks(1) == [Passed([])] && ItemsLines(Blanks(1)) == [[]];
    ItemsLinesBoth(hunks, Blanks(1));
    NothingAfter(hunks);
    Assoc(ContentLines(p), ItemsLines(hunks), [[]]);
    Assoc(ItemsLines(Base(p)), ContentLines(p) + ItemsLines(hunks), [[]]);
  }

  lemma {:induction false} LastBlank(ps: seq<Printed>)
    requires ps != []
    ensures PrintedLines(ps, 1) == PrintedLines(ps, 0) + [[]]
  {
    var header, body := RecordHeader(ps[0].kind), BodyLines(ps[0], 0);
    if |ps| == 1 {
      OneBlank(ps[0]);
      NothingAfter(body);
      NothingAfter(BodyLines(ps[0], 1));
      assert PrintedLines(ps[1..], 0) == [] && PrintedLines(ps[1..], 1) == [];
      Assoc([header], body, [[]]);
    } else {
      LastBlank(ps[1..]);
      Assoc(body, PrintedLines(ps[1..], 0), [[]]);
      Assoc([header], body + PrintedLines(ps[1..], 0), [[]]);
    }
  }

  lemma LinesParsed(rules: Rules, lines: seq<Text>)
    requires NoLf(lines)
    ensures Parse(rules, Ended(lines)) == ParseLines(rules, AllWithoutCr(lines) + [[]])
  {
    EndedRead(lines);
  }

  /** What the parser makes of the text of any diff git prints: what it would make of the same records with
      the final carriage return of each content line removed, and nothing else changed. */
  lemma TextReadExactly(rules: Rules, ps: seq<Printed>)
    requires ps != [] && AllPrinted(ps) && AllClean(ps)
    requires NoLf(PrintedLines(ps, 0))
    ensures AllPrinted(DiffWithoutCr(ps)) && Parse(rules, Ended(PrintedLines(ps, 0))) == AllVerdicts(rules, DiffWithoutCr(ps))
  {
    LinesParsed(rules, PrintedLines(ps, 0));
    DiffLines(ps);
    LastBlank(DiffWithoutCr(ps));
    PrintedReadExactly(rules, DiffWithoutCr(ps), 1);
  }

  /** So a printed text is accepted, and shown record by record, exactly when every record can be shown. */
  lemma TextIsShownExactly(rules: Rules, ps: seq<Printed>)
    requires ps != [] && AllPrinted(ps) && AllClean(ps) && RefusesTabs(rules)
    requires NoLf(PrintedLines(ps, 0))
    ensures AllPrinted(DiffWithoutCr(ps))
    ensures var d := Parse(rules, Ended(PrintedLines(ps, 0)));
      && (d.Ok? <==> AllShowable(rules, ps))
      && (d.Ok? ==> ShowsAll(rules, d.value, DiffWithoutCr(ps)))
  {
    TextReadExactly(rules, ps);
    PrintedReadExactly(rules, DiffWithoutCr(ps), 1);
    PrintedIsShownExactly(rules, DiffWithoutCr(ps), 1);
    SameShowable(rules, ps);
  }

  lemma {:induction false} SameShowable(rules: Rules, ps: seq<Printed>)
    requires AllPrinted(ps)
    ensures |DiffWithoutCr(ps)| == |ps| && (AllShowable(rules, DiffWithoutCr(ps)) <==> AllShowable(rules, ps))
  {
    if ps != [] {
      SameShowable(rules, ps[1..]);
      assert DiffWithoutCr(ps)[1..] == DiffWithoutCr(ps[1..]);
      ShowableFirst(rules, ps);
      ShowableFirst(rules, DiffWithoutCr(ps));
    }
  }
}
