/** Records as `git diff` prints them, and what the parser makes of them.

    How git writes a record is defined here on its own: names plain or quoted, a TAB behind each name with a
    space on the two name lines before the hunks, and none elsewhere. */
module DiffPrinted {
  import opened Wrappers
  import opened Unicode
  import opened SessionReview
  import opened DiffParse
  import opened DiffGrammar
  import GitPath
  import Utf8

  const TAB: Unit := 9

  // ----- names -----

  /** A path of code points, plain or with a style of quoting for each. */
  datatype AnyName = Name(path: seq<nat>, styles: Option<seq<GitPath.Style>>)

  /** Control characters, quotation marks and backslashes are never written as themselves. */
  predicate MustQuote(cp: nat) { cp < 32 || cp == 127 || cp == 34 || cp == 92 }

  predicate IsName(n: AnyName) {
    && n.path != [] && GitPath.Scalars(n.path) && Utf8.REPLACEMENT !in n.path
    && match n.styles
       case None => forall i :: 0 <= i < |n.path| ==> !MustQuote(n.path[i])
       case Some(styles) =>
         && |styles| == |n.path|
         && forall i :: 0 <= i < |n.path| ==>
              GitPath.StyleFits(n.path[i], styles[i]) && (styles[i].AsItself? ==> !MustQuote(n.path[i]))
  }

  type Name = n: AnyName | IsName(n) witness Name([97], None)

  function PathText(n: Name): Text { Utf8.Utf16All(n.path) }

  predicate HasSpace(n: Name) { 32 in n.path }

  /** The name as such, as in `rename to`. */
  function BareText(n: Name): Text {
    if n.styles.None? then PathText(n) else GitPath.Quoted(GitPath.QuotePath(n.path, n.styles.value))
  }

  const A: Unit := 97
  const B: Unit := 98

  /** The name behind `a/` or `b/`. */
  function SideText(side: Unit, n: Name): Text {
    if n.styles.None? then [side, 47] + PathText(n) else GitPath.Quoted(GitPath.QuoteSide(side, n.path, n.styles.value))
  }

  /** What follows `--- ` or `+++ `. */
  function NameLine(side: Unit, n: Name): Text { SideText(side, n) + if HasSpace(n) then [TAB] else [] }

  // ----- records -----

  datatype Kind =
    | Edited(name: Name)
    | Created(name: Name, mode: Text)
    | Deleted(name: Name, mode: Text)
    | Moved(from: Name, to: Name)
    | Copied(from: Name, to: Name)

  function Source(kind: Kind): Name { if kind.Moved? || kind.Copied? then kind.from else kind.name }

  function Target(kind: Kind): Name { if kind.Moved? || kind.Copied? then kind.to else kind.name }

  datatype Meta = Index(rest: Text) | OldMode(rest: Text) | AnotherMode(rest: Text) | Similarity(rest: Text) | Dissimilarity(rest: Text)

  /** The hunks behind the two name lines, a mark in their place, or nothing. */
  datatype Content = Hunks(hunks: seq<Item>) | Binary | Nothing

  datatype Printed = Printed(kind: Kind, preface: seq<Meta>, metadata: seq<Meta>, content: Content)

  ghost predicate LegalHunks(hunks: seq<Item>) {
    forall i :: 0 <= i < |hunks| ==> hunks[i].HunkItem? && IsHeader(hunks[i].header) && LegalBody(hunks[i].body)
  }

  ghost predicate IsPrinted(p: Printed) { p.content.Hunks? ==> LegalHunks(p.content.hunks) }

  function MetaWord(m: Meta): (word: string)
    ensures forall i :: 0 <= i < |word| ==> word[i] as int < 128
  {
    match m
    case Index(_) => "index "
    case OldMode(_) => "old mode "
    case AnotherMode(_) => "new mode "
    case Similarity(_) => "similarity index "
    case Dissimilarity(_) => "dissimilarity index "
  }

  function MetaText(m: Meta): Text { Ascii(MetaWord(m)) + m.rest }

  function RecordHeader(kind: Kind): Text {
    GitPath.RECORD_START + (SideText(A, Source(kind)) + ([32] + SideText(B, Target(kind))))
  }

  function BinaryText(kind: Kind): Text {
    Ascii("Binary files ") + ((if kind.Created? then DEV_NULL else SideText(A, Source(kind)))
      + (Ascii(" and ") + ((if kind.Deleted? then DEV_NULL else SideText(B, Target(kind))) + Ascii(" differ"))))
  }

  function SourceField(kind: Kind): Field { Field(OldName, if kind.Created? then DEV_NULL else NameLine(A, Source(kind))) }

  function TargetField(kind: Kind): Field { Field(NewName, if kind.Deleted? then DEV_NULL else NameLine(B, Target(kind))) }

  function KindItems(kind: Kind): seq<Item> {
    match kind
    case Edited(_) => []
    case Created(_, mode) => [Entry(Field(NewMode, mode))]
    case Deleted(_, mode) => [Entry(Field(DeletedMode, mode))]
    case Moved(from, to) => [Entry(Field(RenameFrom, BareText(from))), Entry(Field(RenameTo, BareText(to)))]
    case Copied(from, to) => [Entry(Field(CopyFrom, BareText(from))), Entry(Field(CopyTo, BareText(to)))]
  }

  function MetadataItems(metadata: seq<Meta>): seq<Item> {
    if metadata == [] then [] else [Passed(MetaText(metadata[0]))] + MetadataItems(metadata[1..])
  }

  /** Everything between the first line and the content. */
  function Base(p: Printed): seq<Item> { MetadataItems(p.preface) + (KindItems(p.kind) + MetadataItems(p.metadata)) }

  function ContentLines(p: Printed): seq<Text> {
    match p.content
    case Hunks(_) => [FieldText(SourceField(p.kind)), FieldText(TargetField(p.kind))]
    case Binary => [BinaryText(p.kind)]
    case Nothing => []
  }

  function HunksOf(p: Printed): seq<Item> { if p.content.Hunks? then p.content.hunks else [] }

  function Blanks(n: nat): seq<Item> { if n == 0 then [] else [Passed([])] + Blanks(n - 1) }

  /** The lines of a record behind its first one, with blank lines at the end. */
  function BodyLines(p: Printed, blanks: nat): seq<Text> {
    ItemsLines(Base(p)) + (ContentLines(p) + ItemsLines(HunksOf(p) + Blanks(blanks)))
  }

  /** A whole diff, with blank lines at the very end. */
  function PrintedLines(ps: seq<Printed>, blanks: nat): seq<Text> {
    if ps == [] then []
    else [RecordHeader(ps[0].kind)] + (BodyLines(ps[0], if |ps| == 1 then blanks else 0) + PrintedLines(ps[1..], blanks))
  }

  // ----- what is made of them -----

  function ShownHunks(rules: Rules, hunks: seq<Item>): seq<Hunk>
    requires forall i :: 0 <= i < |hunks| ==> hunks[i].HunkItem?
  {
    if hunks == [] then []
    else [Hunk(HeaderText(hunks[0].header), CarriedBody(rules, hunks[0].body))] + ShownHunks(rules, hunks[1..])
  }

  function ShownKind(kind: Kind): Change {
    match kind
    case Edited(_) => FileModified
    case Created(_, _) => FileAdded
    case Deleted(_, _) => FileDeleted
    case Moved(_, _) => FileRenamed
    case Copied(_, _) => FileAdded
  }

  /** The file the record is about. */
  function AboutName(kind: Kind): Name { if kind.Deleted? then Source(kind) else Target(kind) }

  /** The path it is shown under: where the name line gives it, the TAB counts as part of it. */
  function ShownPath(p: Printed): Text {
    PathText(AboutName(p.kind)) + if p.content.Hunks? && HasSpace(AboutName(p.kind)) then [TAB] else []
  }

  predicate QuotedWithSpace(n: Name) { n.styles.Some? && HasSpace(n) }

  /** A line the parser cannot read: a name line whose quoted name has a space, or a binary mark whose names
      hold a line separator. */
  predicate Unreadable(p: Printed) {
    match p.content
    case Hunks(_) =>
      (!p.kind.Created? && QuotedWithSpace(Source(p.kind))) || (!p.kind.Deleted? && QuotedWithSpace(Target(p.kind)))
    case Binary => exists i :: 0 <= i < |BinaryText(p.kind)| && IsTerminator(BinaryText(p.kind)[i])
    case Nothing => false
  }

  function FileFor(rules: Rules, p: Printed): File
    requires forall i :: 0 <= i < |HunksOf(p)| ==> HunksOf(p)[i].HunkItem?
  {
    File(ShownPath(p), ShownKind(p.kind), p.content.Binary?, ShownHunks(rules, HunksOf(p)), 0)
  }

  function Counting(file: File): ParsedDiff { ParsedDiff([file], InHunks(file.hunks, Added), InHunks(file.hunks, Removed)) }

  function Verdict(rules: Rules, p: Printed): Result<ParsedDiff, Failure>
    requires forall i :: 0 <= i < |HunksOf(p)| ==> HunksOf(p)[i].HunkItem?
  {
    if Unreadable(p) then Err(Unparsable)
    else if !rules.isRelative(ShownPath(p)) then Err(OutsideWorkingTree)
    else Ok(Counting(FileFor(rules, p)))
  }

  ghost predicate AllPrinted(ps: seq<Printed>) { forall i :: 0 <= i < |ps| ==> IsPrinted(ps[i]) }

  /** The files of all records; the first one that cannot be shown refuses the whole diff. */
  ghost function AllVerdicts(rules: Rules, ps: seq<Printed>): Result<ParsedDiff, Failure>
    requires AllPrinted(ps)
  {
    if ps == [] then Ok(ParsedDiff([], 0, 0))
    else
      var first := Verdict(rules, ps[0]);
      if first.Err? then first else Onto(first.value, AllVerdicts(rules, ps[1..]))
  }

  // ----- reading names -----

  lemma {:induction false} PlainUnits(cps: seq<nat>)
    requires GitPath.Scalars(cps) && forall i :: 0 <= i < |cps| ==> !MustQuote(cps[i])
    ensures var t := Utf8.Utf16All(cps); |t| >= |cps| && forall i :: 0 <= i < |t| ==> !MustQuote(t[i])
  {
    if cps != [] { PlainUnits(cps[1..]); }
  }

  lemma BareRead(n: Name)
    ensures Decoded(BareText(n)) == Some(PathText(n))
  {
    if n.styles.None? {
      PlainUnits(n.path);
    } else {
      GitPath.UnquoteUndoesQuoting(n.path, n.styles.value);
    }
  }

  lemma SideRead(side: Unit, n: Name)
    requires side == A || side == B
    ensures Decoded(SideText(side, n)) == Some([side, 47] + PathText(n))
  {
    if n.styles.Some? {
      GitPath.NoReplacement(n.path);
      GitPath.SideSpells(side, n.path, n.styles.value);
      GitPath.UnquoteSpelled(GitPath.QuoteSide(side, n.path, n.styles.value));
    }
  }

  /** The TAB behind a name becomes part of a plain path, and makes a quoted one unreadable. */
  lemma NameLineRead(side: Unit, n: Name)
    requires side == A || side == B
    ensures NameLine(side, n) != DEV_NULL
    ensures Decoded(NameLine(side, n))
      == if QuotedWithSpace(n) then None else Some([side, 47] + (PathText(n) + if HasSpace(n) then [TAB] else []))
  {
    SideRead(side, n);
    var name, tab := SideText(side, n), if HasSpace(n) then [TAB] else [];
    NothingAfter(name);
    NothingAfter(PathText(n));
    assert NameLine(side, n)[0] == name[0] && name[0] != DEV_NULL[0];
    if n.styles.None? {
      Assoc([side, 47], PathText(n), tab);
    } else if HasSpace(n) {
      assert (name + [TAB])[|name + [TAB]| - 1] == TAB && (name + [TAB])[0] == GitPath.QUOTE;
    }
  }

  lemma PrefixStripped(side: Unit, path: Text)
    requires side == A || side == B
    ensures GitPath.StripDiffPrefix([side, 47] + path) == path
  {
    assert ([side, 47] + path)[..2] == [side, 47] && ([side, 47] + path)[2..] == path;
  }

  lemma PlainlyNamed(n: Name)
    ensures HeaderPath(RecordHeader(Edited(n))) == Some(PathText(n)) && StartsRecord(RecordHeader(Edited(n)))
  {
    if n.styles.None? {
      var path := PathText(n);
      PlainUnits(n.path);
      var rest := GitPath.PlainNames(path);
      assert rest == [A, 47] + path + [32] + [B, 47] + path;
      Assoc([A, 47] + path, [32], [B, 47]);
      Assoc([A, 47] + path, [32] + [B, 47], path);
      Assoc([32], [B, 47], path);
      assert RecordHeader(Edited(n)) == GitPath.RECORD_START + rest;
      GitPath.PlainHeader(rest, path);
    } else {
      var source, target := GitPath.QuoteSide(A, n.path, n.styles.value), GitPath.QuoteSide(B, n.path, n.styles.value);
      GitPath.NoReplacement(n.path);
      GitPath.SideSpells(A, n.path, n.styles.value);
      GitPath.SideSpells(B, n.path, n.styles.value);
      GitPath.QuotedHeader(source, target);
      PrefixStripped(B, PathText(n));
    }
  }

  // ----- reading the lines before the hunks -----

  /** Items that stand on their own, whatever follows them. */
  ghost predicate LegalFront(rules: Rules, r: Record, front: seq<Item>)
    decreases |front|
  {
    front != [] ==>
      && StandsAlone(r, front[0])
      && LegalFront(rules, AfterItem(rules, r, front[0]), front[1..])
  }

  lemma {:induction false} AfterBoth(rules: Rules, r: Record, first: seq<Item>, rest: seq<Item>)
    ensures AfterItems(rules, r, first + rest) == AfterItems(rules, AfterItems(rules, r, first), rest)
    decreases |first|
  {
    if first == [] {
      NothingAfter(rest);
    } else {
      assert (first + rest)[1..] == first[1..] + rest;
      AfterBoth(rules, AfterItem(rules, r, first[0]), first[1..], rest);
    }
  }

  lemma ItemFirst(rules: Rules, r: Record, it: Item, rest: seq<Item>, last: bool)
    requires LegalItem(r, it, ItemsLines(rest), last) && Legal(rules, AfterItem(rules, r, it), rest, last)
    ensures Legal(rules, r, [it] + rest, last)
  {
    assert ([it] + rest)[1..] == rest;
  }

  ghost predicate StandsAlone(r: Record, it: Item) {
    (it.Entry? || it.Mark? || (it.Passed? && RoleOf(it.line).Metadata?)) && LegalItem(r, it, [], false)
  }

  lemma LoneFirst(rules: Rules, r: Record, it: Item, rest: seq<Item>, last: bool)
    requires StandsAlone(r, it) && Legal(rules, AfterItem(rules, r, it), rest, last)
    ensures Legal(rules, r, [it] + rest, last)
  {
    assert LegalItem(r, it, ItemsLines(rest), last);
    ItemFirst(rules, r, it, rest, last);
  }

  lemma HeadFirst<T>(front: seq<T>, rest: seq<T>)
    requires front != []
    ensures front + rest == [front[0]] + (front[1..] + rest)
  {
  }

  lemma {:induction false} FrontFirst(rules: Rules, r: Record, front: seq<Item>, rest: seq<Item>, last: bool)
    requires LegalFront(rules, r, front) && Legal(rules, AfterItems(rules, r, front), rest, last)
    ensures Legal(rules, r, front + rest, last)
    decreases |front|
  {
    if front == [] {
      NothingAfter(rest);
    } else {
      HeadFirst(front, rest);
      FrontFirst(rules, AfterItem(rules, r, front[0]), front[1..], rest, last);
      LoneFirst(rules, r, front[0], front[1..] + rest, last);
    }
  }

  lemma {:induction false} BlanksBlank(n: nat)
    ensures BlankLines(ItemsLines(Blanks(n))) && |Blanks(n)| == n
  {
    if n > 0 {
      BlanksBlank(n - 1);
      assert Blanks(n)[1..] == Blanks(n - 1);
    }
  }

  lemma {:induction false} BlanksLegal(rules: Rules, r: Record, n: nat)
    ensures Legal(rules, r, Blanks(n), true)
  {
    if n > 0 {
      BlanksBlank(n - 1);
      BlanksLegal(rules, r, n - 1);
      ItemFirst(rules, r, Passed([]), Blanks(n - 1), true);
    }
  }

  lemma {:induction false} BlanksAfter(rules: Rules, r: Record, n: nat)
    ensures AfterItems(rules, r, Blanks(n)) == r
  {
    if n > 0 {
      BlanksAfter(rules, r, n - 1);
      assert Blanks(n)[1..] == Blanks(n - 1);
    }
  }

  lemma {:induction false} HunksLegal(rules: Rules, r: Record, hunks: seq<Item>, n: nat, last: bool)
    requires LegalHunks(hunks) && (hunks != [] ==> !r.binary) && (n > 0 ==> last)
    ensures Legal(rules, r, hunks + Blanks(n), last)
    decreases |hunks|
  {
    if hunks == [] {
      NothingAfter(Blanks(n));
      BlanksLegal(rules, r, n);
      BlanksBlank(n);
    } else {
      var it := hunks[0];
      HeadFirst(hunks, Blanks(n));
      HunksLegal(rules, AfterItem(rules, r, it), hunks[1..], n, last);
      assert [it] + hunks[1..] == hunks;
      HunkFirst(rules, r, it, hunks[1..], n, last);
    }
  }

  lemma LaterHunksLegal(it: Item, hunks: seq<Item>)
    requires LegalHunks([it] + hunks)
    ensures LegalHunks(hunks) && it.HunkItem? && IsHeader(it.header) && LegalBody(it.body)
  {
    var all := [it] + hunks;
    assert all[0] == it && forall i :: 0 <= i < |hunks| ==> all[i + 1] == hunks[i];
  }

  lemma HunkFirst(rules: Rules, r: Record, it: Item, hunks: seq<Item>, n: nat, last: bool)
    requires LegalHunks([it] + hunks) && !r.binary
    requires Legal(rules, AfterItem(rules, r, it), hunks + Blanks(n), last)
    ensures Legal(rules, r, [it] + (hunks + Blanks(n)), last)
  {
    LaterHunksLegal(it, hunks);
    HunkEnds(hunks, n);
    ItemFirst(rules, r, it, hunks + Blanks(n), last);
  }

  lemma {:induction false} HunksAfter(rules: Rules, r: Record, hunks: seq<Item>)
    requires forall i :: 0 <= i < |hunks| ==> hunks[i].HunkItem?
    ensures var end := AfterItems(rules, r, hunks);
      end.names == r.names && end.binary == r.binary && end.hunks == r.hunks + ShownHunks(rules, hunks)
    decreases |hunks|
  {
    if hunks == [] {
      NothingAfter(r.hunks);
    } else {
      HunksAfter(rules, AfterItem(rules, r, hunks[0]), hunks[1..]);
      Assoc(r.hunks, [Hunk(HeaderText(hunks[0].header), CarriedBody(rules, hunks[0].body))], ShownHunks(rules, hunks[1..]));
    }
  }

  /** Neither a hunk header nor a blank line could belong to a hunk before it. */
  lemma HunkEnds(hunks: seq<Item>, n: nat)
    requires LegalHunks(hunks)
    ensures var lines := ItemsLines(hunks + Blanks(n)); lines != [] ==> !IsPayload(lines[0])
  {
    if hunks != [] {
      HeaderStarts(hunks[0].header, hunks[0].section);
    } else {
      NothingAfter(Blanks(n));
    }
  }

  lemma OneItem(rules: Rules, r: Record, it: Item)
    requires StandsAlone(r, it)
    ensures LegalFront(rules, r, [it]) && AfterItems(rules, r, [it]) == AfterItem(rules, r, it)
  {
    Alone(it);
  }

  lemma TwoItems(rules: Rules, r: Record, first: Item, second: Item)
    requires StandsAlone(r, first) && StandsAlone(AfterItem(rules, r, first), second)
    ensures LegalFront(rules, r, [first, second])
    ensures AfterItems(rules, r, [first, second]) == AfterItem(rules, AfterItem(rules, r, first), second)
  {
    OneItem(rules, AfterItem(rules, r, first), second);
    assert [first, second][1..] == [second];
  }

  lemma TailOfBoth<T>(a: seq<T>, b: seq<T>)
    requires a != []
    ensures (a + b)[1..] == a[1..] + b && (a + b)[0] == a[0]
  {
  }

  lemma {:induction false} LegalFronts(rules: Rules, r: Record, a: seq<Item>, b: seq<Item>)
    requires LegalFront(rules, r, a) && LegalFront(rules, AfterItems(rules, r, a), b)
    ensures LegalFront(rules, r, a + b)
    decreases |a|
  {
    if a == [] {
      NothingAfter(b);
    } else {
      LegalFronts(rules, AfterItem(rules, r, a[0]), a[1..], b);
      TailOfBoth(a, b);
    }
  }

  /** Items that stand on their own are read one by one, whatever follows. */
  lemma {:induction false} FrontRead(rules: Rules, r: Record, front: seq<Item>, after: seq<Text>, last: bool)
    requires LegalFront(rules, r, front)
    ensures ReadRecord(rules, Lexed(ItemsLines(front) + after), r, last) == ReadRecord(rules, Lexed(after), AfterItems(rules, r, front), last)
    decreases |front|
  {
    if front == [] {
      NothingAfter(after);
    } else {
      var it, later := front[0], ItemsLines(front[1..]) + after;
      LegalAnywhere(r, it, later, last);
      OutsideRead(rules, r, it, later, last);
      Assoc(ItemLines(it), ItemsLines(front[1..]), after);
      FrontRead(rules, AfterItem(rules, r, it), front[1..], after, last);
    }
  }

  lemma LegalAnywhere(r: Record, it: Item, after: seq<Text>, last: bool)
    requires StandsAlone(r, it)
    ensures LegalItem(r, it, after, last)
  {
  }

  function KindNames(kind: Kind): Names {
    match kind
    case Edited(_) => FRESH.names
    case Created(_, _) => FRESH.names.(newFile := true)
    case Deleted(_, _) => FRESH.names.(deletedFile := true)
    case Moved(_, to) => FRESH.names.(renamed := true, renamedPath := Some(PathText(to)))
    case Copied(_, to) => FRESH.names.(copied := true, renamedPath := Some(PathText(to)))
  }

  lemma KindRead(rules: Rules, kind: Kind)
    ensures LegalFront(rules, FRESH, KindItems(kind))
    ensures AfterItems(rules, FRESH, KindItems(kind)) == FRESH.(names := KindNames(kind))
  {
    match kind
    case Edited(_) =>
    case Created(_, mode) => OneItem(rules, FRESH, Entry(Field(NewMode, mode)));
    case Deleted(_, mode) => OneItem(rules, FRESH, Entry(Field(DeletedMode, mode)));
    case Moved(from, to) => RenameRead(rules, from, to);
    case Copied(from, to) => CopyRead(rules, from, to);
  }

  lemma RenameRead(rules: Rules, from: Name, to: Name)
    ensures LegalFront(rules, FRESH, KindItems(Moved(from, to)))
    ensures AfterItems(rules, FRESH, KindItems(Moved(from, to))) == FRESH.(names := KindNames(Moved(from, to)))
  {
    BareRead(to);
    TwoItems(rules, FRESH, Entry(Field(RenameFrom, BareText(from))), Entry(Field(RenameTo, BareText(to))));
  }

  lemma CopyRead(rules: Rules, from: Name, to: Name)
    ensures LegalFront(rules, FRESH, KindItems(Copied(from, to)))
    ensures AfterItems(rules, FRESH, KindItems(Copied(from, to))) == FRESH.(names := KindNames(Copied(from, to)))
  {
    BareRead(to);
    TwoItems(rules, FRESH, Entry(Field(CopyFrom, BareText(from))), Entry(Field(CopyTo, BareText(to))));
  }

  /** The first characters of a metadata line. */
  ghost predicate Opens(line: Text, word: string) {
    |line| >= 5 && |word| >= 5 && forall i :: 0 <= i < 5 ==> line[i] == word[i] as int
  }

  lemma MetaOpens(m: Meta)
    ensures Opens(MetaText(m), MetaWord(m)) && Starts(MetaText(m), MetaWord(m))
  {
  }

  lemma {:induction false} StartsWithOne(line: Text, words: seq<string>, i: nat)
    requires i < |words| && Starts(line, words[i])
    ensures StartsWithAny(line, words)
  {
    if i > 0 { StartsWithOne(line, words[1..], i - 1); }
  }

  lemma MetaIsMetadata(m: Meta)
    ensures IsMetadata(MetaText(m))
  {
    MetaOpens(m);
    var i := match m case Index(_) => 0 case OldMode(_) => 1 case AnotherMode(_) => 2 case Similarity(_) => 3 case Dissimilarity(_) => 4;
    assert METADATA[i] == MetaWord(m);
    StartsWithOne(MetaText(m), METADATA, i);
  }

  lemma WordsDiffer(m: Meta, k: Key) returns (j: nat)
    ensures j < 5 && j < |Keyword(k)| && j < |MetaWord(m)| && Keyword(k)[j] != MetaWord(m)[j]
  {
    j := if k.NewMode? && m.AnotherMode? then 4 else if k.DeletedMode? && m.Dissimilarity? then 1 else 0;
  }

  lemma MetaIsNoField(m: Meta, k: Key, line: Text)
    requires Opens(line, MetaWord(m))
    ensures !Starts(line, Keyword(k))
  {
    var j := WordsDiffer(m, k);
    assert line[j] == MetaWord(m)[j] as int;
  }

  lemma MetaIsNothingElse(m: Meta, line: Text)
    requires Opens(line, MetaWord(m))
    ensures !StartsRecord(line) && !IsBinaryMark(line) && !StartsHunk(line)
  {
    assert line[0] == MetaWord(m)[0] as int && line[2] == MetaWord(m)[2] as int;
    assert line[0] != RECORD_START[0] || line[2] != RECORD_START[2];
  }

  lemma MetaRole(m: Meta)
    ensures RoleOf(MetaText(m)).Metadata?
  {
    var line := MetaText(m);
    MetaOpens(m);
    MetaIsMetadata(m);
    forall i | 0 <= i < |KEYS| ensures !Starts(line, Keyword(KEYS[i])) { MetaIsNoField(m, KEYS[i], line); }
    NoFieldAmong(KEYS, line);
    MetaIsNothingElse(m, line);
  }

  lemma {:induction false} MetadataRead(rules: Rules, r: Record, metadata: seq<Meta>)
    ensures LegalFront(rules, r, MetadataItems(metadata)) && AfterItems(rules, r, MetadataItems(metadata)) == r
  {
    if metadata != [] {
      MetadataRead(rules, r, metadata[1..]);
      MetaRole(metadata[0]);
      assert MetadataItems(metadata)[1..] == MetadataItems(metadata[1..]);
    }
  }

  lemma BaseRead(rules: Rules, p: Printed)
    ensures LegalFront(rules, FRESH, Base(p)) && AfterItems(rules, FRESH, Base(p)) == FRESH.(names := KindNames(p.kind))
  {
    var r := FRESH.(names := KindNames(p.kind));
    KindRead(rules, p.kind);
    MetadataRead(rules, r, p.metadata);
    LegalFronts(rules, FRESH, KindItems(p.kind), MetadataItems(p.metadata));
    AfterBoth(rules, FRESH, KindItems(p.kind), MetadataItems(p.metadata));
    MetadataRead(rules, FRESH, p.preface);
    LegalFronts(rules, FRESH, MetadataItems(p.preface), KindItems(p.kind) + MetadataItems(p.metadata));
    AfterBoth(rules, FRESH, MetadataItems(p.preface), KindItems(p.kind) + MetadataItems(p.metadata));
  }

  // ----- reading the content -----

  /** The path a name line gives, if it can be read. */
  function Stripped(name: Text): Option<Text> {
    var path := Decoded(name);
    if path.None? then None else Some(GitPath.StripDiffPrefix(path.value))
  }

  lemma NameStripped(side: Unit, n: Name)
    requires side == A || side == B
    ensures Stripped(NameLine(side, n)) == if QuotedWithSpace(n) then None else Some(PathText(n) + if HasSpace(n) then [TAB] else [])
  {
    NameLineRead(side, n);
    if !QuotedWithSpace(n) { PrefixStripped(side, PathText(n) + if HasSpace(n) then [TAB] else []); }
  }

  /** A field is read as a line of its own; one that cannot be decoded refuses the record. */
  lemma FieldRead(rules: Rules, r: Record, f: Field, after: seq<Text>, last: bool)
    ensures var noted := Noted(r.names, f, Decoded(f.value));
      ReadRecord(rules, Lexed([FieldText(f)] + after), r, last)
        == if noted.None? then None else ReadRecord(rules, Lexed(after), r.(names := noted.value), last)
  {
    LexEntry(f);
    LineRead(rules, r, FieldText(f), after, last);
  }

  /** A line that is not blank and opens no hunk. */
  lemma LineRead(rules: Rules, r: Record, line: Text, after: seq<Text>, last: bool)
    requires !OpensHunk(r, RoleOf(line)) && !RoleOf(line).Blank?
    ensures var next := ReadLine(r, RoleOf(line), false);
      ReadRecord(rules, Lexed([line] + after), r, last) == if next.None? then None else ReadRecord(rules, Lexed(after), next.value, last)
  {
    var lines := [line] + after;
    assert lines[1..] == after;
    var tokens := Lexed(lines);
    assert tokens[0] == Lex(line) && tokens[1..] == Lexed(after);
    assert !AllBlank(tokens);
  }

  function NamesAfter(n: Names, kind: Kind): Names {
    var s := if kind.Created? then n.(sourceIsNull := true) else n.(source := Stripped(NameLine(A, Source(kind))));
    if kind.Deleted? then s.(targetIsNull := true) else s.(target := Stripped(NameLine(B, Target(kind))))
  }

  lemma SourceNoted(n: Names, kind: Kind)
    ensures var f, name := SourceField(kind), Stripped(NameLine(A, Source(kind)));
      Noted(n, f, Decoded(f.value))
        == if kind.Created? then Some(n.(sourceIsNull := true)) else if name.None? then None else Some(n.(source := name))
  {
    NameLineRead(A, Source(kind));
  }

  lemma TargetNoted(n: Names, kind: Kind)
    ensures var f, name := TargetField(kind), Stripped(NameLine(B, Target(kind)));
      Noted(n, f, Decoded(f.value))
        == if kind.Deleted? then Some(n.(targetIsNull := true)) else if name.None? then None else Some(n.(target := name))
  {
    NameLineRead(B, Target(kind));
  }

  lemma TwoFieldsRead(rules: Rules, r: Record, first: Field, second: Field, after: seq<Text>, last: bool)
    ensures var noted := Noted(r.names, first, Decoded(first.value));
      ReadRecord(rules, Lexed([FieldText(first), FieldText(second)] + after), r, last)
        == if noted.None? then None
           else
             var again := Noted(noted.value, second, Decoded(second.value));
             if again.None? then None else ReadRecord(rules, Lexed(after), r.(names := again.value), last)
  {
    var rest := [FieldText(second)] + after;
    assert [FieldText(first), FieldText(second)] + after == [FieldText(first)] + rest;
    FieldRead(rules, r, first, rest, last);
    var noted := Noted(r.names, first, Decoded(first.value));
    if noted.Some? { FieldRead(rules, r.(names := noted.value), second, after, last); }
  }

  /** What both name lines note, none when one of them cannot be read. */
  lemma BothNoted(n: Names, p: Printed)
    requires p.content.Hunks?
    ensures var first, second := SourceField(p.kind), TargetField(p.kind);
      var noted := Noted(n, first, Decoded(first.value));
      var again := if noted.None? then None else Noted(noted.value, second, Decoded(second.value));
      again == if Unreadable(p) then None else Some(NamesAfter(n, p.kind))
  {
    NameStripped(A, Source(p.kind));
    NameStripped(B, Target(p.kind));
    SourceNoted(n, p.kind);
    var noted := Noted(n, SourceField(p.kind), Decoded(SourceField(p.kind).value));
    if noted.Some? { TargetNoted(noted.value, p.kind); }
  }

  lemma NamesRead(rules: Rules, r: Record, p: Printed, after: seq<Text>, last: bool)
    requires p.content.Hunks?
    ensures ReadRecord(rules, Lexed(ContentLines(p) + after), r, last)
      == if Unreadable(p) then None else ReadRecord(rules, Lexed(after), r.(names := NamesAfter(r.names, p.kind)), last)
  {
    TwoFieldsRead(rules, r, SourceField(p.kind), TargetField(p.kind), after, last);
    BothNoted(r.names, p);
  }

  // ----- binary marks -----

  lemma {:induction false} NoneStarts(line: Text)
    requires |line| >= 1 && line[0] == 66
    ensures FieldOf(line).None? && !IsMetadata(line) && !StartsRecord(line) && !StartsHunk(line)
  {
    forall i | 0 <= i < |KEYS| ensures !Starts(line, Keyword(KEYS[i])) {
      assert Keyword(KEYS[i])[0] as int != line[0];
    }
    NoFieldAmong(KEYS, line);
    forall i | 0 <= i < |METADATA| ensures !Starts(line, METADATA[i]) {
      assert METADATA[i][0] as int != line[0];
    }
    StartsWithNone(line, METADATA);
  }

  ghost predicate HasTerminator(t: Text) { exists i :: 0 <= i < |t| && IsTerminator(t[i]) }

  lemma Between(first: Text, middle: Text, end: Text)
    ensures var line := first + (middle + end);
      && (forall i :: 0 <= i < |first| ==> line[i] == first[i])
      && (forall i :: |first| + |middle| <= i < |line| ==> line[i] == end[i - |first| - |middle|])
      && line[|line| - |end|..] == end
  {
  }

  lemma FixedEnds()
    ensures var first, end := Ascii("Binary files "), Ascii(" differ");
      && |first| == 13 && |end| == 7 && first[0] == 66
      && !HasTerminator(first) && !HasTerminator(end) && Starts(first, "Binary files ") && Is(end, " differ")
  {
  }

  /** A text between the two fixed ends of a binary mark. */
  lemma MarkedText(middle: Text)
    ensures var line := Ascii("Binary files ") + (middle + Ascii(" differ"));
      && line[0] == 66
      && (IsBinaryMark(line) <==> !HasTerminator(line))
  {
    var first, end := Ascii("Binary files "), Ascii(" differ");
    FixedEnds();
    MarkBetween(first, middle, end);
  }

  lemma MarkBetween(first: Text, middle: Text, end: Text)
    requires |first| == 13 && |end| == 7 && first[0] == 66
    requires !HasTerminator(first) && !HasTerminator(end) && Starts(first, "Binary files ") && Is(end, " differ")
    ensures var line := first + (middle + end); line[0] == 66 && (IsBinaryMark(line) <==> !HasTerminator(line))
  {
    Between(first, middle, end);
    MarkExactly(first + (middle + end), first, end);
  }

  lemma MarkExactly(line: Text, first: Text, end: Text)
    requires |line| >= 20 && |first| == 13 && |end| == 7 && first[0] == 66
    requires !HasTerminator(first) && !HasTerminator(end) && Starts(first, "Binary files ") && Is(end, " differ")
    requires (forall i :: 0 <= i < 13 ==> line[i] == first[i]) && line[|line| - 7..] == end
    requires forall i :: |line| - 7 <= i < |line| ==> line[i] == end[i - (|line| - 7)]
    ensures line[0] == 66 && (IsBinaryMark(line) <==> !HasTerminator(line))
  {
    assert Starts(line, "Binary files ");
    assert !Is(line, "GIT binary patch") by { assert line[0] == first[0]; }
    assert forall i :: 0 <= i < 13 ==> !IsTerminator(first[i]);
    assert forall i :: 0 <= i < 7 ==> !IsTerminator(end[i]);
    assert forall i :: |line| - 7 <= i < |line| ==> !IsTerminator(line[i]);
  }

  lemma BinaryRole(kind: Kind)
    ensures RoleOf(BinaryText(kind)) == if HasTerminator(BinaryText(kind)) then Other else BinaryMark
  {
    var x := if kind.Created? then DEV_NULL else SideText(A, Source(kind));
    var y := if kind.Deleted? then DEV_NULL else SideText(B, Target(kind));
    Assoc(Ascii(" and "), y, Ascii(" differ"));
    Assoc(x, Ascii(" and ") + y, Ascii(" differ"));
    var middle := x + (Ascii(" and ") + y);
    assert BinaryText(kind) == Ascii("Binary files ") + (middle + Ascii(" differ"));
    MarkedText(middle);
    NoneStarts(BinaryText(kind));
  }

  lemma BinaryRead(rules: Rules, r: Record, p: Printed, after: seq<Text>, last: bool)
    requires p.content.Binary? && !r.binary
    ensures ReadRecord(rules, Lexed(ContentLines(p) + after), r, last)
      == if Unreadable(p) then None else ReadRecord(rules, Lexed(after), r.(binary := true), last)
  {
    BinaryRole(p.kind);
    LineRead(rules, r, BinaryText(p.kind), after, last);
  }

  // ----- reading a record -----

  /** What is known of the file once its hunks begin, if the lines before can be read. */
  function ContentRecord(p: Printed): Record {
    var n := KindNames(p.kind);
    FRESH.(names := if p.content.Hunks? then NamesAfter(n, p.kind) else n, binary := p.content.Binary?)
  }

  lemma ContentRead(rules: Rules, p: Printed, after: seq<Text>, last: bool)
    ensures ReadRecord(rules, Lexed(ContentLines(p) + after), FRESH.(names := KindNames(p.kind)), last)
      == if Unreadable(p) then None else ReadRecord(rules, Lexed(after), ContentRecord(p), last)
  {
    var r := FRESH.(names := KindNames(p.kind));
    match p.content
    case Hunks(_) => NamesRead(rules, r, p, after, last);
    case Binary => BinaryRead(rules, r, p, after, last);
    case Nothing => NothingAfter(after);
  }

  lemma TailRead(rules: Rules, r: Record, hunks: seq<Item>, blanks: nat, last: bool)
    requires LegalHunks(hunks) && (hunks != [] ==> !r.binary) && (blanks > 0 ==> last)
    ensures var end := ReadRecord(rules, Lexed(ItemsLines(hunks + Blanks(blanks))), r, last);
      end.Some? && end.value.names == r.names && end.value.binary == r.binary && end.value.hunks == r.hunks + ShownHunks(rules, hunks)
  {
    HunksLegal(rules, r, hunks, blanks, last);
    ItemsRead(rules, r, hunks + Blanks(blanks), last);
    AfterBoth(rules, r, hunks, Blanks(blanks));
    HunksAfter(rules, r, hunks);
    BlanksAfter(rules, AfterItems(rules, r, hunks), blanks);
  }

  /** What is read of the lines of a printed record. */
  lemma BodyRead(rules: Rules, p: Printed, blanks: nat, last: bool)
    requires IsPrinted(p) && (blanks > 0 ==> last)
    ensures var end := ReadRecord(rules, Lexed(BodyLines(p, blanks)), FRESH, last);
      if Unreadable(p) then end.None?
      else end.Some? && end.value.names == ContentRecord(p).names && end.value.binary == p.content.Binary?
           && end.value.hunks == ShownHunks(rules, HunksOf(p))
  {
    var tail := ItemsLines(HunksOf(p) + Blanks(blanks));
    BaseRead(rules, p);
    FrontRead(rules, FRESH, Base(p), ContentLines(p) + tail, last);
    ContentRead(rules, p, tail, last);
    if !Unreadable(p) {
      TailRead(rules, ContentRecord(p), HunksOf(p), blanks, last);
      NothingAfter(ShownHunks(rules, HunksOf(p)));
    }
  }

  lemma RecordCounts(rules: Rules, body: seq<Token>, last: bool)
    requires ReadRecord(rules, body, FRESH, last).Some?
    ensures Counted(ReadRecord(rules, body, FRESH, last).value)
  {
    RecordCounted(rules, body, FRESH, last);
  }

  lemma PathFound(p: Printed)
    requires !Unreadable(p)
    ensures PathOfRecord(HeaderPath(RecordHeader(p.kind)), ContentRecord(p).names) == Some(ShownPath(p))
    ensures ChangeOf(ContentRecord(p).names) == ShownKind(p.kind)
  {
    NothingAfter(PathText(AboutName(p.kind)));
    if p.content.Hunks? {
      NameStripped(A, Source(p.kind));
      NameStripped(B, Target(p.kind));
    } else if !p.kind.Moved? && !p.kind.Copied? {
      PlainlyNamed(p.kind.name);
      assert RecordHeader(p.kind) == RecordHeader(Edited(p.kind.name));
    }
  }

  /** A printed record contributes exactly its verdict. */
  lemma RecordVerdict(rules: Rules, p: Printed, blanks: nat, last: bool)
    requires IsPrinted(p) && (blanks > 0 ==> last)
    ensures RecordFile(rules, HeaderPath(RecordHeader(p.kind)), Lexed(BodyLines(p, blanks)), last) == Verdict(rules, p)
  {
    BodyRead(rules, p, blanks, last);
    if !Unreadable(p) {
      PathFound(p);
      RecordCounts(rules, Lexed(BodyLines(p, blanks)), last);
    }
  }

  // ----- whole diffs -----

  lemma NoStartsBoth(a: seq<Text>, b: seq<Text>)
    requires NoRecordStarts(a) && NoRecordStarts(b)
    ensures NoRecordStarts(a + b)
  {
    LexedConcat(a, b);
  }

  lemma {:induction false} BodyApart(body: seq<Payload>)
    requires LegalBody(body)
    ensures NoRecordStarts(PayloadTexts(body))
  {
    if body != [] {
      BodyApart(body[1..]);
      PayloadExactly(PayloadText(body[0]), body[0]);
      OneApart(PayloadText(body[0]));
      NoStartsBoth([PayloadText(body[0])], PayloadTexts(body[1..]));
    }
  }

  lemma OneApart(line: Text)
    requires IsPayload(line) || !RoleOf(line).RecordStart?
    ensures NoRecordStarts([line])
  {
    assert Lexed([line]) == [Lex(line)];
    if Lex(line).role.RecordStart? { RecordApart(line); }
  }


  lemma BlanksApart(n: nat)
    ensures NoRecordStarts(ItemsLines(Blanks(n)))
  {
    BlanksBlank(n);
    BlankLexed(ItemsLines(Blanks(n)));
  }

  lemma {:induction false} HunksApart(hunks: seq<Item>, blanks: nat)
    requires LegalHunks(hunks)
    ensures NoRecordStarts(ItemsLines(hunks + Blanks(blanks)))
    decreases |hunks|
  {
    if hunks == [] {
      NothingAfter(Blanks(blanks));
      BlanksApart(blanks);
    } else {
      HeadFirst(hunks, Blanks(blanks));
      HunksApart(hunks[1..], blanks);
      HunkApart(hunks[0]);
      OneMoreItem(hunks[0], hunks[1..] + Blanks(blanks));
    }
  }

  lemma OneMoreItem(it: Item, rest: seq<Item>)
    requires NoRecordStarts(ItemLines(it)) && NoRecordStarts(ItemsLines(rest))
    ensures NoRecordStarts(ItemsLines([it] + rest))
  {
    assert ([it] + rest)[1..] == rest;
    NoStartsBoth(ItemLines(it), ItemsLines(rest));
  }

  lemma HunkApart(it: Item)
    requires it.HunkItem? && IsHeader(it.header) && LegalBody(it.body)
    ensures NoRecordStarts(ItemLines(it))
  {
    var line := HeaderText(it.header) + it.section;
    HeaderStarts(it.header, it.section);
    HeaderRead(it.header, it.section);
    LexHunk(line, it.header, it.section);
    OneApart(line);
    BodyApart(it.body);
    NoStartsBoth([line], PayloadTexts(it.body));
  }

  lemma {:induction false} FrontApart(rules: Rules, r: Record, front: seq<Item>)
    requires LegalFront(rules, r, front)
    ensures NoRecordStarts(ItemsLines(front))
    decreases |front|
  {
    if front != [] {
      var it := front[0];
      if it.Entry? { LexEntry(it.field); }
      OneApart(ItemLines(it)[0]);
      FrontApart(rules, AfterItem(rules, r, it), front[1..]);
      NoStartsBoth(ItemLines(it), ItemsLines(front[1..]));
    }
  }

  lemma ContentApart(p: Printed)
    ensures NoRecordStarts(ContentLines(p))
  {
    match p.content
    case Hunks(_) =>
      LexEntry(SourceField(p.kind));
      LexEntry(TargetField(p.kind));
      OneApart(FieldText(SourceField(p.kind)));
      OneApart(FieldText(TargetField(p.kind)));
      NoStartsBoth([FieldText(SourceField(p.kind))], [FieldText(TargetField(p.kind))]);
    case Binary =>
      BinaryRole(p.kind);
      OneApart(BinaryText(p.kind));
    case Nothing =>
  }

  lemma BodyLinesApart(rules: Rules, p: Printed, blanks: nat)
    requires IsPrinted(p)
    ensures NoRecordStarts(BodyLines(p, blanks))
  {
    var tail := ItemsLines(HunksOf(p) + Blanks(blanks));
    BaseRead(rules, p);
    FrontApart(rules, FRESH, Base(p));
    ContentApart(p);
    HunksApart(HunksOf(p), blanks);
    NoStartsBoth(ContentLines(p), tail);
    NoStartsBoth(ItemsLines(Base(p)), ContentLines(p) + tail);
  }

  lemma HeaderIsStart(kind: Kind)
    ensures StartsRecord(RecordHeader(kind)) && RoleOf(RecordHeader(kind)) == RecordStart(HeaderPath(RecordHeader(kind)))
  {
    LexRecord(RecordHeader(kind));
  }

  lemma {:induction false} RecordsVerdict(rules: Rules, ps: seq<Printed>, blanks: nat)
    requires AllPrinted(ps)
    ensures var tokens := Lexed(PrintedLines(ps, blanks));
      && (tokens == [] <==> ps == []) && (tokens != [] ==> tokens[0].role.RecordStart?)
      && ReadRecords(rules, tokens) == AllVerdicts(rules, ps)
    decreases |ps|
  {
    if ps != [] {
      var n, header := if |ps| == 1 then blanks else 0, RecordHeader(ps[0].kind);
      var body, after := BodyLines(ps[0], n), PrintedLines(ps[1..], blanks);
      RecordsVerdict(rules, ps[1..], blanks);
      BodyLinesApart(rules, ps[0], n);
      RecordVerdict(rules, ps[0], n, |ps| == 1);
      HeaderIsStart(ps[0].kind);
      RecordLexed(header, body, after);
      RecordTokensRead(rules, Lex(header), Lexed(body), Lexed(after));
    }
  }

  /** What the parser makes of any diff git prints: the verdicts of its records, in order. */
  lemma PrintedReadExactly(rules: Rules, ps: seq<Printed>, blanks: nat)
    requires AllPrinted(ps)
    ensures ParseLines(rules, PrintedLines(ps, blanks)) == AllVerdicts(rules, ps)
  {
    var lines := PrintedLines(ps, blanks);
    RecordsVerdict(rules, ps, blanks);
    PreambleRead(rules, [], Lexed(lines));
    NothingAfter(Lexed(lines));
  }

  // ----- which records are shown as they should be -----

  /** A path with a control character in it is not taken for one inside the working tree. */
  ghost predicate RefusesTabs(rules: Rules) { forall t: Text :: TAB in t ==> !rules.isRelative(t) }

  /** The record is shown as the file it is about: neither is the space in a path lost in a TAB, nor is one of
      its lines unreadable. */
  predicate Showable(p: Printed) {
    match p.content
    case Hunks(_) =>
      && !HasSpace(AboutName(p.kind))
      && (!p.kind.Created? ==> !QuotedWithSpace(Source(p.kind))) && (!p.kind.Deleted? ==> !QuotedWithSpace(Target(p.kind)))
    case Binary => forall i :: 0 <= i < |BinaryText(p.kind)| ==> !IsTerminator(BinaryText(p.kind)[i])
    case Nothing => true
  }

  /** The file as it should be shown. */
  function OwnFile(rules: Rules, p: Printed): File
    requires forall i :: 0 <= i < |HunksOf(p)| ==> HunksOf(p)[i].HunkItem?
  {
    File(PathText(AboutName(p.kind)), ShownKind(p.kind), p.content.Binary?, ShownHunks(rules, HunksOf(p)), 0)
  }

  lemma VerdictExactly(rules: Rules, p: Printed)
    requires IsPrinted(p) && RefusesTabs(rules)
    ensures Verdict(rules, p).Ok? <==> Showable(p) && rules.isRelative(PathText(AboutName(p.kind)))
    ensures Verdict(rules, p).Ok? ==> Verdict(rules, p) == Ok(Counting(OwnFile(rules, p)))
  {
    var path := PathText(AboutName(p.kind));
    NothingAfter(path);
    assert TAB in path + [TAB] by { assert (path + [TAB])[|path|] == TAB; }
  }

  /** Every file as it should be, in order, and the counters those of the lines they carry. */
  ghost predicate ShowsAll(rules: Rules, d: ParsedDiff, ps: seq<Printed>)
    requires AllPrinted(ps)
  {
    && |d.files| == |ps| && (forall i :: 0 <= i < |ps| ==> d.files[i] == OwnFile(rules, ps[i]))
    && Honest(d)
  }

  ghost predicate AllShowable(rules: Rules, ps: seq<Printed>) {
    forall i :: 0 <= i < |ps| ==> Showable(ps[i]) && rules.isRelative(PathText(AboutName(ps[i].kind)))
  }

  lemma ShowableFirst(rules: Rules, ps: seq<Printed>)
    requires ps != []
    ensures AllShowable(rules, ps) <==>
      Showable(ps[0]) && rules.isRelative(PathText(AboutName(ps[0].kind))) && AllShowable(rules, ps[1..])
  {
    var rest := ps[1..];
    assert forall i :: 0 <= i < |rest| ==> rest[i] == ps[i + 1];
    assert forall i :: 0 < i < |ps| ==> ps[i] == rest[i - 1];
  }

  lemma {:induction false} AllVerdictsExactly(rules: Rules, ps: seq<Printed>)
    requires AllPrinted(ps) && RefusesTabs(rules)
    ensures AllVerdicts(rules, ps).Ok? <==> AllShowable(rules, ps)
    ensures AllVerdicts(rules, ps).Ok? ==>
      var files := AllVerdicts(rules, ps).value.files;
      |files| == |ps| && forall i :: 0 <= i < |ps| ==> files[i] == OwnFile(rules, ps[i])
    decreases |ps|
  {
    if ps != [] {
      VerdictExactly(rules, ps[0]);
      AllVerdictsExactly(rules, ps[1..]);
      ShowableFirst(rules, ps);
    }
  }

  /** A diff that git prints is accepted, and shows every record as the file it is about with all its hunks and
      lines, if and only if each record can be shown. One that cannot refuses the whole diff. */
  lemma PrintedIsShownExactly(rules: Rules, ps: seq<Printed>, blanks: nat)
    requires AllPrinted(ps) && RefusesTabs(rules)
    ensures var d := ParseLines(rules, PrintedLines(ps, blanks));
      && (d.Ok? <==> AllShowable(rules, ps))
      && (d.Ok? ==> ShowsAll(rules, d.value, ps))
  {
    PrintedReadExactly(rules, ps, blanks);
    RecordsVerdict(rules, ps, blanks);
    AllVerdictsExactly(rules, ps);
    var tokens := Lexed(PrintedLines(ps, blanks));
    if ReadRecords(rules, tokens).Ok? { RecordsCounted(rules, tokens); }
  }

  // ----- the rule for paths -----

  predicate IsControl(u: Unit) { u < 0x20 || 0x7F <= u < 0xA0 }

  predicate IsDirection(u: Unit) { u == 0x200E || u == 0x200F || 0x202A <= u <= 0x202E || 0x2066 <= u <= 0x2069 }

  predicate IsSlash(u: Unit) { u == 47 || u == 92 }

  function Segments(segment: Text, t: Text): seq<Text>
    decreases |t|
  {
    if t == [] then [segment]
    else if IsSlash(t[0]) then [segment] + Segments([], t[1..])
    else Segments(segment + [t[0]], t[1..])
  }

  function LowerAscii(t: Text): Text { seq(|t|, i requires 0 <= i < |t| => if 65 <= t[i] <= 90 then t[i] + 32 else t[i]) }

  /** `assertRepositoryRelativePath` */
  predicate RepositoryRelative(t: Text) {
    && 1 <= |t| <= 4096
    && !IsSlash(t[0]) && !(|t| >= 2 && (65 <= t[0] <= 90 || 97 <= t[0] <= 122) && t[1] == 58)
    && (forall i :: 0 <= i < |t| ==> !IsControl(t[i]) && !IsDirection(t[i]))
    && forall i :: 0 <= i < |Segments([], t)| ==> Segments([], t)[i] != [46, 46] && LowerAscii(Segments([], t)[i]) != [46, 103, 105, 116]
  }

  lemma RepositoryRuleRefusesTabs(rules: Rules)
    requires forall t: Text :: rules.isRelative(t) ==> RepositoryRelative(t)
    ensures RefusesTabs(rules)
  {
    forall t: Text | TAB in t ensures !rules.isRelative(t) {
      var i :| 0 <= i < |t| && t[i] == TAB;
      assert IsControl(t[i]);
    }
  }

  // ----- a space is enough -----

  function OneLineEdit(name: Name): Printed {
    var line := Range([49], None);
    Printed(Edited(name), [], [], Hunks([HunkItem(Header(line, line), [], [Minus([120]), Plus([121])])]))
  }

  lemma EditIsPrinted(name: Name)
    ensures IsPrinted(OneLineEdit(name)) && AllPrinted([OneLineEdit(name)])
  {
  }

  /** The first line behind the record header. */
  lemma EditNamesIt(name: Name)
    ensures BodyLines(OneLineEdit(name), 1)[0] == Ascii("--- ") + NameLine(A, name)
  {
    var p := OneLineEdit(name);
    assert ItemsLines(Base(p)) == [];
    assert ContentLines(p)[0] == FieldText(SourceField(p.kind));
  }

  lemma PlainWithSpace() returns (n: Name)
    ensures n.path == [97, 32, 98] && n.styles.None? && NameLine(A, n) == [97, 47, 97, 32, 98, TAB]
  {
    n := Name([97, 32, 98], None);
    PlainText();
  }

  lemma QuotedWithASpace() returns (n: Name)
    ensures n.path == [0xE9, 32, 98] && QuotedWithSpace(n) && NameLine(A, n)[|NameLine(A, n)| - 1] == TAB
  {
    n := Name([0xE9, 32, 98], Some([GitPath.InOctal, GitPath.AsItself, GitPath.AsItself]));
    assert 32 == n.path[1];
  }

  /** One edited file with a space in its name refuses the whole review: its plain name is read with the TAB
      behind it, and its quoted name, here with an acute accent in it, cannot be read at all. */
  lemma SpaceRefusesReview(rules: Rules) returns (plain: Name, quoted: Name)
    requires RefusesTabs(rules)
    ensures NameLine(A, plain) == [97, 47, 97, 32, 98, TAB] && BodyLines(OneLineEdit(plain), 1)[0] == Ascii("--- ") + NameLine(A, plain)
    ensures ParseLines(rules, PrintedLines([OneLineEdit(plain)], 1)) == Err(OutsideWorkingTree)
    ensures quoted.path == [0xE9, 32, 98] && NameLine(A, quoted)[|NameLine(A, quoted)| - 1] == TAB
    ensures ParseLines(rules, PrintedLines([OneLineEdit(quoted)], 1)) == Err(Unparsable)
  {
    plain := PlainWithSpace();
    quoted := QuotedWithASpace();
    assert 32 == plain.path[1];
    EditNamesIt(plain);
    EditRefused(rules, plain);
    EditRefused(rules, quoted);
  }

  lemma PlainText()
    ensures Utf8.Utf16All([97, 32, 98]) == [97, 32, 98]
  {
    assert [97, 32, 98][1..] == [32, 98] && [32, 98][1..] == [98] && [98][1..] == [];
  }

  /** What becomes of such an edit. */
  lemma EditRefused(rules: Rules, name: Name)
    requires RefusesTabs(rules) && HasSpace(name)
    ensures ParseLines(rules, PrintedLines([OneLineEdit(name)], 1)) == Err(if name.styles.Some? then Unparsable else OutsideWorkingTree)
  {
    var p := OneLineEdit(name);
    EditIsPrinted(name);
    PrintedReadExactly(rules, [p], 1);
    assert TAB in ShownPath(p) by { assert ShownPath(p)[|PathText(name)|] == TAB; }
    assert AllVerdicts(rules, [p]) == Verdict(rules, p);
  }
}
