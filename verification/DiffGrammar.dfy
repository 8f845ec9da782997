/** Which texts the diff parser accepts, what it makes of them, and that it drops no change. */
module DiffGrammar {
  import opened Wrappers
  import opened Unicode
  import opened SessionReview
  import opened DiffParse

  // ----- the texts that are read -----

  /** A piece of a record: a hunk with all its lines, or a single line outside of hunks. */
  datatype Item =
    | Mark(line: Text)
    | HunkItem(header: Header, section: Text, body: seq<Payload>)
    | Entry(field: Field)
    | Passed(line: Text)

  function PayloadTexts(body: seq<Payload>): seq<Text> {
    if body == [] then [] else [PayloadText(body[0])] + PayloadTexts(body[1..])
  }

  function ItemLines(it: Item): seq<Text> {
    match it
    case Mark(line) => [line]
    case HunkItem(header, section, body) => [HeaderText(header) + section] + PayloadTexts(body)
    case Entry(field) => [FieldText(field)]
    case Passed(line) => [line]
  }

  function ItemsLines(items: seq<Item>): seq<Text> {
    if items == [] then [] else ItemLines(items[0]) + ItemsLines(items[1..])
  }

  function CarriedBody(rules: Rules, body: seq<Payload>): seq<Line> {
    if body == [] then [] else [CarriedLine(rules, body[0])] + CarriedBody(rules, body[1..])
  }

  function AfterItem(rules: Rules, r: Record, it: Item): Record {
    match it
    case Mark(_) => r.(binary := true)
    case HunkItem(header, _, body) => AfterHunk(r, header, CarriedBody(rules, body))
    case Entry(field) =>
      var noted := Noted(r.names, field, Decoded(field.value));
      if noted.Some? then r.(names := noted.value) else r
    case Passed(_) => r
  }

  function AfterItems(rules: Rules, r: Record, items: seq<Item>): Record
    decreases |items|
  {
    if items == [] then r else AfterItems(rules, AfterItem(rules, r, items[0]), items[1..])
  }

  ghost predicate LegalBody(body: seq<Payload>) { forall i :: 0 <= i < |body| ==> LegalPayload(body[i]) }

  ghost predicate BlankLines(lines: seq<Text>) { forall i :: 0 <= i < |lines| ==> lines[i] == [] }

  /** `it` may stand where `r` has been read and the lines `after` follow. A hunk takes every line it can. */
  ghost predicate LegalItem(r: Record, it: Item, after: seq<Text>, last: bool) {
    match it
    case Mark(line) => RoleOf(line).BinaryMark?
    case HunkItem(header, _, body) => !r.binary && IsHeader(header) && LegalBody(body) && (after != [] ==> !IsPayload(after[0]))
    case Entry(field) => Noted(r.names, field, Decoded(field.value)).Some?
    case Passed(line) =>
      var role := RoleOf(line);
      || role.Metadata?
      || (line == [] && last && BlankLines(after))
      || (r.binary && !role.RecordStart? && !role.BinaryMark? && !role.Named?)
  }

  ghost predicate Legal(rules: Rules, r: Record, items: seq<Item>, last: bool)
    decreases |items|
  {
    items == [] || (LegalItem(r, items[0], ItemsLines(items[1..]), last) && Legal(rules, AfterItem(rules, r, items[0]), items[1..], last))
  }

  lemma {:induction false} LexedConcat(a: seq<Text>, b: seq<Text>)
    ensures Lexed(a + b) == Lexed(a) + Lexed(b)
  {
    if a == [] {
      NothingAfter(b);
    } else {
      assert (a + b)[1..] == a[1..] + b;
      LexedConcat(a[1..], b);
      Assoc([Lex(a[0])], Lexed(a[1..]), Lexed(b));
    }
  }

  /** What a line starts with settles that it is neither a record header nor a binary mark. */
  lemma NeitherRecordNorMark(line: Text)
    requires |line| >= 2 && (line[0] == 100 ==> line[1] == 101) && line[0] != 66 && line[0] != 71
    ensures !StartsRecord(line) && !IsBinaryMark(line)
  {
  }

  lemma HeaderStarts(header: Header, section: Text)
    ensures StartsHunk(HeaderText(header) + section)
  {
    HeaderPieces(header, section);
    var rest := RangeText(header.source) + (BETWEEN + (RangeText(header.target) + (CLOSING + section)));
    assert (OPENING + rest)[0] == AT && (OPENING + rest)[1] == AT;
  }

  lemma LexHunk(line: Text, header: Header, section: Text)
    requires StartsHunk(line) && ReadHeader(line) == Some((header, section))
    ensures RoleOf(line) == HunkStart(Some(header))
  {
    NeitherRecordNorMark(line);
  }

  /** What no field starts with. */
  ghost predicate OpensNothingElse(line: Text) {
    |line| >= 2 && (line[0] == 100 ==> line[1] == 101) && line[0] != 66 && line[0] != 71 && line[0] != AT
  }

  lemma EntryStarts(f: Field)
    ensures OpensNothingElse(FieldText(f))
  {
    var line := FieldText(f);
    assert line[0] == Keyword(f.key)[0] as int && line[1] == Keyword(f.key)[1] as int;
  }

  lemma LexEntry(f: Field)
    ensures RoleOf(FieldText(f)) == Named(f, Decoded(f.value))
  {
    FieldExactly(FieldText(f), f);
    EntryStarts(f);
    LexNamed(FieldText(f), f);
  }

  lemma LexNamed(line: Text, f: Field)
    requires FieldOf(line) == Some(f) && OpensNothingElse(line)
    ensures RoleOf(line) == Named(f, Decoded(f.value))
  {
    NeitherRecordNorMark(line);
  }

  lemma {:induction false} LexBody(rules: Rules, body: seq<Payload>)
    requires LegalBody(body)
    ensures var tokens := Lexed(PayloadTexts(body));
      |tokens| == |body| && AllPayload(tokens) && Carried(rules, tokens) == CarriedBody(rules, body)
  {
    if body != [] {
      LexBody(rules, body[1..]);
      LexedConcat([PayloadText(body[0])], PayloadTexts(body[1..]));
      PayloadExactly(PayloadText(body[0]), body[0]);
      var tokens := Lexed(PayloadTexts(body));
      assert tokens[1..] == Lexed(PayloadTexts(body[1..]));
    }
  }

  lemma BlankLex(line: Text)
    ensures RoleOf(line).Blank? <==> line == []
  {
    if line == [] {
      NoFieldAmong(KEYS, line);
      StartsWithNone(line, METADATA);
    }
  }

  lemma {:induction false} BlankLexed(lines: seq<Text>)
    ensures AllBlank(Lexed(lines)) <==> BlankLines(lines)
  {
    var tokens := Lexed(lines);
    if lines != [] {
      BlankLexed(lines[1..]);
      BlankLex(lines[0]);
      assert tokens[1..] == Lexed(lines[1..]);
      assert AllBlank(tokens) <==> tokens[0].role.Blank? && AllBlank(tokens[1..]);
      assert BlankLines(lines) <==> lines[0] == [] && BlankLines(lines[1..]);
    }
  }

  /** A record is read as its items say, whatever they are. */
  lemma {:induction false} ItemsRead(rules: Rules, r: Record, items: seq<Item>, last: bool)
    requires Legal(rules, r, items, last)
    ensures ReadRecord(rules, Lexed(ItemsLines(items)), r, last) == Some(AfterItems(rules, r, items))
    decreases |items|
  {
    if items != [] {
      var it, after := items[0], ItemsLines(items[1..]);
      ItemsRead(rules, AfterItem(rules, r, it), items[1..], last);
      if it.HunkItem? { HunkItemRead(rules, r, it, after, last); } else { OutsideRead(rules, r, it, after, last); }
    }
  }

  lemma HunkItemRead(rules: Rules, r: Record, it: Item, after: seq<Text>, last: bool)
    requires it.HunkItem? && LegalItem(r, it, after, last)
    ensures ReadRecord(rules, Lexed(ItemLines(it) + after), r, last) == ReadRecord(rules, Lexed(after), AfterItem(rules, r, it), last)
  {
    var line, texts := HeaderText(it.header) + it.section, PayloadTexts(it.body);
    HeaderStarts(it.header, it.section);
    HeaderRead(it.header, it.section);
    LexHunk(line, it.header, it.section);
    LexBody(rules, it.body);
    LexedConcat([line] + texts, after);
    LexedConcat([line], texts);
    assert Lexed([line]) == [Lex(line)];
    if after != [] { assert Lexed(after)[0].payload.None?; }
    HunkTokensRead(rules, r, Lex(line), Lexed(texts), Lexed(after), last);
  }

  lemma HunkTokensRead(rules: Rules, r: Record, head: Token, body: seq<Token>, after: seq<Token>, last: bool)
    requires OpensHunk(r, head.role) && AllPayload(body) && (after != [] ==> after[0].payload.None?)
    ensures ReadRecord(rules, [head] + body + after, r, last)
      == ReadRecord(rules, after, AfterHunk(r, head.role.header.value, Carried(rules, body)), last)
  {
    var tokens := [head] + body + after;
    var rest := tokens[1..];
    assert rest == body + after;
    assert rest[..|body|] == body && rest[|body|..] == after;
    BodyUnique(rest, |body|);
  }

  lemma OutsideRead(rules: Rules, r: Record, it: Item, after: seq<Text>, last: bool)
    requires !it.HunkItem? && LegalItem(r, it, after, last)
    ensures ReadRecord(rules, Lexed(ItemLines(it) + after), r, last) == ReadRecord(rules, Lexed(after), AfterItem(rules, r, it), last)
  {
    var lines := ItemLines(it) + after;
    var tokens := Lexed(lines);
    assert lines[1..] == after;
    assert tokens[1..] == Lexed(after) && tokens[0] == Lex(ItemLines(it)[0]);
    if it.Entry? { LexEntry(it.field); }
    if it.Passed? {
      BlankLexed(lines);
      assert BlankLines(lines) <==> lines[0] == [] && BlankLines(after);
    }
  }

  // ----- and no others -----

  /** The lines a hunk takes. */
  ghost function PayloadsOf(lines: seq<Text>): (body: seq<Payload>)
    ensures |body| <= |lines| && (|body| < |lines| ==> !IsPayload(lines[|body|]))
  {
    if lines == [] || !IsPayload(lines[0]) then [] else [PayloadOf(lines[0])] + PayloadsOf(lines[1..])
  }

  lemma {:induction false} BodySpelled(lines: seq<Text>)
    ensures var body := PayloadsOf(lines); LegalBody(body) && lines == PayloadTexts(body) + lines[|body|..]
  {
    var body := PayloadsOf(lines);
    if body != [] {
      BodySpelled(lines[1..]);
      PayloadExactly(lines[0], body[0]);
      assert body[1..] == PayloadsOf(lines[1..]);
      assert lines == [lines[0]] + lines[1..];
      Assoc([lines[0]], PayloadTexts(body[1..]), lines[|body|..]);
    }
  }

  ghost predicate NoStarts(tokens: seq<Token>) { forall i :: 0 <= i < |tokens| ==> !tokens[i].role.RecordStart? }

  ghost predicate NoRecordStarts(lines: seq<Text>) { NoStarts(Lexed(lines)) }

  /** The item that a line outside of hunks is. */
  ghost function OutsideItem(line: Text): Item {
    match RoleOf(line)
    case BinaryMark => Mark(line)
    case Named(field, _) => Entry(field)
    case _ => Passed(line)
  }

  lemma OutsideSpelled(rules: Rules, r: Record, line: Text, after: seq<Text>, last: bool)
    requires !OpensHunk(r, RoleOf(line)) && !RoleOf(line).RecordStart?
    requires ReadLine(r, RoleOf(line), last && BlankLines([line] + after)).Some?
    ensures var it := OutsideItem(line);
      && LegalItem(r, it, after, last) && ItemLines(it) == [line]
      && AfterItem(rules, r, it) == ReadLine(r, RoleOf(line), last && BlankLines([line] + after)).value
  {
    var role, lines := RoleOf(line), [line] + after;
    if role.Named? { FieldExactly(line, role.field); }
    assert BlankLines(lines) <==> lines[0] == [] && BlankLines(lines[1..]);
    assert lines[1..] == after;
  }

  /** The first item of lines that are read as a record. */
  lemma FirstItem(rules: Rules, lines: seq<Text>, r: Record, last: bool) returns (it: Item, after: seq<Text>)
    requires ReadRecord(rules, Lexed(lines), r, last).Some? && lines != [] && !RoleOf(lines[0]).RecordStart?
    ensures LegalItem(r, it, after, last) && lines == ItemLines(it) + after && ItemLines(it) != []
    ensures ReadRecord(rules, Lexed(after), AfterItem(rules, r, it), last).Some?
  {
    var line, rest := lines[0], lines[1..];
    assert lines == [line] + rest;
    if OpensHunk(r, RoleOf(line)) {
      var header, section := HeaderOfHunk(line);
      it, after := HunkSpelled(r, header, section, rest, last);
      HunkItemRead(rules, r, it, after, last);
    } else {
      BlankLexed(lines);
      assert Lexed(lines)[1..] == Lexed(rest);
      OutsideSpelled(rules, r, line, rest, last);
      it, after := OutsideItem(line), rest;
    }
  }

  lemma NoStartsLater(first: seq<Token>, after: seq<Token>)
    requires NoStarts(first + after)
    ensures NoStarts(after)
  {
    assert forall i :: 0 <= i < |after| ==> after[i] == (first + after)[|first| + i];
  }

  lemma RestStarts(lines: seq<Text>, first: seq<Text>, after: seq<Text>)
    requires NoRecordStarts(lines) && lines == first + after
    ensures NoRecordStarts(after)
  {
    LexedConcat(first, after);
    NoStartsLater(Lexed(first), Lexed(after));
  }

  /** Whatever lines are read as a record, they are the lines of some items. */
  lemma {:induction false} RecordSpelled(rules: Rules, lines: seq<Text>, r: Record, last: bool) returns (items: seq<Item>)
    requires ReadRecord(rules, Lexed(lines), r, last).Some? && NoRecordStarts(lines)
    ensures Legal(rules, r, items, last) && ItemsLines(items) == lines
    decreases |lines|
  {
    if lines == [] { return []; }
    LexedAt(lines, 0);
    var it, after := FirstItem(rules, lines, r, last);
    RestStarts(lines, ItemLines(it), after);
    var later := RecordSpelled(rules, after, AfterItem(rules, r, it), last);
    items := [it] + later;
    assert items[1..] == later;
  }

  lemma HunkSpelled(r: Record, header: Header, section: Text, rest: seq<Text>, last: bool) returns (it: Item, after: seq<Text>)
    requires !r.binary && IsHeader(header)
    ensures it.HunkItem? && LegalItem(r, it, after, last) && [HeaderText(header) + section] + rest == ItemLines(it) + after
  {
    var body := PayloadsOf(rest);
    BodySpelled(rest);
    it, after := HunkItem(header, section, body), rest[|body|..];
    Assoc([HeaderText(header) + section], PayloadTexts(body), after);
  }

  lemma HeaderOfHunk(line: Text) returns (header: Header, section: Text)
    requires RoleOf(line).HunkStart? && RoleOf(line).header.Some?
    ensures IsHeader(header) && line == HeaderText(header) + section
  {
    header, section := ReadHeader(line).value.0, ReadHeader(line).value.1;
    HeaderExactly(line, header, section);
  }

  // ----- whole diffs -----

  datatype RecordText = RecordText(header: Text, items: seq<Item>)

  function RecordsLines(ds: seq<RecordText>): seq<Text> {
    if ds == [] then [] else [ds[0].header] + (ItemsLines(ds[0].items) + RecordsLines(ds[1..]))
  }

  function Outcome(rules: Rules, d: RecordText): Record { AfterItems(rules, FRESH, d.items) }

  function Described(rules: Rules, d: RecordText): Result<ParsedDiff, Failure> {
    Contribution(rules, HeaderPath(d.header), Outcome(rules, d))
  }

  ghost predicate LegalRecords(rules: Rules, ds: seq<RecordText>) {
    ds != [] ==>
      && StartsRecord(ds[0].header) && NoRecordStarts(ItemsLines(ds[0].items))
      && Legal(rules, FRESH, ds[0].items, ds[1..] == [])
      && LegalRecords(rules, ds[1..])
  }

  /** What the records describe, each on its own; the first that names no usable path refuses them all. */
  function AllDescribed(rules: Rules, ds: seq<RecordText>): Result<ParsedDiff, Failure> {
    if ds == [] then Ok(ParsedDiff([], 0, 0))
    else
      var first := Described(rules, ds[0]);
      if first.Err? then first else Onto(first.value, AllDescribed(rules, ds[1..]))
  }

  lemma LexRecord(header: Text)
    requires StartsRecord(header)
    ensures RoleOf(header) == RecordStart(HeaderPath(header))
  {
  }

  lemma SectionUnique(tokens: seq<Token>, n: nat)
    requires n <= |tokens| && (forall i :: 0 <= i < n ==> !tokens[i].role.RecordStart?)
    requires n < |tokens| ==> tokens[n].role.RecordStart?
    ensures SectionLength(tokens) == n
  {
  }

  lemma RecordTokensRead(rules: Rules, head: Token, body: seq<Token>, after: seq<Token>)
    requires head.role.RecordStart? && (forall i :: 0 <= i < |body| ==> !body[i].role.RecordStart?)
    requires after != [] ==> after[0].role.RecordStart?
    ensures ReadRecords(rules, [head] + (body + after))
      == var first := RecordFile(rules, head.role.path, body, after == []);
         if first.Err? then first else Onto(first.value, ReadRecords(rules, after))
  {
    var tokens := [head] + (body + after);
    var rest := tokens[1..];
    assert rest == body + after;
    assert rest[..|body|] == body && rest[|body|..] == after;
    SectionUnique(rest, |body|);
  }

  lemma RecordLexed(header: Text, body: seq<Text>, after: seq<Text>)
    requires NoRecordStarts(body)
    ensures Lexed([header] + (body + after)) == [Lex(header)] + (Lexed(body) + Lexed(after))
    ensures forall i :: 0 <= i < |Lexed(body)| ==> !Lexed(body)[i].role.RecordStart?
  {
    LexedConcat([header], body + after);
    LexedConcat(body, after);
    assert Lexed([header]) == [Lex(header)];
  }

  lemma RecordsStart(rules: Rules, ds: seq<RecordText>)
    requires LegalRecords(rules, ds)
    ensures var tokens := Lexed(RecordsLines(ds)); (tokens == [] <==> ds == []) && (tokens != [] ==> tokens[0].role.RecordStart?)
  {
    if ds != [] { LexRecord(ds[0].header); }
  }

  lemma {:induction false} RecordsRead(rules: Rules, ds: seq<RecordText>)
    requires LegalRecords(rules, ds)
    ensures var tokens := Lexed(RecordsLines(ds)); tokens != [] ==> tokens[0].role.RecordStart?
    ensures ReadRecords(rules, Lexed(RecordsLines(ds))) == AllDescribed(rules, ds)
  {
    RecordsStart(rules, ds);
    if ds != [] {
      var header, body, after := ds[0].header, ItemsLines(ds[0].items), RecordsLines(ds[1..]);
      RecordsRead(rules, ds[1..]);
      RecordsStart(rules, ds[1..]);
      ItemsRead(rules, FRESH, ds[0].items, ds[1..] == []);
      LexRecord(header);
      RecordLexed(header, body, after);
      RecordTokensRead(rules, Lex(header), Lexed(body), Lexed(after));
    }
  }

  lemma {:induction false} RecordsSpelled(rules: Rules, lines: seq<Text>) returns (ds: seq<RecordText>)
    requires lines != [] ==> StartsRecord(lines[0])
    requires var tokens := Lexed(lines); (tokens != [] ==> tokens[0].role.RecordStart?) && ReadRecords(rules, tokens).Ok?
    ensures LegalRecords(rules, ds) && RecordsLines(ds) == lines
    decreases |lines|
  {
    if lines == [] { return []; }
    var header, body, after := FirstRecord(lines);
    RecordLexed(header, body, after);
    RecordTokensRead(rules, Lex(header), Lexed(body), Lexed(after));
    var later := RecordsSpelled(rules, after);
    var items := RecordSpelled(rules, body, FRESH, after == []);
    ds := [RecordText(header, items)] + later;
    assert ds[1..] == later;
  }

  lemma FirstRecord(lines: seq<Text>) returns (header: Text, body: seq<Text>, after: seq<Text>)
    requires lines != [] && StartsRecord(lines[0])
    ensures header == lines[0] && lines == [header] + (body + after) && NoRecordStarts(body)
    ensures RoleOf(header).RecordStart? && (after != [] ==> StartsRecord(after[0]) && RoleOf(after[0]).RecordStart?)
  {
    header := lines[0];
    LexRecord(header);
    var rest := lines[1..];
    var n := BodyOf(rest);
    body, after := rest[..n], rest[n..];
    assert lines == [header] + rest && rest == body + after;
    if after != [] { StartOfRecord(after[0]); }
  }

  lemma {:induction false} LexedCut(lines: seq<Text>, n: nat)
    requires n <= |lines|
    ensures lines == lines[..n] + lines[n..]
    ensures Lexed(lines[..n]) == Lexed(lines)[..n] && Lexed(lines[n..]) == Lexed(lines)[n..]
  {
    assert lines == lines[..n] + lines[n..];
    LexedConcat(lines[..n], lines[n..]);
  }

  lemma BodyOf(lines: seq<Text>) returns (n: nat)
    ensures n <= |lines| && NoRecordStarts(lines[..n]) && (n < |lines| ==> RoleOf(lines[n]).RecordStart?)
  {
    n := SectionLength(Lexed(lines));
    LexedCut(lines, n);
    if n < |lines| { LexedAt(lines, n); }
  }

  lemma StartOfRecord(line: Text)
    requires RoleOf(line).RecordStart?
    ensures StartsRecord(line)
  {
  }

  /** Lines before the first record: anything that cannot be taken for a change. */
  ghost predicate LegalPreamble(lines: seq<Text>) { NoStarts(Lexed(lines)) && NoneLooksLikePayload(Lexed(lines)) }

  /** A diff is parsed exactly when it is a preamble and then records, each made of items; the result is
      what the records describe. Every line belongs to an item: none is skipped. */
  lemma ParseExactly(rules: Rules, lines: seq<Text>, d: ParsedDiff)
    ensures ParseLines(rules, lines) == Ok(d)
      <==> exists pre, ds :: LegalPreamble(pre) && LegalRecords(rules, ds) && lines == pre + RecordsLines(ds)
                             && AllDescribed(rules, ds) == Ok(d)
  {
    if pre, ds :| LegalPreamble(pre) && LegalRecords(rules, ds) && lines == pre + RecordsLines(ds) && AllDescribed(rules, ds) == Ok(d) {
      DiffRead(rules, pre, ds);
    }
    if ParseLines(rules, lines) == Ok(d) {
      var pre, ds := DiffSpelled(rules, lines);
      DiffRead(rules, pre, ds);
    }
  }

  lemma DiffRead(rules: Rules, pre: seq<Text>, ds: seq<RecordText>)
    requires LegalPreamble(pre) && LegalRecords(rules, ds)
    ensures ParseLines(rules, pre + RecordsLines(ds)) == AllDescribed(rules, ds)
  {
    RecordsRead(rules, ds);
    LexedConcat(pre, RecordsLines(ds));
    PreambleRead(rules, Lexed(pre), Lexed(RecordsLines(ds)));
  }

  lemma PreambleRead(rules: Rules, pre: seq<Token>, tokens: seq<Token>)
    requires NoStarts(pre) && NoneLooksLikePayload(pre)
    requires tokens != [] ==> tokens[0].role.RecordStart?
    ensures ParseTokens(rules, pre + tokens) == ReadRecords(rules, tokens)
  {
    SectionUnique(pre + tokens, |pre|);
    assert (pre + tokens)[..|pre|] == pre && (pre + tokens)[|pre|..] == tokens;
  }

  lemma DiffSpelled(rules: Rules, lines: seq<Text>) returns (pre: seq<Text>, ds: seq<RecordText>)
    requires ParseLines(rules, lines).Ok?
    ensures LegalPreamble(pre) && LegalRecords(rules, ds) && lines == pre + RecordsLines(ds)
  {
    var rest;
    pre, rest := CutPreamble(rules, lines);
    ds := RecordsSpelled(rules, rest);
  }

  lemma CutPreamble(rules: Rules, lines: seq<Text>) returns (pre: seq<Text>, rest: seq<Text>)
    requires ParseLines(rules, lines).Ok?
    ensures LegalPreamble(pre) && lines == pre + rest
    ensures rest != [] ==> StartsRecord(rest[0]) && Lexed(rest)[0].role.RecordStart?
    ensures ReadRecords(rules, Lexed(rest)).Ok?
  {
    var n := PreambleTokens(rules, Lexed(lines));
    LexedCut(lines, n);
    pre, rest := lines[..n], lines[n..];
    FirstStarts(rest);
  }

  lemma PreambleTokens(rules: Rules, tokens: seq<Token>) returns (n: nat)
    requires ParseTokens(rules, tokens).Ok?
    ensures n == SectionLength(tokens) && NoStarts(tokens[..n]) && NoneLooksLikePayload(tokens[..n])
    ensures tokens[n..] != [] ==> tokens[n..][0].role.RecordStart?
    ensures ReadRecords(rules, tokens[n..]) == ParseTokens(rules, tokens)
  {
    n := SectionLength(tokens);
  }

  lemma FirstStarts(lines: seq<Text>)
    requires lines != [] ==> Lexed(lines)[0].role.RecordStart?
    ensures lines != [] ==> StartsRecord(lines[0])
  {
    if lines != [] { StartOfRecord(lines[0]); }
  }

  // ----- nothing is dropped -----

  function InHunks(hunks: seq<Hunk>, kind: LineKind): nat {
    if hunks == [] then 0 else OfKind(hunks[0].lines, kind) + InHunks(hunks[1..], kind)
  }

  /** How many lines of this kind the files carry. */
  function Shown(files: seq<File>, kind: LineKind): nat {
    if files == [] then 0 else InHunks(files[0].hunks, kind) + Shown(files[1..], kind)
  }

  lemma {:induction false} InHunksSnoc(hunks: seq<Hunk>, hunk: Hunk, kind: LineKind)
    ensures InHunks(hunks + [hunk], kind) == InHunks(hunks, kind) + OfKind(hunk.lines, kind)
  {
    if hunks != [] {
      assert (hunks + [hunk])[1..] == hunks[1..] + [hunk];
      InHunksSnoc(hunks[1..], hunk, kind);
    }
  }

  ghost predicate Counted(r: Record) { r.added == InHunks(r.hunks, Added) && r.removed == InHunks(r.hunks, Removed) }

  lemma HunkCounted(r: Record, header: Header, body: seq<Line>)
    requires Counted(r)
    ensures Counted(AfterHunk(r, header, body))
  {
    InHunksSnoc(r.hunks, Hunk(HeaderText(header), body), Added);
    InHunksSnoc(r.hunks, Hunk(HeaderText(header), body), Removed);
  }

  lemma LineCounted(r: Record, role: Role, blankEnd: bool)
    requires ReadLine(r, role, blankEnd).Some?
    ensures var next := ReadLine(r, role, blankEnd).value;
      next.hunks == r.hunks && next.added == r.added && next.removed == r.removed && (r.binary ==> next.binary)
  {
  }

  /** Reading a record counts what it carries. */
  lemma {:induction false} RecordCounted(rules: Rules, tokens: seq<Token>, r: Record, last: bool)
    requires Counted(r) && ReadRecord(rules, tokens, r, last).Some?
    ensures Counted(ReadRecord(rules, tokens, r, last).value)
    decreases |tokens|
  {
    if tokens != [] {
      var role := tokens[0].role;
      if OpensHunk(r, role) {
        var n := BodyLength(tokens[1..]);
        var body := Carried(rules, tokens[1..][..n]);
        HunkCounted(r, role.header.value, body);
        RecordCounted(rules, tokens[1..][n..], AfterHunk(r, role.header.value, body), last);
      } else {
        LineCounted(r, role, last && AllBlank(tokens));
        RecordCounted(rules, tokens[1..], ReadLine(r, role, last && AllBlank(tokens)).value, last);
      }
    }
  }

  lemma {:induction false} ShownConcat(a: seq<File>, b: seq<File>, kind: LineKind)
    ensures Shown(a + b, kind) == Shown(a, kind) + Shown(b, kind)
  {
    if a == [] {
      NothingAfter(b);
    } else {
      assert (a + b)[1..] == a[1..] + b;
      ShownConcat(a[1..], b, kind);
    }
  }

  ghost predicate Honest(d: ParsedDiff) {
    && d.addedLineCount == Shown(d.files, Added) && d.removedLineCount == Shown(d.files, Removed)
    && Parsed(d.files) && forall i :: 0 <= i < |d.files| ==> d.files[i].hiddenHunkCount == 0
  }

  lemma RecordHonest(rules: Rules, headerPath: Option<Text>, body: seq<Token>, last: bool)
    requires RecordFile(rules, headerPath, body, last).Ok?
    ensures Honest(RecordFile(rules, headerPath, body, last).value)
  {
    RecordCounted(rules, body, FRESH, last);
    Alone(RecordFile(rules, headerPath, body, last).value.files[0]);
  }

  lemma {:induction false} RecordsCounted(rules: Rules, tokens: seq<Token>)
    requires tokens != [] ==> tokens[0].role.RecordStart?
    requires ReadRecords(rules, tokens).Ok?
    ensures Honest(ReadRecords(rules, tokens).value)
    decreases |tokens|
  {
    if tokens != [] {
      var n := SectionLength(tokens[1..]);
      var first := RecordFile(rules, tokens[0].role.path, tokens[1..][..n], n == |tokens| - 1).value;
      RecordHonest(rules, tokens[0].role.path, tokens[1..][..n], n == |tokens| - 1);
      RecordsCounted(rules, tokens[1..][n..]);
      var rest := ReadRecords(rules, tokens[1..][n..]).value;
      ShownConcat(first.files, rest.files, Added);
      ShownConcat(first.files, rest.files, Removed);
    }
  }

  /** The counters of a parsed diff are exactly the lines its files carry. */
  lemma CountersMatch(rules: Rules, raw: Text)
    requires Parse(rules, raw).Ok?
    ensures Honest(Parse(rules, raw).value)
  {
    var tokens := Lexed(LinesOf(raw));
    RecordsCounted(rules, tokens[SectionLength(tokens)..]);
  }

  /** Reading on keeps the hunks read before. */
  lemma {:induction false} HunksKept(rules: Rules, tokens: seq<Token>, r: Record, last: bool)
    requires ReadRecord(rules, tokens, r, last).Some?
    ensures var end := ReadRecord(rules, tokens, r, last).value; r.hunks <= end.hunks && (r.binary ==> end.binary)
    decreases |tokens|
  {
    if tokens != [] {
      var role := tokens[0].role;
      if OpensHunk(r, role) {
        var n := BodyLength(tokens[1..]);
        HunksKept(rules, tokens[1..][n..], AfterHunk(r, role.header.value, Carried(rules, tokens[1..][..n])), last);
      } else {
        LineCounted(r, role, last && AllBlank(tokens));
        HunksKept(rules, tokens[1..], ReadLine(r, role, last && AllBlank(tokens)).value, last);
      }
    }
  }

  lemma {:induction false} CarriedAt(rules: Rules, tokens: seq<Token>, i: nat)
    requires AllPayload(tokens) && i < |tokens|
    ensures |Carried(rules, tokens)| == |tokens| && Carried(rules, tokens)[i] == CarriedLine(rules, tokens[i].payload.value)
  {
    if |tokens| > 1 { CarriedAt(rules, tokens[1..], if i > 0 then i - 1 else 0); }
  }

  ghost predicate IsCarried(hunks: seq<Hunk>, h: nat, j: nat, line: Line) {
    h < |hunks| && j < |hunks[h].lines| && hunks[h].lines[j] == line
  }

  /** File `f` shows the line, unless it is binary. */
  ghost predicate CarriedBy(d: ParsedDiff, f: nat, h: nat, j: nat, line: Line) {
    f < |d.files| && (d.files[f].binary || IsCarried(d.files[f].hunks, h, j, line))
  }

  /** Where token `i` stands makes it a line of a hunk: token `k` opens a hunk and everything from there to
      `i` can belong to it; or, for `k == i`, the line can only be a change. */
  ghost predicate Stands(tokens: seq<Token>, k: nat, i: nat) {
    && k <= i < |tokens| && LooksLikePayload(tokens[k]) && tokens[i].payload.Some?
    && if k == i then tokens[i].role.Other?
       else tokens[k].role.HunkStart? && forall m :: k < m <= i ==> tokens[m].payload.Some?
  }

  ghost predicate IsLine(rules: Rules, t: Token, line: Line) { t.payload.Some? && line == CarriedLine(rules, t.payload.value) }

  /** What starts a record or a hunk is never a line of a hunk. */
  ghost predicate Apart(tokens: seq<Token>) {
    forall i :: 0 <= i < |tokens| && (tokens[i].role.RecordStart? || tokens[i].role.HunkStart?) ==> tokens[i].payload.None?
  }

  lemma ApartLine(line: Text)
    requires RoleOf(line).RecordStart? || RoleOf(line).HunkStart?
    ensures Lex(line).payload.None?
  {
  }

  lemma ApartLines(lines: seq<Text>)
    ensures Apart(Lexed(lines))
  {
    var tokens := Lexed(lines);
    forall i | 0 <= i < |tokens| && (tokens[i].role.RecordStart? || tokens[i].role.HunkStart?) ensures tokens[i].payload.None? {
      LexedAt(lines, i);
      ApartLine(lines[i]);
    }
  }

  lemma StandsLater(first: seq<Token>, rest: seq<Token>, k: nat, i: nat)
    requires Stands(first + rest, k, i) && |first| <= k
    ensures Stands(rest, k - |first|, i - |first|) && rest[i - |first|] == (first + rest)[i]
  {
    assert forall m :: 0 <= m < |rest| ==> rest[m] == (first + rest)[|first| + m];
  }

  lemma ApartBoth(first: seq<Token>, rest: seq<Token>)
    requires Apart(first + rest)
    ensures Apart(first) && Apart(rest)
  {
    assert forall m :: 0 <= m < |first| ==> first[m] == (first + rest)[m];
    assert forall m :: 0 <= m < |rest| ==> rest[m] == (first + rest)[|first| + m];
  }

  /** A line of a hunk is carried, unless its record turns out to be binary. */
  lemma {:induction false} ChangeCarried(rules: Rules, tokens: seq<Token>, r: Record, end: Record, last: bool, k: nat, i: nat, line: Line)
    returns (h: nat, j: nat)
    requires ReadRecord(rules, tokens, r, last) == Some(end) && !end.binary
    requires Apart(tokens) && Stands(tokens, k, i) && IsLine(rules, tokens[i], line)
    ensures IsCarried(end.hunks, h, j, line)
    decreases |tokens|
  {
    if OpensHunk(r, tokens[0].role) && i <= BodyLength(tokens[1..]) {
      h, j := InThisHunk(rules, tokens, r, end, last, i, line);
    } else {
      var later, next, k', i' := NextPart(rules, tokens, r, end, last, k, i);
      h, j := ChangeCarried(rules, later, next, end, last, k', i', line);
    }
  }

  /** A line that is not in the first hunk stands where it stands because of what comes later. */
  lemma NextPart(rules: Rules, tokens: seq<Token>, r: Record, end: Record, last: bool, k: nat, i: nat)
    returns (later: seq<Token>, next: Record, k': nat, i': nat)
    requires ReadRecord(rules, tokens, r, last) == Some(end) && !end.binary && Apart(tokens) && Stands(tokens, k, i)
    requires OpensHunk(r, tokens[0].role) ==> BodyLength(tokens[1..]) < i
    ensures |later| < |tokens| && ReadRecord(rules, later, next, last) == Some(end)
    ensures Apart(later) && Stands(later, k', i') && later[i'] == tokens[i]
  {
    var role, rest := tokens[0].role, tokens[1..];
    if OpensHunk(r, role) {
      var n := BodyLength(rest);
      BehindHunk(tokens, n, k, i);
      later, k', i' := rest[n..], k - 1 - n, i - 1 - n;
      next := AfterHunk(r, role.header.value, Carried(rules, rest[..n]));
    } else {
      next := NotTheFirst(rules, tokens, r, end, last, k, i);
      later, k', i' := rest, k - 1, i - 1;
    }
  }

  /** Where nothing opens a hunk, the line and the opening of its hunk come later. */
  lemma NotTheFirst(rules: Rules, tokens: seq<Token>, r: Record, end: Record, last: bool, k: nat, i: nat) returns (next: Record)
    requires ReadRecord(rules, tokens, r, last) == Some(end) && !end.binary && Apart(tokens) && Stands(tokens, k, i)
    requires !OpensHunk(r, tokens[0].role)
    ensures ReadRecord(rules, tokens[1..], next, last) == Some(end)
    ensures 0 < k && Apart(tokens[1..]) && Stands(tokens[1..], k - 1, i - 1) && tokens[1..][i - 1] == tokens[i]
  {
    var role, rest := tokens[0].role, tokens[1..];
    next := ReadLine(r, role, last && AllBlank(tokens)).value;
    HunksKept(rules, rest, next, last);
    NotFirst(r, role, last && AllBlank(tokens));
    assert tokens == [tokens[0]] + rest;
    assert k == 0 && i == 0 ==> !AllBlank(tokens);
    StandsLater([tokens[0]], rest, k, i);
    ApartBoth([tokens[0]], rest);
  }

  lemma NotFirst(r: Record, role: Role, blankEnd: bool)
    requires ReadLine(r, role, blankEnd).Some? && !OpensHunk(r, role)
    ensures role.HunkStart? || (role.Other? && !blankEnd) ==> ReadLine(r, role, blankEnd).value.binary
  {
  }

  lemma InThisHunk(rules: Rules, tokens: seq<Token>, r: Record, end: Record, last: bool, i: nat, line: Line) returns (h: nat, j: nat)
    requires tokens != [] && OpensHunk(r, tokens[0].role) && i <= BodyLength(tokens[1..])
    requires ReadRecord(rules, tokens, r, last) == Some(end) && IsLine(rules, tokens[i], line) && i > 0
    ensures IsCarried(end.hunks, h, j, line)
  {
    var rest := tokens[1..];
    var n := BodyLength(rest);
    var body := rest[..n];
    var next := AfterHunk(r, tokens[0].role.header.value, Carried(rules, body));
    h, j := |r.hunks|, i - 1;
    assert body[j] == tokens[i];
    CarriedAt(rules, body, j);
    HunksKept(rules, rest[n..], next, last);
    assert next.hunks[h].lines == Carried(rules, body);
  }

  /** A token behind the body of a hunk stands where it stands because of what comes behind that body. */
  lemma BehindHunk(tokens: seq<Token>, n: nat, k: nat, i: nat)
    requires tokens != [] && Apart(tokens) && Stands(tokens, k, i) && n == BodyLength(tokens[1..]) && n < i
    requires tokens[0].role.HunkStart?
    ensures n < k && Apart(tokens[1..][n..]) && Stands(tokens[1..][n..], k - 1 - n, i - 1 - n)
    ensures tokens[1..][n..][i - 1 - n] == tokens[i]
  {
    var rest := tokens[1..];
    assert tokens[n + 1] == rest[n];
    assert forall m :: 0 < m <= n ==> rest[..n][m - 1] == tokens[m];
    assert forall m :: 0 < m <= n ==> tokens[m].payload.Some?;
    var first := tokens[..n + 1];
    assert tokens == first + rest[n..];
    StandsLater(first, rest[n..], k, i);
    ApartBoth(first, rest[n..]);
  }

  /** How many records have started. */
  function StartCount(tokens: seq<Token>): nat {
    if tokens == [] then 0 else (if tokens[0].role.RecordStart? then 1 else 0) + StartCount(tokens[1..])
  }

  lemma {:induction false} StartCountBehind(body: seq<Token>, after: seq<Token>)
    requires NoStarts(body)
    ensures StartCount(body + after) == StartCount(after)
  {
    if body == [] {
      NothingAfter(after);
    } else {
      assert (body + after)[1..] == body[1..] + after;
      StartCountBehind(body[1..], after);
    }
  }

  /** A record with what was read of it. */
  datatype Part = Part(head: Token, body: seq<Token>, last: bool, r: Record)

  function JoinedParts(parts: seq<Part>): seq<Token> {
    if parts == [] then [] else [parts[0].head] + (parts[0].body + JoinedParts(parts[1..]))
  }

  ghost predicate Headed(parts: seq<Part>) {
    parts != [] ==> parts[0].head.role.RecordStart? && NoStarts(parts[0].body) && Headed(parts[1..])
  }

  ghost predicate PartOk(rules: Rules, p: Part, file: File) {
    && ReadRecord(rules, p.body, FRESH, p.last) == Some(p.r)
    && file.binary == p.r.binary && (!p.r.binary ==> file.hunks == p.r.hunks)
  }

  ghost predicate PartsMatch(rules: Rules, parts: seq<Part>, files: seq<File>) {
    |parts| == |files| && (parts != [] ==> PartOk(rules, parts[0], files[0]) && PartsMatch(rules, parts[1..], files[1..]))
  }

  /** An accepted diff is the records of its files, in order. */
  lemma {:induction false} PartsOf(rules: Rules, tokens: seq<Token>, d: ParsedDiff) returns (parts: seq<Part>)
    requires (tokens != [] ==> tokens[0].role.RecordStart?) && ReadRecords(rules, tokens) == Ok(d)
    ensures JoinedParts(parts) == tokens && Headed(parts) && PartsMatch(rules, parts, d.files)
    decreases |tokens|
  {
    if tokens == [] { return []; }
    var body, after := CutRecord(tokens);
    var r, later := FilesInOrder(rules, tokens[0], body, after, d);
    var others := PartsOf(rules, after, later);
    parts := [Part(tokens[0], body, after == [], r)] + others;
    assert parts[1..] == others;
  }

  lemma {:induction false} MatchAt(rules: Rules, parts: seq<Part>, files: seq<File>, f: nat)
    requires PartsMatch(rules, parts, files) && f < |parts|
    ensures PartOk(rules, parts[f], files[f])
  {
    if f > 0 { MatchAt(rules, parts[1..], files[1..], f - 1); }
  }

  /** The record token `i` is in. */
  lemma {:induction false} FindPart(parts: seq<Part>, i: nat) returns (f: nat, start: nat)
    requires Headed(parts) && i < |JoinedParts(parts)| && !JoinedParts(parts)[i].role.RecordStart?
    ensures f < |parts| && f + 1 == StartCount(JoinedParts(parts)[..i])
    ensures Covers(JoinedParts(parts), start, parts[f].body, i)
    decreases |parts|
  {
    var head, body, after := parts[0].head, parts[0].body, JoinedParts(parts[1..]);
    var inFirst := InFirst(head, body, after, i);
    if inFirst {
      f, start := 0, 1;
    } else {
      var g, s := FindPart(parts[1..], i - 1 - |body|);
      CoversLater(head, body, after, s, parts[1..][g].body, i - 1 - |body|);
      f, start := g + 1, s + 1 + |body|;
    }
  }

  /** Token `i` is in the first record, or the later one at `i - 1 - |body|`. */
  lemma InFirst(head: Token, body: seq<Token>, after: seq<Token>, i: nat) returns (inFirst: bool)
    requires head.role.RecordStart? && NoStarts(body) && i < 1 + |body| + |after| && !([head] + (body + after))[i].role.RecordStart?
    ensures var tokens := [head] + (body + after);
      if inFirst then Covers(tokens, 1, body, i) && StartCount(tokens[..i]) == 1
      else
        && |body| < i && tokens[i] == after[i - 1 - |body|]
        && StartCount(tokens[..i]) == 1 + StartCount(after[..i - 1 - |body|])
  {
    assert ([head] + (body + after))[0] == head;
    PlaceOf(head, body, after, i);
    inFirst := i <= |body|;
    if inFirst { CoversFirst(head, body, after, i); }
  }

  /** `body` are the lines of a record, from `start` on, and token `i` is one of them. */
  ghost predicate Covers(tokens: seq<Token>, start: nat, body: seq<Token>, i: nat) {
    0 < start <= i < start + |body| <= |tokens| && body == tokens[start..start + |body|] && tokens[start - 1].role.RecordStart?
  }

  lemma CoversFirst(head: Token, body: seq<Token>, after: seq<Token>, i: nat)
    requires head.role.RecordStart? && 0 < i <= |body|
    ensures Covers([head] + (body + after), 1, body, i)
  {
  }

  lemma CoversLater(head: Token, body: seq<Token>, after: seq<Token>, start: nat, found: seq<Token>, i: nat)
    requires Covers(after, start, found, i)
    ensures Covers([head] + (body + after), start + 1 + |body|, found, i + 1 + |body|)
  {
    var tokens := [head] + (body + after);
    assert tokens[1 + |body|..] == after;
    assert after[start..start + |found|] == tokens[1 + |body| + start..1 + |body| + start + |found|];
  }

  /** A line and the opening of its hunk are in the same record. */
  lemma StandsInRecord(tokens: seq<Token>, start: nat, body: seq<Token>, k: nat, i: nat)
    requires Apart(tokens) && Stands(tokens, k, i)
    requires Covers(tokens, start, body, i)
    ensures start <= k && Apart(body) && Stands(body, k - start, i - start) && body[i - start] == tokens[i]
  {
    assert forall m :: 0 <= m < |body| ==> body[m] == tokens[start + m];
  }

  /** The same for a token among the records, whatever they are. */
  lemma PlaceInParts(parts: seq<Part>, k: nat, i: nat) returns (f: nat, k': nat, i': nat)
    requires Headed(parts) && Apart(JoinedParts(parts)) && Stands(JoinedParts(parts), k, i)
    ensures f < |parts| && f + 1 == StartCount(JoinedParts(parts)[..i])
    ensures Apart(parts[f].body) && Stands(parts[f].body, k', i') && parts[f].body[i'] == JoinedParts(parts)[i]
  {
    var start;
    f, start := FindPart(parts, i);
    StandsInRecord(JoinedParts(parts), start, parts[f].body, k, i);
    k', i' := k - start, i - start;
  }

  lemma CarriedInPart(rules: Rules, parts: seq<Part>, d: ParsedDiff, f: nat, k: nat, i: nat, line: Line) returns (h: nat, j: nat)
    requires PartsMatch(rules, parts, d.files) && f < |parts|
    requires Apart(parts[f].body) && Stands(parts[f].body, k, i) && IsLine(rules, parts[f].body[i], line)
    ensures CarriedBy(d, f, h, j, line)
  {
    MatchAt(rules, parts, d.files, f);
    var p := parts[f];
    h, j := 0, 0;
    if !p.r.binary { h, j := ChangeCarried(rules, p.body, FRESH, p.r, p.last, k, i, line); }
  }

  /** The first record and the others. */
  lemma CutRecord(tokens: seq<Token>) returns (body: seq<Token>, after: seq<Token>)
    requires tokens != []
    ensures tokens == [tokens[0]] + (body + after) && NoStarts(body)
    ensures after != [] ==> after[0].role.RecordStart?
  {
    var rest := tokens[1..];
    var n := SectionLength(rest);
    body, after := rest[..n], rest[n..];
  }

  /** The file of the first record, and those of the others. */
  lemma FilesInOrder(rules: Rules, head: Token, body: seq<Token>, after: seq<Token>, d: ParsedDiff) returns (r: Record, later: ParsedDiff)
    requires head.role.RecordStart? && NoStarts(body) && (after != [] ==> after[0].role.RecordStart?)
    requires ReadRecords(rules, [head] + (body + after)) == Ok(d)
    ensures ReadRecord(rules, body, FRESH, after == []) == Some(r) && ReadRecords(rules, after) == Ok(later)
    ensures d.files != [] && d.files[1..] == later.files
    ensures d.files[0].binary == r.binary && (!r.binary ==> d.files[0].hunks == r.hunks)
  {
    RecordTokensRead(rules, head, body, after);
    r := ReadRecord(rules, body, FRESH, after == []).value;
    later := ReadRecords(rules, after).value;
  }

  /** Where token `i` is, and how many records have started before it. */
  lemma PlaceOf(head: Token, body: seq<Token>, after: seq<Token>, i: nat)
    requires head.role.RecordStart? && NoStarts(body) && 0 < i <= |body| + |after|
    ensures var tokens := [head] + (body + after);
      if i <= |body| then tokens[i] == body[i - 1] && StartCount(tokens[..i]) == 1
      else tokens[i] == after[i - 1 - |body|] && StartCount(tokens[..i]) == 1 + StartCount(after[..i - 1 - |body|])
  {
    var tokens := [head] + (body + after);
    if i <= |body| {
      assert tokens[..i] == [head] + (body[..i - 1] + []);
      StartCountBehind(body[..i - 1], []);
      StartCountFirst(head, body[..i - 1] + []);
    } else {
      var later := after[..i - 1 - |body|];
      assert tokens[..i] == [head] + (body + later);
      StartCountBehind(body, later);
      StartCountFirst(head, body + later);
    }
  }

  lemma StartCountFirst(head: Token, rest: seq<Token>)
    requires head.role.RecordStart?
    ensures StartCount([head] + rest) == 1 + StartCount(rest)
  {
    assert ([head] + rest)[1..] == rest;
  }

  lemma NoField(line: Text)
    requires line != [] && (line[0] == PLUS || line[0] == MINUS) && !Starts(line, "+++ ") && !Starts(line, "--- ")
    ensures FieldOf(line).None? && !IsMetadata(line)
  {
    forall i | 0 <= i < |KEYS| ensures !Starts(line, Keyword(KEYS[i])) {
      var k := KEYS[i];
      assert k != OldName && k != NewName ==> Keyword(k)[0] as int != line[0];
    }
    NoFieldAmong(KEYS, line);
    forall i | 0 <= i < |METADATA| ensures !Starts(line, METADATA[i]) {
      assert i < 5 ==> METADATA[i][0] as int != line[0];
    }
    StartsWithNone(line, METADATA);
  }

  lemma OnlyAChange(line: Text)
    requires ([PLUS] <= line || [MINUS] <= line) && !Starts(line, "+++ ") && !Starts(line, "--- ")
    ensures LooksLikePayload(Lex(line)) && Lex(line).payload == Some(PayloadOf(line)) && RoleOf(line).Other?
  {
    NoField(line);
    PayloadLooks(line);
    assert !StartsRecord(line) && !IsBinaryMark(line) && !StartsHunk(line);
  }

  /** Line `k` opens a hunk and everything from there to line `i` can belong to it. */
  predicate StandsInHunk(lines: seq<Text>, k: nat, i: nat) {
    k < i < |lines| && StartsHunk(lines[k]) && forall m :: k < m <= i ==> IsPayload(lines[m])
  }

  /** The line can be nothing but a change: it is no name line. */
  predicate CanOnlyBeAChange(line: Text) { ([PLUS] <= line || [MINUS] <= line) && !Starts(line, "+++ ") && !Starts(line, "--- ") }

  lemma HunkLine(line: Text)
    requires StartsHunk(line)
    ensures RoleOf(line).HunkStart?
  {
    NeitherRecordNorMark(line);
  }

  lemma PayloadLine(line: Text)
    ensures Lex(line).payload.Some? <==> IsPayload(line)
    ensures IsPayload(line) ==> Lex(line).payload == Some(PayloadOf(line))
  {
  }

  lemma HunkStands(lines: seq<Text>, k: nat, i: nat)
    requires StandsInHunk(lines, k, i)
    ensures Stands(Lexed(lines), k, i) && Lexed(lines)[i].payload == Some(PayloadOf(lines[i]))
  {
    var tokens := Lexed(lines);
    LexedAt(lines, k);
    HunkLine(lines[k]);
    forall m | k < m <= i ensures tokens[m].payload == Some(PayloadOf(lines[m])) {
      LexedAt(lines, m);
      PayloadLine(lines[m]);
    }
  }

  lemma ChangeStands(lines: seq<Text>, i: nat)
    requires i < |lines| && CanOnlyBeAChange(lines[i])
    ensures Stands(Lexed(lines), i, i) && Lexed(lines)[i].payload == Some(PayloadOf(lines[i]))
  {
    OnlyAChange(lines[i]);
    LexedAt(lines, i);
  }

  /** No change is dropped: of an accepted diff, every line behind a hunk header, as long as only lines of a
      hunk come between, whatever it looks like, and every other line that starts with a plus or a minus and is
      no name line, is carried by the file of the record it stands in, unless that record is binary. */
  lemma NothingDropped(rules: Rules, lines: seq<Text>, k: nat, i: nat) returns (f: nat, h: nat, j: nat)
    requires ParseLines(rules, lines).Ok? && i < |lines|
    requires StandsInHunk(lines, k, i) || CanOnlyBeAChange(lines[i])
    ensures f + 1 == StartCount(Lexed(lines)[..i])
    ensures CarriedBy(ParseLines(rules, lines).value, f, h, j, CarriedLine(rules, PayloadOf(lines[i])))
  {
    ApartLines(lines);
    var from := i;
    if StandsInHunk(lines, k, i) {
      HunkStands(lines, k, i);
      from := k;
    } else {
      ChangeStands(lines, i);
    }
    f, h, j := ChangeInTokens(rules, Lexed(lines), ParseLines(rules, lines).value, from, i, CarriedLine(rules, PayloadOf(lines[i])));
  }

  lemma CutTwice<T>(s: seq<T>, n: nat, i: nat)
    requires n <= i < |s|
    ensures s[..i] == s[..n] + s[n..][..i - n] && s[n..][i - n] == s[i]
  {
  }

  lemma BehindPreamble(tokens: seq<Token>, n: nat, k: nat, i: nat)
    requires n <= |tokens| && NoStarts(tokens[..n]) && NoneLooksLikePayload(tokens[..n]) && Apart(tokens) && Stands(tokens, k, i)
    ensures n <= k && Apart(tokens[n..]) && Stands(tokens[n..], k - n, i - n)
    ensures tokens[n..][i - n] == tokens[i] && StartCount(tokens[..i]) == StartCount(tokens[n..][..i - n])
  {
    var pre, rest := tokens[..n], tokens[n..];
    assert forall m :: 0 <= m < n ==> pre[m] == tokens[m];
    assert tokens == pre + rest;
    StandsLater(pre, rest, k, i);
    ApartBoth(pre, rest);
    CutTwice(tokens, n, i);
    StartCountBehind(pre, rest[..i - n]);
  }

  lemma PartsBehind(rules: Rules, tokens: seq<Token>, d: ParsedDiff) returns (n: nat, parts: seq<Part>)
    requires ParseTokens(rules, tokens) == Ok(d)
    ensures n <= |tokens| && NoStarts(tokens[..n]) && NoneLooksLikePayload(tokens[..n])
    ensures JoinedParts(parts) == tokens[n..] && Headed(parts) && PartsMatch(rules, parts, d.files)
  {
    n := PreambleTokens(rules, tokens);
    parts := PartsOf(rules, tokens[n..], d);
  }

  lemma PlaceBehind(tokens: seq<Token>, n: nat, parts: seq<Part>, k: nat, i: nat) returns (f: nat, k': nat, i': nat)
    requires n <= |tokens| && NoStarts(tokens[..n]) && NoneLooksLikePayload(tokens[..n]) && Apart(tokens) && Stands(tokens, k, i)
    requires JoinedParts(parts) == tokens[n..] && Headed(parts)
    ensures f < |parts| && f + 1 == StartCount(tokens[..i])
    ensures Apart(parts[f].body) && Stands(parts[f].body, k', i') && parts[f].body[i'] == tokens[i]
  {
    BehindPreamble(tokens, n, k, i);
    f, k', i' := PlaceInParts(parts, k - n, i - n);
  }

  lemma ChangeInTokens(rules: Rules, tokens: seq<Token>, d: ParsedDiff, k: nat, i: nat, line: Line) returns (f: nat, h: nat, j: nat)
    requires ParseTokens(rules, tokens) == Ok(d) && Apart(tokens) && Stands(tokens, k, i) && IsLine(rules, tokens[i], line)
    ensures f + 1 == StartCount(tokens[..i]) && CarriedBy(d, f, h, j, line)
  {
    var n, parts := PartsBehind(rules, tokens, d);
    var k', i';
    f, k', i' := PlaceBehind(tokens, n, parts, k, i);
    h, j := CarriedInPart(rules, parts, d, f, k', i', line);
  }

  /** From the text of a diff to the phone: the client clamps nothing, and a review that is not marked as
      cut shows exactly as many added and removed lines as the whole diff has. */
  lemma ReviewShowsEveryChange<O>(rules: Rules, raw: Text, facts: Facts<O>)
    requires Parse(rules, raw).Ok? && Project(facts).Ok?
    requires var d := Parse(rules, raw).value;
      facts.parsed == d.files && facts.addedLineCount == d.addedLineCount && facts.removedLineCount == d.removedLineCount
    ensures Clamp(Project(facts).value) == Project(facts).value
    ensures var diff := Project(facts).value.diff;
      !diff.truncated ==> diff.addedLineCount == Shown(diff.files, Added) && diff.removedLineCount == Shown(diff.files, Removed)
  {
    CountersMatch(rules, raw);
    ClampIsIdentity(facts);
    TruncatedExactly(facts);
  }
}
