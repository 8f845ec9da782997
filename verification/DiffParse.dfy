/** The unified diff parser: from the text `git diff` printed to the files a review shows.

    What a line can be is settled line by line first (`Lex`); the source asks the same questions where it
    meets the line. */
module DiffParse {
  import opened Wrappers
  import opened Unicode
  import opened SessionReview
  import GitPath

  datatype Failure = Unparsable | OutsideWorkingTree

  /** Stripping control sequences and the rule for repository-relative paths are regular expressions of
      their own; nothing is assumed about either. */
  datatype Rules = Rules(stripControls: Text -> Text, isRelative: Text -> bool)

  const RECORD_START: Text := GitPath.RECORD_START
  const AT: Unit := 64
  const PLUS: Unit := 43
  const MINUS: Unit := 45
  const SPACE: Unit := 32
  const COMMA: Unit := 44
  const BACKSLASH: Unit := 92

  // ----- lines -----

  const CR: Unit := 13
  const LF: Unit := 10

  function WithoutCr(line: Text): Text { if line != [] && line[|line| - 1] == CR then line[..|line| - 1] else line }

  /** What `/\r?\n/` splits a text into; `line` is what the current line has so far. */
  function SplitLines(line: Text, raw: Text): (r: seq<Text>)
    ensures r != []
    decreases |raw|
  {
    if raw == [] then [line]
    else if raw[0] == LF then [WithoutCr(line)] + SplitLines([], raw[1..])
    else SplitLines(line + [raw[0]], raw[1..])
  }

  function LinesOf(raw: Text): seq<Text> { SplitLines([], raw) }

  predicate StartsRecord(line: Text) { RECORD_START <= line }

  // ----- hunk headers -----

  predicate IsDigit(u: Unit) { 48 <= u <= 57 }

  function DigitCount(t: Text): (n: nat)
    ensures n <= |t| && (forall i :: 0 <= i < n ==> IsDigit(t[i])) && (n < |t| ==> !IsDigit(t[n]))
  {
    if t == [] || !IsDigit(t[0]) then 0 else 1 + DigitCount(t[1..])
  }

  /** Reads one to ten digits, and what follows them. */
  function ReadNumber(t: Text): Option<(Text, Text)> {
    var n := DigitCount(t);
    if 1 <= n <= 10 then Some((t[..n], t[n..])) else None
  }

  /** Where a side of a hunk starts, and its length if it is written. */
  datatype Range = Range(start: Text, count: Option<Text>)

  function ReadRange(t: Text): Option<(Range, Text)> {
    var start := ReadNumber(t);
    if start.None? then None
    else
      var (digits, rest) := start.value;
      if rest == [] || rest[0] != COMMA then Some((Range(digits, None), rest))
      else
        var count := ReadNumber(rest[1..]);
        if count.None? then None else Some((Range(digits, Some(count.value.0)), count.value.1))
  }

  datatype Header = Header(source: Range, target: Range)

  const OPENING: Text := [AT, AT, SPACE, MINUS]
  const BETWEEN: Text := [SPACE, PLUS]
  const CLOSING: Text := [SPACE, AT, AT]

  /** The header a line starts with, and the section heading after it. */
  function ReadHeader(line: Text): Option<(Header, Text)> {
    if !(OPENING <= line) then None
    else
      var source := ReadRange(line[|OPENING|..]);
      if source.None? || !(BETWEEN <= source.value.1) then None
      else
        var target := ReadRange(source.value.1[|BETWEEN|..]);
        if target.None? || !(CLOSING <= target.value.1) then None
        else Some((Header(source.value.0, target.value.0), target.value.1[|CLOSING|..]))
  }

  function RangeText(r: Range): Text { if r.count.None? then r.start else r.start + [COMMA] + r.count.value }

  function HeaderText(h: Header): Text { OPENING + RangeText(h.source) + BETWEEN + RangeText(h.target) + CLOSING }

  predicate IsNumber(t: Text) { 1 <= |t| <= 10 && forall i :: 0 <= i < |t| ==> IsDigit(t[i]) }

  predicate IsRange(r: Range) { IsNumber(r.start) && (r.count.Some? ==> IsNumber(r.count.value)) }

  predicate IsHeader(h: Header) { IsRange(h.source) && IsRange(h.target) }

  lemma {:induction false} CountsDigits(digits: Text, rest: Text)
    requires forall i :: 0 <= i < |digits| ==> IsDigit(digits[i])
    requires rest == [] || !IsDigit(rest[0])
    ensures DigitCount(digits + rest) == |digits|
  {
    if digits == [] {
      assert digits + rest == rest;
    } else {
      assert (digits + rest)[1..] == digits[1..] + rest;
      CountsDigits(digits[1..], rest);
    }
  }

  lemma NumberRead(digits: Text, rest: Text)
    requires IsNumber(digits) && (rest == [] || !IsDigit(rest[0]))
    ensures ReadNumber(digits + rest) == Some((digits, rest))
  {
    CountsDigits(digits, rest);
    assert (digits + rest)[..|digits|] == digits && (digits + rest)[|digits|..] == rest;
  }

  lemma NumberSpelled(t: Text)
    requires ReadNumber(t).Some?
    ensures var (digits, rest) := ReadNumber(t).value; IsNumber(digits) && t == digits + rest && (rest == [] || !IsDigit(rest[0]))
  {
  }

  lemma RangeRead(r: Range, rest: Text)
    requires IsRange(r) && rest != [] && !IsDigit(rest[0]) && rest[0] != COMMA
    ensures ReadRange(RangeText(r) + rest) == Some((r, rest))
  {
    if r.count.None? {
      NumberRead(r.start, rest);
    } else {
      var after := [COMMA] + (r.count.value + rest);
      assert RangeText(r) + rest == r.start + after;
      assert after[1..] == r.count.value + rest;
      NumberRead(r.start, after);
      NumberRead(r.count.value, rest);
    }
  }

  lemma RangeSpelled(t: Text)
    requires ReadRange(t).Some?
    ensures var (r, rest) := ReadRange(t).value; IsRange(r) && t == RangeText(r) + rest
  {
    NumberSpelled(t);
    var (digits, rest) := ReadNumber(t).value;
    if rest != [] && rest[0] == COMMA {
      NumberSpelled(rest[1..]);
      var (count, after) := ReadNumber(rest[1..]).value;
      CutAt([COMMA], rest);
      Assoc([COMMA], count, after);
      Assoc(digits, [COMMA] + count, after);
      Assoc(digits, [COMMA], count);
    }
  }

  lemma CutAt(first: Text, t: Text)
    requires first <= t
    ensures t == first + t[|first|..]
  {
  }

  lemma AfterCut(first: Text, rest: Text)
    ensures first <= first + rest && (first + rest)[|first|..] == rest
  {
  }

  /** The text of a header and what follows it, cut where the reader cuts it. */
  lemma HeaderPieces(h: Header, section: Text)
    ensures HeaderText(h) + section == OPENING + (RangeText(h.source) + (BETWEEN + (RangeText(h.target) + (CLOSING + section))))
  {
    var source, target := RangeText(h.source), RangeText(h.target);
    Assoc(OPENING + source + BETWEEN + target, CLOSING, section);
    Assoc(OPENING + source + BETWEEN, target, CLOSING + section);
    Assoc(OPENING + source, BETWEEN, target + (CLOSING + section));
    Assoc(OPENING, source, BETWEEN + (target + (CLOSING + section)));
  }

  lemma HeaderRead(h: Header, section: Text)
    requires IsHeader(h)
    ensures ReadHeader(HeaderText(h) + section) == Some((h, section))
  {
    HeaderPieces(h, section);
    var third := CLOSING + section;
    var second := BETWEEN + (RangeText(h.target) + third);
    AfterCut(OPENING, RangeText(h.source) + second);
    RangeRead(h.source, second);
    AfterCut(BETWEEN, RangeText(h.target) + third);
    RangeRead(h.target, third);
    AfterCut(CLOSING, section);
  }

  /** A line opens a hunk exactly when it is the text of a header and then anything. */
  lemma HeaderExactly(line: Text, h: Header, section: Text)
    ensures ReadHeader(line) == Some((h, section)) <==> IsHeader(h) && line == HeaderText(h) + section
  {
    if IsHeader(h) { HeaderRead(h, section); }
    if ReadHeader(line) == Some((h, section)) {
      var first := line[|OPENING|..];
      CutAt(OPENING, line);
      RangeSpelled(first);
      var second := ReadRange(first).value.1;
      CutAt(BETWEEN, second);
      RangeSpelled(second[|BETWEEN|..]);
      CutAt(CLOSING, ReadRange(second[|BETWEEN|..]).value.1);
      HeaderPieces(h, section);
    }
  }

  // ----- the body of a hunk -----

  /** A line of a hunk: added, removed, unchanged, or a note about the file, usually behind a space. */
  datatype Payload = Plus(text: Text) | Minus(text: Text) | Same(text: Text) | Note(text: Text, spaced: bool)

  predicate IsPayload(line: Text) { line != [] && (line[0] == PLUS || line[0] == MINUS || line[0] == SPACE || line[0] == BACKSLASH) }

  function PayloadOf(line: Text): Payload
    requires IsPayload(line)
  {
    if line[0] == PLUS then Plus(line[1..])
    else if line[0] == MINUS then Minus(line[1..])
    else if line[0] == SPACE then Same(line[1..])
    else if |line| >= 2 && line[1] == SPACE then Note(line[2..], true)
    else Note(line[1..], false)
  }

  function PayloadText(p: Payload): Text {
    match p
    case Plus(text) => [PLUS] + text
    case Minus(text) => [MINUS] + text
    case Same(text) => [SPACE] + text
    case Note(text, spaced) => [BACKSLASH] + (if spaced then [SPACE] else []) + text
  }

  predicate LegalPayload(p: Payload) { p.Note? && !p.spaced && p.text != [] ==> p.text[0] != SPACE }

  lemma PayloadExactly(line: Text, p: Payload)
    ensures IsPayload(line) && PayloadOf(line) == p <==> LegalPayload(p) && line == PayloadText(p)
  {
    if LegalPayload(p) && line == PayloadText(p) {
      assert IsPayload(line);
      assert p.Note? && p.spaced ==> line[2..] == p.text;
      assert !(p.Note? && p.spaced) ==> line[1..] == p.text;
    }
    if IsPayload(line) && PayloadOf(line) == p {
      CutAt([line[0]], line);
      if p.Note? && p.spaced { CutAt([BACKSLASH, SPACE], line); }
    }
  }

  function CarriedLine(rules: Rules, p: Payload): Line {
    var kind := match p case Plus(_) => Added case Minus(_) => Removed case Same(_) => ContextLine case Note(_, _) => Meta;
    Line(kind, rules.stripControls(p.text))
  }

  function OfKind(lines: seq<Line>, kind: LineKind): nat {
    if lines == [] then 0 else (if lines[0].kind == kind then 1 else 0) + OfKind(lines[1..], kind)
  }

  // ----- the lines of a record outside its hunks -----

  predicate Starts(line: Text, word: string) { |word| <= |line| && forall i :: 0 <= i < |word| ==> line[i] == word[i] as int }

  predicate Is(line: Text, word: string) { |line| == |word| && Starts(line, word) }

  datatype Key = OldName | NewName | RenameTo | RenameFrom | CopyTo | CopyFrom | NewMode | DeletedMode

  function Keyword(key: Key): (word: string)
    ensures forall i :: 0 <= i < |word| ==> word[i] as int < 128
  {
    match key
    case OldName => "--- "
    case NewName => "+++ "
    case RenameTo => "rename to "
    case RenameFrom => "rename from "
    case CopyTo => "copy to "
    case CopyFrom => "copy from "
    case NewMode => "new file mode "
    case DeletedMode => "deleted file mode "
  }

  datatype Field = Field(key: Key, value: Text)

  function FieldText(f: Field): Text { Ascii(Keyword(f.key)) + f.value }

  const KEYS: seq<Key> := [OldName, NewName, RenameTo, RenameFrom, CopyTo, CopyFrom, NewMode, DeletedMode]

  function FieldAmong(keys: seq<Key>, line: Text): Option<Field> {
    if keys == [] then None
    else
      var word := Keyword(keys[0]);
      if Starts(line, word) then Some(Field(keys[0], line[|word|..])) else FieldAmong(keys[1..], line)
  }

  function FieldOf(line: Text): Option<Field> { FieldAmong(KEYS, line) }

  lemma KeywordsApart(a: Key, b: Key, line: Text)
    requires Starts(line, Keyword(a)) && Starts(line, Keyword(b))
    ensures a == b
  {
    assert Keyword(a)[0] == Keyword(b)[0];
    assert a.RenameTo? || a.RenameFrom? ==> Keyword(a)[7] as int == line[7];
    assert b.RenameTo? || b.RenameFrom? ==> Keyword(b)[7] as int == line[7];
    assert a.CopyTo? || a.CopyFrom? ==> Keyword(a)[5] as int == line[5];
    assert b.CopyTo? || b.CopyFrom? ==> Keyword(b)[5] as int == line[5];
  }

  lemma StartsExactly(line: Text, key: Key)
    ensures Starts(line, Keyword(key)) <==> Ascii(Keyword(key)) <= line
  {
  }

  lemma {:induction false} FieldAmongExactly(keys: seq<Key>, line: Text, f: Field)
    ensures FieldAmong(keys, line) == Some(f) <==> f.key in keys && line == FieldText(f)
  {
    if keys != [] {
      FieldAmongExactly(keys[1..], line, f);
      var word := Ascii(Keyword(keys[0]));
      StartsExactly(line, keys[0]);
      if word <= line { CutAt(word, line); }
      if line == FieldText(f) {
        AfterCut(Ascii(Keyword(f.key)), f.value);
        StartsExactly(line, f.key);
        if Starts(line, Keyword(keys[0])) { KeywordsApart(keys[0], f.key, line); }
      }
    }
  }

  lemma FieldExactly(line: Text, f: Field)
    ensures FieldOf(line) == Some(f) <==> line == FieldText(f)
  {
    FieldAmongExactly(KEYS, line, f);
    var k := f.key;
    assert k == KEYS[0] || k == KEYS[1] || k == KEYS[2] || k == KEYS[3] || k == KEYS[4] || k == KEYS[5] || k == KEYS[6] || k == KEYS[7];
  }

  /** The lines git may write in a record that say nothing the review shows. */
  predicate IsMetadata(line: Text) { StartsWithAny(line, METADATA) }

  const METADATA: seq<string> :=
    ["index ", "old mode ", "new mode ", "similarity index ", "dissimilarity index ", "--- ", "+++ "]

  predicate StartsWithAny(line: Text, words: seq<string>) {
    words != [] && (Starts(line, words[0]) || StartsWithAny(line, words[1..]))
  }

  lemma {:induction false} NoFieldAmong(keys: seq<Key>, line: Text)
    requires forall i :: 0 <= i < |keys| ==> !Starts(line, Keyword(keys[i]))
    ensures FieldAmong(keys, line).None?
  {
    if keys != [] { NoFieldAmong(keys[1..], line); }
  }

  lemma {:induction false} StartsWithNone(line: Text, words: seq<string>)
    requires forall i :: 0 <= i < |words| ==> !Starts(line, words[i])
    ensures !StartsWithAny(line, words)
  {
    if words != [] { StartsWithNone(line, words[1..]); }
  }

  predicate IsTerminator(u: Unit) { u == LF || u == CR || u == 0x2028 || u == 0x2029 }

  predicate IsBinaryMark(line: Text) {
    || Is(line, "GIT binary patch")
    || (Starts(line, "Binary files ") && |line| >= 20 && Is(line[|line| - 7..], " differ")
        && forall i :: 13 <= i < |line| - 7 ==> !IsTerminator(line[i]))
  }

  predicate StartsHunk(line: Text) { [AT, AT] <= line }

  // ----- what each line can be -----

  /** The path a token names, quoted or plain. */
  function Decoded(value: Text): Option<Text> {
    if value != [] && value[0] == GitPath.QUOTE then
      var r := GitPath.Unquote(value);
      if r.Ok? then Some(r.value) else None
    else Some(value)
  }

  /** The path a record header names. */
  function HeaderPath(header: Text): Option<Text> {
    var r := GitPath.PathOf(header);
    if r.Ok? then Some(r.value) else None
  }

  /** What a line is outside of hunks; `path` is the path it names, if it can be read. */
  datatype Role = RecordStart(path: Option<Text>) | BinaryMark | HunkStart(header: Option<Header>) | Named(field: Field, path: Option<Text>) | Metadata | Blank | Other

  /** A line with its two readings: inside a hunk, where it may end the hunk, and outside. */
  datatype Token = Token(line: Text, payload: Option<Payload>, role: Role)

  function RoleOf(line: Text): Role {
    if StartsRecord(line) then RecordStart(HeaderPath(line))
    else if IsBinaryMark(line) then BinaryMark
    else if StartsHunk(line) then HunkStart(if ReadHeader(line).None? then None else Some(ReadHeader(line).value.0))
    else if FieldOf(line).Some? then Named(FieldOf(line).value, Decoded(FieldOf(line).value.value))
    else if IsMetadata(line) then Metadata
    else if line == [] then Blank else Other
  }

  function Lex(line: Text): Token { Token(line, if IsPayload(line) then Some(PayloadOf(line)) else None, RoleOf(line)) }

  function Lexed(lines: seq<Text>): (tokens: seq<Token>)
    ensures |tokens| == |lines|
  {
    if lines == [] then [] else [Lex(lines[0])] + Lexed(lines[1..])
  }

  lemma {:induction false} LexedAt(lines: seq<Text>, i: nat)
    requires i < |lines|
    ensures Lexed(lines)[i] == Lex(lines[i])
  {
    if i > 0 { LexedAt(lines[1..], i - 1); }
  }

  predicate AllBlank(tokens: seq<Token>) { forall i :: 0 <= i < |tokens| ==> tokens[i].role.Blank? }

  /** How many lines come before the next record. */
  function SectionLength(tokens: seq<Token>): (n: nat)
    ensures n <= |tokens| && (forall i :: 0 <= i < n ==> !tokens[i].role.RecordStart?)
    ensures n < |tokens| ==> tokens[n].role.RecordStart?
  {
    if tokens == [] || tokens[0].role.RecordStart? then 0 else 1 + SectionLength(tokens[1..])
  }

  /** How many lines the body of a hunk takes. */
  function BodyLength(tokens: seq<Token>): (n: nat)
    ensures n <= |tokens| && AllPayload(tokens[..n]) && (n < |tokens| ==> tokens[n].payload.None?)
  {
    if tokens == [] || tokens[0].payload.None? then 0
    else
      assert forall n :: 0 <= n < |tokens| ==> tokens[..n + 1] == [tokens[0]] + tokens[1..][..n];
      1 + BodyLength(tokens[1..])
  }

  predicate AllPayload(tokens: seq<Token>) { forall i :: 0 <= i < |tokens| ==> tokens[i].payload.Some? }

  function Carried(rules: Rules, tokens: seq<Token>): seq<Line>
    requires AllPayload(tokens)
  {
    if tokens == [] then [] else [CarriedLine(rules, tokens[0].payload.value)] + Carried(rules, tokens[1..])
  }

  // ----- reading one record -----

  const DEV_NULL: Text := [47, 100, 101, 118, 47, 110, 117, 108, 108]

  /** What the lines outside of hunks have said about the file. */
  datatype Names = Names(
    source: Option<Text>, target: Option<Text>, sourceIsNull: bool, targetIsNull: bool, renamedPath: Option<Text>,
    renamed: bool, copied: bool, newFile: bool, deletedFile: bool)

  /** What has been read of a record. */
  datatype Record = Record(names: Names, binary: bool, hunks: seq<Hunk>, added: nat, removed: nat)

  const FRESH := Record(Names(None, None, false, false, None, false, false, false, false), false, [], 0, 0)

  /** The names once a field is noted; none when its path cannot be decoded. */
  function Noted(n: Names, f: Field, path: Option<Text>): Option<Names> {
    match f.key
    case OldName =>
      if f.value == DEV_NULL then Some(n.(sourceIsNull := true))
      else if path.None? then None else Some(n.(source := Some(GitPath.StripDiffPrefix(path.value))))
    case NewName =>
      if f.value == DEV_NULL then Some(n.(targetIsNull := true))
      else if path.None? then None else Some(n.(target := Some(GitPath.StripDiffPrefix(path.value))))
    case RenameTo => if path.None? then None else Some(n.(renamed := true, renamedPath := path))
    case RenameFrom => Some(n.(renamed := true))
    case CopyTo =>
      if n.renamedPath.Some? then Some(n.(copied := true))
      else if path.None? then None else Some(n.(copied := true, renamedPath := path))
    case CopyFrom => Some(n.(copied := true))
    case NewMode => Some(n.(newFile := true))
    case DeletedMode => Some(n.(deletedFile := true))
  }

  function WithHunk(r: Record, header: Header, body: seq<Line>, added: nat, removed: nat): Record {
    r.(hunks := r.hunks + [Hunk(HeaderText(header), body)], added := r.added + added, removed := r.removed + removed)
  }

  function AfterHunk(r: Record, header: Header, body: seq<Line>): Record {
    WithHunk(r, header, body, OfKind(body, Added), OfKind(body, Removed))
  }

  function WithNames(r: Record, names: Option<Names>): Option<Record> {
    if names.None? then None else Some(r.(names := names.value))
  }

  /** The record after a line that opens no hunk, none when the line is not understood. Anything is passed
      over in a binary record; elsewhere only metadata and the blank end of the diff are. */
  function ReadLine(r: Record, role: Role, blankEnd: bool): Option<Record> {
    if role.BinaryMark? then Some(r.(binary := true))
    else if role.HunkStart? then if r.binary then Some(r) else None
    else if role.Named? then WithNames(r, Noted(r.names, role.field, role.path))
    else if r.binary || blankEnd || role.Metadata? then Some(r)
    else None
  }

  predicate OpensHunk(r: Record, role: Role) { role.HunkStart? && !r.binary && role.header.Some? }

  /** Reads the lines of one record; `last`: no record follows. */
  function ReadRecord(rules: Rules, tokens: seq<Token>, r: Record, last: bool): Option<Record>
    decreases |tokens|
  {
    if tokens == [] then Some(r)
    else if OpensHunk(r, tokens[0].role) then
      var n := BodyLength(tokens[1..]);
      var body := Carried(rules, tokens[1..][..n]);
      ReadRecord(rules, tokens[1..][n..], AfterHunk(r, tokens[0].role.header.value, body), last)
    else
      var next := ReadLine(r, tokens[0].role, last && AllBlank(tokens));
      if next.None? then None else ReadRecord(rules, tokens[1..], next.value, last)
  }

  function PathOfRecord(headerPath: Option<Text>, n: Names): Option<Text> {
    if n.target.Some? then n.target
    else if n.source.Some? then n.source
    else if n.renamedPath.Some? then n.renamedPath
    else headerPath
  }

  function ChangeOf(n: Names): Change {
    if n.renamed then FileRenamed
    else if n.newFile || n.sourceIsNull then FileAdded
    else if n.deletedFile || n.targetIsNull then FileDeleted
    else if n.copied then FileAdded else FileModified
  }

  function FileOf(rules: Rules, headerPath: Option<Text>, r: Record): Result<File, Failure> {
    var path := PathOfRecord(headerPath, r.names);
    if path.None? then Err(Unparsable)
    else if !rules.isRelative(path.value) then Err(OutsideWorkingTree)
    else Ok(File(path.value, ChangeOf(r.names), r.binary, if r.binary then [] else r.hunks, 0))
  }

  // ----- the whole diff -----

  datatype ParsedDiff = ParsedDiff(files: seq<File>, addedLineCount: nat, removedLineCount: nat)

  function Onto(first: ParsedDiff, rest: Result<ParsedDiff, Failure>): Result<ParsedDiff, Failure> {
    if rest.Err? then rest
    else
      Ok(ParsedDiff(
        first.files + rest.value.files, first.addedLineCount + rest.value.addedLineCount,
        first.removedLineCount + rest.value.removedLineCount))
  }

  /** What a record contributes once it is read. */
  function Contribution(rules: Rules, headerPath: Option<Text>, r: Record): Result<ParsedDiff, Failure> {
    var file := FileOf(rules, headerPath, r);
    if file.Err? then Err(file.error)
    else Ok(ParsedDiff([file.value], if r.binary then 0 else r.added, if r.binary then 0 else r.removed))
  }

  function RecordFile(rules: Rules, headerPath: Option<Text>, body: seq<Token>, last: bool): Result<ParsedDiff, Failure> {
    var r := ReadRecord(rules, body, FRESH, last);
    if r.None? then Err(Unparsable) else Contribution(rules, headerPath, r.value)
  }

  function ReadRecords(rules: Rules, tokens: seq<Token>): Result<ParsedDiff, Failure>
    requires tokens != [] ==> tokens[0].role.RecordStart?
    decreases |tokens|
  {
    if tokens == [] then Ok(ParsedDiff([], 0, 0))
    else
      var n := SectionLength(tokens[1..]);
      var first := RecordFile(rules, tokens[0].role.path, tokens[1..][..n], n == |tokens| - 1);
      if first.Err? then first else Onto(first.value, ReadRecords(rules, tokens[1..][n..]))
  }

  predicate LooksLikePayload(t: Token) { t.role.HunkStart? || (t.payload.Some? && (t.payload.value.Plus? || t.payload.value.Minus?)) }

  predicate NoneLooksLikePayload(tokens: seq<Token>) { forall i :: 0 <= i < |tokens| ==> !LooksLikePayload(tokens[i]) }

  lemma PayloadLooks(line: Text)
    ensures LooksLikePayload(Lex(line)) <==> [AT, AT] <= line || [PLUS] <= line || [MINUS] <= line
  {
  }

  function ParseTokens(rules: Rules, tokens: seq<Token>): Result<ParsedDiff, Failure> {
    var n := SectionLength(tokens);
    if NoneLooksLikePayload(tokens[..n]) then ReadRecords(rules, tokens[n..]) else Err(Unparsable)
  }

  function ParseLines(rules: Rules, lines: seq<Text>): Result<ParsedDiff, Failure> { ParseTokens(rules, Lexed(lines)) }

  function Parse(rules: Rules, raw: Text): Result<ParsedDiff, Failure> { ParseLines(rules, LinesOf(raw)) }

  // ----- the parser's loops -----

  lemma {:induction false} CarriedSnoc(rules: Rules, tokens: seq<Token>, t: Token)
    requires AllPayload(tokens) && t.payload.Some?
    ensures Carried(rules, tokens + [t]) == Carried(rules, tokens) + [CarriedLine(rules, t.payload.value)]
  {
    if tokens == [] {
      Alone(t);
    } else {
      assert (tokens + [t])[1..] == tokens[1..] + [t];
      CarriedSnoc(rules, tokens[1..], t);
      Assoc([CarriedLine(rules, tokens[0].payload.value)], Carried(rules, tokens[1..]), [CarriedLine(rules, t.payload.value)]);
    }
  }

  lemma {:induction false} OfKindConcat(a: seq<Line>, b: seq<Line>, kind: LineKind)
    ensures OfKind(a + b, kind) == OfKind(a, kind) + OfKind(b, kind)
  {
    if a == [] {
      NothingAfter(b);
    } else {
      assert (a + b)[1..] == a[1..] + b;
      OfKindConcat(a[1..], b, kind);
    }
  }

  lemma CarriesOneMore(rules: Rules, tokens: seq<Token>, start: nat, index: nat, line: Line)
    requires start <= index < |tokens| && AllPayload(tokens[start..index]) && tokens[index].payload.Some?
    requires line == CarriedLine(rules, tokens[index].payload.value)
    ensures AllPayload(tokens[start..index + 1])
    ensures var body := Carried(rules, tokens[start..index]);
      && Carried(rules, tokens[start..index + 1]) == body + [line]
      && forall kind :: OfKind(body + [line], kind) == OfKind(body, kind) + if line.kind == kind then 1 else 0
  {
    assert tokens[start..index + 1] == tokens[start..index] + [tokens[index]];
    CarriedSnoc(rules, tokens[start..index], tokens[index]);
    Alone(line);
    forall kind
      ensures OfKind(Carried(rules, tokens[start..index]) + [line], kind)
        == OfKind(Carried(rules, tokens[start..index]), kind) + if line.kind == kind then 1 else 0
    {
      OfKindConcat(Carried(rules, tokens[start..index]), [line], kind);
    }
  }

  method ReadHunkBody(rules: Rules, tokens: seq<Token>, start: nat) returns (body: seq<Line>, added: nat, removed: nat, index: nat)
    requires start <= |tokens|
    ensures start <= index <= |tokens| && (index < |tokens| ==> tokens[index].payload.None?)
    ensures AllPayload(tokens[start..index]) && body == Carried(rules, tokens[start..index])
    ensures added == OfKind(body, Added) && removed == OfKind(body, Removed)
  {
    body, added, removed, index := [], 0, 0, start;
    while index < |tokens| && tokens[index].payload.Some?
      invariant start <= index <= |tokens|
      invariant AllPayload(tokens[start..index]) && body == Carried(rules, tokens[start..index])
      invariant added == OfKind(body, Added) && removed == OfKind(body, Removed)
    {
      var line;
      match tokens[index].payload.value {
        case Plus(text) =>
          line := Line(Added, rules.stripControls(text));
          added := added + 1;
        case Minus(text) =>
          line := Line(Removed, rules.stripControls(text));
          removed := removed + 1;
        case Same(text) =>
          line := Line(ContextLine, rules.stripControls(text));
        case Note(text, _) =>
          line := Line(Meta, rules.stripControls(text));
      }
      CarriesOneMore(rules, tokens, start, index, line);
      body, index := body + [line], index + 1;
    }
  }

  lemma BodyUnique(tokens: seq<Token>, n: nat)
    requires n <= |tokens| && AllPayload(tokens[..n]) && (n < |tokens| ==> tokens[n].payload.None?)
    ensures BodyLength(tokens) == n
  {
    var m := BodyLength(tokens);
    assert forall i :: 0 <= i < n ==> tokens[..n][i] == tokens[i];
    assert forall i :: 0 <= i < m ==> tokens[..m][i] == tokens[i];
  }

  /** The lines of one record behind its first line, up to the next record. */
  ghost predicate Section(tokens: seq<Token>, start: nat, stop: nat) {
    && start <= stop <= |tokens|
    && (forall i :: start <= i < stop ==> !tokens[i].role.RecordStart?)
    && (stop < |tokens| ==> tokens[stop].role.RecordStart? && tokens[stop].payload.None?)
  }

  /** The last line that is not blank, if any. */
  ghost predicate IsLastContent(tokens: seq<Token>, lastContentLine: int) {
    && -1 <= lastContentLine < |tokens|
    && (forall i :: lastContentLine < i < |tokens| ==> tokens[i].role.Blank?)
    && (lastContentLine >= 0 ==> !tokens[lastContentLine].role.Blank?)
  }

  /** Reading past a hunk. */
  lemma HunkStep(rules: Rules, tokens: seq<Token>, index: nat, next: nat, stop: nat, r: Record, last: bool)
    requires index < stop <= |tokens| && (stop < |tokens| ==> tokens[stop].payload.None?)
    requires OpensHunk(r, tokens[index].role)
    requires index < next <= |tokens| && AllPayload(tokens[index + 1..next]) && (next < |tokens| ==> tokens[next].payload.None?)
    ensures next <= stop
    ensures ReadRecord(rules, tokens[index..stop], r, last)
      == ReadRecord(rules, tokens[next..stop],
           AfterHunk(r, tokens[index].role.header.value, Carried(rules, tokens[index + 1..next])), last)
  {
    assert forall i :: index < i < next ==> tokens[index + 1..next][i - index - 1] == tokens[i];
    assert forall i :: index < i < next ==> tokens[i].payload.Some?;
    assert next <= stop;
    var record, n := tokens[index..stop], next - index - 1;
    var rest := record[1..];
    assert rest == tokens[index + 1..stop];
    assert rest[n..] == tokens[next..stop];
    assert rest[..n] == tokens[index + 1..next];
    assert n < |rest| ==> rest[n] == tokens[next];
    BodyUnique(rest, n);
  }

  /** Reading past any other line. */
  lemma LineStep(rules: Rules, tokens: seq<Token>, index: nat, stop: nat, r: Record, lastContentLine: int)
    requires index < stop <= |tokens| && !OpensHunk(r, tokens[index].role) && IsLastContent(tokens, lastContentLine)
    requires stop < |tokens| ==> !tokens[stop].role.Blank?
    ensures var last, blankEnd := stop == |tokens|, tokens[index].role.Blank? && index > lastContentLine;
      ReadRecord(rules, tokens[index..stop], r, last)
        == match ReadLine(r, tokens[index].role, blankEnd)
           case None => None
           case Some(next) => ReadRecord(rules, tokens[index + 1..stop], next, last)
  {
    var record := tokens[index..stop];
    assert record[1..] == tokens[index + 1..stop];
    if stop == |tokens| { BlankEnd(tokens, index, lastContentLine); }
  }

  lemma BlankEnd(tokens: seq<Token>, index: nat, lastContentLine: int)
    requires index < |tokens| && IsLastContent(tokens, lastContentLine)
    ensures AllBlank(tokens[index..|tokens|]) <==> tokens[index].role.Blank? && index > lastContentLine
  {
    var rest := tokens[index..|tokens|];
    assert rest[0] == tokens[index];
    if index <= lastContentLine { assert rest[lastContentLine - index] == tokens[lastContentLine]; }
  }

  /** The cases for a line that opens no hunk. */
  method ReadOutside(r: Record, role: Role, blankEnd: bool) returns (next: Option<Record>)
    requires !OpensHunk(r, role)
    ensures next == ReadLine(r, role, blankEnd)
  {
    match role
    case BinaryMark => next := Some(r.(binary := true));
    case Named(field, path) => next := WithNames(r, Noted(r.names, field, path));
    case HunkStart(_) => next := if r.binary then Some(r) else None;
    case Metadata => next := Some(r);
    case _ => next := if r.binary || blankEnd then Some(r) else None;
  }

  /** Reads one hunk. */
  method ReadHunk(rules: Rules, tokens: seq<Token>, index: nat, r: Record, ghost stop: nat, ghost last: bool)
    returns (after: Record, next: nat)
    requires index < stop <= |tokens| && (stop < |tokens| ==> tokens[stop].payload.None?)
    requires OpensHunk(r, tokens[index].role)
    ensures index < next <= stop
    ensures ReadRecord(rules, tokens[index..stop], r, last) == ReadRecord(rules, tokens[next..stop], after, last)
  {
    var body, added, removed;
    body, added, removed, next := ReadHunkBody(rules, tokens, index + 1);
    HunkStep(rules, tokens, index, next, stop, r, last);
    after := WithHunk(r, tokens[index].role.header.value, body, added, removed);
  }

  /** Reads one record, from behind its first line up to the next one. */
  method ReadRecordLines(rules: Rules, tokens: seq<Token>, start: nat, lastContentLine: int, ghost stop: nat)
    returns (result: Option<Record>, index: nat)
    requires Section(tokens, start, stop) && IsLastContent(tokens, lastContentLine)
    ensures result == ReadRecord(rules, tokens[start..stop], FRESH, stop == |tokens|)
    ensures result.Some? ==> index == stop
  {
    ghost var last := stop == |tokens|;
    ghost var spec := ReadRecord(rules, tokens[start..stop], FRESH, last);
    var r := FRESH;
    index := start;
    while index < |tokens| && !tokens[index].role.RecordStart?
      invariant start <= index <= stop
      invariant ReadRecord(rules, tokens[index..stop], r, last) == spec
    {
      var role := tokens[index].role;
      if OpensHunk(r, role) {
        r, index := ReadHunk(rules, tokens, index, r, stop, last);
      } else {
        LineStep(rules, tokens, index, stop, r, lastContentLine);
        var next := ReadOutside(r, role, role.Blank? && index > lastContentLine);
        if next.None? { return None, index; }
        r := next.value;
        index := index + 1;
      }
    }
    assert index == stop;
    assert tokens[stop..stop] == [];
    result := Some(r);
  }

  lemma OntoTwice(a: ParsedDiff, b: ParsedDiff, rest: Result<ParsedDiff, Failure>)
    ensures Onto(a, Onto(b, rest)) == Onto(Onto(a, Ok(b)).value, rest)
  {
    if rest.Ok? { Assoc(a.files, b.files, rest.value.files); }
  }

  lemma OntoNothing(a: ParsedDiff, rest: Result<ParsedDiff, Failure>)
    ensures Onto(ParsedDiff([], 0, 0), rest) == rest && Onto(a, Ok(ParsedDiff([], 0, 0))) == Ok(a)
  {
    if rest.Ok? { NothingAfter(rest.value.files); }
    NothingAfter(a.files);
  }

  /** Reading past a record. */
  lemma RecordStep(rules: Rules, tokens: seq<Token>, index: nat) returns (stop: nat)
    requires index < |tokens| && RecordsApart(tokens) && tokens[index].role.RecordStart?
    ensures Section(tokens, index + 1, stop)
    ensures var first := RecordFile(rules, tokens[index].role.path, tokens[index + 1..stop], stop == |tokens|);
      ReadRecords(rules, tokens[index..]) == if first.Err? then first else Onto(first.value, ReadRecords(rules, tokens[stop..]))
  {
    var todo := tokens[index..];
    var rest := todo[1..];
    assert rest == tokens[index + 1..];
    var n := SectionLength(rest);
    stop := index + 1 + n;
    assert rest[..n] == tokens[index + 1..stop] && rest[n..] == tokens[stop..];
    assert forall i :: index < i < stop ==> tokens[i] == rest[i - index - 1];
    assert stop < |tokens| ==> tokens[stop] == rest[n];
  }

  /** The first line of a record is never part of a hunk. */
  predicate RecordsApart(tokens: seq<Token>) {
    forall i :: 0 <= i < |tokens| && tokens[i].role.RecordStart? ==> tokens[i].payload.None?
  }

  lemma RecordApart(line: Text)
    requires Lex(line).role.RecordStart?
    ensures Lex(line).payload.None?
  {
  }

  lemma LexedApart(lines: seq<Text>)
    ensures RecordsApart(Lexed(lines))
  {
    var tokens := Lexed(lines);
    forall i | 0 <= i < |tokens| && tokens[i].role.RecordStart? ensures tokens[i].payload.None? {
      LexedAt(lines, i);
      RecordApart(lines[i]);
    }
  }

  method ParseUnifiedDiff(rules: Rules, raw: Text) returns (result: Result<ParsedDiff, Failure>)
    ensures result == Parse(rules, raw)
  {
    LexedApart(LinesOf(raw));
    result := ParseAll(rules, Lexed(LinesOf(raw)));
  }

  /** Where the diff stops saying anything. */
  method LastContentLine(tokens: seq<Token>) returns (lastContentLine: int)
    requires tokens != []
    ensures IsLastContent(tokens, lastContentLine)
  {
    lastContentLine := |tokens| - 1;
    while lastContentLine >= 0 && tokens[lastContentLine].role.Blank?
      invariant -1 <= lastContentLine < |tokens|
      invariant forall i :: lastContentLine < i < |tokens| ==> tokens[i].role.Blank?
    {
      lastContentLine := lastContentLine - 1;
    }
  }

  method ParseAll(rules: Rules, tokens: seq<Token>) returns (result: Result<ParsedDiff, Failure>)
    requires tokens != [] && RecordsApart(tokens)
    ensures result == ParseTokens(rules, tokens)
  {
    var lastContentLine := LastContentLine(tokens);
    ghost var n := SectionLength(tokens);
    var index := 0;
    while index < |tokens| && !tokens[index].role.RecordStart?
      invariant 0 <= index <= n
      invariant forall i :: 0 <= i < index ==> !LooksLikePayload(tokens[i])
    {
      if LooksLikePayload(tokens[index]) {
        PreambleRefused(rules, tokens, index);
        return Err(Unparsable);
      }
      index := index + 1;
    }
    PreambleAccepted(rules, tokens, index);
    result := ParseRecords(rules, tokens, index, lastContentLine);
  }

  lemma PreambleAccepted(rules: Rules, tokens: seq<Token>, n: nat)
    requires n == SectionLength(tokens) && forall i :: 0 <= i < n ==> !LooksLikePayload(tokens[i])
    ensures ParseTokens(rules, tokens) == ReadRecords(rules, tokens[n..])
  {
  }

  lemma PreambleRefused(rules: Rules, tokens: seq<Token>, index: nat)
    requires index < SectionLength(tokens) && LooksLikePayload(tokens[index])
    ensures ParseTokens(rules, tokens) == Err(Unparsable)
  {
    var n := SectionLength(tokens);
    assert tokens[..n][index] == tokens[index];
  }

  /** The loop over the records. */
  method ParseRecords(rules: Rules, tokens: seq<Token>, start: nat, lastContentLine: int) returns (result: Result<ParsedDiff, Failure>)
    requires start <= |tokens| && IsLastContent(tokens, lastContentLine) && RecordsApart(tokens)
    requires start < |tokens| ==> tokens[start].role.RecordStart?
    ensures result == ReadRecords(rules, tokens[start..])
  {
    var done, index := ParsedDiff([], 0, 0), start;
    OntoNothing(done, ReadRecords(rules, tokens[index..]));
    while index < |tokens|
      invariant index <= |tokens| && (index < |tokens| ==> tokens[index].role.RecordStart?)
      invariant Onto(done, ReadRecords(rules, tokens[index..])) == ReadRecords(rules, tokens[start..])
    {
      ghost var stop := RecordStep(rules, tokens, index);
      var first, next := ParseRecord(rules, tokens, index, lastContentLine, stop);
      if first.Err? { return first; }
      OntoTwice(done, first.value, ReadRecords(rules, tokens[stop..]));
      done, index := Onto(done, first).value, next;
    }
    OntoNothing(done, Ok(done));
    result := Ok(done);
  }

  /** One record: what it contributes, and where the next one starts. */
  method ParseRecord(rules: Rules, tokens: seq<Token>, start: nat, lastContentLine: int, ghost stop: nat)
    returns (result: Result<ParsedDiff, Failure>, index: nat)
    requires start < |tokens| && tokens[start].role.RecordStart?
    requires Section(tokens, start + 1, stop) && IsLastContent(tokens, lastContentLine)
    ensures result == RecordFile(rules, tokens[start].role.path, tokens[start + 1..stop], stop == |tokens|)
    ensures result.Ok? ==> index == stop
  {
    var headerPath := tokens[start].role.path;
    var r;
    r, index := ReadRecordLines(rules, tokens, start + 1, lastContentLine, stop);
    if r.None? { return Err(Unparsable), index; }
    var file := FileOf(rules, headerPath, r.value);
    if file.Err? { return Err(file.error), index; }
    var added, removed := 0, 0;
    if !r.value.binary { added, removed := r.value.added, r.value.removed; }
    result := Ok(ParsedDiff([file.value], added, removed));
  }
}
