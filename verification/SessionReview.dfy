/** What of a parsed diff travels to the phone: the host's carrying caps, the projected snapshot, and the
    client's own defensive clamp. */
module SessionReview {
  import opened Wrappers
  import opened Unicode

  datatype LineKind = Added | Removed | ContextLine | Meta

  datatype Line = Line(kind: LineKind, text: Text)

  datatype Hunk = Hunk(header: Text, lines: seq<Line>)

  datatype Change = FileAdded | FileModified | FileDeleted | FileRenamed

  datatype File = File(path: Text, change: Change, binary: bool, hunks: seq<Hunk>, hiddenHunkCount: nat)

  const MAX_FILES: nat := 50
  const MAX_LINES_PER_FILE: nat := 200
  const MAX_LINES_TOTAL: nat := 2000
  const MAX_PATHS: nat := 200
  const MAX_FINDINGS: nat := 100
  const MAX_LINE_CHARS: nat := 2000
  const MAX_CARRIED_CHARS: nat := 262144

  function Min(a: nat, b: nat): nat { if a < b then a else b }

  function Take<T>(s: seq<T>, n: nat): seq<T> { if |s| <= n then s else s[..n] }

  // ----- the host's caps -----

  function Shortened(text: Text, chars: nat): Text { Take(Take(text, MAX_LINE_CHARS), chars) }

  datatype LinesCap = LinesCap(lines: seq<Line>, chars: nat, clipped: bool)

  function JoinLines(a: LinesCap, b: LinesCap): LinesCap { LinesCap(a.lines + b.lines, b.chars, a.clipped || b.clipped) }

  /** The lines of one hunk while the character budget lasts. */
  function CarryLines(lines: seq<Line>, chars: nat): LinesCap {
    if lines == [] then LinesCap([], chars, false)
    else if chars == 0 then LinesCap([], chars, true)
    else
      var text := Shortened(lines[0].text, chars);
      JoinLines(LinesCap([Line(lines[0].kind, text)], chars - |text|, text != lines[0].text), CarryLines(lines[1..], chars - |text|))
  }

  /** `used`: lines of the shared budget spent, carried or not. */
  datatype HunksCap = HunksCap(hunks: seq<Hunk>, hidden: nat, used: nat, chars: nat, linesClipped: bool, bytesClipped: bool)

  function JoinHunks(a: HunksCap, b: HunksCap): HunksCap {
    HunksCap(a.hunks + b.hunks, a.hidden + b.hidden, a.used + b.used, b.chars, a.linesClipped || b.linesClipped, a.bytesClipped || b.bytesClipped)
  }

  function CapHunk(hunk: Hunk, allowance: nat, chars: nat): (r: HunksCap)
    ensures r.used <= allowance
  {
    if allowance == 0 then HunksCap([], 1, 0, chars, true, false)
    else
      var kept := Min(|hunk.lines|, allowance);
      var carried := CarryLines(hunk.lines[..kept], chars);
      var cut := kept < |hunk.lines|;
      if kept > 0 && carried.lines == [] then HunksCap([], 1, kept, carried.chars, cut, true)
      else HunksCap([Hunk(hunk.header, carried.lines)], 0, kept, carried.chars, cut, carried.clipped)
  }

  function CapHunks(hunks: seq<Hunk>, fileLeft: nat, left: nat, chars: nat): (r: HunksCap)
    ensures r.used <= Min(fileLeft, left)
    decreases |hunks|
  {
    if hunks == [] then HunksCap([], 0, 0, chars, false, false)
    else
      var first := CapHunk(hunks[0], Min(fileLeft, left), chars);
      JoinHunks(first, CapHunks(hunks[1..], fileLeft - first.used, left - first.used, first.chars))
  }

  datatype FilesCap = FilesCap(files: seq<File>, used: nat, chars: nat, linesClipped: bool, bytesClipped: bool)

  function JoinFiles(a: FilesCap, b: FilesCap): FilesCap {
    FilesCap(a.files + b.files, a.used + b.used, b.chars, a.linesClipped || b.linesClipped, a.bytesClipped || b.bytesClipped)
  }

  function CapFile(file: File, left: nat, chars: nat): (r: FilesCap)
    ensures r.used <= left && |r.files| == 1
  {
    if file.binary then FilesCap([file], 0, chars, false, false)
    else
      var h := CapHunks(file.hunks, MAX_LINES_PER_FILE, left, chars);
      FilesCap([file.(hunks := h.hunks, hiddenHunkCount := file.hiddenHunkCount + h.hidden)], h.used, h.chars, h.linesClipped, h.bytesClipped)
  }

  function CapFiles(files: seq<File>, left: nat, chars: nat): (r: FilesCap)
    ensures r.used <= left
    decreases |files|
  {
    if files == [] then FilesCap([], 0, chars, false, false)
    else
      var first := CapFile(files[0], left, chars);
      JoinFiles(first, CapFiles(files[1..], left - first.used, first.chars))
  }

  datatype CappedDiff = CappedDiff(files: seq<File>, filesDropped: bool, linesClipped: bool, bytesClipped: bool)

  function Capped(parsed: seq<File>): CappedDiff {
    var r := CapFiles(Take(parsed, MAX_FILES), MAX_LINES_TOTAL, MAX_CARRIED_CHARS);
    CappedDiff(r.files, |parsed| > MAX_FILES, r.linesClipped, r.bytesClipped)
  }

  lemma JoinLinesAssoc(a: LinesCap, b: LinesCap, c: LinesCap)
    ensures JoinLines(JoinLines(a, b), c) == JoinLines(a, JoinLines(b, c))
  {
    Assoc(a.lines, b.lines, c.lines);
  }

  lemma JoinHunksAssoc(a: HunksCap, b: HunksCap, c: HunksCap)
    ensures JoinHunks(JoinHunks(a, b), c) == JoinHunks(a, JoinHunks(b, c))
  {
    Assoc(a.hunks, b.hunks, c.hunks);
  }

  lemma JoinFilesAssoc(a: FilesCap, b: FilesCap, c: FilesCap)
    ensures JoinFiles(JoinFiles(a, b), c) == JoinFiles(a, JoinFiles(b, c))
  {
    Assoc(a.files, b.files, c.files);
  }

  method CarryHunkLines(lines: seq<Line>, budget: nat) returns (carried: seq<Line>, charBudget: nat, bytesClipped: bool)
    ensures LinesCap(carried, charBudget, bytesClipped) == CarryLines(lines, budget)
  {
    carried, charBudget, bytesClipped := [], budget, false;
    var todo := lines;
    assert [] + CarryLines(lines, budget).lines == CarryLines(lines, budget).lines;
    while todo != []
      invariant CarryLines(lines, budget) == JoinLines(LinesCap(carried, charBudget, bytesClipped), CarryLines(todo, charBudget))
      decreases |todo|
    {
      if charBudget == 0 {
        assert carried + [] == carried;
        bytesClipped := true;
        return;
      }
      var line := todo[0];
      var text := line.text;
      if |text| > MAX_LINE_CHARS { text := text[..MAX_LINE_CHARS]; }
      if |text| > charBudget { text := text[..charBudget]; }
      assert text == Shortened(line.text, charBudget);
      todo := todo[1..];
      JoinLinesAssoc(LinesCap(carried, charBudget, bytesClipped),
                     LinesCap([Line(line.kind, text)], charBudget - |text|, text != line.text),
                     CarryLines(todo, charBudget - |text|));
      carried, charBudget, bytesClipped := carried + [Line(line.kind, text)], charBudget - |text|, bytesClipped || text != line.text;
    }
    assert carried + [] == carried;
  }

  /** One hunk: hidden without an allowance, or when not one of its lines is carried. */
  method CarryHunk(hunk: Hunk, allowance: nat, budget: nat) returns (r: HunksCap)
    ensures r == CapHunk(hunk, allowance, budget)
  {
    if allowance == 0 { return HunksCap([], 1, 0, budget, true, false); }
    var kept := Min(|hunk.lines|, allowance);
    var linesClipped := kept < |hunk.lines|;
    var carried, charBudget, bytesClipped := CarryHunkLines(hunk.lines[..kept], budget);
    if kept > 0 && carried == [] { return HunksCap([], 1, kept, charBudget, linesClipped, true); }
    r := HunksCap([Hunk(hunk.header, carried)], 0, kept, charBudget, linesClipped, bytesClipped);
  }

  lemma HunkDone(spec: HunksCap, r: HunksCap, before: HunksCap, step: HunksCap, after: HunksCap)
    requires spec == JoinHunks(r, before) && before == JoinHunks(step, after)
    ensures spec == JoinHunks(JoinHunks(r, step), after)
  {
    JoinHunksAssoc(r, step, after);
  }

  method CapFileHunks(hunks: seq<Hunk>, left: nat, budget: nat) returns (r: HunksCap)
    ensures r == CapHunks(hunks, MAX_LINES_PER_FILE, left, budget)
  {
    r := HunksCap([], 0, 0, budget, false, false);
    var fileRemaining: nat, remaining: nat, todo := MAX_LINES_PER_FILE, left, hunks;
    ghost var spec := CapHunks(hunks, MAX_LINES_PER_FILE, left, budget);
    assert [] + spec.hunks == spec.hunks;
    while todo != []
      invariant spec == JoinHunks(r, CapHunks(todo, fileRemaining, remaining, r.chars))
      decreases |todo|
    {
      var step := CarryHunk(todo[0], Min(fileRemaining, remaining), r.chars);
      ghost var before := CapHunks(todo, fileRemaining, remaining, r.chars);
      fileRemaining, remaining, todo := fileRemaining - step.used, remaining - step.used, todo[1..];
      HunkDone(spec, r, before, step, CapHunks(todo, fileRemaining, remaining, step.chars));
      r := JoinHunks(r, step);
    }
    assert r.hunks + [] == r.hunks;
  }

  method CapOneFile(file: File, left: nat, budget: nat) returns (r: FilesCap)
    ensures r == CapFile(file, left, budget)
  {
    if file.binary { return FilesCap([file], 0, budget, false, false); }
    var h := CapFileHunks(file.hunks, left, budget);
    r := FilesCap([file.(hunks := h.hunks, hiddenHunkCount := file.hiddenHunkCount + h.hidden)], h.used, h.chars, h.linesClipped, h.bytesClipped);
  }

  method CapDiffFiles(parsed: seq<File>) returns (r: CappedDiff)
    ensures r == Capped(parsed)
  {
    var done, remaining: nat, todo := FilesCap([], 0, MAX_CARRIED_CHARS, false, false), MAX_LINES_TOTAL, Take(parsed, MAX_FILES);
    ghost var spec := CapFiles(todo, MAX_LINES_TOTAL, MAX_CARRIED_CHARS);
    assert [] + spec.files == spec.files;
    while todo != []
      invariant spec == JoinFiles(done, CapFiles(todo, remaining, done.chars))
      decreases |todo|
    {
      var step := CapOneFile(todo[0], remaining, done.chars);
      remaining, todo := remaining - step.used, todo[1..];
      JoinFilesAssoc(done, step, CapFiles(todo, remaining, step.chars));
      done := JoinFiles(done, step);
    }
    assert done.files + [] == done.files;
    r := CappedDiff(done.files, |parsed| > MAX_FILES, done.linesClipped, done.bytesClipped);
  }

  // ----- what the caps guarantee -----

  function LineCount(hunks: seq<Hunk>): nat {
    if hunks == [] then 0 else |hunks[0].lines| + LineCount(hunks[1..])
  }

  function LineChars(lines: seq<Line>): nat {
    if lines == [] then 0 else |lines[0].text| + LineChars(lines[1..])
  }

  function HunkChars(hunks: seq<Hunk>): nat {
    if hunks == [] then 0 else LineChars(hunks[0].lines) + HunkChars(hunks[1..])
  }

  /** Lines and characters of the text files; a binary file has no hunks to count. */
  function FileLines(files: seq<File>): nat {
    if files == [] then 0 else (if files[0].binary then 0 else LineCount(files[0].hunks)) + FileLines(files[1..])
  }

  function FileChars(files: seq<File>): nat {
    if files == [] then 0 else (if files[0].binary then 0 else HunkChars(files[0].hunks)) + FileChars(files[1..])
  }

  /** `carried` is the beginning of `line`, of the same kind. */
  predicate CutOf(carried: Line, line: Line) {
    carried.kind == line.kind && carried.text <= line.text && |carried.text| <= MAX_LINE_CHARS
  }

  predicate LinesCutOf(carried: seq<Line>, lines: seq<Line>) {
    |carried| <= |lines| && forall k :: 0 <= k < |carried| ==> CutOf(carried[k], lines[k])
  }

  /** The carried hunks are some of the parsed ones, in order, each cut at the end. */
  predicate HunksCutOf(carried: seq<Hunk>, hunks: seq<Hunk>) {
    if carried == [] then true
    else if hunks == [] then false
    else
      || HunksCutOf(carried, hunks[1..])
      || (carried[0].header == hunks[0].header && LinesCutOf(carried[0].lines, hunks[0].lines) && HunksCutOf(carried[1..], hunks[1..]))
  }

  predicate FaithfulLines(r: LinesCap, lines: seq<Line>, chars: nat) {
    LinesCutOf(r.lines, lines) && LineChars(r.lines) + r.chars == chars && (!r.clipped <==> r.lines == lines)
  }

  lemma FirstLineCarried(line: Line, rest: LinesCap, lines: seq<Line>, chars: nat)
    requires chars > 0
    requires FaithfulLines(rest, lines, chars - |Shortened(line.text, chars)|)
    ensures var text := Shortened(line.text, chars);
      FaithfulLines(JoinLines(LinesCap([Line(line.kind, text)], chars - |text|, text != line.text), rest), [line] + lines, chars)
  {
    var first := Line(line.kind, Shortened(line.text, chars));
    var carried, all := [first] + rest.lines, [line] + lines;
    assert carried[0] == first && carried[1..] == rest.lines && all[1..] == lines;
    forall k | 0 <= k < |carried|
      ensures CutOf(carried[k], all[k])
    {
      if k > 0 { assert carried[k] == rest.lines[k - 1] && all[k] == lines[k - 1]; }
    }
  }

  lemma {:induction false} CarriedLines(lines: seq<Line>, chars: nat)
    ensures FaithfulLines(CarryLines(lines, chars), lines, chars)
  {
    if lines != [] && chars > 0 {
      var left := chars - |Shortened(lines[0].text, chars)|;
      CarriedLines(lines[1..], left);
      FirstLineCarried(lines[0], CarryLines(lines[1..], left), lines[1..], chars);
      assert lines == [lines[0]] + lines[1..];
    }
  }

  /** One hunk: carried cut at the end or hidden; unclipped exactly when it is carried as it is. */
  lemma CappedHunk(hunk: Hunk, allowance: nat, chars: nat)
    ensures var r := CapHunk(hunk, allowance, chars);
      && |r.hunks| + r.hidden == 1 && |r.hunks| <= 1
      && (r.hunks != [] ==> r.hunks[0].header == hunk.header && LinesCutOf(r.hunks[0].lines, hunk.lines) && |r.hunks[0].lines| <= r.used && allowance > 0)
      && HunkChars(r.hunks) + r.chars == chars
      && (!r.linesClipped && !r.bytesClipped <==> r.hunks == [hunk])
  {
    if allowance > 0 {
      var kept := Min(|hunk.lines|, allowance);
      CarriedLines(hunk.lines[..kept], chars);
      var carried := CarryLines(hunk.lines[..kept], chars).lines;
      assert HunkChars([Hunk(hunk.header, carried)]) == LineChars(carried) + HunkChars([]);
      forall k | 0 <= k < |carried|
        ensures CutOf(carried[k], hunk.lines[k])
      {
        assert CutOf(carried[k], hunk.lines[..kept][k]);
      }
      if kept == |hunk.lines| { assert hunk.lines[..kept] == hunk.lines; }
    }
  }

  /** What capping hunks means for the file they belong to. */
  predicate FaithfulCap(r: HunksCap, hunks: seq<Hunk>, chars: nat) {
    && |r.hunks| + r.hidden == |hunks|
    && HunksCutOf(r.hunks, hunks)
    && LineCount(r.hunks) <= r.used && HunkChars(r.hunks) + r.chars == chars
    && (!r.linesClipped && !r.bytesClipped <==> r.hunks == hunks)
  }

  lemma FaithfulJoin(first: HunksCap, rest: HunksCap, hunks: seq<Hunk>, allowance: nat, chars: nat)
    requires hunks != [] && first == CapHunk(hunks[0], allowance, chars) && FaithfulCap(rest, hunks[1..], first.chars)
    ensures FaithfulCap(JoinHunks(first, rest), hunks, chars)
  {
    CappedHunk(hunks[0], allowance, chars);
    JoinedHunks(first.hunks, rest.hunks);
    assert hunks == [hunks[0]] + hunks[1..];
  }

  /** Kept plus hidden hunks are all hunks; what is kept is cut from them in order, within the budgets. */
  lemma {:induction false} CappedHunks(hunks: seq<Hunk>, fileLeft: nat, left: nat, chars: nat)
    ensures FaithfulCap(CapHunks(hunks, fileLeft, left, chars), hunks, chars)
    decreases |hunks|
  {
    if hunks != [] {
      var first := CapHunk(hunks[0], Min(fileLeft, left), chars);
      CappedHunks(hunks[1..], fileLeft - first.used, left - first.used, first.chars);
      FaithfulJoin(first, CapHunks(hunks[1..], fileLeft - first.used, left - first.used, first.chars), hunks, Min(fileLeft, left), chars);
    }
  }

  lemma JoinedHunks(first: seq<Hunk>, rest: seq<Hunk>)
    requires |first| <= 1
    ensures LineCount(first + rest) == LineCount(first) + LineCount(rest)
    ensures HunkChars(first + rest) == HunkChars(first) + HunkChars(rest)
    ensures first == [] ==> first + rest == rest
    ensures first != [] ==> (first + rest)[0] == first[0] && (first + rest)[1..] == rest && LineCount(first) == |first[0].lines|
  {
    if first == [] {
      assert first + rest == rest;
    } else {
      assert (first + rest)[1..] == rest && first[1..] == [];
    }
  }

  /** A carried file is the parsed one with its hunks cut; each hunk is kept or counted as hidden. */
  predicate CarriedFile(carried: File, parsed: File) {
    && carried == parsed.(hunks := carried.hunks, hiddenHunkCount := carried.hiddenHunkCount)
    && (if parsed.binary then carried == parsed
        else
          && |carried.hunks| + carried.hiddenHunkCount == |parsed.hunks| + parsed.hiddenHunkCount
          && HunksCutOf(carried.hunks, parsed.hunks) && LineCount(carried.hunks) <= MAX_LINES_PER_FILE)
  }

  predicate FaithfulFiles(r: FilesCap, files: seq<File>, chars: nat) {
    && |r.files| == |files| && (forall i :: 0 <= i < |files| ==> CarriedFile(r.files[i], files[i]))
    && FileLines(r.files) <= r.used && FileChars(r.files) + r.chars == chars
    && (!r.linesClipped && !r.bytesClipped <==> r.files == files)
  }

  lemma CappedFile(file: File, left: nat, chars: nat)
    ensures FaithfulFiles(CapFile(file, left, chars), [file], chars)
  {
    var r := CapFile(file, left, chars);
    CappedHunks(file.hunks, MAX_LINES_PER_FILE, left, chars);
    OneFile(r.files[0]);
  }

  lemma OneFile(file: File)
    ensures FileLines([file]) == if file.binary then 0 else LineCount(file.hunks)
    ensures FileChars([file]) == if file.binary then 0 else HunkChars(file.hunks)
  {
    assert FileLines([file]) == (if file.binary then 0 else LineCount(file.hunks)) + FileLines([]);
    assert FileChars([file]) == (if file.binary then 0 else HunkChars(file.hunks)) + FileChars([]);
  }

  lemma FaithfulFilesJoin(first: FilesCap, rest: FilesCap, files: seq<File>, chars: nat)
    requires files != [] && FaithfulFiles(first, [files[0]], chars) && FaithfulFiles(rest, files[1..], first.chars)
    ensures FaithfulFiles(JoinFiles(first, rest), files, chars)
  {
    var all := first.files + rest.files;
    OneFile(first.files[0]);
    assert all[0] == first.files[0] && all[1..] == rest.files && first.files == [first.files[0]];
    forall i | 0 <= i < |files|
      ensures CarriedFile(all[i], files[i])
    {
      if i > 0 { assert CarriedFile(rest.files[i - 1], files[1..][i - 1]); } else { assert CarriedFile(first.files[0], [files[0]][0]); }
    }
    assert files == [files[0]] + files[1..];
  }

  lemma {:induction false} CappedFiles(files: seq<File>, left: nat, chars: nat)
    ensures FaithfulFiles(CapFiles(files, left, chars), files, chars)
    decreases |files|
  {
    if files != [] {
      var first := CapFile(files[0], left, chars);
      CappedFile(files[0], left, chars);
      CappedFiles(files[1..], left - first.used, first.chars);
      FaithfulFilesJoin(first, CapFiles(files[1..], left - first.used, first.chars), files, chars);
    }
  }

  /** Capped diffs obey every budget, keep the order, account for every hunk, and are flagged as cut
      exactly when they are not the parsed files. */
  lemma CapsObeyed(parsed: seq<File>)
    ensures var c := Capped(parsed);
      && |c.files| == Min(|parsed|, MAX_FILES) && FileLines(c.files) <= MAX_LINES_TOTAL && FileChars(c.files) <= MAX_CARRIED_CHARS
      && (forall i :: 0 <= i < |c.files| ==> CarriedFile(c.files[i], parsed[i]))
      && (c.filesDropped || c.linesClipped || c.bytesClipped <==> c.files != parsed)
  {
    CappedFiles(Take(parsed, MAX_FILES), MAX_LINES_TOTAL, MAX_CARRIED_CHARS);
  }

  // ----- the client's clamp -----

  datatype HunksClamp = HunksClamp(hunks: seq<Hunk>, hidden: nat, used: nat, clipped: bool)

  function JoinClamps(a: HunksClamp, b: HunksClamp): HunksClamp {
    HunksClamp(a.hunks + b.hunks, a.hidden + b.hidden, a.used + b.used, a.clipped || b.clipped)
  }

  function ClampHunk(hunk: Hunk, allowance: nat): (r: HunksClamp)
    ensures r.used <= allowance
  {
    if allowance == 0 then HunksClamp([], 1, 0, true)
    else
      var kept := Min(|hunk.lines|, allowance);
      HunksClamp([if kept == |hunk.lines| then hunk else Hunk(hunk.header, hunk.lines[..kept])], 0, kept, kept < |hunk.lines|)
  }

  function ClampHunks(hunks: seq<Hunk>, fileLeft: nat, left: nat): (r: HunksClamp)
    ensures r.used <= Min(fileLeft, left)
    decreases |hunks|
  {
    if hunks == [] then HunksClamp([], 0, 0, false)
    else
      var first := ClampHunk(hunks[0], Min(fileLeft, left));
      JoinClamps(first, ClampHunks(hunks[1..], fileLeft - first.used, left - first.used))
  }

  datatype FilesClamp = FilesClamp(files: seq<File>, used: nat, clipped: bool)

  function ClampFile(file: File, left: nat): (r: FilesClamp)
    ensures r.used <= left && |r.files| == 1
  {
    var h := ClampHunks(file.hunks, MAX_LINES_PER_FILE, left);
    FilesClamp([if h.clipped then file.(hunks := h.hunks, hiddenHunkCount := file.hiddenHunkCount + h.hidden) else file], h.used, h.clipped)
  }

  function ClampFiles(files: seq<File>, left: nat): (r: FilesClamp)
    decreases |files|
  {
    if files == [] then FilesClamp([], 0, false)
    else
      var first := ClampFile(files[0], left);
      var rest := ClampFiles(files[1..], left - first.used);
      FilesClamp(first.files + rest.files, first.used + rest.used, first.clipped || rest.clipped)
  }

  lemma ClampDone(spec: HunksClamp, done: HunksClamp, before: HunksClamp, step: HunksClamp, after: HunksClamp)
    requires spec == JoinClamps(done, before) && before == JoinClamps(step, after)
    ensures spec == JoinClamps(JoinClamps(done, step), after)
  {
    Assoc(done.hunks, step.hunks, after.hunks);
  }

  method ClampDiffFile(file: File, totalRemaining: nat) returns (r: FilesClamp)
    ensures r == ClampFile(file, totalRemaining)
  {
    var done, todo := HunksClamp([], 0, 0, false), file.hunks;
    var fileRemaining: nat, remaining: nat := MAX_LINES_PER_FILE, totalRemaining;
    ghost var spec := ClampHunks(file.hunks, MAX_LINES_PER_FILE, totalRemaining);
    assert [] + spec.hunks == spec.hunks;
    while todo != []
      invariant spec == JoinClamps(done, ClampHunks(todo, fileRemaining, remaining))
      decreases |todo|
    {
      var step := ClampHunk(todo[0], Min(fileRemaining, remaining));
      ghost var before := ClampHunks(todo, fileRemaining, remaining);
      fileRemaining, remaining, todo := fileRemaining - step.used, remaining - step.used, todo[1..];
      ClampDone(spec, done, before, step, ClampHunks(todo, fileRemaining, remaining));
      done := JoinClamps(done, step);
    }
    assert done.hunks + [] == done.hunks;
    r := FilesClamp([if done.clipped then file.(hunks := done.hunks, hiddenHunkCount := file.hiddenHunkCount + done.hidden) else file],
                    done.used, done.clipped);
  }

  /** Every hunk finds an allowance that covers it. */
  predicate Fits(hunks: seq<Hunk>, fileLeft: nat, left: nat)
    decreases |hunks|
  {
    hunks == [] ||
    (var n := |hunks[0].lines|; Min(fileLeft, left) > 0 && n <= Min(fileLeft, left) && Fits(hunks[1..], fileLeft - n, left - n))
  }

  lemma {:induction false} FittingUnclamped(hunks: seq<Hunk>, fileLeft: nat, left: nat)
    requires Fits(hunks, fileLeft, left)
    ensures ClampHunks(hunks, fileLeft, left) == HunksClamp(hunks, 0, LineCount(hunks), false)
    decreases |hunks|
  {
    if hunks != [] {
      var n := |hunks[0].lines|;
      FittingUnclamped(hunks[1..], fileLeft - n, left - n);
      assert hunks == [hunks[0]] + hunks[1..];
    }
  }

  lemma FitsJoined(first: seq<Hunk>, rest: seq<Hunk>, fileLeft: nat, left: nat)
    requires |first| <= 1 && LineCount(first) <= Min(fileLeft, left) && (first != [] ==> Min(fileLeft, left) > 0)
    requires Fits(rest, fileLeft - LineCount(first), left - LineCount(first))
    ensures Fits(first + rest, fileLeft, left)
  {
    JoinedHunks(first, rest);
    if first == [] { assert LineCount(first) == 0; }
  }

  lemma HunkWithin(hunk: Hunk, allowance: nat, chars: nat)
    ensures var r := CapHunk(hunk, allowance, chars);
      |r.hunks| <= 1 && LineCount(r.hunks) <= r.used && (r.hunks != [] ==> allowance > 0)
  {
    CappedHunk(hunk, allowance, chars);
    JoinedHunks(CapHunk(hunk, allowance, chars).hunks, []);
  }

  /** What the host carried under its budgets fits any budgets that are no smaller. */
  lemma {:induction false} CappedFits(hunks: seq<Hunk>, fileLeft: nat, left: nat, chars: nat, clientFileLeft: nat, clientLeft: nat)
    requires fileLeft <= clientFileLeft && left <= clientLeft
    ensures Fits(CapHunks(hunks, fileLeft, left, chars).hunks, clientFileLeft, clientLeft)
    decreases |hunks|
  {
    if hunks != [] {
      var first := CapHunk(hunks[0], Min(fileLeft, left), chars);
      HunkWithin(hunks[0], Min(fileLeft, left), chars);
      var rest, n := CapHunks(hunks[1..], fileLeft - first.used, left - first.used, first.chars), LineCount(first.hunks);
      CappedFits(hunks[1..], fileLeft - first.used, left - first.used, first.chars, clientFileLeft - n, clientLeft - n);
      FitsJoined(first.hunks, rest.hunks, clientFileLeft, clientLeft);
      assert CapHunks(hunks, fileLeft, left, chars) == JoinHunks(first, rest);
    }
  }

  /** What the parser guarantees of its files: a binary record has no hunks. */
  predicate Parsed(files: seq<File>) { forall i :: 0 <= i < |files| && files[i].binary ==> files[i].hunks == [] }

  predicate Unclamped(files: seq<File>, left: nat) { ClampFiles(files, left).files == files && !ClampFiles(files, left).clipped }

  lemma UnclampedJoin(first: File, rest: seq<File>, left: nat)
    requires Fits(first.hunks, MAX_LINES_PER_FILE, left) && LineCount(first.hunks) <= left
    requires Unclamped(rest, left - LineCount(first.hunks))
    ensures Unclamped([first] + rest, left)
  {
    FittingUnclamped(first.hunks, MAX_LINES_PER_FILE, left);
    assert ([first] + rest)[0] == first && ([first] + rest)[1..] == rest;
  }

  /** A carried file fits the client's budgets wherever they are no smaller than the host's were. */
  lemma CappedFileFits(file: File, left: nat, chars: nat, clientLeft: nat)
    requires (file.binary ==> file.hunks == []) && left <= clientLeft
    ensures var r := CapFile(file, left, chars);
      Fits(r.files[0].hunks, MAX_LINES_PER_FILE, clientLeft) && LineCount(r.files[0].hunks) <= r.used
  {
    CappedHunks(file.hunks, MAX_LINES_PER_FILE, left, chars);
    CappedFits(file.hunks, MAX_LINES_PER_FILE, left, chars, MAX_LINES_PER_FILE, clientLeft);
  }

  lemma {:induction false} CappedUnclamped(files: seq<File>, left: nat, chars: nat, clientLeft: nat)
    requires Parsed(files) && left <= clientLeft
    ensures Unclamped(CapFiles(files, left, chars).files, clientLeft)
    decreases |files|
  {
    if files != [] {
      var first := CapFile(files[0], left, chars);
      var carried := first.files[0];
      CappedFileFits(files[0], left, chars, clientLeft);
      CappedUnclamped(files[1..], left - first.used, first.chars, clientLeft - LineCount(carried.hunks));
      UnclampedJoin(carried, CapFiles(files[1..], left - first.used, first.chars).files, clientLeft);
      assert first.files == [carried];
    }
  }

  // ----- snapshots -----

  datatype Reason = FileLimit | LineLimit | ByteLimit

  /** The counters and the digest describe the whole diff. */
  datatype Diff = Diff(
    files: seq<File>, totalFileCount: nat, addedLineCount: nat, removedLineCount: nat,
    truncated: bool, truncationReason: Option<Reason>, digest: string)

  datatype ChangedFiles = ChangedFiles(paths: seq<Text>, totalCount: nat)

  datatype Finding = Finding(severity: string, rule: Text, path: Option<Text>, message: Text)

  datatype AuditStatus = Clean | WithFindings | Errored

  datatype Audit = Audit(status: AuditStatus, findings: seq<Finding>, totalFindingCount: nat, ranAt: string, commit: string)

  /** `other`: session, fingerprint, gates and observation time, which neither side ever cuts. */
  datatype Snapshot<O> = Snapshot(other: O, changedFiles: ChangedFiles, diff: Diff, audit: Option<Audit>)

  /** What the projection starts from once each fact has the required shape; `redact` bounds audit texts. */
  datatype Facts<!O> = Facts(
    other: O, parsed: seq<File>, addedLineCount: nat, removedLineCount: nat, changedFiles: seq<Text>,
    rawReason: Option<Reason>, digest: string, audit: Option<(AuditStatus, seq<Finding>, string, string)>, redact: (Text, nat) -> Text)

  datatype Error = Refused

  function CarriedFinding(f: Finding, redact: (Text, nat) -> Text): Finding {
    f.(rule := redact(f.rule, 120), message := redact(f.message, 500))
  }

  function ProjectAudit<O>(facts: Facts<O>): Option<Audit> {
    if facts.audit.None? then None
    else
      var (status, findings, ranAt, commit) := facts.audit.value;
      var kept := Take(findings, MAX_FINDINGS);
      Some(Audit(
        if status.Clean? && findings != [] then WithFindings else status,
        seq(|kept|, i requires 0 <= i < |kept| => CarriedFinding(kept[i], facts.redact)), |findings|, ranAt, commit))
  }

  function Project<O>(facts: Facts<O>): Result<Snapshot<O>, Error> {
    if facts.changedFiles != [] && facts.parsed == [] && facts.rawReason.None? then Err(Refused)
    else
      var c := Capped(facts.parsed);
      var truncated := c.filesDropped || c.linesClipped || c.bytesClipped || facts.rawReason.Some?;
      var reason :=
        if !truncated then None
        else if facts.rawReason.Some? then facts.rawReason
        else if c.filesDropped then Some(FileLimit)
        else if c.bytesClipped then Some(ByteLimit) else Some(LineLimit);
      Ok(Snapshot(
        facts.other, ChangedFiles(Take(facts.changedFiles, MAX_PATHS), |facts.changedFiles|),
        Diff(c.files, |facts.parsed|, facts.addedLineCount, facts.removedLineCount, truncated, reason, facts.digest),
        ProjectAudit(facts)))
  }

  function Clamp<O>(s: Snapshot<O>): Snapshot<O> {
    var kept := Take(s.diff.files, MAX_FILES);
    var filesDropped, clamped := |kept| < |s.diff.files|, ClampFiles(kept, MAX_LINES_TOTAL);
    var reason :=
      if s.diff.truncated && s.diff.truncationReason.Some? then s.diff.truncationReason
      else if filesDropped then Some(FileLimit) else Some(LineLimit);
    var diff := if filesDropped || clamped.clipped then s.diff.(files := clamped.files, truncated := true, truncationReason := reason) else s.diff;
    s.(diff := diff,
       changedFiles := s.changedFiles.(paths := Take(s.changedFiles.paths, MAX_PATHS)),
       audit := if s.audit.None? then None else Some(s.audit.value.(findings := Take(s.audit.value.findings, MAX_FINDINGS))))
  }

  method ClampSessionReviewSnapshot<O>(s: Snapshot<O>) returns (r: Snapshot<O>)
    ensures r == Clamp(s)
  {
    var todo := Take(s.diff.files, MAX_FILES);
    var filesDropped := |todo| < |s.diff.files|;
    var remaining: nat, linesDropped, files: seq<File> := MAX_LINES_TOTAL, false, [];
    ghost var spec := ClampFiles(todo, MAX_LINES_TOTAL);
    assert [] + spec.files == spec.files;
    while todo != []
      invariant spec.files == files + ClampFiles(todo, remaining).files
      invariant spec.clipped == (linesDropped || ClampFiles(todo, remaining).clipped)
      decreases |todo|
    {
      var clamped := ClampDiffFile(todo[0], remaining);
      todo := todo[1..];
      ghost var rest := ClampFiles(todo, remaining - clamped.used).files;
      assert files + clamped.files + rest == files + (clamped.files + rest);
      remaining, linesDropped, files := remaining - clamped.used, linesDropped || clamped.clipped, files + clamped.files;
    }
    assert files + [] == files;
    var diff := s.diff;
    if filesDropped || linesDropped {
      var reason :=
        if s.diff.truncated && s.diff.truncationReason.Some? then s.diff.truncationReason
        else if filesDropped then Some(FileLimit) else Some(LineLimit);
      diff := s.diff.(files := files, truncated := true, truncationReason := reason);
    }
    var changedFiles := s.changedFiles;
    if |changedFiles.paths| > MAX_PATHS { changedFiles := changedFiles.(paths := changedFiles.paths[..MAX_PATHS]); }
    var audit := s.audit;
    if audit.Some? && |audit.value.findings| > MAX_FINDINGS {
      audit := Some(audit.value.(findings := audit.value.findings[..MAX_FINDINGS]));
    }
    r := s.(changedFiles := changedFiles, diff := diff, audit := audit);
  }

  // ----- theorems -----

  /** The client's clamp finds nothing left to do on any snapshot the host projects. */
  lemma ClampIsIdentity<O>(facts: Facts<O>)
    requires Parsed(facts.parsed) && Project(facts).Ok?
    ensures Clamp(Project(facts).value) == Project(facts).value
  {
    CapsObeyed(facts.parsed);
    CappedUnclamped(Take(facts.parsed, MAX_FILES), MAX_LINES_TOTAL, MAX_CARRIED_CHARS, MAX_LINES_TOTAL);
  }

  /** Unless the diff itself arrived cut, a snapshot is marked truncated exactly when it does not carry the
      parsed files; an unmarked one always carries them all. */
  lemma TruncatedExactly<O>(facts: Facts<O>)
    requires Project(facts).Ok?
    ensures var d := Project(facts).value.diff;
      && (d.truncated <==> facts.rawReason.Some? || d.files != facts.parsed)
      && (d.truncated <==> d.truncationReason.Some?)
      && d.totalFileCount == |facts.parsed|
  {
    CapsObeyed(facts.parsed);
  }
}
