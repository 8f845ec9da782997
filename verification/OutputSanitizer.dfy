/** The streaming terminal sanitizer: control sequences are stripped, and text that could still grow into
    a secret is held back. The regular expressions are parameters: what they redact and where they match
    is arbitrary, which is all that holding and conservation depend on. */
module OutputSanitizer {
  import opened Wrappers
  import opened Unicode

  datatype ControlState = InText | Escape | Csi | Osc | OscEscape | StringControl | StringControlEscape

  const ESC := 0x1B
  const BEL := 0x07
  const C1_ST := 0x9C
  const BACKSLASH := 92

  // ----- control stripping -----

  /** Characters the text state lets through. */
  predicate Printable(cp: nat) {
    cp == 9 || cp == 10 || cp == 13 || (cp >= 0x20 && !(0x7F <= cp <= 0x9F))
  }

  function NextState(state: ControlState, cp: nat): ControlState {
    match state
    case InText =>
      if cp == ESC then Escape
      else if cp == 0x9B then Csi
      else if cp == 0x9D then Osc
      else if cp == 0x90 || cp == 0x98 || cp == 0x9E || cp == 0x9F then StringControl
      else InText
    case Escape =>
      if cp == 91 then Csi
      else if cp == 93 then Osc
      else if cp == 80 || cp == 88 || cp == 94 || cp == 95 then StringControl
      else InText
    case Csi => if 0x40 <= cp <= 0x7E then InText else Csi
    case Osc => if cp == BEL || cp == C1_ST then InText else if cp == ESC then OscEscape else Osc
    case OscEscape => if cp == BACKSLASH then InText else if cp == ESC then OscEscape else Osc
    case StringControl => if cp == C1_ST then InText else if cp == ESC then StringControlEscape else StringControl
    case StringControlEscape => if cp == BACKSLASH then InText else if cp == ESC then StringControlEscape else StringControl
  }

  predicate Emits(state: ControlState, cp: nat) { state.InText? && NextState(state, cp).InText? && Printable(cp) }

  /** What is left of `value`, read character by character, and the state it ends in. */
  function Strip(state: ControlState, value: Text): (r: (Text, ControlState))
    decreases |value|
  {
    if value == [] then ([], state)
    else
      var n, cp := CharUnits(value), FirstPoint(value);
      var (rest, end) := Strip(NextState(state, cp), value[n..]);
      ((if Emits(state, cp) then value[..n] else []) + rest, end)
  }

  /** No control unit but tab, line feed and carriage return. */
  predicate Clean(t: Text) { forall i :: 0 <= i < |t| ==> Printable(t[i]) }

  lemma {:induction false} StripClean(state: ControlState, value: Text)
    ensures Clean(Strip(state, value).0)
    decreases |value|
  {
    if value != [] {
      var n := CharUnits(value);
      StripClean(NextState(state, FirstPoint(value)), value[n..]);
    }
  }

  // ----- chunk boundaries -----

  predicate CutsPair(a: Text, b: Text) { a != [] && b != [] && IsHigh(a[|a| - 1]) && IsLow(b[0]) }

  /** The cut falls inside a surrogate pair that follows an ESC: read whole, the pair is swallowed; read
      in two halves, only the first half is. */
  predicate SplitsEscaped(state: ControlState, a: Text, b: Text) {
    CutsPair(a, b) && Strip(state, a[..|a| - 1]).1.Escape?
  }

  function StripTwo(state: ControlState, a: Text, b: Text): (Text, ControlState) {
    var (first, middle) := Strip(state, a);
    var (second, end) := Strip(middle, b);
    (first + second, end)
  }

  /** What any character beyond the controls and ASCII does. */
  function Wide(state: ControlState): ControlState {
    if state.Escape? then InText else if state.OscEscape? then Osc else if state.StringControlEscape? then StringControl else state
  }

  lemma WideStep(state: ControlState, cp: nat)
    requires cp > 0x9F
    ensures NextState(state, cp) == Wide(state) && (Emits(state, cp) <==> state.InText?)
  {
  }

  lemma StripStep(state: ControlState, value: Text, n: nat, cp: nat, rest: Text)
    requires value != [] && n == CharUnits(value) && cp == FirstPoint(value) && rest == value[n..] && cp > 0x9F
    ensures Strip(state, value) == ((if state.InText? then value[..n] else []) + Strip(Wide(state), rest).0, Strip(Wide(state), rest).1)
  {
    WideStep(state, cp);
  }

  lemma PairAlone(state: ControlState, a: Text, b: Text)
    requires |a| == 1 && CutsPair(a, b)
    ensures StripTwo(state, a, b).1 == Strip(state, a + b).1
    ensures StripTwo(state, a, b).0 == (if state.Escape? then [b[0]] else []) + Strip(state, a + b).0
  {
    var whole, rest := a + b, b[1..];
    assert whole[2..] == rest && whole[..2] == [a[0], b[0]] && a[..1] == [a[0]] && b[..1] == [b[0]];
    StripStep(state, whole, 2, FirstPoint(whole), rest);
    StripStep(state, a, 1, a[0], []);
    StripStep(Wide(state), b, 1, b[0], rest);
    PairLeft(state, a[0], b[0], Strip(Wide(state), rest).0);
  }

  lemma PairLeft(state: ControlState, high: Unit, low: Unit, tail: Text)
    ensures Wide(Wide(state)) == Wide(state)
    ensures ((if state.InText? then [high] else []) + []) + ((if Wide(state).InText? then [low] else []) + tail) ==
      (if state.Escape? then [low] else []) + ((if state.InText? then [high, low] else []) + tail)
  {
  }

  /** What the first character leaves. */
  function Head(state: ControlState, a: Text): Text
    requires a != []
  {
    if Emits(state, FirstPoint(a)) then a[..CharUnits(a)] else []
  }

  function After(state: ControlState, a: Text): ControlState
    requires a != []
  {
    NextState(state, FirstPoint(a))
  }

  lemma HeadOfConcat(state: ControlState, a: Text, b: Text)
    requires a != [] && !(|a| == 1 && CutsPair(a, b))
    ensures CharUnits(a + b) == CharUnits(a) && (a + b)[CharUnits(a)..] == a[CharUnits(a)..] + b
    ensures Head(state, a + b) == Head(state, a) && After(state, a + b) == After(state, a)
  {
    assert (a + b)[..CharUnits(a)] == a[..CharUnits(a)];
  }

  lemma TwoStep(state: ControlState, a: Text, b: Text)
    requires a != []
    ensures var rest := StripTwo(After(state, a), a[CharUnits(a)..], b); StripTwo(state, a, b) == (Head(state, a) + rest.0, rest.1)
  {
    var (first, middle) := Strip(After(state, a), a[CharUnits(a)..]);
    var second := Strip(middle, b).0;
    assert Strip(state, a) == (Head(state, a) + first, middle);
    Assoc(Head(state, a), first, second);
  }

  lemma SplitsLater(state: ControlState, a: Text, b: Text)
    requires |a| > 1 && CutsPair(a, b)
    ensures CharUnits(a) < |a| && CutsPair(a[CharUnits(a)..], b)
    ensures SplitsEscaped(state, a, b) <==> SplitsEscaped(After(state, a), a[CharUnits(a)..], b)
  {
    var n := CharUnits(a);
    var front, rest := a[..|a| - 1], a[n..];
    assert front[n..] == rest[..|rest| - 1] && front[..n] == a[..n];
    assert CharUnits(front) == n && FirstPoint(front) == FirstPoint(a);
  }

  /** Stripping two chunks in turn is stripping them joined, except that a pair split right behind an ESC
      leaves its second half behind. */
  lemma {:induction false} StripConcat(state: ControlState, a: Text, b: Text)
    ensures StripTwo(state, a, b).1 == Strip(state, a + b).1
    ensures if SplitsEscaped(state, a, b) then |StripTwo(state, a, b).0| == |Strip(state, a + b).0| + 1
            else StripTwo(state, a, b).0 == Strip(state, a + b).0
    decreases |a|
  {
    if a == [] {
      NothingAfter(b);
      NothingAfter(Strip(state, b).0);
    } else if |a| == 1 && CutsPair(a, b) {
      assert a[..0] == [];
      PairAlone(state, a, b);
    } else {
      var rest := a[CharUnits(a)..];
      HeadOfConcat(state, a, b);
      TwoStep(state, a, b);
      StripConcat(After(state, a), rest, b);
      assert Strip(state, a + b) == (Head(state, a) + Strip(After(state, a), rest + b).0, Strip(After(state, a), rest + b).1);
      if CutsPair(a, b) { SplitsLater(state, a, b); } else { assert !CutsPair(rest, b); }
    }
  }

  // ----- what is held back -----

  function Openings(): (o: seq<Text>)
    ensures forall i :: 0 <= i < |o| ==> |o[i]| <= 11
  {
    [Ascii("bearer"), Ascii("ghp_"), Ascii("gho_"), Ascii("ghu_"), Ascii("ghs_"), Ascii("ghr_"), Ascii("github_pat_"), Ascii("sk-"),
     Ascii("akia"), Ascii("token"), Ascii("secret"), Ascii("password"), Ascii("api_key"), Ascii("api-key"), Ascii("apikey")]
  }

  /** `LONGEST_TRIGGER_OPENING - 1` */
  const LONGEST_PREFIX := 10

  /** `toLowerCase` as far as ASCII results go: besides A-Z only the Kelvin sign has one. */
  function Lower(u: Unit): Unit { if 65 <= u <= 90 then u + 32 else if u == 0x212A then 107 else u }

  function LowerText(t: Text): Text { seq(|t|, i requires 0 <= i < |t| => Lower(t[i])) }

  /** Could still grow into a trigger opening. */
  predicate GrowsIntoTrigger(suffix: Text) {
    suffix != [] && exists i :: 0 <= i < |Openings()| && |Openings()[i]| > |suffix| && LowerText(suffix) <= Openings()[i]
  }

  function PrefixStart(value: Text, length: nat): (index: int)
    requires length <= |value|
    ensures -1 <= index < |value| || index == -1
  {
    if length == 0 then -1
    else if GrowsIntoTrigger(value[|value| - length..]) then |value| - length
    else PrefixStart(value, length - 1)
  }

  function Longest(value: Text): nat { if |value| < LONGEST_PREFIX then |value| else LONGEST_PREFIX }

  /** The longest tail that could grow into a trigger opening, or -1. */
  function TriggerTail(value: Text): int { PrefixStart(value, Longest(value)) }

  method OpenTriggerPrefixStart(value: Text) returns (index: int)
    ensures index == TriggerTail(value)
  {
    var length := Longest(value);
    while length > 0
      invariant 0 <= length <= |value|
      invariant TriggerTail(value) == PrefixStart(value, length)
    {
      if GrowsIntoTrigger(value[|value| - length..]) { return |value| - length; }
      length := length - 1;
    }
    index := -1;
  }

  lemma {:induction false} PrefixStartFirst(value: Text, length: nat, k: nat)
    requires length <= |value| && |value| - length <= k < |value| && GrowsIntoTrigger(value[k..])
    ensures 0 <= PrefixStart(value, length) <= k
  {
    if |value| - length < k { PrefixStartFirst(value, length - 1, k); }
  }

  /** Every tail that could grow into a trigger opening starts at or after the reported index. */
  lemma TriggerTailFirst(value: Text, k: nat)
    requires k < |value| && GrowsIntoTrigger(value[k..])
    ensures 0 <= TriggerTail(value) <= k
  {
    assert |value[k..]| <= LONGEST_PREFIX;
    PrefixStartFirst(value, Longest(value), k);
  }

  /** Whatever is longer and grows into a trigger opening has only such prefixes. */
  lemma ShorterGrows(suffix: Text, n: nat)
    requires GrowsIntoTrigger(suffix) && 0 < n <= |suffix|
    ensures GrowsIntoTrigger(suffix[..n])
  {
    var i :| 0 <= i < |Openings()| && |Openings()[i]| > |suffix| && LowerText(suffix) <= Openings()[i];
    assert LowerText(suffix[..n]) == LowerText(suffix)[..n];
  }

  // ----- the sanitizer -----

  /** `openSecret` and `awaiting`: where the regular expression matches, or -1. */
  datatype Rules = Rules(redact: Text -> Text, openSecret: Text -> int, awaiting: Text -> int)

  ghost predicate ValidRules(r: Rules) {
    forall t: Text :: -1 <= r.openSecret(t) <= |t| && -1 <= r.awaiting(t) <= |t|
  }

  const MAX_PENDING := 65536

  function Least(a: int, b: int): int { if a < 0 then b else if b < 0 || a < b then a else b }

  /** The earliest index that must stay buffered, or -1. */
  function HoldStart(r: Rules, value: Text): int {
    Least(Least(r.openSecret(value), TriggerTail(value)), r.awaiting(value))
  }

  function EmitEnd(r: Rules, value: Text): (end: nat)
    requires ValidRules(r)
    ensures end <= |value|
  {
    if HoldStart(r, value) >= 0 then HoldStart(r, value) else |value|
  }

  /** `search(/\s/)` */
  function FirstSpace(t: Text): (i: int)
    ensures -1 <= i < |t|
    ensures i >= 0 ==> IsSpace(t[i])
    ensures forall k :: 0 <= k < (if i < 0 then |t| else i) ==> !IsSpace(t[k])
  {
    if t == [] then -1
    else if IsSpace(t[0]) then 0
    else
      var rest := FirstSpace(t[1..]);
      if rest < 0 then -1 else rest + 1
  }

  /** `suppress`: an overlong secret was cut off and its rest is dropped up to the next white space. */
  datatype State = State(control: ControlState, pending: Text, suppress: bool)

  /** The slices of one push that went to redaction, and whether the buffer overflowed. */
  datatype Step = Step(state: State, slice: Text, overflowed: bool)

  function Received(r: Rules, s: State, control: ControlState, safeText: Text): Step
    requires ValidRules(r)
  {
    var value := s.pending + safeText;
    var open := r.openSecret(value);
    if |value| > MAX_PENDING && open >= 0 then Step(State(control, [], true), value[..open], true)
    else
      var end := EmitEnd(r, value);
      Step(State(control, value[end..], false), value[..end], false)
  }

  function PushStep(r: Rules, s: State, raw: Text): Step
    requires ValidRules(r)
  {
    var (safeText, control) := Strip(s.control, raw);
    if !s.suppress then Received(r, s, control, safeText)
    else
      var boundary := FirstSpace(safeText);
      if boundary < 0 then Step(s.(control := control), [], false) else Received(r, s, control, safeText[boundary..])
  }

  const REDACTED := Ascii("[REDACTED]")

  function Output(r: Rules, step: Step): Text {
    if step.overflowed then r.redact(step.slice) + REDACTED else if step.slice == [] then [] else r.redact(step.slice)
  }

  class TerminalOutputSanitizer {
    const rules: Rules
    var controlState: ControlState
    var pendingText: Text
    var suppressSecretUntilWhitespace: bool

    ghost function View(): State
      reads this
    {
      State(controlState, pendingText, suppressSecretUntilWhitespace)
    }

    constructor (rules: Rules)
      requires ValidRules(rules)
      ensures this.rules == rules && View() == State(InText, [], false)
    {
      this.rules := rules;
      controlState, pendingText, suppressSecretUntilWhitespace := InText, [], false;
    }

    method StripControls(value: Text) returns (output: Text)
      modifies this`controlState
      ensures (output, controlState) == Strip(old(controlState), value)
    {
      output := [];
      var rest := value;
      assert [] + Strip(controlState, value).0 == Strip(controlState, value).0;
      while rest != []
        invariant Strip(old(controlState), value) == (output + Strip(controlState, rest).0, Strip(controlState, rest).1)
        decreases |rest|
        modifies this`controlState
      {
        var n, code := CharUnits(rest), FirstPoint(rest);
        ghost var tail := Strip(NextState(controlState, code), rest[n..]).0;
        var character := rest[..n];
        var emitted := Emits(controlState, code);
        assert output + ((if emitted then character else []) + tail) == (output + if emitted then character else []) + tail;
        if emitted { output := output + character; }
        assert !emitted ==> output + [] == output;
        controlState := NextState(controlState, code);
        rest := rest[n..];
      }
      assert output + [] == output;
    }

    method Push(raw: Text) returns (output: Text)
      requires ValidRules(rules)
      modifies this
      ensures View() == PushStep(rules, old(View()), raw).state
      ensures output == Output(rules, PushStep(rules, old(View()), raw))
    {
      var safeText := StripControls(raw);
      output := [];
      if suppressSecretUntilWhitespace {
        var boundary := FirstSpace(safeText);
        if boundary < 0 { return []; }
        safeText := safeText[boundary..];
        suppressSecretUntilWhitespace := false;
      }
      pendingText := pendingText + safeText;
      var openStart := rules.openSecret(pendingText);
      if |pendingText| > MAX_PENDING && openStart >= 0 {
        output := rules.redact(pendingText[..openStart]) + REDACTED;
        pendingText, suppressSecretUntilWhitespace := [], true;
        return;
      }
      var tail := OpenTriggerPrefixStart(pendingText);
      var holdStart := Least(Least(openStart, tail), rules.awaiting(pendingText));
      var emitEnd := if holdStart >= 0 then holdStart else |pendingText|;
      if emitEnd > 0 {
        output := rules.redact(pendingText[..emitEnd]);
        pendingText := pendingText[emitEnd..];
      }
    }

    method Flush() returns (output: Text)
      modifies this
      ensures View() == State(InText, [], false)
      ensures output == if old(suppressSecretUntilWhitespace) then [] else rules.redact(old(pendingText))
    {
      output := if suppressSecretUntilWhitespace then [] else rules.redact(pendingText);
      pendingText, suppressSecretUntilWhitespace, controlState := [], false, InText;
    }
  }

  // ----- every run -----

  const START := State(InText, [], false)

  function Concat(parts: seq<Text>): Text {
    if parts == [] then [] else Concat(parts[..|parts| - 1]) + parts[|parts| - 1]
  }

  function StateAfter(r: Rules, chunks: seq<Text>): State
    requires ValidRules(r)
    decreases |chunks|, 1
  {
    if chunks == [] then START else LastStep(r, chunks).state
  }

  function LastStep(r: Rules, chunks: seq<Text>): Step
    requires ValidRules(r) && chunks != []
    decreases |chunks|, 0
  {
    PushStep(r, StateAfter(r, chunks[..|chunks| - 1]), chunks[|chunks| - 1])
  }

  /** The slices handed to redaction, joined. */
  function Slices(r: Rules, chunks: seq<Text>): Text
    requires ValidRules(r)
  {
    if chunks == [] then [] else Slices(r, chunks[..|chunks| - 1]) + LastStep(r, chunks).slice
  }

  predicate NoOverflow(r: Rules, chunks: seq<Text>)
    requires ValidRules(r)
  {
    chunks == [] || (NoOverflow(r, chunks[..|chunks| - 1]) && !LastStep(r, chunks).overflowed)
  }

  /** How many chunk boundaries fall inside a surrogate pair that follows an ESC. */
  function EscapedSplits(chunks: seq<Text>): nat {
    if chunks == [] then 0
    else
      var n := |chunks| - 1;
      EscapedSplits(chunks[..n]) + if SplitsEscaped(InText, Concat(chunks[..n]), chunks[n]) then 1 else 0
  }

  /** Chunk by chunk, what is left after stripping. */
  function StripEach(chunks: seq<Text>): Text {
    if chunks == [] then []
    else
      var n := |chunks| - 1;
      StripEach(chunks[..n]) + Strip(Strip(InText, Concat(chunks[..n])).1, chunks[n]).0
  }

  lemma {:induction false} ChunkingMatters(chunks: seq<Text>)
    ensures |StripEach(chunks)| == |Strip(InText, Concat(chunks)).0| + EscapedSplits(chunks)
    ensures EscapedSplits(chunks) == 0 ==> StripEach(chunks) == Strip(InText, Concat(chunks)).0
  {
    if chunks != [] {
      var n := |chunks| - 1;
      ChunkingMatters(chunks[..n]);
      StripConcat(InText, Concat(chunks[..n]), chunks[n]);
    }
  }

  lemma StepConserves(r: Rules, s: State, raw: Text)
    requires ValidRules(r) && !s.suppress && !PushStep(r, s, raw).overflowed
    ensures var step := PushStep(r, s, raw);
      && !step.state.suppress && step.state.control == Strip(s.control, raw).1
      && step.slice + step.state.pending == s.pending + Strip(s.control, raw).0
  {
    var value := s.pending + Strip(s.control, raw).0;
    CutTogether(value, EmitEnd(r, value));
  }

  lemma CutTogether(t: Text, n: nat)
    requires n <= |t|
    ensures t[..n] + t[n..] == t
  {
  }

  /** Before any overflow nothing is suppressed, and nothing is lost or reordered: the slices and then the
      held text are the stripped chunks. */
  lemma {:induction false} Conserves(r: Rules, chunks: seq<Text>)
    requires ValidRules(r) && NoOverflow(r, chunks)
    ensures !StateAfter(r, chunks).suppress && StateAfter(r, chunks).control == Strip(InText, Concat(chunks)).1
    ensures Slices(r, chunks) + StateAfter(r, chunks).pending == StripEach(chunks)
  {
    if chunks != [] {
      var n := |chunks| - 1;
      Conserves(r, chunks[..n]);
      StripConcat(InText, Concat(chunks[..n]), chunks[n]);
      var s := StateAfter(r, chunks[..n]);
      StepConserves(r, s, chunks[n]);
      Regroup(Slices(r, chunks[..n]), LastStep(r, chunks).slice, StateAfter(r, chunks).pending,
              s.pending, Strip(s.control, chunks[n]).0);
    }
  }

  lemma Regroup(a: Text, b: Text, c: Text, d: Text, e: Text)
    requires b + c == d + e
    ensures (a + b) + c == (a + d) + e
  {
    Assoc(a, b, c);
    Assoc(a, d, e);
  }

  /** For every chunking before an overflow: the slices handed to redaction, followed by the held text, are
      the stripped whole input exactly when no boundary falls inside a surrogate pair behind an ESC. */
  lemma ConservesWhole(r: Rules, chunks: seq<Text>)
    requires ValidRules(r) && NoOverflow(r, chunks)
    ensures Slices(r, chunks) + StateAfter(r, chunks).pending == Strip(InText, Concat(chunks)).0 <==> EscapedSplits(chunks) == 0
  {
    Conserves(r, chunks);
    ChunkingMatters(chunks);
  }

  lemma SplitPairStripped()
    ensures Strip(InText, [0x1B, 0xD83D]) == ([], InText)
    ensures Strip(InText, [0xDE00]) == ([0xDE00], InText)
    ensures Strip(InText, [0x1B, 0xD83D, 0xDE00]) == ([], InText)
    ensures Strip(InText, [0x1B]) == ([], Escape)
  {
    assert [0x1B] + [0xD83D] == [0x1B, 0xD83D] && [0x1B] + [0xD83D, 0xDE00] == [0x1B, 0xD83D, 0xDE00] && [0x1B] + [] == [0x1B];
    var low: Text, high: Text, pair: Text := [0xDE00], [0xD83D], [0xD83D, 0xDE00];
    StripStep(InText, low, 1, 0xDE00, []);
    StripStep(Escape, high, 1, 0xD83D, []);
    StripStep(Escape, pair, 2, FirstPoint(pair), []);
    assert Strip(InText, []) == ([], InText) && low[..1] == low;
    NothingAfter(low);
    assert Strip(Escape, high) == ([], InText) && Strip(Escape, pair) == ([], InText);
    AfterEscape(high);
    AfterEscape(pair);
    AfterEscape([]);
  }

  lemma AfterEscape(t: Text)
    ensures Strip(InText, [0x1B] + t) == Strip(Escape, t)
  {
    var whole := [0x1B] + t;
    assert whole[1..] == t && CharUnits(whole) == 1;
    NothingAfter(Strip(Escape, t).0);
  }

  /** One short chunk never overflows, and is stripped as it is. */
  lemma OneChunk(r: Rules, t: Text)
    requires ValidRules(r) && |t| <= 3
    ensures NoOverflow(r, [t]) && EscapedSplits([t]) == 0 && Concat([t]) == t && StripEach([t]) == Strip(InText, t).0
    ensures |Strip(InText, t).0| <= 3
    ensures Slices(r, [t]) + StateAfter(r, [t]).pending == Strip(InText, t).0
  {
    var one := [t];
    assert one[..0] == [];
    NothingAfter(t);
    NothingAfter(Strip(InText, t).0);
    StripShorter(InText, t);
    assert LastStep(r, one) == PushStep(r, START, t);
    Conserves(r, one);
  }

  lemma {:induction false} StripShorter(state: ControlState, value: Text)
    ensures |Strip(state, value).0| <= |value|
    decreases |value|
  {
    if value != [] { StripShorter(NextState(state, FirstPoint(value)), value[CharUnits(value)..]); }
  }

  /** The exception is real, under every set of rules: an ESC with the first half of a pair, and then the
      second half, emit that half; the same text in one chunk leaves nothing. */
  lemma ChunkingCanMatter(r: Rules) returns (a: Text, b: Text)
    requires ValidRules(r)
    ensures a == [0x1B, 0xD83D] && b == [0xDE00]
    ensures NoOverflow(r, [a, b]) && EscapedSplits([a, b]) == 1 && Slices(r, [a, b]) + StateAfter(r, [a, b]).pending == b
    ensures NoOverflow(r, [a + b]) && Slices(r, [a + b]) + StateAfter(r, [a + b]).pending == []
  {
    a, b := PairBehindEscape();
    ChunkingDiffers(r, a, b);
  }

  lemma PairBehindEscape() returns (a: Text, b: Text)
    ensures a == [0x1B, 0xD83D] && b == [0xDE00] && CutsPair(a, b) && Strip(InText, a[..|a| - 1]).1.Escape?
    ensures Strip(InText, a) == ([], InText) && Strip(InText, b).0 == b && Strip(InText, a + b).0 == []
  {
    SplitPairStripped();
    a, b := [0x1B, 0xD83D], [0xDE00];
    assert a + b == [0x1B, 0xD83D, 0xDE00] && a[..1] == [0x1B];
  }

  lemma ChunkingDiffers(r: Rules, a: Text, b: Text)
    requires ValidRules(r) && |a + b| <= 3 && CutsPair(a, b) && Strip(InText, a[..|a| - 1]).1.Escape?
    requires Strip(InText, a) == ([], InText) && Strip(InText, b).0 == b && Strip(InText, a + b).0 == []
    ensures NoOverflow(r, [a, b]) && EscapedSplits([a, b]) == 1 && Slices(r, [a, b]) + StateAfter(r, [a, b]).pending == b
    ensures NoOverflow(r, [a + b]) && Slices(r, [a + b]) + StateAfter(r, [a + b]).pending == []
  {
    OneChunk(r, a + b);
    SecondChunk(r, a, b);
    NothingAfter(b);
  }

  lemma SecondChunk(r: Rules, a: Text, b: Text)
    requires ValidRules(r) && |a| <= 3 && |b| <= 3
    ensures NoOverflow(r, [a, b]) && Concat([a, b]) == a + b
    ensures EscapedSplits([a, b]) == if SplitsEscaped(InText, a, b) then 1 else 0
    ensures Slices(r, [a, b]) + StateAfter(r, [a, b]).pending == Strip(InText, a).0 + Strip(Strip(InText, a).1, b).0
  {
    var two := [a, b];
    assert two[..1] == [a];
    OneChunk(r, a);
    Conserves(r, [a]);
    StripShorter(Strip(InText, a).1, b);
    assert |StateAfter(r, [a]).pending| <= 3;
    assert LastStep(r, two) == PushStep(r, StateAfter(r, [a]), b);
    Conserves(r, two);
  }

  lemma StepHolds(r: Rules, s: State, raw: Text, k: nat)
    requires ValidRules(r) && !s.suppress && !PushStep(r, s, raw).overflowed
    requires var value := s.pending + Strip(s.control, raw).0; k < |value| && GrowsIntoTrigger(value[k..])
    ensures |PushStep(r, s, raw).slice| <= k
  {
    TriggerTailFirst(s.pending + Strip(s.control, raw).0, k);
  }

  /** A tail that could grow into a trigger opening and reaches back into `before` starts with one that
      could already. */
  lemma HeldBefore(before: Text, all: Text, k: nat)
    requires k < |before| && before <= all && GrowsIntoTrigger(all[k..])
    ensures GrowsIntoTrigger(before[k..])
  {
    ShorterGrows(all[k..], |before| - k);
    assert all[k..][..|before| - k] == before[k..];
  }

  /** Every tail of the received text that could grow into a trigger opening is held back whole. */
  lemma {:induction false} TriggersHeld(r: Rules, chunks: seq<Text>, k: nat)
    requires ValidRules(r) && NoOverflow(r, chunks)
    requires k < |StripEach(chunks)| && GrowsIntoTrigger(StripEach(chunks)[k..])
    ensures k >= |Slices(r, chunks)|
  {
    if chunks != [] {
      var n := |chunks| - 1;
      var before, s := StripEach(chunks[..n]), StateAfter(r, chunks[..n]);
      var added := Strip(s.control, chunks[n]).0;
      LastReceived(r, chunks);
      if k < |before| {
        HeldBefore(before, before + added, k);
        TriggersHeld(r, chunks[..n], k);
      }
      LastHolds(r, Slices(r, chunks[..n]), s, chunks[n], k);
    }
  }

  lemma LastHolds(r: Rules, slices: Text, s: State, raw: Text, k: nat)
    requires ValidRules(r) && !s.suppress && !PushStep(r, s, raw).overflowed
    requires var all := slices + s.pending + Strip(s.control, raw).0; |slices| <= k < |all| && GrowsIntoTrigger(all[k..])
    ensures |slices| + |PushStep(r, s, raw).slice| <= k
  {
    Suffix(slices, s.pending, Strip(s.control, raw).0, k);
    StepHolds(r, s, raw, k - |slices|);
  }

  lemma LastReceived(r: Rules, chunks: seq<Text>)
    requires ValidRules(r) && NoOverflow(r, chunks) && chunks != []
    ensures var n := |chunks| - 1;
      var s := StateAfter(r, chunks[..n]);
      && !s.suppress && Slices(r, chunks[..n]) + s.pending == StripEach(chunks[..n])
      && StripEach(chunks) == StripEach(chunks[..n]) + Strip(s.control, chunks[n]).0
  {
    Conserves(r, chunks[..|chunks| - 1]);
  }

  lemma Suffix(a: Text, b: Text, c: Text, k: nat)
    requires |a| <= k <= |a| + |b| + |c|
    ensures (a + b + c)[k..] == (b + c)[k - |a|..]
  {
  }

  lemma StepClean(r: Rules, s: State, raw: Text)
    requires ValidRules(r) && Clean(s.pending)
    ensures Clean(PushStep(r, s, raw).slice) && Clean(PushStep(r, s, raw).state.pending)
  {
    StripClean(s.control, raw);
  }

  /** Whatever happens, what is handed to redaction and what is held has no control but tab, LF and CR. */
  lemma {:induction false} NoControlsSurvive(r: Rules, chunks: seq<Text>)
    requires ValidRules(r)
    ensures Clean(Slices(r, chunks)) && Clean(StateAfter(r, chunks).pending)
  {
    if chunks != [] {
      var n := |chunks| - 1;
      NoControlsSurvive(r, chunks[..n]);
      StepClean(r, StateAfter(r, chunks[..n]), chunks[n]);
    }
  }
}
