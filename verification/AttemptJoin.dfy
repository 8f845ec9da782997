/** The attempt-scoped cohort join: which arm a task belongs to, and which of its usage records count.
    Record fields are `None` when absent, not of their type, or not finite; token counts are whole numbers. */
module AttemptJoin {
  import opened Wrappers
  import opened Unicode
  import Decimal

  datatype Identity = Identity(taskId: Option<Text>, runId: Option<Text>, workerId: Option<Text>, attemptId: Option<Text>)

  /** `at`: the parsed timestamp. `features`: `None` when not an array; entries are `None` when not strings. */
  datatype ContextRecord = ContextRecord(
    identity: Identity, at: Option<int>, maxContextChars: Option<int>, features: Option<seq<Option<Text>>>)

  datatype UsageRecord = UsageRecord(
    identity: Identity, inputTokens: Option<int>, outputTokens: Option<int>, cacheCreationTokens: Option<int>,
    turns: Option<int>, attempt: Option<int>, retryReason: Option<Text>, inRepairPhase: bool)

  // ----- trimming -----

  function TrimStart(t: Text): Text {
    if t != [] && IsSpace(t[0]) then TrimStart(t[1..]) else t
  }

  function TrimEnd(t: Text): Text {
    if t != [] && IsSpace(t[|t| - 1]) then TrimEnd(t[..|t| - 1]) else t
  }

  function Trim(t: Text): Text { TrimEnd(TrimStart(t)) }

  function TrimmedOrEmpty(value: Option<Text>): Text { if value.None? then [] else Trim(value.value) }

  function TaskIdOf(i: Identity): Text { TrimmedOrEmpty(i.taskId) }

  // ----- the attempt key -----

  const COLON: Unit := 58
  const BAR: Unit := 124

  function Digits(n: nat): Text {
    var s := Decimal.Print(n);
    seq(|s|, i requires 0 <= i < |s| => s[i] as int)
  }

  function Prefixed(part: Text): Text { Digits(|part|) + [COLON] + part }

  function AttemptKey(i: Identity): Option<Text> {
    var task, run := TaskIdOf(i), TrimmedOrEmpty(i.runId);
    var worker, attempt := TrimmedOrEmpty(i.workerId), TrimmedOrEmpty(i.attemptId);
    if task == [] || run == [] || worker == [] || attempt == [] then None
    else Some(Prefixed(run) + ([BAR] + (Prefixed(worker) + ([BAR] + (Prefixed(task) + ([BAR] + Prefixed(attempt)))))))
  }

  lemma DigitsInjective(a: nat, b: nat)
    requires Digits(a) == Digits(b)
    ensures a == b
  {
    var s, t := Decimal.Print(a), Decimal.Print(b);
    assert |s| == |Digits(a)| == |Digits(b)| == |t|;
    forall i | 0 <= i < |s|
      ensures s[i] == t[i]
    {
      assert Digits(a)[i] == s[i] as int && Digits(b)[i] == t[i] as int;
    }
    assert s == t;
    Decimal.PrintRead(a);
    Decimal.PrintRead(b);
  }

  lemma DigitsHaveNoColon(n: nat)
    ensures COLON !in Digits(n)
  {
    forall i | 0 <= i < |Digits(n)|
      ensures Digits(n)[i] != COLON
    {
      assert Decimal.IsDigit(Decimal.Print(n)[i]);
    }
  }

  lemma NotShorter(a: Text, b: Text, sep: Unit, x: Text, y: Text)
    requires sep !in b && a + [sep] + x == b + [sep] + y
    ensures |a| >= |b|
  {
    assert (a + [sep] + x)[|a|] == sep;
  }

  /** Text before the first separator, and after it. */
  lemma SeparatorUnique(a: Text, b: Text, sep: Unit, x: Text, y: Text)
    requires sep !in a && sep !in b && a + [sep] + x == b + [sep] + y
    ensures a == b && x == y
  {
    var s, t := a + [sep] + x, b + [sep] + y;
    NotShorter(a, b, sep, x, y);
    NotShorter(b, a, sep, y, x);
    assert a == s[..|a|] && b == t[..|b|];
    assert x == s[|a| + 1..] && y == t[|b| + 1..];
  }

  lemma PrefixedUnique(a: Text, b: Text, x: Text, y: Text)
    requires Prefixed(a) + x == Prefixed(b) + y
    ensures a == b && x == y
  {
    DigitsHaveNoColon(|a|);
    DigitsHaveNoColon(|b|);
    assert Digits(|a|) + [COLON] + (a + x) == Prefixed(a) + x;
    assert Digits(|b|) + [COLON] + (b + y) == Prefixed(b) + y;
    SeparatorUnique(Digits(|a|), Digits(|b|), COLON, a + x, b + y);
    DigitsInjective(|a|, |b|);
    assert a == (a + x)[..|a|] && b == (b + y)[..|b|];
    assert x == (a + x)[|a|..] && y == (b + y)[|b|..];
  }

  /** Two records have the same key exactly when their four trimmed fields agree and none is empty. */
  lemma KeyInjective(i: Identity, j: Identity)
    requires AttemptKey(i).Some? && AttemptKey(j).Some?
    ensures AttemptKey(i) == AttemptKey(j) <==>
      && TrimmedOrEmpty(i.runId) == TrimmedOrEmpty(j.runId) && TrimmedOrEmpty(i.workerId) == TrimmedOrEmpty(j.workerId)
      && TaskIdOf(i) == TaskIdOf(j) && TrimmedOrEmpty(i.attemptId) == TrimmedOrEmpty(j.attemptId)
  {
    if AttemptKey(i) == AttemptKey(j) {
      var a, b := Tail3(i), Tail3(j);
      PrefixedUnique(TrimmedOrEmpty(i.runId), TrimmedOrEmpty(j.runId), [BAR] + a, [BAR] + b);
      assert a == ([BAR] + a)[1..] && b == ([BAR] + b)[1..];
      PrefixedUnique(TrimmedOrEmpty(i.workerId), TrimmedOrEmpty(j.workerId), [BAR] + Tail2(i), [BAR] + Tail2(j));
      assert Tail2(i) == ([BAR] + Tail2(i))[1..] && Tail2(j) == ([BAR] + Tail2(j))[1..];
      var c, d := Prefixed(TrimmedOrEmpty(i.attemptId)), Prefixed(TrimmedOrEmpty(j.attemptId));
      PrefixedUnique(TaskIdOf(i), TaskIdOf(j), [BAR] + c, [BAR] + d);
      assert c == ([BAR] + c)[1..] && d == ([BAR] + d)[1..];
      assert c + [] == c && d + [] == d;
      PrefixedUnique(TrimmedOrEmpty(i.attemptId), TrimmedOrEmpty(j.attemptId), [], []);
    }
  }

  function Tail2(i: Identity): Text { Prefixed(TaskIdOf(i)) + ([BAR] + Prefixed(TrimmedOrEmpty(i.attemptId))) }

  function Tail3(i: Identity): Text { Prefixed(TrimmedOrEmpty(i.workerId)) + ([BAR] + Tail2(i)) }

  // ----- arms -----

  datatype AssignmentArm = Canary | Control

  datatype AppliedArm = AppliedControl | RawFallback | Compressed

  datatype Arms = Arms(assignmentArm: AssignmentArm, appliedArm: AppliedArm, features: seq<Text>)

  /** "size-fallback" */
  const FALLBACK_MARKER: Text := [115, 105, 122, 101, 45, 102, 97, 108, 108, 98, 97, 99, 107]

  function NormalizeFeatures(features: Option<seq<Option<Text>>>): seq<Text> {
    if features.None? then [] else Trimmed(features.value)
  }

  function Trimmed(features: seq<Option<Text>>): seq<Text> {
    if features == [] then []
    else (if TrimmedOrEmpty(features[0]) == [] then [] else [TrimmedOrEmpty(features[0])]) + Trimmed(features[1..])
  }

  function RealFeatures(raw: seq<Text>): seq<Text> {
    if raw == [] then [] else (if raw[0] == FALLBACK_MARKER then [] else [raw[0]]) + RealFeatures(raw[1..])
  }

  function ClassifyArms(raw: seq<Text>): Arms {
    var features := RealFeatures(raw);
    if features == [] then Arms(Control, AppliedControl, features)
    else Arms(Canary, if FALLBACK_MARKER in raw then RawFallback else Compressed, features)
  }

  predicate DescribesPack(r: ContextRecord) { r.maxContextChars.Some? && r.maxContextChars.value > 0 }

  function TimeMs(r: ContextRecord): int { if r.at.None? then 0 else r.at.value }

  function ArmsOf(r: ContextRecord): Arms { ClassifyArms(NormalizeFeatures(r.features)) }

  datatype ArmAssignment = ArmAssignment(arms: Arms, dispatchCount: nat, latestMs: int)

  predicate PackOf(r: ContextRecord, task: Text) { TaskIdOf(r.identity) == task && DescribesPack(r) }

  /** The arm of a task after these records: the latest pack record wins, ties to the later line. */
  function AssignmentFor(records: seq<ContextRecord>, task: Text): Option<ArmAssignment> {
    if records == [] then None
    else
      var before, r := AssignmentFor(records[..|records| - 1], task), records[|records| - 1];
      if !PackOf(r, task) then before
      else if before.None? then Some(ArmAssignment(ArmsOf(r), 1, TimeMs(r)))
      else if TimeMs(r) >= before.value.latestMs then Some(ArmAssignment(ArmsOf(r), before.value.dispatchCount + 1, TimeMs(r)))
      else Some(before.value.(dispatchCount := before.value.dispatchCount + 1))
  }

  method AssignArms(records: seq<ContextRecord>) returns (byTask: map<Text, ArmAssignment>)
    ensures forall t :: t in byTask <==> t != [] && AssignmentFor(records, t).Some?
    ensures forall t :: t in byTask ==> byTask[t] == AssignmentFor(records, t).value
  {
    byTask := map[];
    for i := 0 to |records|
      invariant forall t :: t in byTask <==> t != [] && AssignmentFor(records[..i], t).Some?
      invariant forall t :: t in byTask ==> byTask[t] == AssignmentFor(records[..i], t).value
    {
      var r := records[i];
      assert records[..i + 1][..i] == records[..i] && records[..i + 1][i] == r;
      var task := TaskIdOf(r.identity);
      if task != [] && DescribesPack(r) {
        var arms, at := ArmsOf(r), TimeMs(r);
        if task !in byTask {
          byTask := byTask[task := ArmAssignment(arms, 1, at)];
        } else {
          var current := byTask[task];
          current := current.(dispatchCount := current.dispatchCount + 1);
          if at >= current.latestMs { current := current.(arms := arms, latestMs := at); }
          byTask := byTask[task := current];
        }
      }
    }
    assert records[..|records|] == records;
  }

  function PackCount(records: seq<ContextRecord>, task: Text): nat {
    if records == [] then 0
    else PackCount(records[..|records| - 1], task) + if PackOf(records[|records| - 1], task) then 1 else 0
  }

  /** Index `k` holds the record that decides: nothing is later, and nothing after it is as late. */
  ghost predicate Decides(records: seq<ContextRecord>, task: Text, k: nat) {
    && k < |records| && PackOf(records[k], task)
    && forall j :: 0 <= j < |records| && PackOf(records[j], task) && j != k ==>
         TimeMs(records[j]) <= TimeMs(records[k]) && (j > k ==> TimeMs(records[j]) < TimeMs(records[k]))
  }

  /** The deciding record gives the arm; every pack record, and no other line, counts as a dispatch. */
  lemma {:induction false} LatestPackDecides(records: seq<ContextRecord>, task: Text) returns (k: nat)
    requires AssignmentFor(records, task).Some?
    ensures var a := AssignmentFor(records, task).value;
      Decides(records, task, k) && a.arms == ArmsOf(records[k]) && a.latestMs == TimeMs(records[k]) && a.dispatchCount == PackCount(records, task)
  {
    var n := |records| - 1;
    PackMeansArm(records[..n], task);
    if AssignmentFor(records[..n], task).None? {
      k := n;
      forall j | 0 <= j < n ensures !PackOf(records[j], task) { NoPack(records[..n], task, j); }
    } else {
      k := LatestPackDecides(records[..n], task);
      if PackOf(records[n], task) && TimeMs(records[n]) >= AssignmentFor(records[..n], task).value.latestMs {
        forall j | 0 <= j < n && PackOf(records[j], task)
          ensures TimeMs(records[j]) <= TimeMs(records[k])
        {
          assert records[j] == records[..n][j];
        }
        k := n;
      } else {
        forall j | 0 <= j < n && PackOf(records[j], task) && j != k
          ensures TimeMs(records[j]) <= TimeMs(records[k]) && (j > k ==> TimeMs(records[j]) < TimeMs(records[k]))
        {
          assert records[j] == records[..n][j];
        }
      }
    }
  }

  /** Only a task without any pack record has no arm. */
  lemma {:induction false} PackMeansArm(records: seq<ContextRecord>, task: Text)
    ensures AssignmentFor(records, task).None? <==> PackCount(records, task) == 0
  {
    if records != [] { PackMeansArm(records[..|records| - 1], task); }
  }

  lemma {:induction false} NoPack(records: seq<ContextRecord>, task: Text, j: nat)
    requires PackCount(records, task) == 0 && j < |records|
    ensures !PackOf(records[j], task)
  {
    if j < |records| - 1 { NoPack(records[..|records| - 1], task, j); }
  }

  // ----- usage -----

  datatype TaskUsage = TaskUsage(billableTokens: int, turns: int, turnsMeasured: bool, records: nat, repaired: bool)

  const NO_USAGE := TaskUsage(0, 0, false, 0, false)

  function Numeric(value: Option<int>): int { if value.None? then 0 else value.value }

  predicate IsRepair(r: UsageRecord) {
    (r.attempt.Some? && r.attempt.value > 1) || TrimmedOrEmpty(r.retryReason) != [] || r.inRepairPhase
  }

  function AddRecord(u: TaskUsage, r: UsageRecord): TaskUsage {
    TaskUsage(
      u.billableTokens + Numeric(r.inputTokens) + Numeric(r.outputTokens) + Numeric(r.cacheCreationTokens),
      u.turns + Numeric(r.turns), u.turnsMeasured || r.turns.Some?, u.records + 1, u.repaired || IsRepair(r))
  }

  /** The sums over all these records. */
  function Totals(records: seq<UsageRecord>): (u: TaskUsage)
    ensures u.records == |records|
  {
    if records == [] then NO_USAGE else AddRecord(Totals(records[..|records| - 1]), records[|records| - 1])
  }

  function Of(records: seq<UsageRecord>, task: Text): seq<UsageRecord> {
    if records == [] then []
    else
      var before, r := Of(records[..|records| - 1], task), records[|records| - 1];
      if TaskIdOf(r.identity) == task then before + [r] else before
  }

  /** A task is present exactly when it has a record, with the sums over all its records. */
  predicate SumsUp(byTask: map<Text, TaskUsage>, mine: seq<UsageRecord>, task: Text) {
    && (task in byTask <==> task != [] && mine != [])
    && (task in byTask ==> byTask[task] == Totals(mine))
  }

  ghost predicate Summarizes(byTask: map<Text, TaskUsage>, records: seq<UsageRecord>) {
    forall t :: SumsUp(byTask, Of(records, t), t)
  }

  lemma OfSnoc(records: seq<UsageRecord>, r: UsageRecord, task: Text)
    ensures Of(records + [r], task) == if TaskIdOf(r.identity) == task then Of(records, task) + [r] else Of(records, task)
    ensures Totals(Of(records, task) + [r]) == AddRecord(Totals(Of(records, task)), r)
  {
    assert (records + [r])[..|records|] == records;
    var before := Of(records, task);
    assert (before + [r])[..|before|] == before;
  }

  lemma SummaryStep(byTask: map<Text, TaskUsage>, records: seq<UsageRecord>, r: UsageRecord)
    requires Summarizes(byTask, records)
    ensures var task := TaskIdOf(r.identity);
      Summarizes(if task == [] then byTask else byTask[task := AddRecord(if task in byTask then byTask[task] else NO_USAGE, r)], records + [r])
  {
    var task := TaskIdOf(r.identity);
    var after := if task == [] then byTask else byTask[task := AddRecord(if task in byTask then byTask[task] else NO_USAGE, r)];
    forall t
      ensures SumsUp(after, Of(records + [r], t), t)
    {
      assert SumsUp(byTask, Of(records, t), t);
      OfSnoc(records, r, t);
      if t == task && t !in byTask && t != [] { assert Totals(Of(records, t)) == NO_USAGE; }
    }
  }

  method SummarizeUsageByTask(records: seq<UsageRecord>) returns (byTask: map<Text, TaskUsage>)
    ensures Summarizes(byTask, records)
  {
    byTask := map[];
    for i := 0 to |records|
      invariant Summarizes(byTask, records[..i])
    {
      var r := records[i];
      assert records[..i + 1] == records[..i] + [r];
      SummaryStep(byTask, records[..i], r);
      var task := TaskIdOf(r.identity);
      if task != [] {
        var current := if task in byTask then byTask[task] else NO_USAGE;
        byTask := byTask[task := AddRecord(current, r)];
      }
    }
    assert records[..|records|] == records;
  }

  // ----- which records count -----

  /** The attempts whose pack records name this task. */
  function Attempts(records: seq<ContextRecord>, task: Text): set<Text> {
    if records == [] then {}
    else
      var before, r := Attempts(records[..|records| - 1], task), records[|records| - 1];
      if PackOf(r, task) && AttemptKey(r.identity).Some? then before + {AttemptKey(r.identity).value} else before
  }

  method ContextIdentityKeysByTask(records: seq<ContextRecord>) returns (byTask: map<Text, set<Text>>)
    ensures forall t :: t in byTask <==> Attempts(records, t) != {}
    ensures forall t :: t in byTask ==> byTask[t] == Attempts(records, t)
  {
    byTask := map[];
    for i := 0 to |records|
      invariant forall t :: t in byTask <==> Attempts(records[..i], t) != {}
      invariant forall t :: t in byTask ==> byTask[t] == Attempts(records[..i], t)
    {
      var r := records[i];
      assert records[..i + 1][..i] == records[..i] && records[..i + 1][i] == r;
      var key := AttemptKey(r.identity);
      if key.Some? && DescribesPack(r) {
        var task := TaskIdOf(r.identity);
        var attempts := if task in byTask then byTask[task] else {};
        byTask := byTask[task := attempts + {key.value}];
      }
    }
    assert records[..|records|] == records;
  }

  function TaskContext(records: seq<ContextRecord>, task: Text): seq<ContextRecord> {
    if records == [] then []
    else
      var before, r := TaskContext(records[..|records| - 1], task), records[|records| - 1];
      if TaskIdOf(r.identity) == task then before + [r] else before
  }

  datatype KeyArm = KeyArm(arm: AssignmentArm, at: int)

  predicate PackOfKey(r: ContextRecord, key: Text) { AttemptKey(r.identity) == Some(key) && DescribesPack(r) }

  /** The arm an attempt resolves to: its latest pack record wins. */
  function ArmOfKey(records: seq<ContextRecord>, key: Text): Option<KeyArm> {
    if records == [] then None
    else
      var before, r := ArmOfKey(records[..|records| - 1], key), records[|records| - 1];
      if PackOfKey(r, key) && (before.None? || TimeMs(r) >= before.value.at) then Some(KeyArm(ArmsOf(r).assignmentArm, TimeMs(r)))
      else before
  }

  method AssignmentArmByKey(records: seq<ContextRecord>) returns (byKey: map<Text, AssignmentArm>)
    ensures forall k :: k in byKey <==> ArmOfKey(records, k).Some?
    ensures forall k :: k in byKey ==> byKey[k] == ArmOfKey(records, k).value.arm
  {
    var latest: map<Text, KeyArm> := map[];
    for i := 0 to |records|
      invariant forall k :: k in latest <==> ArmOfKey(records[..i], k).Some?
      invariant forall k :: k in latest ==> latest[k] == ArmOfKey(records[..i], k).value
    {
      var r := records[i];
      assert records[..i + 1][..i] == records[..i] && records[..i + 1][i] == r;
      var key := AttemptKey(r.identity);
      if key.Some? && DescribesPack(r) {
        var arms, at := ArmsOf(r), TimeMs(r);
        if key.value !in latest || at >= latest[key.value].at {
          latest := latest[key.value := KeyArm(arms.assignmentArm, at)];
        }
      }
    }
    assert records[..|records|] == records;
    byKey := map k | k in latest :: latest[k].arm;
  }

  /** The record's own attempt resolves to the arm the task was given. */
  predicate ResolvesToTaskArm(context: seq<ContextRecord>, r: UsageRecord) {
    var task, key := TaskIdOf(r.identity), AttemptKey(r.identity);
    && AssignmentFor(context, task).Some? && key.Some?
    && ArmOfKey(TaskContext(context, task), key.value).Some?
    && ArmOfKey(TaskContext(context, task), key.value).value.arm == AssignmentFor(context, task).value.arms.assignmentArm
  }

  /** With at most one known attempt every record of a task counts. */
  predicate Counts(context: seq<ContextRecord>, r: UsageRecord) {
    |Attempts(context, TaskIdOf(r.identity))| <= 1 || ResolvesToTaskArm(context, r)
  }

  function Counted(context: seq<ContextRecord>, records: seq<UsageRecord>): seq<UsageRecord> {
    if records == [] then []
    else
      var before, r := Counted(context, records[..|records| - 1]), records[|records| - 1];
      if Counts(context, r) then before + [r] else before
  }

  /** How many records of these tasks do not count. */
  function ExcludedIn(context: seq<ContextRecord>, records: seq<UsageRecord>, tasks: set<Text>): nat {
    if records == [] then 0
    else
      var r := records[|records| - 1];
      ExcludedIn(context, records[..|records| - 1], tasks) + if TaskIdOf(r.identity) in tasks && !Counts(context, r) then 1 else 0
  }

  function LegacyTasks(context: seq<ContextRecord>, records: seq<UsageRecord>, tasks: set<Text>): set<Text> {
    set t | t in tasks && ExcludedIn(context, records, {t}) > 0
  }

  /** Records with a task id that count, that do not, and the tasks of the latter. */
  function CountedTotal(context: seq<ContextRecord>, records: seq<UsageRecord>): nat {
    if records == [] then 0
    else
      var r := records[|records| - 1];
      CountedTotal(context, records[..|records| - 1]) + if TaskIdOf(r.identity) != [] && Counts(context, r) then 1 else 0
  }

  function ExcludedTotal(context: seq<ContextRecord>, records: seq<UsageRecord>): nat {
    if records == [] then 0
    else ExcludedTotal(context, records[..|records| - 1]) + if Counts(context, records[|records| - 1]) then 0 else 1
  }

  function TasksLeftOut(context: seq<ContextRecord>, records: seq<UsageRecord>): set<Text> {
    set i | 0 <= i < |records| && !Counts(context, records[i]) :: TaskIdOf(records[i].identity)
  }

  datatype Legacy = Legacy(n: nat, excludedUsageRecords: nat)

  /** Final usage: for each task the sums over exactly its counted records. */
  ghost predicate Joined(context: seq<ContextRecord>, records: seq<UsageRecord>, byTask: map<Text, TaskUsage>) {
    forall t :: SumsUp(byTask, Counted(context, Of(records, t)), t)
  }

  // ----- correcting ambiguous tasks -----

  /** The usage map when these tasks have been corrected and the others not yet. */
  ghost predicate PartlyJoined(context: seq<ContextRecord>, records: seq<UsageRecord>, byTask: map<Text, TaskUsage>, todo: set<Text>) {
    forall t :: SumsUp(byTask, if t in todo then Of(records, t) else Counted(context, Of(records, t)), t)
  }

  lemma {:induction false} UnambiguousAllCount(context: seq<ContextRecord>, records: seq<UsageRecord>, task: Text)
    requires |Attempts(context, task)| <= 1
    ensures Counted(context, Of(records, task)) == Of(records, task)
  {
    if records != [] {
      UnambiguousAllCount(context, records[..|records| - 1], task);
      CountedSnoc(context, Of(records[..|records| - 1], task), records[|records| - 1]);
    }
  }

  lemma CountedSnoc(context: seq<ContextRecord>, records: seq<UsageRecord>, r: UsageRecord)
    ensures Counted(context, records + [r]) == if Counts(context, r) then Counted(context, records) + [r] else Counted(context, records)
  {
    assert (records + [r])[..|records|] == records;
  }

  ghost predicate OfTask(records: seq<UsageRecord>, task: Text) {
    forall i :: 0 <= i < |records| ==> TaskIdOf(records[i].identity) == task
  }

  lemma {:induction false} OfIsAll(records: seq<UsageRecord>, task: Text)
    requires OfTask(records, task)
    ensures Of(records, task) == records
  {
    if records != [] { OfIsAll(records[..|records| - 1], task); }
  }

  lemma {:induction false} CountedAreOf(context: seq<ContextRecord>, records: seq<UsageRecord>, task: Text)
    requires OfTask(records, task)
    ensures OfTask(Counted(context, records), task)
    ensures |Counted(context, records)| <= |records|
    ensures |Counted(context, records)| == |records| ==> Counted(context, records) == records
  {
    if records != [] {
      var n := |records| - 1;
      CountedAreOf(context, records[..n], task);
      assert records == records[..n] + [records[n]];
    }
  }

  lemma {:induction false} OfHasTask(records: seq<UsageRecord>, task: Text)
    ensures OfTask(Of(records, task), task)
  {
    if records != [] { OfHasTask(records[..|records| - 1], task); }
  }

  /** What is excluded of one task is what is missing from its counted records. */
  lemma {:induction false} ExcludedOfTask(context: seq<ContextRecord>, records: seq<UsageRecord>, task: Text)
    ensures ExcludedIn(context, records, {task}) == |Of(records, task)| - |Counted(context, Of(records, task))|
  {
    if records != [] {
      ExcludedOfTask(context, records[..|records| - 1], task);
      CountedSnoc(context, Of(records[..|records| - 1], task), records[|records| - 1]);
    }
  }

  lemma {:induction false} ExcludedAdds(context: seq<ContextRecord>, records: seq<UsageRecord>, tasks: set<Text>, task: Text)
    requires task !in tasks
    ensures ExcludedIn(context, records, tasks + {task}) == ExcludedIn(context, records, tasks) + ExcludedIn(context, records, {task})
  {
    if records != [] { ExcludedAdds(context, records[..|records| - 1], tasks, task); }
  }

  lemma {:induction false} ExcludedNone(context: seq<ContextRecord>, records: seq<UsageRecord>)
    ensures ExcludedIn(context, records, {}) == 0
  {
    if records != [] { ExcludedNone(context, records[..|records| - 1]); }
  }

  /** A task with a known attempt has an arm. */
  lemma {:induction false} AttemptMeansArm(context: seq<ContextRecord>, task: Text)
    requires Attempts(context, task) != {}
    ensures AssignmentFor(context, task).Some? && task != []
  {
    var n := |context| - 1;
    if Attempts(context[..n], task) != {} { AttemptMeansArm(context[..n], task); }
  }

  lemma LegacyGrows(context: seq<ContextRecord>, records: seq<UsageRecord>, done: set<Text>, task: Text)
    requires task !in done
    ensures var more := LegacyTasks(context, records, done + {task});
      |more| == |LegacyTasks(context, records, done)| + if ExcludedIn(context, records, {task}) > 0 then 1 else 0
  {
    var less := LegacyTasks(context, records, done);
    if ExcludedIn(context, records, {task}) > 0 {
      assert LegacyTasks(context, records, done + {task}) == less + {task};
    } else {
      assert LegacyTasks(context, records, done + {task}) == less;
    }
  }

  /** Splits the usage of one ambiguous task by whether each record's attempt resolves to `arm`. */
  method SplitUsage(context: seq<ContextRecord>, task: Text, arm: AssignmentArm, all: seq<UsageRecord>)
    returns (kept: seq<UsageRecord>, excluded: nat)
    requires |Attempts(context, task)| > 1 && AssignmentFor(context, task).Some?
    requires arm == AssignmentFor(context, task).value.arms.assignmentArm
    requires OfTask(all, task)
    ensures kept == Counted(context, all) && excluded == |all| - |kept|
  {
    var armByKey := AssignmentArmByKey(TaskContext(context, task));
    kept, excluded := [], 0;
    for i := 0 to |all|
      invariant kept == Counted(context, all[..i]) && excluded == i - |kept|
    {
      var r := all[i];
      assert all[..i + 1] == all[..i] + [r];
      CountedSnoc(context, all[..i], r);
      var key := AttemptKey(r.identity);
      if key.Some? && key.value in armByKey && armByKey[key.value] == arm {
        kept := kept + [r];
      } else {
        excluded := excluded + 1;
      }
    }
    assert all[..|all|] == all;
  }

  method GroupUsage(records: seq<UsageRecord>) returns (byTask: map<Text, seq<UsageRecord>>)
    ensures forall t :: t in byTask <==> t != [] && Of(records, t) != []
    ensures forall t :: t in byTask ==> byTask[t] == Of(records, t)
  {
    byTask := map[];
    for i := 0 to |records|
      invariant forall t :: t in byTask <==> t != [] && Of(records[..i], t) != []
      invariant forall t :: t in byTask ==> byTask[t] == Of(records[..i], t)
    {
      var r := records[i];
      assert records[..i + 1][..i] == records[..i] && records[..i + 1][i] == r;
      var task := TaskIdOf(r.identity);
      if task != [] { byTask := byTask[task := if task in byTask then byTask[task] + [r] else [r]]; }
    }
    assert records[..|records|] == records;
  }

  lemma CorrectedStep(context: seq<ContextRecord>, records: seq<UsageRecord>, before: map<Text, TaskUsage>, after: map<Text, TaskUsage>,
                      todo: set<Text>, task: Text)
    requires PartlyJoined(context, records, before, todo) && task in todo
    requires SumsUp(after, Counted(context, Of(records, task)), task)
    requires forall t :: t != task ==> (t in after <==> t in before) && (t in after ==> after[t] == before[t])
    ensures PartlyJoined(context, records, after, todo - {task})
  {
    forall t
      ensures SumsUp(after, if t in todo - {task} then Of(records, t) else Counted(context, Of(records, t)), t)
    {
      assert SumsUp(before, if t in todo then Of(records, t) else Counted(context, Of(records, t)), t);
    }
  }

  lemma NothingCorrected(context: seq<ContextRecord>, records: seq<UsageRecord>, usage: map<Text, TaskUsage>, ambiguous: set<Text>)
    requires Summarizes(usage, records)
    requires forall t :: t !in ambiguous ==> |Attempts(context, t)| <= 1
    ensures PartlyJoined(context, records, usage, ambiguous)
  {
    forall t
      ensures SumsUp(usage, if t in ambiguous then Of(records, t) else Counted(context, Of(records, t)), t)
    {
      assert SumsUp(usage, Of(records, t), t);
      if t !in ambiguous { UnambiguousAllCount(context, records, t); }
    }
  }

  /** Corrects the usage of one ambiguous task. */
  method CorrectTask(usage: map<Text, TaskUsage>, context: seq<ContextRecord>, task: Text, arm: AssignmentArm, all: seq<UsageRecord>)
    returns (corrected: map<Text, TaskUsage>, excluded: nat)
    requires |Attempts(context, task)| > 1 && AssignmentFor(context, task).Some? && task != []
    requires arm == AssignmentFor(context, task).value.arms.assignmentArm
    requires OfTask(all, task)
    requires SumsUp(usage, all, task)
    ensures SumsUp(corrected, Counted(context, all), task) && excluded == |all| - |Counted(context, all)|
    ensures forall t :: t != task ==> (t in corrected <==> t in usage) && (t in corrected ==> corrected[t] == usage[t])
  {
    corrected, excluded := usage, 0;
    if all == [] { return; }
    CountedAreOf(context, all, task);
    var kept, excludedForTask := SplitUsage(context, task, arm, all);
    if excludedForTask == 0 { return; }
    excluded := excludedForTask;
    if kept == [] {
      corrected := usage - {task};
    } else {
      var recomputed := SummarizeUsageByTask(kept);
      OfIsAll(kept, task);
      assert SumsUp(recomputed, Of(kept, task), task);
      if task in recomputed { corrected := usage[task := recomputed[task]]; }
    }
  }

  lemma TallyStep(context: seq<ContextRecord>, records: seq<UsageRecord>, ambiguous: set<Text>, todo: set<Text>, task: Text)
    requires task in todo && todo <= ambiguous
    ensures var left := |Of(records, task)| - |Counted(context, Of(records, task))|;
      && ExcludedIn(context, records, ambiguous - (todo - {task})) == ExcludedIn(context, records, ambiguous - todo) + left
      && |LegacyTasks(context, records, ambiguous - (todo - {task}))| ==
           |LegacyTasks(context, records, ambiguous - todo)| + if left > 0 then 1 else 0
  {
    var done := ambiguous - todo;
    ExcludedOfTask(context, records, task);
    ExcludedAdds(context, records, done, task);
    LegacyGrows(context, records, done, task);
    assert ambiguous - (todo - {task}) == done + {task};
  }

  method CorrectAmbiguousTasks(assignments: map<Text, ArmAssignment>, usage: map<Text, TaskUsage>,
                               context: seq<ContextRecord>, records: seq<UsageRecord>)
    returns (corrected: map<Text, TaskUsage>, legacy: Legacy)
    requires forall t :: t in assignments <==> t != [] && AssignmentFor(context, t).Some?
    requires forall t :: t in assignments ==> assignments[t] == AssignmentFor(context, t).value
    requires Summarizes(usage, records)
    ensures Joined(context, records, corrected)
    ensures legacy == Legacy(|TasksLeftOut(context, records)|, ExcludedTotal(context, records))
  {
    var keysByTask := ContextIdentityKeysByTask(context);
    var ambiguous := set t | t in keysByTask && |keysByTask[t]| > 1;
    assert AmbiguousTasks(context, ambiguous);
    var usageByTaskId := GroupUsage(records);
    var todo := ambiguous;
    corrected, legacy := usage, Legacy(0, 0);
    ProgressStart(context, records, usage, ambiguous);
    while todo != {}
      invariant Progress(context, records, corrected, legacy, ambiguous, todo)
      decreases |todo|
    {
      var task :| task in todo;
      ghost var before := corrected;
      TaskReady(context, records, corrected, legacy, ambiguous, todo, task);
      var all := if task in usageByTaskId then usageByTaskId[task] else [];
      var excludedForTask;
      corrected, excludedForTask := CorrectTask(corrected, context, task, assignments[task].arms.assignmentArm, all);
      ProgressStep(context, records, before, legacy, corrected, excludedForTask, ambiguous, todo, task);
      legacy := SetAside(legacy, excludedForTask);
      todo := todo - {task};
    }
    ProgressDone(context, records, corrected, legacy, ambiguous);
  }

  function SetAside(legacy: Legacy, excludedForTask: nat): Legacy {
    if excludedForTask == 0 then legacy else Legacy(legacy.n + 1, legacy.excludedUsageRecords + excludedForTask)
  }

  ghost predicate AmbiguousTasks(context: seq<ContextRecord>, tasks: set<Text>) {
    && (forall t :: t in tasks ==> |Attempts(context, t)| > 1)
    && (forall t :: t !in tasks ==> |Attempts(context, t)| <= 1)
  }

  ghost predicate Progress(context: seq<ContextRecord>, records: seq<UsageRecord>, corrected: map<Text, TaskUsage>, tally: Legacy,
                           ambiguous: set<Text>, todo: set<Text>) {
    && todo <= ambiguous && AmbiguousTasks(context, ambiguous)
    && PartlyJoined(context, records, corrected, todo)
    && tally == Legacy(|LegacyTasks(context, records, ambiguous - todo)|, ExcludedIn(context, records, ambiguous - todo))
  }

  lemma ProgressStart(context: seq<ContextRecord>, records: seq<UsageRecord>, usage: map<Text, TaskUsage>, ambiguous: set<Text>)
    requires Summarizes(usage, records) && AmbiguousTasks(context, ambiguous)
    ensures Progress(context, records, usage, Legacy(0, 0), ambiguous, ambiguous)
  {
    NothingCorrected(context, records, usage, ambiguous);
    ExcludedNone(context, records);
    assert ambiguous - ambiguous == {};
  }

  lemma TaskReady(context: seq<ContextRecord>, records: seq<UsageRecord>, corrected: map<Text, TaskUsage>, tally: Legacy,
                  ambiguous: set<Text>, todo: set<Text>, task: Text)
    requires Progress(context, records, corrected, tally, ambiguous, todo) && task in todo
    ensures |Attempts(context, task)| > 1 && AssignmentFor(context, task).Some? && task != []
    ensures OfTask(Of(records, task), task)
    ensures SumsUp(corrected, Of(records, task), task)
  {
    AttemptMeansArm(context, task);
    OfHasTask(records, task);
    assert SumsUp(corrected, if task in todo then Of(records, task) else Counted(context, Of(records, task)), task);
  }

  lemma {:induction false} ProgressStep(context: seq<ContextRecord>, records: seq<UsageRecord>, before: map<Text, TaskUsage>, tally: Legacy,
                     after: map<Text, TaskUsage>, left: nat, ambiguous: set<Text>, todo: set<Text>, task: Text)
    requires Progress(context, records, before, tally, ambiguous, todo) && task in todo
    requires SumsUp(after, Counted(context, Of(records, task)), task)
    requires left == |Of(records, task)| - |Counted(context, Of(records, task))|
    requires forall t :: t != task ==> (t in after <==> t in before) && (t in after ==> after[t] == before[t])
    ensures Progress(context, records, after, SetAside(tally, left), ambiguous, todo - {task})
  {
    CorrectedStep(context, records, before, after, todo, task);
    TallyStep(context, records, ambiguous, todo, task);
  }

  lemma ProgressDone(context: seq<ContextRecord>, records: seq<UsageRecord>, corrected: map<Text, TaskUsage>, tally: Legacy,
                     ambiguous: set<Text>)
    requires Progress(context, records, corrected, tally, ambiguous, {})
    ensures Joined(context, records, corrected)
    ensures tally == Legacy(|TasksLeftOut(context, records)|, ExcludedTotal(context, records))
  {
    assert ambiguous - {} == ambiguous;
    AllExcludedAmbiguous(context, records, ambiguous);
    forall t
      ensures SumsUp(corrected, Counted(context, Of(records, t)), t)
    {
      assert SumsUp(corrected, if t in {} then Of(records, t) else Counted(context, Of(records, t)), t);
    }
  }

  lemma {:induction false} ExcludedSome(context: seq<ContextRecord>, records: seq<UsageRecord>, task: Text)
    ensures ExcludedIn(context, records, {task}) > 0 <==> task in TasksLeftOut(context, records)
  {
    if records != [] {
      var n := |records| - 1;
      ExcludedSome(context, records[..n], task);
      if task in TasksLeftOut(context, records) {
        var i :| 0 <= i < |records| && !Counts(context, records[i]) && TaskIdOf(records[i].identity) == task;
        if i < n { assert records[..n][i] == records[i]; }
      }
      if task in TasksLeftOut(context, records[..n]) {
        var i :| 0 <= i < n && !Counts(context, records[..n][i]) && TaskIdOf(records[..n][i].identity) == task;
        assert records[i] == records[..n][i];
      }
      if TaskIdOf(records[n].identity) == task && !Counts(context, records[n]) { assert task in TasksLeftOut(context, records); }
    }
  }

  lemma {:induction false} ExcludedAll(context: seq<ContextRecord>, records: seq<UsageRecord>, ambiguous: set<Text>)
    requires forall t :: t !in ambiguous ==> |Attempts(context, t)| <= 1
    ensures ExcludedIn(context, records, ambiguous) == ExcludedTotal(context, records)
  {
    if records != [] { ExcludedAll(context, records[..|records| - 1], ambiguous); }
  }

  /** Only records of ambiguous tasks are ever excluded. */
  lemma AllExcludedAmbiguous(context: seq<ContextRecord>, records: seq<UsageRecord>, ambiguous: set<Text>)
    requires forall t :: t !in ambiguous ==> |Attempts(context, t)| <= 1
    ensures ExcludedIn(context, records, ambiguous) == ExcludedTotal(context, records)
    ensures LegacyTasks(context, records, ambiguous) == TasksLeftOut(context, records)
  {
    ExcludedAll(context, records, ambiguous);
    forall t
      ensures t in LegacyTasks(context, records, ambiguous) <==> t in TasksLeftOut(context, records)
    {
      ExcludedSome(context, records, t);
    }
  }

  method JoinAttemptScopedCohort(context: seq<ContextRecord>, records: seq<UsageRecord>)
    returns (assignments: map<Text, ArmAssignment>, usage: map<Text, TaskUsage>, legacy: Legacy)
    ensures forall t :: t in assignments <==> t != [] && AssignmentFor(context, t).Some?
    ensures forall t :: t in assignments ==> assignments[t] == AssignmentFor(context, t).value
    ensures Joined(context, records, usage)
    ensures legacy == Legacy(|TasksLeftOut(context, records)|, ExcludedTotal(context, records))
  {
    assignments := AssignArms(context);
    var all := SummarizeUsageByTask(records);
    usage, legacy := CorrectAmbiguousTasks(assignments, all, context, records);
  }

  // ----- nothing is lost -----

  ghost function Pick(tasks: set<Text>): Text
    requires tasks != {}
  {
    var t :| t in tasks; t
  }

  ghost function RecordsOver(byTask: map<Text, TaskUsage>, tasks: set<Text>): nat
    requires tasks <= byTask.Keys
  {
    if tasks == {} then 0 else byTask[Pick(tasks)].records + RecordsOver(byTask, tasks - {Pick(tasks)})
  }

  function CountedIn(context: seq<ContextRecord>, records: seq<UsageRecord>, tasks: set<Text>): nat {
    if records == [] then 0
    else
      var r := records[|records| - 1];
      CountedIn(context, records[..|records| - 1], tasks) + if TaskIdOf(r.identity) in tasks && Counts(context, r) then 1 else 0
  }

  lemma {:induction false} CountedOfTask(context: seq<ContextRecord>, records: seq<UsageRecord>, task: Text)
    ensures CountedIn(context, records, {task}) == |Counted(context, Of(records, task))|
  {
    if records != [] {
      CountedOfTask(context, records[..|records| - 1], task);
      CountedSnoc(context, Of(records[..|records| - 1], task), records[|records| - 1]);
    }
  }

  lemma {:induction false} CountedAdds(context: seq<ContextRecord>, records: seq<UsageRecord>, tasks: set<Text>, task: Text)
    requires task !in tasks
    ensures CountedIn(context, records, tasks + {task}) == CountedIn(context, records, tasks) + CountedIn(context, records, {task})
  {
    if records != [] { CountedAdds(context, records[..|records| - 1], tasks, task); }
  }

  lemma {:induction false} CountedInNone(context: seq<ContextRecord>, records: seq<UsageRecord>)
    ensures CountedIn(context, records, {}) == 0
  {
    if records != [] { CountedInNone(context, records[..|records| - 1]); }
  }

  lemma {:induction false} SumIsCounted(context: seq<ContextRecord>, records: seq<UsageRecord>, byTask: map<Text, TaskUsage>, tasks: set<Text>)
    requires Joined(context, records, byTask) && tasks <= byTask.Keys
    ensures RecordsOver(byTask, tasks) == CountedIn(context, records, tasks)
    decreases |tasks|
  {
    if tasks == {} {
      CountedInNone(context, records);
    } else {
      var t := Pick(tasks);
      SumIsCounted(context, records, byTask, tasks - {t});
      CountedOfTask(context, records, t);
      CountedAdds(context, records, tasks - {t}, t);
      assert tasks - {t} + {t} == tasks;
      assert SumsUp(byTask, Counted(context, Of(records, t)), t);
    }
  }

  lemma {:induction false} CountedPositive(context: seq<ContextRecord>, records: seq<UsageRecord>, i: nat)
    requires i < |records| && Counts(context, records[i])
    ensures CountedIn(context, records, {TaskIdOf(records[i].identity)}) > 0
  {
    if i < |records| - 1 { CountedPositive(context, records[..|records| - 1], i); }
  }

  lemma {:induction false} CountedEverywhere(context: seq<ContextRecord>, records: seq<UsageRecord>, tasks: set<Text>)
    requires [] !in tasks
    requires forall i :: 0 <= i < |records| && Counts(context, records[i]) && TaskIdOf(records[i].identity) != [] ==>
      TaskIdOf(records[i].identity) in tasks
    ensures CountedIn(context, records, tasks) == CountedTotal(context, records)
  {
    if records != [] { CountedEverywhere(context, records[..|records| - 1], tasks); }
  }

  function WithTaskId(records: seq<UsageRecord>): nat {
    if records == [] then 0
    else WithTaskId(records[..|records| - 1]) + if TaskIdOf(records[|records| - 1].identity) != [] then 1 else 0
  }

  lemma {:induction false} NoAttemptWithoutTask(context: seq<ContextRecord>)
    ensures Attempts(context, []) == {}
  {
    if context != [] { NoAttemptWithoutTask(context[..|context| - 1]); }
  }

  lemma {:induction false} EachCountedOrExcluded(context: seq<ContextRecord>, records: seq<UsageRecord>)
    ensures CountedTotal(context, records) + ExcludedTotal(context, records) == WithTaskId(records)
  {
    if records != [] {
      EachCountedOrExcluded(context, records[..|records| - 1]);
      NoAttemptWithoutTask(context);
    }
  }

  /** Over all tasks of the joined map, counted records plus the excluded ones are all usage records that
      carry a task id. */
  lemma NothingLost(context: seq<ContextRecord>, records: seq<UsageRecord>, byTask: map<Text, TaskUsage>)
    requires Joined(context, records, byTask)
    ensures RecordsOver(byTask, byTask.Keys) + ExcludedTotal(context, records) == WithTaskId(records)
  {
    SumIsCounted(context, records, byTask, byTask.Keys);
    forall i: nat | i < |records| && Counts(context, records[i]) && TaskIdOf(records[i].identity) != []
      ensures TaskIdOf(records[i].identity) in byTask.Keys
    {
      var t := TaskIdOf(records[i].identity);
      CountedPositive(context, records, i);
      CountedOfTask(context, records, t);
      assert SumsUp(byTask, Counted(context, Of(records, t)), t);
    }
    assert SumsUp(byTask, Counted(context, Of(records, [])), []);
    CountedEverywhere(context, records, byTask.Keys);
    EachCountedOrExcluded(context, records);
  }

  /** A task with at most one known attempt keeps the sums over all its records. */
  lemma UnambiguousKeepsAll(context: seq<ContextRecord>, records: seq<UsageRecord>, byTask: map<Text, TaskUsage>, task: Text)
    requires Joined(context, records, byTask) && |Attempts(context, task)| <= 1
    ensures SumsUp(byTask, Of(records, task), task)
  {
    assert SumsUp(byTask, Counted(context, Of(records, task)), task);
    UnambiguousAllCount(context, records, task);
  }
}
