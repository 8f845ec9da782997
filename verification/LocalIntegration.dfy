/** Local integration of a session branch: preview, confirm, merge, verify.

    Operations are serialised, but the repository and the registry are not theirs alone: the k-th
    read of an operation sees `world(k)`, and nothing relates one read to the next. Digests are
    constructors applied to what they cover. */
module LocalIntegration {
  import opened Wrappers

  // ----- worktree lifecycle -----

  datatype WorktreeState = Allocating | Ready | Dirty | ReviewReady | LocallyIntegrating | Integrated | Retained | Quarantined

  datatype Review = Review(processEnded: bool, gitStatusCaptured: bool, recordedGates: nat)

  datatype Context = Context(review: Option<Review>, localOperator: bool)

  function AllowedMoves(state: WorktreeState): set<WorktreeState> {
    match state
    case Allocating => {Ready, Quarantined}
    case Ready => {Dirty, Quarantined}
    case Dirty => {ReviewReady, Quarantined}
    case ReviewReady => {LocallyIntegrating, Retained, Quarantined}
    case LocallyIntegrating => {Integrated, ReviewReady}
    case Integrated => {}
    case Retained => {}
    case Quarantined => {}
  }

  /** Whether `transitionWorktree` returns rather than throws. */
  predicate CanMove(state: WorktreeState, next: WorktreeState, context: Context) {
    if next.Quarantined? then state in {Allocating, Ready, Dirty, ReviewReady}
    else
      && next in AllowedMoves(state)
      && (next.ReviewReady? && state.Dirty? ==>
            context.review.Some? && context.review.value.processEnded && context.review.value.gitStatusCaptured
            && context.review.value.recordedGates > 0)
      && (next.LocallyIntegrating? ==> context.localOperator)
  }

  // ----- what can be read -----

  datatype Digest<T> = Sha256(content: T) | NotADigest

  datatype Gate = Gate(name: string, passed: bool)

  /** Recorded gate outcomes, in the order the digest sorts them into. */
  datatype Evidence = Evidence(sessionId: nat, commit: string, gates: seq<Gate>)

  datatype Registered = Registered(branch: string, safeBranch: bool, state: WorktreeState, processEnded: bool)

  /** What a read finds if it happens now. */
  datatype Repo = Repo(
    readable: bool, registered: Option<Registered>, sourceTip: string, headBranch: string, head: string, clean: bool,
    changedFiles: seq<string>, rawDiff: string, evidence: Option<Evidence>, headParents: seq<string>)

  type DiffDigest = Digest<(seq<string>, string)>

  type GateDigest = Digest<Option<Evidence>>

  predicate IsCommitOid(s: string) {
    |s| == 40 && forall c :: c in s ==> '0' <= c <= '9' || 'a' <= c <= 'f'
  }

  predicate GatesPassed(evidence: Option<Evidence>, commit: string, required: set<string>) {
    evidence.Some? &&
    var gates := evidence.value.gates;
    && evidence.value.commit == commit && gates != []
    && (forall i, j :: 0 <= i < j < |gates| ==> gates[i].name != gates[j].name)
    && (forall name :: name in required ==> exists i :: 0 <= i < |gates| && gates[i].name == name)
    && (forall i :: 0 <= i < |gates| ==> gates[i].passed)
  }

  datatype Observed = Observed(
    worktree: Registered, sourceCommit: string, targetBranch: string, targetHead: string, targetClean: bool,
    diffDigest: DiffDigest, gateDigest: GateDigest, gatesPassed: bool, evidence: Option<Evidence>)

  datatype Error = Forbidden | NotFound | InvalidRequest | Conflict | DuplicateRequest | InternalError | RateLimited

  /** One read after the other, each against the repository as it is by then. */
  function Observe(world: nat -> Repo, required: set<string>): Result<Observed, Error> {
    var r := world(0).registered;
    if r.None? then Err(NotFound)
    else if !r.value.safeBranch then Err(InternalError)
    else if exists k: nat :: 1 <= k <= 6 && !world(k).readable then Err(InternalError)
    else if !IsCommitOid(world(1).sourceTip) || !IsCommitOid(world(3).head) || world(2).headBranch == "" then Err(InternalError)
    else Ok(Observed(
      r.value, world(1).sourceTip, world(2).headBranch, world(3).head, world(4).clean,
      Sha256((world(5).changedFiles, world(6).rawDiff)),
      Sha256(world(7).evidence), GatesPassed(world(7).evidence, world(1).sourceTip, required), world(7).evidence))
  }

  // ----- previews and confirmations -----

  datatype Preview = Preview(
    sessionId: nat, sourceBranch: string, sourceCommit: string, targetBranch: string, targetHead: string,
    diffDigest: DiffDigest, gateDigest: GateDigest, gatesPassed: bool, targetClean: bool, expiresAt: int)

  datatype PreviewEntry = PreviewEntry(preview: Preview, consumed: bool)

  datatype Confirmation = Confirmation(
    integrationId: nat, sourceCommit: string, expectedTargetHead: string, diffDigest: DiffDigest, gateDigest: GateDigest, mergeNoFf: bool)

  /** `assertIntegrationConfirmation`: first what the client sent against what it was shown, then what
      it was shown against the repository as observed again. */
  function ConfirmationError(p: Preview, id: nat, c: Confirmation, o: Observed, consumed: bool, now: int): Option<Error> {
    if c.integrationId != id || !c.mergeNoFf then Some(InvalidRequest)
    else if consumed then Some(DuplicateRequest)
    else if now >= p.expiresAt then Some(Conflict)
    else if p.diffDigest.NotADigest? || c.diffDigest.NotADigest? || p.diffDigest != c.diffDigest then Some(InvalidRequest)
    else if p.gateDigest.NotADigest? || c.gateDigest.NotADigest? || p.gateDigest != c.gateDigest then Some(InvalidRequest)
    else if c.sourceCommit != p.sourceCommit || c.expectedTargetHead != p.targetHead then Some(InvalidRequest)
    else if o.sourceCommit != p.sourceCommit || o.targetHead != p.targetHead then Some(Conflict)
    else if !o.targetClean || !p.targetClean then Some(Conflict)
    else if o.diffDigest != p.diffDigest || o.gateDigest != p.gateDigest then Some(Conflict)
    else if !o.gatesPassed || !p.gatesPassed then Some(Conflict)
    else None
  }

  /** What the service did and read, in order. `id` is the integration it belongs to. */
  datatype Entry =
    | Moved(id: nat, next: WorktreeState)
    | ReadHead(id: nat, head: string)
    | ReadClean(id: nat, clean: bool)
    | Merge(id: nat, commit: string, ok: bool)
    | Abort(id: nat, ok: bool)
    | ReadParents(id: nat, line: seq<string>)
    | Reviewed(sessionId: nat, next: WorktreeState)

  /** `issued` and `trace` are history. */
  datatype State = State(previews: map<nat, PreviewEntry>, supply: nat, issued: map<nat, Preview>, trace: seq<Entry>)

  datatype Config = Config(previewTtlMs: int, maxPreviews: int, required: set<string>)

  datatype PreviewInput = PreviewInput(sessionId: nat, isOwner: bool, world: nat -> Repo, now: int, later: int)

  /** `proofOk`: the local re-authentication proof verifies. `mergeOk`, `abortOk`: exit codes of git. */
  datatype IntegrateInput = IntegrateInput(
    sessionId: nat, isOwner: bool, confirmation: Confirmation, proofOk: bool, now: int,
    world: nat -> Repo, mergeOk: bool, abortOk: bool)

  function Logged(s: State, e: Entry): State { s.(trace := s.trace + [e]) }

  /** `transition`: the registry is read again inside the update. */
  function Transition(s: State, id: nat, repo: Repo, next: WorktreeState, context: Context): (r: (State, Option<Error>)) {
    if !repo.readable then (s, Some(InternalError))
    else if repo.registered.None? then (s, Some(NotFound))
    else if !CanMove(repo.registered.value.state, next, context) then (s, Some(Conflict))
    else (Logged(s, Moved(id, next)), None)
  }

  const NO_CONTEXT := Context(None, false)

  // ----- integrate -----

  function AdmissionError(s: State, i: IntegrateInput): Option<Error> {
    var id := i.confirmation.integrationId;
    if !i.isOwner then Some(Forbidden)
    else if id !in s.previews then Some(NotFound)
    else if s.previews[id].preview.sessionId != i.sessionId then Some(InvalidRequest)
    else None
  }

  function Integrate(c: Config, s: State, i: IntegrateInput): (r: (State, Result<string, Error>)) {
    if AdmissionError(s, i).Some? then (s, Err(AdmissionError(s, i).value))
    else
      var id := i.confirmation.integrationId;
      var entry := s.previews[id];
      var s1 := s.(previews := s.previews[id := entry.(consumed := true)]);
      if !i.proofOk then (s1, Err(Forbidden))
      else
        var observed := Observe(i.world, c.required);
        if observed.Err? then (s1, Err(observed.error)) else Revalidated(s1, entry, id, i, observed.value)
  }

  function Revalidated(s: State, entry: PreviewEntry, id: nat, i: IntegrateInput, o: Observed): (r: (State, Result<string, Error>)) {
    var error := ConfirmationError(entry.preview, id, i.confirmation, o, entry.consumed, i.now);
    if error.Some? then (s, Err(error.value))
    else if o.targetBranch != entry.preview.targetBranch then (s, Err(Conflict))
    else
      var (s1, refused) := Transition(s, id, i.world(8), LocallyIntegrating, Context(None, true));
      if refused.Some? then (s1, Err(refused.value)) else LastLook(s1, id, i, o)
  }

  /** `assertTargetStillApproved`, then the merge. */
  function LastLook(s: State, id: nat, i: IntegrateInput, o: Observed): (r: (State, Result<string, Error>)) {
    if !i.world(9).readable then (s, Err(InternalError))
    else
      var s1 := Logged(s, ReadHead(id, i.world(9).head));
      if !i.world(10).readable then (s1, Err(InternalError))
      else
        var s2 := Logged(s1, ReadClean(id, i.world(10).clean));
        if i.world(9).head == o.targetHead && i.world(10).clean then
          var s3 := Logged(s2, Merge(id, o.sourceCommit, i.mergeOk));
          if i.mergeOk then Verified(s3, id, i, o) else RolledBack(s3, id, i, o)
        else
          var (s3, refused) := Transition(s2, id, i.world(11), ReviewReady, NO_CONTEXT);
          (s3, Err(if refused.Some? then refused.value else Conflict))
  }

  function RolledBack(s: State, id: nat, i: IntegrateInput, o: Observed): (r: (State, Result<string, Error>)) {
    var s1 := Logged(s, Abort(id, i.abortOk));
    if !i.world(11).readable then (s1, Err(InternalError))
    else
      var s2 := Logged(s1, ReadHead(id, i.world(11).head));
      if !i.abortOk || i.world(11).head != o.targetHead then (s2, Err(InternalError))
      else
        var (s3, refused) := Transition(s2, id, i.world(12), ReviewReady, NO_CONTEXT);
        (s3, Err(if refused.Some? then refused.value else Conflict))
  }

  function Verified(s: State, id: nat, i: IntegrateInput, o: Observed): (r: (State, Result<string, Error>)) {
    var line := i.world(11).headParents;
    if !i.world(11).readable then (s, Err(InternalError))
    else
      var s1 := Logged(s, ReadParents(id, line));
      if |line| != 3 || !IsCommitOid(line[0]) || line[1] != o.targetHead || line[2] != o.sourceCommit then (s1, Err(InternalError))
      else
        var (s2, refused) := Transition(s1, id, i.world(12), Integrated, NO_CONTEXT);
        (s2, if refused.Some? then Err(refused.value) else Ok(line[0]))
  }

  // ----- preview -----

  function Live(previews: map<nat, PreviewEntry>, now: int): map<nat, PreviewEntry> {
    map id | id in previews && previews[id].preview.expiresAt > now :: previews[id]
  }

  /** `recordReviewReady`: a preview may record that reviewable work exists, and swallows a refusal. */
  function ReviewPath(o: Observed): seq<WorktreeState> {
    if !o.worktree.processEnded || o.evidence.None? || o.evidence.value.gates == [] || !o.targetClean then []
    else if o.worktree.state.Ready? then [Dirty, ReviewReady]
    else if o.worktree.state.Dirty? then [ReviewReady]
    else []
  }

  function WithReview(s: State, i: PreviewInput, path: seq<WorktreeState>, review: Review, k: nat): State
    decreases |path|
  {
    if path == [] then s
    else
      var found := i.world(k).registered;
      if !i.world(k).readable || found.None? || !CanMove(found.value.state, path[0], Context(Some(review), false)) then s
      else WithReview(Logged(s, Reviewed(i.sessionId, path[0])), i, path[1..], review, k + 1)
  }

  function MakePreview(c: Config, s: State, i: PreviewInput): (r: (State, Result<nat, Error>)) {
    if !i.isOwner then (s, Err(Forbidden))
    else
      var observed := Observe(i.world, c.required);
      if observed.Err? then (s, Err(observed.error)) else Issue(c, s, i, observed.value)
  }

  function PreviewOf(c: Config, i: PreviewInput, o: Observed): Preview {
    Preview(i.sessionId, o.worktree.branch, o.sourceCommit, o.targetBranch, o.targetHead,
            o.diffDigest, o.gateDigest, o.gatesPassed, o.targetClean, i.now + c.previewTtlMs)
  }

  function ReviewOf(o: Observed): Review {
    Review(o.worktree.processEnded, true, if o.evidence.Some? then |o.evidence.value.gates| else 0)
  }

  function Stored(s: State, live: map<nat, PreviewEntry>, preview: Preview): State {
    s.(previews := live[s.supply := PreviewEntry(preview, false)], supply := s.supply + 1, issued := s.issued[s.supply := preview])
  }

  function Issue(c: Config, s: State, i: PreviewInput, o: Observed): (r: (State, Result<nat, Error>)) {
    var id, preview, live := s.supply, PreviewOf(c, i, o), Live(s.previews, i.later);
    if |live| >= c.maxPreviews then (s.(previews := live), Err(RateLimited))
    else
      (WithReview(Stored(s, live, preview), i, ReviewPath(o), ReviewOf(o), 8), Ok(id))
  }

  // ----- the service object -----

  class LocalIntegrationService {
    const config: Config
    var previews: map<nat, PreviewEntry>
    var supply: nat
    ghost var issued: map<nat, Preview>
    ghost var trace: seq<Entry>

    ghost function View(): State
      reads this
    {
      State(previews, supply, issued, trace)
    }

    constructor (config: Config)
      ensures View() == Empty() && this.config == config
    {
      this.config := config;
      previews, supply, issued, trace := map[], 0, map[], [];
    }

    method TransitionTo(id: nat, repo: Repo, next: WorktreeState, context: Context) returns (refused: Option<Error>)
      modifies this`trace
      ensures (View(), refused) == Transition(old(View()), id, repo, next, context)
    {
      if !repo.readable { return Some(InternalError); }
      if repo.registered.None? { return Some(NotFound); }
      if !CanMove(repo.registered.value.state, next, context) { return Some(Conflict); }
      trace := trace + [Moved(id, next)];
      return None;
    }

    /** Sweeps expired previews and stores a new one unless too many are outstanding. */
    method IssuePreview(id: nat, preview: Preview, now: int) returns (ok: bool)
      modifies this`previews
      ensures ok <==> |Live(old(previews), now)| < config.maxPreviews
      ensures previews == if ok then Live(old(previews), now)[id := PreviewEntry(preview, false)] else Live(old(previews), now)
    {
      var before, todo := previews, previews.Keys;
      while todo != {}
        invariant todo <= before.Keys
        invariant forall x :: x in previews <==> x in before && (x in todo || x in Live(before, now))
        invariant forall x :: x in previews ==> previews[x] == before[x]
        decreases |todo|
      {
        var x :| x in todo;
        if before[x].preview.expiresAt <= now { previews := previews - {x}; }
        todo := todo - {x};
      }
      assert previews == Live(before, now);
      if |previews| >= config.maxPreviews { return false; }
      previews := previews[id := PreviewEntry(preview, false)];
      return true;
    }

    method RecordReviewReady(i: PreviewInput, o: Observed)
      modifies this`trace
      ensures View() == WithReview(old(View()), i, ReviewPath(o), ReviewOf(o), 8)
    {
      var path := ReviewPath(o);
      var review := ReviewOf(o);
      var k := 0;
      assert path[0..] == path;
      while k < |path|
        invariant 0 <= k <= |path|
        invariant WithReview(View(), i, path[k..], review, 8 + k) == WithReview(old(View()), i, path, review, 8)
        modifies this`trace
      {
        var found := i.world(8 + k).registered;
        if !i.world(8 + k).readable || found.None? || !CanMove(found.value.state, path[k], Context(Some(review), false)) { return; }
        assert path[k..][1..] == path[k + 1..];
        trace := trace + [Reviewed(i.sessionId, path[k])];
        k := k + 1;
      }
    }

    method PreviewIntegration(i: PreviewInput) returns (r: Result<nat, Error>)
      modifies this
      ensures (View(), r) == MakePreview(config, old(View()), i)
    {
      if !i.isOwner { return Err(Forbidden); }
      var observed := Observe(i.world, config.required);
      if observed.Err? { return Err(observed.error); }
      var o, id := observed.value, supply;
      var preview := PreviewOf(config, i, o);
      var ok := IssuePreview(id, preview, i.later);
      if !ok { return Err(RateLimited); }
      supply, issued := id + 1, issued[id := preview];
      RecordReviewReady(i, o);
      r := Ok(id);
    }

    method Confirm(i: IntegrateInput) returns (r: Result<string, Error>)
      modifies this
      ensures (View(), r) == Integrate(config, old(View()), i)
    {
      if !i.isOwner { return Err(Forbidden); }
      var id := i.confirmation.integrationId;
      if id !in previews { return Err(NotFound); }
      var entry := previews[id];
      if entry.preview.sessionId != i.sessionId { return Err(InvalidRequest); }
      var previewConsumed := entry.consumed;
      previews := previews[id := entry.(consumed := true)];
      if !i.proofOk { return Err(Forbidden); }
      var observed := Observe(i.world, config.required);
      if observed.Err? { return Err(observed.error); }
      var o := observed.value;
      var error := ConfirmationError(entry.preview, id, i.confirmation, o, previewConsumed, i.now);
      if error.Some? { return Err(error.value); }
      if o.targetBranch != entry.preview.targetBranch { return Err(Conflict); }
      var refused := TransitionTo(id, i.world(8), LocallyIntegrating, Context(None, true));
      if refused.Some? { return Err(refused.value); }
      r := MergeApproved(id, i, o);
    }

    method MergeApproved(id: nat, i: IntegrateInput, o: Observed) returns (r: Result<string, Error>)
      modifies this`trace
      ensures (View(), r) == LastLook(old(View()), id, i, o)
    {
      if !i.world(9).readable { return Err(InternalError); }
      trace := trace + [ReadHead(id, i.world(9).head)];
      if !i.world(10).readable { return Err(InternalError); }
      trace := trace + [ReadClean(id, i.world(10).clean)];
      if i.world(9).head != o.targetHead || !i.world(10).clean {
        var refused := TransitionTo(id, i.world(11), ReviewReady, NO_CONTEXT);
        return Err(if refused.Some? then refused.value else Conflict);
      }
      trace := trace + [Merge(id, o.sourceCommit, i.mergeOk)];
      if !i.mergeOk {
        r := AbortMerge(id, i, o);
      } else {
        r := VerifyMergeCommit(id, i, o);
      }
    }

    method AbortMerge(id: nat, i: IntegrateInput, o: Observed) returns (r: Result<string, Error>)
      modifies this`trace
      ensures (View(), r) == RolledBack(old(View()), id, i, o)
    {
      trace := trace + [Abort(id, i.abortOk)];
      if !i.world(11).readable { return Err(InternalError); }
      trace := trace + [ReadHead(id, i.world(11).head)];
      if !i.abortOk || i.world(11).head != o.targetHead { return Err(InternalError); }
      var refused := TransitionTo(id, i.world(12), ReviewReady, NO_CONTEXT);
      r := Err(if refused.Some? then refused.value else Conflict);
    }

    method VerifyMergeCommit(id: nat, i: IntegrateInput, o: Observed) returns (r: Result<string, Error>)
      modifies this`trace
      ensures (View(), r) == Verified(old(View()), id, i, o)
    {
      if !i.world(11).readable { return Err(InternalError); }
      var line := i.world(11).headParents;
      trace := trace + [ReadParents(id, line)];
      if |line| != 3 || !IsCommitOid(line[0]) || line[1] != o.targetHead || line[2] != o.sourceCommit { return Err(InternalError); }
      var refused := TransitionTo(id, i.world(12), Integrated, NO_CONTEXT);
      r := if refused.Some? then Err(refused.value) else Ok(line[0]);
    }
  }

  // ----- every run -----

  function Empty(): State { State(map[], 0, map[], []) }

  datatype Op = DoPreview(preview: PreviewInput) | DoIntegrate(integrate: IntegrateInput)

  function After(c: Config, s: State, op: Op): State {
    match op
    case DoPreview(i) => MakePreview(c, s, i).0
    case DoIntegrate(i) => Integrate(c, s, i).0
  }

  function AfterAll(c: Config, s: State, ops: seq<Op>): State
    decreases |ops|
  {
    if ops == [] then s else AfterAll(c, After(c, s, ops[0]), ops[1..])
  }

  /** Right before a merge the service recorded its intent and saw the approved head on a clean tree. */
  ghost predicate MergeJustified(s: State, k: nat)
    requires k < |s.trace| && s.trace[k].Merge?
  {
    var id := s.trace[k].id;
    && id in s.issued && k >= 3
    && s.trace[k].commit == s.issued[id].sourceCommit
    && s.trace[k - 1] == ReadClean(id, true)
    && s.trace[k - 2] == ReadHead(id, s.issued[id].targetHead)
    && s.trace[k - 3] == Moved(id, LocallyIntegrating)
  }

  /** `integrated` follows a merge whose commit was read back with exactly the approved parents. */
  ghost predicate IntegratedJustified(s: State, k: nat)
    requires k < |s.trace| && s.trace[k].Moved?
  {
    var id := s.trace[k].id;
    && id in s.issued && k >= 2
    && s.trace[k - 1].ReadParents? && s.trace[k - 1].id == id
    && |s.trace[k - 1].line| == 3
    && IsCommitOid(s.trace[k - 1].line[0])
    && s.trace[k - 1].line[1] == s.issued[id].targetHead
    && s.trace[k - 1].line[2] == s.issued[id].sourceCommit
    && s.trace[k - 2] == Merge(id, s.issued[id].sourceCommit, true)
  }

  /** `review_ready` follows a last look that stopped the merge, or a failed merge that was rolled back
      to the approved head. */
  ghost predicate ReturnJustified(s: State, k: nat)
    requires k < |s.trace| && s.trace[k].Moved?
  {
    var id := s.trace[k].id;
    && id in s.issued && k >= 3
    && (|| (s.trace[k - 1].ReadClean? && s.trace[k - 1].id == id && s.trace[k - 2].ReadHead? && s.trace[k - 2].id == id
            && (s.trace[k - 2].head != s.issued[id].targetHead || !s.trace[k - 1].clean))
        || (&& s.trace[k - 1] == ReadHead(id, s.issued[id].targetHead)
            && s.trace[k - 2] == Abort(id, true)
            && s.trace[k - 3] == Merge(id, s.issued[id].sourceCommit, false)))
  }

  ghost predicate EntryJustified(s: State, k: nat)
    requires k < |s.trace|
  {
    match s.trace[k]
    case Merge(_, _, _) => MergeJustified(s, k)
    case Moved(_, next) =>
      if next.Integrated? then IntegratedJustified(s, k)
      else if next.ReviewReady? then ReturnJustified(s, k)
      else next.LocallyIntegrating?
    case _ => true
  }

  ghost predicate MergedOnce(s: State, j: nat, k: nat)
    requires j < |s.trace| && k < |s.trace|
  {
    s.trace[j].Merge? && s.trace[k].Merge? && s.trace[j].id == s.trace[k].id ==> j == k
  }

  ghost predicate Approved(s: State) {
    && (forall k: nat :: k < |s.trace| ==> EntryJustified(s, k))
    && (forall j: nat, k: nat :: j < |s.trace| && k < |s.trace| ==> MergedOnce(s, j, k))
    && (forall id :: id in s.issued ==> id < s.supply)
    && (forall id :: id in s.previews ==> id in s.issued && s.issued[id] == s.previews[id].preview)
    && (forall id :: id in s.previews && !s.previews[id].consumed ==>
          forall k :: 0 <= k < |s.trace| && s.trace[k].Merge? ==> s.trace[k].id != id)
  }

  lemma EntryStays(s: State, t: State, k: nat)
    requires k < |s.trace| && EntryJustified(s, k) && s.trace <= t.trace
    requires forall id :: id in s.issued ==> id in t.issued && t.issued[id] == s.issued[id]
    ensures t.trace[k] == s.trace[k] && EntryJustified(t, k)
  {
    assert forall j :: 0 <= j <= k ==> t.trace[j] == s.trace[j];
  }

  ghost predicate NoMergeOf(s: State, id: nat) {
    forall k :: 0 <= k < |s.trace| && s.trace[k].Merge? ==> s.trace[k].id != id
  }

  /** One more entry that is justified where it stands, and no second merge. */
  lemma LoggedKeeps(s: State, e: Entry)
    requires Approved(s) && EntryJustified(Logged(s, e), |s.trace|)
    requires e.Merge? ==> NoMergeOf(s, e.id) && (e.id in s.previews ==> s.previews[e.id].consumed)
    ensures Approved(Logged(s, e))
  {
    var t, n := Logged(s, e), |s.trace|;
    forall k: nat | k < |t.trace|
      ensures EntryJustified(t, k)
    {
      if k < n { EntryStays(s, t, k); }
    }
    forall j: nat, k: nat | j < |t.trace| && k < |t.trace|
      ensures MergedOnce(t, j, k)
    {
      if j < n && k < n { assert MergedOnce(s, j, k); }
    }
  }

  /** Storing, sweeping or spending previews justifies nothing new. */
  lemma StoreKeeps(s: State, t: State)
    requires Approved(s) && t.trace == s.trace && s.supply <= t.supply
    requires forall id :: id in s.issued ==> id in t.issued && t.issued[id] == s.issued[id]
    requires forall id :: id in t.issued && id !in s.issued ==> s.supply <= id < t.supply
    requires forall id :: id in t.previews && id in s.previews ==>
        t.previews[id].preview == s.previews[id].preview && (s.previews[id].consumed ==> t.previews[id].consumed)
    requires forall id :: id in t.previews && id !in s.previews ==>
        id in t.issued && id !in s.issued && t.issued[id] == t.previews[id].preview
    ensures Approved(t)
  {
    forall k: nat | k < |t.trace|
      ensures EntryJustified(t, k)
    {
      EntryStays(s, t, k);
    }
    forall j: nat, k: nat | j < |t.trace| && k < |t.trace|
      ensures MergedOnce(t, j, k)
    {
      assert MergedOnce(s, j, k);
    }
    forall id | id in t.previews && !t.previews[id].consumed
      ensures NoMergeOf(t, id)
    {
      forall k | 0 <= k < |t.trace| && t.trace[k].Merge?
        ensures t.trace[k].id != id
      {
        assert EntryJustified(s, k) && MergeJustified(s, k);
      }
    }
  }

  lemma VerifiedKeeps(s: State, id: nat, i: IntegrateInput, o: Observed)
    requires Approved(s) && id in s.issued
    requires o.sourceCommit == s.issued[id].sourceCommit && o.targetHead == s.issued[id].targetHead
    requires |s.trace| > 0 && s.trace[|s.trace| - 1] == Merge(id, o.sourceCommit, true)
    ensures Approved(Verified(s, id, i, o).0)
  {
    if i.world(11).readable {
      var s1 := Logged(s, ReadParents(id, i.world(11).headParents));
      LoggedKeeps(s, ReadParents(id, i.world(11).headParents));
      if Verified(s, id, i, o).0 != s1 { LoggedKeeps(s1, Moved(id, Integrated)); }
    }
  }

  lemma RolledBackKeeps(s: State, id: nat, i: IntegrateInput, o: Observed)
    requires Approved(s) && id in s.issued
    requires o.sourceCommit == s.issued[id].sourceCommit && o.targetHead == s.issued[id].targetHead
    requires |s.trace| > 0 && s.trace[|s.trace| - 1] == Merge(id, o.sourceCommit, false)
    ensures Approved(RolledBack(s, id, i, o).0)
  {
    var s1 := Logged(s, Abort(id, i.abortOk));
    LoggedKeeps(s, Abort(id, i.abortOk));
    if i.world(11).readable {
      var s2 := Logged(s1, ReadHead(id, i.world(11).head));
      LoggedKeeps(s1, ReadHead(id, i.world(11).head));
      if RolledBack(s, id, i, o).0 != s2 { LoggedKeeps(s2, Moved(id, ReviewReady)); }
    }
  }

  lemma LastLookKeeps(s: State, id: nat, i: IntegrateInput, o: Observed)
    requires Approved(s) && id in s.issued && NoMergeOf(s, id) && (id in s.previews ==> s.previews[id].consumed)
    requires o.sourceCommit == s.issued[id].sourceCommit && o.targetHead == s.issued[id].targetHead
    requires |s.trace| > 0 && s.trace[|s.trace| - 1] == Moved(id, LocallyIntegrating)
    ensures Approved(LastLook(s, id, i, o).0)
  {
    if i.world(9).readable {
      var s1 := Logged(s, ReadHead(id, i.world(9).head));
      LoggedKeeps(s, ReadHead(id, i.world(9).head));
      if i.world(10).readable {
        var s2 := Logged(s1, ReadClean(id, i.world(10).clean));
        LoggedKeeps(s1, ReadClean(id, i.world(10).clean));
        if i.world(9).head == o.targetHead && i.world(10).clean {
          var s3 := Logged(s2, Merge(id, o.sourceCommit, i.mergeOk));
          LoggedKeeps(s2, Merge(id, o.sourceCommit, i.mergeOk));
          if i.mergeOk { VerifiedKeeps(s3, id, i, o); } else { RolledBackKeeps(s3, id, i, o); }
        } else if LastLook(s, id, i, o).0 != s2 {
          LoggedKeeps(s2, Moved(id, ReviewReady));
        }
      }
    }
  }

  lemma RevalidatedKeeps(s: State, entry: PreviewEntry, id: nat, i: IntegrateInput, o: Observed)
    requires Approved(s) && id in s.previews && s.previews[id] == entry.(consumed := true)
    requires !entry.consumed ==> NoMergeOf(s, id)
    ensures Approved(Revalidated(s, entry, id, i, o).0)
  {
    if Revalidated(s, entry, id, i, o).0 != s {
      LoggedKeeps(s, Moved(id, LocallyIntegrating));
      LastLookKeeps(Logged(s, Moved(id, LocallyIntegrating)), id, i, o);
    }
  }

  lemma IntegrateKeeps(c: Config, s: State, i: IntegrateInput)
    requires Approved(s)
    ensures Approved(Integrate(c, s, i).0)
  {
    var id := i.confirmation.integrationId;
    if AdmissionError(s, i).None? {
      var entry := s.previews[id];
      var s1 := s.(previews := s.previews[id := entry.(consumed := true)]);
      StoreKeeps(s, s1);
      if Integrate(c, s, i).0 != s1 { RevalidatedKeeps(s1, entry, id, i, Observe(i.world, c.required).value); }
    }
  }

  lemma {:induction false} WithReviewKeeps(s: State, i: PreviewInput, path: seq<WorktreeState>, review: Review, k: nat)
    requires Approved(s)
    ensures Approved(WithReview(s, i, path, review, k))
    decreases |path|
  {
    if path != [] && WithReview(s, i, path, review, k) != s {
      LoggedKeeps(s, Reviewed(i.sessionId, path[0]));
      WithReviewKeeps(Logged(s, Reviewed(i.sessionId, path[0])), i, path[1..], review, k + 1);
    }
  }

  lemma IssueKeeps(s: State, live: map<nat, PreviewEntry>, preview: Preview)
    requires Approved(s)
    requires forall id :: id in live ==> id in s.previews && live[id] == s.previews[id]
    ensures Approved(s.(previews := live))
    ensures Approved(Stored(s, live, preview))
  {
    StoreKeeps(s, s.(previews := live));
    assert s.supply !in s.issued && s.supply !in s.previews;
    StoreKeeps(s, Stored(s, live, preview));
  }

  lemma IssueReviewKeeps(c: Config, s: State, i: PreviewInput, o: Observed)
    requires Approved(s)
    ensures Approved(Issue(c, s, i, o).0)
  {
    var preview, live := PreviewOf(c, i, o), Live(s.previews, i.later);
    IssueKeeps(s, live, preview);
    if |live| < c.maxPreviews {
      WithReviewKeeps(Stored(s, live, preview), i, ReviewPath(o), ReviewOf(o), 8);
      assert Issue(c, s, i, o).0 == WithReview(Stored(s, live, preview), i, ReviewPath(o), ReviewOf(o), 8);
    } else {
      assert Issue(c, s, i, o).0 == s.(previews := live);
    }
  }

  lemma PreviewKeeps(c: Config, s: State, i: PreviewInput)
    requires Approved(s)
    ensures Approved(MakePreview(c, s, i).0)
  {
    if MakePreview(c, s, i).0 != s { IssueReviewKeeps(c, s, i, Observe(i.world, c.required).value); }
  }

  lemma {:induction false} RunApproved(c: Config, s: State, ops: seq<Op>)
    requires Approved(s)
    ensures Approved(AfterAll(c, s, ops))
    decreases |ops|
  {
    if ops != [] {
      match ops[0] {
        case DoPreview(i) => PreviewKeeps(c, s, i);
        case DoIntegrate(i) => IntegrateKeeps(c, s, i);
      }
      RunApproved(c, After(c, s, ops[0]), ops[1..]);
    }
  }

  // ----- theorems -----

  /** Each preview leads to at most one merge, and it merges the previewed commit into the previewed
      head, which was the last thing read before it, on a clean tree. */
  lemma OneMergePerPreview(c: Config, ops: seq<Op>, j: nat, k: nat)
    requires var trace := AfterAll(c, Empty(), ops).trace;
      j < |trace| && k < |trace| && trace[j].Merge? && trace[k].Merge? && trace[j].id == trace[k].id
    ensures j == k && MergeJustified(AfterAll(c, Empty(), ops), k)
  {
    RunApproved(c, Empty(), ops);
    var s := AfterAll(c, Empty(), ops);
    assert MergedOnce(s, j, k) && EntryJustified(s, k);
  }

  /** `integrated` is recorded only right after HEAD was read back with exactly the approved parents. */
  lemma IntegratedMeansReadBack(c: Config, ops: seq<Op>, k: nat)
    requires var trace := AfterAll(c, Empty(), ops).trace; k < |trace| && trace[k].Moved? && trace[k].next.Integrated?
    ensures IntegratedJustified(AfterAll(c, Empty(), ops), k)
  {
    RunApproved(c, Empty(), ops);
    assert EntryJustified(AfterAll(c, Empty(), ops), k);
  }

  /** A confirmation returns the worktree to `review_ready` only after a last look that stopped it
      before the merge, or after a failed merge was aborted and HEAD was read back at the approved head. */
  lemma ReturnMeansUntouchedOrRolledBack(c: Config, ops: seq<Op>, k: nat)
    requires var trace := AfterAll(c, Empty(), ops).trace; k < |trace| && trace[k].Moved? && trace[k].next.ReviewReady?
    ensures ReturnJustified(AfterAll(c, Empty(), ops), k)
  {
    RunApproved(c, Empty(), ops);
    assert EntryJustified(AfterAll(c, Empty(), ops), k);
  }

  lemma LastLookExtends(s: State, id: nat, i: IntegrateInput, o: Observed)
    ensures s.trace <= LastLook(s, id, i, o).0.trace
  {
  }

  lemma LastLookMerge(s: State, id: nat, i: IntegrateInput, o: Observed, k: nat)
    requires |s.trace| <= k < |LastLook(s, id, i, o).0.trace| && LastLook(s, id, i, o).0.trace[k].Merge?
    ensures LastLook(s, id, i, o).0.trace[k].commit == o.sourceCommit
    ensures i.world(9).head == o.targetHead && i.world(10).clean
  {
  }

  lemma RevalidatedMerge(s: State, entry: PreviewEntry, id: nat, i: IntegrateInput, o: Observed, k: nat)
    requires |s.trace| <= k < |Revalidated(s, entry, id, i, o).0.trace| && Revalidated(s, entry, id, i, o).0.trace[k].Merge?
    ensures ConfirmationError(entry.preview, id, i.confirmation, o, entry.consumed, i.now).None?
    ensures o.targetBranch == entry.preview.targetBranch
    ensures i.world(8).registered.Some? && CanMove(i.world(8).registered.value.state, LocallyIntegrating, Context(None, true))
    ensures Revalidated(s, entry, id, i, o).0.trace[k].commit == o.sourceCommit
    ensures i.world(9).head == o.targetHead && i.world(10).clean
  {
    var s1 := Logged(s, Moved(id, LocallyIntegrating));
    LastLookExtends(s1, id, i, o);
    assert Revalidated(s, entry, id, i, o).0 == LastLook(s1, id, i, o).0;
    assert s1.trace[|s.trace|] == Moved(id, LocallyIntegrating);
    LastLookMerge(s1, id, i, o, k);
  }

  /** A confirmation that runs a merge was the first use of an unexpired preview of the same session,
      confirmed exactly what was shown, and everything shown was observed again, gates green for the
      very commit that is merged. */
  lemma MergeMeansApproved(c: Config, s: State, i: IntegrateInput, k: nat)
    requires |s.trace| <= k < |Integrate(c, s, i).0.trace| && Integrate(c, s, i).0.trace[k].Merge?
    ensures AdmissionError(s, i).None? && i.proofOk && Observe(i.world, c.required).Ok?
    ensures var entry, o := s.previews[i.confirmation.integrationId], Observe(i.world, c.required).value;
      var p := entry.preview;
      && !entry.consumed && i.now < p.expiresAt && i.confirmation.mergeNoFf
      && i.confirmation.diffDigest == p.diffDigest == o.diffDigest
      && i.confirmation.gateDigest == p.gateDigest == o.gateDigest
      && i.confirmation.sourceCommit == p.sourceCommit == o.sourceCommit == Integrate(c, s, i).0.trace[k].commit
      && i.confirmation.expectedTargetHead == p.targetHead == o.targetHead == i.world(9).head
      && o.targetBranch == p.targetBranch && o.targetClean && p.targetClean && i.world(10).clean
      && p.gatesPassed && GatesPassed(i.world(7).evidence, o.sourceCommit, c.required)
      && CanMove(i.world(8).registered.value.state, LocallyIntegrating, Context(None, true))
  {
    assert Integrate(c, s, i).0.trace != s.trace;
    var id := i.confirmation.integrationId;
    var entry, o := s.previews[id], Observe(i.world, c.required).value;
    RevalidatedMerge(s.(previews := s.previews[id := entry.(consumed := true)]), entry, id, i, o, k);
  }
}
