/** The approval gate of structured commands: decisions, one-time challenges, and the ledger.

    `execute` is asynchronous. The code between two awaits is one step here, and the steps of any
    number of submissions interleave freely. The audit port may fail at any record. A digest is a
    constructor applied to what it covers, and challenge ids are fresh. */
module CommandApproval {
  import opened Wrappers

  // ----- the host's policy -----

  datatype Scope = AgRead | TerminalWrite | GithubRead | GithubWrite

  datatype Risk = Safe | Confirm | Blocked

  datatype Action =
    | ConnectionBegin | ConnectionRevoke | IssueImport | PullRequestCreate | ProjectCreate
    | IntegrationMerge | IntegrationRebase | IntegrationCherryPick | PushProtectedBranch

  datatype Payload = NoPayload | Issue(issueNumber: int) | PullRequest(sessionId: string, title: string, draft: bool)
    | Project(workspaceRootId: string, name: string)

  datatype Authority = Authority(scope: Option<Scope>, ownerOnly: bool, risk: Risk)

  function CommandAuthority(action: Action): Authority {
    match action
    case ConnectionBegin => Authority(Some(GithubWrite), true, Confirm)
    case ConnectionRevoke => Authority(Some(GithubWrite), true, Confirm)
    case IssueImport => Authority(Some(GithubRead), false, Safe)
    case PullRequestCreate => Authority(Some(GithubWrite), false, Confirm)
    case ProjectCreate => Authority(None, true, Confirm)
    case IntegrationMerge => Authority(None, true, Blocked)
    case IntegrationRebase => Authority(None, true, Blocked)
    case IntegrationCherryPick => Authority(None, true, Blocked)
    case PushProtectedBranch => Authority(None, true, Blocked)
  }

  datatype Error = InvalidRequest | Forbidden | Conflict | DuplicateRequest

  datatype Intent = Intent(commandId: string, idempotencyKey: string, deviceId: string, projectId: Option<string>, action: Action, payload: Payload)

  datatype Principal = Principal(deviceId: string, isOwner: bool, scopes: set<Scope>)

  datatype Digest = Digest(action: Action, projectId: Option<string>, payload: Payload)

  function CommandDigestOf(intent: Intent): Digest { Digest(intent.action, intent.projectId, intent.payload) }

  datatype ApprovalProof = ApprovalProof(challengeId: nat, commandDigest: Digest)

  datatype Submission = Submission(intent: Intent, principal: Principal, approval: Option<ApprovalProof>)

  const KEY_MIN_LENGTH := 16
  const KEY_MAX_LENGTH := 160

  predicate IsDigit(c: char) { '0' <= c <= '9' }

  predicate IsLineEnd(c: char) { c == '\n' || c == '\r' || c == '\U{2028}' || c == '\U{2029}' }

  /** The index of the last colon, or the length if there is none. */
  function LastColon(key: string): (i: nat)
    ensures i <= |key| && (i < |key| ==> key[i] == ':') && forall j :: i < j < |key| ==> key[j] != ':'
    ensures i == |key| ==> ':' !in key
  {
    if key == [] then 0
    else if key[|key| - 1] == ':' then |key| - 1
    else var i := LastColon(key[..|key| - 1]); if i == |key| - 1 then |key| else i
  }

  /** `<deviceId>:<counter>`: what is wrong with the key for this device, if anything. */
  function KeyError(key: string, deviceId: string): Option<Error> {
    if |key| < KEY_MIN_LENGTH || |key| > KEY_MAX_LENGTH then Some(InvalidRequest)
    else
      var i := LastColon(key);
      if i == |key| then Some(InvalidRequest)
      else
        var owner, counter := key[..i], key[i + 1..];
        if owner == [] || (exists c :: c in owner && IsLineEnd(c)) || |counter| < 1 || |counter| > 20
           || (exists c :: c in counter && !IsDigit(c)) then Some(InvalidRequest)
        else if owner != deviceId then Some(Forbidden)
        else None
  }

  predicate IsCounter(counter: string) { 1 <= |counter| <= 20 && forall c :: c in counter ==> IsDigit(c) }

  lemma LastColonOf(owner: string, counter: string)
    requires IsCounter(counter)
    ensures var key := owner + ":" + counter;
      LastColon(key) == |owner| && key[..|owner|] == owner && key[|owner| + 1..] == counter
  {
    var key, n := owner + ":" + counter, |owner|;
    assert key[n] == ':';
    forall j | n < j < |key|
      ensures key[j] != ':'
    {
      assert key[j] == counter[j - n - 1];
      assert counter[j - n - 1] in counter;
    }
  }

  /** The keys a device may use are exactly its id, a colon and a counter of 1 to 20 digits. */
  lemma KeyBelongs(key: string, deviceId: string)
    ensures KeyError(key, deviceId).None? <==>
      && KEY_MIN_LENGTH <= |key| <= KEY_MAX_LENGTH
      && deviceId != [] && (forall c :: c in deviceId ==> !IsLineEnd(c))
      && (exists counter: string :: key == deviceId + ":" + counter && IsCounter(counter))
  {
    if KeyError(key, deviceId).None? {
      var i := LastColon(key);
      assert key == key[..i] + ":" + key[i + 1..] && IsCounter(key[i + 1..]);
    }
    if exists counter: string :: key == deviceId + ":" + counter && IsCounter(counter) {
      var counter: string :| key == deviceId + ":" + counter && IsCounter(counter);
      LastColonOf(deviceId, counter);
    }
  }

  datatype Decision = Accepted | ConfirmationRequired | Rejected(reason: Error) | Duplicate

  /** The policy outcome of an intent whose shape and key are in order. */
  function Decide(intent: Intent, p: Principal, verified: bool): Decision {
    var authority := CommandAuthority(intent.action);
    if authority.risk.Blocked? then Rejected(Forbidden)
    else if authority.ownerOnly && !p.isOwner then Rejected(Forbidden)
    else if authority.scope.Some? && authority.scope.value !in p.scopes then Rejected(Forbidden)
    else if authority.risk.Confirm? && !verified then ConfirmationRequired
    else Accepted
  }

  // ----- challenges -----

  /** `issuedAt` is history: where in the trace the challenge was issued. */
  datatype Approval = Approval(commandDigest: Digest, deviceId: string, idempotencyKey: string, expiresAtMs: int, used: bool, issuedAt: nat)

  function VerifyError(approvals: map<nat, Approval>, s: Submission, now: int): Option<Error>
    requires s.approval.Some?
  {
    var proof := s.approval.value;
    if proof.challengeId !in approvals then Some(InvalidRequest)
    else
      var record := approvals[proof.challengeId];
      if record.used then Some(DuplicateRequest)
      else if now >= record.expiresAtMs then Some(Conflict)
      else if record.deviceId != s.principal.deviceId then Some(Forbidden)
      else if record.idempotencyKey != s.intent.idempotencyKey then Some(InvalidRequest)
      else if proof.commandDigest != record.commandDigest then Some(InvalidRequest)
      else if CommandDigestOf(s.intent) != record.commandDigest then Some(InvalidRequest)
      else None
  }

  function Used(approvals: map<nat, Approval>, id: nat): map<nat, Approval> {
    if id in approvals then approvals[id := approvals[id].(used := true)] else approvals
  }

  function Swept(approvals: map<nat, Approval>, now: int): map<nat, Approval> {
    map id | id in approvals && !approvals[id].used && approvals[id].expiresAtMs > now :: approvals[id]
  }

  class CommandApprovalChallenges {
    const ttlMs: int
    const maxOutstanding: int
    var approvals: map<nat, Approval>

    constructor (ttlMs: int, maxOutstanding: int)
      ensures approvals == map[] && this.ttlMs == ttlMs && this.maxOutstanding == maxOutstanding
    {
      this.ttlMs, this.maxOutstanding, approvals := ttlMs, maxOutstanding, map[];
    }

    /** Validates the proof without spending it. */
    method Verify(s: Submission, digest: Digest, now: int) returns (r: Result<Option<nat>, Error>)
      requires digest == CommandDigestOf(s.intent)
      ensures s.approval.None? ==> r == Ok(None)
      ensures s.approval.Some? ==>
        r == match VerifyError(approvals, s, now) case Some(e) => Err(e) case None => Ok(Some(s.approval.value.challengeId))
    {
      if s.approval.None? { return Ok(None); }
      var proof := s.approval.value;
      if proof.challengeId !in approvals { return Err(InvalidRequest); }
      var record := approvals[proof.challengeId];
      if record.used { return Err(DuplicateRequest); }
      if now >= record.expiresAtMs { return Err(Conflict); }
      if record.deviceId != s.principal.deviceId { return Err(Forbidden); }
      if record.idempotencyKey != s.intent.idempotencyKey { return Err(InvalidRequest); }
      if proof.commandDigest != record.commandDigest { return Err(InvalidRequest); }
      if digest != record.commandDigest { return Err(InvalidRequest); }
      return Ok(Some(proof.challengeId));
    }

    method MarkUsed(id: nat)
      modifies this
      ensures approvals == Used(old(approvals), id)
    {
      if id in approvals { approvals := approvals[id := approvals[id].(used := true)]; }
    }

    /** Sweeps what is used or expired, then adds one record unless too many are outstanding. */
    method IssueChallenge(id: nat, record: Approval, now: int) returns (ok: bool)
      modifies this
      ensures ok <==> |Swept(old(approvals), now)| < maxOutstanding
      ensures approvals == if ok then Swept(old(approvals), now)[id := record] else Swept(old(approvals), now)
    {
      var before, todo := approvals, approvals.Keys;
      while todo != {}
        invariant todo <= before.Keys
        invariant forall i :: i in approvals <==> i in before && (i in todo || i in Swept(before, now))
        invariant forall i :: i in approvals ==> approvals[i] == before[i]
        decreases |todo|
      {
        var i :| i in todo;
        if before[i].used || before[i].expiresAtMs <= now {
          approvals := approvals - {i};
        }
        todo := todo - {i};
      }
      assert approvals == Swept(before, now);
      if |approvals| >= maxOutstanding { return false; }
      approvals := approvals[id := record];
      return true;
    }
  }

  // ----- the ledger -----

  /** `owner` is the submission that claimed the key; `running` is set once its mutation has started. */
  datatype LedgerRecord = LedgerRecord(commandDigest: Digest, decision: Decision, createdAtMs: int, owner: nat, running: bool)

  function Kept(ledger: map<string, LedgerRecord>, ttlMs: int, now: int): map<string, LedgerRecord> {
    map k | k in ledger && now - ledger[k].createdAtMs < ttlMs :: ledger[k]
  }

  method Remember(ledger: map<string, LedgerRecord>, ttlMs: int, max: int, key: string, record: LedgerRecord, now: int)
    returns (r: (map<string, LedgerRecord>, bool))
    ensures r.1 <==> |Kept(ledger, ttlMs, now)| < max
    ensures r.0 == if r.1 then Kept(ledger, ttlMs, now)[key := record] else Kept(ledger, ttlMs, now)
  {
    var kept, todo := ledger, ledger.Keys;
    while todo != {}
      invariant todo <= ledger.Keys
      invariant forall k :: k in kept <==> k in ledger && (k in todo || k in Kept(ledger, ttlMs, now))
      invariant forall k :: k in kept ==> kept[k] == ledger[k]
      decreases |todo|
    {
      var k :| k in todo;
      if now - ledger[k].createdAtMs >= ttlMs { kept := kept - {k}; }
      todo := todo - {k};
    }
    assert kept == Kept(ledger, ttlMs, now);
    if |kept| >= max { return (kept, false); }
    return (kept[key := record], true);
  }

  // ----- every interleaving of submissions -----

  datatype Config = Config(approvalTtlMs: int, maxOutstanding: int, ledgerTtlMs: int, maxLedger: int)

  /** Where one call of `execute` stands. `Granted` has claimed its key and is waiting for the `allowed`
      record to be written; `Cleared` knows that it has been. History: `verifiedAt` and `allowedAt`, the
      places of its verification and of its record in the trace. */
  datatype Pc =
    | Submitted
    | LookedUp
    | Denying
    | Challenged
    | Refusing(decision: Decision)
    | Granted(challenge: Option<nat>, verifiedAt: nat)
    | Cleared(challenge: Option<nat>, verifiedAt: nat, allowedAt: nat)
    | Running
    | Done

  datatype Thread = Thread(sub: Submission, pc: Pc)

  /** What happened, in order. `at` is the clock when a challenge was verified, `issuedAt` the place of
      its issue in the trace. */
  datatype Entry =
    | Issued(id: nat, deviceId: string, idempotencyKey: string, commandDigest: Digest, expiresAtMs: int)
    | Verified(thread: nat, id: nat, at: int, issuedAt: nat)
    | Allowed(thread: nat)
    | Ran(thread: nat, challenge: Option<nat>, verifiedAt: nat, allowedAt: nat)
    | Failed(thread: nat)

  datatype State = State(
    approvals: map<nat, Approval>, ledger: map<string, LedgerRecord>, threads: seq<Thread>, supply: nat, trace: seq<Entry>)

  datatype Act =
    | Submit(sub: Submission)
    | LookUp(t: nat)
    | DecideIt(t: nat, now: int)
    | AuditDone(t: nat, ok: bool, now: int)
    | StartMutation(t: nat)
    | MutationDone(t: nat, ok: bool)

  function ShapeError(s: Submission): Option<Error> {
    if s.intent.deviceId != s.principal.deviceId then Some(Forbidden)
    else KeyError(s.intent.idempotencyKey, s.principal.deviceId)
  }

  ghost predicate Possible(s: State, a: Act) {
    match a
    case Submit(_) => true
    case LookUp(t) => t < |s.threads| && s.threads[t].pc.Submitted?
    case DecideIt(t, _) => t < |s.threads| && s.threads[t].pc.LookedUp?
    case AuditDone(t, _, _) =>
      t < |s.threads| && var pc := s.threads[t].pc; pc.Denying? || pc.Challenged? || pc.Refusing? || pc.Granted?
    case StartMutation(t) => t < |s.threads| && s.threads[t].pc.Cleared?
    case MutationDone(t, _) => t < |s.threads| && s.threads[t].pc.Running?
  }

  ghost function Goto(s: State, t: nat, pc: Pc): State
    requires t < |s.threads|
  {
    s.(threads := s.threads[t := s.threads[t].(pc := pc)])
  }

  /** The ledger lookup of `replayOf`. A replay is answered and audited as denied; it never runs. */
  ghost function LookUpStep(s: State, t: nat): State
    requires t < |s.threads|
  {
    var sub := s.threads[t].sub;
    if ShapeError(sub).Some? || sub.intent.idempotencyKey in s.ledger then Goto(s, t, Denying)
    else Goto(s, t, LookedUp)
  }

  /** From `challenges.verify` to `markUsed`: the proof is checked and burned, the domain decides, a
      challenge may be issued, and an accepted command claims its key. */
  ghost function DecideStep(c: Config, s: State, t: nat, now: int): State
    requires t < |s.threads|
  {
    var sub := s.threads[t].sub;
    if sub.approval.Some? && VerifyError(s.approvals, sub, now).Some? then Goto(s, t, Denying)
    else
      var challenge := if sub.approval.Some? then Some(sub.approval.value.challengeId) else None;
      var at := |s.trace|;
      var s1 := if challenge.None? then s
                else s.(approvals := Used(s.approvals, challenge.value),
                        trace := s.trace + [Verified(t, challenge.value, now, s.approvals[challenge.value].issuedAt)]);
      if ShapeError(sub).Some? then Goto(s1, t, Denying) else OutcomeStep(c, s1, t, now, challenge, at)
  }

  ghost function OutcomeStep(c: Config, s: State, t: nat, now: int, challenge: Option<nat>, at: nat): State
    requires t < |s.threads|
  {
    var sub := s.threads[t].sub;
    match Decide(sub.intent, sub.principal, challenge.Some?)
    case ConfirmationRequired => IssueStep(c, s, t, now)
    case Accepted => ClaimStep(c, s, t, now, challenge, at)
    case Rejected(e) => Goto(s, t, Refusing(Rejected(e)))
    case Duplicate => Goto(s, t, Refusing(Duplicate))
  }

  ghost function IssueStep(c: Config, s: State, t: nat, now: int): State
    requires t < |s.threads|
  {
    var swept := Swept(s.approvals, now);
    if |swept| >= c.maxOutstanding then Goto(s.(approvals := swept), t, Denying)
    else
      var sub := s.threads[t].sub;
      var digest, expiresAt := CommandDigestOf(sub.intent), now + c.approvalTtlMs;
      var record := Approval(digest, sub.principal.deviceId, sub.intent.idempotencyKey, expiresAt, false, |s.trace|);
      Goto(s.(approvals := swept[s.supply := record], supply := s.supply + 1,
              trace := s.trace + [Issued(s.supply, record.deviceId, record.idempotencyKey, digest, expiresAt)]),
           t, Challenged)
  }

  ghost function Remembered(c: Config, s: State, t: nat, decision: Decision, now: int): (r: (State, bool))
    requires t < |s.threads|
    ensures r.0.threads == s.threads && r.0.trace == s.trace && r.0.approvals == s.approvals && r.0.supply == s.supply
  {
    var intent := s.threads[t].sub.intent;
    var kept := Kept(s.ledger, c.ledgerTtlMs, now);
    if |kept| >= c.maxLedger then (s.(ledger := kept), false)
    else (s.(ledger := kept[intent.idempotencyKey := LedgerRecord(CommandDigestOf(intent), decision, now, t, false)]), true)
  }

  ghost function ClaimStep(c: Config, s: State, t: nat, now: int, challenge: Option<nat>, at: nat): State
    requires t < |s.threads|
  {
    var (s1, ok) := Remembered(c, s, t, Accepted, now);
    Goto(s1, t, if ok then Granted(challenge, at) else Done)
  }

  /** The audit record a submission was waiting for has been written, or could not be. */
  ghost function AuditStep(c: Config, s: State, t: nat, ok: bool, now: int): State
    requires t < |s.threads|
  {
    var pc, key := s.threads[t].pc, s.threads[t].sub.intent.idempotencyKey;
    match pc
    case Granted(challenge, at) =>
      if ok then Goto(s.(trace := s.trace + [Allowed(t)]), t, Cleared(challenge, at, |s.trace|))
      else Goto(s.(ledger := s.ledger - {key}), t, Done)
    case Refusing(decision) =>
      if ok then Goto(Remembered(c, s, t, decision, now).0, t, Done) else Goto(s, t, Done)
    case _ => Goto(s, t, Done)
  }

  /** An accepted command starts its mutation and ties it to its claim on the key. */
  ghost function StartStep(s: State, t: nat): State
    requires t < |s.threads| && s.threads[t].pc.Cleared?
  {
    var pc, key := s.threads[t].pc, s.threads[t].sub.intent.idempotencyKey;
    var ledger := if key in s.ledger && s.ledger[key].owner == t then s.ledger[key := s.ledger[key].(running := true)] else s.ledger;
    Goto(s.(ledger := ledger, trace := s.trace + [Ran(t, pc.challenge, pc.verifiedAt, pc.allowedAt)]), t, Running)
  }

  /** A failed mutation releases its own claim on the key, and no other. */
  ghost function MutationStep(s: State, t: nat, ok: bool): State
    requires t < |s.threads|
  {
    var key := s.threads[t].sub.intent.idempotencyKey;
    if ok then Goto(s, t, Done)
    else
      var release := key in s.ledger && s.ledger[key].owner == t && s.ledger[key].running;
      Goto(s.(ledger := if release then s.ledger - {key} else s.ledger, trace := s.trace + [Failed(t)]), t, Done)
  }

  ghost function Next(c: Config, s: State, a: Act): State
    requires Possible(s, a)
  {
    match a
    case Submit(sub) => s.(threads := s.threads + [Thread(sub, Submitted)])
    case LookUp(t) => LookUpStep(s, t)
    case DecideIt(t, now) => DecideStep(c, s, t, now)
    case AuditDone(t, ok, now) => AuditStep(c, s, t, ok, now)
    case StartMutation(t) => StartStep(s, t)
    case MutationDone(t, ok) => MutationStep(s, t, ok)
  }

  ghost predicate Run(c: Config, s: State, acts: seq<Act>, t: State)
    decreases |acts|
  {
    if acts == [] then s == t else Possible(s, acts[0]) && Run(c, Next(c, s, acts[0]), acts[1..], t)
  }

  ghost function Start(): State { State(map[], map[], [], 0, []) }

  // ----- what every run keeps -----

  /** The challenge verified at `v` was issued before, for the verifying submission's device, key and
      command, and had not expired. */
  ghost predicate VerifiedOk(s: State, v: nat)
    requires v < |s.trace| && s.trace[v].Verified?
  {
    var e := s.trace[v];
    && e.thread < |s.threads| && e.id < s.supply
    && e.issuedAt < v
    && var sub, issued := s.threads[e.thread].sub, s.trace[e.issuedAt];
       && issued.Issued? && issued.id == e.id
       && issued.deviceId == sub.principal.deviceId
       && issued.idempotencyKey == sub.intent.idempotencyKey
       && issued.commandDigest == CommandDigestOf(sub.intent)
       && e.at < issued.expiresAtMs
  }

  /** A granted or running submission of a confirm-class command holds a challenge it verified. */
  ghost predicate Holds(s: State, t: nat, challenge: Option<nat>, v: nat, end: nat)
    requires t < |s.threads| && end <= |s.trace|
  {
    && !CommandAuthority(s.threads[t].sub.intent.action).risk.Blocked?
    && (CommandAuthority(s.threads[t].sub.intent.action).risk.Confirm? ==> challenge.Some?)
    && (challenge.Some? ==> v < end && s.trace[v].Verified? && s.trace[v].thread == t && s.trace[v].id == challenge.value)
  }

  ghost predicate EntryOk(s: State, i: nat)
    requires i < |s.trace|
  {
    match s.trace[i]
    case Verified(_, _, _, _) => VerifiedOk(s, i)
    case Issued(id, _, _, _, _) => id < s.supply
    case Allowed(t) => t < |s.threads|
    case Failed(t) => t < |s.threads|
    case Ran(t, challenge, v, k) =>
      && t < |s.threads| && (s.threads[t].pc.Running? || s.threads[t].pc.Done?)
      && k < i && s.trace[k] == Allowed(t)
      && Holds(s, t, challenge, v, k)
  }

  ghost predicate SpentOnce(s: State, i: nat, j: nat)
    requires i < |s.trace| && j < |s.trace|
  {
    && (s.trace[i].Verified? && s.trace[j].Verified? && s.trace[i].id == s.trace[j].id ==> i == j)
    && (s.trace[i].Ran? && s.trace[j].Ran? && s.trace[i].thread == s.trace[j].thread ==> i == j)
  }

  ghost predicate ApprovalOk(s: State, id: nat)
    requires id in s.approvals
  {
    var r := s.approvals[id];
    && id < s.supply
    && r.issuedAt < |s.trace|
    && s.trace[r.issuedAt] == Issued(id, r.deviceId, r.idempotencyKey, r.commandDigest, r.expiresAtMs)
    && (!r.used ==> forall v :: 0 <= v < |s.trace| && s.trace[v].Verified? ==> s.trace[v].id != id)
  }

  ghost predicate Guarded(s: State) {
    && (forall i: nat :: i < |s.trace| ==> EntryOk(s, i))
    && (forall i: nat, j: nat :: i < |s.trace| && j < |s.trace| ==> SpentOnce(s, i, j))
    && (forall id :: id in s.approvals ==> ApprovalOk(s, id))
    && (forall t: nat :: t < |s.threads| ==> ThreadOk(s, t))
  }

  /** What a submission that was accepted and has not started yet relies on. */
  ghost predicate ThreadOk(s: State, t: nat)
    requires t < |s.threads|
  {
    match s.threads[t].pc
    case Granted(challenge, v) => Holds(s, t, challenge, v, |s.trace|)
    case Cleared(challenge, v, k) => k < |s.trace| && s.trace[k] == Allowed(t) && Holds(s, t, challenge, v, k)
    case _ => true
  }

  /** Later states add to the trace and to the submissions, and a submission that ran stays past that. */
  ghost predicate Extends(s: State, s': State) {
    && s.trace <= s'.trace && s.supply <= s'.supply && |s.threads| <= |s'.threads|
    && (forall t: nat :: t < |s.threads| ==>
          && s'.threads[t].sub == s.threads[t].sub
          && (s.threads[t].pc.Running? || s.threads[t].pc.Done? ==> s'.threads[t].pc.Running? || s'.threads[t].pc.Done?))
  }

  lemma EntryStays(s: State, s': State, i: nat)
    requires Extends(s, s') && i < |s.trace| && EntryOk(s, i)
    ensures i < |s'.trace| && s'.trace[i] == s.trace[i] && EntryOk(s', i)
  {
    assert s'.trace[i] == s.trace[i];
    if s.trace[i].Verified? {
      assert s'.trace[s.trace[i].issuedAt] == s.trace[s.trace[i].issuedAt];
    }
    if s.trace[i].Ran? {
      assert s'.trace[s.trace[i].allowedAt] == s.trace[s.trace[i].allowedAt];
      if s.trace[i].challenge.Some? { assert s'.trace[s.trace[i].verifiedAt] == s.trace[s.trace[i].verifiedAt]; }
    }
  }

  lemma ThreadStays(s: State, s': State, t: nat)
    requires Extends(s, s') && t < |s.threads| && s'.threads[t] == s.threads[t] && ThreadOk(s, t)
    ensures ThreadOk(s', t)
  {
    var pc := s.threads[t].pc;
    if (pc.Granted? || pc.Cleared?) && pc.challenge.Some? { assert s'.trace[pc.verifiedAt] == s.trace[pc.verifiedAt]; }
    if pc.Cleared? { assert s'.trace[pc.allowedAt] == s.trace[pc.allowedAt]; }
  }

  /** No submission but `t` moves; `t` may be new. */
  ghost predicate OnlyMoves(s: State, s': State, t: nat) {
    && |s'.threads| <= |s.threads| + (if t == |s.threads| then 1 else 0)
    && forall u: nat :: u < |s.threads| && u < |s'.threads| && u != t ==> s'.threads[u] == s.threads[u]
  }

  /** The entry added last, if any, is in order. */
  ghost predicate AddsOk(s: State, s': State) {
    && |s'.trace| <= |s.trace| + 1
    && (|s.trace| < |s'.trace| ==>
          var n := |s.trace|;
          EntryOk(s', n) && forall i: nat :: i < n ==> SpentOnce(s', i, n))
  }

  /** A step of submission `t` that adds at most one entry. */
  lemma StepKeeps(s: State, s': State, t: nat)
    requires Guarded(s) && Extends(s, s') && AddsOk(s, s')
    requires OnlyMoves(s, s', t)
    requires t < |s'.threads| ==> ThreadOk(s', t)
    requires forall id :: id in s'.approvals ==> ApprovalOk(s', id)
    ensures Guarded(s')
  {
    var n := |s.trace|;
    assert s'.trace[..n] == s.trace;
    forall i: nat | i < |s'.trace| ensures EntryOk(s', i) {
      if i < n { EntryStays(s, s', i); }
    }
    forall i: nat, j: nat | i < |s'.trace| && j < |s'.trace| ensures SpentOnce(s', i, j) {
      if i < n && j < n { assert SpentOnce(s, i, j); }
      if i == n && j < n { assert SpentOnce(s', j, i); }
    }
    forall u: nat | u < |s'.threads| ensures ThreadOk(s', u) {
      if u != t { ThreadStays(s, s', u); }
    }
  }

  lemma ApprovalStays(s: State, s': State, id: nat)
    requires id in s.approvals && ApprovalOk(s, id) && s.trace <= s'.trace && s.supply <= s'.supply
    requires id in s'.approvals && s'.approvals[id] == s.approvals[id]
    requires forall v :: |s.trace| <= v < |s'.trace| && s'.trace[v].Verified? ==> s'.trace[v].id != id
    ensures ApprovalOk(s', id)
  {
    assert s'.trace[s.approvals[id].issuedAt] == s.trace[s.approvals[id].issuedAt];
    assert forall v :: 0 <= v < |s.trace| ==> s'.trace[v] == s.trace[v];
  }

  /** A step that records nothing about challenges and touches no approval. */
  lemma QuietKeeps(s: State, s': State, t: nat)
    requires Guarded(s) && Extends(s, s') && AddsOk(s, s') && s'.approvals == s.approvals
    requires |s.trace| < |s'.trace| ==> !s'.trace[|s.trace|].Verified?
    requires OnlyMoves(s, s', t)
    requires t < |s'.threads| ==> ThreadOk(s', t)
    ensures Guarded(s')
  {
    forall id | id in s'.approvals ensures ApprovalOk(s', id) { ApprovalStays(s, s', id); }
    StepKeeps(s, s', t);
  }

  ghost function Verification(s: State, t: nat, now: int): State
    requires t < |s.threads| && s.threads[t].sub.approval.Some?
    requires s.threads[t].sub.approval.value.challengeId in s.approvals
  {
    var id := s.threads[t].sub.approval.value.challengeId;
    s.(approvals := Used(s.approvals, id), trace := s.trace + [Verified(t, id, now, s.approvals[id].issuedAt)])
  }

  /** Verifying a challenge burns it, so no challenge is verified twice. */
  lemma VerificationKeeps(s: State, t: nat, now: int)
    requires Guarded(s) && t < |s.threads| && s.threads[t].sub.approval.Some?
    requires VerifyError(s.approvals, s.threads[t].sub, now).None?
    ensures Guarded(Verification(s, t, now))
  {
    var s', id, n := Verification(s, t, now), s.threads[t].sub.approval.value.challengeId, |s.trace|;
    assert ApprovalOk(s, id);
    assert s'.trace[s.approvals[id].issuedAt] == s.trace[s.approvals[id].issuedAt];
    forall i: nat | i < n ensures SpentOnce(s', i, n) { assert s'.trace[i] == s.trace[i]; }
    forall x | x in s'.approvals ensures ApprovalOk(s', x) {
      if x != id { ApprovalStays(s, s', x); }
    }
    ThreadStays(s, s', t);
    StepKeeps(s, s', t);
  }

  lemma IssueKeeps(c: Config, s: State, t: nat, now: int)
    requires Guarded(s) && t < |s.threads| && s.threads[t].pc.LookedUp?
    ensures Guarded(IssueStep(c, s, t, now))
  {
    var s' := IssueStep(c, s, t, now);
    assert Extends(s, s');
    forall x | x in s'.approvals ensures ApprovalOk(s', x) {
      if x in s.approvals && s'.approvals[x] == s.approvals[x] {
        ApprovalStays(s, s', x);
      } else {
        forall v | 0 <= v < |s.trace| && s.trace[v].Verified? ensures s.trace[v].id != x { assert EntryOk(s, v); }
        assert forall v :: 0 <= v < |s.trace| ==> s'.trace[v] == s.trace[v];
      }
    }
    StepKeeps(s, s', t);
  }

  /** Moving one submission to a step that relies on nothing, whatever happens to the ledger. */
  lemma GotoKeeps(s: State, ledger: map<string, LedgerRecord>, t: nat, pc: Pc)
    requires Guarded(s) && t < |s.threads| && !pc.Granted? && !pc.Cleared?
    requires s.threads[t].pc.Running? || s.threads[t].pc.Done? ==> pc.Running? || pc.Done?
    ensures Guarded(Goto(s.(ledger := ledger), t, pc))
  {
    QuietKeeps(s, Goto(s.(ledger := ledger), t, pc), t);
  }

  /** Claiming the key grants the command the challenge it has just verified. */
  lemma ClaimKeeps(c: Config, s: State, t: nat, now: int, challenge: Option<nat>, at: nat)
    requires Guarded(s) && t < |s.threads| && s.threads[t].pc.LookedUp? && Holds(s, t, challenge, at, |s.trace|)
    ensures Guarded(ClaimStep(c, s, t, now, challenge, at))
  {
    QuietKeeps(s, ClaimStep(c, s, t, now, challenge, at), t);
  }

  lemma OutcomeKeeps(c: Config, s: State, t: nat, now: int, challenge: Option<nat>, at: nat)
    requires Guarded(s) && t < |s.threads| && s.threads[t].pc.LookedUp?
    requires challenge.Some? ==> at < |s.trace| && s.trace[at].Verified? && s.trace[at].thread == t && s.trace[at].id == challenge.value
    ensures Guarded(OutcomeStep(c, s, t, now, challenge, at))
  {
    var sub := s.threads[t].sub;
    match Decide(sub.intent, sub.principal, challenge.Some?)
    case ConfirmationRequired => IssueKeeps(c, s, t, now);
    case Accepted => ClaimKeeps(c, s, t, now, challenge, at);
    case Rejected(e) => GotoKeeps(s, s.ledger, t, Refusing(Rejected(e)));
    case Duplicate => GotoKeeps(s, s.ledger, t, Refusing(Duplicate));
  }

  lemma DecideKeeps(c: Config, s: State, t: nat, now: int)
    requires Guarded(s) && t < |s.threads| && s.threads[t].pc.LookedUp?
    ensures Guarded(DecideStep(c, s, t, now))
  {
    var sub := s.threads[t].sub;
    if sub.approval.Some? && VerifyError(s.approvals, sub, now).Some? {
      GotoKeeps(s, s.ledger, t, Denying);
    } else {
      var challenge := if sub.approval.Some? then Some(sub.approval.value.challengeId) else None;
      var s1 := s;
      if sub.approval.Some? {
        s1 := Verification(s, t, now);
        VerificationKeeps(s, t, now);
      }
      if ShapeError(sub).Some? { GotoKeeps(s1, s1.ledger, t, Denying); } else { OutcomeKeeps(c, s1, t, now, challenge, |s.trace|); }
    }
  }

  /** An audit answer that grants nothing only moves the submission on. */
  lemma AuditKeeps(c: Config, s: State, t: nat, ok: bool, now: int)
    requires Guarded(s) && Possible(s, AuditDone(t, ok, now))
    ensures Guarded(AuditStep(c, s, t, ok, now))
  {
    var s', pc := AuditStep(c, s, t, ok, now), s.threads[t].pc;
    if ok && pc.Granted? {
      assert ThreadOk(s, t);
      if pc.challenge.Some? { assert s'.trace[pc.verifiedAt] == s.trace[pc.verifiedAt]; }
      QuietKeeps(s, s', t);
    } else {
      GotoKeeps(s, s'.ledger, t, Done);
    }
  }

  /** A command that starts has its `allowed` record behind it, and starts once. */
  lemma StartKeeps(s: State, t: nat)
    requires Guarded(s) && t < |s.threads| && s.threads[t].pc.Cleared?
    ensures Guarded(StartStep(s, t))
  {
    var s', n, pc := StartStep(s, t), |s.trace|, s.threads[t].pc;
    assert ThreadOk(s, t);
    assert s'.trace[pc.allowedAt] == s.trace[pc.allowedAt];
    if pc.challenge.Some? { assert s'.trace[pc.verifiedAt] == s.trace[pc.verifiedAt]; }
    forall i: nat | i < n ensures SpentOnce(s', i, n) {
      assert EntryOk(s, i) && s'.trace[i] == s.trace[i];
    }
    QuietKeeps(s, s', t);
  }

  lemma MutationKeeps(s: State, t: nat, ok: bool)
    requires Guarded(s) && Possible(s, MutationDone(t, ok))
    ensures Guarded(MutationStep(s, t, ok))
  {
    QuietKeeps(s, MutationStep(s, t, ok), t);
  }

  lemma SubmitKeeps(s: State, sub: Submission)
    requires Guarded(s)
    ensures Guarded(s.(threads := s.threads + [Thread(sub, Submitted)]))
  {
    QuietKeeps(s, s.(threads := s.threads + [Thread(sub, Submitted)]), |s.threads|);
  }

  lemma NextKeeps(c: Config, s: State, a: Act)
    requires Guarded(s) && Possible(s, a)
    ensures Guarded(Next(c, s, a))
  {
    match a
    case DecideIt(t, now) => DecideKeeps(c, s, t, now);
    case AuditDone(t, ok, now) => AuditKeeps(c, s, t, ok, now);
    case StartMutation(t) => StartKeeps(s, t);
    case Submit(sub) => SubmitKeeps(s, sub);
    case LookUp(t) =>
      GotoKeeps(s, s.ledger, t, Denying);
      GotoKeeps(s, s.ledger, t, LookedUp);
    case MutationDone(t, ok) => MutationKeeps(s, t, ok);
  }

  lemma {:induction false} RunGuarded(c: Config, s: State, acts: seq<Act>, t: State)
    requires Guarded(s) && Run(c, s, acts, t)
    ensures Guarded(t)
    decreases |acts|
  {
    if acts != [] {
      NextKeeps(c, s, acts[0]);
      RunGuarded(c, Next(c, s, acts[0]), acts[1..], t);
    }
  }

  /** A challenge `id` was issued at `a` for exactly this submission's device, key and command, was
      verified for it at `v` before it expired, and the submission was recorded as allowed at `k`. */
  ghost predicate ApprovedRun(s: State, a: nat, v: nat, k: nat, i: nat, id: nat)
    requires i < |s.trace| && s.trace[i].Ran? && s.trace[i].thread < |s.threads|
  {
    var t := s.trace[i].thread;
    var sub := s.threads[t].sub;
    && a < v < k < i
    && s.trace[a].Issued? && s.trace[a].id == id
    && s.trace[a].deviceId == sub.principal.deviceId
    && s.trace[a].idempotencyKey == sub.intent.idempotencyKey
    && s.trace[a].commandDigest == CommandDigestOf(sub.intent)
    && s.trace[v].Verified? && s.trace[v].thread == t && s.trace[v].id == id && s.trace[v].at < s.trace[a].expiresAtMs
    && s.trace[k] == Allowed(t)
  }

  /** In every interleaving, each run of a confirm-class mutation comes after its own `allowed` record
      and rests on a challenge issued for exactly its device, key and command. */
  lemma RunsAreApproved(c: Config, acts: seq<Act>, s: State, i: nat)
    requires Run(c, Start(), acts, s) && i < |s.trace| && s.trace[i].Ran?
    ensures s.trace[i].thread < |s.threads|
    ensures var t := s.trace[i].thread;
      exists k: nat :: k < i && s.trace[k] == Allowed(t)
    ensures CommandAuthority(s.threads[s.trace[i].thread].sub.intent.action).risk.Confirm? ==>
      s.trace[i].challenge.Some? && exists a: nat, v: nat, k: nat :: ApprovedRun(s, a, v, k, i, s.trace[i].challenge.value)
  {
    RunGuarded(c, Start(), acts, s);
    assert EntryOk(s, i);
    var t, v, k := s.trace[i].thread, s.trace[i].verifiedAt, s.trace[i].allowedAt;
    assert s.trace[k] == Allowed(t);
    if s.trace[i].challenge.Some? {
      assert EntryOk(s, v);
      assert ApprovedRun(s, s.trace[v].issuedAt, v, k, i, s.trace[i].challenge.value);
    }
  }

  /** No two runs share a challenge, and no submission runs twice. */
  lemma ChallengesBackOneRun(c: Config, acts: seq<Act>, s: State, i: nat, j: nat)
    requires Run(c, Start(), acts, s) && i < |s.trace| && j < |s.trace| && s.trace[i].Ran? && s.trace[j].Ran?
    requires s.trace[i].thread == s.trace[j].thread
          || (s.trace[i].challenge.Some? && s.trace[i].challenge == s.trace[j].challenge)
    ensures i == j
  {
    RunGuarded(c, Start(), acts, s);
    assert SpentOnce(s, i, j);
    assert EntryOk(s, i) && EntryOk(s, j);
    if s.trace[i].challenge.Some? && s.trace[i].challenge == s.trace[j].challenge {
      assert SpentOnce(s, s.trace[i].verifiedAt, s.trace[j].verifiedAt);
    }
  }

  /** The policy accepts exactly what the caller may do, and a confirm-class command only when verified. */
  lemma AcceptedExactly(intent: Intent, p: Principal, verified: bool)
    ensures var authority := CommandAuthority(intent.action);
      Decide(intent, p, verified).Accepted? <==>
        && !authority.risk.Blocked?
        && (authority.ownerOnly ==> p.isOwner)
        && (authority.scope.Some? ==> authority.scope.value in p.scopes)
        && (authority.risk.Confirm? ==> verified)
  {
  }

  /** No branch integration and no protected push ever runs through this gate. */
  lemma BlockedNeverRuns(c: Config, acts: seq<Act>, s: State, i: nat)
    requires Run(c, Start(), acts, s) && i < |s.trace| && s.trace[i].Ran?
    ensures s.trace[i].thread < |s.threads|
    ensures !CommandAuthority(s.threads[s.trace[i].thread].sub.intent.action).risk.Blocked?
  {
    RunGuarded(c, Start(), acts, s);
    assert EntryOk(s, i);
  }

  // ----- one run per key -----

  ghost function KeyOf(s: State, t: nat): string
    requires t < |s.threads|
  {
    s.threads[t].sub.intent.idempotencyKey
  }

  /** Between its lookup and its end. */
  ghost predicate Busy(s: State, t: nat)
    requires t < |s.threads|
  {
    !s.threads[t].pc.Submitted? && !s.threads[t].pc.Done?
  }

  ghost predicate Rivals(s: State, t: nat, u: nat)
    requires t < |s.threads| && u < |s.threads|
  {
    t != u && KeyOf(s, t) == KeyOf(s, u)
  }

  /** A submission looks its key up only while no other submission of that key is under way. */
  ghost predicate Waits(s: State, a: Act) {
    a.LookUp? && a.t < |s.threads| ==> forall u: nat :: u < |s.threads| && Rivals(s, a.t, u) ==> !Busy(s, u)
  }

  /** The clock is read within one ledger lifetime. */
  predicate Within(a: Act, from: int, ttlMs: int) {
    match a
    case DecideIt(_, now) => from <= now < from + ttlMs
    case AuditDone(_, _, now) => from <= now < from + ttlMs
    case _ => true
  }

  /** A run in which submissions of one key do not overlap and no ledger record grows old. */
  ghost predicate CalmRun(c: Config, s: State, acts: seq<Act>, t: State, from: int)
    decreases |acts|
  {
    if acts == [] then s == t
    else
      && Possible(s, acts[0]) && Waits(s, acts[0]) && Within(acts[0], from, c.ledgerTtlMs)
      && CalmRun(c, Next(c, s, acts[0]), acts[1..], t, from)
  }

  ghost predicate OwnsKey(s: State, t: nat)
    requires t < |s.threads|
  {
    KeyOf(s, t) in s.ledger && s.ledger[KeyOf(s, t)].owner == t
  }

  ghost predicate FailedAfter(s: State, i: nat)
    requires i < |s.trace| && s.trace[i].Ran?
  {
    exists k: nat :: i < k < |s.trace| && s.trace[k] == Failed(s.trace[i].thread)
  }

  ghost predicate TidyThread(s: State, t: nat)
    requires t < |s.threads|
  {
    match s.threads[t].pc
    case LookedUp => KeyOf(s, t) !in s.ledger
    case Refusing(_) => KeyOf(s, t) !in s.ledger
    case Granted(_, _) => OwnsKey(s, t)
    case Cleared(_, _, _) => OwnsKey(s, t)
    case Running => OwnsKey(s, t) && s.ledger[KeyOf(s, t)].running
    case _ => true
  }

  /** A mutation that ran and has not failed keeps its key. */
  ghost predicate TidyEntry(s: State, i: nat)
    requires i < |s.trace| && s.trace[i].Ran? && s.trace[i].thread < |s.threads|
  {
    FailedAfter(s, i) || OwnsKey(s, s.trace[i].thread)
  }

  /** Two runs of one key: the first failed before the second. */
  ghost predicate Retried(s: State, i: nat, j: nat)
    requires i < j < |s.trace| && s.trace[i].Ran?
  {
    exists k: nat :: i < k < j && s.trace[k] == Failed(s.trace[i].thread)
  }

  ghost predicate RunsOf(s: State, i: nat, j: nat)
    requires i < |s.trace| && j < |s.trace|
  {
    && s.trace[i].Ran? && s.trace[j].Ran? && s.trace[i].thread < |s.threads| && s.trace[j].thread < |s.threads|
    && KeyOf(s, s.trace[i].thread) == KeyOf(s, s.trace[j].thread)
  }

  ghost predicate Tidy(s: State, from: int) {
    && (forall k :: k in s.ledger ==> from <= s.ledger[k].createdAtMs)
    && (forall t: nat :: t < |s.threads| ==> TidyThread(s, t))
    && (forall t: nat, u: nat :: t < |s.threads| && u < |s.threads| && Rivals(s, t, u) ==> !Busy(s, t) || !Busy(s, u))
    && (forall i: nat :: i < |s.trace| && s.trace[i].Ran? && s.trace[i].thread < |s.threads| ==> TidyEntry(s, i))
    && (forall i: nat, j: nat :: i < j < |s.trace| && RunsOf(s, i, j) ==> Retried(s, i, j))
  }

  lemma NothingSwept(ledger: map<string, LedgerRecord>, ttlMs: int, from: int, now: int)
    requires (forall k :: k in ledger ==> from <= ledger[k].createdAtMs) && from <= now < from + ttlMs
    ensures Kept(ledger, ttlMs, now) == ledger
  {
  }

  /** The ledger changes at the key of `t` only. */
  ghost predicate LedgerMoves(s: State, s': State, t: nat)
    requires t < |s.threads|
  {
    && (forall k :: k != KeyOf(s, t) ==> (k in s'.ledger <==> k in s.ledger))
    && (forall k :: k != KeyOf(s, t) && k in s.ledger ==> s'.ledger[k] == s.ledger[k])
  }

  ghost predicate RunOf(s: State, t: nat, i: nat)
    requires t < |s.threads|
  {
    i < |s.trace| && s.trace[i].Ran? && s.trace[i].thread < |s.threads| && KeyOf(s, s.trace[i].thread) == KeyOf(s, t)
  }

  ghost predicate StillTidy(s: State, i: nat) {
    i < |s.trace| && s.trace[i].Ran? && s.trace[i].thread < |s.threads| && TidyEntry(s, i)
  }

  /** What a step of `t` owes: its own claim, its rivals, and the runs of its key. */
  ghost predicate Owes(s: State, s': State, t: nat, from: int)
    requires t < |s.threads| && t < |s'.threads|
  {
    && TidyThread(s', t)
    && (KeyOf(s, t) in s'.ledger ==> from <= s'.ledger[KeyOf(s, t)].createdAtMs)
    && (Busy(s', t) ==> forall u: nat :: u < |s.threads| && Rivals(s, t, u) ==> !Busy(s, u))
    && (forall i: nat :: RunOf(s, t, i) ==> StillTidy(s', i))
  }

  /** Which entry a step may add: a start that every earlier run of the key has made room for, or nothing
      about starts. */
  ghost predicate AddsTidy(s: State, s': State, t: nat)
    requires t < |s.threads| && t < |s'.threads|
  {
    && |s'.trace| <= |s.trace| + 1
    && (|s.trace| < |s'.trace| && s'.trace[|s.trace|].Ran? ==>
          && s'.trace[|s.trace|].thread == t && OwnsKey(s', t)
          && forall i: nat :: RunOf(s, t, i) ==> FailedAfter(s, i))
  }

  lemma EntryTidyStays(s: State, s': State, t: nat, i: nat)
    requires Extends(s, s') && t < |s.threads| && LedgerMoves(s, s', t)
    requires i < |s.trace| && s.trace[i].Ran? && s.trace[i].thread < |s.threads| && KeyOf(s, s.trace[i].thread) != KeyOf(s, t)
    requires TidyEntry(s, i)
    ensures i < |s'.trace| && s'.trace[i] == s.trace[i] && TidyEntry(s', i)
  {
    assert s'.trace[i] == s.trace[i];
    if FailedAfter(s, i) { FailureStays(s, s', i); }
  }

  lemma FailureStays(s: State, s': State, i: nat)
    requires s.trace <= s'.trace && i < |s.trace| && s.trace[i].Ran? && FailedAfter(s, i)
    ensures s'.trace[i] == s.trace[i] && FailedAfter(s', i)
  {
    var k: nat :| i < k < |s.trace| && s.trace[k] == Failed(s.trace[i].thread);
    assert s'.trace[k] == s.trace[k] && s'.trace[i] == s.trace[i];
  }

  lemma ThreadTidyStays(s: State, s': State, t: nat, u: nat)
    requires Extends(s, s') && t < |s.threads| && u < |s.threads| && t != u && s'.threads[u] == s.threads[u]
    requires LedgerMoves(s, s', t) && TidyThread(s, u) && (KeyOf(s, u) == KeyOf(s, t) ==> !Busy(s, u))
    ensures TidyThread(s', u)
  {
  }

  /** What a submission whose key is in use by itself need not change. */
  lemma TidyStep(s: State, s': State, t: nat, from: int)
    requires Tidy(s, from) && Extends(s, s') && t < |s.threads| && OnlyMoves(s, s', t) && |s'.threads| == |s.threads|
    requires Busy(s, t) || Busy(s', t) ==> forall u: nat :: u < |s.threads| && Rivals(s, t, u) ==> !Busy(s, u)
    requires Busy(s, t) || s'.ledger == s.ledger
    requires LedgerMoves(s, s', t) && Owes(s, s', t, from) && AddsTidy(s, s', t)
    ensures Tidy(s', from)
  {
    forall u: nat | u < |s'.threads| ensures TidyThread(s', u) {
      if u != t {
        assert KeyOf(s, u) == KeyOf(s, t) ==> Rivals(s, t, u);
        if Busy(s, t) { ThreadTidyStays(s, s', t, u); } else { assert TidyThread(s, u); }
      }
    }
    forall x: nat, y: nat | x < |s'.threads| && y < |s'.threads| && Rivals(s', x, y) ensures !Busy(s', x) || !Busy(s', y) {
      assert Rivals(s, x, y) && Rivals(s, y, x);
    }
    forall i: nat | i < |s'.trace| && s'.trace[i].Ran? && s'.trace[i].thread < |s'.threads| ensures TidyEntry(s', i) {
      if i < |s.trace| {
        assert s'.trace[i] == s.trace[i];
        if RunOf(s, t, i) { assert StillTidy(s', i); } else { EntryTidyStays(s, s', t, i); }
      }
    }
    forall i: nat, j: nat | i < j < |s'.trace| && RunsOf(s', i, j) ensures Retried(s', i, j) { RetriedStays(s, s', t, from, i, j); }
  }

  lemma RetriedStays(s: State, s': State, t: nat, from: int, i: nat, j: nat)
    requires Tidy(s, from) && Extends(s, s') && t < |s.threads| && |s'.threads| == |s.threads| && AddsTidy(s, s', t)
    requires i < j < |s'.trace| && RunsOf(s', i, j)
    ensures Retried(s', i, j)
  {
    assert s'.trace[i] == s.trace[i];
    if j < |s.trace| {
      assert s'.trace[j] == s.trace[j] && RunsOf(s, i, j);
      var k: nat :| i < k < j && s.trace[k] == Failed(s.trace[i].thread);
      assert s'.trace[k] == s.trace[k];
    } else {
      assert RunOf(s, t, i) && FailedAfter(s, i);
      var k: nat :| i < k < |s.trace| && s.trace[k] == Failed(s.trace[i].thread);
      assert s'.trace[k] == s.trace[k];
    }
  }

  ghost predicate Calm(s: State, from: int) { Guarded(s) && Tidy(s, from) }

  lemma AloneWhileBusy(s: State, t: nat, from: int)
    requires Tidy(s, from) && t < |s.threads| && Busy(s, t)
    ensures forall u: nat :: u < |s.threads| && Rivals(s, t, u) ==> !Busy(s, u)
  {
  }

  /** A key that is not claimed is not held by any run. */
  lemma KeyFree(s: State, t: nat, from: int)
    requires Calm(s, from) && t < |s.threads|
    requires KeyOf(s, t) in s.ledger ==> OwnsKey(s, t) && !s.threads[t].pc.Running? && !s.threads[t].pc.Done?
    ensures forall i: nat :: RunOf(s, t, i) ==> FailedAfter(s, i)
  {
    forall i: nat | RunOf(s, t, i) ensures FailedAfter(s, i)
    {
      assert EntryOk(s, i) && TidyEntry(s, i);
    }
  }

  lemma FreeStays(s: State, s': State, t: nat, from: int)
    requires Calm(s, from) && t < |s.threads| && Extends(s, s')
    requires KeyOf(s, t) in s.ledger ==> OwnsKey(s, t) && !s.threads[t].pc.Running? && !s.threads[t].pc.Done?
    ensures forall i: nat :: RunOf(s, t, i) ==> StillTidy(s', i)
  {
    KeyFree(s, t, from);
    forall i: nat | RunOf(s, t, i) ensures StillTidy(s', i)
    {
      FailureStays(s, s', i);
    }
  }

  // ----- each step of a calm run keeps the keys tidy -----

  /** A step that leaves the ledger alone, to a place that claims nothing new. */
  lemma LeavesLedger(s: State, s': State, t: nat, from: int)
    requires Calm(s, from) && t < |s.threads| && Busy(s, t) && Extends(s, s') && OnlyMoves(s, s', t) && |s'.threads| == |s.threads|
    requires s'.ledger == s.ledger && TidyThread(s', t)
    requires |s'.trace| <= |s.trace| + 1 && (|s.trace| < |s'.trace| ==> !s'.trace[|s.trace|].Ran?)
    ensures Tidy(s', from)
  {
    forall i: nat | RunOf(s, t, i) ensures StillTidy(s', i) {
      assert TidyEntry(s, i) && s'.trace[i] == s.trace[i];
      if FailedAfter(s, i) { FailureStays(s, s', i); }
    }
    TidyStep(s, s', t, from);
  }

  /** A step of a submission whose key no run holds. */
  lemma FreeStep(s: State, s': State, t: nat, from: int)
    requires Calm(s, from) && t < |s.threads| && Busy(s, t) && Extends(s, s') && OnlyMoves(s, s', t) && |s'.threads| == |s.threads|
    requires LedgerMoves(s, s', t) && TidyThread(s', t)
    requires KeyOf(s, t) in s.ledger ==> OwnsKey(s, t) && !s.threads[t].pc.Running?
    requires KeyOf(s, t) in s'.ledger ==> from <= s'.ledger[KeyOf(s, t)].createdAtMs
    requires |s'.trace| <= |s.trace| + 1 && (|s.trace| < |s'.trace| ==> s'.trace[|s.trace|].Ran? ==> s'.trace[|s.trace|].thread == t && OwnsKey(s', t))
    ensures Tidy(s', from)
  {
    FreeStays(s, s', t, from);
    KeyFree(s, t, from);
    TidyStep(s, s', t, from);
  }

  lemma DecideTidy(c: Config, s: State, t: nat, now: int, from: int)
    requires Calm(s, from) && t < |s.threads| && s.threads[t].pc.LookedUp? && from <= now < from + c.ledgerTtlMs
    ensures Tidy(DecideStep(c, s, t, now), from)
  {
    var s' := DecideStep(c, s, t, now);
    NothingSwept(s.ledger, c.ledgerTtlMs, from, now);
    assert TidyThread(s, t);
    var sub := s.threads[t].sub;
    if sub.approval.Some? && VerifyError(s.approvals, sub, now).Some? {
      LeavesLedger(s, s', t, from);
    } else {
      var challenge := if sub.approval.Some? then Some(sub.approval.value.challengeId) else None;
      var s1 := s;
      if sub.approval.Some? {
        s1 := Verification(s, t, now);
        VerificationKeeps(s, t, now);
        LeavesLedger(s, s1, t, from);
      }
      if ShapeError(sub).Some? { LeavesLedger(s1, s', t, from); } else { OutcomeTidy(c, s1, t, now, from, challenge, |s.trace|); }
    }
  }

  lemma OutcomeTidy(c: Config, s: State, t: nat, now: int, from: int, challenge: Option<nat>, at: nat)
    requires Calm(s, from) && t < |s.threads| && s.threads[t].pc.LookedUp? && from <= now < from + c.ledgerTtlMs
    ensures Tidy(OutcomeStep(c, s, t, now, challenge, at), from)
  {
    var s' := OutcomeStep(c, s, t, now, challenge, at);
    assert TidyThread(s, t);
    NothingSwept(s.ledger, c.ledgerTtlMs, from, now);
    if Decide(s.threads[t].sub.intent, s.threads[t].sub.principal, challenge.Some?).Accepted? {
      FreeStep(s, s', t, from);
    } else {
      LeavesLedger(s, s', t, from);
    }
  }

  lemma AuditTidy(c: Config, s: State, t: nat, ok: bool, now: int, from: int)
    requires Calm(s, from) && Possible(s, AuditDone(t, ok, now)) && from <= now < from + c.ledgerTtlMs
    ensures Tidy(AuditStep(c, s, t, ok, now), from)
  {
    var s', pc := AuditStep(c, s, t, ok, now), s.threads[t].pc;
    assert TidyThread(s, t);
    NothingSwept(s.ledger, c.ledgerTtlMs, from, now);
    if pc.Granted? && ok {
      LeavesLedger(s, s', t, from);
    } else if pc.Granted? || pc.Refusing? {
      FreeStep(s, s', t, from);
    } else {
      LeavesLedger(s, s', t, from);
    }
  }

  lemma StartTidy(s: State, t: nat, from: int)
    requires Calm(s, from) && t < |s.threads| && s.threads[t].pc.Cleared?
    ensures Tidy(StartStep(s, t), from)
  {
    assert TidyThread(s, t);
    FreeStep(s, StartStep(s, t), t, from);
  }

  lemma MutationTidy(s: State, t: nat, ok: bool, from: int)
    requires Calm(s, from) && Possible(s, MutationDone(t, ok))
    ensures Tidy(MutationStep(s, t, ok), from)
  {
    var s' := MutationStep(s, t, ok);
    assert TidyThread(s, t);
    if ok {
      LeavesLedger(s, s', t, from);
    } else {
      forall i: nat | RunOf(s, t, i) ensures StillTidy(s', i) {
        assert TidyEntry(s, i) && s'.trace[i] == s.trace[i];
        if FailedAfter(s, i) {
          FailureStays(s, s', i);
        } else {
          assert s'.trace[|s.trace|] == Failed(s.trace[i].thread);
        }
      }
      TidyStep(s, s', t, from);
    }
  }

  lemma LookUpTidy(s: State, t: nat, from: int)
    requires Calm(s, from) && t < |s.threads| && s.threads[t].pc.Submitted? && Waits(s, LookUp(t))
    ensures Tidy(LookUpStep(s, t), from)
  {
    var s' := LookUpStep(s, t);
    forall i: nat | RunOf(s, t, i) ensures StillTidy(s', i) { assert TidyEntry(s, i); }
    TidyStep(s, s', t, from);
  }

  lemma SubmitTidy(s: State, sub: Submission, from: int)
    requires Calm(s, from)
    ensures Tidy(s.(threads := s.threads + [Thread(sub, Submitted)]), from)
  {
    var s' := s.(threads := s.threads + [Thread(sub, Submitted)]);
    forall u: nat | u < |s'.threads| ensures TidyThread(s', u) { assert u < |s.threads| ==> TidyThread(s, u); }
    forall x: nat, y: nat | x < |s'.threads| && y < |s'.threads| && Rivals(s', x, y) ensures !Busy(s', x) || !Busy(s', y) {
      assert x < |s.threads| && y < |s.threads| ==> Rivals(s, x, y);
    }
    forall i: nat | i < |s'.trace| && s'.trace[i].Ran? && s'.trace[i].thread < |s'.threads| ensures TidyEntry(s', i) {
      assert EntryOk(s, i) && TidyEntry(s, i);
    }
    forall i: nat, j: nat | i < j < |s'.trace| && RunsOf(s', i, j) ensures Retried(s', i, j) {
      assert EntryOk(s, i) && EntryOk(s, j) && RunsOf(s, i, j);
    }
  }

  lemma NextTidy(c: Config, s: State, a: Act, from: int)
    requires Calm(s, from) && Possible(s, a) && Waits(s, a) && Within(a, from, c.ledgerTtlMs)
    ensures Calm(Next(c, s, a), from)
  {
    NextKeeps(c, s, a);
    match a
    case Submit(sub) => SubmitTidy(s, sub, from);
    case LookUp(t) => LookUpTidy(s, t, from);
    case DecideIt(t, now) => DecideTidy(c, s, t, now, from);
    case AuditDone(t, ok, now) => AuditTidy(c, s, t, ok, now, from);
    case StartMutation(t) => StartTidy(s, t, from);
    case MutationDone(t, ok) => MutationTidy(s, t, ok, from);
  }

  lemma {:induction false} CalmRunTidy(c: Config, s: State, acts: seq<Act>, t: State, from: int)
    requires Calm(s, from) && CalmRun(c, s, acts, t, from)
    ensures Calm(t, from)
    decreases |acts|
  {
    if acts != [] {
      NextTidy(c, s, acts[0], from);
      CalmRunTidy(c, Next(c, s, acts[0]), acts[1..], t, from);
    }
  }

  /** Among submissions of one key that do not overlap, within one ledger lifetime, a mutation runs again
      only after its last run has failed. */
  lemma OneRunPerKey(c: Config, acts: seq<Act>, s: State, from: int, i: nat, j: nat)
    requires CalmRun(c, Start(), acts, s, from) && i < j < |s.trace| && s.trace[i].Ran? && s.trace[j].Ran?
    requires s.trace[i].thread < |s.threads| && s.trace[j].thread < |s.threads|
    requires KeyOf(s, s.trace[i].thread) == KeyOf(s, s.trace[j].thread)
    ensures Retried(s, i, j)
  {
    CalmRunTidy(c, Start(), acts, s, from);
    assert RunsOf(s, i, j);
  }

  // ----- what the lifetime is for -----

  /** Age alone decides what is swept. The key of a mutation that is still running is open to a new
      submission after any other claim exactly when the ledger lifetime has passed since its own. */
  lemma ReclaimedExactly(c: Config, s: State, t: nat, u: nat, v: nat, now: int)
    requires t < |s.threads| && u < |s.threads| && v < |s.threads|
    requires s.threads[t].pc.Running? && OwnsKey(s, t) && s.ledger[KeyOf(s, t)].running
    requires KeyOf(s, u) != KeyOf(s, t) && KeyOf(s, v) == KeyOf(s, t) && ShapeError(s.threads[v].sub).None?
    ensures var s' := Remembered(c, s, u, Accepted, now).0;
      LookUpStep(s', v).threads[v].pc.LookedUp? <==> now - s.ledger[KeyOf(s, t)].createdAtMs >= c.ledgerTtlMs
  {
    assert KeyOf(s, t) in Kept(s.ledger, c.ledgerTtlMs, now) <==> now - s.ledger[KeyOf(s, t)].createdAtMs < c.ledgerTtlMs;
  }

  // ----- both conditions are needed -----

  lemma {:induction false} RunExtend(c: Config, s: State, acts: seq<Act>, t: State, a: Act)
    requires Run(c, s, acts, t) && Possible(t, a)
    ensures Run(c, s, acts + [a], Next(c, t, a))
    decreases |acts|
  {
    if acts == [] {
      assert [a][1..] == [];
    } else {
      assert (acts + [a])[1..] == acts[1..] + [a];
      RunExtend(c, Next(c, s, acts[0]), acts[1..], t, a);
    }
  }

  lemma Step(c: Config, acts: seq<Act>, s: State, a: Act) returns (acts': seq<Act>, s': State)
    requires Run(c, Start(), acts, s) && Possible(s, a)
    ensures s' == Next(c, s, a) && Run(c, Start(), acts', s')
  {
    RunExtend(c, Start(), acts, s, a);
    acts', s' := acts + [a], Next(c, s, a);
  }

  /** A safe command of a device that may submit it, under this key. */
  function Import(key: string): Submission {
    Submission(Intent("command", key, "device", None, IssueImport, Issue(1)), Principal("device", false, {GithubRead}), None)
  }

  function NthKey(counter: string): string { "device" + ":" + counter }

  lemma NthKeyOk(counter: string)
    requires |counter| == 10 && forall c :: c in counter ==> IsDigit(c)
    ensures ShapeError(Import(NthKey(counter))).None?
  {
    KeyBelongs(NthKey(counter), "device");
  }

  ghost predicate Free(c: Config, s: State, key: string, now: int) {
    key !in s.ledger && |Kept(s.ledger, c.ledgerTtlMs, now)| < c.maxLedger
  }

  /** From its claim to the start of its mutation. */
  lemma ClaimsAndRuns(c: Config, acts: seq<Act>, s: State, t: nat, key: string, now: int) returns (acts': seq<Act>, s': State)
    requires Run(c, Start(), acts, s) && t < |s.threads| && s.threads[t] == Thread(Import(key), LookedUp)
    requires ShapeError(Import(key)).None? && |Kept(s.ledger, c.ledgerTtlMs, now)| < c.maxLedger
    ensures Run(c, Start(), acts', s')
    ensures s'.threads == s.threads[t := Thread(Import(key), Running)]
    ensures s'.trace == s.trace + [Allowed(t), Ran(t, None, |s.trace|, |s.trace|)]
    ensures s'.ledger == Kept(s.ledger, c.ledgerTtlMs, now)[key := LedgerRecord(CommandDigestOf(Import(key).intent), Accepted, now, t, true)]
  {
    acts', s' := Step(c, acts, s, DecideIt(t, now));
    assert s'.threads[t].pc == Granted(None, |s.trace|) && s'.trace == s.trace;
    acts', s' := Step(c, acts', s', AuditDone(t, true, now));
    assert s'.threads[t].pc == Cleared(None, |s.trace|, |s.trace|);
    acts', s' := Step(c, acts', s', StartMutation(t));
  }

  lemma Enters(c: Config, acts: seq<Act>, s: State, key: string, now: int) returns (acts': seq<Act>, s': State)
    requires Run(c, Start(), acts, s) && ShapeError(Import(key)).None? && Free(c, s, key, now)
    ensures Run(c, Start(), acts', s')
    ensures s'.threads == s.threads + [Thread(Import(key), Running)]
    ensures s'.trace == s.trace + [Allowed(|s.threads|), Ran(|s.threads|, None, |s.trace|, |s.trace|)]
    ensures s'.ledger
      == Kept(s.ledger, c.ledgerTtlMs, now)[key := LedgerRecord(CommandDigestOf(Import(key).intent), Accepted, now, |s.threads|, true)]
  {
    var t := |s.threads|;
    acts', s' := Step(c, acts, s, Submit(Import(key)));
    acts', s' := Step(c, acts', s', LookUp(t));
    assert s'.threads == s.threads + [Thread(Import(key), LookedUp)];
    acts', s' := ClaimsAndRuns(c, acts', s', t, key, now);
  }

  /** Two mutations of one key run at the same time. */
  ghost predicate RunTwice(s: State, t: nat, u: nat) {
    && t < |s.threads| && u < |s.threads| && Rivals(s, t, u)
    && s.threads[t].pc.Running? && s.threads[u].pc.Running?
  }

  /** Without overlap, but past the lifetime: while the first mutation still runs, another submission sweeps
      its record, and a third one of the same key runs beside it. */
  lemma ExpiredClaimRunsTwice() returns (c: Config, acts: seq<Act>, s: State)
    ensures Run(c, Start(), acts, s) && RunTwice(s, 0, 2)
  {
    c := Config(1, 1, 10, 10);
    var key, other := NthKey("1234567890"), NthKey("1234567891");
    NthKeyOk("1234567890");
    NthKeyOk("1234567891");
    assert key[|key| - 1] != other[|other| - 1];
    acts, s := Enters(c, [], Start(), key, 0);
    assert Kept(s.ledger, 10, 10) == map[];
    acts, s := Enters(c, acts, s, other, 10);
    assert s.ledger.Keys == {other} && s.threads[0] == Thread(Import(key), Running);
    assert Kept(s.ledger, 10, 10) == s.ledger;
    assert |s.ledger| == |s.ledger.Keys| == 1;
    acts, s := Enters(c, acts, s, key, 10);
  }

  /** Within the lifetime, but overlapping: both submissions look the key up before either claims it. */
  lemma OverlapRunsTwice() returns (c: Config, acts: seq<Act>, s: State)
    ensures Run(c, Start(), acts, s) && RunTwice(s, 0, 1)
  {
    c := Config(1, 1, 10, 10);
    var key := NthKey("1234567890");
    NthKeyOk("1234567890");
    acts, s := Step(c, [], Start(), Submit(Import(key)));
    acts, s := Step(c, acts, s, Submit(Import(key)));
    acts, s := Step(c, acts, s, LookUp(0));
    acts, s := Step(c, acts, s, LookUp(1));
    assert s.threads == [Thread(Import(key), LookedUp), Thread(Import(key), LookedUp)];
    assert Kept(s.ledger, 10, 0) == map[];
    acts, s := ClaimsAndRuns(c, acts, s, 0, key, 0);
    assert Kept(s.ledger, 10, 0) == s.ledger && s.ledger.Keys == {key};
    assert |s.ledger| == |s.ledger.Keys| == 1;
    acts, s := ClaimsAndRuns(c, acts, s, 1, key, 0);
  }
}
