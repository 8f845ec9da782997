/** The supervisor of mobile terminal sessions: one writable session per host.

    Operations are serialised, so each is one step. The outcomes of the git, worktree, terminal,
    process-table and registry ports are parameters, and each operation is given the clock readings
    it takes, which never step back. */
module TerminalSupervisor {
  import opened Wrappers

  datatype SessionState = Creating | Starting | Live | Interrupting | Closing | Ended | Failed | Orphaned

  datatype Session = Session(projectId: nat, state: SessionState, revision: nat)

  datatype Lease = Lease(leaseId: nat, ownerDeviceId: nat, generation: nat, expiresAt: int)

  datatype Fence = Fence(leaseId: nat, generation: nat, ownerDeviceId: nat)

  datatype Identity = Identity(pid: nat, startedAt: int, executable: string)

  datatype Source = Keyboard | Voice

  datatype InputStatus = Accepted | Written | Unknown

  datatype InputRecord = InputRecord(text: string, source: Source, status: InputStatus)

  /** One entry of the session table; `handle` says whether the terminal was ever started. */
  datatype Runtime = Runtime(
    session: Session, lease: Lease, handle: bool, inputs: map<nat, InputRecord>, identity: Option<Identity>)

  datatype Error =
    | InvalidRequest | HostBusy | ProjectNotFound | SessionNotLive | DuplicateRequest | StaleTerminalLease
    | TerminalStartFailed | SessionRevisionMismatch | ProcessIdentityUnverified | InvalidTransition

  /** `ptyWrites` is history: the session and input id of every write handed to a terminal. */
  datatype State = State(
    sessions: map<nat, Runtime>,
    createRequests: map<(nat, string), nat>,
    activeSessionId: Option<nat>,
    clock: int,
    supply: nat,
    ptyWrites: seq<(nat, nat)>)

  // ----- domain rules -----

  function AllowedTransitions(state: SessionState): set<SessionState> {
    match state
    case Creating => {Starting, Failed, Orphaned}
    case Starting => {Live, Failed, Orphaned}
    case Live => {Interrupting, Closing, Failed, Orphaned}
    case Interrupting => {Live, Closing, Failed, Orphaned}
    case Closing => {Ended, Failed, Orphaned}
    case Ended => {}
    case Failed => {}
    case Orphaned => {Live, Ended}
  }

  function Moved(s: Session, next: SessionState): Session
    requires next in AllowedTransitions(s.state)
  {
    s.(state := next, revision := s.revision + 1)
  }

  function Renewed(l: Lease, now: int, ttlMs: int): Lease { l.(expiresAt := now + ttlMs) }

  function RevokedLease(l: Lease, now: int): Lease { l.(generation := l.generation + 1, expiresAt := now) }

  /** `assertTerminalLease`: the fence names this lease and the lease has not run out. */
  predicate Passes(l: Lease, f: Fence, now: int) {
    f == Fence(l.leaseId, l.generation, l.ownerDeviceId) && now < l.expiresAt
  }

  // ----- operations -----

  datatype CreateInput = CreateInput(
    valid: bool, projectId: nat, ownerDeviceId: nat, requestId: string,
    projectKnown: bool, headResolves: bool, allocates: bool, starts: bool, identifies: bool,
    identity: Option<Identity>, persists: bool, now: int, later: int)

  /** How far the start of a new session got; anything but `Started` is a failure. */
  datatype Started = NotStarted | HandleOnly | Started

  function StartOutcome(i: CreateInput): Started {
    if !i.starts then NotStarted else if i.identifies && i.persists then Started else HandleOnly
  }

  function NewRuntime(i: CreateInput, leaseId: nat, ttlMs: int): Runtime {
    var lease := Lease(leaseId, i.ownerDeviceId, 1, i.now + ttlMs);
    var starting := Moved(Session(i.projectId, Creating, 1), Starting);
    match StartOutcome(i)
    case NotStarted => Runtime(Moved(starting, Failed), RevokedLease(lease, i.later), false, map[], None)
    case HandleOnly => Runtime(Moved(starting, Live), RevokedLease(lease, i.later), true, map[], if i.identifies then i.identity else None)
    case Started => Runtime(Moved(starting, Live), lease, true, map[], i.identity)
  }

  function CreateError(s: State, i: CreateInput): Option<Error> {
    if !i.valid then Some(InvalidRequest)
    else if s.activeSessionId.Some? then Some(HostBusy)
    else if !i.projectKnown then Some(ProjectNotFound)
    else if !i.headResolves || !i.allocates then Some(TerminalStartFailed)
    else None
  }

  function CreateSession(s: State, i: CreateInput, ttlMs: int): (r: (State, Result<nat, Error>)) {
    var key := (i.ownerDeviceId, i.requestId);
    var s := s.(clock := i.later);
    if i.valid && key in s.createRequests then
      (s, if Known(s, i.projectId, s.createRequests[key]) then Ok(s.createRequests[key]) else Err(SessionNotLive))
    else if CreateError(s, i).Some? then (s, Err(CreateError(s, i).value))
    else
      var id, runtime := s.supply, NewRuntime(i, s.supply + 1, ttlMs);
      var s1 := s.(sessions := s.sessions[id := runtime], supply := s.supply + 2);
      if StartOutcome(i).Started?
      then (s1.(activeSessionId := Some(id), createRequests := s.createRequests[key := id]), Ok(id))
      else (s1, Err(TerminalStartFailed))
  }

  predicate Known(s: State, projectId: nat, sessionId: nat) {
    sessionId in s.sessions && s.sessions[sessionId].session.projectId == projectId
  }

  datatype Target = Target(projectId: nat, sessionId: nat, fence: Fence, now: int, later: int)

  /** `requireRuntime` followed by `assertFence`. */
  function Refusal(s: State, t: Target): Option<Error> {
    if !Known(s, t.projectId, t.sessionId) then Some(SessionNotLive)
    else if !Passes(s.sessions[t.sessionId].lease, t.fence, t.now) then Some(StaleTerminalLease)
    else None
  }

  predicate Usable(r: Runtime) { r.session.state.Live? && r.handle }

  function WithRuntime(s: State, id: nat, r: Runtime): State { s.(sessions := s.sessions[id := r]) }

  datatype WriteInputArgs = WriteInputArgs(inputId: nat, source: Source, text: string, wellFormed: bool, writeOk: bool)

  function WriteInput(s: State, t: Target, w: WriteInputArgs): (r: (State, Result<InputStatus, Error>)) {
    var s := s.(clock := t.later);
    if Refusal(s, t).Some? then (s, Err(Refusal(s, t).value))
    else
      var rt := s.sessions[t.sessionId];
      if w.inputId in rt.inputs then
        var old_ := rt.inputs[w.inputId];
        (s, if old_.text != w.text || old_.source != w.source then Err(DuplicateRequest) else Ok(old_.status))
      else if !Usable(rt) || !w.wellFormed || |w.text| == 0 || |w.text| > 16_384 then (s, Err(SessionNotLive))
      else
        var status := if w.writeOk then Written else Unknown;
        (WithRuntime(s, t.sessionId, rt.(inputs := rt.inputs[w.inputId := InputRecord(w.text, w.source, status)]))
           .(ptyWrites := s.ptyWrites + [(t.sessionId, w.inputId)]),
         Ok(status))
  }

  function RenewLease(s: State, t: Target, ttlMs: int): (r: (State, Result<int, Error>)) {
    var s := s.(clock := t.later);
    if Refusal(s, t).Some? then (s, Err(Refusal(s, t).value))
    else
      var rt := s.sessions[t.sessionId];
      if !Usable(rt) then (s, Err(SessionNotLive))
      else if !Passes(rt.lease, t.fence, t.later) then (s, Err(StaleTerminalLease))
      else (WithRuntime(s, t.sessionId, rt.(lease := Renewed(rt.lease, t.later, ttlMs))), Ok(t.later + ttlMs))
  }

  function Interrupt(s: State, t: Target, ok: bool): (r: (State, Result<(), Error>)) {
    var s := s.(clock := t.later);
    if Refusal(s, t).Some? then (s, Err(Refusal(s, t).value))
    else
      var rt := s.sessions[t.sessionId];
      if !Usable(rt) then (s, Err(SessionNotLive))
      else
        var interrupting := Moved(rt.session, Interrupting);
        if ok then (WithRuntime(s, t.sessionId, rt.(session := Moved(interrupting, Live))), Ok(()))
        else (WithRuntime(s, t.sessionId, rt.(session := Moved(interrupting, Orphaned), lease := RevokedLease(rt.lease, t.later))),
              Err(SessionNotLive))
  }

  function Released(s: State, sessionId: nat): State {
    if s.activeSessionId == Some(sessionId) then s.(activeSessionId := None) else s
  }

  /** `close` and `terminate`. */
  function EndSession(s: State, t: Target, ok: bool): (r: (State, Result<(), Error>)) {
    var s := s.(clock := t.later);
    if Refusal(s, t).Some? then (s, Err(Refusal(s, t).value))
    else
      var rt := s.sessions[t.sessionId];
      if !Usable(rt) then (s, Err(SessionNotLive))
      else
        var closing, revoked := Moved(rt.session, Closing), RevokedLease(rt.lease, t.later);
        if ok then (Released(WithRuntime(s, t.sessionId, rt.(session := Moved(closing, Ended), lease := revoked)), t.sessionId), Ok(()))
        else (WithRuntime(s, t.sessionId, rt.(session := Moved(closing, Orphaned), lease := revoked)), Err(SessionNotLive))
  }

  datatype ForceInput = ForceInput(
    sessionId: nat, expectedRevision: nat, processTable: bool, observed: Option<Identity>, terminates: bool, now: int)

  function ForceError(s: State, i: ForceInput): Option<Error> {
    if i.sessionId !in s.sessions then Some(SessionNotLive)
    else
      var rt := s.sessions[i.sessionId];
      if rt.session.revision != i.expectedRevision then Some(SessionRevisionMismatch)
      else if !rt.handle || rt.session.state !in {Live, Interrupting, Orphaned} then Some(SessionNotLive)
      else if !i.processTable then Some(ProcessIdentityUnverified)
      else None
  }

  function ForceClose(s: State, i: ForceInput): (r: (State, Result<(), Error>)) {
    var s := s.(clock := i.now);
    if ForceError(s, i).Some? then (s, Err(ForceError(s, i).value))
    else
      var rt := s.sessions[i.sessionId];
      var revoked := RevokedLease(rt.lease, i.now);
      if rt.identity.None? || i.observed != rt.identity then
        // An orphaned session has no transition to `orphaned`, so the refusal is an internal error.
        if rt.session.state.Orphaned? then (s, Err(InvalidTransition))
        else (WithRuntime(s, i.sessionId, rt.(session := Moved(rt.session, Orphaned), lease := revoked)), Err(ProcessIdentityUnverified))
      else
        var closing := if rt.session.state.Orphaned? then rt.session else Moved(rt.session, Closing);
        if i.terminates then
          (Released(WithRuntime(s, i.sessionId, rt.(session := Moved(closing, Ended), lease := revoked)), i.sessionId), Ok(()))
        else
          var orphaned := if rt.session.state.Orphaned? then rt.session else Moved(closing, Orphaned);
          (WithRuntime(s, i.sessionId, rt.(session := orphaned, lease := revoked)), Err(SessionNotLive))
  }

  function RevokeDeviceLeases(s: State, deviceId: nat, now: int): State {
    s.(clock := now,
       sessions := map id | id in s.sessions ::
         if s.sessions[id].lease.ownerDeviceId == deviceId
         then s.sessions[id].(lease := RevokedLease(s.sessions[id].lease, now)) else s.sessions[id])
  }

  function ExitState(state: SessionState): Option<SessionState> {
    match state
    case Closing => Some(Ended)
    case Orphaned => Some(Ended)
    case Creating => Some(Failed)
    case Starting => Some(Failed)
    case Live => Some(Failed)
    case Interrupting => Some(Failed)
    case Ended => None
    case Failed => None
  }

  function HandleExit(s: State, sessionId: nat, now: int): State {
    var s := s.(clock := now);
    if sessionId !in s.sessions || ExitState(s.sessions[sessionId].session.state).None? then s
    else
      var rt := s.sessions[sessionId];
      var next := ExitState(rt.session.state).value;
      Released(WithRuntime(s, sessionId, rt.(session := Moved(rt.session, next), lease := RevokedLease(rt.lease, now))), sessionId)
  }

  // ----- the supervisor object -----

  class Supervisor {
    const ttlMs: int
    var sessions: map<nat, Runtime>
    var createRequests: map<(nat, string), nat>
    var activeSessionId: Option<nat>
    var clock: int
    var supply: nat
    ghost var ptyWrites: seq<(nat, nat)>

    ghost function View(): State
      reads this
    {
      State(sessions, createRequests, activeSessionId, clock, supply, ptyWrites)
    }

    constructor (ttlMs: int, clock: int)
      requires ttlMs > 0
      ensures View() == Empty(clock) && this.ttlMs == ttlMs
    {
      this.ttlMs, this.clock := ttlMs, clock;
      sessions, createRequests, activeSessionId, supply, ptyWrites := map[], map[], None, 0, [];
    }

    method Create(i: CreateInput) returns (r: Result<nat, Error>)
      modifies this
      ensures (View(), r) == CreateSession(old(View()), i, ttlMs)
    {
      clock := i.later;
      if !i.valid { return Err(InvalidRequest); }
      var key := (i.ownerDeviceId, i.requestId);
      if key in createRequests {
        var existing := createRequests[key];
        if existing !in sessions || sessions[existing].session.projectId != i.projectId { return Err(SessionNotLive); }
        return Ok(existing);
      }
      if activeSessionId.Some? { return Err(HostBusy); }
      if !i.projectKnown { return Err(ProjectNotFound); }
      if !i.headResolves { return Err(TerminalStartFailed); }
      ghost var before := activeSessionId;
      var sessionId := supply;
      activeSessionId := Some(sessionId);
      if !i.allocates {
        activeSessionId := None;
        return Err(TerminalStartFailed);
      }
      supply := supply + 2;
      var session := Moved(Session(i.projectId, Creating, 1), Starting);
      var lease := Lease(sessionId + 1, i.ownerDeviceId, 1, i.now + ttlMs);
      var runtime := Runtime(session, lease, false, map[], None);
      if i.starts {
        runtime := runtime.(handle := true, session := Moved(runtime.session, Live));
        if i.identifies {
          runtime := runtime.(identity := i.identity);
          if i.persists {
            sessions := sessions[sessionId := runtime];
            createRequests := createRequests[key := sessionId];
            return Ok(sessionId);
          }
        }
      }
      if runtime.session.state.Starting? {
        runtime := runtime.(session := Moved(runtime.session, Failed));
      }
      runtime := runtime.(lease := RevokedLease(runtime.lease, i.later));
      sessions := sessions[sessionId := runtime];
      activeSessionId := None;
      r := Err(TerminalStartFailed);
    }

    method Check(t: Target) returns (refusal: Option<Error>)
      ensures refusal == Refusal(View(), t)
    {
      if t.sessionId !in sessions || sessions[t.sessionId].session.projectId != t.projectId { return Some(SessionNotLive); }
      var l := sessions[t.sessionId].lease;
      if t.fence.leaseId != l.leaseId || t.fence.generation != l.generation
         || t.fence.ownerDeviceId != l.ownerDeviceId || t.now >= l.expiresAt {
        return Some(StaleTerminalLease);
      }
      return None;
    }

    method Write(t: Target, w: WriteInputArgs) returns (r: Result<InputStatus, Error>)
      modifies this
      ensures (View(), r) == WriteInput(old(View()), t, w)
    {
      clock := t.later;
      var refusal := Check(t);
      if refusal.Some? { return Err(refusal.value); }
      var runtime := sessions[t.sessionId];
      if w.inputId in runtime.inputs {
        var existing := runtime.inputs[w.inputId];
        if existing.text != w.text || existing.source != w.source { return Err(DuplicateRequest); }
        return Ok(existing.status);
      }
      if !runtime.session.state.Live? || !runtime.handle || !w.wellFormed || |w.text| == 0 || |w.text| > 16_384 {
        return Err(SessionNotLive);
      }
      runtime := runtime.(inputs := runtime.inputs[w.inputId := InputRecord(w.text, w.source, Accepted)]);
      ptyWrites := ptyWrites + [(t.sessionId, w.inputId)];
      var status := if w.writeOk then Written else Unknown;
      runtime := runtime.(inputs := runtime.inputs[w.inputId := InputRecord(w.text, w.source, status)]);
      assert runtime.inputs == sessions[t.sessionId].inputs[w.inputId := InputRecord(w.text, w.source, status)];
      sessions := sessions[t.sessionId := runtime];
      r := Ok(status);
    }

    method Renew(t: Target) returns (r: Result<int, Error>)
      modifies this
      ensures (View(), r) == RenewLease(old(View()), t, ttlMs)
    {
      clock := t.later;
      var refusal := Check(t);
      if refusal.Some? { return Err(refusal.value); }
      var runtime := sessions[t.sessionId];
      if !runtime.session.state.Live? || !runtime.handle { return Err(SessionNotLive); }
      if !Passes(runtime.lease, t.fence, t.later) { return Err(StaleTerminalLease); }
      runtime := runtime.(lease := Renewed(runtime.lease, t.later, ttlMs));
      sessions := sessions[t.sessionId := runtime];
      r := Ok(runtime.lease.expiresAt);
    }

    method InterruptSession(t: Target, ok: bool) returns (r: Result<(), Error>)
      modifies this
      ensures (View(), r) == Interrupt(old(View()), t, ok)
    {
      clock := t.later;
      var refusal := Check(t);
      if refusal.Some? { return Err(refusal.value); }
      var runtime := sessions[t.sessionId];
      if !runtime.session.state.Live? || !runtime.handle { return Err(SessionNotLive); }
      runtime := runtime.(session := Moved(runtime.session, Interrupting));
      if ok {
        runtime := runtime.(session := Moved(runtime.session, Live));
        r := Ok(());
      } else {
        runtime := runtime.(session := Moved(runtime.session, Orphaned));
        runtime := runtime.(lease := RevokedLease(runtime.lease, t.later));
        r := Err(SessionNotLive);
      }
      sessions := sessions[t.sessionId := runtime];
    }

    method End(t: Target, ok: bool) returns (r: Result<(), Error>)
      modifies this
      ensures (View(), r) == EndSession(old(View()), t, ok)
    {
      clock := t.later;
      var refusal := Check(t);
      if refusal.Some? { return Err(refusal.value); }
      var runtime := sessions[t.sessionId];
      if !runtime.session.state.Live? || !runtime.handle { return Err(SessionNotLive); }
      runtime := runtime.(session := Moved(runtime.session, Closing));
      runtime := runtime.(session := Moved(runtime.session, if ok then Ended else Orphaned));
      runtime := runtime.(lease := RevokedLease(runtime.lease, t.later));
      sessions := sessions[t.sessionId := runtime];
      if ok && activeSessionId == Some(t.sessionId) { activeSessionId := None; }
      r := if ok then Ok(()) else Err(SessionNotLive);
    }

    method ForceCloseLocally(i: ForceInput) returns (r: Result<(), Error>)
      modifies this
      ensures (View(), r) == ForceClose(old(View()), i)
    {
      clock := i.now;
      if i.sessionId !in sessions { return Err(SessionNotLive); }
      var runtime := sessions[i.sessionId];
      if runtime.session.revision != i.expectedRevision { return Err(SessionRevisionMismatch); }
      if !runtime.handle || runtime.session.state !in {Live, Interrupting, Orphaned} { return Err(SessionNotLive); }
      if !i.processTable { return Err(ProcessIdentityUnverified); }
      var wasOrphaned := runtime.session.state.Orphaned?;
      if runtime.identity.None? || i.observed != runtime.identity {
        if wasOrphaned { return Err(InvalidTransition); }
        runtime := runtime.(session := Moved(runtime.session, Orphaned), lease := RevokedLease(runtime.lease, i.now));
        sessions := sessions[i.sessionId := runtime];
        return Err(ProcessIdentityUnverified);
      }
      runtime := runtime.(lease := RevokedLease(runtime.lease, i.now));
      if !wasOrphaned { runtime := runtime.(session := Moved(runtime.session, Closing)); }
      if !i.terminates {
        if !wasOrphaned { runtime := runtime.(session := Moved(runtime.session, Orphaned)); }
        sessions := sessions[i.sessionId := runtime];
        return Err(SessionNotLive);
      }
      runtime := runtime.(session := Moved(runtime.session, Ended));
      sessions := sessions[i.sessionId := runtime];
      if activeSessionId == Some(i.sessionId) { activeSessionId := None; }
      r := Ok(());
    }

    method RevokeLeases(deviceId: nat, now: int)
      modifies this
      ensures View() == RevokeDeviceLeases(old(View()), deviceId, now)
    {
      clock := now;
      var before, todo := sessions, sessions.Keys;
      while todo != {}
        invariant todo <= before.Keys && sessions.Keys == before.Keys
        invariant forall id :: id in before ==>
          sessions[id] == if id !in todo && before[id].lease.ownerDeviceId == deviceId
                          then before[id].(lease := RevokedLease(before[id].lease, now)) else before[id]
        modifies this`sessions
        decreases |todo|
      {
        var id :| id in todo;
        var runtime := sessions[id];
        if runtime.lease.ownerDeviceId == deviceId {
          sessions := sessions[id := runtime.(lease := RevokedLease(runtime.lease, now))];
        }
        todo := todo - {id};
      }
      assert sessions == RevokeDeviceLeases(old(View()), deviceId, now).sessions;
    }

    method OnExit(sessionId: nat, now: int)
      modifies this
      ensures View() == HandleExit(old(View()), sessionId, now)
    {
      clock := now;
      if sessionId !in sessions { return; }
      var runtime := sessions[sessionId];
      var state := runtime.session.state;
      if state.Closing? || state.Orphaned? {
        runtime := runtime.(session := Moved(runtime.session, Ended));
      } else if state.Creating? || state.Starting? || state.Live? || state.Interrupting? {
        runtime := runtime.(session := Moved(runtime.session, Failed));
      } else {
        return;
      }
      runtime := runtime.(lease := RevokedLease(runtime.lease, now));
      sessions := sessions[sessionId := runtime];
      if activeSessionId == Some(sessionId) { activeSessionId := None; }
    }
  }

  // ----- every run -----

  function Empty(clock: int): State { State(map[], map[], None, clock, 0, []) }

  datatype Op =
    | OpCreate(create: CreateInput)
    | OpWrite(target: Target, write: WriteInputArgs)
    | OpRenew(target: Target)
    | OpInterrupt(target: Target, ok: bool)
    | OpEnd(target: Target, ok: bool)
    | OpForce(force: ForceInput)
    | OpRevoke(deviceId: nat, now: int)
    | OpExit(sessionId: nat, now: int)
    | OpWait(now: int)

  /** The clock readings an operation takes never step back. */
  predicate Timely(s: State, op: Op) {
    match op
    case OpCreate(i) => s.clock <= i.now <= i.later
    case OpWrite(t, _) => s.clock <= t.now <= t.later
    case OpRenew(t) => s.clock <= t.now <= t.later
    case OpInterrupt(t, _) => s.clock <= t.now <= t.later
    case OpEnd(t, _) => s.clock <= t.now <= t.later
    case OpForce(i) => s.clock <= i.now
    case OpRevoke(_, now) => s.clock <= now
    case OpExit(_, now) => s.clock <= now
    case OpWait(now) => s.clock <= now
  }

  function After(s: State, op: Op, ttlMs: int): State {
    match op
    case OpCreate(i) => CreateSession(s, i, ttlMs).0
    case OpWrite(t, w) => WriteInput(s, t, w).0
    case OpRenew(t) => RenewLease(s, t, ttlMs).0
    case OpInterrupt(t, ok) => Interrupt(s, t, ok).0
    case OpEnd(t, ok) => EndSession(s, t, ok).0
    case OpForce(i) => ForceClose(s, i).0
    case OpRevoke(d, now) => RevokeDeviceLeases(s, d, now)
    case OpExit(id, now) => HandleExit(s, id, now)
    case OpWait(now) => s.(clock := now)
  }

  ghost predicate Run(s: State, ops: seq<Op>, t: State, ttlMs: int)
    decreases |ops|
  {
    if ops == [] then s == t else Timely(s, ops[0]) && Run(After(s, ops[0], ttlMs), ops[1..], t, ttlMs)
  }

  /** Some fence could still pass for this session. */
  predicate Writable(s: State, id: nat)
    requires id in s.sessions
  {
    s.clock < s.sessions[id].lease.expiresAt
  }

  ghost predicate Exclusive(s: State) {
    && (forall id :: id in s.sessions ==> id < s.supply && s.sessions[id].lease.leaseId == id + 1)
    && (forall id :: id in s.sessions && Writable(s, id) ==> s.activeSessionId == Some(id))
    && (forall w :: w in s.ptyWrites ==> w.0 in s.sessions && w.1 in s.sessions[w.0].inputs)
    && (forall i, j :: 0 <= i < j < |s.ptyWrites| ==> s.ptyWrites[i] != s.ptyWrites[j])
  }

  /** What happens to one session that existed before an operation. */
  ghost predicate SessionEvolves(s: State, t: State, id: nat)
    requires id in s.sessions
  {
    && id in t.sessions
    && var a, b := s.sessions[id], t.sessions[id];
       && b.lease.leaseId == a.lease.leaseId && b.lease.ownerDeviceId == a.lease.ownerDeviceId
       && a.inputs.Keys <= b.inputs.Keys
       && a.session.revision <= b.session.revision
       && (b.session.state != a.session.state ==> a.session.revision < b.session.revision)
       && b.session.projectId == a.session.projectId
       && (|| b.lease == a.lease
           || (b.lease.generation == a.lease.generation + 1 && b.lease.expiresAt <= t.clock)
           || (b.lease.generation == a.lease.generation && s.clock < a.lease.expiresAt))
  }

  lemma CreateEvolves(s: State, i: CreateInput, ttlMs: int, id: nat)
    requires Exclusive(s) && Timely(s, OpCreate(i)) && id in s.sessions
    ensures SessionEvolves(s, CreateSession(s, i, ttlMs).0, id)
  {
    assert id < s.supply;
  }

  lemma WriteEvolves(s: State, t: Target, w: WriteInputArgs, id: nat)
    requires Exclusive(s) && Timely(s, OpWrite(t, w)) && id in s.sessions
    ensures SessionEvolves(s, WriteInput(s, t, w).0, id)
  {
  }

  lemma RenewEvolves(s: State, t: Target, ttlMs: int, id: nat)
    requires Exclusive(s) && Timely(s, OpRenew(t)) && id in s.sessions
    ensures SessionEvolves(s, RenewLease(s, t, ttlMs).0, id)
  {
  }

  lemma EndEvolves(s: State, t: Target, ok: bool, id: nat)
    requires Exclusive(s) && Timely(s, OpEnd(t, ok)) && id in s.sessions
    ensures SessionEvolves(s, EndSession(s, t, ok).0, id)
    ensures SessionEvolves(s, Interrupt(s, t, ok).0, id)
  {
  }

  lemma ForceEvolves(s: State, i: ForceInput, id: nat)
    requires Exclusive(s) && Timely(s, OpForce(i)) && id in s.sessions
    ensures SessionEvolves(s, ForceClose(s, i).0, id)
  {
  }

  lemma OpEvolves(s: State, op: Op, ttlMs: int, id: nat)
    requires Exclusive(s) && Timely(s, op) && id in s.sessions
    ensures SessionEvolves(s, After(s, op, ttlMs), id)
    ensures s.clock <= After(s, op, ttlMs).clock
  {
    match op
    case OpCreate(i) => CreateEvolves(s, i, ttlMs, id);
    case OpWrite(t, w) => WriteEvolves(s, t, w, id);
    case OpRenew(t) => RenewEvolves(s, t, ttlMs, id);
    case OpInterrupt(t, ok) => EndEvolves(s, t, ok, id);
    case OpEnd(t, ok) => EndEvolves(s, t, ok, id);
    case OpForce(i) => ForceEvolves(s, i, id);
    case OpRevoke(_, _) =>
    case OpExit(_, _) =>
    case OpWait(_) =>
  }

  lemma LeaseIdsFollow(s: State, op: Op, ttlMs: int, id: nat)
    requires Exclusive(s) && Timely(s, op) && id in After(s, op, ttlMs).sessions
    ensures var t := After(s, op, ttlMs); id < t.supply && t.sessions[id].lease.leaseId == id + 1
  {
    if id in s.sessions { OpEvolves(s, op, ttlMs, id); }
  }

  lemma WritesStayUnique(s: State, op: Op, ttlMs: int)
    requires Exclusive(s) && Timely(s, op)
    ensures var t := After(s, op, ttlMs);
      && (forall w :: w in t.ptyWrites ==> w.0 in t.sessions && w.1 in t.sessions[w.0].inputs)
      && (forall i, j :: 0 <= i < j < |t.ptyWrites| ==> t.ptyWrites[i] != t.ptyWrites[j])
  {
    var t := After(s, op, ttlMs);
    forall w | w in s.ptyWrites ensures w.0 in t.sessions && w.1 in t.sessions[w.0].inputs {
      OpEvolves(s, op, ttlMs, w.0);
    }
  }

  lemma ActiveStaysActive(s: State, op: Op, ttlMs: int, id: nat)
    requires Exclusive(s) && Timely(s, op)
    requires var t := After(s, op, ttlMs); id in t.sessions && Writable(t, id)
    ensures After(s, op, ttlMs).activeSessionId == Some(id)
  {
    if id in s.sessions { OpEvolves(s, op, ttlMs, id); }
  }

  lemma ExclusiveAfter(s: State, op: Op, ttlMs: int)
    requires Exclusive(s) && Timely(s, op)
    ensures Exclusive(After(s, op, ttlMs))
  {
    var t := After(s, op, ttlMs);
    WritesStayUnique(s, op, ttlMs);
    forall id | id in t.sessions ensures id < t.supply && t.sessions[id].lease.leaseId == id + 1 {
      LeaseIdsFollow(s, op, ttlMs, id);
    }
    forall id | id in t.sessions && Writable(t, id) ensures t.activeSessionId == Some(id) {
      ActiveStaysActive(s, op, ttlMs, id);
    }
  }

  lemma {:induction false} RunIsExclusive(s: State, ops: seq<Op>, t: State, ttlMs: int)
    requires Exclusive(s) && Run(s, ops, t, ttlMs)
    ensures Exclusive(t)
    decreases |ops|
  {
    if ops != [] {
      ExclusiveAfter(s, ops[0], ttlMs);
      RunIsExclusive(After(s, ops[0], ttlMs), ops[1..], t, ttlMs);
    }
  }

  /** Between operations of any run, a session any fence could pass for is the active one, so a host
      never has two of them. */
  lemma OneWritableSession(clock: int, ops: seq<Op>, s: State, ttlMs: int, id: nat, other: nat)
    requires Run(Empty(clock), ops, s, ttlMs)
    requires id in s.sessions && other in s.sessions
    requires exists f, now :: now >= s.clock && Passes(s.sessions[id].lease, f, now)
    requires exists f, now :: now >= s.clock && Passes(s.sessions[other].lease, f, now)
    ensures s.activeSessionId == Some(id) && id == other
  {
    RunIsExclusive(Empty(clock), ops, s, ttlMs);
    assert Writable(s, id) && Writable(s, other);
  }

  /** Every input id reaches the terminal of its session at most once. */
  lemma InputWrittenOnce(clock: int, ops: seq<Op>, s: State, ttlMs: int, i: nat, j: nat)
    requires Run(Empty(clock), ops, s, ttlMs)
    requires i < j < |s.ptyWrites|
    ensures s.ptyWrites[i] != s.ptyWrites[j]
  {
    RunIsExclusive(Empty(clock), ops, s, ttlMs);
  }

  lemma {:induction false} LeaseOnlyAdvances(s: State, ops: seq<Op>, t: State, ttlMs: int, id: nat)
    requires Exclusive(s) && Run(s, ops, t, ttlMs) && id in s.sessions
    ensures id in t.sessions
    ensures t.sessions[id].lease.leaseId == s.sessions[id].lease.leaseId
    ensures t.sessions[id].lease.generation >= s.sessions[id].lease.generation
    ensures t.sessions[id].lease.generation == s.sessions[id].lease.generation && !Writable(s, id) ==> t.sessions[id].lease == s.sessions[id].lease
    ensures s.clock <= t.clock
    decreases |ops|
  {
    if ops != [] {
      OpEvolves(s, ops[0], ttlMs, id);
      ExclusiveAfter(s, ops[0], ttlMs);
      LeaseOnlyAdvances(After(s, ops[0], ttlMs), ops[1..], t, ttlMs, id);
    }
  }

  /** Once an operation has revoked a lease, a fence made for it before never passes again, on any
      session and at any later time. */
  lemma RevokedNeverPasses(clock: int, before: seq<Op>, s: State, op: Op, later: seq<Op>, t: State, ttlMs: int,
                           id: nat, f: Fence, other: nat, now: int)
    requires Run(Empty(clock), before, s, ttlMs) && Timely(s, op) && Run(After(s, op, ttlMs), later, t, ttlMs)
    requires id in s.sessions && id in After(s, op, ttlMs).sessions
    requires After(s, op, ttlMs).sessions[id].lease.generation > s.sessions[id].lease.generation
    requires f.leaseId == s.sessions[id].lease.leaseId && f.generation <= s.sessions[id].lease.generation
    requires other in t.sessions
    ensures !Passes(t.sessions[other].lease, f, now)
  {
    RunIsExclusive(Empty(clock), before, s, ttlMs);
    ExclusiveAfter(s, op, ttlMs);
    LeaseOnlyAdvances(After(s, op, ttlMs), later, t, ttlMs, id);
    RunIsExclusive(After(s, op, ttlMs), later, t, ttlMs);
  }

  /** A lease that has run out is never extended: only a revocation can still change it. */
  lemma ExpiredStaysExpired(clock: int, before: seq<Op>, s: State, ops: seq<Op>, t: State, ttlMs: int, id: nat, f: Fence, now: int)
    requires Run(Empty(clock), before, s, ttlMs) && Run(s, ops, t, ttlMs) && id in s.sessions && !Writable(s, id)
    requires f.generation == s.sessions[id].lease.generation && now >= t.clock
    ensures id in t.sessions && !Passes(t.sessions[id].lease, f, now)
  {
    RunIsExclusive(Empty(clock), before, s, ttlMs);
    LeaseOnlyAdvances(s, ops, t, ttlMs, id);
  }

  // ----- the local force close -----

  /** The process the host observes is the one recorded at start. */
  predicate Identified(rt: Runtime, i: ForceInput) { rt.identity.Some? && i.observed == rt.identity }

  /** The refusal the documentation promises for an unverified process: the session is orphaned, its lease
      revoked, and nothing else changes. */
  predicate RefusedAsPromised(s: State, i: ForceInput)
    requires i.sessionId in s.sessions
  {
    var (t, r) := ForceClose(s, i);
    && r == Err(ProcessIdentityUnverified)
    && i.sessionId in t.sessions
    && var rt, rt' := s.sessions[i.sessionId], t.sessions[i.sessionId];
       && rt'.session.state.Orphaned? && rt'.lease == RevokedLease(rt.lease, i.now)
       && t == s.(clock := i.now, sessions := s.sessions[i.sessionId := rt'])
       && rt' == rt.(session := rt'.session, lease := rt'.lease)
  }

  /** The promise is kept exactly when the session was not orphaned already; otherwise the operator gets
      an internal error, and the session keeps its lease and its revision. */
  lemma UnverifiedRefusedExactly(s: State, i: ForceInput)
    requires ForceError(s, i).None? && !Identified(s.sessions[i.sessionId], i)
    ensures RefusedAsPromised(s, i) <==> !s.sessions[i.sessionId].session.state.Orphaned?
    ensures s.sessions[i.sessionId].session.state.Orphaned? ==> ForceClose(s, i) == (s.(clock := i.now), Err(InvalidTransition))
  {
    if !s.sessions[i.sessionId].session.state.Orphaned? {
      var t := ForceClose(s, i).0;
      assert t.sessions == s.sessions[i.sessionId := t.sessions[i.sessionId]];
    }
  }

  /** The failing case is reached: a session is created, an interrupt fails and orphans it, and a force close
      meets another process under its pid. */
  lemma RefusalCanFail() returns (ops: seq<Op>, s: State, i: ForceInput)
    ensures Run(Empty(0), ops, s, 1000)
    ensures ForceError(s, i).None? && !Identified(s.sessions[i.sessionId], i) && !RefusedAsPromised(s, i)
    ensures ForceClose(s, i).1 == Err(InvalidTransition)
  {
    var mine, another := Identity(7, 0, "agent"), Identity(7, 9, "other");
    var create := OpCreate(CreateInput(true, 1, 2, "request", true, true, true, true, true, Some(mine), true, 0, 0));
    var interrupt := OpInterrupt(Target(1, 0, Fence(1, 1, 2), 1, 1), false);
    ops := [create, interrupt];
    var s1 := After(Empty(0), create, 1000);
    assert s1.sessions[0].session == Session(1, Live, 3) && s1.sessions[0].lease == Lease(1, 2, 1, 1000);
    s := After(s1, interrupt, 1000);
    assert ops[1..] == [interrupt] && ops[1..][1..] == [];
    assert Run(s1, [interrupt], s, 1000);
    i := ForceInput(0, 5, true, Some(another), true, 2);
    assert s.sessions[0].session == Session(1, Orphaned, 5);
    UnverifiedRefusedExactly(s, i);
  }

  /** An orphaned session that still holds the host. */
  ghost predicate HoldsHost(s: State, id: nat, identity: Option<Identity>) {
    && id in s.sessions && s.activeSessionId == Some(id)
    && s.sessions[id].session.state.Orphaned? && s.sessions[id].identity == identity
  }

  /** The process has exited, or was terminated after its identity was verified. */
  ghost predicate Frees(s: State, op: Op, id: nat, identity: Option<Identity>) {
    || (op.OpExit? && op.sessionId == id)
    || (op.OpForce? && op.force.sessionId == id && op.force.terminates && ForceError(s, op.force).None?
        && identity.Some? && op.force.observed == identity)
  }

  /** What gives the host back while an orphaned session holds it: nothing but the end of its process. */
  lemma HostFreedExactly(s: State, op: Op, ttlMs: int, id: nat, identity: Option<Identity>)
    requires Exclusive(s) && Timely(s, op) && HoldsHost(s, id, identity)
    ensures var t := After(s, op, ttlMs); if Frees(s, op, id, identity) then t.activeSessionId.None? else HoldsHost(t, id, identity)
  {
    match op
    case OpForce(i) => ForceFreesExactly(s, i, id, identity);
    case OpInterrupt(t, ok) => EndLeavesOrphan(s, t, ok, id, identity);
    case OpEnd(t, ok) => EndLeavesOrphan(s, t, ok, id, identity);
    case OpWrite(t, w) =>
    case OpRenew(t) =>
    case OpCreate(i) => assert id < s.supply;
    case OpRevoke(_, _) =>
    case OpExit(_, _) =>
    case OpWait(_) =>
  }

  lemma ForceFreesExactly(s: State, i: ForceInput, id: nat, identity: Option<Identity>)
    requires HoldsHost(s, id, identity)
    ensures var t := ForceClose(s, i).0;
      if Frees(s, OpForce(i), id, identity) then t.activeSessionId.None? else HoldsHost(t, id, identity)
  {
  }

  lemma EndLeavesOrphan(s: State, t: Target, ok: bool, id: nat, identity: Option<Identity>)
    requires HoldsHost(s, id, identity)
    ensures HoldsHost(EndSession(s, t, ok).0, id, identity) && HoldsHost(Interrupt(s, t, ok).0, id, identity)
  {
  }

  /** No operation of the run frees the host. */
  ghost predicate NeverFreed(s: State, ops: seq<Op>, ttlMs: int, id: nat, identity: Option<Identity>)
    decreases |ops|
  {
    ops == [] || (!Frees(s, ops[0], id, identity) && NeverFreed(After(s, ops[0], ttlMs), ops[1..], ttlMs, id, identity))
  }

  /** Over any run an orphaned session blocks every new one exactly until its process has exited or was
      terminated after verification; where no identity was recorded, only the exit of the process helps. */
  lemma {:induction false} OrphanBlocksHost(s: State, ops: seq<Op>, t: State, ttlMs: int, id: nat, identity: Option<Identity>, i: CreateInput)
    requires Exclusive(s) && HoldsHost(s, id, identity) && Run(s, ops, t, ttlMs) && NeverFreed(s, ops, ttlMs, id, identity)
    ensures HoldsHost(t, id, identity)
    ensures i.valid && (i.ownerDeviceId, i.requestId) !in t.createRequests ==> CreateSession(t, i, ttlMs).1 == Err(HostBusy)
    decreases |ops|
  {
    if ops != [] {
      HostFreedExactly(s, ops[0], ttlMs, id, identity);
      ExclusiveAfter(s, ops[0], ttlMs);
      OrphanBlocksHost(After(s, ops[0], ttlMs), ops[1..], t, ttlMs, id, identity, i);
    }
  }
}
