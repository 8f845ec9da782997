/** The owner-token directory lock: `withOwnedLock`, `stealStaleLock`, heartbeat and release.

    Any number of processes share one lock path. Every call on the file-system port is one event,
    so the processes interleave between any two of them. A directory is a linear object: it is
    created once and from then on is at the lock path, at a private path, or removed. Events carry
    the choices the environment makes: whether a read or a rename fails, how far the clock moves.
    A process may stop at any point, which covers crashes, thrown errors and expired deadlines.

    Fields marked "history" are never read by the protocol. */
module OwnedLock {
  import opened Wrappers

  /** The owner record; `id` is the unique token. */
  datatype Owner = Owner(id: nat, createdAt: real)

  /** A lock directory. `maker` is history: the process whose call created it. */
  datatype Dir = Dir(maker: nat, owner: Option<Owner>, mtime: real)

  /** `privates` maps the token in a private steal path to the directory found there. */
  datatype Fs = Fs(lock: Option<nat>, privates: map<nat, nat>, dirs: seq<Dir>, removed: set<nat>)

  /** Why a takeover went on to remove what it took. */
  datatype Cause = NotForeign | SawOccupied | RestoreFailed

  datatype Pc =
    | Idle                                                 // about to create the directory
    | Made(at: real)                                       // created it (at: its mtime, history)
    | Claimed(at: real)                                    // has a token, owner record not written yet
    | Written                                              // owner record written, about to read it back
    | Occupied                                             // the directory existed already
    | Probing                                              // about to stat the lock path
    | Statted(mtime: real)
    | Observed(mtime: real, observed: Option<Owner>)
    | Doomed(observed: Option<Owner>, path: nat)           // judged stale, about to rename
    | Taken(observed: Option<Owner>, path: nat)            // renamed to the private path
    | Suspect(observed: Option<Owner>, path: nat)          // took somebody else's record
    | Restoring(observed: Option<Owner>, path: nat)        // saw the lock path free
    | Discarding(observed: Option<Owner>, path: nat, cause: Cause, misread: bool) // misread: history
    | Waiting                                              // about to retry
    | Working
    | Releasing
    | Fenced(at: real)                                     // the fence let it pass at this time
    | Removing(at: real)                                   // and the record was still its own
    | Finished
    | Stopped

  /** Heartbeat: `Beating` holds the time about to be written, `Beaten` the time just written. */
  datatype Beat = Quiet | Beating(at: real) | Beaten(at: real)

  datatype Proc = Proc(pc: Pc, claims: set<nat>, claim: Owner, beat: Beat)

  datatype State = State(now: real, fs: Fs, procs: seq<Proc>, nextId: nat)

  /** `replacesEmpty`: renaming a directory onto an empty one replaces it, as POSIX allows. */
  datatype Config = Config(staleMs: real, replacesEmpty: bool)

  datatype Event =
    | Tick(dt: real)
    | Mkdir(p: nat, busy: bool)
    | NewClaim(p: nat)
    | WriteClaim(p: nat, recreate: bool)
    | Confirm(p: nat, unreadable: bool)
    | ReadCurrent(p: nat, unreadable: bool)
    | Stat(p: nat, unreadable: bool)
    | Observe(p: nat, unreadable: bool)
    | Decide(p: nat)
    | RenameAway(p: nat, fails: bool)
    | ReadStolen(p: nat, unreadable: bool)
    | CheckFree(p: nat)
    | Restore(p: nat, fails: bool)
    | Discard(p: nat, fails: bool)
    | Retry(p: nat)
    | BeatRead(p: nat, unreadable: bool)
    | BeatWrite(p: nat, fails: bool, recreate: bool)
    | BeatCommit(p: nat)
    | FinishWork(p: nat)
    | Fence(p: nat)
    | ReleaseRead(p: nat, unreadable: bool)
    | ReleaseRemove(p: nat, fails: bool)
    | Stop(p: nat)

  const RELEASE_FENCE_MARGIN_MS := 1000.0

  function Margin(staleMs: real): real {
    if staleMs / 4.0 < RELEASE_FENCE_MARGIN_MS then staleMs / 4.0 else RELEASE_FENCE_MARGIN_MS
  }

  predicate IsStale(owner: Option<Owner>, mtime: real, now: real, staleMs: real) {
    var heldSince := if owner.Some? then owner.value.createdAt else mtime;
    now - heldSince > staleMs
  }

  predicate IsForeign(observed: Option<Owner>, stolen: Option<Owner>) {
    stolen.Some? && (observed.None? || stolen.value.id != observed.value.id)
  }

  /** Directory identities are in range. */
  ghost predicate InRange(fs: Fs) {
    && (fs.lock.Some? ==> fs.lock.value < |fs.dirs|)
    && (forall t :: t in fs.privates ==> fs.privates[t] < |fs.dirs|)
    && (forall d :: d in fs.removed ==> d < |fs.dirs|)
  }

  // ----- the file-system calls -----

  ghost function LockOwner(fs: Fs, unreadable: bool): Option<Owner>
    requires InRange(fs)
  {
    if unreadable || fs.lock.None? then None else fs.dirs[fs.lock.value].owner
  }

  ghost function WithNewDir(fs: Fs, d: Dir): Fs {
    fs.(dirs := fs.dirs + [d], lock := Some(|fs.dirs|))
  }

  /** Writing the record of the directory now at the lock path, whoever made it. When the path is
      empty the call fails, or creates the directory again (`recreate`). */
  ghost function WriteOwner(fs: Fs, p: nat, o: Owner, now: real, recreate: bool): Option<Fs>
    requires InRange(fs)
  {
    if fs.lock.Some? then
      var d := fs.lock.value;
      Some(fs.(dirs := fs.dirs[d := fs.dirs[d].(owner := Some(o), mtime := now)]))
    else if recreate then Some(WithNewDir(fs, Dir(p, Some(o), now)))
    else None
  }

  ghost function TakeAway(fs: Fs, path: nat): Fs
    requires fs.lock.Some?
  {
    fs.(privates := fs.privates[path := fs.lock.value], lock := None)
  }

  ghost function PutBack(fs: Fs, path: nat): Fs
    requires path in fs.privates
  {
    var gone := if fs.lock.Some? then {fs.lock.value} else {};
    fs.(lock := Some(fs.privates[path]), privates := fs.privates - {path}, removed := fs.removed + gone)
  }

  ghost predicate CanPutBack(c: Config, fs: Fs)
    requires InRange(fs)
  {
    fs.lock.None? || (c.replacesEmpty && fs.dirs[fs.lock.value].owner.None?)
  }

  ghost function RemovePrivate(fs: Fs, path: nat): Fs
    requires path in fs.privates
  {
    fs.(privates := fs.privates - {path}, removed := fs.removed + {fs.privates[path]})
  }

  ghost function RemoveLock(fs: Fs): Fs {
    if fs.lock.None? then fs else fs.(lock := None, removed := fs.removed + {fs.lock.value})
  }

  // ----- one event -----

  ghost predicate HasPath(pc: Pc) {
    pc.Taken? || pc.Suspect? || pc.Restoring? || pc.Discarding?
  }

  ghost predicate Beats(pc: Pc) {
    pc.Working? || pc.Releasing? || pc.Fenced? || pc.Removing? || pc.Finished?
  }

  /** Process `x` has reached the call that event `e` names. */
  ghost predicate Ready(x: Proc, e: Event) {
    match e
    case Tick(_) => false
    case Mkdir(_, _) => x.pc.Idle?
    case NewClaim(_) => x.pc.Made?
    case WriteClaim(_, _) => x.pc.Claimed?
    case Confirm(_, _) => x.pc.Written?
    case ReadCurrent(_, _) => x.pc.Occupied?
    case Stat(_, _) => x.pc.Probing?
    case Observe(_, _) => x.pc.Statted?
    case Decide(_) => x.pc.Observed?
    case RenameAway(_, _) => x.pc.Doomed?
    case ReadStolen(_, _) => x.pc.Taken?
    case CheckFree(_) => x.pc.Suspect?
    case Restore(_, _) => x.pc.Restoring?
    case Discard(_, _) => x.pc.Discarding?
    case Retry(_) => x.pc.Waiting?
    case BeatRead(_, _) => Beats(x.pc) && x.beat.Quiet?
    case BeatWrite(_, _, _) => Beats(x.pc) && x.beat.Beating?
    case BeatCommit(_) => Beats(x.pc) && x.beat.Beaten?
    case FinishWork(_) => x.pc.Working?
    case Fence(_) => x.pc.Releasing?
    case ReleaseRead(_, _) => x.pc.Fenced?
    case ReleaseRemove(_, _) => x.pc.Removing?
    case Stop(_) => true
  }

  ghost predicate Enabled(s: State, e: Event) {
    && InRange(s.fs)
    && if e.Tick? then e.dt >= 0.0 else
       && e.p < |s.procs|
       && (HasPath(s.procs[e.p].pc) ==> s.procs[e.p].pc.path in s.fs.privates)
       && Ready(s.procs[e.p], e)
  }

  /** The process `e.p` and the file system after event `e`. */
  ghost function Effect(c: Config, s: State, e: Event): (r: (Proc, Fs, nat))
    requires Enabled(s, e) && !e.Tick?
  {
    var x, fs, n := s.procs[e.p], s.fs, s.nextId;
    match e
    case Mkdir(p, busy) =>
      if fs.lock.None? && !busy then (x.(pc := Made(s.now)), WithNewDir(fs, Dir(p, None, s.now)), n)
      else (x.(pc := Occupied), fs, n)
    case NewClaim(_) =>
      (x.(pc := Claimed(x.pc.at), claim := Owner(n, s.now), claims := x.claims + {n}), fs, n + 1)
    case WriteClaim(p, recreate) =>
      (match WriteOwner(fs, p, x.claim, s.now, recreate)
       case Some(fs') => (x.(pc := Written), fs', n)
       case None => (x.(pc := Stopped), fs, n))
    case Confirm(_, unreadable) =>
      var o := LockOwner(fs, unreadable);
      (x.(pc := if o.Some? && o.value.id == x.claim.id then Working else Waiting), fs, n)
    case ReadCurrent(_, unreadable) =>
      var o := LockOwner(fs, unreadable);
      if o.Some? && o.value.id in x.claims then (x.(pc := Working, claim := o.value), fs, n)
      else (x.(pc := Probing), fs, n)
    case Stat(_, unreadable) =>
      (x.(pc := if unreadable || fs.lock.None? then Waiting else Statted(fs.dirs[fs.lock.value].mtime)), fs, n)
    case Observe(_, unreadable) =>
      (x.(pc := Observed(x.pc.mtime, LockOwner(fs, unreadable))), fs, n)
    case Decide(_) =>
      if IsStale(x.pc.observed, x.pc.mtime, s.now, c.staleMs)
      then (x.(pc := Doomed(x.pc.observed, n)), fs, n + 1)
      else (x.(pc := Waiting), fs, n)
    case RenameAway(_, fails) =>
      if fails || fs.lock.None? then (x.(pc := Waiting), fs, n)
      else (x.(pc := Taken(x.pc.observed, x.pc.path)), TakeAway(fs, x.pc.path), n)
    case ReadStolen(_, unreadable) =>
      var stolen := if unreadable then None else fs.dirs[fs.privates[x.pc.path]].owner;
      (x.(pc := if IsForeign(x.pc.observed, stolen) then Suspect(x.pc.observed, x.pc.path)
                else Discarding(x.pc.observed, x.pc.path, NotForeign, unreadable)), fs, n)
    case CheckFree(_) =>
      (x.(pc := if fs.lock.Some? then Discarding(x.pc.observed, x.pc.path, SawOccupied, false)
                else Restoring(x.pc.observed, x.pc.path)), fs, n)
    case Restore(_, fails) =>
      if fails || !CanPutBack(c, fs)
      then (x.(pc := Discarding(x.pc.observed, x.pc.path, RestoreFailed, false)), fs, n)
      else (x.(pc := Waiting), PutBack(fs, x.pc.path), n)
    case Discard(_, fails) =>
      (x.(pc := Waiting), if fails then fs else RemovePrivate(fs, x.pc.path), n)
    case Retry(_) => (x.(pc := Idle), fs, n)
    case BeatRead(_, unreadable) =>
      var o := LockOwner(fs, unreadable);
      (x.(beat := if o.Some? && o.value.id == x.claim.id then Beating(s.now) else Quiet), fs, n)
    case BeatWrite(p, fails, recreate) =>
      (match WriteOwner(fs, p, x.claim.(createdAt := x.beat.at), s.now, recreate)
       case Some(fs') =>
         if fails then (x.(beat := Quiet), fs, n) else (x.(beat := Beaten(x.beat.at)), fs', n)
       case None => (x.(beat := Quiet), fs, n))
    case BeatCommit(_) =>
      (x.(claim := x.claim.(createdAt := x.beat.at), beat := Quiet), fs, n)
    case FinishWork(_) => (x.(pc := Releasing), fs, n)
    case Fence(_) =>
      (x.(pc := if s.now - x.claim.createdAt + Margin(c.staleMs) >= c.staleMs then Finished
                else Fenced(s.now)), fs, n)
    case ReleaseRead(_, unreadable) =>
      var o := LockOwner(fs, unreadable);
      (x.(pc := if o.Some? && o.value.id == x.claim.id then Removing(x.pc.at) else Finished), fs, n)
    case ReleaseRemove(_, fails) =>
      (x.(pc := Finished), if fails then fs else RemoveLock(fs), n)
    case Stop(_) => (x.(pc := Stopped), fs, n)
  }

  ghost function Apply(c: Config, s: State, e: Event): State
    requires Enabled(s, e)
  {
    if e.Tick? then s.(now := s.now + e.dt)
    else
      var (x, fs, n) := Effect(c, s, e);
      s.(procs := s.procs[e.p := x], fs := fs, nextId := n)
  }

  ghost function Init(n: nat, now: real): State {
    State(now, Fs(None, map[], [], {}), seq(n, _ => Proc(Idle, {}, Owner(0, now), Quiet)), 0)
  }

  /** `es` leads from `s` to `t`, one file-system call at a time. */
  ghost predicate Run(c: Config, s: State, es: seq<Event>, t: State)
    decreases |es|
  {
    if es == [] then s == t
    else Enabled(s, es[0]) && Run(c, Apply(c, s, es[0]), es[1..], t)
  }

  // ----- conservation -----

  ghost predicate AtPrivate(fs: Fs, d: nat) {
    exists t :: t in fs.privates && fs.privates[t] == d
  }

  /** Every directory is in exactly one place, and no two paths hold the same one. */
  ghost predicate Linear(fs: Fs) {
    && InRange(fs)
    && (forall t, u :: t in fs.privates && u in fs.privates && t != u ==> fs.privates[t] != fs.privates[u])
    && (forall t :: t in fs.privates ==> fs.lock != Some(fs.privates[t]) && fs.privates[t] !in fs.removed)
    && (fs.lock.Some? ==> fs.lock.value !in fs.removed)
    && (forall d: nat :: d < |fs.dirs| ==> fs.lock == Some(d) || AtPrivate(fs, d) || d in fs.removed)
  }

  /** The private path a takeover has chosen, before or after the rename. */
  ghost function PathOf(pc: Pc): Option<nat> {
    if pc.Doomed? then Some(pc.path) else if HasPath(pc) then Some(pc.path) else None
  }

  ghost predicate PathOk(s: State, p: nat)
    requires p < |s.procs| && InRange(s.fs)
  {
    var pc := s.procs[p].pc;
    && (pc.Doomed? ==> pc.path !in s.fs.privates)
    && (HasPath(pc) ==> pc.path in s.fs.privates)
    && (pc.Suspect? || pc.Restoring? || (pc.Discarding? && pc.cause != NotForeign)
        ==> IsForeign(pc.observed, s.fs.dirs[s.fs.privates[pc.path]].owner))
    && (pc.Discarding? && pc.cause == NotForeign && !pc.misread
        ==> !IsForeign(pc.observed, s.fs.dirs[s.fs.privates[pc.path]].owner))
    && (PathOf(pc).Some? ==> PathOf(pc).value < s.nextId)
  }

  ghost predicate Conserving(s: State) {
    && Linear(s.fs)
    && (forall t :: t in s.fs.privates ==> t < s.nextId)
    && (forall p: nat :: p < |s.procs| ==> PathOk(s, p))
    && (forall p: nat, q: nat :: p < |s.procs| && q < |s.procs| && p != q && PathOf(s.procs[p].pc).Some? ==>
          PathOf(s.procs[p].pc) != PathOf(s.procs[q].pc))
  }

  lemma NewDirLinear(fs: Fs, d: Dir)
    requires Linear(fs) && fs.lock.None?
    ensures Linear(WithNewDir(fs, d))
  {
    var fs' := WithNewDir(fs, d);
    forall i: nat | i < |fs'.dirs| ensures fs'.lock == Some(i) || AtPrivate(fs', i) || i in fs'.removed {
      assert i < |fs.dirs| && AtPrivate(fs, i) ==> AtPrivate(fs', i);
    }
  }

  lemma WriteLinear(fs: Fs, p: nat, o: Owner, now: real, recreate: bool)
    requires Linear(fs) && WriteOwner(fs, p, o, now, recreate).Some?
    ensures Linear(WriteOwner(fs, p, o, now, recreate).value)
  {
    var fs' := WriteOwner(fs, p, o, now, recreate).value;
    if fs.lock.None? {
      NewDirLinear(fs, Dir(p, Some(o), now));
    } else {
      forall i: nat | i < |fs'.dirs| ensures fs'.lock == Some(i) || AtPrivate(fs', i) || i in fs'.removed {
        assert AtPrivate(fs, i) ==> AtPrivate(fs', i);
      }
    }
  }

  lemma TakeAwayLinear(fs: Fs, path: nat)
    requires Linear(fs) && fs.lock.Some? && path !in fs.privates
    ensures Linear(TakeAway(fs, path))
  {
    var fs' := TakeAway(fs, path);
    forall i: nat | i < |fs'.dirs| ensures fs'.lock == Some(i) || AtPrivate(fs', i) || i in fs'.removed {
      if AtPrivate(fs, i) {
        var t :| t in fs.privates && fs.privates[t] == i;
        assert t in fs'.privates && fs'.privates[t] == i;
      }
      assert path in fs'.privates && fs'.privates[path] == fs.lock.value;
    }
  }

  lemma PutBackLinear(fs: Fs, path: nat)
    requires Linear(fs) && path in fs.privates
    ensures Linear(PutBack(fs, path))
  {
    var fs' := PutBack(fs, path);
    forall i: nat | i < |fs'.dirs| ensures fs'.lock == Some(i) || AtPrivate(fs', i) || i in fs'.removed {
      if AtPrivate(fs, i) && i != fs.privates[path] {
        var t :| t in fs.privates && fs.privates[t] == i;
        assert t in fs'.privates && fs'.privates[t] == i;
      }
    }
  }

  lemma RemovePrivateLinear(fs: Fs, path: nat)
    requires Linear(fs) && path in fs.privates
    ensures Linear(RemovePrivate(fs, path))
  {
    var fs' := RemovePrivate(fs, path);
    forall i: nat | i < |fs'.dirs| ensures fs'.lock == Some(i) || AtPrivate(fs', i) || i in fs'.removed {
      if AtPrivate(fs, i) && i != fs.privates[path] {
        var t :| t in fs.privates && fs.privates[t] == i;
        assert t in fs'.privates && fs'.privates[t] == i;
      }
    }
  }

  lemma RemoveLockLinear(fs: Fs)
    requires Linear(fs)
    ensures Linear(RemoveLock(fs))
  {
    var fs' := RemoveLock(fs);
    forall i: nat | i < |fs'.dirs| ensures fs'.lock == Some(i) || AtPrivate(fs', i) || i in fs'.removed {
      assert AtPrivate(fs, i) ==> AtPrivate(fs', i);
    }
  }

  lemma LinearAfter(c: Config, s: State, e: Event)
    requires Conserving(s) && Enabled(s, e)
    ensures Linear(Apply(c, s, e).fs)
  {
    var fs := s.fs;
    if !e.Tick? {
      var x := s.procs[e.p];
      assert PathOk(s, e.p);
      match e
      case Mkdir(p, _) =>
        if fs.lock.None? { NewDirLinear(fs, Dir(p, None, s.now)); }
      case WriteClaim(p, recreate) =>
        if WriteOwner(fs, p, x.claim, s.now, recreate).Some? { WriteLinear(fs, p, x.claim, s.now, recreate); }
      case BeatWrite(p, _, recreate) =>
        var o := x.claim.(createdAt := x.beat.at);
        if WriteOwner(fs, p, o, s.now, recreate).Some? { WriteLinear(fs, p, o, s.now, recreate); }
      case RenameAway(_, _) =>
        if fs.lock.Some? { TakeAwayLinear(fs, x.pc.path); }
      case Restore(_, _) =>
        PutBackLinear(fs, x.pc.path);
      case Discard(_, _) =>
        RemovePrivateLinear(fs, x.pc.path);
      case ReleaseRemove(_, _) =>
        RemoveLockLinear(fs);
      case _ =>
    }
  }

  /** An event leaves every private path alone except the one its own process has chosen, and what
      lies at a private path keeps its owner record. */
  lemma PrivateKept(c: Config, s: State, e: Event, t: nat)
    requires Conserving(s) && Enabled(s, e)
    requires t in s.fs.privates
    requires !e.Tick? ==> PathOf(s.procs[e.p].pc) != Some(t)
    ensures var fs' := Apply(c, s, e).fs;
      t in fs'.privates && fs'.privates[t] == s.fs.privates[t] && fs'.privates[t] < |fs'.dirs|
      && fs'.dirs[fs'.privates[t]].owner == s.fs.dirs[s.fs.privates[t]].owner
  {
  }

  lemma TakenPathAfter(c: Config, s: State, e: Event)
    requires Conserving(s) && Enabled(s, e) && !e.Tick? && HasPath(s.procs[e.p].pc)
    ensures InRange(Apply(c, s, e).fs)
    ensures PathOk(Apply(c, s, e), e.p)
  {
    LinearAfter(c, s, e);
    assert PathOk(s, e.p);
    var pc, pc' := s.procs[e.p].pc, Apply(c, s, e).procs[e.p].pc;
    if HasPath(pc') {
      assert Apply(c, s, e).fs == s.fs && Apply(c, s, e).nextId == s.nextId;
      assert pc'.path == pc.path && pc'.observed == pc.observed;
    }
  }

  /** A takeover chooses a path of its own, and then moves the directory there. */
  lemma ChosenPathAfter(c: Config, s: State, e: Event)
    requires Conserving(s) && Enabled(s, e) && (e.Decide? || e.RenameAway?)
    ensures InRange(Apply(c, s, e).fs)
    ensures PathOk(Apply(c, s, e), e.p)
  {
    LinearAfter(c, s, e);
    assert PathOk(s, e.p);
  }

  lemma NoPathAfter(c: Config, s: State, e: Event)
    requires Conserving(s) && Enabled(s, e) && !e.Tick? && !e.Decide? && !e.RenameAway? && !HasPath(s.procs[e.p].pc)
    ensures var s' := Apply(c, s, e); PathOf(s'.procs[e.p].pc).None? && |s'.procs| == |s.procs|
  {
  }

  lemma OwnPathAfter(c: Config, s: State, e: Event)
    requires Conserving(s) && Enabled(s, e) && !e.Tick?
    ensures InRange(Apply(c, s, e).fs)
    ensures PathOk(Apply(c, s, e), e.p)
  {
    if HasPath(s.procs[e.p].pc) {
      TakenPathAfter(c, s, e);
    } else if e.Decide? || e.RenameAway? {
      ChosenPathAfter(c, s, e);
    } else {
      LinearAfter(c, s, e);
      NoPathAfter(c, s, e);
    }
  }

  /** What an event leaves alone of another process. */
  lemma OtherKept(c: Config, s: State, e: Event, p: nat)
    requires Enabled(s, e) && p < |s.procs| && (e.Tick? || e.p != p)
    ensures var s' := Apply(c, s, e); |s'.procs| == |s.procs| && s'.procs[p] == s.procs[p] && s.nextId <= s'.nextId
  {
  }

  lemma NoOtherPath(c: Config, s: State, e: Event, t: nat)
    requires Enabled(s, e) && t !in s.fs.privates
    requires !e.Tick? ==> PathOf(s.procs[e.p].pc) != Some(t)
    ensures t !in Apply(c, s, e).fs.privates
  {
  }

  lemma OtherPathAfter(c: Config, s: State, e: Event, p: nat)
    requires Conserving(s) && Enabled(s, e) && p < |s.procs| && (e.Tick? || e.p != p)
    ensures InRange(Apply(c, s, e).fs)
    ensures PathOk(Apply(c, s, e), p)
  {
    LinearAfter(c, s, e);
    OtherKept(c, s, e, p);
    assert PathOk(s, p);
    var pc := s.procs[p].pc;
    assert !e.Tick? && PathOf(pc).Some? ==> PathOf(pc) != PathOf(s.procs[e.p].pc);
    if HasPath(pc) { PrivateKept(c, s, e, pc.path); }
    if pc.Doomed? { NoOtherPath(c, s, e, pc.path); }
  }

  /** Private paths stay distinct and below the token counter. */
  lemma TokensAfter(c: Config, s: State, e: Event)
    requires Conserving(s) && Enabled(s, e)
    ensures var s' := Apply(c, s, e);
      && s.nextId <= s'.nextId
      && (forall t :: t in s'.fs.privates ==> t < s'.nextId)
      && (!e.Tick? ==>
            var mine := PathOf(s'.procs[e.p].pc);
            mine.None? || mine == PathOf(s.procs[e.p].pc) || mine == Some(s.nextId))
  {
    if !e.Tick? { assert PathOk(s, e.p); }
  }

  lemma ConservingAfter(c: Config, s: State, e: Event)
    requires Conserving(s) && Enabled(s, e)
    ensures Conserving(Apply(c, s, e))
  {
    LinearAfter(c, s, e);
    TokensAfter(c, s, e);
    var s' := Apply(c, s, e);
    forall p: nat | p < |s'.procs| ensures PathOk(s', p) {
      if e.Tick? || e.p != p { OtherPathAfter(c, s, e, p); } else { OwnPathAfter(c, s, e); }
    }
    forall p: nat, q: nat | p < |s'.procs| && q < |s'.procs| && p != q && PathOf(s'.procs[p].pc).Some?
      ensures PathOf(s'.procs[p].pc) != PathOf(s'.procs[q].pc)
    {
      PathsDistinctAfter(c, s, e, p, q);
    }
  }

  lemma PathsDistinctAfter(c: Config, s: State, e: Event, p: nat, q: nat)
    requires Conserving(s) && Enabled(s, e) && p < |s.procs| && q < |s.procs| && p != q
    requires PathOf(Apply(c, s, e).procs[p].pc).Some?
    ensures PathOf(Apply(c, s, e).procs[p].pc) != PathOf(Apply(c, s, e).procs[q].pc)
  {
    TokensAfter(c, s, e);
    assert PathOk(s, p) && PathOk(s, q);
    assert PathOf(s.procs[p].pc).Some? ==> PathOf(s.procs[p].pc) != PathOf(s.procs[q].pc);
    assert PathOf(s.procs[q].pc).Some? ==> PathOf(s.procs[q].pc) != PathOf(s.procs[p].pc);
  }

  lemma {:induction false} RunConserves(c: Config, s: State, es: seq<Event>, t: State)
    requires Conserving(s) && Run(c, s, es, t)
    ensures Conserving(t)
    decreases |es|
  {
    if es != [] {
      ConservingAfter(c, s, es[0]);
      RunConserves(c, Apply(c, s, es[0]), es[1..], t);
    }
  }

  /** `d` is at the lock path, or at exactly one private path, or removed, and only one of these. */
  ghost predicate InOnePlace(fs: Fs, d: nat) {
    var private := exists t :: t in fs.privates && fs.privates[t] == d && forall u :: u in fs.privates && fs.privates[u] == d ==> u == t;
    || (fs.lock == Some(d) && !AtPrivate(fs, d) && d !in fs.removed)
    || (fs.lock != Some(d) && private && d !in fs.removed)
    || (fs.lock != Some(d) && !AtPrivate(fs, d) && d in fs.removed)
  }

  /** However the processes interleave, no directory is lost, doubled, or revived. */
  lemma EveryDirectoryInOnePlace(c: Config, n: nat, now: real, es: seq<Event>, s: State, d: nat)
    requires Run(c, Init(n, now), es, s)
    requires d < |s.fs.dirs|
    ensures InOnePlace(s.fs, d)
  {
    RunConserves(c, Init(n, now), es, s);
    if AtPrivate(s.fs, d) {
      var t :| t in s.fs.privates && s.fs.privates[t] == d;
      assert forall u :: u in s.fs.privates && s.fs.privates[u] == d ==> u == t;
    }
  }

  /** What a takeover removes carries another owner's record exactly when the takeover saw the lock
      path occupied or failed to put the directory back, provided it could read the stolen record. */
  lemma ForeignRemovalCause(c: Config, n: nat, now: real, es: seq<Event>, s: State, p: nat)
    requires Run(c, Init(n, now), es, s)
    requires p < |s.procs| && s.procs[p].pc.Discarding?
    ensures s.procs[p].pc.path in s.fs.privates && s.fs.privates[s.procs[p].pc.path] < |s.fs.dirs|
    ensures var pc := s.procs[p].pc;
      var foreign := IsForeign(pc.observed, s.fs.dirs[s.fs.privates[pc.path]].owner);
      && (!pc.misread ==> (foreign <==> pc.cause == SawOccupied || pc.cause == RestoreFailed))
      && (foreign ==> pc.cause == SawOccupied || pc.cause == RestoreFailed || pc.misread)
  {
    RunConserves(c, Init(n, now), es, s);
    assert PathOk(s, p);
  }
}
