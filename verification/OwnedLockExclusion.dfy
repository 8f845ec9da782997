/** Mutual exclusion of the owner-token lock.

    Exclusion is claimed for runs in which
      - the observation and the rename of one takeover are one step,
      - the read and the write of one heartbeat are one step,
      - the removal that ends a release comes within the fence margin of the fence check,
      - no claiming or working process's record ages past `staleMs`, and
      - where a rename replaces an empty directory, as POSIX allows, no takeover misreads the record it
        judges; where a rename onto an occupied path fails, it may.
    `ExclusionExactly` shows that each of them is needed. */
module OwnedLockExclusion {
  import opened Wrappers
  import opened OwnedLock

  datatype Move =
    | One(e: Event)
    | Takeover(p: nat, noStat: bool, unreadable: bool, fails: bool)
    | HeartBeat(p: nat, unreadable: bool, fails: bool, recreate: bool)

  ghost predicate Single(e: Event) {
    !e.Stat? && !e.Observe? && !e.Decide? && !e.RenameAway? && !e.BeatRead? && !e.BeatWrite?
  }

  ghost predicate MoveEnabled(c: Config, s: State, m: Move) {
    match m
    case One(e) =>
      Single(e) && Enabled(s, e)
      && (e.ReleaseRemove? ==> s.now <= s.procs[e.p].pc.at + Margin(c.staleMs))
    case Takeover(p, noStat, _, _) => Enabled(s, Stat(p, noStat))
    case HeartBeat(p, unreadable, _, _) => Enabled(s, BeatRead(p, unreadable))
  }

  ghost function Then(c: Config, s: State, e: Event): State {
    if Enabled(s, e) then Apply(c, s, e) else s
  }

  ghost function MoveEvents(m: Move): seq<Event> {
    match m
    case One(e) => [e]
    case Takeover(p, noStat, unreadable, fails) =>
      [Stat(p, noStat), Observe(p, unreadable), Decide(p), RenameAway(p, fails)]
    case HeartBeat(p, unreadable, fails, recreate) =>
      [BeatRead(p, unreadable), BeatWrite(p, fails, recreate)]
  }

  ghost function ThenAll(c: Config, s: State, es: seq<Event>): State
    decreases |es|
  {
    if es == [] then s else ThenAll(c, Then(c, s, es[0]), es[1..])
  }

  /** A move is its events, back to back, as far as the outcome of each lets the next happen. */
  ghost function Do(c: Config, s: State, m: Move): State {
    ThenAll(c, s, MoveEvents(m))
  }

  /** The time the stored record of a claiming or holding process counts from. */
  ghost function Since(x: Proc): real {
    if x.pc.Made? || x.pc.Claimed? then x.pc.at
    else if x.beat.Beaten? then x.beat.at
    else x.claim.createdAt
  }

  ghost predicate Claiming(pc: Pc) { pc.Made? || pc.Claimed? || pc.Written? }

  ghost predicate Holding(pc: Pc) {
    pc.Written? || pc.Working? || pc.Releasing? || pc.Fenced? || pc.Removing?
  }

  ghost predicate Recent(c: Config, s: State, p: nat)
    requires p < |s.procs|
  {
    s.now - Since(s.procs[p]) <= c.staleMs
  }

  /** The assumption on the environment: a claiming or working process keeps its record young. */
  ghost predicate Fresh(c: Config, s: State) {
    forall p: nat :: p < |s.procs| && (Claiming(s.procs[p].pc) || s.procs[p].pc.Working?) ==> Recent(c, s, p)
  }

  /** The directory at the lock path is the one `p` made, or the one that carries `p`'s record. */
  ghost predicate Owns(s: State, p: nat)
    requires p < |s.procs| && InRange(s.fs)
  {
    var x := s.procs[p];
    s.fs.lock.Some? &&
    var d := s.fs.dirs[s.fs.lock.value];
    if x.pc.Made? || x.pc.Claimed? then d == Dir(p, None, x.pc.at)
    else d.owner.Some? && d.owner.value.id == x.claim.id && d.owner.value.createdAt >= Since(x)
  }

  ghost predicate ProcOk(c: Config, s: State, p: nat)
    requires p < |s.procs| && InRange(s.fs)
  {
    var x := s.procs[p];
    && (forall t :: t in x.claims ==> t < s.nextId)
    && !x.beat.Beating?
    && (!Beats(x.pc) && !x.pc.Stopped? ==> x.beat.Quiet?)
    && (x.pc.Claimed? || Holding(x.pc) || x.pc.Finished? ==> x.claim.id in x.claims && x.claim.createdAt <= s.now)
    && (x.beat.Beaten? ==> x.claim.createdAt <= x.beat.at <= s.now)
    && (Claiming(x.pc) || Holding(x.pc) ==> Since(x) <= s.now)
    && (x.pc.Fenced? || x.pc.Removing? ==> x.pc.at - x.claim.createdAt + Margin(c.staleMs) < c.staleMs)
    && ((Claiming(x.pc) || Holding(x.pc)) && Recent(c, s, p) ==> Owns(s, p))
  }

  ghost predicate DirsOk(s: State) {
    forall d: nat :: d < |s.fs.dirs| && s.fs.dirs[d].owner.Some? ==> s.fs.dirs[d].owner.value.createdAt <= s.fs.dirs[d].mtime <= s.now
  }

  ghost predicate Guarded(c: Config, s: State) {
    && Conserving(s)
    && DirsOk(s)
    && (forall p: nat :: p < |s.procs| ==> ProcOk(c, s, p))
    && (forall p: nat, q: nat :: p < |s.procs| && q < |s.procs| && p != q ==> Disjoint(s, p, q))
  }

  /** No takeover of this process means to put back what it took. */
  ghost predicate Unsuspicious(s: State, p: nat)
    requires p < |s.procs| && InRange(s.fs)
  {
    var pc := s.procs[p].pc;
    && !pc.Suspect? && !pc.Restoring?
    && (pc.Taken? ==> pc.path in s.fs.privates && !IsForeign(pc.observed, s.fs.dirs[s.fs.privates[pc.path]].owner))
  }

  /** No rename that puts a directory back can replace another one. */
  ghost predicate Safe(c: Config, s: State) {
    c.replacesEmpty ==> InRange(s.fs) && forall p: nat :: p < |s.procs| ==> Unsuspicious(s, p)
  }

  ghost predicate Disjoint(s: State, p: nat, q: nat)
    requires p < |s.procs| && q < |s.procs|
  {
    s.procs[p].claims !! s.procs[q].claims
  }

  /** Two processes with young records cannot both own the lock path. */
  lemma OwnersAgree(c: Config, s: State, p: nat, q: nat)
    requires Guarded(c, s) && p < |s.procs| && q < |s.procs|
    requires Claiming(s.procs[p].pc) || Holding(s.procs[p].pc)
    requires Claiming(s.procs[q].pc) || Holding(s.procs[q].pc)
    requires Recent(c, s, p) && Owns(s, q)
    ensures p == q
  {
    assert ProcOk(c, s, p) && ProcOk(c, s, q);
    assert p == q || Disjoint(s, p, q);
  }

  // ----- what each composed move does -----

  lemma {:induction false} ThenAllConserves(c: Config, s: State, es: seq<Event>)
    requires Conserving(s)
    ensures Conserving(ThenAll(c, s, es))
    decreases |es|
  {
    if es != [] {
      if Enabled(s, es[0]) { ConservingAfter(c, s, es[0]); }
      ThenAllConserves(c, Then(c, s, es[0]), es[1..]);
    }
  }

  ghost function TakeoverSteps(c: Config, s: State, m: Move): State
    requires m.Takeover?
  {
    var s1 := Then(c, s, Stat(m.p, m.noStat));
    var s2 := Then(c, s1, Observe(m.p, m.unreadable));
    var s3 := Then(c, s2, Decide(m.p));
    Then(c, s3, RenameAway(m.p, m.fails))
  }

  lemma TakeoverUnrolls(c: Config, s: State, m: Move)
    requires m.Takeover?
    ensures Do(c, s, m) == TakeoverSteps(c, s, m)
  {
    var es := MoveEvents(m);
    assert es[1..][1..] == es[2..] && es[2..][1..] == es[3..] && es[3..][1..] == [];
    var s1 := Then(c, s, es[0]);
    var s2 := Then(c, s1, es[1]);
    var s3 := Then(c, s2, es[2]);
    assert ThenAll(c, s3, es[3..]) == Then(c, s3, es[3]);
    assert ThenAll(c, s2, es[2..]) == ThenAll(c, s3, es[3..]);
    assert ThenAll(c, s1, es[1..]) == ThenAll(c, s2, es[2..]);
  }

  /** A takeover leaves the files alone, or moves away a directory that is stale by its own record
      or, where the record was unreadable, by its modification time. */
  ghost predicate TakesOnlyStale(c: Config, s: State, fs': Fs) {
    && InRange(s.fs)
    && s.fs.lock.Some?
    && (exists path: nat :: fs' == TakeAway(s.fs, path))
    && var d := s.fs.dirs[s.fs.lock.value];
       (IsStale(d.owner, d.mtime, s.now, c.staleMs) || IsStale(None, d.mtime, s.now, c.staleMs))
  }

  lemma TakeoverDoes(c: Config, s: State, m: Move)
    requires Conserving(s) && m.Takeover? && MoveEnabled(c, s, m)
    ensures var s' := Do(c, s, m);
      && s'.now == s.now && s.nextId <= s'.nextId && |s'.procs| == |s.procs|
      && (s'.procs[m.p].pc.Waiting? || s'.procs[m.p].pc.Taken?)
      && s'.procs == s.procs[m.p := s.procs[m.p].(pc := s'.procs[m.p].pc)]
      && (s'.fs == s.fs || TakesOnlyStale(c, s, s'.fs))
  {
    TakeoverUnrolls(c, s, m);
    var s1 := Then(c, s, Stat(m.p, m.noStat));
    if s1.procs[m.p].pc.Statted? {
      var s2 := Then(c, s1, Observe(m.p, m.unreadable));
      assert s2.procs[m.p].pc.Observed?;
      var s3 := Then(c, s2, Decide(m.p));
      if s3.procs[m.p].pc.Doomed? {
        var s4 := Then(c, s3, RenameAway(m.p, m.fails));
        if !m.fails {
          assert s4.fs == TakeAway(s.fs, s.nextId);
        }
      }
    }
  }

  lemma HeartBeatDoes(c: Config, s: State, m: Move)
    requires Conserving(s) && m.HeartBeat? && MoveEnabled(c, s, m)
    ensures var s', x := Do(c, s, m), s.procs[m.p];
      && s'.now == s.now && s'.nextId == s.nextId && |s'.procs| == |s.procs|
      && s'.procs == s.procs[m.p := x.(beat := s'.procs[m.p].beat)]
      && (|| (s'.fs == s.fs && s'.procs[m.p].beat.Quiet?)
          || (&& s.fs.lock.Some?
              && s.fs.dirs[s.fs.lock.value].owner.Some? && s.fs.dirs[s.fs.lock.value].owner.value.id == x.claim.id
              && Some(s'.fs) == WriteOwner(s.fs, m.p, Owner(x.claim.id, s.now), s.now, m.recreate)
              && s'.procs[m.p].beat == Beaten(s.now)))
  {
    var s1 := Then(c, s, BeatRead(m.p, m.unreadable));
    var s2 := Then(c, s1, BeatWrite(m.p, m.fails, m.recreate));
    var es := MoveEvents(m);
    assert es[1..] == [es[1]] && es[1..][1..] == [];
    assert ThenAll(c, s1, es[1..]) == s2;
    assert Do(c, s, m) == s2;
  }

  ghost predicate LockKept(fs: Fs, fs': Fs) {
    InRange(fs) && InRange(fs') && fs'.lock == fs.lock && (fs.lock.Some? ==> fs'.dirs[fs.lock.value] == fs.dirs[fs.lock.value])
  }

  ghost function Mover(m: Move): nat
    requires m.One? ==> !m.e.Tick?
  {
    if m.One? then m.e.p else m.p
  }

  /** Nobody else's move touches the lock path while `p` owns it with a young record. */
  lemma LockKeptFor(c: Config, s: State, m: Move, p: nat)
    requires Guarded(c, s) && Fresh(c, s) && Safe(c, s) && MoveEnabled(c, s, m)
    requires p < |s.procs| && (Claiming(s.procs[p].pc) || Holding(s.procs[p].pc)) && Recent(c, s, p)
    requires (m.One? ==> !m.e.Tick?) && Mover(m) != p
    ensures LockKept(s.fs, Do(c, s, m).fs)
  {
    assert ProcOk(c, s, p);
    var d := s.fs.lock.value;
    match m
    case Takeover(q, _, _, _) =>
      TakeoverDoes(c, s, m);
      assert DirsOk(s);
      assert !IsStale(None, s.fs.dirs[d].mtime, s.now, c.staleMs);
    case HeartBeat(q, _, _, _) =>
      HeartBeatDoes(c, s, m);
      assert ProcOk(c, s, q) && Disjoint(s, p, q);
    case One(e) =>
      OneKeepsLock(c, s, e, p);
  }

  lemma OneKeepsLock(c: Config, s: State, e: Event, p: nat)
    requires Guarded(c, s) && Fresh(c, s) && Safe(c, s) && MoveEnabled(c, s, One(e))
    requires p < |s.procs| && (Claiming(s.procs[p].pc) || Holding(s.procs[p].pc)) && Recent(c, s, p)
    requires !e.Tick? && e.p != p
    ensures LockKept(s.fs, Do(c, s, One(e)).fs)
  {
    OneDoes(c, s, e);
    ConservingAfter(c, s, e);
    assert ProcOk(c, s, p) && ProcOk(c, s, e.p);
    assert c.replacesEmpty ==> Unsuspicious(s, e.p);
    if e.WriteClaim? {
      assert Recent(c, s, e.p);
      OwnersAgree(c, s, p, e.p);
    }
    if e.ReleaseRemove? {
      assert Recent(c, s, e.p);
      OwnersAgree(c, s, p, e.p);
    }
  }

  lemma OneDoes(c: Config, s: State, e: Event)
    requires Enabled(s, e)
    ensures Do(c, s, One(e)) == Apply(c, s, e)
  {
    var es := MoveEvents(One(e));
    assert es[1..] == [];
    assert ThenAll(c, Then(c, s, e), es[1..]) == Then(c, s, e);
  }

  // ----- one move keeps the guard -----

  lemma DoConserves(c: Config, s: State, m: Move)
    requires Conserving(s)
    ensures Conserving(Do(c, s, m))
  {
    ThenAllConserves(c, s, MoveEvents(m));
  }

  lemma OtherOkAfter(c: Config, s: State, m: Move, p: nat)
    requires Guarded(c, s) && Fresh(c, s) && Safe(c, s) && MoveEnabled(c, s, m)
    requires p < |s.procs| && ((m.One? && m.e.Tick?) || Mover(m) != p)
    ensures var s' := Do(c, s, m); |s'.procs| == |s.procs| && InRange(s'.fs) && ProcOk(c, s', p)
  {
    DoConserves(c, s, m);
    assert ProcOk(c, s, p);
    if m.One? { OneDoes(c, s, m.e); }
    if m.Takeover? { TakeoverDoes(c, s, m); }
    if m.HeartBeat? { HeartBeatDoes(c, s, m); }
    if !(m.One? && m.e.Tick?) && (Claiming(s.procs[p].pc) || Holding(s.procs[p].pc)) && Recent(c, s, p) {
      LockKeptFor(c, s, m, p);
    }
  }

  ghost predicate Acquires(e: Event) {
    e.Mkdir? || e.NewClaim? || e.WriteClaim? || e.Confirm? || e.ReadCurrent?
  }

  ghost predicate Releases(e: Event) {
    e.BeatCommit? || e.FinishWork? || e.Fence? || e.ReleaseRead? || e.ReleaseRemove? || e.Stop?
  }

  lemma AcquireOkAfter(c: Config, s: State, e: Event)
    requires Guarded(c, s) && Fresh(c, s) && Safe(c, s) && MoveEnabled(c, s, One(e)) && !e.Tick?
    requires Acquires(e)
    ensures var s' := Apply(c, s, e); |s'.procs| == |s.procs| && InRange(s'.fs) && ProcOk(c, s', e.p)
  {
    ConservingAfter(c, s, e);
    assert ProcOk(c, s, e.p) && PathOk(s, e.p);
    if s.fs.lock.Some? { assert DirsOk(s); assert s.fs.lock.value < |s.fs.dirs|; }
  }

  lemma ReleaseOkAfter(c: Config, s: State, e: Event)
    requires Guarded(c, s) && Fresh(c, s) && Safe(c, s) && MoveEnabled(c, s, One(e)) && !e.Tick?
    requires Releases(e)
    ensures var s' := Apply(c, s, e); |s'.procs| == |s.procs| && InRange(s'.fs) && ProcOk(c, s', e.p)
  {
    ConservingAfter(c, s, e);
    assert ProcOk(c, s, e.p) && PathOk(s, e.p);
  }

  lemma StealMovesOn(c: Config, s: State, e: Event)
    requires Enabled(s, e) && Single(e) && !e.Tick? && !Acquires(e) && !Releases(e)
    ensures var x, x' := s.procs[e.p], Apply(c, s, e).procs[e.p];
      x' == x.(pc := x'.pc) && !Claiming(x'.pc) && !Holding(x'.pc) && !x'.pc.Finished? && !Beats(x.pc) && !x.pc.Stopped?
    ensures Apply(c, s, e).nextId == s.nextId && |Apply(c, s, e).procs| == |s.procs|
  {
  }

  lemma StealOkAfter(c: Config, s: State, e: Event)
    requires Guarded(c, s) && Fresh(c, s) && Safe(c, s) && MoveEnabled(c, s, One(e)) && !e.Tick?
    requires !Acquires(e) && !Releases(e)
    ensures var s' := Apply(c, s, e); |s'.procs| == |s.procs| && InRange(s'.fs) && ProcOk(c, s', e.p)
  {
    ConservingAfter(c, s, e);
    assert ProcOk(c, s, e.p);
    StealMovesOn(c, s, e);
  }

  lemma OneMoverOkAfter(c: Config, s: State, e: Event)
    requires Guarded(c, s) && Fresh(c, s) && Safe(c, s) && MoveEnabled(c, s, One(e)) && !e.Tick?
    ensures var s' := Apply(c, s, e); |s'.procs| == |s.procs| && InRange(s'.fs) && ProcOk(c, s', e.p)
  {
    if Acquires(e) { AcquireOkAfter(c, s, e); }
    else if Releases(e) { ReleaseOkAfter(c, s, e); }
    else { StealOkAfter(c, s, e); }
  }

  lemma MoverOkAfter(c: Config, s: State, m: Move)
    requires Guarded(c, s) && Fresh(c, s) && Safe(c, s) && MoveEnabled(c, s, m)
    requires m.One? ==> !m.e.Tick?
    ensures var s' := Do(c, s, m); |s'.procs| == |s.procs| && InRange(s'.fs) && ProcOk(c, s', Mover(m))
  {
    DoConserves(c, s, m);
    match m
    case One(e) => OneDoes(c, s, e); OneMoverOkAfter(c, s, e);
    case Takeover(_, _, _, _) => TakeoverMoverOk(c, s, m);
    case HeartBeat(_, _, _, _) => HeartBeatMoverOk(c, s, m);
  }

  lemma TakeoverMoverOk(c: Config, s: State, m: Move)
    requires Guarded(c, s) && Fresh(c, s) && Safe(c, s) && MoveEnabled(c, s, m) && m.Takeover?
    requires InRange(Do(c, s, m).fs)
    ensures var s' := Do(c, s, m); |s'.procs| == |s.procs| && ProcOk(c, s', Mover(m))
  {
    assert ProcOk(c, s, Mover(m));
    TakeoverDoes(c, s, m);
  }

  lemma HeartBeatMoverOk(c: Config, s: State, m: Move)
    requires Guarded(c, s) && Fresh(c, s) && Safe(c, s) && MoveEnabled(c, s, m) && m.HeartBeat?
    requires InRange(Do(c, s, m).fs)
    ensures var s' := Do(c, s, m); |s'.procs| == |s.procs| && ProcOk(c, s', Mover(m))
  {
    assert ProcOk(c, s, Mover(m));
    HeartBeatDoes(c, s, m);
  }

  lemma DirsOkAfter(c: Config, s: State, m: Move)
    requires Guarded(c, s) && MoveEnabled(c, s, m)
    ensures DirsOk(Do(c, s, m))
  {
    if m.One? {
      OneDoes(c, s, m.e);
      if !m.e.Tick? { assert ProcOk(c, s, m.e.p); }
    }
    if m.Takeover? { TakeoverDoes(c, s, m); }
    if m.HeartBeat? { HeartBeatDoes(c, s, m); }
  }

  lemma DisjointAfter(c: Config, s: State, m: Move, p: nat, q: nat)
    requires Guarded(c, s) && MoveEnabled(c, s, m) && p < |s.procs| && q < |s.procs| && p != q
    ensures |Do(c, s, m).procs| == |s.procs| && Disjoint(Do(c, s, m), p, q)
  {
    assert ProcOk(c, s, p) && ProcOk(c, s, q) && Disjoint(s, p, q);
    if m.One? { OneDoes(c, s, m.e); }
    if m.Takeover? { TakeoverDoes(c, s, m); }
    if m.HeartBeat? { HeartBeatDoes(c, s, m); }
  }

  lemma GuardedAfter(c: Config, s: State, m: Move)
    requires Guarded(c, s) && Fresh(c, s) && Safe(c, s) && MoveEnabled(c, s, m)
    ensures Guarded(c, Do(c, s, m))
  {
    DoConserves(c, s, m);
    DirsOkAfter(c, s, m);
    var s' := Do(c, s, m);
    assert |s'.procs| == |s.procs| by {
      if m.One? { OneDoes(c, s, m.e); }
      if m.Takeover? { TakeoverDoes(c, s, m); }
      if m.HeartBeat? { HeartBeatDoes(c, s, m); }
    }
    forall p: nat | p < |s'.procs| ensures ProcOk(c, s', p) {
      if (m.One? && m.e.Tick?) || Mover(m) != p { OtherOkAfter(c, s, m, p); } else { MoverOkAfter(c, s, m); }
    }
    forall p: nat, q: nat | p < |s'.procs| && q < |s'.procs| && p != q ensures Disjoint(s', p, q) {
      DisjointAfter(c, s, m, p, q);
    }
  }

  // ----- no suspicion without a misread -----

  /** The observation of every takeover reads the record that is there. */
  ghost predicate Reads(m: Move) {
    match m
    case One(e) => !e.Observe? || !e.unreadable
    case Takeover(_, _, unreadable, _) => !unreadable
    case HeartBeat(_, _, _, _) => true
  }

  /** A takeover that could read the record holds a directory with exactly that record. */
  lemma TakeoverHolds(c: Config, s: State, m: Move)
    requires Conserving(s) && m.Takeover? && MoveEnabled(c, s, m) && !m.unreadable
    ensures var s' := Do(c, s, m);
      InRange(s'.fs) && m.p < |s'.procs| && Unsuspicious(s', m.p)
  {
    DoConserves(c, s, m);
    TakeoverUnrolls(c, s, m);
    var s1 := Then(c, s, Stat(m.p, m.noStat));
    if s1.procs[m.p].pc.Statted? {
      var s2 := Then(c, s1, Observe(m.p, m.unreadable));
      assert s2.procs[m.p].pc.Observed? && s2.procs[m.p].pc.observed == LockOwner(s.fs, false);
      var s3 := Then(c, s2, Decide(m.p));
      if s3.procs[m.p].pc.Doomed? {
        var s4 := Then(c, s3, RenameAway(m.p, m.fails));
        assert !m.fails ==> s4.fs == TakeAway(s.fs, s.nextId);
      }
    }
  }

  lemma OneUnsuspicious(c: Config, s: State, e: Event, p: nat)
    requires Conserving(s) && Enabled(s, e) && Single(e) && p < |s.procs| && Unsuspicious(s, p)
    ensures var s' := Apply(c, s, e); |s'.procs| == |s.procs| && InRange(s'.fs) && Unsuspicious(s', p)
  {
    ConservingAfter(c, s, e);
    assert PathOk(s, p);
    var pc := s.procs[p].pc;
    if pc.Taken? && (e.Tick? || e.p != p) {
      assert !e.Tick? && PathOf(s.procs[e.p].pc).Some? ==> PathOf(s.procs[e.p].pc) != PathOf(pc);
      PrivateKept(c, s, e, pc.path);
    }
  }

  lemma OtherUnsuspicious(c: Config, s: State, m: Move, p: nat)
    requires Conserving(s) && MoveEnabled(c, s, m) && !m.One? && p < |s.procs| && m.p != p && Unsuspicious(s, p)
    ensures var s' := Do(c, s, m); |s'.procs| == |s.procs| && InRange(s'.fs) && Unsuspicious(s', p)
  {
    DoConserves(c, s, m);
    assert PathOk(s, p);
    if m.Takeover? { TakeoverDoes(c, s, m); }
    if m.HeartBeat? { HeartBeatDoes(c, s, m); }
  }

  lemma SafeAfter(c: Config, s: State, m: Move)
    requires Conserving(s) && Safe(c, s) && MoveEnabled(c, s, m) && (c.replacesEmpty ==> Reads(m))
    ensures Safe(c, Do(c, s, m))
  {
    if c.replacesEmpty {
      DoConserves(c, s, m);
      var s' := Do(c, s, m);
      if m.Takeover? { TakeoverDoes(c, s, m); }
      if m.HeartBeat? { HeartBeatDoes(c, s, m); }
      if m.One? { OneDoes(c, s, m.e); }
      forall p: nat | p < |s'.procs| ensures Unsuspicious(s', p) {
        assert p < |s.procs| ==> Unsuspicious(s, p);
        if m.One? { OneUnsuspicious(c, s, m.e, p); }
        else if m.p != p { OtherUnsuspicious(c, s, m, p); }
        else if m.Takeover? { TakeoverHolds(c, s, m); }
      }
    }
  }

  // ----- every run -----

  /** A run of moves in which every state satisfies the freshness assumption. */
  ghost predicate FreshRun(c: Config, s: State, ms: seq<Move>, t: State)
    decreases |ms|
  {
    Fresh(c, s) &&
    if ms == [] then s == t
    else MoveEnabled(c, s, ms[0]) && FreshRun(c, Do(c, s, ms[0]), ms[1..], t)
  }

  /** Where a rename may replace an empty directory, no takeover misreads the record it judges. */
  ghost predicate Careful(c: Config, ms: seq<Move>) {
    c.replacesEmpty ==> forall i :: 0 <= i < |ms| ==> Reads(ms[i])
  }

  lemma {:induction false} RunGuarded(c: Config, s: State, ms: seq<Move>, t: State)
    requires Guarded(c, s) && Safe(c, s) && Careful(c, ms) && FreshRun(c, s, ms, t)
    ensures Guarded(c, t) && Fresh(c, t) && Safe(c, t)
    decreases |ms|
  {
    if ms != [] {
      GuardedAfter(c, s, ms[0]);
      SafeAfter(c, s, ms[0]);
      RunGuarded(c, Do(c, s, ms[0]), ms[1..], t);
    }
  }

  lemma StartGuarded(c: Config, n: nat, now: real, ms: seq<Move>, s: State)
    requires Careful(c, ms) && FreshRun(c, Init(n, now), ms, s)
    ensures Guarded(c, s) && Fresh(c, s) && Safe(c, s)
  {
    var s0 := Init(n, now);
    assert forall p: nat :: p < n ==> s0.procs[p] == Proc(Idle, {}, Owner(0, now), Quiet);
    InitGuarded(c, s0, now);
    RunGuarded(c, s0, ms, s);
  }

  lemma InitGuarded(c: Config, s: State, now: real)
    requires s.fs == Fs(None, map[], [], {})
    requires forall p: nat :: p < |s.procs| ==> s.procs[p] == Proc(Idle, {}, Owner(0, now), Quiet)
    ensures Guarded(c, s) && Safe(c, s)
  {
  }

  /** At most one process is inside `work()`, for any number of processes and any such run. */
  lemma MutualExclusion(c: Config, n: nat, now: real, ms: seq<Move>, s: State, p: nat, q: nat)
    requires Careful(c, ms) && FreshRun(c, Init(n, now), ms, s)
    requires p < |s.procs| && q < |s.procs|
    requires s.procs[p].pc.Working? && s.procs[q].pc.Working?
    ensures p == q
  {
    StartGuarded(c, n, now, ms, s);
    assert ProcOk(c, s, p) && ProcOk(c, s, q);
    OwnersAgree(c, s, p, q);
  }

  /** A release that acts within the margin of its fence check removes the releaser's own directory. */
  lemma ReleaseRemovesOwn(c: Config, n: nat, now: real, ms: seq<Move>, s: State, e: Event)
    requires Careful(c, ms) && FreshRun(c, Init(n, now), ms, s)
    requires e.ReleaseRemove? && MoveEnabled(c, s, One(e))
    ensures s.fs.lock.Some?
    ensures var o := s.fs.dirs[s.fs.lock.value].owner; o.Some? && o.value.id == s.procs[e.p].claim.id
    ensures forall q: nat :: q < |s.procs| && q != e.p ==> !s.procs[q].pc.Working? && !Claiming(s.procs[q].pc)
  {
    StartGuarded(c, n, now, ms, s);
    GuardedRelease(c, s, e);
  }

  lemma GuardedRelease(c: Config, s: State, e: Event)
    requires Guarded(c, s) && Fresh(c, s) && e.ReleaseRemove? && MoveEnabled(c, s, One(e))
    ensures s.fs.lock.Some?
    ensures var o := s.fs.dirs[s.fs.lock.value].owner; o.Some? && o.value.id == s.procs[e.p].claim.id
    ensures forall q: nat :: q < |s.procs| && q != e.p ==> !s.procs[q].pc.Working? && !Claiming(s.procs[q].pc)
  {
    assert ProcOk(c, s, e.p);
    assert Recent(c, s, e.p);
    forall q: nat | q < |s.procs| && q != e.p
      ensures !s.procs[q].pc.Working? && !Claiming(s.procs[q].pc)
    {
      assert ProcOk(c, s, q);
      if s.procs[q].pc.Working? || Claiming(s.procs[q].pc) {
        OwnersAgree(c, s, q, e.p);
      }
    }
  }

  // ----- the moves are runs of the fully interleaved system -----

  lemma {:induction false} RunExtend(c: Config, s: State, es: seq<Event>, t: State, e: Event)
    requires Run(c, s, es, t) && Enabled(t, e)
    ensures Run(c, s, es + [e], Apply(c, t, e))
    decreases |es|
  {
    if es == [] {
      assert ([e])[1..] == [];
    } else {
      assert (es + [e])[1..] == es[1..] + [e];
      RunExtend(c, Apply(c, s, es[0]), es[1..], t, e);
    }
  }

  lemma {:induction false} ThenAllIsRun(c: Config, s: State, es: seq<Event>, t: State, next: seq<Event>)
    returns (es': seq<Event>)
    requires Run(c, s, es, t)
    ensures Run(c, s, es', ThenAll(c, t, next))
    decreases |next|
  {
    es' := es;
    if next != [] {
      if Enabled(t, next[0]) {
        RunExtend(c, s, es, t, next[0]);
        es' := es + [next[0]];
      }
      es' := ThenAllIsRun(c, s, es', Then(c, t, next[0]), next[1..]);
    }
  }

  // ----- which assumptions exclusion needs -----

  /** Which assumptions a run keeps: whether takeovers and heartbeats are one step each, claiming and working
      processes keep their records young, and a release removes within the margin; and whether a takeover may
      misread the record it judges. */
  datatype Grain = Grain(wholeTakeovers: bool, wholeHeartBeats: bool, young: bool, prompt: bool, misreads: bool)

  ghost predicate Splits(g: Grain, e: Event) {
    || (!g.wholeTakeovers && (e.Stat? || e.Observe? || e.Decide? || e.RenameAway?))
    || (!g.wholeHeartBeats && (e.BeatRead? || e.BeatWrite?))
  }

  ghost predicate Allowed(c: Config, g: Grain, s: State, m: Move) {
    && (g.misreads || Reads(m))
    && (MoveEnabled(c, s, m) || (m.One? && (Splits(g, m.e) || (!g.prompt && m.e.ReleaseRemove?)) && Enabled(s, m.e)))
  }

  ghost predicate Kept(c: Config, g: Grain, s: State) { g.young ==> Fresh(c, s) }

  /** A run that keeps these assumptions in every state. */
  ghost predicate GrainRun(c: Config, g: Grain, s: State, ms: seq<Move>, t: State)
    decreases |ms|
  {
    Kept(c, g, s) &&
    if ms == [] then s == t
    else Allowed(c, g, s, ms[0]) && GrainRun(c, g, Do(c, s, ms[0]), ms[1..], t)
  }

  /** At every grain these are real runs: each is a run of single file-system calls. */
  lemma {:induction false} MovesAreRuns(c: Config, g: Grain, s: State, es: seq<Event>, t: State, ms: seq<Move>, u: State)
    returns (es': seq<Event>)
    requires Run(c, s, es, t) && GrainRun(c, g, t, ms, u)
    ensures Run(c, s, es', u)
    decreases |ms|
  {
    es' := es;
    if ms != [] {
      es' := ThenAllIsRun(c, s, es, t, MoveEvents(ms[0]));
      es' := MovesAreRuns(c, g, s, es', Do(c, t, ms[0]), ms[1..], u);
    }
  }

  lemma {:induction false} WholeRun(c: Config, g: Grain, s: State, ms: seq<Move>, t: State)
    requires g.wholeTakeovers && g.wholeHeartBeats && g.young && g.prompt && (c.replacesEmpty ==> !g.misreads) && GrainRun(c, g, s, ms, t)
    ensures FreshRun(c, s, ms, t) && Careful(c, ms)
    decreases |ms|
  {
    if ms != [] { WholeRun(c, g, Do(c, s, ms[0]), ms[1..], t); }
  }

  /** `r` holds of every state that a move allowed at this grain reaches from a state it holds of. */
  ghost predicate Closed(c: Config, g: Grain, r: State -> bool) {
    forall s, m :: r(s) && Allowed(c, g, s, m) && Kept(c, g, Do(c, s, m)) ==> r(Do(c, s, m))
  }

  ghost function At(s: State, p: nat, x: Proc, fs: Fs, n: nat): State
    requires p < |s.procs|
  {
    s.(procs := s.procs[p := x], fs := fs, nextId := n)
  }

  ghost predicate Young(c: Config, s: State, x: Proc) {
    Claiming(x.pc) || x.pc.Working? ==> s.now - Since(x) <= c.staleMs
  }

  lemma Step(c: Config, g: Grain, r: State -> bool, s: State, e: Event) returns (s': State)
    requires Closed(c, g, r) && r(s) && Allowed(c, g, s, One(e)) && Kept(c, g, s) && !e.Tick?
    requires Young(c, s, Effect(c, s, e).0)
    ensures s' == Apply(c, s, e) && r(s') && Kept(c, g, s')
  {
    s' := Apply(c, s, e);
    OneDoes(c, s, e);
    forall p: nat | g.young && p < |s'.procs| && (Claiming(s'.procs[p].pc) || s'.procs[p].pc.Working?) ensures Recent(c, s', p) {
      assert p != e.p ==> s'.procs[p] == s.procs[p] && Recent(c, s, p);
    }
  }

  /** An idle process enters a free lock. */
  lemma Enter(c: Config, g: Grain, r: State -> bool, s: State, p: nat) returns (s': State)
    requires Closed(c, g, r) && r(s) && Kept(c, g, s) && c.staleMs >= 0.0
    requires InRange(s.fs) && s.fs.lock.None? && p < |s.procs| && s.procs[p].pc.Idle? && s.procs[p].beat.Quiet?
    ensures r(s') && Kept(c, g, s')
    ensures var o := Owner(s.nextId, s.now);
      s' == At(s, p, Proc(Working, s.procs[p].claims + {s.nextId}, o, Quiet),
               WithNewDir(s.fs, Dir(p, Some(o), s.now)), s.nextId + 1)
  {
    var x, o := s.procs[p], Owner(s.nextId, s.now);
    s' := Claim(c, g, r, s, p);
    s' := Step(c, g, r, s', WriteClaim(p, false));
    var fs := WithNewDir(s.fs, Dir(p, Some(o), s.now));
    assert s' == At(s, p, Proc(Written, x.claims + {s.nextId}, o, Quiet), fs, s.nextId + 1);
    s' := Step(c, g, r, s', Confirm(p, false));
  }

  /** An idle process creates the lock directory and chooses its token. */
  lemma Claim(c: Config, g: Grain, r: State -> bool, s: State, p: nat) returns (s': State)
    requires Closed(c, g, r) && r(s) && Kept(c, g, s) && c.staleMs >= 0.0
    requires InRange(s.fs) && s.fs.lock.None? && p < |s.procs| && s.procs[p].pc.Idle? && s.procs[p].beat.Quiet?
    ensures r(s') && Kept(c, g, s')
    ensures s' == At(s, p, Proc(Claimed(s.now), s.procs[p].claims + {s.nextId}, Owner(s.nextId, s.now), Quiet),
                     WithNewDir(s.fs, Dir(p, None, s.now)), s.nextId + 1)
  {
    s' := Step(c, g, r, s, Mkdir(p, false));
    assert s' == At(s, p, s.procs[p].(pc := Made(s.now)), WithNewDir(s.fs, Dir(p, None, s.now)), s.nextId);
    s' := Step(c, g, r, s', NewClaim(p));
  }

  /** An idle process finds the lock held by somebody else and turns to a takeover. */
  lemma Probe(c: Config, g: Grain, r: State -> bool, s: State, p: nat) returns (s': State)
    requires Closed(c, g, r) && r(s) && Kept(c, g, s)
    requires InRange(s.fs) && s.fs.lock.Some? && p < |s.procs| && s.procs[p].pc.Idle?
    requires var o := s.fs.dirs[s.fs.lock.value].owner; o.Some? && o.value.id !in s.procs[p].claims
    ensures r(s') && Kept(c, g, s') && s' == At(s, p, s.procs[p].(pc := Probing), s.fs, s.nextId)
  {
    s' := Step(c, g, r, s, Mkdir(p, false));
    assert s' == At(s, p, s.procs[p].(pc := Occupied), s.fs, s.nextId);
    s' := Step(c, g, r, s', ReadCurrent(p, false));
  }

  /** It finds the record stale, one call at a time. */
  lemma JudgeStale(c: Config, g: Grain, r: State -> bool, s: State, p: nat) returns (s': State)
    requires Closed(c, g, r) && r(s) && Kept(c, g, s) && !g.wholeTakeovers
    requires InRange(s.fs) && s.fs.lock.Some? && p < |s.procs| && s.procs[p].pc.Idle?
    requires var o := s.fs.dirs[s.fs.lock.value].owner;
      o.Some? && o.value.id !in s.procs[p].claims && s.now - o.value.createdAt > c.staleMs
    ensures r(s') && Kept(c, g, s')
    ensures var o := s.fs.dirs[s.fs.lock.value].owner;
      s' == At(s, p, s.procs[p].(pc := Doomed(o, s.nextId)), s.fs, s.nextId + 1)
  {
    var x, d := s.procs[p], s.fs.dirs[s.fs.lock.value];
    s' := Probe(c, g, r, s, p);
    s' := Step(c, g, r, s', Stat(p, false));
    assert s' == At(s, p, x.(pc := Statted(d.mtime)), s.fs, s.nextId);
    s' := Step(c, g, r, s', Observe(p, false));
    assert s' == At(s, p, x.(pc := Observed(d.mtime, d.owner)), s.fs, s.nextId);
    s' := Step(c, g, r, s', Decide(p));
  }

  /** A process that judged some record stale moves the present directory away, whichever it is. */
  lemma MoveAway(c: Config, g: Grain, r: State -> bool, s: State, p: nat) returns (s': State)
    requires Closed(c, g, r) && r(s) && Kept(c, g, s) && !g.wholeTakeovers
    requires InRange(s.fs) && s.fs.lock.Some? && p < |s.procs| && s.procs[p].pc.Doomed?
    ensures r(s') && Kept(c, g, s')
    ensures var x := s.procs[p];
      s' == At(s, p, x.(pc := Taken(x.pc.observed, x.pc.path)), TakeAway(s.fs, x.pc.path), s.nextId)
  {
    s' := Step(c, g, r, s, RenameAway(p, false));
  }

  /** An idle process takes a stale directory over in one step, by its record or, misread, by its age. */
  lemma TakeOver(c: Config, g: Grain, r: State -> bool, s: State, p: nat, misread: bool) returns (s': State)
    requires Closed(c, g, r) && r(s) && Kept(c, g, s) && (misread ==> g.misreads)
    requires InRange(s.fs) && s.fs.lock.Some? && p < |s.procs| && s.procs[p].pc.Idle?
    requires var d := s.fs.dirs[s.fs.lock.value];
      && d.owner.Some? && d.owner.value.id !in s.procs[p].claims
      && IsStale(if misread then None else d.owner, d.mtime, s.now, c.staleMs)
    ensures r(s') && Kept(c, g, s')
    ensures var o := if misread then None else s.fs.dirs[s.fs.lock.value].owner;
      s' == At(s, p, s.procs[p].(pc := Taken(o, s.nextId)), TakeAway(s.fs, s.nextId), s.nextId + 1)
  {
    var s0 := Probe(c, g, r, s, p);
    var m := Takeover(p, false, misread, false);
    s' := Do(c, s0, m);
    TakenInOneStep(c, s0, p, misread);
    assert Allowed(c, g, s0, m);
    forall q: nat | g.young && q < |s'.procs| && (Claiming(s'.procs[q].pc) || s'.procs[q].pc.Working?) ensures Recent(c, s', q) {
      assert q != p && s'.procs[q] == s.procs[q] && Recent(c, s, q);
    }
  }

  lemma TakenInOneStep(c: Config, s: State, p: nat, misread: bool)
    requires InRange(s.fs) && s.fs.lock.Some? && p < |s.procs| && s.procs[p].pc.Probing?
    requires var d := s.fs.dirs[s.fs.lock.value]; IsStale(if misread then None else d.owner, d.mtime, s.now, c.staleMs)
    ensures var o := if misread then None else s.fs.dirs[s.fs.lock.value].owner;
      Do(c, s, Takeover(p, false, misread, false))
        == At(s, p, s.procs[p].(pc := Taken(o, s.nextId)), TakeAway(s.fs, s.nextId), s.nextId + 1)
  {
    TakeoverUnrolls(c, s, Takeover(p, false, misread, false));
    var o := if misread then None else s.fs.dirs[s.fs.lock.value].owner;
    var s3 := Judged(c, s, p, misread);
    assert Then(c, s3, RenameAway(p, false)) == At(s, p, s.procs[p].(pc := Taken(o, s.nextId)), TakeAway(s.fs, s.nextId), s.nextId + 1);
  }

  lemma Judged(c: Config, s: State, p: nat, misread: bool) returns (s3: State)
    requires InRange(s.fs) && s.fs.lock.Some? && p < |s.procs| && s.procs[p].pc.Probing?
    requires var d := s.fs.dirs[s.fs.lock.value]; IsStale(if misread then None else d.owner, d.mtime, s.now, c.staleMs)
    ensures s3 == Then(c, Then(c, Then(c, s, Stat(p, false)), Observe(p, misread)), Decide(p))
    ensures var o := if misread then None else s.fs.dirs[s.fs.lock.value].owner;
      s3 == At(s, p, s.procs[p].(pc := Doomed(o, s.nextId)), s.fs, s.nextId + 1)
  {
    var x, d := s.procs[p], s.fs.dirs[s.fs.lock.value];
    var s1 := Then(c, s, Stat(p, false));
    assert s1 == At(s, p, x.(pc := Statted(d.mtime)), s.fs, s.nextId);
    var s2 := Then(c, s1, Observe(p, misread));
    assert s2 == At(s, p, x.(pc := Observed(d.mtime, if misread then None else d.owner)), s.fs, s.nextId);
    s3 := Then(c, s2, Decide(p));
  }

  /** A process removes what it took, which carries the record it had judged. */
  lemma ThrowAway(c: Config, g: Grain, r: State -> bool, s: State, p: nat) returns (s': State)
    requires Closed(c, g, r) && r(s) && Kept(c, g, s) && InRange(s.fs) && p < |s.procs|
    requires s.procs[p].pc.Taken? && s.procs[p].pc.path in s.fs.privates
    requires s.fs.dirs[s.fs.privates[s.procs[p].pc.path]].owner == s.procs[p].pc.observed
    ensures r(s') && Kept(c, g, s')
    ensures s' == At(s, p, s.procs[p].(pc := Idle), RemovePrivate(s.fs, s.procs[p].pc.path), s.nextId)
  {
    var x := s.procs[p];
    s' := Step(c, g, r, s, ReadStolen(p, false));
    assert s' == At(s, p, x.(pc := Discarding(x.pc.observed, x.pc.path, NotForeign, false)), s.fs, s.nextId);
    s' := DiscardAndRetry(c, g, r, s', p);
  }

  lemma DiscardAndRetry(c: Config, g: Grain, r: State -> bool, s: State, p: nat) returns (s': State)
    requires Closed(c, g, r) && r(s) && Kept(c, g, s) && InRange(s.fs) && p < |s.procs|
    requires s.procs[p].pc.Discarding? && s.procs[p].pc.path in s.fs.privates
    ensures r(s') && Kept(c, g, s')
    ensures s' == At(s, p, s.procs[p].(pc := Idle), RemovePrivate(s.fs, s.procs[p].pc.path), s.nextId)
  {
    var x := s.procs[p];
    s' := Step(c, g, r, s, Discard(p, false));
    assert s' == At(s, p, x.(pc := Waiting), RemovePrivate(s.fs, x.pc.path), s.nextId);
    s' := Step(c, g, r, s', Retry(p));
  }

  const NEW: Proc := Proc(Idle, {}, Owner(0, 0.0), Quiet)

  ghost predicate Setting(c: Config, g: Grain, r: State -> bool) {
    c.staleMs == 4.0 && Closed(c, g, r) && r(Init(4, 0.0))
  }

  /** Process 0 dies holding the lock; its record is stale five seconds later. */
  lemma DeadHolder(c: Config, g: Grain, r: State -> bool) returns (s: State)
    requires Setting(c, g, r)
    ensures r(s) && Kept(c, g, s)
    ensures s == State(5.0, Fs(Some(0), map[], [Dir(0, Some(Owner(0, 0.0)), 0.0)], {}),
                       [Proc(Stopped, {0}, Owner(0, 0.0), Quiet), NEW, NEW, NEW], 1)
  {
    s := Init(4, 0.0);
    s := Enter(c, g, r, s, 0);
    s := Step(c, g, r, s, Stop(0));
    assert {} + {0} == {0};
    assert s.procs == [Proc(Stopped, {0}, Owner(0, 0.0), Quiet), NEW, NEW, NEW];
    assert s.fs == Fs(Some(0), map[], [Dir(0, Some(Owner(0, 0.0)), 0.0)], {});
    s := Wait(c, g, r, s, 5.0);
  }

  lemma Wait(c: Config, g: Grain, r: State -> bool, s: State, dt: real) returns (s': State)
    requires Closed(c, g, r) && r(s) && dt >= 0.0 && InRange(s.fs)
    requires forall p: nat :: p < |s.procs| ==> !Claiming(s.procs[p].pc) && !s.procs[p].pc.Working?
    ensures s' == s.(now := s.now + dt) && r(s') && Kept(c, g, s')
  {
    s' := Apply(c, s, Tick(dt));
    OneDoes(c, s, Tick(dt));
    assert Allowed(c, g, s, One(Tick(dt)));
  }

  // ----- interrupted takeovers -----

  /** Process 1 judges that record stale, but before it renames, process 2 takes the dead lock over,
      removes it and enters. The rename of process 1 then moves the live directory away. */
  lemma LiveTaken(c: Config, g: Grain, r: State -> bool) returns (s: State)
    requires Setting(c, g, r) && !g.wholeTakeovers
    ensures r(s) && Kept(c, g, s) && InRange(s.fs) && s.now == 5.0 && s.fs.lock.None? && |s.procs| == 4
    ensures s.procs[1].pc == Taken(Some(Owner(0, 0.0)), 1) && 1 in s.fs.privates
    ensures s.fs.dirs[s.fs.privates[1]].owner == Some(s.procs[2].claim)
    ensures s.procs[2].pc.Working? && s.procs[2].claim == Owner(3, 5.0) && s.procs[3] == NEW
  {
    s := DeadHolder(c, g, r);
    s := JudgeStale(c, g, r, s, 1);
    s := JudgeStale(c, g, r, s, 2);
    s := MoveAway(c, g, r, s, 2);
    s := ThrowAway(c, g, r, s, 2);
    s := Enter(c, g, r, s, 2);
    s := MoveAway(c, g, r, s, 1);
  }

  /** While process 1 holds the live directory of process 2 aside, process 3 enters. */
  lemma TakeoverInterrupted(c: Config, g: Grain, r: State -> bool) returns (s: State)
    requires Setting(c, g, r) && !g.wholeTakeovers
    ensures r(s) && |s.procs| == 4 && s.procs[2].pc.Working? && s.procs[3].pc.Working?
  {
    s := LiveTaken(c, g, r);
    s := Enter(c, g, r, s, 3);
  }

  // ----- interrupted heartbeats -----

  /** A working process with a record of this very moment releases the lock. */
  lemma Leave(c: Config, g: Grain, r: State -> bool, s: State, p: nat) returns (s': State)
    requires Closed(c, g, r) && r(s) && Kept(c, g, s) && c.staleMs == 4.0
    requires InRange(s.fs) && s.fs.lock.Some? && p < |s.procs| && s.procs[p].pc.Working? && s.procs[p].claim.createdAt == s.now
    requires s.fs.dirs[s.fs.lock.value].owner == Some(s.procs[p].claim)
    ensures r(s') && Kept(c, g, s') && s' == At(s, p, s.procs[p].(pc := Finished), RemoveLock(s.fs), s.nextId)
  {
    s' := CheckRelease(c, g, r, s, p);
    s' := Step(c, g, r, s', ReleaseRemove(p, false));
  }

  /** It finds its fence open and its record unchanged. */
  lemma CheckRelease(c: Config, g: Grain, r: State -> bool, s: State, p: nat) returns (s': State)
    requires Closed(c, g, r) && r(s) && Kept(c, g, s) && c.staleMs == 4.0
    requires InRange(s.fs) && s.fs.lock.Some? && p < |s.procs| && s.procs[p].pc.Working? && s.procs[p].claim.createdAt == s.now
    requires s.fs.dirs[s.fs.lock.value].owner == Some(s.procs[p].claim)
    ensures r(s') && Kept(c, g, s') && s' == At(s, p, s.procs[p].(pc := Removing(s.now)), s.fs, s.nextId)
  {
    s' := PassFence(c, g, r, s, p);
    s' := Step(c, g, r, s', ReleaseRead(p, false));
  }

  lemma PassFence(c: Config, g: Grain, r: State -> bool, s: State, p: nat) returns (s': State)
    requires Closed(c, g, r) && r(s) && Kept(c, g, s) && c.staleMs == 4.0
    requires InRange(s.fs) && p < |s.procs| && s.procs[p].pc.Working? && s.procs[p].claim.createdAt == s.now
    ensures r(s') && Kept(c, g, s') && s' == At(s, p, s.procs[p].(pc := Fenced(s.now)), s.fs, s.nextId)
  {
    s' := Step(c, g, r, s, FinishWork(p));
    assert s' == At(s, p, s.procs[p].(pc := Releasing), s.fs, s.nextId);
    s' := Step(c, g, r, s', Fence(p));
  }

  /** Process 1 enters, begins a heartbeat, and releases before the heartbeat writes. */
  lemma BeatOutlivesRelease(c: Config, g: Grain, r: State -> bool) returns (s: State)
    requires Setting(c, g, r) && !g.wholeHeartBeats
    ensures r(s) && Kept(c, g, s) && s.now == 5.0 && InRange(s.fs) && s.fs.lock.None? && s.fs.privates == map[] && s.nextId == 1
    ensures s.procs == [NEW, Proc(Finished, {0}, Owner(0, 0.0), Beating(0.0)), NEW, NEW]
  {
    s := Init(4, 0.0);
    s := Enter(c, g, r, s, 1);
    assert {} + {0} == {0};
    var x := Proc(Working, {0}, Owner(0, 0.0), Quiet);
    assert s.procs == [NEW, x, NEW, NEW] && s.fs == Fs(Some(0), map[], [Dir(1, Some(Owner(0, 0.0)), 0.0)], {});
    s := Step(c, g, r, s, BeatRead(1, false));
    assert s.procs == [NEW, x.(beat := Beating(0.0)), NEW, NEW];
    s := Leave(c, g, r, s, 1);
    s := Wait(c, g, r, s, 5.0);
  }

  /** The late write gives the live directory of process 2 an old record, and process 3 takes it over. */
  lemma HeartBeatInterrupted(c: Config, g: Grain, r: State -> bool) returns (s: State)
    requires Setting(c, g, r) && !g.wholeHeartBeats
    ensures r(s) && |s.procs| == 4 && s.procs[2].pc.Working? && s.procs[3].pc.Working?
  {
    s := BeatOutlivesRelease(c, g, r);
    s := Enter(c, g, r, s, 2);
    s := Step(c, g, r, s, BeatWrite(1, false, false));
    assert s.fs.dirs[s.fs.lock.value].owner == Some(Owner(0, 0.0));
    s := TakeOver(c, g, r, s, 3, false);
    s := ThrowAway(c, g, r, s, 3);
    s := Enter(c, g, r, s, 3);
  }

  // ----- misread records -----

  /** Process 1 cannot read the dead record, takes the directory over by its age, and then reads a record
      it does not expect; before it puts the directory back, process 2 creates the lock. */
  lemma PutBackOver(c: Config, g: Grain, r: State -> bool) returns (s: State)
    requires Setting(c, g, r) && g.misreads && c.replacesEmpty
    ensures r(s) && Kept(c, g, s) && s.now == 5.0 && InRange(s.fs) && |s.procs| == 4 && s.nextId == 3
    ensures s.fs.lock.Some? && s.fs.dirs[s.fs.lock.value].owner == Some(Owner(0, 0.0)) && s.fs.privates == map[]
    ensures s.procs[2] == Proc(Claimed(5.0), {2}, Owner(2, 5.0), Quiet) && s.procs[3] == NEW
  {
    s := DeadHolder(c, g, r);
    s := TakeOver(c, g, r, s, 1, true);
    s := Suspects(c, g, r, s, 1);
    s := Claim(c, g, r, s, 2);
    assert {} + {2} == {2};
    s := PutsBack(c, g, r, s, 1);
  }

  /** A process that saw no record finds one in what it took, and the lock path free. */
  lemma Suspects(c: Config, g: Grain, r: State -> bool, s: State, p: nat) returns (s': State)
    requires Closed(c, g, r) && r(s) && Kept(c, g, s) && InRange(s.fs) && s.fs.lock.None? && p < |s.procs|
    requires s.procs[p].pc.Taken? && s.procs[p].pc.observed.None? && s.procs[p].pc.path in s.fs.privates
    requires s.fs.dirs[s.fs.privates[s.procs[p].pc.path]].owner.Some?
    ensures r(s') && Kept(c, g, s') && s' == At(s, p, s.procs[p].(pc := Restoring(None, s.procs[p].pc.path)), s.fs, s.nextId)
  {
    var x := s.procs[p];
    s' := Step(c, g, r, s, ReadStolen(p, false));
    assert s' == At(s, p, x.(pc := Suspect(None, x.pc.path)), s.fs, s.nextId);
    s' := Step(c, g, r, s', CheckFree(p));
  }

  /** Its rename replaces the empty directory that has meanwhile been created. */
  lemma PutsBack(c: Config, g: Grain, r: State -> bool, s: State, p: nat) returns (s': State)
    requires Closed(c, g, r) && r(s) && Kept(c, g, s) && InRange(s.fs) && p < |s.procs| && c.replacesEmpty
    requires s.fs.lock.Some? && s.fs.dirs[s.fs.lock.value].owner.None?
    requires s.procs[p].pc.Restoring? && s.procs[p].pc.path in s.fs.privates
    ensures r(s') && Kept(c, g, s') && s' == At(s, p, s.procs[p].(pc := Waiting), PutBack(s.fs, s.procs[p].pc.path), s.nextId)
  {
    s' := Step(c, g, r, s, Restore(p, false));
  }

  /** Process 3 takes the dead directory over again and enters; process 2, whose directory was replaced,
      writes its record over that of process 3 and enters too. */
  lemma MisreadReplaces(c: Config, g: Grain, r: State -> bool) returns (s: State)
    requires Setting(c, g, r) && g.misreads && c.replacesEmpty
    ensures r(s) && |s.procs| == 4 && s.procs[2].pc.Working? && s.procs[3].pc.Working?
  {
    s := PutBackOver(c, g, r);
    s := TakeOver(c, g, r, s, 3, false);
    s := ThrowAway(c, g, r, s, 3);
    s := Enter(c, g, r, s, 3);
    s := WriteOver(c, g, r, s, 2);
  }

  /** A process that has claimed a directory writes its record into whatever is at the lock path. */
  lemma WriteOver(c: Config, g: Grain, r: State -> bool, s: State, p: nat) returns (s': State)
    requires Closed(c, g, r) && r(s) && Kept(c, g, s) && c.staleMs >= 0.0 && InRange(s.fs) && s.fs.lock.Some? && p < |s.procs|
    requires s.procs[p].pc.Claimed? && s.procs[p].claim.createdAt == s.now && s.procs[p].beat.Quiet?
    ensures r(s') && |s'.procs| == |s.procs| && s'.procs[p].pc.Working?
    ensures forall q: nat :: q < |s.procs| && q != p ==> s'.procs[q] == s.procs[q]
  {
    s' := Step(c, g, r, s, WriteClaim(p, false));
    assert s'.procs[p].pc.Written? && InRange(s'.fs);
    s' := Step(c, g, r, s', Confirm(p, false));
  }

  // ----- records that age -----

  /** Process 0 works on while its record ages past `staleMs`; process 1 takes it over and enters beside it. */
  lemma RecordAges(c: Config, g: Grain, r: State -> bool) returns (s: State)
    requires Setting(c, g, r) && !g.young
    ensures r(s) && |s.procs| == 4 && s.procs[0].pc.Working? && s.procs[1].pc.Working?
  {
    s := Init(4, 0.0);
    s := Enter(c, g, r, s, 0);
    assert {} + {0} == {0};
    assert s.procs == [Proc(Working, {0}, Owner(0, 0.0), Quiet), NEW, NEW, NEW];
    s := Doze(c, g, r, s, 5.0);
    s := TakenAndEntered(c, g, r, s, 1);
  }

  /** Time passes, whatever becomes of the records. */
  lemma Doze(c: Config, g: Grain, r: State -> bool, s: State, dt: real) returns (s': State)
    requires Closed(c, g, r) && r(s) && dt >= 0.0 && InRange(s.fs) && !g.young
    ensures s' == s.(now := s.now + dt) && r(s') && Kept(c, g, s')
  {
    s' := Apply(c, s, Tick(dt));
    OneDoes(c, s, Tick(dt));
    assert Allowed(c, g, s, One(Tick(dt)));
  }

  // ----- late releases -----

  /** Process 0 checks its fence and its record, and pauses. */
  lemma AboutToRemove(c: Config, g: Grain, r: State -> bool) returns (s: State)
    requires Setting(c, g, r)
    ensures r(s) && Kept(c, g, s)
    ensures s == State(5.0, Fs(Some(0), map[], [Dir(0, Some(Owner(0, 0.0)), 0.0)], {}),
                       [Proc(Removing(0.0), {0}, Owner(0, 0.0), Quiet), NEW, NEW, NEW], 1)
  {
    s := Init(4, 0.0);
    s := Enter(c, g, r, s, 0);
    assert {} + {0} == {0};
    var x := Proc(Working, {0}, Owner(0, 0.0), Quiet);
    assert s.procs == [x, NEW, NEW, NEW] && s.fs == Fs(Some(0), map[], [Dir(0, Some(Owner(0, 0.0)), 0.0)], {});
    s := CheckRelease(c, g, r, s, 0);
    assert s.procs == [x.(pc := Removing(0.0)), NEW, NEW, NEW];
    s := Wait(c, g, r, s, 5.0);
  }

  /** Process 1 takes the stale lock over and enters. */
  lemma PausedRelease(c: Config, g: Grain, r: State -> bool) returns (s: State)
    requires Setting(c, g, r)
    ensures r(s) && Kept(c, g, s) && InRange(s.fs) && s.fs.lock.Some? && |s.procs| == 4
    ensures s.procs[0].pc == Removing(0.0) && s.procs[1].pc.Working? && s.procs[2] == NEW
  {
    s := AboutToRemove(c, g, r);
    s := TakenAndEntered(c, g, r, s, 1);
  }

  /** A process takes a stale lock over, removes it and enters. */
  lemma TakenAndEntered(c: Config, g: Grain, r: State -> bool, s: State, p: nat) returns (s': State)
    requires Closed(c, g, r) && r(s) && Kept(c, g, s) && c.staleMs >= 0.0
    requires InRange(s.fs) && s.fs.lock.Some? && p < |s.procs| && s.procs[p].pc.Idle? && s.procs[p].beat.Quiet?
    requires var o := s.fs.dirs[s.fs.lock.value].owner;
      o.Some? && o.value.id !in s.procs[p].claims && s.now - o.value.createdAt > c.staleMs
    ensures r(s') && Kept(c, g, s') && InRange(s'.fs) && s'.fs.lock.Some? && s'.now == s.now && |s'.procs| == |s.procs|
    ensures s'.procs[p].pc.Working? && forall q: nat :: q < |s.procs| && q != p ==> s'.procs[q] == s.procs[q]
  {
    s' := TakeOver(c, g, r, s, p, false);
    s' := ThrowAway(c, g, r, s', p);
    s' := Enter(c, g, r, s', p);
  }

  /** Then process 0 removes the directory of process 1, and process 2 enters. */
  lemma ReleaseLate(c: Config, g: Grain, r: State -> bool) returns (s: State)
    requires Setting(c, g, r) && !g.prompt
    ensures r(s) && |s.procs| == 4 && s.procs[1].pc.Working? && s.procs[2].pc.Working?
  {
    s := PausedRelease(c, g, r);
    s := Step(c, g, r, s, ReleaseRemove(0, false));
    assert s.fs.lock.None? && InRange(s.fs) && s.procs[2] == NEW && s.procs[1].pc.Working?;
    s := Enter(c, g, r, s, 2);
  }

  // ----- the exact condition -----

  lemma {:induction false} GrainRunExtend(c: Config, g: Grain, s: State, ms: seq<Move>, t: State, m: Move)
    requires GrainRun(c, g, s, ms, t) && Allowed(c, g, t, m) && Kept(c, g, Do(c, t, m))
    ensures GrainRun(c, g, s, ms + [m], Do(c, t, m))
    decreases |ms|
  {
    if ms == [] {
      assert [m][1..] == [];
    } else {
      assert (ms + [m])[1..] == ms[1..] + [m];
      GrainRunExtend(c, g, Do(c, s, ms[0]), ms[1..], t, m);
    }
  }

  /** Reachability at this grain from the start state with four processes. */
  ghost function Reach(c: Config, g: Grain): State -> bool {
    t => exists ms :: GrainRun(c, g, Init(4, 0.0), ms, t)
  }

  lemma ReachIsClosed(c: Config, g: Grain)
    ensures Closed(c, g, Reach(c, g)) && Reach(c, g)(Init(4, 0.0))
  {
    var r := Reach(c, g);
    forall t, m | r(t) && Allowed(c, g, t, m) && Kept(c, g, Do(c, t, m)) ensures r(Do(c, t, m)) {
      var ms :| GrainRun(c, g, Init(4, 0.0), ms, t);
      GrainRunExtend(c, g, Init(4, 0.0), ms, t, m);
    }
    assert GrainRun(c, g, Init(4, 0.0), [], Init(4, 0.0));
  }

  ghost predicate OneAtWork(s: State) {
    forall p: nat, q: nat :: p < |s.procs| && q < |s.procs| && s.procs[p].pc.Working? && s.procs[q].pc.Working? ==> p == q
  }

  /** Exclusion at this grain, on a file system of this kind. */
  ghost predicate Excludes(replacesEmpty: bool, g: Grain) {
    forall c: Config, n: nat, now: real, ms: seq<Move>, s: State ::
      c.replacesEmpty == replacesEmpty && GrainRun(c, g, Init(n, now), ms, s) ==> OneAtWork(s)
  }

  /** The exact condition: takeovers and heartbeats are one step each, records stay young, releases come within
      the margin and, where a rename replaces an empty directory, no takeover misreads the record it judges. For
      each of these a run above keeps all the others and ends with two processes working. */
  lemma ExclusionExactly(replacesEmpty: bool, g: Grain)
    ensures Excludes(replacesEmpty, g)
      <==> g.wholeTakeovers && g.wholeHeartBeats && g.young && g.prompt && !(replacesEmpty && g.misreads)
  {
    if g.wholeTakeovers && g.wholeHeartBeats && g.young && g.prompt && !(replacesEmpty && g.misreads) {
      forall c: Config, n: nat, now: real, ms: seq<Move>, s: State
        | c.replacesEmpty == replacesEmpty && GrainRun(c, g, Init(n, now), ms, s)
        ensures OneAtWork(s)
      {
        WholeRun(c, g, Init(n, now), ms, s);
        forall p: nat, q: nat
          | p < |s.procs| && q < |s.procs| && s.procs[p].pc.Working? && s.procs[q].pc.Working?
          ensures p == q
        {
          MutualExclusion(c, n, now, ms, s, p, q);
        }
      }
    } else {
      var ms, s := TwoAtWork(replacesEmpty, g);
    }
  }

  lemma TwoAtWork(replacesEmpty: bool, g: Grain) returns (ms: seq<Move>, s: State)
    requires !g.wholeTakeovers || !g.wholeHeartBeats || !g.young || !g.prompt || (replacesEmpty && g.misreads)
    ensures GrainRun(Config(4.0, replacesEmpty), g, Init(4, 0.0), ms, s) && !OneAtWork(s)
  {
    var c := Config(4.0, replacesEmpty);
    ReachIsClosed(c, g);
    if !g.wholeTakeovers {
      s := TakeoverInterrupted(c, g, Reach(c, g));
    } else if !g.wholeHeartBeats {
      s := HeartBeatInterrupted(c, g, Reach(c, g));
    } else if !g.young {
      s := RecordAges(c, g, Reach(c, g));
    } else if !g.prompt {
      s := ReleaseLate(c, g, Reach(c, g));
    } else {
      s := MisreadReplaces(c, g, Reach(c, g));
    }
    ms :| GrainRun(c, g, Init(4, 0.0), ms, s);
  }

  /** Why `ForeignRemovalCause` speaks of a misread: a takeover that cannot read the record it took
      removes the directory of a working process although the lock path is free. */
  lemma MisreadDiscardsLiveDirectory()
    returns (c: Config, g: Grain, ms: seq<Move>, s: State, d: nat)
    ensures !c.replacesEmpty && g.young && g.prompt && GrainRun(c, g, Init(4, 0.0), ms, s)
    ensures |s.procs| == 4 && s.procs[2].pc.Working? && s.fs.lock.None?
    ensures d < |s.fs.dirs| && d in s.fs.removed && s.fs.dirs[d].owner == Some(s.procs[2].claim)
  {
    c, g := Config(4.0, false), Grain(false, true, true, true, false);
    ReachIsClosed(c, g);
    s := LiveTaken(c, g, Reach(c, g));
    d := s.fs.privates[1];
    s := DiscardUnread(c, g, Reach(c, g), s, 1);
    ms :| GrainRun(c, g, Init(4, 0.0), ms, s);
  }

  /** A process that cannot read the record of what it took removes it. */
  lemma DiscardUnread(c: Config, g: Grain, r: State -> bool, s: State, p: nat) returns (s': State)
    requires Closed(c, g, r) && r(s) && Kept(c, g, s) && InRange(s.fs) && p < |s.procs|
    requires s.procs[p].pc.Taken? && s.procs[p].pc.path in s.fs.privates
    ensures r(s') && Kept(c, g, s') && s' == At(s, p, s.procs[p].(pc := Waiting), RemovePrivate(s.fs, s.procs[p].pc.path), s.nextId)
  {
    var x := s.procs[p];
    s' := Step(c, g, r, s, ReadStolen(p, true));
    assert s' == At(s, p, x.(pc := Discarding(x.pc.observed, x.pc.path, NotForeign, true)), s.fs, s.nextId);
    s' := Step(c, g, r, s', Discard(p, false));
  }
}
