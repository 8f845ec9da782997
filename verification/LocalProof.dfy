/** Local re-authentication proofs and their nonce cache. The MAC is a constructor applied to what it
    covers; a timestamp is the instant its text denotes, if it denotes one. */
module LocalProof {
  import opened Wrappers

  type Secret = nat
  type Nonce = string

  datatype Timestamp = Timestamp(text: string, instant: Option<int>)

  datatype Request = Request(method_: string, path: string, body: seq<bv8>)

  datatype Mac = Mac(secret: Secret, request: Request, nonce: Nonce, timestamp: Timestamp) | Forged(bits: nat)

  datatype Header = Header(nonce: Nonce, timestamp: Timestamp, mac: Mac)

  /** `header` is `None` when it is missing or does not match `v1:<nonce>:<instant>:<mac>`. */
  datatype Input = Input(secret: Secret, request: Request, header: Option<Header>, now: int)

  datatype Options = Options(maxSkewMs: nat, nonceTtlMs: nat, maxNonces: nat)

  datatype Refusal = Unauthenticated | RateLimited

  const DEFAULTS := Options(60000, 300000, 512)

  predicate ValidOptions(o: Options) { o.maxSkewMs > 0 && o.nonceTtlMs > 0 && o.maxNonces > 0 }

  /** `toUpperCase` on the ASCII method names of HTTP. */
  function Upper(s: string): string {
    if s == [] then [] else [if 'a' <= s[0] <= 'z' then s[0] - 'a' + 'A' else s[0]] + Upper(s[1..])
  }

  function Normal(r: Request): Request { r.(method_ := Upper(r.method_)) }

  predicate Fresh(o: Options, i: Input)
    requires i.header.Some?
  {
    var issued := i.header.value.timestamp.instant;
    issued.Some? && i.now - issued.value <= o.maxSkewMs && issued.value - i.now <= o.maxSkewMs
  }

  /** Everything `verify` checks before it looks at its memory. */
  predicate Authentic(o: Options, i: Input) {
    && i.header.Some?
    && i.header.value.mac == Mac(i.secret, Normal(i.request), i.header.value.nonce, i.header.value.timestamp)
    && Fresh(o, i)
  }

  function Remembered(nonces: map<Nonce, int>, now: int): map<Nonce, int> {
    map n | n in nonces && nonces[n] > now :: nonces[n]
  }

  function VerifyProof(o: Options, nonces: map<Nonce, int>, i: Input): (r: (map<Nonce, int>, Option<Refusal>)) {
    if !Authentic(o, i) then (nonces, Some(Unauthenticated))
    else
      var kept, nonce := Remembered(nonces, i.now), i.header.value.nonce;
      if nonce in kept then (kept, Some(Unauthenticated))
      else if |kept| >= o.maxNonces then (kept, Some(RateLimited))
      else (kept[nonce := i.now + o.nonceTtlMs], None)
  }

  class LocalProofVerifier {
    const options: Options
    var nonces: map<Nonce, int>

    constructor (options: Options)
      requires ValidOptions(options)
      ensures this.options == options && nonces == map[]
    {
      this.options := options;
      nonces := map[];
    }

    method Verify(i: Input) returns (refusal: Option<Refusal>)
      modifies this`nonces
      ensures (nonces, refusal) == VerifyProof(options, old(nonces), i)
    {
      if i.header.None? { return Some(Unauthenticated); }
      var h := i.header.value;
      if h.mac != Mac(i.secret, Normal(i.request), h.nonce, h.timestamp) { return Some(Unauthenticated); }
      if !Fresh(options, i) { return Some(Unauthenticated); }
      var before, todo := nonces, nonces.Keys;
      while todo != {}
        invariant todo <= before.Keys
        invariant forall n :: n in nonces <==> n in before && (n in todo || before[n] > i.now)
        invariant forall n :: n in nonces ==> nonces[n] == before[n]
        decreases |todo|
      {
        var n :| n in todo;
        if before[n] <= i.now { nonces := nonces - {n}; }
        todo := todo - {n};
      }
      assert nonces == Remembered(before, i.now);
      if h.nonce in nonces { return Some(Unauthenticated); }
      if |nonces| >= options.maxNonces { return Some(RateLimited); }
      nonces := nonces[h.nonce := i.now + options.nonceTtlMs];
      return None;
    }
  }

  // ----- every run -----

  /** `accepted` is history. */
  datatype Sys = Sys(nonces: map<Nonce, int>, clock: int, accepted: seq<Input>)

  function Start(clock: int): Sys { Sys(map[], clock, []) }

  function Step(o: Options, s: Sys, i: Input): Sys {
    var (nonces, refusal) := VerifyProof(o, s.nonces, i);
    Sys(nonces, i.now, if refusal.None? then s.accepted + [i] else s.accepted)
  }

  function AfterRun(o: Options, s: Sys, run: seq<Input>): Sys
    decreases |run|
  {
    if run == [] then s else AfterRun(o, Step(o, s, run[0]), run[1..])
  }

  /** The clock never runs backwards. */
  predicate Ordered(clock: int, run: seq<Input>)
    decreases |run|
  {
    run == [] || (clock <= run[0].now && Ordered(run[0].now, run[1..]))
  }

  ghost predicate Apart(o: Options, accepted: seq<Input>, j: nat, k: nat)
    requires j < k < |accepted| && accepted[j].header.Some? && accepted[k].header.Some?
  {
    accepted[j].header.value.nonce == accepted[k].header.value.nonce ==> accepted[j].now + o.nonceTtlMs <= accepted[k].now
  }

  ghost predicate Remembers(o: Options, s: Sys) {
    && (forall k :: 0 <= k < |s.accepted| ==> Authentic(o, s.accepted[k]))
    && (forall k :: 0 <= k < |s.accepted| ==>
          var i := s.accepted[k];
          i.now <= s.clock && (i.now + o.nonceTtlMs > s.clock ==>
            i.header.value.nonce in s.nonces && s.nonces[i.header.value.nonce] >= i.now + o.nonceTtlMs))
    && (forall j: nat, k: nat :: j < k < |s.accepted| ==> Apart(o, s.accepted, j, k))
    && |s.nonces| <= o.maxNonces
  }

  lemma SweepShrinks(nonces: map<Nonce, int>, now: int)
    ensures |Remembered(nonces, now)| <= |nonces|
  {
    Smaller(Remembered(nonces, now).Keys, nonces.Keys);
  }

  lemma {:induction false} Smaller(a: set<Nonce>, b: set<Nonce>)
    requires a <= b
    ensures |a| <= |b|
  {
    if a != {} {
      var x :| x in a;
      Smaller(a - {x}, b - {x});
    }
  }

  lemma StepRemembers(o: Options, s: Sys, i: Input)
    requires Remembers(o, s) && s.clock <= i.now
    ensures Remembers(o, Step(o, s, i))
  {
    var t := Step(o, s, i);
    SweepShrinks(s.nonces, i.now);
    assert |t.nonces| <= o.maxNonces by {
      if VerifyProof(o, s.nonces, i).1.None? {
        var kept, n := Remembered(s.nonces, i.now), i.header.value.nonce;
        assert kept[n := 0].Keys == kept.Keys + {n} && |kept.Keys| == |kept|;
        assert t.nonces.Keys == kept.Keys + {n};
      }
    }
    forall j: nat, k: nat | j < k < |t.accepted|
      ensures Apart(o, t.accepted, j, k)
    {
      assert t.accepted[j] == s.accepted[j];
      if k < |s.accepted| { assert Apart(o, s.accepted, j, k); }
    }
  }

  lemma {:induction false} RunRemembers(o: Options, s: Sys, run: seq<Input>)
    requires Remembers(o, s) && Ordered(s.clock, run)
    ensures Remembers(o, AfterRun(o, s, run))
    decreases |run|
  {
    if run != [] {
      StepRemembers(o, s, run[0]);
      RunRemembers(o, Step(o, s, run[0]), run[1..]);
    }
  }

  // ----- theorems -----

  /** The cache never holds more than `maxNonces` entries, and two accepted proofs that share a nonce
      are at least one nonce lifetime apart. */
  lemma CacheBoundedAndNoncesApart(o: Options, clock: int, run: seq<Input>, j: nat, k: nat)
    requires Ordered(clock, run)
    ensures |AfterRun(o, Start(clock), run).nonces| <= o.maxNonces
    ensures var accepted := AfterRun(o, Start(clock), run).accepted;
      j < k < |accepted| ==>
        accepted[j].header.Some? && accepted[k].header.Some? && Apart(o, accepted, j, k)
  {
    RunRemembers(o, Start(clock), run);
    var accepted := AfterRun(o, Start(clock), run).accepted;
    if j < k < |accepted| { assert Authentic(o, accepted[j]) && Authentic(o, accepted[k]) && Apart(o, accepted, j, k); }
  }

  ghost predicate AcceptedTwice(o: Options, clock: int, run: seq<Input>) {
    var accepted := AfterRun(o, Start(clock), run).accepted;
    exists j: nat, k: nat :: j < k < |accepted| && accepted[j].header == accepted[k].header
  }

  /** No header is ever accepted twice exactly when nonces outlive twice the accepted clock skew. */
  lemma NeverAcceptedTwice(o: Options)
    requires ValidOptions(o)
    ensures (forall clock: int, run: seq<Input> :: Ordered(clock, run) ==> !AcceptedTwice(o, clock, run)) <==>
            o.nonceTtlMs > 2 * o.maxSkewMs
  {
    if o.nonceTtlMs > 2 * o.maxSkewMs {
      forall clock: int, run: seq<Input> | Ordered(clock, run)
        ensures !AcceptedTwice(o, clock, run)
      {
        LongMemorySuffices(o, clock, run);
      }
    } else {
      ShortMemoryForgets(o);
    }
  }

  lemma LongMemorySuffices(o: Options, clock: int, run: seq<Input>)
    requires o.nonceTtlMs > 2 * o.maxSkewMs && Ordered(clock, run)
    ensures !AcceptedTwice(o, clock, run)
  {
    RunRemembers(o, Start(clock), run);
    var accepted := AfterRun(o, Start(clock), run).accepted;
    forall j: nat, k: nat | j < k < |accepted|
      ensures accepted[j].header != accepted[k].header
    {
      assert Authentic(o, accepted[j]) && Authentic(o, accepted[k]) && Apart(o, accepted, j, k);
    }
  }

  /** A proof stamped one skew ahead of the host is accepted again two skews later. */
  lemma ShortMemoryForgets(o: Options)
    requires ValidOptions(o) && o.nonceTtlMs <= 2 * o.maxSkewMs
    ensures exists run: seq<Input> :: Ordered(0, run) && AcceptedTwice(o, 0, run)
  {
    var request, stamp := Request("", "", []), Timestamp("", Some(o.maxSkewMs));
    var nonce := "00000000000000000000000000000000";
    var header := Some(Header(nonce, stamp, Mac(0, request, nonce, stamp)));
    var first, second := Input(0, request, header, 0), Input(0, request, header, 2 * o.maxSkewMs);
    var run := [first, second];
    assert run[1..] == [second] && run[1..][1..] == [];
    var s1 := Step(o, Start(0), first);
    assert s1.accepted == [first] && s1.nonces == map[nonce := o.nonceTtlMs];
    assert Remembered(s1.nonces, second.now) == map[];
    var s2 := Step(o, s1, second);
    assert s2.accepted == [first, second];
    assert AfterRun(o, s1, [second]) == AfterRun(o, s2, []) == s2;
    assert AfterRun(o, Start(0), run) == AfterRun(o, s1, [second]);
    assert s2.accepted[0].header == s2.accepted[1].header;
    assert Ordered(0, run);
  }

  /** With the default options no header is accepted twice. */
  lemma DefaultsNeverAcceptTwice(clock: int, run: seq<Input>)
    requires Ordered(clock, run)
    ensures !AcceptedTwice(DEFAULTS, clock, run)
  {
    LongMemorySuffices(DEFAULTS, clock, run);
  }
}
