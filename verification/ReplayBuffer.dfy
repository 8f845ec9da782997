/** The bounded replay log of one terminal session, against the unbounded log it forgets from. */
module ReplayBuffer {
  import opened Wrappers
  import opened Unicode

  const MAX_TERMINAL_FRAME_BYTES := 64 * 1024
  const MAX_TERMINAL_REPLAY_BYTES := 8 * 1024 * 1024
  const MAX_TERMINAL_REPLAY_AGE_MS := 30 * 60 * 1000

  /** `Lifecycle` carries the event's JSON text, whose size the log accounts for. */
  datatype Body = Output(data: Text) | Lifecycle(json: Text)

  datatype Event = Event(sequence: nat, timestamp: int, body: Body)

  function EventBytes(body: Body): nat {
    match body
    case Output(data) => Utf8Size(data)
    case Lifecycle(json) => Utf8Size(json)
  }

  datatype Limits = Limits(maxBytes: int, maxAgeMs: int, maxEvents: int)

  predicate ValidLimits(lim: Limits) {
    && 0 < lim.maxBytes <= MAX_TERMINAL_REPLAY_BYTES
    && 0 < lim.maxAgeMs <= MAX_TERMINAL_REPLAY_AGE_MS
    && 0 < lim.maxEvents
  }

  // ----- splitting output into frames -----

  function Concat(chunks: seq<Text>): Text {
    if chunks == [] then [] else Concat(chunks[..|chunks| - 1]) + chunks[|chunks| - 1]
  }

  function ConcatPoints(chunks: seq<Text>): seq<nat> {
    if chunks == [] then [] else ConcatPoints(chunks[..|chunks| - 1]) + Points(chunks[|chunks| - 1])
  }

  /** No frame is empty, each fits, and none could have taken the next character. */
  ghost predicate Full(maxBytes: nat, chunks: seq<Text>) {
    && (forall i :: 0 <= i < |chunks| ==> chunks[i] != [] && Utf8Size(chunks[i]) <= maxBytes)
    && (forall i :: 0 <= i < |chunks| - 1 ==> Utf8Size(chunks[i]) + PointBytes(FirstPoint(chunks[i + 1])) > maxBytes)
  }

  /** `chunks` cuts `value` into frames that are as full as possible: they join to `value`, cut no character
      in two, each fits, and none could have taken the next character. There is one such cut: `SplitUnique`. */
  ghost predicate IsSplit(value: Text, maxBytes: nat, chunks: seq<Text>) {
    && Concat(chunks) == value
    && ConcatPoints(chunks) == Points(value)
    && Full(maxBytes, chunks)
  }

  lemma {:induction false} FrontText(chunks: seq<Text>)
    requires chunks != []
    ensures Concat(chunks) == chunks[0] + Concat(chunks[1..])
  {
    var n, rest := |chunks| - 1, chunks[1..];
    if n == 0 {
      NothingAfter(chunks[0]);
    } else {
      FrontText(chunks[..n]);
      assert chunks[..n][1..] == rest[..n - 1] && rest[n - 1] == chunks[n];
      Assoc(chunks[0], Concat(rest[..n - 1]), chunks[n]);
    }
  }

  lemma {:induction false} FrontPoints(chunks: seq<Text>)
    requires chunks != []
    ensures ConcatPoints(chunks) == Points(chunks[0]) + ConcatPoints(chunks[1..])
  {
    var n, rest := |chunks| - 1, chunks[1..];
    if n == 0 {
      NothingAfter(Points(chunks[0]));
    } else {
      FrontPoints(chunks[..n]);
      assert chunks[..n][1..] == rest[..n - 1] && rest[n - 1] == chunks[n];
      Assoc(Points(chunks[0]), ConcatPoints(rest[..n - 1]), Points(chunks[n]));
    }
  }

  lemma FrontOf(chunks: seq<Text>)
    requires chunks != []
    ensures Concat(chunks) == chunks[0] + Concat(chunks[1..])
    ensures ConcatPoints(chunks) == Points(chunks[0]) + ConcatPoints(chunks[1..])
  {
    FrontText(chunks);
    FrontPoints(chunks);
  }

  function Units(cps: seq<nat>): nat {
    if cps == [] then 0 else (if cps[0] >= 0x1_0000 then 2 else 1) + Units(cps[1..])
  }

  lemma {:induction false} UnitsOfPoints(t: Text)
    ensures Units(Points(t)) == |t|
    decreases |t|
  {
    if t != [] { UnitsOfPoints(t[CharUnits(t)..]); }
  }

  lemma PrefixFits(cps: seq<nat>, n: nat)
    requires n <= |cps|
    ensures PointsBytes(cps[..n]) <= PointsBytes(cps)
  {
    assert cps == cps[..n] + cps[n..];
    PointsBytesOfConcat(cps[..n], cps[n..]);
  }

  /** One character more than the first frame does not fit. */
  lemma OneMoreTooBig(maxBytes: nat, chunks: seq<Text>)
    requires chunks != [] && Full(maxBytes, chunks)
    ensures var all, first := ConcatPoints(chunks), Points(chunks[0]);
      first <= all && (|first| < |all| ==> PointsBytes(all[..|first| + 1]) > maxBytes)
  {
    FrontOf(chunks);
    if |chunks| > 1 {
      var first, rest := Points(chunks[0]), chunks[1..];
      var next := FirstPoint(chunks[1]);
      FrontOf(rest);
      assert rest[0] == chunks[0 + 1] && Points(rest[0])[0] == next;
      assert ConcatPoints(chunks)[..|first| + 1] == first + [next];
      PointsBytesOfConcat(first, [next]);
      Alone<nat>(next);
    }
  }

  /** The first frame of one full cut is no shorter than that of another. */
  lemma FirstNoShorter(maxBytes: nat, xs: seq<Text>, ys: seq<Text>)
    requires xs != [] && ys != [] && Full(maxBytes, xs) && Full(maxBytes, ys) && ConcatPoints(xs) == ConcatPoints(ys)
    ensures |Points(xs[0])| >= |Points(ys[0])|
  {
    OneMoreTooBig(maxBytes, xs);
    OneMoreTooBig(maxBytes, ys);
    var x, y := Points(xs[0]), Points(ys[0]);
    if |x| < |y| {
      assert ConcatPoints(xs)[..|x| + 1] == y[..|x| + 1];
      PrefixFits(y, |x| + 1);
    }
  }

  lemma {:induction false} SplitsAgree(maxBytes: nat, xs: seq<Text>, ys: seq<Text>)
    requires Full(maxBytes, xs) && Full(maxBytes, ys) && Concat(xs) == Concat(ys) && ConcatPoints(xs) == ConcatPoints(ys)
    ensures xs == ys
    decreases |xs|
  {
    if xs != [] { FrontOf(xs); }
    if ys != [] { FrontOf(ys); }
    if xs != [] && ys != [] {
      FirstNoShorter(maxBytes, xs, ys);
      FirstNoShorter(maxBytes, ys, xs);
      assert Points(xs[0]) == ConcatPoints(xs)[..|Points(xs[0])|] && Points(ys[0]) == ConcatPoints(ys)[..|Points(ys[0])|];
      UnitsOfPoints(xs[0]);
      UnitsOfPoints(ys[0]);
      assert xs[0] == Concat(xs)[..|xs[0]|] && ys[0] == Concat(ys)[..|ys[0]|];
      assert Concat(xs[1..]) == Concat(xs)[|xs[0]|..] && Concat(ys[1..]) == Concat(ys)[|ys[0]|..];
      assert ConcatPoints(xs[1..]) == ConcatPoints(xs)[|Points(xs[0])|..] && ConcatPoints(ys[1..]) == ConcatPoints(ys)[|Points(ys[0])|..];
      RestFull(maxBytes, xs);
      RestFull(maxBytes, ys);
      SplitsAgree(maxBytes, xs[1..], ys[1..]);
      SameHeadAndTail(xs, ys);
    }
  }

  lemma RestFull(maxBytes: nat, chunks: seq<Text>)
    requires chunks != [] && Full(maxBytes, chunks)
    ensures Full(maxBytes, chunks[1..])
  {
    var rest := chunks[1..];
    assert forall i :: 0 <= i < |rest| ==> rest[i] == chunks[i + 1];
    forall i | 0 <= i < |rest| - 1 ensures Utf8Size(rest[i]) + PointBytes(FirstPoint(rest[i + 1])) > maxBytes {
      assert Utf8Size(chunks[i + 1]) + PointBytes(FirstPoint(chunks[i + 1 + 1])) > maxBytes;
    }
  }

  /** There is only one way to cut a text into frames that are as full as possible. */
  lemma SplitUnique(value: Text, maxBytes: nat, xs: seq<Text>, ys: seq<Text>)
    requires IsSplit(value, maxBytes, xs) && IsSplit(value, maxBytes, ys)
    ensures xs == ys
  {
    SplitsAgree(maxBytes, xs, ys);
  }

  lemma OneCharacter(t: Text)
    requires t != []
    ensures var n := CharUnits(t);
      && Points(t[..n]) == [FirstPoint(t)]
      && CutsCleanly(t[..n], t[n..])
      && FirstPoint(t[..n]) == FirstPoint(t)
  {
    var n := CharUnits(t);
    assert t[..n][CharUnits(t[..n])..] == [];
  }

  /** The loop of `SplitUtf8` after reading `done`: full frames and the frame being filled. */
  ghost predicate Splitting(done: Text, maxBytes: nat, chunks: seq<Text>, current: Text) {
    && Concat(chunks) + current == done
    && ConcatPoints(chunks) + Points(current) == Points(done)
    && Utf8Size(current) <= maxBytes
    && (current == [] ==> done == [] && chunks == [])
    && Full(maxBytes, chunks)
    && (chunks != [] ==> current != [] && Utf8Size(chunks[|chunks| - 1]) + PointBytes(FirstPoint(current)) > maxBytes)
  }

  lemma FillFrame(done: Text, maxBytes: nat, chunks: seq<Text>, current: Text, character: Text)
    requires Splitting(done, maxBytes, chunks, current) && CutsCleanly(done, character)
    requires character != [] && Utf8Size(current) + Utf8Size(character) <= maxBytes
    requires Points(character) == [FirstPoint(character)]
    ensures Utf8Size(current + character) == Utf8Size(current) + Utf8Size(character)
    ensures Splitting(done + character, maxBytes, chunks, current + character)
  {
    if current != [] {
      LastOfConcat(Concat(chunks), current);
      FirstStays(current, character);
    }
    SizeOfConcat(current, character);
    PointsOfConcat(current, character);
    PointsOfConcat(done, character);
    Assoc(Concat(chunks), current, character);
    Assoc(ConcatPoints(chunks), Points(current), Points(character));
    NothingAfter(character);
  }

  lemma LastOfConcat(a: Text, b: Text)
    requires b != []
    ensures (a + b)[|a + b| - 1] == b[|b| - 1]
  {
  }

  lemma FirstStays(a: Text, b: Text)
    requires a != [] && CutsCleanly(a, b)
    ensures a + b != [] && FirstPoint(a + b) == FirstPoint(a)
  {
  }

  lemma NextFrame(done: Text, maxBytes: nat, chunks: seq<Text>, current: Text, character: Text)
    requires Splitting(done, maxBytes, chunks, current) && CutsCleanly(done, character)
    requires current != [] && character != [] && Utf8Size(character) <= maxBytes
    requires Points(character) == [FirstPoint(character)]
    requires Utf8Size(current) + PointBytes(FirstPoint(character)) > maxBytes
    ensures Splitting(done + character, maxBytes, chunks + [current], character)
  {
    ConcatSnoc(chunks, current);
    PointsOfConcat(done, character);
    FullSnoc(chunks, current, maxBytes);
  }

  lemma ConcatSnoc(chunks: seq<Text>, last: Text)
    ensures Concat(chunks + [last]) == Concat(chunks) + last
    ensures ConcatPoints(chunks + [last]) == ConcatPoints(chunks) + Points(last)
  {
    assert (chunks + [last])[..|chunks|] == chunks;
  }

  lemma FullSnoc(chunks: seq<Text>, current: Text, maxBytes: nat)
    requires Full(maxBytes, chunks) && current != [] && Utf8Size(current) <= maxBytes
    requires chunks != [] ==> Utf8Size(chunks[|chunks| - 1]) + PointBytes(FirstPoint(current)) > maxBytes
    ensures Full(maxBytes, chunks + [current])
  {
  }

  lemma LastFrame(done: Text, maxBytes: nat, chunks: seq<Text>, current: Text)
    requires Splitting(done, maxBytes, chunks, current)
    ensures current == [] ==> IsSplit(done, maxBytes, chunks)
    ensures current != [] ==> IsSplit(done, maxBytes, chunks + [current])
  {
    if current == [] {
      NothingAfter(Concat(chunks));
    } else {
      ConcatSnoc(chunks, current);
      FullSnoc(chunks, current, maxBytes);
    }
  }

  /** Reading the next character of `rest` after `done`. */
  lemma ReadCharacter(done: Text, rest: Text, character: Text)
    requires rest != [] && CutsCleanly(done, rest)
    requires character == rest[..CharUnits(rest)]
    ensures Points(character) == [FirstPoint(character)]
    ensures Utf8Size(character) == PointBytes(FirstPoint(character))
    ensures CutsCleanly(done, character)
    ensures CutsCleanly(done + character, rest[|character|..])
  {
    OneCharacter(rest);
    var cps := Points(character);
    assert cps == [FirstPoint(character)] && cps[1..] == [];
    assert PointsBytes(cps) == PointBytes(cps[0]) + PointsBytes(cps[1..]);
    assert character[0] == rest[0];
    assert (done + character)[|done + character| - 1] == character[|character| - 1];
  }

  /** What reading one more character does: start a new frame when the current one cannot take it. */
  lemma NextCharacter(value: Text, pos: nat, maxBytes: nat, chunks: seq<Text>, current: Text,
                      next: nat, chunks': seq<Text>, current': Text)
    requires maxBytes >= 4 && pos < |value| && CutsCleanly(value[..pos], value[pos..])
    requires Splitting(value[..pos], maxBytes, chunks, current)
    requires next == pos + CharUnits(value[pos..])
    requires var full := Utf8Size(current) + PointBytes(FirstPoint(value[pos..])) > maxBytes && current != [];
      && chunks' == (if full then chunks + [current] else chunks)
      && current' == (if full then [] else current) + value[pos..][..CharUnits(value[pos..])]
    ensures next <= |value| && CutsCleanly(value[..next], value[next..])
    ensures Splitting(value[..next], maxBytes, chunks', current')
    ensures Utf8Size(current') == (if chunks' == chunks then Utf8Size(current) else 0) + PointBytes(FirstPoint(value[pos..]))
  {
    var character := value[pos..][..CharUnits(value[pos..])];
    CutNext(value, pos, character);
    GrowFrames(value[..pos], maxBytes, chunks, current, character, chunks', current');
  }

  lemma CutNext(value: Text, pos: nat, character: Text)
    requires pos < |value| && CutsCleanly(value[..pos], value[pos..]) && character == value[pos..][..CharUnits(value[pos..])]
    ensures var next := pos + |character|;
      next <= |value| && CutsCleanly(value[..next], value[next..]) && value[..next] == value[..pos] + character
    ensures CutsCleanly(value[..pos], character)
    ensures Points(character) == [FirstPoint(character)] && Utf8Size(character) == PointBytes(FirstPoint(character))
    ensures FirstPoint(character) == FirstPoint(value[pos..])
  {
    OneCharacter(value[pos..]);
    ReadCharacter(value[..pos], value[pos..], character);
    Slices(value, pos, |character|);
  }

  lemma GrowFrames(done: Text, maxBytes: nat, chunks: seq<Text>, current: Text, character: Text, chunks': seq<Text>, current': Text)
    requires maxBytes >= 4 && character != [] && CutsCleanly(done, character) && Splitting(done, maxBytes, chunks, current)
    requires Points(character) == [FirstPoint(character)] && Utf8Size(character) == PointBytes(FirstPoint(character))
    requires var full := Utf8Size(current) + PointBytes(FirstPoint(character)) > maxBytes && current != [];
      chunks' == (if full then chunks + [current] else chunks) && current' == (if full then [] else current) + character
    ensures Splitting(done + character, maxBytes, chunks', current')
    ensures Utf8Size(current') == (if chunks' == chunks then Utf8Size(current) else 0) + PointBytes(FirstPoint(character))
  {
    NothingAfter(character);
    if Utf8Size(current) + PointBytes(FirstPoint(character)) > maxBytes && current != [] {
      NextFrame(done, maxBytes, chunks, current, character);
    } else {
      if current == [] { assert Utf8Size(current) == 0; }
      FillFrame(done, maxBytes, chunks, current, character);
    }
  }

  lemma Slices(value: Text, pos: nat, n: nat)
    requires pos + n <= |value|
    ensures value[..pos + n] == value[..pos] + value[pos..][..n] && value[pos + n..] == value[pos..][n..]
  {
  }

  lemma WholePrefix(value: Text, pos: nat)
    requires pos == |value|
    ensures value[..pos] == value
  {
  }

  method SplitUtf8(value: Text, maxBytes: nat) returns (chunks: seq<Text>)
    requires maxBytes >= 4
    ensures IsSplit(value, maxBytes, chunks)
  {
    chunks := [];
    var current: Text, currentBytes := [], 0;
    var pos := 0;
    while pos < |value|
      invariant 0 <= pos <= |value|
      invariant CutsCleanly(value[..pos], value[pos..])
      invariant currentBytes == Utf8Size(current)
      invariant Splitting(value[..pos], maxBytes, chunks, current)
    {
      var rest := value[pos..];
      var character := rest[..CharUnits(rest)];
      var characterBytes := PointBytes(FirstPoint(rest));
      ghost var chunks0, current0, pos0 := chunks, current, pos;
      var full := currentBytes + characterBytes > maxBytes && |current| > 0;
      if full {
        chunks := chunks + [current];
        current, currentBytes := [], 0;
      }
      current := current + character;
      currentBytes := currentBytes + characterBytes;
      pos := pos + |character|;
      NextCharacter(value, pos0, maxBytes, chunks0, current0, pos, chunks, current);
    }
    WholePrefix(value, pos);
    LastFrame(value, maxBytes, chunks, current);
    if |current| > 0 {
      chunks := chunks + [current];
    }
  }

  // ----- the unbounded log, and how much of it is forgotten -----

  datatype Stored = Stored(event: Event, bytes: nat)

  /** Everything ever appended; the first `dropped` events have been evicted. */
  datatype Log = Log(events: seq<Stored>, dropped: nat)

  function TotalBytes(s: seq<Stored>): nat {
    if s == [] then 0 else TotalBytes(s[..|s| - 1]) + s[|s| - 1].bytes
  }

  predicate Over(lim: Limits, retained: seq<Stored>, now: int) {
    && retained != []
    && (|retained| > lim.maxEvents || TotalBytes(retained) > lim.maxBytes
        || retained[0].event.timestamp < now - lim.maxAgeMs)
  }

  /** Sequences are 1, 2, 3, ... and `dropped` counts a prefix. */
  ghost predicate Sound(l: Log) {
    && l.dropped <= |l.events|
    && (forall i :: 0 <= i < |l.events| ==>
          l.events[i].event.sequence == i + 1 && l.events[i].bytes == EventBytes(l.events[i].event.body))
  }

  /** Evicting oldest events while a bound is exceeded. */
  function Prune(lim: Limits, l: Log, now: int): Log
    requires l.dropped <= |l.events|
    decreases |l.events| - l.dropped
  {
    if Over(lim, l.events[l.dropped..], now) then Prune(lim, l.(dropped := l.dropped + 1), now) else l
  }

  function Push(lim: Limits, l: Log, body: Body, now: int): Log
    requires l.dropped <= |l.events|
  {
    var event := Event(|l.events| + 1, now, body);
    Prune(lim, Log(l.events + [Stored(event, EventBytes(body))], l.dropped), now)
  }

  function PushAll(lim: Limits, l: Log, chunks: seq<Text>, now: int): Log
    requires l.dropped <= |l.events|
    decreases |chunks|
  {
    if chunks == [] then l
    else
      PruneLeast(lim, Log(l.events + [Stored(Event(|l.events| + 1, now, Output(chunks[0])), EventBytes(Output(chunks[0])))], l.dropped), now);
      PushAll(lim, Push(lim, l, Output(chunks[0]), now), chunks[1..], now)
  }

  /** Pruning evicts as few events as the bounds allow, and afterwards all of them hold. */
  lemma {:induction false} PruneLeast(lim: Limits, l: Log, now: int)
    requires l.dropped <= |l.events|
    ensures var l' := Prune(lim, l, now);
      && l'.events == l.events && l.dropped <= l'.dropped <= |l.events|
      && !Over(lim, l.events[l'.dropped..], now)
      && (forall d :: l.dropped <= d < l'.dropped ==> Over(lim, l.events[d..], now))
    decreases |l.events| - l.dropped
  {
    if Over(lim, l.events[l.dropped..], now) {
      PruneLeast(lim, l.(dropped := l.dropped + 1), now);
    }
  }

  /** After any append, at most `maxEvents` events of at most `maxBytes` in total are retained. */
  lemma BoundsHold(lim: Limits, l: Log, body: Body, now: int)
    requires ValidLimits(lim) && Sound(l)
    ensures var l' := Push(lim, l, body, now);
      && Sound(l')
      && l'.events == l.events + [Stored(Event(|l.events| + 1, now, body), EventBytes(body))]
      && l.dropped <= l'.dropped
      && |l'.events[l'.dropped..]| <= lim.maxEvents
      && TotalBytes(l'.events[l'.dropped..]) <= lim.maxBytes
  {
    PruneLeast(lim, Log(l.events + [Stored(Event(|l.events| + 1, now, body), EventBytes(body))], l.dropped), now);
  }

  /** With a clock that never steps back, nothing older than `maxAgeMs` is retained either. */
  lemma AgeHolds(lim: Limits, l: Log, now: int, i: nat)
    requires Sound(l)
    requires forall j, k :: 0 <= j < k < |l.events| ==> l.events[j].event.timestamp <= l.events[k].event.timestamp
    requires var d := Prune(lim, l, now).dropped; d <= i < |l.events|
    ensures l.events[i].event.timestamp >= now - lim.maxAgeMs
  {
    PruneLeast(lim, l, now);
    var d := Prune(lim, l, now).dropped;
    assert l.events[d..][0] == l.events[d];
  }

  function EventsOf(s: seq<Stored>): (r: seq<Event>)
    ensures |r| == |s| && forall i :: 0 <= i < |s| ==> r[i] == s[i].event
  {
    seq(|s|, i requires 0 <= i < |s| => s[i].event)
  }

  datatype Replay = Replay(events: seq<Event>, nextSequence: nat, historyTruncated: bool)

  /** What appended frames look like in the log. */
  predicate Appended(before: seq<Stored>, after: seq<Stored>, chunks: seq<Text>, now: int) {
    && |after| == |before| + |chunks| && before <= after
    && forall i :: 0 <= i < |chunks| ==> after[|before| + i].event == Event(|before| + i + 1, now, Output(chunks[i]))
  }

  lemma AppendedFirst(before: seq<Stored>, first: Stored, after: seq<Stored>, chunks: seq<Text>, now: int)
    requires chunks != [] && first.event == Event(|before| + 1, now, Output(chunks[0]))
    requires Appended(before + [first], after, chunks[1..], now)
    ensures Appended(before, after, chunks, now)
  {
    var n := |before|;
    assert after[n] == (before + [first])[n];
    forall i | 0 <= i < |chunks|
      ensures after[n + i].event == Event(n + i + 1, now, Output(chunks[i]))
    {
      if i > 0 { assert after[|before + [first]| + (i - 1)].event == Event(n + i + 1, now, Output(chunks[1..][i - 1])); }
    }
  }

  predicate WithinBounds(lim: Limits, l: Log)
    requires l.dropped <= |l.events|
  {
    |l.events| - l.dropped <= lim.maxEvents && TotalBytes(l.events[l.dropped..]) <= lim.maxBytes
  }

  /** Appending the frames of one output, pruning after each. */
  lemma {:induction false} PushAllAppends(lim: Limits, l: Log, chunks: seq<Text>, now: int)
    requires ValidLimits(lim) && Sound(l)
    ensures var l' := PushAll(lim, l, chunks, now);
      Sound(l') && Appended(l.events, l'.events, chunks, now) && (chunks != [] ==> WithinBounds(lim, l'))
    decreases |chunks|
  {
    if chunks != [] {
      var stored := Stored(Event(|l.events| + 1, now, Output(chunks[0])), EventBytes(Output(chunks[0])));
      BoundsHold(lim, l, Output(chunks[0]), now);
      var l1 := Push(lim, l, Output(chunks[0]), now);
      PushAllAppends(lim, l1, chunks[1..], now);
      AppendedFirst(l.events, stored, PushAll(lim, l1, chunks[1..], now).events, chunks, now);
    }
  }

  /** The stored fields are exactly the retained part of the log. */
  ghost predicate Retains(lim: Limits, entries: seq<Stored>, totalBytes: nat, next: nat, log: Log) {
    && ValidLimits(lim)
    && Sound(log)
    && entries == log.events[log.dropped..]
    && totalBytes == TotalBytes(entries)
    && next == |log.events| + 1
  }

  lemma PruneOnce(lim: Limits, entries: seq<Stored>, totalBytes: nat, next: nat, log: Log, now: int,
                  entries': seq<Stored>, totalBytes': int, log': Log)
    requires Retains(lim, entries, totalBytes, next, log) && Over(lim, entries, now)
    requires entries' == entries[1..] && totalBytes' == totalBytes - entries[0].bytes && log' == log.(dropped := log.dropped + 1)
    ensures totalBytes' >= 0 && Retains(lim, entries', totalBytes', next, log')
    ensures Prune(lim, log, now) == Prune(lim, log', now)
  {
    DropFirst(entries);
    assert log.events[log.dropped..][1..] == log.events[log.dropped + 1..];
  }

  lemma PruneDone(lim: Limits, entries: seq<Stored>, totalBytes: nat, next: nat, log: Log, now: int)
    requires Retains(lim, entries, totalBytes, next, log) && !Over(lim, entries, now)
    ensures Prune(lim, log, now) == log
  {
  }

  lemma PushFirst(lim: Limits, l: Log, chunks: seq<Text>, now: int)
    requires ValidLimits(lim) && Sound(l) && chunks != []
    ensures var stored := Stored(Event(|l.events| + 1, now, Output(chunks[0])), EventBytes(Output(chunks[0])));
      var l1 := Push(lim, l, Output(chunks[0]), now);
      l1.dropped <= |l1.events| && PushAll(lim, l, chunks, now) == PushAll(lim, l1, chunks[1..], now) && l1.events == l.events + [stored]
  {
    BoundsHold(lim, l, Output(chunks[0]), now);
  }

  lemma EventsSnoc(tail: seq<Stored>, x: Stored)
    ensures EventsOf(tail + [x]) == EventsOf(tail) + [x.event]
  {
  }

  lemma PushOnce(lim: Limits, entries: seq<Stored>, totalBytes: nat, next: nat, log: Log, x: Stored)
    requires Retains(lim, entries, totalBytes, next, log)
    requires x.event.sequence == next && x.bytes == EventBytes(x.event.body)
    ensures Retains(lim, entries + [x], totalBytes + x.bytes, next + 1, Log(log.events + [x], log.dropped))
    ensures log.dropped <= |log.events| && x == Stored(Event(|log.events| + 1, x.event.timestamp, x.event.body), EventBytes(x.event.body))
  {
    AddLast(entries, x);
    assert (log.events + [x])[log.dropped..] == log.events[log.dropped..] + [x];
  }

  class TerminalReplayBuffer {
    const lim: Limits
    var entries: seq<Stored>
    var totalBytes: nat
    var next: nat
    ghost var log: Log

    ghost predicate Valid()
      reads this
    {
      Retains(lim, entries, totalBytes, next, log)
    }

    constructor (lim: Limits)
      requires ValidLimits(lim)
      ensures Valid() && log == Log([], 0) && this.lim == lim
    {
      this.lim := lim;
      entries, totalBytes, next := [], 0, 1;
      log := Log([], 0);
    }

    /** The public way to make one: invalid limits are refused. */
    static method Create(lim: Limits) returns (r: Option<TerminalReplayBuffer>)
      ensures r.Some? <==> ValidLimits(lim)
      ensures r.Some? ==> fresh(r.value) && r.value.Valid() && r.value.lim == lim && r.value.log == Log([], 0)
    {
      if !ValidLimits(lim) { return None; }
      var buffer := new TerminalReplayBuffer(lim);
      return Some(buffer);
    }

    method PruneEntries(now: int)
      requires Valid()
      modifies this`entries, this`totalBytes, this`log
      ensures Valid() && log == Prune(lim, old(log), now)
    {
      ghost var goal := Prune(lim, log, now);
      while |entries| > 0
          && (|entries| > lim.maxEvents || totalBytes > lim.maxBytes || entries[0].event.timestamp < now - lim.maxAgeMs)
        invariant Retains(lim, entries, totalBytes, next, log) && Prune(lim, log, now) == goal
        decreases |entries|
      {
        var removed := entries[0];
        ghost var log' := log.(dropped := log.dropped + 1);
        PruneOnce(lim, entries, totalBytes, next, log, now, entries[1..], totalBytes - removed.bytes, log');
        entries := entries[1..];
        totalBytes := totalBytes - removed.bytes;
        log := log';
      }
      PruneDone(lim, entries, totalBytes, next, log, now);
    }

    method PushEntry(body: Body, bytes: nat, now: int) returns (event: Event)
      requires Valid() && bytes == EventBytes(body)
      modifies this
      ensures Valid() && log == Push(lim, old(log), body, now)
      ensures event == Event(old(next), now, body)
    {
      event := Event(next, now, body);
      ghost var pushed := Log(log.events + [Stored(event, bytes)], log.dropped);
      PushOnce(lim, entries, totalBytes, next, log, Stored(event, bytes));
      assert Push(lim, log, body, now) == Prune(lim, pushed, now);
      next := next + 1;
      entries := entries + [Stored(event, bytes)];
      totalBytes := totalBytes + bytes;
      log := pushed;
      PruneEntries(now);
    }

    /** Appends frames in order, pruning after each. */
    method AppendFrames(chunks: seq<Text>, now: int) returns (appended: seq<Event>, ghost tail: seq<Stored>)
      requires Valid()
      modifies this
      ensures Valid() && log == PushAll(lim, old(log), chunks, now)
      ensures log.events == old(log).events + tail && appended == EventsOf(tail)
    {
      appended, tail := [], [];
      var todo := chunks;
      ghost var goal, before := PushAll(lim, log, chunks, now), log.events;
      NothingAfter(before);
      while todo != []
        invariant Valid() && PushAll(lim, log, todo, now) == goal
        invariant log.events == before + tail && appended == EventsOf(tail)
        decreases |todo|
      {
        var data := todo[0];
        ghost var stored := Stored(Event(|log.events| + 1, now, Output(data)), EventBytes(Output(data)));
        PushFirst(lim, log, todo, now);
        EventsSnoc(tail, stored);
        Assoc(before, tail, [stored]);
        var event := PushEntry(Output(data), Utf8Size(data), now);
        tail := tail + [stored];
        appended := appended + [event];
        todo := todo[1..];
      }
    }

    /** Appends one sanitised output, cut into frames of at most 64 KiB. */
    method Append(data: Text, now: int) returns (appended: seq<Event>)
      requires Valid()
      modifies this
      ensures Valid()
      ensures data == [] ==> appended == [] && log == Prune(lim, old(log), now)
      ensures data != [] ==> exists chunks, tail ::
        && IsSplit(data, MAX_TERMINAL_FRAME_BYTES, chunks)
        && log == PushAll(lim, old(log), chunks, now)
        && log.events == old(log).events + tail && appended == EventsOf(tail)
    {
      if |data| == 0 {
        PruneEntries(now);
        return [];
      }
      var chunks := SplitUtf8(data, MAX_TERMINAL_FRAME_BYTES);
      ghost var tail;
      appended, tail := AppendFrames(chunks, now);
    }

    /** Appends one lifecycle event in the same sequence space. */
    method AppendLifecycle(json: Text, now: int) returns (event: Event)
      requires Valid()
      modifies this
      ensures Valid() && log == Push(lim, old(log), Lifecycle(json), now)
      ensures event == Event(old(next), now, Lifecycle(json))
    {
      event := PushEntry(Lifecycle(json), Utf8Size(json), now);
    }

    /** Exactly the log after `lastAck`, or word that its next event has been evicted. */
    method ReplayAfter(lastAck: int, now: int) returns (r: Option<Replay>)
      requires Valid()
      modifies this`entries, this`totalBytes, this`log
      ensures Valid() && log == if r.Some? then Prune(lim, old(log), now) else old(log)
      ensures r.Some? <==> 0 <= lastAck <= |log.events|
      ensures r.Some? ==> r.value == ReplayOf(log, lastAck)
    {
      if lastAck < 0 || lastAck >= next { return None; }
      PruneEntries(now);
      NumberedFrom(lim, entries, totalBytes, next, log);
      var replay := Answer(entries, next, lastAck, log);
      r := Some(replay);
    }
  }

  /** The answer from what is retained. */
  method Answer(entries: seq<Stored>, next: nat, lastAck: nat, ghost log: Log) returns (r: Replay)
    requires next == |log.events| + 1 && log.dropped <= |log.events| && entries == log.events[log.dropped..] && lastAck < next
    requires forall i :: 0 <= i < |entries| ==> entries[i].event.sequence == log.dropped + 1 + i
    ensures r == ReplayOf(log, lastAck)
  {
    var earliest := if |entries| > 0 then entries[0].event.sequence else next;
    var historyTruncated := lastAck < earliest - 1;
    var events: seq<Event> := [];
    if !historyTruncated {
      events := SelectAfter(entries, lastAck, earliest);
      RetainedAfter(log.events, log.dropped, lastAck);
    }
    r := Replay(events, next, historyTruncated);
  }

  lemma NumberedFrom(lim: Limits, entries: seq<Stored>, totalBytes: nat, next: nat, log: Log)
    requires Retains(lim, entries, totalBytes, next, log)
    ensures next == |log.events| + 1 && log.dropped <= |log.events| && entries == log.events[log.dropped..]
    ensures forall i :: 0 <= i < |entries| ==> entries[i].event.sequence == log.dropped + 1 + i
  {
  }

  lemma RetainedAfter(events: seq<Stored>, dropped: nat, k: nat)
    requires dropped <= k <= |events|
    ensures events[dropped..][k - dropped..] == events[k..]
  {
  }

  /** The stored events with a sequence above `k`, where sequences count up from `first`. */
  method SelectAfter(s: seq<Stored>, k: nat, first: nat) returns (events: seq<Event>)
    requires first <= k + 1 <= first + |s|
    requires forall i :: 0 <= i < |s| ==> s[i].event.sequence == first + i
    ensures events == EventsOf(s[k + 1 - first..])
  {
    events := [];
    var i, cut := 0, k + 1 - first;
    while i < |s|
      invariant 0 <= i <= |s|
      invariant events == EventsOf(s[cut..if i < cut then cut else i])
    {
      if s[i].event.sequence > k {
        events := events + [s[i].event];
      }
      i := i + 1;
    }
  }

  lemma DropFirst(s: seq<Stored>)
    requires s != []
    ensures TotalBytes(s) == s[0].bytes + TotalBytes(s[1..])
  {
    if |s| > 1 {
      DropFirst(s[..|s| - 1]);
      assert s[1..][..|s[1..]| - 1] == s[..|s| - 1][1..];
    }
  }

  lemma AddLast(s: seq<Stored>, x: Stored)
    ensures TotalBytes(s + [x]) == TotalBytes(s) + x.bytes
  {
    assert (s + [x])[..|s|] == s;
  }

  /** What a replay after event `k` has to say about a log. */
  function ReplayOf(l: Log, k: nat): Replay
    requires k <= |l.events|
  {
    Replay(if k < l.dropped then [] else EventsOf(l.events[k..]), |l.events| + 1, k < l.dropped)
  }

  /** A replay is the whole log after event `k`, in order and without a gap, unless event `k + 1`
      exists and has been evicted; then it says so and carries nothing. */
  lemma ReplayExact(l: Log, k: nat)
    requires Sound(l) && k <= |l.events|
    ensures var r := ReplayOf(l, k);
      && r.nextSequence == |l.events| + 1
      && (r.historyTruncated <==> k + 1 <= |l.events| && l.events[k] !in l.events[l.dropped..])
      && (!r.historyTruncated ==> |r.events| == |l.events| - k)
      && (forall i :: 0 <= i < |r.events| ==> r.events[i] == l.events[k + i].event && r.events[i].sequence == k + 1 + i)
      && (r.historyTruncated ==> r.events == [])
  {
    if k < l.dropped {
      forall i | l.dropped <= i < |l.events| ensures l.events[i] != l.events[k] {
        assert l.events[i].event.sequence != l.events[k].event.sequence;
      }
    } else if k < |l.events| {
      assert l.events[l.dropped..][k - l.dropped] == l.events[k];
    }
  }
}
