/** JavaScript strings as sequences of UTF-16 code units, and the UTF-8 size of what they encode. */
module Unicode {
  type Unit = u: nat | u < 0x1_0000
  type Text = seq<Unit>

  function Ascii(s: string): (t: Text)
    requires forall i :: 0 <= i < |s| ==> s[i] as int < 128
    ensures |t| == |s|
  {
    seq(|s|, i requires 0 <= i < |s| => s[i] as int)
  }

  /** White space and line terminators of ECMAScript. */
  predicate IsSpace(u: Unit) {
    || 9 <= u <= 13 || u == 0x20 || u == 0xA0 || u == 0x1680 || 0x2000 <= u <= 0x200A
    || u == 0x2028 || u == 0x2029 || u == 0x202F || u == 0x205F || u == 0x3000 || u == 0xFEFF
  }

  lemma Assoc<T>(a: seq<T>, b: seq<T>, c: seq<T>)
    ensures a + b + c == a + (b + c)
  {
  }

  lemma Alone<T>(x: T)
    ensures [x][1..] == []
  {
  }

  lemma NothingAfter<T>(a: seq<T>)
    ensures a + [] == a && [] + a == a
  {
  }

  lemma SameHeadAndTail<T>(a: seq<T>, b: seq<T>)
    requires a != [] && b != [] && a[0] == b[0] && a[1..] == b[1..]
    ensures a == b
  {
    assert a == [a[0]] + a[1..] && b == [b[0]] + b[1..];
  }

  predicate IsHigh(u: Unit) { 0xD800 <= u < 0xDC00 }

  predicate IsLow(u: Unit) { 0xDC00 <= u < 0xE000 }

  /** How many units the first character takes: two for a surrogate pair, otherwise one. */
  function CharUnits(t: Text): (n: nat)
    requires t != []
    ensures 1 <= n <= |t| && n <= 2
  {
    if |t| >= 2 && IsHigh(t[0]) && IsLow(t[1]) then 2 else 1
  }

  /** The code point of the first character; a lone surrogate stands for itself. */
  function FirstPoint(t: Text): (cp: nat)
    requires t != []
    ensures cp < 0x11_0000
  {
    if CharUnits(t) == 2 then 0x1_0000 + (t[0] as int - 0xD800) * 0x400 + (t[1] as int - 0xDC00) else t[0]
  }

  /** The code points a string iterates over. */
  function Points(t: Text): seq<nat>
    decreases |t|
  {
    if t == [] then [] else [FirstPoint(t)] + Points(t[CharUnits(t)..])
  }

  /** Bytes of one code point in UTF-8; a lone surrogate is encoded as U+FFFD, also three bytes. */
  function PointBytes(cp: nat): (n: nat)
    ensures 1 <= n <= 4
  {
    if cp < 0x80 then 1 else if cp < 0x800 then 2 else if cp < 0x1_0000 then 3 else 4
  }

  function PointsBytes(cps: seq<nat>): nat {
    if cps == [] then 0 else PointBytes(cps[0]) + PointsBytes(cps[1..])
  }

  function Utf8Size(t: Text): nat {
    PointsBytes(Points(t))
  }

  /** Cutting between `a` and `b` does not cut a surrogate pair. */
  predicate CutsCleanly(a: Text, b: Text) {
    a == [] || b == [] || !(IsHigh(a[|a| - 1]) && IsLow(b[0]))
  }

  lemma {:induction false} PointsOfConcat(a: Text, b: Text)
    requires CutsCleanly(a, b)
    ensures Points(a + b) == Points(a) + Points(b)
    decreases |a|
  {
    if a == [] {
      NothingAfter(b);
      NothingAfter(Points(b));
    } else {
      var rest := a[CharUnits(a)..];
      FirstOfConcat(a, b);
      PointsOfConcat(rest, b);
      Assoc([FirstPoint(a)], Points(rest), Points(b));
    }
  }

  lemma FirstOfConcat(a: Text, b: Text)
    requires a != [] && CutsCleanly(a, b)
    ensures CharUnits(a + b) == CharUnits(a) && FirstPoint(a + b) == FirstPoint(a)
    ensures (a + b)[CharUnits(a)..] == a[CharUnits(a)..] + b && CutsCleanly(a[CharUnits(a)..], b)
  {
  }

  lemma {:induction false} PointsBytesOfConcat(a: seq<nat>, b: seq<nat>)
    ensures PointsBytes(a + b) == PointsBytes(a) + PointsBytes(b)
    decreases |a|
  {
    if a == [] {
      assert a + b == b;
    } else {
      assert (a + b)[1..] == a[1..] + b;
      PointsBytesOfConcat(a[1..], b);
    }
  }

  lemma SizeOfConcat(a: Text, b: Text)
    requires CutsCleanly(a, b)
    ensures Utf8Size(a + b) == Utf8Size(a) + Utf8Size(b)
  {
    PointsOfConcat(a, b);
    PointsBytesOfConcat(Points(a), Points(b));
  }
}
