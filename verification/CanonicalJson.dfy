/** Canonical JSON: deterministic rendering with sorted keys, the input of every stored fingerprint.
    A value is what is left once `toJSON` has been applied. A number is its ECMAScript decimal text, so
    that -0 and 0 are one number, or `None` when it is not finite. */
module CanonicalJson {
  import opened Wrappers
  import opened Unicode

  datatype Member = Member(key: Text, value: Json)

  datatype Json =
    | JUndefined
    | JNull
    | JBool(bit: bool)
    | JNumber(text: Option<Text>)
    | JString(string_: Text)
    | JArray(items: seq<Json>)
    | JObject(members: seq<Member>)
    | JUnsupported

  const QUOTE: Unit := 34
  const COMMA: Unit := 44
  const COLON: Unit := 58
  const BACKSLASH: Unit := 92

  predicate IsNumberUnit(u: Unit) { 48 <= u <= 57 || u == 43 || u == 45 || u == 46 || u == 101 }

  predicate IsNumberText(t: Text) {
    t != [] && (48 <= t[0] <= 57 || t[0] == 45) && forall i :: 0 <= i < |t| ==> IsNumberUnit(t[i])
  }

  /** What JavaScript guarantees of the values: property names are distinct. */
  predicate WellFormed(v: Json) {
    match v
    case JNumber(Some(t)) => IsNumberText(t)
    case JArray(items) => forall i :: 0 <= i < |items| ==> WellFormed(items[i])
    case JObject(ms) =>
      && (forall i, j :: 0 <= i < j < |ms| ==> ms[i].key != ms[j].key)
      && (forall i :: 0 <= i < |ms| ==> WellFormed(ms[i].value))
    case _ => true
  }

  /** No non-finite number, function, symbol or bigint anywhere. */
  predicate Supported(v: Json) {
    match v
    case JUnsupported => false
    case JNumber(text) => text.Some?
    case JArray(items) => forall i :: 0 <= i < |items| ==> Supported(items[i])
    case JObject(ms) => forall i :: 0 <= i < |ms| ==> Supported(ms[i].value)
    case _ => true
  }

  // ----- when two values mean the same -----

  /** Equal up to the order of object keys and undefined properties; an undefined array entry is null. */
  ghost predicate Equivalent(a: Json, b: Json)
    decreases a, 0
  {
    match (a, b)
    case (JArray(xs), JArray(ys)) =>
      |xs| == |ys| && forall i :: 0 <= i < |xs| ==> EntryEquivalent(xs[i], ys[i])
    case (JObject(ms), JObject(ns)) =>
      && (forall i :: 0 <= i < |ms| && !ms[i].value.JUndefined? ==>
            exists j :: 0 <= j < |ns| && ns[j].key == ms[i].key && !ns[j].value.JUndefined? && Equivalent(ms[i].value, ns[j].value))
      && (forall j :: 0 <= j < |ns| && !ns[j].value.JUndefined? ==>
            exists i :: 0 <= i < |ms| && ms[i].key == ns[j].key && !ms[i].value.JUndefined?)
    case _ => a == b
  }

  ghost predicate EntryEquivalent(a: Json, b: Json)
    decreases a, 1
  {
    if a.JUndefined? || b.JUndefined? then (a.JUndefined? || a.JNull?) && (b.JUndefined? || b.JNull?) else Equivalent(a, b)
  }

  // ----- key order -----

  /** `<` on JavaScript strings. */
  predicate Less(a: Text, b: Text) {
    if b == [] then false
    else if a == [] then true
    else a[0] < b[0] || (a[0] == b[0] && Less(a[1..], b[1..]))
  }

  function Insert(key: Text, keys: seq<Text>): seq<Text> {
    if keys == [] || Less(key, keys[0]) then [key] + keys else [keys[0]] + Insert(key, keys[1..])
  }

  function SortTexts(keys: seq<Text>): seq<Text> {
    if keys == [] then [] else Insert(keys[0], SortTexts(keys[1..]))
  }

  predicate Ascending(keys: seq<Text>) { forall i, j :: 0 <= i < j < |keys| ==> Less(keys[i], keys[j]) }

  lemma {:induction false} LessOrder(a: Text, b: Text, c: Text)
    ensures !Less(a, a)
    ensures a != b ==> Less(a, b) || Less(b, a)
    ensures Less(a, b) && Less(b, c) ==> Less(a, c)
  {
    if a != [] || b != [] || c != [] {
      LessOrder(if a == [] then [] else a[1..], if b == [] then [] else b[1..], if c == [] then [] else c[1..]);
      if a != [] && b != [] && a[0] == b[0] && a[1..] == b[1..] { assert a == [a[0]] + a[1..] == b; }
    }
  }

  lemma {:induction false} InsertSorted(key: Text, keys: seq<Text>)
    requires Ascending(keys) && key !in keys
    ensures Ascending(Insert(key, keys))
    ensures forall k :: k in Insert(key, keys) <==> k == key || k in keys
  {
    if keys != [] {
      LessOrder(key, keys[0], keys[0]);
      if Less(key, keys[0]) {
        forall j | 0 <= j < |keys|
          ensures Less(key, keys[j])
        {
          LessOrder(key, keys[0], keys[j]);
        }
      } else {
        InsertSorted(key, keys[1..]);
        var rest := Insert(key, keys[1..]);
        forall j | 0 <= j < |rest|
          ensures Less(keys[0], rest[j])
        {
          assert rest[j] in rest;
          if rest[j] != key {
            var i :| 0 <= i < |keys[1..]| && keys[1..][i] == rest[j];
            assert Less(keys[0], keys[i + 1]);
          }
        }
      }
    }
  }

  lemma {:induction false} SortSorts(keys: seq<Text>)
    requires forall i, j :: 0 <= i < j < |keys| ==> keys[i] != keys[j]
    ensures Ascending(SortTexts(keys)) && forall k :: k in SortTexts(keys) <==> k in keys
  {
    if keys != [] {
      SortSorts(keys[1..]);
      assert keys[0] !in keys[1..];
      InsertSorted(keys[0], SortTexts(keys[1..]));
    }
  }

  // ----- string escaping -----

  function HexDigit(n: nat): Unit
    requires n < 16
  {
    if n < 10 then 48 + n else 87 + n
  }

  function UnicodeEscape(u: Unit): Text {
    [BACKSLASH, 117, HexDigit(u / 16 / 16 / 16), HexDigit(u / 16 / 16 % 16), HexDigit(u / 16 % 16), HexDigit(u % 16)]
  }

  /** One character as `JSON.stringify` writes it: a well-formed surrogate pair or an ordinary unit as
      itself, everything else escaped. */
  function EscapeHead(s: Text): Text
    requires s != []
  {
    if CharUnits(s) == 2 then s[..2]
    else if s[0] == QUOTE || s[0] == BACKSLASH then [BACKSLASH, s[0]]
    else if s[0] == 8 then [BACKSLASH, 98]
    else if s[0] == 9 then [BACKSLASH, 116]
    else if s[0] == 10 then [BACKSLASH, 110]
    else if s[0] == 12 then [BACKSLASH, 102]
    else if s[0] == 13 then [BACKSLASH, 114]
    else if s[0] < 32 || IsHigh(s[0]) || IsLow(s[0]) then UnicodeEscape(s[0])
    else [s[0]]
  }

  function EscapeBody(s: Text): Text
    decreases |s|
  {
    if s == [] then [] else EscapeHead(s) + EscapeBody(s[CharUnits(s)..])
  }

  function Quoted(s: Text): Text { [QUOTE] + EscapeBody(s) + [QUOTE] }

  function HexValue(u: Unit): (v: Option<nat>)
    ensures v.Some? ==> v.value < 16
  {
    if 48 <= u <= 57 then Some(u - 48) else if 97 <= u <= 102 then Some(u - 87) else if 65 <= u <= 70 then Some(u - 55) else None
  }

  /** One `char` of section 7 of RFC 8259: the units it denotes and the units it takes. */
  function ReadChar(e: Text): (r: Option<(Text, nat)>)
    ensures r.Some? ==> 1 <= r.value.1 <= |e|
  {
    if e == [] || e[0] < 32 || e[0] == QUOTE || IsLow(e[0]) then None
    else if IsHigh(e[0]) then if CharUnits(e) == 2 then Some((e[..2], 2)) else None
    else if e[0] != BACKSLASH then Some(([e[0]], 1))
    else if |e| < 2 then None
    else if e[1] == QUOTE || e[1] == BACKSLASH || e[1] == 47 then Some(([e[1]], 2))
    else if e[1] == 98 then Some(([8], 2))
    else if e[1] == 102 then Some(([12], 2))
    else if e[1] == 110 then Some(([10], 2))
    else if e[1] == 114 then Some(([13], 2))
    else if e[1] == 116 then Some(([9], 2))
    else if e[1] != 117 || |e| < 6 then None
    else
      var a, b, c, d := HexValue(e[2]), HexValue(e[3]), HexValue(e[4]), HexValue(e[5]);
      if a.None? || b.None? || c.None? || d.None? then None
      else Some(([Word(a.value, b.value, c.value, d.value)], 6))
  }

  function Word(a: nat, b: nat, c: nat, d: nat): Unit
    requires a < 16 && b < 16 && c < 16 && d < 16
  {
    a * 4096 + b * 256 + c * 16 + d
  }

  /** The characters up to the closing quotation mark, and what follows it. */
  function ReadBody(e: Text): Option<(Text, Text)>
    decreases |e|
  {
    if e != [] && e[0] == QUOTE then Some(([], e[1..]))
    else
      var head := ReadChar(e);
      if head.None? then None
      else
        var rest := ReadBody(e[head.value.1..]);
        if rest.None? then None else Some((head.value.0 + rest.value.0, rest.value.1))
  }

  function ReadString(e: Text): Option<(Text, Text)> {
    if e != [] && e[0] == QUOTE then ReadBody(e[1..]) else None
  }

  lemma HexRoundTrip(u: Unit)
    ensures Word(u / 16 / 16 / 16, u / 16 / 16 % 16, u / 16 % 16, u % 16) == u
  {
  }

  lemma DigitRoundTrip(n: nat)
    requires n < 16
    ensures HexValue(HexDigit(n)) == Some(n)
  {
  }

  lemma HeadRead(s: Text, rest: Text)
    requires s != []
    ensures ReadChar(EscapeHead(s) + rest) == Some((s[..CharUnits(s)], |EscapeHead(s)|))
    ensures EscapeHead(s)[0] != QUOTE
  {
    var e := EscapeHead(s) + rest;
    if CharUnits(s) == 2 {
      assert e[0] == s[0] && e[1] == s[1];
      assert e[..2] == s[..2];
    } else {
      assert s[..1] == [s[0]];
      HexRoundTrip(s[0]);
      DigitRoundTrip(s[0] / 16 / 16 / 16);
      DigitRoundTrip(s[0] / 16 / 16 % 16);
      DigitRoundTrip(s[0] / 16 % 16);
      DigitRoundTrip(s[0] % 16);
    }
  }

  /** A reader of section 7 of RFC 8259 gets back the string, and stops exactly where it ends. */
  lemma {:induction false} BodyRead(s: Text, rest: Text)
    ensures ReadBody(EscapeBody(s) + [QUOTE] + rest) == Some((s, rest))
    decreases |s|
  {
    var e := EscapeBody(s) + [QUOTE] + rest;
    if s == [] {
      NothingAfter([QUOTE]);
      assert e[1..] == rest;
    } else {
      var n, head := CharUnits(s), EscapeHead(s);
      var body := EscapeBody(s[n..]);
      var tail := body + [QUOTE] + rest;
      Assoc(head, body, [QUOTE]);
      Assoc(head, body + [QUOTE], rest);
      HeadRead(s, tail);
      DropHead(head, tail);
      BodyRead(s[n..], rest);
      CutTogether(s, n);
    }
  }

  lemma DropHead(a: Text, b: Text)
    ensures (a + b)[|a|..] == b
  {
  }

  lemma CutTogether(s: Text, n: nat)
    requires n <= |s|
    ensures s[..n] + s[n..] == s
  {
  }

  lemma StringRoundTrip(s: Text, rest: Text)
    ensures ReadString(Quoted(s) + rest) == Some((s, rest))
  {
    BodyRead(s, rest);
    assert (Quoted(s) + rest)[1..] == EscapeBody(s) + [QUOTE] + rest;
  }

  // ----- rendering -----

  /** What a value means: no undefined, members by ascending key. */
  datatype Tree =
    | TNull
    | TBool(bit: bool)
    | TNumber(text: Text)
    | TString(string_: Text)
    | TArray(trees: seq<Tree>)
    | TObject(leaves: seq<Leaf>)

  datatype Leaf = Leaf(key: Text, tree: Tree)

  function KeysOf(ms: seq<Member>): seq<Text> {
    seq(|ms|, i requires 0 <= i < |ms| => ms[i].key)
  }

  predicate Has(ms: seq<Member>, key: Text) { exists i :: 0 <= i < |ms| && ms[i].key == key }

  /** `record[key]` */
  function Lookup(ms: seq<Member>, key: Text): (v: Json)
    requires Has(ms, key)
    ensures exists i :: 0 <= i < |ms| && ms[i].key == key && ms[i].value == v
  {
    if ms[0].key == key then ms[0].value
    else
      assert Has(ms[1..], key) by {
        var i :| 0 <= i < |ms| && ms[i].key == key;
        assert ms[1..][i - 1].key == key;
      }
      Lookup(ms[1..], key)
  }

  predicate Within(keys: seq<Text>, ms: seq<Member>) { forall key :: key in keys ==> Has(ms, key) }

  lemma SortedWithin(ms: seq<Member>)
    requires WellFormed(JObject(ms))
    ensures Within(SortTexts(KeysOf(ms)), ms)
  {
    var keys := SortTexts(KeysOf(ms));
    SortSorts(KeysOf(ms));
    forall key | key in keys
      ensures Has(ms, key)
    {
      var i :| 0 <= i < |KeysOf(ms)| && KeysOf(ms)[i] == key;
      assert ms[i].key == key;
    }
  }

  function Meaning(v: Json): Tree
    requires WellFormed(v)
    decreases v, 0
  {
    match v
    case JBool(b) => TBool(b)
    case JNumber(Some(t)) => TNumber(t)
    case JString(s) => TString(s)
    case JArray(items) => TArray(MeaningOfItems(items))
    case JObject(ms) =>
      SortedWithin(ms);
      TObject(MeaningOfMembers(ms, SortTexts(KeysOf(ms))))
    case _ => TNull
  }

  function MeaningOfItems(items: seq<Json>): (r: seq<Tree>)
    requires forall i :: 0 <= i < |items| ==> WellFormed(items[i])
    ensures |r| == |items|
    decreases items, |items|
  {
    if items == [] then [] else [Meaning(items[0])] + MeaningOfItems(items[1..])
  }

  function MeaningOfMembers(ms: seq<Member>, keys: seq<Text>): seq<Leaf>
    requires WellFormed(JObject(ms)) && Within(keys, ms)
    decreases ms, |keys|
  {
    if keys == [] then []
    else
      var v := Lookup(ms, keys[0]);
      var rest := MeaningOfMembers(ms, keys[1..]);
      if v.JUndefined? then rest else [Leaf(keys[0], Meaning(v))] + rest
  }

  function Join(parts: seq<Text>): Text {
    if parts == [] then [] else if |parts| == 1 then parts[0] else parts[0] + [COMMA] + Join(parts[1..])
  }

  function Print(t: Tree): Text
    decreases t, 0
  {
    match t
    case TNull => Ascii("null")
    case TBool(b) => if b then Ascii("true") else Ascii("false")
    case TNumber(text) => text
    case TString(s) => Quoted(s)
    case TArray(ts) => [91] + Join(PrintItems(ts)) + [93]
    case TObject(ls) => [123] + Join(PrintLeaves(ls)) + [125]
  }

  function PrintItems(ts: seq<Tree>): (r: seq<Text>)
    ensures |r| == |ts|
    decreases ts, |ts|
  {
    if ts == [] then [] else [Print(ts[0])] + PrintItems(ts[1..])
  }

  function PrintLeaves(ls: seq<Leaf>): (r: seq<Text>)
    ensures |r| == |ls|
    decreases ls, |ls|
  {
    if ls == [] then [] else [Quoted(ls[0].key) + [COLON] + Print(ls[0].tree)] + PrintLeaves(ls[1..])
  }

  datatype Error = UnsupportedValue

  function Rendered(v: Json): Result<Option<Text>, Error>
    requires WellFormed(v)
  {
    if !Supported(v) then Err(UnsupportedValue) else if v.JUndefined? then Ok(None) else Ok(Some(Print(Meaning(v))))
  }

  function Canonical(v: Json): Result<Text, Error>
    requires WellFormed(v)
  {
    if Supported(v) && !v.JUndefined? then Ok(Print(Meaning(v))) else Err(UnsupportedValue)
  }

  method CanonicalJsonStringify(v: Json) returns (r: Result<Text, Error>)
    requires WellFormed(v)
    ensures r == Canonical(v)
  {
    var rendered := CanonicalJsonValue(v);
    r := if rendered.Err? then Err(rendered.error) else if rendered.value.None? then Err(UnsupportedValue) else Ok(rendered.value.value);
  }

  lemma {:induction false} LookupFinds(ms: seq<Member>, i: nat)
    requires i < |ms| && forall j, k :: 0 <= j < k < |ms| ==> ms[j].key != ms[k].key
    ensures Lookup(ms, ms[i].key) == ms[i].value
  {
    if i > 0 {
      assert ms[1..][i - 1] == ms[i];
      LookupFinds(ms[1..], i - 1);
    }
  }

  lemma MembersSupported(ms: seq<Member>, keys: seq<Text>)
    requires WellFormed(JObject(ms)) && keys == SortTexts(KeysOf(ms)) && Within(keys, ms)
    requires forall k :: 0 <= k < |keys| ==> Supported(Lookup(ms, keys[k]))
    ensures Supported(JObject(ms))
  {
    SortSorts(KeysOf(ms));
    forall i | 0 <= i < |ms|
      ensures Supported(ms[i].value)
    {
      assert KeysOf(ms)[i] in KeysOf(ms);
      LookupFinds(ms, i);
    }
  }

  method CanonicalJsonValue(v: Json) returns (r: Result<Option<Text>, Error>)
    requires WellFormed(v)
    ensures r == Rendered(v)
    decreases v, 1
  {
    match v
    case JUndefined => r := Ok(None);
    case JNull => r := Ok(Some(Ascii("null")));
    case JBool(b) => r := Ok(Some(if b then Ascii("true") else Ascii("false")));
    case JNumber(text) => r := if text.None? then Err(UnsupportedValue) else Ok(text);
    case JString(s) => r := Ok(Some(Quoted(s)));
    case JUnsupported => r := Err(UnsupportedValue);
    case JArray(items) => r := CanonicalArray(v);
    case JObject(ms) => r := CanonicalObject(v);
  }

  predicate SupportedFrom(items: seq<Json>, i: nat) { forall j :: i <= j < |items| ==> Supported(items[j]) }

  function PendingItems(v: Json, i: nat): seq<Text>
    requires WellFormed(v) && v.JArray? && i <= |v.items|
  {
    PrintItems(MeaningOfItems(v.items[i..]))
  }

  lemma PendingItem(v: Json, i: nat)
    requires WellFormed(v) && v.JArray? && i < |v.items|
    ensures PendingItems(v, i) == [Print(Meaning(v.items[i]))] + PendingItems(v, i + 1)
  {
    var rest := v.items[i..];
    assert rest[0] == v.items[i] && rest[1..] == v.items[i + 1..];
  }

  method CanonicalArray(v: Json) returns (r: Result<Option<Text>, Error>)
    requires WellFormed(v) && v.JArray?
    ensures r == Rendered(v)
    decreases v, 0
  {
    var items := v.items;
    var parts: seq<Text>, i: nat := [], 0;
    assert items[0..] == items;
    NothingAfter(PendingItems(v, 0));
    while i < |items|
      invariant 0 <= i <= |items|
      invariant SupportedFrom(items, 0) <==> SupportedFrom(items, i)
      invariant PendingItems(v, 0) == parts + PendingItems(v, i)
    {
      var entry := CanonicalJsonValue(items[i]);
      if entry.Err? { return Err(entry.error); }
      var text := if entry.value.Some? then entry.value.value else Ascii("null");
      PendingItem(v, i);
      Assoc(parts, [text], PendingItems(v, i + 1));
      parts := parts + [text];
      i := i + 1;
    }
    NothingAfter(parts);
    r := Ok(Some([91] + Join(parts) + [93]));
  }

  function Pending(ms: seq<Member>, keys: seq<Text>, i: nat): seq<Text>
    requires WellFormed(JObject(ms)) && Within(keys, ms) && i <= |keys|
  {
    PrintLeaves(MeaningOfMembers(ms, keys[i..]))
  }

  lemma PendingStep(ms: seq<Member>, keys: seq<Text>, i: nat)
    requires WellFormed(JObject(ms)) && Within(keys, ms) && i < |keys|
    ensures var v := Lookup(ms, keys[i]);
      WellFormed(v) &&
      Pending(ms, keys, i) ==
        (if v.JUndefined? then [] else [Quoted(keys[i]) + [COLON] + Print(Meaning(v))]) + Pending(ms, keys, i + 1)
  {
    assert keys[i..][0] == keys[i] && keys[i..][1..] == keys[i + 1..];
  }

  method CanonicalObject(v: Json) returns (r: Result<Option<Text>, Error>)
    requires WellFormed(v) && v.JObject?
    ensures r == Rendered(v)
    decreases v, 0
  {
    var ms := v.members;
    SortedWithin(ms);
    var keys := SortTexts(KeysOf(ms));
    var entries: seq<Text>, i := [], 0;
    while i < |keys|
      invariant 0 <= i <= |keys|
      invariant forall j :: 0 <= j < i ==> Supported(Lookup(ms, keys[j]))
      invariant Pending(ms, keys, 0) == entries + Pending(ms, keys, i)
    {
      var value := Lookup(ms, keys[i]);
      var rendered := CanonicalJsonValue(value);
      if rendered.Err? { return Err(rendered.error); }
      PendingStep(ms, keys, i);
      if rendered.value.Some? { entries := entries + [Quoted(keys[i]) + [COLON] + rendered.value.value]; }
      i := i + 1;
    }
    MembersSupported(ms, keys);
    assert keys[0..] == keys && Pending(ms, keys, i) == [] && entries + [] == entries;
    r := Ok(Some([123] + Join(entries) + [125]));
  }

  // ----- a text has one reading -----

  predicate ValidTree(t: Tree) {
    match t
    case TNumber(text) => IsNumberText(text)
    case TArray(ts) => forall i :: 0 <= i < |ts| ==> ValidTree(ts[i])
    case TObject(ls) => forall i :: 0 <= i < |ls| ==> ValidTree(ls[i].tree)
    case _ => true
  }

  /** What may follow a rendered value. */
  predicate Closed(x: Text) { x == [] || x[0] == COMMA || x[0] == 93 || x[0] == 125 }

  function Kind(u: Unit): nat {
    if u == 110 then 1 else if u == 116 then 2 else if u == 102 then 3 else if 48 <= u <= 57 || u == 45 then 4
    else if u == QUOTE then 5 else if u == 91 then 6 else if u == 123 then 7 else 0
  }

  lemma FirstUnit(t: Tree)
    requires ValidTree(t)
    ensures Print(t) != []
    ensures Kind(Print(t)[0]) == match t
      case TNull => 1
      case TBool(b) => if b then 2 else 3
      case TNumber(_) => 4
      case TString(_) => 5
      case TArray(_) => 6
      case TObject(_) => 7
  {
  }

  lemma SamePrefix(p: Text, x: Text, y: Text)
    requires p + x == p + y
    ensures x == y
  {
    assert x == (p + x)[|p|..] && y == (p + y)[|p|..];
  }

  lemma NoShorter(a: Text, b: Text, x: Text, y: Text)
    requires IsNumberText(b) && Closed(x) && a + x == b + y
    ensures |a| >= |b|
  {
    if |a| < |b| { UnitAt(b, y, |a|); }
  }

  lemma UnitAt(b: Text, y: Text, k: nat)
    requires k < |b|
    ensures (b + y)[k] == b[k]
  {
  }

  lemma NumberUnique(a: Text, b: Text, x: Text, y: Text)
    requires IsNumberText(a) && IsNumberText(b) && Closed(x) && Closed(y) && a + x == b + y
    ensures a == b && x == y
  {
    NoShorter(a, b, x, y);
    NoShorter(b, a, y, x);
    assert a == (a + x)[..|a|] && b == (b + y)[..|b|];
    SamePrefix(a, x, y);
  }

  lemma StringUnique(a: Text, b: Text, x: Text, y: Text)
    requires Quoted(a) + x == Quoted(b) + y
    ensures a == b && x == y
  {
    StringRoundTrip(a, x);
    StringRoundTrip(b, y);
  }

  lemma ArrayText(ts: seq<Tree>, x: Text)
    ensures Print(TArray(ts)) + x == [91] + ItemsText(ts, x)
  {
  }

  lemma ObjectText(ls: seq<Leaf>, x: Text)
    ensures Print(TObject(ls)) + x == [123] + LeavesText(ls, x)
  {
  }

  /** A rendered value determines the value, and where it ends, whatever follows it. */
  lemma {:induction false} PrintUnique(a: Tree, b: Tree, x: Text, y: Text)
    requires ValidTree(a) && ValidTree(b) && Closed(x) && Closed(y)
    requires Print(a) + x == Print(b) + y
    ensures a == b && x == y
    decreases a, 0
  {
    FirstUnit(a);
    FirstUnit(b);
    assert Print(a)[0] == (Print(a) + x)[0] == (Print(b) + y)[0] == Print(b)[0];
    match a
    case TNull => SamePrefix(Print(a), x, y);
    case TBool(_) => SamePrefix(Print(a), x, y);
    case TNumber(text) => NumberUnique(text, b.text, x, y);
    case TString(s) => StringUnique(s, b.string_, x, y);
    case TArray(ts) =>
      ArrayText(ts, x);
      ArrayText(b.trees, y);
      SamePrefix([91], ItemsText(ts, x), ItemsText(b.trees, y));
      ItemsUnique(ts, b.trees, x, y);
    case TObject(ls) =>
      ObjectText(ls, x);
      ObjectText(b.leaves, y);
      SamePrefix([123], LeavesText(ls, x), LeavesText(b.leaves, y));
      LeavesUnique(ls, b.leaves, x, y);
  }

  /** What follows the first of several joined parts. */
  function JoinTail(parts: seq<Text>, end: Text): Text
    requires parts != []
  {
    if |parts| == 1 then end else [COMMA] + (Join(parts[1..]) + end)
  }

  lemma JoinSplit(parts: seq<Text>, end: Text)
    requires parts != []
    ensures Join(parts) + end == parts[0] + JoinTail(parts, end)
  {
  }

  function ItemsText(ts: seq<Tree>, x: Text): Text { Join(PrintItems(ts)) + ([93] + x) }

  function ItemsTail(ts: seq<Tree>, x: Text): Text
    requires ts != []
  {
    if |ts| == 1 then [93] + x else [COMMA] + ItemsText(ts[1..], x)
  }

  lemma ItemsSplit(ts: seq<Tree>, x: Text)
    requires ts != []
    ensures ItemsText(ts, x) == Print(ts[0]) + ItemsTail(ts, x)
  {
    JoinSplit(PrintItems(ts), [93] + x);
  }

  lemma ItemsTailUnique(as_: seq<Tree>, bs: seq<Tree>, x: Text, y: Text)
    requires as_ != [] && bs != [] && ItemsTail(as_, x) == ItemsTail(bs, y)
    ensures |as_| == 1 <==> |bs| == 1
    ensures if |as_| == 1 then x == y else ItemsText(as_[1..], x) == ItemsText(bs[1..], y)
  {
    assert ItemsTail(as_, x)[0] == ItemsTail(bs, y)[0];
    if |as_| == 1 {
      SamePrefix([93], x, y);
    } else {
      SamePrefix([COMMA], ItemsText(as_[1..], x), ItemsText(bs[1..], y));
    }
  }

  /** A text of items starts with a value unless there are none. */
  lemma ItemsFirst(ts: seq<Tree>, x: Text)
    requires forall i :: 0 <= i < |ts| ==> ValidTree(ts[i])
    ensures ItemsText(ts, x) != [] && (ItemsText(ts, x)[0] == 93 <==> ts == [])
    ensures ts == [] ==> ItemsText(ts, x) == [93] + x
    ensures ts != [] ==> ItemsText(ts, x) == Print(ts[0]) + ItemsTail(ts, x)
  {
    if ts == [] {
      NothingAfter([93] + x);
    } else {
      ItemsSplit(ts, x);
      FirstUnit(ts[0]);
    }
  }

  lemma {:induction false} ItemsUnique(as_: seq<Tree>, bs: seq<Tree>, x: Text, y: Text)
    requires forall i :: 0 <= i < |as_| ==> ValidTree(as_[i])
    requires forall i :: 0 <= i < |bs| ==> ValidTree(bs[i])
    requires ItemsText(as_, x) == ItemsText(bs, y)
    ensures as_ == bs && x == y
    decreases as_, |as_|
  {
    ItemsFirst(as_, x);
    ItemsFirst(bs, y);
    if as_ == [] {
      SamePrefix([93], x, y);
    } else {
      PrintUnique(as_[0], bs[0], ItemsTail(as_, x), ItemsTail(bs, y));
      ItemsTailUnique(as_, bs, x, y);
      if |as_| > 1 { ItemsUnique(as_[1..], bs[1..], x, y); }
      SameHeadAndTail(as_, bs);
    }
  }

  function LeavesText(ls: seq<Leaf>, x: Text): Text { Join(PrintLeaves(ls)) + ([125] + x) }

  function LeavesTail(ls: seq<Leaf>, x: Text): Text
    requires ls != []
  {
    if |ls| == 1 then [125] + x else [COMMA] + LeavesText(ls[1..], x)
  }

  lemma LeavesSplit(ls: seq<Leaf>, x: Text)
    requires ls != []
    ensures LeavesText(ls, x) == Quoted(ls[0].key) + ([COLON] + (Print(ls[0].tree) + LeavesTail(ls, x)))
  {
    JoinSplit(PrintLeaves(ls), [125] + x);
  }

  lemma LeavesHeadUnique(as_: seq<Leaf>, bs: seq<Leaf>, x: Text, y: Text)
    requires as_ != [] && bs != [] && LeavesText(as_, x) == LeavesText(bs, y)
    ensures as_[0].key == bs[0].key
    ensures Print(as_[0].tree) + LeavesTail(as_, x) == Print(bs[0].tree) + LeavesTail(bs, y)
  {
    var restA, restB := Print(as_[0].tree) + LeavesTail(as_, x), Print(bs[0].tree) + LeavesTail(bs, y);
    LeavesSplit(as_, x);
    LeavesSplit(bs, y);
    StringUnique(as_[0].key, bs[0].key, [COLON] + restA, [COLON] + restB);
    SamePrefix([COLON], restA, restB);
  }

  lemma LeavesTailUnique(as_: seq<Leaf>, bs: seq<Leaf>, x: Text, y: Text)
    requires as_ != [] && bs != [] && LeavesTail(as_, x) == LeavesTail(bs, y)
    ensures |as_| == 1 <==> |bs| == 1
    ensures if |as_| == 1 then x == y else LeavesText(as_[1..], x) == LeavesText(bs[1..], y)
  {
    assert LeavesTail(as_, x)[0] == LeavesTail(bs, y)[0];
    if |as_| == 1 {
      SamePrefix([125], x, y);
    } else {
      SamePrefix([COMMA], LeavesText(as_[1..], x), LeavesText(bs[1..], y));
    }
  }

  /** A text of members starts with a quotation mark unless there are none. */
  lemma LeavesFirst(ls: seq<Leaf>, x: Text)
    ensures LeavesText(ls, x) != [] && LeavesText(ls, x)[0] == if ls == [] then 125 else QUOTE
    ensures ls == [] ==> LeavesText(ls, x) == [125] + x
  {
    if ls == [] { NothingAfter([125] + x); } else { LeavesSplit(ls, x); }
  }

  lemma {:induction false} LeavesUnique(as_: seq<Leaf>, bs: seq<Leaf>, x: Text, y: Text)
    requires forall i :: 0 <= i < |as_| ==> ValidTree(as_[i].tree)
    requires forall i :: 0 <= i < |bs| ==> ValidTree(bs[i].tree)
    requires LeavesText(as_, x) == LeavesText(bs, y)
    ensures as_ == bs && x == y
    decreases as_, |as_|
  {
    LeavesFirst(as_, x);
    LeavesFirst(bs, y);
    if as_ == [] {
      SamePrefix([125], x, y);
    } else {
      LeavesHeadUnique(as_, bs, x, y);
      PrintUnique(as_[0].tree, bs[0].tree, LeavesTail(as_, x), LeavesTail(bs, y));
      LeavesTailUnique(as_, bs, x, y);
      if |as_| > 1 { LeavesUnique(as_[1..], bs[1..], x, y); }
      SameHeadAndTail(as_, bs);
    }
  }

  // ----- the meaning decides equivalence -----

  lemma {:induction false} MeaningValid(v: Json)
    requires WellFormed(v)
    ensures ValidTree(Meaning(v))
    decreases v, 0
  {
    match v
    case JArray(items) => ItemsMean(items); forall i | 0 <= i < |items| ensures ValidTree(Meaning(items[i])) { MeaningValid(items[i]); }
    case JObject(ms) =>
      SortedWithin(ms);
      var ls := MeaningOfMembers(ms, SortTexts(KeysOf(ms)));
      forall i | 0 <= i < |ls|
        ensures ValidTree(ls[i].tree)
      {
        LeafOf(ms, SortTexts(KeysOf(ms)), ls[i]);
        MeaningValid(Lookup(ms, ls[i].key));
      }
    case _ =>
  }

  lemma {:induction false} ItemsMean(items: seq<Json>)
    requires forall i :: 0 <= i < |items| ==> WellFormed(items[i])
    ensures forall i :: 0 <= i < |items| ==> MeaningOfItems(items)[i] == Meaning(items[i])
  {
    if items != [] { ItemsMean(items[1..]); }
  }

  /** The members of an object's meaning are its defined properties. */
  lemma {:induction false} LeafOf(ms: seq<Member>, keys: seq<Text>, leaf: Leaf)
    requires WellFormed(JObject(ms)) && Within(keys, ms)
    ensures leaf in MeaningOfMembers(ms, keys) <==>
      leaf.key in keys && !Lookup(ms, leaf.key).JUndefined? && leaf.tree == Meaning(Lookup(ms, leaf.key))
  {
    if keys != [] { LeafOf(ms, keys[1..], leaf); }
  }

  predicate AscendingLeaves(ls: seq<Leaf>) { forall i, j :: 0 <= i < j < |ls| ==> Less(ls[i].key, ls[j].key) }

  lemma {:induction false} LeavesAscend(ms: seq<Member>, keys: seq<Text>)
    requires WellFormed(JObject(ms)) && Within(keys, ms) && Ascending(keys)
    ensures AscendingLeaves(MeaningOfMembers(ms, keys))
  {
    if keys != [] {
      LeavesAscend(ms, keys[1..]);
      var rest := MeaningOfMembers(ms, keys[1..]);
      forall j | 0 <= j < |rest|
        ensures Less(keys[0], rest[j].key)
      {
        LeafOf(ms, keys[1..], rest[j]);
        var k :| 0 <= k < |keys[1..]| && keys[1..][k] == rest[j].key;
        assert Less(keys[0], keys[k + 1]);
      }
    }
  }

  lemma Listed(b: seq<Leaf>)
    requires b != []
    ensures b[0] in b
  {
  }

  lemma TailMember(a: seq<Leaf>, leaf: Leaf)
    requires AscendingLeaves(a) && a != []
    ensures leaf in a[1..] <==> leaf in a && leaf != a[0]
  {
    LessOrder(leaf.key, leaf.key, leaf.key);
    assert a == [a[0]] + a[1..];
  }

  /** Two ascending sequences with the same members are equal. */
  lemma {:induction false} AscendingDetermined(a: seq<Leaf>, b: seq<Leaf>)
    requires AscendingLeaves(a) && AscendingLeaves(b) && forall leaf :: leaf in a <==> leaf in b
    ensures a == b
  {
    if a == [] {
      if b != [] { Listed(b); }
    } else {
      assert a[0] in b;
      assert b[0] in a;
      LessOrder(a[0].key, b[0].key, a[0].key);
      assert a[0] == b[0];
      forall leaf
        ensures leaf in a[1..] <==> leaf in b[1..]
      {
        TailMember(a, leaf);
        TailMember(b, leaf);
      }
      AscendingDetermined(a[1..], b[1..]);
      assert a == [a[0]] + a[1..] && b == [b[0]] + b[1..];
    }
  }

  predicate Defined(ms: seq<Member>, i: nat)
    requires i < |ms|
  {
    !ms[i].value.JUndefined?
  }

  function LeafAt(ms: seq<Member>, i: nat): Leaf
    requires WellFormed(JObject(ms)) && i < |ms|
  {
    Leaf(ms[i].key, Meaning(ms[i].value))
  }

  function Leaves(ms: seq<Member>): seq<Leaf>
    requires WellFormed(JObject(ms))
  {
    Meaning(JObject(ms)).leaves
  }

  lemma LeafOfMember(ms: seq<Member>, leaf: Leaf)
    requires WellFormed(JObject(ms))
    ensures leaf in Leaves(ms) <==> exists i: nat :: i < |ms| && Defined(ms, i) && leaf == LeafAt(ms, i)
  {
    var keys := SortTexts(KeysOf(ms));
    SortedWithin(ms);
    SortSorts(KeysOf(ms));
    LeafOf(ms, keys, leaf);
    if i: nat :| i < |ms| && Defined(ms, i) && leaf == LeafAt(ms, i) {
      LookupFinds(ms, i);
      assert KeysOf(ms)[i] in KeysOf(ms);
    }
    if leaf in Leaves(ms) {
      var i: nat :| i < |ms| && ms[i].key == leaf.key && ms[i].value == Lookup(ms, leaf.key);
      assert Defined(ms, i) && leaf == LeafAt(ms, i);
    }
  }

  lemma LeavesAscending(ms: seq<Member>)
    requires WellFormed(JObject(ms))
    ensures AscendingLeaves(Leaves(ms))
  {
    SortedWithin(ms);
    SortSorts(KeysOf(ms));
    LeavesAscend(ms, SortTexts(KeysOf(ms)));
  }

  /** Every defined property of `ms` is one of `ns`, with the same meaning. */
  ghost predicate Carries(ms: seq<Member>, ns: seq<Member>)
    requires WellFormed(JObject(ms)) && WellFormed(JObject(ns))
  {
    forall i: nat :: i < |ms| && Defined(ms, i) ==> LeafAt(ms, i) in Leaves(ns)
  }

  lemma CarriesBothWays(ms: seq<Member>, ns: seq<Member>)
    requires WellFormed(JObject(ms)) && WellFormed(JObject(ns))
    ensures Leaves(ms) == Leaves(ns) <==> Carries(ms, ns) && Carries(ns, ms)
  {
    if Leaves(ms) == Leaves(ns) {
      forall i: nat | i < |ms| && Defined(ms, i) ensures LeafAt(ms, i) in Leaves(ns) { LeafOfMember(ms, LeafAt(ms, i)); }
      forall i: nat | i < |ns| && Defined(ns, i) ensures LeafAt(ns, i) in Leaves(ms) { LeafOfMember(ns, LeafAt(ns, i)); }
    }
    if Carries(ms, ns) && Carries(ns, ms) {
      forall leaf
        ensures leaf in Leaves(ms) <==> leaf in Leaves(ns)
      {
        LeafOfMember(ms, leaf);
        LeafOfMember(ns, leaf);
      }
      LeavesAscending(ms);
      LeavesAscending(ns);
      AscendingDetermined(Leaves(ms), Leaves(ns));
    }
  }

  predicate Comparable(v: Json) { WellFormed(v) && Supported(v) && !v.JUndefined? }

  lemma {:induction false} MeaningDecides(a: Json, b: Json)
    requires Comparable(a) && Comparable(b)
    ensures Equivalent(a, b) <==> Meaning(a) == Meaning(b)
    decreases a
  {
    match (a, b)
    case (JArray(xs), JArray(ys)) =>
      ItemsMean(xs);
      ItemsMean(ys);
      forall i | 0 <= i < |xs| && i < |ys|
        ensures EntryEquivalent(xs[i], ys[i]) <==> Meaning(xs[i]) == Meaning(ys[i])
      {
        assert Supported(xs[i]) && Supported(ys[i]);
        if !xs[i].JUndefined? && !ys[i].JUndefined? { MeaningDecides(xs[i], ys[i]); }
      }
      if Meaning(a) == Meaning(b) { assert |MeaningOfItems(xs)| == |MeaningOfItems(ys)|; }
      if Equivalent(a, b) { assert MeaningOfItems(xs) == MeaningOfItems(ys); }
    case (JObject(ms), JObject(ns)) =>
      forall i: nat, j: nat | i < |ms| && j < |ns| && Defined(ms, i) && Defined(ns, j)
        ensures Equivalent(ms[i].value, ns[j].value) <==> Meaning(ms[i].value) == Meaning(ns[j].value)
      {
        assert Supported(ms[i].value) && Supported(ns[j].value);
        MeaningDecides(ms[i].value, ns[j].value);
      }
      ObjectsDecide(ms, ns);
    case _ =>
  }

  /** Equivalence and meaning agree on all pairs of defined properties. */
  ghost predicate Agree(ms: seq<Member>, ns: seq<Member>)
    requires Comparable(JObject(ms)) && Comparable(JObject(ns))
  {
    forall i: nat, j: nat :: i < |ms| && j < |ns| && Defined(ms, i) && Defined(ns, j) ==>
      (Equivalent(ms[i].value, ns[j].value) <==> Meaning(ms[i].value) == Meaning(ns[j].value))
  }

  lemma ObjectsDecide(ms: seq<Member>, ns: seq<Member>)
    requires Comparable(JObject(ms)) && Comparable(JObject(ns)) && Agree(ms, ns)
    ensures Equivalent(JObject(ms), JObject(ns)) <==> Meaning(JObject(ms)) == Meaning(JObject(ns))
  {
    CarriesBothWays(ms, ns);
    if Equivalent(JObject(ms), JObject(ns)) {
      forall i: nat | i < |ms| && Defined(ms, i) ensures LeafAt(ms, i) in Leaves(ns) { var _ := Forth(ms, ns, i); }
      forall j: nat | j < |ns| && Defined(ns, j) ensures LeafAt(ns, j) in Leaves(ms) { Back(ms, ns, j); }
    }
    if Carries(ms, ns) && Carries(ns, ms) { CarriesEquivalent(ms, ns); }
  }

  lemma AgreeAt(ms: seq<Member>, ns: seq<Member>, i: nat, j: nat)
    requires Comparable(JObject(ms)) && Comparable(JObject(ns)) && Agree(ms, ns)
    requires i < |ms| && j < |ns| && Defined(ms, i) && Defined(ns, j) && ms[i].key == ns[j].key
    ensures Equivalent(ms[i].value, ns[j].value) <==> LeafAt(ms, i) == LeafAt(ns, j)
  {
  }

  lemma EquivalentMember(ms: seq<Member>, ns: seq<Member>, i: nat) returns (j: nat)
    requires Equivalent(JObject(ms), JObject(ns)) && i < |ms| && Defined(ms, i)
    ensures j < |ns| && ns[j].key == ms[i].key && Defined(ns, j) && Equivalent(ms[i].value, ns[j].value)
  {
    j :| 0 <= j < |ns| && ns[j].key == ms[i].key && !ns[j].value.JUndefined? && Equivalent(ms[i].value, ns[j].value);
  }

  lemma EquivalentKey(ms: seq<Member>, ns: seq<Member>, j: nat) returns (i: nat)
    requires Equivalent(JObject(ms), JObject(ns)) && j < |ns| && Defined(ns, j)
    ensures i < |ms| && ms[i].key == ns[j].key && Defined(ms, i)
  {
    i :| 0 <= i < |ms| && ms[i].key == ns[j].key && !ms[i].value.JUndefined?;
  }

  lemma Forth(ms: seq<Member>, ns: seq<Member>, i: nat) returns (j: nat)
    requires Comparable(JObject(ms)) && Comparable(JObject(ns)) && Agree(ms, ns)
    requires Equivalent(JObject(ms), JObject(ns)) && i < |ms| && Defined(ms, i)
    ensures LeafAt(ms, i) in Leaves(ns)
    ensures j < |ns| && Defined(ns, j) && ns[j].key == ms[i].key && LeafAt(ns, j) == LeafAt(ms, i)
  {
    j := EquivalentMember(ms, ns, i);
    AgreeAt(ms, ns, i, j);
    LeafOfMember(ns, LeafAt(ms, i));
  }

  lemma Back(ms: seq<Member>, ns: seq<Member>, j: nat)
    requires Comparable(JObject(ms)) && Comparable(JObject(ns)) && Agree(ms, ns)
    requires Equivalent(JObject(ms), JObject(ns)) && j < |ns| && Defined(ns, j)
    ensures LeafAt(ns, j) in Leaves(ms)
  {
    var i := EquivalentKey(ms, ns, j);
    var k := Forth(ms, ns, i);
    assert k == j;
    LeafOfMember(ms, LeafAt(ns, j));
  }

  lemma CarriedMember(ms: seq<Member>, ns: seq<Member>, i: nat) returns (j: nat)
    requires WellFormed(JObject(ms)) && WellFormed(JObject(ns)) && Carries(ms, ns)
    requires i < |ms| && Defined(ms, i)
    ensures j < |ns| && Defined(ns, j) && ns[j].key == ms[i].key && LeafAt(ns, j) == LeafAt(ms, i)
  {
    LeafOfMember(ns, LeafAt(ms, i));
    j :| j < |ns| && Defined(ns, j) && LeafAt(ms, i) == LeafAt(ns, j);
  }

  lemma CarriedEquivalent(ms: seq<Member>, ns: seq<Member>, i: nat)
    requires Comparable(JObject(ms)) && Comparable(JObject(ns)) && Agree(ms, ns) && Carries(ms, ns)
    requires i < |ms| && Defined(ms, i)
    ensures exists j :: 0 <= j < |ns| && ns[j].key == ms[i].key && !ns[j].value.JUndefined? && Equivalent(ms[i].value, ns[j].value)
  {
    var j := CarriedMember(ms, ns, i);
    AgreeAt(ms, ns, i, j);
  }

  lemma CarriesEquivalent(ms: seq<Member>, ns: seq<Member>)
    requires Comparable(JObject(ms)) && Comparable(JObject(ns)) && Agree(ms, ns) && Carries(ms, ns) && Carries(ns, ms)
    ensures Equivalent(JObject(ms), JObject(ns))
  {
    forall i | 0 <= i < |ms| && !ms[i].value.JUndefined?
      ensures exists j :: 0 <= j < |ns| && ns[j].key == ms[i].key && !ns[j].value.JUndefined? && Equivalent(ms[i].value, ns[j].value)
    {
      CarriedEquivalent(ms, ns, i);
    }
    forall j | 0 <= j < |ns| && !ns[j].value.JUndefined?
      ensures exists i :: 0 <= i < |ms| && ms[i].key == ns[j].key && !ms[i].value.JUndefined?
    {
      var i := CarriedMember(ns, ms, j);
    }
  }

  // ----- theorems -----

  /** Two values render, and to the same text, exactly when they are equivalent. */
  lemma CanonicalDecides(a: Json, b: Json)
    requires Comparable(a) && Comparable(b)
    ensures Canonical(a).Ok? && Canonical(b).Ok?
    ensures Canonical(a) == Canonical(b) <==> Equivalent(a, b)
  {
    MeaningDecides(a, b);
    MeaningValid(a);
    MeaningValid(b);
    if Print(Meaning(a)) == Print(Meaning(b)) {
      assert Print(Meaning(a)) + [] == Print(Meaning(b)) + [];
      PrintUnique(Meaning(a), Meaning(b), [], []);
    }
  }
}
