/** UTF-8 as section 3 of RFC 3629 defines it, decoded the way `Buffer.toString("utf8")` does: whatever
    is not UTF-8 becomes U+FFFD. */
module Utf8 {
  import opened Wrappers
  import opened Unicode

  type Byte = b: nat | b < 256

  predicate IsScalar(cp: nat) { cp < 0xD800 || 0xE000 <= cp < 0x11_0000 }

  function Encode(cp: nat): (bytes: seq<Byte>)
    requires IsScalar(cp)
    ensures 1 <= |bytes| <= 4
  {
    if cp < 0x80 then [cp]
    else if cp < 0x800 then [0xC0 + cp / 64, 0x80 + cp % 64]
    else if cp < 0x1_0000 then [0xE0 + cp / 64 / 64, 0x80 + cp / 64 % 64, 0x80 + cp % 64]
    else [0xF0 + cp / 64 / 64 / 64, 0x80 + cp / 64 / 64 % 64, 0x80 + cp / 64 % 64, 0x80 + cp % 64]
  }

  function EncodeAll(cps: seq<nat>): seq<Byte>
    requires forall i :: 0 <= i < |cps| ==> IsScalar(cps[i])
  {
    if cps == [] then [] else Encode(cps[0]) + EncodeAll(cps[1..])
  }

  predicate IsTail(b: Byte) { 0x80 <= b < 0xC0 }

  /** The first character: its scalar and its length; neither overlong nor a surrogate nor too large. */
  function ReadPoint(bytes: seq<Byte>): (r: Option<(nat, nat)>)
    ensures r.Some? ==> IsScalar(r.value.0) && 1 <= r.value.1 <= |bytes|
  {
    if bytes == [] then None
    else if bytes[0] < 0x80 then Some((bytes[0], 1))
    else
      var n := if bytes[0] < 0xC0 then 0 else if bytes[0] < 0xE0 then 2 else if bytes[0] < 0xF0 then 3 else if bytes[0] < 0xF8 then 4 else 0;
      if n == 0 || |bytes| < n || !(forall i :: 1 <= i < n ==> IsTail(bytes[i])) then None
      else
        assert IsTail(bytes[1]) && (n > 2 ==> IsTail(bytes[2])) && (n > 3 ==> IsTail(bytes[3]));
        var cp :=
          if n == 2 then (bytes[0] as int - 0xC0) * 64 + (bytes[1] as int - 0x80)
          else if n == 3 then ((bytes[0] as int - 0xE0) * 64 + (bytes[1] as int - 0x80)) * 64 + (bytes[2] as int - 0x80)
          else (((bytes[0] as int - 0xF0) * 64 + (bytes[1] as int - 0x80)) * 64 + (bytes[2] as int - 0x80)) * 64 + (bytes[3] as int - 0x80);
        var least := if n == 2 then 0x80 else if n == 3 then 0x800 else 0x1_0000;
        if least <= cp && IsScalar(cp) then Some((cp, n)) else None
  }

  function Utf16(cp: nat): (t: Text)
    requires IsScalar(cp)
    ensures 1 <= |t| <= 2
  {
    if cp < 0x1_0000 then [cp] else [0xD800 + (cp - 0x1_0000) / 0x400, 0xDC00 + (cp - 0x1_0000) % 0x400]
  }

  function Utf16All(cps: seq<nat>): Text
    requires forall i :: 0 <= i < |cps| ==> IsScalar(cps[i])
  {
    if cps == [] then [] else Utf16(cps[0]) + Utf16All(cps[1..])
  }

  const REPLACEMENT: Unit := 0xFFFD

  /** How many replacement characters one malformed stretch becomes is not modelled: at least one. */
  function Decode(bytes: seq<Byte>): Text
    decreases |bytes|
  {
    if bytes == [] then []
    else
      var first := ReadPoint(bytes);
      if first.None? then [REPLACEMENT] + Decode(bytes[1..]) else Utf16(first.value.0) + Decode(bytes[first.value.1..])
  }

  /** Encoding and reading are inverse, whatever follows. */
  lemma EncodeRead(cp: nat, rest: seq<Byte>)
    requires IsScalar(cp)
    ensures ReadPoint(Encode(cp) + rest) == Some((cp, |Encode(cp)|))
  {
  }

  lemma ReadEncode(bytes: seq<Byte>)
    requires ReadPoint(bytes).Some?
    ensures Encode(ReadPoint(bytes).value.0) == bytes[..ReadPoint(bytes).value.1]
  {
    var (cp, n) := ReadPoint(bytes).value;
    if n == 1 {
      assert bytes[..1] == [bytes[0]];
    } else {
      assert IsTail(bytes[1]) && (n > 2 ==> IsTail(bytes[2])) && (n > 3 ==> IsTail(bytes[3]));
      var b := bytes[1] as int - 0x80;
      if n == 2 {
        Digits(bytes[0] as int - 0xC0, b);
        assert bytes[..2] == [bytes[0], bytes[1]];
      } else {
        var c := bytes[2] as int - 0x80;
        var lead := bytes[0] as int - (if n == 3 then 0xE0 else 0xF0);
        Digits(lead, b);
        Digits(lead * 64 + b, c);
        if n == 3 {
          assert bytes[..3] == [bytes[0], bytes[1], bytes[2]];
        } else {
          Digits((lead * 64 + b) * 64 + c, bytes[3] as int - 0x80);
          assert bytes[..4] == [bytes[0], bytes[1], bytes[2], bytes[3]];
        }
      }
    }
  }

  lemma Digits(high: nat, low: nat)
    requires low < 64
    ensures (high * 64 + low) / 64 == high && (high * 64 + low) % 64 == low
  {
  }

  lemma {:induction false} DecodeEncoded(cps: seq<nat>)
    requires forall i :: 0 <= i < |cps| ==> IsScalar(cps[i])
    ensures Decode(EncodeAll(cps)) == Utf16All(cps)
  {
    if cps != [] {
      EncodeRead(cps[0], EncodeAll(cps[1..]));
      assert EncodeAll(cps)[|Encode(cps[0])|..] == EncodeAll(cps[1..]);
      DecodeEncoded(cps[1..]);
    }
  }
}
