/** Paths as `git diff` prints them: C-style quoting with octal bytes, and the two names of a record header.
    Texts are sequences of UTF-16 units. */
module GitPath {
  import opened Wrappers
  import opened Unicode
  import opened Utf8

  datatype Error = ParseFailure

  const QUOTE: Unit := 34
  const BACKSLASH: Unit := 92

  // ----- reading a quoted token -----

  /** The index after the closing quote, scanning from `index`. */
  function TokenEnd(value: Text, index: nat): (end: Option<nat>)
    ensures end.Some? ==> index < end.value <= |value|
    decreases |value| - index
  {
    if index >= |value| then None
    else if value[index] == BACKSLASH then TokenEnd(value, index + 2)
    else if value[index] == QUOTE then Some(index + 1)
    else TokenEnd(value, index + 1)
  }

  method ReadQuotedToken(value: Text, start: nat) returns (r: Result<(Text, nat), Error>)
    requires start <= |value|
    ensures match TokenEnd(value, start + 1)
      case None => r == Err(ParseFailure)
      case Some(end) => r == Ok((value[start..end], end))
  {
    var index := start + 1;
    while index < |value|
      invariant start < index
      invariant TokenEnd(value, start + 1) == TokenEnd(value, index)
    {
      if value[index] == BACKSLASH {
        index := index + 2;
      } else {
        if value[index] == QUOTE { return Ok((value[start..index + 1], index + 1)); }
        index := index + 1;
      }
    }
    r := Err(ParseFailure);
  }

  // ----- unquoting -----

  function ControlEscape(escape: Unit): Option<Unit> {
    if escape == 97 then Some(7)
    else if escape == 98 then Some(8)
    else if escape == 116 then Some(9)
    else if escape == 110 then Some(10)
    else if escape == 118 then Some(11)
    else if escape == 102 then Some(12)
    else if escape == 114 then Some(13)
    else None
  }

  /** What `\\` followed by this unit stands for, when it is not an octal digit. */
  function Escaped(escape: Unit): Option<Unit> {
    if ControlEscape(escape).Some? then ControlEscape(escape)
    else if escape == QUOTE || escape == BACKSLASH then Some(escape)
    else None
  }

  predicate IsOctal(u: Unit) { 48 <= u <= 55 }

  predicate IsOctet(d: Text) { |d| == 3 && IsOctal(d[0]) && IsOctal(d[1]) && IsOctal(d[2]) }

  /** Three octal digits; `Buffer.from` keeps the low eight bits. */
  function OctalByte(digits: Text): Byte
    requires IsOctet(digits)
  {
    ((digits[0] as int - 48) * 64 + (digits[1] as int - 48) * 8 + (digits[2] as int - 48)) % 256
  }

  function ThreeOctals(body: Text): Option<Byte> {
    if |body| >= 4 && IsOctal(body[1]) && IsOctal(body[2]) && IsOctal(body[3]) then Some(OctalByte(body[1..4])) else None
  }

  function Then(first: Text, rest: Option<Text>): Option<Text> {
    if rest.None? then None else Some(first + rest.value)
  }

  /** The rest of the scan, with these bytes buffered. */
  function Scan(body: Text, bytes: seq<Byte>): Option<Text>
    decreases |body|
  {
    if body == [] then Some(Decode(bytes))
    else if body[0] != BACKSLASH then Then(Decode(bytes) + [body[0]], Scan(body[1..], []))
    else if |body| < 2 then None
    else if IsOctal(body[1]) then
      var byte := ThreeOctals(body);
      if byte.None? then None else Scan(body[4..], bytes + [byte.value])
    else
      var unit := Escaped(body[1]);
      if unit.None? then None else Then(Decode(bytes) + [unit.value], Scan(body[2..], []))
  }

  predicate IsToken(token: Text) { |token| >= 2 && token[0] == QUOTE && token[|token| - 1] == QUOTE }

  function Unquote(token: Text): Result<Text, Error> {
    if !IsToken(token) then Err(ParseFailure)
    else
      var decoded := Scan(token[1..|token| - 1], []);
      if decoded.None? || REPLACEMENT in decoded.value then Err(ParseFailure) else Ok(decoded.value)
  }

  lemma ThenTwice(a: Text, b: Text, rest: Option<Text>)
    ensures Then(a, Then(b, rest)) == Then(a + b, rest)
  {
    if rest.Some? { Assoc(a, b, rest.value); }
  }

  lemma ThenNothing(rest: Option<Text>)
    ensures Then([], rest) == rest
  {
    if rest.Some? { NothingAfter(rest.value); }
  }

  method UnquoteGitPath(token: Text) returns (r: Result<Text, Error>)
    ensures r == Unquote(token)
  {
    if |token| < 2 || token[0] != QUOTE || token[|token| - 1] != QUOTE { return Err(ParseFailure); }
    var body := token[1..|token| - 1];
    var bytes: seq<Byte>, decoded: Text, index := [], [], 0;
    assert body[0..] == body;
    ThenNothing(Scan(body, []));
    while index < |body|
      invariant 0 <= index <= |body|
      invariant Scan(body, []) == Then(decoded, Scan(body[index..], bytes))
    {
      var rest := body[index..];
      assert forall n: nat :: n <= |rest| ==> rest[n..] == body[index + n..];
      var character := body[index];
      if character != BACKSLASH {
        ThenTwice(decoded, Decode(bytes) + [character], Scan(rest[1..], []));
        decoded := decoded + (Decode(bytes) + [character]);
        bytes, index := [], index + 1;
      } else {
        if index + 1 >= |body| { return Err(ParseFailure); }
        if IsOctal(body[index + 1]) {
          var byte := ThreeOctals(rest);
          if byte.None? { return Err(ParseFailure); }
          bytes, index := bytes + [byte.value], index + 4;
        } else {
          var unit := Escaped(body[index + 1]);
          if unit.None? { return Err(ParseFailure); }
          ThenTwice(decoded, Decode(bytes) + [unit.value], Scan(rest[2..], []));
          decoded := decoded + (Decode(bytes) + [unit.value]);
          bytes, index := [], index + 2;
        }
      }
    }
    decoded := decoded + Decode(bytes);
    if REPLACEMENT in decoded { return Err(ParseFailure); }
    r := Ok(decoded);
  }

  // ----- how a path may be spelled -----

  /** One piece of a quoted name: a unit as itself, a named escape, or the UTF-8 bytes of one character,
      each as three octal digits. */
  datatype Piece = Literal(unit: Unit) | Named(escape: Unit) | Octal(point: nat, digits: seq<Text>)

  predicate AreOctets(digits: seq<Text>) { forall i :: 0 <= i < |digits| ==> IsOctet(digits[i]) }

  function OctetBytes(digits: seq<Text>): seq<Byte>
    requires AreOctets(digits)
  {
    if digits == [] then [] else [OctalByte(digits[0])] + OctetBytes(digits[1..])
  }

  function OctetText(digits: seq<Text>): Text {
    if digits == [] then [] else [BACKSLASH] + digits[0] + OctetText(digits[1..])
  }

  predicate LegalPiece(p: Piece) {
    match p
    case Literal(unit) => unit != BACKSLASH
    case Named(escape) => Escaped(escape).Some?
    case Octal(point, digits) => IsScalar(point) && AreOctets(digits) && OctetBytes(digits) == Encode(point)
  }

  predicate Legal(ps: seq<Piece>) { forall i :: 0 <= i < |ps| ==> LegalPiece(ps[i]) }

  function PieceText(p: Piece): Text {
    match p
    case Literal(unit) => [unit]
    case Named(escape) => [BACKSLASH, escape]
    case Octal(_, digits) => OctetText(digits)
  }

  function PieceValue(p: Piece): Text
    requires LegalPiece(p)
  {
    match p
    case Literal(unit) => [unit]
    case Named(escape) => [Escaped(escape).value]
    case Octal(point, _) => Utf16(point)
  }

  function PiecesText(ps: seq<Piece>): Text {
    if ps == [] then [] else PieceText(ps[0]) + PiecesText(ps[1..])
  }

  function PiecesValue(ps: seq<Piece>): Text
    requires Legal(ps)
  {
    if ps == [] then [] else PieceValue(ps[0]) + PiecesValue(ps[1..])
  }

  function Quoted(ps: seq<Piece>): Text { [QUOTE] + PiecesText(ps) + [QUOTE] }

  // ----- unquoting undoes spelling -----

  lemma {:induction false} ScanOctets(digits: seq<Text>, rest: Text, bytes: seq<Byte>)
    requires AreOctets(digits)
    ensures Scan(OctetText(digits) + rest, bytes) == Scan(rest, bytes + OctetBytes(digits))
  {
    if digits == [] {
      assert OctetText(digits) + rest == rest && bytes + [] == bytes;
    } else {
      var body := OctetText(digits) + rest;
      assert body == [BACKSLASH] + digits[0] + (OctetText(digits[1..]) + rest);
      assert body[1..4] == digits[0] && body[4..] == OctetText(digits[1..]) + rest;
      assert body[1] == digits[0][0] && body[2] == digits[0][1] && body[3] == digits[0][2];
      ScanOctets(digits[1..], rest, bytes + [OctalByte(digits[0])]);
      assert bytes + [OctalByte(digits[0])] + OctetBytes(digits[1..]) == bytes + OctetBytes(digits);
    }
  }

  predicate Scalars(cps: seq<nat>) { forall i :: 0 <= i < |cps| ==> IsScalar(cps[i]) }

  lemma {:induction false} EncodeSnoc(cps: seq<nat>, cp: nat)
    requires Scalars(cps) && IsScalar(cp)
    ensures EncodeAll(cps + [cp]) == EncodeAll(cps) + Encode(cp)
    ensures Utf16All(cps + [cp]) == Utf16All(cps) + Utf16(cp)
  {
    if cps == [] {
      NothingAfter([cp]);
      Alone(cp);
      NothingAfter(Encode(cp));
      NothingAfter(Utf16(cp));
    } else {
      assert (cps + [cp])[1..] == cps[1..] + [cp] && (cps + [cp])[0] == cps[0];
      EncodeSnoc(cps[1..], cp);
      Assoc(Encode(cps[0]), EncodeAll(cps[1..]), Encode(cp));
      Assoc(Utf16(cps[0]), Utf16All(cps[1..]), Utf16(cp));
    }
  }

  lemma ScanUnit(p: Piece, rest: Text, bytes: seq<Byte>)
    requires LegalPiece(p) && !p.Octal?
    ensures Scan(PieceText(p) + rest, bytes) == Then(Decode(bytes) + PieceValue(p), Scan(rest, []))
  {
    var body := PieceText(p) + rest;
    match p
    case Literal(_) => assert body[1..] == rest;
    case Named(escape) => assert !IsOctal(escape) && body[2..] == rest;
  }

  /** With the bytes of `held` still buffered, scanning a spelled text yields `held` and what it spells. */
  lemma {:induction false} ScanSpelled(ps: seq<Piece>, held: seq<nat>)
    requires Legal(ps) && Scalars(held)
    ensures Scan(PiecesText(ps), EncodeAll(held)) == Some(Utf16All(held) + PiecesValue(ps))
  {
    DecodeEncoded(held);
    if ps == [] {
      assert Utf16All(held) + [] == Utf16All(held);
    } else {
      var p, value := ps[0], PiecesValue(ps[1..]);
      assert LegalPiece(p);
      Assoc(Utf16All(held), PieceValue(p), value);
      if p.Octal? {
        ScanOctets(p.digits, PiecesText(ps[1..]), EncodeAll(held));
        EncodeSnoc(held, p.point);
        ScanSpelled(ps[1..], held + [p.point]);
      } else {
        ScanUnit(p, PiecesText(ps[1..]), EncodeAll(held));
        ScanSpelled(ps[1..], []);
        assert EncodeAll([]) == [] && [] + value == value;
      }
    }
  }

  lemma QuotedIsToken(ps: seq<Piece>)
    ensures IsToken(Quoted(ps)) && Quoted(ps)[1..|Quoted(ps)| - 1] == PiecesText(ps)
  {
  }

  lemma UnquoteSpelled(ps: seq<Piece>)
    requires Legal(ps)
    ensures Unquote(Quoted(ps)) == if REPLACEMENT in PiecesValue(ps) then Err(ParseFailure) else Ok(PiecesValue(ps))
  {
    QuotedIsToken(ps);
    ScanSpelled(ps, []);
    assert [] + PiecesValue(ps) == PiecesValue(ps);
  }

  // ----- and accepts nothing else -----

  lemma {:induction false} TextConcat(a: seq<Piece>, b: seq<Piece>)
    ensures PiecesText(a + b) == PiecesText(a) + PiecesText(b)
  {
    if a == [] {
      NothingAfter(b);
      NothingAfter(PiecesText(b));
    } else {
      assert (a + b)[1..] == a[1..] + b && (a + b)[0] == a[0];
      TextConcat(a[1..], b);
      Assoc(PieceText(a[0]), PiecesText(a[1..]), PiecesText(b));
    }
  }

  lemma {:induction false} ValueConcat(a: seq<Piece>, b: seq<Piece>)
    requires Legal(a) && Legal(b) && Legal(a + b)
    ensures PiecesValue(a + b) == PiecesValue(a) + PiecesValue(b)
  {
    if a == [] {
      NothingAfter(b);
      NothingAfter(PiecesValue(b));
    } else {
      assert (a + b)[1..] == a[1..] + b && (a + b)[0] == a[0];
      ValueConcat(a[1..], b);
      Assoc(PieceValue(a[0]), PiecesValue(a[1..]), PiecesValue(b));
    }
  }

  lemma PiecesConcat(a: seq<Piece>, b: seq<Piece>)
    requires Legal(a) && Legal(b)
    ensures Legal(a + b) && PiecesText(a + b) == PiecesText(a) + PiecesText(b) && PiecesValue(a + b) == PiecesValue(a) + PiecesValue(b)
  {
    assert Legal(a + b);
    TextConcat(a, b);
    ValueConcat(a, b);
  }

  lemma PieceAlone(p: Piece)
    requires LegalPiece(p)
    ensures Legal([p]) && PiecesText([p]) == PieceText(p) && PiecesValue([p]) == PieceValue(p)
  {
    Alone(p);
    NothingAfter(PieceText(p));
    NothingAfter(PieceValue(p));
  }

  lemma {:induction false} OctetsCut(digits: seq<Text>, n: nat)
    requires AreOctets(digits) && n <= |digits|
    ensures AreOctets(digits[..n]) && AreOctets(digits[n..]) && |OctetBytes(digits)| == |digits|
    ensures OctetBytes(digits[..n]) == OctetBytes(digits)[..n] && OctetBytes(digits[n..]) == OctetBytes(digits)[n..]
    ensures OctetText(digits) == OctetText(digits[..n]) + OctetText(digits[n..])
  {
    if digits != [] {
      if n > 0 {
        OctetsCut(digits[1..], n - 1);
        assert digits[..n][1..] == digits[1..][..n - 1] && digits[n..] == digits[1..][n - 1..];
      } else {
        OctetsCut(digits[1..], 0);
        assert digits[..0] == [] && digits[0..] == digits;
      }
    }
  }

  /** A run of octal bytes that decodes without U+FFFD is the UTF-8 of some characters. */
  lemma {:induction false} RunIsSpelled(digits: seq<Text>) returns (ps: seq<Piece>)
    requires AreOctets(digits) && REPLACEMENT !in Decode(OctetBytes(digits))
    ensures Legal(ps) && PiecesText(ps) == OctetText(digits) && PiecesValue(ps) == Decode(OctetBytes(digits))
    decreases |digits|
  {
    if digits == [] {
      ps := [];
    } else {
      var bytes := OctetBytes(digits);
      assert ReadPoint(bytes).Some?;
      var (point, n) := ReadPoint(bytes).value;
      OctetsCut(digits, 0);
      OctetsCut(digits, n);
      ReadEncode(bytes);
      var rest := RunIsSpelled(digits[n..]);
      var p := Octal(point, digits[..n]);
      ps := [p] + rest;
      PieceAlone(p);
      PiecesConcat([p], rest);
    }
  }

  lemma OctetsSnoc(digits: seq<Text>, last: Text)
    requires AreOctets(digits) && IsOctet(last)
    ensures AreOctets(digits + [last])
    ensures OctetBytes(digits + [last]) == OctetBytes(digits) + [OctalByte(last)]
    ensures OctetText(digits + [last]) == OctetText(digits) + [BACKSLASH] + last
  {
    var all := digits + [last];
    OctetsCut(all, |digits|);
    assert all[..|digits|] == digits && all[|digits|..] == [last];
    assert OctetText([last]) == [BACKSLASH] + last + [];
    assert OctetBytes([last]) == [OctalByte(last)] + [];
    assert OctetBytes(all) == OctetBytes(all)[..|digits|] + OctetBytes(all)[|digits|..];
  }

  lemma OctalStep(body: Text, digits: seq<Text>)
    requires AreOctets(digits) && |body| >= 4 && body[0] == BACKSLASH && IsOctet(body[1..4])
    ensures AreOctets(digits + [body[1..4]])
    ensures OctetBytes(digits + [body[1..4]]) == OctetBytes(digits) + [OctalByte(body[1..4])]
    ensures OctetText(digits + [body[1..4]]) + body[4..] == OctetText(digits) + body
  {
    OctetsSnoc(digits, body[1..4]);
    assert body == [BACKSLASH] + body[1..4] + body[4..];
  }

  predicate Spells(ps: seq<Piece>, text: Text, value: Text) { Legal(ps) && PiecesText(ps) == text && PiecesValue(ps) == value }

  lemma UnitStep(run: seq<Piece>, p: Piece, tail: seq<Piece>, rest: Text, value: Text)
    requires Legal(run) && LegalPiece(p) && Spells(tail, rest, value)
    ensures Spells(run + ([p] + tail), PiecesText(run) + (PieceText(p) + rest), PiecesValue(run) + PieceValue(p) + value)
  {
    PieceAlone(p);
    PiecesConcat([p], tail);
    PiecesConcat(run, [p] + tail);
    Assoc(PiecesValue(run), PieceValue(p), value);
  }

  function FirstPiece(body: Text): Piece
    requires |body| >= 1 && (body[0] == BACKSLASH ==> |body| >= 2)
  {
    if body[0] == BACKSLASH then Named(body[1]) else Literal(body[0])
  }

  lemma FirstPieceText(body: Text)
    requires |body| >= 1 && (body[0] == BACKSLASH ==> |body| >= 2)
    ensures |PieceText(FirstPiece(body))| <= |body| && body == PieceText(FirstPiece(body)) + body[|PieceText(FirstPiece(body))|..]
  {
  }

  lemma {:induction false} ScanIsSpelled(body: Text, digits: seq<Text>) returns (ps: seq<Piece>)
    requires AreOctets(digits)
    requires Scan(body, OctetBytes(digits)).Some? && REPLACEMENT !in Scan(body, OctetBytes(digits)).value
    ensures Spells(ps, OctetText(digits) + body, Scan(body, OctetBytes(digits)).value)
    decreases |body|
  {
    if body == [] {
      ps := RunIsSpelled(digits);
      assert OctetText(digits) + body == OctetText(digits);
    } else if body[0] == BACKSLASH && IsOctal(body[1]) {
      OctalStep(body, digits);
      ps := ScanIsSpelled(body[4..], digits + [body[1..4]]);
    } else {
      var p := FirstPiece(body);
      var rest := body[|PieceText(p)|..];
      FirstPieceText(body);
      ScanUnit(p, rest, OctetBytes(digits));
      var run := RunIsSpelled(digits);
      var tail := ScanIsSpelled(rest, []);
      assert OctetText([]) + rest == rest;
      UnitStep(run, p, tail, rest, Scan(rest, []).value);
      ps := run + ([p] + tail);
    }
  }

  lemma TokenBody(token: Text)
    requires IsToken(token)
    ensures token == [QUOTE] + token[1..|token| - 1] + [QUOTE]
  {
  }

  lemma TokenIsSpelled(token: Text) returns (ps: seq<Piece>)
    requires Unquote(token).Ok?
    ensures Legal(ps) && Quoted(ps) == token && PiecesValue(ps) == Unquote(token).value
  {
    var body := token[1..|token| - 1];
    TokenBody(token);
    assert OctetText([]) + body == body && OctetBytes([]) == [];
    ps := ScanIsSpelled(body, []);
  }

  /** Unquoting yields `t` exactly for the quoted spellings of `t`, when `t` has no U+FFFD. */
  lemma UnquoteExactly(token: Text, t: Text)
    ensures Unquote(token) == Ok(t) <==>
      REPLACEMENT !in t && exists ps: seq<Piece> :: Legal(ps) && Quoted(ps) == token && PiecesValue(ps) == t
  {
    if Unquote(token) == Ok(t) {
      var ps := TokenIsSpelled(token);
    }
    if REPLACEMENT !in t && exists ps: seq<Piece> :: Legal(ps) && Quoted(ps) == token && PiecesValue(ps) == t {
      var ps: seq<Piece> :| Legal(ps) && Quoted(ps) == token && PiecesValue(ps) == t;
      UnquoteSpelled(ps);
    }
  }

  // ----- any path, however quoted -----

  datatype Style = AsItself | ByName | InOctal

  function NamedEscape(cp: nat): Option<Unit> {
    if cp == 7 then Some(97) else if cp == 8 then Some(98) else if cp == 9 then Some(116) else if cp == 10 then Some(110)
    else if cp == 11 then Some(118) else if cp == 12 then Some(102) else if cp == 13 then Some(114)
    else if cp == QUOTE || cp == BACKSLASH then Some(cp) else None
  }

  predicate StyleFits(cp: nat, style: Style) {
    match style
    case AsItself => cp != QUOTE && cp != BACKSLASH
    case ByName => NamedEscape(cp).Some?
    case InOctal => true
  }

  function OctalDigits(b: Byte): Text { [48 + b / 8 / 8, 48 + b / 8 % 8, 48 + b % 8] }

  function AllOctalDigits(bytes: seq<Byte>): seq<Text> {
    if bytes == [] then [] else [OctalDigits(bytes[0])] + AllOctalDigits(bytes[1..])
  }

  function Spell(cp: nat, style: Style): seq<Piece>
    requires IsScalar(cp) && StyleFits(cp, style)
  {
    match style
    case AsItself => if |Utf16(cp)| == 1 then [Literal(Utf16(cp)[0])] else [Literal(Utf16(cp)[0]), Literal(Utf16(cp)[1])]
    case ByName => [Named(NamedEscape(cp).value)]
    case InOctal => [Octal(cp, AllOctalDigits(Encode(cp)))]
  }

  /** A path of Unicode scalars, each quoted in a style of its own. */
  function QuotePath(cps: seq<nat>, styles: seq<Style>): seq<Piece>
    requires Scalars(cps) && |styles| == |cps| && forall i :: 0 <= i < |cps| ==> StyleFits(cps[i], styles[i])
  {
    if cps == [] then [] else Spell(cps[0], styles[0]) + QuotePath(cps[1..], styles[1..])
  }

  /** Legal, and no quotation mark stands for itself. */
  predicate Proper(ps: seq<Piece>) { Legal(ps) && forall i :: 0 <= i < |ps| ==> ps[i] != Literal(QUOTE) }

  lemma {:induction false} OctalDigitsRead(bytes: seq<Byte>)
    ensures AreOctets(AllOctalDigits(bytes)) && OctetBytes(AllOctalDigits(bytes)) == bytes
  {
    if bytes != [] {
      OctalDigitsRead(bytes[1..]);
      var b := bytes[0];
      assert b / 8 == b / 8 / 8 * 8 + b / 8 % 8 && b == b / 8 * 8 + b % 8;
      assert OctalByte(OctalDigits(b)) == b;
    }
  }

  lemma SpellSpells(cp: nat, style: Style)
    requires IsScalar(cp) && StyleFits(cp, style)
    ensures Proper(Spell(cp, style)) && PiecesValue(Spell(cp, style)) == Utf16(cp)
  {
    match style
    case AsItself =>
      var ps := Spell(cp, style);
      if |ps| == 2 { assert ps[1..] == [ps[1]]; PieceAlone(ps[1]); } else { PieceAlone(ps[0]); }
    case ByName => PieceAlone(Spell(cp, style)[0]);
    case InOctal =>
      OctalDigitsRead(Encode(cp));
      PieceAlone(Spell(cp, style)[0]);
  }

  lemma {:induction false} QuotePathSpells(cps: seq<nat>, styles: seq<Style>)
    requires Scalars(cps) && |styles| == |cps| && forall i :: 0 <= i < |cps| ==> StyleFits(cps[i], styles[i])
    ensures Proper(QuotePath(cps, styles)) && PiecesValue(QuotePath(cps, styles)) == Utf16All(cps)
  {
    if cps != [] {
      SpellSpells(cps[0], styles[0]);
      QuotePathSpells(cps[1..], styles[1..]);
      PiecesConcat(Spell(cps[0], styles[0]), QuotePath(cps[1..], styles[1..]));
    }
  }

  lemma {:induction false} NoReplacement(cps: seq<nat>)
    requires Scalars(cps) && REPLACEMENT !in cps
    ensures REPLACEMENT !in Utf16All(cps)
  {
    if cps != [] { NoReplacement(cps[1..]); }
  }

  /** Unquoting undoes quoting for every path of Unicode scalars without U+FFFD, whatever is quoted how. */
  lemma UnquoteUndoesQuoting(cps: seq<nat>, styles: seq<Style>)
    requires Scalars(cps) && |styles| == |cps| && forall i :: 0 <= i < |cps| ==> StyleFits(cps[i], styles[i])
    requires REPLACEMENT !in cps
    ensures Unquote(Quoted(QuotePath(cps, styles))) == Ok(Utf16All(cps))
  {
    QuotePathSpells(cps, styles);
    NoReplacement(cps);
    UnquoteSpelled(QuotePath(cps, styles));
  }

  // ----- record headers -----

  const RECORD_START: Text := [100, 105, 102, 102, 32, 45, 45, 103, 105, 116, 32]
  const SPACE: Unit := 32
  const A_SLASH: Text := [97, 47]
  const B_SLASH: Text := [98, 47]

  function StripDiffPrefix(value: Text): Text {
    if A_SLASH <= value || B_SLASH <= value then value[2..] else value
  }

  /** Both names as `diff --git` prints them unquoted. */
  function PlainNames(path: Text): Text { A_SLASH + path + [SPACE] + B_SLASH + path }

  function PlainPath(rest: Text): Result<Text, Error> {
    if |rest| < 7 || (|rest| - 5) % 2 != 0 then Err(ParseFailure)
    else
      var candidate := rest[2..2 + (|rest| - 5) / 2];
      if rest == PlainNames(candidate) then Ok(candidate) else Err(ParseFailure)
  }

  function QuotedPath(rest: Text): Result<Text, Error>
    requires rest != []
  {
    var source := TokenEnd(rest, 1);
    if source.None? then Err(ParseFailure)
    else
      var end := source.value;
      if end + 1 >= |rest| || rest[end] != SPACE || rest[end + 1] != QUOTE then Err(ParseFailure)
      else
        var target := TokenEnd(rest, end + 2);
        if target.None? || target.value != |rest| then Err(ParseFailure)
        else
          var name := Unquote(rest[end + 1..]);
          if name.Err? then name else Ok(StripDiffPrefix(name.value))
  }

  function PathOf(header: Text): Result<Text, Error> {
    var rest := if |header| <= |RECORD_START| then [] else header[|RECORD_START|..];
    if rest != [] && rest[0] == QUOTE then QuotedPath(rest) else PlainPath(rest)
  }

  method PathFromRecordHeader(header: Text) returns (r: Result<Text, Error>)
    ensures r == PathOf(header)
  {
    var rest := if |header| <= |RECORD_START| then [] else header[|RECORD_START|..];
    if rest == [] || rest[0] != QUOTE { return PlainPath(rest); }
    var source := ReadQuotedToken(rest, 0);
    if source.Err? { return Err(source.error); }
    var end := source.value.1;
    if end + 1 >= |rest| || rest[end] != SPACE || rest[end + 1] != QUOTE { return Err(ParseFailure); }
    var target := ReadQuotedToken(rest, end + 1);
    if target.Err? { return Err(target.error); }
    if target.value.1 != |rest| { return Err(ParseFailure); }
    assert rest[end + 1..|rest|] == rest[end + 1..];
    var name := UnquoteGitPath(target.value.0);
    r := if name.Err? then name else Ok(StripDiffPrefix(name.value));
  }

  lemma {:induction false} TokenEndOctets(value: Text, index: nat, digits: seq<Text>, rest: Text)
    requires AreOctets(digits) && index <= |value| && value[index..] == OctetText(digits) + rest
    ensures TokenEnd(value, index) == TokenEnd(value, index + |OctetText(digits)|)
    decreases |digits|
  {
    if digits != [] {
      var d := digits[0];
      assert value[index..] == [BACKSLASH] + d + (OctetText(digits[1..]) + rest);
      assert value[index] == BACKSLASH && value[index + 2] == d[1] && value[index + 3] == d[2];
      assert value[index + 4..] == value[index..][4..] == OctetText(digits[1..]) + rest;
      TokenEndOctets(value, index + 4, digits[1..], rest);
      assert TokenEnd(value, index) == TokenEnd(value, index + 2) == TokenEnd(value, index + 3) == TokenEnd(value, index + 4);
    }
  }

  lemma TokenEndPiece(value: Text, index: nat, p: Piece, after: Text)
    requires LegalPiece(p) && p != Literal(QUOTE) && index <= |value| && value[index..] == PieceText(p) + after
    ensures index + |PieceText(p)| <= |value| && value[index + |PieceText(p)|..] == after
    ensures TokenEnd(value, index) == TokenEnd(value, index + |PieceText(p)|)
  {
    assert value[index + |PieceText(p)|..] == value[index..][|PieceText(p)|..];
    match p
    case Literal(_) => assert value[index] == value[index..][0];
    case Named(_) => assert value[index] == value[index..][0];
    case Octal(_, digits) => TokenEndOctets(value, index, digits, after);
  }

  /** A token ends where its spelling does. */
  lemma {:induction false} TokenEndSpelled(value: Text, index: nat, ps: seq<Piece>, rest: Text)
    requires Proper(ps) && index <= |value| && value[index..] == PiecesText(ps) + ([QUOTE] + rest)
    ensures TokenEnd(value, index) == Some(index + |PiecesText(ps)| + 1)
    decreases |ps|
  {
    if ps == [] {
      NothingAfter([QUOTE] + rest);
      assert value[index] == value[index..][0];
    } else {
      var after := PiecesText(ps[1..]) + ([QUOTE] + rest);
      assert LegalPiece(ps[0]);
      Assoc(PieceText(ps[0]), PiecesText(ps[1..]), [QUOTE] + rest);
      TokenEndPiece(value, index, ps[0], after);
      TokenEndSpelled(value, index + |PieceText(ps[0])|, ps[1..], rest);
    }
  }

  lemma DropPrefix(a: Text, first: Unit, rest: Text)
    ensures (a + ([first] + rest))[|a|] == first && (a + ([first] + rest))[|a| + 1..] == rest
  {
  }

  lemma QuotedThen(inner: Text, after: Text)
    ensures [QUOTE] + inner + [QUOTE] + after == [QUOTE] + (inner + ([QUOTE] + after))
  {
  }

  /** A quoted name anywhere in a text is read up to its own closing quote. */
  lemma TokenEndAt(value: Text, index: nat, ps: seq<Piece>, after: Text)
    requires Proper(ps) && index <= |value| && value[index..] == Quoted(ps) + after
    ensures index + |Quoted(ps)| <= |value|
    ensures TokenEnd(value, index + 1) == Some(index + |Quoted(ps)|)
  {
    var body := PiecesText(ps) + ([QUOTE] + after);
    QuotedThen(PiecesText(ps), after);
    DropOne(value, index, body);
    TokenEndSpelled(value, index + 1, ps, after);
  }

  lemma DropOne(value: Text, index: nat, body: Text)
    requires index <= |value| && value[index..] == [QUOTE] + body
    ensures index < |value| && value[index + 1..] == body
  {
    assert value[index + 1..] == value[index..][1..];
  }

  lemma QuotedNames(source: seq<Piece>, target: seq<Piece>)
    requires Proper(source) && Proper(target)
    ensures var rest := Quoted(source) + ([SPACE] + Quoted(target));
      && TokenEnd(rest, 1) == Some(|Quoted(source)|)
      && rest[|Quoted(source)|] == SPACE && rest[|Quoted(source)| + 1..] == Quoted(target)
      && TokenEnd(rest, |Quoted(source)| + 2) == Some(|rest|)
  {
    var q, t := Quoted(source), Quoted(target);
    var rest := q + ([SPACE] + t);
    assert rest[0..] == rest;
    TokenEndAt(rest, 0, source, [SPACE] + t);
    DropPrefix(q, SPACE, t);
    NothingAfter(t);
    TokenEndAt(rest, |q| + 1, target, []);
  }

  /** The header of two quoted names yields the second one, whatever the first. */
  lemma QuotedHeader(source: seq<Piece>, target: seq<Piece>)
    requires Proper(source) && Proper(target)
    ensures PathOf(RECORD_START + (Quoted(source) + ([SPACE] + Quoted(target)))) ==
      if REPLACEMENT in PiecesValue(target) then Err(ParseFailure) else Ok(StripDiffPrefix(PiecesValue(target)))
  {
    var rest := Quoted(source) + ([SPACE] + Quoted(target));
    assert (RECORD_START + rest)[|RECORD_START|..] == rest;
    QuotedNames(source, target);
    UnquoteSpelled(target);
    assert PathOf(RECORD_START + rest) == QuotedPath(rest);
    assert rest[|Quoted(source)| + 1] == Quoted(target)[0];
  }

  /** Unquoted names yield a path exactly when both sides spell it; spaces do not matter. */
  lemma PlainHeader(rest: Text, path: Text)
    requires rest != [] ==> rest[0] != QUOTE
    ensures PathOf(RECORD_START + rest) == Ok(path) <==> path != [] && rest == PlainNames(path)
  {
    assert rest != [] ==> (RECORD_START + rest)[|RECORD_START|..] == rest;
    if rest == PlainNames(path) { assert rest[2..2 + |path|] == path; }
  }

  /** `a/` or `b/`, then the path. */
  function QuoteSide(side: Unit, cps: seq<nat>, styles: seq<Style>): seq<Piece>
    requires Scalars(cps) && |styles| == |cps| && forall i :: 0 <= i < |cps| ==> StyleFits(cps[i], styles[i])
  {
    [Literal(side), Literal(47)] + QuotePath(cps, styles)
  }

  lemma SideSpells(side: Unit, cps: seq<nat>, styles: seq<Style>)
    requires Scalars(cps) && |styles| == |cps| && forall i :: 0 <= i < |cps| ==> StyleFits(cps[i], styles[i])
    requires side == 97 || side == 98
    ensures Proper(QuoteSide(side, cps, styles)) && PiecesValue(QuoteSide(side, cps, styles)) == [side, 47] + Utf16All(cps)
  {
    var start := [Literal(side), Literal(47)];
    QuotePathSpells(cps, styles);
    assert start[1..] == [start[1]];
    PieceAlone(start[1]);
    PiecesConcat(start, QuotePath(cps, styles));
    assert PiecesValue(start) == [side, 47];
  }

  /** The header printed for a path yields the path, plain or quoted in any way on either side. */
  lemma HeaderYieldsPath(cps: seq<nat>, sourceStyles: seq<Style>, targetStyles: seq<Style>)
    requires Scalars(cps) && REPLACEMENT !in cps && cps != []
    requires |sourceStyles| == |cps| && forall i :: 0 <= i < |cps| ==> StyleFits(cps[i], sourceStyles[i])
    requires |targetStyles| == |cps| && forall i :: 0 <= i < |cps| ==> StyleFits(cps[i], targetStyles[i])
    ensures PathOf(RECORD_START + PlainNames(Utf16All(cps))) == Ok(Utf16All(cps))
    ensures var source, target := QuoteSide(97, cps, sourceStyles), QuoteSide(98, cps, targetStyles);
      PathOf(RECORD_START + (Quoted(source) + ([SPACE] + Quoted(target)))) == Ok(Utf16All(cps))
  {
    PlainHeader(PlainNames(Utf16All(cps)), Utf16All(cps));
    SideSpells(97, cps, sourceStyles);
    SideSpells(98, cps, targetStyles);
    NoReplacement(cps);
    QuotedHeader(QuoteSide(97, cps, sourceStyles), QuoteSide(98, cps, targetStyles));
    assert (B_SLASH + Utf16All(cps))[2..] == Utf16All(cps);
  }
}
