/** The private-network bind policy: IPv4 and IPv6 text to bytes, and which of them may be bound. */
module BindAddress {
  import opened Wrappers
  import opened Splitting
  import Decimal

  type Bytes = seq<nat>

  predicate AllBytes(b: Bytes) { forall i :: 0 <= i < |b| ==> b[i] < 256 }

  // ----- dotted quads -----

  predicate IsOctets(o: Bytes) { |o| == 4 && AllBytes(o) }

  function PrintAll(o: Bytes): (parts: seq<string>)
    ensures |parts| == |o|
  {
    if o == [] then [] else [Decimal.Print(o[0])] + PrintAll(o[1..])
  }

  /** Four decimal octets without leading zeros, joined by dots. */
  function PrintIpv4(o: Bytes): string
    requires IsOctets(o)
  {
    Join(PrintAll(o), '.')
  }

  /** `^(?:0|[1-9][0-9]{0,2})$`, and at most 255. */
  predicate IsOctetText(part: string) { Decimal.IsDecimal(part) && |part| <= 3 && Decimal.Value(part) <= 255 }

  function Prepend(first: Bytes, rest: Option<Bytes>): Option<Bytes> {
    if rest.None? then None else Some(first + rest.value)
  }

  lemma PrependNothing(r: Option<Bytes>)
    ensures Prepend([], r) == r
  {
    if r.Some? { assert [] + r.value == r.value; }
  }

  lemma PrependTwice(a: Bytes, b: Bytes, r: Option<Bytes>)
    ensures Prepend(a, Prepend(b, r)) == Prepend(a + b, r)
  {
    if r.Some? { assert a + (b + r.value) == a + b + r.value; }
  }

  function OctetsOf(parts: seq<string>): Option<Bytes> {
    if parts == [] then Some([])
    else if !IsOctetText(parts[0]) then None
    else Prepend([Decimal.Value(parts[0])], OctetsOf(parts[1..]))
  }

  function Ipv4(value: string): Option<Bytes> {
    var parts := Split(value, '.');
    if |parts| != 4 then None else OctetsOf(parts)
  }

  method ParseIpv4(value: string) returns (r: Option<Bytes>)
    ensures r == Ipv4(value)
  {
    var parts := Split(value, '.');
    if |parts| != 4 { return None; }
    var octets: Bytes, i := [], 0;
    assert parts[0..] == parts;
    PrependNothing(OctetsOf(parts));
    while i < |parts|
      invariant 0 <= i <= |parts|
      invariant OctetsOf(parts) == Prepend(octets, OctetsOf(parts[i..]))
    {
      assert parts[i..][1..] == parts[i + 1..];
      if !IsOctetText(parts[i]) { return None; }
      PrependTwice(octets, [Decimal.Value(parts[i])], OctetsOf(parts[i + 1..]));
      octets := octets + [Decimal.Value(parts[i])];
      i := i + 1;
    }
    assert octets + [] == octets;
    r := Some(octets);
  }

  lemma OctetPrints(n: nat)
    requires n < 256
    ensures IsOctetText(Decimal.Print(n)) && Decimal.Value(Decimal.Print(n)) == n && '.' !in Decimal.Print(n)
  {
    Decimal.PrintRead(n);
    if n >= 10 { Decimal.PrintRead(n / 10); }
    if n >= 100 { assert |Decimal.Print(n / 10 / 10)| == 1; }
  }

  lemma {:induction false} OctetsAre(parts: seq<string>)
    requires OctetsOf(parts).Some?
    ensures |OctetsOf(parts).value| == |parts|
    ensures forall i :: 0 <= i < |parts| ==> IsOctetText(parts[i]) && OctetsOf(parts).value[i] == Decimal.Value(parts[i])
  {
    if parts != [] { OctetsAre(parts[1..]); }
  }

  /** IPv4 parsing accepts exactly what printing produces, and gives back what was printed. */
  lemma Ipv4Exactly(value: string, o: Bytes)
    ensures Ipv4(value) == Some(o) <==> IsOctets(o) && value == PrintIpv4(o)
  {
    if Ipv4(value) == Some(o) {
      var parts := Split(value, '.');
      OctetsAre(parts);
      JoinSplit(value, '.');
      assert IsOctets(o);
      OctetsPrint(parts);
    }
    if IsOctets(o) && value == PrintIpv4(o) { PrintedParses(o); }
  }

  lemma {:induction false} OctetsPrint(parts: seq<string>)
    requires OctetsOf(parts).Some?
    ensures PrintAll(OctetsOf(parts).value) == parts
  {
    if parts != [] {
      OctetsPrint(parts[1..]);
      Decimal.ReadPrint(parts[0]);
      assert OctetsOf(parts).value[1..] == OctetsOf(parts[1..]).value;
    }
  }

  lemma {:induction false} PrintedOctets(o: Bytes)
    requires AllBytes(o)
    ensures OctetsOf(PrintAll(o)) == Some(o) && Without(PrintAll(o), '.')
  {
    if o != [] {
      OctetPrints(o[0]);
      PrintedOctets(o[1..]);
      assert PrintAll(o)[1..] == PrintAll(o[1..]);
      assert o == [o[0]] + o[1..];
    }
  }

  lemma PrintedParses(o: Bytes)
    requires IsOctets(o)
    ensures Ipv4(PrintIpv4(o)) == Some(o)
  {
    PrintedOctets(o);
    SplitJoin(PrintAll(o), '.');
  }

  /** Two texts never name one address. */
  lemma Ipv4Injective(a: string, b: string)
    requires Ipv4(a).Some? && Ipv4(a) == Ipv4(b)
    ensures a == b
  {
    Ipv4Exactly(a, Ipv4(a).value);
    Ipv4Exactly(b, Ipv4(a).value);
  }

  // ----- IPv6 text, as section 2.2 of RFC 4291 writes it -----

  predicate IsHexDigit(c: char) { '0' <= c <= '9' || 'a' <= c <= 'f' || 'A' <= c <= 'F' }

  function HexDigit(c: char): (v: nat)
    requires IsHexDigit(c)
    ensures v < 16
  {
    if c <= '9' then c as int - 48 else if c <= 'F' then c as int - 55 else c as int - 87
  }

  predicate IsGroup(s: string) { 1 <= |s| <= 4 && forall i :: 0 <= i < |s| ==> IsHexDigit(s[i]) }

  function HexValue(s: string): nat
    requires forall i :: 0 <= i < |s| ==> IsHexDigit(s[i])
  {
    if s == [] then 0
    else
      assert IsHexDigit(s[|s| - 1]);
      16 * HexValue(s[..|s| - 1]) + HexDigit(s[|s| - 1])
  }

  /** One piece between colons: a 16-bit group, or four octets at the very end. */
  datatype Piece = Group(digits: string) | Quad(octets: Bytes)

  datatype Form = Full(pieces: seq<Piece>) | Compressed(head: seq<Piece>, tail: seq<Piece>)

  predicate LegalPieces(ps: seq<Piece>, endsAddress: bool) {
    forall i :: 0 <= i < |ps| ==>
      match ps[i]
      case Group(digits) => IsGroup(digits)
      case Quad(octets) => endsAddress && i == |ps| - 1 && IsOctets(octets)
  }

  function PieceBytes(p: Piece): Bytes
    requires p.Group? ==> IsGroup(p.digits)
  {
    match p
    case Group(digits) => [HexValue(digits) / 256, HexValue(digits) % 256]
    case Quad(octets) => octets
  }

  function PiecesBytes(ps: seq<Piece>): Bytes
    requires forall i :: 0 <= i < |ps| && ps[i].Group? ==> IsGroup(ps[i].digits)
  {
    if ps == [] then [] else PieceBytes(ps[0]) + PiecesBytes(ps[1..])
  }

  function PieceText(p: Piece): string
    requires p.Quad? ==> IsOctets(p.octets)
  {
    match p
    case Group(digits) => digits
    case Quad(octets) => PrintIpv4(octets)
  }

  function PieceTexts(ps: seq<Piece>): seq<string>
    requires forall i :: 0 <= i < |ps| && ps[i].Quad? ==> IsOctets(ps[i].octets)
  {
    if ps == [] then [] else [PieceText(ps[0])] + PieceTexts(ps[1..])
  }

  predicate HasQuad(ps: seq<Piece>) { ps != [] && ps[|ps| - 1].Quad? }

  /** Eight groups, the last two of which may be written as a dotted quad; or fewer, with `::` once for
      one or more groups of zeros. */
  predicate Legal(f: Form) {
    match f
    case Full(ps) => LegalPieces(ps, true) && |PiecesBytes(ps)| == 16
    case Compressed(head, tail) =>
      LegalPieces(head, false) && LegalPieces(tail, true) && |PiecesBytes(head)| + |PiecesBytes(tail)| <= 14
  }

  function Zeros(n: nat): Bytes { seq(n, i => 0) }

  function FormBytes(f: Form): Bytes
    requires Legal(f)
  {
    match f
    case Full(ps) => PiecesBytes(ps)
    case Compressed(head, tail) => PiecesBytes(head) + Zeros(16 - |PiecesBytes(head)| - |PiecesBytes(tail)|) + PiecesBytes(tail)
  }

  function FormText(f: Form): string
    requires Legal(f)
  {
    match f
    case Full(ps) => Join(PieceTexts(ps), ':')
    case Compressed(head, tail) => Join(PieceTexts(head), ':') + "::" + Join(PieceTexts(tail), ':')
  }

  predicate FormQuad(f: Form) { if f.Full? then HasQuad(f.pieces) else HasQuad(f.tail) }

  /** `text` is a full or compressed IPv6 address with these bytes. */
  ghost predicate Denotes(text: string, bytes: Bytes, quad: bool) {
    exists f: Form :: Legal(f) && FormText(f) == text && FormBytes(f) == bytes && FormQuad(f) == quad
  }

  // ----- IPv6 parsing -----

  datatype Ipv6Parse = Ipv6Parse(bytes: Bytes, embeddedIpv4: bool)

  /** `value.split("::")` */
  function SplitDouble(s: string): (halves: seq<string>)
    ensures halves != []
  {
    if |s| < 2 then [s]
    else if s[0] == ':' && s[1] == ':' then [[]] + SplitDouble(s[2..])
    else
      var rest := SplitDouble(s[1..]);
      [[s[0]] + rest[0]] + rest[1..]
  }

  function After(bytes: Bytes, embedded: bool, rest: Option<Ipv6Parse>): Option<Ipv6Parse> {
    if rest.None? then None else Some(Ipv6Parse(bytes + rest.value.bytes, embedded || rest.value.embeddedIpv4))
  }

  lemma AfterNothing(r: Option<Ipv6Parse>)
    ensures After([], false, r) == r
  {
    if r.Some? { assert [] + r.value.bytes == r.value.bytes; }
  }

  lemma AfterTwice(a: Bytes, e: bool, b: Bytes, f: bool, r: Option<Ipv6Parse>)
    ensures After(a, e, After(b, f, r)) == After(a + b, e || f, r)
  {
    if r.Some? { assert a + (b + r.value.bytes) == a + b + r.value.bytes; }
  }

  function ConvertGroups(groups: seq<string>, endsAddress: bool): Option<Ipv6Parse> {
    if groups == [] then Some(Ipv6Parse([], false))
    else if endsAddress && |groups| == 1 && '.' in groups[0] then
      var quad := Ipv4(groups[0]);
      if quad.None? then None else Some(Ipv6Parse(quad.value, true))
    else if !IsGroup(groups[0]) then None
    else
      var word := HexValue(groups[0]);
      After([word / 256, word % 256], false, ConvertGroups(groups[1..], endsAddress))
  }

  function Convert(text: string, endsAddress: bool): Option<Ipv6Parse> {
    if text == [] then Some(Ipv6Parse([], false)) else ConvertGroups(Split(text, ':'), endsAddress)
  }

  function Ipv6(value: string): Option<Ipv6Parse> {
    var halves := SplitDouble(value);
    if |halves| > 2 then None
    else
      var compressed := |halves| == 2;
      if !compressed && halves[0] == [] then None
      else
        var head := Convert(halves[0], !compressed);
        var tail := if compressed then Convert(halves[1], true) else Some(Ipv6Parse([], false));
        if head.None? || tail.None? then None
        else
          var embedded := head.value.embeddedIpv4 || tail.value.embeddedIpv4;
          var zeros := 16 - |head.value.bytes| - |tail.value.bytes|;
          if !compressed then if |head.value.bytes| == 16 then Some(Ipv6Parse(head.value.bytes, embedded)) else None
          else if zeros < 2 then None
          else Some(Ipv6Parse(head.value.bytes + Zeros(zeros) + tail.value.bytes, embedded))
  }

  method ConvertText(text: string, endsAddress: bool) returns (r: Option<Ipv6Parse>)
    ensures r == Convert(text, endsAddress)
  {
    if text == [] { return Some(Ipv6Parse([], false)); }
    var groups := Split(text, ':');
    var bytes: Bytes, embedded, i := [], false, 0;
    assert groups[0..] == groups;
    AfterNothing(ConvertGroups(groups, endsAddress));
    while i < |groups|
      invariant 0 <= i <= |groups|
      invariant ConvertGroups(groups, endsAddress) == After(bytes, embedded, ConvertGroups(groups[i..], endsAddress))
    {
      var group := groups[i];
      assert groups[i..][1..] == groups[i + 1..];
      if endsAddress && i == |groups| - 1 && '.' in group {
        var quad := ParseIpv4(group);
        if quad.None? { return None; }
        AfterTwice(bytes, embedded, quad.value, true, Some(Ipv6Parse([], false)));
        assert quad.value + [] == quad.value;
        embedded, bytes := true, bytes + quad.value;
      } else {
        if !IsGroup(group) { return None; }
        var word := HexValue(group);
        AfterTwice(bytes, embedded, [word / 256, word % 256], false, ConvertGroups(groups[i + 1..], endsAddress));
        bytes := bytes + [word / 256, word % 256];
      }
      i := i + 1;
    }
    assert bytes + [] == bytes;
    r := Some(Ipv6Parse(bytes, embedded));
  }

  method ParseIpv6(value: string) returns (r: Option<Ipv6Parse>)
    ensures r == Ipv6(value)
  {
    var halves := SplitDouble(value);
    if |halves| > 2 { return None; }
    var compressed := |halves| == 2;
    if !compressed && halves[0] == [] { return None; }
    var head := ConvertText(halves[0], !compressed);
    if head.None? { return None; }
    var tail := Some(Ipv6Parse([], false));
    if compressed { tail := ConvertText(halves[1], true); }
    if tail.None? { return None; }
    var embedded := head.value.embeddedIpv4 || tail.value.embeddedIpv4;
    if !compressed {
      return if |head.value.bytes| == 16 then Some(Ipv6Parse(head.value.bytes, embedded)) else None;
    }
    var zeros := 16 - |head.value.bytes| - |tail.value.bytes|;
    if zeros < 2 { return None; }
    r := Some(Ipv6Parse(head.value.bytes + Zeros(zeros) + tail.value.bytes, embedded));
  }

  // ----- splitting at `::` -----

  predicate NoDouble(s: string) { forall i, j :: 0 <= i && j == i + 1 < |s| ==> !(s[i] == ':' && s[j] == ':') }

  lemma {:induction false} SplitNoDouble(s: string)
    requires NoDouble(s)
    ensures SplitDouble(s) == [s]
  {
    if |s| >= 2 {
      assert !(s[0] == ':' && s[1] == ':');
      SplitNoDouble(s[1..]);
      assert [s[0]] + s[1..] == s;
    }
  }

  lemma {:induction false} SplitAtDouble(h: string, t: string)
    requires NoDouble(h) && (h == [] || h[|h| - 1] != ':')
    ensures SplitDouble(h + "::" + t) == [h] + SplitDouble(t)
  {
    var s := h + "::" + t;
    if h == [] {
      assert s == "::" + t && s[2..] == t;
    } else {
      assert s[0] == h[0] && s[1..] == h[1..] + "::" + t;
      assert !(s[0] == ':' && s[1] == ':') by {
        if |h| >= 2 { assert s[1] == h[1]; }
      }
      SplitAtDouble(h[1..], t);
      assert [h[0]] + h[1..] == h;
    }
  }

  lemma {:induction false} HalvesJoin(s: string)
    ensures |SplitDouble(s)| == 1 ==> s == SplitDouble(s)[0]
    ensures |SplitDouble(s)| == 2 ==> s == SplitDouble(s)[0] + "::" + SplitDouble(s)[1]
  {
    if |s| >= 2 {
      if s[0] == ':' && s[1] == ':' {
        HalvesJoin(s[2..]);
        assert s == [] + "::" + s[2..];
      } else {
        HalvesJoin(s[1..]);
        assert s == [s[0]] + s[1..];
        var rest := SplitDouble(s[1..]);
        if |rest| == 2 { assert [s[0]] + (rest[0] + "::" + rest[1]) == ([s[0]] + rest[0]) + "::" + rest[1]; }
      }
    }
  }

  predicate CleanParts(parts: seq<string>) { forall i :: 0 <= i < |parts| ==> parts[i] != [] && ':' !in parts[i] }

  lemma {:induction false} JoinClean(parts: seq<string>)
    requires parts != [] && CleanParts(parts)
    ensures var s := Join(parts, ':'); s != [] && s[0] != ':' && s[|s| - 1] != ':' && NoDouble(s)
  {
    if |parts| > 1 {
      JoinClean(parts[1..]);
      var p, rest := parts[0], Join(parts[1..], ':');
      var s := p + [':'] + rest;
      assert s[0] == p[0];
      forall i, j | 0 <= i && j == i + 1 < |s|
        ensures !(s[i] == ':' && s[j] == ':')
      {
        if i > |p| { assert s[i] == rest[i - |p| - 1] && s[j] == rest[j - |p| - 1]; }
      }
    }
  }

  // ----- pieces and groups -----

  lemma {:induction false} DigitsOnly(o: Bytes)
    requires AllBytes(o)
    ensures CleanParts(PrintAll(o)) && Without(PrintAll(o), '.')
  {
    if o != [] {
      DigitsOnly(o[1..]);
      OctetPrints(o[0]);
    }
  }

  lemma {:induction false} JoinWithout(parts: seq<string>, sep: char, c: char)
    requires Without(parts, c) && c != sep
    ensures c !in Join(parts, sep)
  {
    if |parts| > 1 { JoinWithout(parts[1..], sep, c); }
  }

  lemma PieceTextClean(p: Piece)
    requires match p case Group(digits) => IsGroup(digits) case Quad(octets) => IsOctets(octets)
    ensures PieceText(p) != [] && ':' !in PieceText(p) && ('.' in PieceText(p) <==> p.Quad?)
  {
    match p
    case Group(_) =>
    case Quad(octets) =>
      DigitsOnly(octets);
      JoinWithout(PrintAll(octets), '.', ':');
      var first := PrintAll(octets)[0];
      assert PrintIpv4(octets)[|first|] == '.';
  }

  lemma {:induction false} PiecesConvert(ps: seq<Piece>, endsAddress: bool)
    requires LegalPieces(ps, endsAddress)
    ensures ConvertGroups(PieceTexts(ps), endsAddress) == Some(Ipv6Parse(PiecesBytes(ps), HasQuad(ps)))
    ensures CleanParts(PieceTexts(ps)) && |PieceTexts(ps)| == |ps|
  {
    if ps != [] {
      PieceTextClean(ps[0]);
      PiecesConvert(ps[1..], endsAddress);
      assert PieceTexts(ps)[1..] == PieceTexts(ps[1..]);
      match ps[0] {
        case Group(_) =>
        case Quad(octets) =>
          PrintedParses(octets);
          assert ps[1..] == [] && octets + [] == octets;
          assert PieceTexts(ps) == [PrintIpv4(octets)];
      }
    }
  }

  lemma {:induction false} GroupsArePieces(groups: seq<string>, endsAddress: bool) returns (ps: seq<Piece>)
    requires ConvertGroups(groups, endsAddress).Some?
    ensures LegalPieces(ps, endsAddress) && PieceTexts(ps) == groups
    ensures ConvertGroups(groups, endsAddress).value == Ipv6Parse(PiecesBytes(ps), HasQuad(ps))
  {
    if groups == [] {
      ps := [];
    } else if endsAddress && |groups| == 1 && '.' in groups[0] {
      var octets := Ipv4(groups[0]).value;
      Ipv4Exactly(groups[0], octets);
      ps := [Quad(octets)];
      assert PiecesBytes(ps) == octets + [] == octets;
    } else {
      var rest := GroupsArePieces(groups[1..], endsAddress);
      ps := [Group(groups[0])] + rest;
      assert ps[1..] == rest;
    }
  }

  lemma TextConverts(ps: seq<Piece>, endsAddress: bool)
    requires LegalPieces(ps, endsAddress)
    ensures var text := Join(PieceTexts(ps), ':');
      && Convert(text, endsAddress) == Some(Ipv6Parse(PiecesBytes(ps), HasQuad(ps)))
      && NoDouble(text) && (text == [] || text[|text| - 1] != ':') && (text == [] <==> ps == [])
  {
    PiecesConvert(ps, endsAddress);
    if ps != [] {
      JoinClean(PieceTexts(ps));
      SplitJoin(PieceTexts(ps), ':');
    }
  }

  lemma TextIsPieces(text: string, endsAddress: bool) returns (ps: seq<Piece>)
    requires Convert(text, endsAddress).Some?
    ensures LegalPieces(ps, endsAddress) && Join(PieceTexts(ps), ':') == text
    ensures Convert(text, endsAddress).value == Ipv6Parse(PiecesBytes(ps), HasQuad(ps))
  {
    if text == [] {
      ps := [];
    } else {
      ps := GroupsArePieces(Split(text, ':'), endsAddress);
      JoinSplit(text, ':');
    }
  }

  // ----- IPv6: the parser accepts exactly the addresses -----

  lemma FullParses(ps: seq<Piece>)
    requires Legal(Full(ps))
    ensures Ipv6(FormText(Full(ps))) == Some(Ipv6Parse(PiecesBytes(ps), HasQuad(ps)))
  {
    TextConverts(ps, true);
    SplitNoDouble(FormText(Full(ps)));
  }

  lemma HalvesParse(h: string, t: string, a: Ipv6Parse, b: Ipv6Parse)
    requires SplitDouble(h + "::" + t) == [h, t] && Convert(h, false) == Some(a) && Convert(t, true) == Some(b)
    requires |a.bytes| + |b.bytes| <= 14
    ensures Ipv6(h + "::" + t) ==
      Some(Ipv6Parse(a.bytes + Zeros(16 - |a.bytes| - |b.bytes|) + b.bytes, a.embeddedIpv4 || b.embeddedIpv4))
  {
  }

  lemma CompressedParses(head: seq<Piece>, tail: seq<Piece>)
    requires Legal(Compressed(head, tail))
    ensures Ipv6(FormText(Compressed(head, tail))) == Some(Ipv6Parse(FormBytes(Compressed(head, tail)), HasQuad(tail)))
  {
    var h, t := Join(PieceTexts(head), ':'), Join(PieceTexts(tail), ':');
    TextConverts(head, false);
    TextConverts(tail, true);
    SplitAtDouble(h, t);
    SplitNoDouble(t);
    assert !HasQuad(head);
    HalvesParse(h, t, Ipv6Parse(PiecesBytes(head), false), Ipv6Parse(PiecesBytes(tail), HasQuad(tail)));
  }

  lemma LegalParses(f: Form)
    requires Legal(f)
    ensures Ipv6(FormText(f)) == Some(Ipv6Parse(FormBytes(f), FormQuad(f)))
  {
    match f
    case Full(ps) => FullParses(ps);
    case Compressed(head, tail) => CompressedParses(head, tail);
  }

  lemma ParsedIsLegal(text: string) returns (f: Form)
    requires Ipv6(text).Some?
    ensures Legal(f) && FormText(f) == text && Ipv6(text).value == Ipv6Parse(FormBytes(f), FormQuad(f))
  {
    var halves := SplitDouble(text);
    HalvesJoin(text);
    if |halves| == 1 {
      var ps := TextIsPieces(halves[0], true);
      f := Full(ps);
    } else {
      var head := TextIsPieces(halves[0], false);
      var tail := TextIsPieces(halves[1], true);
      f := Compressed(head, tail);
    }
  }

  /** The parser accepts exactly the full and `::`-compressed texts of section 2.2 of RFC 4291, yields the
      sixteen bytes they denote, and says whether they end in a dotted quad. */
  lemma Ipv6Exactly(text: string, bytes: Bytes, quad: bool)
    ensures Ipv6(text) == Some(Ipv6Parse(bytes, quad)) <==> Denotes(text, bytes, quad)
  {
    if Ipv6(text) == Some(Ipv6Parse(bytes, quad)) { var f := ParsedIsLegal(text); }
    if Denotes(text, bytes, quad) {
      var f: Form :| Legal(f) && FormText(f) == text && FormBytes(f) == bytes && FormQuad(f) == quad;
      LegalParses(f);
    }
  }

  lemma {:induction false} PiecesAreBytes(ps: seq<Piece>, endsAddress: bool)
    requires LegalPieces(ps, endsAddress)
    ensures AllBytes(PiecesBytes(ps))
  {
    if ps != [] {
      PiecesAreBytes(ps[1..], endsAddress);
      if ps[0].Group? { GroupBound(ps[0].digits); }
    }
  }

  lemma {:induction false} GroupBound(digits: string)
    requires forall i :: 0 <= i < |digits| ==> IsHexDigit(digits[i])
    ensures |digits| <= 1 ==> HexValue(digits) < 16
    ensures |digits| <= 2 ==> HexValue(digits) < 256
    ensures |digits| <= 3 ==> HexValue(digits) < 4096
    ensures |digits| <= 4 ==> HexValue(digits) < 65536
  {
    if digits != [] { GroupBound(digits[..|digits| - 1]); }
  }

  lemma Ipv6SixteenBytes(text: string)
    requires Ipv6(text).Some?
    ensures |Ipv6(text).value.bytes| == 16 && AllBytes(Ipv6(text).value.bytes)
  {
    var f := ParsedIsLegal(text);
    match f
    case Full(ps) => PiecesAreBytes(ps, true);
    case Compressed(head, tail) =>
      PiecesAreBytes(head, false);
      PiecesAreBytes(tail, true);
  }

  // ----- classification and the decision -----

  datatype AddressClass =
    | Wildcard | Loopback | LinkLocal | Rfc1918 | CarrierGradeNat | UniqueLocal | Public | SpecialPurpose | Malformed | Ambiguous

  datatype DenialReason =
    | WildcardForbidden | LoopbackRequiresOptIn | LinkLocalForbidden | PublicForbidden | SpecialPurposeForbidden
    | AmbiguousForm | MalformedAddress | PrivilegedPort | InvalidPort

  function ClassifyIpv4(o: Bytes): AddressClass
    requires |o| == 4
  {
    var a, b := o[0], o[1];
    if a == 0 && b == 0 && o[2] == 0 && o[3] == 0 then Wildcard
    else if a == 0 then SpecialPurpose
    else if a == 127 then Loopback
    else if a == 169 && b == 254 then LinkLocal
    else if a == 10 then Rfc1918
    else if a == 172 && 16 <= b <= 31 then Rfc1918
    else if a == 192 && b == 168 then Rfc1918
    else if a == 100 && 64 <= b <= 127 then CarrierGradeNat
    else if a >= 224 then SpecialPurpose
    else Public
  }

  function ClassifyIpv6(b: Bytes): AddressClass
    requires |b| == 16
  {
    if forall i :: 0 <= i < 16 ==> b[i] == 0 then Wildcard
    else if (forall i :: 0 <= i < 15 ==> b[i] == 0) && b[15] == 1 then Loopback
    else if b[0] / 2 * 2 == 0xfc then UniqueLocal
    else if b[0] == 0xfe && b[1] / 64 * 64 == 0x80 then LinkLocal
    else if b[0] == 0xff then SpecialPurpose
    else Public
  }

  function IndexOf(s: string, c: char): (i: int)
    ensures -1 <= i < |s|
    ensures i == -1 <==> c !in s
    ensures i >= 0 ==> s[i] == c && c !in s[..i]
  {
    if s == [] then -1
    else if s[0] == c then 0
    else
      var rest := IndexOf(s[1..], c);
      assert s == [s[0]] + s[1..];
      assert rest >= 0 ==> s[..rest + 1] == [s[0]] + s[1..][..rest];
      if rest == -1 then -1 else rest + 1
  }

  function ClassifyBindAddress(address: string): AddressClass {
    var ipv4 := Ipv4(address);
    if ipv4.Some? then
      OctetsAre(Split(address, '.'));
      ClassifyIpv4(ipv4.value)
    else if ':' !in address then Malformed
    else
      var zone := IndexOf(address, '%');
      var text := if zone == -1 then address else address[..zone];
      var parsed := Ipv6(text);
      if parsed.None? then Malformed
      else if zone != -1 || parsed.value.embeddedIpv4 then Ambiguous
      else
        Ipv6SixteenBytes(text);
        ClassifyIpv6(parsed.value.bytes)
  }

  /** A JavaScript number: `n` when it is an integer. */
  datatype Port = Whole(n: int) | NotAnInteger

  datatype Family = FamilyIpv4 | FamilyIpv6

  datatype BindDecision =
    | Allowed(address: string, port: int, family: Family, addressClass: AddressClass, loopbackDiagnostic: bool)
    | Denied(reason: DenialReason, addressClass: AddressClass)

  function ClassDenial(c: AddressClass): Option<DenialReason> {
    match c
    case Wildcard => Some(WildcardForbidden)
    case LinkLocal => Some(LinkLocalForbidden)
    case Public => Some(PublicForbidden)
    case SpecialPurpose => Some(SpecialPurposeForbidden)
    case Ambiguous => Some(AmbiguousForm)
    case Malformed => Some(MalformedAddress)
    case _ => None
  }

  function PortDenial(port: Port): Option<DenialReason> {
    if port.NotAnInteger? || port.n < 0 || port.n > 65535 then Some(InvalidPort)
    else if port.n < 1024 then Some(PrivilegedPort)
    else None
  }

  function EvaluateBindTarget(address: string, port: Port, allowLoopback: bool): BindDecision {
    var c := ClassifyBindAddress(address);
    if ClassDenial(c).Some? then Denied(ClassDenial(c).value, c)
    else if c.Loopback? && !allowLoopback then Denied(LoopbackRequiresOptIn, c)
    else if PortDenial(port).Some? then Denied(PortDenial(port).value, c)
    else Allowed(address, port.n, if Ipv4(address).Some? then FamilyIpv4 else FamilyIpv6, c, c.Loopback?)
  }

  function Pow2(n: nat): (p: nat)
    ensures p > 0
  {
    if n == 0 then 1 else 2 * Pow2(n - 1)
  }

  /** `bytes` and `base` agree on their first `bits` bits. */
  predicate InBlock(bytes: Bytes, base: Bytes, bits: nat) {
    && |bytes| == |base| && bits <= 8 * |base|
    && (forall i :: 0 <= i < bits / 8 ==> bytes[i] == base[i])
    && (bits % 8 != 0 ==> bytes[bits / 8] / Pow2(8 - bits % 8) == base[bits / 8] / Pow2(8 - bits % 8))
  }

  /** 10.0.0.0/8, 172.16.0.0/12, 192.168.0.0/16, 100.64.0.0/10 and, when asked for, 127.0.0.0/8. */
  predicate BindableIpv4(o: Bytes, allowLoopback: bool) {
    || InBlock(o, [10, 0, 0, 0], 8)
    || InBlock(o, [172, 16, 0, 0], 12)
    || InBlock(o, [192, 168, 0, 0], 16)
    || InBlock(o, [100, 64, 0, 0], 10)
    || (allowLoopback && InBlock(o, [127, 0, 0, 0], 8))
  }

  /** fc00::/7 and, when asked for, ::1. */
  predicate BindableIpv6(b: Bytes, allowLoopback: bool) {
    || InBlock(b, [0xfc] + Zeros(15), 7)
    || (allowLoopback && b == Zeros(15) + [1])
  }

  lemma Ipv4Bindable(o: Bytes, allowLoopback: bool)
    requires IsOctets(o)
    ensures BindableIpv4(o, allowLoopback) <==>
      ClassBindable(ClassifyIpv4(o), allowLoopback)
  {
    assert Pow2(4) == 16 && Pow2(6) == 64;
  }

  lemma Ipv6Bindable(b: Bytes, allowLoopback: bool)
    requires |b| == 16 && AllBytes(b)
    ensures BindableIpv6(b, allowLoopback) <==>
      ClassBindable(ClassifyIpv6(b), allowLoopback)
  {
    assert Pow2(1) == 2;
  }

  lemma {:induction false} PiecesWithoutZone(ps: seq<Piece>, endsAddress: bool)
    requires LegalPieces(ps, endsAddress)
    ensures Without(PieceTexts(ps), '%') && |PieceTexts(ps)| == |ps| && |PiecesBytes(ps)| <= 4 * |ps|
  {
    if ps != [] {
      PiecesWithoutZone(ps[1..], endsAddress);
      if ps[0].Quad? {
        OctetsWithoutZone(ps[0].octets);
        JoinWithout(PrintAll(ps[0].octets), '.', '%');
      }
    }
  }

  lemma {:induction false} OctetsWithoutZone(o: Bytes)
    requires AllBytes(o)
    ensures Without(PrintAll(o), '%') && Without(PrintAll(o), ':')
  {
    if o != [] { OctetsWithoutZone(o[1..]); }
  }

  /** An IPv6 text has a colon and no zone, so it is not an IPv4 text. */
  lemma FormTextShape(f: Form)
    requires Legal(f)
    ensures ':' in FormText(f) && '%' !in FormText(f)
  {
    match f
    case Full(ps) =>
      PiecesWithoutZone(ps, true);
      JoinWithout(PieceTexts(ps), ':', '%');
      var first := PieceTexts(ps)[0];
      assert FormText(f)[|first|] == ':';
    case Compressed(head, tail) =>
      PiecesWithoutZone(head, false);
      PiecesWithoutZone(tail, true);
      JoinWithout(PieceTexts(head), ':', '%');
      JoinWithout(PieceTexts(tail), ':', '%');
      assert FormText(f)[|Join(PieceTexts(head), ':')|] == ':';
  }

  lemma Ipv4HasNoColon(address: string)
    requires Ipv4(address).Some?
    ensures ':' !in address
  {
    var o := Ipv4(address).value;
    Ipv4Exactly(address, o);
    OctetsWithoutZone(o);
    JoinWithout(PrintAll(o), '.', ':');
  }

  predicate ClassBindable(c: AddressClass, allowLoopback: bool) { ClassDenial(c).None? && (c.Loopback? ==> allowLoopback) }

  lemma BindableClasses(address: string, allowLoopback: bool)
    ensures ClassBindable(ClassifyBindAddress(address), allowLoopback) <==>
      || (Ipv4(address).Some? && BindableIpv4(Ipv4(address).value, allowLoopback))
      || (Ipv6(address).Some? && !Ipv6(address).value.embeddedIpv4 && BindableIpv6(Ipv6(address).value.bytes, allowLoopback))
  {
    if Ipv6(address).Some? {
      var f := ParsedIsLegal(address);
      FormTextShape(f);
      Ipv6SixteenBytes(address);
      Ipv6Bindable(Ipv6(address).value.bytes, allowLoopback);
    }
    if Ipv4(address).Some? {
      Ipv4HasNoColon(address);
      Ipv4Exactly(address, Ipv4(address).value);
      Ipv4Bindable(Ipv4(address).value, allowLoopback);
    }
  }

  /** Each class is a set of address blocks; whatever is in none of them is public. */
  lemma Ipv4Classes(o: Bytes)
    requires IsOctets(o)
    ensures var c := ClassifyIpv4(o);
      && (c.Wildcard? <==> o == [0, 0, 0, 0])
      && (c.Loopback? <==> InBlock(o, [127, 0, 0, 0], 8))
      && (c.LinkLocal? <==> InBlock(o, [169, 254, 0, 0], 16))
      && (c.Rfc1918? <==> InBlock(o, [10, 0, 0, 0], 8) || InBlock(o, [172, 16, 0, 0], 12) || InBlock(o, [192, 168, 0, 0], 16))
      && (c.CarrierGradeNat? <==> InBlock(o, [100, 64, 0, 0], 10))
      && (c.SpecialPurpose? <==> (InBlock(o, [0, 0, 0, 0], 8) && o != [0, 0, 0, 0]) || InBlock(o, [224, 0, 0, 0], 3))
  {
    assert Pow2(4) == 16 && Pow2(6) == 64 && Pow2(5) == 32;
  }

  lemma Ipv6Classes(b: Bytes)
    requires |b| == 16 && AllBytes(b)
    ensures var c := ClassifyIpv6(b);
      && (c.Wildcard? <==> b == Zeros(16))
      && (c.Loopback? <==> b == Zeros(15) + [1])
      && (c.UniqueLocal? <==> InBlock(b, [0xfc] + Zeros(15), 7))
      && (c.LinkLocal? <==> InBlock(b, [0xfe, 0x80] + Zeros(14), 10))
      && (c.SpecialPurpose? <==> InBlock(b, [0xff] + Zeros(15), 8))
  {
    assert Pow2(1) == 2 && Pow2(6) == 64;
  }

  /** A bind is allowed exactly for an unprivileged port at a private address: a dotted quad in one of the
      IPv4 blocks, or an IPv6 text without zone and without embedded dotted quad in one of the IPv6 blocks. */
  lemma AllowedExactly(address: string, port: Port, allowLoopback: bool)
    ensures EvaluateBindTarget(address, port, allowLoopback).Allowed? <==>
      && port.Whole? && 1024 <= port.n <= 65535
      && ((exists o: Bytes :: IsOctets(o) && address == PrintIpv4(o) && BindableIpv4(o, allowLoopback))
          || (exists b: Bytes :: Denotes(address, b, false) && BindableIpv6(b, allowLoopback)))
  {
    BindableClasses(address, allowLoopback);
    forall o: Bytes
      ensures Ipv4(address) == Some(o) <==> IsOctets(o) && address == PrintIpv4(o)
    {
      Ipv4Exactly(address, o);
    }
    forall b: Bytes
      ensures Ipv6(address) == Some(Ipv6Parse(b, false)) <==> Denotes(address, b, false)
    {
      Ipv6Exactly(address, b, false);
    }
    if Ipv4(address).Some? && BindableIpv4(Ipv4(address).value, allowLoopback) { assert address == PrintIpv4(Ipv4(address).value); }
    if Ipv6(address).Some? && !Ipv6(address).value.embeddedIpv4 { assert Denotes(address, Ipv6(address).value.bytes, false); }
  }
}
