/** How the frontend stores and returns files: bytes as text of bits, text of bits as bytes, and
    bytes in Base64, decoded as section 4 of RFC 4648 says. */
module Base64 {
  import opened Text

  type Byte = x: int | 0 <= x < 256

  const UPPER := "ABCDEFGHIJKLMNOPQRSTUVWXYZ"
  const LOWER := "abcdefghijklmnopqrstuvwxyz"
  const DIGITS := "0123456789"

  /** BASE64_CHARS. */
  const ALPHABET := UPPER + (LOWER + (DIGITS + "+/"))

  /** The character for six bits: Table 1 of RFC 4648, which BASE64_CHARS lists. */
  function Letter(i: nat): char
    requires i < 64
  {
    if i < 26 then 'A' + i as char
    else if i < 52 then 'a' + (i - 26) as char
    else if i < 62 then '0' + (i - 52) as char
    else if i == 62 then '+'
    else '/'
  }

  /** BASE64_CHARS is that table. */
  lemma AlphabetIsTable(i: nat)
    requires i < 64
    ensures |ALPHABET| == 64 && ALPHABET[i] == Letter(i)
  {
    assert |UPPER| == 26 && |LOWER| == 26 && |DIGITS| == 10;
    if i < 26 {
      assert ALPHABET[i] == UPPER[i];
    } else if i < 52 {
      assert ALPHABET[i] == LOWER[i - 26];
    } else if i < 62 {
      assert ALPHABET[i] == DIGITS[i - 52];
    } else {
      assert ALPHABET[i] == "+/"[i - 62];
    }
  }

  // ---------------------------------------------------------------- bits

  function PowerOfTwo(n: nat): nat { if n == 0 then 1 else 2 * PowerOfTwo(n - 1) }

  /** std::bitset<width>(b).to_string(), the highest bit first. */
  function Bits(b: nat, width: nat): (s: string)
    ensures |s| == width
  {
    if width == 0 then "" else Bits(b / 2, width - 1) + [if b % 2 == 1 then '1' else '0']
  }

  predicate IsBit(c: char) { c == '0' || c == '1' }
  predicate AllBits(s: string) { forall i :: 0 <= i < |s| ==> IsBit(s[i]) }

  /** std::bitset<8>(s).to_ulong() of at most eight characters; None is std::invalid_argument. */
  function BitsValue(s: string): (v: Option<nat>)
    ensures v.Some? <==> AllBits(s)
    ensures v.Some? ==> v.value < PowerOfTwo(|s|)
  {
    if s == "" then Some(0)
    else match BitsValue(s[..|s| - 1])
      case None => None
      case Some(v) =>
        var c := s[|s| - 1];
        assert forall i :: 0 <= i < |s| - 1 ==> s[i] == s[..|s| - 1][i];
        if IsBit(c) then Some(2 * v + if c == '1' then 1 else 0) else None
  }

  function ToBits(data: seq<Byte>): string {
    if data == [] then "" else Bits(data[0], 8) + ToBits(data[1..])
  }

  function Group(s: string, n: nat): (string, string) {
    if |s| <= n then (s, "") else (s[..n], s[n..])
  }

  /** Eight characters a byte; the last group may be shorter. */
  function FromBits(s: string): Option<seq<Byte>>
    decreases |s|
  {
    if s == "" then Some([])
    else
      var (head, rest) := Group(s, 8);
      match (BitsValue(head), FromBits(rest))
      case (Some(v), Some(bytes)) => SmallPower(|head|); Some([v] + bytes)
      case _ => None
  }

  lemma {:induction false} SmallPower(n: nat)
    requires n <= 8
    ensures PowerOfTwo(n) <= 256
  {
    assert PowerOfTwo(8) == 256;
    if n < 8 { PowersGrow(n, 8); }
  }

  lemma {:induction false} PowersGrow(m: nat, n: nat)
    requires m <= n
    ensures PowerOfTwo(m) <= PowerOfTwo(n)
    decreases n
  {
    if m < n { PowersGrow(m, n - 1); }
  }

  /** stobs. */
  method Stobs(data: seq<Byte>) returns (s: string)
    ensures s == ToBits(data)
  {
    s := "";
    for i := 0 to |data|
      invariant s + ToBits(data[i..]) == ToBits(data)
    {
      assert (s + Bits(data[i], 8)) + ToBits(data[i + 1..]) == s + (Bits(data[i], 8) + ToBits(data[i + 1..]));
      s := s + Bits(data[i], 8);
    }
    assert s + "" == s;
  }

  /** bstoby; None is the exception of a character that is not a bit. */
  method Bstoby(s: string) returns (r: Option<seq<Byte>>)
    ensures r == FromBits(s)
  {
    var bytes: seq<Byte> := [];
    var i := 0;
    assert s[0..] == s && (FromBits(s).Some? ==> bytes + FromBits(s).value == FromBits(s).value);
    while i < |s|
      invariant 0 <= i
      invariant FromBits(s) == Prepend(bytes, FromBits(if i <= |s| then s[i..] else ""))
      decreases |s| - i
    {
      var piece := Prefix(s[i..], 8);
      var v := BitsValue(piece);
      NextByte(s, i, bytes);
      if v == None { return None; }
      SmallPower(|piece|);
      bytes := bytes + [v.value];
      i := i + 8;
    }
    assert bytes + [] == bytes;
    r := Some(bytes);
  }

  function Prepend(bytes: seq<Byte>, rest: Option<seq<Byte>>): Option<seq<Byte>> {
    match rest case None => None case Some(t) => Some(bytes + t)
  }

  lemma GroupAtPosition(s: string, i: nat)
    requires i < |s|
    ensures Group(s[i..], 8) == (Prefix(s[i..], 8), if i + 8 <= |s| then s[i + 8..] else "")
  {
    if i + 8 <= |s| { assert s[i..][8..] == s[i + 8..]; }
  }

  lemma NextByte(s: string, i: nat, bytes: seq<Byte>)
    requires i < |s|
    ensures var v := BitsValue(Prefix(s[i..], 8)); var rest := if i + 8 <= |s| then s[i + 8..] else "";
      && (v.Some? ==> v.value < 256 && Prepend(bytes, FromBits(s[i..])) == Prepend(bytes + [v.value], FromBits(rest)))
      && (v.None? ==> FromBits(s[i..]) == None)
  {
    var piece, rest := Prefix(s[i..], 8), if i + 8 <= |s| then s[i + 8..] else "";
    GroupAtPosition(s, i);
    SmallPower(|piece|);
    var v, t := BitsValue(piece), FromBits(rest);
    if v.Some? && t.Some? { assert bytes + ([v.value] + t.value) == (bytes + [v.value]) + t.value; }
  }

  lemma {:induction false} BitsValueStep(s: string, c: char, v: nat)
    requires BitsValue(s) == Some(v) && IsBit(c)
    ensures BitsValue(s + [c]) == Some(2 * v + if c == '1' then 1 else 0)
  {
  }

  lemma {:induction false} BitsRoundTrip(b: nat, width: nat)
    requires b < PowerOfTwo(width)
    ensures BitsValue(Bits(b, width)) == Some(b)
  {
    if width > 0 {
      var c := if b % 2 == 1 then '1' else '0';
      HalfFits(b, width);
      BitsRoundTrip(b / 2, width - 1);
      LowestBit(b, width, c);
      BitsValueStep(Bits(b / 2, width - 1), c, b / 2);
      Halves(b, c);
    }
  }

  lemma HalfFits(b: nat, width: nat)
    requires width > 0 && b < PowerOfTwo(width)
    ensures b / 2 < PowerOfTwo(width - 1)
  {
  }

  lemma LowestBit(b: nat, width: nat, c: char)
    requires width > 0 && c == if b % 2 == 1 then '1' else '0'
    ensures Bits(b, width) == Bits(b / 2, width - 1) + [c]
  {
  }

  lemma Halves(b: nat, c: char)
    requires c == if b % 2 == 1 then '1' else '0'
    ensures 2 * (b / 2) + (if c == '1' then 1 else 0) == b
  {
  }

  /** Reading the bits of bytes gives the bytes. */
  lemma {:induction false} ToBitsRoundTrip(data: seq<Byte>)
    ensures FromBits(ToBits(data)) == Some(data)
    decreases |data|
  {
    if data != [] {
      assert PowerOfTwo(8) == 256;
      BitsRoundTrip(data[0], 8);
      var head, rest := Bits(data[0], 8), ToBits(data[1..]);
      assert (head + rest)[..8] == head && (head + rest)[8..] == rest;
      assert rest == "" ==> head + rest == head;
      ToBitsRoundTrip(data[1..]);
      assert [data[0]] + data[1..] == data;
    }
  }

  /** bstoby throws exactly on text with a character that is not a bit. */
  lemma {:induction false} FromBitsIff(s: string)
    ensures FromBits(s).Some? <==> AllBits(s)
    decreases |s|
  {
    if s != "" {
      var (head, rest) := Group(s, 8);
      FromBitsIff(rest);
      assert s == head + rest;
      assert forall i :: 0 <= i < |s| ==> s[i] == if i < |head| then head[i] else rest[i - |head|];
      assert forall i :: 0 <= i < |head| ==> head[i] == s[i];
      assert forall i :: 0 <= i < |rest| ==> rest[i] == s[|head| + i];
    }
  }

  // ---------------------------------------------------------------- encoding

  function Triple(b0: Byte, b1: Byte, b2: Byte): nat { b0 * 65536 + b1 * 256 + b2 }

  /** Six bits of the triple, from the highest. */
  function Sixth(triple: nat, k: nat): (r: nat)
    requires k < 4
    ensures r < 64
  {
    if k == 0 then triple / 262144 % 64 else if k == 1 then triple / 4096 % 64
    else if k == 2 then triple / 64 % 64 else triple % 64
  }

  /** One group of the output; n is the number of bytes that are there. */
  function EncodeGroup(b0: Byte, b1: Byte, b2: Byte, n: nat): (s: string)
    ensures |s| == 4
  {
    var t := Triple(b0, b1, b2);
    [Letter(Sixth(t, 0)), Letter(Sixth(t, 1)),
     if n > 1 then Letter(Sixth(t, 2)) else '=', if n > 2 then Letter(Sixth(t, 3)) else '=']
  }

  function ByteAt(bytes: seq<Byte>, i: nat): Byte { if i < |bytes| then bytes[i] else 0 }

  type Writer = (Byte, Byte, Byte, nat) -> string

  /** Three bytes a group, each group written by `group`. */
  function EncodeWith(group: Writer, bytes: seq<Byte>): string {
    if bytes == [] then ""
    else
      group(bytes[0], ByteAt(bytes, 1), ByteAt(bytes, 2), |bytes|) +
      (if |bytes| <= 3 then "" else EncodeWith(group, bytes[3..]))
  }

  function Encode(bytes: seq<Byte>): string { EncodeWith(EncodeGroup, bytes) }

  /** The body of the loop of bytob64. */
  method GroupAt(bytes: seq<Byte>, i: nat) returns (group: string)
    requires i < |bytes|
    ensures group == EncodeGroup(bytes[i], ByteAt(bytes, i + 1), ByteAt(bytes, i + 2), |bytes| - i)
  {
    var len := |bytes|;
    var b1: int := if i + 1 < len then bytes[i + 1] else 0;
    var b2: int := if i + 2 < len then bytes[i + 2] else 0;
    var triple: nat := bytes[i] * 65536 % 16777216 + b1 * 256 + b2;
    assert triple == Triple(bytes[i], ByteAt(bytes, i + 1), ByteAt(bytes, i + 2));
    group := [Letter(triple / 262144 % 64), Letter(triple / 4096 % 64),
              if i + 1 < len then Letter(triple / 64 % 64) else '=', if i + 2 < len then Letter(triple % 64) else '='];
  }

  /** bytob64. */
  method Bytob64(bytes: seq<Byte>) returns (s: string)
    ensures s == Encode(bytes)
  {
    s := "";
    var i := 0;
    ghost var write := EncodeGroup;
    while i < |bytes|
      invariant 0 <= i
      invariant s + EncodeWith(write, From(bytes, i)) == EncodeWith(write, bytes)
      decreases |bytes| - i
    {
      var group := GroupAt(bytes, i);
      EncodeFrom(write, bytes, i, s, group);
      s := s + group;
      i := i + 3;
    }
    assert s + "" == s;
  }

  /** What is left from position i on. */
  function From(bytes: seq<Byte>, i: nat): seq<Byte> { if i <= |bytes| then bytes[i..] else [] }

  lemma EncodeFrom(write: Writer, bytes: seq<Byte>, i: nat, s: string, group: string)
    requires i < |bytes| && group == write(bytes[i], ByteAt(bytes, i + 1), ByteAt(bytes, i + 2), |bytes| - i)
    ensures s + EncodeWith(write, From(bytes, i)) == (s + group) + EncodeWith(write, From(bytes, i + 3))
  {
  }

  // ---------------------------------------------------------------- decoding, RFC 4648 section 4

  /** Table 1: the value of a character. */
  function Sextet(c: char): Option<nat> {
    if 'A' <= c <= 'Z' then Some((c - 'A') as nat)
    else if 'a' <= c <= 'z' then Some((c - 'a') as nat + 26)
    else if '0' <= c <= '9' then Some((c - '0') as nat + 52)
    else if c == '+' then Some(62)
    else if c == '/' then Some(63)
    else None
  }

  /** Three bytes from four characters. */
  function DecodeGroup(g: string): Option<seq<Byte>> {
    if |g| != 4 then None
    else match (Sextet(g[0]), Sextet(g[1]), Sextet(g[2]), Sextet(g[3]))
    case (Some(a), Some(b), Some(c), Some(d)) => Some(ThreeBytes(a * 262144 + b * 4096 + c * 64 + d))
    case _ => None
  }

  function ThreeBytes(t: nat): seq<Byte> { [t / 65536 % 256, t / 256 % 256, t % 256] }

  /** The last group: one or two `=` stand for bytes that are not there, and the bits behind the
      last byte are zero. */
  function DecodeLast(g: string): Option<seq<Byte>> {
    if |g| != 4 then None
    else if g[3] != '=' then DecodeGroup(g)
    else
      match DecodeGroup([g[0], g[1], if g[2] == '=' then 'A' else g[2], 'A'])
      case None => None
      case Some(b) =>
        if g[2] == '=' then (if b[1] == 0 && b[2] == 0 then Some(b[..1]) else None)
        else if b[2] == 0 then Some(b[..2]) else None
  }

  type Decoder = string -> Option<seq<Byte>>

  function DecodeWith(full: Decoder, last: Decoder, text: string): Option<seq<Byte>> {
    if text == "" then Some([])
    else if |text| <= 4 then last(text)
    else match (full(text[..4]), DecodeWith(full, last, text[4..]))
      case (Some(a), Some(b)) => Some(a + b)
      case _ => None
  }

  function Decode(text: string): Option<seq<Byte>> { DecodeWith(DecodeGroup, DecodeLast, text) }

  // ---------------------------------------------------------------- round trip

  lemma LetterIsSextet(i: nat)
    requires i < 64
    ensures Sextet(Letter(i)) == Some(i) && Letter(i) != '='
  {
  }

  lemma Divide(q: nat, r: nat, d: nat)
    requires d in {64, 256, 4096, 65536, 262144} && r < d
    ensures (q * d + r) / d == q && (q * d + r) % d == r
  {
  }

  lemma Sixth0(b0: Byte, b1: Byte, b2: Byte)
    ensures Sixth(Triple(b0, b1, b2), 0) == b0 / 4
  {
    Divide(b0 / 4, b0 % 4 * 65536 + b1 * 256 + b2, 262144);
  }

  lemma Sixth1(b0: Byte, b1: Byte, b2: Byte)
    ensures Sixth(Triple(b0, b1, b2), 1) == b0 % 4 * 16 + b1 / 16
  {
    Divide(b0 * 16 + b1 / 16, b1 % 16 * 256 + b2, 4096);
    Divide(b0 / 4, b0 % 4 * 16 + b1 / 16, 64);
  }

  lemma Sixth2(b0: Byte, b1: Byte, b2: Byte)
    ensures Sixth(Triple(b0, b1, b2), 2) == b1 % 16 * 4 + b2 / 64
  {
    Divide(b0 * 1024 + b1 * 4 + b2 / 64, b2 % 64, 64);
    Divide(b0 * 16 + b1 / 16, b1 % 16 * 4 + b2 / 64, 64);
  }

  lemma Sixth3(b0: Byte, b1: Byte, b2: Byte)
    ensures Sixth(Triple(b0, b1, b2), 3) == b2 % 64
  {
    Divide(b0 * 1024 + b1 * 4 + b2 / 64, b2 % 64, 64);
  }

  /** The sixths put together again, and cut into bytes. */
  lemma TripleFromSixths(b0: Byte, b1: Byte, b2: Byte)
    ensures var t := Triple(b0, b1, b2);
      Sixth(t, 0) * 262144 + Sixth(t, 1) * 4096 + Sixth(t, 2) * 64 + Sixth(t, 3) == t
  {
    Sixth0(b0, b1, b2);
    Sixth1(b0, b1, b2);
    Sixth2(b0, b1, b2);
    Sixth3(b0, b1, b2);
  }

  lemma BytesFromTriple(b0: Byte, b1: Byte, b2: Byte)
    ensures ThreeBytes(Triple(b0, b1, b2)) == [b0, b1, b2]
  {
    Divide(b0, b1 * 256 + b2, 65536);
    Divide(b0 * 256 + b1, b2, 256);
    Divide(b0, b1, 256);
  }

  lemma FourLetters(a: nat, b: nat, c: nat, d: nat)
    requires a < 64 && b < 64 && c < 64 && d < 64
    ensures DecodeGroup([Letter(a), Letter(b), Letter(c), Letter(d)]) ==
            Some(ThreeBytes(a * 262144 + b * 4096 + c * 64 + d))
  {
    LetterIsSextet(a);
    LetterIsSextet(b);
    LetterIsSextet(c);
    LetterIsSextet(d);
  }

  /** Four letters decode to the bytes of the triple. */
  lemma LettersDecode(b0: Byte, b1: Byte, b2: Byte)
    ensures var t := Triple(b0, b1, b2);
      DecodeGroup([Letter(Sixth(t, 0)), Letter(Sixth(t, 1)), Letter(Sixth(t, 2)), Letter(Sixth(t, 3))]) ==
        Some([b0, b1, b2])
  {
    var t := Triple(b0, b1, b2);
    FourLetters(Sixth(t, 0), Sixth(t, 1), Sixth(t, 2), Sixth(t, 3));
    TripleFromSixths(b0, b1, b2);
    BytesFromTriple(b0, b1, b2);
  }

  /** A byte that is not there leaves a sixth of zero bits, the letter A. */
  lemma MissingIsA(b0: Byte, b1: Byte)
    ensures Letter(Sixth(Triple(b0, b1, 0), 3)) == 'A'
    ensures Letter(Sixth(Triple(b0, 0, 0), 2)) == 'A'
  {
    Sixth3(b0, b1, 0);
    Sixth2(b0, 0, 0);
  }

  lemma FullGroup(b0: Byte, b1: Byte, b2: Byte, n: nat)
    requires n >= 3
    ensures DecodeLast(EncodeGroup(b0, b1, b2, n)) == Some([b0, b1, b2])
    ensures DecodeGroup(EncodeGroup(b0, b1, b2, n)) == Some([b0, b1, b2])
  {
    LettersDecode(b0, b1, b2);
    LetterIsSextet(Sixth(Triple(b0, b1, b2), 3));
  }

  lemma GroupOfTwo(b0: Byte, b1: Byte)
    ensures DecodeLast(EncodeGroup(b0, b1, 0, 2)) == Some([b0, b1])
  {
    LettersDecode(b0, b1, 0);
    MissingIsA(b0, b1);
    LetterIsSextet(Sixth(Triple(b0, b1, 0), 2));
    assert [b0, b1, 0][..2] == [b0, b1];
  }

  lemma GroupOfOne(b0: Byte)
    ensures DecodeLast(EncodeGroup(b0, 0, 0, 1)) == Some([b0])
  {
    LettersDecode(b0, 0, 0);
    MissingIsA(b0, 0);
    assert [b0, 0, 0][..1] == [b0];
  }

  ghost predicate FourLong(write: Writer) {
    forall b0: Byte, b1: Byte, b2: Byte, n: nat :: |write(b0, b1, b2, n)| == 4
  }

  /** What the decoders make of a written group. */
  ghost predicate Inverse(write: Writer, full: Decoder, last: Decoder) {
    && (forall b0: Byte, b1: Byte, b2: Byte, n: nat :: n > 3 ==> full(write(b0, b1, b2, n)) == Some([b0, b1, b2]))
    && (forall b0: Byte, b1: Byte, b2: Byte :: last(write(b0, b1, b2, 3)) == Some([b0, b1, b2]))
    && (forall b0: Byte, b1: Byte :: last(write(b0, b1, 0, 2)) == Some([b0, b1]))
    && forall b0: Byte :: last(write(b0, 0, 0, 1)) == Some([b0])
  }

  lemma GroupsAreInverse()
    ensures FourLong(EncodeGroup) && Inverse(EncodeGroup, DecodeGroup, DecodeLast)
  {
    forall b0: Byte, b1: Byte, b2: Byte, n: nat | n > 3
      ensures DecodeGroup(EncodeGroup(b0, b1, b2, n)) == Some([b0, b1, b2])
    {
      FullGroup(b0, b1, b2, n);
    }
    forall b0: Byte, b1: Byte, b2: Byte ensures DecodeLast(EncodeGroup(b0, b1, b2, 3)) == Some([b0, b1, b2]) {
      FullGroup(b0, b1, b2, 3);
    }
    forall b0: Byte, b1: Byte ensures DecodeLast(EncodeGroup(b0, b1, 0, 2)) == Some([b0, b1]) { GroupOfTwo(b0, b1); }
    forall b0: Byte ensures DecodeLast(EncodeGroup(b0, 0, 0, 1)) == Some([b0]) { GroupOfOne(b0); }
  }

  lemma {:induction false} EncodedLength(write: Writer, bytes: seq<Byte>)
    requires FourLong(write)
    ensures |EncodeWith(write, bytes)| == 4 * ((|bytes| + 2) / 3)
    decreases |bytes|
  {
    if |bytes| > 3 { EncodedLength(write, bytes[3..]); }
  }

  lemma {:induction false} OneGroup(write: Writer, bytes: seq<Byte>)
    requires 1 <= |bytes| <= 3
    ensures EncodeWith(write, bytes) == write(bytes[0], ByteAt(bytes, 1), ByteAt(bytes, 2), |bytes|)
  {
  }

  lemma {:induction false} OnlyGroup(full: Decoder, last: Decoder, group: string)
    requires |group| == 4
    ensures DecodeWith(full, last, group) == last(group)
  {
  }

  lemma BytesAre(bytes: seq<Byte>, b0: Byte, b1: Byte, b2: Byte)
    requires 1 <= |bytes| <= 3 && b0 == bytes[0] && b1 == ByteAt(bytes, 1) && b2 == ByteAt(bytes, 2)
    ensures |bytes| == 1 ==> bytes == [b0] && b1 == 0
    ensures |bytes| <= 2 ==> b2 == 0
    ensures |bytes| == 2 ==> bytes == [b0, b1]
    ensures |bytes| == 3 ==> bytes == [b0, b1, b2]
  {
  }

  lemma {:induction false} LastGroup(write: Writer, full: Decoder, last: Decoder, bytes: seq<Byte>)
    requires FourLong(write) && Inverse(write, full, last) && 1 <= |bytes| <= 3
    ensures DecodeWith(full, last, EncodeWith(write, bytes)) == Some(bytes)
  {
    OneGroup(write, bytes);
    var b0, b1, b2 := bytes[0], ByteAt(bytes, 1), ByteAt(bytes, 2);
    OnlyGroup(full, last, write(b0, b1, b2, |bytes|));
    BytesAre(bytes, b0, b1, b2);
    assert |bytes| == 1 ==> last(write(b0, 0, 0, 1)) == Some([b0]);
    assert |bytes| == 2 ==> last(write(b0, b1, 0, 2)) == Some([b0, b1]);
    assert |bytes| == 3 ==> last(write(b0, b1, b2, 3)) == Some([b0, b1, b2]);
  }

  /** Decoding the encoded bytes gives the bytes. */
  lemma {:induction false} RoundTripWith(write: Writer, full: Decoder, last: Decoder, bytes: seq<Byte>)
    requires FourLong(write) && Inverse(write, full, last)
    ensures DecodeWith(full, last, EncodeWith(write, bytes)) == Some(bytes)
    decreases |bytes|
  {
    if |bytes| > 3 {
      var group, rest := write(bytes[0], bytes[1], bytes[2], |bytes|), EncodeWith(write, bytes[3..]);
      RoundTripWith(write, full, last, bytes[3..]);
      EncodedLength(write, bytes[3..]);
      assert (group + rest)[..4] == group && (group + rest)[4..] == rest;
      assert [bytes[0], bytes[1], bytes[2]] + bytes[3..] == bytes;
    } else if bytes != [] {
      LastGroup(write, full, last, bytes);
    }
  }

  /** How many `=` end the text. */
  function Padding(n: nat): nat { if n % 3 == 0 then 0 else 3 - n % 3 }

  predicate Padded(text: string, padding: nat) {
    forall i :: 0 <= i < |text| ==> (text[i] == '=' <==> i >= |text| - padding)
  }

  lemma GroupPadding(b0: Byte, b1: Byte, b2: Byte, n: nat)
    requires n >= 1
    ensures Padded(EncodeGroup(b0, b1, b2, n), if n >= 3 then 0 else 3 - n)
  {
  }

  lemma PaddedConcat(a: string, b: string, padding: nat)
    requires Padded(a, 0) && Padded(b, padding) && padding <= |b|
    ensures Padded(a + b, padding)
  {
  }

  /** The missing bytes of the last group, and nothing else, are written as `=`. */
  lemma {:induction false} PaddingWith(write: Writer, bytes: seq<Byte>)
    requires FourLong(write)
    requires forall b0: Byte, b1: Byte, b2: Byte, n: nat :: n >= 1 ==>
               Padded(write(b0, b1, b2, n), if n >= 3 then 0 else 3 - n)
    ensures Padded(EncodeWith(write, bytes), Padding(|bytes|))
    decreases |bytes|
  {
    if |bytes| > 3 {
      PaddingWith(write, bytes[3..]);
      EncodedLength(write, bytes[3..]);
      SamePadding(|bytes|);
      PaddedConcat(write(bytes[0], bytes[1], bytes[2], |bytes|), EncodeWith(write, bytes[3..]), Padding(|bytes|));
    } else if bytes != [] {
      OneGroup(write, bytes);
    }
  }

  lemma SamePadding(n: nat)
    requires n > 3
    ensures Padding(n) == Padding(n - 3) && Padding(n - 3) <= 4 * ((n - 3 + 2) / 3)
  {
  }

  /** The whole pipeline: a file stored as text of bits and returned in Base64 decodes to the file,
      for every file. */
  lemma {:induction false} FileRoundTrip(data: seq<Byte>)
    ensures FromBits(ToBits(data)).Some?
    ensures Decode(Encode(FromBits(ToBits(data)).value)) == Some(data)
    ensures |Encode(FromBits(ToBits(data)).value)| == 4 * ((|data| + 2) / 3)
    ensures Padded(Encode(FromBits(ToBits(data)).value), Padding(|data|))
  {
    ToBitsRoundTrip(data);
    GroupsAreInverse();
    RoundTripWith(EncodeGroup, DecodeGroup, DecodeLast, data);
    EncodedLength(EncodeGroup, data);
    forall b0: Byte, b1: Byte, b2: Byte, n: nat | n >= 1
      ensures Padded(EncodeGroup(b0, b1, b2, n), if n >= 3 then 0 else 3 - n)
    {
      GroupPadding(b0, b1, b2, n);
    }
    PaddingWith(EncodeGroup, data);
  }
}
