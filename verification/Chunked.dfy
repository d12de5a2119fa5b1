/** The frontend's chunked transfer coding, decoded as section 7.1 of RFC 9112 says. */
module Chunked {
  import opened Collections
  import opened Text

  /** The character for a remainder: 0-9 and then A-F. */
  function HexDigit(d: nat): char
    requires d < 16
  {
    (d + 48 + if d >= 10 then 7 else 0) as char
  }

  /** Hexadecimal without leading zeros; zero has no digit. */
  function Hex(n: nat): string {
    if n == 0 then "" else Hex(n / 16) + [HexDigit(n % 16)]
  }

  function Reversed(s: string): string {
    if s == "" then "" else Reversed(s[1..]) + [s[0]]
  }

  lemma {:induction false} ReversedOneMore(s: string, c: char)
    ensures Reversed(s + [c]) == [c] + Reversed(s)
    decreases |s|
  {
    if s == "" {
      assert [c][1..] == "";
    } else {
      assert (s + [c])[1..] == s[1..] + [c];
      ReversedOneMore(s[1..], c);
    }
  }

  lemma {:induction false} ReversedAt(s: string, k: nat)
    requires k < |s|
    ensures |Reversed(s)| == |s| && Reversed(s)[k] == s[|s| - 1 - k]
    decreases |s|
  {
    if |s| > 1 {
      ReversedAt(s[1..], if k < |s| - 1 then k else 0);
    }
  }

  /** std::reverse, swapping from both ends. */
  method Reverse(s: string) returns (r: string)
    ensures r == Reversed(s)
  {
    r := s;
    for i := 0 to |s| / 2
      invariant |r| == |s|
      invariant forall k :: 0 <= k < i ==> r[k] == s[|s| - 1 - k] && r[|s| - 1 - k] == s[k]
      invariant forall k :: i <= k < |s| - i ==> r[k] == s[k]
    {
      r := r[i := r[|s| - 1 - i]][|s| - 1 - i := r[i]];
    }
    if s == "" {
      assert r == "";
    } else {
      ReversedAt(s, 0);
      forall k | 0 <= k < |s| ensures r[k] == Reversed(s)[k] { ReversedAt(s, k); }
    }
  }

  /** decToHex: the digits from the lowest, then reversed. */
  method DecToHex(number: nat) returns (hex: string)
    ensures hex == Hex(number)
  {
    hex := "";
    var n := number;
    while n != 0
      invariant Hex(n) + Reversed(hex) == Hex(number)
      decreases n
    {
      ReversedOneMore(hex, HexDigit(n % 16));
      assert (Hex(n / 16) + [HexDigit(n % 16)]) + Reversed(hex) == Hex(n / 16) + ([HexDigit(n % 16)] + Reversed(hex));
      hex := hex + [HexDigit(n % 16)];
      n := n / 16;
    }
    assert "" + Reversed(hex) == Reversed(hex);
    hex := Reverse(hex);
  }

  function ChunkLength(data: string, chunkSize: nat): nat { if chunkSize < |data| then chunkSize else |data| }

  function OneChunk(data: string): string { Hex(|data|) + (CRLF + (data + CRLF)) }

  /** The chunks and the last "0", without the line ends that the caller adds. */
  function Chunks(data: string, chunkSize: nat): string
    requires chunkSize > 0
    decreases |data|
  {
    if data == "" then "0"
    else
      var n := ChunkLength(data, chunkSize);
      OneChunk(data[..n]) + Chunks(data[n..], chunkSize)
  }

  /** write_to_chunk_transfer. */
  method WriteToChunkTransfer(body: string, chunkSize: nat) returns (text: string)
    requires chunkSize > 0
    ensures text == Chunks(body, chunkSize)
  {
    text := "";
    var data := body;
    while |data| > 0
      invariant text + Chunks(data, chunkSize) == Chunks(body, chunkSize)
      decreases |data|
    {
      var size := if chunkSize < |data| then chunkSize else |data|;
      var hex := DecToHex(size);
      ghost var rest := Chunks(data[size..], chunkSize);
      assert (text + (hex + (CRLF + (data[..size] + CRLF)))) + rest ==
             text + ((hex + (CRLF + (data[..size] + CRLF))) + rest);
      text := text + (hex + (CRLF + (data[..size] + CRLF)));
      data := data[size..];
    }
    text := text + "0";
  }

  // ---------------------------------------------------------------- RFC 9112 section 7.1

  function HexDigitValue(c: char): Option<nat> {
    if '0' <= c <= '9' then Some((c - '0') as nat)
    else if 'A' <= c <= 'F' then Some((c - 'A') as nat + 10)
    else if 'a' <= c <= 'f' then Some((c - 'a') as nat + 10)
    else None
  }

  function HexValue(s: string): Option<nat> {
    if s == "" then Some(0)
    else match (HexValue(s[..|s| - 1]), HexDigitValue(s[|s| - 1]))
      case (Some(v), Some(d)) => Some(v * 16 + d)
      case _ => None
  }

  /** chunk-size = 1*HEXDIG */
  function ChunkSize(s: string): Option<nat> { if s == "" then None else HexValue(s) }

  /** chunked-body = *chunk last-chunk trailer-section CRLF, without chunk extensions and with an
      empty trailer section. The data of the chunks and what follows the body. */
  function DecodeChunks(s: string): Option<(seq<string>, string)>
    decreases |s|
  {
    CutCrlfShrinks(s);
    match CutCrlf(s)
    case None => None
    case Some((line, rest)) =>
      match ChunkSize(line)
      case None => None
      case Some(n) =>
        if n == 0 then (if |rest| >= 2 && rest[..2] == CRLF then Some(([], rest[2..])) else None)
        else if |rest| < n + 2 || rest[n..n + 2] != CRLF then None
        else match DecodeChunks(rest[n + 2..])
          case None => None
          case Some((chunks, after)) => Some(([rest[..n]] + chunks, after))
  }

  function Joined(chunks: seq<string>): string {
    if chunks == [] then "" else chunks[0] + Joined(chunks[1..])
  }

  /** The body, and what follows it. */
  function Dechunk(s: string): Option<(string, string)> {
    match DecodeChunks(s)
    case None => None
    case Some((chunks, after)) => Some((Joined(chunks), after))
  }

  // ---------------------------------------------------------------- round trip

  lemma HexDigitRoundTrip(d: nat)
    requires d < 16
    ensures HexDigitValue(HexDigit(d)) == Some(d)
  {
  }

  lemma {:induction false} HexValueStep(s: string, c: char, v: nat, d: nat)
    requires HexValue(s) == Some(v) && HexDigitValue(c) == Some(d)
    ensures HexValue(s + [c]) == Some(v * 16 + d)
  {
  }

  /** The sizes written in hexadecimal read back to the lengths. */
  lemma {:induction false} HexRoundTrip(n: nat)
    ensures HexValue(Hex(n)) == Some(n)
    ensures n > 0 ==> ChunkSize(Hex(n)) == Some(n)
  {
    if n > 0 {
      HexRoundTrip(n / 16);
      HexDigitRoundTrip(n % 16);
      HexValueStep(Hex(n / 16), HexDigit(n % 16), n / 16, n % 16);
      QuotientAndRest(n);
    }
  }

  lemma QuotientAndRest(n: nat)
    ensures n / 16 * 16 + n % 16 == n
  {
  }

  lemma {:induction false} HexHasNoReturn(n: nat)
    ensures '\r' !in Hex(n)
  {
    if n != 0 { HexHasNoReturn(n / 16); }
  }

  lemma {:induction false} OneChunkIs(data: string, rest: string)
    requires data != ""
    ensures DecodeChunks(OneChunk(data) + rest) ==
      match DecodeChunks(rest) case None => None case Some((chunks, after)) => Some(([data] + chunks, after))
  {
    var line, more := Hex(|data|), data + (CRLF + rest);
    Associative(line, CRLF + (data + CRLF), rest);
    assert (CRLF + (data + CRLF)) + rest == CRLF + more;
    SizeLine(|data|, more);
    assert more[..|data|] == data && more[|data|..|data| + 2] == CRLF && more[|data| + 2..] == rest;
  }

  lemma {:induction false} SizeLine(n: nat, more: string)
    requires n > 0
    ensures CutCrlf(Hex(n) + (CRLF + more)) == Some((Hex(n), more)) && ChunkSize(Hex(n)) == Some(n)
  {
    HexHasNoReturn(n);
    NoReturnNoCrlf(Hex(n));
    CutCrlfIs(Hex(n), more);
    HexRoundTrip(n);
  }

  lemma {:induction false} LastChunkIs(after: string)
    ensures DecodeChunks("0" + (CRLF + (CRLF + after))) == Some(([], after))
  {
    NoReturnNoCrlf("0");
    CutCrlfIs("0", CRLF + after);
    HexValueStep("", '0', 0, 0);
    assert "" + ['0'] == "0";
    assert (CRLF + after)[..2] == CRLF && (CRLF + after)[2..] == after;
  }

  /** No chunk is empty or longer than the size, and only the last one may be shorter. */
  predicate EvenlyCut(chunks: seq<string>, chunkSize: nat) {
    forall i :: 0 <= i < |chunks| ==>
      0 < |chunks[i]| <= chunkSize && (i < |chunks| - 1 ==> |chunks[i]| == chunkSize)
  }

  /** There is only one way to cut a body so. */
  lemma {:induction false} EvenCutIsUnique(a: seq<string>, b: seq<string>, chunkSize: nat)
    requires EvenlyCut(a, chunkSize) && EvenlyCut(b, chunkSize) && Joined(a) == Joined(b)
    ensures a == b
    decreases |a|
  {
    if a == [] || b == [] {
      EmptyCut(a, chunkSize);
      EmptyCut(b, chunkSize);
    } else {
      FirstOfCut(a, chunkSize);
      FirstOfCut(b, chunkSize);
      assert Joined(a)[..|a[0]|] == a[0] && Joined(b)[..|b[0]|] == b[0];
      assert Joined(a)[|a[0]|..] == Joined(a[1..]) && Joined(b)[|b[0]|..] == Joined(b[1..]);
      EvenCutIsUnique(a[1..], b[1..], chunkSize);
      assert a == [a[0]] + a[1..] && b == [b[0]] + b[1..];
    }
  }

  lemma {:induction false} EmptyCut(chunks: seq<string>, chunkSize: nat)
    requires EvenlyCut(chunks, chunkSize)
    ensures Joined(chunks) == "" <==> chunks == []
  {
  }

  /** The first chunk has the size, or the whole text if that is shorter. */
  lemma {:induction false} FirstOfCut(chunks: seq<string>, chunkSize: nat)
    requires EvenlyCut(chunks, chunkSize) && chunks != []
    ensures |chunks[0]| == if chunkSize < |Joined(chunks)| then chunkSize else |Joined(chunks)|
  {
    if |chunks| == 1 {
      assert Joined(chunks[1..]) == "";
    } else {
      assert |chunks[0]| == chunkSize;
      EmptyCut(chunks[1..], chunkSize);
    }
  }

  /** How many: the body's length over the size, rounded up. */
  lemma {:induction false} EvenCutCount(chunks: seq<string>, chunkSize: nat)
    requires EvenlyCut(chunks, chunkSize)
    ensures |Joined(chunks)| <= |chunks| * chunkSize
    ensures chunks != [] ==> (|chunks| - 1) * chunkSize < |Joined(chunks)|
  {
    if chunks != [] {
      var rest := chunks[1..];
      EvenCutCount(rest, chunkSize);
      assert (|rest| + 1) * chunkSize == |rest| * chunkSize + chunkSize;
      if rest != [] {
        assert |chunks[0]| == chunkSize && (|rest| - 1) * chunkSize + chunkSize == |rest| * chunkSize;
      }
    }
  }

  lemma {:induction false} FirstCut(data: string, n: nat, rest: seq<string>, chunkSize: nat)
    requires 0 < n <= |data| && n == ChunkLength(data, chunkSize)
    requires EvenlyCut(rest, chunkSize) && Joined(rest) == data[n..]
    ensures EvenlyCut([data[..n]] + rest, chunkSize) && Joined([data[..n]] + rest) == data
  {
    EmptyCut(rest, chunkSize);
    assert ([data[..n]] + rest)[1..] == rest;
    assert data[..n] + data[n..] == data;
  }

  /** For every body and every positive chunk size, what is written with the two line ends that the
      caller adds decodes to chunks of that size, only the last one shorter, and nothing is left
      over; they are the body, and their number its length over the size, rounded up. */
  lemma {:induction false} ChunkedPieces(data: string, chunkSize: nat, after: string) returns (chunks: seq<string>)
    requires chunkSize > 0
    ensures DecodeChunks(Chunks(data, chunkSize) + (CRLF + (CRLF + after))) == Some((chunks, after))
    ensures EvenlyCut(chunks, chunkSize) && Joined(chunks) == data
    ensures |data| <= |chunks| * chunkSize && (data != "" ==> (|chunks| - 1) * chunkSize < |data|)
    decreases |data|
  {
    var end := CRLF + (CRLF + after);
    if data == "" {
      LastChunkIs(after);
      chunks := [];
    } else {
      var n := ChunkLength(data, chunkSize);
      var rest := Chunks(data[n..], chunkSize);
      var others := ChunkedPieces(data[n..], chunkSize, after);
      OneChunkIs(data[..n], rest + end);
      Associative(OneChunk(data[..n]), rest, end);
      chunks := [data[..n]] + others;
      FirstCut(data, n, others, chunkSize);
      EvenCutCount(chunks, chunkSize);
    }
  }

  /** Chunked coding: for every body, empty or not, and every positive chunk size, what is written
      with the two line ends that the caller adds decodes to the body, and nothing is left over. */
  lemma {:induction false} ChunkedRoundTrip(data: string, chunkSize: nat, after: string)
    requires chunkSize > 0
    ensures Dechunk(Chunks(data, chunkSize) + (CRLF + (CRLF + after))) == Some((data, after))
  {
    var chunks := ChunkedPieces(data, chunkSize, after);
  }

  // ---------------------------------------------------------------- the size lines

  /** 0-9 and A-F, no zero in front. */
  predicate Canonical(s: string) {
    (s != "" ==> s[0] != '0') && forall i :: 0 <= i < |s| ==> '0' <= s[i] <= '9' || 'A' <= s[i] <= 'F'
  }

  /** The program writes the one numeral without small letters and leading zeros. */
  lemma {:induction false} HexIsCanonicalIff(n: nat, s: string)
    ensures s == Hex(n) <==> Canonical(s) && HexValue(s) == Some(n)
  {
    HexRoundTrip(n);
    HexIsCanonical(n);
    if Canonical(s) && HexValue(s) == Some(n) { CanonicalIsHex(s, n); }
  }

  lemma {:induction false} HexIsCanonical(n: nat)
    ensures Canonical(Hex(n)) && (n > 0 ==> Hex(n) != "")
  {
    if n > 0 {
      HexIsCanonical(n / 16);
      if n < 16 { assert n / 16 == 0; }
    }
  }

  lemma {:induction false} CanonicalIsHex(s: string, n: nat)
    requires Canonical(s) && HexValue(s) == Some(n)
    ensures Hex(n) == s
  {
    if s != "" {
      var front, last := s[..|s| - 1], s[|s| - 1];
      var v, d := HexValue(front).value, HexDigitValue(last).value;
      assert n == v * 16 + d && d < 16;
      CanonicalIsHex(front, v);
      DigitIsLast(v, d);
      assert HexDigit(d) == last;
    }
  }

  lemma DigitIsLast(v: nat, d: nat)
    requires d < 16
    ensures (v * 16 + d) / 16 == v && (v * 16 + d) % 16 == d
  {
  }
}
