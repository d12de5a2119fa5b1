/** The parts of the C++ string library the servers are written with: searching,
    splitting by getline, decimal numbers and white space. Positions are `Option`s
    instead of std::string::npos. */
module Text {

  datatype Option<+T> = None | Some(value: T)

  /** `pat` occurs in `s` at position `i`. */
  predicate OccursAt(s: string, pat: string, i: nat) {
    i + |pat| <= |s| && s[i..i + |pat|] == pat
  }

  /** std::string::find(pat, from): the first occurrence at or after `from`. */
  function FindFrom(s: string, pat: string, from: nat): Option<nat>
    decreases |s| - from
  {
    if from + |pat| > |s| then None
    else if s[from..from + |pat|] == pat then Some(from)
    else FindFrom(s, pat, from + 1)
  }

  function Find(s: string, pat: string): Option<nat> { FindFrom(s, pat, 0) }

  lemma {:induction false} FindFromFinds(s: string, pat: string, from: nat)
    ensures var r := FindFrom(s, pat, from);
      && (r.Some? ==> from <= r.value && OccursAt(s, pat, r.value))
      && (r.Some? ==> forall j: nat :: from <= j < r.value ==> !OccursAt(s, pat, j))
      && (r.None? ==> forall j: nat :: from <= j ==> !OccursAt(s, pat, j))
    decreases |s| - from
  {
    if from + |pat| <= |s| && s[from..from + |pat|] != pat {
      FindFromFinds(s, pat, from + 1);
    }
  }

  /** std::string::find(c) for one character. */
  function FindChar(s: string, c: char): Option<nat> {
    if s == "" then None
    else if s[0] == c then Some(0)
    else match FindChar(s[1..], c)
      case None => None
      case Some(i) => Some(i + 1)
  }

  lemma {:induction false} FindCharFinds(s: string, c: char)
    ensures FindChar(s, c).Some? <==> c in s
    ensures var r := FindChar(s, c); r.Some? ==> r.value < |s| && s[r.value] == c && c !in s[..r.value]
  {
    if s != "" && s[0] != c {
      FindCharFinds(s[1..], c);
      match FindChar(s[1..], c) {
        case None =>
        case Some(i) => assert s[..i + 1] == [s[0]] + s[1..][..i];
      }
    }
  }

  /** std::string::rfind(c) for one character. */
  function RFindChar(s: string, c: char): Option<nat> {
    if s == "" then None
    else if s[|s| - 1] == c then Some(|s| - 1)
    else RFindChar(s[..|s| - 1], c)
  }

  /** What repeated getline(stream, token, d) reads: a trailing delimiter does not
      open another token, and the empty text has no token. */
  function Split(s: string, d: char): (tokens: seq<string>)
    decreases |s|
  {
    if s == "" then []
    else
      FindCharFinds(s, d);
      match FindChar(s, d)
      case None => [s]
      case Some(i) => [s[..i]] + Split(s[i + 1..], d)
  }

  function Lines(s: string): seq<string> {
    Split(s, '\n')
  }

  /** Tokens with one blank between consecutive ones. */
  function Join(tokens: seq<string>): string {
    if tokens == [] then ""
    else if |tokens| == 1 then tokens[0]
    else tokens[0] + " " + Join(tokens[1..])
  }

  /** The first n characters, or all of them (substr(0, n)). */
  function Prefix(s: string, n: nat): string {
    if |s| <= n then s else s[..n]
  }

  // ---------------------------------------------------------------- searching

  lemma {:induction false} FindCharIs(head: string, c: char, rest: string)
    requires c !in head
    ensures FindChar(head + ([c] + rest), c) == Some(|head|)
  {
    if head == "" {
      assert head + ([c] + rest) == [c] + rest;
    } else {
      assert (head + ([c] + rest))[1..] == head[1..] + ([c] + rest);
      FindCharIs(head[1..], c, rest);
    }
  }

  lemma {:induction false} RFindCharIs(head: string, c: char, tail: string)
    requires c !in tail
    ensures RFindChar(head + ([c] + tail), c) == Some(|head|)
  {
    var s := head + ([c] + tail);
    if tail == "" {
      assert s[|s| - 1] == c;
    } else {
      assert s[|s| - 1] == tail[|tail| - 1];
      assert s[..|s| - 1] == head + ([c] + tail[..|tail| - 1]);
      RFindCharIs(head, c, tail[..|tail| - 1]);
    }
  }

  lemma FindIs(s: string, pat: string, i: nat)
    requires OccursAt(s, pat, i) && forall j: nat :: j < i ==> !OccursAt(s, pat, j)
    ensures Find(s, pat) == Some(i)
  {
    FindFromFinds(s, pat, 0);
  }

  // ---------------------------------------------------------------- splitting

  lemma {:induction false} SplitFirst(s: string, head: string, rest: string, d: char)
    requires d !in head && s == head + ([d] + rest)
    ensures Split(s, d) == [head] + Split(rest, d)
  {
    FindCharIs(head, d, rest);
    assert s[..|head|] == head && s[|head| + 1..] == rest;
  }

  lemma {:induction false} SplitLast(s: string, d: char)
    requires d !in s && s != ""
    ensures Split(s, d) == [s]
  {
    FindCharFinds(s, d);
  }

  /** The text less one trailing blank. */
  function DropLastBlank(s: string): string {
    if s != "" && s[|s| - 1] == ' ' then s[..|s| - 1] else s
  }

  lemma DropBehind(head: string, rest: string)
    requires rest != ""
    ensures DropLastBlank(head + ([' '] + rest)) == head + ([' '] + DropLastBlank(rest))
  {
  }

  lemma {:induction false} JoinFirst(token: string, tokens: seq<string>)
    ensures Join([token] + tokens) == if tokens == [] then token else token + ([' '] + Join(tokens))
  {
  }

  lemma {:induction false} SplitIsEmptyIff(s: string, d: char)
    ensures Split(s, d) == [] <==> s == ""
  {
  }

  lemma {:induction false} JoinBehind(s: string, head: string, rest: string)
    requires ' ' !in head && s == head + ([' '] + rest)
    ensures Join(Split(s, ' ')) == if rest == "" then head else head + ([' '] + Join(Split(rest, ' ')))
  {
    SplitFirst(s, head, rest, ' ');
    JoinFirst(head, Split(rest, ' '));
    SplitIsEmptyIff(rest, ' ');
  }

  lemma {:induction false} CutBlank(s: string) returns (head: string, rest: string)
    requires ' ' in s
    ensures ' ' !in head && s == head + ([' '] + rest) && |rest| < |s|
  {
    FindCharFinds(s, ' ');
    var i := FindChar(s, ' ').value;
    head, rest := s[..i], s[i + 1..];
  }

  /** Joining the blank-separated tokens gives the text back, less one trailing blank. */
  lemma {:induction false} JoinSplit(s: string)
    ensures Join(Split(s, ' ')) == DropLastBlank(s)
    decreases |s|
  {
    if s == "" {
    } else if ' ' !in s {
      SplitLast(s, ' ');
    } else {
      var head, rest := CutBlank(s);
      JoinBehind(s, head, rest);
      if rest != "" {
        JoinSplit(rest);
        DropBehind(head, rest);
      }
    }
  }

  // ---------------------------------------------------------------- lines that end in CRLF

  const CRLF := "\r\n"

  /** The text up to the first CRLF and the text behind it. */
  function CutCrlf(s: string): Option<(string, string)> {
    if |s| < 2 then None
    else if s[..2] == CRLF then Some(("", s[2..]))
    else match CutCrlf(s[1..])
      case None => None
      case Some((line, rest)) => Some(([s[0]] + line, rest))
  }

  lemma {:induction false} CutCrlfShrinks(s: string)
    ensures CutCrlf(s).Some? ==> |CutCrlf(s).value.1| < |s|
    decreases |s|
  {
    if |s| >= 2 && s[..2] != CRLF { CutCrlfShrinks(s[1..]); }
  }

  predicate HasNoCrlf(s: string) {
    forall i :: 0 <= i < |s| - 1 ==> !(s[i] == '\r' && s[i + 1] == '\n')
  }

  lemma NoReturnNoCrlf(s: string)
    requires '\r' !in s
    ensures HasNoCrlf(s)
  {
  }

  /** A line without CRLF is what is cut off. */
  lemma {:induction false} CutCrlfIs(line: string, rest: string)
    requires HasNoCrlf(line)
    ensures CutCrlf(line + (CRLF + rest)) == Some((line, rest))
    decreases |line|
  {
    var s := line + (CRLF + rest);
    if line == "" {
      assert s == CRLF + rest && s[..2] == CRLF && s[2..] == rest;
    } else {
      assert s[1..] == line[1..] + (CRLF + rest) && s[0] == line[0];
      assert s[1] == if |line| > 1 then line[1] else '\r';
      assert s[..2] == [s[0], s[1]];
      CutCrlfIs(line[1..], rest);
      assert [line[0]] + line[1..] == line;
    }
  }

  /** And what is cut off is a line without CRLF; nothing is, if there is none. */
  lemma {:induction false} CutCrlfCuts(s: string)
    ensures CutCrlf(s).None? <==> HasNoCrlf(s)
    ensures CutCrlf(s).Some? ==> HasNoCrlf(CutCrlf(s).value.0) && s == CutCrlf(s).value.0 + (CRLF + CutCrlf(s).value.1)
    decreases |s|
  {
    if |s| >= 2 {
      assert s[..2] == [s[0], s[1]];
      if s[..2] == CRLF {
        assert s == "" + (CRLF + s[2..]);
      } else {
        CutCrlfCuts(s[1..]);
        if CutCrlf(s[1..]).Some? {
          var line, rest := CutCrlf(s[1..]).value.0, CutCrlf(s[1..]).value.1;
          FirstCharStays(s, line, rest);
        } else {
          forall i | 0 <= i < |s| - 1 ensures !(s[i] == '\r' && s[i + 1] == '\n') {
            if i > 0 { assert s[1..][i - 1] == s[i] && s[1..][i] == s[i + 1]; }
          }
        }
      }
    }
  }

  lemma FirstCharStays(s: string, line: string, rest: string)
    requires |s| >= 2 && s[..2] != CRLF && s[1..] == line + (CRLF + rest) && HasNoCrlf(line)
    ensures HasNoCrlf([s[0]] + line) && s == ([s[0]] + line) + (CRLF + rest) && !HasNoCrlf(s)
  {
    assert s[..2] == [s[0], s[1]];
    assert s == [s[0]] + s[1..];
    assert line != "" ==> s[1] == line[0];
    assert s[|line| + 1] == '\r' && s[|line| + 2] == '\n';
  }

  // ---------------------------------------------------------------- white space

  /** isspace in the C locale. */
  predicate IsSpace(c: char) {
    c == ' ' || c == '\n' || c == '\r' || c == '\t' || c == 11 as char || c == 12 as char
  }

  /** White space is the blank and the five control characters from tab to carriage return. */
  lemma SpaceIsRange(c: char)
    ensures IsSpace(c) <==> c == ' ' || 9 <= c as nat <= 13
  {
  }

  /** trim_trailing_newline: drops every trailing white-space character. */
  function TrimEnd(s: string): (r: string)
    ensures r <= s
    ensures r == "" || !IsSpace(r[|r| - 1])
    ensures forall i :: |r| <= i < |s| ==> IsSpace(s[i])
  {
    if s != "" && IsSpace(s[|s| - 1]) then TrimEnd(s[..|s| - 1]) else s
  }

  /** `stream >> std::ws`. */
  function TrimStart(s: string): (r: string)
    ensures |r| <= |s| && r == s[|s| - |r|..]
    ensures r == "" || !IsSpace(r[0])
    ensures forall i :: 0 <= i < |s| - |r| ==> IsSpace(s[i])
  {
    if s != "" && IsSpace(s[0]) then
      var r := TrimStart(s[1..]);
      assert s[1..][|s| - 1 - |r|..] == s[|s| - |r|..];
      r
    else s
  }

  /** The non-blank run that `stream >> word` reads. */
  function Word(s: string): (w: string)
    ensures w <= s
    ensures forall i :: 0 <= i < |w| ==> !IsSpace(w[i])
    ensures |w| == |s| || IsSpace(s[|w|])
  {
    if s == "" || IsSpace(s[0]) then ""
    else
      var w := Word(s[1..]);
      assert s == [s[0]] + s[1..];
      [s[0]] + w
  }

  predicate NoSpace(s: string) {
    forall i :: 0 <= i < |s| ==> !IsSpace(s[i])
  }

  lemma {:induction false} WordIs(w: string, rest: string)
    requires NoSpace(w)
    requires rest == "" || IsSpace(rest[0])
    ensures Word(w + rest) == w
  {
    if w == "" {
      assert w + rest == rest;
    } else {
      assert (w + rest)[1..] == w[1..] + rest;
      WordIs(w[1..], rest);
    }
  }

  // ---------------------------------------------------------------- decimal numbers

  predicate IsDigit(c: char) {
    '0' <= c <= '9'
  }

  predicate AllDigits(s: string) {
    forall i :: 0 <= i < |s| ==> IsDigit(s[i])
  }

  /** std::to_string of a natural number. */
  function Decimal(n: nat): (s: string)
    ensures s != "" && AllDigits(s)
  {
    if n < 10 then ['0' + n as char]
    else Decimal(n / 10) + ['0' + (n % 10) as char]
  }

  function DigitsValue(s: string): nat
    requires AllDigits(s)
  {
    if s == "" then 0
    else DigitsValue(s[..|s| - 1]) * 10 + (s[|s| - 1] - '0') as nat
  }

  function LeadingDigits(s: string): (r: string)
    ensures r <= s && AllDigits(r)
    ensures |r| == |s| || !IsDigit(s[|r|])
  {
    if s == "" || !IsDigit(s[0]) then ""
    else
      var r := LeadingDigits(s[1..]);
      assert s == [s[0]] + s[1..];
      [s[0]] + r
  }

  /** atoi on text that starts with its digits. */
  function Atoi(s: string): nat {
    DigitsValue(LeadingDigits(s))
  }

  lemma {:induction false} DecimalValue(n: nat)
    ensures DigitsValue(Decimal(n)) == n
  {
    if n >= 10 {
      DecimalValue(n / 10);
      var s := Decimal(n);
      assert s[..|s| - 1] == Decimal(n / 10);
    }
  }

  lemma {:induction false} LeadingDigitsIs(d: string, rest: string)
    requires AllDigits(d)
    requires rest == "" || !IsDigit(rest[0])
    ensures LeadingDigits(d + rest) == d
  {
    if d == "" {
      assert d + rest == rest;
    } else {
      assert (d + rest)[1..] == d[1..] + rest;
      LeadingDigitsIs(d[1..], rest);
    }
  }

  lemma {:induction false} AtoiDecimal(n: nat, rest: string)
    requires rest == "" || !IsDigit(rest[0])
    ensures Atoi(Decimal(n) + rest) == n
  {
    LeadingDigitsIs(Decimal(n), rest);
    DecimalValue(n);
  }

  lemma {:induction false} AtoiOfDecimal(n: nat)
    ensures Atoi(Decimal(n)) == n
  {
    AtoiDecimal(n, "");
    assert Decimal(n) + "" == Decimal(n);
  }
}
