/** How a server cuts the bytes of a connection into messages: start_func's buffer. */
module Framing {
  import opened Text

  /** The lines of a stream and the tail behind the last CRLF. */
  function Frames(s: string): (seq<string>, string)
    decreases |s|
  {
    CutCrlfShrinks(s);
    match CutCrlf(s)
    case None => ([], s)
    case Some((line, rest)) => ([line] + Frames(rest).0, Frames(rest).1)
  }

  function Trimmed(lines: seq<string>): seq<string> {
    if lines == [] then [] else [TrimEnd(lines[0])] + Trimmed(lines[1..])
  }

  /** A connection: the bytes not yet dispatched, and the messages dispatched so far. */
  class Connection {
    var buffer: string
    var dispatched: seq<string>

    constructor ()
      ensures buffer == "" && dispatched == []
    {
      buffer, dispatched := "", [];
    }

    /** One round of start_func: the bytes that are there are appended to the buffer, then every
        complete message is dispatched, trimmed. */
    method Receive(bytes: string)
      modifies this
      ensures dispatched == old(dispatched) + Trimmed(Frames(old(buffer) + bytes).0)
      ensures buffer == Frames(old(buffer) + bytes).1
    {
      buffer := buffer + bytes;
      ghost var all, before := buffer, dispatched;
      assert dispatched + Trimmed(Frames(buffer).0) == before + Trimmed(Frames(all).0);
      while |buffer| > 0
        invariant dispatched + Trimmed(Frames(buffer).0) == before + Trimmed(Frames(all).0)
        invariant Frames(buffer).1 == Frames(all).1
        decreases |buffer|
      {
        CutCrlfShrinks(buffer);
        match CutCrlf(buffer) {
          case None => break;
          case Some(cut) =>
            NextMessage(dispatched, buffer);
            dispatched := dispatched + [TrimEnd(cut.0)];
            buffer := cut.1;
        }
      }
      assert Frames(buffer) == ([], buffer);
      assert dispatched + [] == dispatched;
    }
  }

  lemma {:induction false} NextMessage(dispatched: seq<string>, buffer: string)
    requires CutCrlf(buffer).Some?
    ensures var cut := CutCrlf(buffer).value;
      dispatched + Trimmed(Frames(buffer).0) == (dispatched + [TrimEnd(cut.0)]) + Trimmed(Frames(cut.1).0)
      && Frames(buffer).1 == Frames(cut.1).1
  {
    CutCrlfShrinks(buffer);
    var cut := CutCrlf(buffer).value;
    TrimmedFirst(cut.0, Frames(cut.1).0);
    assert dispatched + ([TrimEnd(cut.0)] + Trimmed(Frames(cut.1).0)) ==
           (dispatched + [TrimEnd(cut.0)]) + Trimmed(Frames(cut.1).0);
  }

  lemma {:induction false} TrimmedFirst(line: string, rest: seq<string>)
    ensures Trimmed([line] + rest) == [TrimEnd(line)] + Trimmed(rest)
  {
  }

  /** The message of a line is the line without the white space at its end. */
  predicate IsTrimmed(line: string, message: string) {
    && message <= line && (message == "" || !IsSpace(message[|message| - 1]))
    && forall i :: |message| <= i < |line| ==> IsSpace(line[i])
  }

  lemma {:induction false} TrimmedIff(lines: seq<string>, messages: seq<string>)
    ensures messages == Trimmed(lines) <==>
            |messages| == |lines| && forall i :: 0 <= i < |lines| ==> IsTrimmed(lines[i], messages[i])
    decreases |lines|
  {
    if lines != [] && messages != [] {
      TrimmedIff(lines[1..], messages[1..]);
      TrimIsUnique(lines[0], messages[0]);
      assert messages == [messages[0]] + messages[1..];
      assert forall i :: 0 < i < |lines| ==> lines[1..][i - 1] == lines[i];
      assert forall i :: 0 < i < |messages| ==> messages[1..][i - 1] == messages[i];
    }
  }

  lemma {:induction false} TrimIsUnique(line: string, message: string)
    ensures IsTrimmed(line, message) <==> message == TrimEnd(line)
  {
    var m := TrimEnd(line);
    if m != "" { assert line[|m| - 1] == m[|m| - 1]; }
    if message != "" && message <= line { assert line[|message| - 1] == message[|message| - 1]; }
  }

  lemma {:induction false} TrimmedConcat(a: seq<string>, b: seq<string>)
    ensures Trimmed(a + b) == Trimmed(a) + Trimmed(b)
    decreases |a|
  {
    if a == [] {
      assert a + b == b;
    } else {
      assert (a + b)[1..] == a[1..] + b;
      TrimmedConcat(a[1..], b);
    }
  }

  // ---------------------------------------------------------------- what framing means

  function Delimited(lines: seq<string>): string {
    if lines == [] then "" else lines[0] + (CRLF + Delimited(lines[1..]))
  }

  /** The stream is these lines, each with its CRLF, and a tail; neither holds a CRLF. */
  predicate IsFraming(s: string, lines: seq<string>, tail: string) {
    s == Delimited(lines) + tail && HasNoCrlf(tail) && forall i :: 0 <= i < |lines| ==> HasNoCrlf(lines[i])
  }

  /** There is exactly one such cut, and Frames is it. */
  lemma {:induction false} FramesIff(s: string, lines: seq<string>, tail: string)
    ensures IsFraming(s, lines, tail) <==> Frames(s) == (lines, tail)
    decreases |s|
  {
    CutCrlfCuts(s);
    CutCrlfShrinks(s);
    if CutCrlf(s).None? {
      if lines == [] {
        assert "" + tail == tail;
      } else {
        if IsFraming(s, lines, tail) { FirstLineHasCrlf(s, lines, tail); }
      }
    } else {
      var line, rest := CutCrlf(s).value.0, CutCrlf(s).value.1;
      if lines == [] {
        assert "" + tail == tail;
      } else {
        FramesIff(rest, lines[1..], tail);
        FirstFrame(s, line, rest, lines, tail);
        assert lines == [lines[0]] + lines[1..] && ([line] + Frames(rest).0)[1..] == Frames(rest).0;
      }
    }
  }

  lemma {:induction false} FirstLineHasCrlf(s: string, lines: seq<string>, tail: string)
    requires lines != [] && s == Delimited(lines) + tail
    ensures !HasNoCrlf(s)
  {
    var n := |lines[0]|;
    assert Delimited(lines)[n..n + 2] == CRLF;
    assert s[n] == CRLF[0] && s[n + 1] == CRLF[1];
  }

  lemma {:induction false} FirstFrame(s: string, line: string, rest: string, lines: seq<string>, tail: string)
    requires lines != [] && CutCrlf(s) == Some((line, rest)) && s == line + (CRLF + rest) && HasNoCrlf(line)
    ensures IsFraming(s, lines, tail) <==> lines[0] == line && IsFraming(rest, lines[1..], tail)
  {
    var more := Delimited(lines[1..]) + tail;
    assert Delimited(lines) + tail == lines[0] + (CRLF + more);
    if IsFraming(s, lines, tail) {
      CutCrlfIs(lines[0], more);
    }
    assert forall i :: 0 <= i < |lines[1..]| ==> lines[1..][i] == lines[i + 1];
    assert forall i :: 0 < i < |lines| ==> lines[i] == lines[1..][i - 1];
  }

  // ---------------------------------------------------------------- any way of cutting the stream

  /** Framing a stream in two parts: the second is framed behind the tail of the first. */
  lemma {:induction false} FramesOfConcat(a: string, b: string)
    ensures Frames(a + b).0 == Frames(a).0 + Frames(Frames(a).1 + b).0
    ensures Frames(a + b).1 == Frames(Frames(a).1 + b).1
    decreases |a|
  {
    CutCrlfCuts(a);
    CutCrlfShrinks(a);
    if CutCrlf(a).None? {
      assert Frames(a) == ([], a);
    } else {
      var line, rest := CutCrlf(a).value.0, CutCrlf(a).value.1;
      assert a + b == line + (CRLF + (rest + b));
      CutCrlfIs(line, rest + b);
      FramesOfConcat(rest, b);
      assert [line] + (Frames(rest).0 + Frames(Frames(rest).1 + b).0) ==
             ([line] + Frames(rest).0) + Frames(Frames(rest).1 + b).0;
    }
  }

  /** The state of a connection after some pieces. */
  function AfterReads(pieces: seq<string>): (seq<string>, string) {
    if pieces == [] then ([], "")
    else
      var (dispatched, buffer) := AfterReads(pieces[..|pieces| - 1]);
      var frames := Frames(buffer + pieces[|pieces| - 1]);
      (dispatched + Trimmed(frames.0), frames.1)
  }

  function Stream(pieces: seq<string>): string {
    if pieces == [] then "" else Stream(pieces[..|pieces| - 1]) + pieces[|pieces| - 1]
  }

  /** For every way of cutting a stream into pieces, even between a CR and its LF: the messages
      dispatched are the trimmed lines of the whole stream, and the buffer is its tail. */
  lemma {:induction false} ReassemblyIsFraming(pieces: seq<string>)
    ensures AfterReads(pieces) == (Trimmed(Frames(Stream(pieces)).0), Frames(Stream(pieces)).1)
  {
    if pieces == [] {
      assert Frames("") == ([], "");
    } else {
      var before, last := pieces[..|pieces| - 1], pieces[|pieces| - 1];
      ReassemblyIsFraming(before);
      FramesOfConcat(Stream(before), last);
      TrimmedConcat(Frames(Stream(before)).0, Frames(Frames(Stream(before)).1 + last).0);
    }
  }

  /** The loop of start_func over a list of pieces does what AfterReads says. */
  method ServeReads(pieces: seq<string>) returns (dispatched: seq<string>, buffer: string)
    ensures dispatched == Trimmed(Frames(Stream(pieces)).0)
    ensures buffer == Frames(Stream(pieces)).1
  {
    var c := new Connection();
    for i := 0 to |pieces|
      invariant (c.dispatched, c.buffer) == AfterReads(pieces[..i])
    {
      assert pieces[..i + 1][..i] == pieces[..i];
      c.Receive(pieces[i]);
    }
    assert pieces[..|pieces|] == pieces;
    ReassemblyIsFraming(pieces);
    dispatched, buffer := c.dispatched, c.buffer;
  }
}
