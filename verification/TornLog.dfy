/** A flush that is cut at any character: what the file parser reads then, and what the next flush
    does behind the torn entry, which recovery leaves in the file. */
module TornLog {
  import opened Collections
  import opened Text
  import opened Commands
  import opened WriteAheadLog

  function WholeEntry(item: Item): string { EntryText(item) + (END + ['\n']) }

  /** The entries whose text and delimiter are among the first k characters. */
  function WholeEntries(queue: seq<Item>, k: nat): nat
    decreases |queue|
  {
    if queue == [] || k < |EntryText(queue[0])| + |END| then 0
    else 1 + if k <= |WholeEntry(queue[0])| then 0 else WholeEntries(queue[1..], k - |WholeEntry(queue[0])|)
  }

  // ---------------------------------------------------------------- text without a delimiter

  lemma PartIsLoggable(a: string, b: string, c: string)
    requires Loggable(a + b + c)
    ensures Loggable(b)
  {
    NoneIff(b);
    NoneIff(a + b + c);
    forall i: nat ensures !OccursAt(b, END, i) {
      OccursInSuffix(a, b, i);
      if i + |END| <= |b| { OccursInPrefix(a + b, c, |a| + i); }
    }
  }

  /** Lines without a delimiter complete no entry. */
  lemma {:induction false} QuietLines(done: seq<string>, text: string, s: string)
    requires Loggable(text + s)
    ensures ReadLines(Reading(done, Some(text)), Lines(s)).done == done
    decreases |s|
  {
    if s == "" {
    } else if '\n' !in s {
      SplitLast(s, '\n');
    } else {
      var line, rest := CutLine(s);
      QuietStep(text, line, rest, s);
      ReadOneLine(Reading(done, Some(text)), s, line, rest);
      QuietLines(done, text + line + ['\n'], rest);
    }
  }

  lemma QuietStep(text: string, line: string, rest: string, s: string)
    requires s == line + (['\n'] + rest) && Loggable(text + s)
    ensures Loggable(text + line) && Loggable((text + line + ['\n']) + rest)
  {
    assert [] + (text + line) + (['\n'] + rest) == text + s;
    PartIsLoggable([], text + line, ['\n'] + rest);
    assert (text + line + ['\n']) + rest == text + s;
  }

  lemma QuietText(done: seq<string>, s: string)
    requires Loggable(s)
    ensures ReadLines(Reading(done, None), Lines(s)).done == done
  {
    if s == "" {
    } else if '\n' !in s {
      SplitLast(s, '\n');
      AfterIsSuffix(s);
      assert s == s[..|s| - |AfterBlank(s)|] + AfterBlank(s) + [];
      PartIsLoggable(s[..|s| - |AfterBlank(s)|], AfterBlank(s), []);
    } else {
      var line, rest := CutLine(s);
      QuietFirstLine(done, s, line, rest);
      QuietLines(done, AfterBlank(line) + ['\n'], rest);
    }
  }

  lemma QuietFirstLine(done: seq<string>, s: string, line: string, rest: string)
    requires Loggable(s) && '\n' !in line && s == line + (['\n'] + rest)
    ensures Loggable(AfterBlank(line) + ['\n'] + rest)
    ensures ReadLines(Reading(done, None), Lines(s)) ==
            ReadLines(Reading(done, Some(AfterBlank(line) + ['\n'])), Lines(rest))
  {
    AfterIsSuffix(line);
    var head, tail := line[..|line| - |AfterBlank(line)|], AfterBlank(line);
    assert head + tail + (['\n'] + rest) == s;
    PartIsLoggable(head, tail, ['\n'] + rest);
    assert head + (tail + ['\n'] + rest) + [] == s;
    PartIsLoggable(head, tail + ['\n'] + rest, []);
    ReadOneLine(Reading(done, None), s, line, rest);
  }

  // ---------------------------------------------------------------- a torn entry

  /** An entry cut before its delimiter is complete has no delimiter. */
  lemma TornIsLoggable(item: Item, k: nat)
    requires Loggable(item.message) && k < |EntryText(item)| + |END|
    ensures Loggable(WholeEntry(item)[..k])
  {
    var text, torn := EntryText(item), WholeEntry(item)[..k];
    EntryHasNone(item);
    EntryEndsInDigit(item);
    FirstIsAppended(text, ['\n']);
    FindFromFinds(text + (END + ['\n']), END, 0);
    assert torn + WholeEntry(item)[k..] == text + (END + ['\n']);
    NoneIff(torn);
    forall i: nat ensures !OccursAt(torn, END, i) {
      if i + |END| <= k { OccursInPrefix(torn, WholeEntry(item)[k..], i); }
    }
  }

  lemma {:induction false} WholeThenRest(items: seq<Item>)
    requires items != []
    ensures FlushedText(items) == WholeEntry(items[0]) + FlushedText(items[1..])
  {
  }

  lemma {:induction false} TornEntries(done: seq<string>, queue: seq<Item>, k: nat)
    requires (forall i :: 0 <= i < |queue| ==> Loggable(queue[i].message)) && k <= |FlushedText(queue)|
    ensures WholeEntries(queue, k) <= |queue|
    ensures ReadLines(Reading(done, None), Lines(FlushedText(queue)[..k])).done ==
            done + Messages(queue[..WholeEntries(queue, k)])
    decreases |queue|
  {
    if queue == [] {
      assert done + [] == done;
    } else {
      WholeThenRest(queue);
      var whole, rest := WholeEntry(queue[0]), FlushedText(queue[1..]);
      if k < |EntryText(queue[0])| + |END| {
        assert (whole + rest)[..k] == whole[..k];
        TornIsLoggable(queue[0], k);
        QuietText(done, whole[..k]);
        assert done + Messages(queue[..0]) == done;
      } else if k < |whole| {
        assert (whole + rest)[..k] == EntryText(queue[0]) + END;
        OneEntryUnended(done, queue[0]);
        assert queue[..1] == [queue[0]];
      } else {
        TornBehindFirst(done, queue, k);
      }
    }
  }

  /** An entry whose newline is missing is read all the same. */
  lemma OneEntryUnended(done: seq<string>, item: Item)
    requires Loggable(item.message)
    ensures ReadLines(Reading(done, None), Lines(EntryText(item) + END)).done == done + Messages([item])
  {
    UnendedLines(EntryText(item) + END);
    var none: seq<Item> := [];
    assert FlushedText([item]) == EntryText(item) + (END + (['\n'] + FlushedText(none)));
    assert (EntryText(item) + END) + ['\n'] == FlushedText([item]) + "";
    LoggableLines([item]);
    EntriesAndMore(done, [item], "");
  }

  /** The last newline makes no difference to getline. */
  lemma {:induction false} UnendedLines(s: string)
    requires s != "" && s[|s| - 1] != '\n'
    ensures Lines(s) == Lines(s + ['\n'])
    decreases |s|
  {
    if '\n' !in s {
      SplitLast(s, '\n');
      SplitFirst(s + ['\n'], s, "", '\n');
    } else {
      var line, rest := CutLine(s);
      assert s + ['\n'] == line + (['\n'] + (rest + ['\n']));
      SplitFirst(s, line, rest, '\n');
      SplitFirst(s + ['\n'], line, rest + ['\n'], '\n');
      assert s[|s| - 1] == if rest == "" then '\n' else rest[|rest| - 1];
      UnendedLines(rest);
    }
  }

  /** What is left of a cut behind the first entry. */
  lemma {:induction false} CutBehindFirst(queue: seq<Item>, k: nat)
    requires queue != [] && |WholeEntry(queue[0])| <= k <= |FlushedText(queue)|
    ensures k - |WholeEntry(queue[0])| <= |FlushedText(queue[1..])|
    ensures FlushedText(queue)[..k] == WholeEntry(queue[0]) + FlushedText(queue[1..])[..k - |WholeEntry(queue[0])|]
  {
    WholeThenRest(queue);
    CutOfConcat(WholeEntry(queue[0]), FlushedText(queue[1..]), k);
  }

  lemma CutOfConcat(a: string, b: string, k: nat)
    requires |a| <= k <= |a + b|
    ensures (a + b)[..k] == a + b[..k - |a|]
  {
  }

  lemma {:induction false} TornBehindFirst(done: seq<string>, queue: seq<Item>, k: nat)
    requires queue != [] && (forall i :: 0 <= i < |queue| ==> Loggable(queue[i].message))
    requires |WholeEntry(queue[0])| <= k <= |FlushedText(queue)|
    ensures WholeEntries(queue, k) <= |queue|
    ensures ReadLines(Reading(done, None), Lines(FlushedText(queue)[..k])).done ==
            done + Messages(queue[..WholeEntries(queue, k)])
    decreases |queue|, 0
  {
    var k' := k - |WholeEntry(queue[0])|;
    CutBehindFirst(queue, k);
    OneEntryAndMore(done, queue[0], FlushedText(queue[1..])[..k']);
    TornEntries(done + [queue[0].message], queue[1..], k');
    CountBehindFirst(queue, k);
    FirstMessage(queue, WholeEntries(queue[1..], k'));
    Associative(done, [queue[0].message], Messages(queue[1..][..WholeEntries(queue[1..], k')]));
  }

  lemma CountBehindFirst(queue: seq<Item>, k: nat)
    requires queue != [] && |WholeEntry(queue[0])| <= k
    ensures WholeEntries(queue, k) == 1 + WholeEntries(queue[1..], k - |WholeEntry(queue[0])|)
  {
  }

  lemma OneEntryAndMore(done: seq<string>, item: Item, more: string)
    requires Loggable(item.message)
    ensures ReadLines(Reading(done, None), Lines(WholeEntry(item) + more)) ==
            ReadLines(Reading(done + [item.message], None), Lines(more))
  {
    LoggableLines([item]);
    EntriesStep(done, [item], more);
    OneFlushed(item, more);
  }

  lemma OneFlushed(item: Item, more: string)
    ensures FlushedText([item]) + more == WholeEntry(item) + more && FlushedText([item][1..]) + more == more
  {
  }

  lemma FirstMessage(queue: seq<Item>, n: nat)
    requires n < |queue|
    ensures Messages(queue[..1 + n]) == [queue[0].message] + Messages(queue[1..][..n])
  {
    assert queue[..1 + n][1..] == queue[1..][..n];
  }

  // ---------------------------------------------------------------- main results

  /** A flush cut at any character: the file parser reads the messages of the earlier entries and
      of the entries that are complete, and nothing of the torn one. */
  lemma {:induction false} TornFlushIsRead(checkpoint: nat, items: seq<Item>, queue: seq<Item>, k: nat)
    requires AllLinesLoggable(items) && (forall i :: 0 <= i < |queue| ==> Loggable(queue[i].message))
    requires k <= |FlushedText(queue)|
    ensures WholeEntries(queue, k) <= |queue|
    ensures MessagesIn(FileText(checkpoint, items) + FlushedText(queue)[..k]) ==
            Messages(items) + Messages(queue[..WholeEntries(queue, k)])
  {
    BehindTheFile(checkpoint, items, FlushedText(queue)[..k]);
    TornEntries(Messages(items), queue, k);
  }

  /** What is in a torn entry behind its index. */
  function TornPart(item: Item, k: nat): string
    requires |Decimal(item.index)| < k <= |WholeEntry(item)|
  {
    WholeEntry(item)[|Decimal(item.index)| + 1..k]
  }

  /** The torn entry and the next one, read as one. */
  function Merged(item: Item, k: nat, next: Item): Item
    requires |Decimal(item.index)| < k <= |WholeEntry(item)|
  {
    Item(item.index, TornPart(item, k) + (Decimal(next.index) + ([' '] + next.message)), next.number)
  }

  lemma TornIs(item: Item, k: nat)
    requires |Decimal(item.index)| < k <= |WholeEntry(item)|
    ensures WholeEntry(item)[..k] == Decimal(item.index) + ([' '] + TornPart(item, k))
  {
  }

  lemma MergedText(item: Item, k: nat, next: Item)
    requires |Decimal(item.index)| < k <= |WholeEntry(item)|
    ensures WholeEntry(item)[..k] + EntryText(next) == EntryText(Merged(item, k, next))
  {
  }

  lemma MergedIsLoggable(item: Item, k: nat, next: Item)
    requires Loggable(item.message) && Loggable(next.message)
    requires |Decimal(item.index)| < k < |EntryText(item)| + |END|
    ensures Loggable(Merged(item, k, next).message)
  {
    TornPartIsLoggable(item, k);
    DigitsInFront(TornPart(item, k), Decimal(next.index), next.message);
  }

  lemma TornPartIsLoggable(item: Item, k: nat)
    requires Loggable(item.message) && |Decimal(item.index)| < k < |EntryText(item)| + |END|
    ensures Loggable(TornPart(item, k))
  {
    TornIsLoggable(item, k);
    TornIs(item, k);
    assert (Decimal(item.index) + [' ']) + TornPart(item, k) + [] == WholeEntry(item)[..k];
    PartIsLoggable(Decimal(item.index) + [' '], TornPart(item, k), []);
  }

  lemma DigitsInFront(x: string, e: string, m: string)
    requires Loggable(x) && Loggable(m) && e != "" && AllDigits(e)
    ensures Loggable(x + (e + ([' '] + m)))
  {
    DigitsHaveNone(e[1..]);
    SeparatedHasNone(e[1..], ' ', m);
    SeparatedHasNone(x, e[0], e[1..] + ([' '] + m));
    assert [e[0]] + (e[1..] + ([' '] + m)) == e + ([' '] + m);
  }

  // ---------------------------------------------------------------- any text in front of a delimiter

  /** A text without what stands in front of the first blank of its first line: the parser takes it
      for an index. */
  function Headless(t: string): string {
    if '\n' in t then AfterBlank(FirstLineOfText(t)) + (['\n'] + OtherLines(t)) else AfterBlank(t)
  }

  /** The first line of a text and what follows its newline. */
  function FirstLineOfText(m: string): string {
    match FindChar(m, '\n') case None => m case Some(i) => Prefix(m, i)
  }

  function OtherLines(m: string): string {
    match FindChar(m, '\n') case Some(i) => if i < |m| then m[i + 1..] else "" case None => ""
  }

  lemma HeadlessLines(line: string, rest: string)
    requires '\n' !in line
    ensures Headless(line) == AfterBlank(line)
    ensures Headless(line + (['\n'] + rest)) == AfterBlank(line) + (['\n'] + rest)
  {
    FindCharIs(line, '\n', rest);
    var t := line + (['\n'] + rest);
    assert t[|line|] == '\n' && t[..|line|] == line && t[|line| + 1..] == rest;
  }

  lemma HeadlessEntry(d: string, m: string)
    requires AllDigits(d)
    ensures Headless(d + ([' '] + m)) == m
  {
    if '\n' !in m {
      HeadlessLines(d + ([' '] + m), "");
      AfterIndex(d, m);
    } else {
      var line, rest := CutLine(m);
      assert d + ([' '] + m) == (d + ([' '] + line)) + (['\n'] + rest);
      HeadlessLines(d + ([' '] + line), rest);
      AfterIndex(d, line);
    }
  }

  /** A delimiter and the rest of its line end an entry. */
  function Ended(u: string, more: string): string { END + (u + (['\n'] + more)) }

  lemma {:induction false} EndedLine(
      done: seq<string>, collected: Option<string>, line: string, u: string, more: string, text: string, s: string)
    requires '\n' !in line && '\n' !in u && s == line + Ended(u, more)
    requires CollectLine(collected, line + (END + u)) == text + (END + u)
    ensures ReadLines(Reading(done, collected), Lines(s)) ==
            ReadLines(Reading(done + [DropNumber(text + (END + u))], None), Lines(more))
  {
    MoveNewline(line, END, u, more);
    ReadOneLine(Reading(done, collected), s, line + (END + u), more);
    HasDelimiter(text, u);
  }

  lemma MoveNewline(a: string, b: string, c: string, d: string)
    ensures a + (b + (c + (['\n'] + d))) == (a + (b + c)) + (['\n'] + d)
  {
  }

  lemma LineInFront(line: string, rest: string, x: string)
    ensures (line + (['\n'] + rest)) + x == line + (['\n'] + (rest + x))
  {
  }

  lemma HasDelimiter(text: string, u: string)
    ensures !Loggable(text + (END + u))
  {
    assert OccursAt(END + u, END, 0);
    OccursInSuffix(text, END + u, 0);
    NoneIff(text + (END + u));
  }

  lemma {:induction false} RestIsRead(done: seq<string>, text: string, t: string, u: string, more: string)
    requires Loggable(text + t) && '\n' !in u
    ensures ReadLines(Reading(done, Some(text)), Lines(t + Ended(u, more))) ==
            ReadLines(Reading(done + [DropNumber((text + t) + (END + u))], None), Lines(more))
    decreases |t|
  {
    if '\n' !in t {
      Associative(text, t, END + u);
      EndedLine(done, Some(text), t, u, more, text + t, t + Ended(u, more));
    } else {
      var line, rest := CutLine(t);
      OneQuietLine(done, text, line, rest, Ended(u, more));
      RestIsRead(done, text + line + ['\n'], rest, u, more);
    }
  }

  lemma OneQuietLine(done: seq<string>, text: string, line: string, rest: string, tail: string)
    requires '\n' !in line && Loggable(text + (line + (['\n'] + rest)))
    ensures Loggable((text + line + ['\n']) + rest) && (text + line + ['\n']) + rest == text + (line + (['\n'] + rest))
    ensures ReadLines(Reading(done, Some(text)), Lines((line + (['\n'] + rest)) + tail)) ==
            ReadLines(Reading(done, Some(text + line + ['\n'])), Lines(rest + tail))
  {
    var t := line + (['\n'] + rest);
    QuietStep(text, line, rest, t);
    JoinLines(text, line, rest);
    LineInFront(line, rest, tail);
    ReadOneLine(Reading(done, Some(text)), t + tail, line, rest + tail);
  }

  /** What the parser makes of any text without a delimiter and a line that ends in one: one message,
      its first word and its last word dropped. */
  lemma TextIsRead(done: seq<string>, t: string, u: string, more: string)
    requires Loggable(t) && '\n' !in u && ('\n' in t || ' ' in t)
    ensures ReadLines(Reading(done, None), Lines(t + Ended(u, more))) ==
            ReadLines(Reading(done + [DropNumber(Headless(t) + (END + u))], None), Lines(more))
  {
    if '\n' !in t {
      BlankStaysFirst(t, END + u);
      EndedLine(done, None, t, u, more, AfterBlank(t), t + Ended(u, more));
    } else {
      var line, rest := CutLine(t);
      FirstQuietLine(done, line, rest, Ended(u, more));
      RestIsRead(done, AfterBlank(line) + ['\n'], rest, u, more);
    }
  }

  lemma FirstQuietLine(done: seq<string>, line: string, rest: string, tail: string)
    requires '\n' !in line && Loggable(line + (['\n'] + rest))
    ensures Headless(line + (['\n'] + rest)) == (AfterBlank(line) + ['\n']) + rest
    ensures Loggable((AfterBlank(line) + ['\n']) + rest)
    ensures ReadLines(Reading(done, None), Lines((line + (['\n'] + rest)) + tail)) ==
            ReadLines(Reading(done, Some(AfterBlank(line) + ['\n'])), Lines(rest + tail))
  {
    QuietFirstLine(done, line + (['\n'] + rest), line, rest);
    HeadlessLines(line, rest);
    JoinLines([], AfterBlank(line), rest);
    LineInFront(line, rest, tail);
    FirstLineOf(done, line + (['\n'] + rest), line, rest);
    ReadOneLine(Reading(done, None), (line + (['\n'] + rest)) + tail, line, rest + tail);
  }

  lemma FirstLineOf(done: seq<string>, t: string, line: string, rest: string)
    requires Loggable(t) && t == line + (['\n'] + rest)
    ensures ReadLine(Reading(done, None), line) == Reading(done, Some(AfterBlank(line) + ['\n']))
  {
    AfterIsSuffix(line);
    var head, tail := line[..|line| - |AfterBlank(line)|], AfterBlank(line);
    assert head + tail + (['\n'] + rest) == t;
    PartIsLoggable(head, tail, ['\n'] + rest);
  }

  lemma BlankStaysFirst(a: string, b: string)
    requires ' ' in a
    ensures AfterBlank(a + b) == AfterBlank(a) + b
  {
    FindCharFinds(a, ' ');
    var i := FindChar(a, ' ').value;
    assert a + b == a[..i] + ([' '] + (a[i + 1..] + b));
    FindCharIs(a[..i], ' ', a[i + 1..] + b);
  }

  // ---------------------------------------------------------------- the flush behind a torn entry

  /** What is read instead of the torn entry and the first entry of the next flush. Only digits were
      left of the torn one: they join the next index. Torn further on: both are one message. Only the
      newline is missing: the line that both share ends the first message read, and any further lines
      of the next message are read as an entry of their own. */
  function Instead(item: Item, k: nat, next: Item): seq<string>
    requires 0 < k < |WholeEntry(item)|
  {
    if k <= |Decimal(item.index)| then [next.message]
    else if k < |EntryText(item)| + |END| || '\n' !in next.message then [Merged(item, k, next).message]
    else [DropNumber(TornPart(item, k) + (Decimal(next.index) + ([' '] + FirstLineOfText(next.message)))),
          DropNumber(Headless(OtherLines(next.message) + NumberText(next)) + END)]
  }

  lemma DropsOwnNumber(item: Item)
    ensures DropNumber((item.message + NumberText(item)) + END) == item.message
  {
    EndOfEntry(item.message, Decimal(item.number));
    DropNumberIs(item.message, Decimal(item.number) + END);
  }

  lemma TornInIndex(done: seq<string>, item: Item, k: nat, next: Item, more: string)
    requires 0 < k <= |Decimal(item.index)| && Loggable(next.message)
    ensures ReadLines(Reading(done, None), Lines(WholeEntry(item)[..k] + (WholeEntry(next) + more))) ==
            ReadLines(Reading(done + [next.message], None), Lines(more))
  {
    var digits, d := Decimal(item.index)[..k], Decimal(item.index)[..k] + Decimal(next.index);
    var m := next.message + NumberText(next);
    assert WholeEntry(item)[..k] == digits;
    JoinIndices(digits, Decimal(next.index), m, END, more);
    EntryHasNone(next);
    MoreDigits(digits, EntryText(next));
    TextIsRead(done, d + ([' '] + m), "", more);
    HeadlessEntry(d, m);
    assert END + "" == END;
    DropsOwnNumber(next);
  }

  lemma JoinIndices(digits: string, d: string, m: string, e: string, more: string)
    ensures digits + (((d + ([' '] + m)) + (e + ['\n'])) + more) ==
            ((digits + d) + ([' '] + m)) + (e + ("" + (['\n'] + more)))
    ensures digits + (d + ([' '] + m)) == (digits + d) + ([' '] + m) && ' ' in (digits + d) + ([' '] + m)
  {
    assert ((digits + d) + ([' '] + m))[|digits + d|] == ' ';
  }

  lemma MoreDigits(digits: string, text: string)
    requires AllDigits(digits) && Loggable(text)
    ensures Loggable(digits + text)
  {
    NoneIff(text);
    NoneIff(digits + text);
    forall i: nat ensures !OccursAt(digits + text, END, i) {
      if i < |digits| { Uncovered(digits + text, i, i); } else { OccursInSuffix(digits, text, i - |digits|); }
    }
  }

  lemma TornInside(done: seq<string>, item: Item, k: nat, next: Item, more: string)
    requires |Decimal(item.index)| < k < |EntryText(item)| + |END| && Loggable(item.message) && Loggable(next.message)
    ensures ReadLines(Reading(done, None), Lines(WholeEntry(item)[..k] + (WholeEntry(next) + more))) ==
            ReadLines(Reading(done + [Merged(item, k, next).message], None), Lines(more))
  {
    MergedText(item, k, next);
    MergedIsLoggable(item, k, next);
    JoinMore(WholeEntry(item)[..k], EntryText(next), END + ['\n'], more);
    OneEntryAndMore(done, Merged(item, k, next), more);
  }

  lemma JoinMore(a: string, b: string, c: string, more: string)
    ensures a + ((b + c) + more) == ((a + b) + c) + more
  {
  }

  lemma OnlyNewlineIsMissing(item: Item)
    ensures |WholeEntry(item)| == |EntryText(item)| + |END| + 1
    ensures WholeEntry(item)[..|EntryText(item)| + |END|] == EntryText(item) + END
    ensures TornPart(item, |EntryText(item)| + |END|) == (item.message + NumberText(item)) + END
  {
  }

  lemma JoinAtNewline(a: string, e: string, c: string, more: string)
    ensures (a + e) + ((c + (e + ['\n'])) + more) == a + (e + ((c + e) + (['\n'] + more)))
  {
  }

  lemma JoinNumbers(m: string, e: string, d: string, x: string, n: string)
    ensures m + (e + ((d + ([' '] + (x + ([' '] + n)))) + e)) == ((m + e) + (d + ([' '] + x))) + ([' '] + (n + e))
  {
  }

  lemma JoinLinesAtNewline(a: string, e: string, d: string, line: string, rest: string, n: string, more: string)
    ensures (a + e) + (((d + ([' '] + ((line + (['\n'] + rest)) + n))) + (e + ['\n'])) + more) ==
            a + (e + ((d + ([' '] + line)) + (['\n'] + ((rest + n) + (e + ("" + (['\n'] + more)))))))
  {
  }

  lemma OneLineEntry(item: Item)
    requires '\n' !in item.message
    ensures '\n' !in EntryText(item) + END
  {
  }

  /** The next entry begins on the line of the delimiter. */
  lemma TornAtNewline(done: seq<string>, item: Item, next: Item, more: string)
    requires Loggable(item.message) && Loggable(next.message) && '\n' !in next.message
    ensures ReadLines(Reading(done, None), Lines((EntryText(item) + END) + (WholeEntry(next) + more))) ==
            ReadLines(Reading(done + [((item.message + NumberText(item)) + END) +
                                      (Decimal(next.index) + ([' '] + next.message))], None), Lines(more))
  {
    var m := item.message + NumberText(item);
    OneLineEntry(next);
    SharedLine(done, item, EntryText(next) + END, more);
    JoinAtNewline(EntryText(item), END, EntryText(next), more);
    JoinNumbers(m, END, Decimal(next.index), next.message, Decimal(next.number));
    DropNumberIs((m + END) + (Decimal(next.index) + ([' '] + next.message)), Decimal(next.number) + END);
  }

  lemma TornAtNewlineLines(done: seq<string>, item: Item, next: Item, more: string)
    requires Loggable(item.message) && Loggable(next.message) && '\n' in next.message
    ensures ReadLines(Reading(done, None), Lines((EntryText(item) + END) + (WholeEntry(next) + more))) ==
            ReadLines(Reading(done + [DropNumber((item.message + NumberText(item)) +
                                        (END + (Decimal(next.index) + ([' '] + FirstLineOfText(next.message))))),
                                      DropNumber(Headless(OtherLines(next.message) + NumberText(next)) + END)], None),
                      Lines(more))
  {
    var m, line, rest := item.message + NumberText(item), FirstLineOfText(next.message), OtherLines(next.message);
    var u := Decimal(next.index) + ([' '] + line);
    LinesOfText(next.message);
    JoinLinesAtNewline(EntryText(item), END, Decimal(next.index), line, rest, NumberText(next), more);
    SharedLine(done, item, u, (rest + NumberText(next)) + Ended("", more));
    RestIsEntry(done + [DropNumber(m + (END + u))], line, rest, next, more);
    TwoMore(done, DropNumber(m + (END + u)), DropNumber(Headless(rest + NumberText(next)) + END));
  }

  /** The lines of a message behind its first, read as an entry. */
  lemma RestIsEntry(done: seq<string>, line: string, rest: string, next: Item, more: string)
    requires next.message == line + (['\n'] + rest) && Loggable(next.message)
    ensures ReadLines(Reading(done, None), Lines((rest + NumberText(next)) + Ended("", more))) ==
            ReadLines(Reading(done + [DropNumber(Headless(rest + NumberText(next)) + END)], None), Lines(more))
  {
    RestHasNone(line, rest, next);
    TextIsRead(done, rest + NumberText(next), "", more);
    assert END + "" == END;
  }

  lemma TwoMore(done: seq<string>, a: string, b: string)
    ensures (done + [a]) + [b] == done + [a, b]
  {
  }

  lemma LinesOfText(m: string)
    requires '\n' in m
    ensures '\n' !in FirstLineOfText(m) && m == FirstLineOfText(m) + (['\n'] + OtherLines(m))
  {
    FindCharFinds(m, '\n');
  }

  lemma SharedLine(done: seq<string>, item: Item, u: string, more: string)
    requires Loggable(item.message) && '\n' !in u
    ensures ReadLines(Reading(done, None), Lines(EntryText(item) + Ended(u, more))) ==
            ReadLines(Reading(done + [DropNumber((item.message + NumberText(item)) + (END + u))], None), Lines(more))
  {
    EntryHasNone(item);
    assert EntryText(item)[|Decimal(item.index)|] == ' ';
    TextIsRead(done, EntryText(item), u, more);
    HeadlessEntry(Decimal(item.index), item.message + NumberText(item));
  }

  lemma RestHasNone(line: string, rest: string, next: Item)
    requires next.message == line + (['\n'] + rest) && Loggable(next.message)
    ensures Loggable(rest + NumberText(next)) && ' ' in rest + NumberText(next)
  {
    assert (line + ['\n']) + rest + [] == next.message;
    PartIsLoggable(line + ['\n'], rest, []);
    DigitsHaveNone(Decimal(next.number));
    SeparatedHasNone(rest, ' ', Decimal(next.number));
    assert (rest + NumberText(next))[|rest|] == ' ';
  }

  /** Recovery leaves a torn entry in the file. Behind any tear, whatever the next flush writes: the
      earlier entries are read, `Instead` replaces the torn and the next one, and the others follow. */
  lemma {:induction false} TornTailIsRead(checkpoint: nat, items: seq<Item>, item: Item, k: nat, queue: seq<Item>)
    requires AllLinesLoggable(items) && Loggable(item.message) && AllLoggable(queue) && queue != []
    requires 0 < k < |WholeEntry(item)|
    ensures MessagesIn(FileText(checkpoint, items) + WholeEntry(item)[..k] + FlushedText(queue)) ==
            Messages(items) + Instead(item, k, queue[0]) + Messages(queue[1..])
  {
    var next, more := queue[0], FlushedText(queue[1..]);
    var torn := WholeEntry(item)[..k];
    WholeThenRest(queue);
    BehindTheFile(checkpoint, items, torn + FlushedText(queue));
    Associative(FileText(checkpoint, items), torn, FlushedText(queue));
    TornAndNext(Messages(items), item, k, next, more);
    LoggableLines(queue[1..]);
    FileReadsEntries(Messages(items) + Instead(item, k, next), queue[1..]);
  }

  lemma TornAndNext(done: seq<string>, item: Item, k: nat, next: Item, more: string)
    requires Loggable(item.message) && Loggable(next.message) && 0 < k < |WholeEntry(item)|
    ensures ReadLines(Reading(done, None), Lines(WholeEntry(item)[..k] + (WholeEntry(next) + more))) ==
            ReadLines(Reading(done + Instead(item, k, next), None), Lines(more))
  {
    if k < |EntryText(item)| + |END| {
      TornBefore(done, item, k, next, more);
    } else {
      LastCut(item, k);
      SharedLineReads(done, item, k, WholeEntry(item)[..k], next, more);
    }
  }

  lemma TornBefore(done: seq<string>, item: Item, k: nat, next: Item, more: string)
    requires Loggable(item.message) && Loggable(next.message) && 0 < k < |EntryText(item)| + |END|
    requires k < |WholeEntry(item)|
    ensures ReadLines(Reading(done, None), Lines(WholeEntry(item)[..k] + (WholeEntry(next) + more))) ==
            ReadLines(Reading(done + Instead(item, k, next), None), Lines(more))
  {
    InsteadIs(item, k, next);
    if k <= |Decimal(item.index)| {
      TornInIndex(done, item, k, next, more);
    } else {
      TornInside(done, item, k, next, more);
    }
  }

  lemma LastCut(item: Item, k: nat)
    requires |EntryText(item)| + |END| <= k < |WholeEntry(item)|
    ensures k == |EntryText(item)| + |END| && WholeEntry(item)[..k] == EntryText(item) + END
  {
    OnlyNewlineIsMissing(item);
  }

  lemma SharedLineReads(done: seq<string>, item: Item, k: nat, torn: string, next: Item, more: string)
    requires Loggable(item.message) && Loggable(next.message)
    requires k == |EntryText(item)| + |END| && 0 < k < |WholeEntry(item)| && torn == EntryText(item) + END
    ensures ReadLines(Reading(done, None), Lines(torn + (WholeEntry(next) + more))) ==
            ReadLines(Reading(done + Instead(item, k, next), None), Lines(more))
  {
    OnlyNewlineIsMissing(item);
    if '\n' !in next.message {
      TornAtNewline(done, item, next, more);
    } else {
      TornAtNewlineLines(done, item, next, more);
      Associative(item.message + NumberText(item), END, Decimal(next.index) + ([' '] + FirstLineOfText(next.message)));
    }
  }

  lemma {:induction false} BehindTheFile(checkpoint: nat, items: seq<Item>, more: string)
    requires AllLinesLoggable(items)
    ensures MessagesIn(FileText(checkpoint, items) + more) ==
            ReadLines(Reading(Messages(items), None), Lines(more)).done
  {
    var d := Decimal(checkpoint);
    assert FileText(checkpoint, items) + more == d + (['\n'] + (FlushedText(items) + more));
    SplitFirst(FileText(checkpoint, items) + more, d, FlushedText(items) + more, '\n');
    EntriesAndMore([], items, more);
    assert [] + Messages(items) == Messages(items);
  }

  lemma InsteadIs(item: Item, k: nat, next: Item)
    requires 0 < k < |WholeEntry(item)|
    ensures k <= |Decimal(item.index)| ==> Instead(item, k, next) == [next.message]
    ensures |Decimal(item.index)| < k < |EntryText(item)| + |END| ==>
              Instead(item, k, next) == [Merged(item, k, next).message]
  {
  }

  lemma AnotherList(list: seq<string>, message: string)
    requires |list| == 2 || (|list| == 1 && |list[0]| > |message|)
    ensures list != [message]
  {
  }

  /** Only digits leave the next message as it is. */
  lemma InsteadIsAnother(item: Item, k: nat, next: Item)
    requires 0 < k < |WholeEntry(item)|
    ensures Instead(item, k, next) == [next.message] <==> k <= |Decimal(item.index)|
    ensures k == |WholeEntry(item)| - 1 ==> |Instead(item, k, next)| > 0 && Instead(item, k, next)[0] != item.message
  {
    var list := Instead(item, k, next);
    InsteadIs(item, k, next);
    if |Decimal(item.index)| < k {
      InsteadIsLonger(item, k, next);
      AnotherList(list, next.message);
    }
    if k == |WholeEntry(item)| - 1 { LastIsLonger(item, k, next); }
  }

  lemma InsteadIsLonger(item: Item, k: nat, next: Item)
    requires |Decimal(item.index)| < k < |WholeEntry(item)|
    ensures var list := Instead(item, k, next); |list| == 2 || (|list| == 1 && |list[0]| > |next.message|)
  {
    if k < |EntryText(item)| + |END| {
      InsteadIs(item, k, next);
      MergedIsLonger(item, k, next);
    } else {
      LastCut(item, k);
      ShortestInstead(item, next);
    }
  }

  lemma LastIsLonger(item: Item, k: nat, next: Item)
    requires k == |WholeEntry(item)| - 1
    ensures 0 < k && |Decimal(item.index)| < k && |Instead(item, k, next)| > 0
    ensures |Instead(item, k, next)[0]| > |item.message|
  {
    OnlyNewlineIsMissing(item);
    ShortestInstead(item, next);
  }

  lemma MergedIsLonger(item: Item, k: nat, next: Item)
    requires |Decimal(item.index)| < k <= |WholeEntry(item)|
    ensures |Merged(item, k, next).message| > |next.message|
  {
  }

  lemma ShortestInstead(item: Item, next: Item)
    ensures var k := |EntryText(item)| + |END|;
      && |Decimal(item.index)| < k < |WholeEntry(item)| && |Instead(item, k, next)| > 0
      && |Instead(item, k, next)[0]| > |item.message|
      && (|Instead(item, k, next)| == 2
           || (|Instead(item, k, next)| == 1 && |Instead(item, k, next)[0]| > |next.message|))
  {
    var k := |EntryText(item)| + |END|;
    OnlyNewlineIsMissing(item);
    MergedIsLonger(item, k, next);
    var d, line := Decimal(next.index), FirstLineOfText(next.message);
    LongerThanBefore(TornPart(item, k) + d, line);
    Associative(TornPart(item, k), d, [' '] + line);
  }

  lemma LongerThanBefore(a: string, b: string)
    ensures |DropNumber(a + ([' '] + b))| >= |a|
  {
    LastBlankBehind(a, b);
  }

  lemma {:induction false} LastBlankBehind(a: string, b: string)
    ensures RFindChar(a + ([' '] + b), ' ').Some? && RFindChar(a + ([' '] + b), ' ').value >= |a|
    decreases |b|
  {
    if b != "" && b[|b| - 1] != ' ' {
      assert (a + ([' '] + b))[..|a + ([' '] + b)| - 1] == a + ([' '] + b[..|b| - 1]);
      LastBlankBehind(a, b[..|b| - 1]);
    }
  }

  /** The first entry of the next flush is read as itself, and everything behind it, if and only if the
      tear is within the index of the torn entry. If only the newline was missing, the torn entry, which
      was readable before (TornFlushIsRead), is not read any more either. */
  lemma {:induction false} TornTailSpoilsNextIff(
      checkpoint: nat, items: seq<Item>, item: Item, k: nat, queue: seq<Item>)
    requires AllLinesLoggable(items) && Loggable(item.message) && AllLoggable(queue) && queue != []
    requires 0 < k < |WholeEntry(item)|
    ensures var read := MessagesIn(FileText(checkpoint, items) + WholeEntry(item)[..k] + FlushedText(queue));
      && (read == Messages(items) + Messages(queue) <==> k <= |Decimal(item.index)|)
      && (k == |WholeEntry(item)| - 1 ==> |read| > |items| && read[|items|] != item.message)
  {
    TornTailIsRead(checkpoint, items, item, k, queue);
    InsteadIsAnother(item, k, queue[0]);
    OnlyNewlineIsMissing(item);
    MessagesCount(items);
    MessagesCount(queue[1..]);
    InTheMiddle(Messages(items), Instead(item, k, queue[0]), [queue[0].message], Messages(queue[1..]));
    assert Messages(queue) == [queue[0].message] + Messages(queue[1..]);
  }

  lemma InTheMiddle(a: seq<string>, x: seq<string>, y: seq<string>, b: seq<string>)
    ensures (a + x) + b == a + (y + b) <==> x == y
    ensures x != [] ==> ((a + x) + b)[|a|] == x[0]
  {
    if (a + x) + b == a + (y + b) {
      assert |x| == |y|;
      forall i | 0 <= i < |x| ensures x[i] == y[i] {
        assert ((a + x) + b)[|a| + i] == x[i] && (a + (y + b))[|a| + i] == y[i];
      }
    }
  }
}
