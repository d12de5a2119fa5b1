/** A tablet's append-only log: the text that is written, and the two parsers that read it,
    recover_table's over the lines of the file and parse_log_string's over the text that the
    primary sends. */
module WriteAheadLog {
  import opened Collections
  import opened Text
  import opened Commands

  const END := "||END||"

  /** What log_message queues: log index, message, transaction number. */
  datatype Item = Item(index: nat, message: string, number: nat)

  /** What follows the message of an entry up to its delimiter. */
  function NumberText(item: Item): string { [' '] + Decimal(item.number) }

  function EntryText(item: Item): string {
    Decimal(item.index) + ([' '] + (item.message + NumberText(item)))
  }

  /** The flushed entries: text, delimiter and newline of each. */
  function FlushedText(items: seq<Item>): string {
    if items == [] then "" else EntryText(items[0]) + (END + (['\n'] + FlushedText(items[1..])))
  }

  function FileText(checkpoint: nat, items: seq<Item>): string {
    Decimal(checkpoint) + (['\n'] + FlushedText(items))
  }

  function Messages(items: seq<Item>): seq<string> {
    if items == [] then [] else [items[0].message] + Messages(items[1..])
  }

  lemma {:induction false} MessagesCount(items: seq<Item>)
    ensures |Messages(items)| == |items|
    decreases |items|
  {
    if items != [] { MessagesCount(items[1..]); }
  }

  /** A message that the log can hold. */
  predicate Loggable(message: string) { Find(message, END) == None }

  predicate AllLoggable(items: seq<Item>) { forall i :: 0 <= i < |items| ==> Loggable(items[i].message) }

  /** No delimiter in front of the last newline: what the file parser needs. */
  ghost predicate LinesLoggable(message: string) {
    forall i: nat :: OccursAt(message, END, i) ==> '\n' !in message[i..]
  }

  ghost predicate AllLinesLoggable(items: seq<Item>) {
    forall i :: 0 <= i < |items| ==> LinesLoggable(items[i].message)
  }

  // ---------------------------------------------------------------- the file parser

  /** message.substr(0, message.rfind(" ")). */
  function DropNumber(message: string): string {
    match RFindChar(message, ' ')
    case None => message
    case Some(i) => Prefix(message, i)
  }

  /** Where recover_table is between two lines: the messages replayed so far and, inside a
      multi-line entry, the text collected. */
  datatype Reading = Reading(done: seq<string>, collected: Option<string>)

  function CollectLine(collected: Option<string>, line: string): string {
    match collected
    case None => AfterBlank(line)
    case Some(text) => text + line
  }

  function ReadLine(r: Reading, line: string): Reading {
    var message := CollectLine(r.collected, line);
    if Find(message, END) == None then Reading(r.done, Some(message + ['\n']))
    else Reading(r.done + [DropNumber(message)], None)
  }

  function ReadLines(r: Reading, lines: seq<string>): Reading
    decreases |lines|
  {
    if lines == [] then r else ReadLines(ReadLine(r, lines[0]), lines[1..])
  }

  /** The messages that recover_table replays from a log file, in order. */
  function MessagesIn(file: string): seq<string> {
    var lines := Lines(file);
    if lines == [] then [] else ReadLines(Reading([], None), lines[1..]).done
  }

  /** The checkpoint number in front of the log; an empty file is started afresh with 1. */
  function CheckpointIn(file: string): nat {
    var lines := Lines(file);
    if lines == [] then 1 else Atoi(lines[0])
  }

  /** The loop of recover_table. */
  method ReadLogFile(file: string) returns (checkpoint: nat, messages: seq<string>)
    ensures checkpoint == CheckpointIn(file) && messages == MessagesIn(file)
  {
    var lines := Lines(file);
    if lines == [] { return 1, []; }
    checkpoint := Atoi(lines[0]);
    messages := [];
    var message, multiLine := "", false;
    var i := 1;
    while i < |lines|
      invariant 1 <= i <= |lines|
      invariant ReadLines(Reading([], None), lines[1..]) ==
                ReadLines(Reading(messages, if multiLine then Some(message) else None), lines[i..])
    {
      message := if multiLine then message + lines[i] else AfterBlank(lines[i]);
      if Find(message, END) == None {
        message := message + ['\n'];
        multiLine := true;
      } else {
        messages := messages + [DropNumber(message)];
        multiLine := false;
      }
      i := i + 1;
    }
  }

  // ---------------------------------------------------------------- the wire parser

  /** The rest of the text behind an entry and the newline that follows its delimiter. */
  function Behind(s: string, end: nat): string {
    if end + |END| + 1 <= |s| then s[end + |END| + 1..] else ""
  }

  /** The entries parse_log_string cuts out of the text behind the checkpoint line. */
  function WireEntries(s: string): seq<string>
    decreases |s|
  {
    match Find(s, END)
    case None => []
    case Some(end) => if s == "" then [] else [Prefix(s, end)] + WireEntries(Behind(s, end))
  }

  // ---------------------------------------------------------------- where the delimiter is

  predicate InEnd(c: char) { c == '|' || c == 'E' || c == 'N' || c == 'D' }

  /** No occurrence of the delimiter covers a character that is not in it. */
  lemma Uncovered(s: string, i: nat, k: nat)
    requires k < |s| && !InEnd(s[k]) && i <= k < i + |END|
    ensures !OccursAt(s, END, i)
  {
  }

  lemma OccursInPrefix(a: string, b: string, i: nat)
    requires i + |END| <= |a|
    ensures OccursAt(a, END, i) <==> OccursAt(a + b, END, i)
  {
  }

  lemma OccursInSuffix(a: string, b: string, i: nat)
    ensures OccursAt(b, END, i) <==> OccursAt(a + b, END, |a| + i)
  {
  }

  lemma NoneIff(s: string)
    ensures Loggable(s) <==> forall i: nat :: !OccursAt(s, END, i)
  {
    FindFromFinds(s, END, 0);
  }

  /** A character outside the delimiter separates: no occurrence reaches across it. */
  lemma SeparatedHasNone(a: string, c: char, b: string)
    requires !InEnd(c) && Loggable(a) && Loggable(b)
    ensures Loggable(a + ([c] + b))
  {
    var s := a + ([c] + b);
    NoneIff(a);
    NoneIff(b);
    NoneIff(s);
    forall i: nat ensures !OccursAt(s, END, i) {
      if i <= |a| < i + |END| {
        Uncovered(s, i, |a|);
      } else if i + |END| <= |a| {
        OccursInPrefix(a, [c] + b, i);
      } else {
        assert s == (a + [c]) + b;
        OccursInSuffix(a + [c], b, i - |a| - 1);
      }
    }
  }

  lemma DigitsHaveNone(d: string)
    requires AllDigits(d)
    ensures Loggable(d)
  {
    NoneIff(d);
    forall i: nat ensures !OccursAt(d, END, i) {
      if i < |d| { Uncovered(d, i, i); }
    }
  }

  lemma EntryHasNone(item: Item)
    requires Loggable(item.message)
    ensures Loggable(EntryText(item))
  {
    DigitsHaveNone(Decimal(item.index));
    DigitsHaveNone(Decimal(item.number));
    SeparatedHasNone(item.message, ' ', Decimal(item.number));
    SeparatedHasNone(Decimal(item.index), ' ', item.message + NumberText(item));
  }

  /** Text that does not end inside the delimiter: the first delimiter is the appended one. */
  lemma FirstIsAppended(text: string, after: string)
    requires text != "" && !InEnd(text[|text| - 1]) && Loggable(text)
    ensures Find(text + (END + after), END) == Some(|text|)
  {
    var s := text + (END + after);
    assert s[|text|..|text| + |END|] == END;
    NoneIff(text);
    forall i: nat | i < |text| ensures !OccursAt(s, END, i) {
      if i + |END| <= |text| {
        OccursInPrefix(text, END + after, i);
      } else {
        assert s[|text| - 1] == text[|text| - 1];
        Uncovered(s, i, |text| - 1);
      }
    }
    FindIs(s, END, |text|);
  }

  lemma EntryEndsInDigit(item: Item)
    ensures EntryText(item) != "" && IsDigit(EntryText(item)[|EntryText(item)| - 1])
  {
  }

  // ---------------------------------------------------------------- round trip, wire parser

  /** The texts of the entries, in order. */
  function EntryTexts(items: seq<Item>): seq<string> {
    if items == [] then [] else [EntryText(items[0])] + EntryTexts(items[1..])
  }

  lemma {:induction false} WireReadsEntries(items: seq<Item>)
    requires AllLoggable(items)
    ensures WireEntries(FlushedText(items)) == EntryTexts(items)
    decreases |items|
  {
    if items != [] {
      FirstWireItem(items);
      WireReadsEntries(items[1..]);
    }
  }

  lemma {:induction false} FirstWireEntry(text: string, rest: string)
    requires Find(text + (END + (['\n'] + rest)), END) == Some(|text|)
    ensures WireEntries(text + (END + (['\n'] + rest))) == [text] + WireEntries(rest)
  {
    var s := text + (END + (['\n'] + rest));
    assert s[..|text|] == text;
    assert s == (text + END + ['\n']) + rest;
    assert s[|text| + |END| + 1..] == rest;
  }

  lemma CutAtBlank(head: string, tail: string)
    requires ' ' !in head
    ensures UpToBlank(head + ([' '] + tail)) == head && AfterBlank(head + ([' '] + tail)) == tail
  {
    FindCharIs(head, ' ', tail);
  }

  /** The index and the message that parse_log_string takes from one entry. */
  lemma EntryFields(item: Item)
    ensures Atoi(UpToBlank(EntryText(item))) == item.index
    ensures DropNumber(AfterBlank(EntryText(item))) == item.message
  {
    CutAtBlank(Decimal(item.index), item.message + NumberText(item));
    AtoiOfDecimal(item.index);
    DropNumberIs(item.message, Decimal(item.number));
  }

  /** What it drops behind the message is the transaction's number. */
  lemma EntryNumber(item: Item)
    ensures var tail := AfterBlank(EntryText(item));
      |DropNumber(tail)| < |tail| && Atoi(tail[|DropNumber(tail)| + 1..]) == item.number
  {
    CutAtBlank(Decimal(item.index), item.message + NumberText(item));
    NumberBehind(item.message, Decimal(item.number));
    AtoiOfDecimal(item.number);
  }

  lemma NumberBehind(message: string, digits: string)
    requires ' ' !in digits
    ensures var tail := message + ([' '] + digits);
      DropNumber(tail) == message && |message| < |tail| && tail[|message| + 1..] == digits
  {
    DropNumberIs(message, digits);
  }

  lemma DropNumberIs(message: string, tail: string)
    requires ' ' !in tail
    ensures DropNumber(message + ([' '] + tail)) == message
  {
    var s := message + ([' '] + tail);
    RFindCharIs(message, ' ', tail);
    assert s[..|message|] == message;
  }

  // ---------------------------------------------------------------- round trip, file parser

  /** The line that completes an entry. */
  lemma LastLine(done: seq<string>, collected: Option<string>, line: string, item: Item)
    requires CollectLine(collected, line) == item.message + (NumberText(item) + END)
    ensures ReadLine(Reading(done, collected), line) == Reading(done + [item.message], None)
  {
    var m, n := item.message, Decimal(item.number);
    EndOfEntry(m, n);
    EndsWithDelimiter(m + ([' '] + n));
    DropNumberIs(m, n + END);
  }

  lemma EndOfEntry(m: string, n: string)
    ensures m + (([' '] + n) + END) == m + ([' '] + (n + END)) == (m + ([' '] + n)) + END
  {
  }

  lemma EndsWithDelimiter(text: string)
    ensures !Loggable(text + END)
  {
    assert OccursAt(END, END, 0);
    OccursInSuffix(text, END, 0);
    NoneIff(text + END);
  }

  /** A line inside an entry. */
  lemma InnerLine(done: seq<string>, collected: Option<string>, line: string, text: string)
    requires CollectLine(collected, line) == text && Loggable(text)
    ensures ReadLine(Reading(done, collected), line) == Reading(done, Some(text + ['\n']))
  {
  }

  /** The lines in front of the last one have no delimiter if the message allows it. */
  lemma HeadIsLoggable(text: string, rest: string, message: string)
    requires text + (['\n'] + rest) == message && LinesLoggable(message)
    ensures Loggable(text)
  {
    NoneIff(text);
    forall i: nat ensures !OccursAt(text, END, i) {
      if i + |END| <= |text| {
        OccursInPrefix(text, ['\n'] + rest, i);
        assert message[i..][|text| - i] == '\n';
      }
    }
  }

  /** What ends an entry in the file, and what comes behind it. */
  function EntryTail(item: Item, more: string): string { NumberText(item) + (END + (['\n'] + more)) }

  lemma {:induction false} ReadOneLine(r: Reading, s: string, line: string, rest: string)
    requires s == line + (['\n'] + rest) && '\n' !in line
    ensures ReadLines(r, Lines(s)) == ReadLines(ReadLine(r, line), Lines(rest))
  {
    SplitFirst(s, line, rest, '\n');
  }

  lemma Regroup(a: string, b: string, c: string, d: string)
    ensures a + (b + (c + d)) == (a + (b + c)) + d
    ensures (a + b) + (c + d) == a + (b + (c + d))
  {
  }

  /** The line that completes an entry: nothing of its message is left behind a newline. */
  lemma {:induction false} EntryEnds(
      done: seq<string>, collected: Option<string>, line: string, item: Item, more: string, s: string)
    requires CollectLine(collected, line + (NumberText(item) + END)) == item.message + (NumberText(item) + END)
    requires '\n' !in line && s == line + EntryTail(item, more)
    ensures ReadLines(Reading(done, collected), Lines(s)) ==
            ReadLines(Reading(done + [item.message], None), Lines(more))
  {
    var whole := line + (NumberText(item) + END);
    Regroup(line, NumberText(item), END, ['\n'] + more);
    ReadOneLine(Reading(done, collected), s, whole, more);
    LastLine(done, collected, whole, item);
  }

  /** A line of an entry that another line of its message follows. */
  lemma {:induction false} EntryContinues(
      done: seq<string>, collected: Option<string>, line: string, text: string, rest: string, item: Item,
      more: string, s: string)
    requires CollectLine(collected, line) == text && text + (['\n'] + rest) == item.message
    requires '\n' !in line && s == line + (['\n'] + (rest + EntryTail(item, more))) && Loggable(text)
    ensures ReadLines(Reading(done, collected), Lines(s)) ==
            ReadLines(Reading(done, Some(text + ['\n'])), Lines(rest + EntryTail(item, more)))
  {
    ReadOneLine(Reading(done, collected), s, line, rest + EntryTail(item, more));
    InnerLine(done, collected, line, text);
  }

  lemma {:induction false} CutLine(s: string) returns (line: string, rest: string)
    requires '\n' in s
    ensures '\n' !in line && s == line + (['\n'] + rest) == (line + ['\n']) + rest
  {
    FindCharFinds(s, '\n');
    var i := FindChar(s, '\n').value;
    line, rest := s[..i], s[i + 1..];
  }

  /** Inside an entry: `text` was collected, `rest` of its message is still to come. */
  lemma {:induction false} RestOfEntry(done: seq<string>, text: string, rest: string, item: Item, more: string)
    requires text + rest == item.message && LinesLoggable(item.message)
    ensures ReadLines(Reading(done, Some(text)), Lines(rest + EntryTail(item, more))) ==
            ReadLines(Reading(done + [item.message], None), Lines(more))
    decreases |rest|
  {
    if '\n' !in rest {
      RestOnOneLine(done, text, rest, item, more);
    } else {
      var line, rest' := CutLine(rest);
      RestLine(done, text, line, rest', item, more);
      RestOfEntry(done, text + line + ['\n'], rest', item, more);
    }
  }

  lemma RestLine(done: seq<string>, text: string, line: string, rest: string, item: Item, more: string)
    requires text + (line + (['\n'] + rest)) == item.message && '\n' !in line && LinesLoggable(item.message)
    ensures ReadLines(Reading(done, Some(text)), Lines((line + (['\n'] + rest)) + EntryTail(item, more))) ==
            ReadLines(Reading(done, Some(text + line + ['\n'])), Lines(rest + EntryTail(item, more)))
    ensures (text + line + ['\n']) + rest == item.message
  {
    JoinLines(text, line, rest);
    HeadIsLoggable(text + line, rest, item.message);
    RestOnMoreLines(done, text, line, rest, item, more);
  }

  lemma JoinLines(text: string, line: string, rest: string)
    ensures text + (line + (['\n'] + rest)) == (text + line) + (['\n'] + rest) == (text + line + ['\n']) + rest
  {
  }

  lemma RestOnOneLine(done: seq<string>, text: string, rest: string, item: Item, more: string)
    requires text + rest == item.message && '\n' !in rest
    ensures ReadLines(Reading(done, Some(text)), Lines(rest + EntryTail(item, more))) ==
            ReadLines(Reading(done + [item.message], None), Lines(more))
  {
    Regroup(text, rest, NumberText(item), END);
    EntryEnds(done, Some(text), rest, item, more, rest + EntryTail(item, more));
  }

  lemma RestOnMoreLines(done: seq<string>, text: string, line: string, rest: string, item: Item, more: string)
    requires text + (line + (['\n'] + rest)) == item.message && '\n' !in line && Loggable(text + line)
    ensures ReadLines(Reading(done, Some(text)), Lines((line + (['\n'] + rest)) + EntryTail(item, more))) ==
            ReadLines(Reading(done, Some(text + line + ['\n'])), Lines(rest + EntryTail(item, more)))
  {
    Regroup(line, ['\n'], rest, EntryTail(item, more));
    Regroup(text, line, ['\n'], rest);
    assert (line + (['\n'] + rest)) + EntryTail(item, more) == line + (['\n'] + (rest + EntryTail(item, more)));
    EntryContinues(done, Some(text), line, text + line, rest, item, more,
        (line + (['\n'] + rest)) + EntryTail(item, more));
  }

  /** The text of an entry and what follows it, index in front. */
  function EntryAndMore(item: Item, more: string): string {
    (Decimal(item.index) + [' ']) + (item.message + EntryTail(item, more))
  }

  lemma FirstEntry(done: seq<string>, item: Item, more: string)
    requires LinesLoggable(item.message)
    ensures ReadLines(Reading(done, None), Lines(EntryAndMore(item, more))) ==
            ReadLines(Reading(done + [item.message], None), Lines(more))
  {
    if '\n' !in item.message {
      FirstOnOneLine(done, item, more);
    } else {
      var line, rest := CutLine(item.message);
      HeadIsLoggable(line, rest, item.message);
      FirstOnMoreLines(done, line, rest, item, more);
      RestOfEntry(done, line + ['\n'], rest, item, more);
    }
  }

  lemma FirstOnOneLine(done: seq<string>, item: Item, more: string)
    requires '\n' !in item.message
    ensures ReadLines(Reading(done, None), Lines(EntryAndMore(item, more))) ==
            ReadLines(Reading(done + [item.message], None), Lines(more))
  {
    var d, m, n := Decimal(item.index), item.message, NumberText(item);
    AfterIndex(d, m + (n + END));
    IndexInFront(d, m, n + END);
    EntryEnds(done, None, (d + [' ']) + m, item, more, EntryAndMore(item, more));
  }

  lemma IndexInFront(d: string, m: string, t: string)
    ensures ((d + [' ']) + m) + t == d + ([' '] + (m + t))
  {
  }

  lemma FirstOnMoreLines(done: seq<string>, line: string, rest: string, item: Item, more: string)
    requires item.message == line + (['\n'] + rest) && '\n' !in line && Loggable(line)
    ensures ReadLines(Reading(done, None), Lines(EntryAndMore(item, more))) ==
            ReadLines(Reading(done, Some(line + ['\n'])), Lines(rest + EntryTail(item, more)))
  {
    var head := Decimal(item.index) + [' '];
    AfterIndex(Decimal(item.index), line);
    assert Decimal(item.index) + ([' '] + line) == head + line;
    Regroup(line, ['\n'], rest, EntryTail(item, more));
    assert head + (line + (['\n'] + (rest + EntryTail(item, more)))) ==
           (head + line) + (['\n'] + (rest + EntryTail(item, more)));
    assert line + (['\n'] + (rest + EntryTail(item, more))) == item.message + EntryTail(item, more);
    EntryContinues(done, None, head + line, line, rest, item, more, EntryAndMore(item, more));
  }

  lemma AfterIndex(d: string, rest: string)
    requires AllDigits(d)
    ensures AfterBlank(d + ([' '] + rest)) == rest
  {
    FindCharIs(d, ' ', rest);
    assert (d + ([' '] + rest))[|d| + 1..] == rest;
  }

  lemma {:induction false} FlushedFirst(items: seq<Item>)
    requires items != []
    ensures FlushedText(items) == EntryAndMore(items[0], FlushedText(items[1..]))
  {
  }

  /** The entries in front, whatever follows. */
  lemma {:induction false} EntriesAndMore(done: seq<string>, items: seq<Item>, more: string)
    requires AllLinesLoggable(items)
    ensures ReadLines(Reading(done, None), Lines(FlushedText(items) + more)) ==
            ReadLines(Reading(done + Messages(items), None), Lines(more))
    decreases |items|
  {
    if items == [] {
      assert done + [] == done && FlushedText(items) + more == more;
    } else {
      EntriesStep(done, items, more);
      EntriesAndMore(done + [items[0].message], items[1..], more);
      Associative(done, [items[0].message], Messages(items[1..]));
    }
  }

  lemma {:induction false} EntriesStep(done: seq<string>, items: seq<Item>, more: string)
    requires items != [] && LinesLoggable(items[0].message)
    ensures ReadLines(Reading(done, None), Lines(FlushedText(items) + more)) ==
            ReadLines(Reading(done + [items[0].message], None), Lines(FlushedText(items[1..]) + more))
  {
    FirstFlushed(items, more);
    FirstEntry(done, items[0], FlushedText(items[1..]) + more);
  }

  lemma {:induction false} FirstFlushed(items: seq<Item>, more: string)
    requires items != []
    ensures FlushedText(items) + more == EntryAndMore(items[0], FlushedText(items[1..]) + more)
  {
    FlushedFirst(items);
    var head, m, n, rest := Decimal(items[0].index) +
      [' '], items[0].message, NumberText(items[0]), FlushedText(items[1..]);
    MoveMore(head, m, n, rest, more);
  }

  lemma MoveMore(a: string, b: string, c: string, d: string, e: string)
    ensures (a + (b + (c + (END + (['\n'] + d))))) + e == a + (b + (c + (END + (['\n'] + (d + e)))))
  {
  }

  lemma {:induction false} FileReadsEntries(done: seq<string>, items: seq<Item>)
    requires AllLinesLoggable(items)
    ensures ReadLines(Reading(done, None), Lines(FlushedText(items))) == Reading(done + Messages(items), None)
  {
    EntriesAndMore(done, items, "");
    assert FlushedText(items) + "" == FlushedText(items);
  }

  // ---------------------------------------------------------------- a delimiter inside a message

  lemma {:induction false} ReadingExtends(r: Reading, lines: seq<string>)
    ensures r.done <= ReadLines(r, lines).done
    decreases |lines|
  {
    if lines != [] { ReadingExtends(ReadLine(r, lines[0]), lines[1..]); }
  }

  /** The next message read, at position |done|, is not this one. */
  predicate ReadsAnother(r: Reading, lines: seq<string>, message: string) {
    var done := ReadLines(r, lines).done;
    |done| > |r.done| && done[|r.done|] != message
  }

  /** A line whose text has the delimiter ends the entry, too early if more of it follows. */
  lemma CutShort(
      done: seq<string>, collected: Option<string>, line: string, text: string, rest: string, s: string,
      message: string)
    requires CollectLine(collected, line) == text && !Loggable(text) && |text| < |message|
    requires '\n' !in line && s == line + (['\n'] + rest)
    ensures ReadsAnother(Reading(done, collected), Lines(s), message)
  {
    ReadOneLine(Reading(done, collected), s, line, rest);
    ReadingExtends(Reading(done + [DropNumber(text)], None), Lines(rest));
    assert (done + [DropNumber(text)])[|done|] == DropNumber(text);
  }

  /** If no head of the message has the delimiter, none is in front of a newline. */
  lemma DelimiterInHead(text: string, rest: string, message: string)
    requires Loggable(text) && '\n' !in rest && message == text + (['\n'] + rest)
    ensures LinesLoggable(message)
  {
    NoneIff(text);
    forall i: nat | OccursAt(message, END, i) ensures '\n' !in message[i..] {
      if i + |END| <= |text| {
        OccursInPrefix(text, ['\n'] + rest, i);
      } else if i <= |text| {
        Uncovered(message, i, |text|);
      } else {
        assert message[i..] == rest[i - |text| - 1..];
      }
    }
  }

  /** The message begins with `text`, whole lines without a delimiter. */
  predicate Collected(text: string, rest: string, message: string) {
    text != "" && text[|text| - 1] == '\n' && Loggable(text[..|text| - 1]) && text + rest == message
  }

  lemma CollectLoggable(text: string, rest: string, message: string)
    requires Loggable(text) && text + (['\n'] + rest) == message
    ensures Collected(text + ['\n'], rest, message)
  {
  }

  lemma MoreLines(text: string, rest: string, message: string)
    requires Collected(text, rest, message) && !LinesLoggable(message)
    ensures '\n' in rest
  {
    if '\n' !in rest {
      assert message == text[..|text| - 1] + (['\n'] + rest);
      DelimiterInHead(text[..|text| - 1], rest, message);
    }
  }

  lemma {:induction false} RestBreaks(done: seq<string>, text: string, rest: string, item: Item, more: string)
    requires Collected(text, rest, item.message) && !LinesLoggable(item.message)
    ensures ReadsAnother(Reading(done, Some(text)), Lines(rest + EntryTail(item, more)), item.message)
    decreases |rest|
  {
    MoreLines(text, rest, item.message);
    var line, rest' := CutLine(rest);
    Regroup(text, line, ['\n'], rest');
    if Loggable(text + line) {
      CollectLoggable(text + line, rest', item.message);
      RestOnMoreLines(done, text, line, rest', item, more);
      RestBreaks(done, text + line + ['\n'], rest', item, more);
    } else {
      RestCutShort(done, text, line, rest', item, more);
    }
  }

  lemma RestCutShort(done: seq<string>, text: string, line: string, rest: string, item: Item, more: string)
    requires text + (line + (['\n'] + rest)) == item.message && '\n' !in line && !Loggable(text + line)
    ensures ReadsAnother(Reading(done, Some(text)), Lines((line + (['\n'] + rest)) + EntryTail(item, more)),
              item.message)
  {
    var tail := EntryTail(item, more);
    assert (line + (['\n'] + rest)) + tail == line + (['\n'] + (rest + tail));
    CutShort(done, Some(text), line, text + line, rest + tail, (line + (['\n'] + rest)) + tail, item.message);
  }

  lemma FirstBreaks(done: seq<string>, item: Item, more: string)
    requires !LinesLoggable(item.message)
    ensures ReadsAnother(Reading(done, None), Lines(EntryAndMore(item, more)), item.message)
  {
    WithoutNewline(item.message);
    var line, rest := CutLine(item.message);
    if Loggable(line) {
      FirstOnMoreLines(done, line, rest, item, more);
      CollectLoggable(line, rest, item.message);
      RestBreaks(done, line + ['\n'], rest, item, more);
    } else {
      FirstCutShort(done, line, rest, item, more);
    }
  }

  lemma WithoutNewline(message: string)
    ensures '\n' !in message ==> LinesLoggable(message)
  {
  }

  lemma FirstCutShort(done: seq<string>, line: string, rest: string, item: Item, more: string)
    requires item.message == line + (['\n'] + rest) && '\n' !in line && !Loggable(line)
    ensures ReadsAnother(Reading(done, None), Lines(EntryAndMore(item, more)), item.message)
  {
    var head := Decimal(item.index) + [' '];
    AfterIndex(Decimal(item.index), line);
    assert Decimal(item.index) + ([' '] + line) == head + line;
    EntryLines(item, line, rest, more);
    CutShort(done, None, head + line, line, rest + EntryTail(item, more), EntryAndMore(item, more), item.message);
  }

  lemma EntryLines(item: Item, line: string, rest: string, more: string)
    requires item.message == line + (['\n'] + rest)
    ensures EntryAndMore(item, more) ==
            ((Decimal(item.index) + [' ']) + line) + (['\n'] + (rest + EntryTail(item, more)))
  {
  }

  lemma {:induction false} FileBreaks(done: seq<string>, items: seq<Item>, i: nat)
    requires i < |items| && !LinesLoggable(items[i].message)
    ensures ReadLines(Reading(done, None), Lines(FlushedText(items))).done != done + Messages(items)
    decreases i
  {
    if LinesLoggable(items[0].message) {
      assert items[1..][i - 1] == items[i];
      FileBreaks(done + [items[0].message], items[1..], i - 1);
      FileTailBreaks(done, items);
    } else {
      FirstMessageBreaks(done, items);
    }
  }

  lemma {:induction false} FileTailBreaks(done: seq<string>, items: seq<Item>)
    requires items != [] && LinesLoggable(items[0].message)
    requires ReadLines(Reading(done + [items[0].message], None), Lines(FlushedText(items[1..]))).done !=
             done + [items[0].message] + Messages(items[1..])
    ensures ReadLines(Reading(done, None), Lines(FlushedText(items))).done != done + Messages(items)
  {
    EntriesStep(done, items, "");
    assert FlushedText(items) + "" == FlushedText(items) && FlushedText(items[1..]) + "" == FlushedText(items[1..]);
    Associative(done, [items[0].message], Messages(items[1..]));
  }

  lemma {:induction false} FirstMessageBreaks(done: seq<string>, items: seq<Item>)
    requires items != [] && !LinesLoggable(items[0].message)
    ensures ReadLines(Reading(done, None), Lines(FlushedText(items))).done != done + Messages(items)
  {
    FlushedFirst(items);
    FirstBreaks(done, items[0], FlushedText(items[1..]));
    assert (done + Messages(items))[|done|] == items[0].message;
  }

  lemma {:induction false} WireBreaks(items: seq<Item>, i: nat)
    requires i < |items| && !Loggable(items[i].message)
    ensures WireEntries(FlushedText(items)) != EntryTexts(items)
    decreases i
  {
    if Loggable(items[0].message) {
      assert items[1..][i - 1] == items[i];
      WireBreaks(items[1..], i - 1);
      WireTailDiffers(items);
    } else {
      FirstWireIsCut(items);
    }
  }

  lemma {:induction false} WireTailDiffers(items: seq<Item>)
    requires items != [] && Loggable(items[0].message)
    requires WireEntries(FlushedText(items[1..])) != EntryTexts(items[1..])
    ensures WireEntries(FlushedText(items)) != EntryTexts(items)
  {
    FirstWireItem(items);
    TailsDiffer(EntryText(items[0]), WireEntries(FlushedText(items[1..])), EntryTexts(items[1..]));
  }

  lemma TailsDiffer(x: string, a: seq<string>, b: seq<string>)
    requires a != b
    ensures [x] + a != [x] + b
  {
    assert ([x] + a)[1..] == a && ([x] + b)[1..] == b;
  }

  lemma {:induction false} FirstWireIsCut(items: seq<Item>)
    requires items != [] && !Loggable(items[0].message)
    ensures WireEntries(FlushedText(items)) != EntryTexts(items)
  {
    var after := END + (['\n'] + FlushedText(items[1..]));
    EarlyDelimiter(items[0], after);
    FirstWireIs(EntryText(items[0]) + after);
    assert EntryTexts(items)[0] == EntryText(items[0]);
  }

  lemma {:induction false} FirstWireIs(s: string)
    requires s != "" && Find(s, END).Some?
    ensures WireEntries(s) != [] && WireEntries(s)[0] == Prefix(s, Find(s, END).value)
  {
  }

  lemma {:induction false} FirstWireItem(items: seq<Item>)
    requires items != [] && Loggable(items[0].message)
    ensures WireEntries(FlushedText(items)) == [EntryText(items[0])] + WireEntries(FlushedText(items[1..]))
  {
    var text, rest := EntryText(items[0]), FlushedText(items[1..]);
    EntryHasNone(items[0]);
    EntryEndsInDigit(items[0]);
    FirstIsAppended(text, ['\n'] + rest);
    FirstWireEntry(text, rest);
  }

  lemma EarlyDelimiter(item: Item, after: string)
    requires !Loggable(item.message)
    ensures Find(EntryText(item) + after, END).Some? && Find(EntryText(item) + after, END).value < |EntryText(item)|
  {
    var s, head := EntryText(item) + after, Decimal(item.index) + [' '];
    NoneIff(item.message);
    var i: nat :| OccursAt(item.message, END, i);
    OccursInPrefix(item.message, NumberText(item) + after, i);
    OccursInSuffix(head, item.message + (NumberText(item) + after), i);
    assert s == head + (item.message + (NumberText(item) + after));
    FindFromFinds(s, END, 0);
  }

  // ---------------------------------------------------------------- appending

  lemma {:induction false} FlushedOfConcat(a: seq<Item>, b: seq<Item>)
    ensures FlushedText(a + b) == FlushedText(a) + FlushedText(b)
    decreases |a|
  {
    if a == [] {
      assert a + b == b;
    } else {
      assert (a + b)[1..] == a[1..] + b;
      FlushedOfConcat(a[1..], b);
      EntryThenText(EntryText(a[0]), FlushedText(a[1..]), FlushedText(b));
    }
  }

  lemma EntryThenText(text: string, a: string, b: string)
    ensures (text + (END + (['\n'] + a))) + b == text + (END + (['\n'] + (a + b)))
  {
  }

  /** Flushing appends the entries to the file. */
  lemma {:induction false} AppendedFile(n: nat, a: seq<Item>, b: seq<Item>)
    ensures FileText(n, a) + FlushedText(b) == FileText(n, a + b)
  {
    FlushedOfConcat(a, b);
    LineThenText(Decimal(n), FlushedText(a), FlushedText(b));
  }

  lemma LineThenText(d: string, a: string, b: string)
    ensures (d + (['\n'] + a)) + b == d + (['\n'] + (a + b))
  {
  }

  // ---------------------------------------------------------------- main results

  /** Write-ahead log round trip, for messages of any shape (blanks, newlines, empty): the file
      parser reads back exactly the messages, in order, if and only if no message has the
      delimiter in front of its last newline. */
  lemma {:induction false} LogFileRoundTripIff(checkpoint: nat, items: seq<Item>)
    ensures MessagesIn(FileText(checkpoint, items)) == Messages(items) <==> AllLinesLoggable(items)
    ensures CheckpointIn(FileText(checkpoint, items)) == checkpoint
  {
    var d, rest := Decimal(checkpoint), FlushedText(items);
    SplitFirst(FileText(checkpoint, items), d, rest, '\n');
    assert d + "" == d && [] + Messages(items) == Messages(items);
    AtoiDecimal(checkpoint, "");
    if AllLinesLoggable(items) {
      FileReadsEntries([], items);
    } else {
      var i :| 0 <= i < |items| && !LinesLoggable(items[i].message);
      FileBreaks([], items, i);
    }
  }

  lemma {:induction false} BehindFirstLine(line: string, rest: string)
    requires '\n' !in line
    ensures FindChar(line + (['\n'] + rest), '\n') == Some(|line|)
    ensures (line + (['\n'] + rest))[|line| + 1..] == rest
  {
    FindCharIs(line, '\n', rest);
  }

  /** The wire parser cuts the same text into exactly the written entries if and only if no
      message has the delimiter at all. */
  lemma {:induction false} WireRoundTripIff(checkpoint: nat, items: seq<Item>)
    ensures FindChar(FileText(checkpoint, items), '\n') == Some(|Decimal(checkpoint)|)
    ensures FileText(checkpoint, items)[|Decimal(checkpoint)| + 1..] == FlushedText(items)
    ensures WireEntries(FlushedText(items)) == EntryTexts(items) <==> AllLoggable(items)
  {
    BehindFirstLine(Decimal(checkpoint), FlushedText(items));
    if AllLoggable(items) {
      WireReadsEntries(items);
    } else {
      var i :| 0 <= i < |items| && !Loggable(items[i].message);
      WireBreaks(items, i);
    }
  }

  lemma LoggableLines(items: seq<Item>)
    requires AllLoggable(items)
    ensures AllLinesLoggable(items)
  {
    forall i | 0 <= i < |items| ensures LinesLoggable(items[i].message) { NoneIff(items[i].message); }
  }

  /** Where no message has the delimiter both parsers read the same list. */
  lemma {:induction false} BothParsersAgree(checkpoint: nat, items: seq<Item>)
    requires AllLoggable(items)
    ensures MessagesIn(FileText(checkpoint, items)) == Messages(items)
    ensures WireEntries(FlushedText(items)) == EntryTexts(items)
    ensures forall i :: 0 <= i < |items| ==> DropNumber(AfterBlank(EntryText(items[i]))) == items[i].message
  {
    LoggableLines(items);
    LogFileRoundTripIff(checkpoint, items);
    WireRoundTripIff(checkpoint, items);
    forall i | 0 <= i < |items| ensures DropNumber(AfterBlank(EntryText(items[i]))) == items[i].message {
      EntryFields(items[i]);
    }
  }
}
