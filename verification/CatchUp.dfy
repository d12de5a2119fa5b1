/** A replica that asks the primary for its log: create_log_string, the framing that the text goes
    through, and parse_log_string. */
module CatchUp {
  import opened Text
  import opened Commands
  import opened WriteAheadLog

  /** The part of a replica's tablet that parse_log_string works on. */
  datatype Replica = Replica(log: string, number: nat, sequence: nat, active: bool, table: Table)

  function FirstLine(s: string): string {
    FindCharFinds(s, '\n');
    match FindChar(s, '\n') case None => s case Some(i) => s[..i]
  }

  /** A missing newline wraps to position 0. */
  function FollowingLines(s: string): string {
    FindCharFinds(s, '\n');
    match FindChar(s, '\n') case None => s case Some(i) => s[i + 1..]
  }

  function EntryIndex(entry: string): nat { Atoi(UpToBlank(entry)) }
  function EntryMessage(entry: string): string { DropNumber(AfterBlank(entry)) }

  function EntryMessages(entries: seq<string>): seq<string> {
    if entries == [] then [] else [EntryMessage(entries[0])] + EntryMessages(entries[1..])
  }

  function Appended(entries: seq<string>): string {
    if entries == [] then "" else entries[0] + (END + (['\n'] + Appended(entries[1..])))
  }

  /** The entries whose index is above `last`. */
  function Above(entries: seq<string>, last: nat): seq<string> {
    if entries == [] then []
    else (if EntryIndex(entries[0]) > last then [entries[0]] else []) + Above(entries[1..], last)
  }

  function Highest(entries: seq<string>, start: nat): nat {
    if entries == [] then start
    else Highest(entries[1..], if EntryIndex(entries[0]) > start then EntryIndex(entries[0]) else start)
  }

  /** The entries that are not skipped. */
  function Taken(entries: seq<string>, same: bool, last: nat): seq<string> {
    if same then Above(entries, last) else entries
  }

  /** What the file holds when the loop starts. An empty file first gets the primary's first line;
      a new checkpoint clears the file, but that line is still in the stream's buffer. */
  function Begun(r: Replica, first: string): string {
    var line := if r.log == "" then first + ['\n'] else "";
    if Atoi(first) > r.number then line + (Decimal(Atoi(first)) + ['\n'])
    else if r.log == "" then line
    else r.log
  }

  /** parse_log_string; None is an exception while replaying. */
  function Received(r: Replica, str: string): Option<Replica> {
    if str == "" then Some(r)
    else
      var first := FirstLine(str);
      if Atoi(first) < r.number then Some(r.(log := Begun(r, first)))
      else
        var same := Atoi(first) == r.number;
        var start := Taking(Begun(r, first), if same then r.sequence else 0, r.table);
        match AllTaken(start, r.active, Taken(WireEntries(FollowingLines(str)), same, r.sequence))
        case None => None
        case Some(t) => Some(Replica(t.log, Atoi(first), t.highest, r.active, t.table))
  }

  /** Where the loop is: the file, the highest index met, the table; and what does not change. */
  datatype Taking = Taking(log: string, highest: nat, table: Table)

  /** One entry of the loop; None when replaying it threw. */
  function TakeOne(s: Taking, active: bool, same: bool, last: nat, entry: string): Option<Taking> {
    if EntryIndex(entry) <= last && same then Some(s)
    else
      match if active then Replay(EntryMessage(entry), s.table) else Some(s.table)
      case None => None
      case Some(t) =>
        Some(Taking(s.log + (entry + (END + ['\n'])),
            if EntryIndex(entry) > s.highest then EntryIndex(entry) else s.highest, t))
  }

  function TakeAll(s: Taking, active: bool, same: bool, last: nat, entries: seq<string>): Option<Taking>
    decreases |entries|
  {
    if entries == [] then Some(s)
    else match TakeOne(s, active, same, last, entries[0])
      case None => None
      case Some(u) => TakeAll(u, active, same, last, entries[1..])
  }

  lemma AppendOne(log: string, entry: string, rest: string)
    ensures (log + (entry + (END + ['\n']))) + rest == log + (entry + (END + (['\n'] + rest)))
  {
  }

  /** All these entries appended, replayed and counted. */
  function AllTaken(s: Taking, active: bool, taken: seq<string>): Option<Taking> {
    match if active then ReplayAll(EntryMessages(taken), s.table) else Some(s.table)
    case None => None
    case Some(t) => Some(Taking(s.log + Appended(taken), Highest(taken, s.highest), t))
  }

  lemma OneMoreTaken(s: Taking, active: bool, entry: string, rest: seq<string>)
    ensures AllTaken(s, active, [entry] + rest) ==
      match TakeOne(s, active, false, 0, entry) case None => None case Some(u) => AllTaken(u, active, rest)
  {
    assert ([entry] + rest)[1..] == rest;
    AppendOne(s.log, entry, Appended(rest));
    assert EntryMessages([entry] + rest) == [EntryMessage(entry)] + EntryMessages(rest);
    assert ([EntryMessage(entry)] + EntryMessages(rest))[1..] == EntryMessages(rest);
  }

  /** The loop takes the entries that are not skipped, in order. */
  lemma {:induction false} TakesTheTaken(s: Taking, active: bool, same: bool, last: nat, entries: seq<string>)
    ensures TakeAll(s, active, same, last, entries) == AllTaken(s, active, Taken(entries, same, last))
    decreases |entries|
  {
    if entries == [] {
      assert s.log + "" == s.log;
    } else {
      var u := TakeOne(s, active, same, last, entries[0]);
      if u.Some? { TakesTheTaken(u.value, active, same, last, entries[1..]); }
      if same && EntryIndex(entries[0]) <= last {
        assert [] + Above(entries[1..], last) == Above(entries[1..], last);
      } else {
        OneMoreTaken(s, active, entries[0], Taken(entries[1..], same, last));
        assert Taken(entries, same, last) == [entries[0]] + Taken(entries[1..], same, last);
      }
    }
  }

  /** The loop of parse_log_string. */
  method TakeEntries(s: Taking, active: bool, same: bool, last: nat, str: string) returns (r: Option<Taking>)
    ensures r == TakeAll(s, active, same, last, WireEntries(str))
  {
    var now, rest := s, str;
    while Find(rest, END).Some? && rest != ""
      invariant TakeAll(now, active, same, last, WireEntries(rest)) == TakeAll(s, active, same, last, WireEntries(str))
      decreases |rest|
    {
      var end := Find(rest, END).value;
      r := TakeOne(now, active, same, last, Prefix(rest, end));
      if r == None { return; }
      now, rest := r.value, Behind(rest, end);
    }
    r := Some(now);
  }

  class ReplicaTablet {
    var log: string
    var number: nat
    var sequence: nat
    var active: bool
    var table: Table

    ghost function View(): Replica
      reads this
    {
      Replica(log, number, sequence, active, table)
    }

    /** parse_log_string; ok is false when replaying an entry threw. */
    method ParseLogString(str: string) returns (ok: bool)
      modifies this
      ensures ok <==> Received(old(View()), str).Some?
      ensures ok ==> Received(old(View()), str) == Some(View())
    {
      if str == "" { return true; }
      var first, rest := FirstLine(str), FollowingLines(str);
      var primary := Atoi(first);
      log := Begun(Replica(log, number, sequence, active, table), first);
      if primary < number { return true; }
      var same := primary == number;
      TakesTheTaken(Taking(log, if same then sequence else 0, table), active, same, sequence, WireEntries(rest));
      var taking := TakeEntries(Taking(log, if same then sequence else 0, table), active, same, sequence, rest);
      match taking {
        case None => ok := false;
        case Some(t) =>
          log, table := t.log, t.table;
          number, sequence := primary, t.highest;
          ok := true;
      }
    }
  }

  // ---------------------------------------------------------------- the text on its way

  /** create_log_string's loop: every line of the file with its newline. */
  function Relined(lines: seq<string>): string {
    if lines == [] then "" else lines[0] + (['\n'] + Relined(lines[1..]))
  }

  function SentLog(tablet: nat, file: string): string {
    "LOGFILE" + ([' '] + (Decimal(tablet) + ([' '] + Relined(Lines(file)))))
  }

  /** The message arrives trimmed; the handler puts the newline back and cuts off two words. */
  function ArrivedLog(message: string): string {
    AfterBlank(AfterBlank(TrimEnd(message)) + ['\n'])
  }

  lemma {:induction false} RelinedFile(s: string)
    requires s == "" || s[|s| - 1] == '\n'
    ensures Relined(Lines(s)) == s
    decreases |s|
  {
    if s != "" {
      var line, rest := CutLine(s);
      SplitFirst(s, line, rest, '\n');
      assert ([line] + Lines(rest))[1..] == Lines(rest);
      assert rest != "" ==> rest[|rest| - 1] == s[|s| - 1];
      RelinedFile(rest);
    }
  }

  lemma {:induction false} TrimNewline(s: string)
    requires s != "" && !IsSpace(s[|s| - 1])
    ensures TrimEnd(s + ['\n']) == s
  {
  }

  /** A log file without its last newline: not empty, and not ending in white space. */
  lemma {:induction false} FileEnds(n: nat, items: seq<Item>) returns (body: string)
    ensures FileText(n, items) == body + ['\n'] && body != "" && !IsSpace(body[|body| - 1])
  {
    if items == [] {
      body := Decimal(n);
      assert body + (['\n'] + "") == body + ['\n'];
    } else {
      var rest := FlushedEnds(items);
      body := Decimal(n) + (['\n'] + (rest + END));
      assert Decimal(n) + (['\n'] + (rest + END + ['\n'])) == body + ['\n'];
      assert body[|body| - 1] == END[|END| - 1];
    }
  }

  lemma {:induction false} FlushedEnds(items: seq<Item>) returns (body: string)
    requires items != []
    ensures FlushedText(items) == body + END + ['\n']
    decreases |items|
  {
    var text := EntryText(items[0]);
    if |items| == 1 {
      body := text;
      assert FlushedText(items) == text + (END + (['\n'] + ""));
    } else {
      var rest := FlushedEnds(items[1..]);
      body := text + (END + (['\n'] + rest));
      assert text + (END + (['\n'] + (rest + END + ['\n']))) == body + END + ['\n'];
    }
  }

  /** The replica works on exactly the primary's file. */
  lemma SentLogArrives(tablet: nat, n: nat, items: seq<Item>)
    ensures ArrivedLog(SentLog(tablet, FileText(n, items))) == FileText(n, items)
  {
    var body := FileEnds(n, items);
    var file, d := FileText(n, items), Decimal(tablet);
    RelinedFile(file);
    EndMoves("LOGFILE", d, body);
    TrimNewline("LOGFILE" + ([' '] + (d + ([' '] + body))));
    CutWord("LOGFILE", d + ([' '] + body));
    CutWord(d, body + ['\n']);
  }

  lemma EndMoves(a: string, b: string, c: string)
    requires c != ""
    ensures a + ([' '] + (b + ([' '] + (c + ['\n'])))) == (a + ([' '] + (b + ([' '] + c)))) + ['\n']
    ensures b + ([' '] + (c + ['\n'])) == (b + ([' '] + c)) + ['\n']
    ensures (a + ([' '] + (b + ([' '] + c))))[|a + ([' '] + (b + ([' '] + c)))| - 1] == c[|c| - 1]
  {
  }

  lemma CutWord(word: string, rest: string)
    requires ' ' !in word
    ensures AfterBlank(word + ([' '] + rest)) == rest
  {
    FindCharIs(word, ' ', rest);
    assert (word + ([' '] + rest))[|word| + 1..] == rest;
  }

  // ---------------------------------------------------------------- entries and items

  function ItemsAbove(items: seq<Item>, last: nat): seq<Item> {
    if items == [] then []
    else (if items[0].index > last then [items[0]] else []) + ItemsAbove(items[1..], last)
  }

  function HighestIndex(items: seq<Item>, start: nat): nat {
    if items == [] then start
    else HighestIndex(items[1..], if items[0].index > start then items[0].index else start)
  }

  lemma {:induction false} TextsAbove(items: seq<Item>, last: nat)
    ensures Above(EntryTexts(items), last) == EntryTexts(ItemsAbove(items, last))
    decreases |items|
  {
    if items != [] {
      EntryFields(items[0]);
      TextsAbove(items[1..], last);
      AboveOfFirst(EntryText(items[0]), EntryTexts(items[1..]), last);
      var rest := ItemsAbove(items[1..], last);
      if items[0].index > last { FirstText(items[0], rest); } else { assert [] + rest == rest; }
    }
  }

  lemma {:induction false} AboveOfFirst(entry: string, rest: seq<string>, last: nat)
    ensures Above([entry] + rest, last) ==
            if EntryIndex(entry) > last then [entry] + Above(rest, last) else Above(rest, last)
  {
  }

  lemma {:induction false} FirstText(item: Item, rest: seq<Item>)
    ensures EntryTexts([item] + rest) == [EntryText(item)] + EntryTexts(rest)
  {
  }

  lemma {:induction false} AppendedTexts(items: seq<Item>)
    ensures Appended(EntryTexts(items)) == FlushedText(items)
    decreases |items|
  {
    if items != [] { AppendedTexts(items[1..]); }
  }

  lemma {:induction false} MessagesOfTexts(items: seq<Item>)
    ensures EntryMessages(EntryTexts(items)) == Messages(items)
    decreases |items|
  {
    if items != [] {
      EntryFields(items[0]);
      MessagesOfTexts(items[1..]);
    }
  }

  lemma {:induction false} HighestOfTexts(items: seq<Item>, start: nat)
    ensures Highest(EntryTexts(items), start) == HighestIndex(items, start)
    decreases |items|
  {
    if items != [] {
      EntryFields(items[0]);
      HighestOfTexts(items[1..], if items[0].index > start then items[0].index else start);
    }
  }

  lemma {:induction false} AboveIsPart(items: seq<Item>, last: nat)
    ensures |ItemsAbove(items, last)| <= |items|
    ensures forall i :: 0 <= i < |ItemsAbove(items, last)| ==> ItemsAbove(items, last)[i].index > last
    ensures AllLoggable(items) ==> AllLoggable(ItemsAbove(items, last))
    decreases |items|
  {
    if items != [] { AboveIsPart(items[1..], last); }
  }

  /** What the replica takes of the primary's log, in terms of the entries written there. */
  function TakenItems(items: seq<Item>, same: bool, last: nat): seq<Item> {
    if same then ItemsAbove(items, last) else items
  }

  lemma {:induction false} ReceivedItems(r: Replica, n: nat, items: seq<Item>)
    requires AllLoggable(items) && n >= r.number
    ensures var same := n == r.number; var taken := TakenItems(items, same, r.sequence);
      Received(r, FileText(n, items)) ==
        match if r.active then ReplayAll(Messages(taken), r.table) else Some(r.table)
        case None => None
        case Some(table) =>
          Some(Replica(Begun(r, Decimal(n)) + FlushedText(taken), n,
              HighestIndex(taken, if same then r.sequence else 0), r.active, table))
  {
    var same, str := n == r.number, FileText(n, items);
    var taken := TakenItems(items, same, r.sequence);
    FileParts(n, items);
    TextsAbove(items, r.sequence);
    assert Taken(WireEntries(FollowingLines(str)), same, r.sequence) == EntryTexts(taken);
    AppendedTexts(taken);
    MessagesOfTexts(taken);
    HighestOfTexts(taken, if same then r.sequence else 0);
  }

  lemma {:induction false} FileParts(n: nat, items: seq<Item>)
    requires AllLoggable(items)
    ensures FileText(n, items) != "" && FirstLine(FileText(n, items)) == Decimal(n) && Atoi(Decimal(n)) == n
    ensures WireEntries(FollowingLines(FileText(n, items))) == EntryTexts(items)
  {
    LineThenLines(Decimal(n), FlushedText(items));
    WireReadsEntries(items);
    AtoiOfDecimal(n);
  }

  lemma LineThenLines(line: string, rest: string)
    requires '\n' !in line
    ensures FirstLine(line + (['\n'] + rest)) == line && FollowingLines(line + (['\n'] + rest)) == rest
  {
    FindCharIs(line, '\n', rest);
    assert (line + (['\n'] + rest))[..|line|] == line && (line + (['\n'] + rest))[|line| + 1..] == rest;
  }

  // ---------------------------------------------------------------- same checkpoint

  lemma {:induction false} AboveOfConcat(a: seq<Item>, b: seq<Item>, last: nat)
    ensures ItemsAbove(a + b, last) == ItemsAbove(a, last) + ItemsAbove(b, last)
    decreases |a|
  {
    if a == [] {
      assert a + b == b && [] + ItemsAbove(b, last) == ItemsAbove(b, last);
    } else {
      assert (a + b)[1..] == a[1..] + b;
      AboveOfConcat(a[1..], b, last);
    }
  }

  lemma {:induction false} AllAbove(items: seq<Item>, last: nat)
    ensures ItemsAbove(items, last) == items <==> forall i :: 0 <= i < |items| ==> items[i].index > last
    decreases |items|
  {
    AboveIsPart(items, last);
    if items != [] {
      AllAbove(items[1..], last);
      if items[0].index > last { assert ItemsAbove(items, last)[1..] == ItemsAbove(items[1..], last); }
    }
  }

  lemma {:induction false} NoneAbove(items: seq<Item>, last: nat)
    ensures ItemsAbove(items, last) == [] <==> forall i :: 0 <= i < |items| ==> items[i].index <= last
    decreases |items|
  {
    if items != [] { NoneAbove(items[1..], last); }
  }

  /** The indices above `last` are exactly those from position k on. */
  predicate CutAt(items: seq<Item>, k: nat, last: nat) {
    forall i :: 0 <= i < |items| ==> (items[i].index > last <==> i >= k)
  }

  /** The same texts have the same indices. */
  lemma {:induction false} TextsFixIndices(a: seq<Item>, b: seq<Item>)
    requires EntryTexts(a) == EntryTexts(b)
    ensures |a| == |b| && forall i :: 0 <= i < |a| ==> a[i].index == b[i].index
    decreases |a|
  {
    if a != [] && b != [] {
      assert EntryTexts(a)[0] == EntryTexts(b)[0] && EntryTexts(a)[1..] == EntryTexts(b)[1..];
      SameTextSameIndex(a[0], b[0]);
      TextsFixIndices(a[1..], b[1..]);
      IndicesOfTails(a, b);
    }
  }

  lemma IndicesOfTails(a: seq<Item>, b: seq<Item>)
    requires a != [] && b != [] && a[0].index == b[0].index && |a[1..]| == |b[1..]|
    requires forall i :: 0 <= i < |a[1..]| ==> a[1..][i].index == b[1..][i].index
    ensures |a| == |b| && forall i :: 0 <= i < |a| ==> a[i].index == b[i].index
  {
  }

  lemma SameTextSameIndex(a: Item, b: Item)
    requires EntryText(a) == EntryText(b)
    ensures a.index == b.index
  {
    EntryFields(a);
    EntryFields(b);
  }

  lemma {:induction false} FlushedFixesTexts(a: seq<Item>, b: seq<Item>)
    requires FlushedText(a) == FlushedText(b) && AllLoggable(a) && AllLoggable(b)
    ensures EntryTexts(a) == EntryTexts(b)
  {
    WireReadsEntries(a);
    WireReadsEntries(b);
  }

  /** The entries above `last` are textually those behind the first k exactly when `last` cuts
      the indices there. */
  lemma {:induction false} TakenIff(items: seq<Item>, k: nat, last: nat)
    requires AllLoggable(items) && k <= |items|
    ensures FlushedText(ItemsAbove(items, last)) == FlushedText(items[k..]) <==> CutAt(items, k, last)
  {
    if CutAt(items, k, last) { CutTakes(items, k, last); }
    if FlushedText(ItemsAbove(items, last)) == FlushedText(items[k..]) { TakenGivesCut(items, k, last); }
  }

  lemma {:induction false} HeadTailTakes(head: seq<Item>, tail: seq<Item>, last: nat)
    requires forall i :: 0 <= i < |head| ==> head[i].index <= last
    requires forall i :: 0 <= i < |tail| ==> tail[i].index > last
    ensures ItemsAbove(head + tail, last) == tail
  {
    AboveOfConcat(head, tail, last);
    AllAbove(tail, last);
    NoneAbove(head, last);
    assert [] + tail == tail;
  }

  lemma {:induction false} CutTakes(items: seq<Item>, k: nat, last: nat)
    requires k <= |items| && CutAt(items, k, last)
    ensures ItemsAbove(items, last) == items[k..]
  {
    HeadTailTakes(items[..k], items[k..], last);
    assert items[..k] + items[k..] == items;
  }

  lemma {:induction false} TakenGivesCut(items: seq<Item>, k: nat, last: nat)
    requires AllLoggable(items) && k <= |items| && FlushedText(ItemsAbove(items, last)) == FlushedText(items[k..])
    ensures CutAt(items, k, last)
  {
    TailIsAbove(items, items[k..], last);
    TailIsRest(items, k, last);
  }

  lemma {:induction false} TailIsRest(items: seq<Item>, k: nat, last: nat)
    requires k <= |items| && |ItemsAbove(items, last)| == |items[k..]|
    requires forall i :: 0 <= i < |items[k..]| ==> items[k..][i].index > last
    ensures CutAt(items, k, last)
  {
    assert items[..k] + items[k..] == items;
    TailTakenWhole(items[..k], items[k..], last);
    CutIsComplete(items, k, last);
  }

  lemma {:induction false} TailIsAbove(items: seq<Item>, tail: seq<Item>, last: nat)
    requires AllLoggable(items) && AllLoggable(tail) && FlushedText(ItemsAbove(items, last)) == FlushedText(tail)
    ensures |ItemsAbove(items, last)| == |tail| && forall i :: 0 <= i < |tail| ==> tail[i].index > last
  {
    AboveIsPart(items, last);
    FlushedFixesTexts(ItemsAbove(items, last), tail);
    TextsFixIndices(ItemsAbove(items, last), tail);
  }

  /** As many entries as the tail has, all of the tail above the limit: none of the head is. */
  lemma {:induction false} TailTakenWhole(head: seq<Item>, tail: seq<Item>, last: nat)
    requires |ItemsAbove(head + tail, last)| == |tail|
    requires forall i :: 0 <= i < |tail| ==> tail[i].index > last
    ensures forall i :: 0 <= i < |head| ==> head[i].index <= last
  {
    AboveOfConcat(head, tail, last);
    AllAbove(tail, last);
    NoneAbove(head, last);
  }

  lemma CutIsComplete(items: seq<Item>, k: nat, last: nat)
    requires k <= |items|
    requires forall i :: 0 <= i < |items[k..]| ==> items[k..][i].index > last
    requires forall i :: 0 <= i < |items[..k]| ==> items[..k][i].index <= last
    ensures CutAt(items, k, last)
  {
    forall i | 0 <= i < |items| ensures items[i].index > last <==> i >= k {
      if i >= k { assert items[k..][i - k] == items[i]; } else { assert items[..k][i] == items[i]; }
    }
  }

  lemma FileConcat(n: nat, items: seq<Item>, k: nat)
    requires k <= |items|
    ensures FileText(n, items) == FileText(n, items[..k]) + FlushedText(items[k..])
  {
    AppendedFile(n, items[..k], items[k..]);
    assert items[..k] + items[k..] == items;
  }

  lemma SameSuffix(a: string, b: string, c: string)
    ensures a + b == a + c <==> b == c
  {
    if a + b == a + c { assert b == (a + b)[|a|..] == (a + c)[|a|..] == c; }
  }

  /** Catch-up under the same checkpoint: a replica whose file has the first k entries ends with
      the primary's file if and only if its log sequence cuts the primary's indices at k. */
  lemma CatchUpIff(r: Replica, n: nat, items: seq<Item>, k: nat)
    requires AllLoggable(items) && k <= |items| && r.number == n && r.log == FileText(n, items[..k])
    requires Received(r, FileText(n, items)).Some?
    ensures Received(r, FileText(n, items)).value.log == FileText(n, items) <==> CutAt(items, k, r.sequence)
  {
    ReceivedItems(r, n, items);
    FileParts(n, items);
    FileIsNotEmpty(n, items[..k]);
    FileConcat(n, items, k);
    SameSuffix(r.log, FlushedText(ItemsAbove(items, r.sequence)), FlushedText(items[k..]));
    TakenIff(items, k, r.sequence);
  }

  lemma FileIsNotEmpty(n: nat, items: seq<Item>)
    ensures FileText(n, items) != ""
  {
  }

  lemma {:induction false} ReplayConcat(a: seq<string>, b: seq<string>, t: Table)
    ensures ReplayAll(a + b, t) == match ReplayAll(a, t) case None => None case Some(u) => ReplayAll(b, u)
    decreases |a|
  {
    if a == [] {
      assert a + b == b;
    } else {
      assert (a + b)[1..] == a[1..] + b;
      var u := Replay(a[0], t);
      if u.Some? { ReplayConcat(a[1..], b, u.value); }
    }
  }

  lemma {:induction false} MessagesCut(items: seq<Item>, k: nat)
    requires k <= |items|
    ensures Messages(items) == Messages(items[..k]) + Messages(items[k..])
    decreases k
  {
    if k == 0 {
      assert items[0..] == items && items[..0] == [];
    } else {
      assert items[..k][1..] == items[1..][..k - 1] && items[1..][k - 1..] == items[k..];
      MessagesCut(items[1..], k - 1);
    }
  }

  /** Entries numbered 1, 2, 3 and so on. */
  predicate WellNumbered(items: seq<Item>) {
    forall i :: 0 <= i < |items| ==> items[i].index == i + 1
  }

  lemma {:induction false} HighestNumber(items: seq<Item>, k: nat)
    requires forall i :: 0 <= i < |items| ==> items[i].index == k + i + 1
    ensures HighestIndex(items, k) == k + |items|
    decreases |items|
  {
    if items != [] { HighestNumber(items[1..], k + 1); }
  }

  lemma {:induction false} NumberedCut(items: seq<Item>, k: nat)
    requires WellNumbered(items) && k <= |items|
    ensures ItemsAbove(items, k) == items[k..] && HighestIndex(items[k..], k) == |items|
  {
    CutTakes(items, k, k);
    HighestNumber(items[k..], k);
  }

  /** A replica whose file has the first k of well numbered entries, that stands at k and, if the
      tablet is in memory, has the table that they leave: it ends with the primary's file, log
      sequence and table. */
  lemma {:induction false} CatchesUp(r: Replica, n: nat, items: seq<Item>, k: nat, saved: Table, table: Table)
    requires AllLoggable(items) && WellNumbered(items) && k <= |items|
    requires r.number == n && r.sequence == k && r.log == FileText(n, items[..k])
    requires r.active ==> ReplayAll(Messages(items[..k]), saved) == Some(r.table)
    requires ReplayAll(Messages(items), saved) == Some(table)
    ensures Received(r, FileText(n, items)) ==
            Some(Replica(FileText(n, items), n, |items|, r.active, if r.active then table else r.table))
  {
    ReceivedItems(r, n, items);
    NumberedCut(items, k);
    FileParts(n, items);
    FileIsNotEmpty(n, items[..k]);
    FileConcat(n, items, k);
    MessagesCut(items, k);
    ReplayConcat(Messages(items[..k]), Messages(items[k..]), saved);
  }

  /** The queue is not renumbered at a checkpoint, so a file can hold an index that is not above an
      earlier one: a replica that has the earlier entry but not the later one cannot reach the
      primary's file, whatever its log sequence. */
  lemma FallingIndexIsNeverCaughtUp(r: Replica, n: nat, items: seq<Item>, k: nat, i: nat, j: nat)
    requires AllLoggable(items) && k <= |items| && r.number == n && r.log == FileText(n, items[..k])
    requires Received(r, FileText(n, items)).Some?
    requires i < k <= j < |items| && items[i].index >= items[j].index
    ensures Received(r, FileText(n, items)).value.log != FileText(n, items)
  {
    CatchUpIff(r, n, items, k);
    FallingIndexHasNoCut(items, k, r.sequence, i, j);
  }

  lemma FallingIndexHasNoCut(items: seq<Item>, k: nat, last: nat, i: nat, j: nat)
    requires i < k <= j < |items| && items[i].index >= items[j].index
    ensures !CutAt(items, k, last)
  {
  }

  // ---------------------------------------------------------------- the same text again

  lemma {:induction false} NotAboveHighest(entries: seq<string>, start: nat)
    ensures start <= Highest(entries, start)
    ensures forall last :: last >= Highest(entries, start) ==> Above(entries, last) == []
    decreases |entries|
  {
    if entries != [] {
      NotAboveHighest(entries[1..], if EntryIndex(entries[0]) > start then EntryIndex(entries[0]) else start);
    }
  }

  /** A limit that is not below what was skipped nor below what was taken has nothing above it. */
  lemma {:induction false} NotAboveTaken(entries: seq<string>, start: nat, highest: nat, last: nat)
    requires start <= highest && last >= Highest(Above(entries, start), highest)
    ensures Above(entries, last) == []
    decreases |entries|
  {
    if entries != [] {
      var index, rest := EntryIndex(entries[0]), entries[1..];
      var more := if index > start && index > highest then index else highest;
      FirstNotAbove(entries[0], index, rest, start, highest, last, more);
      NotAboveTaken(rest, start, more, last);
      assert entries == [entries[0]] + rest;
    }
  }

  lemma {:induction false} FirstNotAbove(
      e: string, index: nat, rest: seq<string>, start: nat, highest: nat, last: nat, more: nat)
    requires start <= highest && last >= Highest(Above([e] + rest, start), highest) && index == EntryIndex(e)
    requires more == if index > start && index > highest then index else highest
    ensures index <= last && last >= Highest(Above(rest, start), more) && Above([e] + rest, last) == Above(rest, last)
  {
    AboveOfFirst(e, rest, start);
    AboveOfFirst(e, rest, last);
    if index > start {
      HighestOfFirst(e, Above(rest, start), highest);
    } else {
      NotAboveHighest(Above(rest, start), highest);
    }
  }

  lemma {:induction false} HighestOfFirst(e: string, rest: seq<string>, start: nat)
    ensures Highest([e] + rest, start) == Highest(rest, if EntryIndex(e) > start then EntryIndex(e) else start)
    ensures Highest([e] + rest, start) >= EntryIndex(e)
  {
    assert ([e] + rest)[1..] == rest;
    NotAboveHighest(rest, if EntryIndex(e) > start then EntryIndex(e) else start);
  }

  /** Processing the same text again changes nothing, whatever the text and the replica. */
  lemma ReceivingAgainChangesNothing(r: Replica, str: string)
    requires Received(r, str).Some?
    ensures Received(Received(r, str).value, str) == Received(r, str)
  {
    if str != "" && Atoi(FirstLine(str)) >= r.number {
      var entries, same := WireEntries(FollowingLines(str)), Atoi(FirstLine(str)) == r.number;
      var u := Received(r, str).value;
      if same { NotAboveTaken(entries, r.sequence, r.sequence, u.sequence); } else { NotAboveHighest(entries, 0); }
      assert Above(entries, u.sequence) == [];
      NothingTaken(u, str);
    }
  }

  lemma NothingTaken(u: Replica, str: string)
    requires str != "" && Atoi(FirstLine(str)) == u.number && u.log != ""
    requires Above(WireEntries(FollowingLines(str)), u.sequence) == []
    ensures Received(u, str) == Some(u)
  {
    assert u.log + "" == u.log;
  }

  // ---------------------------------------------------------------- a higher checkpoint

  /** A replica with an older checkpoint takes over the primary's file, unless its own file is
      empty: then the primary's first line, still in the stream's buffer, is written twice. */
  lemma {:induction false} HigherCheckpoint(r: Replica, n: nat, items: seq<Item>)
    requires AllLoggable(items) && n > r.number && Received(r, FileText(n, items)).Some?
    ensures var u := Received(r, FileText(n, items)).value;
      u.number == n && u.log == (if r.log == "" then Decimal(n) + ['\n'] else "") + FileText(n, items)
  {
    ReceivedItems(r, n, items);
    FileParts(n, items);
    BegunThenFlushed(if r.log == "" then Decimal(n) + ['\n'] else "", Decimal(n), FlushedText(items));
  }

  lemma BegunThenFlushed(line: string, d: string, flushed: string)
    ensures (line + (d + ['\n'])) + flushed == line + (d + (['\n'] + flushed))
  {
  }

  /** The doubled first line swallows the first entry: the file then holds the primary's messages
      if and only if the replica's file was not empty or there is no entry. */
  lemma {:induction false} HigherCheckpointIff(r: Replica, n: nat, items: seq<Item>)
    requires AllLoggable(items) && n > r.number && Received(r, FileText(n, items)).Some?
    ensures MessagesIn(Received(r, FileText(n, items)).value.log) == Messages(items) <==> r.log != "" || items == []
  {
    HigherCheckpoint(r, n, items);
    LoggableLines(items);
    if r.log != "" {
      LogFileRoundTripIff(n, items);
      assert "" + FileText(n, items) == FileText(n, items);
    } else {
      DoubledLine(n, items);
    }
  }

  lemma {:induction false} DoubledLine(n: nat, items: seq<Item>)
    requires AllLoggable(items)
    ensures MessagesIn((Decimal(n) + ['\n']) + FileText(n, items)) == Messages(items) <==> items == []
  {
    var d := Decimal(n);
    assert (d + ['\n']) + FileText(n, items) == d + (['\n'] + FileText(n, items));
    SplitFirst((d + ['\n']) + FileText(n, items), d, FileText(n, items), '\n');
    ReadOneLine(Reading([], None), FileText(n, items), d, FlushedText(items));
    NumberIsNoMessage(d);
    if items != [] {
      Swallowed(d, items);
    }
  }

  lemma NumberIsNoMessage(d: string)
    requires AllDigits(d)
    ensures ReadLine(Reading([], None), d) == Reading([], Some(d + ['\n']))
  {
    FindCharFinds(d, ' ');
    assert AfterBlank(d) == d;
    DigitsHaveNone(d);
  }

  /** The first entry, index and all, is read as the second line of a message. */
  lemma {:induction false} Swallowed(d: string, items: seq<Item>)
    requires AllDigits(d) && d != "" && AllLoggable(items) && items != []
    ensures ReadLines(Reading([], Some(d + ['\n'])), Lines(FlushedText(items))).done != Messages(items)
  {
    var item, more := items[0], FlushedText(items[1..]);
    var rest := (Decimal(item.index) + [' ']) + item.message;
    var swallowed := Item(0, (d + ['\n']) + rest, item.number);
    SwallowedIsLoggable(d, item);
    RestOfEntry([], d + ['\n'], rest, swallowed, more);
    FlushedFirst(items);
    assert NumberText(swallowed) == NumberText(item);
    assert FlushedText(items) == rest + EntryTail(swallowed, more);
    ReadingExtends(Reading([] + [swallowed.message], None), Lines(more));
    assert |swallowed.message| > |item.message|;
    assert Messages(items)[0] == item.message;
  }

  lemma SwallowedIsLoggable(d: string, item: Item)
    requires AllDigits(d) && d != "" && Loggable(item.message)
    ensures LinesLoggable((d + ['\n']) + ((Decimal(item.index) + [' ']) + item.message))
  {
    var e := Decimal(item.index);
    DigitsHaveNone(d);
    DigitsHaveNone(e);
    SeparatedHasNone(e, ' ', item.message);
    SeparatedHasNone(d, '\n', e + ([' '] + item.message));
    NoneIff(d + (['\n'] + (e + ([' '] + item.message))));
    assert (d + ['\n']) + ((e + [' ']) + item.message) == d + (['\n'] + (e + ([' '] + item.message)));
  }
}
