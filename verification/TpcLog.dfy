/** The 2PC log of a server that becomes primary: what scanning its lines yields, and what the
    recovery that aborts the pending transactions leaves. */
module TpcLog {
  import opened Text
  import opened TpcNode
  import opened TpcNodeSafety

  /** A line of four tokens: `TPC:kind:hash:number`. */
  datatype Entry = Entry(kind: string, hash: string, number: nat)

  /** A line without four tokens is skipped; std::stoi throws on text that has no number. */
  datatype LineResult = Skipped | Read(entry: Entry) | Throws

  function ParseLine(line: string): LineResult {
    var tokens := Split(line, ':');
    if |tokens| != 4 then Skipped
    else if LeadingDigits(tokens[3]) == "" then Throws
    else Read(Entry(tokens[1], tokens[2], Atoi(tokens[3])))
  }

  /** The entries of the lines; None if reading one throws. */
  function ReadLog(lines: seq<string>): Option<seq<Entry>> {
    if lines == [] then Some([])
    else match ReadLog(lines[..|lines| - 1])
      case None => None
      case Some(entries) =>
        match ParseLine(lines[|lines| - 1])
        case Skipped => Some(entries)
        case Throws => None
        case Read(e) => Some(entries + [e])
  }

  predicate Decides(e: Entry) { e.kind == "COMMIT" || e.kind == "ABORT" }
  predicate Prepares(e: Entry) { e.kind == "PREPARE" }

  /** tpc_seq, last_seq and tpc_pending. */
  datatype Scan = Scan(tpcSeq: nat, lastSeq: nat, pending: map<nat, string>)

  function ScanEntry(s: Scan, e: Entry): Scan {
    var s1 := s.(tpcSeq := if s.tpcSeq < e.number then e.number else s.tpcSeq);
    if e.number <= s.lastSeq then s1
    else if Prepares(e) then s1.(pending := s.pending[e.number := e.hash])
    else if Decides(e) then s1.(pending := s.pending - {e.number}, lastSeq := e.number)
    else s1
  }

  function ScanAll(s: Scan, entries: seq<Entry>): Scan {
    if entries == [] then s else ScanEntry(ScanAll(s, entries[..|entries| - 1]), entries[|entries| - 1])
  }

  /** The server's 2PC counters and pending transactions. */
  class TpcState {
    var tpcSeq: nat
    var lastSeq: nat
    var pending: map<nat, string>

    ghost function View(): Scan
      reads this
    {
      Scan(tpcSeq, lastSeq, pending)
    }

    constructor (tpcSeq: nat, lastSeq: nat)
      ensures View() == Scan(tpcSeq, lastSeq, map[])
    {
      this.tpcSeq, this.lastSeq, pending := tpcSeq, lastSeq, map[];
    }

    /** process_tpc_log; ok is false when reading a line threw. */
    method ProcessTpcLog(lines: seq<string>) returns (ok: bool)
      modifies this
      ensures ok <==> ReadLog(lines).Some?
      ensures ok ==> View() == ScanAll(old(View()).(pending := map[]), ReadLog(lines).value)
    {
      pending := map[];
      ghost var start := View();
      var i := 0;
      while i < |lines|
        invariant i <= |lines|
        invariant ReadLog(lines[..i]).Some? && View() == ScanAll(start, ReadLog(lines[..i]).value)
      {
        OneMoreLine(start, lines, i);
        match ParseLine(lines[i]) {
          case Skipped =>
          case Throws =>
            ThrowsForGood(lines, i + 1);
            return false;
          case Read(e) =>
            tpcSeq := if tpcSeq < e.number then e.number else tpcSeq;
            if e.number > lastSeq {
              if e.kind == "PREPARE" {
                pending := pending[e.number := e.hash];
              } else if e.kind == "COMMIT" || e.kind == "ABORT" {
                pending := pending - {e.number};
                lastSeq := if lastSeq < e.number then e.number else lastSeq;
              }
            }
        }
        i := i + 1;
      }
      assert lines[..|lines|] == lines;
      ok := true;
    }
  }

  lemma {:induction false} OneMoreLine(start: Scan, lines: seq<string>, i: nat)
    requires i < |lines| && ReadLog(lines[..i]).Some?
    ensures ParseLine(lines[i]).Skipped? ==> ReadLog(lines[..i + 1]) == ReadLog(lines[..i])
    ensures ParseLine(lines[i]).Throws? ==> ReadLog(lines[..i + 1]) == None
    ensures ParseLine(lines[i]).Read? ==> ReadLog(lines[..i + 1]).Some?
    ensures ParseLine(lines[i]).Read? ==>
      ScanAll(start, ReadLog(lines[..i + 1]).value) ==
        ScanEntry(ScanAll(start, ReadLog(lines[..i]).value), ParseLine(lines[i]).entry)
  {
    assert lines[..i + 1][..i] == lines[..i];
    if ParseLine(lines[i]).Read? {
      var before, e := ReadLog(lines[..i]).value, ParseLine(lines[i]).entry;
      assert (before + [e])[..|before|] == before;
    }
  }

  lemma {:induction false} ThrowsForGood(lines: seq<string>, i: nat)
    requires i <= |lines| && ReadLog(lines[..i]) == None
    ensures ReadLog(lines) == None
    decreases |lines|
  {
    if i < |lines| {
      assert lines[..|lines| - 1][..i] == lines[..i];
      ThrowsForGood(lines[..|lines| - 1], i);
    } else {
      assert lines[..i] == lines;
    }
  }

  // ---------------------------------------------------------------- what the program writes

  function KindText(kind: Status): string {
    match kind case Prepared => "PREPARE" case Commit => "COMMIT" case Abort => "ABORT"
  }

  /** write_to_tpc_log's text of a line. */
  function LineText(line: TpcLine): string {
    "TPC" + ([':'] + (KindText(line.kind) + ([':'] + (line.hash + ([':'] + Decimal(line.number))))))
  }

  function EntryOf(line: TpcLine): Entry { Entry(KindText(line.kind), line.hash, line.number) }

  /** A written line is read back. */
  lemma LineRoundTrip(line: TpcLine)
    requires ':' !in line.hash
    ensures ParseLine(LineText(line)) == Read(EntryOf(line))
  {
    var d := Decimal(line.number);
    var s2 := line.hash + ([':'] + d);
    var s1 := KindText(line.kind) + ([':'] + s2);
    SplitFirst("TPC" + ([':'] + s1), "TPC", s1, ':');
    SplitFirst(s1, KindText(line.kind), s2, ':');
    SplitFirst(s2, line.hash, d, ':');
    SplitLast(d, ':');
    assert Split(LineText(line), ':') == ["TPC", KindText(line.kind), line.hash, d];
    AtoiDecimal(line.number, "");
    LeadingDigitsIs(d, "");
    assert d + "" == d;
  }

  /** A line of four fields is read as the last three of them, in order; it throws if the number does
      not start with a digit. */
  lemma FieldsAreRead(a: string, b: string, c: string, d: string)
    requires ':' !in a && ':' !in b && ':' !in c && ':' !in d && d != ""
    ensures ParseLine(a + ([':'] + (b + ([':'] + (c + ([':'] + d)))))) ==
            if IsDigit(d[0]) then Read(Entry(b, c, Atoi(d))) else Throws
  {
    var s2 := c + ([':'] + d);
    var s1 := b + ([':'] + s2);
    SplitFirst(a + ([':'] + s1), a, s1, ':');
    SplitFirst(s1, b, s2, ':');
    SplitFirst(s2, c, d, ':');
    SplitLast(d, ':');
    assert Split(a + ([':'] + s1), ':') == [a, b, c, d];
  }

  lemma {:induction false} OneMoreField(x: string, rest: string, d: string)
    requires ':' !in x
    ensures Split((x + ([':'] + rest)) + ([':'] + d), ':') == [x] + Split(rest + ([':'] + d), ':')
  {
    assert (x + ([':'] + rest)) + ([':'] + d) == x + ([':'] + (rest + ([':'] + d)));
    SplitFirst((x + ([':'] + rest)) + ([':'] + d), x, rest + ([':'] + d), ':');
  }

  lemma {:induction false} FieldsBefore(head: string, d: string)
    requires d != "" && ':' !in d
    ensures |Split(head + ([':'] + d), ':')| >= if ':' in head then 3 else 2
    decreases |head|
  {
    if ':' in head {
      FindCharFinds(head, ':');
      var i := FindChar(head, ':').value;
      FieldsBefore(head[i + 1..], d);
      OneMoreField(head[..i], head[i + 1..], d);
      assert head == head[..i] + ([':'] + head[i + 1..]);
    } else {
      SplitFirst(head + ([':'] + d), head, d, ':');
      SplitLast(d, ':');
    }
  }

  /** A written line is read back exactly if its hash has no ':'; else it is skipped. */
  lemma LineIsReadIff(line: TpcLine)
    ensures ParseLine(LineText(line)) == if ':' in line.hash then Skipped else Read(EntryOf(line))
  {
    if ':' in line.hash {
      var s1 := line.hash + ([':'] + Decimal(line.number));
      var s := KindText(line.kind) + ([':'] + s1);
      SplitFirst("TPC" + ([':'] + s), "TPC", s, ':');
      SplitFirst(s, KindText(line.kind), s1, ':');
      FieldsBefore(line.hash, Decimal(line.number));
    } else {
      LineRoundTrip(line);
    }
  }

  /** At most three fields in front of a cut that is not behind the third colon. */
  lemma ThreeFields(a: string, b: string, c: string, k: nat)
    requires ':' !in a && ':' !in b && ':' !in c
    requires k <= |a + ([':'] + (b + ([':'] + (c + [':']))))|
    ensures |Split((a + ([':'] + (b + ([':'] + (c + [':'])))))[..k], ':')| <= 3
  {
    var s2 := c + [':'];
    var s1 := b + ([':'] + s2);
    FieldOrCut(a, s1, k);
    if k > |a| {
      FieldOrCut(b, s2, k - |a| - 1);
      if k - |a| - 1 > |b| {
        assert s2 == c + ([':'] + "");
        FieldOrCut(c, "", k - |a| - 1 - |b| - 1);
      }
    }
  }

  lemma FieldOrCut(x: string, rest: string, k: nat)
    requires ':' !in x && k <= |x| + 1 + |rest|
    ensures var s := x + ([':'] + rest);
      if k <= |x| then |Split(s[..k], ':')| <= 1 else Split(s[..k], ':') == [x] + Split(rest[..k - |x| - 1], ':')
  {
    var s := x + ([':'] + rest);
    if k <= |x| {
      assert s[..k] == x[..k];
      if k > 0 { SplitLast(s[..k], ':'); }
    } else {
      assert s[..k] == x + ([':'] + rest[..k - |x| - 1]);
      SplitFirst(s[..k], x, rest[..k - |x| - 1], ':');
    }
  }

  /** A line that a crash cut off is skipped if nothing of its number was written, and read with the
      number that is left otherwise; it never throws. */
  lemma TornLineIsRead(line: TpcLine, k: nat)
    requires ':' !in line.hash && k <= |LineText(line)|
    ensures var start := |LineText(line)| - |Decimal(line.number)|;
      ParseLine(LineText(line)[..k]) ==
        if k <= start then Skipped
        else Read(Entry(KindText(line.kind), line.hash, Atoi(Decimal(line.number)[..k - start])))
  {
    var d, kind := Decimal(line.number), KindText(line.kind);
    var head := "TPC" + ([':'] + (kind + ([':'] + (line.hash + [':']))));
    HeadOfLine("TPC", kind, line.hash, d);
    if k <= |head| {
      assert LineText(line)[..k] == head[..k];
      ThreeFields("TPC", kind, line.hash, k);
    } else {
      var left := d[..k - |head|];
      assert LineText(line)[..k] == head + left;
      HeadOfLine("TPC", kind, line.hash, left);
      FieldsAreRead("TPC", kind, line.hash, left);
    }
  }

  lemma HeadOfLine(a: string, b: string, c: string, d: string)
    ensures a + ([':'] + (b + ([':'] + (c + ([':'] + d))))) == (a + ([':'] + (b + ([':'] + (c + [':']))))) + d
  {
  }

  /** Reading a log throws exactly if one of its lines does. */
  lemma {:induction false} ReadLogThrowsIff(lines: seq<string>)
    ensures ReadLog(lines) == None <==> exists i :: 0 <= i < |lines| && ParseLine(lines[i]).Throws?
  {
    if lines != [] {
      var n := |lines| - 1;
      ReadLogThrowsIff(lines[..n]);
      if ReadLog(lines[..n]) == None {
        var i :| 0 <= i < n && ParseLine(lines[..n][i]).Throws?;
        assert ParseLine(lines[i]).Throws?;
      } else {
        assert forall i :: 0 <= i < n ==> !ParseLine(lines[..n][i]).Throws?;
      }
    }
  }

  // ---------------------------------------------------------------- what the scan yields

  /** m is the start value or one of the numbers, and not below any of them. */
  ghost predicate IsHighest(m: nat, start: nat, entries: seq<Entry>, counts: Entry -> bool) {
    && m >= start
    && (forall i :: 0 <= i < |entries| && counts(entries[i]) ==> entries[i].number <= m)
    && (m == start || exists i :: 0 <= i < |entries| && counts(entries[i]) && entries[i].number == m)
  }

  lemma HighestStep(m: nat, start: nat, entries: seq<Entry>, counts: Entry -> bool, e: Entry)
    requires IsHighest(m, start, entries, counts)
    ensures IsHighest(if counts(e) && e.number > m then e.number else m, start, entries + [e], counts)
  {
    var more := entries + [e];
    assert more[|entries|] == e;
    if m != start {
      var i :| 0 <= i < |entries| && counts(entries[i]) && entries[i].number == m;
      assert more[i] == entries[i];
    }
  }

  /** The position of the first decision with a number that is at least x. */
  function FirstDecision(entries: seq<Entry>, x: nat): (f: nat)
    ensures f <= |entries|
    ensures f < |entries| ==> Decides(entries[f]) && entries[f].number >= x
  {
    if entries == [] then 0
    else
      var n := |entries| - 1;
      var f := FirstDecision(entries[..n], x);
      if f < n then f else if Decides(entries[n]) && entries[n].number >= x then n else n + 1
  }

  predicate PreparedBefore(entries: seq<Entry>, x: nat, f: nat)
    requires f <= |entries|
  {
    exists i :: 0 <= i < f && Prepares(entries[i]) && entries[i].number == x
  }

  /** x was prepared before the first decision that is not below it, and that decision, if there is
      one, is not on x. */
  predicate LeftPending(entries: seq<Entry>, x: nat) {
    var f := FirstDecision(entries, x);
    PreparedBefore(entries, x, f) && (f == |entries| || entries[f].number != x)
  }

  /** The scan's state after some entries, in terms of the entries. */
  ghost predicate ScanIs(s: Scan, start: Scan, entries: seq<Entry>) {
    && IsHighest(s.lastSeq, start.lastSeq, entries, Decides)
    && IsHighest(s.tpcSeq, start.tpcSeq, entries, e => true)
    && (forall x :: x > s.lastSeq <==> x > start.lastSeq && FirstDecision(entries, x) == |entries|)
    && (forall x :: x in s.pending <==> x > start.lastSeq && LeftPending(entries, x))
  }

  lemma {:induction false} LastSeqStep(s: Scan, start: Scan, entries: seq<Entry>, e: Entry, x: nat)
    requires x > s.lastSeq <==> x > start.lastSeq && FirstDecision(entries, x) == |entries|
    ensures x > ScanEntry(s, e).lastSeq <==> x > start.lastSeq && FirstDecision(entries + [e], x) == |entries| + 1
  {
  }

  /** x and the number of the new entry have been related to last_seq; now they are to pending. */
  lemma {:induction false} PendingStep(s: Scan, start: Scan, entries: seq<Entry>, e: Entry, x: nat)
    requires x > s.lastSeq <==> x > start.lastSeq && FirstDecision(entries, x) == |entries|
    requires x in s.pending <==> x > start.lastSeq && LeftPending(entries, x)
    ensures x in ScanEntry(s, e).pending <==> x > start.lastSeq && LeftPending(entries + [e], x)
  {
  }

  lemma ScanStep(s: Scan, start: Scan, entries: seq<Entry>, e: Entry)
    requires ScanIs(s, start, entries)
    ensures ScanIs(ScanEntry(s, e), start, entries + [e])
  {
    HighestStep(s.lastSeq, start.lastSeq, entries, Decides, e);
    HighestStep(s.tpcSeq, start.tpcSeq, entries, e => true, e);
    ScanEntryCounters(s, e);
    forall x: nat
      ensures x > ScanEntry(s, e).lastSeq <==> x > start.lastSeq && FirstDecision(entries + [e], x) == |entries + [e]|
      ensures x in ScanEntry(s, e).pending <==> x > start.lastSeq && LeftPending(entries + [e], x)
    {
      LastSeqStep(s, start, entries, e, x);
      PendingStep(s, start, entries, e, x);
    }
  }

  lemma ScanEntryCounters(s: Scan, e: Entry)
    ensures ScanEntry(s, e).tpcSeq == if e.number > s.tpcSeq then e.number else s.tpcSeq
    ensures ScanEntry(s, e).lastSeq == if Decides(e) && e.number > s.lastSeq then e.number else s.lastSeq
  {
  }

  lemma {:induction false} ScanYields(start: Scan, entries: seq<Entry>)
    requires start.pending == map[]
    ensures ScanIs(ScanAll(start, entries), start, entries)
  {
    if entries != [] {
      var n := |entries| - 1;
      ScanYields(start, entries[..n]);
      ScanStep(ScanAll(start, entries[..n]), start, entries[..n], entries[n]);
      assert entries[..n] + [entries[n]] == entries;
    }
  }

  // ---------------------------------------------------------------- recovery

  /** Not yet decided at the server, as far as it knows. */
  predicate Undecided(n: Node, s: nat) {
    s > n.lastSeq && s !in n.queued && (s in n.queue ==> n.queue[s].status == Prepared)
  }

  lemma {:induction false} DrainKeepsUndecided(p: Program, n: Node, s: nat)
    requires Undecided(n, s)
    ensures Undecided(Drain(p, n), s)
    decreases |TpcNode.Above(n)|
  {
    if n.health == Up && HeadDecided(n) {
      ProcessNextShrinks(p, n);
      ProcessNextEffect(p, n);
      ProcessNextLogs(p, n);
      DrainKeepsUndecided(p, ProcessNext(p, n), s);
    }
  }

  lemma DecideKeepsUndecided(p: Program, n: Node, s: nat, hash: string, commit: bool, other: nat)
    requires Undecided(n, other) && other != s
    ensures Undecided(Decide(p, n, s, hash, commit), other)
  {
    if !AlreadyProcessed(n, s) { DrainKeepsUndecided(p, Marked(n, s, hash, commit), other); }
  }

  /** Decided for good: no later handler changes it, and it is not waiting to be committed. */
  predicate NeverCommits(n: Node, s: nat) {
    (s <= n.lastSeq || s in n.queued) && (s in n.queue && s > n.lastSeq ==> n.queue[s].status != Commit)
  }

  lemma {:induction false} DrainKeepsNever(p: Program, n: Node, s: nat)
    requires NeverCommits(n, s)
    ensures NeverCommits(Drain(p, n), s)
    decreases |TpcNode.Above(n)|
  {
    if n.health == Up && HeadDecided(n) {
      ProcessNextShrinks(p, n);
      ProcessNextEffect(p, n);
      ProcessNextLogs(p, n);
      DrainKeepsNever(p, ProcessNext(p, n), s);
    }
  }

  lemma AbortMakesNever(p: Program, n: Node, s: nat, hash: string)
    requires Undecided(n, s)
    ensures NeverCommits(Decide(p, n, s, hash, false), s)
  {
    DrainKeepsNever(p, Marked(n, s, hash, false), s);
  }

  lemma DecideKeepsNever(p: Program, n: Node, s: nat, hash: string, commit: bool, other: nat)
    requires NeverCommits(n, other)
    ensures NeverCommits(Decide(p, n, s, hash, commit), other)
    ensures s == other ==> Decide(p, n, s, hash, commit) == n
  {
    if !AlreadyProcessed(n, s) { DrainKeepsNever(p, Marked(n, s, hash, commit), other); }
  }

  /** The loop of tpc_primary_recovery_function over the pending transactions, in any order;
      `aborted` are the numbers for which an ABORT was broadcast. */
  method AbortPending(p: Program, n: Node, pending: map<nat, string>) returns (m: Node, aborted: set<nat>)
    requires forall s :: s in pending && s > n.lastSeq ==> Undecided(n, s)
    ensures aborted == set s | s in pending && s > n.lastSeq
    ensures forall s :: s in aborted ==> NeverCommits(m, s)
    ensures forall s :: s in pending ==> AlreadyProcessed(m, s)
    ensures m.lastSeq >= n.lastSeq
  {
    m, aborted := n, {};
    var left := pending.Keys;
    while left != {}
      invariant left <= pending.Keys && m.lastSeq >= n.lastSeq
      invariant aborted == set s | s in pending && s !in left && s > n.lastSeq
      invariant forall s :: s in aborted ==> NeverCommits(m, s)
      invariant forall s :: s in left && s > n.lastSeq ==> Undecided(m, s)
      decreases left
    {
      var s :| s in left;
      var next := Decide(p, m, s, pending[s], false);
      AbortOne(p, n, m, pending, left, aborted, s);
      if !AlreadyProcessed(m, s) { aborted := aborted + {s}; }
      m, left := next, left - {s};
    }
    assert forall s :: s in pending ==> s <= n.lastSeq || s in aborted;
  }

  lemma AbortOne(p: Program, n: Node, m: Node, pending: map<nat, string>, left: set<nat>, aborted: set<nat>, s: nat)
    requires s in left && left <= pending.Keys && m.lastSeq >= n.lastSeq
    requires forall x :: x in aborted ==> NeverCommits(m, x)
    requires forall x :: x in left && x > n.lastSeq ==> Undecided(m, x)
    ensures var next := Decide(p, m, s, pending[s], false);
      && next.lastSeq >= m.lastSeq
      && (AlreadyProcessed(m, s) <==> s <= n.lastSeq)
      && (s > n.lastSeq ==> NeverCommits(next, s))
      && (forall x :: x in aborted ==> NeverCommits(next, x))
      && forall x :: x in left - {s} && x > n.lastSeq ==> Undecided(next, x)
  {
    var next := Decide(p, m, s, pending[s], false);
    forall x | x in aborted ensures NeverCommits(next, x) { DecideKeepsNever(p, m, s, pending[s], false, x); }
    forall x | x in left - {s} && x > n.lastSeq ensures Undecided(next, x) {
      DecideKeepsUndecided(p, m, s, pending[s], false, x);
    }
    if s > n.lastSeq { AbortMakesNever(p, m, s, pending[s]); }
    DecideMarks(p, m, s, pending[s], false);
  }

  // ---------------------------------------------------------------- what can happen afterwards

  datatype Handler =
    | Deciding(s: nat, hash: string, commit: bool)
    | Preparing(s: nat, hash: string, command: string, recovering: bool)
    | Starting(hash: string, command: string)

  function Handle(p: Program, n: Node, h: Handler): Node {
    match h
    case Deciding(s, hash, commit) => Decide(p, n, s, hash, commit)
    case Preparing(s, hash, command, recovering) => OnPrepare(p, n, s, hash, command, recovering).0
    case Starting(hash, command) => Start(n, hash, command)
  }

  function HandleAll(p: Program, n: Node, hs: seq<Handler>): Node {
    if hs == [] then n else Handle(p, HandleAll(p, n, hs[..|hs| - 1]), hs[|hs| - 1])
  }

  lemma HandleKeepsNever(p: Program, n: Node, h: Handler, s: nat)
    requires NeverCommits(n, s)
    ensures NeverCommits(Handle(p, n, h), s)
  {
    match h
    case Deciding(x, hash, commit) => DecideKeepsNever(p, n, x, hash, commit, s);
    case Preparing(x, hash, command, recovering) =>
    case Starting(hash, command) =>
  }

  // ---------------------------------------------------------------- main results

  /** Scanning any list of log lines: last_seq is the highest decided number, tpc_seq the highest
      number of all; above last_seq the pending transactions are exactly the prepared ones, and
      none of those was decided; up to last_seq pending are those that were prepared before the
      first decision that is not below them, when that decision is on a higher number. */
  lemma {:induction false} TpcLogScan(start: Scan, entries: seq<Entry>)
    requires start.pending == map[]
    ensures var r := ScanAll(start, entries);
      && IsHighest(r.lastSeq, start.lastSeq, entries, Decides)
      && IsHighest(r.tpcSeq, start.tpcSeq, entries, e => true)
      && (start.lastSeq <= start.tpcSeq ==> r.lastSeq <= r.tpcSeq)
      && (forall x :: x > r.lastSeq ==> (x in r.pending <==> PreparedBefore(entries, x, |entries|)))
      && forall x :: x <= r.lastSeq ==> (x in r.pending <==> x > start.lastSeq && LeftPending(entries, x))
  {
    ScanYields(start, entries);
  }

  /** A number can stay pending below last_seq: its abort is then skipped as already processed. */
  lemma LeftoverExample(h: string)
    ensures ScanAll(Scan(0, 0, map[]), [Entry("PREPARE", h, 1), Entry("PREPARE", h, 2), Entry("COMMIT", h, 2)])
         == Scan(2, 2, map[1 := h])
  {
    var e1, e2, e3 := Entry("PREPARE", h, 1), Entry("PREPARE", h, 2), Entry("COMMIT", h, 2);
    assert [e1, e2, e3][..2] == [e1, e2] && [e1, e2][..1] == [e1] && [e1][..0] == [];
    assert ScanAll(Scan(0, 0, map[]), [e1]) == Scan(1, 0, map[1 := h]);
    assert ScanAll(Scan(0, 0, map[]), [e1, e2]) == Scan(2, 0, map[1 := h, 2 := h]);
    assert map[1 := h, 2 := h] - {2} == map[1 := h];
  }

  /** Whatever handlers run after the recovery, an aborted number is never waiting to be committed
      and a commit for it changes nothing. */
  lemma {:induction false} AbortedNeverCommits(p: Program, m: Node, hs: seq<Handler>, s: nat, hash: string)
    requires NeverCommits(m, s)
    ensures NeverCommits(HandleAll(p, m, hs), s)
    ensures Decide(p, HandleAll(p, m, hs), s, hash, true) == HandleAll(p, m, hs)
  {
    if hs == [] {
      DecideKeepsNever(p, m, s, hash, true, s);
    } else {
      var before := HandleAll(p, m, hs[..|hs| - 1]);
      AbortedNeverCommits(p, m, hs[..|hs| - 1], s, hash);
      HandleKeepsNever(p, before, hs[|hs| - 1], s);
      DecideKeepsNever(p, HandleAll(p, m, hs), s, hash, true, s);
    }
  }

  predicate Met(n: Node, s: nat) { s in n.queue || s <= n.lastSeq }

  lemma {:induction false} DrainKeepsMet(p: Program, n: Node, s: nat)
    requires p.drainRepaired && Met(n, s)
    ensures Met(Drain(p, n), s)
    decreases |TpcNode.Above(n)|
  {
    if n.health == Up && HeadDecided(n) {
      ProcessNextShrinks(p, n);
      ProcessNextEffect(p, n);
      DrainKeepsMet(p, ProcessNext(p, n), s);
    }
  }

  lemma {:induction false} HandlersKeepMet(p: Program, n: Node, hs: seq<Handler>, s: nat)
    requires (p.drainRepaired || hs == []) && Met(n, s)
    ensures Met(HandleAll(p, n, hs), s)
  {
    if hs != [] {
      var before := HandleAll(p, n, hs[..|hs| - 1]);
      HandlersKeepMet(p, n, hs[..|hs| - 1], s);
      match hs[|hs| - 1]
      case Deciding(x, hash, commit) =>
        if !AlreadyProcessed(before, x) { DrainKeepsMet(p, Marked(before, x, hash, commit), s); }
      case _ =>
    }
  }

  /** A second PREPARE for a number gets no vote and changes nothing: at once, and with the repaired
      draining whatever was handled in between. */
  lemma {:induction false} PreparedOnce(p: Program, n: Node, first: Handler, hs: seq<Handler>, again: Handler)
    requires first.Preparing? && again.Preparing? && again.s == first.s && (p.drainRepaired || hs == [])
    ensures var m := HandleAll(p, Handle(p, n, first), hs);
      OnPrepare(p, m, again.s, again.hash, again.command, again.recovering) == (m, None)
  {
    HandlersKeepMet(p, Handle(p, n, first), hs, first.s);
  }

  /** A number is decided once: whatever is handled after a decision that was taken, a second one
      changes nothing. */
  lemma {:induction false} DecidedOnce(
      p: Program, n: Node, s: nat, hash: string, commit: bool, hs: seq<Handler>, hash2: string, commit2: bool)
    requires !AlreadyProcessed(n, s)
    ensures var m := HandleAll(p, Decide(p, n, s, hash, commit), hs);
      s in m.queued && Decide(p, m, s, hash2, commit2) == m
  {
    DecideMarks(p, n, s, hash, commit);
    if hs != [] {
      var before := HandleAll(p, Decide(p, n, s, hash, commit), hs[..|hs| - 1]);
      DecidedOnce(p, n, s, hash, commit, hs[..|hs| - 1], hash2, commit2);
      match hs[|hs| - 1]
      case Deciding(x, h, c) => DecideMarks(p, before, x, h, c);
      case _ =>
    }
  }

  /** The number that draining waits for is not in the queue and will not be assigned again. */
  predicate Stalled(n: Node) {
    n.lastSeq + 1 !in n.queue && n.tpcSeq > n.lastSeq
  }

  predicate AtPrimary(h: Handler) { !h.Preparing? }

  lemma StalledStays(p: Program, n: Node, h: Handler)
    requires Stalled(n) && AtPrimary(h)
    ensures Stalled(Handle(p, n, h)) && Handle(p, n, h).lastSeq == n.lastSeq
  {
  }

  /** A pending number above last_seq that is not in the primary's queue stops it: whatever it
      starts and decides afterwards, nothing is processed any more. */
  lemma {:induction false} StalledForever(p: Program, n: Node, hs: seq<Handler>)
    requires Stalled(n) && forall i :: 0 <= i < |hs| ==> AtPrimary(hs[i])
    ensures Stalled(HandleAll(p, n, hs)) && HandleAll(p, n, hs).lastSeq == n.lastSeq
  {
    if hs != [] {
      StalledForever(p, n, hs[..|hs| - 1]);
      StalledStays(p, HandleAll(p, n, hs[..|hs| - 1]), hs[|hs| - 1]);
    }
  }

  /** A primary that comes up with an empty queue processes its first transaction once it is
      decided if and only if its log has no number above the highest decided one. */
  lemma FreshPrimaryMovesIff(p: Program, n: Node, hash: string, command: string, commit: bool)
    requires n.queue == map[] && n.health == Up && n.lastSeq <= n.tpcSeq && n.tpcSeq + 1 !in n.queued
    ensures var m := Decide(p, Start(n, hash, command), n.tpcSeq + 1, hash, commit);
      m.lastSeq > n.lastSeq <==> n.tpcSeq == n.lastSeq
  {
    var s := n.tpcSeq + 1;
    var n1 := Start(n, hash, command);
    var n2 := Marked(n1, s, hash, commit);
    if n.tpcSeq == n.lastSeq {
      assert HeadDecided(n2);
      ProcessNextEffect(p, n2);
      DrainKeepsQueued(p, ProcessNext(p, n2));
    } else {
      assert n2.lastSeq + 1 !in n2.queue;
    }
  }
}
