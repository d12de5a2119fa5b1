/** A server of the epoch takes over as primary: the lines it wrote to its 2PC log are read back and
    scanned, and the recovery loop aborts what the scan leaves pending. */
module TpcTakeOver {
  import opened Text
  import opened Commands
  import opened TpcNode
  import opened TpcNodeSafety
  import opened TpcSystem
  import opened TpcAgreement
  import opened TpcClients
  import opened TpcLog
  import opened TpcPrepared

  // ---------------------------------------------------------------- the lines that were written

  function LinesOf(log: seq<TpcLine>): seq<string> {
    if log == [] then [] else LinesOf(log[..|log| - 1]) + [LineText(log[|log| - 1])]
  }

  function EntriesOf(log: seq<TpcLine>): (entries: seq<Entry>)
    ensures |entries| == |log| && forall i :: 0 <= i < |log| ==> entries[i] == EntryOf(log[i])
  {
    if log == [] then [] else EntriesOf(log[..|log| - 1]) + [EntryOf(log[|log| - 1])]
  }

  /** create_hash yields decimal digits; what matters is that a hash has no colon. */
  predicate PlainLines(log: seq<TpcLine>) {
    forall i :: 0 <= i < |log| ==> ':' !in log[i].hash
  }

  lemma {:induction false} LinesReadBack(log: seq<TpcLine>)
    requires PlainLines(log)
    ensures ReadLog(LinesOf(log)) == Some(EntriesOf(log))
  {
    if log != [] {
      var n := |log| - 1;
      LinesReadBack(log[..n]);
      LineRoundTrip(log[n]);
      assert LinesOf(log)[..|LinesOf(log)| - 1] == LinesOf(log[..n]);
    }
  }

  predicate PlainActions(actions: seq<Action>) {
    forall i :: 0 <= i < |actions| && (actions[i].WriteAtPrimary? || actions[i].WriteAtReplica?) ==>
        ':' !in actions[i].hash
  }

  lemma {:induction false} LogIsPlain(p: Program, base: nat, table: Table, actions: seq<Action>, n: Node)
    requires IsNode(Run(p, base, table, actions), n) && PlainActions(actions)
    ensures PlainLines(n.tpcLog)
  {
    var sys := Run(p, base, table, actions);
    RunSafe(p, base, table, actions);
    RunClients(p, base, table, actions);
    assert NodeOk(p, sys.ground, n);
    forall i | 0 <= i < |n.tpcLog| ensures ':' !in n.tpcLog[i].hash {
      assert LineOk(sys.ground, n.tpcLog[i]);
      assert AsAccepted(sys.accepted, n.tpcLog[i].hash, sys.ground.started[n.tpcLog[i].number].command);
      RunSent(p, base, table, actions, n.tpcLog[i].hash);
    }
  }

  // ---------------------------------------------------------------- what the scan leaves

  /** The server's memory when it scans: a server that was started again has none of its queue, its
      marks and its counters. */
  function Memory(n: Node, restarted: bool): Node {
    if restarted
    then n.(health := Up, lastSeq := 0, tpcSeq := 0, queue := map[], queued := {}, locks := map[], desk := NO_DESK)
    else n
  }

  function ScanOf(n: Node, restarted: bool): Scan {
    ScanAll(Scan(Memory(n, restarted).tpcSeq, Memory(n, restarted).lastSeq, map[]), EntriesOf(n.tpcLog))
  }

  /** The server as the scan leaves it. */
  function Scanned(n: Node, restarted: bool): Node {
    Memory(n, restarted).(tpcSeq := ScanOf(n, restarted).tpcSeq, lastSeq := ScanOf(n, restarted).lastSeq)
  }

  predicate PreparedInLog(log: seq<TpcLine>, s: nat) {
    exists i :: 0 <= i < |log| && log[i].number == s && log[i].kind == Prepared
  }

  lemma KindsAreRead(line: TpcLine)
    ensures Decides(EntryOf(line)) <==> line.kind != Prepared
    ensures Prepares(EntryOf(line)) <==> line.kind == Prepared
  {
    assert "PREPARE"[0] == 'P' && "COMMIT"[0] == 'C' && "ABORT"[0] == 'A';
  }

  /** The scan is not below what the log says is decided. */
  lemma LoggedIsPassed(n: Node, restarted: bool, s: nat)
    requires DecidedInLog(n.tpcLog, s)
    ensures s <= ScanOf(n, restarted).lastSeq
  {
    var log := n.tpcLog;
    TpcLogScan(Scan(Memory(n, restarted).tpcSeq, Memory(n, restarted).lastSeq, map[]), EntriesOf(log));
    var line :| line in log && line.number == s && line.kind != Prepared;
    var i :| 0 <= i < |log| && log[i] == line;
    KindsAreRead(line);
    assert Decides(EntriesOf(log)[i]);
  }

  lemma NothingAboveIsDecided(n: Node, restarted: bool, s: nat)
    requires MarksLogged(n) && s > ScanOf(n, restarted).lastSeq
    ensures Undecided(Scanned(n, restarted), s)
  {
    if s in n.queued || (s in n.queue && n.queue[s].status != Prepared) { LoggedIsPassed(n, restarted, s); }
  }

  lemma PendingIsPrepared(n: Node, restarted: bool, s: nat)
    requires s > ScanOf(n, restarted).lastSeq
    ensures s in ScanOf(n, restarted).pending <==> PreparedInLog(n.tpcLog, s)
  {
    var entries := EntriesOf(n.tpcLog);
    TpcLogScan(Scan(Memory(n, restarted).tpcSeq, Memory(n, restarted).lastSeq, map[]), entries);
    forall i | 0 <= i < |entries| ensures Prepares(entries[i]) <==> n.tpcLog[i].kind == Prepared {
      KindsAreRead(n.tpcLog[i]);
    }
    if PreparedInLog(n.tpcLog, s) {
      var i :| 0 <= i < |n.tpcLog| && n.tpcLog[i].number == s && n.tpcLog[i].kind == Prepared;
      assert Prepares(entries[i]) && entries[i].number == s;
    }
  }

  // ---------------------------------------------------------------- main result

  /** process_tpc_log and the loop of tpc_primary_recovery_function, at a server whose log has all that
      it decided. */
  method Recover(p: Program, n: Node, restarted: bool) returns (m: Node, aborted: set<nat>)
    requires MarksLogged(n) && PlainLines(n.tpcLog)
    ensures forall s :: s in aborted <==> s > ScanOf(n, restarted).lastSeq && PreparedInLog(n.tpcLog, s)
    ensures forall s :: s in aborted ==> NeverCommits(m, s)
  {
    LinesReadBack(n.tpcLog);
    var state := new TpcState(Memory(n, restarted).tpcSeq, Memory(n, restarted).lastSeq);
    var ok := state.ProcessTpcLog(LinesOf(n.tpcLog));
    assert ok && state.View() == ScanOf(n, restarted);
    var pending := state.pending;
    var scanned := Memory(n, restarted).(tpcSeq := state.tpcSeq, lastSeq := state.lastSeq);
    ScanIsSafe(n, restarted);
    assert scanned == Scanned(n, restarted) && pending == ScanOf(n, restarted).pending;
    m, aborted := AbortPending(p, scanned, pending);
  }

  lemma ScanIsSafe(n: Node, restarted: bool)
    requires MarksLogged(n)
    ensures forall s :: s > ScanOf(n, restarted).lastSeq ==> Undecided(Scanned(n, restarted), s)
    ensures forall s :: s > ScanOf(n, restarted).lastSeq ==>
              (s in ScanOf(n, restarted).pending <==> PreparedInLog(n.tpcLog, s))
  {
    forall s: nat | s > ScanOf(n, restarted).lastSeq
      ensures Undecided(Scanned(n, restarted), s) && (s in ScanOf(n, restarted).pending <==> PreparedInLog(n.tpcLog, s))
    {
      NothingAboveIsDecided(n, restarted, s);
      PendingIsPrepared(n, restarted, s);
    }
  }

  /** Every server of every run keeps such a log, and it reads back. */
  lemma {:induction false} LogInRun(p: Program, base: nat, table: Table, actions: seq<Action>, n: Node)
    requires IsNode(Run(p, base, table, actions), n) && PlainActions(actions)
    ensures MarksLogged(n) && PlainLines(n.tpcLog) && ReadLog(LinesOf(n.tpcLog)) == Some(EntriesOf(n.tpcLog))
  {
    RunSafe(p, base, table, actions);
    LogIsPlain(p, base, table, actions, n);
    LinesReadBack(n.tpcLog);
  }

  /** What the server took part in preparing: what it has queued, what it started as the primary, and
      what it voted on as a replica. */
  ghost predicate TookPart(sys: System, n: Node, s: nat) {
    || s in n.queue
    || (n == sys.primary && s in sys.ground.started)
    || exists r :: r in sys.replicas && sys.replicas[r] == n && VotedOn(sys.ballots, s, r)
  }

  lemma {:induction false} TakingPartIsLogged(
      p: Program, base: nat, table: Table, actions: seq<Action>, n: Node, s: nat)
    requires IsNode(Run(p, base, table, actions), n) && TookPart(Run(p, base, table, actions), n, s)
    ensures PreparedInLog(n.tpcLog, s)
  {
    RunLogged(p, base, table, actions);
    TookPartLogged(Run(p, base, table, actions), n, s);
  }

  lemma TookPartLogged(sys: System, n: Node, s: nat)
    requires LoggedSystem(sys) && IsNode(sys, n) && TookPart(sys, n, s)
    ensures PreparedInLog(n.tpcLog, s)
  {
    if s in n.queue {
      assert QueueLogged(n);
      InLog(n.tpcLog, s, n.queue[s].hash);
    } else if n == sys.primary && s in sys.ground.started {
      assert HasPrepared(n, s, sys.ground.started[s].hash);
      InLog(n.tpcLog, s, sys.ground.started[s].hash);
    } else {
      var r :| r in sys.replicas && sys.replicas[r] == n && VotedOn(sys.ballots, s, r);
      assert ReplicaLogged(sys.ground, sys.ballots, r, n);
      InLog(n.tpcLog, s, sys.ground.started[s].hash);
    }
  }

  lemma InLog(log: seq<TpcLine>, s: nat, hash: string)
    requires TpcLine(Prepared, hash, s) in log
    ensures PreparedInLog(log, s)
  {
  }

  lemma {:induction false} PreparedWasStarted(
      p: Program, base: nat, table: Table, actions: seq<Action>, n: Node, s: nat)
    requires IsNode(Run(p, base, table, actions), n) && PreparedInLog(n.tpcLog, s)
    ensures s in Run(p, base, table, actions).ground.started
  {
    RunSafe(p, base, table, actions);
    assert NodeOk(p, Run(p, base, table, actions).ground, n);
    var i :| 0 <= i < |n.tpcLog| && n.tpcLog[i].number == s && n.tpcLog[i].kind == Prepared;
    assert LineOk(Run(p, base, table, actions).ground, n.tpcLog[i]);
  }

  /** Taking over, for any server of any run, with its memory or started again: reading the log throws
      nothing; above every number this server knows to be decided the recovery loop aborts all that it
      took part in preparing, and nothing that was not started; none of it is committed later, whatever
      handlers run. */
  method TakeOver(p: Program, ghost base: nat, ghost table: Table, ghost actions: seq<Action>, n: Node, restarted: bool)
    returns (m: Node, aborted: set<nat>)
    requires IsNode(Run(p, base, table, actions), n) && PlainActions(actions)
    ensures forall s :: s in aborted <==> s > ScanOf(n, restarted).lastSeq && PreparedInLog(n.tpcLog, s)
    ensures forall s :: s > ScanOf(n, restarted).lastSeq && TookPart(Run(p, base, table, actions), n, s) ==>
              s in aborted
    ensures forall s :: s in aborted ==> s in Run(p, base, table, actions).ground.started
    ensures forall s: nat :: s in n.queued ==> s <= ScanOf(n, restarted).lastSeq
    ensures forall s, hs, hash :: s in aborted ==> Decide(p, HandleAll(p, m, hs), s, hash, true) == HandleAll(p, m, hs)
    ensures forall s, hs :: s in aborted ==> NeverCommits(HandleAll(p, m, hs), s)
  {
    LogInRun(p, base, table, actions, n);
    m, aborted := Recover(p, n, restarted);
    forall s | s > ScanOf(n, restarted).lastSeq && TookPart(Run(p, base, table, actions), n, s) ensures s in aborted {
      TakingPartIsLogged(p, base, table, actions, n, s);
    }
    forall s | s in aborted ensures s in Run(p, base, table, actions).ground.started {
      PreparedWasStarted(p, base, table, actions, n, s);
    }
    forall s: nat | s in n.queued ensures s <= ScanOf(n, restarted).lastSeq { LoggedIsPassed(n, restarted, s); }
    forall s, hs, hash | s in aborted ensures Decide(p, HandleAll(p, m, hs), s, hash, true) == HandleAll(p, m, hs) {
      AbortedNeverCommits(p, m, hs, s, hash);
    }
    forall s, hs | s in aborted ensures NeverCommits(HandleAll(p, m, hs), s) { AbortedNeverCommits(p, m, hs, s, ""); }
  }
}
