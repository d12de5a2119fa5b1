/** The server process: the globals of the program as fields and its handlers as methods that
    update them, proved against the value-level handlers of TpcNode. */
module TpcServer {
  import opened Text
  import opened Commands
  import opened TpcNode
  import opened TpcNodeSafety

  /** get_tablet. */
  method GetTablet(row: string) returns (tablet: nat)
    ensures tablet == TabletOf(row) < 5
  {
    var sum := 0;
    var i := 0;
    while i < |row| && row[i] != 0 as char
      invariant i <= |row| && sum + ByteSum(row[i..]) == ByteSum(row)
    {
      sum := sum + row[i] as nat % 256;
      i := i + 1;
    }
    tablet := sum % 5;
  }

  class Server {
    const program: Program
    var health: Health
    var lastSeq: nat
    var tpcSeq: nat
    var tpcQueue: map<nat, Transaction>
    var queuedTransactions: set<nat>
    var rowLocks: map<Key, nat>
    var table: Table
    var logQueue: seq<Logged>
    var tpcFile: seq<TpcLine>
    var msgQueue: map<string, Client>
    var checkpointing: set<nat>
    var checkpointQueue: seq<Reply>
    var written: seq<Reply>
    var processed: seq<Decision>
    var foreign: set<nat>

    function TheDesk(): Desk
      reads this
    {
      Desk(msgQueue, checkpointing, checkpointQueue, written)
    }

    function View(): Node
      reads this
    {
      Node(health, lastSeq, tpcSeq, tpcQueue, queuedTransactions, rowLocks, table, logQueue, tpcFile, TheDesk(),
          processed, foreign)
    }

    constructor (p: Program, base: nat, t: Table)
      ensures program == p
      ensures View() == Node(Up, base, base, map[], {}, map[], t, [], [], Desk(map[], {}, [], []), [], {})
    {
      program, health, lastSeq, tpcSeq, table := p, Up, base, base, t;
      tpcQueue, queuedTransactions, rowLocks := map[], {}, map[];
      logQueue, tpcFile, processed, foreign := [], [], [], {};
      msgQueue, checkpointing, checkpointQueue, written := map[], {}, [], [];
    }

    /** get_command_locks: takes the row lock for transaction s if the text names a row and
        nobody holds it. */
    method GetCommandLocks(s: nat, command: string) returns (granted: bool)
      modifies this`rowLocks
      ensures (View(), granted) == Acquire(program, old(View()), s, command)
    {
      match program.lockKey(command) {
        case None => granted := false;
        case Some(key) =>
          granted := key !in rowLocks;
          if granted { rowLocks := rowLocks[key := s]; }
      }
    }

    /** The reply to the frontend at the end of a processed transaction. */
    method AnswerClient(hash: string, ok: bool)
      modifies this`msgQueue, this`checkpointQueue, this`written
      ensures View() == old(View()).(desk := Answer(old(TheDesk()), hash, ok))
    {
      if hash in msgQueue && msgQueue[hash].fromFrontend {
        var msg := msgQueue[hash];
        var reply := Reply(hash, msg.fd, ok);
        var tablet := GetTablet(msg.row);
        if tablet in checkpointing {
          checkpointQueue := checkpointQueue + [reply];
        } else {
          written := written + [reply];
        }
        msgQueue := msgQueue - {hash};
      }
    }

    /** Executes, unlocks and answers; an uncaught exception ends the process. */
    method Finish(s: nat, t: Transaction)
      modifies this`health, this`table, this`rowLocks, this`foreign, this`msgQueue, this`checkpointQueue, this`written
      ensures var commit := t.status == Commit;
        var result := if commit then program.execute(t.command, old(table)) else Some(old(table));
        View() == if result.None? then old(View()).(health := Terminated)
                  else old(View()).(
                    table := result.value, locks := Unlocked(program, old(rowLocks), s, t.command, commit),
                    desk := Answer(old(TheDesk()), t.hash, commit),
                    foreign := old(foreign) + Trespass(program, old(rowLocks), s, t))
    {
      if t.status == Commit {
        var result := program.execute(t.command, table);
        if result.None? {
          health := Terminated;
          return;
        }
        table := result.value;
      }
      foreign := foreign + Trespass(program, rowLocks, s, t);
      rowLocks := Unlocked(program, rowLocks, s, t.command, t.status == Commit);
      AnswerClient(t.hash, t.status == Commit);
    }

    /** One turn of the loop below: the decided head is taken, executed, unlocked and answered; as
        written, the number is incremented before the erasure. */
    method ProcessHead()
      requires HeadDecided(View())
      modifies this
      ensures View() == ProcessNext(program, old(View()))
    {
      var s := lastSeq + 1;
      var t := tpcQueue[s];
      var next := if program.drainRepaired then s else s + 1;
      TakeHead(s, t, next);
      Finish(s, t);
    }

    /** The decided head leaves the queue and is logged. */
    method TakeHead(s: nat, t: Transaction, next: nat)
      modifies this`lastSeq, this`tpcQueue, this`processed, this`logQueue
      ensures View() ==
              old(View()).(
                lastSeq := s, queue := old(tpcQueue) - {next}, history := old(processed) + [Outcome(t)],
                wal := if t.status == Commit then old(logQueue) + [Logged(t.command, next)] else old(logQueue))
    {
      lastSeq := s;
      tpcQueue := tpcQueue - {next};
      processed := processed + [Outcome(t)];
      if t.status == Commit {
        logQueue := logQueue + [Logged(t.command, next)];
      }
    }

    /** process_tpc_queue. The head of the queue is processed while it is decided; as written,
        an undecided head returns with the queue mutex held. */
    method ProcessTpcQueue()
      modifies this
      ensures View() == Drain(program, old(View()))
    {
      while health == Up && lastSeq + 1 in tpcQueue
        invariant Drain(program, View()) == Drain(program, old(View()))
        decreases |Above(View())|
      {
        if tpcQueue[lastSeq + 1].status == Prepared {
          if !program.drainRepaired { health := Hung; }
          return;
        }
        ProcessNextShrinks(program, View());
        ProcessHead();
      }
    }

    /** already_processed. */
    method IsProcessed(s: nat) returns (done: bool)
      ensures done == AlreadyProcessed(View(), s)
    {
      if s <= lastSeq || (s in tpcQueue && tpcQueue[s].status in {Commit, Abort}) {
        return true;
      }
      done := s in queuedTransactions;
    }

    /** The replica's COMMIT/ABORT handler, and what primary_commit_transaction and
        primary_abort_transaction do besides broadcasting. */
    method OnDecision(s: nat, hash: string, commit: bool)
      modifies this
      ensures View() == Decide(program, old(View()), s, hash, commit)
    {
      var done := IsProcessed(s);
      if done { return; }
      var status := if commit then Commit else Abort;
      queuedTransactions := queuedTransactions + {s};
      tpcFile := tpcFile + [TpcLine(status, hash, s)];
      if s in tpcQueue {
        tpcQueue := tpcQueue[s := tpcQueue[s].(status := status)];
      }
      ProcessTpcQueue();
    }

    /** The replica's PREPARE handler; the vote it sends back, if any. */
    method OnPrepareMessage(s: nat, hash: string, command: string, recovering: bool) returns (vote: Option<bool>)
      modifies this
      ensures (View(), vote) == OnPrepare(program, old(View()), s, hash, command, recovering)
    {
      if s in tpcQueue || lastSeq >= s {
        return None;
      }
      tpcFile := tpcFile + [TpcLine(Prepared, hash, s)];
      tpcSeq := if tpcSeq < s then s else tpcSeq;
      tpcQueue := tpcQueue[s := Transaction(Prepared, command, hash)];
      var success := GetCommandLocks(s, command);
      vote := Some(success && !recovering);
    }

    /** start_tpc with the next sequence number. */
    method StartTransaction(hash: string, command: string) returns (s: nat)
      modifies this
      ensures View() == Start(old(View()), hash, command) && s == old(tpcSeq) + 1
    {
      tpcSeq := tpcSeq + 1;
      s := tpcSeq;
      tpcQueue := tpcQueue[s := Transaction(Prepared, command, hash)];
      tpcFile := tpcFile + [TpcLine(Prepared, hash, s)];
    }

    /** The write of a frontend at a primary without replicas. */
    method WriteWithoutReplicas(hash: string, fd: nat, command: string)
      modifies this
      ensures View() == WriteAlone(program, old(View()), hash, fd, command)
    {
      RememberAlone(hash, fd, command);
      var granted := GetCommandLocks(tpcSeq, command);
      if granted {
        ExecuteAlone(hash, command);
      } else {
        RefuseClient(hash, fd);
      }
    }

    method RememberAlone(hash: string, fd: nat, command: string)
      modifies this`tpcSeq, this`msgQueue
      ensures View() == AloneNumbered(program, old(View()), hash, fd, command)
    {
      tpcSeq := tpcSeq + 1;
      msgQueue := msgQueue[hash := Client(true, fd, program.rowOf(command))];
    }

    method RefuseClient(hash: string, fd: nat)
      modifies this`written, this`msgQueue
      ensures View() == old(View()).(desk := Refused(old(TheDesk()), hash, fd))
    {
      written := written + [Reply(hash, fd, false)];
      msgQueue := msgQueue - {hash};
    }

    /** The write takes the next number and is logged with it. */
    method NumberAlone(hash: string, command: string)
      modifies this`lastSeq, this`processed, this`logQueue
      ensures View() ==
              old(View()).(lastSeq := old(lastSeq) + 1, wal := old(logQueue) + [Logged(command, old(lastSeq) + 1)],
                history := old(processed) + [Decision(true, command, hash)])
    {
      lastSeq := lastSeq + 1;
      logQueue := logQueue + [Logged(command, lastSeq)];
      processed := processed + [Decision(true, command, hash)];
    }

    method ExecuteAlone(hash: string, command: string)
      modifies this
      ensures View() == ExecutedAlone(program, old(View()), hash, command)
    {
      NumberAlone(hash, command);
      var result := program.execute(command, table);
      if result.None? {
        health := Terminated;
        return;
      }
      table := result.value;
      rowLocks := Unlocked(program, rowLocks, tpcSeq, command, true);
      AnswerClient(hash, true);
    }

    /** TSEQNUMRETURN: the primary's counters, taken over where they are higher. */
    method OnSequenceNumbers(tseq: nat, last: nat)
      modifies this`tpcSeq, this`lastSeq
      ensures View() == Raised(old(View()), tseq, last)
    {
      tpcSeq := if tseq > tpcSeq then tseq else tpcSeq;
      lastSeq := if last > lastSeq then last else lastSeq;
    }

    /** send_queued_messages: the deferred replies go out first in, first out, once each. */
    method SendQueuedMessages()
      modifies this`checkpointQueue, this`written
      ensures View() == old(View()).(desk := SendDeferred(old(TheDesk())))
    {
      while checkpointQueue != []
        invariant written + checkpointQueue == old(written) + old(checkpointQueue)
        decreases |checkpointQueue|
      {
        written := written + [checkpointQueue[0]];
        checkpointQueue := checkpointQueue[1..];
      }
    }
  }

  // ---------------------------------------------------------------- a primary without replicas

  /** The refusal is written at once, whatever is under checkpoint. */
  function Refused(d: Desk, hash: string, fd: nat): Desk {
    d.(clients := d.clients - {hash}, replies := d.replies + [Reply(hash, fd, false)])
  }

  /** The write has its number and is remembered. */
  function AloneNumbered(p: Program, n: Node, hash: string, fd: nat, command: string): Node {
    n.(tpcSeq := n.tpcSeq + 1, desk := Remember(n.desk, hash, Client(true, fd, p.rowOf(command))))
  }

  /** The branch of the primary's handler that is taken when no replica is connected: the
      write gets sequence number tpcSeq + 1, and, if its lock is granted, is executed under
      last number + 1. */
  function WriteAlone(p: Program, n: Node, hash: string, fd: nat, command: string): Node {
    var n1 := AloneNumbered(p, n, hash, fd, command);
    var (n2, granted) := Acquire(p, n1, n.tpcSeq + 1, command);
    if granted then ExecutedAlone(p, n2, hash, command) else n2.(desk := Refused(n1.desk, hash, fd))
  }

  /** With the lock, which number tpcSeq took. */
  function ExecutedAlone(p: Program, n: Node, hash: string, command: string): Node {
    var n1 := n.(lastSeq := n.lastSeq + 1, wal := n.wal + [Logged(command, n.lastSeq + 1)],
                 history := n.history + [Decision(true, command, hash)]);
    match p.execute(command, n.table)
    case None => n1.(health := Terminated)
    case Some(table) =>
      n1.(table := table, locks := Unlocked(p, n.locks, n.tpcSeq, command, true), desk := Answer(n.desk, hash, true))
  }

  function Raised(n: Node, tseq: nat, last: nat): Node {
    n.(tpcSeq := if tseq > n.tpcSeq then tseq else n.tpcSeq, lastSeq := if last > n.lastSeq then last else n.lastSeq)
  }

  /** Taking over counters changes nothing exactly if they are not above the server's own; neither
      the order nor the repetition of such messages matters. */
  lemma RaisedIsHighest(n: Node, tseq: nat, last: nat, tseq2: nat, last2: nat)
    ensures var m := Raised(n, tseq, last);
      m.tpcSeq >= n.tpcSeq && m.tpcSeq >= tseq && m.lastSeq >= n.lastSeq && m.lastSeq >= last
    ensures Raised(n, tseq, last) == n <==> tseq <= n.tpcSeq && last <= n.lastSeq
    ensures Raised(Raised(n, tseq, last), tseq2, last2) == Raised(Raised(n, tseq2, last2), tseq, last)
    ensures Raised(Raised(n, tseq, last), tseq, last) == Raised(n, tseq, last)
  {
  }

  /** Taking over counters keeps last_seq within tpc_seq; a decided entry that it passes is never
      processed: it stays in the queue whatever is decided later. */
  lemma RaisedSkips(p: Program, n: Node, tseq: nat, last: nat, s: nat, x: nat, hash: string, commit: bool)
    requires n.lastSeq <= n.tpcSeq && last <= tseq
    requires p.drainRepaired && s in n.queue && s <= last
    ensures Raised(n, tseq, last).lastSeq <= Raised(n, tseq, last).tpcSeq
    ensures var m := Decide(p, Raised(n, tseq, last), x, hash, commit); s in m.queue && m.queue[s] == n.queue[s]
  {
    PassedStays(p, Raised(n, tseq, last), x, hash, commit, s);
  }

  lemma PassedStays(p: Program, n: Node, x: nat, hash: string, commit: bool, s: nat)
    requires p.drainRepaired && s in n.queue && s <= n.lastSeq
    ensures var m := Decide(p, n, x, hash, commit); s in m.queue && m.queue[s] == n.queue[s]
  {
    if !AlreadyProcessed(n, x) {
      DrainLeavesPassed(p, Marked(n, x, hash, commit), s);
    }
  }

  lemma {:induction false} DrainLeavesPassed(p: Program, n: Node, s: nat)
    requires p.drainRepaired && s in n.queue && s <= n.lastSeq
    ensures s in Drain(p, n).queue && Drain(p, n).queue[s] == n.queue[s]
    decreases |Above(n)|
  {
    if n.health == Up && HeadDecided(n) {
      ProcessNextShrinks(p, n);
      ProcessNextEffect(p, n);
      DrainLeavesPassed(p, ProcessNext(p, n), s);
    }
  }

  /** The two numberings stay together exactly when the write gets its row lock. */
  lemma WriteAloneKeepsNumberingIff(p: Program, n: Node, hash: string, fd: nat, command: string)
    requires n.lastSeq == n.tpcSeq
    ensures var m := WriteAlone(p, n, hash, fd, command);
      m.lastSeq == m.tpcSeq <==> p.lockKey(command).Some? && p.lockKey(command).value !in n.locks
  {
  }

  /** After a refused write the next transaction gets a number that draining cannot reach: the
      queue has no entry for the number in between. */
  lemma RefusedWriteStallsDraining(
      p: Program, n: Node, h0: string, fd: nat, bad: string, hash: string, command: string, commit: bool)
    requires n.lastSeq == n.tpcSeq && n.health == Up && n.queue == map[] && n.queued == {}
    requires p.lockKey(bad) == None
    ensures var m := Start(WriteAlone(p, n, h0, fd, bad), hash, command);
      Decide(p, m, m.tpcSeq, hash, commit).lastSeq == n.lastSeq
  {
  }

  /** A write that is executed without replicas while the next transaction is in flight takes that
      transaction's number: it counts as processed and is never decided. */
  lemma WriteAloneTakesNumber(
      p: Program, n: Node, h0: string, fd: nat, command: string, hash: string, commit: bool)
    requires p.lockKey(command).Some? && p.lockKey(command).value !in n.locks
    requires n.lastSeq + 1 in n.queue && n.queue[n.lastSeq + 1].status == Prepared
    ensures var m := WriteAlone(p, n, h0, fd, command);
      && m.lastSeq == n.lastSeq + 1 && m.history == n.history + [Decision(true, command, h0)]
      && Decide(p, m, n.lastSeq + 1, hash, commit) == m && n.lastSeq + 1 in m.queue
      && m.queue[n.lastSeq + 1].status == Prepared
  {
    var m := WriteAlone(p, n, h0, fd, command);
    assert AlreadyProcessed(m, n.lastSeq + 1);
  }

  /** Executed without replicas, a write keeps what the server stands for: its table is that of its
      history, its number that of the last entry, and with the repaired draining its tablet log that of
      the history; the lock is free again if the command releases it. Refused, it changes the numbering
      alone. */
  lemma {:induction false} WriteAloneKeepsTable(
      p: Program, n: Node, base: nat, t: Table, hash: string, fd: nat, command: string)
    requires n.health == Up && TableOf(p, n.history, t) == Some(n.table) && n.lastSeq == base + |n.history|
    requires p.drainRepaired ==> n.wal == WalOf(p, base, n.history)
    ensures var m := WriteAlone(p, n, hash, fd, command);
      && TableOf(p, m.history, t) == (if m.health == Terminated then None else Some(m.table))
      && m.lastSeq == base + |m.history| && m.tpcSeq == n.tpcSeq + 1
      && (p.drainRepaired ==> m.wal == WalOf(p, base, m.history))
      && (m.history == n.history ==> m == n.(tpcSeq := m.tpcSeq, desk := m.desk))
      && (m.history == n.history <==> p.lockKey(command) == None || p.lockKey(command).value in n.locks)
  {
    var (n1, granted) := Acquire(p, AloneNumbered(p, n, hash, fd, command), n.tpcSeq + 1, command);
    if granted { ExecutedKeepsTable(p, n1, base, t, hash, command); }
  }

  lemma {:induction false} ExecutedKeepsTable(
      p: Program, n: Node, base: nat, t: Table, hash: string, command: string)
    requires n.health == Up && TableOf(p, n.history, t) == Some(n.table) && n.lastSeq == base + |n.history|
    requires p.drainRepaired ==> n.wal == WalOf(p, base, n.history)
    ensures var m := ExecutedAlone(p, n, hash, command);
      && TableOf(p, m.history, t) == (if m.health == Terminated then None else Some(m.table))
      && m.lastSeq == base + |m.history| && m.tpcSeq == n.tpcSeq
      && (p.drainRepaired ==> m.wal == WalOf(p, base, m.history))
      && |m.history| == |n.history| + 1
  {
    var d := Decision(true, command, hash);
    assert (n.history + [d])[..|n.history|] == n.history;
  }

  /** The row lock of the command is free again afterwards, or held for good if its verb does not
      release it. */
  lemma WriteAloneUnlocks(p: Program, n: Node, hash: string, fd: nat, command: string)
    requires p.lockKey(command) == Some(p.abortKey(command)) && n.health == Up
    ensures var m := WriteAlone(p, n, hash, fd, command);
      m.health == Up && p.releasesLock(command) ==> m.locks == n.locks
    ensures var m := WriteAlone(p, n, hash, fd, command);
      m.health == Up && m.lastSeq > n.lastSeq && !p.releasesLock(command) ==>
        m.locks == n.locks[p.abortKey(command) := n.tpcSeq + 1]
  {
    var key := p.abortKey(command);
    if key !in n.locks { assert n.locks[key := n.tpcSeq + 1] - {key} == n.locks; }
  }

  /** Its client is answered once: +OK, unless the command ends the process, deferred exactly if the
      row's tablet is under checkpoint; a refusal never waits. Nobody else is told anything. */
  lemma WriteAloneAnswers(p: Program, n: Node, hash: string, fd: nat, command: string)
    requires n.health == Up
    ensures var m := WriteAlone(p, n, hash, fd, command);
      var wait := TabletOf(p.rowOf(command)) in n.desk.checkpointing;
      var told := if m.lastSeq == n.lastSeq then [Reply(hash, fd, false)] else [Reply(hash, fd, true)];
      if m.health == Terminated then m.desk.replies == n.desk.replies && m.desk.deferred == n.desk.deferred
      else
        && hash !in m.desk.clients
        && m.desk.clients == n.desk.clients - {hash}
        && m.desk.replies == (if wait && m.lastSeq > n.lastSeq then n.desk.replies else n.desk.replies + told)
        && m.desk.deferred == (if wait && m.lastSeq > n.lastSeq then n.desk.deferred + told else n.desk.deferred)
  {
  }
}
