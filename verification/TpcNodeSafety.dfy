/** What every handler keeps of one server, relative to what the primary has started and
    decided so far. */
module TpcNodeSafety {
  import opened Text
  import opened Commands
  import opened TpcNode

  datatype Started = Started(hash: string, command: string)

  /** The common ground of an epoch: the number and table it begins with, the transactions
      started and the decisions taken. */
  datatype Ground = Ground(base: nat, baseTable: Table, started: map<nat, Started>, decided: map<nat, bool>)

  predicate Extends<K, V(==)>(m: map<K, V>, m': map<K, V>) {
    forall k :: k in m ==> k in m' && m'[k] == m[k]
  }

  predicate Settled(g: Ground, s: nat) {
    s in g.started && s in g.decided
  }

  function DecisionOn(g: Ground, s: nat): Decision
    requires Settled(g, s)
  {
    Decision(g.decided[s], g.started[s].command, g.started[s].hash)
  }

  predicate TransactionOk(g: Ground, s: nat, t: Transaction) {
    s in g.started && Started(t.hash, t.command) == g.started[s] &&
    (t.status != Prepared ==> s in g.decided && g.decided[s] == (t.status == Commit))
  }

  predicate QueueOk(g: Ground, n: Node) {
    forall s :: s in n.queue ==> TransactionOk(g, s, n.queue[s]) && s <= n.tpcSeq
  }

  /** The i-th processed transaction of the epoch. */
  predicate EntryOk(g: Ground, i: nat, d: Decision) {
    Settled(g, g.base + 1 + i) && d == DecisionOn(g, g.base + 1 + i)
  }

  predicate HistoryOk(g: Ground, n: Node) {
    && n.lastSeq == g.base + |n.history|
    && n.lastSeq <= n.tpcSeq
    && forall i :: 0 <= i < |n.history| ==> EntryOk(g, i, n.history[i])
  }

  /** The table is the epoch's table after the committed commands, in order. */
  predicate TableOk(p: Program, g: Ground, n: Node) {
    TableOf(p, n.history, g.baseTable) == if n.health == Terminated then None else Some(n.table)
  }

  predicate LineOk(g: Ground, line: TpcLine) {
    line.number in g.started && line.hash == g.started[line.number].hash &&
    (line.kind != Prepared ==> line.number in g.decided && g.decided[line.number] == (line.kind == Commit))
  }

  predicate LogOk(g: Ground, n: Node) {
    forall i :: 0 <= i < |n.tpcLog| ==> LineOk(g, n.tpcLog[i])
  }

  predicate DecidedInLog(lines: seq<TpcLine>, s: nat) {
    exists line :: line in lines && line.number == s && line.kind != Prepared
  }

  /** What is marked, and what is decided in the queue, was written to the 2PC log. */
  predicate MarksLogged(n: Node) {
    && (forall s :: s in n.queued ==> DecidedInLog(n.tpcLog, s))
    && (forall s :: s in n.queue && n.queue[s].status != Prepared ==> s in n.queued)
  }

  /** The tablet log: each committed command once, in order; the program writes the number
      that follows the transaction's own. */
  function WalOf(p: Program, base: nat, history: seq<Decision>): seq<Logged> {
    if history == [] then []
    else
      var last := history[|history| - 1];
      var rest := WalOf(p, base, history[..|history| - 1]);
      if last.commit then rest + [Logged(last.command, base + |history| + (if p.drainRepaired then 0 else 1))] else rest
  }

  predicate NodeOk(p: Program, g: Ground, n: Node) {
    QueueOk(g, n) && HistoryOk(g, n) && TableOk(p, g, n) && LogOk(g, n) && MarksLogged(n) &&
    n.wal == WalOf(p, g.base, n.history)
  }

  // ---------------------------------------------------------------- preservation

  lemma NodeOkExtends(p: Program, g: Ground, g': Ground, n: Node)
    requires NodeOk(p, g, n)
    requires g'.base == g.base && g'.baseTable == g.baseTable
    requires Extends(g.started, g'.started) && Extends(g.decided, g'.decided)
    ensures NodeOk(p, g', n)
  {
  }

  /** Row locks and client bookkeeping are not what the invariant speaks of. */
  lemma NodeOkFrame(p: Program, g: Ground, n: Node, m: Node)
    requires NodeOk(p, g, n) && m == n.(locks := m.locks, desk := m.desk)
    ensures NodeOk(p, g, m)
  {
  }

  predicate TurnLogs(p: Program, n: Node, m: Node) {
    HeadDecided(n) &&
    var t := n.queue[n.lastSeq + 1];
    && m.tpcSeq == n.tpcSeq && m.tpcLog == n.tpcLog && m.queued == n.queued
    && m.wal == if t.status == Commit
                then n.wal + [Logged(t.command, if p.drainRepaired then n.lastSeq + 1 else n.lastSeq + 2)] else n.wal
  }

  lemma ProcessNextLogs(p: Program, n: Node)
    requires HeadDecided(n)
    ensures TurnLogs(p, n, ProcessNext(p, n))
  {
  }

  lemma TurnQueueOk(p: Program, g: Ground, n: Node, m: Node)
    requires QueueOk(g, n) && HistoryOk(g, n) && TurnEffect(p, n, m) && TurnLogs(p, n, m)
    ensures QueueOk(g, m) && HistoryOk(g, m)
  {
  }

  lemma TurnTableOk(p: Program, g: Ground, n: Node, m: Node)
    requires TableOk(p, g, n) && n.health == Up && TurnEffect(p, n, m)
    ensures TableOk(p, g, m)
  {
  }

  lemma {:induction false} TurnWalOk(p: Program, g: Ground, n: Node, m: Node)
    requires n.lastSeq == g.base + |n.history| && TurnEffect(p, n, m) && TurnLogs(p, n, m)
    requires n.wal == WalOf(p, g.base, n.history)
    ensures m.wal == WalOf(p, g.base, m.history)
  {
  }

  lemma ProcessNextOk(p: Program, g: Ground, n: Node)
    requires NodeOk(p, g, n) && HeadDecided(n) && n.health == Up
    ensures NodeOk(p, g, ProcessNext(p, n))
  {
    ProcessNextEffect(p, n);
    ProcessNextLogs(p, n);
    var m := ProcessNext(p, n);
    TurnQueueOk(p, g, n, m);
    TurnTableOk(p, g, n, m);
    TurnWalOk(p, g, n, m);
    assert LogOk(g, m) && MarksLogged(m);
  }

  lemma MarkedIsLogged(n: Node, s: nat, hash: string, commit: bool)
    requires MarksLogged(n)
    ensures MarksLogged(Marked(n, s, hash, commit))
  {
    var m := Marked(n, s, hash, commit);
    var line := TpcLine(if commit then Commit else Abort, hash, s);
    forall x | x in m.queued ensures DecidedInLog(m.tpcLog, x) {
      if x == s {
        assert line in m.tpcLog;
      } else {
        assert DecidedInLog(n.tpcLog, x);
      }
    }
  }

  lemma MoreLines(n: Node, m: Node, line: TpcLine)
    requires MarksLogged(n) && m.queued == n.queued && m.tpcLog == n.tpcLog + [line]
    requires forall s :: s in m.queue && m.queue[s].status != Prepared ==> s in n.queue && n.queue[s] == m.queue[s]
    ensures MarksLogged(m)
  {
    forall x | x in m.queued ensures DecidedInLog(m.tpcLog, x) { assert DecidedInLog(n.tpcLog, x); }
  }

  lemma {:induction false} DrainOk(p: Program, g: Ground, n: Node)
    requires NodeOk(p, g, n)
    ensures NodeOk(p, g, Drain(p, n))
    decreases |Above(n)|
  {
    if n.health == Up && HeadDecided(n) {
      ProcessNextOk(p, g, n);
      ProcessNextShrinks(p, n);
      DrainOk(p, g, ProcessNext(p, n));
    }
  }

  lemma DecideOk(p: Program, g: Ground, n: Node, s: nat, hash: string, commit: bool)
    requires NodeOk(p, g, n)
    requires Settled(g, s) && g.started[s].hash == hash && g.decided[s] == commit
    ensures NodeOk(p, g, Decide(p, n, s, hash, commit))
  {
    if !AlreadyProcessed(n, s) {
      assert s in n.queue ==> TransactionOk(g, s, n.queue[s]);
      MarkedIsLogged(n, s, hash, commit);
      assert NodeOk(p, g, Marked(n, s, hash, commit));
      DrainOk(p, g, Marked(n, s, hash, commit));
    }
  }

  lemma OnPrepareOk(p: Program, g: Ground, n: Node, s: nat, hash: string, command: string, recovering: bool)
    requires NodeOk(p, g, n) && s in g.started && g.started[s] == Started(hash, command)
    ensures NodeOk(p, g, OnPrepare(p, n, s, hash, command, recovering).0)
  {
    if !(s in n.queue || n.lastSeq >= s) {
      MoreLines(n, OnPrepare(p, n, s, hash, command, recovering).0, TpcLine(Prepared, hash, s));
    }
  }

  lemma StartOk(p: Program, g: Ground, n: Node, hash: string, command: string)
    requires NodeOk(p, g, n)
    requires n.tpcSeq + 1 in g.started && g.started[n.tpcSeq + 1] == Started(hash, command)
    ensures NodeOk(p, g, Start(n, hash, command))
  {
    MoreLines(n, Start(n, hash, command), TpcLine(Prepared, hash, n.tpcSeq + 1));
  }

  /** Draining never forgets that a number was decided, and only moves forward. */
  lemma {:induction false} DrainKeepsQueued(p: Program, n: Node)
    ensures Drain(p, n).queued == n.queued && Drain(p, n).tpcSeq == n.tpcSeq
    ensures n.lastSeq <= Drain(p, n).lastSeq
    decreases |Above(n)|
  {
    if n.health == Up && HeadDecided(n) {
      ProcessNextEffect(p, n);
      ProcessNextLogs(p, n);
      ProcessNextShrinks(p, n);
      DrainKeepsQueued(p, ProcessNext(p, n));
    }
  }

  lemma DecideMarks(p: Program, n: Node, s: nat, hash: string, commit: bool)
    ensures !AlreadyProcessed(n, s) ==> Decide(p, n, s, hash, commit).queued == n.queued + {s}
    ensures AlreadyProcessed(n, s) ==> Decide(p, n, s, hash, commit) == n
    ensures Decide(p, n, s, hash, commit).tpcSeq == n.tpcSeq
    ensures n.lastSeq <= Decide(p, n, s, hash, commit).lastSeq
  {
    DrainKeepsQueued(p, Marked(n, s, hash, commit));
  }

  // ---------------------------------------------------------------- agreement of two servers

  /** Two servers of an epoch: the same decision and command for every number both have
      processed; at the same number, the same table or the same crash. */
  lemma NodesAgree(p: Program, g: Ground, a: Node, b: Node)
    requires NodeOk(p, g, a) && NodeOk(p, g, b)
    ensures forall i :: 0 <= i < |a.history| && i < |b.history| ==> a.history[i] == b.history[i]
    ensures a.lastSeq == b.lastSeq ==> a.history == b.history && a.wal == b.wal
    ensures a.lastSeq == b.lastSeq ==> (a.health == Terminated <==> b.health == Terminated)
    ensures a.lastSeq == b.lastSeq && a.health != Terminated ==> a.table == b.table
  {
    forall i | 0 <= i < |a.history| && i < |b.history| ensures a.history[i] == b.history[i] {
      assert EntryOk(g, i, a.history[i]) && EntryOk(g, i, b.history[i]);
    }
    if a.lastSeq == b.lastSeq {
      assert a.history == b.history;
    }
  }
}
