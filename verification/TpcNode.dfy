/** One storage server's part of two-phase commit, as a value: its transaction queue,
    row locks, table, logs and client bookkeeping, and what each handler does to them. */
module TpcNode {
  import opened Collections
  import opened Text
  import opened Commands

  /** What the handlers are run with: for queue draining and for the unlock of an ABORT, the
      program's way or the one its comments describe; and the meaning of command texts. */
  datatype Program = Program(
    drainRepaired: bool,
    unlockRepaired: bool,
    execute: (string, Table) -> Option<Table>,
    lockKey: string -> Option<Key>,
    abortKey: string -> Key,
    releasesLock: string -> bool,
    rowOf: string -> string)

  const AS_WRITTEN := Program(false, false, Execute, LockKey, AbortKey, ReleasesLock, Row)
  const REPAIRED := AS_WRITTEN.(drainRepaired := true, unlockRepaired := true)

  datatype Status = Prepared | Commit | Abort

  datatype Transaction = Transaction(status: Status, command: string, hash: string)

  /** Hung: the queue mutex was leaked by an early return, so every later handler blocks.
      Terminated: an uncaught exception ended the process. */
  datatype Health = Up | Hung | Terminated

  /** A processed transaction. */
  datatype Decision = Decision(commit: bool, command: string, hash: string)

  /** A line of the 2PC log file. */
  datatype TpcLine = TpcLine(kind: Status, hash: string, number: nat)

  /** An entry of the message queue: a write that waits for its outcome. */
  datatype Client = Client(fromFrontend: bool, fd: nat, row: string)

  datatype Reply = Reply(hash: string, fd: nat, ok: bool)

  /** A line handed to the tablet log: the command and the number written behind it. */
  datatype Logged = Logged(command: string, number: nat)

  /** Client bookkeeping: msg_queue, the tablets under checkpoint, checkpoint_queue, and the
      replies written to clients. */
  datatype Desk = Desk(clients: map<string, Client>, checkpointing: set<nat>, deferred: seq<Reply>, replies: seq<Reply>)

  /** `locks` maps each held row lock to the transaction that took it, `history` lists what was
      processed and `foreign` the numbers of those ABORTs that found the row lock of their key
      held by another transaction; the program keeps none of this, the statements need it. */
  datatype Node = Node(
    health: Health,
    lastSeq: nat,
    tpcSeq: nat,
    queue: map<nat, Transaction>,
    queued: set<nat>,
    locks: map<Key, nat>,
    table: Table,
    wal: seq<Logged>,
    tpcLog: seq<TpcLine>,
    desk: Desk,
    history: seq<Decision>,
    foreign: set<nat>)

  /** get_tablet: the byte sum of the row, up to a NUL, modulo 5. */
  function ByteSum(row: string): nat {
    if row == "" || row[0] == 0 as char then 0
    else row[0] as nat % 256 + ByteSum(row[1..])
  }

  function TabletOf(row: string): nat { ByteSum(row) % 5 }

  predicate NoNul(s: string) { forall i :: 0 <= i < |s| ==> s[i] != 0 as char }

  lemma {:induction false} ByteSumConcat(a: string, b: string)
    requires NoNul(a)
    ensures ByteSum(a + b) == ByteSum(a) + ByteSum(b)
    decreases |a|
  {
    if a == "" {
      assert a + b == b;
    } else {
      assert (a + b)[1..] == a[1..] + b;
      ByteSumConcat(a[1..], b);
    }
  }

  /** The tablet of one character is its byte modulo 5, tablets of texts add up modulo 5, and what is
      behind a NUL does not count. */
  lemma TabletOfText(a: string, b: string, c: char)
    requires NoNul(a)
    ensures TabletOf(a + b) == (TabletOf(a) + TabletOf(b)) % 5
    ensures TabletOf(a + ([0 as char] + b)) == TabletOf(a)
    ensures TabletOf("") == 0 && TabletOf([c]) == c as nat % 256 % 5
  {
    ByteSumConcat(a, b);
    SumsModFive(ByteSum(a), ByteSum(b));
    ByteSumConcat(a, [0 as char] + b);
    ByteSumOne(c);
  }

  lemma SumsModFive(x: nat, y: nat)
    ensures (x + y) % 5 == (x % 5 + y % 5) % 5
  {
  }

  lemma ByteSumOne(c: char)
    ensures ByteSum([c]) == c as nat % 256
  {
    assert [c][1..] == "";
  }

  // ---------------------------------------------------------------- handlers

  predicate AlreadyProcessed(n: Node, s: nat) {
    s <= n.lastSeq || (s in n.queue && n.queue[s].status != Prepared) || s in n.queued
  }

  /** get_command_locks on behalf of transaction s: malformed text or a held lock refuses. */
  function Acquire(p: Program, n: Node, s: nat, command: string): (r: (Node, bool))
    ensures r.0 == n.(locks := r.0.locks)
  {
    match p.lockKey(command)
    case None => (n, false)
    case Some(key) => if key in n.locks then (n, false) else (n.(locks := n.locks[key := s]), true)
  }

  /** Sends the outcome to the client that contacted this server, or defers it while the
      tablet of the remembered row is being checkpointed. */
  function Answer(d: Desk, hash: string, ok: bool): Desk {
    if hash !in d.clients || !d.clients[hash].fromFrontend then d
    else
      var c := d.clients[hash];
      var reply := Reply(hash, c.fd, ok);
      if TabletOf(c.row) in d.checkpointing then d.(clients := d.clients - {hash}, deferred := d.deferred + [reply])
      else d.(clients := d.clients - {hash}, replies := d.replies + [reply])
  }

  predicate HeldByOther(p: Program, locks: map<Key, nat>, s: nat, command: string) {
    p.abortKey(command) in locks && locks[p.abortKey(command)] != s
  }

  /** The row locks after transaction s on `command` was decided. The program unlocks
      without asking who holds the lock; repaired, an ABORT leaves a foreign lock alone. */
  function Unlocked(p: Program, locks: map<Key, nat>, s: nat, command: string, commit: bool): map<Key, nat> {
    var key := p.abortKey(command);
    if commit then (if p.releasesLock(command) then locks - {key} else locks)
    else if p.unlockRepaired && HeldByOther(p, locks, s, command) then locks
    else locks - {key}
  }

  function Trespass(p: Program, locks: map<Key, nat>, s: nat, t: Transaction): set<nat> {
    if t.status != Commit && HeldByOther(p, locks, s, t.command) then {s} else {}
  }

  predicate HeadDecided(n: Node) {
    n.lastSeq + 1 in n.queue && n.queue[n.lastSeq + 1].status != Prepared
  }

  function Outcome(t: Transaction): Decision {
    Decision(t.status == Commit, t.command, t.hash)
  }

  /** One turn of the loop of process_tpc_queue: the program increments the number before
      it erases and logs with it. */
  function ProcessNext(p: Program, n: Node): Node
    requires HeadDecided(n)
  {
    var s := n.lastSeq + 1;
    var t := n.queue[s];
    var next := if p.drainRepaired then s else s + 1;
    var result := if t.status == Commit then p.execute(t.command, n.table) else Some(n.table);
    var n1 := n.(lastSeq := s, queue := n.queue - {next}, history := n.history + [Outcome(t)],
                 wal := if t.status == Commit then n.wal + [Logged(t.command, next)] else n.wal);
    if result.None? then n1.(health := Terminated)
    else n1.(table := result.value, locks := Unlocked(p, n.locks, s, t.command, t.status == Commit),
             desk := Answer(n.desk, t.hash, t.status == Commit), foreign := n.foreign + Trespass(p, n.locks, s, t))
  }

  function Above(n: Node): set<nat> {
    set s | s in n.queue && s > n.lastSeq
  }

  /** process_tpc_queue. */
  function Drain(p: Program, n: Node): Node
    decreases |Above(n)|
  {
    if n.health != Up || n.lastSeq + 1 !in n.queue then n
    else if !HeadDecided(n) then (if !p.drainRepaired then n.(health := Hung) else n)
    else
      ProcessNextShrinks(p, n);
      Drain(p, ProcessNext(p, n))
  }

  lemma ProcessNextShrinks(p: Program, n: Node)
    requires HeadDecided(n)
    ensures |Above(ProcessNext(p, n))| < |Above(n)|
  {
    var n' := ProcessNext(p, n);
    assert Above(n') <= Above(n) - {n.lastSeq + 1};
    SubsetSize(Above(n'), Above(n) - {n.lastSeq + 1});
  }

  /** Number s is marked, logged and, if it is queued, decided there. */
  function Marked(n: Node, s: nat, hash: string, commit: bool): Node {
    var status := if commit then Commit else Abort;
    var n1 := n.(queued := n.queued + {s}, tpcLog := n.tpcLog + [TpcLine(status, hash, s)]);
    if s in n.queue then n1.(queue := n.queue[s := n.queue[s].(status := status)]) else n1
  }

  /** A decision for s reaches a server: the replica's COMMIT/ABORT handler, and the part of
      primary_commit_transaction and primary_abort_transaction that is not the broadcast. */
  function Decide(p: Program, n: Node, s: nat, hash: string, commit: bool): Node {
    if AlreadyProcessed(n, s) then n else Drain(p, Marked(n, s, hash, commit))
  }

  /** The replica's PREPARE handler; the vote is None when the message is ignored. */
  function OnPrepare(p: Program, n: Node, s: nat, hash: string, command: string, recovering: bool): (Node, Option<bool>)
  {
    if s in n.queue || n.lastSeq >= s then (n, None)
    else
      var n1 := n.(tpcLog := n.tpcLog + [TpcLine(Prepared, hash, s)],
                   tpcSeq := if n.tpcSeq < s then s else n.tpcSeq,
                   queue := n.queue[s := Transaction(Prepared, command, hash)]);
      var (n2, success) := Acquire(p, n1, s, command);
      (n2, Some(success && !recovering))
  }

  /** start_tpc at the primary, with the next sequence number. */
  function Start(n: Node, hash: string, command: string): Node {
    var s := n.tpcSeq + 1;
    n.(tpcSeq := s, queue := n.queue[s := Transaction(Prepared, command, hash)],
       tpcLog := n.tpcLog + [TpcLine(Prepared, hash, s)])
  }

  /** Remembers a write under its hash. */
  function Remember(d: Desk, hash: string, c: Client): Desk {
    d.(clients := d.clients[hash := c])
  }

  /** send_queued_messages. */
  function SendDeferred(d: Desk): Desk {
    d.(replies := d.replies + d.deferred, deferred := [])
  }

  // ---------------------------------------------------------------- what draining does

  /** The table after the processed transactions: commits execute in order, aborts do
      nothing, an uncaught exception is None. */
  function TableOf(p: Program, history: seq<Decision>, t: Table): Option<Table> {
    if history == [] then Some(t)
    else
      var last := history[|history| - 1];
      match TableOf(p, history[..|history| - 1], t)
      case None => None
      case Some(u) => if last.commit then p.execute(last.command, u) else Some(u)
  }

  lemma {:induction false} TableOfConcat(p: Program, a: seq<Decision>, b: seq<Decision>, t: Table)
    ensures TableOf(p, a + b, t) == match TableOf(p, a, t) case None => None case Some(u) => TableOf(p, b, u)
  {
    if b == [] {
      assert a + b == a;
    } else {
      TableOfConcat(p, a, b[..|b| - 1], t);
      assert (a + b)[..|a + b| - 1] == a + b[..|b| - 1];
    }
  }

  predicate DecidedIn(queue: map<nat, Transaction>, s: nat) {
    s in queue && queue[s].status != Prepared
  }

  /** The queued transactions numbered from+1 .. last. */
  function Entries(queue: map<nat, Transaction>, from: nat, last: nat): seq<Decision>
    requires from <= last && forall s :: from < s <= last ==> DecidedIn(queue, s)
    decreases last - from
  {
    if from == last then []
    else
      assert DecidedIn(queue, from + 1);
      [Outcome(queue[from + 1])] + Entries(queue, from + 1, last)
  }

  /** From n to m exactly the maximal run of decided entries after lastSeq was processed:
      in order, once each, only commits changed the table, every other entry stayed. */
  ghost predicate ProcessedMaximalRun(p: Program, n: Node, m: Node) {
    && n.lastSeq <= m.lastSeq
    && (forall s :: n.lastSeq < s <= m.lastSeq ==> DecidedIn(n.queue, s))
    && (m.health == Up ==> !DecidedIn(n.queue, m.lastSeq + 1))
    && m.health != Hung
    && (forall s :: s in m.queue <==> s in n.queue && !(n.lastSeq < s <= m.lastSeq))
    && (forall s :: s in m.queue ==> m.queue[s] == n.queue[s])
    && m.history == n.history + Entries(n.queue, n.lastSeq, m.lastSeq)
    && TableOf(p, Entries(n.queue, n.lastSeq, m.lastSeq), n.table) == (if m.health == Up then Some(m.table) else None)
  }

  lemma {:induction false} EntriesFrame(q1: map<nat, Transaction>, q2: map<nat, Transaction>, from: nat, last: nat)
    requires from <= last
    requires forall s :: from < s <= last ==> DecidedIn(q1, s) && s in q2 && q2[s] == q1[s]
    ensures forall s :: from < s <= last ==> DecidedIn(q2, s)
    ensures Entries(q1, from, last) == Entries(q2, from, last)
    decreases last - from
  {
    forall s | from < s <= last ensures DecidedIn(q2, s) { assert DecidedIn(q1, s); }
    if from < last {
      EntriesFrame(q1, q2, from + 1, last);
    }
  }

  lemma {:induction false} TableOfOne(p: Program, d: Decision, t: Table)
    ensures TableOf(p, [d], t) == if d.commit then p.execute(d.command, t) else Some(t)
  {
  }

  /** What one turn does besides answering a client, unlocking and logging. */
  predicate TurnEffect(p: Program, n: Node, m: Node) {
    HeadDecided(n) &&
    var t := n.queue[n.lastSeq + 1];
    && m.lastSeq == n.lastSeq + 1
    && m.history == n.history + [Outcome(t)]
    && m.queue == n.queue - {if p.drainRepaired then n.lastSeq + 1 else n.lastSeq + 2}
    && var result := if t.status == Commit then p.execute(t.command, n.table) else Some(n.table);
    if result.None? then m.health == Terminated && m.table == n.table
    else m.health == n.health && m.table == result.value
  }

  lemma ProcessNextEffect(p: Program, n: Node)
    requires HeadDecided(n)
    ensures TurnEffect(p, n, ProcessNext(p, n))
  {
  }

  /** A run that starts with the head and goes on from the next node. */
  lemma MaximalRunStep(p: Program, n: Node, n1: Node, m: Node)
    requires p.drainRepaired && n.health == Up && n1.health == Up
    requires TurnEffect(p, n, n1) && ProcessedMaximalRun(p, n1, m)
    ensures ProcessedMaximalRun(p, n, m)
  {
    var head := Outcome(n.queue[n.lastSeq + 1]);
    forall s | n.lastSeq < s <= m.lastSeq ensures DecidedIn(n.queue, s) {
      assert s > n.lastSeq + 1 ==> DecidedIn(n1.queue, s);
    }
    forall s | n1.lastSeq < s <= m.lastSeq ensures DecidedIn(n1.queue, s) && s in n.queue && n.queue[s] == n1.queue[s] {
      assert DecidedIn(n.queue, s);
    }
    assert DecidedIn(n.queue, m.lastSeq + 1) ==> DecidedIn(n1.queue, m.lastSeq + 1);
    EntriesFrame(n1.queue, n.queue, n1.lastSeq, m.lastSeq);
    var rest := Entries(n1.queue, n1.lastSeq, m.lastSeq);
    assert Entries(n.queue, n.lastSeq, m.lastSeq) == [head] + rest;
    HeadThenRest(p, n, n1, head, rest);
  }

  lemma {:induction false} HeadThenRest(p: Program, n: Node, n1: Node, head: Decision, rest: seq<Decision>)
    requires n1.history == n.history + [head]
    requires (if head.commit then p.execute(head.command, n.table) else Some(n.table)) == Some(n1.table)
    ensures TableOf(p, [head] + rest, n.table) == TableOf(p, rest, n1.table)
    ensures n1.history + rest == n.history + ([head] + rest)
  {
    TableOfOne(p, head, n.table);
    TableOfConcat(p, [head], rest, n.table);
    Associative(n.history, [head], rest);
  }

  /** What the repaired loop processes. */
  lemma {:induction false} DrainIsMaximalRun(p: Program, n: Node)
    requires p.drainRepaired && n.health == Up
    ensures ProcessedMaximalRun(p, n, Drain(p, n))
    decreases |Above(n)|
  {
    if HeadDecided(n) {
      var n1 := ProcessNext(p, n);
      ProcessNextShrinks(p, n);
      ProcessNextEffect(p, n);
      if n1.health == Up {
        DrainIsMaximalRun(p, n1);
        MaximalRunStep(p, n, n1, Drain(p, n1));
      } else {
        TableOfOne(p, Outcome(n.queue[n.lastSeq + 1]), n.table);
        assert Entries(n.queue, n.lastSeq, n.lastSeq + 1) == [Outcome(n.queue[n.lastSeq + 1])];
      }
    }
  }

  /** The loop of the program: at most one entry is processed, the entry behind it is lost,
      the processed entry stays, and an undecided head leaks the mutex. */
  lemma {:induction false} DrainAsWrittenIsOneStep(p: Program, n: Node)
    requires !p.drainRepaired && n.health == Up
    ensures HeadDecided(n) ==>
      Drain(p, n) == ProcessNext(p, n) && Drain(p, n).lastSeq == n.lastSeq + 1 &&
      Drain(p, n).queue == n.queue - {n.lastSeq + 2}
    ensures !HeadDecided(n) ==>
      Drain(p, n) == n.(health := if n.lastSeq + 1 in n.queue then Hung else Up)
  {
    if HeadDecided(n) {
      var n1 := ProcessNext(p, n);
      assert n1.lastSeq + 1 !in n1.queue;
    }
  }

  /** Two outcomes that agree on everything a later transaction depends on. */
  ghost predicate SameProgress(m: Node, k: Node) {
    m.health == k.health && m.lastSeq == k.lastSeq && m.table == k.table && m.history == k.history &&
    forall s :: s > k.lastSeq ==> (s in m.queue <==> s in k.queue)
  }

  lemma OneStepProgressIff(p: Program, q: Program, n: Node, m: Node, k: Node)
    requires !p.drainRepaired && q == p.(drainRepaired := true) && HeadDecided(n)
    requires TurnEffect(p, n, m) && ProcessedMaximalRun(q, n, k) && k.lastSeq > n.lastSeq
    requires n.lastSeq + 2 !in n.queue ==> TurnEffect(q, n, k)
    ensures SameProgress(m, k) <==> n.lastSeq + 2 !in n.queue
  {
  }

  /** The program's loop does what its comments ask exactly when the head of the queue is
      absent, or is decided with nothing behind it. */
  lemma {:induction false} AsWrittenMeetsIntentIff(p: Program, q: Program, n: Node)
    requires !p.drainRepaired && q == p.(drainRepaired := true) && n.health == Up
    ensures SameProgress(Drain(p, n), Drain(q, n)) <==>
            (n.lastSeq + 1 !in n.queue || (HeadDecided(n) && n.lastSeq + 2 !in n.queue))
  {
    DrainAsWrittenIsOneStep(p, n);
    if HeadDecided(n) {
      DrainIsMaximalRun(q, n);
      DrainAdvances(q, n);
      ProcessNextEffect(p, n);
      ProcessNextEffect(q, n);
      OneStepProgressIff(p, q, n, Drain(p, n), Drain(q, n));
    }
  }

  lemma {:induction false} DrainAdvances(q: Program, n: Node)
    requires q.drainRepaired && n.health == Up && HeadDecided(n)
    ensures Drain(q, n).lastSeq > n.lastSeq
    ensures n.lastSeq + 2 !in n.queue ==> Drain(q, n) == ProcessNext(q, n)
  {
    ProcessNextEffect(q, n);
    var n1 := ProcessNext(q, n);
    if n1.health == Up { DrainIsMaximalRun(q, n1); }
  }
}
