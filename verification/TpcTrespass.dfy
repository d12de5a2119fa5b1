/** Runs in which an ABORT of the program takes the row lock of another transaction away. */
module TpcTrespass {
  import opened Text
  import opened Commands
  import opened TpcNode
  import opened TpcNodeSafety
  import opened TpcSystem
  import opened TpcMirror
  import opened TpcRowLocks
  import opened TpcLocks
  import opened TpcOneReplica

  /** Two transactions that a replica voted YES for and has not processed want one row, and the
      first of them has lost its lock. */
  predicate TwoVotesForOneRow(p: Program, sys: System, r: Id, s: nat, t: nat)
    requires r in sys.replicas
  {
    && s != t && s > sys.replicas[r].lastSeq && t > sys.replicas[r].lastSeq
    && (s, r) in sys.ballots.yes && (t, r) in sys.ballots.yes
    && s in sys.replicas[r].queue && sys.replicas[r].queue[s].status == Prepared
    && KeyOf(p, sys.ground, s).Some? && KeyOf(p, sys.ground, s) == KeyOf(p, sys.ground, t)
    && !Holds(p, sys.ground, sys.replicas[r], s)
  }

  datatype Request = Request(hash: string, fd: nat, command: string)

  function Sends(w: Request): Move { Writing(w.hash, w.fd, w.command) }

  function Entry(w: Request): Transaction { Transaction(Prepared, w.command, w.hash) }

  predicate Distinct(a: Request, b: Request, c: Request, d: Request) {
    a.hash != b.hash && a.hash != c.hash && a.hash != d.hash && b.hash != c.hash && b.hash != d.hash && c.hash != d.hash
  }

  lemma {:induction false} PlayMove(p: Program, v: View, m: Move, rest: Script)
    requires Possible(v, m)
    ensures Play(p, v, Then(m, rest)) == Play(p, Moved(p, v, m), rest)
  {
  }

  // ---------------------------------------------------------------- ordinary writes, draining repaired

  /** Four writes of one row. The second is refused while the first holds the lock; its ABORT arrives
      when the third has it. */
  function OneRow(w1: Request, w2: Request, w3: Request, w4: Request): Script {
    Then(Sends(w1), Then(Sends(w2), Then(Reading, Then(Reading, OneRowVotes(w3, w4)))))
  }

  function OneRowVotes(w3: Request, w4: Request): Script {
    Then(Counting, Then(Sends(w3), Then(Counting, OneRowReads(w4))))
  }

  function OneRowReads(w4: Request): Script {
    Then(Reading, Then(Reading, Then(Reading, Then(Sends(w4), Then(Reading, Done)))))
  }

  predicate SameRow(p: Program, k: Key, w: Request) {
    p.lockKey(w.command) == Some(k) && p.abortKey(w.command) == k
  }

  /** Both writes were prepared: YES for the first, NO for the second. */
  predicate TwoPrepared(v: View, base: nat, table: Table, k: Key, w1: Request, w2: Request) {
    && v.ground.started == map[base + 1 := Started(w1.hash, w1.command), base + 2 := Started(w2.hash, w2.command)]
    && Waits(v.primary, base, table, base + 2, map[base + 1 := Entry(w1), base + 2 := Entry(w2)], map[])
    && Waits(v.replica, base, table, base + 2, map[base + 1 := Entry(w1), base + 2 := Entry(w2)], map[k := base + 1])
    && v.sent == [Prepare(base + 1, w1.hash, w1.command), Prepare(base + 2, w2.hash, w2.command)] && v.read == 2
    && v.up == [Vote(base + 1, w1.hash, true), Vote(base + 2, w2.hash, false)]
    && v.hashes == {w1.hash, w2.hash} && v.yes == {base + 1}
  }

  predicate Waits(n: Node, last: nat, table: Table, tpcSeq: nat, queue: map<nat, Transaction>, locks: map<Key, nat>) {
    && n.health == Up && n.lastSeq == last && n.table == table && n.tpcSeq == tpcSeq && n.queue == queue
    && n.locks == locks
    && forall s :: s in n.queued ==> s <= last
  }

  /** Two writes have reached the primary. */
  predicate TwoWritten(v: View, base: nat, table: Table, w1: Request, w2: Request) {
    && v.ground.started == map[base + 1 := Started(w1.hash, w1.command), base + 2 := Started(w2.hash, w2.command)]
    && Waits(v.primary, base, table, base + 2, map[base + 1 := Entry(w1), base + 2 := Entry(w2)], map[])
    && Waits(v.replica, base, table, base, map[], map[])
    && v.sent == [Prepare(base + 1, w1.hash, w1.command), Prepare(base + 2, w2.hash, w2.command)] && v.read == 0
    && v.up == [] && v.hashes == {w1.hash, w2.hash} && v.yes == {}
  }

  lemma {:induction false} BothWrite(p: Program, base: nat, table: Table, w1: Request, w2: Request, rest: Script)
    returns (v: View)
    requires w1.hash != w2.hash
    ensures TwoWritten(v, base, table, w1, w2)
    ensures Play(p, Joined(base, table), Then(Sends(w1), Then(Sends(w2), rest))) == Play(p, v, rest)
  {
    var v1 := Writes(p, Joined(base, table), w1.hash, w1.fd, w1.command);
    v := Writes(p, v1, w2.hash, w2.fd, w2.command);
    PlayMove(p, Joined(base, table), Sends(w1), Then(Sends(w2), rest));
    PlayMove(p, v1, Sends(w2), rest);
  }

  lemma BothVote(p: Program, v: View, base: nat, table: Table, k: Key, w1: Request, w2: Request)
    requires SameRow(p, k, w1) && SameRow(p, k, w2) && TwoWritten(v, base, table, w1, w2)
    ensures TwoPrepared(Votes(p, Votes(p, v, base + 1, w1.hash, w1.command), base + 2, w2.hash, w2.command), base,
              table, k, w1, w2)
  {
  }

  lemma {:induction false} BothRead(
      p: Program, v: View, base: nat, table: Table, w1: Request, w2: Request, rest: Script)
    requires TwoWritten(v, base, table, w1, w2)
    ensures Play(p, v, Then(Reading, Then(Reading, rest))) ==
            Play(p, Votes(p, Votes(p, v, base + 1, w1.hash, w1.command), base + 2, w2.hash, w2.command), rest)
  {
    PlayMove(p, v, Reading, Then(Reading, rest));
    PlayMove(p, Votes(p, v, base + 1, w1.hash, w1.command), Reading, rest);
  }

  lemma {:induction false} BothPrepare(
      p: Program, base: nat, table: Table, k: Key, w1: Request, w2: Request, rest: Script)
    returns (v: View)
    requires SameRow(p, k, w1) && SameRow(p, k, w2) && w1.hash != w2.hash
    ensures TwoPrepared(v, base, table, k, w1, w2)
    ensures Play(p, Joined(base, table), Then(Sends(w1), Then(Sends(w2), Then(Reading, Then(Reading, rest))))) ==
            Play(p, v, rest)
  {
    var v2 := BothWrite(p, base, table, w1, w2, Then(Reading, Then(Reading, rest)));
    BothVote(p, v2, base, table, k, w1, w2);
    BothRead(p, v2, base, table, w1, w2, rest);
    v := Votes(p, Votes(p, v2, base + 1, w1.hash, w1.command), base + 2, w2.hash, w2.command);
  }

  /** The first was committed, the third written, and the NO for the second has aborted it. */
  predicate TwoDecided(v: View, base: nat, table: Table, t1: Table, k: Key, w1: Request, w2: Request, w3: Request) {
    && v.ground.started == map[base + 1 := Started(w1.hash, w1.command), base + 2 := Started(w2.hash, w2.command),
                               base + 3 := Started(w3.hash, w3.command)]
    && Waits(v.primary, base + 2, t1, base + 3, map[base + 3 := Entry(w3)], map[])
    && Waits(v.replica, base, table, base + 2, map[base + 1 := Entry(w1), base + 2 := Entry(w2)], map[k := base + 1])
    && v.sent == [Prepare(base + 1, w1.hash, w1.command), Prepare(base + 2, w2.hash, w2.command),
         Decided(base + 1, w1.hash, true),
                  Prepare(base + 3, w3.hash, w3.command), Decided(base + 2, w2.hash, false)]
    && v.read == 2 && v.hashes == {w1.hash, w2.hash, w3.hash} && v.yes == {base + 1}
  }

  lemma CommitsAlone(
      p: Program, n: Node, base: nat, table: Table, tpcSeq: nat, queue: map<nat, Transaction>, locks: map<Key, nat>,
      k: Key, w1: Request)
    requires p.drainRepaired && Waits(n, base, table, tpcSeq, queue, locks) && SameRow(p, k, w1)
    requires p.releasesLock(w1.command)
    requires base + 1 in queue && queue[base + 1] == Entry(w1) && p.execute(w1.command, table).Some?
    requires base + 2 in queue && queue[base + 2].status == Prepared
    ensures Waits(Decide(p, n, base + 1, w1.hash, true), base + 1, p.execute(w1.command, table).value, tpcSeq,
              queue - {base + 1}, locks - {k})
    ensures Decide(p, n, base + 1, w1.hash, true).foreign == n.foreign
  {
    var m := Marked(n, base + 1, w1.hash, true);
    assert HeadDecided(m);
    var m' := ProcessNext(p, m);
    assert m'.queue == queue - {base + 1};
    assert Drain(p, m) == Drain(p, m');
    assert Drain(p, m') == m';
  }

  lemma AbortsAlone(
      p: Program, n: Node, last: nat, table: Table, tpcSeq: nat, queue: map<nat, Transaction>, locks: map<Key, nat>,
      w: Request)
    requires p.drainRepaired && !p.unlockRepaired && Waits(n, last, table, tpcSeq, queue, locks)
    requires last + 1 in queue && queue[last + 1] == Entry(w)
    requires last + 2 in queue ==> queue[last + 2].status == Prepared
    ensures Waits(Decide(p, n, last + 1, w.hash, false), last + 1, table, tpcSeq, queue - {last + 1},
              locks - {p.abortKey(w.command)})
  {
    var m := Marked(n, last + 1, w.hash, false);
    assert HeadDecided(m);
    var m' := ProcessNext(p, m);
    assert m'.queue == queue - {last + 1};
    assert Drain(p, m) == Drain(p, m');
    assert Drain(p, m') == m';
  }

  lemma FirstCounted(p: Program, v: View, base: nat, table: Table, k: Key, w1: Request, w2: Request)
    requires p.drainRepaired && SameRow(p, k, w1) && p.releasesLock(w1.command) && p.execute(w1.command, table).Some?
    requires TwoPrepared(v, base, table, k, w1, w2)
    ensures var v' := Concludes(p, v, base + 1, w1.hash, true);
      && Waits(v'.primary, base + 1, p.execute(w1.command, table).value, base + 2, map[base + 2 := Entry(w2)], map[])
      && v' == v.(ground := v'.ground, primary := v'.primary, sent := v.sent + [Decided(base + 1, w1.hash, true)],
                  up := [Vote(base + 2, w2.hash, false)])
      && v'.ground.started == v.ground.started
  {
    var (n, granted) := Acquire(p, v.primary, base + 1, w1.command);
    CommitsAlone(p, n, base, table, base + 2, n.queue, n.locks, k, w1);
    assert n.queue - {base + 1} == map[base + 2 := Entry(w2)];
    assert n.locks - {k} == map[];
  }

  lemma SecondCounted(p: Program, v: View, base: nat, t1: Table, w2: Request, w3: Request)
    requires p.drainRepaired && !p.unlockRepaired
    requires Waits(v.primary, base + 1, t1, base + 3, map[base + 2 := Entry(w2), base + 3 := Entry(w3)], map[])
    requires v.up == [Vote(base + 2, w2.hash, false)]
    ensures var v' := Concludes(p, v, base + 2, w2.hash, false);
      && Waits(v'.primary, base + 2, t1, base + 3, map[base + 3 := Entry(w3)], map[])
      && v' == v.(ground := v'.ground, primary := v'.primary,
                  sent := v.sent + [Decided(base + 2, w2.hash, false)], up := [])
      && v'.ground.started == v.ground.started
  {
    AbortsAlone(p, v.primary, base + 1, t1, base + 3, v.primary.queue, map[], w2);
    assert v.primary.queue - {base + 2} == map[base + 3 := Entry(w3)];
  }

  lemma ThirdWritten(p: Program, v: View, base: nat, t1: Table, w2: Request, w3: Request)
    requires Waits(v.primary, base + 1, t1, base + 2, map[base + 2 := Entry(w2)], map[])
    ensures var v' := Writes(p, v, w3.hash, w3.fd, w3.command);
      && Waits(v'.primary, base + 1, t1, base + 3, map[base + 2 := Entry(w2), base + 3 := Entry(w3)], map[])
      && v' == v.(ground := v'.ground, primary := v'.primary, sent := v.sent + [Prepare(base + 3, w3.hash, w3.command)],
                  hashes := v.hashes + {w3.hash})
      && v'.ground.started == v.ground.started[base + 3 := Started(w3.hash, w3.command)]
  {
  }

  lemma {:induction false} DecideBoth(
      p: Program, v: View, base: nat, table: Table, k: Key, w1: Request, w2: Request, w3: Request, rest: Script)
    returns (v': View)
    requires p.drainRepaired && !p.unlockRepaired && SameRow(p, k, w1) && p.releasesLock(w1.command)
    requires p.execute(w1.command, table).Some?
    requires w3.hash != w1.hash && w3.hash != w2.hash
    requires TwoPrepared(v, base, table, k, w1, w2)
    ensures TwoDecided(v', base, table, p.execute(w1.command, table).value, k, w1, w2, w3)
    ensures Play(p, v, Then(Counting, Then(Sends(w3), Then(Counting, rest)))) == Play(p, v', rest)
  {
    var t1 := p.execute(w1.command, table).value;
    var v2 := CommitAndWrite(p, v, base, table, k, w1, w2, w3, Then(Counting, rest));
    SecondCounted(p, v2, base, t1, w2, w3);
    v' := Concludes(p, v2, base + 2, w2.hash, false);
    BothDecided(v, v2, v', base, table, t1, k, w1, w2, w3);
    PlayMove(p, v2, Counting, rest);
  }

  lemma BothDecided(
      v: View, v2: View, v': View, base: nat, table: Table, t1: Table, k: Key, w1: Request, w2: Request, w3: Request)
    requires TwoPrepared(v, base, table, k, w1, w2)
    requires v2.ground.started == v.ground.started[base + 3 := Started(w3.hash, w3.command)]
    requires v'.ground.started == v2.ground.started
    requires v2.replica == v.replica && v2.read == v.read && v2.yes == v.yes && v2.hashes == v.hashes + {w3.hash}
    requires v2.sent == v.sent + [Decided(base + 1, w1.hash, true)] + [Prepare(base + 3, w3.hash, w3.command)]
    requires v'.replica == v2.replica && v'.read == v2.read && v'.yes == v2.yes && v'.hashes == v2.hashes
    requires v'.sent == v2.sent + [Decided(base + 2, w2.hash, false)]
    requires Waits(v'.primary, base + 2, t1, base + 3, map[base + 3 := Entry(w3)], map[])
    ensures TwoDecided(v', base, table, t1, k, w1, w2, w3)
  {
  }

  lemma {:induction false} CommitAndWrite(
      p: Program, v: View, base: nat, table: Table, k: Key, w1: Request, w2: Request, w3: Request, rest: Script)
    returns (v2: View)
    requires p.drainRepaired && !p.unlockRepaired && SameRow(p, k, w1) && p.releasesLock(w1.command)
    requires p.execute(w1.command, table).Some?
    requires w3.hash != w1.hash && w3.hash != w2.hash
    requires TwoPrepared(v, base, table, k, w1, w2)
    ensures Waits(v2.primary, base + 1, p.execute(w1.command, table).value, base + 3,
              map[base + 2 := Entry(w2), base + 3 := Entry(w3)], map[])
    ensures v2 == v.(ground := v2.ground, primary := v2.primary, hashes := v.hashes + {w3.hash},
              up := [Vote(base + 2, w2.hash, false)],
                     sent := v.sent + [Decided(base + 1, w1.hash, true)] + [Prepare(base + 3, w3.hash, w3.command)])
    ensures v2.ground.started == v.ground.started[base + 3 := Started(w3.hash, w3.command)]
    ensures Play(p, v, Then(Counting, Then(Sends(w3), rest))) == Play(p, v2, rest)
  {
    FirstCounted(p, v, base, table, k, w1, w2);
    var v1 := Concludes(p, v, base + 1, w1.hash, true);
    PlayMove(p, v, Counting, Then(Sends(w3), rest));
    ThirdWritten(p, v1, base, p.execute(w1.command, table).value, w2, w3);
    v2 := Writes(p, v1, w3.hash, w3.fd, w3.command);
    PlayMove(p, v1, Sends(w3), rest);
  }

  /** The replica executes the first, votes YES for the third, and its ABORT of the second frees the
      row. */
  lemma ReplicaFrees(
      p: Program, v: View, base: nat, table: Table, t1: Table, k: Key, w1: Request, w2: Request, w3: Request)
    requires p.drainRepaired && !p.unlockRepaired && SameRow(p, k, w1) && SameRow(p, k, w2) && SameRow(p, k, w3)
    requires p.releasesLock(w1.command) && p.execute(w1.command, table) == Some(t1)
    requires TwoDecided(v, base, table, t1, k, w1, w2, w3)
    ensures var n1 := Decide(p, v.replica, base + 1, w1.hash, true);
      var (n2, vote) := OnPrepare(p, n1, base + 3, w3.hash, w3.command, false);
      && n1.health == Up && n2.health == Up && vote == Some(true)
      && Waits(Decide(p, n2, base + 2, w2.hash, false), base + 2, t1, base + 3, map[base + 3 := Entry(w3)], map[])
  {
    FirstExecuted(p, v.replica, base, table, t1, k, w1, w2);
    var n1 := Decide(p, v.replica, base + 1, w1.hash, true);
    ThirdGranted(p, n1, base, t1, k, w2, w3);
    SecondAborted(p, OnPrepare(p, n1, base + 3, w3.hash, w3.command, false).0, base, t1, k, w2, w3);
  }

  lemma FirstExecuted(p: Program, n: Node, base: nat, table: Table, t1: Table, k: Key, w1: Request, w2: Request)
    requires p.drainRepaired && SameRow(p, k, w1) && p.releasesLock(w1.command)
    requires p.execute(w1.command, table) == Some(t1)
    requires Waits(n, base, table, base + 2, map[base + 1 := Entry(w1), base + 2 := Entry(w2)], map[k := base + 1])
    ensures Waits(Decide(p, n, base + 1, w1.hash, true), base + 1, t1, base + 2, map[base + 2 := Entry(w2)], map[])
  {
    CommitsAlone(p, n, base, table, base + 2, n.queue, n.locks, k, w1);
    assert n.queue - {base + 1} == map[base + 2 := Entry(w2)] && n.locks - {k} == map[];
  }

  lemma ThirdGranted(p: Program, n: Node, base: nat, t1: Table, k: Key, w2: Request, w3: Request)
    requires SameRow(p, k, w3) && Waits(n, base + 1, t1, base + 2, map[base + 2 := Entry(w2)], map[])
    ensures var (m, vote) := OnPrepare(p, n, base + 3, w3.hash, w3.command, false);
      vote == Some(true)
        && Waits(m, base + 1, t1, base + 3, map[base + 2 := Entry(w2), base + 3 := Entry(w3)], map[k := base + 3])
  {
  }

  lemma SecondAborted(p: Program, n: Node, base: nat, t1: Table, k: Key, w2: Request, w3: Request)
    requires p.drainRepaired && !p.unlockRepaired && SameRow(p, k, w2)
    requires Waits(n, base + 1, t1, base + 3, map[base + 2 := Entry(w2), base + 3 := Entry(w3)], map[k := base + 3])
    ensures Waits(Decide(p, n, base + 2, w2.hash, false), base + 2, t1, base + 3, map[base + 3 := Entry(w3)], map[])
  {
    AbortsAlone(p, n, base + 1, t1, base + 3, n.queue, n.locks, w2);
    assert n.queue - {base + 2} == map[base + 3 := Entry(w3)] && n.locks - {k} == map[];
  }

  /** The third is outstanding and its row is free. */
  predicate RowIsFree(v: View, base: nat, t1: Table, w1: Request, w2: Request, w3: Request) {
    && v.ground.started == map[base + 1 := Started(w1.hash, w1.command), base + 2 := Started(w2.hash, w2.command),
                               base + 3 := Started(w3.hash, w3.command)]
    && Waits(v.primary, base + 2, t1, base + 3, map[base + 3 := Entry(w3)], map[])
    && Waits(v.replica, base + 2, t1, base + 3, map[base + 3 := Entry(w3)], map[])
    && |v.sent| == 5 && v.read == 5 && v.hashes == {w1.hash, w2.hash, w3.hash} && v.yes == {base + 1, base + 3}
  }

  lemma {:induction false} ReadThree(
      p: Program, v: View, base: nat, table: Table, t1: Table, k: Key, w1: Request, w2: Request, w3: Request,
      rest: Script)
    returns (v': View)
    requires p.drainRepaired && !p.unlockRepaired && SameRow(p, k, w1) && SameRow(p, k, w2) && SameRow(p, k, w3)
    requires p.releasesLock(w1.command) && p.execute(w1.command, table) == Some(t1)
    requires TwoDecided(v, base, table, t1, k, w1, w2, w3)
    ensures RowIsFree(v', base, t1, w1, w2, w3)
    ensures Play(p, v, Then(Reading, Then(Reading, Then(Reading, rest)))) == Play(p, v', rest)
  {
    ReplicaFrees(p, v, base, table, t1, k, w1, w2, w3);
    var v1 := Learns(p, v, base + 1, w1.hash, true);
    var v2 := Votes(p, v1, base + 3, w3.hash, w3.command);
    v' := Learns(p, v2, base + 2, w2.hash, false);
    PlayMove(p, v, Reading, Then(Reading, Then(Reading, rest)));
    PlayMove(p, v1, Reading, Then(Reading, rest));
    PlayMove(p, v2, Reading, rest);
  }

  /** The fourth write of the row gets the lock and a YES too. */
  lemma {:induction false} FourthIsGranted(
      p: Program, v: View, base: nat, t1: Table, k: Key, w1: Request, w2: Request, w3: Request, w4: Request)
    returns (v': View)
    requires SameRow(p, k, w4) && w4.hash !in {w1.hash, w2.hash, w3.hash}
    requires RowIsFree(v, base, t1, w1, w2, w3)
    ensures Play(p, v, Then(Sends(w4), Then(Reading, Done))) == Some(v')
    ensures v'.yes == {base + 1, base + 3, base + 4} && v'.replica.lastSeq == base + 2
    ensures v'.replica.locks == map[k := base + 4]
    ensures base + 3 in v'.replica.queue && v'.replica.queue[base + 3] == Entry(w3)
    ensures v'.ground.started == v.ground.started[base + 4 := Started(w4.hash, w4.command)]
  {
    var v1 := Writes(p, v, w4.hash, w4.fd, w4.command);
    v' := Votes(p, v1, base + 4, w4.hash, w4.command);
    PlayMove(p, v, Sends(w4), Then(Reading, Done));
    PlayMove(p, v1, Reading, Done);
  }

  lemma SeenInSystem(p: Program, sys: System, r: Id, v: View, s: nat, t: nat, k: Key, c1: string, c2: string)
    requires Shows(sys, r, v) && s in v.yes && t in v.yes && s != t && s > v.replica.lastSeq && t > v.replica.lastSeq
    requires s in v.replica.queue && v.replica.queue[s].status == Prepared
    requires s in v.ground.started && v.ground.started[s].command == c1 && p.lockKey(c1) == Some(k)
    requires t in v.ground.started && v.ground.started[t].command == c2 && p.lockKey(c2) == Some(k)
    requires k in v.replica.locks && v.replica.locks[k] == t
    ensures TwoVotesForOneRow(p, sys, r, s, t)
  {
  }

  /** With the draining repaired and the unlock of the program, four ordinary writes of one row are
      enough: the replica ends with two outstanding YES votes for it. */
  lemma {:induction false} OrdinaryWritesTrespass(
      p: Program, base: nat, table: Table, r: Id, k: Key, w1: Request, w2: Request, w3: Request, w4: Request)
    requires p.drainRepaired && !p.unlockRepaired && Distinct(w1, w2, w3, w4)
    requires SameRow(p, k, w1) && SameRow(p, k, w2) && SameRow(p, k, w3) && SameRow(p, k, w4)
    requires p.releasesLock(w1.command) && p.execute(w1.command, table).Some?
    ensures var sys := Run(p, base, table, Scene(r, OneRow(w1, w2, w3, w4)));
      r in sys.replicas && TwoVotesForOneRow(p, sys, r, base + 3, base + 4)
  {
    var t1 := p.execute(w1.command, table).value;
    var v1 := BothPrepare(p, base, table, k, w1, w2, OneRowVotes(w3, w4));
    var v2 := DecideBoth(p, v1, base, table, k, w1, w2, w3, OneRowReads(w4));
    var v3 := ReadThree(p, v2, base, table, t1, k, w1, w2, w3, Then(Sends(w4), Then(Reading, Done)));
    var v4 := FourthIsGranted(p, v3, base, t1, k, w1, w2, w3, w4);
    SceneShows(p, base, table, r, OneRow(w1, w2, w3, w4));
    SeenInSystem(p, Run(p, base, table, Scene(r, OneRow(w1, w2, w3, w4))), r, v4, base + 3, base + 4, k, w3.command,
        w4.command);
  }

  // ---------------------------------------------------------------- the program as it is

  /** A text that the lock refuses and whose ABORT unlocks the row of the third and fourth write. The
      second write is there to be dropped by the draining, in place of the third. */
  function CutShort(w1: Request, w2: Request, w3: Request, w4: Request): Script {
    Then(Sends(w1), Then(Sends(w2), Then(Sends(w3), Then(Reading, Then(Reading, Then(Reading, AfterCutShort(w4)))))))
  }

  function AfterCutShort(w4: Request): Script {
    Then(Counting, Then(Reading, Then(Sends(w4), Then(Reading, Done))))
  }

  function ThreeEntries(base: nat, w1: Request, w2: Request, w3: Request): map<nat, Transaction> {
    map[base + 1 := Entry(w1), base + 2 := Entry(w2), base + 3 := Entry(w3)]
  }

  function ThreeStarted(base: nat, w1: Request, w2: Request, w3: Request): map<nat, Started> {
    map[base + 1 := Started(w1.hash, w1.command), base + 2 := Started(w2.hash, w2.command),
        base + 3 := Started(w3.hash, w3.command)]
  }

  predicate ThreeWritten(v: View, base: nat, table: Table, w1: Request, w2: Request, w3: Request) {
    && v.ground.started == ThreeStarted(base, w1, w2, w3)
    && Waits(v.primary, base, table, base + 3, ThreeEntries(base, w1, w2, w3), map[])
    && Waits(v.replica, base, table, base, map[], map[])
    && v.sent == [Prepare(base + 1, w1.hash, w1.command), Prepare(base + 2, w2.hash, w2.command),
         Prepare(base + 3, w3.hash, w3.command)]
    && v.read == 0 && v.up == [] && v.hashes == {w1.hash, w2.hash, w3.hash} && v.yes == {}
  }

  lemma {:induction false} ThreeWrite(
      p: Program, base: nat, table: Table, w1: Request, w2: Request, w3: Request, rest: Script)
    returns (v: View)
    requires w1.hash != w2.hash && w1.hash != w3.hash && w2.hash != w3.hash
    ensures ThreeWritten(v, base, table, w1, w2, w3)
    ensures Play(p, Joined(base, table), Then(Sends(w1), Then(Sends(w2), Then(Sends(w3), rest)))) == Play(p, v, rest)
  {
    var v2 := BothWrite(p, base, table, w1, w2, Then(Sends(w3), rest));
    v := Writes(p, v2, w3.hash, w3.fd, w3.command);
    PlayMove(p, v2, Sends(w3), rest);
  }

  /** All three were prepared; the first was refused, the third has the row. */
  predicate ThreeVoted(v: View, base: nat, table: Table, k: Key, w1: Request, w2: Request, w3: Request) {
    && v.ground.started == ThreeStarted(base, w1, w2, w3)
    && Waits(v.primary, base, table, base + 3, ThreeEntries(base, w1, w2, w3), map[])
    && Waits(v.replica, base, table, base + 3, ThreeEntries(base, w1, w2, w3), v.replica.locks)
    && k in v.replica.locks && v.replica.locks[k] == base + 3
    && |v.sent| == 3 && v.read == 3 && v.hashes == {w1.hash, w2.hash, w3.hash}
    && |v.up| == 3 && v.up[0] == Vote(base + 1, w1.hash, false) && base + 3 in v.yes
  }

  lemma {:induction false} ThreeVote(
      p: Program, v: View, base: nat, table: Table, k: Key, w1: Request, w2: Request, w3: Request, rest: Script)
    returns (v': View)
    requires p.lockKey(w1.command) == None && p.lockKey(w2.command) != Some(k) && SameRow(p, k, w3)
    requires ThreeWritten(v, base, table, w1, w2, w3)
    ensures ThreeVoted(v', base, table, k, w1, w2, w3)
    ensures Play(p, v, Then(Reading, Then(Reading, Then(Reading, rest)))) == Play(p, v', rest)
  {
    var v1 := Votes(p, v, base + 1, w1.hash, w1.command);
    RefusedVote(p, v, base, table, w1, w2, w3);
    var v2 := Votes(p, v1, base + 2, w2.hash, w2.command);
    OtherVote(p, v1, base, table, k, w1, w2);
    v' := Votes(p, v2, base + 3, w3.hash, w3.command);
    GrantedVote(p, v2, base, table, k, w1, w2, w3);
    PlayMove(p, v, Reading, Then(Reading, Then(Reading, rest)));
    PlayMove(p, v1, Reading, Then(Reading, rest));
    PlayMove(p, v2, Reading, rest);
  }

  lemma RefusedVote(p: Program, v: View, base: nat, table: Table, w1: Request, w2: Request, w3: Request)
    requires p.lockKey(w1.command) == None && Waits(v.replica, base, table, base, map[], map[]) && v.up == []
    ensures var v' := Votes(p, v, base + 1, w1.hash, w1.command);
      && v' == v.(replica := v'.replica, read := v.read + 1, up := [Vote(base + 1, w1.hash, false)])
      && Waits(v'.replica, base, table, base + 1, map[base + 1 := Entry(w1)], map[])
  {
  }

  lemma OtherVote(p: Program, v: View, base: nat, table: Table, k: Key, w1: Request, w2: Request)
    requires p.lockKey(w2.command) != Some(k) && |v.up| == 1
    requires Waits(v.replica, base, table, base + 1, map[base + 1 := Entry(w1)], map[])
    ensures var v' := Votes(p, v, base + 2, w2.hash, w2.command);
      && v' == v.(replica := v'.replica, read := v.read + 1, up := v'.up, yes := v'.yes) && |v'.up| == 2
         && v'.up[0] == v.up[0]
      && Waits(v'.replica, base, table, base + 2, map[base + 1 := Entry(w1), base + 2 := Entry(w2)], v'.replica.locks)
      && k !in v'.replica.locks
  {
  }

  lemma GrantedVote(p: Program, v: View, base: nat, table: Table, k: Key, w1: Request, w2: Request, w3: Request)
    requires SameRow(p, k, w3) && |v.up| == 2 && k !in v.replica.locks
    requires Waits(v.replica, base, table, base + 2, map[base + 1 := Entry(w1), base + 2 := Entry(w2)], v.replica.locks)
    ensures var v' := Votes(p, v, base + 3, w3.hash, w3.command);
      && v' == v.(replica := v'.replica, read := v.read + 1, up := v'.up, yes := v.yes + {base + 3})
         && |v'.up| == 3 && v'.up[0] == v.up[0]
      && Waits(v'.replica, base, table, base + 3, ThreeEntries(base, w1, w2, w3), v'.replica.locks)
      && k in v'.replica.locks && v'.replica.locks[k] == base + 3
  {
  }

  /** The program's draining of the aborted first: its own entry stays, the second is dropped. */
  lemma FirstAborted(
      p: Program, n: Node, base: nat, table: Table, locks: map<Key, nat>, w1: Request, w2: Request, w3: Request)
    requires !p.drainRepaired && !p.unlockRepaired
    requires Waits(n, base, table, base + 3, ThreeEntries(base, w1, w2, w3), locks)
    ensures var m := Decide(p, n, base + 1, w1.hash, false);
      && m.health == Up && m.lastSeq == base + 1 && m.tpcSeq == base + 3 && m.locks == locks - {p.abortKey(w1.command)}
      && base + 3 in m.queue && m.queue[base + 3] == Entry(w3) && base + 4 !in m.queue
  {
    var m := Marked(n, base + 1, w1.hash, false);
    assert HeadDecided(m);
    DrainAsWrittenIsOneStep(p, m);
  }

  lemma {:induction false} FirstRefusedAborted(
      p: Program, v: View, base: nat, table: Table, k: Key, w1: Request, w2: Request, w3: Request, rest: Script)
    returns (v': View)
    requires !p.drainRepaired && !p.unlockRepaired && p.abortKey(w1.command) == k
    requires ThreeVoted(v, base, table, k, w1, w2, w3)
    ensures v'.primary.health == Up && v'.primary.tpcSeq == base + 3 && v'.replica.health == Up
    ensures v'.replica.lastSeq == base + 1
    ensures k !in v'.replica.locks && base + 3 in v'.replica.queue && v'.replica.queue[base + 3] == Entry(w3)
    ensures base + 4 !in v'.replica.queue
    ensures v'.ground.started == v.ground.started && v'.hashes == v.hashes && v'.yes == v.yes && |v'.sent| == 4
    ensures v'.read == 4
    ensures Play(p, v, Then(Counting, Then(Reading, rest))) == Play(p, v', rest)
  {
    FirstAborted(p, v.primary, base, table, map[], w1, w2, w3);
    var v1 := Concludes(p, v, base + 1, w1.hash, false);
    assert v1.sent[3] == Decided(base + 1, w1.hash, false);
    PlayMove(p, v, Counting, Then(Reading, rest));
    FirstAborted(p, v.replica, base, table, v.replica.locks, w1, w2, w3);
    v' := Learns(p, v1, base + 1, w1.hash, false);
    PlayMove(p, v1, Reading, rest);
  }

  lemma {:induction false} CutShortPlays(
      p: Program, base: nat, table: Table, k: Key, w1: Request, w2: Request, w3: Request, w4: Request)
    returns (v: View)
    requires !p.drainRepaired && !p.unlockRepaired && Distinct(w1, w2, w3, w4)
    requires p.lockKey(w1.command) == None && p.abortKey(w1.command) == k && p.lockKey(w2.command) != Some(k)
    requires SameRow(p, k, w3) && SameRow(p, k, w4)
    ensures Play(p, Joined(base, table), CutShort(w1, w2, w3, w4)) == Some(v)
    ensures base + 3 in v.yes && base + 4 in v.yes && v.replica.lastSeq == base + 1
    ensures k in v.replica.locks && v.replica.locks[k] == base + 4
    ensures base + 3 in v.replica.queue && v.replica.queue[base + 3] == Entry(w3)
    ensures v.ground.started == ThreeStarted(base, w1, w2, w3)[base + 4 := Started(w4.hash, w4.command)]
  {
    var v1 := ThreeWrite(p, base, table, w1, w2, w3, Then(Reading, Then(Reading, Then(Reading, AfterCutShort(w4)))));
    var v2 := ThreeVote(p, v1, base, table, k, w1, w2, w3, AfterCutShort(w4));
    v := AfterCutShortPlays(p, v2, base, table, k, w1, w2, w3, w4);
  }

  lemma {:induction false} AfterCutShortPlays(
      p: Program, v2: View, base: nat, table: Table, k: Key, w1: Request, w2: Request, w3: Request, w4: Request)
    returns (v: View)
    requires !p.drainRepaired && !p.unlockRepaired && Distinct(w1, w2, w3, w4) && p.abortKey(w1.command) == k
    requires SameRow(p, k, w4)
    requires ThreeVoted(v2, base, table, k, w1, w2, w3)
    ensures Play(p, v2, AfterCutShort(w4)) == Some(v)
    ensures base + 3 in v.yes && base + 4 in v.yes && v.replica.lastSeq == base + 1
    ensures k in v.replica.locks && v.replica.locks[k] == base + 4
    ensures base + 3 in v.replica.queue && v.replica.queue[base + 3] == Entry(w3)
    ensures v.ground.started == ThreeStarted(base, w1, w2, w3)[base + 4 := Started(w4.hash, w4.command)]
  {
    var v3 := FirstRefusedAborted(p, v2, base, table, k, w1, w2, w3, Then(Sends(w4), Then(Reading, Done)));
    v := LastIsGranted(p, v3, base, k, w3, w4);
  }

  /** The program as it is, and a text that it admits although no lock can be taken for it: the
      replica ends with two outstanding YES votes for one row. */
  lemma {:induction false} MalformedTextTrespasses(
      p: Program, base: nat, table: Table, r: Id, k: Key, w1: Request, w2: Request, w3: Request, w4: Request)
    requires !p.drainRepaired && !p.unlockRepaired && Distinct(w1, w2, w3, w4)
    requires p.lockKey(w1.command) == None && p.abortKey(w1.command) == k && p.lockKey(w2.command) != Some(k)
    requires SameRow(p, k, w3) && SameRow(p, k, w4)
    ensures var sys := Run(p, base, table, Scene(r, CutShort(w1, w2, w3, w4)));
      r in sys.replicas && TwoVotesForOneRow(p, sys, r, base + 3, base + 4)
  {
    var v := CutShortPlays(p, base, table, k, w1, w2, w3, w4);
    SceneShows(p, base, table, r, CutShort(w1, w2, w3, w4));
    SeenInSystem(p, Run(p, base, table, Scene(r, CutShort(w1, w2, w3, w4))), r, v, base + 3, base + 4, k, w3.command,
        w4.command);
  }

  lemma {:induction false} LastIsGranted(p: Program, v: View, base: nat, k: Key, w3: Request, w4: Request)
    returns (v': View)
    requires SameRow(p, k, w4) && w4.hash !in v.hashes && v.primary.health == Up && v.primary.tpcSeq == base + 3
    requires v.replica.health == Up && v.replica.lastSeq == base + 1 && k !in v.replica.locks
    requires base + 4 !in v.replica.queue
    requires base + 3 in v.replica.queue && v.replica.queue[base + 3] == Entry(w3) && |v.sent| == v.read == 4
    requires base + 3 in v.yes
    ensures Play(p, v, Then(Sends(w4), Then(Reading, Done))) == Some(v')
    ensures base + 3 in v'.yes && base + 4 in v'.yes && v'.replica.lastSeq == base + 1
    ensures k in v'.replica.locks && v'.replica.locks[k] == base + 4
    ensures base + 3 in v'.replica.queue && v'.replica.queue[base + 3] == Entry(w3)
    ensures v'.ground.started == v.ground.started[base + 4 := Started(w4.hash, w4.command)]
  {
    var v1 := Writes(p, v, w4.hash, w4.fd, w4.command);
    v' := Votes(p, v1, base + 4, w4.hash, w4.command);
    PlayMove(p, v, Sends(w4), Then(Reading, Done));
    PlayMove(p, v1, Reading, Done);
  }

  predicate IsPut(w: Request, row: string, col: string, value: string) {
    w.command == PutText(row, col, value) && ' ' !in row && ' ' !in col && value != ""
  }

  lemma PutSameRow(p: Program, w: Request, row: string, col: string, value: string)
    requires p.lockKey == LockKey && p.abortKey == AbortKey && p.releasesLock == ReleasesLock && p.execute == Execute
    requires IsPut(w, row, col, value)
    ensures SameRow(p, Key(row, col), w) && p.releasesLock(w.command) && forall t :: p.execute(w.command, t).Some?
  {
    PutTextKey(row, col, value);
    AbortKeyIsLockKey(w.command);
  }

  /** Such commands exist, for every row and column: four PUTs, */
  lemma {:induction false} PutsTrespass(
      base: nat, table: Table, r: Id, row: string, col: string, values: seq<string>, w1: Request, w2: Request,
      w3: Request, w4: Request)
    requires |values| == 4 && Distinct(w1, w2, w3, w4)
    requires IsPut(w1, row, col, values[0]) && IsPut(w2, row, col, values[1]) && IsPut(w3, row, col, values[2])
    requires IsPut(w4, row, col, values[3])
    ensures var p := AS_WRITTEN.(drainRepaired := true);
      var sys := Run(p, base, table, Scene(r, OneRow(w1, w2, w3, w4)));
      r in sys.replicas && TwoVotesForOneRow(p, sys, r, base + 3, base + 4)
  {
    var p := AS_WRITTEN.(drainRepaired := true);
    PutSameRow(p, w1, row, col, values[0]);
    PutSameRow(p, w2, row, col, values[1]);
    PutSameRow(p, w3, row, col, values[2]);
    PutSameRow(p, w4, row, col, values[3]);
    OrdinaryWritesTrespass(p, base, table, r, Key(row, col), w1, w2, w3, w4);
  }

  /** and with the program as it is a PUT cut short behind the row, a PUT elsewhere and two PUTs of a
      row and column that are both that word. */
  lemma {:induction false} CutShortTrespasses(
      base: nat, table: Table, r: Id, word: string, row: string, values: seq<string>, w1: Request, w2: Request,
      w3: Request, w4: Request)
    requires |values| == 3 && Distinct(w1, w2, w3, w4) && ' ' !in word && word != "" && row != word
    requires w1.command == "PUT " + word
    requires IsPut(w2, row, row, values[0]) && IsPut(w3, word, word, values[1]) && IsPut(w4, word, word, values[2])
    ensures var sys := Run(AS_WRITTEN, base, table, Scene(r, CutShort(w1, w2, w3, w4)));
      r in sys.replicas && TwoVotesForOneRow(AS_WRITTEN, sys, r, base + 3, base + 4)
  {
    MalformedAbortKey(word);
    PutSameRow(AS_WRITTEN, w2, row, row, values[0]);
    PutSameRow(AS_WRITTEN, w3, word, word, values[1]);
    PutSameRow(AS_WRITTEN, w4, word, word, values[2]);
    MalformedTextTrespasses(AS_WRITTEN, base, table, r, Key(word, word), w1, w2, w3, w4);
  }
}
