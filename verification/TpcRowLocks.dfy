/** The row locks of one server: who holds them, what its handlers do to them, and how they compare
    with those of its mirror. */
module TpcRowLocks {
  import opened Text
  import opened Commands
  import opened TpcNode
  import opened TpcNodeSafety
  import opened TpcSystem
  import opened TpcAgreement
  import opened TpcUnanimity
  import opened TpcMirror

  /** The ABORT branch finds the key that was locked, and only locked commands unlock. */
  ghost predicate Coherent(p: Program) {
    (forall c :: p.lockKey(c).Some? ==> p.abortKey(c) == p.lockKey(c).value) &&
    (forall c :: p.releasesLock(c) ==> p.lockKey(c).Some?)
  }

  lemma ProgramIsCoherent()
    ensures Coherent(AS_WRITTEN) && Coherent(REPAIRED)
  {
    forall c | LockKey(c).Some? ensures AbortKey(c) == LockKey(c).value { AbortKeyIsLockKey(c); }
  }

  function KeyOf(p: Program, g: Ground, s: nat): Option<Key> {
    if s in g.started then p.lockKey(g.started[s].command) else None
  }

  predicate Holds(p: Program, g: Ground, n: Node, s: nat) {
    KeyOf(p, g, s).Some? && KeyOf(p, g, s).value in n.locks && n.locks[KeyOf(p, g, s).value] == s
  }

  /** Number s was committed, and its verb is one that execution never unlocks for. */
  predicate NeverReleased(p: Program, g: Ground, s: nat) {
    Settled(g, s) && g.decided[s] && !p.releasesLock(g.started[s].command)
  }

  predicate Unreleased(p: Program, g: Ground, n: Node, s: nat) {
    s > n.lastSeq || NeverReleased(p, g, s)
  }

  /** A held lock is the one its transaction asked for, and that transaction is unprocessed,
      or never releases. */
  predicate HolderOk(p: Program, g: Ground, n: Node, k: Key)
    requires k in n.locks
  {
    KeyOf(p, g, n.locks[k]) == Some(k) && Unreleased(p, g, n, n.locks[k])
  }

  predicate HoldersOk(p: Program, g: Ground, n: Node) {
    n.health != Terminated ==> forall k :: k in n.locks ==> HolderOk(p, g, n, k)
  }

  /** Every member of `must` that has not released its lock holds it. */
  ghost predicate MustHold(p: Program, g: Ground, n: Node, must: iset<nat>) {
    n.health != Terminated ==> forall s :: s in must && Unreleased(p, g, n, s) ==> Holds(p, g, n, s)
  }

  ghost predicate LocksOk(p: Program, g: Ground, n: Node, must: iset<nat>) {
    HoldersOk(p, g, n) && MustHold(p, g, n, must)
  }

  /** The committed entries in a queue are among those that hold their lock. */
  ghost predicate CommitsHold(n: Node, must: iset<nat>) {
    forall s :: s in n.queue && n.queue[s].status == Commit ==> s in must
  }

  // ---------------------------------------------------------------- one server

  /** What one turn does to the row locks. */
  predicate TurnLocks(p: Program, n: Node, m: Node) {
    HeadDecided(n) &&
    var t := n.queue[n.lastSeq + 1];
    m.health == Terminated || m.locks == Unlocked(p, n.locks, n.lastSeq + 1, t.command, t.status == Commit)
  }

  lemma ProcessNextUnlocks(p: Program, n: Node)
    requires HeadDecided(n)
    ensures TurnLocks(p, n, ProcessNext(p, n))
  {
  }

  lemma TurnHolders(p: Program, g: Ground, n: Node, m: Node)
    requires Coherent(p) && NodeOk(p, g, n) && n.health == Up
    requires TurnEffect(p, n, m) && TurnLocks(p, n, m) && HoldersOk(p, g, n)
    ensures HoldersOk(p, g, m)
  {
    var s := n.lastSeq + 1;
    var t := n.queue[s];
    assert TransactionOk(g, s, t);
    if m.health != Terminated {
      forall k | k in m.locks ensures HolderOk(p, g, m, k) {
        assert k in n.locks && m.locks[k] == n.locks[k] && HolderOk(p, g, n, k);
      }
    }
  }

  lemma TurnMust(p: Program, g: Ground, n: Node, m: Node, must: iset<nat>)
    requires Coherent(p) && p.unlockRepaired && NodeOk(p, g, n) && n.health == Up
    requires TurnEffect(p, n, m) && TurnLocks(p, n, m) && LocksOk(p, g, n, must) && CommitsHold(n, must)
    ensures MustHold(p, g, m, must) && CommitsHold(m, must)
  {
    var s := n.lastSeq + 1;
    var t := n.queue[s];
    assert TransactionOk(g, s, t);
    if m.health != Terminated {
      if t.status == Commit { assert Holds(p, g, n, s); }
      forall x | x in must && Unreleased(p, g, m, x) ensures Holds(p, g, m, x) {
        assert Holds(p, g, n, x);
      }
    }
  }

  lemma {:induction false} DrainHolders(p: Program, g: Ground, n: Node)
    requires Coherent(p) && NodeOk(p, g, n) && HoldersOk(p, g, n)
    ensures HoldersOk(p, g, Drain(p, n))
    decreases |Above(n)|
  {
    if n.health == Up && HeadDecided(n) {
      ProcessNextUnlocks(p, n);
      ProcessNextEffect(p, n);
      TurnHolders(p, g, n, ProcessNext(p, n));
      ProcessNextOk(p, g, n);
      ProcessNextShrinks(p, n);
      DrainHolders(p, g, ProcessNext(p, n));
    }
  }

  lemma {:induction false} DrainLocks(p: Program, g: Ground, n: Node, must: iset<nat>)
    requires Coherent(p) && p.unlockRepaired && NodeOk(p, g, n)
    requires LocksOk(p, g, n, must) && CommitsHold(n, must)
    ensures LocksOk(p, g, Drain(p, n), must) && CommitsHold(Drain(p, n), must)
    decreases |Above(n)|
  {
    if n.health == Up && HeadDecided(n) {
      ProcessNextUnlocks(p, n);
      ProcessNextEffect(p, n);
      TurnHolders(p, g, n, ProcessNext(p, n));
      TurnMust(p, g, n, ProcessNext(p, n), must);
      ProcessNextOk(p, g, n);
      ProcessNextShrinks(p, n);
      DrainLocks(p, g, ProcessNext(p, n), must);
    }
  }

  lemma MarkedOk(p: Program, g: Ground, n: Node, s: nat, hash: string, commit: bool)
    requires NodeOk(p, g, n) && !AlreadyProcessed(n, s)
    requires Settled(g, s) && g.started[s].hash == hash && g.decided[s] == commit
    ensures NodeOk(p, g, Marked(n, s, hash, commit))
  {
    assert s in n.queue ==> TransactionOk(g, s, n.queue[s]);
    MarkedIsLogged(n, s, hash, commit);
  }

  lemma DecideHolders(p: Program, g: Ground, n: Node, s: nat, hash: string, commit: bool)
    requires Coherent(p) && NodeOk(p, g, n) && HoldersOk(p, g, n)
    requires Settled(g, s) && g.started[s].hash == hash && g.decided[s] == commit
    ensures HoldersOk(p, g, Decide(p, n, s, hash, commit))
  {
    if !AlreadyProcessed(n, s) {
      MarkedOk(p, g, n, s, hash, commit);
      DrainHolders(p, g, Marked(n, s, hash, commit));
    }
  }

  lemma DecideLocks(p: Program, g: Ground, n: Node, s: nat, hash: string, commit: bool, must: iset<nat>)
    requires Coherent(p) && p.unlockRepaired && NodeOk(p, g, n)
    requires Settled(g, s) && g.started[s].hash == hash && g.decided[s] == commit
    requires LocksOk(p, g, n, must) && CommitsHold(n, must)
    requires commit && s in n.queue && !AlreadyProcessed(n, s) ==> s in must
    ensures LocksOk(p, g, Decide(p, n, s, hash, commit), must) && CommitsHold(Decide(p, n, s, hash, commit), must)
  {
    if !AlreadyProcessed(n, s) {
      MarkedOk(p, g, n, s, hash, commit);
      DrainLocks(p, g, Marked(n, s, hash, commit), must);
    }
  }

  /** A number that a server has passed was settled, so what the primary decides later is not
      among them. */
  lemma PassedIsSettled(p: Program, g: Ground, n: Node, s: nat)
    requires NodeOk(p, g, n) && g.base < s <= n.lastSeq
    ensures Settled(g, s)
  {
    assert EntryOk(g, s - g.base - 1, n.history[s - g.base - 1]);
  }

  lemma LocksExtend(p: Program, g: Ground, g': Ground, n: Node, must: iset<nat>)
    requires NodeOk(p, g, n) && LocksOk(p, g, n, must) && GrowsInto(g, g')
    requires forall s :: s in g'.started ==> s > g.base
    ensures LocksOk(p, g', n, must)
  {
    if n.health != Terminated {
      forall k | k in n.locks ensures HolderOk(p, g', n, k) { assert HolderOk(p, g, n, k); }
      forall s | s in must && Unreleased(p, g', n, s) ensures Holds(p, g', n, s) {
        if s <= n.lastSeq { PassedIsSettled(p, g, n, s); }
        assert Holds(p, g, n, s);
      }
    }
  }

  /** A granted lock: the new holder joins those that must hold theirs. */
  lemma AcquireLocks(p: Program, g: Ground, n: Node, s: nat, command: string, must: iset<nat>)
    requires LocksOk(p, g, n, must) && s > n.lastSeq && s in g.started && g.started[s].command == command
    ensures var (m, granted) := Acquire(p, n, s, command);
      LocksOk(p, g, m, must) && (granted ==> LocksOk(p, g, m, must + iset{s}) && Holds(p, g, m, s))
  {
  }

  lemma OnPrepareLocks(
      p: Program, g: Ground, n: Node, s: nat, hash: string, command: string, recovering: bool, must: iset<nat>)
    requires LocksOk(p, g, n, must) && CommitsHold(n, must) && s in g.started && g.started[s] == Started(hash, command)
    ensures var (m, vote) := OnPrepare(p, n, s, hash, command, recovering);
      && LocksOk(p, g, m, must) && CommitsHold(m, must)
      && (vote == Some(true) ==> LocksOk(p, g, m, must + iset{s}) && CommitsHold(m, must + iset{s}))
  {
  }

  lemma LocksFrame(p: Program, g: Ground, n: Node, m: Node, must: iset<nat>)
    requires LocksOk(p, g, n, must) && CommitsHold(n, must)
    requires m.locks == n.locks && m.lastSeq == n.lastSeq && m.health == n.health
    requires forall s :: s in m.queue && m.queue[s].status == Commit ==> s in n.queue && n.queue[s] == m.queue[s]
    ensures LocksOk(p, g, m, must) && CommitsHold(m, must)
  {
  }

  // ---------------------------------------------------------------- which commands are committed

  /** An earlier commit keeps the row of number s locked for good. */
  ghost predicate Outlived(p: Program, g: Ground, s: nat) {
    exists x: nat :: x < s && NeverReleased(p, g, x) && KeyOf(p, g, x).Some? && KeyOf(p, g, x) == KeyOf(p, g, s)
  }

  /** Nothing is committed behind such a commit. */
  ghost predicate CommitsLast(p: Program, g: Ground) {
    forall s :: s in g.decided && g.decided[s] ==> !Outlived(p, g, s)
  }

  ghost function PrimaryMust(g: Ground): iset<nat> { iset s | s in g.decided && g.decided[s] }

  ghost predicate PrimaryLocked(p: Program, g: Ground, n: Node) {
    LocksOk(p, g, n, PrimaryMust(g)) && CommitsHold(n, PrimaryMust(g)) && CommitsLast(p, g)
  }

  lemma MustGrows(g: Ground, g': Ground, s: nat, commit: bool)
    requires s !in g.decided && g'.decided == g.decided[s := commit]
    ensures PrimaryMust(g') == if commit then PrimaryMust(g) + iset{s} else PrimaryMust(g)
  {
  }

  /** The primary decides; a commit only when it has the lock. */
  lemma OwnDecisionLocked(p: Program, g: Ground, g': Ground, n: Node, s: nat, hash: string, commit: bool)
    requires Coherent(p) && p.unlockRepaired && NodeOk(p, g, n) && NodeOk(p, g', n) && GrowsInto(g, g')
    requires forall x :: x in g'.started ==> x > g.base
    requires s in g.started && g.started[s].hash == hash && s !in g.decided
    requires g' == g.(decided := g.decided[s := commit])
    requires PrimaryLocked(p, g, n) && n.health == Up && (commit ==> Holds(p, g, n, s) && s > n.lastSeq)
    ensures PrimaryLocked(p, g', Decide(p, n, s, hash, commit))
  {
    MustGrows(g, g', s, commit);
    LocksExtend(p, g, g', n, PrimaryMust(g));
    if commit { assert MustHold(p, g', n, PrimaryMust(g')); }
    DecideLocks(p, g', n, s, hash, commit, PrimaryMust(g'));
    StillLast(p, g, g', n, s, commit);
  }

  lemma StillLast(p: Program, g: Ground, g': Ground, n: Node, s: nat, commit: bool)
    requires PrimaryLocked(p, g, n) && n.health == Up && (commit ==> Holds(p, g, n, s) && s > n.lastSeq)
    requires s in g.started && s !in g.decided && g' == g.(decided := g.decided[s := commit])
    ensures CommitsLast(p, g')
  {
    forall t, x | t in g'.decided && g'.decided[t] && x < t && NeverReleased(p, g', x) && KeyOf(p, g', x).Some?
      ensures KeyOf(p, g', x) != KeyOf(p, g', t)
    {
      if t == s {
        assert x in PrimaryMust(g) && Holds(p, g, n, x);
      } else if x == s {
        assert t in PrimaryMust(g) && (KeyOf(p, g, t).Some? ==> Holds(p, g, n, t));
      } else {
        assert NeverReleased(p, g, x) && !Outlived(p, g, t);
      }
    }
  }

  lemma LastExtends(p: Program, g: Ground, g': Ground)
    requires CommitsLast(p, g) && GrowsInto(g, g') && g'.decided == g.decided
    requires forall s :: s in g.decided ==> s in g.started
    ensures CommitsLast(p, g')
  {
    forall s | s in g'.decided && g'.decided[s] ensures !Outlived(p, g', s) { OutlivedBefore(p, g, g', s); }
  }

  lemma OutlivedBefore(p: Program, g: Ground, g': Ground, s: nat)
    requires GrowsInto(g, g') && g'.decided == g.decided && s in g.started
    requires forall x :: x in g.decided ==> x in g.started
    ensures Outlived(p, g', s) <==> Outlived(p, g, s)
  {
    assert forall x: nat :: NeverReleased(p, g', x) <==> NeverReleased(p, g, x);
    assert forall x: nat :: x in g.started ==> KeyOf(p, g', x) == KeyOf(p, g, x);
  }

  // ---------------------------------------------------------------- replicas lock alike

  /** The lock of key k is never given back. */
  predicate KeptForGood(n: Node, k: Key) {
    k in n.locks && n.locks[k] <= n.lastSeq
  }

  /** A replica's row locks are those of its mirror, except for rows that are locked there for good:
      a replica that joined later does not know of those. */
  ghost predicate LocksAlike(a: Node, m: Node) {
    forall k :: !KeptForGood(m, k) ==> (k in a.locks <==> k in m.locks) && (k in a.locks ==> a.locks[k] == m.locks[k])
  }

  lemma TurnLocksAlike(p: Program, g: Ground, a: Node, m: Node, a': Node, m': Node)
    requires Coherent(p) && p.unlockRepaired && m.health != Terminated && QueueOk(g, m)
    requires HoldersOk(p, g, m) && CommitsLast(p, g) && LocksAlike(a, m)
    requires HeadDecided(a) && a.lastSeq == m.lastSeq && TurnLocks(p, a, a') && TurnLocks(p, m, m')
    requires a.queue[a.lastSeq + 1] == m.queue[a.lastSeq + 1] && m'.lastSeq == m.lastSeq + 1
    requires a'.health != Terminated && m'.health != Terminated
    ensures LocksAlike(a', m')
  {
    var s := m.lastSeq + 1;
    var t := m.queue[s];
    assert TransactionOk(g, s, t);
    if t.status == Commit && p.releasesLock(t.command) { CommittedIsFree(p, g, m, s); }
    UnlockedAlike(p, a, m, t, a', m');
  }

  lemma CommittedIsFree(p: Program, g: Ground, m: Node, s: nat)
    requires Coherent(p) && HoldersOk(p, g, m) && m.health != Terminated && CommitsLast(p, g) && s > m.lastSeq
    requires Settled(g, s) && g.decided[s] && p.releasesLock(g.started[s].command)
    ensures !KeptForGood(m, p.abortKey(g.started[s].command))
  {
    if KeptForGood(m, p.abortKey(g.started[s].command)) { KeptIsOutlived(p, g, m, s); }
  }

  lemma UnlockedAlike(p: Program, a: Node, m: Node, t: Transaction, a': Node, m': Node)
    requires p.unlockRepaired && LocksAlike(a, m) && a.lastSeq == m.lastSeq
    requires t.status == Commit && p.releasesLock(t.command) ==> !KeptForGood(m, p.abortKey(t.command))
    requires a'.locks == Unlocked(p, a.locks, m.lastSeq + 1, t.command, t.status == Commit)
    requires m'.locks == Unlocked(p, m.locks, m.lastSeq + 1, t.command, t.status == Commit)
    requires m'.lastSeq == m.lastSeq + 1
    ensures LocksAlike(a', m')
  {
  }

  /** A replica and its mirror. */
  ghost predicate Twins(p: Program, g: Ground, a: Node, m: Node) {
    Same(a, m) && NodeOk(p, g, m) && HoldersOk(p, g, m) && (a.health != Terminated ==> LocksAlike(a, m))
  }

  lemma TurnTwins(p: Program, g: Ground, a: Node, m: Node)
    requires Coherent(p) && p.unlockRepaired && CommitsLast(p, g) && Twins(p, g, a, m) && a.health == Up
    requires HeadDecided(a)
    ensures HeadDecided(m) && Twins(p, g, ProcessNext(p, a), ProcessNext(p, m))
  {
    SameTurn(p, a, m);
    ProcessNextUnlocks(p, a);
    ProcessNextUnlocks(p, m);
    ProcessNextEffect(p, a);
    ProcessNextEffect(p, m);
    ProcessNextOk(p, g, m);
    TurnHolders(p, g, m, ProcessNext(p, m));
    if ProcessNext(p, a).health != Terminated {
      TurnLocksAlike(p, g, a, m, ProcessNext(p, a), ProcessNext(p, m));
    }
  }

  lemma TwinsHead(a: Node, m: Node)
    requires Same(a, m)
    ensures a.health == m.health && a.lastSeq == m.lastSeq && (HeadDecided(a) <==> HeadDecided(m))
    ensures a.lastSeq + 1 in a.queue <==> m.lastSeq + 1 in m.queue
  {
  }

  lemma TwinsStop(p: Program, g: Ground, a: Node, m: Node, health: Health)
    requires Twins(p, g, a, m) && a.health != Terminated && health != Terminated
    ensures Twins(p, g, a.(health := health), m.(health := health))
  {
  }

  lemma {:induction false} DrainStops(p: Program, n: Node)
    requires n.health != Up || !HeadDecided(n)
    ensures Drain(p, n) ==
            if n.health == Up && n.lastSeq + 1 in n.queue && !p.drainRepaired then n.(health := Hung) else n
  {
  }

  lemma {:induction false} DrainTwins(p: Program, g: Ground, a: Node, m: Node)
    requires Coherent(p) && p.unlockRepaired && CommitsLast(p, g) && Twins(p, g, a, m)
    ensures Twins(p, g, Drain(p, a), Drain(p, m))
    decreases |Above(a)|
  {
    TwinsHead(a, m);
    if a.health == Up && HeadDecided(a) {
      TurnTwins(p, g, a, m);
      ProcessNextShrinks(p, a);
      DrainTwins(p, g, ProcessNext(p, a), ProcessNext(p, m));
      DrainTurn(p, a);
      DrainTurn(p, m);
    } else {
      DrainStops(p, a);
      DrainStops(p, m);
      if a.health == Up { TwinsStop(p, g, a, m, Hung); }
    }
  }

  lemma {:induction false} DrainTurn(p: Program, n: Node)
    requires n.health == Up && HeadDecided(n)
    ensures Drain(p, n) == Drain(p, ProcessNext(p, n))
  {
  }

  lemma MarkedTwins(p: Program, g: Ground, a: Node, m: Node, s: nat, hash: string, commit: bool)
    requires Twins(p, g, a, m) && Settled(g, s) && g.started[s].hash == hash && g.decided[s] == commit
    ensures AlreadyProcessed(a, s) <==> AlreadyProcessed(m, s)
    ensures !AlreadyProcessed(a, s) ==> Twins(p, g, Marked(a, s, hash, commit), Marked(m, s, hash, commit))
  {
    SameMarked(a, m, s, hash, commit);
    if !AlreadyProcessed(a, s) { MarkedOk(p, g, m, s, hash, commit); }
  }

  lemma DecideTwins(p: Program, g: Ground, a: Node, m: Node, s: nat, hash: string, commit: bool)
    requires Coherent(p) && p.unlockRepaired && CommitsLast(p, g) && Twins(p, g, a, m)
    requires Settled(g, s) && g.started[s].hash == hash && g.decided[s] == commit
    ensures Twins(p, g, Decide(p, a, s, hash, commit), Decide(p, m, s, hash, commit))
  {
    MarkedTwins(p, g, a, m, s, hash, commit);
    if !AlreadyProcessed(a, s) { DrainTwins(p, g, Marked(a, s, hash, commit), Marked(m, s, hash, commit)); }
  }

  /** The mirror would be granted the lock. */
  predicate Grants(p: Program, n: Node, command: string) {
    p.lockKey(command).Some? && p.lockKey(command).value !in n.locks
  }

  /** Both take the lock, or both refuse, unless it is locked for good at the mirror. */
  lemma PrepareLocksAlike(p: Program, a: Node, m: Node, s: nat, hash: string, command: string, recovering: bool)
    requires Same(a, m) && LocksAlike(a, m)
    ensures LocksAlike(OnPrepare(p, a, s, hash, command, recovering).0, OnPrepare(p, m, s, hash, command, false).0)
    ensures Grants(p, m, command) ==> Grants(p, a, command)
    ensures Grants(p, a, command) && !Grants(p, m, command) ==> KeptForGood(m, p.lockKey(command).value)
  {
  }

  lemma KeptIsOutlived(p: Program, g: Ground, m: Node, s: nat)
    requires HoldersOk(p, g, m) && m.health != Terminated && s > m.lastSeq
    requires KeyOf(p, g, s).Some? && KeptForGood(m, KeyOf(p, g, s).value)
    ensures Outlived(p, g, s)
  {
    assert HolderOk(p, g, m, KeyOf(p, g, s).value);
  }

  lemma {:induction false} MirrorHolders(p: Program, base: nat, table: Table, g: Ground, sent: seq<Msg>, i: nat)
    requires Coherent(p) && g.base == base && g.baseTable == table && i <= |sent|
    requires forall k :: 0 <= k < |sent| ==> MsgOk(g, sent[k])
    ensures HoldersOk(p, g, Mirror(p, base, table, sent, i))
  {
    if i > 0 {
      MirrorHolders(p, base, table, g, sent, i - 1);
      MirrorOk(p, base, table, g, sent, i - 1);
      ReceivedHolders(p, g, Mirror(p, base, table, sent, i - 1), sent[i - 1]);
    }
  }

  lemma ReceivedHolders(p: Program, g: Ground, n: Node, msg: Msg)
    requires Coherent(p) && NodeOk(p, g, n) && HoldersOk(p, g, n) && MsgOk(g, msg)
    ensures HoldersOk(p, g, Received(p, n, msg, false))
  {
    match msg
    case Prepare(s, hash, command) =>
    case Decided(s, hash, commit) => DecideHolders(p, g, n, s, hash, commit);
  }
}
