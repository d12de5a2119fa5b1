/** The unlock of an ABORT as the program has it: writes for which it does no harm. */
module TpcUnlock {
  import opened Text
  import opened Commands
  import opened TpcNode
  import opened TpcNodeSafety
  import opened TpcSystem
  import opened TpcAgreement
  import opened TpcUnanimity
  import opened TpcMirror
  import opened TpcRowLocks
  import opened TpcLocks
  import opened TpcClients

  // ---------------------------------------------------------------- ordinary writes

  /** A PUT, CPUT or DELETE with a row and a column: it is refused only by a held lock, and its
      execution unlocks. */
  predicate Ordinary(p: Program, command: string) {
    p.releasesLock(command)
  }

  predicate OrdinaryActions(p: Program, actions: seq<Action>) {
    forall i :: 0 <= i < |actions| && (actions[i].WriteAtPrimary? || actions[i].WriteAtReplica?) ==>
        Ordinary(p, actions[i].command)
  }

  predicate OrdinaryGround(p: Program, g: Ground) {
    forall s :: s in g.started ==> Ordinary(p, g.started[s].command)
  }

  lemma {:induction false} RunIsOrdinary(p: Program, base: nat, table: Table, actions: seq<Action>)
    requires OrdinaryActions(p, actions)
    ensures OrdinaryGround(p, Run(p, base, table, actions).ground)
  {
    var sys := Run(p, base, table, actions);
    RunClients(p, base, table, actions);
    forall s | s in sys.ground.started ensures Ordinary(p, sys.ground.started[s].command) {
      assert AsAccepted(sys.accepted, sys.ground.started[s].hash, sys.ground.started[s].command);
      RunSent(p, base, table, actions, sys.ground.started[s].hash);
    }
  }

  // ---------------------------------------------------------------- one server

  /** Locks are held by numbers that the server knows. */
  predicate LocksKnown(n: Node) {
    forall k :: k in n.locks ==> n.locks[k] <= n.tpcSeq
  }

  function HeadKey(p: Program, n: Node): Key
    requires n.lastSeq + 1 in n.queue
  {
    p.abortKey(n.queue[n.lastSeq + 1].command)
  }

  /** The transaction that is next in a replica's queue holds its lock: with the draining of the
      program none is next unless it was prepared when everything before it had been processed. */
  predicate ReplicaHead(p: Program, n: Node) {
    n.foreign == {} && LocksKnown(n) &&
    (n.health == Up && n.lastSeq + 1 in n.queue ==> HeadKey(p, n) in n.locks && n.locks[HeadKey(p, n)] == n.lastSeq + 1)
  }

  /** While the primary's next transaction is undecided, nothing is locked. */
  predicate PrimaryHead(n: Node) {
    n.foreign == {} && LocksKnown(n) &&
    (n.health == Up && n.lastSeq + 1 in n.queue ==> n.locks == map[] && n.queue[n.lastSeq + 1].status == Prepared)
  }

  lemma {:induction false} OneTurn(p: Program, n: Node)
    requires !p.drainRepaired && n.health == Up && HeadDecided(n) && n.foreign == {} && LocksKnown(n)
    requires !HeldByOther(p, n.locks, n.lastSeq + 1, n.queue[n.lastSeq + 1].command)
    ensures var m := Drain(p, n); m.foreign == {} && LocksKnown(m) && m.lastSeq + 1 !in m.queue
  {
    DrainAsWrittenIsOneStep(p, n);
  }

  lemma DecideAtReplica(p: Program, n: Node, s: nat, hash: string, commit: bool)
    requires !p.drainRepaired && ReplicaHead(p, n) && n.health == Up
    ensures ReplicaHead(p, Decide(p, n, s, hash, commit))
  {
    if !AlreadyProcessed(n, s) {
      var m := Marked(n, s, hash, commit);
      if HeadDecided(m) { OneTurn(p, m); } else { DrainAsWrittenIsOneStep(p, m); }
    }
  }

  /** The primary decides number s, for which it may just have taken the lock. */
  lemma DecideAtPrimary(p: Program, n: Node, s: nat, hash: string, command: string, commit: bool)
    requires Coherent(p) && !p.drainRepaired && PrimaryHead(n) && n.health == Up && s <= n.tpcSeq
    requires s in n.queue && n.queue[s].command == command
    ensures PrimaryHead(Decide(p, n, s, hash, false))
    ensures !AlreadyProcessed(n, s) ==> var (m, granted) := Acquire(p, n, s, command);
            PrimaryHead(Decide(p, m, s, hash, granted))
  {
    var (m, granted) := Acquire(p, n, s, command);
    DecideTheHead(p, n, s, hash, false);
    if !AlreadyProcessed(n, s) { DecideTheHead(p, m, s, hash, granted); }
  }

  lemma DecideTheHead(p: Program, n: Node, s: nat, hash: string, commit: bool)
    requires !p.drainRepaired && n.foreign == {} && LocksKnown(n) && n.health == Up && s in n.queue
    requires n.lastSeq + 1 in n.queue ==> n.queue[n.lastSeq + 1].status == Prepared
    requires s == n.lastSeq + 1 ==> !HeldByOther(p, n.locks, s, n.queue[s].command)
    requires AlreadyProcessed(n, s) ==> PrimaryHead(n)
    ensures PrimaryHead(Decide(p, n, s, hash, commit))
  {
    if !AlreadyProcessed(n, s) {
      var m := Marked(n, s, hash, commit);
      if HeadDecided(m) { OneTurn(p, m); } else { DrainAsWrittenIsOneStep(p, m); }
    }
  }

  /** Nothing that was processed keeps a lock. */
  lemma HoldersAreAhead(p: Program, g: Ground, n: Node)
    requires OrdinaryGround(p, g) && HoldersOk(p, g, n) && n.health != Terminated
    ensures forall k :: k in n.locks ==> n.locks[k] > n.lastSeq
  {
    forall k | k in n.locks ensures n.locks[k] > n.lastSeq { assert HolderOk(p, g, n, k); }
  }

  lemma StartAtPrimary(p: Program, g: Ground, n: Node, hash: string, command: string)
    requires OrdinaryGround(p, g) && HoldersOk(p, g, n) && PrimaryHead(n) && n.lastSeq <= n.tpcSeq
    ensures PrimaryHead(Start(n, hash, command))
  {
    if n.health == Up {
      HoldersAreAhead(p, g, n);
      if n.lastSeq == n.tpcSeq { assert n.locks == map[]; }
    }
  }

  lemma PrepareAtReplica(p: Program, g: Ground, n: Node, s: nat, hash: string, command: string, recovering: bool)
    requires Coherent(p) && OrdinaryGround(p, g) && HoldersOk(p, g, n) && ReplicaHead(p, n) && n.health == Up
    requires n.lastSeq <= n.tpcSeq && s == n.tpcSeq + 1 && s in g.started && g.started[s].command == command
    ensures ReplicaHead(p, OnPrepare(p, n, s, hash, command, recovering).0)
  {
    HoldersAreAhead(p, g, n);
    if n.lastSeq == n.tpcSeq { assert n.locks == map[]; }
  }

  // ---------------------------------------------------------------- the system

  ghost predicate Heads(p: Program, sys: System) {
    PrimaryHead(sys.primary) && forall r :: r in sys.replicas ==> ReplicaHead(p, sys.replicas[r])
  }

  ghost predicate AllHoldersOk(p: Program, sys: System) {
    HoldersOk(p, sys.ground, sys.primary) && forall r :: r in sys.replicas ==> HoldersOk(p, sys.ground, sys.replicas[r])
  }

  lemma PrimaryDecideHeads(p: Program, sys: System, s: nat, hash: string)
    requires Coherent(p) && !p.drainRepaired && Heads(p, sys) && sys.primary.health == Up && s in sys.primary.queue
    requires s <= sys.primary.tpcSeq
    ensures Heads(p, PrimaryDecide(p, sys, s, hash, false))
    ensures !AlreadyProcessed(sys.primary, s) ==> Heads(p, Conclude(p, sys, s, hash, sys.primary.queue[s].command))
  {
    DecideAtPrimary(p, sys.primary, s, hash, sys.primary.queue[s].command, false);
  }

  lemma OnVoteHeads(p: Program, sys: System, r: Id, s: nat, hash: string, yes: bool)
    requires Coherent(p) && !p.drainRepaired && NodeOk(p, sys.ground, sys.primary) && Heads(p, sys)
    requires sys.primary.health == Up
    ensures Heads(p, OnVote(p, sys, r, s, hash, yes))
  {
    if s in sys.primary.queue && !AlreadyProcessed(sys.primary, s) {
      assert s <= sys.primary.tpcSeq;
      PrimaryDecideHeads(p, sys, s, hash);
      PrimaryDecideHeads(p, sys.(ballots := Count(sys.ballots, s, r)), s, hash);
    }
  }

  lemma WriteAtPrimaryHeads(p: Program, sys: System, hash: string, fd: nat, command: string)
    requires Safe(p, sys) && Heads(p, sys) && OrdinaryGround(p, sys.ground) && AllHoldersOk(p, sys)
    ensures Heads(p, DoWriteAtPrimary(p, sys, hash, fd, command))
  {
    if PrimaryCanWrite(sys, hash) {
      var n := sys.primary.(desk := Remember(sys.primary.desk, hash, Client(true, fd, p.rowOf(command))));
      StartAtPrimary(p, sys.ground, n, hash, command);
    }
  }

  lemma ForwardHeads(p: Program, sys: System, r: Id, hash: string, command: string)
    requires Safe(p, sys) && Heads(p, sys) && OrdinaryGround(p, sys.ground) && AllHoldersOk(p, sys)
    requires PrimaryCanReceive(sys, r) && UpFrom(sys.net, r)[0] == Forward(hash, command)
    ensures Heads(p, DoPrimaryReceives(p, sys, r))
  {
    var n := sys.primary.(desk := Remember(sys.primary.desk, hash, Client(false, 0, p.rowOf(command))));
    StartAtPrimary(p, sys.ground, n, hash, command);
  }

  lemma VoteHeads(p: Program, sys: System, r: Id)
    requires Coherent(p) && !p.drainRepaired && NodeOk(p, sys.ground, sys.primary) && Heads(p, sys)
    requires PrimaryCanReceive(sys, r) && UpFrom(sys.net, r)[0].Vote?
    ensures Heads(p, DoPrimaryReceives(p, sys, r))
  {
    var msg := UpFrom(sys.net, r)[0];
    OnVoteHeads(p, Pop(sys, r), r, msg.number, msg.hash, msg.yes);
  }

  lemma PrimaryStepHeads(p: Program, sys: System, a: Action)
    requires Coherent(p) && !p.drainRepaired && Safe(p, sys) && Heads(p, sys)
    requires OrdinaryGround(p, sys.ground) && AllHoldersOk(p, sys)
    requires a.WriteAtPrimary? || a.PrimaryReceives? || a.Timeout?
    ensures Heads(p, Step(p, sys, a))
  {
    if a.WriteAtPrimary? {
      WriteAtPrimaryHeads(p, sys, a.hash, a.fd, a.command);
    } else if a.Timeout? {
      if a.number in sys.primary.queue && sys.primary.health == Up {
        PrimaryDecideHeads(p, sys, a.number, sys.primary.queue[a.number].hash);
      }
    } else if PrimaryCanReceive(sys, a.id) {
      match UpFrom(sys.net, a.id)[0]
      case Vote(_, _, _) => VoteHeads(p, sys, a.id);
      case Forward(hash, command) => ForwardHeads(p, sys, a.id, hash, command);
    }
  }

  lemma ReplicaReceivesHeads(p: Program, sys: System, r: Id, recovering: bool)
    requires Coherent(p) && !p.drainRepaired && Safe(p, sys) && Mirrored(p, sys) && Heads(p, sys)
    requires OrdinaryGround(p, sys.ground) && AllHoldersOk(p, sys)
    ensures Heads(p, DoReplicaReceives(p, sys, r, recovering))
  {
    if ReplicaCanReceive(sys, r) {
      var msg, n := sys.net.sent[sys.net.read[r]], sys.replicas[r];
      ReceivedIs(p, sys, r, recovering);
      if msg.Prepare? {
        NextNumber(p, sys, r);
        PrepareAtReplica(p, sys.ground, n, msg.number, msg.hash, msg.command, recovering);
      } else {
        DecideAtReplica(p, n, msg.number, msg.hash, msg.commit);
      }
      OneReplicaHead(p, sys, r, Received(p, n, msg, recovering), DoReplicaReceives(p, sys, r, recovering));
    }
  }

  lemma OneReplicaHead(p: Program, sys: System, r: Id, n: Node, sys': System)
    requires Heads(p, sys) && ReplicaHead(p, n) && sys'.primary == sys.primary && sys'.replicas == sys.replicas[r := n]
    ensures Heads(p, sys')
  {
  }

  lemma NextNumber(p: Program, sys: System, r: Id)
    requires Safe(p, sys) && Mirrored(p, sys) && ReplicaCanReceive(sys, r) && sys.net.sent[sys.net.read[r]].Prepare?
    ensures var msg, n := sys.net.sent[sys.net.read[r]], sys.replicas[r];
      && msg.number == n.tpcSeq + 1 && n.lastSeq <= n.tpcSeq
      && msg.number in sys.ground.started && sys.ground.started[msg.number].command == msg.command
  {
    assert MsgOk(sys.ground, sys.net.sent[sys.net.read[r]]) && NodeOk(p, sys.ground, sys.replicas[r]);
    assert Same(sys.replicas[r], Mirror(p, sys.ground.base, sys.ground.baseTable, sys.net.sent, sys.net.read[r]));
  }

  lemma StepHeads(p: Program, sys: System, a: Action)
    requires Coherent(p) && !p.drainRepaired && Safe(p, sys) && Mirrored(p, sys) && Heads(p, sys)
    requires OrdinaryGround(p, sys.ground) && AllHoldersOk(p, sys)
    ensures Heads(p, Step(p, sys, a))
  {
    if a.WriteAtPrimary? || a.PrimaryReceives? || a.Timeout? {
      PrimaryStepHeads(p, sys, a);
    } else if a.ReplicaReceives? {
      ReplicaReceivesHeads(p, sys, a.id, a.recovering);
    } else if a.Join? {
      if CanJoin(sys, a.id) { OneReplicaHead(p, sys, a.id, Snapshot(sys.primary), Step(p, sys, a)); }
    } else {
      OutsideCore(p, sys, a);
      CoreHeads(p, sys, Step(p, sys, a));
    }
  }

  lemma CoreHeads(p: Program, sys: System, sys': System)
    requires Heads(p, sys) && SameCore(sys, sys')
    ensures Heads(p, sys')
  {
    forall r | r in sys'.replicas ensures ReplicaHead(p, sys'.replicas[r]) { assert ReplicaHead(p, sys.replicas[r]); }
  }

  lemma {:induction false} HoldersInRun(p: Program, base: nat, table: Table, actions: seq<Action>)
    requires Coherent(p) && AbortsSpare(Run(p, base, table, actions))
    ensures AllHoldersOk(p, Run(p, base, table, actions))
  {
    var sys := Run(p, base, table, actions);
    if sys.primary.health != Terminated { PrimaryLockOwnership(p, base, table, actions); }
    forall r | r in sys.replicas ensures HoldersOk(p, sys.ground, sys.replicas[r]) {
      if sys.replicas[r].health != Terminated { LockOwnership(p, base, table, actions, r); }
    }
  }

  lemma {:induction false} RunHeads(p: Program, base: nat, table: Table, actions: seq<Action>)
    requires Coherent(p) && !p.drainRepaired && OrdinaryActions(p, actions)
    ensures Heads(p, Run(p, base, table, actions))
  {
    if actions != [] {
      var before := actions[..|actions| - 1];
      RunHeads(p, base, table, before);
      HoldersInRun(p, base, table, before);
      RunIsOrdinary(p, base, table, before);
      RunSafe(p, base, table, before);
      RunMirrored(p, base, table, before);
      StepHeads(p, Run(p, base, table, before), actions[|actions| - 1]);
    }
  }

  // ---------------------------------------------------------------- main result

  /** The program as it is keeps lock ownership in every run of ordinary writes: its draining
      processes a transaction only if it was prepared when all before it were done, so no aborted
      one was refused its lock. */
  lemma {:induction false} OrdinaryWritesSpare(p: Program, base: nat, table: Table, actions: seq<Action>)
    requires Coherent(p) && !p.drainRepaired && OrdinaryActions(p, actions)
    ensures AbortsSpare(Run(p, base, table, actions))
  {
    RunHeads(p, base, table, actions);
  }

  /** So two outstanding YES votes of a replica of the program never want one row, as long as clients
      send ordinary writes, whatever replicas join and leave. */
  lemma {:induction false} OrdinaryLockOwnership(base: nat, table: Table, actions: seq<Action>, r: Id, s: nat, t: nat)
    requires OrdinaryActions(AS_WRITTEN, actions) && s != t
    requires var sys := Run(AS_WRITTEN, base, table, actions);
      r in sys.replicas && sys.replicas[r].health != Terminated &&
      OutstandingYes(AS_WRITTEN, sys, r, s) && OutstandingYes(AS_WRITTEN, sys, r, t)
    ensures var sys := Run(AS_WRITTEN, base, table, actions);
      && Holds(AS_WRITTEN, sys.ground, sys.replicas[r], s) && Holds(AS_WRITTEN, sys.ground, sys.replicas[r], t)
      && KeyOf(AS_WRITTEN, sys.ground, s) != KeyOf(AS_WRITTEN, sys.ground, t)
  {
    ProgramIsCoherent();
    OrdinaryWritesSpare(AS_WRITTEN, base, table, actions);
    LockOwnership(AS_WRITTEN, base, table, actions, r);
  }

  /** What the record of foreign locks records: in one turn of the program an ABORT is recorded if and
      only if it takes a row lock away that another transaction holds. */
  lemma AbortSparesForeignLocksIff(p: Program, n: Node)
    requires !p.unlockRepaired && HeadDecided(n) && n.queue[n.lastSeq + 1].status == Abort
    requires n.lastSeq + 1 !in n.foreign
    ensures n.lastSeq + 1 !in ProcessNext(p, n).foreign <==>
            forall k :: k in n.locks && n.locks[k] != n.lastSeq + 1 ==>
                k in ProcessNext(p, n).locks && ProcessNext(p, n).locks[k] == n.locks[k]
  {
    var key := p.abortKey(n.queue[n.lastSeq + 1].command);
    assert ProcessNext(p, n).locks == n.locks - {key};
  }
}
