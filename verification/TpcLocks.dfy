/** Row locks over whole runs: two outstanding votes of a replica never want the same row. */
module TpcLocks {
  import opened Text
  import opened Commands
  import opened TpcNode
  import opened TpcNodeSafety
  import opened TpcSystem
  import opened TpcAgreement
  import opened TpcUnanimity
  import opened TpcMirror
  import opened TpcRowLocks

  predicate IsPrepareOf(sent: seq<Msg>, i: int, s: nat) {
    0 <= i < |sent| && sent[i].Prepare? && sent[i].number == s
  }

  /** Whoever has read the messages in front of PREPARE number s refuses it the lock. */
  ghost predicate Refused(p: Program, g: Ground, sent: seq<Msg>, s: nat) {
    exists i :: IsPrepareOf(sent, i, s) && !Grants(p, Mirror(p, g.base, g.baseTable, sent, i), sent[i].command)
  }

  /** What a replica voted YES for or has queued as committed. */
  ghost function ReplicaMust(b: Ballots, r: Id, n: Node): iset<nat> {
    iset s | (s, r) in b.yes || (s in n.queue && n.queue[s].status == Commit)
  }

  /** A queued transaction has its lock, or nobody that started before would have given it. */
  ghost predicate QueueAlike(p: Program, g: Ground, sent: seq<Msg>, n: Node) {
    n.health != Terminated ==> forall s :: s in n.queue && s > n.lastSeq ==> Holds(p, g, n, s) || Refused(p, g, sent, s)
  }

  ghost predicate ReplicaLocked(p: Program, g: Ground, sent: seq<Msg>, b: Ballots, r: Id, n: Node, i: nat) {
    && i <= |sent|
    && LocksOk(p, g, n, ReplicaMust(b, r, n))
    && QueueAlike(p, g, sent, n)
    && (n.health != Terminated ==> LocksAlike(n, Mirror(p, g.base, g.baseTable, sent, i)))
  }

  ghost predicate VotesAlike(p: Program, g: Ground, sent: seq<Msg>, b: Ballots) {
    forall s, r :: (s, r) in b.yes ==> !Refused(p, g, sent, s) || Outlived(p, g, s)
  }

  ghost predicate CommitsVoted(g: Ground, b: Ballots) {
    forall s :: s in g.decided && g.decided[s] ==> exists r :: (s, r) in b.yes
  }

  ghost predicate LockedSystem(p: Program, sys: System) {
    && PrimaryLocked(p, sys.ground, sys.primary)
    && VotesAlike(p, sys.ground, sys.net.sent, sys.ballots)
    && CommitsVoted(sys.ground, sys.ballots)
    && forall r :: r in sys.replicas ==>
         r in sys.net.read &&
         ReplicaLocked(p, sys.ground, sys.net.sent, sys.ballots, r, sys.replicas[r], sys.net.read[r])
  }

  /** What is committed was refused by none of the servers that could have given it the lock. */
  lemma CommittedIsGranted(p: Program, g: Ground, sent: seq<Msg>, b: Ballots, s: nat)
    requires VotesAlike(p, g, sent, b) && CommitsVoted(g, b) && CommitsLast(p, g)
    requires s in g.decided && g.decided[s]
    ensures !Refused(p, g, sent, s)
  {
    var r :| (s, r) in b.yes;
  }

  lemma OutlivedGrows(p: Program, g: Ground, g': Ground, s: nat)
    requires GrowsInto(g, g') && s in g.started && Outlived(p, g, s)
    ensures Outlived(p, g', s)
  {
    var x: nat :| x < s && NeverReleased(p, g, x) && KeyOf(p, g, x).Some? && KeyOf(p, g, x) == KeyOf(p, g, s);
    assert NeverReleased(p, g', x) && KeyOf(p, g', x) == KeyOf(p, g', s);
  }

  lemma RefusedGrows(p: Program, g: Ground, g': Ground, sent: seq<Msg>, msg: Msg, s: nat)
    requires g'.base == g.base && g'.baseTable == g.baseTable && !(msg.Prepare? && msg.number == s)
    ensures Refused(p, g', sent + [msg], s) <==> Refused(p, g, sent, s)
  {
    forall i | 0 <= i < |sent|
      ensures Mirror(p, g.base, g.baseTable, sent + [msg], i) == Mirror(p, g.base, g.baseTable, sent, i)
      ensures IsPrepareOf(sent + [msg], i, s) <==> IsPrepareOf(sent, i, s)
    {
      MirrorPrefix(p, g.base, g.baseTable, sent, [msg], i);
    }
    assert !IsPrepareOf(sent + [msg], |sent|, s);
  }

  /** A message is broadcast: not a PREPARE of a number that was started before. */
  ghost predicate Broadcasts(sys: System, g: Ground, msg: Msg) {
    && GrowsInto(sys.ground, g) && (forall s :: s in g.started ==> s > g.base)
    && (msg.Prepare? ==> msg.number !in sys.ground.started)
  }

  lemma BroadcastVotes(p: Program, sys: System, g: Ground, msg: Msg)
    requires FairSystem(sys) && VotesAlike(p, sys.ground, sys.net.sent, sys.ballots) && Broadcasts(sys, g, msg)
    ensures VotesAlike(p, g, sys.net.sent + [msg], sys.ballots)
  {
    forall s, r | (s, r) in sys.ballots.yes ensures !Refused(p, g, sys.net.sent + [msg], s) || Outlived(p, g, s) {
      assert Voted(sys.ballots, s, r);
      RefusedGrows(p, sys.ground, g, sys.net.sent, msg, s);
      if Outlived(p, sys.ground, s) { OutlivedGrows(p, sys.ground, g, s); }
    }
  }

  lemma BroadcastReplica(p: Program, sys: System, g: Ground, msg: Msg, b: Ballots, r: Id)
    requires Safe(p, sys) && LockedSystem(p, sys) && Broadcasts(sys, g, msg) && r in sys.replicas
    requires b.yes == sys.ballots.yes
    ensures ReplicaLocked(p, g, sys.net.sent + [msg], b, r, sys.replicas[r], sys.net.read[r])
  {
    var n := sys.replicas[r];
    assert ReplicaMust(b, r, n) == ReplicaMust(sys.ballots, r, n);
    assert NodeOk(p, sys.ground, n);
    LocksExtend(p, sys.ground, g, n, ReplicaMust(b, r, n));
    MirrorPrefix(p, g.base, g.baseTable, sys.net.sent, [msg], sys.net.read[r]);
    BroadcastQueue(p, sys.ground, g, sys.net.sent, msg, n);
  }

  lemma BroadcastQueue(p: Program, g: Ground, g': Ground, sent: seq<Msg>, msg: Msg, n: Node)
    requires QueueOk(g, n) && QueueAlike(p, g, sent, n) && GrowsInto(g, g')
    requires msg.Prepare? ==> msg.number !in g.started
    ensures QueueAlike(p, g', sent + [msg], n)
  {
    if n.health != Terminated {
      forall s | s in n.queue && s > n.lastSeq ensures Holds(p, g', n, s) || Refused(p, g', sent + [msg], s) {
        assert TransactionOk(g, s, n.queue[s]);
        RefusedGrows(p, g, g', sent, msg, s);
      }
    }
  }

  lemma BroadcastLocked(p: Program, sys: System, sys': System, msg: Msg)
    requires Safe(p, sys) && FairSystem(sys) && LockedSystem(p, sys) && Broadcasts(sys, sys'.ground, msg)
    requires sys'.net == Broadcast(sys.net, msg) && sys'.replicas == sys.replicas && sys'.ballots.yes == sys.ballots.yes
    requires PrimaryLocked(p, sys'.ground, sys'.primary) && CommitsVoted(sys'.ground, sys'.ballots)
    ensures LockedSystem(p, sys')
  {
    BroadcastVotes(p, sys, sys'.ground, msg);
    assert VotesAlike(p, sys'.ground, sys'.net.sent, sys'.ballots);
    forall r | r in sys'.replicas
      ensures r in sys'.net.read
      ensures ReplicaLocked(p, sys'.ground, sys'.net.sent, sys'.ballots, r, sys'.replicas[r], sys'.net.read[r])
    {
      BroadcastReplica(p, sys, sys'.ground, msg, sys'.ballots, r);
    }
  }

  lemma StartTpcLocked(p: Program, sys: System, hash: string, command: string)
    requires Safe(p, sys) && FairSystem(sys) && LockedSystem(p, sys)
    ensures LockedSystem(p, StartTpc(sys, hash, command))
  {
    var s := sys.primary.tpcSeq + 1;
    var sys', msg := StartTpc(sys, hash, command), Prepare(s, hash, command);
    StartTpcSafe(p, sys, hash, command);
    StartTpcIs(sys, hash, command);
    assert Broadcasts(sys, sys'.ground, msg);
    StartLocks(p, sys.ground, sys'.ground, sys.primary, hash, command);
    BroadcastLocked(p, sys, sys', msg);
  }

  lemma StartLocks(p: Program, g: Ground, g': Ground, n: Node, hash: string, command: string)
    requires NodeOk(p, g, n) && PrimaryLocked(p, g, n) && GrowsInto(g, g') && g'.decided == g.decided
    requires PrimaryKnows(g, n) && forall s :: s in g'.started ==> s > g.base
    ensures PrimaryLocked(p, g', Start(n, hash, command))
  {
    assert PrimaryMust(g') == PrimaryMust(g);
    LocksExtend(p, g, g', n, PrimaryMust(g));
    LocksFrame(p, g', n, Start(n, hash, command), PrimaryMust(g));
    LastExtends(p, g, g');
  }

  /** The primary decides; a commit only after it was granted the lock and somebody voted YES. */
  lemma PrimaryDecideLocked(p: Program, sys: System, s: nat, hash: string, commit: bool)
    requires Coherent(p) && p.unlockRepaired && Safe(p, sys) && FairSystem(sys) && LockedSystem(p, sys)
    requires sys.primary.health == Up
    requires s in sys.ground.started && sys.ground.started[s].hash == hash
    requires commit ==> Holds(p, sys.ground, sys.primary, s) && exists r :: (s, r) in sys.ballots.yes
    ensures LockedSystem(p, PrimaryDecide(p, sys, s, hash, commit))
  {
    if !AlreadyProcessed(sys.primary, s) {
      OwnDecision(p, sys, s, hash, commit);
      DecisionLocked(p, sys, PrimaryDecide(p, sys, s, hash, commit), s, hash, commit);
    }
  }

  lemma OwnDecision(p: Program, sys: System, s: nat, hash: string, commit: bool)
    requires Coherent(p) && p.unlockRepaired && Safe(p, sys) && PrimaryLocked(p, sys.ground, sys.primary)
    requires sys.primary.health == Up
    requires s in sys.ground.started && sys.ground.started[s].hash == hash && !AlreadyProcessed(sys.primary, s)
    requires commit ==> Holds(p, sys.ground, sys.primary, s)
    ensures s !in sys.ground.decided
    ensures PrimaryLocked(p, sys.ground.(decided := sys.ground.decided[s := commit]),
              Decide(p, sys.primary, s, hash, commit))
  {
    var g := sys.ground.(decided := sys.ground.decided[s := commit]);
    assert s !in sys.ground.decided;
    GroundGrows(p, sys, g);
    OwnDecisionLocked(p, sys.ground, g, sys.primary, s, hash, commit);
  }

  lemma DecisionLocked(p: Program, sys: System, sys': System, s: nat, hash: string, commit: bool)
    requires Safe(p, sys) && FairSystem(sys) && LockedSystem(p, sys) && s in sys.ground.started
    requires s !in sys.ground.decided
    requires commit ==> exists r :: (s, r) in sys.ballots.yes
    requires sys'.ground == sys.ground.(decided := sys.ground.decided[s := commit])
    requires sys'.net == Broadcast(sys.net, Decided(s, hash, commit))
    requires sys'.replicas == sys.replicas && sys'.ballots.yes == sys.ballots.yes
    requires PrimaryLocked(p, sys'.ground, sys'.primary)
    ensures LockedSystem(p, sys')
  {
    assert Broadcasts(sys, sys'.ground, Decided(s, hash, commit));
    BroadcastLocked(p, sys, sys', Decided(s, hash, commit));
  }

  /** Clients, votes on their way and what has been counted are not what the invariant is about. */
  ghost predicate SameCore(sys: System, sys': System) {
    && sys'.ground == sys.ground && sys'.ballots.yes == sys.ballots.yes
    && sys'.net.sent == sys.net.sent && sys'.net.read == sys.net.read
    && sys'.primary == sys.primary.(desk := sys'.primary.desk) && sys'.replicas.Keys == sys.replicas.Keys
    && forall r :: r in sys.replicas ==> sys'.replicas[r] == sys.replicas[r].(desk := sys'.replicas[r].desk)
  }

  lemma FrameLocked(p: Program, sys: System, sys': System)
    requires LockedSystem(p, sys) && SameCore(sys, sys')
    ensures LockedSystem(p, sys')
  {
    LocksFrame(p, sys.ground, sys.primary, sys'.primary, PrimaryMust(sys.ground));
    forall r | r in sys'.replicas
      ensures r in sys'.net.read
      ensures ReplicaLocked(p, sys'.ground, sys'.net.sent, sys'.ballots, r, sys'.replicas[r], sys'.net.read[r])
    {
      assert ReplicaMust(sys'.ballots, r, sys'.replicas[r]) == ReplicaMust(sys.ballots, r, sys.replicas[r]);
      assert ReplicaLocked(p, sys.ground, sys.net.sent, sys.ballots, r, sys.replicas[r], sys.net.read[r]);
    }
  }

  lemma PrimaryLocksLocked(p: Program, sys: System, n: Node)
    requires LockedSystem(p, sys) && PrimaryLocked(p, sys.ground, n)
    ensures LockedSystem(p, sys.(primary := n))
  {
  }

  lemma ConcludeLocked(p: Program, sys: System, s: nat, hash: string, command: string)
    requires Coherent(p) && p.unlockRepaired && Safe(p, sys) && FairSystem(sys) && LockedSystem(p, sys)
    requires sys.primary.health == Up
    requires s in sys.ground.started && sys.ground.started[s] == Started(hash, command)
    requires !AlreadyProcessed(sys.primary, s)
    requires exists r :: (s, r) in sys.ballots.yes
    ensures LockedSystem(p, Conclude(p, sys, s, hash, command))
  {
    var (n, granted) := Acquire(p, sys.primary, s, command);
    AcquireLocks(p, sys.ground, sys.primary, s, command, PrimaryMust(sys.ground));
    PrimaryFrameSafe(p, sys, n);
    PrimaryLocksLocked(p, sys, n);
    PrimaryDecideLocked(p, sys.(primary := n), s, hash, granted);
  }

  lemma OnVoteLocked(p: Program, sys: System, r: Id, s: nat, hash: string, yes: bool)
    requires Coherent(p) && p.unlockRepaired && Safe(p, sys) && FairSystem(sys) && LockedSystem(p, sys)
    requires sys.primary.health == Up
    requires s in sys.ground.started && sys.ground.started[s].hash == hash
    requires BallotOk(sys.ballots, r, Vote(s, hash, yes))
    ensures LockedSystem(p, OnVote(p, sys, r, s, hash, yes))
  {
    if AlreadyProcessed(sys.primary, s) || s !in sys.primary.queue {
    } else if !yes {
      PrimaryDecideLocked(p, sys, s, hash, false);
    } else {
      var sys1 := sys.(ballots := Count(sys.ballots, s, r));
      FrameLocked(p, sys, sys1);
      CountFair(sys.ground, sys.net, sys.ballots, s, r);
      assert TransactionOk(sys.ground, s, sys.primary.queue[s]);
      if EnoughVotes(sys1.ballots, s, sys.net.connected) {
        assert (s, r) in sys1.ballots.yes;
        ConcludeLocked(p, sys1, s, hash, sys.primary.queue[s].command);
      }
    }
  }

  lemma PrimaryReceivesLocked(p: Program, sys: System, r: Id)
    requires Coherent(p) && p.unlockRepaired && Safe(p, sys) && FairSystem(sys) && LockedSystem(p, sys)
    ensures LockedSystem(p, DoPrimaryReceives(p, sys, r))
  {
    if PrimaryCanReceive(sys, r) {
      PopKeeps(p, sys, r);
      var sys1 := Pop(sys, r);
      FrameLocked(p, sys, sys1);
      match UpFrom(sys.net, r)[0]
      case Vote(s, hash, yes) => OnVoteLocked(p, sys1, r, s, hash, yes);
      case Forward(hash, command) =>
        var sys2 := RememberAtPrimary(p, sys1, hash, command, false, 0);
        PrimaryFrameSafe(p, sys1, sys2.primary);
        FrameLocked(p, sys1, sys2);
        StartTpcLocked(p, sys2, hash, command);
    }
  }

  // ---------------------------------------------------------------- a replica reads

  /** What replica r and the ballots may be after it has read its next message. */
  ghost predicate MayBecome(p: Program, sys: System, r: Id, n: Node, b: Ballots)
    requires r in sys.net.read
  {
    && ReplicaLocked(p, sys.ground, sys.net.sent, b, r, n, sys.net.read[r] + 1)
    && VotesAlike(p, sys.ground, sys.net.sent, b)
    && sys.ballots.yes <= b.yes && (forall s, q :: (s, q) in b.yes && q != r ==> (s, q) in sys.ballots.yes)
  }

  lemma ReplicaChangesLocked(p: Program, sys: System, r: Id, n: Node, b: Ballots, net: Net)
    requires LockedSystem(p, sys) && r in sys.replicas && HasUnread(sys.net, r) && MayBecome(p, sys, r, n, b)
    requires net.sent == sys.net.sent && net.read == sys.net.read[r := sys.net.read[r] + 1]
    ensures LockedSystem(p, sys.(replicas := sys.replicas[r := n], ballots := b, net := net))
  {
    var sys' := sys.(replicas := sys.replicas[r := n], ballots := b, net := net);
    forall q | q in sys'.replicas
      ensures q in net.read && ReplicaLocked(p, sys.ground, net.sent, b, q, sys'.replicas[q], net.read[q])
    {
      if q != r { assert ReplicaMust(b, q, sys.replicas[q]) == ReplicaMust(sys.ballots, q, sys.replicas[q]); }
    }
    forall s | s in sys.ground.decided && sys.ground.decided[s] ensures exists q :: (s, q) in b.yes {
      var q :| (s, q) in sys.ballots.yes;
      assert (s, q) in b.yes;
    }
  }

  /** A replica and its mirror in a run. */
  lemma {:induction false} TwinsInRun(p: Program, sys: System, r: Id)
    requires Coherent(p) && Safe(p, sys) && Mirrored(p, sys) && LockedSystem(p, sys) && r in sys.replicas
    ensures r in sys.net.read && sys.net.read[r] <= |sys.net.sent|
    ensures Twins(p, sys.ground, sys.replicas[r],
              Mirror(p, sys.ground.base, sys.ground.baseTable, sys.net.sent, sys.net.read[r]))
  {
    MirrorOk(p, sys.ground.base, sys.ground.baseTable, sys.ground, sys.net.sent, sys.net.read[r]);
    MirrorHolders(p, sys.ground.base, sys.ground.baseTable, sys.ground, sys.net.sent, sys.net.read[r]);
  }

  function BallotsAfter(b: Ballots, s: nat, r: Id, vote: Option<bool>): Ballots {
    if vote.None? then b else Cast(b, s, r, vote.value)
  }

  lemma PreparedLocks(
      p: Program, g: Ground, b: Ballots, r: Id, n: Node, s: nat, hash: string, command: string, recovering: bool)
    requires LocksOk(p, g, n, ReplicaMust(b, r, n)) && s in g.started && g.started[s] == Started(hash, command)
    ensures var (m, vote) := OnPrepare(p, n, s, hash, command, recovering);
      LocksOk(p, g, m, ReplicaMust(BallotsAfter(b, s, r, vote), r, m))
  {
    var must := ReplicaMust(b, r, n);
    OnPrepareLocks(p, g, n, s, hash, command, recovering, must);
    var (m, vote) := OnPrepare(p, n, s, hash, command, recovering);
    var must' := ReplicaMust(BallotsAfter(b, s, r, vote), r, m);
    assert forall x :: x in must' ==> x in must || (x == s && vote == Some(true));
  }

  /** PREPARE is the message at position i. */
  lemma {:induction false} PreparedQueue(p: Program, g: Ground, sent: seq<Msg>, n: Node, i: nat, recovering: bool)
    requires i < |sent| && sent[i].Prepare? && QueueAlike(p, g, sent, n) && n.health == Up
    requires MsgOk(g, sent[i]) && LocksAlike(n, Mirror(p, g.base, g.baseTable, sent, i))
    requires Same(n, Mirror(p, g.base, g.baseTable, sent, i))
    ensures QueueAlike(p, g, sent, OnPrepare(p, n, sent[i].number, sent[i].hash, sent[i].command, recovering).0)
  {
    var s, command := sent[i].number, sent[i].command;
    var m := Mirror(p, g.base, g.baseTable, sent, i);
    PrepareLocksAlike(p, n, m, s, sent[i].hash, command, recovering);
    PreparedHolds(p, g, n, s, sent[i].hash, command, recovering);
    if !Grants(p, n, command) { assert IsPrepareOf(sent, i, s) && !Grants(p, m, command); }
  }

  lemma PreparedHolds(p: Program, g: Ground, n: Node, s: nat, hash: string, command: string, recovering: bool)
    requires s in g.started && g.started[s] == Started(hash, command)
    ensures var m := OnPrepare(p, n, s, hash, command, recovering).0;
      && m.lastSeq == n.lastSeq && m.health == n.health
      && (forall x :: x in m.queue ==> x in n.queue || x == s)
      && (forall x :: Holds(p, g, n, x) ==> Holds(p, g, m, x))
      && (s !in n.queue && n.lastSeq < s && Grants(p, n, command) ==> Holds(p, g, m, s))
    ensures var vote := OnPrepare(p, n, s, hash, command, recovering).1;
            vote == Some(true) ==> Grants(p, n, command) && s > n.lastSeq
  {
  }

  /** A YES vote was either possible for everybody, or its row is locked for good elsewhere. */
  lemma {:induction false} VotedAlike(p: Program, g: Ground, sent: seq<Msg>, b: Ballots, net: Net, n: Node, i: nat)
    requires Coherent(p) && IsPrepare(net, i) && net.sent == sent && VotesOk(g, net, b) && MsgOk(g, sent[i])
    requires sent[i].number > n.lastSeq
    requires Twins(p, g, n, Mirror(p, g.base, g.baseTable, sent, i)) && n.health == Up && Grants(p, n, sent[i].command)
    ensures !Refused(p, g, sent, sent[i].number) || Outlived(p, g, sent[i].number)
  {
    var s, m := sent[i].number, Mirror(p, g.base, g.baseTable, sent, i);
    PrepareLocksAlike(p, n, m, s, sent[i].hash, sent[i].command, false);
    if Grants(p, m, sent[i].command) {
      forall j | IsPrepareOf(sent, j, s) ensures j == i { assert IsPrepare(net, j); }
    } else {
      KeptIsOutlived(p, g, m, s);
    }
  }

  function VoteOn(p: Program, n: Node, msg: Msg, recovering: bool): Option<bool>
    requires msg.Prepare?
  {
    OnPrepare(p, n, msg.number, msg.hash, msg.command, recovering).1
  }

  lemma ReplicaPreparesLocked(p: Program, sys: System, r: Id, recovering: bool)
    requires Coherent(p) && Safe(p, sys) && FairSystem(sys) && Mirrored(p, sys) && LockedSystem(p, sys)
    requires ReplicaCanReceive(sys, r) && IsPrepare(sys.net, sys.net.read[r])
    ensures LockedSystem(p,
              AfterPrepare(p, sys.(net := Advance(sys.net, r)), r, sys.net.sent[sys.net.read[r]], recovering))
  {
    PreparingMakes(p, sys, r, recovering);
    AfterPrepareLocked(p, sys, r, recovering);
  }

  lemma PreparingMakes(p: Program, sys: System, r: Id, recovering: bool)
    requires Coherent(p) && Safe(p, sys) && FairSystem(sys) && Mirrored(p, sys) && LockedSystem(p, sys)
    requires ReplicaCanReceive(sys, r) && IsPrepare(sys.net, sys.net.read[r])
    ensures var msg := sys.net.sent[sys.net.read[r]];
      MayBecome(p, sys, r, Received(p, sys.replicas[r], msg, recovering),
                BallotsAfter(sys.ballots, msg.number, r, VoteOn(p, sys.replicas[r], msg, recovering)))
  {
    var msg := sys.net.sent[sys.net.read[r]];
    PreparedReplica(p, sys, r, recovering);
    VotesAfter(p, sys, r, recovering);
    VotesOnlyAdded(sys.ballots, msg.number, r, VoteOn(p, sys.replicas[r], msg, recovering));
  }

  lemma VotesOnlyAdded(b: Ballots, s: nat, r: Id, vote: Option<bool>)
    ensures b.yes <= BallotsAfter(b, s, r, vote).yes
    ensures forall x, q :: (x, q) in BallotsAfter(b, s, r, vote).yes && q != r ==> (x, q) in b.yes
  {
  }

  lemma AfterPrepareLocked(p: Program, sys: System, r: Id, recovering: bool)
    requires LockedSystem(p, sys) && ReplicaCanReceive(sys, r) && IsPrepare(sys.net, sys.net.read[r])
    requires var msg := sys.net.sent[sys.net.read[r]];
      MayBecome(p, sys, r, Received(p, sys.replicas[r], msg, recovering),
                BallotsAfter(sys.ballots, msg.number, r, VoteOn(p, sys.replicas[r], msg, recovering)))
    ensures LockedSystem(p,
              AfterPrepare(p, sys.(net := Advance(sys.net, r)), r, sys.net.sent[sys.net.read[r]], recovering))
  {
    var msg := sys.net.sent[sys.net.read[r]];
    var sys' := AfterPrepare(p, sys.(net := Advance(sys.net, r)), r, msg, recovering);
    AfterPrepareIs(p, sys.(net := Advance(sys.net, r)), r, msg, recovering);
    ReplicaChangesLocked(p, sys, r, Received(p, sys.replicas[r], msg, recovering),
                         BallotsAfter(sys.ballots, msg.number, r,
                             VoteOn(p, sys.replicas[r], msg, recovering)), sys'.net);
  }

  lemma AfterPrepareIs(p: Program, sys: System, r: Id, msg: Msg, recovering: bool)
    requires msg.Prepare? && r in sys.replicas
    ensures var sys' := AfterPrepare(p, sys, r, msg, recovering);
      && sys' == sys.(replicas := sys.replicas[r := Received(p, sys.replicas[r], msg, recovering)],
                      ballots := BallotsAfter(sys.ballots, msg.number, r,
                          VoteOn(p, sys.replicas[r], msg, recovering)), net := sys'.net)
      && sys'.net.sent == sys.net.sent && sys'.net.read == sys.net.read
  {
  }

  lemma PreparedReplica(p: Program, sys: System, r: Id, recovering: bool)
    requires Coherent(p) && Safe(p, sys) && Mirrored(p, sys) && LockedSystem(p, sys)
    requires ReplicaCanReceive(sys, r) && IsPrepare(sys.net, sys.net.read[r])
    ensures var msg := sys.net.sent[sys.net.read[r]];
      ReplicaLocked(p, sys.ground, sys.net.sent,
          BallotsAfter(sys.ballots, msg.number, r, VoteOn(p, sys.replicas[r], msg, recovering)), r,
                    Received(p, sys.replicas[r], msg, recovering), sys.net.read[r] + 1)
  {
    var i, n := sys.net.read[r], sys.replicas[r];
    var msg := sys.net.sent[i];
    var m := Mirror(p, sys.ground.base, sys.ground.baseTable, sys.net.sent, i);
    assert MsgOk(sys.ground, msg);
    TwinsInRun(p, sys, r);
    PreparedLocks(p, sys.ground, sys.ballots, r, n, msg.number, msg.hash, msg.command, recovering);
    PreparedQueue(p, sys.ground, sys.net.sent, n, i, recovering);
    PrepareLocksAlike(p, n, m, msg.number, msg.hash, msg.command, recovering);
  }

  lemma VotesAfter(p: Program, sys: System, r: Id, recovering: bool)
    requires Coherent(p) && Safe(p, sys) && FairSystem(sys) && Mirrored(p, sys) && LockedSystem(p, sys)
    requires ReplicaCanReceive(sys, r) && IsPrepare(sys.net, sys.net.read[r])
    ensures var msg := sys.net.sent[sys.net.read[r]];
      VotesAlike(p, sys.ground, sys.net.sent,
          BallotsAfter(sys.ballots, msg.number, r, VoteOn(p, sys.replicas[r], msg, recovering)))
  {
    assert MsgOk(sys.ground, sys.net.sent[sys.net.read[r]]);
    TwinsInRun(p, sys, r);
    OneMoreVote(p, sys.ground, sys.net, sys.ballots, r, sys.replicas[r], recovering);
  }

  lemma {:induction false} OneMoreVote(p: Program, g: Ground, net: Net, b: Ballots, r: Id, n: Node, recovering: bool)
    requires Coherent(p) && r in net.read && IsPrepare(net, net.read[r]) && VotesOk(g, net, b)
    requires MsgOk(g, net.sent[net.read[r]])
    requires Twins(p, g, n, Mirror(p, g.base, g.baseTable, net.sent, net.read[r])) && n.health == Up
    requires VotesAlike(p, g, net.sent, b)
    ensures var msg := net.sent[net.read[r]];
      VotesAlike(p, g, net.sent, BallotsAfter(b, msg.number, r, VoteOn(p, n, msg, recovering)))
  {
    var msg := net.sent[net.read[r]];
    PreparedHolds(p, g, n, msg.number, msg.hash, msg.command, recovering);
    if VoteOn(p, n, msg, recovering) == Some(true) {
      VotedAlike(p, g, net.sent, b, net, n, net.read[r]);
    }
  }

  /** A committed transaction that a replica has queued has its lock there. */
  lemma CommittedHolds(p: Program, sys: System, r: Id, s: nat)
    requires LockedSystem(p, sys) && r in sys.replicas && sys.replicas[r].health != Terminated
    requires s in sys.ground.decided && sys.ground.decided[s] && s in sys.replicas[r].queue
    requires s > sys.replicas[r].lastSeq
    ensures Holds(p, sys.ground, sys.replicas[r], s)
  {
    CommittedIsGranted(p, sys.ground, sys.net.sent, sys.ballots, s);
  }

  ghost function HeldBy(p: Program, g: Ground, n: Node): iset<nat> {
    iset s | Holds(p, g, n, s)
  }

  lemma DecidedReplica(p: Program, sys: System, r: Id, s: nat, hash: string, commit: bool)
    requires Coherent(p) && p.unlockRepaired && Safe(p, sys) && Mirrored(p, sys) && LockedSystem(p, sys)
    requires ReplicaCanReceive(sys, r) && sys.net.sent[sys.net.read[r]] == Decided(s, hash, commit)
    ensures ReplicaLocked(p, sys.ground, sys.net.sent, sys.ballots, r, Decide(p, sys.replicas[r], s, hash, commit),
              sys.net.read[r] + 1)
  {
    var g, n := sys.ground, sys.replicas[r];
    assert MsgOk(g, Decided(s, hash, commit)) && NodeOk(p, g, n);
    TwinsInRun(p, sys, r);
    DecideTwins(p, g, n, Mirror(p, g.base, g.baseTable, sys.net.sent, sys.net.read[r]), s, hash, commit);
    if commit && s in n.queue && s > n.lastSeq { CommittedHolds(p, sys, r, s); }
    DecidedLocks(p, g, sys.net.sent, sys.ballots, r, n, s, hash, commit);
  }

  lemma DecidedLocks(
      p: Program, g: Ground, sent: seq<Msg>, b: Ballots, r: Id, n: Node, s: nat, hash: string, commit: bool)
    requires Coherent(p) && p.unlockRepaired && NodeOk(p, g, n) && n.health == Up
    requires LocksOk(p, g, n, ReplicaMust(b, r, n)) && QueueAlike(p, g, sent, n)
    requires Settled(g, s) && g.started[s].hash == hash && g.decided[s] == commit
    requires commit && s in n.queue && s > n.lastSeq ==> Holds(p, g, n, s)
    ensures var m := Decide(p, n, s, hash, commit); LocksOk(p, g, m, ReplicaMust(b, r, m)) && QueueAlike(p, g, sent, m)
  {
    var must := ReplicaMust(b, r, n) + HeldBy(p, g, n);
    DecideLocks(p, g, n, s, hash, commit, must);
    DecideQueue(p, n, s, hash, commit);
  }

  /** Draining leaves entries as they are; only the decided number's status changes. */
  lemma {:induction false} DrainQueue(p: Program, n: Node)
    ensures forall s :: s in Drain(p, n).queue ==> s in n.queue && n.queue[s] == Drain(p, n).queue[s]
    ensures Drain(p, n).lastSeq >= n.lastSeq
    decreases |Above(n)|
  {
    if n.health == Up && HeadDecided(n) {
      ProcessNextEffect(p, n);
      ProcessNextShrinks(p, n);
      DrainQueue(p, ProcessNext(p, n));
    }
  }

  lemma DecideQueue(p: Program, n: Node, s: nat, hash: string, commit: bool)
    ensures var m := Decide(p, n, s, hash, commit);
      && m.lastSeq >= n.lastSeq
      && (forall x :: x in m.queue ==> x in n.queue)
      && (forall x :: x in m.queue && x != s ==> m.queue[x] == n.queue[x])
      && (s in m.queue && !AlreadyProcessed(n, s) ==> m.queue[s].status == if commit then Commit else Abort)
      && (AlreadyProcessed(n, s) ==> m == n)
  {
    if !AlreadyProcessed(n, s) { DrainQueue(p, Marked(n, s, hash, commit)); }
  }

  lemma ReplicaReceivesLocked(p: Program, sys: System, r: Id, recovering: bool)
    requires Coherent(p) && p.unlockRepaired && Safe(p, sys) && FairSystem(sys) && Mirrored(p, sys)
    requires LockedSystem(p, sys)
    ensures LockedSystem(p, DoReplicaReceives(p, sys, r, recovering))
  {
    if ReplicaCanReceive(sys, r) {
      var msg := sys.net.sent[sys.net.read[r]];
      if msg.Prepare? {
        ReplicaPreparesLocked(p, sys, r, recovering);
      } else {
        ReplicaDecidesLocked(p, sys, r, msg.number, msg.hash, msg.commit);
      }
    }
  }

  lemma ReplicaDecidesLocked(p: Program, sys: System, r: Id, s: nat, hash: string, commit: bool)
    requires Coherent(p) && p.unlockRepaired && Safe(p, sys) && Mirrored(p, sys) && LockedSystem(p, sys)
    requires ReplicaCanReceive(sys, r) && sys.net.sent[sys.net.read[r]] == Decided(s, hash, commit)
    ensures LockedSystem(p, sys.(net := Advance(sys.net, r),
              replicas := sys.replicas[r := Decide(p, sys.replicas[r], s, hash, commit)]))
  {
    DecidedReplica(p, sys, r, s, hash, commit);
    AfterDecisionLocked(p, sys, r, Decide(p, sys.replicas[r], s, hash, commit));
  }

  lemma AfterDecisionLocked(p: Program, sys: System, r: Id, n: Node)
    requires LockedSystem(p, sys) && ReplicaCanReceive(sys, r)
    requires ReplicaLocked(p, sys.ground, sys.net.sent, sys.ballots, r, n, sys.net.read[r] + 1)
    ensures LockedSystem(p, sys.(net := Advance(sys.net, r), replicas := sys.replicas[r := n]))
  {
    ReplicaChangesLocked(p, sys, r, n, sys.ballots, Advance(sys.net, r));
    assert sys.(replicas := sys.replicas[r := n], ballots := sys.ballots, net := Advance(sys.net, r)) ==
           sys.(net := Advance(sys.net, r), replicas := sys.replicas[r := n]);
  }

  // ---------------------------------------------------------------- runs

  lemma JoinLocked(p: Program, sys: System, r: Id)
    requires Coherent(p) && Safe(p, sys) && FairSystem(sys) && Mirrored(p, sys) && LockedSystem(p, sys)
    ensures LockedSystem(p, DoJoin(sys, r))
  {
    if CanJoin(sys, r) {
      var n := Snapshot(sys.primary);
      forall s: nat ensures (s, r) !in sys.ballots.yes {
        assert Voted(sys.ballots, s, r) ==> r in sys.net.read;
      }
      MirrorHolders(p, sys.ground.base, sys.ground.baseTable, sys.ground, sys.net.sent, |sys.net.sent|);
      NothingInFlight(p, sys.ground, sys.primary,
          Mirror(p, sys.ground.base, sys.ground.baseTable, sys.net.sent, |sys.net.sent|));
      assert ReplicaLocked(p, sys.ground, sys.net.sent, sys.ballots, r, n, |sys.net.sent|);
      NewcomerLocked(p, sys, r, n);
    }
  }

  lemma NothingInFlight(p: Program, g: Ground, n: Node, m: Node)
    requires Same(n, m) && Quiescent(n) && PrimaryKnows(g, n) && HoldersOk(p, g, m)
    ensures LocksAlike(Snapshot(n), m)
  {
    forall k | k in m.locks ensures KeptForGood(m, k) { assert HolderOk(p, g, m, k); }
  }

  lemma NewcomerLocked(p: Program, sys: System, r: Id, n: Node)
    requires LockedSystem(p, sys) && r !in sys.replicas
    requires ReplicaLocked(p, sys.ground, sys.net.sent, sys.ballots, r, n, |sys.net.sent|)
    ensures LockedSystem(p, sys.(replicas := sys.replicas[r := n], net := Open(sys.net, r)))
  {
  }

  lemma WriteAtPrimaryLocked(p: Program, sys: System, hash: string, fd: nat, command: string)
    requires Safe(p, sys) && FairSystem(sys) && LockedSystem(p, sys)
    ensures LockedSystem(p, DoWriteAtPrimary(p, sys, hash, fd, command))
  {
    if PrimaryCanWrite(sys, hash) {
      var a := Accepted(AtPrimary, fd, command);
      var sys1 := RememberAtPrimary(p, sys, hash, command, true, fd).(accepted := sys.accepted[hash := a]);
      PrimaryFrameSafe(p, sys, sys1.primary);
      FrameLocked(p, sys, sys1);
      StartTpcLocked(p, sys1, hash, command);
    }
  }

  lemma WriteAtReplicaCore(sys: System, r: Id, hash: string, fd: nat, command: string)
    ensures SameCore(sys, DoWriteAtReplica(sys, r, hash, fd, command))
  {
  }

  lemma LeaveCore(sys: System, r: Id)
    ensures SameCore(sys, DoLeave(sys, r))
  {
  }

  lemma DeskCore(sys: System, site: Site, d: Desk)
    ensures SameCore(sys, WithDesk(sys, site, d))
  {
  }

  lemma OutsideCore(p: Program, sys: System, a: Action)
    requires a.WriteAtReplica? || a.Leave? || a.SetCheckpointing? || a.SendQueued?
    ensures SameCore(sys, Step(p, sys, a))
  {
    match a
    case WriteAtReplica(r, hash, fd, command) => WriteAtReplicaCore(sys, r, hash, fd, command);
    case Leave(r) => LeaveCore(sys, r);
    case SetCheckpointing(site, tablets) => DeskCore(sys, site, DeskAt(sys, site).(checkpointing := tablets));
    case SendQueued(site) => DeskCore(sys, site, SendDeferred(DeskAt(sys, site)));
  }

  lemma TimeoutLocked(p: Program, sys: System, s: nat)
    requires Coherent(p) && p.unlockRepaired && Safe(p, sys) && FairSystem(sys) && LockedSystem(p, sys)
    ensures LockedSystem(p, DoTimeout(p, sys, s))
  {
    if sys.primary.health == Up && s in sys.primary.queue {
      assert TransactionOk(sys.ground, s, sys.primary.queue[s]);
      PrimaryDecideLocked(p, sys, s, sys.primary.queue[s].hash, false);
    }
  }

  lemma StepLocked(p: Program, sys: System, a: Action)
    requires Coherent(p) && p.unlockRepaired && Safe(p, sys) && FairSystem(sys) && Mirrored(p, sys)
    requires LockedSystem(p, sys)
    ensures LockedSystem(p, Step(p, sys, a))
  {
    if a.WriteAtPrimary? {
      WriteAtPrimaryLocked(p, sys, a.hash, a.fd, a.command);
    } else if a.PrimaryReceives? {
      PrimaryReceivesLocked(p, sys, a.id);
    } else if a.ReplicaReceives? {
      ReplicaReceivesLocked(p, sys, a.id, a.recovering);
    } else if a.Timeout? {
      TimeoutLocked(p, sys, a.number);
    } else if a.Join? {
      JoinLocked(p, sys, a.id);
    } else {
      OutsideCore(p, sys, a);
      FrameLocked(p, sys, Step(p, sys, a));
    }
  }

  lemma {:induction false} RunLocked(p: Program, base: nat, table: Table, actions: seq<Action>)
    requires Coherent(p) && p.unlockRepaired
    ensures LockedSystem(p, Run(p, base, table, actions))
  {
    if actions != [] {
      var before := actions[..|actions| - 1];
      RunLocked(p, base, table, before);
      RunSafe(p, base, table, before);
      RunFair(p, base, table, before);
      RunMirrored(p, base, table, before);
      StepLocked(p, Run(p, base, table, before), actions[|actions| - 1]);
    }
  }

  // ---------------------------------------------------------------- the two unlocks

  /** In the run so far every ABORT that a server processed found the row lock of its key free or
      its own. */
  predicate AbortsSpare(sys: System) {
    sys.primary.foreign == {} && forall r :: r in sys.replicas ==> sys.replicas[r].foreign == {}
  }

  /** The same program with an ABORT that asks who holds the lock. */
  function Guarded(p: Program): Program {
    p.(unlockRepaired := true)
  }

  /** From n, the program leads to x and the guarded one to y: they part at the first ABORT that
      finds its key held by another, and not before. */
  predicate PartsAt(p: Program, n: Node, x: Node, y: Node) {
    && n.foreign <= x.foreign
    && (x.foreign == {} ==> y == x)
    && (!p.drainRepaired && !p.unlockRepaired && n.foreign == {} && y == x ==> x.foreign == {})
  }

  lemma TurnParts(p: Program, n: Node)
    requires HeadDecided(n)
    ensures n.foreign <= ProcessNext(p, n).foreign
    ensures ProcessNext(p, n).foreign == n.foreign == {} ==> ProcessNext(Guarded(p), n) == ProcessNext(p, n)
    ensures !p.unlockRepaired && n.foreign == {} && ProcessNext(Guarded(p), n) == ProcessNext(p, n) ==>
              ProcessNext(p, n).foreign == {}
  {
    var s := n.lastSeq + 1;
    var t := n.queue[s];
    if !p.unlockRepaired && t.status != Commit && HeldByOther(p, n.locks, s, t.command) {
      assert p.abortKey(t.command) in ProcessNext(Guarded(p), n).locks
             && p.abortKey(t.command) !in ProcessNext(p, n).locks;
    }
  }

  lemma {:induction false} DrainParts(p: Program, n: Node)
    ensures n.foreign <= Drain(p, n).foreign
    ensures Drain(p, n).foreign == {} ==> Drain(Guarded(p), n) == Drain(p, n)
    decreases |Above(n)|
  {
    if n.health == Up && HeadDecided(n) {
      TurnParts(p, n);
      ProcessNextShrinks(p, n);
      DrainParts(p, ProcessNext(p, n));
    }
  }

  lemma DecideParts(p: Program, n: Node, s: nat, hash: string, commit: bool)
    ensures PartsAt(p, n, Decide(p, n, s, hash, commit), Decide(Guarded(p), n, s, hash, commit))
  {
    if !AlreadyProcessed(n, s) {
      var m := Marked(n, s, hash, commit);
      DrainParts(p, m);
      if !p.drainRepaired && m.health == Up && HeadDecided(m) {
        DrainAsWrittenIsOneStep(p, m);
        DrainAsWrittenIsOneStep(Guarded(p), m);
        TurnParts(p, m);
      }
    }
  }

  ghost predicate PrimaryParts(p: Program, sys: System, x: System, y: System) {
    PartsAt(p, sys.primary, x.primary, y.primary) && x.replicas == sys.replicas && y == x.(primary := y.primary)
  }

  lemma PrimaryDecideParts(p: Program, sys: System, s: nat, hash: string, commit: bool)
    ensures PrimaryParts(p, sys, PrimaryDecide(p, sys, s, hash, commit),
              PrimaryDecide(Guarded(p), sys, s, hash, commit))
  {
    DecideParts(p, sys.primary, s, hash, commit);
  }

  lemma ConcludeParts(p: Program, sys: System, s: nat, hash: string, command: string)
    ensures PrimaryParts(p, sys, Conclude(p, sys, s, hash, command), Conclude(Guarded(p), sys, s, hash, command))
  {
    var (n, granted) := Acquire(p, sys.primary, s, command);
    assert Acquire(Guarded(p), sys.primary, s, command) == (n, granted);
    PrimaryDecideParts(p, sys.(primary := n), s, hash, granted);
  }

  lemma OnVoteParts(p: Program, sys: System, r: Id, s: nat, hash: string, yes: bool)
    ensures PrimaryParts(p, sys, OnVote(p, sys, r, s, hash, yes), OnVote(Guarded(p), sys, r, s, hash, yes))
  {
    PrimaryDecideParts(p, sys, s, hash, false);
    if s in sys.primary.queue {
      ConcludeParts(p, sys.(ballots := Count(sys.ballots, s, r)), s, hash, sys.primary.queue[s].command);
    }
  }

  lemma PrimaryReceivesParts(p: Program, sys: System, r: Id)
    ensures PrimaryParts(p, sys, DoPrimaryReceives(p, sys, r), DoPrimaryReceives(Guarded(p), sys, r))
  {
    if PrimaryCanReceive(sys, r) && UpFrom(sys.net, r)[0].Vote? {
      var msg := UpFrom(sys.net, r)[0];
      OnVoteParts(p, Pop(sys, r), r, msg.number, msg.hash, msg.yes);
    }
  }

  lemma TimeoutParts(p: Program, sys: System, s: nat)
    ensures PrimaryParts(p, sys, DoTimeout(p, sys, s), DoTimeout(Guarded(p), sys, s))
  {
    if s in sys.primary.queue { PrimaryDecideParts(p, sys, s, sys.primary.queue[s].hash, false); }
  }

  ghost predicate ReplicaParts(p: Program, sys: System, r: Id, x: System, y: System)
    requires r in sys.replicas
  {
    && x.primary == sys.primary && x.replicas.Keys == sys.replicas.Keys == y.replicas.Keys
    && x.replicas == sys.replicas[r := x.replicas[r]] && y == x.(replicas := sys.replicas[r := y.replicas[r]])
    && PartsAt(p, sys.replicas[r], x.replicas[r], y.replicas[r])
  }

  lemma ReplicaReceivesParts(p: Program, sys: System, r: Id, recovering: bool)
    requires r in sys.replicas
    ensures ReplicaParts(p, sys, r, DoReplicaReceives(p, sys, r, recovering),
              DoReplicaReceives(Guarded(p), sys, r, recovering))
  {
    if ReplicaCanReceive(sys, r) {
      var msg := sys.net.sent[sys.net.read[r]];
      if msg.Prepare? {
        PreparesParts(p, sys.(net := Advance(sys.net, r)), r, msg, recovering);
      } else {
        DecideParts(p, sys.replicas[r], msg.number, msg.hash, msg.commit);
      }
    } else {
      assert sys.replicas == sys.replicas[r := sys.replicas[r]];
    }
  }

  lemma PreparesParts(p: Program, sys: System, r: Id, msg: Msg, recovering: bool)
    requires msg.Prepare? && r in sys.replicas
    ensures AfterPrepare(p, sys, r, msg, recovering) == AfterPrepare(Guarded(p), sys, r, msg, recovering)
    ensures var x := AfterPrepare(p, sys, r, msg, recovering);
      x.primary == sys.primary && r in x.replicas && x.replicas == sys.replicas[r := x.replicas[r]] &&
      x.replicas[r].foreign == sys.replicas[r].foreign
  {
    assert OnPrepare(p, sys.replicas[r], msg.number, msg.hash, msg.command, recovering) ==
           OnPrepare(Guarded(p), sys.replicas[r], msg.number, msg.hash, msg.command, recovering);
  }

  /** One action: nothing is forgotten, and the guard shows exactly in what it is for. */
  lemma StepParts(p: Program, sys: System, a: Action)
    ensures AbortsSpare(Step(p, sys, a)) ==> AbortsSpare(sys) && Step(Guarded(p), sys, a) == Step(p, sys, a)
    ensures !p.drainRepaired && !p.unlockRepaired && AbortsSpare(sys) && Step(Guarded(p), sys, a) == Step(p, sys, a) ==>
      AbortsSpare(Step(p, sys, a))
  {
    if a.PrimaryReceives? {
      PrimaryReceivesParts(p, sys, a.id);
    } else if a.Timeout? {
      TimeoutParts(p, sys, a.number);
    } else if a.ReplicaReceives? {
      if a.id in sys.replicas { ReplicaReceivesParts(p, sys, a.id, a.recovering); }
    } else {
      OthersSpare(p, sys, a);
    }
  }

  lemma OthersSpare(p: Program, sys: System, a: Action)
    requires !a.PrimaryReceives? && !a.Timeout? && !a.ReplicaReceives?
    ensures AbortsSpare(Step(p, sys, a)) <==> AbortsSpare(sys)
    ensures Step(Guarded(p), sys, a) == Step(p, sys, a)
  {
    var x := Step(p, sys, a);
    if a.Join? {
      assert forall q :: q in x.replicas && q !in sys.replicas ==> x.replicas[q].foreign == {};
    } else if !a.WriteAtPrimary? {
      OutsideCore(p, sys, a);
    }
    assert forall q :: q in sys.replicas ==> q in x.replicas && x.replicas[q].foreign == sys.replicas[q].foreign;
  }

  lemma {:induction false} SparingRun(p: Program, base: nat, table: Table, actions: seq<Action>)
    requires AbortsSpare(Run(p, base, table, actions))
    ensures Run(Guarded(p), base, table, actions) == Run(p, base, table, actions)
  {
    if actions != [] {
      var before := actions[..|actions| - 1];
      StepParts(p, Run(p, base, table, before), actions[|actions| - 1]);
      SparingRun(p, base, table, before);
    }
  }

  // ---------------------------------------------------------------- main results

  /** Replica r voted YES for number s and has not released its lock. */
  predicate OutstandingYes(p: Program, sys: System, r: Id, s: nat)
    requires r in sys.replicas
  {
    (s, r) in sys.ballots.yes && Unreleased(p, sys.ground, sys.replicas[r], s)
  }

  /** Lock ownership at a replica, in every run, replicas joining and leaving: each transaction that
      it voted YES for and that has not released its lock holds it, so two of them never want the
      same row; what is committed and queued holds its lock, whatever the replica voted; and every
      held lock belongs to a transaction that asked for it and is unprocessed, or committed with a
      verb that nothing unlocks for. An ABORT has to spare foreign locks, because the program asks
      who holds the lock, or because in this run it was never another transaction. */
  lemma {:induction false} LockOwnership(p: Program, base: nat, table: Table, actions: seq<Action>, r: Id)
    requires Coherent(p) && (p.unlockRepaired || AbortsSpare(Run(p, base, table, actions)))
    requires var sys := Run(p, base, table, actions); r in sys.replicas && sys.replicas[r].health != Terminated
    ensures var sys := Run(p, base, table, actions);
      var n := sys.replicas[r];
      && (forall s :: OutstandingYes(p, sys, r, s) ==> Holds(p, sys.ground, n, s))
      && (forall s, t :: OutstandingYes(p, sys, r, s) && OutstandingYes(p, sys, r, t) && s != t ==>
           KeyOf(p, sys.ground, s) != KeyOf(p, sys.ground, t))
      && (forall s :: s in n.queue && s > n.lastSeq && s in sys.ground.decided && sys.ground.decided[s] ==>
           Holds(p, sys.ground, n, s))
      && (forall k :: k in n.locks ==> HolderOk(p, sys.ground, n, k))
  {
    var sys := Run(p, base, table, actions);
    if !p.unlockRepaired { SparingRun(p, base, table, actions); }
    RunLocked(Guarded(p), base, table, actions);
    assert Run(Guarded(p), base, table, actions) == sys;
    OwnsAtReplica(Guarded(p), sys, r);
    forall s | OutstandingYes(p, sys, r, s) ensures Holds(p, sys.ground, sys.replicas[r], s) {
      assert Unreleased(Guarded(p), sys.ground, sys.replicas[r], s);
    }
  }

  lemma OwnsAtReplica(p: Program, sys: System, r: Id)
    requires LockedSystem(p, sys) && r in sys.replicas && sys.replicas[r].health != Terminated
    ensures var n := sys.replicas[r];
      && (forall s :: (s, r) in sys.ballots.yes && Unreleased(p, sys.ground, n, s) ==> Holds(p, sys.ground, n, s))
      && (forall s :: s in n.queue && s > n.lastSeq && s in sys.ground.decided && sys.ground.decided[s] ==>
           Holds(p, sys.ground, n, s))
      && (forall k :: k in n.locks ==> HolderOk(p, sys.ground, n, k))
  {
    var n := sys.replicas[r];
    assert ReplicaLocked(p, sys.ground, sys.net.sent, sys.ballots, r, n, sys.net.read[r]);
    forall s | (s, r) in sys.ballots.yes && Unreleased(p, sys.ground, n, s) ensures Holds(p, sys.ground, n, s) {
      assert s in ReplicaMust(sys.ballots, r, n);
    }
    forall s | s in n.queue && s > n.lastSeq && s in sys.ground.decided && sys.ground.decided[s]
      ensures Holds(p, sys.ground, n, s)
    {
      CommittedHolds(p, sys, r, s);
    }
  }

  /** And at the primary: every commit that has not released its lock holds it, and every held lock
      has such an owner. */
  lemma {:induction false} PrimaryLockOwnership(p: Program, base: nat, table: Table, actions: seq<Action>)
    requires Coherent(p) && (p.unlockRepaired || AbortsSpare(Run(p, base, table, actions)))
    requires Run(p, base, table, actions).primary.health != Terminated
    ensures var sys := Run(p, base, table, actions);
      && (forall s :: s in sys.ground.decided && sys.ground.decided[s] && Unreleased(p, sys.ground, sys.primary, s) ==>
           Holds(p, sys.ground, sys.primary, s))
      && (forall k :: k in sys.primary.locks ==> HolderOk(p, sys.ground, sys.primary, k))
  {
    var sys := Run(p, base, table, actions);
    if !p.unlockRepaired { SparingRun(p, base, table, actions); }
    RunLocked(Guarded(p), base, table, actions);
    assert Run(Guarded(p), base, table, actions) == sys;
    assert LocksOk(Guarded(p), sys.ground, sys.primary, PrimaryMust(sys.ground));
    forall s | s in sys.ground.decided && sys.ground.decided[s] && Unreleased(p, sys.ground, sys.primary, s)
      ensures Holds(p, sys.ground, sys.primary, s)
    {
      assert s in PrimaryMust(sys.ground) && Unreleased(Guarded(p), sys.ground, sys.primary, s);
      assert Holds(Guarded(p), sys.ground, sys.primary, s);
    }
    forall k | k in sys.primary.locks ensures HolderOk(p, sys.ground, sys.primary, k) {
      assert HolderOk(Guarded(p), sys.ground, sys.primary, k);
    }
  }

  /** The guard is exactly what the program lacks: its runs are those of the program that asks who
      holds the lock, state by state, if and only if no ABORT ever found the lock of its key held by
      another transaction. */
  lemma {:induction false} GuardIsExact(p: Program, base: nat, table: Table, actions: seq<Action>)
    requires !p.drainRepaired && !p.unlockRepaired
    ensures (forall i :: 0 <= i <= |actions| ==>
              Run(Guarded(p), base, table, actions[..i]) == Run(p, base, table, actions[..i])) <==>
            AbortsSpare(Run(p, base, table, actions))
  {
    if actions != [] {
      var before, a := actions[..|actions| - 1], actions[|actions| - 1];
      GuardIsExact(p, base, table, before);
      assert forall i :: 0 <= i <= |before| ==> before[..i] == actions[..i];
      assert actions[..|actions|] == actions;
      StepParts(p, Run(p, base, table, before), a);
    }
  }
}
