/** What the draining of the program does to writes in flight. */
module TpcLost {
  import opened Text
  import opened Commands
  import opened TpcNode
  import opened TpcNodeSafety
  import opened TpcSystem
  import opened TpcAgreement
  import opened TpcMirror
  import opened TpcClients
  import opened TpcOneReplica

  /** The primary has started number s, has not processed it and has it no more in its queue. */
  predicate Gone(n: Node, s: nat) {
    n.lastSeq < s <= n.tpcSeq && s !in n.queue
  }

  lemma {:induction false} DrainGone(p: Program, n: Node, s: nat)
    requires Gone(n, s)
    ensures Gone(Drain(p, n), s)
    decreases |Above(n)|
  {
    if n.health == Up && HeadDecided(n) {
      TurnIs(p, n);
      ProcessNextShrinks(p, n);
      DrainGone(p, ProcessNext(p, n), s);
    }
  }

  lemma DecideGone(p: Program, n: Node, x: nat, hash: string, commit: bool, s: nat)
    requires Gone(n, s)
    ensures Gone(Decide(p, n, x, hash, commit), s)
  {
    if !AlreadyProcessed(n, x) { DrainGone(p, Marked(n, x, hash, commit), s); }
  }

  lemma PrimaryDecideGone(p: Program, sys: System, x: nat, hash: string, commit: bool, s: nat)
    requires Gone(sys.primary, s) && x != s
    ensures Gone(PrimaryDecide(p, sys, x, hash, commit).primary, s)
    ensures s !in sys.ground.decided ==> s !in PrimaryDecide(p, sys, x, hash, commit).ground.decided
  {
    DecideGone(p, sys.primary, x, hash, commit, s);
  }

  lemma OnVoteGone(p: Program, sys: System, r: Id, x: nat, hash: string, yes: bool, s: nat)
    requires Gone(sys.primary, s)
    ensures Gone(OnVote(p, sys, r, x, hash, yes).primary, s)
    ensures s !in sys.ground.decided ==> s !in OnVote(p, sys, r, x, hash, yes).ground.decided
  {
    if x in sys.primary.queue {
      PrimaryDecideGone(p, sys, x, hash, false, s);
      var (n, granted) := Acquire(p, sys.primary, x, sys.primary.queue[x].command);
      PrimaryDecideGone(p, sys.(ballots := Count(sys.ballots, x, r), primary := n), x, hash, granted, s);
    }
  }

  lemma ReceivesGone(p: Program, sys: System, r: Id, s: nat)
    requires Gone(sys.primary, s)
    ensures Gone(DoPrimaryReceives(p, sys, r).primary, s)
    ensures s !in sys.ground.decided ==> s !in DoPrimaryReceives(p, sys, r).ground.decided
  {
    if PrimaryCanReceive(sys, r) && UpFrom(sys.net, r)[0].Vote? {
      var msg := UpFrom(sys.net, r)[0];
      OnVoteGone(p, Pop(sys, r), r, msg.number, msg.hash, msg.yes, s);
    }
  }

  /** The other actions leave the primary's part of the protocol alone. */
  lemma OthersKeepPrimary(p: Program, sys: System, a: Action)
    requires !a.WriteAtPrimary? && !a.PrimaryReceives? && !a.Timeout?
    ensures Step(p, sys, a).primary == sys.primary.(desk := Step(p, sys, a).primary.desk)
    ensures Step(p, sys, a).ground == sys.ground
  {
    if a.ReplicaReceives? {
      if ReplicaCanReceive(sys, a.id) { ReceivedIs(p, sys, a.id, a.recovering); }
    } else {
      QuietActions(p, sys, a);
    }
  }

  lemma QuietActions(p: Program, sys: System, a: Action)
    requires a.WriteAtReplica? || a.Leave? || a.Join? || a.SetCheckpointing? || a.SendQueued?
    ensures Step(p, sys, a).primary == sys.primary.(desk := Step(p, sys, a).primary.desk)
    ensures Step(p, sys, a).ground == sys.ground
  {
  }

  lemma StepGone(p: Program, sys: System, a: Action, s: nat)
    requires Gone(sys.primary, s)
    ensures Gone(Step(p, sys, a).primary, s)
    ensures s !in sys.ground.decided ==> s !in Step(p, sys, a).ground.decided
  {
    if a.PrimaryReceives? {
      ReceivesGone(p, sys, a.id, s);
    } else if a.Timeout? {
      if a.number in sys.primary.queue {
        PrimaryDecideGone(p, sys, a.number, sys.primary.queue[a.number].hash, false, s);
      }
    } else if !a.WriteAtPrimary? {
      OthersKeepPrimary(p, sys, a);
    }
  }

  lemma {:induction false} RunGone(p: Program, base: nat, table: Table, actions: seq<Action>, more: seq<Action>, s: nat)
    requires Gone(Run(p, base, table, actions).primary, s)
    ensures Gone(Run(p, base, table, actions + more).primary, s)
    ensures s !in Run(p, base, table, actions).ground.decided ==>
              s !in Run(p, base, table, actions + more).ground.decided
  {
    if more == [] {
      assert actions + more == actions;
    } else {
      var before := actions + more[..|more| - 1];
      RunGone(p, base, table, actions, more[..|more| - 1], s);
      RunMore(p, base, table, before, more[|more| - 1]);
      assert before + [more[|more| - 1]] == actions + more;
      StepGone(p, Run(p, base, table, before), more[|more| - 1], s);
    }
  }

  // ---------------------------------------------------------------- no server gets further

  lemma {:induction false} MirrorAdvances(p: Program, base: nat, table: Table, sent: seq<Msg>, i: nat, j: nat)
    requires i <= j <= |sent|
    ensures Mirror(p, base, table, sent, i).lastSeq <= Mirror(p, base, table, sent, j).lastSeq
  {
    if i < j {
      MirrorAdvances(p, base, table, sent, i, j - 1);
      var n, msg := Mirror(p, base, table, sent, j - 1), sent[j - 1];
      if msg.Decided? { DecideMarks(p, n, msg.number, msg.hash, msg.commit); }
    }
  }

  /** No replica is ahead of the primary. */
  lemma ReplicasFollow(p: Program, sys: System, n: Node)
    requires Mirrored(p, sys) && IsNode(sys, n)
    ensures n.lastSeq <= sys.primary.lastSeq
  {
    if n != sys.primary {
      var r :| r in sys.replicas && sys.replicas[r] == n;
      MirrorAdvances(p, sys.ground.base, sys.ground.baseTable, sys.net.sent, sys.net.read[r], |sys.net.sent|);
      assert Same(n, Mirror(p, sys.ground.base, sys.ground.baseTable, sys.net.sent, sys.net.read[r]));
    }
  }

  /** A write whose number a server has not reached has not been answered there. */
  lemma NotAnsweredYet(p: Program, sys: System, site: Site, n: Node, t: nat)
    requires NodeOk(p, sys.ground, n) && HashesOk(sys.ground, sys.net, sys.accepted) && DeskOf(site, sys.accepted, n)
    requires t in sys.ground.started && t > n.lastSeq
    ensures Answers(n.desk, sys.ground.started[t].hash) == 0
  {
    var hash := sys.ground.started[t].hash;
    if Answers(n.desk, hash) > 0 {
      var reply := SomeAnswer(n.desk, hash);
      assert false;
    }
  }

  lemma {:induction false} SomeReply(replies: seq<Reply>, hash: string) returns (reply: Reply)
    requires CountOf(replies, hash) > 0
    ensures reply in replies && reply.hash == hash
  {
    if replies[|replies| - 1].hash == hash {
      reply := replies[|replies| - 1];
    } else {
      reply := SomeReply(replies[..|replies| - 1], hash);
    }
  }

  lemma {:induction false} SomeAnswer(d: Desk, hash: string) returns (reply: Reply)
    requires Answers(d, hash) > 0
    ensures (reply in d.replies || reply in d.deferred) && reply.hash == hash
  {
    if CountOf(d.replies, hash) > 0 {
      reply := SomeReply(d.replies, hash);
    } else {
      reply := SomeReply(d.deferred, hash);
    }
  }

  // ---------------------------------------------------------------- main results

  /** Number s and every number behind it are processed nowhere and answered by nobody. */
  ghost predicate NothingBehind(sys: System, s: nat) {
    && (forall n :: IsNode(sys, n) ==> n.lastSeq < s)
    && forall site, n, t :: ServerAt(sys, site, n) && t in sys.ground.started && t >= s ==>
         Answers(n.desk, sys.ground.started[t].hash) == 0
  }

  /** Once a started number is gone from the primary's queue, that is for good: whatever happens
      later, it and all writes behind it wait forever, and it is decided only if it was before. */
  lemma {:induction false} GoneForGood(
      p: Program, base: nat, table: Table, actions: seq<Action>, more: seq<Action>, s: nat)
    requires Gone(Run(p, base, table, actions).primary, s)
    ensures NothingBehind(Run(p, base, table, actions + more), s)
    ensures s !in Run(p, base, table, actions).ground.decided ==>
              s !in Run(p, base, table, actions + more).ground.decided
  {
    var sys := Run(p, base, table, actions + more);
    RunGone(p, base, table, actions, more, s);
    RunSafe(p, base, table, actions + more);
    RunMirrored(p, base, table, actions + more);
    RunClients(p, base, table, actions + more);
    forall n | IsNode(sys, n) ensures n.lastSeq < s { ReplicasFollow(p, sys, n); }
    forall site, n, t | ServerAt(sys, site, n) && t in sys.ground.started && t >= s
      ensures Answers(n.desk, sys.ground.started[t].hash) == 0
    {
      assert IsNode(sys, n) && NodeOk(p, sys.ground, n) && DeskOf(site, sys.accepted, n);
      NotAnsweredYet(p, sys, site, n, t);
    }
  }

  lemma DecideLosesNext(p: Program, n: Node, x: nat, hash: string, commit: bool)
    requires !p.drainRepaired && n.lastSeq + 2 <= n.tpcSeq && Decide(p, n, x, hash, commit).lastSeq > n.lastSeq
    ensures Gone(Decide(p, n, x, hash, commit), n.lastSeq + 2)
  {
    var m := Marked(n, x, hash, commit);
    if m.health == Up { DrainAsWrittenIsOneStep(p, m); }
    TurnIs(p, m);
  }

  /** From n to m the primary processes a transaction, and the next one had been started at n. */
  predicate Overtakes(n: Node, m: Node) {
    n.lastSeq + 2 <= n.tpcSeq && m.lastSeq > n.lastSeq
  }

  lemma PrimaryDecideLosesNext(p: Program, sys: System, n: Node, s: nat, hash: string, commit: bool)
    requires !p.drainRepaired && sys.primary.lastSeq + 2 <= sys.primary.tpcSeq
    requires n == sys.primary.(locks := n.locks)
    requires PrimaryDecide(p, sys.(primary := n), s, hash, commit).primary.lastSeq > sys.primary.lastSeq
    ensures Gone(PrimaryDecide(p, sys.(primary := n), s, hash, commit).primary, sys.primary.lastSeq + 2)
  {
    DecideLosesNext(p, n, s, hash, commit);
  }

  lemma VoteLosesNext(p: Program, sys: System, r: Id, s: nat, hash: string, yes: bool)
    requires !p.drainRepaired && sys.primary.lastSeq + 2 <= sys.primary.tpcSeq
    requires OnVote(p, sys, r, s, hash, yes).primary.lastSeq > sys.primary.lastSeq
    ensures Gone(OnVote(p, sys, r, s, hash, yes).primary, sys.primary.lastSeq + 2)
  {
    if !yes {
      PrimaryDecideLosesNext(p, sys, sys.primary, s, hash, false);
    } else {
      var sys1 := sys.(ballots := Count(sys.ballots, s, r));
      var (n, granted) := Acquire(p, sys.primary, s, sys.primary.queue[s].command);
      PrimaryDecideLosesNext(p, sys1, n, s, hash, granted);
    }
  }

  /** With the draining of the program that next transaction is then gone. */
  lemma StepLosesNext(p: Program, sys: System, a: Action)
    requires !p.drainRepaired && Overtakes(sys.primary, Step(p, sys, a).primary)
    ensures Gone(Step(p, sys, a).primary, sys.primary.lastSeq + 2)
  {
    if a.PrimaryReceives? {
      var msg := UpFrom(sys.net, a.id)[0];
      VoteLosesNext(p, Pop(sys, a.id), a.id, msg.number, msg.hash, msg.yes);
    } else {
      PrimaryDecideLosesNext(p, sys, sys.primary, a.number, sys.primary.queue[a.number].hash, false);
    }
  }

  /** Every started number that is not processed is in the queue. */
  predicate Complete(n: Node) {
    forall s :: n.lastSeq < s <= n.tpcSeq ==> s in n.queue
  }

  lemma DecideComplete(p: Program, n: Node, s: nat, hash: string, commit: bool)
    requires !p.drainRepaired && Complete(n)
    requires n.lastSeq + 2 <= n.tpcSeq ==> Decide(p, n, s, hash, commit).lastSeq == n.lastSeq
    ensures Complete(Decide(p, n, s, hash, commit))
  {
    if !AlreadyProcessed(n, s) {
      var m := Marked(n, s, hash, commit);
      if m.health == Up {
        DrainAsWrittenIsOneStep(p, m);
        if HeadDecided(m) { TurnIs(p, m); }
      }
    }
  }

  lemma PrimaryDecideComplete(p: Program, sys: System, n: Node, s: nat, hash: string, commit: bool)
    requires !p.drainRepaired && Complete(sys.primary) && n == sys.primary.(locks := n.locks)
    requires sys.primary.lastSeq + 2 <= sys.primary.tpcSeq ==>
      PrimaryDecide(p, sys.(primary := n), s, hash, commit).primary.lastSeq <= sys.primary.lastSeq
    ensures Complete(PrimaryDecide(p, sys.(primary := n), s, hash, commit).primary)
  {
    DecideMarks(p, n, s, hash, commit);
    DecideComplete(p, n, s, hash, commit);
  }

  lemma VoteComplete(p: Program, sys: System, r: Id, s: nat, hash: string, yes: bool)
    requires !p.drainRepaired && Complete(sys.primary)
    requires sys.primary.lastSeq + 2 <= sys.primary.tpcSeq ==>
               OnVote(p, sys, r, s, hash, yes).primary.lastSeq <= sys.primary.lastSeq
    ensures Complete(OnVote(p, sys, r, s, hash, yes).primary)
  {
    if AlreadyProcessed(sys.primary, s) || s !in sys.primary.queue {
    } else if !yes {
      PrimaryDecideComplete(p, sys, sys.primary, s, hash, false);
    } else {
      var sys1 := sys.(ballots := Count(sys.ballots, s, r));
      if EnoughVotes(sys1.ballots, s, sys.net.connected) {
        var (n, granted) := Acquire(p, sys.primary, s, sys.primary.queue[s].command);
        PrimaryDecideComplete(p, sys1, n, s, hash, granted);
      }
    }
  }

  lemma StepComplete(p: Program, sys: System, a: Action)
    requires !p.drainRepaired && Complete(sys.primary) && !Overtakes(sys.primary, Step(p, sys, a).primary)
    ensures Complete(Step(p, sys, a).primary)
  {
    if a.PrimaryReceives? {
      if PrimaryCanReceive(sys, a.id) && UpFrom(sys.net, a.id)[0].Vote? {
        var msg := UpFrom(sys.net, a.id)[0];
        VoteComplete(p, Pop(sys, a.id), a.id, msg.number, msg.hash, msg.yes);
      }
    } else if a.Timeout? {
      if a.number in sys.primary.queue && sys.primary.health == Up {
        PrimaryDecideComplete(p, sys, sys.primary, a.number, sys.primary.queue[a.number].hash, false);
      }
    }
  }

  /** The i-th action of a run loses a write. */
  predicate LosesAt(p: Program, base: nat, table: Table, actions: seq<Action>, i: nat)
    requires i < |actions|
  {
    Overtakes(Run(p, base, table, actions[..i]).primary, Run(p, base, table, actions[..i + 1]).primary)
  }

  predicate NeverLoses(p: Program, base: nat, table: Table, actions: seq<Action>) {
    forall i :: 0 <= i < |actions| ==> !LosesAt(p, base, table, actions, i)
  }

  lemma {:induction false} NeverLosesBefore(p: Program, base: nat, table: Table, before: seq<Action>, a: Action)
    requires NeverLoses(p, base, table, before + [a])
    ensures NeverLoses(p, base, table, before)
    ensures !Overtakes(Run(p, base, table, before).primary, Run(p, base, table, before + [a]).primary)
  {
    var actions := before + [a];
    assert actions[..|before|] == before && actions[..|before| + 1] == actions;
    assert !LosesAt(p, base, table, actions, |before|);
    forall i | 0 <= i < |before| ensures !LosesAt(p, base, table, before, i) {
      assert actions[..i] == before[..i] && actions[..i + 1] == before[..i + 1];
      assert !LosesAt(p, base, table, actions, i);
    }
  }

  lemma CompleteThen(p: Program, sys: System, a: Action, m: Node)
    requires !p.drainRepaired && Complete(sys.primary) && m == Step(p, sys, a).primary && !Overtakes(sys.primary, m)
    ensures Complete(m)
  {
    StepComplete(p, sys, a);
  }

  lemma {:induction false} NothingLost(p: Program, base: nat, table: Table, actions: seq<Action>)
    requires !p.drainRepaired && NeverLoses(p, base, table, actions)
    ensures Complete(Run(p, base, table, actions).primary)
  {
    if actions != [] {
      var before, a := actions[..|actions| - 1], actions[|actions| - 1];
      assert before + [a] == actions;
      NeverLosesBefore(p, base, table, before, a);
      NothingLost(p, base, table, before);
      CompleteThen(p, Run(p, base, table, before), a, Run(p, base, table, actions).primary);
    }
  }

  /** Some action takes the primary from n to m. */
  ghost predicate OneStep(p: Program, n: Node, m: Node) {
    exists sys: System, a: Action :: sys.primary == n && m == Step(p, sys, a).primary
  }

  lemma {:induction false} RunSteps(p: Program, base: nat, table: Table, actions: seq<Action>, a: Action)
    ensures OneStep(p, Run(p, base, table, actions).primary, Run(p, base, table, actions + [a]).primary)
  {
    RunMore(p, base, table, actions, a);
  }

  lemma GoneThen(p: Program, n: Node, m: Node)
    requires !p.drainRepaired && OneStep(p, n, m) && Overtakes(n, m)
    ensures Gone(m, n.lastSeq + 2)
  {
    var sys: System, a: Action :| sys.primary == n && m == Step(p, sys, a).primary;
    GoneOf(p, sys, a, m);
  }

  lemma GoneOf(p: Program, sys: System, a: Action, m: Node)
    requires !p.drainRepaired && m == Step(p, sys, a).primary && Overtakes(sys.primary, m)
    ensures Gone(m, sys.primary.lastSeq + 2)
  {
    StepLosesNext(p, sys, a);
  }

  lemma {:induction false} GoneAfter(
      p: Program, base: nat, table: Table, actions: seq<Action>, a: Action, n: Node, m: Node)
    requires !p.drainRepaired && Overtakes(n, m)
    requires n == Run(p, base, table, actions).primary && m == Run(p, base, table, actions + [a]).primary
    ensures Gone(m, n.lastSeq + 2)
  {
    RunSteps(p, base, table, actions, a);
    GoneThen(p, n, m);
  }

  ghost predicate SomeGone(n: Node) {
    exists s :: Gone(n, s)
  }

  lemma {:induction false} GoneAt(p: Program, base: nat, table: Table, actions: seq<Action>, i: nat)
    requires !p.drainRepaired && i < |actions| && LosesAt(p, base, table, actions, i)
    ensures SomeGone(Run(p, base, table, actions[..i + 1]).primary)
  {
    assert actions[..i] + [actions[i]] == actions[..i + 1];
    GoneAfter(p, base, table, actions[..i], actions[i], Run(p, base, table, actions[..i]).primary,
        Run(p, base, table, actions[..i + 1]).primary);
  }

  lemma {:induction false} GoneStays(
      p: Program, base: nat, table: Table, actions: seq<Action>, more: seq<Action>, all: seq<Action>)
    requires SomeGone(Run(p, base, table, actions).primary) && all == actions + more
    ensures !Complete(Run(p, base, table, all).primary)
  {
    var s :| Gone(Run(p, base, table, actions).primary, s);
    RunGone(p, base, table, actions, more, s);
  }

  lemma {:induction false} LosesThenIncomplete(p: Program, base: nat, table: Table, actions: seq<Action>, i: nat)
    requires !p.drainRepaired && i < |actions| && LosesAt(p, base, table, actions, i)
    ensures !Complete(Run(p, base, table, actions).primary)
  {
    GoneAt(p, base, table, actions, i);
    assert actions == actions[..i + 1] + actions[i + 1..];
    GoneStays(p, base, table, actions[..i + 1], actions[i + 1..], actions);
  }

  /** Exactly: no started write is lost in a run of the program if and only if the primary never
      processed a transaction while the next one was in flight. */
  lemma {:induction false} NothingLostIff(p: Program, base: nat, table: Table, actions: seq<Action>)
    requires !p.drainRepaired
    ensures Complete(Run(p, base, table, actions).primary) <==> NeverLoses(p, base, table, actions)
  {
    if NeverLoses(p, base, table, actions) {
      NothingLost(p, base, table, actions);
    } else {
      var i :| 0 <= i < |actions| && LosesAt(p, base, table, actions, i);
      LosesThenIncomplete(p, base, table, actions, i);
    }
  }

  /** In every run, and for every continuation: two writes in flight, the first is decided and
      processed; the second and all that follow it are never processed and never answered. */
  lemma {:induction false} SecondInFlightIsLost(
      p: Program, base: nat, table: Table, actions: seq<Action>, a: Action, more: seq<Action>)
    requires !p.drainRepaired
    requires Overtakes(Run(p, base, table, actions).primary, Run(p, base, table, actions + [a]).primary)
    ensures NothingBehind(Run(p, base, table, actions + [a] + more), Run(p, base, table, actions).primary.lastSeq + 2)
  {
    var n, m := Run(p, base, table, actions).primary, Run(p, base, table, actions + [a]).primary;
    GoneAfter(p, base, table, actions, a, n, m);
    GoneForGood(p, base, table, actions + [a], more, n.lastSeq + 2);
  }

  // ---------------------------------------------------------------- a run that loses a write

  /** Two writes reach the primary, the replica votes on the first and the vote arrives. */
  function TwoInFlight(h1: string, fd1: nat, c1: string, h2: string, fd2: nat, c2: string): Script {
    Then(Writing(h1, fd1, c1), Then(Writing(h2, fd2, c2), Then(Reading, Then(Counting, Done))))
  }

  /** What the two servers are in front of that vote. */
  predicate VoteArrives(v: View, base: nat, h1: string, c1: string, h2: string, c2: string) {
    && v.primary.health == Up && v.primary.lastSeq == base && v.primary.tpcSeq == base + 2 && v.primary.locks == map[]
    && v.primary.queue == map[base + 1 := Transaction(Prepared, c1, h1), base + 2 := Transaction(Prepared, c2, h2)]
    && v.ground.started == map[base + 1 := Started(h1, c1), base + 2 := Started(h2, c2)] && v.ground.decided == map[]
    && v.primary.queued == {} && v.up == [Vote(base + 1, h1, true)]
  }

  lemma {:induction false} TwoInFlightPlays(
      p: Program, base: nat, table: Table, h1: string, fd1: nat, c1: string, h2: string, fd2: nat, c2: string)
    returns (v: View)
    requires p.lockKey(c1).Some? && h1 != h2
    ensures VoteArrives(v, base, h1, c1, h2, c2)
    ensures Play(p, Joined(base, table), TwoInFlight(h1, fd1, c1, h2, fd2, c2)) ==
            Some(Concludes(p, v, base + 1, h1, true))
  {
    var v1 := Writes(p, Joined(base, table), h1, fd1, c1);
    var v2 := Writes(p, v1, h2, fd2, c2);
    v := Votes(p, v2, base + 1, h1, c1);
    assert Play(p, v, Then(Counting, Done)) == Some(Concludes(p, v, base + 1, h1, true));
    assert Play(p, v2, Then(Reading, Then(Counting, Done))) == Play(p, v, Then(Counting, Done));
    assert Play(p, v1, Then(Writing(h2, fd2, c2), Then(Reading, Then(Counting, Done)))) ==
           Play(p, v2, Then(Reading, Then(Counting, Done)));
  }

  lemma FirstIsProcessed(p: Program, n: Node, hash: string, command: string)
    requires !p.drainRepaired && n.health == Up && n.queued == {} && n.locks == map[] && p.lockKey(command).Some?
    requires n.lastSeq + 1 in n.queue && n.queue[n.lastSeq + 1] == Transaction(Prepared, command, hash)
    requires n.tpcSeq == n.lastSeq + 2
    ensures var (m, granted) := Acquire(p, n, n.lastSeq + 1, command);
      granted && Gone(Decide(p, m, n.lastSeq + 1, hash, true), n.lastSeq + 2)
  {
    var m := Acquire(p, n, n.lastSeq + 1, command).0;
    assert HeadDecided(Marked(m, n.lastSeq + 1, hash, true));
    DrainAsWrittenIsOneStep(p, Marked(m, n.lastSeq + 1, hash, true));
    DecideLosesNext(p, m, n.lastSeq + 1, hash, true);
  }

  /** Two writes to a fresh primary with one replica: when the vote on the first arrives it is
      committed and processed, and whatever happens afterwards the second, which was accepted and
      prepared, is never decided, processed or answered, nor is any later one. */
  lemma {:induction false} SecondWriteIsLost(
      p: Program, base: nat, table: Table, r: Id, h1: string, fd1: nat, c1: string, h2: string, fd2: nat, c2: string,
      more: seq<Action>)
    requires !p.drainRepaired && p.lockKey(c1).Some? && h1 != h2
    ensures var sys := Run(p, base, table, Scene(r, TwoInFlight(h1, fd1, c1, h2, fd2, c2)) + more);
      && base + 1 in sys.ground.decided && sys.ground.decided[base + 1]
      && base + 2 in sys.ground.started && sys.ground.started[base + 2] == Started(h2, c2)
      && base + 2 !in sys.ground.decided && NothingBehind(sys, base + 2)
  {
    var script := TwoInFlight(h1, fd1, c1, h2, fd2, c2);
    var v := TwoInFlightPlays(p, base, table, h1, fd1, c1, h2, fd2, c2);
    VoteLosesSecond(p, v, base, h1, c1, h2, c2);
    SceneShows(p, base, table, r, script);
    LostInScene(p, base, table, Scene(r, script), r, Concludes(p, v, base + 1, h1, true), base, h2, c2, more);
  }

  lemma VoteLosesSecond(p: Program, v: View, base: nat, h1: string, c1: string, h2: string, c2: string)
    requires !p.drainRepaired && p.lockKey(c1).Some? && VoteArrives(v, base, h1, c1, h2, c2)
    ensures var v' := Concludes(p, v, base + 1, h1, true);
      && Gone(v'.primary, base + 2) && base + 1 in v'.ground.decided && v'.ground.decided[base + 1]
      && base + 2 !in v'.ground.decided
      && base + 2 in v'.ground.started && v'.ground.started[base + 2] == Started(h2, c2)
  {
    FirstIsProcessed(p, v.primary, h1, c1);
  }

  lemma {:induction false} LostInScene(
      p: Program, base: nat, table: Table, actions: seq<Action>, r: Id, v: View, s: nat, h2: string, c2: string,
      more: seq<Action>)
    requires Shows(Run(p, base, table, actions), r, v) && Gone(v.primary, s + 2)
    requires s + 1 in v.ground.decided && v.ground.decided[s + 1] && s + 2 !in v.ground.decided
    requires s + 2 in v.ground.started && v.ground.started[s + 2] == Started(h2, c2)
    ensures var sys := Run(p, base, table, actions + more);
      && s + 1 in sys.ground.decided && sys.ground.decided[s + 1]
      && s + 2 in sys.ground.started && sys.ground.started[s + 2] == Started(h2, c2)
      && s + 2 !in sys.ground.decided && NothingBehind(sys, s + 2)
  {
    DecisionsAreFinal(p, base, table, actions + more, |actions|);
    assert (actions + more)[..|actions|] == actions;
    GoneForGood(p, base, table, actions, more, s + 2);
  }
}
