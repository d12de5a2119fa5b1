/** When clients are told: a reply is written at once unless the tablet of the remembered row is under
    checkpoint, waits in order otherwise, and every write is answered exactly once where it was
    accepted as soon as it was processed there. */
module TpcReplies {
  import opened Text
  import opened Commands
  import opened TpcNode
  import opened TpcNodeSafety
  import opened TpcSystem
  import opened TpcAgreement
  import opened TpcClients

  // ---------------------------------------------------------------- one server's desk

  /** The reply goes to a frontend that was waiting for it, on its connection. */
  predicate IsAwaited(d: Desk, reply: Reply) {
    reply.hash in d.clients && d.clients[reply.hash].fromFrontend && d.clients[reply.hash].fd == reply.fd
  }

  predicate UnderCheckpoint(d: Desk, reply: Reply)
    requires IsAwaited(d, reply)
  {
    TabletOf(d.clients[reply.hash].row) in d.checkpointing
  }

  /** No reply is taken back or moved; the new ones are awaited, and wait exactly if the tablet of the
      remembered row is under checkpoint. */
  predicate RepliesMove(d: Desk, d': Desk) {
    && d'.checkpointing == d.checkpointing
    && d.replies <= d'.replies && d.deferred <= d'.deferred
    && (forall i :: |d.replies| <= i < |d'.replies| ==>
         IsAwaited(d, d'.replies[i]) && !UnderCheckpoint(d, d'.replies[i]))
    && forall i :: |d.deferred| <= i < |d'.deferred| ==>
         IsAwaited(d, d'.deferred[i]) && UnderCheckpoint(d, d'.deferred[i])
  }

  /** Nobody new is waiting. */
  predicate FewerWait(d: Desk, d': Desk) {
    forall h :: h in d'.clients ==> h in d.clients && d'.clients[h] == d.clients[h]
  }

  lemma AnswerMoves(d: Desk, hash: string, ok: bool)
    ensures RepliesMove(d, Answer(d, hash, ok)) && FewerWait(d, Answer(d, hash, ok))
  {
  }

  lemma MovesTwice(d: Desk, d1: Desk, d2: Desk)
    requires RepliesMove(d, d1) && FewerWait(d, d1) && RepliesMove(d1, d2) && FewerWait(d1, d2)
    ensures RepliesMove(d, d2) && FewerWait(d, d2)
  {
    forall i | |d.replies| <= i < |d2.replies|
      ensures IsAwaited(d, d2.replies[i]) && !UnderCheckpoint(d, d2.replies[i])
    {
      if i < |d1.replies| { assert d2.replies[i] == d1.replies[i]; } else { assert IsAwaited(d1, d2.replies[i]); }
    }
    forall i | |d.deferred| <= i < |d2.deferred|
      ensures IsAwaited(d, d2.deferred[i]) && UnderCheckpoint(d, d2.deferred[i])
    {
      if i < |d1.deferred| { assert d2.deferred[i] == d1.deferred[i]; } else { assert IsAwaited(d1, d2.deferred[i]); }
    }
  }

  lemma {:induction false} DrainMoves(p: Program, n: Node)
    ensures RepliesMove(n.desk, Drain(p, n).desk) && FewerWait(n.desk, Drain(p, n).desk)
    decreases |Above(n)|
  {
    if n.health == Up && HeadDecided(n) {
      var m, t := ProcessNext(p, n), n.queue[n.lastSeq + 1];
      AnswerMoves(n.desk, t.hash, t.status == Commit);
      ProcessNextShrinks(p, n);
      DrainMoves(p, m);
      MovesTwice(n.desk, m.desk, Drain(p, m).desk);
    }
  }

  lemma DecideMoves(p: Program, n: Node, s: nat, hash: string, commit: bool)
    ensures RepliesMove(n.desk, Decide(p, n, s, hash, commit).desk)
  {
    DrainMoves(p, Marked(n, s, hash, commit));
  }

  // ---------------------------------------------------------------- steps of the system

  lemma PrimaryDecideMoves(p: Program, sys: System, s: nat, hash: string, commit: bool)
    ensures RepliesMove(sys.primary.desk, PrimaryDecide(p, sys, s, hash, commit).primary.desk)
    ensures PrimaryDecide(p, sys, s, hash, commit).replicas == sys.replicas
  {
    DecideMoves(p, sys.primary, s, hash, commit);
  }

  lemma OnVoteMoves(p: Program, sys: System, r: Id, s: nat, hash: string, yes: bool)
    ensures RepliesMove(sys.primary.desk, OnVote(p, sys, r, s, hash, yes).primary.desk)
    ensures OnVote(p, sys, r, s, hash, yes).replicas == sys.replicas
  {
    if AlreadyProcessed(sys.primary, s) || s !in sys.primary.queue {
    } else if !yes {
      PrimaryDecideMoves(p, sys, s, hash, false);
    } else {
      var sys1 := sys.(ballots := Count(sys.ballots, s, r));
      if EnoughVotes(sys1.ballots, s, sys.net.connected) {
        var (n, granted) := Acquire(p, sys.primary, s, sys.primary.queue[s].command);
        PrimaryDecideMoves(p, sys1.(primary := n), s, hash, granted);
      }
    }
  }

  lemma PrimaryReceivesMoves(p: Program, sys: System, r: Id)
    ensures RepliesMove(sys.primary.desk, DoPrimaryReceives(p, sys, r).primary.desk)
    ensures DoPrimaryReceives(p, sys, r).replicas == sys.replicas
  {
    if PrimaryCanReceive(sys, r) && UpFrom(sys.net, r)[0].Vote? {
      var msg := UpFrom(sys.net, r)[0];
      OnVoteMoves(p, Pop(sys, r), r, msg.number, msg.hash, msg.yes);
    }
  }

  lemma PreparingKeepsDesk(p: Program, n: Node, s: nat, hash: string, command: string, recovering: bool)
    ensures OnPrepare(p, n, s, hash, command, recovering).0.desk == n.desk
  {
  }

  lemma ReplicaReceivesMoves(p: Program, sys: System, r: Id, recovering: bool, site: Site)
    ensures RepliesMove(DeskAt(sys, site), DeskAt(DoReplicaReceives(p, sys, r, recovering), site))
  {
    var sys' := DoReplicaReceives(p, sys, r, recovering);
    if ReplicaCanReceive(sys, r) && site == AtReplica(r) {
      var msg := sys.net.sent[sys.net.read[r]];
      if msg.Decided? {
        DecideMoves(p, sys.replicas[r], msg.number, msg.hash, msg.commit);
      } else {
        PreparingKeepsDesk(p, sys.replicas[r], msg.number, msg.hash, msg.command, recovering);
        NothingMoves(DeskAt(sys, site), DeskAt(sys', site));
      }
    } else {
      OtherDesks(p, sys, r, recovering, site);
      NothingMoves(DeskAt(sys, site), DeskAt(sys', site));
    }
  }

  lemma OtherDesks(p: Program, sys: System, r: Id, recovering: bool, site: Site)
    requires !ReplicaCanReceive(sys, r) || site != AtReplica(r)
    ensures DeskAt(DoReplicaReceives(p, sys, r, recovering), site) == DeskAt(sys, site)
  {
  }

  predicate Present(sys: System, site: Site) { site == AtPrimary || site.id in sys.replicas }

  /** What a step may do to the desk of a server: SendQueued writes all that waits, in order and behind
      what was written before, the start or end of a checkpoint changes which tablets are under
      checkpoint, and every other step only answers. */
  predicate DeskStep(sys: System, a: Action, site: Site, d: Desk, d': Desk) {
    if a == SendQueued(site) then d' == d.(replies := d.replies + d.deferred, deferred := [])
    else if a.SetCheckpointing? && a.site == site && Present(sys, site) then d' == d.(checkpointing := a.tablets)
    else RepliesMove(d, d')
  }

  /** In every step of every run, at every server: new replies were awaited; those of a row whose tablet
      was under checkpoint wait, the others are written at once. What waits is written by SendQueued
      alone. */
  lemma {:induction false} RepliesInRun(
      p: Program, base: nat, table: Table, actions: seq<Action>, a: Action, site: Site)
    ensures var sys, sys' := Run(p, base, table, actions), Run(p, base, table, actions + [a]);
      DeskStep(sys, a, site, DeskAt(sys, site), DeskAt(sys', site))
  {
    RunMore(p, base, table, actions, a);
    StepMoves(p, Run(p, base, table, actions), a, site);
  }

  lemma StepMoves(p: Program, sys: System, a: Action, site: Site)
    ensures DeskStep(sys, a, site, DeskAt(sys, site), DeskAt(Step(p, sys, a), site))
  {
    match a
    case WriteAtPrimary(hash, fd, command) => WritesMove(p, sys, a, site);
    case WriteAtReplica(r, hash, fd, command) => WritesMove(p, sys, a, site);
    case PrimaryReceives(r) =>
      PrimaryReceivesMoves(p, sys, r);
      PrimaryOnly(sys, Step(p, sys, a), site);
    case ReplicaReceives(r, recovering) => ReplicaReceivesMoves(p, sys, r, recovering, site);
    case Timeout(s) =>
      TimeoutMoves(p, sys, s);
      PrimaryOnly(sys, Step(p, sys, a), site);
    case Leave(r) =>
    case Join(r) => JoinMoves(sys, r, site);
    case SetCheckpointing(at, tablets) => DesksMove(sys, at, DeskAt(sys, at).(checkpointing := tablets), site);
    case SendQueued(at) => DesksMove(sys, at, SendDeferred(DeskAt(sys, at)), site);
  }

  lemma NothingMoves(d: Desk, d': Desk)
    requires d'.replies == d.replies && d'.deferred == d.deferred && d'.checkpointing == d.checkpointing
    ensures RepliesMove(d, d')
  {
  }

  lemma PrimaryOnly(sys: System, sys': System, site: Site)
    requires sys'.replicas == sys.replicas && RepliesMove(sys.primary.desk, sys'.primary.desk)
    ensures RepliesMove(DeskAt(sys, site), DeskAt(sys', site))
  {
    if site != AtPrimary { NothingMoves(DeskAt(sys, site), DeskAt(sys', site)); }
  }

  lemma TimeoutMoves(p: Program, sys: System, s: nat)
    ensures RepliesMove(sys.primary.desk, DoTimeout(p, sys, s).primary.desk)
    ensures DoTimeout(p, sys, s).replicas == sys.replicas
  {
    if s in sys.primary.queue { PrimaryDecideMoves(p, sys, s, sys.primary.queue[s].hash, false); }
  }

  lemma WritesMove(p: Program, sys: System, a: Action, site: Site)
    requires a.WriteAtPrimary? || a.WriteAtReplica?
    ensures RepliesMove(DeskAt(sys, site), DeskAt(Step(p, sys, a), site))
  {
    NothingMoves(DeskAt(sys, site), DeskAt(Step(p, sys, a), site));
  }

  lemma JoinMoves(sys: System, r: Id, site: Site)
    ensures RepliesMove(DeskAt(sys, site), DeskAt(DoJoin(sys, r), site))
  {
    NothingMoves(DeskAt(sys, site), DeskAt(DoJoin(sys, r), site));
  }

  lemma DesksMove(sys: System, at: Site, d: Desk, site: Site)
    ensures at == site && Present(sys, site) ==> DeskAt(WithDesk(sys, at, d), site) == d
    ensures at != site || !Present(sys, site) ==> DeskAt(WithDesk(sys, at, d), site) == DeskAt(sys, site)
    ensures !Present(sys, site) ==> DeskAt(sys, site) == NO_DESK
  {
  }

  // ---------------------------------------------------------------- every write is answered once

  /** How many of the processed transactions were finished: not the one that ended the process. */
  function Finished(n: Node): nat {
    if n.health == Terminated && |n.history| > 0 then |n.history| - 1 else |n.history|
  }

  predicate Done(n: Node, hash: string) {
    exists i :: 0 <= i < Finished(n) && n.history[i].hash == hash
  }

  /** The row that is remembered with a write: the primary's own, none at a replica. */
  function RowAt(p: Program, site: Site, command: string): string {
    if site == AtPrimary then p.rowOf(command) else ""
  }

  /** The write is waiting, with its row, until it is done, and answered once from then on. */
  predicate Owed(p: Program, site: Site, a: Accepted, n: Node, hash: string) {
    && Answers(n.desk, hash) == (if Waiting(n.desk, hash) then 0 else 1)
    && (Waiting(n.desk, hash) <==> !Done(n, hash))
    && (Waiting(n.desk, hash) ==> n.desk.clients[hash].row == RowAt(p, site, a.command))
  }

  predicate AllOwed(p: Program, site: Site, accepted: map<string, Accepted>, n: Node) {
    forall h :: h in accepted && accepted[h].site == site ==> Owed(p, site, accepted[h], n, h)
  }

  lemma AnswerKeepsRow(d: Desk, hash: string, ok: bool, h: string)
    requires Waiting(Answer(d, hash, ok), h)
    ensures Waiting(d, h) && Answer(d, hash, ok).clients[h] == d.clients[h]
  {
  }

  lemma TurnDone(p: Program, n: Node, h: string)
    requires n.health == Up && HeadDecided(n)
    ensures var m := ProcessNext(p, n);
      Done(m, h) <==> Done(n, h) || (m.health == Up && n.queue[n.lastSeq + 1].hash == h)
  {
    var m := ProcessNext(p, n);
    ProcessNextEffect(p, n);
    assert forall i :: 0 <= i < |n.history| ==> m.history[i] == n.history[i];
    if m.health == Up { assert m.history[|n.history|] == Outcome(n.queue[n.lastSeq + 1]); }
  }

  lemma TurnOwed(p: Program, site: Site, a: Accepted, n: Node, h: string)
    requires n.health == Up && HeadDecided(n) && Owed(p, site, a, n, h)
    ensures Owed(p, site, a, ProcessNext(p, n), h)
  {
    var m, t := ProcessNext(p, n), n.queue[n.lastSeq + 1];
    TurnDone(p, n, h);
    TurnDesk(p, n);
    if m.health == Up { AnswerOwed(p, site, a, n, m, t.hash, t.status == Commit, h); }
  }

  lemma TurnDesk(p: Program, n: Node)
    requires n.health == Up && HeadDecided(n)
    ensures var m, t := ProcessNext(p, n), n.queue[n.lastSeq + 1];
      if m.health == Up then m.desk == Answer(n.desk, t.hash, t.status == Commit) else m.desk == n.desk
  {
  }

  lemma AnswerOwed(p: Program, site: Site, a: Accepted, n: Node, m: Node, hash: string, ok: bool, h: string)
    requires Owed(p, site, a, n, h) && m.desk == Answer(n.desk, hash, ok)
    requires Done(m, h) <==> Done(n, h) || hash == h
    ensures Owed(p, site, a, m, h)
  {
    AnswerCounts(n.desk, hash, ok, h);
    if Waiting(m.desk, h) { AnswerKeepsRow(n.desk, hash, ok, h); }
  }

  lemma {:induction false} DrainOwed(p: Program, site: Site, a: Accepted, n: Node, h: string)
    requires Owed(p, site, a, n, h)
    ensures Owed(p, site, a, Drain(p, n), h)
    decreases |Above(n)|
  {
    if n.health == Up && HeadDecided(n) {
      TurnOwed(p, site, a, n, h);
      ProcessNextShrinks(p, n);
      DrainOwed(p, site, a, ProcessNext(p, n), h);
    }
  }

  lemma DecideOwed(p: Program, site: Site, accepted: map<string, Accepted>, n: Node, s: nat, hash: string, commit: bool)
    requires AllOwed(p, site, accepted, n)
    ensures AllOwed(p, site, accepted, Decide(p, n, s, hash, commit))
  {
    if !AlreadyProcessed(n, s) {
      forall h | h in accepted && accepted[h].site == site
        ensures Owed(p, site, accepted[h], Decide(p, n, s, hash, commit), h)
      {
        assert Owed(p, site, accepted[h], Marked(n, s, hash, commit), h);
        DrainOwed(p, site, accepted[h], Marked(n, s, hash, commit), h);
      }
    }
  }

  /** Nothing that concerns clients changes. */
  predicate SameForClients(n: Node, m: Node) {
    m.desk.clients == n.desk.clients && m.history == n.history && (m.health == Terminated <==> n.health == Terminated)
  }

  lemma SameOwed(p: Program, site: Site, accepted: map<string, Accepted>, n: Node, m: Node)
    requires AllOwed(p, site, accepted, n) && SameForClients(n, m)
    requires forall h :: Answers(m.desk, h) == Answers(n.desk, h)
    ensures AllOwed(p, site, accepted, m)
  {
    forall h | h in accepted && accepted[h].site == site ensures Owed(p, site, accepted[h], m, h) {
      assert Owed(p, site, accepted[h], n, h);
    }
  }

  /** A write is accepted: it waits, and was not processed before. */
  lemma RememberOwed(
      p: Program, site: Site, accepted: map<string, Accepted>, n: Node, hash: string, c: Client, a: Accepted)
    requires AllOwed(p, site, accepted, n) && hash !in accepted && a.site == site
    requires c == Client(true, a.fd, RowAt(p, site, a.command)) && Answers(n.desk, hash) == 0 && !Done(n, hash)
    ensures AllOwed(p, site, accepted[hash := a], n.(desk := Remember(n.desk, hash, c)))
  {
    var m := n.(desk := Remember(n.desk, hash, c));
    RememberCounts(n.desk, hash, c);
    var accepted' := accepted[hash := a];
    forall h | h in accepted' && accepted'[h].site == site ensures Owed(p, site, accepted'[h], m, h)
    {
      assert Done(m, h) <==> Done(n, h);
      if h != hash { assert Owed(p, site, accepted[h], n, h); }
    }
  }

  /** A write that was accepted elsewhere. */
  lemma ForwardedOwed(p: Program, site: Site, accepted: map<string, Accepted>, n: Node, hash: string, c: Client)
    requires AllOwed(p, site, accepted, n) && hash in accepted && accepted[hash].site != site
    ensures AllOwed(p, site, accepted, n.(desk := Remember(n.desk, hash, c)))
  {
    var m := n.(desk := Remember(n.desk, hash, c));
    RememberCounts(n.desk, hash, c);
    forall h | h in accepted && accepted[h].site == site ensures Owed(p, site, accepted[h], m, h) {
      assert Owed(p, site, accepted[h], n, h);
      assert Done(m, h) <==> Done(n, h);
    }
  }

  // ---------------------------------------------------------------- the system

  ghost predicate OwedSystem(p: Program, sys: System) {
    && AllOwed(p, AtPrimary, sys.accepted, sys.primary)
    && (forall r :: r in sys.replicas ==> AllOwed(p, AtReplica(r), sys.accepted, sys.replicas[r]))
    && forall h :: h in sys.accepted && sys.accepted[h].site.AtReplica? ==> sys.accepted[h].site.id in sys.replicas
  }

  /** A hash that nobody sent before is answered and processed nowhere. */
  lemma FreshIsNew(p: Program, g: Ground, net: Net, accepted: map<string, Accepted>, site: Site, n: Node, hash: string)
    requires NodeOk(p, g, n) && HashesOk(g, net, accepted) && DeskOf(site, accepted, n) && hash !in accepted
    ensures Answers(n.desk, hash) == 0 && !Done(n, hash)
  {
    forall i | 0 <= i < |n.history| ensures n.history[i].hash != hash {
      assert EntryOk(g, i, n.history[i]);
      assert AsAccepted(accepted, n.history[i].hash, n.history[i].command);
    }
  }

  lemma PrimaryDecideOwed(p: Program, sys: System, s: nat, hash: string, commit: bool)
    requires OwedSystem(p, sys)
    ensures OwedSystem(p, PrimaryDecide(p, sys, s, hash, commit))
  {
    DecideOwed(p, AtPrimary, sys.accepted, sys.primary, s, hash, commit);
  }

  lemma PrimarySame(p: Program, sys: System, n: Node)
    requires OwedSystem(p, sys) && SameForClients(sys.primary, n)
    requires forall h :: Answers(n.desk, h) == Answers(sys.primary.desk, h)
    ensures AllOwed(p, AtPrimary, sys.accepted, n)
  {
    SameOwed(p, AtPrimary, sys.accepted, sys.primary, n);
  }

  lemma OnVoteOwed(p: Program, sys: System, r: Id, s: nat, hash: string, yes: bool)
    requires OwedSystem(p, sys)
    ensures OwedSystem(p, OnVote(p, sys, r, s, hash, yes))
  {
    if AlreadyProcessed(sys.primary, s) || s !in sys.primary.queue {
    } else if !yes {
      PrimaryDecideOwed(p, sys, s, hash, false);
    } else {
      var sys1 := sys.(ballots := Count(sys.ballots, s, r));
      if EnoughVotes(sys1.ballots, s, sys.net.connected) {
        var (n, granted) := Acquire(p, sys.primary, s, sys.primary.queue[s].command);
        PrimarySame(p, sys, n);
        PrimaryDecideOwed(p, sys1.(primary := n), s, hash, granted);
      }
    }
  }

  lemma PrimaryReceivesOwed(p: Program, sys: System, r: Id)
    requires OwedSystem(p, sys) && ClientsOk(sys)
    ensures OwedSystem(p, DoPrimaryReceives(p, sys, r))
  {
    if PrimaryCanReceive(sys, r) {
      match UpFrom(sys.net, r)[0]
      case Vote(s, hash, yes) => OnVoteOwed(p, Pop(sys, r), r, s, hash, yes);
      case Forward(hash, command) =>
        assert ForwardAt(sys.net, r, 0);
        var c := Client(false, 0, p.rowOf(command));
        ForwardedOwed(p, AtPrimary, sys.accepted, sys.primary, hash, c);
        var n := sys.primary.(desk := Remember(sys.primary.desk, hash, c));
        SameOwed(p, AtPrimary, sys.accepted, n, Start(n, hash, command));
    }
  }

  lemma WriteAtPrimaryOwed(p: Program, sys: System, hash: string, fd: nat, command: string)
    requires Safe(p, sys) && OwedSystem(p, sys) && ClientsOk(sys)
    ensures OwedSystem(p, DoWriteAtPrimary(p, sys, hash, fd, command))
  {
    if PrimaryCanWrite(sys, hash) {
      var a, c := Accepted(AtPrimary, fd, command), Client(true, fd, p.rowOf(command));
      FreshIsNew(p, sys.ground, sys.net, sys.accepted, AtPrimary, sys.primary, hash);
      RememberOwed(p, AtPrimary, sys.accepted, sys.primary, hash, c, a);
      var n := sys.primary.(desk := Remember(sys.primary.desk, hash, c));
      SameOwed(p, AtPrimary, sys.accepted[hash := a], n, Start(n, hash, command));
      OthersOwed(p, sys, hash, a);
    }
  }

  /** Other servers owe nothing for a write that was accepted here. */
  lemma OthersOwed(p: Program, sys: System, hash: string, a: Accepted)
    requires OwedSystem(p, sys) && hash !in sys.accepted
    ensures a.site != AtPrimary ==> AllOwed(p, AtPrimary, sys.accepted[hash := a], sys.primary)
    ensures forall r :: r in sys.replicas && a.site != AtReplica(r) ==>
              AllOwed(p, AtReplica(r), sys.accepted[hash := a], sys.replicas[r])
  {
    forall r | r in sys.replicas && a.site != AtReplica(r)
      ensures AllOwed(p, AtReplica(r), sys.accepted[hash := a], sys.replicas[r])
    {
      assert AllOwed(p, AtReplica(r), sys.accepted, sys.replicas[r]);
    }
  }

  lemma WriteAtReplicaOwed(p: Program, sys: System, r: Id, hash: string, fd: nat, command: string)
    requires Safe(p, sys) && OwedSystem(p, sys) && ClientsOk(sys)
    ensures OwedSystem(p, DoWriteAtReplica(sys, r, hash, fd, command))
  {
    if ReplicaCanWrite(sys, r, hash) {
      var a, n := Accepted(AtReplica(r), fd, command), sys.replicas[r];
      assert DeskOf(AtReplica(r), sys.accepted, n) && AllOwed(p, AtReplica(r), sys.accepted, n);
      FreshIsNew(p, sys.ground, sys.net, sys.accepted, AtReplica(r), n, hash);
      RememberOwed(p, AtReplica(r), sys.accepted, n, hash, Client(true, fd, ""), a);
      OthersOwed(p, sys, hash, a);
      AcceptedOwed(p, sys, DoWriteAtReplica(sys, r, hash, fd, command), r, hash, a);
    }
  }

  lemma AcceptedOwed(p: Program, sys: System, sys': System, r: Id, hash: string, a: Accepted)
    requires OwedSystem(p, sys) && r in sys.replicas && a.site == AtReplica(r)
    requires sys'.primary == sys.primary && sys'.accepted == sys.accepted[hash := a] && r in sys'.replicas
    requires sys'.replicas == sys.replicas[r := sys'.replicas[r]]
    requires AllOwed(p, AtReplica(r), sys'.accepted, sys'.replicas[r])
    requires AllOwed(p, AtPrimary, sys'.accepted, sys.primary)
    requires forall q :: q in sys.replicas && q != r ==> AllOwed(p, AtReplica(q), sys'.accepted, sys.replicas[q])
    ensures OwedSystem(p, sys')
  {
  }

  lemma ReplicaOwed(p: Program, sys: System, r: Id, m: Node)
    requires OwedSystem(p, sys) && r in sys.replicas && AllOwed(p, AtReplica(r), sys.accepted, m)
    ensures OwedSystem(p, sys.(replicas := sys.replicas[r := m]))
  {
  }

  lemma ReplicaReceivesOwed(p: Program, sys: System, r: Id, recovering: bool)
    requires OwedSystem(p, sys)
    ensures OwedSystem(p, DoReplicaReceives(p, sys, r, recovering))
  {
    if ReplicaCanReceive(sys, r) {
      var msg, n := sys.net.sent[sys.net.read[r]], sys.replicas[r];
      assert AllOwed(p, AtReplica(r), sys.accepted, n);
      if msg.Prepare? {
        var m := OnPrepare(p, n, msg.number, msg.hash, msg.command, recovering).0;
        SameOwed(p, AtReplica(r), sys.accepted, n, m);
        ReplicaOwed(p, sys, r, m);
      } else {
        DecideOwed(p, AtReplica(r), sys.accepted, n, msg.number, msg.hash, msg.commit);
        ReplicaOwed(p, sys, r, Decide(p, n, msg.number, msg.hash, msg.commit));
      }
    }
  }

  lemma TimeoutOwed(p: Program, sys: System, s: nat)
    requires OwedSystem(p, sys)
    ensures OwedSystem(p, DoTimeout(p, sys, s))
  {
    if s in sys.primary.queue { PrimaryDecideOwed(p, sys, s, sys.primary.queue[s].hash, false); }
  }

  lemma LeaveOwed(p: Program, sys: System, r: Id)
    requires OwedSystem(p, sys)
    ensures OwedSystem(p, DoLeave(sys, r))
  {
  }

  lemma JoinOwed(p: Program, sys: System, r: Id)
    requires OwedSystem(p, sys)
    ensures OwedSystem(p, DoJoin(sys, r))
  {
    if CanJoin(sys, r) {
      assert forall h :: h in sys.accepted ==> sys.accepted[h].site != AtReplica(r);
      assert AllOwed(p, AtReplica(r), sys.accepted, Snapshot(sys.primary));
    }
  }

  lemma DeskOwed(p: Program, sys: System, site: Site, d: Desk)
    requires OwedSystem(p, sys) && d.clients == DeskAt(sys, site).clients
    requires forall h :: Answers(d, h) == Answers(DeskAt(sys, site), h)
    ensures OwedSystem(p, WithDesk(sys, site, d))
  {
    match site
    case AtPrimary => SameOwed(p, site, sys.accepted, sys.primary, sys.primary.(desk := d));
    case AtReplica(r) =>
      if r in sys.replicas {
        SameOwed(p, site, sys.accepted, sys.replicas[r], sys.replicas[r].(desk := d));
        ReplicaOwed(p, sys, r, sys.replicas[r].(desk := d));
      }
  }

  lemma SentAnswers(d: Desk, h: string)
    ensures Answers(SendDeferred(d), h) == Answers(d, h)
  {
    CountOfConcat(d.replies, d.deferred, h);
  }

  lemma StepOwed(p: Program, sys: System, a: Action)
    requires Safe(p, sys) && ClientsOk(sys) && OwedSystem(p, sys)
    ensures OwedSystem(p, Step(p, sys, a))
  {
    match a
    case WriteAtPrimary(hash, fd, command) => WriteAtPrimaryOwed(p, sys, hash, fd, command);
    case WriteAtReplica(r, hash, fd, command) => WriteAtReplicaOwed(p, sys, r, hash, fd, command);
    case PrimaryReceives(r) => PrimaryReceivesOwed(p, sys, r);
    case ReplicaReceives(r, recovering) => ReplicaReceivesOwed(p, sys, r, recovering);
    case Timeout(s) => TimeoutOwed(p, sys, s);
    case Leave(r) => LeaveOwed(p, sys, r);
    case Join(r) => JoinOwed(p, sys, r);
    case SetCheckpointing(site, tablets) => CheckpointingOwed(p, sys, site, tablets);
    case SendQueued(site) => SendQueuedOwed(p, sys, site);
  }

  lemma CheckpointingOwed(p: Program, sys: System, site: Site, tablets: set<nat>)
    requires OwedSystem(p, sys)
    ensures OwedSystem(p, WithDesk(sys, site, DeskAt(sys, site).(checkpointing := tablets)))
  {
    var d := DeskAt(sys, site).(checkpointing := tablets);
    assert forall h :: Answers(d, h) == Answers(DeskAt(sys, site), h);
    DeskOwed(p, sys, site, d);
  }

  lemma SendQueuedOwed(p: Program, sys: System, site: Site)
    requires OwedSystem(p, sys)
    ensures OwedSystem(p, WithDesk(sys, site, SendDeferred(DeskAt(sys, site))))
  {
    forall h ensures Answers(SendDeferred(DeskAt(sys, site)), h) == Answers(DeskAt(sys, site), h) {
      SentAnswers(DeskAt(sys, site), h);
    }
    DeskOwed(p, sys, site, SendDeferred(DeskAt(sys, site)));
  }

  lemma {:induction false} RunOwed(p: Program, base: nat, table: Table, actions: seq<Action>)
    ensures OwedSystem(p, Run(p, base, table, actions))
  {
    if actions != [] {
      var before := actions[..|actions| - 1];
      RunOwed(p, base, table, before);
      RunSafe(p, base, table, before);
      RunClients(p, base, table, before);
      StepOwed(p, Run(p, base, table, before), actions[|actions| - 1]);
    }
  }

  /** In every run: a write is answered where it was accepted, sent or deferred, exactly once if it was
      processed there, and not yet if it was not; until then the server remembers it, with the row that
      decides whether its answer will wait. */
  lemma {:induction false} AnsweredIffProcessed(
      p: Program, base: nat, table: Table, actions: seq<Action>, site: Site, n: Node, hash: string)
    requires ServerAt(Run(p, base, table, actions), site, n)
    requires hash in Run(p, base, table, actions).accepted
    requires Run(p, base, table, actions).accepted[hash].site == site
    ensures Answers(n.desk, hash) == if Done(n, hash) then 1 else 0
    ensures hash in n.desk.clients && n.desk.clients[hash].fromFrontend <==> !Done(n, hash)
    ensures !Done(n, hash) ==>
              n.desk.clients[hash].row == RowAt(p, site, Run(p, base, table, actions).accepted[hash].command)
  {
    RunOwed(p, base, table, actions);
    var sys := Run(p, base, table, actions);
    assert AllOwed(p, site, sys.accepted, n);
    assert Owed(p, site, sys.accepted[hash], n, hash);
  }
}
