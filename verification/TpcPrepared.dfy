/** What is prepared is in the 2PC log: a PREPARE line for every transaction that a server queues, that
    the primary starts and that a replica votes on, in every run. */
module TpcPrepared {
  import opened Text
  import opened Commands
  import opened TpcNode
  import opened TpcNodeSafety
  import opened TpcSystem
  import opened TpcAgreement

  // ---------------------------------------------------------------- one server

  predicate HasPrepared(n: Node, s: nat, hash: string) { TpcLine(Prepared, hash, s) in n.tpcLog }

  predicate QueueLogged(n: Node) {
    forall s :: s in n.queue ==> HasPrepared(n, s, n.queue[s].hash)
  }

  /** The log is only appended to, and nothing new is queued. */
  predicate GoesOn(n: Node, m: Node) {
    n.tpcLog <= m.tpcLog && forall s :: s in m.queue ==> s in n.queue && m.queue[s].hash == n.queue[s].hash
  }

  lemma GoingOnKeeps(n: Node, m: Node)
    requires GoesOn(n, m)
    ensures QueueLogged(n) ==> QueueLogged(m)
    ensures forall s, hash :: HasPrepared(n, s, hash) ==> HasPrepared(m, s, hash)
  {
  }

  lemma {:induction false} DrainGoesOn(p: Program, n: Node)
    ensures GoesOn(n, Drain(p, n))
    decreases |Above(n)|
  {
    if n.health == Up && HeadDecided(n) {
      ProcessNextEffect(p, n);
      ProcessNextLogs(p, n);
      ProcessNextShrinks(p, n);
      DrainGoesOn(p, ProcessNext(p, n));
    }
  }

  lemma DecideGoesOn(p: Program, n: Node, s: nat, hash: string, commit: bool)
    ensures GoesOn(n, Decide(p, n, s, hash, commit))
  {
    if !AlreadyProcessed(n, s) {
      DrainGoesOn(p, Marked(n, s, hash, commit));
    }
  }

  lemma StartLogs(n: Node, hash: string, command: string)
    requires QueueLogged(n)
    ensures var m := Start(n, hash, command);
      QueueLogged(m) && n.tpcLog <= m.tpcLog && HasPrepared(m, n.tpcSeq + 1, hash)
  {
  }

  lemma PreparingLogs(p: Program, n: Node, s: nat, hash: string, command: string, recovering: bool)
    requires QueueLogged(n)
    ensures var (m, vote) := OnPrepare(p, n, s, hash, command, recovering);
      QueueLogged(m) && n.tpcLog <= m.tpcLog && (vote.Some? ==> HasPrepared(m, s, hash))
  {
  }

  // ---------------------------------------------------------------- the system

  predicate VotedOn(b: Ballots, s: nat, r: Id) { (s, r) in b.yes || (s, r) in b.no }

  predicate PrimaryLogged(g: Ground, n: Node) {
    QueueLogged(n) && forall s :: s in g.started ==> HasPrepared(n, s, g.started[s].hash)
  }

  ghost predicate ReplicaLogged(g: Ground, b: Ballots, r: Id, n: Node) {
    QueueLogged(n) && forall s :: VotedOn(b, s, r) ==> s in g.started && HasPrepared(n, s, g.started[s].hash)
  }

  ghost predicate AllLogged(g: Ground, primary: Node, replicas: map<Id, Node>, b: Ballots) {
    && PrimaryLogged(g, primary)
    && (forall r :: r in replicas ==> ReplicaLogged(g, b, r, replicas[r]))
    && forall s, r :: VotedOn(b, s, r) ==> r in replicas
  }

  ghost predicate LoggedSystem(sys: System) {
    AllLogged(sys.ground, sys.primary, sys.replicas, sys.ballots)
  }

  /** What the primary does without starting anything. */
  lemma PrimaryGoesOn(g: Ground, g': Ground, n: Node, m: Node, replicas: map<Id, Node>, b: Ballots, b': Ballots)
    requires AllLogged(g, n, replicas, b) && GoesOn(n, m)
    requires g'.started == g.started && b'.yes == b.yes && b'.no == b.no
    ensures AllLogged(g', m, replicas, b')
  {
    GoingOnKeeps(n, m);
    forall r | r in replicas ensures ReplicaLogged(g', b', r, replicas[r]) {
      assert ReplicaLogged(g, b, r, replicas[r]);
      assert forall s :: VotedOn(b', s, r) ==> VotedOn(b, s, r);
    }
    forall s, r | VotedOn(b', s, r) ensures r in replicas { assert VotedOn(b, s, r); }
  }

  lemma StartTpcLogged(sys: System, hash: string, command: string)
    requires PrimaryKnows(sys.ground, sys.primary) && LoggedSystem(sys)
    ensures LoggedSystem(StartTpc(sys, hash, command))
  {
    var sys' := StartTpc(sys, hash, command);
    StartLogs(sys.primary, hash, command);
    assert sys.primary.tpcSeq + 1 !in sys.ground.started;
    forall s | s in sys'.ground.started ensures HasPrepared(sys'.primary, s, sys'.ground.started[s].hash) {
      if s != sys.primary.tpcSeq + 1 { assert HasPrepared(sys.primary, s, sys.ground.started[s].hash); }
    }
    forall r | r in sys.replicas ensures ReplicaLogged(sys'.ground, sys'.ballots, r, sys.replicas[r]) {
      assert ReplicaLogged(sys.ground, sys.ballots, r, sys.replicas[r]);
      assert forall s :: VotedOn(sys'.ballots, s, r) ==> VotedOn(sys.ballots, s, r);
    }
    forall s, r | VotedOn(sys'.ballots, s, r) ensures r in sys.replicas { assert VotedOn(sys.ballots, s, r); }
  }

  lemma PrimaryDecideLogged(p: Program, sys: System, s: nat, hash: string, commit: bool)
    requires LoggedSystem(sys)
    ensures LoggedSystem(PrimaryDecide(p, sys, s, hash, commit))
  {
    if !AlreadyProcessed(sys.primary, s) {
      var sys' := PrimaryDecide(p, sys, s, hash, commit);
      DecideGoesOn(p, sys.primary, s, hash, commit);
      PrimaryGoesOn(sys.ground, sys'.ground, sys.primary, sys'.primary, sys.replicas, sys.ballots, sys'.ballots);
    }
  }

  lemma OnVoteLogged(p: Program, sys: System, r: Id, s: nat, hash: string, yes: bool)
    requires LoggedSystem(sys)
    ensures LoggedSystem(OnVote(p, sys, r, s, hash, yes))
  {
    if AlreadyProcessed(sys.primary, s) || s !in sys.primary.queue {
    } else if !yes {
      PrimaryDecideLogged(p, sys, s, hash, false);
    } else {
      var sys1 := sys.(ballots := Count(sys.ballots, s, r));
      PrimaryGoesOn(sys.ground, sys.ground, sys.primary, sys.primary, sys.replicas, sys.ballots, sys1.ballots);
      if EnoughVotes(sys1.ballots, s, sys.net.connected) {
        var (n, granted) := Acquire(p, sys.primary, s, sys.primary.queue[s].command);
        PrimaryGoesOn(sys.ground, sys.ground, sys.primary, n, sys.replicas, sys1.ballots, sys1.ballots);
        PrimaryDecideLogged(p, sys1.(primary := n), s, hash, granted);
      }
    }
  }

  lemma PrimaryReceivesLogged(p: Program, sys: System, r: Id)
    requires PrimaryKnows(sys.ground, sys.primary) && LoggedSystem(sys)
    ensures LoggedSystem(DoPrimaryReceives(p, sys, r))
  {
    if PrimaryCanReceive(sys, r) {
      var sys1 := Pop(sys, r);
      match UpFrom(sys.net, r)[0]
      case Vote(s, hash, yes) => OnVoteLogged(p, sys1, r, s, hash, yes);
      case Forward(hash, command) =>
        var sys2 := RememberAtPrimary(p, sys1, hash, command, false, 0);
        PrimaryGoesOn(sys.ground, sys.ground, sys.primary, sys2.primary, sys.replicas, sys.ballots, sys.ballots);
        StartTpcLogged(sys2, hash, command);
    }
  }

  lemma WriteAtPrimaryLogged(p: Program, sys: System, hash: string, fd: nat, command: string)
    requires PrimaryKnows(sys.ground, sys.primary) && LoggedSystem(sys)
    ensures LoggedSystem(DoWriteAtPrimary(p, sys, hash, fd, command))
  {
    if PrimaryCanWrite(sys, hash) {
      var sys1 := RememberAtPrimary(p, sys, hash, command, true, fd);
      PrimaryGoesOn(sys.ground, sys.ground, sys.primary, sys1.primary, sys.replicas, sys.ballots, sys.ballots);
      StartTpcLogged(sys1.(accepted := sys.accepted[hash := Accepted(AtPrimary, fd, command)]), hash, command);
    }
  }

  /** One replica changes, and votes on at most one number, which it has logged. */
  lemma ReplicaChanges(g: Ground, primary: Node, replicas: map<Id, Node>, b: Ballots, r: Id, m: Node, b': Ballots)
    requires AllLogged(g, primary, replicas, b) && r in replicas
    requires QueueLogged(m) && replicas[r].tpcLog <= m.tpcLog
    requires forall s, q :: VotedOn(b', s, q) ==>
               VotedOn(b, s, q) || (q == r && s in g.started && HasPrepared(m, s, g.started[s].hash))
    ensures AllLogged(g, primary, replicas[r := m], b')
  {
    var replicas' := replicas[r := m];
    forall q | q in replicas' ensures ReplicaLogged(g, b', q, replicas'[q]) {
      assert ReplicaLogged(g, b, q, replicas[q]);
      forall s | VotedOn(b', s, q) ensures s in g.started && HasPrepared(replicas'[q], s, g.started[s].hash)
      {
        if VotedOn(b, s, q) { assert HasPrepared(replicas[q], s, g.started[s].hash); }
      }
    }
  }

  lemma AfterPrepareLogged(p: Program, sys: System, r: Id, msg: Msg, recovering: bool)
    requires LoggedSystem(sys) && r in sys.replicas && msg.Prepare? && MsgOk(sys.ground, msg)
    ensures LoggedSystem(AfterPrepare(p, sys, r, msg, recovering))
  {
    var sys' := AfterPrepare(p, sys, r, msg, recovering);
    assert ReplicaLogged(sys.ground, sys.ballots, r, sys.replicas[r]);
    PreparingLogs(p, sys.replicas[r], msg.number, msg.hash, msg.command, recovering);
    var (m, vote) := OnPrepare(p, sys.replicas[r], msg.number, msg.hash, msg.command, recovering);
    VotesOnOne(sys.ballots, sys'.ballots, msg.number, r, vote);
    ReplicaChanges(sys.ground, sys.primary, sys.replicas, sys.ballots, r, m, sys'.ballots);
  }

  lemma VotesOnOne(b: Ballots, b': Ballots, s: nat, r: Id, vote: Option<bool>)
    requires b' == match vote case None => b case Some(yes) => Cast(b, s, r, yes)
    ensures forall t, q :: VotedOn(b', t, q) ==> VotedOn(b, t, q) || (vote.Some? && t == s && q == r)
  {
  }

  lemma ReplicaGoesOn(sys: System, r: Id, m: Node)
    requires LoggedSystem(sys) && r in sys.replicas && GoesOn(sys.replicas[r], m)
    ensures AllLogged(sys.ground, sys.primary, sys.replicas[r := m], sys.ballots)
  {
    assert ReplicaLogged(sys.ground, sys.ballots, r, sys.replicas[r]);
    GoingOnKeeps(sys.replicas[r], m);
    ReplicaChanges(sys.ground, sys.primary, sys.replicas, sys.ballots, r, m, sys.ballots);
  }

  lemma ReplicaReceivesLogged(p: Program, sys: System, r: Id, recovering: bool)
    requires LoggedSystem(sys) && NetOk(sys.ground, sys.net)
    ensures LoggedSystem(DoReplicaReceives(p, sys, r, recovering))
  {
    if ReplicaCanReceive(sys, r) {
      var msg := sys.net.sent[sys.net.read[r]];
      if msg.Prepare? {
        assert MsgOk(sys.ground, msg);
        AfterPrepareLogged(p, sys.(net := Advance(sys.net, r)), r, msg, recovering);
      } else {
        DecideGoesOn(p, sys.replicas[r], msg.number, msg.hash, msg.commit);
        ReplicaGoesOn(sys, r, Decide(p, sys.replicas[r], msg.number, msg.hash, msg.commit));
      }
    }
  }

  lemma JoinLogged(sys: System, r: Id)
    requires LoggedSystem(sys)
    ensures LoggedSystem(DoJoin(sys, r))
  {
    if CanJoin(sys, r) {
      var sys' := DoJoin(sys, r);
      forall q | q in sys'.replicas ensures ReplicaLogged(sys.ground, sys.ballots, q, sys'.replicas[q]) {
        if q != r { assert ReplicaLogged(sys.ground, sys.ballots, q, sys.replicas[q]); }
      }
    }
  }

  lemma DeskLogged(sys: System, site: Site, d: Desk)
    requires LoggedSystem(sys)
    ensures LoggedSystem(WithDesk(sys, site, d))
  {
    match site
    case AtPrimary =>
      PrimaryGoesOn(sys.ground, sys.ground, sys.primary, sys.primary.(desk := d), sys.replicas, sys.ballots,
          sys.ballots);
    case AtReplica(r) => if r in sys.replicas { ReplicaGoesOn(sys, r, sys.replicas[r].(desk := d)); }
  }

  lemma StepLogged(p: Program, sys: System, a: Action)
    requires Safe(p, sys) && LoggedSystem(sys)
    ensures LoggedSystem(Step(p, sys, a))
  {
    match a
    case WriteAtPrimary(hash, fd, command) => WriteAtPrimaryLogged(p, sys, hash, fd, command);
    case WriteAtReplica(r, hash, fd, command) =>
      if ReplicaCanWrite(sys, r, hash) { ReplicaGoesOn(sys, r, RememberAtReplica(sys, r, hash, fd).replicas[r]); }
    case PrimaryReceives(r) => PrimaryReceivesLogged(p, sys, r);
    case ReplicaReceives(r, recovering) => ReplicaReceivesLogged(p, sys, r, recovering);
    case Timeout(s) =>
      if s in sys.primary.queue { PrimaryDecideLogged(p, sys, s, sys.primary.queue[s].hash, false); }
    case Leave(r) =>
      PrimaryGoesOn(sys.ground, sys.ground, sys.primary, sys.primary, sys.replicas, sys.ballots,
          DoLeave(sys, r).ballots);
    case Join(r) => JoinLogged(sys, r);
    case SetCheckpointing(site, tablets) => DeskLogged(sys, site, DeskAt(sys, site).(checkpointing := tablets));
    case SendQueued(site) => DeskLogged(sys, site, SendDeferred(DeskAt(sys, site)));
  }

  lemma {:induction false} RunLogged(p: Program, base: nat, table: Table, actions: seq<Action>)
    ensures LoggedSystem(Run(p, base, table, actions))
  {
    if actions != [] {
      var before := actions[..|actions| - 1];
      RunLogged(p, base, table, before);
      RunSafe(p, base, table, before);
      StepLogged(p, Run(p, base, table, before), actions[|actions| - 1]);
    }
  }

  // ---------------------------------------------------------------- main result

  /** In every run: the primary's 2PC log has a PREPARE line with its hash for every number that was
      started, a replica's for every number it voted on, and every server's for whatever it queues. */
  lemma {:induction false} PreparedInRun(p: Program, base: nat, table: Table, actions: seq<Action>, n: Node)
    requires IsNode(Run(p, base, table, actions), n)
    ensures var sys := Run(p, base, table, actions);
      && (forall s :: s in n.queue ==> TpcLine(Prepared, n.queue[s].hash, s) in n.tpcLog)
      && (forall s :: s in sys.ground.started ==>
           TpcLine(Prepared, sys.ground.started[s].hash, s) in sys.primary.tpcLog)
      && forall s, r :: VotedOn(sys.ballots, s, r) ==>
           r in sys.replicas && s in sys.ground.started &&
           TpcLine(Prepared, sys.ground.started[s].hash, s) in sys.replicas[r].tpcLog
  {
    RunLogged(p, base, table, actions);
    LoggedMeans(Run(p, base, table, actions), n);
  }

  lemma LoggedMeans(sys: System, n: Node)
    requires LoggedSystem(sys) && IsNode(sys, n)
    ensures forall s :: s in n.queue ==> TpcLine(Prepared, n.queue[s].hash, s) in n.tpcLog
    ensures forall s :: s in sys.ground.started ==>
              TpcLine(Prepared, sys.ground.started[s].hash, s) in sys.primary.tpcLog
    ensures forall s, r :: VotedOn(sys.ballots, s, r) ==>
              r in sys.replicas && s in sys.ground.started &&
              TpcLine(Prepared, sys.ground.started[s].hash, s) in sys.replicas[r].tpcLog
  {
    assert QueueLogged(n);
    assert forall s :: s in n.queue ==> HasPrepared(n, s, n.queue[s].hash);
    assert forall s :: s in sys.ground.started ==> HasPrepared(sys.primary, s, sys.ground.started[s].hash);
    forall s, r | VotedOn(sys.ballots, s, r)
      ensures r in sys.replicas && s in sys.ground.started &&
              TpcLine(Prepared, sys.ground.started[s].hash, s) in sys.replicas[r].tpcLog
    {
      assert ReplicaLogged(sys.ground, sys.ballots, r, sys.replicas[r]);
      assert HasPrepared(sys.replicas[r], s, sys.ground.started[s].hash);
    }
  }
}
