/** What keeps a transaction waiting: a number that the primary has queued and not decided waits for the
    vote of a recorded replica or for the timeout, nothing that was accepted is forgotten, and with the
    repaired draining what is decided is processed. */
module TpcProgress {
  import opened Text
  import opened Commands
  import opened TpcNode
  import opened TpcNodeSafety
  import opened TpcSystem
  import opened TpcAgreement
  import opened TpcUnanimity
  import opened TpcClients
  import opened TpcLost

  // ---------------------------------------------------------------- votes on their way

  predicate VoteAt(msgs: seq<Up>, i: int, s: nat) { 0 <= i < |msgs| && msgs[i].Vote? && msgs[i].number == s }

  /** The replica's vote on s was sent and not yet read. */
  ghost predicate InFlight(net: Net, r: Id, s: nat) { exists i :: VoteAt(UpFrom(net, r), i, s) }

  lemma SameFlight(net: Net, net': Net, r: Id, s: nat)
    requires UpFrom(net', r) == UpFrom(net, r)
    ensures InFlight(net', r, s) <==> InFlight(net, r, s)
  {
    forall i | VoteAt(UpFrom(net, r), i, s) ensures InFlight(net', r, s) { assert VoteAt(UpFrom(net', r), i, s); }
    forall i | VoteAt(UpFrom(net', r), i, s) ensures InFlight(net, r, s) { assert VoteAt(UpFrom(net, r), i, s); }
  }

  /** Undecided at the primary, and nobody has left since it was started. */
  predicate IsOpen(g: Ground, queue: map<nat, Transaction>, b: Ballots, s: nat) {
    s in queue && s in g.started && s !in g.decided && s in b.intact
  }

  /** The vote was counted, was not cast or is on its way. */
  ghost predicate Accounted(net: Net, b: Ballots, s: nat, r: Id) {
    r in SetAt(b.responses, s) || !Voted(b, s, r) || InFlight(net, r, s)
  }

  ghost predicate Traced(g: Ground, queue: map<nat, Transaction>, net: Net, b: Ballots) {
    && (forall s :: IsOpen(g, queue, b, s) ==> SetAt(b.responses, s) != SetAt(b.recorded, s))
    && (forall s, r :: IsOpen(g, queue, b, s) && r in SetAt(b.recorded, s) ==> Accounted(net, b, s, r))
    && forall s :: s in b.responses ==> s !in g.decided
  }

  ghost predicate TracedSystem(sys: System) {
    Traced(sys.ground, sys.primary.queue, sys.net, sys.ballots)
  }

  lemma StartTraced(sys: System, hash: string, command: string)
    requires TracedSystem(sys) && FairSystem(sys) && PrimaryKnows(sys.ground, sys.primary) && sys.net.connected != {}
    ensures TracedSystem(StartTpc(sys, hash, command))
  {
    var sys', s := StartTpc(sys, hash, command), sys.primary.tpcSeq + 1;
    NextIsNew(sys.ground, sys.primary);
    assert SetAt(sys'.ballots.responses, s) == {} && SetAt(sys'.ballots.recorded, s) == sys.net.connected;
    forall t, r | IsOpen(sys'.ground, sys'.primary.queue, sys'.ballots, t) && r in SetAt(sys'.ballots.recorded, t)
      ensures Accounted(sys'.net, sys'.ballots, t, r)
    {
      if t == s {
        assert !Voted(sys.ballots, s, r);
      } else {
        assert IsOpen(sys.ground, sys.primary.queue, sys.ballots, t);
        assert Accounted(sys.net, sys.ballots, t, r);
        SameFlight(sys.net, sys'.net, r, t);
      }
    }
    forall t | IsOpen(sys'.ground, sys'.primary.queue, sys'.ballots, t)
      ensures SetAt(sys'.ballots.responses, t) != SetAt(sys'.ballots.recorded, t)
    {
      assert t != s ==> IsOpen(sys.ground, sys.primary.queue, sys.ballots, t);
    }
  }

  /** Fewer numbers are open, and the same votes are cast, counted or on their way. */
  lemma FewerOpen(g: Ground, queue: map<nat, Transaction>, net: Net, b: Ballots, g': Ground,
      queue': map<nat, Transaction>, net': Net, b': Ballots)
    requires Traced(g, queue, net, b)
    requires g'.started == g.started && queue'.Keys <= queue.Keys && g.decided.Keys <= g'.decided.Keys
    requires b'.intact <= b.intact && b'.recorded == b.recorded && b'.yes == b.yes && b'.no == b.no
    requires forall s :: s in b'.responses ==> s in b.responses && s !in g'.decided && b'.responses[s] == b.responses[s]
    requires forall s :: s in b.responses && s !in g'.decided ==> s in b'.responses
    requires forall s, r :: IsOpen(g', queue', b', s) && r in SetAt(b.recorded, s) && InFlight(net, r, s) ==>
               InFlight(net', r, s)
    ensures Traced(g', queue', net', b')
  {
    forall s | IsOpen(g', queue', b', s)
      ensures SetAt(b'.responses, s) != SetAt(b'.recorded, s)
      ensures forall r :: r in SetAt(b'.recorded, s) ==> Accounted(net', b', s, r)
    {
      assert IsOpen(g, queue, b, s);
      assert SetAt(b'.responses, s) == SetAt(b.responses, s);
      forall r | r in SetAt(b'.recorded, s) ensures Accounted(net', b', s, r) {
        assert Accounted(net, b, s, r);
        assert Voted(b', s, r) <==> Voted(b, s, r);
      }
    }
  }

  lemma {:induction false} DrainQueue(p: Program, n: Node)
    ensures Drain(p, n).queue.Keys <= n.queue.Keys
    decreases |Above(n)|
  {
    if n.health == Up && HeadDecided(n) {
      ProcessNextEffect(p, n);
      ProcessNextShrinks(p, n);
      DrainQueue(p, ProcessNext(p, n));
    }
  }

  lemma PrimaryDecideTraced(p: Program, sys: System, s: nat, hash: string, commit: bool)
    requires Traced(sys.ground.(decided := sys.ground.decided[s := commit]), sys.primary.queue, sys.net,
               sys.ballots.(responses := sys.ballots.responses - {s}))
    requires !AlreadyProcessed(sys.primary, s)
    ensures TracedSystem(PrimaryDecide(p, sys, s, hash, commit))
  {
    var sys' := PrimaryDecide(p, sys, s, hash, commit);
    DrainQueue(p, Marked(sys.primary, s, hash, commit));
    forall r, t | InFlight(sys.net, r, t) ensures InFlight(sys'.net, r, t) { SameFlight(sys.net, sys'.net, r, t); }
    FewerOpen(sys'.ground, sys.primary.queue, sys.net, sys'.ballots, sys'.ground, sys'.primary.queue, sys'.net,
        sys'.ballots);
  }

  /** Whatever a decision leaves open was open before. */
  lemma DecidedTraced(g: Ground, queue: map<nat, Transaction>, net: Net, b: Ballots, s: nat, commit: bool)
    requires Traced(g, queue, net, b)
    ensures Traced(g.(decided := g.decided[s := commit]), queue, net, b.(responses := b.responses - {s}))
  {
    FewerOpen(g, queue, net, b, g.(decided := g.decided[s := commit]), queue, net,
        b.(responses := b.responses - {s}));
  }

  lemma DecisionTraced(p: Program, sys: System, s: nat, hash: string, commit: bool)
    requires TracedSystem(sys)
    ensures TracedSystem(PrimaryDecide(p, sys, s, hash, commit))
  {
    if !AlreadyProcessed(sys.primary, s) {
      DecidedTraced(sys.ground, sys.primary.queue, sys.net, sys.ballots, s, commit);
      PrimaryDecideTraced(p, sys, s, hash, commit);
    }
  }

  /** Only what was decided is treated as processed. */
  lemma ProcessedIsDecided(p: Program, g: Ground, n: Node, s: nat)
    requires NodeOk(p, g, n) && s in n.queue && AlreadyProcessed(n, s) && (s in g.started ==> s > g.base)
    ensures s in g.decided
  {
    assert TransactionOk(g, s, n.queue[s]);
    if s <= n.lastSeq {
      assert EntryOk(g, s - g.base - 1, n.history[s - g.base - 1]);
    } else if s in n.queued {
      MarkedWasDecided(p, g, n, s);
    }
  }

  // ---------------------------------------------------------------- reading a vote

  lemma PopKeepsVotes(net: Net, r: Id, q: Id, t: nat)
    requires UpFrom(net, r) != [] && InFlight(net, q, t)
    requires q == r ==> !VoteAt(UpFrom(net, r), 0, t)
    ensures InFlight(net.(up := net.up[r := UpFrom(net, r)[1..]]), q, t)
  {
    var i :| VoteAt(UpFrom(net, q), i, t);
    var net' := net.(up := net.up[r := UpFrom(net, r)[1..]]);
    if q == r { assert VoteAt(UpFrom(net', q), i - 1, t); } else { assert VoteAt(UpFrom(net', q), i, t); }
  }

  /** What is left when r's vote on s is read and counted, if it was a YES. */
  lemma CountedTraced(g: Ground, queue: map<nat, Transaction>, net: Net, b: Ballots, r: Id, s: nat)
    requires Traced(g, queue, net, b) && UpFrom(net, r) != [] && VoteAt(UpFrom(net, r), 0, s) && s !in g.decided
    requires SetAt(b.responses, s) + {r} != SetAt(b.recorded, s)
    ensures Traced(g, queue, net.(up := net.up[r := UpFrom(net, r)[1..]]), Count(b, s, r))
  {
    var net', b' := net.(up := net.up[r := UpFrom(net, r)[1..]]), Count(b, s, r);
    forall t, q | IsOpen(g, queue, b', t) && q in SetAt(b'.recorded, t) ensures Accounted(net', b', t, q) {
      assert IsOpen(g, queue, b, t);
      assert Accounted(net, b, t, q);
      assert Voted(b', t, q) <==> Voted(b, t, q);
      if InFlight(net, q, t) && !(q == r && t == s) { PopKeepsVotes(net, r, q, t); }
    }
    forall t | IsOpen(g, queue, b', t) ensures SetAt(b'.responses, t) != SetAt(b'.recorded, t) {
      assert IsOpen(g, queue, b, t);
    }
  }

  /** What is left when it is read and s is decided, or was not open. */
  lemma ReadTraced(g: Ground, queue: map<nat, Transaction>, net: Net, b: Ballots, r: Id)
    requires Traced(g, queue, net, b) && UpFrom(net, r) != []
    requires forall t :: IsOpen(g, queue, b, t) ==> !VoteAt(UpFrom(net, r), 0, t)
    ensures Traced(g, queue, net.(up := net.up[r := UpFrom(net, r)[1..]]), b)
  {
    var net' := net.(up := net.up[r := UpFrom(net, r)[1..]]);
    forall t, q | IsOpen(g, queue, b, t) && q in SetAt(b.recorded, t) && InFlight(net, q, t)
      ensures InFlight(net', q, t)
    {
      PopKeepsVotes(net, r, q, t);
    }
    FewerOpen(g, queue, net, b, g, queue, net', b);
  }

  lemma DecidingVote(p: Program, sys: System, r: Id, s: nat, hash: string, commit: bool, b: Ballots, n: Node)
    requires TracedSystem(sys) && UpFrom(sys.net, r) != [] && VoteAt(UpFrom(sys.net, r), 0, s)
    requires n == sys.primary.(locks := n.locks) && !AlreadyProcessed(n, s)
    requires b == sys.ballots.(responses := b.responses) && b.responses - {s} == sys.ballots.responses - {s}
    ensures TracedSystem(PrimaryDecide(p, Pop(sys, r).(ballots := b, primary := n), s, hash, commit))
  {
    var g' := sys.ground.(decided := sys.ground.decided[s := commit]);
    var b' := sys.ballots.(responses := sys.ballots.responses - {s});
    DecidedTraced(sys.ground, sys.primary.queue, sys.net, sys.ballots, s, commit);
    ReadTraced(g', sys.primary.queue, sys.net, b', r);
    assert b.(responses := b.responses - {s}) == b';
    PrimaryDecideTraced(p, Pop(sys, r).(ballots := b, primary := n), s, hash, commit);
  }

  lemma CountDropped(b: Ballots, s: nat, r: Id)
    ensures Count(b, s, r).responses - {s} == b.responses - {s}
    ensures Count(b, s, r) == b.(responses := Count(b, s, r).responses)
    ensures SetAt(Count(b, s, r).responses, s) == SetAt(b.responses, s) + {r}
  {
  }

  lemma OnVoteTraced(p: Program, sys: System, r: Id, s: nat, hash: string, yes: bool)
    requires TracedSystem(sys) && FairSystem(sys) && Safe(p, sys) && r in sys.net.read
    requires UpFrom(sys.net, r) != [] && UpFrom(sys.net, r)[0] == Vote(s, hash, yes)
    ensures TracedSystem(OnVote(p, Pop(sys, r), r, s, hash, yes))
  {
    assert VoteAt(UpFrom(sys.net, r), 0, s);
    if AlreadyProcessed(sys.primary, s) || s !in sys.primary.queue {
      if s in sys.primary.queue { ProcessedIsDecided(p, sys.ground, sys.primary, s); }
      ReadTraced(sys.ground, sys.primary.queue, sys.net, sys.ballots, r);
    } else if !yes {
      DecidingVote(p, sys, r, s, hash, false, sys.ballots, sys.primary);
    } else {
      var b := Count(sys.ballots, s, r);
      CountDropped(sys.ballots, s, r);
      if EnoughVotes(b, s, sys.net.connected) {
        var (n, granted) := Acquire(p, sys.primary, s, sys.primary.queue[s].command);
        DecidingVote(p, sys, r, s, hash, granted, b, n);
      } else {
        UndecidedBefore(sys.ground, sys.primary, s);
        CountedTraced(sys.ground, sys.primary.queue, sys.net, sys.ballots, r, s);
      }
    }
  }

  lemma UndecidedBefore(g: Ground, n: Node, s: nat)
    requires PrimaryKnows(g, n) && !AlreadyProcessed(n, s)
    ensures s !in g.decided
  {
  }

  lemma PrimaryReceivesTraced(p: Program, sys: System, r: Id)
    requires TracedSystem(sys) && FairSystem(sys) && Safe(p, sys)
    ensures TracedSystem(DoPrimaryReceives(p, sys, r))
  {
    if PrimaryCanReceive(sys, r) {
      match UpFrom(sys.net, r)[0]
      case Vote(s, hash, yes) => OnVoteTraced(p, sys, r, s, hash, yes);
      case Forward(hash, command) =>
        ReadTraced(sys.ground, sys.primary.queue, sys.net, sys.ballots, r);
        PopKeeps(p, sys, r);
        StartTraced(RememberAtPrimary(p, Pop(sys, r), hash, command, false, 0), hash, command);
    }
  }

  // ---------------------------------------------------------------- the replicas' side

  lemma SentStaysInFlight(net: Net, r: Id, msg: Up, q: Id, t: nat)
    ensures InFlight(net, q, t) ==> InFlight(Send(net, r, msg), q, t)
    ensures msg.Vote? ==> InFlight(Send(net, r, msg), r, msg.number)
  {
    if InFlight(net, q, t) {
      var i :| VoteAt(UpFrom(net, q), i, t);
      assert VoteAt(UpFrom(Send(net, r, msg), q), i, t);
    }
    if msg.Vote? { assert VoteAt(UpFrom(Send(net, r, msg), r), |UpFrom(net, r)|, msg.number); }
  }

  /** The vote is cast, and on its way if its number is open: then the replica is connected. */
  lemma SendVoteTraced(sys: System, r: Id, s: nat, hash: string, yes: bool)
    requires TracedSystem(sys) && IntactOk(sys.ground, sys.net.connected, sys.ballots)
    ensures TracedSystem(SendVote(sys, r, s, hash, yes))
  {
    var sys' := SendVote(sys, r, s, hash, yes);
    forall t, q | IsOpen(sys'.ground, sys'.primary.queue, sys'.ballots, t) && q in SetAt(sys'.ballots.recorded, t)
      ensures Accounted(sys'.net, sys'.ballots, t, q)
    {
      assert IsOpen(sys.ground, sys.primary.queue, sys.ballots, t);
      assert Accounted(sys.net, sys.ballots, t, q);
      assert Voted(sys'.ballots, t, q) <==> Voted(sys.ballots, t, q) || (t == s && q == r);
      if r in sys.net.connected { SentStaysInFlight(sys.net, r, Vote(s, hash, yes), q, t); }
    }
    forall t | IsOpen(sys'.ground, sys'.primary.queue, sys'.ballots, t)
      ensures SetAt(sys'.ballots.responses, t) != SetAt(sys'.ballots.recorded, t)
    {
      assert IsOpen(sys.ground, sys.primary.queue, sys.ballots, t);
    }
  }

  lemma SameUp(sys: System, sys': System)
    requires TracedSystem(sys) && sys'.net.up == sys.net.up && sys'.ballots == sys.ballots
    requires sys'.ground == sys.ground && sys'.primary.queue == sys.primary.queue
    ensures TracedSystem(sys')
  {
    forall r, t | InFlight(sys.net, r, t) ensures InFlight(sys'.net, r, t) { SameFlight(sys.net, sys'.net, r, t); }
    FewerOpen(sys.ground, sys.primary.queue, sys.net, sys.ballots, sys'.ground, sys'.primary.queue, sys'.net,
        sys'.ballots);
  }

  lemma ReplicaReceivesTraced(p: Program, sys: System, r: Id, recovering: bool)
    requires TracedSystem(sys) && FairSystem(sys)
    ensures TracedSystem(DoReplicaReceives(p, sys, r, recovering))
  {
    if ReplicaCanReceive(sys, r) {
      var msg, sys1 := sys.net.sent[sys.net.read[r]], sys.(net := Advance(sys.net, r));
      if msg.Prepare? {
        var (n, vote) := OnPrepare(p, sys.replicas[r], msg.number, msg.hash, msg.command, recovering);
        var sys2 := sys1.(replicas := sys1.replicas[r := n]);
        SameUp(sys, sys2);
        if vote.Some? { SendVoteTraced(sys2, r, msg.number, msg.hash, vote.value); }
      } else {
        SameUp(sys, DoReplicaReceives(p, sys, r, recovering));
      }
    }
  }

  lemma ForwardTraced(sys: System, r: Id, hash: string, fd: nat, command: string)
    requires TracedSystem(sys)
    ensures TracedSystem(DoWriteAtReplica(sys, r, hash, fd, command))
  {
    if ReplicaCanWrite(sys, r, hash) {
      var sys' := DoWriteAtReplica(sys, r, hash, fd, command);
      forall q, t | InFlight(sys.net, q, t) ensures InFlight(sys'.net, q, t) {
        SentStaysInFlight(sys.net, r, Forward(hash, command), q, t);
      }
      FewerOpen(sys.ground, sys.primary.queue, sys.net, sys.ballots, sys'.ground, sys'.primary.queue, sys'.net,
          sys'.ballots);
    }
  }

  /** Who leaves takes all undecided numbers out of the count; who joins is recorded for none. */
  lemma LeaveTraced(sys: System, r: Id)
    requires TracedSystem(sys)
    ensures TracedSystem(DoLeave(sys, r))
  {
    if r in sys.net.connected {
      var sys' := DoLeave(sys, r);
      FewerOpen(sys.ground, sys.primary.queue, sys.net, sys.ballots, sys'.ground, sys'.primary.queue, sys'.net,
          sys'.ballots);
    }
  }

  lemma JoinTraced(sys: System, r: Id)
    requires TracedSystem(sys) && IntactOk(sys.ground, sys.net.connected, sys.ballots)
    ensures TracedSystem(DoJoin(sys, r))
  {
    if CanJoin(sys, r) {
      var sys' := DoJoin(sys, r);
      forall t, q | IsOpen(sys.ground, sys.primary.queue, sys.ballots, t) && q in SetAt(sys.ballots.recorded, t)
        && InFlight(sys.net, q, t)
        ensures InFlight(sys'.net, q, t)
      {
        assert q != r;
        SameFlight(sys.net, sys'.net, q, t);
      }
      FewerOpen(sys.ground, sys.primary.queue, sys.net, sys.ballots, sys'.ground, sys'.primary.queue, sys'.net,
          sys'.ballots);
    }
  }

  lemma StepTraced(p: Program, sys: System, a: Action)
    requires Safe(p, sys) && FairSystem(sys) && TracedSystem(sys)
    ensures TracedSystem(Step(p, sys, a))
  {
    match a
    case WriteAtPrimary(hash, fd, command) => WriteTraced(p, sys, hash, fd, command);
    case WriteAtReplica(r, hash, fd, command) => ForwardTraced(sys, r, hash, fd, command);
    case PrimaryReceives(r) => PrimaryReceivesTraced(p, sys, r);
    case ReplicaReceives(r, recovering) => ReplicaReceivesTraced(p, sys, r, recovering);
    case Timeout(s) => TimeoutTraced(p, sys, s);
    case Leave(r) => LeaveTraced(sys, r);
    case Join(r) => JoinTraced(sys, r);
    case SetCheckpointing(site, tablets) => DesksTraced(sys, site, DeskAt(sys, site).(checkpointing := tablets));
    case SendQueued(site) => DesksTraced(sys, site, SendDeferred(DeskAt(sys, site)));
  }

  lemma TimeoutTraced(p: Program, sys: System, s: nat)
    requires TracedSystem(sys)
    ensures TracedSystem(DoTimeout(p, sys, s))
  {
    if s in sys.primary.queue { DecisionTraced(p, sys, s, sys.primary.queue[s].hash, false); }
  }

  lemma WriteTraced(p: Program, sys: System, hash: string, fd: nat, command: string)
    requires Safe(p, sys) && FairSystem(sys) && TracedSystem(sys)
    ensures TracedSystem(DoWriteAtPrimary(p, sys, hash, fd, command))
  {
    if PrimaryCanWrite(sys, hash) {
      var sys1 := RememberAtPrimary(p, sys, hash, command, true, fd);
      StartTraced(sys1.(accepted := sys.accepted[hash := Accepted(AtPrimary, fd, command)]), hash, command);
    }
  }

  lemma DesksTraced(sys: System, site: Site, d: Desk)
    requires TracedSystem(sys)
    ensures TracedSystem(WithDesk(sys, site, d))
  {
    SameUp(sys, WithDesk(sys, site, d));
  }

  lemma {:induction false} RunTraced(p: Program, base: nat, table: Table, actions: seq<Action>)
    ensures TracedSystem(Run(p, base, table, actions))
  {
    if actions != [] {
      var before := actions[..|actions| - 1];
      RunTraced(p, base, table, before);
      RunSafe(p, base, table, before);
      RunFair(p, base, table, before);
      StepTraced(p, Run(p, base, table, before), actions[|actions| - 1]);
    }
  }

  /** In every run: a number that the primary has queued and not decided, and during which nobody left,
      waits for some replica recorded for it, which has not voted or whose vote is not yet read. */
  lemma {:induction false} UndecidedAwaitsAVote(p: Program, base: nat, table: Table, actions: seq<Action>, s: nat)
    returns (r: Id)
    requires var sys := Run(p, base, table, actions);
      s in sys.primary.queue && s !in sys.ground.decided && s in sys.ballots.intact
    ensures var sys := Run(p, base, table, actions);
      && r in SetAt(sys.ballots.recorded, s) && r in sys.net.connected && r !in SetAt(sys.ballots.responses, s)
      && (!Voted(sys.ballots, s, r) || InFlight(sys.net, r, s))
  {
    RunSafe(p, base, table, actions);
    RunFair(p, base, table, actions);
    RunTraced(p, base, table, actions);
    r := SomeoneAwaited(p, Run(p, base, table, actions), s);
  }

  lemma {:induction false} SomeoneAwaited(p: Program, sys: System, s: nat) returns (r: Id)
    requires Safe(p, sys) && FairSystem(sys) && TracedSystem(sys)
    requires s in sys.primary.queue && s !in sys.ground.decided && s in sys.ballots.intact
    ensures r in SetAt(sys.ballots.recorded, s) && r in sys.net.connected && r !in SetAt(sys.ballots.responses, s)
    ensures !Voted(sys.ballots, s, r) || InFlight(sys.net, r, s)
  {
    assert TransactionOk(sys.ground, s, sys.primary.queue[s]);
    assert IsOpen(sys.ground, sys.primary.queue, sys.ballots, s);
    var counted, recorded := SetAt(sys.ballots.responses, s), SetAt(sys.ballots.recorded, s);
    assert counted <= recorded;
    r :| r in recorded && r !in counted;
    assert Accounted(sys.net, sys.ballots, s, r);
  }

  /** And whoever left: the timeout aborts it, and tells the replicas. */
  lemma {:induction false} TimeoutAborts(p: Program, base: nat, table: Table, actions: seq<Action>, s: nat)
    requires var sys := Run(p, base, table, actions);
      sys.primary.health == Up && s in sys.primary.queue && s !in sys.ground.decided
    ensures var sys, sys' := Run(p, base, table, actions), Run(p, base, table, actions + [Timeout(s)]);
      && s in sys'.ground.decided && !sys'.ground.decided[s]
      && sys'.net.sent == sys.net.sent + [Decided(s, sys.primary.queue[s].hash, false)]
  {
    var sys := Run(p, base, table, actions);
    RunSafe(p, base, table, actions);
    RunMore(p, base, table, actions, Timeout(s));
    assert TransactionOk(sys.ground, s, sys.primary.queue[s]);
    if AlreadyProcessed(sys.primary, s) { ProcessedIsDecided(p, sys.ground, sys.primary, s); }
  }

  // ---------------------------------------------------------------- what is decided is processed

  /** Every started number waits in the queue until it is processed, a decided one as decided, and the
      next one to be processed is not decided. */
  predicate Drained(n: Node) {
    && Complete(n)
    && (forall s :: s in n.queue && s in n.queued ==> n.queue[s].status != Prepared)
    && (n.health == Up ==> !HeadDecided(n))
  }

  lemma DecideDrains(p: Program, n: Node, s: nat, hash: string, commit: bool)
    requires p.drainRepaired && Drained(n)
    ensures Drained(Decide(p, n, s, hash, commit))
  {
    if !AlreadyProcessed(n, s) {
      var n1 := Marked(n, s, hash, commit);
      DrainKeepsQueued(p, n1);
      if n.health == Up {
        DrainIsMaximalRun(p, n1);
        MaximalRunDrains(p, n1, Drain(p, n1));
      }
    }
  }

  lemma MaximalRunDrains(p: Program, n: Node, m: Node)
    requires Complete(n) && (forall s :: s in n.queue && s in n.queued ==> n.queue[s].status != Prepared)
    requires ProcessedMaximalRun(p, n, m) && m.queued == n.queued && m.tpcSeq == n.tpcSeq
    ensures Drained(m)
  {
    assert HeadDecided(m) ==> DecidedIn(n.queue, m.lastSeq + 1);
  }

  lemma StartDrains(g: Ground, p: Program, n: Node, hash: string, command: string)
    requires Drained(n) && PrimaryKnows(g, n) && NodeOk(p, g, n)
    ensures Drained(Start(n, hash, command))
  {
    forall s | s in n.queued ensures s in g.decided { MarkedWasDecided(p, g, n, s); }
  }

  lemma MarkedWasDecided(p: Program, g: Ground, n: Node, s: nat)
    requires NodeOk(p, g, n) && s in n.queued
    ensures s in g.decided
  {
    var line :| line in n.tpcLog && line.number == s && line.kind != Prepared;
    assert LineOk(g, line);
  }

  lemma LocksAndDesk(n: Node, m: Node)
    requires Drained(n) && m == n.(locks := m.locks, desk := m.desk)
    ensures Drained(m)
  {
  }

  lemma PrimaryDecideDrains(p: Program, sys: System, s: nat, hash: string, commit: bool)
    requires p.drainRepaired && Drained(sys.primary)
    ensures Drained(PrimaryDecide(p, sys, s, hash, commit).primary)
  {
    DecideDrains(p, sys.primary, s, hash, commit);
  }

  lemma OnVoteDrains(p: Program, sys: System, r: Id, s: nat, hash: string, yes: bool)
    requires p.drainRepaired && Drained(sys.primary)
    ensures Drained(OnVote(p, sys, r, s, hash, yes).primary)
  {
    if AlreadyProcessed(sys.primary, s) || s !in sys.primary.queue {
    } else if !yes {
      PrimaryDecideDrains(p, sys, s, hash, false);
    } else {
      var sys1 := sys.(ballots := Count(sys.ballots, s, r));
      if EnoughVotes(sys1.ballots, s, sys.net.connected) {
        var (n, granted) := Acquire(p, sys.primary, s, sys.primary.queue[s].command);
        LocksAndDesk(sys.primary, n);
        PrimaryDecideDrains(p, sys1.(primary := n), s, hash, granted);
      }
    }
  }

  lemma PrimaryReceivesDrains(p: Program, sys: System, r: Id)
    requires p.drainRepaired && Safe(p, sys) && Drained(sys.primary)
    ensures Drained(DoPrimaryReceives(p, sys, r).primary)
  {
    if PrimaryCanReceive(sys, r) {
      match UpFrom(sys.net, r)[0]
      case Vote(s, hash, yes) => OnVoteDrains(p, Pop(sys, r), r, s, hash, yes);
      case Forward(hash, command) =>
        var sys1 := RememberAtPrimary(p, Pop(sys, r), hash, command, false, 0);
        LocksAndDesk(sys.primary, sys1.primary);
        PrimaryFrameSafe(p, sys, sys1.primary);
        StartDrains(sys.ground, p, sys1.primary, hash, command);
    }
  }

  lemma StepDrains(p: Program, sys: System, a: Action)
    requires p.drainRepaired && Safe(p, sys) && Drained(sys.primary)
    ensures Drained(Step(p, sys, a).primary)
  {
    match a
    case WriteAtPrimary(hash, fd, command) =>
      if PrimaryCanWrite(sys, hash) {
        var sys1 := RememberAtPrimary(p, sys, hash, command, true, fd);
        LocksAndDesk(sys.primary, sys1.primary);
        PrimaryFrameSafe(p, sys, sys1.primary);
        StartDrains(sys.ground, p, sys1.primary, hash, command);
      }
    case PrimaryReceives(r) => PrimaryReceivesDrains(p, sys, r);
    case Timeout(s) =>
      if s in sys.primary.queue { PrimaryDecideDrains(p, sys, s, sys.primary.queue[s].hash, false); }
    case SetCheckpointing(site, tablets) => DesksDrain(sys, site, DeskAt(sys, site).(checkpointing := tablets));
    case SendQueued(site) => DesksDrain(sys, site, SendDeferred(DeskAt(sys, site)));
    case _ => OthersKeepPrimary(p, sys, a);
  }

  lemma DesksDrain(sys: System, site: Site, d: Desk)
    requires Drained(sys.primary)
    ensures Drained(WithDesk(sys, site, d).primary)
  {
    LocksAndDesk(sys.primary, sys.primary.(desk := d));
  }

  lemma OthersKeepPrimary(p: Program, sys: System, a: Action)
    requires a.WriteAtReplica? || a.ReplicaReceives? || a.Leave? || a.Join?
    ensures Step(p, sys, a).primary == sys.primary
  {
  }

  lemma {:induction false} RunDrains(p: Program, base: nat, table: Table, actions: seq<Action>)
    requires p.drainRepaired
    ensures Drained(Run(p, base, table, actions).primary)
  {
    if actions != [] {
      var before := actions[..|actions| - 1];
      RunDrains(p, base, table, before);
      RunSafe(p, base, table, before);
      StepDrains(p, Run(p, base, table, before), actions[|actions| - 1]);
    }
  }

  /** With the repaired draining, in every run in which the primary is up: it has processed exactly as far
      as everything is decided; once all that was started is decided, all of it is processed. */
  lemma {:induction false} DecidedIsProcessed(p: Program, base: nat, table: Table, actions: seq<Action>)
    requires p.drainRepaired && Run(p, base, table, actions).primary.health == Up
    ensures var sys := Run(p, base, table, actions);
      && (forall s :: base < s <= sys.primary.lastSeq ==> s in sys.ground.decided)
      && sys.primary.lastSeq + 1 !in sys.ground.decided
      && ((forall s :: s in sys.ground.started ==> s in sys.ground.decided) ==>
           sys.primary.lastSeq == sys.primary.tpcSeq)
  {
    RunSafe(p, base, table, actions);
    RunDrains(p, base, table, actions);
    ProcessedExactly(p, Run(p, base, table, actions));
  }

  lemma ProcessedExactly(p: Program, sys: System)
    requires Safe(p, sys) && Drained(sys.primary) && sys.primary.health == Up
    ensures forall s :: sys.ground.base < s <= sys.primary.lastSeq ==> s in sys.ground.decided
    ensures sys.primary.lastSeq + 1 !in sys.ground.decided
    ensures (forall s :: s in sys.ground.started ==> s in sys.ground.decided) ==>
              sys.primary.lastSeq == sys.primary.tpcSeq
  {
    var g, n := sys.ground, sys.primary;
    forall s: nat | g.base < s <= n.lastSeq ensures s in g.decided {
      assert EntryOk(g, s - g.base - 1, n.history[s - g.base - 1]);
    }
    if n.lastSeq + 1 in n.queue { assert TransactionOk(g, n.lastSeq + 1, n.queue[n.lastSeq + 1]); }
  }

  // ---------------------------------------------------------------- nothing accepted is forgotten

  predicate ForwardsOf(msgs: seq<Up>, i: int, hash: string) {
    0 <= i < |msgs| && msgs[i].Forward? && msgs[i].hash == hash
  }

  ghost predicate Travels(net: Net, r: Id, hash: string) { exists i :: ForwardsOf(UpFrom(net, r), i, hash) }

  /** The write was started, is on its way to the primary, or was lost with its replica's connection. */
  ghost predicate Carried(g: Ground, net: Net, hash: string, site: Site) {
    StartedWith(g, hash) || (site.AtReplica? && (Travels(net, site.id, hash) || site.id !in net.connected))
  }

  ghost predicate CarriedSystem(sys: System) {
    forall h :: h in sys.accepted ==>
      Carried(sys.ground, sys.net, h, sys.accepted[h].site) &&
      (sys.accepted[h].site.AtReplica? ==> sys.accepted[h].site.id in sys.replicas)
  }

  lemma StillCarried(g: Ground, net: Net, g': Ground, net': Net, hash: string, site: Site)
    requires Carried(g, net, hash, site) && Extends(g.started, g'.started)
    requires site.AtReplica? && site.id in net'.connected ==> site.id in net.connected
    requires site.AtReplica? && site.id in net'.connected && Travels(net, site.id, hash) ==>
               Travels(net', site.id, hash) || StartedWith(g', hash)
    ensures Carried(g', net', hash, site)
  {
    if StartedWith(g, hash) {
      var s :| s in g.started && g.started[s].hash == hash;
      assert s in g'.started && g'.started[s].hash == hash;
    }
  }

  lemma SameTravels(net: Net, net': Net, r: Id, hash: string)
    requires UpFrom(net', r) == UpFrom(net, r)
    ensures Travels(net', r, hash) <==> Travels(net, r, hash)
  {
    forall i | ForwardsOf(UpFrom(net, r), i, hash) ensures Travels(net', r, hash) {
      assert ForwardsOf(UpFrom(net', r), i, hash);
    }
    forall i | ForwardsOf(UpFrom(net', r), i, hash) ensures Travels(net, r, hash) {
      assert ForwardsOf(UpFrom(net, r), i, hash);
    }
  }

  /** Nothing is accepted and no message of the replicas is read or lost. */
  lemma KeepsCarrying(sys: System, sys': System)
    requires CarriedSystem(sys) && sys'.accepted == sys.accepted && sys.replicas.Keys <= sys'.replicas.Keys
    requires Extends(sys.ground.started, sys'.ground.started) && sys'.net.connected == sys.net.connected
    requires forall r, h :: Travels(sys.net, r, h) ==> Travels(sys'.net, r, h) || StartedWith(sys'.ground, h)
    ensures CarriedSystem(sys')
  {
    forall h | h in sys.accepted ensures Carried(sys'.ground, sys'.net, h, sys.accepted[h].site) {
      StillCarried(sys.ground, sys.net, sys'.ground, sys'.net, h, sys.accepted[h].site);
    }
  }

  lemma SameUpCarries(sys: System, sys': System)
    requires CarriedSystem(sys) && sys'.accepted == sys.accepted && sys.replicas.Keys <= sys'.replicas.Keys
    requires Extends(sys.ground.started, sys'.ground.started)
    requires sys'.net.connected == sys.net.connected && sys'.net.up == sys.net.up
    ensures CarriedSystem(sys')
  {
    forall r, h | Travels(sys.net, r, h) ensures Travels(sys'.net, r, h) { SameTravels(sys.net, sys'.net, r, h); }
    KeepsCarrying(sys, sys');
  }

  lemma SendCarries(sys: System, r: Id, msg: Up, sys': System)
    requires CarriedSystem(sys) && sys'.accepted == sys.accepted && sys.replicas.Keys <= sys'.replicas.Keys
    requires sys'.ground == sys.ground && sys'.net == Send(sys.net, r, msg)
    ensures CarriedSystem(sys')
  {
    forall q, h | Travels(sys.net, q, h) ensures Travels(sys'.net, q, h) {
      var i :| ForwardsOf(UpFrom(sys.net, q), i, h);
      assert ForwardsOf(UpFrom(sys'.net, q), i, h);
    }
    KeepsCarrying(sys, sys');
  }

  lemma PopTravels(net: Net, r: Id, q: Id, h: string)
    requires UpFrom(net, r) != [] && Travels(net, q, h)
    requires q == r ==> !ForwardsOf(UpFrom(net, r), 0, h)
    ensures Travels(net.(up := net.up[r := UpFrom(net, r)[1..]]), q, h)
  {
    var i :| ForwardsOf(UpFrom(net, q), i, h);
    var net' := net.(up := net.up[r := UpFrom(net, r)[1..]]);
    if q == r {
      assert ForwardsOf(UpFrom(net', q), i - 1, h);
    } else {
      assert ForwardsOf(UpFrom(net', q), i, h);
    }
  }

  /** What the primary reads is a vote, or a write that it starts. */
  lemma ReadCarries(sys: System, r: Id, sys': System)
    requires CarriedSystem(sys) && UpFrom(sys.net, r) != []
    requires sys'.accepted == sys.accepted && sys'.replicas == sys.replicas
    requires Extends(sys.ground.started, sys'.ground.started) && sys'.net.connected == sys.net.connected
    requires sys'.net.up == sys.net.up[r := UpFrom(sys.net, r)[1..]]
    requires UpFrom(sys.net, r)[0].Forward? ==> StartedWith(sys'.ground, UpFrom(sys.net, r)[0].hash)
    ensures CarriedSystem(sys')
  {
    var net1 := sys.net.(up := sys.net.up[r := UpFrom(sys.net, r)[1..]]);
    forall q, h | Travels(sys.net, q, h) ensures Travels(sys'.net, q, h) || StartedWith(sys'.ground, h) {
      if !(q == r && ForwardsOf(UpFrom(sys.net, r), 0, h)) {
        PopTravels(sys.net, r, q, h);
        SameTravels(net1, sys'.net, q, h);
      }
    }
    KeepsCarrying(sys, sys');
  }

  /** Nothing of what brings a write on its way differs. */
  predicate SameRoads(sys: System, sys': System) {
    && sys'.accepted == sys.accepted && sys'.replicas == sys.replicas && sys'.net.up == sys.net.up
    && sys'.net.connected == sys.net.connected && sys'.ground.started == sys.ground.started
  }

  lemma DecisionReads(p: Program, sys: System, s: nat, hash: string, commit: bool)
    ensures SameRoads(sys, PrimaryDecide(p, sys, s, hash, commit))
  {
  }

  lemma VoteReads(p: Program, sys: System, r: Id, s: nat, hash: string, yes: bool)
    ensures SameRoads(sys, OnVote(p, sys, r, s, hash, yes))
  {
    if AlreadyProcessed(sys.primary, s) || s !in sys.primary.queue {
    } else if !yes {
      DecisionReads(p, sys, s, hash, false);
    } else {
      var sys1 := sys.(ballots := Count(sys.ballots, s, r));
      if EnoughVotes(sys1.ballots, s, sys.net.connected) {
        var (n, granted) := Acquire(p, sys.primary, s, sys.primary.queue[s].command);
        DecisionReads(p, sys1.(primary := n), s, hash, granted);
      }
    }
  }

  lemma PrimaryReceivesCarries(p: Program, sys: System, r: Id)
    requires CarriedSystem(sys) && PrimaryKnows(sys.ground, sys.primary)
    ensures CarriedSystem(DoPrimaryReceives(p, sys, r))
  {
    if PrimaryCanReceive(sys, r) {
      var sys' := DoPrimaryReceives(p, sys, r);
      match UpFrom(sys.net, r)[0]
      case Vote(s, hash, yes) =>
        VoteReads(p, Pop(sys, r), r, s, hash, yes);
        ReadCarries(sys, r, sys');
      case Forward(hash, command) =>
        assert sys'.ground.started[sys.primary.tpcSeq + 1].hash == hash;
        ReadCarries(sys, r, sys');
    }
  }

  lemma AcceptCarries(sys: System, hash: string, a: Accepted, sys': System)
    requires CarriedSystem(sys) && sys'.accepted == sys.accepted[hash := a]
    requires CarriedSystem(sys'.(accepted := sys.accepted))
    requires Carried(sys'.ground, sys'.net, hash, a.site) && (a.site.AtReplica? ==> a.site.id in sys'.replicas)
    ensures CarriedSystem(sys')
  {
  }

  lemma WriteAtPrimaryCarries(p: Program, sys: System, hash: string, fd: nat, command: string)
    requires CarriedSystem(sys) && PrimaryKnows(sys.ground, sys.primary)
    ensures CarriedSystem(DoWriteAtPrimary(p, sys, hash, fd, command))
  {
    if PrimaryCanWrite(sys, hash) {
      var sys', a := DoWriteAtPrimary(p, sys, hash, fd, command), Accepted(AtPrimary, fd, command);
      assert sys'.ground.started[sys.primary.tpcSeq + 1].hash == hash;
      SameUpCarries(sys, sys'.(accepted := sys.accepted));
      AcceptCarries(sys, hash, a, sys');
    }
  }

  lemma WriteAtReplicaCarries(sys: System, r: Id, hash: string, fd: nat, command: string)
    requires CarriedSystem(sys)
    ensures CarriedSystem(DoWriteAtReplica(sys, r, hash, fd, command))
  {
    if ReplicaCanWrite(sys, r, hash) {
      var sys', a := DoWriteAtReplica(sys, r, hash, fd, command), Accepted(AtReplica(r), fd, command);
      SendCarries(sys, r, Forward(hash, command), sys'.(accepted := sys.accepted));
      assert ForwardsOf(UpFrom(sys'.net, r), |UpFrom(sys.net, r)|, hash);
      AcceptCarries(sys, hash, a, sys');
    }
  }

  lemma ReplicaReceivesCarries(p: Program, sys: System, r: Id, recovering: bool)
    requires CarriedSystem(sys)
    ensures CarriedSystem(DoReplicaReceives(p, sys, r, recovering))
  {
    if ReplicaCanReceive(sys, r) {
      var msg, sys1 := sys.net.sent[sys.net.read[r]], sys.(net := Advance(sys.net, r));
      if msg.Prepare? {
        var (n, vote) := OnPrepare(p, sys.replicas[r], msg.number, msg.hash, msg.command, recovering);
        var sys2 := sys1.(replicas := sys1.replicas[r := n]);
        SameUpCarries(sys, sys2);
        if vote.Some? {
          var sys' := SendVote(sys2, r, msg.number, msg.hash, vote.value);
          if r in sys.net.connected {
            SendCarries(sys2, r, Vote(msg.number, msg.hash, vote.value), sys');
          } else {
            SameUpCarries(sys2, sys');
          }
        }
      } else {
        SameUpCarries(sys, DoReplicaReceives(p, sys, r, recovering));
      }
    }
  }

  lemma MembersCarry(sys: System, sys': System, r: Id)
    requires CarriedSystem(sys) && sys'.accepted == sys.accepted && sys'.ground == sys.ground
    requires sys.replicas.Keys <= sys'.replicas.Keys
    requires sys'.net.connected - {r} == sys.net.connected - {r} && (r in sys'.net.connected ==> r !in sys.replicas)
    requires forall q :: q != r ==> UpFrom(sys'.net, q) == UpFrom(sys.net, q)
    ensures CarriedSystem(sys')
  {
    forall h | h in sys.accepted ensures Carried(sys'.ground, sys'.net, h, sys.accepted[h].site) {
      var site := sys.accepted[h].site;
      if site.AtReplica? && site.id != r {
        assert site.id in sys'.net.connected <==> site.id in sys'.net.connected - {r};
        assert site.id in sys.net.connected <==> site.id in sys.net.connected - {r};
        SameTravels(sys.net, sys'.net, site.id, h);
      }
      StillCarried(sys.ground, sys.net, sys'.ground, sys'.net, h, site);
    }
  }

  lemma StepCarries(p: Program, sys: System, a: Action)
    requires CarriedSystem(sys) && Safe(p, sys)
    ensures CarriedSystem(Step(p, sys, a))
  {
    match a
    case WriteAtPrimary(hash, fd, command) => WriteAtPrimaryCarries(p, sys, hash, fd, command);
    case WriteAtReplica(r, hash, fd, command) => WriteAtReplicaCarries(sys, r, hash, fd, command);
    case PrimaryReceives(r) => PrimaryReceivesCarries(p, sys, r);
    case ReplicaReceives(r, recovering) => ReplicaReceivesCarries(p, sys, r, recovering);
    case Timeout(s) => TimeoutCarries(p, sys, s);
    case Leave(r) => LeaveCarries(sys, r);
    case Join(r) => JoinCarries(sys, r);
    case SetCheckpointing(site, tablets) => DesksCarry(sys, site, DeskAt(sys, site).(checkpointing := tablets));
    case SendQueued(site) => DesksCarry(sys, site, SendDeferred(DeskAt(sys, site)));
  }

  lemma TimeoutCarries(p: Program, sys: System, s: nat)
    requires CarriedSystem(sys)
    ensures CarriedSystem(DoTimeout(p, sys, s))
  {
    if s in sys.primary.queue { DecisionReads(p, sys, s, sys.primary.queue[s].hash, false); }
    SameUpCarries(sys, DoTimeout(p, sys, s));
  }

  lemma DesksCarry(sys: System, site: Site, d: Desk)
    requires CarriedSystem(sys)
    ensures CarriedSystem(WithDesk(sys, site, d))
  {
    SameUpCarries(sys, WithDesk(sys, site, d));
  }

  lemma LeaveCarries(sys: System, r: Id)
    requires CarriedSystem(sys)
    ensures CarriedSystem(DoLeave(sys, r))
  {
    if r in sys.net.connected { MembersCarry(sys, DoLeave(sys, r), r); }
  }

  lemma JoinCarries(sys: System, r: Id)
    requires CarriedSystem(sys)
    ensures CarriedSystem(DoJoin(sys, r))
  {
    if CanJoin(sys, r) { MembersCarry(sys, DoJoin(sys, r), r); }
  }

  lemma {:induction false} RunCarries(p: Program, base: nat, table: Table, actions: seq<Action>)
    ensures CarriedSystem(Run(p, base, table, actions))
  {
    if actions != [] {
      var before := actions[..|actions| - 1];
      RunCarries(p, base, table, before);
      RunSafe(p, base, table, before);
      StepCarries(p, Run(p, base, table, before), actions[|actions| - 1]);
    }
  }

  /** In every run: a write that was accepted has been started by the primary, or is on its way there, or
      came in at a replica whose connection has closed. */
  lemma {:induction false} AcceptedIsCarried(
      p: Program, base: nat, table: Table, actions: seq<Action>, hash: string)
    requires hash in Run(p, base, table, actions).accepted
    ensures var sys := Run(p, base, table, actions);
      var site := sys.accepted[hash].site;
      || (exists s :: s in sys.ground.started && sys.ground.started[s].hash == hash)
      || (site.AtReplica? && (site.id !in sys.net.connected ||
           exists i :: 0 <= i < |UpFrom(sys.net, site.id)| && UpFrom(sys.net, site.id)[i].Forward? &&
                       UpFrom(sys.net, site.id)[i].hash == hash))
  {
    RunCarries(p, base, table, actions);
    var sys := Run(p, base, table, actions);
    var site := sys.accepted[hash].site;
    assert Carried(sys.ground, sys.net, hash, site);
    if site.AtReplica? && Travels(sys.net, site.id, hash) {
      var i :| ForwardsOf(UpFrom(sys.net, site.id), i, hash);
      assert UpFrom(sys.net, site.id)[i].Forward?;
    }
  }
}
