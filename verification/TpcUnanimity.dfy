/** What a broadcast COMMIT says about the votes. */
module TpcUnanimity {
  import opened Collections
  import opened Text
  import opened Commands
  import opened TpcNode
  import opened TpcNodeSafety
  import opened TpcSystem
  import opened TpcAgreement

  predicate Voted(b: Ballots, s: nat, r: Id) {
    (s, r) in b.yes || (s, r) in b.no
  }

  predicate IsPrepare(net: Net, i: int) {
    0 <= i < |net.sent| && net.sent[i].Prepare?
  }

  /** A number is prepared once, a vote is on a message that was read, nobody votes both ways. */
  ghost predicate VotesOk(g: Ground, net: Net, b: Ballots) {
    && (forall i, j :: IsPrepare(net, i) && IsPrepare(net, j) && net.sent[i].number == net.sent[j].number ==> i == j)
    && (forall i :: IsPrepare(net, i) ==> net.sent[i].number in g.started)
    && (forall s, r :: Voted(b, s, r) ==> s in g.started && r in net.read)
    && (forall r, i :: r in net.read && IsPrepare(net, i) && net.read[r] <= i ==> !Voted(b, net.sent[i].number, r))
    && b.yes !! b.no
  }

  /** Whoever is sent a PREPARE is recorded for its number. */
  ghost predicate RecordedOk(g: Ground, net: Net, b: Ballots) {
    && (forall s :: s in g.started <==> s in b.recorded)
    && (forall r :: r in net.read ==> net.read[r] <= |net.sent|)
    && (forall r :: r in net.cut ==> net.cut[r] <= |net.sent|)
    && (forall r, i :: r in net.read && IsPrepare(net, i) && net.read[r] <= i < Limit(net, r) ==>
         r in SetAt(b.recorded, net.sent[i].number))
  }

  predicate BallotOk(b: Ballots, r: Id, msg: Up) {
    msg.Vote? ==>
        if msg.yes then (msg.number, r) in b.yes && r in SetAt(b.recorded, msg.number) else (msg.number, r) in b.no
  }

  /** Counted and travelling votes were cast, by recorded replicas. */
  ghost predicate CountsOk(g: Ground, net: Net, b: Ballots) {
    && (forall s, r :: s in b.responses && r in b.responses[s] ==> (s, r) in b.yes && r in SetAt(b.recorded, s))
    && (forall s :: s in b.responses ==> s in g.started)
    && (forall r, i :: r in net.up && 0 <= i < |net.up[r]| ==> BallotOk(b, r, net.up[r][i]))
  }

  /** While nobody recorded for an undecided number has left, all of them are connected. */
  ghost predicate IntactOk(g: Ground, connected: set<Id>, b: Ballots) {
    && (forall s :: s in b.intact ==> s in g.started)
    && (forall s :: s in b.intact && s !in g.decided ==> SetAt(b.recorded, s) <= connected)
    && (forall s, r :: s in b.intact && s in g.decided && g.decided[s] && r in SetAt(b.recorded, s) ==> (s, r) in b.yes)
  }

  ghost predicate Fair(g: Ground, net: Net, b: Ballots) {
    VotesOk(g, net, b) && RecordedOk(g, net, b) && CountsOk(g, net, b) && IntactOk(g, net.connected, b)
  }

  ghost predicate FairParts(g: Ground, net: Net, b: Ballots, ids: set<Id>, everLeft: bool) {
    Fair(g, net, b) && ids == net.read.Keys && net.connected <= net.read.Keys &&
    (everLeft || forall s :: s in g.started ==> s in b.intact)
  }

  ghost predicate FairSystem(sys: System) {
    FairParts(sys.ground, sys.net, sys.ballots, sys.replicas.Keys, sys.everLeft)
  }

  // ---------------------------------------------------------------- the size comparison

  /** While every recorded replica is connected, the size comparison says exactly that all of
      them answered YES. */
  lemma EnoughVotesIff(b: Ballots, s: nat, connected: set<Id>)
    requires SetAt(b.responses, s) <= SetAt(b.recorded, s)
    requires SetAt(b.recorded, s) <= connected
    ensures EnoughVotes(b, s, connected) <==> SetAt(b.responses, s) == SetAt(b.recorded, s)
  {
    SubsetSize(SetAt(b.responses, s), SetAt(b.recorded, s));
    SubsetSize(SetAt(b.recorded, s), connected);
  }

  // ---------------------------------------------------------------- preservation

  lemma StartFair(g: Ground, net: Net, b: Ballots, s: nat, hash: string, command: string)
    requires Fair(g, net, b) && s !in g.started && s !in g.decided
    ensures Fair(g.(started := g.started[s := Started(hash, command)]),
                 Broadcast(net, Prepare(s, hash, command)), Record(b, s, net.connected))
  {
    var g', net', b' := g.(started := g.started[s := Started(hash, command)]),
                        Broadcast(net, Prepare(s, hash, command)), Record(b, s, net.connected);
    assert forall i :: IsPrepare(net', i) <==> IsPrepare(net, i) || i == |net.sent|;
    assert forall i :: 0 <= i < |net.sent| ==> net'.sent[i] == net.sent[i];
    assert forall t, r :: Voted(b', t, r) <==> Voted(b, t, r);
    assert VotesOk(g', net', b');
    StartRecorded(g, net, b, s, hash, command);
    assert CountsOk(g', net', b') by {
      forall r, i | r in net'.up && 0 <= i < |net'.up[r]| ensures BallotOk(b', r, net'.up[r][i]) {
        assert BallotOk(b, r, net.up[r][i]);
      }
    }
    assert IntactOk(g', net'.connected, b');
  }

  lemma StartRecorded(g: Ground, net: Net, b: Ballots, s: nat, hash: string, command: string)
    requires RecordedOk(g, net, b) && VotesOk(g, net, b) && s !in g.started
    ensures RecordedOk(g.(started := g.started[s := Started(hash, command)]),
                       Broadcast(net, Prepare(s, hash, command)), Record(b, s, net.connected))
  {
  }

  lemma BroadcastDecisionFair(g: Ground, net: Net, b: Ballots, s: nat, hash: string, commit: bool)
    requires Fair(g, net, b) && s in g.started && s !in g.decided
    requires commit && s in b.intact ==> SetAt(b.responses, s) == SetAt(b.recorded, s)
    ensures Fair(g.(decided := g.decided[s := commit]), Broadcast(net, Decided(s, hash, commit)),
                 b.(responses := b.responses - {s}))
  {
    var g', net', b' := g.(decided := g.decided[s := commit]), Broadcast(net, Decided(s, hash, commit)),
                        b.(responses := b.responses - {s});
    assert forall i :: IsPrepare(net', i) <==> IsPrepare(net, i);
    assert forall i :: 0 <= i < |net.sent| ==> net'.sent[i] == net.sent[i];
    assert forall t, r :: Voted(b', t, r) <==> Voted(b, t, r);
    assert VotesOk(g', net', b');
    forall r, i | r in net'.read && IsPrepare(net', i) && net'.read[r] <= i < Limit(net', r)
      ensures r in SetAt(b'.recorded, net'.sent[i].number)
    {
      assert IsPrepare(net, i) && i < Limit(net, r);
    }
    assert CountsOk(g', net', b') by {
      forall r, i | r in net'.up && 0 <= i < |net'.up[r]| ensures BallotOk(b', r, net'.up[r][i]) {
        assert BallotOk(b, r, net.up[r][i]);
      }
    }
    forall r | r in SetAt(b.recorded, s) && commit && s in b.intact ensures (s, r) in b.yes {
      assert s in b.responses && r in b.responses[s];
    }
  }

  lemma CountFair(g: Ground, net: Net, b: Ballots, s: nat, r: Id)
    requires Fair(g, net, b) && (s, r) in b.yes && r in SetAt(b.recorded, s) && s in g.started
    ensures Fair(g, net, Count(b, s, r))
  {
    var b' := Count(b, s, r);
    assert forall t, q :: Voted(b', t, q) <==> Voted(b, t, q);
    forall q, i | q in net.up && 0 <= i < |net.up[q]| ensures BallotOk(b', q, net.up[q][i]) {
      assert BallotOk(b, q, net.up[q][i]);
    }
  }

  /** Other messages from the replicas, and taking one, change no ballot. */
  lemma UpFair(g: Ground, net: Net, b: Ballots, r: Id, msgs: seq<Up>)
    requires Fair(g, net, b) && r in net.read
    requires forall i :: 0 <= i < |msgs| ==> BallotOk(b, r, msgs[i])
    ensures Fair(g, net.(up := net.up[r := msgs]), b)
  {
  }

  lemma AdvanceFair(g: Ground, net: Net, b: Ballots, r: Id)
    requires Fair(g, net, b) && HasUnread(net, r)
    ensures Fair(g, Advance(net, r), b)
  {
    var net' := Advance(net, r);
    assert forall i :: IsPrepare(net', i) <==> IsPrepare(net, i);
    assert forall q :: Limit(net', q) == Limit(net, q);
  }

  /** A replica reads PREPARE number s and votes. */
  lemma CastFair(g: Ground, net: Net, b: Ballots, r: Id, yes: bool)
    requires Fair(g, net, b) && HasUnread(net, r) && IsPrepare(net, net.read[r])
    ensures Fair(g, Advance(net, r), Cast(b, net.sent[net.read[r]].number, r, yes))
  {
    var k := net.read[r];
    var s := net.sent[k].number;
    var net', b' := Advance(net, r), Cast(b, s, r, yes);
    assert !Voted(b, s, r);
    assert forall i :: IsPrepare(net', i) <==> IsPrepare(net, i);
    assert forall q :: Limit(net', q) == Limit(net, q);
    assert forall t, q :: Voted(b', t, q) <==> Voted(b, t, q) || (t == s && q == r);
    assert VotesOk(g, net', b') by {
      forall q, i | q in net'.read && IsPrepare(net', i) && net'.read[q] <= i
        ensures !Voted(b', net'.sent[i].number, q)
      {
        assert IsPrepare(net, i);
        assert !Voted(b, net.sent[i].number, q);
      }
    }
    assert CountsOk(g, net', b') by {
      forall q, i | q in net'.up && 0 <= i < |net'.up[q]| ensures BallotOk(b', q, net'.up[q][i]) {
        assert BallotOk(b, q, net.up[q][i]);
      }
    }
  }

  lemma CloseFair(g: Ground, net: Net, b: Ballots, r: Id)
    requires Fair(g, net, b) && r in net.connected
    ensures Fair(g, Close(net, r), b.(intact := b.intact * g.decided.Keys))
  {
    var net', b' := Close(net, r), b.(intact := b.intact * g.decided.Keys);
    assert forall i :: IsPrepare(net', i) <==> IsPrepare(net, i);
    assert forall q :: Limit(net', q) == Limit(net, q);
    assert forall t, q :: Voted(b', t, q) <==> Voted(b, t, q);
    forall q, i | q in net'.up && 0 <= i < |net'.up[q]| ensures BallotOk(b', q, net'.up[q][i]) {
      assert BallotOk(b, q, net.up[q][i]);
    }
  }

  lemma OpenFair(g: Ground, net: Net, b: Ballots, r: Id)
    requires Fair(g, net, b) && r !in net.read
    ensures Fair(g, Open(net, r), b)
  {
    var net' := Open(net, r);
    assert forall i :: IsPrepare(net', i) <==> IsPrepare(net, i);
    assert forall q :: q != r ==> Limit(net', q) == Limit(net, q);
  }

  lemma PrimaryDecideFair(p: Program, sys: System, s: nat, hash: string, commit: bool)
    requires PrimaryKnows(sys.ground, sys.primary) && FairSystem(sys) && s in sys.ground.started
    requires commit && s in sys.ballots.intact && s !in sys.ground.decided ==>
      SetAt(sys.ballots.responses, s) == SetAt(sys.ballots.recorded, s)
    ensures FairSystem(PrimaryDecide(p, sys, s, hash, commit))
    ensures PrimaryDecide(p, sys, s, hash, commit).everLeft == sys.everLeft
  {
    if !AlreadyProcessed(sys.primary, s) {
      assert s !in sys.ground.decided;
      BroadcastDecisionFair(sys.ground, sys.net, sys.ballots, s, hash, commit);
    }
  }

  /** The vote that completes the ballot of an undecided, intact number completes it for
      every recorded replica. */
  lemma ConcludeFair(p: Program, sys: System, s: nat, hash: string, command: string)
    requires PrimaryKnows(sys.ground, sys.primary) && FairSystem(sys) && s in sys.ground.started
    requires EnoughVotes(sys.ballots, s, sys.net.connected)
    ensures FairSystem(Conclude(p, sys, s, hash, command))
    ensures Conclude(p, sys, s, hash, command).everLeft == sys.everLeft
  {
    var (n, granted) := Acquire(p, sys.primary, s, command);
    if s in sys.ballots.intact && s !in sys.ground.decided {
      EnoughVotesIff(sys.ballots, s, sys.net.connected);
    }
    PrimaryDecideFair(p, sys.(primary := n), s, hash, granted);
  }

  lemma OnVoteFair(p: Program, sys: System, r: Id, s: nat, hash: string, yes: bool)
    requires PrimaryKnows(sys.ground, sys.primary) && FairSystem(sys) && s in sys.ground.started
    requires BallotOk(sys.ballots, r, Vote(s, hash, yes))
    ensures FairSystem(OnVote(p, sys, r, s, hash, yes)) && OnVote(p, sys, r, s, hash, yes).everLeft == sys.everLeft
  {
    if AlreadyProcessed(sys.primary, s) || s !in sys.primary.queue {
    } else if !yes {
      PrimaryDecideFair(p, sys, s, hash, false);
    } else {
      CountFair(sys.ground, sys.net, sys.ballots, s, r);
      var sys1 := sys.(ballots := Count(sys.ballots, s, r));
      if EnoughVotes(sys1.ballots, s, sys.net.connected) {
        ConcludeFair(p, sys1, s, hash, sys.primary.queue[s].command);
      }
    }
  }

  lemma StartTpcIs(sys: System, hash: string, command: string)
    ensures var t, s := StartTpc(sys, hash, command), sys.primary.tpcSeq + 1;
      && t.ground == sys.ground.(started := sys.ground.started[s := Started(hash, command)])
      && t.net == Broadcast(sys.net, Prepare(s, hash, command))
      && t.ballots == Record(sys.ballots, s, sys.net.connected)
      && t.replicas == sys.replicas && t.everLeft == sys.everLeft
  {
  }

  lemma StartTpcFair(sys: System, hash: string, command: string)
    requires PrimaryKnows(sys.ground, sys.primary) && FairSystem(sys)
    ensures FairSystem(StartTpc(sys, hash, command)) && StartTpc(sys, hash, command).everLeft == sys.everLeft
  {
    var s := sys.primary.tpcSeq + 1;
    NextIsNew(sys.ground, sys.primary);
    StartParts(sys.ground, sys.net, sys.ballots, sys.replicas.Keys, sys.everLeft, s, hash, command);
    StartTpcIs(sys, hash, command);
  }

  lemma StartParts(g: Ground, net: Net, b: Ballots, ids: set<Id>, everLeft: bool, s: nat, hash: string, command: string)
    requires FairParts(g, net, b, ids, everLeft) && s !in g.started && s !in g.decided
    ensures FairParts(g.(started := g.started[s := Started(hash, command)]),
                      Broadcast(net, Prepare(s, hash, command)), Record(b, s, net.connected), ids, everLeft)
  {
    StartFair(g, net, b, s, hash, command);
    StartedIntact(g, b, s, hash, command, net.connected);
    assert Broadcast(net, Prepare(s, hash, command)).read == net.read
           && Broadcast(net, Prepare(s, hash, command)).connected == net.connected;
  }

  lemma NextIsNew(g: Ground, n: Node)
    requires PrimaryKnows(g, n)
    ensures n.tpcSeq + 1 !in g.started && n.tpcSeq + 1 !in g.decided
  {
  }

  lemma StartedIntact(g: Ground, b: Ballots, s: nat, hash: string, command: string, connected: set<Id>)
    ensures (forall t :: t in g.started ==> t in b.intact) ==>
            forall t :: t in g.started[s := Started(hash, command)] ==> t in Record(b, s, connected).intact
  {
  }

  lemma PopKeeps(p: Program, sys: System, r: Id)
    requires Safe(p, sys) && FairSystem(sys) && r in sys.net.read && UpFrom(sys.net, r) != []
    ensures Safe(p, Pop(sys, r)) && FairSystem(Pop(sys, r))
    ensures UpOk(sys.ground, UpFrom(sys.net, r)[0]) && BallotOk(sys.ballots, r, UpFrom(sys.net, r)[0])
  {
    assert UpsOk(sys.ground, UpFrom(sys.net, r)) && UpOk(sys.ground, UpFrom(sys.net, r)[0]);
    assert UpsOk(sys.ground, UpFrom(sys.net, r)[1..]);
    assert BallotOk(sys.ballots, r, sys.net.up[r][0]);
    UpFair(sys.ground, sys.net, sys.ballots, r, UpFrom(sys.net, r)[1..]);
  }

  lemma PrimaryReceivesFair(p: Program, sys: System, r: Id)
    requires Safe(p, sys) && FairSystem(sys)
    ensures FairSystem(DoPrimaryReceives(p, sys, r)) && DoPrimaryReceives(p, sys, r).everLeft == sys.everLeft
  {
    if PrimaryCanReceive(sys, r) {
      PopKeeps(p, sys, r);
      var sys1 := Pop(sys, r);
      match UpFrom(sys.net, r)[0]
      case Vote(s, hash, yes) => OnVoteFair(p, sys1, r, s, hash, yes);
      case Forward(hash, command) =>
        StartTpcFair(RememberAtPrimary(p, sys1, hash, command, false, 0), hash, command);
    }
  }

  lemma SendFair(g: Ground, net: Net, b: Ballots, r: Id, msg: Up)
    requires Fair(g, net, b) && r in net.read && BallotOk(b, r, msg)
    ensures Fair(g, Send(net, r, msg), b)
  {
    forall i | 0 <= i < |UpFrom(net, r)| ensures BallotOk(b, r, UpFrom(net, r)[i]) {
      assert BallotOk(b, r, net.up[r][i]);
    }
    UpFair(g, net, b, r, UpFrom(net, r) + [msg]);
  }

  /** A replica casts and, while connected, sends the vote on the PREPARE it reads. */
  lemma SendVoteFair(sys: System, r: Id, yes: bool)
    requires FairSystem(sys) && HasUnread(sys.net, r) && IsPrepare(sys.net, sys.net.read[r])
    ensures var msg := sys.net.sent[sys.net.read[r]];
      FairSystem(SendVote(sys.(net := Advance(sys.net, r)), r, msg.number, msg.hash, yes))
  {
    var k := sys.net.read[r];
    var msg := sys.net.sent[k];
    var net1, b1 := Advance(sys.net, r), Cast(sys.ballots, msg.number, r, yes);
    CastFair(sys.ground, sys.net, sys.ballots, r, yes);
    if r in sys.net.connected {
      assert r in SetAt(sys.ballots.recorded, msg.number);
      SendFair(sys.ground, net1, b1, r, Vote(msg.number, msg.hash, yes));
    }
  }

  lemma NodesFair(sys: System, r: Id, n: Node)
    requires FairSystem(sys) && r in sys.replicas
    ensures FairSystem(sys.(replicas := sys.replicas[r := n]))
  {
  }

  lemma ReplicaPreparesFair(p: Program, sys: System, r: Id, recovering: bool)
    requires FairSystem(sys) && ReplicaCanReceive(sys, r) && IsPrepare(sys.net, sys.net.read[r])
    ensures var sys' := AfterPrepare(p, sys.(net := Advance(sys.net, r)), r, sys.net.sent[sys.net.read[r]], recovering);
      FairSystem(sys') && sys'.everLeft == sys.everLeft
  {
    var msg := sys.net.sent[sys.net.read[r]];
    var sys1 := sys.(net := Advance(sys.net, r));
    AdvanceFair(sys.ground, sys.net, sys.ballots, r);
    var (n, vote) := OnPrepare(p, sys.replicas[r], msg.number, msg.hash, msg.command, recovering);
    if vote.None? {
      NodesFair(sys1, r, n);
    } else {
      SendVoteFair(sys, r, vote.value);
      NodesFair(SendVote(sys1, r, msg.number, msg.hash, vote.value), r, n);
    }
  }

  lemma ReplicaReceivesFair(p: Program, sys: System, r: Id, recovering: bool)
    requires FairSystem(sys)
    ensures FairSystem(DoReplicaReceives(p, sys, r, recovering))
    ensures DoReplicaReceives(p, sys, r, recovering).everLeft == sys.everLeft
  {
    if ReplicaCanReceive(sys, r) {
      var msg := sys.net.sent[sys.net.read[r]];
      if msg.Prepare? {
        ReplicaPreparesFair(p, sys, r, recovering);
      } else {
        AdvanceFair(sys.ground, sys.net, sys.ballots, r);
        NodesFair(sys.(net := Advance(sys.net, r)), r, Decide(p, sys.replicas[r], msg.number, msg.hash, msg.commit));
      }
    }
  }

  lemma TimeoutFair(p: Program, sys: System, s: nat)
    requires Safe(p, sys) && FairSystem(sys)
    ensures FairSystem(DoTimeout(p, sys, s)) && DoTimeout(p, sys, s).everLeft == sys.everLeft
  {
    if s in sys.primary.queue {
      assert TransactionOk(sys.ground, s, sys.primary.queue[s]);
      PrimaryDecideFair(p, sys, s, sys.primary.queue[s].hash, false);
    }
  }

  lemma WriteAtPrimaryFair(p: Program, sys: System, hash: string, fd: nat, command: string)
    requires Safe(p, sys) && FairSystem(sys)
    ensures FairSystem(DoWriteAtPrimary(p, sys, hash, fd, command))
    ensures DoWriteAtPrimary(p, sys, hash, fd, command).everLeft == sys.everLeft
  {
    var sys1 := RememberAtPrimary(p, sys, hash, command, true, fd);
    StartTpcFair(sys1.(accepted := sys.accepted[hash := Accepted(AtPrimary, fd, command)]), hash, command);
  }

  lemma WriteAtReplicaFair(sys: System, r: Id, hash: string, fd: nat, command: string)
    requires FairSystem(sys)
    ensures FairSystem(DoWriteAtReplica(sys, r, hash, fd, command))
    ensures DoWriteAtReplica(sys, r, hash, fd, command).everLeft == sys.everLeft
  {
    if ReplicaCanWrite(sys, r, hash) {
      SendFair(sys.ground, sys.net, sys.ballots, r, Forward(hash, command));
    }
  }

  lemma MembersFair(sys: System, r: Id)
    requires FairSystem(sys)
    ensures FairSystem(DoLeave(sys, r)) && FairSystem(DoJoin(sys, r)) && DoJoin(sys, r).everLeft == sys.everLeft
  {
    if r in sys.net.connected { CloseFair(sys.ground, sys.net, sys.ballots, r); }
    if CanJoin(sys, r) { OpenFair(sys.ground, sys.net, sys.ballots, r); }
  }

  lemma DeskFair(sys: System, site: Site, d: Desk)
    requires FairSystem(sys)
    ensures FairSystem(WithDesk(sys, site, d)) && WithDesk(sys, site, d).everLeft == sys.everLeft
  {
  }

  lemma PrimaryStepFair(p: Program, sys: System, a: Action)
    requires Safe(p, sys) && FairSystem(sys) && (a.WriteAtPrimary? || a.PrimaryReceives? || a.Timeout?)
    ensures FairSystem(Step(p, sys, a)) && Step(p, sys, a).everLeft == sys.everLeft
  {
    match a
    case WriteAtPrimary(hash, fd, command) => WriteAtPrimaryFair(p, sys, hash, fd, command);
    case PrimaryReceives(r) => PrimaryReceivesFair(p, sys, r);
    case Timeout(s) => TimeoutFair(p, sys, s);
  }

  lemma StepFair(p: Program, sys: System, a: Action)
    requires Safe(p, sys) && FairSystem(sys)
    ensures FairSystem(Step(p, sys, a)) && (!a.Leave? ==> Step(p, sys, a).everLeft == sys.everLeft)
  {
    if a.WriteAtPrimary? || a.PrimaryReceives? || a.Timeout? {
      PrimaryStepFair(p, sys, a);
    } else if a.WriteAtReplica? {
      WriteAtReplicaFair(sys, a.id, a.hash, a.fd, a.command);
    } else if a.ReplicaReceives? {
      ReplicaReceivesFair(p, sys, a.id, a.recovering);
    } else if a.Leave? || a.Join? {
      MembersFair(sys, a.id);
    } else if a.SetCheckpointing? {
      DeskFair(sys, a.site, DeskAt(sys, a.site).(checkpointing := a.tablets));
    } else {
      DeskFair(sys, a.site, SendDeferred(DeskAt(sys, a.site)));
    }
  }

  lemma {:induction false} RunFair(p: Program, base: nat, table: Table, actions: seq<Action>)
    ensures FairSystem(Run(p, base, table, actions))
    ensures (forall i :: 0 <= i < |actions| ==> !actions[i].Leave?) ==> !Run(p, base, table, actions).everLeft
  {
    if actions != [] {
      var before := actions[..|actions| - 1];
      RunFair(p, base, table, before);
      RunSafe(p, base, table, before);
      StepFair(p, Run(p, base, table, before), actions[|actions| - 1]);
    }
  }

  // ---------------------------------------------------------------- main results

  /** A broadcast COMMIT whose number no replica left during: every replica recorded when it
      started voted YES, none voted NO. */
  lemma {:induction false} CommitIsUnanimous(
      p: Program, base: nat, table: Table, actions: seq<Action>, hash: string, s: nat, r: Id)
    requires var sys := Run(p, base, table, actions);
      Decided(s, hash, true) in sys.net.sent && s in sys.ballots.intact && r in SetAt(sys.ballots.recorded, s)
    ensures (s, r) in Run(p, base, table, actions).ballots.yes
    ensures (s, r) !in Run(p, base, table, actions).ballots.no
  {
    var sys := Run(p, base, table, actions);
    RunSafe(p, base, table, actions);
    RunFair(p, base, table, actions);
    assert MsgOk(sys.ground, Decided(s, hash, true));
  }

  /** In a run in which no replica leaves, that is every COMMIT. */
  lemma {:induction false} CommitIsUnanimousWithoutLeaves(
      p: Program, base: nat, table: Table, actions: seq<Action>, hash: string, s: nat, r: Id)
    requires forall i :: 0 <= i < |actions| ==> !actions[i].Leave?
    requires var sys := Run(p, base, table, actions);
      Decided(s, hash, true) in sys.net.sent && r in SetAt(sys.ballots.recorded, s)
    ensures (s, r) in Run(p, base, table, actions).ballots.yes
    ensures (s, r) !in Run(p, base, table, actions).ballots.no
  {
    var sys := Run(p, base, table, actions);
    RunSafe(p, base, table, actions);
    RunFair(p, base, table, actions);
    assert MsgOk(sys.ground, Decided(s, hash, true));
    CommitIsUnanimous(p, base, table, actions, hash, s, r);
  }

  // ---------------------------------------------------------------- without the assumption

  /** The run of the counterexample below, up to the moment before the last vote arrives. */
  function TwoReplicasOneLeaves(hash: string, fd: nat, command: string, r1: Id, r2: Id): seq<Action> {
    [Join(r1), Join(r2)] + [WriteAtPrimary(hash, fd, command)] +
    [ReplicaReceives(r1, false)] + [ReplicaReceives(r2, true)] + [Leave(r2)]
  }

  /** Both replicas are connected and number s has just been broadcast. */
  ghost predicate JustStarted(sys: System, s: nat, hash: string, command: string, r1: Id, r2: Id) {
    && sys.primary.health == Up && sys.primary.lastSeq < s && sys.primary.locks == map[] && sys.primary.queued == {}
    && s in sys.primary.queue && sys.primary.queue[s] == Transaction(Prepared, command, hash)
    && sys.net.connected == {r1, r2} && sys.net.sent == [Prepare(s, hash, command)]
    && sys.net.read == map[r1 := 0, r2 := 0] && sys.net.up == map[r1 := [], r2 := []]
    && SetAt(sys.ballots.recorded, s) == {r1, r2} && SetAt(sys.ballots.responses, s) == {}
    && r1 in sys.replicas && r2 in sys.replicas
    && Fresh(sys.replicas[r1], s) && Fresh(sys.replicas[r2], s)
  }

  predicate Fresh(n: Node, s: nat) {
    n.health == Up && n.lastSeq < s && n.queue == map[] && n.locks == map[]
  }

  ghost predicate BothJoined(sys: System, base: nat, r1: Id, r2: Id) {
    && sys.primary.health == Up && sys.primary.lastSeq == sys.primary.tpcSeq == base
    && sys.primary.locks == map[] && sys.primary.queued == {}
    && sys.ballots == NO_BALLOTS && sys.accepted == map[]
    && sys.net == Net({r1, r2}, [], map[r1 := 0, r2 := 0], map[], map[r1 := [], r2 := []])
    && r1 in sys.replicas && r2 in sys.replicas
    && Fresh(sys.replicas[r1], base + 1) && Fresh(sys.replicas[r2], base + 1)
  }

  lemma {:induction false} Joining(p: Program, base: nat, table: Table, r1: Id, r2: Id)
    requires r1 != r2
    ensures BothJoined(Run(p, base, table, [Join(r1), Join(r2)]), base, r1, r2)
  {
    RunMore(p, base, table, [], Join(r1));
    RunMore(p, base, table, [Join(r1)], Join(r2));
    assert [] + [Join(r1)] == [Join(r1)] && [Join(r1)] + [Join(r2)] == [Join(r1), Join(r2)];
  }

  lemma Writing(p: Program, sys: System, base: nat, hash: string, fd: nat, command: string, r1: Id, r2: Id)
    requires r1 != r2 && BothJoined(sys, base, r1, r2)
    ensures JustStarted(Step(p, sys, WriteAtPrimary(hash, fd, command)), base + 1, hash, command, r1, r2)
  {
  }

  lemma {:induction false} Starting(
      p: Program, base: nat, table: Table, hash: string, fd: nat, command: string, r1: Id, r2: Id)
    requires r1 != r2
    ensures JustStarted(Run(p, base, table, [Join(r1), Join(r2)] + [WriteAtPrimary(hash, fd, command)]), base + 1,
              hash, command, r1, r2)
  {
    Joining(p, base, table, r1, r2);
    RunMore(p, base, table, [Join(r1), Join(r2)], WriteAtPrimary(hash, fd, command));
    Writing(p, Run(p, base, table, [Join(r1), Join(r2)]), base, hash, fd, command, r1, r2);
  }

  lemma FirstVote(p: Program, sys: System, s: nat, hash: string, command: string, r1: Id, r2: Id)
    requires r1 != r2 && p.lockKey(command).Some? && JustStarted(sys, s, hash, command, r1, r2)
    ensures Step(p, sys, ReplicaReceives(r1, false)) ==
      sys.(replicas := sys.replicas[r1 := OnPrepare(p, sys.replicas[r1], s, hash, command, false).0],
           net := Send(Advance(sys.net, r1), r1, Vote(s, hash, true)), ballots := Cast(sys.ballots, s, r1, true))
  {
  }

  lemma SecondVote(p: Program, sys: System, s: nat, hash: string, command: string, r2: Id)
    requires ReplicaCanReceive(sys, r2) && r2 in sys.net.connected && Fresh(sys.replicas[r2], s)
    requires sys.net.sent[sys.net.read[r2]] == Prepare(s, hash, command)
    ensures var sys' := Step(p, Step(p, sys, ReplicaReceives(r2, true)), Leave(r2));
      && (s, r2) in sys'.ballots.no && sys'.primary == sys.primary && sys'.net.sent == sys.net.sent
      && sys'.net.connected == sys.net.connected - {r2}
      && (forall r :: r != r2 ==> UpFrom(sys'.net, r) == UpFrom(sys.net, r))
      && sys'.ballots.recorded == sys.ballots.recorded && sys'.ballots.responses == sys.ballots.responses
  {
  }

  /** Only r1's YES is on its way, r2 has voted NO and left. */
  ghost predicate WaitingForOne(p: Program, sys: System, s: nat, hash: string, r1: Id, r2: Id) {
    && sys.primary.health == Up && sys.primary.lastSeq < s && sys.primary.locks == map[] && sys.primary.queued == {}
    && s in sys.primary.queue && sys.primary.queue[s].status == Prepared
    && p.lockKey(sys.primary.queue[s].command).Some?
    && sys.net.connected == {r1} && UpFrom(sys.net, r1) == [Vote(s, hash, true)]
    && SetAt(sys.ballots.responses, s) == {}
    && r2 in SetAt(sys.ballots.recorded, s) && (s, r2) in sys.ballots.no
  }

  lemma {:induction false} Voting(
      p: Program, base: nat, table: Table, actions: seq<Action>, s: nat, hash: string, command: string, r1: Id, r2: Id)
    requires r1 != r2 && p.lockKey(command).Some? && JustStarted(Run(p, base, table, actions), s, hash, command, r1, r2)
    ensures WaitingForOne(p, Run(p, base, table,
              actions + [ReplicaReceives(r1, false)] + [ReplicaReceives(r2, true)] + [Leave(r2)]), s, hash, r1, r2)
  {
    var a4 := actions + [ReplicaReceives(r1, false)];
    RunMore(p, base, table, actions, ReplicaReceives(r1, false));
    RunMore(p, base, table, a4, ReplicaReceives(r2, true));
    RunMore(p, base, table, a4 + [ReplicaReceives(r2, true)], Leave(r2));
    FirstVote(p, Run(p, base, table, actions), s, hash, command, r1, r2);
    SecondVote(p, Run(p, base, table, a4), s, hash, command, r2);
    assert {r1, r2} - {r2} == {r1};
  }

  lemma {:induction false} LastVote(
      p: Program, base: nat, table: Table, actions: seq<Action>, s: nat, hash: string, r1: Id, r2: Id)
    requires WaitingForOne(p, Run(p, base, table, actions), s, hash, r1, r2)
    ensures var sys' := Run(p, base, table, actions + [PrimaryReceives(r1)]);
      Decided(s, hash, true) in sys'.net.sent &&
      r2 in SetAt(sys'.ballots.recorded, s) && (s, r2) in sys'.ballots.no
  {
    RunMore(p, base, table, actions, PrimaryReceives(r1));
    var sys1 := Pop(Run(p, base, table, actions), r1);
    assert SetAt(Count(sys1.ballots, s, r1).responses, s) == {r1};
  }

  /** A replica that leaves lowers the number of votes the comparison asks for: r2 is recorded
      and votes NO, its connection closes, and r1's YES alone broadcasts COMMIT. */
  lemma {:induction false} CommitAgainstANo(
      p: Program, base: nat, table: Table, hash: string, fd: nat, command: string, r1: Id, r2: Id)
    requires r1 != r2 && p.lockKey(command).Some?
    ensures var sys := Run(p, base, table, TwoReplicasOneLeaves(hash, fd, command, r1, r2) + [PrimaryReceives(r1)]);
      Decided(base + 1, hash, true) in sys.net.sent &&
      r2 in SetAt(sys.ballots.recorded, base + 1) && (base + 1, r2) in sys.ballots.no
  {
    var a3 := [Join(r1), Join(r2)] + [WriteAtPrimary(hash, fd, command)];
    Starting(p, base, table, hash, fd, command, r1, r2);
    Voting(p, base, table, a3, base + 1, hash, command, r1, r2);
    LastVote(p, base, table, TwoReplicasOneLeaves(hash, fd, command, r1, r2), base + 1, hash, r1, r2);
  }
}
