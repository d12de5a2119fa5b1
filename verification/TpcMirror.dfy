/** Replicas replay the primary. What a server does depends only on the messages it has read, so
    every replica is, at each point of the broadcast list, where a server would be that has read
    the list from its beginning; and the primary is where its own last broadcast leads. */
module TpcMirror {
  import opened Text
  import opened Commands
  import opened TpcNode
  import opened TpcNodeSafety
  import opened TpcSystem
  import opened TpcAgreement
  import opened TpcUnanimity

  /** What a server is after it has received a broadcast message; `recovering` shows in its vote
      only. */
  function Received(p: Program, n: Node, msg: Msg, recovering: bool): Node {
    match msg
    case Prepare(s, hash, command) => OnPrepare(p, n, s, hash, command, recovering).0
    case Decided(s, hash, commit) => Decide(p, n, s, hash, commit)
  }

  /** The server that has read the first i messages of an epoch. */
  function Mirror(p: Program, base: nat, table: Table, sent: seq<Msg>, i: nat): Node
    requires i <= |sent|
  {
    if i == 0 then Init(base, table).primary else Received(p, Mirror(p, base, table, sent, i - 1), sent[i - 1], false)
  }

  lemma {:induction false} MirrorPrefix(p: Program, base: nat, table: Table, sent: seq<Msg>, more: seq<Msg>, i: nat)
    requires i <= |sent|
    ensures Mirror(p, base, table, sent + more, i) == Mirror(p, base, table, sent, i)
  {
    if i > 0 {
      MirrorPrefix(p, base, table, sent, more, i - 1);
      assert (sent + more)[i - 1] == sent[i - 1];
    }
  }

  // ---------------------------------------------------------------- the same progress

  /** Equal in all that later handlers depend on, row locks and clients aside. */
  ghost predicate Same(a: Node, b: Node) {
    && a.health == b.health && a.lastSeq == b.lastSeq && a.tpcSeq == b.tpcSeq && a.table == b.table
    && a.history == b.history
    && (forall s :: s > a.lastSeq ==> (s in a.queue <==> s in b.queue))
    && (forall s :: s > a.lastSeq && s in a.queue ==> a.queue[s] == b.queue[s])
    && (forall s :: s > a.lastSeq ==> (s in a.queued <==> s in b.queued))
  }

  lemma SameTurn(p: Program, a: Node, b: Node)
    requires Same(a, b) && HeadDecided(a)
    ensures HeadDecided(b) && Same(ProcessNext(p, a), ProcessNext(p, b))
  {
    TurnIs(p, a);
    TurnIs(p, b);
  }

  /** A turn without the parts that Same does not speak of. */
  lemma TurnIs(p: Program, n: Node)
    requires HeadDecided(n)
    ensures TurnEffect(p, n, ProcessNext(p, n)) && TurnLogs(p, n, ProcessNext(p, n))
  {
    ProcessNextEffect(p, n);
    ProcessNextLogs(p, n);
  }

  lemma {:induction false} SameDrain(p: Program, a: Node, b: Node)
    requires Same(a, b)
    ensures Same(Drain(p, a), Drain(p, b))
    decreases |Above(a)|
  {
    if a.health == Up && HeadDecided(a) {
      SameTurn(p, a, b);
      ProcessNextShrinks(p, a);
      ProcessNextShrinks(p, b);
      SameDrain(p, ProcessNext(p, a), ProcessNext(p, b));
    }
  }

  lemma SameMarked(a: Node, b: Node, s: nat, hash: string, commit: bool)
    requires Same(a, b)
    ensures AlreadyProcessed(a, s) <==> AlreadyProcessed(b, s)
    ensures !AlreadyProcessed(a, s) ==> Same(Marked(a, s, hash, commit), Marked(b, s, hash, commit))
  {
  }

  lemma SameDecide(p: Program, a: Node, b: Node, s: nat, hash: string, commit: bool)
    requires Same(a, b)
    ensures Same(Decide(p, a, s, hash, commit), Decide(p, b, s, hash, commit))
  {
    SameMarked(a, b, s, hash, commit);
    if !AlreadyProcessed(a, s) {
      SameDrain(p, Marked(a, s, hash, commit), Marked(b, s, hash, commit));
    }
  }

  lemma SamePrepare(p: Program, a: Node, b: Node, s: nat, hash: string, command: string, ra: bool, rb: bool)
    requires Same(a, b)
    ensures Same(OnPrepare(p, a, s, hash, command, ra).0, OnPrepare(p, b, s, hash, command, rb).0)
  {
  }

  lemma SameStart(p: Program, a: Node, b: Node, hash: string, command: string)
    requires Same(a, b) && a.lastSeq <= a.tpcSeq && a.tpcSeq + 1 !in b.queue
    ensures Same(Start(a, hash, command), OnPrepare(p, b, a.tpcSeq + 1, hash, command, false).0)
  {
  }

  lemma SameFrame(a: Node, b: Node, n: Node)
    requires Same(a, b) && n == a.(locks := n.locks, desk := n.desk)
    ensures Same(n, b)
  {
  }

  // ---------------------------------------------------------------- the mirror is a server

  lemma {:induction false} MirrorOk(p: Program, base: nat, table: Table, g: Ground, sent: seq<Msg>, i: nat)
    requires g.base == base && g.baseTable == table && i <= |sent|
    requires forall k :: 0 <= k < |sent| ==> MsgOk(g, sent[k])
    ensures NodeOk(p, g, Mirror(p, base, table, sent, i))
  {
    if i > 0 {
      MirrorOk(p, base, table, g, sent, i - 1);
      ReceivedOk(p, g, Mirror(p, base, table, sent, i - 1), sent[i - 1]);
    }
  }

  lemma ReceivedOk(p: Program, g: Ground, n: Node, msg: Msg)
    requires NodeOk(p, g, n) && MsgOk(g, msg)
    ensures NodeOk(p, g, Received(p, n, msg, false))
  {
    match msg
    case Prepare(s, hash, command) => OnPrepareOk(p, g, n, s, hash, command, false);
    case Decided(s, hash, commit) => DecideOk(p, g, n, s, hash, commit);
  }

  // ---------------------------------------------------------------- the system

  ghost predicate ReplicasMirror(p: Program, sys: System) {
    forall r :: r in sys.replicas ==>
      r in sys.net.read && sys.net.read[r] <= |sys.net.sent| &&
      Same(sys.replicas[r], Mirror(p, sys.ground.base, sys.ground.baseTable, sys.net.sent, sys.net.read[r]))
  }

  ghost predicate PrimaryMirrors(p: Program, sys: System) {
    Same(sys.primary, Mirror(p, sys.ground.base, sys.ground.baseTable, sys.net.sent, |sys.net.sent|))
  }

  /** PREPAREs are broadcast in the order of their numbers, none is left out. */
  ghost predicate Numbered(p: Program, g: Ground, sent: seq<Msg>) {
    forall i :: 0 <= i < |sent| && sent[i].Prepare? ==>
        sent[i].number == Mirror(p, g.base, g.baseTable, sent, i).tpcSeq + 1
  }

  ghost predicate Mirrored(p: Program, sys: System) {
    ReplicasMirror(p, sys) && PrimaryMirrors(p, sys) && Numbered(p, sys.ground, sys.net.sent)
  }

  /** Broadcasting changes nothing for what has been read before. */
  lemma {:induction false} BroadcastMirrored(p: Program, sys: System, sys': System, msg: Msg)
    requires Mirrored(p, sys) && (msg.Prepare? ==> msg.number == sys.primary.tpcSeq + 1)
    requires sys'.net == Broadcast(sys.net, msg) && sys'.replicas == sys.replicas
    requires sys'.ground.base == sys.ground.base && sys'.ground.baseTable == sys.ground.baseTable
    requires Same(sys'.primary,
               Received(p, Mirror(p, sys.ground.base, sys.ground.baseTable, sys.net.sent, |sys.net.sent|), msg, false))
    ensures Mirrored(p, sys')
  {
    var base, table, sent := sys.ground.base, sys.ground.baseTable, sys.net.sent;
    forall i: nat | i <= |sent| ensures Mirror(p, base, table, sent + [msg], i) == Mirror(p, base, table, sent, i) {
      MirrorPrefix(p, base, table, sent, [msg], i);
    }
    assert Mirror(p, base, table, sent + [msg], |sent| + 1) ==
           Received(p, Mirror(p, base, table, sent, |sent|), msg, false);
  }

  lemma StartTpcMirrored(p: Program, sys: System, hash: string, command: string)
    requires Safe(p, sys) && Mirrored(p, sys)
    ensures Mirrored(p, StartTpc(sys, hash, command))
  {
    MirrorOk(p, sys.ground.base, sys.ground.baseTable, sys.ground, sys.net.sent, |sys.net.sent|);
    StartAlike(p, sys.ground, sys.primary,
        Mirror(p, sys.ground.base, sys.ground.baseTable, sys.net.sent, |sys.net.sent|), hash, command);
    BroadcastMirrored(p, sys, StartTpc(sys, hash, command), Prepare(sys.primary.tpcSeq + 1, hash, command));
  }

  lemma StartAlike(p: Program, g: Ground, n: Node, m: Node, hash: string, command: string)
    requires NodeOk(p, g, n) && NodeOk(p, g, m) && Same(n, m)
    ensures Same(Start(n, hash, command), Received(p, m, Prepare(n.tpcSeq + 1, hash, command), false))
  {
    assert n.tpcSeq + 1 !in m.queue;
    SameStart(p, n, m, hash, command);
  }

  lemma PrimaryDecideMirrored(p: Program, sys: System, s: nat, hash: string, commit: bool)
    requires Mirrored(p, sys)
    ensures Mirrored(p, PrimaryDecide(p, sys, s, hash, commit))
  {
    if !AlreadyProcessed(sys.primary, s) {
      SameDecide(p, sys.primary, Mirror(p, sys.ground.base, sys.ground.baseTable, sys.net.sent, |sys.net.sent|), s,
          hash, commit);
      BroadcastMirrored(p, sys, PrimaryDecide(p, sys, s, hash, commit), Decided(s, hash, commit));
    }
  }

  /** Row locks, clients and votes are not what mirroring is about. */
  lemma PrimaryFrameMirrored(p: Program, sys: System, sys': System)
    requires Mirrored(p, sys) && sys'.ground == sys.ground && sys'.replicas == sys.replicas
    requires sys'.net.sent == sys.net.sent && sys'.net.read == sys.net.read
    requires sys'.primary == sys.primary.(locks := sys'.primary.locks, desk := sys'.primary.desk)
    ensures Mirrored(p, sys')
  {
  }

  lemma ReplicaFrameMirrored(p: Program, sys: System, r: Id, n: Node, net: Net)
    requires Mirrored(p, sys) && r in sys.replicas && net.sent == sys.net.sent && net.read == sys.net.read
    requires n == sys.replicas[r].(locks := n.locks, desk := n.desk)
    ensures Mirrored(p, sys.(replicas := sys.replicas[r := n], net := net))
  {
    SameFrame(sys.replicas[r], Mirror(p, sys.ground.base, sys.ground.baseTable, sys.net.sent, sys.net.read[r]), n);
  }

  lemma OnVoteMirrored(p: Program, sys: System, r: Id, s: nat, hash: string, yes: bool)
    requires Mirrored(p, sys)
    ensures Mirrored(p, OnVote(p, sys, r, s, hash, yes))
  {
    if AlreadyProcessed(sys.primary, s) || s !in sys.primary.queue {
    } else if !yes {
      PrimaryDecideMirrored(p, sys, s, hash, false);
    } else {
      var sys1 := sys.(ballots := Count(sys.ballots, s, r));
      PrimaryFrameMirrored(p, sys, sys1);
      if EnoughVotes(sys1.ballots, s, sys.net.connected) {
        var (n, granted) := Acquire(p, sys.primary, s, sys.primary.queue[s].command);
        PrimaryFrameMirrored(p, sys1, sys1.(primary := n));
        PrimaryDecideMirrored(p, sys1.(primary := n), s, hash, granted);
      }
    }
  }

  lemma PrimaryReceivesMirrored(p: Program, sys: System, r: Id)
    requires Safe(p, sys) && Mirrored(p, sys)
    ensures Mirrored(p, DoPrimaryReceives(p, sys, r))
  {
    if PrimaryCanReceive(sys, r) {
      var sys1 := Pop(sys, r);
      PrimaryFrameMirrored(p, sys, sys1);
      match UpFrom(sys.net, r)[0]
      case Vote(s, hash, yes) => OnVoteMirrored(p, sys1, r, s, hash, yes);
      case Forward(hash, command) =>
        assert UpsOk(sys.ground, UpFrom(sys.net, r)[1..]);
        var sys2 := RememberAtPrimary(p, sys1, hash, command, false, 0);
        PrimaryFrameSafe(p, sys1, sys2.primary);
        PrimaryFrameMirrored(p, sys1, sys2);
        StartTpcMirrored(p, sys2, hash, command);
    }
  }

  /** One replica reads the next message. */
  lemma {:induction false} ReadingMirrored(p: Program, sys: System, r: Id, n: Node, net: Net)
    requires Mirrored(p, sys) && r in sys.replicas && HasUnread(sys.net, r)
    requires net.sent == sys.net.sent && net.read == sys.net.read[r := sys.net.read[r] + 1]
    requires var i := sys.net.read[r];
      i < |sys.net.sent| &&
      Same(n, Received(p, Mirror(p, sys.ground.base, sys.ground.baseTable, sys.net.sent, i), sys.net.sent[i], false))
    ensures Mirrored(p, sys.(replicas := sys.replicas[r := n], net := net))
  {
  }

  lemma ReplicaReceivesMirrored(p: Program, sys: System, r: Id, recovering: bool)
    requires Mirrored(p, sys)
    ensures Mirrored(p, DoReplicaReceives(p, sys, r, recovering))
  {
    if ReplicaCanReceive(sys, r) {
      var i := sys.net.read[r];
      ReceivedIs(p, sys, r, recovering);
      ReceivedAlike(p, sys.replicas[r], Mirror(p, sys.ground.base, sys.ground.baseTable, sys.net.sent, i),
          sys.net.sent[i], recovering);
      var net := DoReplicaReceives(p, sys, r, recovering).net;
      ReadingMirrored(p, sys, r, Received(p, sys.replicas[r], sys.net.sent[i], recovering), net);
      PrimaryFrameMirrored(p,
          sys.(replicas := sys.replicas[r := Received(p, sys.replicas[r], sys.net.sent[i], recovering)], net := net),
                           DoReplicaReceives(p, sys, r, recovering));
    }
  }

  lemma ReceivedIs(p: Program, sys: System, r: Id, recovering: bool)
    requires ReplicaCanReceive(sys, r)
    ensures var sys' := DoReplicaReceives(p, sys, r, recovering);
      && sys'.replicas == sys.replicas[r := Received(p, sys.replicas[r], sys.net.sent[sys.net.read[r]], recovering)]
      && sys'.net.sent == sys.net.sent && sys'.net.read == sys.net.read[r := sys.net.read[r] + 1]
      && sys'.primary == sys.primary && sys'.ground == sys.ground
  {
    var msg := sys.net.sent[sys.net.read[r]];
    var sys1 := sys.(net := Advance(sys.net, r));
    if msg.Prepare? { PreparedIs(p, sys1, r, msg, recovering); }
  }

  lemma PreparedIs(p: Program, sys: System, r: Id, msg: Msg, recovering: bool)
    requires msg.Prepare? && r in sys.replicas
    ensures var sys' := AfterPrepare(p, sys, r, msg, recovering);
      && sys'.replicas == sys.replicas[r := Received(p, sys.replicas[r], msg, recovering)]
      && sys'.net.sent == sys.net.sent && sys'.net.read == sys.net.read && sys'.primary == sys.primary
      && sys'.ground == sys.ground
  {
    var (n, vote) := OnPrepare(p, sys.replicas[r], msg.number, msg.hash, msg.command, recovering);
    if vote.Some? { SendsVote(sys.(replicas := sys.replicas[r := n]), r, msg.number, msg.hash, vote.value); }
  }

  lemma SendsVote(sys: System, r: Id, s: nat, hash: string, yes: bool)
    ensures var sys' := SendVote(sys, r, s, hash, yes);
      && sys' == sys.(ballots := sys'.ballots, net := sys'.net) && sys'.net.sent == sys.net.sent
         && sys'.net.read == sys.net.read
  {
  }

  lemma ReceivedAlike(p: Program, a: Node, m: Node, msg: Msg, recovering: bool)
    requires Same(a, m)
    ensures Same(Received(p, a, msg, recovering), Received(p, m, msg, false))
  {
    match msg
    case Prepare(s, hash, command) => SamePrepare(p, a, m, s, hash, command, recovering, false);
    case Decided(s, hash, commit) => SameDecide(p, a, m, s, hash, commit);
  }

  /** A replica that joins a quiescent primary is where the primary is. */
  lemma SnapshotIsSame(p: Program, g: Ground, n: Node, m: Node)
    requires NodeOk(p, g, n) && Quiescent(n) && PrimaryKnows(g, n) && Same(n, m)
    ensures Same(Snapshot(n), m)
  {
    forall s | s in n.queued ensures s <= n.lastSeq {
      var line :| line in n.tpcLog && line.number == s && line.kind != Prepared;
      assert LineOk(g, line);
    }
  }

  lemma {:induction false} NewcomerMirrored(p: Program, sys: System, r: Id, n: Node)
    requires Mirrored(p, sys) && r !in sys.replicas
    requires Same(n, Mirror(p, sys.ground.base, sys.ground.baseTable, sys.net.sent, |sys.net.sent|))
    ensures Mirrored(p, sys.(replicas := sys.replicas[r := n], net := Open(sys.net, r)))
  {
  }

  lemma JoinMirrored(p: Program, sys: System, r: Id)
    requires Safe(p, sys) && Mirrored(p, sys)
    ensures Mirrored(p, DoJoin(sys, r))
  {
    if CanJoin(sys, r) {
      SnapshotIsSame(p, sys.ground, sys.primary,
          Mirror(p, sys.ground.base, sys.ground.baseTable, sys.net.sent, |sys.net.sent|));
      NewcomerMirrored(p, sys, r, Snapshot(sys.primary));
    }
  }

  lemma PrimaryStepMirrored(p: Program, sys: System, a: Action)
    requires Safe(p, sys) && Mirrored(p, sys) && (a.WriteAtPrimary? || a.PrimaryReceives? || a.Timeout?)
    ensures Mirrored(p, Step(p, sys, a))
  {
    match a
    case WriteAtPrimary(hash, fd, command) =>
      if PrimaryCanWrite(sys, hash) {
        var a := Accepted(AtPrimary, fd, command);
        var sys1 := RememberAtPrimary(p, sys, hash, command, true, fd).(accepted := sys.accepted[hash := a]);
        PrimaryFrameSafe(p, sys, sys1.primary);
        PrimaryFrameMirrored(p, sys, sys1);
        StartTpcMirrored(p, sys1, hash, command);
      }
    case PrimaryReceives(r) => PrimaryReceivesMirrored(p, sys, r);
    case Timeout(s) => if s in sys.primary.queue { PrimaryDecideMirrored(p, sys, s, sys.primary.queue[s].hash, false); }
  }

  lemma DeskMirrored(p: Program, sys: System, site: Site, d: Desk)
    requires Mirrored(p, sys)
    ensures Mirrored(p, WithDesk(sys, site, d))
  {
    match site
    case AtPrimary => PrimaryFrameMirrored(p, sys, WithDesk(sys, site, d));
    case AtReplica(r) =>
      if r in sys.replicas { ReplicaFrameMirrored(p, sys, r, sys.replicas[r].(desk := d), sys.net); }
  }

  lemma StepMirrored(p: Program, sys: System, a: Action)
    requires Safe(p, sys) && Mirrored(p, sys)
    ensures Mirrored(p, Step(p, sys, a))
  {
    if a.WriteAtPrimary? || a.PrimaryReceives? || a.Timeout? {
      PrimaryStepMirrored(p, sys, a);
    } else if a.WriteAtReplica? {
      if ReplicaCanWrite(sys, a.id, a.hash) {
        ReplicaFrameMirrored(p, sys, a.id, RememberAtReplica(sys, a.id, a.hash, a.fd).replicas[a.id],
            Step(p, sys, a).net);
      }
    } else if a.ReplicaReceives? {
      ReplicaReceivesMirrored(p, sys, a.id, a.recovering);
    } else if a.Leave? {
    } else if a.Join? {
      JoinMirrored(p, sys, a.id);
    } else if a.SetCheckpointing? {
      DeskMirrored(p, sys, a.site, DeskAt(sys, a.site).(checkpointing := a.tablets));
    } else {
      DeskMirrored(p, sys, a.site, SendDeferred(DeskAt(sys, a.site)));
    }
  }

  lemma {:induction false} RunMirrored(p: Program, base: nat, table: Table, actions: seq<Action>)
    ensures Mirrored(p, Run(p, base, table, actions))
  {
    if actions != [] {
      var before := actions[..|actions| - 1];
      RunMirrored(p, base, table, before);
      RunSafe(p, base, table, before);
      StepMirrored(p, Run(p, base, table, before), actions[|actions| - 1]);
    }
  }

  // ---------------------------------------------------------------- main result

  /** Convergence, in every run and for either way of draining and unlocking: a replica that has
      read everything the primary broadcast has processed exactly what the primary has, has the
      same table and tablet log, waits for the same transactions with the same status, and is hung
      or terminated if and only if the primary is. */
  lemma {:induction false} CaughtUp(p: Program, base: nat, table: Table, actions: seq<Action>, r: Id)
    requires var sys := Run(p, base, table, actions);
             r in sys.replicas && r in sys.net.read && sys.net.read[r] == |sys.net.sent|
    ensures var sys := Run(p, base, table, actions);
      var a, b := sys.replicas[r], sys.primary;
      && a.health == b.health && a.lastSeq == b.lastSeq && a.tpcSeq == b.tpcSeq
      && a.history == b.history && a.table == b.table && a.wal == b.wal
      && (forall s :: s > b.lastSeq ==> (s in a.queue <==> s in b.queue))
      && (forall s :: s > b.lastSeq && s in b.queue ==> a.queue[s] == b.queue[s])
  {
    RunMirrored(p, base, table, actions);
    RunSafe(p, base, table, actions);
    var sys := Run(p, base, table, actions);
    assert NodeOk(p, sys.ground, sys.replicas[r]) && NodeOk(p, sys.ground, sys.primary);
  }
}
