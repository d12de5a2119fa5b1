/** Safety over whole runs of an epoch: one decision per number, and servers that agree. */
module TpcAgreement {
  import opened Text
  import opened Commands
  import opened TpcNode
  import opened TpcNodeSafety
  import opened TpcSystem

  predicate MsgOk(g: Ground, msg: Msg) {
    msg.number in g.started && msg.hash == g.started[msg.number].hash &&
    match msg
    case Prepare(s, _, command) => g.started[s].command == command
    case Decided(s, _, commit) => s in g.decided && g.decided[s] == commit
  }

  predicate UpOk(g: Ground, msg: Up) {
    msg.Vote? ==> msg.number in g.started && g.started[msg.number].hash == msg.hash
  }

  predicate UpsOk(g: Ground, msgs: seq<Up>) {
    forall i :: 0 <= i < |msgs| ==> UpOk(g, msgs[i])
  }

  predicate NetOk(g: Ground, net: Net) {
    && (forall i :: 0 <= i < |net.sent| ==> MsgOk(g, net.sent[i]))
    && (forall r :: r in net.up ==> UpsOk(g, net.up[r]))
  }

  /** What the primary has decided it remembers, and what it started it has numbered. */
  predicate PrimaryKnows(g: Ground, n: Node) {
    && (forall s :: s in g.decided ==> s in n.queued && s in g.started)
    && (forall s :: s in g.started ==> g.base < s <= n.tpcSeq)
  }

  predicate ReplicasOk(p: Program, g: Ground, replicas: map<Id, Node>) {
    forall r :: r in replicas ==> NodeOk(p, g, replicas[r])
  }

  predicate Safe(p: Program, sys: System) {
    && PrimaryKnows(sys.ground, sys.primary)
    && NodeOk(p, sys.ground, sys.primary)
    && ReplicasOk(p, sys.ground, sys.replicas)
    && NetOk(sys.ground, sys.net)
  }

  // ---------------------------------------------------------------- preservation

  predicate GrowsInto(g: Ground, g': Ground) {
    g'.base == g.base && g'.baseTable == g.baseTable && Extends(g.started, g'.started) && Extends(g.decided, g'.decided)
  }

  lemma GroundGrows(p: Program, sys: System, g: Ground)
    requires Safe(p, sys) && GrowsInto(sys.ground, g)
    ensures NodeOk(p, g, sys.primary) && ReplicasOk(p, g, sys.replicas) && NetOk(g, sys.net)
  {
    NodeOkExtends(p, sys.ground, g, sys.primary);
    forall r | r in sys.replicas ensures NodeOk(p, g, sys.replicas[r]) {
      NodeOkExtends(p, sys.ground, g, sys.replicas[r]);
    }
    forall i | 0 <= i < |sys.net.sent| ensures MsgOk(g, sys.net.sent[i]) {
      assert MsgOk(sys.ground, sys.net.sent[i]);
    }
    forall r | r in sys.net.up ensures UpsOk(g, sys.net.up[r]) {
      assert UpsOk(sys.ground, sys.net.up[r]);
      forall i | 0 <= i < |sys.net.up[r]| ensures UpOk(g, sys.net.up[r][i]) {
        assert UpOk(sys.ground, sys.net.up[r][i]);
      }
    }
  }

  lemma BroadcastOk(g: Ground, net: Net, msg: Msg)
    requires NetOk(g, net) && MsgOk(g, msg)
    ensures NetOk(g, Broadcast(net, msg))
  {
  }

  lemma SendOk(g: Ground, net: Net, r: Id, msg: Up)
    requires NetOk(g, net) && UpOk(g, msg)
    ensures NetOk(g, Send(net, r, msg))
  {
  }

  lemma StartTpcSafe(p: Program, sys: System, hash: string, command: string)
    requires Safe(p, sys)
    ensures Safe(p, StartTpc(sys, hash, command))
    ensures GrowsInto(sys.ground, StartTpc(sys, hash, command).ground)
  {
    var s := sys.primary.tpcSeq + 1;
    assert s !in sys.ground.started;
    var g := StartTpc(sys, hash, command).ground;
    GroundGrows(p, sys, g);
    StartOk(p, g, sys.primary, hash, command);
    BroadcastOk(g, sys.net, Prepare(s, hash, command));
  }

  lemma PrimaryDecideSafe(p: Program, sys: System, s: nat, hash: string, commit: bool)
    requires Safe(p, sys)
    requires s in sys.ground.started && sys.ground.started[s].hash == hash
    ensures Safe(p, PrimaryDecide(p, sys, s, hash, commit))
    ensures GrowsInto(sys.ground, PrimaryDecide(p, sys, s, hash, commit).ground)
  {
    if !AlreadyProcessed(sys.primary, s) {
      assert s !in sys.ground.decided;
      var g := sys.ground.(decided := sys.ground.decided[s := commit]);
      GroundGrows(p, sys, g);
      DecideOk(p, g, sys.primary, s, hash, commit);
      DecideMarks(p, sys.primary, s, hash, commit);
      BroadcastOk(g, sys.net, Decided(s, hash, commit));
    }
  }

  lemma PrimaryFrameSafe(p: Program, sys: System, n: Node)
    requires Safe(p, sys) && n == sys.primary.(locks := n.locks, desk := n.desk)
    ensures Safe(p, sys.(primary := n))
  {
  }

  lemma OnVoteSafe(p: Program, sys: System, r: Id, s: nat, hash: string, yes: bool)
    requires Safe(p, sys)
    requires s in sys.ground.started && sys.ground.started[s].hash == hash
    ensures Safe(p, OnVote(p, sys, r, s, hash, yes))
    ensures GrowsInto(sys.ground, OnVote(p, sys, r, s, hash, yes).ground)
  {
    if AlreadyProcessed(sys.primary, s) || s !in sys.primary.queue {
    } else if !yes {
      PrimaryDecideSafe(p, sys, s, hash, false);
    } else {
      var sys1 := sys.(ballots := Count(sys.ballots, s, r));
      if EnoughVotes(sys1.ballots, s, sys.net.connected) {
        var (n, granted) := Acquire(p, sys.primary, s, sys.primary.queue[s].command);
        PrimaryFrameSafe(p, sys1, n);
        PrimaryDecideSafe(p, sys1.(primary := n), s, hash, granted);
      }
    }
  }

  lemma PrimaryReceivesSafe(p: Program, sys: System, r: Id)
    requires Safe(p, sys)
    ensures Safe(p, DoPrimaryReceives(p, sys, r)) && GrowsInto(sys.ground, DoPrimaryReceives(p, sys, r).ground)
  {
    if PrimaryCanReceive(sys, r) {
      assert UpsOk(sys.ground, UpFrom(sys.net, r)) && UpOk(sys.ground, UpFrom(sys.net, r)[0]);
      var sys1 := Pop(sys, r);
      assert UpsOk(sys.ground, sys1.net.up[r]);
      match UpFrom(sys.net, r)[0]
      case Vote(s, hash, yes) => OnVoteSafe(p, sys1, r, s, hash, yes);
      case Forward(hash, command) =>
        var sys2 := RememberAtPrimary(p, sys1, hash, command, false, 0);
        PrimaryFrameSafe(p, sys1, sys2.primary);
        StartTpcSafe(p, sys2, hash, command);
    }
  }

  lemma WriteAtPrimarySafe(p: Program, sys: System, hash: string, fd: nat, command: string)
    requires Safe(p, sys)
    ensures Safe(p, DoWriteAtPrimary(p, sys, hash, fd, command))
    ensures GrowsInto(sys.ground, DoWriteAtPrimary(p, sys, hash, fd, command).ground)
  {
    var sys1 := RememberAtPrimary(p, sys, hash, command, true, fd);
    PrimaryFrameSafe(p, sys, sys1.primary);
    StartTpcSafe(p, sys1.(accepted := sys.accepted[hash := Accepted(AtPrimary, fd, command)]), hash, command);
  }

  lemma ReplicaSafe(p: Program, sys: System, r: Id, n: Node)
    requires Safe(p, sys) && NodeOk(p, sys.ground, n)
    ensures Safe(p, sys.(replicas := sys.replicas[r := n]))
  {
  }

  lemma WriteAtReplicaSafe(p: Program, sys: System, r: Id, hash: string, fd: nat, command: string)
    requires Safe(p, sys)
    ensures Safe(p, DoWriteAtReplica(sys, r, hash, fd, command))
    ensures DoWriteAtReplica(sys, r, hash, fd, command).ground == sys.ground
  {
    if ReplicaCanWrite(sys, r, hash) {
      var n := RememberAtReplica(sys, r, hash, fd).replicas[r];
      NodeOkFrame(p, sys.ground, sys.replicas[r], n);
      ReplicaSafe(p, sys, r, n);
      SendOk(sys.ground, sys.net, r, Forward(hash, command));
    }
  }

  lemma PreparedSafe(p: Program, sys: System, r: Id, msg: Msg, recovering: bool)
    requires Safe(p, sys) && r in sys.replicas && msg.Prepare? && MsgOk(sys.ground, msg)
    ensures Safe(p, sys.(replicas := sys.replicas[r :=
              OnPrepare(p, sys.replicas[r], msg.number, msg.hash, msg.command, recovering).0]))
  {
    OnPrepareOk(p, sys.ground, sys.replicas[r], msg.number, msg.hash, msg.command, recovering);
    ReplicaSafe(p, sys, r, OnPrepare(p, sys.replicas[r], msg.number, msg.hash, msg.command, recovering).0);
  }

  lemma AfterPrepareSafe(p: Program, sys: System, r: Id, msg: Msg, recovering: bool)
    requires Safe(p, sys) && r in sys.replicas && msg.Prepare? && MsgOk(sys.ground, msg)
    ensures Safe(p, AfterPrepare(p, sys, r, msg, recovering))
    ensures AfterPrepare(p, sys, r, msg, recovering).ground == sys.ground
  {
    PreparedSafe(p, sys, r, msg, recovering);
    var (n, vote) := OnPrepare(p, sys.replicas[r], msg.number, msg.hash, msg.command, recovering);
    if vote.Some? { SendVoteSafe(p, sys.(replicas := sys.replicas[r := n]), r, msg.number, msg.hash, vote.value); }
  }

  lemma SendVoteSafe(p: Program, sys: System, r: Id, s: nat, hash: string, yes: bool)
    requires Safe(p, sys) && UpOk(sys.ground, Vote(s, hash, yes))
    ensures Safe(p, SendVote(sys, r, s, hash, yes)) && SendVote(sys, r, s, hash, yes).ground == sys.ground
  {
    SendOk(sys.ground, sys.net, r, Vote(s, hash, yes));
  }

  lemma ReplicaReceivesSafe(p: Program, sys: System, r: Id, recovering: bool)
    requires Safe(p, sys)
    ensures Safe(p, DoReplicaReceives(p, sys, r, recovering))
    ensures DoReplicaReceives(p, sys, r, recovering).ground == sys.ground
  {
    if ReplicaCanReceive(sys, r) {
      var msg := sys.net.sent[sys.net.read[r]];
      assert MsgOk(sys.ground, msg);
      var sys1 := sys.(net := Advance(sys.net, r));
      assert NetOk(sys.ground, sys1.net);
      if msg.Prepare? {
        AfterPrepareSafe(p, sys1, r, msg, recovering);
      } else {
        DecideOk(p, sys.ground, sys.replicas[r], msg.number, msg.hash, msg.commit);
        ReplicaSafe(p, sys1, r, Decide(p, sys.replicas[r], msg.number, msg.hash, msg.commit));
      }
    }
  }

  lemma TimeoutSafe(p: Program, sys: System, s: nat)
    requires Safe(p, sys)
    ensures Safe(p, DoTimeout(p, sys, s)) && GrowsInto(sys.ground, DoTimeout(p, sys, s).ground)
  {
    if s in sys.primary.queue {
      assert TransactionOk(sys.ground, s, sys.primary.queue[s]);
      PrimaryDecideSafe(p, sys, s, sys.primary.queue[s].hash, false);
    }
  }

  lemma JoinSafe(p: Program, sys: System, r: Id)
    requires Safe(p, sys)
    ensures Safe(p, DoJoin(sys, r)) && DoJoin(sys, r).ground == sys.ground
  {
    if CanJoin(sys, r) {
      assert Snapshot(sys.primary).history == sys.primary.history;
      assert NodeOk(p, sys.ground, Snapshot(sys.primary));
      ReplicaSafe(p, sys, r, Snapshot(sys.primary));
      assert NetOk(sys.ground, Open(sys.net, r));
    }
  }

  lemma LeaveSafe(p: Program, sys: System, r: Id)
    requires Safe(p, sys)
    ensures Safe(p, DoLeave(sys, r)) && DoLeave(sys, r).ground == sys.ground
  {
  }

  lemma DeskSafe(p: Program, sys: System, site: Site, d: Desk)
    requires Safe(p, sys)
    ensures Safe(p, WithDesk(sys, site, d)) && WithDesk(sys, site, d).ground == sys.ground
  {
    match site
    case AtPrimary => PrimaryFrameSafe(p, sys, sys.primary.(desk := d));
    case AtReplica(r) =>
      if r in sys.replicas {
        NodeOkFrame(p, sys.ground, sys.replicas[r], sys.replicas[r].(desk := d));
        ReplicaSafe(p, sys, r, sys.replicas[r].(desk := d));
      }
  }

  lemma StepSafe(p: Program, sys: System, a: Action)
    requires Safe(p, sys)
    ensures Safe(p, Step(p, sys, a)) && GrowsInto(sys.ground, Step(p, sys, a).ground)
  {
    if a.SetCheckpointing? {
      DeskSafe(p, sys, a.site, DeskAt(sys, a.site).(checkpointing := a.tablets));
    } else if a.SendQueued? {
      DeskSafe(p, sys, a.site, SendDeferred(DeskAt(sys, a.site)));
    } else if a.WriteAtPrimary? || a.PrimaryReceives? || a.Timeout? {
      PrimaryStepSafe(p, sys, a);
    } else {
      ReplicaStepSafe(p, sys, a);
    }
  }

  lemma PrimaryStepSafe(p: Program, sys: System, a: Action)
    requires Safe(p, sys) && (a.WriteAtPrimary? || a.PrimaryReceives? || a.Timeout?)
    ensures Safe(p, Step(p, sys, a)) && GrowsInto(sys.ground, Step(p, sys, a).ground)
  {
    match a
    case WriteAtPrimary(hash, fd, command) => WriteAtPrimarySafe(p, sys, hash, fd, command);
    case PrimaryReceives(r) => PrimaryReceivesSafe(p, sys, r);
    case Timeout(s) => TimeoutSafe(p, sys, s);
  }

  lemma ReplicaStepSafe(p: Program, sys: System, a: Action)
    requires Safe(p, sys) && (a.WriteAtReplica? || a.ReplicaReceives? || a.Leave? || a.Join?)
    ensures Safe(p, Step(p, sys, a)) && GrowsInto(sys.ground, Step(p, sys, a).ground)
  {
    match a
    case WriteAtReplica(r, hash, fd, command) => WriteAtReplicaSafe(p, sys, r, hash, fd, command);
    case ReplicaReceives(r, recovering) => ReplicaReceivesSafe(p, sys, r, recovering);
    case Leave(r) => LeaveSafe(p, sys, r);
    case Join(r) => JoinSafe(p, sys, r);
  }

  lemma {:induction false} RunSafe(p: Program, base: nat, table: Table, actions: seq<Action>)
    ensures Safe(p, Run(p, base, table, actions))
    ensures Run(p, base, table, actions).ground.base == base && Run(p, base, table, actions).ground.baseTable == table
  {
    if actions != [] {
      RunSafe(p, base, table, actions[..|actions| - 1]);
      StepSafe(p, Run(p, base, table, actions[..|actions| - 1]), actions[|actions| - 1]);
    }
  }

  // ---------------------------------------------------------------- main results

  predicate IsNode(sys: System, n: Node) {
    n == sys.primary || n in sys.replicas.Values
  }

  /** State-machine agreement, in every run and for either way of draining the queue: any
      two servers processed the same decision and command for each number both have passed;
      at the same number they have the same tablet log and table, or crashed alike. */
  lemma {:induction false} Agreement(p: Program, base: nat, table: Table, actions: seq<Action>, a: Node, b: Node)
    requires IsNode(Run(p, base, table, actions), a) && IsNode(Run(p, base, table, actions), b)
    ensures a.lastSeq == base + |a.history|
    ensures forall i :: 0 <= i < |a.history| && i < |b.history| ==> a.history[i] == b.history[i]
    ensures a.lastSeq == b.lastSeq ==> a.wal == b.wal && (a.health == Terminated <==> b.health == Terminated)
    ensures a.lastSeq == b.lastSeq && a.health != Terminated ==> a.table == b.table
    ensures a.health != Terminated ==> TableOf(p, a.history, table) == Some(a.table)
  {
    RunSafe(p, base, table, actions);
    NodesAgree(p, Run(p, base, table, actions).ground, a, b);
  }

  /** Single decision: over a whole run no number is broadcast or logged with both COMMIT and
      ABORT, at any server, and a server's last processed number is within its numbering. */
  lemma {:induction false} SingleDecision(p: Program, base: nat, table: Table, actions: seq<Action>, a: Node, b: Node)
    requires IsNode(Run(p, base, table, actions), a) && IsNode(Run(p, base, table, actions), b)
    ensures var sent := Run(p, base, table, actions).net.sent;
      forall m, m' :: m in sent && m' in sent && m.Decided? && m'.Decided? && m.number == m'.number ==>
          m.commit == m'.commit
    ensures forall x, y :: x in a.tpcLog && y in b.tpcLog ==>
              x.kind != Prepared && y.kind != Prepared && x.number == y.number ==> x.kind == y.kind
    ensures a.lastSeq <= a.tpcSeq
  {
    var sys := Run(p, base, table, actions);
    RunSafe(p, base, table, actions);
    forall m, m' | m in sys.net.sent && m' in sys.net.sent && m.Decided? && m'.Decided? && m.number == m'.number
      ensures m.commit == m'.commit
    {
      assert MsgOk(sys.ground, m) && MsgOk(sys.ground, m');
    }
    forall x, y | x in a.tpcLog && y in b.tpcLog && x.kind != Prepared && y.kind != Prepared && x.number == y.number
      ensures x.kind == y.kind
    {
      assert LineOk(sys.ground, x) && LineOk(sys.ground, y);
    }
  }

  /** A decision, once taken, is the decision in every later state. */
  lemma {:induction false} DecisionsAreFinal(p: Program, base: nat, table: Table, actions: seq<Action>, k: nat)
    requires k <= |actions|
    ensures GrowsInto(Run(p, base, table, actions[..k]).ground, Run(p, base, table, actions).ground)
  {
    if k == |actions| {
      assert actions[..k] == actions;
    } else {
      var before := actions[..|actions| - 1];
      DecisionsAreFinal(p, base, table, before, k);
      assert before[..k] == actions[..k];
      RunSafe(p, base, table, before);
      StepSafe(p, Run(p, base, table, before), actions[|actions| - 1]);
    }
  }
}
