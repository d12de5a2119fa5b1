/** What clients are told: at most one answer per write, where and only where it was
    accepted, and +OK only for what was executed there. */
module TpcClients {
  import opened Text
  import opened Commands
  import opened TpcNode
  import opened TpcNodeSafety
  import opened TpcSystem
  import opened TpcAgreement

  /** How many of the replies answer the write with this hash. */
  function CountOf(replies: seq<Reply>, hash: string): nat {
    if replies == [] then 0
    else CountOf(replies[..|replies| - 1], hash) + if replies[|replies| - 1].hash == hash then 1 else 0
  }

  lemma {:induction false} CountOfConcat(a: seq<Reply>, b: seq<Reply>, hash: string)
    ensures CountOf(a + b, hash) == CountOf(a, hash) + CountOf(b, hash)
  {
    if b == [] {
      assert a + b == a;
    } else {
      CountOfConcat(a, b[..|b| - 1], hash);
      assert (a + b)[..|a + b| - 1] == a + b[..|b| - 1];
    }
  }

  /** Answers written to clients and answers waiting in the checkpoint queue. */
  function Answers(d: Desk, hash: string): nat {
    CountOf(d.replies, hash) + CountOf(d.deferred, hash)
  }

  predicate Waiting(d: Desk, hash: string) {
    hash in d.clients && d.clients[hash].fromFrontend
  }

  /** The connection that brought the write. */
  predicate CameFrom(accepted: map<string, Accepted>, hash: string, site: Site, fd: nat) {
    hash in accepted && accepted[hash].site == site && accepted[hash].fd == fd
  }

  /** The write as it was accepted was processed here, with this outcome. */
  predicate Processed(accepted: map<string, Accepted>, history: seq<Decision>, hash: string, commit: bool) {
    hash in accepted && Decision(commit, accepted[hash].command, hash) in history
  }

  /** An answer goes to the connection that brought the write and tells what happened to it. */
  predicate ReplyOk(site: Site, accepted: map<string, Accepted>, history: seq<Decision>, reply: Reply) {
    CameFrom(accepted, reply.hash, site, reply.fd) && Processed(accepted, history, reply.hash, reply.ok)
  }

  predicate RepliesOk(site: Site, accepted: map<string, Accepted>, history: seq<Decision>, replies: seq<Reply>) {
    forall i :: 0 <= i < |replies| ==> ReplyOk(site, accepted, history, replies[i])
  }

  ghost predicate DeskOk(site: Site, accepted: map<string, Accepted>, history: seq<Decision>, d: Desk) {
    && (forall h :: Answers(d, h) + (if Waiting(d, h) then 1 else 0) <= 1)
    && (forall h :: Waiting(d, h) || Answers(d, h) > 0 ==> h in accepted && accepted[h].site == site)
    && (forall h :: Waiting(d, h) ==> CameFrom(accepted, h, site, d.clients[h].fd))
    && RepliesOk(site, accepted, history, d.replies)
    && RepliesOk(site, accepted, history, d.deferred)
  }

  // ---------------------------------------------------------------- one server

  lemma DeskGrows(
      site: Site, accepted: map<string, Accepted>, accepted': map<string, Accepted>, history: seq<Decision>,
      history': seq<Decision>, d: Desk)
    requires DeskOk(site, accepted, history, d) && Extends(accepted, accepted') && history <= history'
    ensures DeskOk(site, accepted', history', d)
  {
  }

  lemma AnswerCounts(d: Desk, hash: string, ok: bool, h: string)
    ensures Answers(Answer(d, hash, ok), h) == Answers(d, h) + if Waiting(d, hash) && h == hash then 1 else 0
    ensures Waiting(Answer(d, hash, ok), h) <==> Waiting(d, h) && h != hash
  {
  }

  lemma AnswerReplies(site: Site, accepted: map<string, Accepted>, history: seq<Decision>, d: Desk, entry: Decision)
    requires RepliesOk(site, accepted, history, d.replies) && RepliesOk(site, accepted, history, d.deferred)
    requires Waiting(d, entry.hash) ==> CameFrom(accepted, entry.hash, site, d.clients[entry.hash].fd)
    requires Processed(accepted, history, entry.hash, entry.commit)
    ensures RepliesOk(site, accepted, history, Answer(d, entry.hash, entry.commit).replies)
    ensures RepliesOk(site, accepted, history, Answer(d, entry.hash, entry.commit).deferred)
  {
  }

  /** A command that is being processed is the one that was accepted under its hash. */
  predicate AsAccepted(accepted: map<string, Accepted>, hash: string, command: string) {
    hash in accepted && accepted[hash].command == command
  }

  lemma AnswerOk(site: Site, accepted: map<string, Accepted>, history: seq<Decision>, d: Desk, entry: Decision)
    requires DeskOk(site, accepted, history, d) && AsAccepted(accepted, entry.hash, entry.command)
    ensures DeskOk(site, accepted, history + [entry], Answer(d, entry.hash, entry.commit))
  {
    var history' := history + [entry];
    var d' := Answer(d, entry.hash, entry.commit);
    DeskGrows(site, accepted, accepted, history, history', d);
    assert Processed(accepted, history', entry.hash, entry.commit) by { assert history'[|history|] == entry; }
    AnswerReplies(site, accepted, history', d, entry);
    forall h
      ensures Answers(d', h) + (if Waiting(d', h) then 1 else 0) <= 1
      ensures Waiting(d', h) || Answers(d', h) > 0 ==> h in accepted && accepted[h].site == site
      ensures Waiting(d', h) ==> CameFrom(accepted, h, site, d'.clients[h].fd)
    {
      AnswerCounts(d, entry.hash, entry.commit, h);
    }
  }

  lemma SendDeferredOk(site: Site, accepted: map<string, Accepted>, history: seq<Decision>, d: Desk)
    requires DeskOk(site, accepted, history, d)
    ensures DeskOk(site, accepted, history, SendDeferred(d))
  {
    var d' := SendDeferred(d);
    forall h ensures Answers(d', h) == Answers(d, h) && (Waiting(d', h) <==> Waiting(d, h)) {
      CountOfConcat(d.replies, d.deferred, h);
    }
  }

  ghost predicate DeskOf(site: Site, accepted: map<string, Accepted>, n: Node) {
    DeskOk(site, accepted, n.history, n.desk)
  }

  predicate QueueAsAccepted(accepted: map<string, Accepted>, queue: map<nat, Transaction>) {
    forall s :: s in queue ==> AsAccepted(accepted, queue[s].hash, queue[s].command)
  }

  lemma {:induction false} DrainDesk(p: Program, site: Site, accepted: map<string, Accepted>, n: Node)
    requires DeskOf(site, accepted, n) && QueueAsAccepted(accepted, n.queue)
    ensures DeskOf(site, accepted, Drain(p, n))
    decreases |Above(n)|
  {
    if n.health == Up && HeadDecided(n) {
      var m := ProcessNext(p, n);
      var entry := Outcome(n.queue[n.lastSeq + 1]);
      ProcessNextEffect(p, n);
      AnswerOk(site, accepted, n.history, n.desk, entry);
      DeskGrows(site, accepted, accepted, n.history, m.history, n.desk);
      ProcessNextShrinks(p, n);
      DrainDesk(p, site, accepted, m);
    }
  }

  lemma DecideDesk(p: Program, site: Site, accepted: map<string, Accepted>, n: Node, s: nat, hash: string, commit: bool)
    requires DeskOf(site, accepted, n) && QueueAsAccepted(accepted, n.queue)
    ensures DeskOf(site, accepted, Decide(p, n, s, hash, commit))
  {
    DrainDesk(p, site, accepted, Marked(n, s, hash, commit));
  }

  lemma RememberOk(
      site: Site, accepted: map<string, Accepted>, history: seq<Decision>, d: Desk, hash: string, c: Client,
      command: string)
    requires DeskOk(site, accepted, history, d)
    requires if c.fromFrontend then hash !in accepted else hash in accepted && accepted[hash].site != site
    ensures DeskOk(site, if c.fromFrontend then accepted[hash := Accepted(site, c.fd, command)] else accepted,
              history, Remember(d, hash, c))
  {
    var accepted' := if c.fromFrontend then accepted[hash := Accepted(site, c.fd, command)] else accepted;
    DeskGrows(site, accepted, accepted', history, history, d);
    RememberCounts(d, hash, c);
    assert Answers(d, hash) == 0;
    RememberedOk(site, accepted', history, d, hash, c);
  }

  lemma RememberedOk(
      site: Site, accepted: map<string, Accepted>, history: seq<Decision>, d: Desk, hash: string, c: Client)
    requires DeskOk(site, accepted, history, d) && Answers(d, hash) == 0
    requires c.fromFrontend ==> CameFrom(accepted, hash, site, c.fd)
    ensures DeskOk(site, accepted, history, Remember(d, hash, c))
  {
    RememberCounts(d, hash, c);
  }

  lemma RememberCounts(d: Desk, hash: string, c: Client)
    ensures forall h :: Answers(Remember(d, hash, c), h) == Answers(d, h)
    ensures forall h :: h != hash ==> (Waiting(Remember(d, hash, c), h) <==> Waiting(d, h))
  {
  }

  // ---------------------------------------------------------------- the system

  predicate StartedWith(g: Ground, hash: string) {
    exists s :: s in g.started && g.started[s].hash == hash
  }

  predicate ForwardAt(net: Net, r: Id, i: int) {
    r in net.up && 0 <= i < |net.up[r]| && net.up[r][i].Forward?
  }

  ghost predicate Unstarted(g: Ground, accepted: map<string, Accepted>, r: Id, hash: string) {
    hash in accepted && accepted[hash].site == AtReplica(r) && !StartedWith(g, hash)
  }

  ghost predicate NotTravelling(net: Net, hash: string) {
    forall r, i :: ForwardAt(net, r, i) ==> net.up[r][i].hash != hash
  }

  /** Every write is started at most once: hashes of started and of travelling writes differ. */
  ghost predicate HashesOk(g: Ground, net: Net, accepted: map<string, Accepted>) {
    && (forall s, t :: s in g.started && t in g.started && g.started[s].hash == g.started[t].hash ==> s == t)
    && (forall s :: s in g.started ==> AsAccepted(accepted, g.started[s].hash, g.started[s].command))
    && (forall r, i :: ForwardAt(net, r, i) ==>
         Unstarted(g, accepted, r, net.up[r][i].hash) && AsAccepted(accepted, net.up[r][i].hash, net.up[r][i].command))
    && (forall r, i, j ::
          ForwardAt(net, r, i) && ForwardAt(net, r, j) && net.up[r][i].hash == net.up[r][j].hash ==> i == j)
  }

  ghost predicate ClientsOk(sys: System) {
    && DeskOf(AtPrimary, sys.accepted, sys.primary)
    && (forall r :: r in sys.replicas ==> DeskOf(AtReplica(r), sys.accepted, sys.replicas[r]))
    && HashesOk(sys.ground, sys.net, sys.accepted)
  }

  lemma StartTpcClients(sys: System, hash: string, command: string)
    requires PrimaryKnows(sys.ground, sys.primary) && ClientsOk(sys)
    requires AsAccepted(sys.accepted, hash, command) && !StartedWith(sys.ground, hash)
    requires NotTravelling(sys.net, hash)
    ensures ClientsOk(StartTpc(sys, hash, command))
  {
  }

  /** What a server has queued is what clients sent. */
  lemma QueuedIsAccepted(p: Program, g: Ground, net: Net, accepted: map<string, Accepted>, n: Node)
    requires NodeOk(p, g, n) && HashesOk(g, net, accepted)
    ensures QueueAsAccepted(accepted, n.queue)
  {
    forall s | s in n.queue ensures AsAccepted(accepted, n.queue[s].hash, n.queue[s].command) {
      assert TransactionOk(g, s, n.queue[s]);
    }
  }

  lemma PrimaryDecideClients(p: Program, sys: System, s: nat, hash: string, commit: bool)
    requires ClientsOk(sys) && NodeOk(p, sys.ground, sys.primary)
    ensures ClientsOk(PrimaryDecide(p, sys, s, hash, commit))
  {
    if !AlreadyProcessed(sys.primary, s) {
      QueuedIsAccepted(p, sys.ground, sys.net, sys.accepted, sys.primary);
      DecideDesk(p, AtPrimary, sys.accepted, sys.primary, s, hash, commit);
      var net' := Broadcast(sys.net, Decided(s, hash, commit));
      var g' := sys.ground.(decided := sys.ground.decided[s := commit]);
      assert forall r, i :: ForwardAt(net', r, i) <==> ForwardAt(sys.net, r, i);
      assert forall h :: StartedWith(g', h) <==> StartedWith(sys.ground, h);
    }
  }

  lemma OnVoteClients(p: Program, sys: System, r: Id, s: nat, hash: string, yes: bool)
    requires ClientsOk(sys) && NodeOk(p, sys.ground, sys.primary)
    ensures ClientsOk(OnVote(p, sys, r, s, hash, yes))
  {
    if AlreadyProcessed(sys.primary, s) || s !in sys.primary.queue {
    } else if !yes {
      PrimaryDecideClients(p, sys, s, hash, false);
    } else {
      var sys1 := sys.(ballots := Count(sys.ballots, s, r));
      if EnoughVotes(sys1.ballots, s, sys.net.connected) {
        var (n, granted) := Acquire(p, sys.primary, s, sys.primary.queue[s].command);
        NodeOkFrame(p, sys.ground, sys.primary, n);
        PrimaryDecideClients(p, sys1.(primary := n), s, hash, granted);
      }
    }
  }

  lemma PopHashes(g: Ground, net: Net, accepted: map<string, Accepted>, r: Id)
    requires HashesOk(g, net, accepted) && UpFrom(net, r) != []
    ensures HashesOk(g, net.(up := net.up[r := UpFrom(net, r)[1..]]), accepted)
    ensures var net', msg := net.(up := net.up[r := UpFrom(net, r)[1..]]), UpFrom(net, r)[0];
      msg.Forward? ==>
        Unstarted(g, accepted, r, msg.hash) && NotTravelling(net', msg.hash)
          && AsAccepted(accepted, msg.hash, msg.command)
  {
  }

  lemma PrimaryReceivesClients(p: Program, sys: System, r: Id)
    requires PrimaryKnows(sys.ground, sys.primary) && NodeOk(p, sys.ground, sys.primary) && ClientsOk(sys)
    ensures ClientsOk(DoPrimaryReceives(p, sys, r))
  {
    if PrimaryCanReceive(sys, r) {
      PopHashes(sys.ground, sys.net, sys.accepted, r);
      var sys1 := Pop(sys, r);
      match UpFrom(sys.net, r)[0]
      case Vote(s, hash, yes) => OnVoteClients(p, sys1, r, s, hash, yes);
      case Forward(hash, command) =>
        RememberOk(AtPrimary, sys.accepted, sys.primary.history, sys.primary.desk, hash,
            Client(false, 0, p.rowOf(command)), command);
        StartTpcClients(RememberAtPrimary(p, sys1, hash, command, false, 0), hash, command);
    }
  }

  lemma SendHashes(g: Ground, net: Net, accepted: map<string, Accepted>, r: Id, msg: Up)
    requires HashesOk(g, net, accepted)
    requires msg.Forward? ==>
      Unstarted(g, accepted, r, msg.hash) && NotTravelling(net, msg.hash) && AsAccepted(accepted, msg.hash, msg.command)
    ensures HashesOk(g, Send(net, r, msg), accepted)
  {
  }

  lemma AcceptHashes(g: Ground, net: Net, accepted: map<string, Accepted>, hash: string, a: Accepted)
    requires HashesOk(g, net, accepted) && hash !in accepted
    ensures HashesOk(g, net, accepted[hash := a]) && !StartedWith(g, hash)
    ensures NotTravelling(net, hash)
  {
  }

  lemma AcceptDesks(sys: System, hash: string, a: Accepted)
    requires ClientsOk(sys) && hash !in sys.accepted
    ensures DeskOf(AtPrimary, sys.accepted[hash := a], sys.primary)
    ensures forall r :: r in sys.replicas ==> DeskOf(AtReplica(r), sys.accepted[hash := a], sys.replicas[r])
  {
    var accepted' := sys.accepted[hash := a];
    DeskGrows(AtPrimary, sys.accepted, accepted', sys.primary.history, sys.primary.history, sys.primary.desk);
    forall r | r in sys.replicas ensures DeskOf(AtReplica(r), accepted', sys.replicas[r]) {
      var n := sys.replicas[r];
      assert DeskOf(AtReplica(r), sys.accepted, n);
      DeskGrows(AtReplica(r), sys.accepted, accepted', n.history, n.history, n.desk);
    }
  }

  lemma WriteAtPrimaryClients(p: Program, sys: System, hash: string, fd: nat, command: string)
    requires PrimaryKnows(sys.ground, sys.primary) && ClientsOk(sys)
    ensures ClientsOk(DoWriteAtPrimary(p, sys, hash, fd, command))
  {
    if PrimaryCanWrite(sys, hash) {
      var a := Accepted(AtPrimary, fd, command);
      AcceptHashes(sys.ground, sys.net, sys.accepted, hash, a);
      AcceptDesks(sys, hash, a);
      RememberOk(AtPrimary, sys.accepted, sys.primary.history, sys.primary.desk, hash,
          Client(true, fd, p.rowOf(command)), command);
      StartTpcClients(RememberAtPrimary(p, sys, hash, command, true, fd).(accepted := sys.accepted[hash := a]), hash,
          command);
    }
  }

  lemma WriteAtReplicaClients(sys: System, r: Id, hash: string, fd: nat, command: string)
    requires ClientsOk(sys)
    ensures ClientsOk(DoWriteAtReplica(sys, r, hash, fd, command))
  {
    if ReplicaCanWrite(sys, r, hash) {
      var a, n := Accepted(AtReplica(r), fd, command), sys.replicas[r];
      AcceptHashes(sys.ground, sys.net, sys.accepted, hash, a);
      AcceptDesks(sys, hash, a);
      assert DeskOf(AtReplica(r), sys.accepted, n);
      RememberOk(AtReplica(r), sys.accepted, n.history, n.desk, hash, Client(true, fd, ""), command);
      SendHashes(sys.ground, sys.net, sys.accepted[hash := a], r, Forward(hash, command));
    }
  }

  lemma AdvanceHashes(g: Ground, net: Net, accepted: map<string, Accepted>, r: Id)
    requires HashesOk(g, net, accepted) && HasUnread(net, r)
    ensures HashesOk(g, Advance(net, r), accepted)
  {
  }

  lemma PreparingKeepsDesk(p: Program, n: Node, s: nat, hash: string, command: string, recovering: bool)
    ensures var m := OnPrepare(p, n, s, hash, command, recovering).0; m.desk == n.desk && m.history == n.history
  {
  }

  lemma ReplicaNodeClients(sys: System, r: Id, n: Node, net: Net, b: Ballots)
    requires ClientsOk(sys) && HashesOk(sys.ground, net, sys.accepted) && DeskOf(AtReplica(r), sys.accepted, n)
    ensures ClientsOk(sys.(replicas := sys.replicas[r := n], net := net, ballots := b))
  {
  }

  lemma ReplicaPreparesClients(p: Program, sys: System, r: Id, msg: Msg, recovering: bool)
    requires ClientsOk(sys) && r in sys.replicas && msg.Prepare?
    ensures ClientsOk(AfterPrepare(p, sys, r, msg, recovering))
  {
    var (n, vote) := OnPrepare(p, sys.replicas[r], msg.number, msg.hash, msg.command, recovering);
    PreparingKeepsDesk(p, sys.replicas[r], msg.number, msg.hash, msg.command, recovering);
    assert DeskOf(AtReplica(r), sys.accepted, sys.replicas[r]);
    if vote.Some? { SendHashes(sys.ground, sys.net, sys.accepted, r, Vote(msg.number, msg.hash, vote.value)); }
    var sys' := AfterPrepare(p, sys, r, msg, recovering);
    ReplicaNodeClients(sys, r, n, sys'.net, sys'.ballots);
  }

  lemma ReplicaReceivesClients(p: Program, sys: System, r: Id, recovering: bool)
    requires ClientsOk(sys) && ReplicasOk(p, sys.ground, sys.replicas)
    ensures ClientsOk(DoReplicaReceives(p, sys, r, recovering))
  {
    if ReplicaCanReceive(sys, r) {
      var msg, n := sys.net.sent[sys.net.read[r]], sys.replicas[r];
      AdvanceHashes(sys.ground, sys.net, sys.accepted, r);
      assert DeskOf(AtReplica(r), sys.accepted, n);
      if msg.Prepare? {
        ReplicaPreparesClients(p, sys.(net := Advance(sys.net, r)), r, msg, recovering);
      } else {
        QueuedIsAccepted(p, sys.ground, sys.net, sys.accepted, n);
        DecideDesk(p, AtReplica(r), sys.accepted, n, msg.number, msg.hash, msg.commit);
        ReplicaNodeClients(sys, r, Decide(p, n, msg.number, msg.hash, msg.commit), Advance(sys.net, r), sys.ballots);
      }
    }
  }

  lemma LeaveClients(sys: System, r: Id)
    requires ClientsOk(sys)
    ensures ClientsOk(DoLeave(sys, r))
  {
  }

  lemma JoinClients(sys: System, r: Id)
    requires ClientsOk(sys)
    ensures ClientsOk(DoJoin(sys, r))
  {
    var net1 := Open(sys.net, r);
    assert forall q, i :: ForwardAt(net1, q, i) ==> ForwardAt(sys.net, q, i) && sys.net.up[q][i] == net1.up[q][i];
    assert HashesOk(sys.ground, net1, sys.accepted);
    ReplicaNodeClients(sys, r, Snapshot(sys.primary), net1, sys.ballots);
  }

  lemma WithDeskClients(sys: System, site: Site, d: Desk)
    requires ClientsOk(sys)
    requires site == AtPrimary ==> DeskOk(site, sys.accepted, sys.primary.history, d)
    requires site.AtReplica? && site.id in sys.replicas ==> DeskOk(site, sys.accepted, sys.replicas[site.id].history, d)
    ensures ClientsOk(WithDesk(sys, site, d))
  {
  }

  lemma SendQueuedClients(sys: System, site: Site)
    requires ClientsOk(sys)
    ensures ClientsOk(WithDesk(sys, site, SendDeferred(DeskAt(sys, site))))
  {
    if site == AtPrimary {
      SendDeferredOk(site, sys.accepted, sys.primary.history, sys.primary.desk);
    } else if site.id in sys.replicas {
      assert DeskOf(site, sys.accepted, sys.replicas[site.id]);
      SendDeferredOk(site, sys.accepted, sys.replicas[site.id].history, sys.replicas[site.id].desk);
    }
    WithDeskClients(sys, site, SendDeferred(DeskAt(sys, site)));
  }

  lemma CheckpointingOk(site: Site, accepted: map<string, Accepted>, history: seq<Decision>, d: Desk, tablets: set<nat>)
    requires DeskOk(site, accepted, history, d)
    ensures DeskOk(site, accepted, history, d.(checkpointing := tablets))
  {
    assert forall h :: Answers(d.(checkpointing := tablets), h) == Answers(d, h);
  }

  lemma SetCheckpointingClients(sys: System, site: Site, tablets: set<nat>)
    requires ClientsOk(sys)
    ensures ClientsOk(WithDesk(sys, site, DeskAt(sys, site).(checkpointing := tablets)))
  {
    if site == AtPrimary {
      CheckpointingOk(site, sys.accepted, sys.primary.history, sys.primary.desk, tablets);
    } else if site.id in sys.replicas {
      assert DeskOf(site, sys.accepted, sys.replicas[site.id]);
      CheckpointingOk(site, sys.accepted, sys.replicas[site.id].history, sys.replicas[site.id].desk, tablets);
    }
    WithDeskClients(sys, site, DeskAt(sys, site).(checkpointing := tablets));
  }

  lemma StepClients(p: Program, sys: System, a: Action)
    requires Safe(p, sys) && ClientsOk(sys)
    ensures ClientsOk(Step(p, sys, a))
  {
    if a.WriteAtPrimary? {
      WriteAtPrimaryClients(p, sys, a.hash, a.fd, a.command);
    } else if a.WriteAtReplica? {
      WriteAtReplicaClients(sys, a.id, a.hash, a.fd, a.command);
    } else if a.PrimaryReceives? {
      PrimaryReceivesClients(p, sys, a.id);
    } else if a.ReplicaReceives? {
      ReplicaReceivesClients(p, sys, a.id, a.recovering);
    } else if a.Timeout? {
      if a.number in sys.primary.queue {
        PrimaryDecideClients(p, sys, a.number, sys.primary.queue[a.number].hash, false);
      }
    } else if a.Leave? {
      LeaveClients(sys, a.id);
    } else if a.Join? {
      JoinClients(sys, a.id);
    } else if a.SetCheckpointing? {
      SetCheckpointingClients(sys, a.site, a.tablets);
    } else {
      SendQueuedClients(sys, a.site);
    }
  }

  lemma {:induction false} RunClients(p: Program, base: nat, table: Table, actions: seq<Action>)
    ensures ClientsOk(Run(p, base, table, actions))
  {
    if actions == [] {
    } else {
      var before := actions[..|actions| - 1];
      RunClients(p, base, table, before);
      RunSafe(p, base, table, before);
      StepClients(p, Run(p, base, table, before), actions[|actions| - 1]);
    }
  }

  // ---------------------------------------------------------------- what clients sent

  /** The action in which a client sends a write to a server. */
  function RequestAt(site: Site, hash: string, fd: nat, command: string): Action {
    match site
    case AtPrimary => WriteAtPrimary(hash, fd, command)
    case AtReplica(r) => WriteAtReplica(r, hash, fd, command)
  }

  predicate Sent(actions: seq<Action>, accepted: map<string, Accepted>, hash: string) {
    hash in accepted ==> RequestAt(accepted[hash].site, hash, accepted[hash].fd, accepted[hash].command) in actions
  }

  lemma StepSent(p: Program, sys: System, a: Action, hash: string)
    ensures var accepted := Step(p, sys, a).accepted;
      hash in accepted ==> (hash in sys.accepted && accepted[hash] == sys.accepted[hash]) ||
                           RequestAt(accepted[hash].site, hash, accepted[hash].fd, accepted[hash].command) == a
  {
    if a.PrimaryReceives? {
      ReceivingAcceptsNothing(p, sys, a.id);
    } else if !a.WriteAtPrimary? && !a.WriteAtReplica? {
      OthersAcceptNothing(p, sys, a);
    }
  }

  lemma ReceivingAcceptsNothing(p: Program, sys: System, r: Id)
    ensures DoPrimaryReceives(p, sys, r).accepted == sys.accepted
  {
    if PrimaryCanReceive(sys, r) && UpFrom(sys.net, r)[0].Vote? {
      var msg := UpFrom(sys.net, r)[0];
      VoteAcceptsNothing(p, Pop(sys, r), r, msg.number, msg.hash, msg.yes);
    }
  }

  lemma VoteAcceptsNothing(p: Program, sys: System, r: Id, s: nat, hash: string, yes: bool)
    ensures OnVote(p, sys, r, s, hash, yes).accepted == sys.accepted
  {
  }

  lemma OthersAcceptNothing(p: Program, sys: System, a: Action)
    requires !a.WriteAtPrimary? && !a.WriteAtReplica? && !a.PrimaryReceives?
    ensures Step(p, sys, a).accepted == sys.accepted
  {
  }

  /** Whatever was accepted in a run some action of the run brought. */
  lemma {:induction false} RunSent(p: Program, base: nat, table: Table, actions: seq<Action>, hash: string)
    ensures Sent(actions, Run(p, base, table, actions).accepted, hash)
  {
    if actions != [] {
      RunSent(p, base, table, actions[..|actions| - 1], hash);
      StepSent(p, Run(p, base, table, actions[..|actions| - 1]), actions[|actions| - 1], hash);
    }
  }

  // ---------------------------------------------------------------- main result

  /** What an answer tells is what happened: a client sent a command to this server, on the connection
      that is answered; that command was processed here with that outcome, and nothing else was ever
      processed here under its hash. */
  ghost predicate AnswerIsTrue(actions: seq<Action>, site: Site, history: seq<Decision>, reply: Reply) {
    exists command ::
      && RequestAt(site, reply.hash, reply.fd, command) in actions
      && Decision(reply.ok, command, reply.hash) in history
      && forall d :: d in history && d.hash == reply.hash ==> d == Decision(reply.ok, command, reply.hash)
  }

  lemma TrueAnswer(p: Program, actions: seq<Action>, site: Site, sys: System, n: Node, reply: Reply)
    requires NodeOk(p, sys.ground, n) && HashesOk(sys.ground, sys.net, sys.accepted)
    requires ReplyOk(site, sys.accepted, n.history, reply) && Sent(actions, sys.accepted, reply.hash)
    ensures AnswerIsTrue(actions, site, n.history, reply)
  {
    var command := sys.accepted[reply.hash].command;
    OneOutcome(p, sys, n, Decision(reply.ok, command, reply.hash));
    assert RequestAt(site, reply.hash, reply.fd, command) in actions;
  }

  predicate ServerAt(sys: System, site: Site, n: Node) {
    (site == AtPrimary && n == sys.primary)
      || (site.AtReplica? && site.id in sys.replicas && n == sys.replicas[site.id])
  }

  ghost predicate AnsweredNowhereElse(sys: System, site: Site, hash: string) {
    forall other, n :: ServerAt(sys, other, n) && other != site ==> Answers(n.desk, hash) == 0
  }

  lemma NowhereElse(sys: System, site: Site, hash: string)
    requires ClientsOk(sys) && hash in sys.accepted && sys.accepted[hash].site == site
    ensures AnsweredNowhereElse(sys, site, hash)
  {
    forall other, n | ServerAt(sys, other, n) && other != site ensures Answers(n.desk, hash) == 0 {
      AnsweredOnce(other, sys.accepted, n, hash);
    }
  }

  /** In every run and at every server: a write is answered or waits to be answered at most
      once, only at the server its client contacted and at no other, and on that connection; the answer, sent or
      deferred, is +OK if this server committed the very command that the client sent there, -ERR
      if it aborted it, and this server never processed anything else for that write. */
  lemma {:induction false} ClientAnswers(
      p: Program, base: nat, table: Table, actions: seq<Action>, site: Site, n: Node, hash: string)
    requires ServerAt(Run(p, base, table, actions), site, n)
    ensures Answers(n.desk, hash) <= 1
    ensures Answers(n.desk, hash) == 1 ==> exists fd, command :: RequestAt(site, hash, fd, command) in actions
    ensures Answers(n.desk, hash) == 1 ==> AnsweredNowhereElse(Run(p, base, table, actions), site, hash)
    ensures forall reply :: reply in n.desk.replies || reply in n.desk.deferred ==>
              AnswerIsTrue(actions, site, n.history, reply)
  {
    var sys := Run(p, base, table, actions);
    RunClients(p, base, table, actions);
    RunSafe(p, base, table, actions);
    assert DeskOf(site, sys.accepted, n) && NodeOk(p, sys.ground, n);
    AnsweredOnce(site, sys.accepted, n, hash);
    RunSent(p, base, table, actions, hash);
    if Answers(n.desk, hash) == 1 {
      assert RequestAt(site, hash, sys.accepted[hash].fd, sys.accepted[hash].command) in actions;
      NowhereElse(sys, site, hash);
    }
    forall reply | reply in n.desk.replies || reply in n.desk.deferred
      ensures AnswerIsTrue(actions, site, n.history, reply)
    {
      RunSent(p, base, table, actions, reply.hash);
      TrueAnswer(p, actions, site, sys, n, reply);
    }
  }

  lemma AnsweredOnce(site: Site, accepted: map<string, Accepted>, n: Node, hash: string)
    requires DeskOf(site, accepted, n)
    ensures Answers(n.desk, hash) <= 1
    ensures Answers(n.desk, hash) == 1 ==> hash in accepted && accepted[hash].site == site
    ensures forall reply :: reply in n.desk.replies || reply in n.desk.deferred ==>
              ReplyOk(site, accepted, n.history, reply)
  {
  }

  /** A server processes one decision for a hash. */
  lemma OneOutcome(p: Program, sys: System, n: Node, d: Decision)
    requires NodeOk(p, sys.ground, n) && HashesOk(sys.ground, sys.net, sys.accepted)
    requires d in n.history
    ensures forall e :: e in n.history && e.hash == d.hash ==> e == d
  {
    var i :| 0 <= i < |n.history| && n.history[i] == d;
    assert EntryOk(sys.ground, i, n.history[i]);
    forall j | 0 <= j < |n.history| && n.history[j].hash == d.hash ensures n.history[j] == d {
      assert EntryOk(sys.ground, j, n.history[j]);
    }
  }
}
