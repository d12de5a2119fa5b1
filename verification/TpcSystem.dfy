/** One primary epoch as a transition system: the primary, its replicas, reliable FIFO
    channels and clients. Every action is one handler body; a disabled action changes
    nothing. The messages the primary has broadcast are kept in one list; a replica's
    channel is the part of that list it has not read yet. */
module TpcSystem {
  import opened Text
  import opened Commands
  import opened TpcNode
  import opened TpcNodeSafety

  type Id = string

  datatype Msg =
    | Prepare(number: nat, hash: string, command: string)
    | Decided(number: nat, hash: string, commit: bool)

  /** What a replica sends to the primary: a vote, or a client's write. */
  datatype Up =
    | Vote(number: nat, hash: string, yes: bool)
    | Forward(hash: string, command: string)

  datatype Site = AtPrimary | AtReplica(id: Id)

  /** Where a client's write was accepted, on which connection, and what it asks for. */
  datatype Accepted = Accepted(site: Site, fd: nat, command: string)

  /** The connections. `connected` is both alive_replicas_ipport and partition_fds; `sent` is
      what was broadcast, of which replica r has read the first read[r] and, once its
      connection is closed, will get no more than cut[r]; `up` holds what it sent. */
  datatype Net = Net(connected: set<Id>, sent: seq<Msg>, read: map<Id, nat>, cut: map<Id, nat>, up: map<Id, seq<Up>>)

  /** tpc_replicas and tpc_responses; and, for the statements, the votes that replicas cast and
      the numbers that no replica has left during. */
  datatype Ballots = Ballots(
    recorded: map<nat, set<Id>>, responses: map<nat, set<Id>>, yes: set<(nat, Id)>, no: set<(nat, Id)>,
    intact: set<nat>)

  /** `ground`, `everLeft` and `accepted` are kept for the statements. */
  datatype System = System(
    ground: Ground,
    primary: Node,
    replicas: map<Id, Node>,
    net: Net,
    ballots: Ballots,
    everLeft: bool,
    accepted: map<string, Accepted>)

  datatype Action =
    | WriteAtPrimary(hash: string, fd: nat, command: string)
    | WriteAtReplica(id: Id, hash: string, fd: nat, command: string)
    | PrimaryReceives(id: Id)
    | ReplicaReceives(id: Id, recovering: bool)
    | Timeout(number: nat)
    | Leave(id: Id)
    | Join(id: Id)
    | SetCheckpointing(site: Site, tablets: set<nat>)
    | SendQueued(site: Site)

  const NO_DESK := Desk(map[], {}, [], [])
  const NO_NET := Net({}, [], map[], map[], map[])
  const NO_BALLOTS := Ballots(map[], map[], {}, {}, {})

  function Init(base: nat, table: Table): System {
    System(Ground(base, table, map[], map[]),
           Node(Up, base, base, map[], {}, map[], table, [], [], NO_DESK, [], {}),
           map[], NO_NET, NO_BALLOTS, false, map[])
  }

  // ---------------------------------------------------------------- channels

  function Broadcast(net: Net, msg: Msg): Net {
    net.(sent := net.sent + [msg])
  }

  function UpFrom(net: Net, r: Id): seq<Up> {
    if r in net.up then net.up[r] else []
  }

  function Send(net: Net, r: Id, msg: Up): Net {
    net.(up := net.up[r := UpFrom(net, r) + [msg]])
  }

  /** How far the broadcast list reaches replica r. */
  function Limit(net: Net, r: Id): (n: nat)
    ensures n <= |net.sent|
  {
    if r in net.connected then |net.sent|
    else if r in net.cut && net.cut[r] <= |net.sent| then net.cut[r] else 0
  }

  predicate HasUnread(net: Net, r: Id) {
    r in net.read && net.read[r] < Limit(net, r)
  }

  function Advance(net: Net, r: Id): Net
    requires HasUnread(net, r)
  {
    net.(read := net.read[r := net.read[r] + 1])
  }

  /** The connection to r closes: what r has not read of the broadcasts so far may still
      reach it, what it sent and the primary has not read is lost. */
  function Close(net: Net, r: Id): Net {
    net.(connected := net.connected - {r}, cut := net.cut[r := |net.sent|], up := net.up[r := []])
  }

  function Open(net: Net, r: Id): Net {
    net.(connected := net.connected + {r}, read := net.read[r := |net.sent|], up := net.up[r := []])
  }

  // ---------------------------------------------------------------- the primary's handlers

  function Record(b: Ballots, s: nat, connected: set<Id>): Ballots {
    b.(recorded := b.recorded[s := connected], intact := b.intact + {s})
  }

  /** start_tpc: PREPARE to every connected replica, which are recorded for the number. */
  function StartTpc(sys: System, hash: string, command: string): System {
    var s := sys.primary.tpcSeq + 1;
    sys.(ground := sys.ground.(started := sys.ground.started[s := Started(hash, command)]),
         primary := Start(sys.primary, hash, command),
         ballots := Record(sys.ballots, s, sys.net.connected),
         net := Broadcast(sys.net, Prepare(s, hash, command)))
  }

  /** primary_commit_transaction and primary_abort_transaction. */
  function PrimaryDecide(p: Program, sys: System, s: nat, hash: string, commit: bool): System {
    if AlreadyProcessed(sys.primary, s) then sys
    else sys.(ground := sys.ground.(decided := sys.ground.decided[s := commit]),
              primary := Decide(p, sys.primary, s, hash, commit),
              ballots := sys.ballots.(responses := sys.ballots.responses - {s}),
              net := Broadcast(sys.net, Decided(s, hash, commit)))
  }

  function SetAt(m: map<nat, set<Id>>, s: nat): set<Id> {
    if s in m then m[s] else {}
  }

  /** The size comparison that stands for "all replicas have responded YES". */
  predicate EnoughVotes(b: Ballots, s: nat, connected: set<Id>) {
    |SetAt(b.responses, s)| == |SetAt(b.recorded, s)| || |SetAt(b.responses, s)| >= |connected|
  }

  function Count(b: Ballots, s: nat, r: Id): Ballots {
    b.(responses := b.responses[s := SetAt(b.responses, s) + {r}])
  }

  /** The primary takes its own lock and decides. */
  function Conclude(p: Program, sys: System, s: nat, hash: string, command: string): System {
    var (n, granted) := Acquire(p, sys.primary, s, command);
    PrimaryDecide(p, sys.(primary := n), s, hash, granted)
  }

  /** A YES/NO message from replica r. */
  function OnVote(p: Program, sys: System, r: Id, s: nat, hash: string, yes: bool): System {
    if AlreadyProcessed(sys.primary, s) || s !in sys.primary.queue then sys
    else if !yes then PrimaryDecide(p, sys, s, hash, false)
    else
      var sys1 := sys.(ballots := Count(sys.ballots, s, r));
      if EnoughVotes(sys1.ballots, s, sys.net.connected)
      then Conclude(p, sys1, s, hash, sys.primary.queue[s].command) else sys1
  }

  function RememberAtPrimary(p: Program, sys: System, hash: string, command: string, frontend: bool, fd: nat): System {
    sys.(primary := sys.primary.(desk := Remember(sys.primary.desk, hash, Client(frontend, fd, p.rowOf(command)))))
  }

  // ---------------------------------------------------------------- actions

  predicate PrimaryCanWrite(sys: System, hash: string) {
    sys.primary.health == Up && hash !in sys.accepted && sys.net.connected != {}
  }

  function DoWriteAtPrimary(p: Program, sys: System, hash: string, fd: nat, command: string): System {
    if !PrimaryCanWrite(sys, hash) then sys
    else
      var sys1 := RememberAtPrimary(p, sys, hash, command, true, fd);
      StartTpc(sys1.(accepted := sys.accepted[hash := Accepted(AtPrimary, fd, command)]), hash, command)
  }

  predicate ReplicaCanWrite(sys: System, r: Id, hash: string) {
    r in sys.net.connected && r in sys.replicas && sys.replicas[r].health != Terminated && hash !in sys.accepted
  }

  function RememberAtReplica(sys: System, r: Id, hash: string, fd: nat): System
    requires r in sys.replicas
  {
    var n := sys.replicas[r];
    sys.(replicas := sys.replicas[r := n.(desk := Remember(n.desk, hash, Client(true, fd, "")))])
  }

  /** A replica forwards its client's write; it does not remember the row. */
  function DoWriteAtReplica(sys: System, r: Id, hash: string, fd: nat, command: string): System {
    if !ReplicaCanWrite(sys, r, hash) then sys
    else RememberAtReplica(sys, r, hash, fd).(
           net := Send(sys.net, r, Forward(hash, command)),
           accepted := sys.accepted[hash := Accepted(AtReplica(r), fd, command)])
  }

  predicate PrimaryCanReceive(sys: System, r: Id) {
    sys.primary.health == Up && r in sys.net.connected && UpFrom(sys.net, r) != []
  }

  function Pop(sys: System, r: Id): System
    requires UpFrom(sys.net, r) != []
  {
    sys.(net := sys.net.(up := sys.net.up[r := UpFrom(sys.net, r)[1..]]))
  }

  function DoPrimaryReceives(p: Program, sys: System, r: Id): System {
    if !PrimaryCanReceive(sys, r) then sys
    else
      match UpFrom(sys.net, r)[0]
      case Vote(s, hash, yes) => OnVote(p, Pop(sys, r), r, s, hash, yes)
      case Forward(hash, command) => StartTpc(RememberAtPrimary(p, Pop(sys, r), hash, command, false, 0), hash, command)
  }

  function Cast(b: Ballots, s: nat, r: Id, yes: bool): Ballots {
    if yes then b.(yes := b.yes + {(s, r)}) else b.(no := b.no + {(s, r)})
  }

  /** The vote is cast, and sent while the connection is open. */
  function SendVote(sys: System, r: Id, s: nat, hash: string, yes: bool): System {
    sys.(ballots := Cast(sys.ballots, s, r, yes),
         net := if r in sys.net.connected then Send(sys.net, r, Vote(s, hash, yes)) else sys.net)
  }

  function AfterPrepare(p: Program, sys: System, r: Id, msg: Msg, recovering: bool): System
    requires msg.Prepare? && r in sys.replicas
  {
    var (n, vote) := OnPrepare(p, sys.replicas[r], msg.number, msg.hash, msg.command, recovering);
    var sys1 := sys.(replicas := sys.replicas[r := n]);
    if vote.None? then sys1 else SendVote(sys1, r, msg.number, msg.hash, vote.value)
  }

  predicate ReplicaCanReceive(sys: System, r: Id) {
    r in sys.replicas && sys.replicas[r].health == Up && HasUnread(sys.net, r)
  }

  function DoReplicaReceives(p: Program, sys: System, r: Id, recovering: bool): System {
    if !ReplicaCanReceive(sys, r) then sys
    else
      var msg := sys.net.sent[sys.net.read[r]];
      var sys1 := sys.(net := Advance(sys.net, r));
      if msg.Prepare? then AfterPrepare(p, sys1, r, msg, recovering)
      else sys1.(replicas := sys.replicas[r := Decide(p, sys.replicas[r], msg.number, msg.hash, msg.commit)])
  }

  function DoTimeout(p: Program, sys: System, s: nat): System {
    if sys.primary.health != Up || s !in sys.primary.queue then sys
    else PrimaryDecide(p, sys, s, sys.primary.queue[s].hash, false)
  }

  function DoLeave(sys: System, r: Id): System {
    if r !in sys.net.connected then sys
    else sys.(net := Close(sys.net, r), everLeft := true,
              ballots := sys.ballots.(intact := sys.ballots.intact * sys.ground.decided.Keys))
  }

  /** Nothing is in flight at the primary. */
  predicate Quiescent(n: Node) {
    n.health == Up && n.lastSeq == n.tpcSeq && forall s :: s in n.queue ==> s <= n.lastSeq
  }

  function Snapshot(n: Node): Node {
    Node(Up, n.lastSeq, n.tpcSeq, map[], {}, map[], n.table, n.wal, [], NO_DESK, n.history, {})
  }

  predicate CanJoin(sys: System, r: Id) {
    r !in sys.replicas && r !in sys.net.connected && Quiescent(sys.primary)
  }

  /** A new replica joins with the state of the quiescent primary. */
  function DoJoin(sys: System, r: Id): System {
    if !CanJoin(sys, r) then sys
    else sys.(replicas := sys.replicas[r := Snapshot(sys.primary)], net := Open(sys.net, r))
  }

  function WithDesk(sys: System, site: Site, d: Desk): System {
    match site
    case AtPrimary => sys.(primary := sys.primary.(desk := d))
    case AtReplica(r) =>
      if r in sys.replicas then sys.(replicas := sys.replicas[r := sys.replicas[r].(desk := d)]) else sys
  }

  function DeskAt(sys: System, site: Site): Desk {
    match site
    case AtPrimary => sys.primary.desk
    case AtReplica(r) => if r in sys.replicas then sys.replicas[r].desk else NO_DESK
  }

  function Step(p: Program, sys: System, a: Action): System {
    match a
    case WriteAtPrimary(hash, fd, command) => DoWriteAtPrimary(p, sys, hash, fd, command)
    case WriteAtReplica(r, hash, fd, command) => DoWriteAtReplica(sys, r, hash, fd, command)
    case PrimaryReceives(r) => DoPrimaryReceives(p, sys, r)
    case ReplicaReceives(r, recovering) => DoReplicaReceives(p, sys, r, recovering)
    case Timeout(s) => DoTimeout(p, sys, s)
    case Leave(r) => DoLeave(sys, r)
    case Join(r) => DoJoin(sys, r)
    case SetCheckpointing(site, tablets) => WithDesk(sys, site, DeskAt(sys, site).(checkpointing := tablets))
    case SendQueued(site) => WithDesk(sys, site, SendDeferred(DeskAt(sys, site)))
  }

  /** The state after a run. */
  function Run(p: Program, base: nat, table: Table, actions: seq<Action>): System {
    if actions == [] then Init(base, table)
    else Step(p, Run(p, base, table, actions[..|actions| - 1]), actions[|actions| - 1])
  }

  lemma {:induction false} RunMore(p: Program, base: nat, table: Table, actions: seq<Action>, a: Action)
    ensures Run(p, base, table, actions + [a]) == Step(p, Run(p, base, table, actions), a)
  {
    assert (actions + [a])[..|actions|] == actions;
  }
}
