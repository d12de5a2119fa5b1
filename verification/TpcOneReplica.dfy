/** Runs with one replica, reduced to the two servers and the channels between them: what the
    concrete runs of the counterexamples are made of. */
module TpcOneReplica {
  import opened Text
  import opened Commands
  import opened TpcNode
  import opened TpcNodeSafety
  import opened TpcSystem
  import opened TpcUnanimity
  import opened TpcMirror

  /** The ground, the two servers, the broadcasts and how far the replica has read them, what it sent and the
      primary has not read, the hashes in use, and the numbers the replica voted YES for. */
  datatype View = View(
    ground: Ground, primary: Node, replica: Node, sent: seq<Msg>, read: nat, up: seq<Up>, hashes: set<string>,
    yes: set<nat>)

  predicate OnlyFrom(responses: map<nat, set<Id>>, r: Id) {
    forall s :: s in responses ==> responses[s] <= {r}
  }

  ghost predicate Shows(sys: System, r: Id, v: View) {
    && sys.ground == v.ground && sys.primary == v.primary && r in sys.replicas && sys.replicas[r] == v.replica
    && sys.net.connected == {r} && sys.net.sent == v.sent && r in sys.net.read && sys.net.read[r] == v.read
    && UpFrom(sys.net, r) == v.up && sys.accepted.Keys == v.hashes
    && (forall s :: (s, r) in sys.ballots.yes <==> s in v.yes)
    && OnlyFrom(sys.ballots.responses, r)
  }

  function Fresh(base: nat, table: Table): Node {
    Snapshot(Init(base, table).primary)
  }

  function Joined(base: nat, table: Table): View {
    View(Init(base, table).ground, Init(base, table).primary, Fresh(base, table), [], 0, [], {}, {})
  }

  lemma {:induction false} JoinShows(p: Program, base: nat, table: Table, r: Id)
    ensures Shows(Run(p, base, table, [Join(r)]), r, Joined(base, table))
  {
    RunMore(p, base, table, [], Join(r));
    assert [] + [Join(r)] == [Join(r)];
  }

  // ---------------------------------------------------------------- one action

  function Writes(p: Program, v: View, hash: string, fd: nat, command: string): View {
    var n := v.primary.(desk := Remember(v.primary.desk, hash, Client(true, fd, p.rowOf(command))));
    v.(ground := v.ground.(started := v.ground.started[n.tpcSeq + 1 := Started(hash, command)]),
       primary := Start(n, hash, command), sent := v.sent + [Prepare(n.tpcSeq + 1, hash, command)],
       hashes := v.hashes + {hash})
  }

  lemma WriteShows(p: Program, sys: System, r: Id, v: View, hash: string, fd: nat, command: string)
    requires Shows(sys, r, v) && v.primary.health == Up && hash !in v.hashes
    ensures Shows(Step(p, sys, WriteAtPrimary(hash, fd, command)), r, Writes(p, v, hash, fd, command))
  {
    assert r in sys.net.connected;
  }

  /** The replica reads a PREPARE and votes. */
  function Votes(p: Program, v: View, s: nat, hash: string, command: string): View {
    var (n, vote) := OnPrepare(p, v.replica, s, hash, command, false);
    v.(replica := n, read := v.read + 1, up := if vote.None? then v.up else v.up + [Vote(s, hash, vote.value)],
       yes := if vote == Some(true) then v.yes + {s} else v.yes)
  }

  lemma VoteShows(p: Program, sys: System, r: Id, v: View, s: nat, hash: string, command: string)
    requires Shows(sys, r, v) && v.replica.health == Up && v.read < |v.sent|
    requires v.sent[v.read] == Prepare(s, hash, command)
    ensures Shows(Step(p, sys, ReplicaReceives(r, false)), r, Votes(p, v, s, hash, command))
  {
    var (n, vote) := OnPrepare(p, v.replica, s, hash, command, false);
    var sys1 := sys.(net := Advance(sys.net, r));
    assert Step(p, sys, ReplicaReceives(r, false)) == AfterPrepare(p, sys1, r, Prepare(s, hash, command), false);
    AfterPrepareShows(p, sys1, r, v.(read := v.read + 1), s, hash, command);
  }

  lemma AfterPrepareShows(p: Program, sys: System, r: Id, v: View, s: nat, hash: string, command: string)
    requires Shows(sys, r, v)
    ensures var (n, vote) := OnPrepare(p, v.replica, s, hash, command, false);
      Shows(AfterPrepare(p, sys, r, Prepare(s, hash, command), false), r,
            v.(replica := n, up := if vote.None? then v.up else v.up + [Vote(s, hash, vote.value)],
               yes := if vote == Some(true) then v.yes + {s} else v.yes))
  {
    var (n, vote) := OnPrepare(p, v.replica, s, hash, command, false);
    var sys1 := sys.(replicas := sys.replicas[r := n]);
    if vote.Some? { SendShows(sys1, r, v.(replica := n), s, hash, vote.value); }
  }

  lemma SendShows(sys: System, r: Id, v: View, s: nat, hash: string, yes: bool)
    requires Shows(sys, r, v)
    ensures Shows(SendVote(sys, r, s, hash, yes), r,
              v.(up := v.up + [Vote(s, hash, yes)], yes := if yes then v.yes + {s} else v.yes))
  {
    assert r in sys.net.connected;
  }

  /** It reads a decision. */
  function Learns(p: Program, v: View, s: nat, hash: string, commit: bool): View {
    v.(replica := Decide(p, v.replica, s, hash, commit), read := v.read + 1)
  }

  lemma LearnShows(p: Program, sys: System, r: Id, v: View, s: nat, hash: string, commit: bool)
    requires Shows(sys, r, v) && v.replica.health == Up && v.read < |v.sent|
    requires v.sent[v.read] == Decided(s, hash, commit)
    ensures Shows(Step(p, sys, ReplicaReceives(r, false)), r, Learns(p, v, s, hash, commit))
  {
  }

  /** The primary reads the replica's vote and decides. */
  function Concludes(p: Program, v: View, s: nat, hash: string, yes: bool): View
    requires s in v.primary.queue && v.up != []
  {
    var (n, granted) := if yes then Acquire(p, v.primary, s, v.primary.queue[s].command) else (v.primary, false);
    v.(ground := v.ground.(decided := v.ground.decided[s := granted]), primary := Decide(p, n, s, hash, granted),
       sent := v.sent + [Decided(s, hash, granted)], up := v.up[1..])
  }

  lemma NoShows(p: Program, sys: System, r: Id, v: View, s: nat, hash: string)
    requires Shows(sys, r, v) && v.primary.health == Up && v.up != [] && v.up[0] == Vote(s, hash, false)
    requires s in v.primary.queue && !AlreadyProcessed(v.primary, s)
    ensures Shows(Step(p, sys, PrimaryReceives(r)), r, Concludes(p, v, s, hash, false))
  {
  }

  lemma YesShows(p: Program, sys: System, r: Id, v: View, s: nat, hash: string)
    requires Shows(sys, r, v) && v.primary.health == Up && v.up != [] && v.up[0] == Vote(s, hash, true)
    requires s in v.primary.queue && !AlreadyProcessed(v.primary, s)
    ensures Shows(Step(p, sys, PrimaryReceives(r)), r, Concludes(p, v, s, hash, true))
  {
    var b := Count(sys.ballots, s, r);
    assert SetAt(b.responses, s) == {r};
    assert EnoughVotes(b, s, {r});
  }

  // ---------------------------------------------------------------- whole runs

  /** A client writes at the primary; the replica reads a message; the primary reads a vote. */
  datatype Move = Writing(hash: string, fd: nat, command: string) | Reading | Counting

  datatype Script = Done | Then(move: Move, rest: Script)

  predicate Possible(v: View, m: Move) {
    match m
    case Writing(hash, _, _) => v.primary.health == Up && hash !in v.hashes
    case Reading => v.replica.health == Up && v.read < |v.sent|
    case Counting =>
      v.primary.health == Up && v.up != [] && v.up[0].Vote? && v.up[0].number in v.primary.queue &&
      !AlreadyProcessed(v.primary, v.up[0].number)
  }

  function Moved(p: Program, v: View, m: Move): View
    requires Possible(v, m)
  {
    match m
    case Writing(hash, fd, command) => Writes(p, v, hash, fd, command)
    case Counting => Concludes(p, v, v.up[0].number, v.up[0].hash, v.up[0].yes)
    case Reading =>
      match v.sent[v.read]
      case Prepare(s, hash, command) => Votes(p, v, s, hash, command)
      case Decided(s, hash, commit) => Learns(p, v, s, hash, commit)
  }

  function ActionOf(m: Move, r: Id): Action {
    match m
    case Writing(hash, fd, command) => WriteAtPrimary(hash, fd, command)
    case Reading => ReplicaReceives(r, false)
    case Counting => PrimaryReceives(r)
  }

  lemma MoveShows(p: Program, sys: System, r: Id, v: View, m: Move)
    requires Shows(sys, r, v) && Possible(v, m)
    ensures Shows(Step(p, sys, ActionOf(m, r)), r, Moved(p, v, m))
  {
    match m
    case Writing(hash, fd, command) => WriteShows(p, sys, r, v, hash, fd, command);
    case Reading =>
      match v.sent[v.read] {
        case Prepare(s, hash, command) => VoteShows(p, sys, r, v, s, hash, command);
        case Decided(s, hash, commit) => LearnShows(p, sys, r, v, s, hash, commit);
      }
    case Counting =>
      if v.up[0].yes {
        YesShows(p, sys, r, v, v.up[0].number, v.up[0].hash);
      } else {
        NoShows(p, sys, r, v, v.up[0].number, v.up[0].hash);
      }
  }

  function ActionsOf(script: Script, r: Id): seq<Action> {
    match script
    case Done => []
    case Then(m, rest) => [ActionOf(m, r)] + ActionsOf(rest, r)
  }

  /** Where a script leads; None if one of its moves is not possible. */
  function Play(p: Program, v: View, script: Script): Option<View>
    decreases script
  {
    match script
    case Done => Some(v)
    case Then(m, rest) => if Possible(v, m) then Play(p, Moved(p, v, m), rest) else None
  }

  function Played(p: Program, sys: System, r: Id, script: Script): System
    decreases script
  {
    match script
    case Done => sys
    case Then(m, rest) => Played(p, Step(p, sys, ActionOf(m, r)), r, rest)
  }

  lemma {:induction false} PlayShows(p: Program, sys: System, r: Id, v: View, script: Script)
    requires Shows(sys, r, v) && Play(p, v, script).Some?
    ensures Shows(Played(p, sys, r, script), r, Play(p, v, script).value)
    decreases script
  {
    match script
    case Done =>
    case Then(m, rest) =>
      MoveShows(p, sys, r, v, m);
      PlayShows(p, Step(p, sys, ActionOf(m, r)), r, Moved(p, v, m), rest);
  }

  lemma {:induction false} PlayedIsRun(p: Program, base: nat, table: Table, actions: seq<Action>, r: Id, script: Script)
    ensures Run(p, base, table, actions + ActionsOf(script, r)) == Played(p, Run(p, base, table, actions), r, script)
    decreases script
  {
    match script
    case Done => assert actions + ActionsOf(script, r) == actions;
    case Then(m, rest) =>
      RunMore(p, base, table, actions, ActionOf(m, r));
      PlayedIsRun(p, base, table, actions + [ActionOf(m, r)], r, rest);
      assert actions + ActionsOf(script, r) == actions + [ActionOf(m, r)] + ActionsOf(rest, r);
  }

  /** A replica joins the fresh primary and then the script is played. */
  function Scene(r: Id, script: Script): seq<Action> {
    [Join(r)] + ActionsOf(script, r)
  }

  lemma {:induction false} SceneShows(p: Program, base: nat, table: Table, r: Id, script: Script)
    requires Play(p, Joined(base, table), script).Some?
    ensures Shows(Run(p, base, table, Scene(r, script)), r, Play(p, Joined(base, table), script).value)
  {
    JoinShows(p, base, table, r);
    PlayShows(p, Run(p, base, table, [Join(r)]), r, Joined(base, table), script);
    PlayedIsRun(p, base, table, [Join(r)], r, script);
  }
}
