/** The coordinator: which storage servers are alive, which are paused, and which one is the
    primary of each partition. */
module Coordinator {
  import opened Collections
  import opened Text

  /** partition_info, alive_servers, paused_servers and primary_server. A partition that is missing
      from the middle two has the empty set; a missing primary is not the same as the primary "". */
  datatype State = State(
    partitionOf: map<string, nat>,
    alive: map<nat, set<string>>,
    paused: map<nat, set<string>>,
    primary: map<nat, string>)
  {
    function AliveIn(p: nat): set<string> { if p in alive then alive[p] else {} }
    function PausedIn(p: nat): set<string> { if p in paused then paused[p] else {} }
    function Eligible(p: nat): set<string> { AliveIn(p) - PausedIn(p) }
  }

  // ---------------------------------------------------------------- choosing

  /** What choose_random_server tests before it draws. */
  predicate GivesUp(s: State, p: nat) {
    s.AliveIn(p) == {} || |s.AliveIn(p)| == |s.PausedIn(p)|
  }

  /** A possible result of choose_random_server, "" for no server. */
  predicate MayChoose(s: State, p: nat, r: string) {
    if GivesUp(s, p) then r == "" else r in s.Eligible(p)
  }

  // ---------------------------------------------------------------- events

  datatype Event = Join(server: string) | Fail(server: string) | Stop(server: string) | Start(server: string)

  /** primary_server[p], which records "" for a partition that is missing. */
  function Looked(s: State, p: nat): State {
    if p in s.primary then s else s.(primary := s.primary[p := ""])
  }

  /** Records a new primary, or none. */
  function Elected(s: State, p: nat, r: string): State {
    if r == "" then s.(primary := s.primary - {p}) else s.(primary := s.primary[p := r])
  }

  /** Whether the event chooses a primary, in the state in which it does. */
  predicate Chooses(s: State, e: Event)
    requires e.server in s.partitionOf
  {
    var p := s.partitionOf[e.server];
    match e
    case Join(x) => x !in s.AliveIn(p) && p !in s.primary
    case Fail(x) => p in s.primary && s.primary[p] == x
    case Stop(x) => x !in s.PausedIn(p) && p in s.primary && s.primary[p] == x
    case Start(x) => x in s.PausedIn(p) && p !in s.primary
  }

  /** The state in which it chooses. */
  function Changed(s: State, e: Event): State
    requires e.server in s.partitionOf
  {
    var p := s.partitionOf[e.server];
    match e
    case Join(x) => s.(alive := s.alive[p := s.AliveIn(p) + {x}])
    case Fail(x) => Looked(s.(alive := s.alive[p := s.AliveIn(p) - {x}]), p)
    case Stop(x) => if x in s.PausedIn(p) then s else Looked(s.(paused := s.paused[p := s.PausedIn(p) + {x}]), p)
    case Start(x) => s.(paused := s.paused[p := s.PausedIn(p) - {x}])
  }

  /** The effect of the event, r being the chosen server if it chooses one. A failed primary
      without a successor takes the whole partition out of the set of alive servers; a join
      records the choice even if there is none. */
  function After(s: State, e: Event, r: string): State
    requires e.server in s.partitionOf
  {
    var p := s.partitionOf[e.server];
    var c := Changed(s, e);
    if !Chooses(s, e) then c
    else if e.Join? then c.(primary := c.primary[p := r])
    else if e.Fail? && r == "" then Elected(c, p, "").(alive := c.alive - {p})
    else Elected(c, p, r)
  }

  /** One event of a registered server. There is no successor if choosing never ends. */
  ghost predicate Step(s: State, e: Event, t: State) {
    e.server in s.partitionOf &&
    exists r :: (Chooses(s, e) ==> MayChoose(Changed(s, e), s.partitionOf[e.server], r)) && t == After(s, e, r)
  }

  /** Where an event is left while choosing goes on: the change is made and nothing was chosen. A draw
      fails only if it hits a server that is alive and paused. */
  predicate StillChoosing(s: State, e: Event, draws: nat, t: State) {
    && e.server in s.partitionOf && Chooses(s, e) && t == Changed(s, e)
    && DrawsMayFail(t, s.partitionOf[e.server], draws)
  }

  predicate DrawsMayFail(s: State, p: nat, draws: nat) {
    !GivesUp(s, p) && (draws == 0 || s.AliveIn(p) * s.PausedIn(p) != {})
  }

  // ---------------------------------------------------------------- the program

  class Server {
    const partitionOf: map<string, nat>
    var alive: map<nat, set<string>>
    var paused: map<nat, set<string>>
    var primary: map<nat, string>

    ghost function View(): State
      reads this
    {
      State(partitionOf, alive, paused, primary)
    }

    constructor (partitionOf: map<string, nat>)
      ensures View() == State(partitionOf, map[], map[], map[])
    {
      this.partitionOf := partitionOf;
      alive, paused, primary := map[], map[], map[];
    }

    /** choose_random_server; None if none of the draws hit a server that is not paused. */
    method ChooseRandomServer(p: nat, draws: nat) returns (r: Option<string>)
      ensures GivesUp(View(), p) ==> r == Some("")
      ensures r.Some? ==> MayChoose(View(), p, r.value)
      ensures !GivesUp(View(), p) && View().Eligible(p) == {} ==> r == None
      ensures r == None ==> DrawsMayFail(View(), p, draws)
    {
      if p !in alive { return Some(""); }
      var servers := alive[p];
      if servers == {} { return Some(""); }
      var stopped := if p in paused then paused[p] else {};
      if |servers| == |stopped| { return Some(""); }
      for i := 0 to draws
        invariant i == 0 || servers * stopped != {}
      {
        var server :| server in servers;
        if server in stopped {
          assert server in servers * stopped;
          continue;
        }
        return Some(server);
      }
      r := None;
    }

    /** handle_server_failure; done is false while choosing goes on. */
    method HandleServerFailure(x: string, draws: nat) returns (done: bool)
      requires x in partitionOf && x != ""
      modifies this
      ensures done ==> Step(old(View()), Fail(x), View())
      ensures !done ==> StillChoosing(old(View()), Fail(x), draws, View())
    {
      var p := partitionOf[x];
      ghost var before := View();
      alive := alive[p := (if p in alive then alive[p] else {}) - {x}];
      if p !in primary { primary := primary[p := ""]; }
      assert View() == Changed(before, Fail(x));
      if primary[p] == x {
        var r := ChooseRandomServer(p, draws);
        if r == None { return false; }
        if r.value == "" {
          alive := alive - {p};
          primary := primary - {p};
        } else {
          primary := primary[p := r.value];
        }
        assert View() == After(before, Fail(x), r.value);
      } else {
        assert View() == After(before, Fail(x), "");
      }
      done := true;
    }

    /** The STOP request; done is false while choosing goes on. */
    method StopServer(x: string, draws: nat) returns (done: bool, ok: bool)
      requires "" !in partitionOf
      modifies this
      ensures done && ok ==>
                x in partitionOf && x !in old(View()).PausedIn(partitionOf[x]) && Step(old(View()), Stop(x), View())
      ensures done && !ok ==> View() == old(View()) && (x in partitionOf ==> x in View().PausedIn(partitionOf[x]))
      ensures !done ==> ok && StillChoosing(old(View()), Stop(x), draws, View())
    {
      if x !in partitionOf { return true, false; }
      var p := partitionOf[x];
      var stopped := if p in paused then paused[p] else {};
      if x in stopped { return true, false; }
      ghost var before := View();
      paused := paused[p := stopped + {x}];
      if p !in primary { primary := primary[p := ""]; }
      assert View() == Changed(before, Stop(x));
      ok := true;
      if primary[p] == x {
        var r := ChooseRandomServer(p, draws);
        if r == None { return false, ok; }
        primary := if r.value == "" then primary - {p} else primary[p := r.value];
        assert View() == After(before, Stop(x), r.value);
      } else {
        assert View() == After(before, Stop(x), "");
      }
      done := true;
    }

    /** The START request; done is false while choosing goes on. */
    method StartServer(x: string, draws: nat) returns (done: bool, ok: bool)
      requires "" !in partitionOf
      modifies this
      ensures done && ok ==>
                x in partitionOf && x in old(View()).PausedIn(partitionOf[x]) && Step(old(View()), Start(x), View())
      ensures done && !ok ==> View() == old(View()) && (x in partitionOf ==> x !in View().PausedIn(partitionOf[x]))
      ensures !done ==> ok && StillChoosing(old(View()), Start(x), draws, View())
    {
      if x !in partitionOf { return true, false; }
      var p := partitionOf[x];
      var stopped := if p in paused then paused[p] else {};
      if x !in stopped { return true, false; }
      ghost var before := View();
      paused := paused[p := stopped - {x}];
      assert View() == Changed(before, Start(x));
      ok := true;
      if p !in primary {
        var r := ChooseRandomServer(p, draws);
        if r == None { return false, ok; }
        primary := if r.value == "" then primary - {p} else primary[p := r.value];
        assert View() == After(before, Start(x), r.value);
      } else {
        assert View() == After(before, Start(x), "");
      }
      done := true;
    }

    /** A new heartbeat connection of a registered server; done is false while choosing goes on. */
    method JoinServer(x: string, draws: nat) returns (done: bool)
      requires x in partitionOf
      modifies this
      ensures done ==> Step(old(View()), Join(x), View())
      ensures !done ==> StillChoosing(old(View()), Join(x), draws, View())
    {
      var p := partitionOf[x];
      ghost var before := View();
      var servers := if p in alive then alive[p] else {};
      alive := alive[p := servers + {x}];
      assert View() == Changed(before, Join(x));
      if x !in servers && p !in primary {
        var r := ChooseRandomServer(p, draws);
        if r == None { return false; }
        primary := primary[p := r.value];
        assert View() == After(before, Join(x), r.value);
      } else {
        assert View() == After(before, Join(x), "");
      }
      done := true;
    }
  }

  // ---------------------------------------------------------------- the recorded primary

  predicate AliveRegistered(s: State) {
    forall p :: p in s.alive ==> forall x :: x in s.alive[p] ==> x in s.partitionOf && s.partitionOf[x] == p
  }

  predicate PrimariesEligible(s: State) {
    forall p :: p in s.primary && s.primary[p] != "" ==> s.primary[p] in s.Eligible(p)
  }

  /** Alive servers are registered to their partition; a recorded primary that is not "" is alive
      there and not paused. */
  predicate Valid(s: State) {
    "" !in s.partitionOf && AliveRegistered(s) && PrimariesEligible(s)
  }

  lemma StepKeepsAlive(s: State, e: Event, r: string)
    requires AliveRegistered(s) && e.server in s.partitionOf
    ensures AliveRegistered(After(s, e, r)) && After(s, e, r).partitionOf == s.partitionOf
  {
  }

  lemma JoinKeepsPrimaries(s: State, x: string, r: string)
    requires PrimariesEligible(s) && x in s.partitionOf && x != ""
    requires Chooses(s, Join(x)) ==> MayChoose(Changed(s, Join(x)), s.partitionOf[x], r)
    ensures PrimariesEligible(After(s, Join(x), r))
  {
  }

  lemma FailKeepsPrimaries(s: State, x: string, r: string)
    requires PrimariesEligible(s) && x in s.partitionOf && x != ""
    requires Chooses(s, Fail(x)) ==> MayChoose(Changed(s, Fail(x)), s.partitionOf[x], r)
    ensures PrimariesEligible(After(s, Fail(x), r))
  {
  }

  lemma StopKeepsPrimaries(s: State, x: string, r: string)
    requires PrimariesEligible(s) && x in s.partitionOf && x != ""
    requires Chooses(s, Stop(x)) ==> MayChoose(Changed(s, Stop(x)), s.partitionOf[x], r)
    ensures PrimariesEligible(After(s, Stop(x), r))
  {
  }

  lemma StartKeepsPrimaries(s: State, x: string, r: string)
    requires PrimariesEligible(s) && x in s.partitionOf && x != ""
    requires Chooses(s, Start(x)) ==> MayChoose(Changed(s, Start(x)), s.partitionOf[x], r)
    ensures PrimariesEligible(After(s, Start(x), r))
  {
  }

  lemma StepKeepsValid(s: State, e: Event, t: State)
    requires Valid(s) && Step(s, e, t)
    ensures Valid(t) && t.partitionOf == s.partitionOf
  {
    var r :| (Chooses(s, e) ==> MayChoose(Changed(s, e), s.partitionOf[e.server], r)) && t == After(s, e, r);
    StepKeepsAlive(s, e, r);
    match e
    case Join(x) => JoinKeepsPrimaries(s, x, r);
    case Fail(x) => FailKeepsPrimaries(s, x, r);
    case Stop(x) => StopKeepsPrimaries(s, x, r);
    case Start(x) => StartKeepsPrimaries(s, x, r);
  }

  ghost predicate IsRun(run: seq<State>, events: seq<Event>) {
    && |run| == |events| + 1
    && "" !in run[0].partitionOf && run[0] == State(run[0].partitionOf, map[], map[], map[])
    && forall i :: 0 <= i < |events| ==> Step(run[i], events[i], run[i + 1])
  }

  /** After any sequence of joins, failures, STOPs and STARTs a recorded primary, unless it is "",
      is registered to its partition, alive and not paused. */
  lemma {:induction false} PrimaryIsValid(run: seq<State>, events: seq<Event>, i: nat)
    requires IsRun(run, events) && i < |run|
    ensures Valid(run[i])
    decreases i
  {
    if i > 0 {
      PrimaryIsValid(run, events, i - 1);
      StepKeepsValid(run[i - 1], events[i - 1], run[i]);
    }
  }

  // ---------------------------------------------------------------- the size comparison

  /** Choosing does what it is for: an eligible server if there is one, "" if there is none. */
  ghost predicate ChoosesRight(s: State, p: nat) {
    forall r :: MayChoose(s, p, r) <==> if s.Eligible(p) == {} then r == "" else r in s.Eligible(p)
  }

  /** The comparison of sizes stands for "all alive servers are paused": choosing is right, and
      ends, exactly when no server is alive or the sizes are equal just when that is so. */
  lemma ChoosesRightIff(s: State, p: nat)
    requires Valid(s)
    ensures ChoosesRight(s, p) <==>
            s.AliveIn(p) == {} || (|s.AliveIn(p)| == |s.PausedIn(p)| <==> s.AliveIn(p) <= s.PausedIn(p))
  {
    forall x | x in s.AliveIn(p) ensures x in s.PausedIn(p) <==> x !in s.Eligible(p) {
    }
    if GivesUp(s, p) {
      assert MayChoose(s, p, "");
      if s.Eligible(p) != {} {
        assert "" !in s.Eligible(p);
      }
    } else if s.Eligible(p) == {} {
      assert !MayChoose(s, p, "");
    }
  }

  /** It is right whenever every paused server is alive. */
  lemma PausedAliveChoosesRight(s: State, p: nat)
    requires Valid(s) && s.PausedIn(p) <= s.AliveIn(p)
    ensures ChoosesRight(s, p)
  {
    ChoosesRightIff(s, p);
    SubsetSize(s.PausedIn(p), s.AliveIn(p));
    if s.AliveIn(p) <= s.PausedIn(p) { SubsetSize(s.AliveIn(p), s.PausedIn(p)); }
  }

  /** Not a STOP of a server that is not alive, not the failure of a paused server, and not that of
      a primary that leaves only paused servers. */
  predicate LeavesPausedAlive(s: State, e: Event)
    requires e.server in s.partitionOf
  {
    var p := s.partitionOf[e.server];
    match e
    case Join(_) => true
    case Start(_) => true
    case Stop(x) => x in s.PausedIn(p) || x in s.AliveIn(p)
    case Fail(x) =>
      && x !in s.PausedIn(p)
      && !(Chooses(s, e) && s.PausedIn(p) != {} && s.AliveIn(p) == s.PausedIn(p) + {x})
  }

  /** One event leaves a partition's paused servers alive exactly when it does not stop a server
      that is not alive, is not the failure of a paused server, and is not the failure of a primary
      that leaves only paused servers. */
  lemma PausedStaysAliveIff(s: State, e: Event, t: State)
    requires Valid(s) && Step(s, e, t)
    requires s.PausedIn(s.partitionOf[e.server]) <= s.AliveIn(s.partitionOf[e.server])
    ensures t.PausedIn(s.partitionOf[e.server]) <= t.AliveIn(s.partitionOf[e.server]) <==> LeavesPausedAlive(s, e)
  {
    var r :| (Chooses(s, e) ==> MayChoose(Changed(s, e), s.partitionOf[e.server], r)) && t == After(s, e, r);
    if e.Fail? && Chooses(s, e) { PrimaryFails(s, e.server, r); }
  }

  /** The failure of the primary: there is no successor exactly when all others are paused. */
  lemma PrimaryFails(s: State, x: string, r: string)
    requires Valid(s) && x in s.partitionOf && Chooses(s, Fail(x))
    requires MayChoose(Changed(s, Fail(x)), s.partitionOf[x], r)
    requires s.PausedIn(s.partitionOf[x]) <= s.AliveIn(s.partitionOf[x])
    ensures x !in s.PausedIn(s.partitionOf[x])
    ensures r == "" <==> s.AliveIn(s.partitionOf[x]) == s.PausedIn(s.partitionOf[x]) + {x}
  {
    var p := s.partitionOf[x];
    var left := s.AliveIn(p) - {x};
    assert x in s.Eligible(p);
    SubsetSize(s.PausedIn(p), left);
    assert Changed(s, Fail(x)).AliveIn(p) == left && Changed(s, Fail(x)).PausedIn(p) == s.PausedIn(p);
    assert left == {} ==> s.PausedIn(p) == {};
    assert left == s.PausedIn(p) <==> s.AliveIn(p) == s.PausedIn(p) + {x};
  }

  lemma OtherPartitionsStay(s: State, e: Event, t: State, q: nat)
    requires Step(s, e, t) && q != s.partitionOf[e.server]
    ensures t.AliveIn(q) == s.AliveIn(q) && t.PausedIn(q) == s.PausedIn(q)
  {
    var r :| (Chooses(s, e) ==> MayChoose(Changed(s, e), s.partitionOf[e.server], r)) && t == After(s, e, r);
    OthersAfter(s, e, r, q);
  }

  lemma OthersAfter(s: State, e: Event, r: string, q: nat)
    requires e.server in s.partitionOf && q != s.partitionOf[e.server]
    ensures After(s, e, r).AliveIn(q) == s.AliveIn(q) && After(s, e, r).PausedIn(q) == s.PausedIn(q)
    ensures Recorded(After(s, e, r), q) == Recorded(s, q)
  {
  }

  /** In a run of such events only, choosing is right for every partition at every moment. */
  lemma {:induction false} OrderlyRunsChooseRight(run: seq<State>, events: seq<Event>, i: nat, p: nat)
    requires IsRun(run, events) && i < |run|
    requires forall j :: 0 <= j < |events| ==>
               events[j].server in run[j].partitionOf && LeavesPausedAlive(run[j], events[j])
    ensures run[i].PausedIn(p) <= run[i].AliveIn(p) && ChoosesRight(run[i], p)
    decreases i
  {
    PrimaryIsValid(run, events, i);
    if i > 0 {
      var s, e := run[i - 1], events[i - 1];
      OrderlyRunsChooseRight(run, events, i - 1, p);
      PrimaryIsValid(run, events, i - 1);
      if p == s.partitionOf[e.server] {
        PausedStaysAliveIff(s, e, run[i]);
      } else {
        OtherPartitionsStay(s, e, run[i], p);
      }
    }
    PausedAliveChoosesRight(run[i], p);
  }

  // ---------------------------------------------------------------- what an event changes

  /** The failure of the primary that leaves nobody to choose, as far as the size test sees. */
  predicate LeavesNobody(s: State, x: string)
    requires x in s.partitionOf
  {
    var p := s.partitionOf[x];
    var left := s.AliveIn(p) - {x};
    p in s.primary && s.primary[p] == x && (left == {} || |left| == |s.PausedIn(p)|)
  }

  /** Which servers are alive and paused in the event's partition before and after it. */
  predicate MembersChange(s: State, e: Event, t: State)
    requires e.server in s.partitionOf
  {
    var p := s.partitionOf[e.server];
    match e
    case Join(x) => t.AliveIn(p) == s.AliveIn(p) + {x} && t.PausedIn(p) == s.PausedIn(p)
    case Fail(x) =>
      && t.AliveIn(p) == (if LeavesNobody(s, x) then {} else s.AliveIn(p) - {x})
      && t.PausedIn(p) == s.PausedIn(p)
    case Stop(x) => t.AliveIn(p) == s.AliveIn(p) && t.PausedIn(p) == s.PausedIn(p) + {x}
    case Start(x) => t.AliveIn(p) == s.AliveIn(p) && t.PausedIn(p) == s.PausedIn(p) - {x}
  }

  function Recorded(s: State, p: nat): Option<string> {
    if p in s.primary then Some(s.primary[p]) else None
  }

  /** The recorded primary is one that may be: alive and not paused. */
  predicate HasPrimary(s: State, p: nat) {
    p in s.primary && s.primary[p] in s.Eligible(p)
  }

  /** Which primary is recorded afterwards: a choice falls on a server that is alive and not paused
      then, and fails only by the size test; without a choice the record stays, but that a failure
      and a STOP look it up records "" where there was none. */
  predicate PrimaryChange(s: State, e: Event, t: State)
    requires e.server in s.partitionOf
  {
    var p := s.partitionOf[e.server];
    match e
    case Join(x) =>
      if x in s.AliveIn(p) || p in s.primary then Recorded(t, p) == Recorded(s, p)
      else if GivesUp(t, p) then Recorded(t, p) == Some("") else HasPrimary(t, p)
    case Fail(x) =>
      if LeavesNobody(s, x) then Recorded(t, p) == None
      else if Recorded(s, p) == Some(x) then HasPrimary(t, p)
      else Recorded(t, p) == if p in s.primary then Recorded(s, p) else Some("")
    case Stop(x) =>
      if x in s.PausedIn(p) then Recorded(t, p) == Recorded(s, p)
      else if Recorded(s, p) != Some(x) then Recorded(t, p) == if p in s.primary then Recorded(s, p) else Some("")
      else if GivesUp(t, p) then Recorded(t, p) == None else HasPrimary(t, p)
    case Start(x) =>
      if p in s.primary || x !in s.PausedIn(p) then Recorded(t, p) == Recorded(s, p)
      else if GivesUp(t, p) then Recorded(t, p) == None else HasPrimary(t, p)
  }

  predicate Changes(s: State, e: Event, t: State)
    requires e.server in s.partitionOf
  {
    t.partitionOf == s.partitionOf && MembersChange(s, e, t) && PrimaryChange(s, e, t)
  }

  /** Every event puts its server where it says, and no other, and the record of the primary is as
      above; other partitions are not touched. */
  lemma EventChanges(s: State, e: Event, t: State)
    requires Valid(s) && Step(s, e, t)
    ensures Changes(s, e, t)
  {
    var r :| (Chooses(s, e) ==> MayChoose(Changed(s, e), s.partitionOf[e.server], r)) && t == After(s, e, r);
    match e
    case Join(x) => JoinChanges(s, x, r);
    case Fail(x) => FailChanges(s, x, r);
    case Stop(x) => StopChanges(s, x, r);
    case Start(x) => StartChanges(s, x, r);
  }

  lemma EventElsewhere(s: State, e: Event, t: State, q: nat)
    requires Step(s, e, t) && q != s.partitionOf[e.server]
    ensures t.AliveIn(q) == s.AliveIn(q) && t.PausedIn(q) == s.PausedIn(q) && Recorded(t, q) == Recorded(s, q)
  {
    var r :| (Chooses(s, e) ==> MayChoose(Changed(s, e), s.partitionOf[e.server], r)) && t == After(s, e, r);
    OthersAfter(s, e, r, q);
  }

  lemma JoinChanges(s: State, x: string, r: string)
    requires x in s.partitionOf && x != "" && Valid(s)
    requires Chooses(s, Join(x)) ==> MayChoose(Changed(s, Join(x)), s.partitionOf[x], r)
    ensures Changes(s, Join(x), After(s, Join(x), r))
  {
  }

  lemma FailChanges(s: State, x: string, r: string)
    requires x in s.partitionOf && x != "" && Valid(s)
    requires Chooses(s, Fail(x)) ==> MayChoose(Changed(s, Fail(x)), s.partitionOf[x], r)
    ensures Changes(s, Fail(x), After(s, Fail(x), r))
  {
    assert Changed(s, Fail(x)).AliveIn(s.partitionOf[x]) == s.AliveIn(s.partitionOf[x]) - {x};
  }

  lemma StopChanges(s: State, x: string, r: string)
    requires x in s.partitionOf && x != "" && Valid(s)
    requires Chooses(s, Stop(x)) ==> MayChoose(Changed(s, Stop(x)), s.partitionOf[x], r)
    ensures Changes(s, Stop(x), After(s, Stop(x), r))
  {
    if x in s.PausedIn(s.partitionOf[x]) { assert s.PausedIn(s.partitionOf[x]) + {x} == s.PausedIn(s.partitionOf[x]); }
  }

  lemma StartChanges(s: State, x: string, r: string)
    requires x in s.partitionOf && x != "" && Valid(s)
    requires Chooses(s, Start(x)) ==> MayChoose(Changed(s, Start(x)), s.partitionOf[x], r)
    ensures Changes(s, Start(x), After(s, Start(x), r))
  {
  }

  /** At every moment of every run: START of a paused server that is alive gives its partition a
      primary if it had none and every paused server is alive. */
  lemma StartElects(run: seq<State>, events: seq<Event>, i: nat, x: string)
    requires IsRun(run, events) && i < |events| && events[i] == Start(x)
    requires x in run[i].partitionOf
    requires var s, p := run[i], run[i].partitionOf[x];
      x in s.AliveIn(p) && x in s.PausedIn(p) && s.PausedIn(p) <= s.AliveIn(p) && p !in s.primary
    ensures x in run[i + 1].Eligible(run[i].partitionOf[x]) && HasPrimary(run[i + 1], run[i].partitionOf[x])
  {
    var p := run[i].partitionOf[x];
    PrimaryIsValid(run, events, i);
    RunStep(run, events, i);
    EventChanges(run[i], events[i], run[i + 1]);
    ProperSubsetSize(run[i + 1].PausedIn(p), run[i + 1].AliveIn(p), x);
  }

  lemma ProperSubsetSize(a: set<string>, b: set<string>, x: string)
    requires a <= b && x in b && x !in a
    ensures |a| < |b|
  {
    SubsetSize(a, b - {x});
  }

  // ---------------------------------------------------------------- who is paused, who is alive

  /** The last STOP or START of the server is a STOP. */
  predicate LastStopped(events: seq<Event>, x: string) {
    events != [] &&
    var e := events[|events| - 1];
    if e == Stop(x) then true else if e == Start(x) then false else LastStopped(events[..|events| - 1], x)
  }

  /** The last JOIN or failure of the server is a JOIN, and since then no primary of its partition
      failed that left nobody to choose. */
  predicate LastJoined(run: seq<State>, events: seq<Event>, x: string)
    requires |run| >= |events|
    requires forall i :: 0 <= i < |events| ==> events[i].server in run[i].partitionOf
    requires forall i :: 0 <= i < |events| ==> x in run[i].partitionOf
    decreases |events|
  {
    events != [] &&
    var n := |events| - 1;
    var e := events[n];
    if e == Join(x) then true
    else if e == Fail(x) then false
    else if e.Fail? && LeavesNobody(run[n], e.server) && run[n].partitionOf[e.server] == run[n].partitionOf[x]
    then false
    else LastJoined(run, events[..n], x)
  }

  lemma {:induction false} RunConfig(run: seq<State>, events: seq<Event>, i: nat)
    requires IsRun(run, events) && i < |run|
    ensures run[i].partitionOf == run[0].partitionOf
    decreases i
  {
    if i > 0 {
      RunConfig(run, events, i - 1);
      PrimaryIsValid(run, events, i - 1);
      RunStep(run, events, i - 1);
      StepKeepsValid(run[i - 1], events[i - 1], run[i]);
    }
  }

  /** At every moment of every run a registered server is paused if and only if it was stopped and
      not started since. */
  lemma {:induction false} PausedIffStopped(run: seq<State>, events: seq<Event>, i: nat, x: string)
    requires IsRun(run, events) && i < |run| && x in run[0].partitionOf
    ensures x in run[i].PausedIn(run[0].partitionOf[x]) <==> LastStopped(events[..i], x)
    decreases i
  {
    var p := run[0].partitionOf[x];
    if i > 0 {
      var s, e, t := run[i - 1], events[i - 1], run[i];
      PausedIffStopped(run, events, i - 1, x);
      RunConfig(run, events, i - 1);
      PrimaryIsValid(run, events, i - 1);
      RunStep(run, events, i - 1);
      assert events[..i][..i - 1] == events[..i - 1];
      if s.partitionOf[e.server] == p { EventChanges(s, e, t); } else { EventElsewhere(s, e, t, p); }
    }
  }

  /** And alive if and only if it joined, has not failed since, and its partition was not given up
      since. */
  lemma {:induction false} AliveIffJoined(run: seq<State>, events: seq<Event>, i: nat, x: string)
    requires IsRun(run, events) && i < |run| && x in run[0].partitionOf
    ensures forall j :: 0 <= j < i ==> events[j].server in run[j].partitionOf && x in run[j].partitionOf
    ensures x in run[i].AliveIn(run[0].partitionOf[x]) <==> LastJoined(run, events[..i], x)
    decreases i
  {
    var p := run[0].partitionOf[x];
    if i > 0 {
      var s, e, t := run[i - 1], events[i - 1], run[i];
      AliveIffJoined(run, events, i - 1, x);
      RunConfig(run, events, i - 1);
      PrimaryIsValid(run, events, i - 1);
      RunStep(run, events, i - 1);
      assert events[..i][..i - 1] == events[..i - 1];
      if s.partitionOf[e.server] == p { EventChanges(s, e, t); } else { EventElsewhere(s, e, t, p); }
    }
  }

  // ---------------------------------------------------------------- the recorded ""

  predicate RecordsNone(s: State, p: nat) { p in s.primary && s.primary[p] == "" }

  /** A partition whose recorded primary is "" keeps it: no event ever chooses for it again. */
  lemma NoneIsForGood(s: State, e: Event, t: State, p: nat)
    requires "" !in s.partitionOf && Step(s, e, t) && RecordsNone(s, p)
    ensures RecordsNone(t, p) && t.partitionOf == s.partitionOf
  {
    var r :| (Chooses(s, e) ==> MayChoose(Changed(s, e), s.partitionOf[e.server], r)) && t == After(s, e, r);
    NoneAfter(s, e, r, p);
  }

  lemma NoneAfter(s: State, e: Event, r: string, p: nat)
    requires e.server in s.partitionOf && e.server != "" && RecordsNone(s, p)
    ensures RecordsNone(After(s, e, r), p) && After(s, e, r).partitionOf == s.partitionOf
  {
  }

  /** Each state leads to the next by the event between them. */
  lemma RunStep(run: seq<State>, events: seq<Event>, i: nat)
    requires IsRun(run, events) && i < |events|
    ensures Step(run[i], events[i], run[i + 1])
  {
  }

  lemma {:induction false} NoneIsForGoodInRuns(run: seq<State>, events: seq<Event>, p: nat, i: nat, j: nat)
    requires IsRun(run, events) && i <= j < |run| && RecordsNone(run[i], p)
    ensures RecordsNone(run[j], p) && "" !in run[j].partitionOf
    decreases j - i
  {
    if i == j {
      PrimaryIsValid(run, events, i);
    } else {
      NoneIsForGoodInRuns(run, events, p, i, j - 1);
      RunStep(run, events, j - 1);
      NoneIsForGood(run[j - 1], events[j - 1], run[j], p);
    }
  }

  predicate FindsNone(s: State, e: Event)
    requires e.server in s.partitionOf
  {
    var p := s.partitionOf[e.server];
    p !in s.primary &&
    match e
    case Start(_) => false
    case Fail(_) => true
    case Stop(x) => x !in s.PausedIn(p)
    case Join(x) => x !in s.AliveIn(p) && GivesUp(Changed(s, e), p)
  }

  /** How a partition gets there: by the failure or the STOP of a server, or by a join that finds
      nobody eligible, while the partition has no recorded primary. */
  lemma BecomesNoneIff(s: State, e: Event, t: State)
    requires Valid(s) && Step(s, e, t) && !RecordsNone(s, s.partitionOf[e.server])
    ensures RecordsNone(t, s.partitionOf[e.server]) <==> FindsNone(s, e)
  {
    var r :| (Chooses(s, e) ==> MayChoose(Changed(s, e), s.partitionOf[e.server], r)) && t == After(s, e, r);
    if Chooses(s, e) { ChoosesNoneIff(s, e, r); }
    RecordsNoneAfter(s, e, r);
  }

  lemma RecordsNoneAfter(s: State, e: Event, r: string)
    requires e.server in s.partitionOf && e.server != "" && !RecordsNone(s, s.partitionOf[e.server])
    requires Chooses(s, e) ==> (r == "" <==> GivesUp(Changed(s, e), s.partitionOf[e.server]))
    ensures RecordsNone(After(s, e, r), s.partitionOf[e.server]) <==> FindsNone(s, e)
  {
  }

  /** Only an exhausted partition yields "". */
  lemma ChoosesNoneIff(s: State, e: Event, r: string)
    requires Valid(s) && e.server in s.partitionOf && MayChoose(Changed(s, e), s.partitionOf[e.server], r)
    ensures r == "" <==> GivesUp(Changed(s, e), s.partitionOf[e.server])
  {
  }

  /** A single server that joins, is stopped and then fails: its partition never has a primary
      again, whatever joins or starts later. */
  lemma StoppedThenFailed(config: map<string, nat>, x: string)
    requires "" !in config && x in config
    ensures exists run: seq<State> ::
              IsRun(run, [Join(x), Stop(x), Fail(x)]) && run[0].partitionOf == config && RecordsNone(run[3], config[x])
  {
    var p := config[x];
    var s0 := State(config, map[], map[], map[]);
    var s1, s2 := After(s0, Join(x), x), After(After(s0, Join(x), x), Stop(x), "");
    var s3 := After(s2, Fail(x), "");
    assert x in Changed(s0, Join(x)).Eligible(p);
    assert Changed(s0, Join(x)).PausedIn(p) == {} && Changed(s0, Join(x)).AliveIn(p) == {x};
    assert MayChoose(Changed(s0, Join(x)), p, x);
    assert Step(s0, Join(x), s1);
    assert Changed(s1, Stop(x)).PausedIn(p) == {x} && Changed(s1, Stop(x)).AliveIn(p) == {x};
    assert MayChoose(Changed(s1, Stop(x)), p, "");
    assert Step(s1, Stop(x), s2);
    assert Step(s2, Fail(x), s3);
    var events := [Join(x), Stop(x), Fail(x)];
    assert IsRun([s0, s1, s2, s3], events);
  }
}
