/** How the operations on the primary's tablet number the entries of its log, and what that means for
    a replica that catches up later. */
module CatchUpRuns {
  import opened Text
  import opened Commands
  import opened Writes
  import opened WriteAheadLog
  import opened CheckpointFile
  import opened Tablet
  import opened TabletTexts
  import opened CatchUp

  // ---------------------------------------------------------------- a checkpoint with a queue

  predicate IndicesPositive(t: Tablet) {
    forall i :: 0 <= i < |t.queue| ==> t.queue[i].index >= 1
  }

  lemma {:induction false} RunIndices(f: Formats, th: Theory, run: seq<(Tablet, Promise)>, ops: seq<Op>, i: nat)
    requires IsRun(f, th, run, ops) && i < |run|
    ensures IndicesPositive(run[i].0)
    decreases i
  {
    if i > 0 {
      RunIndices(f, th, run, ops, i - 1);
      assert Apply(f, ops[i - 1], run[i - 1].0) == Some(run[i].0);
    }
  }

  /** The primary makes a checkpoint, flushes what was queued, executes a write and flushes again. */
  function Between(f: Formats, t: Tablet, batch: seq<(Key, string)>): Tablet {
    Flushed(f, Checkpointed(f, t, batch))
  }

  function Later(f: Formats, t: Tablet, batch: seq<(Key, string)>, command: string, number: nat): Option<Tablet> {
    match LoggedAndExecuted(f, Between(f, t, batch), command, number)
    case None => None
    case Some(u) => Some(Flushed(f, u))
  }

  lemma FilesAfterCheckpoint(t: Tablet, batch: seq<(Key, string)>, command: string, number: nat)
    requires t.active && Later(TEXTS, t, batch, command, number).Some?
    ensures Between(TEXTS, t, batch).log == FileText(t.number + 1, t.queue)
    ensures Later(TEXTS, t, batch, command, number).value.log ==
            FileText(t.number + 1, t.queue + [Item(1, command, number)])
  {
    var n, item := t.number + 1, Item(1, command, number);
    AppendedFile(n, [], t.queue);
    assert [] + t.queue == t.queue;
    assert [] + [item] == [item];
    AppendedFile(n, t.queue, [item]);
  }

  /** In every run of a tablet: a checkpoint is made while entries are queued, they are flushed, and a
      replica gets them. The next write starts at number 1 again, and that replica, whatever log
      sequence it has, will not get it: receiving the primary's log leaves it with another file. */
  lemma QueuedCheckpointStopsCatchUp(
      run: seq<(Tablet, Promise)>, ops: seq<Op>, batch: seq<(Key, string)>, command: string, number: nat, r: Replica)
    requires IsRun(TEXTS, COMMANDS, run, ops)
    requires var t := run[|ops|].0;
      && t.active && t.queue != [] && AllLoggable(t.queue) && Loggable(command)
      && Later(TEXTS, t, batch, command, number).Some?
      && r.number == t.number + 1 && r.log == Between(TEXTS, t, batch).log
      && Received(r, Later(TEXTS, t, batch, command, number).value.log).Some?
    ensures var log := Later(TEXTS, run[|ops|].0, batch, command, number).value.log;
      Received(r, log).value.log != log
  {
    RunIndices(TEXTS, COMMANDS, run, ops, |ops|);
    QueuedTabletStops(run[|ops|].0, batch, command, number, r);
  }

  lemma QueuedTabletStops(t: Tablet, batch: seq<(Key, string)>, command: string, number: nat, r: Replica)
    requires t.active && t.queue != [] && IndicesPositive(t) && AllLoggable(t.queue) && Loggable(command)
    requires Later(TEXTS, t, batch, command, number).Some?
    requires r.number == t.number + 1 && r.log == Between(TEXTS, t, batch).log
    requires Received(r, Later(TEXTS, t, batch, command, number).value.log).Some?
    ensures var log := Later(TEXTS, t, batch, command, number).value.log; Received(r, log).value.log != log
  {
    FilesAfterCheckpoint(t, batch, command, number);
    QueueThenOne(t.number + 1, t.queue, command, number, r);
  }

  /** Entries that were queued, and behind them one with number 1. */
  lemma QueueThenOne(n: nat, queue: seq<Item>, command: string, number: nat, r: Replica)
    requires queue != [] && queue[0].index >= 1 && AllLoggable(queue) && Loggable(command)
    requires r.number == n && r.log == FileText(n, queue)
    requires Received(r, FileText(n, queue + [Item(1, command, number)])).Some?
    ensures Received(r, FileText(n, queue + [Item(1, command, number)])).value.log !=
            FileText(n, queue + [Item(1, command, number)])
  {
    var items := queue + [Item(1, command, number)];
    assert items[..|queue|] == queue;
    FallingIndexIsNeverCaughtUp(r, n, items, |queue|, 0, |queue|);
  }

  /** Such a run, from a server that starts on empty files: it executes one write. */
  lemma {:induction false} QueuedRun(command: string, number: nat)
    returns (run: seq<(Tablet, Promise)>, ops: seq<Op>)
    requires Durable(command)
    ensures IsRun(TEXTS, COMMANDS, run, ops) && run[|ops|].0.active && run[|ops|].0.queue == [Item(1, command, number)]
  {
    ops := [Write(command, number)];
    WriteSucceeds(command, number);
    run := [START, (Apply(TEXTS, ops[0], FRESH).value, Promised(COMMANDS, ops[0], START.1))];
    FreshLoads();
  }

  const START: (Tablet, Promise) := (FRESH, Promise(map[], map[]))

  lemma WriteSucceeds(command: string, number: nat)
    requires Durable(command)
    ensures Apply(TEXTS, Write(command, number), FRESH).Some?
  {
    var only, none: seq<Op> := [START], [];
    assert IsRun(TEXTS, COMMANDS, only, none);
    ReaderIsLawful();
    NoOperationThrows(READER, only, none, Write(command, number));
  }

  lemma FreshLoads()
    ensures MessagesIn(StartedLog("")) == []
  {
    var none: seq<Item> := [];
    assert Messages(none) == [];
    ReadsStartedLog("", none);
  }

  // ---------------------------------------------------------------- checkpoints with an empty queue

  /** The file and the queue are numbered 1, 2, 3 and so on, and the sequence of a tablet in memory is
      the last number. */
  ghost predicate Numbered(th: Theory, t: Tablet, items: seq<Item>) {
    && th.isLog(t.log, items) && AllDurable(th, items) && AllDurable(th, t.queue) && WellNumbered(items + t.queue)
    && (t.log == "" ==> items == [])
    && (if t.active then t.log != "" && t.sequence == |items| + |t.queue| else t.sequence == 0 && t.queue == [])
  }

  ghost predicate KeepsNumbers(th: Theory, t: Tablet) {
    exists items :: Numbered(th, t, items)
  }

  lemma LoadNumbers(f: Formats, th: Theory, t: Tablet, items: seq<Item>)
    requires Lawful(f, th) && Numbered(th, t, items) && !t.active && Loaded(f, t).Some?
    ensures Numbered(th, Loaded(f, t).value, items)
  {
    MessagesCount(items);
    assert items + t.queue == items;
  }

  lemma LogNumbers(th: Theory, t: Tablet, items: seq<Item>, command: string, number: nat, table: Table)
    requires Numbered(th, t, items) && t.active && th.durable(command)
    ensures Numbered(th, Logged(t, command, number).(table := table), items)
  {
    var item := Item(t.sequence + 1, command, number);
    assert items + (t.queue + [item]) == (items + t.queue) + [item];
  }

  lemma FlushNumbers(f: Formats, th: Theory, t: Tablet, items: seq<Item>)
    requires Lawful(f, th) && Numbered(th, t, items)
    ensures Numbered(th, Flushed(f, t), items + t.queue)
  {
    assert (items + t.queue) + [] == items + t.queue;
    if t.log == "" { assert t.log + f.entries([]) == "" && items + t.queue == []; }
  }

  lemma WriteNumbers(f: Formats, th: Theory, t: Tablet, items: seq<Item>, command: string, number: nat)
    requires Lawful(f, th) && Numbered(th, t, items) && th.durable(command)
    requires LoggedAndExecuted(f, t, command, number).Some?
    ensures Numbered(th, LoggedAndExecuted(f, t, command, number).value, items)
  {
    var u := if t.active then t else Loaded(f, t).value;
    if !t.active { LoadNumbers(f, th, t, items); }
    LogNumbers(th, u, items, command, number, f.execute(command, u.table).value);
  }

  lemma CrashNumbers(th: Theory, t: Tablet, items: seq<Item>)
    requires Numbered(th, t, items)
    ensures Numbered(th, Crashed(t), items)
  {
    var none: seq<Item> := [];
    assert forall i :: 0 <= i < |items| ==> (items + t.queue)[i] == items[i];
    assert items + none == items;
  }

  lemma OpNumbers(f: Formats, th: Theory, op: Op, t: Tablet)
    requires Lawful(f, th) && KeepsNumbers(th, t) && Allowed(th, op, t) && Apply(f, op, t).Some?
    requires op.Checkpoint? || op.Clear? ==> t.queue == []
    ensures KeepsNumbers(th, Apply(f, op, t).value)
  {
    var items :| Numbered(th, t, items);
    var none: seq<Item> := [];
    match op
    case Write(command, number) =>
      WriteNumbers(f, th, t, items, command, number);
    case Flush => FlushNumbers(f, th, t, items);
    case Checkpoint(batch) => assert Numbered(th, Checkpointed(f, t, batch), none);
    case Clear(batch) => assert Numbered(th, Cleared(f, t, batch), none);
    case Load => LoadNumbers(f, th, t, items);
    case Crash => CrashNumbers(th, t, items);
  }

  predicate FlushedFirst(run: seq<(Tablet, Promise)>, ops: seq<Op>)
    requires |run| == |ops| + 1
  {
    forall i :: 0 <= i < |ops| && (ops[i].Checkpoint? || ops[i].Clear?) ==> run[i].0.queue == []
  }

  lemma {:induction false} RunNumbers(f: Formats, th: Theory, run: seq<(Tablet, Promise)>, ops: seq<Op>, i: nat)
    requires IsRun(f, th, run, ops) && Lawful(f, th) && FlushedFirst(run, ops) && i < |run|
    ensures KeepsNumbers(th, run[i].0)
    decreases i
  {
    if i == 0 {
      var none: seq<Item> := [];
      assert none + none == none;
      assert Numbered(th, FRESH, none);
    } else {
      RunNumbers(f, th, run, ops, i - 1);
      OpNumbers(f, th, ops[i - 1], run[i - 1].0);
    }
  }

  lemma NumberedReplica(r: Replica, n: nat, items: seq<Item>, k: nat)
    requires AllLoggable(items) && WellNumbered(items) && k <= |items|
    requires r.number == n && r.sequence == k && r.log == FileText(n, items[..k])
    requires Received(r, FileText(n, items)).Some?
    ensures Received(r, FileText(n, items)).value.log == FileText(n, items)
    ensures Received(r, FileText(n, items)).value.sequence == |items|
  {
    CatchUpIff(r, n, items, k);
    ReceivedItems(r, n, items);
    NumberedCut(items, k);
  }

  lemma {:induction false} NumberedFile(run: seq<(Tablet, Promise)>, ops: seq<Op>) returns (n: nat, items: seq<Item>)
    requires IsRun(TEXTS, COMMANDS, run, ops) && FlushedFirst(run, ops) && run[|ops|].0.log != ""
    ensures run[|ops|].0.log == FileText(n, items) && WellNumbered(items)
  {
    ServersAreLawful();
    RunNumbers(TEXTS, COMMANDS, run, ops, |ops|);
    n, items := NumberedText(run[|ops|].0);
  }

  lemma {:induction false} NumberedText(t: Tablet) returns (n: nat, items: seq<Item>)
    requires KeepsNumbers(COMMANDS, t) && t.log != ""
    ensures t.log == FileText(n, items) && WellNumbered(items)
  {
    items :| Numbered(COMMANDS, t, items);
    n :| t.log == FileText(n, items);
    assert forall i :: 0 <= i < |items| ==> (items + t.queue)[i] == items[i];
  }

  /** In every run in which each checkpoint and eviction finds an empty queue, the entries of the log
      file are numbered 1, 2, 3 and so on, so a replica that has the first k of them and stands at k
      ends with the primary's file and sequence. */
  lemma {:induction false} FlushedCheckpointsCatchUp(run: seq<(Tablet, Promise)>, ops: seq<Op>, r: Replica, k: nat)
    returns (n: nat, items: seq<Item>)
    requires IsRun(TEXTS, COMMANDS, run, ops) && FlushedFirst(run, ops) && run[|ops|].0.log != ""
    ensures run[|ops|].0.log == FileText(n, items) && WellNumbered(items)
    ensures var log := run[|ops|].0.log;
      AllLoggable(items) && k <= |items| && r == Replica(FileText(n, items[..k]), n, k, r.active, r.table)
        && Received(r, log).Some? ==>
        Received(r, log).value.log == log && Received(r, log).value.sequence == |items|
  {
    n, items := NumberedFile(run, ops);
    if AllLoggable(items) && k <= |items| && r == Replica(FileText(n, items[..k]), n, k, r.active, r.table)
      && Received(r, FileText(n, items)).Some? {
      NumberedReplica(r, n, items, k);
    }
  }
}
