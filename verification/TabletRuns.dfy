/** What a run of a tablet leaves besides the tables: which checkpoint the log file belongs to, what
    the server's counter knows of it, and whether the tablet is in memory. */
module TabletRuns {
  import opened Text
  import opened Commands
  import opened WriteAheadLog
  import opened CheckpointFile
  import opened Tablet
  import opened TabletTexts

  // ---------------------------------------------------------------- the operations that were made

  /** How many checkpoints were written, by evictions too. */
  function Checkpoints(ops: seq<Op>): nat {
    if ops == [] then 0
    else
      var op := ops[|ops| - 1];
      Checkpoints(ops[..|ops| - 1]) + if op.Checkpoint? || op.Clear? then 1 else 0
  }

  /** Since the last crash the log file was read or written anew. */
  predicate KnowsNumber(ops: seq<Op>) {
    ops != [] &&
    match ops[|ops| - 1]
    case Crash => false
    case Flush => KnowsNumber(ops[..|ops| - 1])
    case _ => true
  }

  /** The last operation that brings the tablet into memory or out of it brought it in. */
  predicate InMemory(ops: seq<Op>) {
    ops != [] &&
    match ops[|ops| - 1]
    case Write(_, _) => true
    case Load => true
    case Clear(_) => false
    case Crash => false
    case _ => InMemory(ops[..|ops| - 1])
  }

  lemma {:induction false} InMemoryKnows(ops: seq<Op>)
    requires InMemory(ops)
    ensures KnowsNumber(ops)
  {
    if ops[|ops| - 1].Flush? { InMemoryKnows(ops[..|ops| - 1]); }
  }

  // ---------------------------------------------------------------- laws

  /** The number on a log's first line is read back, and stays when the log is started again or
      entries are appended. */
  ghost predicate NumbersAreKept(f: Formats, th: Theory) {
    && (forall n :: f.numberIn(f.started(f.firstLine(n))) == n)
    && (forall log :: f.numberIn(f.started(f.started(log))) == f.numberIn(f.started(log)))
    && forall log, items, queue :: th.isLog(log, items) && log != "" ==>
         f.numberIn(f.started(log + f.entries(queue))) == f.numberIn(f.started(log))
  }

  lemma FileIsNumbered(n: nat, items: seq<Item>)
    ensures StartedLog(FileText(n, items)) == FileText(n, items) && CheckpointIn(FileText(n, items)) == n
  {
    LogFileRoundTripIff(n, items);
  }

  lemma {:induction false} AppendedIsNumbered(log: string, items: seq<Item>, queue: seq<Item>)
    requires IsLog(log, items) && log != ""
    ensures CheckpointIn(StartedLog(log + FlushedText(queue))) == CheckpointIn(StartedLog(log))
  {
    var n: nat :| log == FileText(n, items);
    AppendedFile(n, items, queue);
    FileIsNumbered(n, items);
    FileIsNumbered(n, items + queue);
  }

  lemma StartedTwice(log: string)
    ensures StartedLog(StartedLog(log)) == StartedLog(log)
  {
  }

  lemma TextsKeepNumbers(rd: Reader)
    ensures NumbersAreKept(TextsOf(rd), COMMANDS)
  {
    var f := TextsOf(rd);
    forall n: nat ensures f.numberIn(f.started(f.firstLine(n))) == n { FileIsNumbered(n, []); }
    forall log ensures f.numberIn(f.started(f.started(log))) == f.numberIn(f.started(log)) { StartedTwice(log); }
    forall log, items, queue | COMMANDS.isLog(log, items) && log != ""
      ensures f.numberIn(f.started(log + f.entries(queue))) == f.numberIn(f.started(log))
    {
      AppendedIsNumbered(log, items, queue);
    }
  }

  // ---------------------------------------------------------------- every operation keeps it

  /** The checkpoint that the log file belongs to; an empty file is started as the first one's. */
  function FileNumber(f: Formats, t: Tablet): nat { f.numberIn(f.started(t.log)) }

  ghost predicate Stands(f: Formats, t: Tablet, checkpoints: nat, known: bool, inMemory: bool) {
    && FileNumber(f, t) == 1 + checkpoints
    && t.number == (if known then 1 + checkpoints else 0)
    && (known ==> t.log != "")
    && t.active == inMemory && (!inMemory ==> t.table == map[])
  }

  lemma LoadStands(f: Formats, th: Theory, t: Tablet, p: Promise, checkpoints: nat, known: bool)
    requires Sound(f, th, t, p) && LogsAreRead(f, th) && NumbersAreKept(f, th)
    requires Stands(f, t, checkpoints, known, false) && Loaded(f, t).Some?
    ensures Stands(f, Loaded(f, t).value, checkpoints, true, true)
  {
    var items, past, kept :| Keeps(f, th, t, p, items, past, kept);
  }

  lemma FlushStands(f: Formats, th: Theory, t: Tablet, p: Promise, checkpoints: nat, known: bool, inMemory: bool)
    requires Sound(f, th, t, p) && NothingIsNothing(f, th) && NumbersAreKept(f, th)
    requires Stands(f, t, checkpoints, known, inMemory)
    ensures Stands(f, Flushed(f, t), checkpoints, known, inMemory)
  {
    var items, past, kept :| Keeps(f, th, t, p, items, past, kept);
    if t.log == "" { assert t.log + f.entries(t.queue) == ""; }
  }

  lemma CheckpointStands(f: Formats, th: Theory, t: Tablet, batch: seq<(Key, string)>, checkpoints: nat)
    requires LogsAreReset(f, th) && NumbersAreKept(f, th) && Stands(f, t, checkpoints, true, true)
    ensures Stands(f, Checkpointed(f, t, batch), checkpoints + 1, true, true)
    ensures Stands(f, Cleared(f, t, batch), checkpoints + 1, true, false)
  {
  }

  lemma WriteStands(
      f: Formats, th: Theory, t: Tablet, p: Promise, command: string, number: nat, checkpoints: nat, known: bool,
      inMemory: bool)
    requires Sound(f, th, t, p) && LogsAreRead(f, th) && NumbersAreKept(f, th)
    requires Stands(f, t, checkpoints, known, inMemory) && (inMemory ==> known)
    requires LoggedAndExecuted(f, t, command, number).Some?
    ensures Stands(f, LoggedAndExecuted(f, t, command, number).value, checkpoints, true, true)
  {
    if !t.active { LoadStands(f, th, t, p, checkpoints, known); }
  }

  lemma OperationStands(
      f: Formats, th: Theory, op: Op, t: Tablet, u: Tablet, p: Promise, checkpoints: nat, known: bool, inMemory: bool)
    requires Sound(f, th, t, p) && Lawful(f, th) && NumbersAreKept(f, th)
    requires Allowed(th, op, t) && Apply(f, op, t) == Some(u)
    requires Stands(f, t, checkpoints, known, inMemory) && (inMemory ==> known)
    ensures Stands(f, u, checkpoints + (if op.Checkpoint? || op.Clear? then 1 else 0),
              (op.Flush? && known) || (!op.Crash? && !op.Flush?),
              op.Write? || op.Load? || ((op.Flush? || op.Checkpoint?) && inMemory))
  {
    match op
    case Write(command, number) => WriteStands(f, th, t, p, command, number, checkpoints, known, inMemory);
    case Flush => FlushStands(f, th, t, p, checkpoints, known, inMemory);
    case Checkpoint(batch) => CheckpointStands(f, th, t, batch, checkpoints);
    case Clear(batch) => CheckpointStands(f, th, t, batch, checkpoints);
    case Load => LoadStands(f, th, t, p, checkpoints, known);
    case Crash =>
  }

  lemma OneMoreOperation(ops: seq<Op>, i: nat)
    requires 0 < i <= |ops|
    ensures var before, op := ops[..i - 1], ops[i - 1];
      && Checkpoints(ops[..i]) == Checkpoints(before) + (if op.Checkpoint? || op.Clear? then 1 else 0)
      && (KnowsNumber(ops[..i]) <==> (op.Flush? && KnowsNumber(before)) || (!op.Crash? && !op.Flush?))
      && (InMemory(ops[..i]) <==> op.Write? || op.Load? || ((op.Flush? || op.Checkpoint?) && InMemory(before)))
  {
    assert ops[..i][..i - 1] == ops[..i - 1];
  }

  lemma {:induction false} StandsInRun(f: Formats, th: Theory, run: seq<(Tablet, Promise)>, ops: seq<Op>, i: nat)
    requires IsRun(f, th, run, ops) && Lawful(f, th) && NumbersAreKept(f, th) && i < |run|
    ensures Stands(f, run[i].0, Checkpoints(ops[..i]), KnowsNumber(ops[..i]), InMemory(ops[..i]))
    decreases i
  {
    if i > 0 {
      StandsInRun(f, th, run, ops, i - 1);
      RunIsSound(f, th, run, ops, i - 1);
      OneMoreOperation(ops, i);
      var before := ops[..i - 1];
      if InMemory(before) { InMemoryKnows(before); }
      OperationStands(f, th, ops[i - 1], run[i - 1].0, run[i].0, run[i - 1].1,
          Checkpoints(before), KnowsNumber(before), InMemory(before));
    }
  }

  /** At every moment of every run: the number in the log file is one more than the checkpoints made,
      whatever crashed in between; the server's counter is that number from the first operation that
      reads or resets the log, and 0 before; the tablet is in memory exactly when the last operation
      that moves it brought it in, and holds nothing otherwise. */
  lemma RunStands(f: Formats, th: Theory, run: seq<(Tablet, Promise)>, ops: seq<Op>, i: nat)
    requires IsRun(f, th, run, ops) && Lawful(f, th) && NumbersAreKept(f, th) && i < |run|
    ensures FileNumber(f, run[i].0) == 1 + Checkpoints(ops[..i])
    ensures run[i].0.number == if KnowsNumber(ops[..i]) then FileNumber(f, run[i].0) else 0
    ensures KnowsNumber(ops[..i]) ==> run[i].0.log != ""
    ensures run[i].0.active <==> InMemory(ops[..i])
    ensures !run[i].0.active ==> run[i].0.table == map[]
  {
    StandsInRun(f, th, run, ops, i);
  }

  // ---------------------------------------------------------------- checkpoints are numbered apart

  lemma {:induction false} CheckpointsGrow(ops: seq<Op>, i: nat, j: nat)
    requires i <= j <= |ops|
    ensures Checkpoints(ops[..i]) <= Checkpoints(ops[..j])
    ensures (exists k :: i <= k < j && (ops[k].Checkpoint? || ops[k].Clear?)) ==>
              Checkpoints(ops[..i]) < Checkpoints(ops[..j])
    decreases j
  {
    if i < j {
      CheckpointsGrow(ops, i, j - 1);
      assert ops[..j][..j - 1] == ops[..j - 1];
    }
  }

  /** Whoever noted the number of the log file at one moment of a run sees a higher one in it later if
      and only if a checkpoint was written in between, and the same one otherwise. */
  lemma HigherNumberIff(f: Formats, th: Theory, run: seq<(Tablet, Promise)>, ops: seq<Op>, i: nat, j: nat)
    requires IsRun(f, th, run, ops) && Lawful(f, th) && NumbersAreKept(f, th) && i <= j < |run|
    ensures FileNumber(f, run[i].0) <= FileNumber(f, run[j].0)
    ensures FileNumber(f, run[i].0) < FileNumber(f, run[j].0) <==>
            exists k :: i <= k < j && (ops[k].Checkpoint? || ops[k].Clear?)
  {
    RunStands(f, th, run, ops, i);
    RunStands(f, th, run, ops, j);
    CheckpointsGrow(ops, i, j);
    if !exists k :: i <= k < j && (ops[k].Checkpoint? || ops[k].Clear?) { NoCheckpointBetween(ops, i, j); }
  }

  lemma {:induction false} NoCheckpointBetween(ops: seq<Op>, i: nat, j: nat)
    requires i <= j <= |ops| && forall k :: i <= k < j ==> !ops[k].Checkpoint? && !ops[k].Clear?
    ensures Checkpoints(ops[..i]) == Checkpoints(ops[..j])
    decreases j
  {
    if i < j {
      NoCheckpointBetween(ops, i, j - 1);
      assert ops[..j][..j - 1] == ops[..j - 1];
    }
  }
}
