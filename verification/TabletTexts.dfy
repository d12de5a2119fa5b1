/** The tablet with the text formats and interpreters of the servers: they obey the laws, so the
    tablet keeps its promise; and what happens outside the allowed operations. */
module TabletTexts {
  import opened Text
  import opened Commands
  import opened Writes
  import opened WriteAheadLog
  import opened CheckpointFile
  import opened Tablet

  /** recover_table starts an empty log file. */
  function StartedLog(log: string): string { if log == "" then FileText(1, []) else log }

  /** The text formats and the interpreters, with a reader of checkpoint lines. */
  function TextsOf(rd: Reader): Formats {
    Formats(StartedLog, FlushedText, (n: nat) => FileText(n, []), MessagesIn, CheckpointIn, SavedText,
            (file, t) => Restored(rd, file, t), Execute, ReplayAll)
  }

  const TEXTS: Formats := TextsOf(READER)

  /** A command that neither text format can lose: a PUT of a storable binding or a DELETE, without
      a delimiter in front of a newline. */
  ghost predicate Durable(command: string) {
    Plain(command) && LinesLoggable(command) && IsStorable(Meaning(command))
  }

  predicate IsStorable(w: Write) { w.Put? ==> Storable(w.key, w.value) }

  /** The text of a log file with these entries; a file that was never started is empty. */
  ghost predicate IsLog(log: string, items: seq<Item>) {
    (log == "" && items == []) || exists n: nat :: log == FileText(n, items)
  }

  ghost const COMMANDS: Theory := Theory(Meaning, m => Durable(m), w => IsStorable(w),
      (log, items) => IsLog(log, items))

  // ---------------------------------------------------------------- the laws

  lemma {:induction false} StartedIsFile(log: string, items: seq<Item>) returns (n: nat)
    requires IsLog(log, items)
    ensures StartedLog(log) == FileText(n, items)
  {
    if log == "" && items == [] { n := 1; } else { n :| log == FileText(n, items); }
  }

  lemma {:induction false} MessagesAre(items: seq<Item>)
    ensures |Messages(items)| == |items|
    ensures forall i :: 0 <= i < |items| ==> Messages(items)[i] == items[i].message
    decreases |items|
  {
    if items != [] { MessagesAre(items[1..]); }
  }

  lemma {:induction false} ReadsStartedLog(log: string, items: seq<Item>)
    requires IsLog(log, items) && AllLinesLoggable(items)
    ensures MessagesIn(StartedLog(log)) == Messages(items) && IsLog(StartedLog(log), items) && StartedLog(log) != ""
  {
    var n := StartedIsFile(log, items);
    LogFileRoundTripIff(n, items);
  }

  lemma {:induction false} DurableMessages(items: seq<Item>)
    requires forall i :: 0 <= i < |items| ==> Durable(items[i].message)
    ensures AllLinesLoggable(items) && AllPlain(Messages(items))
  {
    MessagesAre(items);
  }

  lemma DurableUnfolds(items: seq<Item>)
    requires AllDurable(COMMANDS, items)
    ensures forall i :: 0 <= i < |items| ==> Durable(items[i].message)
  {
  }

  lemma LogLaws(rd: Reader)
    ensures LogsAreRead(TextsOf(rd), COMMANDS)
  {
    forall log, items | COMMANDS.isLog(log, items) && AllDurable(COMMANDS, items)
      ensures COMMANDS.isLog(TextsOf(rd).started(log), items) && TextsOf(rd).started(log) != ""
           && TextsOf(rd).messages(TextsOf(rd).started(log)) == Messages(items)
    {
      DurableUnfolds(items);
      DurableMessages(items);
      ReadsStartedLog(log, items);
    }
  }

  lemma {:induction false} AppendedLog(log: string, items: seq<Item>, queue: seq<Item>)
    requires IsLog(log, items) && log != ""
    ensures IsLog(log + FlushedText(queue), items + queue)
  {
    var n: nat :| log == FileText(n, items);
    AppendedFile(n, items, queue);
  }

  lemma AppendLaws(rd: Reader)
    ensures LogsAreAppended(TextsOf(rd), COMMANDS) && LogsAreReset(TextsOf(rd), COMMANDS)
  {
    forall log, items, queue | COMMANDS.isLog(log, items) && log != ""
      ensures COMMANDS.isLog(log + TextsOf(rd).entries(queue), items + queue)
    {
      AppendedLog(log, items, queue);
    }
    forall n: nat ensures COMMANDS.isLog(TextsOf(rd).firstLine(n), []) && TextsOf(rd).firstLine(n) != "" {
      assert TextsOf(rd).firstLine(n) == FileText(n, []);
    }
  }

  lemma EmptyLogIsFirst()
    ensures CheckpointIn(StartedLog("")) == 1 == CheckpointIn("")
  {
  }

  lemma EmptyLaws(rd: Reader)
    ensures NothingIsNothing(TextsOf(rd), COMMANDS)
  {
    EmptyLogIsFirst();
  }

  lemma BatchLaws(rd: Reader)
    requires LawfulReader(rd)
    ensures BatchesAreRestored(TextsOf(rd), COMMANDS)
  {
    forall batch, t | IsBatch(batch, t) && StorableTable(COMMANDS, t)
      ensures TextsOf(rd).restored(TextsOf(rd).batch(batch), map[]) == t
    {
      forall k | k in t ensures Storable(k, t[k]) { assert COMMANDS.storable(Put(k, t[k])); }
      CheckpointRoundTrip(rd, batch, t);
    }
  }

  lemma {:induction false} WorkAt(th: Theory, items: seq<Item>)
    ensures |Work(th, items)| == |items|
    ensures forall i :: 0 <= i < |items| ==> Work(th, items)[i] == th.meaning(items[i].message)
  {
    if items != [] { WorkAt(th, items[..|items| - 1]); }
  }

  lemma {:induction false} WorkIsMeaning(items: seq<Item>)
    ensures Work(COMMANDS, items) == Meanings(Messages(items))
  {
    MessagesAre(items);
    WorkAt(COMMANDS, items);
    forall i | 0 <= i < |items| ensures Work(COMMANDS, items)[i] == Meanings(Messages(items))[i] {
      assert COMMANDS.meaning(items[i].message) == Meaning(items[i].message);
    }
  }

  lemma {:induction false} ReplayedWork(items: seq<Item>, t: Table)
    requires AllDurable(COMMANDS, items)
    ensures ReplayAll(Messages(items), t) == Some(ApplyAll(Work(COMMANDS, items), t))
  {
    DurableUnfolds(items);
    DurableMessages(items);
    WorkIsMeaning(items);
    ReplayApplies(Messages(items), t);
  }

  lemma CommandLaws(rd: Reader)
    ensures CommandsAreWrites(TextsOf(rd), COMMANDS)
  {
    forall m | COMMANDS.durable(m) ensures COMMANDS.storable(COMMANDS.meaning(m)) {
    }
    forall m, t | COMMANDS.durable(m) ensures TextsOf(rd).execute(m, t) == Some(ApplyWrite(COMMANDS.meaning(m), t)) {
      PlainMeans(m, t);
    }
    forall items, t | AllDurable(COMMANDS, items)
      ensures TextsOf(rd).replay(Messages(items), t) == Some(ApplyAll(Work(COMMANDS, items), t))
    {
      ReplayedWork(items, t);
    }
  }

  /** The text formats and the interpreters obey the laws, with every lawful reader. */
  lemma TextsAreLawful(rd: Reader)
    requires LawfulReader(rd)
    ensures Lawful(TextsOf(rd), COMMANDS)
  {
    LogLaws(rd);
    AppendLaws(rd);
    EmptyLaws(rd);
    BatchLaws(rd);
    CommandLaws(rd);
  }

  /** So do those of the servers as they are. */
  lemma ServersAreLawful()
    ensures Lawful(TEXTS, COMMANDS)
  {
    ReaderIsLawful();
    TextsAreLawful(READER);
  }

  // ---------------------------------------------------------------- main results

  /** Over all interleavings of writes, flushes, checkpoints, evictions, loads and crashes, at
      every moment: a loaded tablet holds the promised table; log file and queue replayed over the
      checkpoint give the promised table; and what a crash at this moment would leave to be loaded
      is exactly the table of the last flush or checkpoint. */
  lemma TabletKeepsItsPromise(rd: Reader, run: seq<(Tablet, Promise)>, ops: seq<Op>, i: nat)
    requires LawfulReader(rd) && IsRun(TextsOf(rd), COMMANDS, run, ops) && i < |run|
    ensures run[i].0.active ==> run[i].0.table == run[i].1.live
    ensures Recoverable(TextsOf(rd), run[i].0) == Some(run[i].1.durable)
    ensures Recoverable(TextsOf(rd), Crashed(run[i].0)) == Some(run[i].1.durable)
    ensures ReplayedWithQueue(TextsOf(rd), run[i].0) == Some(run[i].1.live)
  {
    TextsAreLawful(rd);
    RunIsSound(TextsOf(rd), COMMANDS, run, ops, i);
    SoundRecovers(TextsOf(rd), COMMANDS, run[i].0, run[i].1);
    SoundReplays(TextsOf(rd), COMMANDS, run[i].0, run[i].1);
  }

  /** No allowed operation throws, whatever was done before. */
  lemma NoOperationThrows(rd: Reader, run: seq<(Tablet, Promise)>, ops: seq<Op>, op: Op)
    requires LawfulReader(rd) && IsRun(TextsOf(rd), COMMANDS, run, ops) && Allowed(COMMANDS, op, run[|ops|].0)
    ensures Apply(TextsOf(rd), op, run[|ops|].0).Some?
  {
    TextsAreLawful(rd);
    RunIsSound(TextsOf(rd), COMMANDS, run, ops, |ops|);
    ApplyKeeps(TextsOf(rd), COMMANDS, op, run[|ops|].0, run[|ops|].1);
  }

  // ---------------------------------------------------------------- the promise as a history

  /** The writes that were made, less those a crash took back, and how many of them were there at
      the last flush or checkpoint. */
  function Account(th: Theory, ops: seq<Op>): (r: (seq<Write>, nat))
    ensures r.1 <= |r.0|
  {
    if ops == [] then ([], 0)
    else
      var (history, safe) := Account(th, ops[..|ops| - 1]);
      match ops[|ops| - 1]
      case Write(command, _) => (history + [th.meaning(command)], safe)
      case Load => (history, safe)
      case Crash => (history[..safe], safe)
      case _ => (history, |history|)
  }

  /** In every run the promised table is that of the history, and the table that a crash leaves is
      that of its prefix up to the last flush or checkpoint. */
  lemma {:induction false} PromiseIsHistory(rd: Reader, run: seq<(Tablet, Promise)>, ops: seq<Op>, i: nat)
    requires IsRun(TextsOf(rd), COMMANDS, run, ops) && i < |run|
    ensures run[i].1 == Stands(Account(COMMANDS, ops[..i]).0, Account(COMMANDS, ops[..i]).1)
    decreases i
  {
    if i == 0 {
      assert run[0].1 == Promise(map[], map[]);
    } else {
      PromiseIsHistory(rd, run, ops, i - 1);
      assert ops[..i][..i - 1] == ops[..i - 1];
      PromiseStep(COMMANDS, ops[i - 1], run[i - 1].1, Account(COMMANDS, ops[..i - 1]).0,
          Account(COMMANDS, ops[..i - 1]).1);
    }
  }

  /** The promise that a history and the length of its safe prefix stand for. */
  function Stands(history: seq<Write>, safe: nat): Promise
    requires safe <= |history|
  {
    Promise(ApplyAll(history, map[]), ApplyAll(history[..safe], map[]))
  }

  lemma PromiseStep(th: Theory, op: Op, p: Promise, history: seq<Write>, safe: nat)
    requires safe <= |history| && p == Stands(history, safe)
    ensures op.Write? ==> Promised(th, op, p) == Stands(history + [th.meaning(op.command)], safe)
    ensures op.Crash? ==> Promised(th, op, p) == Stands(history[..safe], safe)
    ensures op.Load? ==> Promised(th, op, p) == p
    ensures op.Flush? || op.Checkpoint? || op.Clear? ==> Promised(th, op, p) == Stands(history, |history|)
  {
    assert history[..|history|] == history && history[..safe][..safe] == history[..safe];
    if op.Write? {
      OneMoreApplied(history, th.meaning(op.command), map[]);
      assert (history + [th.meaning(op.command)])[..safe] == history[..safe];
    }
  }
}
