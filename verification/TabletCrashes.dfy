/** What a tablet loses outside the allowed operations: a checkpoint of a tablet that is not in
    memory, a crash inside create_new_checkpoint or inside flush_log, and a CPUT that is replayed
    over a checkpoint that already has it. Each loss has its exact condition. All but the CPUT is
    stated for any lawful formats; those of the servers are, by TabletTexts.ServersAreLawful. */
module TabletCrashes {
  import opened Collections
  import opened Text
  import opened Commands
  import opened Writes
  import opened WriteAheadLog
  import opened CheckpointFile
  import opened Tablet
  import opened TabletTexts

  function WritesOf(th: Theory, messages: seq<string>): seq<Write> {
    seq(|messages|, i requires 0 <= i < |messages| => th.meaning(messages[i]))
  }

  /** The writes that the log file holds, and those of the queue. */
  function LogWrites(f: Formats, th: Theory, t: Tablet): seq<Write> { WritesOf(th, f.messages(f.started(t.log))) }
  function QueueWrites(th: Theory, t: Tablet): seq<Write> { WritesOf(th, Messages(t.queue)) }

  lemma {:induction false} WorkIsWrites(th: Theory, items: seq<Item>)
    ensures Work(th, items) == WritesOf(th, Messages(items))
  {
    MessagesAre(items);
    WorkAt(th, items);
  }

  /** The writes of log and queue, and how the tables come from them. */
  lemma {:induction false} ReachedTables(f: Formats, th: Theory, t: Tablet, p: Promise)
    returns (past: seq<Write>, kept: nat)
    requires Sound(f, th, t, p) && LogsAreRead(f, th) && CommandsAreWrites(f, th)
    ensures Covers(past, LogWrites(f, th, t), QueueWrites(th, t), kept, f.restored(t.saved, map[]), p)
    ensures forall saved :: f.replay(f.messages(f.started(t.log)), saved) == Some(ApplyAll(LogWrites(f, th, t), saved))
  {
    var items;
    items, past, kept :| Keeps(f, th, t, p, items, past, kept);
    assert f.messages(f.started(t.log)) == Messages(items);
    WorkIsWrites(th, items);
    WorkIsWrites(th, t.queue);
  }

  lemma TableInMemory(f: Formats, th: Theory, t: Tablet, p: Promise)
    requires Sound(f, th, t, p)
    ensures t.table == if t.active then p.live else map[]
  {
  }

  // ---------------------------------------------------------------- checkpoint of an absent tablet

  /** A log without entries: what is recovered is the checkpoint. */
  lemma WithoutEntries(f: Formats, th: Theory, u: Tablet)
    requires LogsAreRead(f, th) && CommandsAreWrites(f, th) && th.isLog(u.log, [])
    ensures Recoverable(f, u) == Some(f.restored(u.saved, map[]))
  {
    LogRecovers(f, th, u, []);
  }

  lemma BatchRestores(f: Formats, th: Theory, t: Tablet, p: Promise, batch: seq<(Key, string)>)
    requires Sound(f, th, t, p) && CommandsAreWrites(f, th) && BatchesAreRestored(f, th) && IsBatch(batch, t.table)
    ensures f.restored(f.batch(batch), map[]) == t.table
  {
    if t.active {
      BatchIsRestored(f, th, t, p, batch);
    } else {
      TableInMemory(f, th, t, p);
      assert StorableTable(th, t.table);
    }
  }

  /** A replica checkpoints on the primary's word, whether the tablet is in memory or not: what can
      be recovered stays the promised table if and only if the tablet is in memory or empty. */
  lemma CheckpointKeepsIff(f: Formats, th: Theory, t: Tablet, p: Promise, batch: seq<(Key, string)>)
    requires Sound(f, th, t, p) && Lawful(f, th) && IsBatch(batch, t.table)
    ensures Recoverable(f, Checkpointed(f, t, batch)) == Some(p.live) <==> t.active || p.live == map[]
  {
    WithoutEntries(f, th, Checkpointed(f, t, batch));
    BatchRestores(f, th, t, p, batch);
    TableInMemory(f, th, t, p);
  }

  // ---------------------------------------------------------------- a crash inside a checkpoint

  /** How far create_new_checkpoint got: the checkpoint file was cleared; the batch is on disk; the
      log file was cleared too; or all is done but the batch, which is still in the stream's buffer. */
  datatype Moment = TableCleared | BatchWritten | LogCleared | BatchInBuffer

  function CrashedInCheckpoint(f: Formats, t: Tablet, batch: seq<(Key, string)>, moment: Moment): Tablet {
    match moment
    case TableCleared => Crashed(t.(saved := ""))
    case BatchWritten => Crashed(t.(saved := f.batch(batch)))
    case LogCleared => Crashed(t.(saved := f.batch(batch), log := ""))
    case BatchInBuffer => Crashed(t.(saved := "", log := f.firstLine(t.number + 1)))
  }

  /** The old checkpoint is gone and the new one is not there: nothing is lost if and only if the
      log writes every key that the old checkpoint binds. */
  lemma CrashAfterClearIff(f: Formats, th: Theory, t: Tablet, p: Promise, batch: seq<(Key, string)>)
    requires Sound(f, th, t, p) && Lawful(f, th)
    ensures Recoverable(f, CrashedInCheckpoint(f, t, batch, TableCleared)) == Some(p.durable) <==>
            forall k :: k in f.restored(t.saved, map[]) ==> Effect(LogWrites(f, th, t), k).Some?
  {
    var past, kept := ReachedTables(f, th, t, p);
    ReplayOverNothingIff(LogWrites(f, th, t), f.restored(t.saved, map[]));
  }

  /** The new checkpoint is there and the old log too, which ends before it: the log's replay
      keeps the table if and only if nothing that it writes was left different by the queue. */
  lemma CrashAfterBatchIff(f: Formats, th: Theory, t: Tablet, p: Promise, batch: seq<(Key, string)>)
    requires Sound(f, th, t, p) && Lawful(f, th) && t.active && IsBatch(batch, t.table)
    ensures Recoverable(f, CrashedInCheckpoint(f, t, batch, BatchWritten)) == Some(p.live) <==>
            NotOverwritten(LogWrites(f, th, t), QueueWrites(th, t))
  {
    var past, kept := ReachedTables(f, th, t, p);
    SavedIsLive(f, th, t, p, batch);
    CoveredReverts(past, LogWrites(f, th, t), QueueWrites(th, t), kept, f.restored(t.saved, map[]), p);
  }

  lemma {:induction false} CoveredReverts(
      past: seq<Write>, filed: seq<Write>, queued: seq<Write>, kept: nat, saved: Table, p: Promise)
    requires Covers(past, filed, queued, kept, saved, p)
    ensures ApplyAll(filed, p.live) == p.live <==> NotOverwritten(filed, queued)
  {
    Associative(past, filed, queued);
    ReplayRevertsIff(past, filed, queued, map[]);
  }

  lemma SavedIsLive(f: Formats, th: Theory, t: Tablet, p: Promise, batch: seq<(Key, string)>)
    requires Sound(f, th, t, p) && Lawful(f, th) && t.active && IsBatch(batch, t.table)
    ensures f.restored(f.batch(batch), map[]) == p.live
  {
    BatchRestores(f, th, t, p, batch);
    TableInMemory(f, th, t, p);
  }

  /** The log is cleared and its number not yet written: the table is kept, the checkpoint number
      starts again from 1. */
  lemma CrashAfterLogClear(f: Formats, th: Theory, t: Tablet, p: Promise, batch: seq<(Key, string)>)
    requires Sound(f, th, t, p) && Lawful(f, th) && t.active && IsBatch(batch, t.table)
    ensures Recoverable(f, CrashedInCheckpoint(f, t, batch, LogCleared)) == Some(p.live)
    ensures f.numberIn(f.started(CrashedInCheckpoint(f, t, batch, LogCleared).log)) == 1
  {
    SavedIsLive(f, th, t, p, batch);
    WithoutEntries(f, th, CrashedInCheckpoint(f, t, batch, LogCleared));
  }

  /** The batch never left the stream's buffer: everything is lost. */
  lemma CrashBeforeClose(f: Formats, th: Theory, t: Tablet, batch: seq<(Key, string)>)
    requires Lawful(f, th)
    ensures Recoverable(f, CrashedInCheckpoint(f, t, batch, BatchInBuffer)) == Some(map[])
  {
    WithoutEntries(f, th, CrashedInCheckpoint(f, t, batch, BatchInBuffer));
  }

  // ---------------------------------------------------------------- a crash inside a flush

  /** flush_log dies behind its first n entries. */
  function CrashedInFlush(f: Formats, t: Tablet, n: nat): Tablet
    requires n <= |t.queue|
  {
    Crashed(t.(log := t.log + f.entries(t.queue[..n])))
  }

  lemma CutLogIsLog(f: Formats, th: Theory, log: string, items: seq<Item>, queue: seq<Item>)
    requires LogsAreAppended(f, th) && f.entries([]) == "" && th.isLog(log, items)
    requires log == "" ==> items == [] && queue == []
    ensures th.isLog(log + f.entries(queue), items + queue)
  {
    if log == "" { assert items + queue == [] && log + f.entries(queue) == ""; }
  }

  lemma {:induction false} LogRecovers(f: Formats, th: Theory, u: Tablet, items: seq<Item>)
    requires LogsAreRead(f, th) && CommandsAreWrites(f, th) && th.isLog(u.log, items) && AllDurable(th, items)
    ensures Recoverable(f, u) == Some(ApplyAll(Work(th, items), f.restored(u.saved, map[])))
  {
    assert f.messages(f.started(u.log)) == Messages(items);
  }

  lemma {:induction false} CrashInFlushRecovers(
      f: Formats, th: Theory, t: Tablet, p: Promise, items: seq<Item>, past: seq<Write>, kept: nat, n: nat)
    requires Keeps(f, th, t, p, items, past, kept) && n <= |t.queue|
    requires LogsAreRead(f, th) && LogsAreAppended(f, th) && NothingIsNothing(f, th) && CommandsAreWrites(f, th)
    ensures Recoverable(f, CrashedInFlush(f, t, n)) ==
            Some(ApplyAll(Work(th, items) + Work(th, t.queue[..n]), f.restored(t.saved, map[])))
  {
    CutLogIsLog(f, th, t.log, items, t.queue[..n]);
    LogRecovers(f, th, CrashedInFlush(f, t, n), items + t.queue[..n]);
    WorkOfConcat(th, items, t.queue[..n]);
  }

  lemma {:induction false} WorkPrefix(th: Theory, items: seq<Item>, n: nat)
    requires n <= |items|
    ensures |Work(th, items)| == |items| && Work(th, items[..n]) == Work(th, items)[..n]
  {
    WorkAt(th, items);
    WorkAt(th, items[..n]);
  }

  /** Entries that reach behind the checkpoint: a prefix of all writes is recovered. */
  lemma {:induction false} LateCrashInFlush(
      f: Formats, th: Theory, t: Tablet, p: Promise, items: seq<Item>, past: seq<Write>, kept: nat, n: nat)
    requires Keeps(f, th, t, p, items, past, kept) && Lawful(f, th) && n <= |t.queue| && kept <= |items| + n
    ensures n <= |Work(th, t.queue)|
    ensures Recoverable(f, CrashedInFlush(f, t, n)) ==
            Some(ApplyAll(past + (Work(th, items) + Work(th, t.queue)[..n]), map[]))
  {
    CrashInFlushRecovers(f, th, t, p, items, past, kept, n);
    WorkPrefix(th, t.queue, n);
    WorkAt(th, items);
    CoveredPrefix(past, Work(th, items), Work(th, t.queue), kept, f.restored(t.saved, map[]), p, n);
  }

  lemma {:induction false} CoveredPrefix(
      past: seq<Write>, filed: seq<Write>, queued: seq<Write>, kept: nat, saved: Table, p: Promise, n: nat)
    requires Covers(past, filed, queued, kept, saved, p) && n <= |queued| && kept <= |filed| + n
    ensures ApplyAll(filed + queued[..n], saved) == ApplyAll(past + (filed + queued[..n]), map[])
  {
    assert (filed + queued[..n])[..kept] == (filed + queued)[..kept];
    ReplayCatchesUp(saved, past, filed + queued[..n], kept);
  }

  /** Entries that the checkpoint already has, behind a log that was just reset: the checkpointed
      table is kept if and only if nothing that they write was left different by the queue entries
      that the checkpoint also has. */
  lemma {:induction false} EarlyCrashInFlushIff(
      f: Formats, th: Theory, t: Tablet, p: Promise, past: seq<Write>, kept: nat, n: nat)
    requires Keeps(f, th, t, p, [], past, kept) && Lawful(f, th) && n <= kept
    ensures n <= |t.queue| && kept <= |Work(th, t.queue)|
    ensures Recoverable(f, CrashedInFlush(f, t, n)) == Some(p.durable) <==>
            NotOverwritten(Work(th, t.queue)[..n], Work(th, t.queue)[n..kept])
  {
    WorkAt(th, t.queue);
    WorkPrefix(th, t.queue, n);
    CrashInFlushRecovers(f, th, t, p, [], past, kept, n);
    CoveredEarly(past, Work(th, t.queue), kept, f.restored(t.saved, map[]), p, n);
  }

  lemma {:induction false} CoveredEarly(
      past: seq<Write>, queued: seq<Write>, kept: nat, saved: Table, p: Promise, n: nat)
    requires Covers(past, [], queued, kept, saved, p) && n <= kept <= |queued|
    ensures ApplyAll([] + queued[..n], saved) == p.durable <==> NotOverwritten(queued[..n], queued[n..kept])
  {
    var none: seq<Write> := [];
    assert none + queued == queued && none + queued[..n] == queued[..n];
    assert queued[..kept] == queued[..n] + queued[n..kept];
    Associative(past, queued[..n], queued[n..kept]);
    ReplayRevertsIff(past, queued[..n], queued[n..kept], map[]);
  }

  // ---------------------------------------------------------------- CPUT over its own checkpoint

  lemma TailsOfValues(values: string, old_: string, new_: string)
    requires values == old_ + ([' '] + new_)
    ensures TailAfter(values, old_) == Some(new_)
    ensures Find(values, new_).Some?
    ensures TailAfter(values, new_) == None <==> Find(values, new_) == Some(|old_| + 1)
    ensures TailAfter(values, new_) == Some(new_) <==> Find(values, new_).value + |new_| == |old_|
  {
    assert OccursAt(values, old_, 0) && values[|old_| + 1..] == new_;
    FindIs(values, old_, 0);
    NewInValues(values, old_, new_);
    TailIs(values, new_, Find(values, new_).value);
  }

  lemma NewInValues(values: string, old_: string, new_: string)
    requires values == old_ + ([' '] + new_)
    ensures Find(values, new_).Some? && Find(values, new_).value <= |old_| + 1
  {
    assert OccursAt(values, new_, |old_| + 1);
    FindFromFinds(values, new_, 0);
  }

  lemma TailIs(values: string, new_: string, i: nat)
    requires |values| >= |new_| + 1 && values[|values| - |new_|..] == new_
    requires Find(values, new_) == Some(i) && i + |new_| <= |values|
    ensures TailAfter(values, new_) == None <==> i + |new_| == |values|
    ensures TailAfter(values, new_) == Some(new_) <==> i + |new_| + 1 + |new_| == |values|
  {
  }

  /** CPUT is not idempotent: over the old value it stores the new one, but over the new one its
      replay throws if and only if the first occurrence of the new value is its own place, and
      keeps the table if and only if that occurrence ends the old value. */
  lemma CputAgain(command: string, t: Table, old_: string, new_: string)
    requires LockKey(command).Some? && UpToBlank(command) == "CPUT" && Values(command) == old_ + ([' '] + new_)
    ensures Replay(command, t[AbortKey(command) := old_]) == Some(t[AbortKey(command) := new_])
    ensures Find(Values(command), new_).Some?
    ensures Replay(command, t[AbortKey(command) := new_]) == None <==> Find(Values(command), new_) == Some(|old_| + 1)
    ensures Replay(command, t[AbortKey(command) := new_]) == Some(t[AbortKey(command) := new_]) <==>
            Find(Values(command), new_).value + |new_| == |old_|
  {
    var key := AbortKey(command);
    TailsOfValues(Values(command), old_, new_);
    ReplayCput(command, t[key := old_]);
    ReplayCput(command, t[key := new_]);
    assert t[key := old_][key := new_] == t[key := new_];
    UpdatesAgreeIff(t[key := new_], key, TailAfter(Values(command), new_), Some(new_));
    assert t[key := new_][key := new_] == t[key := new_];
  }

  /** A checkpoint between the execution of a CPUT and the flush of its log entry: the tablet can
      no longer be loaded if and only if the new value does not occur before its own place. */
  lemma CheckpointBeforeFlushIff(
      rd: Reader, t: Tablet, command: string, number: nat, old_: string, new_: string, batch: seq<(Key, string)>)
    requires LockKey(command).Some? && UpToBlank(command) == "CPUT" && Values(command) == old_ + ([' '] + new_)
    requires LawfulReader(rd) && LinesLoggable(command) && t.queue == [] && t.active
    requires Execute(command, t.table) == Some(t.table[AbortKey(command) := new_])
    requires AllStorable(t.table[AbortKey(command) := new_]) && IsBatch(batch, t.table[AbortKey(command) := new_])
    ensures var u := LoggedAndExecuted(TextsOf(rd), t, command, number).value;
      Loaded(TextsOf(rd), Crashed(Flushed(TextsOf(rd), Checkpointed(TextsOf(rd), u, batch)))) == None <==>
        Find(Values(command), new_) == Some(|old_| + 1)
  {
    var table := t.table[AbortKey(command) := new_];
    var v := Flushed(TextsOf(rd),
        Checkpointed(TextsOf(rd), LoggedAndExecuted(TextsOf(rd), t, command, number).value, batch));
    CputFiles(rd, t, command, number, batch);
    CputAgain(command, t.table, old_, new_);
    CheckpointRoundTrip(rd, batch, table);
    FlushedCput(v.log, t.number + 1, Item(t.sequence + 1, command, number));
    LoadsOneMessage(rd, v, command, table);
  }

  lemma {:induction false} CputFiles(rd: Reader, t: Tablet, command: string, number: nat, batch: seq<(Key, string)>)
    requires t.queue == [] && t.active && Execute(command, t.table).Some?
    ensures LoggedAndExecuted(TextsOf(rd), t, command, number).Some?
    ensures Flushed(TextsOf(rd),
              Checkpointed(TextsOf(rd), LoggedAndExecuted(TextsOf(rd), t, command, number).value, batch)).saved ==
            SavedText(batch)
    ensures Flushed(TextsOf(rd),
              Checkpointed(TextsOf(rd), LoggedAndExecuted(TextsOf(rd), t, command, number).value, batch)).log ==
            FileText(t.number + 1, []) + FlushedText([Item(t.sequence + 1, command, number)])
  {
    var none: seq<Item> := [];
    assert none + [Item(t.sequence + 1, command, number)] == [Item(t.sequence + 1, command, number)];
  }

  lemma LoadsOneMessage(rd: Reader, v: Tablet, message: string, table: Table)
    requires v.log != "" && MessagesIn(v.log) == [message] && Restored(rd, v.saved, map[]) == table
    ensures Loaded(TextsOf(rd), Crashed(v)) == None <==> Replay(message, table) == None
  {
    OnlyMessage(message, table);
  }

  lemma FlushedCput(log: string, number: nat, item: Item)
    requires log == FileText(number, []) + FlushedText([item]) && LinesLoggable(item.message)
    ensures log != "" && MessagesIn(log) == [item.message]
  {
    var none: seq<Item> := [];
    assert none + [item] == [item];
    AppendedFile(number, [], [item]);
    LogFileRoundTripIff(number, [item]);
    assert Messages([item]) == [item.message] + Messages([]);
  }

  lemma {:induction false} OnlyMessage(message: string, t: Table)
    ensures ReplayAll([message], t) == Replay(message, t)
  {
    assert [message][1..] == [];
  }
}
