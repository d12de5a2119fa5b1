/** One tablet of a server: the live table, the log queue in memory, the log file and the
    checkpoint file on disk, as values; and the proof that they keep the live table. The proof is
    made once for any pair of text formats that obeys six laws; TabletTexts instantiates it. */
module Tablet {
  import opened Collections
  import opened Text
  import opened Commands
  import opened Writes
  import opened WriteAheadLog
  import opened CheckpointFile

  /** `log` and `saved` are the texts of the two files; the rest is memory. */
  datatype Tablet = Tablet(
    table: Table,
    active: bool,
    queue: seq<Item>,
    log: string,
    saved: string,
    number: nat,
    sequence: nat)

  /** A server that starts on empty files. */
  const FRESH := Tablet(map[], false, [], "", "", 0, 0)

  /** The readers and writers of the two files and the two interpreters. */
  datatype Formats = Formats(
    started: string -> string,
    entries: seq<Item> -> string,
    firstLine: nat -> string,
    messages: string -> seq<string>,
    numberIn: string -> nat,
    batch: seq<(Key, string)> -> string,
    restored: (string, Table) -> Table,
    execute: (string, Table) -> Option<Table>,
    replay: (seq<string>, Table) -> Option<Table>)

  /** log_message. */
  function Logged(t: Tablet, message: string, number: nat): Tablet {
    t.(sequence := t.sequence + 1, queue := t.queue + [Item(t.sequence + 1, message, number)])
  }

  /** flush_log. */
  function Flushed(f: Formats, t: Tablet): Tablet {
    t.(log := t.log + f.entries(t.queue), queue := [])
  }

  /** create_new_checkpoint, writing the bindings in the given order. The queue stays. */
  function Checkpointed(f: Formats, t: Tablet, batch: seq<(Key, string)>): Tablet {
    t.(number := t.number + 1, saved := f.batch(batch), log := f.firstLine(t.number + 1), sequence := 0)
  }

  /** clear_tablet. */
  function Cleared(f: Formats, t: Tablet, batch: seq<(Key, string)>): Tablet {
    Checkpointed(f, t, batch).(active := false, table := map[])
  }

  /** load_tablet; None is an exception while replaying, which ends the server. */
  function Loaded(f: Formats, t: Tablet): Option<Tablet> {
    var log := f.started(t.log);
    match f.replay(f.messages(log), f.restored(t.saved, t.table))
    case None => None
    case Some(table) =>
      Some(t.(
        active := true, table := table, log := log, number := f.numberIn(log),
        sequence := t.sequence + |f.messages(log)|))
  }

  /** A committed command: load the tablet if it is not in memory, log, execute. */
  function LoggedAndExecuted(f: Formats, t: Tablet, command: string, number: nat): Option<Tablet> {
    match if t.active then Some(t) else Loaded(f, t)
    case None => None
    case Some(u) =>
      match f.execute(command, u.table)
      case None => None
      case Some(table) => Some(Logged(u, command, number).(table := table))
  }

  /** The process dies: the files stay. */
  function Crashed(t: Tablet): Tablet { FRESH.(log := t.log, saved := t.saved) }

  datatype Op =
    | Write(command: string, number: nat)
    | Flush
    | Checkpoint(batch: seq<(Key, string)>)
    | Clear(batch: seq<(Key, string)>)
    | Load
    | Crash

  function Apply(f: Formats, op: Op, t: Tablet): Option<Tablet> {
    match op
    case Write(command, number) => LoggedAndExecuted(f, t, command, number)
    case Flush => Some(Flushed(f, t))
    case Checkpoint(batch) => Some(Checkpointed(f, t, batch))
    case Clear(batch) => Some(Cleared(f, t, batch))
    case Load => Loaded(f, t)
    case Crash => Some(Crashed(t))
  }

  /** What loading would put in memory. */
  function Recoverable(f: Formats, t: Tablet): Option<Table> {
    f.replay(f.messages(f.started(t.log)), f.restored(t.saved, map[]))
  }

  /** The log file and then the queue, replayed over the checkpoint. */
  function ReplayedWithQueue(f: Formats, t: Tablet): Option<Table> {
    f.replay(f.messages(f.started(t.log)) + Messages(t.queue), f.restored(t.saved, map[]))
  }

  // ---------------------------------------------------------------- the promise

  /** What the tablet promises, without any text: the table, and the table a crash leaves. */
  datatype Promise = Promise(live: Table, durable: Table)

  /** What is known of commands and texts: the write a command stands for, the commands and
      writes that no format loses, and which items a log text holds. */
  datatype Theory = Theory(
    meaning: string -> Write,
    durable: string -> bool,
    storable: Write -> bool,
    isLog: (string, seq<Item>) -> bool)

  function Promised(th: Theory, op: Op, p: Promise): Promise {
    match op
    case Write(command, _) => p.(live := ApplyWrite(th.meaning(command), p.live))
    case Flush => p.(durable := p.live)
    case Checkpoint(_) => p.(durable := p.live)
    case Clear(_) => p.(durable := p.live)
    case Load => p
    case Crash => p.(live := p.durable)
  }

  /** A command is durable; checkpoints and evictions are of a tablet in memory and write each
      binding once; only a tablet that is not in memory is loaded. */
  ghost predicate Allowed(th: Theory, op: Op, t: Tablet) {
    match op
    case Write(command, _) => th.durable(command)
    case Checkpoint(batch) => t.active && IsBatch(batch, t.table)
    case Clear(batch) => t.active && IsBatch(batch, t.table)
    case Load => !t.active
    case _ => true
  }

  // ---------------------------------------------------------------- laws

  function Work(th: Theory, items: seq<Item>): seq<Write> {
    if items == [] then [] else Work(th, items[..|items| - 1]) + [th.meaning(items[|items| - 1].message)]
  }

  predicate AllDurable(th: Theory, items: seq<Item>) {
    forall i :: 0 <= i < |items| ==> th.durable(items[i].message)
  }

  predicate AllWritesStorable(th: Theory, ws: seq<Write>) {
    forall i :: 0 <= i < |ws| ==> th.storable(ws[i])
  }

  predicate StorableTable(th: Theory, t: Table) { forall k :: k in t ==> th.storable(Put(k, t[k])) }

  /** Starting a log keeps its items, and reading it gives their messages. */
  ghost predicate LogsAreRead(f: Formats, th: Theory) {
    forall log, items :: th.isLog(log, items) && AllDurable(th, items) ==>
      th.isLog(f.started(log), items) && f.started(log) != "" && f.messages(f.started(log)) == Messages(items)
  }

  /** Flushing appends items to a log that was started. */
  ghost predicate LogsAreAppended(f: Formats, th: Theory) {
    forall log, items, queue :: th.isLog(log, items) && log != "" ==>
      th.isLog(log + f.entries(queue), items + queue)
  }

  ghost predicate LogsAreReset(f: Formats, th: Theory) {
    forall n :: th.isLog(f.firstLine(n), []) && f.firstLine(n) != ""
  }

  ghost predicate NothingIsNothing(f: Formats, th: Theory) {
    f.entries([]) == "" && th.isLog("", []) && f.numberIn(f.started("")) == 1 && f.restored("", map[]) == map[]
  }

  ghost predicate BatchesAreRestored(f: Formats, th: Theory) {
    forall batch, t :: IsBatch(batch, t) && StorableTable(th, t) ==> f.restored(f.batch(batch), map[]) == t
  }

  ghost predicate CommandsAreWrites(f: Formats, th: Theory) {
    && (forall m :: th.durable(m) ==> th.storable(th.meaning(m)))
    && (forall m, t :: th.durable(m) ==> f.execute(m, t) == Some(ApplyWrite(th.meaning(m), t)))
    && forall items, t :: AllDurable(th, items) ==> f.replay(Messages(items), t) == Some(ApplyAll(Work(th, items), t))
  }

  ghost predicate Lawful(f: Formats, th: Theory) {
    LogsAreRead(f, th) && LogsAreAppended(f, th) && LogsAreReset(f, th) && NothingIsNothing(f, th)
    && BatchesAreRestored(f, th) && CommandsAreWrites(f, th)
  }

  // ---------------------------------------------------------------- the invariant

  /** All writes are `past`, then those of the log file, then those of the queue. The checkpoint
      has `past` and the first `kept` of the others; a log file that is not empty reaches at least
      as far as the checkpoint. */
  ghost predicate Covers(past: seq<Write>, filed: seq<Write>, queued: seq<Write>, kept: nat, saved: Table, p: Promise) {
    && kept <= |filed + queued| && (filed == [] || kept <= |filed|)
    && saved == ApplyAll(past + (filed + queued)[..kept], map[])
    && p.live == ApplyAll(past + (filed + queued), map[])
    && p.durable == ApplyAll(filed, saved)
  }

  ghost predicate Keeps(f: Formats, th: Theory, t: Tablet, p: Promise, items: seq<Item>, past: seq<Write>, kept: nat) {
    && th.isLog(t.log, items) && (t.log == "" ==> t.queue == [] && items == [] && !t.active)
    && AllDurable(th, items) && AllDurable(th, t.queue) && AllWritesStorable(th, past)
    && Covers(past, Work(th, items), Work(th, t.queue), kept, f.restored(t.saved, map[]), p)
    && t.table == (if t.active then p.live else map[])
    && (!t.active ==> p.durable == p.live)
  }

  ghost predicate Sound(f: Formats, th: Theory, t: Tablet, p: Promise) {
    exists items, past, kept :: Keeps(f, th, t, p, items, past, kept)
  }

  // ---------------------------------------------------------------- the promise, without text

  /** All that is behind the checkpoint's past, replayed over the checkpoint, gives the table of
      all writes. */
  lemma {:induction false} ReplayCatchesUp(saved: Table, past: seq<Write>, later: seq<Write>, kept: nat)
    requires kept <= |later| && saved == ApplyAll(past + later[..kept], map[])
    ensures ApplyAll(later, saved) == ApplyAll(past + later, map[])
  {
    assert later == later[..kept] + later[kept..];
    ReplayOverlap(past, later[..kept], later[kept..], map[]);
    assert past + later[..kept] + later[kept..] == past + later;
  }

  lemma CoversWrite(
      past: seq<Write>, filed: seq<Write>, queued: seq<Write>, kept: nat, saved: Table, p: Promise, w: Write)
    requires Covers(past, filed, queued, kept, saved, p)
    ensures Covers(past, filed, queued + [w], kept, saved, p.(live := ApplyWrite(w, p.live)))
  {
    Associative(filed, queued, [w]);
    Associative(past, filed + queued, [w]);
    OneMoreApplied(past + (filed + queued), w, map[]);
    assert ((filed + queued) + [w])[..kept] == (filed + queued)[..kept];
  }

  lemma {:induction false} OneMoreApplied(ws: seq<Write>, w: Write, t: Table)
    ensures ApplyAll(ws + [w], t) == ApplyWrite(w, ApplyAll(ws, t))
  {
    assert (ws + [w])[..|ws|] == ws;
  }

  lemma CoversFlush(past: seq<Write>, filed: seq<Write>, queued: seq<Write>, kept: nat, saved: Table, p: Promise)
    requires Covers(past, filed, queued, kept, saved, p)
    ensures Covers(past, filed + queued, [], kept, saved, p.(durable := p.live))
  {
    assert (filed + queued) + [] == filed + queued;
    ReplayCatchesUp(saved, past, filed + queued, kept);
  }

  lemma CoversCheckpoint(past: seq<Write>, filed: seq<Write>, queued: seq<Write>, kept: nat, saved: Table, p: Promise)
    requires Covers(past, filed, queued, kept, saved, p)
    ensures Covers(past + filed, [], queued, |queued|, p.live, p.(durable := p.live))
  {
    var none: seq<Write> := [];
    assert none + queued == queued;
    assert queued[..|queued|] == queued;
    Associative(past, filed, queued);
  }

  lemma {:induction false} CoversCrash(
      past: seq<Write>, filed: seq<Write>, queued: seq<Write>, kept: nat, saved: Table, p: Promise)
    returns (past': seq<Write>, kept': nat)
    requires Covers(past, filed, queued, kept, saved, p)
    ensures past' <= past + (filed + queued)
    ensures Covers(past', filed, [], kept', saved, p.(live := p.durable))
  {
    assert filed + [] == filed;
    if filed == [] {
      past', kept' := past + (filed + queued)[..kept], 0;
      assert past' + (filed + []) == past' && past' + (filed + [])[..0] == past';
    } else {
      past', kept' := past, kept;
      assert (filed + queued)[..kept] == filed[..kept];
      ReplayCatchesUp(saved, past, filed, kept);
    }
  }

  lemma {:induction false} WorkOfConcat(th: Theory, a: seq<Item>, b: seq<Item>)
    ensures Work(th, a + b) == Work(th, a) + Work(th, b)
    decreases |b|
  {
    if b == [] {
      assert a + b == a && Work(th, a) + [] == Work(th, a);
    } else {
      assert (a + b)[..|a + b| - 1] == a + b[..|b| - 1];
      WorkOfConcat(th, a, b[..|b| - 1]);
    }
  }

  lemma {:induction false} WorkIsStorable(f: Formats, th: Theory, items: seq<Item>)
    requires CommandsAreWrites(f, th) && AllDurable(th, items)
    ensures AllWritesStorable(th, Work(th, items)) && |Work(th, items)| == |items|
  {
    if items != [] { WorkIsStorable(f, th, items[..|items| - 1]); }
  }

  lemma {:induction false} AppliedIsStorable(th: Theory, ws: seq<Write>)
    requires AllWritesStorable(th, ws)
    ensures StorableTable(th, ApplyAll(ws, map[]))
  {
    if ws != [] {
      AppliedIsStorable(th, ws[..|ws| - 1]);
      assert th.storable(ws[|ws| - 1]);
    }
  }

  // ---------------------------------------------------------------- every operation keeps it

  lemma LoggedKeeps(
      f: Formats, th: Theory, t: Tablet, p: Promise, items: seq<Item>, past: seq<Write>, kept: nat, command: string,
      number: nat)
    requires Keeps(f, th, t, p, items, past, kept) && t.active && th.durable(command)
    ensures Keeps(f, th, Logged(t, command, number).(table := ApplyWrite(th.meaning(command), t.table)),
                  Promised(th, Write(command, number), p), items, past, kept)
  {
    var u := Logged(t, command, number);
    assert u.queue[..|u.queue| - 1] == t.queue;
    CoversWrite(past, Work(th, items), Work(th, t.queue), kept, f.restored(t.saved, map[]), p, th.meaning(command));
  }

  lemma FlushKeeps(f: Formats, th: Theory, t: Tablet, p: Promise, items: seq<Item>, past: seq<Write>, kept: nat)
    requires Keeps(f, th, t, p, items, past, kept) && LogsAreAppended(f, th) && NothingIsNothing(f, th)
    ensures Keeps(f, th, Flushed(f, t), Promised(th, Flush, p), items + t.queue, past, kept)
  {
    WorkOfConcat(th, items, t.queue);
    CoversFlush(past, Work(th, items), Work(th, t.queue), kept, f.restored(t.saved, map[]), p);
    if t.log == "" { assert items + t.queue == [] && t.log + f.entries(t.queue) == ""; }
  }

  /** What a table in memory binds can be stored, and so restored. */
  lemma LiveIsRestored(
      f: Formats, th: Theory, t: Tablet, p: Promise, items: seq<Item>, past: seq<Write>, kept: nat,
      batch: seq<(Key, string)>)
    requires Keeps(f, th, t, p, items, past, kept) && CommandsAreWrites(f, th) && BatchesAreRestored(f, th)
    requires t.active && IsBatch(batch, t.table)
    ensures f.restored(f.batch(batch), map[]) == t.table
  {
    WorkIsStorable(f, th, items);
    WorkIsStorable(f, th, t.queue);
    AppliedIsStorable(th, past + (Work(th, items) + Work(th, t.queue)));
  }

  lemma {:induction false} CheckpointKeeps(
      f: Formats, th: Theory, t: Tablet, p: Promise, items: seq<Item>, past: seq<Write>, kept: nat,
      batch: seq<(Key, string)>)
    requires Keeps(f, th, t, p, items, past, kept) && LogsAreReset(f, th) && CommandsAreWrites(f, th)
    requires t.active && f.restored(f.batch(batch), map[]) == t.table
    ensures Keeps(f, th, Checkpointed(f, t, batch), p.(durable := p.live), [], past + Work(th, items),
              |Work(th, t.queue)|)
  {
    WorkIsStorable(f, th, items);
    CoversCheckpoint(past, Work(th, items), Work(th, t.queue), kept, f.restored(t.saved, map[]), p);
  }

  /** Behind a checkpoint nothing is lost by leaving memory. */
  lemma EvictKeeps(f: Formats, th: Theory, t: Tablet, p: Promise, items: seq<Item>, past: seq<Write>, kept: nat)
    requires Keeps(f, th, t, p, items, past, kept) && p.durable == p.live
    ensures Keeps(f, th, t.(active := false, table := map[]), p, items, past, kept)
  {
  }

  lemma LoadKeeps(f: Formats, th: Theory, t: Tablet, p: Promise, items: seq<Item>, past: seq<Write>, kept: nat)
    requires Keeps(f, th, t, p, items, past, kept) && LogsAreRead(f, th) && CommandsAreWrites(f, th) && !t.active
    ensures Loaded(f, t).Some? && Loaded(f, t).value.active && Keeps(f, th, Loaded(f, t).value, p, items, past, kept)
  {
    assert f.replay(Messages(items), f.restored(t.saved, t.table)) ==
           Some(ApplyAll(Work(th, items), f.restored(t.saved, t.table)));
  }

  lemma {:induction false} CrashKeeps(
      f: Formats, th: Theory, t: Tablet, p: Promise, items: seq<Item>, past: seq<Write>, kept: nat)
    returns (past': seq<Write>, kept': nat)
    requires Keeps(f, th, t, p, items, past, kept) && CommandsAreWrites(f, th)
    ensures Keeps(f, th, Crashed(t), Promised(th, Crash, p), items, past', kept')
  {
    WorkIsStorable(f, th, items);
    WorkIsStorable(f, th, t.queue);
    past', kept' := CoversCrash(past, Work(th, items), Work(th, t.queue), kept, f.restored(t.saved, map[]), p);
    assert AllWritesStorable(th, past + (Work(th, items) + Work(th, t.queue)));
  }

  lemma WriteKeeps(
      f: Formats, th: Theory, t: Tablet, p: Promise, items: seq<Item>, past: seq<Write>, kept: nat, command: string,
      number: nat)
    requires Keeps(f, th, t, p, items, past, kept) && Lawful(f, th) && th.durable(command)
    ensures var u := LoggedAndExecuted(f, t, command, number);
      u.Some? && Keeps(f, th, u.value, Promised(th, Write(command, number), p), items, past, kept)
  {
    var l := t;
    if !t.active {
      LoadKeeps(f, th, t, p, items, past, kept);
      l := Loaded(f, t).value;
    }
    LoggedKeeps(f, th, l, p, items, past, kept, command, number);
  }

  lemma BatchIsRestored(f: Formats, th: Theory, t: Tablet, p: Promise, batch: seq<(Key, string)>)
    requires Sound(f, th, t, p) && CommandsAreWrites(f, th) && BatchesAreRestored(f, th)
    requires t.active && IsBatch(batch, t.table)
    ensures f.restored(f.batch(batch), map[]) == t.table
  {
    var items, past, kept :| Keeps(f, th, t, p, items, past, kept);
    LiveIsRestored(f, th, t, p, items, past, kept, batch);
  }

  lemma CheckpointIsSound(f: Formats, th: Theory, t: Tablet, p: Promise, batch: seq<(Key, string)>)
    requires Sound(f, th, t, p) && LogsAreReset(f, th) && CommandsAreWrites(f, th)
    requires t.active && f.restored(f.batch(batch), map[]) == t.table
    ensures Sound(f, th, Checkpointed(f, t, batch), p.(durable := p.live))
  {
    var items, past, kept :| Keeps(f, th, t, p, items, past, kept);
    CheckpointKeeps(f, th, t, p, items, past, kept, batch);
  }

  lemma EvictIsSound(f: Formats, th: Theory, t: Tablet, p: Promise)
    requires Sound(f, th, t, p) && p.durable == p.live
    ensures Sound(f, th, t.(active := false, table := map[]), p)
  {
    var items, past, kept :| Keeps(f, th, t, p, items, past, kept);
    EvictKeeps(f, th, t, p, items, past, kept);
  }

  lemma WriteIsSound(f: Formats, th: Theory, t: Tablet, p: Promise, command: string, number: nat)
    requires Sound(f, th, t, p) && Lawful(f, th) && th.durable(command)
    ensures var u := LoggedAndExecuted(f, t, command, number);
            u.Some? && Sound(f, th, u.value, Promised(th, Write(command, number), p))
  {
    var items, past, kept :| Keeps(f, th, t, p, items, past, kept);
    WriteKeeps(f, th, t, p, items, past, kept, command, number);
  }

  lemma FlushIsSound(f: Formats, th: Theory, t: Tablet, p: Promise)
    requires Sound(f, th, t, p) && LogsAreAppended(f, th) && NothingIsNothing(f, th)
    ensures Sound(f, th, Flushed(f, t), p.(durable := p.live))
  {
    var items, past, kept :| Keeps(f, th, t, p, items, past, kept);
    FlushKeeps(f, th, t, p, items, past, kept);
  }

  lemma LoadIsSound(f: Formats, th: Theory, t: Tablet, p: Promise)
    requires Sound(f, th, t, p) && LogsAreRead(f, th) && CommandsAreWrites(f, th) && !t.active
    ensures Loaded(f, t).Some? && Sound(f, th, Loaded(f, t).value, p)
  {
    var items, past, kept :| Keeps(f, th, t, p, items, past, kept);
    LoadKeeps(f, th, t, p, items, past, kept);
  }

  lemma CrashIsSound(f: Formats, th: Theory, t: Tablet, p: Promise)
    requires Sound(f, th, t, p) && CommandsAreWrites(f, th)
    ensures Sound(f, th, Crashed(t), p.(live := p.durable))
  {
    var items, past, kept :| Keeps(f, th, t, p, items, past, kept);
    var past', kept' := CrashKeeps(f, th, t, p, items, past, kept);
  }

  /** Every allowed operation succeeds and keeps the promise it changes. */
  lemma ApplyKeeps(f: Formats, th: Theory, op: Op, t: Tablet, p: Promise)
    requires Sound(f, th, t, p) && Lawful(f, th) && Allowed(th, op, t)
    ensures Apply(f, op, t).Some? && Sound(f, th, Apply(f, op, t).value, Promised(th, op, p))
  {
    match op
    case Write(command, number) => WriteIsSound(f, th, t, p, command, number);
    case Flush => FlushIsSound(f, th, t, p);
    case Checkpoint(batch) =>
      BatchIsRestored(f, th, t, p, batch);
      CheckpointIsSound(f, th, t, p, batch);
    case Clear(batch) =>
      BatchIsRestored(f, th, t, p, batch);
      CheckpointIsSound(f, th, t, p, batch);
      EvictIsSound(f, th, Checkpointed(f, t, batch), p.(durable := p.live));
    case Load => LoadIsSound(f, th, t, p);
    case Crash => CrashIsSound(f, th, t, p);
  }

  // ---------------------------------------------------------------- runs

  /** The states and promises of a run. */
  ghost predicate IsRun(f: Formats, th: Theory, run: seq<(Tablet, Promise)>, ops: seq<Op>) {
    && |run| == |ops| + 1
    && run[0] == (FRESH, Promise(map[], map[]))
    && (forall i :: 0 <= i < |ops| ==> Allowed(th, ops[i], run[i].0))
    && forall i :: 0 <= i < |ops| ==>
         Apply(f, ops[i], run[i].0) == Some(run[i + 1].0) && run[i + 1].1 == Promised(th, ops[i], run[i].1)
  }

  lemma FreshIsSound(f: Formats, th: Theory)
    requires NothingIsNothing(f, th)
    ensures Sound(f, th, FRESH, Promise(map[], map[]))
  {
    var none: seq<Write> := [];
    assert none + (none + none) == none && none + (none + none)[..0] == none;
    assert Covers([], [], [], 0, map[], Promise(map[], map[]));
    assert Keeps(f, th, FRESH, Promise(map[], map[]), [], [], 0);
  }

  lemma {:induction false} RunIsSound(f: Formats, th: Theory, run: seq<(Tablet, Promise)>, ops: seq<Op>, i: nat)
    requires IsRun(f, th, run, ops) && Lawful(f, th) && i < |run|
    ensures Sound(f, th, run[i].0, run[i].1)
    decreases i
  {
    if i == 0 {
      FreshIsSound(f, th);
    } else {
      RunIsSound(f, th, run, ops, i - 1);
      ApplyKeeps(f, th, ops[i - 1], run[i - 1].0, run[i - 1].1);
    }
  }

  lemma {:induction false} MessagesOfConcat(a: seq<Item>, b: seq<Item>)
    ensures Messages(a + b) == Messages(a) + Messages(b)
    decreases |a|
  {
    if a == [] {
      assert a + b == b;
    } else {
      assert (a + b)[1..] == a[1..] + b;
      MessagesOfConcat(a[1..], b);
    }
  }

  /** The log file alone gives the table that a crash leaves. */
  lemma SoundRecovers(f: Formats, th: Theory, t: Tablet, p: Promise)
    requires Sound(f, th, t, p) && LogsAreRead(f, th) && CommandsAreWrites(f, th)
    ensures Recoverable(f, t) == Some(p.durable)
  {
    var items, past, kept :| Keeps(f, th, t, p, items, past, kept);
    var saved := f.restored(t.saved, map[]);
    assert f.replay(Messages(items), saved) == Some(ApplyAll(Work(th, items), saved));
  }

  /** Log file and queue replayed over the checkpoint give the promised table. */
  lemma SoundReplays(f: Formats, th: Theory, t: Tablet, p: Promise)
    requires Sound(f, th, t, p) && LogsAreRead(f, th) && CommandsAreWrites(f, th)
    ensures ReplayedWithQueue(f, t) == Some(p.live)
  {
    var items, past, kept :| Keeps(f, th, t, p, items, past, kept);
    assert f.messages(f.started(t.log)) == Messages(items);
    ItemsReplay(f, th, items, t.queue, f.restored(t.saved, map[]));
    ReplayCatchesUp(f.restored(t.saved, map[]), past, Work(th, items) + Work(th, t.queue), kept);
  }

  lemma {:induction false} ItemsReplay(f: Formats, th: Theory, items: seq<Item>, queue: seq<Item>, saved: Table)
    requires CommandsAreWrites(f, th) && AllDurable(th, items) && AllDurable(th, queue)
    ensures f.replay(Messages(items) + Messages(queue), saved) ==
            Some(ApplyAll(Work(th, items) + Work(th, queue), saved))
  {
    MessagesOfConcat(items, queue);
    WorkOfConcat(th, items, queue);
    assert AllDurable(th, items + queue);
  }
}
