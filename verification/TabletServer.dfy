/** The functions of the server that change a tablet in place, proved to do what Tablet says. */
module TabletServer {
  import opened Text
  import opened Commands
  import opened WriteAheadLog
  import opened CheckpointFile
  import opened Tablet
  import opened TabletTexts

  lemma {:induction false} SavedOneMore(batch: seq<(Key, string)>, b: (Key, string))
    ensures SavedText(batch + [b]) == SavedText(batch) + (SavedEntry(b.0, b.1) + ['\n'])
    decreases |batch|
  {
    if batch == [] {
      assert [b][1..] == [];
    } else {
      assert (batch + [b])[1..] == batch[1..] + [b];
      SavedOneMore(batch[1..], b);
    }
  }

  lemma {:induction false} FlushedNext(log: string, queue: seq<Item>)
    requires queue != []
    ensures (log + (EntryText(queue[0]) + END + ['\n'])) + FlushedText(queue[1..]) == log + FlushedText(queue)
  {
  }

  /** The bindings of the table that are not left have been met, each once. */
  ghost predicate Met(batch: seq<(Key, string)>, left: set<Key>, t: Table) {
    && left <= t.Keys
    && (forall i :: 0 <= i < |batch| ==> batch[i].0 in t && t[batch[i].0] == batch[i].1 && batch[i].0 !in left)
    && (forall k :: k in t && k !in left ==> exists i :: 0 <= i < |batch| && batch[i].0 == k)
    && forall i, j :: 0 <= i < j < |batch| ==> batch[i].0 != batch[j].0
  }

  lemma MeetOneMore(batch: seq<(Key, string)>, left: set<Key>, t: Table, key: Key)
    requires Met(batch, left, t) && key in left
    ensures Met(batch + [(key, t[key])], left - {key}, t)
  {
    var more := batch + [(key, t[key])];
    forall k | k in t && k !in left - {key} ensures exists i :: 0 <= i < |more| && more[i].0 == k {
      if k == key {
        assert more[|batch|].0 == k;
      } else {
        var i :| 0 <= i < |batch| && batch[i].0 == k;
        assert more[i].0 == k;
      }
    }
  }

  /** The loop of create_new_checkpoint: every binding of the table once, in any order. */
  method CollectBatch(t: Table) returns (text: string, batch: seq<(Key, string)>)
    ensures IsBatch(batch, t) && text == SavedText(batch)
  {
    batch, text := [], "";
    var left := t.Keys;
    while left != {}
      invariant Met(batch, left, t)
      invariant text == SavedText(batch)
      decreases left
    {
      var key :| key in left;
      SavedOneMore(batch, (key, t[key]));
      MeetOneMore(batch, left, t, key);
      text := text + (SavedEntry(key, t[key]) + ['\n']);
      batch := batch + [(key, t[key])];
      left := left - {key};
    }
  }

  class TabletStore {
    var table: Table
    var active: bool
    var queue: seq<Item>
    var log: string
    var saved: string
    var number: nat
    var sequence: nat

    ghost function View(): Tablet
      reads this
    {
      Tablet(table, active, queue, log, saved, number, sequence)
    }

    /** A server that starts on the files that another one left. */
    constructor (log: string, saved: string)
      ensures View() == FRESH.(log := log, saved := saved)
    {
      table, active, queue, number, sequence := map[], false, [], 0, 0;
      this.log, this.saved := log, saved;
    }

    /** log_message. */
    method LogMessage(message: string, transaction: nat)
      modifies this
      ensures View() == Logged(old(View()), message, transaction)
    {
      sequence := sequence + 1;
      queue := queue + [Item(sequence, message, transaction)];
    }

    /** flush_log: entry by entry. */
    method FlushLog()
      modifies this
      ensures View() == Flushed(TEXTS, old(View()))
    {
      ghost var before := View();
      ghost var all := log + FlushedText(queue);
      while queue != []
        invariant View() == before.(queue := queue, log := log)
        invariant log + FlushedText(queue) == all
        decreases |queue|
      {
        FlushedNext(log, queue);
        log := log + (EntryText(queue[0]) + END + ['\n']);
        queue := queue[1..];
      }
      assert log + FlushedText([]) == log;
    }

    /** create_new_checkpoint: the bindings in any order, then the log is reset. */
    method CreateNewCheckpoint() returns (batch: seq<(Key, string)>)
      modifies this
      ensures IsBatch(batch, old(table))
      ensures View() == Checkpointed(TEXTS, old(View()), batch)
    {
      number := number + 1;
      saved := "";
      var text;
      text, batch := CollectBatch(table);
      saved := saved + text;
      assert "" + text == text;
      log := FileText(number, []);
      sequence := 0;
    }

    /** clear_tablet. */
    method ClearTablet() returns (batch: seq<(Key, string)>)
      modifies this
      ensures IsBatch(batch, old(table))
      ensures View() == Cleared(TEXTS, old(View()), batch)
    {
      batch := CreateNewCheckpoint();
      active := false;
      table := map[];
    }

    /** recover_table: the messages of the log, one after the other; ok is false when replaying
        one threw. */
    method RecoverTable() returns (ok: bool)
      modifies this
      ensures var before, messages := old(View()), MessagesIn(StartedLog(old(log)));
        match ReplayAll(messages, before.table)
        case None => !ok
        case Some(t) => ok && View() == before.(table := t, log := StartedLog(before.log),
                          number := CheckpointIn(StartedLog(before.log)), sequence := before.sequence + |messages|)
    {
      if log == "" { log := FileText(1, []); }
      var messages;
      number, messages := ReadLogFile(log);
      ghost var start, all := View(), ReplayAll(messages, table);
      var i := 0;
      while i < |messages|
        invariant i <= |messages|
        invariant View() == start.(table := table, sequence := start.sequence + i)
        invariant ReplayAll(messages[i..], table) == all
      {
        match Replay(messages[i], table) {
          case None => return false;
          case Some(t) => table := t;
        }
        sequence := sequence + 1;
        i := i + 1;
      }
      ok := true;
    }

    /** load_tablet. */
    method LoadTablet() returns (ok: bool)
      modifies this
      ensures ok <==> Loaded(TEXTS, old(View())).Some?
      ensures ok ==> Loaded(TEXTS, old(View())) == Some(View())
    {
      active := true;
      table := RestoreTable(READER, saved, table);
      ok := RecoverTable();
    }

    /** A committed command: load, log, execute. */
    method LogAndExecute(command: string, transaction: nat) returns (ok: bool)
      modifies this
      ensures ok <==> LoggedAndExecuted(TEXTS, old(View()), command, transaction).Some?
      ensures ok ==> LoggedAndExecuted(TEXTS, old(View()), command, transaction) == Some(View())
    {
      if !active {
        ok := LoadTablet();
        if !ok { return; }
      }
      LogMessage(command, transaction);
      match Execute(command, table) {
        case None => ok := false;
        case Some(t) =>
          table := t;
          ok := true;
      }
    }
  }
}
