# A verified model of the replicated tablet store

The repository is a small cloud platform: a frontend, a coordinator and storage servers. The storage
servers of a partition hold tables of (row, column) values. One of them, the primary, runs a two-phase
commit over the others; each keeps its tablets in memory, in an append-only log file and in a
checkpoint file. This project models that store and the pieces of the frontend and the coordinator
around it, and proves what they promise.

| file | what it models |
|---|---|
| `Collections.dfy` | two facts about sequences and sets |
| `Text.dfy` | the string operations of C++ that the servers use: find, getline, substr, atoi, white space, CRLF lines |
| `Commands.dfy` | the two interpreters of PUT, CPUT and DELETE: execution on the live table and replay from a log |
| `Writes.dfy` | sequences of writes and what replaying a part of a history does |
| `WriteAheadLog.dfy`, `TornLog.dfy` | the log file, its parser, the parser of the text sent to replicas, and a log that was cut |
| `CheckpointFile.dfy` | the checkpoint file and its parser |
| `Tablet.dfy`, `TabletTexts.dfy`, `TabletServer.dfy`, `TabletRuns.dfy`, `TabletCrashes.dfy` | a tablet over its life: write, flush, checkpoint, eviction, load, crash |
| `CatchUp.dfy`, `CatchUpRuns.dfy` | a replica that takes over the primary's log, and what the operations on the primary's tablet do to its numbering |
| `TpcNode.dfy`, `TpcServer.dfy` | one server's part of two-phase commit, as a value and as a class of mutable fields |
| `TpcNodeSafety.dfy`, `TpcSystem.dfy`, `TpcAgreement.dfy`, `TpcUnanimity.dfy`, `TpcMirror.dfy`, `TpcProgress.dfy`, `TpcClients.dfy`, `TpcReplies.dfy` | primary, replicas, channels and clients as a transition system, and its invariants |
| `TpcRowLocks.dfy`, `TpcLocks.dfy`, `TpcUnlock.dfy`, `TpcTrespass.dfy` | row locks: the invariant, the unlock of an ABORT, and runs in which it does harm |
| `TpcLost.dfy` | writes that the draining of the program loses |
| `TpcOneReplica.dfy` | runs with one replica, of which the counterexamples are made |
| `TpcPrepared.dfy`, `TpcLog.dfy`, `TpcTakeOver.dfy` | what is in the 2PC log, the scan of the 2PC log and the recovery of a new primary |
| `Coordinator.dfy` | alive and paused servers and the choice of a primary |
| `Framing.dfy` | reassembly of CRLF messages from reads |
| `Base64.dfy`, `Chunked.dfy` | the two codecs of the frontend, against RFC 4648 and RFC 9112 |

The classes (`Server`, `TabletStore`, `ReplicaTablet`, `TpcState`, `Connection`, `Coordinator.Server`)
have the program's globals as fields and its handlers as methods. Each method is proved equal to a
function on values, and the main results are proved about those functions over all runs.

The string functions that read one line of a checkpoint file are a parameter of what is proved about
the whole file (`CheckpointFile.Reader`), and the text formats are a parameter of what is proved about
a tablet (`Tablet.Formats`). `ReaderIsLawful` and `ServersAreLawful` prove of the servers' own string
functions and formats all that those proofs ask for.

## Where the code departs from its intent

The model follows the code. Where a property fails as the code stands, there is a lemma that shows it
fail and one that says exactly when it holds.

- `process_tpc_queue` increments the number before it erases, returns with the queue mutex held when
  the head is undecided, and logs the incremented number. `TpcNode.Program` carries a flag for the
  repaired loop; agreement and convergence are proved for both, `AsWrittenMeetsIntentIff` says when they
  make the same progress, and `NothingLostIff` in which runs of the program no write is lost: those in
  which the primary never processes a transaction while the next is in flight. Two writes are enough to
  stop the system for good (`SecondWriteIsLost`).
- An ABORT releases the row lock even if another transaction holds it. Lock ownership needs nothing else:
  it holds in every run of the program that asks who holds the lock, and of the program as it is in
  every run in which no ABORT finds its key held by another (`GuardIsExact`). With the draining as it is
  that is so for ordinary writes (`OrdinaryWritesSpare`), not for a text cut short
  (`MalformedTextTrespasses`); once the draining is repaired, four PUTs of one row break it
  (`OrdinaryWritesTrespass`).
- The vote test compares set sizes: a replica that leaves can turn a NO into a COMMIT
  (`CommitAgainstANo`). Lock ownership survives that: whoever has a committed transaction in its queue
  holds its lock, whatever it voted.
- A write that is executed without replicas takes a transaction number before its lock is refused
  (`WriteAloneKeepsNumberingIff`), and the number of a transaction in flight if there is one
  (`WriteAloneTakesNumber`).
- A new primary's scan leaves numbers pending that its recovery then skips or cannot process
  (`LeftoverExample`, `StalledForever`, `FreshPrimaryMovesIff`).
- A checkpoint does not drain the log queue and clears its files before it has written them
  (`TabletCrashes`); a torn entry stays in the log and the next flush goes on behind it
  (`TornTailSpoilsNextIff`); entries keep their old indices, so a checkpoint with a queue stops a replica
  from catching up (`QueuedCheckpointStopsCatchUp`), and one without does not
  (`FlushedCheckpointsCatchUp`); a new checkpoint is written twice into an empty replica log
  (`HigherCheckpointIff`).
- CPUT searches the whole command when executed and the values only when replayed, and is not
  idempotent (`CputAgreesIff`, `CputAgain`, `CheckpointBeforeFlushIff`).
- `operator[]` records the empty string as a partition's primary, for good (`BecomesNoneIff`,
  `NoneIsForGoodInRuns`); the size comparison of `choose_random_server` is right only while every paused
  server is alive (`ChoosesRightIff`).
- An empty value and a value that starts with a newline do survive the checkpoint file
  (`EntryRoundTripIff`); a blank line in it would swallow the entry behind it (`BlankLineMisfiles`).
- A refused write of a primary without replicas is answered at once even while its tablet is under
  checkpoint, when all other answers wait (`WriteAloneAnswers`).

## Model

| member | source | states |
|---|---|---|
| Text.JoinSplit | backend/src/utils.cpp:1081-1090 | splitting at blanks and joining again gives the text less one trailing blank, for every text |
| Text.CutCrlfCuts | backend/src/threads.cpp:872-886 | nothing is cut off exactly when there is no CRLF; what is cut off has none inside |
| Commands.TokensOf | backend/src/utils.cpp:1072-1075 | split and find/substr see the same verb, row, column and values of every command with three tokens |
| Commands.AbortKeyIsLockKey | backend/src/utils.cpp:1253-1268 | the key an ABORT unlocks is the key that was locked, whenever one was |
| Commands.MalformedAbortKey | backend/src/utils.cpp:1254-1268 | a refused two-word command has no lock but its ABORT unlocks a key |
| Commands.PutTextKey | backend/src/utils.cpp:1123-1131 | a PUT of blank-free row and column locks that row and column |
| Commands.PutAgreesIff | backend/src/utils.cpp:1079-1095 | PUT executed and replayed agree on a table iff a value follows the column and does not end in a blank |
| Commands.DeleteAgreesIff | backend/src/utils.cpp:525-538 | DELETE executed and replayed agree iff nothing follows the column or neither key is bound |
| Commands.CputAgreesIff | backend/src/utils.cpp:1096-1105 | CPUT executed and replayed agree on a table iff the key is bound and its value first occurs among the values, or only directly in front of them or at the end of the command, or nowhere and is longer than the command |
| Commands.ExecuteThrowsIff | backend/src/utils.cpp:1062-1117 | executing throws exactly at fewer than three tokens, and at a CPUT whose old value is longer than the command or ends it without an earlier occurrence |
| Commands.ReplayThrowsIff | backend/src/utils.cpp:471-543 | replaying throws exactly at a CPUT of a bound key whose value is longer than the values or ends them without an earlier occurrence |
| Commands.ExecuteStaysInLock | backend/src/utils.cpp:1062-1117 | executing any command changes nothing but the key whose row lock is held |
| Commands.ReplayStaysAtKey | backend/src/utils.cpp:471-543 | replaying any message changes nothing but its key, and nothing at all unless it starts with one of the three verbs and has two blanks |
| Commands.PutPrefixDiverges | backend/src/threads.cpp:1208-1216 | a verb that only starts with PUT is ignored (its lock kept) when executed and performed when replayed |
| Commands.ReleasesIffChanges | backend/src/utils.cpp:1079-1117 | a commit unlocks exactly the commands that can change a table |
| Commands.PlainMeans | backend/src/utils.cpp:471-543 | both interpreters do the one write that a plain PUT or DELETE stands for, on every table |
| Writes.ReplayIsNoOp | backend/src/utils.cpp:983-1027 | replaying a suffix that the checkpoint already has changes nothing |
| Writes.ReplayOverlap | backend/src/utils.cpp:1700-1702 | a log that overlaps the checkpoint and goes on behind it replays to the table at its own end |
| Writes.ReplayRevertsIff | backend/src/utils.cpp:1005-1009 | a log that ends before the checkpoint keeps the table iff nothing it writes was left different later |
| Writes.ReplayOverNothingIff | backend/src/utils.cpp:990-991 | without the checkpoint the same table results iff the log writes every key it bound |
| Writes.ReplayApplies | backend/src/utils.cpp:582-626 | replaying plain messages in order applies exactly their writes and never throws |
| WriteAheadLog.ReadLogFile | backend/src/utils.cpp:560-628 | the line loop with its multi-line state reads the number and messages that the specification says |
| WriteAheadLog.LogFileRoundTripIff | backend/src/utils.cpp:419-456 | the flushed file parses back to exactly the messages iff none has the delimiter in front of its last newline; the number always |
| WriteAheadLog.WireRoundTripIff | backend/src/utils.cpp:864-889 | the wire parser cuts the file into exactly the written entries iff no message has the delimiter |
| WriteAheadLog.BothParsersAgree | backend/src/utils.cpp:821-899 | without delimiters in messages both parsers read the same list |
| WriteAheadLog.EntryFields | backend/src/utils.cpp:866-882 | index and message of an entry are those that were logged |
| WriteAheadLog.EntryNumber | backend/src/utils.cpp:419-428 | what it drops behind the message is the transaction's number |
| WriteAheadLog.AppendedFile | backend/src/utils.cpp:448-454 | flushing a queue onto a file gives the file of all entries |
| TornLog.TornFlushIsRead | backend/src/utils.cpp:582-626 | a flush cut at any character is read as the earlier entries and the complete ones, never part of one |
| TornLog.TornTailIsRead | backend/src/utils.cpp:441-454 | behind a tear at any character, exactly what is read instead of the torn entry and the next one; the earlier and the later entries are read |
| TornLog.TornTailSpoilsNextIff | backend/src/utils.cpp:441-454 | the next flush is read as itself iff the tear is within the index; if only the newline was missing the torn entry, readable before, is lost too |
| CheckpointFile.RestoreTable | backend/src/utils.cpp:631-710 | the line loop restores the table that the specification says, whatever the file |
| CheckpointFile.ReaderIsLawful | backend/src/utils.cpp:653-665 | the servers' string functions split every entry at its words, cut it at its first delimiter and yield nothing of another shape, which is what the two results below ask of a reader |
| CheckpointFile.CheckpointRoundTrip | backend/src/utils.cpp:998-1005 | restoring a written checkpoint gives back the table, for any order of its bindings |
| CheckpointFile.EntryRoundTripIff | backend/src/utils.cpp:650-708 | a binding survives behind any earlier entry iff row and column are words, the value starts cleanly and the appended delimiter is the first |
| CheckpointFile.DelimiterOverlaps | backend/src/utils.cpp:655-665 | that last condition: no delimiter inside and not ending in its first five or six characters |
| CheckpointFile.BlankLineMisfiles | backend/src/utils.cpp:650-660 | a blank line makes the entry behind it the value of the row and column read last |
| Tablet.ApplyKeeps | backend/src/utils.cpp:1625-1703 | every allowed operation succeeds and takes a sound tablet to a sound one with the promise it changes |
| Tablet.SoundReplays | backend/src/utils.cpp:1700-1702 | log file and queue replayed over the checkpoint give the live table |
| Tablet.SoundRecovers | backend/src/utils.cpp:1756-1777 | the files alone give the table of the last flush or checkpoint |
| TabletTexts.TextsAreLawful | backend/src/utils.cpp:419-710 | the two file formats and the two interpreters obey the laws that the tablet needs, with any lawful reader of checkpoint lines |
| TabletTexts.ServersAreLawful | backend/src/utils.cpp:419-710 | so do the servers' own, with which the results on any lawful formats are about the servers |
| TabletTexts.TabletKeepsItsPromise | backend/src/utils.cpp:983-1027 | over all runs of writes, flushes, checkpoints, evictions, loads and crashes: memory, log and queue over checkpoint, and what a crash leaves, are the promised tables |
| TabletTexts.PromiseIsHistory | backend/src/utils.cpp:431-456 | the promised table is that of all writes made, and a crash leaves that of the prefix up to the last flush or checkpoint |
| TabletTexts.NoOperationThrows | backend/src/utils.cpp:1684-1703 | no allowed operation throws after any run |
| TabletRuns.RunStands | backend/src/utils.cpp:983-1018 | at every moment of every run, crashes included, the number in the log file is one more than the checkpoints and evictions made; the server's counter is that number as soon as it has read or reset the log; the tablet is in memory iff the last operation that moves it brought it in, and holds nothing otherwise |
| TabletRuns.HigherNumberIff | backend/src/utils.cpp:839-863 | the number in the log file is higher at a later moment iff a checkpoint was written in between, which is what a replica looks at |
| TabletRuns.TextsKeepNumbers | backend/src/utils.cpp:560-580 | the number on the first line is read back from the servers' log files, however often they are started or appended to |
| TabletServer.CollectBatch | backend/src/utils.cpp:998-1004 | the batch has every binding of the table exactly once |
| TabletServer.TabletStore.FlushLog | backend/src/utils.cpp:431-456 | the loop appends all queued entries to the file and empties the queue |
| TabletServer.TabletStore.CreateNewCheckpoint | backend/src/utils.cpp:983-1027 | the checkpoint file has the table's bindings, the log is reset to its number, the queue stays |
| TabletServer.TabletStore.ClearTablet | backend/src/utils.cpp:1625-1631 | a checkpoint, then the tablet leaves memory |
| TabletServer.TabletStore.RecoverTable | backend/src/utils.cpp:560-628 | the table, number and sequence after the log was replayed; false iff a replay threw |
| TabletServer.TabletStore.LoadTablet | backend/src/utils.cpp:1684-1703 | checkpoint and log are loaded as specified; false iff that throws |
| TabletServer.TabletStore.LogAndExecute | backend/src/utils.cpp:1197-1211 | load if absent, log, execute, as specified; false iff that throws |
| TabletCrashes.CheckpointKeepsIff | backend/src/threads.cpp:1153-1159 | a checkpoint on the primary's word keeps the recoverable table iff the tablet is in memory or empty |
| TabletCrashes.CrashAfterClearIff | backend/src/utils.cpp:990-1005 | a crash with the checkpoint file cleared loses nothing iff the log writes every key the checkpoint bound |
| TabletCrashes.CrashAfterBatchIff | backend/src/utils.cpp:1005-1009 | a crash with the new checkpoint and the old log keeps the table iff the queue left nothing different that the log writes |
| TabletCrashes.CrashAfterLogClear | backend/src/utils.cpp:1009-1018 | a crash with the log cleared keeps the table and restarts the checkpoint number at 1 |
| TabletCrashes.CrashBeforeClose | backend/src/utils.cpp:991-1018 | a crash with the batch still buffered leaves the empty table |
| TabletCrashes.LateCrashInFlush | backend/src/utils.cpp:448-454 | a flush that dies behind what the checkpoint has leaves a prefix of the history |
| TabletCrashes.EarlyCrashInFlushIff | backend/src/utils.cpp:448-454 | one that dies before that keeps the checkpointed table iff the rest of the checkpointed queue left nothing different |
| TabletCrashes.CputAgain | backend/src/utils.cpp:509-524 | a CPUT replayed over its own result: exactly when it throws and exactly when it changes nothing |
| TabletCrashes.CheckpointBeforeFlushIff | backend/src/utils.cpp:983-1027 | a checkpoint between a CPUT and its flush makes the tablet unloadable iff the new value first occurs at its own place |
| CatchUp.TakeEntries | backend/src/utils.cpp:864-889 | the loop appends, replays and counts exactly the entries that are not skipped |
| CatchUp.ReplicaTablet.ParseLogString | backend/src/utils.cpp:821-899 | log file, number, sequence and table after a received log; false iff a replay threw |
| CatchUp.SentLogArrives | backend/src/utils.cpp:774-808 | trimming, the added newline and the two cut words give back exactly the primary's file |
| CatchUp.CatchUpIff | backend/src/utils.cpp:871-888 | under the same checkpoint the replica's file becomes the primary's iff its sequence cuts the indices where its file ends |
| CatchUp.CatchesUp | backend/src/utils.cpp:871-897 | with well numbered entries, file, sequence and table become the primary's |
| CatchUp.FallingIndexIsNeverCaughtUp | backend/src/utils.cpp:1010 | with indices that fall between held and missing entries no sequence lets a replica catch up |
| CatchUpRuns.QueuedCheckpointStopsCatchUp | backend/src/utils.cpp:1007-1018 | in every run: a checkpoint while entries are queued, a flush that a replica gets, a write and a flush; that replica never has the primary's file, whatever its sequence |
| CatchUpRuns.QueuedRun | backend/src/utils.cpp:419-428 | one write from empty files reaches such a state |
| CatchUpRuns.FlushedCheckpointsCatchUp | backend/src/utils.cpp:871-888 | in every run whose checkpoints and evictions find an empty queue the file is numbered 1, 2, 3 … and a replica with any first part of it gets the primary's file and sequence |
| CatchUp.ReceivingAgainChangesNothing | backend/src/utils.cpp:821-899 | processing any received text a second time changes nothing |
| CatchUp.HigherCheckpoint | backend/src/utils.cpp:839-863 | under a higher checkpoint the file becomes the primary's, with its first line doubled if it was empty |
| CatchUp.HigherCheckpointIff | backend/src/utils.cpp:839-863 | it then holds the primary's messages iff it was not empty or there are none |
| TpcNode.DrainIsMaximalRun | backend/src/utils.cpp:1167-1302 | repaired, draining processes exactly the maximal run of decided entries, in order, once each, applying commits only, and leaves the others |
| TpcNode.DrainAsWrittenIsOneStep | backend/src/utils.cpp:1179-1195 | as written it processes at most one entry, drops the one behind it, or hangs on an undecided head |
| TpcNode.AsWrittenMeetsIntentIff | backend/src/utils.cpp:1187-1252 | the two make the same progress iff the head is absent, or decided with nothing behind it |
| TpcLost.NothingLostIff | backend/src/utils.cpp:1191-1195 | in a run of the program every started and unprocessed number is queued at the primary iff it never processed one while the next was in flight |
| TpcLost.GoneForGood | backend/src/utils.cpp:1171-1172 | a started number that is gone from the primary's queue stops it for good, in every continuation: it and all writes behind it are processed by no server and answered by none |
| TpcLost.SecondInFlightIsLost | backend/src/utils.cpp:1191-1195 | in every run, when the first of two writes in flight is processed, that happens to the second |
| TpcLost.SecondWriteIsLost | backend/src/utils.cpp:1247-1251 | two writes to a fresh primary with one replica reach it: the first is committed, the second never decided, processed or answered |
| TpcNodeSafety.NodesAgree | backend/src/utils.cpp:1167-1302 | two servers that satisfy the invariant agree on every decision both processed, and on the table at equal numbers |
| TpcServer.Server.GetCommandLocks | backend/src/utils.cpp:1120-1163 | granted iff the text names a row that nobody holds, and then held |
| TpcServer.Server.AnswerClient | backend/src/utils.cpp:1213-1241 | the client is answered or its answer deferred, once, and forgotten |
| TpcServer.GetTablet | backend/src/utils.cpp:1614-1622 | the loop computes the tablet |
| TpcNode.TabletOfText | backend/src/utils.cpp:1614-1622 | tablets of texts add up modulo 5, a character counts by its byte, nothing behind a NUL counts |
| TpcServer.Server.Finish | backend/src/utils.cpp:1209-1241 | executes, unlocks and answers; an exception ends the process |
| TpcServer.Server.ProcessHead | backend/src/utils.cpp:1187-1299 | one turn of the loop |
| TpcServer.Server.ProcessTpcQueue | backend/src/utils.cpp:1167-1302 | the loop terminates in the state that draining specifies |
| TpcServer.Server.IsProcessed | backend/src/utils.cpp:1555-1582 | true iff past, decided in the queue, or marked |
| TpcServer.Server.OnDecision | backend/src/threads.cpp:507-549 | marks, logs, updates the queue and drains, unless already processed |
| TpcServer.Server.OnPrepareMessage | backend/src/threads.cpp:434-502 | queues, logs and votes, or ignores the message |
| TpcServer.Server.StartTransaction | backend/src/utils.cpp:1411-1453 | the next number is queued and logged |
| TpcServer.Server.SendQueuedMessages | backend/src/utils.cpp:355-365 | the deferred replies are sent in order, once each |
| TpcServer.RaisedIsHighest | backend/src/threads.cpp:1084-1104 | counters that are not above the server's own change nothing, and neither order nor repetition of such messages matters |
| TpcServer.RaisedSkips | backend/src/threads.cpp:1092-1101 | last_seq stays within tpc_seq; a queued entry that it passes is never processed |
| TpcServer.WriteAloneKeepsNumberingIff | backend/src/threads.cpp:610-652 | without replicas the two counters stay equal iff the write gets its lock |
| TpcServer.RefusedWriteStallsDraining | backend/src/threads.cpp:644-651 | after a refused write the next transaction is never processed |
| TpcServer.WriteAloneTakesNumber | backend/src/threads.cpp:623-628 | executed while a transaction is in flight, the write takes its number and that transaction is never decided |
| TpcServer.Server.WriteWithoutReplicas | backend/src/threads.cpp:610-652 | numbers, locks, logs, executes and answers, or refuses, as specified |
| TpcServer.WriteAloneKeepsTable | backend/src/threads.cpp:617-629 | table, last number and tablet log stay those of the history; a refused write changes only the numbering and the reply |
| TpcServer.WriteAloneUnlocks | backend/src/threads.cpp:617-629 | the row lock is free again iff the verb releases it |
| TpcServer.WriteAloneAnswers | backend/src/threads.cpp:630-651 | its client is told once; +OK waits iff the row's tablet is under checkpoint, a refusal never |
| TpcAgreement.Agreement | backend/src/utils.cpp:1167-1302 | in every run any two servers processed the same decisions and commands; equal numbers mean equal tablet logs and tables |
| TpcAgreement.SingleDecision | backend/src/utils.cpp:1306-1407 | no number is broadcast or logged with both outcomes; last_seq never exceeds tpc_seq |
| TpcAgreement.DecisionsAreFinal | backend/src/utils.cpp:1555-1582 | a decision in a prefix of a run is the decision in the whole run |
| TpcUnanimity.EnoughVotesIff | backend/src/threads.cpp:389-400 | while the recorded replicas are connected the size test says exactly that all of them answered YES |
| TpcUnanimity.CommitIsUnanimous | backend/src/threads.cpp:383-427 | a COMMIT of a number no replica left during: every recorded replica voted YES and none NO |
| TpcUnanimity.CommitIsUnanimousWithoutLeaves | backend/src/threads.cpp:383-427 | in runs without leaves that holds of every COMMIT, joins allowed |
| TpcUnanimity.CommitAgainstANo | backend/src/threads.cpp:394 | a run in which a replica that voted NO leaves and the transaction is committed |
| TpcMirror.CaughtUp | backend/src/threads.cpp:434-549 | in every run a replica that has read all broadcasts has processed, holds and waits for exactly what the primary does, and is hung or terminated iff the primary is |
| TpcProgress.UndecidedAwaitsAVote | backend/src/threads.cpp:383-427 | in every run a number that the primary has queued and not decided, and during which nobody left, waits for a recorded, connected replica whose vote is not cast or not read |
| TpcProgress.TimeoutAborts | backend/src/threads.cpp:284-330 | in every run the timeout aborts whatever is undecided and broadcasts it |
| TpcProgress.DecidedIsProcessed | backend/src/utils.cpp:1167-1302 | with the repaired draining, in every run the primary has processed exactly as far as everything is decided, and all of it once all is decided |
| TpcProgress.AcceptedIsCarried | backend/src/threads.cpp:552-692 | in every run a write that was accepted is started, on its way to the primary, or came in at a replica whose connection closed |
| TpcLocks.LockOwnership | backend/src/utils.cpp:1120-1163 | in every run, replicas joining and leaving, if an ABORT asks who holds the lock or never finds another there: each outstanding YES vote of a replica holds its lock, two never want one row, whatever is committed and queued holds its lock, and every lock has an unprocessed owner or one that nothing releases |
| TpcLocks.PrimaryLockOwnership | backend/src/threads.cpp:400-423 | the same at the primary for its commits |
| TpcRowLocks.ProgramIsCoherent | backend/src/utils.cpp:1253-1268 | the program's lock and unlock keys agree, as the two lemmas above ask |
| TpcLocks.GuardIsExact | backend/src/utils.cpp:1262-1268 | the program's runs are those of the program that asks who holds the lock, state by state, iff no ABORT found its key held by another |
| TpcUnlock.OrdinaryWritesSpare | backend/src/utils.cpp:1253-1268 | no ABORT does in any run of PUT, CPUT and DELETE commands of three words, with the draining as it is |
| TpcUnlock.OrdinaryLockOwnership | backend/src/threads.cpp:488-502 | so in those runs of the program two outstanding YES votes never want one row |
| TpcUnlock.AbortSparesForeignLocksIff | backend/src/utils.cpp:1253-1268 | an ABORT is recorded as finding a foreign lock iff it takes a foreign lock away |
| TpcTrespass.MalformedTextTrespasses | backend/src/utils.cpp:1262-1268 | a run of the program with a text that the lock refuses, after which a replica has two outstanding YES votes for one row and the first has lost its lock |
| TpcTrespass.OrdinaryWritesTrespass | backend/src/utils.cpp:1262-1268 | with the draining repaired, four writes of one row reach that |
| TpcTrespass.CutShortTrespasses | backend/src/threads.cpp:1208-1216 | texts for which the first happens, for every word that is both row and column |
| TpcTrespass.PutsTrespass | backend/src/utils.cpp:1079-1095 | four PUTs for which the second happens, for every row and column |
| TpcClients.ClientAnswers | backend/src/threads.cpp:552-692 | a write is answered at most once over all servers, only where and on the connection it came from; the answer, sent or deferred, is +OK iff that server committed the very command that an action of the run sent there, and nothing else was processed for it |
| TpcClients.OneOutcome | backend/src/utils.cpp:1213-1298 | a server processes one decision and one command for a hash |
| TpcReplies.RepliesInRun | backend/src/utils.cpp:1213-1241 | in every step of every run: a new reply goes to the connection that waits for it; it waits iff the tablet of the remembered row is under checkpoint and is written at once otherwise; waiting replies are written by SendQueued alone, all, in order, behind the earlier ones |
| TpcReplies.AnsweredIffProcessed | backend/src/utils.cpp:1213-1298 | in every run a write has exactly one answer, sent or deferred, at the server that accepted it if that server finished processing it, and none before; until then it is remembered with its row |
| TpcLog.TpcState.ProcessTpcLog | backend/src/utils.cpp:1469-1552 | the loop computes the scan of all lines; false iff a line has no number where one is read |
| TpcLog.LineIsReadIff | backend/src/utils.cpp:1456-1465 | a written 2PC line is read back exactly if its hash has no colon, and is skipped otherwise |
| TpcLog.TornLineIsRead | backend/src/utils.cpp:1456-1465 | a written 2PC line that is cut anywhere is skipped, or read with what is left of its number; it never makes the scan throw |
| TpcLog.FieldsAreRead | backend/src/utils.cpp:1500-1508 | a line of four fields is read as its last three, in order, and throws if the number starts with no digit |
| TpcLog.ReadLogThrowsIff | backend/src/utils.cpp:1498-1508 | scanning throws exactly if one of the lines does |
| TpcLog.TpcLogScan | backend/src/utils.cpp:1498-1537 | last_seq and tpc_seq are the highest decided and the highest number; what is pending above and up to last_seq, exactly |
| TpcLog.LeftoverExample | backend/src/utils.cpp:1516-1536 | a number stays pending below last_seq |
| TpcLog.AbortPending | backend/src/threads.cpp:261-271 | where the pending numbers above last_seq are undecided, the recovery loop aborts exactly those; afterwards every pending number is processed |
| TpcLog.AbortedNeverCommits | backend/src/utils.cpp:1306-1407 | whatever handlers run later, an aborted number is never committed |
| TpcLog.PreparedOnce | backend/src/threads.cpp:448-463 | a second PREPARE for a number gets no vote and changes nothing: at once, and with the repaired draining whatever was handled in between |
| TpcLog.DecidedOnce | backend/src/utils.cpp:1306-1407 | whatever is handled after a decision was taken, a second one for its number changes nothing |
| TpcTakeOver.LogInRun | backend/src/utils.cpp:1456-1465 | in every run what a server has marked or decided is in its 2PC log, and the log reads back |
| TpcPrepared.PreparedInRun | backend/src/threads.cpp:434-502 | in every run the 2PC log has a PREPARE line for all that a server queues, the primary's for all that was started, a replica's for all it voted on |
| TpcTakeOver.TakeOver | backend/src/threads.cpp:1019-1035 | any server of any run, with its memory or started again: above every number it knows decided, scan and recovery abort all that it queued, started or voted on, and nothing that was not started; none of it is committed later |
| TpcLog.StalledForever | backend/src/utils.cpp:1171-1172 | a pending number that is not in the primary's queue stops it for good |
| TpcLog.FreshPrimaryMovesIff | backend/src/threads.cpp:1022-1038 | a fresh primary processes its first transaction iff its log has no number above the highest decided one |
| Coordinator.Server.ChooseRandomServer | backend/coordinator.cpp:109-155 | "" on the size test, else an alive server that is not paused, else still drawing, which takes a draw of a paused server; never ends if all are paused |
| Coordinator.Server.HandleServerFailure | backend/coordinator.cpp:158-200 | the failure step, or the failure with nothing chosen while paused servers are drawn |
| Coordinator.Server.StopServer | backend/coordinator.cpp:424-504 | the STOP step, the two error answers, or the stop with nothing chosen while paused servers are drawn |
| Coordinator.Server.StartServer | backend/coordinator.cpp:506-576 | the START step, the two error answers, or the start with nothing chosen while paused servers are drawn |
| Coordinator.Server.JoinServer | backend/coordinator.cpp:700-723 | the join step of a heartbeat connection, or the join with nothing chosen while paused servers are drawn |
| Coordinator.PrimaryIsValid | backend/coordinator.cpp:158-200 | after any events a recorded primary that is not "" is registered, alive and not paused |
| Coordinator.EventChanges | backend/coordinator.cpp:158-200 | what each event changes: the event's server joins or leaves the alive or the paused servers and nobody else does, except that a failed primary without successor takes the partition out; which primary is recorded, and that a choice is alive and not paused |
| Coordinator.StartElects | backend/coordinator.cpp:541-576 | in every run, START of a paused server that is alive resumes it, and gives a partition without a record a primary if all paused servers are alive |
| Coordinator.PausedIffStopped | backend/coordinator.cpp:461-542 | at every moment of every run a server is paused iff its last STOP or START is a STOP |
| Coordinator.AliveIffJoined | backend/coordinator.cpp:158-200 | and alive iff its last join or failure is a join and its partition was not given up since |
| Coordinator.ChoosesRightIff | backend/coordinator.cpp:126-131 | choosing returns an eligible server exactly when one exists, and ends, iff the size test coincides with "all alive are paused" |
| Coordinator.PausedAliveChoosesRight | backend/coordinator.cpp:126-131 | that is so whenever every paused server is alive |
| Coordinator.PausedStaysAliveIff | backend/coordinator.cpp:461-503 | which events keep every paused server alive, exactly |
| Coordinator.OrderlyRunsChooseRight | backend/coordinator.cpp:109-155 | in runs of such events choosing is right at every moment |
| Coordinator.NoneIsForGoodInRuns | backend/coordinator.cpp:546 | a partition whose recorded primary is "" never gets another |
| Coordinator.BecomesNoneIff | backend/coordinator.cpp:171 | which events record "", exactly |
| Coordinator.StoppedThenFailed | backend/coordinator.cpp:171 | join, STOP and failure of one server reach it |
| Base64.Stobs | frontend/src/stringutils.cc:235-243 | the loop writes eight bits a byte |
| Base64.Bstoby | frontend/src/stringutils.cc:246-256 | the loop reads eight characters a byte, the last group may be shorter; None on a character that is not a bit |
| Base64.FromBitsIff | frontend/src/stringutils.cc:252-253 | it throws exactly on text with such a character |
| Base64.ToBitsRoundTrip | frontend/src/stringutils.cc:235-256 | the bits of every byte string read back to it |
| Base64.GroupAt | frontend/src/stringutils.cc:263-273 | one group of the output, missing bytes as zero and `=` |
| Base64.Bytob64 | frontend/src/stringutils.cc:259-276 | the loop writes the specified text |
| Base64.AlphabetIsTable | frontend/src/stringutils.cc:31 | the alphabet is Table 1 of RFC 4648 |
| Base64.FileRoundTrip | frontend/src/http.cc:555-558 | for every file the pipeline's text decodes by section 4 of RFC 4648 to the file, has length 4·⌈n/3⌉ and exactly the right padding |
| Chunked.Reverse | frontend/src/chunk.cc:45 | swapping from both ends reverses |
| Chunked.DecToHex | frontend/src/chunk.cc:35-47 | the loop and the reversal give the hexadecimal digits |
| Chunked.HexRoundTrip | frontend/src/chunk.cc:35-47 | they read back to the number |
| Chunked.WriteToChunkTransfer | frontend/src/chunk.cc:116-128 | the loop writes the chunks and the last "0" |
| Chunked.ChunkedRoundTrip | frontend/src/http.cc:277-278 | with the caller's two line ends every body decodes by section 7.1 of RFC 9112 to itself, for every positive chunk size, leaving what follows |
| Chunked.ChunkedPieces | frontend/src/chunk.cc:116-128 | decoding yields chunks of exactly the chunk size, the last one maybe shorter, ⌈n/size⌉ of them, which are the body |
| Chunked.EvenCutIsUnique | frontend/src/chunk.cc:121 | there is one such way to cut a body |
| Chunked.HexIsCanonicalIff | frontend/src/chunk.cc:35-47 | the size is the numeral in capital digits without leading zeros |
| Framing.Connection.Receive | backend/src/threads.cpp:857-897 | one read dispatches the complete messages of buffer and bytes, trimmed, and keeps the tail |
| Framing.FramesIff | backend/src/threads.cpp:870-897 | the cut into lines and tail is the only one in which none holds a CRLF |
| Framing.TrimmedIff | backend/src/threads.cpp:886-887 | the messages are the lines without exactly the white space at their end |
| Framing.FramesOfConcat | backend/src/threads.cpp:857-865 | framing in two parts is framing the whole |
| Framing.ReassemblyIsFraming | backend/src/threads.cpp:857-897 | for every way of cutting a stream into reads the messages and the buffer are those of the whole stream |
| Framing.ServeReads | backend/src/threads.cpp:857-897 | the program's loop over any list of reads does that |

## Left out

- TpcLocks.LockOwnership: for the unlock of the program only in runs in which no ABORT finds its key held by another; TpcTrespass has runs in which one does and the property fails.
- TpcLocks.PrimaryLockOwnership: under the same condition.
- TpcLocks.GuardIsExact: the condition is exact for the runs to be those of the program that asks who holds the lock, not for lock ownership alone, of which no clause speaks of a holder that voted NO while recovering.
- TpcNode.DrainIsMaximalRun: for the loop that erases the entry it processed; what the loop does as written is TpcNode.DrainAsWrittenIsOneStep.
- TpcUnanimity.CommitIsUnanimous: votes are those that replicas cast; the acknowledgement text of a vote and the search for "YES" in it are not modelled.
- TpcAgreement.Agreement: one primary epoch; a decision that a replica saw and a new primary did not is not reconciled by the program. The primary writes while a replica is connected: a write that it executes without replicas is TpcServer.WriteAlone and belongs to no run.
- TpcAgreement.SingleDecision: in the same runs.
- TpcClients.ClientAnswers: in the same runs.
- Joins of replicas while a transaction is in flight: log and sequence numbers travel in separate messages, so a join is a snapshot taken when nothing is in flight, of a replica that was not there before.
- A hung server (mutex held) still reads nothing and decides nothing in the model; the threads of it that do not need the mutex are not modelled further.
- Tablet.ApplyKeeps: operations on one tablet are atomic; the threads that evict, flush and checkpoint at the same time are not interleaved inside an operation, except for the crashes of TabletCrashes and TornLog.
- TabletTexts.TabletKeepsItsPromise: PUT and DELETE whose bindings the checkpoint file can hold; CPUT is treated in TabletCrashes.
- CatchUp.HigherCheckpointIff: the table under a higher checkpoint, because the primary's checkpoint contents are not sent.
- CatchUp.SentLogArrives: a log that itself contains a CRLF is cut by the framing of Framing and is not followed further.
- TpcLog.TpcState.ProcessTpcLog: the scan over the whole file; the program no longer rewinds it before reading, so a server that has written to the file since it opened it reads nothing.
- Coordinator.Server.ChooseRandomServer: the random draws are arbitrary and their number is a parameter, since the loop need not end.
- Chunked.WriteToChunkTransfer: chunk size zero, for which the loop never ends on a non-empty body.
- Integer widths: sequence numbers, log indices and sizes are unbounded; atoi and stoi read digits only, without sign, leading white space or overflow.
- Row lock objects: a lock is held or not; that DELETE erases the lock object and that unlocking a free lock is undefined are not modelled.
- The queue of writes for a primary that is down, handle_primary_queue and the redirection of clients.
- Routing of message texts to handlers (STOP, TSEQNUM and the like found as substrings) and the coordinator's replies and broadcasts.
- Sockets, poll and select, thread creation, signals, timeouts, memory thresholds and failures of file operations.
- hexToDec and read_from_chunk_transfer, whose unsigned comparisons keep them from working; the decoder of the RFC stands in their place.
- HTTP handlers, templates, mail, cookies and hashing.
