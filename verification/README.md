# Models of the storage engine and the protobuf codec

Dafny models of the two pieces of hard code vendored in the app, and proofs about them:

* **LevelDB** (`Team Up/Pods/leveldb-library/db`): the user-key cursor, table compaction, the
  engine as a state machine over its steps, and group commit.
* **nanopb 0.3.9.8** (`Team Up/Pods/nanopb`): the descriptor-driven Protocol Buffers encoder and
  decoder.

`dafny verify dfyconfig.toml` checks everything.

## How it is laid out

**Cursor.** `DBIter.dfy` is `DBIter` as a class over a sorted entry list: an inner iterator, saved
key and value, direction and validity, changed in place. Its specification is a cursor on the sorted
map of live keys.

**Compaction.** `Compaction.dfy` has the drop rules, the loop of `DoCompactionWork` with its output
files and level cursors, and the proof that dropping changes no read. `Picking.dfy` has the choice of
the input files. `Views.dfy` says what a set of entries answers to a read.

**Engine.** `Engine.dfy` is a transition system: one event for each stretch between two points where
the database mutex is taken or released, or for one action of the file system. The durable part is
logs by number with their synced prefix, table files and the manifest; the volatile part is
memtables, the version, protected outputs, snapshots, readers, flags, the head writer and the
background job. Two history fields of a version, `absorbed` and `floor`, record every entry that ever
moved from a log into its tables, and the highest snapshot bound of an installed compaction.
`EngineInvariant.dfy` is the invariant; `EngineWrites`, `EngineLogSteps`, `EngineTables`,
`EngineInstall` and `EngineRecovery` show that each step keeps it; `EngineTheorems` and
`EngineSafety` hold the results about whole runs, and `EngineProgress` shows that no run leaves a
database that cannot be opened again. `EngineReads` says what reads and snapshots see. `EngineMerges` says which merges the engine can afford.
`EngineCode.dfy` has the loops of recovery, garbage collection and `MakeRoomForWrite` as methods that
take those steps, and `EngineLinks.dfy` joins the parts.

**Group commit.** `WriteQueue.dfy` is `Write` and `BuildBatchGroup` as methods over the queue;
`WriteQueueRuns.dfy` covers all interleavings of concurrent writers, `SwitchRequests.dfy` says which
null-batch writes get their memtable switch, and `QueueLinks.dfy` shows that the leader's code takes
the steps of the queue and that a group's commit is the engine's write.

**Codec.** `Wire.dfy` has varints, zigzag and fixed widths (sections "Base 128 Varints" and "Signed
Integers" of the Protocol Buffers encoding specification). `Messages.dfy` and `Decoding.dfy` say what
encoding and decoding mean as functions of descriptors and bytes. `InputStream`, `FieldIter`,
`RequiredFields`, `Decoder` and `Encoder` are the code: streams and the iterator as classes, loops as
loops, proved to compute those functions. `DecodingLaws`, `RoundTrip`, `UnknownFields`,
`EncodingLaws`, `RequiredLaws` and `DecodedFits` prove the laws of the format ("Length-Delimited Records", "Packed Repeated Fields", "Last One Wins"), and
`EndToEnd` runs a message through the encoder's code, a buffer and the decoder's code.

## Findings

* A varint whose tenth byte has bits above the 64th is read by `pb_decode_varint`, which drops them,
  but refused by `pb_decode_varint32` (`Team Up/Pods/nanopb/pb_decode.c:223`). So "accepts every
  encoding of a value below 2^32" is not quite true; `Wire.NarrowAccepted` gives the exact condition
  on the tenth byte and `Wire.OverlongRefused` the input.
* A null batch asks for a memtable switch ("force current memtable contents to be compacted",
  `Team Up/Pods/leveldb-library/db/db_impl.h:56`). One that joins a group behind another writer is
  told that group's status with no switch forced (`Team Up/Pods/leveldb-library/db/db_impl.cc:1287`).
  `SwitchRequests.JoinedWithoutSwitch` is the run. `SwitchRequests.SwitchPromisedIff` is the exact
  condition on the queue at arrival: no write that is in no group yet could take the request in.
* `SetupOtherInputs` adds boundary files to the upper inputs only
  (`Team Up/Pods/leveldb-library/db/version_set.cc:1407`). When the last file taken from the lower
  level ends inside a user key, the file that goes on with the key is left out, and a tombstone
  dropped at the base level can uncover an older value there. `Picking.DeletedKeyReturns` is the
  input and `EngineMerges.DeletedKeyReadable` the run: a deleted key is read again at a snapshot held
  throughout. The exact condition is that the merge uncovers nothing (`EngineMerges.SafePickIff` over
  all continuations, `EngineMerges.AnswersKeptIff` for Get); it holds whenever the lower inputs do
  not end inside a user key (`EngineMerges.PickIsSafe`). Every step of the engine model may pick any
  merge; its runs are those whose picks meet the exact condition.
* In an empty message type `pb_field_iter_find` takes number zero for the terminator's tag
  (`Team Up/Pods/nanopb/pb_common.c:83`), so a tag with number zero is read as a bool there and
  skipped elsewhere. `UnknownFields.NumberZeroAccepted` gives the input and
  `UnknownFields.UnknownSkippedIff` the exact condition.

## Model

| member | source | states |
|---|---|---|
| DBIterModel.ViewIsReads | Team Up/Pods/leveldb-library/db/db_iter.cc:168-198 | A key and value are in the cursor's view at a sequence number iff a point read there gives that value |
| DBIterModel.ViewSorted | Team Up/Pods/leveldb-library/db/db_iter.cc:168-198 | The view has strictly increasing keys |
| DBIterModel.LiveIsNewest | Team Up/Pods/leveldb-library/db/db_iter.cc:174-190 | An entry is shown iff it is a value and the newest visible entry of its key |
| DBIterModel.DBIter.Next | Team Up/Pods/leveldb-library/db/db_iter.cc:141-166 | From any valid position and either direction, moves the abstract cursor one pair on, or off the end |
| DBIterModel.DBIter.FindNextUserEntry | Team Up/Pods/leveldb-library/db/db_iter.cc:168-198 | Stops at the first live entry whose key is above the skipped one; skips nothing live |
| DBIterModel.DBIter.Prev | Team Up/Pods/leveldb-library/db/db_iter.cc:200-225 | From any valid position and either direction, moves the abstract cursor one pair back, or off the front |
| DBIterModel.DBIter.FindPrevUserEntry | Team Up/Pods/leveldb-library/db/db_iter.cc:227-267 | Stops before the entries of the last key that is live at or before the start, holding its newest visible value |
| DBIterModel.DBIter.Seek | Team Up/Pods/leveldb-library/db/db_iter.cc:269-281 | Valid afterwards iff some live key is at or above the target, and then on the first such pair |
| DBIterModel.DBIter.SeekToFirst | Team Up/Pods/leveldb-library/db/db_iter.cc:283-292 | Lands on the first pair of the view |
| DBIterModel.DBIter.SeekToLast | Team Up/Pods/leveldb-library/db/db_iter.cc:294-299 | Lands on the last pair of the view |
| DBIterModel.DBIter.Key | Team Up/Pods/leveldb-library/db/db_iter.cc:64-67 | In both directions the key shown is that of the pair the abstract cursor is on |
| DBIterModel.DBIter.GetValue | Team Up/Pods/leveldb-library/db/db_iter.cc:68-71 | In both directions the value shown is that of the pair the abstract cursor is on |
| DBIterModel.Execute | Team Up/Pods/leveldb-library/db/db_iter.cc:141-299 | Every legal sequence of operations, with any changes of direction, shows what a cursor on the sorted view shows |
| DBIterModel.ScanForward | Team Up/Pods/leveldb-library/db/db_iter.cc:141-198 | A forward scan shows the whole view in order |
| DBIterModel.ScanBackward | Team Up/Pods/leveldb-library/db/db_iter.cc:200-267 | A backward scan shows the whole view in exactly reverse order |
| DBIterModel.ThereAndBack | Team Up/Pods/leveldb-library/db/db_iter.cc:141-225 | From either direction, Next then Prev, and Prev then Next, come back to the same pair and show it again, whenever there is a pair to step to |
| DBIterModel.SeekShows | Team Up/Pods/leveldb-library/db/db_iter.cc:269-281 | The pair shown after Seek is in the view, its key at or above the target and at or below every other such key; nothing is shown iff there is none |
| DBIterModel.KeysBelowSplits | Team Up/Pods/leveldb-library/db/db_iter.cc:269-281 | The landing place of a seek separates keys below the target from the rest |
| Views.LayeredRead | Team Up/Pods/leveldb-library/db/db_impl.cc:1122-1138 | Asking newer layers first and older ones only when they see nothing reads like the union |
| Views.LaterEntriesInvisible | Team Up/Pods/leveldb-library/db/db_impl.cc:1107-1112 | Entries above the read sequence change nothing |
| Views.AddAlike | Team Up/Pods/leveldb-library/db/db_impl.cc:535-566 | Two entry sets that read alike still do when both get the same newer entries |
| CompactionModel.KeptAreSurvivors | Team Up/Pods/leveldb-library/db/db_impl.cc:929-963 | The streaming drop rule with one remembered sequence keeps exactly the entries of an order-free rule |
| CompactionModel.KeptExactly | Team Up/Pods/leveldb-library/db/db_impl.cc:929-963 | An entry is kept iff no newer one of its key is visible to every snapshot and it is no base-level tombstone visible to every snapshot |
| CompactionModel.KeptIsLean | Team Up/Pods/leveldb-library/db/db_impl.cc:944-960 | What is kept has at most one entry of each key that every snapshot sees, and no tombstone among them at the base level |
| CompactionModel.LayeredCompactionPreservesReads | Team Up/Pods/leveldb-library/db/db_impl.cc:929-963 | Over newer layers and the files of the deeper levels, replacing the inputs by the entries the loop keeps under its own base-level test, tombstones dropped, changes no read from the oldest snapshot on |
| CompactionModel.CompactLevels | Team Up/Pods/leveldb-library/db/db_impl.cc:878-1010 | On success the finished output files read like the inputs over everything above and below them |
| CompactionModel.LevelCursors.IsBaseLevelForKey | Team Up/Pods/leveldb-library/db/version_set.cc:1533-1553 | The forward-only level cursors answer whether any deeper file covers the key |
| CompactionModel.DeeperNotBase | Team Up/Pods/leveldb-library/db/version_set.cc:1533-1553 | No file of a deeper level holds a key that passes the base-level test |
| CompactionModel.ReadsKeptIff | Team Up/Pods/leveldb-library/db/db_impl.cc:944-960 | Whatever the other layers hold, a compaction changes no read from the oldest snapshot on iff it drops no base-level tombstone that uncovers a value |
| CompactionModel.KeptReadsIff | Team Up/Pods/leveldb-library/db/db_impl.cc:929-963 | The same for the entries the streaming loop keeps |
| Picking.GetOverlappingInputs | Team Up/Pods/leveldb-library/db/version_set.cc:519-556 | Exactly the files that touch the user-key range, whose ends may be open; on level 0 those that touch the least range around it that covers all it touches |
| Picking.AddBoundaryInputs | Team Up/Pods/leveldb-library/db/version_set.cc:1330-1401 | Grows the inputs until no file goes on with their last user key; leaves inputs closed under overlap alone |
| Picking.SetupOtherInputs | Team Up/Pods/leveldb-library/db/version_set.cc:1403-1440 | On every level: upper inputs whose last user key does not go on, closed under overlap on level 0 and consecutive above, and as lower inputs exactly the files that overlap them; the wider choice is returned exactly when it has more upper files, as many lower ones and room |
| Picking.LeftOutIsNewerIff | Team Up/Pods/leveldb-library/db/version_set.cc:1403-1440 | Everything left out of the picked inputs, above and beside them, is newer for its keys iff the lower inputs do not end inside a user key |
| Picking.PickedReadsIff | Team Up/Pods/leveldb-library/db/version_set.cc:1403-1440 | Compacting the picked files changes no read over all other files iff no dropped tombstone uncovers a value, which needs lower inputs that end inside a user key |
| Picking.DeletedKeyReturns | Team Up/Pods/leveldb-library/db/version_set.cc:1407-1411 | The input for which it does, on any level: the code picks the file with the tombstone and not the next one with the deleted value, which it uncovers |
| CompactionModel.CompactionState.OpenCompactionOutputFile | Team Up/Pods/leveldb-library/db/db_impl.cc:786-809 | A new output gets a fresh number and protection before the lock is released |
| CompactionModel.CompactionState.FinishCompactionOutputFile | Team Up/Pods/leveldb-library/db/db_impl.cc:811-858 | Closing an output keeps everything written so far, in order |
| CompactionModel.CompactionState.Keep | Team Up/Pods/leveldb-library/db/db_impl.cc:975-996 | A kept entry is appended to what was written |
| CompactionModel.CompactionState.Decide | Team Up/Pods/leveldb-library/db/db_impl.cc:936-960 | The entry is dropped iff the drop rules say so |
| CompactionModel.CompactionState.Merge | Team Up/Pods/leveldb-library/db/db_impl.cc:907-1000 | After any prefix of the input the outputs hold exactly its kept entries |
| CompactionModel.CompactionState.DoCompactionWork | Team Up/Pods/leveldb-library/db/db_impl.cc:878-1010 | On success the non-empty output files, joined, are the kept entries in input order, with first and last keys recorded |
| CompactionModel.CompactionState.CleanupCompaction | Team Up/Pods/leveldb-library/db/db_impl.cc:769-784 | Protection is taken off exactly the compaction's outputs |
| CompactionModel.KeptSorted | Team Up/Pods/leveldb-library/db/db_impl.cc:907-1000 | The kept entries stay sorted and come from the input |
| CompactionModel.OutputsIncrease | Team Up/Pods/leveldb-library/db/db_impl.cc:920-927 | Output files cover disjoint, increasing internal-key ranges |
| EngineTheorems.Reachable | Team Up/Pods/leveldb-library/db/db_impl.cc:1185-1258 | Every state of every run whose merges uncover nothing, with failures, crashes and recoveries anywhere, satisfies the engine invariant |
| EngineTheorems.StepKeeps | Team Up/Pods/leveldb-library/db/db_impl.cc:648-1010 | Every step keeps the engine invariant, the pick of a merge if it uncovers nothing |
| EngineLogSteps.SwitchKeeps | Team Up/Pods/leveldb-library/db/db_impl.cc:1346-1366 | The memtable switch keeps the invariant: the new log is newer than all entries |
| EngineLogSteps.BeginWriteKeeps | Team Up/Pods/leveldb-library/db/db_impl.cc:1201-1208 | A batch gets sequence numbers above all issued ones |
| EngineLogSteps.AppendKeeps | Team Up/Pods/leveldb-library/db/db_impl.cc:1216 | Appending a record, or failing to and leaving all or none of it, keeps the invariant |
| EngineLogSteps.SyncKeeps | Team Up/Pods/leveldb-library/db/db_impl.cc:1218-1223 | A successful sync makes the whole log durable; a failed one keeps the invariant |
| EngineLogSteps.InsertKeeps | Team Up/Pods/leveldb-library/db/db_impl.cc:1224-1226 | Inserting the batch keeps every reader's and snapshot's answers valid |
| EngineLogSteps.EndWriteKeeps | Team Up/Pods/leveldb-library/db/db_impl.cc:1227-1237 | LastSequence advances also after an error; acknowledged entries are durable |
| EngineWrites.SnapshotKeeps | Team Up/Pods/leveldb-library/db/db_impl.cc:1166-1174 | Taking and releasing snapshots keeps the invariant: they stay between the compaction floor and LastSequence, oldest first |
| EngineReads.NewSnapshotSeesAll | Team Up/Pods/leveldb-library/db/db_impl.cc:1166-1169 | GetSnapshot adds one snapshot, not below the others, that sees every entry held but those of the write in progress; reads at it answer like reads at LastSequence |
| EngineReads.ReleaseRemovesOne | Team Up/Pods/leveldb-library/db/db_impl.cc:1171-1174 | ReleaseSnapshot removes one occurrence of the snapshot and nothing else |
| EngineReads.WriteIsRead | Team Up/Pods/leveldb-library/db/db_impl.cc:1224-1238 | When a Write ends Ok its entries are held and each key of the batch reads as its newest entry there |
| EngineReads.SnapshotReadsWrite | Team Up/Pods/leveldb-library/db/db_impl.cc:1166-1169 | A snapshot taken after a Write that ended Ok reads each of its entries or a newer one of the key |
| EngineReads.SyncAcknowledged | Team Up/Pods/leveldb-library/db/db_impl.cc:1218-1226 | Exactly the entries of sync writes that end Ok become acknowledged |
| EngineReads.ReadAtOwnSequence | Team Up/Pods/leveldb-library/db/db_impl.cc:1122-1138 | A read at an entry's own sequence number finds that entry, a deletion as nothing |
| EngineReads.ReadsBetween | Team Up/Pods/leveldb-library/db/db_impl.cc:1122-1138 | The answer for a key changes only at a sequence number of one of its entries |
| EngineReads.NothingWritten | Team Up/Pods/leveldb-library/db/db_impl.cc:1122-1138 | Before the first entry of a key nothing is found |
| EngineWrites.BeginReadKeeps | Team Up/Pods/leveldb-library/db/db_impl.cc:1100-1121 | A read holds references that together answer at its sequence number |
| EngineWrites.BackgroundKeeps | Team Up/Pods/leveldb-library/db/db_impl.cc:669-767 | Picking work, a flush first, keeps the invariant, for any inputs that uncover nothing |
| EngineTables.BuildTableKeeps | Team Up/Pods/leveldb-library/db/db_impl.cc:491-533 | Writing the level-0 table and dropping its protection before the edit keeps the invariant |
| EngineTables.FlushVersion | Team Up/Pods/leveldb-library/db/db_impl.cc:535-566 | A version that gets a flushed memtable reads like everything it absorbed |
| EngineTables.MergeReadsIff | Team Up/Pods/leveldb-library/db/db_impl.cc:860-876 | Replacing the inputs of a version by the outputs changes no read of its tables from the smallest snapshot on iff the merge uncovers nothing |
| EngineTables.MergeVersion | Team Up/Pods/leveldb-library/db/db_impl.cc:860-876 | Such a version then reads like everything it absorbed |
| EngineTables.WriteManifestKeeps | Team Up/Pods/leveldb-library/db/db_impl.cc:550-557 | A manifest record, also one reported as failed but written, leaves a disk one can recover from |
| EngineInstall.InstallKeeps | Team Up/Pods/leveldb-library/db/db_impl.cc:557-565 | Installing a version and collecting garbage under the lock keeps the invariant |
| EngineInstall.CollectAfter | Team Up/Pods/leveldb-library/db/db_impl.cc:223-278 | Collecting garbage removes nothing the manifest, a version in use or a running compaction needs |
| EngineRecovery.CrashKeeps | Team Up/Pods/leveldb-library/db/db_impl.cc:280-369 | A crash that keeps each log's synced records leaves a disk one can recover from |
| EngineRecovery.ReplayKeeps | Team Up/Pods/leveldb-library/db/db_impl.cc:323-366 | Replaying the logs to tables, keeping the last log or starting a new one, prepares a correct plan |
| EngineRecovery.OpenWriteKeeps | Team Up/Pods/leveldb-library/db/db_impl.cc:1494-1499 | The manifest write of opening, also one that fails after being written, keeps the invariant |
| EngineRecovery.OpenDoneKeeps | Team Up/Pods/leveldb-library/db/db_impl.cc:1500-1504 | The opened database satisfies the running invariant, garbage collected |
| EngineTheorems.GetReadsContents | Team Up/Pods/leveldb-library/db/db_impl.cc:1100-1145 | Get through memtable, immutable memtable and tables answers as if no entry had ever been dropped |
| EngineTheorems.StepContents | Team Up/Pods/leveldb-library/db/db_impl.cc:535-566 | Only inserting a batch changes what a running database holds; flushes, merges, switches, collections and failures conserve it |
| EngineTheorems.SnapshotIsolation | Team Up/Pods/leveldb-library/db/db_impl.cc:1100-1145 | While a snapshot is held, Get at it keeps its answer for every key through every interleaving whose merges uncover nothing |
| EngineTheorems.ReaderSeesItsSnapshot | Team Up/Pods/leveldb-library/db/db_impl.cc:1107-1138 | In such runs a read in progress, whenever it looks, finds what Get answered when it took its references |
| EngineTheorems.CompactionRespectsSnapshots | Team Up/Pods/leveldb-library/db/db_impl.cc:890-894 | The running compaction's bound is at most every live and every new snapshot, and the write in progress is above them |
| EngineSafety.AckedForever | Team Up/Pods/leveldb-library/db/db_impl.cc:1185-1258 | Acknowledgements are never taken back, by crashes included |
| EngineSafety.AcknowledgedWritesSurvive | Team Up/Pods/leveldb-library/db/db_impl.cc:280-369 | A write acknowledged with sync is there whenever the database is up, through any crashes, harmless merges, failed recoveries, log reuse, flushes and deletions: its key reads as it or newer |
| EngineSafety.SequencesNeverReused | Team Up/Pods/leveldb-library/db/db_impl.cc:1201-1237 | Every new write is numbered above everything issued, failed writes included |
| EngineSafety.RecoveredLastSequence | Team Up/Pods/leveldb-library/db/db_impl.cc:361-363 | After recovery LastSequence is at least every recovered entry's sequence |
| EngineSafety.ContentsUnique | Team Up/Pods/leveldb-library/db/db_impl.cc:1201-1208 | A database holds only issued entries, one per sequence number |
| EngineSafety.NeededTablesSurvive | Team Up/Pods/leveldb-library/db/db_impl.cc:223-278 | A table needed before and after a step is still there, unchanged unless the step writes it |
| EngineSafety.OpeningKeepsTables | Team Up/Pods/leveldb-library/db/db_impl.cc:1500-1504 | Opening collects garbage too and keeps every table of the recovered version |
| EngineSafety.NeededTablesExist | Team Up/Pods/leveldb-library/db/db_impl.cc:791-800 | Tables of the version, the manifest, reads in progress and pending edits exist |
| EngineSafety.NeededLogsSurvive | Team Up/Pods/leveldb-library/db/db_impl.cc:244-247 | A log the version depends on is neither deleted nor cut, and entries only in memory are in such a log |
| EngineSafety.NoOneForgotten | Team Up/Pods/leveldb-library/db/db_impl.cc:648-663 | has_imm_ mirrors imm_, pending work has a job, and a sleeping writer is never left behind |
| EngineSafety.ImmNeverOverwritten | Team Up/Pods/leveldb-library/db/db_impl.cc:1346-1366 | imm_ changes only by being installed in the tables |
| EngineSafety.LogNumberFixedDuringFlush | Team Up/Pods/leveldb-library/db/db_impl.cc:535-566 | logfile_number_ stands still while CompactMemTable has the lock released, and its edit names that log |
| EngineSafety.FlushAdvances | Team Up/Pods/leveldb-library/db/db_impl.cc:907-917 | Whatever the background thread does, some step of it brings a waiting flush closer, a merge making way |
| EngineSafety.FlushCompletes | Team Up/Pods/leveldb-library/db/db_impl.cc:535-566 | At most six background steps get a waiting memtable into the tables, losing nothing |
| EngineCode.DeleteObsoleteFiles | Team Up/Pods/leveldb-library/db/db_impl.cc:223-278 | The loop over the directory takes the collection step and removes exactly the listed files that are not needed, but for those the file system fails to delete |
| EngineCode.Recovery.WriteLevel0Table | Team Up/Pods/leveldb-library/db/db_impl.cc:491-533 | The table gets a fresh number; an empty memtable leaves no file |
| EngineCode.Recovery.RecoverLogFile | Team Up/Pods/leveldb-library/db/db_impl.cc:371-489 | All records of the log end up in tables or in the kept memtable; the last log is kept only if nothing of it was written out |
| EngineCode.Recovery.Recover | Team Up/Pods/leveldb-library/db/db_impl.cc:312-369 | All logs named by the manifest or newer are replayed in order, and the sequence bound covers them |
| EngineCode.Open | Team Up/Pods/leveldb-library/db/db_impl.cc:1474-1495 | Recovery and the new log take the replay step of the state machine, or the failed one |
| EngineCode.MakeRoomForWrite | Team Up/Pods/leveldb-library/db/db_impl.cc:1310-1370 | The loop waits only for imm_ or for a full level 0, lets a forced write in only after a switch, stops on a background error, and every switch is the switch step |
| EngineProgress.AlwaysRecoverable | Team Up/Pods/leveldb-library/db/db_impl.cc:1474-1506 | From every state a crash or a failed opening leaves, three steps open the database holding exactly what was issued and not lost |
| EngineProgress.CrashRecoverable | Team Up/Pods/leveldb-library/db/db_impl.cc:280-369 | A crash at any point of any run can be recovered from with every acknowledged write |
| EngineMerges.SafePickIff | Team Up/Pods/leveldb-library/db/db_impl.cc:878-1010 | Whatever happens after a merge is picked, crashes and later harmless merges included, the tables keep reading like everything moved into them iff the merge uncovers nothing |
| EngineMerges.BoundIsOldest | Team Up/Pods/leveldb-library/db/db_impl.cc:890-894 | The bound of a picked merge is the oldest snapshot, or LastSequence when there is none |
| EngineMerges.AnswersKeptIff | Team Up/Pods/leveldb-library/db/db_impl.cc:878-1010 | After a merge has gone through, Get answers as before at every sequence number from the oldest snapshot on iff no dropped tombstone uncovers a value, memtable included |
| EngineMerges.LayoutIsSafe | Team Up/Pods/leveldb-library/db/version_set.cc:1533-1553 | A merge under the intended level layout uncovers nothing |
| EngineMerges.PickIsSafe | Team Up/Pods/leveldb-library/db/version_set.cc:1403-1440 | What SetupOtherInputs picks among the files of a version obeys the layout and may be merged, unless its lower inputs end inside a user key |
| EngineMerges.SplitPicked | Team Up/Pods/leveldb-library/db/version_set.cc:1407-1411 | On the three tables of the counterexample the code picks the first two |
| EngineMerges.DeletedKeyReadable | Team Up/Pods/leveldb-library/db/version_set.cc:1407-1411 | From a state that satisfies the invariant, with a snapshot held throughout, that merge goes through and Get at the snapshot answers the deleted value |
| EngineLinks.MergeLoopJustifiesStep | Team Up/Pods/leveldb-library/db/db_impl.cc:878-1010 | A successful merge loop leaves tables that hold exactly the survivors the merge step asks for |
| EngineLinks.GroupIsBatch | Team Up/Pods/leveldb-library/db/db_impl.cc:1204-1206 | The records of a group, numbered from LastSequence + 1, form a batch the engine accepts |
| EngineLinks.StampedAre | Team Up/Pods/leveldb-library/db/db_impl.cc:1204-1206 | Operation i of a record is in the engine with its own key, kind and value at the first sequence number plus i, and nothing else is |
| EngineLinks.CursorShowsWhatGetAnswers | Team Up/Pods/leveldb-library/db/db_impl.cc:1147-1157 | A cursor over all layers shows a key and value iff Get at the same snapshot answers it |
| WriteQueue.GroupIsUnique | Team Up/Pods/leveldb-library/db/db_impl.cc:1260-1306 | The greedy group is uniquely determined by the queue |
| WriteQueue.GroupBounds | Team Up/Pods/leveldb-library/db/db_impl.cc:1268-1276 | A group's bytes are at most the larger of the leader's size and the limit; sync members have a sync leader |
| WriteQueue.WhyGroupsEnd | Team Up/Pods/leveldb-library/db/db_impl.cc:1268-1291 | A group ends only at the end of the queue, before a sync write under a leader without sync, or before a batch over the limit, 128 KB above a small leader and 1 MB otherwise |
| WriteQueue.SizesAre | Team Up/Pods/leveldb-library/db/db_impl.cc:1271-1285 | A writer adds twelve bytes and the lengths of its operations, a null batch nothing |
| WriteQueue.Database.BuildBatchGroup | Team Up/Pods/leveldb-library/db/db_impl.cc:1260-1306 | Returns the longest admissible queue prefix and a batch that holds each of its batches whole, one after the other and nothing else, in tmp_batch_ only when more than one was joined |
| WriteQueue.Database.CompleteGroup | Team Up/Pods/leveldb-library/db/db_impl.cc:1240-1255 | Takes exactly the group off the queue, tells its members the status and signals the new head |
| WriteQueue.Database.CommitGroup | Team Up/Pods/leveldb-library/db/db_impl.cc:1202-1238 | Logs the batches of the group whole under the next sequence numbers, is Ok iff appended and synced, advances LastSequence whatever the outcome, empties tmp_batch_, records a sync error |
| WriteQueue.Database.LeadGroup | Team Up/Pods/leveldb-library/db/db_impl.cc:1200-1257 | The leader's whole part of Write: refused and null-batch writers complete alone |
| WriteQueueRuns.Reachable | Team Up/Pods/leveldb-library/db/db_impl.cc:1185-1258 | In every interleaving groups are runs of consecutive writers that log all their records unless refused, ranges are contiguous, MakeRoomForWrite is forced exactly for a leading null batch, tmp_batch_ is empty between groups |
| WriteQueueRuns.OneGroupEach | Team Up/Pods/leveldb-library/db/db_impl.cc:1240-1250 | Each finished Write was in exactly one group and got its status; told Ok, its own operations stand whole in the group batch at the sum of the lengths of those before it |
| WriteQueueRuns.RangesApart | Team Up/Pods/leveldb-library/db/db_impl.cc:1204-1237 | Sequence ranges of groups never meet, also after log errors |
| WriteQueueRuns.StepGrows | Team Up/Pods/leveldb-library/db/db_impl.cc:1240-1250 | Statuses and groups are never revised |
| WriteQueueRuns.NobodyStuck | Team Up/Pods/leveldb-library/db/db_impl.cc:1192-1198 | The head of the queue is never asleep unsignalled, and once the queue is empty everyone has been told |
| SwitchRequests.ForcedIffLeads | Team Up/Pods/leveldb-library/db/db_impl.cc:1200-1204 | A null-batch Write told Ok had a switch forced by its group iff it led the group |
| SwitchRequests.JoinedWithoutSwitch | Team Up/Pods/leveldb-library/db/db_impl.cc:1280-1304 | The run in which a null batch arrives behind a write, joins its group and is told Ok with no switch made |
| SwitchRequests.SwitchPromisedIff | Team Up/Pods/leveldb-library/db/db_impl.cc:1185-1204 | A null-batch Write told Ok is certain to have had a switch iff, when it arrives, no waiting write outside the running group could take it into its own |
| SwitchRequests.PlainCondition | Team Up/Pods/leveldb-library/db/db_impl.cc:624-627 | Without sync that is: no write waits outside the running group |
| SwitchRequests.SwitchSure | Team Up/Pods/leveldb-library/db/db_impl.cc:1200-1204 | If none could, then however the run goes on, being told Ok means the switch was forced and made |
| SwitchRequests.AloneGetsSwitch | Team Up/Pods/leveldb-library/db/db_impl.cc:1200-1204 | So it is for a request that arrives at an empty queue or behind the running group alone |
| SwitchRequests.SwitchMissed | Team Up/Pods/leveldb-library/db/db_impl.cc:1280-1304 | If one could, some continuation tells it Ok with no switch |
| QueueLinks.LeadGroupSteps | Team Up/Pods/leveldb-library/db/db_impl.cc:1200-1257 | The leader code of Write, from an object that stands for a state, is a path of Room, Arrive and Commit steps to a state it again stands for, on which each member is told the status returned |
| QueueLinks.LeaderMakesRoom | Team Up/Pods/leveldb-library/db/db_impl.cc:1310-1370 | Forced by a null batch, the engine loop fails or has switched, which is what the Room step asks |
| QueueLinks.RoomBeginsWrite | Team Up/Pods/leveldb-library/db/db_impl.cc:1201-1208 | Forming a group is BeginWrite of its stamped records in the engine; a refusal or a switch request leaves the engine alone |
| QueueLinks.CommitEndsWrite | Team Up/Pods/leveldb-library/db/db_impl.cc:1227-1238 | Completing the group is EndWrite: LastSequence moves alike, and a sync group told Ok is acknowledged |
| Wire.VarintRoundTrip | Team Up/Pods/nanopb/pb_decode.c:255-275 | pb_decode_varint inverts pb_encode_varint on every 64-bit value, in one to ten bytes, whatever follows |
| Wire.VarintRead | Team Up/Pods/nanopb/pb_decode.c:255-275 | A varint not ended within ten bytes or cut short is refused, any other is the sum of its groups cut to 64 bits |
| Wire.Varint32RoundTrip | Team Up/Pods/nanopb/pb_decode.c:187-247 | pb_decode_varint32 inverts it on every 32-bit value |
| Wire.Varint32Agrees | Team Up/Pods/nanopb/pb_decode.c:187-247 | On varints of at most ten bytes a successful pb_decode_varint32 gives the 64-bit value modulo 2^32 and the same rest |
| Wire.SmallAccepted | Team Up/Pods/nanopb/pb_decode.c:187-247 | It accepts every encoding whose groups sum below 2^32 |
| Wire.NegativeAccepted | Team Up/Pods/nanopb/pb_decode.c:223-228 | It accepts every sign-extended negative int32 |
| Wire.NarrowAccepted | Team Up/Pods/nanopb/pb_decode.c:223-228 | A value the 64-bit decoder reads as 32-bit is accepted iff there is no tenth byte or it is at most one |
| Wire.OverlongRefused | Team Up/Pods/nanopb/pb_decode.c:223-228 | A tenth byte with bits beyond the 64th is ignored by one decoder and refused by the other |
| Wire.ZigZagBijection | Team Up/Pods/nanopb/pb_decode.c:1279-1291 | Zigzag is a bijection between int64 and uint64 |
| Wire.FixedRoundTrip | Team Up/Pods/nanopb/pb_encode.c:641-667 | Little-endian values come back |
| Encoder.PbEncodeVarint | Team Up/Pods/nanopb/pb_encode.c:608-628 | The buffer loop writes exactly the varint encoding |
| Encoder.PbEncodeFixed | Team Up/Pods/nanopb/pb_encode.c:641-667 | Writes the bytes least significant first |
| InputStream.IStream.Read | Team Up/Pods/nanopb/pb_decode.c:102-139 | Reads exactly count bytes or, when fewer are left, nothing |
| InputStream.IStream.DecodeVarint | Team Up/Pods/nanopb/pb_decode.c:255-275 | The byte loop computes the 64-bit meaning and fails exactly where it does |
| InputStream.IStream.DecodeVarint32Eof | Team Up/Pods/nanopb/pb_decode.c:187-247 | The byte loop with its overflow rules computes the 32-bit meaning; eof iff the stream was empty |
| InputStream.IStream.DecodeSvarint | Team Up/Pods/nanopb/pb_decode.c:1279-1291 | Inverts zigzag on the decoded varint |
| InputStream.IStream.DecodeFixed | Team Up/Pods/nanopb/pb_decode.c:1293-1325 | Assembles the bytes read |
| InputStream.IStream.DecodeTag | Team Up/Pods/nanopb/pb_decode.c:298-319 | Splits number and wire type; a zero tag or an empty stream is end of message |
| InputStream.IStream.SkipVarint | Team Up/Pods/nanopb/pb_decode.c:278-287 | Moves past the varint, however long |
| InputStream.IStream.SkipString | Team Up/Pods/nanopb/pb_decode.c:289-296 | Moves past prefix and payload, or fails when the payload is cut short |
| InputStream.IStream.SkipField | Team Up/Pods/nanopb/pb_decode.c:321-331 | Consumes exactly the payload the wire type announces |
| InputStream.IStream.MakeStringSubstream | Team Up/Pods/nanopb/pb_decode.c:372-385 | The substream holds exactly the payload, shorter than the parent; the parent keeps the rest |
| InputStream.IStream.CloseStringSubstream | Team Up/Pods/nanopb/pb_decode.c:387-400 | The parent goes on right after the record, read or not |
| InputStream.Varint32Extends | Team Up/Pods/nanopb/pb_decode.c:187-247 | What follows a varint does not matter |
| InputStream.SkipExtends | Team Up/Pods/nanopb/pb_decode.c:321-331 | What follows a skipped field does not matter |
| FieldIter.FieldIterator.Begin | Team Up/Pods/nanopb/pb_common.c:8-18 | Stands on the first field; false for an empty message type |
| FieldIter.FieldIterator.Next | Team Up/Pods/nanopb/pb_common.c:20-76 | One position on, cyclically; data and size place and required index again depend on the position alone, a redirected pSize included |
| FieldIter.FieldIterator.Find | Team Up/Pods/nanopb/pb_common.c:78-95 | From anywhere, within one lap: true iff a non-extension field has the tag, and then stands on it; else back where it started |
| FieldIter.FieldsApart | Team Up/Pods/nanopb/pb_common.c:20-76 | Data of fields outside a common oneof never overlaps, iff each oneof member fits before the next place; outside oneofs it always does |
| RequiredFields.CheckRequired | Team Up/Pods/nanopb/pb_decode.c:1021-1073 | From wherever the iterator stopped, passes iff every one of the first 64 required fields was seen |
| RequiredFields.AllSeen | Team Up/Pods/nanopb/pb_decode.c:1015-1073 | The first count bits are set iff the required fields they stand for were seen |
| RequiredFields.WordsTell | Team Up/Pods/nanopb/pb_decode.c:1049-1070 | Comparing whole words and then the low bits of the next compares every bit |
| RequiredFields.SetBitRecords | Team Up/Pods/nanopb/pb_decode.c:994-999 | Setting a required field's bit records exactly that field |
| Decoder.DecBool | Team Up/Pods/nanopb/pb_decode.c:1328-1337 | Any non-zero 32-bit varint is true |
| Decoder.DecVarint | Team Up/Pods/nanopb/pb_decode.c:1339-1374 | Narrow fields go through the 32-bit cast, then must fit their width |
| Decoder.DecUvarint | Team Up/Pods/nanopb/pb_decode.c:1376-1398 | The value must fit its width |
| Decoder.DecSvarint | Team Up/Pods/nanopb/pb_decode.c:1400-1422 | The zigzag value must fit its width |
| Decoder.DecFixed | Team Up/Pods/nanopb/pb_decode.c:1424-1439 | Four or eight bytes, little-endian |
| Decoder.DecBytes | Team Up/Pods/nanopb/pb_decode.c:1441-1479 | Fails when the bytes do not fit the array |
| Decoder.DecString | Team Up/Pods/nanopb/pb_decode.c:1481-1517 | Fails when the string and its terminator do not fit |
| Decoder.DecFixedLengthBytes | Team Up/Pods/nanopb/pb_decode.c:1543-1563 | Takes exactly the declared size; empty means all zeros |
| Decoder.DecSubmessage | Team Up/Pods/nanopb/pb_decode.c:1519-1541 | Decodes the payload into the previous value, or into defaults for a new array entry; ends right after it |
| Decoder.DecodePackedArray | Team Up/Pods/nanopb/pb_decode.c:425-454 | Items until the record is used up; overflow is an error |
| Decoder.DecodeArray | Team Up/Pods/nanopb/pb_decode.c:424-464 | Packed or single items are appended to those there |
| Decoder.DecodeStaticField | Team Up/Pods/nanopb/pb_decode.c:406-483 | Each repetition rule stores, appends, flags or switches the oneof as the meaning says |
| Decoder.NoteFixedCount | Team Up/Pods/nanopb/pb_decode.c:972-992 | A different fixed-count array may start only when the previous one is full |
| Decoder.DecodeOneField | Team Up/Pods/nanopb/pb_decode.c:946-1008 | A known field is decoded, an unknown one skipped |
| Decoder.PbDecodeNoinit | Team Up/Pods/nanopb/pb_decode.c:928-1076 | The whole decoder, nested messages included, computes exactly the decoding function, and never leaves its stream |
| RequiredLaws.AcceptedIff | Team Up/Pods/nanopb/pb_decode.c:928-1076 | Decoding succeeds iff the fields are read to the end, the last fixed-count array has all its items, and each of the first 64 required fields has a top-level record |
| RequiredLaws.MissingRequired | Team Up/Pods/nanopb/pb_decode.c:1021-1073 | A message without a record of one of the first 64 required fields is refused |
| RequiredLaws.EmptyRefused | Team Up/Pods/nanopb/pb_decode.c:1021-1073 | No bytes are no message of a type with a required field |
| RequiredLaws.FixedCounts | Team Up/Pods/nanopb/pb_decode.c:990-1013 | A record of a fixed-count array adds its items to the count, from zero after another array, which must be full, and never beyond the array |
| DecodedFits.DecodedRoom | Team Up/Pods/nanopb/pb_decode.c:1078-1090 | Whatever bytes come in, an accepted message fits its struct at every depth: numbers their width, texts and arrays their room |
| DecodedFits.MessageRoom | Team Up/Pods/nanopb/pb_decode.c:928-1076 | The same when decoding into a struct that fits |
| DecodedFits.NumberRead | Team Up/Pods/nanopb/pb_decode.c:1339-1439 | What a number on the wire is read as: two's complement, zigzag, or itself |
| DecodedFits.NumberTakenIff | Team Up/Pods/nanopb/pb_decode.c:1356-1421 | A number is refused iff it does not fit its width |
| DecodedFits.TextTakenIff | Team Up/Pods/nanopb/pb_decode.c:1441-1563 | A text is taken iff it is there and fits, length or NUL included |
| Decoder.PbDecode | Team Up/Pods/nanopb/pb_decode.c:1078-1090 | The same from default values |
| Decoder.SetToDefaults | Team Up/Pods/nanopb/pb_decode.c:911-922 | The iterator loop sets every field to its default, submessages included |
| DecodingLaws.LoopComposes | Team Up/Pods/nanopb/pb_decode.c:946-1009 | Decoding a then b is decoding b from where a left off |
| DecodingLaws.ConcatenationIsMerge | Team Up/Pods/nanopb/pb_decode.c:928-1076 | Decoding a then b into one struct equals decoding a followed by b |
| DecodingLaws.RecordsMerge | Team Up/Pods/nanopb/pb_decode.c:1519-1541 | A submessage in two records equals one record with both payloads |
| DecodingLaws.LastRecordWins | Team Up/Pods/nanopb/pb_decode.c:415-423 | Two records of the same scalar decode like the second alone |
| DecodingLaws.OtherMemberWins | Team Up/Pods/nanopb/pb_decode.c:466-478 | A record of another oneof member wipes out the first: both decode like the second into an unset oneof |
| DecodingLaws.TrailingZeroEndsMessage | Team Up/Pods/nanopb/pb_decode.c:311-315 | A zero byte and any junk after a message change nothing |
| DecodingLaws.NothingAfterZero | Team Up/Pods/nanopb/pb_decode.c:946-963 | Once a zero tag has ended a message, whatever follows in the stream changes nothing |
| DecodingLaws.DelimitedAccounts | Team Up/Pods/nanopb/pb_decode.c:1519-1541 | A nested message has strictly fewer bytes than its parent, which ends up exactly prefix plus length further |
| RoundTrip.ScalarRoundTrip | Team Up/Pods/nanopb/pb_decode.c:1328-1563 | Every scalar type and width comes back through the clamping decoders |
| RoundTrip.ScalarsRoundTrip | Team Up/Pods/nanopb/pb_decode.c:425-454 | A packed array comes back item by item |
| RoundTrip.MessageRoundTrip | Team Up/Pods/nanopb/pb_encode.c:528-550 | Decoding the encoding of any fitting message succeeds and gives it back, nested, repeated, packed, fixed-count and oneof fields included |
| RoundTrip.ValueRoundTrip | Team Up/Pods/nanopb/pb_encode.c:717-765 | A value, submessages included, comes back whatever follows it |
| RoundTrip.FieldRoundTrip | Team Up/Pods/nanopb/pb_encode.c:341-426 | The encoding of one field restores exactly that field |
| RoundTrip.ZeroMessage | Team Up/Pods/nanopb/pb_encode.c:240-337 | A submessage the proto3 check takes for empty is what its defaults give |
| EncodingLaws.LeftOutIff | Team Up/Pods/nanopb/pb_encode.c:341-426 | A field leaves no byte iff it is an absent optional, an empty array, another oneof member, or a proto3 zero: 0, no bytes, NUL first, fixed length 0, or a submessage that leaves no byte |
| EncodingLaws.MessageZeroIff | Team Up/Pods/nanopb/pb_encode.c:290-312 | A submessage is taken for empty iff no byte of it would be written |
| EncodingLaws.ValueOnWire | Team Up/Pods/nanopb/pb_encode.c:769-913 | Tag and payload of every type, byte for byte |
| EncodingLaws.FirstByte | Team Up/Pods/nanopb/pb_encode.c:675-707 | With a field number below 16 the first byte is eight times the number plus the wire type |
| EncodingLaws.TagOnWire | Team Up/Pods/nanopb/pb_decode.c:298-319 | Number and wire type read back from the tag, as numbers |
| EncodingLaws.VarintDigits | Team Up/Pods/nanopb/pb_encode.c:608-628 | Groups of seven bits, least significant first, top bit on all but the last, no more than needed |
| EncodingLaws.FixedDigits | Team Up/Pods/nanopb/pb_encode.c:641-667 | Byte i of a fixed-width number is its i-th base-256 digit |
| EncodingLaws.ArrayOnWire | Team Up/Pods/nanopb/pb_encode.c:147-236 | Numbers are packed into one record, other arrays take a record an item, too many items are refused, none leave no byte |
| EncodingLaws.NumberRefused | Team Up/Pods/nanopb/pb_encode.c:769-833 | A number is refused iff its width is none of an integer or too small |
| EncodingLaws.TextWritten | Team Up/Pods/nanopb/pb_encode.c:852-913 | Bytes are refused when they do not fit, otherwise written after their length |
| EncodingLaws.StringWritten | Team Up/Pods/nanopb/pb_encode.c:873-898 | Of a string what stands before its first NUL is written |
| EncodingLaws.EmptyInput | Team Up/Pods/nanopb/pb_decode.c:838-922 | No bytes leave every default in place: absent optionals their declared default, empty arrays, no oneof member |
| UnknownFields.PayloadSkipped | Team Up/Pods/nanopb/pb_decode.c:321-331 | pb_skip_field consumes exactly what the encoder wrote after the tag |
| UnknownFields.FieldSkipped | Team Up/Pods/nanopb/pb_decode.c:953-980 | The encoding of a field leaves no trace in a reader without it |
| UnknownFields.PartDecodesProjection | Team Up/Pods/nanopb/pb_decode.c:953-980 | Any subset of the descriptors decodes the full encoding to that part of the message |
| UnknownFields.UnknownSkippedIff | Team Up/Pods/nanopb/pb_common.c:78-95 | A record whose number no descriptor has is skipped by wire type, always, iff the message type has a field or the number is not zero |
| UnknownFields.NumberZeroAccepted | Team Up/Pods/nanopb/pb_common.c:83-84 | The bytes 01 05: accepted by an empty message type, refused as cut short by every type with fields |
| Encoder.OStream.Write | Team Up/Pods/nanopb/pb_encode.c:103-124 | Takes the bytes iff they fit, or just counts; never touches bytes outside its part of the buffer |
| Encoder.PbEncodeString | Team Up/Pods/nanopb/pb_encode.c:709-715 | Writes the length and the bytes |
| Encoder.EncNumber | Team Up/Pods/nanopb/pb_encode.c:769-850 | Writes each numeric type's encoding, refusing an invalid size |
| Encoder.EncText | Team Up/Pods/nanopb/pb_encode.c:852-913 | Writes bytes, strings up to the terminator and fixed-length bytes; refuses oversized bytes |
| Encoder.WriteSubmessage | Team Up/Pods/nanopb/pb_encode.c:735-764 | The second pass writes exactly the size the first counted: the size cannot change |
| Encoder.PbEncodeSubmessage | Team Up/Pods/nanopb/pb_encode.c:717-765 | Two passes give prefix and payload |
| Encoder.EncArray | Team Up/Pods/nanopb/pb_encode.c:147-236 | Packs what can be packed, counting its size first; refuses too many items |
| Encoder.IsZeroValue | Team Up/Pods/nanopb/pb_encode.c:240-337 | The recursive proto3 check says whether every member is zero |
| Encoder.EncField | Team Up/Pods/nanopb/pb_encode.c:341-426 | Each repetition rule writes, or omits, the field as the meaning says |
| Encoder.PbEncode | Team Up/Pods/nanopb/pb_encode.c:528-550 | The iterator loop writes the encoding of all fields, succeeding iff it is defined and fits |
| Encoder.PbGetEncodedSize | Team Up/Pods/nanopb/pb_encode.c:567-576 | The size of the encoding |
| Encoder.EncodeIntoBuffer | Team Up/Pods/nanopb/pb_encode.c:86-124 | Encoding into a buffer succeeds iff sizing does and the size fits, uses that many bytes and leaves the rest alone |
| EndToEnd.Transfer | Team Up/Pods/nanopb/pb_encode.c:567-576 | Sizing a fitting message, encoding into a buffer of that size and decoding always succeed and give the message back |

## Left out

LevelDB:

- User keys are ranks in the comparator's order; only comparisons matter, and any finite set of keys has ranks.
- Corrupt internal keys: entries are parsable, so the reset of the drop state at db_impl.cc:931-935 is not modelled.
- The engine's steps are a relation on values, not methods of one object: mutex release and concurrency are the interleaving of events. The loops with a specification of their own are methods in `EngineCode`, `WriteQueue` and `Compaction`.
- `EngineCode.MakeRoomForWrite`: takes the states found after each delay or wait as given; memory use, file counts and file creation choose freely among the branches, a full level 0 implies `needs`, and the length of the delay is left out.
- The version set is a contract: `LogAndApply` is one manifest record that may be written even when it reports an error; any files of the version may be picked as inputs of a merge. Scores, the choice of level and first file and the values of the byte limits are not modelled, and a trivial move changes no set of files.
- `EngineTheorems.Reachable`: a run is one whose merges uncover nothing (`Engine.SafePick`); `EngineMerges.SafePickIff` shows that the condition is exact and `EngineMerges.DeletedKeyReadable` what happens without it.
- Search order within `Version::Get` is taken by sequence number, not by level and file.
- `CompactionModel.KeptAreSurvivors`: assumes a snapshot below the largest sequence number, because the loop's starting value for the last sequence meets a snapshot that high and would drop every first entry; sequence numbers never reach it.
- `EngineSafety.AcknowledgedWritesSurvive`: assumes that a failed append leaves all or none of its record, that a log file once created survives a crash, and that a crash keeps at least each log's synced records.
- Insertion of a batch into the memtable does not fail; batches are well formed.
- A writer waiting in `MakeRoomForWrite` while the database object is being destroyed is outside the API's rules and is not an event.
- Manual compaction is a request flag: ranges, levels and cancellation are left out. Read sampling is a nondeterministic request for compaction.
- Manifest and lock files, the previous-log number, logging, statistics, properties, repair, option handling and the C bindings.
- `EngineCode.Recovery.RecoverLogFile`: records dropped by the log reader's checksum are not in the log's record list; the reader itself is not part of this model.

nanopb:

- Callbacks, custom streams, extension fields, pointer fields with malloc and `pb_release`. A pointer field is refused as in a build without malloc.
- Sizes are those of a PB_FIELD_32BIT build; `size_t` sums do not overflow.
- `bitpos` in `pb_decode_varint32_eof` is unbounded here; in the code it is a small integer that can wrap on varints longer than ten bytes.
- The struct is a record keyed by descriptor position that is passed and returned as a value; its byte layout is in `FieldIter` only. Array entries past the count and inactive oneof members are not part of it.
- Entries of a fixed-count array that were never received hold initial values here; in the code they keep whatever the memory held.
- After a failed decode the contents of the struct are not specified.
- `Decoder.PbDecodeNoinit`: asks for distinct tags, without which the iterator's position would decide which of two fields is meant.
- `RoundTrip.MessageRoundTrip`: asks for tags from 1 to 2^29 - 1, zero defaults for proto3 singular fields, values in range, strings without NUL and lengths below 2^32.
- `DecodingLaws.ConcatenationIsMerge`: asks that there be no fixed-count arrays and that the first part end without a zero tag; with either the two sides may differ.
- Error message texts; the 32-bit-only build.
