// The storage engine as a state machine.  Each event is one stretch between two points
// where the database mutex is taken or released, or one action of the file system.
module Engine {
  import opened InternalKeys
  import opened Views
  import opened CompactionModel

  // ---------- Durable state ----------

  // A log file: one set of entries per batch record, and how many records are known synced.
  datatype Log = Log(records: seq<set<Entry>>, synced: nat)

  ghost function Union(rs: seq<set<Entry>>): set<Entry> {
    set i, e | 0 <= i < |rs| && e in rs[i] :: e
  }

  ghost function AllOf(l: Log): set<Entry> {
    Union(l.records)
  }

  ghost function SyncedOf(l: Log): set<Entry> {
    if l.synced <= |l.records| then Union(l.records[..l.synced]) else {}
  }

  // A version of the table set.  absorbed and floor are history: every entry ever moved from a
  // log into the tables, and the highest snapshot bound any installed compaction used.
  datatype Version = Version(files: set<nat>, logNumber: nat, lastSequence: Sequence, nextFile: nat,
                             absorbed: set<Entry>, floor: Sequence)

  datatype Disk = Disk(logs: map<nat, Log>, tables: map<nat, set<Entry>>, manifest: Version)

  // Entries held by a set of table files.
  ghost function Entries(tables: map<nat, set<Entry>>, files: set<nat>): set<Entry> {
    set n, e | n in files && n in tables && e in tables[n] :: e
  }

  // One manifest record.
  datatype Edit = Edit(del: set<nat>, add: set<nat>, logNumber: nat, lastSequence: Sequence, nextFile: nat,
                       absorb: set<Entry>, floor: Sequence)

  function Max(a: nat, b: nat): nat { if a < b then b else a }

  function Apply(v: Version, ed: Edit): Version {
    Version(v.files - ed.del + ed.add, ed.logNumber, ed.lastSequence, ed.nextFile,
            v.absorbed + ed.absorb, Max(v.floor, ed.floor))
  }

  // ---------- Volatile state ----------

  datatype Compaction = Compaction(inputs: set<nat>, smallest: Sequence, outputs: set<nat>,
                                   deeper: seq<seq<FileMeta>>, manual: bool)

  datatype Purpose = Flush(outer: Option<Compaction>) | Compact(c: Compaction) | Move

  // The single background thread.
  datatype Job =
    | Idle
    | Scheduled
    | Flushing(num: nat, outer: Option<Compaction>)     // building a level-0 table, lock released
    | Compacting(c: Compaction)                         // merging tables, lock released
    | Logging(edit: Edit, purpose: Purpose)             // LogAndApply, lock released
    | Logged(edit: Edit, purpose: Purpose, ok: bool)    // manifest write finished, lock not yet taken

  datatype Stage = Start | Appended | Synced | Done(ok: bool, syncError: bool)

  // The writer at the head of the queue.
  datatype Leader =
    | Free
    | Asleep                                            // in MakeRoomForWrite, waiting for background work
    | Writing(batch: set<Entry>, count: nat, sync: bool, stage: Stage)

  // A read in progress: the sequence and the references it took under the lock.
  datatype Reader = Reader(snapshot: Sequence, mem: nat, imm: Option<nat>, version: Version)

  // Memtables are named by the number of the log that backs them.
  datatype Memory = Memory(
    heap: map<nat, set<Entry>>, imm: Option<nat>, hasImm: bool, logNumber: nat,
    lastSequence: Sequence, nextFile: nat, current: Version, pending: set<nat>, snapshots: seq<Sequence>,
    bgError: bool, shutdown: bool, manual: bool, needs: bool,
    leader: Leader, job: Job, readers: map<nat, Reader>)

  datatype Plan = Plan(edit: Edit, save: bool, written: Option<bool>, mem: set<Entry>, logNumber: nat,
                       lastSequence: Sequence, nextFile: nat)

  datatype Phase = Down | Opening(plan: Plan) | Up(m: Memory)

  // issued: entries given a sequence number in this lineage of the database.
  // acked: entries of writes acknowledged with sync.
  datatype State = State(disk: Disk, phase: Phase, issued: set<Entry>, acked: set<Entry>)

  ghost function MemOf(m: Memory): set<Entry> {
    if m.logNumber in m.heap then m.heap[m.logNumber] else {}
  }

  ghost function ImmOf(m: Memory): set<Entry> {
    if m.imm.Some? && m.imm.value in m.heap then m.heap[m.imm.value] else {}
  }

  // ---------- Reading ----------

  // Get: memtable, then immutable memtable, then tables.
  ghost predicate GetFrom(mem: set<Entry>, imm: set<Entry>, tables: set<Entry>, k: UserKey, s: Sequence, v: Value) {
    if AnyVisible(mem, k, s) then Reads(mem, k, s, v)
    else if AnyVisible(imm, k, s) then Reads(imm, k, s, v)
    else Reads(tables, k, s, v)
  }

  ghost predicate Get(d: Disk, m: Memory, k: UserKey, s: Sequence, v: Value) {
    GetFrom(MemOf(m), ImmOf(m), Entries(d.tables, m.current.files), k, s, v)
  }

  // What a read in progress finds, looking through the references it holds.
  ghost predicate ReaderGets(d: Disk, m: Memory, r: Reader, k: UserKey, v: Value) {
    GetFrom(if r.mem in m.heap then m.heap[r.mem] else {},
            if r.imm.Some? && r.imm.value in m.heap then m.heap[r.imm.value] else {},
            Entries(d.tables, r.version.files), k, r.snapshot, v)
  }

  // ---------- Building blocks of the events ----------

  function MaybeSchedule(m: Memory): Memory {
    if m.job != Idle || m.shutdown || m.bgError || (m.imm.None? && !m.manual && !m.needs) then m
    else m.(job := Scheduled)
  }

  function SignalAll(m: Memory): Memory {
    if m.leader.Asleep? then m.(leader := Free) else m
  }

  function RecordBackgroundError(m: Memory): Memory {
    if m.bgError then m else SignalAll(m.(bgError := true))
  }

  // End of BackgroundCall.
  function FinishJob(m: Memory): Memory {
    SignalAll(MaybeSchedule(m.(job := Idle)))
  }

  // After CompactMemTable returns: either the background call ends, or the table
  // compaction that made room for it goes on.
  function AfterFlush(m: Memory, outer: Option<Compaction>): Memory {
    if outer.Some? then SignalAll(m.(job := Compacting(outer.value))) else FinishJob(m)
  }

  // CleanupCompaction, then the end of the background call.
  function EndCompaction(m: Memory, c: Compaction): Memory {
    FinishJob(m.(pending := m.pending - c.outputs, manual := m.manual && !c.manual))
  }

  ghost function ReaderFiles(m: Memory): set<nat> {
    set id, n | id in m.readers && n in m.readers[id].version.files :: n
  }

  // DeleteObsoleteFiles.  Deletions may fail, so any superset of the protected files survives.
  ghost predicate Collected(d: Disk, d': Disk, m: Memory) {
    if m.bgError then d' == d
    else
      && d'.manifest == d.manifest
      && d'.tables.Keys <= d.tables.Keys && d'.logs.Keys <= d.logs.Keys
      && (forall n :: n in d.tables && n in m.pending + m.current.files + ReaderFiles(m) ==> n in d'.tables)
      && (forall n :: n in d.logs && n >= m.current.logNumber ==> n in d'.logs)
      && (forall n :: n in d'.tables ==> d'.tables[n] == d.tables[n])
      && (forall n :: n in d'.logs ==> d'.logs[n] == d.logs[n])
  }

  // ---------- Events ----------

  datatype Event =
    // writers
    | Switch(newLog: nat)
    | Sleep
    | BeginWrite(batch: set<Entry>, count: nat, sync: bool)
    | Append(ok: bool, torn: bool)
    | Sync(ok: bool)
    | Insert
    | EndWrite
    // snapshots and readers
    | TakeSnapshot
    | ReleaseSnapshot(index: nat)
    | BeginRead(id: nat, snapshot: Sequence)
    | EndRead(id: nat, seekCompaction: bool)
    // background work
    | RequestManual
    | Shutdown
    | Background(pick: Pick)
    | BuildTable(ok: bool)
    | OpenOutput
    | WriteOutput(num: nat, es: set<Entry>)
    | FlushInside
    | FinishMerge(ok: bool)
    | WriteManifest(ok: bool, applied: bool)
    | Install(d': Disk, needs: bool)
    // life cycle
    | Crash(kept: map<nat, nat>)
    | Replay(reuse: bool, tables: map<nat, set<Entry>>, newLog: nat, nextFile: nat, save: bool)
    | ReplayFail(tables: map<nat, set<Entry>>)
    | OpenWrite(ok: bool, applied: bool)
    | OpenFail
    | OpenDone(d': Disk, needs: bool)

  datatype Pick = PickNothing | PickMove | PickMerge(c: Compaction)

  // Sequence numbers of a batch: distinct, and exactly in the range reserved for it.
  ghost predicate BatchOk(batch: set<Entry>, last: Sequence, count: nat) {
    && (forall e :: e in batch ==> last < e.sn <= last + count)
    && (forall e, f :: e in batch && f in batch && e.sn == f.sn ==> e == f)
  }

  // No deletion marker the merge would drop is all that hides an older value in another table of
  // the version.
  ghost predicate UncoversNothing(tables: map<nat, set<Entry>>, files: set<nat>, c: Compaction) {
    forall t ::
      !Uncovers(Entries(tables, c.inputs), Entries(tables, files - c.inputs), c.smallest, BaseLevel(c.deeper), t)
  }

  // Logs numbered n or higher, and everything a set of logs holds.
  function LogsFrom(logs: map<nat, Log>, n: nat): set<nat> {
    set x | x in logs && x >= n
  }

  ghost function LogEntries(logs: map<nat, Log>, ns: set<nat>): set<Entry> {
    set n, e | n in ns && n in logs && e in AllOf(logs[n]) :: e
  }

  // What recovery replays.
  function Replayed(d: Disk): set<nat> {
    LogsFrom(d.logs, d.manifest.logNumber)
  }

  ghost predicate IsLast(logs: set<nat>, n: nat) {
    n in logs && forall x :: x in logs ==> x <= n
  }

  // ---------- Steps of a running database ----------

  // MakeRoomForWrite: fresh log and memtable, the old memtable becomes immutable.
  ghost predicate SwitchStep(s: State, newLog: nat, s': State)
    requires s.phase.Up?
  {
    var m := s.phase.m;
    && m.leader.Free? && !m.bgError && m.imm.None? && newLog == m.nextFile
    && s' == s.(disk := s.disk.(logs := s.disk.logs[newLog := Log([], 0)]),
                phase := Up(MaybeSchedule(m.(nextFile := newLog + 1, logNumber := newLog,
                                             imm := Some(m.logNumber), hasImm := true,
                                             heap := m.heap[newLog := {}]))))
  }

  // MakeRoomForWrite: wait while the memtable is full and imm_ or level 0 is in the way.
  ghost predicate SleepStep(s: State, s': State)
    requires s.phase.Up?
  {
    var m := s.phase.m;
    && m.leader.Free? && !m.bgError && !m.shutdown && (m.imm.Some? || m.needs)
    && s' == s.(phase := Up(m.(leader := Asleep)))
  }

  ghost predicate BeginWriteStep(s: State, batch: set<Entry>, count: nat, sync: bool, s': State)
    requires s.phase.Up?
  {
    var m := s.phase.m;
    && m.leader.Free? && !m.bgError && BatchOk(batch, m.lastSequence, count)
    && s' == s.(phase := Up(m.(leader := Writing(batch, count, sync, Start))), issued := s.issued + batch)
  }

  // The record reaches the log, or the append fails and leaves all of it or none of it.
  ghost predicate AppendStep(s: State, ok: bool, torn: bool, s': State)
    requires s.phase.Up?
  {
    var m := s.phase.m;
    && m.leader.Writing? && m.leader.stage.Start? && m.logNumber in s.disk.logs
    && var l := s.disk.logs[m.logNumber];
       var l' := if ok || torn then l.(records := l.records + [m.leader.batch]) else l;
       s' == s.(disk := s.disk.(logs := s.disk.logs[m.logNumber := l']),
                phase := Up(m.(leader := m.leader.(stage := if ok then Appended else Done(false, false)))))
  }

  ghost predicate SyncStep(s: State, ok: bool, s': State)
    requires s.phase.Up?
  {
    var m := s.phase.m;
    && m.leader.Writing? && m.leader.stage.Appended? && m.leader.sync && m.logNumber in s.disk.logs
    && var l := s.disk.logs[m.logNumber];
       var l' := if ok then l.(synced := |l.records|) else l;
       s' == s.(disk := s.disk.(logs := s.disk.logs[m.logNumber := l']),
                phase := Up(m.(leader := m.leader.(stage := if ok then Synced else Done(false, true)))))
  }

  ghost predicate InsertStep(s: State, s': State)
    requires s.phase.Up?
  {
    var m := s.phase.m;
    && m.leader.Writing? && (m.leader.stage.Synced? || (m.leader.stage.Appended? && !m.leader.sync))
    && s' == s.(phase := Up(m.(heap := m.heap[m.logNumber := MemOf(m) + m.leader.batch],
                               leader := m.leader.(stage := Done(true, false)))))
  }

  // Back under the lock: LastSequence advances whether or not the write succeeded.
  ghost predicate EndWriteStep(s: State, s': State)
    requires s.phase.Up?
  {
    var m := s.phase.m;
    && m.leader.Writing? && m.leader.stage.Done?
    && var m1 := m.(lastSequence := m.lastSequence + m.leader.count, leader := Free);
       && s'.phase == Up(if m.leader.stage.syncError then RecordBackgroundError(m1) else m1)
       && s'.acked == s.acked + (if m.leader.sync && m.leader.stage.ok then m.leader.batch else {})
       && s'.disk == s.disk && s'.issued == s.issued
  }

  ghost predicate SnapshotStep(s: State, ev: Event, s': State)
    requires s.phase.Up? && (ev.TakeSnapshot? || ev.ReleaseSnapshot?)
  {
    var m := s.phase.m;
    match ev
    case TakeSnapshot => s' == s.(phase := Up(m.(snapshots := m.snapshots + [m.lastSequence])))
    case ReleaseSnapshot(i) =>
      i < |m.snapshots| && s' == s.(phase := Up(m.(snapshots := m.snapshots[..i] + m.snapshots[i + 1..])))
  }

  ghost predicate ReadStep(s: State, ev: Event, s': State)
    requires s.phase.Up? && (ev.BeginRead? || ev.EndRead?)
  {
    var m := s.phase.m;
    match ev
    case BeginRead(id, snap) =>
      && id !in m.readers && (snap == m.lastSequence || snap in m.snapshots)
      && s' == s.(phase := Up(m.(readers := m.readers[id := Reader(snap, m.logNumber, m.imm, m.current)])))
    case EndRead(id, seek) =>
      && id in m.readers
      && var m1 := m.(readers := m.readers - {id});
         s' == s.(phase := Up(if seek then MaybeSchedule(m1.(needs := true)) else m1))
  }

  ghost predicate FlagStep(s: State, ev: Event, s': State)
    requires s.phase.Up? && (ev.RequestManual? || ev.Shutdown?)
  {
    var m := s.phase.m;
    match ev
    case RequestManual =>
      !m.manual && !m.shutdown && !m.bgError && s' == s.(phase := Up(MaybeSchedule(m.(manual := true))))
    case Shutdown => s' == s.(phase := Up(m.(shutdown := true)))
  }

  // ---------- Steps of the background thread ----------

  // WriteLevel0Table begins: take a file number and protect it.
  function BeginFlush(m: Memory, outer: Option<Compaction>): Memory {
    m.(nextFile := m.nextFile + 1, pending := m.pending + {m.nextFile}, job := Flushing(m.nextFile, outer))
  }

  function PlainEdit(m: Memory, del: set<nat>, add: set<nat>, floor: Sequence): Edit {
    Edit(del, add, m.current.logNumber, m.lastSequence, m.nextFile, {}, floor)
  }

  ghost predicate MergeOk(d: Disk, m: Memory, c: Compaction) {
    && c.inputs <= m.current.files && c.outputs == {} && c.manual == m.manual
    && c.smallest == (if m.snapshots == [] then m.lastSequence else m.snapshots[0])
  }

  // The event is the pick of a merge; any inputs among the version's files can be picked.
  ghost predicate StartsMerge(s: State, ev: Event) {
    && s.phase.Up? && ev.Background? && ev.pick.PickMerge?
    && var m := s.phase.m; !m.shutdown && !m.bgError && m.imm.None?
  }

  ghost predicate SafePick(s: State, ev: Event) {
    StartsMerge(s, ev) ==> UncoversNothing(s.disk.tables, s.phase.m.current.files, ev.pick.c)
  }

  ghost predicate BackgroundStep(s: State, pick: Pick, s': State)
    requires s.phase.Up?
  {
    var m := s.phase.m;
    && m.job.Scheduled?
    && s'.disk == s.disk && s'.issued == s.issued && s'.acked == s.acked && s'.phase.Up?
    && if m.shutdown || m.bgError then s'.phase.m == FinishJob(m)
       else if m.imm.Some? then s'.phase.m == BeginFlush(m, None)
       else match pick
            case PickNothing => s'.phase.m == FinishJob(m.(manual := false, needs := m.needs && m.manual))
            case PickMove => !m.manual && s'.phase.m == m.(job := Logging(PlainEdit(m, {}, {}, 0), Move))
            case PickMerge(c) => MergeOk(s.disk, m, c) && s'.phase.m == m.(job := Compacting(c))
  }

  // BuildTable returns; WriteLevel0Table drops the protection and CompactMemTable starts the
  // manifest write, or records the error.  An empty memtable leaves no file.
  ghost predicate BuildTableStep(s: State, ok: bool, s': State)
    requires s.phase.Up?
  {
    var m := s.phase.m;
    && m.job.Flushing?
    && var es := ImmOf(m);
       var keep := ok && es != {};
       var m1 := m.(pending := m.pending - {m.job.num});
       && s'.issued == s.issued && s'.acked == s.acked
       && s'.disk == (if keep then s.disk.(tables := s.disk.tables[m.job.num := es])
                      else s.disk.(tables := s.disk.tables - {m.job.num}))
       && s'.phase == Up(
            if ok && !m.shutdown then
              m1.(job := Logging(Edit({}, if es != {} then {m.job.num} else {}, m.logNumber, m.lastSequence,
                                      m.nextFile, es, 0), Flush(m.job.outer)))
            else AfterFlush(RecordBackgroundError(m1), m.job.outer))
  }

  ghost predicate OpenOutputStep(s: State, s': State)
    requires s.phase.Up?
  {
    var m := s.phase.m;
    && m.job.Compacting?
    && s' == s.(phase := Up(m.(nextFile := m.nextFile + 1, pending := m.pending + {m.nextFile},
                               job := Compacting(m.job.c.(outputs := m.job.c.outputs + {m.nextFile})))))
  }

  ghost predicate WriteOutputStep(s: State, num: nat, es: set<Entry>, s': State)
    requires s.phase.Up?
  {
    var m := s.phase.m;
    && m.job.Compacting? && num in m.job.c.outputs
    && s' == s.(disk := s.disk.(tables := s.disk.tables[num := es]))
  }

  ghost predicate FlushInsideStep(s: State, s': State)
    requires s.phase.Up?
  {
    var m := s.phase.m;
    && m.job.Compacting? && m.hasImm && m.imm.Some?
    && s' == s.(phase := Up(BeginFlush(m, Some(m.job.c))))
  }

  // DoCompactionWork finished.  On success the outputs hold the kept entries of the inputs.
  ghost predicate FinishMergeStep(s: State, ok: bool, s': State)
    requires s.phase.Up?
  {
    var m := s.phase.m;
    && m.job.Compacting?
    && var c := m.job.c;
       && s'.issued == s.issued && s'.acked == s.acked
       && (if ok && !m.shutdown then
             && c.outputs <= s.disk.tables.Keys
             && Entries(s.disk.tables, c.outputs) ==
                Survivors(Entries(s.disk.tables, c.inputs), c.smallest, BaseLevel(c.deeper))
             && s'.disk == s.disk
             && s'.phase == Up(m.(job := Logging(PlainEdit(m, c.inputs, c.outputs, c.smallest), Compact(c))))
           else
             && s'.phase == Up(EndCompaction(RecordBackgroundError(m), c))
             && s'.disk == s.disk)
  }

  // The manifest write.  A failed one may still have reached the disk.
  ghost predicate WriteManifestStep(s: State, ok: bool, applied: bool, s': State)
    requires s.phase.Up?
  {
    var m := s.phase.m;
    && m.job.Logging?
    && s' == s.(disk := if ok || applied then s.disk.(manifest := Apply(s.disk.manifest, m.job.edit)) else s.disk,
                phase := Up(m.(job := Logged(m.job.edit, m.job.purpose, ok))))
  }

  // LogAndApply returns under the lock: install the version, drop what protected the outputs,
  // collect garbage, go on.  All of it happens before the lock is released.
  ghost predicate InstallStep(s: State, d': Disk, needs: bool, s': State)
    requires s.phase.Up?
  {
    var m := s.phase.m;
    && m.job.Logged?
    && s'.disk == d' && s'.issued == s.issued && s'.acked == s.acked
    && s'.phase.Up?
    && var m1 := if m.job.ok then m.(current := Apply(m.current, m.job.edit), needs := needs)
                 else RecordBackgroundError(m);
       match m.job.purpose
       case Flush(outer) =>
         && s'.phase.m == AfterFlush(if m.job.ok then m1.(imm := None, hasImm := false) else m1, outer)
         && (if m.job.ok then Collected(s.disk, d', s'.phase.m) else d' == s.disk)
       case Compact(c) =>
         && s'.phase.m == EndCompaction(m1, c)
         && Collected(s.disk, d', s'.phase.m)
       case Move =>
         s'.phase.m == FinishJob(m1) && d' == s.disk
  }

  // ---------- Crash and recovery ----------

  // Every log keeps at least its synced records; nothing volatile survives.
  ghost predicate CrashStep(s: State, kept: map<nat, nat>, s': State) {
    && kept.Keys == s.disk.logs.Keys
    && (forall n :: n in kept ==> s.disk.logs[n].synced <= kept[n] <= |s.disk.logs[n].records|)
    && var d' := s.disk.(logs := map n | n in kept :: Log(s.disk.logs[n].records[..kept[n]], s.disk.logs[n].synced));
       s' == State(d', Down, s.issued * (d'.manifest.absorbed + LogEntries(d'.logs, Replayed(d'))), s.acked)
  }

  // Recover: replay the logs named by the manifest or newer.  All of them go to new tables,
  // except that the last one may stay in the memtable when its file is reused.
  ghost predicate ReplayStep(s: State, reuse: bool, tables: map<nat, set<Entry>>, newLog: nat, nextFile: nat,
                             save: bool, s': State)
    requires s.phase.Down?
  {
    var d := s.disk;
    var logs := Replayed(d);
    && (newLog in logs <==> reuse) && (reuse ==> IsLast(logs, newLog))
    && newLog < nextFile && d.manifest.nextFile <= nextFile && d.manifest.logNumber < nextFile
    && (!reuse ==> d.manifest.nextFile <= newLog && newLog !in d.logs && d.manifest.logNumber < newLog)
    && (forall n :: n in logs ==> n < nextFile && n <= newLog)
    && var flushed := LogEntries(d.logs, logs - {newLog});
       && Entries(tables, tables.Keys) == flushed
       && (forall n :: n in tables ==> d.manifest.nextFile <= n < nextFile)
       && (tables != map[] ==> save)
       && exists last ::
            && d.manifest.lastSequence <= last && (forall e :: e in LogEntries(d.logs, logs) ==> e.sn <= last)
            && s' == s.(disk := d.(tables := d.tables + tables,
                                   logs := if reuse then d.logs else d.logs[newLog := Log([], 0)]),
                        phase := Opening(Plan(
                          Edit({}, tables.Keys, newLog, last, nextFile, flushed, 0), save, None,
                          if reuse then AllOf(d.logs[newLog]) else {}, newLog, last, nextFile)))
  }

  // Recovery gives up: tables it wrote stay behind, unreferenced.
  ghost predicate ReplayFailStep(s: State, tables: map<nat, set<Entry>>, s': State) {
    && (forall n :: n in tables ==> s.disk.manifest.nextFile <= n)
    && s' == s.(disk := s.disk.(tables := s.disk.tables + tables))
  }

  ghost predicate OpenWriteStep(s: State, ok: bool, applied: bool, s': State)
    requires s.phase.Opening?
  {
    var p := s.phase.plan;
    && p.save && p.written.None?
    && s' == s.(disk := if ok || applied then s.disk.(manifest := Apply(s.disk.manifest, p.edit)) else s.disk,
                phase := Opening(p.(written := Some(ok))))
  }

  ghost predicate OpenDoneStep(s: State, d': Disk, needs: bool, s': State)
    requires s.phase.Opening?
  {
    var p := s.phase.plan;
    && (if p.save then p.written == Some(true) else p.written.None?)
    && var m := Memory(map[p.logNumber := p.mem], None, false, p.logNumber, p.lastSequence, p.nextFile,
                       s.disk.manifest, {}, [], false, false, false, needs, Free, Idle, map[]);
       && Collected(s.disk, d', m)
       && s' == s.(disk := d', phase := Up(MaybeSchedule(m)))
  }

  // ---------- The transition relation ----------

  ghost predicate Step(s: State, ev: Event, s': State) {
    match ev
    case Crash(kept) => CrashStep(s, kept, s')
    case Replay(reuse, tables, newLog, nextFile, save) =>
      s.phase.Down? && ReplayStep(s, reuse, tables, newLog, nextFile, save, s')
    case ReplayFail(tables) => s.phase.Down? && ReplayFailStep(s, tables, s')
    case OpenWrite(ok, applied) => s.phase.Opening? && OpenWriteStep(s, ok, applied, s')
    case OpenFail => s.phase.Opening? && s' == s.(phase := Down)
    case OpenDone(d', needs) => s.phase.Opening? && OpenDoneStep(s, d', needs, s')
    case Switch(newLog) => s.phase.Up? && SwitchStep(s, newLog, s')
    case Sleep => s.phase.Up? && SleepStep(s, s')
    case BeginWrite(batch, count, sync) => s.phase.Up? && BeginWriteStep(s, batch, count, sync, s')
    case Append(ok, torn) => s.phase.Up? && AppendStep(s, ok, torn, s')
    case Sync(ok) => s.phase.Up? && SyncStep(s, ok, s')
    case Insert => s.phase.Up? && InsertStep(s, s')
    case EndWrite => s.phase.Up? && EndWriteStep(s, s')
    case TakeSnapshot => s.phase.Up? && SnapshotStep(s, ev, s')
    case ReleaseSnapshot(_) => s.phase.Up? && SnapshotStep(s, ev, s')
    case BeginRead(_, _) => s.phase.Up? && ReadStep(s, ev, s')
    case EndRead(_, _) => s.phase.Up? && ReadStep(s, ev, s')
    case RequestManual => s.phase.Up? && FlagStep(s, ev, s')
    case Shutdown => s.phase.Up? && FlagStep(s, ev, s')
    case Background(pick) => s.phase.Up? && BackgroundStep(s, pick, s')
    case BuildTable(ok) => s.phase.Up? && BuildTableStep(s, ok, s')
    case OpenOutput => s.phase.Up? && OpenOutputStep(s, s')
    case WriteOutput(num, es) => s.phase.Up? && WriteOutputStep(s, num, es, s')
    case FlushInside => s.phase.Up? && FlushInsideStep(s, s')
    case FinishMerge(ok) => s.phase.Up? && FinishMergeStep(s, ok, s')
    case WriteManifest(ok, applied) => s.phase.Up? && WriteManifestStep(s, ok, applied, s')
    case Install(d', needs) => s.phase.Up? && InstallStep(s, d', needs, s')
  }

  // A database just created by NewDB, not yet opened.
  function NewDatabase(): State {
    State(Disk(map[], map[], Version({}, 0, 0, 2, {}, 0)), Down, {}, {})
  }

  // A run in which no merge is picked that would uncover a value.
  ghost predicate Run(states: seq<State>, events: seq<Event>) {
    && |states| == |events| + 1
    && states[0] == NewDatabase()
    && forall i :: 0 <= i < |events| ==> Step(states[i], events[i], states[i + 1]) && SafePick(states[i], events[i])
  }
}
