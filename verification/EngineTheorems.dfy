// What holds of every run of the engine: snapshot isolation, durability, file safety,
// and no waiting for work that is not coming.
module EngineTheorems {
  import opened InternalKeys
  import opened Views
  import opened CompactionModel
  import opened Engine
  import opened EngineInvariant
  import opened EngineWrites
  import opened EngineLogSteps
  import opened EngineTables
  import opened EngineInstall
  import opened EngineRecovery

  // ---------- The invariant holds in every reachable state ----------

  ghost predicate WriterEvent(ev: Event) {
    ev.Switch? || ev.Sleep? || ev.BeginWrite? || ev.Append? || ev.Sync? || ev.Insert? || ev.EndWrite?
  }

  ghost predicate ClientEvent(ev: Event) {
    ev.TakeSnapshot? || ev.ReleaseSnapshot? || ev.BeginRead? || ev.EndRead? || ev.RequestManual? || ev.Shutdown?
  }

  ghost predicate LifeEvent(ev: Event) {
    ev.Crash? || ev.Replay? || ev.ReplayFail? || ev.OpenWrite? || ev.OpenFail? || ev.OpenDone?
  }

  ghost predicate BackgroundEvent(ev: Event) {
    !WriterEvent(ev) && !ClientEvent(ev) && !LifeEvent(ev)
  }

  lemma WriterStepKeeps(s: State, ev: Event, s': State)
    requires Inv(s) && WriterEvent(ev) && Step(s, ev, s')
    ensures Inv(s')
  {
    hide Inv;
    match ev {
      case Switch(newLog) => SwitchKeeps(s, newLog, s');
      case Sleep => SleepKeeps(s, s');
      case BeginWrite(batch, count, sync) => BeginWriteKeeps(s, batch, count, sync, s');
      case Append(ok, torn) => AppendKeeps(s, ok, torn, s');
      case Sync(ok) => SyncKeeps(s, ok, s');
      case Insert => InsertKeeps(s, s');
      case EndWrite => EndWriteKeeps(s, s');
    }
  }

  lemma ClientStepKeeps(s: State, ev: Event, s': State)
    requires Inv(s) && ClientEvent(ev) && Step(s, ev, s')
    ensures Inv(s')
  {
    hide Inv;
    match ev {
      case TakeSnapshot => SnapshotKeeps(s, ev, s');
      case ReleaseSnapshot(_) => SnapshotKeeps(s, ev, s');
      case BeginRead(id, snap) => BeginReadKeeps(s, id, snap, s');
      case EndRead(id, seek) => EndReadKeeps(s, id, seek, s');
      case RequestManual => FlagKeeps(s, ev, s');
      case Shutdown => FlagKeeps(s, ev, s');
    }
  }

  lemma BackgroundStepKeeps(s: State, ev: Event, s': State)
    requires Inv(s) && BackgroundEvent(ev) && Step(s, ev, s') && SafePick(s, ev)
    ensures Inv(s')
  {
    hide Inv;
    match ev {
      case Background(pick) => BackgroundKeeps(s, pick, s');
      case BuildTable(ok) => BuildTableKeeps(s, ok, s');
      case OpenOutput => OpenOutputKeeps(s, s');
      case WriteOutput(num, es) => WriteOutputKeeps(s, num, es, s');
      case FlushInside => FlushInsideKeeps(s, s');
      case FinishMerge(ok) => FinishMergeKeeps(s, ok, s');
      case WriteManifest(ok, applied) => WriteManifestKeeps(s, ok, applied, s');
      case Install(d', needs) => InstallKeeps(s, d', needs, s');
    }
  }

  lemma OpenFailKeeps(s: State, s': State)
    requires Inv(s) && s.phase.Opening? && s' == s.(phase := Down)
    ensures Inv(s')
  {
  }

  lemma LifeStepKeeps(s: State, ev: Event, s': State)
    requires Inv(s) && LifeEvent(ev) && Step(s, ev, s')
    ensures Inv(s')
  {
    hide Inv;
    match ev {
      case Crash(kept) => CrashKeeps(s, kept, s');
      case Replay(reuse, tables, newLog, nextFile, save) => ReplayKeeps(s, reuse, tables, newLog, nextFile, save, s');
      case ReplayFail(tables) => ReplayFailKeeps(s, tables, s');
      case OpenWrite(ok, applied) => OpenWriteKeeps(s, ok, applied, s');
      case OpenFail => OpenFailKeeps(s, s');
      case OpenDone(d', needs) => OpenDoneKeeps(s, d', needs, s');
    }
  }

  lemma StepKeeps(s: State, ev: Event, s': State)
    requires Inv(s) && Step(s, ev, s') && SafePick(s, ev)
    ensures Inv(s')
  {
    hide Inv, Step;
    if WriterEvent(ev) { WriterStepKeeps(s, ev, s'); }
    else if ClientEvent(ev) { ClientStepKeeps(s, ev, s'); }
    else if LifeEvent(ev) { LifeStepKeeps(s, ev, s'); }
    else { BackgroundStepKeeps(s, ev, s'); }
  }

  lemma NewDatabaseOk()
    ensures Inv(NewDatabase())
  {
    var d := NewDatabase().disk;
    assert Entries(d.tables, d.manifest.files) == {};
    assert LogEntries(d.logs, Replayed(d)) == {};
  }

  lemma {:induction false} Reachable(states: seq<State>, events: seq<Event>, i: nat)
    requires Run(states, events) && i < |states|
    ensures Inv(states[i])
  {
    hide Inv, Step, NewDatabase;
    if i == 0 {
      NewDatabaseOk();
    } else {
      Reachable(states, events, i - 1);
      StepKeeps(states[i - 1], events[i - 1], states[i]);
    }
  }

  // ---------- What a running database contains ----------

  ghost function Held(m: Memory): set<Entry> {
    MemOf(m) + ImmOf(m) + m.current.absorbed
  }

  // Three layers, each newer than the next, read like their union.
  lemma LayersRead(mem: set<Entry>, imm: set<Entry>, tables: set<Entry>, absorbed: set<Entry>, floor: Sequence,
                   issued: set<Entry>, k: UserKey, s: Sequence, v: Value)
    requires OneEntryPerSequence(issued) && mem + imm + absorbed <= issued
    requires Older(absorbed + imm, mem) && Older(absorbed, imm)
    requires SameFrom(tables, absorbed, floor) && floor <= s
    ensures GetFrom(mem, imm, tables, k, s, v) <==> Reads(mem + imm + absorbed, k, s, v)
  {
    LayeredRead(mem, imm + absorbed, k, s, v);
    LayeredRead(imm, absorbed, k, s, v);
    assert mem + (imm + absorbed) == mem + imm + absorbed;
  }

  // Get consults the memtable, the immutable memtable and the tables in turn, yet answers as if
  // every entry ever written were still there, at any sequence number from the floor on.
  lemma GetReadsContents(d: Disk, m: Memory, issued: set<Entry>, k: UserKey, s: Sequence, v: Value)
    requires OneEntryPerSequence(issued) && VersionOk(d.tables, m.current, issued) && MemOk(d, m, issued)
    requires SequencesOk(d, m, issued) && NumbersOk(d, m) && m.current.floor <= s
    ensures Get(d, m, k, s, v) <==> Reads(Held(m), k, s, v)
  {
    ImmSettled(d, m, issued);
    LayersRead(MemOf(m), ImmOf(m), Entries(d.tables, m.current.files), m.current.absorbed, m.current.floor,
               issued, k, s, v);
  }

  ghost predicate SameLayers(m: Memory, m': Memory) {
    m'.heap == m.heap && m'.imm == m.imm && m'.logNumber == m.logNumber && m'.current == m.current
  }

  lemma SwitchContents(s: State, newLog: nat, s': State)
    requires s.phase.Up? && Inv(s) && SwitchStep(s, newLog, s')
    ensures s'.phase.Up? && Held(s'.phase.m) == Held(s.phase.m)
  {
    var m, m' := s.phase.m, s'.phase.m;
    assert newLog !in m.heap;
    assert MemOf(m') == {} && ImmOf(m') == MemOf(m) && ImmOf(m) == {};
  }

  lemma EndWriteLayers(s: State, s': State)
    requires s.phase.Up? && EndWriteStep(s, s')
    ensures s'.phase.Up? && SameLayers(s.phase.m, s'.phase.m)
  {
  }

  lemma WriterContents(s: State, ev: Event, s': State)
    requires s.phase.Up? && s'.phase.Up? && Inv(s) && WriterEvent(ev) && Step(s, ev, s')
    ensures Held(s'.phase.m) == Held(s.phase.m) + (if ev.Insert? then s.phase.m.leader.batch else {})
    ensures ev.Insert? ==> s.phase.m.leader.Writing?
  {
    hide Inv;
    match ev {
      case Switch(newLog) => SwitchContents(s, newLog, s');
      case Insert => InsertContents(s, s');
      case EndWrite => EndWriteLayers(s, s');
      case Sleep =>
      case BeginWrite(_, _, _) =>
      case Append(_, _) =>
      case Sync(_) =>
    }
  }

  lemma InsertContents(s: State, s': State)
    requires s.phase.Up? && Inv(s) && InsertStep(s, s')
    ensures Held(s'.phase.m) == Held(s.phase.m) + s.phase.m.leader.batch
  {
    var m, m' := s.phase.m, s'.phase.m;
    assert MemOf(m') == MemOf(m) + m.leader.batch;
    assert ImmOf(m') == ImmOf(m);
  }

  lemma ClientContents(s: State, ev: Event, s': State)
    requires s.phase.Up? && s'.phase.Up? && ClientEvent(ev) && Step(s, ev, s')
    ensures SameLayers(s.phase.m, s'.phase.m) && s'.disk.tables == s.disk.tables
  {
  }

  lemma FinishJobLayers(m: Memory)
    ensures SameLayers(m, FinishJob(m)) && FinishJob(m).readers == m.readers
  {
  }

  lemma AfterFlushLayers(m: Memory, outer: Option<Compaction>)
    ensures SameLayers(m, AfterFlush(m, outer)) && AfterFlush(m, outer).readers == m.readers
  {
    hide FinishJob;
    FinishJobLayers(m);
  }

  lemma EndCompactionLayers(m: Memory, c: Compaction)
    ensures SameLayers(m, EndCompaction(m, c)) && EndCompaction(m, c).readers == m.readers
  {
    hide FinishJob;
    FinishJobLayers(m.(pending := m.pending - c.outputs, manual := m.manual && !c.manual));
  }

  lemma ErrorLayers(m: Memory)
    ensures SameLayers(m, RecordBackgroundError(m)) && RecordBackgroundError(m).readers == m.readers
  {
  }

  lemma BackgroundSame(s: State, pick: Pick, s': State)
    requires s.phase.Up? && s'.phase.Up? && BackgroundStep(s, pick, s')
    ensures SameLayers(s.phase.m, s'.phase.m)
  {
  }

  lemma FinishMergeSame(s: State, ok: bool, s': State)
    requires s.phase.Up? && s'.phase.Up? && FinishMergeStep(s, ok, s')
    ensures SameLayers(s.phase.m, s'.phase.m)
  {
    hide EndCompaction, RecordBackgroundError;
    ErrorLayers(s.phase.m);
    EndCompactionLayers(RecordBackgroundError(s.phase.m), s.phase.m.job.c);
  }

  lemma BackgroundLayers(s: State, ev: Event, s': State)
    requires s.phase.Up? && s'.phase.Up? && BackgroundEvent(ev) && !ev.Install? && Step(s, ev, s')
    ensures SameLayers(s.phase.m, s'.phase.m)
  {
    hide BackgroundStep, BuildTableStep, FinishMergeStep;
    match ev {
      case Background(pick) => BackgroundSame(s, pick, s');
      case BuildTable(ok) => BuildTableSame(s, ok, s');
      case OpenOutput =>
      case WriteOutput(_, _) =>
      case FlushInside =>
      case FinishMerge(ok) => FinishMergeSame(s, ok, s');
      case WriteManifest(_, _) =>
    }
  }

  lemma BuildTableSame(s: State, ok: bool, s': State)
    requires s.phase.Up? && s'.phase.Up? && BuildTableStep(s, ok, s')
    ensures SameLayers(s.phase.m, s'.phase.m)
  {
    hide AfterFlush, RecordBackgroundError;
    var m1 := s.phase.m.(pending := s.phase.m.pending - {s.phase.m.job.num});
    ErrorLayers(m1);
    AfterFlushLayers(RecordBackgroundError(m1), s.phase.m.job.outer);
  }

  lemma InstallContents(s: State, d': Disk, needs: bool, s': State)
    requires s.phase.Up? && s'.phase.Up? && InstallStep(s, d', needs, s') && JobOk(s.disk, s.phase.m)
    ensures Held(s'.phase.m) == Held(s.phase.m)
  {
    hide InstallStep, JobOk;
    InstallLayers(s, d', needs, s');
    var m, m' := s.phase.m, s'.phase.m;
    LoggedEdit(s.disk, m);
    assert MemOf(m') == MemOf(m);
    if m.job.ok && m.job.purpose.Flush? { assert ImmOf(m') == {}; } else { assert ImmOf(m') == ImmOf(m); }
  }

  lemma LoggedEdit(d: Disk, m: Memory)
    requires JobOk(d, m) && m.job.Logged?
    ensures m.job.edit.absorb == if m.job.purpose.Flush? then ImmOf(m) else {}
  {
  }

  lemma InstallLayers(s: State, d': Disk, needs: bool, s': State)
    requires s.phase.Up? && s'.phase.Up? && InstallStep(s, d', needs, s')
    ensures s.phase.m.job.Logged?
    ensures var m, m' := s.phase.m, s'.phase.m;
      && m'.heap == m.heap && m'.logNumber == m.logNumber && m'.readers == m.readers
      && m'.current == (if m.job.ok then Apply(m.current, m.job.edit) else m.current)
      && m'.imm == (if m.job.ok && m.job.purpose.Flush? then None else m.imm)
  {
    hide InstallStep, AfterFlush, EndCompaction, FinishJob, RecordBackgroundError, Collected;
    InstallShape(s, d', needs, s');
    var m := s.phase.m;
    var m2 := m.(current := Apply(m.current, m.job.edit), needs := needs);
    ErrorLayers(m);
    match m.job.purpose {
      case Flush(outer) =>
        AfterFlushLayers(if m.job.ok then m2.(imm := None, hasImm := false) else RecordBackgroundError(m), outer);
      case Compact(c) => EndCompactionLayers(if m.job.ok then m2 else RecordBackgroundError(m), c);
      case Move => FinishJobLayers(if m.job.ok then m2 else RecordBackgroundError(m));
    }
  }

  lemma StillUp(s: State, ev: Event, s': State)
    requires s.phase.Up? && s'.phase.Up? && Step(s, ev, s')
    ensures !LifeEvent(ev)
  {
  }

  lemma InstallEvent(s: State, d': Disk, needs: bool, s': State)
    requires s.phase.Up? && Inv(s) && Step(s, Install(d', needs), s')
    ensures InstallStep(s, d', needs, s') && JobOk(s.disk, s.phase.m)
  {
  }

  // Nothing is ever lost or invented while the database runs: only the insertion of a write
  // batch changes what it contains, whatever is flushed, merged, switched or collected.
  lemma StepContents(s: State, ev: Event, s': State)
    requires s.phase.Up? && s'.phase.Up? && Inv(s) && Step(s, ev, s')
    ensures Held(s'.phase.m) == Held(s.phase.m) + (if ev.Insert? then s.phase.m.leader.batch else {})
    ensures ev.Insert? ==> s.phase.m.leader.Writing?
  {
    hide Inv, Step;
    if WriterEvent(ev) { WriterContents(s, ev, s'); }
    else if ClientEvent(ev) { ClientContents(s, ev, s'); }
    else if ev.Install? { InstallEvent(s, ev.d', ev.needs, s'); InstallContents(s, ev.d', ev.needs, s'); }
    else { StillUp(s, ev, s'); BackgroundLayers(s, ev, s'); }
  }

  // ---------- Snapshot isolation ----------

  // Get of k at snap, in a running database, returns v.
  ghost predicate Answers(s: State, k: UserKey, snap: Sequence, v: Value) {
    s.phase.Up? && Get(s.disk, s.phase.m, k, snap, v)
  }

  ghost predicate Live(s: State, snap: Sequence) {
    s.phase.Up? && snap in s.phase.m.snapshots
  }

  lemma LiveInRange(s: State, snap: Sequence)
    requires Inv(s) && Live(s, snap)
    ensures s.phase.m.current.floor <= snap <= s.phase.m.lastSequence
  {
    var i :| 0 <= i < |s.phase.m.snapshots| && s.phase.m.snapshots[i] == snap;
  }

  lemma BatchLater(s: State)
    requires Inv(s) && s.phase.Up?
    ensures s.phase.m.leader.Writing? ==> forall e :: e in s.phase.m.leader.batch ==> e.sn > s.phase.m.lastSequence
  {
  }

  lemma StepReadsAlike(s: State, ev: Event, s': State, snap: Sequence, k: UserKey, v: Value)
    requires s.phase.Up? && s'.phase.Up? && Inv(s) && Step(s, ev, s') && snap <= s.phase.m.lastSequence
    ensures Reads(Held(s.phase.m), k, snap, v) <==> Reads(Held(s'.phase.m), k, snap, v)
  {
    BatchLater(s);
    hide Inv, Step, Reads, Held;
    StepContents(s, ev, s');
    if ev.Insert? { LaterEntriesInvisible(Held(s.phase.m), s.phase.m.leader.batch, k, snap, v); }
  }

  lemma LiveGet(s: State, snap: Sequence, k: UserKey, v: Value)
    requires Inv(s) && Live(s, snap)
    ensures Answers(s, k, snap, v) <==> Reads(Held(s.phase.m), k, snap, v)
  {
    LiveInRange(s, snap);
    GetReadsContents(s.disk, s.phase.m, s.issued, k, snap, v);
  }

  lemma RunStep(states: seq<State>, events: seq<Event>, i: nat)
    requires Run(states, events) && i + 1 < |states|
    ensures i < |events| && Step(states[i], events[i], states[i + 1])
  {
  }

  lemma LiveStep(s: State, ev: Event, s': State, snap: Sequence, k: UserKey, v: Value)
    requires Inv(s) && Inv(s') && Step(s, ev, s') && Live(s, snap) && Live(s', snap)
    ensures Answers(s, k, snap, v) <==> Answers(s', k, snap, v)
  {
    hide Inv, Step, Answers;
    LiveGet(s, snap, k, v);
    LiveGet(s', snap, k, v);
    LiveInRange(s, snap);
    StepReadsAlike(s, ev, s', snap, k, v);
  }

  // While a snapshot is held, every read at it keeps its answer, through any interleaving of
  // writes, failed writes, memtable switches, flushes, merges, collections and errors.
  lemma {:induction false} SnapshotIsolation(states: seq<State>, events: seq<Event>, i: nat, j: nat, snap: Sequence,
                                             k: UserKey, v: Value)
    requires Run(states, events) && i <= j < |states|
    requires forall l :: i <= l <= j ==> Live(states[l], snap)
    ensures Answers(states[i], k, snap, v) <==> Answers(states[j], k, snap, v)
    decreases j - i
  {
    hide Inv, Run, Step, Answers, Live;
    if i < j {
      SnapshotIsolation(states, events, i + 1, j, snap, k, v);
      Reachable(states, events, i);
      Reachable(states, events, i + 1);
      RunStep(states, events, i);
      LiveStep(states[i], events[i], states[i + 1], snap, k, v);
    }
  }

  ghost predicate Reading(s: State, id: nat, r: Reader) {
    s.phase.Up? && id in s.phase.m.readers && s.phase.m.readers[id] == r
  }

  // A search through the references of read r, made now, returns v.
  ghost predicate Finds(s: State, r: Reader, k: UserKey, v: Value) {
    s.phase.Up? && ReaderGets(s.disk, s.phase.m, r, k, v)
  }

  ghost function ReaderContents(m: Memory, r: Reader): set<Entry> {
    ReaderMem(m, r) + ReaderImm(m, r) + r.version.absorbed
  }

  lemma ReaderReadsContents(s: State, id: nat, r: Reader, k: UserKey, v: Value)
    requires Inv(s) && Reading(s, id, r)
    ensures Finds(s, r, k, v) <==> Reads(ReaderContents(s.phase.m, r), k, r.snapshot, v)
  {
    var d, m := s.disk, s.phase.m;
    assert ReaderOk(d, m, r, s.issued);
    LayersRead(ReaderMem(m, r), ReaderImm(m, r), Entries(d.tables, r.version.files), r.version.absorbed,
               r.version.floor, s.issued, k, r.snapshot, v);
  }

  lemma WriterHeap(s: State, ev: Event, s': State, n: nat)
    requires s.phase.Up? && s'.phase.Up? && WriterEvent(ev) && Step(s, ev, s') && n in s.phase.m.heap
    requires n < s.phase.m.nextFile
    ensures var m, m' := s.phase.m, s'.phase.m;
      n in m'.heap && m'.heap[n] == m.heap[n] + (if ev.Insert? && n == m.logNumber then m.leader.batch else {})
  {
    if ev.EndWrite? { EndWriteLayers(s, s'); }
  }

  lemma HeapBelow(s: State, n: nat)
    requires Inv(s) && s.phase.Up? && n in s.phase.m.heap
    ensures n < s.phase.m.nextFile
  {
  }

  // Memtables only grow, by entries above every sequence a reader may hold.
  lemma StepHeap(s: State, ev: Event, s': State, n: nat)
    requires s.phase.Up? && s'.phase.Up? && Inv(s) && Step(s, ev, s') && n in s.phase.m.heap
    ensures var m, m' := s.phase.m, s'.phase.m;
      n in m'.heap && m'.heap[n] == m.heap[n] + (if ev.Insert? && n == m.logNumber then m.leader.batch else {})
  {
    hide Inv, Step;
    if WriterEvent(ev) {
      HeapBelow(s, n);
      WriterHeap(s, ev, s', n);
    } else if ClientEvent(ev) {
      ClientContents(s, ev, s');
    } else if ev.Install? {
      InstallEvent(s, ev.d', ev.needs, s');
      InstallLayers(s, ev.d', ev.needs, s');
    } else {
      StillUp(s, ev, s');
      BackgroundLayers(s, ev, s');
    }
  }

  lemma ReaderFacts(s: State, id: nat, r: Reader)
    requires Inv(s) && Reading(s, id, r)
    ensures var m := s.phase.m;
      && r.mem in m.heap && r.mem <= m.logNumber && (r.imm.Some? ==> r.imm.value in m.heap && r.imm.value < r.mem)
      && forall e :: e in InFlight(m) ==> r.snapshot < e.sn
  {
    assert ReaderOk(s.disk, s.phase.m, r, s.issued);
  }

  lemma StepReader(s: State, ev: Event, s': State, id: nat, r: Reader, k: UserKey, v: Value)
    requires Inv(s) && Step(s, ev, s') && Inv(s') && Reading(s, id, r) && Reading(s', id, r)
    ensures Finds(s, r, k, v) <==> Finds(s', r, k, v)
  {
    hide Inv, Step, Finds;
    var m, m' := s.phase.m, s'.phase.m;
    ReaderReadsContents(s, id, r, k, v);
    ReaderReadsContents(s', id, r, k, v);
    ReaderFacts(s, id, r);
    StepHeap(s, ev, s', r.mem);
    if r.imm.Some? { StepHeap(s, ev, s', r.imm.value); }
    assert ReaderImm(m', r) == ReaderImm(m, r);
    StepContents(s, ev, s');
    if ev.Insert? && r.mem == m.logNumber {
      LaterEntriesInvisible(ReaderContents(m, r), m.leader.batch, k, r.snapshot, v);
      assert ReaderContents(m', r) == ReaderContents(m, r) + m.leader.batch;
    } else {
      assert ReaderContents(m', r) == ReaderContents(m, r);
    }
  }

  lemma ReaderBegins(s: State, id: nat, snap: Sequence, s': State, r: Reader, k: UserKey, v: Value)
    requires Step(s, BeginRead(id, snap), s') && Reading(s', id, r)
    ensures Finds(s', r, k, v) <==> Answers(s, k, snap, v)
  {
    var m, m' := s.phase.m, s'.phase.m;
    assert SameLayers(m, m') && r == Reader(snap, m.logNumber, m.imm, m.current);
  }

  // A read holds no lock while it searches.  Whenever it looks, it finds what Get answered at
  // the moment the read took its references.
  lemma {:induction false} ReaderSeesItsSnapshot(states: seq<State>, events: seq<Event>, i: nat, j: nat, id: nat,
                                                 snap: Sequence, r: Reader, k: UserKey, v: Value)
    requires Run(states, events) && i < j < |states| && events[i] == BeginRead(id, snap)
    requires forall l :: i < l <= j ==> Reading(states[l], id, r)
    ensures Finds(states[j], r, k, v) <==> Answers(states[i], k, snap, v)
    decreases j - i
  {
    hide Inv, Run, Step, Answers, Finds;
    Reachable(states, events, j);
    Reachable(states, events, j - 1);
    RunStep(states, events, j - 1);
    if i + 1 < j {
      ReaderSeesItsSnapshot(states, events, i, j - 1, id, snap, r, k, v);
      StepReader(states[j - 1], events[j - 1], states[j], id, r, k, v);
    } else {
      ReaderBegins(states[i], id, snap, states[j], r, k, v);
    }
  }

  function RunningCompaction(j: Job): Option<Compaction> {
    match j
    case Compacting(c) => Some(c)
    case Flushing(_, outer) => outer
    case Logging(_, p) => if p.Compact? then Some(p.c) else if p.Flush? then p.outer else None
    case Logged(_, p, _) => if p.Compact? then Some(p.c) else if p.Flush? then p.outer else None
    case Idle => None
    case Scheduled => None
  }

  // No live or new snapshot falls below what the running compaction may drop, and the write in
  // progress is invisible to all of them.
  lemma CompactionRespectsSnapshots(states: seq<State>, events: seq<Event>, i: nat)
    requires Run(states, events) && i < |states| && states[i].phase.Up?
    ensures var m := states[i].phase.m;
      forall snap :: snap in m.snapshots || snap == m.lastSequence ==>
        && (RunningCompaction(m.job).Some? ==> RunningCompaction(m.job).value.smallest <= snap)
        && forall e :: e in InFlight(m) ==> snap < e.sn
  {
    Reachable(states, events, i);
    var m := states[i].phase.m;
    if RunningCompaction(m.job).Some? { RunningCompactionOk(states[i].disk, m); }
    forall snap | snap in m.snapshots
      ensures snap <= m.lastSequence
      ensures RunningCompaction(m.job).Some? ==> RunningCompaction(m.job).value.smallest <= snap
    {
      LiveInRange(states[i], snap);
      var j :| 0 <= j < |m.snapshots| && m.snapshots[j] == snap;
    }
  }

  lemma RunningCompactionOk(d: Disk, m: Memory)
    requires JobOk(d, m) && RunningCompaction(m.job).Some?
    ensures CompactionOk(d, m, RunningCompaction(m.job).value)
  {
  }
}
