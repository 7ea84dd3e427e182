// Durability of acknowledged writes, safety of files, and progress of background work,
// for every run of the engine.
module EngineSafety {
  import opened InternalKeys
  import opened Views
  import opened CompactionModel
  import opened Engine
  import opened EngineInvariant
  import opened EngineWrites
  import opened EngineLogSteps
  import opened EngineTables
  import opened EngineInstall
  import opened EngineRecovery
  import opened EngineTheorems

  // ---------- Durability ----------

  lemma StepAcked(s: State, ev: Event, s': State)
    requires Step(s, ev, s')
    ensures s.acked <= s'.acked
  {
  }

  lemma {:induction false} AckedForever(states: seq<State>, events: seq<Event>, i: nat, j: nat)
    requires Run(states, events) && i <= j < |states|
    ensures states[i].acked <= states[j].acked
    decreases j - i
  {
    hide Run;
    if i < j {
      AckedForever(states, events, i, j - 1);
      RunStep(states, events, j - 1);
      StepAcked(states[j - 1], events[j - 1], states[j]);
    }
  }

  lemma AckedContained(s: State, e: Entry)
    requires Inv(s) && s.phase.Up? && e in s.acked
    ensures e in Held(s.phase.m) && e.sn <= s.phase.m.lastSequence
  {
    assert AckedOk(s.disk, s.phase.m, s.acked);
  }

  // A write acknowledged with sync is there whenever the database is up again, after any number
  // of crashes, recoveries, failed recoveries, flushes, merges and collections: reading its key
  // gives that write or a newer one.
  lemma AcknowledgedWritesSurvive(states: seq<State>, events: seq<Event>, i: nat, j: nat, e: Entry)
    requires Run(states, events) && i <= j < |states| && e in states[i].acked && states[j].phase.Up?
    ensures var m := states[j].phase.m;
      exists f :: NewestIn(Held(m), e.key, m.lastSequence, f) && e.sn <= f.sn
        && forall v :: Answers(states[j], e.key, m.lastSequence, v) <==> f.kind.Put? && f.value == v
  {
    hide Run, Inv, Answers;
    var s := states[j];
    var m := s.phase.m;
    AckedForever(states, events, i, j);
    Reachable(states, events, j);
    AckedContained(s, e);
    assert Visible(e, e.key, m.lastSequence);
    NewestExists(Held(m), e.key, m.lastSequence);
    var f :| NewestIn(Held(m), e.key, m.lastSequence, f);
    forall v ensures Answers(s, e.key, m.lastSequence, v) <==> f.kind.Put? && f.value == v {
      ReadsAtLast(s, e.key, v);
      ContentsUnique(s);
    }
  }

  lemma ReadsAtLast(s: State, k: UserKey, v: Value)
    requires Inv(s) && s.phase.Up?
    ensures Answers(s, k, s.phase.m.lastSequence, v) <==> Reads(Held(s.phase.m), k, s.phase.m.lastSequence, v)
  {
    GetReadsContents(s.disk, s.phase.m, s.issued, k, s.phase.m.lastSequence, v);
  }

  // The database never holds an entry no write created, nor two for one sequence number.
  lemma ContentsUnique(s: State)
    requires Inv(s) && s.phase.Up?
    ensures Held(s.phase.m) <= s.issued && OneEntryPerSequence(Held(s.phase.m))
  {
    ContentsIssued(s.disk, s.phase.m, s.issued);
  }

  lemma ContentsIssued(d: Disk, m: Memory, issued: set<Entry>)
    requires MemOk(d, m, issued) && VersionOk(d.tables, m.current, issued)
    ensures Held(m) <= issued
  {
  }

  // Every new write gets sequence numbers above every entry the database has ever issued and
  // still may hold: also after failed log writes, and after recovery.
  lemma SequencesNeverReused(states: seq<State>, events: seq<Event>, i: nat, batch: set<Entry>, count: nat, sync: bool)
    requires Run(states, events) && i < |events| && events[i] == BeginWrite(batch, count, sync)
    ensures forall e, f :: e in batch && f in states[i].issued ==> f.sn < e.sn
    ensures states[i].phase.Up? && Held(states[i].phase.m) <= states[i].issued
  {
    Reachable(states, events, i);
    RunStep(states, events, i);
    ContentsUnique(states[i]);
    NewSequences(states[i], batch, count, sync, states[i + 1]);
  }

  lemma NewSequences(s: State, batch: set<Entry>, count: nat, sync: bool, s': State)
    requires Inv(s) && s.phase.Up? && BeginWriteStep(s, batch, count, sync, s')
    ensures forall e, f :: e in batch && f in s.issued ==> f.sn < e.sn
  {
    assert InFlight(s.phase.m) == {};
    forall f | f in s.issued ensures f.sn <= s.phase.m.lastSequence { assert f in s.issued - InFlight(s.phase.m); }
  }

  // After recovery LastSequence is at least every recovered entry's sequence.
  lemma RecoveredLastSequence(states: seq<State>, events: seq<Event>, i: nat, d: Disk, needs: bool)
    requires Run(states, events) && i < |events| && events[i] == OpenDone(d, needs)
    ensures states[i + 1].phase.Up?
    ensures Bounded(Held(states[i + 1].phase.m), states[i + 1].phase.m.lastSequence)
    ensures Held(states[i + 1].phase.m) == states[i + 1].issued
  {
    Reachable(states, events, i);
    Reachable(states, events, i + 1);
    RunStep(states, events, i);
    RecoveredContents(states[i], d, needs, states[i + 1]);
  }

  lemma RecoveredContents(s: State, d: Disk, needs: bool, s': State)
    requires Inv(s) && Inv(s') && s.phase.Opening? && OpenDoneStep(s, d, needs, s')
    ensures Bounded(Held(s'.phase.m), s'.phase.m.lastSequence)
    ensures Held(s'.phase.m) == s'.issued
  {
    var p, m := s.phase.plan, s'.phase.m;
    assert SameLayers(m, Opened(s.disk, p, needs));
    OpenedLogs(s.disk, p);
    ContentsUnique(s');
    assert InFlight(m) == {};
    forall f | f in s'.issued ensures f.sn <= m.lastSequence { assert f in s'.issued - InFlight(m); }
  }

  // ---------- No needed file is ever deleted ----------

  function OuterOutputs(outer: Option<Compaction>): set<nat> {
    if outer.Some? then outer.value.outputs else {}
  }

  // Files the background job is making or about to install.
  function JobFiles(j: Job): set<nat> {
    match j
    case Idle => {}
    case Scheduled => {}
    case Flushing(num, outer) => {num} + OuterOutputs(outer)
    case Compacting(c) => c.outputs
    case Logging(ed, p) => ed.add + (if p.Flush? then OuterOutputs(p.outer) else {})
    case Logged(ed, p, _) => ed.add + (if p.Flush? then OuterOutputs(p.outer) else {})
  }

  ghost function Needed(s: State): set<nat>
    requires s.phase.Up?
  {
    s.disk.manifest.files + s.phase.m.current.files + ReaderFiles(s.phase.m) + JobFiles(s.phase.m.job)
  }

  // The table file an event writes.
  ghost predicate Writes(s: State, ev: Event, n: nat) {
    || (ev.WriteOutput? && ev.num == n)
    || (ev.BuildTable? && s.phase.Up? && s.phase.m.job.Flushing? && s.phase.m.job.num == n)
  }

  // A table needed before and after a step is still there, with the same contents unless the
  // step is the one that writes it.
  lemma NeededTablesSurvive(s: State, ev: Event, s': State, n: nat)
    requires Inv(s) && Step(s, ev, s') && Inv(s') && s.phase.Up? && s'.phase.Up?
    requires n in Needed(s) && n in Needed(s') && n in s.disk.tables && !Writes(s, ev, n)
    ensures n in s'.disk.tables && s'.disk.tables[n] == s.disk.tables[n]
  {
    hide Inv, Step;
    if ev.Install? {
      InstallEvent(s, ev.d', ev.needs, s');
      InstallTables(s, ev.d', ev.needs, s', n);
    } else {
      TablesStand(s, ev, s', n);
    }
  }

  lemma TablesStand(s: State, ev: Event, s': State, n: nat)
    requires Step(s, ev, s') && s.phase.Up? && s'.phase.Up? && !ev.Install?
    requires n in s.disk.tables && !Writes(s, ev, n)
    ensures n in s'.disk.tables && s'.disk.tables[n] == s.disk.tables[n]
  {
    match ev {
      case BuildTable(ok) => BuildTableTables(s, ok, s', n);
      case _ =>
    }
  }

  lemma BuildTableTables(s: State, ok: bool, s': State, n: nat)
    requires s.phase.Up? && BuildTableStep(s, ok, s') && n in s.disk.tables && n != s.phase.m.job.num
    ensures n in s'.disk.tables && s'.disk.tables[n] == s.disk.tables[n]
  {
    hide AfterFlush, RecordBackgroundError;
  }

  lemma InstallTables(s: State, d': Disk, needs: bool, s': State, n: nat)
    requires s.phase.Up? && InstallStep(s, d', needs, s') && Inv(s') && s'.phase.Up?
    requires n in Needed(s') && n in s.disk.tables
    ensures n in s'.disk.tables && s'.disk.tables[n] == s.disk.tables[n]
  {
    hide InstallStep, AfterFlush, EndCompaction, FinishJob, RecordBackgroundError;
    InstallShape(s, d', needs, s');
    if d' != s.disk {
      InstalledJob(s, d', needs, s');
      assert Collected(s.disk, d', s'.phase.m);
      Protected(s', n);
    }
  }

  lemma InstalledJob(s: State, d': Disk, needs: bool, s': State)
    requires s.phase.Up? && InstallStep(s, d', needs, s') && s'.phase.Up?
    ensures var j := s'.phase.m.job; j.Idle? || j.Scheduled? || j.Compacting?
  {
    hide InstallStep, AfterFlush, EndCompaction, RecordBackgroundError, Collected;
    InstallShape(s, d', needs, s');
    var m := s.phase.m;
    var m2 := m.(current := Apply(m.current, m.job.edit), needs := needs);
    match m.job.purpose {
      case Flush(outer) =>
        BetweenJobs(if m.job.ok then m2.(imm := None, hasImm := false) else RecordBackgroundError(m), outer);
      case Compact(c) => BetweenJobsMerge(if m.job.ok then m2 else RecordBackgroundError(m), c);
      case Move =>
    }
  }

  lemma Protected(s: State, n: nat)
    requires Inv(s) && s.phase.Up? && !s.phase.m.bgError && n in Needed(s)
    requires s.phase.m.job.Idle? || s.phase.m.job.Scheduled? || s.phase.m.job.Compacting?
    ensures n in s.phase.m.pending + s.phase.m.current.files + ReaderFiles(s.phase.m)
  {
    assert JobOk(s.disk, s.phase.m) && ManifestOk(s.disk, s.phase.m);
  }

  // Opening collects garbage too, and keeps every table of the recovered version.
  lemma OpeningKeepsTables(s: State, d': Disk, needs: bool, s': State, n: nat)
    requires Inv(s) && s.phase.Opening? && OpenDoneStep(s, d', needs, s') && n in s.disk.manifest.files
    ensures s'.phase.Up? && s'.phase.m.current == s.disk.manifest
    ensures n in s'.disk.tables && s'.disk.tables[n] == s.disk.tables[n]
  {
    assert VersionOk(s.disk.tables, s.disk.manifest, s.issued);
    assert SameLayers(s'.phase.m, Opened(s.disk, s.phase.plan, needs));
  }

  // Every table of the installed version, of the manifest and of a read in progress exists; so
  // does every table about to be installed.
  lemma NeededTablesExist(states: seq<State>, events: seq<Event>, i: nat)
    requires Run(states, events) && i < |states| && states[i].phase.Up?
    ensures var d, m := states[i].disk, states[i].phase.m;
      && m.current.files + d.manifest.files + ReaderFiles(m) <= d.tables.Keys
      && (m.job.Logging? || m.job.Logged? ==> m.job.edit.add <= d.tables.Keys)
  {
    Reachable(states, events, i);
    var d, m := states[i].disk, states[i].phase.m;
    forall n | n in ReaderFiles(m) ensures n in d.tables {
      var id :| id in m.readers && n in m.readers[id].version.files;
      assert ReaderOk(d, m, m.readers[id], states[i].issued);
    }
  }

  // A log a version still depends on is never deleted or cut, and every entry that is only in
  // memory is in such a log.
  lemma NeededLogsSurvive(s: State, ev: Event, s': State)
    requires Inv(s) && Step(s, ev, s') && Inv(s') && s.phase.Up? && s'.phase.Up?
    ensures forall n :: n in s.disk.logs && n >= s'.phase.m.current.logNumber ==>
              && n in s'.disk.logs && s.disk.logs[n].records <= s'.disk.logs[n].records
              && s.disk.logs[n].synced <= s'.disk.logs[n].synced
    ensures forall e :: e in MemOf(s'.phase.m) + ImmOf(s'.phase.m) ==>
              exists n :: n in s'.disk.logs && n >= s'.phase.m.current.logNumber && e in AllOf(s'.disk.logs[n])
  {
    hide Inv, Step;
    MemoryIsLogged(s');
    if ev.Install? {
      InstallEvent(s, ev.d', ev.needs, s');
      InstallLogs(s, ev.d', ev.needs, s');
    } else {
      LogsStand(s, ev, s');
      assert LogsGrow(s.disk.logs, s'.disk.logs);
    }
  }

  lemma MemoryIsLogged(s: State)
    requires Inv(s) && s.phase.Up?
    ensures forall e :: e in MemOf(s.phase.m) + ImmOf(s.phase.m) ==>
              exists n :: n in s.disk.logs && n >= s.phase.m.current.logNumber && e in AllOf(s.disk.logs[n])
  {
    var d, m := s.disk, s.phase.m;
    assert NumbersOk(d, m) && MemOk(d, m, s.issued);
    forall e | e in MemOf(m) + ImmOf(m)
      ensures exists n :: n in d.logs && n >= m.current.logNumber && e in AllOf(d.logs[n])
    {
      if e in MemOf(m) { assert e in AllOf(d.logs[m.logNumber]); } else { assert e in AllOf(d.logs[m.imm.value]); }
    }
  }

  lemma InstallLogs(s: State, d': Disk, needs: bool, s': State)
    requires s.phase.Up? && InstallStep(s, d', needs, s') && s'.phase.Up?
    ensures forall n :: n in s.disk.logs && n >= s'.phase.m.current.logNumber ==>
              n in s'.disk.logs && s'.disk.logs[n] == s.disk.logs[n]
  {
    hide InstallStep, AfterFlush, EndCompaction, FinishJob, RecordBackgroundError;
    InstallShape(s, d', needs, s');
  }

  // What may happen to the logs in one step.
  ghost predicate LogsGrow(logs: map<nat, Log>, logs': map<nat, Log>) {
    forall n :: n in logs ==>
      && n in logs' && logs[n].records <= logs'[n].records && logs[n].synced <= logs'[n].synced
  }

  lemma LogsStand(s: State, ev: Event, s': State)
    requires Inv(s) && Step(s, ev, s') && s.phase.Up? && s'.phase.Up? && !ev.Install?
    ensures LogsGrow(s.disk.logs, s'.disk.logs)
  {
    hide Inv, Step, BackgroundEvent, WriterEvent, ClientEvent, LogsGrow;
    if BackgroundEvent(ev) {
      BackgroundLogs(s, ev, s');
      LogsSame(s.disk.logs);
    } else if ClientEvent(ev) {
      ClientLogs(s, ev, s');
      LogsSame(s.disk.logs);
    } else {
      StillUp(s, ev, s');
      LogNumbersFresh(s);
      OnlyWriters(ev);
      WriterLogs(s, ev, s');
    }
  }

  lemma LogsSame(logs: map<nat, Log>)
    ensures LogsGrow(logs, logs)
  {
  }

  lemma OnlyWriters(ev: Event)
    requires !BackgroundEvent(ev) && !ClientEvent(ev) && !LifeEvent(ev)
    ensures WriterEvent(ev)
  {
  }

  lemma ClientLogs(s: State, ev: Event, s': State)
    requires s.phase.Up? && ClientEvent(ev) && Step(s, ev, s')
    ensures s'.disk.logs == s.disk.logs
  {
  }

  lemma WriterLogs(s: State, ev: Event, s': State)
    requires s.phase.Up? && WriterEvent(ev) && Step(s, ev, s') && s.phase.m.nextFile !in s.disk.logs
    requires forall n :: n in s.disk.logs ==> s.disk.logs[n].synced <= |s.disk.logs[n].records|
    ensures LogsGrow(s.disk.logs, s'.disk.logs)
  {
  }

  lemma LogNumbersFresh(s: State)
    requires Inv(s) && s.phase.Up?
    ensures s.phase.m.nextFile !in s.disk.logs
    ensures forall n :: n in s.disk.logs ==> s.disk.logs[n].synced <= |s.disk.logs[n].records|
  {
  }

  lemma BackgroundLogs(s: State, ev: Event, s': State)
    requires s.phase.Up? && BackgroundEvent(ev) && !ev.Install? && Step(s, ev, s')
    ensures s'.disk.logs == s.disk.logs
  {
    hide AfterFlush, EndCompaction, FinishJob, RecordBackgroundError;
  }

  // ---------- Nobody waits for work that is not coming ----------

  // has_imm_ mirrors imm_, pending work always has a job, and a sleeping writer is never left
  // behind by the last job or by an error.
  lemma NoOneForgotten(states: seq<State>, events: seq<Event>, i: nat)
    requires Run(states, events) && i < |states| && states[i].phase.Up?
    ensures var m := states[i].phase.m;
      && (m.hasImm <==> m.imm.Some?)
      && (!m.bgError && !m.shutdown && (m.imm.Some? || m.manual || m.needs) ==> !m.job.Idle?)
      && (m.leader.Asleep? ==> !m.job.Idle? && !m.bgError)
  {
    Reachable(states, events, i);
  }

  // The immutable memtable goes away only by being installed in the tables.
  lemma ImmNeverOverwritten(s: State, ev: Event, s': State)
    requires Inv(s) && Step(s, ev, s') && s.phase.Up? && s'.phase.Up? && s.phase.m.imm.Some?
    ensures || (s'.phase.m.imm == s.phase.m.imm && ImmOf(s'.phase.m) == ImmOf(s.phase.m))
            || (s'.phase.m.imm.None? && ImmOf(s.phase.m) <= s'.phase.m.current.absorbed)
  {
    hide Inv, Step;
    var m, m' := s.phase.m, s'.phase.m;
    ImmHeap(s);
    StepHeap(s, ev, s', m.imm.value);
    if ev.Install? {
      InstallEvent(s, ev.d', ev.needs, s');
      InstallLayers(s, ev.d', ev.needs, s');
      LoggedEdit(s.disk, m);
    } else {
      ImmStands(s, ev, s');
    }
  }

  lemma ImmHeap(s: State)
    requires Inv(s) && s.phase.Up? && s.phase.m.imm.Some?
    ensures s.phase.m.imm.value in s.phase.m.heap && s.phase.m.imm.value < s.phase.m.logNumber
  {
  }

  lemma ImmStands(s: State, ev: Event, s': State)
    requires Step(s, ev, s') && s.phase.Up? && s'.phase.Up? && s.phase.m.imm.Some? && !ev.Install?
    ensures s'.phase.m.imm == s.phase.m.imm && s'.phase.m.logNumber == s.phase.m.logNumber
  {
    if WriterEvent(ev) {
      if ev.EndWrite? { EndWriteLayers(s, s'); }
    } else if ClientEvent(ev) {
      ClientContents(s, ev, s');
    } else {
      BackgroundLayers(s, ev, s');
    }
  }

  ghost predicate FlushUnderway(j: Job) {
    j.Flushing? || (j.Logging? && j.purpose.Flush?) || (j.Logged? && j.purpose.Flush?)
  }

  // logfile_number_ stands still from the moment CompactMemTable gives up the lock until its
  // edit is installed, and that edit names exactly this log.
  lemma LogNumberFixedDuringFlush(s: State, ev: Event, s': State)
    requires Inv(s) && Step(s, ev, s') && s.phase.Up? && s'.phase.Up? && FlushUnderway(s.phase.m.job)
    ensures s'.phase.m.logNumber == s.phase.m.logNumber
    ensures !s.phase.m.job.Flushing? ==> s.phase.m.job.edit.logNumber == s.phase.m.logNumber
  {
    FlushNamesLog(s);
    hide Inv, Step;
    if ev.Install? {
      InstallEvent(s, ev.d', ev.needs, s');
      InstallLayers(s, ev.d', ev.needs, s');
    } else {
      ImmStands(s, ev, s');
    }
  }

  lemma FlushNamesLog(s: State)
    requires Inv(s) && s.phase.Up? && FlushUnderway(s.phase.m.job)
    ensures s.phase.m.imm.Some?
    ensures !s.phase.m.job.Flushing? ==> s.phase.m.job.edit.logNumber == s.phase.m.logNumber
  {
    assert JobOk(s.disk, s.phase.m);
  }

  // ---------- A full memtable can always be flushed ----------

  ghost predicate FlushPending(m: Memory) {
    m.imm.Some? && !m.bgError && !m.shutdown && (m.job.Logged? ==> m.job.ok)
  }

  function FlushRank(j: Job): nat {
    match j
    case Logging(_, p) => if p.Flush? then 2 else 6
    case Logged(_, p, _) => if p.Flush? then 1 else 5
    case Compacting(_) => 4
    case Scheduled => 4
    case Flushing(_, _) => 3
    case Idle => 7
  }

  // The flush is done, or fewer steps away.
  ghost predicate Closer(s: State, s': State) {
    && s.phase.Up? && s'.phase.Up?
    && (s'.phase.m.imm.None? || (FlushPending(s'.phase.m) && FlushRank(s'.phase.m.job) < FlushRank(s.phase.m.job)))
  }

  // Whatever the background thread is doing, some step of it brings the flush of the immutable
  // memtable closer; a table compaction in progress makes way for it.
  lemma FlushAdvances(s: State) returns (ev: Event, s': State)
    requires Inv(s) && s.phase.Up? && FlushPending(s.phase.m)
    ensures BackgroundEvent(ev) && SafePick(s, ev) && Step(s, ev, s') && Closer(s, s')
  {
    FlushHasJob(s);
    hide Inv, Step, FlushPending, BackgroundEvent, Closer;
    var j := s.phase.m.job;
    if j.Scheduled? || j.Compacting? { ev, s' := FlushBegins(s); }
    else if j.Flushing? { ev, s' := FlushBuilds(s); }
    else if j.Logging? { ev, s' := FlushLogs(s); }
    else { ev, s' := FlushInstalls(s); }
  }

  ghost predicate Path(states: seq<State>, events: seq<Event>) {
    && |states| == |events| + 1
    && forall i :: 0 <= i < |events| ==> BackgroundEvent(events[i]) && Step(states[i], events[i], states[i + 1])
  }

  // So background steps alone, at most six of them, get a waiting memtable into the tables, and
  // nothing the database holds is lost on the way.
  lemma {:induction false} FlushCompletes(s: State) returns (states: seq<State>, events: seq<Event>)
    requires Inv(s) && s.phase.Up? && FlushPending(s.phase.m)
    ensures Path(states, events) && states[0] == s && |events| <= FlushRank(s.phase.m.job) <= 6
    ensures var last := states[|states| - 1];
      last.phase.Up? && last.phase.m.imm.None? && Held(last.phase.m) == Held(s.phase.m)
    decreases FlushRank(s.phase.m.job)
  {
    hide Inv, Step, FlushPending, BackgroundEvent, FlushRank;
    FlushHasJob(s);
    RankBounded(s.phase.m.job);
    var ev, s' := FlushAdvances(s);
    StepKeeps(s, ev, s');
    StepContents(s, ev, s');
    NotInsert(ev);
    if s'.phase.m.imm.None? {
      states, events := [s, s'], [ev];
    } else {
      var rest, evs := FlushCompletes(s');
      states, events := [s] + rest, [ev] + evs;
    }
  }

  lemma NotInsert(ev: Event)
    requires BackgroundEvent(ev)
    ensures !ev.Insert?
  {
  }

  lemma RankBounded(j: Job)
    ensures !j.Idle? ==> 1 <= FlushRank(j) <= 6
  {
  }

  lemma FlushBegins(s: State) returns (ev: Event, s': State)
    requires s.phase.Up? && FlushPending(s.phase.m) && s.phase.m.hasImm
    requires s.phase.m.job.Scheduled? || s.phase.m.job.Compacting?
    ensures BackgroundEvent(ev) && SafePick(s, ev) && Step(s, ev, s') && Closer(s, s')
  {
    var m := s.phase.m;
    if m.job.Scheduled? {
      ev := Background(PickNothing);
      s' := s.(phase := Up(BeginFlush(m, None)));
      assert BackgroundStep(s, PickNothing, s');
    } else {
      ev := FlushInside;
      s' := s.(phase := Up(BeginFlush(m, Some(m.job.c))));
    }
  }

  lemma FlushLogs(s: State) returns (ev: Event, s': State)
    requires s.phase.Up? && FlushPending(s.phase.m) && s.phase.m.job.Logging?
    ensures BackgroundEvent(ev) && SafePick(s, ev) && Step(s, ev, s') && Closer(s, s')
  {
    var d, m, ed := s.disk, s.phase.m, s.phase.m.job.edit;
    ev := WriteManifest(true, true);
    s' := s.(disk := d.(manifest := Apply(d.manifest, ed)), phase := Up(m.(job := Logged(ed, m.job.purpose, true))));
  }

  lemma FlushBuilds(s: State) returns (ev: Event, s': State)
    requires s.phase.Up? && FlushPending(s.phase.m) && s.phase.m.job.Flushing?
    ensures BackgroundEvent(ev) && SafePick(s, ev) && Step(s, ev, s') && Closer(s, s')
  {
    hide AfterFlush, RecordBackgroundError;
    var d, m, num := s.disk, s.phase.m, s.phase.m.job.num;
    var es := ImmOf(m);
    var m' := m.(pending := m.pending - {num}, job := Logging(
      Edit({}, if es != {} then {num} else {}, m.logNumber, m.lastSequence, m.nextFile, es, 0), Flush(m.job.outer)));
    ev := BuildTable(true);
    s' := s.(disk := d.(tables := if es != {} then d.tables[num := es] else d.tables - {num}), phase := Up(m'));
    assert BuildTableStep(s, true, s');
  }

  lemma FlushHasJob(s: State)
    requires Inv(s) && s.phase.Up? && FlushPending(s.phase.m)
    ensures !s.phase.m.job.Idle? && s.phase.m.hasImm
  {
  }

  lemma FlushInstalls(s: State) returns (ev: Event, s': State)
    requires s.phase.Up? && FlushPending(s.phase.m) && s.phase.m.job.Logged?
    ensures BackgroundEvent(ev) && SafePick(s, ev) && Step(s, ev, s') && Closer(s, s')
  {
    hide AfterFlush, FinishJob, InstallStep, Step;
    var m := s.phase.m;
    var m1 := m.(current := Apply(m.current, m.job.edit), needs := m.needs);
    ev := Install(s.disk, m.needs);
    var m' := match m.job.purpose
              case Flush(outer) => AfterFlush(m1.(imm := None, hasImm := false), outer)
              case Compact(c) => EndCompaction(m1, c)
              case Move => FinishJob(m1);
    s' := s.(phase := Up(m'));
    InstallNothing(s, s');
    match m.job.purpose {
      case Flush(outer) => AfterFlushLayers(m1.(imm := None, hasImm := false), outer);
      case Compact(c) => EndsScheduled(m1.(pending := m1.pending - c.outputs, manual := m1.manual && !c.manual));
      case Move => EndsScheduled(m1);
    }
  }

  lemma EndsScheduled(m: Memory)
    requires m.imm.Some? && !m.bgError && !m.shutdown
    ensures var m' := FinishJob(m); m'.job.Scheduled? && m'.imm == m.imm && !m'.bgError && !m'.shutdown
  {
  }

  lemma InstallNothing(s: State, s': State)
    requires s.phase.Up? && s.phase.m.job.Logged? && s.phase.m.job.ok
    requires s'.phase.Up? && s' == s.(phase := Up(s'.phase.m))
    requires var m := s.phase.m;
      var m1 := m.(current := Apply(m.current, m.job.edit), needs := m.needs);
      s'.phase.m == match m.job.purpose
                    case Flush(outer) => AfterFlush(m1.(imm := None, hasImm := false), outer)
                    case Compact(c) => EndCompaction(m1, c)
                    case Move => FinishJob(m1)
    ensures Step(s, Install(s.disk, s.phase.m.needs), s')
  {
    hide AfterFlush, EndCompaction, FinishJob, RecordBackgroundError;
    CollectNothing(s.disk, s'.phase.m);
    assert InstallStep(s, s.disk, s.phase.m.needs, s');
  }

  lemma CollectNothing(d: Disk, m: Memory)
    ensures Collected(d, d, m)
  {
  }
}
