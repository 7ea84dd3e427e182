// Installing a version and collecting garbage keep the engine invariant.
module EngineInstall {
  import opened InternalKeys
  import opened Views
  import opened CompactionModel
  import opened Engine
  import opened EngineInvariant
  import opened EngineWrites
  import opened EngineLogSteps
  import opened EngineTables

  // ---------- Garbage collection ----------

  lemma LogsKept(logs: map<nat, Log>, logs': map<nat, Log>, n: nat)
    requires logs'.Keys <= logs.Keys && forall x :: x in logs' ==> logs'[x] == logs[x]
    requires forall x :: x in logs && x >= n ==> x in logs'
    ensures LogsFrom(logs', n) == LogsFrom(logs, n)
    ensures forall ns :: ns <= LogsFrom(logs, n) ==> LogEntries(logs', ns) == LogEntries(logs, ns)
  {
    forall ns | ns <= LogsFrom(logs, n) ensures LogEntries(logs', ns) == LogEntries(logs, ns) {
      forall x | x in ns ensures x in logs' && x in logs && logs'[x] == logs[x] {}
      forall e | e in LogEntries(logs, ns) ensures e in LogEntries(logs', ns) {
        var x :| x in ns && x in logs && e in AllOf(logs[x]);
        assert x in logs';
      }
      forall e | e in LogEntries(logs', ns) ensures e in LogEntries(logs, ns) {
        var x :| x in ns && x in logs' && e in AllOf(logs'[x]);
        assert x in logs;
      }
    }
  }

  // Old logs below the installed log number may go.
  ghost predicate LogsCollected(d: Disk, m: Memory, logs': map<nat, Log>) {
    && logs'.Keys <= d.logs.Keys
    && (forall n :: n in logs' ==> logs'[n] == d.logs[n])
    && (forall n :: n in d.logs && n >= m.current.logNumber ==> n in logs')
  }

  lemma LogsCollectedData(d: Disk, m: Memory, logs': map<nat, Log>, issued: set<Entry>, acked: set<Entry>)
    requires LogsCollected(d, m, logs')
    requires NumbersOk(d, m) && MemOk(d, m, issued) && SequencesOk(d, m, issued) && AckedOk(d, m, acked) &&
        LeaderOk(d, m)
    ensures var d' := d.(logs := logs');
      && NumbersOk(d', m) && MemOk(d', m, issued) && SequencesOk(d', m, issued)
      && AckedOk(d', m, acked) && LeaderOk(d', m)
  {
    var d' := d.(logs := logs');
    LogsKept(d.logs, logs', m.current.logNumber);
    assert m.logNumber in logs';
    assert Settled(d', m) == Settled(d, m);
  }

  lemma LogsCollectedDisk(d: Disk, m: Memory, logs': map<nat, Log>, issued: set<Entry>, acked: set<Entry>)
    requires LogsCollected(d, m, logs') && DiskOk(d, issued, acked) && m.current.logNumber <= d.manifest.logNumber
    ensures DiskOk(d.(logs := logs'), issued, acked)
  {
    var d' := d.(logs := logs');
    LogsKept(d.logs, logs', d.manifest.logNumber);
    assert Replayed(d') == Replayed(d);
    forall n | IsLast(Replayed(d'), n)
      ensures Older(d.manifest.absorbed + LogEntries(logs', Replayed(d') - {n}), AllOf(logs'[n]))
    {
      assert Replayed(d') - {n} <= LogsFrom(d.logs, d.manifest.logNumber);
    }
    forall e | e in acked ensures Durable(d', e) {
      assert Durable(d, e);
      if e !in d.manifest.absorbed {
        var n :| n in d.logs && n >= d.manifest.logNumber && e in SyncedOf(d.logs[n]);
        assert n in logs';
      }
    }
  }

  // No file that the manifest, a version in use or the running compaction needs is deleted.
  lemma CollectAfter(d: Disk, m: Memory, d': Disk, issued: set<Entry>, acked: set<Entry>)
    requires UpOk(d, m, issued, acked) && Collected(d, d', m)
    requires m.job.Idle? || m.job.Scheduled? || m.job.Compacting?
    ensures UpOk(d', m, issued, acked)
  {
    if !m.bgError {
      assert SameVersion(m.current, d.manifest);
      assert Untouched(d, m, d'.tables);
      var d1 := d.(tables := d'.tables);
      if m.job.Compacting? { TablesCompaction(d, m, d1, m, m.job.c); }
      assert JobOk(d1, m) && ManifestOk(d1, m);
      TablesKeep(d, m, d1, m, issued, acked);
      CollectLogs(d1, m, d'.logs, issued, acked);
      assert d' == d1.(logs := d'.logs);
    }
  }

  lemma CollectLogs(d: Disk, m: Memory, logs': map<nat, Log>, issued: set<Entry>, acked: set<Entry>)
    requires UpOk(d, m, issued, acked) && LogsCollected(d, m, logs')
    ensures UpOk(d.(logs := logs'), m, issued, acked)
  {
    var d' := d.(logs := logs');
    LogsCollectedData(d, m, logs', issued, acked);
    LogsCollectedDisk(d, m, logs', issued, acked);
    TablesReaders(d, m, d', m, issued);
    SameJob(d, m, d');
  }

  lemma SameJob(d: Disk, m: Memory, d': Disk)
    requires JobOk(d, m) && ManifestOk(d, m) && d'.tables == d.tables && d'.manifest == d.manifest
    ensures JobOk(d', m) && ManifestOk(d', m)
  {
    forall c | CompactionOk(d, m, c) ensures CompactionOk(d', m, c) {}
  }

  // ---------- A new current version ----------

  lemma InstallData(d: Disk, m: Memory, m': Memory, issued: set<Entry>, acked: set<Entry>)
    requires NumbersOk(d, m) && MemOk(d, m, issued) && SequencesOk(d, m, issued) && AckedOk(d, m, acked) &&
        LeaderOk(d, m)
    requires m' == m.(current := m'.current, imm := m'.imm, hasImm := m'.hasImm, needs := m'.needs)
    requires var v := m'.current;
      && m.current.logNumber <= v.logNumber <= d.manifest.logNumber && Below(v.files, m.nextFile)
      && m.current.absorbed <= v.absorbed <= m.current.absorbed + ImmOf(m) && v.floor <= m.lastSequence
      && Older(v.absorbed, LogEntries(d.logs, LogsFrom(d.logs, v.logNumber)))
    requires (m'.imm == m.imm && m'.current.logNumber == m.current.logNumber) ||
        (m'.imm.None? && ImmOf(m) <= m'.current.absorbed)
    ensures NumbersOk(d, m') && MemOk(d, m', issued) && SequencesOk(d, m', issued) &&
        AckedOk(d, m', acked) && LeaderOk(d, m')
  {
    assert ReaderFiles(m') == ReaderFiles(m) && MemOf(m') == MemOf(m);
    ImmSettled(d, m, issued);
    var from, from' := LogsFrom(d.logs, m.current.logNumber), LogsFrom(d.logs, m'.current.logNumber);
    LogEntriesMonotone(d.logs, from', from);
    LogEntriesMonotone(d.logs, from' - {m.logNumber}, from - {m.logNumber});
    assert Settled(d, m') <= Settled(d, m);
    assert m'.imm == m.imm ==> ImmOf(m') == ImmOf(m);
    assert InFlight(m') == InFlight(m);
  }

  lemma LogEntriesMonotone(logs: map<nat, Log>, a: set<nat>, b: set<nat>)
    requires a <= b
    ensures LogEntries(logs, a) <= LogEntries(logs, b)
  {
    forall e | e in LogEntries(logs, a) ensures e in LogEntries(logs, b) {
      var n :| n in a && n in logs && e in AllOf(logs[n]);
      assert n in b;
    }
  }

  lemma InstallSnapshots(m: Memory, m': Memory, floor: Sequence)
    requires SnapshotsOk(m) && m'.snapshots == m.snapshots && m'.lastSequence == m.lastSequence
    requires m'.current.floor <= Max(m.current.floor, floor)
    requires forall i :: 0 <= i < |m.snapshots| ==> floor <= m.snapshots[i]
    ensures SnapshotsOk(m')
  {
  }

  // The part of the invariant that does not concern the job.
  ghost predicate DataOk(d: Disk, m: Memory, issued: set<Entry>, acked: set<Entry>) {
    && DiskOk(d, issued, acked) && VersionOk(d.tables, m.current, issued) && NumbersOk(d, m) && MemOk(d, m, issued)
    && SequencesOk(d, m, issued) && SnapshotsOk(m) && LeaderOk(d, m) && AckedOk(d, m, acked) && ReadersOk(d, m, issued)
  }

  // A change of job, with protections dropped, completes the invariant.
  lemma NewJob(d: Disk, m: Memory, m': Memory, issued: set<Entry>, acked: set<Entry>)
    requires DataOk(d, m, issued, acked)
    requires SameData(m, m') && m'.readers == m.readers && m'.nextFile == m.nextFile && m'.pending <= m.pending
    requires m'.snapshots == m.snapshots
    requires m'.leader == m.leader || (!m.leader.Writing? && !m'.leader.Writing?)
    requires JobOk(d, m') && ManifestOk(d, m') && FlagsOk(m')
    ensures UpOk(d, m', issued, acked)
  {
    assert ReaderFiles(m') == ReaderFiles(m);
    DataFrameNumbers(d, m, m');
    DataFrameCore(d, m, m', issued, acked);
    DataFrameReaders(d, m, m', issued);
  }

  // ---------- Installing a flush ----------

  lemma FlushCurrent(d: Disk, m: Memory, m2: Memory, issued: set<Entry>, acked: set<Entry>)
    requires DiskOk(d, issued, acked) && VersionOk(d.tables, m.current, issued) && NumbersOk(d, m) &&
        MemOk(d, m, issued)
    requires SequencesOk(d, m, issued) && AckedOk(d, m, acked) && LeaderOk(d, m) && JobOk(d, m) && ManifestOk(d, m)
    requires m.job.Logged? && m.job.ok && m.job.purpose.Flush?
    requires m2 == m.(current := Apply(m.current, m.job.edit), imm := None, hasImm := false, needs := m2.needs)
    ensures VersionOk(d.tables, m2.current, issued) && m2.current.floor == m.current.floor
    ensures NumbersOk(d, m2) && MemOk(d, m2, issued) && SequencesOk(d, m2, issued) &&
        AckedOk(d, m2, acked) && LeaderOk(d, m2)
  {
    var ed := m.job.edit;
    ImmSettled(d, m, issued);
    ImmInTail(d, m, issued);
    FlushVersion(d.tables, m.current, ed, issued);
    assert Older(m2.current.absorbed, LogEntries(d.logs, LogsFrom(d.logs, m.logNumber))) by {
      forall e | e in LogEntries(d.logs, LogsFrom(d.logs, m.logNumber)) ensures e in AllOf(d.logs[m.logNumber]) {
        var n :| n in LogsFrom(d.logs, m.logNumber) && n in d.logs && e in AllOf(d.logs[n]);
        assert n == m.logNumber;
      }
    }
    InstallData(d, m, m2, issued, acked);
  }

  lemma FlushOuter(d: Disk, m: Memory, m2: Memory, c: Compaction, issued: set<Entry>)
    requires VersionOk(d.tables, m.current, issued) && MemOk(d, m, issued) && SequencesOk(d, m, issued)
    requires JobOk(d, m) && m.job.Logged? && m.job.purpose == Flush(Some(c))
    requires m2.current == Apply(m.current, m.job.edit) && m2.readers == m.readers && m2.pending == m.pending
    requires m2.snapshots == m.snapshots && m2.lastSequence == m.lastSequence
    ensures CompactionOk(d, m2, c) && CompactionOpen(d, c)
  {
    var ed := m.job.edit;
    assert ReaderFiles(m2) == ReaderFiles(m);
    InputsAbsorbed(d.tables, m.current, c, issued);
    ImmSettled(d, m, issued);
    ClosedAfterFlush(d.tables, m.current.files, ed.add, c);
    assert m2.current.files == m.current.files + ed.add;
  }

  lemma FlushData(d: Disk, m: Memory, m2: Memory, issued: set<Entry>, acked: set<Entry>)
    requires DataOk(d, m, issued, acked) && JobOk(d, m) && ManifestOk(d, m)
    requires m.job.Logged? && m.job.ok && m.job.purpose.Flush?
    requires m2 == m.(current := Apply(m.current, m.job.edit), imm := None, hasImm := false, needs := m2.needs)
    ensures DataOk(d, m2, issued, acked)
  {
    FlushCurrent(d, m, m2, issued, acked);
    TablesReaders(d, m, d, m2, issued);
    InstallSnapshots(m, m2, 0);
  }

  lemma InstallFlush(d: Disk, m: Memory, m': Memory, needs: bool, issued: set<Entry>, acked: set<Entry>)
    requires DataOk(d, m, issued, acked) && JobOk(d, m) && ManifestOk(d, m) && FlagsOk(m)
    requires m.job.Logged? && m.job.ok && m.job.purpose.Flush?
    requires m' == AfterFlush(m.(current := Apply(m.current, m.job.edit), imm := None, hasImm := false, needs := needs),
                              m.job.purpose.outer)
    ensures UpOk(d, m', issued, acked)
  {
    var m2 := m.(current := Apply(m.current, m.job.edit), imm := None, hasImm := false, needs := needs);
    FlushData(d, m, m2, issued, acked);
    InstallFlushJob(d, m, m2, m', issued);
    NewJob(d, m2, m', issued, acked);
  }

  lemma InstallFlushJob(d: Disk, m: Memory, m2: Memory, m': Memory, issued: set<Entry>)
    requires VersionOk(d.tables, m.current, issued) && MemOk(d, m, issued) && SequencesOk(d, m, issued)
    requires JobOk(d, m) && ManifestOk(d, m) && FlagsOk(m) && m.job.Logged? && m.job.ok && m.job.purpose.Flush?
    requires m2 == m.(current := Apply(m.current, m.job.edit), imm := None, hasImm := false, needs := m2.needs)
    requires m' == AfterFlush(m2, m.job.purpose.outer)
    ensures JobOk(d, m') && ManifestOk(d, m') && FlagsOk(m') && SameData(m2, m') && m'.snapshots == m2.snapshots
    ensures m'.readers == m2.readers && m'.nextFile == m2.nextFile && m'.pending == m2.pending
    ensures m'.leader == m2.leader || (!m2.leader.Writing? && !m'.leader.Writing?)
  {
    if m.job.purpose.outer.Some? {
      FlushOuter(d, m, m', m.job.purpose.outer.value, issued);
    } else {
      FinishJobKeeps(d, m2);
    }
  }

  // ---------- Installing a merge or a move ----------

  lemma MergeData(d: Disk, m: Memory, m2: Memory, issued: set<Entry>, acked: set<Entry>)
    requires DataOk(d, m, issued, acked) && JobOk(d, m) && ManifestOk(d, m)
    requires m.job.Logged? && m.job.ok && !m.job.purpose.Flush?
    requires m2 == m.(current := Apply(m.current, m.job.edit), needs := m2.needs)
    ensures DataOk(d, m2, issued, acked)
  {
    MergeCurrent(d, m, m2, issued);
    InstallData(d, m, m2, issued, acked);
    TablesReaders(d, m, d, m2, issued);
    InstallSnapshots(m, m2, m.job.edit.floor);
  }

  lemma MergeCurrent(d: Disk, m: Memory, m2: Memory, issued: set<Entry>)
    requires OneEntryPerSequence(issued) && VersionOk(d.tables, m.current, issued) && JobOk(d, m) && ManifestOk(d, m)
    requires NumbersOk(d, m) && m.job.Logged? && m.job.ok && !m.job.purpose.Flush?
    requires m2.current == Apply(m.current, m.job.edit)
    ensures VersionOk(d.tables, m2.current, issued) && m2.current.absorbed == m.current.absorbed
    ensures m2.current.logNumber == m.current.logNumber && Below(m2.current.files, m.nextFile)
    ensures forall i :: 0 <= i < |m.snapshots| ==> m.job.edit.floor <= m.snapshots[i] || m.job.edit.floor == 0
  {
    if m.job.purpose.Compact? {
      MergeVersion(d.tables, m.current, m.job.edit, m.job.purpose.c, issued);
    } else {
      assert m2.current.files == m.current.files;
    }
  }

  lemma InstallMerge(d: Disk, m: Memory, m': Memory, needs: bool, issued: set<Entry>, acked: set<Entry>)
    requires DataOk(d, m, issued, acked) && JobOk(d, m) && ManifestOk(d, m) && FlagsOk(m)
    requires m.job.Logged? && m.job.ok && !m.job.purpose.Flush?
    requires var m2 := m.(current := Apply(m.current, m.job.edit), needs := needs);
      m' == if m.job.purpose.Compact? then EndCompaction(m2, m.job.purpose.c) else FinishJob(m2)
    ensures UpOk(d, m', issued, acked)
  {
    var m2 := m.(current := Apply(m.current, m.job.edit), needs := needs);
    MergeData(d, m, m2, issued, acked);
    InstallMergeJob(d, m, m2, m');
    NewJob(d, m2, m', issued, acked);
  }

  lemma InstallMergeJob(d: Disk, m: Memory, m2: Memory, m': Memory)
    requires ManifestOk(d, m) && FlagsOk(m) && m.job.Logged? && m.job.ok && !m.job.purpose.Flush?
    requires m2 == m.(current := Apply(m.current, m.job.edit), needs := m2.needs)
    requires m' == if m.job.purpose.Compact? then EndCompaction(m2, m.job.purpose.c) else FinishJob(m2)
    ensures JobOk(d, m') && ManifestOk(d, m') && FlagsOk(m') && SameData(m2, m') && m'.snapshots == m2.snapshots
    ensures m'.readers == m2.readers && m'.nextFile == m2.nextFile && m'.pending <= m2.pending
    ensures m'.leader == m2.leader || (!m2.leader.Writing? && !m'.leader.Writing?)
  {
    if m.job.purpose.Compact? { EndCompactionKeeps(d, m2, m.job.purpose.c); } else { FinishJobKeeps(d, m2); }
  }

  // ---------- A failed manifest write ----------

  lemma InstallFailed(d: Disk, m: Memory, m': Memory, issued: set<Entry>, acked: set<Entry>)
    requires DataOk(d, m, issued, acked) && JobOk(d, m) && ManifestOk(d, m) && FlagsOk(m)
    requires m.job.Logged? && !m.job.ok
    requires m' == match m.job.purpose
                   case Flush(outer) => AfterFlush(RecordBackgroundError(m), outer)
                   case Compact(c) => EndCompaction(RecordBackgroundError(m), c)
                   case Move => FinishJob(RecordBackgroundError(m))
    ensures UpOk(d, m', issued, acked)
  {
    InstallFailedJob(d, m, m');
    NewJob(d, m, m', issued, acked);
  }

  lemma InstallFailedJob(d: Disk, m: Memory, m': Memory)
    requires JobOk(d, m) && ManifestOk(d, m) && FlagsOk(m) && m.job.Logged? && !m.job.ok
    requires m' == match m.job.purpose
                   case Flush(outer) => AfterFlush(RecordBackgroundError(m), outer)
                   case Compact(c) => EndCompaction(RecordBackgroundError(m), c)
                   case Move => FinishJob(RecordBackgroundError(m))
    ensures JobOk(d, m') && ManifestOk(d, m') && FlagsOk(m') && SameData(m, m')
    ensures m'.readers == m.readers && m'.nextFile == m.nextFile && m'.pending <= m.pending &&
        m'.snapshots == m.snapshots
    ensures m'.leader == m.leader || (!m.leader.Writing? && !m'.leader.Writing?)
    ensures m'.bgError
  {
    var m1 := RecordBackgroundError(m);
    assert m1 == m.(bgError := true, leader := m1.leader) && !m1.leader.Asleep?;
    match m.job.purpose {
      case Flush(outer) =>
        if outer.Some? {
          assert ReaderFiles(m1) == ReaderFiles(m);
          assert CompactionOk(d, m1, outer.value) && CompactionOpen(d, outer.value);
        }
        AfterFlushFails(d, m1, outer);
      case Compact(c) => EndCompactionKeeps(d, m1, c);
      case Move => FinishJobKeeps(d, m1);
    }
  }

  // What the step makes of the memory, case by case.
  lemma InstallShape(s: State, d': Disk, needs: bool, s': State)
    requires s.phase.Up? && InstallStep(s, d', needs, s')
    ensures s.phase.m.job.Logged? && s'.disk == d' && s'.issued == s.issued && s'.acked == s.acked && s'.phase.Up?
    ensures var m, m' := s.phase.m, s'.phase.m;
      var m2 := m.(current := Apply(m.current, m.job.edit), needs := needs);
      match m.job.purpose
      case Flush(outer) =>
        if m.job.ok then m' == AfterFlush(m2.(imm := None, hasImm := false), outer) && Collected(s.disk, d', m')
        else m' == AfterFlush(RecordBackgroundError(m), outer) && d' == s.disk
      case Compact(c) =>
        && m' == EndCompaction(if m.job.ok then m2 else RecordBackgroundError(m), c)
        && Collected(s.disk, d', m')
      case Move => m' == FinishJob(if m.job.ok then m2 else RecordBackgroundError(m)) && d' == s.disk
  {
    match s.phase.m.job.purpose {
      case Flush(_) => InstallFlushShape(s, d', needs, s');
      case Compact(_) =>
      case Move =>
    }
  }

  lemma InstallFlushShape(s: State, d': Disk, needs: bool, s': State)
    requires s.phase.Up? && InstallStep(s, d', needs, s') && s.phase.m.job.purpose.Flush?
    ensures var m, m' := s.phase.m, s'.phase.m;
      var m2 := m.(current := Apply(m.current, m.job.edit), needs := needs);
      if m.job.ok
      then m' == AfterFlush(m2.(imm := None, hasImm := false), m.job.purpose.outer) && Collected(s.disk, d', m')
      else m' == AfterFlush(RecordBackgroundError(m), m.job.purpose.outer) && d' == s.disk
  {
  }

  lemma BetweenJobs(m: Memory, outer: Option<Compaction>)
    ensures var m' := AfterFlush(m, outer);
      (m'.job.Idle? || m'.job.Scheduled? || m'.job.Compacting?) && m'.bgError == m.bgError
  {
  }

  lemma BetweenJobsMerge(m: Memory, c: Compaction)
    ensures var m' := EndCompaction(m, c);
      (m'.job.Idle? || m'.job.Scheduled?) && m'.bgError == m.bgError
  {
  }

  lemma InstallKeeps(s: State, d': Disk, needs: bool, s': State)
    requires Inv(s) && s.phase.Up? && InstallStep(s, d', needs, s')
    ensures Inv(s')
  {
    InstallShape(s, d', needs, s');
    InstallUp(s.disk, s.phase.m, d', s'.phase.m, needs, s.issued, s.acked);
  }

  lemma InstallUp(d: Disk, m: Memory, d': Disk, m': Memory, needs: bool, issued: set<Entry>, acked: set<Entry>)
    requires UpOk(d, m, issued, acked) && m.job.Logged?
    requires var m2 := m.(current := Apply(m.current, m.job.edit), needs := needs);
      match m.job.purpose
      case Flush(outer) =>
        if m.job.ok then m' == AfterFlush(m2.(imm := None, hasImm := false), outer) && Collected(d, d', m')
        else m' == AfterFlush(RecordBackgroundError(m), outer) && d' == d
      case Compact(c) =>
        && m' == EndCompaction(if m.job.ok then m2 else RecordBackgroundError(m), c)
        && Collected(d, d', m')
      case Move => m' == FinishJob(if m.job.ok then m2 else RecordBackgroundError(m)) && d' == d
    ensures UpOk(d', m', issued, acked)
  {
    assert DataOk(d, m, issued, acked);
    if !m.job.ok {
      InstallFailed(d, m, m', issued, acked);
      if m.job.purpose.Compact? { CollectFailed(d, m, d', m', m.job.purpose.c); }
    } else if m.job.purpose.Flush? {
      InstallFlush(d, m, m', needs, issued, acked);
      BetweenJobs(m.(current := Apply(m.current, m.job.edit), needs := needs, imm := None, hasImm := false),
          m.job.purpose.outer);
      CollectAfter(d, m', d', issued, acked);
    } else {
      InstallMerge(d, m, m', needs, issued, acked);
      if m.job.purpose.Compact? {
        BetweenJobsMerge(m.(current := Apply(m.current, m.job.edit), needs := needs), m.job.purpose.c);
        CollectAfter(d, m', d', issued, acked);
      }
    }
  }

  // DeleteObsoleteFiles does nothing after a background error.
  lemma CollectFailed(d: Disk, m: Memory, d': Disk, m': Memory, c: Compaction)
    requires m' == EndCompaction(RecordBackgroundError(m), c) && Collected(d, d', m')
    ensures d' == d
  {
    BetweenJobsMerge(RecordBackgroundError(m), c);
    assert RecordBackgroundError(m).bgError;
  }
}
