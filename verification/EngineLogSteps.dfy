// The memtable switch and the stages of a write keep the engine invariant.
module EngineLogSteps {
  import opened InternalKeys
  import opened Views
  import opened CompactionModel
  import opened Engine
  import opened EngineInvariant
  import opened EngineWrites

  // ---------- What follows from the running state about the disk ----------

  lemma NewestFromSettled(d: Disk, m: Memory, issued: set<Entry>)
    requires NumbersOk(d, m) && SequencesOk(d, m, issued)
    ensures LastLogNewest(d)
  {
    var l := m.logNumber;
    forall e | e in LogEntries(d.logs, Replayed(d) - {l})
      ensures e in LogEntries(d.logs, LogsFrom(d.logs, m.current.logNumber) - {l})
    {
      var n :| n in Replayed(d) - {l} && n in d.logs && e in AllOf(d.logs[n]);
      assert n in LogsFrom(d.logs, m.current.logNumber) - {l};
    }
    assert IsLast(Replayed(d), l);
    forall n | IsLast(Replayed(d), n) ensures n == l {}
  }

  // Logs may grow and appear as long as the new entries fit the order.
  lemma DiskLogs(d: Disk, logs: map<nat, Log>, issued: set<Entry>, acked: set<Entry>)
    requires DiskOk(d, issued, acked)
    requires var d' := d.(logs := logs);
      && (forall n :: n in logs ==> logs[n].synced <= |logs[n].records|)
      && (forall n :: n in d.logs ==> n in logs && SyncedOf(d.logs[n]) <= SyncedOf(logs[n]))
      && LogEntries(logs, Replayed(d')) <= issued
      && Older(CompactedAway(d.tables, d.manifest), LogEntries(logs, Replayed(d')))
      && LastLogNewest(d')
    ensures DiskOk(d.(logs := logs), issued, acked)
  {
    var d' := d.(logs := logs);
    forall e | e in acked ensures Durable(d', e) {
      assert Durable(d, e);
      if e !in d.manifest.absorbed {
        var n :| n in d.logs && n >= d.manifest.logNumber && e in SyncedOf(d.logs[n]);
        assert n in logs && e in SyncedOf(logs[n]);
      }
    }
  }

  lemma TailWithin(d: Disk, m: Memory)
    requires m.current.logNumber <= d.manifest.logNumber
    ensures LogEntries(d.logs, Replayed(d)) <= LogEntries(d.logs, LogsFrom(d.logs, m.current.logNumber))
  {
    forall e | e in LogEntries(d.logs, Replayed(d))
      ensures e in LogEntries(d.logs, LogsFrom(d.logs, m.current.logNumber))
    {
      var n :| n in Replayed(d) && n in d.logs && e in AllOf(d.logs[n]);
      assert n in LogsFrom(d.logs, m.current.logNumber);
    }
  }

  // A running state whose log part is in order has a disk in order.
  lemma DiskFromRunning(d: Disk, logs: map<nat, Log>, m: Memory, issued: set<Entry>, acked: set<Entry>)
    requires DiskOk(d, issued, acked)
    requires var d' := d.(logs := logs);
      && NumbersOk(d', m) && MemOk(d', m, issued) && SequencesOk(d', m, issued)
      && (forall n :: n in logs ==> logs[n].synced <= |logs[n].records|)
      && (forall n :: n in d.logs ==> n in logs && SyncedOf(d.logs[n]) <= SyncedOf(logs[n]))
    ensures DiskOk(d.(logs := logs), issued, acked)
  {
    var d' := d.(logs := logs);
    NewestFromSettled(d', m, issued);
    TailWithin(d', m);
    DiskLogs(d, logs, issued, acked);
  }

  // ---------- The memtable switch ----------

  lemma SwitchData(d: Disk, m: Memory, d': Disk, m': Memory, issued: set<Entry>, acked: set<Entry>)
    requires NumbersOk(d, m) && MemOk(d, m, issued) && SequencesOk(d, m, issued) && AckedOk(d, m, acked)
    requires m.leader.Free? && m.imm.None?
    requires d' == d.(logs := d.logs[m.nextFile := Log([], 0)])
    requires m'.nextFile == m.nextFile + 1 && m'.logNumber == m.nextFile && m'.imm == Some(m.logNumber)
    requires m'.heap == m.heap[m.nextFile := {}] && m'.lastSequence == m.lastSequence && m'.current == m.current
    requires m'.leader == m.leader && m'.pending == m.pending && m'.readers == m.readers
    ensures NumbersOk(d', m') && MemOk(d', m', issued) && SequencesOk(d', m', issued) && AckedOk(d', m', acked)
  {
    var newLog := m.nextFile;
    var from := m.current.logNumber;
    assert newLog !in d.logs && newLog !in m.heap;
    assert LogsFrom(d'.logs, from) - {newLog} == LogsFrom(d.logs, from);
    assert LogsFrom(d'.logs, from) == LogsFrom(d.logs, from) + {newLog};
    LogEntriesEmpty(d.logs, newLog, LogsFrom(d.logs, from));
    assert AllOf(d'.logs[newLog]) == {};
    assert ImmOf(m') == MemOf(m) && MemOf(m') == {} && ImmOf(m) == {};
    assert ReaderFiles(m') == ReaderFiles(m);
    assert InFlight(m) == {} && InFlight(m') == {};
    forall e | e in LogEntries(d.logs, LogsFrom(d.logs, from)) ensures e.sn <= m.lastSequence {
      assert e in issued;
    }
    assert Settled(d', m') == m.current.absorbed + d.manifest.absorbed + LogEntries(d.logs, LogsFrom(d.logs, from));
  }

  lemma SwitchReaders(d: Disk, m: Memory, d': Disk, m': Memory, issued: set<Entry>)
    requires ReadersOk(d, m, issued) && Below(m.heap.Keys, m.nextFile)
    requires d'.tables == d.tables && m'.readers == m.readers && m'.lastSequence == m.lastSequence
    requires m'.heap == m.heap[m.nextFile := {}] && m.logNumber <= m'.logNumber
    ensures ReadersOk(d', m', issued)
  {
    forall id | id in m'.readers ensures ReaderOk(d', m', m'.readers[id], issued) {
      assert ReaderOk(d, m, m.readers[id], issued);
    }
  }

  lemma SwitchKeeps(s: State, newLog: nat, s': State)
    requires Inv(s) && s.phase.Up? && SwitchStep(s, newLog, s')
    ensures Inv(s')
  {
    var d, m, d', m' := s.disk, s.phase.m, s'.disk, s'.phase.m;
    SwitchData(d, m, d', m', s.issued, s.acked);
    SwitchReaders(d, m, d', m', s.issued);
    SwitchDisk(d, m, d', m', s.issued, s.acked);
    var m1 := m.(nextFile := newLog + 1, logNumber := newLog, imm := Some(m.logNumber), hasImm := true,
                 heap := m.heap[newLog := {}]);
    SwitchJob(d, m, d', m1);
    Reschedule(d', m1);
    assert SnapshotsOk(m') && LeaderOk(d', m');
  }

  lemma SwitchDisk(d: Disk, m: Memory, d': Disk, m': Memory, issued: set<Entry>, acked: set<Entry>)
    requires DiskOk(d, issued, acked) && Below(d.logs.Keys, m.nextFile)
    requires d' == d.(logs := d.logs[m.nextFile := Log([], 0)])
    requires NumbersOk(d', m') && MemOk(d', m', issued) && SequencesOk(d', m', issued)
    ensures DiskOk(d', issued, acked)
  {
    DiskFromRunning(d, d'.logs, m', issued, acked);
  }

  lemma SwitchJob(d: Disk, m: Memory, d': Disk, m': Memory)
    requires JobOk(d, m) && ManifestOk(d, m) && m.imm.None?
    requires d'.tables == d.tables && d'.manifest == d.manifest
    requires m' == m.(nextFile := m.nextFile + 1, logNumber := m'.logNumber,
        imm := m'.imm, hasImm := m'.hasImm, heap := m'.heap)
    ensures JobOk(d', m') && ManifestOk(d', m')
  {
    assert ReaderFiles(m') == ReaderFiles(m);
    forall c | CompactionOk(d, m, c) ensures CompactionOk(d', m', c) {}
  }

  // ---------- The stages of a write ----------

  lemma FreshBatch(d: Disk, m: Memory, issued: set<Entry>, batch: set<Entry>, count: nat)
    requires SequencesOk(d, m, issued) && OneEntryPerSequence(issued) && !m.leader.Writing?
    requires BatchOk(batch, m.lastSequence, count)
    ensures OneEntryPerSequence(issued + batch)
  {
    assert InFlight(m) == {};
    assert forall e :: e in issued ==> e.sn <= m.lastSequence;
  }

  lemma BeginWriteKeeps(s: State, batch: set<Entry>, count: nat, sync: bool, s': State)
    requires Inv(s) && s.phase.Up? && BeginWriteStep(s, batch, count, sync, s')
    ensures Inv(s')
  {
    var d, m, m' := s.disk, s.phase.m, s'.phase.m;
    FreshBatch(d, m, s.issued, batch, count);
    BeginWriteData(d, m, m', s.issued, s'.issued, s.acked);
    BeginWriteRest(d, m, m', s.issued, s'.issued);
    assert AckedOk(d, m', s.acked) && LeaderOk(d, m');
  }

  lemma BeginWriteRest(d: Disk, m: Memory, m': Memory, issued: set<Entry>, issued': set<Entry>)
    requires ReadersOk(d, m, issued) && JobOk(d, m) && ManifestOk(d, m) && FlagsOk(m) && SnapshotsOk(m)
    requires m.leader.Free? && m' == m.(leader := m'.leader) && m'.leader.Writing? && issued <= issued'
    ensures ReadersOk(d, m', issued') && JobOk(d, m') && ManifestOk(d, m') && FlagsOk(m') && SnapshotsOk(m')
  {
    assert ReaderFiles(m') == ReaderFiles(m) && ImmOf(m') == ImmOf(m);
    JobFrame(d, m, d, m');
    forall id | id in m'.readers ensures ReaderOk(d, m', m'.readers[id], issued') {
      assert ReaderOk(d, m, m.readers[id], issued);
    }
  }

  lemma BeginWriteData(d: Disk, m: Memory, m': Memory, issued: set<Entry>, issued': set<Entry>, acked: set<Entry>)
    requires DiskOk(d, issued, acked) && VersionOk(d.tables, m.current, issued)
    requires NumbersOk(d, m) && MemOk(d, m, issued) && SequencesOk(d, m, issued)
    requires m.leader.Free? && m' == m.(leader := m'.leader) && m'.leader.Writing?
    requires BatchOk(m'.leader.batch, m.lastSequence, m'.leader.count) && issued' == issued + m'.leader.batch
    requires OneEntryPerSequence(issued')
    ensures DiskOk(d, issued', acked) && VersionOk(d.tables, m'.current, issued')
    ensures NumbersOk(d, m') && MemOk(d, m', issued') && SequencesOk(d, m', issued')
  {
    assert ReaderFiles(m') == ReaderFiles(m) && MemOf(m') == MemOf(m) && ImmOf(m') == ImmOf(m);
    assert Settled(d, m') == Settled(d, m) && InFlight(m) == {};
  }

  // The current log gets a record or a sync; everything else stands still.
  ghost predicate LogGrows(d: Disk, m: Memory, d': Disk, m': Memory) {
    && m.logNumber in d.logs && m.logNumber in d'.logs && m.leader.Writing? && m'.leader.Writing?
    && m' == m.(leader := m'.leader)
    && m'.leader.batch == m.leader.batch && m'.leader.count == m.leader.count
    && m'.leader.sync == m.leader.sync
    && d' == d.(logs := d.logs[m.logNumber := d'.logs[m.logNumber]])
    && var l, l' := d.logs[m.logNumber], d'.logs[m.logNumber];
       && AllOf(l) <= AllOf(l') <= AllOf(l) + m.leader.batch
       && SyncedOf(l) <= SyncedOf(l') && l'.synced <= |l'.records|
  }

  lemma LogGrowsData(d: Disk, m: Memory, d': Disk, m': Memory, issued: set<Entry>, acked: set<Entry>)
    requires NumbersOk(d, m) && MemOk(d, m, issued) && SequencesOk(d, m, issued) && AckedOk(d, m, acked)
    requires LogGrows(d, m, d', m')
    ensures NumbersOk(d', m') && MemOk(d', m', issued) && SequencesOk(d', m', issued) && AckedOk(d', m', acked)
  {
    var n := m.logNumber;
    var from := LogsFrom(d.logs, m.current.logNumber);
    assert LogsFrom(d'.logs, m.current.logNumber) == from;
    LogEntriesUpdate(d.logs, n, d'.logs[n], from);
    LogEntriesUpdate(d.logs, n, d'.logs[n], from - {n});
    assert from - {n} - {n} == from - {n};
    assert Settled(d', m') == Settled(d, m);
    assert MemOf(m') == MemOf(m) && ImmOf(m') == ImmOf(m) && ReaderFiles(m') == ReaderFiles(m);
    assert d'.logs.Keys == d.logs.Keys;
    assert CompactedAway(d.tables, d.manifest) <= Settled(d, m) && m.current.absorbed <= Settled(d, m);
  }

  lemma LogGrowsDisk(d: Disk, m: Memory, d': Disk, m': Memory, issued: set<Entry>, acked: set<Entry>)
    requires DiskOk(d, issued, acked) && LogGrows(d, m, d', m')
    requires NumbersOk(d', m') && MemOk(d', m', issued) && SequencesOk(d', m', issued)
    ensures DiskOk(d', issued, acked)
  {
    hide NumbersOk, MemOk, SequencesOk;
    DiskFromRunning(d, d'.logs, m', issued, acked);
  }

  lemma LogGrowsKeeps(d: Disk, m: Memory, d': Disk, m': Memory, issued: set<Entry>, acked: set<Entry>)
    requires UpOk(d, m, issued, acked) && LogGrows(d, m, d', m') && LeaderOk(d', m')
    ensures UpOk(d', m', issued, acked)
  {
    hide DiskOk, VersionOk, NumbersOk, MemOk, SequencesOk, LeaderOk, AckedOk, ReadersOk, JobOk, ManifestOk, FlagsOk;
    LogGrowsData(d, m, d', m', issued, acked);
    LogGrowsDisk(d, m, d', m', issued, acked);
    LogGrowsRest(d, m, d', m', issued);
  }

  lemma LogGrowsRest(d: Disk, m: Memory, d': Disk, m': Memory, issued: set<Entry>)
    requires ReadersOk(d, m, issued) && JobOk(d, m) && ManifestOk(d, m) && FlagsOk(m) && LogGrows(d, m, d', m')
    ensures ReadersOk(d', m', issued) && JobOk(d', m') && ManifestOk(d', m') && FlagsOk(m')
  {
    assert ReaderFiles(m') == ReaderFiles(m) && ImmOf(m') == ImmOf(m);
    JobFrame(d, m, d', m');
    forall id | id in m'.readers ensures ReaderOk(d', m', m'.readers[id], issued) {
      assert ReaderOk(d, m, m.readers[id], issued);
    }
  }

  lemma AppendKeeps(s: State, ok: bool, torn: bool, s': State)
    requires Inv(s) && s.phase.Up? && AppendStep(s, ok, torn, s')
    ensures Inv(s')
  {
    hide VersionOk, MemOk, SequencesOk, AckedOk, ReadersOk, JobOk, ManifestOk, FlagsOk;
    var d, m, d', m' := s.disk, s.phase.m, s'.disk, s'.phase.m;
    var l := d.logs[m.logNumber];
    UnionAppend(l.records, m.leader.batch);
    assert (l.records + [m.leader.batch])[..l.synced] == l.records[..l.synced];
    LogGrowsKeeps(d, m, d', m', s.issued, s.acked);
  }

  lemma SyncKeeps(s: State, ok: bool, s': State)
    requires Inv(s) && s.phase.Up? && SyncStep(s, ok, s')
    ensures Inv(s')
  {
    hide VersionOk, MemOk, SequencesOk, AckedOk, ReadersOk, JobOk, ManifestOk, FlagsOk;
    var d, m, d', m' := s.disk, s.phase.m, s'.disk, s'.phase.m;
    var l := d.logs[m.logNumber];
    SyncedInAll(l);
    assert l.records[..|l.records|] == l.records;
    LogGrowsKeeps(d, m, d', m', s.issued, s.acked);
  }

  lemma InsertData(d: Disk, m: Memory, m': Memory, issued: set<Entry>, acked: set<Entry>)
    requires NumbersOk(d, m) && MemOk(d, m, issued) && SequencesOk(d, m, issued) && AckedOk(d, m, acked)
    requires m.leader.Writing? && m'.leader.Writing? && m.leader.batch <= AllOf(d.logs[m.logNumber])
    requires m' == m.(heap := m.heap[m.logNumber := MemOf(m) + m.leader.batch], leader := m'.leader)
    requires m'.leader.batch == m.leader.batch && m'.leader.count == m.leader.count
    ensures NumbersOk(d, m') && MemOk(d, m', issued) && SequencesOk(d, m', issued) && AckedOk(d, m', acked)
    ensures MemOf(m') == MemOf(m) + m.leader.batch && ImmOf(m') == ImmOf(m)
  {
    assert ReaderFiles(m') == ReaderFiles(m) && Settled(d, m') == Settled(d, m);
    assert m'.heap.Keys == m.heap.Keys;
  }

  lemma InsertReaders(d: Disk, m: Memory, m': Memory, issued: set<Entry>)
    requires ReadersOk(d, m, issued) && m.logNumber in m.heap
    requires m.leader.Writing? && BatchOk(m.leader.batch, m.lastSequence, m.leader.count)
    requires m'.readers == m.readers && m'.lastSequence == m.lastSequence && m'.logNumber == m.logNumber
    requires m'.heap == m.heap[m.logNumber := m.heap[m.logNumber] + m.leader.batch]
    ensures ReadersOk(d, m', issued)
  {
    forall id | id in m'.readers ensures ReaderOk(d, m', m'.readers[id], issued) {
      var r := m.readers[id];
      assert ReaderOk(d, m, r, issued);
      assert ReaderImm(m', r) == ReaderImm(m, r);
      assert ReaderMem(m', r) <= ReaderMem(m, r) + m.leader.batch;
    }
  }

  lemma InsertRest(d: Disk, m: Memory, m': Memory)
    requires JobOk(d, m) && ManifestOk(d, m) && FlagsOk(m) && m.leader.Writing? && m'.leader.Writing?
    requires m' == m.(heap := m'.heap, leader := m'.leader) && ImmOf(m') == ImmOf(m)
    ensures JobOk(d, m') && ManifestOk(d, m') && FlagsOk(m')
  {
    assert ReaderFiles(m') == ReaderFiles(m);
    JobFrame(d, m, d, m');
  }

  lemma InsertKeeps(s: State, s': State)
    requires Inv(s) && s.phase.Up? && InsertStep(s, s')
    ensures Inv(s')
  {
    hide DiskOk, VersionOk, MemOk, AckedOk, ReadersOk, JobOk, ManifestOk, FlagsOk;
    var d, m, m' := s.disk, s.phase.m, s'.phase.m;
    InsertData(d, m, m', s.issued, s.acked);
    InsertReaders(d, m, m', s.issued);
    InsertRest(d, m, m');
    assert LeaderOk(d, m');
  }

  lemma EndWriteData(d: Disk, m: Memory, m': Memory, issued: set<Entry>)
    requires NumbersOk(d, m) && MemOk(d, m, issued) && SequencesOk(d, m, issued) && SnapshotsOk(m)
    requires m.leader.Writing? &&
        m' == m.(lastSequence := m.lastSequence + m.leader.count, leader := Free, bgError := m'.bgError)
    ensures NumbersOk(d, m') && MemOk(d, m', issued) && SequencesOk(d, m', issued) && SnapshotsOk(m')
  {
    assert ReaderFiles(m') == ReaderFiles(m) && Settled(d, m') == Settled(d, m);
    assert MemOf(m') == MemOf(m) && ImmOf(m') == ImmOf(m);
    forall e | e in issued ensures e.sn <= m'.lastSequence {
      if e !in m.leader.batch { assert e in issued - InFlight(m); }
    }
  }

  lemma EndWriteReaders(d: Disk, m: Memory, m': Memory, issued: set<Entry>)
    requires ReadersOk(d, m, issued)
    requires m'.readers == m.readers && m'.heap == m.heap && m'.logNumber == m.logNumber
    requires m.lastSequence <= m'.lastSequence
    ensures ReadersOk(d, m', issued)
  {
    forall id | id in m'.readers ensures ReaderOk(d, m', m'.readers[id], issued) {
      assert ReaderOk(d, m, m.readers[id], issued);
    }
  }

  lemma EndWriteDisk(d: Disk, m: Memory, issued: set<Entry>, acked: set<Entry>, more: set<Entry>)
    requires DiskOk(d, issued, acked) && NumbersOk(d, m) && more <= SyncedOf(d.logs[m.logNumber])
    ensures DiskOk(d, issued, acked + more)
  {
    forall e | e in acked + more ensures Durable(d, e) {
      if e in more { assert e in SyncedOf(d.logs[m.logNumber]); } else { assert Durable(d, e); }
    }
  }

  lemma EndWriteRest(d: Disk, m: Memory, m': Memory)
    requires JobOk(d, m) && ManifestOk(d, m) && FlagsOk(m) && m.leader.Writing?
    requires m' == m.(lastSequence := m.lastSequence + m.leader.count, leader := Free, bgError := m'.bgError)
    requires m.bgError ==> m'.bgError
    ensures JobOk(d, m') && ManifestOk(d, m') && FlagsOk(m')
  {
    assert ReaderFiles(m') == ReaderFiles(m) && ImmOf(m') == ImmOf(m);
    forall i | 0 <= i < |m'.snapshots| ensures m'.snapshots[i] in m.snapshots {}
    JobFrame(d, m, d, m');
  }

  lemma EndWriteUp(d: Disk, m: Memory, m': Memory, issued: set<Entry>, acked: set<Entry>, more: set<Entry>)
    requires UpOk(d, m, issued, acked) && m.leader.Writing?
    requires m' == m.(lastSequence := m.lastSequence + m.leader.count, leader := Free, bgError := m'.bgError)
    requires m.bgError ==> m'.bgError
    requires more <= m.leader.batch && more <= MemOf(m) && more <= SyncedOf(d.logs[m.logNumber])
    ensures UpOk(d, m', issued, acked + more)
  {
    EndWriteData(d, m, m', issued);
    EndWriteReaders(d, m, m', issued);
    EndWriteDisk(d, m, issued, acked, more);
    EndWriteRest(d, m, m');
    EndWriteAcked(d, m, m', acked, more);
  }

  lemma EndWriteShape(s: State, s': State)
    requires s.phase.Up? && EndWriteStep(s, s') && LeaderOk(s.disk, s.phase.m) && s.phase.m.logNumber in s.disk.logs
    ensures s'.phase.Up? && s'.disk == s.disk && s'.issued == s.issued
    ensures var m, m' := s.phase.m, s'.phase.m;
      && m' == m.(lastSequence := m.lastSequence + m.leader.count, leader := Free, bgError := m'.bgError)
      && (m.bgError ==> m'.bgError)
      && s.acked <= s'.acked && s'.acked - s.acked <= m.leader.batch
      && (s'.acked != s.acked ==> m.leader.batch <= MemOf(m) && m.leader.batch <= SyncedOf(s.disk.logs[m.logNumber]))
  {
  }

  lemma EndWriteKeeps(s: State, s': State)
    requires Inv(s) && s.phase.Up? && EndWriteStep(s, s')
    ensures Inv(s')
  {
    hide DiskOk, VersionOk, MemOk, SequencesOk, LeaderOk, AckedOk, ReadersOk, JobOk, ManifestOk, FlagsOk, SnapshotsOk;
    EndWriteShape(s, s');
    var more := s'.acked - s.acked;
    assert s.acked + more == s'.acked;
    EndWriteUp(s.disk, s.phase.m, s'.phase.m, s.issued, s.acked, more);
  }

  lemma EndWriteAcked(d: Disk, m: Memory, m': Memory, acked: set<Entry>, more: set<Entry>)
    requires AckedOk(d, m, acked) && m.logNumber in d.logs
    requires more <= MemOf(m) && more <= SyncedOf(d.logs[m.logNumber])
    requires m'.heap == m.heap && m'.imm == m.imm && m'.logNumber == m.logNumber && m'.current == m.current
    requires m.lastSequence <= m'.lastSequence && Bounded(more, m'.lastSequence)
    ensures AckedOk(d, m', acked + more)
  {
    assert ImmOf(m') == ImmOf(m) && MemOf(m') == MemOf(m);
  }
}
