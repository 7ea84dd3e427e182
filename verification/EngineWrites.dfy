// Steps of writers, snapshots and readers keep the engine invariant.
module EngineWrites {
  import opened InternalKeys
  import opened Views
  import opened CompactionModel
  import opened Engine
  import opened EngineInvariant

  // ---------- Logs ----------

  lemma UnionAppend(rs: seq<set<Entry>>, b: set<Entry>)
    ensures Union(rs + [b]) == Union(rs) + b
  {
    var all := rs + [b];
    forall e | e in Union(rs) + b ensures e in Union(all) {
      if e in b { assert all[|rs|] == b; } else {
        var i :| 0 <= i < |rs| && e in rs[i];
        assert all[i] == rs[i];
      }
    }
  }

  lemma UnionPrefix(rs: seq<set<Entry>>, k: nat)
    requires k <= |rs|
    ensures Union(rs[..k]) <= Union(rs)
  {
    forall e | e in Union(rs[..k]) ensures e in Union(rs) {
      var i :| 0 <= i < k && e in rs[..k][i];
      assert e in rs[i];
    }
  }

  lemma SyncedInAll(l: Log)
    ensures SyncedOf(l) <= AllOf(l)
  {
    if l.synced <= |l.records| { UnionPrefix(l.records, l.synced); }
  }

  // Appending a record or syncing changes one log only.
  lemma LogEntriesUpdate(logs: map<nat, Log>, n: nat, l: Log, ns: set<nat>)
    ensures n !in ns ==> LogEntries(logs[n := l], ns) == LogEntries(logs, ns)
    ensures n in ns ==> LogEntries(logs[n := l], ns) == LogEntries(logs, ns - {n}) + AllOf(l)
    ensures n in ns && n in logs ==> LogEntries(logs, ns) == LogEntries(logs, ns - {n}) + AllOf(logs[n])
  {
    var logs' := logs[n := l];
    forall e | n in ns && e in AllOf(l) ensures e in LogEntries(logs', ns) { assert logs'[n] == l; }
    forall x | x in ns && x != n && x in logs ensures logs'[x] == logs[x] {}
    forall e ensures e in LogEntries(logs', ns) <==> e in LogEntries(logs, ns - {n}) || (n in ns && e in AllOf(l)) {
      if e in LogEntries(logs, ns - {n}) {
        var x :| x in ns - {n} && x in logs && e in AllOf(logs[x]);
        assert x in logs' && logs'[x] == logs[x];
      }
    }
  }

  // A new empty log adds nothing.
  lemma LogEntriesEmpty(logs: map<nat, Log>, n: nat, ns: set<nat>)
    requires n !in logs
    ensures LogEntries(logs[n := Log([], 0)], ns + {n}) == LogEntries(logs, ns)
    ensures LogEntries(logs[n := Log([], 0)], ns) == LogEntries(logs, ns)
  {
    var logs' := logs[n := Log([], 0)];
    assert AllOf(logs'[n]) == {};
    forall e | e in LogEntries(logs, ns) ensures e in LogEntries(logs', ns) && e in LogEntries(logs', ns + {n}) {
      var x :| x in ns && x in logs && e in AllOf(logs[x]);
      assert logs'[x] == logs[x];
    }
  }

  // ---------- Frames ----------

  // Data the read path and the durability argument depend on is untouched.
  ghost predicate SameData(m: Memory, m': Memory) {
    && m'.heap == m.heap && m'.imm == m.imm && m'.logNumber == m.logNumber
    && m'.lastSequence == m.lastSequence && m'.current == m.current
  }

  // A step that leaves disk, memtables, version and sequences alone keeps the data part.
  lemma DataFrame(d: Disk, m: Memory, m': Memory, issued: set<Entry>, acked: set<Entry>)
    requires UpOk(d, m, issued, acked) && SameData(m, m')
    requires m'.leader == m.leader || (!m.leader.Writing? && !m'.leader.Writing?)
    requires m.nextFile <= m'.nextFile && Below(m'.pending, m'.nextFile)
    requires forall id :: id in m'.readers ==> id in m.readers && m'.readers[id] == m.readers[id]
    ensures NumbersOk(d, m') && MemOk(d, m', issued) && SequencesOk(d, m', issued)
    ensures LeaderOk(d, m') && AckedOk(d, m', acked) && ReadersOk(d, m', issued)
    ensures ReaderFiles(m') <= ReaderFiles(m)
  {
    assert ReaderFiles(m') <= ReaderFiles(m) by {
      forall n | n in ReaderFiles(m') ensures n in ReaderFiles(m) {
        var id :| id in m'.readers && n in m'.readers[id].version.files;
        assert id in m.readers;
      }
    }
    DataFrameNumbers(d, m, m');
    DataFrameReaders(d, m, m', issued);
    DataFrameCore(d, m, m', issued, acked);
  }

  lemma DataFrameCore(d: Disk, m: Memory, m': Memory, issued: set<Entry>, acked: set<Entry>)
    requires MemOk(d, m, issued) && SequencesOk(d, m, issued) && LeaderOk(d, m) && AckedOk(d, m, acked)
    requires SameData(m, m')
    requires m'.leader == m.leader || (!m.leader.Writing? && !m'.leader.Writing?)
    ensures MemOk(d, m', issued) && SequencesOk(d, m', issued) && LeaderOk(d, m') && AckedOk(d, m', acked)
  {
    assert MemOf(m') == MemOf(m) && ImmOf(m') == ImmOf(m) && Settled(d, m') == Settled(d, m);
    assert InFlight(m') == InFlight(m);
  }

  lemma DataFrameNumbers(d: Disk, m: Memory, m': Memory)
    requires NumbersOk(d, m) && SameData(m, m') && ReaderFiles(m') <= ReaderFiles(m)
    requires m.nextFile <= m'.nextFile && Below(m'.pending, m'.nextFile)
    ensures NumbersOk(d, m')
  {
  }

  lemma DataFrameReaders(d: Disk, m: Memory, m': Memory, issued: set<Entry>)
    requires ReadersOk(d, m, issued) && SameData(m, m')
    requires forall id :: id in m'.readers ==> id in m.readers && m'.readers[id] == m.readers[id]
    ensures ReadersOk(d, m', issued)
  {
    forall id | id in m'.readers ensures ReaderOk(d, m', m'.readers[id], issued) {
      assert ReaderOk(d, m, m.readers[id], issued);
      assert ReaderMem(m', m'.readers[id]) == ReaderMem(m, m.readers[id]);
      assert ReaderImm(m', m'.readers[id]) == ReaderImm(m, m.readers[id]);
    }
  }

  // What the background thread relies on: nothing it holds moves, sequences only grow.
  ghost predicate SameForJob(d: Disk, m: Memory, d': Disk, m': Memory) {
    && d'.tables == d.tables && d'.manifest == d.manifest
    && m'.current == m.current && m'.imm == m.imm && ImmOf(m') == ImmOf(m) && m'.logNumber == m.logNumber
    && m.lastSequence <= m'.lastSequence && m.nextFile <= m'.nextFile
    && m.pending <= m'.pending && ReaderFiles(m') <= ReaderFiles(m)
    && forall i :: 0 <= i < |m'.snapshots| ==> m'.snapshots[i] in m.snapshots || m'.snapshots[i] == m.lastSequence
  }

  lemma JobFrame(d: Disk, m: Memory, d': Disk, m': Memory)
    requires JobOk(d, m) && m'.job == m.job && SameForJob(d, m, d', m')
    ensures JobOk(d', m')
  {
    forall c | CompactionOk(d, m, c) ensures CompactionOk(d', m', c) {
      CompactionFrame(d, m, d', m', c);
    }
  }

  lemma CompactionFrame(d: Disk, m: Memory, d': Disk, m': Memory, c: Compaction)
    requires CompactionOk(d, m, c) && SameForJob(d, m, d', m')
    ensures CompactionOk(d', m', c)
  {
    forall i | 0 <= i < |m'.snapshots| ensures c.smallest <= m'.snapshots[i] {
      if m'.snapshots[i] in m.snapshots {
        var j :| 0 <= j < |m.snapshots| && m.snapshots[j] == m'.snapshots[i];
      }
    }
  }

  // ---------- Scheduling ----------

  // Ending a background call with no claim on the manifest left open.
  lemma FinishJobKeeps(d: Disk, m: Memory)
    requires !m.bgError ==> SameVersion(m.current, d.manifest)
    requires m.hasImm <==> m.imm.Some?
    ensures var m' := FinishJob(m);
      SameData(m, m') && JobOk(d, m') && ManifestOk(d, m') && FlagsOk(m')
        && m'.pending == m.pending && m'.nextFile == m.nextFile && m'.readers == m.readers
        && m'.snapshots == m.snapshots && m'.bgError == m.bgError
        && (m'.leader == m.leader || (m.leader.Asleep? && m'.leader.Free?))
  {
  }

  lemma SleepKeeps(s: State, s': State)
    requires Inv(s) && s.phase.Up? && SleepStep(s, s')
    ensures Inv(s')
  {
    hide DiskOk, VersionOk, MemOk, SequencesOk, LeaderOk, AckedOk, ReadersOk;
    var d, m, m' := s.disk, s.phase.m, s'.phase.m;
    DataFrame(d, m, m', s.issued, s.acked);
    JobFrame(d, m, d, m');
  }

  lemma SnapshotListKeeps(m: Memory, ev: Event, m': Memory)
    requires SnapshotsOk(m) && m.current.floor <= m.lastSequence
    requires m'.current == m.current && m'.lastSequence == m.lastSequence
    requires match ev
             case TakeSnapshot => m'.snapshots == m.snapshots + [m.lastSequence]
             case ReleaseSnapshot(i) => i < |m.snapshots| && m'.snapshots == m.snapshots[..i] + m.snapshots[i + 1..]
             case _ => false
    ensures SnapshotsOk(m')
    ensures forall i :: 0 <= i < |m'.snapshots| ==> m'.snapshots[i] in m.snapshots || m'.snapshots[i] == m.lastSequence
  {
    if ev.ReleaseSnapshot? {
      forall i | 0 <= i < |m'.snapshots| ensures m'.snapshots[i] == m.snapshots[if i < ev.index then i else i + 1] {}
    }
  }

  lemma SnapshotKeeps(s: State, ev: Event, s': State)
    requires Inv(s) && s.phase.Up? && (ev.TakeSnapshot? || ev.ReleaseSnapshot?) && SnapshotStep(s, ev, s')
    ensures Inv(s')
  {
    hide DiskOk, VersionOk, MemOk, LeaderOk, AckedOk, ReadersOk;
    var d, m, m' := s.disk, s.phase.m, s'.phase.m;
    SnapshotListKeeps(m, ev, m');
    DataFrame(d, m, m', s.issued, s.acked);
    JobFrame(d, m, d, m');
    assert ManifestOk(d, m') && FlagsOk(m');
  }

  lemma FlagKeeps(s: State, ev: Event, s': State)
    requires Inv(s) && s.phase.Up? && (ev.RequestManual? || ev.Shutdown?) && FlagStep(s, ev, s')
    ensures Inv(s')
  {
    hide DiskOk, VersionOk, MemOk, SequencesOk, LeaderOk, AckedOk, ReadersOk;
    var d, m, m' := s.disk, s.phase.m, s'.phase.m;
    DataFrame(d, m, m', s.issued, s.acked);
    if m'.job == m.job { JobFrame(d, m, d, m'); }
  }

  lemma Reschedule(d: Disk, m: Memory)
    requires JobOk(d, m) && ManifestOk(d, m) && (m.hasImm <==> m.imm.Some?)
    requires m.leader.Asleep? ==> !m.job.Idle? && !m.bgError
    ensures JobOk(d, MaybeSchedule(m)) && ManifestOk(d, MaybeSchedule(m)) && FlagsOk(MaybeSchedule(m))
  {
    if MaybeSchedule(m) != m { assert MaybeSchedule(m).job.Scheduled?; }
  }

  lemma EndReadKeeps(s: State, id: nat, seek: bool, s': State)
    requires Inv(s) && s.phase.Up? && ReadStep(s, EndRead(id, seek), s')
    ensures Inv(s')
  {
    hide DiskOk, VersionOk, MemOk, SequencesOk, LeaderOk, AckedOk, ReadersOk, JobOk, ManifestOk, FlagsOk, SnapshotsOk;
    var d, m, m' := s.disk, s.phase.m, s'.phase.m;
    DataFrame(d, m, m', s.issued, s.acked);
    EndReadJob(d, m, id, seek, m');
  }

  lemma EndReadJob(d: Disk, m: Memory, id: nat, seek: bool, m': Memory)
    requires JobOk(d, m) && ManifestOk(d, m) && FlagsOk(m) && SnapshotsOk(m)
    requires m' == var m1 := m.(readers := m.readers - {id}); if seek then MaybeSchedule(m1.(needs := true)) else m1
    requires ReaderFiles(m') <= ReaderFiles(m)
    ensures JobOk(d, m') && ManifestOk(d, m') && FlagsOk(m') && SnapshotsOk(m')
  {
    var m1 := m.(readers := m.readers - {id}, needs := m.needs || seek);
    assert ReaderFiles(m1) == ReaderFiles(m');
    forall i | 0 <= i < |m1.snapshots| ensures m1.snapshots[i] in m.snapshots {}
    JobFrame(d, m, d, m1);
    assert ManifestOk(d, m1);
    if seek { Reschedule(d, m1); }
  }

  lemma BeginReadKeeps(s: State, id: nat, snap: Sequence, s': State)
    requires Inv(s) && s.phase.Up? && ReadStep(s, BeginRead(id, snap), s')
    ensures Inv(s')
  {
    hide DiskOk, VersionOk, MemOk, SequencesOk, LeaderOk, AckedOk, ReadersOk, JobOk;
    var d, m, m' := s.disk, s.phase.m, s'.phase.m;
    NewReaderOk(d, m, snap, s.issued);
    AddReader(d, m, id, Reader(snap, m.logNumber, m.imm, m.current), m', s.issued);
    DataFrameCore(d, m, m', s.issued, s.acked);
    BeginReadJob(d, m, m');
    assert SnapshotsOk(m') && ManifestOk(d, m') && FlagsOk(m');
  }

  lemma AddReader(d: Disk, m: Memory, id: nat, r: Reader, m': Memory, issued: set<Entry>)
    requires id !in m.readers && m' == m.(readers := m.readers[id := r]) && r.version == m.current
    requires ReadersOk(d, m, issued) && NumbersOk(d, m) && ReaderOk(d, m, r, issued)
    ensures ReaderFiles(m') == ReaderFiles(m) + m.current.files
    ensures ReadersOk(d, m', issued) && NumbersOk(d, m')
  {
    assert ReaderFiles(m') == ReaderFiles(m) + m.current.files by {
      forall n | n in ReaderFiles(m) ensures n in ReaderFiles(m') {
        var x :| x in m.readers && n in m.readers[x].version.files;
        assert m'.readers[x] == m.readers[x];
      }
      forall n | n in m.current.files ensures n in ReaderFiles(m') { assert m'.readers[id] == r; }
    }
    forall x | x in m'.readers ensures ReaderOk(d, m', m'.readers[x], issued) {
      assert ReaderMem(m', m'.readers[x]) == ReaderMem(m, m'.readers[x]);
      assert ReaderImm(m', m'.readers[x]) == ReaderImm(m, m'.readers[x]);
      if x != id { assert ReaderOk(d, m, m.readers[x], issued); }
    }
  }

  lemma NewReaderOk(d: Disk, m: Memory, snap: Sequence, issued: set<Entry>)
    requires VersionOk(d.tables, m.current, issued) && NumbersOk(d, m) && MemOk(d, m, issued) &&
        SequencesOk(d, m, issued)
    requires SnapshotsOk(m) && (snap == m.lastSequence || snap in m.snapshots)
    ensures ReaderOk(d, m, Reader(snap, m.logNumber, m.imm, m.current), issued)
  {
    var r := Reader(snap, m.logNumber, m.imm, m.current);
    assert ReaderImm(m, r) == ImmOf(m) && ReaderMem(m, r) == MemOf(m);
    ImmSettled(d, m, issued);
  }

  // The immutable memtable's entries are settled, and newer than what the tables absorbed.
  lemma ImmSettled(d: Disk, m: Memory, issued: set<Entry>)
    requires MemOk(d, m, issued) && SequencesOk(d, m, issued)
    ensures ImmOf(m) <= Settled(d, m)
    ensures Older(m.current.absorbed, ImmOf(m))
    ensures Older(m.current.absorbed + ImmOf(m), MemOf(m))
    ensures Bounded(m.current.absorbed + ImmOf(m), m.lastSequence)
  {
    if m.imm.Some? {
      var n := m.imm.value;
      forall e | e in ImmOf(m)
        ensures e in LogEntries(d.logs, LogsFrom(d.logs, m.current.logNumber) - {m.logNumber})
        ensures e in LogEntries(d.logs, LogsFrom(d.logs, m.current.logNumber))
      {
        assert e in AllOf(d.logs[n]) && n in LogsFrom(d.logs, m.current.logNumber) - {m.logNumber};
      }
    }
  }

  lemma BeginReadJob(d: Disk, m: Memory, m': Memory)
    requires JobOk(d, m) && SameData(m, m') && m'.job == m.job && m'.snapshots == m.snapshots
    requires m'.nextFile == m.nextFile && m'.pending == m.pending
    requires ReaderFiles(m') == ReaderFiles(m) + m.current.files
    ensures JobOk(d, m')
  {
    assert ImmOf(m') == ImmOf(m);
    forall c | CompactionOk(d, m, c) ensures CompactionOk(d, m', c) {}
  }

  // ---------- The background thread's light steps ----------

  lemma BeginFlushJob(d: Disk, m: Memory, outer: Option<Compaction>)
    requires NumbersOk(d, m) && m.imm.Some? && OuterOk(d, m, outer)
    requires outer.Some? ==> Below(outer.value.outputs, m.nextFile)
    ensures JobOk(d, BeginFlush(m, outer))
  {
    var m' := BeginFlush(m, outer);
    assert ReaderFiles(m') == ReaderFiles(m);
    if outer.Some? { CompactionFrame(d, m, d, m', outer.value); }
  }

  lemma FlushInsideKeeps(s: State, s': State)
    requires Inv(s) && s.phase.Up? && FlushInsideStep(s, s')
    ensures Inv(s')
  {
    hide DiskOk, VersionOk, MemOk, SequencesOk, LeaderOk, AckedOk, ReadersOk;
    var d, m, m' := s.disk, s.phase.m, s'.phase.m;
    DataFrame(d, m, m', s.issued, s.acked);
    assert m.job.c.outputs <= m.pending;
    BeginFlushJob(d, m, Some(m.job.c));
  }

  lemma OpenOutputKeeps(s: State, s': State)
    requires Inv(s) && s.phase.Up? && OpenOutputStep(s, s')
    ensures Inv(s')
  {
    hide DiskOk, VersionOk, MemOk, SequencesOk, LeaderOk, AckedOk, ReadersOk;
    var d, m, m' := s.disk, s.phase.m, s'.phase.m;
    DataFrame(d, m, m', s.issued, s.acked);
    OpenOutputJob(d, m, m');
  }

  lemma OpenOutputJob(d: Disk, m: Memory, m': Memory)
    requires JobOk(d, m) && NumbersOk(d, m) && m.job.Compacting? && SameData(m, m')
    requires m'.readers == m.readers && m'.snapshots == m.snapshots && m'.pending == m.pending + {m.nextFile}
    requires m'.job == Compacting(m.job.c.(outputs := m.job.c.outputs + {m.nextFile}))
    ensures JobOk(d, m')
  {
    assert ReaderFiles(m') == ReaderFiles(m);
    var c, c' := m.job.c, m'.job.c;
    assert UncoversNothing(d.tables, m.current.files, c) ==> UncoversNothing(d.tables, m.current.files, c');
    assert UncoversNothing(d.tables, d.manifest.files, c) ==> UncoversNothing(d.tables, d.manifest.files, c');
  }

  lemma BackgroundJob(d: Disk, m: Memory, s': State, pick: Pick, s: State)
    requires s.phase.Up? && BackgroundStep(s, pick, s') && SafePick(s, Background(pick)) && d == s.disk &&
        m == s.phase.m
    requires NumbersOk(d, m) && SequencesOk(d, m, s.issued) && SnapshotsOk(m) &&
        JobOk(d, m) && ManifestOk(d, m) && FlagsOk(m)
    requires d.manifest.floor <= d.manifest.lastSequence
    ensures s'.phase.Up?
    ensures var m' := s'.phase.m;
      && JobOk(d, m') && ManifestOk(d, m') && FlagsOk(m') && SameData(m, m') && m'.snapshots == m.snapshots
      && (m'.leader == m.leader || (!m.leader.Writing? && !m'.leader.Writing?))
      && m'.readers == m.readers && m.nextFile <= m'.nextFile && Below(m'.pending, m'.nextFile)
  {
    hide SequencesOk;
    var m' := s'.phase.m;
    if m.shutdown || m.bgError {
      FinishJobKeeps(d, m);
    } else if m.imm.Some? {
      BeginFlushJob(d, m, None);
    } else if pick.PickNothing? {
      FinishJobKeeps(d, m.(manual := false, needs := m.needs && m.manual));
    } else {
      BackgroundPick(d, m, m', s.issued);
    }
  }

  lemma BackgroundKeeps(s: State, pick: Pick, s': State)
    requires Inv(s) && s.phase.Up? && BackgroundStep(s, pick, s') && SafePick(s, Background(pick))
    ensures Inv(s')
  {
    var d, m := s.disk, s.phase.m;
    FloorBelowLast(d, s.issued, s.acked);
    hide DiskOk, VersionOk, NumbersOk, MemOk, SequencesOk, LeaderOk, AckedOk, ReadersOk, JobOk, ManifestOk, FlagsOk;
    BackgroundJob(d, m, s', pick, s);
    DataFrame(d, m, s'.phase.m, s.issued, s.acked);
  }

  lemma FloorBelowLast(d: Disk, issued: set<Entry>, acked: set<Entry>)
    requires DiskOk(d, issued, acked)
    ensures d.manifest.floor <= d.manifest.lastSequence
  {
  }

  lemma BackgroundPick(d: Disk, m: Memory, m': Memory, issued: set<Entry>)
    requires NumbersOk(d, m) && SequencesOk(d, m, issued) && SnapshotsOk(m)
    requires SameVersion(m.current, d.manifest) && d.manifest.floor <= d.manifest.lastSequence
    requires m' == m.(job := m'.job)
    requires || m'.job == Logging(PlainEdit(m, {}, {}, 0), Move)
             || (m'.job.Compacting? && MergeOk(d, m, m'.job.c) && UncoversNothing(d.tables, m.current.files, m'.job.c))
    ensures JobOk(d, m')
  {
    assert ReaderFiles(m') == ReaderFiles(m);
  }
}
