// Steps of the background thread that write tables and the manifest, install versions
// and collect garbage keep the engine invariant.
module EngineTables {
  import opened InternalKeys
  import opened Views
  import opened CompactionModel
  import opened Engine
  import opened EngineInvariant
  import opened EngineWrites
  import opened EngineLogSteps

  // ---------- Table files ----------

  ghost predicate SameTables(t: map<nat, set<Entry>>, t': map<nat, set<Entry>>, files: set<nat>) {
    forall n :: n in files && n in t ==> n in t' && t'[n] == t[n]
  }

  lemma EntriesFrame(t: map<nat, set<Entry>>, t': map<nat, set<Entry>>, files: set<nat>)
    requires files <= t.Keys && SameTables(t, t', files)
    ensures Entries(t', files) == Entries(t, files) && files <= t'.Keys
  {
    forall e | e in Entries(t, files) ensures e in Entries(t', files) {
      var n :| n in files && n in t && e in t[n];
      assert n in t';
    }
  }

  lemma EntriesUnion(t: map<nat, set<Entry>>, a: set<nat>, b: set<nat>)
    ensures Entries(t, a + b) == Entries(t, a) + Entries(t, b)
  {
    forall e | e in Entries(t, a) + Entries(t, b) ensures e in Entries(t, a + b) {
      var n :| n in a + b && n in t && e in t[n];
    }
  }

  lemma VersionFrame(t: map<nat, set<Entry>>, t': map<nat, set<Entry>>, v: Version, issued: set<Entry>)
    requires VersionOk(t, v, issued) && SameTables(t, t', v.files)
    ensures VersionOk(t', v, issued) && CompactedAway(t', v) == CompactedAway(t, v)
  {
    EntriesFrame(t, t', v.files);
  }

  // Tables that no version in use refers to may come, go and change.
  ghost predicate Untouched(d: Disk, m: Memory, t': map<nat, set<Entry>>) {
    SameTables(d.tables, t', m.current.files + d.manifest.files + ReaderFiles(m))
  }

  lemma TablesData(d: Disk, m: Memory, t': map<nat, set<Entry>>, issued: set<Entry>, acked: set<Entry>)
    requires DiskOk(d, issued, acked) && VersionOk(d.tables, m.current, issued) && Untouched(d, m, t')
    requires SequencesOk(d, m, issued) && MemOk(d, m, issued) && NumbersOk(d, m)
    ensures var d' := d.(tables := t');
      && DiskOk(d', issued, acked) && VersionOk(t', m.current, issued)
      && SequencesOk(d', m, issued) && MemOk(d', m, issued) && NumbersOk(d', m)
  {
    var d' := d.(tables := t');
    VersionFrame(d.tables, t', d.manifest, issued);
    VersionFrame(d.tables, t', m.current, issued);
    assert Replayed(d') == Replayed(d);
    assert LastLogNewest(d');
    forall e | e in acked ensures Durable(d', e) { assert Durable(d, e); }
    assert Settled(d', m) == Settled(d, m);
  }

  lemma TablesReaders(d: Disk, m: Memory, d': Disk, m': Memory, issued: set<Entry>)
    requires ReadersOk(d, m, issued) && SameTables(d.tables, d'.tables, ReaderFiles(m))
    requires m'.readers == m.readers && m'.heap == m.heap && m'.logNumber == m.logNumber
    requires m'.lastSequence == m.lastSequence
    ensures ReadersOk(d', m', issued)
  {
    forall id | id in m'.readers ensures ReaderOk(d', m', m'.readers[id], issued) {
      var r := m.readers[id];
      assert ReaderOk(d, m, r, issued);
      assert forall n :: n in r.version.files ==> n in ReaderFiles(m);
      VersionFrame(d.tables, d'.tables, r.version, issued);
      assert ReaderMem(m', r) == ReaderMem(m, r) && ReaderImm(m', r) == ReaderImm(m, r);
    }
  }

  lemma ClosedFrame(t: map<nat, set<Entry>>, t': map<nat, set<Entry>>, files: set<nat>, c: Compaction)
    requires files <= t.Keys && c.inputs <= files && SameTables(t, t', files) && UncoversNothing(t, files, c)
    ensures UncoversNothing(t', files, c)
  {
    EntriesFrame(t, t', c.inputs);
    EntriesFrame(t, t', files - c.inputs);
  }

  lemma TablesCompaction(d: Disk, m: Memory, d': Disk, m': Memory, c: Compaction)
    requires CompactionOk(d, m, c) && CompactionOpen(d, c) && Covers(d.manifest, m.current)
    requires m.current.files <= d.tables.Keys && d.manifest.files <= d.tables.Keys
    requires SameTables(d.tables, d'.tables, m.current.files + d.manifest.files)
    requires d'.manifest == d.manifest && m'.current == m.current && m'.snapshots == m.snapshots
    requires m'.readers == m.readers && m'.lastSequence == m.lastSequence && c.outputs <= m'.pending
    ensures CompactionOk(d', m', c) && CompactionOpen(d', c)
  {
    ClosedFrame(d.tables, d'.tables, m.current.files, c);
    ClosedFrame(d.tables, d'.tables, d.manifest.files, c);
    assert ReaderFiles(m') == ReaderFiles(m);
  }

  // A step that only rewrites unused tables, protections and the job.
  lemma TablesKeep(d: Disk, m: Memory, d': Disk, m': Memory, issued: set<Entry>, acked: set<Entry>)
    requires UpOk(d, m, issued, acked) && d' == d.(tables := d'.tables) && Untouched(d, m, d'.tables)
    requires SameData(m, m') && m'.readers == m.readers && m'.nextFile == m.nextFile
    requires m'.pending <= m.pending && m'.snapshots == m.snapshots
    requires m'.leader == m.leader || (!m.leader.Writing? && !m'.leader.Writing?)
    requires JobOk(d', m') && ManifestOk(d', m') && FlagsOk(m')
    ensures UpOk(d', m', issued, acked)
  {
    hide DiskOk, VersionOk, MemOk, SequencesOk, ReadersOk, JobOk, ManifestOk, FlagsOk;
    TablesData(d, m, d'.tables, issued, acked);
    TablesReaders(d, m, d', m', issued);
    assert ReaderFiles(m') == ReaderFiles(m);
    DataFrameNumbers(d', m, m');
    assert LeaderOk(d', m) && AckedOk(d', m, acked);
    DataFrameCore(d', m, m', issued, acked);
  }

  // ---------- Building the level-0 table ----------

  lemma FlushEditOk(d: Disk, m: Memory, d': Disk, m': Memory, num: nat, issued: set<Entry>)
    requires NumbersOk(d, m) && MemOk(d, m, issued) && SequencesOk(d, m, issued) && m.imm.Some?
    requires num in m.pending && d.manifest.floor <= d.manifest.lastSequence
    requires d' == d.(tables := d'.tables) && (ImmOf(m) != {} ==> num in d'.tables && d'.tables[num] == ImmOf(m))
    requires SameData(m, m') && m'.nextFile == m.nextFile
    requires m'.job.Logging? && m'.job.purpose.Flush?
    requires m'.job.edit == Edit({}, if ImmOf(m) != {} then {num} else {},
        m.logNumber, m.lastSequence, m.nextFile, ImmOf(m), 0)
    requires OuterOk(d', m', m'.job.purpose.outer)
    requires m'.job.purpose.outer.Some? ==> num !in m'.job.purpose.outer.value.outputs
    ensures JobOk(d', m')
  {
    ImmSettled(d, m, issued);
    assert ImmOf(m') == ImmOf(m);
    var ed := m'.job.edit;
    assert num < m.nextFile;
    if ImmOf(m) != {} {
      forall e | e in ImmOf(m) ensures e in Entries(d'.tables, ed.add) { assert num in ed.add; }
    }
    assert Entries(d'.tables, ed.add) == ImmOf(m);
  }

  lemma AfterFlushFails(d: Disk, m: Memory, outer: Option<Compaction>)
    requires outer.Some? ==> CompactionOk(d, m, outer.value) && CompactionOpen(d, outer.value)
    requires Covers(d.manifest, m.current) && (m.hasImm <==> m.imm.Some?) && m.bgError && !m.leader.Asleep?
    ensures var m' := AfterFlush(m, outer);
      && JobOk(d, m') && ManifestOk(d, m') && FlagsOk(m') && SameData(m, m') && m'.pending == m.pending
      && m'.readers == m.readers && m'.nextFile == m.nextFile && m'.snapshots == m.snapshots && m'.leader == m.leader
  {
    var m' := AfterFlush(m, outer);
    if outer.Some? {
      assert ReaderFiles(m') == ReaderFiles(m);
      assert CompactionOk(d, m', outer.value);
    } else {
      FinishJobKeeps(d, m);
    }
  }

  ghost predicate Building(d: Disk, m: Memory, d': Disk) {
    && JobOk(d, m) && ManifestOk(d, m) && FlagsOk(m) && m.job.Flushing?
    && m.current.files <= d.tables.Keys && d.manifest.files <= d.tables.Keys
    && d' == d.(tables := d'.tables)
    && forall n :: n != m.job.num && n in d.tables ==> n in d'.tables && d'.tables[n] == d.tables[n]
  }

  lemma BuildTableDone(d: Disk, m: Memory, d': Disk, m': Memory, issued: set<Entry>)
    requires NumbersOk(d, m) && MemOk(d, m, issued) && SequencesOk(d, m, issued)
    requires d.manifest.floor <= d.manifest.lastSequence
    requires Building(d, m, d') && (ImmOf(m) != {} ==> m.job.num in d'.tables && d'.tables[m.job.num] == ImmOf(m))
    requires m' == m.(pending := m.pending - {m.job.num},
      job := Logging(Edit({}, if ImmOf(m) != {} then {m.job.num} else {}, m.logNumber, m.lastSequence,
                          m.nextFile, ImmOf(m), 0), Flush(m.job.outer)))
    ensures JobOk(d', m') && ManifestOk(d', m')
  {
    assert ReaderFiles(m') == ReaderFiles(m);
    if m.job.outer.Some? { TablesCompaction(d, m, d', m', m.job.outer.value); }
    FlushEditOk(d, m, d', m', m.job.num, issued);
  }

  lemma FailedFlushOuter(d: Disk, m: Memory, d': Disk, m2: Memory)
    requires Building(d, m, d')
    requires m2.current == m.current && m2.snapshots == m.snapshots && m2.readers == m.readers
    requires m2.lastSequence == m.lastSequence && m2.pending == m.pending - {m.job.num}
    ensures Covers(d'.manifest, m2.current)
    ensures m.job.outer.Some? ==> CompactionOk(d', m2, m.job.outer.value) && CompactionOpen(d', m.job.outer.value)
  {
    if m.job.outer.Some? {
      var c := m.job.outer.value;
      assert c.outputs <= m.pending && m.job.num !in c.outputs;
      TablesCompaction(d, m, d', m2, c);
    }
  }

  lemma BuildTableFailed(d: Disk, m: Memory, d': Disk, m': Memory)
    requires Building(d, m, d')
    requires m' == AfterFlush(RecordBackgroundError(m.(pending := m.pending - {m.job.num})), m.job.outer)
    ensures JobOk(d', m') && ManifestOk(d', m') && FlagsOk(m') && SameData(m, m') &&
        m'.pending == m.pending - {m.job.num}
    ensures m'.readers == m.readers && m'.nextFile == m.nextFile && m'.snapshots == m.snapshots
    ensures m'.leader == m.leader || (!m.leader.Writing? && !m'.leader.Writing?)
  {
    var m2 := RecordBackgroundError(m.(pending := m.pending - {m.job.num}));
    assert m2 == m.(pending := m.pending - {m.job.num}, bgError := true,
                    leader := if m.leader.Asleep? then Free else m.leader);
    FailedFlushOuter(d, m, d', m2);
    AfterFlushFails(d', m2, m.job.outer);
  }

  lemma BuildTableKeeps(s: State, ok: bool, s': State)
    requires Inv(s) && s.phase.Up? && BuildTableStep(s, ok, s')
    ensures Inv(s')
  {
    hide MemOk, SequencesOk, LeaderOk, AckedOk, ReadersOk;
    var d, m, d', m' := s.disk, s.phase.m, s'.disk, s'.phase.m;
    assert Building(d, m, d');
    assert Untouched(d, m, d'.tables);
    if ok && !m.shutdown {
      BuildTableDone(d, m, d', m', s.issued);
    } else {
      BuildTableFailed(d, m, d', m');
    }
    TablesKeep(d, m, d', m', s.issued, s.acked);
  }

  // ---------- Merging ----------

  lemma WriteOutputKeeps(s: State, num: nat, es: set<Entry>, s': State)
    requires Inv(s) && s.phase.Up? && WriteOutputStep(s, num, es, s')
    ensures Inv(s')
  {
    var d, m, d' := s.disk, s.phase.m, s'.disk;
    var c := m.job.c;
    assert Untouched(d, m, d'.tables);
    TablesCompaction(d, m, d', m, c);
    TablesKeep(d, m, d', m, s.issued, s.acked);
  }

  lemma EndCompactionKeeps(d: Disk, m: Memory, c: Compaction)
    requires !m.bgError ==> SameVersion(m.current, d.manifest)
    requires m.hasImm <==> m.imm.Some?
    ensures var m' := EndCompaction(m, c);
      && JobOk(d, m') && ManifestOk(d, m') && FlagsOk(m') && SameData(m, m')
      && m'.pending == m.pending - c.outputs && m'.readers == m.readers && m'.nextFile == m.nextFile
      && m'.snapshots == m.snapshots && m'.bgError == m.bgError
      && (m'.leader == m.leader || (m.leader.Asleep? && m'.leader.Free?))
  {
    FinishJobKeeps(d, m.(pending := m.pending - c.outputs, manual := m.manual && !c.manual));
  }

  lemma FinishMergeKeeps(s: State, ok: bool, s': State)
    requires Inv(s) && s.phase.Up? && FinishMergeStep(s, ok, s')
    ensures Inv(s')
  {
    var d, m, m' := s.disk, s.phase.m, s'.phase.m;
    FloorBelowLast(d, s.issued, s.acked);
    hide DiskOk, VersionOk, NumbersOk, MemOk, SequencesOk, LeaderOk, AckedOk, ReadersOk, JobOk, CompactionOk;
    if ok && !m.shutdown {
      FinishMergeJob(d, m, m', s.issued);
    } else {
      ErrorShape(m);
      EndCompactionKeeps(d, RecordBackgroundError(m), m.job.c);
    }
    TablesKeep(d, m, d, m', s.issued, s.acked);
  }

  lemma ErrorShape(m: Memory)
    ensures var m1 := RecordBackgroundError(m);
      && m1 == m.(bgError := true, leader := m1.leader)
      && (m1.leader == m.leader || (m.leader.Asleep? && m1.leader.Free?))
  {
  }

  lemma FinishMergeJob(d: Disk, m: Memory, m': Memory, issued: set<Entry>)
    requires NumbersOk(d, m) && SequencesOk(d, m, issued) && JobOk(d, m) && m.job.Compacting?
    requires d.manifest.floor <= d.manifest.lastSequence && ManifestOk(d, m)
    requires var c := m.job.c;
      && c.outputs <= d.tables.Keys
      && Entries(d.tables, c.outputs) == Survivors(Entries(d.tables, c.inputs), c.smallest, BaseLevel(c.deeper))
      && m' == m.(job := Logging(PlainEdit(m, c.inputs, c.outputs, c.smallest), Compact(c)))
    ensures JobOk(d, m') && ManifestOk(d, m')
  {
    assert ReaderFiles(m') == ReaderFiles(m);
    assert CompactionOk(d, m', m.job.c);
  }

  // ---------- What an edit makes of a version ----------

  lemma FlushVersion(t: map<nat, set<Entry>>, v: Version, ed: Edit, issued: set<Entry>)
    requires VersionOk(t, v, issued) && OneEntryPerSequence(issued) && ed.absorb <= issued
    requires ed.del == {} && ed.floor == 0 && ed.add <= t.Keys && Entries(t, ed.add) == ed.absorb
    requires Older(CompactedAway(t, v), ed.absorb)
    ensures VersionOk(t, Apply(v, ed), issued)
    ensures CompactedAway(t, Apply(v, ed)) <= CompactedAway(t, v)
  {
    assert v.files - ed.del + ed.add == v.files + ed.add;
    EntriesUnion(t, v.files, ed.add);
    AddAlike(Entries(t, v.files), v.absorbed, ed.absorb, v.floor);
  }

  // What a merge makes of the files of a version.
  lemma MergedFiles(t: map<nat, set<Entry>>, v: Version, ed: Edit, c: Compaction)
    requires c.inputs <= v.files && c.outputs <= t.Keys && ed.del == c.inputs && ed.add == c.outputs
    requires Entries(t, c.outputs) == Survivors(Entries(t, c.inputs), c.smallest, BaseLevel(c.deeper))
    ensures Entries(t, v.files) == Entries(t, c.inputs) + Entries(t, v.files - c.inputs)
    ensures Entries(t, Apply(v, ed).files)
      == Survivors(Entries(t, c.inputs), c.smallest, BaseLevel(c.deeper)) + Entries(t, v.files - c.inputs)
  {
    assert c.inputs + (v.files - c.inputs) == v.files;
    EntriesUnion(t, c.inputs, v.files - c.inputs);
    EntriesUnion(t, v.files - c.inputs, c.outputs);
  }

  // Installing a merge changes no read of the version's tables from the smallest snapshot on if
  // and only if it uncovers nothing.
  lemma MergeReadsIff(t: map<nat, set<Entry>>, v: Version, ed: Edit, c: Compaction, issued: set<Entry>)
    requires VersionOk(t, v, issued) && OneEntryPerSequence(issued)
    requires c.inputs <= v.files && c.outputs <= t.Keys && ed.del == c.inputs && ed.add == c.outputs
    requires Entries(t, c.outputs) == Survivors(Entries(t, c.inputs), c.smallest, BaseLevel(c.deeper))
    ensures SameFrom(Entries(t, v.files), Entries(t, Apply(v, ed).files), c.smallest) <==>
        UncoversNothing(t, v.files, c)
  {
    MergedFiles(t, v, ed, c);
    ReadsKeptIff(Entries(t, c.inputs), Entries(t, v.files - c.inputs), c.smallest, BaseLevel(c.deeper));
  }

  lemma MergeVersion(t: map<nat, set<Entry>>, v: Version, ed: Edit, c: Compaction, issued: set<Entry>)
    requires VersionOk(t, v, issued) && OneEntryPerSequence(issued)
    requires c.inputs <= v.files && UncoversNothing(t, v.files, c) && c.outputs <= t.Keys
    requires Entries(t, c.outputs) == Survivors(Entries(t, c.inputs), c.smallest, BaseLevel(c.deeper))
    requires ed.del == c.inputs && ed.add == c.outputs && ed.floor == c.smallest && ed.absorb == {}
    ensures VersionOk(t, Apply(v, ed), issued)
    ensures CompactedAway(t, Apply(v, ed)) <= CompactedAway(t, v) + Entries(t, c.inputs)
  {
    MergedFiles(t, v, ed, c);
    MergeReadsIff(t, v, ed, c, issued);
    SameFromTransitive(v.absorbed, Entries(t, v.files), Entries(t, Apply(v, ed).files), v.floor, c.smallest,
                       Max(v.floor, c.smallest));
    assert v.absorbed + ed.absorb == v.absorbed;
  }

  // A flushed table gives an interrupted compaction nothing to uncover.
  lemma ClosedAfterFlush(t: map<nat, set<Entry>>, files: set<nat>, add: set<nat>, c: Compaction)
    requires UncoversNothing(t, files, c) && c.inputs <= files && Older(Entries(t, c.inputs), Entries(t, add))
    ensures UncoversNothing(t, files + add, c)
  {
    var ins, others, base := Entries(t, c.inputs), Entries(t, files - c.inputs), BaseLevel(c.deeper);
    var more := add - c.inputs;
    EntriesUnion(t, files - c.inputs, more);
    assert files + add - c.inputs == (files - c.inputs) + more;
    forall e | e in Entries(t, more) ensures e in Entries(t, add) {
      var n :| n in more && n in t && e in t[n];
    }
    forall e ensures !Uncovers(ins, others + Entries(t, more), c.smallest, base, e) {
      if Uncovers(ins, others + Entries(t, more), c.smallest, base, e) {
        NewTableUncovers(ins, others, Entries(t, more), c.smallest, base, e);
      }
    }
  }

  // Newer entries cannot be what a marker uncovers.
  lemma NewTableUncovers(ins: set<Entry>, others: set<Entry>, more: set<Entry>, smallest: Sequence, base: iset<UserKey>,
                         e: Entry)
    requires Uncovers(ins, others + more, smallest, base, e) && Older(ins, more)
    ensures Uncovers(ins, others, smallest, base, e)
  {
    var o :| NewestIn(others + more, e.key, smallest, o) && o.kind.Put?;
    assert o in others && NewestIn(others, e.key, smallest, o);
  }

  lemma InputsAbsorbed(t: map<nat, set<Entry>>, v: Version, c: Compaction, issued: set<Entry>)
    requires VersionOk(t, v, issued) && c.inputs <= v.files
    ensures Entries(t, c.inputs) <= v.absorbed
  {
    assert v.files == c.inputs + (v.files - c.inputs);
    EntriesUnion(t, c.inputs, v.files - c.inputs);
  }

  // ---------- Writing the manifest ----------

  // The manifest part of the invariant, for a manifest that moved while the rest stood still.
  lemma ManifestMoves(d: Disk, m: Memory, w: Version, issued: set<Entry>, acked: set<Entry>)
    requires DiskOk(d, issued, acked) && VersionOk(d.tables, w, issued)
    requires NumbersOk(d, m) && MemOk(d, m, issued) && SequencesOk(d, m, issued)
    requires m.current.logNumber <= w.logNumber <= m.logNumber && Below(w.files, m.nextFile) &&
        Below(w.files, w.nextFile)
    requires Bounded(w.absorbed, w.lastSequence) && w.lastSequence <= m.lastSequence && w.floor <= w.lastSequence
    requires w.absorbed <= Settled(d, m)
    requires Older(CompactedAway(d.tables, w), LogEntries(d.logs, LogsFrom(d.logs, m.current.logNumber)))
    requires forall e :: e in acked ==> Durable(d.(manifest := w), e)
    ensures var d' := d.(manifest := w);
      DiskOk(d', issued, acked) && NumbersOk(d', m) && MemOk(d', m, issued) && SequencesOk(d', m, issued)
  {
    hide VersionOk;
    var d' := d.(manifest := w);
    ManifestRunning(d, m, w, issued);
    NewestFromSettled(d', m, issued);
    TailWithin(d', m);
    hide NumbersOk, SequencesOk, LastLogNewest;
  }

  lemma ManifestRunning(d: Disk, m: Memory, w: Version, issued: set<Entry>)
    requires NumbersOk(d, m) && MemOk(d, m, issued) && SequencesOk(d, m, issued)
    requires m.current.logNumber <= w.logNumber <= m.logNumber && Below(w.files, m.nextFile)
    requires w.lastSequence <= m.lastSequence && w.absorbed <= Settled(d, m)
    requires Older(CompactedAway(d.tables, w), LogEntries(d.logs, LogsFrom(d.logs, m.current.logNumber)))
    ensures var d' := d.(manifest := w); NumbersOk(d', m) && MemOk(d', m, issued) && SequencesOk(d', m, issued)
  {
    var d' := d.(manifest := w);
    assert Settled(d', m) <= Settled(d, m);
  }

  lemma FlushDurable(d: Disk, m: Memory, ed: Edit, acked: set<Entry>)
    requires AckedOk(d, m, acked) && Covers(d.manifest, m.current) && m.logNumber in d.logs
    requires ed.absorb == ImmOf(m) && ed.logNumber == m.logNumber
    ensures forall e :: e in acked ==> Durable(d.(manifest := Apply(d.manifest, ed)), e)
  {
    var d' := d.(manifest := Apply(d.manifest, ed));
    forall e | e in acked ensures Durable(d', e) {
      if e !in m.current.absorbed && e !in ImmOf(m) { assert e in SyncedOf(d'.logs[m.logNumber]); }
    }
  }

  lemma RewriteDurable(d: Disk, w: Version, acked: set<Entry>)
    requires forall e :: e in acked ==> Durable(d, e)
    requires d.manifest.absorbed <= w.absorbed && w.logNumber <= d.manifest.logNumber
    ensures forall e :: e in acked ==> Durable(d.(manifest := w), e)
  {
    var d' := d.(manifest := w);
    forall e | e in acked ensures Durable(d', e) {
      assert Durable(d, e);
      if e !in w.absorbed {
        var n :| n in d.logs && n >= d.manifest.logNumber && e in SyncedOf(d.logs[n]);
        assert n in d'.logs && n >= w.logNumber;
      }
    }
  }

  lemma WriteFlush(d: Disk, m: Memory, issued: set<Entry>, acked: set<Entry>)
    requires DiskOk(d, issued, acked) && VersionOk(d.tables, m.current, issued)
    requires NumbersOk(d, m) && MemOk(d, m, issued) && SequencesOk(d, m, issued) && AckedOk(d, m, acked)
    requires m.job.Logging? && m.job.purpose.Flush? && JobOk(d, m) && ManifestOk(d, m)
    ensures var d' := d.(manifest := Apply(d.manifest, m.job.edit));
      DiskOk(d', issued, acked) && NumbersOk(d', m) && MemOk(d', m, issued) && SequencesOk(d', m, issued)
  {
    var ed := m.job.edit;
    ImmSettled(d, m, issued);
    ImmInTail(d, m, issued);
    FlushVersion(d.tables, d.manifest, ed, issued);
    FlushDurable(d, m, ed, acked);
    ManifestMoves(d, m, Apply(d.manifest, ed), issued, acked);
  }

  lemma ImmInTail(d: Disk, m: Memory, issued: set<Entry>)
    requires MemOk(d, m, issued)
    ensures ImmOf(m) <= LogEntries(d.logs, LogsFrom(d.logs, m.current.logNumber)) && ImmOf(m) <= issued
  {
    if m.imm.Some? {
      forall e | e in ImmOf(m) ensures e in LogEntries(d.logs, LogsFrom(d.logs, m.current.logNumber)) {
        assert m.imm.value in LogsFrom(d.logs, m.current.logNumber) && e in AllOf(d.logs[m.imm.value]);
      }
    }
  }

  lemma WriteMerge(d: Disk, m: Memory, issued: set<Entry>, acked: set<Entry>)
    requires DiskOk(d, issued, acked) && VersionOk(d.tables, m.current, issued)
    requires NumbersOk(d, m) && MemOk(d, m, issued) && SequencesOk(d, m, issued)
    requires m.job.Logging? && m.job.purpose.Compact? && JobOk(d, m) && ManifestOk(d, m)
    ensures var d' := d.(manifest := Apply(d.manifest, m.job.edit));
      DiskOk(d', issued, acked) && NumbersOk(d', m) && MemOk(d', m, issued) && SequencesOk(d', m, issued)
  {
    var ed, c := m.job.edit, m.job.purpose.c;
    MergeVersion(d.tables, d.manifest, ed, c, issued);
    InputsAbsorbed(d.tables, m.current, c, issued);
    RewriteDurable(d, Apply(d.manifest, ed), acked);
    ManifestMoves(d, m, Apply(d.manifest, ed), issued, acked);
  }

  lemma WriteMove(d: Disk, m: Memory, issued: set<Entry>, acked: set<Entry>)
    requires DiskOk(d, issued, acked) && VersionOk(d.tables, m.current, issued)
    requires NumbersOk(d, m) && MemOk(d, m, issued) && SequencesOk(d, m, issued)
    requires m.job.Logging? && m.job.purpose.Move? && JobOk(d, m) && ManifestOk(d, m)
    ensures var d' := d.(manifest := Apply(d.manifest, m.job.edit));
      DiskOk(d', issued, acked) && NumbersOk(d', m) && MemOk(d', m, issued) && SequencesOk(d', m, issued)
  {
    var w := Apply(d.manifest, m.job.edit);
    assert w.files == d.manifest.files && w.absorbed == d.manifest.absorbed && w.floor == d.manifest.floor;
    RewriteDurable(d, w, acked);
    ManifestMoves(d, m, w, issued, acked);
  }

  // The job's own claims once its record is written.
  lemma WrittenJob(d: Disk, m: Memory, d': Disk, m': Memory, ok: bool, issued: set<Entry>)
    requires m.job.Logging? && JobOk(d, m) && ManifestOk(d, m) && VersionOk(d.tables, m.current, issued)
    requires MemOk(d, m, issued) && SequencesOk(d, m, issued)
    requires m' == m.(job := Logged(m.job.edit, m.job.purpose, ok))
    requires d' == d.(manifest := Apply(d.manifest, m.job.edit)) || (d' == d && !ok)
    ensures JobOk(d', m') && ManifestOk(d', m')
  {
    assert ReaderFiles(m') == ReaderFiles(m) && ImmOf(m') == ImmOf(m);
    var ed, p := m.job.edit, m.job.purpose;
    match p {
      case Flush(outer) =>
        if outer.Some? {
          var c := outer.value;
          assert CompactionOk(d', m', c);
          if d' != d {
            InputsAbsorbed(d.tables, m.current, c, issued);
            ImmSettled(d, m, issued);
            ClosedAfterFlush(d.tables, d.manifest.files, ed.add, c);
            assert d'.manifest.files == d.manifest.files + ed.add;
          }
        }
      case Compact(c) => assert CompactionOk(d', m', c);
      case Move =>
    }
  }

  lemma WriteManifestKeeps(s: State, ok: bool, applied: bool, s': State)
    requires Inv(s) && s.phase.Up? && WriteManifestStep(s, ok, applied, s')
    ensures Inv(s')
  {
    hide DiskOk, VersionOk, MemOk, SequencesOk, LeaderOk, AckedOk, ReadersOk, NumbersOk, JobOk, ManifestOk;
    var d, m, d', m' := s.disk, s.phase.m, s'.disk, s'.phase.m;
    if ok || applied {
      match m.job.purpose {
        case Flush(_) => WriteFlush(d, m, s.issued, s.acked);
        case Compact(_) => WriteMerge(d, m, s.issued, s.acked);
        case Move => WriteMove(d, m, s.issued, s.acked);
      }
    }
    WrittenJob(d, m, d', m', ok, s.issued);
    WriteManifestRest(d, m, d', m', s.issued, s.acked);
  }

  lemma WriteManifestRest(d: Disk, m: Memory, d': Disk, m': Memory, issued: set<Entry>, acked: set<Entry>)
    requires UpOk(d, m, issued, acked) && m.job.Logging? && m'.job.Logged? && m' == m.(job := m'.job)
    requires d'.logs == d.logs && d'.tables == d.tables
    requires DiskOk(d', issued, acked) && NumbersOk(d', m) && MemOk(d', m, issued) && SequencesOk(d', m, issued)
    requires JobOk(d', m') && ManifestOk(d', m')
    ensures UpOk(d', m', issued, acked)
  {
    assert ReaderFiles(m') == ReaderFiles(m);
    DataFrameNumbers(d', m, m');
    SameLogsLeader(d, d', m, acked);
    DataFrameCore(d', m, m', issued, acked);
    TablesReaders(d, m, d', m', issued);
  }

  lemma SameLogsLeader(d: Disk, d': Disk, m: Memory, acked: set<Entry>)
    requires LeaderOk(d, m) && AckedOk(d, m, acked) && d'.logs == d.logs
    ensures LeaderOk(d', m) && AckedOk(d', m, acked)
  {
  }
}
