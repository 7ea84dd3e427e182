// What every reachable state of the engine satisfies, and why each step keeps it.
module EngineInvariant {
  import opened InternalKeys
  import opened Views
  import opened CompactionModel
  import opened Engine

  // ---------- Vocabulary ----------

  ghost predicate Older(es: set<Entry>, fs: set<Entry>) {
    forall e, f :: e in es && f in fs ==> e.sn < f.sn
  }

  ghost predicate Bounded(es: set<Entry>, s: Sequence) {
    forall e :: e in es ==> e.sn <= s
  }

  ghost predicate Below(ns: set<nat>, n: nat) {
    forall x :: x in ns ==> x < n
  }

  // A sequence number is given to one entry only.
  ghost predicate OneEntryPerSequence(es: set<Entry>) {
    forall e, f :: e in es && f in es && e.sn == f.sn ==> e == f
  }

  // The files of a version read like everything it absorbed.
  ghost predicate VersionOk(tables: map<nat, set<Entry>>, v: Version, issued: set<Entry>) {
    && v.files <= tables.Keys
    && Entries(tables, v.files) <= v.absorbed
    && v.absorbed <= issued
    && SameFrom(Entries(tables, v.files), v.absorbed, v.floor)
  }

  // Entries compaction has dropped from a version.
  ghost function CompactedAway(tables: map<nat, set<Entry>>, v: Version): set<Entry> {
    v.absorbed - Entries(tables, v.files)
  }

  // ---------- The disk alone: enough to recover from ----------

  ghost predicate Durable(d: Disk, e: Entry) {
    || e in d.manifest.absorbed
    || exists n :: n in d.logs && n >= d.manifest.logNumber && e in SyncedOf(d.logs[n])
  }

  ghost predicate LastLogNewest(d: Disk) {
    forall n :: IsLast(Replayed(d), n) ==>
      Older(d.manifest.absorbed + LogEntries(d.logs, Replayed(d) - {n}), AllOf(d.logs[n]))
  }

  ghost predicate DiskOk(d: Disk, issued: set<Entry>, acked: set<Entry>) {
    && OneEntryPerSequence(issued)
    && (forall n :: n in d.logs ==> d.logs[n].synced <= |d.logs[n].records|)
    && VersionOk(d.tables, d.manifest, issued)
    && LogEntries(d.logs, Replayed(d)) <= issued
    && d.manifest.floor <= d.manifest.lastSequence
    && Bounded(d.manifest.absorbed, d.manifest.lastSequence)
    && Below(d.manifest.files, d.manifest.nextFile)
    && Older(CompactedAway(d.tables, d.manifest), LogEntries(d.logs, Replayed(d)))
    && LastLogNewest(d)
    && forall e :: e in acked ==> Durable(d, e)
  }

  // ---------- A running database ----------

  ghost function InFlight(m: Memory): set<Entry> {
    if m.leader.Writing? then m.leader.batch else {}
  }

  // Entries no later write can precede.
  ghost function Settled(d: Disk, m: Memory): set<Entry> {
    m.current.absorbed + d.manifest.absorbed
      + LogEntries(d.logs, LogsFrom(d.logs, m.current.logNumber) - {m.logNumber})
  }

  ghost predicate NumbersOk(d: Disk, m: Memory) {
    && Below(m.current.files + d.manifest.files + m.pending + m.heap.Keys + d.logs.Keys + ReaderFiles(m), m.nextFile)
    && m.logNumber in d.logs && m.logNumber in m.heap
    && m.current.logNumber <= d.manifest.logNumber <= m.logNumber
    && forall n :: n in d.logs ==> n <= m.logNumber
  }

  ghost predicate MemOk(d: Disk, m: Memory, issued: set<Entry>) {
    && m.logNumber in d.logs && MemOf(m) <= AllOf(d.logs[m.logNumber])
    && (m.imm.Some? ==>
          && m.imm.value in m.heap && m.imm.value in d.logs
          && m.current.logNumber <= m.imm.value < m.logNumber
          && ImmOf(m) <= AllOf(d.logs[m.imm.value]))
    && (forall n :: n in m.heap ==> m.heap[n] <= issued)
    && LogEntries(d.logs, LogsFrom(d.logs, m.current.logNumber)) <= issued
  }

  ghost predicate SequencesOk(d: Disk, m: Memory, issued: set<Entry>) {
    && m.logNumber in d.logs
    && Bounded(issued - InFlight(m), m.lastSequence)
    && (m.leader.Writing? ==> BatchOk(m.leader.batch, m.lastSequence, m.leader.count) && m.leader.batch <= issued)
    && Bounded(Settled(d, m), m.lastSequence)
    && Older(Settled(d, m), AllOf(d.logs[m.logNumber]))
    && Older(m.current.absorbed, LogEntries(d.logs, LogsFrom(d.logs, m.current.logNumber)))
    && Older(CompactedAway(d.tables, d.manifest), LogEntries(d.logs, LogsFrom(d.logs, m.current.logNumber)))
    && m.current.floor <= m.lastSequence && d.manifest.lastSequence <= m.lastSequence
  }

  ghost predicate SnapshotsOk(m: Memory) {
    && (forall i :: 0 <= i < |m.snapshots| ==> m.current.floor <= m.snapshots[i] <= m.lastSequence)
    && (forall i, j :: 0 <= i < j < |m.snapshots| ==> m.snapshots[i] <= m.snapshots[j])
  }

  // How far the write in progress has come.
  ghost predicate LeaderOk(d: Disk, m: Memory) {
    m.leader.Writing? && m.logNumber in d.logs ==>
      match m.leader.stage
      case Start => true
      case Appended => m.leader.batch <= AllOf(d.logs[m.logNumber])
      case Synced => m.leader.batch <= AllOf(d.logs[m.logNumber]) && m.leader.batch <= SyncedOf(d.logs[m.logNumber])
      case Done(ok, _) =>
        ok ==> m.leader.batch <= MemOf(m) && (m.leader.sync ==> m.leader.batch <= SyncedOf(d.logs[m.logNumber]))
  }

  ghost predicate AckedOk(d: Disk, m: Memory, acked: set<Entry>) {
    forall e :: e in acked ==>
      && e.sn <= m.lastSequence
      && (|| e in m.current.absorbed || e in ImmOf(m)
          || (e in MemOf(m) && m.logNumber in d.logs && e in SyncedOf(d.logs[m.logNumber])))
  }

  ghost function ReaderMem(m: Memory, r: Reader): set<Entry> {
    if r.mem in m.heap then m.heap[r.mem] else {}
  }

  ghost function ReaderImm(m: Memory, r: Reader): set<Entry> {
    if r.imm.Some? && r.imm.value in m.heap then m.heap[r.imm.value] else {}
  }

  ghost predicate ReaderOk(d: Disk, m: Memory, r: Reader, issued: set<Entry>) {
    && VersionOk(d.tables, r.version, issued)
    && r.version.floor <= r.snapshot <= m.lastSequence
    && r.mem in m.heap && r.mem <= m.logNumber
    && (r.imm.Some? ==> r.imm.value in m.heap && r.imm.value < r.mem)
    && Older(r.version.absorbed, ReaderImm(m, r))
    && Older(r.version.absorbed + ReaderImm(m, r), ReaderMem(m, r))
    && Bounded(r.version.absorbed + ReaderImm(m, r), m.lastSequence)
  }

  ghost predicate ReadersOk(d: Disk, m: Memory, issued: set<Entry>) {
    forall id :: id in m.readers ==> ReaderOk(d, m, m.readers[id], issued)
  }

  // ---------- The background thread ----------

  // The running compaction, seen from the installed version.
  ghost predicate CompactionOk(d: Disk, m: Memory, c: Compaction) {
    && c.inputs <= m.current.files
    && c.outputs <= m.pending
    && c.outputs !! m.current.files + ReaderFiles(m)
    && c.smallest <= m.lastSequence
    && (forall i :: 0 <= i < |m.snapshots| ==> c.smallest <= m.snapshots[i])
    && UncoversNothing(d.tables, m.current.files, c)
  }

  // The same seen from the manifest, until the compaction's own record is written.
  ghost predicate CompactionOpen(d: Disk, c: Compaction) {
    && c.outputs !! d.manifest.files
    && UncoversNothing(d.tables, d.manifest.files, c)
  }

  ghost predicate OuterOk(d: Disk, m: Memory, outer: Option<Compaction>) {
    outer.Some? ==> CompactionOk(d, m, outer.value) && CompactionOpen(d, outer.value)
  }

  ghost predicate EditOk(d: Disk, m: Memory, ed: Edit, p: Purpose) {
    && ed.lastSequence <= m.lastSequence && ed.nextFile <= m.nextFile
    && ed.add <= d.tables.Keys && Below(ed.add, ed.nextFile)
    && Bounded(m.current.absorbed + d.manifest.absorbed + ed.absorb, ed.lastSequence)
    && ed.floor <= ed.lastSequence && m.current.floor <= ed.lastSequence && d.manifest.floor <= ed.lastSequence
    && Below(m.current.files + d.manifest.files, ed.nextFile)
    && match p
       case Flush(outer) =>
         && m.imm.Some? && ed.del == {} && ed.floor == 0 && ed.logNumber == m.logNumber
         && ed.absorb == ImmOf(m) && Entries(d.tables, ed.add) == ImmOf(m)
         && OuterOk(d, m, outer)
         && (outer.Some? ==> outer.value.outputs !! ed.add)
       case Compact(c) =>
         && ed.del == c.inputs && ed.add == c.outputs && ed.floor == c.smallest
         && ed.logNumber == m.current.logNumber && ed.absorb == {}
         && Entries(d.tables, c.outputs) == Survivors(Entries(d.tables, c.inputs), c.smallest, BaseLevel(c.deeper))
         && CompactionOk(d, m, c)
       case Move =>
         && ed.del == {} && ed.add == {} && ed.floor == 0 && ed.absorb == {}
         && ed.logNumber == m.current.logNumber
  }

  ghost predicate JobOk(d: Disk, m: Memory) {
    match m.job
    case Idle => true
    case Scheduled => true
    case Flushing(num, outer) =>
      && m.imm.Some? && num in m.pending
      && num !in m.current.files + d.manifest.files + ReaderFiles(m)
      && OuterOk(d, m, outer) && (outer.Some? ==> num !in outer.value.outputs)
    case Compacting(c) => CompactionOk(d, m, c) && CompactionOpen(d, c)
    case Logging(ed, p) => EditOk(d, m, ed, p) && (p.Compact? ==> CompactionOpen(d, p.c))
    case Logged(ed, p, _) => EditOk(d, m, ed, p)
  }

  ghost predicate SameVersion(v: Version, w: Version) {
    v.files == w.files && v.absorbed == w.absorbed && v.floor == w.floor && v.logNumber == w.logNumber
  }

  // The manifest has everything the version has, and maybe the result of a flush whose
  // manifest write was reported as failed.
  ghost predicate Covers(w: Version, v: Version) {
    v.files <= w.files && v.absorbed <= w.absorbed
  }

  ghost predicate ManifestOk(d: Disk, m: Memory) {
    match m.job
    case Logged(ed, p, ok) =>
      if ok then
        && (!m.bgError ==> SameVersion(Apply(m.current, ed), d.manifest))
        && Covers(d.manifest, Apply(m.current, ed)) && d.manifest.logNumber == ed.logNumber
      else p.Flush? ==> Covers(d.manifest, m.current)
    case _ =>
      && (!m.bgError ==> SameVersion(m.current, d.manifest))
      && (!m.bgError || (!m.job.Idle? && !m.job.Scheduled?) ==> Covers(d.manifest, m.current))
  }

  // ---------- Nobody waits for work that is not coming ----------

  ghost predicate FlagsOk(m: Memory) {
    && (m.hasImm <==> m.imm.Some?)
    && (!m.bgError && !m.shutdown && (m.imm.Some? || m.manual || m.needs) ==> !m.job.Idle?)
    && (m.leader.Asleep? ==> !m.job.Idle? && !m.bgError)
  }

  ghost predicate UpOk(d: Disk, m: Memory, issued: set<Entry>, acked: set<Entry>) {
    && DiskOk(d, issued, acked)
    && VersionOk(d.tables, m.current, issued)
    && NumbersOk(d, m)
    && MemOk(d, m, issued)
    && SequencesOk(d, m, issued)
    && SnapshotsOk(m)
    && LeaderOk(d, m)
    && AckedOk(d, m, acked)
    && ReadersOk(d, m, issued)
    && JobOk(d, m)
    && ManifestOk(d, m)
    && FlagsOk(m)
  }

  // ---------- While opening ----------

  ghost predicate PlanOk(d: Disk, p: Plan) {
    && p.logNumber in d.logs && d.manifest.logNumber <= p.logNumber < p.nextFile
    && (forall n :: n in d.logs ==> n <= p.logNumber)
    && p.mem == AllOf(d.logs[p.logNumber])
    && Bounded(d.manifest.absorbed + LogEntries(d.logs, Replayed(d)), p.lastSequence)
    && d.manifest.lastSequence <= p.lastSequence
    && Below(d.manifest.files, p.nextFile)
    && var rest := LogEntries(d.logs, Replayed(d) - {p.logNumber});
       if p.save && p.written.None? then
         && p.edit == Edit({}, p.edit.add, p.logNumber, p.lastSequence, p.nextFile, rest, 0)
         && p.edit.add <= d.tables.Keys && Below(p.edit.add, p.nextFile) && Entries(d.tables, p.edit.add) == rest
       else p.written != Some(false) ==> rest == {}
  }

  ghost predicate Inv(s: State) {
    match s.phase
    case Up(m) => UpOk(s.disk, m, s.issued, s.acked)
    case Opening(p) =>
      && DiskOk(s.disk, s.issued, s.acked) && PlanOk(s.disk, p)
      && s.issued <= s.disk.manifest.absorbed + LogEntries(s.disk.logs, Replayed(s.disk))
    case Down =>
      && DiskOk(s.disk, s.issued, s.acked)
      && s.issued <= s.disk.manifest.absorbed + LogEntries(s.disk.logs, Replayed(s.disk))
  }
}
