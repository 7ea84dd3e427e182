// Crashes and recovery keep the engine invariant.
module EngineRecovery {
  import opened InternalKeys
  import opened Views
  import opened CompactionModel
  import opened Engine
  import opened EngineInvariant
  import opened EngineWrites
  import opened EngineLogSteps
  import opened EngineTables
  import opened EngineInstall

  // ---------- Crash ----------

  // Logs cut back, each to no less than its synced records.
  ghost predicate Truncated(logs: map<nat, Log>, logs': map<nat, Log>) {
    && logs'.Keys == logs.Keys
    && forall n :: n in logs ==>
         && logs'[n].synced == logs[n].synced && logs[n].synced <= |logs'[n].records| <= |logs[n].records|
         && logs'[n].records == logs[n].records[..|logs'[n].records|]
  }

  lemma TruncatedLog(l: Log, l': Log)
    requires l'.synced == l.synced && l.synced <= |l'.records| <= |l.records|
    requires l'.records == l.records[..|l'.records|]
    ensures AllOf(l') <= AllOf(l) && SyncedOf(l') == SyncedOf(l)
  {
    UnionPrefix(l.records, |l'.records|);
    assert l'.records[..l.synced] == l.records[..l.synced];
  }

  lemma TruncatedEntries(logs: map<nat, Log>, logs': map<nat, Log>, ns: set<nat>)
    requires Truncated(logs, logs')
    ensures LogEntries(logs', ns) <= LogEntries(logs, ns)
  {
    forall e | e in LogEntries(logs', ns) ensures e in LogEntries(logs, ns) {
      var n :| n in ns && n in logs' && e in AllOf(logs'[n]);
      assert n in logs;
      TruncatedLog(logs[n], logs'[n]);
    }
  }

  lemma CrashNewest(d: Disk, logs: map<nat, Log>)
    requires LastLogNewest(d) && Truncated(d.logs, logs)
    ensures LastLogNewest(d.(logs := logs))
  {
    var d' := d.(logs := logs);
    assert Replayed(d') == Replayed(d);
    forall n | IsLast(Replayed(d'), n)
      ensures Older(d.manifest.absorbed + LogEntries(logs, Replayed(d') - {n}), AllOf(logs[n]))
    {
      TruncatedEntries(d.logs, logs, Replayed(d) - {n});
      TruncatedLog(d.logs[n], logs[n]);
    }
  }

  lemma CrashDurable(d: Disk, logs: map<nat, Log>, e: Entry)
    requires Durable(d, e) && Truncated(d.logs, logs)
    ensures Durable(d.(logs := logs), e)
  {
    if e !in d.manifest.absorbed {
      var n :| n in d.logs && n >= d.manifest.logNumber && e in SyncedOf(d.logs[n]);
      assert n in logs;
      TruncatedLog(d.logs[n], logs[n]);
    }
  }

  lemma CrashDisk(d: Disk, logs: map<nat, Log>, issued: set<Entry>, acked: set<Entry>)
    requires DiskOk(d, issued, acked) && Truncated(d.logs, logs)
    ensures var d' := d.(logs := logs);
      DiskOk(d', issued * (d.manifest.absorbed + LogEntries(logs, Replayed(d'))), acked)
  {
    var d' := d.(logs := logs);
    assert Replayed(d') == Replayed(d);
    TruncatedEntries(d.logs, logs, Replayed(d));
    CrashNewest(d, logs);
    forall e | e in acked ensures Durable(d', e) { CrashDurable(d, logs, e); }
  }

  lemma CrashKeeps(s: State, kept: map<nat, nat>, s': State)
    requires Inv(s) && CrashStep(s, kept, s')
    ensures Inv(s')
  {
    assert DiskOk(s.disk, s.issued, s.acked);
    assert Truncated(s.disk.logs, s'.disk.logs);
    CrashDisk(s.disk, s'.disk.logs, s.issued, s.acked);
  }

  // ---------- Replay ----------

  lemma ReplayTables(d: Disk, tables: map<nat, set<Entry>>, issued: set<Entry>, acked: set<Entry>)
    requires DiskOk(d, issued, acked) && forall n :: n in tables ==> d.manifest.nextFile <= n
    ensures DiskOk(d.(tables := d.tables + tables), issued, acked)
    ensures Entries(d.tables + tables, tables.Keys) == Entries(tables, tables.Keys)
  {
    var d' := d.(tables := d.tables + tables);
    VersionFrame(d.tables, d'.tables, d.manifest, issued);
    assert Replayed(d') == Replayed(d);
    assert LastLogNewest(d');
    forall e | e in acked ensures Durable(d', e) { assert Durable(d, e); }
    EntriesFrame(tables, d'.tables, tables.Keys);
  }

  lemma ReplayNewLog(d: Disk, n: nat, issued: set<Entry>, acked: set<Entry>)
    requires DiskOk(d, issued, acked) && n !in d.logs && d.manifest.logNumber <= n
    requires forall x :: x in Replayed(d) ==> x <= n
    ensures var d' := d.(logs := d.logs[n := Log([], 0)]);
      && DiskOk(d', issued, acked) && AllOf(d'.logs[n]) == {}
      && LogEntries(d'.logs, Replayed(d')) == LogEntries(d.logs, Replayed(d))
      && LogEntries(d'.logs, Replayed(d') - {n}) == LogEntries(d.logs, Replayed(d) - {n})
  {
    var d' := d.(logs := d.logs[n := Log([], 0)]);
    assert AllOf(d'.logs[n]) == {};
    assert Replayed(d') == Replayed(d) + {n} && Replayed(d') - {n} == Replayed(d) == Replayed(d) - {n};
    LogEntriesEmpty(d.logs, n, Replayed(d));
    forall l | IsLast(Replayed(d'), l) ensures l == n {}
    DiskLogs(d, d'.logs, issued, acked);
  }

  lemma ReplayKeeps(s: State, reuse: bool, tables: map<nat, set<Entry>>, newLog: nat, nextFile: nat, save: bool,
          s': State)
    requires Inv(s) && s.phase.Down? && ReplayStep(s, reuse, tables, newLog, nextFile, save, s')
    ensures Inv(s')
  {
    var d, d' := s.disk, s'.disk;
    var d1 := d.(tables := d.tables + tables);
    ReplayTables(d, tables, s.issued, s.acked);
    assert Replayed(d1) == Replayed(d);
    if reuse { assert d' == d1; } else { ReplayNewLog(d1, newLog, s.issued, s.acked); }
    ReplayPlan(s, reuse, tables, newLog, nextFile, save, s');
  }

  lemma ReplayFailKeeps(s: State, tables: map<nat, set<Entry>>, s': State)
    requires Inv(s) && s.phase.Down? && ReplayFailStep(s, tables, s')
    ensures Inv(s')
  {
    ReplayTables(s.disk, tables, s.issued, s.acked);
    assert Replayed(s'.disk) == Replayed(s.disk);
  }

  lemma ReplayPlan(s: State, reuse: bool, tables: map<nat, set<Entry>>, newLog: nat, nextFile: nat, save: bool,
          s': State)
    requires s.phase.Down? && ReplayStep(s, reuse, tables, newLog, nextFile, save, s')
    requires DiskOk(s.disk, s.issued, s.acked)
    requires Entries(s'.disk.tables, tables.Keys) == Entries(tables, tables.Keys)
    requires LogEntries(s'.disk.logs, Replayed(s'.disk)) == LogEntries(s.disk.logs, Replayed(s.disk))
    requires LogEntries(s'.disk.logs, Replayed(s'.disk) - {newLog}) ==
        LogEntries(s.disk.logs, Replayed(s.disk) - {newLog})
    requires !reuse ==> newLog in s'.disk.logs && AllOf(s'.disk.logs[newLog]) == {}
    ensures s'.phase.Opening? && PlanOk(s'.disk, s'.phase.plan)
  {
    var d := s.disk;
    forall n | n in s'.disk.logs ensures n <= newLog {
      if n != newLog && n >= d.manifest.logNumber { assert n in Replayed(d); }
    }
  }

  // ---------- The manifest write of opening ----------

  lemma OpenedLogs(d: Disk, p: Plan)
    requires PlanOk(d, p)
    ensures LogEntries(d.logs, {p.logNumber}) == AllOf(d.logs[p.logNumber])
    ensures LogEntries(d.logs, Replayed(d)) ==
        LogEntries(d.logs, Replayed(d) - {p.logNumber}) + AllOf(d.logs[p.logNumber])
    ensures IsLast(Replayed(d), p.logNumber) && LogsFrom(d.logs, p.logNumber) == {p.logNumber}
  {
    LogEntriesUpdate(d.logs, p.logNumber, d.logs[p.logNumber], Replayed(d));
    assert LogsFrom(d.logs, p.logNumber) == {p.logNumber};
  }

  lemma OpenWriteApplied(d: Disk, p: Plan, issued: set<Entry>, acked: set<Entry>)
    requires DiskOk(d, issued, acked) && PlanOk(d, p) && p.save && p.written.None?
    requires issued <= d.manifest.absorbed + LogEntries(d.logs, Replayed(d))
    ensures var d' := d.(manifest := Apply(d.manifest, p.edit));
      && DiskOk(d', issued, acked) && PlanOk(d', p.(written := Some(true))) && PlanOk(d', p.(written := Some(false)))
      && issued <= d'.manifest.absorbed + LogEntries(d'.logs, Replayed(d'))
  {
    var d' := d.(manifest := Apply(d.manifest, p.edit));
    OpenedLogs(d, p);
    FlushVersion(d.tables, d.manifest, p.edit, issued);
    assert Replayed(d') == {p.logNumber};
    assert Replayed(d') - {p.logNumber} == {};
    forall n | IsLast(Replayed(d'), n) ensures n == p.logNumber {}
    OpenWriteDurable(d, p, acked);
  }

  lemma OpenWriteDurable(d: Disk, p: Plan, acked: set<Entry>)
    requires forall e :: e in acked ==> Durable(d, e)
    requires forall n :: n in d.logs ==> d.logs[n].synced <= |d.logs[n].records|
    requires PlanOk(d, p) && p.save && p.written.None?
    ensures forall e :: e in acked ==> Durable(d.(manifest := Apply(d.manifest, p.edit)), e)
  {
    var d' := d.(manifest := Apply(d.manifest, p.edit));
    forall e | e in acked ensures Durable(d', e) {
      assert Durable(d, e);
      if e !in d.manifest.absorbed {
        var n :| n in d.logs && n >= d.manifest.logNumber && e in SyncedOf(d.logs[n]);
        SyncedInAll(d.logs[n]);
        if n == p.logNumber { assert n in d'.logs && n >= d'.manifest.logNumber; }
        else { assert n in Replayed(d) - {p.logNumber}; }
      }
    }
  }

  lemma OpenWriteKeeps(s: State, ok: bool, applied: bool, s': State)
    requires Inv(s) && s.phase.Opening? && OpenWriteStep(s, ok, applied, s')
    ensures Inv(s')
  {
    if ok || applied { OpenWriteApplied(s.disk, s.phase.plan, s.issued, s.acked); }
  }

  // ---------- The database opens ----------

  function Opened(d: Disk, p: Plan, needs: bool): Memory {
    Memory(map[p.logNumber := p.mem], None, false, p.logNumber, p.lastSequence, p.nextFile,
           d.manifest, {}, [], false, false, false, needs, Free, Idle, map[])
  }

  lemma OpenedData(d: Disk, p: Plan, needs: bool, issued: set<Entry>, acked: set<Entry>)
    requires DiskOk(d, issued, acked) && PlanOk(d, p)
    requires issued <= d.manifest.absorbed + LogEntries(d.logs, Replayed(d))
    requires LogEntries(d.logs, Replayed(d) - {p.logNumber}) == {}
    ensures var m := Opened(d, p, needs);
      && NumbersOk(d, m) && MemOk(d, m, issued) && SequencesOk(d, m, issued) && AckedOk(d, m, acked)
      && ReaderFiles(m) == {}
  {
    var m := Opened(d, p, needs);
    OpenedLogs(d, p);
    assert LogsFrom(d.logs, m.current.logNumber) == Replayed(d);
    assert Settled(d, m) == d.manifest.absorbed;
    forall e | e in acked && e !in d.manifest.absorbed ensures e in MemOf(m) && e in SyncedOf(d.logs[m.logNumber]) {
      assert Durable(d, e);
      var n :| n in d.logs && n >= d.manifest.logNumber && e in SyncedOf(d.logs[n]);
      SyncedInAll(d.logs[n]);
      assert n != p.logNumber ==> n in Replayed(d) - {p.logNumber};
    }
  }

  lemma OpenedUp(d: Disk, p: Plan, needs: bool, issued: set<Entry>, acked: set<Entry>)
    requires DiskOk(d, issued, acked) && PlanOk(d, p)
    requires issued <= d.manifest.absorbed + LogEntries(d.logs, Replayed(d))
    requires LogEntries(d.logs, Replayed(d) - {p.logNumber}) == {}
    ensures UpOk(d, MaybeSchedule(Opened(d, p, needs)), issued, acked)
  {
    var m := Opened(d, p, needs);
    OpenedData(d, p, needs, issued, acked);
    Reschedule(d, m);
    NewJob(d, m, MaybeSchedule(m), issued, acked);
  }

  lemma OpenDoneKeeps(s: State, d': Disk, needs: bool, s': State)
    requires Inv(s) && s.phase.Opening? && OpenDoneStep(s, d', needs, s')
    ensures Inv(s')
  {
    var d, p := s.disk, s.phase.plan;
    var m := MaybeSchedule(Opened(d, p, needs));
    OpenedUp(d, p, needs, s.issued, s.acked);
    assert ReaderFiles(m) == ReaderFiles(Opened(d, p, needs));
    CollectAfter(d, m, d', s.issued, s.acked);
  }
}
