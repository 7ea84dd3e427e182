// The code of recovery and of garbage collection, proved to take the steps the engine's state
// machine allows.
module EngineCode {
  import opened InternalKeys
  import opened Views
  import opened Engine
  import opened EngineInvariant
  import opened EngineWrites
  import opened EngineTables

  // ---------- DeleteObsoleteFiles ----------

  datatype FileName = LogFile(number: nat) | TableFile(number: nat) | OtherFile

  // names is the directory listing, in any order and possibly incomplete; stuck are the files the
  // file system fails to delete.  What goes is every other listed file that is not needed.
  method DeleteObsoleteFiles(d: Disk, m: Memory, live: set<nat>, names: seq<FileName>, stuck: set<FileName>)
    returns (d': Disk)
    requires live == m.pending + m.current.files + ReaderFiles(m)
    ensures Collected(d, d', m)
    ensures m.bgError ==> d' == d
    ensures !m.bgError ==> forall n ::
              n in d'.tables <==> n in d.tables && (n in live || TableFile(n) !in names || TableFile(n) in stuck)
    ensures !m.bgError ==> forall n ::
              n in d'.logs <==> n in d.logs && (n >= m.current.logNumber || LogFile(n) !in names || LogFile(n) in stuck)
  {
    d' := d;
    if m.bgError { return; }
    var i := 0;
    while i < |names|
      invariant 0 <= i <= |names| && Collected(d, d', m)
      invariant forall n :: n in d'.tables <==>
                  n in d.tables && (n in live || TableFile(n) !in names[..i] || TableFile(n) in stuck)
      invariant forall n :: n in d'.logs <==>
                  n in d.logs && (n >= m.current.logNumber || LogFile(n) !in names[..i] || LogFile(n) in stuck)
    {
      assert names[..i + 1] == names[..i] + [names[i]];
      var keep := true;
      match names[i] {
        case LogFile(number) => keep := number >= m.current.logNumber;
        case TableFile(number) => keep := number in live;
        case OtherFile =>
      }
      if !keep && names[i] !in stuck {
        match names[i] {
          case LogFile(number) => d' := d'.(logs := d'.logs - {number});
          case TableFile(number) => d' := d'.(tables := d'.tables - {number});
          case OtherFile =>
        }
      }
      i := i + 1;
    }
  }

  // ---------- Recover and RecoverLogFile ----------

  ghost predicate Ascending(logs: seq<nat>) {
    forall i, j :: 0 <= i < j < |logs| ==> logs[i] < logs[j]
  }

  ghost function Listed(logs: seq<nat>, n: nat): set<nat>
    requires n <= |logs|
  {
    set i | 0 <= i < n :: logs[i]
  }

  class Recovery {
    var tables: map<nat, set<Entry>>   // level-0 tables written while replaying
    var nextFile: nat
    var maxSequence: Sequence
    var saveManifest: bool
    var reused: bool                   // the last log stays open, its entries in mem
    var mem: set<Entry>

    constructor (next: nat, save: bool)
      ensures tables == map[] && nextFile == next && maxSequence == 0 && saveManifest == save && !reused && mem == {}
    {
      tables := map[];
      nextFile := next;
      maxSequence := 0;
      saveManifest := save;
      reused := false;
      mem := {};
    }

    // Everything replayed so far.
    ghost function Replayed(): set<Entry>
      reads this
    {
      Entries(tables, tables.Keys) + mem
    }

    ghost predicate Fresh(low: nat)
      reads this
    {
      low <= nextFile && forall n :: n in tables ==> low <= n < nextFile
    }

    // An empty table leaves no file.
    method WriteLevel0Table(es: set<Entry>, ghost low: nat) returns (ok: bool)
      requires Fresh(low)
      modifies this`tables, this`nextFile
      ensures Fresh(low) && old(nextFile) <= nextFile
      ensures ok ==> Entries(tables, tables.Keys) == old(Entries(tables, tables.Keys)) + es
      ensures !ok ==> tables == old(tables)
    {
      var number := nextFile;
      nextFile := nextFile + 1;
      ok := *;   // building, syncing and closing the file
      if ok {
        if es == {} { return; }
        ghost var before := tables;
        tables := tables[number := es];
        AddedTable(before, number, es);
      }
    }

    // Reads one log into memtables.  A memtable that fills up goes to a table; at the end the
    // rest does too, unless this is the last log and nothing of it was written out, in which
    // case the log may be kept in use.
    method RecoverLogFile(records: seq<set<Entry>>, lastLog: bool, ghost low: nat) returns (ok: bool)
      requires Fresh(low) && !reused && mem == {}
      modifies this
      ensures Fresh(low) && old(nextFile) <= nextFile && old(maxSequence) <= maxSequence
      ensures ok ==> Replayed() == old(Replayed()) + Union(records)
      ensures ok ==> forall e :: e in Union(records) ==> e.sn <= maxSequence
      ensures ok && reused ==> lastLog && mem == Union(records) && tables == old(tables)
      ensures !reused ==> mem == {}
      ensures old(saveManifest) ==> saveManifest
      ensures ok && tables != old(tables) ==> saveManifest
    {
      NoRecords(records);
      hide Entries, Union;
      var current: set<Entry> := {};
      var haveMem := false;
      var compactions := 0;
      var i := 0;
      while i < |records|
        invariant 0 <= i <= |records| && Fresh(low) && old(nextFile) <= nextFile && old(maxSequence) <= maxSequence
        invariant !reused && mem == {} && (!haveMem ==> current == {})
        invariant Entries(tables, tables.Keys) + current == old(Entries(tables, tables.Keys)) + Union(records[..i])
        invariant forall e :: e in Union(records[..i]) ==> e.sn <= maxSequence
        invariant compactions == 0 ==> tables == old(tables) && current == Union(records[..i])
        invariant (old(saveManifest) || compactions > 0) ==> saveManifest
      {
        assert records[..i + 1] == records[..i] + [records[i]];
        UnionAppend(records[..i], records[i]);
        haveMem := true;
        current := current + records[i];
        HasBound(records[i]);
        var lastSeq: Sequence :| AtMost(records[i], lastSeq);   // from the batch header
        if lastSeq > maxSequence { maxSequence := lastSeq; }
        i := i + 1;
        var full: bool := *;   // memory usage above the write buffer size
        if full {
          compactions := compactions + 1;
          saveManifest := true;
          ok := WriteLevel0Table(current, low);
          if !ok { return; }
          current, haveMem := {}, false;
        }
      }
      assert records[..|records|] == records;
      ok := true;
      var reuseLogs: bool := *;   // the option is on and the file can be reopened
      if reuseLogs && lastLog && compactions == 0 {
        reused, mem := true, current;
        haveMem := false;
      }
      if haveMem {
        saveManifest := true;
        ok := WriteLevel0Table(current, low);
      }
    }

    // Replays the logs named by the manifest or newer, oldest first.
    method Recover(d: Disk, logs: seq<nat>) returns (ok: bool)
      requires Ascending(logs) && Listed(logs, |logs|) == Engine.Replayed(d)
      requires tables == map[] && mem == {} && !reused && d.manifest.nextFile <= nextFile && maxSequence == 0
      modifies this
      ensures Fresh(d.manifest.nextFile) && old(nextFile) <= nextFile
      ensures ok ==> Replayed() == LogEntries(d.logs, Engine.Replayed(d))
      ensures ok ==> d.manifest.lastSequence <= maxSequence
      ensures ok ==> Bounded(LogEntries(d.logs, Engine.Replayed(d)), maxSequence)
      ensures ok ==> forall n :: n in Engine.Replayed(d) ==> n < nextFile
      ensures ok && reused ==> logs != []
      ensures ok && reused ==> mem == LogEntries(d.logs, {logs[|logs| - 1]})
      ensures ok && reused ==> Entries(tables, tables.Keys) == LogEntries(d.logs, Listed(logs, |logs| - 1))
      ensures ok && tables != map[] ==> saveManifest
      ensures !reused ==> mem == {}
      ensures old(saveManifest) ==> saveManifest
    {
      ghost var low := d.manifest.nextFile;
      var i := 0;
      while i < |logs|
        invariant 0 <= i <= |logs| && Fresh(low) && old(nextFile) <= nextFile && (i < |logs| ==> !reused)
        invariant reused ==> i == |logs| && i > 0 && mem == LogEntries(d.logs, {logs[i - 1]})
        invariant reused ==> Entries(tables, tables.Keys) == LogEntries(d.logs, Listed(logs, i - 1))
        invariant !reused ==> mem == {}
        invariant Replayed() == LogEntries(d.logs, Listed(logs, i))
        invariant Bounded(LogEntries(d.logs, Listed(logs, i)), maxSequence)
        invariant forall k :: 0 <= k < i ==> logs[k] < nextFile
        invariant (old(saveManifest) || tables != map[]) ==> saveManifest
      {
        assert logs[i] in Listed(logs, |logs|);
        NextLog(d, logs, i);
        ghost var before := Replayed();
        ok := RecoverLogFile(d.logs[logs[i]].records, i == |logs| - 1, low);
        if !ok { return; }
        if nextFile <= logs[i] { nextFile := logs[i] + 1; }   // MarkFileNumberUsed
        i := i + 1;
      }
      if d.manifest.lastSequence > maxSequence { maxSequence := d.manifest.lastSequence; }
      ok := true;
    }
  }

  lemma AddedTable(t: map<nat, set<Entry>>, n: nat, es: set<Entry>)
    requires n !in t
    ensures var t' := t[n := es]; Entries(t', t'.Keys) == Entries(t, t.Keys) + es
  {
    var t' := t[n := es];
    forall e | e in Entries(t, t.Keys) + es ensures e in Entries(t', t'.Keys) {
      if e in es { assert t'[n] == es; } else {
        var x :| x in t && e in t[x];
        assert t'[x] == t[x];
      }
    }
  }

  lemma NoRecords(records: seq<set<Entry>>)
    ensures Union(records[..0]) == {}
  {
  }

  predicate AtMost(es: set<Entry>, s: Sequence) {
    forall e :: e in es ==> e.sn <= s
  }

  lemma {:induction false} HasBound(es: set<Entry>)
    ensures exists s: Sequence :: AtMost(es, s)
  {
    if es == {} {
      assert AtMost(es, 0);
    } else {
      var e :| e in es;
      HasBound(es - {e});
      var s: Sequence :| AtMost(es - {e}, s);
      assert AtMost(es, if s < e.sn then e.sn else s);
    }
  }

  lemma NextLog(d: Disk, logs: seq<nat>, i: nat)
    requires Ascending(logs) && i < |logs| && logs[i] in d.logs
    ensures LogEntries(d.logs, Listed(logs, i + 1)) == LogEntries(d.logs, Listed(logs, i)) + AllOf(d.logs[logs[i]])
    ensures LogEntries(d.logs, {logs[i]}) == AllOf(d.logs[logs[i]])
  {
    var n := logs[i];
    LogEntriesUpdate(d.logs, n, d.logs[n], {n});
    assert {n} - {n} == {};
    assert Listed(logs, i + 1) == Listed(logs, i) + {n};
    LogEntriesUpdate(d.logs, n, d.logs[n], Listed(logs, i + 1));
    assert n !in Listed(logs, i);
    assert Listed(logs, i + 1) - {n} == Listed(logs, i);
  }

  // ---------- DB::Open, up to the manifest write ----------

  // The replay, then a fresh log unless the last one is kept.  It takes the Replay step of the
  // state machine, and ends in exactly the plan that step describes.
  method Open(d: Disk, logs: seq<nat>, save: bool, ghost issued: set<Entry>, ghost acked: set<Entry>)
    returns (ok: bool, reuse: bool, tables: map<nat, set<Entry>>, newLog: nat, nextFile: nat, saveManifest: bool,
             ghost s': State)
    requires Ascending(logs) && Listed(logs, |logs|) == Replayed(d)
    ensures ok ==> ReplayStep(State(d, Down, issued, acked), reuse, tables, newLog, nextFile, saveManifest, s')
    ensures !ok ==> ReplayFailStep(State(d, Down, issued, acked), tables, s')
  {
    var r := new Recovery(Max(d.manifest.nextFile, d.manifest.logNumber + 1), save);
    ok := r.Recover(d, logs);
    reuse, tables, newLog, nextFile, saveManifest := r.reused, r.tables, 0, r.nextFile, r.saveManifest;
    s' := State(d.(tables := d.tables + tables), Down, issued, acked);
    if !ok { return; }
    if r.reused {
      newLog := logs[|logs| - 1];
      assert newLog in Listed(logs, |logs|);
    } else {
      newLog := r.nextFile;
      r.nextFile := r.nextFile + 1;
      ok := *;   // creating the log file
      if !ok { return; }
    }
    nextFile := r.nextFile;
    s' := Planned(d, reuse, tables, newLog, nextFile, saveManifest, r.maxSequence, issued, acked);
    PlanMatches(d, logs, reuse, tables, newLog, nextFile, saveManifest, r.maxSequence, issued, acked);
  }

  ghost function Planned(d: Disk, reuse: bool, tables: map<nat, set<Entry>>, newLog: nat, nextFile: nat, save: bool,
                         last: Sequence, issued: set<Entry>, acked: set<Entry>): State
  {
    State(d.(tables := d.tables + tables, logs := if reuse then d.logs else d.logs[newLog := Log([], 0)]),
          Opening(Plan(Edit({}, tables.Keys, newLog, last, nextFile,
              LogEntries(d.logs, Replayed(d) - {newLog}), 0), save, None,
                       if reuse && newLog in d.logs then AllOf(d.logs[newLog]) else {}, newLog, last, nextFile)),
          issued, acked)
  }

  lemma PlanMatches(d: Disk, logs: seq<nat>, reuse: bool, tables: map<nat, set<Entry>>, newLog: nat, nextFile: nat,
                    save: bool, last: Sequence, issued: set<Entry>, acked: set<Entry>)
    requires Ascending(logs) && Listed(logs, |logs|) == Replayed(d)
    requires d.manifest.nextFile <= nextFile && d.manifest.logNumber < nextFile && newLog < nextFile
    requires forall n :: n in tables ==> d.manifest.nextFile <= n < nextFile
    requires d.manifest.lastSequence <= last && Bounded(LogEntries(d.logs, Replayed(d)), last)
    requires tables != map[] ==> save
    requires if reuse then logs != [] && newLog == logs[|logs| - 1]
                           && Entries(tables, tables.Keys) == LogEntries(d.logs, Listed(logs, |logs| - 1))
             else d.manifest.nextFile <= newLog && d.manifest.logNumber < newLog
                  && (forall n :: n in Replayed(d) ==> n < newLog)
                  && Entries(tables, tables.Keys) == LogEntries(d.logs, Replayed(d))
    requires forall n :: n in Replayed(d) ==> n < nextFile
    ensures ReplayStep(State(d, Down, issued, acked), reuse, tables, newLog, nextFile, save,
                       Planned(d, reuse, tables, newLog, nextFile, save, last, issued, acked))
  {
    var all := Replayed(d);
    if reuse {
      assert newLog in Listed(logs, |logs|);
      forall n | n in all ensures n <= newLog {
        var i :| 0 <= i < |logs| && logs[i] == n;
      }
      assert Listed(logs, |logs| - 1) == all - {newLog};
    } else {
      assert all - {newLog} == all;
    }
  }

  // ---------- MakeRoomForWrite ----------

  datatype Outcome = HasRoom | Refused | NoLogFile | StillWaiting

  // What the writer at the head of the queue finds each time it holds the lock: a running
  // database in which no other writer leads.
  predicate AtFront(s: State) {
    s.phase.Up? && s.phase.m.leader.Free?
  }

  // Why a writer may wait: the other memtable is not in the tables yet, or level 0 is full, which
  // is one of the things a compaction is needed for.
  predicate Waits(s: State) {
    s.phase.Up? && !s.phase.m.bgError && (s.phase.m.imm.Some? || s.phase.m.needs)
  }

  ghost predicate Switched(before: State, after: State) {
    before.phase.Up? && exists n :: SwitchStep(before, n, after)
  }

  // found lists the states met when the lock is taken again after a delay or a wait.  Memory use,
  // the number of level-0 files and the file system choose freely among the branches; a level 0 full
  // enough to stop writes needs a compaction.
  method MakeRoomForWrite(start: State, force: bool, found: seq<State>)
    returns (outcome: Outcome, s: State, ghost switches: seq<(State, State)>, ghost waited: seq<State>)
    requires AtFront(start) && forall i :: 0 <= i < |found| ==> AtFront(found[i])
    ensures forall i :: 0 <= i < |switches| ==> Switched(switches[i].0, switches[i].1)
    ensures outcome.HasRoom? ==> AtFront(s) && !s.phase.m.bgError && (force ==> switches != [])
    ensures outcome.Refused? ==> AtFront(s) && s.phase.m.bgError
    ensures outcome.NoLogFile? ==> AtFront(s) && !s.phase.m.bgError && s.phase.m.imm.None?
    ensures outcome.StillWaiting? ==> AtFront(s) && !s.phase.m.bgError
    ensures forall i :: 0 <= i < |waited| ==> Waits(waited[i])
    ensures s in [start] + found || (switches != [] && s == switches[|switches| - 1].1)
  {
    var allowDelay, forced, next := !force, force, 0;
    s := start;
    switches, waited := [], [];
    while true
      invariant AtFront(s) && next <= |found|
      invariant forced ==> force
      invariant force && !forced ==> switches != []
      invariant forall i :: 0 <= i < |switches| ==> Switched(switches[i].0, switches[i].1)
      invariant forall i :: 0 <= i < |waited| ==> Waits(waited[i])
      invariant s in [start] + found || (switches != [] && s == switches[|switches| - 1].1)
      decreases |found| - next, s.phase.m.imm.None?
    {
      var m := s.phase.m;
      var slow: bool, room: bool, full: bool, created: bool := *, *, *, *;
      if m.bgError { return Refused, s, switches, waited; }
      if allowDelay && slow {
        allowDelay := false;
        if next == |found| { return StillWaiting, s, switches, waited; }
        s := found[next];
        next := next + 1;
      } else if !forced && room {
        return HasRoom, s, switches, waited;
      } else if m.imm.Some? || (m.needs && full) {
        waited := waited + [s];
        if next == |found| { return StillWaiting, s, switches, waited; }
        s := found[next];
        next := next + 1;
      } else {
        if !created { return NoLogFile, s, switches, waited; }
        var newLog := m.nextFile;
        var after := s.(disk := s.disk.(logs := s.disk.logs[newLog := Log([], 0)]),
                        phase := Up(MaybeSchedule(m.(nextFile := newLog + 1, logNumber := newLog,
                                                     imm := Some(m.logNumber),
                                                     hasImm := true, heap := m.heap[newLog := {}]))));
        assert SwitchStep(s, newLog, after);
        switches := switches + [(s, after)];
        s := after;
        forced := false;
      }
    }
  }
}
