// Nothing a run can do leaves a database that cannot be opened again.
module EngineProgress {
  import opened InternalKeys
  import opened Views
  import opened Engine
  import opened EngineInvariant
  import opened EngineRecovery
  import opened EngineTheorems
  import opened EngineSafety

  lemma {:induction false} NumberBound(ns: set<nat>) returns (n: nat)
    ensures forall x :: x in ns ==> x < n
  {
    if ns == {} {
      n := 0;
    } else {
      var x :| x in ns;
      var rest := NumberBound(ns - {x});
      n := if rest <= x then x + 1 else rest;
      forall y | y in ns ensures y < n { assert y == x || y in ns - {x}; }
    }
  }

  lemma {:induction false} SequenceBound(es: set<Entry>) returns (s: Sequence)
    ensures Bounded(es, s)
  {
    if es == {} {
      s := 0;
    } else {
      var e :| e in es;
      s := SequenceBound(es - {e});
      s := if s < e.sn then e.sn else s;
    }
  }

  // A replay into at most one table and a fresh log.
  lemma CanReplay(s: State) returns (s': State)
    requires Inv(s) && s.phase.Down?
    ensures exists tables, newLog, nextFile :: ReplayStep(s, false, tables, newLog, nextFile, true, s')
    ensures s'.phase.Opening? && s'.phase.plan.save && s'.phase.plan.written.None? && s'.issued == s.issued
  {
    var d := s.disk;
    var logs := Replayed(d);
    var above := NumberBound(d.logs.Keys);
    var newLog := Max(above, Max(d.manifest.nextFile, d.manifest.logNumber + 1));
    var nextFile := newLog + 1;
    var flushed := LogEntries(d.logs, logs - {newLog});
    var n := d.manifest.nextFile;
    var tables: map<nat, set<Entry>> := if flushed == {} then map[] else map[n := flushed];
    assert Entries(tables, tables.Keys) == flushed by {
      if flushed != {} {
        forall e | e in flushed ensures e in Entries(tables, tables.Keys) { assert n in tables && e in tables[n]; }
      }
    }
    var bound := SequenceBound(LogEntries(d.logs, logs));
    var last := Max(bound, d.manifest.lastSequence);
    s' := s.(disk := d.(tables := d.tables + tables, logs := d.logs[newLog := Log([], 0)]),
             phase := Opening(Plan(Edit({}, tables.Keys, newLog, last, nextFile, flushed, 0), true, None,
                                   {}, newLog, last, nextFile)));
    forall e | e in LogEntries(d.logs, logs) ensures e.sn <= last {}
    assert ReplayStep(s, false, tables, newLog, nextFile, true, s');
  }

  lemma CanWrite(s: State) returns (s': State)
    requires s.phase.Opening? && s.phase.plan.save && s.phase.plan.written.None?
    ensures Step(s, OpenWrite(true, true), s')
    ensures s'.phase.Opening? && s'.phase.plan.save && s'.phase.plan.written == Some(true) && s'.issued == s.issued
  {
    var p := s.phase.plan;
    s' := s.(disk := s.disk.(manifest := Apply(s.disk.manifest, p.edit)), phase := Opening(p.(written := Some(true))));
  }

  lemma CanFinish(s: State) returns (s': State)
    requires s.phase.Opening? && s.phase.plan.save && s.phase.plan.written == Some(true)
    ensures Step(s, OpenDone(s.disk, false), s') && s'.phase.Up? && s'.issued == s.issued
  {
    s' := s.(phase := Up(MaybeSchedule(Opened(s.disk, s.phase.plan, false))));
    assert Collected(s.disk, s.disk, Opened(s.disk, s.phase.plan, false));
  }

  // From every state a crash or a failed opening can leave, three steps open the database, and
  // it holds exactly what had been issued and not lost with an unsynced record.
  lemma AlwaysRecoverable(s: State) returns (events: seq<Event>, states: seq<State>)
    requires Inv(s) && s.phase.Down?
    ensures |events| == 3 && |states| == 4 && states[0] == s
    ensures forall i :: 0 <= i < 3 ==> Step(states[i], events[i], states[i + 1])
    ensures states[3].phase.Up? && Held(states[3].phase.m) == s.issued
  {
    hide Inv, ReplayStep;
    var a := CanReplay(s);
    var tables, newLog, nextFile :| ReplayStep(s, false, tables, newLog, nextFile, true, a);
    var b := CanWrite(a);
    var c := CanFinish(b);
    events := [Replay(false, tables, newLog, nextFile, true), OpenWrite(true, true), OpenDone(b.disk, false)];
    states := [s, a, b, c];
    StepKeeps(s, events[0], a);
    StepKeeps(a, events[1], b);
    StepKeeps(b, events[2], c);
    RecoveredContents(b, b.disk, false, c);
  }

  // So a crash at any point of any run can be recovered from, with every acknowledged write.
  lemma CrashRecoverable(states: seq<State>, events: seq<Event>, i: nat, kept: map<nat, nat>)
    returns (more: seq<Event>, path: seq<State>)
    requires Run(states, events) && i < |events| && events[i] == Crash(kept)
    ensures |more| == 3 && |path| == 4 && path[0] == states[i + 1]
    ensures forall j :: 0 <= j < 3 ==> Step(path[j], more[j], path[j + 1])
    ensures path[3].phase.Up? && states[i].acked <= Held(path[3].phase.m)
  {
    hide Inv, Step;
    Reachable(states, events, i + 1);
    RunStep(states, events, i);
    var s := states[i + 1];
    CrashLeavesDown(states[i], kept, s);
    more, path := AlwaysRecoverable(s);
    forall e | e in states[i].acked ensures e in Held(path[3].phase.m) { AckedIssued(s, e); }
  }

  lemma CrashLeavesDown(s: State, kept: map<nat, nat>, s': State)
    requires Step(s, Crash(kept), s')
    ensures s'.phase.Down? && s'.acked == s.acked
  {
  }

  lemma AckedIssued(s: State, e: Entry)
    requires Inv(s) && s.phase.Down? && e in s.acked
    ensures e in s.issued
  {
    var d := s.disk;
    assert Durable(d, e);
    if e !in d.manifest.absorbed {
      var n :| n in d.logs && n >= d.manifest.logNumber && e in SyncedOf(d.logs[n]);
      assert e in AllOf(d.logs[n]) by {
        var i :| 0 <= i < d.logs[n].synced && e in d.logs[n].records[..d.logs[n].synced][i];
        assert e in d.logs[n].records[i];
      }
      assert n in Replayed(d);
      assert e in LogEntries(d.logs, Replayed(d));
    }
  }
}
