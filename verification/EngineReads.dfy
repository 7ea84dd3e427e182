// What reads see: a write that ended Ok, a snapshot taken after it, and nothing else.
module EngineReads {
  import opened InternalKeys
  import opened Views
  import opened Engine
  import opened EngineInvariant
  import opened EngineTheorems
  import opened EngineSafety

  // ---------- What a read is ----------

  // A read at an entry's own sequence number finds that entry; a deletion is found as nothing.
  lemma ReadAtOwnSequence(es: set<Entry>, e: Entry, v: Value)
    requires Unique(es) && e in es
    ensures Reads(es, e.key, e.sn, v) <==> e.kind.Put? && e.value == v
  {
    assert NewestIn(es, e.key, e.sn, e);
  }

  // Where nothing of the key has been written yet, nothing is found.
  lemma NothingWritten(es: set<Entry>, k: UserKey, s: Sequence, v: Value)
    requires forall e :: e in es && e.key == k ==> s < e.sn
    ensures !Reads(es, k, s, v)
  {
  }

  // And the answer only changes at an entry of the key.
  lemma ReadsBetween(es: set<Entry>, k: UserKey, s: Sequence, t: Sequence, v: Value)
    requires s <= t && forall e :: e in es && e.key == k ==> !(s < e.sn <= t)
    ensures Reads(es, k, s, v) <==> Reads(es, k, t, v)
  {
    forall e ensures NewestIn(es, k, s, e) <==> NewestIn(es, k, t, e) {}
  }

  // ---------- A new snapshot ----------

  lemma HeldBelowLast(s: State, e: Entry)
    requires Inv(s) && s.phase.Up? && e in Held(s.phase.m)
    ensures e.sn <= s.phase.m.lastSequence <==> e !in InFlight(s.phase.m)
    ensures e in s.issued
  {
    var d, m := s.disk, s.phase.m;
    assert MemOk(d, m, s.issued) && SequencesOk(d, m, s.issued) && VersionOk(d.tables, m.current, s.issued);
    assert e in s.issued;
  }

  lemma TakesLast(s: State, s': State)
    requires Step(s, TakeSnapshot, s')
    ensures s.phase.Up? && s'.phase.Up? && s'.phase.m.snapshots == s.phase.m.snapshots + [s.phase.m.lastSequence]
    ensures forall k, snap, v :: Answers(s', k, snap, v) <==> Answers(s, k, snap, v)
  {
    hide Reads, AnyVisible;
    assert SameLayers(s.phase.m, s'.phase.m) && s'.disk == s.disk;
  }

  lemma SnapshotsBelow(s: State)
    requires Inv(s) && s.phase.Up?
    ensures var m := s.phase.m; forall i :: 0 <= i < |m.snapshots| ==> m.snapshots[i] <= m.lastSequence
  {
    assert SnapshotsOk(s.phase.m);
  }

  // GetSnapshot adds one snapshot and leaves the others.  The new one sees every entry the database
  // holds but those of the write in progress, and reads at it answer like reads at LastSequence.
  lemma NewSnapshotSeesAll(s: State, s': State)
    requires Inv(s) && Step(s, TakeSnapshot, s')
    ensures s.phase.Up? && s'.phase.Up?
    ensures var m, m' := s.phase.m, s'.phase.m;
      && |m'.snapshots| == |m.snapshots| + 1
      && var newest := m'.snapshots[|m.snapshots|];
         && m'.snapshots == m.snapshots + [newest]
         && (forall i :: 0 <= i < |m.snapshots| ==> m.snapshots[i] <= newest)
         && (forall e :: e in Held(m) ==> (e.sn <= newest <==> e !in InFlight(m)))
         && forall k, v :: Answers(s', k, newest, v) <==> Answers(s, k, m.lastSequence, v)
  {
    hide Inv, Step, Answers, Held, InFlight;
    TakesLast(s, s');
    SnapshotsBelow(s);
    var m := s.phase.m;
    forall e | e in Held(m) ensures e.sn <= m.lastSequence <==> e !in InFlight(m) { HeldBelowLast(s, e); }
  }

  // ReleaseSnapshot removes one occurrence of the snapshot released and nothing else.
  lemma ReleaseRemovesOne(s: State, index: nat, s': State)
    requires Step(s, ReleaseSnapshot(index), s')
    ensures s.phase.Up? && s'.phase.Up? && index < |s.phase.m.snapshots|
    ensures multiset(s'.phase.m.snapshots) == multiset(s.phase.m.snapshots) - multiset{s.phase.m.snapshots[index]}
  {
    var all := s.phase.m.snapshots;
    assert all == all[..index] + ([all[index]] + all[index + 1..]);
  }

  // ---------- A write that ended Ok ----------

  lemma BatchHeld(s: State)
    requires Inv(s) && s.phase.Up? && s.phase.m.leader.Writing?
    requires s.phase.m.leader.stage.Done? && s.phase.m.leader.stage.ok
    ensures s.phase.m.leader.batch <= Held(s.phase.m)
  {
    assert LeaderOk(s.disk, s.phase.m) && NumbersOk(s.disk, s.phase.m);
  }

  lemma EndedBelowLast(s: State, s': State)
    requires Inv(s) && Step(s, EndWrite, s')
    ensures s.phase.Up? && s.phase.m.leader.Writing? && s.phase.m.leader.stage.Done? && s'.phase.Up?
    ensures s.phase.m.lastSequence <= s'.phase.m.lastSequence
    ensures forall e :: e in s.phase.m.leader.batch ==> e.sn <= s'.phase.m.lastSequence
  {
    hide Inv, EndWriteStep;
    EndIs(s, s');
    EndMovesLast(s, s');
    BatchInRange(s);
  }

  lemma EndIs(s: State, s': State)
    requires Step(s, EndWrite, s')
    ensures s.phase.Up? && EndWriteStep(s, s')
  {
    hide EndWriteStep;
  }

  lemma BatchInRange(s: State)
    requires Inv(s) && s.phase.Up? && s.phase.m.leader.Writing?
    ensures var m := s.phase.m; forall e :: e in m.leader.batch ==> e.sn <= m.lastSequence + m.leader.count
  {
    assert SequencesOk(s.disk, s.phase.m, s.issued);
  }

  // When Write returns Ok the database holds all of its entries, and each key of the batch reads as
  // its newest entry there.
  lemma WriteIsRead(s: State, s': State, e: Entry)
    requires Inv(s) && Step(s, EndWrite, s') && SafePick(s, EndWrite)
    requires s.phase.Up? && s.phase.m.leader.Writing? && s.phase.m.leader.stage.Done? && s.phase.m.leader.stage.ok
    requires e in s.phase.m.leader.batch
    requires forall f :: f in s.phase.m.leader.batch && f.key == e.key ==> f.sn <= e.sn
    ensures s'.phase.Up? && s.phase.m.leader.batch <= Held(s'.phase.m)
    ensures forall v :: Answers(s', e.key, s'.phase.m.lastSequence, v) <==> e.kind.Put? && e.value == v
  {
    hide Inv, Step, Answers, Held;
    BatchHeld(s);
    EndedBelowLast(s, s');
    StepKeeps(s, EndWrite, s');
    StepContents(s, EndWrite, s');
    NewestOfKey(s, e);
    var m' := s'.phase.m;
    assert NewestIn(Held(m'), e.key, m'.lastSequence, e);
    forall v ensures Answers(s', e.key, m'.lastSequence, v) <==> e.kind.Put? && e.value == v {
      ReadsAtLast(s', e.key, v);
      ContentsUnique(s');
    }
  }

  // A sync write that ends Ok is acknowledged, and no other entry is.
  lemma SyncAcknowledged(s: State, s': State)
    requires Step(s, EndWrite, s')
    ensures s.phase.Up? && s.phase.m.leader.Writing? && s.phase.m.leader.stage.Done?
    ensures var l := s.phase.m.leader;
      forall e :: e in s'.acked <==> e in s.acked || (l.sync && l.stage.ok && e in l.batch)
  {
  }

  lemma NewestOfKey(s: State, e: Entry)
    requires Inv(s) && s.phase.Up? && s.phase.m.leader.Writing? && e in s.phase.m.leader.batch
    requires forall f :: f in s.phase.m.leader.batch && f.key == e.key ==> f.sn <= e.sn
    ensures forall f :: f in Held(s.phase.m) && f.key == e.key ==> f.sn <= e.sn
  {
    assert SequencesOk(s.disk, s.phase.m, s.issued);
    forall f | f in Held(s.phase.m) && f.key == e.key ensures f.sn <= e.sn { HeldBelowLast(s, f); }
  }

  lemma LastGrows(s: State, ev: Event, s': State)
    requires s.phase.Up? && s'.phase.Up? && Step(s, ev, s')
    ensures s.phase.m.lastSequence <= s'.phase.m.lastSequence
  {
    hide BackgroundStep, BuildTableStep, FinishMergeStep, InstallStep, EndWriteStep;
    match ev {
      case Background(pick) => SameLast(s, ev, s');
      case BuildTable(ok) => SameLast(s, ev, s');
      case FinishMerge(ok) => SameLast(s, ev, s');
      case Install(d', needs) => SameLast(s, ev, s');
      case EndWrite => EndMovesLast(s, s');
      case _ =>
    }
  }

  lemma EndMovesLast(s: State, s': State)
    requires s.phase.Up? && EndWriteStep(s, s')
    ensures s.phase.m.leader.Writing? && s.phase.m.leader.stage.Done?
    ensures s'.phase.Up? && s'.phase.m.lastSequence == s.phase.m.lastSequence + s.phase.m.leader.count
  {
  }

  lemma SameLast(s: State, ev: Event, s': State)
    requires s.phase.Up? && s'.phase.Up? && Step(s, ev, s')
    requires ev.Background? || ev.BuildTable? || ev.FinishMerge? || ev.Install?
    ensures s'.phase.m.lastSequence == s.phase.m.lastSequence
  {
    match ev {
      case Background(pick) => PickLast(s, pick, s');
      case BuildTable(ok) => BuildLast(s, ok, s');
      case FinishMerge(ok) => MergeLast(s, ok, s');
      case Install(d', needs) => InstallLast(s, d', needs, s');
    }
  }

  lemma JobsKeepLast(m: Memory, outer: Option<Compaction>)
    ensures FinishJob(m).lastSequence == m.lastSequence && AfterFlush(m, outer).lastSequence == m.lastSequence
    ensures RecordBackgroundError(m).lastSequence == m.lastSequence
  {
  }

  lemma EndKeepsLast(m: Memory, c: Compaction)
    ensures EndCompaction(m, c).lastSequence == m.lastSequence
  {
    JobsKeepLast(m.(pending := m.pending - c.outputs, manual := m.manual && !c.manual), None);
    hide FinishJob;
  }

  lemma PickLast(s: State, pick: Pick, s': State)
    requires s.phase.Up? && s'.phase.Up? && BackgroundStep(s, pick, s')
    ensures s'.phase.m.lastSequence == s.phase.m.lastSequence
  {
    var m := s.phase.m;
    JobsKeepLast(m, None);
    JobsKeepLast(m.(manual := false, needs := m.needs && m.manual), None);
    hide FinishJob;
  }

  lemma BuildLast(s: State, ok: bool, s': State)
    requires s.phase.Up? && s'.phase.Up? && BuildTableStep(s, ok, s')
    ensures s'.phase.m.lastSequence == s.phase.m.lastSequence
  {
    var m := s.phase.m;
    var m1 := m.(pending := m.pending - {m.job.num});
    JobsKeepLast(m1, m.job.outer);
    JobsKeepLast(RecordBackgroundError(m1), m.job.outer);
    hide AfterFlush, RecordBackgroundError;
  }

  lemma MergeLast(s: State, ok: bool, s': State)
    requires s.phase.Up? && s'.phase.Up? && FinishMergeStep(s, ok, s')
    ensures s'.phase.m.lastSequence == s.phase.m.lastSequence
  {
    var m := s.phase.m;
    JobsKeepLast(m, None);
    EndKeepsLast(RecordBackgroundError(m), m.job.c);
    hide EndCompaction, RecordBackgroundError;
  }

  lemma InstallLast(s: State, d': Disk, needs: bool, s': State)
    requires s.phase.Up? && s'.phase.Up? && InstallStep(s, d', needs, s')
    ensures s'.phase.m.lastSequence == s.phase.m.lastSequence
  {
    var m := s.phase.m;
    JobsKeepLast(m, None);
    var m1 := if m.job.ok then m.(current := Apply(m.current, m.job.edit), needs := needs)
              else RecordBackgroundError(m);
    hide FinishJob, AfterFlush, EndCompaction, RecordBackgroundError, Collected;
    match m.job.purpose {
      case Flush(outer) => JobsKeepLast(if m.job.ok then m1.(imm := None, hasImm := false) else m1, outer);
      case Compact(c) => EndKeepsLast(m1, c);
      case Move => JobsKeepLast(m1, None);
    }
  }

  lemma {:induction false} HeldStays(states: seq<State>, events: seq<Event>, i: nat, j: nat)
    requires Run(states, events) && i <= j < |states| && forall l :: i <= l <= j ==> states[l].phase.Up?
    ensures Held(states[i].phase.m) <= Held(states[j].phase.m)
    ensures states[i].phase.m.lastSequence <= states[j].phase.m.lastSequence
    decreases j - i
  {
    hide Inv, Step, Run, Held;
    if i < j {
      HeldStays(states, events, i, j - 1);
      Reachable(states, events, j - 1);
      RunStep(states, events, j - 1);
      StepContents(states[j - 1], events[j - 1], states[j]);
      LastGrows(states[j - 1], events[j - 1], states[j]);
    }
  }

  // Get of k at snap answers entry f: its value, or nothing when f is a deletion.
  ghost predicate FindsEntry(s: State, k: UserKey, snap: Sequence, f: Entry) {
    forall v :: Answers(s, k, snap, v) <==> f.kind.Put? && f.value == v
  }

  // A snapshot taken after a Write that returned Ok, the database staying up in between, reads each
  // entry of that write or a newer one of its key.
  lemma SnapshotReadsWrite(states: seq<State>, events: seq<Event>, i: nat, j: nat, e: Entry) returns (f: Entry)
    requires Run(states, events) && i < j < |events| && events[i] == EndWrite && events[j] == TakeSnapshot
    requires states[i].phase.Up? && states[i].phase.m.leader.Writing?
    requires states[i].phase.m.leader.stage.Done? && states[i].phase.m.leader.stage.ok
    requires e in states[i].phase.m.leader.batch && forall l :: i < l <= j + 1 ==> states[l].phase.Up?
    ensures var m, m' := states[j].phase.m, states[j + 1].phase.m;
      && |m'.snapshots| > 0
      && var newest := m'.snapshots[|m'.snapshots| - 1];
         NewestIn(Held(m), e.key, newest, f) && e.sn <= f.sn && FindsEntry(states[j + 1], e.key, newest, f)
  {
    RunLength(states, events);
    hide Run, Inv, Step, Answers, Held;
    Reachable(states, events, i);
    Reachable(states, events, j);
    RunStep(states, events, i);
    RunStep(states, events, j);
    BatchHeld(states[i]);
    EndedBelowLast(states[i], states[i + 1]);
    StepContents(states[i], EndWrite, states[i + 1]);
    HeldStays(states, events, i + 1, j);
    NewestSnapshot(states[j], states[j + 1]);
    f := ReadsOrNewer(states[j], e);
  }

  lemma ReadsOrNewer(s: State, e: Entry) returns (f: Entry)
    requires Inv(s) && s.phase.Up? && e in Held(s.phase.m) && e.sn <= s.phase.m.lastSequence
    ensures NewestIn(Held(s.phase.m), e.key, s.phase.m.lastSequence, f) && e.sn <= f.sn
    ensures forall v :: Answers(s, e.key, s.phase.m.lastSequence, v) <==> f.kind.Put? && f.value == v
  {
    hide Inv, Answers, Held;
    var m := s.phase.m;
    assert Visible(e, e.key, m.lastSequence);
    NewestExists(Held(m), e.key, m.lastSequence);
    f :| NewestIn(Held(m), e.key, m.lastSequence, f);
    forall v ensures Answers(s, e.key, m.lastSequence, v) <==> f.kind.Put? && f.value == v {
      ReadsAtLast(s, e.key, v);
      ContentsUnique(s);
    }
  }

  lemma RunLength(states: seq<State>, events: seq<Event>)
    requires Run(states, events)
    ensures |states| == |events| + 1
  {
  }

  lemma NewestSnapshot(s: State, s': State)
    requires Inv(s) && Step(s, TakeSnapshot, s')
    ensures s.phase.Up? && s'.phase.Up? && |s'.phase.m.snapshots| > 0
    ensures var newest := s'.phase.m.snapshots[|s'.phase.m.snapshots| - 1];
      && newest == s.phase.m.lastSequence
      && forall k, v :: Answers(s', k, newest, v) <==> Answers(s, k, s.phase.m.lastSequence, v)
  {
    NewSnapshotSeesAll(s, s');
  }

  // ---------- The end of a read ----------

  // The end of a read lets go of its references, and of no other read's.
  lemma ReadEnds(s: State, id: nat, seek: bool, s': State)
    requires Step(s, EndRead(id, seek), s')
    ensures s.phase.Up? && s'.phase.Up? && id in s.phase.m.readers && s'.phase.m.readers == s.phase.m.readers - {id}
  {
  }
}
