// Which merges the engine can afford: exactly those that uncover no value.  Where the level layout
// holds none does; the inputs the code picks can break it, and then a deleted key is read again.
module EngineMerges {
  import opened InternalKeys
  import opened Views
  import opened CompactionModel
  import opened Engine
  import opened EngineInvariant
  import opened EngineTables
  import opened EngineTheorems
  import P = Picking

  // ---------- The level layout is enough ----------

  // The layout the version set is meant to keep: the files below the output level are listed with
  // ranges that hold their entries, and all other files hold only newer entries of an input's key.
  ghost predicate LevelLayout(tables: map<nat, set<Entry>>, files: set<nat>, c: Compaction) {
    && DeeperFiles(c.deeper) <= files - c.inputs && LaidOut(tables, c.deeper)
    && NewerThan(Entries(tables, files - c.inputs - DeeperFiles(c.deeper)), Entries(tables, c.inputs))
  }

  lemma DeeperSplit(tables: map<nat, set<Entry>>, files: set<nat>, c: Compaction)
    requires DeeperFiles(c.deeper) <= files - c.inputs
    ensures Entries(tables, files - c.inputs)
      == Entries(tables, files - c.inputs - DeeperFiles(c.deeper)) + DeeperEntries(tables, c.deeper)
  {
    var deeper := DeeperFiles(c.deeper);
    EntriesUnion(tables, files - c.inputs - deeper, deeper);
    assert files - c.inputs - deeper + deeper == files - c.inputs;
    assert Entries(tables, deeper) == DeeperEntries(tables, c.deeper);
  }

  lemma LayoutIsSafe(tables: map<nat, set<Entry>>, files: set<nat>, c: Compaction)
    requires LevelLayout(tables, files, c)
    ensures UncoversNothing(tables, files, c)
  {
    DeeperSplit(tables, files, c);
    var newer := Entries(tables, files - c.inputs - DeeperFiles(c.deeper));
    hide LaidOut, NewerThan, Uncovers, BaseLevel, Entries;
    var ins, others := Entries(tables, c.inputs), Entries(tables, files - c.inputs);
    forall t ensures !Uncovers(ins, others, c.smallest, BaseLevel(c.deeper), t) {
      LayoutUncoversNothing(ins, newer, tables, c.deeper, c.smallest, t);
    }
  }

  // ---------- What SetupOtherInputs picks ----------

  // A level as the numbers of its files, and as their contents.
  ghost predicate Filed(tables: map<nat, set<Entry>>, numbers: seq<nat>, files: seq<seq<Entry>>) {
    && |numbers| == |files|
    && forall i :: 0 <= i < |files| ==> numbers[i] in tables && tables[numbers[i]] == Elements(files[i])
  }

  ghost function Numbers(numbers: seq<nat>, inputs: seq<nat>): set<nat> {
    set i | i in inputs && i < |numbers| :: numbers[i]
  }

  ghost function AllNumbers(numbers: seq<nat>): set<nat> {
    set i | 0 <= i < |numbers| :: numbers[i]
  }

  ghost predicate Different(numbers: seq<nat>) {
    forall i, j :: 0 <= i < j < |numbers| ==> numbers[i] != numbers[j]
  }

  // The version's files, sorted into the levels above, the two levels merged, and those below.
  ghost predicate Arranged(files: set<nat>, upper: set<nat>, level: seq<nat>, next: seq<nat>, deeper: set<nat>) {
    && files == upper + AllNumbers(level) + AllNumbers(next) + deeper
    && upper !! AllNumbers(level) !! AllNumbers(next) !! deeper
    && Different(level) && Different(next)
  }

  lemma FiledInside(tables: map<nat, set<Entry>>, numbers: seq<nat>, files: seq<seq<Entry>>, inputs: seq<nat>)
    requires Filed(tables, numbers, files) && Different(numbers)
    ensures Entries(tables, Numbers(numbers, inputs)) == P.Inside(files, inputs)
    ensures Entries(tables, AllNumbers(numbers) - Numbers(numbers, inputs)) == P.Outside(files, inputs)
  {
    forall e ensures e in Entries(tables, Numbers(numbers, inputs)) <==> e in P.Inside(files, inputs) {
      if e in P.Inside(files, inputs) {
        var i: nat :| i in inputs && i < |files| && e in files[i];
        assert numbers[i] in Numbers(numbers, inputs) && e in tables[numbers[i]];
      }
      if e in Entries(tables, Numbers(numbers, inputs)) {
        var n :| n in Numbers(numbers, inputs) && n in tables && e in tables[n];
        var i: nat :| i in inputs && i < |numbers| && numbers[i] == n;
        assert e in files[i];
      }
    }
    forall e
      ensures e in Entries(tables, AllNumbers(numbers) - Numbers(numbers, inputs)) <==> e in P.Outside(files, inputs)
    {
      if e in P.Outside(files, inputs) {
        var i: nat :| i < |files| && i !in inputs && e in files[i];
        assert numbers[i] in AllNumbers(numbers) && numbers[i] !in Numbers(numbers, inputs) && e in tables[numbers[i]];
      }
      if e in Entries(tables, AllNumbers(numbers) - Numbers(numbers, inputs)) {
        var n :| n in AllNumbers(numbers) - Numbers(numbers, inputs) && n in tables && e in tables[n];
        var i: nat :| i < |numbers| && numbers[i] == n;
        assert i !in inputs && e in files[i];
      }
    }
  }

  // A pick of the code on the files of a version obeys the level layout, and so may be merged,
  // unless its lower inputs end inside a user key.
  lemma PickIsSafe(tables: map<nat, set<Entry>>, files: set<nat>, upper: set<nat>, level: seq<nat>, next: seq<nat>,
                   depth: nat, filesOf: seq<seq<Entry>>, nextOf: seq<seq<Entry>>, ins: seq<nat>, lower: seq<nat>,
                   c: Compaction)
    requires Arranged(files, upper, level, next, DeeperFiles(c.deeper)) && LaidOut(tables, c.deeper)
    requires Filed(tables, level, filesOf) && Filed(tables, next, nextOf)
    requires P.Picked(depth, filesOf, nextOf, ins, lower) && P.Stacked(Entries(tables, upper), filesOf, nextOf)
    requires c.inputs == Numbers(level, ins) + Numbers(next, lower)
    requires !P.EndsInside(nextOf, lower)
    ensures LevelLayout(tables, files, c) && UncoversNothing(tables, files, c)
  {
    hide LaidOut, P.Picked, P.Stacked, P.EndsInside;
    var deeper := DeeperFiles(c.deeper);
    FiledInside(tables, level, filesOf, ins);
    FiledInside(tables, next, nextOf, lower);
    EntriesUnion(tables, Numbers(level, ins), Numbers(next, lower));
    PickedRest(files, upper, level, next, deeper, ins, lower);
    var a, b := AllNumbers(level) - Numbers(level, ins), AllNumbers(next) - Numbers(next, lower);
    EntriesUnion(tables, upper, a);
    EntriesUnion(tables, upper + a, b);
    P.NoSplitNewer(depth, Entries(tables, upper), filesOf, nextOf, ins, lower);
    hide Arranged, Filed, Entries, NewerThan, P.Inside, P.Outside, DeeperFiles;
    LayoutIsSafe(tables, files, c);
  }

  lemma PickedRest(files: set<nat>, upper: set<nat>, level: seq<nat>, next: seq<nat>, deeper: set<nat>,
                   ins: seq<nat>, lower: seq<nat>)
    requires Arranged(files, upper, level, next, deeper)
    ensures var inputs := Numbers(level, ins) + Numbers(next, lower);
      && deeper <= files - inputs
      && files - inputs - deeper
           == upper + (AllNumbers(level) - Numbers(level, ins)) + (AllNumbers(next) - Numbers(next, lower))
  {
    assert Numbers(level, ins) <= AllNumbers(level) && Numbers(next, lower) <= AllNumbers(next);
  }

  // ---------- The bound of a merge ----------

  // A merge may drop what the oldest snapshot does not need, and with no snapshot what LastSequence
  // does not need: its bound is the lowest of all of these, and one of them.
  lemma BoundIsOldest(s: State, c: Compaction, s': State)
    requires Inv(s) && Step(s, Background(PickMerge(c)), s') && StartsMerge(s, Background(PickMerge(c)))
    ensures var m := s.phase.m;
      && c.smallest <= m.lastSequence && (forall i :: 0 <= i < |m.snapshots| ==> c.smallest <= m.snapshots[i])
      && (if m.snapshots == [] then c.smallest == m.lastSequence else c.smallest in m.snapshots)
  {
    hide Inv, FinishJob, BeginFlush, Uncovers;
    SnapshotsOrdered(s);
  }

  lemma SnapshotsOrdered(s: State)
    requires Inv(s) && s.phase.Up?
    ensures SnapshotsOk(s.phase.m)
  {
  }

  // ---------- The exact condition, over every continuation ----------

  ghost predicate ReadyToMerge(s: State, c: Compaction) {
    && Inv(s) && s.phase.Up?
    && var m := s.phase.m;
       m.job.Scheduled? && !m.shutdown && !m.bgError && m.imm.None? && MergeOk(s.disk, m, c)
  }

  ghost predicate Goes(states: seq<State>, events: seq<Event>) {
    && |states| == |events| + 1
    && forall i :: 0 <= i < |events| ==> Step(states[i], events[i], states[i + 1])
  }

  // The tables of a running database read like everything ever moved into them.
  ghost predicate TablesComplete(s: State) {
    s.phase.Up? ==>
      var v := s.phase.m.current;
      SameFrom(Entries(s.disk.tables, v.files), v.absorbed, v.floor)
  }

  function Final(states: seq<State>): State {
    if states == [] then NewDatabase() else states[|states| - 1]
  }

  // Any continuation that starts with merge c: other events and crashes anywhere, later merges that
  // uncover nothing.
  ghost predicate After(s: State, c: Compaction, states: seq<State>, events: seq<Event>) {
    && Goes(states, events) && states[0] == s && events != [] && events[0] == Background(PickMerge(c))
    && forall i :: 0 < i < |events| ==> SafePick(states[i], events[i])
  }

  lemma {:induction false} SafeAfter(s: State, c: Compaction, states: seq<State>, events: seq<Event>, i: nat)
    requires ReadyToMerge(s, c) && UncoversNothing(s.disk.tables, s.phase.m.current.files, c)
    requires After(s, c, states, events) && i < |states|
    ensures Inv(states[i])
  {
    hide Inv, Step, UncoversNothing;
    if i > 0 {
      SafeAfter(s, c, states, events, i - 1);
      assert SafePick(states[i - 1], events[i - 1]);
      StepKeeps(states[i - 1], events[i - 1], states[i]);
    }
  }

  lemma InvComplete(s: State)
    requires Inv(s)
    ensures TablesComplete(s)
  {
    if s.phase.Up? { assert VersionOk(s.disk.tables, s.phase.m.current, s.issued); }
  }

  lemma OneTable(t: map<nat, set<Entry>>, n: nat)
    requires n in t
    ensures Entries(t, {n}) == t[n]
  {
    forall e | e in t[n] ensures e in Entries(t, {n}) { assert n in {n}; }
  }

  // The merge goes through without a hitch: one output file, a manifest record, installation.
  ghost function Output(s: State, c: Compaction): set<Entry> {
    Survivors(Entries(s.disk.tables, c.inputs), c.smallest, BaseLevel(c.deeper))
  }

  ghost predicate Merged(s: State, c: Compaction, s': State) {
    && s.phase.Up? && s'.phase.Up?
    && var m, m', num := s.phase.m, s'.phase.m, s.phase.m.nextFile;
       && s'.disk.tables == s.disk.tables[num := Output(s, c)]
       && m'.heap == m.heap && m'.logNumber == m.logNumber && m'.imm == m.imm && m'.snapshots == m.snapshots
       && m'.current.files == m.current.files - c.inputs + {num}
       && m'.current.absorbed == m.current.absorbed && m'.current.floor == Max(m.current.floor, c.smallest)
  }

  lemma EndKeeps(m: Memory, c: Compaction)
    ensures var m' := EndCompaction(m, c);
      && m'.heap == m.heap && m'.logNumber == m.logNumber && m'.imm == m.imm && m'.snapshots == m.snapshots
      && m'.current == m.current
  {
  }

  lemma MergeGoesThrough(s: State, c: Compaction) returns (states: seq<State>, events: seq<Event>)
    requires ReadyToMerge(s, c)
    ensures After(s, c, states, events) && |events| == 6 && Merged(s, c, states[6])
  {
    NotShutDown(s, c);
    hide ReadyToMerge, Merged, Output;
    var num := s.phase.m.nextFile;
    var s1, s2, s3 := WritesOutput(s, c);
    var s4, s5, s6 := Installs(s, c, s3);
    AfterPick(s, c, s1);
    hide Step, After;
    states, events := [s, s1], [Background(PickMerge(c))];
    states, events := GoOn(s, c, states, events, OpenOutput, s2);
    states, events := GoOn(s, c, states, events, WriteOutput(num, Output(s, c)), s3);
    states, events := GoOn(s, c, states, events, FinishMerge(true), s4);
    states, events := GoOn(s, c, states, events, WriteManifest(true, true), s5);
    states, events := GoOn(s, c, states, events, Install(s5.disk, false), s6);
  }

  lemma AfterPick(s: State, c: Compaction, s': State)
    requires Step(s, Background(PickMerge(c)), s')
    ensures After(s, c, [s, s'], [Background(PickMerge(c))])
  {
    hide Step;
  }

  lemma GoOn(s: State, c: Compaction, states: seq<State>, events: seq<Event>, ev: Event, s': State)
    returns (ss: seq<State>, es: seq<Event>)
    requires After(s, c, states, events) && Step(Final(states), ev, s') && !ev.Background?
    ensures After(s, c, ss, es) && |ss| == |states| + 1 && |es| == |events| + 1 && Final(ss) == s'
    ensures ss[|states|] == s'
  {
    hide Step, NewDatabase, UncoversNothing;
    ss, es := states + [s'], events + [ev];
    forall i | 0 <= i < |es| ensures Step(ss[i], es[i], ss[i + 1]) && (i > 0 ==> SafePick(ss[i], es[i])) {
      if i < |events| {
        assert Step(states[i], events[i], states[i + 1]);
        assert i > 0 ==> SafePick(states[i], events[i]);
      }
    }
  }

  // The state before the merge reports success.
  ghost predicate Written(s: State, c: Compaction, s': State) {
    && s.phase.Up?
    && var m, num := s.phase.m, s.phase.m.nextFile;
       s' == s.(disk := s.disk.(tables := s.disk.tables[num := Output(s, c)]),
                phase := Up(m.(nextFile := num + 1, pending := m.pending + {num},
                               job := Compacting(c.(outputs := {num})))))
  }

  lemma WritesOutput(s: State, c: Compaction) returns (s1: State, s2: State, s3: State)
    requires ReadyToMerge(s, c)
    ensures s.phase.Up? && Step(s, Background(PickMerge(c)), s1) && Step(s1, OpenOutput, s2)
    ensures Step(s2, WriteOutput(s.phase.m.nextFile, Output(s, c)), s3) && Written(s, c, s3)
  {
    s1 := StepPick(s, c);
    hide ReadyToMerge, Output, Step;
    s2 := StepOpen(s1);
    s3 := StepWrite(s2, s.phase.m.nextFile, Output(s, c));
  }

  lemma Installs(s: State, c: Compaction, s3: State) returns (s4: State, s5: State, s6: State)
    requires ReadyToMerge(s, c) && Written(s, c, s3)
    ensures Step(s3, FinishMerge(true), s4) && Step(s4, WriteManifest(true, true), s5)
    ensures Step(s5, Install(s5.disk, false), s6) && Merged(s, c, s6)
  {
    OutputHolds(s, c, s.phase.m.nextFile);
    NotShutDown(s, c);
    hide ReadyToMerge, Output, Step, Survivors;
    s4 := StepFinish(s3);
    s5 := StepLog(s4);
    s6 := StepInstall(s5);
  }

  lemma NotShutDown(s: State, c: Compaction)
    requires ReadyToMerge(s, c)
    ensures s.phase.Up? && !s.phase.m.shutdown
  {
  }

  lemma StepPick(s: State, c: Compaction) returns (s': State)
    requires ReadyToMerge(s, c)
    ensures Step(s, Background(PickMerge(c)), s') && s' == s.(phase := Up(s.phase.m.(job := Compacting(c))))
    ensures c.outputs == {}
  {
    s' := s.(phase := Up(s.phase.m.(job := Compacting(c))));
  }

  lemma StepOpen(s: State) returns (s': State)
    requires s.phase.Up? && s.phase.m.job.Compacting?
    ensures Step(s, OpenOutput, s')
    ensures var m := s.phase.m;
      s' == s.(phase := Up(m.(nextFile := m.nextFile + 1, pending := m.pending + {m.nextFile},
                              job := Compacting(m.job.c.(outputs := m.job.c.outputs + {m.nextFile})))))
  {
    var m := s.phase.m;
    s' := s.(phase := Up(m.(nextFile := m.nextFile + 1, pending := m.pending + {m.nextFile},
                            job := Compacting(m.job.c.(outputs := m.job.c.outputs + {m.nextFile})))));
  }

  lemma StepWrite(s: State, num: nat, es: set<Entry>) returns (s': State)
    requires s.phase.Up? && s.phase.m.job.Compacting? && num in s.phase.m.job.c.outputs
    ensures Step(s, WriteOutput(num, es), s') && s' == s.(disk := s.disk.(tables := s.disk.tables[num := es]))
  {
    s' := s.(disk := s.disk.(tables := s.disk.tables[num := es]));
  }

  // The new table holds the survivors, and the inputs are as they were.
  lemma OutputHolds(s: State, c: Compaction, num: nat)
    requires ReadyToMerge(s, c) && num == s.phase.m.nextFile
    ensures var t := s.disk.tables[num := Output(s, c)];
      Entries(t, {num}) == Survivors(Entries(t, c.inputs), c.smallest, BaseLevel(c.deeper))
  {
    var m := s.phase.m;
    assert NumbersOk(s.disk, m) && VersionOk(s.disk.tables, m.current, s.issued);
    assert num !in m.current.files;
    OneTable(s.disk.tables[num := Output(s, c)], num);
    EntriesFrame(s.disk.tables, s.disk.tables[num := Output(s, c)], c.inputs);
  }

  lemma StepFinish(s: State) returns (s': State)
    requires s.phase.Up? && s.phase.m.job.Compacting? && !s.phase.m.shutdown
    requires var c := s.phase.m.job.c;
      && c.outputs <= s.disk.tables.Keys
      && Entries(s.disk.tables, c.outputs) ==
         Survivors(Entries(s.disk.tables, c.inputs), c.smallest, BaseLevel(c.deeper))
    ensures Step(s, FinishMerge(true), s')
    ensures var m, c := s.phase.m, s.phase.m.job.c;
      s' == s.(phase := Up(m.(job := Logging(PlainEdit(m, c.inputs, c.outputs, c.smallest), Compact(c)))))
  {
    var m, c := s.phase.m, s.phase.m.job.c;
    hide Survivors, EndCompaction;
    s' := s.(phase := Up(m.(job := Logging(PlainEdit(m, c.inputs, c.outputs, c.smallest), Compact(c)))));
  }

  lemma StepLog(s: State) returns (s': State)
    requires s.phase.Up? && s.phase.m.job.Logging?
    ensures Step(s, WriteManifest(true, true), s')
    ensures var m := s.phase.m;
      s' == s.(disk := s.disk.(manifest := Apply(s.disk.manifest, m.job.edit)),
               phase := Up(m.(job := Logged(m.job.edit, m.job.purpose, true))))
  {
    var m := s.phase.m;
    s' := s.(disk := s.disk.(manifest := Apply(s.disk.manifest, m.job.edit)),
             phase := Up(m.(job := Logged(m.job.edit, m.job.purpose, true))));
  }

  lemma StepInstall(s: State) returns (s': State)
    requires s.phase.Up? && s.phase.m.job.Logged? && s.phase.m.job.ok && s.phase.m.job.purpose.Compact?
    ensures Step(s, Install(s.disk, false), s') && s'.phase.Up? && s'.disk == s.disk
    ensures var m, m' := s.phase.m, s'.phase.m;
      && m'.heap == m.heap && m'.logNumber == m.logNumber && m'.imm == m.imm && m'.snapshots == m.snapshots
      && m'.current == Apply(m.current, m.job.edit)
  {
    var m := s.phase.m;
    var m1 := m.(current := Apply(m.current, m.job.edit), needs := false);
    s' := s.(phase := Up(EndCompaction(m1, m.job.purpose.c)));
    EndKeeps(m1, m.job.purpose.c);
    hide EndCompaction;
    assert Collected(s.disk, s.disk, s'.phase.m);
  }

  lemma MergedEntries(s: State, c: Compaction, s': State)
    requires ReadyToMerge(s, c) && Merged(s, c, s')
    ensures var t, files := s.disk.tables, s.phase.m.current.files;
      && Entries(t, files) == Entries(t, c.inputs) + Entries(t, files - c.inputs)
      && Entries(s'.disk.tables, s'.phase.m.current.files) == Output(s, c) + Entries(t, files - c.inputs)
      && OneEntryPerSequence(s.issued) && Entries(t, files) <= s.issued && c.smallest >= s.phase.m.current.floor
  {
    var m, t, t', num := s.phase.m, s.disk.tables, s'.disk.tables, s.phase.m.nextFile;
    assert NumbersOk(s.disk, m) && VersionOk(t, m.current, s.issued) && SnapshotsOk(m) &&
        SequencesOk(s.disk, m, s.issued);
    assert num !in m.current.files;
    assert c.inputs + (m.current.files - c.inputs) == m.current.files;
    EntriesUnion(t, c.inputs, m.current.files - c.inputs);
    EntriesFrame(t, t', m.current.files - c.inputs);
    EntriesUnion(t', m.current.files - c.inputs, {num});
    OneTable(t', num);
  }

  // The exact condition for a merge: whatever happens from the moment it is picked, crashes and
  // later merges included, the tables keep reading like everything moved into them, if and only if
  // it uncovers nothing.
  lemma SafePickIff(s: State, c: Compaction)
    requires ReadyToMerge(s, c)
    ensures UncoversNothing(s.disk.tables, s.phase.m.current.files, c) <==>
            forall states, events :: After(s, c, states, events) ==> TablesComplete(Final(states))
  {
    hide Inv, UncoversNothing, After, TablesComplete;
    if UncoversNothing(s.disk.tables, s.phase.m.current.files, c) {
      forall states, events | After(s, c, states, events) ensures TablesComplete(Final(states)) {
        AfterNonempty(s, c, states, events);
        SafeAfter(s, c, states, events, |states| - 1);
        InvComplete(states[|states| - 1]);
      }
    } else {
      var states, events := MergeGoesThrough(s, c);
      AfterNonempty(s, c, states, events);
      UnsafeIncomplete(s, c, states[6]);
    }
  }

  lemma AfterNonempty(s: State, c: Compaction, states: seq<State>, events: seq<Event>)
    requires After(s, c, states, events)
    ensures |states| == |events| + 1 && states[0] == s
  {
  }

  lemma UnsafeIncomplete(s: State, c: Compaction, s': State)
    requires ReadyToMerge(s, c) && Merged(s, c, s') && !UncoversNothing(s.disk.tables, s.phase.m.current.files, c)
    ensures !TablesComplete(s')
  {
    var v, t := s.phase.m.current, s.disk.tables;
    InvComplete(s);
    MergedEntries(s, c, s');
    hide Inv, Merged, MergeOk, Entries, Survivors;
    ReadsKeptIff(Entries(t, c.inputs), Entries(t, v.files - c.inputs), c.smallest, BaseLevel(c.deeper));
    var before, after := Entries(t, v.files), Output(s, c) + Entries(t, v.files - c.inputs);
    if SameFrom(after, v.absorbed, c.smallest) {
      SameFromTransitive(before, v.absorbed, before, v.floor, v.floor, c.smallest);
      SameFromTransitive(after, v.absorbed, before, c.smallest, v.floor, c.smallest);
    }
  }

  // ---------- What Get answers ----------

  // Once a merge has gone through, Get answers as before at every sequence number from the oldest
  // snapshot on if and only if no dropped marker uncovers a value, memtable included.
  lemma AnswersKeptIff(s: State, c: Compaction, s': State)
    requires ReadyToMerge(s, c) && Merged(s, c, s')
    ensures (forall k, snap, v :: c.smallest <= snap ==> (Answers(s, k, snap, v) <==> Answers(s', k, snap, v))) <==>
            var m := s.phase.m;
            forall t :: !Uncovers(Entries(s.disk.tables, c.inputs),
                                  Entries(s.disk.tables, m.current.files - c.inputs) + MemOf(m),
                                  c.smallest, BaseLevel(c.deeper), t)
  {
    hide Inv, Merged, MergeOk, Entries, MemOf, ReadyToMerge, Output, Survivors, Answers, Reads, Uncovers;
    MergedMemory(s, c, s');
    var m, t := s.phase.m, s.disk.tables;
    var ins, others, mem := Entries(t, c.inputs), Entries(t, m.current.files - c.inputs), MemOf(m);
    MergedEntries(s, c, s');
    MemNewer(s);
    AnswersAre(s, ins, others, mem, s.issued);
    AnswersAre(s', Output(s, c), others, mem, s.issued);
    ReadsKeptIff(ins, others + mem, c.smallest, BaseLevel(c.deeper));
  }

  lemma AnswersAre(s: State, a: set<Entry>, b: set<Entry>, mem: set<Entry>, issued: set<Entry>)
    requires s.phase.Up? && s.phase.m.imm.None? && MemOf(s.phase.m) == mem
    requires Entries(s.disk.tables, s.phase.m.current.files) == a + b
    requires OneEntryPerSequence(issued) && mem + (a + b) <= issued && Older(a + b, mem)
    ensures forall k, snap, v :: Answers(s, k, snap, v) <==> Reads(a + (b + mem), k, snap, v)
  {
    assert mem + (a + b) == a + (b + mem);
    forall k, snap, v ensures Answers(s, k, snap, v) <==> Reads(a + (b + mem), k, snap, v) {
      TwoLayers(s.disk, s.phase.m, a + b, issued, k, snap, v);
    }
  }

  lemma MergedMemory(s: State, c: Compaction, s': State)
    requires ReadyToMerge(s, c) && Merged(s, c, s')
    ensures s.phase.Up? && s'.phase.Up? && s.phase.m.imm.None? && s'.phase.m.imm.None?
    ensures MemOf(s'.phase.m) == MemOf(s.phase.m)
    ensures Inv(s) && Output(s, c) <= Entries(s.disk.tables, c.inputs)
    ensures Output(s, c) == Survivors(Entries(s.disk.tables, c.inputs), c.smallest, BaseLevel(c.deeper))
  {
  }

  lemma MemNewer(s: State)
    requires Inv(s) && s.phase.Up?
    ensures var m := s.phase.m;
      && Older(Entries(s.disk.tables, m.current.files), MemOf(m)) && MemOf(m) <= s.issued
      && OneEntryPerSequence(s.issued)
  {
    var d, m := s.disk, s.phase.m;
    assert VersionOk(d.tables, m.current, s.issued) && MemOk(d, m, s.issued) && SequencesOk(d, m, s.issued);
    assert Entries(d.tables, m.current.files) <= Settled(d, m);
  }

  lemma TwoLayers(d: Disk, m: Memory, tables: set<Entry>, issued: set<Entry>, k: UserKey, snap: Sequence, v: Value)
    requires m.imm.None? && Entries(d.tables, m.current.files) == tables
    requires OneEntryPerSequence(issued) && MemOf(m) + tables <= issued && Older(tables, MemOf(m))
    ensures Get(d, m, k, snap, v) <==> Reads(MemOf(m) + tables, k, snap, v)
  {
    LayeredRead(MemOf(m), tables, k, snap, v);
    assert !AnyVisible(ImmOf(m), k, snap);
  }

  // ---------- A merge that brings a deleted key back ----------

  // Three tables, none above or below them: the upper level's file, and the two files of the next
  // level between which user key 2 is split.
  function SplitTables(): map<nat, set<Entry>> {
    map[1 := {P.TOP}, 2 := {P.LOW, P.GONE}, 3 := {P.STALE}]
  }

  function SplitEntries(): set<Entry> {
    {P.TOP, P.LOW, P.GONE, P.STALE}
  }

  function SplitDown(): State {
    State(Disk(map[], SplitTables(), Version({1, 2, 3}, 0, 10, 4, SplitEntries(), 0)), Down, SplitEntries(), {})
  }

  function SplitMerge(): Compaction {
    Compaction({1, 2}, 10, {}, [], false)
  }

  // These are the inputs the code picks there, on any level.
  lemma SplitPicked(depth: nat, ins: seq<nat>, lower: seq<nat>)
    requires P.Picked(depth, [[P.TOP]], [[P.LOW, P.GONE], [P.STALE]], ins, lower)
    ensures Filed(SplitTables(), [1], [[P.TOP]]) && Filed(SplitTables(), [2, 3], [[P.LOW, P.GONE], [P.STALE]])
    ensures SplitMerge().inputs == Numbers([1], ins) + Numbers([2, 3], lower)
  {
    assert ins[0] in ins;
    var files, next := [[P.TOP]], [[P.LOW, P.GONE], [P.STALE]];
    assert files[0] == [P.TOP] && next[0] == [P.LOW, P.GONE] && next[1] == [P.STALE];
    assert P.RangeOf(files, ins, 1, 1);
    assert P.Overlaps(next[0], 1, 1) && !P.Overlaps(next[1], 1, 1);
    assert 0 in lower && 1 !in lower && 0 in ins;
    assert Numbers([1], ins) == {1} && Numbers([2, 3], lower) == {2};
  }

  lemma SplitDownOk()
    ensures Inv(SplitDown())
  {
    var d := SplitDown().disk;
    FilesOfSplit();
    assert LogEntries(d.logs, Replayed(d)) == {};
  }

  lemma FilesOfSplit()
    ensures Entries(SplitTables(), {1, 2}) == {P.TOP, P.LOW, P.GONE} && Entries(SplitTables(), {3}) == {P.STALE}
    ensures Entries(SplitTables(), {1, 2, 3}) == SplitEntries()
  {
    var t := SplitTables();
    assert t[1] == {P.TOP} && t[2] == {P.LOW, P.GONE} && t[3] == {P.STALE};
    assert {1, 2} + {3} == {1, 2, 3};
    EntriesUnion(t, {1}, {2});
    EntriesUnion(t, {1, 2}, {3});
    assert {1} + {2} == {1, 2};
    assert Entries(t, {1}) == {P.TOP} && Entries(t, {2}) == {P.LOW, P.GONE} && Entries(t, {3}) == {P.STALE};
  }

  // Opened, with a snapshot taken and background work waiting.
  function SplitMemory(): Memory {
    Memory(map[4 := {}], None, false, 4, 10, 5, Version({1, 2, 3}, 4, 10, 5, SplitEntries(), 0), {}, [10],
           false, false, false, true, Free, Scheduled, map[])
  }

  function SplitDisk(): Disk {
    Disk(map[4 := Log([], 0)], SplitTables(), Version({1, 2, 3}, 4, 10, 5, SplitEntries(), 0))
  }

  function SplitUp(): State {
    State(SplitDisk(), Up(SplitMemory()), SplitEntries(), {})
  }

  function SplitPlan(written: Option<bool>): Plan {
    Plan(Edit({}, {}, 4, 10, 5, {}, 0), true, written, {}, 4, 10, 5)
  }

  // The way from the files on disk to a database with a snapshot taken.
  function SplitState(k: nat): State {
    var d := Disk(map[4 := Log([], 0)], SplitTables(), SplitDown().disk.manifest);
    if k == 0 then SplitDown()
    else if k == 1 then State(d, Opening(SplitPlan(None)), SplitEntries(), {})
    else if k == 2 then State(SplitDisk(), Opening(SplitPlan(Some(true))), SplitEntries(), {})
    else if k == 3 then State(SplitDisk(), Up(SplitMemory().(snapshots := [])), SplitEntries(), {})
    else SplitUp()
  }

  function SplitEvent(k: nat): Event {
    if k == 0 then Replay(false, map[], 4, 5, true) else if k == 1 then OpenWrite(true, true)
    else if k == 2 then OpenDone(SplitDisk(), true) else TakeSnapshot
  }

  lemma SplitStep(k: nat)
    requires k < 4
    ensures Step(SplitState(k), SplitEvent(k), SplitState(k + 1)) && SafePick(SplitState(k), SplitEvent(k))
  {
    if k == 0 {
      SplitReplays();
    } else if k == 1 {
      assert Apply(SplitDown().disk.manifest, SplitPlan(None).edit) == SplitDisk().manifest;
    } else if k == 3 {
      var none: seq<Sequence> := [];
      assert none + [10] == [10];
    }
  }

  lemma SplitReplays()
    ensures Step(SplitState(0), SplitEvent(0), SplitState(1))
  {
    var d, s := SplitDown().disk, SplitState(1);
    var none: map<nat, set<Entry>> := map[];
    assert Replayed(d) == {} && LogEntries(d.logs, Replayed(d) - {4}) == {} && LogEntries(d.logs, Replayed(d)) == {};
    assert d.tables + none == d.tables && d.logs[4 := Log([], 0)] == map[4 := Log([], 0)];
    assert none.Keys == {} && Entries(none, none.Keys) == {};
    var last: Sequence := 10;
    assert s == SplitDown().(disk := d.(tables := d.tables + none, logs := d.logs[4 := Log([], 0)]),
                             phase := Opening(Plan(Edit({}, none.Keys, 4, last, 5,
                                                        LogEntries(d.logs, Replayed(d) - {4}), 0),
                                                   true, None, {}, 4, last, 5)));
    assert ReplayStep(SplitDown(), false, none, 4, 5, true, s);
  }

  lemma SplitReady()
    ensures ReadyToMerge(SplitUp(), SplitMerge()) && Live(SplitUp(), 10)
  {
    SplitDownOk();
    SplitInv(4);
    SplitUpReady();
  }

  lemma {:induction false} SplitInv(k: nat)
    requires k <= 4 && Inv(SplitDown())
    ensures Inv(SplitState(k))
  {
    hide Inv, Step, SafePick;
    if k > 0 {
      SplitInv(k - 1);
      SplitStep(k - 1);
      StepKeeps(SplitState(k - 1), SplitEvent(k - 1), SplitState(k));
    }
  }

  lemma SplitUpReady()
    requires Inv(SplitUp())
    ensures ReadyToMerge(SplitUp(), SplitMerge()) && Live(SplitUp(), 10)
  {
    hide Inv;
  }

  // From a state that satisfies the invariant, with a snapshot held throughout, the merge of what
  // the code picks goes through and Get at the snapshot answers the deleted value.
  lemma DeletedKeyReadable() returns (states: seq<State>, events: seq<Event>)
    ensures ReadyToMerge(SplitUp(), SplitMerge()) && After(SplitUp(), SplitMerge(), states, events) && |events| == 6
    ensures !UncoversNothing(SplitUp().disk.tables, SplitUp().phase.m.current.files, SplitMerge())
    ensures Live(SplitUp(), 10) && Live(states[6], 10)
    ensures (forall v :: !Answers(SplitUp(), 2, 10, v)) && Answers(states[6], 2, 10, "old")
  {
    SplitReady();
    states, events := MergeGoesThrough(SplitUp(), SplitMerge());
    SplitUncovers();
    SplitAnswers(states[6]);
  }

  lemma SplitUncovers()
    ensures !UncoversNothing(SplitTables(), {1, 2, 3}, SplitMerge())
  {
    FilesOfSplit();
    assert {1, 2, 3} - {1, 2} == {3};
    P.GoneUncovers();
  }

  lemma SplitAnswers(s': State)
    requires ReadyToMerge(SplitUp(), SplitMerge()) && Merged(SplitUp(), SplitMerge(), s')
    ensures (forall v :: !Answers(SplitUp(), 2, 10, v)) && Answers(s', 2, 10, "old")
  {
    var ins, others := {P.TOP, P.LOW, P.GONE}, {P.STALE};
    SplitFiles(s');
    hide Inv, ReadyToMerge, Merged, Survivors, Entries, Reads, SplitTables;
    StaleRead();
    forall v ensures !Answers(SplitUp(), 2, 10, v) {
      NoMemtable(SplitDisk(), SplitMemory(), ins + others, 2, 10, v);
      GoneHides(v);
    }
    NoMemtable(s'.disk, s'.phase.m, Survivors(ins, 10, BaseLevel([])) + others, 2, 10, "old");
  }

  lemma SplitFiles(s': State)
    requires ReadyToMerge(SplitUp(), SplitMerge()) && Merged(SplitUp(), SplitMerge(), s')
    ensures Entries(SplitTables(), {1, 2, 3}) == {P.TOP, P.LOW, P.GONE} + {P.STALE}
    ensures s'.phase.Up? && MemOf(SplitMemory()) == {} && MemOf(s'.phase.m) == {}
    ensures ImmOf(SplitMemory()) == {} && ImmOf(s'.phase.m) == {}
    ensures Entries(s'.disk.tables, s'.phase.m.current.files)
      == Survivors({P.TOP, P.LOW, P.GONE}, 10, BaseLevel([])) + {P.STALE}
  {
    hide *;
    MergedSplit(SplitUp(), SplitMerge(), s');
    EmptyMemtables(s');
    FilesOfSplit();
    assert {1, 2, 3} - {1, 2} == {3};
  }

  lemma MergedSplit(s: State, c: Compaction, s': State)
    requires s == SplitUp() && c == SplitMerge() && ReadyToMerge(s, c) && Merged(s, c, s')
    ensures Entries(s'.disk.tables, s'.phase.m.current.files)
      == Survivors(Entries(SplitTables(), {1, 2}), 10, BaseLevel([])) + Entries(SplitTables(), {1, 2, 3} - {1, 2})
    ensures SplitEntries() == {P.TOP, P.LOW, P.GONE} + {P.STALE}
  {
    hide Inv, MergeOk, Survivors, Entries, SplitTables;
    MergedEntries(s, c, s');
  }

  lemma EmptyMemtables(s': State)
    requires Merged(SplitUp(), SplitMerge(), s')
    ensures s'.phase.Up? && MemOf(SplitMemory()) == {} && MemOf(s'.phase.m) == {}
    ensures ImmOf(SplitMemory()) == {} && ImmOf(s'.phase.m) == {}
  {
    hide Output, SplitTables;
  }

  lemma NoMemtable(d: Disk, m: Memory, tables: set<Entry>, k: UserKey, snap: Sequence, v: Value)
    requires MemOf(m) == {} && ImmOf(m) == {} && Entries(d.tables, m.current.files) == tables
    ensures Get(d, m, k, snap, v) <==> Reads(tables, k, snap, v)
  {
    assert !AnyVisible({}, k, snap);
  }

  lemma StaleRead()
    ensures Reads(Survivors({P.TOP, P.LOW, P.GONE}, 10, BaseLevel([])) + {P.STALE}, 2, 10, "old")
  {
    P.GoneUncovers();
    assert NewestIn({P.STALE}, 2, 10, P.STALE);
    UncoveredRead({P.TOP, P.LOW, P.GONE}, {P.STALE}, 10, BaseLevel([]), P.GONE, P.STALE);
  }

  lemma GoneHides(v: Value)
    ensures !Reads({P.TOP, P.LOW, P.GONE} + {P.STALE}, 2, 10, v)
  {
    assert P.GONE in {P.TOP, P.LOW, P.GONE} + {P.STALE} && Visible(P.GONE, 2, 10);
  }
}
