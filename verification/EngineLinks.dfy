// How the parts fit: the merge loop does what the engine's merge step asks, a committed group is
// a batch the engine accepts, and the cursor shows what Get answers.
module EngineLinks {
  import opened InternalKeys
  import opened Views
  import opened Engine
  import opened EngineInvariant
  import opened EngineWrites
  import C = CompactionModel
  import I = DBIterModel
  import W = WriteQueue
  import T = EngineTheorems

  // ---------- The merge loop and the merge step ----------

  // The tables the outputs became, as sets of entries.
  ghost predicate Holds(tables: map<nat, set<Entry>>, files: map<nat, seq<Entry>>, outs: seq<C.Output>) {
    forall i :: 0 <= i < |outs| ==>
      outs[i].number in tables && outs[i].number in files && tables[outs[i].number] == C.Elements(files[outs[i].number])
  }

  ghost function Numbers(outs: seq<C.Output>): set<nat> {
    set i | 0 <= i < |outs| :: outs[i].number
  }

  lemma {:induction false} OutputsHold(tables: map<nat, set<Entry>>, files: map<nat, seq<Entry>>, outs: seq<C.Output>)
    requires C.Stored(outs, files) && Holds(tables, files, outs)
    ensures Entries(tables, Numbers(outs)) == C.Elements(C.Contents(outs, files))
  {
    if outs == [] {
      assert Entries(tables, Numbers(outs)) == {};
    } else {
      var front, last := outs[..|outs| - 1], outs[|outs| - 1];
      OutputsHold(tables, files, front);
      assert Numbers(outs) == Numbers(front) + {last.number};
      var a, b := C.Contents(front, files), files[last.number];
      assert C.Contents(outs, files) == a + b;
      forall e ensures e in Entries(tables, Numbers(outs)) <==> e in C.Elements(a + b) {
        if e in Entries(tables, Numbers(outs)) {
          var n :| n in Numbers(outs) && n in tables && e in tables[n];
          if n != last.number { assert n in Numbers(front); }
        }
        if e in C.Elements(b) { assert last.number in Numbers(outs); }
        if e in C.Elements(a) {
          var n :| n in Numbers(front) && n in tables && e in tables[n];
          assert n in Numbers(outs);
        }
      }
    }
  }

  // When DoCompactionWork has reported success on the sorted merge of the inputs, the output
  // tables hold exactly the survivors the engine's FinishMerge step requires.
  lemma MergeLoopJustifiesStep(tables: map<nat, set<Entry>>, files: map<nat, seq<Entry>>, outs: seq<C.Output>,
                               input: seq<Entry>, inputs: set<nat>, smallest: Sequence, base: iset<UserKey>)
    requires C.Stored(outs, files) && Holds(tables, files, outs)
    requires Sorted(input) && C.Elements(input) == Entries(tables, inputs) && Unique(C.Elements(input))
    requires C.Contents(outs, files) == C.Kept(input, |input|, smallest, base) && smallest < MAX_SEQUENCE
    ensures Entries(tables, Numbers(outs)) == C.Survivors(Entries(tables, inputs), smallest, base)
  {
    OutputsHold(tables, files, outs);
    forall e
      ensures e in C.Kept(input, |input|, smallest, base) <==> e in C.Survivors(C.Elements(input), smallest, base)
    {
      C.KeptAreSurvivors(input, smallest, base, e);
    }
  }

  // ---------- A committed group is a batch ----------

  // A log record's operations with the sequence numbers they get.
  ghost function Stamped(r: W.Record): set<Entry> {
    set i | 0 <= i < |r.ops| :: Entry(r.ops[i].key, r.first + i, r.ops[i].kind, r.ops[i].value)
  }

  // Operation i of a record stands in the engine under its own key, kind and value at the record's
  // first sequence number plus i, and nothing else does.
  lemma StampedAre(first: Sequence, ops: seq<W.Operation>, e: Entry)
    ensures e in Stamped(W.Record(first, ops)) <==>
            && first <= e.sn < first + |ops|
            && var op := ops[e.sn - first]; e.key == op.key && e.kind == op.kind && e.value == op.value
  {
    if first <= e.sn < first + |ops| {
      var i := e.sn - first;
      assert Entry(ops[i].key, first + i, ops[i].kind, ops[i].value) in Stamped(W.Record(first, ops));
    }
  }

  lemma GroupIsBatch(last: Sequence, ops: seq<W.Operation>)
    ensures BatchOk(Stamped(W.Record(last + 1, ops)), last, |ops|)
  {
  }

  // ---------- The cursor and Get ----------

  // All entries the internal iterator of a running database merges.
  ghost function AllLayers(d: Disk, m: Memory): set<Entry> {
    MemOf(m) + ImmOf(m) + Entries(d.tables, m.current.files)
  }

  lemma SequenceReads(es: seq<Entry>, k: UserKey, s: Sequence, v: Value)
    requires Unique(C.Elements(es))
    ensures I.ReadsAs(es, k, s, v) <==> Reads(C.Elements(es), k, s, v)
  {
    if I.ReadsAs(es, k, s, v) {
      var i :| 0 <= i < |es| && I.Newest(es, k, s, i) && es[i].kind.Put? && es[i].value == v;
      assert NewestIn(C.Elements(es), k, s, es[i]);
    }
    if Reads(C.Elements(es), k, s, v) {
      var e :| NewestIn(C.Elements(es), k, s, e) && e.kind.Put? && e.value == v;
      var i := C.FirstIndex(es, e);
      forall j | 0 <= j < |es| && es[j].key == k && es[j].sn <= s
        ensures es[j].sn < es[i].sn || (es[j].sn == es[i].sn && i <= j)
      {
        assert es[j] in C.Elements(es);
        if j < i { assert es[..i][j] == es[j]; }
      }
      assert I.Newest(es, k, s, i);
    }
  }

  lemma LayersAnswer(d: Disk, m: Memory, issued: set<Entry>, k: UserKey, snap: Sequence, v: Value)
    requires OneEntryPerSequence(issued) && MemOk(d, m, issued) && VersionOk(d.tables, m.current, issued)
    requires SequencesOk(d, m, issued) && m.logNumber in m.heap
    ensures Get(d, m, k, snap, v) <==> Reads(AllLayers(d, m), k, snap, v)
  {
    LayersUnique(d, m, issued);
    ImmSettled(d, m, issued);
    hide MemOk, SequencesOk, VersionOk, Reads, AnyVisible;
    var mem, imm, tables := MemOf(m), ImmOf(m), Entries(d.tables, m.current.files);
    LayeredRead(mem, imm + tables, k, snap, v);
    LayeredRead(imm, tables, k, snap, v);
    assert mem + (imm + tables) == AllLayers(d, m);
  }

  // A cursor opened on all layers at a snapshot shows a key with a value exactly when Get at that
  // snapshot answers so.
  lemma CursorShowsWhatGetAnswers(s: State, es: seq<Entry>, snap: Sequence, k: UserKey, v: Value)
    requires Inv(s) && s.phase.Up?
    requires Sorted(es) && C.Elements(es) == AllLayers(s.disk, s.phase.m)
    ensures (k, v) in I.View(es, snap) <==> T.Answers(s, k, snap, v)
  {
    LayersUnique(s.disk, s.phase.m, s.issued);
    LayersAnswer(s.disk, s.phase.m, s.issued, k, snap, v);
    hide Get, AllLayers, Reads;
    I.ViewIsReads(es, snap, k, v);
    SequenceReads(es, k, snap, v);
  }

  lemma LayersUnique(d: Disk, m: Memory, issued: set<Entry>)
    requires OneEntryPerSequence(issued) && MemOk(d, m, issued) && VersionOk(d.tables, m.current, issued)
    ensures AllLayers(d, m) <= issued && Unique(AllLayers(d, m))
    ensures Entries(d.tables, m.current.files) <= m.current.absorbed
  {
  }
}
