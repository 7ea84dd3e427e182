// Table compaction: which entries of a sorted input survive, how they are cut
// into output files, and why dropping the rest changes no read.
module CompactionModel {
  import opened InternalKeys
  import opened Views

  // ---------- The drop rules ----------

  // Entry i of the input is left out.  The first disjunct is the initial value
  // kMaxSequenceNumber of last_sequence_for_key meeting a snapshot that high.
  ghost predicate Dropped(input: seq<Entry>, i: nat, smallest: Sequence, base: iset<UserKey>)
    requires i < |input|
  {
    var e := input[i];
    || (MAX_SEQUENCE <= smallest && (i == 0 || input[i - 1].key != e.key))
    || (i > 0 && input[i - 1].key == e.key && input[i - 1].sn <= smallest)
    || (e.kind.Deletion? && e.sn <= smallest && e.key in base)
  }

  ghost function Kept(input: seq<Entry>, n: nat, smallest: Sequence, base: iset<UserKey>): seq<Entry>
    requires n <= |input|
  {
    if n == 0 then []
    else if Dropped(input, n - 1, smallest, base) then Kept(input, n - 1, smallest, base)
    else Kept(input, n - 1, smallest, base) + [input[n - 1]]
  }

  // The same rules on a set of entries, without reference to input order: an entry goes
  // when a newer one of its key is itself no newer than every snapshot, or when it is a
  // deletion marker with nothing of its key underneath.
  ghost predicate Obsolete(es: set<Entry>, e: Entry, smallest: Sequence, base: iset<UserKey>) {
    || (exists f :: f in es && f.key == e.key && e.sn < f.sn <= smallest)
    || (e.kind.Deletion? && e.sn <= smallest && e.key in base)
  }

  ghost function Survivors(es: set<Entry>, smallest: Sequence, base: iset<UserKey>): set<Entry> {
    set e | e in es && !Obsolete(es, e, smallest, base)
  }

  ghost function Elements(es: seq<Entry>): set<Entry> {
    set e | e in es
  }

  lemma {:induction false} InKept(input: seq<Entry>, n: nat, smallest: Sequence, base: iset<UserKey>, e: Entry)
    requires n <= |input|
    ensures e in Kept(input, n, smallest, base) <==>
            exists i :: 0 <= i < n && input[i] == e && !Dropped(input, i, smallest, base)
  {
    if n > 0 { InKept(input, n - 1, smallest, base, e); }
  }

  // First position holding e.
  function FirstIndex(input: seq<Entry>, e: Entry): (i: nat)
    requires e in input
    ensures i < |input| && input[i] == e && e !in input[..i]
  {
    if input[0] == e then 0 else 1 + FirstIndex(input[1..], e)
  }

  lemma KeptIsNotObsolete(input: seq<Entry>, i: nat, smallest: Sequence, base: iset<UserKey>)
    requires Sorted(input) && i < |input| && !Dropped(input, i, smallest, base)
    ensures !Obsolete(Elements(input), input[i], smallest, base)
  {
    var e := input[i];
    forall j | 0 <= j < |input| && input[j].key == e.key && e.sn < input[j].sn ensures input[j].sn > smallest {
      if i < j { SortedOrder(input, i, j); }
      SortedOrder(input, j, i);
      if j < i - 1 { SortedOrder(input, j, i - 1); SortedOrder(input, i - 1, i); }
    }
  }

  lemma FirstSurvivorIsKept(input: seq<Entry>, i: nat, smallest: Sequence, base: iset<UserKey>)
    requires Sorted(input) && Unique(Elements(input)) && smallest < MAX_SEQUENCE
    requires i < |input| && input[i] !in input[..i]
    requires !Obsolete(Elements(input), input[i], smallest, base)
    ensures !Dropped(input, i, smallest, base)
  {
    if i > 0 && input[i - 1].key == input[i].key {
      SortedOrder(input, i - 1, i);
      assert input[i - 1] in Elements(input) && input[i] in Elements(input);
      assert input[..i][i - 1] == input[i - 1];
    }
  }

  // The streaming rule with one remembered sequence decides exactly the order-free rule.
  lemma KeptAreSurvivors(input: seq<Entry>, smallest: Sequence, base: iset<UserKey>, e: Entry)
    requires Sorted(input) && Unique(Elements(input)) && smallest < MAX_SEQUENCE
    ensures e in Kept(input, |input|, smallest, base) <==> e in Survivors(Elements(input), smallest, base)
  {
    InKept(input, |input|, smallest, base, e);
    forall i | 0 <= i < |input| && !Dropped(input, i, smallest, base)
      ensures !Obsolete(Elements(input), input[i], smallest, base)
    {
      KeptIsNotObsolete(input, i, smallest, base);
    }
    if e in Survivors(Elements(input), smallest, base) {
      FirstSurvivorIsKept(input, FirstIndex(input, e), smallest, base);
    }
  }

  // So exactly two kinds of entries go: those hidden by a newer one of their key that every snapshot
  // sees, and markers every snapshot sees at their key's base level.
  lemma KeptExactly(input: seq<Entry>, smallest: Sequence, base: iset<UserKey>, e: Entry)
    requires Sorted(input) && Unique(Elements(input)) && smallest < MAX_SEQUENCE
    ensures e in Kept(input, |input|, smallest, base) <==>
            && e in input
            && (forall f :: f in input && f.key == e.key && e.sn < f.sn ==> smallest < f.sn)
            && !(e.kind.Deletion? && e.sn <= smallest && e.key in base)
  {
    KeptAreSurvivors(input, smallest, base, e);
    assert forall f :: f in input <==> f in Elements(input);
  }

  // What is left is lean: of each key at most one entry that every snapshot sees, and no marker
  // among them at the base level.
  lemma KeptIsLean(input: seq<Entry>, smallest: Sequence, base: iset<UserKey>, e: Entry, f: Entry)
    requires Sorted(input) && Unique(Elements(input)) && smallest < MAX_SEQUENCE
    requires e in Kept(input, |input|, smallest, base) && f in Kept(input, |input|, smallest, base)
    ensures e.key == f.key && e.sn <= smallest && f.sn <= smallest ==> e == f
    ensures e.sn <= smallest && e.key in base ==> e.kind.Put?
  {
    KeptExactly(input, smallest, base, e);
    KeptExactly(input, smallest, base, f);
    assert e in Elements(input) && f in Elements(input);
  }

  // The heart of compaction.  others are the live entries outside the inputs, in newer and in
  // deeper layers.
  //
  // A base-level deletion marker that goes while an older value outside the inputs waits for it:
  // the newest entry of its key that the oldest snapshot sees, above a value.
  ghost predicate Uncovers(inputs: set<Entry>, others: set<Entry>, smallest: Sequence, base: iset<UserKey>, t: Entry) {
    && t in inputs && t.kind.Deletion? && t.key in base
    && NewestIn(inputs + others, t.key, smallest, t)
    && exists o :: NewestIn(others, t.key, smallest, o) && o.kind.Put?
  }

  // Whatever the other layers hold, a compaction changes no read from the oldest snapshot on if
  // and only if it drops no marker that uncovers a value.
  lemma ReadsKeptIff(inputs: set<Entry>, others: set<Entry>, smallest: Sequence, base: iset<UserKey>)
    requires Unique(inputs + others)
    ensures SameFrom(inputs + others, Survivors(inputs, smallest, base) + others, smallest) <==>
            forall t :: !Uncovers(inputs, others, smallest, base, t)
  {
    var before, kept := inputs + others, Survivors(inputs, smallest, base);
    if t :| Uncovers(inputs, others, smallest, base, t) {
      var o :| NewestIn(others, t.key, smallest, o) && o.kind.Put?;
      UncoveredRead(inputs, others, smallest, base, t, o);
    } else {
      forall k, s, v | smallest <= s ensures Reads(before, k, s, v) <==> Reads(kept + others, k, s, v) {
        if AnyVisible(before, k, s) {
          NewestExists(before, k, s);
          var g :| NewestIn(before, k, s, g);
          NewestKept(inputs, others, smallest, base, k, s, g, v);
        }
      }
    }
  }

  // Of its key every input that the oldest snapshot sees goes.
  lemma NoSurvivorSeen(inputs: set<Entry>, others: set<Entry>, smallest: Sequence, base: iset<UserKey>, t: Entry)
    requires Unique(inputs + others) && Uncovers(inputs, others, smallest, base, t)
    ensures forall f :: f in Survivors(inputs, smallest, base) ==> !Visible(f, t.key, smallest)
  {
    forall f | f in inputs && Visible(f, t.key, smallest) ensures Obsolete(inputs, f, smallest, base) {
      assert f in inputs + others && t in inputs + others;
    }
  }

  lemma UncoveredRead(inputs: set<Entry>, others: set<Entry>, smallest: Sequence, base: iset<UserKey>, t: Entry,
          o: Entry)
    requires Unique(inputs + others)
    requires Uncovers(inputs, others, smallest, base, t) && NewestIn(others, t.key, smallest, o) && o.kind.Put?
    ensures !Reads(inputs + others, t.key, smallest, o.value)
    ensures Reads(Survivors(inputs, smallest, base) + others, t.key, smallest, o.value)
  {
    var before, after := inputs + others, Survivors(inputs, smallest, base) + others;
    NoSurvivorSeen(inputs, others, smallest, base, t);
    forall f | f in after && Visible(f, t.key, smallest) ensures f in others {}
    assert NewestIn(after, t.key, smallest, o);
  }

  lemma NewestKept(inputs: set<Entry>, others: set<Entry>, smallest: Sequence, base: iset<UserKey>,
                   k: UserKey, s: Sequence, g: Entry, v: Value)
    requires Unique(inputs + others) && smallest <= s && NewestIn(inputs + others, k, s, g)
    requires forall t :: !Uncovers(inputs, others, smallest, base, t)
    ensures Reads(inputs + others, k, s, v) <==> Reads(Survivors(inputs, smallest, base) + others, k, s, v)
  {
    var before, after := inputs + others, Survivors(inputs, smallest, base) + others;
    if g in after {
      assert NewestIn(after, k, s, g);
      forall e | NewestIn(before, k, s, e) || NewestIn(after, k, s, e) ensures e == g {}
    } else {
      assert g.kind.Deletion? && g.sn <= smallest && g.key in base;
      assert NewestIn(before, k, smallest, g) && !Uncovers(inputs, others, smallest, base, g);
      forall e | NewestIn(before, k, s, e) ensures e == g {}
      forall e | NewestIn(after, k, s, e) ensures NewestIn(others, k, smallest, e) && !e.kind.Put? {
        assert e in before && e.sn <= g.sn;
        forall f | f in others && Visible(f, k, smallest) ensures f.sn <= e.sn {
          assert f in after && Visible(f, k, s);
        }
      }
    }
  }

  // The same for the entries the loop keeps of a sorted, parsable input.
  lemma KeptReadsIff(input: seq<Entry>, others: set<Entry>, smallest: Sequence, base: iset<UserKey>)
    requires Sorted(input) && Unique(Elements(input) + others) && smallest < MAX_SEQUENCE
    ensures SameFrom(Elements(input) + others, Elements(Kept(input, |input|, smallest, base)) + others, smallest) <==>
            forall t :: !Uncovers(Elements(input), others, smallest, base, t)
  {
    ReadsKeptIff(Elements(input), others, smallest, base);
    forall e ensures e in Kept(input, |input|, smallest, base) <==> e in Survivors(Elements(input), smallest, base) {
      KeptAreSurvivors(input, smallest, base, e);
    }
    assert Elements(Kept(input, |input|, smallest, base)) == Survivors(Elements(input), smallest, base);
  }

  // ---------- IsBaseLevelForKey: a cursor per deeper level ----------

  datatype FileMeta = FileMeta(number: nat, smallest: UserKey, largest: UserKey)

  // Files of one level below the output level, in key order.  Neighbours may share a user key.
  ghost predicate LevelOrdered(files: seq<FileMeta>) {
    && (forall i :: 0 <= i < |files| ==> files[i].smallest <= files[i].largest)
    && (forall i, j :: 0 <= i < j < |files| ==> files[i].largest <= files[j].smallest)
  }

  ghost predicate Covered(deeper: seq<seq<FileMeta>>, k: UserKey) {
    exists lvl, i :: 0 <= lvl < |deeper| && 0 <= i < |deeper[lvl]| &&
      deeper[lvl][i].smallest <= k <= deeper[lvl][i].largest
  }

  ghost function BaseLevel(deeper: seq<seq<FileMeta>>): iset<UserKey> {
    iset k: UserKey | !Covered(deeper, k)
  }

  // Every deeper file's entries lie in the key range it is listed with.
  ghost predicate LaidOut(tables: map<nat, set<Entry>>, deeper: seq<seq<FileMeta>>) {
    && (forall lvl :: 0 <= lvl < |deeper| ==> LevelOrdered(deeper[lvl]))
    && forall lvl, i :: 0 <= lvl < |deeper| && 0 <= i < |deeper[lvl]| ==> RangeHolds(tables, deeper[lvl][i])
  }

  ghost predicate RangeHolds(tables: map<nat, set<Entry>>, f: FileMeta) {
    f.number in tables ==> forall e :: e in tables[f.number] ==> f.smallest <= e.key <= f.largest
  }

  ghost function DeeperFiles(deeper: seq<seq<FileMeta>>): set<nat> {
    set lvl, i | 0 <= lvl < |deeper| && 0 <= i < |deeper[lvl]| :: deeper[lvl][i].number
  }

  ghost function DeeperEntries(tables: map<nat, set<Entry>>, deeper: seq<seq<FileMeta>>): set<Entry> {
    set n, e | n in DeeperFiles(deeper) && n in tables && e in tables[n] :: e
  }

  ghost predicate NewerThan(newer: set<Entry>, inputs: set<Entry>) {
    forall i, o :: i in inputs && o in newer && i.key == o.key ==> i.sn < o.sn || i == o
  }

  // No deeper file holds a key that passes the base-level test.
  lemma DeeperNotBase(tables: map<nat, set<Entry>>, deeper: seq<seq<FileMeta>>, e: Entry)
    requires LaidOut(tables, deeper) && e in DeeperEntries(tables, deeper)
    ensures e.key !in BaseLevel(deeper)
  {
    var n :| n in DeeperFiles(deeper) && n in tables && e in tables[n];
    var lvl, i :| 0 <= lvl < |deeper| && 0 <= i < |deeper[lvl]| && deeper[lvl][i].number == n;
    assert RangeHolds(tables, deeper[lvl][i]);
  }

  // Under the level layout no marker uncovers a value.
  lemma LayoutUncoversNothing(inputs: set<Entry>, newer: set<Entry>, tables: map<nat, set<Entry>>,
                              deeper: seq<seq<FileMeta>>, smallest: Sequence, t: Entry)
    requires LaidOut(tables, deeper) && NewerThan(newer, inputs)
    ensures !Uncovers(inputs, newer + DeeperEntries(tables, deeper), smallest, BaseLevel(deeper), t)
  {
    var others := newer + DeeperEntries(tables, deeper);
    if t in inputs && t.kind.Deletion? && t.key in BaseLevel(deeper) {
      forall o | NewestIn(others, t.key, smallest, o) && o.kind.Put?
        ensures !NewestIn(inputs + others, t.key, smallest, t)
      {
        if o !in newer { DeeperNotBase(tables, deeper, o); }
      }
    }
  }

  // Compaction under the level layout: with newer layers above and the deeper levels below,
  // replacing the inputs by what the loop keeps under its own base-level test, tombstones
  // dropped, changes no read from the oldest snapshot on.
  lemma LayeredCompactionPreservesReads(input: seq<Entry>, newer: set<Entry>, tables: map<nat, set<Entry>>,
                                        deeper: seq<seq<FileMeta>>, smallest: Sequence)
    requires Sorted(input) && smallest < MAX_SEQUENCE
    requires Unique(Elements(input) + (newer + DeeperEntries(tables, deeper)))
    requires LaidOut(tables, deeper) && NewerThan(newer, Elements(input))
    ensures var others := newer + DeeperEntries(tables, deeper);
      SameFrom(Elements(input) + others, Elements(Kept(input, |input|, smallest, BaseLevel(deeper))) + others, smallest)
  {
    var others := newer + DeeperEntries(tables, deeper);
    forall t ensures !Uncovers(Elements(input), others, smallest, BaseLevel(deeper), t) {
      LayoutUncoversNothing(Elements(input), newer, tables, deeper, smallest, t);
    }
    KeptReadsIff(input, others, smallest, BaseLevel(deeper));
  }

  class LevelCursors {
    const deeper: seq<seq<FileMeta>>
    var ptrs: seq<nat>
    ghost var reached: Option<UserKey>   // largest key asked for so far

    ghost predicate Invariant()
      reads this
    {
      && |ptrs| == |deeper|
      && (forall lvl :: 0 <= lvl < |deeper| ==> LevelOrdered(deeper[lvl]) && ptrs[lvl] <= |deeper[lvl]|)
      && (forall lvl, i :: 0 <= lvl < |deeper| && 0 <= i < ptrs[lvl] ==>
            reached.Some? && deeper[lvl][i].largest < reached.value)
    }

    constructor (levels: seq<seq<FileMeta>>)
      requires forall lvl :: 0 <= lvl < |levels| ==> LevelOrdered(levels[lvl])
      ensures Invariant() && deeper == levels && reached == None
    {
      deeper := levels;
      ptrs := seq(|levels|, i => 0);
      reached := None;
    }

    // Keys must be asked for in ascending order; the cursors only move forward.
    method IsBaseLevelForKey(k: UserKey) returns (isBase: bool)
      requires Invariant() && (reached.Some? ==> reached.value <= k)
      modifies this
      ensures Invariant() && reached == Some(k)
      ensures isBase <==> k in BaseLevel(deeper)
    {
      var lvl := 0;
      reached := Some(k);
      while lvl < |deeper|
        invariant 0 <= lvl <= |deeper|
        invariant Invariant() && reached == Some(k)
        invariant forall l, i :: 0 <= l < lvl && 0 <= i < |deeper[l]| ==>
            !(deeper[l][i].smallest <= k <= deeper[l][i].largest)
      {
        var files := deeper[lvl];
        while ptrs[lvl] < |files|
          invariant lvl < |deeper| && files == deeper[lvl]
          invariant Invariant() && reached == Some(k)
          decreases |files| - ptrs[lvl]
        {
          var f := files[ptrs[lvl]];
          if k <= f.largest {
            if k >= f.smallest {
              return false;
            }
            break;
          }
          ptrs := ptrs[lvl := ptrs[lvl] + 1];
        }
        lvl := lvl + 1;
      }
      isBase := true;
    }
  }

  // ---------- The compaction loop and its output files ----------

  datatype Output = Output(number: nat, smallest: Option<Entry>, largest: Option<Entry>)

  ghost predicate Stored(outs: seq<Output>, files: map<nat, seq<Entry>>) {
    forall i :: 0 <= i < |outs| ==>
      && outs[i].number in files
      && var es := files[outs[i].number];
         es != [] && outs[i].smallest == Some(es[0]) && outs[i].largest == Some(es[|es| - 1])
  }

  // The last output's number is above those before it.
  ghost predicate LastIsNew(outs: seq<Output>) {
    forall i :: 0 <= i < |outs| - 1 ==> outs[i].number < outs[|outs| - 1].number
  }

  // Concatenated contents of finished output files.
  ghost function Contents(outs: seq<Output>, files: map<nat, seq<Entry>>): seq<Entry>
    requires Stored(outs, files)
  {
    if outs == [] then []
    else Contents(outs[..|outs| - 1], files) + files[outs[|outs| - 1].number]
  }

  lemma {:induction false} ContentsFrame(outs: seq<Output>, files: map<nat, seq<Entry>>, fs: map<nat, seq<Entry>>)
    requires Stored(outs, files)
    requires forall i :: 0 <= i < |outs| ==> outs[i].number in fs && fs[outs[i].number] == files[outs[i].number]
    ensures Stored(outs, fs) && Contents(outs, fs) == Contents(outs, files)
  {
    if outs != [] { ContentsFrame(outs[..|outs| - 1], files, fs); }
  }

  // Closing the last output file.
  lemma ContentsFinished(outs: seq<Output>, files: map<nat, seq<Entry>>, es: seq<Entry>)
    requires outs != [] && LastIsNew(outs) && Stored(outs[..|outs| - 1], files) && es != []
    requires var o := outs[|outs| - 1]; o.smallest == Some(es[0]) && o.largest == Some(es[|es| - 1])
    ensures var fs := files[outs[|outs| - 1].number := es];
      Stored(outs, fs) && Contents(outs, fs) == Contents(outs[..|outs| - 1], files) + es
  {
    ContentsFrame(outs[..|outs| - 1], files, files[outs[|outs| - 1].number := es]);
  }

  class CompactionState {
    const smallestSnapshot: Sequence
    var outputs: seq<Output>
    var builder: Option<seq<Entry>>       // entries of the open output file
    // What the steps under the lock share with the rest of the database.
    var nextFileNumber: nat
    var pendingOutputs: set<nat>
    var files: map<nat, seq<Entry>>       // finished table files

    constructor (snapshot: Sequence, next: nat, pending: set<nat>, tables: map<nat, seq<Entry>>)
      ensures smallestSnapshot == snapshot && outputs == [] && builder == None
      ensures nextFileNumber == next && pendingOutputs == pending && files == tables
    {
      smallestSnapshot := snapshot;
      outputs := [];
      builder := None;
      nextFileNumber := next;
      pendingOutputs := pending;
      files := tables;
    }

    // Output numbers are fresh, increasing and protected from garbage collection.
    ghost predicate Protected()
      reads this
    {
      && LastIsNew(outputs)
      && forall i :: 0 <= i < |outputs| ==> outputs[i].number < nextFileNumber && outputs[i].number in pendingOutputs
    }

    ghost function Finished(): seq<Output>
      reads this
    {
      if builder.Some? && outputs != [] then outputs[..|outputs| - 1] else outputs
    }

    ghost predicate Consistent()
      reads this
    {
      && Protected() && Stored(Finished(), files)
      && (builder.Some? ==>
            && outputs != [] && builder.value != []
            && var o := outputs[|outputs| - 1];
               o.smallest == Some(builder.value[0]) && o.largest == Some(builder.value[|builder.value| - 1]))
    }

    // Everything added so far, in order.
    ghost function Written(): seq<Entry>
      requires Consistent()
      reads this
    {
      Contents(Finished(), files) + if builder.Some? then builder.value else []
    }

    method OpenCompactionOutputFile() returns (ok: bool)
      requires builder.None? && Protected()
      modifies this
      ensures Protected() && files == old(files)
      ensures outputs == old(outputs) + [Output(old(nextFileNumber), None, None)]
      ensures builder == if ok then Some([]) else None
      ensures old(pendingOutputs) <= pendingOutputs
    {
      var number := nextFileNumber;
      nextFileNumber := nextFileNumber + 1;
      pendingOutputs := pendingOutputs + {number};
      outputs := outputs + [Output(number, None, None)];
      ok := *;   // the file system may refuse the new file
      if ok { builder := Some([]); }
    }

    method FinishCompactionOutputFile() returns (ok: bool)
      requires Consistent() && builder.Some?
      modifies this`builder, this`files
      ensures builder == None && Protected()
      ensures ok ==> Consistent() && Written() == old(Written())
    {
      var current := outputs[|outputs| - 1].number;
      ContentsFinished(outputs, files, builder.value);
      hide Contents, Stored, LastIsNew;
      ok := *;   // input status, table building, sync, close, and reading the table back
      if ok {
        files := files[current := builder.value];
      }
      builder := None;
    }

    // Adds one entry to the open output file.
    method Add(e: Entry)
      requires Protected() && Stored(Finished(), files) && builder.Some? && outputs != []
      requires builder.value != [] ==> Consistent()
      modifies this`outputs, this`builder
      ensures Consistent() && builder == Some(old(builder.value) + [e])
      ensures Finished() == old(Finished())
    {
      var n := |outputs| - 1;
      ghost var done := outputs[..n];
      var o := outputs[n];
      if builder.value == [] { o := o.(smallest := Some(e)); }
      outputs := outputs[..n] + [o.(largest := Some(e))];
      builder := Some(builder.value + [e]);
      assert outputs[..n] == done;
    }

    method AddToOutput(e: Entry) returns (ok: bool)
      requires Consistent()
      modifies this
      ensures Protected()
      ensures ok ==> Consistent() && builder.Some? && Written() == old(Written()) + [e]
    {
      ghost var done := Finished();
      ghost var before := Written();
      ok := true;
      if builder.None? {
        ok := OpenCompactionOutputFile();
        if !ok { return; }
        assert Finished() == done;
      }
      assert before == Contents(done, files) + builder.value;
      Add(e);
      assert Written() == Contents(done, files) + builder.value;
    }

    // Adds the entry and closes the output file if it is big enough.
    method Keep(e: Entry) returns (ok: bool)
      requires Consistent()
      modifies this
      ensures Protected()
      ensures ok ==> Consistent() && Written() == old(Written()) + [e]
    {
      ok := AddToOutput(e);
      var bigEnough: bool := *;
      if ok && bigEnough { ok := FinishCompactionOutputFile(); }
    }

    // The drop rules for entry i, given the sequence of the entry before it of the same key.
    method Decide(ghost input: seq<Entry>, ghost i: nat, e: Entry, lastSequenceForKey: Sequence, levels: LevelCursors)
      returns (drop: bool)
      requires i < |input| && e == input[i]
      requires lastSequenceForKey == if i > 0 && input[i - 1].key == e.key then input[i - 1].sn else MAX_SEQUENCE
      requires levels.Invariant() && (levels.reached.Some? ==> levels.reached.value <= e.key)
      modifies levels
      ensures levels.Invariant() && (levels.reached.Some? ==> levels.reached.value <= e.key)
      ensures drop <==> Dropped(input, i, smallestSnapshot, BaseLevel(levels.deeper))
    {
      drop := false;
      if lastSequenceForKey <= smallestSnapshot {
        drop := true;
      } else if e.kind.Deletion? && e.sn <= smallestSnapshot {
        drop := levels.IsBaseLevelForKey(e.key);
      }
    }

    // The first i input entries have been dealt with.
    ghost predicate Merged(input: seq<Entry>, i: nat, levels: LevelCursors)
      reads this, levels
    {
      && i <= |input| && levels.Invariant()
      && (levels.reached.Some? ==> i > 0 && levels.reached.value <= input[i - 1].key)
      && Consistent() && Written() == Kept(input, i, smallestSnapshot, BaseLevel(levels.deeper))
    }

    // One turn of the merge loop, up to advancing the input.
    method Process(ghost input: seq<Entry>, ghost i: nat, e: Entry, lastSequenceForKey: Sequence, levels: LevelCursors)
      returns (ok: bool)
      requires Sorted(input) && i < |input| && e == input[i]
      requires lastSequenceForKey == if i > 0 && input[i - 1].key == e.key then input[i - 1].sn else MAX_SEQUENCE
      requires Merged(input, i, levels)
      modifies this, levels
      ensures Protected()
      ensures ok ==> Merged(input, i + 1, levels)
    {
      if i > 0 { SortedOrder(input, i - 1, i); }
      hide Sorted;
      var shouldStopBefore: bool := *;
      if shouldStopBefore && builder.Some? {
        ok := FinishCompactionOutputFile();
        if !ok { return; }
      }
      var drop := Decide(input, i, e, lastSequenceForKey, levels);
      ok := true;
      if !drop { ok := Keep(e); }
    }

    lemma MergedProtected(input: seq<Entry>, i: nat, levels: LevelCursors)
      requires Merged(input, i, levels)
      ensures Protected()
    {
    }

    // The merge loop.
    method Merge(input: seq<Entry>, levels: LevelCursors) returns (ok: bool)
      requires Sorted(input) && Merged(input, 0, levels)
      modifies this, levels
      ensures Protected()
      ensures ok ==> Merged(input, |input|, levels)
    {
      hide *;
      MergedProtected(input, 0, levels);
      var hasCurrentUserKey := false;
      var currentUserKey: UserKey := 0;
      var lastSequenceForKey := MAX_SEQUENCE;
      var i := 0;
      ok := true;
      while i < |input|
        invariant 0 <= i <= |input| && Merged(input, i, levels) && Protected()
        invariant hasCurrentUserKey <==> i > 0
        invariant i > 0 ==> currentUserKey == input[i - 1].key && lastSequenceForKey == input[i - 1].sn
      {
        var shuttingDown: bool := *;
        if shuttingDown { return false; }
        var e := input[i];
        if !hasCurrentUserKey || currentUserKey != e.key {
          hasCurrentUserKey := true;
          currentUserKey := e.key;
          lastSequenceForKey := MAX_SEQUENCE;
        }
        ok := Process(input, i, e, lastSequenceForKey, levels);
        if !ok { return; }
        lastSequenceForKey := e.sn;
        i := i + 1;
      }
      ok := true;
    }

    // The file system, the shutdown flag, ShouldStopBefore and the output size limit choose
    // freely; on success the outputs hold exactly the kept entries whatever they choose.
    method DoCompactionWork(input: seq<Entry>, levels: LevelCursors) returns (ok: bool)
      requires Sorted(input) && levels.Invariant() && levels.reached == None
      requires outputs == [] && builder == None
      modifies this, levels
      ensures Protected()
      ensures ok ==> builder == None && Stored(outputs, files)
      ensures ok ==> Contents(outputs, files) == Kept(input, |input|, smallestSnapshot, BaseLevel(levels.deeper))
    {
      ok := Merge(input, levels);
      var shuttingDown: bool := *;
      if !ok || shuttingDown { return false; }
      if builder.Some? {
        ok := FinishCompactionOutputFile();
        if !ok { return; }
      }
      var inputStatus: bool := *;
      ok := inputStatus;
    }

    // Releases the protection of the outputs, installed or abandoned.
    method CleanupCompaction()
      modifies this`pendingOutputs, this`builder
      ensures builder == None
      ensures pendingOutputs == old(pendingOutputs) - (set i | 0 <= i < |outputs| :: outputs[i].number)
    {
      builder := None;
      var i := 0;
      while i < |outputs|
        invariant 0 <= i <= |outputs|
        invariant builder == None
        invariant pendingOutputs == old(pendingOutputs) - (set j | 0 <= j < i :: outputs[j].number)
      {
        pendingOutputs := pendingOutputs - {outputs[i].number};
        i := i + 1;
      }
    }
  }

  // The whole compaction, from the cursors on the deeper levels to the finished files: on success
  // the outputs read like the inputs over everything above and below them.
  method CompactLevels(state: CompactionState, input: seq<Entry>, deeper: seq<seq<FileMeta>>,
                       ghost newer: set<Entry>, ghost tables: map<nat, set<Entry>>) returns (ok: bool)
    requires state.outputs == [] && state.builder == None && state.smallestSnapshot < MAX_SEQUENCE
    requires Sorted(input) && Unique(Elements(input) + (newer + DeeperEntries(tables, deeper)))
    requires LaidOut(tables, deeper) && NewerThan(newer, Elements(input))
    modifies state
    ensures ok ==> Stored(state.outputs, state.files)
    ensures ok ==>
              var others := newer + DeeperEntries(tables, deeper);
              SameFrom(Elements(input) + others, Elements(Contents(state.outputs, state.files)) + others,
                       state.smallestSnapshot)
  {
    LayeredCompactionPreservesReads(input, newer, tables, deeper, state.smallestSnapshot);
    var levels := new LevelCursors(deeper);
    ok := state.DoCompactionWork(input, levels);
  }

  // ---------- The output files partition the kept entries in order ----------

  lemma {:induction false} KeptSorted(input: seq<Entry>, n: nat, smallest: Sequence, base: iset<UserKey>)
    requires Sorted(input) && n <= |input|
    ensures Sorted(Kept(input, n, smallest, base))
    ensures forall e :: e in Kept(input, n, smallest, base) ==> e in input[..n]
  {
    if n > 0 {
      KeptSorted(input, n - 1, smallest, base);
      var kept := Kept(input, n - 1, smallest, base);
      forall e | e in kept ensures AtOrBefore(e.key, e.sn, e.kind, input[n - 1]) && e in input[..n] {
        var j :| 0 <= j < n - 1 && input[..n - 1][j] == e;
        assert input[..n][j] == e && input[j] == e;
      }
    }
  }

  // Files come out in increasing, disjoint internal-key ranges.
  lemma {:induction false} OutputsIncrease(outs: seq<Output>, files: map<nat, seq<Entry>>, a: nat, b: nat)
    requires Stored(outs, files) && Sorted(Contents(outs, files)) && a < b < |outs|
    ensures var x := outs[a].largest.value; AtOrBefore(x.key, x.sn, x.kind, outs[b].smallest.value)
    decreases |outs|
  {
    var n := |outs| - 1;
    var whole := Contents(outs, files);
    var front := Contents(outs[..n], files);
    if b < n {
      assert Sorted(front) by {
        forall i, j | 0 <= i < j < |front| ensures AtOrBefore(front[i].key, front[i].sn, front[i].kind, front[j]) {
          assert whole[i] == front[i] && whole[j] == front[j];
        }
      }
      OutputsIncrease(outs[..n], files, a, b);
    } else {
      var i := PositionOf(outs[..n], files, a);
      assert whole[i] == outs[a].largest.value;
      assert whole[|front|] == files[outs[n].number][0];
    }
  }

  lemma {:induction false} PositionOf(outs: seq<Output>, files: map<nat, seq<Entry>>, a: nat) returns (i: nat)
    requires Stored(outs, files) && a < |outs|
    ensures i < |Contents(outs, files)| && Contents(outs, files)[i] == outs[a].largest.value
    decreases |outs|
  {
    var n := |outs| - 1;
    if a == n {
      i := |Contents(outs, files)| - 1;
    } else {
      i := PositionOf(outs[..n], files, a);
    }
  }
}
