// Which files a compaction of levels L and L + 1 takes as inputs, and whether everything it leaves
// out is newer.
module Picking {
  import opened InternalKeys
  import opened Views
  import C = CompactionModel

  // ---------- Files and levels ----------

  // A table file is its entries in order.
  function First(file: seq<Entry>): UserKey
    requires file != []
  {
    file[0].key
  }

  function Last(file: seq<Entry>): UserKey
    requires file != []
  {
    file[|file| - 1].key
  }

  function LastEntry(file: seq<Entry>): Entry
    requires file != []
  {
    file[|file| - 1]
  }

  // Internal-key order.
  predicate Before(x: Entry, y: Entry) {
    x.key < y.key || (x.key == y.key && x.sn > y.sn)
  }

  ghost predicate FileOk(file: seq<Entry>) {
    file != [] && forall p, q :: 0 <= p < q < |file| ==> Before(file[p], file[q])
  }

  ghost predicate FilesOk(files: seq<seq<Entry>>) {
    forall i :: 0 <= i < |files| ==> FileOk(files[i])
  }

  ghost predicate FileBefore(f: seq<Entry>, g: seq<Entry>) {
    forall x, y :: x in f && y in g ==> Before(x, y)
  }

  // Files of a level above zero hold disjoint, increasing ranges of internal keys, though
  // neighbours may share a user key.  Files of level zero may overlap in any way.
  ghost predicate LevelOk(level: nat, files: seq<seq<Entry>>) {
    FilesOk(files) && (level > 0 ==> forall i, j :: 0 <= i < j < |files| ==> FileBefore(files[i], files[j]))
  }

  // Inputs are positions in a level's file list.
  predicate Within(files: seq<seq<Entry>>, inputs: seq<nat>) {
    forall k :: 0 <= k < |inputs| ==> inputs[k] < |files|
  }

  ghost function Inside(files: seq<seq<Entry>>, inputs: seq<nat>): set<Entry> {
    set i, e | i in inputs && i < |files| && e in files[i] :: e
  }

  ghost function Outside(files: seq<seq<Entry>>, inputs: seq<nat>): set<Entry> {
    set i, e | 0 <= i < |files| && i !in inputs && e in files[i] :: e
  }

  ghost function All(files: seq<seq<Entry>>): set<Entry> {
    set i, e | 0 <= i < |files| && e in files[i] :: e
  }

  predicate Overlaps(file: seq<Entry>, from: UserKey, to: UserKey)
    requires file != []
  {
    First(file) <= to && from <= Last(file)
  }

  // The user key that ends file i goes on in the next one.
  predicate SplitAfter(files: seq<seq<Entry>>, i: nat) {
    i + 1 < |files| && files[i] != [] && files[i + 1] != [] && Last(files[i]) == First(files[i + 1])
  }

  // The inputs end inside a user key.
  ghost predicate EndsInside(files: seq<seq<Entry>>, inputs: seq<nat>) {
    exists i: nat :: i in inputs && i + 1 !in inputs && SplitAfter(files, i)
  }

  ghost predicate NoRepeats(inputs: seq<nat>) {
    forall i, j :: 0 <= i < j < |inputs| ==> inputs[i] != inputs[j]
  }

  ghost predicate Convex(inputs: seq<nat>) {
    forall i: nat, j: nat, k: nat :: i in inputs && k in inputs && i <= j <= k ==> j in inputs
  }

  ghost predicate RangeOf(files: seq<seq<Entry>>, inputs: seq<nat>, lo: UserKey, hi: UserKey)
    requires FilesOk(files) && Within(files, inputs)
  {
    && (forall i :: i in inputs ==> lo <= First(files[i]) && Last(files[i]) <= hi)
    && (exists i :: i in inputs && First(files[i]) == lo)
    && (exists i :: i in inputs && Last(files[i]) == hi)
  }

  // The inputs are exactly the files that overlap their common range.
  ghost predicate OverlapClosed(files: seq<seq<Entry>>, inputs: seq<nat>)
    requires FilesOk(files) && Within(files, inputs)
  {
    forall lo, hi, g: nat :: RangeOf(files, inputs, lo, hi) && g < |files| && Overlaps(files[g], lo, hi) ==> g in inputs
  }

  // ---------- GetOverlappingInputs ----------

  // A file not wholly before the begin nor wholly after the end; either bound may be absent.
  predicate Touches(file: seq<Entry>, hasBegin: bool, begin: UserKey, hasEnd: bool, end: UserKey)
    requires file != []
  {
    !(hasBegin && Last(file) < begin) && !(hasEnd && First(file) > end)
  }

  predicate Covered(file: seq<Entry>, hasBegin: bool, begin: UserKey, hasEnd: bool, end: UserKey)
    requires file != []
  {
    (hasBegin ==> begin <= First(file)) && (hasEnd ==> Last(file) <= end)
  }

  // A range that covers every file it touches.
  ghost predicate ClosedRange(files: seq<seq<Entry>>, hasBegin: bool, begin: UserKey, hasEnd: bool, end: UserKey)
    requires FilesOk(files)
  {
    forall i :: 0 <= i < |files| && Touches(files[i], hasBegin, begin, hasEnd, end) ==>
      Covered(files[i], hasBegin, begin, hasEnd, end)
  }

  ghost function Starting(files: seq<seq<Entry>>, below: UserKey): set<nat> {
    set i: nat | i < |files| && files[i] != [] && First(files[i]) < below
  }

  ghost function Ending(files: seq<seq<Entry>>, above: UserKey): set<nat> {
    set i: nat | i < |files| && files[i] != [] && Last(files[i]) > above
  }

  // The files that touch the range; on level zero, those that touch the least range around it
  // that covers all it touches.
  method GetOverlappingInputs(level: nat, files: seq<seq<Entry>>, hasBegin: bool, begin: UserKey,
                              hasEnd: bool, end: UserKey)
    returns (inputs: seq<nat>, b: UserKey, e: UserKey)
    requires FilesOk(files)
    ensures Within(files, inputs) && NoRepeats(inputs)
    ensures forall i: nat :: i in inputs <==> i < |files| && Touches(files[i], hasBegin, b, hasEnd, e)
    ensures b <= begin && end <= e && (level > 0 ==> b == begin && e == end)
    ensures level == 0 ==> ClosedRange(files, hasBegin, b, hasEnd, e)
    ensures forall x, y :: ClosedRange(files, hasBegin, x, hasEnd, y) && x <= begin && end <= y ==> x <= b && e <= y
  {
    inputs, b, e := [], begin, end;
    var i := 0;
    while i < |files|
      invariant Within(files, inputs) && NoRepeats(inputs)
      invariant i <= |files| && b <= begin && end <= e && (level > 0 ==> b == begin && e == end)
      invariant forall j: nat :: j in inputs <==> j < i && Touches(files[j], hasBegin, b, hasEnd, e)
      invariant level == 0 ==> forall j :: j in inputs ==> Covered(files[j], hasBegin, b, hasEnd, e)
      invariant forall x, y :: ClosedRange(files, hasBegin, x, hasEnd, y) && x <= begin && end <= y ==> x <= b && e <= y
      decreases Starting(files, b), Ending(files, e), |files| - i
    {
      var f := files[i];
      if hasBegin && Last(f) < b {
        // before the range
      } else if hasEnd && First(f) > e {
        // after the range
      } else {
        inputs := inputs + [i];
        if level == 0 {
          if hasBegin && First(f) < b {
            WiderBegin(files, i, hasBegin, begin, b, hasEnd, end, e);
            b, inputs, i := First(f), [], 0;
            continue;
          } else if hasEnd && Last(f) > e {
            WiderEnd(files, i, hasBegin, begin, b, hasEnd, end, e);
            e, inputs, i := Last(f), [], 0;
            continue;
          }
        }
      }
      i := i + 1;
    }
  }

  lemma WiderBegin(files: seq<seq<Entry>>, i: nat, hasBegin: bool, begin: UserKey, b: UserKey,
                   hasEnd: bool, end: UserKey, e: UserKey)
    requires FilesOk(files) && i < |files| && Touches(files[i], hasBegin, b, hasEnd, e)
    requires hasBegin && First(files[i]) < b
    requires forall x, y :: ClosedRange(files, hasBegin, x, hasEnd, y) && x <= begin && end <= y ==> x <= b && e <= y
    ensures forall x, y :: ClosedRange(files, hasBegin, x, hasEnd, y) && x <= begin && end <= y ==>
              x <= First(files[i]) && e <= y
    ensures Starting(files, First(files[i])) < Starting(files, b)
  {
    assert i in Starting(files, b) && i !in Starting(files, First(files[i]));
    forall x, y | ClosedRange(files, hasBegin, x, hasEnd, y) && x <= begin && end <= y ensures x <= First(files[i]) {
      assert Touches(files[i], hasBegin, x, hasEnd, y);
    }
  }

  lemma WiderEnd(files: seq<seq<Entry>>, i: nat, hasBegin: bool, begin: UserKey, b: UserKey,
                 hasEnd: bool, end: UserKey, e: UserKey)
    requires FilesOk(files) && i < |files| && Touches(files[i], hasBegin, b, hasEnd, e)
    requires hasEnd && Last(files[i]) > e
    requires forall x, y :: ClosedRange(files, hasBegin, x, hasEnd, y) && x <= begin && end <= y ==> x <= b && e <= y
    ensures forall x, y :: ClosedRange(files, hasBegin, x, hasEnd, y) && x <= begin && end <= y ==>
              x <= b && Last(files[i]) <= y
    ensures Ending(files, Last(files[i])) < Ending(files, e)
  {
    assert i in Ending(files, e) && i !in Ending(files, Last(files[i]));
    forall x, y | ClosedRange(files, hasBegin, x, hasEnd, y) && x <= begin && end <= y ensures Last(files[i]) <= y {
      assert Touches(files[i], hasBegin, x, hasEnd, y);
    }
  }

  // ---------- AddBoundaryInputs ----------

  // The largest internal key of the inputs.
  ghost predicate LargestOf(files: seq<seq<Entry>>, inputs: seq<nat>, largest: Entry)
    requires FilesOk(files) && Within(files, inputs)
  {
    && (exists i :: i in inputs && LastEntry(files[i]) == largest)
    && forall i :: i in inputs ==> !Before(largest, LastEntry(files[i]))
  }

  method FindLargestKey(files: seq<seq<Entry>>, inputs: seq<nat>) returns (largest: Entry)
    requires FilesOk(files) && Within(files, inputs) && inputs != []
    ensures LargestOf(files, inputs, largest)
  {
    largest := LastEntry(files[inputs[0]]);
    var i := 1;
    while i < |inputs|
      invariant 1 <= i <= |inputs|
      invariant exists j :: 0 <= j < i && LastEntry(files[inputs[j]]) == largest
      invariant forall j :: 0 <= j < i ==> !Before(largest, LastEntry(files[inputs[j]]))
    {
      if Before(largest, LastEntry(files[inputs[i]])) { largest := LastEntry(files[inputs[i]]); }
      i := i + 1;
    }
  }

  // File g starts after the largest key, with the same user key.
  predicate Boundary(files: seq<seq<Entry>>, g: nat, largest: Entry) {
    g < |files| && files[g] != [] && Before(largest, files[g][0]) && First(files[g]) == largest.key
  }

  method FindSmallestBoundaryFile(files: seq<seq<Entry>>, largest: Entry) returns (found: bool, f: nat)
    requires FilesOk(files)
    ensures found ==> Boundary(files, f, largest)
    ensures found ==> forall g: nat :: Boundary(files, g, largest) ==> !Before(files[g][0], files[f][0])
    ensures !found ==> forall g: nat :: !Boundary(files, g, largest)
  {
    found, f := false, 0;
    var i := 0;
    while i < |files|
      invariant i <= |files|
      invariant found ==> Boundary(files, f, largest)
      invariant found ==> forall g: nat :: g < i && Boundary(files, g, largest) ==> !Before(files[g][0], files[f][0])
      invariant !found ==> forall g: nat :: g < i ==> !Boundary(files, g, largest)
    {
      if Boundary(files, i, largest) && (!found || Before(files[i][0], files[f][0])) { found, f := true, i; }
      i := i + 1;
    }
  }

  // No file goes on with the last user key of the inputs.
  ghost predicate NoBoundary(files: seq<seq<Entry>>, inputs: seq<nat>)
    requires FilesOk(files) && Within(files, inputs)
  {
    forall largest, g: nat :: LargestOf(files, inputs, largest) ==> !Boundary(files, g, largest)
  }

  ghost function LeftOver(files: seq<seq<Entry>>, inputs: seq<nat>): set<nat> {
    set g: nat | g < |files| && g !in inputs
  }

  // File i goes on with the user key that ends the file before it.
  predicate FollowsSplit(files: seq<seq<Entry>>, i: nat) {
    i > 0 && SplitAfter(files, i - 1)
  }

  // Takes in files for as long as one goes on with the last user key.  On an ordered level the
  // inputs stay consecutive; inputs closed under overlap stay as they are.
  method AddBoundaryInputs(level: nat, files: seq<seq<Entry>>, inputs: seq<nat>) returns (all: seq<nat>)
    requires LevelOk(level, files) && Within(files, inputs)
    ensures Within(files, all) && (inputs == [] <==> all == [])
    ensures forall i :: i in inputs ==> i in all
    ensures NoBoundary(files, all) && (NoRepeats(inputs) ==> NoRepeats(all))
    ensures level > 0 && Convex(inputs) ==> forall i: nat :: i in all ==> i in inputs || FollowsSplit(files, i)
    ensures level > 0 && Convex(inputs) ==> Convex(all)
    ensures OverlapClosed(files, inputs) ==> all == inputs
  {
    hide LevelOk, FileOk, OverlapClosed, Convex, LargestOf, Boundary, LeftOver, FollowsSplit;
    LevelFiles(level, files);
    all := inputs;
    if inputs == [] {
      NothingLargest(files);
      return;
    }
    var largest := FindLargestKey(files, all);
    var searching := true;
    while searching
      invariant Within(files, all) && LargestOf(files, all, largest) && all != []
      invariant forall i :: i in inputs ==> i in all
      invariant level > 0 && Convex(inputs) ==> Convex(all)
      invariant level > 0 && Convex(inputs) ==> forall i: nat :: i in all ==> i in inputs || FollowsSplit(files, i)
      invariant NoRepeats(inputs) ==> NoRepeats(all)
      invariant OverlapClosed(files, inputs) ==> all == inputs
      invariant !searching ==> forall g: nat :: !Boundary(files, g, largest)
      decreases LeftOver(files, all), searching
    {
      var found, f := FindSmallestBoundaryFile(files, largest);
      if found {
        BoundaryTaken(files, all, largest, f);
        if level > 0 && Convex(all) { NextIsConvex(level, files, all, largest, f); }
        all := all + [f];
        largest := LastEntry(files[f]);
      } else {
        searching := false;
      }
    }
    LargestUnique(files, all, largest);
  }

  lemma NothingLargest(files: seq<seq<Entry>>)
    requires FilesOk(files)
    ensures NoBoundary(files, [])
  {
  }

  // A boundary file is a new one, ends after all others, and shows the inputs were not closed.
  lemma BoundaryTaken(files: seq<seq<Entry>>, inputs: seq<nat>, largest: Entry, f: nat)
    requires FilesOk(files) && Within(files, inputs) && LargestOf(files, inputs, largest) && Boundary(files, f, largest)
    ensures f < |files| && Within(files, inputs + [f]) && LargestOf(files, inputs + [f], LastEntry(files[f]))
    ensures LeftOver(files, inputs + [f]) < LeftOver(files, inputs) && f !in inputs
    ensures !OverlapClosed(files, inputs)
  {
    BoundaryIsNew(files, inputs, largest, f);
    LargestGrows(files, inputs, largest, f);
    ClosedHasNoBoundary(files, inputs, largest, f);
    assert f in LeftOver(files, inputs) && f !in LeftOver(files, inputs + [f]);
  }

  lemma FileRises(file: seq<Entry>, p: nat)
    requires FileOk(file) && p < |file|
    ensures First(file) <= file[p].key <= Last(file)
    ensures p > 0 ==> Before(file[0], file[p])
    ensures p < |file| - 1 ==> Before(file[p], LastEntry(file))
  {
  }

  lemma BoundaryIsNew(files: seq<seq<Entry>>, inputs: seq<nat>, largest: Entry, f: nat)
    requires FilesOk(files) && Within(files, inputs) && LargestOf(files, inputs, largest) && Boundary(files, f, largest)
    ensures f !in inputs && Before(largest, LastEntry(files[f]))
  {
    FileRises(files[f], |files[f]| - 1);
  }

  lemma LargestGrows(files: seq<seq<Entry>>, inputs: seq<nat>, largest: Entry, f: nat)
    requires FilesOk(files) && Within(files, inputs) && LargestOf(files, inputs, largest)
    requires f < |files| && Before(largest, LastEntry(files[f]))
    ensures LargestOf(files, inputs + [f], LastEntry(files[f]))
  {
    var all := inputs + [f];
    assert f in all;
    forall i | i in all ensures !Before(LastEntry(files[f]), LastEntry(files[i])) {}
  }

  lemma LargestUnique(files: seq<seq<Entry>>, inputs: seq<nat>, largest: Entry)
    requires FilesOk(files) && Within(files, inputs) && LargestOf(files, inputs, largest)
    requires forall g: nat :: !Boundary(files, g, largest)
    ensures NoBoundary(files, inputs)
  {
    forall l, g: nat | LargestOf(files, inputs, l) ensures !Boundary(files, g, l) {
      assert l.key == largest.key && l.sn == largest.sn;
      assert !Boundary(files, g, largest);
    }
  }

  lemma ClosedHasNoBoundary(files: seq<seq<Entry>>, inputs: seq<nat>, largest: Entry, f: nat)
    requires FilesOk(files) && Within(files, inputs) && LargestOf(files, inputs, largest)
    requires Boundary(files, f, largest) && f !in inputs
    ensures !OverlapClosed(files, inputs)
  {
    var i :| i in inputs && LastEntry(files[i]) == largest;
    var lo, hi := RangeExists(files, inputs);
    FileRises(files[i], 0);
    FileRises(files[f], 0);
    assert Overlaps(files[f], lo, hi);
  }

  lemma EntriesApart(level: nat, files: seq<seq<Entry>>, i: nat, j: nat, p: nat, q: nat)
    requires level > 0 && LevelOk(level, files) && i < j < |files| && p < |files[i]| && q < |files[j]|
    ensures Before(files[i][p], files[j][q])
  {
    assert FileBefore(files[i], files[j]) && files[i][p] in files[i] && files[j][q] in files[j];
  }

  lemma LastsRise(level: nat, files: seq<seq<Entry>>)
    requires level > 0 && LevelOk(level, files)
    ensures forall i, j :: 0 <= i < j < |files| ==> Before(LastEntry(files[i]), LastEntry(files[j]))
  {
    forall i, j | 0 <= i < j < |files| ensures Before(LastEntry(files[i]), LastEntry(files[j])) {
      EntriesApart(level, files, i, j, |files[i]| - 1, |files[j]| - 1);
    }
  }

  lemma LargestIsLast(level: nat, files: seq<seq<Entry>>, inputs: seq<nat>, largest: Entry) returns (m: nat)
    requires level > 0 && LevelOk(level, files) && Within(files, inputs) && LargestOf(files, inputs, largest)
    ensures m in inputs && LastEntry(files[m]) == largest && forall i :: i in inputs ==> i <= m
  {
    m :| m in inputs && LastEntry(files[m]) == largest;
    LastsRise(level, files);
    hide LevelOk, FileOk, FileBefore;
    forall i | i in inputs ensures i <= m {}
  }

  lemma BoundaryIsLater(level: nat, files: seq<seq<Entry>>, m: nat, f: nat)
    requires level > 0 && LevelOk(level, files) && m < |files| && Boundary(files, f, LastEntry(files[m]))
    ensures m < f
  {
    FileRises(files[f], |files[f]| - 1);
    LastsRise(level, files);
  }

  lemma BetweenIsBoundary(level: nat, files: seq<seq<Entry>>, m: nat, f: nat)
    requires level > 0 && LevelOk(level, files) && m + 1 < f < |files| && Boundary(files, f, LastEntry(files[m]))
    ensures Boundary(files, m + 1, LastEntry(files[m])) && Before(files[m + 1][0], files[f][0])
  {
    EntriesApart(level, files, m, m + 1, |files[m]| - 1, 0);
    EntriesApart(level, files, m + 1, f, 0, 0);
  }

  // On an ordered level the smallest boundary file is the one right after the inputs.
  lemma NextIsConvex(level: nat, files: seq<seq<Entry>>, inputs: seq<nat>, largest: Entry, f: nat)
    requires level > 0 && LevelOk(level, files) && Within(files, inputs) && Convex(inputs)
    requires LargestOf(files, inputs, largest) && Boundary(files, f, largest)
    requires forall g: nat :: Boundary(files, g, largest) ==> !Before(files[g][0], files[f][0])
    ensures Convex(inputs + [f]) && FollowsSplit(files, f)
  {
    var m := LargestIsLast(level, files, inputs, largest);
    BoundaryIsLater(level, files, m, f);
    if m + 1 < f { BetweenIsBoundary(level, files, m, f); }
    hide LevelOk, LargestOf, Boundary;
    forall i: nat, j: nat, k: nat | i in inputs + [f] && k in inputs + [f] && i <= j <= k ensures j in inputs + [f] {
      assert i in inputs && j <= m ==> j in inputs;
    }
  }

  // ---------- SetupOtherInputs ----------

  method GetRange(files: seq<seq<Entry>>, inputs: seq<nat>) returns (lo: UserKey, hi: UserKey)
    requires FilesOk(files) && Within(files, inputs) && inputs != []
    ensures RangeOf(files, inputs, lo, hi)
  {
    lo, hi := First(files[inputs[0]]), Last(files[inputs[0]]);
    var i := 1;
    while i < |inputs|
      invariant 1 <= i <= |inputs|
      invariant forall j :: 0 <= j < i ==> lo <= First(files[inputs[j]]) && Last(files[inputs[j]]) <= hi
      invariant exists j :: 0 <= j < i && First(files[inputs[j]]) == lo
      invariant exists j :: 0 <= j < i && Last(files[inputs[j]]) == hi
    {
      if First(files[inputs[i]]) < lo { lo := First(files[inputs[i]]); }
      if Last(files[inputs[i]]) > hi { hi := Last(files[inputs[i]]); }
      i := i + 1;
    }
  }

  lemma {:induction false} RangeExists(files: seq<seq<Entry>>, inputs: seq<nat>) returns (lo: UserKey, hi: UserKey)
    requires FilesOk(files) && Within(files, inputs) && inputs != []
    ensures RangeOf(files, inputs, lo, hi)
  {
    var n := |inputs| - 1;
    var f := files[inputs[n]];
    assert inputs[n] in inputs;
    if n == 0 {
      lo, hi := First(f), Last(f);
    } else {
      var front := inputs[..n];
      assert inputs == front + [inputs[n]];
      lo, hi := RangeExists(files, front);
      var a, b := lo, hi;
      if First(f) < lo { lo := First(f); }
      if Last(f) > hi { hi := Last(f); }
    }
  }

  // The inputs of the lower level are the files that overlap the range of the upper ones.
  ghost predicate Follows(files: seq<seq<Entry>>, ins: seq<nat>, next: seq<seq<Entry>>, lower: seq<nat>)
    requires FilesOk(files) && FilesOk(next) && Within(files, ins)
  {
    forall lo, hi, g: nat :: RangeOf(files, ins, lo, hi) ==> (g in lower <==> g < |next| && Overlaps(next[g], lo, hi))
  }

  // What the code makes sure of.
  ghost predicate Picked(level: nat, files: seq<seq<Entry>>, next: seq<seq<Entry>>, ins: seq<nat>, lower: seq<nat>) {
    && LevelOk(level, files) && LevelOk(level + 1, next)
    && ins != [] && Within(files, ins) && Within(next, lower)
    && (if level == 0 then OverlapClosed(files, ins) else Convex(ins))
    && NoBoundary(files, ins) && Follows(files, ins, next, lower)
  }

  // The common range of both sets of inputs.
  ghost predicate RangeOfBoth(files: seq<seq<Entry>>, ins: seq<nat>, next: seq<seq<Entry>>, lower: seq<nat>,
                              start: UserKey, limit: UserKey)
    requires FilesOk(files) && FilesOk(next) && Within(files, ins) && Within(next, lower)
  {
    && (forall i :: i in ins ==> start <= First(files[i]) && Last(files[i]) <= limit)
    && (forall i :: i in lower ==> start <= First(next[i]) && Last(next[i]) <= limit)
    && ((exists i :: i in ins && First(files[i]) == start) || (exists i :: i in lower && First(next[i]) == start))
    && ((exists i :: i in ins && Last(files[i]) == limit) || (exists i :: i in lower && Last(next[i]) == limit))
  }

  // The upper files that overlap the common range, and what they bring along: on level zero all in
  // the least closed range around it, above it the files that go on with the last user key.
  ghost predicate Widened(level: nat, files: seq<seq<Entry>>, more: seq<nat>, start: UserKey, limit: UserKey)
    requires FilesOk(files) && Within(files, more)
  {
    && (forall g: nat :: g < |files| && Overlaps(files[g], start, limit) ==> g in more)
    && (level > 0 ==> forall g: nat :: g in more ==> Overlaps(files[g], start, limit) || FollowsSplit(files, g))
    && (level == 0 ==>
          forall x, y, g: nat :: ClosedRange(files, true, x, true, y) && x <= start && limit <= y && g in more ==>
            x <= First(files[g]) && Last(files[g]) <= y)
  }

  // How the pick came about: the first choice with its boundary files and the lower files it
  // overlaps, and, when there are lower files, the wider choice.  The wider one is taken exactly
  // when it has more upper files, just as many lower ones, and the byte limit has room.
  ghost predicate Chosen(level: nat, files: seq<seq<Entry>>, next: seq<seq<Entry>>, from: seq<nat>, roomToGrow: bool,
                         base: (seq<nat>, seq<nat>), wide: (seq<nat>, seq<nat>), pick: (seq<nat>, seq<nat>)) {
    && Picked(level, files, next, base.0, base.1)
    && (forall i :: i in from ==> i in base.0)
    && (level == 0 ==> base.0 == from)
    && (level > 0 ==> forall i: nat :: i in base.0 ==> i in from || FollowsSplit(files, i))
    && (base.1 == [] ==> pick == base)
    && (base.1 != [] ==>
          && Picked(level, files, next, wide.0, wide.1)
          && (exists start, limit ::
                RangeOfBoth(files, base.0, next, base.1, start, limit) && Widened(level, files, wide.0, start, limit))
          && pick == if |wide.0| > |base.0| && roomToGrow && |wide.1| == |base.1| then wide else base)
  }

  // The inputs: positions in the level and in the next one.  What is picked first is closed under
  // overlap on level zero and consecutive above; the byte limit decides whether it may grow.  The
  // wider choice is worked out here also when it will not be taken.
  method SetupOtherInputs(level: nat, files: seq<seq<Entry>>, next: seq<seq<Entry>>, from: seq<nat>, roomToGrow: bool)
    returns (ins: seq<nat>, lower: seq<nat>, ghost base: (seq<nat>, seq<nat>), ghost wide: (seq<nat>, seq<nat>))
    requires LevelOk(level, files) && LevelOk(level + 1, next) && from != [] && Within(files, from) && NoRepeats(from)
    requires if level == 0 then OverlapClosed(files, from) else Convex(from)
    ensures Picked(level, files, next, ins, lower)
    ensures forall i :: i in from ==> i in ins
    ensures NoRepeats(base.0) && NoRepeats(base.1) && NoRepeats(wide.0) && NoRepeats(wide.1)
    ensures Chosen(level, files, next, from, roomToGrow, base, wide, (ins, lower))
  {
    hide LevelOk, FileOk, NoBoundary, OverlapClosed, Convex, NoRepeats, Follows, RangeOfBoth, Widened, FollowsSplit;
    hide ClosedRange, Overlaps, Touches, RangeOf;
    LevelFiles(level, files);
    LevelFiles(level + 1, next);
    ins := AddBoundaryInputs(level, files, from);
    var lo, hi := GetRange(files, ins);
    var b, e;
    lower, b, e := GetOverlappingInputs(level + 1, next, true, lo, true, hi);
    FollowsRange(files, ins, lo, hi, next, lower);
    base, wide := (ins, lower), (ins, lower);
    if lower != [] {
      var allStart, allLimit := GetRange(next, lower);
      BothRanges(files, ins, lo, hi, next, lower, allStart, allLimit);
      if lo < allStart { allStart := lo; }
      if hi > allLimit { allLimit := hi; }
      var touching, b1, e1 := GetOverlappingInputs(level, files, true, allStart, true, allLimit);
      StillIn(files, ins, lo, hi, touching, b1, e1);
      if level == 0 {
        TouchingClosed(files, touching, b1, e1);
      } else {
        TouchingConvex(level, files, touching, b1, e1);
      }
      var more := AddBoundaryInputs(level, files, touching);
      WideEnough(level, files, touching, more, allStart, allLimit, b1, e1);
      var newStart, newLimit := GetRange(files, more);
      var more1, b2, e2 := GetOverlappingInputs(level + 1, next, true, newStart, true, newLimit);
      FollowsRange(files, more, newStart, newLimit, next, more1);
      wide := (more, more1);
      if |more| > |ins| && roomToGrow && |more1| == |lower| {
        ins, lower := more, more1;
      }
    }
  }

  lemma BothRanges(files: seq<seq<Entry>>, ins: seq<nat>, lo: UserKey, hi: UserKey, next: seq<seq<Entry>>,
                   lower: seq<nat>, lo1: UserKey, hi1: UserKey)
    requires FilesOk(files) && FilesOk(next) && Within(files, ins) && Within(next, lower)
    requires RangeOf(files, ins, lo, hi) && RangeOf(next, lower, lo1, hi1)
    ensures RangeOfBoth(files, ins, next, lower, if lo < lo1 then lo else lo1, if hi > hi1 then hi else hi1)
  {
  }

  lemma WideEnough(level: nat, files: seq<seq<Entry>>, touching: seq<nat>, more: seq<nat>,
                   start: UserKey, limit: UserKey, b: UserKey, e: UserKey)
    requires FilesOk(files) && Within(files, touching) && Within(files, more) && b <= start && limit <= e
    requires forall i: nat :: i in touching <==> i < |files| && Touches(files[i], true, b, true, e)
    requires forall i :: i in touching ==> i in more
    requires level > 0 ==> b == start && e == limit
    requires level > 0 ==> forall i: nat :: i in more ==> i in touching || FollowsSplit(files, i)
    requires level == 0 ==> more == touching && ClosedRange(files, true, b, true, e)
    requires forall x, y :: ClosedRange(files, true, x, true, y) && x <= start && limit <= y ==> x <= b && e <= y
    ensures Widened(level, files, more, start, limit)
  {
  }

  lemma LevelFiles(level: nat, files: seq<seq<Entry>>)
    requires LevelOk(level, files)
    ensures FilesOk(files) && forall i :: 0 <= i < |files| ==> files[i] != [] && First(files[i]) <= Last(files[i])
  {
    forall i | 0 <= i < |files| ensures files[i] != [] && First(files[i]) <= Last(files[i]) {
      FileRises(files[i], 0);
    }
  }

  lemma FollowsRange(files: seq<seq<Entry>>, ins: seq<nat>, lo: UserKey, hi: UserKey,
                     next: seq<seq<Entry>>, lower: seq<nat>)
    requires FilesOk(files) && FilesOk(next) && Within(files, ins) && RangeOf(files, ins, lo, hi)
    requires forall g: nat :: g in lower <==> g < |next| && Touches(next[g], true, lo, true, hi)
    ensures Follows(files, ins, next, lower)
  {
    forall x, y, g: nat | RangeOf(files, ins, x, y) ensures g in lower <==> g < |next| && Overlaps(next[g], x, y) {
      assert x == lo && y == hi;
    }
  }

  lemma StillIn(files: seq<seq<Entry>>, ins: seq<nat>, lo: UserKey, hi: UserKey, more: seq<nat>, b: UserKey, e: UserKey)
    requires FilesOk(files) && Within(files, ins) && RangeOf(files, ins, lo, hi) && b <= lo && hi <= e
    requires forall i: nat :: i in more <==> i < |files| && Touches(files[i], true, b, true, e)
    ensures (forall i :: i in ins ==> i in more) && more != []
  {
    forall i | i in ins ensures i in more { FileRises(files[i], 0); }
    var i :| i in ins;
    assert i in more;
  }

  lemma TouchingClosed(files: seq<seq<Entry>>, more: seq<nat>, b: UserKey, e: UserKey)
    requires FilesOk(files) && Within(files, more) && ClosedRange(files, true, b, true, e)
    requires forall i: nat :: i in more <==> i < |files| && Touches(files[i], true, b, true, e)
    ensures OverlapClosed(files, more)
  {
    forall lo, hi, g: nat | RangeOf(files, more, lo, hi) && g < |files| && Overlaps(files[g], lo, hi)
      ensures g in more
    {
      assert b <= lo && hi <= e;
    }
  }

  lemma TouchingConvex(level: nat, files: seq<seq<Entry>>, more: seq<nat>, b: UserKey, e: UserKey)
    requires level > 0 && LevelOk(level, files)
    requires forall i: nat :: i in more <==> i < |files| && Touches(files[i], true, b, true, e)
    ensures Convex(more)
  {
    forall i: nat, j: nat, k: nat | i in more && k in more && i <= j <= k ensures j in more {
      KeysRise(level, files, i, j);
      KeysRise(level, files, j, k);
    }
  }

  lemma KeysRise(level: nat, files: seq<seq<Entry>>, i: nat, j: nat)
    requires level > 0 && LevelOk(level, files) && i <= j < |files|
    ensures files[i] != [] && files[j] != []
    ensures First(files[i]) <= Last(files[i]) && First(files[j]) <= Last(files[j])
    ensures i < j ==> Last(files[i]) <= First(files[j])
  {
    FileRises(files[i], 0);
    FileRises(files[j], 0);
    if i < j {
      assert FileBefore(files[i], files[j]);
      assert LastEntry(files[i]) in files[i] && files[j][0] in files[j];
    }
  }

  // ---------- What is left out is newer, except after a split ----------

  // Upper levels hold the newer entries of a key.
  ghost predicate Shadows(newer: set<Entry>, older: set<Entry>) {
    forall n, o :: n in newer && o in older && n.key == o.key ==> o.sn < n.sn || n == o
  }

  lemma FileHolds(files: seq<seq<Entry>>, e: Entry, i: nat)
    requires FilesOk(files) && i < |files| && e in files[i]
    ensures First(files[i]) <= e.key <= Last(files[i])
  {
    var p :| 0 <= p < |files[i]| && files[i][p] == e;
    FileRises(files[i], p);
  }

  lemma {:induction false} LastMember(inputs: seq<nat>, i: nat, j: nat) returns (m: nat)
    requires i in inputs && j !in inputs && i < j
    ensures i <= m < j && m in inputs && m + 1 !in inputs
    decreases j - i
  {
    if i + 1 in inputs { m := LastMember(inputs, i + 1, j); } else { m := i; }
  }

  // On an ordered level an older entry of the same user key is left out only after a split.
  lemma SameLevel(level: nat, files: seq<seq<Entry>>, inputs: seq<nat>, e: Entry, o: Entry)
    requires level > 0 && LevelOk(level, files) && Within(files, inputs)
    requires e in Inside(files, inputs) && o in Outside(files, inputs) && e.key == o.key
    ensures e.sn < o.sn || EndsInside(files, inputs)
  {
    var i: nat :| i in inputs && i < |files| && e in files[i];
    var j: nat :| j < |files| && j !in inputs && o in files[j];
    if j < i {
      assert FileBefore(files[j], files[i]);
    } else {
      var m := LastMember(inputs, i, j);
      FileHolds(files, e, i);
      FileHolds(files, o, j);
      KeysRise(level, files, i, m);
      KeysRise(level, files, m, m + 1);
      KeysRise(level, files, m + 1, j);
      assert SplitAfter(files, m);
    }
  }

  lemma SplitIsBoundary(level: nat, files: seq<seq<Entry>>, ins: seq<nat>, i: nat)
    requires level > 0 && LevelOk(level, files) && Within(files, ins) && Convex(ins)
    requires i in ins && i + 1 !in ins && SplitAfter(files, i)
    ensures LargestOf(files, ins, LastEntry(files[i])) && Boundary(files, i + 1, LastEntry(files[i]))
  {
    EntriesApart(level, files, i, i + 1, |files[i]| - 1, 0);
    LastsRise(level, files);
    hide LevelOk, FileBefore;
    forall j: nat | j in ins ensures j <= i {}
  }

  // The upper inputs do not end inside a user key.
  lemma UpperDoNotSplit(level: nat, files: seq<seq<Entry>>, next: seq<seq<Entry>>, ins: seq<nat>, lower: seq<nat>)
    requires level > 0 && Picked(level, files, next, ins, lower)
    ensures !EndsInside(files, ins)
  {
    if i: nat :| i in ins && i + 1 !in ins && SplitAfter(files, i) {
      SplitIsBoundary(level, files, ins, i);
    }
  }

  lemma ApartFromClosed(files: seq<seq<Entry>>, ins: seq<nat>, i: nat, j: nat)
    requires FilesOk(files) && Within(files, ins) && OverlapClosed(files, ins)
    requires i in ins && j < |files| && j !in ins
    ensures Last(files[i]) < First(files[j]) || Last(files[j]) < First(files[i])
  {
    var lo, hi := RangeExists(files, ins);
    assert !Overlaps(files[j], lo, hi);
  }

  // What is left out of the upper level is newer for every key of its inputs; on level zero it has
  // none of them.
  lemma UpperLevel(level: nat, files: seq<seq<Entry>>, next: seq<seq<Entry>>, ins: seq<nat>, lower: seq<nat>,
                   e: Entry, o: Entry)
    requires Picked(level, files, next, ins, lower) && e in Inside(files, ins) && o in Outside(files, ins) &&
        e.key == o.key
    ensures e.sn < o.sn
  {
    if level == 0 {
      var i: nat :| i in ins && i < |files| && e in files[i];
      var j: nat :| j < |files| && j !in ins && o in files[j];
      FileHolds(files, e, i);
      FileHolds(files, o, j);
      ApartFromClosed(files, ins, i, j);
    } else {
      UpperDoNotSplit(level, files, next, ins, lower);
      SameLevel(level, files, ins, e, o);
    }
  }

  // A user key of the upper inputs leads only to files of the next level that are inputs too.
  lemma NextLevel(level: nat, files: seq<seq<Entry>>, next: seq<seq<Entry>>, ins: seq<nat>, lower: seq<nat>,
                  e: Entry, o: Entry)
    requires Picked(level, files, next, ins, lower) && e in Inside(files, ins) && o in Outside(next, lower)
    ensures e.key != o.key
  {
    var i: nat :| i in ins && i < |files| && e in files[i];
    var j: nat :| j < |next| && j !in lower && o in next[j];
    FileHolds(files, e, i);
    FileHolds(next, o, j);
    var lo, hi := RangeExists(files, ins);
    assert !Overlaps(next[j], lo, hi);
  }

  lemma Whole(files: seq<seq<Entry>>, inputs: seq<nat>, e: Entry)
    ensures e in Inside(files, inputs) ==> e in All(files)
    ensures e in Outside(files, inputs) ==> e in All(files)
  {
  }

  lemma LeftOut(level: nat, files: seq<seq<Entry>>, next: seq<seq<Entry>>, ins: seq<nat>, lower: seq<nat>,
                e: Entry, o: Entry)
    requires Picked(level, files, next, ins, lower) && Shadows(All(files), All(next)) && !EndsInside(next, lower)
    requires e in Inside(files, ins) + Inside(next, lower) && o in Outside(files, ins) + Outside(next, lower)
    requires e.key == o.key
    ensures e.sn < o.sn || e == o
  {
    hide LevelOk, EndsInside, Inside, Outside, All, OverlapClosed, Convex, NoBoundary, Follows;
    if e in Inside(files, ins) {
      if o in Outside(files, ins) { UpperLevel(level, files, next, ins, lower, e, o); }
      else { NextLevel(level, files, next, ins, lower, e, o); }
    } else if o in Outside(files, ins) {
      Whole(files, ins, o);
      Whole(next, lower, e);
    } else {
      SameLevel(level + 1, next, lower, e, o);
    }
  }

  ghost function Rest(upper: set<Entry>, files: seq<seq<Entry>>, next: seq<seq<Entry>>, ins: seq<nat>, lower: seq<nat>)
    : set<Entry>
  {
    upper + Outside(files, ins) + Outside(next, lower)
  }

  ghost function Inputs(files: seq<seq<Entry>>, next: seq<seq<Entry>>, ins: seq<nat>, lower: seq<nat>): set<Entry> {
    Inside(files, ins) + Inside(next, lower)
  }

  // The levels above hold the newer entries of a key.
  ghost predicate Stacked(upper: set<Entry>, files: seq<seq<Entry>>, next: seq<seq<Entry>>) {
    Shadows(upper, All(files) + All(next)) && Shadows(All(files), All(next))
  }

  lemma NoSplitNewer(level: nat, upper: set<Entry>, files: seq<seq<Entry>>, next: seq<seq<Entry>>,
                     ins: seq<nat>, lower: seq<nat>)
    requires Picked(level, files, next, ins, lower) && Stacked(upper, files, next) && !EndsInside(next, lower)
    ensures C.NewerThan(Rest(upper, files, next, ins, lower), Inputs(files, next, ins, lower))
  {
    hide EndsInside, Inside, Outside, All, Picked;
    forall e, o | e in Inputs(files, next, ins, lower) && o in Rest(upper, files, next, ins, lower) && e.key == o.key
      ensures e.sn < o.sn || e == o
    {
      if o in upper {
        Whole(files, ins, e);
        Whole(next, lower, e);
      } else {
        LeftOut(level, files, next, ins, lower, e, o);
      }
    }
  }

  lemma SplitLeaves(level: nat, files: seq<seq<Entry>>, inputs: seq<nat>)
    requires level > 0 && LevelOk(level, files) && EndsInside(files, inputs)
    ensures !C.NewerThan(Outside(files, inputs), Inside(files, inputs))
  {
    var i: nat :| i in inputs && i + 1 !in inputs && SplitAfter(files, i);
    var e, o := LastEntry(files[i]), files[i + 1][0];
    assert e in files[i] && o in files[i + 1] && FileBefore(files[i], files[i + 1]);
    assert e in Inside(files, inputs) && o in Outside(files, inputs);
  }

  // Everything that is not an input, above the deeper levels, is newer than the inputs if and only
  // if the inputs of the lower level do not end inside a user key.
  lemma LeftOutIsNewerIff(level: nat, upper: set<Entry>, files: seq<seq<Entry>>, next: seq<seq<Entry>>,
                          ins: seq<nat>, lower: seq<nat>)
    requires Picked(level, files, next, ins, lower) && Stacked(upper, files, next)
    ensures C.NewerThan(Rest(upper, files, next, ins, lower), Inputs(files, next, ins, lower)) <==>
        !EndsInside(next, lower)
  {
    if EndsInside(next, lower) {
      SplitLeaves(level + 1, next, lower);
    } else {
      NoSplitNewer(level, upper, files, next, ins, lower);
    }
  }

  // A marker that uncovers a value ends an input of the lower level whose user key goes on.
  lemma UncoveredAfterSplit(level: nat, upper: set<Entry>, files: seq<seq<Entry>>, next: seq<seq<Entry>>,
                            ins: seq<nat>, lower: seq<nat>, tables: map<nat, set<Entry>>,
                            deeper: seq<seq<C.FileMeta>>, smallest: Sequence, t: Entry)
    requires Picked(level, files, next, ins, lower) && Stacked(upper, files, next) && C.LaidOut(tables, deeper)
    requires C.Uncovers(Inputs(files, next, ins, lower),
                        Rest(upper, files, next, ins, lower) + C.DeeperEntries(tables, deeper),
                        smallest, C.BaseLevel(deeper), t)
    ensures EndsInside(next, lower)
  {
    if !EndsInside(next, lower) {
      NoSplitNewer(level, upper, files, next, ins, lower);
      C.LayoutUncoversNothing(Inputs(files, next, ins, lower), Rest(upper, files, next, ins, lower),
                              tables, deeper, smallest, t);
    }
  }

  // Compacting the picked files, with everything above, beside and below them in place, changes no
  // read from the oldest snapshot on if and only if no dropped marker uncovers a value; and none
  // does unless the lower inputs end inside a user key.
  lemma PickedReadsIff(level: nat, upper: set<Entry>, files: seq<seq<Entry>>, next: seq<seq<Entry>>,
                       ins: seq<nat>, lower: seq<nat>, tables: map<nat, set<Entry>>,
                       deeper: seq<seq<C.FileMeta>>, input: seq<Entry>, smallest: Sequence)
    requires Picked(level, files, next, ins, lower) && Stacked(upper, files, next) && C.LaidOut(tables, deeper)
    requires Sorted(input) && C.Elements(input) == Inputs(files, next, ins, lower) && smallest < MAX_SEQUENCE
    requires Unique(C.Elements(input) + (Rest(upper, files, next, ins, lower) + C.DeeperEntries(tables, deeper)))
    ensures var others := Rest(upper, files, next, ins, lower) + C.DeeperEntries(tables, deeper);
      var same := SameFrom(C.Elements(input) + others,
                           C.Elements(C.Kept(input, |input|, smallest, C.BaseLevel(deeper))) + others, smallest);
      && (same <==> forall t :: !C.Uncovers(C.Elements(input), others, smallest, C.BaseLevel(deeper), t))
      && (!EndsInside(next, lower) ==> same)
  {
    var others := Rest(upper, files, next, ins, lower) + C.DeeperEntries(tables, deeper);
    C.KeptReadsIff(input, others, smallest, C.BaseLevel(deeper));
    forall t | C.Uncovers(C.Elements(input), others, smallest, C.BaseLevel(deeper), t) ensures EndsInside(next, lower) {
      UncoveredAfterSplit(level, upper, files, next, ins, lower, tables, deeper, smallest, t);
    }
  }

  // ---------- A deleted key that comes back ----------

  // The upper level holds key 1; the next one holds keys 1 and 2, with a deletion of 2 at the end
  // of its first file and the deleted value at the start of its second.
  const TOP := Entry(1, 9, Put, "new")
  const LOW := Entry(1, 4, Put, "")
  const GONE := Entry(2, 5, Deletion, "")
  const STALE := Entry(2, 3, Put, "old")

  // On any level the code picks the first file and not the second; nothing lies deeper, so the
  // deletion is dropped, it uncovers the value, and key 2 is back.
  method DeletedKeyReturns(level: nat) returns (ins: seq<nat>, lower: seq<nat>)
    ensures Picked(level, [[TOP]], [[LOW, GONE], [STALE]], ins, lower) && EndsInside([[LOW, GONE], [STALE]], lower)
    ensures Inputs([[TOP]], [[LOW, GONE], [STALE]], ins, lower) == {TOP, LOW, GONE}
    ensures Rest({}, [[TOP]], [[LOW, GONE], [STALE]], ins, lower) == {STALE}
    ensures C.Uncovers({TOP, LOW, GONE}, {STALE}, 10, C.BaseLevel([]), GONE)
  {
    var files, next := [[TOP]], [[LOW, GONE], [STALE]];
    LevelsOk(level);
    var from := [0];
    assert Convex(from) && Within(files, from) && NoRepeats(from);
    hide *;
    ghost var base, wide;
    ins, lower, base, wide := SetupOtherInputs(level, files, next, from, true);
    OnlyPick(level, ins, lower);
    GoneUncovers();
  }

  lemma LevelsOk(level: nat)
    ensures LevelOk(level, [[TOP]]) && LevelOk(level + 1, [[LOW, GONE], [STALE]])
    ensures Within([[TOP]], [0]) && OverlapClosed([[TOP]], [0]) && Convex([0])
  {
  }

  lemma OnlyPick(level: nat, ins: seq<nat>, lower: seq<nat>)
    requires Picked(level, [[TOP]], [[LOW, GONE], [STALE]], ins, lower)
    ensures EndsInside([[LOW, GONE], [STALE]], lower)
    ensures Inputs([[TOP]], [[LOW, GONE], [STALE]], ins, lower) == {TOP, LOW, GONE}
    ensures Rest({}, [[TOP]], [[LOW, GONE], [STALE]], ins, lower) == {STALE}
  {
    var files, next := [[TOP]], [[LOW, GONE], [STALE]];
    assert next[0] == [LOW, GONE] && next[1] == [STALE] && files[0] == [TOP];
    assert ins[0] in ins;
    assert RangeOf(files, ins, 1, 1);
    assert Overlaps(next[0], 1, 1) && !Overlaps(next[1], 1, 1);
    assert SplitAfter(next, 0);
    assert TOP in files[0] && LOW in next[0] && GONE in next[0] && STALE in next[1];
  }

  lemma GoneUncovers()
    ensures C.Uncovers({TOP, LOW, GONE}, {STALE}, 10, C.BaseLevel([]), GONE)
  {
    assert NewestIn({STALE}, 2, 10, STALE);
    assert NewestIn({TOP, LOW, GONE} + {STALE}, 2, 10, GONE);
  }
}
