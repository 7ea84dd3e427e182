// The two-way cursor over live user keys at one sequence number.
module DBIterModel {
  import opened InternalKeys

  // ---------- Meaning: the sorted list of live (key, value) pairs at sequence s ----------

  type Pair = (UserKey, Value)

  // A visible entry for k occurs among the first n entries.
  ghost predicate SeenBefore(es: seq<Entry>, s: Sequence, n: nat, k: UserKey)
    requires n <= |es|
  {
    exists i :: 0 <= i < n && es[i].sn <= s && es[i].key == k
  }

  // Entry i is what a read of its user key at sequence s returns.
  ghost predicate Live(es: seq<Entry>, s: Sequence, i: nat)
    requires i < |es|
  {
    es[i].sn <= s && es[i].kind.Put? && !SeenBefore(es, s, i, es[i].key)
  }

  ghost function LiveBelow(es: seq<Entry>, s: Sequence, n: nat): seq<Pair>
    requires n <= |es|
  {
    if n == 0 then []
    else if Live(es, s, n - 1) then LiveBelow(es, s, n - 1) + [(es[n - 1].key, es[n - 1].value)]
    else LiveBelow(es, s, n - 1)
  }

  ghost function View(es: seq<Entry>, s: Sequence): seq<Pair> {
    LiveBelow(es, s, |es|)
  }

  ghost function Rank(es: seq<Entry>, s: Sequence, i: nat): nat
    requires i <= |es|
  {
    |LiveBelow(es, s, i)|
  }

  // Newest entry of k visible at s: highest sequence, first position on a tie.
  ghost predicate Newest(es: seq<Entry>, k: UserKey, s: Sequence, i: nat) {
    && i < |es| && es[i].key == k && es[i].sn <= s
    && forall j :: 0 <= j < |es| && es[j].key == k && es[j].sn <= s ==>
         es[j].sn < es[i].sn || (es[j].sn == es[i].sn && i <= j)
  }

  // What a point read of k at s answers.
  ghost predicate ReadsAs(es: seq<Entry>, k: UserKey, s: Sequence, v: Value) {
    exists i :: 0 <= i < |es| && Newest(es, k, s, i) && es[i].kind.Put? && es[i].value == v
  }

  lemma {:induction false} RankGap(es: seq<Entry>, s: Sequence, i: nat, j: nat)
    requires i <= j <= |es|
    requires forall m :: i <= m < j ==> !Live(es, s, m)
    ensures LiveBelow(es, s, i) == LiveBelow(es, s, j)
  {
    if i < j { RankGap(es, s, i, j - 1); }
  }

  lemma {:induction false} RankPrefix(es: seq<Entry>, s: Sequence, i: nat, j: nat)
    requires i <= j <= |es|
    ensures LiveBelow(es, s, i) <= LiveBelow(es, s, j)
  {
    if i < j { RankPrefix(es, s, i, j - 1); }
  }

  // A live entry sits in the view at its rank.
  lemma RankAt(es: seq<Entry>, s: Sequence, i: nat)
    requires i < |es| && Live(es, s, i)
    ensures Rank(es, s, i) < |View(es, s)|
    ensures View(es, s)[Rank(es, s, i)] == (es[i].key, es[i].value)
    ensures Rank(es, s, i + 1) == Rank(es, s, i) + 1
  {
    RankPrefix(es, s, i + 1, |es|);
  }

  // Every position of the view comes from a live entry.
  lemma {:induction false} LiveAt(es: seq<Entry>, s: Sequence, n: nat, at: nat) returns (i: nat)
    requires n <= |es| && at < |LiveBelow(es, s, n)|
    ensures i < n && Live(es, s, i) && Rank(es, s, i) == at
    ensures LiveBelow(es, s, n)[at] == (es[i].key, es[i].value)
  {
    if Live(es, s, n - 1) && at == |LiveBelow(es, s, n)| - 1 {
      i := n - 1;
    } else {
      i := LiveAt(es, s, n - 1, at);
    }
  }

  // The view is a sorted map: strictly increasing keys, and exactly the pairs point reads return.
  lemma ViewSorted(es: seq<Entry>, s: Sequence, a: nat, b: nat)
    requires Sorted(es) && a < b < |View(es, s)|
    ensures View(es, s)[a].0 < View(es, s)[b].0
  {
    var i := LiveAt(es, s, |es|, a);
    var j := LiveAt(es, s, |es|, b);
    if j <= i { RankPrefix(es, s, j, i); assert false; }
    SortedOrder(es, i, j);
  }

  lemma LiveIsNewest(es: seq<Entry>, s: Sequence, i: nat)
    requires Sorted(es) && i < |es|
    ensures Live(es, s, i) <==> es[i].kind.Put? && Newest(es, es[i].key, s, i)
  {
    if Live(es, s, i) {
      forall j | 0 <= j < |es| && es[j].key == es[i].key && es[j].sn <= s
        ensures es[j].sn < es[i].sn || (es[j].sn == es[i].sn && i <= j)
      {
        if i < j { SortedOrder(es, i, j); }
      }
    }
    if es[i].kind.Put? && Newest(es, es[i].key, s, i) && SeenBefore(es, s, i, es[i].key) {
      var j :| 0 <= j < i && es[j].sn <= s && es[j].key == es[i].key;
      SortedOrder(es, j, i);
      assert false;
    }
  }

  lemma ViewIsReads(es: seq<Entry>, s: Sequence, k: UserKey, v: Value)
    requires Sorted(es)
    ensures (k, v) in View(es, s) <==> ReadsAs(es, k, s, v)
  {
    if (k, v) in View(es, s) {
      var at :| 0 <= at < |View(es, s)| && View(es, s)[at] == (k, v);
      var i := LiveAt(es, s, |es|, at);
      LiveIsNewest(es, s, i);
    }
    if ReadsAs(es, k, s, v) {
      var i :| 0 <= i < |es| && Newest(es, k, s, i) && es[i].kind.Put? && es[i].value == v;
      LiveIsNewest(es, s, i);
      RankAt(es, s, i);
    }
  }

  // ---------- Specification: a cursor on that sorted list ----------

  datatype Cursor = Invalid | At(index: nat)

  function Land(view: seq<Pair>, at: int): Cursor {
    if 0 <= at < |view| then At(at) else Invalid
  }

  // Number of keys of the view below the target: where a seek lands.
  function KeysBelow(view: seq<Pair>, target: UserKey): nat {
    if view == [] then 0 else (if view[0].0 < target then 1 else 0) + KeysBelow(view[1..], target)
  }

  datatype Op = Seek(target: UserKey) | SeekToFirst | SeekToLast | Next | Prev

  // Next and Prev may only be called on a valid cursor.
  predicate Legal(c: Cursor, op: Op) {
    op.Next? || op.Prev? ==> c.At?
  }

  function Move(view: seq<Pair>, c: Cursor, op: Op): Cursor
    requires Legal(c, op)
  {
    match op
    case Seek(t) => Land(view, KeysBelow(view, t))
    case SeekToFirst => Land(view, 0)
    case SeekToLast => Land(view, |view| - 1)
    case Next => Land(view, c.index + 1)
    case Prev => Land(view, c.index - 1)
  }

  // A seek lands on the first key at or above the target.
  lemma {:induction false} KeysBelowSplits(view: seq<Pair>, target: UserKey)
    requires forall i, j :: 0 <= i < j < |view| ==> view[i].0 < view[j].0
    ensures KeysBelow(view, target) <= |view|
    ensures forall i :: 0 <= i < |view| ==> (view[i].0 < target <==> i < KeysBelow(view, target))
  {
    if view != [] {
      var rest := view[1..];
      KeysBelowSplits(rest, target);
      forall i | 0 <= i < |view| ensures view[i].0 < target <==> i < KeysBelow(view, target) {
        if i > 0 { assert view[i] == rest[i - 1]; }
        if view[0].0 >= target && rest != [] { assert rest[0].0 >= target; }
      }
    }
  }

  // ---------- The inner iterator over internal entries ----------

  // One "not positioned" state serves both ends, as in a linked structure whose
  // iterator holds a null node: pos == |entries|.
  class EntryIterator {
    const entries: seq<Entry>
    var pos: nat

    constructor (es: seq<Entry>)
      ensures entries == es && pos == |es|
    {
      entries := es;
      pos := |es|;
    }

    predicate Valid() reads this { pos < |entries| }

    method SeekToFirst()
      modifies this
      ensures pos == 0
    {
      pos := 0;
    }

    method SeekToLast()
      modifies this
      ensures pos == if entries == [] then 0 else |entries| - 1
    {
      pos := if |entries| == 0 then 0 else |entries| - 1;
    }

    // First entry at or after the internal key (key, sn, kind).
    method Seek(key: UserKey, sn: Sequence, kind: ValueType)
      modifies this
      ensures pos <= |entries|
      ensures forall j :: 0 <= j < pos ==> !AtOrBefore(key, sn, kind, entries[j])
      ensures Valid() ==> AtOrBefore(key, sn, kind, entries[pos])
    {
      pos := 0;
      while pos < |entries| && !AtOrBefore(key, sn, kind, entries[pos])
        invariant pos <= |entries|
        invariant forall j :: 0 <= j < pos ==> !AtOrBefore(key, sn, kind, entries[j])
      {
        pos := pos + 1;
      }
    }

    method Next()
      requires Valid()
      modifies this
      ensures pos == old(pos) + 1
    {
      pos := pos + 1;
    }

    method Prev()
      requires Valid()
      modifies this
      ensures pos == if old(pos) == 0 then |entries| else old(pos) - 1
    {
      pos := if pos == 0 then |entries| else pos - 1;
    }
  }

  datatype Direction = Forward | Reverse

  // ---------- DBIter ----------

  class DBIter {
    const iter: EntryIterator
    const sequence: Sequence
    var savedKey: Option<UserKey>   // None after clear(); == current key when moving in reverse
    var savedValue: Value           // == current raw value when moving in reverse
    var direction: Direction
    var valid: bool
    ghost var cur: nat              // entry index the cursor stands for while valid

    ghost predicate Invariant()
      reads this, iter
    {
      && Sorted(iter.entries)
      && iter.pos <= |iter.entries|
      && (valid ==> cur < |iter.entries| && Live(iter.entries, sequence, cur))
      && (valid && direction.Forward? ==> iter.pos == cur)
      && (valid && direction.Reverse? ==> ReverseInvariant())
    }

    // Moving in reverse the inner iterator is before the current key's entries, and
    // everything it skipped to get there is invisible.
    ghost predicate ReverseInvariant()
      requires cur < |iter.entries|
      reads this, iter
    {
      var es := iter.entries;
      && savedKey == Some(es[cur].key) && savedValue == es[cur].value
      && (iter.Valid() ==> iter.pos < cur && es[iter.pos].key < es[cur].key)
      && forall j :: (if iter.Valid() then iter.pos + 1 else 0) <= j < cur ==> es[j].sn > sequence
    }

    // The abstract cursor this object represents.
    ghost function Abs(): Cursor
      requires Invariant()
      reads this, iter
    {
      if valid then At(Rank(iter.entries, sequence, cur)) else Invalid
    }

    constructor (inner: EntryIterator, s: Sequence)
      requires Sorted(inner.entries) && inner.pos <= |inner.entries|
      ensures iter == inner && sequence == s
      ensures Invariant() && Abs() == Invalid
    {
      iter := inner;
      sequence := s;
      savedKey := None;
      savedValue := "";
      direction := Forward;
      valid := false;
      cur := 0;
    }

    method Key() returns (k: UserKey)
      requires Invariant() && valid
      ensures Abs().At? && Abs().index < |View(iter.entries, sequence)|
      ensures k == View(iter.entries, sequence)[Abs().index].0
    {
      RankAt(iter.entries, sequence, cur);
      if direction.Forward? { k := iter.entries[iter.pos].key; } else { k := savedKey.value; }
    }

    method GetValue() returns (v: Value)
      requires Invariant() && valid
      ensures Abs().At? && Abs().index < |View(iter.entries, sequence)|
      ensures v == View(iter.entries, sequence)[Abs().index].1
    {
      RankAt(iter.entries, sequence, cur);
      if direction.Forward? { v := iter.entries[iter.pos].value; } else { v := savedValue; }
    }

    method Next()
      requires Invariant() && valid
      modifies this, iter
      ensures Invariant()
      ensures Abs() == Move(View(iter.entries, sequence), old(Abs()), Op.Next)
    {
      ghost var from := cur;
      ghost var es := iter.entries;
      if direction.Reverse? {
        direction := Forward;
        if !iter.Valid() {
          iter.SeekToFirst();
        } else {
          iter.Next();
        }
        assert iter.Valid();
      } else {
        savedKey := Some(iter.entries[iter.pos].key);
      }
      ghost var first := iter.pos;
      forall j | 0 <= j < |es| && Live(es, sequence, j) && j != from
        ensures j > from <==> es[j].key > es[from].key
      {
        LiveOrder(es, sequence, j, from);
      }
      FindNextUserEntry(true, Some(es[from].key));
      Advance(es, sequence, from, if valid then iter.pos else |es|);
    }

    // Scans forward to the first live entry whose key is above base (any key when base is
    // None).  On entry, keys at or below savedKey are to be skipped when skipping is set.
    method FindNextUserEntry(skipping: bool, ghost base: Option<UserKey>)
      requires Sorted(iter.entries) && iter.Valid() && direction.Forward?
      requires skipping == base.Some? && (skipping ==> savedKey == base)
      requires forall j :: iter.pos <= j < |iter.entries| && iter.entries[j].sn <= sequence ==>
                 && (base.Some? ==> base.value <= iter.entries[j].key)
                 && (SeenBefore(iter.entries, sequence, iter.pos, iter.entries[j].key) ==>
                       base == Some(iter.entries[j].key))
      modifies this, iter
      ensures Invariant() && direction.Forward? && old(iter.pos) <= iter.pos
      ensures valid ==> base.Some? ==> iter.entries[cur].key > base.value
      ensures forall j :: old(iter.pos) <= j < (if valid then cur else |iter.entries|) ==>
                Live(iter.entries, sequence, j) ==> base.Some? && iter.entries[j].key <= base.value
    {
      hide Sorted, SeenBefore;
      var skip := skipping;
      ghost var es := iter.entries;
      while true
        invariant iter.Valid() && old(iter.pos) <= iter.pos
        invariant direction.Forward?
        invariant skip ==> savedKey.Some?
        invariant base.Some? ==> skip
        invariant forall j :: iter.pos <= j < |es| && es[j].sn <= sequence ==>
                    ((skip && es[j].key <= savedKey.value) <==>
                     (SeenBefore(es, sequence, iter.pos, es[j].key) || (base.Some? && es[j].key <= base.value)))
        invariant forall j :: old(iter.pos) <= j < iter.pos && Live(es, sequence, j) ==>
                    base.Some? && es[j].key <= base.value
        decreases |es| - iter.pos
      {
        var e := iter.entries[iter.pos];
        if e.sn <= sequence {
          match e.kind
          case Deletion =>
            savedKey := Some(e.key);
            skip := true;
          case Put =>
            if skip && e.key <= savedKey.value {
              // Entry hidden
            } else {
              valid := true;
              savedKey := None;
              cur := iter.pos;
              return;
            }
        }
        ghost var p := iter.pos;
        forall j | p < j < |es| ensures es[p].key <= es[j].key { SortedOrder(es, p, j); }
        SeenBelow(es, sequence, p);
        iter.Next();
        SeenStep(es, sequence, p);
        if !iter.Valid() { break; }
      }
      savedKey := None;
      valid := false;
    }

    method Prev()
      requires Invariant() && valid
      modifies this, iter
      ensures Invariant()
      ensures Abs() == Move(View(iter.entries, sequence), old(Abs()), Op.Prev)
    {
      ghost var from := cur;
      ghost var es := iter.entries;
      if direction.Forward? {
        savedKey := Some(iter.entries[iter.pos].key);
        while true
          invariant iter.Valid() && iter.pos <= from && es[iter.pos].key == es[from].key
          invariant savedKey == Some(es[from].key) && direction.Forward?
          invariant forall j :: iter.pos <= j < from ==> es[j].key == es[from].key
          decreases iter.pos
        {
          iter.Prev();
          if !iter.Valid() {
            valid := false;
            savedKey := None;
            savedValue := "";
            NoLiveBetween(es, sequence, 0, from);
            RankGap(es, sequence, 0, from);
            return;
          }
          SortedOrder(es, iter.pos, from);
          if iter.entries[iter.pos].key < savedKey.value { break; }
        }
        NoLiveBetween(es, sequence, iter.pos + 1, from);
        direction := Reverse;
      } else {
        assert forall j :: (if iter.Valid() then iter.pos + 1 else 0) <= j < from ==> !Live(es, sequence, j);
      }
      ghost var top := if iter.Valid() then iter.pos + 1 else 0;
      FindPrevUserEntry();
      Retreat(es, sequence, from, top, valid, cur);
    }

    // Scans backward to the last live entry at or before the inner iterator.
    method FindPrevUserEntry()
      requires Sorted(iter.entries) && iter.pos <= |iter.entries| && direction.Reverse?
      modifies this, iter
      ensures Invariant()
      ensures valid ==> direction.Reverse? && old(iter.Valid()) && cur <= old(iter.pos)
      ensures forall j :: (if valid then cur + 1 else 0) <= j < (if old(iter.Valid()) then old(iter.pos) + 1 else 0) ==>
                !Live(iter.entries, sequence, j)
    {
      hide Sorted;
      var valueType := Deletion;
      ghost var es := iter.entries;
      ghost var c := 0;
      if iter.Valid() {
        while true
          invariant iter.Valid() && iter.pos <= old(iter.pos) && direction.Reverse?
          invariant valueType.Put? ==> iter.pos < c <= old(iter.pos) && es[c].kind.Put? && es[c].sn <= sequence
          invariant valueType.Put? ==> savedKey == Some(es[c].key) && savedValue == es[c].value
          invariant valueType.Put? ==> forall j :: iter.pos < j < c ==> es[j].sn > sequence
          invariant forall j :: iter.pos < j <= old(iter.pos) && Live(es, sequence, j) ==> valueType.Put? && j == c
          decreases iter.pos
        {
          var e := iter.entries[iter.pos];
          if e.sn <= sequence {
            if valueType != Deletion && e.key < savedKey.value {
              FirstVisibleIsLive(es, sequence, iter.pos + 1, c);
              break;
            }
            if valueType.Put? {
              SortedOrder(es, iter.pos, c);
              assert SeenBefore(es, sequence, c, es[c].key);
            }
            valueType := e.kind;
            if valueType == Deletion {
              savedKey := None;
              savedValue := "";
            } else {
              savedKey := Some(e.key);
              savedValue := e.value;
              c := iter.pos;
            }
          }
          iter.Prev();
          if !iter.Valid() {
            if valueType.Put? { FirstVisibleIsLive(es, sequence, 0, c); }
            break;
          }
        }
      }
      if valueType == Deletion {
        valid := false;
        savedKey := None;
        savedValue := "";
        direction := Forward;
      } else {
        valid := true;
        cur := c;
      }
    }

    method Seek(target: UserKey)
      requires Invariant()
      modifies this, iter
      ensures Invariant()
      ensures Abs() == Move(View(iter.entries, sequence), old(Abs()), Op.Seek(target))
      ensures valid <==> HasFrom(View(iter.entries, sequence), target)
      ensures valid ==> FirstFrom(View(iter.entries, sequence), target, Abs())
    {
      direction := Forward;
      savedValue := "";
      savedKey := None;
      iter.Seek(target, sequence, Put);
      ghost var first := iter.pos;
      ghost var es := iter.entries;
      forall j | 0 <= j < first ensures es[j].key < target || (es[j].key == target && es[j].sn > sequence) {}
      if iter.Valid() {
        forall j | first <= j < |es| ensures es[j].key >= target {
          if j > first { SortedOrder(es, first, j); }
        }
        FindNextUserEntry(false, None);
      } else {
        valid := false;
      }
      SeekLands(es, sequence, target, first, if valid then cur else |es|);
      SeekFinds(es, sequence, target, Abs());
    }

    method SeekToFirst()
      requires Invariant()
      modifies this, iter
      ensures Invariant()
      ensures Abs() == Move(View(iter.entries, sequence), old(Abs()), Op.SeekToFirst)
    {
      direction := Forward;
      savedValue := "";
      iter.SeekToFirst();
      ghost var es := iter.entries;
      if iter.Valid() {
        FindNextUserEntry(false, None);
      } else {
        valid := false;
      }
      RankGap(es, sequence, 0, if valid then cur else |es|);
      if valid { RankAt(es, sequence, cur); }
    }

    method SeekToLast()
      requires Invariant()
      modifies this, iter
      ensures Invariant()
      ensures Abs() == Move(View(iter.entries, sequence), old(Abs()), Op.SeekToLast)
    {
      direction := Reverse;
      savedValue := "";
      iter.SeekToLast();
      ghost var es := iter.entries;
      FindPrevUserEntry();
      RankGap(es, sequence, if valid then cur + 1 else 0, |es|);
      if valid { RankAt(es, sequence, cur); }
    }
  }

  // ---------- Steps the methods above rest on ----------

  lemma SeenStep(es: seq<Entry>, s: Sequence, p: nat)
    requires p < |es|
    ensures forall k :: SeenBefore(es, s, p + 1, k) <==>
                          SeenBefore(es, s, p, k) || (es[p].sn <= s && es[p].key == k)
  {
    forall k ensures SeenBefore(es, s, p + 1, k) <==> SeenBefore(es, s, p, k) || (es[p].sn <= s && es[p].key == k) {
      if es[p].sn <= s && es[p].key == k { assert SeenBefore(es, s, p + 1, k); }
    }
  }

  lemma SeenBelow(es: seq<Entry>, s: Sequence, p: nat)
    requires Sorted(es) && p < |es|
    ensures forall k :: SeenBefore(es, s, p, k) ==> k <= es[p].key
  {
    forall j | 0 <= j < p ensures es[j].key <= es[p].key { SortedOrder(es, j, p); }
  }

  lemma LiveOrder(es: seq<Entry>, s: Sequence, i: nat, j: nat)
    requires Sorted(es) && i < |es| && j < |es| && i != j && Live(es, s, i) && Live(es, s, j)
    ensures i > j <==> es[i].key > es[j].key
  {
    if i < j {
      SortedOrder(es, i, j);
    } else {
      SortedOrder(es, j, i);
    }
  }

  // Entries of the same key as a live entry are not live.
  lemma NoLiveBetween(es: seq<Entry>, s: Sequence, lo: nat, hi: nat)
    requires Sorted(es) && hi < |es| && Live(es, s, hi)
    requires forall j :: lo <= j < hi ==> es[j].key == es[hi].key
    ensures forall j :: lo <= j < hi ==> !Live(es, s, j)
  {
    assert forall j :: lo <= j < hi ==> es[j].sn > s;
  }

  // The first visible entry of its key group is live when its group starts at lo.
  lemma FirstVisibleIsLive(es: seq<Entry>, s: Sequence, lo: nat, c: nat)
    requires Sorted(es) && lo <= c < |es| && es[c].sn <= s && es[c].kind.Put?
    requires forall j :: lo <= j < c ==> es[j].sn > s
    requires lo > 0 ==> es[lo - 1].key < es[c].key
    ensures Live(es, s, c)
  {
    forall i | 0 <= i < c ensures es[i].sn > s || es[i].key != es[c].key {
      if i < lo - 1 { SortedOrder(es, i, lo - 1); }
    }
  }

  lemma Advance(es: seq<Entry>, s: Sequence, from: nat, to: nat)
    requires Sorted(es) && from < to <= |es| && Live(es, s, from)
    requires to < |es| ==> Live(es, s, to)
    requires forall j :: from < j < to ==> !Live(es, s, j)
    ensures (if to < |es| then At(Rank(es, s, to)) else Invalid) == Land(View(es, s), Rank(es, s, from) + 1)
  {
    RankAt(es, s, from);
    RankGap(es, s, from + 1, to);
    if to < |es| { RankAt(es, s, to); }
  }

  lemma Retreat(es: seq<Entry>, s: Sequence, from: nat, top: nat, found: bool, to: nat)
    requires Sorted(es) && top <= from < |es| && Live(es, s, from)
    requires forall j :: top <= j < from ==> !Live(es, s, j)
    requires found ==> to < top && Live(es, s, to)
    requires forall j :: (if found then to + 1 else 0) <= j < top ==> !Live(es, s, j)
    ensures (if found then At(Rank(es, s, to)) else Invalid) == Land(View(es, s), Rank(es, s, from) - 1)
  {
    RankGap(es, s, if found then to + 1 else 0, from);
    RankAt(es, s, from);
    if found { RankAt(es, s, to); }
  }

  ghost predicate HasFrom(view: seq<Pair>, target: UserKey) {
    exists i :: 0 <= i < |view| && view[i].0 >= target
  }

  // The cursor is on a pair at or above the target, and at or below every other such pair.
  ghost predicate FirstFrom(view: seq<Pair>, target: UserKey, c: Cursor) {
    && c.At? && c.index < |view| && view[c.index].0 >= target
    && forall i :: 0 <= i < |view| && view[i].0 >= target ==> view[c.index].0 <= view[i].0
  }

  lemma SeekFinds(es: seq<Entry>, s: Sequence, target: UserKey, c: Cursor)
    requires Sorted(es) && c == Land(View(es, s), KeysBelow(View(es, s), target))
    ensures c.At? <==> HasFrom(View(es, s), target)
    ensures c.At? ==> FirstFrom(View(es, s), target, c)
  {
    var view := View(es, s);
    forall a, b | 0 <= a < b < |view| ensures view[a].0 < view[b].0 { ViewSorted(es, s, a, b); }
    KeysBelowSplits(view, target);
    if c.At? { assert view[c.index].0 >= target; }
  }

  lemma SeekLands(es: seq<Entry>, s: Sequence, target: UserKey, first: nat, to: nat)
    requires Sorted(es) && first <= to <= |es|
    requires forall j :: 0 <= j < first ==> es[j].key < target || (es[j].key == target && es[j].sn > s)
    requires forall j :: first <= j < |es| ==> es[j].key >= target
    requires forall j :: first <= j < to ==> !Live(es, s, j)
    requires to < |es| ==> Live(es, s, to)
    ensures (if to < |es| then At(Rank(es, s, to)) else Invalid) == Land(View(es, s), KeysBelow(View(es, s), target))
  {
    var view := View(es, s);
    forall a, b | 0 <= a < b < |view| ensures view[a].0 < view[b].0 { ViewSorted(es, s, a, b); }
    KeysBelowSplits(view, target);
    var n := Rank(es, s, to);
    RankPrefix(es, s, to, |es|);
    forall a | 0 <= a < |view| ensures view[a].0 < target <==> a < n {
      var i := LiveAt(es, s, |es|, a);
      if i < to { RankAt(es, s, i); RankPrefix(es, s, i + 1, to); } else { RankPrefix(es, s, to, i); }
    }
    var a := if KeysBelow(view, target) < n then KeysBelow(view, target) else n;
    assert a < |view| ==> (view[a].0 < target <==> a < n);
    if to < |es| { RankAt(es, s, to); }
  }

  // ---------- Whole runs ----------

  ghost predicate LegalRun(view: seq<Pair>, c: Cursor, ops: seq<Op>)
    decreases |ops|
  {
    ops != [] ==> Legal(c, ops[0]) && LegalRun(view, Move(view, c, ops[0]), ops[1..])
  }

  function Observe(view: seq<Pair>, c: Cursor): Option<Pair> {
    if c.At? && c.index < |view| then Some(view[c.index]) else None
  }

  // What an ideal cursor on the view shows after each operation.
  ghost function Trace(view: seq<Pair>, c: Cursor, ops: seq<Op>): seq<Option<Pair>>
    requires LegalRun(view, c, ops)
    decreases |ops|
  {
    if ops == [] then []
    else
      var c' := Move(view, c, ops[0]);
      [Observe(view, c')] + Trace(view, c', ops[1..])
  }

  method Look(it: DBIter) returns (p: Option<Pair>)
    requires it.Invariant()
    ensures p == Observe(View(it.iter.entries, it.sequence), it.Abs())
  {
    if it.valid {
      var k := it.Key();
      var v := it.GetValue();
      p := Some((k, v));
    } else {
      p := None;
    }
  }

  // Any legal sequence of calls, with any changes of direction, shows exactly what
  // the ideal cursor shows.
  method Execute(it: DBIter, ops: seq<Op>) returns (shown: seq<Option<Pair>>)
    requires it.Invariant() && LegalRun(View(it.iter.entries, it.sequence), it.Abs(), ops)
    modifies it, it.iter
    ensures it.Invariant()
    ensures shown == Trace(View(it.iter.entries, it.sequence), old(it.Abs()), ops)
  {
    hide DBIter.Invariant;
    if ops == [] { return []; }
    match ops[0] {
      case Seek(t) => it.Seek(t);
      case SeekToFirst => it.SeekToFirst();
      case SeekToLast => it.SeekToLast();
      case Next => it.Next();
      case Prev => it.Prev();
    }
    var p := Look(it);
    var rest := Execute(it, ops[1..]);
    shown := [p] + rest;
  }

  // A forward scan lists the view; a backward scan lists it in exact reverse.
  method ScanForward(it: DBIter) returns (shown: seq<Pair>)
    requires it.Invariant()
    modifies it, it.iter
    ensures it.Invariant() && shown == View(it.iter.entries, it.sequence)
  {
    ghost var view := View(it.iter.entries, it.sequence);
    it.SeekToFirst();
    shown := [];
    while it.valid
      invariant it.Invariant() && shown <= view
      invariant it.Abs() == Land(view, |shown|)
      decreases |view| - |shown|
    {
      var k := it.Key();
      var v := it.GetValue();
      shown := shown + [(k, v)];
      it.Next();
    }
  }

  method ScanBackward(it: DBIter) returns (shown: seq<Pair>)
    requires it.Invariant()
    modifies it, it.iter
    ensures it.Invariant()
    ensures |shown| == |View(it.iter.entries, it.sequence)|
    ensures forall i :: 0 <= i < |shown| ==> shown[i] == View(it.iter.entries, it.sequence)[|shown| - 1 - i]
  {
    hide DBIter.Invariant, View;
    ghost var view := View(it.iter.entries, it.sequence);
    it.SeekToLast();
    shown := [];
    while it.valid
      invariant it.Invariant() && |shown| <= |view|
      invariant forall i :: 0 <= i < |shown| ==> shown[i] == view[|view| - 1 - i]
      invariant it.Abs() == Land(view, |view| - 1 - |shown|)
      decreases |view| - |shown|
    {
      var k := it.Key();
      var v := it.GetValue();
      shown := shown + [(k, v)];
      it.Prev();
    }
  }

  // Prev undoes Next, and Next undoes Prev, whenever the first of the two stays in range.
  lemma StepsCancel(view: seq<Pair>, c: Cursor)
    requires c.At? && c.index < |view|
    ensures var n := Move(view, c, Op.Next); n.At? ==> Move(view, n, Op.Prev) == c
    ensures var p := Move(view, c, Op.Prev); p.At? ==> Move(view, p, Op.Next) == c
  {
  }

  // One step and then the opposite one, starting from either direction: when there is a pair to
  // step to, the cursor is back where it was and shows again what it showed.
  method ThereAndBack(it: DBIter, forward: bool) returns (before: Option<Pair>, between: Option<Pair>,
          after: Option<Pair>)
    requires it.Invariant() && it.valid
    modifies it, it.iter
    ensures it.Invariant()
    ensures var view, i := View(it.iter.entries, it.sequence), old(it.Abs()).index;
      && i < |view| && before == Some(view[i])
      && (if forward then i + 1 < |view| else i > 0) ==>
           && it.Abs() == old(it.Abs()) && after == before
           && between == Some(view[if forward then i + 1 else i - 1])
  {
    hide DBIter.Invariant;
    ghost var view := View(it.iter.entries, it.sequence);
    InView(it);
    StepsCancel(view, it.Abs());
    before := Look(it);
    if forward { it.Next(); } else { it.Prev(); }
    between := Look(it);
    if it.valid {
      if forward { it.Prev(); } else { it.Next(); }
    }
    after := Look(it);
  }

  lemma InView(it: DBIter)
    requires it.Invariant() && it.valid
    ensures it.Abs().At? && it.Abs().index < |View(it.iter.entries, it.sequence)|
  {
    RankAt(it.iter.entries, it.sequence, it.cur);
    RankPrefix(it.iter.entries, it.sequence, it.cur + 1, |it.iter.entries|);
  }

  // What a caller of Seek sees: the first pair of the view with a key at or above the target, if
  // there is one.
  method SeekShows(it: DBIter, target: UserKey) returns (p: Option<Pair>)
    requires it.Invariant()
    modifies it, it.iter
    ensures it.Invariant() && (p.Some? <==> it.valid)
    ensures var view := View(it.iter.entries, it.sequence);
      && (p.Some? <==> exists i :: 0 <= i < |view| && view[i].0 >= target)
      && (p.Some? ==> p.value in view && p.value.0 >= target)
      && (p.Some? ==> forall i :: 0 <= i < |view| && view[i].0 >= target ==> p.value.0 <= view[i].0)
  {
    hide DBIter.Invariant, View, Move;
    it.Seek(target);
    if it.valid {
      var k := it.Key();
      var v := it.GetValue();
      p := Some((k, v));
    } else {
      p := None;
    }
  }
}
