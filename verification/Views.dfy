// What a finite set of entries answers to a point read, and when two sets
// answer alike from some sequence number on.
module Views {
  import opened InternalKeys

  ghost predicate Visible(e: Entry, k: UserKey, s: Sequence) {
    e.key == k && e.sn <= s
  }

  ghost predicate NewestIn(es: set<Entry>, k: UserKey, s: Sequence, e: Entry) {
    && e in es && Visible(e, k, s)
    && forall f :: f in es && Visible(f, k, s) ==> f.sn <= e.sn
  }

  // A read of k at s finds value v.  A deleted or absent key finds no value.
  ghost predicate Reads(es: set<Entry>, k: UserKey, s: Sequence, v: Value) {
    exists e :: NewestIn(es, k, s, e) && e.kind.Put? && e.value == v
  }

  // A (key, sequence) pair names one entry.
  ghost predicate Unique(es: set<Entry>) {
    forall e, f :: e in es && f in es && e.key == f.key && e.sn == f.sn ==> e == f
  }

  ghost predicate SameFrom(es: set<Entry>, fs: set<Entry>, floor: Sequence) {
    forall k, s, v :: floor <= s ==> (Reads(es, k, s, v) <==> Reads(fs, k, s, v))
  }

  ghost predicate AnyVisible(es: set<Entry>, k: UserKey, s: Sequence) {
    exists e :: e in es && Visible(e, k, s)
  }

  lemma {:induction false} NewestExists(es: set<Entry>, k: UserKey, s: Sequence)
    requires AnyVisible(es, k, s)
    ensures exists e :: NewestIn(es, k, s, e)
  {
    var e :| e in es && Visible(e, k, s);
    var rest := es - {e};
    if AnyVisible(rest, k, s) {
      NewestExists(rest, k, s);
      var m :| NewestIn(rest, k, s, m);
      assert NewestIn(es, k, s, if m.sn >= e.sn then m else e);
    } else {
      forall f | f in es && Visible(f, k, s) ensures f == e {
        assert f == e || f in rest;
      }
      assert NewestIn(es, k, s, e);
    }
  }

  // Newer entries hide older layers: newer answers when it can see the key, else older does.
  lemma LayeredRead(newer: set<Entry>, older: set<Entry>, k: UserKey, s: Sequence, v: Value)
    requires forall e, f :: e in newer && f in older && e.key == f.key ==> f.sn <= e.sn
    requires Unique(newer + older)
    ensures Reads(newer + older, k, s, v) <==>
            if AnyVisible(newer, k, s) then Reads(newer, k, s, v) else Reads(older, k, s, v)
  {
    var all := newer + older;
    if AnyVisible(newer, k, s) {
      NewestExists(newer, k, s);
      var m :| NewestIn(newer, k, s, m);
      assert NewestIn(all, k, s, m);
      if Reads(newer, k, s, v) {
        var e :| NewestIn(newer, k, s, e) && e.kind.Put? && e.value == v;
        assert NewestIn(all, k, s, e);
      }
      if Reads(all, k, s, v) {
        var e :| NewestIn(all, k, s, e) && e.kind.Put? && e.value == v;
        assert e.sn == m.sn;
      }
    } else {
      forall e ensures NewestIn(all, k, s, e) <==> NewestIn(older, k, s, e) {}
    }
  }

  // Entries above s do not change what is read at s.
  lemma LaterEntriesInvisible(es: set<Entry>, later: set<Entry>, k: UserKey, s: Sequence, v: Value)
    requires forall e :: e in later ==> e.sn > s
    ensures Reads(es + later, k, s, v) <==> Reads(es, k, s, v)
  {
    forall e ensures NewestIn(es + later, k, s, e) <==> NewestIn(es, k, s, e) {}
  }

  // Adding the same entries to both sides keeps them alike, provided nothing that only the
  // fuller side still has is newer than an addition.
  lemma AddAlike(es: set<Entry>, full: set<Entry>, more: set<Entry>, floor: Sequence)
    requires es <= full && SameFrom(es, full, floor) && Unique(full + more)
    requires forall d, x :: d in full - es && x in more && d.key == x.key ==> d.sn < x.sn
    ensures SameFrom(es + more, full + more, floor)
  {
    forall k, s, v | floor <= s ensures Reads(es + more, k, s, v) <==> Reads(full + more, k, s, v) {
      if AnyVisible(more, k, s) {
        NewestExists(more, k, s);
        var x :| NewestIn(more, k, s, x);
        forall e ensures NewestIn(es + more, k, s, e) <==> NewestIn(full + more, k, s, e) {
          if NewestIn(full + more, k, s, e) { assert e.sn >= x.sn; }
          if NewestIn(es + more, k, s, e) {
            assert e.sn >= x.sn;
            assert e in full + more;
          }
        }
      } else {
        forall e ensures NewestIn(es + more, k, s, e) <==> NewestIn(es, k, s, e) {}
        forall e ensures NewestIn(full + more, k, s, e) <==> NewestIn(full, k, s, e) {}
        assert Reads(es, k, s, v) <==> Reads(full, k, s, v);
      }
    }
  }

  lemma SameFromTransitive(a: set<Entry>, b: set<Entry>, c: set<Entry>, f: Sequence, g: Sequence, h: Sequence)
    requires SameFrom(a, b, f) && SameFrom(b, c, g) && f <= h && g <= h
    ensures SameFrom(a, c, h) && SameFrom(c, a, h)
  {
  }
}
