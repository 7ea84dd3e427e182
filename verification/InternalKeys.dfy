// Internal keys: the (user key, sequence, type) entries that memtables, tables
// and the user-key cursor share, and what a read at a sequence number means.
module InternalKeys {

  datatype Option<T> = None | Some(value: T)

  // A user key stands for its rank in the comparator's order.  Keys are only ever
  // compared, and any finite set of keys embeds into the integers.
  type UserKey = int
  type Value = string
  type Sequence = nat

  const MAX_SEQUENCE: Sequence := 0xFF_FFFF_FFFF_FFFF

  datatype ValueType = Deletion | Put

  datatype Entry = Entry(key: UserKey, sn: Sequence, kind: ValueType, value: Value)

  // The 64-bit trailer of an internal key: sequence in the high 56 bits, type in the low 8.
  function PackSequenceAndType(sn: Sequence, kind: ValueType): nat {
    sn * 256 + if kind.Put? then 1 else 0
  }

  // True when (key, sn, kind) sorts at or before entry e: user key ascending, trailer descending.
  predicate AtOrBefore(key: UserKey, sn: Sequence, kind: ValueType, e: Entry) {
    key < e.key || (key == e.key && PackSequenceAndType(sn, kind) >= PackSequenceAndType(e.sn, e.kind))
  }

  ghost predicate Sorted(es: seq<Entry>) {
    forall i, j :: 0 <= i < j < |es| ==> AtOrBefore(es[i].key, es[i].sn, es[i].kind, es[j])
  }

  // Entries of the same user key are ordered by sequence, newest first.
  lemma SortedOrder(es: seq<Entry>, i: nat, j: nat)
    requires Sorted(es) && i < j < |es|
    ensures es[i].key <= es[j].key
    ensures es[i].key == es[j].key ==> es[i].sn >= es[j].sn
  {
  }
}
