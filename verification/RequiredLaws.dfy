// Which messages the decoder refuses for what they lack: required fields and missing items of the
// last fixed-count array.
module RequiredLaws {
  import opened Wire
  import opened InputStream
  import opened Messages
  import opened Decoding
  import opened DecodingLaws

  // The field numbers of the top-level records read, in the order they come.
  function Numbers(fields: seq<Field>, p: Progress, bs: seq<Byte>): seq<nat>
    decreases |bs|
  {
    if bs == [] || ParseTag(bs).Fail? || ParseTag(bs).value.EndMark? then []
    else
      var tag, rest := ParseTag(bs).value, ParseTag(bs).rest;
      match DecodeOne(fields, tag.number, tag.wireType, p, rest)
      case Fail => []
      case Got(q, rest') => [tag.number] + Numbers(fields, q, rest')
  }

  // Required descriptor i is among the first sixty-four required ones.
  ghost predicate Checked(fields: seq<Field>, i: nat) {
    && i < |fields| && fields[i].htype.Required?
    && |set k | 0 <= k < i && fields[k].htype.Required?| < 64
  }

  lemma {:induction false} RequiredCount(fields: seq<Field>, n: nat)
    requires n <= |fields|
    ensures RequiredBefore(fields, n) == |set k | 0 <= k < n && fields[k].htype.Required?|
  {
    if n > 0 {
      RequiredCount(fields, n - 1);
      var before := set k | 0 <= k < n - 1 && fields[k].htype.Required?;
      var all := set k | 0 <= k < n && fields[k].htype.Required?;
      assert all == if fields[n - 1].htype.Required? then before + {n - 1} else before;
    }
  }

  ghost predicate DifferentTags(fields: seq<Field>) {
    forall i, j :: 0 <= i < j < |fields| ==> fields[i].tag != fields[j].tag
  }

  lemma FieldOfTag(fields: seq<Field>, i: nat)
    requires DifferentTags(fields) && i < |fields| && !fields[i].ltype.Extension?
    ensures FindField(fields, fields[i].tag) == i
  {
  }

  // A record makes its required field seen, and no record another.
  lemma SeenByField(fields: seq<Field>, j: nat, wt: WireType, p: Progress, bs: seq<Byte>)
    requires j < |fields| && DecodeField(fields, j, wt, p, bs).Got?
    ensures DecodeField(fields, j, wt, p, bs).value.seen == if fields[j].htype.Required? then p.seen + {j} else p.seen
  {
    hide DecodeValue, DecodeItems;
  }

  lemma SeenByRecord(fields: seq<Field>, number: nat, wt: WireType, p: Progress, bs: seq<Byte>, i: nat)
    requires DifferentTags(fields) && i < |fields| && fields[i].htype.Required? && !fields[i].ltype.Extension?
    requires DecodeOne(fields, number, wt, p, bs).Got?
    ensures i in DecodeOne(fields, number, wt, p, bs).value.seen <==> i in p.seen || number == fields[i].tag
  {
    FieldOfTag(fields, i);
    var j := FindField(fields, number);
    if j < |fields| { SeenByField(fields, j, wt, p, bs); }
  }

  // What the loop has seen in the end is what was seen before and what was read.
  lemma {:induction false} SeenByLoop(fields: seq<Field>, p: Progress, bs: seq<Byte>, i: nat)
    requires DifferentTags(fields) && i < |fields| && fields[i].htype.Required? && !fields[i].ltype.Extension?
    requires DecodeLoop(fields, p, bs).Got?
    ensures i in DecodeLoop(fields, p, bs).value.p.seen <==> i in p.seen || fields[i].tag in Numbers(fields, p, bs)
    decreases |bs|
  {
    if bs != [] && ParseTag(bs).value.Tag? {
      var tag, rest := ParseTag(bs).value, ParseTag(bs).rest;
      var one := DecodeOne(fields, tag.number, tag.wireType, p, rest);
      SeenByRecord(fields, tag.number, tag.wireType, p, rest, i);
      hide DecodeOne, ParseTag;
      SeenByLoop(fields, one.value, one.rest, i);
    }
  }

  // Decoding into a message succeeds if and only if the fields can be read to the end, the last
  // fixed-count array met has all its items, and each of the first sixty-four required fields has
  // a record.
  lemma AcceptedIff(fields: seq<Field>, m: Message, bs: seq<Byte>)
    requires DifferentTags(fields) && forall i :: 0 <= i < |fields| ==> !fields[i].ltype.Extension?
    ensures var start := Progress(m, {}, -1, 0);
      var loop := DecodeLoop(fields, start, bs);
      DecodeNoinit(fields, m, bs).Got? <==>
        && loop.Got?
        && (forall i: nat :: Checked(fields, i) ==> fields[i].tag in Numbers(fields, start, bs))
        && (0 <= loop.value.p.fixedField < |fields| ==>
              loop.value.p.fixedCount == fields[loop.value.p.fixedField].arraySize)
  {
    var start := Progress(m, {}, -1, 0);
    var loop := DecodeLoop(fields, start, bs);
    hide DecodeLoop, Numbers;
    if loop.Got? {
      forall i: nat | i < |fields| && fields[i].htype.Required?
        ensures i in loop.value.p.seen <==> fields[i].tag in Numbers(fields, start, bs)
        ensures RequiredBefore(fields, i) < 64 <==> Checked(fields, i)
      {
        SeenByLoop(fields, start, bs, i);
        RequiredCount(fields, i);
      }
    }
  }

  // A message that lacks a required field is refused, whatever else it holds.
  lemma MissingRequired(fields: seq<Field>, bs: seq<Byte>, i: nat)
    requires DifferentTags(fields) && (forall k :: 0 <= k < |fields| ==> !fields[k].ltype.Extension?)
    requires Checked(fields, i) && fields[i].tag !in Numbers(fields, Progress(Defaults(fields), {}, -1, 0), bs)
    ensures Decode(fields, bs) == Fail
  {
    AcceptedIff(fields, Defaults(fields), bs);
  }

  // In particular no bytes at all are a message of a type with a required field.
  lemma EmptyRefused(fields: seq<Field>, i: nat)
    requires DifferentTags(fields) && (forall k :: 0 <= k < |fields| ==> !fields[k].ltype.Extension?)
    requires Checked(fields, i)
    ensures Decode(fields, []) == Fail
  {
    MissingRequired(fields, [], i);
  }

  // ---------- Fixed-count arrays ----------

  lemma {:induction false} PackedAppends(f: Field, limit: nat, items: seq<Value>, bs: seq<Byte>)
    requires DecodePacked(f, limit, items, bs).Got?
    ensures items <= DecodePacked(f, limit, items, bs).value
    ensures DecodePacked(f, limit, items, bs).value == items || |DecodePacked(f, limit, items, bs).value| <= limit
    decreases |bs|
  {
    if bs != [] {
      var one := DecodeScalar(f, bs);
      PackedAppends(f, limit, items + [one.value], one.rest);
    }
  }

  // A record of a fixed-count array counts its items on top of those already received, or from
  // zero when another array was being filled, which then must have been full.  It never counts
  // beyond the array.
  lemma FixedCounts(fields: seq<Field>, i: nat, wt: WireType, p: Progress, bs: seq<Byte>)
    requires i < |fields| && fields[i].htype.Repeated? && fields[i].sizeOffset == 0
    requires DecodeField(fields, i, wt, p, bs).Got? && i < |p.msg.slots| && p.msg.slots[i].Many?
    requires p.fixedField == i ==> p.fixedCount <= |p.msg.slots[i].items|
    ensures var n := if p.fixedField == i then p.fixedCount else 0;
      var q := DecodeField(fields, i, wt, p, bs).value;
      && q.fixedField == i && n <= q.fixedCount && (q.fixedCount == n || q.fixedCount <= fields[i].arraySize)
      && (!(wt.WtString? && Packable(fields[i].ltype)) ==> q.fixedCount == n + 1 <= fields[i].arraySize)
      && (0 <= p.fixedField < |fields| && p.fixedField != i ==> p.fixedCount == fields[p.fixedField].arraySize)
  {
    var f, all := fields[i], p.msg.slots[i].items;
    var q := FixedStart(fields, i, p).value;
    var items := UpTo(all, q.fixedCount);
    assert |items| == q.fixedCount;
    assert DecodeField(fields, i, wt, p, bs) == DecodeRepeated(fields, i, wt, p, bs);
    assert DecodeItems(f, wt, items, bs).Got?;
    if wt.WtString? && Packable(f.ltype) { PackedAppends(f, f.arraySize, items, Delimited(bs).value); }
  }
}
