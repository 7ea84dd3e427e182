// Laws of decoding: it works field by field, so concatenation merges, a zero tag ends the
// message, and unknown fields leave no trace.
module DecodingLaws {
  import opened Wire
  import opened InputStream
  import opened Messages
  import opened Decoding

  // ---------- A parser ignores what follows the bytes it uses ----------

  lemma TextExtends(a: seq<Byte>, b: seq<Byte>, n: nat)
    requires TakeText(a, n).Got?
    ensures TakeText(a + b, n) == Got(TakeText(a, n).value, TakeText(a, n).rest + b)
    ensures Suffix(TakeText(a, n).rest, a)
  {
    TakeExtends(a, b, n);
  }

  lemma ScalarExtends(f: Field, a: seq<Byte>, b: seq<Byte>)
    requires DecodeScalar(f, a).Got?
    ensures DecodeScalar(f, a + b) == Got(DecodeScalar(f, a).value, DecodeScalar(f, a).rest + b)
    ensures Suffix(DecodeScalar(f, a).rest, a)
  {
    match f.ltype
    case Bool => Varint32Extends(a, b);
    case Varint => Varint64Extends(a, b);
    case UVarint => Varint64Extends(a, b);
    case SVarint => Varint64Extends(a, b);
    case Fixed32 => TakeExtends(a, b, 4);
    case Fixed64 => TakeExtends(a, b, 8);
    case Bytes => PrefixedExtends(f, a, b);
    case String => PrefixedExtends(f, a, b);
    case FixedLengthBytes => PrefixedExtends(f, a, b);
    case Submessage =>
    case Extension =>
  }

  lemma PrefixedExtends(f: Field, a: seq<Byte>, b: seq<Byte>)
    requires f.ltype.Bytes? || f.ltype.String? || f.ltype.FixedLengthBytes?
    requires DecodeScalar(f, a).Got?
    ensures DecodeScalar(f, a + b) == Got(DecodeScalar(f, a).value, DecodeScalar(f, a).rest + b)
    ensures Suffix(DecodeScalar(f, a).rest, a)
  {
    Varint32Extends(a, b);
    var n, rest := Varint32(a).value, Varint32(a).rest;
    if !(f.ltype.FixedLengthBytes? && n == 0) {
      TextExtends(rest, b, n);
      SuffixTrans(TakeText(rest, n).rest, rest, a);
    }
  }

  lemma ValueExtends(f: Field, prior: Value, a: seq<Byte>, b: seq<Byte>)
    requires DecodeValue(f, prior, a).Got?
    ensures DecodeValue(f, prior, a + b) == Got(DecodeValue(f, prior, a).value, DecodeValue(f, prior, a).rest + b)
    ensures Suffix(DecodeValue(f, prior, a).rest, a)
  {
    if f.ltype.Submessage? { DelimitedExtends(a, b); } else { ScalarExtends(f, a, b); }
  }

  lemma ItemsExtends(f: Field, wt: WireType, items: seq<Value>, a: seq<Byte>, b: seq<Byte>)
    requires DecodeItems(f, wt, items, a).Got?
    ensures DecodeItems(f, wt, items, a + b) ==
        Got(DecodeItems(f, wt, items, a).value, DecodeItems(f, wt, items, a).rest + b)
    ensures Suffix(DecodeItems(f, wt, items, a).rest, a)
  {
    if wt.WtString? && Packable(f.ltype) { DelimitedExtends(a, b); } else { ValueExtends(f, Num(0), a, b); }
  }

  lemma FieldExtends(fields: seq<Field>, i: nat, wt: WireType, p: Progress, a: seq<Byte>, b: seq<Byte>)
    requires i < |fields| && DecodeField(fields, i, wt, p, a).Got?
    ensures var r := DecodeField(fields, i, wt, p, a); DecodeField(fields, i, wt, p, a + b) == Got(r.value, r.rest + b)
    ensures Suffix(DecodeField(fields, i, wt, p, a).rest, a)
  {
    var f, s := fields[i], p.msg.slots[i];
    if f.htype.Repeated? {
      var all := ItemsOf(s);
      if RuleOf(f).FixedCount? { ItemsExtends(f, wt, UpTo(all, FixedStart(fields, i, p).value.fixedCount), a, b); }
      else { ItemsExtends(f, wt, all, a, b); }
    } else {
      ValueExtends(f, PriorValue(f, s, p.msg), a, b);
    }
  }

  lemma OneExtends(fields: seq<Field>, number: nat, wt: WireType, p: Progress, a: seq<Byte>, b: seq<Byte>)
    requires DecodeOne(fields, number, wt, p, a).Got?
    ensures var r := DecodeOne(fields, number, wt, p, a);
        DecodeOne(fields, number, wt, p, a + b) == Got(r.value, r.rest + b)
    ensures Suffix(DecodeOne(fields, number, wt, p, a).rest, a)
  {
    var i := FindField(fields, number);
    if i < |fields| { FieldExtends(fields, i, wt, p, a, b); }
    else if fields == [] && number == 0 { Varint32Extends(a, b); }
    else { SkipExtends(wt, a, b); }
  }

  // ---------- Decoding one stretch of fields after another ----------

  // When the fields of a decode to their end, decoding a followed by b is decoding b from where
  // a left off.
  lemma {:induction false} LoopComposes(fields: seq<Field>, p: Progress, a: seq<Byte>, b: seq<Byte>)
    requires DecodeLoop(fields, p, a).Got? && !DecodeLoop(fields, p, a).value.stopped
    ensures DecodeLoop(fields, p, a).rest == []
    ensures DecodeLoop(fields, p, a + b) == DecodeLoop(fields, DecodeLoop(fields, p, a).value.p, b)
    decreases |a|
  {
    if a == [] {
      assert a + b == b;
    } else {
      TagExtends(a, b);
      var tag, rest := ParseTag(a).value, ParseTag(a).rest;
      OneExtends(fields, tag.number, tag.wireType, p, rest, b);
      var one := DecodeOne(fields, tag.number, tag.wireType, p, rest);
      LoopComposes(fields, one.value, one.rest, b);
    }
  }

  // When a zero tag ends a, nothing after it matters.
  lemma {:induction false} LoopStops(fields: seq<Field>, p: Progress, a: seq<Byte>, b: seq<Byte>)
    requires DecodeLoop(fields, p, a).Got? && DecodeLoop(fields, p, a).value.stopped
    ensures DecodeLoop(fields, p, a + b) == Got(DecodeLoop(fields, p, a).value, DecodeLoop(fields, p, a).rest + b)
    decreases |a|
  {
    TagExtends(a, b);
    var tag, rest := ParseTag(a).value, ParseTag(a).rest;
    if tag.Tag? {
      OneExtends(fields, tag.number, tag.wireType, p, rest, b);
      var one := DecodeOne(fields, tag.number, tag.wireType, p, rest);
      LoopStops(fields, one.value, one.rest, b);
    }
  }

  // So a message that a zero tag has ended decodes the same whatever comes after it.
  lemma NothingAfterZero(fields: seq<Field>, m: Message, a: seq<Byte>, b: seq<Byte>)
    requires DecodeNoinit(fields, m, a).Got? && DecodeLoop(fields, Progress(m, {}, -1, 0), a).value.stopped
    ensures DecodeNoinit(fields, m, a + b) == Got(DecodeNoinit(fields, m, a).value, DecodeNoinit(fields, m, a).rest + b)
  {
    LoopStops(fields, Progress(m, {}, -1, 0), a, b);
  }

  // Appending a zero byte and anything at all to a complete message changes nothing.
  lemma TrailingZeroEndsMessage(fields: seq<Field>, m: Message, bs: seq<Byte>, junk: seq<Byte>)
    requires DecodeNoinit(fields, m, bs).Got? && !DecodeLoop(fields, Progress(m, {}, -1, 0), bs).value.stopped
    ensures DecodeNoinit(fields, m, bs + ([0] + junk)) == Got(DecodeNoinit(fields, m, bs).value, junk)
  {
    var tail := [0] + junk;
    LoopComposes(fields, Progress(m, {}, -1, 0), bs, tail);
    VarintLengthOne(tail);
  }

  lemma VarintLengthOne(bs: seq<Byte>)
    requires bs != [] && bs[0] == 0
    ensures ParseTag(bs) == Got(EndMark, bs[1..])
  {
    LengthUnique(bs, 1);
    assert Raw(bs, 1) == Raw(bs, 0) + bs[0] % 128 * Pow128(0);
  }

  // ---------- Concatenation is merge ----------

  ghost predicate NoFixedCount(fields: seq<Field>) {
    forall i :: 0 <= i < |fields| ==> !RuleOf(fields[i]).FixedCount?
  }

  function AddSeen(p: Progress, more: set<nat>): Progress {
    p.(seen := p.seen + more)
  }

  // What was seen before has no influence on how a field is decoded.
  lemma FieldSeen(fields: seq<Field>, i: nat, wt: WireType, p: Progress, more: set<nat>, bs: seq<Byte>)
    requires i < |fields|
    ensures var r := DecodeField(fields, i, wt, p, bs);
      DecodeField(fields, i, wt, AddSeen(p, more), bs) == if r.Got? then Got(AddSeen(r.value, more), r.rest) else Fail
  {
    hide DecodeValue, DecodeItems, DecodeScalar, Defaults, FindField;
    assert p.seen + more + {i} == p.seen + {i} + more;
  }

  lemma {:induction false} LoopSeen(fields: seq<Field>, p: Progress, more: set<nat>, bs: seq<Byte>)
    ensures var r := DecodeLoop(fields, p, bs);
      DecodeLoop(fields, AddSeen(p, more), bs)
        == if r.Got? then Got(Reached(AddSeen(r.value.p, more), r.value.stopped), r.rest) else Fail
    decreases |bs|
  {
    if bs != [] && ParseTag(bs).Got? && ParseTag(bs).value.Tag? {
      var tag, rest := ParseTag(bs).value, ParseTag(bs).rest;
      var i := FindField(fields, tag.number);
      if i < |fields| { FieldSeen(fields, i, tag.wireType, p, more, rest); }
      var one := DecodeOne(fields, tag.number, tag.wireType, p, rest);
      if one.Got? { LoopSeen(fields, one.value, more, one.rest); }
    }
  }

  lemma FieldNoFixed(fields: seq<Field>, i: nat, wt: WireType, p: Progress, bs: seq<Byte>)
    requires i < |fields| && !RuleOf(fields[i]).FixedCount? && DecodeField(fields, i, wt, p, bs).Got?
    ensures var q := DecodeField(fields, i, wt, p, bs).value;
      q.fixedField == p.fixedField && q.fixedCount == p.fixedCount && p.seen <= q.seen
  {
  }

  lemma {:induction false} LoopNoFixed(fields: seq<Field>, p: Progress, bs: seq<Byte>)
    requires NoFixedCount(fields) && DecodeLoop(fields, p, bs).Got?
    ensures var q := DecodeLoop(fields, p, bs).value.p;
      q.fixedField == p.fixedField && q.fixedCount == p.fixedCount && p.seen <= q.seen
    decreases |bs|
  {
    if bs != [] {
      var tag, rest := ParseTag(bs).value, ParseTag(bs).rest;
      if tag.Tag? {
        var one := DecodeOne(fields, tag.number, tag.wireType, p, rest);
        var i := FindField(fields, tag.number);
        if i < |fields| { FieldNoFixed(fields, i, tag.wireType, p, rest); }
        LoopNoFixed(fields, one.value, one.rest);
      }
    }
  }

  // Decoding a and then b into the same message is decoding a followed by b: scalars keep the
  // last value, arrays append, submessages and oneofs merge as the fields of b say.
  lemma ConcatenationIsMerge(fields: seq<Field>, m: Message, a: seq<Byte>, b: seq<Byte>)
    requires NoFixedCount(fields)
    requires DecodeNoinit(fields, m, a).Got? && !DecodeLoop(fields, Progress(m, {}, -1, 0), a).value.stopped
    requires DecodeNoinit(fields, DecodeNoinit(fields, m, a).value, b).Got?
    ensures DecodeNoinit(fields, m, a + b) == DecodeNoinit(fields, DecodeNoinit(fields, m, a).value, b)
  {
    var start := Progress(m, {}, -1, 0);
    var first := DecodeLoop(fields, start, a).value.p;
    LoopComposes(fields, start, a, b);
    LoopNoFixed(fields, start, a);
    var again := Progress(first.msg, {}, -1, 0);
    LoopSeen(fields, again, first.seen, b);
    LoopNoFixed(fields, again, b);
    assert AddSeen(again, first.seen) == Progress(first.msg, first.seen, -1, 0);
  }

  // A submessage sent in two records means the same as one record with both payloads.
  lemma RecordsMerge(f: Field, prior: Value, a: seq<Byte>, b: seq<Byte>)
    requires f.ltype.Submessage? && !f.htype.Repeated? && NoFixedCount(f.sub) && |a + b| < TWO_32
    requires var m := OldMessage(prior);
      && DecodeNoinit(f.sub, m, a).Got? && !DecodeLoop(f.sub, Progress(m, {}, -1, 0), a).value.stopped
      && DecodeNoinit(f.sub, DecodeNoinit(f.sub, m, a).value, b).Got?
    ensures DecodeValue(f, prior, WithLength(a)).Got?
    ensures DecodeValue(f, DecodeValue(f, prior, WithLength(a)).value, WithLength(b)).Got?
    ensures DecodeValue(f, prior, WithLength(a + b))
      == DecodeValue(f, DecodeValue(f, prior, WithLength(a)).value, WithLength(b))
  {
    hide DecodeNoinit, DecodeLoop, Delimited, Defaults, NoFixedCount, WithLength;
    ConcatenationIsMerge(f.sub, OldMessage(prior), a, b);
    RecordDecodes(f, prior, a);
    RecordDecodes(f, DecodeValue(f, prior, WithLength(a)).value, b);
    RecordDecodes(f, prior, a + b);
  }

  lemma RecordDecodes(f: Field, prior: Value, bs: seq<Byte>)
    requires f.ltype.Submessage? && !f.htype.Repeated? && |bs| < TWO_32
    requires DecodeNoinit(f.sub, OldMessage(prior), bs).Got?
    ensures DecodeValue(f, prior, WithLength(bs)) == Got(Record(DecodeNoinit(f.sub, OldMessage(prior), bs).value), [])
  {
    RecordPayload(bs);
  }

  lemma RecordPayload(bs: seq<Byte>)
    requires |bs| < TWO_32
    ensures Delimited(WithLength(bs)) == Got(bs, [])
  {
    Varint32RoundTrip(|bs|, bs);
    assert bs[..|bs|] == bs;
  }

  // The last value of a scalar wins, whatever the message held before.
  lemma LastScalarWins(fields: seq<Field>, i: nat, wt: WireType, p: Progress, q: Progress, bs: seq<Byte>)
    requires i < |fields| && !fields[i].htype.Repeated? && !fields[i].htype.Oneof? && !fields[i].ltype.Submessage?
    requires i < |p.msg.slots| && i < |q.msg.slots|
    requires DecodeField(fields, i, wt, p, bs).Got?
    ensures DecodeField(fields, i, wt, q, bs).Got?
    ensures var r, r' := DecodeField(fields, i, wt, p, bs), DecodeField(fields, i, wt, q, bs);
      r.rest == r'.rest && r.value.msg.slots[i] == r'.value.msg.slots[i]
  {
  }

  // A oneof submessage merges into the member that is set only when the tag is the same;
  // otherwise it starts afresh.
  lemma OneofMergesSameTagOnly(fields: seq<Field>, i: nat, wt: WireType, p: Progress, bs: seq<Byte>)
    requires i < |fields| && i < |p.msg.slots| && fields[i].htype.Oneof? && fields[i].ltype.Submessage?
    requires DecodeField(fields, i, wt, p, bs).Got?
    ensures var f := fields[i];
      var u := UnionOf(p.msg, f.union);
      var start := if u.which == f.tag then OldMessage(u.value) else Defaults(f.sub);
      var r := DecodeField(fields, i, wt, p, bs);
      && Delimited(bs).Got?
      && UnionOf(r.value.msg, f.union).which == f.tag
      && DecodeNoinit(f.sub, start, Delimited(bs).value).Got?
      && UnionOf(r.value.msg, f.union).value == Record(DecodeNoinit(f.sub, start, Delimited(bs).value).value)
  {
  }

  // The bytes are one record of field i.
  ghost predicate RecordOf(fields: seq<Field>, i: nat, p: Progress, bs: seq<Byte>) {
    && i < |fields| && bs != [] && ParseTag(bs).Got? && ParseTag(bs).value.Tag?
    && FindField(fields, ParseTag(bs).value.number) == i
    && var r := DecodeField(fields, i, ParseTag(bs).value.wireType, p, ParseTag(bs).rest);
       r.Got? && r.rest == []
  }

  function AfterRecord(fields: seq<Field>, i: nat, p: Progress, bs: seq<Byte>): Progress
    requires RecordOf(fields, i, p, bs)
  {
    DecodeField(fields, i, ParseTag(bs).value.wireType, p, ParseTag(bs).rest).value
  }

  lemma RecordDecoded(fields: seq<Field>, i: nat, p: Progress, bs: seq<Byte>)
    requires RecordOf(fields, i, p, bs)
    ensures DecodeLoop(fields, p, bs) == Got(Reached(AfterRecord(fields, i, p, bs), false), [])
  {
    var q := AfterRecord(fields, i, p, bs);
    assert DecodeLoop(fields, q, []) == Got(Reached(q, false), []);
  }

  // Two records of the same scalar field decode like the second alone, in any message.
  lemma LastRecordWins(fields: seq<Field>, i: nat, p: Progress, a: seq<Byte>, b: seq<Byte>)
    requires RecordOf(fields, i, p, a) && RecordOf(fields, i, p, b)
    requires !fields[i].htype.Repeated? && !fields[i].htype.Oneof? && !fields[i].ltype.Submessage?
    ensures DecodeLoop(fields, p, a + b) == DecodeLoop(fields, p, b)
  {
    var q := AfterRecord(fields, i, p, a);
    RecordDecoded(fields, i, p, a);
    LoopComposes(fields, p, a, b);
    var wt, rest := ParseTag(b).value.wireType, ParseTag(b).rest;
    LastScalarWins(fields, i, wt, p, q, rest);
    assert RecordOf(fields, i, q, b);
    RecordDecoded(fields, i, p, b);
    RecordDecoded(fields, i, q, b);
    var s := AfterRecord(fields, i, p, b).msg.slots[i];
    hide DecodeField, DecodeLoop, DecodeScalar;
    OnlyOwnSlot(fields, i, p, ParseTag(a).value.wireType, ParseTag(a).rest);
    OnlyOwnSlot(fields, i, p, wt, rest);
    OnlyOwnSlot(fields, i, q, wt, rest);
    assert p.msg.slots[i := q.msg.slots[i]][i := s] == p.msg.slots[i := s];
    assert p.seen + {i} + {i} == p.seen + {i};
  }

  lemma OnlyOwnSlot(fields: seq<Field>, i: nat, p: Progress, wt: WireType, bs: seq<Byte>)
    requires i < |fields| && !fields[i].htype.Repeated? && !fields[i].htype.Oneof?
    requires DecodeField(fields, i, wt, p, bs).Got?
    ensures i < |p.msg.slots|
    ensures var q := DecodeField(fields, i, wt, p, bs).value;
      && q.msg == p.msg.(slots := p.msg.slots[i := q.msg.slots[i]])
      && q == p.(msg := q.msg, seen := if fields[i].htype.Required? then p.seen + {i} else p.seen)
  {
  }

  function Cleared(p: Progress, u: nat): Progress {
    SetUnion(p, u, Union(0, Num(0)))
  }

  // A record of another member of the oneof wipes out the first: the two decode like the second
  // alone into a message whose oneof is not set.
  lemma OtherMemberWins(fields: seq<Field>, i: nat, j: nat, p: Progress, a: seq<Byte>, b: seq<Byte>)
    requires i < |fields| && j < |fields| && fields[i].htype.Oneof? && fields[j].htype.Oneof?
    requires fields[i].union == fields[j].union && fields[i].tag != fields[j].tag && fields[j].tag != 0
    requires RecordOf(fields, i, p, a) && RecordOf(fields, j, Cleared(p, fields[j].union), b)
    ensures DecodeLoop(fields, p, a + b) == DecodeLoop(fields, Cleared(p, fields[j].union), b)
  {
    var q, c := AfterRecord(fields, i, p, a), Cleared(p, fields[j].union);
    RecordDecoded(fields, i, p, a);
    LoopComposes(fields, p, a, b);
    var wt, rest := ParseTag(b).value.wireType, ParseTag(b).rest;
    UnionOnly(fields, i, p, ParseTag(a).value.wireType, ParseTag(a).rest);
    UnionStart(fields, j, wt, q, c, rest);
    hide DecodeField, DecodeLoop;
    RecordDecoded(fields, j, c, b);
    RecordDecoded(fields, j, q, b);
  }

  lemma UnionOnly(fields: seq<Field>, i: nat, p: Progress, wt: WireType, bs: seq<Byte>)
    requires i < |fields| && fields[i].htype.Oneof? && DecodeField(fields, i, wt, p, bs).Got?
    ensures var q := DecodeField(fields, i, wt, p, bs).value;
      && q == SetUnion(p, fields[i].union, UnionOf(q.msg, fields[i].union))
      && UnionOf(q.msg, fields[i].union).which == fields[i].tag
  {
  }

  // Members that are not set start alike.
  lemma UnionStart(fields: seq<Field>, j: nat, wt: WireType, q: Progress, c: Progress, bs: seq<Byte>)
    requires j < |fields| && fields[j].htype.Oneof?
    requires var u := fields[j].union;
      && UnionOf(q.msg, u).which != fields[j].tag && UnionOf(c.msg, u).which != fields[j].tag
      && forall x :: SetUnion(q, u, x) == SetUnion(c, u, x)
    ensures DecodeField(fields, j, wt, q, bs) == DecodeField(fields, j, wt, c, bs)
  {
    var u := fields[j].union;
    assert SetUnion(q, u, Union(0, Num(0))) == SetUnion(c, u, Union(0, Num(0)));
  }

  // A length-delimited field leaves the stream exactly its prefix and its length further on, and
  // a nested message is given strictly fewer bytes than its parent had.
  lemma DelimitedAccounts(f: Field, prior: Value, bs: seq<Byte>)
    requires f.ltype.Submessage? && DecodeValue(f, prior, bs).Got?
    ensures Delimited(bs).Got? && |Delimited(bs).value| < |bs|
    ensures DecodeValue(f, prior, bs).rest == bs[VarintLength(bs) + |Delimited(bs).value|..]
  {
    DelimitedExtends(bs, []);
    var n := VarintLength(bs);
    assert Varint32(bs).rest == bs[n..];
  }
}
