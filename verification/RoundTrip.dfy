// Decoding what was encoded gives the message back, nested, repeated, packed, fixed-count and
// oneof fields included.
module RoundTrip {
  import opened Wire
  import opened InputStream
  import opened Messages
  import opened Decoding
  import opened DecodingLaws

  // ---------- What descriptors and messages must satisfy ----------

  // The zero that a proto3 field without a has_ flag starts from.
  function ZeroValue(f: Field): Value {
    match f.ltype
    case Bytes => Text([])
    case String => Text([])
    case FixedLengthBytes => Text(Zeros(f.dataSize))
    case _ => Num(0)
  }

  ghost predicate Sound(fields: seq<Field>)
    decreases fields
  {
    && (forall i :: 0 <= i < |fields| ==> SoundField(fields[i]))
    && (forall i, j :: 0 <= i < j < |fields| ==> fields[i].tag != fields[j].tag)
  }

  ghost predicate SoundField(f: Field)
    decreases f
  {
    && 0 < f.tag < 0x2000_0000 && f.atype.Static? && !f.ltype.Extension? && f.dataSize < TWO_32
    && (f.ltype.Varint? || f.ltype.UVarint? || f.ltype.SVarint? ==> GoodSize(f.dataSize))
    && (RuleOf(f).Implicit? && !f.ltype.Submessage? ==> f.initial == ZeroValue(f))
    && (f.ltype.Submessage? ==> Sound(f.sub))
  }

  // Values a field can hold and the other side can read back.
  ghost predicate Fits(f: Field, v: Value)
    decreases f, 0
  {
    match f.ltype
    case Bool => v == Num(0) || v == Num(1)
    case Varint => v.Num? && SignedFits(f.dataSize, v.n)
    case UVarint => v.Num? && UnsignedFits(f.dataSize, v.n)
    case SVarint => v.Num? && SignedFits(f.dataSize, v.n)
    case Fixed32 => v.Num? && 0 <= v.n < TWO_32
    case Fixed64 => v.Num? && 0 <= v.n < TWO_64
    case Bytes => v.Text? && |v.bytes| + BYTES_OFFSET <= f.dataSize
    case String => v.Text? && |v.bytes| + 1 <= f.dataSize && forall i :: 0 <= i < |v.bytes| ==> v.bytes[i] != 0
    case FixedLengthBytes => v.Text? && |v.bytes| == f.dataSize
    case Submessage => v.Record? && FitsMessage(f.sub, v.msg) && Short(EncodeMessage(f.sub, v.msg))
    case Extension => false
  }

  // Lengths are 32-bit on the wire.
  predicate Short(e: Encoded) {
    e.Encoded? ==> |e.bytes| < TWO_32
  }

  ghost predicate FitsSlot(f: Field, s: Slot, m: Message)
    decreases f, 2
  {
    match RuleOf(f)
    case Always => s.One? && Fits(f, s.v)
    case Implicit => s.One? && Fits(f, s.v)
    case HasFlag => s.Flagged? && (s.has ==> Fits(f, s.v))
    case Counted => s.Many? && |s.items| <= f.arraySize && FitsAll(f, s.items)
    case FixedCount => s.Many? && |s.items| == f.arraySize && FitsAll(f, s.items)
    case InUnion => s.Shared? && (UnionOf(m, f.union).which == f.tag ==> Fits(f, UnionOf(m, f.union).value))
  }

  ghost predicate FitsAll(f: Field, items: seq<Value>)
    decreases f, 1
  {
    && (forall k :: 0 <= k < |items| ==> Fits(f, items[k]))
    && (Packable(f.ltype) ==> Short(EncodePacked(f, items, |items|)))
  }

  ghost predicate FitsMessage(fields: seq<Field>, m: Message)
    decreases fields
  {
    && |m.slots| == |fields|
    && forall i :: 0 <= i < |fields| ==> FitsSlot(fields[i], m.slots[i], m)
  }

  // ---------- Equality up to what has no meaning ----------

  // Absent optionals, inactive oneof members and unused array entries do not matter.
  ghost predicate SameValue(f: Field, v: Value, w: Value)
    decreases f, 0
  {
    if f.ltype.Submessage? then v.Record? && w.Record? && SameMessage(f.sub, v.msg, w.msg) else v == w
  }

  ghost predicate SameItems(f: Field, vs: seq<Value>, ws: seq<Value>)
    decreases f, 1
  {
    |vs| == |ws| && forall k :: 0 <= k < |vs| ==> SameValue(f, vs[k], ws[k])
  }

  ghost predicate SameSlot(f: Field, m: Message, s: Slot, m': Message, s': Slot)
    decreases f, 2
  {
    match RuleOf(f)
    case Always => s.One? && s'.One? && SameValue(f, s.v, s'.v)
    case Implicit => s.One? && s'.One? && SameValue(f, s.v, s'.v)
    case HasFlag => s.Flagged? && s'.Flagged? && s.has == s'.has && (s.has ==> SameValue(f, s.v, s'.v))
    case Counted => s.Many? && s'.Many? && SameItems(f, s.items, s'.items)
    case FixedCount => s.Many? && s'.Many? && SameItems(f, s.items, s'.items)
    case InUnion =>
      var u, u' := UnionOf(m, f.union), UnionOf(m', f.union);
      (u.which == f.tag <==> u'.which == f.tag) && (u.which == f.tag ==> SameValue(f, u.value, u'.value))
  }

  ghost predicate SameMessage(fields: seq<Field>, m: Message, m': Message)
    decreases fields
  {
    && |m.slots| == |fields| == |m'.slots|
    && forall i :: 0 <= i < |fields| ==> SameSlot(fields[i], m, m.slots[i], m', m'.slots[i])
  }

  // ---------- Scalars ----------

  lemma LengthThen(n: nat, tail: seq<Byte>)
    requires n < TWO_32
    ensures Varint32(EncodeVarint(n) + tail) == Got(n, tail)
  {
    Varint32RoundTrip(n, tail);
  }

  lemma TextRoundTrip(bs: seq<Byte>, tail: seq<Byte>)
    requires |bs| < TWO_32
    ensures Varint32(WithLength(bs) + tail) == Got(|bs|, bs + tail)
    ensures TakeText(bs + tail, |bs|) == Got(Text(bs), tail)
    ensures Delimited(WithLength(bs) + tail) == Got(bs, tail)
  {
    assert WithLength(bs) + tail == EncodeVarint(|bs|) + (bs + tail);
    LengthThen(|bs|, bs + tail);
    assert (bs + tail)[..|bs|] == bs && (bs + tail)[|bs|..] == tail;
  }

  lemma UpToNulAll(bs: seq<Byte>)
    requires forall i :: 0 <= i < |bs| ==> bs[i] != 0
    ensures UpToNul(bs) == bs
  {
  }

  lemma SignedRoundTrip(size: nat, n: int)
    requires SignedFits(size, n)
    ensures -TWO_63 <= n < TWO_63 && ToUnsigned(n) < TWO_64 && SignedValue(size, ToUnsigned(n)) == n
  {
  }

  lemma FixedInFront(n: nat, width: nat, tail: seq<Byte>)
    requires n < Pow256(width)
    ensures Take(LittleEndian(n, width) + tail, width) == Got(LittleEndian(n, width), tail)
    ensures FromLittleEndian(LittleEndian(n, width)) == n
  {
    FixedRoundTrip(n, width);
    var e := LittleEndian(n, width);
    assert (e + tail)[..width] == e && (e + tail)[width..] == tail;
  }

  // Every scalar, 8, 16, 32 and 64 bits wide, comes back through the clamping decoders.
  lemma ScalarRoundTrip(f: Field, v: Value, tail: seq<Byte>)
    requires SoundField(f) && !f.ltype.Submessage? && Fits(f, v)
    ensures EncodeScalar(f, v).Encoded?
    ensures DecodeScalar(f, EncodeScalar(f, v).bytes + tail) == Got(v, tail)
  {
    match f.ltype
    case Bool => LengthThen(if v.n != 0 then 1 else 0, tail);
    case Varint => SignedRoundTrip(f.dataSize, v.n); VarintRoundTrip(ToUnsigned(v.n), tail);
    case UVarint => VarintRoundTrip(v.n, tail);
    case SVarint => ZigZagBijection(v.n, 0); VarintRoundTrip(ZigZag(v.n), tail);
    case Fixed32 => FixedWidths(); FixedInFront(v.n, 4, tail);
    case Fixed64 => FixedWidths(); FixedInFront(v.n, 8, tail);
    case Bytes => TextRoundTrip(v.bytes, tail);
    case String => UpToNulAll(v.bytes); TextRoundTrip(v.bytes, tail);
    case FixedLengthBytes => TextRoundTrip(v.bytes, tail); EmptyZeros(f, v.bytes);
    case Extension =>
  }

  lemma EmptyZeros(f: Field, bs: seq<Byte>)
    requires |bs| == f.dataSize
    ensures |bs| == 0 ==> Zeros(f.dataSize) == bs
  {
  }

  lemma {:induction false} ScalarsRoundTrip(f: Field, items: seq<Value>, n: nat)
    requires SoundField(f) && Packable(f.ltype) && n <= |items| <= f.arraySize
    requires forall k :: 0 <= k < |items| ==> Fits(f, items[k])
    ensures EncodePacked(f, items, n).Encoded?
    ensures DecodePacked(f, f.arraySize, [], EncodePacked(f, items, n).bytes) == Got(items[..n], [])
  {
    hide DecodeScalar, EncodeScalar, Fits, SoundField;
    if n > 0 {
      ScalarsRoundTrip(f, items, n - 1);
      var v := items[n - 1];
      ScalarRoundTrip(f, v, []);
      var before, last := EncodePacked(f, items, n - 1).bytes, EncodeScalar(f, v).bytes;
      PackedComposes(f, f.arraySize, [], before, last);
      assert last + [] == last;
      assert items[..n - 1] + [v] == items[..n];
    }
  }

  lemma {:induction false} PackedComposes(f: Field, limit: nat, items: seq<Value>, a: seq<Byte>, b: seq<Byte>)
    requires DecodePacked(f, limit, items, a).Got?
    ensures DecodePacked(f, limit, items, a + b) == DecodePacked(f, limit, DecodePacked(f, limit, items, a).value, b)
    decreases |a|
  {
    if a == [] {
      assert a + b == b;
    } else {
      ScalarExtends(f, a, b);
      var r := DecodeScalar(f, a);
      PackedComposes(f, limit, items + [r.value], r.rest, b);
    }
  }

  // ---------- One field after its tag ----------

  lemma TagRoundTrip(f: Field, code: nat, tail: seq<Byte>)
    requires 0 < f.tag < 0x2000_0000 && code < 8
    ensures ParseTag(EncodeTag(f.tag, code) + tail) == Got(Tag(f.tag, ToWireType(code)), tail)
  {
    hide EncodeVarint, Varint32, ToWireType;
    DivMod(f.tag, code);
    Varint32RoundTrip(8 * f.tag + code, tail);
  }

  lemma DivMod(tag: nat, code: nat)
    requires code < 8
    ensures (8 * tag + code) / 8 == tag && (8 * tag + code) % 8 == code
  {
  }

  lemma {:induction false} FindSelf(fields: seq<Field>, i: nat)
    requires i < |fields| && !fields[i].ltype.Extension?
    requires forall j, k :: 0 <= j < k < |fields| ==> fields[j].tag != fields[k].tag
    ensures FindField(fields, fields[i].tag) == i
  {
    if i > 0 { FindSelf(fields[1..], i - 1); }
  }

  // A tag and a payload that descriptor i decodes completely are one turn of the loop.
  lemma OneTurn(fields: seq<Field>, i: nat, code: nat, p: Progress, payload: seq<Byte>)
    requires Sound(fields) && i < |fields| && code < 8
    requires DecodeField(fields, i, ToWireType(code), p, payload).Got?
    requires DecodeField(fields, i, ToWireType(code), p, payload).rest == []
    ensures DecodeLoop(fields, p, EncodeTag(fields[i].tag, code) + payload)
      == Got(Reached(DecodeField(fields, i, ToWireType(code), p, payload).value, false), [])
  {
    assert SoundField(fields[i]);
    FindSelf(fields, i);
    TagRoundTrip(fields[i], code, payload);
  }

  // ---------- Whole messages ----------

  lemma {:induction false} DefaultsAt(fields: seq<Field>, i: nat)
    requires i < |fields|
    ensures Defaults(fields).slots[i]
      == DefaultSlot(fields[i],
                     if fields[i].ltype.Submessage? then Record(Defaults(fields[i].sub)) else fields[i].initial)
  {
    if i < |fields| - 1 { DefaultsAt(fields[..|fields| - 1], i); }
  }

  lemma {:induction false} DefaultUnions(fields: seq<Field>, u: nat)
    ensures UnionOf(Defaults(fields), u).which == 0
  {
    if fields != [] { DefaultUnions(fields[..|fields| - 1], u); }
  }

  // Decoding has reproduced the first n fields of m and left the others at their defaults.
  ghost predicate Good(fields: seq<Field>, m: Message, n: nat, p: Progress) {
    && n <= |fields| == |m.slots| == |p.msg.slots|
    && (forall i :: 0 <= i < n ==> SameSlot(fields[i], m, m.slots[i], p.msg, p.msg.slots[i]))
    && (forall i :: n <= i < |fields| ==> p.msg.slots[i] == Defaults(fields).slots[i])
    && (forall u :: UnionOf(p.msg, u).which == 0 || FromEarlier(fields, m, n, p.msg, u))
    && (forall i :: 0 <= i < n && fields[i].htype.Required? ==> i in p.seen)
    && p.fixedField < n && FixedFull(fields, p)
  }

  ghost predicate FromEarlier(fields: seq<Field>, m: Message, n: nat, m': Message, u: nat)
    requires n <= |fields|
  {
    exists i :: 0 <= i < n && RuleOf(fields[i]).InUnion? && fields[i].union == u
      && UnionOf(m, u).which == fields[i].tag == UnionOf(m', u).which
  }

  lemma ValueRoundTrip(f: Field, prior: Value, v: Value, tail: seq<Byte>)
    requires SoundField(f) && Fits(f, v)
    requires f.ltype.Submessage? && !f.htype.Repeated? ==> prior == Record(Defaults(f.sub))
    ensures EncodeValue(f, v).Encoded?
    ensures var r := DecodeValue(f, prior, EncodeValue(f, v).bytes + tail);
      r.Got? && r.rest == tail && SameValue(f, v, r.value)
    decreases f, 0
  {
    if f.ltype.Submessage? {
      MessageRoundTrip(f.sub, v.msg);
      TextRoundTrip(EncodeMessage(f.sub, v.msg).bytes, tail);
    } else {
      ScalarRoundTrip(f, v, tail);
    }
  }

  // For every descriptor list with distinct tags and every message that fits it, decoding the
  // encoding succeeds and gives the same message up to what has no meaning.
  lemma MessageRoundTrip(fields: seq<Field>, m: Message)
    requires Sound(fields) && FitsMessage(fields, m)
    ensures EncodeMessage(fields, m).Encoded?
    ensures var r := Decode(fields, EncodeMessage(fields, m).bytes);
      r.Got? && r.rest == [] && SameMessage(fields, m, r.value)
    decreases fields, |fields| + 1
  {
    var p := PrefixRoundTrip(fields, m, |fields|);
  }

  lemma StartGood(fields: seq<Field>, m: Message)
    requires |m.slots| == |fields|
    ensures Good(fields, m, 0, Progress(Defaults(fields), {}, -1, 0))
    ensures DecodeLoop(fields, Progress(Defaults(fields), {}, -1, 0), [])
      == Got(Reached(Progress(Defaults(fields), {}, -1, 0), false), [])
  {
    forall u ensures UnionOf(Defaults(fields), u).which == 0 { DefaultUnions(fields, u); }
  }

  lemma PrefixRoundTrip(fields: seq<Field>, m: Message, n: nat) returns (p: Progress)
    requires Sound(fields) && FitsMessage(fields, m) && n <= |fields|
    ensures EncodeFields(fields, m, n).Encoded?
    ensures DecodeLoop(fields, Progress(Defaults(fields), {}, -1, 0), EncodeFields(fields, m, n).bytes)
      == Got(Reached(p, false), [])
    ensures Good(fields, m, n, p)
    decreases fields, n
  {
    hide Sound, Good, DecodeLoop, EncodeField, FitsSlot;
    var start := Progress(Defaults(fields), {}, -1, 0);
    if n == 0 {
      p := start;
      StartGood(fields, m);
    } else {
      var q := PrefixRoundTrip(fields, m, n - 1);
      p := FieldRoundTrip(fields, m, n - 1, q);
      LoopComposes(fields, start, EncodeFields(fields, m, n - 1).bytes,
                   EncodeField(fields[n - 1], m.slots[n - 1], m).bytes);
    }
  }

  // ---------- Extending Good by one field ----------

  lemma SameUnions(f: Field, m: Message, s: Slot, m1: Message, m2: Message, s': Slot)
    requires SameSlot(f, m, s, m1, s') && m2.unions == m1.unions
    ensures SameSlot(f, m, s, m2, s')
  {
    assert UnionOf(m2, f.union) == UnionOf(m1, f.union);
  }

  lemma GoodSlot(fields: seq<Field>, m: Message, n: nat, p: Progress, q: Progress)
    requires n < |fields| && Good(fields, m, n, p) && |q.msg.slots| == |fields| && q.msg.unions == p.msg.unions
    requires forall i :: 0 <= i < |fields| && i != n ==> q.msg.slots[i] == p.msg.slots[i]
    requires SameSlot(fields[n], m, m.slots[n], q.msg, q.msg.slots[n])
    requires p.seen <= q.seen && (fields[n].htype.Required? ==> n in q.seen)
    requires q.fixedField <= n && FixedFull(fields, q)
    ensures Good(fields, m, n + 1, q)
  {
    hide SameSlot, Defaults;
    forall i | 0 <= i < n ensures SameSlot(fields[i], m, m.slots[i], q.msg, q.msg.slots[i]) {
      SameUnions(fields[i], m, m.slots[i], p.msg, q.msg, p.msg.slots[i]);
    }
    forall u | UnionOf(q.msg, u).which != 0 ensures FromEarlier(fields, m, n + 1, q.msg, u) {
      assert UnionOf(p.msg, u) == UnionOf(q.msg, u);
      assert FromEarlier(fields, m, n, p.msg, u);
    }
  }

  lemma GoodUnion(fields: seq<Field>, m: Message, n: nat, p: Progress, w: Value)
    requires Sound(fields) && n < |fields| && Good(fields, m, n, p) && RuleOf(fields[n]).InUnion?
    requires UnionOf(m, fields[n].union).which == fields[n].tag
    requires SameValue(fields[n], UnionOf(m, fields[n].union).value, w)
    ensures Good(fields, m, n + 1, SetUnion(p, fields[n].union, Union(fields[n].tag, w)))
  {
    var g := fields[n].union;
    var q := SetUnion(p, g, Union(fields[n].tag, w));
    forall u ensures UnionOf(q.msg, u) == if u == g then Union(fields[n].tag, w) else UnionOf(p.msg, u) {}
    forall i | 0 <= i < n ensures SameSlot(fields[i], m, m.slots[i], q.msg, q.msg.slots[i]) {
      assert SameSlot(fields[i], m, m.slots[i], p.msg, p.msg.slots[i]);
    }
    hide SameSlot, Defaults;
    forall u | UnionOf(q.msg, u).which != 0 ensures FromEarlier(fields, m, n + 1, q.msg, u) {
      if u != g { assert FromEarlier(fields, m, n, p.msg, u); }
    }
    UnionItself(fields, m, n, q.msg, q.msg.slots[n]);
  }

  lemma UnionItself(fields: seq<Field>, m: Message, n: nat, m': Message, s: Slot)
    requires n < |fields| && n < |m.slots| && RuleOf(fields[n]).InUnion?
    requires var u, u' := UnionOf(m, fields[n].union), UnionOf(m', fields[n].union);
      u.which == fields[n].tag == u'.which && SameValue(fields[n], u.value, u'.value)
    ensures SameSlot(fields[n], m, m.slots[n], m', s)
  {
  }

  // Before its turn, a oneof member is not the one that is set.
  lemma UnionUnset(fields: seq<Field>, m: Message, n: nat, p: Progress)
    requires Sound(fields) && n < |fields| && Good(fields, m, n, p) && RuleOf(fields[n]).InUnion?
    ensures UnionOf(p.msg, fields[n].union).which != fields[n].tag
  {
    assert SoundField(fields[n]);
  }

  // ---------- The rules, one by one ----------

  // One tagged value.
  lemma TaggedRoundTrip(fields: seq<Field>, n: nat, p: Progress, prior: Value, v: Value) returns (w: Value)
    requires Sound(fields) && n < |fields| && Fits(fields[n], v)
    requires fields[n].ltype.Submessage? && !fields[n].htype.Repeated? ==> prior == Record(Defaults(fields[n].sub))
    ensures EncodeTagged(fields[n], v).Encoded? && SameValue(fields[n], v, w)
    ensures var f := fields[n];
      exists payload ::
        && EncodeTagged(f, v).bytes == EncodeTag(f.tag, WireTypeCode(f.ltype)) + payload
        && DecodeValue(f, prior, payload) == Got(w, [])
    decreases fields, 0, 0
  {
    var f := fields[n];
    assert SoundField(f);
    ValueRoundTrip(f, prior, v, []);
    var payload := EncodeValue(f, v).bytes;
    assert payload + [] == payload;
    w := DecodeValue(f, prior, payload).value;
  }

  lemma CodeSmall(t: LType)
    ensures WireTypeCode(t) < 8
    ensures !Packable(t) ==> WireTypeCode(t) == 2 || t.Extension?
    ensures Packable(t) ==> !ToWireType(WireTypeCode(t)).WtString?
  {
  }

  // Required, proto3 singular and flagged fields that are present.
  lemma SingleRoundTrip(fields: seq<Field>, m: Message, n: nat, p: Progress, v: Value) returns (q: Progress)
    requires Sound(fields) && n < |fields| && Good(fields, m, n, p) && Fits(fields[n], v)
    requires var s := m.slots[n];
      match RuleOf(fields[n])
      case Always => s == One(v)
      case Implicit => s == One(v)
      case HasFlag => s == Flagged(true, v)
      case _ => false
    ensures EncodeTagged(fields[n], v).Encoded?
    ensures DecodeLoop(fields, p, EncodeTagged(fields[n], v).bytes) == Got(Reached(q, false), [])
    ensures Good(fields, m, n + 1, q)
    decreases fields, 0, 1
  {
    var f := fields[n];
    var prior := SinglePrior(fields, m, n, p);
    var w := TaggedRoundTrip(fields, n, p, prior, v);
    q := Store(f, n, p, w);
    StoredTurn(fields, n, p, prior, v, w);
    SingleGood(fields, m, n, p, w);
  }

  lemma SinglePrior(fields: seq<Field>, m: Message, n: nat, p: Progress) returns (prior: Value)
    requires Sound(fields) && n < |fields| && Good(fields, m, n, p) && !fields[n].htype.Repeated?
    ensures n < |p.msg.slots| && prior == PriorValue(fields[n], p.msg.slots[n], p.msg)
    ensures fields[n].ltype.Submessage? ==> prior == Record(Defaults(fields[n].sub))
  {
    DefaultsAt(fields, n);
    if RuleOf(fields[n]).InUnion? { UnionUnset(fields, m, n, p); }
    prior := PriorValue(fields[n], p.msg.slots[n], p.msg);
  }

  lemma SingleGood(fields: seq<Field>, m: Message, n: nat, p: Progress, w: Value)
    requires n < |fields| && Good(fields, m, n, p) && n < |m.slots| && n < |p.msg.slots|
    requires var s := m.slots[n];
      match RuleOf(fields[n])
      case Always => s.One? && SameValue(fields[n], s.v, w)
      case Implicit => s.One? && SameValue(fields[n], s.v, w)
      case HasFlag => s.Flagged? && s.has && SameValue(fields[n], s.v, w)
      case _ => false
    ensures Good(fields, m, n + 1, Store(fields[n], n, p, w))
  {
    hide SameValue, Defaults;
    GoodSlot(fields, m, n, p, Store(fields[n], n, p, w));
  }

  // A tagged value stored by one turn of the loop.
  lemma StoredTurn(fields: seq<Field>, n: nat, p: Progress, prior: Value, v: Value, w: Value)
    requires Sound(fields) && n < |fields| && n < |p.msg.slots| && !fields[n].htype.Repeated?
    requires prior == PriorValue(fields[n], p.msg.slots[n], p.msg) && EncodeTagged(fields[n], v).Encoded?
    requires var f := fields[n];
      exists payload ::
        && EncodeTagged(f, v).bytes == EncodeTag(f.tag, WireTypeCode(f.ltype)) + payload
        && DecodeValue(f, prior, payload) == Got(w, [])
    ensures DecodeLoop(fields, p, EncodeTagged(fields[n], v).bytes) ==
        Got(Reached(Store(fields[n], n, p, w), false), [])
  {
    hide DecodeLoop, EncodeTagged, PriorValue;
    var f := fields[n];
    var payload :| EncodeTagged(f, v).bytes == EncodeTag(f.tag, WireTypeCode(f.ltype)) + payload
                   && DecodeValue(f, prior, payload) == Got(w, []);
    CodeSmall(f.ltype);
    assert f.atype.Static? by { assert SoundField(f); }
    OneTurn(fields, n, WireTypeCode(f.ltype), p, payload);
  }

  // The member of a oneof that is set.
  lemma UnionRoundTrip(fields: seq<Field>, m: Message, n: nat, p: Progress) returns (q: Progress)
    requires Sound(fields) && n < |fields| && Good(fields, m, n, p) && RuleOf(fields[n]).InUnion?
    requires UnionOf(m, fields[n].union).which == fields[n].tag && Fits(fields[n], UnionOf(m, fields[n].union).value)
    ensures var v := UnionOf(m, fields[n].union).value;
      EncodeTagged(fields[n], v).Encoded?
      && DecodeLoop(fields, p, EncodeTagged(fields[n], v).bytes) == Got(Reached(q, false), [])
    ensures Good(fields, m, n + 1, q)
    decreases fields, 0, 1
  {
    var f := fields[n];
    var v := UnionOf(m, f.union).value;
    var prior := SinglePrior(fields, m, n, p);
    var w := TaggedRoundTrip(fields, n, p, prior, v);
    q := Store(f, n, p, w);
    StoredTurn(fields, n, p, prior, v, w);
    GoodUnion(fields, m, n, p, w);
  }

  // ---------- Arrays ----------

  // Progress when the first items of array n have been decoded to ws.
  function Filled(fields: seq<Field>, n: nat, p: Progress, ws: seq<Value>): Progress
    requires n < |fields| && n < |p.msg.slots|
  {
    var s := p.msg.slots[n];
    if ws == [] then p
    else if RuleOf(fields[n]).FixedCount? then
      SetSlot(p.(fixedField := n, fixedCount := |ws|), n, Many(Overwrite(if s.Many? then s.items else [], ws)))
    else SetSlot(p, n, Many(ws))
  }

  ghost predicate ArrayAtStart(fields: seq<Field>, n: nat, p: Progress) {
    && n < |fields| && n < |p.msg.slots| && p.fixedField < n && FixedFull(fields, p) && fields[n].atype.Static?
    && (RuleOf(fields[n]).Counted? ==> p.msg.slots[n] == Many([]))
    && (RuleOf(fields[n]).FixedCount? ==> p.msg.slots[n].Many? && |p.msg.slots[n].items| == fields[n].arraySize)
  }

  lemma ArrayDefaults(fields: seq<Field>, m: Message, n: nat, p: Progress)
    requires Sound(fields) && n < |fields| && Good(fields, m, n, p) && fields[n].htype.Repeated?
    ensures ArrayAtStart(fields, n, p)
  {
    DefaultsAt(fields, n);
    assert SoundField(fields[n]);
  }

  lemma FilledShape(fields: seq<Field>, n: nat, p: Progress, ws: seq<Value>)
    requires ArrayAtStart(fields, n, p) && (RuleOf(fields[n]).FixedCount? ==> |ws| == fields[n].arraySize)
    ensures var q := Filled(fields, n, p, ws);
      && |q.msg.slots| == |p.msg.slots| && q.msg.unions == p.msg.unions && q.seen == p.seen
      && (forall i :: 0 <= i < |p.msg.slots| && i != n ==> q.msg.slots[i] == p.msg.slots[i])
      && q.fixedField <= n && FixedFull(fields, q)
  {
  }

  lemma FilledSame(fields: seq<Field>, m: Message, n: nat, p: Progress, ws: seq<Value>)
    requires ArrayAtStart(fields, n, p) && fields[n].htype.Repeated? && n < |m.slots| && m.slots[n].Many?
    requires SameItems(fields[n], m.slots[n].items, ws)
    requires RuleOf(fields[n]).FixedCount? ==> |ws| == fields[n].arraySize
    ensures var q := Filled(fields, n, p, ws);
      n < |q.msg.slots| && SameSlot(fields[n], m, m.slots[n], q.msg, q.msg.slots[n])
  {
    hide SameItems;
    if RuleOf(fields[n]).FixedCount? && ws != [] {
      var all := p.msg.slots[n].items;
      assert Overwrite(all, ws) == ws;
    }
    if RuleOf(fields[n]).FixedCount? && ws == [] {
      assert p.msg.slots[n].items == ws;
    }
  }

  lemma ArrayGood(fields: seq<Field>, m: Message, n: nat, p: Progress, ws: seq<Value>)
    requires n < |fields| && Good(fields, m, n, p) && ArrayAtStart(fields, n, p) && fields[n].htype.Repeated?
    requires n < |m.slots| && m.slots[n].Many? && SameItems(fields[n], m.slots[n].items, ws)
    requires |p.msg.slots| == |fields|
    requires RuleOf(fields[n]).FixedCount? ==> |ws| == fields[n].arraySize
    ensures Good(fields, m, n + 1, Filled(fields, n, p, ws))
  {
    hide Good, Filled, SameSlot, SameItems, ArrayAtStart, FixedFull;
    FilledShape(fields, n, p, ws);
    FilledSame(fields, m, n, p, ws);
    GoodSlot(fields, m, n, p, Filled(fields, n, p, ws));
  }

  // One more piece of array n decodes to the items after those already there.
  lemma ArrayTurn(fields: seq<Field>, n: nat, code: nat, p: Progress, ws: seq<Value>, payload: seq<Byte>,
          more: seq<Value>)
    requires Sound(fields) && ArrayAtStart(fields, n, p) && fields[n].htype.Repeated? && code < 8
    requires |ws| < |more| <= fields[n].arraySize
    requires DecodeItems(fields[n], ToWireType(code), ws, payload) == Got(more, [])
    ensures DecodeLoop(fields, Filled(fields, n, p, ws), EncodeTag(fields[n].tag, code) + payload)
      == Got(Reached(Filled(fields, n, p, more), false), [])
  {
    var q := Filled(fields, n, p, ws);
    ArrayField(fields, n, ToWireType(code), p, ws, payload, more);
    OneTurn(fields, n, code, q, payload);
  }

  lemma ArrayField(fields: seq<Field>, n: nat, wt: WireType, p: Progress, ws: seq<Value>, payload: seq<Byte>,
                   more: seq<Value>)
    requires ArrayAtStart(fields, n, p) && fields[n].htype.Repeated?
    requires |ws| < |more| <= fields[n].arraySize
    requires DecodeItems(fields[n], wt, ws, payload) == Got(more, [])
    ensures DecodeField(fields, n, wt, Filled(fields, n, p, ws), payload) == Got(Filled(fields, n, p, more), [])
  {
    hide DecodeItems;
    var q := Filled(fields, n, p, ws);
    var all := p.msg.slots[n].items;
    if RuleOf(fields[n]).FixedCount? {
      OverwriteTwice(all, ws, more);
      if ws != [] {
        assert q.msg.slots[n] == Many(Overwrite(all, ws));
      } else {
        assert all[..0] == [];
      }
    }
    assert UpTo(ItemsOf(q.msg.slots[n]), if RuleOf(fields[n]).FixedCount? then |ws| else 0) ==
      if RuleOf(fields[n]).FixedCount? then ws else [];
    assert DecodeRepeated(fields, n, wt, q, payload).Got?;
    assert DecodeRepeated(fields, n, wt, q, payload).value.msg.slots == Filled(fields, n, p, more).msg.slots;
  }

  lemma OverwriteTwice(all: seq<Value>, ws: seq<Value>, more: seq<Value>)
    requires |ws| <= |more| <= |all|
    ensures Overwrite(Overwrite(all, ws), more) == Overwrite(all, more)
    ensures Overwrite(all, ws)[..|ws|] == ws && |Overwrite(all, ws)| == |all|
  {
  }

  lemma PackedRoundTrip(fields: seq<Field>, n: nat, p: Progress, items: seq<Value>)
    requires Sound(fields) && ArrayAtStart(fields, n, p) && fields[n].htype.Repeated? && Packable(fields[n].ltype)
    requires 0 < |items| <= fields[n].arraySize && FitsAll(fields[n], items)
    ensures EncodeArray(fields[n], items).Encoded?
    ensures DecodeLoop(fields, p, EncodeArray(fields[n], items).bytes) ==
        Got(Reached(Filled(fields, n, p, items), false), [])
  {
    var f := fields[n];
    assert SoundField(f);
    ScalarsRoundTrip(f, items, |items|);
    var bs := EncodePacked(f, items, |items|).bytes;
    TextRoundTrip(bs, []);
    assert WithLength(bs) + [] == WithLength(bs) && items[..|items|] == items;
    assert DecodeItems(f, ToWireType(2), [], WithLength(bs)) == Got(items, []);
    ArrayTurn(fields, n, 2, p, [], WithLength(bs), items);
  }

  // One unpacked item.
  lemma UnpackedTurn(fields: seq<Field>, n: nat, p: Progress, ws: seq<Value>, v: Value) returns (w: Value)
    requires Sound(fields) && ArrayAtStart(fields, n, p) && fields[n].htype.Repeated? && !Packable(fields[n].ltype)
    requires |ws| < fields[n].arraySize && Fits(fields[n], v)
    ensures EncodeTagged(fields[n], v).Encoded? && SameValue(fields[n], v, w)
    ensures DecodeLoop(fields, Filled(fields, n, p, ws), EncodeTagged(fields[n], v).bytes)
      == Got(Reached(Filled(fields, n, p, ws + [w]), false), [])
    decreases fields, 0, 1
  {
    var f := fields[n];
    w := TaggedRoundTrip(fields, n, p, Num(0), v);
    hide Fits, Sound, EncodeTagged, DecodeLoop, ArrayAtStart, SameValue, Filled;
    var payload :| EncodeTagged(f, v).bytes == EncodeTag(f.tag, WireTypeCode(f.ltype)) + payload
                   && DecodeValue(f, Num(0), payload) == Got(w, []);
    CodeSmall(f.ltype);
    ArrayTurn(fields, n, WireTypeCode(f.ltype), p, ws, payload, ws + [w]);
  }

  lemma NothingFilled(fields: seq<Field>, n: nat, p: Progress)
    requires n < |fields| && n < |p.msg.slots|
    ensures DecodeLoop(fields, p, []) == Got(Reached(Filled(fields, n, p, []), false), [])
  {
  }

  lemma UnpackedRoundTrip(fields: seq<Field>, n: nat, p: Progress, items: seq<Value>, k: nat) returns (ws: seq<Value>)
    requires Sound(fields) && ArrayAtStart(fields, n, p) && fields[n].htype.Repeated? && !Packable(fields[n].ltype)
    requires k <= |items| <= fields[n].arraySize && forall i :: 0 <= i < |items| ==> Fits(fields[n], items[i])
    ensures EncodeUnpacked(fields[n], items, k).Encoded? && SameItems(fields[n], items[..k], ws)
    ensures DecodeLoop(fields, p, EncodeUnpacked(fields[n], items, k).bytes)
      == Got(Reached(Filled(fields, n, p, ws), false), [])
    decreases fields, 0, 2, k
  {
    hide Fits, Sound, EncodeTagged, SameValue, Filled, DecodeLoop;
    var f := fields[n];
    if k == 0 {
      ws := [];
      NothingFilled(fields, n, p);
    } else {
      var v := items[k - 1];
      ws := UnpackedRoundTrip(fields, n, p, items, k - 1);
      var w := UnpackedTurn(fields, n, p, ws, v);
      LoopComposes(fields, p, EncodeUnpacked(f, items, k - 1).bytes, EncodeTagged(f, v).bytes);
      ws := ws + [w];
    }
  }

  lemma ArrayRoundTrip(fields: seq<Field>, m: Message, n: nat, p: Progress, items: seq<Value>) returns (q: Progress)
    requires Sound(fields) && n < |fields| && Good(fields, m, n, p) && fields[n].htype.Repeated?
    requires m.slots[n] == Many(items) && |items| <= fields[n].arraySize && FitsAll(fields[n], items)
    requires RuleOf(fields[n]).FixedCount? ==> |items| == fields[n].arraySize
    ensures EncodeArray(fields[n], items).Encoded?
    ensures DecodeLoop(fields, p, EncodeArray(fields[n], items).bytes) == Got(Reached(q, false), [])
    ensures Good(fields, m, n + 1, q)
    decreases fields, 0, 3
  {
    ArrayDefaults(fields, m, n, p);
    var ws := items;
    if items != [] {
      if Packable(fields[n].ltype) {
        PackedRoundTrip(fields, n, p, items);
      } else {
        ws := UnpackedRoundTrip(fields, n, p, items, |items|);
        assert items[..|items|] == items;
      }
    }
    q := Filled(fields, n, p, ws);
    ArrayGood(fields, m, n, p, ws);
  }

  // ---------- Fields that are not written ----------

  lemma ZeroIsDefault(f: Field, v: Value)
    requires SoundField(f) && RuleOf(f).Implicit? && Fits(f, v) && IsZero(f, v)
    ensures SameValue(f, v, if f.ltype.Submessage? then Record(Defaults(f.sub)) else f.initial)
    decreases f, 0
  {
    if f.ltype.Submessage? {
      ZeroMessage(f.sub, v.msg);
    } else if f.ltype.FixedLengthBytes? {
      EmptyZeros(f, v.bytes);
    }
  }

  // A submessage that the proto3 check takes for empty is what its defaults would give.
  lemma ZeroMessage(fields: seq<Field>, m: Message)
    requires Sound(fields) && FitsMessage(fields, m) && AllZero(fields, m, |fields|)
    ensures SameMessage(fields, m, Defaults(fields))
    decreases fields, 1
  {
    var d := Defaults(fields);
    forall i | 0 <= i < |fields| ensures SameSlot(fields[i], m, m.slots[i], d, d.slots[i]) {
      AllZeroAt(fields, m, |fields|, i);
      DefaultsAt(fields, i);
      DefaultUnions(fields, fields[i].union);
      assert SoundField(fields[i]) && FitsSlot(fields[i], m.slots[i], m);
      if RuleOf(fields[i]).Implicit? { ZeroIsDefault(fields[i], m.slots[i].v); }
    }
  }

  lemma {:induction false} AllZeroAt(fields: seq<Field>, m: Message, n: nat, i: nat)
    requires n <= |fields| && AllZero(fields, m, n) && i < n
    ensures i < |m.slots| && SlotIsZero(fields[i], m.slots[i], m)
    decreases n
  {
    if i < n - 1 { AllZeroAt(fields, m, n - 1, i); }
  }

  lemma AbsentRoundTrip(fields: seq<Field>, m: Message, n: nat, p: Progress)
    requires Sound(fields) && FitsMessage(fields, m) && n < |fields| && Good(fields, m, n, p)
    requires match RuleOf(fields[n])
             case Implicit => m.slots[n].One? && IsZero(fields[n], m.slots[n].v)
             case HasFlag => m.slots[n].Flagged? && !m.slots[n].has
             case InUnion => UnionOf(m, fields[n].union).which != fields[n].tag
             case _ => false
    ensures Good(fields, m, n + 1, p)
    decreases fields, 2
  {
    DefaultsAt(fields, n);
    assert SoundField(fields[n]) && FitsSlot(fields[n], m.slots[n], m);
    if RuleOf(fields[n]).Implicit? { ZeroIsDefault(fields[n], m.slots[n].v); }
    if RuleOf(fields[n]).InUnion? { UnionUnset(fields, m, n, p); }
    GoodSlot(fields, m, n, p, p);
  }

  // The encoding of field n takes decoding from the first n fields to the first n + 1.
  lemma FieldRoundTrip(fields: seq<Field>, m: Message, n: nat, p: Progress) returns (q: Progress)
    requires Sound(fields) && FitsMessage(fields, m) && n < |fields| && Good(fields, m, n, p)
    ensures EncodeField(fields[n], m.slots[n], m).Encoded?
    ensures DecodeLoop(fields, p, EncodeField(fields[n], m.slots[n], m).bytes) == Got(Reached(q, false), [])
    ensures Good(fields, m, n + 1, q)
    decreases fields, 0, 4
  {
    var f, s := fields[n], m.slots[n];
    assert SoundField(f) && FitsSlot(f, s, m);
    match RuleOf(f)
    case Always => q := SingleRoundTrip(fields, m, n, p, s.v);
    case Implicit =>
      if IsZero(f, s.v) {
        q := p;
        AbsentRoundTrip(fields, m, n, p);
      } else {
        q := SingleRoundTrip(fields, m, n, p, s.v);
      }
    case HasFlag =>
      if s.has { q := SingleRoundTrip(fields, m, n, p, s.v); } else { q := p; AbsentRoundTrip(fields, m, n, p); }
    case Counted => q := ArrayRoundTrip(fields, m, n, p, s.items);
    case FixedCount => q := ArrayRoundTrip(fields, m, n, p, s.items);
    case InUnion =>
      if UnionOf(m, f.union).which == f.tag { q := UnionRoundTrip(fields, m, n, p); }
      else { q := p; AbsentRoundTrip(fields, m, n, p); }
  }
}
