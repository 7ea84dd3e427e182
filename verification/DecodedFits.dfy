// Whatever bytes come in, what decoding stores fits the struct: numbers their width, texts and
// arrays their room, at every depth.
module DecodedFits {
  import opened Wire
  import opened InputStream
  import opened Messages
  import opened Decoding
  import opened RequiredLaws
  import RoundTrip
  import EncodingLaws

  // ---------- The room a struct has ----------

  predicate SignedRoom(size: nat, n: int) {
    || (size == 1 && -128 <= n < 128)
    || (size == 2 && -32768 <= n < 32768)
    || (size == 4 && -0x8000_0000 <= n < 0x8000_0000)
    || (size == 8 && -0x8000_0000_0000_0000 <= n < 0x8000_0000_0000_0000)
  }

  predicate UnsignedRoom(size: nat, n: int) {
    || (size == 1 && 0 <= n < 256)
    || (size == 2 && 0 <= n < 65536)
    || (size == 4 && 0 <= n < 0x1_0000_0000)
    || (size == 8 && 0 <= n < 0x1_0000_0000_0000_0000)
  }

  // The value fits the member.  A bytes array has its four-byte length in front, a string its NUL
  // behind.
  ghost predicate Room(f: Field, v: Value)
    decreases f, 0
  {
    match f.ltype
    case Bool => v == Num(0) || v == Num(1)
    case Varint => v.Num? && SignedRoom(f.dataSize, v.n)
    case UVarint => v.Num? && UnsignedRoom(f.dataSize, v.n)
    case SVarint => v.Num? && SignedRoom(f.dataSize, v.n)
    case Fixed32 => v.Num? && 0 <= v.n < 0x1_0000_0000
    case Fixed64 => v.Num? && 0 <= v.n < 0x1_0000_0000_0000_0000
    case Bytes => v.Text? && |v.bytes| + 4 <= f.dataSize
    case String => v.Text? && |v.bytes| + 1 <= f.dataSize
    case FixedLengthBytes => v.Text? && |v.bytes| == f.dataSize
    case Submessage => v.Record? && InStruct(f.sub, v.msg)
    case Extension => false
  }

  ghost predicate AllRoom(f: Field, items: seq<Value>)
    decreases f, 1
  {
    forall k :: 0 <= k < |items| ==> Room(f, items[k])
  }

  ghost predicate InSlot(f: Field, s: Slot, m: Message)
    decreases f, 2
  {
    match f.htype
    case Required => s.One? && Room(f, s.v)
    case Optional => if f.sizeOffset == 0 then s.One? && Room(f, s.v) else s.Flagged? && Room(f, s.v)
    case Repeated =>
      && s.Many? && AllRoom(f, s.items)
      && (if f.sizeOffset == 0 then |s.items| == f.arraySize else |s.items| <= f.arraySize)
    case Oneof => UnionOf(m, f.union).which == f.tag ==> Room(f, UnionOf(m, f.union).value)
  }

  ghost predicate InStruct(fields: seq<Field>, m: Message)
    decreases fields
  {
    |m.slots| == |fields| && forall i :: 0 <= i < |fields| ==> InSlot(fields[i], m.slots[i], m)
  }

  // Descriptors with distinct tags and declared defaults that fit.
  ghost predicate WellMade(fields: seq<Field>)
    decreases fields
  {
    DifferentTags(fields) && forall i :: 0 <= i < |fields| ==> WellMadeField(fields[i])
  }

  ghost predicate WellMadeField(f: Field)
    decreases f
  {
    && f.tag > 0 && !f.ltype.Extension?
    && if f.ltype.Submessage? then WellMade(f.sub) else f.htype.Oneof? || Room(f, f.initial)
  }

  // ---------- Values ----------

  lemma {:induction false} LittleEndianBound(bs: seq<Byte>)
    ensures FromLittleEndian(bs) < Pow256(|bs|)
  {
    if bs != [] { LittleEndianBound(bs[1..]); }
  }

  lemma FixedPowers()
    ensures Pow256(4) == 0x1_0000_0000 && Pow256(8) == 0x1_0000_0000_0000_0000
  {
    assert Pow256(2) == 65536;
    assert Pow256(4) == 256 * (256 * Pow256(2));
    assert Pow256(6) == 256 * (256 * Pow256(4));
    assert Pow256(8) == 256 * (256 * Pow256(6));
  }

  lemma ScalarRoom(f: Field, bs: seq<Byte>)
    requires DecodeScalar(f, bs).Got?
    ensures Room(f, DecodeScalar(f, bs).value)
  {
    hide Varint32, Varint64, Pow256, FromLittleEndian;
    FixedPowers();
    if f.ltype.Fixed32? { LittleEndianBound(bs[..4]); }
    if f.ltype.Fixed64? { LittleEndianBound(bs[..8]); }
  }

  lemma {:induction false} PackedRoom(f: Field, limit: nat, items: seq<Value>, bs: seq<Byte>)
    requires DecodePacked(f, limit, items, bs).Got? && AllRoom(f, items)
    ensures AllRoom(f, DecodePacked(f, limit, items, bs).value)
    decreases |bs|
  {
    hide DecodeScalar, Room;
    if bs != [] {
      ScalarRoom(f, bs);
      var one := DecodeScalar(f, bs);
      PackedRoom(f, limit, items + [one.value], one.rest);
    }
  }

  // ---------- Defaults ----------

  lemma {:induction false} DefaultsRoom(fields: seq<Field>)
    requires WellMade(fields)
    ensures InStruct(fields, Defaults(fields))
    decreases fields, 1
  {
    forall i | 0 <= i < |fields| ensures InSlot(fields[i], Defaults(fields).slots[i], Defaults(fields)) {
      assert WellMadeField(fields[i]);
      RoundTrip.DefaultsAt(fields, i);
      if fields[i].htype.Oneof? { EncodingLaws.DefaultUnset(fields, i); }
      SlotDefault(fields[i], Defaults(fields));
    }
  }

  lemma SlotDefault(f: Field, m: Message)
    requires WellMadeField(f) && (f.htype.Oneof? ==> UnionOf(m, f.union).which == 0)
    ensures InSlot(f, DefaultSlot(f, if f.ltype.Submessage? then Record(Defaults(f.sub)) else f.initial), m)
    decreases f, 0
  {
    if f.ltype.Submessage? { DefaultsRoom(f.sub); }
    hide InStruct, WellMade, Defaults;
    var v := if f.ltype.Submessage? then Record(Defaults(f.sub)) else f.initial;
    assert f.htype.Oneof? || Room(f, v);
  }

  // ---------- Fields ----------

  // A value that fits, stored in its slot, leaves every slot in room.
  lemma StoreKeeps(fields: seq<Field>, i: nat, p: Progress, v: Value)
    requires WellMade(fields) && i < |fields| && InStruct(fields, p.msg)
    requires Room(fields[i], v) && !fields[i].htype.Repeated?
    ensures InStruct(fields, Store(fields[i], i, p, v).msg)
  {
    var q := Store(fields[i], i, p, v);
    forall j | 0 <= j < |fields| ensures InSlot(fields[j], q.msg.slots[j], q.msg) {
      assert InSlot(fields[j], p.msg.slots[j], p.msg);
      hide Room, WellMade;
      if fields[j].htype.Oneof? && fields[i].htype.Oneof? && fields[j].union == fields[i].union {
        UnionKeeps(fields, i, j, p, v);
      }
    }
  }

  lemma UnionKeeps(fields: seq<Field>, i: nat, j: nat, p: Progress, v: Value)
    requires WellMade(fields) && i < |fields| && j < |fields| && Room(fields[i], v)
    requires fields[i].htype.Oneof? && fields[j].htype.Oneof? && fields[j].union == fields[i].union
    ensures var m := SetUnion(p, fields[i].union, Union(fields[i].tag, v)).msg;
      UnionOf(m, fields[j].union).which == fields[j].tag ==> Room(fields[j], UnionOf(m, fields[j].union).value)
  {
    if i != j { assert fields[i].tag != fields[j].tag; }
  }

  lemma ManyKeeps(fields: seq<Field>, i: nat, p: Progress, items: seq<Value>)
    requires i < |fields| && InStruct(fields, p.msg) && AllRoom(fields[i], items) && fields[i].htype.Repeated?
    requires if fields[i].sizeOffset == 0 then |items| == fields[i].arraySize else |items| <= fields[i].arraySize
    ensures InStruct(fields, SetSlot(p, i, Many(items)).msg)
  {
    var q := SetSlot(p, i, Many(items));
    forall j | 0 <= j < |fields| ensures InSlot(fields[j], q.msg.slots[j], q.msg) {
      assert InSlot(fields[j], p.msg.slots[j], p.msg);
    }
  }

  lemma PriorRoom(fields: seq<Field>, i: nat, m: Message)
    requires WellMade(fields) && i < |fields| && InStruct(fields, m) && fields[i].ltype.Submessage?
    requires !fields[i].htype.Repeated?
    ensures InStruct(fields[i].sub, OldMessage(PriorValue(fields[i], m.slots[i], m)))
  {
    var f := fields[i];
    assert InSlot(f, m.slots[i], m) && WellMadeField(f);
    DefaultsRoom(f.sub);
    var prior := PriorValue(f, m.slots[i], m);
    if f.htype.Oneof? && UnionOf(m, f.union).which != f.tag {
      assert prior == Record(Defaults(f.sub));
    } else {
      assert Room(f, prior);
    }
  }

  // ---------- Decoding ----------

  lemma {:induction false} ValueRoom(f: Field, prior: Value, bs: seq<Byte>)
    requires WellMadeField(f) && DecodeValue(f, prior, bs).Got?
    requires f.ltype.Submessage? && !f.htype.Repeated? ==> InStruct(f.sub, OldMessage(prior))
    ensures Room(f, DecodeValue(f, prior, bs).value)
    decreases |bs|, 1
  {
    if f.ltype.Submessage? {
      var m := if f.htype.Repeated? then Defaults(f.sub) else OldMessage(prior);
      if f.htype.Repeated? { DefaultsRoom(f.sub); }
      hide DecodeNoinit, InStruct, WellMade, Defaults, Varint32;
      MessageRoom(f.sub, m, Delimited(bs).value);
    } else {
      ScalarRoom(f, bs);
    }
  }

  lemma {:induction false} ItemsRoom(f: Field, wt: WireType, items: seq<Value>, bs: seq<Byte>)
    requires WellMadeField(f) && f.htype.Repeated? && AllRoom(f, items) && |items| <= f.arraySize
    requires DecodeItems(f, wt, items, bs).Got?
    ensures AllRoom(f, DecodeItems(f, wt, items, bs).value) && |DecodeItems(f, wt, items, bs).value| <= f.arraySize
    decreases |bs|, 2
  {
    if wt.WtString? && Packable(f.ltype) {
      PackedRoom(f, f.arraySize, items, Delimited(bs).value);
      PackedAppends(f, f.arraySize, items, Delimited(bs).value);
    } else {
      ValueRoom(f, Num(0), bs);
    }
    hide Room, DecodeValue, DecodePacked;
  }

  lemma {:induction false} FieldRoom(fields: seq<Field>, i: nat, wt: WireType, p: Progress, bs: seq<Byte>)
    requires WellMade(fields) && i < |fields| && InStruct(fields, p.msg) && DecodeField(fields, i, wt, p, bs).Got?
    ensures InStruct(fields, DecodeField(fields, i, wt, p, bs).value.msg)
    decreases |bs|, 4
  {
    var f, s := fields[i], p.msg.slots[i];
    assert InSlot(f, s, p.msg) && WellMadeField(f);
    if f.htype.Repeated? {
      RepeatedRoom(fields, i, wt, p, bs);
    } else {
      var prior := PriorValue(f, s, p.msg);
      if f.ltype.Submessage? { PriorRoom(fields, i, p.msg); }
      hide InStruct, WellMade, Room, DecodeNoinit;
      ValueRoom(f, prior, bs);
      StoreKeeps(fields, i, p, DecodeValue(f, prior, bs).value);
    }
  }

  lemma {:induction false} RepeatedRoom(fields: seq<Field>, i: nat, wt: WireType, p: Progress, bs: seq<Byte>)
    requires WellMade(fields) && i < |fields| && InStruct(fields, p.msg) && fields[i].htype.Repeated?
    requires DecodeRepeated(fields, i, wt, p, bs).Got?
    ensures InStruct(fields, DecodeRepeated(fields, i, wt, p, bs).value.msg)
    decreases |bs|, 3
  {
    var f := fields[i];
    assert InSlot(f, p.msg.slots[i], p.msg) && WellMadeField(f);
    var all := p.msg.slots[i].items;
    hide InStruct, WellMade, Room, DecodeItems;
    if f.sizeOffset == 0 {
      var q := FixedStart(fields, i, p).value;
      var items := UpTo(all, q.fixedCount);
      ItemsRoom(f, wt, items, bs);
      var filled := DecodeItems(f, wt, items, bs).value;
      assert AllRoom(f, Overwrite(all, filled));
      ManyKeeps(fields, i, q.(fixedCount := |filled|), Overwrite(all, filled));
    } else {
      ItemsRoom(f, wt, all, bs);
      ManyKeeps(fields, i, p, DecodeItems(f, wt, all, bs).value);
    }
  }

  lemma {:induction false} LoopRoom(fields: seq<Field>, p: Progress, bs: seq<Byte>)
    requires WellMade(fields) && InStruct(fields, p.msg) && DecodeLoop(fields, p, bs).Got?
    ensures InStruct(fields, DecodeLoop(fields, p, bs).value.p.msg)
    decreases |bs|, 5
  {
    if bs != [] && ParseTag(bs).value.Tag? {
      var tag, rest := ParseTag(bs).value, ParseTag(bs).rest;
      var one := DecodeOne(fields, tag.number, tag.wireType, p, rest);
      var i := FindField(fields, tag.number);
      hide InStruct, WellMade, ParseTag, FindField, Varint32, Skip;
      if i < |fields| { FieldRoom(fields, i, tag.wireType, p, rest); }
      hide DecodeField;
      LoopRoom(fields, one.value, one.rest);
    }
  }

  // Decoding any bytes into a struct leaves every member within its room, or is refused.
  lemma MessageRoom(fields: seq<Field>, m: Message, bs: seq<Byte>)
    requires WellMade(fields) && InStruct(fields, m) && DecodeNoinit(fields, m, bs).Got?
    ensures InStruct(fields, DecodeNoinit(fields, m, bs).value)
    decreases |bs|, 6
  {
    hide InStruct, WellMade, DecodeLoop;
    LoopRoom(fields, Progress(m, {}, -1, 0), bs);
  }

  lemma DecodedRoom(fields: seq<Field>, bs: seq<Byte>)
    requires WellMade(fields) && Decode(fields, bs).Got?
    ensures InStruct(fields, Decode(fields, bs).value)
  {
    DefaultsRoom(fields);
    MessageRoom(fields, Defaults(fields), bs);
  }

  // ---------- What is read ----------

  // A bool is any number but 0; unsigned numbers are the varint, zigzag ones count back and forth
  // from it, plain signed ones take its low 64 or 32 bits as two's complement.
  lemma NumberRead(f: Field, bs: seq<Byte>)
    requires DecodeScalar(f, bs).Got?
    ensures var r := DecodeScalar(f, bs);
      && (f.ltype.Bool? ==>
            Varint32(bs).Got? && r == Got(Num(if Varint32(bs).value == 0 then 0 else 1), Varint32(bs).rest))
      && (f.ltype.UVarint? ==> Varint64(bs) == Got(r.value.n, r.rest))
      && (f.ltype.SVarint? ==>
            Varint64(bs).Got? && Varint64(bs).rest == r.rest &&
            Varint64(bs).value == if r.value.n < 0 then -2 * r.value.n - 1 else 2 * r.value.n)
      && (f.ltype.Varint? && f.dataSize == 8 ==>
            Varint64(bs) == Got(if r.value.n < 0 then r.value.n + 0x1_0000_0000_0000_0000 else r.value.n, r.rest))
      && (f.ltype.Varint? && f.dataSize < 8 ==>
            Varint64(bs).Got? && Varint64(bs).rest == r.rest &&
            Varint64(bs).value % 0x1_0000_0000 == if r.value.n < 0 then r.value.n + 0x1_0000_0000 else r.value.n)
  {
    hide Varint32, ZigZag, UnZigZag;
    if f.ltype.SVarint? {
      var u := Varint64(bs).value;
      hide Varint64;
      ZigZagBijection(0, u);
      ZigZagBijection(UnZigZag(u), 0);
    }
  }

  // ---------- What is refused ----------

  // A number that would not fit is refused, and every other is taken.
  lemma NumberTakenIff(f: Field, bs: seq<Byte>)
    requires Varint64(bs).Got?
    ensures f.ltype.UVarint? ==> (DecodeScalar(f, bs).Got? <==> UnsignedRoom(f.dataSize, Varint64(bs).value))
    ensures f.ltype.SVarint? ==> (DecodeScalar(f, bs).Got? <==> SignedRoom(f.dataSize, UnZigZag(Varint64(bs).value)))
    ensures f.ltype.Varint? && f.dataSize == 8 ==> DecodeScalar(f, bs).Got?
    ensures f.ltype.Varint? && f.dataSize == 4 ==> DecodeScalar(f, bs).Got?
    ensures f.ltype.Varint? && f.dataSize < 4 ==>
              var low := Varint64(bs).value % 0x1_0000_0000;
              (DecodeScalar(f, bs).Got? <==>
               SignedRoom(f.dataSize, if low < 0x8000_0000 then low else low - 0x1_0000_0000))
  {
    hide Varint64, UnZigZag;
  }

  // A text is taken exactly when it is there and fits: bytes with their length, strings with their
  // NUL, fixed-length bytes with their very length or none.
  lemma TextTakenIff(f: Field, bs: seq<Byte>)
    requires Varint32(bs).Got?
    ensures var n, rest := Varint32(bs).value, Varint32(bs).rest;
      && (f.ltype.Bytes? ==> (DecodeScalar(f, bs).Got? <==> n + 4 <= f.dataSize && n <= |rest|))
      && (f.ltype.String? ==> (DecodeScalar(f, bs).Got? <==> n + 1 <= f.dataSize && n <= |rest|))
      && (f.ltype.FixedLengthBytes? ==> (DecodeScalar(f, bs).Got? <==> n == 0 || (n == f.dataSize && n <= |rest|)))
  {
    hide Varint32;
  }
}
