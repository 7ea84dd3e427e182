// The bytes themselves: which fields are left out, and what the others look like on the wire.
module EncodingLaws {
  import opened Wire
  import opened InputStream
  import opened Messages
  import opened Decoding
  import opened RoundTrip

  // ---------- Varints and fixed widths, digit by digit ----------

  // Groups of seven bits, least significant first, the top bit set on all but the last, and no
  // more groups than needed.
  lemma {:induction false} VarintDigits(v: nat, i: nat)
    requires i < |EncodeVarint(v)|
    ensures EncodeVarint(v)[i] == v / Pow128(i) % 128 + if i == |EncodeVarint(v)| - 1 then 0 else 128
    ensures |EncodeVarint(v)| > 1 ==> v >= Pow128(|EncodeVarint(v)| - 1)
    decreases v
  {
    if v >= 128 {
      var rest := EncodeVarint(v / 128);
      VarintDigits(v / 128, if i > 0 then i - 1 else 0);
      if i > 0 {
        DivideTwice(v, Pow128(i - 1));
        assert EncodeVarint(v)[i] == rest[i - 1];
      }
      if |rest| > 1 { TimesBase(v, Pow128(|rest| - 1)); }
    }
  }

  lemma DivideTwice(v: nat, p: nat)
    requires p > 0
    ensures v / 128 / p == v / (128 * p)
  {
    var q, r := v / 128 / p, v / 128 % p;
    assert v / 128 == q * p + r && v == 128 * (v / 128) + v % 128;
    assert v == q * (128 * p) + (128 * r + v % 128) by { assert 128 * (q * p) == q * (128 * p); }
    assert 128 * r + v % 128 < 128 * p;
    QuotientIs(v, 128 * p, q, 128 * r + v % 128);
  }

  lemma QuotientIs(v: nat, d: nat, q: nat, r: nat)
    requires r < d && v == q * d + r
    ensures v / d == q
  {
    var k := v / d;
    assert v == k * d + v % d;
    Multiples(k, q, d);
    Multiples(q, k, d);
  }

  lemma Multiples(a: nat, b: nat, d: nat)
    ensures a < b ==> a * d + d <= b * d
  {
    if a < b {
      var c := b - a - 1;
      assert (a + 1 + c) * d == a * d + d + c * d;
    }
  }

  lemma TimesBase(v: nat, p: nat)
    requires v / 128 >= p
    ensures v >= 128 * p
  {
  }

  lemma {:induction false} FixedDigits(v: nat, n: nat, i: nat)
    requires i < n
    ensures Pow256(i) > 0 && LittleEndian(v, n)[i] == v / Pow256(i) % 256
  {
    if i > 0 {
      FixedDigits(v / 256, n - 1, i - 1);
      PowPositive(i - 1);
      DivideTwice256(v, Pow256(i - 1));
    }
  }

  lemma {:induction false} PowPositive(n: nat)
    ensures Pow256(n) > 0
  {
    if n > 0 { PowPositive(n - 1); }
  }

  lemma DivideTwice256(v: nat, p: nat)
    requires p > 0
    ensures v / 256 / p == v / (256 * p)
  {
    var q, r := v / 256 / p, v / 256 % p;
    assert v / 256 == q * p + r && v == 256 * (v / 256) + v % 256;
    assert v == q * (256 * p) + (256 * r + v % 256) by { assert 256 * (q * p) == q * (256 * p); }
    assert 256 * r + v % 256 < 256 * p;
    QuotientIs(v, 256 * p, q, 256 * r + v % 256);
  }

  // ---------- One value on the wire ----------

  // The wire type's number stands in the low three bits of the tag, the field's number above.
  lemma TagOnWire(number: nat, code: nat, tail: seq<Byte>)
    requires 0 < number < 0x2000_0000 && code < 8
    ensures ParseTag(EncodeVarint(8 * number + code) + tail)
      == Got(Tag(number, match code { case 0 => WtVarint case 1 => Wt64Bit case 2 => WtString case 5 => Wt32Bit
                                      case _ => WtInvalid(code) }), tail)
  {
    Varint32RoundTrip(8 * number + code, tail);
    assert (8 * number + code) / 8 == number && (8 * number + code) % 8 == code;
  }

  // Every type's tag and payload: bools and integers are varints, signed ones in two's complement
  // of 64 bits or in zigzag order; fixed widths are little-endian; texts and submessages follow
  // their length.
  lemma ValueOnWire(f: Field, v: Value)
    requires SoundField(f) && Fits(f, v)
    ensures f.ltype.Bool? ==>
              EncodeTagged(f, v) == Encoded(EncodeVarint(8 * f.tag) + [if v.n == 0 then 0 else 1])
    ensures f.ltype.Varint? ==>
              EncodeTagged(f, v) == Encoded(EncodeVarint(8 * f.tag) +
                                            EncodeVarint(if v.n < 0 then v.n + 0x1_0000_0000_0000_0000 else v.n))
    ensures f.ltype.UVarint? ==>
              EncodeTagged(f, v) == Encoded(EncodeVarint(8 * f.tag) + EncodeVarint(v.n))
    ensures f.ltype.SVarint? ==>
              EncodeTagged(f, v) == Encoded(EncodeVarint(8 * f.tag) +
                                            EncodeVarint(if v.n < 0 then -2 * v.n - 1 else 2 * v.n))
    ensures f.ltype.Fixed64? ==>
              EncodeTagged(f, v) == Encoded(EncodeVarint(8 * f.tag + 1) + LittleEndian(v.n, 8))
    ensures f.ltype.Fixed32? ==>
              EncodeTagged(f, v) == Encoded(EncodeVarint(8 * f.tag + 5) + LittleEndian(v.n, 4))
    ensures f.ltype.Bytes? || f.ltype.String? || f.ltype.FixedLengthBytes? ==>
              EncodeTagged(f, v) == Encoded(EncodeVarint(8 * f.tag + 2) + (EncodeVarint(|v.bytes|) + v.bytes))
    ensures f.ltype.Submessage? ==>
              && EncodeMessage(f.sub, v.msg).Encoded?
              && var bs := EncodeMessage(f.sub, v.msg).bytes;
                 EncodeTagged(f, v) == Encoded(EncodeVarint(8 * f.tag + 2) + (EncodeVarint(|bs|) + bs))
  {
    hide EncodeVarint, LittleEndian;
    match f.ltype
    case Bool => OneByte(if v.n != 0 then 1 else 0);
    case SVarint => ZigZagBijection(v.n, 0);
    case String => UpToNulAll(v.bytes);
    case Submessage => MessageRoundTrip(f.sub, v.msg);
    case _ =>
  }

  lemma OneByte(b: nat)
    requires b < 128
    ensures EncodeVarint(b) == [b]
  {
  }

  // With a field number below sixteen the first byte tells number and wire type.
  lemma FirstByte(f: Field, v: Value)
    requires SoundField(f) && Fits(f, v) && f.tag < 16
    ensures EncodeTagged(f, v).Encoded? && |EncodeTagged(f, v).bytes| > 1
    ensures EncodeTagged(f, v).bytes[0] == 8 * f.tag +
              match f.ltype {
                case Fixed64 => 1
                case Fixed32 => 5
                case Bytes => 2
                case String => 2
                case FixedLengthBytes => 2
                case Submessage => 2
                case _ => 0
              }
  {
    ValueOnWire(f, v);
    OneByte(8 * f.tag);
    OneByte(8 * f.tag + 1);
    OneByte(8 * f.tag + 2);
    OneByte(8 * f.tag + 5);
  }

  // A number is refused exactly when its width is not one of an integer's or too small for it.
  lemma NumberRefused(f: Field, n: int)
    requires f.ltype.Varint? || f.ltype.UVarint? || f.ltype.SVarint?
    ensures EncodeScalar(f, Num(n)) == Refused <==>
            match f.dataSize {
              case 1 => if f.ltype.UVarint? then !(0 <= n < 256) else !(-128 <= n < 128)
              case 2 => if f.ltype.UVarint? then !(0 <= n < 65536) else !(-32768 <= n < 32768)
              case 4 => if f.ltype.UVarint? then !(0 <= n < 0x1_0000_0000) else !(-0x8000_0000 <= n < 0x8000_0000)
              case 8 => if f.ltype.UVarint? then !(0 <= n < 0x1_0000_0000_0000_0000)
                        else !(-0x8000_0000_0000_0000 <= n < 0x8000_0000_0000_0000)
              case _ => true
            }
  {
    hide EncodeVarint;
  }

  // Texts are refused when they do not fit their arrays, a length prefix of four bytes included for
  // bytes; of a string only what stands before its first NUL is written.
  lemma TextWritten(f: Field, bs: seq<Byte>)
    ensures f.ltype.Bytes? ==>
              EncodeScalar(f, Text(bs)) == if |bs| + 4 > f.dataSize then Refused else Encoded(EncodeVarint(|bs|) + bs)
    ensures f.ltype.FixedLengthBytes? ==>
              EncodeScalar(f, Text(bs)) == if |bs| != f.dataSize then Refused else Encoded(EncodeVarint(|bs|) + bs)
    ensures f.ltype.String? && |bs| > f.dataSize ==> EncodeScalar(f, Text(bs)) == Refused
  {
    hide EncodeVarint;
  }

  lemma StringWritten(f: Field, bs: seq<Byte>, n: nat)
    requires f.ltype.String? && n <= |bs| <= f.dataSize
    requires (forall i :: 0 <= i < n ==> bs[i] != 0) && (n < |bs| ==> bs[n] == 0)
    ensures EncodeScalar(f, Text(bs)) == Encoded(EncodeVarint(n) + bs[..n])
  {
    hide EncodeVarint;
    NulAt(bs, n);
  }

  lemma {:induction false} NulAt(bs: seq<Byte>, n: nat)
    requires n <= |bs| && (forall i :: 0 <= i < n ==> bs[i] != 0) && (n < |bs| ==> bs[n] == 0)
    ensures UpToNul(bs) == bs[..n]
  {
    if n > 0 { NulAt(bs[1..], n - 1); }
  }

  // ---------- Arrays on the wire ----------

  // A non-empty array of numbers is one record with the items' bytes in order and no tags between;
  // other arrays are one record an item; too many items are refused, and no items leave no bytes.
  lemma ArrayOnWire(f: Field, items: seq<Value>)
    ensures items == [] ==> EncodeArray(f, items) == Encoded([])
    ensures items != [] && |items| > f.arraySize ==> EncodeArray(f, items) == Refused
    ensures 0 < |items| <= f.arraySize && Packable(f.ltype) && EncodePacked(f, items, |items|).Encoded? ==>
              var bs := EncodePacked(f, items, |items|).bytes;
              EncodeArray(f, items) == Encoded(EncodeVarint(8 * f.tag + 2) + (EncodeVarint(|bs|) + bs))
    ensures 0 < |items| <= f.arraySize && !Packable(f.ltype) ==>
              EncodeArray(f, items) == EncodeUnpacked(f, items, |items|)
    ensures forall n :: 0 <= n < |items| ==>
              && EncodePacked(f, items, n + 1) == Append(EncodePacked(f, items, n), EncodeScalar(f, items[n]))
              && EncodeUnpacked(f, items, n + 1) == Append(EncodeUnpacked(f, items, n), EncodeTagged(f, items[n]))
    ensures EncodePacked(f, items, 0) == Encoded([]) && EncodeUnpacked(f, items, 0) == Encoded([])
  {
  }

  // A message is its fields in the order of the descriptors.
  lemma MessageOnWire(fields: seq<Field>, m: Message, n: nat)
    requires n < |fields| == |m.slots|
    ensures EncodeMessage(fields, m) == EncodeFields(fields, m, |fields|) && EncodeFields(fields, m, 0) == Encoded([])
    ensures EncodeFields(fields, m, n + 1)
      == Append(EncodeFields(fields, m, n), EncodeField(fields[n], m.slots[n], m))
  {
  }

  // ---------- What is left out ----------

  // A oneof names one of its members or none, and a fixed-count array has items.
  ghost predicate Tidy(fields: seq<Field>, m: Message) {
    forall i :: 0 <= i < |fields| ==>
      && (RuleOf(fields[i]).FixedCount? ==> fields[i].arraySize > 0)
      && (RuleOf(fields[i]).InUnion? ==> Named(fields, m, fields[i].union))
  }

  ghost predicate Named(fields: seq<Field>, m: Message, u: nat) {
    var which := UnionOf(m, u).which;
    || which == 0
    || exists k :: 0 <= k < |fields| && RuleOf(fields[k]).InUnion? && fields[k].union == u && fields[k].tag == which
  }

  lemma TaggedNotEmpty(f: Field, v: Value)
    ensures EncodeTagged(f, v) != Encoded([])
  {
  }

  lemma {:induction false} UnpackedNotEmpty(f: Field, items: seq<Value>, n: nat)
    requires 0 < n <= |items|
    ensures EncodeUnpacked(f, items, n) != Encoded([])
  {
    TaggedNotEmpty(f, items[n - 1]);
    hide EncodeTagged;
    if n > 1 { UnpackedNotEmpty(f, items, n - 1); }
  }

  lemma ArrayNotEmpty(f: Field, items: seq<Value>)
    requires items != []
    ensures EncodeArray(f, items) != Encoded([])
  {
    UnpackedNotEmpty(f, items, |items|);
    hide EncodeUnpacked, EncodePacked, EncodeVarint;
  }

  lemma {:induction false} AllLeftOut(fields: seq<Field>, m: Message, n: nat)
    requires n <= |fields| && |m.slots| == |fields|
    ensures EncodeFields(fields, m, n) == Encoded([]) <==>
            forall i :: 0 <= i < n ==> EncodeField(fields[i], m.slots[i], m) == Encoded([])
  {
    if n > 0 {
      hide EncodeField;
      AllLeftOut(fields, m, n - 1);
    }
  }

  lemma {:induction false} AllZeroIs(fields: seq<Field>, m: Message, n: nat)
    requires n <= |fields| && |m.slots| == |fields|
    ensures AllZero(fields, m, n) <==> forall i :: 0 <= i < n ==> SlotIsZero(fields[i], m.slots[i], m)
  {
    if n > 0 {
      hide SlotIsZero;
      AllZeroIs(fields, m, n - 1);
    }
  }

  // For one member: taken for zero exactly when it is left out, but for a oneof, which is zero only
  // when none of its members is set.
  lemma MemberZero(f: Field, s: Slot, m: Message)
    requires SoundField(f) && (RuleOf(f).FixedCount? ==> f.arraySize > 0)
    ensures !RuleOf(f).InUnion? ==> (SlotIsZero(f, s, m) <==> EncodeField(f, s, m) == Encoded([]))
    ensures RuleOf(f).InUnion? ==> (EncodeField(f, s, m) == Encoded([]) <==> UnionOf(m, f.union).which != f.tag)
  {
    hide EncodeTagged, EncodeArray, IsZero;
    match RuleOf(f)
    case Always => if s.One? { TaggedNotEmpty(f, s.v); }
    case Implicit => if s.One? { TaggedNotEmpty(f, s.v); }
    case HasFlag => if s.Flagged? { TaggedNotEmpty(f, s.v); }
    case Counted =>
      if s.Many? && s.items != [] { ArrayNotEmpty(f, s.items); }
      ArrayOnWire(f, []);
    case FixedCount => if s.Many? && s.items != [] { ArrayNotEmpty(f, s.items); }
    case InUnion => TaggedNotEmpty(f, UnionOf(m, f.union).value);
  }

  // A submessage is taken for empty exactly when no byte of it would be written.
  lemma MessageZeroIff(fields: seq<Field>, m: Message)
    requires Sound(fields) && |m.slots| == |fields| && Tidy(fields, m)
    ensures AllZero(fields, m, |fields|) <==> EncodeMessage(fields, m) == Encoded([])
  {
    AllLeftOut(fields, m, |fields|);
    AllZeroIs(fields, m, |fields|);
    forall i | 0 <= i < |fields|
      ensures !RuleOf(fields[i]).InUnion? ==>
                (SlotIsZero(fields[i], m.slots[i], m) <==> EncodeField(fields[i], m.slots[i], m) == Encoded([]))
      ensures RuleOf(fields[i]).InUnion? ==>
                (EncodeField(fields[i], m.slots[i], m) == Encoded([]) <==>
                 UnionOf(m, fields[i].union).which != fields[i].tag)
      ensures fields[i].tag > 0
    {
      assert SoundField(fields[i]);
      MemberZero(fields[i], m.slots[i], m);
    }
    hide EncodeField, Sound;
    if forall i :: 0 <= i < |fields| ==> EncodeField(fields[i], m.slots[i], m) == Encoded([]) {
      forall i | 0 <= i < |fields| ensures SlotIsZero(fields[i], m.slots[i], m) {
        if RuleOf(fields[i]).InUnion? { assert Named(fields, m, fields[i].union); }
      }
    }
  }

  // The slot is the kind its field has, with a value of the field's type.
  predicate HoldsKind(f: Field, s: Slot) {
    match f.htype
    case Required => s.One?
    case Optional => if f.sizeOffset != 0 then s.Flagged? else s.One? && OfKind(f, s.v)
    case Repeated => s.Many? && (f.sizeOffset == 0 ==> |s.items| == f.arraySize > 0)
    case Oneof => s.Shared?
  }

  predicate OfKind(f: Field, v: Value) {
    match f.ltype
    case Bytes => v.Text?
    case String => v.Text?
    case FixedLengthBytes => v.Text?
    case Submessage => v.Record?
    case _ => v.Num?
  }

  // A field leaves no byte exactly when: an optional is absent, an array has no items, a oneof is
  // set to another member or to none, or a proto3 field holds the zero of its type.  A number's is
  // 0, bytes have none, a string begins with NUL, fixed-length bytes have length 0, and a
  // submessage leaves no byte itself.  A required field always leaves some.
  lemma LeftOutIff(f: Field, s: Slot, m: Message)
    requires SoundField(f) && HoldsKind(f, s)
    requires RuleOf(f).Implicit? && f.ltype.Submessage? ==> |s.v.msg.slots| == |f.sub| && Tidy(f.sub, s.v.msg)
    ensures EncodeField(f, s, m) == Encoded([]) <==>
            match f.htype {
              case Required => false
              case Repeated => s.items == []
              case Oneof => UnionOf(m, f.union).which != f.tag
              case Optional =>
                if f.sizeOffset != 0 then !s.has
                else match f.ltype {
                  case Bytes => s.v.bytes == []
                  case String => s.v.bytes == [] || s.v.bytes[0] == 0
                  case FixedLengthBytes => f.dataSize == 0
                  case Submessage => EncodeMessage(f.sub, s.v.msg) == Encoded([])
                  case Extension => false
                  case _ => s.v.n == 0
                }
            }
  {
    MemberZero(f, s, m);
    if RuleOf(f).Implicit? && f.ltype.Submessage? { MessageZeroIff(f.sub, s.v.msg); }
    hide EncodeField, EncodeFields, Sound;
  }

  // ---------- Defaults ----------

  // What a message of no bytes leaves in the struct: absent optionals still hold their declared
  // default, arrays are empty but for fixed counts, and no oneof is set.
  lemma EmptyInput(fields: seq<Field>, i: nat)
    requires (forall k :: 0 <= k < |fields| ==> !fields[k].htype.Required?) && i < |fields|
    ensures Decode(fields, []) == Got(Defaults(fields), []) && |Defaults(fields).slots| == |fields|
    ensures var f, s := fields[i], Defaults(fields).slots[i];
      var start := if f.ltype.Submessage? then Record(Defaults(f.sub)) else f.initial;
      match f.htype {
        case Required => s == One(start)
        case Optional => s == if f.sizeOffset == 0 then One(start) else Flagged(false, start)
        case Repeated => s.Many? && (f.sizeOffset != 0 ==> s.items == [])
                         && (f.sizeOffset == 0 ==>
                               |s.items| == f.arraySize && forall k :: 0 <= k < f.arraySize ==> s.items[k] == start)
        case Oneof => s == Shared && UnionOf(Defaults(fields), f.union).which == 0
      }
  {
    DefaultsAt(fields, i);
    if fields[i].htype.Oneof? { DefaultUnset(fields, i); }
  }

  lemma {:induction false} DefaultUnset(fields: seq<Field>, i: nat)
    requires i < |fields| && fields[i].htype.Oneof?
    ensures UnionOf(Defaults(fields), fields[i].union).which == 0
    decreases |fields|
  {
    var n := |fields| - 1;
    if i < n {
      DefaultUnset(fields[..n], i);
      assert fields[..n][i] == fields[i];
    }
  }
}
