// Fields the reader does not know are skipped exactly: decoding with part of a descriptor list
// gives that part of the message.
module UnknownFields {
  import opened Wire
  import opened InputStream
  import opened Messages
  import opened Decoding
  import opened DecodingLaws
  import opened RoundTrip

  lemma NumberSkipped(f: Field, v: Value, tail: seq<Byte>)
    requires SoundField(f) && Fits(f, v) && Packable(f.ltype)
    ensures EncodeScalar(f, v).Encoded?
    ensures Skip(ToWireType(WireTypeCode(f.ltype)), EncodeScalar(f, v).bytes + tail) == Got((), tail)
  {
    hide Raw, EncodeVarint, LittleEndian;
    match f.ltype
    case Bool => EncodedInFront(if v.n != 0 then 1 else 0, tail);
    case Varint => EncodedInFront(ToUnsigned(v.n), tail);
    case UVarint => EncodedInFront(v.n, tail);
    case SVarint => EncodedInFront(ZigZag(v.n), tail);
    case Fixed32 => assert (LittleEndian(v.n, 4) + tail)[4..] == tail;
    case Fixed64 => assert (LittleEndian(v.n, 8) + tail)[8..] == tail;
  }

  lemma TextSkipped(f: Field, v: Value, tail: seq<Byte>)
    requires SoundField(f) && Fits(f, v) && (f.ltype.Bytes? || f.ltype.String? || f.ltype.FixedLengthBytes?)
    ensures EncodeScalar(f, v).Encoded?
    ensures Skip(ToWireType(WireTypeCode(f.ltype)), EncodeScalar(f, v).bytes + tail) == Got((), tail)
  {
    if f.ltype.String? { UpToNulAll(v.bytes); }
    TextRoundTrip(v.bytes, tail);
  }

  // pb_skip_field consumes exactly what the encoder writes after the tag.
  lemma PayloadSkipped(f: Field, v: Value, tail: seq<Byte>)
    requires SoundField(f) && Fits(f, v)
    ensures EncodeValue(f, v).Encoded?
    ensures Skip(ToWireType(WireTypeCode(f.ltype)), EncodeValue(f, v).bytes + tail) == Got((), tail)
  {
    if f.ltype.Submessage? {
      MessageRoundTrip(f.sub, v.msg);
      TextRoundTrip(EncodeMessage(f.sub, v.msg).bytes, tail);
    } else if Packable(f.ltype) {
      NumberSkipped(f, v, tail);
    } else {
      TextSkipped(f, v, tail);
    }
  }

  ghost predicate Unknown(g: seq<Field>, tag: nat) {
    FindField(g, tag) == |g|
  }

  lemma SkipTurn(g: seq<Field>, f: Field, code: nat, p: Progress, payload: seq<Byte>)
    requires SoundField(f) && Unknown(g, f.tag) && code < 8
    requires Skip(ToWireType(code), payload) == Got((), [])
    ensures DecodeLoop(g, p, EncodeTag(f.tag, code) + payload) == Got(Reached(p, false), [])
  {
    hide Skip, Unknown, ToWireType;
    UnknownMeans(g, f.tag);
    TagRoundTrip(f, code, payload);
  }

  lemma UnknownMeans(g: seq<Field>, tag: nat)
    requires Unknown(g, tag)
    ensures FindField(g, tag) == |g|
  {
  }

  lemma TaggedSkipped(g: seq<Field>, f: Field, v: Value, p: Progress)
    requires SoundField(f) && Fits(f, v) && Unknown(g, f.tag)
    ensures EncodeTagged(f, v).Encoded?
    ensures DecodeLoop(g, p, EncodeTagged(f, v).bytes) == Got(Reached(p, false), [])
  {
    PayloadSkipped(f, v, []);
    var payload := EncodeValue(f, v).bytes;
    assert payload + [] == payload;
    CodeSmall(f.ltype);
    hide DecodeLoop, Skip, Fits;
    SkipTurn(g, f, WireTypeCode(f.ltype), p, payload);
  }

  lemma NothingRead(g: seq<Field>, p: Progress)
    ensures DecodeLoop(g, p, []) == Got(Reached(p, false), [])
  {
  }

  lemma {:induction false} UnpackedSkipped(g: seq<Field>, f: Field, items: seq<Value>, n: nat, p: Progress)
    requires SoundField(f) && Unknown(g, f.tag) && n <= |items|
    requires forall k :: 0 <= k < |items| ==> Fits(f, items[k])
    ensures EncodeUnpacked(f, items, n).Encoded?
    ensures DecodeLoop(g, p, EncodeUnpacked(f, items, n).bytes) == Got(Reached(p, false), [])
  {
    hide EncodeTagged, Fits, DecodeLoop, SoundField, Unknown;
    if n == 0 {
      NothingRead(g, p);
    } else {
      UnpackedSkipped(g, f, items, n - 1, p);
      TaggedSkipped(g, f, items[n - 1], p);
      LoopComposes(g, p, EncodeUnpacked(f, items, n - 1).bytes, EncodeTagged(f, items[n - 1]).bytes);
    }
  }

  lemma PackedSkipped(g: seq<Field>, f: Field, items: seq<Value>, p: Progress)
    requires SoundField(f) && Unknown(g, f.tag) && Packable(f.ltype) && 0 < |items| <= f.arraySize && FitsAll(f, items)
    ensures EncodeArray(f, items).Encoded?
    ensures DecodeLoop(g, p, EncodeArray(f, items).bytes) == Got(Reached(p, false), [])
  {
    ScalarsRoundTrip(f, items, |items|);
    var bs := EncodePacked(f, items, |items|).bytes;
    TextRoundTrip(bs, []);
    assert WithLength(bs) + [] == WithLength(bs);
    SkipTurn(g, f, 2, p, WithLength(bs));
  }

  lemma ArraySkipped(g: seq<Field>, f: Field, items: seq<Value>, p: Progress)
    requires SoundField(f) && Unknown(g, f.tag) && |items| <= f.arraySize && FitsAll(f, items)
    ensures EncodeArray(f, items).Encoded?
    ensures DecodeLoop(g, p, EncodeArray(f, items).bytes) == Got(Reached(p, false), [])
  {
    if items != [] {
      if Packable(f.ltype) { PackedSkipped(g, f, items, p); } else { UnpackedSkipped(g, f, items, |items|, p); }
    }
  }

  // The encoding of a field leaves no trace in a reader that has no such field.
  lemma FieldSkipped(g: seq<Field>, f: Field, s: Slot, m: Message, p: Progress)
    requires SoundField(f) && FitsSlot(f, s, m) && Unknown(g, f.tag)
    ensures EncodeField(f, s, m).Encoded?
    ensures DecodeLoop(g, p, EncodeField(f, s, m).bytes) == Got(Reached(p, false), [])
  {
    match RuleOf(f)
    case Always => TaggedSkipped(g, f, s.v, p);
    case Implicit => TaggedSkipped(g, f, s.v, p);
    case HasFlag => if s.has { TaggedSkipped(g, f, s.v, p); }
    case Counted => ArraySkipped(g, f, s.items, p);
    case FixedCount => ArraySkipped(g, f, s.items, p);
    case InUnion => if UnionOf(m, f.union).which == f.tag { TaggedSkipped(g, f, UnionOf(m, f.union).value, p); }
  }

  // ---------- Decoding with part of the descriptors ----------

  // The descriptors at the positions kept, among the first n.
  function Part(fields: seq<Field>, keep: set<nat>, n: nat): (g: seq<Field>)
    requires n <= |fields|
    ensures |g| <= n
  {
    if n == 0 then [] else Part(fields, keep, n - 1) + if n - 1 in keep then [fields[n - 1]] else []
  }

  function PartSlots(m: Message, keep: set<nat>, n: nat): (s: seq<Slot>)
    requires n <= |m.slots|
  {
    if n == 0 then [] else PartSlots(m, keep, n - 1) + if n - 1 in keep then [m.slots[n - 1]] else []
  }

  function Projection(m: Message, keep: set<nat>): Message {
    Message(PartSlots(m, keep, |m.slots|), m.unions)
  }

  lemma {:induction false} PartAt(fields: seq<Field>, m: Message, keep: set<nat>, n: nat, k: nat) returns (i: nat)
    requires n <= |fields| == |m.slots| && k < |Part(fields, keep, n)|
    ensures |PartSlots(m, keep, n)| == |Part(fields, keep, n)|
    ensures i < n && i in keep && Part(fields, keep, n)[k] == fields[i] && PartSlots(m, keep, n)[k] == m.slots[i]
    ensures k == |Part(fields, keep, i)|
  {
    PartLengths(fields, m, keep, n);
    PartLengths(fields, m, keep, n - 1);
    if k < |Part(fields, keep, n - 1)| { i := PartAt(fields, m, keep, n - 1, k); } else { i := n - 1; }
  }

  lemma {:induction false} PartLengths(fields: seq<Field>, m: Message, keep: set<nat>, n: nat)
    requires n <= |fields| == |m.slots|
    ensures |PartSlots(m, keep, n)| == |Part(fields, keep, n)|
  {
    if n > 0 { PartLengths(fields, m, keep, n - 1); }
  }

  lemma {:induction false} PartGrows(fields: seq<Field>, keep: set<nat>, a: nat, b: nat)
    requires a <= b <= |fields|
    ensures Part(fields, keep, a) <= Part(fields, keep, b)
  {
    if a < b { PartGrows(fields, keep, a, b - 1); }
  }

  // Where the kept descriptor n stands in the part.
  lemma PartHolds(fields: seq<Field>, m: Message, keep: set<nat>, n: nat)
    requires n < |fields| == |m.slots| && n in keep
    ensures var k := |Part(fields, keep, n)|; var g := Part(fields, keep, |fields|);
      k < |g| == |PartSlots(m, keep, |fields|)| && g[k] == fields[n] && PartSlots(m, keep, |fields|)[k] == m.slots[n]
      && |Part(fields, keep, n + 1)| == k + 1
  {
    PartGrows(fields, keep, n + 1, |fields|);
    var k := |Part(fields, keep, n)|;
    var i := PartAt(fields, m, keep, |fields|, k);
    if i < n { PartGrows(fields, keep, i + 1, n); }
    if n < i { PartGrows(fields, keep, n + 1, i); }
  }

  lemma PartSound(fields: seq<Field>, m: Message, keep: set<nat>)
    requires Sound(fields) && FitsMessage(fields, m)
    ensures Sound(Part(fields, keep, |fields|)) && FitsMessage(Part(fields, keep, |fields|), Projection(m, keep))
  {
    var g, pm := Part(fields, keep, |fields|), Projection(m, keep);
    PartLengths(fields, m, keep, |fields|);
    forall k | 0 <= k < |g| ensures SoundField(g[k]) && FitsSlot(g[k], pm.slots[k], pm) {
      var i := PartAt(fields, m, keep, |fields|, k);
      SlotElsewhere(fields[i], m.slots[i], m, pm);
    }
    forall j, k | 0 <= j < k < |g| ensures g[j].tag != g[k].tag {
      var a := PartAt(fields, m, keep, |fields|, j);
      var b := PartAt(fields, m, keep, |fields|, k);
      if b <= a { PartGrows(fields, keep, b, a); }
    }
  }

  lemma SlotElsewhere(f: Field, s: Slot, m: Message, m': Message)
    requires FitsSlot(f, s, m) && m'.unions == m.unions
    ensures FitsSlot(f, s, m') && EncodeField(f, s, m') == EncodeField(f, s, m)
  {
    assert UnionOf(m', f.union) == UnionOf(m, f.union);
  }

  lemma NotInPart(fields: seq<Field>, m: Message, keep: set<nat>, n: nat)
    requires Sound(fields) && |m.slots| == |fields| && n < |fields| && n !in keep
    ensures Unknown(Part(fields, keep, |fields|), fields[n].tag)
  {
    var g := Part(fields, keep, |fields|);
    forall k | 0 <= k < |g| ensures g[k].tag != fields[n].tag {
      var i := PartAt(fields, m, keep, |fields|, k);
    }
  }

  // One more field of the full encoding: read when kept, skipped when not.
  lemma PartTurn(fields: seq<Field>, m: Message, keep: set<nat>, n: nat, q: Progress) returns (p: Progress)
    requires Sound(fields) && FitsMessage(fields, m) && n < |fields|
    requires Good(Part(fields, keep, |fields|), Projection(m, keep), |Part(fields, keep, n)|, q)
    ensures EncodeField(fields[n], m.slots[n], m).Encoded?
    ensures DecodeLoop(Part(fields, keep, |fields|), q, EncodeField(fields[n], m.slots[n], m).bytes)
      == Got(Reached(p, false), [])
    ensures Good(Part(fields, keep, |fields|), Projection(m, keep), |Part(fields, keep, n + 1)|, p)
  {
    hide Sound, Good, DecodeLoop, EncodeField, FitsSlot, Fits;
    var g, pm := Part(fields, keep, |fields|), Projection(m, keep);
    PartSound(fields, m, keep);
    PartLengths(fields, m, keep, |fields|);
    SoundAt(fields, n);
    if n in keep {
      PartHolds(fields, m, keep, n);
      SlotElsewhere(fields[n], m.slots[n], m, pm);
      p := FieldRoundTrip(g, pm, |Part(fields, keep, n)|, q);
    } else {
      NotInPart(fields, m, keep, n);
      FieldSkipped(g, fields[n], m.slots[n], m, q);
      p := q;
    }
  }

  lemma PartPrefix(fields: seq<Field>, m: Message, keep: set<nat>, n: nat) returns (p: Progress)
    requires Sound(fields) && FitsMessage(fields, m) && n <= |fields|
    ensures EncodeFields(fields, m, n).Encoded?
    ensures var g := Part(fields, keep, |fields|);
      DecodeLoop(g, Progress(Defaults(g), {}, -1, 0), EncodeFields(fields, m, n).bytes) == Got(Reached(p, false), [])
    ensures Good(Part(fields, keep, |fields|), Projection(m, keep), |Part(fields, keep, n)|, p)
    decreases n
  {
    hide Sound, Good, DecodeLoop, EncodeField, FitsSlot, Fits;
    var g, pm := Part(fields, keep, |fields|), Projection(m, keep);
    var start := Progress(Defaults(g), {}, -1, 0);
    PartSound(fields, m, keep);
    PartLengths(fields, m, keep, |fields|);
    if n == 0 {
      p := start;
      StartGood(g, pm);
    } else {
      var q := PartPrefix(fields, m, keep, n - 1);
      var f, s := fields[n - 1], m.slots[n - 1];
      p := PartTurn(fields, m, keep, n - 1, q);
      hide Part, Projection;
      LoopComposes(g, start, EncodeFields(fields, m, n - 1).bytes, EncodeField(f, s, m).bytes);
    }
  }

  lemma SoundAt(fields: seq<Field>, i: nat)
    requires Sound(fields) && i < |fields|
    ensures SoundField(fields[i])
  {
  }

  // Any subset of the descriptors decodes the full encoding to the same part of the message.
  lemma PartDecodesProjection(fields: seq<Field>, m: Message, keep: set<nat>)
    requires Sound(fields) && FitsMessage(fields, m)
    ensures EncodeMessage(fields, m).Encoded?
    ensures var g := Part(fields, keep, |fields|); var r := Decode(g, EncodeMessage(fields, m).bytes);
      r.Got? && r.rest == [] && SameMessage(g, Projection(m, keep), r.value)
  {
    var p := PartPrefix(fields, m, keep, |fields|);
  }

  // ---------- Number zero in an empty message type ----------

  // The record is passed over as pb_skip_field does.
  function PassedOver(wt: WireType, p: Progress, bs: seq<Byte>): Parse<Progress> {
    match Skip(wt, bs) case Fail => Fail case Got(_, rest) => Got(p, rest)
  }

  // The record is read as a bool, whatever its wire type.
  function ReadAsBool(p: Progress, bs: seq<Byte>): Parse<Progress> {
    match Varint32(bs) case Fail => Fail case Got(_, rest) => Got(p, rest)
  }

  // A record whose number no descriptor has is passed over by its wire type, for every wire type
  // and payload, if and only if the message type has a field or the number is not zero.
  lemma UnknownSkippedIff(fields: seq<Field>, number: nat)
    requires Unknown(fields, number)
    ensures (forall wt, p, bs :: DecodeOne(fields, number, wt, p, bs) == PassedOver(wt, p, bs)) <==>
            fields != [] || number != 0
  {
    if fields == [] && number == 0 {
      var p := Progress(Message([], map[]), {}, -1, 0);
      FiveIsRead();
      assert DecodeOne(fields, number, Wt64Bit, p, [5]).Got? && PassedOver(Wt64Bit, p, [5]).Fail?;
    }
  }

  lemma FiveIsRead()
    ensures Varint32([5]) == Got(5, [])
  {
    LengthUnique([5], 1);
    assert Raw([5], 1) == Raw([5], 0) + 5 % 128 * Pow128(0);
  }

  // The same inside the decoding of a whole message: what happens to the rest is decided by where
  // the record is taken to end.
  lemma UnknownRecord(fields: seq<Field>, p: Progress, bs: seq<Byte>)
    requires bs != [] && ParseTag(bs).Got? && ParseTag(bs).value.Tag? && Unknown(fields, ParseTag(bs).value.number)
    ensures var tag, payload := ParseTag(bs).value, ParseTag(bs).rest;
      var one :=
        if fields == [] && tag.number == 0 then ReadAsBool(p, payload) else PassedOver(tag.wireType, p, payload);
      DecodeLoop(fields, p, bs) == if one.Got? then DecodeLoop(fields, p, one.rest) else Fail
  {
  }

  // Tag byte 1 is number zero with the wire type of eight bytes.  One byte is too few to skip, so
  // every message type with fields refuses these bytes; an empty one accepts them.
  lemma NumberZeroAccepted(fields: seq<Field>)
    requires fields != [] && Unknown(fields, 0)
    ensures ParseTag([1, 5]) == Got(Tag(0, Wt64Bit), [5]) && Skip(Wt64Bit, [5]) == Fail
    ensures Decode([], [1, 5]) == Got(Defaults([]), [])
    ensures Decode(fields, [1, 5]) == Fail
  {
    TagOne();
    FiveIsRead();
    var start := Progress(Defaults([]), {}, -1, 0);
    hide Varint32, ParseTag;
    UnknownRecord([], start, [1, 5]);
    NothingRead([], start);
    UnknownRecord(fields, Progress(Defaults(fields), {}, -1, 0), [1, 5]);
  }

  lemma TagOne()
    ensures ParseTag([1, 5]) == Got(Tag(0, Wt64Bit), [5])
  {
    LengthUnique([1, 5], 1);
    assert Raw([1, 5], 1) == Raw([1, 5], 0) + 1 % 128 * Pow128(0);
  }
}
