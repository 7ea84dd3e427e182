// Descriptors and messages, and what encoding and decoding mean for them.  The streams, loops
// and iterators of the code are proved against these functions.
module Messages {
  import opened Wire
  import opened InputStream

  // ---------- Descriptors: pb_field_t ----------

  datatype LType = Bool | Varint | UVarint | SVarint | Fixed32 | Fixed64
                 | Bytes | String | Submessage | Extension | FixedLengthBytes

  datatype HType = Required | Optional | Repeated | Oneof

  datatype AType = Static | Pointer | Callback

  // union names the which_ member that the fields of one oneof share.
  datatype Field = Field(tag: nat, ltype: LType, htype: HType, atype: AType, dataOffset: nat, sizeOffset: int,
                         dataSize: nat, arraySize: nat, sub: seq<Field>, initial: Value, union: nat)

  // offsetof(pb_bytes_array_t, bytes) in a PB_FIELD_32BIT build.
  const BYTES_OFFSET := 4

  predicate Packable(t: LType) {
    t.Bool? || t.Varint? || t.UVarint? || t.SVarint? || t.Fixed32? || t.Fixed64?
  }

  // How presence is recorded: htype together with whether there is a size member.
  datatype Rule = Always | HasFlag | Implicit | Counted | FixedCount | InUnion

  function RuleOf(f: Field): Rule {
    match f.htype
    case Required => Always
    case Optional => if f.sizeOffset == 0 then Implicit else HasFlag
    case Repeated => if f.sizeOffset == 0 then FixedCount else Counted
    case Oneof => InUnion
  }

  // ---------- Messages: the struct, keyed by descriptor position ----------

  datatype Value = Num(n: int) | Text(bytes: seq<Byte>) | Record(msg: Message)

  datatype Slot = One(v: Value) | Flagged(has: bool, v: Value) | Many(items: seq<Value>) | Shared

  // which is the tag of the member that is set, or zero.
  datatype Union = Union(which: nat, value: Value)

  datatype Message = Message(slots: seq<Slot>, unions: map<nat, Union>)

  function UnionOf(m: Message, u: nat): Union {
    if u in m.unions then m.unions[u] else Union(0, Num(0))
  }

  // ---------- pb_message_set_to_defaults ----------

  function Defaults(fields: seq<Field>): (m: Message)
    ensures |m.slots| == |fields|
    decreases fields
  {
    if fields == [] then Message([], map[])
    else
      var f := fields[|fields| - 1];
      var before := Defaults(fields[..|fields| - 1]);
      var v := if f.ltype.Submessage? then Record(Defaults(f.sub)) else f.initial;
      Message(before.slots + [DefaultSlot(f, v)],
              if f.htype.Oneof? then before.unions[f.union := Union(0, Num(0))] else before.unions)
  }

  function DefaultSlot(f: Field, v: Value): Slot {
    match RuleOf(f)
    case Always => One(v)
    case Implicit => One(v)
    case HasFlag => Flagged(false, v)
    case Counted => Many([])
    case FixedCount => Many(seq(f.arraySize, i => v))
    case InUnion => Shared
  }

  // ---------- Encoding ----------

  datatype Encoded = Refused | Encoded(bytes: seq<Byte>)

  function Append(a: Encoded, b: Encoded): Encoded {
    if a.Encoded? && b.Encoded? then Encoded(a.bytes + b.bytes) else Refused
  }

  function WireTypeCode(t: LType): nat {
    match t
    case Fixed32 => 5
    case Fixed64 => 1
    case Bytes => 2
    case String => 2
    case Submessage => 2
    case FixedLengthBytes => 2
    case _ => 0
  }

  function EncodeTag(number: nat, code: nat): seq<Byte> {
    EncodeVarint(8 * number + code)
  }

  function WithLength(bs: seq<Byte>): seq<Byte> {
    EncodeVarint(|bs|) + bs
  }

  predicate GoodSize(size: nat) {
    size == 1 || size == 2 || size == 4 || size == 8
  }

  function Bound(size: nat): int
    requires GoodSize(size)
  {
    if size == 1 then 0x100 else if size == 2 then 0x1_0000 else if size == 4 then TWO_32 else TWO_64
  }

  predicate SignedFits(size: nat, n: int) {
    GoodSize(size) && -Bound(size) / 2 <= n < Bound(size) / 2
  }

  predicate UnsignedFits(size: nat, n: int) {
    GoodSize(size) && 0 <= n < Bound(size)
  }

  // The characters of a buffer before its first NUL.
  function UpToNul(bs: seq<Byte>): (r: seq<Byte>)
    ensures |r| <= |bs| && r == bs[..|r|] && (forall i :: 0 <= i < |r| ==> r[i] != 0) && (|r| < |bs| ==> bs[|r|] == 0)
  {
    if bs == [] || bs[0] == 0 then [] else [bs[0]] + UpToNul(bs[1..])
  }

  function EncodeScalar(f: Field, v: Value): Encoded {
    match v
    case Num(n) => (
      match f.ltype
      case Bool => Encoded(EncodeVarint(if n != 0 then 1 else 0))
      case Varint => if SignedFits(f.dataSize, n) then Encoded(EncodeVarint(ToUnsigned(n))) else Refused
      case UVarint => if UnsignedFits(f.dataSize, n) then Encoded(EncodeVarint(n)) else Refused
      case SVarint => if SignedFits(f.dataSize, n) then Encoded(EncodeVarint(ZigZag(n))) else Refused
      case Fixed32 => if 0 <= n < TWO_32 then Encoded(LittleEndian(n, 4)) else Refused
      case Fixed64 => if 0 <= n < TWO_64 then Encoded(LittleEndian(n, 8)) else Refused
      case _ => Refused)
    case Text(bs) => (
      match f.ltype
      case Bytes => if |bs| + BYTES_OFFSET > f.dataSize then Refused else Encoded(WithLength(bs))
      case String => if |bs| > f.dataSize then Refused else Encoded(WithLength(UpToNul(bs)))
      case FixedLengthBytes => if |bs| != f.dataSize then Refused else Encoded(WithLength(bs))
      case _ => Refused)
    case Record(_) => Refused
  }

  function EncodeValue(f: Field, v: Value): Encoded
    decreases f, 0
  {
    if f.ltype.Submessage? then
      if v.Record? then
        match EncodeFields(f.sub, v.msg, |f.sub|)
        case Refused => Refused
        case Encoded(bs) => Encoded(WithLength(bs))
      else Refused
    else EncodeScalar(f, v)
  }

  // The first n items, each without a tag.
  function EncodePacked(f: Field, items: seq<Value>, n: nat): Encoded
    requires n <= |items|
  {
    if n == 0 then Encoded([]) else Append(EncodePacked(f, items, n - 1), EncodeScalar(f, items[n - 1]))
  }

  function EncodeTagged(f: Field, v: Value): Encoded
    decreases f, 1
  {
    Append(Encoded(EncodeTag(f.tag, WireTypeCode(f.ltype))), EncodeValue(f, v))
  }

  // The first n items, each with its tag.
  function EncodeUnpacked(f: Field, items: seq<Value>, n: nat): Encoded
    requires n <= |items|
    decreases f, 2, n
  {
    if n == 0 then Encoded([]) else Append(EncodeUnpacked(f, items, n - 1), EncodeTagged(f, items[n - 1]))
  }

  function EncodeArray(f: Field, items: seq<Value>): Encoded
    decreases f, 3
  {
    if items == [] then Encoded([])
    else if |items| > f.arraySize then Refused
    else if Packable(f.ltype) then
      match EncodePacked(f, items, |items|)
      case Refused => Refused
      case Encoded(bs) => Encoded(EncodeTag(f.tag, 2) + WithLength(bs))
    else EncodeUnpacked(f, items, |items|)
  }

  // pb_check_proto3_default_value for the value of a singular field.
  predicate IsZero(f: Field, v: Value)
    decreases f, 0
  {
    match v
    case Num(n) => n == 0
    case Text(bs) => if f.ltype.FixedLengthBytes? then f.dataSize == 0
                     else if f.ltype.String? then bs == [] || bs[0] == 0
                     else bs == []
    case Record(m) => f.ltype.Submessage? && AllZero(f.sub, m, |f.sub|)
  }

  predicate AllZero(fields: seq<Field>, m: Message, n: nat)
    requires n <= |fields|
    decreases fields, n
  {
    n == 0 || (AllZero(fields, m, n - 1) && n <= |m.slots| && SlotIsZero(fields[n - 1], m.slots[n - 1], m))
  }

  predicate SlotIsZero(f: Field, s: Slot, m: Message)
    decreases f, 1
  {
    match RuleOf(f)
    case Always => false
    case Counted => s.Many? && s.items == []
    case FixedCount => false
    case InUnion => UnionOf(m, f.union).which == 0
    case HasFlag => s.Flagged? && !s.has
    case Implicit => s.One? && IsZero(f, s.v)
  }

  // encode_field
  function EncodeField(f: Field, s: Slot, m: Message): Encoded
    decreases f, 4
  {
    if !f.atype.Static? || f.ltype.Extension? then Refused
    else
      match RuleOf(f)
      case Always => if s.One? then EncodeTagged(f, s.v) else Refused
      case Implicit => if !s.One? then Refused else if IsZero(f, s.v) then Encoded([]) else EncodeTagged(f, s.v)
      case HasFlag => if !s.Flagged? then Refused else if s.has then EncodeTagged(f, s.v) else Encoded([])
      case Counted => if s.Many? then EncodeArray(f, s.items) else Refused
      case FixedCount => if s.Many? && |s.items| == f.arraySize then EncodeArray(f, s.items) else Refused
      case InUnion =>
        var u := UnionOf(m, f.union);
        if u.which == f.tag then EncodeTagged(f, u.value) else Encoded([])
  }

  // pb_encode over the first n fields.
  function EncodeFields(fields: seq<Field>, m: Message, n: nat): Encoded
    requires n <= |fields|
    decreases fields, n
  {
    if n == 0 then Encoded([])
    else if n > |m.slots| then Refused
    else Append(EncodeFields(fields, m, n - 1), EncodeField(fields[n - 1], m.slots[n - 1], m))
  }

  function EncodeMessage(fields: seq<Field>, m: Message): Encoded {
    EncodeFields(fields, m, |fields|)
  }
}
