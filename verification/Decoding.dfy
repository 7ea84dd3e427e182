// What decoding means: a function from bytes to the changes they make in a message.
module Decoding {
  import opened Wire
  import opened InputStream
  import opened Messages

  // ---------- Single values ----------

  // The cast through int32_t for fields narrower than 64 bits.
  function SignedValue(size: nat, u: nat): int
    requires u < TWO_64
  {
    if size == 8 then ToSigned(u)
    else var low := u % TWO_32; if low >= TWO_31 then low - TWO_32 else low
  }

  function Zeros(n: nat): seq<Byte> {
    seq(n, i => 0)
  }

  function DecodeScalar(f: Field, bs: seq<Byte>): (r: Parse<Value>)
    ensures r.Got? ==> |r.rest| < |bs|
  {
    match f.ltype
    case Bool => (match Varint32(bs) case Fail => Fail case Got(v, rest) => Got(Num(if v != 0 then 1 else 0), rest))
    case Varint => (
      match Varint64(bs)
      case Fail => Fail
      case Got(u, rest) =>
        var n := SignedValue(f.dataSize, u);
        if SignedFits(f.dataSize, n) then Got(Num(n), rest) else Fail)
    case UVarint => (
      match Varint64(bs)
      case Fail => Fail
      case Got(u, rest) => if UnsignedFits(f.dataSize, u) then Got(Num(u), rest) else Fail)
    case SVarint => (
      match Varint64(bs)
      case Fail => Fail
      case Got(u, rest) =>
        var n := UnZigZag(u);
        if SignedFits(f.dataSize, n) then Got(Num(n), rest) else Fail)
    case Fixed32 => (match Take(bs, 4) case Fail => Fail case Got(b, rest) => Got(Num(FromLittleEndian(b)), rest))
    case Fixed64 => (match Take(bs, 8) case Fail => Fail case Got(b, rest) => Got(Num(FromLittleEndian(b)), rest))
    case Bytes => (
      match Varint32(bs)
      case Fail => Fail
      case Got(n, rest) => if n + BYTES_OFFSET > f.dataSize then Fail else TakeText(rest, n))
    case String => (
      match Varint32(bs)
      case Fail => Fail
      case Got(n, rest) => if n + 1 > f.dataSize then Fail else TakeText(rest, n))
    case FixedLengthBytes => (
      match Varint32(bs)
      case Fail => Fail
      case Got(n, rest) =>
        if n == 0 then Got(Text(Zeros(f.dataSize)), rest)
        else if n != f.dataSize then Fail
        else TakeText(rest, n))
    case Submessage => Fail
    case Extension => Fail
  }

  function TakeText(bs: seq<Byte>, n: nat): (r: Parse<Value>)
    ensures r.Got? ==> |r.rest| <= |bs|
  {
    match Take(bs, n) case Fail => Fail case Got(b, rest) => Got(Text(b), rest)
  }

  // ---------- Progress through a message ----------

  // seen: required descriptors met.  fixedField and fixedCount follow the fixed-count array
  // being filled; fixedField is -1 before the first one.
  datatype Progress = Progress(msg: Message, seen: set<nat>, fixedField: int, fixedCount: nat)

  // Where decoding of a stretch of fields ended: the data ran out, or a zero tag was met.
  datatype Reached = Reached(p: Progress, stopped: bool)

  function FindField(fields: seq<Field>, tag: nat): (i: nat)
    ensures i <= |fields|
    ensures i < |fields| ==> fields[i].tag == tag && !fields[i].ltype.Extension?
    ensures i == |fields| ==> forall k :: 0 <= k < |fields| ==> fields[k].tag != tag || fields[k].ltype.Extension?
  {
    if fields == [] then 0
    else if fields[0].tag == tag && !fields[0].ltype.Extension? then 0
    else 1 + FindField(fields[1..], tag)
  }

  function SetSlot(p: Progress, i: nat, s: Slot): Progress
    requires i < |p.msg.slots|
  {
    p.(msg := p.msg.(slots := p.msg.slots[i := s]))
  }

  function SetUnion(p: Progress, u: nat, v: Union): Progress {
    p.(msg := p.msg.(unions := p.msg.unions[u := v]))
  }

  function OldMessage(v: Value): Message {
    if v.Record? then v.msg else Message([], map[])
  }

  // pb_decode_noinit
  function DecodeNoinit(fields: seq<Field>, m: Message, bs: seq<Byte>): (r: Parse<Message>)
    ensures r.Got? ==> |r.value.slots| == |m.slots|
    decreases |bs|, 6
  {
    match DecodeLoop(fields, Progress(m, {}, -1, 0), bs)
    case Fail => Fail
    case Got(reached, rest) => if Complete(fields, reached.p) then Got(reached.p.msg, rest) else Fail
  }

  // pb_decode
  function Decode(fields: seq<Field>, bs: seq<Byte>): Parse<Message> {
    DecodeNoinit(fields, Defaults(fields), bs)
  }

  function DecodeValue(f: Field, prior: Value, bs: seq<Byte>): (r: Parse<Value>)
    ensures r.Got? ==> |r.rest| < |bs|
    decreases |bs|, 1
  {
    if !f.ltype.Submessage? then DecodeScalar(f, bs)
    else
      match Delimited(bs)
      case Fail => Fail
      case Got(payload, rest) =>
        match DecodeNoinit(f.sub, if f.htype.Repeated? then Defaults(f.sub) else OldMessage(prior), payload)
        case Fail => Fail
        case Got(m, _) => Got(Record(m), rest)
  }

  // Packed items: fills up to limit items, and nothing may be left over.
  function DecodePacked(f: Field, limit: nat, items: seq<Value>, bs: seq<Byte>): (r: Parse<seq<Value>>)
    decreases |bs|
  {
    if bs == [] then Got(items, [])
    else if |items| >= limit then Fail
    else match DecodeScalar(f, bs)
         case Fail => Fail
         case Got(v, rest) => DecodePacked(f, limit, items + [v], rest)
  }

  // The new items of a repeated field, after those already there.
  function DecodeItems(f: Field, wt: WireType, items: seq<Value>, bs: seq<Byte>): (r: Parse<seq<Value>>)
    ensures r.Got? ==> |r.rest| < |bs|
    decreases |bs|, 2
  {
    if wt.WtString? && Packable(f.ltype) then
      match Delimited(bs)
      case Fail => Fail
      case Got(payload, rest) =>
        match DecodePacked(f, f.arraySize, items, payload)
        case Fail => Fail
        case Got(all, _) => Got(all, rest)
    else if |items| >= f.arraySize then Fail
    else match DecodeValue(f, Num(0), bs)
         case Fail => Fail
         case Got(v, rest) => Got(items + [v], rest)
  }

  // A fixed-count array being filled from its start: the first count items are new.
  function Overwrite(items: seq<Value>, filled: seq<Value>): seq<Value> {
    if |filled| <= |items| then filled + items[|filled|..] else filled
  }

  // Bookkeeping when a fixed-count array is met: a different one may only start once the
  // previous one is full.
  function FixedStart(fields: seq<Field>, i: nat, p: Progress): Parse<Progress>
    requires i < |fields|
  {
    if p.fixedField == i then Got(p, [])
    else if 0 <= p.fixedField < |fields| && p.fixedCount != fields[p.fixedField].arraySize then Fail
    else Got(p.(fixedField := i, fixedCount := 0), [])
  }

  // What a single field is decoded into: its own previous value, so that submessages merge,
  // except that a oneof member that was not set starts afresh.
  function PriorValue(f: Field, s: Slot, m: Message): Value {
    match RuleOf(f)
    case HasFlag => if s.Flagged? then s.v else Num(0)
    case InUnion =>
      var u := UnionOf(m, f.union);
      if u.which == f.tag then u.value
      else if f.ltype.Submessage? then Record(Defaults(f.sub)) else Num(0)
    case _ => if s.One? then s.v else Num(0)
  }

  // Storing the value of a single field.
  function Store(f: Field, i: nat, p: Progress, v: Value): (q: Progress)
    requires i < |p.msg.slots|
    ensures |q.msg.slots| == |p.msg.slots|
  {
    match RuleOf(f)
    case Always => SetSlot(p.(seen := p.seen + {i}), i, One(v))
    case HasFlag => SetSlot(p, i, Flagged(true, v))
    case InUnion => SetUnion(p, f.union, Union(f.tag, v))
    case _ => SetSlot(p, i, One(v))
  }

  function ItemsOf(s: Slot): seq<Value> {
    if s.Many? then s.items else []
  }

  function UpTo(items: seq<Value>, n: nat): seq<Value> {
    if n <= |items| then items[..n] else items
  }

  // A repeated field: items go after those already there, or over those of a fixed-count array.
  function DecodeRepeated(fields: seq<Field>, i: nat, wt: WireType, p: Progress, bs: seq<Byte>): (r: Parse<Progress>)
    requires i < |fields| && i < |p.msg.slots|
    ensures r.Got? ==> |r.rest| < |bs| && |r.value.msg.slots| == |p.msg.slots|
    decreases |bs|, 3
  {
    var all := ItemsOf(p.msg.slots[i]);
    if RuleOf(fields[i]).FixedCount? then
      match FixedStart(fields, i, p)
      case Fail => Fail
      case Got(q, _) =>
        match DecodeItems(fields[i], wt, UpTo(all, q.fixedCount), bs)
        case Fail => Fail
        case Got(items, rest) => Got(SetSlot(q.(fixedCount := |items|), i, Many(Overwrite(all, items))), rest)
    else
      match DecodeItems(fields[i], wt, all, bs)
      case Fail => Fail
      case Got(items, rest) => Got(SetSlot(p, i, Many(items)), rest)
  }

  // decode_field for descriptor i
  function DecodeField(fields: seq<Field>, i: nat, wt: WireType, p: Progress, bs: seq<Byte>): (r: Parse<Progress>)
    requires i < |fields|
    ensures r.Got? ==> |r.rest| < |bs| && |r.value.msg.slots| == |p.msg.slots|
    decreases |bs|, 4
  {
    var f := fields[i];
    if !f.atype.Static? || i >= |p.msg.slots| then Fail
    else if f.htype.Repeated? then DecodeRepeated(fields, i, wt, p, bs)
    else
      match DecodeValue(f, PriorValue(f, p.msg.slots[i], p.msg), bs)
      case Fail => Fail
      case Got(v, rest) => Got(Store(f, i, p, v), rest)
  }

  // The loop of pb_decode_noinit.
  function DecodeLoop(fields: seq<Field>, p: Progress, bs: seq<Byte>): (r: Parse<Reached>)
    ensures r.Got? ==> |r.rest| <= |bs| && |r.value.p.msg.slots| == |p.msg.slots|
    decreases |bs|, 5
  {
    if bs == [] then Got(Reached(p, false), [])
    else
      match ParseTag(bs)
      case Fail => Fail
      case Got(tag, rest) =>
        if tag.EndMark? then Got(Reached(p, true), rest)
        else
          match DecodeOne(fields, tag.number, tag.wireType, p, rest)
          case Fail => Fail
          case Got(q, rest') => DecodeLoop(fields, q, rest')
  }

  // One field after its tag: decoded when a descriptor has the number, skipped otherwise.
  function DecodeOne(fields: seq<Field>, number: nat, wt: WireType, p: Progress, bs: seq<Byte>): (r: Parse<Progress>)
    ensures r.Got? ==> |r.rest| < |bs| && |r.value.msg.slots| == |p.msg.slots|
    decreases |bs|, 5
  {
    var i := FindField(fields, number);
    if i < |fields| then DecodeField(fields, i, wt, p, bs)
    else if fields == [] && number == 0 then
      // pb_field_iter_find matches number zero against the terminator of an empty message type
      match Varint32(bs) case Fail => Fail case Got(_, rest) => Got(p, rest)
    else match Skip(wt, bs) case Fail => Fail case Got(_, rest) => Got(p, rest)
  }

  // ---------- The checks after the loop ----------

  const MAX_REQUIRED := 64

  // Required descriptors before position n.
  function RequiredBefore(fields: seq<Field>, n: nat): (c: nat)
    requires n <= |fields|
    ensures c <= n
  {
    if n == 0 then 0 else RequiredBefore(fields, n - 1) + if fields[n - 1].htype.Required? then 1 else 0
  }

  predicate RequiredSeen(fields: seq<Field>, seen: set<nat>) {
    forall i :: 0 <= i < |fields| && fields[i].htype.Required? && RequiredBefore(fields, i) < MAX_REQUIRED ==> i in seen
  }

  predicate FixedFull(fields: seq<Field>, p: Progress) {
    0 <= p.fixedField < |fields| ==> p.fixedCount == fields[p.fixedField].arraySize
  }

  predicate Complete(fields: seq<Field>, p: Progress) {
    FixedFull(fields, p) && RequiredSeen(fields, p.seen)
  }
}
