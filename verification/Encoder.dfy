// The encoder: output streams that count or fill a buffer, and messages written in two passes,
// proved against the meaning of encoding.
module Encoder {
  import opened Wire
  import opened InputStream
  import opened Messages
  import opened FieldIter

  // ---------- Output streams ----------

  class OStream {
    const buffer: array?<Byte>   // null when only the size is wanted
    const base: nat              // where this stream's bytes start in the buffer
    const maxSize: nat
    var state: nat
    var bytesWritten: nat

    function Repr(): set<object> {
      {this} + if buffer == null then {} else {buffer}
    }

    predicate Sizing() {
      buffer == null
    }

    ghost predicate Valid()
      reads this
    {
      buffer != null ==>
        state == base + bytesWritten && bytesWritten <= maxSize && base + maxSize <= buffer.Length
    }

    // What has been written so far.
    ghost function Output(): seq<Byte>
      requires Valid()
      reads this, buffer
    {
      if buffer == null then [] else buffer[base..state]
    }

    // From n0 bytes with contents out0, the stream has taken e, or has not: it takes everything
    // when sizing, and exactly what fits otherwise.
    ghost predicate Emitted(n0: nat, out0: seq<Byte>, e: Encoded, ok: bool)
      reads this, buffer
    {
      && Valid()
      && (ok <==> e.Encoded? && (Sizing() || n0 + |e.bytes| <= maxSize))
      && (ok ==> bytesWritten == n0 + |e.bytes| && (!Sizing() ==> Output() == out0 + e.bytes))
    }

    // Bytes outside the stream's own part of the buffer are left alone.
    twostate predicate Outside()
      reads this, buffer
    {
      buffer != null ==>
        forall k :: 0 <= k < buffer.Length && !(base <= k < base + maxSize) ==> buffer[k] == old(buffer[k])
    }

    // PB_OSTREAM_SIZING
    constructor Sizer()
      ensures Sizing() && Valid() && bytesWritten == 0
    {
      buffer := null;
      base, maxSize, state, bytesWritten := 0, 0, 0, 0;
    }

    // pb_ostream_from_buffer, and the substream of a submessage
    constructor FromBuffer(buf: array<Byte>, start: nat, size: nat)
      requires start + size <= buf.Length
      ensures buffer == buf && base == start && state == start && maxSize == size && bytesWritten == 0 && Valid()
    {
      buffer := buf;
      base, maxSize, state, bytesWritten := start, size, start, 0;
    }

    // pb_write
    method Write(bs: seq<Byte>) returns (ok: bool)
      requires Valid()
      modifies Repr()
      ensures Emitted(old(bytesWritten), old(Output()), Encoded(bs), ok) && Outside()
    {
      if |bs| > 0 && buffer != null {
        if bytesWritten + |bs| > maxSize { return false; }
        ghost var out := Output();
        var i := 0;
        while i < |bs|
          invariant 0 <= i <= |bs| && state == base + bytesWritten && bytesWritten == old(bytesWritten)
          invariant forall k :: 0 <= k < i ==> buffer[state + k] == bs[k]
          invariant forall k :: 0 <= k < buffer.Length && !(state <= k < state + i) ==> buffer[k] == old(buffer[k])
        {
          buffer[state + i] := bs[i];
          i := i + 1;
        }
        assert buffer[state..state + |bs|] == bs && buffer[base..state] == out;
        state := state + |bs|;
        assert buffer[base..state] == out + bs;
      }
      bytesWritten := bytesWritten + |bs|;
      ok := true;
    }

    // pb_write without data, when sizing.
    method Count(size: nat)
      requires Valid() && Sizing()
      modifies this
      ensures Valid() && bytesWritten == old(bytesWritten) + size
    {
      bytesWritten := bytesWritten + size;
    }

    // One piece after another.
    lemma Then(n0: nat, out0: seq<Byte>, n1: nat, out1: seq<Byte>, a: Encoded, b: Encoded, ok: bool)
      requires a.Encoded? && n1 == n0 + |a.bytes| && (!Sizing() ==> out1 == out0 + a.bytes && n1 <= maxSize)
      requires Emitted(n1, out1, b, ok)
      ensures Emitted(n0, out0, Append(a, b), ok)
    {
      if ok && !Sizing() { assert out1 + b.bytes == out0 + (a.bytes + b.bytes); }
    }

    // Nothing that follows a piece that was not taken matters.
    lemma Stops(n0: nat, out0: seq<Byte>, a: Encoded, b: Encoded)
      requires Emitted(n0, out0, a, false)
      ensures Emitted(n0, out0, Append(a, b), false)
    {
    }
  }

  // ---------- Numbers, tags and strings ----------

  // All groups of v marked as continued.
  function Marked(v: nat): seq<Byte> {
    if v == 0 then [] else [v % 128 + 128] + Marked(v / 128)
  }

  lemma {:induction false} MarkedLength(v: nat, k: nat)
    requires v < Pow128(k)
    ensures |Marked(v)| <= k
  {
    if v > 0 { MarkedLength(v / 128, k - 1); }
  }

  // Clearing the mark of the last group gives the encoding.
  lemma {:induction false} UnmarkLast(v: nat)
    requires v > 0
    ensures Marked(v) != [] && Marked(v)[|Marked(v)| - 1] >= 128
    ensures EncodeVarint(v) == Marked(v)[..|Marked(v)| - 1] + [Marked(v)[|Marked(v)| - 1] - 128]
  {
    if v < 128 {
      assert Marked(v / 128) == [];
    } else {
      UnmarkLast(v / 128);
    }
  }

  // pb_encode_varint
  method PbEncodeVarint(stream: OStream, value: nat) returns (ok: bool)
    requires stream.Valid() && value < TWO_64
    modifies stream.Repr()
    ensures stream.Emitted(old(stream.bytesWritten), old(stream.Output()), Encoded(EncodeVarint(value)), ok)
    ensures stream.Outside()
  {
    if value <= 0x7F {
      ok := stream.Write([value]);
      return;
    }
    TenGroups();
    MarkedLength(value, 10);
    var buffer: seq<Byte> := seq(10, _ => 0);
    var i, v := 0, value;
    while v > 0
      invariant 0 <= i <= |buffer| == 10 && i + |Marked(v)| <= 10
      invariant Marked(value) == buffer[..i] + Marked(v)
    {
      buffer := buffer[i := v % 128 + 128];
      v := v / 128;
      i := i + 1;
    }
    UnmarkLast(value);
    buffer := buffer[i - 1 := buffer[i - 1] - 128];
    assert buffer[..i] == EncodeVarint(value);
    ok := stream.Write(buffer[..i]);
  }

  method PbEncodeFixed(stream: OStream, value: nat, width: nat) returns (ok: bool)
    requires stream.Valid() && (width == 4 || width == 8)
    modifies stream.Repr()
    ensures stream.Emitted(old(stream.bytesWritten), old(stream.Output()), Encoded(LittleEndian(value, width)), ok)
    ensures stream.Outside()
  {
    var bytes: seq<Byte> := [];
    var v := value;
    while |bytes| < width
      invariant |bytes| <= width && LittleEndian(value, width) == bytes + LittleEndian(v, width - |bytes|)
    {
      bytes := bytes + [v % 256];
      v := v / 256;
    }
    assert bytes == LittleEndian(value, width);
    ok := stream.Write(bytes);
  }

  method PbEncodeTag(stream: OStream, number: nat, code: nat) returns (ok: bool)
    requires stream.Valid() && 8 * number + code < TWO_64
    modifies stream.Repr()
    ensures stream.Emitted(old(stream.bytesWritten), old(stream.Output()), Encoded(EncodeTag(number, code)), ok)
    ensures stream.Outside()
  {
    ok := PbEncodeVarint(stream, 8 * number + code);
  }

  // pb_encode_string
  method PbEncodeString(stream: OStream, bs: seq<Byte>) returns (ok: bool)
    requires stream.Valid() && |bs| < TWO_64
    modifies stream.Repr()
    ensures stream.Emitted(old(stream.bytesWritten), old(stream.Output()), Encoded(WithLength(bs)), ok)
    ensures stream.Outside()
  {
    ghost var n0, out0 := stream.bytesWritten, stream.Output();
    ghost var a, b := Encoded(EncodeVarint(|bs|)), Encoded(bs);
    ok := PbEncodeVarint(stream, |bs|);
    if !ok { stream.Stops(n0, out0, a, b); return; }
    ghost var n1, out1 := stream.bytesWritten, stream.Output();
    ok := stream.Write(bs);
    stream.Then(n0, out0, n1, out1, a, b, ok);
  }

  // ---------- What fits in memory ----------

  // A fixed-width member holds a value of its width, and every part that gets a length prefix is
  // shorter than size_t can count.
  ghost predicate Countable(e: Encoded) {
    e.Encoded? ==> |e.bytes| < TWO_64
  }

  ghost predicate ValueInMemory(f: Field, v: Value)
    decreases f, 0
  {
    && (f.ltype.Fixed32? ==> v.Num? && 0 <= v.n < TWO_32)
    && (f.ltype.Fixed64? ==> v.Num? && 0 <= v.n < TWO_64)
    && match v
       case Num(_) => true
       case Text(bs) => |bs| < TWO_64
       case Record(m) => f.ltype.Submessage? ==> InMemory(f.sub, m) && Countable(EncodeMessage(f.sub, m))
  }

  ghost predicate SlotInMemory(f: Field, s: Slot, m: Message)
    decreases f, 1
  {
    && f.tag < TWO_32
    && (s.One? ==> ValueInMemory(f, s.v))
    && (s.Flagged? && s.has ==> ValueInMemory(f, s.v))
    && (s.Many? ==> (forall k :: 0 <= k < |s.items| ==> ValueInMemory(f, s.items[k]))
                    && (Packable(f.ltype) ==> Countable(EncodePacked(f, s.items, |s.items|))))
    && (f.htype.Oneof? && UnionOf(m, f.union).which == f.tag ==> ValueInMemory(f, UnionOf(m, f.union).value))
  }

  ghost predicate InMemory(fields: seq<Field>, m: Message)
    decreases fields
  {
    && |m.slots| == |fields|
    && forall i :: 0 <= i < |fields| ==> SlotInMemory(fields[i], m.slots[i], m)
  }

  // ---------- Values ----------

  // strnlen over the buffer.
  method StringLength(bs: seq<Byte>, maxSize: nat) returns (size: nat)
    requires |bs| <= maxSize
    ensures size <= |bs| && bs[..size] == UpToNul(bs)
  {
    size := 0;
    while size < |bs| && size < maxSize && bs[size] != 0
      invariant size <= |bs| && forall i :: 0 <= i < size ==> bs[i] != 0
    {
      size := size + 1;
    }
    var all := UpToNul(bs);
    assert |all| < |bs| ==> bs[|all|] == 0;
    assert size <= |all|;
  }

  method EncNumber(stream: OStream, f: Field, n: int) returns (ok: bool)
    requires stream.Valid()
    modifies stream.Repr()
    ensures stream.Emitted(old(stream.bytesWritten), old(stream.Output()), EncodeScalar(f, Num(n)), ok) &&
        stream.Outside()
  {
    match f.ltype
    case Bool => ok := PbEncodeVarint(stream, if n != 0 then 1 else 0);
    case Varint =>
      if !SignedFits(f.dataSize, n) { return false; }
      ok := PbEncodeVarint(stream, ToUnsigned(n));
    case UVarint =>
      if !UnsignedFits(f.dataSize, n) { return false; }
      ok := PbEncodeVarint(stream, n);
    case SVarint =>
      if !SignedFits(f.dataSize, n) { return false; }
      ok := PbEncodeVarint(stream, ZigZag(n));
    case Fixed32 =>
      if !(0 <= n < TWO_32) { return false; }
      ok := PbEncodeFixed(stream, n, 4);
    case Fixed64 =>
      if !(0 <= n < TWO_64) { return false; }
      ok := PbEncodeFixed(stream, n, 8);
    case _ => return false;
  }

  method EncText(stream: OStream, f: Field, bs: seq<Byte>) returns (ok: bool)
    requires stream.Valid() && |bs| < TWO_64
    modifies stream.Repr()
    ensures stream.Emitted(old(stream.bytesWritten), old(stream.Output()), EncodeScalar(f, Text(bs)), ok) &&
        stream.Outside()
  {
    match f.ltype
    case Bytes =>
      if |bs| + BYTES_OFFSET > f.dataSize { return false; }
      ok := PbEncodeString(stream, bs);
    case String =>
      if |bs| > f.dataSize { return false; }
      var size := StringLength(bs, f.dataSize);
      ok := PbEncodeString(stream, bs[..size]);
    case FixedLengthBytes =>
      if |bs| != f.dataSize { return false; }
      ok := PbEncodeString(stream, bs);
    case _ => return false;
  }

  method EncScalar(stream: OStream, f: Field, v: Value) returns (ok: bool)
    requires stream.Valid() && ValueInMemory(f, v)
    modifies stream.Repr()
    ensures stream.Emitted(old(stream.bytesWritten), old(stream.Output()), EncodeScalar(f, v), ok) && stream.Outside()
  {
    match v
    case Num(n) => ok := EncNumber(stream, f, n);
    case Text(bs) => ok := EncText(stream, f, bs);
    case Record(_) => ok := false;
  }

  // The second pass over a submessage, through a substream that takes exactly the size the
  // first pass counted.
  method WriteSubmessage(stream: OStream, f: Field, m: Message, size: nat) returns (ok: bool)
    requires stream.Valid() && !stream.Sizing() && InMemory(f.sub, m)
    requires EncodeMessage(f.sub, m).Encoded? && size == |EncodeMessage(f.sub, m).bytes|
    modifies stream.Repr()
    ensures stream.Emitted(old(stream.bytesWritten), old(stream.Output()), EncodeMessage(f.sub, m), ok) &&
        stream.Outside()
    decreases f, 0, 0
  {
    hide InMemory, EncodeMessage;
    if stream.bytesWritten + size > stream.maxSize { return false; }
    ghost var out := stream.Output();
    var sub := new OStream.FromBuffer(stream.buffer, stream.state, size);
    ok := PbEncode(sub, f.sub, m);
    assert sub.bytesWritten == size;   // "submsg size changed" cannot happen
    assert stream.buffer[stream.base..stream.state] == out;
    stream.bytesWritten := stream.bytesWritten + sub.bytesWritten;
    stream.state := sub.state;
    assert stream.Output() == out + sub.Output();
  }

  // pb_encode_submessage: one pass to find the size, one to write.
  method PbEncodeSubmessage(stream: OStream, f: Field, m: Message) returns (ok: bool)
    requires stream.Valid() && f.ltype.Submessage? && InMemory(f.sub, m) && Countable(EncodeMessage(f.sub, m))
    modifies stream.Repr()
    ensures stream.Emitted(old(stream.bytesWritten), old(stream.Output()), EncodeValue(f, Record(m)), ok) &&
        stream.Outside()
    decreases f, 0, 1
  {
    SubmessageParts(f, m);
    hide InMemory, EncodeMessage, EncodeValue, EncodeVarint;
    ghost var e := EncodeMessage(f.sub, m);
    var sizer := new OStream.Sizer();
    ok := PbEncode(sizer, f.sub, m);
    if !ok { return; }
    var size := sizer.bytesWritten;
    ghost var n0, out0 := stream.bytesWritten, stream.Output();
    ghost var prefix := Encoded(EncodeVarint(size));
    ok := PbEncodeVarint(stream, size);
    if !ok { stream.Stops(n0, out0, prefix, e); return; }
    ghost var n1, out1 := stream.bytesWritten, stream.Output();
    if stream.Sizing() {
      stream.Count(size);
    } else {
      ok := WriteSubmessage(stream, f, m, size);
    }
    stream.Then(n0, out0, n1, out1, prefix, e, ok);
  }

  lemma SubmessageParts(f: Field, m: Message)
    requires f.ltype.Submessage?
    ensures var e := EncodeMessage(f.sub, m);
      EncodeValue(f, Record(m)) == if e.Refused? then Refused else Append(Encoded(EncodeVarint(|e.bytes|)), e)
  {
  }

  method EncValue(stream: OStream, f: Field, v: Value) returns (ok: bool)
    requires stream.Valid() && ValueInMemory(f, v)
    modifies stream.Repr()
    ensures stream.Emitted(old(stream.bytesWritten), old(stream.Output()), EncodeValue(f, v), ok) && stream.Outside()
    decreases f, 1
  {
    if f.ltype.Submessage? {
      if !v.Record? { return false; }
      ok := PbEncodeSubmessage(stream, f, v.msg);
    } else {
      ok := EncScalar(stream, f, v);
    }
  }

  // pb_encode_tag_for_field and the value.
  method EncTagged(stream: OStream, f: Field, v: Value) returns (ok: bool)
    requires stream.Valid() && ValueInMemory(f, v) && f.tag < TWO_32
    modifies stream.Repr()
    ensures stream.Emitted(old(stream.bytesWritten), old(stream.Output()), EncodeTagged(f, v), ok) && stream.Outside()
    decreases f, 2
  {
    hide EncodeValue, EncodeTag, ValueInMemory;
    ghost var n0, out0 := stream.bytesWritten, stream.Output();
    ghost var a, b := Encoded(EncodeTag(f.tag, WireTypeCode(f.ltype))), EncodeValue(f, v);
    ok := PbEncodeTag(stream, f.tag, WireTypeCode(f.ltype));
    if !ok { stream.Stops(n0, out0, a, b); return; }
    ghost var n1, out1 := stream.bytesWritten, stream.Output();
    ok := EncValue(stream, f, v);
    stream.Then(n0, out0, n1, out1, a, b, ok);
  }

  // ---------- Arrays ----------

  // Once an item is not taken, the array is not.
  lemma {:induction false} PackedFails(stream: OStream, n0: nat, out0: seq<Byte>,
      f: Field, items: seq<Value>, i: nat, n: nat)
    requires i <= n <= |items| && stream.Emitted(n0, out0, EncodePacked(f, items, i), false)
    ensures stream.Emitted(n0, out0, EncodePacked(f, items, n), false)
  {
    if i < n {
      PackedFails(stream, n0, out0, f, items, i, n - 1);
      stream.Stops(n0, out0, EncodePacked(f, items, n - 1), EncodeScalar(f, items[n - 1]));
    }
  }

  lemma {:induction false} UnpackedFails(stream: OStream, n0: nat, out0: seq<Byte>,
      f: Field, items: seq<Value>, i: nat, n: nat)
    requires i <= n <= |items| && stream.Emitted(n0, out0, EncodeUnpacked(f, items, i), false)
    ensures stream.Emitted(n0, out0, EncodeUnpacked(f, items, n), false)
  {
    if i < n {
      UnpackedFails(stream, n0, out0, f, items, i, n - 1);
      stream.Stops(n0, out0, EncodeUnpacked(f, items, n - 1), EncodeTagged(f, items[n - 1]));
    }
  }

  ghost predicate ItemsInMemory(f: Field, items: seq<Value>) {
    forall k :: 0 <= k < |items| ==> ValueInMemory(f, items[k])
  }

  method EncPackedItems(stream: OStream, f: Field, items: seq<Value>) returns (ok: bool)
    requires stream.Valid() && ItemsInMemory(f, items)
    modifies stream.Repr()
    ensures stream.Emitted(old(stream.bytesWritten), old(stream.Output()), EncodePacked(f, items, |items|), ok)
    ensures stream.Outside()
  {
    hide EncodeScalar, ValueInMemory;
    ghost var n0, out0 := stream.bytesWritten, stream.Output();
    ok := true;
    var i := 0;
    while i < |items|
      invariant 0 <= i <= |items| && stream.Outside() && ok
      invariant stream.Emitted(n0, out0, EncodePacked(f, items, i), true)
    {
      ghost var n1, out1 := stream.bytesWritten, stream.Output();
      ok := EncScalar(stream, f, items[i]);
      stream.Then(n0, out0, n1, out1, EncodePacked(f, items, i), EncodeScalar(f, items[i]), ok);
      i := i + 1;
      if !ok { PackedFails(stream, n0, out0, f, items, i, |items|); return; }
    }
  }

  lemma {:induction false} FixedSize(f: Field, items: seq<Value>, n: nat)
    requires ItemsInMemory(f, items) && n <= |items| && (f.ltype.Fixed32? || f.ltype.Fixed64?)
    ensures EncodePacked(f, items, n).Encoded?
    ensures |EncodePacked(f, items, n).bytes| == (if f.ltype.Fixed32? then 4 else 8) * n
  {
    if n > 0 { FixedSize(f, items, n - 1); }
  }

  // The size of a packed array: computed for fixed widths, counted otherwise.
  method PackedSize(f: Field, items: seq<Value>) returns (ok: bool, size: nat)
    requires ItemsInMemory(f, items)
    ensures ok <==> EncodePacked(f, items, |items|).Encoded?
    ensures ok ==> size == |EncodePacked(f, items, |items|).bytes|
  {
    if f.ltype.Fixed32? {
      FixedSize(f, items, |items|);
      return true, 4 * |items|;
    }
    if f.ltype.Fixed64? {
      FixedSize(f, items, |items|);
      return true, 8 * |items|;
    }
    var sizer := new OStream.Sizer();
    ok := EncPackedItems(sizer, f, items);
    size := sizer.bytesWritten;
  }

  method EncPackedArray(stream: OStream, f: Field, items: seq<Value>) returns (ok: bool)
    requires stream.Valid() && ItemsInMemory(f, items) && f.tag < TWO_32 && Packable(f.ltype)
    requires 0 < |items| <= f.arraySize && Countable(EncodePacked(f, items, |items|))
    modifies stream.Repr()
    ensures stream.Emitted(old(stream.bytesWritten), old(stream.Output()), EncodeArray(f, items), ok) &&
        stream.Outside()
  {
    PackedParts(f, items);
    hide EncodePacked, EncodeArray, EncodeTag, EncodeVarint, ItemsInMemory;
    ghost var n0, out0 := stream.bytesWritten, stream.Output();
    ghost var e := EncodePacked(f, items, |items|);
    ghost var tag := Encoded(EncodeTag(f.tag, 2));
    ghost var length := Encoded(if e.Encoded? then EncodeVarint(|e.bytes|) else []);
    ok := PbEncodeTag(stream, f.tag, 2);
    if !ok { stream.Stops(n0, out0, tag, Append(length, e)); return; }
    ghost var n1, out1 := stream.bytesWritten, stream.Output();
    var size;
    ok, size := PackedSize(f, items);
    if !ok { return; }
    ok := PbEncodeVarint(stream, size);
    if ok {
      ghost var n2, out2 := stream.bytesWritten, stream.Output();
      if stream.Sizing() {
        stream.Count(size);
      } else {
        ok := EncPackedItems(stream, f, items);
      }
      stream.Then(n1, out1, n2, out2, length, e, ok);
    } else {
      stream.Stops(n1, out1, length, e);
    }
    stream.Then(n0, out0, n1, out1, tag, Append(length, e), ok);
  }

  lemma PackedParts(f: Field, items: seq<Value>)
    requires Packable(f.ltype) && 0 < |items| <= f.arraySize
    ensures var e := EncodePacked(f, items, |items|);
      EncodeArray(f, items) ==
        Append(Encoded(EncodeTag(f.tag, 2)), Append(Encoded(if e.Encoded? then EncodeVarint(|e.bytes|) else []), e))
  {
  }

  // encode_array
  method EncArray(stream: OStream, f: Field, items: seq<Value>) returns (ok: bool)
    requires stream.Valid() && ItemsInMemory(f, items) && f.tag < TWO_32
    requires Packable(f.ltype) ==> Countable(EncodePacked(f, items, |items|))
    modifies stream.Repr()
    ensures stream.Emitted(old(stream.bytesWritten), old(stream.Output()), EncodeArray(f, items), ok) &&
        stream.Outside()
    decreases f, 3
  {
    hide EncodePacked, EncodeTagged, ValueInMemory;
    if |items| == 0 { return true; }
    if |items| > f.arraySize { return false; }
    if Packable(f.ltype) {
      ok := EncPackedArray(stream, f, items);
      return;
    }
    ghost var n0, out0 := stream.bytesWritten, stream.Output();
    ok := true;
    var i := 0;
    while i < |items|
      invariant 0 <= i <= |items| && stream.Outside() && ok
      invariant stream.Emitted(n0, out0, EncodeUnpacked(f, items, i), true)
    {
      ghost var n1, out1 := stream.bytesWritten, stream.Output();
      ok := EncTagged(stream, f, items[i]);
      stream.Then(n0, out0, n1, out1, EncodeUnpacked(f, items, i), EncodeTagged(f, items[i]), ok);
      i := i + 1;
      if !ok { UnpackedFails(stream, n0, out0, f, items, i, |items|); return; }
    }
  }

  // ---------- Fields and messages ----------

  lemma {:induction false} NotAllZero(fields: seq<Field>, m: Message, i: nat, n: nat)
    requires i <= n <= |fields| && !AllZero(fields, m, i)
    ensures !AllZero(fields, m, n)
  {
    if i < n { NotAllZero(fields, m, i, n - 1); }
  }

  // pb_check_proto3_default_value: one non-zero member makes a submessage non-zero.
  method IsZeroValue(f: Field, v: Value) returns (zero: bool)
    ensures zero == IsZero(f, v)
    decreases f, 0
  {
    match v
    case Num(n) => zero := n == 0;
    case Text(bs) =>
      match f.ltype {
        case FixedLengthBytes => zero := f.dataSize == 0;
        case String => zero := |bs| == 0 || bs[0] == 0;
        case _ => zero := |bs| == 0;
      }
    case Record(m) =>
      if !f.ltype.Submessage? { return false; }
      hide SlotIsZero;
      var iter := new FieldIterator(f.sub);
      var more := iter.Begin();
      ghost var i := 0;
      while more
        invariant iter.Valid() && iter.start == f.sub && fresh(iter) && i <= |f.sub|
        invariant if more then iter.pos == i < |f.sub| else i == |f.sub|
        invariant AllZero(f.sub, m, i)
        decreases |f.sub| - i
      {
        zero := iter.pos < |m.slots|;
        if zero { zero := SlotIsZeroValue(f.sub[iter.pos], m.slots[iter.pos], m); }
        i := i + 1;
        if !zero { NotAllZero(f.sub, m, i, |f.sub|); return; }
        more := iter.Next();
      }
      zero := true;
  }

  method SlotIsZeroValue(f: Field, s: Slot, m: Message) returns (zero: bool)
    ensures zero == SlotIsZero(f, s, m)
    decreases f, 1
  {
    match f.htype
    case Required => zero := false;
    case Repeated => zero := f.sizeOffset != 0 && s.Many? && |s.items| == 0;
    case Oneof => zero := UnionOf(m, f.union).which == 0;
    case Optional =>
      if f.sizeOffset != 0 { zero := s.Flagged? && !s.has; }
      else if !s.One? { zero := false; }
      else { zero := IsZeroValue(f, s.v); }
  }

  // encode_basic_field
  method EncField(stream: OStream, f: Field, s: Slot, m: Message) returns (ok: bool)
    requires stream.Valid() && SlotInMemory(f, s, m)
    modifies stream.Repr()
    ensures stream.Emitted(old(stream.bytesWritten), old(stream.Output()), EncodeField(f, s, m), ok) && stream.Outside()
    decreases f, 4
  {
    hide EncodeTagged, EncodeArray, ValueInMemory, IsZero, EncodePacked;
    if !f.atype.Static? || f.ltype.Extension? { return false; }
    match f.htype
    case Required =>
      if !s.One? { return false; }
      ok := EncTagged(stream, f, s.v);
    case Optional =>
      if f.sizeOffset != 0 {
        if !s.Flagged? { return false; }
        ok := true;
        if s.has { ok := EncTagged(stream, f, s.v); }
      } else {
        if !s.One? { return false; }
        var zero := IsZeroValue(f, s.v);
        ok := true;
        if !zero { ok := EncTagged(stream, f, s.v); }
      }
    case Repeated =>
      if !s.Many? || (f.sizeOffset == 0 && |s.items| != f.arraySize) { return false; }
      ok := EncArray(stream, f, s.items);
    case Oneof =>
      var u := UnionOf(m, f.union);
      ok := true;
      if u.which == f.tag { ok := EncTagged(stream, f, u.value); }
  }

  lemma {:induction false} FieldsFail(stream: OStream, n0: nat, out0: seq<Byte>,
      fields: seq<Field>, m: Message, i: nat, n: nat)
    requires i <= n <= |fields| == |m.slots| && stream.Emitted(n0, out0, EncodeFields(fields, m, i), false)
    ensures stream.Emitted(n0, out0, EncodeFields(fields, m, n), false)
  {
    if i < n {
      FieldsFail(stream, n0, out0, fields, m, i, n - 1);
      stream.Stops(n0, out0, EncodeFields(fields, m, n - 1), EncodeField(fields[n - 1], m.slots[n - 1], m));
    }
  }

  // pb_encode
  method PbEncode(stream: OStream, fields: seq<Field>, m: Message) returns (ok: bool)
    requires stream.Valid() && InMemory(fields, m)
    modifies stream.Repr()
    ensures stream.Emitted(old(stream.bytesWritten), old(stream.Output()), EncodeMessage(fields, m), ok) &&
        stream.Outside()
    decreases fields
  {
    hide EncodeField, SlotInMemory;
    ghost var n0, out0 := stream.bytesWritten, stream.Output();
    var iter := new FieldIterator(fields);
    ok := true;
    var more := iter.Begin();
    ghost var i := 0;
    while more
      invariant iter.Valid() && iter.start == fields && fresh(iter) && stream.Outside() && ok && i <= |fields|
      invariant if more then iter.pos == i < |fields| else i == |fields|
      invariant stream.Emitted(n0, out0, EncodeFields(fields, m, i), true)
      decreases |fields| - i
    {
      ghost var n1, out1 := stream.bytesWritten, stream.Output();
      ok := EncField(stream, fields[iter.pos], m.slots[iter.pos], m);
      stream.Then(n0, out0, n1, out1, EncodeFields(fields, m, i), EncodeField(fields[i], m.slots[i], m), ok);
      i := i + 1;
      if !ok { FieldsFail(stream, n0, out0, fields, m, i, |fields|); return; }
      more := iter.Next();
    }
  }

  // pb_get_encoded_size
  method PbGetEncodedSize(fields: seq<Field>, m: Message) returns (ok: bool, size: nat)
    requires InMemory(fields, m)
    ensures ok <==> EncodeMessage(fields, m).Encoded?
    ensures ok ==> size == |EncodeMessage(fields, m).bytes|
  {
    var stream := new OStream.Sizer();
    ok := PbEncode(stream, fields, m);
    size := stream.bytesWritten;
  }

  // Encoding into a buffer succeeds exactly when sizing succeeds and the size fits; then the
  // bytes emitted are as many as sizing counted, and nothing beyond the limit is touched.
  method EncodeIntoBuffer(buf: array<Byte>, limit: nat, fields: seq<Field>, m: Message)
    returns (ok: bool, sized: bool, size: nat, used: nat)
    requires limit <= buf.Length && InMemory(fields, m)
    modifies buf
    ensures sized <==> EncodeMessage(fields, m).Encoded?
    ensures sized ==> size == |EncodeMessage(fields, m).bytes|
    ensures ok <==> sized && size <= limit
    ensures ok ==> used == size && EncodeMessage(fields, m) == Encoded(buf[..used])
    ensures forall k :: limit <= k < buf.Length ==> buf[k] == old(buf[k])
  {
    sized, size := PbGetEncodedSize(fields, m);
    var stream := new OStream.FromBuffer(buf, 0, limit);
    ok := PbEncode(stream, fields, m);
    used := stream.bytesWritten;
  }
}
