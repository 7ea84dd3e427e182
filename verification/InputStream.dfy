// Input streams over a byte buffer: reading, varints, tags, skipping and substreams.
module InputStream {
  import opened Wire

  datatype WireType = WtVarint | Wt64Bit | WtString | Wt32Bit | WtInvalid(code: nat)

  function ToWireType(code: nat): WireType {
    match code
    case 0 => WtVarint
    case 1 => Wt64Bit
    case 2 => WtString
    case 5 => Wt32Bit
    case _ => WtInvalid(code)
  }

  // ---------- What the reading functions mean ----------

  // Parsers hand back the end of what they were given.
  ghost predicate Suffix(r: seq<Byte>, bs: seq<Byte>) {
    |r| <= |bs| && r == bs[|bs| - |r|..]
  }

  datatype Tag = EndMark | Tag(number: nat, wireType: WireType)

  // pb_decode_tag on a stream that is not empty; a zero tag ends the message.
  function ParseTag(bs: seq<Byte>): (r: Parse<Tag>)
    ensures r.Got? ==> |r.rest| < |bs|
  {
    match Varint32(bs)
    case Fail => Fail
    case Got(v, rest) => Got(if v == 0 then EndMark else Tag(v / 8, ToWireType(v % 8)), rest)
  }

  function Take(bs: seq<Byte>, n: nat): Parse<seq<Byte>> {
    if |bs| < n then Fail else Got(bs[..n], bs[n..])
  }

  // A length-delimited record: prefix, then that many bytes.
  function Delimited(bs: seq<Byte>): (r: Parse<seq<Byte>>)
    ensures r.Got? ==> |r.value| + |r.rest| < |bs|
  {
    match Varint32(bs)
    case Fail => Fail
    case Got(n, rest) => Take(rest, n)
  }

  // Everything after the payload of a field of the given wire type.
  function Skip(wt: WireType, bs: seq<Byte>): (r: Parse<()>)
    ensures r.Got? ==> |r.rest| < |bs|
  {
    match wt
    case WtVarint => if VarintLength(bs) == 0 then Fail else Got((), bs[VarintLength(bs)..])
    case Wt64Bit => if |bs| < 8 then Fail else Got((), bs[8..])
    case WtString => (match Delimited(bs) case Fail => Fail case Got(_, rest) => Got((), rest))
    case Wt32Bit => if |bs| < 4 then Fail else Got((), bs[4..])
    case WtInvalid(_) => Fail
  }

  // ---------- The stream ----------

  class IStream {
    const data: seq<Byte>
    var state: nat
    var bytesLeft: nat

    ghost predicate Valid()
      reads this
    {
      state + bytesLeft <= |data|
    }

    // The bytes this stream may still deliver.
    ghost function Rest(): (r: seq<Byte>)
      requires Valid()
      reads this
      ensures |r| == bytesLeft
    {
      data[state..state + bytesLeft]
    }

    // Where the stream ends in its buffer.
    ghost function End(): nat
      reads this
    {
      state + bytesLeft
    }

    // Reading n bytes moved the stream on by exactly these.
    twostate predicate Moved(n: nat)
      reads this
    {
      && old(Valid()) && Valid() && n <= old(bytesLeft)
      && state == old(state) + n && bytesLeft == old(bytesLeft) - n
    }

    // However decoding goes, the stream never reaches past its end.
    twostate predicate Inside()
      reads this
    {
      old(Valid()) && Valid() && End() <= old(End()) && bytesLeft <= old(bytesLeft)
    }

    // It ends where it ended.
    twostate predicate Within()
      reads this
    {
      old(Valid()) && Valid() && End() == old(End()) && bytesLeft <= old(bytesLeft)
    }

    constructor (buf: seq<Byte>)
      ensures data == buf && Valid() && Rest() == buf && state == 0
    {
      data := buf;
      state := 0;
      bytesLeft := |buf|;
    }

    constructor Slice(buf: seq<Byte>, start: nat, size: nat)
      requires start + size <= |buf|
      ensures data == buf && state == start && bytesLeft == size && Valid() && Rest() == buf[start..start + size]
    {
      data := buf;
      state := start;
      bytesLeft := size;
    }

    method Read(count: nat) returns (ok: bool, bs: seq<Byte>)
      requires Valid()
      modifies this
      ensures ok <==> count <= old(bytesLeft)
      ensures ok ==> Moved(count) && bs == old(Rest())[..count] && Rest() == old(Rest())[count..]
      ensures !ok ==> state == old(state) && bytesLeft == old(bytesLeft)
    {
      bs := [];
      if count == 0 { return true, []; }
      if bytesLeft < count { return false, []; }
      ok := true;
      bs := data[state..state + count];
      state := state + count;
      bytesLeft := bytesLeft - count;
    }

    method ReadByte() returns (ok: bool, b: Byte)
      requires Valid()
      modifies this
      ensures ok <==> old(bytesLeft) > 0
      ensures ok ==> Moved(1) && b == old(Rest())[0]
      ensures !ok ==> state == old(state) && bytesLeft == old(bytesLeft)
    {
      if bytesLeft == 0 { return false, 0; }
      ok, b := true, data[state];
      state := state + 1;
      bytesLeft := bytesLeft - 1;
    }

    // pb_decode_varint
    method DecodeVarint() returns (ok: bool, value: nat)
      requires Valid()
      modifies this
      ensures Within()
      ensures ok <==> Varint64(old(Rest())).Got?
      ensures ok ==> Varint64(old(Rest())) == Got(value, Rest())
    {
      ghost var bs := Rest();
      var bitpos := 0;
      var scale := 1;
      var result := 0;
      ghost var i := 0;
      value := 0;
      var more := true;
      while more
        invariant Within() && i <= |bs| && state == old(state) + i && bytesLeft == |bs| - i
        invariant bitpos == 7 * i && scale == Pow128(i) && result == Raw(bs, i)
        invariant more ==> forall k :: 0 <= k < i ==> bs[k] >= 128
        invariant !more ==> 0 < i <= 10 && bs[i - 1] < 128 && forall k :: 0 <= k < i - 1 ==> bs[k] >= 128
        decreases more, bytesLeft
      {
        if bitpos >= 64 { TooLong(bs, i); return false, 0; }
        var byte;
        ok, byte := ReadByte();
        if !ok { return; }
        assert byte == bs[i];
        result := result + byte % 128 * scale;
        scale := 128 * scale;
        bitpos := bitpos + 7;
        i := i + 1;
        more := byte >= 128;
      }
      LengthUnique(bs, i);
      ok, value := true, result % TWO_64;
    }

    // pb_decode_varint32_eof.  The shift of the code drops bits above the 32nd.
    method DecodeVarint32Eof() returns (ok: bool, value: nat, eof: bool)
      requires Valid()
      modifies this
      ensures Within()
      ensures ok <==> Varint32(old(Rest())).Got?
      ensures ok ==> Varint32(old(Rest())) == Got(value, Rest()) && value < TWO_32 && bytesLeft < old(bytesLeft)
      ensures eof <==> old(bytesLeft) == 0
    {
      hide Varint32, FitsIn32, VarintLength, Raw, Pow128, Trailing;
      ghost var bs := Rest();
      value := 0;
      eof := false;
      var byte;
      ok, byte := ReadByte();
      if !ok { RanOut(bs); return false, 0, true; }
      FirstGroup(bs);
      if byte < 128 { return true, byte, false; }
      var bitpos := 7;
      var scale: nat := 128;
      var result: nat := byte % 128;
      ghost var i := 1;
      var more := true;
      while more
        invariant Within() && 1 <= i <= |bs| && state == old(state) + i && bytesLeft == |bs| - i
        invariant bitpos == 7 * i && (i <= 5 ==> scale == Pow128(i))
        invariant result == Raw(bs, if i < 5 then i else 5) % TWO_32
        invariant forall k :: 5 <= k < i ==> Trailing(bs, k)
        invariant forall k :: 0 <= k < i - 1 ==> bs[k] >= 128
        invariant more <==> bs[i - 1] >= 128
        invariant i == 1 ==> more
        invariant byte == bs[i - 1]
        decreases more, bytesLeft
      {
        ok, byte := ReadByte();
        if !ok { RanOut(bs); return; }
        assert byte == bs[i];
        if bitpos >= 32 {
          var signExtension := if bitpos < 63 then 0xFF else 0x01;
          if byte % 128 != 0 && (result < TWO_31 || byte != signExtension) {
            NotTrailing(bs, i);
            return false, 0, false;
          }
          IsTrailing(bs, i);
        } else {
          result := (result + byte % 128 * scale) % TWO_32;
          NextGroup(bs, i);
          scale := 128 * scale;
        }
        bitpos := bitpos + 7;
        i := i + 1;
        more := byte >= 128;
      }
      LastGroup(bs, i);
      if bitpos == 35 && byte / 16 % 8 != 0 {
        return false, 0, false;
      }
      ok, value := true, result;
    }

    method DecodeVarint32() returns (ok: bool, value: nat)
      requires Valid()
      modifies this
      ensures Within()
      ensures ok <==> Varint32(old(Rest())).Got?
      ensures ok ==> Varint32(old(Rest())) == Got(value, Rest()) && value < TWO_32 && bytesLeft < old(bytesLeft)
    {
      var eof;
      ok, value, eof := DecodeVarint32Eof();
    }

    // pb_decode_svarint
    method DecodeSvarint() returns (ok: bool, value: int)
      requires Valid()
      modifies this
      ensures Within()
      ensures ok <==> Varint64(old(Rest())).Got?
      ensures ok ==> -TWO_63 <= value < TWO_63 && Varint64(old(Rest())) == Got(ZigZag(value), Rest())
    {
      var u;
      value := 0;
      ok, u := DecodeVarint();
      if ok {
        ZigZagBijection(0, u);
        value := UnZigZag(u);
      }
    }

    // pb_decode_fixed32 and pb_decode_fixed64
    method DecodeFixed(width: nat) returns (ok: bool, value: nat)
      requires Valid() && (width == 4 || width == 8)
      modifies this
      ensures Within()
      ensures ok <==> Take(old(Rest()), width).Got?
      ensures ok ==> value == FromLittleEndian(old(Rest())[..width]) && Rest() == old(Rest())[width..]
    {
      var bytes;
      value := 0;
      ok, bytes := Read(width);
      if !ok { return; }
      var i := width;
      while i > 0
        invariant 0 <= i <= width && |bytes| == width
        invariant value == FromLittleEndian(bytes[i..])
      {
        i := i - 1;
        assert bytes[i..][1..] == bytes[i + 1..];
        value := bytes[i] + 256 * value;
      }
      assert bytes[0..] == bytes;
    }

    method SkipVarint() returns (ok: bool)
      requires Valid()
      modifies this
      ensures Within()
      ensures ok <==> Skip(WtVarint, old(Rest())).Got?
      ensures ok ==> Skip(WtVarint, old(Rest())) == Got((), Rest())
    {
      ghost var bs := Rest();
      ghost var i := 0;
      var more := true;
      while more
        invariant Within() && i <= |bs| && state == old(state) + i && bytesLeft == |bs| - i
        invariant more ==> forall k :: 0 <= k < i ==> bs[k] >= 128
        invariant !more ==> 0 < i && bs[i - 1] < 128 && forall k :: 0 <= k < i - 1 ==> bs[k] >= 128
        decreases more, bytesLeft
      {
        var b;
        ok, b := Read(1);
        if !ok { return; }
        assert b[0] == bs[i];
        i := i + 1;
        more := b[0] >= 128;
      }
      LengthUnique(bs, i);
      ok := true;
    }

    // Decodes the length and splits off a stream over that many bytes.
    method MakeStringSubstream() returns (ok: bool, substream: IStream)
      requires Valid()
      modifies this
      ensures Inside() && substream.Valid() && (!ok ==> Within())
      ensures ok <==> Delimited(old(Rest())).Got?
      ensures ok ==> fresh(substream) && substream.data == data
      ensures ok ==> substream.Rest() == Delimited(old(Rest())).value && bytesLeft == |Delimited(old(Rest())).rest|
      ensures ok ==> substream.End() + bytesLeft == old(End()) && substream.bytesLeft < old(bytesLeft)
    {
      var size;
      ok, size := DecodeVarint32();
      substream := this;
      if !ok { return; }
      if bytesLeft < size { return false, this; }
      substream := new IStream.Slice(data, state, size);
      bytesLeft := bytesLeft - size;
    }

    // Skips what the substream did not read; the parent goes on right after the record.
    method CloseStringSubstream(substream: IStream) returns (ok: bool)
      requires Valid() && substream.Valid() && substream != this && substream.data == data
      requires substream.End() + bytesLeft <= |data|
      modifies this, substream
      ensures ok && Valid() && state == old(substream.End()) && bytesLeft == old(bytesLeft)
    {
      ok := true;
      if substream.bytesLeft != 0 {
        var skipped;
        ok, skipped := substream.Read(substream.bytesLeft);
      }
      state := substream.state;
    }

    method SkipString() returns (ok: bool)
      requires Valid()
      modifies this
      ensures Within()
      ensures ok <==> Skip(WtString, old(Rest())).Got?
      ensures ok ==> Skip(WtString, old(Rest())) == Got((), Rest())
    {
      var length, skipped;
      ok, length := DecodeVarint32();
      if !ok { return; }
      ok, skipped := Read(length);
    }

    // pb_decode_tag, on a stream that may be at its end.
    method DecodeTag() returns (ok: bool, tag: Tag, eof: bool)
      requires Valid()
      modifies this
      ensures Within()
      ensures ok ==> ParseTag(old(Rest())) == Got(tag, Rest()) && tag.Tag? && bytesLeft < old(bytesLeft) && !eof
      ensures !ok && eof ==> old(bytesLeft) == 0 || ParseTag(old(Rest())) == Got(EndMark, Rest())
      ensures !ok && !eof ==> ParseTag(old(Rest())) == Fail
    {
      var temp;
      tag := EndMark;
      ok, temp, eof := DecodeVarint32Eof();
      if !ok { return; }
      if temp == 0 { return false, EndMark, true; }
      tag := Tag(temp / 8, ToWireType(temp % 8));
    }

    // pb_skip_field consumes exactly the payload the wire type announces.
    method SkipField(wt: WireType) returns (ok: bool)
      requires Valid()
      modifies this
      ensures Within()
      ensures ok <==> Skip(wt, old(Rest())).Got?
      ensures ok ==> Skip(wt, old(Rest())) == Got((), Rest())
    {
      var skipped;
      match wt
      case WtVarint => ok := SkipVarint();
      case Wt64Bit => ok, skipped := Read(8);
      case WtString => ok := SkipString();
      case Wt32Bit => ok, skipped := Read(4);
      case WtInvalid(_) => ok := false;
    }
  }

  // ---------- Parsers give back a suffix, and ignore what follows the part they use ----------

  lemma SuffixTrans(a: seq<Byte>, b: seq<Byte>, c: seq<Byte>)
    requires Suffix(a, b) && Suffix(b, c)
    ensures Suffix(a, c)
  {
  }

  lemma {:induction false} LengthExtends(a: seq<Byte>, b: seq<Byte>)
    requires VarintLength(a) > 0
    ensures VarintLength(a + b) == VarintLength(a)
  {
    LengthUnique(a + b, VarintLength(a));
  }

  lemma Varint64Extends(a: seq<Byte>, b: seq<Byte>)
    requires Varint64(a).Got?
    ensures Varint64(a + b) == Got(Varint64(a).value, Varint64(a).rest + b)
    ensures Suffix(Varint64(a).rest, a) && |Varint64(a).rest| < |a|
  {
    var n := VarintLength(a);
    LengthExtends(a, b);
    RawPrefix(a, a + b, n);
    assert (a + b)[n..] == a[n..] + b;
  }

  lemma Varint32Extends(a: seq<Byte>, b: seq<Byte>)
    requires Varint32(a).Got?
    ensures Varint32(a + b) == Got(Varint32(a).value, Varint32(a).rest + b)
    ensures Suffix(Varint32(a).rest, a) && |Varint32(a).rest| < |a|
  {
    var n := VarintLength(a);
    LengthExtends(a, b);
    if n >= 5 { RawPrefix(a, a + b, 5); } else { RawPrefix(a, a + b, n); }
    forall i | 5 <= i < n ensures Trailing(a + b, i) { assert Trailing(a, i); }
    assert (a + b)[n..] == a[n..] + b;
  }

  lemma TagExtends(a: seq<Byte>, b: seq<Byte>)
    requires ParseTag(a).Got?
    ensures ParseTag(a + b) == Got(ParseTag(a).value, ParseTag(a).rest + b)
    ensures Suffix(ParseTag(a).rest, a) && |ParseTag(a).rest| < |a|
  {
    Varint32Extends(a, b);
  }

  lemma TakeExtends(a: seq<Byte>, b: seq<Byte>, n: nat)
    requires Take(a, n).Got?
    ensures Take(a + b, n) == Got(Take(a, n).value, Take(a, n).rest + b)
    ensures Suffix(Take(a, n).rest, a)
  {
    assert (a + b)[..n] == a[..n] && (a + b)[n..] == a[n..] + b;
  }

  lemma DelimitedExtends(a: seq<Byte>, b: seq<Byte>)
    requires Delimited(a).Got?
    ensures Delimited(a + b) == Got(Delimited(a).value, Delimited(a).rest + b)
    ensures Suffix(Delimited(a).rest, a) && |Delimited(a).value| + |Delimited(a).rest| < |a|
  {
    Varint32Extends(a, b);
    TakeExtends(Varint32(a).rest, b, Varint32(a).value);
    SuffixTrans(Delimited(a).rest, Varint32(a).rest, a);
  }

  lemma SkipExtends(wt: WireType, a: seq<Byte>, b: seq<Byte>)
    requires Skip(wt, a).Got?
    ensures Skip(wt, a + b) == Got((), Skip(wt, a).rest + b)
    ensures Suffix(Skip(wt, a).rest, a)
  {
    match wt
    case WtVarint => LengthExtends(a, b);
    case WtString => DelimitedExtends(a, b);
    case Wt64Bit => assert (a + b)[8..] == a[8..] + b;
    case Wt32Bit => assert (a + b)[4..] == a[4..] + b;
    case WtInvalid(_) =>
  }

  lemma FirstGroup(bs: seq<Byte>)
    requires |bs| >= 1
    ensures Raw(bs, 1) == bs[0] % 128 && Pow128(1) == 128
    ensures bs[0] < 128 ==> Varint32(bs) == Got(bs[0], bs[1..])
  {
    assert Raw(bs, 1) == Raw(bs, 0) + bs[0] % 128 * Pow128(0);
    if bs[0] < 128 { LengthUnique(bs, 1); }
  }

  lemma RanOut(bs: seq<Byte>)
    requires forall k :: 0 <= k < |bs| ==> bs[k] >= 128
    ensures Varint32(bs) == Fail
  {
  }

  lemma IsTrailing(bs: seq<Byte>, i: nat)
    requires 5 <= i < |bs|
    requires bs[i] % 128 == 0 || (Raw(bs, 5) % TWO_32 >= TWO_31 && bs[i] == if i < 9 then 0xFF else 0x01)
    ensures Trailing(bs, i)
  {
  }

  lemma LastGroup(bs: seq<Byte>, i: nat)
    requires 1 < i <= |bs| && bs[i - 1] < 128 && forall k :: 0 <= k < i - 1 ==> bs[k] >= 128
    requires forall k :: 5 <= k < i ==> Trailing(bs, k)
    ensures Varint32(bs) == if i == 5 && bs[4] / 16 % 8 != 0 then Fail
                            else Got(Raw(bs, if i < 5 then i else 5) % TWO_32, bs[i..])
  {
    LengthUnique(bs, i);
  }

  lemma ReducedSum(a: nat, b: nat)
    ensures (a % TWO_32 + b) % TWO_32 == (a + b) % TWO_32
  {
  }

  lemma NextGroup(bs: seq<Byte>, i: nat)
    requires i < |bs|
    ensures (Raw(bs, i) % TWO_32 + bs[i] % 128 * Pow128(i)) % TWO_32 == Raw(bs, i + 1) % TWO_32
    ensures Pow128(i + 1) == 128 * Pow128(i)
  {
    var more: nat := bs[i] % 128 * Pow128(i);
    assert Raw(bs, i + 1) == Raw(bs, i) + more;
    ReducedSum(Raw(bs, i), more);
  }

  lemma NotTrailing(bs: seq<Byte>, i: nat)
    requires 5 <= i < |bs| && forall k :: 0 <= k < i ==> bs[k] >= 128
    requires !(bs[i] % 128 == 0 || (Raw(bs, 5) % TWO_32 >= TWO_31 && bs[i] == if i < 9 then 0xFF else 0x01))
    ensures Varint32(bs) == Fail
  {
    assert !Trailing(bs, i);
  }

  lemma TooLong(bs: seq<Byte>, i: nat)
    requires 10 <= i <= |bs| && forall k :: 0 <= k < i ==> bs[k] >= 128
    ensures VarintLength(bs) == 0 || VarintLength(bs) > 10
  {
  }
}
