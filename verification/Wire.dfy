// The Protocol Buffers wire format's integers: base-128 varints, zigzag and fixed-width
// little-endian values, and what the two varint decoders make of them.
module Wire {
  type Byte = b: int | 0 <= b < 256

  const TWO_31 := 0x8000_0000
  const TWO_32 := 0x1_0000_0000
  const TWO_63 := 0x8000_0000_0000_0000
  const TWO_64 := 0x1_0000_0000_0000_0000

  // A successful parse and the bytes after it, or a failure.
  datatype Parse<T> = Fail | Got(value: T, rest: seq<Byte>)

  function Pow128(n: nat): (p: nat)
    ensures p > 0
  {
    if n == 0 then 1 else 128 * Pow128(n - 1)
  }

  // ---------- Base 128 varints ----------

  function EncodeVarint(v: nat): (bs: seq<Byte>)
    ensures bs != []
  {
    if v < 128 then [v] else [v % 128 + 128] + EncodeVarint(v / 128)
  }

  // The first n groups of seven bits, least significant first.
  function Raw(bs: seq<Byte>, n: nat): nat
    requires n <= |bs|
  {
    if n == 0 then 0 else Raw(bs, n - 1) + bs[n - 1] % 128 * Pow128(n - 1)
  }

  // Length of the varint at the front: up to and including the first byte below 128.
  // Zero when there is no such byte.
  function VarintLength(bs: seq<Byte>): (n: nat)
    ensures n <= |bs|
    ensures n > 0 ==> bs[n - 1] < 128 && forall i :: 0 <= i < n - 1 ==> bs[i] >= 128
    ensures n == 0 ==> forall i :: 0 <= i < |bs| ==> bs[i] >= 128
  {
    LengthFrom(bs, 0)
  }

  function LengthFrom(bs: seq<Byte>, i: nat): (n: nat)
    requires i <= |bs|
    ensures n <= |bs|
    ensures n > 0 ==> i < n && bs[n - 1] < 128 && forall k :: i <= k < n - 1 ==> bs[k] >= 128
    ensures n == 0 ==> forall k :: i <= k < |bs| ==> bs[k] >= 128
    decreases |bs| - i
  {
    if i == |bs| then 0 else if bs[i] < 128 then i + 1 else LengthFrom(bs, i + 1)
  }

  lemma LengthUnique(bs: seq<Byte>, n: nat)
    requires 0 < n <= |bs| && bs[n - 1] < 128 && forall i :: 0 <= i < n - 1 ==> bs[i] >= 128
    ensures VarintLength(bs) == n
  {
    var m := VarintLength(bs);
  }

  // pb_decode_varint: at most ten bytes, the sum taken modulo 2^64.
  function Varint64(bs: seq<Byte>): (r: Parse<nat>)
    ensures r.Got? ==> |r.rest| < |bs| && r.value < TWO_64
  {
    var n := VarintLength(bs);
    if n == 0 || n > 10 then Fail else Got(Raw(bs, n) % TWO_64, bs[n..])
  }

  // pb_decode_varint32: five bytes carry the value.  Bytes after them must be empty groups, or
  // the sign extension of a negative number.
  predicate FitsIn32(bs: seq<Byte>, n: nat)
    requires n <= |bs|
  {
    && (n == 5 ==> bs[4] < 16)
    && forall i :: 5 <= i < n ==> Trailing(bs, i)
  }

  predicate Trailing(bs: seq<Byte>, i: nat)
    requires 5 <= i < |bs|
  {
    bs[i] % 128 == 0 || (Raw(bs, 5) % TWO_32 >= TWO_31 && bs[i] == if i < 9 then 0xFF else 0x01)
  }

  function Varint32(bs: seq<Byte>): (r: Parse<nat>)
    ensures r.Got? ==> |r.rest| < |bs| && r.value < TWO_32
  {
    var n := VarintLength(bs);
    if n == 0 || !FitsIn32(bs, n) then Fail
    else Got(Raw(bs, if n < 5 then n else 5) % TWO_32, bs[n..])
  }

  // ---------- Reading back what was written ----------

  lemma {:induction false} RawPrefix(a: seq<Byte>, b: seq<Byte>, n: nat)
    requires n <= |a| && n <= |b| && forall i :: 0 <= i < n ==> a[i] == b[i]
    ensures Raw(a, n) == Raw(b, n)
  {
    if n > 0 { RawPrefix(a, b, n - 1); }
  }

  lemma {:induction false} RawCons(b: Byte, bs: seq<Byte>, n: nat)
    requires n <= |bs|
    ensures Raw([b] + bs, n + 1) == b % 128 + 128 * Raw(bs, n)
  {
    var all := [b] + bs;
    if n == 0 {
      assert Raw(all, 1) == Raw(all, 0) + all[0] % 128 * Pow128(0);
    } else {
      RawCons(b, bs, n - 1);
      assert all[n] == bs[n - 1];
      var g, p := bs[n - 1] % 128, Pow128(n - 1);
      assert g * (128 * p) == 128 * (g * p);
    }
  }

  lemma {:induction false} EncodedRaw(v: nat)
    ensures Raw(EncodeVarint(v), |EncodeVarint(v)|) == v
    ensures forall i :: 0 <= i < |EncodeVarint(v)| - 1 ==> EncodeVarint(v)[i] >= 128
    ensures EncodeVarint(v)[|EncodeVarint(v)| - 1] < 128
  {
    if v < 128 {
      assert Raw([v], 1) == Raw([v], 0) + v % 128 * Pow128(0);
    } else {
      EncodedRaw(v / 128);
      RawCons(v % 128 + 128, EncodeVarint(v / 128), |EncodeVarint(v / 128)|);
    }
  }

  lemma {:induction false} EncodedLength(v: nat, k: nat)
    requires k > 0 && v < Pow128(k)
    ensures |EncodeVarint(v)| <= k
  {
    if v >= 128 {
      EncodedLength(v / 128, k - 1);
    }
  }

  lemma TenGroups()
    ensures Pow128(5) == 128 * 0x1000_0000 && Pow128(10) == 64 * TWO_64
  {
    assert Pow128(2) == 0x4000;
    assert Pow128(4) == 128 * (128 * Pow128(2)) == 0x1000_0000;
    assert Pow128(6) == 128 * (128 * Pow128(4));
    assert Pow128(8) == 128 * (128 * Pow128(6));
    assert Pow128(10) == 128 * (128 * Pow128(8));
  }

  // A varint in front of anything is found whole.
  lemma EncodedInFront(v: nat, tail: seq<Byte>)
    ensures var bs := EncodeVarint(v) + tail; var n := |EncodeVarint(v)|;
      VarintLength(bs) == n && Raw(bs, n) == v && bs[n..] == tail
  {
    var e := EncodeVarint(v);
    var bs := e + tail;
    EncodedRaw(v);
    RawPrefix(e, bs, |e|);
    LengthUnique(bs, |e|);
  }

  // pb_decode_varint inverts pb_encode_varint on every 64-bit value, whatever follows.
  lemma VarintRoundTrip(v: nat, tail: seq<Byte>)
    requires v < TWO_64
    ensures 1 <= |EncodeVarint(v)| <= 10
    ensures Varint64(EncodeVarint(v) + tail) == Got(v, tail)
  {
    TenGroups();
    EncodedLength(v, 10);
    EncodedInFront(v, tail);
  }

  // Ten bytes are the limit: a varint that has not ended by then, or that the data cuts short, is
  // refused; any other is the sum of its groups, cut to 64 bits.
  lemma VarintRead(bs: seq<Byte>, n: nat)
    requires n <= |bs| && forall i :: 0 <= i < n ==> bs[i] >= 128
    ensures n >= 10 || n == |bs| ==> Varint64(bs) == Fail
    ensures n < 10 && n < |bs| && bs[n] < 128 ==> Varint64(bs) == Got(Raw(bs, n + 1) % TWO_64, bs[n + 1..])
  {
    if n < |bs| && bs[n] < 128 { LengthUnique(bs, n + 1); }
  }

  // And pb_decode_varint32 on every 32-bit value.
  lemma Varint32RoundTrip(v: nat, tail: seq<Byte>)
    requires v < TWO_32
    ensures Varint32(EncodeVarint(v) + tail) == Got(v, tail)
  {
    EncodedInFront(v, tail);
    TenGroups();
    EncodedLength(v, 5);
    SmallAccepted(EncodeVarint(v) + tail);
  }

  // ---------- The 32-bit decoder against the 64-bit one ----------

  lemma {:induction false} RawHigh(bs: seq<Byte>, n: nat) returns (q: nat)
    requires 5 <= n <= |bs|
    ensures Raw(bs, n) == Raw(bs, 5) + q * Pow128(5)
  {
    if n == 5 {
      q := 0;
    } else {
      var p := RawHigh(bs, n - 1);
      PowSplit(n - 6);
      q := p + bs[n - 1] % 128 * Pow128(n - 6);
      assert n - 1 == n - 6 + 5;
      var g, a, b := bs[n - 1] % 128, Pow128(n - 6), Pow128(5);
      assert g * (a * b) == g * a * b;
    }
  }

  lemma {:induction false} PowSplit(k: nat)
    ensures Pow128(k + 5) == Pow128(k) * Pow128(5)
  {
    if k > 0 { PowSplit(k - 1); }
  }

  // On varints of at most ten bytes the 32-bit decoder, when it succeeds, gives the 64-bit
  // decoder's value modulo 2^32 and stops at the same byte.
  lemma Varint32Agrees(bs: seq<Byte>)
    requires VarintLength(bs) <= 10 && Varint32(bs).Got?
    ensures Varint64(bs).Got? && Varint64(bs).rest == Varint32(bs).rest
    ensures Varint64(bs).value % TWO_32 == Varint32(bs).value
  {
    var n := VarintLength(bs);
    ModMod(Raw(bs, n));
    if n > 5 {
      var q := RawHigh(bs, n);
      TenGroups();
      assert q * Pow128(5) == (8 * q) * TWO_32;
      ModAdd(Raw(bs, 5), 8 * q);
    }
  }

  lemma ModMod(x: nat)
    ensures x % TWO_64 % TWO_32 == x % TWO_32
  {
    var q := x / TWO_64;
    assert x == x % TWO_64 + (q * TWO_32) * TWO_32;
    ModAdd(x % TWO_64, q * TWO_32);
  }

  lemma ModAdd(x: nat, k: nat)
    ensures (x + k * TWO_32) % TWO_32 == x % TWO_32
  {
  }

  // It accepts every varint of at most ten bytes whose groups sum to less than 2^32 ...
  lemma SmallAccepted(bs: seq<Byte>)
    requires 0 < VarintLength(bs) <= 10 && Raw(bs, VarintLength(bs)) < TWO_32
    ensures Varint32(bs) == Got(Raw(bs, VarintLength(bs)), bs[VarintLength(bs)..])
  {
    var n := VarintLength(bs);
    TenGroups();
    if n == 5 {
      assert Raw(bs, 5) == Raw(bs, 4) + bs[4] % 128 * Pow128(4);
      assert Pow128(5) == 128 * Pow128(4);
    } else if n > 5 {
      HighGroupsZero(bs, n);
    }
  }

  lemma {:induction false} HighGroupsZero(bs: seq<Byte>, n: nat)
    requires 5 <= n <= |bs| && Raw(bs, n) < TWO_32
    ensures forall i :: 5 <= i < n ==> bs[i] % 128 == 0
    ensures Raw(bs, n) == Raw(bs, 5)
  {
    if n > 5 {
      TenGroups();
      var g: nat, p := bs[n - 1] % 128, Pow128(n - 1);
      PowMonotone(5, n - 1);
      if g > 0 { MulMonotone(1, g, p); }
      HighGroupsZero(bs, n - 1);
    }
  }

  // ... and every one that sums to 2^64 - k for 1 <= k <= 2^31: a sign-extended negative number.
  lemma NegativeAccepted(bs: seq<Byte>, k: nat)
    requires 0 < VarintLength(bs) <= 10 && 1 <= k <= TWO_31 && Raw(bs, VarintLength(bs)) == TWO_64 - k
    ensures Varint32(bs) == Got(TWO_32 - k, bs[VarintLength(bs)..])
  {
    var n := VarintLength(bs);
    NegativeIsLong(bs, k);
    RawBelow(bs, 5);
    TenGroups();
    FiveMore(bs);
    var d5: int, d6: int, d7: int, d8: int, d9: int :=
      bs[5] % 128, bs[6] % 128, bs[7] % 128, bs[8] % 128, bs[9] % 128;
    var high: int := d5 + 128 * d6 + 0x4000 * d7 + 0x20_0000 * d8 + 0x1000_0000 * d9;
    assert Raw(bs, 10) == Raw(bs, 5) + high * Pow128(5);
    assert high == 0x1FFF_FFFF;
    assert d9 == 1 && d8 == 127 && d7 == 127 && d6 == 127 && d5 == 127;
    assert Raw(bs, 5) == 128 * 0x1000_0000 - k;
    assert (128 * 0x1000_0000 - k) % TWO_32 == TWO_32 - k;
  }

  lemma NegativeIsLong(bs: seq<Byte>, k: nat)
    requires 0 < VarintLength(bs) <= 10 && 1 <= k <= TWO_31 && Raw(bs, VarintLength(bs)) == TWO_64 - k
    ensures VarintLength(bs) == 10
  {
    var n := VarintLength(bs);
    RawBelow(bs, n);
    TenGroups();
    assert Pow128(10) == 128 * Pow128(9);
    if n < 10 { PowMonotone(n, 9); }
  }

  lemma FiveMore(bs: seq<Byte>)
    requires |bs| >= 10
    ensures Raw(bs, 10) == Raw(bs, 5) + (bs[5] % 128 + 128 * (bs[6] % 128) + 0x4000 * (bs[7] % 128)
                             + 0x20_0000 * (bs[8] % 128) + 0x1000_0000 * (bs[9] % 128)) * Pow128(5)
  {
    var p := Pow128(5);
    assert Pow128(6) == 128 * p && Pow128(7) == 0x4000 * p && Pow128(8) == 0x20_0000 * p &&
        Pow128(9) == 0x1000_0000 * p;
    assert Raw(bs, 6) == Raw(bs, 5) + bs[5] % 128 * p;
    assert Raw(bs, 7) == Raw(bs, 6) + bs[6] % 128 * (128 * p);
    assert Raw(bs, 8) == Raw(bs, 7) + bs[7] % 128 * (0x4000 * p);
    assert Raw(bs, 9) == Raw(bs, 8) + bs[8] % 128 * (0x20_0000 * p);
    assert Raw(bs, 10) == Raw(bs, 9) + bs[9] % 128 * (0x1000_0000 * p);
  }

  lemma {:induction false} RawBelow(bs: seq<Byte>, n: nat)
    requires n <= |bs|
    ensures Raw(bs, n) < Pow128(n)
  {
    if n > 0 {
      RawBelow(bs, n - 1);
      MulMonotone(bs[n - 1] % 128, 127, Pow128(n - 1));
    }
  }

  lemma MulMonotone(a: nat, b: nat, p: nat)
    requires a <= b
    ensures a * p <= b * p
  {
  }

  lemma {:induction false} PowMonotone(a: nat, b: nat)
    requires a <= b
    ensures Pow128(a) <= Pow128(b)
  {
    if a < b { PowMonotone(a, b - 1); }
  }

  // The bits a tenth byte has beyond the 64th are lost by the 64-bit decoder but refused by the
  // 32-bit one, so a value below 2^32 alone does not make an encoding acceptable.
  lemma OverlongRefused()
    ensures var bs: seq<Byte> := [0x80, 0x80, 0x80, 0x80, 0x80, 0x80, 0x80, 0x80, 0x80, 0x02];
      Varint64(bs) == Got(0, []) && Varint32(bs) == Fail
  {
    var bs: seq<Byte> := [0x80, 0x80, 0x80, 0x80, 0x80, 0x80, 0x80, 0x80, 0x80, 0x02];
    LengthUnique(bs, 10);
    TenGroups();
    FiveMore(bs);
    assert Raw(bs, 1) == 0 && Raw(bs, 2) == 0 && Raw(bs, 3) == 0 && Raw(bs, 4) == 0 && Raw(bs, 5) == 0;
    assert Raw(bs, 10) == 2 * 0x1000_0000 * Pow128(5) == TWO_64;
    assert !Trailing(bs, 9);
  }

  // Exactly when a value of at most ten bytes that the 64-bit decoder reads as an unsigned
  // 32-bit number or as a negative 32-bit number gets past the 32-bit decoder.
  lemma NarrowAccepted(bs: seq<Byte>)
    requires 0 < VarintLength(bs) <= 10
    requires Varint64(bs).value < TWO_32 || Varint64(bs).value >= TWO_64 - TWO_31
    ensures Varint32(bs).Got? <==> VarintLength(bs) < 10 || bs[9] <= 1
  {
    var n := VarintLength(bs);
    if n < 10 || bs[9] <= 1 {
      WithinSixtyFour(bs);
      if Raw(bs, n) < TWO_32 { SmallAccepted(bs); } else { NegativeAccepted(bs, TWO_64 - Raw(bs, n)); }
    } else {
      assert !Trailing(bs, 9);
    }
  }

  lemma WithinSixtyFour(bs: seq<Byte>)
    requires 0 < VarintLength(bs) <= 10 && (VarintLength(bs) < 10 || bs[9] <= 1)
    ensures Raw(bs, VarintLength(bs)) < TWO_64
  {
    var n := VarintLength(bs);
    TenGroups();
    assert Pow128(10) == 128 * Pow128(9);
    if n < 10 {
      RawBelow(bs, n);
      PowMonotone(n, 9);
    } else {
      RawBelow(bs, 9);
      assert Raw(bs, 10) == Raw(bs, 9) + bs[9] % 128 * Pow128(9);
      MulMonotone(bs[9] % 128, 1, Pow128(9));
    }
  }

  // ---------- Zigzag ----------

  // The unsigned 64-bit pattern of a signed value, and back.
  function ToUnsigned(v: int): nat
    requires -TWO_63 <= v < TWO_63
  {
    if v < 0 then v + TWO_64 else v
  }

  function ToSigned(u: nat): int
    requires u < TWO_64
  {
    if u >= TWO_63 then u - TWO_64 else u
  }

  // pb_encode_svarint: shift left by one, complement when negative.
  function ZigZag(v: int): (u: nat)
    requires -TWO_63 <= v < TWO_63
    ensures u < TWO_64
  {
    var shifted := 2 * ToUnsigned(v) % TWO_64;
    if v < 0 then TWO_64 - 1 - shifted else shifted
  }

  // pb_decode_svarint: shift right by one, complement when odd.
  function UnZigZag(u: nat): (v: int)
    requires u < TWO_64
    ensures -TWO_63 <= v < TWO_63
  {
    if u % 2 == 1 then ToSigned(TWO_64 - 1 - u / 2) else ToSigned(u / 2)
  }

  lemma ZigZagBijection(v: int, u: nat)
    requires -TWO_63 <= v < TWO_63 && u < TWO_64
    ensures UnZigZag(ZigZag(v)) == v && ZigZag(UnZigZag(u)) == u
    ensures ZigZag(v) == if v < 0 then -2 * v - 1 else 2 * v
  {
  }

  // ---------- Fixed-width values ----------

  function LittleEndian(v: nat, n: nat): (bs: seq<Byte>)
    ensures |bs| == n
  {
    if n == 0 then [] else [v % 256] + LittleEndian(v / 256, n - 1)
  }

  function FromLittleEndian(bs: seq<Byte>): nat {
    if bs == [] then 0 else bs[0] + 256 * FromLittleEndian(bs[1..])
  }

  function Pow256(n: nat): nat {
    if n == 0 then 1 else 256 * Pow256(n - 1)
  }

  lemma {:induction false} FixedRoundTrip(v: nat, n: nat)
    requires v < Pow256(n)
    ensures FromLittleEndian(LittleEndian(v, n)) == v
  {
    if n > 0 {
      FixedRoundTrip(v / 256, n - 1);
      assert LittleEndian(v, n)[1..] == LittleEndian(v / 256, n - 1);
    }
  }

  lemma FixedWidths()
    ensures Pow256(4) == TWO_32 && Pow256(8) == TWO_64
  {
    assert Pow256(2) == 0x1_0000;
    assert Pow256(4) == 256 * (256 * Pow256(2));
    assert Pow256(6) == 256 * (256 * Pow256(4));
    assert Pow256(8) == 256 * (256 * Pow256(6));
  }
}
