// The two-word bitmap of required fields, and the test after the message loop.
module RequiredFields {
  import opened Messages
  import opened Decoding
  import opened FieldIter

  // A 32-bit word, bit by bit.
  type Word = w: seq<bool> | |w| == 32 witness seq(32, i => false)

  const NO_BITS: Word := seq(32, i => false)
  const ALL_BITS: Word := seq(32, i => true)

  // The lowest n bits: all bits shifted right by 32 - n.
  function LowBits(n: nat): Word
    requires n <= 32
  {
    seq(32, i => i < n)
  }

  function BitAt(words: seq<Word>, k: nat): bool
    requires |words| == 2 && k < 64
  {
    words[k / 32][k % 32]
  }

  function SetBit(words: seq<Word>, k: nat): (r: seq<Word>)
    requires |words| == 2 && k < 64
    ensures |r| == 2
  {
    words[k / 32 := words[k / 32][k % 32 := true]]
  }

  // Bits record which required descriptors were seen; bits beyond the last one stay clear.
  ghost predicate Records(fields: seq<Field>, words: seq<Word>, seen: set<nat>) {
    && |words| == 2
    && (forall i :: 0 <= i < |fields| && fields[i].htype.Required? && RequiredBefore(fields, i) < 64 ==>
          (BitAt(words, RequiredBefore(fields, i)) <==> i in seen))
    && (forall k :: RequiredBefore(fields, |fields|) <= k < 64 ==> !BitAt(words, k))
  }

  lemma {:induction false} RequiredGrows(fields: seq<Field>, a: nat, b: nat)
    requires a <= b <= |fields|
    ensures RequiredBefore(fields, a) <= RequiredBefore(fields, b)
    ensures a < b && fields[a].htype.Required? ==> RequiredBefore(fields, a) < RequiredBefore(fields, b)
  {
    if a < b { RequiredGrows(fields, a, b - 1); }
  }

  // Every bit below the number of required fields belongs to one of them.
  lemma {:induction false} NthRequired(fields: seq<Field>, n: nat, k: nat) returns (i: nat)
    requires n <= |fields| && k < RequiredBefore(fields, n)
    ensures i < n && fields[i].htype.Required? && RequiredBefore(fields, i) == k
  {
    if k < RequiredBefore(fields, n - 1) { i := NthRequired(fields, n - 1, k); } else { i := n - 1; }
  }

  lemma SetBitAt(words: seq<Word>, k: nat)
    requires |words| == 2 && k < 64
    ensures forall j :: 0 <= j < 64 ==> (BitAt(SetBit(words, k), j) <==> j == k || BitAt(words, j))
  {
  }

  lemma SetBitRecords(fields: seq<Field>, words: seq<Word>, seen: set<nat>, i: nat)
    requires Records(fields, words, seen) && i < |fields| && fields[i].htype.Required?
    ensures RequiredBefore(fields, i) < 64 ==> Records(fields, SetBit(words, RequiredBefore(fields, i)), seen + {i})
    ensures RequiredBefore(fields, i) >= 64 ==> Records(fields, words, seen + {i})
  {
    hide BitAt, SetBit;
    if RequiredBefore(fields, i) < 64 { SetBitAt(words, RequiredBefore(fields, i)); }
    RequiredGrows(fields, i, |fields|);
    forall j | 0 <= j < |fields| && j != i && fields[j].htype.Required?
      ensures RequiredBefore(fields, j) != RequiredBefore(fields, i)
    {
      if j < i { RequiredGrows(fields, j, i); } else { RequiredGrows(fields, i, j); }
    }
  }

  lemma TwoWords(fields: seq<Field>, words: seq<Word>, seen: set<nat>)
    requires Records(fields, words, seen)
    ensures |words| == 2
  {
  }

  lemma NothingSeen(fields: seq<Field>)
    ensures Records(fields, [NO_BITS, NO_BITS], {})
  {
  }

  lemma AllSeen(fields: seq<Field>, words: seq<Word>, seen: set<nat>, count: nat)
    requires Records(fields, words, seen)
    requires count == if RequiredBefore(fields, |fields|) < 64 then RequiredBefore(fields, |fields|) else 64
    ensures (forall k :: 0 <= k < count ==> BitAt(words, k)) <==> RequiredSeen(fields, seen)
  {
    if RequiredSeen(fields, seen) {
      forall k | 0 <= k < count ensures BitAt(words, k) {
        var i := NthRequired(fields, |fields|, k);
      }
    }
    if forall k :: 0 <= k < count ==> BitAt(words, k) {
      forall i | 0 <= i < |fields| && fields[i].htype.Required? &&
          RequiredBefore(fields, i) < MAX_REQUIRED ensures i in seen {
        RequiredGrows(fields, i, |fields|);
        assert BitAt(words, RequiredBefore(fields, i));
      }
    }
  }

  lemma BitsOfWords(words: seq<Word>, k: nat)
    requires |words| == 2 && k < 64
    ensures BitAt(words, k) == if k < 32 then words[0][k] else words[1][k - 32]
  {
  }

  lemma WordTells(w: Word, n: nat)
    requires n <= 32 && forall b :: n <= b < 32 ==> !w[b]
    ensures (forall b :: 0 <= b < n ==> w[b]) <==> w == LowBits(n)
  {
    if forall b :: 0 <= b < n ==> w[b] {
      forall b | 0 <= b < 32 ensures w[b] == LowBits(n)[b] {}
    }
  }

  // Comparing whole words and then the remaining bits is comparing every bit.
  lemma WordsTell(words: seq<Word>, count: nat)
    requires |words| == 2 && count <= 64 && forall k :: count <= k < 64 ==> !BitAt(words, k)
    ensures (forall k :: 0 <= k < count ==> BitAt(words, k)) <==>
            && (forall i :: 0 <= i < count / 32 ==> words[i] == ALL_BITS)
            && (count % 32 != 0 ==> words[count / 32] == LowBits(count % 32))
  {
    hide BitAt;
    var low, high := if count < 32 then count else 32, if count < 32 then 0 else count - 32;
    forall k | 0 <= k < 64 ensures BitAt(words, k) == if k < 32 then words[0][k] else words[1][k - 32] {
      BitsOfWords(words, k);
    }
    forall b | high <= b < 32 ensures !words[1][b] { assert !BitAt(words, 32 + b); }
    forall b | low <= b < 32 ensures !words[0][b] { assert !BitAt(words, b); }
    WordTells(words[0], low);
    WordTells(words[1], high);
    assert LowBits(32) == ALL_BITS;
    assert (forall k :: 0 <= k < count ==> BitAt(words, k)) <==>
        words[0] == LowBits(low) && words[1] == LowBits(high) by {
      hide LowBits;
      if words[0] == LowBits(low) && words[1] == LowBits(high) {
        forall k | 0 <= k < count ensures BitAt(words, k) {}
      }
      if forall k :: 0 <= k < count ==> BitAt(words, k) {
        forall b | 0 <= b < low ensures words[0][b] { assert BitAt(words, b); }
        forall b | 0 <= b < high ensures words[1][b] { assert BitAt(words, 32 + b); }
      }
    }
    EmptyHigh(words[1], high);
    EmptyHigh(words[0], low);
    hide LowBits;
    CompareWords(words, count, low, high);
  }

  lemma EmptyHigh(w: Word, n: nat)
    requires n <= 32 && forall b :: n <= b < 32 ==> !w[b]
    ensures n == 0 ==> w == LowBits(0)
  {
  }

  lemma CompareWords(words: seq<Word>, count: nat, low: nat, high: nat)
    requires |words| == 2 && count <= 64 && LowBits(32) == ALL_BITS
    requires low == (if count < 32 then count else 32) && high == (if count < 32 then 0 else count - 32)
    requires high == 0 ==> words[1] == LowBits(0)
    requires low == 0 ==> words[0] == LowBits(0)
    ensures words[0] == LowBits(low) && words[1] == LowBits(high) <==>
            && (forall i :: 0 <= i < count / 32 ==> words[i] == ALL_BITS)
            && (count % 32 != 0 ==> words[count / 32] == LowBits(count % 32))
  {
    hide LowBits;
    if count < 32 {
      assert count / 32 == 0 && count % 32 == count;
    } else if count < 64 {
      assert count / 32 == 1 && count % 32 == count - 32;
    } else {
      assert count / 32 == 2 && count % 32 == 0;
    }
  }

  // After the message loop: recover the number of required fields by walking the iterator to the
  // end from wherever it stopped, then test the bitmap.
  method CheckRequired(iter: FieldIterator, fieldsSeen: seq<Word>, ghost seen: set<nat>) returns (ok: bool)
    requires iter.Valid() && Records(iter.start, fieldsSeen, seen)
    modifies iter
    ensures ok <==> RequiredSeen(iter.start, seen)
  {
    ghost var fields := iter.start;
    var reqFieldCount := 0;
    var lastRequired := false;
    var more := true;
    while more
      invariant iter.Valid()
      invariant !more ==> reqFieldCount == (if fields == [] then 0 else RequiredBefore(fields, |fields| - 1))
      invariant !more && fields != [] ==> (lastRequired <==> fields[|fields| - 1].htype.Required?)
      decreases more, |fields| - iter.pos
    {
      reqFieldCount := iter.requiredFieldIndex;
      lastRequired := iter.start != [] && iter.start[iter.pos].htype.Required?;
      more := iter.Next();
    }
    if lastRequired && iter.start != [] {
      reqFieldCount := reqFieldCount + 1;
    }
    assert reqFieldCount == RequiredBefore(fields, |fields|);
    if reqFieldCount > MAX_REQUIRED {
      reqFieldCount := MAX_REQUIRED;
    }
    AllSeen(fields, fieldsSeen, seen, reqFieldCount);
    WordsTell(fieldsSeen, reqFieldCount);
    hide RequiredSeen, BitAt, RequiredBefore, Records;
    ok := true;
    var i := 0;
    while i < reqFieldCount / 32
      invariant 0 <= i <= reqFieldCount / 32
      invariant forall j :: 0 <= j < i ==> fieldsSeen[j] == ALL_BITS
    {
      if fieldsSeen[i] != ALL_BITS { return false; }
      i := i + 1;
    }
    if reqFieldCount % 32 != 0 && fieldsSeen[reqFieldCount / 32] != LowBits(reqFieldCount % 32) {
      return false;
    }
  }
}
