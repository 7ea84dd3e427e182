// The decoder: streams, loops and the iterator, proved against the meaning of decoding.
module Decoder {
  import opened Wire
  import opened InputStream
  import opened Messages
  import opened Decoding
  import opened FieldIter
  import opened RequiredFields

  // Descriptors whose fields all have distinct tags and are decoded by this code, without
  // callbacks or extensions, at every depth.
  ghost predicate Usable(fields: seq<Field>)
    decreases fields
  {
    && (forall i :: 0 <= i < |fields| ==> UsableField(fields[i]))
    && (forall i, j :: 0 <= i < j < |fields| ==> fields[i].tag != fields[j].tag)
  }

  ghost predicate UsableField(f: Field)
    decreases f
  {
    f.tag != 0 && !f.atype.Callback? && !f.ltype.Extension? && (f.ltype.Submessage? ==> Usable(f.sub))
  }

  // ---------- Field decoders ----------

  method DecBool(stream: IStream, f: Field) returns (ok: bool, v: Value)
    requires stream.Valid() && f.ltype.Bool?
    modifies stream
    ensures stream.Within()
    ensures ok <==> DecodeScalar(f, old(stream.Rest())).Got?
    ensures ok ==> DecodeScalar(f, old(stream.Rest())) == Got(v, stream.Rest())
  {
    var value;
    ok, value := stream.DecodeVarint32();
    v := Num(if value != 0 then 1 else 0);
  }

  method DecVarint(stream: IStream, f: Field) returns (ok: bool, v: Value)
    requires stream.Valid() && f.ltype.Varint?
    modifies stream
    ensures stream.Within()
    ensures ok <==> DecodeScalar(f, old(stream.Rest())).Got?
    ensures ok ==> DecodeScalar(f, old(stream.Rest())) == Got(v, stream.Rest())
  {
    var value;
    v := Num(0);
    ok, value := stream.DecodeVarint();
    if !ok { return; }
    var svalue;
    if f.dataSize == 8 {
      svalue := ToSigned(value);
    } else {
      var low := value % TWO_32;
      svalue := if low >= TWO_31 then low - TWO_32 else low;
    }
    v := Num(svalue);
    ok := SignedFits(f.dataSize, svalue);
  }

  method DecUvarint(stream: IStream, f: Field) returns (ok: bool, v: Value)
    requires stream.Valid() && f.ltype.UVarint?
    modifies stream
    ensures stream.Within()
    ensures ok <==> DecodeScalar(f, old(stream.Rest())).Got?
    ensures ok ==> DecodeScalar(f, old(stream.Rest())) == Got(v, stream.Rest())
  {
    var value;
    v := Num(0);
    ok, value := stream.DecodeVarint();
    if !ok { return; }
    v := Num(value);
    ok := UnsignedFits(f.dataSize, value);
  }

  method DecSvarint(stream: IStream, f: Field) returns (ok: bool, v: Value)
    requires stream.Valid() && f.ltype.SVarint?
    modifies stream
    ensures stream.Within()
    ensures ok <==> DecodeScalar(f, old(stream.Rest())).Got?
    ensures ok ==> DecodeScalar(f, old(stream.Rest())) == Got(v, stream.Rest())
  {
    var value;
    v := Num(0);
    ok, value := stream.DecodeSvarint();
    if !ok { return; }
    ZigZagBijection(value, 0);
    v := Num(value);
    ok := SignedFits(f.dataSize, value);
  }

  method DecFixed(stream: IStream, f: Field) returns (ok: bool, v: Value)
    requires stream.Valid() && (f.ltype.Fixed32? || f.ltype.Fixed64?)
    modifies stream
    ensures stream.Within()
    ensures ok <==> DecodeScalar(f, old(stream.Rest())).Got?
    ensures ok ==> DecodeScalar(f, old(stream.Rest())) == Got(v, stream.Rest())
  {
    var value;
    ok, value := stream.DecodeFixed(if f.ltype.Fixed32? then 4 else 8);
    v := Num(value);
  }

  method DecBytes(stream: IStream, f: Field) returns (ok: bool, v: Value)
    requires stream.Valid() && f.ltype.Bytes?
    modifies stream
    ensures stream.Within()
    ensures ok <==> DecodeScalar(f, old(stream.Rest())).Got?
    ensures ok ==> DecodeScalar(f, old(stream.Rest())) == Got(v, stream.Rest())
  {
    var size, bs;
    v := Text([]);
    ok, size := stream.DecodeVarint32();
    if !ok { return; }
    if size + BYTES_OFFSET > f.dataSize { return false, v; }
    ok, bs := stream.Read(size);
    v := Text(bs);
  }

  method DecString(stream: IStream, f: Field) returns (ok: bool, v: Value)
    requires stream.Valid() && f.ltype.String?
    modifies stream
    ensures stream.Within()
    ensures ok <==> DecodeScalar(f, old(stream.Rest())).Got?
    ensures ok ==> DecodeScalar(f, old(stream.Rest())) == Got(v, stream.Rest())
  {
    var size, bs;
    v := Text([]);
    ok, size := stream.DecodeVarint32();
    if !ok { return; }
    var allocSize := size + 1;   // space for the terminator
    if allocSize > f.dataSize { return false, v; }
    ok, bs := stream.Read(size);
    v := Text(bs);
  }

  method DecFixedLengthBytes(stream: IStream, f: Field) returns (ok: bool, v: Value)
    requires stream.Valid() && f.ltype.FixedLengthBytes?
    modifies stream
    ensures stream.Within()
    ensures ok <==> DecodeScalar(f, old(stream.Rest())).Got?
    ensures ok ==> DecodeScalar(f, old(stream.Rest())) == Got(v, stream.Rest())
  {
    var size, bs;
    v := Text([]);
    ok, size := stream.DecodeVarint32();
    if !ok { return; }
    if size == 0 { return true, Text(Zeros(f.dataSize)); }
    if size != f.dataSize { return false, v; }
    ok, bs := stream.Read(f.dataSize);
    v := Text(bs);
  }

  method DecScalar(stream: IStream, f: Field) returns (ok: bool, v: Value)
    requires stream.Valid() && !f.ltype.Submessage? && !f.ltype.Extension?
    modifies stream
    ensures stream.Within()
    ensures ok <==> DecodeScalar(f, old(stream.Rest())).Got?
    ensures ok ==> DecodeScalar(f, old(stream.Rest())) == Got(v, stream.Rest())
  {
    hide DecodeScalar;
    match f.ltype
    case Bool => ok, v := DecBool(stream, f);
    case Varint => ok, v := DecVarint(stream, f);
    case UVarint => ok, v := DecUvarint(stream, f);
    case SVarint => ok, v := DecSvarint(stream, f);
    case Fixed32 => ok, v := DecFixed(stream, f);
    case Fixed64 => ok, v := DecFixed(stream, f);
    case Bytes => ok, v := DecBytes(stream, f);
    case String => ok, v := DecString(stream, f);
    case FixedLengthBytes => ok, v := DecFixedLengthBytes(stream, f);
  }

  // pb_dec_submessage.  New array entries start from defaults; others are decoded into.
  method DecSubmessage(stream: IStream, f: Field, prior: Value) returns (ok: bool, v: Value)
    requires stream.Valid() && f.ltype.Submessage? && Usable(f.sub)
    modifies stream
    ensures stream.Inside() && (ok ==> stream.Within())
    ensures ok <==> DecodeValue(f, prior, old(stream.Rest())).Got?
    ensures ok ==> DecodeValue(f, prior, old(stream.Rest())) == Got(v, stream.Rest())
    decreases stream.bytesLeft, 1
  {
    hide DecodeNoinit, Usable, Delimited, Defaults;
    v := prior;
    DelimitedEnds(stream.Rest());
    ghost var bs := stream.Rest();
    var substream, msg, status;
    ok, substream := stream.MakeStringSubstream();
    if !ok { return; }
    var start := if f.htype.Repeated? then Defaults(f.sub) else OldMessage(prior);
    status, msg := PbDecodeNoinit(substream, f.sub, start);
    ok := stream.CloseStringSubstream(substream);
    if status { assert stream.Rest() == bs[|bs| - stream.bytesLeft..]; }
    ok, v := status, Record(msg);
  }

  lemma DelimitedEnds(bs: seq<Byte>)
    ensures Delimited(bs).Got? ==> Suffix(Delimited(bs).rest, bs)
  {
    if Delimited(bs).Got? { DelimitedExtends(bs, []); }
  }

  method DecValue(stream: IStream, f: Field, prior: Value) returns (ok: bool, v: Value)
    requires stream.Valid() && UsableField(f)
    modifies stream
    ensures stream.Inside() && (ok ==> stream.Within())
    ensures ok <==> DecodeValue(f, prior, old(stream.Rest())).Got?
    ensures ok ==> DecodeValue(f, prior, old(stream.Rest())) == Got(v, stream.Rest())
    decreases stream.bytesLeft, 2
  {
    if f.ltype.Submessage? { ok, v := DecSubmessage(stream, f, prior); } else { ok, v := DecScalar(stream, f); }
  }

  // ---------- Arrays ----------

  // A packed array: items until the substream is empty or the array is full.
  method DecodePackedArray(stream: IStream, f: Field, items: seq<Value>) returns (ok: bool, all: seq<Value>)
    requires stream.Valid() && UsableField(f) && Packable(f.ltype)
    modifies stream
    ensures stream.Inside() && (ok ==> stream.Within())
    ensures ok <==> DecodeItems(f, WtString, items, old(stream.Rest())).Got?
    ensures ok ==> DecodeItems(f, WtString, items, old(stream.Rest())) == Got(all, stream.Rest())
  {
    hide DecodeScalar, Delimited;
    DelimitedEnds(stream.Rest());
    ghost var bs := stream.Rest();
    var substream, v;
    all := items;
    ok, substream := stream.MakeStringSubstream();
    if !ok { return; }
    var status := true;
    ghost var payload := substream.Rest();
    ghost var end := substream.End();
    while status && substream.bytesLeft > 0 && |all| < f.arraySize
      invariant substream.Valid() && substream.End() == end && stream.Inside() && substream != stream
      invariant stream.bytesLeft == |Delimited(bs).rest|
      invariant status ==>
                  DecodePacked(f, f.arraySize, items, payload) == DecodePacked(f, f.arraySize, all, substream.Rest())
      invariant !status ==> DecodePacked(f, f.arraySize, items, payload) == Fail
      decreases status, substream.bytesLeft
    {
      status, v := DecScalar(substream, f);
      if status { all := all + [v]; }
    }
    if substream.bytesLeft != 0 {
      return false, all;
    }
    ok := stream.CloseStringSubstream(substream);
    assert stream.Rest() == bs[|bs| - stream.bytesLeft..];
    ok := status;
  }

  method DecodeArray(stream: IStream, f: Field, wt: WireType, items: seq<Value>) returns (ok: bool, all: seq<Value>)
    requires stream.Valid() && UsableField(f)
    modifies stream
    ensures stream.Inside() && (ok ==> stream.Within())
    ensures ok <==> DecodeItems(f, wt, items, old(stream.Rest())).Got?
    ensures ok ==> DecodeItems(f, wt, items, old(stream.Rest())) == Got(all, stream.Rest())
    decreases stream.bytesLeft, 3
  {
    hide DecodeValue, UsableField;
    all := items;
    if wt.WtString? && Packable(f.ltype) {
      ok, all := DecodePackedArray(stream, f, items);
    } else {
      if |items| >= f.arraySize { return false, all; }
      var v;
      ok, v := DecValue(stream, f, Num(0));
      all := items + [v];
    }
  }

  // decode_static_field for descriptor i, its bookkeeping done: count is the number of entries
  // of the fixed-count array being filled.
  method DecodeStaticField(stream: IStream, fields: seq<Field>, i: nat, wt: WireType,
      msg: Message, count: nat, ghost p: Progress)
    returns (ok: bool, result: Message, newCount: nat)
    requires stream.Valid() && Usable(fields) && i < |fields| && p.msg == msg
    requires RuleOf(fields[i]).FixedCount? ==> p.fixedField == i && p.fixedCount == count
    modifies stream
    ensures stream.Inside() && (ok ==> stream.Within())
    ensures ok <==> DecodeField(fields, i, wt, p, old(stream.Rest())).Got?
    ensures ok ==>
              DecodeField(fields, i, wt, p, old(stream.Rest()))
                == Got(After(fields, i, p, result, newCount), stream.Rest())
    ensures ok && !RuleOf(fields[i]).FixedCount? ==> newCount == count
    decreases stream.bytesLeft, 4
  {
    UsableAt(fields, i);
    hide DecodeValue, DecodeItems, Usable, UsableField, PriorValue, Overwrite;
    var f := fields[i];
    result, newCount := msg, count;
    if !f.atype.Static? || i >= |msg.slots| { return false, msg, count; }
    var s := msg.slots[i];
    if f.htype.Repeated? {
      var items;
      var all := ItemsOf(s);
      ok, items := DecodeArray(stream, f, wt, if f.sizeOffset == 0 then UpTo(all, count) else all);
      if f.sizeOffset == 0 {
        newCount := |items|;
        items := Overwrite(all, items);
      }
      result := msg.(slots := msg.slots[i := Many(items)]);
    } else {
      var v;
      ok, v := DecValue(stream, f, PriorValue(f, s, msg));
      match f.htype
      case Required => result := msg.(slots := msg.slots[i := One(v)]);
      case Optional => result := msg.(slots := msg.slots[i := if f.sizeOffset != 0 then Flagged(true, v) else One(v)]);
      case Oneof => result := msg.(unions := msg.unions[f.union := Union(f.tag, v)]);
    }
  }

  // Progress after field i was decoded to the given message and count.
  ghost function After(fields: seq<Field>, i: nat, p: Progress, msg: Message, count: nat): Progress
    requires i < |fields|
  {
    p.(msg := msg, seen := if fields[i].htype.Required? then p.seen + {i} else p.seen,
       fixedCount := if RuleOf(fields[i]).FixedCount? then count else p.fixedCount)
  }

  lemma UsableAt(fields: seq<Field>, i: nat)
    requires Usable(fields) && i < |fields|
    ensures UsableField(fields[i])
  {
  }

  // ---------- The message loop ----------

  // pSize is redirected only while the iterator stands on the fixed-count array being filled.
  ghost predicate Redirected(iter: FieldIterator, fixedField: int)
    reads iter
  {
    iter.Valid() && (iter.start != [] && iter.pSize == FixedCounter ==>
      fixedField == iter.pos && RuleOf(iter.start[iter.pos]).FixedCount?)
  }

  // The bookkeeping for fixed-count arrays before a field is decoded.
  method NoteFixedCount(iter: FieldIterator, fixedField: int, fixedCount: nat, ghost p: Progress)
    returns (ok: bool, newField: int, newCount: nat)
    requires Redirected(iter, fixedField) && iter.start != []
    requires p.fixedField == fixedField && p.fixedCount == fixedCount && -1 <= fixedField < |iter.start|
    modifies iter`pSize
    ensures Redirected(iter, newField) && -1 <= newField < |iter.start|
    ensures RuleOf(iter.start[iter.pos]).FixedCount? ==>
              (ok <==> FixedStart(iter.start, iter.pos, p).Got?)
              && (ok ==> FixedStart(iter.start, iter.pos, p).value == p.(fixedField := newField, fixedCount := newCount)
                         && newField == iter.pos)
    ensures !RuleOf(iter.start[iter.pos]).FixedCount? ==> ok && newField == fixedField && newCount == fixedCount
  {
    ok, newField, newCount := true, fixedField, fixedCount;
    var f := iter.start[iter.pos];
    if f.htype.Repeated? && iter.pSize == InStruct(iter.pData) {
      if fixedField != iter.pos {
        if fixedField != -1 && fixedCount != iter.start[fixedField].arraySize {
          ok := false;
          return;
        }
        newField, newCount := iter.pos, 0;
      }
      iter.pSize := FixedCounter;
    }
  }

  // A field the iterator has found: bookkeeping, then the field itself.
  method DecodeKnownField(stream: IStream, iter: FieldIterator, wt: WireType, msg: Message, fixedField: int,
                          fixedCount: nat, fieldsSeen: seq<Word>, ghost p: Progress)
    returns (ok: bool, newMsg: Message, newField: int, newCount: nat, newSeen: seq<Word>, ghost q: Progress)
    requires stream.Valid() && Redirected(iter, fixedField) && Usable(iter.start) && iter.start != []
    requires p == Progress(msg, p.seen, fixedField, fixedCount) && -1 <= fixedField < |iter.start|
    requires Records(iter.start, fieldsSeen, p.seen)
    modifies stream, iter`pSize
    ensures stream.Inside() && (ok ==> stream.Within())
    ensures iter.pos < |iter.start|
    ensures ok <==> DecodeField(iter.start, iter.pos, wt, p, old(stream.Rest())).Got?
    ensures ok ==> DecodeField(iter.start, iter.pos, wt, p, old(stream.Rest())) == Got(q, stream.Rest())
    ensures ok ==> q == Progress(newMsg, q.seen, newField, newCount) && -1 <= newField < |iter.start|
    ensures ok ==> Redirected(iter, newField) && Records(iter.start, newSeen, q.seen)
    decreases stream.bytesLeft, 5, 0
  {
    TwoWords(iter.start, fieldsSeen, p.seen);
    hide Usable, Records, DecodeField, FixedStart, SetBit;
    ghost var fields := iter.start;
    newMsg, newField, newCount, newSeen, q := msg, fixedField, fixedCount, fieldsSeen, p;
    ok, newField, newCount := NoteFixedCount(iter, fixedField, fixedCount, p);
    if !ok { FixedRefused(fields, iter.pos, wt, p, stream.Rest()); return; }
    ghost var p1 := p.(fixedField := newField, fixedCount := newCount);
    FixedAccepted(fields, iter.pos, wt, p, p1, stream.Rest());
    if iter.start[iter.pos].htype.Required? {
      SetBitRecords(fields, fieldsSeen, p.seen, iter.pos);
      if iter.requiredFieldIndex < MAX_REQUIRED { newSeen := SetBit(fieldsSeen, iter.requiredFieldIndex); }
    }
    ok, newMsg, newCount := DecodeStaticField(stream, iter.start, iter.pos, wt, msg, newCount, p1);
    q := After(fields, iter.pos, p1, newMsg, newCount);
  }

  // One field after its tag.
  method DecodeOneField(stream: IStream, iter: FieldIterator, tag: Tag, msg: Message, fixedField: int, fixedCount: nat,
                        fieldsSeen: seq<Word>, ghost p: Progress)
    returns (ok: bool, newMsg: Message, newField: int, newCount: nat, newSeen: seq<Word>, ghost q: Progress)
    requires stream.Valid() && Redirected(iter, fixedField) && Usable(iter.start) && tag.Tag?
    requires p == Progress(msg, p.seen, fixedField, fixedCount) && -1 <= fixedField < |iter.start|
    requires Records(iter.start, fieldsSeen, p.seen)
    modifies stream, iter
    ensures stream.Inside() && (ok ==> stream.Within() && stream.bytesLeft < old(stream.bytesLeft))
    ensures ok <==> DecodeOne(iter.start, tag.number, tag.wireType, p, old(stream.Rest())).Got?
    ensures ok ==> DecodeOne(iter.start, tag.number, tag.wireType, p, old(stream.Rest())) == Got(q, stream.Rest())
    ensures ok ==> q == Progress(newMsg, q.seen, newField, newCount) && -1 <= newField < |iter.start|
    ensures ok ==> Redirected(iter, newField) && Records(iter.start, newSeen, q.seen)
    decreases stream.bytesLeft, 5, 1
  {
    hide Usable, Records, DecodeField, Skip, FindField, RuleOf, Varint32;
    newMsg, newField, newCount, newSeen, q := msg, fixedField, fixedCount, fieldsSeen, p;
    var found := iter.Find(tag.number);
    FoundIs(iter.start, tag.number, iter.pos, found);
    if !found {
      ok := stream.SkipField(tag.wireType);
    } else if iter.start == [] {
      var ignored;
      ok, ignored := stream.DecodeVarint32();
    } else {
      ok, newMsg, newField, newCount, newSeen, q :=
        DecodeKnownField(stream, iter, tag.wireType, msg, fixedField, fixedCount, fieldsSeen, p);
    }
  }

  // With distinct tags, the iterator's search from anywhere finds the field with the tag.
  lemma FoundIs(fields: seq<Field>, tag: nat, pos: nat, found: bool)
    requires Usable(fields)
    requires fields == [] ==> (found <==> tag == 0)
    requires fields != [] ==> (found <==> exists i :: 0 <= i < |fields| && Matches(fields[i], tag))
    requires fields != [] && found ==> pos < |fields| && Matches(fields[pos], tag)
    ensures fields != [] && found ==> FindField(fields, tag) == pos
    ensures fields != [] && !found ==> FindField(fields, tag) == |fields|
    ensures fields == [] ==> FindField(fields, tag) == 0
  {
  }

  lemma FixedRefused(fields: seq<Field>, i: nat, wt: WireType, p: Progress, bs: seq<Byte>)
    requires i < |fields| && RuleOf(fields[i]).FixedCount? && FixedStart(fields, i, p).Fail?
    ensures DecodeField(fields, i, wt, p, bs) == Fail
  {
  }

  lemma FixedAccepted(fields: seq<Field>, i: nat, wt: WireType, p: Progress, q: Progress, bs: seq<Byte>)
    requires i < |fields|
    requires if RuleOf(fields[i]).FixedCount? then FixedStart(fields, i, p).Got? &&
        FixedStart(fields, i, p).value == q && q.fixedField == i
             else q == p
    ensures DecodeField(fields, i, wt, q, bs) == DecodeField(fields, i, wt, p, bs)
  {
  }

  // pb_decode_noinit
  method PbDecodeNoinit(stream: IStream, fields: seq<Field>, m: Message) returns (ok: bool, result: Message)
    requires stream.Valid() && Usable(fields)
    modifies stream
    ensures stream.Inside() && (ok ==> stream.Within())
    ensures ok <==> DecodeNoinit(fields, m, old(stream.Rest())).Got?
    ensures ok ==> DecodeNoinit(fields, m, old(stream.Rest())) == Got(result, stream.Rest())
    decreases stream.bytesLeft, 6
  {
    hide DecodeOne, Usable, Records, RequiredSeen, ParseTag;
    ghost var bs := stream.Rest();
    ghost var p := Progress(m, {}, -1, 0);
    ghost var stopped := false;
    var iter := new FieldIterator(fields);
    var fieldsSeen: seq<Word> := [NO_BITS, NO_BITS];
    var fixedField, fixedCount := -1, 0;
    NothingSeen(fields);
    result := m;
    while stream.bytesLeft != 0
      invariant stream.Inside() && stream.Within() && iter.start == fields && fresh(iter)
      invariant Redirected(iter, fixedField) && -1 <= fixedField < |fields|
      invariant p == Progress(result, p.seen, fixedField, fixedCount) && Records(fields, fieldsSeen, p.seen)
      invariant DecodeLoop(fields, Progress(m, {}, -1, 0), bs) == DecodeLoop(fields, p, stream.Rest())
      decreases stream.bytesLeft
    {
      ghost var before := stream.Rest();
      var tag, eof;
      ok, tag, eof := stream.DecodeTag();
      if !ok {
        if eof {
          stopped := true;
          break;
        }
        return;
      }
      ok, result, fixedField, fixedCount, fieldsSeen, p :=
        DecodeOneField(stream, iter, tag, result, fixedField, fixedCount, fieldsSeen, p);
      if !ok { return; }
    }
    assert DecodeLoop(fields, Progress(m, {}, -1, 0), bs) == Got(Reached(p, stopped), stream.Rest());
    if fixedField != -1 && fixedCount != fields[fixedField].arraySize {
      return false, result;
    }
    ok := CheckRequired(iter, fieldsSeen, p.seen);
  }

  // pb_message_set_to_defaults
  method SetToDefaults(fields: seq<Field>) returns (m: Message)
    ensures m == Defaults(fields)
    decreases fields
  {
    m := Message([], map[]);
    var iter := new FieldIterator(fields);
    var more := iter.Begin();
    ghost var i := 0;
    while more
      invariant iter.Valid() && iter.start == fields && fresh(iter) && i <= |fields|
      invariant if more then iter.pos == i < |fields| else i == |fields|
      invariant m == Defaults(fields[..i])
      decreases |fields| - i
    {
      var f := fields[iter.pos];
      var v := f.initial;
      if f.ltype.Submessage? {
        var sub := SetToDefaults(f.sub);
        v := Record(sub);
      }
      assert fields[..i + 1] == fields[..i] + [f];
      m := Message(m.slots + [DefaultSlot(f, v)],
                   if f.htype.Oneof? then m.unions[f.union := Union(0, Num(0))] else m.unions);
      i := i + 1;
      more := iter.Next();
    }
    assert fields[..|fields|] == fields;
  }

  // pb_decode
  method PbDecode(stream: IStream, fields: seq<Field>) returns (ok: bool, result: Message)
    requires stream.Valid() && Usable(fields)
    modifies stream
    ensures stream.Inside() && (ok ==> stream.Within())
    ensures ok <==> Decode(fields, old(stream.Rest())).Got?
    ensures ok ==> Decode(fields, old(stream.Rest())) == Got(result, stream.Rest())
  {
    var start := SetToDefaults(fields);
    ok, result := PbDecodeNoinit(stream, fields, start);
  }
}
