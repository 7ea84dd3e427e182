// A message through the encoder's code, a buffer and the decoder's code.
module EndToEnd {
  import opened Wire
  import opened InputStream
  import opened Messages
  import opened Decoding
  import opened RoundTrip
  import Encoder
  import Decoder

  lemma SoundUsable(fields: seq<Field>)
    requires Sound(fields)
    ensures Decoder.Usable(fields)
    decreases fields
  {
    forall i | 0 <= i < |fields| ensures Decoder.UsableField(fields[i]) {
      assert SoundField(fields[i]);
      if fields[i].ltype.Submessage? { SoundUsable(fields[i].sub); }
    }
  }

  lemma ValueFits(f: Field, v: Value)
    requires SoundField(f) && Fits(f, v)
    ensures Encoder.ValueInMemory(f, v)
    decreases f, 0
  {
    if f.ltype.Submessage? { MessageFits(f.sub, v.msg); }
  }

  lemma ItemsFit(f: Field, items: seq<Value>)
    requires SoundField(f) && FitsAll(f, items)
    ensures forall k :: 0 <= k < |items| ==> Encoder.ValueInMemory(f, items[k])
    ensures Packable(f.ltype) ==> Encoder.Countable(EncodePacked(f, items, |items|))
    decreases f, 1
  {
    forall k | 0 <= k < |items| ensures Encoder.ValueInMemory(f, items[k]) { ValueFits(f, items[k]); }
  }

  lemma SlotFits(f: Field, s: Slot, m: Message)
    requires SoundField(f) && FitsSlot(f, s, m)
    ensures Encoder.SlotInMemory(f, s, m)
    decreases f, 2
  {
    hide Fits, FitsAll, Encoder.ValueInMemory, Encoder.Countable;
    match RuleOf(f)
    case Always => ValueFits(f, s.v);
    case Implicit => ValueFits(f, s.v);
    case HasFlag => if s.has { ValueFits(f, s.v); }
    case Counted => ItemsFit(f, s.items);
    case FixedCount => ItemsFit(f, s.items);
    case InUnion => if UnionOf(m, f.union).which == f.tag { ValueFits(f, UnionOf(m, f.union).value); }
  }

  // A message that can be read back can be counted.
  lemma MessageFits(fields: seq<Field>, m: Message)
    requires Sound(fields) && FitsMessage(fields, m)
    ensures Encoder.InMemory(fields, m)
    decreases fields
  {
    forall i | 0 <= i < |fields| ensures Encoder.SlotInMemory(fields[i], m.slots[i], m) {
      assert SoundField(fields[i]) && FitsSlot(fields[i], m.slots[i], m);
      SlotFits(fields[i], m.slots[i], m);
    }
  }

  // Sizing, encoding into a buffer of that size and decoding always succeed, and give the message
  // back.
  method Transfer(fields: seq<Field>, m: Message) returns (ok: bool, result: Message)
    requires Sound(fields) && FitsMessage(fields, m)
    ensures ok && SameMessage(fields, m, result)
  {
    SoundUsable(fields);
    MessageFits(fields, m);
    MessageRoundTrip(fields, m);
    hide Sound, FitsMessage, SameMessage, Encoder.InMemory, Decoder.Usable, EncodeMessage, Decode;
    var sized, size := Encoder.PbGetEncodedSize(fields, m);
    var buf := new Byte[size](_ => 0);
    var used;
    var counted;
    ok, sized, counted, used := Encoder.EncodeIntoBuffer(buf, size, fields, m);
    var stream := new IStream(buf[..used]);
    ok, result := Decoder.PbDecode(stream, fields);
  }
}
