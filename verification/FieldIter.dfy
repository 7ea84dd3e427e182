// The cyclic field iterator: where each field lives in the struct, and searching by tag.
module FieldIter {
  import opened Messages
  import opened Decoding

  // PB_SIZE_MAX marks a field that shares the place of the union member before it.
  const PB_SIZE_MAX := 0xFFFF_FFFF
  const SIZEOF_POINTER := 8

  predicate SharesPlace(fields: seq<Field>, i: nat)
    requires i < |fields|
  {
    i > 0 && fields[i - 1].htype.Oneof? && fields[i].htype.Oneof? && fields[i].dataOffset == PB_SIZE_MAX
  }

  // Bytes a field takes in the struct.
  function Footprint(f: Field): nat {
    if f.atype.Static? && f.htype.Repeated? then f.dataSize * f.arraySize
    else if f.atype.Pointer? then SIZEOF_POINTER
    else f.dataSize
  }

  // Offset of field i's data, and of its size, has_ or which_ member.
  function DataAt(fields: seq<Field>, i: nat): int
    requires i < |fields|
  {
    if i == 0 then fields[0].dataOffset
    else if SharesPlace(fields, i) then DataAt(fields, i - 1)
    else DataAt(fields, i - 1) + Footprint(fields[i - 1]) + fields[i].dataOffset
  }

  function SizeAt(fields: seq<Field>, i: nat): int
    requires i < |fields|
  {
    if SharesPlace(fields, i) then SizeAt(fields, i - 1) else DataAt(fields, i) + fields[i].sizeOffset
  }

  // ---------- Fields do not overlap ----------

  // The first field after i that has a place of its own.
  function NextPlace(fields: seq<Field>, i: nat): (k: nat)
    requires i < |fields|
    ensures i < k <= |fields| && (k < |fields| ==> !SharesPlace(fields, k))
    ensures forall x :: i < x < k ==> SharesPlace(fields, x)
    decreases |fields| - i
  {
    if i + 1 < |fields| && SharesPlace(fields, i + 1) then NextPlace(fields, i + 1) else i + 1
  }

  lemma {:induction false} PlacesRise(fields: seq<Field>, i: nat, j: nat)
    requires i <= j < |fields|
    ensures DataAt(fields, i) <= DataAt(fields, j)
    ensures j < NextPlace(fields, i) ==> DataAt(fields, i) == DataAt(fields, j)
  {
    if i < j { PlacesRise(fields, i, j - 1); }
  }

  // Data of fields that do not share a place is disjoint, the earlier one first, if and only if
  // the earlier one fits before the next place.  It always does outside a oneof; in a oneof the
  // generator's offset of the next field must make up for members larger than the last.
  lemma FieldsApart(fields: seq<Field>, i: nat)
    requires i < |fields|
    ensures var k := NextPlace(fields, i);
      && (forall j :: i <= j < k ==> DataAt(fields, j) == DataAt(fields, i))
      && ((forall j :: k <= j < |fields| ==> DataAt(fields, i) + Footprint(fields[i]) <= DataAt(fields, j)) <==>
          (k < |fields| ==> Footprint(fields[i]) <= Footprint(fields[k - 1]) + fields[k].dataOffset))
      && (!fields[i].htype.Oneof? ==>
            forall j :: i < j < |fields| ==> DataAt(fields, i) + Footprint(fields[i]) <= DataAt(fields, j))
  {
    var k := NextPlace(fields, i);
    forall j | i <= j < |fields|
      ensures DataAt(fields, i) <= DataAt(fields, j) && (j < k ==> DataAt(fields, j) == DataAt(fields, i))
    {
      PlacesRise(fields, i, j);
    }
    if k < |fields| {
      assert DataAt(fields, k) == DataAt(fields, i) + Footprint(fields[k - 1]) + fields[k].dataOffset;
      forall j | k <= j < |fields| ensures DataAt(fields, k) <= DataAt(fields, j) { PlacesRise(fields, k, j); }
    }
  }

  // Where pSize points: into the struct, or at the decoder's own counter for a fixed-count array.
  datatype Place = InStruct(offset: int) | FixedCounter

  predicate Matches(f: Field, tag: nat) {
    f.tag == tag && !f.ltype.Extension?
  }

  // d positions after from, going around.
  function Around(from: nat, d: nat, n: nat): (i: nat)
    requires from < n && d <= n
    ensures i < n
  {
    if from + d < n then from + d else from + d - n
  }

  class FieldIterator {
    const start: seq<Field>
    var pos: nat
    var requiredFieldIndex: nat
    var pData: int
    var pSize: Place

    // Everything but pSize depends on pos alone; so does pSize, unless the decoder has pointed
    // it at its counter.
    ghost predicate Valid()
      reads this
    {
      if start == [] then pos == 0 && requiredFieldIndex == 0
      else
        && pos < |start|
        && requiredFieldIndex == RequiredBefore(start, pos)
        && pData == DataAt(start, pos)
        && (pSize == InStruct(SizeAt(start, pos)) || (pSize == FixedCounter && start[pos].htype.Repeated?))
    }

    ghost predicate AtRest()
      reads this
    {
      Valid() && (start != [] ==> pSize == InStruct(SizeAt(start, pos)))
    }

    constructor (fields: seq<Field>)
      ensures start == fields && pos == 0 && AtRest()
    {
      start := fields;
      pos := 0;
      requiredFieldIndex := 0;
      pData := if fields == [] then 0 else fields[0].dataOffset;
      pSize := InStruct(if fields == [] then 0 else fields[0].dataOffset + fields[0].sizeOffset);
    }

    method Begin() returns (any: bool)
      modifies this
      ensures AtRest() && pos == 0 && (any <==> start != [])
    {
      pos := 0;
      requiredFieldIndex := 0;
      pData := if start == [] then 0 else start[0].dataOffset;
      pSize := InStruct(if start == [] then 0 else pData + start[0].sizeOffset);
      any := start != [];
    }

    // One position on, cyclically; false when it wrapped.  A redirected pSize is undone.
    method Next() returns (more: bool)
      requires Valid()
      modifies this
      ensures Valid() && (start != [] ==> AtRest())
      ensures start == [] ==> !more && pos == old(pos) && pSize == old(pSize)
      ensures start != [] ==> pos == Around(old(pos), 1, |start|) && (more <==> old(pos) + 1 < |start|)
    {
      if start == [] { return false; }
      var prev := start[pos];
      pos := pos + 1;
      if pos == |start| {
        var any := Begin();
        return false;
      }
      var prevSize := prev.dataSize;
      if prev.htype.Oneof? && start[pos].htype.Oneof? && start[pos].dataOffset == PB_SIZE_MAX {
        return true;
      } else if prev.atype.Static? && prev.htype.Repeated? {
        prevSize := prevSize * prev.arraySize;
      } else if prev.atype.Pointer? {
        prevSize := SIZEOF_POINTER;
      }
      if prev.htype.Required? {
        requiredFieldIndex := requiredFieldIndex + 1;
      }
      pData := pData + prevSize + start[pos].dataOffset;
      pSize := InStruct(pData + start[pos].sizeOffset);
      more := true;
    }

    // Searches from the current position, at most once around.  An empty message type stands on
    // its terminator, which has tag zero.
    method Find(tag: nat) returns (found: bool)
      requires Valid()
      modifies this
      ensures Valid()
      ensures start == [] ==> (found <==> tag == 0) && pos == old(pos)
      ensures start != [] ==> (found <==> exists i :: 0 <= i < |start| && Matches(start[i], tag))
      ensures start != [] && found ==> Matches(start[pos], tag)
      ensures start != [] && !found ==> pos == old(pos) && AtRest()
      ensures found && pos == old(pos) ==> pSize == old(pSize)
      ensures found && start != [] && pos != old(pos) ==> AtRest()
    {
      if start == [] {
        return tag == 0;
      }
      var from := pos;
      ghost var n := |start|;
      ghost var d := 0;
      while true
        invariant Valid() && 0 <= d < n && pos == Around(from, d, n)
        invariant d == 0 ==> pSize == old(pSize)
        invariant d > 0 ==> AtRest()
        invariant forall e :: 0 <= e < d ==> !Matches(start[Around(from, e, n)], tag)
        decreases n - d
      {
        if start[pos].tag == tag && !start[pos].ltype.Extension? {
          return true;
        }
        var more := Next();
        d := d + 1;
        if pos == from { break; }
      }
      forall i | 0 <= i < n ensures !Matches(start[i], tag) {
        assert Around(from, if i >= from then i - from else i + n - from, n) == i;
      }
      found := false;
    }
  }
}
