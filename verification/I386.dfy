/** The i386 convention expands a padding-free struct of direct 32- and 64-bit scalars into its fields. */
module I386 {
  import opened Options
  import opened CTypes

  const POINTER_SIZE := 4

  type Byte = b: nat | b < 256

  /** The part a directly passed field becomes. */
  function Direct(t: CType): Option<CAbiType> {
    match t
    case Int(bytes, _) => if bytes == 4 || bytes == 8 then Some(AInt(bytes)) else None
    case Float => Some(AFloat)
    case Double => Some(ADouble)
    case Pointer => Some(APointer)
    case _ => None
  }

  predicate AllDirect(fields: seq<Field>) {
    forall i | 0 <= i < |fields| :: Direct(fields[i].ty).Some?
  }

  function Covered(fields: seq<Field>): nat {
    if fields == [] then 0 else Covered(fields[..|fields| - 1]) + Size(fields[|fields| - 1].ty, POINTER_SIZE)
  }

  method ExpandedFields(layout: CAggregate) returns (r: Option<seq<Part>>)
    ensures r.Some? <==> layout.size <= 16 && AllDirect(layout.fields) && Covered(layout.fields) == layout.size
    ensures r.Some? ==> r.value == PartsOf(layout.fields)
  {
    if layout.size > 16 {
      return None;
    }
    var parts: seq<Part> := [];
    var covered := 0;
    for i := 0 to |layout.fields|
      invariant AllDirect(layout.fields[..i])
      invariant covered == Covered(layout.fields[..i]) && parts == PartsOf(layout.fields[..i])
    {
      var field := layout.fields[i];
      assert layout.fields[..i + 1][..i] == layout.fields[..i];
      if Direct(field.ty).None? {
        return None;
      }
      covered := covered + Size(field.ty, POINTER_SIZE);
      parts := parts + [Part(field.offset, Direct(field.ty).value)];
    }
    assert layout.fields[..|layout.fields|] == layout.fields;
    r := if covered == layout.size then Some(parts) else None;
  }

  function PartsOf(fields: seq<Field>): seq<Part>
    requires AllDirect(fields)
  {
    if fields == [] then [] else
    var last := fields[|fields| - 1];
    PartsOf(fields[..|fields| - 1]) + [Part(last.offset, Direct(last.ty).value)]
  }

  /** Stack bytes a part occupies; every width here is a whole number of stack words. */
  function StackSize(t: CAbiType): nat {
    match t
    case AInt(bytes) => bytes
    case AFloat => 4
    case APointer => POINTER_SIZE
    case _ => 8
  }

  /** The stack image of an expanded aggregate whose memory is `mem`: its parts, one after the other. */
  ghost function Image(parts: seq<Part>, mem: seq<Byte>): seq<Byte>
    requires Placeable(parts, mem)
  {
    if parts == [] then [] else Image(parts[..|parts| - 1], mem) + Bytes(parts[|parts| - 1], mem)
  }

  ghost function Bytes(part: Part, mem: seq<Byte>): seq<Byte>
    requires PartEnd(part) <= |mem|
  {
    mem[part.offset..PartEnd(part)]
  }

  function PartEnd(part: Part): (end: nat)
    ensures part.offset <= end
  {
    part.offset + StackSize(part.ty)
  }

  ghost predicate Placeable(parts: seq<Part>, mem: seq<Byte>) {
    forall i | 0 <= i < |parts| :: PartEnd(parts[i]) <= |mem|
  }

  lemma {:induction false} PartsOfFields(fields: seq<Field>)
    requires AllDirect(fields)
    ensures |PartsOf(fields)| == |fields|
    ensures forall i | 0 <= i < |fields| ::
      && PartsOf(fields)[i].offset == fields[i].offset
      && StackSize(PartsOf(fields)[i].ty) == Size(fields[i].ty, POINTER_SIZE)
  {
    if fields != [] {
      PartsOfFields(fields[..|fields| - 1]);
    }
  }

  /** Disjoint ascending fields cannot start before the bytes of their predecessors. */
  lemma {:induction false} StartsAfterCovered(fields: seq<Field>, size: nat, k: nat)
    requires FieldsLaid(fields, size, POINTER_SIZE) && k <= |fields|
    ensures k < |fields| ==> Covered(fields[..k]) <= fields[k].offset
    ensures k > 0 ==> Covered(fields[..k]) <= fields[k - 1].offset + Size(fields[k - 1].ty, POINTER_SIZE)
    ensures Covered(fields[..k]) <= size
  {
    if k > 0 {
      StartsAfterCovered(fields, size, k - 1);
      assert fields[..k][..k - 1] == fields[..k - 1];
      assert FieldLaid(fields[k - 1], size, POINTER_SIZE);
    }
  }

  /** What is left after the first `k` fields fits between the end of field `k - 1` and the end of the aggregate. */
  lemma {:induction false} EndsBeforeRest(fields: seq<Field>, size: nat, k: nat)
    requires FieldsLaid(fields, size, POINTER_SIZE) && 0 < k <= |fields|
    ensures fields[k - 1].offset + Size(fields[k - 1].ty, POINTER_SIZE) + Covered(fields) - Covered(fields[..k]) <= size
    decreases |fields| - k
  {
    if k == |fields| {
      assert fields[..k] == fields && FieldLaid(fields[k - 1], size, POINTER_SIZE);
    } else {
      EndsBeforeRest(fields, size, k + 1);
      assert fields[..k + 1][..k] == fields[..k];
    }
  }

  /** Without padding every field sits right behind its predecessors. */
  lemma {:induction false} OffsetsAreSums(fields: seq<Field>, size: nat, k: nat)
    requires FieldsLaid(fields, size, POINTER_SIZE) && k < |fields| && Covered(fields) == size
    ensures fields[k].offset == Covered(fields[..k])
  {
    StartsAfterCovered(fields, size, k);
    EndsBeforeRest(fields, size, k + 1);
    assert fields[..k + 1][..k] == fields[..k];
  }

  lemma {:induction false} PartsArePlaceable(fields: seq<Field>, size: nat, mem: seq<Byte>)
    requires FieldsLaid(fields, size, POINTER_SIZE) && AllDirect(fields) && |mem| == size
    ensures Placeable(PartsOf(fields), mem)
  {
    PartsOfFields(fields);
    var parts := PartsOf(fields);
    forall i | 0 <= i < |parts| ensures PartEnd(parts[i]) <= |mem| {
      assert FieldLaid(fields[i], size, POINTER_SIZE);
    }
  }

  lemma {:induction false} ImageLength(fields: seq<Field>, mem: seq<Byte>)
    requires AllDirect(fields) && Placeable(PartsOf(fields), mem)
    ensures |Image(PartsOf(fields), mem)| == Covered(fields)
  {
    if fields != [] {
      var parts, init := PartsOf(fields), fields[..|fields| - 1];
      assert parts[..|parts| - 1] == PartsOf(init);
      ImageLength(init, mem);
      assert StackSize(parts[|parts| - 1].ty) == Size(fields[|fields| - 1].ty, POINTER_SIZE);
    }
  }

  ghost predicate Consecutive(fields: seq<Field>) {
    forall k | 0 <= k < |fields| :: fields[k].offset == Covered(fields[..k])
  }

  lemma {:induction false} JoinedSlices(mem: seq<Byte>, a: nat, b: nat)
    requires a <= b <= |mem|
    ensures mem[..a] + mem[a..b] == mem[..b]
  {
  }

  lemma {:induction false} ImageOfConsecutive(fields: seq<Field>, mem: seq<Byte>)
    requires AllDirect(fields) && Placeable(PartsOf(fields), mem) && Consecutive(fields)
    ensures Covered(fields) <= |mem| && Image(PartsOf(fields), mem) == mem[..Covered(fields)]
  {
    if fields != [] {
      var parts, init, last := PartsOf(fields), fields[..|fields| - 1], fields[|fields| - 1];
      assert parts[..|parts| - 1] == PartsOf(init);
      assert forall k | 0 <= k < |init| :: init[..k] == fields[..k];
      ImageOfConsecutive(init, mem);
      var p := parts[|parts| - 1];
      assert p == Part(last.offset, Direct(last.ty).value);
      assert PartEnd(p) == Covered(fields);
      JoinedSlices(mem, Covered(init), Covered(fields));
    }
  }

  /** Expanding a laid-out struct of direct fields gives the byte-for-byte stack image of passing it in memory, if and
      only if the fields leave no padding. */
  lemma {:induction false} ExpandedImageIsMemoryImage(layout: CAggregate, mem: seq<Byte>)
    requires FieldsLaid(layout.fields, layout.size, POINTER_SIZE) && AllDirect(layout.fields)
    requires |mem| == layout.size
    ensures Placeable(PartsOf(layout.fields), mem)
    ensures Image(PartsOf(layout.fields), mem) == mem <==> Covered(layout.fields) == layout.size
  {
    var fields := layout.fields;
    PartsArePlaceable(fields, layout.size, mem);
    ImageLength(fields, mem);
    if Covered(fields) == layout.size {
      forall k | 0 <= k < |fields| ensures fields[k].offset == Covered(fields[..k]) {
        OffsetsAreSums(fields, layout.size, k);
      }
      ImageOfConsecutive(fields, mem);
      assert mem[..layout.size] == mem;
    }
  }
}
