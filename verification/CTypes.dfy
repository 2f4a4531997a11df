/** C values as a calling convention sees them, and the scalar leaves of an aggregate. */
module CTypes {
  datatype CType =
    | Int(bytes: nat, signed: bool)
    | Float
    | Double
    | Pointer
    | Array(elem: CType, len: nat)
    | Aggregate(layout: CAggregate)

  datatype Field = Field(offset: nat, ty: CType)

  datatype CAggregate = CAggregate(size: nat, align: nat, fields: seq<Field>)

  function Size(t: CType, pointer: nat): nat {
    match t
    case Int(bytes, _) => bytes
    case Float => 4
    case Double => 8
    case Pointer => pointer
    case Array(elem, len) => len * Size(elem, pointer)
    case Aggregate(layout) => layout.size
  }

  /** A machine type a C value is passed in. An integer has a whole number of bytes, not always a power of two. */
  datatype CAbiType = AInt(bytes: nat) | AFloat | ADouble | APointer | AFloatPair

  /** A machine part read from an aggregate at `offset`. */
  datatype Part = Part(offset: nat, ty: CAbiType)

  /** Integer extension a small integer receives at the boundary. */
  datatype CExtension = NoExtension | SignExtension | ZeroExtension

  /** One machine argument, several read from the aggregate at their offsets, or a copy in memory. */
  datatype CArg =
    | Ignore
    | Natural(extension: CExtension)
    | Coerced(part: CAbiType)
    | Expand(parts: seq<Part>)
    | Byval(align: nat)

  /** `CoercedRet` with two parts is a struct with natural field placement. */
  datatype CRet = Void | NaturalRet(extension: CExtension) | CoercedRet(parts: seq<CAbiType>) | SRet(align: nat)

  function ScalarExtension(t: CType): CExtension {
    if t.Int? && t.bytes < 4 then if t.signed then SignExtension else ZeroExtension
    else NoExtension
  }

  datatype Leaf = LInt(bytes: nat) | LFloat | LDouble | LPointer

  function LeafSize(leaf: Leaf, pointer: nat): nat {
    match leaf
    case LInt(bytes) => bytes
    case LFloat => 4
    case LDouble => 8
    case LPointer => pointer
  }

  /** A leaf at its byte offset. */
  datatype Placed = Placed(offset: nat, leaf: Leaf)

  function End(p: Placed, pointer: nat): nat {
    p.offset + LeafSize(p.leaf, pointer)
  }

  function LeavesOf(t: CType, offset: nat, pointer: nat): seq<Placed>
    decreases t, 0
  {
    match t
    case Int(bytes, _) => [Placed(offset, LInt(bytes))]
    case Float => [Placed(offset, LFloat)]
    case Double => [Placed(offset, LDouble)]
    case Pointer => [Placed(offset, LPointer)]
    case Array(elem, len) => ElementLeaves(elem, offset, len, pointer)
    case Aggregate(layout) => FieldLeaves(layout.fields, offset, pointer)
  }

  function ElementLeaves(elem: CType, offset: nat, count: nat, pointer: nat): seq<Placed>
    decreases elem, 1, count
  {
    if count == 0 then [] else
    LeavesOf(elem, offset, pointer) + ElementLeaves(elem, offset + Size(elem, pointer), count - 1, pointer)
  }

  function FieldLeaves(fields: seq<Field>, offset: nat, pointer: nat): seq<Placed>
    decreases fields, 0, |fields|
  {
    if fields == [] then [] else
    FieldLeaves(fields[..|fields| - 1], offset, pointer) + FieldLeaf(fields[|fields| - 1], offset, pointer)
  }

  function FieldLeaf(field: Field, offset: nat, pointer: nat): seq<Placed>
    decreases field, 0
  {
    LeavesOf(field.ty, offset + field.offset, pointer)
  }

  /** Appends the leaves of a value at `offset`. */
  method PushLeaves(t: CType, offset: nat, pointer: nat, leaves: seq<Placed>) returns (out: seq<Placed>)
    ensures out == leaves + LeavesOf(t, offset, pointer)
    decreases t, 0
  {
    match t
    case Int(bytes, _) => out := leaves + [Placed(offset, LInt(bytes))];
    case Float => out := leaves + [Placed(offset, LFloat)];
    case Double => out := leaves + [Placed(offset, LDouble)];
    case Pointer => out := leaves + [Placed(offset, LPointer)];
    case Array(elem, len) =>
      var stride := Size(elem, pointer);
      out := leaves;
      for index := 0 to len
        invariant out + ElementLeaves(elem, offset + index * stride, len - index, pointer)
               == leaves + ElementLeaves(elem, offset, len, pointer)
      {
        assert (index + 1) * stride == index * stride + stride;
        out := PushLeaves(elem, offset + index * stride, pointer, out);
      }
    case Aggregate(layout) => out := PushFields(layout.fields, offset, pointer, leaves);
  }

  method PushFields(fields: seq<Field>, offset: nat, pointer: nat, leaves: seq<Placed>) returns (out: seq<Placed>)
    ensures out == leaves + FieldLeaves(fields, offset, pointer)
    decreases fields, 0
  {
    out := leaves;
    for i := 0 to |fields|
      invariant out == leaves + FieldLeaves(fields[..i], offset, pointer)
    {
      var field := fields[i];
      assert fields[..i + 1][..i] == fields[..i];
      assert field.ty < field;
      out := PushLeaves(field.ty, offset + field.offset, pointer, out);
    }
    assert fields[..|fields|] == fields;
  }

  // ---------------------------------------------------------------------------------------------------------------
  // Layouts a C compiler produces: integers of a machine width, fields ascending, disjoint and inside the aggregate.

  ghost predicate Laid(t: CType, pointer: nat)
    decreases t, 0
  {
    match t
    case Int(bytes, _) => bytes == 1 || bytes == 2 || bytes == 4 || bytes == 8 || bytes == 16
    case Array(elem, _) => Laid(elem, pointer)
    case Aggregate(layout) => FieldsLaid(layout.fields, layout.size, pointer)
    case _ => true
  }

  ghost predicate FieldsLaid(fields: seq<Field>, size: nat, pointer: nat)
    decreases fields, 0
  {
    && (forall i | 0 <= i < |fields| :: FieldLaid(fields[i], size, pointer))
    && (forall i, j | 0 <= i < j < |fields| :: fields[i].offset + Size(fields[i].ty, pointer) <= fields[j].offset)
  }

  ghost predicate FieldLaid(field: Field, size: nat, pointer: nat)
    decreases field, 0
  {
    Laid(field.ty, pointer) && field.offset + Size(field.ty, pointer) <= size
  }

  /** Leaves of positive size, in ascending disjoint order, between `low` and `high`. */
  ghost predicate Tiled(leaves: seq<Placed>, low: nat, high: nat, pointer: nat) {
    && (forall i | 0 <= i < |leaves| ::
          low <= leaves[i].offset && LeafSize(leaves[i].leaf, pointer) > 0 && End(leaves[i], pointer) <= high)
    && (forall i, j | 0 <= i < j < |leaves| :: End(leaves[i], pointer) <= leaves[j].offset)
  }

  ghost predicate MachineInts(leaves: seq<Placed>) {
    forall i | 0 <= i < |leaves| && leaves[i].leaf.LInt? :: leaves[i].leaf.bytes in {1, 2, 4, 8, 16}
  }

  lemma {:induction false} TiledAppend(a: seq<Placed>, b: seq<Placed>, low: nat, mid: nat, high: nat, pointer: nat)
    requires low <= mid <= high
    requires Tiled(a, low, mid, pointer) && Tiled(b, mid, high, pointer) && MachineInts(a) && MachineInts(b)
    ensures Tiled(a + b, low, high, pointer) && MachineInts(a + b)
  {
  }

  /** Widening the bounds of a tiling. */
  lemma {:induction false} TiledWithin(a: seq<Placed>, low: nat, high: nat, low': nat, high': nat, pointer: nat)
    requires low' <= low && high <= high' && Tiled(a, low, high, pointer)
    ensures Tiled(a, low', high', pointer)
  {
  }

  /** The leaves of a laid-out value tile the bytes it occupies. */
  lemma {:induction false} LeavesTile(t: CType, offset: nat, pointer: nat)
    requires pointer > 0 && Laid(t, pointer)
    ensures Tiled(LeavesOf(t, offset, pointer), offset, offset + Size(t, pointer), pointer)
    ensures MachineInts(LeavesOf(t, offset, pointer))
    decreases t, 0
  {
    match t
    case Array(elem, len) =>
      ElementsTile(elem, offset, len, pointer);
      SpanIsProduct(Size(elem, pointer), len);
    case Aggregate(layout) => FieldsTile(layout.fields, layout.size, offset, pointer);
    case _ =>
  }

  lemma {:induction false} ElementsTile(elem: CType, offset: nat, count: nat, pointer: nat)
    requires pointer > 0 && Laid(elem, pointer)
    ensures Tiled(ElementLeaves(elem, offset, count, pointer), offset,
                  offset + Span(Size(elem, pointer), count), pointer)
    ensures MachineInts(ElementLeaves(elem, offset, count, pointer))
    decreases elem, 1, count
  {
    if count > 0 {
      var stride := Size(elem, pointer);
      ElementsTile(elem, offset + stride, count - 1, pointer);
      LeavesTile(elem, offset, pointer);
      TiledAppend(LeavesOf(elem, offset, pointer), ElementLeaves(elem, offset + stride, count - 1, pointer), offset,
                  offset + stride, offset + Span(stride, count), pointer);
    }
  }

  /** The bytes of `count` elements, one at a time. */
  ghost function Span(stride: nat, count: nat): nat {
    if count == 0 then 0 else stride + Span(stride, count - 1)
  }

  lemma {:induction false} SpanIsProduct(stride: nat, count: nat)
    ensures Span(stride, count) == count * stride
  {
    if count > 0 {
      SpanIsProduct(stride, count - 1);
      assert count * stride == (count - 1) * stride + stride;
    }
  }

  lemma {:induction false} FieldsTile(fields: seq<Field>, size: nat, offset: nat, pointer: nat)
    requires pointer > 0 && FieldsLaid(fields, size, pointer)
    ensures Tiled(FieldLeaves(fields, offset, pointer), offset,
                  offset + (if fields == [] then 0 else var f := fields[|fields| - 1]; f.offset + Size(f.ty, pointer)),
                  pointer)
    ensures Tiled(FieldLeaves(fields, offset, pointer), offset, offset + size, pointer)
    ensures MachineInts(FieldLeaves(fields, offset, pointer))
    decreases fields, 0, |fields|
  {
    if fields != [] {
      var rest, last := fields[..|fields| - 1], fields[|fields| - 1];
      FieldsTile(rest, size, offset, pointer);
      FieldTiles(last, offset, pointer);
      var mid := offset + last.offset;
      var before := FieldLeaves(rest, offset, pointer);
      if rest != [] {
        var f := rest[|rest| - 1];
        TiledWithin(before, offset, offset + f.offset + Size(f.ty, pointer), offset, mid, pointer);
      } else {
        TiledWithin(before, offset, offset, offset, mid, pointer);
      }
      TiledAppend(before, FieldLeaf(last, offset, pointer), offset, mid, mid + Size(last.ty, pointer), pointer);
      TiledWithin(FieldLeaves(fields, offset, pointer), offset, mid + Size(last.ty, pointer), offset, offset + size,
                  pointer);
    }
  }

  lemma {:induction false} FieldTiles(field: Field, offset: nat, pointer: nat)
    requires pointer > 0 && Laid(field.ty, pointer)
    ensures Tiled(FieldLeaf(field, offset, pointer), offset + field.offset,
                  offset + field.offset + Size(field.ty, pointer), pointer)
    ensures MachineInts(FieldLeaf(field, offset, pointer))
    decreases field, 0
  {
    LeavesTile(field.ty, offset + field.offset, pointer);
  }

  // ---------------------------------------------------------------------------------------------------------------
  // The scalars of a value, by paths through fields and array indexes, and why the leaves are exactly those.

  datatype Step = Member(field: nat) | Element(index: nat)

  predicate IsScalar(t: CType) {
    !t.Array? && !t.Aggregate?
  }

  /** The path leads from a value to a scalar of type `scalar`, `offset` bytes into the value. Elements of an array
      follow each other without gaps. */
  ghost predicate Leads(t: CType, path: seq<Step>, scalar: CType, offset: int, pointer: nat)
    decreases |path|
  {
    if path == [] then IsScalar(t) && scalar == t && offset == 0 else
    match path[0]
    case Member(i) =>
      && t.Aggregate? && i < |t.layout.fields|
      && Leads(t.layout.fields[i].ty, path[1..], scalar, offset - t.layout.fields[i].offset, pointer)
    case Element(i) =>
      t.Array? && i < t.len && Leads(t.elem, path[1..], scalar, offset - Span(Size(t.elem, pointer), i), pointer)
  }

  /** The value has a scalar of this type at this offset. */
  ghost predicate HasScalar(t: CType, scalar: CType, offset: int, pointer: nat) {
    exists path :: Leads(t, path, scalar, offset, pointer)
  }

  /** A leaf keeps the kind of a scalar and the width of an integer. */
  predicate IsLeafOf(leaf: Leaf, scalar: CType) {
    match (scalar, leaf)
    case (Int(bytes, _), LInt(width)) => bytes == width
    case (Float, LFloat) => true
    case (Double, LDouble) => true
    case (Pointer, LPointer) => true
    case _ => false
  }

  /** Some scalar of the value is what the leaf stands for. */
  ghost predicate Stands(t: CType, leaf: Leaf, offset: int, pointer: nat) {
    exists scalar :: HasScalar(t, scalar, offset, pointer) && IsLeafOf(leaf, scalar)
  }

  lemma {:induction false} StandsThroughField(t: CType, i: nat, leaf: Leaf, offset: int, pointer: nat)
    requires t.Aggregate? && i < |t.layout.fields|
    requires Stands(t.layout.fields[i].ty, leaf, offset - t.layout.fields[i].offset, pointer)
    ensures Stands(t, leaf, offset, pointer)
  {
    var field := t.layout.fields[i];
    var scalar :| HasScalar(field.ty, scalar, offset - field.offset, pointer) && IsLeafOf(leaf, scalar);
    var path :| Leads(field.ty, path, scalar, offset - field.offset, pointer);
    assert ([Member(i)] + path)[1..] == path;
    assert Leads(t, [Member(i)] + path, scalar, offset, pointer);
  }

  lemma {:induction false} StandsThroughElement(t: CType, i: nat, leaf: Leaf, offset: int, pointer: nat)
    requires t.Array? && i < t.len && Stands(t.elem, leaf, offset - Span(Size(t.elem, pointer), i), pointer)
    ensures Stands(t, leaf, offset, pointer)
  {
    var at := offset - Span(Size(t.elem, pointer), i);
    var scalar :| HasScalar(t.elem, scalar, at, pointer) && IsLeafOf(leaf, scalar);
    var path :| Leads(t.elem, path, scalar, at, pointer);
    assert ([Element(i)] + path)[1..] == path;
    assert Leads(t, [Element(i)] + path, scalar, offset, pointer);
  }

  /** Where a leaf of an array or an aggregate stands for a scalar, one of its parts does. */
  lemma {:induction false} StandsInField(t: CType, leaf: Leaf, offset: int, pointer: nat) returns (i: nat)
    requires t.Aggregate? && Stands(t, leaf, offset, pointer)
    ensures i < |t.layout.fields|
    ensures Stands(t.layout.fields[i].ty, leaf, offset - t.layout.fields[i].offset, pointer)
  {
    var scalar :| HasScalar(t, scalar, offset, pointer) && IsLeafOf(leaf, scalar);
    var path: seq<Step> :| Leads(t, path, scalar, offset, pointer);
    i := path[0].field;
    var inner, at := t.layout.fields[i].ty, offset - t.layout.fields[i].offset;
    assert Leads(inner, path[1..], scalar, at, pointer);
    assert HasScalar(inner, scalar, at, pointer);
  }

  lemma {:induction false} StandsInElement(t: CType, leaf: Leaf, offset: int, pointer: nat) returns (i: nat)
    requires t.Array? && Stands(t, leaf, offset, pointer)
    ensures i < t.len && Stands(t.elem, leaf, offset - Span(Size(t.elem, pointer), i), pointer)
  {
    var scalar :| HasScalar(t, scalar, offset, pointer) && IsLeafOf(leaf, scalar);
    var path: seq<Step> :| Leads(t, path, scalar, offset, pointer);
    i := path[0].index;
    var at := offset - Span(Size(t.elem, pointer), i);
    assert Leads(t.elem, path[1..], scalar, at, pointer);
    assert HasScalar(t.elem, scalar, at, pointer);
  }

  lemma {:induction false} ScalarStands(t: CType, leaf: Leaf, offset: int, pointer: nat)
    requires IsScalar(t)
    ensures Stands(t, leaf, offset, pointer) <==> offset == 0 && IsLeafOf(leaf, t)
  {
    if Stands(t, leaf, offset, pointer) {
      var scalar :| HasScalar(t, scalar, offset, pointer) && IsLeafOf(leaf, scalar);
      var path: seq<Step> :| Leads(t, path, scalar, offset, pointer);
      assert path == [];
    }
    assert Leads(t, [], t, 0, pointer) && HasScalar(t, t, 0, pointer);
  }

  /** The leaves of a value are exactly its scalars: each with its kind, at its offset. */
  lemma {:induction false} LeafIffScalar(t: CType, base: nat, pointer: nat, p: Placed)
    ensures p in LeavesOf(t, base, pointer) <==> Stands(t, p.leaf, p.offset - base, pointer)
    decreases t, 0
  {
    match t
    case Array(elem, len) => ElementLeafIffScalar(t, base, pointer, p);
    case Aggregate(layout) => FieldLeafIffScalar(t, base, pointer, p);
    case _ => ScalarStands(t, p.leaf, p.offset - base, pointer);
  }

  lemma {:induction false} FieldLeafIffScalar(t: CType, base: nat, pointer: nat, p: Placed)
    requires t.Aggregate?
    ensures p in FieldLeaves(t.layout.fields, base, pointer) <==> Stands(t, p.leaf, p.offset - base, pointer)
    decreases t.layout.fields, 1
  {
    var fields := t.layout.fields;
    InFieldLeaves(fields, base, pointer, p);
    forall i | 0 <= i < |fields|
      ensures p in FieldLeaf(fields[i], base, pointer) <==>
        Stands(fields[i].ty, p.leaf, p.offset - base - fields[i].offset, pointer)
    {
      LeafIffScalar(fields[i].ty, base + fields[i].offset, pointer, p);
    }
    if Stands(t, p.leaf, p.offset - base, pointer) {
      var i := StandsInField(t, p.leaf, p.offset - base, pointer);
    }
    if i :| 0 <= i < |fields| && p in FieldLeaf(fields[i], base, pointer) {
      StandsThroughField(t, i, p.leaf, p.offset - base, pointer);
    }
  }

  lemma {:induction false} InFieldLeaves(fields: seq<Field>, base: nat, pointer: nat, p: Placed)
    ensures p in FieldLeaves(fields, base, pointer) <==>
      exists i | 0 <= i < |fields| :: p in FieldLeaf(fields[i], base, pointer)
    decreases |fields|
  {
    if fields != [] {
      var n := |fields| - 1;
      InFieldLeaves(fields[..n], base, pointer, p);
      assert forall i | 0 <= i < n :: fields[..n][i] == fields[i];
    }
  }

  lemma {:induction false} ElementLeafIffScalar(t: CType, base: nat, pointer: nat, p: Placed)
    requires t.Array?
    ensures p in ElementLeaves(t.elem, base, t.len, pointer) <==> Stands(t, p.leaf, p.offset - base, pointer)
    decreases t.elem, 1
  {
    var stride := Size(t.elem, pointer);
    InElementLeaves(t.elem, base, t.len, pointer, p);
    forall i: nat | i < t.len
      ensures InElement(t.elem, base, i, pointer, p) <==>
        Stands(t.elem, p.leaf, p.offset - base - Span(stride, i), pointer)
    {
      LeafIffScalar(t.elem, base + Span(stride, i), pointer, p);
    }
    if Stands(t, p.leaf, p.offset - base, pointer) {
      var i := StandsInElement(t, p.leaf, p.offset - base, pointer);
    }
    if i: nat :| i < t.len && InElement(t.elem, base, i, pointer, p) {
      StandsThroughElement(t, i, p.leaf, p.offset - base, pointer);
    }
  }

  /** Element `i` of an array at `base` has the leaf. */
  ghost predicate InElement(elem: CType, base: nat, i: nat, pointer: nat, p: Placed) {
    p in LeavesOf(elem, base + Span(Size(elem, pointer), i), pointer)
  }

  lemma {:induction false} NextElement(elem: CType, base: nat, i: nat, pointer: nat, p: Placed)
    ensures InElement(elem, base + Size(elem, pointer), i, pointer, p) <==> InElement(elem, base, i + 1, pointer, p)
  {
    var stride := Size(elem, pointer);
    assert base + stride + Span(stride, i) == base + Span(stride, i + 1);
  }

  lemma {:induction false} InElementLeaves(elem: CType, base: nat, count: nat, pointer: nat, p: Placed)
    ensures p in ElementLeaves(elem, base, count, pointer) <==>
      exists i: nat | i < count :: InElement(elem, base, i, pointer, p)
    decreases count
  {
    if count > 0 {
      var next := base + Size(elem, pointer);
      InElementLeaves(elem, next, count - 1, pointer, p);
      if i: nat :| i < count - 1 && InElement(elem, next, i, pointer, p) {
        NextElement(elem, base, i, pointer, p);
      }
      if i: nat :| 0 < i < count && InElement(elem, base, i, pointer, p) {
        NextElement(elem, base, i - 1, pointer, p);
      }
      FirstElement(elem, base, pointer, p);
    }
  }

  lemma {:induction false} FirstElement(elem: CType, base: nat, pointer: nat, p: Placed)
    ensures InElement(elem, base, 0, pointer, p) <==> p in LeavesOf(elem, base, pointer)
  {
  }

  /** A leaf is as wide as the scalar it stands for. */
  lemma {:induction false} LeafIsAsWide(leaf: Leaf, scalar: CType, pointer: nat)
    requires IsLeafOf(leaf, scalar)
    ensures LeafSize(leaf, pointer) == Size(scalar, pointer)
  {
  }
}
