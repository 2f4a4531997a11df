/** The System V AMD64 classifier: eightbyte classes, machine parts and register budgets
    (section 3.2.3 of the System V AMD64 psABI). */
module SysV64 {
  import opened Options
  import opened CTypes

  const POINTER_SIZE := 8
  const INT_REGISTERS := 6
  const SSE_REGISTERS := 8

  datatype Class = NoClass | Integer | Sse

  function Merge(left: Class, right: Class): Class {
    match (left, right)
    case (NoClass, other) => other
    case (other, NoClass) => other
    case (Sse, Sse) => Sse
    case _ => Integer
  }

  function ClassOf(leaf: Leaf): Class {
    if leaf.LInt? || leaf.LPointer? then Integer else Sse
  }

  /** The leaf has a byte in eightbyte `k`. */
  predicate Touches(p: Placed, k: nat) {
    p.offset < k * 8 + 8 && End(p, POINTER_SIZE) > k * 8
  }

  /** The next power of two, 16 at most. */
  function PowerOfTwo(n: nat): (r: nat)
    ensures r > 0
  {
    if n <= 1 then 1 else if n <= 2 then 2 else if n <= 4 then 4 else if n <= 8 then 8 else 16
  }

  function Min(a: nat, b: nat): nat {
    if a < b then a else b
  }

  function LeafAlign(leaf: Leaf): (align: nat)
    ensures align > 0
  {
    match leaf
    case LInt(bytes) => PowerOfTwo(bytes)
    case LFloat => 4
    case LDouble => 8
    case LPointer => 8
  }

  /** `offset` is a multiple of `align`, a power of two up to 16. */
  predicate AlignedTo(offset: nat, align: nat) {
    match align
    case 1 => true
    case 2 => offset % 2 == 0
    case 4 => offset % 4 == 0
    case 8 => offset % 8 == 0
    case _ => offset % 16 == 0
  }

  predicate Unaligned(leaves: seq<Placed>) {
    exists i | 0 <= i < |leaves| :: !AlignedTo(leaves[i].offset, LeafAlign(leaves[i].leaf))
  }

  /** The class of an eightbyte by what touches it: nothing, some integer or pointer, or floating point only. */
  ghost function ClassAt(leaves: seq<Placed>, k: nat): Class {
    if forall i | 0 <= i < |leaves| :: !Touches(leaves[i], k) then NoClass
    else if exists i | 0 <= i < |leaves| :: Touches(leaves[i], k) && ClassOf(leaves[i].leaf) == Integer then Integer
    else Sse
  }

  /** A value with classes is passed in registers, one without in memory. */
  datatype Classes = Classes(low: Class, high: Class)

  method ClassifyEightbytes(layout: CAggregate, leaves: seq<Placed>) returns (r: Option<Classes>)
    ensures r.None? <==> layout.size > 16 || Unaligned(leaves)
    ensures r.Some? ==> r.value == Classes(ClassAt(leaves, 0), ClassAt(leaves, 1))
  {
    if layout.size > 16 || Unaligned(leaves) {
      return None;
    }
    var slots := new Class[2](_ => NoClass);
    for i := 0 to |leaves|
      invariant slots[0] == ClassAt(leaves[..i], 0) && slots[1] == ClassAt(leaves[..i], 1)
    {
      var cls := ClassOf(leaves[i].leaf);
      for k := 0 to 2
        invariant slots[0] == if k > 0 then ClassAt(leaves[..i + 1], 0) else ClassAt(leaves[..i], 0)
        invariant slots[1] == if k > 1 then ClassAt(leaves[..i + 1], 1) else ClassAt(leaves[..i], 1)
      {
        ClassOfOneMore(leaves, i, k);
        if Touches(leaves[i], k) {
          slots[k] := Merge(slots[k], cls);
        }
      }
    }
    assert leaves[..|leaves|] == leaves;
    r := Some(Classes(slots[0], slots[1]));
  }

  lemma {:induction false} ClassOfOneMore(leaves: seq<Placed>, i: nat, k: nat)
    requires i < |leaves|
    ensures ClassAt(leaves[..i + 1], k) ==
      if Touches(leaves[i], k) then Merge(ClassAt(leaves[..i], k), ClassOf(leaves[i].leaf)) else ClassAt(leaves[..i], k)
  {
    var before, after := leaves[..i], leaves[..i + 1];
    assert forall j | 0 <= j < i :: after[j] == before[j];
    if ClassAt(before, k) == Integer {
      var j :| 0 <= j < i && Touches(before[j], k) && ClassOf(before[j].leaf) == Integer;
      assert Touches(after[j], k) && ClassOf(after[j].leaf) == Integer;
    }
    assert after[i] == leaves[i];
  }

  // ---------------------------------------------------------------------------------------------------------------
  // Machine parts.

  predicate HasData(leaves: seq<Placed>, start: nat, end: nat) {
    exists i | 0 <= i < |leaves| :: leaves[i].offset < end && End(leaves[i], POINTER_SIZE) > start
  }

  /** The first leaf at exactly `offset`. */
  function LeafAt(leaves: seq<Placed>, offset: nat): (r: Option<Leaf>)
    ensures r.None? <==> forall i | 0 <= i < |leaves| :: leaves[i].offset != offset
    ensures r.Some? ==> Placed(offset, r.value) in leaves
  {
    if leaves == [] then None
    else if leaves[0].offset == offset then Some(leaves[0].leaf)
    else LeafAt(leaves[1..], offset)
  }

  function PartType(layout: CAggregate, leaves: seq<Placed>, k: nat, cls: Class): CAbiType {
    PartFrom(layout.size, leaves, k * 8, LeafAt(leaves, k * 8), cls)
  }

  /** The part that starts at `start`, where the leaf `at` lies. */
  function PartFrom(size: nat, leaves: seq<Placed>, start: nat, at: Option<Leaf>, cls: Class): CAbiType {
    var end := Min(size, start + 8);
    match cls
    case Sse =>
      if at == Some(LDouble) then ADouble
      else if Placed(start + 4, LFloat) in leaves then AFloatPair
      else if !HasData(leaves, start + 4, end) then AFloat
      else ADouble
    case _ =>
      if at == Some(LPointer) then APointer
      else if at == Some(LInt(8)) then AInt(8)
      else if at.Some? && at.value.LInt? && at.value.bytes < 8 && !HasData(leaves, start + at.value.bytes, end) then
        AInt(at.value.bytes)
      else AInt(if end >= start then end - start else 0)
  }

  function NaturalSize(t: CAbiType): nat {
    match t
    case AInt(bytes) => bytes
    case AFloat => 4
    case _ => 8
  }

  function NaturalAlign(t: CAbiType): (align: nat)
    ensures align > 0
  {
    match t
    case AInt(bytes) => Min(PowerOfTwo(bytes), 8)
    case AFloat => 4
    case _ => 8
  }

  /** A narrow low part widens when the high part's own alignment would otherwise place it before offset 8. */
  function Assemble(low: CAbiType, high: CAbiType, classes: Classes): seq<CAbiType> {
    if classes.high == NoClass then [low]
    else if NaturalSize(low) < 8 && NaturalAlign(high) < 8 then [if classes.low == Sse then ADouble else AInt(8), high]
    else [low, high]
  }

  function Parts(layout: CAggregate, leaves: seq<Placed>, classes: Classes): seq<CAbiType> {
    if leaves == [Placed(0, LInt(16))] then [AInt(16)]
    else Assemble(PartType(layout, leaves, 0, classes.low), PartType(layout, leaves, 1, classes.high), classes)
  }

  // ---------------------------------------------------------------------------------------------------------------
  // Register-passed aggregates lose no data and read no foreign bytes.

  function Leaves(layout: CAggregate): seq<Placed> {
    FieldLeaves(layout.fields, 0, POINTER_SIZE)
  }

  /** A laid-out aggregate the classifier passes in registers. */
  ghost predicate InRegisters(layout: CAggregate) {
    && FieldsLaid(layout.fields, layout.size, POINTER_SIZE)
    && 0 < layout.size <= 16
    && !Unaligned(Leaves(layout))
  }

  /** Leaves disjoint and inside `size` bytes, each where natural alignment allows it. */
  ghost predicate Regular(leaves: seq<Placed>, size: nat) {
    && size <= 16
    && Tiled(leaves, 0, size, POINTER_SIZE)
    && forall i | 0 <= i < |leaves| :: RegularLeaf(leaves[i])
  }

  ghost predicate InEightbyte(p: Placed, k: nat) {
    k * 8 <= p.offset && End(p, POINTER_SIZE) <= k * 8 + 8
  }

  ghost predicate RegularLeaf(p: Placed) {
    match LeafSize(p.leaf, POINTER_SIZE)
    case 4 => p.offset == 0 || p.offset == 4 || p.offset == 8 || p.offset == 12
    case 8 => p.offset == 0 || p.offset == 8
    case 16 => p.offset == 0
    case _ => InEightbyte(p, 0) || InEightbyte(p, 1)
  }

  lemma {:induction false} AlignedLeafIsRegular(p: Placed)
    requires End(p, POINTER_SIZE) <= 16 && LeafSize(p.leaf, POINTER_SIZE) in {1, 2, 4, 8, 16}
    requires AlignedTo(p.offset, LeafAlign(p.leaf))
    ensures RegularLeaf(p)
  {
  }

  lemma {:induction false} RegisterLeavesAreRegular(layout: CAggregate)
    requires InRegisters(layout)
    ensures Regular(Leaves(layout), layout.size)
  {
    var leaves := Leaves(layout);
    FieldsTile(layout.fields, layout.size, 0, POINTER_SIZE);
    forall i | 0 <= i < |leaves| ensures RegularLeaf(leaves[i]) {
      assert AlignedTo(leaves[i].offset, LeafAlign(leaves[i].leaf));
      AlignedLeafIsRegular(leaves[i]);
    }
  }

  /** A sixteen-byte leaf is the whole aggregate. */
  lemma {:induction false} WideLeafIsAlone(leaves: seq<Placed>, size: nat, i: nat)
    requires Regular(leaves, size) && i < |leaves| && LeafSize(leaves[i].leaf, POINTER_SIZE) == 16
    ensures leaves == [Placed(0, LInt(16))] && size == 16
  {
    assert RegularLeaf(leaves[i]);
    assert |leaves| > 1 ==> End(leaves[0], POINTER_SIZE) <= leaves[1].offset;
  }

  ghost predicate Narrow(leaves: seq<Placed>) {
    forall i | 0 <= i < |leaves| :: LeafSize(leaves[i].leaf, POINTER_SIZE) <= 8
  }

  /** `bytes` bytes from the start of eightbyte `k` stay inside the aggregate and hold every leaf of the eightbyte. */
  ghost predicate Holds(leaves: seq<Placed>, size: nat, k: nat, bytes: nat) {
    && k * 8 + bytes <= size
    && bytes <= 8
    && forall i | 0 <= i < |leaves| && Touches(leaves[i], k) ::
         k * 8 <= leaves[i].offset && End(leaves[i], POINTER_SIZE) <= k * 8 + bytes
  }

  lemma {:induction false} TouchingLeaf(leaves: seq<Placed>, size: nat, k: nat, i: nat)
    requires k < 2 && Regular(leaves, size) && Narrow(leaves) && i < |leaves| && Touches(leaves[i], k)
    ensures InEightbyte(leaves[i], k) && End(leaves[i], POINTER_SIZE) <= size
    ensures ClassOf(leaves[i].leaf) == Sse ==>
      || leaves[i] == Placed(k * 8, LDouble)
      || leaves[i] == Placed(k * 8, LFloat)
      || leaves[i] == Placed(k * 8 + 4, LFloat)
  {
    assert RegularLeaf(leaves[i]) && LeafSize(leaves[i].leaf, POINTER_SIZE) <= 8;
  }

  lemma {:induction false} OnlyLeafAt(leaves: seq<Placed>, size: nat, i: nat)
    requires Tiled(leaves, 0, size, POINTER_SIZE) && i < |leaves|
    ensures LeafAt(leaves, leaves[i].offset) == Some(leaves[i].leaf)
  {
    var r := LeafAt(leaves, leaves[i].offset);
    var j :| 0 <= j < |leaves| && leaves[j] == Placed(leaves[i].offset, r.value);
    assert !(j < i) && !(i < j);
  }

  ghost predicate FloatingLeaf(p: Placed, start: nat) {
    p == Placed(start, LDouble) || p == Placed(start, LFloat) || p == Placed(start + 4, LFloat)
  }

  lemma {:induction false} SsePartHolds(leaves: seq<Placed>, size: nat, k: nat, at: Option<Leaf>, t: nat)
    requires forall i | 0 <= i < |leaves| :: End(leaves[i], POINTER_SIZE) <= size
    requires forall i | 0 <= i < |leaves| && Touches(leaves[i], k) :: FloatingLeaf(leaves[i], k * 8)
    requires t < |leaves| && Touches(leaves[t], k)
    requires at == Some(LDouble) <==> Placed(k * 8, LDouble) in leaves
    ensures Holds(leaves, size, k, NaturalSize(PartFrom(size, leaves, k * 8, at, Sse)))
  {
    var start := k * 8;
    if Placed(start, LDouble) in leaves {
      var d :| 0 <= d < |leaves| && leaves[d] == Placed(start, LDouble);
      assert End(leaves[d], POINTER_SIZE) <= size;
    } else if Placed(start + 4, LFloat) in leaves {
      var d :| 0 <= d < |leaves| && leaves[d] == Placed(start + 4, LFloat);
      assert End(leaves[d], POINTER_SIZE) <= size;
    } else {
      assert forall i | 0 <= i < |leaves| && Touches(leaves[i], k) :: leaves[i] == Placed(start, LFloat);
      assert !HasData(leaves, start + 4, Min(size, start + 8));
    }
  }

  lemma {:induction false} SsePartFits(leaves: seq<Placed>, size: nat, k: nat, at: Option<Leaf>)
    requires k < 2 && Regular(leaves, size) && Narrow(leaves)
    requires ClassAt(leaves, k) == Sse
    requires at == Some(LDouble) <==> Placed(k * 8, LDouble) in leaves
    ensures Holds(leaves, size, k, NaturalSize(PartFrom(size, leaves, k * 8, at, Sse)))
  {
    forall i | 0 <= i < |leaves| && Touches(leaves[i], k) ensures FloatingLeaf(leaves[i], k * 8) {
      TouchingLeaf(leaves, size, k, i);
    }
    var t :| 0 <= t < |leaves| && Touches(leaves[t], k);
    SsePartHolds(leaves, size, k, at, t);
  }

  lemma {:induction false} IntegerPartHolds(leaves: seq<Placed>, size: nat, k: nat, at: Option<Leaf>, t: nat)
    requires forall i | 0 <= i < |leaves| && Touches(leaves[i], k) ::
      k * 8 <= leaves[i].offset && End(leaves[i], POINTER_SIZE) <= Min(size, k * 8 + 8)
    requires t < |leaves| && Touches(leaves[t], k)
    requires forall i | 0 <= i < |leaves| :: LeafSize(leaves[i].leaf, POINTER_SIZE) > 0
    requires at.Some? ==> LeafSize(at.value, POINTER_SIZE) <= 8 && k * 8 + LeafSize(at.value, POINTER_SIZE) <= size
    ensures Holds(leaves, size, k, NaturalSize(PartFrom(size, leaves, k * 8, at, Integer)))
  {
  }

  /** What touches an eightbyte lies in it and in the aggregate. */
  lemma {:induction false} TouchingLeaves(leaves: seq<Placed>, size: nat, k: nat)
    requires k < 2 && Regular(leaves, size) && Narrow(leaves)
    ensures forall i | 0 <= i < |leaves| && Touches(leaves[i], k) ::
      k * 8 <= leaves[i].offset && End(leaves[i], POINTER_SIZE) <= Min(size, k * 8 + 8)
  {
    forall i | 0 <= i < |leaves| && Touches(leaves[i], k)
      ensures k * 8 <= leaves[i].offset && End(leaves[i], POINTER_SIZE) <= Min(size, k * 8 + 8)
    {
      TouchingLeaf(leaves, size, k, i);
    }
  }

  lemma {:induction false} LeafAtFits(leaves: seq<Placed>, size: nat, offset: nat)
    requires Tiled(leaves, 0, size, POINTER_SIZE) && Narrow(leaves)
    ensures var at := LeafAt(leaves, offset);
      at.Some? ==> LeafSize(at.value, POINTER_SIZE) <= 8 && offset + LeafSize(at.value, POINTER_SIZE) <= size
  {
    var at := LeafAt(leaves, offset);
    if at.Some? {
      var d :| 0 <= d < |leaves| && leaves[d] == Placed(offset, at.value);
      assert End(leaves[d], POINTER_SIZE) <= size && LeafSize(leaves[d].leaf, POINTER_SIZE) <= 8;
    }
  }

  /** The part of a classed eightbyte. */
  lemma {:induction false} PartFits(layout: CAggregate, leaves: seq<Placed>, k: nat)
    requires k < 2 && Regular(leaves, layout.size) && Narrow(leaves)
    requires ClassAt(leaves, k) != NoClass
    ensures Holds(leaves, layout.size, k, NaturalSize(PartType(layout, leaves, k, ClassAt(leaves, k))))
  {
    var at := LeafAt(leaves, k * 8);
    if Placed(k * 8, LDouble) in leaves {
      var d :| 0 <= d < |leaves| && leaves[d] == Placed(k * 8, LDouble);
      OnlyLeafAt(leaves, layout.size, d);
    }
    if ClassAt(leaves, k) == Sse {
      SsePartFits(leaves, layout.size, k, at);
    } else {
      TouchingLeaves(leaves, layout.size, k);
      LeafAtFits(leaves, layout.size, k * 8);
      var t :| 0 <= t < |leaves| && Touches(leaves[t], k);
      IntegerPartHolds(leaves, layout.size, k, at, t);
    }
  }

  /** Where the machine parts are read from and written to. */
  function PartOffset(j: nat): nat {
    j * 8
  }

  function PartBytes(t: CAbiType): nat {
    NaturalSize(t)
  }

  predicate HoldsByte(p: Placed, b: nat) {
    p.offset <= b < End(p, POINTER_SIZE)
  }

  predicate CoversByte(parts: seq<CAbiType>, b: nat) {
    exists j | 0 <= j < |parts| :: PartOffset(j) <= b < PartOffset(j) + PartBytes(parts[j])
  }

  ghost function ClassesOf(leaves: seq<Placed>): Classes {
    Classes(ClassAt(leaves, 0), ClassAt(leaves, 1))
  }

  /** Without data in the first eightbyte its part is still inside the aggregate. */
  lemma {:induction false} EmptyPartFits(layout: CAggregate, leaves: seq<Placed>)
    requires 0 < layout.size && ClassAt(leaves, 0) == NoClass && Tiled(leaves, 0, layout.size, POINTER_SIZE)
    ensures Holds(leaves, layout.size, 0, NaturalSize(PartType(layout, leaves, 0, NoClass)))
  {
    assert forall i | 0 <= i < |leaves| && leaves[i].offset == 0 :: Touches(leaves[i], 0);
  }

  ghost predicate PartsHold(leaves: seq<Placed>, size: nat, parts: seq<CAbiType>) {
    && 1 <= |parts| <= 2
    && Holds(leaves, size, 0, NaturalSize(parts[0]))
    && (|parts| == 2 ==> Holds(leaves, size, 1, NaturalSize(parts[1])))
    && (|parts| == 1 ==> ClassAt(leaves, 1) == NoClass)
  }

  lemma {:induction false} AssembledFit(leaves: seq<Placed>, size: nat, low: CAbiType, high: CAbiType, classes: Classes)
    requires Holds(leaves, size, 0, NaturalSize(low)) && classes.high == ClassAt(leaves, 1)
    requires classes.high != NoClass ==> size > 8 && Holds(leaves, size, 1, NaturalSize(high))
    ensures PartsHold(leaves, size, Assemble(low, high, classes))
  {
  }

  lemma {:induction false} PartsFit(layout: CAggregate, leaves: seq<Placed>)
    requires 0 < layout.size && Regular(leaves, layout.size) && Narrow(leaves)
    ensures PartsHold(leaves, layout.size, Parts(layout, leaves, ClassesOf(leaves)))
  {
    if leaves != [] {
      assert LeafSize(leaves[0].leaf, POINTER_SIZE) <= 8;
    }
    var classes := ClassesOf(leaves);
    var low, high := PartType(layout, leaves, 0, classes.low), PartType(layout, leaves, 1, classes.high);
    if classes.low != NoClass {
      PartFits(layout, leaves, 0);
    } else {
      EmptyPartFits(layout, leaves);
    }
    if classes.high != NoClass {
      HighEightbyte(leaves, layout.size);
      PartFits(layout, leaves, 1);
    }
    AssembledFit(leaves, layout.size, low, high, classes);
  }

  /** Every byte of every leaf is in some part, and every part lies inside the aggregate. */
  ghost predicate Exact(leaves: seq<Placed>, size: nat, parts: seq<CAbiType>) {
    && 1 <= |parts| <= 2
    && (forall j | 0 <= j < |parts| :: PartOffset(j) + PartBytes(parts[j]) <= size)
    && (forall i, b: nat | 0 <= i < |leaves| && HoldsByte(leaves[i], b) :: CoversByte(parts, b))
  }

  lemma {:induction false} RegularPartsAreExact(layout: CAggregate, leaves: seq<Placed>)
    requires 0 < layout.size && Regular(leaves, layout.size)
    ensures Exact(leaves, layout.size, Parts(layout, leaves, ClassesOf(leaves)))
  {
    if i :| 0 <= i < |leaves| && LeafSize(leaves[i].leaf, POINTER_SIZE) == 16 {
      WideLeafIsAlone(leaves, layout.size, i);
      WidePartIsExact();
    } else {
      assert forall i | 0 <= i < |leaves| :: RegularLeaf(leaves[i]);
      PartsFit(layout, leaves);
      HeldPartsAreExact(leaves, layout.size, Parts(layout, leaves, ClassesOf(leaves)));
    }
  }

  lemma {:induction false} WidePartIsExact()
    ensures Exact([Placed(0, LInt(16))], 16, [AInt(16)])
  {
    var leaves, parts := [Placed(0, LInt(16))], [AInt(16)];
    forall i, b: nat | 0 <= i < |leaves| && HoldsByte(leaves[i], b) ensures CoversByte(parts, b) {
      assert PartOffset(0) <= b < PartOffset(0) + PartBytes(parts[0]);
    }
  }

  lemma {:induction false} HeldPartsAreExact(leaves: seq<Placed>, size: nat, parts: seq<CAbiType>)
    requires size <= 16 && forall i | 0 <= i < |leaves| :: End(leaves[i], POINTER_SIZE) <= size
    requires 1 <= |parts| <= 2 && Holds(leaves, size, 0, NaturalSize(parts[0]))
    requires |parts| == 2 ==> Holds(leaves, size, 1, NaturalSize(parts[1]))
    requires |parts| == 1 ==> ClassAt(leaves, 1) == NoClass
    ensures Exact(leaves, size, parts)
  {
    forall i, b: nat | 0 <= i < |leaves| && HoldsByte(leaves[i], b) ensures CoversByte(parts, b) {
      ByteIsCovered(leaves, size, parts, i, b);
    }
  }

  /** A register-passed aggregate loses no data and reads no foreign bytes. */
  lemma {:induction false} PartsCoverExactlyTheAggregate(layout: CAggregate)
    requires InRegisters(layout)
    ensures var leaves := Leaves(layout); Exact(leaves, layout.size, Parts(layout, leaves, ClassesOf(leaves)))
  {
    RegisterLeavesAreRegular(layout);
    RegularPartsAreExact(layout, Leaves(layout));
  }

  lemma {:induction false} ByteIsCovered(leaves: seq<Placed>, size: nat, parts: seq<CAbiType>, i: nat, b: nat)
    requires i < |leaves| && HoldsByte(leaves[i], b) && End(leaves[i], POINTER_SIZE) <= size <= 16
    requires 1 <= |parts| <= 2 && Holds(leaves, size, 0, NaturalSize(parts[0]))
    requires |parts| == 2 ==> Holds(leaves, size, 1, NaturalSize(parts[1]))
    requires |parts| == 1 ==> ClassAt(leaves, 1) == NoClass
    ensures CoversByte(parts, b)
  {
    var k := if b < 8 then 0 else 1;
    assert Touches(leaves[i], k);
    assert PartOffset(k) <= b < PartOffset(k) + PartBytes(parts[k]);
  }

  // ---------------------------------------------------------------------------------------------------------------
  // The two-field struct a register-returned aggregate becomes.

  /** The next multiple of `align`, a power of two up to 8. */
  function RoundUp(n: nat, align: nat): nat {
    match align
    case 1 => n
    case 2 => (n + 1) / 2 * 2
    case 4 => (n + 3) / 4 * 4
    case _ => (n + 7) / 8 * 8
  }

  /** Natural placement of the second field. */
  function SecondFieldOffset(low: CAbiType, high: CAbiType): nat {
    RoundUp(RoundUp(NaturalSize(low), NaturalAlign(low)), NaturalAlign(high))
  }

  lemma {:induction false} PlacedAtEight(low: CAbiType, high: CAbiType)
    requires 0 < NaturalSize(low) <= 8 && 0 < NaturalSize(high) <= 8
    requires NaturalSize(low) == 8 || NaturalAlign(high) == 8
    ensures SecondFieldOffset(low, high) == 8
  {
    assert NaturalAlign(low) in {1, 2, 4, 8} && NaturalAlign(high) in {1, 2, 4, 8};
  }

  lemma {:induction false} HeldPartHasBytes(leaves: seq<Placed>, size: nat, k: nat, bytes: nat)
    requires Regular(leaves, size) && Holds(leaves, size, k, bytes) && ClassAt(leaves, k) != NoClass
    ensures bytes > 0
  {
    var t :| 0 <= t < |leaves| && Touches(leaves[t], k);
    assert LeafSize(leaves[t].leaf, POINTER_SIZE) > 0;
  }

  /** The widening rule puts the high part of a returned pair at exactly offset 8. */
  lemma {:induction false} HighPartIsAtEight(layout: CAggregate)
    requires InRegisters(layout)
    ensures var leaves := Leaves(layout);
      var parts := Parts(layout, leaves, ClassesOf(leaves));
      |parts| == 2 ==> SecondFieldOffset(parts[0], parts[1]) == 8
  {
    var leaves := Leaves(layout);
    RegisterLeavesAreRegular(layout);
    var parts := Parts(layout, leaves, ClassesOf(leaves));
    if |parts| == 2 {
      TwoPartsAreNarrow(layout, leaves);
      PartsFit(layout, leaves);
      HeldPartHasBytes(leaves, layout.size, 1, NaturalSize(parts[1]));
      if ClassAt(leaves, 0) != NoClass {
        HeldPartHasBytes(leaves, layout.size, 0, NaturalSize(parts[0]));
      }
      AlignIsAtMostEight(parts[1]);
      PlacedAtEight(parts[0], parts[1]);
    }
  }

  lemma {:induction false} HighEightbyte(leaves: seq<Placed>, size: nat)
    requires Tiled(leaves, 0, size, POINTER_SIZE) && ClassAt(leaves, 1) != NoClass
    ensures size > 8
  {
    var t :| 0 <= t < |leaves| && Touches(leaves[t], 1);
    assert End(leaves[t], POINTER_SIZE) <= size;
  }

  lemma {:induction false} NarrowUnlessWide(leaves: seq<Placed>, size: nat)
    requires Regular(leaves, size) && leaves != [Placed(0, LInt(16))]
    ensures Narrow(leaves)
  {
    forall i | 0 <= i < |leaves| ensures LeafSize(leaves[i].leaf, POINTER_SIZE) <= 8 {
      if LeafSize(leaves[i].leaf, POINTER_SIZE) == 16 {
        WideLeafIsAlone(leaves, size, i);
      }
      assert RegularLeaf(leaves[i]);
    }
  }

  lemma {:induction false} TwoPartsAreNarrow(layout: CAggregate, leaves: seq<Placed>)
    requires Regular(leaves, layout.size) && |Parts(layout, leaves, ClassesOf(leaves))| == 2
    ensures Narrow(leaves) && layout.size > 8
    ensures ClassAt(leaves, 1) != NoClass
  {
    assert leaves != [Placed(0, LInt(16))] && ClassAt(leaves, 1) != NoClass;
    NarrowUnlessWide(leaves, layout.size);
    HighEightbyte(leaves, layout.size);
  }

  lemma {:induction false} AlignIsAtMostEight(t: CAbiType)
    ensures NaturalAlign(t) <= 8
  {
  }

  // ---------------------------------------------------------------------------------------------------------------
  // Registers.

  datatype Registers = Registers(ints: nat, sse: nat)

  function Plus(a: Registers, b: Registers): Registers {
    Registers(a.ints + b.ints, a.sse + b.sse)
  }

  function ClassRegisters(cls: Class): Registers {
    Registers(Count(cls == Integer), Count(cls == Sse))
  }

  function Count(b: bool): nat {
    if b then 1 else 0
  }

  function NeededRegisters(classes: Classes): Registers {
    Registers(Count(classes.low == Integer) + Count(classes.high == Integer),
              Count(classes.low == Sse) + Count(classes.high == Sse))
  }

  /** The machine registers a part occupies. */
  function PartRegisters(t: CAbiType): Registers {
    match t
    case AInt(bytes) => Registers(if bytes > 8 then 2 else 1, 0)
    case APointer => Registers(1, 0)
    case _ => Registers(0, 1)
  }

  /** The registers of one or two parts. */
  function PartsRegisters(parts: seq<CAbiType>): Registers
    requires 1 <= |parts| <= 2
  {
    if |parts| == 1 then PartRegisters(parts[0]) else Plus(PartRegisters(parts[0]), PartRegisters(parts[1]))
  }

  lemma {:induction false} PartRegistersByClass(layout: CAggregate, leaves: seq<Placed>, k: nat)
    requires k < 2 && Regular(leaves, layout.size) && Narrow(leaves)
    ensures PartRegisters(PartType(layout, leaves, k, ClassAt(leaves, k))) == ByClass(ClassAt(leaves, k))
  {
    PartFromRegisters(layout.size, leaves, k * 8, LeafAt(leaves, k * 8), ClassAt(leaves, k));
  }

  lemma {:induction false} PartFromRegisters(size: nat, leaves: seq<Placed>, start: nat, at: Option<Leaf>, cls: Class)
    ensures PartRegisters(PartFrom(size, leaves, start, at, cls)) == ByClass(cls)
  {
  }

  function ByClass(cls: Class): Registers {
    Registers(Count(cls != Sse), Count(cls == Sse))
  }

  lemma {:induction false} PlusNothing(a: Registers)
    ensures Plus(a, Registers(0, 0)) == a
  {
  }

  lemma {:induction false} OneAssembled(low: CAbiType, high: CAbiType, classes: Classes)
    requires PartRegisters(low) == ByClass(classes.low) && classes.high == NoClass
    ensures PartsRegisters(Assemble(low, high, classes)) == ByClass(classes.low)
  {
  }

  lemma {:induction false} TwoAssembled(low: CAbiType, high: CAbiType, classes: Classes)
    requires PartRegisters(low) == ByClass(classes.low) && PartRegisters(high) == ByClass(classes.high)
    requires classes.high != NoClass
    ensures PartsRegisters(Assemble(low, high, classes)) == Plus(ByClass(classes.low), ClassRegisters(classes.high))
  {
    var parts := Assemble(low, high, classes);
    assert PartRegisters(parts[0]) == ByClass(classes.low);
    assert PartRegisters(parts[1]) == ByClass(classes.high) == ClassRegisters(classes.high);
  }

  lemma {:induction false} NarrowRegisters(layout: CAggregate, leaves: seq<Placed>)
    requires Regular(leaves, layout.size) && leaves != [Placed(0, LInt(16))]
    ensures var classes := ClassesOf(leaves);
      PartsRegisters(Parts(layout, leaves, classes)) == Plus(ByClass(classes.low), ClassRegisters(classes.high))
  {
    var classes := ClassesOf(leaves);
    NarrowUnlessWide(leaves, layout.size);
    PartRegistersByClass(layout, leaves, 0);
    var low, high := PartType(layout, leaves, 0, classes.low), PartType(layout, leaves, 1, classes.high);
    if classes.high == NoClass {
      OneAssembled(low, high, classes);
      PlusNothing(ByClass(classes.low));
    } else {
      PartRegistersByClass(layout, leaves, 1);
      TwoAssembled(low, high, classes);
    }
  }

  lemma {:induction false} WideRegisters(layout: CAggregate, leaves: seq<Placed>)
    requires leaves == [Placed(0, LInt(16))]
    ensures ClassesOf(leaves) == Classes(Integer, Integer)
    ensures PartsRegisters(Parts(layout, leaves, ClassesOf(leaves))) == Registers(2, 0)
  {
    assert Touches(leaves[0], 0) && Touches(leaves[0], 1);
  }

  /** The parts of a register-passed aggregate occupy exactly the registers it was charged for, if and only if its
      first eightbyte holds data; otherwise they occupy one more. */
  lemma {:induction false} ChargedRegistersAreUsed(layout: CAggregate)
    requires InRegisters(layout)
    ensures var leaves := Leaves(layout);
      PartsRegisters(Parts(layout, leaves, ClassesOf(leaves))) ==
      if ClassAt(leaves, 0) != NoClass then NeededRegisters(ClassesOf(leaves))
      else Plus(NeededRegisters(ClassesOf(leaves)), Registers(1, 0))
  {
    var leaves := Leaves(layout);
    RegisterLeavesAreRegular(layout);
    if leaves == [Placed(0, LInt(16))] {
      WideRegisters(layout, leaves);
    } else {
      NarrowRegisters(layout, leaves);
      Charge(ClassesOf(leaves), PartsRegisters(Parts(layout, leaves, ClassesOf(leaves))));
    }
  }

  /** Sixteen bytes with one integer in the second eightbyte. */
  const HOLLOW := CAggregate(16, 8, [Field(8, Int(8, false))])

  lemma {:induction false} HollowLeaves()
    ensures Leaves(HOLLOW) == [Placed(8, LInt(8))] && FieldsLaid(HOLLOW.fields, HOLLOW.size, POINTER_SIZE)
  {
    assert FieldLeaves(HOLLOW.fields[..0], 0, POINTER_SIZE) == [];
    assert FieldLaid(HOLLOW.fields[0], 16, POINTER_SIZE);
  }

  lemma {:induction false} HollowClasses(leaves: seq<Placed>)
    requires leaves == [Placed(8, LInt(8))]
    ensures !Unaligned(leaves) && ClassesOf(leaves) == Classes(NoClass, Integer)
  {
    assert Touches(leaves[0], 1) && !Touches(leaves[0], 0);
  }

  /** Data at the start of an aggregate fills its first eightbyte. */
  lemma {:induction false} DataAtStart(layout: CAggregate)
    requires FieldsLaid(layout.fields, layout.size, POINTER_SIZE) && LeafAt(Leaves(layout), 0).Some?
    ensures ClassAt(Leaves(layout), 0) != NoClass
  {
    var leaves := Leaves(layout);
    FieldsTile(layout.fields, layout.size, 0, POINTER_SIZE);
    var i :| 0 <= i < |leaves| && leaves[i].offset == 0;
    assert Touches(leaves[i], 0);
  }

  lemma {:induction false} Charge(classes: Classes, used: Registers)
    requires used == Plus(ByClass(classes.low), ClassRegisters(classes.high))
    ensures used == if classes.low != NoClass then NeededRegisters(classes)
      else Plus(NeededRegisters(classes), Registers(1, 0))
  {
    var low, high := ByClass(classes.low), ClassRegisters(classes.high);
    assert used.ints == low.ints + high.ints && used.sse == low.sse + high.sse;
    Charged(classes, low, high, NeededRegisters(classes), used);
  }

  lemma {:induction false} Charged(
    classes: Classes, low: Registers, high: Registers, needed: Registers, used: Registers)
    requires low.ints == Count(classes.low != Sse) && low.sse == Count(classes.low == Sse)
    requires high.ints == Count(classes.high == Integer) && high.sse == Count(classes.high == Sse)
    requires needed.ints == Count(classes.low == Integer) + high.ints && needed.sse == low.sse + high.sse
    requires used.ints == low.ints + high.ints && used.sse == low.sse + high.sse
    ensures used == if classes.low != NoClass then needed else Plus(needed, Registers(1, 0))
  {
  }

  /** Classes do not depend on the order in which leaves are listed. */
  lemma {:induction false} ClassesIgnoreLeafOrder(a: seq<Placed>, b: seq<Placed>, k: nat)
    requires multiset(a) == multiset(b)
    ensures ClassAt(a, k) == ClassAt(b, k)
  {
    assert forall p :: p in a <==> p in multiset(a);
    assert forall p :: p in b <==> p in multiset(b);
    assert forall i | 0 <= i < |a| :: a[i] in b;
    assert forall i | 0 <= i < |b| :: b[i] in a;
  }

  // ---------------------------------------------------------------------------------------------------------------
  // Classes and parts by the scalars of the aggregate.

  predicate Covers(scalar: CType, offset: nat, byte: nat) {
    offset <= byte < offset + Size(scalar, POINTER_SIZE)
  }

  /** A scalar at `offset` has a byte from `low` on and before `high`. */
  ghost predicate HasByte(scalar: CType, offset: nat, low: nat, high: nat) {
    exists byte: nat :: Covers(scalar, offset, byte) && low <= byte < high
  }

  ghost predicate ScalarAt(layout: CAggregate, scalar: CType, offset: nat) {
    HasScalar(Aggregate(layout), scalar, offset, POINTER_SIZE)
  }

  /** The aggregate has a scalar with a byte in eightbyte `k`. */
  ghost predicate ScalarIn(layout: CAggregate, scalar: CType, offset: nat, k: nat) {
    ScalarAt(layout, scalar, offset) && HasByte(scalar, offset, k * 8, k * 8 + 8)
  }

  function LeafFor(scalar: CType): Leaf
    requires IsScalar(scalar)
  {
    match scalar
    case Int(bytes, _) => LInt(bytes)
    case Float => LFloat
    case Double => LDouble
    case _ => LPointer
  }

  lemma {:induction false} LeadsToScalar(t: CType, path: seq<Step>, scalar: CType, offset: int)
    requires Leads(t, path, scalar, offset, POINTER_SIZE)
    ensures IsScalar(scalar)
    decreases |path|
  {
    if path != [] {
      match path[0]
      case Member(i) =>
        LeadsToScalar(t.layout.fields[i].ty, path[1..], scalar, offset - t.layout.fields[i].offset);
      case Element(i) =>
        LeadsToScalar(t.elem, path[1..], scalar, offset - Span(Size(t.elem, POINTER_SIZE), i));
    }
  }

  /** The leaf of a scalar is among the leaves. */
  lemma {:induction false} ScalarHasLeaf(layout: CAggregate, scalar: CType, offset: nat)
    requires ScalarAt(layout, scalar, offset)
    ensures IsScalar(scalar) && Placed(offset, LeafFor(scalar)) in Leaves(layout)
  {
    var path: seq<Step> :| Leads(Aggregate(layout), path, scalar, offset, POINTER_SIZE);
    LeadsToScalar(Aggregate(layout), path, scalar, offset);
    assert IsLeafOf(LeafFor(scalar), scalar);
    LeafIffScalar(Aggregate(layout), 0, POINTER_SIZE, Placed(offset, LeafFor(scalar)));
  }

  /** Every leaf has its scalar. */
  lemma {:induction false} LeafHasScalar(layout: CAggregate, p: Placed) returns (scalar: CType)
    requires p in Leaves(layout)
    ensures ScalarAt(layout, scalar, p.offset) && IsScalar(scalar) && p.leaf == LeafFor(scalar)
    ensures LeafSize(p.leaf, POINTER_SIZE) == Size(scalar, POINTER_SIZE)
  {
    LeafIffScalar(Aggregate(layout), 0, POINTER_SIZE, p);
    scalar :| HasScalar(Aggregate(layout), scalar, p.offset, POINTER_SIZE) && IsLeafOf(p.leaf, scalar);
    LeafIsAsWide(p.leaf, scalar, POINTER_SIZE);
  }

  lemma {:induction false} TouchIffByte(p: Placed, scalar: CType, k: nat)
    requires LeafSize(p.leaf, POINTER_SIZE) == Size(scalar, POINTER_SIZE) > 0
    ensures Touches(p, k) <==> HasByte(scalar, p.offset, k * 8, k * 8 + 8)
  {
    var b := if p.offset < k * 8 then k * 8 else p.offset;
    if Touches(p, k) {
      assert Covers(scalar, p.offset, b) && k * 8 <= b < k * 8 + 8;
    }
  }

  lemma {:induction false} TouchingHasScalar(layout: CAggregate, k: nat, i: nat) returns (scalar: CType)
    requires FieldsLaid(layout.fields, layout.size, POINTER_SIZE)
    requires i < |Leaves(layout)| && Touches(Leaves(layout)[i], k)
    ensures ScalarIn(layout, scalar, Leaves(layout)[i].offset, k)
    ensures ClassOf(Leaves(layout)[i].leaf) == Sse <==> scalar.Float? || scalar.Double?
  {
    FieldsTile(layout.fields, layout.size, 0, POINTER_SIZE);
    scalar := LeafHasScalar(layout, Leaves(layout)[i]);
    TouchIffByte(Leaves(layout)[i], scalar, k);
  }

  lemma {:induction false} ScalarInTouches(layout: CAggregate, scalar: CType, offset: nat, k: nat) returns (i: nat)
    requires FieldsLaid(layout.fields, layout.size, POINTER_SIZE) && ScalarIn(layout, scalar, offset, k)
    ensures i < |Leaves(layout)| && Touches(Leaves(layout)[i], k)
    ensures ClassOf(Leaves(layout)[i].leaf) == Sse <==> scalar.Float? || scalar.Double?
  {
    FieldsTile(layout.fields, layout.size, 0, POINTER_SIZE);
    ScalarHasLeaf(layout, scalar, offset);
    i :| i < |Leaves(layout)| && Leaves(layout)[i] == Placed(offset, LeafFor(scalar));
    LeafIsAsWide(LeafFor(scalar), scalar, POINTER_SIZE);
    TouchIffByte(Leaves(layout)[i], scalar, k);
  }

  /** An eightbyte has no class if no scalar has a byte in it, and is floating point if and only if some scalar has and
      every one that has is a `float` or a `double`. */
  lemma {:induction false} ClassByScalars(layout: CAggregate, k: nat)
    requires FieldsLaid(layout.fields, layout.size, POINTER_SIZE)
    ensures ClassAt(Leaves(layout), k) == NoClass <==> forall scalar, offset :: !ScalarIn(layout, scalar, offset, k)
    ensures ClassAt(Leaves(layout), k) == Sse <==>
      && (exists scalar, offset :: ScalarIn(layout, scalar, offset, k))
      && (forall scalar, offset | ScalarIn(layout, scalar, offset, k) :: scalar.Float? || scalar.Double?)
  {
    var leaves := Leaves(layout);
    if i :| 0 <= i < |leaves| && Touches(leaves[i], k) {
      var scalar := TouchingHasScalar(layout, k, i);
    }
    if i :| 0 <= i < |leaves| && Touches(leaves[i], k) && ClassOf(leaves[i].leaf) == Integer {
      var scalar := TouchingHasScalar(layout, k, i);
      assert ScalarIn(layout, scalar, leaves[i].offset, k) && !scalar.Float? && !scalar.Double?;
    }
    forall scalar, offset | ScalarIn(layout, scalar, offset, k)
      ensures exists i | 0 <= i < |leaves| ::
        Touches(leaves[i], k) && (ClassOf(leaves[i].leaf) == Sse <==> scalar.Float? || scalar.Double?)
    {
      var i := ScalarInTouches(layout, scalar, offset, k);
    }
  }

  lemma {:induction false} LeafIsScalarAt(layout: CAggregate, offset: nat, scalar: CType)
    requires scalar.Float? || scalar.Double? || scalar.Pointer?
    ensures Placed(offset, LeafFor(scalar)) in Leaves(layout) <==> ScalarAt(layout, scalar, offset)
  {
    if Placed(offset, LeafFor(scalar)) in Leaves(layout) {
      var found := LeafHasScalar(layout, Placed(offset, LeafFor(scalar)));
    }
    if ScalarAt(layout, scalar, offset) {
      ScalarHasLeaf(layout, scalar, offset);
    }
  }

  /** The machine type of a floating-point eightbyte tells which scalars are in it. */
  lemma {:induction false} FloatingPartByScalars(layout: CAggregate, k: nat)
    requires k < 2 && InRegisters(layout) && ClassAt(Leaves(layout), k) == Sse
    ensures var part := PartType(layout, Leaves(layout), k, Sse);
      && (part == ADouble <==> ScalarAt(layout, Double, k * 8))
      && (part == AFloatPair <==> ScalarAt(layout, Float, k * 8 + 4))
      && (part == AFloat <==> !ScalarAt(layout, Double, k * 8) && !ScalarAt(layout, Float, k * 8 + 4))
  {
    var leaves := Leaves(layout);
    RegisterLeavesAreRegular(layout);
    SseIsNarrow(leaves, layout.size, k);
    LeafIsScalarAt(layout, k * 8, Double);
    LeafIsScalarAt(layout, k * 8 + 4, Float);
    FloatingPart(layout, leaves, k);
  }

  lemma {:induction false} SseIsNarrow(leaves: seq<Placed>, size: nat, k: nat)
    requires k < 2 && Regular(leaves, size) && ClassAt(leaves, k) == Sse
    ensures Narrow(leaves)
  {
    if leaves == [Placed(0, LInt(16))] {
      assert Touches(leaves[0], k);
      assert false;
    }
    NarrowUnlessWide(leaves, size);
  }

  lemma {:induction false} FloatingPart(layout: CAggregate, leaves: seq<Placed>, k: nat)
    requires k < 2 && Regular(leaves, layout.size) && Narrow(leaves) && ClassAt(leaves, k) == Sse
    ensures var part := PartType(layout, leaves, k, Sse);
      && (part == ADouble <==> Placed(k * 8, LDouble) in leaves)
      && (part == AFloatPair <==> Placed(k * 8 + 4, LFloat) in leaves)
      && (part == AFloat <==> Placed(k * 8, LDouble) !in leaves && Placed(k * 8 + 4, LFloat) !in leaves)
  {
    var start := k * 8;
    if Placed(start, LDouble) in leaves {
      var d :| 0 <= d < |leaves| && leaves[d] == Placed(start, LDouble);
      OnlyLeafAt(leaves, layout.size, d);
      DoubleIsAlone(leaves, layout.size, start, d);
    } else if Placed(start + 4, LFloat) !in leaves {
      OnlyFloatAtStart(leaves, layout.size, k);
    }
  }

  lemma {:induction false} OnlyFloatAtStart(leaves: seq<Placed>, size: nat, k: nat)
    requires k < 2 && Regular(leaves, size) && Narrow(leaves) && ClassAt(leaves, k) == Sse
    requires Placed(k * 8, LDouble) !in leaves && Placed(k * 8 + 4, LFloat) !in leaves
    ensures !HasData(leaves, k * 8 + 4, Min(size, k * 8 + 8))
  {
    forall i | 0 <= i < |leaves| && Touches(leaves[i], k) ensures leaves[i] == Placed(k * 8, LFloat) {
      TouchingLeaf(leaves, size, k, i);
    }
  }

  lemma {:induction false} DoubleIsAlone(leaves: seq<Placed>, size: nat, start: nat, d: nat)
    requires Tiled(leaves, 0, size, POINTER_SIZE) && d < |leaves| && leaves[d] == Placed(start, LDouble)
    ensures Placed(start + 4, LFloat) !in leaves
  {
    if j :| 0 <= j < |leaves| && leaves[j] == Placed(start + 4, LFloat) {
      assert false;
    }
  }

  /** Some scalar has a byte of the eightbyte after its first `bytes` bytes. */
  ghost predicate MoreAfter(layout: CAggregate, k: nat, bytes: nat) {
    exists scalar, offset ::
      ScalarAt(layout, scalar, offset) && HasByte(scalar, offset, k * 8 + bytes, Min(layout.size, k * 8 + 8))
  }

  /** An integer at the start of the eightbyte with nothing after it. */
  ghost predicate OnlyInteger(layout: CAggregate, k: nat, bytes: nat) {
    && (exists signed :: ScalarAt(layout, Int(bytes, signed), k * 8))
    && (bytes == 8 || !MoreAfter(layout, k, bytes))
  }

  lemma {:induction false} DataIffMore(layout: CAggregate, k: nat, bytes: nat)
    requires InRegisters(layout) && k < 2 && bytes < 8 && k * 8 + bytes <= layout.size
    ensures HasData(Leaves(layout), k * 8 + bytes, Min(layout.size, k * 8 + 8)) <==> MoreAfter(layout, k, bytes)
  {
    var leaves, low, high := Leaves(layout), k * 8 + bytes, Min(layout.size, k * 8 + 8);
    RegisterLeavesAreRegular(layout);
    if i :| 0 <= i < |leaves| && leaves[i].offset < high && End(leaves[i], POINTER_SIZE) > low {
      var scalar := LeafHasScalar(layout, leaves[i]);
      DataHasByte(leaves[i], scalar, low, high, layout.size);
    }
    if scalar, offset :|
      ScalarAt(layout, scalar, offset) && HasByte(scalar, offset, k * 8 + bytes, Min(layout.size, k * 8 + 8)) {
      ScalarHasLeaf(layout, scalar, offset);
      LeafIsAsWide(LeafFor(scalar), scalar, POINTER_SIZE);
      var i :| 0 <= i < |leaves| && leaves[i] == Placed(offset, LeafFor(scalar));
    }
  }

  lemma {:induction false} DataHasByte(p: Placed, scalar: CType, low: nat, high: nat, size: nat)
    requires LeafSize(p.leaf, POINTER_SIZE) == Size(scalar, POINTER_SIZE) > 0 && End(p, POINTER_SIZE) <= size
    requires p.offset < high && End(p, POINTER_SIZE) > low && (low < high || high == size)
    ensures HasByte(scalar, p.offset, low, high)
  {
    var b := if p.offset < low then low else p.offset;
    assert Covers(scalar, p.offset, b) && low <= b < high;
  }

  /** The machine type of any other eightbyte: a pointer, the one integer in it, or all its bytes. */
  lemma {:induction false} IntegerPartByScalars(layout: CAggregate, k: nat)
    requires k < 2 && InRegisters(layout) && Narrow(Leaves(layout)) && ClassAt(Leaves(layout), k) == Integer
    ensures var part := PartType(layout, Leaves(layout), k, Integer);
      && (part == APointer <==> ScalarAt(layout, Pointer, k * 8))
      && (part != APointer ==> part.AInt?)
      && (part.AInt? ==> forall bytes | OnlyInteger(layout, k, bytes) :: part.bytes == bytes)
      && (part.AInt? && (forall bytes :: !OnlyInteger(layout, k, bytes)) ==>
            k * 8 + part.bytes == Min(layout.size, k * 8 + 8))
  {
    RegisterLeavesAreRegular(layout);
    IntegerReaches(Leaves(layout), layout.size, k);
    PointerPart(layout, k);
    if !ScalarAt(layout, Pointer, k * 8) {
      IntegerWidth(layout, k);
    }
  }

  lemma {:induction false} PointerPart(layout: CAggregate, k: nat)
    requires k < 2 && InRegisters(layout) && Regular(Leaves(layout), layout.size) && k * 8 < layout.size
    ensures var part := PartType(layout, Leaves(layout), k, Integer);
      (part == APointer <==> ScalarAt(layout, Pointer, k * 8)) && (part != APointer ==> part.AInt?)
  {
    var leaves := Leaves(layout);
    LeafIsScalarAt(layout, k * 8, Pointer);
    if d :| 0 <= d < |leaves| && leaves[d] == Placed(k * 8, LPointer) {
      OnlyLeafAt(leaves, layout.size, d);
    }
    if LeafAt(leaves, k * 8) == Some(LPointer) {
      assert Placed(k * 8, LPointer) in leaves;
    }
  }

  lemma {:induction false} IntegerWidth(layout: CAggregate, k: nat)
    requires k < 2 && InRegisters(layout) && Regular(Leaves(layout), layout.size) && Narrow(Leaves(layout))
    requires k * 8 < layout.size && PartType(layout, Leaves(layout), k, Integer).AInt?
    ensures var part := PartType(layout, Leaves(layout), k, Integer);
      && (forall bytes | OnlyInteger(layout, k, bytes) :: part.bytes == bytes)
      && ((forall bytes :: !OnlyInteger(layout, k, bytes)) ==> k * 8 + part.bytes == Min(layout.size, k * 8 + 8))
  {
    var leaves, part := Leaves(layout), PartType(layout, Leaves(layout), k, Integer);
    var at := LeafAt(leaves, k * 8);
    forall bytes | OnlyInteger(layout, k, bytes) ensures part.bytes == bytes {
      IntegerAt(layout, k * 8, bytes);
      LeafAtFits(leaves, layout.size, k * 8);
      if bytes < 8 {
        DataIffMore(layout, k, bytes);
      }
    }
    if at.Some? && at.value.LInt? && !OnlyInteger(layout, k, at.value.bytes) {
      IntegerAt(layout, k * 8, at.value.bytes);
      LeafAtFits(leaves, layout.size, k * 8);
      DataIffMore(layout, k, at.value.bytes);
    }
  }

  lemma {:induction false} IntegerReaches(leaves: seq<Placed>, size: nat, k: nat)
    requires Tiled(leaves, 0, size, POINTER_SIZE) && ClassAt(leaves, k) == Integer
    ensures k * 8 < size
  {
    var i :| 0 <= i < |leaves| && Touches(leaves[i], k);
    assert End(leaves[i], POINTER_SIZE) <= size;
  }

  lemma {:induction false} IntegerAt(layout: CAggregate, start: nat, bytes: nat)
    requires FieldsLaid(layout.fields, layout.size, POINTER_SIZE)
    ensures (exists signed :: ScalarAt(layout, Int(bytes, signed), start)) <==>
      LeafAt(Leaves(layout), start) == Some(LInt(bytes))
  {
    var leaves := Leaves(layout);
    FieldsTile(layout.fields, layout.size, 0, POINTER_SIZE);
    if signed :| ScalarAt(layout, Int(bytes, signed), start) {
      ScalarHasLeaf(layout, Int(bytes, signed), start);
      var d :| 0 <= d < |leaves| && leaves[d] == Placed(start, LInt(bytes));
      OnlyLeafAt(leaves, layout.size, d);
    }
    if LeafAt(leaves, start) == Some(LInt(bytes)) {
      var scalar := LeafHasScalar(layout, Placed(start, LInt(bytes)));
      assert scalar == Int(bytes, scalar.signed);
    }
  }

  predicate Misplaced(scalar: CType, offset: nat)
    requires Size(scalar, POINTER_SIZE) > 0
  {
    offset % Size(scalar, POINTER_SIZE) != 0
  }

  ghost predicate MisplacedScalar(layout: CAggregate, scalar: CType, offset: nat) {
    ScalarAt(layout, scalar, offset) && Size(scalar, POINTER_SIZE) > 0 && Misplaced(scalar, offset)
  }

  /** An aggregate is unaligned if and only if some scalar is not at a multiple of its own size. */
  lemma {:induction false} UnalignedByScalars(layout: CAggregate)
    requires FieldsLaid(layout.fields, layout.size, POINTER_SIZE)
    ensures Unaligned(Leaves(layout)) <==> exists scalar, offset :: MisplacedScalar(layout, scalar, offset)
  {
    var leaves := Leaves(layout);
    FieldsTile(layout.fields, layout.size, 0, POINTER_SIZE);
    if i :| 0 <= i < |leaves| && !AlignedTo(leaves[i].offset, LeafAlign(leaves[i].leaf)) {
      var scalar := LeafHasScalar(layout, leaves[i]);
      AlignedIffAtMultiple(leaves[i].offset, leaves[i].leaf);
      assert MisplacedScalar(layout, scalar, leaves[i].offset);
    }
    if scalar, offset :| MisplacedScalar(layout, scalar, offset) {
      ScalarHasLeaf(layout, scalar, offset);
      LeafIsAsWide(LeafFor(scalar), scalar, POINTER_SIZE);
      var i :| 0 <= i < |leaves| && leaves[i] == Placed(offset, LeafFor(scalar));
      AlignedIffAtMultiple(offset, leaves[i].leaf);
    }
  }

  lemma {:induction false} AlignedIffAtMultiple(offset: nat, leaf: Leaf)
    requires LeafSize(leaf, POINTER_SIZE) in {1, 2, 4, 8, 16}
    ensures AlignedTo(offset, LeafAlign(leaf)) <==> offset % LeafSize(leaf, POINTER_SIZE) == 0
  {
  }
}
