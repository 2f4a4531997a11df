/** A whole call on System V AMD64: which arguments get registers, all or nothing, left to right. */
module SysV64Calls {
  import opened Options
  import opened CTypes
  import opened SysV64

  const BUDGET := Registers(INT_REGISTERS, SSE_REGISTERS)

  /** The registers an argument asks for; `None` when it never takes any. */
  ghost function Demand(t: CType): Option<Registers> {
    match t
    case Aggregate(layout) => LeavesDemand(layout.size, Leaves(layout))
    case _ => Some(ScalarRegisters(t))
  }

  ghost function LeavesDemand(size: nat, leaves: seq<Placed>): Option<Registers> {
    if size == 0 || size > 16 || Unaligned(leaves) then None else Some(NeededRegisters(ClassesOf(leaves)))
  }

  function ScalarRegisters(t: CType): Registers {
    if t.Float? || t.Double? then Registers(0, 1)
    else if t.Int? && t.bytes == 16 then Registers(2, 0)
    else Registers(1, 0)
  }

  predicate Within(a: Registers, b: Registers) {
    a.ints <= b.ints && a.sse <= b.sse
  }

  ghost predicate Granted(demand: Option<Registers>, used: Registers) {
    demand.Some? && Within(Plus(used, demand.value), BUDGET)
  }

  /** Registers in use after these demands: each gets all it asks for or nothing, from left to right. */
  ghost function Taken(demands: seq<Option<Registers>>, start: Registers): Registers {
    if demands == [] then start else
    var before, demand := Taken(demands[..|demands| - 1], start), demands[|demands| - 1];
    if Granted(demand, before) then Plus(before, demand.value) else before
  }

  ghost function Demands(params: seq<CType>): seq<Option<Registers>> {
    seq(|params|, i requires 0 <= i < |params| => Demand(params[i]))
  }

  /** Argument `i` gets registers. */
  ghost predicate Fits(params: seq<CType>, i: nat, start: Registers)
    requires i < |params|
  {
    Granted(Demand(params[i]), Taken(Demands(params)[..i], start))
  }

  /** The machine form of an argument, given whether it got registers. */
  ghost function ArgFor(t: CType, fits: bool): CArg {
    match t
    case Aggregate(layout) =>
      if layout.size == 0 then Ignore
      else if fits then InParts(Parts(layout, Leaves(layout), ClassesOf(Leaves(layout))))
      else Byval(if layout.align > 8 then layout.align else 8)
    case _ => Natural(ScalarExtension(t))
  }

  function InParts(parts: seq<CAbiType>): CArg {
    if |parts| == 1 then Coerced(parts[0])
    else Expand(seq(|parts|, j requires 0 <= j < |parts| => Part(PartOffset(j), parts[j])))
  }

  ghost function RetFor(ret: Option<CType>): CRet {
    match ret
    case None => Void
    case Some(Aggregate(layout)) =>
      if layout.size == 0 then Void
      else if layout.size > 16 || Unaligned(Leaves(layout)) then SRet(layout.align)
      else CoercedRet(Parts(layout, Leaves(layout), ClassesOf(Leaves(layout))))
    case Some(t) => NaturalRet(ScalarExtension(t))
  }

  /** A result in memory takes the first integer register for its hidden pointer. */
  ghost function Start(ret: Option<CType>): Registers {
    if RetFor(ret).SRet? then Registers(1, 0) else Registers(0, 0)
  }

  method ClassifyRet(ret: Option<CType>) returns (r: CRet)
    ensures r == RetFor(ret)
  {
    match ret
    case None => r := Void;
    case Some(Aggregate(layout)) =>
      if layout.size == 0 {
        return Void;
      }
      var leaves := PushFields(layout.fields, 0, POINTER_SIZE, []);
      assert leaves == Leaves(layout);
      var classes := ClassifyEightbytes(layout, leaves);
      r := if classes.None? then SRet(layout.align) else CoercedRet(Parts(layout, leaves, classes.value));
    case Some(t) => r := NaturalRet(ScalarExtension(t));
  }

  function Minus(a: Registers, b: Registers): Registers
    requires Within(b, a)
  {
    Registers(a.ints - b.ints, a.sse - b.sse)
  }

  /** One argument: its form and the registers left for the next. */
  method ClassifyArg(t: CType, free: Registers, ghost used: Registers) returns (arg: CArg, left: Registers)
    requires Plus(used, free) == BUDGET
    ensures arg == ArgFor(t, Granted(Demand(t), used))
    ensures left == if Granted(Demand(t), used) then Minus(free, Demand(t).value) else free
  {
    left := free;
    match t
    case Aggregate(layout) =>
      if layout.size == 0 {
        return Ignore, free;
      }
      var byval := Byval(if layout.align > 8 then layout.align else 8);
      var leaves := PushFields(layout.fields, 0, POINTER_SIZE, []);
      assert leaves == Leaves(layout);
      var classes := ClassifyEightbytes(layout, leaves);
      if classes.None? {
        return byval, free;
      }
      var needed := NeededRegisters(classes.value);
      if needed.ints > free.ints || needed.sse > free.sse {
        return byval, free;
      }
      left := Minus(free, needed);
      arg := InParts(Parts(layout, leaves, classes.value));
    case _ =>
      var needed := ScalarRegisters(t);
      if needed.ints <= free.ints && needed.sse <= free.sse {
        left := Minus(free, needed);
      }
      arg := Natural(ScalarExtension(t));
  }

  lemma {:induction false} TakenStep(demands: seq<Option<Registers>>, i: nat, start: Registers)
    requires i < |demands|
    ensures var used := Taken(demands[..i], start);
      Taken(demands[..i + 1], start) == if Granted(demands[i], used) then Plus(used, demands[i].value) else used
  {
    assert demands[..i + 1][..i] == demands[..i];
  }

  method Classify(params: seq<CType>, ret: Option<CType>) returns (args: seq<CArg>, result: CRet)
    ensures result == RetFor(ret)
    ensures args == Forms(params, Start(ret))
  {
    result := ClassifyRet(ret);
    var free := BUDGET;
    ghost var start := Start(ret);
    if result.SRet? {
      free := Registers(free.ints - 1, free.sse);
    }
    args := ClassifyArgs(params, free, start);
  }

  /** The forms of all arguments. */
  ghost function Forms(params: seq<CType>, start: Registers): seq<CArg> {
    seq(|params|, i requires 0 <= i < |params| => ArgFor(params[i], Fits(params, i, start)))
  }

  method ClassifyArgs(params: seq<CType>, budget: Registers, ghost start: Registers) returns (args: seq<CArg>)
    requires Plus(start, budget) == BUDGET
    ensures args == Forms(params, start)
  {
    var free := budget;
    ghost var forms := Forms(params, start);
    args := [];
    for i := 0 to |params|
      invariant args == forms[..i]
      invariant Plus(Taken(Demands(params)[..i], start), free) == BUDGET
    {
      var arg;
      arg, free := NextArg(params, i, free, start);
      assert arg == forms[i];
      args := args + [arg];
    }
  }

  method NextArg(params: seq<CType>, i: nat, free: Registers, ghost start: Registers)
    returns (arg: CArg, left: Registers)
    requires i < |params| && Plus(Taken(Demands(params)[..i], start), free) == BUDGET
    ensures arg == ArgFor(params[i], Fits(params, i, start))
    ensures Plus(Taken(Demands(params)[..i + 1], start), left) == BUDGET
  {
    TakenStep(Demands(params), i, start);
    arg, left := ClassifyArg(params[i], free, Taken(Demands(params)[..i], start));
  }

  // ---------------------------------------------------------------------------------------------------------------
  // What the forms mean for the machine registers.

  /** The machine registers argument `t` really occupies when it got registers. */
  ghost function Occupied(t: CType): Registers {
    match t
    case Aggregate(layout) => PartsRegisters(Parts(layout, Leaves(layout), ClassesOf(Leaves(layout))))
    case _ => ScalarRegisters(t)
  }

  /** The sum of what the granted demands really occupy. */
  ghost function Total(demands: seq<Option<Registers>>, occupied: seq<Registers>, start: Registers): Registers
    requires |demands| == |occupied|
  {
    if demands == [] then start else
    var n := |demands| - 1;
    var before := Total(demands[..n], occupied[..n], start);
    if Granted(demands[n], Taken(demands[..n], start)) then Plus(before, occupied[n]) else before
  }

  ghost function Occupation(params: seq<CType>): seq<Registers> {
    seq(|params|, i requires 0 <= i < |params| => Occupied(params[i]))
  }

  ghost predicate LaidOut(t: CType) {
    t.Aggregate? ==> FieldsLaid(t.layout.fields, t.layout.size, POINTER_SIZE)
  }

  /** An aggregate with nothing in its first eightbyte. */
  ghost predicate Hollow(t: CType) {
    t.Aggregate? && ClassAt(Leaves(t.layout), 0) == NoClass
  }

  lemma {:induction false} OccupiedOrOneMore(t: CType)
    requires LaidOut(t) && Demand(t).Some?
    ensures Occupied(t) == if Hollow(t) then Plus(Demand(t).value, Registers(1, 0)) else Demand(t).value
  {
    if t.Aggregate? {
      ChargedRegistersAreUsed(t.layout);
    }
  }

  lemma {:induction false} TakenWithinBudget(demands: seq<Option<Registers>>, start: Registers)
    requires Within(start, BUDGET)
    ensures Within(Taken(demands, start), BUDGET)
  {
    if demands != [] {
      TakenWithinBudget(demands[..|demands| - 1], start);
    }
  }

  /** How many granted demands come from hollow aggregates. */
  ghost function HollowGrants(demands: seq<Option<Registers>>, hollow: seq<bool>, start: Registers): nat
    requires |demands| == |hollow|
  {
    if demands == [] then 0 else
    var n := |demands| - 1;
    HollowGrants(demands[..n], hollow[..n], start) +
    if hollow[n] && Granted(demands[n], Taken(demands[..n], start)) then 1 else 0
  }

  ghost function Hollows(params: seq<CType>): seq<bool> {
    seq(|params|, i requires 0 <= i < |params| => Hollow(params[i]))
  }

  lemma {:induction false} TotalIsTakenAndHollow(
    demands: seq<Option<Registers>>, occupied: seq<Registers>, hollow: seq<bool>, start: Registers)
    requires |demands| == |occupied| == |hollow|
    requires forall i | 0 <= i < |demands| && demands[i].Some? ::
      occupied[i] == if hollow[i] then Plus(demands[i].value, Registers(1, 0)) else demands[i].value
    ensures Total(demands, occupied, start) ==
      Plus(Taken(demands, start), Registers(HollowGrants(demands, hollow, start), 0))
  {
    if demands != [] {
      var n := |demands| - 1;
      TotalIsTakenAndHollow(demands[..n], occupied[..n], hollow[..n], start);
    }
  }

  lemma {:induction false} NoHollowGrants(demands: seq<Option<Registers>>, hollow: seq<bool>, start: Registers)
    requires |demands| == |hollow|
    ensures HollowGrants(demands, hollow, start) == 0 <==>
      forall i | 0 <= i < |demands| :: !HollowGrant(demands, hollow, start, i)
  {
    if demands != [] {
      var n := |demands| - 1;
      NoHollowGrants(demands[..n], hollow[..n], start);
      forall i | 0 <= i < n
        ensures HollowGrant(demands[..n], hollow[..n], start, i) <==> HollowGrant(demands, hollow, start, i)
      {
        assert demands[..n][..i] == demands[..i];
      }
      assert HollowGrants(demands, hollow, start) == 0 <==>
        HollowGrants(demands[..n], hollow[..n], start) == 0 && !HollowGrant(demands, hollow, start, n);
    }
  }

  /** Demand `i` is granted and comes from a hollow aggregate. */
  ghost predicate HollowGrant(demands: seq<Option<Registers>>, hollow: seq<bool>, start: Registers, i: nat)
    requires i < |demands| == |hollow|
  {
    hollow[i] && Granted(demands[i], Taken(demands[..i], start))
  }

  /** At most six integer and eight vector registers are counted, and the register arguments occupy those and one
      integer register more for every hollow aggregate among them. */
  lemma {:induction false} RegistersAreConserved(params: seq<CType>, start: Registers)
    requires Within(start, BUDGET) && forall i | 0 <= i < |params| :: LaidOut(params[i])
    ensures var demands := Demands(params);
      && Within(Taken(demands, start), Registers(6, 8))
      && Total(demands, Occupation(params), start) ==
         Plus(Taken(demands, start), Registers(HollowGrants(demands, Hollows(params), start), 0))
  {
    var demands, occupied := Demands(params), Occupation(params);
    TakenWithinBudget(demands, start);
    forall i | 0 <= i < |demands| && demands[i].Some?
      ensures occupied[i] == if Hollows(params)[i] then Plus(demands[i].value, Registers(1, 0)) else demands[i].value
    {
      OccupiedOrOneMore(params[i]);
    }
    TotalIsTakenAndHollow(demands, occupied, Hollows(params), start);
  }

  /** The count is exact if and only if no hollow aggregate gets registers. */
  lemma {:induction false} CountIsExactIffNoHollow(params: seq<CType>, start: Registers)
    requires Within(start, BUDGET) && forall i | 0 <= i < |params| :: LaidOut(params[i])
    ensures Total(Demands(params), Occupation(params), start) == Taken(Demands(params), start) <==>
      forall i | 0 <= i < |params| && Fits(params, i, start) :: !Hollow(params[i])
  {
    RegistersAreConserved(params, start);
    NoHollowGrants(Demands(params), Hollows(params), start);
    forall i | 0 <= i < |params|
      ensures HollowGrant(Demands(params), Hollows(params), start, i) <==> Fits(params, i, start) && Hollow(params[i])
    {
    }
  }

  /** An aggregate in registers with nothing in its first eightbyte and an integer in its second. */
  ghost predicate HollowInteger(layout: CAggregate) {
    InRegisters(layout) && ClassesOf(Leaves(layout)) == Classes(NoClass, Integer)
  }

  lemma {:induction false} HollowDemand(layout: CAggregate)
    requires HollowInteger(layout)
    ensures var t := Aggregate(layout); LaidOut(t) && Hollow(t) && Demand(t) == Some(Registers(1, 0))
  {
    HollowLeavesDemand(layout.size, Leaves(layout));
  }

  lemma {:induction false} HollowLeavesDemand(size: nat, leaves: seq<Placed>)
    requires 0 < size <= 16 && !Unaligned(leaves) && ClassesOf(leaves) == Classes(NoClass, Integer)
    ensures LeavesDemand(size, leaves) == Some(Registers(1, 0)) && ClassAt(leaves, 0) == NoClass
  {
    HollowNeed(ClassesOf(leaves), ClassAt(leaves, 0), ClassAt(leaves, 1));
  }

  lemma {:induction false} HollowNeed(classes: Classes, low: Class, high: Class)
    requires classes == Classes(low, high) == Classes(NoClass, Integer)
    ensures NeededRegisters(classes) == Registers(1, 0) && low == NoClass
  {
  }

  /** It is charged one register and occupies two. */
  lemma {:induction false} HollowTakesMore(t: CType)
    requires LaidOut(t) && Hollow(t) && Demand(t) == Some(Registers(1, 0))
    ensures Occupied(t) == Registers(2, 0)
  {
    OccupiedOrOneMore(t);
  }

  /** There is such an aggregate. */
  lemma {:induction false} HollowExists()
    ensures HollowInteger(HOLLOW) && Demand(Aggregate(HOLLOW)) == Some(Registers(1, 0))
    ensures Occupied(Aggregate(HOLLOW)) == Registers(2, 0)
  {
    HollowLeaves();
    HollowClasses(Leaves(HOLLOW));
    HollowDemand(HOLLOW);
    HollowTakesMore(Aggregate(HOLLOW));
  }

  lemma {:induction false} EqualGrants(demands: seq<Option<Registers>>, hollow: seq<bool>)
    requires |demands| == |hollow| <= INT_REGISTERS
    requires forall i | 0 <= i < |demands| :: demands[i] == Some(Registers(1, 0)) && hollow[i]
    ensures Taken(demands, Registers(0, 0)) == Registers(|demands|, 0)
    ensures HollowGrants(demands, hollow, Registers(0, 0)) == |demands|
  {
    if demands != [] {
      EqualGrants(demands[..|demands| - 1], hollow[..|demands| - 1]);
    }
  }

  lemma {:induction false} HollowCount(params: seq<CType>, t: CType)
    requires Hollow(t) && Demand(t) == Some(Registers(1, 0))
    requires |params| <= INT_REGISTERS && forall i | 0 <= i < |params| :: params[i] == t
    ensures Taken(Demands(params), Registers(0, 0)) == Registers(|params|, 0)
    ensures HollowGrants(Demands(params), Hollows(params), Registers(0, 0)) == |params|
  {
    var demands, hollow := Demands(params), Hollows(params);
    forall i | 0 <= i < |params| ensures demands[i] == Some(Registers(1, 0)) && hollow[i] {
      assert demands[i] == Demand(params[i]) && hollow[i] == Hollow(params[i]);
    }
    EqualGrants(demands, hollow);
  }

  lemma {:induction false} HollowParams(params: seq<CType>, t: CType)
    requires LaidOut(t) && Hollow(t) && Demand(t) == Some(Registers(1, 0))
    requires |params| <= INT_REGISTERS && forall i | 0 <= i < |params| :: params[i] == t
    ensures Taken(Demands(params), Registers(0, 0)) == Registers(|params|, 0)
    ensures Total(Demands(params), Occupation(params), Registers(0, 0)) == Registers(2 * |params|, 0)
  {
    HollowCount(params, t);
    RegistersAreConserved(params, Registers(0, 0));
  }

  /** Up to six such structs are all granted and occupy twice what is counted; from four on that is more than there
      is. */
  lemma {:induction false} HollowArgumentsOverrun(layout: CAggregate, params: seq<CType>)
    requires HollowInteger(layout) && |params| <= INT_REGISTERS
    requires forall i | 0 <= i < |params| :: params[i] == Aggregate(layout)
    ensures var counted, used :=
        Taken(Demands(params), Registers(0, 0)), Total(Demands(params), Occupation(params), Registers(0, 0));
      && Within(counted, BUDGET)
      && used == Registers(2 * |params|, 0)
      && (Within(used, BUDGET) <==> |params| <= 3)
  {
    HollowDemand(layout);
    HollowParams(params, Aggregate(layout));
  }

  /** An argument in memory leaves every register to the arguments after it. */
  lemma {:induction false} MemoryArgumentsTakeNothing(
    before: seq<Option<Registers>>, demand: Option<Registers>, after: seq<Option<Registers>>, start: Registers)
    requires !Granted(demand, Taken(before, start))
    ensures Taken(before + [demand] + after, start) == Taken(before + after, start)
  {
    var all := before + [demand] + after;
    if after == [] {
      assert all[..|all| - 1] == before && before + after == before;
    } else {
      var init := after[..|after| - 1];
      MemoryArgumentsTakeNothing(before, demand, init, start);
      assert all[..|all| - 1] == before + [demand] + init;
      assert (before + after)[..|before + after| - 1] == before + init;
    }
  }

  /** Once an argument is turned away, every later one that asks for at least as much is turned away too. */
  lemma {:induction false} RefusalIsPermanent(params: seq<CType>, start: Registers, i: nat, j: nat)
    requires i < j < |params| && !Fits(params, i, start)
    requires Demand(params[i]).Some? && Demand(params[j]).Some? &&
      Within(Demand(params[i]).value, Demand(params[j]).value)
    ensures !Fits(params, j, start)
  {
    TakenGrows(Demands(params), start, i, j);
  }

  lemma {:induction false} TakenGrows(demands: seq<Option<Registers>>, start: Registers, i: nat, j: nat)
    requires i <= j <= |demands|
    ensures Within(Taken(demands[..i], start), Taken(demands[..j], start))
  {
    if i < j {
      TakenGrows(demands, start, i, j - 1);
      TakenStep(demands, j - 1, start);
    }
  }

  // ---------------------------------------------------------------------------------------------------------------
  // Scalars, and what each form carries.

  /** A `float` or `double` takes one vector register and nothing else; every other scalar takes no vector register and
      just enough eight-byte integer registers. */
  lemma {:induction false} ScalarFile(t: CType)
    requires IsScalar(t) && Laid(t, POINTER_SIZE)
    ensures var needed := ScalarRegisters(t);
      && (t.Float? || t.Double? ==> needed == Registers(0, 1))
      && (t.Int? || t.Pointer? ==>
            needed.sse == 0 && 8 * needed.ints < Size(t, POINTER_SIZE) + 8 && Size(t, POINTER_SIZE) <= 8 * needed.ints)
  {
  }

  function Wrapped(t: CType, align: nat): CType {
    Aggregate(CAggregate(Size(t, POINTER_SIZE), align, [Field(0, t)]))
  }

  /** A scalar asks for the registers that a struct with that scalar as its only field asks for. */
  lemma {:induction false} ScalarIsLikeItsStruct(t: CType, align: nat)
    requires IsScalar(t) && Laid(t, POINTER_SIZE)
    ensures Demand(Wrapped(t, align)) == Demand(t)
  {
    var layout := Wrapped(t, align).layout;
    OnlyLeaf(t, layout.fields);
    OnlyLeafDemand(Leaves(layout), LeafFor(t), layout.size, ScalarRegisters(t));
  }

  lemma {:induction false} OnlyLeafDemand(leaves: seq<Placed>, leaf: Leaf, size: nat, needed: Registers)
    requires leaves == [Placed(0, leaf)] && LeafSize(leaf, POINTER_SIZE) == size && size in {1, 2, 4, 8, 16}
    requires needed == ScalarNeed(leaf)
    ensures LeavesDemand(size, leaves) == Some(needed)
  {
    OneLeafClasses(leaves, leaf);
    OneLeafDemand(ClassesOf(leaves), leaf);
    AtZeroIsAligned(leaves, leaf);
    DemandOfClasses(size, leaves, ClassesOf(leaves), needed);
  }

  function ScalarNeed(leaf: Leaf): Registers {
    if leaf.LFloat? || leaf.LDouble? then Registers(0, 1)
    else Registers(if LeafSize(leaf, POINTER_SIZE) > 8 then 2 else 1, 0)
  }

  lemma {:induction false} AtZeroIsAligned(leaves: seq<Placed>, leaf: Leaf)
    requires leaves == [Placed(0, leaf)]
    ensures !Unaligned(leaves)
  {
  }

  lemma {:induction false} DemandOfClasses(size: nat, leaves: seq<Placed>, classes: Classes, needed: Registers)
    requires 0 < size <= 16 && !Unaligned(leaves) && classes == ClassesOf(leaves) && needed == NeededRegisters(classes)
    ensures LeavesDemand(size, leaves) == Some(needed)
  {
  }

  lemma {:induction false} OnlyLeaf(t: CType, fields: seq<Field>)
    requires IsScalar(t) && fields == [Field(0, t)]
    ensures FieldLeaves(fields, 0, POINTER_SIZE) == [Placed(0, LeafFor(t))]
  {
    assert fields[..|fields| - 1] == [] && fields[1..] == [];
    assert LeavesOf(t, 0, POINTER_SIZE) == [Placed(0, LeafFor(t))];
  }

  lemma {:induction false} OneLeafClasses(leaves: seq<Placed>, leaf: Leaf)
    requires leaves == [Placed(0, leaf)] && LeafSize(leaf, POINTER_SIZE) in {1, 2, 4, 8, 16}
    ensures ClassesOf(leaves) ==
      Classes(ClassOf(leaf), if LeafSize(leaf, POINTER_SIZE) > 8 then ClassOf(leaf) else NoClass)
  {
    assert Touches(leaves[0], 0) && (Touches(leaves[0], 1) <==> LeafSize(leaf, POINTER_SIZE) > 8);
  }

  lemma {:induction false} OneLeafDemand(classes: Classes, leaf: Leaf)
    requires classes == Classes(ClassOf(leaf), if LeafSize(leaf, POINTER_SIZE) > 8 then ClassOf(leaf) else NoClass)
    ensures NeededRegisters(classes) == ScalarNeed(leaf)
  {
  }

  /** How many values `bytes` bytes have. */
  function Modulus(bytes: nat): nat {
    if bytes == 0 then 1 else 256 * Modulus(bytes - 1)
  }

  /** The integer that `bytes` bytes with the unsigned value `raw` stand for, in two's complement when signed. */
  function Reading(raw: nat, bytes: nat, signed: bool): int {
    if signed && 2 * raw >= Modulus(bytes) then raw - Modulus(bytes) else raw
  }

  /** Four bytes that the extension may turn the value into. Without one the bytes above are anything. */
  ghost predicate Extends(extension: CExtension, raw: nat, bytes: nat, wide: nat) {
    match extension
    case ZeroExtension => wide == raw
    case SignExtension =>
      wide == if 2 * raw >= Modulus(bytes) then raw + Modulus(4) - Modulus(bytes) else raw
    case NoExtension => wide < Modulus(4) && exists rest: nat :: wide == raw + Above(rest, bytes)
  }

  function Above(rest: nat, bytes: nat): nat {
    rest * Modulus(bytes)
  }

  ghost predicate KeepsReading(extension: CExtension, raw: nat, bytes: nat, signed: bool, wide: nat) {
    Extends(extension, raw, bytes, wide) ==> Reading(wide, 4, signed) == Reading(raw, bytes, signed)
  }

  /** Of the three extensions exactly the chosen one keeps the value of every integer below four bytes, read with its
      signedness. */
  lemma {:induction false} ExtensionKeepsEveryValue(bytes: nat, signed: bool, extension: CExtension)
    requires 0 < bytes < 4
    ensures extension == ScalarExtension(Int(bytes, signed)) <==>
      forall raw: nat, wide: nat | raw < Modulus(bytes) :: KeepsReading(extension, raw, bytes, signed, wide)
  {
    Moduli();
    var full, half := Modulus(bytes), Modulus(bytes) / 2;
    if extension == NoExtension {
      assert full == 0 + Above(1, bytes);
      assert Extends(extension, 0, bytes, full);
      assert !KeepsReading(extension, 0, bytes, signed, full);
    } else if extension != ScalarExtension(Int(bytes, signed)) {
      var wide := if extension == ZeroExtension then half else half + Modulus(4) - full;
      assert Extends(extension, half, bytes, wide);
      assert !KeepsReading(extension, half, bytes, signed, wide);
    }
  }

  lemma {:induction false} Moduli()
    ensures Modulus(1) == 256 && Modulus(2) == 65536 && Modulus(3) == 16777216 && Modulus(4) == 4294967296
  {
    assert Modulus(1) == 256 * Modulus(0);
    assert Modulus(2) == 256 * Modulus(1);
    assert Modulus(3) == 256 * Modulus(2);
    assert Modulus(4) == 256 * Modulus(3);
  }

  /** Nothing else is extended. */
  lemma {:induction false} OnlySmallIntegersAreExtended(t: CType)
    ensures ScalarExtension(t) != NoExtension <==> t.Int? && Size(t, POINTER_SIZE) < 4
  {
  }

  /** The machine parts of an argument passed in registers. */
  function Pieces(arg: CArg): seq<Part>
    requires arg.Coerced? || arg.Expand?
  {
    match arg
    case Coerced(ty) => [Part(0, ty)]
    case Expand(parts) => parts
  }

  predicate PieceCovers(piece: Part, byte: nat) {
    piece.offset <= byte < piece.offset + PartBytes(piece.ty)
  }

  /** In registers, an aggregate is one part or two at offsets 0 and 8 inside it. Every byte of every scalar is in one
      of them, and a part is in a vector register if and only if its eightbyte is floating point. */
  lemma {:induction false} FormCarriesTheAggregate(layout: CAggregate)
    requires InRegisters(layout)
    ensures var arg := ArgFor(Aggregate(layout), true);
      && (arg.Coerced? || arg.Expand?)
      && 1 <= |Pieces(arg)| <= 2
      && (forall j | 0 <= j < |Pieces(arg)| :: PieceIsPlaced(layout, Pieces(arg)[j], j))
      && (forall scalar, offset, byte: nat | ScalarAt(layout, scalar, offset) && Covers(scalar, offset, byte) ::
            exists j | 0 <= j < |Pieces(arg)| :: PieceCovers(Pieces(arg)[j], byte))
  {
    var leaves := Leaves(layout);
    var parts := Parts(layout, leaves, ClassesOf(leaves));
    PartsCoverExactlyTheAggregate(layout);
    RegisterLeavesAreRegular(layout);
    PiecesAreTheParts(parts);
    var pieces := Pieces(InParts(parts));
    forall j | 0 <= j < |pieces| ensures PieceIsPlaced(layout, pieces[j], j) {
      PartFileIsTheClass(layout, leaves, j);
    }
    forall scalar, offset, byte: nat | ScalarAt(layout, scalar, offset) && Covers(scalar, offset, byte)
      ensures exists j | 0 <= j < |pieces| :: PieceCovers(pieces[j], byte)
    {
      ScalarHasLeaf(layout, scalar, offset);
      LeafIsAsWide(LeafFor(scalar), scalar, POINTER_SIZE);
      var i :| 0 <= i < |leaves| && leaves[i] == Placed(offset, LeafFor(scalar));
      assert HoldsByte(leaves[i], byte) && CoversByte(parts, byte);
      var j :| 0 <= j < |parts| && PartOffset(j) <= byte < PartOffset(j) + PartBytes(parts[j]);
      assert PieceCovers(pieces[j], byte);
    }
  }

  ghost predicate PieceIsPlaced(layout: CAggregate, piece: Part, j: nat) {
    && piece.offset == 8 * j && piece.offset + PartBytes(piece.ty) <= layout.size
    && PartRegisters(piece.ty).sse == (if ClassAt(Leaves(layout), j) == Sse then 1 else 0)
  }

  lemma {:induction false} PiecesAreTheParts(parts: seq<CAbiType>)
    requires 1 <= |parts| <= 2
    ensures (InParts(parts).Coerced? || InParts(parts).Expand?) && |Pieces(InParts(parts))| == |parts|
    ensures forall j | 0 <= j < |parts| :: Pieces(InParts(parts))[j] == Part(PartOffset(j), parts[j])
  {
  }

  lemma {:induction false} PartFileIsTheClass(layout: CAggregate, leaves: seq<Placed>, j: nat)
    requires Regular(leaves, layout.size) && j < |Parts(layout, leaves, ClassesOf(leaves))|
    ensures PartRegisters(Parts(layout, leaves, ClassesOf(leaves))[j]).sse == if ClassAt(leaves, j) == Sse then 1 else 0
  {
    if leaves == [Placed(0, LInt(16))] {
      assert Touches(leaves[0], 0);
    } else {
      NarrowUnlessWide(leaves, layout.size);
      PartRegistersByClass(layout, leaves, 0);
      PartRegistersByClass(layout, leaves, 1);
      AssembledFiles(PartType(layout, leaves, 0, ClassAt(leaves, 0)), PartType(layout, leaves, 1, ClassAt(leaves, 1)),
                     ClassAt(leaves, 0), ClassAt(leaves, 1), j);
    }
  }

  lemma {:induction false} AssembledFiles(low: CAbiType, high: CAbiType, lowClass: Class, highClass: Class, j: nat)
    requires PartRegisters(low) == ByClass(lowClass) && PartRegisters(high) == ByClass(highClass)
    requires j < |Assemble(low, high, Classes(lowClass, highClass))|
    ensures PartRegisters(Assemble(low, high, Classes(lowClass, highClass))[j]) ==
      ByClass(if j == 0 then lowClass else highClass)
  {
  }

  /** In memory, an aggregate has the larger of its own alignment and eight bytes; an empty one is not passed. */
  lemma {:induction false} MemoryForm(layout: CAggregate)
    ensures var arg := ArgFor(Aggregate(layout), false);
      if layout.size == 0 then arg == Ignore
      else arg.Byval? && arg.align >= layout.align && arg.align >= 8 && (arg.align == 8 || arg.align == layout.align)
  {
  }

  /** The hidden result pointer takes an integer register if and only if the result is an aggregate in memory. */
  lemma {:induction false} HiddenPointer(ret: Option<CType>)
    requires ret.Some? ==> LaidOut(ret.value)
    ensures Start(ret) ==
      if ret.Some? && ret.value.Aggregate? && ret.value.layout.size > 0 && InMemory(ret.value.layout)
      then Registers(1, 0) else Registers(0, 0)
  {
    if ret.Some? && ret.value.Aggregate? {
      UnalignedByScalars(ret.value.layout);
    }
  }

  /** Larger than two eightbytes, or with a scalar that is not at a multiple of its size. */
  ghost predicate InMemory(layout: CAggregate) {
    layout.size > 16 || exists scalar, offset :: MisplacedScalar(layout, scalar, offset)
  }

  /** An aggregate asks for registers if and only if it is not empty and does not have to be in memory: one integer
      register for each eightbyte with an integer or pointer in it, and one vector register for each with
      floating-point scalars only. */
  lemma {:induction false} DemandByScalars(t: CType)
    requires LaidOut(t) && t.Aggregate?
    ensures Demand(t).Some? <==> t.layout.size > 0 && !InMemory(t.layout)
    ensures Demand(t).Some? ==>
      && Demand(t).value.sse == Count(AllFloating(t.layout, 0)) + Count(AllFloating(t.layout, 1))
      && Demand(t).value.ints == Count(SomeInteger(t.layout, 0)) + Count(SomeInteger(t.layout, 1))
  {
    UnalignedByScalars(t.layout);
    ClassMeans(t.layout, 0);
    ClassMeans(t.layout, 1);
    var leaves := Leaves(t.layout);
    LeavesDemandByClass(t.layout.size, leaves, ClassAt(leaves, 0), ClassAt(leaves, 1));
  }

  lemma {:induction false} LeavesDemandByClass(size: nat, leaves: seq<Placed>, low: Class, high: Class)
    requires low == ClassAt(leaves, 0) && high == ClassAt(leaves, 1)
    ensures var demand := LeavesDemand(size, leaves);
      && (demand.Some? <==> 0 < size <= 16 && !Unaligned(leaves))
      && (demand.Some? ==> demand.value.sse == Count(low == Sse) + Count(high == Sse))
      && (demand.Some? ==> demand.value.ints == Count(low == Integer) + Count(high == Integer))
  {
  }

  ghost predicate AllFloating(layout: CAggregate, k: nat) {
    && (exists scalar, offset :: ScalarIn(layout, scalar, offset, k))
    && (forall scalar, offset | ScalarIn(layout, scalar, offset, k) :: scalar.Float? || scalar.Double?)
  }

  ghost predicate SomeInteger(layout: CAggregate, k: nat) {
    exists scalar, offset :: ScalarIn(layout, scalar, offset, k) && (scalar.Int? || scalar.Pointer?)
  }

  lemma {:induction false} ClassMeans(layout: CAggregate, k: nat)
    requires FieldsLaid(layout.fields, layout.size, POINTER_SIZE)
    ensures ClassAt(Leaves(layout), k) == Sse <==> AllFloating(layout, k)
    ensures ClassAt(Leaves(layout), k) == Integer <==> SomeInteger(layout, k)
  {
    ClassByScalars(layout, k);
    if scalar, offset :| ScalarIn(layout, scalar, offset, k) && !scalar.Float? && !scalar.Double? {
      ScalarHasLeaf(layout, scalar, offset);
      assert SomeInteger(layout, k);
    }
  }
}
