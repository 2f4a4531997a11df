/** Static initializers and their simplification to zero fills and repeats, against a typed denotation. */
module StaticInits {
  import opened Options

  /** `Addr` stands for the address of a global, of a field in it, or of a function. */
  datatype StaticInit =
    | Zero
    | Int(bits: nat, signed: bool)
    | Float(text: string)
    | Bool(flag: bool)
    | Char(scalar: nat)
    | Byte(value: nat)
    | Chars(scalars: seq<nat>)
    | Bytes(bytes: seq<nat>)
    | Array(elems: seq<StaticInit>)
    | Tuple(elems: seq<StaticInit>)
    | Vector(elems: seq<StaticInit>)
    | Repeat(elem: StaticInit, count: nat)
    | Struct(fields: seq<FieldInit>)
    | NullPtr
    | Addr(target: nat)

  datatype FieldInit = FieldInit(name: nat, value: StaticInit)

  /** The bits a float literal evaluates to; 0 are the bits of positive zero. A sign is not part of a literal, so no
      literal denotes negative zero. */
  type Floats = string -> nat

  predicate IsZero(floats: Floats, init: StaticInit)
    decreases init, 0
  {
    match init
    case Zero => true
    case Int(bits, _) => bits == 0
    case Float(text) => floats(text) == 0
    case Bool(flag) => !flag
    case Char(scalar) => scalar == 0
    case Byte(value) => value == 0
    case Chars(scalars) => AllZeros(scalars)
    case Bytes(bytes) => AllZeros(bytes)
    case Array(elems) => AllZero(floats, elems)
    case Tuple(elems) => AllZero(floats, elems)
    case Vector(elems) => AllZero(floats, elems)
    case Repeat(elem, count) => count == 0 || IsZero(floats, elem)
    case Struct(fields) => AllFieldsZero(floats, fields)
    case NullPtr => true
    case Addr(_) => false
  }

  predicate AllZeros(ns: seq<nat>) {
    forall i | 0 <= i < |ns| :: ns[i] == 0
  }

  predicate AllZero(floats: Floats, elems: seq<StaticInit>)
    decreases elems, 0
  {
    forall i | 0 <= i < |elems| :: IsZero(floats, elems[i])
  }

  predicate AllFieldsZero(floats: Floats, fields: seq<FieldInit>)
    decreases fields, 0
  {
    forall i | 0 <= i < |fields| :: FieldIsZero(floats, fields[i])
  }

  predicate FieldIsZero(floats: Floats, field: FieldInit)
    decreases field, 0
  {
    IsZero(floats, field.value)
  }

  predicate AllEqual<T(==)>(s: seq<T>) {
    s != [] && forall i | 0 <= i < |s| :: s[i] == s[0]
  }

  // ---------------------------------------------------------------------------------------------------------------
  // Simplification.

  function Simplify(floats: Floats, init: StaticInit): StaticInit
    decreases init, 0
  {
    match init
    case Array(elems) => FoldArray(floats, SimplifyAll(floats, elems))
    case Tuple(elems) =>
      var out := SimplifyAll(floats, elems);
      if AllZero(floats, out) then Zero else Tuple(out)
    case Vector(elems) =>
      var out := SimplifyAll(floats, elems);
      if AllZero(floats, out) then Zero else Vector(out)
    case Repeat(elem, count) =>
      var out := Simplify(floats, elem);
      if count == 0 || IsZero(floats, out) then Zero else Repeat(out, count)
    case Struct(fields) =>
      var out := SimplifyFields(floats, fields);
      if AllFieldsZero(floats, out) then Zero else Struct(out)
    case _ => SimplifyLeaf(floats, init)
  }

  function FoldArray(floats: Floats, out: seq<StaticInit>): StaticInit {
    if AllZero(floats, out) then Zero
    else if AllEqual(out) then Repeat(out[0], |out|)
    else Array(out)
  }

  function SimplifyLeaf(floats: Floats, init: StaticInit): StaticInit {
    match init
    case Chars(scalars) =>
      if AllZeros(scalars) then Zero else if AllEqual(scalars) then Repeat(Char(scalars[0]), |scalars|) else init
    case Bytes(bytes) =>
      if AllZeros(bytes) then Zero else if AllEqual(bytes) then Repeat(Byte(bytes[0]), |bytes|) else init
    case Float(text) => if floats(text) == 0 then Zero else init
    case Int(bits, _) => if bits == 0 then Zero else init
    case Bool(flag) => if flag then init else Zero
    case Char(scalar) => if scalar == 0 then Zero else init
    case Byte(value) => if value == 0 then Zero else init
    case NullPtr => Zero
    case _ => init
  }

  function SimplifyAll(floats: Floats, elems: seq<StaticInit>): seq<StaticInit>
    decreases elems, 1
  {
    seq(|elems|, i requires 0 <= i < |elems| => Simplify(floats, elems[i]))
  }

  function SimplifyFields(floats: Floats, fields: seq<FieldInit>): seq<FieldInit>
    decreases fields, 1
  {
    seq(|fields|, i requires 0 <= i < |fields| => SimplifyField(floats, fields[i]))
  }

  function SimplifyField(floats: Floats, field: FieldInit): FieldInit
    decreases field, 1
  {
    FieldInit(field.name, Simplify(floats, field.value))
  }

  // ---------------------------------------------------------------------------------------------------------------
  // The procedure with its change flag.

  method SimplifyStaticInit(floats: Floats, init: StaticInit) returns (out: StaticInit, changed: bool)
    ensures out == Simplify(floats, init)
    ensures changed <==> out != init
    decreases init, 0
  {
    match init
    case Array(elems) =>
      var simplified;
      simplified, changed := SimplifyElements(floats, elems);
      if AllZero(floats, simplified) {
        return Zero, true;
      }
      if AllEqual(simplified) {
        return Repeat(simplified[0], |simplified|), true;
      }
      out := Array(simplified);
    case Tuple(elems) =>
      var simplified;
      simplified, changed := SimplifyElements(floats, elems);
      if AllZero(floats, simplified) {
        return Zero, true;
      }
      out := Tuple(simplified);
    case Vector(elems) =>
      var simplified;
      simplified, changed := SimplifyElements(floats, elems);
      if AllZero(floats, simplified) {
        return Zero, true;
      }
      out := Vector(simplified);
    case Repeat(elem, count) =>
      var simplified;
      simplified, changed := SimplifyStaticInit(floats, elem);
      if count == 0 || IsZero(floats, simplified) {
        return Zero, true;
      }
      out := Repeat(simplified, count);
    case Struct(fields) =>
      var simplified;
      simplified, changed := SimplifyFieldValues(floats, fields);
      if AllFieldsZero(floats, simplified) {
        return Zero, true;
      }
      out := Struct(simplified);
    case _ => out, changed := SimplifyLeafInit(floats, init);
  }

  method SimplifyLeafInit(floats: Floats, init: StaticInit) returns (out: StaticInit, changed: bool)
    ensures out == SimplifyLeaf(floats, init)
    ensures changed <==> out != init
  {
    match init
    case Chars(scalars) =>
      if AllZeros(scalars) {
        return Zero, true;
      }
      if AllEqual(scalars) {
        return Repeat(Char(scalars[0]), |scalars|), true;
      }
      return init, false;
    case Bytes(bytes) =>
      if AllZeros(bytes) {
        return Zero, true;
      }
      if AllEqual(bytes) {
        return Repeat(Byte(bytes[0]), |bytes|), true;
      }
      return init, false;
    case Zero => return Zero, false;
    case Float(text) =>
      if floats(text) == 0 {
        return Zero, true;
      }
      return init, false;
    case Int(bits, _) =>
      if bits == 0 {
        return Zero, true;
      }
      return init, false;
    case _ =>
      if init == Bool(false) || init == Char(0) || init == Byte(0) || init == NullPtr {
        return Zero, true;
      }
      return init, false;
  }

  method SimplifyElements(floats: Floats, elems: seq<StaticInit>) returns (out: seq<StaticInit>, changed: bool)
    ensures out == SimplifyAll(floats, elems)
    ensures changed <==> out != elems
    decreases elems, 1
  {
    out, changed := [], false;
    for i := 0 to |elems|
      invariant |out| == i && forall j | 0 <= j < i :: out[j] == Simplify(floats, elems[j])
      invariant changed <==> out != elems[..i]
    {
      var elem, elemChanged := SimplifyStaticInit(floats, elems[i]);
      assert (out + [elem])[..i] == out && elems[..i + 1][..i] == elems[..i];
      assert (out + [elem])[i] == elem && elems[..i + 1][i] == elems[i];
      assert !elemChanged && !changed ==> out + [elem] == elems[..i + 1];
      changed := changed || elemChanged;
      out := out + [elem];
    }
    assert elems[..|elems|] == elems;
  }

  method SimplifyFieldValues(floats: Floats, fields: seq<FieldInit>) returns (out: seq<FieldInit>, changed: bool)
    ensures out == SimplifyFields(floats, fields)
    ensures changed <==> out != fields
    decreases fields, 1
  {
    out, changed := [], false;
    for i := 0 to |fields|
      invariant |out| == i && forall j | 0 <= j < i :: out[j] == SimplifyField(floats, fields[j])
      invariant changed <==> out != fields[..i]
    {
      assert fields[i].value < fields[i];
      var value, fieldChanged := SimplifyStaticInit(floats, fields[i].value);
      var field := FieldInit(fields[i].name, value);
      assert (out + [field])[..i] == out && fields[..i + 1][..i] == fields[..i];
      assert (out + [field])[i] == field && fields[..i + 1][i] == fields[i];
      assert !fieldChanged && !changed ==> out + [field] == fields[..i + 1];
      changed := changed || fieldChanged;
      out := out + [field];
    }
    assert fields[..|fields|] == fields;
  }

  // ---------------------------------------------------------------------------------------------------------------
  // Zero exactly for zero initializers.

  lemma {:induction false} ZeroIffIsZero(floats: Floats, init: StaticInit)
    ensures Simplify(floats, init) == Zero <==> IsZero(floats, init)
    ensures IsZero(floats, Simplify(floats, init)) <==> IsZero(floats, init)
    decreases init, 0
  {
    match init
    case Array(elems) =>
      AllZeroStays(floats, elems);
      FoldZero(floats, SimplifyAll(floats, elems));
    case Tuple(elems) => AllZeroStays(floats, elems);
    case Vector(elems) => AllZeroStays(floats, elems);
    case Repeat(elem, _) => ZeroIffIsZero(floats, elem);
    case Struct(fields) => FieldsZeroStay(floats, fields);
    case _ =>
  }

  lemma {:induction false} FoldZero(floats: Floats, out: seq<StaticInit>)
    ensures FoldArray(floats, out) == Zero <==> AllZero(floats, out)
    ensures IsZero(floats, FoldArray(floats, out)) <==> AllZero(floats, out)
  {
    if AllEqual(out) && !AllZero(floats, out) {
      assert !IsZero(floats, out[0]);
    }
  }

  lemma {:induction false} AllZeroStays(floats: Floats, elems: seq<StaticInit>)
    ensures AllZero(floats, SimplifyAll(floats, elems)) <==> AllZero(floats, elems)
    decreases elems, 1
  {
    var out := SimplifyAll(floats, elems);
    forall i | 0 <= i < |elems| ensures IsZero(floats, out[i]) <==> IsZero(floats, elems[i]) {
      ZeroIffIsZero(floats, elems[i]);
    }
  }

  lemma {:induction false} FieldsZeroStay(floats: Floats, fields: seq<FieldInit>)
    ensures AllFieldsZero(floats, SimplifyFields(floats, fields)) <==> AllFieldsZero(floats, fields)
    decreases fields, 1
  {
    var out := SimplifyFields(floats, fields);
    forall i | 0 <= i < |fields| ensures FieldIsZero(floats, out[i]) <==> FieldIsZero(floats, fields[i]) {
      FieldZeroStays(floats, fields[i]);
    }
  }

  lemma {:induction false} FieldZeroStays(floats: Floats, field: FieldInit)
    ensures FieldIsZero(floats, SimplifyField(floats, field)) <==> FieldIsZero(floats, field)
    decreases field, 1
  {
    ZeroIffIsZero(floats, field.value);
  }

  // ---------------------------------------------------------------------------------------------------------------
  // A second run changes nothing.

  lemma {:induction false} SimplifyIsIdempotent(floats: Floats, init: StaticInit)
    ensures Simplify(floats, Simplify(floats, init)) == Simplify(floats, init)
    decreases init, 0
  {
    match init
    case Array(elems) =>
      AllIdempotent(floats, elems);
      FoldIsStable(floats, SimplifyAll(floats, elems));
    case Tuple(elems) => AllIdempotent(floats, elems);
    case Vector(elems) => AllIdempotent(floats, elems);
    case Repeat(elem, _) => SimplifyIsIdempotent(floats, elem);
    case Struct(fields) => FieldsIdempotent(floats, fields);
    case _ =>
  }

  lemma {:induction false} AllIdempotent(floats: Floats, elems: seq<StaticInit>)
    ensures SimplifyAll(floats, SimplifyAll(floats, elems)) == SimplifyAll(floats, elems)
    decreases elems, 1
  {
    forall i | 0 <= i < |elems| ensures Simplify(floats, Simplify(floats, elems[i])) == Simplify(floats, elems[i]) {
      SimplifyIsIdempotent(floats, elems[i]);
    }
  }

  lemma {:induction false} FoldIsStable(floats: Floats, out: seq<StaticInit>)
    requires SimplifyAll(floats, out) == out
    ensures Simplify(floats, FoldArray(floats, out)) == FoldArray(floats, out)
  {
    if !AllZero(floats, out) && AllEqual(out) {
      assert SimplifyAll(floats, out)[0] == out[0];
    }
  }

  lemma {:induction false} FieldsIdempotent(floats: Floats, fields: seq<FieldInit>)
    ensures SimplifyFields(floats, SimplifyFields(floats, fields)) == SimplifyFields(floats, fields)
    decreases fields, 1
  {
    var out := SimplifyFields(floats, fields);
    forall i | 0 <= i < |fields| ensures SimplifyField(floats, out[i]) == out[i] {
      FieldIdempotent(floats, fields[i]);
    }
  }

  lemma {:induction false} FieldIdempotent(floats: Floats, field: FieldInit)
    ensures SimplifyField(floats, SimplifyField(floats, field)) == SimplifyField(floats, field)
    decreases field, 1
  {
    SimplifyIsIdempotent(floats, field.value);
  }

  // ---------------------------------------------------------------------------------------------------------------
  // What an initializer denotes at a type.

  datatype Type =
    | TInt
    | TFloat
    | TBool
    | TChar
    | TByte
    | TPointer
    | TArray(elem: Type, len: nat)
    | TVector(elem: Type, len: nat)
    | TTuple(elems: seq<Type>)
    | TStruct(decls: seq<Decl>)
    | TUnion(decls: seq<Decl>)

  datatype Decl = Decl(name: nat, ty: Type)

  /** A union whose bytes are all zero is `VZeroUnion` whichever field was set. */
  datatype Value =
    | VInt(bits: nat)
    | VFloat(bits: nat)
    | VBool(flag: bool)
    | VChar(scalar: nat)
    | VByte(byte: nat)
    | VNull
    | VAddr(target: nat)
    | VSeq(elems: seq<Value>)
    | VUnion(name: nat, value: Value)
    | VZeroUnion

  function ZeroOf(ty: Type): Value
    decreases ty, 0
  {
    match ty
    case TInt => VInt(0)
    case TFloat => VFloat(0)
    case TBool => VBool(false)
    case TChar => VChar(0)
    case TByte => VByte(0)
    case TPointer => VNull
    case TArray(elem, len) => VSeq(seq(len, _ => ZeroOf(elem)))
    case TVector(elem, len) => VSeq(seq(len, _ => ZeroOf(elem)))
    case TTuple(elems) => VSeq(seq(|elems|, i requires 0 <= i < |elems| => ZeroOf(elems[i])))
    case TStruct(decls) => VSeq(seq(|decls|, i requires 0 <= i < |decls| => ZeroOfDecl(decls[i])))
    case TUnion(_) => VZeroUnion
  }

  function ZeroOfDecl(decl: Decl): Value
    decreases decl, 0
  {
    ZeroOf(decl.ty)
  }

  /** The first field with this name, or the number of fields. */
  function Find(fields: seq<FieldInit>, name: nat): (k: nat)
    ensures k <= |fields| && (k < |fields| ==> fields[k].name == name)
  {
    if fields == [] then 0 else if fields[0].name == name then 0 else 1 + Find(fields[1..], name)
  }

  /** The type of the first declaration with this name. */
  function TypeOf(decls: seq<Decl>, name: nat): Option<Type> {
    if decls == [] then None else if decls[0].name == name then Some(decls[0].ty) else TypeOf(decls[1..], name)
  }

  /** The initializer fits the type, as backend validation demands. */
  predicate HasType(init: StaticInit, ty: Type)
    decreases init, 0
  {
    match init
    case Zero => true
    case Int(_, _) => ty == TInt
    case Float(_) => ty == TFloat
    case Bool(_) => ty == TBool
    case Char(_) => ty == TChar
    case Byte(_) => ty == TByte
    case Chars(scalars) => ty == TArray(TChar, |scalars|)
    case Bytes(bytes) => ty == TArray(TByte, |bytes|)
    case Array(elems) => ty.TArray? && ty.len == |elems| && AllHaveType(elems, ty.elem)
    case Vector(elems) => ty.TVector? && ty.len == |elems| && AllHaveType(elems, ty.elem)
    case Tuple(elems) =>
      ty.TTuple? && |ty.elems| == |elems| && forall i | 0 <= i < |elems| :: HasType(elems[i], ty.elems[i])
    case Repeat(elem, count) => ty.TArray? && ty.len == count && (count == 0 || HasType(elem, ty.elem))
    case Struct(fields) =>
      if ty.TStruct? then |fields| == |ty.decls| && forall i | 0 <= i < |ty.decls| :: Covers(fields, ty.decls[i])
      else ty.TUnion? && |fields| == 1 && FitsUnion(fields[0], ty.decls)
    case NullPtr => ty == TPointer
    case Addr(_) => ty == TPointer
  }

  predicate AllHaveType(elems: seq<StaticInit>, ty: Type)
    decreases elems, 0
  {
    forall i | 0 <= i < |elems| :: HasType(elems[i], ty)
  }

  predicate Covers(fields: seq<FieldInit>, decl: Decl)
    decreases fields, 0
  {
    var k := Find(fields, decl.name);
    k < |fields| && FieldHasType(fields[k], decl.ty)
  }

  predicate FieldHasType(field: FieldInit, ty: Type)
    decreases field, 0
  {
    HasType(field.value, ty)
  }

  predicate FitsUnion(field: FieldInit, decls: seq<Decl>)
    decreases field, 1
  {
    TypeOf(decls, field.name).Some? && FieldHasType(field, TypeOf(decls, field.name).value)
  }

  function Denote(floats: Floats, init: StaticInit, ty: Type): Value
    requires HasType(init, ty)
    decreases init, 0
  {
    match init
    case Zero => ZeroOf(ty)
    case Int(bits, _) => VInt(bits)
    case Float(text) => VFloat(floats(text))
    case Bool(flag) => VBool(flag)
    case Char(scalar) => VChar(scalar)
    case Byte(value) => VByte(value)
    case Chars(scalars) => VSeq(seq(|scalars|, i requires 0 <= i < |scalars| => VChar(scalars[i])))
    case Bytes(bytes) => VSeq(seq(|bytes|, i requires 0 <= i < |bytes| => VByte(bytes[i])))
    case Array(elems) => VSeq(DenoteAll(floats, elems, ty.elem))
    case Vector(elems) => VSeq(DenoteAll(floats, elems, ty.elem))
    case Tuple(elems) => VSeq(seq(|elems|, i requires 0 <= i < |elems| => Denote(floats, elems[i], ty.elems[i])))
    case Repeat(elem, count) => if count == 0 then VSeq([]) else VSeq(Copies(Denote(floats, elem, ty.elem), count))
    case Struct(fields) =>
      if ty.TStruct? then
        VSeq(seq(|ty.decls|, i requires 0 <= i < |ty.decls| => DenoteDecl(floats, fields, ty.decls[i])))
      else DenoteUnion(floats, fields[0], ty.decls)
    case NullPtr => VNull
    case Addr(target) => VAddr(target)
  }

  function Copies(v: Value, count: nat): seq<Value> {
    seq(count, _ => v)
  }

  function DenoteAll(floats: Floats, elems: seq<StaticInit>, ty: Type): seq<Value>
    requires AllHaveType(elems, ty)
    decreases elems, 0
  {
    seq(|elems|, i requires 0 <= i < |elems| => Denote(floats, elems[i], ty))
  }

  function DenoteDecl(floats: Floats, fields: seq<FieldInit>, decl: Decl): Value
    requires Covers(fields, decl)
    decreases fields, 0
  {
    DenoteField(floats, fields[Find(fields, decl.name)], decl.ty)
  }

  function DenoteField(floats: Floats, field: FieldInit, ty: Type): Value
    requires FieldHasType(field, ty)
    decreases field, 0
  {
    Denote(floats, field.value, ty)
  }

  function DenoteUnion(floats: Floats, field: FieldInit, decls: seq<Decl>): Value
    requires FitsUnion(field, decls)
    decreases field, 1
  {
    var ty := TypeOf(decls, field.name).value;
    var v := DenoteField(floats, field, ty);
    if v == ZeroOf(ty) then VZeroUnion else VUnion(field.name, v)
  }

  // ---------------------------------------------------------------------------------------------------------------
  // Simplification preserves the denotation.

  /** A zero initializer denotes the zero of every type it fits. */
  lemma {:induction false} ZeroDenotesZero(floats: Floats, init: StaticInit, ty: Type)
    requires IsZero(floats, init) && HasType(init, ty)
    ensures Denote(floats, init, ty) == ZeroOf(ty)
    decreases init, 0
  {
    match init
    case Array(elems) => AllDenoteZero(floats, elems, ty.elem);
    case Vector(elems) => AllDenoteZero(floats, elems, ty.elem);
    case Tuple(elems) =>
      forall i | 0 <= i < |elems| ensures Denote(floats, elems[i], ty.elems[i]) == ZeroOf(ty.elems[i]) {
        ZeroDenotesZero(floats, elems[i], ty.elems[i]);
      }
    case Repeat(elem, count) =>
      if count > 0 {
        ZeroDenotesZero(floats, elem, ty.elem);
      }
    case Struct(fields) => StructDenotesZero(floats, fields, ty);
    case _ =>
  }

  lemma {:induction false} AllDenoteZero(floats: Floats, elems: seq<StaticInit>, ty: Type)
    requires AllZero(floats, elems) && AllHaveType(elems, ty)
    ensures DenoteAll(floats, elems, ty) == seq(|elems|, _ => ZeroOf(ty))
    decreases elems, 1
  {
    forall i | 0 <= i < |elems| ensures Denote(floats, elems[i], ty) == ZeroOf(ty) {
      ZeroDenotesZero(floats, elems[i], ty);
    }
  }

  lemma {:induction false} StructDenotesZero(floats: Floats, fields: seq<FieldInit>, ty: Type)
    requires AllFieldsZero(floats, fields) && HasType(Struct(fields), ty)
    ensures Denote(floats, Struct(fields), ty) == ZeroOf(ty)
    decreases fields, 1
  {
    if ty.TStruct? {
      forall i | 0 <= i < |ty.decls| ensures DenoteDecl(floats, fields, ty.decls[i]) == ZeroOfDecl(ty.decls[i]) {
        assert Covers(fields, ty.decls[i]);
        FieldDenotesZero(floats, fields[Find(fields, ty.decls[i].name)], ty.decls[i].ty);
      }
    } else {
      FieldDenotesZero(floats, fields[0], TypeOf(ty.decls, fields[0].name).value);
    }
  }

  lemma {:induction false} FieldDenotesZero(floats: Floats, field: FieldInit, ty: Type)
    requires FieldIsZero(floats, field) && FieldHasType(field, ty)
    ensures DenoteField(floats, field, ty) == ZeroOf(ty)
    decreases field, 1
  {
    ZeroDenotesZero(floats, field.value, ty);
  }

  /** The simplified initializer fits every type the original fits and denotes the same value there. */
  ghost predicate Means(floats: Floats, out: StaticInit, init: StaticInit, ty: Type)
    requires HasType(init, ty)
  {
    HasType(out, ty) && Denote(floats, out, ty) == Denote(floats, init, ty)
  }

  lemma {:induction false} SimplifyPreserves(floats: Floats, init: StaticInit, ty: Type)
    requires HasType(init, ty)
    ensures Means(floats, Simplify(floats, init), init, ty)
    decreases init, 0
  {
    ZeroIffIsZero(floats, init);
    if IsZero(floats, init) {
      ZeroDenotesZero(floats, init, ty);
    } else {
      match init
      case Array(elems) =>
        AllPreserve(floats, elems, ty.elem);
        FoldPreserves(floats, SimplifyAll(floats, elems), ty.elem);
      case Vector(elems) => AllPreserve(floats, elems, ty.elem);
      case Tuple(elems) =>
        var out := SimplifyAll(floats, elems);
        forall i | 0 <= i < |elems| ensures Means(floats, out[i], elems[i], ty.elems[i]) {
          SimplifyPreserves(floats, elems[i], ty.elems[i]);
        }
      case Repeat(elem, _) => SimplifyPreserves(floats, elem, ty.elem);
      case Struct(fields) => StructPreserves(floats, fields, ty);
      case Chars(scalars) => LettersPreserve(floats, init, ty);
      case Bytes(bytes) => LettersPreserve(floats, init, ty);
      case _ =>
    }
  }

  lemma {:induction false} LettersPreserve(floats: Floats, init: StaticInit, ty: Type)
    requires HasType(init, ty) && !IsZero(floats, init) && (init.Chars? || init.Bytes?)
    ensures Means(floats, Simplify(floats, init), init, ty)
  {
    if init.Chars? && AllEqual(init.scalars) {
      assert Copies(VChar(init.scalars[0]), |init.scalars|) == Denote(floats, init, ty).elems;
    } else if init.Bytes? && AllEqual(init.bytes) {
      assert Copies(VByte(init.bytes[0]), |init.bytes|) == Denote(floats, init, ty).elems;
    }
  }

  lemma {:induction false} AllPreserve(floats: Floats, elems: seq<StaticInit>, ty: Type)
    requires AllHaveType(elems, ty)
    ensures AllHaveType(SimplifyAll(floats, elems), ty)
    ensures DenoteAll(floats, SimplifyAll(floats, elems), ty) == DenoteAll(floats, elems, ty)
    decreases elems, 1
  {
    var out := SimplifyAll(floats, elems);
    forall i | 0 <= i < |elems| ensures Means(floats, out[i], elems[i], ty) {
      SimplifyPreserves(floats, elems[i], ty);
    }
  }

  /** Folding equal elements into a repeat. */
  lemma {:induction false} FoldPreserves(floats: Floats, out: seq<StaticInit>, ty: Type)
    requires AllHaveType(out, ty) && !AllZero(floats, out)
    ensures HasType(FoldArray(floats, out), TArray(ty, |out|))
    ensures Denote(floats, FoldArray(floats, out), TArray(ty, |out|)) == VSeq(DenoteAll(floats, out, ty))
  {
    if AllEqual(out) {
      assert Copies(Denote(floats, out[0], ty), |out|) == DenoteAll(floats, out, ty);
    }
  }

  lemma {:induction false} FindSimplified(floats: Floats, fields: seq<FieldInit>, name: nat)
    ensures Find(SimplifyFields(floats, fields), name) == Find(fields, name)
  {
    if fields != [] {
      FindSimplified(floats, fields[1..], name);
      assert SimplifyFields(floats, fields)[1..] == SimplifyFields(floats, fields[1..]);
    }
  }

  lemma {:induction false} FieldPreserves(floats: Floats, field: FieldInit, ty: Type)
    requires FieldHasType(field, ty)
    ensures FieldHasType(SimplifyField(floats, field), ty)
    ensures DenoteField(floats, SimplifyField(floats, field), ty) == DenoteField(floats, field, ty)
    decreases field, 1
  {
    SimplifyPreserves(floats, field.value, ty);
  }

  lemma {:induction false} DeclPreserves(floats: Floats, fields: seq<FieldInit>, decl: Decl)
    requires Covers(fields, decl)
    ensures Covers(SimplifyFields(floats, fields), decl)
    ensures DenoteDecl(floats, SimplifyFields(floats, fields), decl) == DenoteDecl(floats, fields, decl)
    decreases fields, 1
  {
    FindSimplified(floats, fields, decl.name);
    FieldPreserves(floats, fields[Find(fields, decl.name)], decl.ty);
  }

  lemma {:induction false} StructPreserves(floats: Floats, fields: seq<FieldInit>, ty: Type)
    requires HasType(Struct(fields), ty)
    ensures Means(floats, Struct(SimplifyFields(floats, fields)), Struct(fields), ty)
    decreases fields, 2
  {
    if ty.TStruct? {
      forall i | 0 <= i < |ty.decls|
        ensures Covers(SimplifyFields(floats, fields), ty.decls[i])
        ensures DenoteDecl(floats, SimplifyFields(floats, fields), ty.decls[i]) ==
          DenoteDecl(floats, fields, ty.decls[i])
      {
        DeclPreserves(floats, fields, ty.decls[i]);
      }
    } else {
      FieldPreserves(floats, fields[0], TypeOf(ty.decls, fields[0].name).value);
    }
  }
}
