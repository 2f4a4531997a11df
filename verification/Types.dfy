/** Interned backend types as a value, the two comparison procedures the compiler runs on them, and the canonical
    form that decides both. Array lengths and const arguments are compared by evaluated value, associated-type
    bindings as a multiset. */
module Types {
  type Sym = nat

  type Bits = n: nat | n < 0x1_0000_0000_0000_0000_0000_0000_0000_0000

  /** An array length; only `Builtin` holds a type. */
  datatype Len =
    | Infer
    | LenParam(name: Sym)
    | LenValue(value: nat)
    | LenExpr(id: nat)
    | LenBuiltin(op: nat, operand: Ty)

  /** An integer is its two's-complement bits plus a signedness the comparisons ignore. */
  datatype ConstValue =
    | CInt(bits: Bits, signed: bool)
    | CBool(flag: bool)
    | CChar(scalar: nat)
    | CParam(name: Sym)
    | CExpr(id: nat)

  datatype ConstArg = ConstArg(ty: Ty, value: ConstValue)

  /** One `Trait[args, consts].name = ty` equality of a trait-object type. */
  datatype Binding = Binding(owner: nat, name: Sym, args: seq<Ty>, consts: seq<ConstArg>, ty: Ty)

  /** Everything of a constructor that is not a type. An optional operand is an argument list of length 0 or 1. */
  datatype Tag =
    | Tuple
    | Optional
    | ErrorUnion
    | VolatilePointer(readonly: bool)
    | Range(kind: nat)
    | FnPointer(abi: nat, variadic: bool)
    | Slice(readonly: bool)
    | SlicePointee
    | Callable(readonly: bool)
    | CallablePointee
    | TraitObject(readonly: bool, id: nat)
    | TraitObjectPointee(id: nat)
    | Nominal(def: nat)
    | BuiltinTrait(id: nat)

  datatype Ty =
    | Atom(id: nat)
    | Generic(name: Sym)
    | SelfParam
    | Pointer(readonly: bool, elem: Ty)
    | Array(len: Len, elem: Ty)
    | Form(tag: Tag, args: seq<Ty>, consts: seq<ConstArg>, bindings: seq<Binding>)
    | Projection(self: Ty, owner: nat, args: seq<Ty>, consts: seq<ConstArg>, name: Sym)

  /** Evaluated const expressions. */
  type Lengths = map<nat, nat>

  // ---------------------------------------------------------------------------------------------------------------
  // The two comparison procedures. They differ only in how they pair associated-type bindings: the shared type layer
  // takes the first unused partner and never revisits it, the instantiation layer backtracks.

  datatype Pairing = Greedy | Backtracking

  predicate SameTy(m: Pairing, lens: Lengths, a: Ty, b: Ty)
    decreases a, 0
  {
    a == b ||
    match (a, b)
    case (Pointer(ra, ea), Pointer(rb, eb)) => ra == rb && SameTy(m, lens, ea, eb)
    case (Array(la, ea), Array(lb, eb)) => SameLen(m, lens, la, lb) && SameTy(m, lens, ea, eb)
    case (Form(ta, aa, ca, ba), Form(tb, ab, cb, bb)) =>
      && ta == tb
      && SameTys(m, lens, aa, ab)
      && SameConsts(m, lens, ca, cb)
      && SameBindings(m, lens, ba, bb)
    case (Projection(sa, oa, aa, ca, na), Projection(sb, ob, ab, cb, nb)) =>
      && oa == ob && na == nb
      && SameTy(m, lens, sa, sb)
      && SameTys(m, lens, aa, ab)
      && SameConsts(m, lens, ca, cb)
    case _ => false
  }

  predicate SameTys(m: Pairing, lens: Lengths, a: seq<Ty>, b: seq<Ty>)
    decreases a, 0
  {
    |a| == |b| && forall i | 0 <= i < |a| :: SameTy(m, lens, a[i], b[i])
  }

  predicate SameLen(m: Pairing, lens: Lengths, a: Len, b: Len)
    decreases a, 0
  {
    match (a, b)
    case (LenBuiltin(fa, ta), LenBuiltin(fb, tb)) => fa == fb && SameTy(m, lens, ta, tb)
    case (LenValue(n), LenExpr(e)) => e in lens && lens[e] == n
    case (LenExpr(e), LenValue(n)) => e in lens && lens[e] == n
    case (LenExpr(e), LenExpr(f)) => e == f || (e in lens && f in lens && lens[e] == lens[f])
    case _ => a == b
  }

  predicate SameConstValue(lens: Lengths, a: ConstValue, b: ConstValue) {
    match (a, b)
    case (CInt(m, _), CInt(n, _)) => m == n
    case (CInt(m, _), CExpr(e)) => e in lens && lens[e] == m
    case (CExpr(e), CInt(m, _)) => e in lens && lens[e] == m
    case (CExpr(e), CExpr(f)) => e == f || (e in lens && f in lens && lens[e] == lens[f])
    case _ => a == b
  }

  predicate SameConsts(m: Pairing, lens: Lengths, a: seq<ConstArg>, b: seq<ConstArg>)
    decreases a, 0
  {
    |a| == |b| && forall i | 0 <= i < |a| :: SameConst(m, lens, a[i], b[i])
  }

  predicate SameConst(m: Pairing, lens: Lengths, a: ConstArg, b: ConstArg)
    decreases a, 0
  {
    SameTy(m, lens, a.ty, b.ty) && SameConstValue(lens, a.value, b.value)
  }

  predicate SameBinding(m: Pairing, lens: Lengths, a: Binding, b: Binding)
    decreases a, 0
  {
    && a.name == b.name
    && a.owner == b.owner
    && SameTys(m, lens, a.args, b.args)
    && SameConsts(m, lens, a.consts, b.consts)
    && SameTy(m, lens, a.ty, b.ty)
  }

  predicate SameBindings(m: Pairing, lens: Lengths, a: seq<Binding>, b: seq<Binding>)
    decreases a, 2
  {
    && |a| == |b|
    && match m
       case Greedy => TakeFirst(lens, a, b)
       case Backtracking => Search(lens, a, b, seq(|b|, _ => false))
  }

  /** Each left binding takes its first remaining partner for good. */
  predicate TakeFirst(lens: Lengths, a: seq<Binding>, b: seq<Binding>)
    decreases a, 1
  {
    a == [] ||
    var j := FirstPartner(lens, a[0], b, 0);
    j < |b| && TakeFirst(lens, a[1..], b[..j] + b[j + 1..])
  }

  function FirstPartner(lens: Lengths, a: Binding, b: seq<Binding>, from: nat): (j: nat)
    requires from <= |b|
    ensures from <= j <= |b|
    ensures j < |b| ==> SameBinding(Greedy, lens, a, b[j])
    ensures forall k | from <= k < j :: !SameBinding(Greedy, lens, a, b[k])
    decreases a, 1, |b| - from
  {
    if from == |b| || SameBinding(Greedy, lens, a, b[from]) then from else FirstPartner(lens, a, b, from + 1)
  }

  /** Some unused partner of the first left binding leaves the rest solvable. */
  predicate Search(lens: Lengths, a: seq<Binding>, b: seq<Binding>, used: seq<bool>)
    requires |used| == |b|
    decreases a, 1
  {
    a == [] ||
    exists j | 0 <= j < |b| ::
      !used[j] && SameBinding(Backtracking, lens, a[0], b[j]) && Search(lens, a[1..], b, used[j := true])
  }

  // ---------------------------------------------------------------------------------------------------------------
  // The canonical form: lengths and const values evaluated where they can be, signedness dropped, bindings unordered.

  datatype CLen = CInfer | CLenParam(name: Sym) | CLenValue(value: nat) | CLenExpr(id: nat)
                | CLenBuiltin(op: nat, operand: CTy)
  datatype CValue = VInt(bits: nat) | VBool(flag: bool) | VChar(scalar: nat) | VParam(name: Sym) | VExpr(id: nat)
  datatype CConst = CConst(ty: CTy, value: CValue)
  datatype CBinding = CBinding(owner: nat, name: Sym, args: seq<CTy>, consts: seq<CConst>, ty: CTy)
  datatype CTy =
    | CAtom(id: nat)
    | CGeneric(name: Sym)
    | CSelf
    | CPointer(readonly: bool, elem: CTy)
    | CArray(len: CLen, elem: CTy)
    | CForm(tag: Tag, args: seq<CTy>, consts: seq<CConst>, bindings: multiset<CBinding>)
    | CProjection(self: CTy, owner: nat, args: seq<CTy>, consts: seq<CConst>, name: Sym)

  function Canon(lens: Lengths, t: Ty): CTy
    decreases t, 0
  {
    match t
    case Atom(id) => CAtom(id)
    case Generic(name) => CGeneric(name)
    case SelfParam => CSelf
    case Pointer(readonly, elem) => CPointer(readonly, Canon(lens, elem))
    case Array(len, elem) => CArray(CanonLen(lens, len), Canon(lens, elem))
    case Form(tag, args, consts, bindings) =>
      CForm(tag, CanonTys(lens, args), CanonConsts(lens, consts), multiset(CanonBindings(lens, bindings)))
    case Projection(self, owner, args, consts, name) =>
      CProjection(Canon(lens, self), owner, CanonTys(lens, args), CanonConsts(lens, consts), name)
  }

  function CanonTys(lens: Lengths, ts: seq<Ty>): seq<CTy>
    decreases ts, 0
  {
    seq(|ts|, i requires 0 <= i < |ts| => Canon(lens, ts[i]))
  }

  function CanonLen(lens: Lengths, len: Len): CLen
    decreases len, 0
  {
    match len
    case Infer => CInfer
    case LenParam(name) => CLenParam(name)
    case LenValue(value) => CLenValue(value)
    case LenExpr(id) => if id in lens then CLenValue(lens[id]) else CLenExpr(id)
    case LenBuiltin(op, operand) => CLenBuiltin(op, Canon(lens, operand))
  }

  function CanonValue(lens: Lengths, v: ConstValue): CValue {
    match v
    case CInt(bits, _) => VInt(bits)
    case CBool(flag) => VBool(flag)
    case CChar(scalar) => VChar(scalar)
    case CParam(name) => VParam(name)
    case CExpr(id) => if id in lens then VInt(lens[id]) else VExpr(id)
  }

  function CanonConsts(lens: Lengths, cs: seq<ConstArg>): seq<CConst>
    decreases cs, 0
  {
    seq(|cs|, i requires 0 <= i < |cs| => CanonConst(lens, cs[i]))
  }

  function CanonConst(lens: Lengths, c: ConstArg): CConst
    decreases c, 0
  {
    CConst(Canon(lens, c.ty), CanonValue(lens, c.value))
  }

  function CanonBinding(lens: Lengths, b: Binding): CBinding
    decreases b, 0
  {
    CBinding(b.owner, b.name, CanonTys(lens, b.args), CanonConsts(lens, b.consts), Canon(lens, b.ty))
  }

  function CanonBindings(lens: Lengths, bs: seq<Binding>): seq<CBinding>
    decreases bs, 0
  {
    seq(|bs|, i requires 0 <= i < |bs| => CanonBinding(lens, bs[i]))
  }

  // ---------------------------------------------------------------------------------------------------------------
  // Both procedures decide equality of canonical forms.

  /** Either comparison procedure answers true exactly on types with one canonical form. */
  lemma {:induction false} SameTyIffCanon(m: Pairing, lens: Lengths, a: Ty, b: Ty)
    ensures SameTy(m, lens, a, b) <==> Canon(lens, a) == Canon(lens, b)
    decreases a, 0
  {
    match (a, b)
    case (Pointer(_, ea), Pointer(_, eb)) => SameTyIffCanon(m, lens, ea, eb);
    case (Array(la, ea), Array(lb, eb)) =>
      SameLenIffCanon(m, lens, la, lb);
      SameTyIffCanon(m, lens, ea, eb);
    case (Form(_, aa, ca, ba), Form(_, ab, cb, bb)) =>
      SameTysIffCanon(m, lens, aa, ab);
      SameConstsIffCanon(m, lens, ca, cb);
      SameBindingsIffCanon(m, lens, ba, bb);
    case (Projection(sa, _, aa, ca, _), Projection(sb, _, ab, cb, _)) =>
      SameTyIffCanon(m, lens, sa, sb);
      SameTysIffCanon(m, lens, aa, ab);
      SameConstsIffCanon(m, lens, ca, cb);
    case _ =>
  }

  lemma {:induction false} SameTysIffCanon(m: Pairing, lens: Lengths, a: seq<Ty>, b: seq<Ty>)
    ensures SameTys(m, lens, a, b) <==> CanonTys(lens, a) == CanonTys(lens, b)
    decreases a, 0
  {
    if |a| == |b| {
      forall i | 0 <= i < |a| ensures SameTy(m, lens, a[i], b[i]) <==> CanonTys(lens, a)[i] == CanonTys(lens, b)[i] {
        SameTyIffCanon(m, lens, a[i], b[i]);
      }
    } else {
      assert |CanonTys(lens, a)| != |CanonTys(lens, b)|;
    }
  }

  lemma {:induction false} SameLenIffCanon(m: Pairing, lens: Lengths, a: Len, b: Len)
    ensures SameLen(m, lens, a, b) <==> CanonLen(lens, a) == CanonLen(lens, b)
    decreases a, 0
  {
    if a.LenBuiltin? && b.LenBuiltin? {
      SameTyIffCanon(m, lens, a.operand, b.operand);
    }
  }

  lemma {:induction false} SameConstsIffCanon(m: Pairing, lens: Lengths, a: seq<ConstArg>, b: seq<ConstArg>)
    ensures SameConsts(m, lens, a, b) <==> CanonConsts(lens, a) == CanonConsts(lens, b)
    decreases a, 0
  {
    if |a| == |b| {
      forall i | 0 <= i < |a|
        ensures SameConst(m, lens, a[i], b[i]) <==> CanonConsts(lens, a)[i] == CanonConsts(lens, b)[i]
      {
        SameConstIffCanon(m, lens, a[i], b[i]);
      }
    } else {
      assert |CanonConsts(lens, a)| != |CanonConsts(lens, b)|;
    }
  }

  lemma {:induction false} SameConstIffCanon(m: Pairing, lens: Lengths, a: ConstArg, b: ConstArg)
    ensures SameConst(m, lens, a, b) <==> CanonConst(lens, a) == CanonConst(lens, b)
    decreases a, 0
  {
    SameTyIffCanon(m, lens, a.ty, b.ty);
  }

  lemma {:induction false} SameBindingIffCanon(m: Pairing, lens: Lengths, a: Binding, b: Binding)
    ensures SameBinding(m, lens, a, b) <==> CanonBinding(lens, a) == CanonBinding(lens, b)
    decreases a, 0
  {
    SameTysIffCanon(m, lens, a.args, b.args);
    SameConstsIffCanon(m, lens, a.consts, b.consts);
    SameTyIffCanon(m, lens, a.ty, b.ty);
  }

  lemma {:induction false} SameBindingsIffCanon(m: Pairing, lens: Lengths, a: seq<Binding>, b: seq<Binding>)
    ensures SameBindings(m, lens, a, b)
       <==> multiset(CanonBindings(lens, a)) == multiset(CanonBindings(lens, b))
    decreases a, 2
  {
    var ca, cb := CanonBindings(lens, a), CanonBindings(lens, b);
    if |a| == |b| {
      SubMultisetOfSameSize(ca, cb);
      match m
      case Greedy => TakeFirstIffCanon(lens, a, b);
      case Backtracking =>
        SearchIffCanon(lens, a, b, seq(|b|, _ => false));
        FreeOfUnused(cb, seq(|b|, _ => false));
    } else {
      assert |multiset(ca)| == |ca| && |multiset(cb)| == |cb|;
    }
  }

  lemma {:induction false} SubMultisetOfSameSize<T>(a: seq<T>, b: seq<T>)
    requires |a| == |b|
    ensures multiset(a) <= multiset(b) <==> multiset(a) == multiset(b)
  {
    if multiset(a) <= multiset(b) {
      assert multiset(b) == multiset(a) + (multiset(b) - multiset(a));
      assert |multiset(b) - multiset(a)| == 0;
    }
  }

  lemma {:induction false} CancelInBoth<T>(p: multiset<T>, q: multiset<T>, x: T)
    ensures p + multiset{x} <= q + multiset{x} <==> p <= q
  {
    if p + multiset{x} <= q + multiset{x} {
      forall y ensures p[y] <= q[y] {
        assert (p + multiset{x})[y] <= (q + multiset{x})[y];
      }
    }
  }

  lemma {:induction false} CancelOne<T>(a: seq<T>, b: seq<T>, j: nat)
    requires a != [] && j < |b| && b[j] == a[0]
    ensures multiset(a) <= multiset(b) <==> multiset(a[1..]) <= multiset(b[..j] + b[j + 1..])
  {
    assert a == [a[0]] + a[1..];
    assert b == b[..j] + ([b[j]] + b[j + 1..]);
    assert multiset(b) == multiset(b[..j] + b[j + 1..]) + multiset{b[j]};
    assert multiset(a) == multiset(a[1..]) + multiset{a[0]};
    CancelInBoth(multiset(a[1..]), multiset(b[..j] + b[j + 1..]), a[0]);
  }

  lemma {:induction false} PartnersByCanon(m: Pairing, lens: Lengths, a: Binding, b: seq<Binding>)
    ensures forall k | 0 <= k < |b| ::
      SameBinding(m, lens, a, b[k]) <==> CanonBinding(lens, a) == CanonBindings(lens, b)[k]
    decreases a, 1
  {
    forall k | 0 <= k < |b|
      ensures SameBinding(m, lens, a, b[k]) <==> CanonBinding(lens, a) == CanonBindings(lens, b)[k]
    {
      SameBindingIffCanon(m, lens, a, b[k]);
    }
  }

  /** Taking the first partner is enough because partners of one binding are interchangeable. */
  lemma {:induction false} TakeFirstIffCanon(lens: Lengths, a: seq<Binding>, b: seq<Binding>)
    ensures TakeFirst(lens, a, b) <==> multiset(CanonBindings(lens, a)) <= multiset(CanonBindings(lens, b))
    decreases a, 1
  {
    if a != [] {
      var j := FirstPartner(lens, a[0], b, 0);
      PartnersByCanon(Greedy, lens, a[0], b);
      if j < |b| {
        TakeFirstIffCanon(lens, a[1..], b[..j] + b[j + 1..]);
        CancelPartner(lens, a, b, j);
      } else {
        NotAmong(CanonBindings(lens, a), CanonBindings(lens, b));
      }
    }
  }

  lemma {:induction false} CancelPartner(lens: Lengths, a: seq<Binding>, b: seq<Binding>, j: nat)
    requires a != [] && j < |b| && CanonBinding(lens, a[0]) == CanonBinding(lens, b[j])
    ensures multiset(CanonBindings(lens, a)) <= multiset(CanonBindings(lens, b)) <==>
      multiset(CanonBindings(lens, a[1..])) <= multiset(CanonBindings(lens, b[..j] + b[j + 1..]))
  {
    var ca, cb := CanonBindings(lens, a), CanonBindings(lens, b);
    assert CanonBindings(lens, a[1..]) == ca[1..];
    assert CanonBindings(lens, b[..j] + b[j + 1..]) == cb[..j] + cb[j + 1..];
    CancelOne(ca, cb, j);
  }

  lemma {:induction false} NotAmong<T>(a: seq<T>, b: seq<T>)
    requires a != [] && a[0] !in b
    ensures !(multiset(a) <= multiset(b))
  {
    assert a[0] in multiset(a);
  }

  /** The canonical bindings still unused. */
  ghost function Free<T>(cs: seq<T>, used: seq<bool>): multiset<T>
    requires |cs| == |used|
  {
    if cs == [] then multiset{}
    else (if used[0] then multiset{} else multiset{cs[0]}) + Free(cs[1..], used[1..])
  }

  lemma {:induction false} FreeOfUnused<T>(cs: seq<T>, used: seq<bool>)
    requires |cs| == |used|
    requires forall i | 0 <= i < |used| :: !used[i]
    ensures Free(cs, used) == multiset(cs)
  {
    if cs != [] {
      FreeOfUnused(cs[1..], used[1..]);
      assert cs == [cs[0]] + cs[1..];
    }
  }

  lemma {:induction false} FreeAfterUse<T>(cs: seq<T>, used: seq<bool>, j: nat)
    requires |cs| == |used|
    requires j < |cs| && !used[j]
    ensures Free(cs, used) == Free(cs, used[j := true]) + multiset{cs[j]}
  {
    if j == 0 {
      assert used[j := true][1..] == used[1..];
    } else {
      FreeAfterUse(cs[1..], used[1..], j - 1);
      assert used[j := true][1..] == used[1..][j - 1 := true];
    }
  }

  lemma {:induction false} FreeHas<T>(cs: seq<T>, used: seq<bool>, c: T) returns (j: nat)
    requires |cs| == |used|
    requires c in Free(cs, used)
    ensures j < |cs| && !used[j] && cs[j] == c
  {
    if !used[0] && cs[0] == c {
      j := 0;
    } else {
      j := FreeHas(cs[1..], used[1..], c);
      j := j + 1;
    }
  }

  lemma {:induction false} CancelFree<T>(a: seq<T>, b: seq<T>, used: seq<bool>, j: nat)
    requires |used| == |b|
    requires a != [] && j < |b| && !used[j] && b[j] == a[0]
    ensures multiset(a) <= Free(b, used) <==> multiset(a[1..]) <= Free(b, used[j := true])
  {
    assert a == [a[0]] + a[1..];
    assert multiset(a) == multiset(a[1..]) + multiset{a[0]};
    FreeAfterUse(b, used, j);
    CancelInBoth(multiset(a[1..]), Free(b, used[j := true]), a[0]);
  }

  lemma {:induction false} SearchIffCanon(lens: Lengths, a: seq<Binding>, b: seq<Binding>, used: seq<bool>)
    requires |used| == |b|
    ensures Search(lens, a, b, used)
       <==> multiset(CanonBindings(lens, a)) <= Free(CanonBindings(lens, b), used)
    decreases a, 1
  {
    if a != [] {
      var ca, cb := CanonBindings(lens, a), CanonBindings(lens, b);
      assert CanonBindings(lens, a[1..]) == ca[1..];
      forall j | 0 <= j < |b| && !used[j]
        ensures SameBinding(Backtracking, lens, a[0], b[j]) <==> ca[0] == cb[j]
        ensures ca[0] == cb[j] ==> (Search(lens, a[1..], b, used[j := true]) <==> multiset(ca) <= Free(cb, used))
      {
        SameBindingIffCanon(Backtracking, lens, a[0], b[j]);
        SearchIffCanon(lens, a[1..], b, used[j := true]);
        if ca[0] == cb[j] {
          CancelFree(ca, cb, used, j);
        }
      }
      if multiset(ca) <= Free(cb, used) {
        assert ca[0] in multiset(ca);
        var j := FreeHas(cb, used, ca[0]);
        assert Search(lens, a[1..], b, used[j := true]);
      }
    }
  }

  /** The greedy and the backtracking comparison never disagree, on any two types. */
  lemma {:induction false} ComparisonsAgree(lens: Lengths, a: Ty, b: Ty)
    ensures SameTy(Greedy, lens, a, b) <==> SameTy(Backtracking, lens, a, b)
  {
    SameTyIffCanon(Greedy, lens, a, b);
    SameTyIffCanon(Backtracking, lens, a, b);
  }

  /** Either comparison is an equivalence relation, which owner assignment relies on. */
  lemma {:induction false} SameTyIsEquivalence(m: Pairing, lens: Lengths, a: Ty, b: Ty, c: Ty)
    ensures SameTy(m, lens, a, a)
    ensures SameTy(m, lens, a, b) ==> SameTy(m, lens, b, a)
    ensures SameTy(m, lens, a, b) && SameTy(m, lens, b, c) ==> SameTy(m, lens, a, c)
  {
    SameTyIffCanon(m, lens, a, b);
    SameTyIffCanon(m, lens, b, a);
    SameTyIffCanon(m, lens, b, c);
    SameTyIffCanon(m, lens, a, c);
  }
}
