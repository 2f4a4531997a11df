/** Semantic type comparison as the compiler runs it: both sides are instantiated anew at every level, and their
    components compared the same way. It decides equality of keys, like settling both sides at once. */
module Comparison {
  import opened Options
  import opened Types
  import opened Substitution
  import opened Matching

  ghost predicate Deep(g: Program, a: Ty, b: Ty)
    requires Settling(g)
    decreases Key(g, a), 2
  {
    var x, y := Settle(g, a), Settle(g, b);
    KeyOfSettle(g, a);
    SettledHead(g, a);
    x == y || DeepHeads(g, x, y)
  }

  /** The components of two instantiated types. */
  ghost predicate DeepHeads(g: Program, x: Ty, y: Ty)
    requires Settling(g) && Headed(g, x)
    decreases Key(g, x), 1
  {
    match (x, y)
    case (Pointer(ra, ea), Pointer(rb, eb)) => ra == rb && Deep(g, ea, eb)
    case (Array(la, ea), Array(lb, eb)) => DeepLen(g, la, lb) && Deep(g, ea, eb)
    case (Form(ta, aa, ca, ba), Form(tb, ab, cb, bb)) =>
      && ta == tb
      && DeepTys(g, aa, ab)
      && DeepConsts(g, ca, cb)
      && |ba| == |bb|
      && (assert Holds(g, Key(g, x), ba) by { BindingsAreHeld(g, x); }
          DeepSearch(g, Key(g, x), ba, bb, seq(|bb|, _ => false)))
    case (Projection(sa, oa, aa, ca, na), Projection(sb, ob, ab, cb, nb)) =>
      && oa == ob && na == nb
      && Deep(g, sa, sb)
      && DeepTys(g, aa, ab)
      && DeepConsts(g, ca, cb)
    case _ => false
  }

  ghost predicate DeepTys(g: Program, a: seq<Ty>, b: seq<Ty>)
    requires Settling(g)
    decreases KeyTys(g, NO_ENV, NO_ENV, a), 0
  {
    && |a| == |b|
    && forall i | 0 <= i < |a| :: KeyTys(g, NO_ENV, NO_ENV, a)[i] == Key(g, a[i]) && Deep(g, a[i], b[i])
  }

  ghost predicate DeepLen(g: Program, a: Len, b: Len)
    requires Settling(g)
    decreases KeyLen(g, NO_ENV, NO_ENV, a), 0
  {
    match (a, b)
    case (LenBuiltin(fa, ta), LenBuiltin(fb, tb)) => fa == fb && Deep(g, ta, tb)
    case _ => SameLen(Backtracking, g.lens, a, b)
  }

  ghost predicate DeepConst(g: Program, a: ConstArg, b: ConstArg)
    requires Settling(g)
    decreases KeyConst(g, NO_ENV, NO_ENV, a), 0
  {
    Deep(g, a.ty, b.ty) && SameConstValue(g.lens, a.value, b.value)
  }

  ghost predicate DeepConsts(g: Program, a: seq<ConstArg>, b: seq<ConstArg>)
    requires Settling(g)
    decreases KeyConsts(g, NO_ENV, NO_ENV, a), 0
  {
    && |a| == |b|
    && forall i | 0 <= i < |a| ::
         KeyConsts(g, NO_ENV, NO_ENV, a)[i] == KeyConst(g, NO_ENV, NO_ENV, a[i]) && DeepConst(g, a[i], b[i])
  }

  ghost predicate DeepBinding(g: Program, a: Binding, b: Binding)
    requires Settling(g)
    decreases KeyBinding(g, NO_ENV, NO_ENV, a), 0
  {
    && a.name == b.name
    && a.owner == b.owner
    && DeepConsts(g, a.consts, b.consts)
    && DeepTys(g, a.args, b.args)
    && Deep(g, a.ty, b.ty)
  }

  /** The keys of these bindings are among those of the key `top`. */
  ghost predicate Holds(g: Program, top: CTy, bs: seq<Binding>) {
    top.CForm? && forall i | 0 <= i < |bs| :: KeyBinding(g, NO_ENV, NO_ENV, bs[i]) in top.bindings
  }

  lemma {:induction false} BindingsAreHeld(g: Program, x: Ty)
    requires x.Form?
    ensures Holds(g, Key(g, x), x.bindings)
  {
    var k := KeyBindings(g, NO_ENV, NO_ENV, x.bindings);
    forall i | 0 <= i < |x.bindings| ensures KeyBinding(g, NO_ENV, NO_ENV, x.bindings[i]) in multiset(k) {
      assert k[i] in multiset(k);
    }
  }

  /** Some unused partner of the first left binding leaves the rest solvable. */
  ghost predicate DeepSearch(g: Program, top: CTy, a: seq<Binding>, b: seq<Binding>, used: seq<bool>)
    requires Settling(g) && |used| == |b| && Holds(g, top, a)
    decreases top, 0, 0, |a|
  {
    a == [] ||
    exists j | 0 <= j < |b| ::
      !used[j] && DeepBinding(g, a[0], b[j]) && DeepSearch(g, top, a[1..], b, used[j := true])
  }

  // ---------------------------------------------------------------------------------------------------------------
  // Every level decides equality of keys.

  lemma {:induction false} DeepIffKey(g: Program, a: Ty, b: Ty)
    requires Settling(g)
    ensures Deep(g, a, b) <==> Key(g, a) == Key(g, b)
    decreases Key(g, a), 2
  {
    KeyOfSettle(g, a);
    KeyOfSettle(g, b);
    SettledHead(g, a);
    SettledHead(g, b);
    DeepHeadsIffKey(g, Settle(g, a), Settle(g, b));
  }

  lemma {:induction false} DeepHeadsIffKey(g: Program, x: Ty, y: Ty)
    requires Settling(g) && Headed(g, x) && Headed(g, y)
    ensures x == y || DeepHeads(g, x, y) <==> Key(g, x) == Key(g, y)
    decreases Key(g, x), 1
  {
    match (x, y)
    case (Pointer(_, ea), Pointer(_, eb)) => DeepIffKey(g, ea, eb);
    case (Array(la, ea), Array(lb, eb)) =>
      DeepLenIffKey(g, la, lb);
      DeepIffKey(g, ea, eb);
    case (Form(_, aa, ca, ba), Form(_, ab, cb, bb)) => DeepFormIffKey(g, x, y);
    case (Projection(_, _, _, _, _), Projection(_, _, _, _, _)) => DeepProjectionIffKey(g, x, y);
    case _ =>
  }

  lemma {:induction false} DeepFormIffKey(g: Program, x: Ty, y: Ty)
    requires Settling(g) && x.Form? && y.Form?
    ensures DeepHeads(g, x, y) <==> Key(g, x) == Key(g, y)
    decreases Key(g, x), 0, 2
  {
    BindingsAreHeld(g, x);
    DeepTysIffKey(g, x.args, y.args);
    DeepConstsIffKey(g, x.consts, y.consts);
    DeepBindingsIffKey(g, Key(g, x), x.bindings, y.bindings);
  }

  lemma {:induction false} DeepProjectionIffKey(g: Program, x: Ty, y: Ty)
    requires Settling(g) && x.Projection? && y.Projection? && Headed(g, x) && Headed(g, y)
    ensures DeepHeads(g, x, y) <==> Key(g, x) == Key(g, y)
    decreases Key(g, x), 0, 2
  {
    assert Key(g, x) == Question(g, x) && Key(g, y) == Question(g, y);
    DeepIffKey(g, x.self, y.self);
    DeepTysIffKey(g, x.args, y.args);
    DeepConstsIffKey(g, x.consts, y.consts);
  }

  lemma {:induction false} DeepTysIffKey(g: Program, a: seq<Ty>, b: seq<Ty>)
    requires Settling(g)
    ensures DeepTys(g, a, b) <==> KeyTys(g, NO_ENV, NO_ENV, a) == KeyTys(g, NO_ENV, NO_ENV, b)
    decreases KeyTys(g, NO_ENV, NO_ENV, a), 0
  {
    var k, l := KeyTys(g, NO_ENV, NO_ENV, a), KeyTys(g, NO_ENV, NO_ENV, b);
    if |a| == |b| {
      forall i | 0 <= i < |a| ensures Deep(g, a[i], b[i]) <==> k[i] == l[i] {
        assert k[i] == Key(g, a[i]);
        DeepIffKey(g, a[i], b[i]);
      }
    } else {
      assert |k| != |l|;
    }
  }

  lemma {:induction false} DeepLenIffKey(g: Program, a: Len, b: Len)
    requires Settling(g)
    ensures DeepLen(g, a, b) <==> KeyLen(g, NO_ENV, NO_ENV, a) == KeyLen(g, NO_ENV, NO_ENV, b)
    decreases KeyLen(g, NO_ENV, NO_ENV, a), 0
  {
    if a.LenBuiltin? && b.LenBuiltin? {
      DeepIffKey(g, a.operand, b.operand);
    }
  }

  lemma {:induction false} DeepConstsIffKey(g: Program, a: seq<ConstArg>, b: seq<ConstArg>)
    requires Settling(g)
    ensures DeepConsts(g, a, b) <==> KeyConsts(g, NO_ENV, NO_ENV, a) == KeyConsts(g, NO_ENV, NO_ENV, b)
    decreases KeyConsts(g, NO_ENV, NO_ENV, a), 0
  {
    var k, l := KeyConsts(g, NO_ENV, NO_ENV, a), KeyConsts(g, NO_ENV, NO_ENV, b);
    if |a| == |b| {
      forall i | 0 <= i < |a| ensures DeepConst(g, a[i], b[i]) <==> k[i] == l[i] {
        assert k[i] == KeyConst(g, NO_ENV, NO_ENV, a[i]);
        DeepConstIffKey(g, a[i], b[i]);
      }
    } else {
      assert |k| != |l|;
    }
  }

  lemma {:induction false} DeepConstIffKey(g: Program, a: ConstArg, b: ConstArg)
    requires Settling(g)
    ensures DeepConst(g, a, b) <==> KeyConst(g, NO_ENV, NO_ENV, a) == KeyConst(g, NO_ENV, NO_ENV, b)
    decreases KeyConst(g, NO_ENV, NO_ENV, a), 0
  {
    DeepIffKey(g, a.ty, b.ty);
  }

  lemma {:induction false} DeepBindingIffKey(g: Program, a: Binding, b: Binding)
    requires Settling(g)
    ensures DeepBinding(g, a, b) <==> KeyBinding(g, NO_ENV, NO_ENV, a) == KeyBinding(g, NO_ENV, NO_ENV, b)
    decreases KeyBinding(g, NO_ENV, NO_ENV, a), 0
  {
    DeepTysIffKey(g, a.args, b.args);
    DeepConstsIffKey(g, a.consts, b.consts);
    DeepIffKey(g, a.ty, b.ty);
  }

  lemma {:induction false} DeepSearchIffKey(g: Program, top: CTy, a: seq<Binding>, b: seq<Binding>, used: seq<bool>)
    requires Settling(g) && |used| == |b| && Holds(g, top, a)
    ensures DeepSearch(g, top, a, b, used) <==>
      multiset(KeyBindings(g, NO_ENV, NO_ENV, a)) <= Free(KeyBindings(g, NO_ENV, NO_ENV, b), used)
    decreases top, 0, 0, |a|
  {
    if a != [] {
      var ka, kb := KeyBindings(g, NO_ENV, NO_ENV, a), KeyBindings(g, NO_ENV, NO_ENV, b);
      assert KeyBindings(g, NO_ENV, NO_ENV, a[1..]) == ka[1..];
      forall j | 0 <= j < |b| && !used[j]
        ensures DeepBinding(g, a[0], b[j]) <==> ka[0] == kb[j]
        ensures ka[0] == kb[j] ==> (DeepSearch(g, top, a[1..], b, used[j := true]) <==> multiset(ka) <= Free(kb, used))
      {
        DeepBindingIffKey(g, a[0], b[j]);
        DeepSearchIffKey(g, top, a[1..], b, used[j := true]);
        if ka[0] == kb[j] {
          CancelFree(ka, kb, used, j);
        }
      }
      if multiset(ka) <= Free(kb, used) {
        assert ka[0] in multiset(ka);
        var j := FreeHas(kb, used, ka[0]);
        assert DeepSearch(g, top, a[1..], b, used[j := true]);
      }
    }
  }

  lemma {:induction false} DeepBindingsIffKey(g: Program, top: CTy, a: seq<Binding>, b: seq<Binding>)
    requires Settling(g) && Holds(g, top, a)
    ensures |a| == |b| && DeepSearch(g, top, a, b, seq(|b|, _ => false)) <==>
      multiset(KeyBindings(g, NO_ENV, NO_ENV, a)) == multiset(KeyBindings(g, NO_ENV, NO_ENV, b))
    decreases top, 0, 1, |a|
  {
    var ka, kb := KeyBindings(g, NO_ENV, NO_ENV, a), KeyBindings(g, NO_ENV, NO_ENV, b);
    if |a| == |b| {
      DeepSearchIffKey(g, top, a, b, seq(|b|, _ => false));
      FreeOfUnused(kb, seq(|b|, _ => false));
      SubMultisetOfSameSize(ka, kb);
    } else {
      assert |multiset(ka)| == |ka| && |multiset(kb)| == |kb|;
    }
  }

  /** Comparing level by level, each time on freshly instantiated sides, gives what settling both sides once gives. */
  lemma {:induction false} DeepIffTypesMatch(g: Program, a: Ty, b: Ty)
    requires Settling(g)
    ensures Deep(g, a, b) <==> TypesMatch(g, a, b)
  {
    DeepIffKey(g, a, b);
    TypesMatchIffKey(g, a, b);
  }
}
