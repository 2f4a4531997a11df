/** Foreign type aliases: what instantiation makes of one, and that types without aliases are instantiated as if there
    were none. */
module Aliases {
  import opened Options
  import opened Scopes
  import opened Types
  import opened Substitution
  import opened Instantiation
  import opened Resolution

  function Unaliased(w: World): World {
    w.(aliases := map[])
  }

  // ---------------------------------------------------------------------------------------------------------------
  // Types without aliases.

  predicate Clear(w: World, t: Ty)
    decreases t, 0
  {
    match t
    case Pointer(_, elem) => Clear(w, elem)
    case Array(len, elem) => Clear(w, elem) && (len.LenBuiltin? ==> Clear(w, len.operand))
    case Form(tag, args, consts, bindings) =>
      && !(tag.Nominal? && tag.def in w.aliases)
      && ClearTys(w, args) && ClearConsts(w, consts) && ClearBindings(w, bindings)
    case Projection(self, _, args, consts, _) => Clear(w, self) && ClearTys(w, args) && ClearConsts(w, consts)
    case _ => true
  }

  predicate ClearTys(w: World, ts: seq<Ty>)
    decreases ts, 0
  {
    forall i | 0 <= i < |ts| :: Clear(w, ts[i])
  }

  predicate ClearConst(w: World, c: ConstArg)
    decreases c, 0
  {
    Clear(w, c.ty)
  }

  predicate ClearConsts(w: World, cs: seq<ConstArg>)
    decreases cs, 0
  {
    forall i | 0 <= i < |cs| :: ClearConst(w, cs[i])
  }

  predicate ClearBinding(w: World, b: Binding)
    decreases b, 0
  {
    ClearTys(w, b.args) && ClearConsts(w, b.consts) && Clear(w, b.ty)
  }

  predicate ClearBindings(w: World, bs: seq<Binding>)
    decreases bs, 0
  {
    forall i | 0 <= i < |bs| :: ClearBinding(w, bs[i])
  }

  predicate ClearKey(w: World, k: ProjKey) {
    Clear(w, k.self) && ClearTys(w, k.args) && ClearConsts(w, k.consts)
  }

  predicate ClearStack(w: World, active: seq<ProjKey>) {
    forall i | 0 <= i < |active| :: ClearKey(w, active[i])
  }

  ghost predicate ClearScope(w: World, s: Scope) {
    && (forall n | n in s.types :: Clear(w, s.types[n]))
    && (s.self.Some? ==> Clear(w, s.self.value))
    && (forall n | n in s.consts :: ClearConst(w, s.consts[n]))
  }

  /** Normalization, the solver and the assumptions bring in no alias. */
  ghost predicate ClearWorld(w: World, c: Ctx) {
    && (forall t | Clear(w, t) :: Clear(w, w.normalize(t)))
    && ClearTys(w, w.assumptionTys(c)) && ClearConsts(w, w.assumptionConsts(c))
    && (forall k, tys, consts | w.resolve(c, k, tys, consts).Some? :: Clear(w, w.resolve(c, k, tys, consts).value))
  }

  /** What a run on a clear type needs. */
  ghost predicate ClearRun(w: World, c: Ctx, s: Scope, active: seq<ProjKey>) {
    ClearWorld(w, c) && ClearScope(w, s) && ClearStack(w, active)
  }

  // ---------------------------------------------------------------------------------------------------------------
  // Instantiation of a clear type meets no alias.

  lemma {:induction false} InstIsClear(w: World, c: Ctx, t: Ty, s: Scope, active: seq<ProjKey>, f: nat)
    requires ClearRun(w, c, s, active) && Clear(w, t)
    ensures Inst(Unaliased(w), c, t, s, active, f) == Inst(w, c, t, s, active, f)
    ensures Inst(w, c, t, s, active, f).Some? ==> Clear(w, Inst(w, c, t, s, active, f).value)
    decreases f, 1
  {
    if f > 0 {
      NodeIsClear(w, c, w.normalize(t), s, active, f);
    }
  }

  lemma {:induction false} NodeIsClear(w: World, c: Ctx, t: Ty, s: Scope, active: seq<ProjKey>, f: nat)
    requires ClearRun(w, c, s, active) && Clear(w, t) && f > 0
    ensures Node(Unaliased(w), c, t, s, active, f) == Node(w, c, t, s, active, f)
    ensures Node(w, c, t, s, active, f).Some? ==> Clear(w, Node(w, c, t, s, active, f).value)
    decreases f, 0
  {
    match t
    case Pointer(_, elem) => InstIsClear(w, c, elem, s, active, f - 1);
    case Array(_, elem) => InstIsClear(w, c, elem, s, active, f - 1);
    case Form(_, _, _, _) => FormIsClear(w, c, t, s, active, f - 1);
    case Projection(_, _, _, _, _) => ProjectionIsClear(w, c, t, s, active, f - 1);
    case _ =>
  }

  lemma {:induction false} FormIsClear(w: World, c: Ctx, t: Ty, s: Scope, active: seq<ProjKey>, f: nat)
    requires ClearRun(w, c, s, active) && Clear(w, t) && t.Form?
    ensures Node(Unaliased(w), c, t, s, active, f + 1) == Node(w, c, t, s, active, f + 1)
    ensures Node(w, c, t, s, active, f + 1).Some? ==> Clear(w, Node(w, c, t, s, active, f + 1).value)
    decreases f, 7
  {
    TysAreClear(w, c, t.args, s, active, f);
    ConstsAreClear(w, c, t.consts, s, active, f);
    BindingsAreClear(w, c, t.bindings, s, active, f);
  }

  lemma {:induction false} ProjectionIsClear(w: World, c: Ctx, t: Ty, s: Scope, active: seq<ProjKey>, f: nat)
    requires ClearRun(w, c, s, active) && Clear(w, t) && t.Projection?
    ensures Node(Unaliased(w), c, t, s, active, f + 1) == Node(w, c, t, s, active, f + 1)
    ensures Node(w, c, t, s, active, f + 1).Some? ==> Clear(w, Node(w, c, t, s, active, f + 1).value)
    decreases f, 7
  {
    InstIsClear(w, c, t.self, s, active, f);
    TysAreClear(w, c, t.args, s, active, f);
    ConstsAreClear(w, c, t.consts, s, active, f);
    var self, args, consts := Inst(w, c, t.self, s, active, f), InstTys(w, c, t.args, s, active, f),
      InstConsts(w, c, t.consts, s, active, f);
    if self.Some? && args.Some? && consts.Some? {
      ResolvedIsClear(w, c, t, ProjKey(self.value, t.owner, args.value, consts.value, t.name), s, active, f);
    }
  }

  lemma {:induction false} ResolvedIsClear(
    w: World, c: Ctx, t: Ty, key: ProjKey, s: Scope, active: seq<ProjKey>, f: nat)
    requires ClearRun(w, c, s, active) && Clear(w, t) && t.Projection? && ClearKey(w, key)
    ensures InstProjection(Unaliased(w), c, t, key, s, active, f) == InstProjection(w, c, t, key, s, active, f)
    ensures var r := InstProjection(w, c, t, key, s, active, f); r.Some? ==> Clear(w, r.value)
    decreases f, 6
  {
    ActiveIsClear(w, c, active, key, f);
    var pushed := active + [key];
    assert ClearStack(w, pushed);
    TysAreClear(w, c, w.assumptionTys(c), s, pushed, f);
    ConstsAreClear(w, c, w.assumptionConsts(c), s, pushed, f);
    var tys, consts := InstTys(w, c, w.assumptionTys(c), s, pushed, f),
      InstConsts(w, c, w.assumptionConsts(c), s, pushed, f);
    if tys.Some? && consts.Some? {
      var answer := w.resolve(c, key, tys.value, consts.value);
      if answer.Some? {
        InstIsClear(w, c, answer.value, s, pushed, f);
      }
      KeysMatchClear(w, c, key, ProjKey(t.self, t.owner, t.args, t.consts, t.name), f);
    }
  }

  lemma {:induction false} TysAreClear(w: World, c: Ctx, ts: seq<Ty>, s: Scope, active: seq<ProjKey>, f: nat)
    requires ClearRun(w, c, s, active) && ClearTys(w, ts)
    ensures InstTys(Unaliased(w), c, ts, s, active, f) == InstTys(w, c, ts, s, active, f)
    ensures InstTys(w, c, ts, s, active, f).Some? ==> ClearTys(w, InstTys(w, c, ts, s, active, f).value)
    decreases f, 2, |ts|
  {
    if ts != [] {
      InstIsClear(w, c, ts[0], s, active, f);
      TysAreClear(w, c, ts[1..], s, active, f);
    }
  }

  lemma {:induction false} ConstIsClear(w: World, c: Ctx, x: ConstArg, s: Scope, active: seq<ProjKey>, f: nat)
    requires ClearRun(w, c, s, active) && ClearConst(w, x)
    ensures InstConst(Unaliased(w), c, x, s, active, f) == InstConst(w, c, x, s, active, f)
    ensures InstConst(w, c, x, s, active, f).Some? ==> ClearConst(w, InstConst(w, c, x, s, active, f).value)
    decreases f, 2
  {
    if x.value.CParam? && x.value.name in s.consts {
      if f > 0 {
        ConstIsClear(w, c, s.consts[x.value.name], s, active, f - 1);
      }
    } else {
      InstIsClear(w, c, x.ty, s, active, f);
    }
  }

  lemma {:induction false} ConstsAreClear(w: World, c: Ctx, cs: seq<ConstArg>, s: Scope, active: seq<ProjKey>, f: nat)
    requires ClearRun(w, c, s, active) && ClearConsts(w, cs)
    ensures InstConsts(Unaliased(w), c, cs, s, active, f) == InstConsts(w, c, cs, s, active, f)
    ensures InstConsts(w, c, cs, s, active, f).Some? ==> ClearConsts(w, InstConsts(w, c, cs, s, active, f).value)
    decreases f, 3, |cs|
  {
    if cs != [] {
      ConstIsClear(w, c, cs[0], s, active, f);
      ConstsAreClear(w, c, cs[1..], s, active, f);
    }
  }

  lemma {:induction false} BindingIsClear(w: World, c: Ctx, b: Binding, s: Scope, active: seq<ProjKey>, f: nat)
    requires ClearRun(w, c, s, active) && ClearBinding(w, b)
    ensures InstBinding(Unaliased(w), c, b, s, active, f) == InstBinding(w, c, b, s, active, f)
    ensures InstBinding(w, c, b, s, active, f).Some? ==> ClearBinding(w, InstBinding(w, c, b, s, active, f).value)
    decreases f, 4
  {
    TysAreClear(w, c, b.args, s, active, f);
    ConstsAreClear(w, c, b.consts, s, active, f);
    InstIsClear(w, c, b.ty, s, active, f);
  }

  lemma {:induction false} BindingsAreClear(w: World, c: Ctx, bs: seq<Binding>, s: Scope, active: seq<ProjKey>, f: nat)
    requires ClearRun(w, c, s, active) && ClearBindings(w, bs)
    ensures InstBindings(Unaliased(w), c, bs, s, active, f) == InstBindings(w, c, bs, s, active, f)
    ensures InstBindings(w, c, bs, s, active, f).Some? ==> ClearBindings(w, InstBindings(w, c, bs, s, active, f).value)
    decreases f, 5, |bs|
  {
    if bs != [] {
      BindingIsClear(w, c, bs[0], s, active, f);
      BindingsAreClear(w, c, bs[1..], s, active, f);
    }
  }

  lemma {:induction false} TysMatchClear(w: World, c: Ctx, a: seq<Ty>, b: seq<Ty>, f: nat)
    requires ClearWorld(w, c) && |a| == |b| && ClearTys(w, a) && ClearTys(w, b)
    ensures TysMatch(Unaliased(w), c, a, b, f) == TysMatch(w, c, a, b, f)
    decreases f, 3, |a|
  {
    if a != [] {
      InstIsClear(w, c, a[0], EMPTY, [], f);
      InstIsClear(w, c, b[0], EMPTY, [], f);
      TysMatchClear(w, c, a[1..], b[1..], f);
    }
  }

  lemma {:induction false} ConstsMatchClear(w: World, c: Ctx, a: seq<ConstArg>, b: seq<ConstArg>, f: nat)
    requires ClearWorld(w, c) && |a| == |b| && ClearConsts(w, a) && ClearConsts(w, b)
    ensures ConstsMatch(Unaliased(w), c, a, b, f) == ConstsMatch(w, c, a, b, f)
    decreases f, 4, |a|
  {
    if a != [] {
      assert ClearConst(w, a[0]) && ClearConst(w, b[0]);
      TysMatchClear(w, c, [a[0].ty], [b[0].ty], f);
      ConstsMatchClear(w, c, a[1..], b[1..], f);
    }
  }

  lemma {:induction false} KeysMatchClear(w: World, c: Ctx, a: ProjKey, b: ProjKey, f: nat)
    requires ClearWorld(w, c) && ClearKey(w, a) && ClearKey(w, b)
    ensures KeyMatch(Unaliased(w), c, a, b, f) == KeyMatch(w, c, a, b, f)
    decreases f, 5, 0
  {
    TysMatchClear(w, c, [a.self], [b.self], f);
    if |a.args| == |b.args| {
      TysMatchClear(w, c, a.args, b.args, f);
    }
    if |a.consts| == |b.consts| {
      ConstsMatchClear(w, c, a.consts, b.consts, f);
    }
  }

  lemma {:induction false} ActiveIsClear(w: World, c: Ctx, active: seq<ProjKey>, key: ProjKey, f: nat)
    requires ClearWorld(w, c) && ClearStack(w, active) && ClearKey(w, key)
    ensures AnyActive(Unaliased(w), c, active, key, f) == AnyActive(w, c, active, key, f)
    decreases f, 5, 1, |active|
  {
    if active != [] {
      KeysMatchClear(w, c, active[0], key, f);
      ActiveIsClear(w, c, active[1..], key, f);
    }
  }

  lemma {:induction false} ScopeOfIsClear(w: World, params: seq<Param>, args: seq<Ty>, consts: seq<ConstArg>)
    requires ClearTys(w, args) && ClearConsts(w, consts)
    ensures ClearScope(w, ScopeOf(params, args, consts))
  {
    if params != [] {
      ScopeOfIsClear(w, params[..|params| - 1], args, consts);
    }
  }

  // ---------------------------------------------------------------------------------------------------------------
  // The laws.

  /** A type without aliases means what it says in a program with aliases too. */
  lemma {:induction false} ClearTypeKeepsMeaning(
    w: World, c: Ctx, g: Program, t: Ty, s: Scope, e: Env, active: seq<ProjKey>, f: nat)
    requires ClearRun(w, c, s, active) && Clear(w, t) && Interprets(g, Unaliased(w), c)
    requires Apart(g, Unaliased(w), c, s, e) && Inst(w, c, t, s, active, f).Some?
    ensures Key(g, Inst(w, c, t, s, active, f).value) == MeaningOf(g, e, t)
  {
    InstIsClear(w, c, t, s, active, f);
    InstKeepsMeaning(Unaliased(w), c, g, t, s, e, active, f);
  }

  /** A run on `t` has expanded the alias that `t` names, under these arguments, into `expanded`. */
  ghost predicate Expands(
    w: World, c: Ctx, t: Ty, s: Scope, active: seq<ProjKey>, f: nat, args: seq<Ty>, consts: seq<ConstArg>,
    expanded: Ty) {
    var p := w.normalize(t);
    && p.Form? && p.tag.Nominal? && p.tag.def in w.aliases
    && InstTys(w, c, p.args, s, active, f) == Some(args) && InstConsts(w, c, p.consts, s, active, f) == Some(consts)
    && var alias := w.aliases[p.tag.def];
       alias.arity == |args| + |consts|
       && Inst(w, c, alias.target, ScopeOf(alias.params, args, consts), active, f) == Some(expanded)
  }

  /** The expansion means what the target means where the parameters of the alias stand for its arguments. The answer,
      for which the expansion is instantiated once more in the scope, means the same if and only if that changes
      nothing. */
  lemma {:induction false} AliasMeansItsTarget(
    w: World, c: Ctx, g: Program, t: Ty, s: Scope, e: Env, active: seq<ProjKey>, f: nat, args: seq<Ty>,
    consts: seq<ConstArg>, expanded: Ty, e': Env)
    requires Expands(w, c, t, s, active, f, args, consts, expanded) && Inst(w, c, t, s, active, f + 1).Some?
    requires ClearRun(w, c, s, active) && Clear(w, w.aliases[w.normalize(t).tag.def].target)
    requires ClearTys(w, args) && ClearConsts(w, consts) && Interprets(g, Unaliased(w), c)
    requires Apart(g, Unaliased(w), c, s, e)
    requires Apart(g, Unaliased(w), c, ScopeOf(w.aliases[w.normalize(t).tag.def].params, args, consts), e')
    ensures var target := w.aliases[w.normalize(t).tag.def].target;
      && Key(g, expanded) == MeaningOf(g, e', target)
      && (Key(g, Inst(w, c, t, s, active, f + 1).value) == MeaningOf(g, e', target) <==> Fixed(g, e, expanded))
  {
    var alias := w.aliases[w.normalize(t).tag.def];
    var scope := ScopeOf(alias.params, args, consts);
    ScopeOfIsClear(w, alias.params, args, consts);
    ClearTypeKeepsMeaning(w, c, g, alias.target, scope, e', active, f);
    InstIsClear(w, c, alias.target, scope, active, f);
    assert Inst(w, c, t, s, active, f + 1) == InstAlias(w, c, alias, args, consts, s, active, f)
        == Inst(w, c, expanded, s, active, f);
    ClearTypeKeepsMeaning(w, c, g, expanded, s, e, active, f);
  }

  /** With another number of arguments than the alias declares the answer is the error type. */
  lemma {:induction false} ArityIsChecked(
    w: World, c: Ctx, t: Ty, s: Scope, active: seq<ProjKey>, f: nat, args: seq<Ty>, consts: seq<ConstArg>)
    requires var p := w.normalize(t);
      && p.Form? && p.tag.Nominal? && p.tag.def in w.aliases
      && InstTys(w, c, p.args, s, active, f) == Some(args) && InstConsts(w, c, p.consts, s, active, f) == Some(consts)
    ensures w.aliases[w.normalize(t).tag.def].arity != |args| + |consts| ==>
      Inst(w, c, t, s, active, f + 1) == Some(w.errorTy)
  {
    var p := w.normalize(t);
    assert Inst(w, c, t, s, active, f + 1) == Node(w, c, p, s, active, f + 1);
    assert Node(w, c, p, s, active, f + 1) == InstAlias(w, c, w.aliases[p.tag.def], args, consts, s, active, f);
  }

  /** `Opt[u]` becomes `?u` where `Opt[T]` is an alias of `?T`. */
  lemma {:induction false} OptionalAlias(w: World, c: Ctx, def: nat, name: Sym, id: nat)
    requires (forall t :: w.normalize(t) == t)
    requires w.aliases == map[def := Alias(1, [Param(name, false)], Wrapped(Generic(name)))]
    ensures Inst(w, c, Form(Nominal(def), [Atom(id)], [], []), EMPTY, [], 3) == Some(Wrapped(Atom(id)))
  {
    var u, scope := Atom(id), ScopeOf([Param(name, false)], [Atom(id)], []);
    assert [Param(name, false)][..0] == [] && ScopeOf([], [u], []) == EMPTY;
    assert scope == Scope(None, map[name := u], map[]);
    OneArgument(w, c, u, u, EMPTY, 2);
    OneArgument(w, c, u, u, EMPTY, 1);
    OneArgument(w, c, Generic(name), u, scope, 1);
    assert Inst(w, c, Wrapped(Generic(name)), scope, [], 2) == Some(Wrapped(u));
    assert Inst(w, c, Wrapped(u), EMPTY, [], 2) == Some(Wrapped(u));
  }

  lemma {:induction false} OneArgument(w: World, c: Ctx, t: Ty, u: Ty, s: Scope, f: nat)
    requires Inst(w, c, t, s, [], f) == Some(u)
    ensures InstTys(w, c, [t], s, [], f) == Some([u])
  {
    assert [t][1..] == [] && InstTys(w, c, [], s, [], f) == Some([]);
    assert [u] + [] == [u];
  }
}
