/** Type instantiation under a substitution, with the trait solver as a parameter, and the key of a type: the canonical
    form that semantic type equality compares. */
module Substitution {
  import opened Options
  import opened Types

  type Subst = map<Sym, Ty>

  /** Evaluated const expressions, and the solver: what a projection stands for, asked by its canonical form. */
  datatype Program = Program(lens: Lengths, solve: CTy -> Option<Ty>)

  // ---------------------------------------------------------------------------------------------------------------
  // Instantiation of a type under a substitution.

  predicate IsPointee(tag: Tag) {
    tag.SlicePointee? || tag.TraitObjectPointee? || tag.CallablePointee?
  }

  /** The fat view a pointer to an unsized pointee becomes. */
  function View(readonly: bool, tag: Tag): Tag
    requires IsPointee(tag)
  {
    match tag
    case SlicePointee => Slice(readonly)
    case TraitObjectPointee(id) => TraitObject(readonly, id)
    case CallablePointee => Callable(readonly)
  }

  /** A view has the access of the pointer and tells what it points to. */
  lemma {:induction false} ViewTellsPointee(readonly: bool, tag: Tag)
    requires IsPointee(tag)
    ensures match View(readonly, tag)
      case Slice(access) => tag == SlicePointee && access == readonly
      case TraitObject(access, id) => tag == TraitObjectPointee(id) && access == readonly
      case Callable(access) => tag == CallablePointee && access == readonly
      case _ => false
  {
  }

  function PointerTo(readonly: bool, elem: Ty): Ty {
    if elem.Form? && IsPointee(elem.tag) then elem.(tag := View(readonly, elem.tag)) else Pointer(readonly, elem)
  }

  /** `full` also rewrites the operand of a builtin array length, which the compiler's instantiation does not. */
  function Apply(g: Program, full: bool, s: Subst, t: Ty): Ty
    decreases t, 0
  {
    match t
    case Atom(_) => t
    case Generic(name) => if name in s then s[name] else t
    case SelfParam => t
    case Pointer(readonly, elem) => PointerTo(readonly, Apply(g, full, s, elem))
    case Array(len, elem) => Array(if full then ApplyLen(g, s, len) else len, Apply(g, full, s, elem))
    case Form(tag, args, consts, bindings) =>
      Form(tag, ApplyTys(g, full, s, args), ApplyConsts(g, full, s, consts), ApplyBindings(g, full, s, bindings))
    case Projection(self, owner, args, consts, name) =>
      ProjectionTo(g, Apply(g, full, s, self), owner, ApplyTys(g, full, s, args), ApplyConsts(g, full, s, consts), name)
  }

  /** The solver's answer, or the projection itself. */
  function ProjectionTo(g: Program, self: Ty, owner: nat, args: seq<Ty>, consts: seq<ConstArg>, name: Sym): Ty {
    var stuck := Projection(self, owner, args, consts, name);
    var answer := g.solve(Question(g, stuck));
    if answer.Some? then answer.value else stuck
  }

  /** What the solver is asked about a projection. */
  function Question(g: Program, t: Ty): CTy
    requires t.Projection?
  {
    CProjection(Key(g, t.self), t.owner, KeyTys(g, NO_ENV, NO_ENV, t.args), KeyConsts(g, NO_ENV, NO_ENV, t.consts),
                t.name)
  }

  function ApplyLen(g: Program, s: Subst, len: Len): Len
    decreases len, 0
  {
    if len.LenBuiltin? then LenBuiltin(len.op, Apply(g, true, s, len.operand)) else len
  }

  function ApplyTys(g: Program, full: bool, s: Subst, ts: seq<Ty>): seq<Ty>
    decreases ts, 0
  {
    seq(|ts|, i requires 0 <= i < |ts| => Apply(g, full, s, ts[i]))
  }

  function ApplyConst(g: Program, full: bool, s: Subst, c: ConstArg): ConstArg
    decreases c, 0
  {
    ConstArg(Apply(g, full, s, c.ty), c.value)
  }

  function ApplyConsts(g: Program, full: bool, s: Subst, cs: seq<ConstArg>): seq<ConstArg>
    decreases cs, 0
  {
    seq(|cs|, i requires 0 <= i < |cs| => ApplyConst(g, full, s, cs[i]))
  }

  function ApplyBinding(g: Program, full: bool, s: Subst, b: Binding): Binding
    decreases b, 0
  {
    Binding(b.owner, b.name, ApplyTys(g, full, s, b.args), ApplyConsts(g, full, s, b.consts), Apply(g, full, s, b.ty))
  }

  function ApplyBindings(g: Program, full: bool, s: Subst, bs: seq<Binding>): seq<Binding>
    decreases bs, 0
  {
    seq(|bs|, i requires 0 <= i < |bs| => ApplyBinding(g, full, s, bs[i]))
  }

  /** The canonical instance argument. */
  function Settle(g: Program, t: Ty): Ty {
    Apply(g, false, map[], t)
  }

  /** Semantic type equality: both sides are settled, builtin-length operands included, then compared. */
  predicate TypesMatch(g: Program, a: Ty, b: Ty) {
    SameTy(Backtracking, g.lens, Apply(g, true, map[], a), Apply(g, true, map[], b))
  }

  // ---------------------------------------------------------------------------------------------------------------
  // Generics of a pattern.

  predicate HasGeneric(t: Ty)
    decreases t, 0
  {
    match t
    case Atom(_) => false
    case Generic(_) => true
    case SelfParam => true
    case Pointer(_, elem) => HasGeneric(elem)
    case Array(len, elem) => HasGeneric(elem) || (len.LenBuiltin? && HasGeneric(len.operand))
    case Form(_, args, consts, bindings) => AnyGeneric(args) || AnyConst(consts) || AnyBinding(bindings)
    case Projection(self, _, args, consts, _) => HasGeneric(self) || AnyGeneric(args) || AnyConst(consts)
  }

  predicate AnyGeneric(ts: seq<Ty>)
    decreases ts, 0
  {
    exists i | 0 <= i < |ts| :: HasGeneric(ts[i])
  }

  predicate ConstGeneric(c: ConstArg)
    decreases c, 0
  {
    HasGeneric(c.ty)
  }

  predicate AnyConst(cs: seq<ConstArg>)
    decreases cs, 0
  {
    exists i | 0 <= i < |cs| :: ConstGeneric(cs[i])
  }

  predicate BindingGeneric(b: Binding)
    decreases b, 0
  {
    AnyGeneric(b.args) || AnyConst(b.consts) || HasGeneric(b.ty)
  }

  predicate AnyBinding(bs: seq<Binding>)
    decreases bs, 0
  {
    exists i | 0 <= i < |bs| :: BindingGeneric(bs[i])
  }

  function Generics(t: Ty): set<Sym>
    decreases t, 0
  {
    match t
    case Atom(_) => {}
    case Generic(name) => {name}
    case SelfParam => {}
    case Pointer(_, elem) => Generics(elem)
    case Array(len, elem) => (if len.LenBuiltin? then Generics(len.operand) else {}) + Generics(elem)
    case Form(_, args, consts, bindings) => GenericsTys(args) + GenericsConsts(consts) + GenericsBindings(bindings)
    case Projection(self, _, args, consts, _) => Generics(self) + GenericsTys(args) + GenericsConsts(consts)
  }

  function GenericsTys(ts: seq<Ty>): set<Sym>
    decreases ts, 0
  {
    set i, n | 0 <= i < |ts| && n in Generics(ts[i]) :: n
  }

  function GenericsConst(c: ConstArg): set<Sym>
    decreases c, 0
  {
    Generics(c.ty)
  }

  function GenericsConsts(cs: seq<ConstArg>): set<Sym>
    decreases cs, 0
  {
    set i, n | 0 <= i < |cs| && n in GenericsConst(cs[i]) :: n
  }

  function GenericsBinding(b: Binding): set<Sym>
    decreases b, 0
  {
    GenericsTys(b.args) + GenericsConsts(b.consts) + Generics(b.ty)
  }

  function GenericsBindings(bs: seq<Binding>): set<Sym>
    decreases bs, 0
  {
    set i, n | 0 <= i < |bs| && n in GenericsBinding(bs[i]) :: n
  }

  /** Every generic of the pattern already has a type. */
  predicate Bound(t: Ty, names: set<Sym>) {
    Generics(t) <= names
  }

  // ---------------------------------------------------------------------------------------------------------------
  // The key of a type: its canonical form once settled, with generics read from an environment of keys.

  /** What type parameters, `Self`, length parameters and const parameters stand for. */
  datatype Env = Env(types: map<Sym, CTy>, self: Option<CTy>, lens: map<Sym, CLen>, consts: map<Sym, CConst>)

  const NO_ENV: Env := Env(map[], None, map[], map[])

  function CPointerTo(readonly: bool, k: CTy): CTy {
    if k.CForm? && IsPointee(k.tag) then k.(tag := View(readonly, k.tag)) else CPointer(readonly, k)
  }

  function CProjectionTo(g: Program, k: CTy): CTy {
    var answer := g.solve(k);
    if answer.Some? then Canon(g.lens, answer.value) else k
  }

  /** `inner` is the environment of builtin-length operands. */
  function KeyIn(g: Program, env: Env, inner: Env, t: Ty): CTy
    decreases t, 0
  {
    match t
    case Atom(id) => CAtom(id)
    case Generic(name) => if name in env.types then env.types[name] else CGeneric(name)
    case SelfParam => if env.self.Some? then env.self.value else CSelf
    case Pointer(readonly, elem) => CPointerTo(readonly, KeyIn(g, env, inner, elem))
    case Array(len, elem) => CArray(KeyLen(g, env, inner, len), KeyIn(g, env, inner, elem))
    case Form(tag, args, consts, bindings) =>
      CForm(tag, KeyTys(g, env, inner, args), KeyConsts(g, env, inner, consts),
            multiset(KeyBindings(g, env, inner, bindings)))
    case Projection(self, owner, args, consts, name) =>
      CProjectionTo(g, CProjection(KeyIn(g, env, inner, self), owner, KeyTys(g, env, inner, args),
                                   KeyConsts(g, env, inner, consts), name))
  }

  function KeyLen(g: Program, env: Env, inner: Env, len: Len): CLen
    decreases len, 0
  {
    match len
    case LenBuiltin(op, operand) => CLenBuiltin(op, KeyIn(g, inner, inner, operand))
    case Infer => CInfer
    case LenParam(name) => if name in env.lens then env.lens[name] else CLenParam(name)
    case LenValue(value) => CLenValue(value)
    case LenExpr(id) => if id in g.lens then CLenValue(g.lens[id]) else CLenExpr(id)
  }

  function KeyTys(g: Program, env: Env, inner: Env, ts: seq<Ty>): seq<CTy>
    decreases ts, 0
  {
    seq(|ts|, i requires 0 <= i < |ts| => KeyIn(g, env, inner, ts[i]))
  }

  function KeyConst(g: Program, env: Env, inner: Env, c: ConstArg): CConst
    decreases c, 0
  {
    if c.value.CParam? && c.value.name in env.consts then env.consts[c.value.name]
    else CConst(KeyIn(g, env, inner, c.ty), CanonValue(g.lens, c.value))
  }

  function KeyConsts(g: Program, env: Env, inner: Env, cs: seq<ConstArg>): seq<CConst>
    decreases cs, 0
  {
    seq(|cs|, i requires 0 <= i < |cs| => KeyConst(g, env, inner, cs[i]))
  }

  function KeyBinding(g: Program, env: Env, inner: Env, b: Binding): CBinding
    decreases b, 0
  {
    CBinding(b.owner, b.name, KeyTys(g, env, inner, b.args), KeyConsts(g, env, inner, b.consts),
             KeyIn(g, env, inner, b.ty))
  }

  function KeyBindings(g: Program, env: Env, inner: Env, bs: seq<Binding>): seq<CBinding>
    decreases bs, 0
  {
    seq(|bs|, i requires 0 <= i < |bs| => KeyBinding(g, env, inner, bs[i]))
  }

  function Key(g: Program, t: Ty): CTy {
    KeyIn(g, NO_ENV, NO_ENV, t)
  }

  function Keys(g: Program, s: Subst): Env {
    Env(map n | n in s :: Key(g, s[n]), None, map[], map[])
  }

  // ---- Types that instantiation leaves alone, and solvers whose answers are such types.

  /** No projection in the type has an answer, and no pointer in it is to an unsized pointee. */
  ghost predicate Stuck(g: Program, t: Ty)
    decreases t, 0
  {
    match t
    case Pointer(_, elem) => Stuck(g, elem) && !(elem.Form? && IsPointee(elem.tag))
    case Array(len, elem) => Stuck(g, elem) && (len.LenBuiltin? ==> Stuck(g, len.operand))
    case Form(_, args, consts, bindings) => StuckTys(g, args) && StuckConsts(g, consts) && StuckBindings(g, bindings)
    case Projection(self, _, args, consts, _) =>
      && Stuck(g, self)
      && StuckTys(g, args)
      && StuckConsts(g, consts)
      && g.solve(Canon(g.lens, t)).None?
    case _ => true
  }

  ghost predicate StuckTys(g: Program, ts: seq<Ty>)
    decreases ts, 0
  {
    forall i | 0 <= i < |ts| :: Stuck(g, ts[i])
  }

  ghost predicate StuckConst(g: Program, c: ConstArg)
    decreases c, 0
  {
    Stuck(g, c.ty)
  }

  ghost predicate StuckConsts(g: Program, cs: seq<ConstArg>)
    decreases cs, 0
  {
    forall i | 0 <= i < |cs| :: StuckConst(g, cs[i])
  }

  ghost predicate StuckBinding(g: Program, b: Binding)
    decreases b, 0
  {
    StuckTys(g, b.args) && StuckConsts(g, b.consts) && Stuck(g, b.ty)
  }

  ghost predicate StuckBindings(g: Program, bs: seq<Binding>)
    decreases bs, 0
  {
    forall i | 0 <= i < |bs| :: StuckBinding(g, bs[i])
  }

  /** The solver answers with types that need no further instantiation. */
  ghost predicate Settling(g: Program) {
    forall k | g.solve(k).Some? :: Stuck(g, g.solve(k).value)
  }

  /** The solver answers a question without generics with a type without generics. */
  ghost predicate Concrete(g: Program) {
    forall k | g.solve(k).Some? && !Open(k) :: !HasGeneric(g.solve(k).value)
  }

  lemma {:induction false} KeyOfStuck(g: Program, t: Ty)
    requires Stuck(g, t)
    ensures Key(g, t) == Canon(g.lens, t)
    decreases t, 0
  {
    match t
    case Pointer(_, elem) => KeyOfStuck(g, elem);
    case Array(len, elem) =>
      KeyOfStuck(g, elem);
      if len.LenBuiltin? {
        KeyOfStuck(g, len.operand);
      }
      assert KeyLen(g, NO_ENV, NO_ENV, len) == CanonLen(g.lens, len);
    case Form(_, args, consts, bindings) =>
      KeyOfStuckTys(g, args);
      KeyOfStuckConsts(g, consts);
      KeyOfStuckBindings(g, bindings);
    case Projection(self, _, args, consts, _) =>
      KeyOfStuck(g, self);
      KeyOfStuckTys(g, args);
      KeyOfStuckConsts(g, consts);
    case _ =>
  }

  lemma {:induction false} KeyOfStuckTys(g: Program, ts: seq<Ty>)
    requires StuckTys(g, ts)
    ensures KeyTys(g, NO_ENV, NO_ENV, ts) == CanonTys(g.lens, ts)
    decreases ts, 0
  {
    forall i | 0 <= i < |ts| {
      KeyOfStuck(g, ts[i]);
    }
  }

  lemma {:induction false} KeyOfStuckConsts(g: Program, cs: seq<ConstArg>)
    requires StuckConsts(g, cs)
    ensures KeyConsts(g, NO_ENV, NO_ENV, cs) == CanonConsts(g.lens, cs)
    decreases cs, 0
  {
    forall i | 0 <= i < |cs| {
      KeyOfStuckConst(g, cs[i]);
    }
  }

  lemma {:induction false} KeyOfStuckConst(g: Program, c: ConstArg)
    requires StuckConst(g, c)
    ensures KeyConst(g, NO_ENV, NO_ENV, c) == CanonConst(g.lens, c)
    decreases c, 0
  {
    KeyOfStuck(g, c.ty);
  }

  lemma {:induction false} KeyOfStuckBinding(g: Program, b: Binding)
    requires StuckBinding(g, b)
    ensures KeyBinding(g, NO_ENV, NO_ENV, b) == CanonBinding(g.lens, b)
    decreases b, 0
  {
    KeyOfStuckTys(g, b.args);
    KeyOfStuckConsts(g, b.consts);
    KeyOfStuck(g, b.ty);
  }

  lemma {:induction false} KeyOfStuckBindings(g: Program, bs: seq<Binding>)
    requires StuckBindings(g, bs)
    ensures KeyBindings(g, NO_ENV, NO_ENV, bs) == CanonBindings(g.lens, bs)
    decreases bs, 0
  {
    forall i | 0 <= i < |bs| {
      KeyOfStuckBinding(g, bs[i]);
    }
  }

  // ---- Instantiating and then taking the key is taking the key in the environment of the substitution's keys.

  lemma {:induction false} KeyOfProjectionTo(
    g: Program, self: Ty, owner: nat, args: seq<Ty>, consts: seq<ConstArg>, name: Sym)
    requires Settling(g)
    ensures Key(g, ProjectionTo(g, self, owner, args, consts, name))
         == CProjectionTo(g, Question(g, Projection(self, owner, args, consts, name)))
  {
    var answer := g.solve(Question(g, Projection(self, owner, args, consts, name)));
    if answer.Some? {
      KeyOfStuck(g, answer.value);
    }
  }

  lemma {:induction false} KeyOfApply(g: Program, full: bool, s: Subst, t: Ty)
    requires Settling(g)
    ensures Key(g, Apply(g, full, s, t)) == KeyIn(g, Keys(g, s), if full then Keys(g, s) else NO_ENV, t)
    decreases t, 0
  {
    match t
    case Pointer(_, elem) => KeyOfApply(g, full, s, elem);
    case Array(len, elem) =>
      KeyOfApply(g, full, s, elem);
      KeyOfApplyLen(g, s, len);
    case Form(_, args, consts, bindings) =>
      KeyOfApplyTys(g, full, s, args);
      KeyOfApplyConsts(g, full, s, consts);
      KeyOfApplyBindings(g, full, s, bindings);
    case Projection(self, _, args, consts, _) =>
      KeyOfApply(g, full, s, self);
      KeyOfApplyTys(g, full, s, args);
      KeyOfApplyConsts(g, full, s, consts);
      KeyOfProjectionTo(g, Apply(g, full, s, self), t.owner, ApplyTys(g, full, s, args),
        ApplyConsts(g, full, s, consts), t.name);
    case _ =>
  }

  lemma {:induction false} KeyOfApplyLen(g: Program, s: Subst, len: Len)
    requires Settling(g)
    ensures KeyLen(g, NO_ENV, NO_ENV, ApplyLen(g, s, len)) == KeyLen(g, Keys(g, s), Keys(g, s), len)
    ensures KeyLen(g, NO_ENV, NO_ENV, len) == KeyLen(g, Keys(g, s), NO_ENV, len)
    decreases len, 0
  {
    if len.LenBuiltin? {
      KeyOfApply(g, true, s, len.operand);
    }
  }

  lemma {:induction false} KeyOfApplyTys(g: Program, full: bool, s: Subst, ts: seq<Ty>)
    requires Settling(g)
    ensures KeyTys(g, NO_ENV, NO_ENV, ApplyTys(g, full, s, ts))
         == KeyTys(g, Keys(g, s), if full then Keys(g, s) else NO_ENV, ts)
    decreases ts, 0
  {
    forall i | 0 <= i < |ts| {
      KeyOfApply(g, full, s, ts[i]);
    }
  }

  lemma {:induction false} KeyOfApplyConsts(g: Program, full: bool, s: Subst, cs: seq<ConstArg>)
    requires Settling(g)
    ensures KeyConsts(g, NO_ENV, NO_ENV, ApplyConsts(g, full, s, cs))
         == KeyConsts(g, Keys(g, s), if full then Keys(g, s) else NO_ENV, cs)
    decreases cs, 0
  {
    forall i | 0 <= i < |cs| {
      KeyOfApplyConst(g, full, s, cs[i]);
    }
  }

  lemma {:induction false} KeyOfApplyConst(g: Program, full: bool, s: Subst, c: ConstArg)
    requires Settling(g)
    ensures KeyConst(g, NO_ENV, NO_ENV, ApplyConst(g, full, s, c))
         == KeyConst(g, Keys(g, s), if full then Keys(g, s) else NO_ENV, c)
    decreases c, 0
  {
    KeyOfApply(g, full, s, c.ty);
  }

  lemma {:induction false} KeyOfApplyBindings(g: Program, full: bool, s: Subst, bs: seq<Binding>)
    requires Settling(g)
    ensures KeyBindings(g, NO_ENV, NO_ENV, ApplyBindings(g, full, s, bs))
         == KeyBindings(g, Keys(g, s), if full then Keys(g, s) else NO_ENV, bs)
    decreases bs, 0
  {
    forall i | 0 <= i < |bs| {
      KeyOfApplyBinding(g, full, s, bs[i]);
    }
  }

  lemma {:induction false} KeyOfApplyBinding(g: Program, full: bool, s: Subst, b: Binding)
    requires Settling(g)
    ensures KeyBinding(g, NO_ENV, NO_ENV, ApplyBinding(g, full, s, b))
         == KeyBinding(g, Keys(g, s), if full then Keys(g, s) else NO_ENV, b)
    decreases b, 0
  {
    KeyOfApplyTys(g, full, s, b.args);
    KeyOfApplyConsts(g, full, s, b.consts);
    KeyOfApply(g, full, s, b.ty);
  }

  lemma {:induction false} KeyOfSettle(g: Program, t: Ty)
    requires Settling(g)
    ensures Key(g, Settle(g, t)) == Key(g, t)
  {
    KeyOfApply(g, false, map[], t);
    assert Keys(g, map[]) == NO_ENV;
  }

  // ---- Semantic type equality is equality of keys.

  lemma {:induction false} TypesMatchIffKey(g: Program, a: Ty, b: Ty)
    requires Settling(g)
    ensures TypesMatch(g, a, b) <==> Key(g, a) == Key(g, b)
  {
    SameTyIffCanon(Backtracking, g.lens, Apply(g, true, map[], a), Apply(g, true, map[], b));
    CanonOfSettled(g, a);
    CanonOfSettled(g, b);
  }

  lemma {:induction false} CanonOfSettled(g: Program, t: Ty)
    requires Settling(g)
    ensures Canon(g.lens, Apply(g, true, map[], t)) == Key(g, t)
    decreases t, 0
  {
    match t
    case Pointer(_, elem) => CanonOfSettled(g, elem);
    case Array(len, elem) =>
      CanonOfSettled(g, elem);
      CanonOfSettledLen(g, len);
    case Form(_, args, consts, bindings) =>
      CanonOfSettledTys(g, args);
      CanonOfSettledConsts(g, consts);
      CanonOfSettledBindings(g, bindings);
    case Projection(self, _, args, consts, _) =>
      CanonOfSettled(g, self);
      CanonOfSettledTys(g, args);
      CanonOfSettledConsts(g, consts);
      assert Keys(g, map[]) == NO_ENV;
      KeyOfApply(g, true, map[], self);
      KeyOfApplyTys(g, true, map[], args);
      KeyOfApplyConsts(g, true, map[], consts);
    case _ =>
  }

  lemma {:induction false} CanonOfSettledLen(g: Program, len: Len)
    requires Settling(g)
    ensures CanonLen(g.lens, ApplyLen(g, map[], len)) == KeyLen(g, NO_ENV, NO_ENV, len)
    decreases len, 0
  {
    if len.LenBuiltin? {
      CanonOfSettled(g, len.operand);
    }
  }

  lemma {:induction false} CanonOfSettledTys(g: Program, ts: seq<Ty>)
    requires Settling(g)
    ensures CanonTys(g.lens, ApplyTys(g, true, map[], ts)) == KeyTys(g, NO_ENV, NO_ENV, ts)
    decreases ts, 0
  {
    forall i | 0 <= i < |ts| {
      CanonOfSettled(g, ts[i]);
    }
  }

  lemma {:induction false} CanonOfSettledConst(g: Program, c: ConstArg)
    requires Settling(g)
    ensures CanonConst(g.lens, ApplyConst(g, true, map[], c)) == KeyConst(g, NO_ENV, NO_ENV, c)
    decreases c, 0
  {
    CanonOfSettled(g, c.ty);
  }

  lemma {:induction false} CanonOfSettledConsts(g: Program, cs: seq<ConstArg>)
    requires Settling(g)
    ensures CanonConsts(g.lens, ApplyConsts(g, true, map[], cs)) == KeyConsts(g, NO_ENV, NO_ENV, cs)
    decreases cs, 0
  {
    forall i | 0 <= i < |cs| {
      CanonOfSettledConst(g, cs[i]);
    }
  }

  lemma {:induction false} CanonOfSettledBinding(g: Program, b: Binding)
    requires Settling(g)
    ensures CanonBinding(g.lens, ApplyBinding(g, true, map[], b)) == KeyBinding(g, NO_ENV, NO_ENV, b)
    decreases b, 0
  {
    CanonOfSettledTys(g, b.args);
    CanonOfSettledConsts(g, b.consts);
    CanonOfSettled(g, b.ty);
  }

  lemma {:induction false} CanonOfSettledBindings(g: Program, bs: seq<Binding>)
    requires Settling(g)
    ensures CanonBindings(g.lens, ApplyBindings(g, true, map[], bs)) == KeyBindings(g, NO_ENV, NO_ENV, bs)
    decreases bs, 0
  {
    forall i | 0 <= i < |bs| {
      CanonOfSettledBinding(g, bs[i]);
    }
  }

  // ---- A key depends only on the environment of the generics that occur.

  ghost predicate AgreeOn(names: set<Sym>, e: Env, f: Env) {
    && e.self == f.self && e.lens == f.lens && e.consts == f.consts
    && forall n | n in names :: (n in e.types <==> n in f.types) && (n in e.types ==> e.types[n] == f.types[n])
  }

  lemma {:induction false} KeyDependsOnBound(g: Program, names: set<Sym>, e: Env, ei: Env, f: Env, fi: Env, t: Ty)
    requires AgreeOn(names, e, f) && AgreeOn(names, ei, fi)
    requires Bound(t, names)
    ensures KeyIn(g, e, ei, t) == KeyIn(g, f, fi, t)
    decreases t, 0
  {
    match t
    case Pointer(_, elem) => KeyDependsOnBound(g, names, e, ei, f, fi, elem);
    case Array(len, elem) =>
      KeyDependsOnBound(g, names, e, ei, f, fi, elem);
      if len.LenBuiltin? {
        KeyDependsOnBound(g, names, ei, ei, fi, fi, len.operand);
      }
    case Form(_, args, consts, bindings) =>
      KeyDependsOnBoundTys(g, names, e, ei, f, fi, args);
      KeyDependsOnBoundConsts(g, names, e, ei, f, fi, consts);
      KeyDependsOnBoundBindings(g, names, e, ei, f, fi, bindings);
    case Projection(self, _, args, consts, _) =>
      KeyDependsOnBound(g, names, e, ei, f, fi, self);
      KeyDependsOnBoundTys(g, names, e, ei, f, fi, args);
      KeyDependsOnBoundConsts(g, names, e, ei, f, fi, consts);
    case _ =>
  }

  lemma {:induction false} KeyDependsOnBoundTys(
    g: Program, names: set<Sym>, e: Env, ei: Env, f: Env, fi: Env, ts: seq<Ty>)
    requires AgreeOn(names, e, f) && AgreeOn(names, ei, fi)
    requires GenericsTys(ts) <= names
    ensures KeyTys(g, e, ei, ts) == KeyTys(g, f, fi, ts)
    decreases ts, 0
  {
    forall i | 0 <= i < |ts| {
      KeyDependsOnBound(g, names, e, ei, f, fi, ts[i]);
    }
  }

  lemma {:induction false} KeyDependsOnBoundConst(
    g: Program, names: set<Sym>, e: Env, ei: Env, f: Env, fi: Env, c: ConstArg)
    requires AgreeOn(names, e, f) && AgreeOn(names, ei, fi)
    requires GenericsConst(c) <= names
    ensures KeyConst(g, e, ei, c) == KeyConst(g, f, fi, c)
    decreases c, 0
  {
    KeyDependsOnBound(g, names, e, ei, f, fi, c.ty);
  }

  lemma {:induction false} KeyDependsOnBoundConsts(
    g: Program, names: set<Sym>, e: Env, ei: Env, f: Env, fi: Env, cs: seq<ConstArg>)
    requires AgreeOn(names, e, f) && AgreeOn(names, ei, fi)
    requires GenericsConsts(cs) <= names
    ensures KeyConsts(g, e, ei, cs) == KeyConsts(g, f, fi, cs)
    decreases cs, 0
  {
    forall i | 0 <= i < |cs| {
      KeyDependsOnBoundConst(g, names, e, ei, f, fi, cs[i]);
    }
  }

  lemma {:induction false} KeyDependsOnBoundBinding(
    g: Program, names: set<Sym>, e: Env, ei: Env, f: Env, fi: Env, b: Binding)
    requires AgreeOn(names, e, f) && AgreeOn(names, ei, fi)
    requires GenericsBinding(b) <= names
    ensures KeyBinding(g, e, ei, b) == KeyBinding(g, f, fi, b)
    decreases b, 0
  {
    KeyDependsOnBoundTys(g, names, e, ei, f, fi, b.args);
    KeyDependsOnBoundConsts(g, names, e, ei, f, fi, b.consts);
    KeyDependsOnBound(g, names, e, ei, f, fi, b.ty);
  }

  lemma {:induction false} KeyDependsOnBoundBindings(
    g: Program, names: set<Sym>, e: Env, ei: Env, f: Env, fi: Env, bs: seq<Binding>)
    requires AgreeOn(names, e, f) && AgreeOn(names, ei, fi)
    requires GenericsBindings(bs) <= names
    ensures KeyBindings(g, e, ei, bs) == KeyBindings(g, f, fi, bs)
    decreases bs, 0
  {
    forall i | 0 <= i < |bs| {
      KeyDependsOnBoundBinding(g, names, e, ei, f, fi, bs[i]);
    }
  }

  // ---- Generics that survive into a key.

  ghost predicate Open(k: CTy)
    decreases k, 0
  {
    match k
    case CAtom(_) => false
    case CGeneric(_) => true
    case CSelf => true
    case CPointer(_, elem) => Open(elem)
    case CArray(len, elem) => Open(elem) || (len.CLenBuiltin? && Open(len.operand))
    case CForm(_, args, consts, bindings) =>
      OpenTys(args) || OpenConsts(consts) || exists b | b in bindings :: OpenBinding(b)
    case CProjection(self, _, args, consts, _) => Open(self) || OpenTys(args) || OpenConsts(consts)
  }

  ghost predicate OpenTys(ks: seq<CTy>)
    decreases ks, 0
  {
    exists i | 0 <= i < |ks| :: Open(ks[i])
  }

  ghost predicate OpenConst(c: CConst)
    decreases c, 0
  {
    Open(c.ty)
  }

  ghost predicate OpenConsts(cs: seq<CConst>)
    decreases cs, 0
  {
    exists i | 0 <= i < |cs| :: OpenConst(cs[i])
  }

  ghost predicate OpenBinding(b: CBinding)
    decreases b, 0
  {
    OpenTys(b.args) || OpenConsts(b.consts) || Open(b.ty)
  }

  lemma {:induction false} OpenForm(k: CTy)
    requires k.CForm?
    ensures Open(k) <==> OpenTys(k.args) || OpenConsts(k.consts) || exists b | b in k.bindings :: OpenBinding(b)
  {
  }

  lemma {:induction false} KeyOfStuckProjection(g: Program, t: Ty)
    requires Stuck(g, t) && t.Projection?
    ensures Key(g, t) == Question(g, t)
  {
    KeyOfStuck(g, t.self);
    KeyOfStuckTys(g, t.args);
    KeyOfStuckConsts(g, t.consts);
  }

  lemma {:induction false} OpenIffGeneric(g: Program, t: Ty)
    requires Stuck(g, t)
    ensures Open(Key(g, t)) <==> HasGeneric(t)
    decreases t, 0
  {
    match t
    case Pointer(_, elem) => OpenIffGeneric(g, elem);
    case Array(len, elem) =>
      OpenIffGeneric(g, elem);
      assert KeyLen(g, NO_ENV, NO_ENV, len).CLenBuiltin? <==> len.LenBuiltin?;
      if len.LenBuiltin? {
        OpenIffGeneric(g, len.operand);
      }
    case Form(_, args, consts, bindings) =>
      OpenIffGenericTys(g, args);
      OpenIffGenericConsts(g, consts);
      OpenIffGenericBindings(g, bindings);
      OpenForm(Key(g, t));
    case Projection(self, _, args, consts, _) =>
      OpenIffGeneric(g, self);
      OpenIffGenericTys(g, args);
      OpenIffGenericConsts(g, consts);
      KeyOfStuckProjection(g, t);
    case _ =>
  }

  lemma {:induction false} OpenIffGenericTys(g: Program, ts: seq<Ty>)
    requires StuckTys(g, ts)
    ensures OpenTys(KeyTys(g, NO_ENV, NO_ENV, ts)) <==> AnyGeneric(ts)
    decreases ts, 0
  {
    var k := KeyTys(g, NO_ENV, NO_ENV, ts);
    forall i | 0 <= i < |ts| ensures Open(k[i]) <==> HasGeneric(ts[i]) {
      OpenIffGeneric(g, ts[i]);
    }
  }

  lemma {:induction false} OpenIffGenericConst(g: Program, c: ConstArg)
    requires StuckConst(g, c)
    ensures OpenConst(KeyConst(g, NO_ENV, NO_ENV, c)) <==> ConstGeneric(c)
    decreases c, 0
  {
    OpenIffGeneric(g, c.ty);
  }

  lemma {:induction false} OpenIffGenericConsts(g: Program, cs: seq<ConstArg>)
    requires StuckConsts(g, cs)
    ensures OpenConsts(KeyConsts(g, NO_ENV, NO_ENV, cs)) <==> AnyConst(cs)
    decreases cs, 0
  {
    var k := KeyConsts(g, NO_ENV, NO_ENV, cs);
    forall i | 0 <= i < |cs| ensures OpenConst(k[i]) <==> ConstGeneric(cs[i]) {
      OpenIffGenericConst(g, cs[i]);
    }
  }

  lemma {:induction false} OpenIffGenericBinding(g: Program, b: Binding)
    requires StuckBinding(g, b)
    ensures OpenBinding(KeyBinding(g, NO_ENV, NO_ENV, b)) <==> BindingGeneric(b)
    decreases b, 0
  {
    OpenIffGenericTys(g, b.args);
    OpenIffGenericConsts(g, b.consts);
    OpenIffGeneric(g, b.ty);
  }

  lemma {:induction false} OpenIffGenericBindings(g: Program, bs: seq<Binding>)
    requires StuckBindings(g, bs)
    ensures (exists b | b in multiset(KeyBindings(g, NO_ENV, NO_ENV, bs)) :: OpenBinding(b)) <==> AnyBinding(bs)
    decreases bs, 0
  {
    var k := KeyBindings(g, NO_ENV, NO_ENV, bs);
    forall i | 0 <= i < |bs| ensures OpenBinding(k[i]) <==> BindingGeneric(bs[i]) {
      OpenIffGenericBinding(g, bs[i]);
    }
    assert forall i | 0 <= i < |bs| :: k[i] in multiset(k);
    assert forall b | b in multiset(k) :: b in k;
  }

  // ---- A type without generics has a key without generics.

  lemma {:induction false} ClosedKey(g: Program, t: Ty)
    requires Settling(g) && Concrete(g) && !HasGeneric(t)
    ensures !Open(Key(g, t))
    decreases t, 0
  {
    match t
    case Pointer(_, elem) => ClosedKey(g, elem);
    case Array(len, elem) =>
      ClosedKey(g, elem);
      assert KeyLen(g, NO_ENV, NO_ENV, len).CLenBuiltin? <==> len.LenBuiltin?;
      if len.LenBuiltin? {
        ClosedKey(g, len.operand);
      }
    case Form(_, args, consts, bindings) =>
      ClosedKeys(g, args);
      ClosedConstKeys(g, consts);
      ClosedBindingKeys(g, bindings);
      OpenForm(Key(g, t));
    case Projection(self, _, args, consts, _) =>
      ClosedKey(g, self);
      ClosedKeys(g, args);
      ClosedConstKeys(g, consts);
      ClosedAnswer(g, Question(g, t));
    case _ =>
  }

  lemma {:induction false} ClosedAnswer(g: Program, k: CTy)
    requires Settling(g) && Concrete(g) && !Open(k)
    ensures !Open(CProjectionTo(g, k))
  {
    if g.solve(k).Some? {
      KeyOfStuck(g, g.solve(k).value);
      OpenIffGeneric(g, g.solve(k).value);
    }
  }

  lemma {:induction false} ClosedKeys(g: Program, ts: seq<Ty>)
    requires Settling(g) && Concrete(g) && !AnyGeneric(ts)
    ensures !OpenTys(KeyTys(g, NO_ENV, NO_ENV, ts))
    decreases ts, 0
  {
    forall i | 0 <= i < |ts| ensures !Open(KeyTys(g, NO_ENV, NO_ENV, ts)[i]) {
      ClosedKey(g, ts[i]);
    }
  }

  lemma {:induction false} ClosedConstKey(g: Program, c: ConstArg)
    requires Settling(g) && Concrete(g) && !ConstGeneric(c)
    ensures !OpenConst(KeyConst(g, NO_ENV, NO_ENV, c))
    decreases c, 0
  {
    ClosedKey(g, c.ty);
  }

  lemma {:induction false} ClosedConstKeys(g: Program, cs: seq<ConstArg>)
    requires Settling(g) && Concrete(g) && !AnyConst(cs)
    ensures !OpenConsts(KeyConsts(g, NO_ENV, NO_ENV, cs))
    decreases cs, 0
  {
    forall i | 0 <= i < |cs| ensures !OpenConst(KeyConsts(g, NO_ENV, NO_ENV, cs)[i]) {
      ClosedConstKey(g, cs[i]);
    }
  }

  lemma {:induction false} ClosedBindingKey(g: Program, b: Binding)
    requires Settling(g) && Concrete(g) && !BindingGeneric(b)
    ensures !OpenBinding(KeyBinding(g, NO_ENV, NO_ENV, b))
    decreases b, 0
  {
    ClosedKeys(g, b.args);
    ClosedConstKeys(g, b.consts);
    ClosedKey(g, b.ty);
  }

  lemma {:induction false} ClosedBindingKeys(g: Program, bs: seq<Binding>)
    requires Settling(g) && Concrete(g) && !AnyBinding(bs)
    ensures forall b | b in multiset(KeyBindings(g, NO_ENV, NO_ENV, bs)) :: !OpenBinding(b)
    decreases bs, 0
  {
    var k := KeyBindings(g, NO_ENV, NO_ENV, bs);
    forall i | 0 <= i < |bs| ensures !OpenBinding(k[i]) {
      ClosedBindingKey(g, bs[i]);
    }
    assert forall b | b in multiset(k) :: b in k;
  }

  /** Whatever holds no generic is bound by every substitution. */
  lemma {:induction false} GenericFreeIsBound(t: Ty, names: set<Sym>)
    requires !HasGeneric(t)
    ensures Bound(t, names)
    decreases t, 0
  {
    match t
    case Pointer(_, elem) => GenericFreeIsBound(elem, names);
    case Array(len, elem) =>
      GenericFreeIsBound(elem, names);
      if len.LenBuiltin? {
        GenericFreeIsBound(len.operand, names);
      }
    case Form(_, args, consts, bindings) =>
      GenericFreeTysAreBound(args, names);
      GenericFreeConstsAreBound(consts, names);
      forall i | 0 <= i < |bindings| ensures GenericsBinding(bindings[i]) <= names {
        GenericFreeBindingIsBound(bindings[i], names);
      }
    case Projection(self, _, args, consts, _) =>
      GenericFreeIsBound(self, names);
      GenericFreeTysAreBound(args, names);
      GenericFreeConstsAreBound(consts, names);
    case _ =>
  }

  lemma {:induction false} GenericFreeTysAreBound(ts: seq<Ty>, names: set<Sym>)
    requires !AnyGeneric(ts)
    ensures GenericsTys(ts) <= names
    decreases ts, 0
  {
    forall i | 0 <= i < |ts| ensures Bound(ts[i], names) {
      GenericFreeIsBound(ts[i], names);
    }
  }

  lemma {:induction false} GenericFreeConstIsBound(c: ConstArg, names: set<Sym>)
    requires !ConstGeneric(c)
    ensures GenericsConst(c) <= names
    decreases c, 0
  {
    GenericFreeIsBound(c.ty, names);
  }

  lemma {:induction false} GenericFreeConstsAreBound(cs: seq<ConstArg>, names: set<Sym>)
    requires !AnyConst(cs)
    ensures GenericsConsts(cs) <= names
    decreases cs, 0
  {
    forall i | 0 <= i < |cs| ensures GenericsConst(cs[i]) <= names {
      GenericFreeConstIsBound(cs[i], names);
    }
  }

  lemma {:induction false} GenericFreeBindingIsBound(b: Binding, names: set<Sym>)
    requires !BindingGeneric(b)
    ensures GenericsBinding(b) <= names
    decreases b, 0
  {
    GenericFreeTysAreBound(b.args, names);
    GenericFreeConstsAreBound(b.consts, names);
    GenericFreeIsBound(b.ty, names);
  }

  /** An environment of type parameters only. */
  predicate OfTypes(e: Env) {
    e == Env(e.types, None, map[], map[])
  }

  lemma {:induction false} KeyOfGenericFree(g: Program, e: Env, ei: Env, t: Ty)
    requires !HasGeneric(t) && OfTypes(e) && OfTypes(ei)
    ensures KeyIn(g, e, ei, t) == Key(g, t)
  {
    GenericFreeIsBound(t, {});
    KeyDependsOnBound(g, {}, e, ei, NO_ENV, NO_ENV, t);
  }

  // ---- Types without parameters of any kind.

  /** No type parameter, `Self`, length parameter or const parameter. */
  predicate ParamFree(t: Ty)
    decreases t, 0
  {
    match t
    case Atom(_) => true
    case Generic(_) => false
    case SelfParam => false
    case Pointer(_, elem) => ParamFree(elem)
    case Array(len, elem) => ParamFreeLen(len) && ParamFree(elem)
    case Form(_, args, consts, bindings) => ParamFreeTys(args) && ParamFreeConsts(consts) && ParamFreeBindings(bindings)
    case Projection(self, _, args, consts, _) => ParamFree(self) && ParamFreeTys(args) && ParamFreeConsts(consts)
  }

  predicate ParamFreeLen(len: Len)
    decreases len, 0
  {
    !len.LenParam? && (len.LenBuiltin? ==> ParamFree(len.operand))
  }

  predicate ParamFreeTys(ts: seq<Ty>)
    decreases ts, 0
  {
    forall i | 0 <= i < |ts| :: ParamFree(ts[i])
  }

  predicate ParamFreeConst(c: ConstArg)
    decreases c, 0
  {
    ParamFree(c.ty) && !c.value.CParam?
  }

  predicate ParamFreeConsts(cs: seq<ConstArg>)
    decreases cs, 0
  {
    forall i | 0 <= i < |cs| :: ParamFreeConst(cs[i])
  }

  predicate ParamFreeBinding(b: Binding)
    decreases b, 0
  {
    ParamFreeTys(b.args) && ParamFreeConsts(b.consts) && ParamFree(b.ty)
  }

  predicate ParamFreeBindings(bs: seq<Binding>)
    decreases bs, 0
  {
    forall i | 0 <= i < |bs| :: ParamFreeBinding(bs[i])
  }

  /** Its key is the same in every environment. */
  lemma {:induction false} KeyOfParamFree(g: Program, e: Env, ei: Env, t: Ty)
    requires ParamFree(t)
    ensures KeyIn(g, e, ei, t) == Key(g, t)
    decreases t, 0
  {
    match t
    case Pointer(_, elem) => KeyOfParamFree(g, e, ei, elem);
    case Array(len, elem) =>
      KeyOfParamFree(g, e, ei, elem);
      KeyOfParamFreeLen(g, e, ei, len);
    case Form(_, args, consts, bindings) =>
      KeyOfParamFreeTys(g, e, ei, args);
      KeyOfParamFreeConsts(g, e, ei, consts);
      KeyOfParamFreeBindings(g, e, ei, bindings);
    case Projection(self, _, args, consts, _) =>
      KeyOfParamFree(g, e, ei, self);
      KeyOfParamFreeTys(g, e, ei, args);
      KeyOfParamFreeConsts(g, e, ei, consts);
    case _ =>
  }

  lemma {:induction false} KeyOfParamFreeLen(g: Program, e: Env, ei: Env, len: Len)
    requires ParamFreeLen(len)
    ensures KeyLen(g, e, ei, len) == KeyLen(g, NO_ENV, NO_ENV, len)
    decreases len, 0
  {
    if len.LenBuiltin? {
      KeyOfParamFree(g, ei, ei, len.operand);
    }
  }

  lemma {:induction false} KeyOfParamFreeTys(g: Program, e: Env, ei: Env, ts: seq<Ty>)
    requires ParamFreeTys(ts)
    ensures KeyTys(g, e, ei, ts) == KeyTys(g, NO_ENV, NO_ENV, ts)
    decreases ts, 0
  {
    forall i | 0 <= i < |ts| {
      KeyOfParamFree(g, e, ei, ts[i]);
    }
  }

  lemma {:induction false} KeyOfParamFreeConst(g: Program, e: Env, ei: Env, c: ConstArg)
    requires ParamFreeConst(c)
    ensures KeyConst(g, e, ei, c) == KeyConst(g, NO_ENV, NO_ENV, c)
    decreases c, 0
  {
    KeyOfParamFree(g, e, ei, c.ty);
  }

  lemma {:induction false} KeyOfParamFreeConsts(g: Program, e: Env, ei: Env, cs: seq<ConstArg>)
    requires ParamFreeConsts(cs)
    ensures KeyConsts(g, e, ei, cs) == KeyConsts(g, NO_ENV, NO_ENV, cs)
    decreases cs, 0
  {
    forall i | 0 <= i < |cs| {
      KeyOfParamFreeConst(g, e, ei, cs[i]);
    }
  }

  lemma {:induction false} KeyOfParamFreeBinding(g: Program, e: Env, ei: Env, b: Binding)
    requires ParamFreeBinding(b)
    ensures KeyBinding(g, e, ei, b) == KeyBinding(g, NO_ENV, NO_ENV, b)
    decreases b, 0
  {
    KeyOfParamFreeTys(g, e, ei, b.args);
    KeyOfParamFreeConsts(g, e, ei, b.consts);
    KeyOfParamFree(g, e, ei, b.ty);
  }

  lemma {:induction false} KeyOfParamFreeBindings(g: Program, e: Env, ei: Env, bs: seq<Binding>)
    requires ParamFreeBindings(bs)
    ensures KeyBindings(g, e, ei, bs) == KeyBindings(g, NO_ENV, NO_ENV, bs)
    decreases bs, 0
  {
    forall i | 0 <= i < |bs| {
      KeyOfParamFreeBinding(g, e, ei, bs[i]);
    }
  }
}
