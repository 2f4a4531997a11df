/** Instantiation with its projection stack keeps the meaning of types: in every interpretation of projections that the
    solver's answers are true of, its result is what substitution gives. */
module Resolution {
  import opened Options
  import opened Scopes
  import opened Types
  import opened Substitution
  import opened Instantiation
  import Fillings
  import Matching

  function AsType(k: ProjKey): Ty {
    Projection(k.self, k.owner, k.args, k.consts, k.name)
  }

  /** `g` interprets projections: every answer of the solver means what the projection means, under whatever
      assumptions it was given, and normalization changes no meaning. The answers may need further instantiation. */
  ghost predicate Interprets(g: Program, w: World, c: Ctx) {
    && w.lens == g.lens
    && w.aliases == map[]
    && (forall e: Env, t :: KeyIn(g, e, NO_ENV, w.normalize(t)) == KeyIn(g, e, NO_ENV, t))
    && (forall k, tys, consts | w.resolve(c, k, tys, consts).Some? ::
          Key(g, w.resolve(c, k, tys, consts).value) == Key(g, AsType(k)))
  }

  /** The integer with these bits: two's complement of 128 bits when signed. */
  function IntegerOf(bits: Bits, signed: bool): int {
    if signed && bits >= 0x8000_0000_0000_0000_0000_0000_0000_0000
    then bits - 0x1_0000_0000_0000_0000_0000_0000_0000_0000
    else bits
  }

  /** What the length parameter `name` stands for when it is bound to a const argument: an integer from 0 to 2^64 - 1,
      the parameter or const expression of the argument, or itself when the argument is no length. */
  function LengthOf(g: Program, name: Sym, arg: ConstArg): CLen {
    match arg.value
    case CInt(bits, signed) =>
      var n := IntegerOf(bits, signed);
      if 0 <= n < 0x1_0000_0000_0000_0000 then CLenValue(n) else CLenParam(name)
    case CParam(other) => CLenParam(other)
    case CExpr(id) => if id in g.lens then CLenValue(g.lens[id]) else CLenExpr(id)
    case _ => CLenParam(name)
  }

  /** `e` says what the parameters of the scope stand for. A const argument is read in the scope itself, so one
      parameter can stand for what another one stands for. */
  ghost predicate Denotes(g: Program, s: Scope, e: Env) {
    && e.types.Keys == s.types.Keys
    && (forall n | n in s.types :: e.types[n] == Key(g, s.types[n]))
    && e.self == (if s.self.Some? then Some(Key(g, s.self.value)) else None)
    && e.lens.Keys == e.consts.Keys == s.consts.Keys
    && (forall n {:trigger ConstDenotes(g, s, e, n)} | n in s.consts :: ConstDenotes(g, s, e, n))
  }

  ghost predicate ConstDenotes(g: Program, s: Scope, e: Env, n: Sym) {
    && n in s.consts && n in e.lens && n in e.consts
    && e.lens[n] == LengthOf(g, n, s.consts[n])
    && e.consts[n] == KeyConst(g, e, NO_ENV, s.consts[n])
  }

  ghost function MeaningOf(g: Program, e: Env, t: Ty): CTy {
    KeyIn(g, e, NO_ENV, t)
  }

  /** Substitution leaves the meaning of `t` alone. */
  ghost predicate Fixed(g: Program, e: Env, t: Ty) {
    MeaningOf(g, e, t) == Key(g, t)
  }

  /** The types of the scope are fixed, a length parameter that stands for another one does not stand for yet another,
      and every answer about a fixed projection is fixed. */
  ghost predicate FixedScope(g: Program, w: World, c: Ctx, s: Scope, e: Env) {
    && (forall n | n in s.types :: Fixed(g, e, s.types[n]))
    && (s.self.Some? ==> Fixed(g, e, s.self.value))
    && (forall n | n in e.lens && e.lens[n].CLenParam? && e.lens[n].name in e.lens ::
          e.lens[e.lens[n].name] == e.lens[n])
    && (forall k, tys, consts | w.resolve(c, k, tys, consts).Some? && Fixed(g, e, AsType(k)) ::
          Fixed(g, e, w.resolve(c, k, tys, consts).value))
  }

  /** Every answer is fixed, whatever the types of the scope are. */
  ghost predicate FixedAnswers(g: Program, w: World, c: Ctx, e: Env) {
    forall k, tys, consts | w.resolve(c, k, tys, consts).Some? :: Fixed(g, e, w.resolve(c, k, tys, consts).value)
  }

  /** Instantiating an answer in the scope once more changes nothing. */
  ghost predicate Apart(g: Program, w: World, c: Ctx, s: Scope, e: Env) {
    Denotes(g, s, e) && (FixedScope(g, w, c, s, e) || FixedAnswers(g, w, c, e))
  }

  // ---------------------------------------------------------------------------------------------------------------
  // Types with one canonical form have one key.

  lemma {:induction false} KeyOfSame(g: Program, a: Ty, b: Ty)
    requires Canon(g.lens, a) == Canon(g.lens, b)
    ensures Key(g, a) == Key(g, b)
    decreases a, 0
  {
    match (a, b)
    case (Pointer(_, ea), Pointer(_, eb)) => KeyOfSame(g, ea, eb);
    case (Array(la, ea), Array(lb, eb)) =>
      KeyOfSame(g, ea, eb);
      KeyOfSameLen(g, la, lb);
    case (Form(_, aa, ca, ba), Form(_, ab, cb, bb)) =>
      KeyOfSameTys(g, aa, ab);
      KeyOfSameConsts(g, ca, cb);
      KeyOfSameBindings(g, ba, bb);
    case (Projection(sa, _, aa, ca, _), Projection(sb, _, ab, cb, _)) =>
      KeyOfSame(g, sa, sb);
      KeyOfSameTys(g, aa, ab);
      KeyOfSameConsts(g, ca, cb);
    case _ =>
  }

  lemma {:induction false} KeyOfSameLen(g: Program, a: Len, b: Len)
    requires CanonLen(g.lens, a) == CanonLen(g.lens, b)
    ensures KeyLen(g, NO_ENV, NO_ENV, a) == KeyLen(g, NO_ENV, NO_ENV, b)
    decreases a, 0
  {
    if a.LenBuiltin? && b.LenBuiltin? {
      KeyOfSame(g, a.operand, b.operand);
    }
  }

  lemma {:induction false} KeyOfSameTys(g: Program, a: seq<Ty>, b: seq<Ty>)
    requires CanonTys(g.lens, a) == CanonTys(g.lens, b)
    ensures KeyTys(g, NO_ENV, NO_ENV, a) == KeyTys(g, NO_ENV, NO_ENV, b)
    decreases a, 0
  {
    var k, l := CanonTys(g.lens, a), CanonTys(g.lens, b);
    assert |a| == |k| == |l| == |b|;
    forall i | 0 <= i < |a| ensures Key(g, a[i]) == Key(g, b[i]) {
      assert k[i] == l[i];
      KeyOfSame(g, a[i], b[i]);
    }
  }

  lemma {:induction false} KeyOfSameConst(g: Program, a: ConstArg, b: ConstArg)
    requires CanonConst(g.lens, a) == CanonConst(g.lens, b)
    ensures KeyConst(g, NO_ENV, NO_ENV, a) == KeyConst(g, NO_ENV, NO_ENV, b)
    decreases a, 0
  {
    KeyOfSame(g, a.ty, b.ty);
  }

  lemma {:induction false} KeyOfSameConsts(g: Program, a: seq<ConstArg>, b: seq<ConstArg>)
    requires CanonConsts(g.lens, a) == CanonConsts(g.lens, b)
    ensures KeyConsts(g, NO_ENV, NO_ENV, a) == KeyConsts(g, NO_ENV, NO_ENV, b)
    decreases a, 0
  {
    var k, l := CanonConsts(g.lens, a), CanonConsts(g.lens, b);
    assert |a| == |k| == |l| == |b|;
    forall i | 0 <= i < |a| ensures KeyConst(g, NO_ENV, NO_ENV, a[i]) == KeyConst(g, NO_ENV, NO_ENV, b[i]) {
      assert k[i] == l[i];
      KeyOfSameConst(g, a[i], b[i]);
    }
  }

  lemma {:induction false} KeyOfSameBinding(g: Program, a: Binding, b: Binding)
    requires CanonBinding(g.lens, a) == CanonBinding(g.lens, b)
    ensures KeyBinding(g, NO_ENV, NO_ENV, a) == KeyBinding(g, NO_ENV, NO_ENV, b)
    decreases a, 0
  {
    KeyOfSameTys(g, a.args, b.args);
    KeyOfSameConsts(g, a.consts, b.consts);
    KeyOfSame(g, a.ty, b.ty);
  }

  lemma {:induction false} KeyOfSameBindings(g: Program, a: seq<Binding>, b: seq<Binding>)
    requires multiset(CanonBindings(g.lens, a)) == multiset(CanonBindings(g.lens, b))
    ensures multiset(KeyBindings(g, NO_ENV, NO_ENV, a)) == multiset(KeyBindings(g, NO_ENV, NO_ENV, b))
    decreases a, 1
  {
    var ca, cb := CanonBindings(g.lens, a), CanonBindings(g.lens, b);
    assert |a| == |ca| == |multiset(ca)| == |multiset(cb)| == |cb| == |b|;
    if a != [] {
      assert ca[0] in multiset(ca);
      var j :| 0 <= j < |cb| && cb[j] == ca[0];
      var rest := b[..j] + b[j + 1..];
      assert CanonBindings(g.lens, a[1..]) == ca[1..] && CanonBindings(g.lens, rest) == cb[..j] + cb[j + 1..];
      WithoutPair(ca, cb, j);
      KeyOfSameBindings(g, a[1..], rest);
      KeyOfSameBinding(g, a[0], b[j]);
      RestoredBindings(g, a, b, j);
    }
  }

  lemma {:induction false} RestoredBindings(g: Program, a: seq<Binding>, b: seq<Binding>, j: nat)
    requires a != [] && j < |b| && KeyBinding(g, NO_ENV, NO_ENV, a[0]) == KeyBinding(g, NO_ENV, NO_ENV, b[j])
    requires multiset(KeyBindings(g, NO_ENV, NO_ENV, a[1..])) ==
      multiset(KeyBindings(g, NO_ENV, NO_ENV, b[..j] + b[j + 1..]))
    ensures multiset(KeyBindings(g, NO_ENV, NO_ENV, a)) == multiset(KeyBindings(g, NO_ENV, NO_ENV, b))
  {
    var ka, kb := KeyBindings(g, NO_ENV, NO_ENV, a), KeyBindings(g, NO_ENV, NO_ENV, b);
    assert KeyBindings(g, NO_ENV, NO_ENV, a[1..]) == ka[1..];
    assert KeyBindings(g, NO_ENV, NO_ENV, b[..j] + b[j + 1..]) == kb[..j] + kb[j + 1..];
    WithoutPair(ka, kb, j);
  }

  lemma {:induction false} WithoutPair<T>(a: seq<T>, b: seq<T>, j: nat)
    requires a != [] && j < |b| && a[0] == b[j]
    ensures multiset(a) == multiset(b) <==> multiset(a[1..]) == multiset(b[..j] + b[j + 1..])
  {
    assert a == [a[0]] + a[1..];
    assert b == b[..j] + ([b[j]] + b[j + 1..]);
    var p, q := multiset(a[1..]), multiset(b[..j] + b[j + 1..]);
    assert multiset(a) == p + multiset{a[0]} && multiset(b) == q + multiset{a[0]};
    assert (p + multiset{a[0]}) - multiset{a[0]} == p && (q + multiset{a[0]}) - multiset{a[0]} == q;
  }

  // ---- Keys of lists, head first.

  lemma {:induction false} HeadKey(g: Program, e: Env, t: Ty, ts: seq<Ty>)
    ensures KeyTys(g, e, NO_ENV, [t] + ts) == [KeyIn(g, e, NO_ENV, t)] + KeyTys(g, e, NO_ENV, ts)
  {
  }

  lemma {:induction false} HeadConstKey(g: Program, e: Env, c: ConstArg, cs: seq<ConstArg>)
    ensures KeyConsts(g, e, NO_ENV, [c] + cs) == [KeyConst(g, e, NO_ENV, c)] + KeyConsts(g, e, NO_ENV, cs)
  {
  }

  lemma {:induction false} HeadBindingKey(g: Program, e: Env, b: Binding, bs: seq<Binding>)
    ensures KeyBindings(g, e, NO_ENV, [b] + bs) == [KeyBinding(g, e, NO_ENV, b)] + KeyBindings(g, e, NO_ENV, bs)
  {
  }

  lemma {:induction false} KeyOfPointerTo(g: Program, e: Env, readonly: bool, u: Ty)
    ensures KeyIn(g, e, NO_ENV, PointerTo(readonly, u)) == CPointerTo(readonly, KeyIn(g, e, NO_ENV, u))
  {
  }

  // ---------------------------------------------------------------------------------------------------------------
  // An answer means what substitution gives, on every stack.

  /** The key instantiation forms of a projection. */
  ghost function FormedKey(w: World, c: Ctx, t: Ty, s: Scope, active: seq<ProjKey>, f: nat): ProjKey
    requires t.Projection? && Inst(w, c, t.self, s, active, f).Some?
    requires InstTys(w, c, t.args, s, active, f).Some? && InstConsts(w, c, t.consts, s, active, f).Some?
  {
    ProjKey(Inst(w, c, t.self, s, active, f).value, t.owner, InstTys(w, c, t.args, s, active, f).value,
            InstConsts(w, c, t.consts, s, active, f).value, t.name)
  }

  /** A run on `t` asks the solver about `key`, and the answer `a` gives its result. */
  ghost predicate Uses(
    w: World, c: Ctx, s: Scope, t: Ty, active: seq<ProjKey>, f: nat, key: ProjKey, a: Ty) {
    var p, pushed := w.normalize(t), active + [key];
    && p.Projection? && Inst(w, c, p.self, s, active, f).Some?
    && InstTys(w, c, p.args, s, active, f).Some? && InstConsts(w, c, p.consts, s, active, f).Some?
    && key == FormedKey(w, c, p, s, active, f)
    && AnyActive(w, c, active, key, f) == Some(false)
    && Answered(w, c, s, pushed, f, key, a)
    && Inst(w, c, a, s, pushed, f).Some?
  }

  ghost predicate Answered(w: World, c: Ctx, s: Scope, pushed: seq<ProjKey>, f: nat, key: ProjKey, a: Ty) {
    var tys, consts :=
      InstTys(w, c, w.assumptionTys(c), s, pushed, f), InstConsts(w, c, w.assumptionConsts(c), s, pushed, f);
    tys.Some? && consts.Some? && w.resolve(c, key, tys.value, consts.value) == Some(a)
  }

  /** Every answer that a run in the scope uses is fixed. */
  ghost predicate UsedFixed(g: Program, w: World, c: Ctx, s: Scope, e: Env) {
    forall t, active, f, key, a | Uses(w, c, s, t, active, f, key, a) :: Fixed(g, e, a)
  }

  ghost predicate Tame(g: Program, w: World, c: Ctx, s: Scope, e: Env) {
    Interprets(g, w, c) && Denotes(g, s, e) && (FixedScope(g, w, c, s, e) || UsedFixed(g, w, c, s, e))
  }

  /** `u` means what `t` means in the scope, and is fixed if the scope is. */
  ghost predicate Kept(g: Program, w: World, c: Ctx, s: Scope, e: Env, t: Ty, u: Ty) {
    Key(g, u) == MeaningOf(g, e, t) && (FixedScope(g, w, c, s, e) ==> Fixed(g, e, u))
  }

  ghost predicate KeptTys(g: Program, w: World, c: Ctx, s: Scope, e: Env, ts: seq<Ty>, us: seq<Ty>) {
    && KeyTys(g, NO_ENV, NO_ENV, us) == KeyTys(g, e, NO_ENV, ts)
    && (FixedScope(g, w, c, s, e) ==> KeyTys(g, e, NO_ENV, us) == KeyTys(g, NO_ENV, NO_ENV, us))
  }

  ghost predicate KeptConst(g: Program, w: World, c: Ctx, s: Scope, e: Env, x: ConstArg, u: ConstArg) {
    && KeyConst(g, NO_ENV, NO_ENV, u) == KeyConst(g, e, NO_ENV, x)
    && (FixedScope(g, w, c, s, e) ==> KeyConst(g, e, NO_ENV, u) == KeyConst(g, NO_ENV, NO_ENV, u))
  }

  ghost predicate KeptConsts(g: Program, w: World, c: Ctx, s: Scope, e: Env, cs: seq<ConstArg>, us: seq<ConstArg>) {
    && KeyConsts(g, NO_ENV, NO_ENV, us) == KeyConsts(g, e, NO_ENV, cs)
    && (FixedScope(g, w, c, s, e) ==> KeyConsts(g, e, NO_ENV, us) == KeyConsts(g, NO_ENV, NO_ENV, us))
  }

  ghost predicate KeptBinding(g: Program, w: World, c: Ctx, s: Scope, e: Env, b: Binding, u: Binding) {
    && KeyBinding(g, NO_ENV, NO_ENV, u) == KeyBinding(g, e, NO_ENV, b)
    && (FixedScope(g, w, c, s, e) ==> KeyBinding(g, e, NO_ENV, u) == KeyBinding(g, NO_ENV, NO_ENV, u))
  }

  ghost predicate KeptBindings(g: Program, w: World, c: Ctx, s: Scope, e: Env, bs: seq<Binding>, us: seq<Binding>) {
    && KeyBindings(g, NO_ENV, NO_ENV, us) == KeyBindings(g, e, NO_ENV, bs)
    && (FixedScope(g, w, c, s, e) ==> KeyBindings(g, e, NO_ENV, us) == KeyBindings(g, NO_ENV, NO_ENV, us))
  }

  lemma {:induction false} InstIsKept(
    w: World, c: Ctx, g: Program, t: Ty, s: Scope, e: Env, active: seq<ProjKey>, f: nat)
    requires Tame(g, w, c, s, e) && Inst(w, c, t, s, active, f).Some?
    ensures Kept(g, w, c, s, e, t, Inst(w, c, t, s, active, f).value)
    decreases f, 1
  {
    NodeIsKept(w, c, g, t, s, e, active, f);
    assert MeaningOf(g, e, w.normalize(t)) == MeaningOf(g, e, t);
  }

  lemma {:induction false} NodeIsKept(
    w: World, c: Ctx, g: Program, t: Ty, s: Scope, e: Env, active: seq<ProjKey>, f: nat)
    requires Tame(g, w, c, s, e) && f > 0 && Node(w, c, w.normalize(t), s, active, f).Some?
    ensures Kept(g, w, c, s, e, w.normalize(t), Node(w, c, w.normalize(t), s, active, f).value)
    decreases f, 0
  {
    var node := w.normalize(t);
    match node
    case Pointer(readonly, elem) =>
      InstIsKept(w, c, g, elem, s, e, active, f - 1);
      KeyOfPointerTo(g, NO_ENV, readonly, Inst(w, c, elem, s, active, f - 1).value);
      KeyOfPointerTo(g, e, readonly, Inst(w, c, elem, s, active, f - 1).value);
    case Array(len, elem) =>
      InstIsKept(w, c, g, elem, s, e, active, f - 1);
      LenIsKept(w, c, g, len, s, e);
    case Form(_, _, _, _) => FormIsKept(w, c, g, node, s, e, active, f - 1);
    case Projection(_, _, _, _, _) => ProjectionIsKept(w, c, g, t, s, e, active, f - 1);
    case _ =>
  }

  /** A length keeps its meaning: a parameter bound to an integer that fits becomes that integer. */
  lemma {:induction false} LenIsKept(w: World, c: Ctx, g: Program, len: Len, s: Scope, e: Env)
    requires Denotes(g, s, e)
    ensures KeyLen(g, NO_ENV, NO_ENV, InstLen(len, s)) == KeyLen(g, e, NO_ENV, len)
    ensures FixedScope(g, w, c, s, e) ==>
      KeyLen(g, e, NO_ENV, InstLen(len, s)) == KeyLen(g, NO_ENV, NO_ENV, InstLen(len, s))
  {
    if len.LenParam? && len.name in s.consts {
      assert ConstDenotes(g, s, e, len.name);
    }
  }

  lemma {:induction false} FormIsKept(
    w: World, c: Ctx, g: Program, t: Ty, s: Scope, e: Env, active: seq<ProjKey>, f: nat)
    requires Tame(g, w, c, s, e) && t.Form? && Node(w, c, t, s, active, f + 1).Some?
    ensures Kept(g, w, c, s, e, t, Node(w, c, t, s, active, f + 1).value)
    decreases f, 7
  {
    TysAreKept(w, c, g, t.args, s, e, active, f);
    ConstsAreKept(w, c, g, t.consts, s, e, active, f);
    BindingsAreKept(w, c, g, t.bindings, s, e, active, f);
  }

  lemma {:induction false} ProjectionIsKept(
    w: World, c: Ctx, g: Program, t: Ty, s: Scope, e: Env, active: seq<ProjKey>, f: nat)
    requires Tame(g, w, c, s, e) && w.normalize(t).Projection? && Node(w, c, w.normalize(t), s, active, f + 1).Some?
    ensures Kept(g, w, c, s, e, w.normalize(t), Node(w, c, w.normalize(t), s, active, f + 1).value)
    decreases f, 7
  {
    var p := w.normalize(t);
    InstIsKept(w, c, g, p.self, s, e, active, f);
    TysAreKept(w, c, g, p.args, s, e, active, f);
    ConstsAreKept(w, c, g, p.consts, s, e, active, f);
    var key := FormedKey(w, c, p, s, active, f);
    assert Kept(g, w, c, s, e, p, AsType(key));
    ResolvedIsKept(w, c, g, t, key, s, e, active, f);
  }

  /** What the solver answers is instantiated again; without an answer, or on a projection being resolved already, the
      projection or an equal original comes back. */
  lemma {:induction false} ResolvedIsKept(
    w: World, c: Ctx, g: Program, t: Ty, key: ProjKey, s: Scope, e: Env, active: seq<ProjKey>, f: nat)
    requires Tame(g, w, c, s, e) && w.normalize(t).Projection?
    requires var p := w.normalize(t);
      && Inst(w, c, p.self, s, active, f).Some?
      && InstTys(w, c, p.args, s, active, f).Some? && InstConsts(w, c, p.consts, s, active, f).Some?
      && key == FormedKey(w, c, p, s, active, f)
      && Kept(g, w, c, s, e, p, AsType(key))
      && InstProjection(w, c, p, key, s, active, f).Some?
    ensures Kept(g, w, c, s, e, w.normalize(t), InstProjection(w, c, w.normalize(t), key, s, active, f).value)
    decreases f, 6
  {
    var p := w.normalize(t);
    if !AnyActive(w, c, active, key, f).value {
      var pushed := active + [key];
      var tys := InstTys(w, c, w.assumptionTys(c), s, pushed, f).value;
      var consts := InstConsts(w, c, w.assumptionConsts(c), s, pushed, f).value;
      var answer := w.resolve(c, key, tys, consts);
      if answer.Some? {
        assert Uses(w, c, s, t, active, f, key, answer.value);
        InstIsKept(w, c, g, answer.value, s, e, pushed, f);
        assert Fixed(g, e, answer.value);
      } else {
        var original := ProjKey(p.self, p.owner, p.args, p.consts, p.name);
        if KeyMatch(w, c, key, original, f) == Some(true) {
          MatchingKeys(w, c, g, key, original, f);
        }
      }
    }
  }

  lemma {:induction false} MatchingKeys(w: World, c: Ctx, g: Program, a: ProjKey, b: ProjKey, f: nat)
    requires Interprets(g, w, c) && KeyMatch(w, c, a, b, f) == Some(true)
    ensures Key(g, AsType(a)) == Key(g, AsType(b))
    decreases f, 5
  {
    MatchingTys(w, c, g, [a.self], [b.self], f);
    MatchingTys(w, c, g, a.args, b.args, f);
    MatchingConsts(w, c, g, a.consts, b.consts, f);
    assert KeyTys(g, NO_ENV, NO_ENV, [a.self])[0] == KeyTys(g, NO_ENV, NO_ENV, [b.self])[0];
  }

  lemma {:induction false} MatchingTys(w: World, c: Ctx, g: Program, a: seq<Ty>, b: seq<Ty>, f: nat)
    requires Interprets(g, w, c) && |a| == |b| && TysMatch(w, c, a, b, f) == Some(true)
    ensures KeyTys(g, NO_ENV, NO_ENV, a) == KeyTys(g, NO_ENV, NO_ENV, b)
    decreases f, 3, |a|
  {
    if a != [] {
      MatchingTypes(w, c, g, a[0], b[0], f);
      MatchingTys(w, c, g, a[1..], b[1..], f);
      assert a == [a[0]] + a[1..] && b == [b[0]] + b[1..];
      HeadKey(g, NO_ENV, a[0], a[1..]);
      HeadKey(g, NO_ENV, b[0], b[1..]);
    }
  }

  /** Nothing is substituted in the empty scope. */
  lemma {:induction false} EmptyIsTame(w: World, c: Ctx, g: Program)
    requires Interprets(g, w, c)
    ensures Tame(g, w, c, EMPTY, NO_ENV)
  {
  }

  /** Types that compare equal mean the same. */
  lemma {:induction false} MatchingTypes(w: World, c: Ctx, g: Program, a: Ty, b: Ty, f: nat)
    requires Interprets(g, w, c) && Inst(w, c, a, EMPTY, [], f).Some? && Inst(w, c, b, EMPTY, [], f).Some?
    requires SameTy(Backtracking, w.lens, Inst(w, c, a, EMPTY, [], f).value, Inst(w, c, b, EMPTY, [], f).value)
    ensures Key(g, a) == Key(g, b)
    decreases f, 2
  {
    var x, y := Inst(w, c, a, EMPTY, [], f).value, Inst(w, c, b, EMPTY, [], f).value;
    EmptyIsTame(w, c, g);
    InstIsKept(w, c, g, a, EMPTY, NO_ENV, [], f);
    InstIsKept(w, c, g, b, EMPTY, NO_ENV, [], f);
    SameTyIffCanon(Backtracking, w.lens, x, y);
    KeyOfSame(g, x, y);
  }

  lemma {:induction false} MatchingConsts(w: World, c: Ctx, g: Program, a: seq<ConstArg>, b: seq<ConstArg>, f: nat)
    requires Interprets(g, w, c) && |a| == |b| && ConstsMatch(w, c, a, b, f) == Some(true)
    ensures KeyConsts(g, NO_ENV, NO_ENV, a) == KeyConsts(g, NO_ENV, NO_ENV, b)
    decreases f, 4, |a|
  {
    if a != [] {
      MatchingTys(w, c, g, [a[0].ty], [b[0].ty], f);
      assert KeyTys(g, NO_ENV, NO_ENV, [a[0].ty])[0] == KeyTys(g, NO_ENV, NO_ENV, [b[0].ty])[0];
      MatchingConsts(w, c, g, a[1..], b[1..], f);
      assert a == [a[0]] + a[1..] && b == [b[0]] + b[1..];
      HeadConstKey(g, NO_ENV, a[0], a[1..]);
      HeadConstKey(g, NO_ENV, b[0], b[1..]);
    }
  }

  lemma {:induction false} KeptHead(
    g: Program, w: World, c: Ctx, s: Scope, e: Env, t: Ty, ts: seq<Ty>, u: Ty, us: seq<Ty>)
    requires Kept(g, w, c, s, e, t, u) && KeptTys(g, w, c, s, e, ts, us)
    ensures KeptTys(g, w, c, s, e, [t] + ts, [u] + us)
  {
    HeadKey(g, e, t, ts);
    HeadKey(g, e, u, us);
    HeadKey(g, NO_ENV, u, us);
  }

  lemma {:induction false} TysAreKept(
    w: World, c: Ctx, g: Program, ts: seq<Ty>, s: Scope, e: Env, active: seq<ProjKey>, f: nat)
    requires Tame(g, w, c, s, e) && InstTys(w, c, ts, s, active, f).Some?
    ensures KeptTys(g, w, c, s, e, ts, InstTys(w, c, ts, s, active, f).value)
    decreases f, 2, |ts|
  {
    if ts != [] {
      InstIsKept(w, c, g, ts[0], s, e, active, f);
      TysAreKept(w, c, g, ts[1..], s, e, active, f);
      assert ts == [ts[0]] + ts[1..];
      KeptHead(g, w, c, s, e, ts[0], ts[1..], Inst(w, c, ts[0], s, active, f).value,
               InstTys(w, c, ts[1..], s, active, f).value);
    }
  }

  lemma {:induction false} KeptConstHead(
    g: Program, w: World, c: Ctx, s: Scope, e: Env, x: ConstArg, xs: seq<ConstArg>, u: ConstArg, us: seq<ConstArg>)
    requires KeptConst(g, w, c, s, e, x, u) && KeptConsts(g, w, c, s, e, xs, us)
    ensures KeptConsts(g, w, c, s, e, [x] + xs, [u] + us)
  {
    HeadConstKey(g, e, x, xs);
    HeadConstKey(g, e, u, us);
    HeadConstKey(g, NO_ENV, u, us);
  }

  /** A const argument keeps its meaning: a parameter becomes what it is bound to, looked up as often as that is a
      parameter of the scope. */
  lemma {:induction false} ConstIsKept(
    w: World, c: Ctx, g: Program, x: ConstArg, s: Scope, e: Env, active: seq<ProjKey>, f: nat)
    requires Tame(g, w, c, s, e) && InstConst(w, c, x, s, active, f).Some?
    ensures KeptConst(g, w, c, s, e, x, InstConst(w, c, x, s, active, f).value)
    decreases f, 2
  {
    if x.value.CParam? && x.value.name in s.consts {
      assert ConstDenotes(g, s, e, x.value.name);
      ConstIsKept(w, c, g, s.consts[x.value.name], s, e, active, f - 1);
    } else {
      InstIsKept(w, c, g, x.ty, s, e, active, f);
    }
  }

  lemma {:induction false} ConstsAreKept(
    w: World, c: Ctx, g: Program, cs: seq<ConstArg>, s: Scope, e: Env, active: seq<ProjKey>, f: nat)
    requires Tame(g, w, c, s, e) && InstConsts(w, c, cs, s, active, f).Some?
    ensures KeptConsts(g, w, c, s, e, cs, InstConsts(w, c, cs, s, active, f).value)
    decreases f, 3, |cs|
  {
    if cs != [] {
      ConstIsKept(w, c, g, cs[0], s, e, active, f);
      ConstsAreKept(w, c, g, cs[1..], s, e, active, f);
      assert cs == [cs[0]] + cs[1..];
      KeptConstHead(g, w, c, s, e, cs[0], cs[1..], InstConst(w, c, cs[0], s, active, f).value,
                    InstConsts(w, c, cs[1..], s, active, f).value);
    }
  }

  lemma {:induction false} BindingIsKept(
    w: World, c: Ctx, g: Program, b: Binding, s: Scope, e: Env, active: seq<ProjKey>, f: nat)
    requires Tame(g, w, c, s, e) && InstBinding(w, c, b, s, active, f).Some?
    ensures KeptBinding(g, w, c, s, e, b, InstBinding(w, c, b, s, active, f).value)
    decreases f, 4
  {
    TysAreKept(w, c, g, b.args, s, e, active, f);
    ConstsAreKept(w, c, g, b.consts, s, e, active, f);
    InstIsKept(w, c, g, b.ty, s, e, active, f);
  }

  lemma {:induction false} KeptBindingHead(
    g: Program, w: World, c: Ctx, s: Scope, e: Env, b: Binding, bs: seq<Binding>, u: Binding, us: seq<Binding>)
    requires KeptBinding(g, w, c, s, e, b, u) && KeptBindings(g, w, c, s, e, bs, us)
    ensures KeptBindings(g, w, c, s, e, [b] + bs, [u] + us)
  {
    HeadBindingKey(g, e, b, bs);
    HeadBindingKey(g, e, u, us);
    HeadBindingKey(g, NO_ENV, u, us);
  }

  lemma {:induction false} BindingsAreKept(
    w: World, c: Ctx, g: Program, bs: seq<Binding>, s: Scope, e: Env, active: seq<ProjKey>, f: nat)
    requires Tame(g, w, c, s, e) && InstBindings(w, c, bs, s, active, f).Some?
    ensures KeptBindings(g, w, c, s, e, bs, InstBindings(w, c, bs, s, active, f).value)
    decreases f, 5, |bs|
  {
    if bs != [] {
      BindingIsKept(w, c, g, bs[0], s, e, active, f);
      BindingsAreKept(w, c, g, bs[1..], s, e, active, f);
      assert bs == [bs[0]] + bs[1..];
      KeptBindingHead(g, w, c, s, e, bs[0], bs[1..], InstBinding(w, c, bs[0], s, active, f).value,
                      InstBindings(w, c, bs[1..], s, active, f).value);
    }
  }

  lemma {:induction false} ApartIsTame(w: World, c: Ctx, g: Program, s: Scope, e: Env)
    requires Interprets(g, w, c) && Apart(g, w, c, s, e)
    ensures Tame(g, w, c, s, e)
  {
    if FixedAnswers(g, w, c, e) {
      forall t, active, f, key, a | Uses(w, c, s, t, active, f, key, a) ensures Fixed(g, e, a) {
        assert Answered(w, c, s, active + [key], f, key, a);
      }
    }
  }

  /** An answer means what the type means where type parameters, `Self`, length parameters and const parameters stand
      for what the scope binds them to. */
  lemma {:induction false} InstKeepsMeaning(
    w: World, c: Ctx, g: Program, t: Ty, s: Scope, e: Env, active: seq<ProjKey>, f: nat)
    requires Interprets(g, w, c) && Apart(g, w, c, s, e) && Inst(w, c, t, s, active, f).Some?
    ensures Key(g, Inst(w, c, t, s, active, f).value) == MeaningOf(g, e, t)
  {
    ApartIsTame(w, c, g, s, e);
    InstIsKept(w, c, g, t, s, e, active, f);
  }

  // ---- Which environments there are.

  /** No const argument is a parameter of the scope, and no type of one holds a parameter. */
  ghost predicate Grounded(s: Scope) {
    forall n | n in s.consts ::
      ParamFree(s.consts[n].ty) && !(s.consts[n].value.CParam? && s.consts[n].value.name in s.consts)
  }

  ghost function ScopeEnv(g: Program, s: Scope): Env {
    Env(map n | n in s.types :: Key(g, s.types[n]), if s.self.Some? then Some(Key(g, s.self.value)) else None,
        map n | n in s.consts :: LengthOf(g, n, s.consts[n]),
        map n | n in s.consts :: KeyConst(g, NO_ENV, NO_ENV, s.consts[n]))
  }

  lemma {:induction false} ScopeEnvDenotes(g: Program, s: Scope)
    requires Grounded(s)
    ensures Denotes(g, s, ScopeEnv(g, s))
  {
    var e := ScopeEnv(g, s);
    forall n | n in s.consts ensures ConstDenotes(g, s, e, n) {
      KeyOfParamFree(g, e, NO_ENV, s.consts[n].ty);
    }
  }

  /** A scope of types only. */
  function OfSubst(types: Subst): Scope {
    Scope(None, types, map[])
  }

  lemma {:induction false} SubstDenotes(g: Program, types: Subst)
    ensures Denotes(g, OfSubst(types), Keys(g, types))
  {
  }

  /** Where the interpretation gives settled types, the result is that of plain substitution through it. */
  lemma {:induction false} InstIsApply(w: World, c: Ctx, g: Program, t: Ty, types: Subst, active: seq<ProjKey>, f: nat)
    requires Interprets(g, w, c) && Settling(g) && Apart(g, w, c, OfSubst(types), Keys(g, types))
    requires Inst(w, c, t, OfSubst(types), active, f).Some?
    ensures TypesMatch(g, Inst(w, c, t, OfSubst(types), active, f).value, Apply(g, false, types, t))
  {
    InstKeepsMeaning(w, c, g, t, OfSubst(types), Keys(g, types), active, f);
    KeyOfApply(g, false, types, t);
    TypesMatchIffKey(g, Inst(w, c, t, OfSubst(types), active, f).value, Apply(g, false, types, t));
  }

  /** Every run on `q` under these types gives a type semantically equal to the actual one. */
  ghost predicate Becomes(w: World, c: Ctx, g: Program, q: Ty, types: Subst, actual: Ty) {
    forall active, f | Inst(w, c, q, OfSubst(types), active, f).Some? ::
      TypesMatch(g, Inst(w, c, q, OfSubst(types), active, f).value, actual)
  }

  /** What the compiler makes of a pattern that matched, its open const values chosen, under the substitution the match
      found, is semantically the type it was matched against. */
  lemma {:induction false} MatchedPatternInstantiates(
    w: World, c: Ctx, g: Program, p: Ty, actual: Ty, s: Subst)
    requires Interprets(g, w, c) && Settling(g) && Matching.Plain(g, true, p) && Matching.Match(g, p, actual, s).ok
    requires var types := Matching.Match(g, p, actual, s).subst; Apart(g, w, c, OfSubst(types), Keys(g, types))
    ensures exists q :: Fillings.Fills(p, q) && Becomes(w, c, g, q, Matching.Match(g, p, actual, s).subst, actual)
  {
    var types := Matching.Match(g, p, actual, s).subst;
    Matching.MatchIsSound(g, p, actual, s);
    var q :| Matching.Chosen(g, false, p, q, actual, types);
    forall active, f | Inst(w, c, q, OfSubst(types), active, f).Some?
      ensures TypesMatch(g, Inst(w, c, q, OfSubst(types), active, f).value, actual)
    {
      var u, v := Inst(w, c, q, OfSubst(types), active, f).value, Apply(g, false, types, q);
      InstIsApply(w, c, g, q, types, active, f);
      TypesMatchIffKey(g, u, v);
      TypesMatchIffKey(g, u, actual);
      TypesMatchIffKey(g, v, actual);
    }
  }

  // ---------------------------------------------------------------------------------------------------------------
  // When a scope keeps the meaning of every type.

  ghost predicate KeepsMeaning(g: Program, w: World, c: Ctx, s: Scope, e: Env) {
    forall t, active, f | Inst(w, c, t, s, active, f).Some? ::
      Key(g, Inst(w, c, t, s, active, f).value) == MeaningOf(g, e, t)
  }

  lemma {:induction false} TysKeepMeaning(
    w: World, c: Ctx, g: Program, ts: seq<Ty>, s: Scope, e: Env, active: seq<ProjKey>, f: nat)
    requires KeepsMeaning(g, w, c, s, e) && InstTys(w, c, ts, s, active, f).Some?
    ensures KeyTys(g, NO_ENV, NO_ENV, InstTys(w, c, ts, s, active, f).value) == KeyTys(g, e, NO_ENV, ts)
    decreases |ts|
  {
    if ts != [] {
      TysKeepMeaning(w, c, g, ts[1..], s, e, active, f);
      assert ts == [ts[0]] + ts[1..];
      HeadKey(g, e, ts[0], ts[1..]);
      HeadKey(g, NO_ENV, Inst(w, c, ts[0], s, active, f).value, InstTys(w, c, ts[1..], s, active, f).value);
    }
  }

  lemma {:induction false} BoundConstMeans(g: Program, s: Scope, e: Env, x: ConstArg)
    requires Denotes(g, s, e) && x.value.CParam? && x.value.name in s.consts
    ensures KeyConst(g, e, NO_ENV, x) == KeyConst(g, e, NO_ENV, s.consts[x.value.name])
  {
    assert ConstDenotes(g, s, e, x.value.name);
  }

  lemma {:induction false} OtherConstMeans(g: Program, s: Scope, e: Env, x: ConstArg, u: ConstArg)
    requires Denotes(g, s, e) && !(x.value.CParam? && x.value.name in s.consts) && x.value == u.value
    requires Key(g, u.ty) == MeaningOf(g, e, x.ty)
    ensures KeyConst(g, NO_ENV, NO_ENV, u) == KeyConst(g, e, NO_ENV, x)
  {
  }

  lemma {:induction false} ConstKeepsMeaning(
    w: World, c: Ctx, g: Program, x: ConstArg, s: Scope, e: Env, active: seq<ProjKey>, f: nat)
    requires KeepsMeaning(g, w, c, s, e) && Denotes(g, s, e) && InstConst(w, c, x, s, active, f).Some?
    ensures KeyConst(g, NO_ENV, NO_ENV, InstConst(w, c, x, s, active, f).value) == KeyConst(g, e, NO_ENV, x)
    decreases f
  {
    if x.value.CParam? && x.value.name in s.consts {
      BoundConstMeans(g, s, e, x);
      ConstKeepsMeaning(w, c, g, s.consts[x.value.name], s, e, active, f - 1);
    } else {
      OtherConstMeans(g, s, e, x, InstConst(w, c, x, s, active, f).value);
    }
  }

  lemma {:induction false} ConstsKeepMeaning(
    w: World, c: Ctx, g: Program, cs: seq<ConstArg>, s: Scope, e: Env, active: seq<ProjKey>, f: nat)
    requires KeepsMeaning(g, w, c, s, e) && Denotes(g, s, e) && InstConsts(w, c, cs, s, active, f).Some?
    ensures KeyConsts(g, NO_ENV, NO_ENV, InstConsts(w, c, cs, s, active, f).value) == KeyConsts(g, e, NO_ENV, cs)
    decreases |cs|
  {
    if cs != [] {
      ConstsKeepMeaning(w, c, g, cs[1..], s, e, active, f);
      assert cs == [cs[0]] + cs[1..];
      ConstKeepsMeaning(w, c, g, cs[0], s, e, active, f);
      HeadConstKey(g, e, cs[0], cs[1..]);
      HeadConstKey(g, NO_ENV, InstConst(w, c, cs[0], s, active, f).value,
                   InstConsts(w, c, cs[1..], s, active, f).value);
    }
  }

  /** The answer and the projection give one result, so both mean what it means. */
  lemma {:induction false} UsedIsFixed(
    w: World, c: Ctx, g: Program, s: Scope, e: Env, t: Ty, active: seq<ProjKey>, f: nat, key: ProjKey, a: Ty)
    requires Interprets(g, w, c) && Denotes(g, s, e) && KeepsMeaning(g, w, c, s, e)
    requires Uses(w, c, s, t, active, f, key, a)
    ensures Fixed(g, e, a)
  {
    var p, pushed := w.normalize(t), active + [key];
    TysKeepMeaning(w, c, g, p.args, s, e, active, f);
    ConstsKeepMeaning(w, c, g, p.consts, s, e, active, f);
    assert Key(g, AsType(key)) == MeaningOf(g, e, p) == MeaningOf(g, e, t);
    assert Answered(w, c, s, pushed, f, key, a);
    assert Key(g, a) == Key(g, AsType(key));
    assert Inst(w, c, t, s, active, f + 1) == InstProjection(w, c, p, key, s, active, f)
        == Inst(w, c, a, s, pushed, f);
  }

  /** Every type keeps its meaning in a scope if and only if every answer that a run in it uses is fixed. */
  lemma {:induction false} KeepsIffUsedFixed(w: World, c: Ctx, g: Program, s: Scope, e: Env)
    requires Interprets(g, w, c) && Denotes(g, s, e)
    ensures KeepsMeaning(g, w, c, s, e) <==> UsedFixed(g, w, c, s, e)
  {
    if UsedFixed(g, w, c, s, e) {
      forall t, active, f | Inst(w, c, t, s, active, f).Some?
        ensures Key(g, Inst(w, c, t, s, active, f).value) == MeaningOf(g, e, t)
      {
        InstIsKept(w, c, g, t, s, e, active, f);
      }
    }
    if KeepsMeaning(g, w, c, s, e) {
      forall t, active, f, key, a | Uses(w, c, s, t, active, f, key, a) ensures Fixed(g, e, a) {
        UsedIsFixed(w, c, g, s, e, t, active, f, key, a);
      }
    }
  }

  /** Answers hold of every instance of what they answer, as those of a generic implementation do. */
  ghost predicate Uniform(g: Program, w: World, c: Ctx, e: Env) {
    forall k, tys, consts | w.resolve(c, k, tys, consts).Some? ::
      MeaningOf(g, e, w.resolve(c, k, tys, consts).value) == MeaningOf(g, e, AsType(k))
  }

  /** Types, self type and const arguments without parameters and uniform answers: the scopes of monomorphization. */
  lemma {:induction false} GroundScopeIsApart(w: World, c: Ctx, g: Program, s: Scope)
    requires Uniform(g, w, c, ScopeEnv(g, s)) && Interprets(g, w, c)
    requires (forall n | n in s.types :: ParamFree(s.types[n])) && (s.self.Some? ==> ParamFree(s.self.value))
    requires forall n | n in s.consts :: ParamFreeConst(s.consts[n])
    ensures Apart(g, w, c, s, ScopeEnv(g, s))
  {
    var e := ScopeEnv(g, s);
    forall n | n in s.consts ensures ParamFree(s.consts[n].ty) && !s.consts[n].value.CParam? {
      assert ParamFreeConst(s.consts[n]);
    }
    ScopeEnvDenotes(g, s);
    forall n | n in s.types ensures Fixed(g, e, s.types[n]) {
      KeyOfParamFree(g, e, NO_ENV, s.types[n]);
    }
    if s.self.Some? {
      KeyOfParamFree(g, e, NO_ENV, s.self.value);
    }
  }

  /** Answers that mention no name of the scope. */
  lemma {:induction false} UnmentionedIsApart(w: World, c: Ctx, g: Program, types: Subst)
    requires forall k, tys, consts | w.resolve(c, k, tys, consts).Some? ::
      Generics(w.resolve(c, k, tys, consts).value) !! types.Keys
    ensures Apart(g, w, c, OfSubst(types), Keys(g, types))
  {
    forall k, tys, consts | w.resolve(c, k, tys, consts).Some?
      ensures Fixed(g, Keys(g, types), w.resolve(c, k, tys, consts).value)
    {
      var a := w.resolve(c, k, tys, consts).value;
      KeyDependsOnBound(g, Generics(a), Keys(g, types), NO_ENV, NO_ENV, NO_ENV, a);
    }
  }

  // ---------------------------------------------------------------------------------------------------------------
  // Answers that are instantiated again, an ordinary generic implementation, and an answer that is captured.

  /** `<self as T>::name`. */
  function Member(self: Ty, name: Sym): Ty {
    Projection(self, 0, [], [], name)
  }

  /** `<u as T>::A` is answered by `<<u as T>::A as T>::B`, and that by a primitive type. */
  ghost predicate TwoSteps(w: World, c: Ctx) {
    && (forall t :: w.normalize(t) == t)
    && w.aliases == map[]
    && (forall k, tys, consts :: w.resolve(c, k, tys, consts) ==
          if AsType(k) == Member(Atom(0), 0) then Some(Member(Member(Atom(0), 0), 1))
          else if AsType(k) == Member(Member(Atom(0), 0), 1) then Some(Atom(1))
          else None)
  }

  ghost function TwoStepProgram(lens: Lengths): Program {
    Program(lens, (k: CTy) => if k.CProjection? then Some(Atom(1)) else None)
  }

  /** Such a solver has an interpretation, although its first answer is not settled. */
  lemma {:induction false} TwoStepsAreInterpreted(w: World, c: Ctx)
    requires TwoSteps(w, c)
    ensures Interprets(TwoStepProgram(w.lens), w, c) && Settling(TwoStepProgram(w.lens))
    ensures !Stuck(TwoStepProgram(w.lens), Member(Member(Atom(0), 0), 1))
  {
    var g := TwoStepProgram(w.lens);
    forall k, tys, consts | w.resolve(c, k, tys, consts).Some?
      ensures Key(g, w.resolve(c, k, tys, consts).value) == Key(g, AsType(k))
    {
      assert Key(g, AsType(k)) == CAtom(1);
    }
  }

  /** `?t`. */
  function Wrapped(t: Ty): Ty {
    Form(Optional, [t], [], [])
  }

  ghost predicate Plainly(w: World, c: Ctx) {
    && (forall t :: w.normalize(t) == t)
    && w.aliases == map[]
    && w.assumptionTys(c) == []
    && w.assumptionConsts(c) == []
  }

  /** `<?X as T>::A` is `X`, for every primitive type and every name. */
  ghost predicate Unwraps(w: World, c: Ctx) {
    && Plainly(w, c)
    && (forall k, tys, consts | w.resolve(c, k, tys, consts).Some? ::
          var a := w.resolve(c, k, tys, consts).value; (a.Atom? || a.Generic?) && AsType(k) == Member(Wrapped(a), 0))
    && (forall k, a: Ty, tys, consts | (a.Atom? || a.Generic?) && AsType(k) == Member(Wrapped(a), 0) ::
          w.resolve(c, k, tys, consts) == Some(a))
  }

  /** The key of `<?x as T>::A`. */
  ghost function CMember(x: CTy): CTy {
    CProjection(CForm(Optional, [x], [], multiset{}), 0, [], [], 0)
  }

  ghost function Inner(k: CTy): CTy {
    if k.CProjection? && k.self.CForm? && |k.self.args| == 1 then k.self.args[0] else CSelf
  }

  ghost function Unwrapped(k: CTy): Option<Ty> {
    if k != CMember(Inner(k)) then None
    else match Inner(k)
         case CAtom(id) => Some(Atom(id))
         case CGeneric(name) => Some(Generic(name))
         case _ => None
  }

  ghost function UnwrapProgram(lens: Lengths): Program {
    Program(lens, Unwrapped)
  }

  lemma {:induction false} MeaningOfWrapped(g: Program, e: Env, a: Ty)
    ensures KeyIn(g, e, NO_ENV, Member(Wrapped(a), 0)) == CProjectionTo(g, CMember(KeyIn(g, e, NO_ENV, a)))
  {
    assert KeyTys(g, e, NO_ENV, [a]) == [KeyIn(g, e, NO_ENV, a)];
    assert KeyIn(g, e, NO_ENV, Wrapped(a)) == CForm(Optional, [KeyIn(g, e, NO_ENV, a)], [], multiset{});
    assert KeyTys(g, e, NO_ENV, []) == [] && KeyConsts(g, e, NO_ENV, []) == [];
  }

  /** Such a solver has an interpretation with settled types. */
  lemma {:induction false} UnwrapIsInterpreted(w: World, c: Ctx)
    requires Unwraps(w, c)
    ensures Interprets(UnwrapProgram(w.lens), w, c) && Settling(UnwrapProgram(w.lens))
  {
    var g := UnwrapProgram(w.lens);
    forall k, tys, consts | w.resolve(c, k, tys, consts).Some?
      ensures Key(g, w.resolve(c, k, tys, consts).value) == Key(g, AsType(k))
    {
      var a := w.resolve(c, k, tys, consts).value;
      MeaningOfWrapped(g, NO_ENV, a);
      assert Inner(CMember(Key(g, a))) == Key(g, a);
    }
  }

  /** The scope that takes one name to one type. */
  function Single(name: Sym, t: Ty): Scope {
    Scope(None, map[name := t], map[])
  }

  /** A scope that takes a name to a primitive type is apart from such a solver, although an answer mentions the name;
      `<?T as T>::A` becomes that type. */
  lemma {:induction false} GenericImplIsApart(w: World, c: Ctx, name: Sym, id: nat)
    requires Unwraps(w, c)
    ensures var g, s := UnwrapProgram(w.lens), Single(name, Atom(id)); Apart(g, w, c, s, ScopeEnv(g, s))
    ensures exists k :: w.resolve(c, k, [], []) == Some(Generic(name))
    ensures Inst(w, c, Member(Wrapped(Generic(name)), 0), Single(name, Atom(id)), [], 3) == Some(Atom(id))
  {
    var g, s := UnwrapProgram(w.lens), Single(name, Atom(id));
    var e := ScopeEnv(g, s);
    UnwrapIsInterpreted(w, c);
    forall k, tys, consts | w.resolve(c, k, tys, consts).Some?
      ensures MeaningOf(g, e, w.resolve(c, k, tys, consts).value) == MeaningOf(g, e, AsType(k))
    {
      var a := w.resolve(c, k, tys, consts).value;
      MeaningOfWrapped(g, e, a);
      assert Inner(CMember(MeaningOf(g, e, a))) == MeaningOf(g, e, a);
    }
    GroundScopeIsApart(w, c, g, s);
    assert w.resolve(c, ProjKey(Wrapped(Generic(name)), 0, [], [], 0), [], []) == Some(Generic(name));
    UnwrapRun(w, c, name, id);
  }

  lemma {:induction false} UnwrapRun(w: World, c: Ctx, name: Sym, id: nat)
    requires Unwraps(w, c)
    ensures Inst(w, c, Member(Wrapped(Generic(name)), 0), Single(name, Atom(id)), [], 3) == Some(Atom(id))
  {
    var s, key := Single(name, Atom(id)), ProjKey(Wrapped(Atom(id)), 0, [], [], 0);
    assert InstTys(w, c, [Generic(name)][1..], s, [], 1) == Some([]) && [Atom(id)] + [] == [Atom(id)];
    assert InstTys(w, c, [Generic(name)], s, [], 1) == Some([Atom(id)]);
    assert Inst(w, c, Wrapped(Generic(name)), s, [], 2) == Some(Wrapped(Atom(id)));
    assert AsType(key) == Member(Wrapped(Atom(id)), 0) && Atom(id).Atom?;
    assert Inst(w, c, Atom(id), s, [] + [key], 2) == Some(Atom(id));
    assert InstProjection(w, c, Member(Wrapped(Generic(name)), 0), key, s, [], 2) == Some(Atom(id));
  }

  lemma {:induction false} MeaningOfMember(g: Program, s: Scope, e: Env, name: Sym, key: ProjKey)
    requires Denotes(g, s, e) && name in s.types && key == ProjKey(s.types[name], 0, [], [], 0)
    ensures MeaningOf(g, e, Member(Generic(name), 0)) == Key(g, AsType(key))
  {
    assert KeyIn(g, e, NO_ENV, Generic(name)) == Key(g, s.types[name]);
    assert KeyTys(g, e, NO_ENV, []) == KeyTys(g, NO_ENV, NO_ENV, []);
    assert KeyConsts(g, e, NO_ENV, []) == KeyConsts(g, NO_ENV, NO_ENV, []);
  }

  /** The same solver in a scope that takes a name to a type around it: `<T as T>::A` becomes `?T`, not `T`, because the
      answer `T` is substituted once more. */
  lemma {:induction false} AnswerIsCaptured(w: World, c: Ctx, name: Sym)
    requires Unwraps(w, c)
    ensures var s := Single(name, Wrapped(Generic(name)));
      && Inst(w, c, Member(Generic(name), 0), s, [], 2) == Some(s.types[name])
      && forall g, e | Interprets(g, w, c) && Denotes(g, s, e) ::
           !Apart(g, w, c, s, e) && MeaningOf(g, e, Member(Generic(name), 0)) != Key(g, s.types[name])
  {
    var s, key := Single(name, Wrapped(Generic(name))), ProjKey(Wrapped(Generic(name)), 0, [], [], 0);
    assert AsType(key) == Member(Wrapped(Generic(name)), 0) && Generic(name).Generic?;
    assert Inst(w, c, Generic(name), s, [], 1) == Some(key.self);
    assert Inst(w, c, Generic(name), s, [key], 1) == Some(key.self) && [] + [key] == [key];
    assert InstProjection(w, c, Member(Generic(name), 0), key, s, [], 1) == Some(key.self);
    forall g, e | Interprets(g, w, c) && Denotes(g, s, e)
      ensures !Apart(g, w, c, s, e) && MeaningOf(g, e, Member(Generic(name), 0)) != Key(g, key.self)
    {
      MeaningOfMember(g, s, e, name, key);
      assert Key(g, AsType(key)) == Key(g, w.resolve(c, key, [], []).value) == CGeneric(name);
      if Apart(g, w, c, s, e) {
        InstKeepsMeaning(w, c, g, Member(Generic(name), 0), s, e, [], 2);
      }
    }
  }

  /** `[T; N]` where `T` is a primitive type and `N` an integer that fits a length. */
  lemma {:induction false} ArrayIsInstantiated(
    w: World, c: Ctx, name: Sym, size: Sym, id: nat, ty: Ty, n: Bits, signed: bool)
    requires Plainly(w, c) && n < 0x1_0000_0000_0000_0000
    ensures var s := Scope(None, map[name := Atom(id)], map[size := ConstArg(ty, CInt(n, signed))]);
      Inst(w, c, Array(LenParam(size), Generic(name)), s, [], 2) == Some(Array(LenValue(n), Atom(id)))
  {
    var s := Scope(None, map[name := Atom(id)], map[size := ConstArg(ty, CInt(n, signed))]);
    assert Inst(w, c, Generic(name), s, [], 1) == Some(Atom(id));
  }

  /** One parameter bound to another one, which is bound to an integer: a const argument becomes the integer, an array
      length only the other parameter. */
  lemma {:induction false} LengthIsLookedUpOnce(w: World, c: Ctx, a: Sym, b: Sym, n: Bits)
    requires Plainly(w, c) && a != b
    ensures var value := ConstArg(Atom(0), CInt(n, false));
      var s := Scope(None, map[], map[a := ConstArg(Atom(0), CParam(b)), b := value]);
      && InstConst(w, c, ConstArg(Atom(0), CParam(a)), s, [], 3) == Some(value)
      && Inst(w, c, Array(LenParam(a), Atom(1)), s, [], 2) == Some(Array(LenParam(b), Atom(1)))
  {
    var value := ConstArg(Atom(0), CInt(n, false));
    var s := Scope(None, map[], map[a := ConstArg(Atom(0), CParam(b)), b := value]);
    assert Inst(w, c, Atom(0), s, [], 1) == Some(Atom(0)) && Inst(w, c, Atom(1), s, [], 1) == Some(Atom(1));
    assert InstConst(w, c, value, s, [], 1) == Some(value);
    assert InstConst(w, c, ConstArg(Atom(0), CParam(b)), s, [], 2) == Some(value);
  }
}
