/** Extension-pattern matching: a substitution is grown while a pattern is walked against an actual type, with a
    backtracking search over trait-object bindings. */
module Matching {
  import opened Options
  import opened Types
  import opened Substitution
  import opened Fillings

  /** The answer and the substitution as the caller finds it afterwards, grown even by a failed attempt. */
  datatype Outcome = Outcome(ok: bool, subst: Subst)

  function Match(g: Program, p: Ty, actual: Ty, s: Subst): Outcome
    decreases p, 0
  {
    var a := Settle(g, actual);
    if HasGeneric(p) && Bound(p, s.Keys) then
      Outcome(TypesMatch(g, Apply(g, false, s, p), a), s)
    else
      match p
      case Generic(name) =>
        if name in s then Outcome(TypesMatch(g, s[name], a), s) else Outcome(true, s[name := a])
      case Pointer(readonly, elem) =>
        if a.Pointer? && a.readonly == readonly then Match(g, elem, a.elem, s) else Outcome(false, s)
      case Array(len, elem) =>
        if !a.Array? then Outcome(false, s) else
        var l := MatchLen(g, len, a.len, s);
        if !l.ok then Outcome(false, s) else
        var e := Match(g, elem, a.elem, l.subst);
        if e.ok then e else Outcome(false, s)
      case Form(tag, args, consts, bindings) =>
        if !(&& a.Form?
             && a.tag == tag
             && |a.args| == |args|
             && ConstPatternsMatch(g, consts, a.consts)
             && |a.bindings| == |bindings|) then Outcome(false, s) else
        var r := MatchTys(g, args, a.args, s);
        if !r.ok then r else
        MatchBindings(g, bindings, a.bindings, seq(|a.bindings|, _ => false), r.subst)
      case Projection(self, owner, args, consts, name) =>
        if !(&& a.Projection?
             && a.owner == owner
             && a.name == name
             && |a.args| == |args|
             && ConstPatternsMatch(g, consts, a.consts)) then Outcome(false, s) else
        var r := Match(g, self, a.self, s);
        if r.ok then MatchTys(g, args, a.args, r.subst) else r
      case _ => Outcome(TypesMatch(g, p, a), s)
  }

  /** The length half of an array pattern; its result is a candidate the caller may drop. */
  function MatchLen(g: Program, p: Len, a: Len, s: Subst): Outcome
    decreases p, 0
  {
    if p.LenBuiltin? && a.LenBuiltin? && p.op == a.op then Match(g, p.operand, a.operand, s)
    else Outcome(LenValuesMatch(g, p, a), s)
  }

  predicate LenValuesMatch(g: Program, p: Len, a: Len) {
    p == a ||
    match (p, a)
    case (LenValue(n), LenExpr(e)) => e in g.lens && g.lens[e] == n
    case (LenExpr(e), LenValue(n)) => e in g.lens && g.lens[e] == n
    case (LenExpr(e), LenExpr(f)) => e in g.lens && f in g.lens && g.lens[e] == g.lens[f]
    case _ => false
  }

  /** An unevaluated parameter value stays open; everything else is compared. */
  predicate ConstPatternMatches(g: Program, p: ConstArg, a: ConstArg) {
    TypesMatch(g, p.ty, a.ty) && (p.value.CParam? || CanonValue(g.lens, p.value) == CanonValue(g.lens, a.value))
  }

  predicate ConstPatternsMatch(g: Program, p: seq<ConstArg>, a: seq<ConstArg>) {
    |p| == |a| && forall i | 0 <= i < |p| :: ConstPatternMatches(g, p[i], a[i])
  }

  function MatchTys(g: Program, p: seq<Ty>, a: seq<Ty>, s: Subst): Outcome
    requires |p| == |a|
    decreases p, 1
  {
    if p == [] then Outcome(true, s) else
    var r := Match(g, p[0], a[0], s);
    if r.ok then MatchTys(g, p[1..], a[1..], r.subst) else r
  }

  function MatchBinding(g: Program, p: Binding, a: Binding, s: Subst): Outcome
    decreases p, 1
  {
    if p.name != a.name || p.owner != a.owner || |p.args| != |a.args| || !ConstPatternsMatch(g, p.consts, a.consts)
    then Outcome(false, s) else
    var r := MatchTys(g, p.args, a.args, s);
    if !r.ok then Outcome(false, s) else
    var e := Match(g, p.ty, a.ty, r.subst);
    if e.ok then e else Outcome(false, s)
  }

  function MatchBindings(g: Program, p: seq<Binding>, a: seq<Binding>, used: seq<bool>, s: Subst): Outcome
    requires |used| == |a|
    decreases p, 2, 0
  {
    if p == [] then Outcome(true, s) else TryFrom(g, p, a, used, 0, s)
  }

  /** Tries the unused actual bindings from `j` on for the first pattern binding. */
  function TryFrom(g: Program, p: seq<Binding>, a: seq<Binding>, used: seq<bool>, j: nat, s: Subst): Outcome
    requires |used| == |a| && p != [] && j <= |a|
    decreases p, 1, |a| - j
  {
    if j == |a| then Outcome(false, s) else
    if used[j] then TryFrom(g, p, a, used, j + 1, s) else
    var r := MatchBinding(g, p[0], a[j], s);
    if !r.ok then TryFrom(g, p, a, used, j + 1, s) else
    var rest := MatchBindings(g, p[1..], a, used[j := true], r.subst);
    if rest.ok then rest else TryFrom(g, p, a, used, j + 1, s)
  }

  // ---------------------------------------------------------------------------------------------------------------
  // What a pattern must look like for instantiation to give the actual type back.

  /** No const type holds a generic. With `strict`, neither does a builtin-length operand,
      which matching looks into and instantiation does not; otherwise such an operand is one the solver has no say in,
      outside of projections. */
  ghost predicate Plain(g: Program, strict: bool, t: Ty)
    decreases t, 0
  {
    match t
    case Pointer(_, elem) => Plain(g, strict, elem)
    case Array(len, elem) => PlainLen(g, strict, len) && Plain(g, strict, elem)
    case Form(_, args, consts, bindings) =>
      PlainTys(g, strict, args) && PlainConsts(consts) && PlainBindings(g, strict, bindings)
    case Projection(self, _, args, consts, _) => Plain(g, true, self) && PlainTys(g, true, args) && PlainConsts(consts)
    case _ => true
  }

  ghost predicate PlainLen(g: Program, strict: bool, len: Len)
    decreases len, 0
  {
    len.LenBuiltin? ==> Plain(g, strict, len.operand) && (HasGeneric(len.operand) ==> !strict && Stuck(g, len.operand))
  }

  ghost predicate PlainTys(g: Program, strict: bool, ts: seq<Ty>)
    decreases ts, 0
  {
    forall i | 0 <= i < |ts| :: Plain(g, strict, ts[i])
  }

  predicate PlainConsts(cs: seq<ConstArg>) {
    forall i | 0 <= i < |cs| :: !ConstGeneric(cs[i])
  }

  ghost predicate PlainBinding(g: Program, strict: bool, b: Binding)
    decreases b, 0
  {
    PlainTys(g, strict, b.args) && PlainConsts(b.consts) && Plain(g, strict, b.ty)
  }

  ghost predicate PlainBindings(g: Program, strict: bool, bs: seq<Binding>)
    decreases bs, 0
  {
    forall i | 0 <= i < |bs| :: PlainBinding(g, strict, bs[i])
  }

  lemma {:induction false} StrictIsPlain(g: Program, t: Ty)
    requires Plain(g, true, t)
    ensures Plain(g, false, t)
    decreases t, 0
  {
    match t
    case Pointer(_, elem) => StrictIsPlain(g, elem);
    case Array(len, elem) =>
      StrictIsPlain(g, elem);
      if len.LenBuiltin? {
        StrictIsPlain(g, len.operand);
      }
    case Form(_, args, _, bindings) =>
      StrictTysArePlain(g, args);
      forall i | 0 <= i < |bindings| ensures PlainBinding(g, false, bindings[i]) {
        StrictBindingIsPlain(g, bindings[i]);
      }
    case _ =>
  }

  lemma {:induction false} StrictTysArePlain(g: Program, ts: seq<Ty>)
    requires PlainTys(g, true, ts)
    ensures PlainTys(g, false, ts)
    decreases ts, 0
  {
    forall i | 0 <= i < |ts| ensures Plain(g, false, ts[i]) {
      StrictIsPlain(g, ts[i]);
    }
  }

  lemma {:induction false} StrictBindingIsPlain(g: Program, b: Binding)
    requires PlainBinding(g, true, b)
    ensures PlainBinding(g, false, b)
    decreases b, 0
  {
    StrictTysArePlain(g, b.args);
    StrictIsPlain(g, b.ty);
  }

  lemma {:induction false} FilledIsStrict(g: Program, p: Ty, q: Ty)
    requires Plain(g, true, p) && Fills(p, q)
    ensures Plain(g, true, q)
    decreases p, 0
  {
    match p
    case Pointer(_, elem) => FilledIsStrict(g, elem, q.elem);
    case Array(len, elem) =>
      FilledIsStrict(g, elem, q.elem);
      if len.LenBuiltin? {
        FilledIsStrict(g, len.operand, q.len.operand);
        FilledGenerics(len.operand, q.len.operand);
      }
    case Form(_, args, consts, bindings) =>
      FilledTysAreStrict(g, args, q.args);
      FilledConstsArePlain(consts, q.consts);
      forall i | 0 <= i < |bindings| ensures PlainBinding(g, true, q.bindings[i]) {
        FilledBindingIsStrict(g, bindings[i], q.bindings[i]);
      }
    case Projection(self, _, args, consts, _) =>
      FilledIsStrict(g, self, q.self);
      FilledTysAreStrict(g, args, q.args);
      FilledConstsArePlain(consts, q.consts);
    case _ =>
  }

  lemma {:induction false} FilledTysAreStrict(g: Program, p: seq<Ty>, q: seq<Ty>)
    requires PlainTys(g, true, p) && FillsTys(p, q)
    ensures PlainTys(g, true, q)
    decreases p, 0
  {
    forall i | 0 <= i < |p| ensures Plain(g, true, q[i]) {
      FilledIsStrict(g, p[i], q[i]);
    }
  }

  lemma {:induction false} FilledConstsArePlain(p: seq<ConstArg>, q: seq<ConstArg>)
    requires PlainConsts(p) && FillsConsts(p, q)
    ensures PlainConsts(q)
  {
    forall i | 0 <= i < |p| ensures !ConstGeneric(q[i]) {
      assert FillsConst(p[i], q[i]);
    }
  }

  lemma {:induction false} FilledBindingIsStrict(g: Program, p: Binding, q: Binding)
    requires PlainBinding(g, true, p) && FillsBinding(p, q)
    ensures PlainBinding(g, true, q)
    decreases p, 0
  {
    FilledTysAreStrict(g, p.args, q.args);
    FilledConstsArePlain(p.consts, q.consts);
    FilledIsStrict(g, p.ty, q.ty);
  }

  // ---- Instantiation that skips builtin-length operands either makes no difference or leaves a generic behind.

  lemma {:induction false} SkippedOperands(g: Program, e: Env, inner: Env, t: Ty)
    requires Plain(g, false, t) && OfTypes(e) && OfTypes(inner)
    ensures if Plain(g, true, t) then KeyIn(g, e, inner, t) == KeyIn(g, e, NO_ENV, t)
            else Open(KeyIn(g, e, NO_ENV, t))
    decreases t, 0
  {
    match t
    case Pointer(_, elem) => SkippedOperands(g, e, inner, elem);
    case Array(len, elem) =>
      SkippedOperands(g, e, inner, elem);
      SkippedOperandsLen(g, e, inner, len);
    case Form(_, args, consts, bindings) =>
      SkippedOperandsTys(g, e, inner, args);
      SkippedOperandsConsts(g, e, inner, consts);
      SkippedOperandsConsts(g, e, NO_ENV, consts);
      SkippedOperandsBindings(g, e, inner, bindings);
      OpenForm(KeyIn(g, e, NO_ENV, t));
    case Projection(self, _, args, consts, _) =>
      StrictIsPlain(g, self);
      StrictTysArePlain(g, args);
      SkippedOperands(g, e, inner, self);
      SkippedOperandsTys(g, e, inner, args);
      SkippedOperandsConsts(g, e, inner, consts);
      SkippedOperandsConsts(g, e, NO_ENV, consts);
    case _ =>
  }

  lemma {:induction false} SkippedOperandsLen(g: Program, e: Env, inner: Env, len: Len)
    requires PlainLen(g, false, len) && OfTypes(e) && OfTypes(inner)
    ensures if PlainLen(g, true, len) then KeyLen(g, e, inner, len) == KeyLen(g, e, NO_ENV, len)
            else KeyLen(g, e, NO_ENV, len).CLenBuiltin? && Open(KeyLen(g, e, NO_ENV, len).operand)
    decreases len, 0
  {
    if len.LenBuiltin? {
      if HasGeneric(len.operand) {
        assert !PlainLen(g, true, len);
        OpenIffGeneric(g, len.operand);
      } else {
        KeyOfGenericFree(g, inner, inner, len.operand);
        SkippedOperands(g, NO_ENV, NO_ENV, len.operand);
      }
    }
  }

  lemma {:induction false} SkippedOperandsTys(g: Program, e: Env, inner: Env, ts: seq<Ty>)
    requires PlainTys(g, false, ts) && OfTypes(e) && OfTypes(inner)
    ensures if PlainTys(g, true, ts) then KeyTys(g, e, inner, ts) == KeyTys(g, e, NO_ENV, ts)
            else OpenTys(KeyTys(g, e, NO_ENV, ts))
    decreases ts, 0
  {
    forall i | 0 <= i < |ts|
      ensures if Plain(g, true, ts[i]) then KeyIn(g, e, inner, ts[i]) == KeyIn(g, e, NO_ENV, ts[i])
              else Open(KeyTys(g, e, NO_ENV, ts)[i])
    {
      SkippedOperands(g, e, inner, ts[i]);
    }
  }

  lemma {:induction false} SkippedOperandsConsts(g: Program, e: Env, inner: Env, cs: seq<ConstArg>)
    requires PlainConsts(cs) && OfTypes(e) && OfTypes(inner)
    ensures KeyConsts(g, e, inner, cs) == KeyConsts(g, NO_ENV, NO_ENV, cs)
  {
    forall i | 0 <= i < |cs| ensures KeyConst(g, e, inner, cs[i]) == KeyConst(g, NO_ENV, NO_ENV, cs[i]) {
      KeyOfGenericFree(g, e, inner, cs[i].ty);
    }
  }

  lemma {:induction false} SkippedOperandsBinding(g: Program, e: Env, inner: Env, b: Binding)
    requires PlainBinding(g, false, b) && OfTypes(e) && OfTypes(inner)
    ensures if PlainBinding(g, true, b) then KeyBinding(g, e, inner, b) == KeyBinding(g, e, NO_ENV, b)
            else OpenBinding(KeyBinding(g, e, NO_ENV, b))
    decreases b, 0
  {
    SkippedOperandsTys(g, e, inner, b.args);
    SkippedOperandsConsts(g, e, inner, b.consts);
    SkippedOperandsConsts(g, e, NO_ENV, b.consts);
    SkippedOperands(g, e, inner, b.ty);
  }

  lemma {:induction false} SkippedOperandsBindings(g: Program, e: Env, inner: Env, bs: seq<Binding>)
    requires PlainBindings(g, false, bs) && OfTypes(e) && OfTypes(inner)
    ensures if PlainBindings(g, true, bs) then KeyBindings(g, e, inner, bs) == KeyBindings(g, e, NO_ENV, bs)
            else exists b | b in multiset(KeyBindings(g, e, NO_ENV, bs)) :: OpenBinding(b)
    decreases bs, 0
  {
    var k := KeyBindings(g, e, NO_ENV, bs);
    forall i | 0 <= i < |bs|
      ensures if PlainBinding(g, true, bs[i]) then KeyBinding(g, e, inner, bs[i]) == k[i] else OpenBinding(k[i])
    {
      SkippedOperandsBinding(g, e, inner, bs[i]);
    }
    assert forall i | 0 <= i < |bs| :: k[i] in multiset(k);
  }

  // ---------------------------------------------------------------------------------------------------------------
  // Soundness.

  /** `t` extends `s` and overwrites nothing. */
  ghost predicate Extends(s: Subst, t: Subst) {
    forall n | n in s :: n in t && t[n] == s[n]
  }

  /** The key of the pattern with every generic replaced, builtin-length operands included. */
  ghost function FullKey(g: Program, s: Subst, p: Ty): CTy {
    KeyIn(g, Keys(g, s), Keys(g, s), p)
  }

  ghost function FullKeys(g: Program, s: Subst, ps: seq<Ty>): seq<CTy> {
    KeyTys(g, Keys(g, s), Keys(g, s), ps)
  }

  ghost function FullBindingKeys(g: Program, s: Subst, ps: seq<Binding>): seq<CBinding> {
    KeyBindings(g, Keys(g, s), Keys(g, s), ps)
  }

  lemma {:induction false} KeptKey(g: Program, s: Subst, t: Subst, p: Ty, q: Ty)
    requires Extends(s, t) && Bound(p, s.Keys) && Fills(p, q)
    ensures FullKey(g, s, q) == FullKey(g, t, q)
  {
    FilledGenerics(p, q);
    KeyDependsOnBound(g, s.Keys, Keys(g, s), Keys(g, s), Keys(g, t), Keys(g, t), q);
  }

  lemma {:induction false} KeptKeys(g: Program, s: Subst, t: Subst, p: seq<Ty>, q: seq<Ty>)
    requires Extends(s, t) && GenericsTys(p) <= s.Keys && FillsTys(p, q)
    ensures FullKeys(g, s, q) == FullKeys(g, t, q)
  {
    FilledGenericsTys(p, q);
    KeyDependsOnBoundTys(g, s.Keys, Keys(g, s), Keys(g, s), Keys(g, t), Keys(g, t), q);
  }

  lemma {:induction false} SoundConsts(g: Program, e: Env, p: seq<ConstArg>, a: seq<ConstArg>)
    requires Settling(g) && OfTypes(e)
    requires PlainConsts(p) && ConstPatternsMatch(g, p, a)
    ensures GenericsConsts(p) == {}
    ensures KeyConsts(g, e, e, FilledConsts(p, a)) == KeyConsts(g, NO_ENV, NO_ENV, a)
  {
    var q := FilledConsts(p, a);
    GenericFreeConstsAreBound(p, {});
    FilledConstsFill(p, a);
    FilledConstsArePlain(p, q);
    SkippedOperandsConsts(g, e, e, q);
    forall i | 0 <= i < |p| ensures KeyConst(g, NO_ENV, NO_ENV, q[i]) == KeyConst(g, NO_ENV, NO_ENV, a[i]) {
      assert ConstPatternMatches(g, p[i], a[i]);
      TypesMatchIffKey(g, p[i].ty, a[i].ty);
    }
  }

  /** A pattern all of whose generics were bound beforehand is only compared. */
  lemma {:induction false} SoundWhenBound(g: Program, p: Ty, actual: Ty, s: Subst)
    requires Settling(g) && Plain(g, false, p) && (Plain(g, true, p) || !Open(Key(g, actual)))
    requires TypesMatch(g, Apply(g, false, s, p), Settle(g, actual))
    ensures FullKey(g, s, p) == Key(g, actual)
  {
    TypesMatchIffKey(g, Apply(g, false, s, p), Settle(g, actual));
    KeyOfApply(g, false, s, p);
    KeyOfSettle(g, actual);
    SkippedOperands(g, Keys(g, s), Keys(g, s), p);
  }

  /** `q` is a filling of the pattern that shows the answer right. */
  ghost predicate TySound(g: Program, p: Ty, q: Ty, actual: Ty, s: Subst, r: Outcome) {
    && Extends(s, r.subst)
    && (r.ok ==> Fills(p, q))
    && (r.ok && Plain(g, false, p) ==> Bound(p, r.subst.Keys))
    && (r.ok && Plain(g, false, p) && (Plain(g, true, p) || !Open(Key(g, actual))) ==>
          FullKey(g, r.subst, q) == Key(g, actual))
  }

  /** Matching never overwrites, binds every generic of the pattern when it succeeds, and the fully instantiated
      pattern, its open const values chosen, then equals the actual type. */
  lemma {:induction false} Sound(g: Program, p: Ty, actual: Ty, s: Subst) returns (q: Ty)
    requires Settling(g)
    ensures TySound(g, p, q, actual, s, Match(g, p, actual, s))
    decreases p, 1
  {
    q := p;
    FillsSelf(p);
    if HasGeneric(p) && Bound(p, s.Keys) {
      var r := Match(g, p, actual, s);
      if r.ok && Plain(g, false, p) && (Plain(g, true, p) || !Open(Key(g, actual))) {
        SoundWhenBound(g, p, actual, s);
      }
    } else {
      match p
      case Generic(name) => SoundGeneric(g, p, actual, s);
      case Pointer(_, _) => q := SoundPointer(g, p, actual, s);
      case Array(_, _) => q := SoundArray(g, p, actual, s);
      case Form(_, _, _, _) => q := SoundForm(g, p, actual, s);
      case Projection(_, _, _, _, _) => q := SoundProjection(g, p, actual, s);
      case _ => SoundAtom(g, p, actual);
    }
  }

  lemma {:induction false} SoundGeneric(g: Program, p: Ty, actual: Ty, s: Subst)
    requires Settling(g) && p.Generic? && !(HasGeneric(p) && Bound(p, s.Keys))
    ensures TySound(g, p, p, actual, s, Match(g, p, actual, s))
  {
    KeyOfSettle(g, actual);
    var r := Match(g, p, actual, s);
    assert Keys(g, r.subst).types[p.name] == Key(g, Settle(g, actual));
  }

  lemma {:induction false} SoundPointer(g: Program, p: Ty, actual: Ty, s: Subst) returns (q: Ty)
    requires Settling(g) && p.Pointer? && !(HasGeneric(p) && Bound(p, s.Keys))
    ensures TySound(g, p, q, actual, s, Match(g, p, actual, s))
    decreases p, 0
  {
    var a := Settle(g, actual);
    KeyOfSettle(g, actual);
    q := p;
    if a.Pointer? && a.readonly == p.readonly {
      OpenPointerTo(p.readonly, Key(g, a.elem));
      var elem := Sound(g, p.elem, a.elem, s);
      q := Pointer(p.readonly, elem);
    }
  }

  lemma {:induction false} OpenPointerTo(readonly: bool, k: CTy)
    ensures Open(CPointerTo(readonly, k)) <==> Open(k)
  {
    if k.CForm? && IsPointee(k.tag) {
      OpenForm(k);
      OpenForm(CPointerTo(readonly, k));
    }
  }

  lemma {:induction false} SoundAtom(g: Program, p: Ty, actual: Ty)
    requires Settling(g)
    requires p.Atom? || p.SelfParam?
    ensures TypesMatch(g, p, Settle(g, actual)) ==> Key(g, p) == Key(g, actual)
  {
    TypesMatchIffKey(g, p, Settle(g, actual));
    KeyOfSettle(g, actual);
  }

  lemma {:induction false} SoundArray(g: Program, p: Ty, actual: Ty, s: Subst) returns (q: Ty)
    requires Settling(g)
    requires p.Array?
    requires !(HasGeneric(p) && Bound(p, s.Keys))
    ensures TySound(g, p, q, actual, s, Match(g, p, actual, s))
    decreases p, 0
  {
    var a := Settle(g, actual);
    KeyOfSettle(g, actual);
    q := p;
    if a.Array? {
      assert KeyLen(g, NO_ENV, NO_ENV, a.len).CLenBuiltin? <==> a.len.LenBuiltin?;
      var len := SoundLen(g, p.len, a.len, s);
      var l := MatchLen(g, p.len, a.len, s);
      if l.ok {
        var elem := Sound(g, p.elem, a.elem, l.subst);
        q := Array(len, elem);
        var r := Match(g, p, actual, s);
        if r.ok && Plain(g, false, p) {
          KeyLenKept(g, l.subst, r.subst, p.len, len);
        }
      }
    }
  }

  ghost predicate ProjectionsAlike(g: Program, p: Ty, a: Ty) {
    && p.Projection? && a.Projection?
    && a.owner == p.owner
    && a.name == p.name
    && |a.args| == |p.args|
    && ConstPatternsMatch(g, p.consts, a.consts)
  }

  lemma {:induction false} SoundProjection(g: Program, p: Ty, actual: Ty, s: Subst) returns (q: Ty)
    requires Settling(g)
    requires p.Projection?
    requires !(HasGeneric(p) && Bound(p, s.Keys))
    ensures TySound(g, p, q, actual, s, Match(g, p, actual, s))
    decreases p, 0
  {
    var a := Settle(g, actual);
    KeyOfSettle(g, actual);
    q := p;
    if ProjectionsAlike(g, p, a) {
      if Plain(g, false, p) {
        StrictIsPlain(g, p.self);
        StrictTysArePlain(g, p.args);
      }
      var self := Sound(g, p.self, a.self, s);
      var f := Match(g, p.self, a.self, s);
      if f.ok {
        var args := SoundTys(g, p.args, a.args, f.subst);
        FilledConstsFill(p.consts, a.consts);
        q := Projection(self, p.owner, args, FilledConsts(p.consts, a.consts), p.name);
        var r := Match(g, p, actual, s);
        if r.ok && Plain(g, false, p) {
          KeptKey(g, f.subst, r.subst, p.self, self);
          SoundConsts(g, Keys(g, r.subst), p.consts, a.consts);
        }
      }
    }
  }

  ghost predicate FormsAlike(g: Program, p: Ty, a: Ty) {
    && p.Form? && a.Form?
    && a.tag == p.tag
    && |a.args| == |p.args|
    && ConstPatternsMatch(g, p.consts, a.consts)
    && |a.bindings| == |p.bindings|
  }

  lemma {:induction false} SoundForm(g: Program, p: Ty, actual: Ty, s: Subst) returns (q: Ty)
    requires Settling(g)
    requires p.Form?
    requires !(HasGeneric(p) && Bound(p, s.Keys))
    ensures TySound(g, p, q, actual, s, Match(g, p, actual, s))
    decreases p, 0
  {
    var a := Settle(g, actual);
    KeyOfSettle(g, actual);
    q := p;
    if FormsAlike(g, p, a) {
      ClosedForm(g, a);
      var args := SoundTys(g, p.args, a.args, s);
      var f := MatchTys(g, p.args, a.args, s);
      if f.ok {
        var unused := seq(|a.bindings|, _ => false);
        var bindings := SoundBindings(g, p.bindings, a.bindings, unused, f.subst);
        FilledConstsFill(p.consts, a.consts);
        q := Form(p.tag, args, FilledConsts(p.consts, a.consts), bindings);
        FormIsSound(g, p, q, actual, s);
      }
    }
  }

  lemma {:induction false} FormIsSound(g: Program, p: Ty, q: Ty, actual: Ty, s: Subst)
    requires Settling(g) && FormsAlike(g, p, Settle(g, actual)) && !(HasGeneric(p) && Bound(p, s.Keys))
    requires q.Form? && q.tag == p.tag && q.consts == FilledConsts(p.consts, Settle(g, actual).consts)
    requires !Open(Key(g, actual)) ==>
      !OpenTys(KeyTys(g, NO_ENV, NO_ENV, Settle(g, actual).args)) && !AnyOpen(g, Settle(g, actual).bindings)
    requires var a := Settle(g, actual);
      var f := MatchTys(g, p.args, a.args, s);
      var unused := seq(|a.bindings|, _ => false);
      && f.ok && TysSound(g, p.args, q.args, a.args, s, f)
      && BindingsSound(g, p.bindings, q.bindings, a.bindings, unused, f.subst,
                       MatchBindings(g, p.bindings, a.bindings, unused, f.subst))
    ensures TySound(g, p, q, actual, s, Match(g, p, actual, s))
  {
    var a, r := Settle(g, actual), Match(g, p, actual, s);
    KeyOfSettle(g, actual);
    FilledConstsFill(p.consts, a.consts);
    var f := MatchTys(g, p.args, a.args, s);
    if r.ok && Plain(g, false, p) {
      KeptKeys(g, f.subst, r.subst, p.args, q.args);
      SoundConsts(g, Keys(g, r.subst), p.consts, a.consts);
      if Plain(g, true, p) || !Open(Key(g, actual)) {
        BindingsPairUp(g, q.bindings, a.bindings, r.subst);
        FormKey(g, q, a, r.subst);
      }
    }
  }

  lemma {:induction false} BindingsPairUp(g: Program, q: seq<Binding>, a: seq<Binding>, s: Subst)
    requires |q| == |a|
    requires multiset(FullBindingKeys(g, s, q)) <= Free(KeyBindings(g, NO_ENV, NO_ENV, a), seq(|a|, _ => false))
    ensures multiset(FullBindingKeys(g, s, q)) == multiset(KeyBindings(g, NO_ENV, NO_ENV, a))
  {
    var theirs := KeyBindings(g, NO_ENV, NO_ENV, a);
    FreeOfUnused(theirs, seq(|a|, _ => false));
    SubMultisetOfSameSize(FullBindingKeys(g, s, q), theirs);
  }

  lemma {:induction false} FormKey(g: Program, q: Ty, a: Ty, s: Subst)
    requires q.Form? && a.Form? && q.tag == a.tag && FullKeys(g, s, q.args) == KeyTys(g, NO_ENV, NO_ENV, a.args)
    requires KeyConsts(g, Keys(g, s), Keys(g, s), q.consts) == KeyConsts(g, NO_ENV, NO_ENV, a.consts)
    requires multiset(FullBindingKeys(g, s, q.bindings)) == multiset(KeyBindings(g, NO_ENV, NO_ENV, a.bindings))
    ensures FullKey(g, s, q) == Key(g, a)
  {
  }

  lemma {:induction false} ClosedForm(g: Program, a: Ty)
    requires a.Form?
    ensures !Open(Key(g, a)) ==> !OpenTys(KeyTys(g, NO_ENV, NO_ENV, a.args)) && !AnyOpen(g, a.bindings)
  {
    var k := KeyBindings(g, NO_ENV, NO_ENV, a.bindings);
    OpenForm(Key(g, a));
    forall i | 0 <= i < |a.bindings| && OpenBinding(KeyBinding(g, NO_ENV, NO_ENV, a.bindings[i]))
      ensures Open(Key(g, a))
    {
      assert k[i] in multiset(k);
    }
  }

  lemma {:induction false} SoundLen(g: Program, p: Len, a: Len, s: Subst) returns (q: Len)
    requires Settling(g)
    ensures var r := MatchLen(g, p, a, s);
      && Extends(s, r.subst)
      && (r.ok ==> FillsLen(p, q))
      && (r.ok && PlainLen(g, false, p) && p.LenBuiltin? ==> Bound(p.operand, r.subst.Keys))
      && (r.ok && PlainLen(g, false, p) && (PlainLen(g, true, p) || !(a.LenBuiltin? && Open(Key(g, a.operand)))) ==>
            KeyLen(g, Keys(g, r.subst), Keys(g, r.subst), q) == KeyLen(g, NO_ENV, NO_ENV, a))
    decreases p, 0
  {
    q := p;
    FillsSelfLen(p);
    if p.LenBuiltin? && a.LenBuiltin? && p.op == a.op {
      var operand := Sound(g, p.operand, a.operand, s);
      q := LenBuiltin(p.op, operand);
    }
  }

  lemma {:induction false} KeyLenKept(g: Program, s: Subst, t: Subst, len: Len, q: Len)
    requires Extends(s, t) && FillsLen(len, q)
    requires len.LenBuiltin? ==> Bound(len.operand, s.Keys)
    ensures KeyLen(g, Keys(g, s), Keys(g, s), q) == KeyLen(g, Keys(g, t), Keys(g, t), q)
  {
    if len.LenBuiltin? {
      KeptKey(g, s, t, len.operand, q.operand);
    }
  }

  ghost predicate TysSound(g: Program, p: seq<Ty>, q: seq<Ty>, a: seq<Ty>, s: Subst, r: Outcome) {
    && Extends(s, r.subst)
    && (r.ok ==> FillsTys(p, q))
    && (r.ok && PlainTys(g, false, p) ==> GenericsTys(p) <= r.subst.Keys)
    && (r.ok && PlainTys(g, false, p) && (PlainTys(g, true, p) || !OpenTys(KeyTys(g, NO_ENV, NO_ENV, a))) ==>
          FullKeys(g, r.subst, q) == KeyTys(g, NO_ENV, NO_ENV, a))
  }

  lemma {:induction false} SoundTys(g: Program, p: seq<Ty>, a: seq<Ty>, s: Subst) returns (q: seq<Ty>)
    requires Settling(g)
    requires |p| == |a|
    ensures TysSound(g, p, q, a, s, MatchTys(g, p, a, s))
    decreases p, 0
  {
    q := p;
    if p != [] {
      var head := Sound(g, p[0], a[0], s);
      var f := Match(g, p[0], a[0], s);
      if f.ok {
        var tail := SoundTys(g, p[1..], a[1..], f.subst);
        q := [head] + tail;
        HeadIsSound(g, p, a, s, head, tail);
      }
    }
  }

  lemma {:induction false} HeadIsSound(g: Program, p: seq<Ty>, a: seq<Ty>, s: Subst, head: Ty, tail: seq<Ty>)
    requires |p| == |a| > 0
    requires var f := Match(g, p[0], a[0], s);
      && f.ok && TySound(g, p[0], head, a[0], s, f)
      && TysSound(g, p[1..], tail, a[1..], f.subst, MatchTys(g, p[1..], a[1..], f.subst))
    ensures TysSound(g, p, [head] + tail, a, s, MatchTys(g, p, a, s))
  {
    var f, r, q := Match(g, p[0], a[0], s), MatchTys(g, p, a, s), [head] + tail;
    KeyTysSplit(g, NO_ENV, a);
    OpenTysSplit(Key(g, a[0]), KeyTys(g, NO_ENV, NO_ENV, a[1..]));
    if r.ok {
      assert q[1..] == tail;
      FillsHead(p, q);
      if PlainTys(g, false, p) {
        TysSplit(p);
        KeptKey(g, f.subst, r.subst, p[0], head);
        KeyTysSplit(g, Keys(g, r.subst), q);
      }
    }
  }

  lemma {:induction false} FillsHead(p: seq<Ty>, q: seq<Ty>)
    requires p != [] && q != []
    ensures FillsTys(p, q) <==> Fills(p[0], q[0]) && FillsTys(p[1..], q[1..])
  {
    if Fills(p[0], q[0]) && FillsTys(p[1..], q[1..]) {
      forall i | 0 <= i < |p| ensures Fills(p[i], q[i]) {
        assert i > 0 ==> Fills(p[1..][i - 1], q[1..][i - 1]);
      }
    }
  }

  lemma {:induction false} TysSplit(p: seq<Ty>)
    requires p != []
    ensures GenericsTys(p) == Generics(p[0]) + GenericsTys(p[1..])
  {
    forall n | n in GenericsTys(p) ensures n in Generics(p[0]) + GenericsTys(p[1..]) {
      var i :| 0 <= i < |p| && n in Generics(p[i]);
      assert i > 0 ==> p[i] == p[1..][i - 1];
    }
    forall n | n in GenericsTys(p[1..]) ensures n in GenericsTys(p) {
      var i :| 0 <= i < |p[1..]| && n in Generics(p[1..][i]);
      assert p[1..][i] == p[i + 1];
    }
  }

  lemma {:induction false} KeyTysSplit(g: Program, e: Env, p: seq<Ty>)
    requires p != []
    ensures KeyTys(g, e, e, p) == [KeyIn(g, e, e, p[0])] + KeyTys(g, e, e, p[1..])
  {
  }

  lemma {:induction false} OpenTysSplit(head: CTy, tail: seq<CTy>)
    ensures OpenTys([head] + tail) <==> Open(head) || OpenTys(tail)
  {
    var ks := [head] + tail;
    assert forall i | 0 <= i < |tail| :: ks[i + 1] == tail[i];
    if OpenTys(tail) {
      var i :| 0 <= i < |tail| && Open(tail[i]);
      assert Open(ks[i + 1]);
    }
    assert Open(head) ==> Open(ks[0]);
  }

  ghost predicate BindingSound(g: Program, p: Binding, q: Binding, a: Binding, s: Subst, r: Outcome) {
    && Extends(s, r.subst)
    && (r.ok ==> FillsBinding(p, q))
    && (r.ok && PlainBinding(g, false, p) ==> GenericsBinding(p) <= r.subst.Keys)
    && (r.ok && PlainBinding(g, false, p) &&
        (PlainBinding(g, true, p) || !OpenBinding(KeyBinding(g, NO_ENV, NO_ENV, a))) ==>
          KeyBinding(g, Keys(g, r.subst), Keys(g, r.subst), q) == KeyBinding(g, NO_ENV, NO_ENV, a))
  }

  lemma {:induction false} SoundBinding(g: Program, p: Binding, a: Binding, s: Subst) returns (q: Binding)
    requires Settling(g)
    ensures BindingSound(g, p, q, a, s, MatchBinding(g, p, a, s))
    decreases p, 0
  {
    q := p;
    if p.name == a.name && p.owner == a.owner && |p.args| == |a.args| && ConstPatternsMatch(g, p.consts, a.consts) {
      var args := SoundTys(g, p.args, a.args, s);
      var f := MatchTys(g, p.args, a.args, s);
      if f.ok {
        var ty := Sound(g, p.ty, a.ty, f.subst);
        FilledConstsFill(p.consts, a.consts);
        q := Binding(p.owner, p.name, args, FilledConsts(p.consts, a.consts), ty);
        var r := MatchBinding(g, p, a, s);
        if r.ok && PlainBinding(g, false, p) {
          KeptKeys(g, f.subst, r.subst, p.args, args);
          SoundConsts(g, Keys(g, r.subst), p.consts, a.consts);
        }
      }
    }
  }

  ghost predicate AnyOpen(g: Program, bs: seq<Binding>) {
    exists i | 0 <= i < |bs| :: OpenBinding(KeyBinding(g, NO_ENV, NO_ENV, bs[i]))
  }

  /** What a successful run over the bindings `p` against the unused part of `a` establishes. */
  ghost predicate BindingsSound(
    g: Program, p: seq<Binding>, q: seq<Binding>, a: seq<Binding>, used: seq<bool>, s: Subst, r: Outcome)
    requires |used| == |a|
  {
    && Extends(s, r.subst)
    && (r.ok ==> FillsBindings(p, q))
    && (r.ok && PlainBindings(g, false, p) ==> GenericsBindings(p) <= r.subst.Keys)
    && (r.ok && PlainBindings(g, false, p) && (PlainBindings(g, true, p) || !AnyOpen(g, a)) ==>
          multiset(FullBindingKeys(g, r.subst, q)) <= Free(KeyBindings(g, NO_ENV, NO_ENV, a), used))
  }

  lemma {:induction false} SoundBindings(g: Program, p: seq<Binding>, a: seq<Binding>, used: seq<bool>, s: Subst)
    returns (q: seq<Binding>)
    requires Settling(g)
    requires |used| == |a|
    ensures BindingsSound(g, p, q, a, used, s, MatchBindings(g, p, a, used, s))
    decreases p, 2, 0
  {
    q := p;
    if p != [] {
      q := SoundTryFrom(g, p, a, used, 0, s);
    }
  }

  lemma {:induction false} SoundTryFrom(
    g: Program, p: seq<Binding>, a: seq<Binding>, used: seq<bool>, j: nat, s: Subst) returns (q: seq<Binding>)
    requires Settling(g)
    requires |used| == |a| && p != [] && j <= |a|
    ensures BindingsSound(g, p, q, a, used, s, TryFrom(g, p, a, used, j, s))
    decreases p, 1, |a| - j
  {
    q := p;
    if j < |a| {
      q := SoundTryFrom(g, p, a, used, j + 1, s);
      if !used[j] {
        var head := SoundBinding(g, p[0], a[j], s);
        var f := MatchBinding(g, p[0], a[j], s);
        if f.ok {
          var tail := SoundBindings(g, p[1..], a, used[j := true], f.subst);
          var rest := MatchBindings(g, p[1..], a, used[j := true], f.subst);
          if rest.ok {
            q := [head] + tail;
            SoundChoice(g, p, q, a, used, j, s, f, rest);
          }
        }
      }
    }
  }

  lemma {:induction false} SoundChoice(
    g: Program, p: seq<Binding>, q: seq<Binding>, a: seq<Binding>, used: seq<bool>, j: nat, s: Subst, f: Outcome,
    rest: Outcome)
    requires |used| == |a| && p != [] && q != [] && j < |a| && !used[j]
    requires BindingSound(g, p[0], q[0], a[j], s, f) && f.ok && rest.ok
    requires BindingsSound(g, p[1..], q[1..], a, used[j := true], f.subst, rest)
    ensures BindingsSound(g, p, q, a, used, s, rest)
  {
    FillsBindingsHead(p, q);
    if PlainBindings(g, false, p) {
      assert PlainBinding(g, false, p[0]) && PlainBindings(g, false, p[1..]);
      BindingsSplit(p);
      var k := Keys(g, rest.subst);
      FilledGenericsBinding(p[0], q[0]);
      KeyDependsOnBoundBinding(g, f.subst.Keys, Keys(g, f.subst), Keys(g, f.subst), k, k, q[0]);
      if PlainBindings(g, true, p) || !AnyOpen(g, a) {
        var mine, theirs := FullBindingKeys(g, rest.subst, q), KeyBindings(g, NO_ENV, NO_ENV, a);
        assert mine[1..] == FullBindingKeys(g, rest.subst, q[1..]);
        assert mine[0] == theirs[j];
        CancelFree(mine, theirs, used, j);
      }
    }
  }

  lemma {:induction false} FillsBindingsHead(p: seq<Binding>, q: seq<Binding>)
    requires p != [] && q != [] && FillsBinding(p[0], q[0]) && FillsBindings(p[1..], q[1..])
    ensures FillsBindings(p, q)
  {
    forall i | 0 <= i < |p| ensures FillsBinding(p[i], q[i]) {
      assert i > 0 ==> FillsBinding(p[1..][i - 1], q[1..][i - 1]);
    }
  }

  lemma {:induction false} BindingsSplit(p: seq<Binding>)
    requires p != []
    ensures GenericsBindings(p) == GenericsBinding(p[0]) + GenericsBindings(p[1..])
  {
    forall n | n in GenericsBindings(p) ensures n in GenericsBinding(p[0]) + GenericsBindings(p[1..]) {
      var i :| 0 <= i < |p| && n in GenericsBinding(p[i]);
      assert i > 0 ==> p[i] == p[1..][i - 1];
    }
    forall n | n in GenericsBindings(p[1..]) ensures n in GenericsBindings(p) {
      var i :| 0 <= i < |p[1..]| && n in GenericsBinding(p[1..][i]);
      assert p[1..][i] == p[i + 1];
    }
  }

  // ---------------------------------------------------------------------------------------------------------------
  // Completeness without trait-object bindings: matching finds an instance exactly when nothing hides it.

  ghost predicate Unsized(k: CTy) {
    k.CForm? && IsPointee(k.tag)
  }

  /** No bindings to search through. */
  predicate Direct(t: Ty)
    decreases t, 0
  {
    match t
    case Pointer(_, elem) => Direct(elem)
    case Array(len, elem) => Direct(elem) && (len.LenBuiltin? ==> Direct(len.operand))
    case Form(_, args, _, bindings) => DirectTys(args) && bindings == []
    case Projection(self, _, args, _, _) => Direct(self) && DirectTys(args)
    case _ => true
  }

  predicate DirectTys(ts: seq<Ty>)
    decreases ts, 0
  {
    forall i | 0 <= i < |ts| :: Direct(ts[i])
  }

  /** A part that matching walks into is a projection. */
  predicate HasProjection(t: Ty)
    decreases t, 0
  {
    match t
    case Pointer(_, elem) => HasProjection(elem)
    case Array(len, elem) => HasProjection(elem) || (len.LenBuiltin? && HasProjection(len.operand))
    case Form(_, args, _, _) => AnyProjection(args)
    case Projection(_, _, _, _, _) => true
    case _ => false
  }

  predicate AnyProjection(ts: seq<Ty>)
    decreases ts, 0
  {
    exists i | 0 <= i < |ts| :: HasProjection(ts[i])
  }

  /** What the solver is asked about the instantiated pattern. */
  ghost function FullQuestion(g: Program, s: Subst, p: Ty): CTy
    requires p.Projection?
  {
    var k := Keys(g, s);
    CProjection(FullKey(g, s, p.self), p.owner, FullKeys(g, s, p.args), KeyConsts(g, k, k, p.consts), p.name)
  }

  /** Nothing hides the instance of the filled pattern `q` from matching: parts whose generics are bound when they are
      reached are instantiated as a whole, and there the chosen const values must make no difference; elsewhere no
      pointer is to an unsized instance, which makes it a fat view, and no projection has an answer, which replaces
      it. */
  ghost predicate Reached(g: Program, target: Subst, p: Ty, q: Ty, bound: set<Sym>)
    requires Fills(p, q)
    decreases p, 0
  {
    if HasGeneric(p) && Bound(p, bound) then FullKey(g, target, q) == FullKey(g, target, p) else
    match p
    case Pointer(_, elem) => !Unsized(FullKey(g, target, q.elem)) && Reached(g, target, elem, q.elem, bound)
    case Array(len, elem) =>
      ReachedLen(g, target, len, q.len, bound) && Reached(g, target, elem, q.elem, bound + GenericsLen(len))
    case Form(_, args, _, _) => ReachedTys(g, target, args, q.args, bound)
    case Projection(self, _, args, _, _) =>
      && g.solve(FullQuestion(g, target, q)).None?
      && Reached(g, target, self, q.self, bound)
      && ReachedTys(g, target, args, q.args, bound + Generics(self))
    case _ => true
  }

  ghost predicate ReachedLen(g: Program, target: Subst, p: Len, q: Len, bound: set<Sym>)
    requires FillsLen(p, q)
    decreases p, 0
  {
    p.LenBuiltin? ==> Reached(g, target, p.operand, q.operand, bound)
  }

  ghost predicate ReachedTys(g: Program, target: Subst, p: seq<Ty>, q: seq<Ty>, bound: set<Sym>)
    requires FillsTys(p, q)
    decreases p, 0
  {
    p == [] ||
    (&& Reached(g, target, p[0], q[0], bound)
     && FillsTys(p[1..], q[1..])
     && ReachedTys(g, target, p[1..], q[1..], bound + Generics(p[0])))
  }

  predicate LenProjects(len: Len) {
    len.LenBuiltin? && HasProjection(len.operand)
  }

  function GenericsLen(len: Len): set<Sym> {
    if len.LenBuiltin? then Generics(len.operand) else {}
  }

  /** What is bound so far is semantically what `target` says. */
  ghost predicate Agrees(g: Program, s: Subst, target: Subst) {
    forall n | n in s :: n in target && Key(g, s[n]) == Key(g, target[n])
  }

  lemma {:induction false} AgreedFullKey(g: Program, p: Ty, s: Subst, target: Subst)
    requires Bound(p, s.Keys) && Agrees(g, s, target)
    ensures FullKey(g, s, p) == FullKey(g, target, p)
  {
    KeyDependsOnBound(g, s.Keys, Keys(g, s), Keys(g, s), Keys(g, target), Keys(g, target), p);
  }

  lemma {:induction false} AgreedKey(g: Program, p: Ty, s: Subst, target: Subst)
    requires Settling(g) && Plain(g, true, p) && Bound(p, s.Keys) && Agrees(g, s, target)
    ensures Key(g, Apply(g, false, s, p)) == FullKey(g, target, p)
  {
    StrictIsPlain(g, p);
    KeyOfApply(g, false, s, p);
    SkippedOperands(g, Keys(g, s), Keys(g, s), p);
    AgreedFullKey(g, p, s, target);
  }

  // ---- The head of a settled type shows in its key.

  lemma {:induction false} StuckHead(g: Program, a: Ty)
    requires Stuck(g, a)
    ensures Headed(g, a)
  {
    if a.Projection? {
      KeyOfStuckProjection(g, a);
      KeyOfStuck(g, a);
    }
    if a.Pointer? {
      KeyOfStuck(g, a.elem);
    }
  }

  /** A pointer is not to an unsized pointee and a projection has no answer. */
  ghost predicate Headed(g: Program, a: Ty) {
    && (a.Pointer? ==> !Unsized(Key(g, a.elem)))
    && (a.Projection? ==> g.solve(Question(g, a)).None?)
  }

  lemma {:induction false} SettledHead(g: Program, t: Ty)
    requires Settling(g)
    ensures Headed(g, Settle(g, t))
    decreases t
  {
    match t
    case Pointer(_, elem) =>
      SettledHead(g, elem);
    case Projection(_, _, _, _, _) =>
      var a := Settle(g, t);
      if !(a.Projection? && g.solve(Question(g, a)).None?) {
        StuckHead(g, a);
      }
    case _ =>
  }

  // ---- Constant arguments.

  lemma {:induction false} CompleteConsts(
    g: Program, e: Env, p: seq<ConstArg>, q: seq<ConstArg>, a: seq<ConstArg>)
    requires Settling(g) && PlainConsts(p) && OfTypes(e) && FillsConsts(p, q)
    requires KeyConsts(g, e, e, q) == KeyConsts(g, NO_ENV, NO_ENV, a)
    ensures ConstPatternsMatch(g, p, a) && GenericsConsts(p) == {}
  {
    FilledConstsArePlain(p, q);
    GenericFreeConstsAreBound(p, {});
    SkippedOperandsConsts(g, e, e, q);
    assert |p| == |q| == |KeyConsts(g, NO_ENV, NO_ENV, q)| == |a|;
    forall i | 0 <= i < |p| ensures ConstPatternMatches(g, p[i], a[i]) {
      assert FillsConst(p[i], q[i]);
      assert KeyConst(g, NO_ENV, NO_ENV, q[i]) == KeyConsts(g, NO_ENV, NO_ENV, a)[i];
      TypesMatchIffKey(g, p[i].ty, a[i].ty);
    }
  }

  // ---- The walk.

  /** If nothing hides the instance it is found, and the generics of the pattern are all that is new. Otherwise matching
      fails, or a projection made it settle for something else. */
  ghost predicate Verdict(
    g: Program, reached: bool, projects: bool, names: set<Sym>, s: Subst, target: Subst, r: Outcome) {
    if reached then r.ok && Agrees(g, r.subst, target) && r.subst.Keys == s.Keys + names
    else r.ok ==> projects
  }

  /** Two steps, the second from where the first left off. */
  lemma {:induction false} BothSteps(
    g: Program, reached: bool, projects: bool, names: set<Sym>, reached': bool, projects': bool, names': set<Sym>,
    s: Subst, target: Subst, l: Outcome, r: Outcome, o: Outcome)
    requires Verdict(g, reached, projects, names, s, target, l)
    requires l.ok && reached ==> Verdict(g, reached', projects', names', l.subst, target, r)
    requires (o.ok <==> l.ok && r.ok) && (o.ok ==> o.subst == r.subst)
    ensures Verdict(g, reached && reached', projects || projects', names + names', s, target, o)
  {
  }

  /** `target` makes the filled pattern `q` the actual type and what is bound so far agrees with it. */
  ghost predicate Fits(g: Program, p: Ty, q: Ty, actual: Ty, s: Subst, target: Subst) {
    && Fills(p, q)
    && Plain(g, true, p)
    && Direct(p)
    && Bound(p, target.Keys)
    && Agrees(g, s, target)
    && FullKey(g, target, q) == Key(g, actual)
  }

  ghost predicate FitTys(g: Program, p: seq<Ty>, q: seq<Ty>, a: seq<Ty>, s: Subst, target: Subst) {
    && |p| == |a|
    && FillsTys(p, q)
    && PlainTys(g, true, p)
    && DirectTys(p)
    && GenericsTys(p) <= target.Keys
    && Agrees(g, s, target)
    && FullKeys(g, target, q) == KeyTys(g, NO_ENV, NO_ENV, a)
  }

  lemma {:induction false} Finds(g: Program, p: Ty, q: Ty, actual: Ty, s: Subst, target: Subst)
    requires Settling(g) && Fits(g, p, q, actual, s, target)
    ensures Verdict(g, Reached(g, target, p, q, s.Keys), HasProjection(p), Generics(p), s, target,
                    Match(g, p, actual, s))
    decreases p, 1
  {
    if HasGeneric(p) && Bound(p, s.Keys) {
      FindsBound(g, p, q, actual, s, target);
    } else {
      match p
      case Pointer(_, _) => FindsPointer(g, p, q, actual, s, target);
      case Array(_, _) => FindsArray(g, p, q, actual, s, target);
      case Form(_, args, _, _) => FindsForm(g, p, q, actual, s, target);
      case Projection(_, _, _, _, _) => FindsProjection(g, p, q, actual, s, target);
      case _ =>
        KeyOfSettle(g, actual);
        TypesMatchIffKey(g, p, Settle(g, actual));
    }
  }

  lemma {:induction false} FindsBound(g: Program, p: Ty, q: Ty, actual: Ty, s: Subst, target: Subst)
    requires Settling(g) && Fits(g, p, q, actual, s, target) && HasGeneric(p) && Bound(p, s.Keys)
    ensures Match(g, p, actual, s) == Outcome(FullKey(g, target, q) == FullKey(g, target, p), s)
    ensures s.Keys == s.Keys + Generics(p)
  {
    KeyOfSettle(g, actual);
    AgreedKey(g, p, s, target);
    TypesMatchIffKey(g, Apply(g, false, s, p), Settle(g, actual));
  }

  lemma {:induction false} FindsPointer(g: Program, p: Ty, q: Ty, actual: Ty, s: Subst, target: Subst)
    requires Settling(g) && p.Pointer? && Fits(g, p, q, actual, s, target) && !(HasGeneric(p) && Bound(p, s.Keys))
    ensures Verdict(g, Reached(g, target, p, q, s.Keys), HasProjection(p), Generics(p), s, target,
                    Match(g, p, actual, s))
    decreases p, 0
  {
    var a := Settle(g, actual);
    KeyOfSettle(g, actual);
    SettledHead(g, actual);
    if !Unsized(FullKey(g, target, q.elem)) {
      Finds(g, p.elem, q.elem, a.elem, s, target);
    }
  }

  lemma {:induction false} ArrayShape(g: Program, q: Ty, actual: Ty, target: Subst)
    requires Settling(g) && q.Array? && FullKey(g, target, q) == Key(g, actual)
    ensures var a := Settle(g, actual);
      && a.Array?
      && KeyLen(g, Keys(g, target), Keys(g, target), q.len) == KeyLen(g, NO_ENV, NO_ENV, a.len)
      && FullKey(g, target, q.elem) == Key(g, a.elem)
  {
    KeyOfSettle(g, actual);
    SettledHead(g, actual);
  }

  lemma {:induction false} FindsArray(g: Program, p: Ty, q: Ty, actual: Ty, s: Subst, target: Subst)
    requires Settling(g) && p.Array? && Fits(g, p, q, actual, s, target) && !(HasGeneric(p) && Bound(p, s.Keys))
    ensures Verdict(g, Reached(g, target, p, q, s.Keys), HasProjection(p), Generics(p), s, target,
                    Match(g, p, actual, s))
    decreases p, 0
  {
    var a := Settle(g, actual);
    ArrayShape(g, q, actual, target);
    FindsLen(g, p.len, q.len, a.len, s, target);
    var l := MatchLen(g, p.len, a.len, s);
    var e := Match(g, p.elem, a.elem, l.subst);
    if l.ok && ReachedLen(g, target, p.len, q.len, s.Keys) {
      Finds(g, p.elem, q.elem, a.elem, l.subst, target);
    }
    BothSteps(g, ReachedLen(g, target, p.len, q.len, s.Keys), LenProjects(p.len), GenericsLen(p.len),
              Reached(g, target, p.elem, q.elem, s.Keys + GenericsLen(p.len)), HasProjection(p.elem), Generics(p.elem),
              s, target, l, e, Match(g, p, actual, s));
  }

  lemma {:induction false} FindsLen(g: Program, p: Len, q: Len, a: Len, s: Subst, target: Subst)
    requires Settling(g) && PlainLen(g, true, p) && Agrees(g, s, target) && FillsLen(p, q)
    requires p.LenBuiltin? ==> Direct(p.operand) && Bound(p.operand, target.Keys)
    requires KeyLen(g, Keys(g, target), Keys(g, target), q) == KeyLen(g, NO_ENV, NO_ENV, a)
    ensures Verdict(g, ReachedLen(g, target, p, q, s.Keys), LenProjects(p), GenericsLen(p), s, target,
      MatchLen(g, p, a, s))
    decreases p, 0
  {
    if p.LenBuiltin? {
      Finds(g, p.operand, q.operand, a.operand, s, target);
    }
  }

  lemma {:induction false} FormShape(g: Program, p: Ty, q: Ty, actual: Ty, target: Subst)
    requires Settling(g) && p.Form? && Fills(p, q) && p.bindings == [] && PlainConsts(p.consts)
    requires FullKey(g, target, q) == Key(g, actual)
    ensures var a := Settle(g, actual);
      && a.Form? && a.tag == p.tag && |a.args| == |p.args| && a.bindings == []
      && ConstPatternsMatch(g, p.consts, a.consts) && GenericsConsts(p.consts) == {}
      && FullKeys(g, target, q.args) == KeyTys(g, NO_ENV, NO_ENV, a.args)
  {
    var a, k := Settle(g, actual), Keys(g, target);
    KeyOfSettle(g, actual);
    SettledHead(g, actual);
    CompleteConsts(g, k, p.consts, q.consts, a.consts);
    assert |p.args| == |q.args| == |FullKeys(g, target, q.args)| == |KeyTys(g, NO_ENV, NO_ENV, a.args)| == |a.args|;
    assert KeyBindings(g, k, k, q.bindings) == [];
    assert |multiset(KeyBindings(g, NO_ENV, NO_ENV, a.bindings))| == |a.bindings|;
  }

  lemma {:induction false} FormWalk(g: Program, p: Ty, actual: Ty, s: Subst)
    requires p.Form? && p.bindings == [] && !(HasGeneric(p) && Bound(p, s.Keys))
    requires var a := Settle(g, actual);
      && a.Form? && a.tag == p.tag && |a.args| == |p.args| && a.bindings == []
      && ConstPatternsMatch(g, p.consts, a.consts)
    ensures Match(g, p, actual, s) == MatchTys(g, p.args, Settle(g, actual).args, s)
  {
  }

  lemma {:induction false} FindsForm(g: Program, p: Ty, q: Ty, actual: Ty, s: Subst, target: Subst)
    requires Settling(g) && p.Form? && Fits(g, p, q, actual, s, target) && !(HasGeneric(p) && Bound(p, s.Keys))
    ensures Verdict(g, Reached(g, target, p, q, s.Keys), HasProjection(p), Generics(p), s, target,
                    Match(g, p, actual, s))
    decreases p, 0
  {
    FormShape(g, p, q, actual, target);
    FormWalk(g, p, actual, s);
    FindsTys(g, p.args, q.args, Settle(g, actual).args, s, target);
    assert GenericsBindings(p.bindings) == {};
    assert Generics(p) == GenericsTys(p.args);
  }

  lemma {:induction false} FindsProjection(g: Program, p: Ty, q: Ty, actual: Ty, s: Subst, target: Subst)
    requires Settling(g) && p.Projection? && Fits(g, p, q, actual, s, target) && !(HasGeneric(p) && Bound(p, s.Keys))
    ensures Verdict(g, Reached(g, target, p, q, s.Keys), HasProjection(p), Generics(p), s, target,
                    Match(g, p, actual, s))
    decreases p, 0
  {
    if g.solve(FullQuestion(g, target, q)).None? {
      FindsStuckProjection(g, p, q, actual, s, target);
    }
  }

  lemma {:induction false} ProjectionShape(g: Program, p: Ty, q: Ty, actual: Ty, target: Subst)
    requires Settling(g) && p.Projection? && Fills(p, q) && PlainConsts(p.consts)
    requires FullKey(g, target, q) == Key(g, actual) && g.solve(FullQuestion(g, target, q)).None?
    ensures var a := Settle(g, actual);
      && ProjectionsAlike(g, p, a) && GenericsConsts(p.consts) == {}
      && FullKey(g, target, q.self) == Key(g, a.self)
      && FullKeys(g, target, q.args) == KeyTys(g, NO_ENV, NO_ENV, a.args)
  {
    var a, k := Settle(g, actual), Keys(g, target);
    KeyOfSettle(g, actual);
    SettledHead(g, actual);
    assert Key(g, a) == FullQuestion(g, target, q);
    CompleteConsts(g, k, p.consts, q.consts, a.consts);
    assert |p.args| == |q.args| == |FullKeys(g, target, q.args)| == |KeyTys(g, NO_ENV, NO_ENV, a.args)| == |a.args|;
  }

  /** A projection pattern is walked in two steps. */
  lemma {:induction false} ProjectionSteps(g: Program, p: Ty, actual: Ty, s: Subst)
    requires p.Projection? && !(HasGeneric(p) && Bound(p, s.Keys)) && GenericsConsts(p.consts) == {}
    requires ProjectionsAlike(g, p, Settle(g, actual))
    ensures var a := Settle(g, actual);
      var f := Match(g, p.self, a.self, s);
      Match(g, p, actual, s) == if f.ok then MatchTys(g, p.args, a.args, f.subst) else f
    ensures Generics(p) == Generics(p.self) + GenericsTys(p.args)
  {
  }

  lemma {:induction false} FindsStuckProjection(g: Program, p: Ty, q: Ty, actual: Ty, s: Subst, target: Subst)
    requires Settling(g) && p.Projection? && Fits(g, p, q, actual, s, target) && !(HasGeneric(p) && Bound(p, s.Keys))
    requires g.solve(FullQuestion(g, target, q)).None?
    ensures Verdict(g, Reached(g, target, p, q, s.Keys), HasProjection(p), Generics(p), s, target,
                    Match(g, p, actual, s))
    decreases p, 0, 0
  {
    var a := Settle(g, actual);
    ProjectionShape(g, p, q, actual, target);
    ProjectionSteps(g, p, actual, s);
    Finds(g, p.self, q.self, a.self, s, target);
    var f := Match(g, p.self, a.self, s);
    var r := MatchTys(g, p.args, a.args, f.subst);
    if f.ok && Reached(g, target, p.self, q.self, s.Keys) {
      FindsTys(g, p.args, q.args, a.args, f.subst, target);
    }
    BothSteps(g, Reached(g, target, p.self, q.self, s.Keys), HasProjection(p.self), Generics(p.self),
              ReachedTys(g, target, p.args, q.args, s.Keys + Generics(p.self)), AnyProjection(p.args),
              GenericsTys(p.args), s, target, f, r, Match(g, p, actual, s));
  }

  lemma {:induction false} FindsTys(g: Program, p: seq<Ty>, q: seq<Ty>, a: seq<Ty>, s: Subst, target: Subst)
    requires Settling(g) && FitTys(g, p, q, a, s, target)
    ensures Verdict(g, ReachedTys(g, target, p, q, s.Keys), AnyProjection(p), GenericsTys(p), s, target,
                    MatchTys(g, p, a, s))
    decreases p, 0
  {
    if p != [] {
      TysSplit(p);
      FillsHead(p, q);
      KeyTysSplit(g, Keys(g, target), q);
      KeyTysSplit(g, NO_ENV, a);
      assert FullKeys(g, target, q)[1..] == FullKeys(g, target, q[1..]);
      assert KeyTys(g, NO_ENV, NO_ENV, a)[1..] == KeyTys(g, NO_ENV, NO_ENV, a[1..]);
      assert FullKeys(g, target, q)[0] == KeyTys(g, NO_ENV, NO_ENV, a)[0];
      Finds(g, p[0], q[0], a[0], s, target);
      var f := Match(g, p[0], a[0], s);
      var r := MatchTys(g, p[1..], a[1..], f.subst);
      if f.ok && Reached(g, target, p[0], q[0], s.Keys) {
        FindsTys(g, p[1..], q[1..], a[1..], f.subst, target);
      }
      BothSteps(g, Reached(g, target, p[0], q[0], s.Keys), HasProjection(p[0]), Generics(p[0]),
                ReachedTys(g, target, p[1..], q[1..], s.Keys + Generics(p[0])), AnyProjection(p[1..]),
                GenericsTys(p[1..]), s, target, f, r, MatchTys(g, p, a, s));
      assert AnyProjection(p) <==> HasProjection(p[0]) || AnyProjection(p[1..]);
    } else {
      assert GenericsTys(p) == {};
    }
  }

  // ---- What was found was in the open.

  /** The instance of the filled pattern `q` is the actual type and nothing hides it. */
  ghost predicate Shown(g: Program, p: Ty, q: Ty, actual: Ty, s: Subst, target: Subst) {
    && Fills(p, q) && FullKey(g, target, q) == Key(g, actual) && Reached(g, target, p, q, s.Keys)
  }

  ghost predicate ShownTys(g: Program, p: seq<Ty>, q: seq<Ty>, a: seq<Ty>, s: Subst, target: Subst) {
    && FillsTys(p, q) && FullKeys(g, target, q) == KeyTys(g, NO_ENV, NO_ENV, a) && ReachedTys(g, target, p, q, s.Keys)
  }

  /** A direct pattern that matched, with a substitution that agrees with `target`. */
  ghost predicate Found(g: Program, p: Ty, actual: Ty, s: Subst, target: Subst) {
    var r := Match(g, p, actual, s);
    Plain(g, true, p) && Direct(p) && r.ok && Agrees(g, r.subst, target)
  }

  lemma {:induction false} FoundIsShown(g: Program, p: Ty, actual: Ty, s: Subst, target: Subst) returns (q: Ty)
    requires Settling(g) && Found(g, p, actual, s, target)
    ensures Shown(g, p, q, actual, s, target)
    ensures Extends(s, Match(g, p, actual, s).subst) && Match(g, p, actual, s).subst.Keys == s.Keys + Generics(p)
    decreases p, 1
  {
    if HasGeneric(p) && Bound(p, s.Keys) {
      q := p;
      FoundBound(g, p, actual, s, target);
    } else {
      match p
      case Pointer(_, _) => q := FoundPointer(g, p, actual, s, target);
      case Array(_, _) => q := FoundArray(g, p, actual, s, target);
      case Form(_, args, _, _) => q := FoundForm(g, p, actual, s, target);
      case Projection(_, _, _, _, _) => q := FoundProjection(g, p, actual, s, target);
      case _ =>
        q := p;
        FoundLeaf(g, p, actual, s, target);
    }
  }

  lemma {:induction false} FoundBound(g: Program, p: Ty, actual: Ty, s: Subst, target: Subst)
    requires Settling(g) && Found(g, p, actual, s, target) && HasGeneric(p) && Bound(p, s.Keys)
    ensures Shown(g, p, p, actual, s, target)
    ensures Match(g, p, actual, s).subst == s && s.Keys == s.Keys + Generics(p)
  {
    FillsSelf(p);
    KeyOfSettle(g, actual);
    AgreedKey(g, p, s, target);
    TypesMatchIffKey(g, Apply(g, false, s, p), Settle(g, actual));
  }

  lemma {:induction false} FoundLeaf(g: Program, p: Ty, actual: Ty, s: Subst, target: Subst)
    requires Settling(g) && Found(g, p, actual, s, target) && !(HasGeneric(p) && Bound(p, s.Keys))
    requires p.Generic? || p.Atom? || p.SelfParam?
    ensures Shown(g, p, p, actual, s, target)
    ensures Extends(s, Match(g, p, actual, s).subst) && Match(g, p, actual, s).subst.Keys == s.Keys + Generics(p)
  {
    KeyOfSettle(g, actual);
    if p.Generic? {
      assert Keys(g, target).types[p.name] == Key(g, Settle(g, actual));
    } else {
      TypesMatchIffKey(g, p, Settle(g, actual));
    }
  }

  lemma {:induction false} FoundPointer(g: Program, p: Ty, actual: Ty, s: Subst, target: Subst) returns (q: Ty)
    requires Settling(g) && p.Pointer? && Found(g, p, actual, s, target) && !(HasGeneric(p) && Bound(p, s.Keys))
    ensures Shown(g, p, q, actual, s, target)
    ensures Extends(s, Match(g, p, actual, s).subst) && Match(g, p, actual, s).subst.Keys == s.Keys + Generics(p)
    decreases p, 0
  {
    var a := Settle(g, actual);
    KeyOfSettle(g, actual);
    SettledHead(g, actual);
    var elem := FoundIsShown(g, p.elem, a.elem, s, target);
    q := Pointer(p.readonly, elem);
  }

  lemma {:induction false} FoundArray(g: Program, p: Ty, actual: Ty, s: Subst, target: Subst) returns (q: Ty)
    requires Settling(g) && p.Array? && Found(g, p, actual, s, target) && !(HasGeneric(p) && Bound(p, s.Keys))
    ensures Shown(g, p, q, actual, s, target)
    ensures Extends(s, Match(g, p, actual, s).subst) && Match(g, p, actual, s).subst.Keys == s.Keys + Generics(p)
    decreases p, 0
  {
    var a := Settle(g, actual);
    KeyOfSettle(g, actual);
    ArrayWalk(g, p, actual, s);
    var l := MatchLen(g, p.len, a.len, s);
    ExtendsBack(g, p.elem, a.elem, l.subst, target);
    var elem := FoundIsShown(g, p.elem, a.elem, l.subst, target);
    var len := FoundLen(g, p.len, a.len, s, target);
    q := Array(len, elem);
    ArrayIsShown(g, p, q, a, s.Keys, l.subst.Keys, target);
  }

  lemma {:induction false} ArrayWalk(g: Program, p: Ty, actual: Ty, s: Subst)
    requires p.Array? && !(HasGeneric(p) && Bound(p, s.Keys)) && Match(g, p, actual, s).ok
    ensures var a := Settle(g, actual);
      && a.Array? && MatchLen(g, p.len, a.len, s).ok
      && Match(g, p, actual, s) == Match(g, p.elem, a.elem, MatchLen(g, p.len, a.len, s).subst)
  {
  }

  lemma {:induction false} ArrayIsShown(
    g: Program, p: Ty, q: Ty, a: Ty, bound: set<Sym>, walked: set<Sym>, target: Subst)
    requires p.Array? && q.Array? && a.Array? && !(HasGeneric(p) && Bound(p, bound))
    requires FillsLen(p.len, q.len) && Fills(p.elem, q.elem) && walked == bound + GenericsLen(p.len)
    requires ReachedLen(g, target, p.len, q.len, bound) && Reached(g, target, p.elem, q.elem, walked)
    requires KeyLen(g, Keys(g, target), Keys(g, target), q.len) == KeyLen(g, NO_ENV, NO_ENV, a.len)
    requires FullKey(g, target, q.elem) == Key(g, a.elem)
    ensures Fills(p, q) && FullKey(g, target, q) == Key(g, a) && Reached(g, target, p, q, bound)
    ensures Generics(p) == GenericsLen(p.len) + Generics(p.elem)
  {
  }

  /** What is bound before a step that agrees with `target` agrees with it. */
  lemma {:induction false} ExtendsBack(g: Program, p: Ty, actual: Ty, s: Subst, target: Subst)
    requires Settling(g) && Agrees(g, Match(g, p, actual, s).subst, target)
    ensures Agrees(g, s, target)
  {
    var q := Sound(g, p, actual, s);
  }

  lemma {:induction false} FoundLen(g: Program, p: Len, a: Len, s: Subst, target: Subst) returns (q: Len)
    requires Settling(g) && PlainLen(g, true, p) && (p.LenBuiltin? ==> Direct(p.operand))
    requires MatchLen(g, p, a, s).ok && Agrees(g, MatchLen(g, p, a, s).subst, target)
    ensures FillsLen(p, q) && ReachedLen(g, target, p, q, s.Keys)
    ensures KeyLen(g, Keys(g, target), Keys(g, target), q) == KeyLen(g, NO_ENV, NO_ENV, a)
    ensures var l := MatchLen(g, p, a, s); Extends(s, l.subst) && l.subst.Keys == s.Keys + GenericsLen(p)
    decreases p, 0
  {
    q := p;
    if p.LenBuiltin? && a.LenBuiltin? && p.op == a.op {
      var operand := FoundIsShown(g, p.operand, a.operand, s, target);
      q := LenBuiltin(p.op, operand);
    } else {
      FillsSelfLen(p);
      if p.LenBuiltin? {
        assert false;
      }
    }
  }

  lemma {:induction false} FoundForm(g: Program, p: Ty, actual: Ty, s: Subst, target: Subst) returns (q: Ty)
    requires Settling(g) && p.Form? && Found(g, p, actual, s, target) && !(HasGeneric(p) && Bound(p, s.Keys))
    ensures Shown(g, p, q, actual, s, target)
    ensures Extends(s, Match(g, p, actual, s).subst) && Match(g, p, actual, s).subst.Keys == s.Keys + Generics(p)
    decreases p, 0
  {
    var a := Settle(g, actual);
    KeyOfSettle(g, actual);
    FormWalk(g, p, actual, s);
    var args := FoundTys(g, p.args, a.args, s, target);
    FilledConstsFill(p.consts, a.consts);
    SoundConsts(g, Keys(g, target), p.consts, a.consts);
    q := Form(p.tag, args, FilledConsts(p.consts, a.consts), []);
    assert GenericsBindings(p.bindings) == {};
    assert KeyBindings(g, Keys(g, target), Keys(g, target), []) == KeyBindings(g, NO_ENV, NO_ENV, a.bindings);
  }

  lemma {:induction false} FoundProjection(g: Program, p: Ty, actual: Ty, s: Subst, target: Subst) returns (q: Ty)
    requires Settling(g) && p.Projection? && Found(g, p, actual, s, target) && !(HasGeneric(p) && Bound(p, s.Keys))
    ensures Shown(g, p, q, actual, s, target)
    ensures Extends(s, Match(g, p, actual, s).subst) && Match(g, p, actual, s).subst.Keys == s.Keys + Generics(p)
    decreases p, 0
  {
    var a := Settle(g, actual);
    KeyOfSettle(g, actual);
    SettledHead(g, actual);
    FilledConstsFill(p.consts, a.consts);
    SoundConsts(g, Keys(g, target), p.consts, a.consts);
    ProjectionSteps(g, p, actual, s);
    var f := Match(g, p.self, a.self, s);
    ExtendsBackTys(g, p.args, a.args, f.subst, target);
    var self := FoundIsShown(g, p.self, a.self, s, target);
    var args := FoundTys(g, p.args, a.args, f.subst, target);
    q := Projection(self, p.owner, args, FilledConsts(p.consts, a.consts), p.name);
    assert FullQuestion(g, target, q) == Question(g, a);
  }

  lemma {:induction false} ExtendsBackTys(g: Program, p: seq<Ty>, a: seq<Ty>, s: Subst, target: Subst)
    requires Settling(g) && |p| == |a| && Agrees(g, MatchTys(g, p, a, s).subst, target)
    ensures Agrees(g, s, target)
  {
    var q := SoundTys(g, p, a, s);
  }

  lemma {:induction false} FoundTys(g: Program, p: seq<Ty>, a: seq<Ty>, s: Subst, target: Subst) returns (q: seq<Ty>)
    requires Settling(g) && |p| == |a| && PlainTys(g, true, p) && DirectTys(p)
    requires MatchTys(g, p, a, s).ok && Agrees(g, MatchTys(g, p, a, s).subst, target)
    ensures ShownTys(g, p, q, a, s, target)
    ensures var r := MatchTys(g, p, a, s); Extends(s, r.subst) && r.subst.Keys == s.Keys + GenericsTys(p)
    decreases p, 0
  {
    if p == [] {
      q := [];
      assert GenericsTys(p) == {};
    } else {
      var f := Match(g, p[0], a[0], s);
      ExtendsBackTys(g, p[1..], a[1..], f.subst, target);
      var head := FoundIsShown(g, p[0], a[0], s, target);
      var tail := FoundTys(g, p[1..], a[1..], f.subst, target);
      q := [head] + tail;
      assert q[1..] == tail;
      TysSplit(p);
      FillsHead(p, q);
      KeyTysSplit(g, Keys(g, target), q);
      KeyTysSplit(g, NO_ENV, a);
    }
  }

  // ---------------------------------------------------------------------------------------------------------------
  // Main results, for every solver whose answers need no further instantiation.

  /** `q` is the pattern with its open const values chosen, and instantiating it gives a type semantically equal to the
      actual one. */
  ghost predicate Chosen(g: Program, full: bool, p: Ty, q: Ty, actual: Ty, s: Subst) {
    Fills(p, q) && TypesMatch(g, Apply(g, full, s, q), actual)
  }

  /** Success on a strictly plain pattern: nothing is overwritten, every generic is bound, and for some choice of a
      value at each open const position instantiating the pattern gives a type semantically equal to the actual one,
      bindings paired by backtracking included. */
  lemma {:induction false} MatchIsSound(g: Program, p: Ty, actual: Ty, s: Subst)
    requires Settling(g) && Plain(g, true, p)
    ensures var r := Match(g, p, actual, s);
      && Extends(s, r.subst)
      && (r.ok ==> Bound(p, r.subst.Keys) && exists q :: Chosen(g, false, p, q, actual, r.subst))
  {
    var r := Match(g, p, actual, s);
    StrictIsPlain(g, p);
    var q := Sound(g, p, actual, s);
    if r.ok {
      FilledIsStrict(g, p, q);
      StrictIsPlain(g, q);
      KeyOfApply(g, false, r.subst, q);
      SkippedOperands(g, Keys(g, r.subst), Keys(g, r.subst), q);
      TypesMatchIffKey(g, Apply(g, false, r.subst, q), actual);
      assert Chosen(g, false, p, q, actual, r.subst);
    }
  }

  /** A pattern without open const values has no choice. */
  lemma {:induction false} ClosedMatchIsSound(g: Program, p: Ty, actual: Ty, s: Subst)
    requires Settling(g) && Plain(g, true, p) && Closed(p) && Match(g, p, actual, s).ok
    ensures TypesMatch(g, Apply(g, false, Match(g, p, actual, s).subst, p), actual)
  {
    MatchIsSound(g, p, actual, s);
    var q :| Chosen(g, false, p, q, actual, Match(g, p, actual, s).subst);
    ClosedIsFilled(p, q);
  }

  /** Against an actual type without generics, a successful match is always right about the full substitution for some
      choice of the open const values. Without any, what the compiler's instantiation gives is the actual type exactly
      when no builtin-length operand of the pattern holds a generic. */
  lemma {:induction false} MatchAgainstConcrete(g: Program, p: Ty, actual: Ty, s: Subst)
    requires Settling(g) && Concrete(g) && Plain(g, false, p) && !HasGeneric(actual)
    requires Match(g, p, actual, s).ok
    ensures var r := Match(g, p, actual, s);
      && (exists q :: Chosen(g, true, p, q, actual, r.subst))
      && (Closed(p) ==> (TypesMatch(g, Apply(g, false, r.subst, p), actual) <==> Plain(g, true, p)))
  {
    var r := Match(g, p, actual, s);
    ClosedKey(g, actual);
    var q := Sound(g, p, actual, s);
    KeyOfApply(g, true, r.subst, q);
    TypesMatchIffKey(g, Apply(g, true, r.subst, q), actual);
    assert Chosen(g, true, p, q, actual, r.subst);
    if Closed(p) {
      ClosedIsFilled(p, q);
      KeyOfApply(g, false, r.subst, p);
      TypesMatchIffKey(g, Apply(g, false, r.subst, p), actual);
      SkippedOperands(g, Keys(g, r.subst), Keys(g, r.subst), p);
    }
  }

  /** Every binding is one of `target`, up to semantic equality. */
  ghost predicate Within(g: Program, s: Subst, target: Subst) {
    forall n | n in s :: n in target && TypesMatch(g, s[n], target[n])
  }

  /** `target` makes the chosen instance `q` of the pattern the actual type, and nothing hides it from matching. */
  ghost predicate InTheOpen(g: Program, p: Ty, q: Ty, actual: Ty, s: Subst, target: Subst) {
    Chosen(g, false, p, q, actual, target) && Reached(g, target, p, q, s.Keys)
  }

  /** Matching a direct pattern finds an extension of the substitution if and only if, for some choice of a value at
      each open const position, that extension instantiates the pattern to the actual type and nothing hides it. A
      pattern without projections then matches at all under the same condition, whatever the choice. */
  lemma {:induction false} MatchIsComplete(g: Program, p: Ty, actual: Ty, s: Subst, target: Subst)
    requires Settling(g) && Plain(g, true, p) && Direct(p)
    requires Extends(s, target) && Bound(p, target.Keys)
    ensures var r := Match(g, p, actual, s);
      && (r.ok && Within(g, r.subst, target) <==> exists q :: InTheOpen(g, p, q, actual, s, target))
      && (r.ok && Within(g, r.subst, target) ==> r.subst.Keys == s.Keys + Generics(p))
      && (!HasProjection(p) ==> forall q | Chosen(g, false, p, q, actual, target) ::
            r.ok <==> InTheOpen(g, p, q, actual, s, target))
  {
    var r := Match(g, p, actual, s);
    if r.ok && Within(g, r.subst, target) {
      var q := FoundIsChosen(g, p, actual, s, target);
    }
    forall q | Chosen(g, false, p, q, actual, target)
      ensures InTheOpen(g, p, q, actual, s, target) ==> r.ok && Within(g, r.subst, target)
      ensures !HasProjection(p) ==> (r.ok <==> InTheOpen(g, p, q, actual, s, target))
    {
      ChosenIsFound(g, p, q, actual, s, target);
    }
  }

  lemma {:induction false} FoundIsChosen(g: Program, p: Ty, actual: Ty, s: Subst, target: Subst) returns (q: Ty)
    requires Settling(g) && Plain(g, true, p) && Direct(p) && Bound(p, target.Keys)
    requires var r := Match(g, p, actual, s); r.ok && Within(g, r.subst, target)
    ensures InTheOpen(g, p, q, actual, s, target)
    ensures Match(g, p, actual, s).subst.Keys == s.Keys + Generics(p)
  {
    WithinIffAgrees(g, Match(g, p, actual, s).subst, target);
    q := FoundIsShown(g, p, actual, s, target);
    ChosenIffKey(g, p, q, actual, target);
  }

  lemma {:induction false} ChosenIsFound(g: Program, p: Ty, q: Ty, actual: Ty, s: Subst, target: Subst)
    requires Settling(g) && Plain(g, true, p) && Direct(p) && Extends(s, target) && Bound(p, target.Keys)
    requires Chosen(g, false, p, q, actual, target)
    ensures var r := Match(g, p, actual, s);
      && (InTheOpen(g, p, q, actual, s, target) ==> r.ok && Within(g, r.subst, target))
      && (!HasProjection(p) ==> (r.ok <==> InTheOpen(g, p, q, actual, s, target)))
  {
    ChosenFits(g, p, q, actual, s, target);
    Finds(g, p, q, actual, s, target);
    VerdictMeans(g, Reached(g, target, p, q, s.Keys), HasProjection(p), Generics(p), s, target, Match(g, p, actual, s));
  }

  lemma {:induction false} ChosenFits(g: Program, p: Ty, q: Ty, actual: Ty, s: Subst, target: Subst)
    requires Settling(g) && Plain(g, true, p) && Direct(p) && Extends(s, target) && Bound(p, target.Keys)
    requires Chosen(g, false, p, q, actual, target)
    ensures Fits(g, p, q, actual, s, target)
  {
    ChosenIffKey(g, p, q, actual, target);
  }

  lemma {:induction false} VerdictMeans(
    g: Program, reached: bool, projects: bool, names: set<Sym>, s: Subst, target: Subst, r: Outcome)
    requires Settling(g) && Verdict(g, reached, projects, names, s, target, r)
    ensures reached ==> r.ok && Within(g, r.subst, target)
    ensures !projects ==> (r.ok <==> reached)
  {
    WithinIffAgrees(g, r.subst, target);
  }

  lemma {:induction false} WithinIffAgrees(g: Program, s: Subst, target: Subst)
    requires Settling(g)
    ensures Within(g, s, target) <==> Agrees(g, s, target)
  {
    forall n | n in s && n in target
      ensures TypesMatch(g, s[n], target[n]) <==> Key(g, s[n]) == Key(g, target[n])
    {
      TypesMatchIffKey(g, s[n], target[n]);
    }
  }

  lemma {:induction false} ChosenIffKey(g: Program, p: Ty, q: Ty, actual: Ty, target: Subst)
    requires Settling(g) && Plain(g, true, p) && Bound(p, target.Keys) && Fills(p, q)
    ensures Chosen(g, false, p, q, actual, target) <==> FullKey(g, target, q) == Key(g, actual)
  {
    FilledIsStrict(g, p, q);
    FilledGenerics(p, q);
    AgreedKey(g, q, target, target);
    TypesMatchIffKey(g, Apply(g, false, target, q), actual);
  }

  /** The array `[T; sizeof T]` against `[u; sizeof u]`: matching succeeds, the instantiated pattern differs. */
  lemma {:induction false} GenericLengthIsNotInstantiated(g: Program, op: nat, name: Sym, atom: nat)
    requires Settling(g) && Concrete(g)
    ensures
      var p, actual := Array(LenBuiltin(op, Generic(name)), Generic(name)),
        Array(LenBuiltin(op, Atom(atom)), Atom(atom));
      var r := Match(g, p, actual, map[]);
      r.ok && !TypesMatch(g, Apply(g, false, r.subst, p), actual)
  {
    var p, actual := Array(LenBuiltin(op, Generic(name)), Generic(name)), Array(LenBuiltin(op, Atom(atom)), Atom(atom));
    TypesMatchIffKey(g, Atom(atom), Atom(atom));
    var l := MatchLen(g, p.len, actual.len, map[]);
    assert l == Match(g, Generic(name), Atom(atom), map[]) == Outcome(true, map[name := Atom(atom)]);
    assert Match(g, Generic(name), Atom(atom), l.subst) == l;
    assert Match(g, p, actual, map[]) == l;
    assert Closed(p);
    MatchAgainstConcrete(g, p, actual, map[]);
  }

  /** The pointer `*T` and the slice that `T := [u]` instantiates it to: missed while `T` is unbound, found once it is
      bound. */
  lemma {:induction false} UnsizedGenericIsMissed(g: Program, name: Sym, atom: nat, readonly: bool)
    requires Settling(g)
    ensures
      var p, target := Pointer(readonly, Generic(name)), map[name := Form(SlicePointee, [Atom(atom)], [], [])];
      var actual := Apply(g, false, target, p);
      !Match(g, p, actual, map[]).ok && Match(g, p, actual, target).ok
  {
    var p, target := Pointer(readonly, Generic(name)), map[name := Form(SlicePointee, [Atom(atom)], [], [])];
    var actual := Apply(g, false, target, p);
    TypesMatchIffKey(g, actual, actual);
    assert Generics(p) == {name} && Bound(p, target.Keys) && HasGeneric(p);
    assert Unsized(Keys(g, target).types[name]);
    assert Fills(p, p) && Chosen(g, false, p, p, actual, target);
    assert !Reached(g, target, p, p, {}) && Reached(g, target, p, p, target.Keys);
    var none: Subst := map[];
    assert !InTheOpen(g, p, p, actual, none, target) && InTheOpen(g, p, p, actual, target, target);
    MatchIsComplete(g, p, actual, none, target);
    MatchIsComplete(g, p, actual, target, target);
  }

  /** `Buf[args, value]`. */
  function Buffer(def: nat, args: seq<Ty>, value: ConstValue): Ty {
    Form(Nominal(def), args, [ConstArg(Atom(0), value)], [])
  }

  /** Nothing of a list without types is generic. */
  lemma {:induction false} PlainValue(value: ConstValue)
    ensures var cs := [ConstArg(Atom(0), value)];
      !AnyConst(cs) && GenericsConsts(cs) == {} && PlainConsts(cs)
  {
    var cs := [ConstArg(Atom(0), value)];
    forall i | 0 <= i < |cs| ensures !ConstGeneric(cs[i]) && GenericsConst(cs[i]) == {} {
      assert cs[i] == ConstArg(Atom(0), value);
    }
  }

  lemma {:induction false} BufferIsPlain(g: Program, def: nat, value: ConstValue)
    ensures var p := Buffer(def, [], value);
      !HasGeneric(p) && Generics(p) == {} && Plain(g, true, p) && Direct(p) && !HasProjection(p)
  {
    var p := Buffer(def, [], value);
    PlainValue(value);
    assert !AnyGeneric(p.args) && !AnyBinding(p.bindings) && !AnyProjection(p.args);
    assert GenericsTys(p.args) == {} && GenericsBindings(p.bindings) == {};
  }

  /** `Buf[N]` matches `Buf[v]` for every value `v`. */
  lemma {:induction false} OpenValueMatches(g: Program, def: nat, size: Sym, value: ConstValue)
    requires Settling(g)
    ensures Match(g, Buffer(def, [], CParam(size)), Buffer(def, [], value), map[]).ok
  {
    var p, q := Buffer(def, [], CParam(size)), Buffer(def, [], value);
    assert FillsConst(p.consts[0], q.consts[0]);
    assert FillsTys(p.args, q.args) && FillsConsts(p.consts, q.consts) && FillsBindings(p.bindings, q.bindings);
    assert Fills(p, q);
    BufferIsPlain(g, def, CParam(size));
    var none: Subst := map[];
    KeyOfSettle(g, q);
    TypesMatchIffKey(g, Apply(g, false, none, q), q);
    assert Chosen(g, false, p, q, q, none);
    assert Reached(g, none, p, q, none.Keys) && InTheOpen(g, p, q, q, none, none);
    MatchIsComplete(g, p, q, none, none);
  }

  lemma {:induction false} BufferKey(g: Program, e: Env, def: nat, args: seq<Ty>, value: ConstValue)
    requires OfTypes(e)
    ensures KeyIn(g, e, NO_ENV, Buffer(def, args, value)) ==
      CForm(Nominal(def), KeyTys(g, e, NO_ENV, args), [CConst(CAtom(0), CanonValue(g.lens, value))], multiset{})
  {
    var cs := [ConstArg(Atom(0), value)];
    assert KeyConsts(g, e, NO_ENV, cs) == [KeyConst(g, e, NO_ENV, cs[0])];
    assert KeyBindings(g, e, NO_ENV, []) == [];
  }

  /** A const parameter is open only while its part is walked: once the generics of `Buf[T, N]` are bound it is compared
      as a whole, and misses `Buf[u, 4]`, which it matches as long as `T` is not bound. */
  lemma {:induction false} BoundPartIsCompared(g: Program, def: nat, name: Sym, size: Sym, atom: nat, value: Bits)
    requires Settling(g)
    ensures
      var p, actual := Buffer(def, [Generic(name)], CParam(size)), Buffer(def, [Atom(atom)], CInt(value, false));
      Match(g, p, actual, map[]).ok && !Match(g, p, actual, map[name := Atom(atom)]).ok
  {
    var p, q := Buffer(def, [Generic(name)], CParam(size)), Buffer(def, [Generic(name)], CInt(value, false));
    var actual, target := Buffer(def, [Atom(atom)], CInt(value, false)), map[name := Atom(atom)];
    GenericBuffer(g, def, name, CParam(size));
    assert Fills(p.args[0], q.args[0]) && FillsTys(p.args, q.args) && FillsConst(p.consts[0], q.consts[0]);
    assert FillsConsts(p.consts, q.consts) && FillsBindings(p.bindings, q.bindings) && Fills(p, q);
    var k := Keys(g, target);
    BufferKey(g, k, def, [Generic(name)], CInt(value, false));
    BufferKey(g, k, def, [Generic(name)], CParam(size));
    BufferKey(g, NO_ENV, def, [Atom(atom)], CInt(value, false));
    assert KeyTys(g, k, NO_ENV, [Generic(name)]) == [CAtom(atom)] == KeyTys(g, NO_ENV, NO_ENV, [Atom(atom)]);
    FilledIsStrict(g, p, q);
    StrictIsPlain(g, q);
    StrictIsPlain(g, p);
    SkippedOperands(g, k, k, q);
    SkippedOperands(g, k, k, p);
    ChosenIffKey(g, p, q, actual, target);
    var none: Subst := map[];
    assert ReachedTys(g, target, p.args[1..], q.args[1..], none.Keys + Generics(p.args[0]));
    assert Reached(g, target, p.args[0], q.args[0], none.Keys) && ReachedTys(g, target, p.args, q.args, none.Keys);
    assert Reached(g, target, p, q, none.Keys) && !Reached(g, target, p, q, target.Keys);
    assert InTheOpen(g, p, q, actual, none, target) && !InTheOpen(g, p, q, actual, target, target);
    MatchIsComplete(g, p, actual, none, target);
    MatchIsComplete(g, p, actual, target, target);
  }

  lemma {:induction false} GenericBuffer(g: Program, def: nat, name: Sym, value: ConstValue)
    ensures var p := Buffer(def, [Generic(name)], value);
      HasGeneric(p) && Generics(p) == {name} && Plain(g, true, p) && Direct(p) && !HasProjection(p)
  {
    var p := Buffer(def, [Generic(name)], value);
    PlainValue(value);
    assert HasGeneric(p.args[0]) && AnyGeneric(p.args) && !AnyProjection(p.args);
    assert name in Generics(p.args[0]);
    assert GenericsTys(p.args) == {name} && GenericsBindings(p.bindings) == {};
  }

  /** The projection `<T as Tr>::A` and the type that `T := u` makes of it where the solver resolves `<u as Tr>::A`:
      missed while `T` is unbound, found once it is bound. */
  lemma {:induction false} ResolvedProjectionIsMissed(
    g: Program, name: Sym, owner: nat, member: Sym, atom: nat, answer: nat)
    requires Settling(g) && g.solve(CProjection(CAtom(atom), owner, [], [], member)) == Some(Atom(answer))
    ensures
      var p, target := Projection(Generic(name), owner, [], [], member), map[name := Atom(atom)];
      && Apply(g, false, target, p) == Atom(answer)
      && !Match(g, p, Atom(answer), map[]).ok
      && Match(g, p, Atom(answer), target).ok
  {
    var p, target := Projection(Generic(name), owner, [], [], member), map[name := Atom(atom)];
    assert ApplyTys(g, false, target, []) == [] && ApplyConsts(g, false, target, []) == [];
    assert KeyTys(g, NO_ENV, NO_ENV, []) == [] && KeyConsts(g, NO_ENV, NO_ENV, []) == [];
    assert Question(g, Projection(Atom(atom), owner, [], [], member)) ==
      CProjection(CAtom(atom), owner, [], [], member);
    assert Apply(g, false, target, p) == Atom(answer);
    TypesMatchIffKey(g, Atom(answer), Atom(answer));
    assert GenericsTys([]) == {} && GenericsConsts([]) == {};
    assert Generics(p) == {name} && Bound(p, target.Keys) && HasGeneric(p);
    assert Settle(g, Atom(answer)) == Atom(answer);
  }
}
