/** Type instantiation with associated-type projections, and its memoised form. The trait solver, program
    normalization and the type aliases are parameters; nothing is assumed about termination, so a run carries fuel and
    `None` means that it ran out. */
module Instantiation {
  import opened Options
  import opened Scopes
  import opened Types
  import opened Substitution

  /** The current function and instantiation module: the part of the lowering context results depend on. */
  type Ctx = nat

  /** One projection being resolved. */
  datatype ProjKey = ProjKey(self: Ty, owner: nat, args: seq<Ty>, consts: seq<ConstArg>, name: Sym)

  /** A foreign type alias: the arity its signature declares, its effective parameters and its target. */
  datatype Alias = Alias(arity: nat, params: seq<Param>, target: Ty)

  datatype World = World(
    lens: Lengths,
    normalize: Ty -> Ty,
    aliases: map<nat, Alias>,
    errorTy: Ty,
    assumptionTys: Ctx -> seq<Ty>,
    assumptionConsts: Ctx -> seq<ConstArg>,
    resolve: (Ctx, ProjKey, seq<Ty>, seq<ConstArg>) -> Option<Ty>)

  function LenFromConst(arg: ConstArg): Option<Len> {
    match arg.value
    case CInt(bits, signed) =>
      if (signed && bits >= 0x8000_0000_0000_0000_0000_0000_0000_0000) || bits >= 0x1_0000_0000_0000_0000 then None
      else Some(LenValue(bits))
    case CParam(name) => Some(LenParam(name))
    case CExpr(id) => Some(LenExpr(id))
    case _ => None
  }

  /** Only a length that is itself a parameter is rewritten. */
  function InstLen(len: Len, s: Scope): Len {
    if len.LenParam? && len.name in s.consts then
      var l := LenFromConst(s.consts[len.name]);
      if l.Some? then l.value else len
    else len
  }

  // ---------------------------------------------------------------------------------------------------------------
  // Instantiation without a cache.

  ghost function Inst(w: World, c: Ctx, t: Ty, s: Scope, active: seq<ProjKey>, fuel: nat): Option<Ty>
    decreases fuel, 1
  {
    if fuel == 0 then None else Node(w, c, w.normalize(t), s, active, fuel)
  }

  /** Instantiation of an already normalized type. */
  ghost function Node(w: World, c: Ctx, t: Ty, s: Scope, active: seq<ProjKey>, fuel: nat): Option<Ty>
    requires fuel > 0
    decreases fuel, 0
  {
    match t
    case Atom(_) => Some(t)
    case Generic(name) => Some(if name in s.types then s.types[name] else t)
    case SelfParam => Some(if s.self.Some? then s.self.value else t)
    case Pointer(readonly, elem) =>
      var elem :- Inst(w, c, elem, s, active, fuel - 1);
      Some(PointerTo(readonly, elem))
    case Array(len, elem) =>
      var elem :- Inst(w, c, elem, s, active, fuel - 1);
      Some(Array(InstLen(len, s), elem))
    case Form(tag, args, consts, bindings) =>
      var args :- InstTys(w, c, args, s, active, fuel - 1);
      var consts :- InstConsts(w, c, consts, s, active, fuel - 1);
      if tag.Nominal? && tag.def in w.aliases then
        InstAlias(w, c, w.aliases[tag.def], args, consts, s, active, fuel - 1)
      else
        var bindings :- InstBindings(w, c, bindings, s, active, fuel - 1);
        Some(Form(tag, args, consts, bindings))
    case Projection(self, owner, args, consts, name) =>
      var self' :- Inst(w, c, self, s, active, fuel - 1);
      var args' :- InstTys(w, c, args, s, active, fuel - 1);
      var consts' :- InstConsts(w, c, consts, s, active, fuel - 1);
      InstProjection(w, c, t, ProjKey(self', owner, args', consts', name), s, active, fuel - 1)
  }

  /** A projection already being resolved is left as it is; otherwise the solver is asked with the projection active,
      and its answer instantiated the same way. */
  ghost function InstProjection(w: World, c: Ctx, t: Ty, key: ProjKey, s: Scope, active: seq<ProjKey>, fuel: nat)
    : Option<Ty>
    requires t.Projection?
    decreases fuel, 6
  {
    var projection := Projection(key.self, key.owner, key.args, key.consts, key.name);
    var hit :- AnyActive(w, c, active, key, fuel);
    if hit then Some(projection) else
    var tys :- InstTys(w, c, w.assumptionTys(c), s, active + [key], fuel);
    var consts :- InstConsts(w, c, w.assumptionConsts(c), s, active + [key], fuel);
    match w.resolve(c, key, tys, consts)
    case Some(resolved) => Inst(w, c, resolved, s, active + [key], fuel)
    case None =>
      var kept :- KeyMatch(w, c, key, ProjKey(t.self, t.owner, t.args, t.consts, t.name), fuel);
      Some(if kept then t else projection)
  }

  ghost function InstAlias(w: World, c: Ctx, alias: Alias, args: seq<Ty>, consts: seq<ConstArg>, s: Scope,
                           active: seq<ProjKey>, fuel: nat): Option<Ty>
    decreases fuel, 2
  {
    if alias.arity != |args| + |consts| then Some(w.errorTy) else
    var target :- Inst(w, c, alias.target, ScopeOf(alias.params, args, consts), active, fuel);
    Inst(w, c, target, s, active, fuel)
  }

  ghost function InstTys(w: World, c: Ctx, ts: seq<Ty>, s: Scope, active: seq<ProjKey>, fuel: nat): Option<seq<Ty>>
    decreases fuel, 2, |ts|
  {
    if ts == [] then Some([]) else
    var head :- Inst(w, c, ts[0], s, active, fuel);
    var tail :- InstTys(w, c, ts[1..], s, active, fuel);
    Some([head] + tail)
  }

  /** A const parameter is looked up again after every substitution. */
  ghost function InstConst(w: World, c: Ctx, arg: ConstArg, s: Scope, active: seq<ProjKey>, fuel: nat): Option<ConstArg>
    decreases fuel, 2
  {
    if arg.value.CParam? && arg.value.name in s.consts then
      if fuel == 0 then None else InstConst(w, c, s.consts[arg.value.name], s, active, fuel - 1)
    else
      var ty :- Inst(w, c, arg.ty, s, active, fuel);
      Some(ConstArg(ty, arg.value))
  }

  ghost function InstConsts(w: World, c: Ctx, cs: seq<ConstArg>, s: Scope, active: seq<ProjKey>, fuel: nat)
    : Option<seq<ConstArg>>
    decreases fuel, 3, |cs|
  {
    if cs == [] then Some([]) else
    var head :- InstConst(w, c, cs[0], s, active, fuel);
    var tail :- InstConsts(w, c, cs[1..], s, active, fuel);
    Some([head] + tail)
  }

  ghost function InstBinding(w: World, c: Ctx, b: Binding, s: Scope, active: seq<ProjKey>, fuel: nat): Option<Binding>
    decreases fuel, 4
  {
    var args :- InstTys(w, c, b.args, s, active, fuel);
    var consts :- InstConsts(w, c, b.consts, s, active, fuel);
    var ty :- Inst(w, c, b.ty, s, active, fuel);
    Some(Binding(b.owner, b.name, args, consts, ty))
  }

  ghost function InstBindings(w: World, c: Ctx, bs: seq<Binding>, s: Scope, active: seq<ProjKey>, fuel: nat)
    : Option<seq<Binding>>
    decreases fuel, 5, |bs|
  {
    if bs == [] then Some([]) else
    var head :- InstBinding(w, c, bs[0], s, active, fuel);
    var tail :- InstBindings(w, c, bs[1..], s, active, fuel);
    Some([head] + tail)
  }

  // ---- Comparisons settle both sides on a fresh projection stack, whatever is active outside.

  ghost function TysMatch(w: World, c: Ctx, a: seq<Ty>, b: seq<Ty>, fuel: nat): Option<bool>
    requires |a| == |b|
    decreases fuel, 3, |a|
  {
    if a == [] then Some(true) else
    var x :- Inst(w, c, a[0], EMPTY, [], fuel);
    var y :- Inst(w, c, b[0], EMPTY, [], fuel);
    if SameTy(Backtracking, w.lens, x, y) then TysMatch(w, c, a[1..], b[1..], fuel) else Some(false)
  }

  ghost function ConstsMatch(w: World, c: Ctx, a: seq<ConstArg>, b: seq<ConstArg>, fuel: nat): Option<bool>
    requires |a| == |b|
    decreases fuel, 4, |a|
  {
    if a == [] then Some(true) else
    var same :- TysMatch(w, c, [a[0].ty], [b[0].ty], fuel);
    if same && SameConstValue(w.lens, a[0].value, b[0].value) then ConstsMatch(w, c, a[1..], b[1..], fuel)
    else Some(false)
  }

  ghost function KeyMatch(w: World, c: Ctx, a: ProjKey, b: ProjKey, fuel: nat): Option<bool>
    decreases fuel, 5, 0
  {
    if a.owner != b.owner || a.name != b.name then Some(false) else
    var self :- TysMatch(w, c, [a.self], [b.self], fuel);
    if !self || |a.args| != |b.args| then Some(false) else
    var args :- TysMatch(w, c, a.args, b.args, fuel);
    if !args || |a.consts| != |b.consts| then Some(false) else
    ConstsMatch(w, c, a.consts, b.consts, fuel)
  }

  ghost function AnyActive(w: World, c: Ctx, active: seq<ProjKey>, key: ProjKey, fuel: nat): Option<bool>
    decreases fuel, 5, 1, |active|
  {
    if active == [] then Some(false) else
    var hit :- KeyMatch(w, c, active[0], key, fuel);
    if hit then Some(true) else AnyActive(w, c, active[1..], key, fuel)
  }

  // ---------------------------------------------------------------------------------------------------------------
  // More fuel never changes an answer.

  lemma {:induction false} InstMono(w: World, c: Ctx, t: Ty, s: Scope, active: seq<ProjKey>, f: nat, g: nat)
    requires f <= g && Inst(w, c, t, s, active, f).Some?
    ensures Inst(w, c, t, s, active, g) == Inst(w, c, t, s, active, f)
    decreases f, 1
  {
    NodeMono(w, c, w.normalize(t), s, active, f, g);
  }

  lemma {:induction false} NodeMono(w: World, c: Ctx, t: Ty, s: Scope, active: seq<ProjKey>, f: nat, g: nat)
    requires 0 < f <= g && Node(w, c, t, s, active, f).Some?
    ensures Node(w, c, t, s, active, g) == Node(w, c, t, s, active, f)
    decreases f, 0
  {
    match t
    case Pointer(_, elem) => InstMono(w, c, elem, s, active, f - 1, g - 1);
    case Array(_, elem) => InstMono(w, c, elem, s, active, f - 1, g - 1);
    case Form(tag, args, consts, bindings) =>
      InstTysMono(w, c, args, s, active, f - 1, g - 1);
      InstConstsMono(w, c, consts, s, active, f - 1, g - 1);
      if tag.Nominal? && tag.def in w.aliases {
        var args' := InstTys(w, c, args, s, active, f - 1).value;
        var consts' := InstConsts(w, c, consts, s, active, f - 1).value;
        InstAliasMono(w, c, w.aliases[tag.def], args', consts', s, active, f - 1, g - 1);
      } else {
        InstBindingsMono(w, c, bindings, s, active, f - 1, g - 1);
      }
    case Projection(self, owner, args, consts, name) =>
      InstMono(w, c, self, s, active, f - 1, g - 1);
      InstTysMono(w, c, args, s, active, f - 1, g - 1);
      InstConstsMono(w, c, consts, s, active, f - 1, g - 1);
      var key := ProjKey(Inst(w, c, self, s, active, f - 1).value, owner, InstTys(w, c, args, s, active, f - 1).value,
                         InstConsts(w, c, consts, s, active, f - 1).value, name);
      InstProjectionMono(w, c, t, key, s, active, f - 1, g - 1);
    case _ =>
  }

  lemma {:induction false} InstProjectionMono(
    w: World, c: Ctx, t: Ty, key: ProjKey, s: Scope, active: seq<ProjKey>, f: nat, g: nat)
    requires f <= g && t.Projection? && InstProjection(w, c, t, key, s, active, f).Some?
    ensures InstProjection(w, c, t, key, s, active, g) == InstProjection(w, c, t, key, s, active, f)
    decreases f, 6
  {
    AnyActiveMono(w, c, active, key, f, g);
    if !AnyActive(w, c, active, key, f).value {
      InstTysMono(w, c, w.assumptionTys(c), s, active + [key], f, g);
      InstConstsMono(w, c, w.assumptionConsts(c), s, active + [key], f, g);
      var tys := InstTys(w, c, w.assumptionTys(c), s, active + [key], f).value;
      var consts := InstConsts(w, c, w.assumptionConsts(c), s, active + [key], f).value;
      match w.resolve(c, key, tys, consts)
      case Some(resolved) => InstMono(w, c, resolved, s, active + [key], f, g);
      case None => KeyMatchMono(w, c, key, ProjKey(t.self, t.owner, t.args, t.consts, t.name), f, g);
    }
  }

  lemma {:induction false} InstAliasMono(w: World, c: Ctx, alias: Alias, args: seq<Ty>, consts: seq<ConstArg>, s: Scope,
                                         active: seq<ProjKey>, f: nat, g: nat)
    requires f <= g && InstAlias(w, c, alias, args, consts, s, active, f).Some?
    ensures InstAlias(w, c, alias, args, consts, s, active, g) == InstAlias(w, c, alias, args, consts, s, active, f)
    decreases f, 2
  {
    if alias.arity == |args| + |consts| {
      var scope := ScopeOf(alias.params, args, consts);
      InstMono(w, c, alias.target, scope, active, f, g);
      InstMono(w, c, Inst(w, c, alias.target, scope, active, f).value, s, active, f, g);
    }
  }

  lemma {:induction false} InstTysMono(w: World, c: Ctx, ts: seq<Ty>, s: Scope, active: seq<ProjKey>, f: nat, g: nat)
    requires f <= g && InstTys(w, c, ts, s, active, f).Some?
    ensures InstTys(w, c, ts, s, active, g) == InstTys(w, c, ts, s, active, f)
    decreases f, 2, |ts|
  {
    if ts != [] {
      InstMono(w, c, ts[0], s, active, f, g);
      InstTysMono(w, c, ts[1..], s, active, f, g);
    }
  }

  lemma {:induction false} InstConstMono(
    w: World, c: Ctx, arg: ConstArg, s: Scope, active: seq<ProjKey>, f: nat, g: nat)
    requires f <= g && InstConst(w, c, arg, s, active, f).Some?
    ensures InstConst(w, c, arg, s, active, g) == InstConst(w, c, arg, s, active, f)
    decreases f, 2
  {
    if arg.value.CParam? && arg.value.name in s.consts {
      InstConstMono(w, c, s.consts[arg.value.name], s, active, f - 1, g - 1);
    } else {
      InstMono(w, c, arg.ty, s, active, f, g);
    }
  }

  lemma {:induction false} InstConstsMono(
    w: World, c: Ctx, cs: seq<ConstArg>, s: Scope, active: seq<ProjKey>, f: nat, g: nat)
    requires f <= g && InstConsts(w, c, cs, s, active, f).Some?
    ensures InstConsts(w, c, cs, s, active, g) == InstConsts(w, c, cs, s, active, f)
    decreases f, 3, |cs|
  {
    if cs != [] {
      InstConstMono(w, c, cs[0], s, active, f, g);
      InstConstsMono(w, c, cs[1..], s, active, f, g);
    }
  }

  lemma {:induction false} InstBindingMono(w: World, c: Ctx, b: Binding, s: Scope, active: seq<ProjKey>, f: nat, g: nat)
    requires f <= g && InstBinding(w, c, b, s, active, f).Some?
    ensures InstBinding(w, c, b, s, active, g) == InstBinding(w, c, b, s, active, f)
    decreases f, 4
  {
    InstTysMono(w, c, b.args, s, active, f, g);
    InstConstsMono(w, c, b.consts, s, active, f, g);
    InstMono(w, c, b.ty, s, active, f, g);
  }

  lemma {:induction false} InstBindingsMono(
    w: World, c: Ctx, bs: seq<Binding>, s: Scope, active: seq<ProjKey>, f: nat, g: nat)
    requires f <= g && InstBindings(w, c, bs, s, active, f).Some?
    ensures InstBindings(w, c, bs, s, active, g) == InstBindings(w, c, bs, s, active, f)
    decreases f, 5, |bs|
  {
    if bs != [] {
      InstBindingMono(w, c, bs[0], s, active, f, g);
      InstBindingsMono(w, c, bs[1..], s, active, f, g);
    }
  }

  lemma {:induction false} TysMatchMono(w: World, c: Ctx, a: seq<Ty>, b: seq<Ty>, f: nat, g: nat)
    requires f <= g && |a| == |b| && TysMatch(w, c, a, b, f).Some?
    ensures TysMatch(w, c, a, b, g) == TysMatch(w, c, a, b, f)
    decreases f, 3, |a|
  {
    if a != [] {
      InstMono(w, c, a[0], EMPTY, [], f, g);
      InstMono(w, c, b[0], EMPTY, [], f, g);
      if SameTy(Backtracking, w.lens, Inst(w, c, a[0], EMPTY, [], f).value, Inst(w, c, b[0], EMPTY, [], f).value) {
        TysMatchMono(w, c, a[1..], b[1..], f, g);
      }
    }
  }

  lemma {:induction false} ConstsMatchMono(w: World, c: Ctx, a: seq<ConstArg>, b: seq<ConstArg>, f: nat, g: nat)
    requires f <= g && |a| == |b| && ConstsMatch(w, c, a, b, f).Some?
    ensures ConstsMatch(w, c, a, b, g) == ConstsMatch(w, c, a, b, f)
    decreases f, 4, |a|
  {
    if a != [] {
      TysMatchMono(w, c, [a[0].ty], [b[0].ty], f, g);
      if TysMatch(w, c, [a[0].ty], [b[0].ty], f).value && SameConstValue(w.lens, a[0].value, b[0].value) {
        ConstsMatchMono(w, c, a[1..], b[1..], f, g);
      }
    }
  }

  lemma {:induction false} KeyMatchMono(w: World, c: Ctx, a: ProjKey, b: ProjKey, f: nat, g: nat)
    requires f <= g && KeyMatch(w, c, a, b, f).Some?
    ensures KeyMatch(w, c, a, b, g) == KeyMatch(w, c, a, b, f)
    decreases f, 5, 0
  {
    if a.owner == b.owner && a.name == b.name {
      TysMatchMono(w, c, [a.self], [b.self], f, g);
      if TysMatch(w, c, [a.self], [b.self], f).value && |a.args| == |b.args| {
        TysMatchMono(w, c, a.args, b.args, f, g);
        if TysMatch(w, c, a.args, b.args, f).value && |a.consts| == |b.consts| {
          ConstsMatchMono(w, c, a.consts, b.consts, f, g);
        }
      }
    }
  }

  lemma {:induction false} AnyActiveMono(w: World, c: Ctx, active: seq<ProjKey>, key: ProjKey, f: nat, g: nat)
    requires f <= g && AnyActive(w, c, active, key, f).Some?
    ensures AnyActive(w, c, active, key, g) == AnyActive(w, c, active, key, f)
    decreases f, 5, 1, |active|
  {
    if active != [] {
      KeyMatchMono(w, c, active[0], key, f, g);
      if !KeyMatch(w, c, active[0], key, f).value {
        AnyActiveMono(w, c, active[1..], key, f, g);
      }
    }
  }

  /** Two answers to one question agree, whatever fuel they took. */
  lemma {:induction false} AnswersAgree(w: World, c: Ctx, t: Ty, s: Scope, active: seq<ProjKey>, f: nat, g: nat)
    requires Inst(w, c, t, s, active, f).Some? && Inst(w, c, t, s, active, g).Some?
    ensures Inst(w, c, t, s, active, f) == Inst(w, c, t, s, active, g)
  {
    if f <= g {
      InstMono(w, c, t, s, active, f, g);
    } else {
      InstMono(w, c, t, s, active, g, f);
    }
  }

  /** Why a result made under an active projection must not be cached: with `P = <u as T>::A` resolving to `?P`, the
      projection `P` instantiates to `?P` on an empty stack and to itself once it is active. */
  lemma {:induction false} ActiveResultsAreTruncated(w: World, c: Ctx)
    requires forall t :: w.normalize(t) == t
    requires w.assumptionTys(c) == [] && w.assumptionConsts(c) == []
    requires w.resolve(c, ProjKey(Atom(0), 0, [], [], 0), [], []) ==
      Some(Form(Optional, [Projection(Atom(0), 0, [], [], 0)], [], []))
    ensures
      var p, k := Projection(Atom(0), 0, [], [], 0), ProjKey(Atom(0), 0, [], [], 0);
      exists f: nat ::
        Inst(w, c, p, EMPTY, [], f) == Some(Form(Optional, [p], [], [])) && Inst(w, c, p, EMPTY, [k], f) == Some(p)
  {
    var p, k := Projection(Atom(0), 0, [], [], 0), ProjKey(Atom(0), 0, [], [], 0);
    var r := Form(Optional, [p], [], []);
    assert Inst(w, c, Atom(0), EMPTY, [], 1) == Some(Atom(0));
    assert Inst(w, c, Atom(0), EMPTY, [k], 1) == Some(Atom(0));
    assert TysMatch(w, c, [Atom(0)], [Atom(0)], 1) == Some(true);
    assert KeyMatch(w, c, k, k, 1) == Some(true);
    assert AnyActive(w, c, [k], k, 1) == Some(true);
    assert InstProjection(w, c, p, k, EMPTY, [k], 1) == Some(p);
    assert Inst(w, c, p, EMPTY, [k], 2) == Some(p);
    assert InstTys(w, c, [p][1..], EMPTY, [k], 2) == Some([]) && [p] + [] == [p];
    assert InstTys(w, c, [p], EMPTY, [k], 2) == Some([p]);
    assert Inst(w, c, r, EMPTY, [k], 3) == Some(r);
    assert [] + [k] == [k];
    assert InstProjection(w, c, p, k, EMPTY, [], 3) == Some(r);
    InstMono(w, c, Atom(0), EMPTY, [], 1, 3);
    assert Inst(w, c, p, EMPTY, [], 4) == Some(r);
    InstMono(w, c, p, EMPTY, [k], 2, 4);
  }
}
