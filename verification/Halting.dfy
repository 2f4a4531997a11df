/** When instantiation halts. Comparing projections starts over on an empty stack, so finitely many projections are not
    enough; a rank that drops from a projection to what it is made of is. */
module Halting {
  import opened Collections
  import opened Options
  import opened Scopes
  import opened Types
  import opened Substitution
  import opened Instantiation

  /** Program normalization reaches every part of a type at once. */
  ghost predicate Settled(w: World, t: Ty)
    decreases t, 0
  {
    && w.normalize(t) == t
    && match t
       case Pointer(_, elem) => Settled(w, elem)
       case Array(_, elem) => Settled(w, elem)
       case Form(_, args, consts, bindings) =>
         && SettledTys(w, args)
         && SettledConsts(w, consts)
         && (forall i | 0 <= i < |bindings| :: SettledBinding(w, bindings[i]))
       case Projection(self, _, args, consts, _) => Settled(w, self) && SettledTys(w, args) && SettledConsts(w, consts)
       case _ => true
  }

  ghost predicate SettledTys(w: World, ts: seq<Ty>)
    decreases ts, 0
  {
    forall i | 0 <= i < |ts| :: Settled(w, ts[i])
  }

  ghost predicate SettledConst(w: World, c: ConstArg)
    decreases c, 0
  {
    Settled(w, c.ty)
  }

  ghost predicate SettledConsts(w: World, cs: seq<ConstArg>)
    decreases cs, 0
  {
    forall i | 0 <= i < |cs| :: SettledConst(w, cs[i])
  }

  ghost predicate SettledBinding(w: World, b: Binding)
    decreases b, 0
  {
    SettledTys(w, b.args) && SettledConsts(w, b.consts) && Settled(w, b.ty)
  }

  ghost predicate ComparisonHalts(w: World, c: Ctx, k: ProjKey, l: ProjKey) {
    exists f: nat :: KeyMatch(w, c, k, l, f).Some?
  }

  /** The types directly inside `t`. */
  ghost predicate PartsIn(types: iset<Ty>, t: Ty) {
    match t
    case Pointer(_, elem) => elem in types
    case Array(_, elem) => elem in types
    case Form(_, args, consts, bindings) =>
      && TysIn(types, args)
      && ConstsIn(types, consts)
      && (forall i | 0 <= i < |bindings| :: BindingIn(types, bindings[i]))
    case Projection(self, _, args, consts, _) => self in types && TysIn(types, args) && ConstsIn(types, consts)
    case _ => true
  }

  ghost predicate TysIn(types: iset<Ty>, ts: seq<Ty>) {
    forall i | 0 <= i < |ts| :: ts[i] in types
  }

  ghost predicate ConstsIn(types: iset<Ty>, cs: seq<ConstArg>) {
    forall i | 0 <= i < |cs| :: cs[i].ty in types
  }

  ghost predicate BindingIn(types: iset<Ty>, b: Binding) {
    TysIn(types, b.args) && ConstsIn(types, b.consts) && b.ty in types
  }

  ghost function OriginalKey(t: Ty): ProjKey
    requires t.Projection?
  {
    ProjKey(t.self, t.owner, t.args, t.consts, t.name)
  }

  ghost predicate KeyWithin(types: iset<Ty>, k: ProjKey) {
    k.self in types && TysIn(types, k.args) && ConstsIn(types, k.consts)
  }

  /** `key` is what some run makes of the projection `t` before asking the solver. */
  ghost predicate Forms(w: World, c: Ctx, t: Ty, s: Scope, active: seq<ProjKey>, f: nat, key: ProjKey) {
    && t.Projection?
    && Inst(w, c, t.self, s, active, f) == Some(key.self)
    && InstTys(w, c, t.args, s, active, f) == Some(key.args)
    && InstConsts(w, c, t.consts, s, active, f) == Some(key.consts)
    && key.owner == t.owner
    && key.name == t.name
  }

  ghost predicate IsAlias(w: World, t: Ty) {
    t.Form? && t.tag.Nominal? && t.tag.def in w.aliases
  }

  /** The arguments some run gives the alias `t`. */
  ghost predicate Expands(
    w: World, c: Ctx, t: Ty, s: Scope, active: seq<ProjKey>, f: nat, args: seq<Ty>, consts: seq<ConstArg>) {
    && IsAlias(w, t)
    && InstTys(w, c, t.args, s, active, f) == Some(args)
    && InstConsts(w, c, t.consts, s, active, f) == Some(consts)
    && w.aliases[t.tag.def].arity == |args| + |consts|
  }

  /** The part of a program that instantiation moves in: scopes, types, the projections formed from them, and a rank
      of types that no part exceeds. */
  datatype Region = Region(scopes: iset<Scope>, types: iset<Ty>, keys: set<ProjKey>, rank: Ty -> nat)

  ghost function Below(r: Region, n: nat): iset<Ty> {
    iset t | t in r.types && r.rank(t) <= n
  }

  /** Const arguments have primitive types and are not parameters that the scope binds again. */
  ghost predicate ScopeTame(w: World, s: Scope) {
    forall x | x in s.consts ::
      && w.normalize(s.consts[x].ty).Atom?
      && !(s.consts[x].value.CParam? && s.consts[x].value.name in s.consts)
  }

  ghost predicate TypeClosed(w: World, r: Region, t: Ty) {
    && PartsIn(Below(r, r.rank(t)), t)
    && w.normalize(t) in Below(r, r.rank(t))
    && Settled(w, w.normalize(t))
  }

  /** The target of an alias and what it becomes rank below the alias. */
  ghost predicate AliasClosed(
    w: World, c: Ctx, r: Region, t: Ty, active: seq<ProjKey>, args: seq<Ty>, consts: seq<ConstArg>)
    requires IsAlias(w, t)
  {
    var alias := w.aliases[t.tag.def];
    var scope := ScopeOf(alias.params, args, consts);
    && r.rank(t) > 0
    && alias.target in Below(r, r.rank(t) - 1)
    && scope in r.scopes
    && forall f, u | Inst(w, c, alias.target, scope, active, f) == Some(u) :: u in Below(r, r.rank(t) - 1)
  }

  /** The region is closed under normalization, parts, assumptions, solver answers and aliases, and finitely many
      projections are formed in it. */
  ghost predicate Closed(w: World, c: Ctx, r: Region) {
    && EMPTY in r.scopes
    && (forall s | s in r.scopes :: ScopeTame(w, s))
    && (forall t | t in r.types :: TypeClosed(w, r, t))
    && (forall k | k in r.keys :: KeyWithin(r.types, k))
    && (r.keys != {} ==> TysIn(r.types, w.assumptionTys(c)) && ConstsIn(r.types, w.assumptionConsts(c)))
    && (forall k, tys, consts | k in r.keys && w.resolve(c, k, tys, consts).Some? ::
          w.resolve(c, k, tys, consts).value in r.types)
    && (forall t, s, active, f, k |
          t in r.types && s in r.scopes && ActiveIn(r.keys, active) && Forms(w, c, t, s, active, f, k) :: k in r.keys)
    && (forall t, s, active, f, args, consts |
          t in r.types && s in r.scopes && ActiveIn(r.keys, active) && Expands(w, c, t, s, active, f, args, consts) ::
          AliasClosed(w, c, r, t, active, args, consts))
  }

  /** Comparing projections of the region halts. */
  ghost predicate Comparable(w: World, c: Ctx, r: Region) {
    && (forall k, l | k in r.keys && l in r.keys :: ComparisonHalts(w, c, k, l))
    && (forall k, t: Ty | k in r.keys && t in r.types && t.Projection? :: ComparisonHalts(w, c, k, OriginalKey(t)))
  }

  ghost predicate Halts(w: World, c: Ctx, t: Ty, s: Scope, active: seq<ProjKey>) {
    exists f: nat :: Inst(w, c, t, s, active, f).Some?
  }

  /** Every type of the region instantiates to an answer, in every scope and on every projection stack. */
  ghost predicate AllHalt(w: World, c: Ctx, r: Region) {
    forall t, s, active | t in r.types && s in r.scopes && ActiveIn(r.keys, active) :: Halts(w, c, t, s, active)
  }

  ghost predicate ActiveIn(keys: set<ProjKey>, active: seq<ProjKey>) {
    forall k | k in active :: k in keys
  }

  ghost function Unvisited(keys: set<ProjKey>, active: seq<ProjKey>): set<ProjKey> {
    keys - (set k | k in active)
  }

  // ---------------------------------------------------------------------------------------------------------------
  // With comparisons that halt, everything halts: asking the solver leaves one projection less to visit, expanding an
  // alias lowers the rank, and everything else goes to parts.

  ghost predicate Ready(w: World, c: Ctx, r: Region, s: Scope, active: seq<ProjKey>) {
    Closed(w, c, r) && Comparable(w, c, r) && s in r.scopes && ActiveIn(r.keys, active)
  }

  lemma {:induction false} TypeHalts(w: World, c: Ctx, r: Region, n: nat, t: Ty, s: Scope, active: seq<ProjKey>)
    returns (f: nat)
    requires Ready(w, c, r, s, active) && t in Below(r, n)
    ensures Inst(w, c, t, s, active, f).Some?
    decreases Unvisited(r.keys, active), 0, n, 1
  {
    assert TypeClosed(w, r, t);
    f := NodeHalts(w, c, r, n, w.normalize(t), s, active);
  }

  lemma {:induction false} InstAllHalt(w: World, c: Ctx, r: Region, ts: seq<Ty>, s: Scope, active: seq<ProjKey>)
    returns (f: nat)
    requires Ready(w, c, r, s, active) && TysIn(r.types, ts)
    ensures InstTys(w, c, ts, s, active, f).Some?
    decreases Unvisited(r.keys, active), 1, |ts|
  {
    f := 0;
    if ts != [] {
      var h := TypeHalts(w, c, r, r.rank(ts[0]), ts[0], s, active);
      var e := InstAllHalt(w, c, r, ts[1..], s, active);
      f := Max(h, e);
      InstMono(w, c, ts[0], s, active, h, f);
      InstTysMono(w, c, ts[1..], s, active, e, f);
    }
  }

  lemma {:induction false} InstAllConstsHalt(
    w: World, c: Ctx, r: Region, cs: seq<ConstArg>, s: Scope, active: seq<ProjKey>)
    returns (f: nat)
    requires Ready(w, c, r, s, active) && ConstsIn(r.types, cs)
    ensures InstConsts(w, c, cs, s, active, f).Some?
    decreases Unvisited(r.keys, active), 1, |cs|
  {
    f := 0;
    if cs != [] {
      var h := 2;
      if !(cs[0].value.CParam? && cs[0].value.name in s.consts) {
        h := TypeHalts(w, c, r, r.rank(cs[0].ty), cs[0].ty, s, active);
      } else {
        BoundConstHalts(w, c, r, cs[0], s, active);
      }
      var e := InstAllConstsHalt(w, c, r, cs[1..], s, active);
      f := Max(h, e);
      InstConstMono(w, c, cs[0], s, active, h, f);
      InstConstsMono(w, c, cs[1..], s, active, e, f);
    }
  }

  /** A parameter is replaced once, by an argument of primitive type. */
  lemma {:induction false} BoundConstHalts(w: World, c: Ctx, r: Region, arg: ConstArg, s: Scope, active: seq<ProjKey>)
    requires Closed(w, c, r) && s in r.scopes && arg.value.CParam? && arg.value.name in s.consts
    ensures InstConst(w, c, arg, s, active, 2).Some?
  {
    assert ScopeTame(w, s);
    var value := s.consts[arg.value.name];
    assert Inst(w, c, value.ty, s, active, 1) == Some(w.normalize(value.ty));
    assert InstConst(w, c, value, s, active, 1).Some?;
  }

  lemma {:induction false} NodeHalts(w: World, c: Ctx, r: Region, n: nat, t: Ty, s: Scope, active: seq<ProjKey>)
    returns (f: nat)
    requires Ready(w, c, r, s, active) && t in Below(r, n) && Settled(w, t)
    ensures f > 0 && Node(w, c, t, s, active, f).Some?
    decreases Unvisited(r.keys, active), 0, n, 0, t, 2
  {
    f := 1;
    assert TypeClosed(w, r, t);
    match t
    case Pointer(_, elem) =>
      var e := NodeHalts(w, c, r, n, elem, s, active);
      f := e + 1;
    case Array(_, elem) =>
      var e := NodeHalts(w, c, r, n, elem, s, active);
      f := e + 1;
    case Form(_, _, _, _) => f := FormHalts(w, c, r, n, t, s, active);
    case Projection(_, _, _, _, _) => f := ProjectionHalts(w, c, r, n, t, s, active);
    case _ =>
  }

  lemma {:induction false} FormHalts(w: World, c: Ctx, r: Region, n: nat, t: Ty, s: Scope, active: seq<ProjKey>)
    returns (f: nat)
    requires Ready(w, c, r, s, active) && t in Below(r, n) && Settled(w, t) && t.Form?
    ensures f > 0 && Node(w, c, t, s, active, f).Some?
    decreases Unvisited(r.keys, active), 0, n, 0, t, 1
  {
    assert TypeClosed(w, r, t);
    var a := TysHalt(w, c, r, n, t.args, s, active);
    var k := ConstsHalt(w, c, r, n, t.consts, s, active);
    var m := Max(a, k);
    InstTysMono(w, c, t.args, s, active, a, m);
    InstConstsMono(w, c, t.consts, s, active, k, m);
    var args, consts := InstTys(w, c, t.args, s, active, m).value, InstConsts(w, c, t.consts, s, active, m).value;
    var b: nat;
    if IsAlias(w, t) {
      b := AliasHalts(w, c, r, n, t, s, active, m, args, consts);
    } else {
      b := BindingsHalt(w, c, r, n, t.bindings, s, active);
    }
    f := Max(m, b) + 1;
    FormFromParts(w, c, t, s, active, m, b);
  }

  lemma {:induction false} FormFromParts(w: World, c: Ctx, t: Ty, s: Scope, active: seq<ProjKey>, m: nat, b: nat)
    requires t.Form? && InstTys(w, c, t.args, s, active, m).Some? && InstConsts(w, c, t.consts, s, active, m).Some?
    requires var args, consts := InstTys(w, c, t.args, s, active, m).value,
      InstConsts(w, c, t.consts, s, active, m).value;
      if IsAlias(w, t) then InstAlias(w, c, w.aliases[t.tag.def], args, consts, s, active, b).Some?
      else InstBindings(w, c, t.bindings, s, active, b).Some?
    ensures Node(w, c, t, s, active, Max(m, b) + 1).Some?
  {
    var f := Max(m, b);
    InstTysMono(w, c, t.args, s, active, m, f);
    InstConstsMono(w, c, t.consts, s, active, m, f);
    if IsAlias(w, t) {
      var args, consts := InstTys(w, c, t.args, s, active, m).value, InstConsts(w, c, t.consts, s, active, m).value;
      InstAliasMono(w, c, w.aliases[t.tag.def], args, consts, s, active, b, f);
    } else {
      InstBindingsMono(w, c, t.bindings, s, active, b, f);
    }
  }

  lemma {:induction false} AliasHalts(w: World, c: Ctx, r: Region, n: nat, t: Ty, s: Scope, active: seq<ProjKey>,
                                      m: nat, args: seq<Ty>, consts: seq<ConstArg>)
    returns (f: nat)
    requires Ready(w, c, r, s, active) && t in Below(r, n) && IsAlias(w, t)
    requires InstTys(w, c, t.args, s, active, m) == Some(args) &&
      InstConsts(w, c, t.consts, s, active, m) == Some(consts)
    ensures InstAlias(w, c, w.aliases[t.tag.def], args, consts, s, active, f).Some?
    decreases Unvisited(r.keys, active), 0, n, 0, t, 0
  {
    var alias := w.aliases[t.tag.def];
    f := 0;
    if alias.arity == |args| + |consts| {
      assert Expands(w, c, t, s, active, m, args, consts);
      assert AliasClosed(w, c, r, t, active, args, consts);
      var scope := ScopeOf(alias.params, args, consts);
      var h := TypeHalts(w, c, r, r.rank(t) - 1, alias.target, scope, active);
      var target := Inst(w, c, alias.target, scope, active, h).value;
      var e := TypeHalts(w, c, r, r.rank(t) - 1, target, s, active);
      f := Max(h, e);
      InstMono(w, c, alias.target, scope, active, h, f);
      InstMono(w, c, target, s, active, e, f);
    }
  }

  lemma {:induction false} TysHalt(w: World, c: Ctx, r: Region, n: nat, ts: seq<Ty>, s: Scope, active: seq<ProjKey>)
    returns (f: nat)
    requires Ready(w, c, r, s, active) && TysIn(Below(r, n), ts) && SettledTys(w, ts)
    ensures InstTys(w, c, ts, s, active, f).Some?
    decreases Unvisited(r.keys, active), 0, n, 0, ts, 0
  {
    f := 0;
    if ts != [] {
      var h := NodeHalts(w, c, r, n, ts[0], s, active);
      var e := TysHalt(w, c, r, n, ts[1..], s, active);
      f := Max(h, e);
      InstMono(w, c, ts[0], s, active, h, f);
      InstTysMono(w, c, ts[1..], s, active, e, f);
    }
  }

  lemma {:induction false} ConstHalts(
    w: World, c: Ctx, r: Region, n: nat, arg: ConstArg, s: Scope, active: seq<ProjKey>)
    returns (f: nat)
    requires Ready(w, c, r, s, active) && arg.ty in Below(r, n) && SettledConst(w, arg)
    ensures InstConst(w, c, arg, s, active, f).Some?
    decreases Unvisited(r.keys, active), 0, n, 0, arg, 0
  {
    f := 2;
    if !(arg.value.CParam? && arg.value.name in s.consts) {
      f := NodeHalts(w, c, r, n, arg.ty, s, active);
    } else {
      BoundConstHalts(w, c, r, arg, s, active);
    }
  }

  lemma {:induction false} ConstsHalt(
    w: World, c: Ctx, r: Region, n: nat, cs: seq<ConstArg>, s: Scope, active: seq<ProjKey>)
    returns (f: nat)
    requires Ready(w, c, r, s, active) && ConstsIn(Below(r, n), cs) && SettledConsts(w, cs)
    ensures InstConsts(w, c, cs, s, active, f).Some?
    decreases Unvisited(r.keys, active), 0, n, 0, cs, 0
  {
    f := 0;
    if cs != [] {
      var h := ConstHalts(w, c, r, n, cs[0], s, active);
      var e := ConstsHalt(w, c, r, n, cs[1..], s, active);
      f := Max(h, e);
      InstConstMono(w, c, cs[0], s, active, h, f);
      InstConstsMono(w, c, cs[1..], s, active, e, f);
    }
  }

  lemma {:induction false} BindingHalts(
    w: World, c: Ctx, r: Region, n: nat, b: Binding, s: Scope, active: seq<ProjKey>)
    returns (f: nat)
    requires Ready(w, c, r, s, active) && BindingIn(Below(r, n), b) && SettledBinding(w, b)
    ensures InstBinding(w, c, b, s, active, f).Some?
    decreases Unvisited(r.keys, active), 0, n, 0, b, 0
  {
    var a := TysHalt(w, c, r, n, b.args, s, active);
    var k := ConstsHalt(w, c, r, n, b.consts, s, active);
    var t := NodeHalts(w, c, r, n, b.ty, s, active);
    f := Max(Max(a, k), t);
    InstTysMono(w, c, b.args, s, active, a, f);
    InstConstsMono(w, c, b.consts, s, active, k, f);
    InstMono(w, c, b.ty, s, active, t, f);
  }

  lemma {:induction false} BindingsHalt(
    w: World, c: Ctx, r: Region, n: nat, bs: seq<Binding>, s: Scope, active: seq<ProjKey>)
    returns (f: nat)
    requires Ready(w, c, r, s, active)
    requires forall i | 0 <= i < |bs| :: BindingIn(Below(r, n), bs[i]) && SettledBinding(w, bs[i])
    ensures InstBindings(w, c, bs, s, active, f).Some?
    decreases Unvisited(r.keys, active), 0, n, 0, bs, 0
  {
    f := 0;
    if bs != [] {
      var h := BindingHalts(w, c, r, n, bs[0], s, active);
      var e := BindingsHalt(w, c, r, n, bs[1..], s, active);
      f := Max(h, e);
      InstBindingMono(w, c, bs[0], s, active, h, f);
      InstBindingsMono(w, c, bs[1..], s, active, e, f);
    }
  }

  /** A projection is equal to itself. */
  lemma {:induction false} KeyMatchesItself(w: World, c: Ctx, k: ProjKey, f: nat)
    requires KeyMatch(w, c, k, k, f).Some?
    ensures KeyMatch(w, c, k, k, f).value
  {
    TysMatchThemselves(w, c, [k.self], f);
    TysMatchThemselves(w, c, k.args, f);
    ConstsMatchThemselves(w, c, k.consts, f);
  }

  lemma {:induction false} TysMatchThemselves(w: World, c: Ctx, ts: seq<Ty>, f: nat)
    ensures TysMatch(w, c, ts, ts, f).Some? ==> TysMatch(w, c, ts, ts, f).value
    decreases |ts|
  {
    if ts != [] {
      TysMatchThemselves(w, c, ts[1..], f);
    }
  }

  lemma {:induction false} ConstsMatchThemselves(w: World, c: Ctx, cs: seq<ConstArg>, f: nat)
    ensures ConstsMatch(w, c, cs, cs, f).Some? ==> ConstsMatch(w, c, cs, cs, f).value
    decreases |cs|
  {
    if cs != [] {
      TysMatchThemselves(w, c, [cs[0].ty], f);
      ConstsMatchThemselves(w, c, cs[1..], f);
    }
  }

  lemma {:induction false} AnyActiveHalts(w: World, c: Ctx, r: Region, active: seq<ProjKey>, key: ProjKey)
    returns (f: nat)
    requires Comparable(w, c, r) && ActiveIn(r.keys, active) && key in r.keys
    ensures AnyActive(w, c, active, key, f).Some?
    ensures !AnyActive(w, c, active, key, f).value ==> key !in active
    decreases active
  {
    f := 0;
    if active != [] {
      assert ComparisonHalts(w, c, active[0], key);
      var h: nat :| KeyMatch(w, c, active[0], key, h).Some?;
      var e := AnyActiveHalts(w, c, r, active[1..], key);
      f := Max(h, e);
      KeyMatchMono(w, c, active[0], key, h, f);
      AnyActiveMono(w, c, active[1..], key, e, f);
      if key == active[0] {
        KeyMatchesItself(w, c, key, f);
      }
    }
  }

  /** Asking the solver makes one more projection visited, so its answer and the assumptions may be of any size. */
  lemma {:induction false} ProjectionHalts(w: World, c: Ctx, r: Region, n: nat, t: Ty, s: Scope, active: seq<ProjKey>)
    returns (f: nat)
    requires Ready(w, c, r, s, active) && t in Below(r, n) && Settled(w, t) && t.Projection?
    ensures f > 0 && Node(w, c, t, s, active, f).Some?
    decreases Unvisited(r.keys, active), 0, n, 0, t, 1
  {
    var m, key := KeyHalts(w, c, r, n, t, s, active);
    var h := AnyActiveHalts(w, c, r, active, key);
    var p := h;
    if !AnyActive(w, c, active, key, h).value {
      p := ResolutionHalts(w, c, r, n, t, key, s, active, h);
    }
    f := Max(m, p) + 1;
    ProjectionFromKey(w, c, t, key, s, active, m, p);
  }

  lemma {:induction false} KeyHalts(w: World, c: Ctx, r: Region, n: nat, t: Ty, s: Scope, active: seq<ProjKey>)
    returns (m: nat, key: ProjKey)
    requires Ready(w, c, r, s, active) && t in Below(r, n) && Settled(w, t) && t.Projection?
    ensures Forms(w, c, t, s, active, m, key) && key in r.keys
    decreases Unvisited(r.keys, active), 0, n, 0, t, 0
  {
    assert TypeClosed(w, r, t);
    var u := NodeHalts(w, c, r, n, t.self, s, active);
    var a := TysHalt(w, c, r, n, t.args, s, active);
    var k := ConstsHalt(w, c, r, n, t.consts, s, active);
    m := Max(Max(u, a), k);
    InstMono(w, c, t.self, s, active, u, m);
    InstTysMono(w, c, t.args, s, active, a, m);
    InstConstsMono(w, c, t.consts, s, active, k, m);
    key := ProjKey(Inst(w, c, t.self, s, active, m).value, t.owner, InstTys(w, c, t.args, s, active, m).value,
                   InstConsts(w, c, t.consts, s, active, m).value, t.name);
    assert Forms(w, c, t, s, active, m, key);
  }

  lemma {:induction false} ProjectionFromKey(
    w: World, c: Ctx, t: Ty, key: ProjKey, s: Scope, active: seq<ProjKey>, m: nat, p: nat)
    requires Forms(w, c, t, s, active, m, key) && InstProjection(w, c, t, key, s, active, p).Some?
    ensures Node(w, c, t, s, active, Max(m, p) + 1).Some?
  {
    var f := Max(m, p);
    InstMono(w, c, t.self, s, active, m, f);
    InstTysMono(w, c, t.args, s, active, m, f);
    InstConstsMono(w, c, t.consts, s, active, m, f);
    InstProjectionMono(w, c, t, key, s, active, p, f);
  }

  lemma {:induction false} ResolutionHalts(w: World, c: Ctx, r: Region, n: nat, t: Ty, key: ProjKey, s: Scope,
                                           active: seq<ProjKey>, h: nat)
    returns (f: nat)
    requires Ready(w, c, r, s, active) && t in Below(r, n) && t.Projection?
    requires AnyActive(w, c, active, key, h) == Some(false)
    requires key in r.keys && key !in active
    ensures InstProjection(w, c, t, key, s, active, f).Some?
    decreases Unvisited(r.keys, active), 0, n, 0, t, 0
  {
    var pushed := active + [key];
    assert Unvisited(r.keys, pushed) < Unvisited(r.keys, active) by {
      assert key in Unvisited(r.keys, active) && key !in Unvisited(r.keys, pushed);
    }
    var a := InstAllHalt(w, c, r, w.assumptionTys(c), s, pushed);
    var k := InstAllConstsHalt(w, c, r, w.assumptionConsts(c), s, pushed);
    var answer := w.resolve(c, key, InstTys(w, c, w.assumptionTys(c), s, pushed, a).value,
                            InstConsts(w, c, w.assumptionConsts(c), s, pushed, k).value);
    var original := OriginalKey(t);
    var e: nat;
    if answer.Some? {
      e := TypeHalts(w, c, r, r.rank(answer.value), answer.value, s, pushed);
    } else {
      assert ComparisonHalts(w, c, key, original);
      e :| KeyMatch(w, c, key, original, e).Some?;
    }
    f := Max(Max(h, a), Max(k, e));
    AnyActiveMono(w, c, active, key, h, f);
    InstTysMono(w, c, w.assumptionTys(c), s, pushed, a, f);
    InstConstsMono(w, c, w.assumptionConsts(c), s, pushed, k, f);
    if answer.Some? {
      InstMono(w, c, answer.value, s, pushed, e, f);
    } else {
      KeyMatchMono(w, c, key, original, e, f);
    }
  }

  // ---------------------------------------------------------------------------------------------------------------
  // Comparisons halt when what they instantiate halts.

  lemma {:induction false} TysComparisonHalts(w: World, c: Ctx, a: seq<Ty>, b: seq<Ty>) returns (f: nat)
    requires |a| == |b|
    requires forall t | t in a || t in b :: Halts(w, c, t, EMPTY, [])
    ensures TysMatch(w, c, a, b, f).Some?
    decreases |a|
  {
    f := 0;
    if a != [] {
      assert a[0] in a && b[0] in b;
      assert Halts(w, c, a[0], EMPTY, []) && Halts(w, c, b[0], EMPTY, []);
      var x: nat :| Inst(w, c, a[0], EMPTY, [], x).Some?;
      var y: nat :| Inst(w, c, b[0], EMPTY, [], y).Some?;
      assert forall t | t in a[1..] || t in b[1..] :: t in a || t in b;
      var e := TysComparisonHalts(w, c, a[1..], b[1..]);
      f := Max(Max(x, y), e);
      InstMono(w, c, a[0], EMPTY, [], x, f);
      InstMono(w, c, b[0], EMPTY, [], y, f);
      TysMatchMono(w, c, a[1..], b[1..], e, f);
    }
  }

  lemma {:induction false} ConstsComparisonHalts(w: World, c: Ctx, a: seq<ConstArg>, b: seq<ConstArg>) returns (f: nat)
    requires |a| == |b|
    requires forall x | x in a || x in b :: Halts(w, c, x.ty, EMPTY, [])
    ensures ConstsMatch(w, c, a, b, f).Some?
    decreases |a|
  {
    f := 0;
    if a != [] {
      assert a[0] in a && b[0] in b;
      var h := TysComparisonHalts(w, c, [a[0].ty], [b[0].ty]);
      assert forall x | x in a[1..] || x in b[1..] :: x in a || x in b;
      var e := ConstsComparisonHalts(w, c, a[1..], b[1..]);
      f := Max(h, e);
      TysMatchMono(w, c, [a[0].ty], [b[0].ty], h, f);
      ConstsMatchMono(w, c, a[1..], b[1..], e, f);
    }
  }

  ghost predicate PartsHalt(w: World, c: Ctx, k: ProjKey) {
    && Halts(w, c, k.self, EMPTY, [])
    && (forall t | t in k.args :: Halts(w, c, t, EMPTY, []))
    && (forall x | x in k.consts :: Halts(w, c, x.ty, EMPTY, []))
  }

  lemma {:induction false} KeyComparisonHalts(w: World, c: Ctx, k: ProjKey, l: ProjKey)
    requires PartsHalt(w, c, k) && PartsHalt(w, c, l)
    ensures ComparisonHalts(w, c, k, l)
  {
    var f := TysComparisonHalts(w, c, [k.self], [l.self]);
    var m := f;
    if |k.args| == |l.args| {
      var e := TysComparisonHalts(w, c, k.args, l.args);
      m := Max(m, e);
      TysMatchMono(w, c, k.args, l.args, e, m);
    }
    var n := m;
    if |k.consts| == |l.consts| {
      var e := ConstsComparisonHalts(w, c, k.consts, l.consts);
      n := Max(m, e);
      ConstsMatchMono(w, c, k.consts, l.consts, e, n);
    }
    TysMatchMono(w, c, [k.self], [l.self], f, n);
    if |k.args| == |l.args| {
      TysMatchMono(w, c, k.args, l.args, m, n);
    }
    assert KeyMatch(w, c, k, l, n).Some?;
  }

  lemma {:induction false} PartsOfKeyHalt(w: World, c: Ctx, r: Region, k: ProjKey)
    requires AllHalt(w, c, r) && EMPTY in r.scopes && KeyWithin(r.types, k)
    ensures PartsHalt(w, c, k)
  {
    var none: seq<ProjKey> := [];
    assert ActiveIn(r.keys, none);
  }

  /** In a closed region every type halts in every scope and on every stack if and only if comparing its projections
      halts. */
  lemma {:induction false} HaltsIffComparable(w: World, c: Ctx, r: Region)
    requires Closed(w, c, r)
    ensures AllHalt(w, c, r) <==> Comparable(w, c, r)
  {
    if Comparable(w, c, r) {
      forall t, s, active | t in r.types && s in r.scopes && ActiveIn(r.keys, active)
        ensures Halts(w, c, t, s, active)
      {
        var f := TypeHalts(w, c, r, r.rank(t), t, s, active);
      }
    }
    if AllHalt(w, c, r) {
      HaltingIsComparable(w, c, r);
    }
  }

  lemma {:induction false} HaltingIsComparable(w: World, c: Ctx, r: Region)
    requires Closed(w, c, r) && AllHalt(w, c, r)
    ensures Comparable(w, c, r)
  {
    forall k, l | k in r.keys && l in r.keys ensures ComparisonHalts(w, c, k, l) {
      PartsOfKeyHalt(w, c, r, k);
      PartsOfKeyHalt(w, c, r, l);
      KeyComparisonHalts(w, c, k, l);
    }
    forall k, t: Ty | k in r.keys && t in r.types && t.Projection? ensures ComparisonHalts(w, c, k, OriginalKey(t)) {
      assert TypeClosed(w, r, t);
      PartsOfKeyHalt(w, c, r, k);
      PartsOfKeyHalt(w, c, r, OriginalKey(t));
      KeyComparisonHalts(w, c, k, OriginalKey(t));
    }
  }

  // ---------------------------------------------------------------------------------------------------------------
  // A rank makes comparisons halt.

  /** What a key is made of ranks below its level. */
  ghost predicate KeyRanked(r: Region, level: nat, k: ProjKey) {
    level > 0 && KeyWithin(Below(r, level - 1), k)
  }

  /** The level of a projection drops to everything it is made of; answers and assumptions, and so the projections
      they lead to, stay at or below it. */
  ghost predicate Ranked(w: World, c: Ctx, r: Region, level: ProjKey -> nat) {
    && Closed(w, c, r)
    && (forall k | k in r.keys ::
          && KeyRanked(r, level(k), k)
          && TysIn(Below(r, level(k)), w.assumptionTys(c))
          && ConstsIn(Below(r, level(k)), w.assumptionConsts(c)))
    && (forall t: Ty | t in r.types && t.Projection? :: KeyRanked(r, r.rank(t), OriginalKey(t)))
    && (forall k, tys, consts | k in r.keys && w.resolve(c, k, tys, consts).Some? ::
          w.resolve(c, k, tys, consts).value in Below(r, level(k)))
    && (forall t, s, active, f, k |
          t in r.types && s in r.scopes && ActiveIn(r.keys, active) && Forms(w, c, t, s, active, f, k) ::
          level(k) <= r.rank(t))
  }

  /** The region up to a rank. */
  ghost function UpTo(r: Region, level: ProjKey -> nat, n: nat): Region {
    Region(r.scopes, Below(r, n), (set k | k in r.keys && level(k) <= n), r.rank)
  }

  lemma {:induction false} UpToIsClosed(w: World, c: Ctx, r: Region, level: ProjKey -> nat, n: nat)
    requires Ranked(w, c, r, level)
    ensures Closed(w, c, UpTo(r, level, n))
  {
    var u := UpTo(r, level, n);
    forall m: nat | m <= n ensures Below(u, m) == Below(r, m) {
    }
    forall t | t in u.types ensures TypeClosed(w, u, t) {
      assert TypeClosed(w, r, t);
    }
    forall k | k in u.keys ensures KeyWithin(u.types, k) {
      assert KeyRanked(r, level(k), k);
    }
    forall t, s, active, f, args, consts |
      t in u.types && s in u.scopes && ActiveIn(u.keys, active) && Expands(w, c, t, s, active, f, args, consts)
      ensures AliasClosed(w, c, u, t, active, args, consts)
    {
      assert ActiveIn(r.keys, active);
      assert AliasClosed(w, c, r, t, active, args, consts);
    }
    forall t, s, active, f, k |
      t in u.types && s in u.scopes && ActiveIn(u.keys, active) && Forms(w, c, t, s, active, f, k)
      ensures k in u.keys
    {
      assert ActiveIn(r.keys, active);
    }
  }

  lemma {:induction false} UpToHalts(w: World, c: Ctx, r: Region, level: ProjKey -> nat, n: nat)
    requires Ranked(w, c, r, level)
    ensures AllHalt(w, c, UpTo(r, level, n))
    decreases n
  {
    var u := UpTo(r, level, n);
    UpToIsClosed(w, c, r, level, n);
    forall k | k in u.keys ensures PartsHalt(w, c, k) {
      assert KeyRanked(r, level(k), k);
      BelowHalts(w, c, r, level, n, k);
    }
    forall t: Ty | t in u.types && t.Projection? ensures PartsHalt(w, c, OriginalKey(t)) {
      assert KeyRanked(r, r.rank(t), OriginalKey(t));
      BelowHalts(w, c, r, level, n, OriginalKey(t));
    }
    forall k, l | k in u.keys && l in u.keys ensures ComparisonHalts(w, c, k, l) {
      KeyComparisonHalts(w, c, k, l);
    }
    forall k, t: Ty | k in u.keys && t in u.types && t.Projection? ensures ComparisonHalts(w, c, k, OriginalKey(t)) {
      KeyComparisonHalts(w, c, k, OriginalKey(t));
    }
    HaltsIffComparable(w, c, u);
  }

  lemma {:induction false} BelowHalts(w: World, c: Ctx, r: Region, level: ProjKey -> nat, n: nat, k: ProjKey)
    requires Ranked(w, c, r, level) && n > 0 && KeyWithin(Below(r, n - 1), k)
    ensures PartsHalt(w, c, k)
    decreases n, 0
  {
    UpToHalts(w, c, r, level, n - 1);
    PartsOfKeyHalt(w, c, UpTo(r, level, n - 1), k);
  }

  /** With a rank, every type instantiates to an answer, in every scope and on every projection stack. */
  lemma {:induction false} InstHalts(
    w: World, c: Ctx, r: Region, level: ProjKey -> nat, t: Ty, s: Scope, active: seq<ProjKey>)
    requires Ranked(w, c, r, level) && t in r.types && s in r.scopes && ActiveIn(r.keys, active)
    ensures Halts(w, c, t, s, active)
  {
    var n := HighestLevel(level, r.keys, r.rank(t));
    UpToHalts(w, c, r, level, n);
    assert ActiveIn(UpTo(r, level, n).keys, active);
  }

  lemma {:induction false} HighestLevel(level: ProjKey -> nat, keys: set<ProjKey>, least: nat) returns (n: nat)
    ensures n >= least && forall k | k in keys :: level(k) <= n
    decreases |keys|
  {
    n := least;
    if k :| k in keys {
      var rest := HighestLevel(level, keys - {k}, least);
      n := Max(rest, level(k));
    }
  }

  /** So comparing projections halts as well. */
  lemma {:induction false} RankedIsComparable(w: World, c: Ctx, r: Region, level: ProjKey -> nat)
    requires Ranked(w, c, r, level)
    ensures Comparable(w, c, r)
  {
    forall t, s, active | t in r.types && s in r.scopes && ActiveIn(r.keys, active) ensures Halts(w, c, t, s, active) {
      InstHalts(w, c, r, level, t, s, active);
    }
    HaltingIsComparable(w, c, r);
  }

  // ---------------------------------------------------------------------------------------------------------------
  // Finitely many projections are not enough: `P = <u as T>::A` stands for `Q = <P as T>::B`, which stands for itself.

  const P: Ty := Projection(Atom(0), 0, [], [], 0)
  const Q: Ty := Projection(P, 0, [], [], 1)
  const KP: ProjKey := ProjKey(Atom(0), 0, [], [], 0)
  const KQ: ProjKey := ProjKey(P, 0, [], [], 1)

  /** Only the solver has something to say. */
  ghost predicate Bare(w: World, c: Ctx) {
    && (forall t :: w.normalize(t) == t)
    && w.aliases == map[]
    && w.assumptionTys(c) == []
    && w.assumptionConsts(c) == []
  }

  ghost predicate Cyclic(w: World, c: Ctx) {
    && Bare(w, c)
    && (forall tys, consts :: w.resolve(c, KP, tys, consts) == Some(Q) && w.resolve(c, KQ, tys, consts) == Some(Q))
  }

  /** Telling whether `Q` is active takes `P` on an empty stack, which takes `Q`. */
  lemma {:induction false} CyclicProjectionDiverges(w: World, c: Ctx, f: nat)
    requires Cyclic(w, c)
    ensures Inst(w, c, P, EMPTY, [], f) == None
    decreases f, 0
  {
    if f > 0 {
      OuterDiverges(w, c, [], f);
    }
  }

  lemma {:induction false} OuterDiverges(w: World, c: Ctx, active: seq<ProjKey>, f: nat)
    requires Cyclic(w, c) && ActiveIn({KP, KQ}, active) && KP !in active && f > 0
    ensures Inst(w, c, P, EMPTY, active, f) == None
    decreases f - 1, 3
  {
    assert forall k | k in active :: k == KQ;
    OnlyOther(w, c, active, KP, f - 1);
    InnerDiverges(w, c, active + [KP], f - 1);
    assert InstProjection(w, c, P, KP, EMPTY, active, f - 1) == None;
    BareProjection(w, c, Atom(0), 0, 0, EMPTY, active, f);
  }

  lemma {:induction false} BareProjection(
    w: World, c: Ctx, self: Ty, owner: nat, name: Sym, s: Scope, active: seq<ProjKey>, f: nat)
    requires f > 0 && w.normalize(Projection(self, owner, [], [], name)) == Projection(self, owner, [], [], name)
    ensures var t, x := Projection(self, owner, [], [], name), Inst(w, c, self, s, active, f - 1);
      Inst(w, c, t, s, active, f) ==
      if x.None? then None else InstProjection(w, c, t, ProjKey(x.value, owner, [], [], name), s, active, f - 1)
  {
    assert InstTys(w, c, [], s, active, f - 1) == Some([]) && InstConsts(w, c, [], s, active, f - 1) == Some([]);
  }

  /** Keys with other names are passed over. */
  lemma {:induction false} OnlyOther(w: World, c: Ctx, active: seq<ProjKey>, key: ProjKey, f: nat)
    requires forall k | k in active :: k.name != key.name
    ensures AnyActive(w, c, active, key, f) == Some(false)
    decreases |active|
  {
    if active != [] {
      OnlyOther(w, c, active[1..], key, f);
    }
  }

  lemma {:induction false} InnerDiverges(w: World, c: Ctx, active: seq<ProjKey>, f: nat)
    requires Cyclic(w, c) && ActiveIn({KP, KQ}, active) && KP in active
    ensures Inst(w, c, Q, EMPTY, active, f) == None
    decreases f, 2
  {
    if f > 0 {
      TruncatedSelf(w, c, active, f - 1);
      if KQ in active {
        ComparisonDiverges(w, c, active, f - 1);
      } else {
        assert forall k | k in active :: k == KP;
        OnlyOther(w, c, active, KQ, f - 1);
        InnerDiverges(w, c, active + [KQ], f - 1);
      }
      assert InstProjection(w, c, Q, KQ, EMPTY, active, f - 1) == None;
      BareProjection(w, c, P, 0, 1, EMPTY, active, f);
    }
  }

  lemma {:induction false} ComparisonDiverges(w: World, c: Ctx, active: seq<ProjKey>, f: nat)
    requires Cyclic(w, c) && ActiveIn({KP, KQ}, active) && KQ in active
    ensures AnyActive(w, c, active, KQ, f) == None
    decreases f, 1, |active|
  {
    if active[0] == KQ {
      CyclicProjectionDiverges(w, c, f);
      assert TysMatch(w, c, [P], [P], f) == None;
    } else {
      assert active[0] in active && active[0] == KP && KP.name != KQ.name;
      assert KeyMatch(w, c, KP, KQ, f) == Some(false);
      ComparisonDiverges(w, c, active[1..], f);
    }
  }

  lemma {:induction false} TruncatedSelf(w: World, c: Ctx, active: seq<ProjKey>, f: nat)
    requires Bare(w, c) && KP in active && forall k | k in active :: k == KP || k.name != KP.name
    ensures Inst(w, c, P, EMPTY, active, f) in {None, Some(P)}
  {
    if f > 0 {
      ActiveSelf(w, c, active, f - 1);
      assert InstProjection(w, c, P, KP, EMPTY, active, f - 1) in {None, Some(P)};
      BareProjection(w, c, Atom(0), 0, 0, EMPTY, active, f);
    }
  }

  lemma {:induction false} ActiveSelf(w: World, c: Ctx, active: seq<ProjKey>, f: nat)
    requires KP in active && forall k | k in active :: k == KP || k.name != KP.name
    ensures AnyActive(w, c, active, KP, f) in {None, Some(true)}
    decreases |active|
  {
    if active[0] == KP {
      TysMatchThemselves(w, c, [Atom(0)], f);
      KeyMatchesIfSome(w, c, f);
    } else {
      ActiveSelf(w, c, active[1..], f);
    }
  }

  lemma {:induction false} KeyMatchesIfSome(w: World, c: Ctx, f: nat)
    ensures KeyMatch(w, c, KP, KP, f) in {None, Some(true)}
  {
    if KeyMatch(w, c, KP, KP, f).Some? {
      KeyMatchesItself(w, c, KP, f);
    }
  }

  ghost function CyclicRank(t: Ty): nat {
    if t == Q then 2 else if t == P then 1 else 0
  }

  ghost function CyclicRegion(): Region {
    Region(iset{EMPTY}, iset{Atom(0), P, Q}, {KP, KQ}, CyclicRank)
  }

  /** A closed region with two projections in which a type does not halt. */
  lemma {:induction false} FiniteIsNotEnough(w: World, c: Ctx)
    requires Cyclic(w, c)
    ensures Closed(w, c, CyclicRegion()) && !AllHalt(w, c, CyclicRegion()) && !Comparable(w, c, CyclicRegion())
  {
    var r := CyclicRegion();
    forall t, s, active, f, k |
      t in r.types && s in r.scopes && ActiveIn(r.keys, active) && Forms(w, c, t, s, active, f, k) ensures k in r.keys
    {
      CyclicForms(w, c, t, active, f, k);
    }
    assert forall t | t in r.types :: TypeClosed(w, r, t);
    forall f: nat ensures Inst(w, c, P, EMPTY, [], f) == None {
      CyclicProjectionDiverges(w, c, f);
    }
    var none: seq<ProjKey> := [];
    assert ActiveIn(r.keys, none) && !Halts(w, c, P, EMPTY, none);
    HaltsIffComparable(w, c, r);
  }

  lemma {:induction false} CyclicForms(w: World, c: Ctx, t: Ty, active: seq<ProjKey>, f: nat, k: ProjKey)
    requires Cyclic(w, c) && t in CyclicRegion().types && ActiveIn({KP, KQ}, active) &&
      Forms(w, c, t, EMPTY, active, f, k)
    ensures k in {KP, KQ}
  {
    if t == P {
      assert Inst(w, c, Atom(0), EMPTY, active, f) in {None, Some(Atom(0))};
    } else {
      if KP in active {
        TruncatedSelf(w, c, active, f);
      } else if f > 0 {
        OuterDiverges(w, c, active, f);
      }
    }
  }

  /** So no rank fits such a program. */
  lemma {:induction false} CyclicHasNoRank(w: World, c: Ctx, r: Region, level: ProjKey -> nat)
    requires Cyclic(w, c) && P in r.types
    ensures !Ranked(w, c, r, level)
  {
    if Ranked(w, c, r, level) {
      InstHalts(w, c, r, level, P, EMPTY, []);
      var f: nat :| Inst(w, c, P, EMPTY, [], f).Some?;
      CyclicProjectionDiverges(w, c, f);
    }
  }

  ghost function SelfRegion(): Region {
    Region(iset{EMPTY}, iset{Atom(0), P, Form(Optional, [P], [], [])}, {KP}, t => if t == Atom(0) then 0 else 1)
  }

  lemma {:induction false} SelfTypesAreClosed(w: World, c: Ctx)
    requires Bare(w, c)
    ensures forall t | t in SelfRegion().types :: TypeClosed(w, SelfRegion(), t)
  {
    var r := SelfRegion();
    assert TypeClosed(w, r, Atom(0)) && TypeClosed(w, r, P);
    assert SettledTys(w, [P]) && SettledConsts(w, []) && TypeClosed(w, r, Form(Optional, [P], [], []));
  }

  ghost predicate WrapsItself(w: World, c: Ctx) {
    Bare(w, c) && forall tys, consts :: w.resolve(c, KP, tys, consts) == Some(Form(Optional, [P], [], []))
  }

  lemma {:induction false} SelfForms(w: World, c: Ctx, t: Ty, s: Scope, active: seq<ProjKey>, f: nat, k: ProjKey)
    requires Bare(w, c) && t in SelfRegion().types && Forms(w, c, t, s, active, f, k)
    ensures t == P && k == KP
  {
    assert Inst(w, c, Atom(0), s, active, f) in {None, Some(Atom(0))};
  }

  lemma {:induction false} SelfRegionIsClosed(w: World, c: Ctx)
    requires WrapsItself(w, c)
    ensures Closed(w, c, SelfRegion())
  {
    var r := SelfRegion();
    SelfTypesAreClosed(w, c);
    forall t, s, active, f, k |
      t in r.types && s in r.scopes && ActiveIn(r.keys, active) && Forms(w, c, t, s, active, f, k) ensures k in r.keys
    {
      SelfForms(w, c, t, s, active, f, k);
    }
  }

  /** A projection that stands for a type around itself is fine: `P` stands for `?P`. */
  lemma {:induction false} SelfReferenceIsRanked(w: World, c: Ctx)
    requires WrapsItself(w, c)
    ensures Ranked(w, c, SelfRegion(), k => 1)
  {
    var r := SelfRegion();
    SelfRegionIsClosed(w, c);
    assert KeyRanked(r, 1, KP) && KeyRanked(r, r.rank(P), OriginalKey(P));
    forall t, s, active, f, k |
      t in r.types && s in r.scopes && ActiveIn(r.keys, active) && Forms(w, c, t, s, active, f, k)
      ensures 1 <= r.rank(t)
    {
      SelfForms(w, c, t, s, active, f, k);
    }
  }

  // ---------------------------------------------------------------------------------------------------------------
  // A rank is not needed: `P` stands for `Q = <P as T>::B`, which stands for a primitive type.

  /** `<self as T>::B`. */
  ghost function Outer(self: Ty): ProjKey {
    ProjKey(self, 0, [], [], 1)
  }

  ghost function OuterKeys(): set<ProjKey> {
    {Outer(P), Outer(Q), Outer(Atom(1))}
  }

  ghost predicate Unwinds(w: World, c: Ctx) {
    && Bare(w, c)
    && (forall tys, consts :: w.resolve(c, KP, tys, consts) == Some(Q))
    && (forall k, tys, consts | k in OuterKeys() :: w.resolve(c, k, tys, consts) == Some(Atom(1)))
  }

  ghost function UnwindingRegion(rank: Ty -> nat): Region {
    Region(iset{EMPTY}, iset{Atom(0), Atom(1), P, Q}, {KP} + OuterKeys(), rank)
  }

  ghost predicate UnwindingStack(active: seq<ProjKey>) {
    ActiveIn({KP} + OuterKeys(), active)
  }

  /** With `P` active, `Q` is left alone or becomes the primitive type. */
  lemma {:induction false} InnerUnwinds(w: World, c: Ctx, active: seq<ProjKey>, f: nat)
    requires Unwinds(w, c) && UnwindingStack(active) && KP in active
    ensures Inst(w, c, Q, EMPTY, active, f) in {None, Some(Q), Some(Atom(1))}
  {
    if f > 0 {
      TruncatedSelf(w, c, active, f - 1);
      assert Outer(P) in OuterKeys();
      assert Inst(w, c, Atom(1), EMPTY, active + [Outer(P)], f - 1) in {None, Some(Atom(1))};
      assert InstProjection(w, c, Q, Outer(P), EMPTY, active, f - 1) in {None, Some(Q), Some(Atom(1))};
      BareProjection(w, c, P, 0, 1, EMPTY, active, f);
    }
  }

  lemma {:induction false} OuterUnwinds(w: World, c: Ctx, active: seq<ProjKey>, f: nat)
    requires Unwinds(w, c) && UnwindingStack(active)
    ensures Inst(w, c, P, EMPTY, active, f) in {None, Some(P), Some(Q), Some(Atom(1))}
  {
    if f > 0 {
      InnerUnwinds(w, c, active + [KP], f - 1);
      assert InstProjection(w, c, P, KP, EMPTY, active, f - 1) in {None, Some(P), Some(Q), Some(Atom(1))};
      BareProjection(w, c, Atom(0), 0, 0, EMPTY, active, f);
    }
  }

  lemma {:induction false} UnwindingIsClosed(w: World, c: Ctx)
    requires Unwinds(w, c)
    ensures Closed(w, c, UnwindingRegion(CyclicRank))
  {
    var r := UnwindingRegion(CyclicRank);
    forall t, s, active, f, k |
      t in r.types && s in r.scopes && ActiveIn(r.keys, active) && Forms(w, c, t, s, active, f, k) ensures k in r.keys
    {
      UnwindingForms(w, c, t, active, f, k);
    }
    forall t | t in r.types ensures TypeClosed(w, r, t) {
      UnwindingTypeIsClosed(w, c, t);
    }
    forall k | k in r.keys ensures KeyWithin(r.types, k) {
      UnwindingKeyIsWithin(k, CyclicRank);
    }
    forall k, tys, consts | k in r.keys && w.resolve(c, k, tys, consts).Some?
      ensures w.resolve(c, k, tys, consts).value in r.types
    {
      assert k == KP || k in OuterKeys();
    }
  }

  lemma {:induction false} UnwindingKeyIsWithin(k: ProjKey, rank: Ty -> nat)
    requires k in UnwindingRegion(rank).keys
    ensures KeyWithin(UnwindingRegion(rank).types, k)
  {
  }

  lemma {:induction false} UnwindingTypeIsClosed(w: World, c: Ctx, t: Ty)
    requires Unwinds(w, c) && t in UnwindingRegion(CyclicRank).types
    ensures TypeClosed(w, UnwindingRegion(CyclicRank), t)
  {
  }

  lemma {:induction false} UnwindingForms(w: World, c: Ctx, t: Ty, active: seq<ProjKey>, f: nat, k: ProjKey)
    requires Unwinds(w, c) && t in {Atom(0), Atom(1), P, Q} && UnwindingStack(active)
    requires Forms(w, c, t, EMPTY, active, f, k)
    ensures k in {KP} + OuterKeys()
  {
    if t == P {
      assert Inst(w, c, Atom(0), EMPTY, active, f) in {None, Some(Atom(0))};
    } else {
      OuterUnwinds(w, c, active, f);
    }
  }

  lemma {:induction false} OuterHalts(w: World, c: Ctx)
    requires Unwinds(w, c)
    ensures Inst(w, c, P, EMPTY, [], 4) == Some(Atom(1))
  {
    assert TysMatch(w, c, [Atom(0)], [Atom(0)], 1) == Some(true);
    assert AnyActive(w, c, [KP], KP, 1) == Some(true);
    BareProjection(w, c, Atom(0), 0, 0, EMPTY, [KP], 2);
    assert Inst(w, c, P, EMPTY, [KP], 2) == Some(P);
    OnlyOther(w, c, [KP], Outer(P), 2);
    BareProjection(w, c, P, 0, 1, EMPTY, [KP], 3);
    assert InstProjection(w, c, Q, Outer(P), EMPTY, [KP], 2) == Some(Atom(1));
    assert Inst(w, c, Q, EMPTY, [KP], 3) == Some(Atom(1)) && [] + [KP] == [KP];
    BareProjection(w, c, Atom(0), 0, 0, EMPTY, [], 4);
    assert InstProjection(w, c, P, KP, EMPTY, [], 3) == Some(Atom(1));
  }

  lemma {:induction false} AllUnwind(w: World, c: Ctx, t: Ty)
    requires Unwinds(w, c) && t in {Atom(0), Atom(1), P, Q}
    ensures Halts(w, c, t, EMPTY, [])
  {
    OuterHalts(w, c);
    BareProjection(w, c, P, 0, 1, EMPTY, [], 5);
    assert InstProjection(w, c, Q, Outer(Atom(1)), EMPTY, [], 4) == Some(Atom(1));
    assert Inst(w, c, t, EMPTY, [], if t == Q then 5 else 4).Some?;
  }

  lemma {:induction false} UnwindingIsComparable(w: World, c: Ctx, rank: Ty -> nat)
    requires Unwinds(w, c)
    ensures Comparable(w, c, UnwindingRegion(rank))
  {
    var r := UnwindingRegion(rank);
    forall k: ProjKey | k.self in r.types && k.args == [] && k.consts == [] ensures PartsHalt(w, c, k) {
      AllUnwind(w, c, k.self);
    }
    forall k, l | k in r.keys && l in r.keys ensures ComparisonHalts(w, c, k, l) {
      KeyComparisonHalts(w, c, k, l);
    }
    forall k, t: Ty | k in r.keys && t in r.types && t.Projection? ensures ComparisonHalts(w, c, k, OriginalKey(t)) {
      KeyComparisonHalts(w, c, k, OriginalKey(t));
    }
  }

  /** No rank fits any region of such a program that has `P` in it. */
  lemma {:induction false} UnwindingHasNoRank(w: World, c: Ctx, r: Region, level: ProjKey -> nat)
    requires Unwinds(w, c) && P in r.types
    ensures !Ranked(w, c, r, level)
  {
    var none: seq<ProjKey> := [];
    assert InstTys(w, c, [], EMPTY, none, 1) == Some([]) && InstConsts(w, c, [], EMPTY, none, 1) == Some([]);
    assert Forms(w, c, P, EMPTY, none, 1, KP) && ActiveIn(r.keys, none);
    assert w.resolve(c, KP, [], []) == Some(Q);
    assert KeyRanked(r, r.rank(Q), OriginalKey(Q)) ==> r.rank(P) < r.rank(Q);
  }

  /** So a closed region can halt everywhere although no rank fits it. */
  lemma {:induction false} RankIsNotNeeded(w: World, c: Ctx)
    requires Unwinds(w, c)
    ensures Closed(w, c, UnwindingRegion(CyclicRank)) && AllHalt(w, c, UnwindingRegion(CyclicRank))
    ensures forall r: Region, level: ProjKey -> nat | P in r.types :: !Ranked(w, c, r, level)
  {
    UnwindingIsClosed(w, c);
    UnwindingIsComparable(w, c, CyclicRank);
    HaltsIffComparable(w, c, UnwindingRegion(CyclicRank));
    forall r: Region, level: ProjKey -> nat | P in r.types ensures !Ranked(w, c, r, level) {
      UnwindingHasNoRank(w, c, r, level);
    }
  }
}
