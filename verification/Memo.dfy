/** The memoised instantiation. The cache is consulted and filled only while no projection is active; comparisons made
    under an active projection start over with a fresh stack and so use it too. */
module Memo {
  import opened Collections
  import opened Options
  import opened Scopes
  import opened Types
  import opened Substitution
  import opened Instantiation

  datatype CacheKey = CacheKey(ctx: Ctx, ty: Ty, scope: Scope)

  class TypeContext {
    const w: World
    var cache: map<CacheKey, Ty>

    /** Every entry is the cache-free result of its key on an empty projection stack. */
    ghost predicate Valid()
      reads this
    {
      forall k | k in cache :: exists f: nat :: f > 0 && Node(w, k.ctx, k.ty, k.scope, [], f) == Some(cache[k])
    }

    constructor (world: World)
      ensures Valid() && w == world && cache == map[]
    {
      w := world;
      cache := map[];
    }

    /** Agrees with the cache-free instantiation: an answer is an answer of that one, and whatever that one answers
        within the same fuel is the answer here, whatever the cache holds. */
    method Instantiate(c: Ctx, t: Ty, s: Scope, active: seq<ProjKey>, fuel: nat) returns (r: Option<Ty>, ghost g: nat)
      requires Valid()
      modifies this`cache
      ensures Valid()
      ensures r.Some? ==> Inst(w, c, t, s, active, g) == r
      ensures Inst(w, c, t, s, active, fuel).Some? ==> r == Inst(w, c, t, s, active, fuel)
      decreases fuel, 1
    {
      if fuel == 0 {
        return None, 0;
      }
      var n := w.normalize(t);
      var key := CacheKey(c, n, s);
      if active == [] && key in cache {
        r := Some(cache[key]);
        g :| g > 0 && Node(w, c, n, s, [], g) == r;
        if Inst(w, c, t, s, active, fuel).Some? {
          NodeMono(w, c, n, s, active, g, Max(fuel, g));
          NodeMono(w, c, n, s, active, fuel, Max(fuel, g));
        }
        return;
      }
      r, g := InstantiateNode(c, n, s, active, fuel);
      if active == [] && r.Some? {
        cache := cache[key := r.value];
      }
    }

    method InstantiateNode(c: Ctx, t: Ty, s: Scope, active: seq<ProjKey>, fuel: nat)
      returns (r: Option<Ty>, ghost g: nat)
      requires Valid() && fuel > 0
      modifies this`cache
      ensures Valid() && g > 0
      ensures r.Some? ==> Node(w, c, t, s, active, g) == r
      ensures Node(w, c, t, s, active, fuel).Some? ==> r == Node(w, c, t, s, active, fuel)
      decreases fuel, 0
    {
      g := 1;
      match t
      case Atom(_) => r := Some(t);
      case Generic(name) => r := Some(if name in s.types then s.types[name] else t);
      case SelfParam => r := Some(if s.self.Some? then s.self.value else t);
      case Pointer(readonly, elem) =>
        var e, f := Instantiate(c, elem, s, active, fuel - 1);
        r, g := if e.Some? then Some(PointerTo(readonly, e.value)) else None, f + 1;
      case Array(len, elem) =>
        var e, f := Instantiate(c, elem, s, active, fuel - 1);
        r, g := if e.Some? then Some(Array(InstLen(len, s), e.value)) else None, f + 1;
      case Form(_, _, _, _) => r, g := InstantiateForm(c, t, s, active, fuel);
      case Projection(_, _, _, _, _) => r, g := InstantiateProjection(c, t, s, active, fuel);
    }

    method InstantiateForm(c: Ctx, t: Ty, s: Scope, active: seq<ProjKey>, fuel: nat)
      returns (r: Option<Ty>, ghost g: nat)
      requires Valid() && fuel > 0 && t.Form?
      modifies this`cache
      ensures Valid() && g > 0
      ensures r.Some? ==> Node(w, c, t, s, active, g) == r
      ensures Node(w, c, t, s, active, fuel).Some? ==> r == Node(w, c, t, s, active, fuel)
      decreases fuel - 1, 6
    {
      var args, ga := InstantiateTys(c, t.args, s, active, fuel - 1);
      if args.None? {
        return None, 1;
      }
      var consts, gc := InstantiateConsts(c, t.consts, s, active, fuel - 1);
      if consts.None? {
        return None, 1;
      }
      if t.tag.Nominal? && t.tag.def in w.aliases {
        ghost var f: nat;
        var alias := w.aliases[t.tag.def];
        r, f := InstantiateAlias(c, alias, args.value, consts.value, s, active, fuel - 1);
        g := Max(Max(ga, gc), f);
        if r.Some? {
          InstAliasMono(w, c, alias, args.value, consts.value, s, active, f, g);
        }
      } else {
        var bindings, f := InstantiateBindings(c, t.bindings, s, active, fuel - 1);
        g := Max(Max(ga, gc), f);
        r := if bindings.Some? then Some(Form(t.tag, args.value, consts.value, bindings.value)) else None;
        if r.Some? {
          InstBindingsMono(w, c, t.bindings, s, active, f, g);
        }
      }
      InstTysMono(w, c, t.args, s, active, ga, g);
      InstConstsMono(w, c, t.consts, s, active, gc, g);
      g := g + 1;
    }

    method InstantiateProjection(c: Ctx, t: Ty, s: Scope, active: seq<ProjKey>, fuel: nat)
      returns (r: Option<Ty>, ghost g: nat)
      requires Valid() && fuel > 0 && t.Projection?
      modifies this`cache
      ensures Valid() && g > 0
      ensures r.Some? ==> Node(w, c, t, s, active, g) == r
      ensures Node(w, c, t, s, active, fuel).Some? ==> r == Node(w, c, t, s, active, fuel)
      decreases fuel - 1, 7
    {
      var self, gs := Instantiate(c, t.self, s, active, fuel - 1);
      if self.None? {
        return None, 1;
      }
      var args, ga := InstantiateTys(c, t.args, s, active, fuel - 1);
      if args.None? {
        return None, 1;
      }
      var consts, gc := InstantiateConsts(c, t.consts, s, active, fuel - 1);
      if consts.None? {
        return None, 1;
      }
      var key := ProjKey(self.value, t.owner, args.value, consts.value, t.name);
      ghost var f: nat;
      r, f := Resolve(c, t, key, s, active, fuel - 1);
      g := Max(Max(gs, ga), Max(gc, f));
      InstMono(w, c, t.self, s, active, gs, g);
      InstTysMono(w, c, t.args, s, active, ga, g);
      InstConstsMono(w, c, t.consts, s, active, gc, g);
      if r.Some? {
        InstProjectionMono(w, c, t, key, s, active, f, g);
      }
      g := g + 1;
    }

    method Resolve(c: Ctx, t: Ty, key: ProjKey, s: Scope, active: seq<ProjKey>, fuel: nat)
      returns (r: Option<Ty>, ghost g: nat)
      requires Valid() && t.Projection?
      modifies this`cache
      ensures Valid()
      ensures r.Some? ==> InstProjection(w, c, t, key, s, active, g) == r
      ensures InstProjection(w, c, t, key, s, active, fuel).Some? ==> r == InstProjection(w, c, t, key, s, active, fuel)
      decreases fuel, 6
    {
      var projection := Projection(key.self, key.owner, key.args, key.consts, key.name);
      var hit, gh := MatchesActive(c, active, key, fuel);
      if hit.None? {
        return None, 0;
      }
      if hit.value {
        return Some(projection), gh;
      }
      var pushed := active + [key];
      var tys, gt := InstantiateTys(c, w.assumptionTys(c), s, pushed, fuel);
      if tys.None? {
        return None, 0;
      }
      var consts, gc := InstantiateConsts(c, w.assumptionConsts(c), s, pushed, fuel);
      if consts.None? {
        return None, 0;
      }
      ghost var f: nat;
      match w.resolve(c, key, tys.value, consts.value) {
        case Some(resolved) =>
          r, f := Instantiate(c, resolved, s, pushed, fuel);
          g := Max(Max(gh, gt), Max(gc, f));
          if r.Some? {
            InstMono(w, c, resolved, s, pushed, f, g);
          }
        case None =>
          var original := ProjKey(t.self, t.owner, t.args, t.consts, t.name);
          var kept;
          kept, f := KeysMatch(c, key, original, fuel);
          g := Max(Max(gh, gt), Max(gc, f));
          r := if kept.Some? then Some(if kept.value then t else projection) else None;
          if r.Some? {
            KeyMatchMono(w, c, key, original, f, g);
          }
      }
      AnyActiveMono(w, c, active, key, gh, g);
      InstTysMono(w, c, w.assumptionTys(c), s, pushed, gt, g);
      InstConstsMono(w, c, w.assumptionConsts(c), s, pushed, gc, g);
    }

    method InstantiateAlias(c: Ctx, alias: Alias, args: seq<Ty>, consts: seq<ConstArg>, s: Scope, active: seq<ProjKey>,
                            fuel: nat) returns (r: Option<Ty>, ghost g: nat)
      requires Valid()
      modifies this`cache
      ensures Valid()
      ensures r.Some? ==> InstAlias(w, c, alias, args, consts, s, active, g) == r
      ensures InstAlias(w, c, alias, args, consts, s, active, fuel).Some? ==>
                r == InstAlias(w, c, alias, args, consts, s, active, fuel)
      decreases fuel, 2
    {
      if alias.arity != |args| + |consts| {
        return Some(w.errorTy), 0;
      }
      var scope := ScopeOf(alias.params, args, consts);
      var target, gt := Instantiate(c, alias.target, scope, active, fuel);
      if target.None? {
        return None, 0;
      }
      ghost var f: nat;
      r, f := Instantiate(c, target.value, s, active, fuel);
      g := Max(gt, f);
      InstMono(w, c, alias.target, scope, active, gt, g);
      if r.Some? {
        InstMono(w, c, target.value, s, active, f, g);
      }
    }

    method InstantiateTys(c: Ctx, ts: seq<Ty>, s: Scope, active: seq<ProjKey>, fuel: nat)
      returns (r: Option<seq<Ty>>, ghost g: nat)
      requires Valid()
      modifies this`cache
      ensures Valid()
      ensures r.Some? ==> InstTys(w, c, ts, s, active, g) == r
      ensures InstTys(w, c, ts, s, active, fuel).Some? ==> r == InstTys(w, c, ts, s, active, fuel)
      decreases fuel, 2, |ts|
    {
      if ts == [] {
        return Some([]), 0;
      }
      var head, gh := Instantiate(c, ts[0], s, active, fuel);
      if head.None? {
        return None, 0;
      }
      var tail, gt := InstantiateTys(c, ts[1..], s, active, fuel);
      if tail.None? {
        return None, 0;
      }
      r, g := Some([head.value] + tail.value), Max(gh, gt);
      InstMono(w, c, ts[0], s, active, gh, g);
      InstTysMono(w, c, ts[1..], s, active, gt, g);
    }

    method InstantiateConst(c: Ctx, arg: ConstArg, s: Scope, active: seq<ProjKey>, fuel: nat)
      returns (r: Option<ConstArg>, ghost g: nat)
      requires Valid()
      modifies this`cache
      ensures Valid()
      ensures r.Some? ==> InstConst(w, c, arg, s, active, g) == r
      ensures InstConst(w, c, arg, s, active, fuel).Some? ==> r == InstConst(w, c, arg, s, active, fuel)
      decreases fuel, 2
    {
      if arg.value.CParam? && arg.value.name in s.consts {
        if fuel == 0 {
          return None, 0;
        }
        r, g := InstantiateConst(c, s.consts[arg.value.name], s, active, fuel - 1);
        g := g + 1;
      } else {
        var ty;
        ty, g := Instantiate(c, arg.ty, s, active, fuel);
        r := if ty.Some? then Some(ConstArg(ty.value, arg.value)) else None;
      }
    }

    method InstantiateConsts(c: Ctx, cs: seq<ConstArg>, s: Scope, active: seq<ProjKey>, fuel: nat)
      returns (r: Option<seq<ConstArg>>, ghost g: nat)
      requires Valid()
      modifies this`cache
      ensures Valid()
      ensures r.Some? ==> InstConsts(w, c, cs, s, active, g) == r
      ensures InstConsts(w, c, cs, s, active, fuel).Some? ==> r == InstConsts(w, c, cs, s, active, fuel)
      decreases fuel, 3, |cs|
    {
      if cs == [] {
        return Some([]), 0;
      }
      var head, gh := InstantiateConst(c, cs[0], s, active, fuel);
      if head.None? {
        return None, 0;
      }
      var tail, gt := InstantiateConsts(c, cs[1..], s, active, fuel);
      if tail.None? {
        return None, 0;
      }
      r, g := Some([head.value] + tail.value), Max(gh, gt);
      InstConstMono(w, c, cs[0], s, active, gh, g);
      InstConstsMono(w, c, cs[1..], s, active, gt, g);
    }

    method InstantiateBindings(c: Ctx, bs: seq<Binding>, s: Scope, active: seq<ProjKey>, fuel: nat)
      returns (r: Option<seq<Binding>>, ghost g: nat)
      requires Valid()
      modifies this`cache
      ensures Valid()
      ensures r.Some? ==> InstBindings(w, c, bs, s, active, g) == r
      ensures InstBindings(w, c, bs, s, active, fuel).Some? ==> r == InstBindings(w, c, bs, s, active, fuel)
      decreases fuel, 5, |bs|
    {
      if bs == [] {
        return Some([]), 0;
      }
      var head, gh := InstantiateBinding(c, bs[0], s, active, fuel);
      if head.None? {
        return None, 0;
      }
      var tail, gt := InstantiateBindings(c, bs[1..], s, active, fuel);
      if tail.None? {
        return None, 0;
      }
      r, g := Some([head.value] + tail.value), Max(gh, gt);
      InstBindingMono(w, c, bs[0], s, active, gh, g);
      InstBindingsMono(w, c, bs[1..], s, active, gt, g);
    }

    method InstantiateBinding(c: Ctx, b: Binding, s: Scope, active: seq<ProjKey>, fuel: nat)
      returns (r: Option<Binding>, ghost g: nat)
      requires Valid()
      modifies this`cache
      ensures Valid()
      ensures r.Some? ==> InstBinding(w, c, b, s, active, g) == r
      ensures InstBinding(w, c, b, s, active, fuel).Some? ==> r == InstBinding(w, c, b, s, active, fuel)
      decreases fuel, 4
    {
      var args, ga := InstantiateTys(c, b.args, s, active, fuel);
      if args.None? {
        return None, 0;
      }
      var consts, gc := InstantiateConsts(c, b.consts, s, active, fuel);
      if consts.None? {
        return None, 0;
      }
      var ty, gt := Instantiate(c, b.ty, s, active, fuel);
      if ty.None? {
        return None, 0;
      }
      r, g := Some(Binding(b.owner, b.name, args.value, consts.value, ty.value)), Max(Max(ga, gc), gt);
      InstTysMono(w, c, b.args, s, active, ga, g);
      InstConstsMono(w, c, b.consts, s, active, gc, g);
      InstMono(w, c, b.ty, s, active, gt, g);
    }

    method TypesMatch(c: Ctx, a: seq<Ty>, b: seq<Ty>, fuel: nat) returns (r: Option<bool>, ghost g: nat)
      requires Valid() && |a| == |b|
      modifies this`cache
      ensures Valid()
      ensures r.Some? ==> TysMatch(w, c, a, b, g) == r
      ensures TysMatch(w, c, a, b, fuel).Some? ==> r == TysMatch(w, c, a, b, fuel)
      decreases fuel, 3, |a|
    {
      if a == [] {
        return Some(true), 0;
      }
      var x, gx := Instantiate(c, a[0], EMPTY, [], fuel);
      if x.None? {
        return None, 0;
      }
      var y, gy := Instantiate(c, b[0], EMPTY, [], fuel);
      if y.None? {
        return None, 0;
      }
      g := Max(gx, gy);
      if SameTy(Backtracking, w.lens, x.value, y.value) {
        ghost var f: nat;
        r, f := TypesMatch(c, a[1..], b[1..], fuel);
        g := Max(g, f);
        if r.Some? {
          TysMatchMono(w, c, a[1..], b[1..], f, g);
        }
      } else {
        r := Some(false);
      }
      InstMono(w, c, a[0], EMPTY, [], gx, g);
      InstMono(w, c, b[0], EMPTY, [], gy, g);
    }

    method ConstArgsMatch(c: Ctx, a: seq<ConstArg>, b: seq<ConstArg>, fuel: nat) returns (r: Option<bool>, ghost g: nat)
      requires Valid() && |a| == |b|
      modifies this`cache
      ensures Valid()
      ensures r.Some? ==> ConstsMatch(w, c, a, b, g) == r
      ensures ConstsMatch(w, c, a, b, fuel).Some? ==> r == ConstsMatch(w, c, a, b, fuel)
      decreases fuel, 4, |a|
    {
      if a == [] {
        return Some(true), 0;
      }
      var same, gs := TypesMatch(c, [a[0].ty], [b[0].ty], fuel);
      if same.None? {
        return None, 0;
      }
      if same.value && SameConstValue(w.lens, a[0].value, b[0].value) {
        ghost var f: nat;
        r, f := ConstArgsMatch(c, a[1..], b[1..], fuel);
        g := Max(gs, f);
        if r.Some? {
          ConstsMatchMono(w, c, a[1..], b[1..], f, g);
        }
      } else {
        r, g := Some(false), gs;
      }
      TysMatchMono(w, c, [a[0].ty], [b[0].ty], gs, g);
    }

    method KeysMatch(c: Ctx, a: ProjKey, b: ProjKey, fuel: nat) returns (r: Option<bool>, ghost g: nat)
      requires Valid()
      modifies this`cache
      ensures Valid()
      ensures r.Some? ==> KeyMatch(w, c, a, b, g) == r
      ensures KeyMatch(w, c, a, b, fuel).Some? ==> r == KeyMatch(w, c, a, b, fuel)
      decreases fuel, 5, 0
    {
      if a.owner != b.owner || a.name != b.name {
        return Some(false), 0;
      }
      var self, gs := TypesMatch(c, [a.self], [b.self], fuel);
      if self.None? {
        return None, 0;
      }
      if !self.value || |a.args| != |b.args| {
        return Some(false), gs;
      }
      var args, ga := TypesMatch(c, a.args, b.args, fuel);
      if args.None? {
        return None, 0;
      }
      g := Max(gs, ga);
      if !args.value || |a.consts| != |b.consts| {
        r := Some(false);
      } else {
        ghost var f: nat;
        r, f := ConstArgsMatch(c, a.consts, b.consts, fuel);
        g := Max(g, f);
        if r.Some? {
          ConstsMatchMono(w, c, a.consts, b.consts, f, g);
        }
      }
      TysMatchMono(w, c, [a.self], [b.self], gs, g);
      TysMatchMono(w, c, a.args, b.args, ga, g);
    }

    method MatchesActive(c: Ctx, active: seq<ProjKey>, key: ProjKey, fuel: nat) returns (r: Option<bool>, ghost g: nat)
      requires Valid()
      modifies this`cache
      ensures Valid()
      ensures r.Some? ==> AnyActive(w, c, active, key, g) == r
      ensures AnyActive(w, c, active, key, fuel).Some? ==> r == AnyActive(w, c, active, key, fuel)
      decreases fuel, 5, 1, |active|
    {
      if active == [] {
        return Some(false), 0;
      }
      var hit, gh := KeysMatch(c, active[0], key, fuel);
      if hit.None? {
        return None, 0;
      }
      if hit.value {
        return Some(true), gh;
      }
      ghost var f: nat;
      r, f := MatchesActive(c, active[1..], key, fuel);
      g := Max(gh, f);
      KeyMatchMono(w, c, active[0], key, gh, g);
      if r.Some? {
        AnyActiveMono(w, c, active[1..], key, f, g);
      }
    }
  }
}
