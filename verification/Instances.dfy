/** The function-instance worklist: bounded materialization of the instances reachable from a set of references. */
module Instances {
  import opened Collections
  import opened Options
  import opened Types
  import opened Substitution

  const MAX_FUNCTION_INSTANCES := 4096
  const MAX_TYPE_DEPTH := 256

  datatype Def = Def(unit: nat, id: nat)

  datatype Key = Key(def: Def, argUnit: nat, self: Option<Ty>, args: seq<Ty>, consts: seq<ConstArg>)

  /** What the worklist asks the rest of the compiler. `canonSelf` and `canonArg` canonicalize, `unresolved` recognizes
      a closure state of an uninstantiated owner, `symbol` says that the instance can be named, `template` that a body
      template exists, and `discover` gives the references in the instantiated body, if there is one. */
  datatype World = World(
    unit: nat, error: nat, canonSelf: Ty -> Ty, canonArg: Ty -> Ty, unresolved: Ty -> bool,
    symbol: Key -> bool, template: Def -> bool, discover: Key -> Option<seq<Key>>)

  function CanonKey(w: World, k: Key): Key {
    k.(self := if k.self.Some? then Some(w.canonSelf(k.self.value)) else None,
       args := seq(|k.args|, i requires 0 <= i < |k.args| => w.canonArg(k.args[i])))
  }

  /** Two references stand for the same instance if and only if they name the same definition, argument module and const
      arguments, and their self types and arguments have the same canonical forms. */
  lemma {:induction false} SameInstanceIff(w: World, a: Key, b: Key)
    ensures CanonKey(w, a) == CanonKey(w, b) <==>
      && a.def == b.def && a.argUnit == b.argUnit && a.consts == b.consts
      && (a.self.None? <==> b.self.None?)
      && (a.self.Some? && b.self.Some? ==> w.canonSelf(a.self.value) == w.canonSelf(b.self.value))
      && |a.args| == |b.args| && forall i | 0 <= i < |a.args| :: w.canonArg(a.args[i]) == w.canonArg(b.args[i])
  {
    var ka, kb := CanonKey(w, a), CanonKey(w, b);
    if ka == kb {
      forall i | 0 <= i < |a.args| ensures w.canonArg(a.args[i]) == w.canonArg(b.args[i]) {
        assert ka.args[i] == kb.args[i];
      }
    } else if |a.args| == |b.args| && forall i | 0 <= i < |a.args| :: w.canonArg(a.args[i]) == w.canonArg(b.args[i]) {
      assert ka.args == kb.args;
    }
  }

  // ---------------------------------------------------------------------------------------------------------------
  // Filters on types.

  datatype Unwanted = AProjection | AnError(id: nat)

  predicate Is(u: Unwanted, t: Ty) {
    match u
    case AProjection => t.Projection?
    case AnError(id) => t == Atom(id)
  }

  /** The type is unwanted or has an unwanted component. */
  predicate Contains(u: Unwanted, t: Ty)
    decreases t, 0
  {
    Is(u, t) ||
    match t
    case Pointer(_, elem) => Contains(u, elem)
    case Array(len, elem) => Contains(u, elem) || (len.LenBuiltin? && Contains(u, len.operand))
    case Form(_, args, consts, bindings) =>
      ContainsTys(u, args) || ContainsConsts(u, consts) || ContainsBindings(u, bindings)
    case Projection(self, _, args, consts, _) => Contains(u, self) || ContainsTys(u, args) || ContainsConsts(u, consts)
    case _ => false
  }

  predicate ContainsTys(u: Unwanted, ts: seq<Ty>)
    decreases ts, 0
  {
    exists i | 0 <= i < |ts| :: Contains(u, ts[i])
  }

  predicate ContainsConst(u: Unwanted, c: ConstArg)
    decreases c, 0
  {
    Contains(u, c.ty)
  }

  predicate ContainsConsts(u: Unwanted, cs: seq<ConstArg>)
    decreases cs, 0
  {
    exists i | 0 <= i < |cs| :: ContainsConst(u, cs[i])
  }

  predicate ContainsBinding(u: Unwanted, b: Binding)
    decreases b, 0
  {
    ContainsTys(u, b.args) || ContainsConsts(u, b.consts) || Contains(u, b.ty)
  }

  predicate ContainsBindings(u: Unwanted, bs: seq<Binding>)
    decreases bs, 0
  {
    exists i | 0 <= i < |bs| :: ContainsBinding(u, bs[i])
  }

  predicate Exceeds(t: Ty, remaining: nat)
    decreases remaining, 0
  {
    remaining == 0 ||
    var next := remaining - 1;
    match t
    case Pointer(_, elem) => Exceeds(elem, next)
    case Array(len, elem) => Exceeds(elem, next) || (len.LenBuiltin? && Exceeds(len.operand, next))
    case Form(_, args, consts, bindings) =>
      || AnyExceeds(args, next)
      || AnyConstExceeds(consts, next)
      || exists i | 0 <= i < |bindings| :: BindingExceeds(bindings[i], next)
    case Projection(self, _, args, consts, _) =>
      Exceeds(self, next) || AnyExceeds(args, next) || AnyConstExceeds(consts, next)
    case _ => false
  }

  predicate AnyExceeds(ts: seq<Ty>, next: nat)
    decreases next, 1
  {
    exists i | 0 <= i < |ts| :: Exceeds(ts[i], next)
  }

  predicate AnyConstExceeds(cs: seq<ConstArg>, next: nat)
    decreases next, 1
  {
    exists i | 0 <= i < |cs| :: Exceeds(cs[i].ty, next)
  }

  predicate BindingExceeds(b: Binding, next: nat)
    decreases next, 2
  {
    AnyExceeds(b.args, next) || AnyConstExceeds(b.consts, next) || Exceeds(b.ty, next)
  }

  /** `c` is an immediate component of `t`. */
  ghost predicate Component(t: Ty, c: Ty) {
    match t
    case Pointer(_, elem) => c == elem
    case Array(len, elem) => c == elem || (len.LenBuiltin? && c == len.operand)
    case Form(_, args, consts, bindings) =>
      || c in args
      || ConstComponent(consts, c)
      || exists i | 0 <= i < |bindings| :: BindingComponent(bindings[i], c)
    case Projection(self, _, args, consts, _) => c == self || c in args || ConstComponent(consts, c)
    case _ => false
  }

  ghost predicate BindingComponent(b: Binding, c: Ty) {
    c in b.args || ConstComponent(b.consts, c) || c == b.ty
  }

  ghost predicate ConstComponent(cs: seq<ConstArg>, c: Ty) {
    exists i | 0 <= i < |cs| :: cs[i].ty == c
  }

  /** Types nested in each other, outermost first. */
  ghost predicate Chain(path: seq<Ty>) {
    forall i | 0 < i < |path| :: Component(path[i - 1], path[i])
  }

  /** Every chain that starts at `t` has at most `n` types. */
  ghost predicate DepthAtMost(t: Ty, n: nat) {
    forall path: seq<Ty> | path != [] && path[0] == t && Chain(path) :: |path| <= n
  }

  lemma {:induction false} ListHasDeep(ts: seq<Ty>, cs: seq<ConstArg>, next: nat) returns (c: Ty)
    requires AnyExceeds(ts, next) || AnyConstExceeds(cs, next)
    ensures (c in ts || ConstComponent(cs, c)) && Exceeds(c, next)
  {
    if AnyExceeds(ts, next) {
      var i :| 0 <= i < |ts| && Exceeds(ts[i], next);
      c := ts[i];
    } else {
      var i :| 0 <= i < |cs| && Exceeds(cs[i].ty, next);
      c := cs[i].ty;
    }
  }

  lemma {:induction false} HasDeepComponent(t: Ty, next: nat) returns (c: Ty)
    requires Exceeds(t, next + 1)
    ensures Component(t, c) && Exceeds(c, next)
  {
    match t
    case Pointer(_, elem) => c := elem;
    case Array(len, elem) => c := if Exceeds(elem, next) then elem else len.operand;
    case Form(_, args, consts, bindings) =>
      if AnyExceeds(args, next) || AnyConstExceeds(consts, next) {
        c := ListHasDeep(args, consts, next);
      } else {
        var i :| 0 <= i < |bindings| && BindingExceeds(bindings[i], next);
        if Exceeds(bindings[i].ty, next) {
          c := bindings[i].ty;
        } else {
          c := ListHasDeep(bindings[i].args, bindings[i].consts, next);
        }
        assert BindingComponent(bindings[i], c);
      }
    case Projection(self, _, args, consts, _) =>
      if Exceeds(self, next) {
        c := self;
      } else {
        c := ListHasDeep(args, consts, next);
      }
  }

  lemma {:induction false} DeepComponentExceeds(t: Ty, c: Ty, next: nat)
    requires Component(t, c) && Exceeds(c, next)
    ensures Exceeds(t, next + 1)
  {
    if t.Form? && !(c in t.args || ConstComponent(t.consts, c)) {
      var i :| 0 <= i < |t.bindings| && BindingComponent(t.bindings[i], c);
      assert BindingExceeds(t.bindings[i], next);
    }
  }

  /** The recursion with a budget decides nesting depth. */
  lemma {:induction false} ExceedsIffDeep(t: Ty, n: nat)
    ensures Exceeds(t, n) <==> !DepthAtMost(t, n)
  {
    if Exceeds(t, n) {
      var path := LongChain(t, n);
      assert |path| > n;
    } else if path: seq<Ty> :| path != [] && path[0] == t && Chain(path) && |path| > n {
      LongChainExceeds(path, n);
    }
  }

  lemma {:induction false} LongChain(t: Ty, n: nat) returns (path: seq<Ty>)
    requires Exceeds(t, n)
    ensures path != [] && path[0] == t && Chain(path) && |path| == n + 1
  {
    if n == 0 {
      path := [t];
    } else {
      var c := HasDeepComponent(t, n - 1);
      var rest := LongChain(c, n - 1);
      path := [t] + rest;
    }
  }

  lemma {:induction false} LongChainExceeds(path: seq<Ty>, n: nat)
    requires Chain(path) && |path| > n
    ensures Exceeds(path[0], n)
  {
    if n > 0 {
      var rest := path[1..];
      assert forall i | 0 < i < |rest| :: Component(rest[i - 1], rest[i]) by {
        assert forall i | 0 < i < |rest| :: rest[i] == path[i + 1] && rest[i - 1] == path[i];
      }
      LongChainExceeds(rest, n - 1);
      assert Component(path[0], path[1]);
      DeepComponentExceeds(path[0], path[1], n - 1);
    }
  }

  // ---------------------------------------------------------------------------------------------------------------
  // The worklist.

  /** Types that may be materialized: no generic, no projection left, no error. */
  predicate Ground(w: World, t: Ty) {
    !HasGeneric(t) && !Contains(AProjection, t) && !Contains(AnError(w.error), t)
  }

  /** A type that stands for another one that is not known yet, or for none. */
  ghost predicate Open(w: World, t: Ty) {
    t.Generic? || t.SelfParam? || t.Projection? || t == Atom(w.error)
  }

  /** `c` is `t` or nested in it. */
  ghost predicate Nested(t: Ty, c: Ty) {
    exists path: seq<Ty> :: path != [] && path[0] == t && Chain(path) && path[|path| - 1] == c
  }

  ghost predicate NothingOpen(w: World, t: Ty) {
    forall c | Nested(t, c) :: !Open(w, c)
  }

  ghost predicate Bad(w: World, t: Ty) {
    HasGeneric(t) || Contains(AProjection, t) || Contains(AnError(w.error), t)
  }

  /** The filter lets a type through if and only if nothing nested in it is a parameter, a projection or the error
      type. */
  lemma {:induction false} GroundIffNothingOpen(w: World, t: Ty)
    ensures Ground(w, t) <==> NothingOpen(w, t)
  {
    if !Ground(w, t) {
      var path := FindOpen(w, t);
      assert Nested(t, path[|path| - 1]);
    }
    forall c | Nested(t, c) && Open(w, c) ensures Bad(w, t) {
      var path: seq<Ty> :| path != [] && path[0] == t && Chain(path) && path[|path| - 1] == c;
      BadThrough(w, path);
    }
  }

  lemma {:induction false} BadThrough(w: World, path: seq<Ty>)
    requires path != [] && Chain(path) && Open(w, path[|path| - 1])
    ensures Bad(w, path[0])
  {
    if |path| > 1 {
      var rest := path[1..];
      assert forall i | 0 < i < |rest| :: Component(rest[i - 1], rest[i]) by {
        assert forall i | 0 < i < |rest| :: rest[i] == path[i + 1] && rest[i - 1] == path[i];
      }
      BadThrough(w, rest);
      assert Component(path[0], path[1]);
      GenericPart(path[0], path[1]);
      ContainedPart(AProjection, path[0], path[1]);
      ContainedPart(AnError(w.error), path[0], path[1]);
    }
  }

  lemma {:induction false} GenericPart(t: Ty, c: Ty)
    requires Component(t, c)
    ensures HasGeneric(c) ==> HasGeneric(t)
  {
    if HasGeneric(c) {
      if t.Form? || t.Projection? {
        if i :| 0 <= i < |t.consts| && t.consts[i].ty == c {
          assert ConstGeneric(t.consts[i]);
        }
      }
      if t.Form? {
        if i :| 0 <= i < |t.bindings| && BindingComponent(t.bindings[i], c) {
          GenericInBinding(t.bindings[i], c);
        }
      }
    }
  }

  lemma {:induction false} GenericInBinding(b: Binding, c: Ty)
    requires BindingComponent(b, c) && HasGeneric(c)
    ensures BindingGeneric(b)
  {
    if i :| 0 <= i < |b.consts| && b.consts[i].ty == c {
      assert ConstGeneric(b.consts[i]);
    }
  }

  lemma {:induction false} ContainedPart(u: Unwanted, t: Ty, c: Ty)
    requires Component(t, c)
    ensures Contains(u, c) ==> Contains(u, t)
  {
    if Contains(u, c) {
      if t.Form? || t.Projection? {
        if i :| 0 <= i < |t.consts| && t.consts[i].ty == c {
          assert ContainsConst(u, t.consts[i]);
        }
      }
      if t.Form? {
        if i :| 0 <= i < |t.bindings| && BindingComponent(t.bindings[i], c) {
          ContainedInBinding(u, t.bindings[i], c);
        }
      }
    }
  }

  lemma {:induction false} ContainedInBinding(u: Unwanted, b: Binding, c: Ty)
    requires BindingComponent(b, c) && Contains(u, c)
    ensures ContainsBinding(u, b)
  {
    if i :| 0 <= i < |b.consts| && b.consts[i].ty == c {
      assert ContainsConst(u, b.consts[i]);
    }
  }

  lemma {:induction false} FindOpen(w: World, t: Ty) returns (path: seq<Ty>)
    requires Bad(w, t)
    ensures path != [] && path[0] == t && Chain(path) && Open(w, path[|path| - 1])
    decreases t
  {
    if Open(w, t) {
      path := [t];
    } else {
      var c := BadPart(w, t);
      var rest := FindOpen(w, c);
      path := [t] + rest;
    }
  }

  lemma {:induction false} BadPart(w: World, t: Ty) returns (c: Ty)
    requires Bad(w, t) && !Open(w, t)
    ensures Component(t, c) && Bad(w, c) && c < t
  {
    if HasGeneric(t) {
      c := GenericComponent(t);
    } else if Contains(AProjection, t) {
      c := ContainedComponent(AProjection, t);
    } else {
      c := ContainedComponent(AnError(w.error), t);
    }
  }

  lemma {:induction false} GenericComponent(t: Ty) returns (c: Ty)
    requires HasGeneric(t) && !t.Generic? && !t.SelfParam? && !t.Projection?
    ensures Component(t, c) && HasGeneric(c) && c < t
  {
    match t
    case Pointer(_, elem) => c := elem;
    case Array(len, elem) => c := if HasGeneric(elem) then elem else len.operand;
    case Form(_, args, consts, bindings) =>
      if AnyGeneric(args) {
        var i :| 0 <= i < |args| && HasGeneric(args[i]);
        c := args[i];
      } else if AnyConst(consts) {
        var i :| 0 <= i < |consts| && ConstGeneric(consts[i]);
        c := consts[i].ty;
      } else {
        var i :| 0 <= i < |bindings| && BindingGeneric(bindings[i]);
        c := GenericOfBinding(bindings[i]);
        assert BindingComponent(bindings[i], c);
      }
  }

  lemma {:induction false} GenericOfBinding(b: Binding) returns (c: Ty)
    requires BindingGeneric(b)
    ensures BindingComponent(b, c) && HasGeneric(c) && c < b
  {
    if AnyGeneric(b.args) {
      var i :| 0 <= i < |b.args| && HasGeneric(b.args[i]);
      c := b.args[i];
    } else if AnyConst(b.consts) {
      var i :| 0 <= i < |b.consts| && ConstGeneric(b.consts[i]);
      c := b.consts[i].ty;
    } else {
      c := b.ty;
    }
  }

  lemma {:induction false} ContainedComponent(u: Unwanted, t: Ty) returns (c: Ty)
    requires Contains(u, t) && !Is(u, t) && !t.Projection?
    ensures Component(t, c) && Contains(u, c) && c < t
  {
    match t
    case Pointer(_, elem) => c := elem;
    case Array(len, elem) => c := if Contains(u, elem) then elem else len.operand;
    case Form(_, args, consts, bindings) =>
      if ContainsTys(u, args) {
        var i :| 0 <= i < |args| && Contains(u, args[i]);
        c := args[i];
      } else if ContainsConsts(u, consts) {
        var i :| 0 <= i < |consts| && ContainsConst(u, consts[i]);
        c := consts[i].ty;
      } else {
        var i :| 0 <= i < |bindings| && ContainsBinding(u, bindings[i]);
        c := ContainedOfBinding(u, bindings[i]);
        assert BindingComponent(bindings[i], c);
      }
  }

  lemma {:induction false} ContainedOfBinding(u: Unwanted, b: Binding) returns (c: Ty)
    requires ContainsBinding(u, b)
    ensures BindingComponent(b, c) && Contains(u, c) && c < b
  {
    if ContainsTys(u, b.args) {
      var i :| 0 <= i < |b.args| && Contains(u, b.args[i]);
      c := b.args[i];
    } else if ContainsConsts(u, b.consts) {
      var i :| 0 <= i < |b.consts| && ContainsConst(u, b.consts[i]);
      c := b.consts[i].ty;
    } else {
      c := b.ty;
    }
  }

  predicate AllGround(w: World, k: Key) {
    && (forall i | 0 <= i < |k.args| :: Ground(w, k.args[i]))
    && (forall i | 0 <= i < |k.consts| :: Ground(w, k.consts[i].ty))
  }

  predicate AllShallow(k: Key) {
    && (forall i | 0 <= i < |k.args| :: !Exceeds(k.args[i], MAX_TYPE_DEPTH))
    && (forall i | 0 <= i < |k.consts| :: !Exceeds(k.consts[i].ty, MAX_TYPE_DEPTH))
  }

  predicate Unresolved(w: World, k: Key) {
    exists i | 0 <= i < |k.args| :: w.unresolved(k.args[i])
  }

  /** Some argument is a closure state of an uninstantiated owner. */
  ghost predicate HasUnresolved(w: World, k: Key) {
    exists t :: t in k.args && w.unresolved(t)
  }

  /** `limited` when the instance limit stopped a materialization. */
  datatype Work = Work(
    pending: seq<Key>, queued: set<Key>, seen: set<Key>, instances: seq<Key>, foreign: seq<Key>, limited: bool)

  /** A key that is never materialized again: it existed, was materialized here, or has no template. */
  ghost predicate Closed(w: World, known: set<Key>, work: Work, key: Key) {
    key in known || key in work.instances || !w.template(key.def)
  }

  /** A reference is materialized, forwarded to its own module, or dropped by one of the filters. */
  ghost predicate Settled(w: World, known: set<Key>, work: Work, k: Key) {
    || (k.def.unit != w.unit && k in work.foreign)
    || (k.def.unit == w.unit && HasUnresolved(w, k))
    || (k.def.unit == w.unit && SettledKey(w, known, work, CanonKey(w, k)))
  }

  ghost predicate SettledKey(w: World, known: set<Key>, work: Work, key: Key) {
    Closed(w, known, work, key) || !AllGround(w, key) || !AllShallow(key) || !w.symbol(key) || work.limited
  }

  /** What every filter lets through. */
  ghost predicate Admitted(w: World, key: Key) {
    key.def.unit == w.unit && AllGround(w, key) && AllShallow(key) && w.symbol(key) && w.template(key.def)
  }

  ghost predicate Discovered(w: World, known: set<Key>, work: Work, d: Key) {
    CanonKey(w, d) in work.queued || Closed(w, known, work, CanonKey(w, d))
  }

  /** What holds between two turns of the loop. */
  ghost predicate Valid(w: World, known: set<Key>, work: Work) {
    && (forall k | k in work.pending :: k in work.queued)
    && (forall k | k in work.queued :: k in work.pending || Settled(w, known, work, k))
    && (forall key | key in work.seen :: Closed(w, known, work, key))
    && (forall key | key in known || key in work.instances :: key in work.seen)
    && (forall i, j | 0 <= i < j < |work.instances| :: work.instances[i] != work.instances[j])
    && (forall i | 0 <= i < |work.instances| :: work.instances[i] !in known && Admitted(w, work.instances[i]))
    && (forall key | key in work.instances && w.discover(key).Some? ::
         AllDiscovered(w, known, work, w.discover(key).value))
  }

  ghost predicate AllDiscovered(w: World, known: set<Key>, work: Work, ds: seq<Key>) {
    forall j | 0 <= j < |ds| :: Discovered(w, known, work, ds[j])
  }

  /** `k` is an initial reference, or the body of one of `instances` refers to it. */
  ghost predicate Named(w: World, initial: seq<Key>, instances: seq<Key>, k: Key) {
    k in initial || exists i | 0 <= i < |instances| :: Refers(w, instances[i], k)
  }

  ghost predicate Refers(w: World, key: Key, k: Key) {
    w.discover(key).Some? && exists j | 0 <= j < |w.discover(key).value| :: CanonKey(w, w.discover(key).value[j]) == k
  }

  /** Instance `i` was asked for before it was materialized. */
  ghost predicate AskedFor(w: World, initial: seq<Key>, instances: seq<Key>, i: nat)
    requires i < |instances|
  {
    exists k :: Named(w, initial, instances[..i], k) && CanonKey(w, k) == instances[i]
  }

  /** Nothing is queued, forwarded or materialized without a reference to it. */
  ghost predicate Justified(w: World, initial: seq<Key>, work: Work) {
    && (forall k | k in work.queued || k in work.foreign :: Named(w, initial, work.instances, k))
    && (forall k | k in work.foreign :: k.def.unit != w.unit)
    && (forall i | 0 <= i < |work.instances| :: AskedFor(w, initial, work.instances, i))
  }

  lemma {:induction false} StaysNamed(w: World, initial: seq<Key>, instances: seq<Key>, key: Key, k: Key)
    requires Named(w, initial, instances, k)
    ensures Named(w, initial, instances + [key], k)
  {
    if i :| 0 <= i < |instances| && Refers(w, instances[i], k) {
      assert Refers(w, (instances + [key])[i], k);
    }
  }

  lemma {:induction false} MaterializedIsJustified(w: World, initial: seq<Key>, work: Work, out: Work, key: Key, k: Key)
    requires Justified(w, initial, work) && k in work.queued && key == CanonKey(w, k)
    requires out.instances == work.instances + [key] && out.foreign == work.foreign
    requires forall q | q in out.queued :: q in work.queued || Refers(w, key, q)
    ensures Justified(w, initial, out)
  {
    forall q | q in out.queued || q in out.foreign ensures Named(w, initial, out.instances, q) {
      if q in work.queued || q in work.foreign {
        StaysNamed(w, initial, work.instances, key, q);
      } else {
        assert Refers(w, out.instances[|work.instances|], q);
      }
    }
    forall i | 0 <= i < |out.instances| ensures AskedFor(w, initial, out.instances, i) {
      if i < |work.instances| {
        assert AskedFor(w, initial, work.instances, i);
        assert out.instances[..i] == work.instances[..i];
      } else {
        assert out.instances[..i] == work.instances;
      }
    }
  }

  /** Later states settle what earlier ones did. */
  ghost predicate Grows(a: Work, b: Work) {
    && (forall k | k in a.queued :: k in b.queued)
    && (forall k | k in a.instances :: k in b.instances)
    && (forall k | k in a.foreign :: k in b.foreign)
    && (a.limited ==> b.limited)
  }

  lemma {:induction false} StaysSettled(w: World, known: set<Key>, a: Work, b: Work, k: Key)
    requires Grows(a, b) && Settled(w, known, a, k)
    ensures Settled(w, known, b, k)
  {
  }

  lemma {:induction false} StaysDiscovered(w: World, known: set<Key>, a: Work, b: Work, ds: seq<Key>)
    requires Grows(a, b) && AllDiscovered(w, known, a, ds)
    ensures AllDiscovered(w, known, b, ds)
  {
    forall j | 0 <= j < |ds| ensures Discovered(w, known, b, ds[j]) {
      assert Discovered(w, known, a, ds[j]);
    }
  }

  method Enqueue(work: Work, k: Key) returns (out: Work)
    ensures out == if k in work.queued then work else work.(queued := work.queued + {k}, pending := work.pending + [k])
  {
    out := work;
    if k !in work.queued {
      out := out.(queued := out.queued + {k}, pending := out.pending + [k]);
    }
  }

  method EnqueueDiscovered(w: World, work: Work, ds: seq<Key>) returns (out: Work)
    ensures out == work.(queued := out.queued, pending := out.pending)
    ensures forall k | k in work.queued :: k in out.queued
    ensures forall k | k in work.pending :: k in out.pending
    ensures forall k | k in out.queued :: k in work.queued || k in out.pending
    ensures forall k | k in out.pending :: k in work.pending || k in out.queued
    ensures forall j | 0 <= j < |ds| :: CanonKey(w, ds[j]) in out.queued || CanonKey(w, ds[j]) in work.seen
    ensures forall k | k in out.queued && k !in work.queued :: exists j | 0 <= j < |ds| :: CanonKey(w, ds[j]) == k
  {
    out := work;
    for j := 0 to |ds|
      invariant out == work.(queued := out.queued, pending := out.pending)
      invariant forall k | k in work.queued :: k in out.queued
      invariant forall k | k in work.pending :: k in out.pending
      invariant forall k | k in out.queued :: k in work.queued || k in out.pending
      invariant forall k | k in out.pending :: k in work.pending || k in out.queued
      invariant forall i | 0 <= i < j :: CanonKey(w, ds[i]) in out.queued || CanonKey(w, ds[i]) in work.seen
      invariant forall k | k in out.queued && k !in work.queued :: exists i | 0 <= i < |ds| :: CanonKey(w, ds[i]) == k
    {
      var d := CanonKey(w, ds[j]);
      if d !in work.seen {
        out := Enqueue(out, d);
      }
    }
  }

  function Budget(existing: nat, work: Work): nat {
    var known := existing + |work.instances|;
    if known < MAX_FUNCTION_INSTANCES then MAX_FUNCTION_INSTANCES - known else 0
  }

  /** The pending reference `k` is dropped or settled without a materialization. */
  lemma {:induction false} Dropped(w: World, known: set<Key>, before: Work, after: Work, k: Key)
    requires Valid(w, known, before) && before.pending != [] && k == before.pending[0]
    requires after.pending == before.pending[1..] && after.queued == before.queued &&
      after.instances == before.instances
    requires forall key | key in before.seen :: key in after.seen
    requires forall key | key in after.seen :: Closed(w, known, after, key)
    requires Grows(before, after) && Settled(w, known, after, k)
    ensures Valid(w, known, after)
  {
    forall q | q in after.queued ensures q in after.pending || Settled(w, known, after, q) {
      if q !in after.pending && q != k {
        assert q !in before.pending;
        StaysSettled(w, known, before, after, q);
      }
    }
    forall key | key in after.instances && w.discover(key).Some?
      ensures AllDiscovered(w, known, after, w.discover(key).value)
    {
      StaysDiscovered(w, known, before, after, w.discover(key).value);
    }
  }

  /** Materializes a new key and queues what its body refers to. */
  method Materialize(w: World, ghost known: set<Key>, work: Work, key: Key, ghost k: Key) returns (out: Work)
    requires Valid(w, known, work) && work.pending != [] && k == work.pending[0] && key == CanonKey(w, k)
    requires k.def.unit == w.unit && key !in work.seen && Admitted(w, key)
    ensures Valid(w, known, out) && Grows(work, out)
    ensures out.instances == work.instances + [key] && out.foreign == work.foreign && out.limited == work.limited
    ensures forall q | q in out.queued :: q in work.queued || Refers(w, key, q)
  {
    out := work.(pending := work.pending[1..], seen := work.seen + {key}, instances := work.instances + [key]);
    ghost var mid := out;
    var body := w.discover(key);
    if body.Some? {
      out := EnqueueDiscovered(w, out, body.value);
    }
    MaterializedIsValid(w, known, work, mid, out, key, k);
  }

  lemma {:induction false} MaterializedIsValid(
    w: World, known: set<Key>, work: Work, mid: Work, out: Work, key: Key, k: Key)
    requires Valid(w, known, work) && work.pending != [] && k == work.pending[0] && key == CanonKey(w, k)
    requires k.def.unit == w.unit && key !in work.seen && Admitted(w, key)
    requires mid == work.(pending := work.pending[1..], seen := work.seen + {key}, instances := work.instances + [key])
    requires out == mid.(queued := out.queued, pending := out.pending)
    requires forall q | q in mid.queued :: q in out.queued
    requires forall q | q in mid.pending :: q in out.pending
    requires forall q | q in out.queued :: q in mid.queued || q in out.pending
    requires forall q | q in out.pending :: q in mid.pending || q in out.queued
    requires w.discover(key).Some? ==>
      forall j | 0 <= j < |w.discover(key).value| ::
        CanonKey(w, w.discover(key).value[j]) in out.queued || CanonKey(w, w.discover(key).value[j]) in mid.seen
    ensures Valid(w, known, out) && Grows(work, out)
  {
    assert Grows(work, out);
    forall q | q in out.queued ensures q in out.pending || Settled(w, known, out, q) {
      if q !in out.pending && q != k {
        assert q in work.queued && q !in work.pending;
        StaysSettled(w, known, work, out, q);
      }
    }
    forall x | x in out.seen ensures Closed(w, known, out, x) {
      assert x in work.seen || x == key;
    }
    forall x | x in out.instances && w.discover(x).Some? ensures AllDiscovered(w, known, out, w.discover(x).value) {
      if x == key {
        assert forall j | 0 <= j < |w.discover(x).value| :: Discovered(w, known, out, w.discover(x).value[j]);
      } else {
        StaysDiscovered(w, known, work, out, w.discover(x).value);
      }
    }
  }

  /** One turn of the loop. */
  method Turn(w: World, existing: nat, ghost known: set<Key>, ghost initial: seq<Key>, work: Work) returns (out: Work)
    requires Valid(w, known, work) && Justified(w, initial, work) && work.pending != []
    ensures Valid(w, known, out) && Justified(w, initial, out) && Grows(work, out)
    ensures Budget(existing, out) < Budget(existing, work) ||
      (out.instances == work.instances && |out.pending| < |work.pending|)
    ensures existing + |out.instances| <= Max(existing + |work.instances|, MAX_FUNCTION_INSTANCES)
    ensures out.limited ==> work.limited || existing + |work.instances| >= MAX_FUNCTION_INSTANCES
  {
    var k := work.pending[0];
    out := work.(pending := work.pending[1..]);
    if k.def.unit != w.unit {
      out := out.(foreign := out.foreign + [k]);
      Dropped(w, known, work, out, k);
      return;
    }
    if Unresolved(w, k) {
      Dropped(w, known, work, out, k);
      return;
    }
    var key := CanonKey(w, k);
    if key in work.seen || !AllGround(w, key) || !AllShallow(key) {
      Dropped(w, known, work, out, k);
      return;
    }
    if existing + |work.instances| >= MAX_FUNCTION_INSTANCES {
      out := out.(limited := true);
      Dropped(w, known, work, out, k);
      return;
    }
    if !w.symbol(key) {
      Dropped(w, known, work, out, k);
      return;
    }
    if !w.template(key.def) {
      out := out.(seen := out.seen + {key});
      Dropped(w, known, work, out, k);
      return;
    }
    out := Materialize(w, known, work, key, k);
    MaterializedIsJustified(w, initial, work, out, key, k);
  }

  method SeenKeys(w: World, existing: seq<Key>) returns (seen: set<Key>)
    ensures seen == KnownKeys(w, existing)
  {
    seen := {};
    for i := 0 to |existing|
      invariant seen == KnownKeys(w, existing[..i])
    {
      seen := seen + {CanonKey(w, existing[i])};
      assert existing[..i + 1] == existing[..i] + [existing[i]];
    }
    assert existing[..|existing|] == existing;
  }

  /** Queues the initial references. */
  method StartWork(w: World, known: set<Key>, initial: seq<Key>) returns (out: Work)
    ensures Valid(w, known, out) && Justified(w, initial, out) && out.instances == [] && !out.limited
    ensures forall j | 0 <= j < |initial| :: initial[j] in out.queued
  {
    out := Work([], {}, known, [], [], false);
    for i := 0 to |initial|
      invariant Valid(w, known, out) && out.instances == [] && out.foreign == [] && !out.limited
      invariant forall k | k in out.queued :: k in initial
      invariant forall j | 0 <= j < i :: initial[j] in out.queued
    {
      ghost var before := out;
      out := Enqueue(out, initial[i]);
      EnqueuedIsValid(w, known, before, out);
    }
  }

  /** Terminates for every world: a turn without a materialization shortens the queue, and materializations are
      bounded. */
  method LowerFunctionInstances(w: World, existing: seq<Key>, initial: seq<Key>) returns (out: Work)
    ensures |existing| + |out.instances| <= Max(|existing|, 4096)
    ensures forall i, j | 0 <= i < j < |out.instances| :: out.instances[i] != out.instances[j]
    ensures forall i | 0 <= i < |out.instances| ::
      && out.instances[i] !in KnownKeys(w, existing)
      && Admitted(w, out.instances[i])
      && MaterializedTypes(w, out.instances[i])
    ensures forall k | k in initial :: Settled(w, KnownKeys(w, existing), out, k)
    ensures forall key, d | key in out.instances && w.discover(key).Some? && d in w.discover(key).value ::
      || Settled(w, KnownKeys(w, existing), out, CanonKey(w, d))
      || Closed(w, KnownKeys(w, existing), out, CanonKey(w, d))
    ensures forall i | 0 <= i < |out.instances| :: AskedFor(w, initial, out.instances, i)
    ensures forall k | k in out.foreign :: Named(w, initial, out.instances, k) && k.def.unit != w.unit
    ensures out.limited ==> |existing| + |out.instances| >= 4096
  {
    var seen := SeenKeys(w, existing);
    ghost var known := seen;
    out := StartWork(w, seen, initial);
    while out.pending != []
      invariant Valid(w, known, out) && Justified(w, initial, out)
      invariant forall j | 0 <= j < |initial| :: initial[j] in out.queued
      invariant |existing| + |out.instances| <= Max(|existing|, MAX_FUNCTION_INSTANCES)
      invariant out.limited ==> |existing| + |out.instances| >= MAX_FUNCTION_INSTANCES
      decreases Budget(|existing|, out), |out.pending|
    {
      out := Turn(w, |existing|, known, initial, out);
    }
    ValidIsComplete(w, known, out);
  }

  ghost function KnownKeys(w: World, existing: seq<Key>): set<Key> {
    set k | k in existing :: CanonKey(w, k)
  }

  /** Nothing open in any argument or the type of any const argument, and at most 256 levels of nesting. */
  ghost predicate MaterializedTypes(w: World, key: Key) {
    && (forall i | 0 <= i < |key.args| :: NothingOpen(w, key.args[i]) && DepthAtMost(key.args[i], 256))
    && (forall i | 0 <= i < |key.consts| :: NothingOpen(w, key.consts[i].ty) && DepthAtMost(key.consts[i].ty, 256))
  }

  lemma {:induction false} EnqueuedIsValid(w: World, known: set<Key>, before: Work, after: Work)
    requires Valid(w, known, before) && before.instances == []
    requires after == before.(queued := after.queued, pending := after.pending)
    requires forall k | k in before.queued :: k in after.queued
    requires forall k | k in before.pending :: k in after.pending
    requires forall k | k in after.queued :: k in before.queued || k in after.pending
    requires forall k | k in after.pending :: k in after.queued
    ensures Valid(w, known, after)
  {
    forall k | k in after.queued ensures k in after.pending || Settled(w, known, after, k) {
      if k !in after.pending {
        StaysSettled(w, known, before, after, k);
      }
    }
  }

  lemma {:induction false} ValidIsComplete(w: World, known: set<Key>, work: Work)
    requires Valid(w, known, work) && work.pending == []
    ensures forall k | k in work.queued :: Settled(w, known, work, k)
    ensures forall key, d | key in work.instances && w.discover(key).Some? && d in w.discover(key).value ::
      Settled(w, known, work, CanonKey(w, d)) || Closed(w, known, work, CanonKey(w, d))
    ensures forall i | 0 <= i < |work.instances| :: MaterializedTypes(w, work.instances[i])
  {
    forall key, d | key in work.instances && w.discover(key).Some? && d in w.discover(key).value
      ensures Settled(w, known, work, CanonKey(w, d)) || Closed(w, known, work, CanonKey(w, d))
    {
      var ds := w.discover(key).value;
      assert AllDiscovered(w, known, work, ds);
      var j :| 0 <= j < |ds| && ds[j] == d;
      assert Discovered(w, known, work, ds[j]);
    }
    forall i | 0 <= i < |work.instances| ensures MaterializedTypes(w, work.instances[i]) {
      FiltersDecideTypes(w, work.instances[i]);
    }
  }

  /** The filters on types accept a key if and only if its types have nothing open and are not nested too deep. */
  lemma {:induction false} FiltersDecideTypes(w: World, key: Key)
    ensures MaterializedTypes(w, key) <==> AllGround(w, key) && AllShallow(key)
  {
    forall i | 0 <= i < |key.args|
      ensures DepthAtMost(key.args[i], 256) <==> !Exceeds(key.args[i], MAX_TYPE_DEPTH)
      ensures NothingOpen(w, key.args[i]) <==> Ground(w, key.args[i])
    {
      ExceedsIffDeep(key.args[i], MAX_TYPE_DEPTH);
      GroundIffNothingOpen(w, key.args[i]);
    }
    forall i | 0 <= i < |key.consts|
      ensures DepthAtMost(key.consts[i].ty, 256) <==> !Exceeds(key.consts[i].ty, MAX_TYPE_DEPTH)
      ensures NothingOpen(w, key.consts[i].ty) <==> Ground(w, key.consts[i].ty)
    {
      ExceedsIffDeep(key.consts[i].ty, MAX_TYPE_DEPTH);
      GroundIffNothingOpen(w, key.consts[i].ty);
    }
  }

  /** The filters look at arguments and const arguments only: a method of a generic self type without arguments is
      materialized, whatever its self type is. */
  method GenericSelfIsMaterialized(w: World, def: nat, name: Sym) returns (out: Work)
    requires w.canonSelf(Generic(name)) == Generic(name) && w.template(Def(w.unit, def))
    requires var key := Key(Def(w.unit, def), w.unit, Some(Generic(name)), [], []);
      w.symbol(key) && w.discover(key).None?
    ensures out.instances == [Key(Def(w.unit, def), w.unit, Some(Generic(name)), [], [])] && !Ground(w, Generic(name))
  {
    var key := Key(Def(w.unit, def), w.unit, Some(Generic(name)), [], []);
    out := LowerFunctionInstances(w, [], [key]);
    assert CanonKey(w, key) == key && key in [key];
    OnlyInstance(w, key, out.instances);
    assert Settled(w, KnownKeys(w, []), out, key);
  }

  /** A single reference whose body refers to nothing gives a single instance. */
  lemma {:induction false} OnlyInstance(w: World, key: Key, instances: seq<Key>)
    requires CanonKey(w, key) == key && w.discover(key).None?
    requires forall i, j | 0 <= i < j < |instances| :: instances[i] != instances[j]
    requires forall i | 0 <= i < |instances| :: AskedFor(w, [key], instances, i)
    ensures instances == [] || instances == [key]
  {
    if |instances| > 0 {
      EveryInstance(w, key, instances, 0);
      if |instances| > 1 {
        EveryInstance(w, key, instances, 1);
        assert false;
      }
    }
  }

  lemma {:induction false} EveryInstance(w: World, key: Key, instances: seq<Key>, i: nat)
    requires CanonKey(w, key) == key && w.discover(key).None? && i < |instances|
    requires forall j | 0 <= j < |instances| :: AskedFor(w, [key], instances, j)
    ensures instances[i] == key
  {
    assert AskedFor(w, [key], instances, i);
    var k :| Named(w, [key], instances[..i], k) && CanonKey(w, k) == instances[i];
    forall j | 0 <= j < i ensures !Refers(w, instances[..i][j], k) {
      EveryInstance(w, key, instances, j);
    }
  }
}
