/** Generic instances and vtables discovered by several modules get one owner each: the module with the least normalized
    source path. */
module Owners {
  import opened Options
  import opened Paths

  datatype Module<I> = Module(path: string, items: seq<I>)

  /** Item `index` of module `unit`. */
  datatype Position = Position(unit: nat, index: nat)

  /** An item whose definition disagrees with the owner its key had at that point. */
  datatype Conflict = Conflict(item: Position, owner: Position)

  /** Two items compare equal exactly when they have the same class. */
  ghost predicate Decides<I(!new), K>(same: (I, I) -> bool, classOf: I -> K) {
    forall a, b :: same(a, b) <==> classOf(a) == classOf(b)
  }

  predicate At<I>(modules: seq<Module<I>>, p: Position) {
    p.unit < |modules| && p.index < |modules[p.unit].items|
  }

  function ItemAt<I>(modules: seq<Module<I>>, p: Position): I
    requires At(modules, p)
  {
    modules[p.unit].items[p.index]
  }

  /** The order in which items are visited. */
  predicate Before(p: Position, q: Position) {
    p.unit < q.unit || (p.unit == q.unit && p.index < q.index)
  }

  /** `p` is preferred as owner: by path, and on equal paths by the order of visits. */
  predicate Preferred<I>(modules: seq<Module<I>>, p: Position, q: Position)
    requires At(modules, p) && At(modules, q)
  {
    var a, b := modules[p.unit].path, modules[q.unit].path;
    Less(a, b) || (a == b && Before(p, q))
  }

  ghost predicate SameKey<I, K>(modules: seq<Module<I>>, keyOf: I -> K, p: Position, q: Position) {
    At(modules, p) && At(modules, q) && keyOf(ItemAt(modules, p)) == keyOf(ItemAt(modules, q))
  }

  /** `p` owns its key: it is preferred to every other item with the key. */
  ghost predicate Owns<I, K>(modules: seq<Module<I>>, keyOf: I -> K, p: Position) {
    At(modules, p) && forall q | SameKey(modules, keyOf, p, q) && q != p :: Preferred(modules, p, q)
  }

  /** The first `n` items of module `m` that own their keys. */
  ghost function Owned<I, K>(modules: seq<Module<I>>, keyOf: I -> K, m: nat, n: nat): seq<I>
    requires m < |modules| && n <= |modules[m].items|
  {
    if n == 0 then [] else
    Owned(modules, keyOf, m, n - 1) + if Owns(modules, keyOf, Position(m, n - 1)) then [modules[m].items[n - 1]] else []
  }

  ghost function Assigned<I, K>(modules: seq<Module<I>>, keyOf: I -> K): seq<Module<I>> {
    seq(|modules|, m requires 0 <= m < |modules| =>
      Module(modules[m].path, Owned(modules, keyOf, m, |modules[m].items|)))
  }

  ghost predicate Agreement<I, K, P>(modules: seq<Module<I>>, keyOf: I -> K, payloadOf: I -> P) {
    forall p, q | SameKey(modules, keyOf, p, q) :: payloadOf(ItemAt(modules, p)) == payloadOf(ItemAt(modules, q))
  }

  lemma {:induction false} PreferredOrder<I>(modules: seq<Module<I>>, p: Position, q: Position, r: Position)
    requires At(modules, p) && At(modules, q) && At(modules, r)
    ensures !Preferred(modules, p, p)
    ensures Preferred(modules, p, q) ==> !Preferred(modules, q, p)
    ensures Preferred(modules, p, q) && Preferred(modules, q, r) ==> Preferred(modules, p, r)
    ensures p == q || Preferred(modules, p, q) || Preferred(modules, q, p)
  {
    var a, b, c := modules[p.unit].path, modules[q.unit].path, modules[r.unit].path;
    Total(a, b);
    Irreflexive(a);
    if Less(a, b) {
      Asymmetric(a, b);
    }
    if Less(b, a) {
      Asymmetric(b, a);
    }
    if Less(a, b) && Less(b, c) {
      Transitive(a, b, c);
    }
  }

  // ---------------------------------------------------------------------------------------------------------------
  // The scan.

  /** The preferred owner so far of every key seen before `limit`. */
  ghost predicate Scanned<I, K>(modules: seq<Module<I>>, keyOf: I -> K, owners: seq<Position>, limit: Position) {
    && (forall o | 0 <= o < |owners| :: At(modules, owners[o]) && Before(owners[o], limit))
    && (forall a, b | 0 <= a < b < |owners| :: !SameKey(modules, keyOf, owners[a], owners[b]))
    && (forall p | At(modules, p) && Before(p, limit) :: Represented(modules, keyOf, owners, p))
  }

  ghost predicate Represented<I, K>(modules: seq<Module<I>>, keyOf: I -> K, owners: seq<Position>, p: Position) {
    exists o | 0 <= o < |owners| :: Represents(modules, keyOf, owners[o], p)
  }

  ghost predicate Represents<I, K>(modules: seq<Module<I>>, keyOf: I -> K, o: Position, p: Position) {
    SameKey(modules, keyOf, o, p) && (o == p || Preferred(modules, o, p))
  }

  /** Agreement among the items before `limit`. */
  ghost predicate AgreementBefore<I, K, P>(
    modules: seq<Module<I>>, keyOf: I -> K, payloadOf: I -> P, limit: Position) {
    forall p, q | SameKey(modules, keyOf, p, q) && Before(p, limit) && Before(q, limit) ::
      payloadOf(ItemAt(modules, p)) == payloadOf(ItemAt(modules, q))
  }

  /** The first recorded owner with the key of `p`, or the number of owners. */
  method FindOwner<I(!new), K>(
    modules: seq<Module<I>>, key: (I, I) -> bool, ghost keyOf: I -> K, owners: seq<Position>, p: Position)
    returns (k: nat)
    requires Decides(key, keyOf)
    requires At(modules, p) && forall o | 0 <= o < |owners| :: At(modules, owners[o])
    ensures k <= |owners|
    ensures k < |owners| ==> SameKey(modules, keyOf, owners[k], p)
    ensures forall o | 0 <= o < k :: !SameKey(modules, keyOf, owners[o], p)
  {
    k := 0;
    while k < |owners| && !key(ItemAt(modules, owners[k]), ItemAt(modules, p))
      invariant k <= |owners|
      invariant forall o | 0 <= o < k :: !SameKey(modules, keyOf, owners[o], p)
    {
      k := k + 1;
    }
  }

  /** One visit: `p` starts a new key, replaces the owner of its key, or yields to it. */
  method VisitItem<I(!new), K, P>(
    modules: seq<Module<I>>, key: (I, I) -> bool, ghost keyOf: I -> K, payload: (I, I) -> bool, ghost payloadOf: I -> P,
    owners: seq<Position>, p: Position)
    returns (owners': seq<Position>, conflict: Option<Conflict>)
    requires Decides(key, keyOf) && Decides(payload, payloadOf)
    requires At(modules, p) && Scanned(modules, keyOf, owners, p)
    ensures Scanned(modules, keyOf, owners', Position(p.unit, p.index + 1))
    ensures AgreementBefore(modules, keyOf, payloadOf, Position(p.unit, p.index + 1)) <==>
      conflict.None? && AgreementBefore(modules, keyOf, payloadOf, p)
  {
    var k := FindOwner(modules, key, keyOf, owners, p);
    if k == |owners| {
      NewKey(modules, keyOf, owners, p);
      NewKeyAgrees(modules, keyOf, payloadOf, owners, p);
      return owners + [p], None;
    }
    var o := owners[k];
    conflict := if payload(ItemAt(modules, o), ItemAt(modules, p)) then None else Some(Conflict(p, o));
    KnownKeyAgrees(modules, keyOf, payloadOf, o, p);
    if Less(modules[p.unit].path, modules[o.unit].path) {
      Replaced(modules, keyOf, owners, k, p);
      owners' := owners[k := p];
    } else {
      Total(modules[p.unit].path, modules[o.unit].path);
      Yielded(modules, keyOf, owners, k, p);
      owners' := owners;
    }
  }

  lemma {:induction false} Yielded<I, K>(
    modules: seq<Module<I>>, keyOf: I -> K, owners: seq<Position>, k: nat, p: Position)
    requires At(modules, p) && Scanned(modules, keyOf, owners, p)
    requires k < |owners| && SameKey(modules, keyOf, owners[k], p) && Preferred(modules, owners[k], p)
    ensures Scanned(modules, keyOf, owners, Position(p.unit, p.index + 1))
  {
    assert Represents(modules, keyOf, owners[k], p);
    forall q | At(modules, q) && Before(q, Position(p.unit, p.index + 1))
      ensures Represented(modules, keyOf, owners, q)
    {
      assert q == p || Before(q, p);
    }
  }

  lemma {:induction false} NewKey<I, K>(modules: seq<Module<I>>, keyOf: I -> K, owners: seq<Position>, p: Position)
    requires At(modules, p) && Scanned(modules, keyOf, owners, p)
    requires forall o | 0 <= o < |owners| :: !SameKey(modules, keyOf, owners[o], p)
    ensures Scanned(modules, keyOf, owners + [p], Position(p.unit, p.index + 1))
  {
    var owners' := owners + [p];
    forall q | At(modules, q) && Before(q, Position(p.unit, p.index + 1))
      ensures Represented(modules, keyOf, owners', q)
    {
      if q == p {
        assert Represents(modules, keyOf, owners'[|owners|], q);
      } else {
        assert Represented(modules, keyOf, owners, q);
        var o :| 0 <= o < |owners| && Represents(modules, keyOf, owners[o], q);
        assert Represents(modules, keyOf, owners'[o], q);
      }
    }
  }

  lemma {:induction false} Replaced<I, K>(
    modules: seq<Module<I>>, keyOf: I -> K, owners: seq<Position>, k: nat, p: Position)
    requires At(modules, p) && Scanned(modules, keyOf, owners, p)
    requires k < |owners| && SameKey(modules, keyOf, owners[k], p) && Preferred(modules, p, owners[k])
    ensures Scanned(modules, keyOf, owners[k := p], Position(p.unit, p.index + 1))
  {
    var owners' := owners[k := p];
    StillDistinct(modules, keyOf, owners, owners', k);
    forall q | At(modules, q) && Before(q, Position(p.unit, p.index + 1))
      ensures Represented(modules, keyOf, owners', q)
    {
      if q == p {
        assert Represents(modules, keyOf, owners'[k], q);
      } else {
        assert Represented(modules, keyOf, owners, q);
        RepresentedBySuccessor(modules, keyOf, owners, k, p, q);
      }
    }
  }

  lemma {:induction false} StillDistinct<I, K>(
    modules: seq<Module<I>>, keyOf: I -> K, owners: seq<Position>, owners': seq<Position>, k: nat)
    requires |owners'| == |owners| && k < |owners| && SameKey(modules, keyOf, owners[k], owners'[k])
    requires forall a | 0 <= a < |owners| && a != k :: owners'[a] == owners[a]
    requires forall a, b | 0 <= a < b < |owners| :: !SameKey(modules, keyOf, owners[a], owners[b])
    requires forall o | 0 <= o < |owners| :: At(modules, owners[o])
    ensures forall a, b | 0 <= a < b < |owners'| :: !SameKey(modules, keyOf, owners'[a], owners'[b])
  {
    forall a, b | 0 <= a < b < |owners'| ensures !SameKey(modules, keyOf, owners'[a], owners'[b]) {
      assert !SameKey(modules, keyOf, owners[a], owners[b]);
    }
  }

  lemma {:induction false} RepresentedBySuccessor<I, K>(
    modules: seq<Module<I>>, keyOf: I -> K, owners: seq<Position>, k: nat, p: Position, q: Position)
    requires k < |owners| && SameKey(modules, keyOf, owners[k], p) && Preferred(modules, p, owners[k])
    requires Represented(modules, keyOf, owners, q)
    ensures Represented(modules, keyOf, owners[k := p], q)
  {
    var o :| 0 <= o < |owners| && Represents(modules, keyOf, owners[o], q);
    if o == k {
      PreferredOrder(modules, p, owners[k], q);
    }
    assert Represents(modules, keyOf, owners[k := p][o], q);
  }

  lemma {:induction false} NewKeyAgrees<I, K, P>(
    modules: seq<Module<I>>, keyOf: I -> K, payloadOf: I -> P, owners: seq<Position>, p: Position)
    requires At(modules, p) && Scanned(modules, keyOf, owners, p)
    requires forall o | 0 <= o < |owners| :: !SameKey(modules, keyOf, owners[o], p)
    ensures AgreementBefore(modules, keyOf, payloadOf, Position(p.unit, p.index + 1)) <==>
      AgreementBefore(modules, keyOf, payloadOf, p)
  {
    forall q | At(modules, q) && Before(q, p) ensures !SameKey(modules, keyOf, q, p) {
      assert Represented(modules, keyOf, owners, q);
    }
  }

  lemma {:induction false} KnownKeyAgrees<I, K, P>(
    modules: seq<Module<I>>, keyOf: I -> K, payloadOf: I -> P, o: Position, p: Position)
    requires SameKey(modules, keyOf, o, p) && Before(o, p)
    ensures AgreementBefore(modules, keyOf, payloadOf, Position(p.unit, p.index + 1)) <==>
      payloadOf(ItemAt(modules, o)) == payloadOf(ItemAt(modules, p)) && AgreementBefore(modules, keyOf, payloadOf, p)
  {
    var next := Position(p.unit, p.index + 1);
    if payloadOf(ItemAt(modules, o)) == payloadOf(ItemAt(modules, p)) && AgreementBefore(modules, keyOf, payloadOf, p) {
      forall q | SameKey(modules, keyOf, p, q) && Before(q, next)
        ensures payloadOf(ItemAt(modules, p)) == payloadOf(ItemAt(modules, q))
      {
        assert q != p ==> SameKey(modules, keyOf, o, q);
      }
    }
  }

  // ---------------------------------------------------------------------------------------------------------------
  // The whole assignment.

  lemma {:induction false} OwnersOwn<I, K>(modules: seq<Module<I>>, keyOf: I -> K, owners: seq<Position>, p: Position)
    requires Scanned(modules, keyOf, owners, Position(|modules|, 0)) && At(modules, p)
    ensures Owns(modules, keyOf, p) <==> p in owners
  {
    assert Represented(modules, keyOf, owners, p);
    var o :| 0 <= o < |owners| && Represents(modules, keyOf, owners[o], p);
    if p in owners {
      forall q | SameKey(modules, keyOf, p, q) && q != p ensures Preferred(modules, p, q) {
        RepresentedByOwner(modules, keyOf, owners, p, q);
      }
    } else {
      PreferredOrder(modules, owners[o], p, p);
      assert SameKey(modules, keyOf, p, owners[o]);
    }
  }

  lemma {:induction false} RepresentedByOwner<I, K>(
    modules: seq<Module<I>>, keyOf: I -> K, owners: seq<Position>, p: Position, q: Position)
    requires Scanned(modules, keyOf, owners, Position(|modules|, 0)) && p in owners && SameKey(modules, keyOf, p, q)
    ensures Represents(modules, keyOf, p, q)
  {
    assert Represented(modules, keyOf, owners, q);
    var a :| 0 <= a < |owners| && owners[a] == p;
    var b :| 0 <= b < |owners| && Represents(modules, keyOf, owners[b], q);
    assert a < b ==> !SameKey(modules, keyOf, owners[a], owners[b]);
    assert b < a ==> !SameKey(modules, keyOf, owners[b], owners[a]);
  }

  method Scan<I(!new), K, P>(
    modules: seq<Module<I>>, key: (I, I) -> bool, ghost keyOf: I -> K, payload: (I, I) -> bool, ghost payloadOf: I -> P)
    returns (owners: seq<Position>, conflicts: seq<Conflict>)
    requires Decides(key, keyOf) && Decides(payload, payloadOf)
    ensures Scanned(modules, keyOf, owners, Position(|modules|, 0))
    ensures conflicts == [] <==> Agreement(modules, keyOf, payloadOf)
  {
    owners, conflicts := [], [];
    for m := 0 to |modules|
      invariant Scanned(modules, keyOf, owners, Position(m, 0))
      invariant conflicts == [] <==> AgreementBefore(modules, keyOf, payloadOf, Position(m, 0))
    {
      owners, conflicts := ScanModule(modules, key, keyOf, payload, payloadOf, m, owners, conflicts);
      NextModule(modules, keyOf, payloadOf, owners, m);
    }
    AllBefore(modules, keyOf, payloadOf);
  }

  method ScanModule<I(!new), K, P>(
    modules: seq<Module<I>>, key: (I, I) -> bool, ghost keyOf: I -> K, payload: (I, I) -> bool, ghost payloadOf: I -> P,
    m: nat, owners: seq<Position>, conflicts: seq<Conflict>)
    returns (owners': seq<Position>, conflicts': seq<Conflict>)
    requires Decides(key, keyOf) && Decides(payload, payloadOf)
    requires m < |modules| && Scanned(modules, keyOf, owners, Position(m, 0))
    requires conflicts == [] <==> AgreementBefore(modules, keyOf, payloadOf, Position(m, 0))
    ensures Scanned(modules, keyOf, owners', Position(m, |modules[m].items|))
    ensures conflicts' == [] <==> AgreementBefore(modules, keyOf, payloadOf, Position(m, |modules[m].items|))
  {
    owners', conflicts' := owners, conflicts;
    for i := 0 to |modules[m].items|
      invariant Scanned(modules, keyOf, owners', Position(m, i))
      invariant conflicts' == [] <==> AgreementBefore(modules, keyOf, payloadOf, Position(m, i))
    {
      var conflict;
      owners', conflict := VisitItem(modules, key, keyOf, payload, payloadOf, owners', Position(m, i));
      if conflict.Some? {
        conflicts' := conflicts' + [conflict.value];
      }
    }
  }

  lemma {:induction false} NextModule<I, K, P>(
    modules: seq<Module<I>>, keyOf: I -> K, payloadOf: I -> P, owners: seq<Position>, m: nat)
    requires m < |modules|
    ensures Scanned(modules, keyOf, owners, Position(m, |modules[m].items|)) ==>
      Scanned(modules, keyOf, owners, Position(m + 1, 0))
    ensures AgreementBefore(modules, keyOf, payloadOf, Position(m, |modules[m].items|)) <==>
      AgreementBefore(modules, keyOf, payloadOf, Position(m + 1, 0))
  {
    var here, next := Position(m, |modules[m].items|), Position(m + 1, 0);
    assert forall p | At(modules, p) :: Before(p, here) <==> Before(p, next);
  }

  lemma {:induction false} AllBefore<I, K, P>(modules: seq<Module<I>>, keyOf: I -> K, payloadOf: I -> P)
    ensures AgreementBefore(modules, keyOf, payloadOf, Position(|modules|, 0)) <==> Agreement(modules, keyOf, payloadOf)
  {
    assert forall p | At(modules, p) :: Before(p, Position(|modules|, 0));
  }

  /** Keeps the items that own their keys, reports a conflict exactly when two items with one key differ, and leaves
      every key with an owner. */
  method AssignUniqueOwners<I(!new), K, P>(
    modules: seq<Module<I>>, key: (I, I) -> bool, ghost keyOf: I -> K, payload: (I, I) -> bool, ghost payloadOf: I -> P)
    returns (kept: seq<Module<I>>, conflicts: seq<Conflict>)
    requires Decides(key, keyOf) && Decides(payload, payloadOf)
    ensures kept == Assigned(modules, keyOf)
    ensures conflicts == [] <==> Agreement(modules, keyOf, payloadOf)
    ensures forall p | At(modules, p) :: HasOwner(modules, keyOf, p)
  {
    var owners;
    owners, conflicts := Scan(modules, key, keyOf, payload, payloadOf);
    AllOwnersOwn(modules, keyOf, owners);
    kept := Keep(modules, keyOf, owners);
    EveryKeyHasOwner(modules, keyOf, owners);
  }

  lemma {:induction false} AllOwnersOwn<I, K>(modules: seq<Module<I>>, keyOf: I -> K, owners: seq<Position>)
    requires Scanned(modules, keyOf, owners, Position(|modules|, 0))
    ensures forall p | At(modules, p) :: Owns(modules, keyOf, p) <==> p in owners
  {
    forall p | At(modules, p) ensures Owns(modules, keyOf, p) <==> p in owners {
      OwnersOwn(modules, keyOf, owners, p);
    }
  }

  method Keep<I, K>(modules: seq<Module<I>>, ghost keyOf: I -> K, owners: seq<Position>) returns (kept: seq<Module<I>>)
    requires forall p | At(modules, p) :: Owns(modules, keyOf, p) <==> p in owners
    ensures kept == Assigned(modules, keyOf)
  {
    kept := [];
    for m := 0 to |modules|
      invariant |kept| == m
      invariant forall k | 0 <= k < m ::
        kept[k] == Module(modules[k].path, Owned(modules, keyOf, k, |modules[k].items|))
    {
      var items := KeepOwned(modules, keyOf, owners, m);
      kept := kept + [Module(modules[m].path, items)];
    }
  }

  method KeepOwned<I, K>(modules: seq<Module<I>>, ghost keyOf: I -> K, owners: seq<Position>, m: nat)
    returns (items: seq<I>)
    requires m < |modules|
    requires forall i | 0 <= i < |modules[m].items| ::
      Owns(modules, keyOf, Position(m, i)) <==> Position(m, i) in owners
    ensures items == Owned(modules, keyOf, m, |modules[m].items|)
  {
    items := [];
    for i := 0 to |modules[m].items|
      invariant items == Owned(modules, keyOf, m, i)
    {
      OwnedStep(modules, keyOf, m, i);
      if Position(m, i) in owners {
        items := items + [modules[m].items[i]];
      }
    }
  }

  lemma {:induction false} OwnedStep<I, K>(modules: seq<Module<I>>, keyOf: I -> K, m: nat, i: nat)
    requires m < |modules| && i < |modules[m].items|
    ensures Owns(modules, keyOf, Position(m, i)) ==>
      Owned(modules, keyOf, m, i + 1) == Owned(modules, keyOf, m, i) + [modules[m].items[i]]
    ensures !Owns(modules, keyOf, Position(m, i)) ==> Owned(modules, keyOf, m, i + 1) == Owned(modules, keyOf, m, i)
  {
  }

  lemma {:induction false} EveryKeyHasOwner<I, K>(modules: seq<Module<I>>, keyOf: I -> K, owners: seq<Position>)
    requires Scanned(modules, keyOf, owners, Position(|modules|, 0))
    ensures forall p | At(modules, p) :: HasOwner(modules, keyOf, p)
  {
    forall p | At(modules, p) ensures HasOwner(modules, keyOf, p) {
      assert Represented(modules, keyOf, owners, p);
      var o :| 0 <= o < |owners| && Represents(modules, keyOf, owners[o], p);
      OwnersOwn(modules, keyOf, owners, owners[o]);
    }
  }

  ghost predicate HasOwner<I, K>(modules: seq<Module<I>>, keyOf: I -> K, p: Position) {
    exists q :: SameKey(modules, keyOf, q, p) && Owns(modules, keyOf, q)
  }

  /** A key has one owner at most. */
  lemma {:induction false} OwnerIsUnique<I, K>(modules: seq<Module<I>>, keyOf: I -> K, p: Position, q: Position)
    requires SameKey(modules, keyOf, p, q) && Owns(modules, keyOf, p) && Owns(modules, keyOf, q)
    ensures p == q
  {
    PreferredOrder(modules, p, q, q);
    assert SameKey(modules, keyOf, q, p);
  }

  /** No two modules share a path. */
  ghost predicate DistinctPaths<I>(modules: seq<Module<I>>) {
    forall m, n | 0 <= m < n < |modules| :: modules[m].path != modules[n].path
  }

  /** Item `i` of `module` owns its key among `modules`, said without positions of modules. */
  ghost predicate OwnsAmong<I(!new), K>(modules: seq<Module<I>>, keyOf: I -> K, home: Module<I>, i: nat)
    requires i < |home.items|
  {
    forall other, j | other in modules && 0 <= j < |other.items| && keyOf(other.items[j]) == keyOf(home.items[i]) ::
      (other == home && i <= j) || Less(home.path, other.path)
  }

  lemma {:induction false} OwnsByPath<I(!new), K>(modules: seq<Module<I>>, keyOf: I -> K, m: nat, i: nat)
    requires DistinctPaths(modules) && m < |modules| && i < |modules[m].items|
    ensures Owns(modules, keyOf, Position(m, i)) <==> OwnsAmong(modules, keyOf, modules[m], i)
  {
    var home, p := modules[m], Position(m, i);
    if Owns(modules, keyOf, p) {
      forall other, j | other in modules && 0 <= j < |other.items| && keyOf(other.items[j]) == keyOf(home.items[i])
        ensures (other == home && i <= j) || Less(home.path, other.path)
      {
        var n :| 0 <= n < |modules| && modules[n] == other;
        assert SameKey(modules, keyOf, p, Position(n, j));
        Total(home.path, other.path);
      }
    }
    if OwnsAmong(modules, keyOf, home, i) {
      forall q | SameKey(modules, keyOf, p, q) && q != p ensures Preferred(modules, p, q) {
        var other := modules[q.unit];
        assert other in modules && keyOf(other.items[q.index]) == keyOf(home.items[i]);
        assert q.unit != m ==> other.path != home.path;
      }
    }
  }

  /** With distinct paths, what a module keeps does not depend on the order of the modules. */
  lemma {:induction false} OrderDoesNotMatter<I(!new), K>(
    modules: seq<Module<I>>, permuted: seq<Module<I>>, keyOf: I -> K, m: nat, m': nat, n: nat)
    requires DistinctPaths(modules) && DistinctPaths(permuted)
    requires forall home :: home in modules <==> home in permuted
    requires m < |modules| && m' < |permuted| && modules[m] == permuted[m'] && n <= |modules[m].items|
    ensures Owned(modules, keyOf, m, n) == Owned(permuted, keyOf, m', n)
  {
    if n > 0 {
      OrderDoesNotMatter(modules, permuted, keyOf, m, m', n - 1);
      OwnsByPath(modules, keyOf, m, n - 1);
      OwnsByPath(permuted, keyOf, m', n - 1);
      assert OwnsAmong(modules, keyOf, modules[m], n - 1) <==> OwnsAmong(permuted, keyOf, modules[m], n - 1);
    }
  }
}
