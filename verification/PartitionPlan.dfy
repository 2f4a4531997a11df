/** The whole-program partition plan: all partitions of all modules in ascending order of their stable keys. */
module PartitionPlan {
  import opened Collections
  import opened Options
  import opened Paths
  import opened Sorting

  /** A module: its transient id, its stable source identity, the keys of its vtables and its partitions. */
  datatype Unit<D> = Unit(id: nat, path: string, vtables: seq<nat>, parts: seq<Part<D>>)

  datatype Planned<D> = Planned(id: nat, ordinal: nat, definitions: D)

  function StableKey<D>(u: Unit<D>, part: Part<D>): Keyed<Planned<D>> {
    Keyed(Key(u.path, part.ordinal), Planned(u.id, part.ordinal, part.definitions))
  }

  function PartsOf<D>(u: Unit<D>): seq<Keyed<Planned<D>>> {
    seq(|u.parts|, i requires 0 <= i < |u.parts| => StableKey(u, u.parts[i]))
  }

  function AllParts<D>(units: seq<Unit<D>>): seq<Keyed<Planned<D>>> {
    if units == [] then [] else AllParts(units[..|units| - 1]) + PartsOf(units[|units| - 1])
  }

  function AllVtables<D>(units: seq<Unit<D>>): seq<nat> {
    if units == [] then [] else AllVtables(units[..|units| - 1]) + units[|units| - 1].vtables
  }

  /** `plan` is the plan of `units`: their partitions in strictly ascending order of keys. */
  ghost predicate IsPlan<D>(units: seq<Unit<D>>, plan: seq<Keyed<Planned<D>>>) {
    Ascending(plan) && multiset(plan) == multiset(AllParts(units))
  }

  method HasDuplicate(s: seq<nat>) returns (duplicate: bool)
    ensures duplicate <==> !Distinct(s)
  {
    var seen: set<nat> := {};
    for i := 0 to |s|
      invariant Distinct(s[..i]) && forall x :: x in seen <==> x in s[..i]
    {
      if s[i] in seen {
        var j :| 0 <= j < i && s[j] == s[i];
        return true;
      }
      seen := seen + {s[i]};
      assert s[..i + 1] == s[..i] + [s[i]];
    }
    assert s[..|s|] == s;
    duplicate := false;
  }

  /** A plan, or an error when two vtables or two partitions collide. */
  method BuildPlan<D(==)>(units: seq<Unit<D>>) returns (plan: Option<seq<Keyed<Planned<D>>>>)
    ensures plan.Some? <==> Distinct(AllVtables(units)) && DistinctKeys(AllParts(units))
    ensures plan.Some? ==> IsPlan(units, plan.value)
  {
    var duplicate := HasDuplicate(AllVtables(units));
    if duplicate {
      return None;
    }
    var sorted := Sort(AllParts(units));
    SameDistinctness(sorted, AllParts(units));
    SortedDistinctIsAscending(sorted);
    var i := 1;
    while i < |sorted|
      invariant 1 <= i
      invariant forall j | 0 < j < i && j < |sorted| :: sorted[j - 1].key != sorted[j].key
    {
      if sorted[i - 1].key == sorted[i].key {
        return None;
      }
      i := i + 1;
    }
    NeighboursSuffice(sorted);
    plan := Some(sorted);
  }

  /** In a sorted list it is enough to compare neighbours. */
  lemma {:induction false} NeighboursSuffice<T>(s: seq<Keyed<T>>)
    requires Sorted(s) && forall j | 0 < j < |s| :: s[j - 1].key != s[j].key
    ensures Ascending(s)
  {
    forall i, j | 0 <= i < j < |s| ensures Below(s[i].key, s[j].key) {
      BelowIsOrder(s[j - 1].key, s[j].key, s[j - 1].key);
      if i < j - 1 {
        BelowIsOrder(s[i].key, s[j - 1].key, s[j].key);
        BelowIsOrder(s[i].key, s[j].key, s[j - 1].key);
      }
    }
  }

  /** Distinctness of keys is a matter of the multiset. */
  lemma {:induction false} SameDistinctness<T>(a: seq<Keyed<T>>, b: seq<Keyed<T>>)
    requires multiset(a) == multiset(b)
    ensures DistinctKeys(a) <==> DistinctKeys(b)
  {
    if !DistinctKeys(a) {
      CollisionMoves(a, b);
    }
    if !DistinctKeys(b) {
      CollisionMoves(b, a);
    }
  }

  lemma {:induction false} CollisionMoves<T>(a: seq<Keyed<T>>, b: seq<Keyed<T>>)
    requires multiset(a) == multiset(b) && !DistinctKeys(a)
    ensures !DistinctKeys(b)
  {
    var i, j :| 0 <= i < j < |a| && a[i].key == a[j].key;
    if a[i] == a[j] {
      assert a == a[..j] + [a[j]] + a[j + 1..];
      assert a[i] in a[..j];
      assert multiset(b)[a[i]] >= 2;
      TwoOccurrences(b, a[i]);
    } else {
      assert a[i] in multiset(b) && a[j] in multiset(b);
      var k :| 0 <= k < |b| && b[k] == a[i];
      var l :| 0 <= l < |b| && b[l] == a[j];
      assert k < l || l < k;
    }
  }

  lemma {:induction false} TwoOccurrences<T>(b: seq<T>, x: T)
    requires multiset(b)[x] >= 2
    ensures exists k, l :: 0 <= k < l < |b| && b[k] == x && b[l] == x
  {
    assert x in multiset(b);
    var k :| 0 <= k < |b| && b[k] == x;
    var rest := b[..k] + b[k + 1..];
    assert b == b[..k] + [b[k]] + b[k + 1..];
    assert multiset(rest)[x] >= 1;
    assert x in multiset(rest);
    var l :| 0 <= l < |rest| && rest[l] == x;
    var l' := if l < k then l else l + 1;
    assert b[l'] == x && l' != k;
  }

  // ---------------------------------------------------------------------------------------------------------------
  // Order of modules and restriction to one module.

  lemma {:induction false} InAllParts<D(!new)>(units: seq<Unit<D>>, x: Keyed<Planned<D>>)
    ensures x in AllParts(units) <==> exists u :: u in units && x in PartsOf(u)
  {
    if units != [] {
      var init, last := units[..|units| - 1], units[|units| - 1];
      InAllParts(init, x);
      assert units == init + [last];
    }
  }

  /** Every partition of every module is in the plan and nothing else. */
  lemma {:induction false} PlanHas<D(!new)>(units: seq<Unit<D>>, plan: seq<Keyed<Planned<D>>>, x: Keyed<Planned<D>>)
    requires IsPlan(units, plan)
    ensures x in plan <==> exists u :: u in units && x in PartsOf(u)
  {
    InAllParts(units, x);
    assert x in plan <==> x in multiset(plan);
    assert x in AllParts(units) <==> x in multiset(AllParts(units));
  }

  /** The plan does not depend on the order of the modules. */
  lemma {:induction false} PlanIgnoresModuleOrder<D(!new)>(
    units: seq<Unit<D>>, permuted: seq<Unit<D>>, plan: seq<Keyed<Planned<D>>>, plan': seq<Keyed<Planned<D>>>)
    requires IsPlan(units, plan) && IsPlan(permuted, plan') && multiset(units) == multiset(permuted)
    ensures plan == plan'
  {
    assert forall u :: u in units <==> u in multiset(units);
    assert forall u :: u in permuted <==> u in multiset(permuted);
    forall x ensures x in plan <==> x in plan' {
      PlanHas(units, plan, x);
      PlanHas(permuted, plan', x);
    }
    AscendingIsUnique(plan, plan');
  }

  /** The partitions of the plan that belong to a module. */
  function Restrict<D>(plan: seq<Keyed<Planned<D>>>, id: nat): seq<Keyed<Planned<D>>> {
    if plan == [] then [] else
    Restrict(plan[..|plan| - 1], id) + if plan[|plan| - 1].value.id == id then [plan[|plan| - 1]] else []
  }

  lemma {:induction false} RestrictHas<D>(plan: seq<Keyed<Planned<D>>>, id: nat, x: Keyed<Planned<D>>)
    ensures x in Restrict(plan, id) <==> x in plan && x.value.id == id
  {
    if plan != [] {
      var init := plan[..|plan| - 1];
      RestrictHas(init, id, x);
      assert plan == init + [plan[|plan| - 1]];
    }
  }

  lemma {:induction false} RestrictAscends<D>(plan: seq<Keyed<Planned<D>>>, id: nat)
    requires Ascending(plan)
    ensures Ascending(Restrict(plan, id))
  {
    if plan != [] {
      var init := plan[..|plan| - 1];
      RestrictAscends(init, id);
      var kept := Restrict(init, id);
      forall i | 0 <= i < |kept| ensures Below(kept[i].key, plan[|plan| - 1].key) {
        RestrictHas(init, id, kept[i]);
        assert kept[i] in kept;
        var j :| 0 <= j < |init| && init[j] == kept[i];
        assert plan[j] == kept[i];
      }
    }
  }

  ghost predicate DistinctIds<D>(units: seq<Unit<D>>) {
    forall i, j | 0 <= i < j < |units| :: units[i].id != units[j].id
  }

  /** The plan restricted to a module is the plan built for that module alone when it became ready. */
  lemma {:induction false} RestrictionIsReadyPlan<D(!new)>(
    units: seq<Unit<D>>, plan: seq<Keyed<Planned<D>>>, u: Unit<D>, ready: seq<Keyed<Planned<D>>>)
    requires IsPlan(units, plan) && DistinctIds(units) && u in units && IsPlan([u], ready)
    ensures Restrict(plan, u.id) == ready
  {
    RestrictAscends(plan, u.id);
    forall x ensures x in Restrict(plan, u.id) <==> x in ready {
      RestrictHas(plan, u.id, x);
      PlanHas([u], ready, x);
      assert u in [u];
      InModule(units, plan, u, x);
    }
    AscendingIsUnique(Restrict(plan, u.id), ready);
  }

  lemma {:induction false} InModule<D(!new)>(
    units: seq<Unit<D>>, plan: seq<Keyed<Planned<D>>>, u: Unit<D>, x: Keyed<Planned<D>>)
    requires IsPlan(units, plan) && DistinctIds(units) && u in units
    ensures x in plan && x.value.id == u.id <==> x in PartsOf(u)
  {
    PlanHas(units, plan, x);
    if x in plan && x.value.id == u.id {
      var v :| v in units && x in PartsOf(v);
      assert v.id == u.id;
      var i :| 0 <= i < |units| && units[i] == u;
      var j :| 0 <= j < |units| && units[j] == v;
      assert !(i < j) && !(j < i);
    }
  }

  /** A module with ascending ordinals and distinct vtables always gets a plan of its own, its partitions as they
      are. */
  lemma {:induction false} ReadyPlanExists<D(!new)>(u: Unit<D>)
    requires Distinct(u.vtables) && forall i, j | 0 <= i < j < |u.parts| :: u.parts[i].ordinal < u.parts[j].ordinal
    ensures Distinct(AllVtables([u])) && DistinctKeys(AllParts([u])) && IsPlan([u], PartsOf(u))
  {
    OneUnit(u);
    PartsAscend(u);
  }

  lemma {:induction false} OneUnit<D>(u: Unit<D>)
    ensures AllVtables([u]) == u.vtables && AllParts([u]) == PartsOf(u)
  {
    assert [u][..0] == [];
    assert AllVtables<D>([]) == [] && AllParts<D>([]) == [];
  }

  lemma {:induction false} PartsAscend<D>(u: Unit<D>)
    requires forall i, j | 0 <= i < j < |u.parts| :: u.parts[i].ordinal < u.parts[j].ordinal
    ensures Ascending(PartsOf(u)) && DistinctKeys(PartsOf(u))
  {
    var parts := PartsOf(u);
    forall i, j | 0 <= i < j < |parts| ensures Below(parts[i].key, parts[j].key) && parts[i].key != parts[j].key {
      assert u.parts[i].ordinal < u.parts[j].ordinal;
    }
  }

  // ---------------------------------------------------------------------------------------------------------------
  // The order of a plan.

  /** `x` is partition `part` of `u`. */
  ghost predicate Plans<D(!new)>(units: seq<Unit<D>>, x: Keyed<Planned<D>>, u: Unit<D>, part: Part<D>) {
    u in units && part in u.parts && x.value == Planned(u.id, part.ordinal, part.definitions)
  }

  /** `u` and its partition come before `v` and its: by path, and in one module by ordinal. */
  predicate Earlier<D>(u: Unit<D>, a: Part<D>, v: Unit<D>, b: Part<D>) {
    Less(u.path, v.path) || (u.path == v.path && a.ordinal < b.ordinal)
  }

  /** Every entry of a plan is a partition of a module, and they are ordered by source path and then by ordinal. */
  lemma {:induction false} PlanIsByPathAndOrdinal<D(!new)>(
    units: seq<Unit<D>>, plan: seq<Keyed<Planned<D>>>, i: nat, j: nat)
    requires IsPlan(units, plan) && i < j < |plan|
    ensures exists u, a, v, b :: Plans(units, plan[i], u, a) && Plans(units, plan[j], v, b) && Earlier(u, a, v, b)
  {
    var u, a := EntryIsPart(units, plan, i);
    var v, b := EntryIsPart(units, plan, j);
    assert Below(plan[i].key, plan[j].key);
    assert Plans(units, plan[i], u, a) && Plans(units, plan[j], v, b) && Earlier(u, a, v, b);
  }

  lemma {:induction false} EntryIsPart<D(!new)>(units: seq<Unit<D>>, plan: seq<Keyed<Planned<D>>>, i: nat)
    returns (u: Unit<D>, part: Part<D>)
    requires IsPlan(units, plan) && i < |plan|
    ensures Plans(units, plan[i], u, part) && plan[i].key.text == u.path && plan[i].key.number == part.ordinal
  {
    assert plan[i] in multiset(plan);
    assert plan[i] in AllParts(units);
    InAllParts(units, plan[i]);
    u :| u in units && plan[i] in PartsOf(u);
    var k :| 0 <= k < |u.parts| && PartsOf(u)[k] == plan[i];
    part := u.parts[k];
  }
}
