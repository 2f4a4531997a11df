/** Functions that instantiate themselves at ever new arguments: the fixed point ends with a full module. */
module PolymorphicRecursion {
  import opened Collections
  import opened Fixpoint
  import I = Instances

  /** Each of these instances may be materialized and refers to the next one. */
  ghost predicate Endless(w: World, keys: nat -> I.Key) {
    (forall m, n | m != n :: keys(m) != keys(n)) && forall n: nat :: Recurses(w, keys(n), keys(n + 1))
  }

  ghost predicate Recurses(w: World, key: I.Key, next: I.Key) {
    && I.Admitted(w.inst, key)
    && I.CanonKey(w.inst, key) == key
    && !I.Unresolved(w.inst, key)
    && w.inst.discover(key).Some?
    && next in w.inst.discover(key).value
  }

  ghost predicate Full(s: State) {
    s.limited && |s.instances| >= I.MAX_FUNCTION_INSTANCES
  }

  /** A reference that every filter lets through is materialized unless the module is full. */
  lemma {:induction false} AccountedIsMaterialized(w: World, s: State, key: I.Key)
    requires Accounted(w, s, Instance(key)) && I.Admitted(w.inst, key) && I.CanonKey(w.inst, key) == key
    requires !I.Unresolved(w.inst, key) && !Full(s)
    requires forall k | k in s.instances :: I.CanonKey(w.inst, k) == k
    ensures key in s.instances
  {
    assert InstanceDone(w, s, key);
  }

  lemma {:induction false} NextIsAccounted(w: World, s: State, key: I.Key, next: I.Key)
    requires Closed(w, s) && key in s.instances && Recurses(w, key, next)
    ensures Accounted(w, s, Instance(next))
  {
    var found := w.inst.discover(key).value;
    var i :| 0 <= i < |found| && found[i] == next;
    assert AsInstances(found)[i] == Instance(next);
    assert Materialized(s, Instance(key));
    assert Covered(w, s, DiscoveryOf(w, Instance(key)));
  }

  /** As long as it is not full, a closed module has every instance of the chain. */
  lemma {:induction false} ChainIsMaterialized(w: World, s: State, keys: nat -> I.Key, n: nat)
    requires Endless(w, keys) && Closed(w, s) && Accounted(w, s, Instance(keys(0))) && !Full(s)
    requires forall k | k in s.instances :: I.CanonKey(w.inst, k) == k
    ensures keys(n) in s.instances
  {
    assert Recurses(w, keys(n), keys(n + 1));
    if n > 0 {
      ChainIsMaterialized(w, s, keys, n - 1);
      assert Recurses(w, keys(n - 1), keys(n - 1 + 1));
      NextIsAccounted(w, s, keys(n - 1), keys(n));
    }
    AccountedIsMaterialized(w, s, keys(n));
  }

  ghost function FirstKeys(keys: nat -> I.Key, n: nat): set<I.Key> {
    set i: nat | i < n :: keys(i)
  }

  lemma {:induction false} FirstKeysCount(keys: nat -> I.Key, n: nat)
    requires forall i, j | i != j :: keys(i) != keys(j)
    ensures |FirstKeys(keys, n)| == n
  {
    if n > 0 {
      FirstKeysCount(keys, n - 1);
      assert FirstKeys(keys, n) == FirstKeys(keys, n - 1) + {keys(n - 1)};
    }
  }

  lemma {:induction false} SetOfIsSmall<T>(s: seq<T>)
    ensures |SetOf(s)| <= |s|
    decreases |s|
  {
    if s != [] {
      SetOfIsSmall(s[..|s| - 1]);
      assert SetOf(s) == SetOf(s[..|s| - 1]) + {s[|s| - 1]};
    }
  }

  lemma {:induction false} TooManyKeys(keys: nat -> I.Key, instances: seq<I.Key>)
    requires forall i, j | i != j :: keys(i) != keys(j)
    ensures exists n :: keys(n) !in instances
  {
    var first, all := FirstKeys(keys, |instances| + 1), SetOf(instances);
    FirstKeysCount(keys, |instances| + 1);
    SetOfIsSmall(instances);
    if first <= all {
      SubsetIsSmaller(first, all);
      assert false;
    }
    var k :| k in first && k !in all;
  }

  /** A closed module that was asked for an endless chain of instances is full and says so. */
  lemma {:induction false} EndlessChainFillsTheModule(w: World, s: State, keys: nat -> I.Key)
    requires Endless(w, keys) && Closed(w, s) && Accounted(w, s, Instance(keys(0)))
    requires forall k | k in s.instances :: I.CanonKey(w.inst, k) == k
    ensures Full(s)
  {
    if !Full(s) {
      TooManyKeys(keys, s.instances);
      var n :| keys(n) !in s.instances;
      ChainIsMaterialized(w, s, keys, n);
      assert false;
    }
  }

  /** Instances are materialized under canonical keys. */
  lemma {:induction false} NewAreCanonical(w: World, s: State, t: State)
    requires Sourced(w, Waiting(s), s, t) && s.instances == []
    requires forall k :: I.CanonKey(w.inst, I.CanonKey(w.inst, k)) == I.CanonKey(w.inst, k)
    ensures forall k | k in t.instances :: I.CanonKey(w.inst, k) == k
  {
    forall k | k in t.instances ensures I.CanonKey(w.inst, k) == k {
      assert Materialized(t, Instance(k)) && !Materialized(s, Instance(k));
      var r :| Reachable(w, t, Waiting(s), r) && Target(w, r) == Instance(k);
    }
  }

  /** The fixed point from one such reference ends, with exactly as many instances as the limit allows. */
  method Run(w: World, ghost keys: nat -> I.Key, key: I.Key) returns (t: State)
    requires Endless(w, keys) && key == keys(0)
    requires forall k :: I.CanonKey(w.inst, I.CanonKey(w.inst, k)) == I.CanonKey(w.inst, k)
    ensures Closed(w, t) && t.limited && |t.instances| == I.MAX_FUNCTION_INSTANCES
  {
    var s := State([], [], [], [], [], false, [], [key], [], {Instance(key)});
    StartIsValid(w, s);
    t := LowerReachable(w, s, Waiting(s), s);
    NewAreCanonical(w, s, t);
    assert Instance(key) in t.queued;
    EndlessChainFillsTheModule(w, t, keys);
  }
}
