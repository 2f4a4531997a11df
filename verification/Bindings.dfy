/** The backtracking pairing of two associated-binding lists, over any pure comparison. */
module Bindings {
  import opened Collections

  /** Distinct positions below `n`; of length `n`, a bijection. */
  ghost predicate DistinctBelow(p: seq<nat>, n: nat) {
    (forall i | 0 <= i < |p| :: p[i] < n) && Distinct(p)
  }

  /** `p` pairs `left[index..]` with unused, equal elements of `right`. */
  ghost predicate Pairs<A, B>(
    left: seq<A>, right: seq<B>, same: (A, B) -> bool, index: nat, used: seq<bool>, p: seq<nat>)
    requires |used| == |right| && index <= |left|
  {
    && |p| == |left| - index
    && DistinctBelow(p, |right|)
    && forall i | 0 <= i < |p| :: !used[p[i]] && same(left[index + i], right[p[i]])
  }

  ghost predicate Pairable<A, B>(left: seq<A>, right: seq<B>, same: (A, B) -> bool, index: nat, used: seq<bool>)
    requires |used| == |right| && index <= |left|
  {
    exists p: seq<nat> :: Pairs(left, right, same, index, used, p)
  }

  lemma {:induction false} PairHead<A, B>(
    left: seq<A>, right: seq<B>, same: (A, B) -> bool, index: nat, used: seq<bool>, j: nat)
    requires |used| == |right| && index < |left|
    requires j < |right| && !used[j] && same(left[index], right[j])
    requires Pairable(left, right, same, index + 1, used[j := true])
    ensures Pairable(left, right, same, index, used)
  {
    var q: seq<nat> :| Pairs(left, right, same, index + 1, used[j := true], q);
    var p := [j] + q;
    forall i | 0 <= i < |p| ensures !used[p[i]] && same(left[index + i], right[p[i]]) {
      if i > 0 {
        assert !used[j := true][q[i - 1]] && same(left[index + 1 + (i - 1)], right[q[i - 1]]);
      }
    }
    assert Pairs(left, right, same, index, used, p);
  }

  lemma {:induction false} PairTail<A, B>(
    left: seq<A>, right: seq<B>, same: (A, B) -> bool, index: nat, used: seq<bool>, p: seq<nat>)
    requires |used| == |right| && index < |left|
    requires Pairs(left, right, same, index, used, p)
    ensures Pairable(left, right, same, index + 1, used[p[0] := true])
  {
    var q := p[1..];
    forall i | 0 <= i < |q| ensures !used[p[0] := true][q[i]] && same(left[index + 1 + i], right[q[i]]) {
      assert q[i] == p[i + 1];
      assert same(left[index + (i + 1)], right[p[i + 1]]);
    }
    assert Pairs(left, right, same, index + 1, used[p[0] := true], q);
  }

  /** The search proper; `used` comes back untouched from a failure. */
  method Visit<A, B>(left: seq<A>, right: seq<B>, same: (A, B) -> bool, index: nat, used: array<bool>)
    returns (ok: bool)
    requires used.Length == |right| && index <= |left|
    modifies used
    ensures ok <==> Pairable(left, right, same, index, old(used[..]))
    ensures !ok ==> used[..] == old(used[..])
    decreases |left| - index
  {
    ghost var before := used[..];
    if index == |left| {
      assert Pairs(left, right, same, index, before, []);
      return true;
    }
    for j := 0 to |right|
      invariant used[..] == before
      invariant forall p: seq<nat> :: Pairs(left, right, same, index, before, p) ==> j <= p[0]
    {
      if used[j] || !same(left[index], right[j]) {
        continue;
      }
      used[j] := true;
      assert used[..] == before[j := true];
      ok := Visit(left, right, same, index + 1, used);
      if ok {
        PairHead(left, right, same, index, before, j);
        return;
      }
      used[j] := false;
      assert used[..] == before;
      forall p: seq<nat> | Pairs(left, right, same, index, before, p) ensures j < p[0] {
        PairTail(left, right, same, index, before, p);
      }
    }
    ok := false;
  }

  /** True exactly when some bijection pairs every left binding with an equal right binding. */
  method SameBindingsWith<A, B>(left: seq<A>, right: seq<B>, same: (A, B) -> bool) returns (ok: bool)
    ensures ok <==>
      && |left| == |right|
      && exists p: seq<nat> ::
           |p| == |left| && DistinctBelow(p, |right|) && forall i | 0 <= i < |p| :: same(left[i], right[p[i]])
  {
    if |left| != |right| {
      return false;
    }
    var used := new bool[|right|](_ => false);
    ghost var before := used[..];
    ok := Visit(left, right, same, 0, used);
    if ok {
      ghost var p: seq<nat> :| Pairs(left, right, same, 0, before, p);
      assert forall i | 0 <= i < |p| :: same(left[0 + i], right[p[i]]);
    } else {
      forall p: seq<nat> |
        |p| == |left| && DistinctBelow(p, |right|) && forall i | 0 <= i < |p| :: same(left[i], right[p[i]])
        ensures false
      {
        assert Pairs(left, right, same, 0, before, p);
      }
    }
  }
}
