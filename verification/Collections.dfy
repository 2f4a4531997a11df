/** Facts about collections that several modules share. */
module Collections {
  ghost predicate Distinct<T>(s: seq<T>) {
    forall i, j | 0 <= i < j < |s| :: s[i] != s[j]
  }

  lemma {:induction false} DistinctBoth<T>(a: seq<T>, b: seq<T>)
    requires Distinct(a) && Distinct(b) && forall x | x in a :: x !in b
    ensures Distinct(a + b)
  {
    forall i, j | 0 <= i < j < |a + b| ensures (a + b)[i] != (a + b)[j] {
      if i < |a| <= j {
        assert a[i] in a && b[j - |a|] in b;
      }
    }
  }

  /** An element of a longer sequence that is new comes after the shorter one. */
  lemma {:induction false} NewComesLater<T>(a: seq<T>, b: seq<T>, x: T) returns (i: nat)
    requires a <= b && x in b && x !in a
    ensures |a| <= i < |b| && b[i] == x
  {
    assert forall j | 0 <= j < |a| :: b[j] == a[j] && a[j] in a;
    i :| i < |b| && b[i] == x;
  }

  ghost function SetOf<T>(s: seq<T>): set<T> {
    set x | x in s
  }

  function Max(a: nat, b: nat): nat {
    if a < b then b else a
  }

  lemma {:induction false} SubsetIsSmaller<T>(a: set<T>, b: set<T>)
    requires a <= b
    ensures |a| <= |b| && (|a| == |b| ==> a == b)
  {
    assert b == a + (b - a);
    assert a != b ==> exists x :: x in b - a;
  }

  /** A partition of a module: its ordinal and its definitions. */
  datatype Part<D> = Part(ordinal: nat, definitions: D)
}
