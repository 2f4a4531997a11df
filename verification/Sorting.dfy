/** Sorting by stable keys, and why a strictly ascending arrangement is unique. */
module Sorting {
  import opened Paths

  /** Ordered by text, then by number. */
  datatype Key = Key(text: string, number: nat)

  datatype Keyed<T> = Keyed(key: Key, value: T)

  predicate Below(a: Key, b: Key) {
    Less(a.text, b.text) || (a.text == b.text && a.number < b.number)
  }

  lemma {:induction false} BelowIsOrder(a: Key, b: Key, c: Key)
    ensures !Below(a, a)
    ensures Below(a, b) ==> !Below(b, a)
    ensures Below(a, b) && Below(b, c) ==> Below(a, c)
    ensures Below(a, b) || Below(b, a) || a == b
  {
    Irreflexive(a.text);
    Total(a.text, b.text);
    if Less(a.text, b.text) {
      Asymmetric(a.text, b.text);
      if Less(b.text, c.text) {
        Transitive(a.text, b.text, c.text);
      }
    }
  }

  ghost predicate Sorted<T>(s: seq<Keyed<T>>) {
    forall i, j | 0 <= i < j < |s| :: !Below(s[j].key, s[i].key)
  }

  ghost predicate Ascending<T>(s: seq<Keyed<T>>) {
    forall i, j | 0 <= i < j < |s| :: Below(s[i].key, s[j].key)
  }

  ghost predicate DistinctKeys<T>(s: seq<Keyed<T>>) {
    forall i, j | 0 <= i < j < |s| :: s[i].key != s[j].key
  }

  method Sort<T(==)>(s: seq<Keyed<T>>) returns (r: seq<Keyed<T>>)
    ensures Sorted(r) && multiset(r) == multiset(s)
  {
    r := [];
    for i := 0 to |s|
      invariant Sorted(r) && multiset(r) == multiset(s[..i])
    {
      assert s[..i + 1] == s[..i] + [s[i]];
      r := Insert(r, s[i]);
    }
    assert s[..|s|] == s;
  }

  method Insert<T(==)>(s: seq<Keyed<T>>, x: Keyed<T>) returns (r: seq<Keyed<T>>)
    requires Sorted(s)
    ensures Sorted(r) && multiset(r) == multiset(s) + multiset{x}
  {
    var k := 0;
    while k < |s| && !Below(x.key, s[k].key)
      invariant k <= |s|
      invariant forall i | 0 <= i < k :: !Below(x.key, s[i].key)
    {
      k := k + 1;
    }
    r := s[..k] + [x] + s[k..];
    assert s == s[..k] + s[k..];
    InsertedIsSorted(s, x, k);
  }

  lemma {:induction false} InsertedIsSorted<T>(s: seq<Keyed<T>>, x: Keyed<T>, k: nat)
    requires Sorted(s) && k <= |s| && (k < |s| ==> Below(x.key, s[k].key))
    requires forall i | 0 <= i < k :: !Below(x.key, s[i].key)
    ensures Sorted(s[..k] + [x] + s[k..])
  {
    var r := s[..k] + [x] + s[k..];
    forall i, j | 0 <= i < j < |r| ensures !Below(r[j].key, r[i].key) {
      var a := if i < k then s[i] else if i == k then x else s[i - 1];
      var b := if j < k then s[j] else if j == k then x else s[j - 1];
      assert r[i] == a && r[j] == b;
      if i == k {
        BelowIsOrder(b.key, x.key, s[k].key);
        assert j - 1 > k ==> !Below(s[j - 1].key, s[k].key);
      }
    }
  }

  lemma {:induction false} SortedDistinctIsAscending<T>(s: seq<Keyed<T>>)
    requires Sorted(s)
    ensures DistinctKeys(s) <==> Ascending(s)
  {
    forall i, j | 0 <= i < j < |s| ensures s[i].key != s[j].key <==> Below(s[i].key, s[j].key) {
      BelowIsOrder(s[i].key, s[j].key, s[i].key);
      BelowIsOrder(s[j].key, s[i].key, s[j].key);
    }
  }

  /** Strictly ascending arrangements of the same elements are equal. */
  lemma {:induction false} AscendingIsUnique<T>(a: seq<Keyed<T>>, b: seq<Keyed<T>>)
    requires Ascending(a) && Ascending(b) && forall x :: x in a <==> x in b
    ensures a == b
  {
    if a == [] {
      assert forall i | 0 <= i < |b| :: b[i] in b;
    } else {
      assert a[0] in b;
      SameFirst(a, b);
      assert a == [a[0]] + a[1..] && b == [b[0]] + b[1..];
      SameRest(a, b);
      AscendingIsUnique(a[1..], b[1..]);
    }
  }

  /** The first of an ascending arrangement is the least of its elements. */
  lemma {:induction false} SameFirst<T>(a: seq<Keyed<T>>, b: seq<Keyed<T>>)
    requires Ascending(a) && Ascending(b) && a != [] && b != [] && forall x :: x in a <==> x in b
    ensures a[0] == b[0]
  {
    assert a[0] in b && b[0] in a;
    var i :| 0 <= i < |b| && b[i] == a[0];
    var j :| 0 <= j < |a| && a[j] == b[0];
    BelowIsOrder(a[0].key, b[0].key, a[0].key);
  }

  lemma {:induction false} SameRest<T>(a: seq<Keyed<T>>, b: seq<Keyed<T>>)
    requires Ascending(a) && Ascending(b) && a != [] && b != [] && a[0] == b[0] && forall x :: x in a <==> x in b
    ensures forall x :: x in a[1..] <==> x in b[1..]
  {
    assert a == [a[0]] + a[1..] && b == [b[0]] + b[1..];
    forall x | x in a[1..] ensures x in b[1..] {
      InRest(a, b, x);
    }
    forall x | x in b[1..] ensures x in a[1..] {
      InRest(b, a, x);
    }
  }

  lemma {:induction false} InRest<T>(a: seq<Keyed<T>>, b: seq<Keyed<T>>, x: Keyed<T>)
    requires Ascending(a) && a != [] && b != [] && a[0] == b[0] && x in a[1..] && x in b
    ensures x in b[1..]
  {
    NotInRest(a);
    assert b == [b[0]] + b[1..];
  }

  lemma {:induction false} NotInRest<T>(a: seq<Keyed<T>>)
    requires Ascending(a) && a != []
    ensures a[0] !in a[1..]
  {
    BelowIsOrder(a[0].key, a[0].key, a[0].key);
  }
}
