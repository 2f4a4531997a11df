/** The lexicographic order of normalized source paths and other strings. */
module Paths {
  predicate Less(a: string, b: string) {
    b != [] && (a == [] || a[0] < b[0] || (a[0] == b[0] && Less(a[1..], b[1..])))
  }

  /** `k` is the first place where the strings differ. */
  ghost predicate DifferAt(a: string, b: string, k: nat) {
    k < |a| && k < |b| && a[..k] == b[..k] && a[k] != b[k]
  }

  /** Of two strings the lesser one is a proper prefix of the other, or has the lesser character where they first
      differ. */
  lemma {:induction false} LessMeans(a: string, b: string)
    ensures Less(a, b) <==> a < b || exists k: nat :: DifferAt(a, b, k) && a[k] < b[k]
  {
    if a != [] && b != [] {
      if a[0] == b[0] {
        LessMeans(a[1..], b[1..]);
        TailsDiffer(a, b);
        assert a == [a[0]] + a[1..] && b == [b[0]] + b[1..];
      } else {
        assert a[..0] == b[..0] && DifferAt(a, b, 0);
        forall k: nat | DifferAt(a, b, k) ensures k == 0 {
          SameStart(a, b, k);
        }
        assert !(a < b);
      }
    }
  }

  lemma {:induction false} SameStart(a: string, b: string, k: nat)
    requires DifferAt(a, b, k)
    ensures k > 0 ==> a[0] == b[0]
  {
    if k > 0 {
      assert a[..k][0] == b[..k][0];
    }
  }

  lemma {:induction false} TailsDiffer(a: string, b: string)
    requires a != [] && b != [] && a[0] == b[0]
    ensures (exists k: nat :: DifferAt(a, b, k) && a[k] < b[k]) <==>
      exists k: nat :: DifferAt(a[1..], b[1..], k) && a[1..][k] < b[1..][k]
  {
    if k: nat :| DifferAt(a[1..], b[1..], k) && a[1..][k] < b[1..][k] {
      assert a[..k + 1] == [a[0]] + a[1..][..k] && b[..k + 1] == [b[0]] + b[1..][..k];
      assert DifferAt(a, b, k + 1) && a[k + 1] < b[k + 1];
    }
    if k: nat :| DifferAt(a, b, k) && a[k] < b[k] {
      assert a[1..][..k - 1] == a[..k][1..] && b[1..][..k - 1] == b[..k][1..];
      assert DifferAt(a[1..], b[1..], k - 1) && a[1..][k - 1] < b[1..][k - 1];
    }
  }

  lemma {:induction false} Irreflexive(a: string)
    ensures !Less(a, a)
  {
    if a != [] {
      Irreflexive(a[1..]);
    }
  }

  lemma {:induction false} Transitive(a: string, b: string, c: string)
    requires Less(a, b) && Less(b, c)
    ensures Less(a, c)
  {
    if a != [] && a[0] == b[0] && b[0] == c[0] {
      Transitive(a[1..], b[1..], c[1..]);
    }
  }

  lemma {:induction false} Total(a: string, b: string)
    ensures Less(a, b) || Less(b, a) || a == b
  {
    if a != [] && b != [] && a[0] == b[0] {
      Total(a[1..], b[1..]);
      assert a == [a[0]] + a[1..] && b == [b[0]] + b[1..];
    }
  }

  lemma {:induction false} Asymmetric(a: string, b: string)
    requires Less(a, b)
    ensures !Less(b, a)
  {
    Irreflexive(a);
    if Less(b, a) {
      Transitive(a, b, a);
    }
  }
}
