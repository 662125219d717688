/** The order of strings by code point, as the source's sorts use it. */
module Ordering {
  import opened Sorting

  predicate LeString(a: string, b: string) {
    a == "" || (b != "" && (a[0] < b[0] || (a[0] == b[0] && LeString(a[1..], b[1..]))))
  }

  /** The strings agree up to position `k`, where the first has the lower code. */
  predicate LowerAt(a: string, b: string, k: nat) {
    k < |a| && k < |b| && a[..k] == b[..k] && a[k] < b[k]
  }

  lemma LowerAtTail(a: string, b: string, k: nat)
    requires a != "" && b != "" && a[0] == b[0]
    ensures LowerAt(a, b, k + 1) <==> LowerAt(a[1..], b[1..], k)
  {
    if k < |a| - 1 && k < |b| - 1 {
      assert a[..k + 1] == [a[0]] + a[1..][..k] && b[..k + 1] == [b[0]] + b[1..][..k];
    }
  }

  /** A prefix comes first, and otherwise the lower code at the first difference. */
  lemma {:induction false} LeStringIff(a: string, b: string)
    ensures LeString(a, b) <==> a <= b || exists k: nat :: LowerAt(a, b, k)
  {
    if a != "" && b != "" {
      if a[0] == b[0] {
        LeStringIff(a[1..], b[1..]);
        assert a <= b <==> a[1..] <= b[1..] by {
          assert a == [a[0]] + a[1..] && b == [b[0]] + b[1..];
        }
        if k: nat :| LowerAt(a, b, k) {
          LowerAtTail(a, b, k - 1);
        }
        if k: nat :| LowerAt(a[1..], b[1..], k) {
          LowerAtTail(a, b, k);
        }
      } else if a[0] < b[0] {
        assert LowerAt(a, b, 0);
      } else {
        forall k: nat | 0 < k < |a| && k < |b| ensures a[..k] != b[..k] {
          assert a[..k][0] != b[..k][0];
        }
      }
    }
  }

  lemma {:induction false} LeStringTotal(a: string, b: string)
    ensures LeString(a, b) || LeString(b, a)
  {
    if a != "" && b != "" {
      LeStringTotal(a[1..], b[1..]);
    }
  }

  lemma {:induction false} LeStringTransitive(a: string, b: string, c: string)
    requires LeString(a, b) && LeString(b, c)
    ensures LeString(a, c)
  {
    if a != "" && a[0] == b[0] == c[0] {
      LeStringTransitive(a[1..], b[1..], c[1..]);
    }
  }

  lemma {:induction false} LeStringAntisymmetric(a: string, b: string)
    requires LeString(a, b) && LeString(b, a)
    ensures a == b
  {
    if a != "" {
      LeStringAntisymmetric(a[1..], b[1..]);
      assert a == [a[0]] + a[1..] && b == [b[0]] + b[1..];
    }
  }

  lemma LeStringIsOrder()
    ensures IsTotal(LeString) && IsTransitive(LeString) && IsAntisymmetric(LeString)
  {
    forall a: string, b: string ensures LeString(a, b) || LeString(b, a) {
      LeStringTotal(a, b);
    }
    forall a: string, b: string, c: string | LeString(a, b) && LeString(b, c) ensures LeString(a, c) {
      LeStringTransitive(a, b, c);
    }
    forall a: string, b: string | LeString(a, b) && LeString(b, a) ensures a == b {
      LeStringAntisymmetric(a, b);
    }
  }
}
