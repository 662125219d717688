/** Holm's step-down adjustment. The loop over the sorted p-values is proved to
    compute the closure of the Bonferroni test: the adjusted value of a
    hypothesis is the largest Bonferroni value of any family containing it. */
module Holm {
  import opened Sorting

  type Item = (string, real)

  predicate LeP(a: Item, b: Item) {
    a.1 <= b.1
  }

  ghost predicate DistinctKeys(items: seq<Item>) {
    forall i, j :: 0 <= i < j < |items| ==> items[i].0 != items[j].0
  }

  /** `items` lists the entries of the mapping `p`, in some order. */
  ghost predicate Lists(items: seq<Item>, p: map<string, real>) {
    && DistinctKeys(items)
    && (forall i :: 0 <= i < |items| ==> items[i].0 in p && p[items[i].0] == items[i].1)
    && (forall k :: k in p ==> (k, p[k]) in items)
  }

  ghost predicate Probabilities(p: map<string, real>) {
    forall k :: k in p ==> 0.0 <= p[k] <= 1.0
  }

  function Max(a: real, b: real): real {
    if a >= b then a else b
  }

  /** A p-value scaled by the size of its family and capped at one. */
  function Scaled(family: nat, p: real): real {
    var product := family as real * p;
    if product <= 1.0 then product else 1.0
  }

  /** The running maximum after the first `count` sorted p-values. */
  function RunningMax(ordered: seq<Item>, count: nat): real
    requires count <= |ordered|
  {
    if count == 0 then 0.0
    else Max(RunningMax(ordered, count - 1), Scaled(|ordered| - (count - 1), ordered[count - 1].1))
  }

  /** The closed test of whatever mapping of p-values `items` lists. */
  ghost predicate ClosesBonferroni(items: seq<Item>, adjusted: map<string, real>) {
    forall p :: Lists(items, p) && Probabilities(p) ==> IsAdjustment(p, adjusted)
  }

  method HolmAdjusted(items: seq<Item>) returns (adjusted: map<string, real>)
    requires DistinctKeys(items)
    ensures Tabulates(Sort(items, LeP), adjusted, |Sort(items, LeP)|)
    ensures ClosesBonferroni(items, adjusted)
  {
    var ordered := Sort(items, LeP);
    assert DistinctKeys(ordered) by { SortLists(items); }
    var total := |ordered|;
    adjusted := map[];
    var runningMax := 0.0;
    for index := 0 to total
      invariant runningMax == RunningMax(ordered, index)
      invariant Tabulates(ordered, adjusted, index)
    {
      var (key, rawP) := ordered[index];
      var scaled := Scaled(total - index, rawP);
      runningMax := Max(runningMax, scaled);
      TabulateNext(ordered, adjusted, index);
      adjusted := adjusted[key := runningMax];
    }
    AdjustsEveryMapping(items, adjusted);
  }

  lemma TabulateNext(ordered: seq<Item>, adjusted: map<string, real>, index: nat)
    requires DistinctKeys(ordered) && index < |ordered| && Tabulates(ordered, adjusted, index)
    ensures Tabulates(ordered, adjusted[ordered[index].0 := RunningMax(ordered, index + 1)], index + 1)
  {
    var key, value := ordered[index].0, RunningMax(ordered, index + 1);
    var next := adjusted[key := value];
    forall i | 0 <= i < index + 1
      ensures ordered[i].0 in next && next[ordered[i].0] == RunningMax(ordered, i + 1)
    {
      assert i < index ==> ordered[i].0 != key;
    }
    forall k | k in next ensures exists i :: 0 <= i < index + 1 && ordered[i].0 == k {
      if k == key {
        assert ordered[index].0 == k;
      } else {
        assert k in adjusted;
        var i :| 0 <= i < index && ordered[i].0 == k;
      }
    }
  }

  lemma AdjustsEveryMapping(items: seq<Item>, adjusted: map<string, real>)
    requires DistinctKeys(items) && Tabulates(Sort(items, LeP), adjusted, |Sort(items, LeP)|)
    ensures ClosesBonferroni(items, adjusted)
  {
    SortLists(items);
    forall p | Lists(items, p) && Probabilities(p) ensures IsAdjustment(p, adjusted) {
      SortedLists(items, p);
      HolmIsClosure(Sort(items, LeP), p, adjusted);
    }
  }

  lemma SortLists(items: seq<Item>)
    requires DistinctKeys(items)
    ensures var ordered := Sort(items, LeP);
            SortedBy(ordered, LeP) && DistinctKeys(ordered) && multiset(ordered) == multiset(items)
  {
    var ordered := Sort(items, LeP);
    SortPermutes(items, LeP);
    SortSorted(items, LeP);
    forall i, j | 0 <= i < j < |ordered| ensures ordered[i].0 != ordered[j].0 {
      if ordered[i].0 == ordered[j].0 {
        DistinctCount(items, ordered[i], ordered[j]);
        TwoOccurrences(ordered, i, j);
      }
    }
  }

  lemma {:induction false} DistinctCount(items: seq<Item>, a: Item, b: Item)
    requires DistinctKeys(items) && a.0 == b.0
    ensures multiset(items)[a] + (if a == b then 0 else multiset(items)[b]) <= 1
  {
    if items != [] {
      var rest := items[1..];
      DistinctCount(rest, a, b);
      assert items == [items[0]] + rest;
      if items[0] == a || items[0] == b {
        forall x: Item | x.0 == a.0 ensures x !in rest {
        }
        assert multiset(rest)[a] == 0 && multiset(rest)[b] == 0;
      }
    }
  }

  lemma TwoOccurrences(s: seq<Item>, i: nat, j: nat)
    requires i < j < |s|
    ensures multiset(s)[s[i]] + (if s[i] == s[j] then 0 else multiset(s)[s[j]]) >= 2
  {
    assert s == s[..j] + [s[j]] + s[j + 1..];
    assert s[i] in s[..j];
    assert s[i] in multiset(s[..j]);
  }

  lemma SortedLists(items: seq<Item>, p: map<string, real>)
    requires Lists(items, p)
    ensures Lists(Sort(items, LeP), p)
  {
    SortLists(items);
    SameElements(Sort(items, LeP), items);
    var ordered := Sort(items, LeP);
    forall i | 0 <= i < |ordered| ensures ordered[i].0 in p && p[ordered[i].0] == ordered[i].1 {
      assert ordered[i] in items;
    }
  }

  function MapOf(items: seq<Item>): map<string, real> {
    if items == [] then map[]
    else MapOf(items[..|items| - 1])[items[|items| - 1].0 := items[|items| - 1].1]
  }

  lemma {:induction false} MapOfLists(items: seq<Item>)
    requires DistinctKeys(items)
    ensures Lists(items, MapOf(items))
  {
    if items != [] {
      var init, last := items[..|items| - 1], items[|items| - 1];
      MapOfLists(init);
      forall i | 0 <= i < |items|
        ensures items[i].0 in MapOf(items) && MapOf(items)[items[i].0] == items[i].1
      {
        assert i < |init| ==> items[i] == init[i];
      }
      forall k | k in MapOf(items) ensures (k, MapOf(items)[k]) in items {
        if k != last.0 {
          assert (k, MapOf(init)[k]) in init;
        }
      }
    }
  }

  // -- the closed testing procedure ---------------------------------------------

  lemma {:induction false} MinExists(p: map<string, real>, family: set<string>)
    requires family != {} && family <= p.Keys
    ensures exists k :: k in family && forall j :: j in family ==> p[k] <= p[j]
  {
    var x :| x in family;
    var rest := family - {x};
    if rest == {} {
      assert family == {x};
    } else {
      MinExists(p, rest);
      var k :| k in rest && forall j :: j in rest ==> p[k] <= p[j];
      var best := if p[k] <= p[x] then k else x;
      assert best in family && forall j :: j in family ==> p[best] <= p[j] by {
        assert forall j :: j in family ==> j == x || j in rest;
      }
    }
  }

  ghost predicate IsMin(p: map<string, real>, family: set<string>, m: real)
    requires family <= p.Keys
  {
    && (exists k :: k in family && m == p[k])
    && (forall k :: k in family ==> m <= p[k])
  }

  ghost function MinP(p: map<string, real>, family: set<string>): (m: real)
    requires family != {} && family <= p.Keys
    ensures IsMin(p, family, m)
  {
    MinExists(p, family);
    var k :| k in family && forall j :: j in family ==> p[k] <= p[j];
    p[k]
  }

  /** The Bonferroni test of the intersection of a family of hypotheses. */
  ghost function Bonferroni(p: map<string, real>, family: set<string>): real
    requires family != {} && family <= p.Keys
  {
    Scaled(|family|, MinP(p, family))
  }

  /** The families that test hypothesis `k`. */
  ghost predicate Tests(p: map<string, real>, k: string, family: set<string>) {
    k in family && family <= p.Keys
  }

  /** `v` is the maximum Bonferroni value over the families containing `k`. */
  ghost predicate IsClosureValue(p: map<string, real>, k: string, v: real) {
    && (forall family :: Tests(p, k, family) ==> Bonferroni(p, family) <= v)
    && (exists family :: Tests(p, k, family) && Bonferroni(p, family) == v)
  }

  ghost predicate AdjustedAt(p: map<string, real>, adjusted: map<string, real>, k: string) {
    k in adjusted && IsClosureValue(p, k, adjusted[k])
  }

  /** `adjusted` holds the closed Bonferroni test of every hypothesis of `p`. */
  ghost predicate IsAdjustment(p: map<string, real>, adjusted: map<string, real>) {
    && adjusted.Keys == p.Keys
    && (forall k {:trigger AdjustedAt(p, adjusted, k)} :: k in p ==> AdjustedAt(p, adjusted, k))
  }

  lemma ScaledMonotone(n: nat, m: nat, p: real, q: real)
    requires n <= m && 0.0 <= p <= q
    ensures 0.0 <= Scaled(n, p) <= Scaled(m, q) <= 1.0
  {
    var a, b := n as real, m as real;
    assert a * p <= b * p by { assert (b - a) * p >= 0.0; }
    assert b * p <= b * q by { assert b * (q - p) >= 0.0; }
  }

  ghost function TailKeys(ordered: seq<Item>, from: nat): set<string>
    requires from <= |ordered|
  {
    set i | from <= i < |ordered| :: ordered[i].0
  }

  lemma {:induction false} TailSize(ordered: seq<Item>, from: nat)
    requires from <= |ordered| && DistinctKeys(ordered)
    ensures |TailKeys(ordered, from)| == |ordered| - from
    decreases |ordered| - from
  {
    if from < |ordered| {
      TailSize(ordered, from + 1);
      assert TailKeys(ordered, from) == TailKeys(ordered, from + 1) + {ordered[from].0};
      assert ordered[from].0 !in TailKeys(ordered, from + 1);
    }
  }

  ghost predicate Sorted(ordered: seq<Item>, p: map<string, real>) {
    SortedBy(ordered, LeP) && Lists(ordered, p) && Probabilities(p)
  }

  /** The family of the hypotheses not yet tested at position `j` has exactly
      the scaled p-value of that position as its Bonferroni value. */
  lemma TailBonferroni(ordered: seq<Item>, p: map<string, real>, j: nat)
    requires Sorted(ordered, p) && j < |ordered|
    ensures var tail := TailKeys(ordered, j);
            && Tests(p, ordered[j].0, tail)
            && Bonferroni(p, tail) == Scaled(|ordered| - j, ordered[j].1)
  {
    TailSize(ordered, j);
    TailMinimum(ordered, p, j);
  }

  lemma TailMinimum(ordered: seq<Item>, p: map<string, real>, j: nat)
    requires Sorted(ordered, p) && j < |ordered|
    ensures var tail := TailKeys(ordered, j);
            Tests(p, ordered[j].0, tail) && MinP(p, tail) == ordered[j].1
  {
  }

  /** The running maximum is the scaled p-value of some earlier position. */
  lemma {:induction false} RunningMaxAttained(ordered: seq<Item>, i: nat) returns (j: nat)
    requires i < |ordered| && forall t :: 0 <= t < |ordered| ==> ordered[t].1 >= 0.0
    ensures j <= i && RunningMax(ordered, i + 1) == Scaled(|ordered| - j, ordered[j].1)
  {
    ScaledMonotone(0, |ordered| - i, 0.0, ordered[i].1);
    j := i;
    if RunningMax(ordered, i) > Scaled(|ordered| - i, ordered[i].1) {
      j := RunningMaxAttained(ordered, i - 1);
    }
  }

  lemma {:induction false} RunningMaxCovers(ordered: seq<Item>, j: nat, count: nat)
    requires j < count <= |ordered|
    ensures Scaled(|ordered| - j, ordered[j].1) <= RunningMax(ordered, count)
  {
    if j < count - 1 {
      RunningMaxCovers(ordered, j, count - 1);
    }
  }

  /** Any family containing the hypothesis at position `i` starts at some
      position `j <= i` and lies inside the tail from there. */
  lemma FamilyBounded(ordered: seq<Item>, p: map<string, real>, i: nat, family: set<string>)
    requires Sorted(ordered, p) && i < |ordered| && Tests(p, ordered[i].0, family)
    ensures Bonferroni(p, family) <= RunningMax(ordered, i + 1)
  {
    var j := FirstIn(ordered, family, i);
    FamilyInTail(ordered, p, family, j);
    var m := MinP(p, family);
    assert m <= ordered[j].1 && m >= 0.0 by {
      assert ordered[j].0 in p;
    }
    ScaledMonotone(|family|, |ordered| - j, m, ordered[j].1);
    RunningMaxCovers(ordered, j, i + 1);
  }

  lemma FamilyInTail(ordered: seq<Item>, p: map<string, real>, family: set<string>, j: nat)
    requires Lists(ordered, p) && family <= p.Keys && j < |ordered|
    requires forall t :: 0 <= t < j ==> ordered[t].0 !in family
    ensures |family| <= |ordered| - j
  {
    forall k | k in family ensures k in TailKeys(ordered, j) {
      assert (k, p[k]) in ordered;
    }
    TailSize(ordered, j);
    CardinalityMonotone(family, TailKeys(ordered, j));
  }

  lemma FirstIn(ordered: seq<Item>, family: set<string>, i: nat) returns (j: nat)
    requires i < |ordered| && ordered[i].0 in family
    ensures j <= i && ordered[j].0 in family
    ensures forall t :: 0 <= t < j ==> ordered[t].0 !in family
  {
    j := 0;
    while ordered[j].0 !in family
      invariant j <= i && forall t :: 0 <= t < j ==> ordered[t].0 !in family
      decreases i - j
    {
      j := j + 1;
    }
  }

  lemma {:induction false} CardinalityMonotone(a: set<string>, b: set<string>)
    requires a <= b
    ensures |a| <= |b|
  {
    if a != {} {
      var x :| x in a;
      CardinalityMonotone(a - {x}, b - {x});
    }
  }

  lemma ClosureAt(ordered: seq<Item>, p: map<string, real>, i: nat)
    requires Sorted(ordered, p) && i < |ordered|
    ensures IsClosureValue(p, ordered[i].0, RunningMax(ordered, i + 1))
  {
    var k := ordered[i].0;
    forall family | Tests(p, k, family)
      ensures Bonferroni(p, family) <= RunningMax(ordered, i + 1)
    {
      FamilyBounded(ordered, p, i, family);
    }
    var j := RunningMaxAttained(ordered, i);
    TailBonferroni(ordered, p, j);
    assert Tests(p, k, TailKeys(ordered, j));
  }

  /** `adjusted` maps the key at each sorted position to the running maximum there. */
  ghost predicate Tabulates(ordered: seq<Item>, adjusted: map<string, real>, count: nat)
    requires count <= |ordered|
  {
    && (forall i :: 0 <= i < count ==>
         ordered[i].0 in adjusted && adjusted[ordered[i].0] == RunningMax(ordered, i + 1))
    && (forall k :: k in adjusted ==> exists i :: 0 <= i < count && ordered[i].0 == k)
  }

  lemma HolmIsClosure(ordered: seq<Item>, p: map<string, real>, adjusted: map<string, real>)
    requires Sorted(ordered, p) && Tabulates(ordered, adjusted, |ordered|)
    ensures IsAdjustment(p, adjusted)
  {
    forall k | k in p ensures AdjustedAt(p, adjusted, k) {
      assert (k, p[k]) in ordered;
      var i :| 0 <= i < |ordered| && ordered[i] == (k, p[k]);
      ClosureAt(ordered, p, i);
    }
    SameKeys(ordered, p, adjusted);
  }

  lemma SameKeys(ordered: seq<Item>, p: map<string, real>, adjusted: map<string, real>)
    requires Lists(ordered, p) && Tabulates(ordered, adjusted, |ordered|)
    ensures adjusted.Keys == p.Keys
  {
  }

  // -- consequences -------------------------------------------------------------

  lemma ClosureValueUnique(p: map<string, real>, k: string, v: real, w: real)
    requires IsClosureValue(p, k, v) && IsClosureValue(p, k, w)
    ensures v == w
  {
  }

  /** The adjustment is a function of the mapping alone, whatever order its
      entries were listed in. */
  lemma AdjustmentUnique(p: map<string, real>, a: map<string, real>, b: map<string, real>)
    requires IsAdjustment(p, a) && IsAdjustment(p, b)
    ensures a == b
  {
    forall k | k in p ensures a[k] == b[k] {
      assert AdjustedAt(p, a, k) && AdjustedAt(p, b, k);
      ClosureValueUnique(p, k, a[k], b[k]);
    }
  }

  /** raw p <= adjusted <= min(1, m * raw p). */
  lemma AdjustmentBounds(p: map<string, real>, a: map<string, real>, k: string)
    requires IsAdjustment(p, a) && Probabilities(p) && k in p
    ensures p[k] <= a[k] <= Scaled(|p|, p[k])
  {
    assert AdjustedAt(p, a, k);
    assert Tests(p, k, {k});
    assert Bonferroni(p, {k}) == p[k];
    var f :| Tests(p, k, f) && Bonferroni(p, f) == a[k];
    CardinalityMonotone(f, p.Keys);
    assert |p.Keys| == |p|;
    ScaledMonotone(|f|, |p|, MinP(p, f), p[k]);
  }

  /** A smaller raw p-value never has a larger adjusted one; ties are tied. */
  lemma AdjustmentMonotone(p: map<string, real>, a: map<string, real>, k: string, k': string)
    requires IsAdjustment(p, a) && Probabilities(p) && k in p && k' in p && p[k] <= p[k']
    ensures a[k] <= a[k']
    ensures p[k] == p[k'] ==> a[k] == a[k']
  {
    ExchangeBound(p, a, k, k');
    if p[k] == p[k'] {
      ExchangeBound(p, a, k', k);
    }
  }

  lemma ExchangeBound(p: map<string, real>, a: map<string, real>, k: string, k': string)
    requires IsAdjustment(p, a) && Probabilities(p) && k in p && k' in p && p[k] <= p[k']
    ensures a[k] <= a[k']
  {
    assert AdjustedAt(p, a, k) && AdjustedAt(p, a, k');
    var f :| Tests(p, k, f) && Bonferroni(p, f) == a[k];
    ExchangeFamily(p, k, k', f);
  }

  /** Putting `k'` in the place of `k` does not lower a family's test. */
  lemma ExchangeFamily(p: map<string, real>, k: string, k': string, f: set<string>)
    requires Probabilities(p) && k' in p && Tests(p, k, f) && p[k] <= p[k']
    ensures var g := if k' in f then f else f - {k} + {k'};
            Tests(p, k', g) && Bonferroni(p, f) <= Bonferroni(p, g)
  {
    var g := if k' in f then f else f - {k} + {k'};
    assert |g| == |f|;
    var least :| least in g && MinP(p, g) == p[least];
    assert MinP(p, f) <= MinP(p, g);
    ScaledMonotone(|f|, |g|, MinP(p, f), MinP(p, g));
  }

  /** The sequential form: reject in order of p, stop at the first failure. */
  function StepDown(ordered: seq<Item>, alpha: real, from: nat): set<string>
    requires from <= |ordered|
    decreases |ordered| - from
  {
    if from == |ordered| || (|ordered| - from) as real * ordered[from].1 > alpha then {}
    else {ordered[from].0} + StepDown(ordered, alpha, from + 1)
  }

  lemma CapIrrelevant(n: nat, p: real, alpha: real)
    requires alpha < 1.0
    ensures Scaled(n, p) <= alpha <==> n as real * p <= alpha
  {
  }

  lemma {:induction false} StepDownFrom(ordered: seq<Item>, alpha: real, from: nat, i: nat)
    requires DistinctKeys(ordered) && 0.0 <= alpha < 1.0 && from <= |ordered| && i < |ordered|
    requires RunningMax(ordered, from) <= alpha
    ensures ordered[i].0 in StepDown(ordered, alpha, from) <==> from <= i && RunningMax(ordered, i + 1) <= alpha
    decreases |ordered| - from
  {
    if from < |ordered| {
      CapIrrelevant(|ordered| - from, ordered[from].1, alpha);
      if from <= i {
        RunningMaxCovers(ordered, from, i + 1);
      }
      if Scaled(|ordered| - from, ordered[from].1) <= alpha {
        StepDownFrom(ordered, alpha, from + 1, i);
      }
    }
  }

  /** Comparing the adjusted value with alpha is the sequential test. */
  lemma StepDownIffAdjusted(items: seq<Item>, p: map<string, real>, a: map<string, real>, alpha: real, k: string)
    requires Lists(items, p) && Probabilities(p) && IsAdjustment(p, a) && 0.0 <= alpha < 1.0 && k in p
    ensures k in StepDown(Sort(items, LeP), alpha, 0) <==> a[k] <= alpha
  {
    var ordered := Sort(items, LeP);
    SortLists(items);
    SortedLists(items, p);
    assert (k, p[k]) in ordered;
    var i :| 0 <= i < |ordered| && ordered[i] == (k, p[k]);
    StepDownFrom(ordered, alpha, 0, i);
    assert AdjustedAt(p, a, k);
    ClosureAt(ordered, p, i);
    ClosureValueUnique(p, k, a[k], RunningMax(ordered, i + 1));
  }
}
