/** What a bootstrap result says about the scores: the interval ends are quantiles
    of the means of drawn samples, so they stay among the paired differences and
    move with them. */
module Resampling {
  import opened Wrappers
  import opened Sorting
  import opened RealSums
  import opened Statistics
  import opened Bootstrap

  // -- drawn samples ---------------------------------------------------------------

  /** One resample: `n` paired differences at drawn places. */
  function Drawn(baseline: seq<real>, candidate: seq<real>, draws: IndexStream, seed: int, i: nat): (r: seq<real>)
    requires |baseline| == |candidate| && baseline != []
    ensures |r| == |baseline|
  {
    var n := |baseline|;
    seq(n, (j: nat) => candidate[draws(seed, n, i, j)] - baseline[draws(seed, n, i, j)])
  }

  function DrawnMeans(baseline: seq<real>, candidate: seq<real>, draws: IndexStream, seed: int, iterations: nat): (r: seq<real>)
    requires |baseline| == |candidate| && baseline != []
    ensures |r| == iterations
  {
    seq(iterations, (i: nat) => Mean(Drawn(baseline, candidate, draws, seed, i)))
  }

  lemma SumSnoc(xs: seq<real>, y: real)
    ensures Sum(xs + [y]) == Sum(xs) + y
  {
    SumAppend(xs, [y]);
    assert [y][1..] == [];
  }

  lemma TotalIsSum(baseline: seq<real>, candidate: seq<real>, draws: IndexStream, seed: int, i: nat)
    requires |baseline| == |candidate| && baseline != []
    ensures Total(Minus(candidate, baseline), draws, seed, i, |baseline|) == Sum(Drawn(baseline, candidate, draws, seed, i))
  {
    var n, deltas, drawn := |baseline|, Minus(candidate, baseline), Drawn(baseline, candidate, draws, seed, i);
    for j := 0 to n
      invariant Total(deltas, draws, seed, i, j) == Sum(drawn[..j])
    {
      assert drawn[..j + 1] == drawn[..j] + [drawn[j]];
      SumSnoc(drawn[..j], drawn[j]);
    }
    assert drawn[..n] == drawn;
  }

  lemma ResampledAreDrawn(baseline: seq<real>, candidate: seq<real>, draws: IndexStream, seed: int, iterations: nat)
    requires |baseline| == |candidate| && baseline != []
    ensures ResampledMeans(Minus(candidate, baseline), draws, seed, iterations)
         == DrawnMeans(baseline, candidate, draws, seed, iterations)
  {
    var a, b := ResampledMeans(Minus(candidate, baseline), draws, seed, iterations),
                DrawnMeans(baseline, candidate, draws, seed, iterations);
    forall i: nat | i < iterations ensures a[i] == b[i] {
      TotalIsSum(baseline, candidate, draws, seed, i);
    }
  }

  /** The accepted inputs, and the result in terms of the drawn samples: the delta
      is the mean difference and the interval ends are the two quantiles of the
      ascending arrangement of the resampled means, whatever arranges them. */
  lemma IntervalOfDrawnSamples(baseline: seq<real>, candidate: seq<real>, iterations: int, alpha: real, seed: int,
                               draws: IndexStream, means: seq<real>)
    requires |baseline| == |candidate| && baseline != [] && iterations >= 200 && 0.0 < alpha < 1.0
    requires Ascending(means) && multiset(means) == multiset(DrawnMeans(baseline, candidate, draws, seed, iterations))
    ensures var r := BootstrapOf(baseline, candidate, iterations, alpha, seed, draws);
            && r.Ok?
            && Quantile(means, alpha / 2.0) == Ok(r.value.ciLow)
            && Quantile(means, 1.0 - alpha / 2.0) == Ok(r.value.ciHigh)
            && r.value.observedDelta == Mean(Minus(candidate, baseline))
            && r.value.nPairs == |baseline| && r.value.seed == seed && r.value.pValue == PValue(means)
  {
    var deltas := Minus(candidate, baseline);
    var raw := ResampledMeans(deltas, draws, seed, iterations);
    ResampledAreDrawn(baseline, candidate, draws, seed, iterations);
    SortPermutes(raw, LeReal);
    SortSorted(raw, LeReal);
    SortedUnique(means, Sort(raw, LeReal), LeReal);
    SameElements(means, raw);
    QuantileMonotone(means, alpha / 2.0, 1.0 - alpha / 2.0);
  }

  // -- the interval stays among the differences ---------------------------------------

  predicate Within(xs: seq<real>, lo: real, hi: real) {
    forall i :: 0 <= i < |xs| ==> lo <= xs[i] <= hi
  }

  function Scaled(n: nat, x: real): real {
    n as real * x
  }

  lemma {:induction false} SumWithin(xs: seq<real>, lo: real, hi: real)
    requires Within(xs, lo, hi)
    ensures Scaled(|xs|, lo) <= Sum(xs) <= Scaled(|xs|, hi)
  {
    if xs != [] {
      SumWithin(xs[1..], lo, hi);
      ScaledNext(|xs| - 1, lo);
      ScaledNext(|xs| - 1, hi);
    }
  }

  lemma ScaledNext(n: nat, x: real)
    ensures Scaled(n + 1, x) == Scaled(n, x) + x
  {
  }

  lemma MeanWithin(xs: seq<real>, lo: real, hi: real)
    requires xs != [] && Within(xs, lo, hi)
    ensures lo <= Mean(xs) <= hi
  {
    SumWithin(xs, lo, hi);
    QuotientWithin(Sum(xs), |xs| as real, lo, hi);
  }

  lemma QuotientWithin(s: real, n: real, lo: real, hi: real)
    requires n > 0.0 && n * lo <= s <= n * hi
    ensures lo <= s / n <= hi
  {
    var q := s / n;
    assert q * n == s;
    assert (q - lo) * n >= 0.0 && (hi - q) * n >= 0.0;
    FactorSign(q - lo, n);
    FactorSign(hi - q, n);
  }

  lemma FactorSign(x: real, n: real)
    requires n > 0.0 && x * n >= 0.0
    ensures x >= 0.0
  {
  }

  /** The interval and the delta lie between any bounds on the paired differences:
      identical scores give the interval [0, 0], a uniform gain of one gives
      [1, 1]. */
  lemma IntervalWithinDifferences(baseline: seq<real>, candidate: seq<real>, iterations: int, alpha: real, seed: int,
                                  draws: IndexStream, lo: real, hi: real)
    requires BootstrapOf(baseline, candidate, iterations, alpha, seed, draws).Ok?
    requires forall i :: 0 <= i < |baseline| && i < |candidate| ==> lo <= candidate[i] - baseline[i] <= hi
    ensures var r := BootstrapOf(baseline, candidate, iterations, alpha, seed, draws).value;
            lo <= r.ciLow <= r.ciHigh <= hi && lo <= r.observedDelta <= hi
  {
    var deltas := Minus(candidate, baseline);
    var raw, means := DrawnMeans(baseline, candidate, draws, seed, iterations), SortedMeans(deltas, draws, seed, iterations);
    forall i | 0 <= i < |raw| ensures lo <= raw[i] <= hi {
      MeanWithin(Drawn(baseline, candidate, draws, seed, i), lo, hi);
    }
    ResampledAreDrawn(baseline, candidate, draws, seed, iterations);
    SortPermutes(raw, LeReal);
    SameElements(means, raw);
    assert means[0] in raw && means[|means| - 1] in raw;
    IntervalOrdered(deltas, means, alpha, seed);
    MeanWithin(deltas, lo, hi);
  }

  // -- the interval moves with the scores ----------------------------------------------

  function Shifted(xs: seq<real>, d: real): (r: seq<real>)
    ensures |r| == |xs| && forall i :: 0 <= i < |xs| ==> r[i] == xs[i] + d
  {
    seq(|xs|, i requires 0 <= i < |xs| => xs[i] + d)
  }

  lemma {:induction false} SumShifted(xs: seq<real>, d: real)
    ensures Sum(Shifted(xs, d)) == Sum(xs) + Scaled(|xs|, d)
  {
    if xs != [] {
      SumShifted(xs[1..], d);
      assert Shifted(xs, d)[1..] == Shifted(xs[1..], d);
      ScaledNext(|xs| - 1, d);
    }
  }

  lemma MeanShifted(xs: seq<real>, d: real)
    requires xs != []
    ensures Mean(Shifted(xs, d)) == Mean(xs) + d
  {
    SumShifted(xs, d);
    QuotientShifted(Sum(xs), |xs| as real, d);
  }

  lemma QuotientShifted(s: real, n: real, d: real)
    requires n > 0.0
    ensures (s + n * d) / n == s / n + d
  {
  }

  lemma DrawnShifted(baseline: seq<real>, candidate: seq<real>, draws: IndexStream, seed: int, iterations: nat, d: real)
    requires |baseline| == |candidate| && baseline != []
    ensures DrawnMeans(baseline, Shifted(candidate, d), draws, seed, iterations)
         == Shifted(DrawnMeans(baseline, candidate, draws, seed, iterations), d)
  {
    var a, b := DrawnMeans(baseline, Shifted(candidate, d), draws, seed, iterations),
                DrawnMeans(baseline, candidate, draws, seed, iterations);
    forall i: nat | i < iterations ensures a[i] == b[i] + d {
      assert Drawn(baseline, Shifted(candidate, d), draws, seed, i) == Shifted(Drawn(baseline, candidate, draws, seed, i), d);
      MeanShifted(Drawn(baseline, candidate, draws, seed, i), d);
    }
  }

  lemma {:induction false} ShiftedCount(v: seq<real>, d: real, x: real)
    ensures multiset(Shifted(v, d))[x] == multiset(v)[x - d]
  {
    if v != [] {
      var init, y := v[..|v| - 1], v[|v| - 1];
      ShiftedCount(init, d, x);
      assert v == init + [y] && Shifted(v, d) == Shifted(init, d) + [y + d];
      CountNext(Shifted(init, d), init, y + d, y, x, x - d);
    }
  }

  lemma ShiftedPermutes(v: seq<real>, w: seq<real>, d: real)
    requires multiset(v) == multiset(w)
    ensures multiset(Shifted(v, d)) == multiset(Shifted(w, d))
  {
    forall x ensures multiset(Shifted(v, d))[x] == multiset(Shifted(w, d))[x] {
      ShiftedCount(v, d, x);
      ShiftedCount(w, d, x);
    }
  }

  lemma LerpShifted(a: real, b: real, w: real, d: real)
    ensures Lerp(a + d, b + d, w) == Lerp(a, b, w) + d
  {
    assert d * (1.0 - w) + d * w == d;
  }

  lemma QuantileShifted(v: seq<real>, q: real, d: real)
    requires v != [] && 0.0 <= q <= 1.0
    ensures Quantile(v, q).Ok? && Quantile(Shifted(v, d), q) == Ok(Quantile(v, q).value + d)
  {
    if |v| > 1 {
      var p := Position(|v|, q);
      LerpShifted(v[p.Floor], v[UpperIndex(v, p)], p - p.Floor as real, d);
    }
  }

  lemma ShiftedArrangement(raw: seq<real>, d: real)
    ensures Ascending(Shifted(Sort(raw, LeReal), d))
    ensures multiset(Shifted(Sort(raw, LeReal), d)) == multiset(Shifted(raw, d))
  {
    var means := Sort(raw, LeReal);
    SortPermutes(raw, LeReal);
    SortSorted(raw, LeReal);
    forall i, j | 0 <= i < j < |means| ensures LeReal(Shifted(means, d)[i], Shifted(means, d)[j]) {
      assert LeReal(means[i], means[j]);
    }
    ShiftedPermutes(means, raw, d);
  }

  lemma DeltaShifted(baseline: seq<real>, candidate: seq<real>, d: real)
    requires |baseline| == |candidate| && baseline != []
    ensures Mean(Minus(Shifted(candidate, d), baseline)) == Mean(Minus(candidate, baseline)) + d
  {
    assert Minus(Shifted(candidate, d), baseline) == Shifted(Minus(candidate, baseline), d);
    MeanShifted(Minus(candidate, baseline), d);
  }

  lemma EndsShifted(means: seq<real>, alpha: real, d: real, r: PairedBootstrapResult, moved: PairedBootstrapResult)
    requires means != [] && 0.0 < alpha < 1.0
    requires Quantile(means, alpha / 2.0) == Ok(r.ciLow) && Quantile(means, 1.0 - alpha / 2.0) == Ok(r.ciHigh)
    requires Quantile(Shifted(means, d), alpha / 2.0) == Ok(moved.ciLow)
    requires Quantile(Shifted(means, d), 1.0 - alpha / 2.0) == Ok(moved.ciHigh)
    ensures moved.ciLow == r.ciLow + d && moved.ciHigh == r.ciHigh + d
  {
    QuantileShifted(means, alpha / 2.0, d);
    QuantileShifted(means, 1.0 - alpha / 2.0, d);
  }

  lemma ShiftedMeans(baseline: seq<real>, candidate: seq<real>, iterations: int, alpha: real, seed: int,
                     draws: IndexStream, d: real, means: seq<real>)
    requires |baseline| == |candidate| && baseline != [] && iterations >= 200 && 0.0 < alpha < 1.0
    requires means == Sort(DrawnMeans(baseline, candidate, draws, seed, iterations), LeReal)
    ensures var moved := BootstrapOf(baseline, Shifted(candidate, d), iterations, alpha, seed, draws);
            && moved.Ok? && Quantile(Shifted(means, d), alpha / 2.0) == Ok(moved.value.ciLow)
            && Quantile(Shifted(means, d), 1.0 - alpha / 2.0) == Ok(moved.value.ciHigh)
            && moved.value.observedDelta == Mean(Minus(Shifted(candidate, d), baseline))
  {
    ShiftedArrangement(DrawnMeans(baseline, candidate, draws, seed, iterations), d);
    DrawnShifted(baseline, candidate, draws, seed, iterations, d);
    IntervalOfDrawnSamples(baseline, Shifted(candidate, d), iterations, alpha, seed, draws, Shifted(means, d));
  }

  /** Adding `d` to every candidate score moves the delta and both ends of the
      interval by `d`, on the same draws. */
  lemma ShiftMovesInterval(baseline: seq<real>, candidate: seq<real>, iterations: int, alpha: real, seed: int,
                           draws: IndexStream, d: real)
    requires BootstrapOf(baseline, candidate, iterations, alpha, seed, draws).Ok?
    ensures var r := BootstrapOf(baseline, candidate, iterations, alpha, seed, draws).value;
            var moved := BootstrapOf(baseline, Shifted(candidate, d), iterations, alpha, seed, draws);
            && moved.Ok? && moved.value.observedDelta == r.observedDelta + d
            && moved.value.ciLow == r.ciLow + d && moved.value.ciHigh == r.ciHigh + d
  {
    AnswersIff(baseline, candidate, iterations, alpha, seed, draws);
    var raw := DrawnMeans(baseline, candidate, draws, seed, iterations);
    var means := Sort(raw, LeReal);
    SortPermutes(raw, LeReal);
    SortSorted(raw, LeReal);
    IntervalOfDrawnSamples(baseline, candidate, iterations, alpha, seed, draws, means);
    ShiftedMeans(baseline, candidate, iterations, alpha, seed, draws, d, means);
    DeltaShifted(baseline, candidate, d);
    EndsShifted(means, alpha, d, BootstrapOf(baseline, candidate, iterations, alpha, seed, draws).value,
                BootstrapOf(baseline, Shifted(candidate, d), iterations, alpha, seed, draws).value);
  }

  // -- the p-value -------------------------------------------------------------------------

  /** The places where the test holds. */
  function Places(v: seq<real>, p: real -> bool): set<int> {
    set i | 0 <= i < |v| && p(v[i])
  }

  lemma {:induction false} CountIsPlaces(v: seq<real>, p: real -> bool)
    ensures CountIf(v, p) == |Places(v, p)|
  {
    if v != [] {
      var init, last := v[..|v| - 1], |v| - 1;
      CountIsPlaces(init, p);
      CountSnoc(init, v[last], p);
      assert v == init + [v[last]];
      assert Places(v, p) == Places(init, p) + if p(v[last]) then {last} else {};
    }
  }

  /** Of `B` resamples, `2 * min(at or below zero, at or above zero) / B`, at least
      one resample and at most one. */
  lemma PValueCounts(means: seq<real>)
    requires means != []
    ensures var b, below, above := |means|, |Places(means, x => x <= 0.0)|, |Places(means, x => x >= 0.0)|;
            var tail := if below <= above then 2 * below else 2 * above;
            PValue(means) == (if tail < 1 then 1 else if tail > b then b else tail) as real / b as real
  {
    CountIsPlaces(means, AtOrBelowZero);
    CountIsPlaces(means, AtOrAboveZero);
    assert Places(means, AtOrBelowZero) == Places(means, x => x <= 0.0);
    assert Places(means, AtOrAboveZero) == Places(means, x => x >= 0.0);
    var k := MinNat(CountIf(means, AtOrBelowZero), CountIf(means, AtOrAboveZero));
    Doubled(k, |means|);
  }

  lemma QuotientOrder(x: real, y: real, b: real)
    requires b > 0.0
    ensures x / b <= y / b <==> x <= y
  {
    if x <= y {
      QuotientWithin(y - x, b, 0.0, (y - x) / b);
    } else {
      QuotientGap(x, y, b);
    }
  }

  lemma QuotientGap(x: real, y: real, b: real)
    requires b > 0.0 && x > y
    ensures x / b > y / b
  {
    assert x / b - y / b == (x - y) / b;
    assert (x - y) / b > 0.0;
  }

  lemma Doubled(k: nat, b: nat)
    requires b > 0
    ensures 2.0 * (k as real / b as real) == (2 * k) as real / b as real
    ensures 2.0 * (k as real / b as real) >= 1.0 / b as real <==> 2 * k >= 1
    ensures 2.0 * (k as real / b as real) <= 1.0 <==> 2 * k <= b
    ensures 1.0 / b as real <= 1.0 && b as real / b as real == 1.0
  {
    var n := b as real;
    Twice(k as real, n);
    QuotientOrder(1.0, 2.0 * k as real, n);
    QuotientOrder(2.0 * k as real, n, n);
    QuotientOrder(1.0, n, n);
    assert n / n == 1.0;
  }

  lemma Twice(x: real, b: real)
    requires b > 0.0
    ensures 2.0 * (x / b) == (2.0 * x) / b
  {
  }

  // -- which inputs are refused, and the corrected level -----------------------------------

  /** The bootstrap answers exactly for paired, non-empty samples, at least 200
      resamples and a level strictly between 0 and 1. */
  lemma AnswersIff(baseline: seq<real>, candidate: seq<real>, iterations: int, alpha: real, seed: int, draws: IndexStream)
    ensures BootstrapOf(baseline, candidate, iterations, alpha, seed, draws).Ok?
       <==> iterations >= 200 && 0.0 < alpha < 1.0 && |baseline| == |candidate| > 0
  {
  }

  /** Split over the comparisons, the Bonferroni levels add up to the family's;
      without correction each comparison has the family's own. */
  lemma BonferroniSplits(familyAlpha: real, comparisons: int)
    requires 0.0 < familyAlpha < 1.0 && comparisons >= 1
    ensures var split := PerComparisonAlpha(familyAlpha, comparisons, Bonferroni);
            split.Ok? && split.value * comparisons as real == familyAlpha
    ensures PerComparisonAlpha(familyAlpha, comparisons, NoCorrection) == Ok(familyAlpha)
  {
  }

  // -- interpolation ----------------------------------------------------------------------

  lemma AtInterpolates(v: seq<real>, k: nat, w: real)
    requires k + 1 < |v| && 0.0 <= w <= 1.0
    ensures k as real + w <= (|v| - 1) as real
    ensures At(v, k as real + w) == v[k] + (v[k + 1] - v[k]) * w
  {
    var position := k as real + w;
    if w < 1.0 {
      assert position.Floor == k && UpperIndex(v, position) == k + 1;
      LerpForm(v[k], v[k + 1], w);
    } else {
      assert position == (k + 1) as real && position.Floor == k + 1;
      LerpStart(v[k + 1], v[UpperIndex(v, position)]);
    }
  }

  lemma PositionOf(n: nat, x: real)
    requires n > 1 && 0.0 <= x <= (n - 1) as real
    ensures 0.0 <= x / (n - 1) as real <= 1.0
    ensures Position(n, x / (n - 1) as real) == x
  {
    QuotientWithin(x, (n - 1) as real, 0.0, 1.0);
  }

  /** Between two order statistics the quantile is their linear interpolation, and
      at level k / (n - 1) it is the k-th order statistic itself. */
  lemma QuantileInterpolates(v: seq<real>, k: nat, w: real)
    requires k + 1 < |v| && 0.0 <= w <= 1.0
    ensures Quantile(v, (k as real + w) / (|v| - 1) as real) == Ok(v[k] + (v[k + 1] - v[k]) * w)
  {
    AtInterpolates(v, k, w);
    PositionOf(|v|, k as real + w);
  }

  lemma LerpForm(a: real, b: real, w: real)
    ensures Lerp(a, b, w) == a + (b - a) * w
  {
  }
}
