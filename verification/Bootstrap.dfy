/** The paired percentile bootstrap: the resampling loops, exchange symmetry
    between the two arms, and agreement of the interval with the p-value. */
module Bootstrap {
  import opened Wrappers
  import opened Sorting
  import opened RealSums
  import opened Statistics

  // -- what the loops compute -------------------------------------------------

  function Total(deltas: seq<real>, draws: IndexStream, seed: int, resample: nat, count: nat): real
    requires deltas != []
  {
    if count == 0 then 0.0
    else Total(deltas, draws, seed, resample, count - 1) + deltas[draws(seed, |deltas|, resample, count - 1)]
  }

  function ResampledMeans(deltas: seq<real>, draws: IndexStream, seed: int, iterations: nat): (r: seq<real>)
    requires deltas != []
    ensures |r| == iterations
  {
    seq(iterations, (i: nat) => Total(deltas, draws, seed, i, |deltas|) / |deltas| as real)
  }

  predicate AtOrBelowZero(x: real) {
    x <= 0.0
  }

  predicate AtOrAboveZero(x: real) {
    x >= 0.0
  }

  function CountIf(v: seq<real>, p: real -> bool): (c: nat)
    ensures c <= |v|
  {
    if v == [] then 0 else (if p(v[0]) then 1 else 0) + CountIf(v[1..], p)
  }

  function MinNat(a: nat, b: nat): nat {
    if a <= b then a else b
  }

  function PValue(means: seq<real>): real
    requires means != []
  {
    var b := |means| as real;
    var tail := MinNat(CountIf(means, AtOrBelowZero), CountIf(means, AtOrAboveZero)) as real / b;
    var floored := if 2.0 * tail >= 1.0 / b then 2.0 * tail else 1.0 / b;
    if floored <= 1.0 then floored else 1.0
  }

  function PairedDifferences(baseline: seq<real>, candidate: seq<real>): Result<seq<real>, StatisticsError> {
    if |baseline| != |candidate| then Err(UnpairedSamples)
    else if baseline == [] then Err(EmptySample)
    else Ok(Minus(candidate, baseline))
  }

  function BootstrapOf(baseline: seq<real>, candidate: seq<real>, iterations: int, alpha: real, seed: int,
                       draws: IndexStream): Result<PairedBootstrapResult, StatisticsError>
  {
    if iterations < MIN_BOOTSTRAP_ITERATIONS then Err(TooFewIterations)
    else if !(0.0 < alpha < 1.0) then Err(AlphaOutOfRange)
    else
      var deltas :- PairedDifferences(baseline, candidate);
      Ok(Summarize(deltas, SortedMeans(deltas, draws, seed, iterations), alpha, seed))
  }

  function SortedMeans(deltas: seq<real>, draws: IndexStream, seed: int, iterations: nat): (r: seq<real>)
    requires deltas != []
    ensures |r| == iterations && Ascending(r)
  {
    var raw := ResampledMeans(deltas, draws, seed, iterations);
    SortPermutes(raw, LeReal);
    SortSorted(raw, LeReal);
    Sort(raw, LeReal)
  }

  /** The result built from the sorted resampled means. */
  function Summarize(deltas: seq<real>, means: seq<real>, alpha: real, seed: int): PairedBootstrapResult
    requires deltas != [] && means != [] && 0.0 < alpha < 1.0
  {
    PairedBootstrapResult(Mean(deltas), Quantile(means, alpha / 2.0).value, Quantile(means, 1.0 - alpha / 2.0).value,
                          alpha, |means|, |deltas|, PValue(means), seed)
  }

  /** The resampling loops, one draw at a time. */
  method PairedBootstrap(baseline: seq<real>, candidate: seq<real>, iterations: int, alpha: real, seed: int,
                         draws: IndexStream) returns (r: Result<PairedBootstrapResult, StatisticsError>)
    ensures r == BootstrapOf(baseline, candidate, iterations, alpha, seed, draws)
  {
    if iterations < MIN_BOOTSTRAP_ITERATIONS {
      return Err(TooFewIterations);
    }
    if !(0.0 < alpha < 1.0) {
      return Err(AlphaOutOfRange);
    }
    var deltas :- PairedDifferences(baseline, candidate);
    var n := |deltas|;
    var resampled: seq<real> := [];
    for i := 0 to iterations
      invariant resampled == ResampledMeans(deltas, draws, seed, i)
    {
      var total := 0.0;
      for j := 0 to n
        invariant total == Total(deltas, draws, seed, i, j)
      {
        total := total + deltas[draws(seed, n, i, j)];
      }
      resampled := resampled + [total / n as real];
    }
    assert Sort(resampled, LeReal) == SortedMeans(deltas, draws, seed, iterations);
    var means := Sort(resampled, LeReal);
    var low := Quantile(means, alpha / 2.0);
    var high := Quantile(means, 1.0 - alpha / 2.0);
    return Ok(PairedBootstrapResult(Mean(deltas), low.value, high.value, alpha, iterations, n, PValue(means), seed));
  }

  // -- exchange symmetry --------------------------------------------------------

  lemma {:induction false} TotalNegated(deltas: seq<real>, draws: IndexStream, seed: int, resample: nat, count: nat)
    requires deltas != []
    ensures Total(Negated(deltas), draws, seed, resample, count) == -Total(deltas, draws, seed, resample, count)
  {
    if count > 0 {
      TotalNegated(deltas, draws, seed, resample, count - 1);
    }
  }

  lemma NegatedQuotient(x: real, d: real)
    requires d > 0.0
    ensures (-x) / d == -(x / d)
  {
  }

  lemma MeansNegated(deltas: seq<real>, draws: IndexStream, seed: int, iterations: nat)
    requires deltas != []
    ensures ResampledMeans(Negated(deltas), draws, seed, iterations)
         == Negated(ResampledMeans(deltas, draws, seed, iterations))
  {
    var n := |deltas|;
    var a, b := ResampledMeans(Negated(deltas), draws, seed, iterations), ResampledMeans(deltas, draws, seed, iterations);
    forall i: nat | i < iterations ensures a[i] == -b[i] {
      TotalNegated(deltas, draws, seed, i, n);
      NegatedQuotient(Total(deltas, draws, seed, i, n), n as real);
    }
  }

  lemma ConsCount(y: real, ys: seq<real>, x: real)
    ensures multiset([y] + ys)[x] == (if y == x then 1 else 0) + multiset(ys)[x]
    ensures multiset(ys + [y])[x] == (if y == x then 1 else 0) + multiset(ys)[x]
  {
  }

  lemma CountNext(ys: seq<real>, zs: seq<real>, y: real, z: real, x: real, w: real)
    requires multiset(ys)[x] == multiset(zs)[w] && (y == x <==> z == w)
    ensures multiset(ys + [y])[x] == multiset(zs + [z])[w]
  {
    ConsCount(y, ys, x);
    ConsCount(z, zs, w);
  }

  lemma NegatedSnoc(init: seq<real>, y: real)
    ensures Negated(init + [y]) == Negated(init) + [-y]
  {
  }

  lemma {:induction false} NegatedCount(v: seq<real>, x: real)
    ensures multiset(Negated(v))[x] == multiset(v)[-x]
  {
    if v == [] {
      assert Negated(v) == [];
    } else {
      var init, y := v[..|v| - 1], v[|v| - 1];
      NegatedCount(init, x);
      NegatedSnoc(init, y);
      CountNext(Negated(init), init, -y, y, x, -x);
      assert v == init + [y];
    }
  }

  lemma {:induction false} MirrorCount(v: seq<real>, x: real)
    ensures multiset(Mirror(v))[x] == multiset(v)[-x]
  {
    if v != [] {
      MirrorCount(v[1..], x);
      assert v == [v[0]] + v[1..];
      assert Mirror(v) == Mirror(v[1..]) + [-v[0]];
      ConsCount(-v[0], Mirror(v[1..]), x);
      ConsCount(v[0], v[1..], -x);
    }
  }

  /** Sorting the negated means is reflecting the sorted means. */
  lemma SortNegated(v: seq<real>)
    ensures Sort(Negated(v), LeReal) == Mirror(Sort(v, LeReal))
  {
    var s := Sort(v, LeReal);
    SortPermutes(v, LeReal);
    SortSorted(v, LeReal);
    SortPermutes(Negated(v), LeReal);
    SortSorted(Negated(v), LeReal);
    forall x ensures multiset(Mirror(s))[x] == multiset(Negated(v))[x] {
      MirrorCount(s, x);
      NegatedCount(v, x);
    }
    assert multiset(Mirror(s)) == multiset(Negated(v));
    forall i, j | 0 <= i < j < |s| ensures LeReal(Mirror(s)[i], Mirror(s)[j]) {
      assert LeReal(s[|s| - 1 - j], s[|s| - 1 - i]);
    }
    SortedUnique(Sort(Negated(v), LeReal), Mirror(s), LeReal);
  }

  lemma {:induction false} CountSnoc(v: seq<real>, x: real, p: real -> bool)
    ensures CountIf(v + [x], p) == CountIf(v, p) + if p(x) then 1 else 0
  {
    if v != [] {
      CountSnoc(v[1..], x, p);
      assert (v + [x])[1..] == v[1..] + [x];
    }
  }

  lemma {:induction false} CountMirror(v: seq<real>)
    ensures CountIf(Mirror(v), AtOrBelowZero) == CountIf(v, AtOrAboveZero)
    ensures CountIf(Mirror(v), AtOrAboveZero) == CountIf(v, AtOrBelowZero)
  {
    if v != [] {
      CountMirror(v[1..]);
      assert Mirror(v) == Mirror(v[1..]) + [-v[0]];
      CountSnoc(Mirror(v[1..]), -v[0], AtOrBelowZero);
      CountSnoc(Mirror(v[1..]), -v[0], AtOrAboveZero);
    }
  }

  function Opposite(v: Verdict): Verdict {
    match v
    case Improvement => Regression
    case Regression => Improvement
    case Inconclusive => Inconclusive
  }

  /** The interval is never inside out. */
  lemma IntervalOrdered(deltas: seq<real>, means: seq<real>, alpha: real, seed: int)
    requires deltas != [] && means != [] && 0.0 < alpha < 1.0 && Ascending(means)
    ensures var r := Summarize(deltas, means, alpha, seed);
            means[0] <= r.ciLow <= r.ciHigh <= means[|means| - 1]
  {
    QuantileMonotone(means, alpha / 2.0, 1.0 - alpha / 2.0);
  }

  ghost predicate Mirrored(x: PairedBootstrapResult, y: PairedBootstrapResult) {
    && y == x.(observedDelta := -x.observedDelta, ciLow := -x.ciHigh, ciHigh := -x.ciLow)
    && y.GetVerdict() == Opposite(x.GetVerdict())
  }

  lemma PValueMirrored(means: seq<real>)
    requires means != []
    ensures PValue(Mirror(means)) == PValue(means)
  {
    CountMirror(means);
  }

  lemma IntervalMirrored(deltas: seq<real>, means: seq<real>, alpha: real, seed: int)
    requires deltas != [] && means != [] && 0.0 < alpha < 1.0
    ensures var x, y := Summarize(deltas, means, alpha, seed), Summarize(Negated(deltas), Mirror(means), alpha, seed);
            y.ciLow == -x.ciHigh && y.ciHigh == -x.ciLow
  {
    QuantileMirror(means, alpha / 2.0);
    QuantileOfMirror(means, alpha / 2.0);
  }

  lemma MeanNegated(xs: seq<real>)
    requires xs != []
    ensures Mean(Negated(xs)) == -Mean(xs)
  {
    SumNegated(xs);
  }

  lemma SummarizeMirrored(deltas: seq<real>, means: seq<real>, alpha: real, seed: int)
    requires deltas != [] && means != [] && 0.0 < alpha < 1.0 && Ascending(means)
    ensures Mirrored(Summarize(deltas, means, alpha, seed), Summarize(Negated(deltas), Mirror(means), alpha, seed))
  {
    MeanNegated(deltas);
    IntervalMirrored(deltas, means, alpha, seed);
    PValueMirrored(means);
    IntervalOrdered(deltas, means, alpha, seed);
  }

  /** Exchanging baseline and candidate under one seed mirrors the result: the
      delta is negated, the interval reflected, the p-value kept and the verdict
      reversed; refusals are the same refusals. */
  lemma SwapMirrorsResult(baseline: seq<real>, candidate: seq<real>, iterations: int, alpha: real, seed: int,
                          draws: IndexStream)
    ensures var r := BootstrapOf(baseline, candidate, iterations, alpha, seed, draws);
            var s := BootstrapOf(candidate, baseline, iterations, alpha, seed, draws);
            match r
            case Err(e) => s == Err(e)
            case Ok(x) => s.Ok? && Mirrored(x, s.value)
  {
    if MIN_BOOTSTRAP_ITERATIONS <= iterations && 0.0 < alpha < 1.0 && |baseline| == |candidate| && baseline != [] {
      var deltas := Minus(candidate, baseline);
      assert Minus(baseline, candidate) == Negated(deltas);
      MeansNegated(deltas, draws, seed, iterations);
      SortNegated(ResampledMeans(deltas, draws, seed, iterations));
      SummarizeMirrored(deltas, SortedMeans(deltas, draws, seed, iterations), alpha, seed);
    }
  }

  // -- the interval and the p-value ---------------------------------------------

  /** In an ascending sample every element from `u` on fails a downward-closed
      test once the one at `u` does. */
  lemma {:induction false} CountAtMost(v: seq<real>, u: nat)
    requires Ascending(v) && u < |v| && v[u] > 0.0
    ensures CountIf(v, AtOrBelowZero) <= u
  {
    if u == 0 {
      if |v| > 1 {
        assert LeReal(v[0], v[1]);
        CountAtMost(v[1..], 0);
      }
    } else {
      CountAtMost(v[1..], u - 1);
    }
  }

  lemma {:induction false} CountAtLeast(v: seq<real>, l: nat)
    requires Ascending(v) && l < |v| && v[l] <= 0.0
    ensures CountIf(v, AtOrBelowZero) >= l + 1
  {
    assert l > 0 ==> LeReal(v[0], v[l]);
    if l > 0 {
      CountAtLeast(v[1..], l - 1);
    }
  }

  /** What an interval endpoint says about the number `c` of resamples on the far
      side of zero: a positive endpoint caps it, any other one forces it up. */
  ghost predicate TailBound(endpoint: real, c: nat, alpha: real, gaps: real) {
    if endpoint > 0.0 then 2.0 * c as real <= alpha * gaps + 2.0 else 2.0 * c as real > alpha * gaps
  }

  lemma LowTail(v: seq<real>, alpha: real, low: real, gaps: real)
    requires v != [] && Ascending(v) && 0.0 < alpha < 1.0 && gaps == (|v| - 1) as real
    requires Quantile(v, alpha / 2.0) == Ok(low)
    ensures TailBound(low, CountIf(v, AtOrBelowZero), alpha, gaps)
  {
    if |v| == 1 {
      if low > 0.0 {
        CountAtMost(v, 0);
      } else {
        CountAtLeast(v, 0);
      }
    } else {
      var p := Position(|v|, alpha / 2.0);
      assert p == (alpha / 2.0) * gaps;
      assert 2.0 * p == alpha * gaps;
      AtBetween(v, p);
      if low > 0.0 {
        CountAtMost(v, UpperIndex(v, p));
      } else {
        CountAtLeast(v, p.Floor);
      }
    }
  }

  lemma MirrorAscending(v: seq<real>)
    requires Ascending(v)
    ensures Ascending(Mirror(v))
  {
  }

  lemma MirroredEnd(v: seq<real>, half: real, high: real)
    requires v != [] && 0.0 <= half <= 1.0 && Quantile(v, 1.0 - half) == Ok(high)
    ensures |Mirror(v)| == |v| && Quantile(Mirror(v), half) == Ok(-high)
  {
    QuantileOfMirror(v, half);
  }

  lemma HighTail(v: seq<real>, alpha: real, high: real, gaps: real)
    requires v != [] && Ascending(v) && 0.0 < alpha < 1.0 && gaps == (|v| - 1) as real
    requires Quantile(v, 1.0 - alpha / 2.0) == Ok(high)
    ensures TailBound(-high, CountIf(v, AtOrAboveZero), alpha, gaps)
  {
    MirrorAscending(v);
    MirroredEnd(v, alpha / 2.0, high);
    LowTail(Mirror(v), alpha, -high, gaps);
    CountMirror(v);
  }

  /** The same count comparison read as a comparison of proportions. */
  lemma Proportion(k: real, b: real, alpha: real)
    requires b >= 1.0 && 0.0 < alpha < 1.0
    ensures 2.0 * k <= alpha * (b - 1.0) + 2.0 ==> 2.0 * (k / b) <= alpha + 2.0 / b
    ensures 2.0 * k > alpha * (b - 1.0) ==> 2.0 * (k / b) > alpha * (1.0 - 1.0 / b)
    ensures 1.0 / b <= 2.0 / b && alpha * (1.0 - 1.0 / b) < 1.0
  {
  }

  lemma PValueFromTails(means: seq<real>)
    requires means != []
    ensures var b := |means| as real;
            var k := MinNat(CountIf(means, AtOrBelowZero), CountIf(means, AtOrAboveZero)) as real;
            && PValue(means) <= (if 2.0 * (k / b) >= 1.0 / b then 2.0 * (k / b) else 1.0 / b)
            && (PValue(means) >= 2.0 * (k / b) || PValue(means) == 1.0)
  {
  }

  ghost predicate Coherent(r: PairedBootstrapResult) {
    var b := r.iterations as real;
    && r.iterations > 0
    && (r.ExcludesParity() <==> r.GetVerdict() != Inconclusive)
    && (r.ExcludesParity() ==> r.pValue <= r.alpha + 2.0 / b)
    && (!r.ExcludesParity() ==> r.pValue > r.alpha * (1.0 - 1.0 / b))
  }

  lemma CoherentFromTails(r: PairedBootstrapResult, below: nat, above: nat, b: real)
    requires r.iterations > 0 && 0.0 < r.alpha < 1.0 && b == r.iterations as real
    requires TailBound(r.ciLow, below, r.alpha, b - 1.0)
    requires TailBound(-r.ciHigh, above, r.alpha, b - 1.0)
    requires var t := 2.0 * (MinNat(below, above) as real / b);
             && r.pValue <= (if t >= 1.0 / b then t else 1.0 / b)
             && (r.pValue >= t || r.pValue == 1.0)
    ensures Coherent(r)
  {
    Proportion(MinNat(below, above) as real, b, r.alpha);
  }

  /** A reported p-value is a probability and never below one resample. */
  lemma PValueRange(means: seq<real>)
    requires means != []
    ensures 0.0 < 1.0 / |means| as real <= PValue(means) <= 1.0
  {
  }

  /** The verdict and the p-value agree up to one resample a side: an interval
      that excludes parity has p at most alpha + 2/B, and one that contains it
      has p above alpha * (1 - 1/B). */
  lemma VerdictAgreesWithPValue(baseline: seq<real>, candidate: seq<real>, iterations: int, alpha: real, seed: int,
                                draws: IndexStream)
    ensures var r := BootstrapOf(baseline, candidate, iterations, alpha, seed, draws);
            r.Ok? ==> Coherent(r.value) && r.value.alpha == alpha && r.value.iterations == iterations
  {
    var r := BootstrapOf(baseline, candidate, iterations, alpha, seed, draws);
    if r.Ok? {
      var means := SortedMeans(Minus(candidate, baseline), draws, seed, iterations);
      var b := |means| as real;
      LowTail(means, alpha, r.value.ciLow, b - 1.0);
      HighTail(means, alpha, r.value.ciHigh, b - 1.0);
      PValueFromTails(means);
      CoherentFromTails(r.value, CountIf(means, AtOrBelowZero), CountIf(means, AtOrAboveZero), b);
    }
  }

  // -- multiplicity -------------------------------------------------------------

  lemma QuantilesEnclose(v: seq<real>, a: real, b: real)
    requires v != [] && Ascending(v) && 0.0 < a <= b < 1.0
    ensures Quantile(v, a).Ok? && Quantile(v, b).Ok? && Quantile(v, 1.0 - a).Ok? && Quantile(v, 1.0 - b).Ok?
    ensures Quantile(v, a).value <= Quantile(v, b).value && Quantile(v, 1.0 - b).value <= Quantile(v, 1.0 - a).value
  {
    QuantileMonotone(v, a, b);
    QuantileMonotone(v, 1.0 - b, 1.0 - a);
  }

  /** A smaller alpha gives an enclosing interval. */
  lemma SmallerAlphaEncloses(deltas: seq<real>, means: seq<real>, small: real, large: real, seed: int)
    requires deltas != [] && means != [] && Ascending(means) && 0.0 < small <= large < 1.0
    ensures var s, l := Summarize(deltas, means, small, seed), Summarize(deltas, means, large, seed);
            s.ciLow <= l.ciLow && l.ciHigh <= s.ciHigh
  {
    QuantilesEnclose(means, small / 2.0, large / 2.0);
  }

  /** Every conclusive verdict reached under the Bonferroni correction is reached
      without a correction as well, on the same samples and draws. */
  lemma BonferroniVerdictsSurvive(baseline: seq<real>, candidate: seq<real>, iterations: int, familyAlpha: real,
                                  comparisons: int, seed: int, draws: IndexStream)
    requires PerComparisonAlpha(familyAlpha, comparisons, Bonferroni).Ok?
    ensures PerComparisonAlpha(familyAlpha, comparisons, NoCorrection) == Ok(familyAlpha)
    ensures var split := PerComparisonAlpha(familyAlpha, comparisons, Bonferroni).value;
            var corrected := BootstrapOf(baseline, candidate, iterations, split, seed, draws);
            var plain := BootstrapOf(baseline, candidate, iterations, familyAlpha, seed, draws);
            && corrected.Ok? == plain.Ok?
            && (corrected.Ok? && corrected.value.GetVerdict() != Inconclusive
                ==> plain.value.GetVerdict() == corrected.value.GetVerdict())
  {
    var split := PerComparisonAlpha(familyAlpha, comparisons, Bonferroni).value;
    assert 0.0 < split <= familyAlpha;
    if MIN_BOOTSTRAP_ITERATIONS <= iterations && |baseline| == |candidate| && baseline != [] {
      var deltas := Minus(candidate, baseline);
      var means := SortedMeans(deltas, draws, seed, iterations);
      SmallerAlphaEncloses(deltas, means, split, familyAlpha, seed);
      IntervalOrdered(deltas, means, familyAlpha, seed);
    }
  }
}
