/** The paired bootstrap: interpolated quantiles, the percentile interval, the
    two-sided p-value and the verdict read off the interval.

    Scores are exact reals. The generator is an arbitrary index stream
    fixed by the seed and the sample size. */
module Statistics {
  import opened Wrappers
  import opened Sorting
  import opened RealSums

  datatype StatisticsError =
    | EmptySample
    | QuantileOutOfRange
    | UnpairedSamples
    | TooFewIterations
    | AlphaOutOfRange
    | NoComparisons

  datatype Verdict = Improvement | Regression | Inconclusive

  datatype MultiplicityMethod = Bonferroni | NoCorrection

  datatype PairedBootstrapResult = PairedBootstrapResult(
    observedDelta: real,
    ciLow: real,
    ciHigh: real,
    alpha: real,
    iterations: nat,
    nPairs: nat,
    pValue: real,
    seed: int)
  {
    predicate ExcludesParity() {
      ciLow > 0.0 || ciHigh < 0.0
    }

    function GetVerdict(): Verdict {
      if ciLow > 0.0 then Improvement
      else if ciHigh < 0.0 then Regression
      else Inconclusive
    }
  }

  const MIN_BOOTSTRAP_ITERATIONS := 200

  /** `draws(seed, n, i, j)` is the j-th value of `randrange(n)` in resample i,
      after seeding. */
  type IndexStream = f: (int, nat, nat, nat) -> nat |
      forall seed: int, n: nat, i: nat, j: nat :: n > 0 ==> f(seed, n, i, j) < n
    witness (seed: int, n: nat, i: nat, j: nat) => 0

  predicate LeReal(x: real, y: real) {
    x <= y
  }

  ghost predicate Ascending(v: seq<real>) {
    SortedBy(v, LeReal)
  }

  // -- quantiles ------------------------------------------------------------

  function PerComparisonAlpha(familyAlpha: real, comparisons: int, multiplicity: MultiplicityMethod)
    : Result<real, StatisticsError>
  {
    if !(0.0 < familyAlpha < 1.0) then Err(AlphaOutOfRange)
    else if comparisons < 1 then Err(NoComparisons)
    else if multiplicity == NoCorrection then Ok(familyAlpha)
    else Ok(familyAlpha / comparisons as real)
  }

  function UpperIndex(v: seq<real>, position: real): nat
    requires v != [] && 0.0 <= position
  {
    if position.Floor + 1 <= |v| - 1 then position.Floor + 1 else |v| - 1
  }

  /** Linear interpolation from `a` to `b`. */
  function Lerp(a: real, b: real, weight: real): real {
    a * (1.0 - weight) + b * weight
  }

  /** Interpolation between the order statistics around `position`. */
  function At(v: seq<real>, position: real): real
    requires v != [] && 0.0 <= position <= (|v| - 1) as real
  {
    Lerp(v[position.Floor], v[UpperIndex(v, position)], position - position.Floor as real)
  }

  function Position(n: nat, q: real): (position: real)
    requires n > 0 && 0.0 <= q <= 1.0
    ensures 0.0 <= position <= (n - 1) as real
  {
    ScaleBounds(q, (n - 1) as real);
    q * (n - 1) as real
  }

  lemma ScaleBounds(q: real, m: real)
    requires 0.0 <= q <= 1.0 && 0.0 <= m
    ensures 0.0 <= q * m <= m
  {
  }

  function Quantile(v: seq<real>, q: real): Result<real, StatisticsError> {
    if v == [] then Err(EmptySample)
    else if !(0.0 <= q <= 1.0) then Err(QuantileOutOfRange)
    else if |v| == 1 then Ok(v[0])
    else Ok(At(v, Position(|v|, q)))
  }

  lemma LerpBetween(a: real, b: real, w: real)
    requires a <= b && 0.0 <= w <= 1.0
    ensures a <= Lerp(a, b, w) <= b
  {
    var d := b - a;
    ScaleBounds(w, d);
    assert Lerp(a, b, w) == a + w * d;
  }

  lemma LerpMonotone(a: real, b: real, w: real, w': real)
    requires a <= b && w <= w'
    ensures Lerp(a, b, w) <= Lerp(a, b, w')
  {
  }

  lemma LerpMirror(a: real, b: real, w: real)
    ensures Lerp(-b, -a, 1.0 - w) == -Lerp(a, b, w)
  {
  }

  lemma LerpStart(a: real, b: real)
    ensures Lerp(a, b, 0.0) == a
  {
  }

  /** The interpolated value lies between the two order statistics it uses. */
  lemma AtBetween(v: seq<real>, position: real)
    requires v != [] && Ascending(v) && 0.0 <= position <= (|v| - 1) as real
    ensures v[position.Floor] <= At(v, position) <= v[UpperIndex(v, position)]
  {
    var l, u := position.Floor, UpperIndex(v, position);
    assert l < u ==> LeReal(v[l], v[u]);
    LerpBetween(v[l], v[u], position - l as real);
  }

  lemma AtMonotone(v: seq<real>, p: real, p': real)
    requires v != [] && Ascending(v) && 0.0 <= p <= p' <= (|v| - 1) as real
    ensures At(v, p) <= At(v, p')
  {
    var l, l', u := p.Floor, p'.Floor, UpperIndex(v, p);
    if l == l' {
      assert l < u ==> LeReal(v[l], v[u]);
      LerpMonotone(v[l], v[u], p - l as real, p' - l as real);
    } else {
      AtBetween(v, p);
      AtBetween(v, p');
      assert u <= l';
      assert u < l' ==> LeReal(v[u], v[l']);
    }
  }

  /** `quantile` is monotone in the level and stays inside the sample. */
  lemma QuantileMonotone(v: seq<real>, q: real, q': real)
    requires v != [] && Ascending(v) && 0.0 <= q <= q' <= 1.0
    ensures Quantile(v, q).Ok? && Quantile(v, q').Ok?
    ensures v[0] <= Quantile(v, q).value <= Quantile(v, q').value <= v[|v| - 1]
  {
    if |v| > 1 {
      var m := (|v| - 1) as real;
      var p, p' := Position(|v|, q), Position(|v|, q');
      assert p' - p == (q' - q) * m;
      ScaleBounds(q' - q, m);
      AtMonotone(v, p, p');
      AtBetween(v, p);
      AtBetween(v, p');
      assert p.Floor > 0 ==> LeReal(v[0], v[p.Floor]);
      var u := UpperIndex(v, p');
      assert u < |v| - 1 ==> LeReal(v[u], v[|v| - 1]);
    }
  }

  // -- reflection about zero --------------------------------------------------

  /** The sample reflected about zero, in ascending order again. */
  function Mirror(v: seq<real>): (r: seq<real>)
    ensures |r| == |v| && forall i :: 0 <= i < |v| ==> r[i] == -v[|v| - 1 - i]
  {
    seq(|v|, i requires 0 <= i < |v| => -v[|v| - 1 - i])
  }

  lemma AtMirror(v: seq<real>, p: real)
    requires v != [] && 0.0 <= p <= (|v| - 1) as real
    ensures At(Mirror(v), (|v| - 1) as real - p) == -At(v, p)
  {
    var n, l := |v|, p.Floor;
    var w, p' := p - l as real, (n - 1) as real - p;
    if w == 0.0 {
      assert p'.Floor == n - 1 - l;
      LerpStart(v[l], v[UpperIndex(v, p)]);
      LerpStart(-v[l], Mirror(v)[UpperIndex(v, p')]);
    } else {
      assert p' == (n - 2 - l) as real + (1.0 - w);
      assert p'.Floor == n - 2 - l;
      LerpMirror(v[l], v[l + 1], w);
    }
  }

  /** Reflecting the sample and the level reflects the quantile, through the
      interpolation. */
  lemma QuantileMirror(v: seq<real>, q: real)
    requires v != [] && 0.0 <= q <= 1.0
    ensures Quantile(v, q).Ok?
    ensures Quantile(Mirror(v), 1.0 - q) == Ok(-Quantile(v, q).value)
  {
    if |v| > 1 {
      var m := (|v| - 1) as real;
      assert (1.0 - q) * m == m - q * m;
      AtMirror(v, Position(|v|, q));
    }
  }

  /** The same fact read from the other end. */
  lemma QuantileOfMirror(v: seq<real>, q: real)
    requires v != [] && 0.0 <= q <= 1.0
    ensures Quantile(v, 1.0 - q).Ok?
    ensures Quantile(Mirror(v), q) == Ok(-Quantile(v, 1.0 - q).value)
  {
    var q' := 1.0 - q;
    QuantileMirror(v, q');
    assert q == 1.0 - q';
  }
}
