/** Redacting findings out of text. Overlapping and touching findings merge into
    disjoint spans, each span is replaced by one marker, and everything outside
    the findings survives in order. */
module Redaction {
  import opened Wrappers
  import opened Sorting
  import opened Ordering
  import opened Detection

  /** A merged span with its category and the length of its longest constituent. */
  datatype Span = Span(start: nat, end: nat, category: Category, longest: int)

  predicate LeSpan(f: Finding, g: Finding) {
    f.start < g.start || (f.start == g.start && f.end <= g.end)
  }

  lemma LeSpanIsOrder()
    ensures IsTotal(LeSpan) && IsTransitive(LeSpan)
  {
  }

  function Last<T>(xs: seq<T>): T
    requires xs != []
  {
    xs[|xs| - 1]
  }

  function Length(f: Finding): int {
    f.end - f.start
  }

  function MergeStep(merged: seq<Span>, f: Finding): seq<Span> {
    if merged != [] && f.start <= Last(merged).end then
      var last := Last(merged);
      merged[|merged| - 1 := Span(last.start, if last.end < f.end then f.end else last.end,
                                  if Length(f) > last.longest then f.category else last.category,
                                  if last.longest < Length(f) then Length(f) else last.longest)]
    else merged + [Span(f.start, f.end, f.category, Length(f))]
  }

  function MergeOrdered(ordered: seq<Finding>): seq<Span> {
    if ordered == [] then []
    else MergeStep(MergeOrdered(ordered[..|ordered| - 1]), Last(ordered))
  }

  function Merged(findings: seq<Finding>): seq<Span> {
    MergeOrdered(Sort(findings, LeSpan))
  }

  method MergeOverlapping(findings: seq<Finding>) returns (merged: seq<Span>)
    ensures merged == Merged(findings)
  {
    if findings == [] {
      return [];
    }
    var ordered := Sort(findings, LeSpan);
    merged := [];
    for i := 0 to |ordered|
      invariant merged == MergeOrdered(ordered[..i])
    {
      assert ordered[..i + 1][..i] == ordered[..i];
      var f := ordered[i];
      if merged != [] && f.start <= merged[|merged| - 1].end {
        var last := merged[|merged| - 1];
        merged := merged[|merged| - 1 := Span(last.start, if last.end < f.end then f.end else last.end,
                                              if f.end - f.start > last.longest then f.category else last.category,
                                              if last.longest < f.end - f.start then f.end - f.start else last.longest)];
      } else {
        merged := merged + [Span(f.start, f.end, f.category, f.end - f.start)];
      }
    }
    assert ordered[..|ordered|] == ordered;
  }

  // -- what merging yields ----------------------------------------------------------

  ghost predicate Gapped(spans: seq<Span>) {
    && (forall i :: 0 <= i < |spans| ==> spans[i].start <= spans[i].end)
    && (forall i, j :: 0 <= i < j < |spans| ==> spans[i].end < spans[j].start)
  }

  predicate Inside(f: Finding, s: Span) {
    s.start <= f.start && f.end <= s.end
  }

  predicate Hits(f: Finding, x: int) {
    f.start <= x < f.end
  }

  predicate HitBy(fs: seq<Finding>, x: int) {
    exists j :: 0 <= j < |fs| && Hits(fs[j], x)
  }

  predicate InSpan(s: Span, x: int) {
    s.start <= x < s.end
  }

  predicate InSpans(spans: seq<Span>, x: int) {
    exists i :: 0 <= i < |spans| && InSpan(spans[i], x)
  }

  /** `fs[k]` is the span's first longest constituent and names it. */
  ghost predicate NamedBy(s: Span, fs: seq<Finding>, k: int) {
    && 0 <= k < |fs| && Inside(fs[k], s)
    && s.category == fs[k].category && s.longest == Length(fs[k])
    && (forall j {:trigger Inside(fs[j], s)} :: 0 <= j < |fs| && Inside(fs[j], s) ==> Length(fs[j]) <= Length(fs[k]))
    && (forall j {:trigger Inside(fs[j], s)} :: 0 <= j < k && Inside(fs[j], s) ==> Length(fs[j]) < Length(fs[k]))
  }

  ghost predicate Named(s: Span, fs: seq<Finding>) {
    exists k :: NamedBy(s, fs, k)
  }

  /** The span is nothing but its constituents. */
  ghost predicate Filled(s: Span, fs: seq<Finding>) {
    && (forall x {:trigger InSpan(s, x)} :: InSpan(s, x) ==> HitBy(fs, x))
    && (exists j :: 0 <= j < |fs| && fs[j].start == s.start)
  }

  ghost predicate Holds(spans: seq<Span>, f: Finding) {
    exists i :: 0 <= i < |spans| && Inside(f, spans[i])
  }

  /** The spans cover exactly the positions of the findings. */
  ghost predicate Covering(spans: seq<Span>, fs: seq<Finding>) {
    forall x :: InSpans(spans, x) <==> HitBy(fs, x)
  }

  predicate WellFormed(fs: seq<Finding>) {
    forall j :: 0 <= j < |fs| ==> fs[j].start <= fs[j].end
  }

  ghost predicate MergeOf(spans: seq<Span>, fs: seq<Finding>) {
    && Gapped(spans)
    && (forall j {:trigger Holds(spans, fs[j])} :: 0 <= j < |fs| ==> Holds(spans, fs[j]))
    && (forall i {:trigger Named(spans[i], fs)} {:trigger Filled(spans[i], fs)} :: 0 <= i < |spans| ==> Named(spans[i], fs) && Filled(spans[i], fs))
  }

  lemma FilledSnoc(s: Span, fs: seq<Finding>, f: Finding)
    requires Filled(s, fs)
    ensures Filled(s, fs + [f])
  {
    var gs := fs + [f];
    forall x | InSpan(s, x) ensures HitBy(gs, x) {
      var j :| 0 <= j < |fs| && Hits(fs[j], x);
      assert gs[j] == fs[j];
    }
    var j :| 0 <= j < |fs| && fs[j].start == s.start;
    assert gs[j] == fs[j];
  }

  /** A later finding that starts past the span changes nothing about it. */
  lemma NamedSnoc(s: Span, fs: seq<Finding>, f: Finding)
    requires Named(s, fs) && s.end < f.start && f.start <= f.end
    ensures Named(s, fs + [f])
  {
    var k :| NamedBy(s, fs, k);
    assert NamedBy(s, fs + [f], k);
  }

  lemma OwnSpan(fs: seq<Finding>, f: Finding)
    requires f.start <= f.end
    requires forall j :: 0 <= j < |fs| ==> fs[j].start <= fs[j].end < f.start
    ensures var s := Span(f.start, f.end, f.category, Length(f)); Named(s, fs + [f]) && Filled(s, fs + [f])
  {
    var s := Span(f.start, f.end, f.category, Length(f));
    var gs := fs + [f];
    assert gs[|fs|] == f;
    assert NamedBy(s, gs, |fs|);
    forall x | InSpan(s, x) ensures HitBy(gs, x) {
      assert Hits(gs[|fs|], x);
    }
  }

  /** The last span grown by a finding that starts inside or right after it. */
  function Grown(last: Span, f: Finding): Span {
    Span(last.start, if last.end < f.end then f.end else last.end,
         if Length(f) > last.longest then f.category else last.category,
         if last.longest < Length(f) then Length(f) else last.longest)
  }

  lemma GrownFilled(last: Span, fs: seq<Finding>, f: Finding)
    requires Filled(last, fs) && last.start <= f.start <= last.end && f.start <= f.end
    ensures Filled(Grown(last, f), fs + [f])
  {
    var gs := fs + [f];
    FilledSnoc(last, fs, f);
    forall x | InSpan(Grown(last, f), x) ensures HitBy(gs, x) {
      if !InSpan(last, x) {
        assert gs[|fs|] == f && Hits(gs[|fs|], x);
      }
    }
  }

  /** Growing takes in no earlier finding, so the longest changes only if the
      new one is strictly longer. */
  lemma GrownNamed(last: Span, fs: seq<Finding>, f: Finding)
    requires Named(last, fs) && last.start <= f.start && f.start <= f.end
    requires forall j :: 0 <= j < |fs| && last.start <= fs[j].start ==> Inside(fs[j], last)
    ensures Named(Grown(last, f), fs + [f])
  {
    var gs := fs + [f];
    var k :| NamedBy(last, fs, k);
    forall j | 0 <= j < |fs| && Inside(gs[j], Grown(last, f)) ensures Inside(fs[j], last) {
      assert gs[j] == fs[j];
    }
    if Length(f) > last.longest {
      assert NamedBy(Grown(last, f), gs, |fs|);
    } else {
      assert NamedBy(Grown(last, f), gs, k);
    }
  }

  lemma GrownHolds(spans: seq<Span>, fs: seq<Finding>, f: Finding)
    requires spans != [] && forall j {:trigger Holds(spans, fs[j])} :: 0 <= j < |fs| ==> Holds(spans, fs[j])
    requires Last(spans).start <= f.start
    ensures var grown := spans[|spans| - 1 := Grown(Last(spans), f)];
            forall j :: 0 <= j < |fs + [f]| ==> Holds(grown, (fs + [f])[j])
  {
    var grown := spans[|spans| - 1 := Grown(Last(spans), f)];
    forall j | 0 <= j < |fs + [f]| ensures Holds(grown, (fs + [f])[j]) {
      if j < |fs| {
        assert Holds(spans, fs[j]);
        var i :| 0 <= i < |spans| && Inside(fs[j], spans[i]);
        assert Inside(fs[j], grown[i]);
      } else {
        assert Inside(f, grown[|spans| - 1]);
      }
    }
  }

  /** A finding that starts where the last span or later is inside the last span. */
  lemma LateFindings(spans: seq<Span>, fs: seq<Finding>, j: nat)
    requires MergeOf(spans, fs) && WellFormed(fs) && spans != []
    requires j < |fs| && Last(spans).start <= fs[j].start
    ensures Inside(fs[j], Last(spans))
  {
    assert Holds(spans, fs[j]);
    var i :| 0 <= i < |spans| && Inside(fs[j], spans[i]);
    assert i < |spans| - 1 ==> spans[i].end < spans[|spans| - 1].start;
  }

  lemma GrownParts(spans: seq<Span>, fs: seq<Finding>, f: Finding, i: nat)
    requires MergeOf(spans, fs) && WellFormed(fs) && f.start <= f.end
    requires i < |spans| && Last(spans).start <= f.start <= Last(spans).end
    ensures var s := spans[|spans| - 1 := Grown(Last(spans), f)][i]; Named(s, fs + [f]) && Filled(s, fs + [f])
  {
    assert Named(spans[i], fs) && Filled(spans[i], fs);
    if i < |spans| - 1 {
      assert spans[i].end < spans[|spans| - 1].start;
      NamedSnoc(spans[i], fs, f);
      FilledSnoc(spans[i], fs, f);
    } else {
      forall j | 0 <= j < |fs| && Last(spans).start <= fs[j].start ensures Inside(fs[j], Last(spans)) {
        LateFindings(spans, fs, j);
      }
      GrownFilled(Last(spans), fs, f);
      GrownNamed(Last(spans), fs, f);
    }
  }

  lemma GrowKeepsMerge(spans: seq<Span>, fs: seq<Finding>, f: Finding)
    requires MergeOf(spans, fs) && WellFormed(fs) && f.start <= f.end
    requires spans != [] && Last(spans).start <= f.start <= Last(spans).end
    ensures MergeOf(spans[|spans| - 1 := Grown(Last(spans), f)], fs + [f])
  {
    var grown := spans[|spans| - 1 := Grown(Last(spans), f)];
    GrownHolds(spans, fs, f);
    forall i | 0 <= i < |grown| ensures Named(grown[i], fs + [f]) && Filled(grown[i], fs + [f]) {
      GrownParts(spans, fs, f, i);
    }
    assert Gapped(grown);
  }

  lemma LastStartsEarlier(spans: seq<Span>, fs: seq<Finding>, f: Finding)
    requires MergeOf(spans, fs) && spans != [] && SortedBy(fs + [f], LeSpan)
    ensures Last(spans).start <= f.start
  {
    assert Filled(Last(spans), fs);
    var j :| 0 <= j < |fs| && fs[j].start == Last(spans).start;
    var gs := fs + [f];
    assert LeSpan(gs[j], gs[|fs|]);
  }

  lemma AppendKeepsMerge(spans: seq<Span>, fs: seq<Finding>, f: Finding)
    requires MergeOf(spans, fs) && WellFormed(fs + [f])
    requires spans != [] ==> Last(spans).end < f.start
    ensures MergeOf(spans + [Span(f.start, f.end, f.category, Length(f))], fs + [f])
  {
    var gs := fs + [f];
    var more := spans + [Span(f.start, f.end, f.category, Length(f))];
    assert forall j :: 0 <= j < |fs| ==> gs[j] == fs[j];
    assert gs[|fs|] == f;
    assert forall i :: 0 <= i < |spans| ==> spans[i].end <= Last(spans).end;
    forall j | 0 <= j < |fs| ensures fs[j].end < f.start && Holds(more, gs[j]) {
      assert Holds(spans, fs[j]);
      var i :| 0 <= i < |spans| && Inside(fs[j], spans[i]);
      assert Inside(fs[j], more[i]);
    }
    assert Inside(gs[|fs|], more[|spans|]);
    OwnSpan(fs, f);
    forall i | 0 <= i < |spans| ensures Named(more[i], gs) && Filled(more[i], gs) {
      NamedSnoc(spans[i], fs, f);
      FilledSnoc(spans[i], fs, f);
    }
  }

  lemma {:induction false} MergeOrderedIsMerge(ordered: seq<Finding>)
    requires WellFormed(ordered) && SortedBy(ordered, LeSpan)
    ensures MergeOf(MergeOrdered(ordered), ordered)
  {
    if ordered != [] {
      var init, f := ordered[..|ordered| - 1], Last(ordered);
      MergeOrderedIsMerge(init);
      assert ordered == init + [f];
      var before := MergeOrdered(init);
      if before != [] && f.start <= Last(before).end {
        LastStartsEarlier(before, init, f);
        GrowKeepsMerge(before, init, f);
      } else {
        AppendKeepsMerge(before, init, f);
      }
    }
  }

  /** Merging yields sorted spans with a gap between any two, whose positions are
      exactly the positions of the findings, each labelled by its first longest
      constituent in (start, end) order. */
  lemma MergedIs(findings: seq<Finding>)
    requires WellFormed(findings)
    ensures MergeOf(Merged(findings), Sort(findings, LeSpan))
    ensures Covering(Merged(findings), findings)
  {
    LeSpanIsOrder();
    var ordered := Sort(findings, LeSpan);
    SortSorted(findings, LeSpan);
    SortPermutes(findings, LeSpan);
    SameElements(ordered, findings);
    forall j | 0 <= j < |ordered| ensures ordered[j].start <= ordered[j].end {
      assert ordered[j] in findings;
    }
    MergeOrderedIsMerge(ordered);
    forall x ensures InSpans(Merged(findings), x) <==> HitBy(findings, x) {
      MergePositions(Merged(findings), ordered, x);
      SamePositions(ordered, findings, x);
      SamePositions(findings, ordered, x);
    }
  }

  lemma MergePositions(spans: seq<Span>, fs: seq<Finding>, x: int)
    requires MergeOf(spans, fs)
    ensures InSpans(spans, x) <==> HitBy(fs, x)
  {
    if HitBy(fs, x) {
      var j :| 0 <= j < |fs| && Hits(fs[j], x);
      assert Holds(spans, fs[j]);
      var i :| 0 <= i < |spans| && Inside(fs[j], spans[i]);
      assert InSpan(spans[i], x);
    }
    if InSpans(spans, x) {
      var i :| 0 <= i < |spans| && InSpan(spans[i], x);
      assert Filled(spans[i], fs);
    }
  }

  lemma SamePositions(fs: seq<Finding>, gs: seq<Finding>, x: int)
    requires forall f :: f in fs ==> f in gs
    ensures HitBy(fs, x) ==> HitBy(gs, x)
  {
    if HitBy(fs, x) {
      var j :| 0 <= j < |fs| && Hits(fs[j], x);
      assert fs[j] in gs;
    }
  }

  // -- the positions determine the spans ---------------------------------------------------

  ghost predicate NonEmptySpans(spans: seq<Span>) {
    forall i :: 0 <= i < |spans| ==> spans[i].start < spans[i].end
  }

  ghost predicate SameCover(a: seq<Span>, b: seq<Span>) {
    forall x :: InSpans(a, x) <==> InSpans(b, x)
  }

  lemma HeadStart(a: seq<Span>, b: seq<Span>)
    requires Gapped(a) && Gapped(b) && NonEmptySpans(a) && NonEmptySpans(b) && SameCover(a, b) && a != []
    ensures b != [] && b[0].start <= a[0].start
  {
    assert InSpan(a[0], a[0].start);
    assert InSpans(a, a[0].start);
    assert InSpans(b, a[0].start);
    var i :| 0 <= i < |b| && InSpan(b[i], a[0].start);
    assert i > 0 ==> b[0].end < b[i].start;
  }

  lemma HeadEnd(a: seq<Span>, b: seq<Span>)
    requires Gapped(a) && Gapped(b) && NonEmptySpans(a) && NonEmptySpans(b) && SameCover(a, b)
    requires a != [] && b != [] && a[0].start == b[0].start
    ensures a[0].end <= b[0].end
  {
    forall i | 0 <= i < |b| ensures !InSpan(b[i], b[0].end) {
      assert i > 0 ==> b[0].end < b[i].start;
    }
    assert !InSpans(b, b[0].end);
    assert !InSpans(a, b[0].end);
    assert !InSpan(a[0], b[0].end);
  }

  lemma TailCover(a: seq<Span>, b: seq<Span>)
    requires Gapped(a) && Gapped(b) && SameCover(a, b)
    requires a != [] && b != [] && a[0].start == b[0].start && a[0].end == b[0].end
    ensures SameCover(a[1..], b[1..])
  {
    forall x ensures InSpans(a[1..], x) <==> InSpans(b[1..], x) {
      TailPositions(a, x);
      TailPositions(b, x);
    }
  }

  lemma TailPositions(a: seq<Span>, x: int)
    requires Gapped(a) && a != []
    ensures InSpans(a[1..], x) <==> InSpans(a, x) && x > a[0].end
  {
  }

  /** Gapped spans are determined by the positions they cover: there is only one
      way to cut the findings' positions into spans. */
  lemma {:induction false} CoverDeterminesSpans(a: seq<Span>, b: seq<Span>)
    requires Gapped(a) && Gapped(b) && NonEmptySpans(a) && NonEmptySpans(b) && SameCover(a, b)
    ensures |a| == |b|
    ensures forall i :: 0 <= i < |a| ==> a[i].start == b[i].start && a[i].end == b[i].end
    decreases |a|
  {
    if a == [] {
      if b != [] {
        HeadStart(b, a);
      }
    } else {
      HeadStart(a, b);
      HeadStart(b, a);
      HeadEnd(a, b);
      HeadEnd(b, a);
      TailCover(a, b);
      CoverDeterminesSpans(a[1..], b[1..]);
      forall i | 0 <= i < |a| ensures a[i].start == b[i].start && a[i].end == b[i].end {
        assert i > 0 ==> a[i] == a[1..][i - 1] && b[i] == b[1..][i - 1];
      }
    }
  }

  lemma MergedNonEmpty(spans: seq<Span>, fs: seq<Finding>)
    requires MergeOf(spans, fs) && forall j :: 0 <= j < |fs| ==> fs[j].start < fs[j].end
    ensures NonEmptySpans(spans)
  {
    forall i | 0 <= i < |spans| ensures spans[i].start < spans[i].end {
      assert Filled(spans[i], fs);
      var j :| 0 <= j < |fs| && fs[j].start == spans[i].start;
      forall m | 0 <= m < |spans| && m != i ensures !Inside(fs[j], spans[m]) {
        assert m < i ==> spans[m].end < spans[i].start;
        assert i < m ==> spans[i].end < spans[m].start;
      }
      assert Holds(spans, fs[j]);
      var k :| 0 <= k < |spans| && Inside(fs[j], spans[k]);
    }
  }

  /** Where text is cut depends only on the positions found: findings in another
      order, or from other rules, that cover the same positions are merged into
      the same spans. */
  lemma MergeIsCanonical(fs: seq<Finding>, gs: seq<Finding>)
    requires forall f :: f in fs ==> f.start < f.end
    requires forall g :: g in gs ==> g.start < g.end
    requires forall x :: HitBy(fs, x) <==> HitBy(gs, x)
    ensures |Merged(fs)| == |Merged(gs)|
    ensures forall i :: 0 <= i < |Merged(fs)| ==>
              Merged(fs)[i].start == Merged(gs)[i].start && Merged(fs)[i].end == Merged(gs)[i].end
  {
    MergedIs(fs);
    MergedIs(gs);
    MergedFromNonEmpty(fs);
    MergedFromNonEmpty(gs);
    CoverDeterminesSpans(Merged(fs), Merged(gs));
  }

  lemma MergedFromNonEmpty(fs: seq<Finding>)
    requires forall f :: f in fs ==> f.start < f.end
    ensures NonEmptySpans(Merged(fs))
  {
    MergedIs(fs);
    SortPermutes(fs, LeSpan);
    SameElements(Sort(fs, LeSpan), fs);
    MergedNonEmpty(Merged(fs), Sort(fs, LeSpan));
  }
}
