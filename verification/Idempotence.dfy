/** Redacting twice. The redaction promises that a second pass finds nothing and
    returns the same text; whether it does is settled here for any rules. */
module Idempotence {
  import opened Wrappers
  import opened Sorting
  import opened Detection
  import opened Redaction
  import opened Evidence

  /** What finds things in text: a rule set, or anything that reports findings
      that lie inside the text. */
  type Detector = string -> seq<Finding>

  function Detecting(rules: seq<DetectionRule>): Detector {
    (content: string) => Detected(content, rules)
  }

  ghost predicate InBounds(detect: Detector) {
    forall content: string, f: Finding :: f in detect(content) ==> FoundIn(f, content)
  }

  /** Sound rules are such a detector, and one pass with them is the redaction. */
  lemma SoundRulesDetect(rules: seq<DetectionRule>)
    requires forall i :: 0 <= i < |rules| ==> Sound(rules[i])
    ensures InBounds(Detecting(rules))
    ensures forall content: string ::
              Once(RedactionMarker, content, Detecting(rules)) == RedactedWith(content, Detected(content, rules))
    ensures forall content: string :: FullyRedacted(content, rules) <==> Detecting(rules)(content) == []
  {
    forall content: string, f: Finding | f in Detecting(rules)(content) ensures FoundIn(f, content) {
      DetectedInBounds(content, rules);
    }
  }

  function Once(mark: Marker, content: string, detect: Detector): string {
    Rendered(mark, content, detect(content))
  }

  /** The promise: the redacted text comes back unchanged, with zero findings. */
  predicate SecondPassIdle(mark: Marker, content: string, detect: Detector) {
    var once := Once(mark, content, detect);
    detect(once) == [] && Rendered(mark, once, detect(once)) == once
  }

  // -- where things stand in the redacted text ------------------------------------------

  function MarkerLength(mark: Marker, span: Span): nat {
    |mark(span.category)|
  }

  /** How far the first `n` replacements moved the text after them. */
  function Shift(mark: Marker, spans: seq<Span>, n: nat): int
    requires n <= |spans|
  {
    if n == 0 then 0
    else Shift(mark, spans, n - 1) + MarkerLength(mark, spans[n - 1]) - (spans[n - 1].end - spans[n - 1].start)
  }

  function MarkerStart(mark: Marker, spans: seq<Span>, n: nat): int
    requires n < |spans|
  {
    spans[n].start + Shift(mark, spans, n)
  }

  function MarkerEnd(mark: Marker, spans: seq<Span>, n: nat): int
    requires n < |spans|
  {
    spans[n].end + Shift(mark, spans, n + 1)
  }

  /** The end of the text kept after the first `n` spans. */
  function GapEnd(content: string, spans: seq<Span>, n: nat): nat
    requires n <= |spans|
  {
    if n < |spans| then spans[n].start else |content|
  }

  /** The spans cut the text as a merge of the findings does. */
  ghost predicate Laid(content: string, findings: seq<Finding>, spans: seq<Span>) {
    Cuts(spans, content) && Gapped(spans) && Covering(spans, findings)
  }

  /** Span `n` starts after the one before it and ends inside the text. */
  predicate Follows(spans: seq<Span>, content: string, n: nat)
    requires n <= |spans|
  {
    Cursor(spans, n) <= GapEnd(content, spans, n) <= |content| && (n < |spans| ==> spans[n].start <= spans[n].end)
  }

  predicate Orderly(spans: seq<Span>, content: string) {
    forall n :: 0 <= n <= |spans| ==> Follows(spans, content, n)
  }

  lemma LaidOrderly(content: string, findings: seq<Finding>, spans: seq<Span>)
    requires Laid(content, findings, spans)
    ensures Orderly(spans, content)
  {
    forall n: nat | n <= |spans| ensures Follows(spans, content, n) {
      assert 0 < n < |spans| ==> spans[n - 1].end < spans[n].start;
    }
  }

  lemma FoundLaid(content: string, findings: seq<Finding>)
    requires forall f :: f in findings ==> FoundIn(f, content)
    ensures Laid(content, findings, Merged(findings)) && Orderly(Merged(findings), content)
  {
    MergedCuts(findings, content);
    LaidOrderly(content, findings, Merged(findings));
  }

  function Kept(content: string, spans: seq<Span>, n: nat): string
    requires Orderly(spans, content) && n <= |spans|
  {
    assert Follows(spans, content, n);
    content[Cursor(spans, n)..GapEnd(content, spans, n)]
  }

  lemma CursorBounds(content: string, spans: seq<Span>, n: nat)
    requires Orderly(spans, content) && n <= |spans|
    ensures Cursor(spans, n) <= GapEnd(content, spans, n) <= |content|
    ensures |Kept(content, spans, n)| == GapEnd(content, spans, n) - Cursor(spans, n)
    ensures n < |spans| ==> spans[n].start <= spans[n].end
  {
    assert Follows(spans, content, n);
  }

  /** The redacted text up to and including the marker of span `n - 1`. */
  ghost function Before(mark: Marker, content: string, spans: seq<Span>, n: nat): string
    requires Orderly(spans, content) && n <= |spans|
  {
    if n == 0 then ""
    else
      CursorBounds(content, spans, n - 1);
      Before(mark, content, spans, n - 1) + Kept(content, spans, n - 1) + mark(spans[n - 1].category)
  }

  lemma BeforeStep(mark: Marker, content: string, spans: seq<Span>, n: nat)
    requires Orderly(spans, content) && n < |spans|
    ensures Before(mark, content, spans, n + 1)
         == Before(mark, content, spans, n) + Kept(content, spans, n) + mark(spans[n].category)
  {
  }

  lemma {:induction false} BeforeLength(mark: Marker, content: string, spans: seq<Span>, n: nat)
    requires Orderly(spans, content) && n <= |spans|
    ensures |Before(mark, content, spans, n)| == Cursor(spans, n) + Shift(mark, spans, n)
  {
    if n > 0 {
      BeforeLength(mark, content, spans, n - 1);
      CursorBounds(content, spans, n - 1);
    }
  }

  lemma WrittenStep(mark: Marker, content: string, findings: seq<Finding>, spans: seq<Span>, n: nat, before: string)
    requires Laid(content, findings, spans) && Orderly(spans, content) && n < |spans|
    requires before == Written(mark, content, findings, spans, n)
    ensures Cursor(spans, n) <= GapEnd(content, spans, n) <= |content|
    ensures Written(mark, content, findings, spans, n + 1)
         == before + Kept(content, spans, n) + mark(spans[n].category)
  {
    SpanStep(mark, content, findings, spans, n);
  }

  /** `w` lists what has been written before each gap. */
  predicate Grows(mark: Marker, content: string, spans: seq<Span>, w: seq<string>, k: nat)
    requires Orderly(spans, content) && k < |spans| && |w| == |spans| + 1
  {
    w[k + 1] == w[k] + Kept(content, spans, k) + mark(spans[k].category)
  }

  lemma {:induction false} GrowsToBefore(mark: Marker, content: string, spans: seq<Span>, w: seq<string>, n: nat)
    requires Orderly(spans, content) && n <= |spans| && |w| == |spans| + 1 && w[0] == ""
    requires forall k :: 0 <= k < |spans| ==> Grows(mark, content, spans, w, k)
    ensures w[n] == Before(mark, content, spans, n)
  {
    if n > 0 {
      GrowsToBefore(mark, content, spans, w, n - 1);
      assert Grows(mark, content, spans, w, n - 1);
      BeforeStep(mark, content, spans, n - 1);
    }
  }

  lemma WrittenGrows(mark: Marker, content: string, findings: seq<Finding>, spans: seq<Span>, w: seq<string>, k: nat)
    requires Laid(content, findings, spans) && Orderly(spans, content) && k < |spans| && |w| == |spans| + 1
    requires Cursor(spans, k) <= |content| && w[k] == Written(mark, content, findings, spans, k)
    requires Cursor(spans, k + 1) <= |content| && w[k + 1] == Written(mark, content, findings, spans, k + 1)
    ensures Grows(mark, content, spans, w, k)
  {
    WrittenStep(mark, content, findings, spans, k, w[k]);
  }

  lemma AllWritten(mark: Marker, content: string, findings: seq<Finding>, spans: seq<Span>) returns (w: seq<string>)
    requires Orderly(spans, content)
    ensures |w| == |spans| + 1
    ensures forall k :: 0 <= k <= |spans| ==>
              Cursor(spans, k) <= |content| && w[k] == Written(mark, content, findings, spans, k)
  {
    forall k: nat | k <= |spans| ensures Cursor(spans, k) <= |content| {
      CursorBounds(content, spans, k);
    }
    w := seq(|spans| + 1, k requires 0 <= k <= |spans| && Cursor(spans, k) <= |content| =>
             Written(mark, content, findings, spans, k));
  }

  lemma WrittenIsBefore(mark: Marker, content: string, findings: seq<Finding>, spans: seq<Span>)
    requires Laid(content, findings, spans) && Orderly(spans, content)
    ensures Cursor(spans, |spans|) <= |content|
    ensures Written(mark, content, findings, spans, |spans|) == Before(mark, content, spans, |spans|)
  {
    var w := AllWritten(mark, content, findings, spans);
    forall k: nat | k < |spans| ensures Grows(mark, content, spans, w, k) {
      WrittenGrows(mark, content, findings, spans, w, k);
    }
    GrowsToBefore(mark, content, spans, w, |spans|);
  }

  /** The redacted text up to marker `n`. */
  ghost function UpTo(mark: Marker, content: string, spans: seq<Span>, n: nat): string
    requires Orderly(spans, content) && n <= |spans|
  {
    CursorBounds(content, spans, n);
    Before(mark, content, spans, n) + Kept(content, spans, n)
  }

  lemma UpToStep(mark: Marker, content: string, spans: seq<Span>, n: nat)
    requires Orderly(spans, content) && 0 < n <= |spans|
    ensures Cursor(spans, n) <= GapEnd(content, spans, n)
    ensures UpTo(mark, content, spans, n)
         == UpTo(mark, content, spans, n - 1) + mark(spans[n - 1].category) + Kept(content, spans, n)
  {
    CursorBounds(content, spans, n);
  }

  /** The whole redacted text, as its kept stretches and markers. */
  ghost function Whole(mark: Marker, content: string, spans: seq<Span>): string
    requires Orderly(spans, content)
  {
    UpTo(mark, content, spans, |spans|)
  }

  lemma OnceIsWhole(mark: Marker, content: string, findings: seq<Finding>)
    requires Laid(content, findings, Merged(findings)) && Orderly(Merged(findings), content)
    ensures Rendered(mark, content, findings) == Whole(mark, content, Merged(findings))
  {
    var spans := Merged(findings);
    WrittenIsBefore(mark, content, findings, spans);
    CursorBounds(content, spans, |spans|);
    LastStep(mark, content, findings, spans);
    WholeRest(content, Cursor(spans, |spans|));
  }

  lemma PrefixSlice(start: string, kept: string, whole: string)
    requires start + kept <= whole
    ensures whole[|start|..|start| + |kept|] == kept
  {
    assert whole[..|start| + |kept|] == start + kept;
  }

  lemma PrefixOfThree(a: string, b: string, c: string, whole: string)
    requires a + b + c <= whole
    ensures a <= whole && a + b <= whole
  {
    assert whole[..|a|] == (a + b + c)[..|a|] == a;
    assert whole[..|a + b|] == (a + b + c)[..|a + b|] == a + b;
  }

  lemma {:induction false} GapPrefix(mark: Marker, content: string, spans: seq<Span>, n: nat)
    requires Orderly(spans, content) && n <= |spans|
    ensures UpTo(mark, content, spans, n) <= Whole(mark, content, spans)
    decreases |spans| - n
  {
    if n < |spans| {
      GapPrefix(mark, content, spans, n + 1);
      UpToStep(mark, content, spans, n + 1);
      PrefixOfThree(UpTo(mark, content, spans, n), mark(spans[n].category), Kept(content, spans, n + 1),
                    Whole(mark, content, spans));
    }
  }

  /** Markers stand where they are said to. */
  lemma MarkerRead(mark: Marker, content: string, spans: seq<Span>, n: nat)
    requires Orderly(spans, content) && n < |spans|
    ensures 0 <= MarkerStart(mark, spans, n) <= MarkerEnd(mark, spans, n) <= |Whole(mark, content, spans)|
    ensures Whole(mark, content, spans)[MarkerStart(mark, spans, n)..MarkerEnd(mark, spans, n)] == mark(spans[n].category)
  {
    GapPrefix(mark, content, spans, n + 1);
    UpToStep(mark, content, spans, n + 1);
    PrefixOfThree(UpTo(mark, content, spans, n), mark(spans[n].category), Kept(content, spans, n + 1),
                  Whole(mark, content, spans));
    PrefixSlice(UpTo(mark, content, spans, n), mark(spans[n].category), Whole(mark, content, spans));
    UpToLength(mark, content, spans, n);
  }

  lemma UpToLength(mark: Marker, content: string, spans: seq<Span>, n: nat)
    requires Orderly(spans, content) && n <= |spans|
    ensures |UpTo(mark, content, spans, n)| == GapEnd(content, spans, n) + Shift(mark, spans, n)
  {
    BeforeLength(mark, content, spans, n);
    CursorBounds(content, spans, n);
  }

  lemma WholeLength(mark: Marker, content: string, spans: seq<Span>)
    requires Orderly(spans, content)
    ensures |Whole(mark, content, spans)| == |content| + Shift(mark, spans, |spans|)
  {
    UpToLength(mark, content, spans, |spans|);
  }

  // -- matches in the redacted text ----------------------------------------------------

  predicate Touches(f: Finding, start: int, end: int) {
    f.start <= end && start <= f.end
  }

  /** No match in the redacted text touches or crosses an inserted marker. */
  ghost predicate MarkersUntouched(mark: Marker, content: string, detect: Detector) {
    var spans := Merged(detect(content));
    forall f, n {:trigger Touches(f, MarkerStart(mark, spans, n), MarkerEnd(mark, spans, n))} ::
      f in detect(Once(mark, content, detect)) && 0 <= n < |spans|
      ==> !Touches(f, MarkerStart(mark, spans, n), MarkerEnd(mark, spans, n))
  }

  /** A match lies inside the text kept after the first `n` spans. */
  predicate InGap(mark: Marker, f: Finding, spans: seq<Span>, n: nat)
    requires n <= |spans|
  {
    && (n > 0 ==> MarkerEnd(mark, spans, n - 1) < f.start)
    && (n < |spans| ==> f.end < MarkerStart(mark, spans, n))
  }

  ghost predicate TouchesSome(findings: seq<Finding>, start: int, end: int) {
    exists g :: g in findings && Touches(g, start, end)
  }

  /** No match in the redacted text lies inside kept text. */
  ghost predicate GapsUnmatched(mark: Marker, content: string, detect: Detector) {
    var spans := Merged(detect(content));
    forall f, n {:trigger InGap(mark, f, spans, n)} ::
      f in detect(Once(mark, content, detect)) && 0 <= n <= |spans| ==> !InGap(mark, f, spans, n)
  }

  /** A match that touches no marker lies inside one stretch of kept text. */
  lemma FindGap(mark: Marker, spans: seq<Span>, f: Finding) returns (n: nat)
    requires forall k :: 0 <= k < |spans| ==> !Touches(f, MarkerStart(mark, spans, k), MarkerEnd(mark, spans, k))
    ensures n <= |spans| && InGap(mark, f, spans, n)
  {
    n := 0;
    while n < |spans| && !(f.end < MarkerStart(mark, spans, n))
      invariant n <= |spans|
      invariant n > 0 ==> MarkerEnd(mark, spans, n - 1) < f.start
    {
      n := n + 1;
    }
  }

  /** The original has no finding where kept text came from. */
  lemma NothingFoundInGap(spans: seq<Span>, findings: seq<Finding>, n: nat, start: int, end: int)
    requires MergeOf(spans, Sort(findings, LeSpan)) && n <= |spans| && start <= end
    requires n > 0 ==> Cursor(spans, n) < start
    requires n < |spans| ==> end < spans[n].start
    ensures !TouchesSome(findings, start, end)
  {
    SortPermutes(findings, LeSpan);
    SameElements(Sort(findings, LeSpan), findings);
    var ordered := Sort(findings, LeSpan);
    forall g | g in findings ensures !Touches(g, start, end) {
      assert g in ordered;
      var j :| 0 <= j < |ordered| && ordered[j] == g;
      assert Holds(spans, ordered[j]);
      var i :| 0 <= i < |spans| && Inside(g, spans[i]);
      assert i < n - 1 ==> spans[i].end < spans[n - 1].start;
      assert n < i ==> spans[n].end < spans[i].start;
    }
  }

  lemma DetectedLaid(content: string, detect: Detector)
    requires InBounds(detect)
    ensures Laid(content, detect(content), Merged(detect(content))) && Orderly(Merged(detect(content)), content)
    ensures MergeOf(Merged(detect(content)), Sort(detect(content), LeSpan))
  {
    FoundLaid(content, detect(content));
    FoundWellFormed(detect(content), content);
    MergedIs(detect(content));
  }

  /** A match of the second pass touches a marker or lies inside kept text. */
  lemma IdleIffNoPlace(mark: Marker, content: string, detect: Detector)
    requires InBounds(detect)
    ensures SecondPassIdle(mark, content, detect)
       <==> MarkersUntouched(mark, content, detect) && GapsUnmatched(mark, content, detect)
  {
    var found := detect(Once(mark, content, detect));
    CleanTextUnchanged(mark, Once(mark, content, detect));
    if MarkersUntouched(mark, content, detect) && found != [] {
      assert found[0] in found;
      var n := FindGap(mark, Merged(detect(content)), found[0]);
      assert !GapsUnmatched(mark, content, detect);
    }
  }

  // -- rules that read locally -----------------------------------------------------------

  /** `b` reads at `at` what `a` reads over the match, neighbouring characters and
      text edges included. */
  predicate SameSurroundings(a: string, f: Finding, b: string, at: nat)
    requires f.start <= f.end <= |a|
  {
    var length := f.end - f.start;
    && at + length <= |b| && a[f.start..f.end] == b[at..at + length]
    && (f.start == 0 <==> at == 0) && (f.start > 0 && at > 0 ==> a[f.start - 1] == b[at - 1])
    && (f.end == |a| <==> at + length == |b|) && (f.end < |a| && at + length < |b| ==> a[f.end] == b[at + length])
  }

  /** Whether a rule fires somewhere is settled by the text it matches and the
      characters next to it, up to other matches that meet it. */
  ghost predicate ReadLocally(detect: Detector) {
    forall a: string, f: Finding, b: string, at: nat ::
      f in detect(a) && FoundIn(f, a) && SameSurroundings(a, f, b, at)
      ==> TouchesSome(detect(b), at, at + (f.end - f.start))
  }

  /** The stretch from `lo` to `hi` of `b` stands in `a`, moved by `shift`. */
  predicate Moved(a: string, b: string, lo: int, hi: int, shift: int) {
    && 0 <= lo <= hi <= |b| && 0 <= lo + shift && hi + shift <= |a|
    && a[lo + shift..hi + shift] == b[lo..hi]
  }

  lemma KeptMoved(mark: Marker, content: string, spans: seq<Span>, n: nat)
    requires Orderly(spans, content) && n <= |spans|
    ensures Moved(Whole(mark, content, spans), content, Cursor(spans, n), GapEnd(content, spans, n), Shift(mark, spans, n))
  {
    GapPrefix(mark, content, spans, n);
    BeforeLength(mark, content, spans, n);
    CursorBounds(content, spans, n);
    PrefixSlice(Before(mark, content, spans, n), Kept(content, spans, n), Whole(mark, content, spans));
  }

  lemma MovedCharacter(a: string, b: string, lo: int, hi: int, shift: int, x: int)
    requires Moved(a, b, lo, hi, shift) && lo <= x < hi
    ensures a[x + shift] == b[x]
  {
    assert a[lo + shift..hi + shift][x - lo] == b[lo..hi][x - lo];
  }

  lemma MovedSlice(a: string, b: string, lo: int, hi: int, shift: int, x: int, y: int)
    requires Moved(a, b, lo, hi, shift) && lo <= x <= y <= hi
    ensures a[x + shift..y + shift] == b[x..y]
  {
    forall k | 0 <= k < y - x ensures a[x + shift..y + shift][k] == b[x..y][k] {
      MovedCharacter(a, b, lo, hi, shift, x + k);
    }
  }

  lemma MovedSurroundings(a: string, f: Finding, b: string, lo: int, hi: int, shift: int)
    requires Moved(a, b, lo, hi, shift) && f.start <= f.end <= |a|
    requires lo + shift < f.start || (lo == shift == 0)
    requires f.end < hi + shift || (hi == |b| && |a| == |b| + shift)
    ensures f.start - shift >= 0 && SameSurroundings(a, f, b, f.start - shift)
  {
    MovedSlice(a, b, lo, hi, shift, f.start - shift, f.end - shift);
    if lo < f.start - shift {
      MovedCharacter(a, b, lo, hi, shift, f.start - shift - 1);
    }
    if f.end - shift < hi {
      MovedCharacter(a, b, lo, hi, shift, f.end - shift);
    }
  }

  lemma InGapBounds(mark: Marker, content: string, spans: seq<Span>, n: nat, f: Finding)
    requires n <= |spans| && InGap(mark, f, spans, n)
    ensures Cursor(spans, n) + Shift(mark, spans, n) < f.start || (Cursor(spans, n) == Shift(mark, spans, n) == 0)
    ensures f.end < GapEnd(content, spans, n) + Shift(mark, spans, n)
            || (GapEnd(content, spans, n) == |content| && Shift(mark, spans, n) == Shift(mark, spans, |spans|))
  {
  }

  /** Where the gap around a match stands in the original, and how far it moved. */
  lemma GapAround(mark: Marker, content: string, spans: seq<Span>, n: nat, f: Finding) returns (lo: int, hi: int, shift: int)
    requires Orderly(spans, content) && n <= |spans| && InGap(mark, f, spans, n)
    ensures shift == Shift(mark, spans, n)
    ensures Moved(Whole(mark, content, spans), content, lo, hi, shift)
    ensures lo + shift < f.start || (lo == shift == 0)
    ensures f.end < hi + shift || (hi == |content| && |Whole(mark, content, spans)| == |content| + shift)
  {
    lo, hi, shift := Cursor(spans, n), GapEnd(content, spans, n), Shift(mark, spans, n);
    KeptMoved(mark, content, spans, n);
    WholeLength(mark, content, spans);
    InGapBounds(mark, content, spans, n, f);
  }

  lemma GapSurroundings(mark: Marker, content: string, spans: seq<Span>, n: nat, f: Finding, whole: string)
    returns (shift: int)
    requires Orderly(spans, content) && whole == Whole(mark, content, spans)
    requires n <= |spans| && InGap(mark, f, spans, n) && f.start <= f.end <= |whole|
    ensures shift == Shift(mark, spans, n) && f.start - shift >= 0
    ensures SameSurroundings(whole, f, content, f.start - shift)
  {
    var lo, hi;
    lo, hi, shift := GapAround(mark, content, spans, n, f);
    MovedSurroundings(whole, f, content, lo, hi, shift);
  }

  lemma LocalAt(a: string, f: Finding, b: string, at: nat, end: int, detect: Detector)
    requires ReadLocally(detect) && f in detect(a) && FoundIn(f, a) && SameSurroundings(a, f, b, at)
    requires end == at + (f.end - f.start)
    ensures TouchesSome(detect(b), at, end)
  {
  }

  lemma LocalInGap(mark: Marker, content: string, detect: Detector, spans: seq<Span>, n: nat, f: Finding, once: string)
    requires Orderly(spans, content) && once == Whole(mark, content, spans)
    requires n <= |spans| && InGap(mark, f, spans, n)
    requires ReadLocally(detect) && f in detect(once) && FoundIn(f, once)
    ensures TouchesSome(detect(content), f.start - Shift(mark, spans, n), f.end - Shift(mark, spans, n))
  {
    var shift := GapSurroundings(mark, content, spans, n, f, once);
    LocalAt(once, f, content, f.start - shift, f.end - shift, detect);
  }

  lemma LocalRulesLeaveGaps(mark: Marker, content: string, detect: Detector)
    requires InBounds(detect) && ReadLocally(detect)
    ensures GapsUnmatched(mark, content, detect)
  {
    var once, spans := Once(mark, content, detect), Merged(detect(content));
    DetectedLaid(content, detect);
    OnceIsWhole(mark, content, detect(content));
    forall f, n | f in detect(once) && 0 <= n <= |spans| ensures !InGap(mark, f, spans, n) {
      if InGap(mark, f, spans, n) {
        assert FoundIn(f, once);
        LocalInGap(mark, content, detect, spans, n, f, once);
        InGapBounds(mark, content, spans, n, f);
        NothingFoundInGap(spans, detect(content), n, f.start - Shift(mark, spans, n), f.end - Shift(mark, spans, n));
      }
    }
  }

  /** A match `f` the rules are known to make in the text `a` reads, character for
      character, like the piece of `text` at `at`, and that piece meets a marker. */
  ghost predicate ReadsAcross(mark: Marker, spans: seq<Span>, text: string, a: string, f: Finding, at: nat, n: nat)
    requires f.start <= f.end <= |a| && n < |spans|
  {
    SameSurroundings(a, f, text, at) && at <= MarkerEnd(mark, spans, n) && MarkerStart(mark, spans, n) <= at + (f.end - f.start)
  }

  /** Nothing the rules match anywhere reads like a piece of the redacted text that
      meets an inserted marker. */
  ghost predicate MarkersReadClear(mark: Marker, content: string, detect: Detector) {
    var text, spans := Once(mark, content, detect), Merged(detect(content));
    forall a: string, f: Finding, at: nat, n: nat {:trigger ReadsAcross(mark, spans, text, a, f, at, n)} ::
      f in detect(a) && FoundIn(f, a) && n < |spans| ==> !ReadsAcross(mark, spans, text, a, f, at, n)
  }

  /** For rules that read locally the inserted markers are all that matters: the
      second pass is idle exactly when no match the rules make in any text reads
      like a piece of the redacted text that meets a marker. */
  lemma LocalRulesIdleIff(mark: Marker, content: string, detect: Detector)
    requires InBounds(detect) && ReadLocally(detect)
    ensures SecondPassIdle(mark, content, detect) <==> MarkersReadClear(mark, content, detect)
  {
    var text, spans := Once(mark, content, detect), Merged(detect(content));
    LocalRulesLeaveGaps(mark, content, detect);
    IdleIffNoPlace(mark, content, detect);
    if MarkersReadClear(mark, content, detect) {
      forall f, n | f in detect(text) && 0 <= n < |spans| ensures !Touches(f, MarkerStart(mark, spans, n), MarkerEnd(mark, spans, n)) {
        assert FoundIn(f, text);
        assert SameSurroundings(text, f, text, f.start);
        assert !ReadsAcross(mark, spans, text, text, f, f.start, n);
      }
    }
    if SecondPassIdle(mark, content, detect) {
      forall a: string, f: Finding, at: nat, n: nat | f in detect(a) && FoundIn(f, a) && n < |spans|
        ensures !ReadsAcross(mark, spans, text, a, f, at, n)
      {
        if SameSurroundings(a, f, text, at) {
          LocalAt(a, f, text, at, at + (f.end - f.start), detect);
        }
      }
    }
  }

  // -- rules whose matches cross few markers ---------------------------------------------

  /** Stretches of text with markers between them. */
  ghost function Woven(mark: Marker, gaps: seq<string>, marks: seq<Category>): string
    requires |gaps| == |marks| + 1
  {
    if marks == [] then gaps[0]
    else
      var n := |marks| - 1;
      Woven(mark, gaps[..n + 1], marks[..n]) + mark(marks[n]) + gaps[n + 1]
  }

  /** The kept stretches of the original, in order, and the markers between them. */
  ghost function Gaps(content: string, spans: seq<Span>): seq<string>
    requires Orderly(spans, content)
  {
    seq(|spans| + 1, i requires 0 <= i <= |spans| => Kept(content, spans, i))
  }

  function Marks(spans: seq<Span>): seq<Category> {
    seq(|spans|, i requires 0 <= i < |spans| => spans[i].category)
  }

  lemma WovenStep(mark: Marker, gaps: seq<string>, marks: seq<Category>, n: nat)
    requires |gaps| == |marks| + 1 && 0 < n <= |marks|
    ensures Woven(mark, gaps[..n + 1], marks[..n]) == Woven(mark, gaps[..n], marks[..n - 1]) + mark(marks[n - 1]) + gaps[n]
  {
    assert gaps[..n + 1][..n] == gaps[..n] && marks[..n][..n - 1] == marks[..n - 1];
  }

  lemma {:induction false} UpToIsWoven(mark: Marker, content: string, spans: seq<Span>, n: nat)
    requires Orderly(spans, content) && n <= |spans|
    ensures UpTo(mark, content, spans, n) == Woven(mark, Gaps(content, spans)[..n + 1], Marks(spans)[..n])
  {
    if n == 0 {
      CursorBounds(content, spans, 0);
      assert UpTo(mark, content, spans, 0) == Kept(content, spans, 0);
    } else {
      UpToIsWoven(mark, content, spans, n - 1);
      UpToStep(mark, content, spans, n);
      WovenStep(mark, Gaps(content, spans), Marks(spans), n);
    }
  }

  function FirstOf(k: nat, n: nat): nat {
    if n < k then 0 else n - k
  }

  /** The stretch after marker `n`, the `k` markers before it and what they part, or
      all there is when there are fewer, trips no rule by itself. */
  ghost predicate WindowClean(mark: Marker, detect: Detector, gaps: seq<string>, marks: seq<Category>, k: nat, n: nat)
    requires |gaps| == |marks| + 1 && n <= |marks|
  {
    detect(Woven(mark, gaps[FirstOf(k, n)..n + 1], marks[FirstOf(k, n)..n])) == []
  }

  ghost predicate WindowsClean(mark: Marker, detect: Detector, gaps: seq<string>, marks: seq<Category>, k: nat, n: nat)
    requires |gaps| == |marks| + 1 && n <= |marks|
  {
    forall j :: 0 <= j <= n && (j >= k || j == n) ==> WindowClean(mark, detect, gaps, marks, k, j)
  }

  /** What trips a rule lies before the last marker or within the last `k`. */
  ghost predicate LastReach(mark: Marker, detect: Detector, gaps: seq<string>, marks: seq<Category>, k: nat)
    requires |gaps| == |marks| + 1 && |marks| > k
  {
    var n := |marks|;
    detect(Woven(mark, gaps, marks)) == [] <==>
      detect(Woven(mark, gaps[..n], marks[..n - 1])) == [] && detect(Woven(mark, gaps[n - k..], marks[n - k..])) == []
  }

  /** No match spans more than `k` markers. */
  ghost predicate CrossAtMost(mark: Marker, detect: Detector, k: nat) {
    forall gaps: seq<string>, marks: seq<Category> ::
      |gaps| == |marks| + 1 && |marks| > k ==> LastReach(mark, detect, gaps, marks, k)
  }

  lemma WindowsStep(mark: Marker, detect: Detector, gaps: seq<string>, marks: seq<Category>, k: nat, n: nat)
    requires |gaps| == |marks| + 1 && k < n <= |marks|
    ensures WindowsClean(mark, detect, gaps, marks, k, n)
       <==> WindowsClean(mark, detect, gaps, marks, k, n - 1) && WindowClean(mark, detect, gaps, marks, k, n)
  {
  }

  lemma ReachAt(mark: Marker, detect: Detector, gaps: seq<string>, marks: seq<Category>, k: nat, n: nat)
    requires |gaps| == |marks| + 1 && k < n <= |marks| && CrossAtMost(mark, detect, k)
    ensures detect(Woven(mark, gaps[..n + 1], marks[..n])) == []
       <==> detect(Woven(mark, gaps[..n], marks[..n - 1])) == [] && WindowClean(mark, detect, gaps, marks, k, n)
  {
    assert LastReach(mark, detect, gaps[..n + 1], marks[..n], k);
    assert gaps[..n + 1][..n] == gaps[..n] && marks[..n][..n - 1] == marks[..n - 1];
    assert gaps[..n + 1][n - k..] == gaps[n - k..n + 1] && marks[..n][n - k..] == marks[n - k..n];
  }

  lemma {:induction false} WovenCleanIff(mark: Marker, detect: Detector, gaps: seq<string>, marks: seq<Category>, k: nat, n: nat)
    requires |gaps| == |marks| + 1 && n <= |marks| && CrossAtMost(mark, detect, k)
    ensures detect(Woven(mark, gaps[..n + 1], marks[..n])) == [] <==> WindowsClean(mark, detect, gaps, marks, k, n)
  {
    if n <= k {
      assert gaps[FirstOf(k, n)..n + 1] == gaps[..n + 1] && marks[FirstOf(k, n)..n] == marks[..n];
      assert WindowsClean(mark, detect, gaps, marks, k, n) <==> WindowClean(mark, detect, gaps, marks, k, n);
    } else {
      WovenCleanIff(mark, detect, gaps, marks, k, n - 1);
      ReachAt(mark, detect, gaps, marks, k, n);
      WindowsStep(mark, detect, gaps, marks, k, n);
    }
  }

  lemma WholeCleanIff(mark: Marker, content: string, spans: seq<Span>, detect: Detector, k: nat)
    requires Orderly(spans, content) && CrossAtMost(mark, detect, k)
    ensures detect(Whole(mark, content, spans)) == []
       <==> WindowsClean(mark, detect, Gaps(content, spans), Marks(spans), k, |spans|)
  {
    UpToIsWoven(mark, content, spans, |spans|);
    WovenCleanIff(mark, detect, Gaps(content, spans), Marks(spans), k, |spans|);
  }

  lemma IdleIffClean(mark: Marker, content: string, detect: Detector)
    requires InBounds(detect)
    ensures Orderly(Merged(detect(content)), content)
    ensures SecondPassIdle(mark, content, detect) <==> detect(Whole(mark, content, Merged(detect(content)))) == []
  {
    DetectedLaid(content, detect);
    OnceIsWhole(mark, content, detect(content));
    CleanTextUnchanged(mark, Once(mark, content, detect));
  }

  /** For rules whose matches span at most `k` markers the second pass is idle
      exactly when every `k` neighbouring markers, with the kept text before,
      between and after them, trip no rule by themselves. */
  lemma CrossingRulesIdleIff(mark: Marker, content: string, detect: Detector, k: nat)
    requires InBounds(detect) && CrossAtMost(mark, detect, k)
    ensures var spans := Merged(detect(content));
            && Orderly(spans, content)
            && (SecondPassIdle(mark, content, detect)
                <==> WindowsClean(mark, detect, Gaps(content, spans), Marks(spans), k, |spans|))
  {
    IdleIffClean(mark, content, detect);
    WholeCleanIff(mark, content, Merged(detect(content)), detect, k);
  }

  // -- rules that stop at markers ----------------------------------------------------------

  /** A marker divides the text: what surrounds it trips a rule exactly when one
      of its sides does. */
  ghost predicate MarkersDivide(mark: Marker, detect: Detector) {
    forall p: string, q: string, c: Category {:trigger p + mark(c) + q} ::
      detect(p + mark(c) + q) == [] <==> detect(p) == [] && detect(q) == []
  }

  ghost predicate StretchClean(content: string, spans: seq<Span>, detect: Detector, k: nat)
    requires Orderly(spans, content) && k <= |spans|
  {
    CursorBounds(content, spans, k);
    detect(Kept(content, spans, k)) == []
  }

  /** Every stretch of kept text, taken by itself, trips no rule. */
  ghost predicate StretchesClean(content: string, spans: seq<Span>, detect: Detector)
    requires Orderly(spans, content)
  {
    forall k :: 0 <= k <= |spans| ==> StretchClean(content, spans, detect, k)
  }

  lemma DividedAt(mark: Marker, p: string, c: Category, q: string, detect: Detector)
    requires MarkersDivide(mark, detect)
    ensures detect(p + mark(c) + q) == [] <==> detect(p) == [] && detect(q) == []
  {
  }

  lemma DividedRulesCrossNone(mark: Marker, detect: Detector)
    requires MarkersDivide(mark, detect)
    ensures CrossAtMost(mark, detect, 0)
  {
    forall gaps: seq<string>, marks: seq<Category> | |gaps| == |marks| + 1 && |marks| > 0
      ensures LastReach(mark, detect, gaps, marks, 0)
    {
      var n := |marks|;
      DividedAt(mark, Woven(mark, gaps[..n], marks[..n - 1]), marks[n - 1], gaps[n], detect);
    }
  }

  lemma WindowOfNone(mark: Marker, content: string, spans: seq<Span>, detect: Detector, n: nat)
    requires Orderly(spans, content) && n <= |spans|
    ensures WindowClean(mark, detect, Gaps(content, spans), Marks(spans), 0, n) <==> StretchClean(content, spans, detect, n)
  {
  }

  /** For rules that markers divide, the second pass is idle exactly when no kept
      stretch trips a rule once it stands alone. */
  lemma DividedRulesIdleIff(mark: Marker, content: string, detect: Detector)
    requires InBounds(detect) && MarkersDivide(mark, detect)
    ensures var spans := Merged(detect(content));
            Orderly(spans, content) && (SecondPassIdle(mark, content, detect) <==> StretchesClean(content, spans, detect))
  {
    var spans := Merged(detect(content));
    DividedRulesCrossNone(mark, detect);
    CrossingRulesIdleIff(mark, content, detect, 0);
    forall n: nat | n <= |spans|
      ensures WindowClean(mark, detect, Gaps(content, spans), Marks(spans), 0, n) <==> StretchClean(content, spans, detect, n)
    {
      WindowOfNone(mark, content, spans, detect, n);
    }
  }

  ghost predicate MeetsInside(findings: seq<Finding>, start: int, end: int) {
    exists g :: g in findings && g.start < end && start < g.end
  }

  /** What trips a rule alone still meets a finding with more text around it. */
  ghost predicate FiresInContext(detect: Detector) {
    forall p: string, w: string, q: string {:trigger p + w + q} ::
      detect(w) == [] || MeetsInside(detect(p + w + q), |p|, |p| + |w|)
  }

  lemma FiresAt(p: string, w: string, q: string, detect: Detector)
    requires FiresInContext(detect)
    ensures detect(w) == [] || MeetsInside(detect(p + w + q), |p|, |p| + |w|)
  {
  }

  lemma StretchIsClean(content: string, spans: seq<Span>, detect: Detector, n: nat)
    requires FiresInContext(detect) && n <= |spans|
    requires MergeOf(spans, Sort(detect(content), LeSpan)) && Orderly(spans, content)
    ensures StretchClean(content, spans, detect, n)
  {
    CursorBounds(content, spans, n);
    var x, y := Cursor(spans, n), GapEnd(content, spans, n);
    FiresAt(content[..x], Kept(content, spans, n), content[y..], detect);
    assert content == content[..x] + Kept(content, spans, n) + content[y..];
    NothingInsideGap(content, spans, detect(content), n);
  }

  /** Such rules are idempotent on every text. */
  lemma IdempotentRules(mark: Marker, content: string, detect: Detector)
    requires InBounds(detect) && MarkersDivide(mark, detect) && FiresInContext(detect)
    ensures SecondPassIdle(mark, content, detect)
  {
    var spans := Merged(detect(content));
    DividedRulesIdleIff(mark, content, detect);
    DetectedLaid(content, detect);
    forall n: nat | n <= |spans| ensures StretchClean(content, spans, detect, n) {
      StretchIsClean(content, spans, detect, n);
    }
  }

  lemma NothingInsideGap(content: string, spans: seq<Span>, findings: seq<Finding>, n: nat)
    requires MergeOf(spans, Sort(findings, LeSpan)) && n <= |spans|
    ensures !MeetsInside(findings, Cursor(spans, n), GapEnd(content, spans, n))
  {
    var ordered := Sort(findings, LeSpan);
    SortPermutes(findings, LeSpan);
    SameElements(ordered, findings);
    forall g | g in findings ensures !(g.start < GapEnd(content, spans, n) && Cursor(spans, n) < g.end) {
      assert g in ordered;
      var j :| 0 <= j < |ordered| && ordered[j] == g;
      assert Holds(spans, ordered[j]);
      var i :| 0 <= i < |spans| && Inside(g, spans[i]);
      assert i < n - 1 ==> spans[i].end < spans[n - 1].start;
      assert n < i ==> spans[n].end < spans[i].start;
    }
  }

  // -- the text alone ------------------------------------------------------------------------

  predicate ReadsAsMarker(mark: Marker, content: string, span: Span) {
    span.start <= span.end <= |content| && content[span.start..span.end] == mark(span.category)
  }

  predicate AllReadAsMarkers(mark: Marker, content: string, spans: seq<Span>) {
    forall n :: 0 <= n < |spans| ==> ReadsAsMarker(mark, content, spans[n])
  }

  predicate MarkerSized(mark: Marker, spans: seq<Span>) {
    forall n :: 0 <= n < |spans| ==> spans[n].end - spans[n].start == MarkerLength(mark, spans[n])
  }

  lemma {:induction false} NoShift(mark: Marker, spans: seq<Span>, n: nat)
    requires MarkerSized(mark, spans) && n <= |spans|
    ensures Shift(mark, spans, n) == 0
  {
    if n > 0 {
      NoShift(mark, spans, n - 1);
    }
  }

  lemma ThreeSlices(content: string, x: nat, y: nat, z: nat)
    requires x <= y <= z <= |content|
    ensures content[..z] == content[..x] + content[x..y] + content[y..z]
  {
  }

  lemma {:induction false} BeforeUnchanged(mark: Marker, content: string, spans: seq<Span>, n: nat)
    requires Orderly(spans, content) && n <= |spans| && AllReadAsMarkers(mark, content, spans)
    ensures Cursor(spans, n) <= |content| && Before(mark, content, spans, n) == content[..Cursor(spans, n)]
  {
    if n > 0 {
      BeforeUnchanged(mark, content, spans, n - 1);
      BeforeStep(mark, content, spans, n - 1);
      CursorBounds(content, spans, n - 1);
      assert ReadsAsMarker(mark, content, spans[n - 1]);
      ThreeSlices(content, Cursor(spans, n - 1), spans[n - 1].start, spans[n - 1].end);
    }
  }

  lemma MarkersLeftAlone(mark: Marker, content: string, spans: seq<Span>)
    requires Orderly(spans, content) && AllReadAsMarkers(mark, content, spans)
    ensures Whole(mark, content, spans) == content && MarkerSized(mark, spans)
  {
    BeforeUnchanged(mark, content, spans, |spans|);
    CursorBounds(content, spans, |spans|);
    assert content == content[..Cursor(spans, |spans|)] + Kept(content, spans, |spans|);
    forall n | 0 <= n < |spans| ensures spans[n].end - spans[n].start == MarkerLength(mark, spans[n]) {
      assert ReadsAsMarker(mark, content, spans[n]);
    }
  }

  lemma UnchangedReadsAsMarkers(mark: Marker, content: string, spans: seq<Span>)
    requires Orderly(spans, content) && Whole(mark, content, spans) == content && MarkerSized(mark, spans)
    ensures AllReadAsMarkers(mark, content, spans)
  {
    forall n | 0 <= n < |spans| ensures ReadsAsMarker(mark, content, spans[n]) {
      NoShift(mark, spans, n);
      NoShift(mark, spans, n + 1);
      MarkerRead(mark, content, spans, n);
    }
  }

  /** Redaction leaves a text as it is, without moving anything in it, exactly
      when everything it finds already reads as its own marker. */
  lemma UnchangedIff(mark: Marker, content: string, findings: seq<Finding>)
    requires forall f :: f in findings ==> FoundIn(f, content)
    ensures Rendered(mark, content, findings) == content && MarkerSized(mark, Merged(findings))
       <==> AllReadAsMarkers(mark, content, Merged(findings))
  {
    FoundLaid(content, findings);
    OnceIsWhole(mark, content, findings);
    if AllReadAsMarkers(mark, content, Merged(findings)) {
      MarkersLeftAlone(mark, content, Merged(findings));
    } else if Rendered(mark, content, findings) == content && MarkerSized(mark, Merged(findings)) {
      UnchangedReadsAsMarkers(mark, content, Merged(findings));
    }
  }

  lemma TwoCuts(mark: Marker, content: string, spans: seq<Span>)
    requires |spans| == 2 && Orderly(spans, content)
    ensures spans[0].start <= spans[0].end <= spans[1].start <= spans[1].end <= |content|
    ensures Whole(mark, content, spans)
         == content[..spans[0].start] + mark(spans[0].category) + content[spans[0].end..spans[1].start]
            + mark(spans[1].category) + content[spans[1].end..]
  {
    CursorBounds(content, spans, 0);
    CursorBounds(content, spans, 1);
    CursorBounds(content, spans, 2);
    assert Before(mark, content, spans, 0) + Kept(content, spans, 0) == content[..spans[0].start];
    UpToStep(mark, content, spans, 1);
    UpToStep(mark, content, spans, 2);
  }

  lemma MergedApart(f: Finding, g: Finding)
    requires f.start <= f.end < g.start <= g.end
    ensures Merged([f, g]) == [Span(f.start, f.end, f.category, Length(f)), Span(g.start, g.end, g.category, Length(g))]
  {
    assert [f, g][1..] == [g] && [g][1..] == [];
    assert Sort([g], LeSpan) == [g];
    assert Sort([f, g], LeSpan) == [f, g];
    assert [f, g][..1] == [f] && [f][..0] == [];
    assert MergeOrdered([f]) == [Span(f.start, f.end, f.category, Length(f))];
  }

  lemma ThreeTimes(m: string)
    ensures var t := m + m + m; t[..0] + m + t[0..|m|] + m + t[3 * |m|..] == t && t[|m|..3 * |m|] == m + m
  {
    var t := m + m + m;
    assert t[0..|m|] == m && t[3 * |m|..] == "" && t[..0] == "";
  }

  /** Without the sizes it is not exact: a marker inserted at one place and taken
      away at another can leave the text as it was. */
  lemma UnchangedByShift(mark: Marker)
    requires mark(Pii) != ""
    ensures var m := mark(Pii);
            var content, f, g := m + m + m, Finding(Pii, "", 0, 0, ""), Finding(Pii, "", |m|, 3 * |m|, m + m);
            && FoundIn(f, content) && FoundIn(g, content)
            && Rendered(mark, content, [f, g]) == content && !AllReadAsMarkers(mark, content, Merged([f, g]))
  {
    var m := mark(Pii);
    var content, f, g := m + m + m, Finding(Pii, "", 0, 0, ""), Finding(Pii, "", |m|, 3 * |m|, m + m);
    ThreeTimes(m);
    MergedApart(f, g);
    FoundLaid(content, [f, g]);
    OnceIsWhole(mark, content, [f, g]);
    TwoCuts(mark, content, Merged([f, g]));
    assert !ReadsAsMarker(mark, content, Merged([f, g])[0]);
  }
}
