/** Redacted text and the evidence bundle built from it. */
module Evidence {
  import opened Wrappers
  import opened Sorting
  import opened Detection
  import opened Redaction

  function CategoryValue(category: Category): string {
    match category
    case Secrets => "secrets"
    case Pii => "pii"
    case PromptInjection => "prompt_injection"
    case Clean => "clean"
  }

  function RedactionMarker(category: Category): string {
    "[REDACTED:" + CategoryValue(category) + "]"
  }

  /** What stands in for a span; the results about cutting do not depend on it. */
  type Marker = Category -> string

  datatype RedactionResult = RedactionResult(redacted: string, findings: seq<Finding>, counts: map<Category, nat>)

  // -- the text, position by position -----------------------------------------------

  /** Spans that lie inside `content`. */
  predicate Cuts(spans: seq<Span>, content: string) {
    forall i :: 0 <= i < |spans| ==> spans[i].start <= spans[i].end <= |content|
  }

  /** What replaces the spans that end at position `x`. */
  function MarksAt(mark: Marker, spans: seq<Span>, x: nat): string {
    if spans == [] then ""
    else MarksAt(mark, spans[..|spans| - 1], x) + (if Last(spans).end == x then mark(Last(spans).category) else "")
  }

  /** A character is copied unless a finding covers it. */
  function CopyAt(content: string, findings: seq<Finding>, x: nat): string
    requires x < |content|
  {
    if HitBy(findings, x) then "" else [content[x]]
  }

  /** The redaction of the first `x` characters, up to but not including a marker
      that falls at `x`. */
  function Plain(mark: Marker, content: string, findings: seq<Finding>, spans: seq<Span>, x: nat): string
    requires x <= |content|
  {
    if x == 0 then ""
    else Plain(mark, content, findings, spans, x - 1) + MarksAt(mark, spans, x - 1) + CopyAt(content, findings, x - 1)
  }

  /** The whole text with its spans replaced. */
  function Rendered(mark: Marker, content: string, findings: seq<Finding>): string {
    Plain(mark, content, findings, Merged(findings), |content|) + MarksAt(mark, Merged(findings), |content|)
  }

  function RedactedWith(content: string, findings: seq<Finding>): string {
    Rendered(RedactionMarker, content, findings)
  }

  /** The characters no finding covers, in order. */
  function Uncovered(content: string, findings: seq<Finding>, x: nat): string
    requires x <= |content|
  {
    if x == 0 then "" else Uncovered(content, findings, x - 1) + CopyAt(content, findings, x - 1)
  }

  function SpanCount(spans: seq<Span>, category: Category): nat {
    if spans == [] then 0
    else SpanCount(spans[..|spans| - 1], category) + (if Last(spans).category == category then 1 else 0)
  }

  /** A key is present exactly when its count is positive. */
  predicate Tallied(counts: map<Category, nat>, c: Category, n: nat) {
    if c in counts then counts[c] == n > 0 else n == 0
  }

  function CountIn(counts: map<Category, nat>, c: Category): nat {
    if c in counts then counts[c] else 0
  }

  predicate CountsOf(counts: map<Category, nat>, spans: seq<Span>) {
    forall c: Category :: Tallied(counts, c, SpanCount(spans, c))
  }

  lemma CountsStep(counts: map<Category, nat>, spans: seq<Span>, span: Span)
    requires CountsOf(counts, spans)
    ensures CountsOf(counts[span.category := CountIn(counts, span.category) + 1], spans + [span])
  {
  }

  /** What the spans are cut for, one by one. */
  function Categories(spans: seq<Span>): seq<Category> {
    seq(|spans|, i requires 0 <= i < |spans| => spans[i].category)
  }

  /** The counts are those of a collection, with no key for what is not in it. */
  predicate CountUp(counts: map<Category, nat>, removed: multiset<Category>) {
    forall c: Category :: (c in counts <==> c in removed) && (c in counts ==> counts[c] == removed[c])
  }

  lemma {:induction false} SpanCountIs(spans: seq<Span>, c: Category)
    ensures SpanCount(spans, c) == multiset(Categories(spans))[c]
  {
    if spans != [] {
      SpanCountIs(spans[..|spans| - 1], c);
      assert Categories(spans) == Categories(spans[..|spans| - 1]) + [Last(spans).category];
    }
  }

  lemma CountsAre(counts: map<Category, nat>, spans: seq<Span>)
    requires CountsOf(counts, spans)
    ensures CountUp(counts, multiset(Categories(spans)))
  {
    forall c: Category ensures SpanCount(spans, c) == multiset(Categories(spans))[c] {
      SpanCountIs(spans, c);
    }
    forall c: Category ensures (c in counts <==> c in multiset(Categories(spans))) && (c in counts ==> counts[c] == multiset(Categories(spans))[c]) {
      assert Tallied(counts, c, SpanCount(spans, c));
    }
  }

  method RedactText(content: string, rules: seq<DetectionRule>) returns (result: RedactionResult)
    requires forall i :: 0 <= i < |rules| ==> Sound(rules[i])
    ensures result.findings == Detected(content, rules)
    ensures result.redacted == RedactedWith(content, result.findings)
    ensures CountsOf(result.counts, Merged(result.findings))
    ensures CountUp(result.counts, multiset(Categories(Merged(result.findings))))
  {
    var findings := Detect(content, rules);
    var spans := MergeOverlapping(findings);
    DetectedInBounds(content, rules);
    MergedCuts(findings, content);
    var redacted, counts := ReplaceSpans(RedactionMarker, content, findings, spans);
    CountsAre(counts, spans);
    return RedactionResult(redacted, findings, counts);
  }

  /** Where the text before span `n` begins. */
  function Cursor(spans: seq<Span>, n: nat): nat
    requires n <= |spans|
  {
    if n == 0 then 0 else spans[n - 1].end
  }

  /** What has been written when the cursor is after span `n`. */
  function Written(mark: Marker, content: string, findings: seq<Finding>, spans: seq<Span>, n: nat): string
    requires n <= |spans| && Cursor(spans, n) <= |content|
  {
    if n == 0 then ""
    else Plain(mark, content, findings, spans, spans[n - 1].end) + mark(spans[n - 1].category)
  }

  /** The loop over the spans; `findings` are what they were merged from. */
  method ReplaceSpans(mark: Marker, content: string, ghost findings: seq<Finding>, spans: seq<Span>)
    returns (redacted: string, counts: map<Category, nat>)
    requires Cuts(spans, content) && Gapped(spans) && Covering(spans, findings)
    ensures redacted == Plain(mark, content, findings, spans, |content|) + MarksAt(mark, spans, |content|)
    ensures CountsOf(counts, spans)
  {
    var parts: seq<string> := [];
    var cursor := 0;
    counts := map[];
    for i := 0 to |spans|
      invariant cursor == Cursor(spans, i) <= |content|
      invariant Join(parts) == Written(mark, content, findings, spans, i)
      invariant CountsOf(counts, spans[..i])
    {
      var span := spans[i];
      SpanStep(mark, content, findings, spans, i);
      JoinTwo(parts, content[cursor..span.start], mark(span.category));
      parts := parts + [content[cursor..span.start]];
      parts := parts + [mark(span.category)];
      CountsStep(counts, spans[..i], span);
      TakeSnoc(spans, i);
      counts := counts[span.category := CountIn(counts, span.category) + 1];
      cursor := span.end;
    }
    assert spans[..|spans|] == spans;
    LastStep(mark, content, findings, spans);
    JoinOne(parts, content[cursor..]);
    parts := parts + [content[cursor..]];
    redacted := Join(parts);
  }

  lemma TakeSnoc<T>(xs: seq<T>, i: nat)
    requires i < |xs|
    ensures xs[..i + 1] == xs[..i] + [xs[i]]
  {
  }

  function Join(parts: seq<string>): string {
    if parts == [] then "" else Join(parts[..|parts| - 1]) + Last(parts)
  }

  lemma JoinOne(parts: seq<string>, part: string)
    ensures Join(parts + [part]) == Join(parts) + part
  {
  }

  lemma JoinTwo(parts: seq<string>, gap: string, marker: string)
    ensures Join(parts + [gap] + [marker]) == Join(parts) + gap + marker
  {
  }

  lemma FoundWellFormed(findings: seq<Finding>, content: string)
    requires forall f :: f in findings ==> FoundIn(f, content)
    ensures Redaction.WellFormed(findings)
  {
    forall j | 0 <= j < |findings| ensures findings[j].start <= findings[j].end {
      assert FoundIn(findings[j], content);
    }
  }

  lemma MergedCuts(findings: seq<Finding>, content: string)
    requires forall f :: f in findings ==> FoundIn(f, content)
    ensures Cuts(Merged(findings), content) && Gapped(Merged(findings)) && Covering(Merged(findings), findings)
  {
    FoundWellFormed(findings, content);
    MergedIs(findings);
    SortPermutes(findings, LeSpan);
    SameElements(Sort(findings, LeSpan), findings);
    var spans, ordered := Merged(findings), Sort(findings, LeSpan);
    forall i | 0 <= i < |spans| ensures spans[i].start <= spans[i].end <= |content| {
      MergedEnd(spans, ordered, i, |content|);
    }
  }

  lemma MergedEnd(spans: seq<Span>, fs: seq<Finding>, i: nat, bound: nat)
    requires MergeOf(spans, fs) && i < |spans| && forall f :: f in fs ==> f.end <= bound && f.start <= f.end
    ensures spans[i].end <= bound
  {
    assert Filled(spans[i], fs);
    if spans[i].start < spans[i].end {
      assert InSpan(spans[i], spans[i].end - 1);
      var j :| 0 <= j < |fs| && Hits(fs[j], spans[i].end - 1);
      assert fs[j] in fs;
    } else {
      var j :| 0 <= j < |fs| && fs[j].start == spans[i].start;
      assert fs[j] in fs;
    }
  }

  // -- the pieces the loop writes --------------------------------------------------

  lemma {:induction false} NoMarks(mark: Marker, spans: seq<Span>, x: nat)
    requires forall i :: 0 <= i < |spans| ==> spans[i].end != x
    ensures MarksAt(mark, spans, x) == ""
  {
    if spans != [] {
      NoMarks(mark, spans[..|spans| - 1], x);
    }
  }

  lemma {:induction false} OwnMark(mark: Marker, spans: seq<Span>, i: nat)
    requires Gapped(spans) && i < |spans|
    ensures MarksAt(mark, spans, spans[i].end) == mark(spans[i].category)
  {
    var init := spans[..|spans| - 1];
    if i < |spans| - 1 {
      OwnMark(mark, init, i);
      assert spans[i].end < spans[|spans| - 1].start;
    } else {
      NoMarks(mark, init, spans[i].end);
    }
  }

  lemma PlainStep(mark: Marker, content: string, findings: seq<Finding>, spans: seq<Span>, x: nat)
    requires x < |content| && !HitBy(findings, x)
    ensures Plain(mark, content, findings, spans, x + 1)
         == Plain(mark, content, findings, spans, x) + MarksAt(mark, spans, x) + [content[x]]
  {
  }

  lemma NothingBetween(a: string, b: string, c: string)
    requires b == ""
    ensures a + b + c == a + c
  {
  }

  lemma SliceSnoc(start: string, content: string, x: nat, y: nat)
    requires x <= y < |content|
    ensures start + content[x..y] + [content[y]] == start + content[x..y + 1]
  {
  }

  lemma PlainCopyNext(mark: Marker, content: string, findings: seq<Finding>, spans: seq<Span>, x: nat, y: nat, start: string)
    requires x <= y < |content| && !HitBy(findings, y) && MarksAt(mark, spans, y) == ""
    requires Plain(mark, content, findings, spans, y) == start + content[x..y]
    ensures Plain(mark, content, findings, spans, y + 1) == start + content[x..y + 1]
  {
    PlainStep(mark, content, findings, spans, y);
    NothingBetween(Plain(mark, content, findings, spans, y), MarksAt(mark, spans, y), [content[y]]);
    SliceSnoc(start, content, x, y);
  }

  lemma PlainCopyFirst(mark: Marker, content: string, findings: seq<Finding>, spans: seq<Span>, x: nat, start: string)
    requires x < |content| && !HitBy(findings, x)
    requires start == Plain(mark, content, findings, spans, x) + MarksAt(mark, spans, x)
    ensures Plain(mark, content, findings, spans, x + 1) == start + content[x..x + 1]
  {
    PlainStep(mark, content, findings, spans, x);
    assert content[x..x + 1] == [content[x]];
  }

  predicate Copied(mark: Marker, content: string, findings: seq<Finding>, spans: seq<Span>, x: nat, y: nat, start: string)
    requires x <= y <= |content|
  {
    Plain(mark, content, findings, spans, y) == start + content[x..y]
  }

  predicate Passed(mark: Marker, findings: seq<Finding>, spans: seq<Span>, k: nat) {
    !HitBy(findings, k) && MarksAt(mark, spans, k) == ""
  }

  lemma PlainCopyRest(mark: Marker, content: string, findings: seq<Finding>, spans: seq<Span>, x: nat, m: nat, y: nat, start: string)
    requires x <= m <= y <= |content| && Copied(mark, content, findings, spans, x, m, start)
    requires forall k :: m <= k < y ==> Passed(mark, findings, spans, k)
    ensures Copied(mark, content, findings, spans, x, y, start)
  {
    for z := m to y
      invariant Copied(mark, content, findings, spans, x, z, start)
    {
      assert Passed(mark, findings, spans, z);
      PlainCopyNext(mark, content, findings, spans, x, z, start);
    }
  }

  /** Positions from `x` to before `y` are not covered and end no span past `x`. */
  lemma PlainCopy(mark: Marker, content: string, findings: seq<Finding>, spans: seq<Span>, x: nat, y: nat, start: string)
    requires x < y <= |content| && !HitBy(findings, x)
    requires forall k :: x < k < y ==> Passed(mark, findings, spans, k)
    requires start == Plain(mark, content, findings, spans, x) + MarksAt(mark, spans, x)
    ensures Copied(mark, content, findings, spans, x, y, start)
  {
    PlainCopyFirst(mark, content, findings, spans, x, start);
    PlainCopyRest(mark, content, findings, spans, x, x + 1, y, start);
  }

  /** Positions between `x` and `y` are covered and no span ends before `y`. */
  lemma {:induction false} PlainSkip(mark: Marker, content: string, findings: seq<Finding>, spans: seq<Span>, x: nat, y: nat)
    requires x <= y <= |content|
    requires forall k :: x <= k < y ==> HitBy(findings, k) && MarksAt(mark, spans, k) == ""
    ensures Plain(mark, content, findings, spans, y) == Plain(mark, content, findings, spans, x)
    decreases y - x
  {
    if x < y {
      PlainSkip(mark, content, findings, spans, x, y - 1);
      assert MarksAt(mark, spans, y - 1) == "";
    }
  }

  lemma Between(mark: Marker, spans: seq<Span>, findings: seq<Finding>, n: nat, k: nat)
    requires Gapped(spans) && n <= |spans| && Covering(spans, findings)
    requires Cursor(spans, n) <= k && (n < |spans| ==> k < spans[n].start)
    ensures !HitBy(findings, k)
    ensures Cursor(spans, n) < k || n == 0 ==> MarksAt(mark, spans, k) == ""
  {
    forall i | 0 <= i < |spans| ensures !InSpan(spans[i], k) && (Cursor(spans, n) < k || n == 0 ==> spans[i].end != k) {
      assert i < n - 1 ==> spans[i].end < spans[n - 1].start;
      assert n < i ==> spans[n].end < spans[i].start;
    }
    assert !InSpans(spans, k);
    if Cursor(spans, n) < k || n == 0 {
      NoMarks(mark, spans, k);
    }
  }

  lemma Within(mark: Marker, spans: seq<Span>, findings: seq<Finding>, n: nat, k: nat)
    requires Gapped(spans) && n < |spans| && Covering(spans, findings) && InSpan(spans[n], k)
    ensures HitBy(findings, k) && MarksAt(mark, spans, k) == ""
  {
    assert InSpans(spans, k);
    forall i | 0 <= i < |spans| ensures spans[i].end != k {
      assert i < n ==> spans[i].end < spans[n].start;
      assert n < i ==> spans[n].end < spans[i].start;
    }
    NoMarks(mark, spans, k);
  }

  lemma WrittenIs(mark: Marker, content: string, findings: seq<Finding>, spans: seq<Span>, n: nat)
    requires Gapped(spans) && n <= |spans| && Cursor(spans, n) <= |content|
    requires n == 0 ==> MarksAt(mark, spans, 0) == ""
    ensures Written(mark, content, findings, spans, n)
         == Plain(mark, content, findings, spans, Cursor(spans, n)) + MarksAt(mark, spans, Cursor(spans, n))
  {
    if n > 0 {
      OwnMark(mark, spans, n - 1);
    }
  }

  /** The text before span `n` is copied up to position `stop`. */
  lemma CopyUpTo(mark: Marker, content: string, findings: seq<Finding>, spans: seq<Span>, n: nat, stop: nat)
    requires Gapped(spans) && Covering(spans, findings) && n <= |spans|
    requires Cursor(spans, n) <= stop <= |content| && (n < |spans| ==> stop == spans[n].start)
    requires n > 0 && n == |spans| ==> Cursor(spans, n) < stop
    ensures Plain(mark, content, findings, spans, stop) == Written(mark, content, findings, spans, n) + content[Cursor(spans, n)..stop]
  {
    var x := Cursor(spans, n);
    assert 0 < n < |spans| ==> spans[n - 1].end < spans[n].start;
    if x == stop {
      assert n == 0 && content[x..stop] == "";
    } else {
      Between(mark, spans, findings, n, x);
      forall k | x < k < stop ensures Passed(mark, findings, spans, k) {
        Between(mark, spans, findings, n, k);
      }
      WrittenIs(mark, content, findings, spans, n);
      PlainCopy(mark, content, findings, spans, x, stop, Written(mark, content, findings, spans, n));
    }
  }

  lemma SpanStep(mark: Marker, content: string, findings: seq<Finding>, spans: seq<Span>, n: nat)
    requires Cuts(spans, content) && Gapped(spans) && Covering(spans, findings) && n < |spans|
    ensures Cursor(spans, n) <= spans[n].start <= spans[n].end <= |content|
    ensures Written(mark, content, findings, spans, n + 1)
         == Written(mark, content, findings, spans, n) + content[Cursor(spans, n)..spans[n].start] + mark(spans[n].category)
  {
    assert n > 0 ==> spans[n - 1].end < spans[n].start;
    CopyUpTo(mark, content, findings, spans, n, spans[n].start);
    forall k | spans[n].start <= k < spans[n].end ensures HitBy(findings, k) && MarksAt(mark, spans, k) == "" {
      Within(mark, spans, findings, n, k);
    }
    PlainSkip(mark, content, findings, spans, spans[n].start, spans[n].end);
  }

  lemma LastStep(mark: Marker, content: string, findings: seq<Finding>, spans: seq<Span>)
    requires Cuts(spans, content) && Gapped(spans) && Covering(spans, findings)
    ensures Cursor(spans, |spans|) <= |content|
    ensures Plain(mark, content, findings, spans, |content|) + MarksAt(mark, spans, |content|)
         == Written(mark, content, findings, spans, |spans|) + content[Cursor(spans, |spans|)..]
  {
    var x := Cursor(spans, |spans|);
    if spans != [] && x == |content| {
      OwnMark(mark, spans, |spans| - 1);
      assert content[x..] == "";
    } else {
      CopyUpTo(mark, content, findings, spans, |spans|, |content|);
      NoMarksAfter(mark, spans, |content|);
      WholeRest(content, x);
    }
  }

  lemma NoMarksAfter(mark: Marker, spans: seq<Span>, x: nat)
    requires Gapped(spans) && (spans != [] ==> Last(spans).end < x)
    ensures MarksAt(mark, spans, x) == ""
  {
  }

  lemma WholeRest(content: string, x: nat)
    requires x <= |content|
    ensures content[x..] == content[x..|content|]
  {
  }

  // -- what redaction keeps, and what it costs ------------------------------------------

  function MarkersBefore(mark: Marker, spans: seq<Span>, x: nat): nat {
    if spans == [] then 0
    else MarkersBefore(mark, spans[..|spans| - 1], x) + (if Last(spans).end < x then |mark(Last(spans).category)| else 0)
  }

  function MarkerLengths(mark: Marker, spans: seq<Span>): nat {
    if spans == [] then 0
    else MarkerLengths(mark, spans[..|spans| - 1]) + |mark(Last(spans).category)|
  }

  lemma {:induction false} MarkersStep(mark: Marker, spans: seq<Span>, x: nat)
    ensures MarkersBefore(mark, spans, x + 1) == MarkersBefore(mark, spans, x) + |MarksAt(mark, spans, x)|
  {
    if spans != [] {
      MarkersStep(mark, spans[..|spans| - 1], x);
    }
  }

  lemma {:induction false} NoMarkersYet(mark: Marker, spans: seq<Span>)
    ensures MarkersBefore(mark, spans, 0) == 0
  {
    if spans != [] {
      NoMarkersYet(mark, spans[..|spans| - 1]);
    }
  }

  lemma {:induction false} AllMarkers(mark: Marker, spans: seq<Span>, x: nat)
    requires forall i :: 0 <= i < |spans| ==> spans[i].end <= x
    ensures MarkersBefore(mark, spans, x + 1) == MarkerLengths(mark, spans)
  {
    if spans != [] {
      AllMarkers(mark, spans[..|spans| - 1], x);
    }
  }

  lemma PlainGrows(mark: Marker, content: string, findings: seq<Finding>, spans: seq<Span>, x: nat)
    requires x < |content|
    ensures |Plain(mark, content, findings, spans, x + 1)|
         == |Plain(mark, content, findings, spans, x)| + |MarksAt(mark, spans, x)| + |CopyAt(content, findings, x)|
    ensures |Uncovered(content, findings, x + 1)| == |Uncovered(content, findings, x)| + |CopyAt(content, findings, x)|
  {
  }

  lemma PlainLength(mark: Marker, content: string, findings: seq<Finding>, spans: seq<Span>, x: nat)
    requires x <= |content|
    ensures |Plain(mark, content, findings, spans, x)| == |Uncovered(content, findings, x)| + MarkersBefore(mark, spans, x)
  {
    NoMarkersYet(mark, spans);
    for y := 0 to x
      invariant |Plain(mark, content, findings, spans, y)| == |Uncovered(content, findings, y)| + MarkersBefore(mark, spans, y)
    {
      PlainGrows(mark, content, findings, spans, y);
      MarkersStep(mark, spans, y);
    }
  }

  function CoveredCount(findings: seq<Finding>, x: nat): nat {
    if x == 0 then 0 else CoveredCount(findings, x - 1) + (if HitBy(findings, x - 1) then 1 else 0)
  }

  lemma {:induction false} UncoveredLength(content: string, findings: seq<Finding>, x: nat)
    requires x <= |content|
    ensures |Uncovered(content, findings, x)| == x - CoveredCount(findings, x)
  {
    if x > 0 {
      UncoveredLength(content, findings, x - 1);
    }
  }

  /** The output is as long as the input less the covered positions plus one
      marker for each span. */
  lemma RenderedLength(mark: Marker, content: string, findings: seq<Finding>)
    requires forall f :: f in findings ==> FoundIn(f, content)
    ensures |Rendered(mark, content, findings)|
         == |content| - CoveredCount(findings, |content|) + MarkerLengths(mark, Merged(findings))
  {
    var spans := Merged(findings);
    MergedCuts(findings, content);
    PlainLength(mark, content, findings, spans, |content|);
    UncoveredLength(content, findings, |content|);
    MarkersStep(mark, spans, |content|);
    AllMarkers(mark, spans, |content|);
  }

  predicate Silent(mark: Marker) {
    forall c: Category :: mark(c) == ""
  }

  lemma {:induction false} SilentMarks(mark: Marker, spans: seq<Span>, x: nat)
    requires Silent(mark)
    ensures MarksAt(mark, spans, x) == ""
  {
    if spans != [] {
      SilentMarks(mark, spans[..|spans| - 1], x);
    }
  }

  lemma {:induction false} PlainSilent(mark: Marker, content: string, findings: seq<Finding>, spans: seq<Span>, x: nat)
    requires x <= |content| && Silent(mark)
    ensures Plain(mark, content, findings, spans, x) == Uncovered(content, findings, x)
  {
    if x > 0 {
      PlainSilent(mark, content, findings, spans, x - 1);
      SilentMarks(mark, spans, x - 1);
      NothingBetween(Plain(mark, content, findings, spans, x - 1), MarksAt(mark, spans, x - 1), CopyAt(content, findings, x - 1));
    }
  }

  /** Every character outside the findings survives in its order and nothing
      else does: with markers that write nothing, the output is exactly the
      uncovered characters. */
  lemma RedactionKeepsUncovered(mark: Marker, content: string, findings: seq<Finding>)
    requires Silent(mark)
    ensures Rendered(mark, content, findings) == Uncovered(content, findings, |content|)
  {
    PlainSilent(mark, content, findings, Merged(findings), |content|);
    SilentMarks(mark, Merged(findings), |content|);
  }

  lemma {:induction false} PlainClean(mark: Marker, content: string, x: nat)
    requires x <= |content|
    ensures Plain(mark, content, [], [], x) == content[..x]
  {
    if x > 0 {
      PlainClean(mark, content, x - 1);
      assert content[..x] == content[..x - 1] + [content[x - 1]];
    }
  }

  /** Text with nothing to find passes through unchanged. */
  lemma CleanTextUnchanged(mark: Marker, content: string)
    ensures Merged([]) == [] && Rendered(mark, content, []) == content
  {
    assert Sort<Finding>([], LeSpan) == [];
    PlainClean(mark, content, |content|);
    assert content[..|content|] == content;
  }

  // -- the hand-off check ---------------------------------------------------------------------

  predicate FullyRedacted(content: string, rules: seq<DetectionRule>) {
    Detected(content, rules) == []
  }

  // -- bundles -----------------------------------------------------------------------------------

  datatype RawEvidence = RawEvidence(traceId: string, content: string)

  datatype EvidenceItem = EvidenceItem(traceId: string, redactedContent: string)

  datatype RedactedEvidenceBundle = RedactedEvidenceBundle(schemaVersion: int, campaignId: string, profile: string,
                                                          items: seq<EvidenceItem>, redactionCounts: map<Category, nat>)

  const BUNDLE_SCHEMA_VERSION := 1

  predicate RedactionOf(item: EvidenceItem, raw: RawEvidence, rules: seq<DetectionRule>) {
    var findings := Detected(raw.content, rules);
    && item.traceId == raw.traceId
    && item.redactedContent == RedactedWith(raw.content, findings)
  }

  predicate RedactionsOf(items: seq<EvidenceItem>, raws: seq<RawEvidence>, rules: seq<DetectionRule>) {
    |items| == |raws| && forall i :: 0 <= i < |raws| ==> RedactionOf(items[i], raws[i], rules)
  }

  lemma RedactionsAre(items: seq<EvidenceItem>, raws: seq<RawEvidence>, rules: seq<DetectionRule>)
    requires RedactionsOf(items, raws, rules)
    ensures forall i :: 0 <= i < |raws| ==>
              items[i] == EvidenceItem(raws[i].traceId, RedactedWith(raws[i].content, Detected(raws[i].content, rules)))
  {
    forall i | 0 <= i < |raws|
      ensures items[i] == EvidenceItem(raws[i].traceId, RedactedWith(raws[i].content, Detected(raws[i].content, rules)))
    {
      assert RedactionOf(items[i], raws[i], rules);
    }
  }

  /** All spans of category `c` over the raw items. */
  function TotalSpans(raws: seq<RawEvidence>, rules: seq<DetectionRule>, c: Category): nat {
    if raws == [] then 0
    else TotalSpans(raws[..|raws| - 1], rules, c) + SpanCount(Merged(Detected(Last(raws).content, rules)), c)
  }

  predicate BundleCounts(counts: map<Category, nat>, raws: seq<RawEvidence>, rules: seq<DetectionRule>) {
    forall c: Category :: Tallied(counts, c, TotalSpans(raws, rules, c))
  }

  /** What all the spans of the raw items are cut for. */
  function AllCategories(raws: seq<RawEvidence>, rules: seq<DetectionRule>): seq<Category> {
    if raws == [] then []
    else AllCategories(raws[..|raws| - 1], rules) + Categories(Merged(Detected(Last(raws).content, rules)))
  }

  lemma {:induction false} TotalSpansIs(raws: seq<RawEvidence>, rules: seq<DetectionRule>, c: Category)
    ensures TotalSpans(raws, rules, c) == multiset(AllCategories(raws, rules))[c]
  {
    if raws != [] {
      TotalSpansIs(raws[..|raws| - 1], rules, c);
      SpanCountIs(Merged(Detected(Last(raws).content, rules)), c);
    }
  }

  lemma BundleCountsAre(counts: map<Category, nat>, raws: seq<RawEvidence>, rules: seq<DetectionRule>)
    requires BundleCounts(counts, raws, rules)
    ensures CountUp(counts, multiset(AllCategories(raws, rules)))
  {
    var removed := multiset(AllCategories(raws, rules));
    forall c: Category ensures (c in counts <==> c in removed) && (c in counts ==> counts[c] == removed[c]) {
      TotalSpansIs(raws, rules, c);
      assert Tallied(counts, c, TotalSpans(raws, rules, c));
    }
  }

  lemma BundleCountsStep(counts: map<Category, nat>, added: map<Category, nat>, sum: map<Category, nat>,
                         raws: seq<RawEvidence>, raw: RawEvidence, rules: seq<DetectionRule>)
    requires BundleCounts(counts, raws, rules) && CountsOf(added, Merged(Detected(raw.content, rules)))
    requires forall c: Category :: SumAt(sum, counts, added, c)
    ensures BundleCounts(sum, raws + [raw], rules)
  {
    assert (raws + [raw])[..|raws|] == raws;
    forall c: Category ensures Tallied(sum, c, TotalSpans(raws + [raw], rules, c)) {
      assert Tallied(counts, c, TotalSpans(raws, rules, c)) && SumAt(sum, counts, added, c);
      assert Tallied(added, c, SpanCount(Merged(Detected(raw.content, rules)), c));
    }
  }

  /** Adds one result's counts into the bundle's, key by key in any order. */
  method AddCounts(counts: map<Category, nat>, added: map<Category, nat>) returns (sum: map<Category, nat>)
    ensures forall c: Category :: SumAt(sum, counts, added, c)
  {
    sum := counts;
    var left := added.Keys;
    while left != {}
      invariant left <= added.Keys
      invariant forall c: Category :: if c in left then Same(sum, counts, c) else SumAt(sum, counts, added, c)
      decreases |left|
    {
      var c :| c in left;
      sum := sum[c := CountIn(sum, c) + added[c]];
      left := left - {c};
    }
  }

  predicate Same(a: map<Category, nat>, b: map<Category, nat>, c: Category) {
    (c in a <==> c in b) && CountIn(a, c) == CountIn(b, c)
  }

  predicate SumAt(sum: map<Category, nat>, counts: map<Category, nat>, added: map<Category, nat>, c: Category) {
    (c in sum <==> c in counts || c in added) && CountIn(sum, c) == CountIn(counts, c) + CountIn(added, c)
  }

  /** Every item of a bundle is the redaction of the raw item at its place, and
      the bundle counts every removed span under its category. */
  method BuildRedactedEvidenceBundle(campaignId: string, raws: seq<RawEvidence>, rules: seq<DetectionRule>, profile: string)
    returns (bundle: RedactedEvidenceBundle)
    requires forall i :: 0 <= i < |rules| ==> Sound(rules[i])
    ensures bundle.schemaVersion == BUNDLE_SCHEMA_VERSION && bundle.campaignId == campaignId && bundle.profile == profile
    ensures |bundle.items| == |raws|
    ensures forall i :: 0 <= i < |raws| ==>
              bundle.items[i] == EvidenceItem(raws[i].traceId, RedactedWith(raws[i].content, Detected(raws[i].content, rules)))
    ensures CountUp(bundle.redactionCounts, multiset(AllCategories(raws, rules)))
  {
    var items: seq<EvidenceItem> := [];
    var counts: map<Category, nat> := map[];
    for i := 0 to |raws|
      invariant RedactionsOf(items, raws[..i], rules)
      invariant BundleCounts(counts, raws[..i], rules)
    {
      var result := RedactText(raws[i].content, rules);
      items := items + [EvidenceItem(raws[i].traceId, result.redacted)];
      var sum := AddCounts(counts, result.counts);
      BundleCountsStep(counts, result.counts, sum, raws[..i], raws[i], rules);
      TakeSnoc(raws, i);
      counts := sum;
    }
    assert raws[..|raws|] == raws;
    BundleCountsAre(counts, raws, rules);
    RedactionsAre(items, raws, rules);
    return RedactedEvidenceBundle(BUNDLE_SCHEMA_VERSION, campaignId, profile, items, counts);
  }

  /** The check made before a bundle is handed on. */
  method AssertBundleFullyRedacted(bundle: RedactedEvidenceBundle, rules: seq<DetectionRule>) returns (refused: Option<string>)
    ensures refused.None? <==> forall i :: 0 <= i < |bundle.items| ==> FullyRedacted(bundle.items[i].redactedContent, rules)
    ensures refused.Some? ==> exists i :: 0 <= i < |bundle.items| && bundle.items[i].traceId == refused.value
                                          && !FullyRedacted(bundle.items[i].redactedContent, rules)
  {
    for i := 0 to |bundle.items|
      invariant forall k :: 0 <= k < i ==> FullyRedacted(bundle.items[k].redactedContent, rules)
    {
      var findings := Detect(bundle.items[i].redactedContent, rules);
      if findings != [] {
        return Some(bundle.items[i].traceId);
      }
    }
    return None;
  }
}
