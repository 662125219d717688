/** Rules for which redacting twice is not redacting once. */
module Counterexamples {
  import opened Wrappers
  import opened Sorting
  import opened Detection
  import opened Redaction
  import opened Evidence
  import opened Idempotence

  /** A rule that matches the first character of any text. */
  const GREEDY := DetectionRule("greedy", Pii, (content: string) => if content == "" then [] else [Match(0, 1, content[..1])], None)

  lemma GreedyFires(content: string)
    requires content != ""
    ensures Sound(GREEDY) && Detected(content, [GREEDY]) == [Finding(Pii, "greedy", 0, 1, content[..1])]
  {
    var ms := GREEDY.find(content);
    assert ms == [Match(0, 1, content[..1])];
    assert RuleFindings(GREEDY, ms[..0]) == [];
    assert RuleFindings(GREEDY, ms) == [Finding(Pii, "greedy", 0, 1, content[..1])];
    assert AllFindings(content, [GREEDY][..0]) == [];
    var all := AllFindings(content, [GREEDY]);
    assert all == [Finding(Pii, "greedy", 0, 1, content[..1])];
    assert all[1..] == [];
    assert Sort(all[1..], LeFinding) == [];
  }

  /** The promised idempotence fails for some rules: here every pass grows the
      text. */
  lemma IdempotenceNeedsTheRules()
    ensures var once := Once(RedactionMarker, "x", Detecting([GREEDY]));
            Sound(GREEDY) && Detected(once, [GREEDY]) != [] && RedactedWith(once, Detected(once, [GREEDY])) != once
  {
    GreedyFires("x");
    var findings := Detected("x", [GREEDY]);
    GreedyOnce("x");
    var once := RedactedWith("x", findings);
    assert once != "";
    GreedyFires(once);
    GreedyOnce(once);
  }

  lemma GreedyOnce(content: string)
    requires content != "" && Detected(content, [GREEDY]) == [Finding(Pii, "greedy", 0, 1, content[..1])]
    ensures |RedactedWith(content, Detected(content, [GREEDY]))| > |content|
  {
    var f := Finding(Pii, "greedy", 0, 1, content[..1]);
    assert [f][1..] == [];
    assert Sort([f], LeSpan) == [f];
    assert [f][..0] == [];
    assert MergeOrdered([f][..0]) == [];
    assert Merged([f]) == [Span(0, 1, Pii, 1)];
    RenderedLength(RedactionMarker, content, [f]);
    CoveredAtMost([f], 1, |content|);
    assert [Span(0, 1, Pii, 1)][..0] == [];
    assert MarkerLengths(RedactionMarker, [Span(0, 1, Pii, 1)][..0]) == 0;
  }

  lemma {:induction false} CoveredAtMost(findings: seq<Finding>, end: nat, x: nat)
    requires forall j :: 0 <= j < |findings| ==> findings[j].end <= end
    ensures CoveredCount(findings, x) <= end
    ensures CoveredCount(findings, x) <= x
  {
    if x > 0 {
      CoveredAtMost(findings, end, x - 1);
      if x > end {
        assert !HitBy(findings, x - 1);
      }
    }
  }

  /** A match iterator: `width` says how long a match at a place is, 0 for none. */
  function Scan(text: string, from: nat, width: (string, nat) -> nat): (ms: seq<Match>)
    ensures forall m :: m in ms ==> MatchOf(m, text)
    ensures ms == [] <==> forall i :: from <= i < |text| ==> !Fits(text, i, width)
    decreases |text| - from
  {
    if from >= |text| then []
    else if !Fits(text, from, width) then Scan(text, from + 1, width)
    else
      var end := from + width(text, from);
      [Match(from, end, text[from..end])] + Scan(text, end, width)
  }

  predicate Fits(text: string, i: nat, width: (string, nat) -> nat) {
    0 < width(text, i) <= |text| - i
  }

  function StopWidth(text: string, i: nat): nat {
    if i < |text| && text[i] == '.' then 1 else 0
  }

  /** How far an `x` reaches. */
  const REACH := 20

  predicate NoStop(text: string, i: nat, j: nat) {
    forall k :: i <= k < j && k < |text| ==> text[k] != '.'
  }

  /** The end of the match that opens with the `x` at `i`: the first `z` from `j`
      on, within reach and with no full stop between. */
  function Closing(text: string, i: nat, j: nat): (r: Option<nat>)
    requires i <= j
    ensures r.Some? ==> j <= r.value < |text| && r.value <= i + REACH && text[r.value] == 'z' && NoStop(text, i, r.value)
    ensures r.None? ==> forall k :: j <= k < |text| && k <= i + REACH && text[k] == 'z' ==> !NoStop(text, i, k)
    decreases i + REACH - j
  {
    if j >= |text| || j > i + REACH then None
    else if text[j] == 'z' && NoStop(text, i, j) then Some(j)
    else Closing(text, i, j + 1)
  }

  function AcrossWidth(text: string, i: nat): nat {
    if i < |text| && text[i] == 'x' && Closing(text, i, i).Some? then Closing(text, i, i).value + 1 - i else 0
  }

  /** A rule for full stops, and one for an `x` and a `z` a few characters apart with
      no full stop between them. */
  const STOP := DetectionRule("stop", Pii, (text: string) => Scan(text, 0, StopWidth), None)

  const ACROSS := DetectionRule("across", PromptInjection, (text: string) => Scan(text, 0, AcrossWidth), None)

  lemma BothSound()
    ensures Sound(STOP) && Sound(ACROSS)
  {
  }

  /** An `x` and a `z` within reach of each other. */
  predicate Pair(text: string, i: nat, j: nat) {
    i < j < |text| && j <= i + REACH && text[i] == 'x' && text[j] == 'z'
  }

  ghost predicate Paired(text: string) {
    exists i: nat, j: nat :: Pair(text, i, j)
  }

  lemma {:induction false} NoFindingsIff(rule: DetectionRule, ms: seq<Match>)
    requires rule.validator.None?
    ensures RuleFindings(rule, ms) == [] <==> ms == []
  {
  }

  lemma StopScan(text: string)
    ensures STOP.find(text) == [] <==> '.' !in text
  {
    if '.' in text {
      var i :| 0 <= i < |text| && text[i] == '.';
      assert Fits(text, i, StopWidth);
    }
  }

  lemma AcrossScan(text: string)
    requires '.' !in text
    ensures ACROSS.find(text) == [] <==> !Paired(text)
  {
    if Paired(text) {
      var i: nat, j: nat :| Pair(text, i, j);
      assert NoStop(text, i, j);
      assert Closing(text, i, i).Some?;
      assert Fits(text, i, AcrossWidth);
    } else {
      forall i | 0 <= i < |text| ensures !Fits(text, i, AcrossWidth) {
        if AcrossWidth(text, i) > 0 {
          var j := Closing(text, i, i).value;
          assert i != j;
          assert Pair(text, i, j);
        }
      }
    }
  }

  lemma TwoRules(text: string)
    ensures AllFindings(text, [STOP, ACROSS]) == RuleFindings(STOP, STOP.find(text)) + RuleFindings(ACROSS, ACROSS.find(text))
  {
    assert [STOP, ACROSS][..1] == [STOP] && [STOP][..0] == [];
    assert AllFindings(text, [STOP]) == AllFindings(text, []) + RuleFindings(STOP, STOP.find(text));
  }

  /** Neither rule fires exactly on texts without a full stop and without a pair. */
  lemma CleanIff(text: string)
    ensures Detected(text, [STOP, ACROSS]) == [] <==> '.' !in text && !Paired(text)
  {
    TwoRules(text);
    SortPermutes(AllFindings(text, [STOP, ACROSS]), LeFinding);
    NoFindingsIff(STOP, STOP.find(text));
    NoFindingsIff(ACROSS, ACROSS.find(text));
    StopScan(text);
    if '.' !in text {
      AcrossScan(text);
    }
  }

  predicate Plain(text: string) {
    'x' !in text && 'z' !in text && '.' !in text
  }

  lemma PlainJoins(a: string, b: string)
    requires Plain(a) && Plain(b)
    ensures Plain(a + b)
  {
  }

  lemma CategoryPlain(c: Category)
    ensures Plain(CategoryValue(c)) && |CategoryValue(c)| >= 3 && (c == Pii ==> |CategoryValue(c)| == 3)
  {
  }

  lemma MarkerPlain(c: Category)
    ensures Plain(RedactionMarker(c)) && |RedactionMarker(c)| >= 14
    ensures c == Pii ==> |RedactionMarker(c)| == 14
  {
    var open, value, close := "[REDACTED:", CategoryValue(c), "]";
    CategoryPlain(c);
    PlainJoins(open, value);
    PlainJoins(open + value, close);
  }

  /** A pair around a marker and within two stretches of it is found there. */
  lemma PairInside(before: string, text: string, after: string)
    requires Paired(text)
    ensures Paired(before + text + after)
  {
    var i: nat, j: nat :| Pair(text, i, j);
    assert Pair(before + text + after, |before| + i, |before| + j);
  }

  /** No pair spans two markers. */
  lemma PairSplits(p: string, m: string, q: string, n: string, r: string)
    requires Plain(m) && Plain(n) && |m| + |n| >= REACH
    requires Paired(p + m + q + n + r)
    ensures Paired(p + m + q) || Paired(q + n + r)
  {
    var whole, left, right := p + m + q + n + r, p + m + q, q + n + r;
    var i: nat, j: nat :| Pair(whole, i, j);
    var x := |p| + |m|;
    if j < |left| {
      assert whole[i] == left[i] && whole[j] == left[j];
      assert Pair(left, i, j);
    } else if i >= x {
      assert whole[i] == right[i - x] && whole[j] == right[j - x];
      assert Pair(right, i - x, j - x);
    } else {
      assert false;
    }
  }

  lemma PairJoins(p: string, m: string, q: string, n: string, r: string)
    requires Plain(m) && Plain(n) && |m| + |n| >= REACH
    ensures Paired(p + m + q + n + r) <==> Paired(p + m + q) || Paired(q + n + r)
  {
    if Paired(p + m + q + n + r) {
      PairSplits(p, m, q, n, r);
    }
    if Paired(p + m + q) {
      PairInside("", p + m + q, n + r);
      assert "" + (p + m + q) + (n + r) == p + m + q + n + r;
    }
    if Paired(q + n + r) {
      PairInside(p + m, q + n + r, "");
      assert p + m + (q + n + r) + "" == p + m + q + n + r;
    }
  }

  /** Around two markers, what trips a rule lies around the one or the other. */
  lemma CleanParts(p: string, m: string, q: string, n: string, r: string)
    requires Plain(m) && Plain(n) && |m| + |n| >= REACH
    ensures Detected(p + m + q + n + r, [STOP, ACROSS]) == []
       <==> Detected(p + m + q, [STOP, ACROSS]) == [] && Detected(q + n + r, [STOP, ACROSS]) == []
  {
    CleanIff(p + m + q + n + r);
    CleanIff(p + m + q);
    CleanIff(q + n + r);
    PairJoins(p, m, q, n, r);
  }

  lemma WovenOne(mark: Marker, a: string, c: Category, b: string)
    ensures Woven(mark, [a, b], [c]) == a + mark(c) + b
  {
    assert [a, b][..1] == [a] && [c][..0] == [];
    assert Woven(mark, [a], []) == a;
  }

  lemma WovenInit(mark: Marker, gaps: seq<string>, marks: seq<Category>)
    requires |gaps| == |marks| + 1 && |marks| > 1
    ensures var n := |marks|;
            Woven(mark, gaps[..n], marks[..n - 1]) == Woven(mark, gaps[..n - 1], marks[..n - 2]) + mark(marks[n - 2]) + gaps[n - 1]
  {
    var n := |marks|;
    assert gaps[..n][..n - 1] == gaps[..n - 1] && marks[..n - 1][..n - 2] == marks[..n - 2];
  }

  lemma WovenTail(mark: Marker, gaps: seq<string>, marks: seq<Category>)
    requires |gaps| == |marks| + 1 && |marks| > 0
    ensures var n := |marks|; Woven(mark, gaps[n - 1..], marks[n - 1..]) == gaps[n - 1] + mark(marks[n - 1]) + gaps[n]
  {
    var n := |marks|;
    assert gaps[n - 1..] == [gaps[n - 1], gaps[n]] && marks[n - 1..] == [marks[n - 1]];
    WovenOne(mark, gaps[n - 1], marks[n - 1], gaps[n]);
  }

  lemma LastReachOne(mark: Marker, detect: Detector, gaps: seq<string>, marks: seq<Category>,
                     p: string, m: string, q: string, n: string, r: string)
    requires |gaps| == |marks| + 1 && |marks| > 1
    requires p == Woven(mark, gaps[..|marks| - 1], marks[..|marks| - 2])
    requires m == mark(marks[|marks| - 2]) && q == gaps[|marks| - 1] && n == mark(marks[|marks| - 1]) && r == gaps[|marks|]
    requires detect(p + m + q + n + r) == [] <==> detect(p + m + q) == [] && detect(q + n + r) == []
    ensures LastReach(mark, detect, gaps, marks, 1)
  {
    WovenInit(mark, gaps, marks);
    WovenTail(mark, gaps, marks);
  }

  /** Matches of these rules cross one marker at most. */
  lemma AcrossCrossesOne()
    ensures CrossAtMost(RedactionMarker, Detecting([STOP, ACROSS]), 1)
  {
    forall gaps: seq<string>, marks: seq<Category> | |gaps| == |marks| + 1 && |marks| > 1
      ensures LastReach(RedactionMarker, Detecting([STOP, ACROSS]), gaps, marks, 1)
    {
      var k := |marks|;
      var p, m, n := Woven(RedactionMarker, gaps[..k - 1], marks[..k - 2]), RedactionMarker(marks[k - 2]), RedactionMarker(marks[k - 1]);
      MarkerPlain(marks[k - 2]);
      MarkerPlain(marks[k - 1]);
      CleanParts(p, m, gaps[k - 1], n, gaps[k]);
      LastReachOne(RedactionMarker, Detecting([STOP, ACROSS]), gaps, marks, p, m, gaps[k - 1], n, gaps[k]);
    }
  }

  lemma OneFinding(f: Finding)
    ensures Sort([f], LeFinding) == [f] && Merged([f]) == [Span(f.start, f.end, f.category, Length(f))]
  {
    assert [f][1..] == [];
    assert Sort([f], LeSpan) == [f];
    assert [f][..0] == [];
    assert MergeOrdered([f][..0]) == [];
  }

  lemma OneMatch(rule: DetectionRule, m: Match)
    requires rule.validator.None?
    ensures RuleFindings(rule, [m]) == [ToFinding(rule, m)]
  {
    assert [m][..0] == [];
  }

  lemma StopFound()
    ensures STOP.find("x.z") == [Match(1, 2, ".")]
  {
    var text := "x.z";
    assert text[1..2] == ".";
    assert Scan(text, 2, StopWidth) == [];
    assert Scan(text, 1, StopWidth) == [Match(1, 2, ".")];
  }

  lemma AcrossStopped()
    ensures ACROSS.find("x.z") == []
  {
    var text := "x.z";
    forall i | 0 <= i < |text| ensures !Fits(text, i, AcrossWidth) {
      if Closing(text, i, i).Some? {
        assert Closing(text, i, i).value == 2;
        assert text[1] == '.';
      }
    }
  }

  lemma StopFires()
    ensures Detected("x.z", [STOP, ACROSS]) == [Finding(Pii, "stop", 1, 2, ".")]
  {
    StopFound();
    AcrossStopped();
    TwoRules("x.z");
    OneMatch(STOP, Match(1, 2, "."));
    NoFindingsIff(ACROSS, []);
    OneFinding(Finding(Pii, "stop", 1, 2, "."));
  }

  lemma CutAtStop(spans: seq<Span>)
    requires spans == [Span(1, 2, Pii, 1)]
    ensures Orderly(spans, "x.z") && Gaps("x.z", spans) == ["x", "z"] && Marks(spans) == [Pii]
  {
    forall n: nat | n <= |spans| ensures Follows(spans, "x.z", n) {
    }
    assert Kept("x.z", spans, 0) == "x" && Kept("x.z", spans, 1) == "z";
  }

  lemma Apart()
    ensures Detected("x", [STOP, ACROSS]) == [] && Detected("z", [STOP, ACROSS]) == []
  {
    CleanIff("x");
    CleanIff("z");
  }

  lemma Together(m: string)
    requires Plain(m) && |m| < REACH
    ensures Detected("x" + m + "z", [STOP, ACROSS]) != []
  {
    var text := "x" + m + "z";
    assert Pair(text, 0, |m| + 1);
    CleanIff(text);
  }

  /** The original is cut at its full stop into two stretches that trip neither
      rule; with the marker between them they do. */
  lemma WindowTrips(detect: Detector, spans: seq<Span>)
    requires detect == Detecting([STOP, ACROSS]) && spans == [Span(1, 2, Pii, 1)]
    ensures Orderly(spans, "x.z") && StretchesClean("x.z", spans, detect)
    ensures !WindowClean(RedactionMarker, detect, Gaps("x.z", spans), Marks(spans), 1, 1)
  {
    CutAtStop(spans);
    Apart();
    forall k | 0 <= k <= |spans| ensures StretchClean("x.z", spans, detect, k) {
      assert Kept("x.z", spans, k) == Gaps("x.z", spans)[k];
    }
    assert ["x", "z"][0..2] == ["x", "z"] && [Pii][0..1] == [Pii];
    WovenOne(RedactionMarker, "x", Pii, "z");
    MarkerPlain(Pii);
    Together(RedactionMarker(Pii));
  }

  lemma MarkersTripNeither(c: Category)
    ensures Detected(RedactionMarker(c), [STOP, ACROSS]) == []
  {
    MarkerPlain(c);
    CleanIff(RedactionMarker(c));
  }

  lemma SecondPassFinds(detect: Detector)
    requires detect == Detecting([STOP, ACROSS])
    ensures Merged(detect("x.z")) == [Span(1, 2, Pii, 1)]
    ensures !SecondPassIdle(RedactionMarker, "x.z", detect)
  {
    StopFires();
    OneFinding(Finding(Pii, "stop", 1, 2, "."));
    BothSound();
    SoundRulesDetect([STOP, ACROSS]);
    AcrossCrossesOne();
    WindowTrips(detect, [Span(1, 2, Pii, 1)]);
    CrossingRulesIdleIff(RedactionMarker, "x.z", detect, 1);
  }

  /** That no rule fires on a marker is documented as what makes redaction
      idempotent. It is not enough, and neither is that no kept stretch trips a
      rule: replacing what kept a rule from matching lets it match across the
      marker. */
  lemma SilentMarkersAreNotEnough()
    ensures Sound(STOP) && Sound(ACROSS)
    ensures forall c: Category :: Detected(RedactionMarker(c), [STOP, ACROSS]) == []
    ensures var detect := Detecting([STOP, ACROSS]); var spans := Merged(detect("x.z"));
            && CrossAtMost(RedactionMarker, detect, 1)
            && Orderly(spans, "x.z") && StretchesClean("x.z", spans, detect)
            && !WindowClean(RedactionMarker, detect, Gaps("x.z", spans), Marks(spans), 1, |spans|)
            && !SecondPassIdle(RedactionMarker, "x.z", detect)
  {
    BothSound();
    AcrossCrossesOne();
    forall c: Category ensures Detected(RedactionMarker(c), [STOP, ACROSS]) == [] {
      MarkersTripNeither(c);
    }
    SecondPassFinds(Detecting([STOP, ACROSS]));
    WindowTrips(Detecting([STOP, ACROSS]), [Span(1, 2, Pii, 1)]);
  }
}
