/** Scoring the detectors against a labelled corpus. */
module DlpMetrics {
  import opened Wrappers
  import opened Sorting
  import opened Detection

  datatype CorpusExample = CorpusExample(id: string, positive: bool, content: string, digest: string,
                                         expected: seq<(Category, int)>)

  datatype Miss = Miss(exampleId: string, category: Category, expected: int, detected: int, digest: string)

  datatype FalsePositiveHit = FalsePositiveHit(exampleId: string, category: Category, ruleId: string,
                                               matchedText: string, digest: string)

  datatype CategoryMetrics = CategoryMetrics(expectedInstances: int, detectedInstances: int) {
    function Recall(): real {
      if expectedInstances == 0 then 1.0 else detectedInstances as real / expectedInstances as real
    }
  }

  datatype Thresholds = Thresholds(minSecretRecall: real, minPiiRecall: real, maxFalsePositiveRate: real) {
    function MinRecallFor(c: Category): Option<real> {
      if c == Secrets then Some(minSecretRecall) else if c == Pii then Some(minPiiRecall) else None
    }
  }

  datatype CorpusEvaluation = CorpusEvaluation(perCategory: map<Category, CategoryMetrics>, cleanExamples: nat,
                                               flaggedCleanExamples: nat, crossCategoryFindings: nat,
                                               misses: seq<Miss>, falsePositives: seq<FalsePositiveHit>) {
    function FalsePositiveRate(): real {
      if cleanExamples == 0 then 0.0 else flaggedCleanExamples as real / cleanExamples as real
    }
  }

  // -- counting distinct spans ---------------------------------------------------------

  datatype Extent = Extent(start: nat, end: nat)

  /** Grow the last span or start a new one. */
  function NextSpans(before: seq<Extent>, f: Finding): seq<Extent> {
    if before != [] && f.start <= before[|before| - 1].end then
      before[|before| - 1 := Extent(before[|before| - 1].start, if before[|before| - 1].end < f.end then f.end
                                                                else before[|before| - 1].end)]
    else before + [Extent(f.start, f.end)]
  }

  /** The spans of one rule, in order, overlapping or touching findings merged. */
  function RuleSpans(fs: seq<Finding>, c: Category, ruleId: string): seq<Extent> {
    if fs == [] then []
    else
      var before := RuleSpans(fs[..|fs| - 1], c, ruleId);
      if OfRule(fs[|fs| - 1], c, ruleId) then NextSpans(before, fs[|fs| - 1]) else before
  }

  /** Finding `j` opens a span: it is of the category, and every earlier finding
      of its rule and category ends before it starts. */
  predicate Opens(fs: seq<Finding>, c: Category, j: nat)
    requires j < |fs|
  {
    fs[j].category == c
    && forall i :: 0 <= i < j && fs[i].category == c && fs[i].ruleId == fs[j].ruleId ==> fs[i].end < fs[j].start
  }

  function OpenCount(fs: seq<Finding>, c: Category, n: nat): nat
    requires n <= |fs|
  {
    if n == 0 then 0 else OpenCount(fs, c, n - 1) + (if Opens(fs, c, n - 1) then 1 else 0)
  }

  /** The number of distinct spans of a category: same-rule overlaps merge,
      overlaps between rules stay apart. */
  function DistinctSpans(fs: seq<Finding>, c: Category): nat {
    OpenCount(fs, c, |fs|)
  }

  predicate Proper(fs: seq<Finding>) {
    forall i :: 0 <= i < |fs| ==> fs[i].start <= fs[i].end
  }

  predicate OfRule(f: Finding, c: Category, ruleId: string) {
    f.category == c && f.ruleId == ruleId
  }

  /** How far the findings of a rule reach; -1 when it has none. */
  function ReachOf(fs: seq<Finding>, c: Category, ruleId: string): int {
    if fs == [] then -1
    else
      var before := ReachOf(fs[..|fs| - 1], c, ruleId);
      if OfRule(fs[|fs| - 1], c, ruleId) && before < fs[|fs| - 1].end then fs[|fs| - 1].end else before
  }

  /** The last span of a rule ends where the rule's findings so far reach. */
  lemma {:induction false} RuleSpansReach(fs: seq<Finding>, c: Category, ruleId: string)
    requires Proper(fs)
    ensures var spans := RuleSpans(fs, c, ruleId);
            ReachOf(fs, c, ruleId) == if spans == [] then -1 else spans[|spans| - 1].end
  {
    if fs != [] {
      RuleSpansReach(fs[..|fs| - 1], c, ruleId);
    }
  }

  lemma {:induction false} ReachBelow(fs: seq<Finding>, c: Category, ruleId: string, x: nat)
    ensures ReachOf(fs, c, ruleId) < x <==> forall i :: 0 <= i < |fs| && OfRule(fs[i], c, ruleId) ==> fs[i].end < x
  {
    if fs != [] {
      var init, n := fs[..|fs| - 1], |fs| - 1;
      ReachBelow(init, c, ruleId, x);
      assert fs == init + [fs[n]];
      if OfRule(fs[n], c, ruleId) && !(fs[n].end < x) {
        assert ReachOf(fs, c, ruleId) >= x;
      }
    }
  }

  lemma OpensIffNewSpan(fs: seq<Finding>, j: nat, c: Category)
    requires Proper(fs) && j < |fs| && fs[j].category == c
    ensures var spans := RuleSpans(fs[..j], c, fs[j].ruleId);
            Opens(fs, c, j) <==> spans == [] || spans[|spans| - 1].end < fs[j].start
  {
    RuleSpansReach(fs[..j], c, fs[j].ruleId);
    ReachBelow(fs[..j], c, fs[j].ruleId, fs[j].start);
    forall i | 0 <= i < j ensures OfRule(fs[..j][i], c, fs[j].ruleId) <==> fs[i].category == c && fs[i].ruleId == fs[j].ruleId {
    }
    assert Opens(fs, c, j) <==> forall i :: 0 <= i < |fs[..j]| && OfRule(fs[..j][i], c, fs[j].ruleId) ==> fs[..j][i].end < fs[j].start;
  }

  function SpansAt(byRule: map<string, seq<Extent>>, ruleId: string): seq<Extent> {
    if ruleId in byRule then byRule[ruleId] else []
  }

  /** The dictionary the loop keeps: for each rule seen, its spans. */
  ghost predicate ByRule(byRule: map<string, seq<Extent>>, fs: seq<Finding>, c: Category) {
    forall ruleId: string :: SpansAt(byRule, ruleId) == RuleSpans(fs, c, ruleId)
  }

  lemma RuleSpansSnoc(fs: seq<Finding>, f: Finding, c: Category, ruleId: string)
    ensures RuleSpans(fs + [f], c, ruleId) ==
            if OfRule(f, c, ruleId) then NextSpans(RuleSpans(fs, c, ruleId), f) else RuleSpans(fs, c, ruleId)
  {
  }

  /** The sizes of the dictionary's values, in key order. */
  function SizeTotal(keys: seq<string>, byRule: map<string, seq<Extent>>): nat {
    if keys == [] then 0
    else
      SizeTotal(keys[..|keys| - 1], byRule) + |SpansAt(byRule, keys[|keys| - 1])|
  }

  lemma {:induction false} SizeTotalUpdate(keys: seq<string>, byRule: map<string, seq<Extent>>, k: string, spans: seq<Extent>)
    requires Distinct(keys)
    ensures SizeTotal(keys, byRule[k := spans])
         == SizeTotal(keys, byRule) + (if k in keys then |spans| - |SpansAt(byRule, k)| else 0)
  {
    if keys != [] {
      SizeTotalUpdate(keys[..|keys| - 1], byRule, k, spans);
      assert keys == keys[..|keys| - 1] + [keys[|keys| - 1]];
    }
  }

  /** `keys` lists the dictionary's keys, each once. */
  ghost predicate KeysOf(keys: seq<string>, byRule: map<string, seq<Extent>>) {
    Distinct(keys) && forall k: string :: k in byRule <==> k in keys
  }

  function NextKeys(keys: seq<string>, byRule: map<string, seq<Extent>>, k: string): seq<string> {
    if k in byRule then keys else keys + [k]
  }

  lemma KeysStep(keys: seq<string>, byRule: map<string, seq<Extent>>, k: string, spans: seq<Extent>)
    requires KeysOf(keys, byRule)
    ensures KeysOf(NextKeys(keys, byRule, k), byRule[k := spans])
    ensures SizeTotal(NextKeys(keys, byRule, k), byRule[k := spans])
         == SizeTotal(keys, byRule) + |spans| - |SpansAt(byRule, k)|
  {
    SizeTotalUpdate(keys, byRule, k, spans);
    if k !in byRule {
      assert (keys + [k])[..|keys|] == keys;
    }
  }

  lemma ByRuleStep(byRule: map<string, seq<Extent>>, fs: seq<Finding>, c: Category, j: nat)
    requires j < |fs| && ByRule(byRule, fs[..j], c)
    ensures var f := fs[j];
            if f.category != c then ByRule(byRule, fs[..j + 1], c)
            else ByRule(byRule[f.ruleId := NextSpans(SpansAt(byRule, f.ruleId), f)], fs[..j + 1], c)
  {
    TakeNext(fs, j);
    var f := fs[j];
    var after := if f.category != c then byRule else byRule[f.ruleId := NextSpans(SpansAt(byRule, f.ruleId), f)];
    forall r: string ensures SpansAt(after, r) == RuleSpans(fs[..j + 1], c, r) {
      RuleSpansSnoc(fs[..j], f, c, r);
      assert SpansAt(byRule, r) == RuleSpans(fs[..j], c, r);
    }
  }

  lemma CountStep(byRule: map<string, seq<Extent>>, fs: seq<Finding>, c: Category, j: nat)
    requires Proper(fs) && j < |fs| && ByRule(byRule, fs[..j], c)
    ensures var f := fs[j];
            var before := SpansAt(byRule, f.ruleId);
            OpenCount(fs, c, j + 1) == OpenCount(fs, c, j) + if f.category != c then 0 else |NextSpans(before, f)| - |before|
  {
    if fs[j].category == c {
      OpensIffNewSpan(fs, j, c);
      assert SpansAt(byRule, fs[j].ruleId) == RuleSpans(fs[..j], c, fs[j].ruleId);
    }
  }

  /** Builds the dictionary; `keys` are its keys in the order they were added. */
  method SpansByRule(fs: seq<Finding>, c: Category) returns (keys: seq<string>, byRule: map<string, seq<Extent>>)
    requires Proper(fs)
    ensures KeysOf(keys, byRule) && ByRule(byRule, fs, c)
    ensures SizeTotal(keys, byRule) == DistinctSpans(fs, c)
  {
    keys := [];
    byRule := map[];
    for j := 0 to |fs|
      invariant KeysOf(keys, byRule) && ByRule(byRule, fs[..j], c)
      invariant SizeTotal(keys, byRule) == OpenCount(fs, c, j)
    {
      var f := fs[j];
      ByRuleStep(byRule, fs, c, j);
      CountStep(byRule, fs, c, j);
      if f.category != c {
        continue;
      }
      var spans := SpansAt(byRule, f.ruleId);
      KeysStep(keys, byRule, f.ruleId, NextSpans(spans, f));
      keys := NextKeys(keys, byRule, f.ruleId);
      spans := Extend(spans, f);
      byRule := byRule[f.ruleId := spans];
    }
    assert fs[..|fs|] == fs;
  }

  method Extend(before: seq<Extent>, f: Finding) returns (spans: seq<Extent>)
    ensures spans == NextSpans(before, f)
  {
    spans := before;
    if spans != [] && f.start <= spans[|spans| - 1].end {
      var last := spans[|spans| - 1];
      spans := spans[|spans| - 1 := Extent(last.start, if last.end < f.end then f.end else last.end)];
    } else {
      spans := spans + [Extent(f.start, f.end)];
    }
  }

  method DistinctSpanCount(fs: seq<Finding>, c: Category) returns (count: nat)
    requires Proper(fs)
    ensures count == DistinctSpans(fs, c)
  {
    var keys, byRule := SpansByRule(fs, c);
    count := 0;
    for i := 0 to |keys|
      invariant count == SizeTotal(keys[..i], byRule)
    {
      TakeNext(keys, i);
      assert keys[..i + 1][..i] == keys[..i];
      count := count + |SpansAt(byRule, keys[i])|;
    }
    assert keys[..|keys|] == keys;
  }

  lemma TakeNext<T>(xs: seq<T>, i: nat)
    requires i < |xs|
    ensures xs[..i + 1] == xs[..i] + [xs[i]] && xs == xs[..i + 1] + xs[i + 1..]
  {
  }

  // -- scoring the corpus --------------------------------------------------------------

  /** One expected category of one positive example, with what was detected. */
  datatype Expectation = Expectation(exampleId: string, category: Category, expected: int, detected: nat, digest: string) {
    predicate Missed() {
      detected < expected
    }

    function Credit(): int {
      if detected < expected then detected else expected
    }

    function ToMiss(): Miss {
      Miss(exampleId, category, expected, detected, digest)
    }
  }

  function ExpectationOf(e: CorpusExample, fs: seq<Finding>, pair: (Category, int)): Expectation {
    Expectation(e.id, pair.0, pair.1, DistinctSpans(fs, pair.0), e.digest)
  }

  function ExpectationsOf(e: CorpusExample, fs: seq<Finding>, pairs: seq<(Category, int)>): (xs: seq<Expectation>)
    ensures |xs| == |pairs|
  {
    if pairs == [] then []
    else ExpectationsOf(e, fs, pairs[..|pairs| - 1]) + [ExpectationOf(e, fs, pairs[|pairs| - 1])]
  }

  /** Everything the positive examples expect. */
  function Expectations(examples: seq<CorpusExample>, rules: seq<DetectionRule>): seq<Expectation> {
    if examples == [] then []
    else
      var e := examples[|examples| - 1];
      Expectations(examples[..|examples| - 1], rules)
      + if e.positive then ExpectationsOf(e, Detected(e.content, rules), e.expected) else []
  }

  function HitsOf(e: CorpusExample, fs: seq<Finding>): seq<FalsePositiveHit> {
    if fs == [] then []
    else
      var f := fs[|fs| - 1];
      HitsOf(e, fs[..|fs| - 1]) + [FalsePositiveHit(e.id, f.category, f.ruleId, f.matchedText, e.digest)]
  }

  /** Everything found in clean examples. */
  function FalsePositives(examples: seq<CorpusExample>, rules: seq<DetectionRule>): seq<FalsePositiveHit> {
    if examples == [] then []
    else
      var e := examples[|examples| - 1];
      FalsePositives(examples[..|examples| - 1], rules) + if e.positive then [] else HitsOf(e, Detected(e.content, rules))
  }

  function ForeignCount(pairs: seq<(Category, int)>, fs: seq<Finding>): nat {
    if fs == [] then 0
    else ForeignCount(pairs, fs[..|fs| - 1]) + (if Expects(pairs, fs[|fs| - 1].category) then 0 else 1)
  }

  predicate Expects(pairs: seq<(Category, int)>, c: Category) {
    exists i :: 0 <= i < |pairs| && pairs[i].0 == c
  }

  function CrossCategory(examples: seq<CorpusExample>, rules: seq<DetectionRule>): nat {
    if examples == [] then 0
    else
      var e := examples[|examples| - 1];
      CrossCategory(examples[..|examples| - 1], rules)
      + if e.positive then ForeignCount(e.expected, Detected(e.content, rules)) else 0
  }

  function CleanCount(examples: seq<CorpusExample>): nat {
    if examples == [] then 0
    else CleanCount(examples[..|examples| - 1]) + (if examples[|examples| - 1].positive then 0 else 1)
  }

  function ExpectedTotal(xs: seq<Expectation>, c: Category): int {
    if xs == [] then 0
    else ExpectedTotal(xs[..|xs| - 1], c) + (if xs[|xs| - 1].category == c then xs[|xs| - 1].expected else 0)
  }

  function DetectedTotal(xs: seq<Expectation>, c: Category): int {
    if xs == [] then 0
    else DetectedTotal(xs[..|xs| - 1], c) + (if xs[|xs| - 1].category == c then xs[|xs| - 1].Credit() else 0)
  }

  function MissesOf(xs: seq<Expectation>): seq<Miss> {
    if xs == [] then []
    else MissesOf(xs[..|xs| - 1]) + (if xs[|xs| - 1].Missed() then [xs[|xs| - 1].ToMiss()] else [])
  }

  predicate Mentions(xs: seq<Expectation>, c: Category) {
    exists i :: 0 <= i < |xs| && xs[i].category == c
  }

  predicate MissedSome(xs: seq<Expectation>, c: Category) {
    exists i :: 0 <= i < |xs| && xs[i].category == c && xs[i].Missed()
  }

  /** What the loops accumulate over the positive examples. */
  datatype Tally = Tally(expected: map<Category, int>, detected: map<Category, int>, misses: seq<Miss>)

  function Entry(m: map<Category, int>, c: Category): int {
    if c in m then m[c] else 0
  }

  predicate TalliesAt(t: Tally, xs: seq<Expectation>, c: Category) {
    && (c in t.expected <==> Mentions(xs, c))
    && Entry(t.expected, c) == ExpectedTotal(xs, c)
    && Entry(t.detected, c) == DetectedTotal(xs, c)
  }

  predicate Tallies(t: Tally, xs: seq<Expectation>) {
    t.misses == MissesOf(xs) && forall c: Category :: TalliesAt(t, xs, c)
  }

  function AddTo(t: Tally, x: Expectation): Tally {
    Tally(t.expected[x.category := Entry(t.expected, x.category) + x.expected],
          t.detected[x.category := Entry(t.detected, x.category) + x.Credit()],
          if x.Missed() then t.misses + [x.ToMiss()] else t.misses)
  }

  lemma TallyStep(t: Tally, xs: seq<Expectation>, x: Expectation)
    requires Tallies(t, xs)
    ensures Tallies(AddTo(t, x), xs + [x])
  {
    assert (xs + [x])[..|xs|] == xs;
    forall c: Category ensures TalliesAt(AddTo(t, x), xs + [x], c) {
      assert TalliesAt(t, xs, c);
      MentionsSnoc(xs, x, c);
    }
  }

  lemma MentionsSnoc(xs: seq<Expectation>, x: Expectation, c: Category)
    ensures Mentions(xs + [x], c) <==> Mentions(xs, c) || x.category == c
  {
    var ys := xs + [x];
    if Mentions(xs, c) {
      var i :| 0 <= i < |xs| && xs[i].category == c;
      assert ys[i].category == c;
    }
    assert ys[|xs|] == x;
  }

  method ScoreExample(e: CorpusExample, fs: seq<Finding>, before: Tally, ghost xs: seq<Expectation>) returns (t: Tally)
    requires Tallies(before, xs) && Proper(fs)
    ensures Tallies(t, xs + ExpectationsOf(e, fs, e.expected))
  {
    t := before;
    assert xs + [] == xs;
    for i := 0 to |e.expected|
      invariant Tallies(t, xs + ExpectationsOf(e, fs, e.expected[..i]))
    {
      var (category, expected) := e.expected[i];
      var detected := DistinctSpanCount(fs, category);
      var x := Expectation(e.id, category, expected, detected, e.digest);
      TallyStep(t, xs + ExpectationsOf(e, fs, e.expected[..i]), x);
      NextExpectation(e, fs, i, xs);
      t := AddTo(t, x);
    }
    assert e.expected[..|e.expected|] == e.expected;
  }

  lemma NextExpectation(e: CorpusExample, fs: seq<Finding>, i: nat, xs: seq<Expectation>)
    requires i < |e.expected|
    ensures xs + ExpectationsOf(e, fs, e.expected[..i + 1])
         == xs + ExpectationsOf(e, fs, e.expected[..i]) + [ExpectationOf(e, fs, e.expected[i])]
  {
    assert e.expected[..i + 1][..i] == e.expected[..i];
  }

  function FlaggedIds(hits: seq<FalsePositiveHit>): set<string> {
    set i | 0 <= i < |hits| :: hits[i].exampleId
  }

  function MetricsOf(t: Tally): map<Category, CategoryMetrics> {
    map c | c in t.expected :: CategoryMetrics(t.expected[c], Entry(t.detected, c))
  }

  ghost predicate EvaluationOf(ev: CorpusEvaluation, examples: seq<CorpusExample>, rules: seq<DetectionRule>) {
    var xs := Expectations(examples, rules);
    && (forall c: Category :: c in ev.perCategory <==> Mentions(xs, c))
    && (forall c :: c in ev.perCategory ==> ev.perCategory[c] == CategoryMetrics(ExpectedTotal(xs, c), DetectedTotal(xs, c)))
    && ev.misses == MissesOf(xs)
    && ev.falsePositives == FalsePositives(examples, rules)
    && ev.crossCategoryFindings == CrossCategory(examples, rules)
    && ev.cleanExamples == CleanCount(examples)
    && ev.flaggedCleanExamples == |FlaggedIds(ev.falsePositives)|
  }

  lemma MetricsAre(t: Tally, xs: seq<Expectation>, c: Category)
    requires Tallies(t, xs)
    ensures c in MetricsOf(t) <==> Mentions(xs, c)
    ensures c in MetricsOf(t) ==> MetricsOf(t)[c] == CategoryMetrics(ExpectedTotal(xs, c), DetectedTotal(xs, c))
  {
    assert TalliesAt(t, xs, c);
  }

  method CountForeign(pairs: seq<(Category, int)>, fs: seq<Finding>) returns (n: nat)
    ensures n == ForeignCount(pairs, fs)
  {
    n := 0;
    for i := 0 to |fs|
      invariant n == ForeignCount(pairs, fs[..i])
    {
      assert fs[..i + 1][..i] == fs[..i];
      if !Expects(pairs, fs[i].category) {
        n := n + 1;
      }
    }
    assert fs[..|fs|] == fs;
  }

  method LogHits(e: CorpusExample, fs: seq<Finding>, before: seq<FalsePositiveHit>) returns (hits: seq<FalsePositiveHit>)
    ensures hits == before + HitsOf(e, fs)
  {
    hits := before;
    for i := 0 to |fs|
      invariant hits == before + HitsOf(e, fs[..i])
    {
      assert fs[..i + 1][..i] == fs[..i];
      hits := hits + [FalsePositiveHit(e.id, fs[i].category, fs[i].ruleId, fs[i].matchedText, e.digest)];
    }
    assert fs[..|fs|] == fs;
  }

  method EvaluateCorpus(examples: seq<CorpusExample>, rules: seq<DetectionRule>) returns (ev: CorpusEvaluation)
    requires forall i :: 0 <= i < |rules| ==> Sound(rules[i])
    ensures EvaluationOf(ev, examples, rules)
  {
    var t := Tally(map[], map[], []);
    var hits: seq<FalsePositiveHit> := [];
    var cross, clean := 0, 0;
    for i := 0 to |examples|
      invariant Tallies(t, Expectations(examples[..i], rules))
      invariant hits == FalsePositives(examples[..i], rules)
      invariant cross == CrossCategory(examples[..i], rules)
      invariant clean == CleanCount(examples[..i])
    {
      var e := examples[i];
      ExampleStep(examples, rules, i);
      var findings := Detect(e.content, rules);
      if !e.positive {
        clean := clean + 1;
        hits := LogHits(e, findings, hits);
        continue;
      }
      DetectedProper(e.content, rules);
      t := ScoreExample(e, findings, t, Expectations(examples[..i], rules));
      var foreign := CountForeign(e.expected, findings);
      cross := cross + foreign;
    }
    assert examples[..|examples|] == examples;
    ev := CorpusEvaluation(MetricsOf(t), clean, |FlaggedIds(hits)|, cross, t.misses, hits);
    forall c: Category
      ensures c in ev.perCategory <==> Mentions(Expectations(examples, rules), c)
      ensures c in ev.perCategory ==>
                ev.perCategory[c] == CategoryMetrics(ExpectedTotal(Expectations(examples, rules), c),
                                                     DetectedTotal(Expectations(examples, rules), c))
    {
      MetricsAre(t, Expectations(examples, rules), c);
    }
  }

  lemma ExampleStep(examples: seq<CorpusExample>, rules: seq<DetectionRule>, i: nat)
    requires i < |examples|
    ensures var e, fs := examples[i], Detected(examples[i].content, rules);
            var before, after := examples[..i], examples[..i + 1];
            if e.positive then
              && Expectations(after, rules) == Expectations(before, rules) + ExpectationsOf(e, fs, e.expected)
              && FalsePositives(after, rules) == FalsePositives(before, rules)
              && CrossCategory(after, rules) == CrossCategory(before, rules) + ForeignCount(e.expected, fs)
              && CleanCount(after) == CleanCount(before)
            else
              && Expectations(after, rules) == Expectations(before, rules)
              && FalsePositives(after, rules) == FalsePositives(before, rules) + HitsOf(e, fs)
              && CrossCategory(after, rules) == CrossCategory(before, rules)
              && CleanCount(after) == CleanCount(before) + 1
  {
    assert examples[..i + 1][..i] == examples[..i];
  }

  lemma DetectedProper(content: string, rules: seq<DetectionRule>)
    requires forall i :: 0 <= i < |rules| ==> Sound(rules[i])
    ensures Proper(Detected(content, rules))
  {
    DetectedInBounds(content, rules);
    var fs := Detected(content, rules);
    forall i | 0 <= i < |fs| ensures fs[i].start <= fs[i].end {
      assert FoundIn(fs[i], content);
    }
  }

  predicate Clears(ev: CorpusEvaluation, thresholds: Thresholds, c: Category) {
    c in ev.perCategory && thresholds.MinRecallFor(c).Some? ==> ev.perCategory[c].Recall() >= thresholds.MinRecallFor(c).value
  }

  predicate Cleared(ev: CorpusEvaluation, thresholds: Thresholds) {
    && ev.misses == [] && ev.falsePositives == []
    && ev.FalsePositiveRate() <= thresholds.maxFalsePositiveRate
    && forall c: Category :: Clears(ev, thresholds, c)
  }

  method Passes(ev: CorpusEvaluation, thresholds: Thresholds) returns (ok: bool)
    ensures ok <==> Cleared(ev, thresholds)
  {
    if ev.misses != [] || ev.falsePositives != [] {
      return false;
    }
    if ev.FalsePositiveRate() > thresholds.maxFalsePositiveRate {
      return false;
    }
    var left := ev.perCategory.Keys;
    while left != {}
      invariant left <= ev.perCategory.Keys
      invariant forall c: Category :: c !in left ==> Clears(ev, thresholds, c)
      decreases |left|
    {
      var c :| c in left;
      var minimum := thresholds.MinRecallFor(c);
      if minimum.Some? && ev.perCategory[c].Recall() < minimum.value {
        assert !Clears(ev, thresholds, c);
        return false;
      }
      left := left - {c};
    }
    return true;
  }

  // -- what the numbers mean --------------------------------------------------------------

  lemma {:induction false} NoMissesIff(xs: seq<Expectation>)
    ensures MissesOf(xs) == [] <==> forall i :: 0 <= i < |xs| ==> !xs[i].Missed()
  {
    if xs != [] {
      var init, n := xs[..|xs| - 1], |xs| - 1;
      NoMissesIff(init);
      assert forall i :: 0 <= i < n ==> init[i] == xs[i];
      if xs[n].Missed() {
        assert |MissesOf(xs)| > 0;
      }
    }
  }

  /** The credit never exceeds what was expected, and equals it in a category
      exactly when nothing in the category was missed. */
  lemma {:induction false} CreditTotals(xs: seq<Expectation>, c: Category)
    ensures DetectedTotal(xs, c) <= ExpectedTotal(xs, c)
    ensures DetectedTotal(xs, c) == ExpectedTotal(xs, c) <==> !MissedSome(xs, c)
  {
    if xs != [] {
      var init, n := xs[..|xs| - 1], |xs| - 1;
      CreditTotals(init, c);
      MissedSnoc(init, xs[n], c);
      assert xs == init + [xs[n]];
    }
  }

  lemma MissedSnoc(xs: seq<Expectation>, x: Expectation, c: Category)
    ensures MissedSome(xs + [x], c) <==> MissedSome(xs, c) || (x.category == c && x.Missed())
  {
    var ys := xs + [x];
    if MissedSome(xs, c) {
      var i :| 0 <= i < |xs| && xs[i].category == c && xs[i].Missed();
      assert ys[i] == xs[i];
    }
    assert ys[|xs|] == x;
  }

  lemma RatioIsOneIff(d: int, e: int)
    ensures CategoryMetrics(e, d).Recall() == 1.0 <==> e == 0 || d == e
  {
    if e != 0 {
      RatioOne(d as real, e as real, d as real / e as real);
    }
  }

  lemma RatioOne(d: real, e: real, r: real)
    requires e != 0.0 && r == d / e
    ensures r == 1.0 <==> d == e
  {
    assert r * e == d;
  }

  lemma RatioInUnitIff(d: int, e: int)
    requires d <= e
    ensures 0.0 <= CategoryMetrics(e, d).Recall() <= 1.0 <==> e == 0 || d == e || (e > 0 && d >= 0)
  {
    if e > 0 {
      PositiveRatio(d as real, e as real);
    } else if e < 0 {
      NegativeRatio(d as real, e as real);
    }
  }

  lemma PositiveRatio(d: real, e: real)
    requires d <= e && e > 0.0
    ensures d / e <= 1.0 && (0.0 <= d / e <==> 0.0 <= d)
  {
  }

  lemma NegativeRatio(d: real, e: real)
    requires d <= e && e < 0.0
    ensures d / e <= 1.0 <==> d == e
    ensures 0.0 <= d / e
  {
  }

  function RecallIn(xs: seq<Expectation>, c: Category): real {
    CategoryMetrics(ExpectedTotal(xs, c), DetectedTotal(xs, c)).Recall()
  }

  /** Recall is one exactly when nothing was missed or the expected counts cancel
      out; it is a fraction exactly when they do, when the credit is the whole
      total, or when a positive total meets no negative credit. */
  lemma RecallIsOneIffNoMiss(xs: seq<Expectation>, c: Category)
    ensures RecallIn(xs, c) == 1.0 <==> ExpectedTotal(xs, c) == 0 || !MissedSome(xs, c)
    ensures 0.0 <= RecallIn(xs, c) <= 1.0
       <==> ExpectedTotal(xs, c) == 0 || !MissedSome(xs, c) || (ExpectedTotal(xs, c) > 0 && DetectedTotal(xs, c) >= 0)
  {
    CreditTotals(xs, c);
    RatioIsOneIff(DetectedTotal(xs, c), ExpectedTotal(xs, c));
    RatioInUnitIff(DetectedTotal(xs, c), ExpectedTotal(xs, c));
  }

  // -- what the report shows ----------------------------------------------------------

  predicate MissIn(misses: seq<Miss>, c: Category) {
    exists i :: 0 <= i < |misses| && misses[i].category == c
  }

  lemma MissInSnoc(misses: seq<Miss>, m: Miss, c: Category)
    ensures MissIn(misses + [m], c) <==> MissIn(misses, c) || m.category == c
  {
    var all := misses + [m];
    if MissIn(misses, c) {
      var i :| 0 <= i < |misses| && misses[i].category == c;
      assert all[i].category == c;
    }
    assert all[|misses|] == m;
  }

  lemma {:induction false} MissesShow(xs: seq<Expectation>, c: Category)
    ensures MissIn(MissesOf(xs), c) <==> MissedSome(xs, c)
  {
    if xs != [] {
      var init, x := xs[..|xs| - 1], xs[|xs| - 1];
      MissesShow(init, c);
      MissedSnoc(init, x, c);
      assert xs == init + [x];
      assert MissesOf(init) + [] == MissesOf(init);
      MissInSnoc(MissesOf(init), x.ToMiss(), c);
    }
  }

  /** The counts the positive examples label category `c` with. */
  function Labels(examples: seq<CorpusExample>, c: Category): seq<int> {
    if examples == [] then []
    else
      Labels(examples[..|examples| - 1], c)
      + if examples[|examples| - 1].positive then LabelsIn(examples[|examples| - 1].expected, c) else []
  }

  function LabelsIn(pairs: seq<(Category, int)>, c: Category): seq<int> {
    if pairs == [] then []
    else
      var before := LabelsIn(pairs[..|pairs| - 1], c);
      if pairs[|pairs| - 1].0 == c then before + [pairs[|pairs| - 1].1] else before
  }

  function SumOf(ns: seq<int>): int {
    if ns == [] then 0 else SumOf(ns[..|ns| - 1]) + ns[|ns| - 1]
  }

  /** The expected counts of one category, in order. */
  function CountsIn(xs: seq<Expectation>, c: Category): seq<int> {
    if xs == [] then []
    else
      var before := CountsIn(xs[..|xs| - 1], c);
      if xs[|xs| - 1].category == c then before + [xs[|xs| - 1].expected] else before
  }

  lemma {:induction false} CountsInAppend(xs: seq<Expectation>, ys: seq<Expectation>, c: Category)
    ensures CountsIn(xs + ys, c) == CountsIn(xs, c) + CountsIn(ys, c)
  {
    if ys == [] {
      assert xs + ys == xs;
    } else {
      CountsInAppend(xs, ys[..|ys| - 1], c);
      assert (xs + ys)[..|xs + ys| - 1] == xs + ys[..|ys| - 1];
    }
  }

  lemma {:induction false} LabelsOfExample(e: CorpusExample, fs: seq<Finding>, pairs: seq<(Category, int)>, c: Category)
    ensures CountsIn(ExpectationsOf(e, fs, pairs), c) == LabelsIn(pairs, c)
  {
    if pairs != [] {
      LabelsOfExample(e, fs, pairs[..|pairs| - 1], c);
      var init := ExpectationsOf(e, fs, pairs[..|pairs| - 1]);
      assert ExpectationsOf(e, fs, pairs)[..|init|] == init;
    }
  }

  /** What is expected is the labels', whatever the rules. */
  lemma {:induction false} ExpectedAreLabels(examples: seq<CorpusExample>, rules: seq<DetectionRule>, c: Category)
    ensures CountsIn(Expectations(examples, rules), c) == Labels(examples, c)
  {
    if examples != [] {
      var init, e := examples[..|examples| - 1], examples[|examples| - 1];
      ExpectedAreLabels(init, rules, c);
      if e.positive {
        var own := ExpectationsOf(e, Detected(e.content, rules), e.expected);
        CountsInAppend(Expectations(init, rules), own, c);
        LabelsOfExample(e, Detected(e.content, rules), e.expected, c);
      } else {
        assert Expectations(examples, rules) == Expectations(init, rules);
      }
    }
  }

  lemma {:induction false} TotalIsSum(xs: seq<Expectation>, c: Category)
    ensures ExpectedTotal(xs, c) == SumOf(CountsIn(xs, c))
  {
    if xs != [] {
      TotalIsSum(xs[..|xs| - 1], c);
      var init := CountsIn(xs[..|xs| - 1], c);
      assert (init + [xs[|xs| - 1].expected])[..|init|] == init;
    }
  }

  predicate NoneDetected(xs: seq<Expectation>) {
    forall i :: 0 <= i < |xs| ==> xs[i].detected == 0
  }

  predicate SomePositive(ns: seq<int>) {
    exists i :: 0 <= i < |ns| && ns[i] > 0
  }

  predicate SomeNegative(ns: seq<int>) {
    exists i :: 0 <= i < |ns| && ns[i] < 0
  }

  /** Only a positive count can be missed, and with nothing detected it is. */
  lemma {:induction false} MissNeedsPositive(xs: seq<Expectation>, c: Category)
    ensures MissedSome(xs, c) ==> SomePositive(CountsIn(xs, c))
    ensures NoneDetected(xs) && SomePositive(CountsIn(xs, c)) ==> MissedSome(xs, c)
  {
    if xs != [] {
      var init, x := xs[..|xs| - 1], xs[|xs| - 1];
      MissNeedsPositive(init, c);
      MissedSnoc(init, x, c);
      assert xs == init + [x];
      PositiveSnoc(CountsIn(init, c), x.expected);
    }
  }

  lemma PositiveSnoc(ns: seq<int>, n: int)
    ensures SomePositive(ns + [n]) <==> SomePositive(ns) || n > 0
    ensures SomeNegative(ns + [n]) <==> SomeNegative(ns) || n < 0
  {
    var all := ns + [n];
    if SomePositive(ns) {
      var i :| 0 <= i < |ns| && ns[i] > 0;
      assert all[i] > 0;
    }
    if SomeNegative(ns) {
      var i :| 0 <= i < |ns| && ns[i] < 0;
      assert all[i] < 0;
    }
    assert all[|ns|] == n;
  }

  /** Without negative counts no credit is negative; with nothing detected the
      credit is the sum of the negative counts. */
  lemma {:induction false} CreditSign(xs: seq<Expectation>, c: Category)
    ensures !SomeNegative(CountsIn(xs, c)) ==> DetectedTotal(xs, c) >= 0
    ensures NoneDetected(xs) ==>
              DetectedTotal(xs, c) <= 0 && (DetectedTotal(xs, c) < 0 <==> SomeNegative(CountsIn(xs, c)))
  {
    if xs != [] {
      var init, x := xs[..|xs| - 1], xs[|xs| - 1];
      CreditSign(init, c);
      assert xs == init + [x];
      PositiveSnoc(CountsIn(init, c), x.expected);
    }
  }

  lemma {:induction false} SumSign(ns: seq<int>)
    ensures !SomePositive(ns) ==> SumOf(ns) <= 0
    ensures !SomeNegative(ns) ==> SumOf(ns) >= 0
    ensures SumOf(ns) == 0 && !SomeNegative(ns) ==> !SomePositive(ns)
  {
    if ns != [] {
      SumSign(ns[..|ns| - 1]);
      PositiveSnoc(ns[..|ns| - 1], ns[|ns| - 1]);
      assert ns == ns[..|ns| - 1] + [ns[|ns| - 1]];
    }
  }

  lemma EvaluationShows(ev: CorpusEvaluation, examples: seq<CorpusExample>, rules: seq<DetectionRule>, c: Category)
    requires EvaluationOf(ev, examples, rules) && c in ev.perCategory
    ensures ev.perCategory[c].Recall() == RecallIn(Expectations(examples, rules), c)
    ensures MissIn(ev.misses, c) <==> MissedSome(Expectations(examples, rules), c)
    ensures ExpectedTotal(Expectations(examples, rules), c) == SumOf(Labels(examples, c))
  {
    MissesShow(Expectations(examples, rules), c);
    TotalIsSum(Expectations(examples, rules), c);
    ExpectedAreLabels(examples, rules, c);
  }

  /** A category's recall is one exactly when the report lists no miss in it or
      its labels sum to nothing. */
  lemma RecallIsOneIff(ev: CorpusEvaluation, examples: seq<CorpusExample>, rules: seq<DetectionRule>, c: Category)
    requires EvaluationOf(ev, examples, rules) && c in ev.perCategory
    ensures ev.perCategory[c].Recall() == 1.0 <==> !MissIn(ev.misses, c) || SumOf(Labels(examples, c)) == 0
  {
    EvaluationShows(ev, examples, rules, c);
    RecallIsOneIffNoMiss(Expectations(examples, rules), c);
  }

  predicate RecallReflectsMisses(ev: CorpusEvaluation, c: Category) {
    c in ev.perCategory ==> (ev.perCategory[c].Recall() == 1.0 <==> !MissIn(ev.misses, c))
  }

  predicate RecallIsFraction(ev: CorpusEvaluation, c: Category) {
    c in ev.perCategory ==> 0.0 <= ev.perCategory[c].Recall() <= 1.0
  }

  /** The evaluation the scorer computes. */
  function EvaluationFor(examples: seq<CorpusExample>, rules: seq<DetectionRule>): CorpusEvaluation {
    var xs := Expectations(examples, rules);
    CorpusEvaluation(map c: Category | Mentions(xs, c) :: CategoryMetrics(ExpectedTotal(xs, c), DetectedTotal(xs, c)),
                     CleanCount(examples), |FlaggedIds(FalsePositives(examples, rules))|, CrossCategory(examples, rules),
                     MissesOf(xs), FalsePositives(examples, rules))
  }

  lemma EvaluationExists(examples: seq<CorpusExample>, rules: seq<DetectionRule>)
    ensures EvaluationOf(EvaluationFor(examples, rules), examples, rules)
  {
  }

  lemma {:induction false} NothingDetected(e: CorpusExample, pairs: seq<(Category, int)>)
    ensures NoneDetected(ExpectationsOf(e, [], pairs))
  {
    if pairs != [] {
      NothingDetected(e, pairs[..|pairs| - 1]);
      assert ExpectationOf(e, [], pairs[|pairs| - 1]).detected == 0;
    }
  }

  lemma {:induction false} NoRulesDetectNothing(examples: seq<CorpusExample>)
    ensures NoneDetected(Expectations(examples, []))
  {
    if examples != [] {
      var e := examples[|examples| - 1];
      NoRulesDetectNothing(examples[..|examples| - 1]);
      assert Detected(e.content, []) == [];
      NothingDetected(e, e.expected);
    }
  }

  lemma {:induction false} MentionedIff(xs: seq<Expectation>, c: Category)
    ensures Mentions(xs, c) <==> CountsIn(xs, c) != []
  {
    if xs != [] {
      var init, x := xs[..|xs| - 1], xs[|xs| - 1];
      MentionedIff(init, c);
      MentionsSnoc(init, x, c);
      assert xs == init + [x];
    }
  }

  /** With no rules at all the report misses every positive count and credits
      every negative one. */
  lemma WithoutRules(examples: seq<CorpusExample>, c: Category)
    requires Labels(examples, c) != []
    ensures var ev, d := EvaluationFor(examples, []), DetectedTotal(Expectations(examples, []), c);
            && EvaluationOf(ev, examples, []) && c in ev.perCategory
            && (MissIn(ev.misses, c) <==> SomePositive(Labels(examples, c)))
            && (d < 0 <==> SomeNegative(Labels(examples, c))) && d <= 0
  {
    var xs := Expectations(examples, []);
    EvaluationExists(examples, []);
    ExpectedAreLabels(examples, [], c);
    MentionedIff(xs, c);
    EvaluationShows(EvaluationFor(examples, []), examples, [], c);
    NoRulesDetectNothing(examples);
    MissNeedsPositive(xs, c);
    CreditSign(xs, c);
  }

  /** Whatever the rules, recall is one just when nothing was missed: that holds
      exactly of labels that do not sum to zero or are all zero. */
  lemma RecallReflectsMissesIff(examples: seq<CorpusExample>, c: Category)
    ensures (forall rules: seq<DetectionRule>, ev: CorpusEvaluation ::
               EvaluationOf(ev, examples, rules) ==> RecallReflectsMisses(ev, c))
       <==> SumOf(Labels(examples, c)) != 0 || forall i :: 0 <= i < |Labels(examples, c)| ==> Labels(examples, c)[i] == 0
  {
    var ns := Labels(examples, c);
    SumSign(ns);
    NoSigns(ns);
    if SumOf(ns) == 0 && SomePositive(ns) {
      WithoutRules(examples, c);
      RecallIsOneIff(EvaluationFor(examples, []), examples, [], c);
      assert !RecallReflectsMisses(EvaluationFor(examples, []), c);
    } else {
      forall rules: seq<DetectionRule>, ev: CorpusEvaluation | EvaluationOf(ev, examples, rules)
        ensures RecallReflectsMisses(ev, c)
      {
        if c in ev.perCategory {
          RecallIsOneIff(ev, examples, rules, c);
          EvaluationShows(ev, examples, rules, c);
          ExpectedAreLabels(examples, rules, c);
          MissNeedsPositive(Expectations(examples, rules), c);
        }
      }
    }
  }

  lemma NoSigns(ns: seq<int>)
    ensures (forall i :: 0 <= i < |ns| ==> ns[i] == 0) <==> !SomePositive(ns) && !SomeNegative(ns)
    ensures SumOf(ns) == 0 && !SomePositive(ns) ==> !SomeNegative(ns)
  {
    SumNegative(ns);
  }

  lemma {:induction false} SumNegative(ns: seq<int>)
    ensures !SomePositive(ns) && SomeNegative(ns) ==> SumOf(ns) < 0
    ensures !SomePositive(ns) ==> SumOf(ns) <= 0
  {
    if ns != [] {
      SumNegative(ns[..|ns| - 1]);
      PositiveSnoc(ns[..|ns| - 1], ns[|ns| - 1]);
      assert ns == ns[..|ns| - 1] + [ns[|ns| - 1]];
    }
  }

  lemma FractionAlways(ev: CorpusEvaluation, examples: seq<CorpusExample>, rules: seq<DetectionRule>, c: Category)
    requires EvaluationOf(ev, examples, rules)
    requires SumOf(Labels(examples, c)) == 0 || !SomePositive(Labels(examples, c)) || !SomeNegative(Labels(examples, c))
    ensures RecallIsFraction(ev, c)
  {
    if c in ev.perCategory {
      var xs := Expectations(examples, rules);
      EvaluationShows(ev, examples, rules, c);
      ExpectedAreLabels(examples, rules, c);
      RecallIsOneIffNoMiss(xs, c);
      MissNeedsPositive(xs, c);
      CreditSign(xs, c);
      SumSign(Labels(examples, c));
    }
  }

  /** Whatever the rules, recall is a fraction: that holds exactly of labels that
      sum to zero or do not mix positive with negative counts. */
  lemma RecallIsFractionIff(examples: seq<CorpusExample>, c: Category)
    ensures (forall rules: seq<DetectionRule>, ev: CorpusEvaluation ::
               EvaluationOf(ev, examples, rules) ==> RecallIsFraction(ev, c))
       <==> SumOf(Labels(examples, c)) == 0 || !SomePositive(Labels(examples, c)) || !SomeNegative(Labels(examples, c))
  {
    var ns := Labels(examples, c);
    if SumOf(ns) == 0 || !SomePositive(ns) || !SomeNegative(ns) {
      forall rules: seq<DetectionRule>, ev: CorpusEvaluation | EvaluationOf(ev, examples, rules)
        ensures RecallIsFraction(ev, c)
      {
        FractionAlways(ev, examples, rules, c);
      }
    } else {
      WithoutRules(examples, c);
      EvaluationShows(EvaluationFor(examples, []), examples, [], c);
      RecallIsOneIffNoMiss(Expectations(examples, []), c);
      assert !RecallIsFraction(EvaluationFor(examples, []), c);
    }
  }

  /** Two labelled examples the corpus loader lets through: when the rules overlook
      the secret in the first, the report lists the miss and shows full recall. */
  lemma NegativeCountHidesMiss(content: string, digestA: string, digestB: string, rules: seq<DetectionRule>,
                               ev: CorpusEvaluation)
    requires Detected(content, rules) == []
    requires EvaluationOf(ev, [CorpusExample("a", true, content, digestA, [(Secrets, 1)]),
                               CorpusExample("b", true, "", digestB, [(Secrets, -1)])], rules)
    ensures Secrets in ev.perCategory && MissIn(ev.misses, Secrets) && ev.perCategory[Secrets].Recall() == 1.0
  {
    CancellingLabels(CorpusExample("a", true, content, digestA, [(Secrets, 1)]),
                     CorpusExample("b", true, "", digestB, [(Secrets, -1)]), rules, Secrets, 1, ev);
  }

  lemma TwoLabels(a: CorpusExample, b: CorpusExample, rules: seq<DetectionRule>, c: Category, n: int, m: int)
    requires a.positive && b.positive && a.expected == [(c, n)] && b.expected == [(c, m)]
    ensures Expectations([a, b], rules) == [ExpectationOf(a, Detected(a.content, rules), (c, n)),
                                            ExpectationOf(b, Detected(b.content, rules), (c, m))]
    ensures SumOf(Labels([a, b], c)) == n + m
  {
    OneLabel(a, [], rules, c, n);
    OneLabel(b, [a], rules, c, m);
    assert [] + [a] == [a] && [a] + [b] == [a, b];
  }

  lemma CancellingLabels(a: CorpusExample, b: CorpusExample, rules: seq<DetectionRule>, c: Category, n: int,
                         ev: CorpusEvaluation)
    requires a.positive && b.positive && a.expected == [(c, n)] && b.expected == [(c, -n)] && n > 0
    requires Detected(a.content, rules) == [] && EvaluationOf(ev, [a, b], rules)
    ensures c in ev.perCategory && MissIn(ev.misses, c) && ev.perCategory[c].Recall() == 1.0
  {
    var xs := Expectations([a, b], rules);
    TwoLabels(a, b, rules, c, n, -n);
    assert xs[0].category == c && xs[0].Missed();
    assert Mentions(xs, c) && MissedSome(xs, c);
    EvaluationShows(ev, [a, b], rules, c);
    RecallIsOneIff(ev, [a, b], rules, c);
  }

  lemma OneLabel(e: CorpusExample, before: seq<CorpusExample>, rules: seq<DetectionRule>, c: Category, n: int)
    requires e.positive && e.expected == [(c, n)]
    ensures Expectations(before + [e], rules)
         == Expectations(before, rules) + [ExpectationOf(e, Detected(e.content, rules), (c, n))]
    ensures SumOf(Labels(before + [e], c)) == SumOf(Labels(before, c)) + n
  {
    assert (before + [e])[..|before|] == before;
    assert e.expected[..0] == [];
    assert ExpectationsOf(e, Detected(e.content, rules), e.expected[..0]) == [];
    assert LabelsIn(e.expected[..0], c) == [];
    var ns := Labels(before, c);
    assert (ns + [n])[..|ns|] == ns;
  }

  /** Without misses every recall is one, whatever the signs of the counts. */
  lemma FullRecallWithoutMisses(xs: seq<Expectation>, c: Category)
    requires MissesOf(xs) == []
    ensures CategoryMetrics(ExpectedTotal(xs, c), DetectedTotal(xs, c)).Recall() == 1.0
  {
    NoMissesIff(xs);
    CreditTotals(xs, c);
    assert !MissedSome(xs, c);
    if ExpectedTotal(xs, c) != 0 {
      SelfRatio(ExpectedTotal(xs, c) as real);
    }
  }

  lemma SelfRatio(x: real)
    requires x != 0.0
    ensures x / x == 1.0
  {
  }

  lemma SetBound(hits: seq<FalsePositiveHit>)
    ensures hits == [] ==> FlaggedIds(hits) == {}
  {
  }

  /** The gate: for any thresholds a corpus could clear at all, it passes exactly
      when nothing was missed and nothing clean was flagged. The thresholds'
      slack never lets a miss or a false positive through. */
  lemma PassesIffNothingWrong(ev: CorpusEvaluation, examples: seq<CorpusExample>, rules: seq<DetectionRule>, thresholds: Thresholds)
    requires EvaluationOf(ev, examples, rules)
    requires thresholds.minSecretRecall <= 1.0 && thresholds.minPiiRecall <= 1.0 && thresholds.maxFalsePositiveRate >= 0.0
    ensures Cleared(ev, thresholds) <==> ev.misses == [] && ev.falsePositives == []
  {
    if ev.misses == [] && ev.falsePositives == [] {
      SetBound(ev.falsePositives);
      forall c: Category ensures Clears(ev, thresholds, c) {
        FullRecallWithoutMisses(Expectations(examples, rules), c);
      }
    }
  }

  lemma {:induction false} HitsEmptyIff(e: CorpusExample, fs: seq<Finding>)
    ensures HitsOf(e, fs) == [] <==> fs == []
  {
  }

  /** Nothing in the example counts as a false positive. */
  predicate LeftAlone(e: CorpusExample, rules: seq<DetectionRule>) {
    e.positive || Detected(e.content, rules) == []
  }

  predicate AllLeftAlone(examples: seq<CorpusExample>, rules: seq<DetectionRule>) {
    forall e :: e in examples ==> LeftAlone(e, rules)
  }

  lemma FalsePositivesStep(examples: seq<CorpusExample>, rules: seq<DetectionRule>, n: nat)
    requires n < |examples|
    ensures FalsePositives(examples[..n + 1], rules) == [] <==>
              FalsePositives(examples[..n], rules) == [] && LeftAlone(examples[n], rules)
  {
    var e := examples[n];
    ExampleStep(examples, rules, n);
    HitsEmptyIff(e, Detected(e.content, rules));
  }

  lemma AllLeftAloneStep(examples: seq<CorpusExample>, rules: seq<DetectionRule>, n: nat)
    requires n < |examples|
    ensures AllLeftAlone(examples[..n + 1], rules) <==> AllLeftAlone(examples[..n], rules) && LeftAlone(examples[n], rules)
  {
  }

  lemma {:induction false} QuietUpTo(examples: seq<CorpusExample>, rules: seq<DetectionRule>, n: nat)
    requires n <= |examples|
    ensures FalsePositives(examples[..n], rules) == [] <==> AllLeftAlone(examples[..n], rules)
  {
    if n > 0 {
      QuietUpTo(examples, rules, n - 1);
      FalsePositivesStep(examples, rules, n - 1);
      AllLeftAloneStep(examples, rules, n - 1);
    }
  }

  /** There is a false positive exactly when some clean example trips a rule. */
  lemma NoFalsePositivesIff(examples: seq<CorpusExample>, rules: seq<DetectionRule>)
    ensures FalsePositives(examples, rules) == [] <==> AllLeftAlone(examples, rules)
  {
    QuietUpTo(examples, rules, |examples|);
    assert examples[..|examples|] == examples;
  }

  lemma {:induction false} HitIds(e: CorpusExample, fs: seq<Finding>)
    ensures FlaggedIds(HitsOf(e, fs)) <= {e.id}
  {
    if fs != [] {
      HitIds(e, fs[..|fs| - 1]);
      FlaggedUnion(HitsOf(e, fs[..|fs| - 1]), HitsOf(e, fs)[|HitsOf(e, fs)| - 1..]);
      assert HitsOf(e, fs) == HitsOf(e, fs[..|fs| - 1]) + HitsOf(e, fs)[|HitsOf(e, fs)| - 1..];
    }
  }

  lemma FlaggedUnion(a: seq<FalsePositiveHit>, b: seq<FalsePositiveHit>)
    ensures FlaggedIds(a + b) == FlaggedIds(a) + FlaggedIds(b)
  {
    forall id ensures id in FlaggedIds(a + b) <==> id in FlaggedIds(a) || id in FlaggedIds(b) {
      if id in FlaggedIds(a) {
        var i :| 0 <= i < |a| && a[i].exampleId == id;
        assert (a + b)[i] == a[i];
      }
      if id in FlaggedIds(b) {
        var i :| 0 <= i < |b| && b[i].exampleId == id;
        assert (a + b)[|a| + i] == b[i];
      }
    }
  }

  /** The false-positive rate is a fraction of the clean examples. */
  lemma {:induction false} FlaggedAtMostClean(examples: seq<CorpusExample>, rules: seq<DetectionRule>)
    ensures |FlaggedIds(FalsePositives(examples, rules))| <= CleanCount(examples)
  {
    if examples != [] {
      var init, e := examples[..|examples| - 1], examples[|examples| - 1];
      FlaggedAtMostClean(init, rules);
      if e.positive {
        assert FalsePositives(examples, rules) == FalsePositives(init, rules);
      } else {
        var own := HitsOf(e, Detected(e.content, rules));
        FlaggedUnion(FalsePositives(init, rules), own);
        HitIds(e, Detected(e.content, rules));
        SubsetSize(FlaggedIds(own), e.id);
      }
    } else {
      SetBound([]);
    }
  }

  lemma SubsetSize(s: set<string>, x: string)
    requires s <= {x}
    ensures |s| <= 1
  {
    if x in s {
      assert s == {x};
    } else {
      assert s == {};
    }
  }
}
