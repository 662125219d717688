/** What the figures of a corpus evaluation are, read off the examples and the
    findings themselves. */
module CorpusReports {
  import opened Wrappers
  import opened Sorting
  import opened Detection
  import opened DlpMetrics

  // -- the lists ---------------------------------------------------------------------

  /** Label `k` of the positive example `i` promises more than is found. */
  predicate MissedAt(examples: seq<CorpusExample>, rules: seq<DetectionRule>, i: nat, k: nat, m: Miss) {
    && i < |examples| && examples[i].positive && k < |examples[i].expected|
    && var e, (category, expected) := examples[i], examples[i].expected[k];
       var detected := DistinctSpans(Detected(e.content, rules), category);
       detected < expected && m == Miss(e.id, category, expected, detected, e.digest)
  }

  lemma {:induction false} MissesIn(xs: seq<Expectation>, m: Miss)
    ensures m in MissesOf(xs) <==>
              exists k :: 0 <= k < |xs| && xs[k].detected < xs[k].expected
                          && m == Miss(xs[k].exampleId, xs[k].category, xs[k].expected, xs[k].detected, xs[k].digest)
  {
    if xs != [] {
      MissesIn(xs[..|xs| - 1], m);
      assert xs == xs[..|xs| - 1] + [xs[|xs| - 1]];
    }
  }

  lemma {:induction false} ExpectationAt(e: CorpusExample, fs: seq<Finding>, pairs: seq<(Category, int)>, k: nat)
    requires k < |pairs|
    ensures ExpectationsOf(e, fs, pairs)[k] == Expectation(e.id, pairs[k].0, pairs[k].1, DistinctSpans(fs, pairs[k].0), e.digest)
  {
    if k < |pairs| - 1 {
      ExpectationAt(e, fs, pairs[..|pairs| - 1], k);
    }
  }

  lemma {:induction false} MissedInLast(e: CorpusExample, rules: seq<DetectionRule>, m: Miss)
    requires e.positive
    ensures m in MissesOf(ExpectationsOf(e, Detected(e.content, rules), e.expected)) <==> exists k: nat :: MissedAt([e], rules, 0, k, m)
  {
    var xs := ExpectationsOf(e, Detected(e.content, rules), e.expected);
    MissesIn(xs, m);
    forall k: nat | k < |xs|
      ensures MissedAt([e], rules, 0, k, m)
         <==> xs[k].detected < xs[k].expected && m == Miss(xs[k].exampleId, xs[k].category, xs[k].expected, xs[k].detected, xs[k].digest)
    {
      ExpectationAt(e, Detected(e.content, rules), e.expected, k);
    }
  }

  lemma {:induction false} MissesAppend(xs: seq<Expectation>, ys: seq<Expectation>)
    ensures MissesOf(xs + ys) == MissesOf(xs) + MissesOf(ys)
  {
    if ys == [] {
      assert xs + ys == xs;
    } else {
      var init, last := ys[..|ys| - 1], ys[|ys| - 1];
      MissesAppend(xs, init);
      assert xs + ys == (xs + init) + [last];
    }
  }

  ghost predicate MissedSomewhere(examples: seq<CorpusExample>, rules: seq<DetectionRule>, m: Miss) {
    exists i: nat, k: nat :: MissedAt(examples, rules, i, k, m)
  }

  lemma MissedSnoc(examples: seq<CorpusExample>, e: CorpusExample, rules: seq<DetectionRule>, m: Miss)
    ensures MissedSomewhere(examples + [e], rules, m) <==>
              MissedSomewhere(examples, rules, m) || exists k: nat :: MissedAt([e], rules, 0, k, m)
  {
    var more := examples + [e];
    if i: nat, k: nat :| MissedAt(more, rules, i, k, m) {
      if i < |examples| {
        assert MissedAt(examples, rules, i, k, m);
      } else {
        assert MissedAt([e], rules, 0, k, m);
      }
    }
    if i: nat, k: nat :| MissedAt(examples, rules, i, k, m) {
      assert MissedAt(more, rules, i, k, m);
    }
    if k: nat :| MissedAt([e], rules, 0, k, m) {
      assert MissedAt(more, rules, |examples|, k, m);
    }
  }

  /** The misses are exactly the labels of positive examples that promise more
      distinct spans than are found, each with both figures. */
  lemma {:induction false} MissListedIff(examples: seq<CorpusExample>, rules: seq<DetectionRule>, m: Miss)
    ensures m in MissesOf(Expectations(examples, rules)) <==> MissedSomewhere(examples, rules, m)
  {
    if examples != [] {
      var init, e := examples[..|examples| - 1], examples[|examples| - 1];
      MissListedIff(init, rules, m);
      assert examples == init + [e];
      MissedSnoc(init, e, rules, m);
      var xs := Expectations(init, rules);
      if e.positive {
        MissesAppend(xs, ExpectationsOf(e, Detected(e.content, rules), e.expected));
        MissedInLast(e, rules, m);
      } else {
        assert xs + [] == xs;
      }
    }
  }

  /** A finding in the clean example `i`. */
  ghost predicate HitAt(examples: seq<CorpusExample>, rules: seq<DetectionRule>, i: nat, h: FalsePositiveHit) {
    && i < |examples| && !examples[i].positive
    && exists f :: f in Detected(examples[i].content, rules)
                   && h == FalsePositiveHit(examples[i].id, f.category, f.ruleId, f.matchedText, examples[i].digest)
  }

  lemma {:induction false} HitsAre(e: CorpusExample, fs: seq<Finding>, h: FalsePositiveHit)
    ensures h in HitsOf(e, fs) <==> exists f :: f in fs && h == FalsePositiveHit(e.id, f.category, f.ruleId, f.matchedText, e.digest)
  {
    if fs != [] {
      HitsAre(e, fs[..|fs| - 1], h);
      assert fs == fs[..|fs| - 1] + [fs[|fs| - 1]];
    }
  }

  ghost predicate HitSomewhere(examples: seq<CorpusExample>, rules: seq<DetectionRule>, h: FalsePositiveHit) {
    exists i: nat :: HitAt(examples, rules, i, h)
  }

  lemma {:induction false} HitSnoc(examples: seq<CorpusExample>, e: CorpusExample, rules: seq<DetectionRule>, h: FalsePositiveHit)
    ensures HitSomewhere(examples + [e], rules, h) <==>
              HitSomewhere(examples, rules, h) || (!e.positive && h in HitsOf(e, Detected(e.content, rules)))
  {
    var more := examples + [e];
    HitsAre(e, Detected(e.content, rules), h);
    if i: nat :| HitAt(more, rules, i, h) {
      if i < |examples| {
        assert HitAt(examples, rules, i, h);
      } else {
        assert more[i] == e;
      }
    }
    if i: nat :| HitAt(examples, rules, i, h) {
      assert HitAt(more, rules, i, h);
    }
    if !e.positive && h in HitsOf(e, Detected(e.content, rules)) {
      assert HitAt(more, rules, |examples|, h);
    }
  }

  /** The false positives are exactly the findings in clean examples. */
  lemma {:induction false} HitListedIff(examples: seq<CorpusExample>, rules: seq<DetectionRule>, h: FalsePositiveHit)
    ensures h in FalsePositives(examples, rules) <==> HitSomewhere(examples, rules, h)
  {
    if examples != [] {
      var init, e := examples[..|examples| - 1], examples[|examples| - 1];
      HitListedIff(init, rules, h);
      HitSnoc(init, e, rules, h);
      assert examples == init + [e];
    }
  }

  // -- the counts --------------------------------------------------------------------

  function Polarities(examples: seq<CorpusExample>): seq<bool> {
    seq(|examples|, i requires 0 <= i < |examples| => examples[i].positive)
  }

  lemma {:induction false} CleanAre(examples: seq<CorpusExample>)
    ensures CleanCount(examples) == multiset(Polarities(examples))[false]
  {
    if examples != [] {
      var init, e := examples[..|examples| - 1], examples[|examples| - 1];
      CleanAre(init);
      assert Polarities(examples) == Polarities(init) + [e.positive];
    }
  }

  /** No label of the example names the finding's category. */
  predicate Foreign(e: CorpusExample, f: Finding) {
    forall p :: p in e.expected ==> p.0 != f.category
  }

  function ForeignFlags(e: CorpusExample, fs: seq<Finding>): seq<bool> {
    seq(|fs|, i requires 0 <= i < |fs| => Foreign(e, fs[i]))
  }

  /** Of every finding in a positive example, whether it is foreign. */
  function AllFlags(examples: seq<CorpusExample>, rules: seq<DetectionRule>): seq<bool> {
    if examples == [] then []
    else
      var e := examples[|examples| - 1];
      AllFlags(examples[..|examples| - 1], rules) + if e.positive then ForeignFlags(e, Detected(e.content, rules)) else []
  }

  lemma ForeignIff(e: CorpusExample, f: Finding)
    ensures Foreign(e, f) <==> !Expects(e.expected, f.category)
  {
    if Expects(e.expected, f.category) {
      var i :| 0 <= i < |e.expected| && e.expected[i].0 == f.category;
      assert e.expected[i] in e.expected;
    }
  }

  lemma {:induction false} ForeignAre(e: CorpusExample, fs: seq<Finding>)
    ensures ForeignCount(e.expected, fs) == multiset(ForeignFlags(e, fs))[true]
  {
    if fs != [] {
      var init, f := fs[..|fs| - 1], fs[|fs| - 1];
      ForeignAre(e, init);
      ForeignIff(e, f);
      assert ForeignFlags(e, fs) == ForeignFlags(e, init) + [Foreign(e, f)];
    }
  }

  lemma {:induction false} CrossCategoryAre(examples: seq<CorpusExample>, rules: seq<DetectionRule>)
    ensures CrossCategory(examples, rules) == multiset(AllFlags(examples, rules))[true]
  {
    if examples != [] {
      var init, e := examples[..|examples| - 1], examples[|examples| - 1];
      CrossCategoryAre(init, rules);
      ForeignAre(e, Detected(e.content, rules));
    }
  }

  /** The clean examples with a finding, by id. */
  lemma FlaggedIff(examples: seq<CorpusExample>, rules: seq<DetectionRule>, id: string)
    ensures id in FlaggedIds(FalsePositives(examples, rules)) <==>
              exists i :: 0 <= i < |examples| && !examples[i].positive && examples[i].id == id && Detected(examples[i].content, rules) != []
  {
    var hits := FalsePositives(examples, rules);
    if id in FlaggedIds(hits) {
      var k :| 0 <= k < |hits| && hits[k].exampleId == id;
      assert hits[k] in hits;
      HitListedIff(examples, rules, hits[k]);
    }
    if i :| 0 <= i < |examples| && !examples[i].positive && examples[i].id == id && Detected(examples[i].content, rules) != [] {
      var f := Detected(examples[i].content, rules)[0];
      var h := FalsePositiveHit(id, f.category, f.ruleId, f.matchedText, examples[i].digest);
      assert HitAt(examples, rules, i, h);
      HitListedIff(examples, rules, h);
      var k :| 0 <= k < |hits| && hits[k] == h;
    }
  }

  /** The reported counts: clean examples, findings no label of their example
      names, and the flagged share of the clean examples, nothing when there are
      none. */
  lemma ReportedCounts(ev: CorpusEvaluation, examples: seq<CorpusExample>, rules: seq<DetectionRule>)
    requires EvaluationOf(ev, examples, rules)
    ensures ev.cleanExamples == multiset(Polarities(examples))[false]
    ensures ev.crossCategoryFindings == multiset(AllFlags(examples, rules))[true]
    ensures ev.FalsePositiveRate() ==
            if false in Polarities(examples) then |FlaggedIds(ev.falsePositives)| as real / ev.cleanExamples as real else 0.0
  {
    CleanAre(examples);
    CrossCategoryAre(examples, rules);
  }

  /** The gate: nothing missed, nothing clean flagged, the rate within its bound,
      and the two gated recalls at least their own minimum; injection recall is
      reported and not gated. */
  lemma GateIs(ev: CorpusEvaluation, thresholds: Thresholds)
    ensures Cleared(ev, thresholds) <==>
              && ev.misses == [] && ev.falsePositives == []
              && ev.FalsePositiveRate() <= thresholds.maxFalsePositiveRate
              && (Secrets in ev.perCategory ==> ev.perCategory[Secrets].Recall() >= thresholds.minSecretRecall)
              && (Pii in ev.perCategory ==> ev.perCategory[Pii].Recall() >= thresholds.minPiiRecall)
  {
    if Cleared(ev, thresholds) {
      assert Clears(ev, thresholds, Secrets) && Clears(ev, thresholds, Pii);
    }
  }
}
