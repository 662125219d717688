/** Running detection rules over text. What a rule's pattern matches is left
    open; how matches become an ordered list of findings is not. */
module Detection {
  import opened Wrappers
  import opened Sorting
  import opened Ordering

  /** `Clean` labels corpus examples; no shipped rule reports it. */
  datatype Category = Secrets | Pii | PromptInjection | Clean

  datatype Match = Match(start: nat, end: nat, text: string)

  /** `find` is the pattern's match iterator over a text. */
  datatype DetectionRule = DetectionRule(ruleId: string, category: Category, find: string -> seq<Match>,
                                         validator: Option<Match -> bool>)

  datatype Finding = Finding(category: Category, ruleId: string, start: nat, end: nat, matchedText: string)

  function ToFinding(rule: DetectionRule, m: Match): Finding {
    Finding(rule.category, rule.ruleId, m.start, m.end, m.text)
  }

  predicate Accepts(rule: DetectionRule, m: Match) {
    rule.validator.None? || rule.validator.value(m)
  }

  predicate LeFinding(f: Finding, g: Finding) {
    || f.start < g.start
    || (f.start == g.start && (f.end < g.end || (f.end == g.end && LeString(f.ruleId, g.ruleId))))
  }

  lemma LeFindingIsOrder()
    ensures IsTotal(LeFinding) && IsTransitive(LeFinding)
  {
    LeStringIsOrder();
    forall f: Finding, g: Finding ensures LeFinding(f, g) || LeFinding(g, f) {
      LeStringTotal(f.ruleId, g.ruleId);
    }
    forall f: Finding, g: Finding, h: Finding | LeFinding(f, g) && LeFinding(g, h) ensures LeFinding(f, h) {
      if LeString(f.ruleId, g.ruleId) && LeString(g.ruleId, h.ruleId) {
        LeStringTransitive(f.ruleId, g.ruleId, h.ruleId);
      }
    }
  }

  /** The findings of the first `n` matches of a rule. */
  function RuleFindings(rule: DetectionRule, ms: seq<Match>): seq<Finding> {
    if ms == [] then []
    else
      var before := RuleFindings(rule, ms[..|ms| - 1]);
      if Accepts(rule, ms[|ms| - 1]) then before + [ToFinding(rule, ms[|ms| - 1])] else before
  }

  function AllFindings(content: string, rules: seq<DetectionRule>): seq<Finding> {
    if rules == [] then []
    else
      AllFindings(content, rules[..|rules| - 1])
      + RuleFindings(rules[|rules| - 1], rules[|rules| - 1].find(content))
  }

  function Detected(content: string, rules: seq<DetectionRule>): seq<Finding> {
    Sort(AllFindings(content, rules), LeFinding)
  }

  method Detect(content: string, rules: seq<DetectionRule>) returns (findings: seq<Finding>)
    ensures findings == Detected(content, rules)
  {
    findings := [];
    for i := 0 to |rules|
      invariant findings == AllFindings(content, rules[..i])
    {
      var rule := rules[i];
      var ms := rule.find(content);
      for j := 0 to |ms|
        invariant findings == AllFindings(content, rules[..i]) + RuleFindings(rule, ms[..j])
      {
        assert ms[..j + 1][..j] == ms[..j];
        if rule.validator.Some? && !rule.validator.value(ms[j]) {
          continue;
        }
        findings := findings + [ToFinding(rule, ms[j])];
      }
      assert ms[..|ms|] == ms;
      assert rules[..i + 1][..i] == rules[..i];
    }
    assert rules[..|rules|] == rules;
    findings := Sort(findings, LeFinding);
  }

  /** The finding stands for a match of the rule that its validator, if it has one,
      lets through. */
  ghost predicate Fires(rule: DetectionRule, content: string, f: Finding) {
    exists m :: m in rule.find(content)
      && (rule.validator.Some? ==> rule.validator.value(m))
      && f == Finding(rule.category, rule.ruleId, m.start, m.end, m.text)
  }

  lemma {:induction false} RuleFindingsAre(rule: DetectionRule, ms: seq<Match>, f: Finding)
    ensures f in RuleFindings(rule, ms) <==> exists m :: m in ms && Accepts(rule, m) && f == ToFinding(rule, m)
  {
    if ms != [] {
      var init, last := ms[..|ms| - 1], ms[|ms| - 1];
      RuleFindingsAre(rule, init, f);
      assert ms == init + [last];
    }
  }

  lemma {:induction false} AllFindingsAre(content: string, rules: seq<DetectionRule>, f: Finding)
    ensures f in AllFindings(content, rules) <==> exists i :: 0 <= i < |rules| && Fires(rules[i], content, f)
  {
    if rules != [] {
      var n := |rules| - 1;
      AllFindingsAre(content, rules[..n], f);
      RuleFindingsAre(rules[n], rules[n].find(content), f);
      assert forall i :: 0 <= i < n ==> rules[..n][i] == rules[i];
    }
  }

  /** Detection reports exactly the accepted matches of every rule, in order of
      start, end and rule id; a match its validator rejects never existed. */
  lemma DetectedAre(content: string, rules: seq<DetectionRule>)
    ensures var found := Detected(content, rules);
            forall i, j :: 0 <= i < j < |found| ==>
              || found[i].start < found[j].start
              || (found[i].start == found[j].start && found[i].end < found[j].end)
              || (found[i].start == found[j].start && found[i].end == found[j].end && LeString(found[i].ruleId, found[j].ruleId))
    ensures forall f :: f in Detected(content, rules) <==> exists i :: 0 <= i < |rules| && Fires(rules[i], content, f)
  {
    LeFindingIsOrder();
    var all := AllFindings(content, rules);
    SortSorted(all, LeFinding);
    SortPermutes(all, LeFinding);
    SameElements(Detected(content, rules), all);
    forall f ensures f in Detected(content, rules) <==> exists i :: 0 <= i < |rules| && Fires(rules[i], content, f) {
      AllFindingsAre(content, rules, f);
    }
  }

  /** What a match iterator yields lies inside the text it ran over. */
  ghost predicate Sound(rule: DetectionRule) {
    forall content: string, m: Match :: m in rule.find(content) ==> MatchOf(m, content)
  }

  predicate MatchOf(m: Match, content: string) {
    m.start <= m.end <= |content| && m.text == content[m.start..m.end]
  }

  predicate FoundIn(f: Finding, content: string) {
    f.start <= f.end <= |content| && f.matchedText == content[f.start..f.end]
  }

  lemma DetectedInBounds(content: string, rules: seq<DetectionRule>)
    requires forall i :: 0 <= i < |rules| ==> Sound(rules[i])
    ensures forall f :: f in Detected(content, rules) ==> FoundIn(f, content)
  {
    DetectedAre(content, rules);
    forall f | f in Detected(content, rules) ensures FoundIn(f, content) {
      var i :| 0 <= i < |rules| && Fires(rules[i], content, f);
      var m :| m in rules[i].find(content) && Accepts(rules[i], m) && f == ToFinding(rules[i], m);
      assert MatchOf(m, content);
    }
  }
}
