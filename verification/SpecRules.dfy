/** What a valid campaign spec promises, written out independently of the checks
    that enforce it, and in terms of the components that will run it. */
module SpecRules {
  import opened Wrappers
  import opened SpecJson
  import opened SpecSections
  import opened CampaignSpecs
  import opened Arms

  import Bootstrap
  import CampaignBudgets
  import Compensation
  import Holdouts
  import Resampling
  import Statistics

  // -- the shapes of names -----------------------------------------------------------

  const HEX_DIGITS := "0123456789abcdef"

  lemma HexIff(c: char)
    ensures IsHex(c) <==> c in HEX_DIGITS
  {
  }

  ghost predicate DigestText(s: string) {
    exists hex: string :: |hex| == 64 && (forall i :: 0 <= i < |hex| ==> hex[i] in HEX_DIGITS) && s == "sha256:" + hex
  }

  /** A digest is the algorithm's name and 64 lower-case hexadecimal digits. */
  lemma DigestIff(s: string)
    ensures IsDigest(s) <==> DigestText(s)
  {
    if IsDigest(s) {
      var hex := s[7..];
      forall i | 0 <= i < |hex| ensures hex[i] in HEX_DIGITS {
        HexIff(s[i + 7]);
      }
      assert s == "sha256:" + hex;
    }
    if hex: string :| |hex| == 64 && (forall i :: 0 <= i < |hex| ==> hex[i] in HEX_DIGITS) && s == "sha256:" + hex {
      forall i | 7 <= i < 71 ensures IsHex(s[i]) {
        HexIff(hex[i - 7]);
      }
    }
  }

  /** An image is pinned when a digest marker occurs anywhere in it. */
  lemma PinnedIff(s: string)
    ensures IsPinnedImage(s) <==> exists before: string, after: string :: s == before + "@sha256:" + after
  {
    if IsPinnedImage(s) {
      var i :| 0 <= i <= |s| && MarkerAt(s, "@sha256:", i);
      assert s == s[..i] + "@sha256:" + s[i + 8..];
    }
    if before: string, after: string :| s == before + "@sha256:" + after {
      assert MarkerAt(s, "@sha256:", |before|);
    }
  }

  function Joined(segments: seq<string>): string
    requires segments != []
  {
    if |segments| == 1 then segments[0] else segments[0] + "/" + Joined(segments[1..])
  }

  /** The segments are what stands between the slashes: none holds one, and put
      together with slashes they are the path. */
  lemma {:induction false} SegmentsAre(path: string)
    ensures Segments(path) != [] && Joined(Segments(path)) == path
    ensures forall i :: 0 <= i < |Segments(path)| ==> '/' !in Segments(path)[i]
  {
    if path != "" {
      SegmentsAre(path[1..]);
      var rest := Segments(path[1..]);
      if path[0] == '/' {
        assert Joined([""] + rest) == "" + "/" + Joined(rest);
      } else {
        var head := [path[0]] + rest[0];
        assert Segments(path) == [head] + rest[1..];
        assert ([head] + rest[1..])[1..] == rest[1..];
        assert '/' !in head;
      }
      assert path == [path[0]] + path[1..];
    }
  }

  // -- counting by kind ----------------------------------------------------------------

  function Kinds(arms: seq<Arm>): seq<ArmKind> {
    seq(|arms|, i requires 0 <= i < |arms| => arms[i].kind)
  }

  lemma {:induction false} CountKindIs(arms: seq<Arm>, k: ArmKind)
    ensures CountKind(arms, k) == multiset(Kinds(arms))[k]
  {
    if arms != [] {
      CountKindIs(arms[1..], k);
      assert Kinds(arms) == [arms[0].kind] + Kinds(arms[1..]);
    }
  }

  /** Where a type has at most one artifact, it is counted once when it has any. */
  lemma {:induction false} OneTypeIff(xs: seq<MutableArtifact>, t: string)
    requires forall i, j :: 0 <= i < j < |xs| ==> xs[i].artifactType != xs[j].artifactType
    ensures CountType(xs, t) == 1 <==> exists i :: 0 <= i < |xs| && xs[i].artifactType == t
    ensures CountType(xs, t) <= 1
  {
    if xs != [] {
      OneTypeIff(xs[1..], t);
      assert forall j :: 0 <= j < |xs| - 1 ==> xs[1..][j] == xs[j + 1];
      assert forall j :: 0 < j < |xs| ==> xs[j] == xs[1..][j - 1];
    }
  }

  // -- what the sections are good for --------------------------------------------------

  /** The statistics section holds exactly what the bootstrap will accept, for any
      paired scores, and a family of distinct names. */
  lemma StatisticsServe(env: Env, x: StatisticsPlan, baseline: seq<real>, candidate: seq<real>, seed: int,
                        draws: Statistics.IndexStream)
    requires |baseline| == |candidate| > 0
    ensures ValidStatistics(env, x) <==>
              && Bootstrap.BootstrapOf(baseline, candidate, x.iterations, x.alpha, seed, draws).Ok?
              && (x.sampleSize.Some? ==> x.sampleSize.value > 0)
              && (forall i :: 0 <= i < |x.ablationFamily| ==> Trimmed(env, x.ablationFamily[i]))
              && (forall i, j :: 0 <= i < j < |x.ablationFamily| ==> x.ablationFamily[i] != x.ablationFamily[j])
  {
    Resampling.AnswersIff(baseline, candidate, x.iterations, x.alpha, seed, draws);
  }

  /** The budgets section holds exactly the ceilings under which a campaign is not
      exhausted before it starts, and a known task profile. */
  lemma BudgetsServe(x: SpecBudgets)
    ensures ValidBudgets(x) <==>
              && x.profile in {"task-budget-v1", "task-budget-v2-executable"}
              && var budget := CampaignBudgets.CampaignBudget(x.maxProposals, x.maxModelTokens, x.maxMinutes, x.maxSandboxExecutions);
                 !CampaignBudgets.Exhausted(budget, CampaignBudgets.UNSPENT)
  {
  }

  /** The spec takes for a sealed handle whatever the dataset service can read a
      token from, and one text more: the bare scheme, which it never can. */
  lemma SealedHandleIff(h: string)
    ensures IsSealedHandle(h) <==> Holdouts.ParseHandleUri(h).Ok? || h == "holdout://"
    ensures Holdouts.ParseHandleUri("holdout://").Err?
  {
    if HasPrefix(h, "holdout://") && h[10..] == "" {
      assert h == h[..10] + h[10..];
    }
  }

  /** The compensation kinds a spec may name are the ones the gate knows. */
  lemma KindsKnown(action: string)
    ensures IsActionKind(action) <==> Compensation.IsKnownKind(action)
  {
  }

  /** Two actions on one class: only for the scaffold, its source restored first
      and its conformance suite rerun after. */
  predicate InTurn(a: CompensationAction, b: CompensationAction) {
    a.artifactType == "scaffold" && a.action == "restore_scaffold_source" && b.action == "rerun_conformance_suite"
  }

  predicate TwiceInTurn(xs: seq<CompensationAction>) {
    forall i, j :: 0 <= i < j < |xs| && xs[i].artifactType == xs[j].artifactType ==> InTurn(xs[i], xs[j])
  }

  predicate ScaffoldInTurn(xs: seq<CompensationAction>) {
    forall i, j :: 0 <= i < j < |xs| && xs[i].artifactType == "scaffold" && xs[j].artifactType == "scaffold" ==> InTurn(xs[i], xs[j])
  }

  lemma {:induction false} ScaffoldActionsAre(xs: seq<CompensationAction>, action: string)
    ensures action in ScaffoldActions(xs) <==> exists i :: 0 <= i < |xs| && xs[i].artifactType == "scaffold" && xs[i].action == action
  {
    if xs != [] {
      ScaffoldActionsAre(xs[1..], action);
      assert forall j :: 0 < j < |xs| ==> xs[j] == xs[1..][j - 1];
      assert forall j :: 0 <= j < |xs| - 1 ==> xs[1..][j] == xs[j + 1];
    }
  }

  lemma ScaffoldHas(xs: seq<CompensationAction>)
    ensures forall i :: 0 <= i < |xs| && xs[i].artifactType == "scaffold" ==> xs[i].action in ScaffoldActions(xs)
  {
    forall i | 0 <= i < |xs| && xs[i].artifactType == "scaffold" ensures xs[i].action in ScaffoldActions(xs) {
      ScaffoldActionsAre(xs, xs[i].action);
    }
  }

  lemma ScaffoldNone(xs: seq<CompensationAction>)
    ensures ScaffoldActions(xs) == [] <==> forall i :: 0 <= i < |xs| ==> xs[i].artifactType != "scaffold"
  {
    ScaffoldHas(xs);
    if ScaffoldActions(xs) != [] {
      ScaffoldActionsAre(xs, ScaffoldActions(xs)[0]);
    }
  }

  predicate FewOrInTurn(actions: seq<string>) {
    |actions| < 2 || actions == ["restore_scaffold_source", "rerun_conformance_suite"]
  }

  lemma {:induction false} ScaffoldInTurnIff(xs: seq<CompensationAction>)
    ensures FewOrInTurn(ScaffoldActions(xs)) <==> ScaffoldInTurn(xs)
  {
    if xs != [] {
      var rest := xs[1..];
      assert forall j :: 0 <= j < |rest| ==> rest[j] == xs[j + 1];
      ScaffoldInTurnIff(rest);
      ScaffoldNone(rest);
      ScaffoldHas(rest);
      if xs[0].artifactType == "scaffold" {
        FirstInTurn(xs);
      } else {
        assert ScaffoldActions(xs) == ScaffoldActions(rest);
        if ScaffoldInTurn(xs) {
          assert forall i, j :: 0 <= i < j < |rest| ==> rest[i] == xs[i + 1] && rest[j] == xs[j + 1];
        }
        if ScaffoldInTurn(rest) {
          forall i, j | 0 <= i < j < |xs| && xs[i].artifactType == "scaffold" && xs[j].artifactType == "scaffold"
            ensures InTurn(xs[i], xs[j])
          {
            assert InTurn(rest[i - 1], rest[j - 1]);
          }
        }
      }
    }
  }

  lemma FirstInTurn(xs: seq<CompensationAction>)
    requires xs != [] && xs[0].artifactType == "scaffold"
    requires FewOrInTurn(ScaffoldActions(xs[1..])) <==> ScaffoldInTurn(xs[1..])
    ensures FewOrInTurn(ScaffoldActions(xs)) <==> ScaffoldInTurn(xs)
  {
    var rest := xs[1..];
    var more := ScaffoldActions(rest);
    assert ScaffoldActions(xs) == [xs[0].action] + more;
    assert forall j :: 0 <= j < |rest| ==> rest[j] == xs[j + 1];
    ScaffoldNone(rest);
    ScaffoldHas(rest);
    if FewOrInTurn(ScaffoldActions(xs)) {
      assert |more| <= 1;
      forall i, j | 0 <= i < j < |xs| && xs[i].artifactType == "scaffold" && xs[j].artifactType == "scaffold"
        ensures InTurn(xs[i], xs[j])
      {
        assert rest[j - 1].action in more;
        if i > 0 {
          assert InTurn(rest[i - 1], rest[j - 1]);
        } else {
          assert ScaffoldActions(xs)[0] == xs[0].action && ScaffoldActions(xs)[1] == more[0];
          assert more == [rest[j - 1].action];
        }
      }
    }
    if ScaffoldInTurn(xs) {
      forall i, j | 0 <= i < j < |rest| && rest[i].artifactType == "scaffold" && rest[j].artifactType == "scaffold"
        ensures InTurn(rest[i], rest[j])
      {
        assert InTurn(xs[i + 1], xs[j + 1]);
      }
      if more != [] {
        ScaffoldActionsAre(rest, more[0]);
        var j :| 0 <= j < |rest| && rest[j].artifactType == "scaffold" && rest[j].action == more[0];
        assert InTurn(xs[0], xs[j + 1]);
      }
    }
  }

  lemma PairIs(actions: seq<string>)
    ensures |actions| >= 2 ==>
              (multiset(actions) == multiset([RESTORE, RERUN]) && actions[0] == RESTORE <==> actions == [RESTORE, RERUN])
  {
    if |actions| >= 2 && multiset(actions) == multiset([RESTORE, RERUN]) && actions[0] == RESTORE {
      assert |multiset(actions)| == 2;
      assert actions == [actions[0], actions[1]];
      assert multiset(actions) == multiset{actions[0], actions[1]};
      assert RERUN in multiset(actions);
    }
  }

  /** A plan is not empty and compensates each class once, or the scaffold twice in
      turn. */
  lemma PlanRulesIff(xs: seq<CompensationAction>)
    ensures ValidPlan(xs) <==> xs != [] && TwiceInTurn(xs)
  {
    ScaffoldInTurnIff(xs);
    PairIs(ScaffoldActions(xs));
    if TwiceInTurn(xs) {
      assert ScaffoldInTurn(xs);
    }
  }

  // -- the whole spec ------------------------------------------------------------------

  const ARTIFACT_TYPES: set<string> := {
    "memory_entry", "prompt_bundle", "demonstration_set", "compiled_prompt_program", "skill_package", "workflow_graph",
    "tool_spec", "skill_script", "algorithm", "harness_patch", "scaffold"}

  /** A path a mutation may touch: relative, untraversed, unprotected. */
  predicate Reachable(env: Env, path: string) {
    && path != "" && !env.blank(path[0]) && !env.blank(path[|path| - 1]) && !env.isProtected(path)
    && path[0] != '/' && (|path| == 1 || path[1] != ':') && ".." !in Segments(path)
  }

  /** The mutation surface: distinct artifact types, each with paths, one of them
      the incumbent's. */
  ghost predicate Surface(env: Env, s: CampaignSpec) {
    && s.artifacts != []
    && (forall i, j :: 0 <= i < j < |s.artifacts| ==> s.artifacts[i].artifactType != s.artifacts[j].artifactType)
    && (forall i :: 0 <= i < |s.artifacts| ==> s.artifacts[i].artifactType in ARTIFACT_TYPES && s.artifacts[i].paths != [])
    && (forall i, k :: 0 <= i < |s.artifacts| && 0 <= k < |s.artifacts[i].paths| ==> Reachable(env, s.artifacts[i].paths[k]))
    && (exists i :: 0 <= i < |s.artifacts| && s.artifacts[i].artifactType == s.incumbent.artifactType)
    && DigestText(s.incumbent.digest)
  }

  predicate ControlsOnce(arms: seq<Arm>) {
    forall k :: k in {ArmKind.Incumbent, RetrySelfConsistency, OneShotControl, ArmKind.Strategy} ==> multiset(Kinds(arms))[k] == 1
  }

  /** The trial: the three controls and the strategy once each, arms told apart by
      id, and no ablation outside the preregistered family. */
  predicate Trial(s: CampaignSpec) {
    && (forall i :: 0 <= i < |s.arms| ==> ValidArm(s.arms[i]))
    && (forall i, j :: 0 <= i < j < |s.arms| ==> s.arms[i].id != s.arms[j].id)
    && ControlsOnce(s.arms)
    && (forall i :: 0 <= i < |s.arms| && s.arms[i].kind == Ablation ==>
         s.arms[i].componentId.Some? && s.arms[i].componentId.value in s.statistics.ablationFamily)
  }

  predicate Scaffolded(s: CampaignSpec) {
    exists i :: 0 <= i < |s.artifacts| && s.artifacts[i].artifactType == "scaffold"
  }

  /** A campaign on the scaffold stays in research, under pinned mutation classes
      and policy, against a fixed editor; no other campaign pins that policy. */
  ghost predicate Contained(s: CampaignSpec) {
    if Scaffolded(s) then
      && s.environment == Some("research") && s.classes != []
      && s.tier4.Some? && DigestText(s.tier4.value)
      && multiset(Kinds(s.arms))[FixedEditor] == 1
    else
      s.tier4.None? && (s.environment.Some? ==> s.environment.value in {"research", "production"})
  }

  ghost predicate ClassRules(env: Env, s: CampaignSpec) {
    && (forall i, j :: 0 <= i < j < |s.classes| ==> s.classes[i].classId != s.classes[j].classId)
    && (forall i :: 0 <= i < |s.classes| ==> Trimmed(env, s.classes[i].classId) && DigestText(s.classes[i].dossier))
  }

  /** One action: a kind the gate knows, with a pinned hook exactly for the hook
      kind, and the scaffold's own kinds on the scaffold only. */
  ghost predicate ActionRule(a: CompensationAction) {
    && a.artifactType in ARTIFACT_TYPES && Compensation.IsKnownKind(a.action)
    && (a.hookImage.Some? <==> a.action == "run_compensation_hook")
    && (a.hookImage.Some? ==> IsPinnedImage(a.hookImage.value))
    && (a.action in {"restore_scaffold_source", "rerun_conformance_suite"} ==> a.artifactType == "scaffold")
  }

  ghost predicate PlanRules(s: CampaignSpec) {
    s.plan.Some? ==>
      var xs := s.plan.value;
      && xs != [] && TwiceInTurn(xs)
      && (forall i :: 0 <= i < |xs| ==> ActionRule(xs[i]))
      && (forall i :: 0 <= i < |xs| ==> exists k :: 0 <= k < |s.artifacts| && s.artifacts[k].artifactType == xs[i].artifactType)
  }

  /** The sections that stand alone. */
  ghost predicate Sections(env: Env, s: CampaignSpec) {
    && s.strategy.pluginId != "" && IsPinnedImage(s.strategy.pinnedImage)
    && s.datasets.dev != "" && s.datasets.selection != ""
    && (Holdouts.ParseHandleUri(s.datasets.holdout).Ok? || s.datasets.holdout == "holdout://")
    && s.evaluators != []
    && (forall i :: 0 <= i < |s.evaluators| ==>
         s.evaluators[i].name != "" && IsPinnedImage(s.evaluators[i].pinnedImage) && s.evaluators[i].stage >= 0)
    && s.policy.policyId != "" && DigestText(s.policy.digest)
    && s.stopping.maxRounds > 0 && s.stopping.maxNoImprovementRounds > 0
    && ValidBudgets(s.budgets) && ValidStatistics(env, s.statistics)
  }

  lemma MaskPathIff(env: Env, path: string)
    ensures IsMaskPath(env, path) <==> Reachable(env, path)
  {
  }

  lemma ArtifactsIff(env: Env, xs: seq<MutableArtifact>)
    ensures ValidArtifacts(env, xs) <==>
              && xs != []
              && (forall i, j :: 0 <= i < j < |xs| ==> xs[i].artifactType != xs[j].artifactType)
              && (forall i :: 0 <= i < |xs| ==> xs[i].artifactType in ARTIFACT_TYPES && xs[i].paths != [])
              && (forall i, k :: 0 <= i < |xs| && 0 <= k < |xs[i].paths| ==> Reachable(env, xs[i].paths[k]))
  {
    forall i, k | 0 <= i < |xs| && 0 <= k < |xs[i].paths| ensures IsMaskPath(env, xs[i].paths[k]) <==> Reachable(env, xs[i].paths[k]) {
      MaskPathIff(env, xs[i].paths[k]);
    }
    forall i | 0 <= i < |xs|
      ensures ValidArtifact(env, xs[i]) <==>
                && xs[i].artifactType in ARTIFACT_TYPES && xs[i].paths != []
                && forall k :: 0 <= k < |xs[i].paths| ==> Reachable(env, xs[i].paths[k])
    {
    }
    assert NoRepeats(Types(xs)) <==> forall i, j :: 0 <= i < j < |xs| ==> xs[i].artifactType != xs[j].artifactType by {
      forall i, j | 0 <= i < j < |xs| ensures Types(xs)[i] == xs[i].artifactType && Types(xs)[j] == xs[j].artifactType {
      }
    }
  }

  lemma SurfaceIff(env: Env, s: CampaignSpec)
    ensures ValidArtifacts(env, s.artifacts) && ValidIncumbent(s.incumbent) && CountType(s.artifacts, s.incumbent.artifactType) == 1
       <==> Surface(env, s)
  {
    ArtifactsIff(env, s.artifacts);
    DigestIff(s.incumbent.digest);
    if forall i, j :: 0 <= i < j < |s.artifacts| ==> s.artifacts[i].artifactType != s.artifacts[j].artifactType {
      OneTypeIff(s.artifacts, s.incumbent.artifactType);
    }
  }

  lemma ControlsIff(arms: seq<Arm>)
    ensures ControlsOnce(arms) <==>
              && CountKind(arms, ArmKind.Incumbent) == 1 && CountKind(arms, RetrySelfConsistency) == 1
              && CountKind(arms, OneShotControl) == 1 && CountKind(arms, ArmKind.Strategy) == 1
    ensures ControlsOnce(arms) ==> arms != []
  {
    CountKindIs(arms, ArmKind.Incumbent);
    CountKindIs(arms, RetrySelfConsistency);
    CountKindIs(arms, OneShotControl);
    CountKindIs(arms, ArmKind.Strategy);
  }

  lemma TrialIff(s: CampaignSpec)
    ensures (forall i :: 0 <= i < |s.arms| ==> ValidArm(s.arms[i])) && ArmsFramed(s)
       <==> Trial(s) && (HasScaffold(s) ==> multiset(Kinds(s.arms))[FixedEditor] == 1)
  {
    ControlsIff(s.arms);
    CountKindIs(s.arms, FixedEditor);
    IdsIff(s.arms);
  }

  lemma IdsIff(arms: seq<Arm>)
    ensures NoRepeats(ArmIds(arms)) <==> forall i, j :: 0 <= i < j < |arms| ==> arms[i].id != arms[j].id
  {
    forall i, j | 0 <= i < j < |arms| ensures ArmIds(arms)[i] == arms[i].id && ArmIds(arms)[j] == arms[j].id {
    }
  }

  lemma ClassesIff(env: Env, s: CampaignSpec)
    ensures ValidClasses(env, s.classes) && NoRepeats(ClassIds(s.classes)) <==> ClassRules(env, s)
  {
    forall i | 0 <= i < |s.classes| ensures ValidClass(env, s.classes[i]) <==> Trimmed(env, s.classes[i].classId) && DigestText(s.classes[i].dossier) {
      DigestIff(s.classes[i].dossier);
    }
    forall i, j | 0 <= i < j < |s.classes| ensures ClassIds(s.classes)[i] == s.classes[i].classId && ClassIds(s.classes)[j] == s.classes[j].classId {
    }
  }

  lemma ActionIff(a: CompensationAction)
    ensures ValidAction(a) <==> ActionRule(a)
  {
    KindsKnown(a.action);
  }

  lemma PlanIff(s: CampaignSpec)
    ensures (s.plan.Some? ==> ValidActions(s.plan.value)) && PlanInScope(s) <==> PlanRules(s)
  {
    if s.plan.Some? {
      var xs := s.plan.value;
      PlanRulesIff(xs);
      forall i | 0 <= i < |xs| ensures ValidAction(xs[i]) <==> ActionRule(xs[i]) {
        ActionIff(xs[i]);
      }
      forall i | 0 <= i < |xs|
        ensures xs[i].artifactType in Types(s.artifacts)
           <==> exists k :: 0 <= k < |s.artifacts| && s.artifacts[k].artifactType == xs[i].artifactType
      {
        OnSurface(s.artifacts, xs[i].artifactType);
      }
    }
  }

  lemma OnSurface(artifacts: seq<MutableArtifact>, t: string)
    ensures t in Types(artifacts) <==> exists k :: 0 <= k < |artifacts| && artifacts[k].artifactType == t
  {
    if k :| 0 <= k < |artifacts| && artifacts[k].artifactType == t {
      assert Types(artifacts)[k] == t;
    }
  }

  lemma SectionsIff(env: Env, s: CampaignSpec)
    ensures && ValidStrategy(s.strategy) && ValidDatasets(s.datasets) && s.evaluators != []
            && (forall i :: 0 <= i < |s.evaluators| ==> ValidEvaluator(s.evaluators[i]))
            && ValidPolicy(s.policy) && ValidStopping(s.stopping) && ValidBudgets(s.budgets) && ValidStatistics(env, s.statistics)
       <==> Sections(env, s)
  {
    SealedHandleIff(s.datasets.holdout);
    DigestIff(s.policy.digest);
  }

  lemma ContainedIff(s: CampaignSpec)
    ensures KnownEnvironment(s.environment) && EnvironmentAllowed(s) && ClassesPinned(s) && Tier4Pinned(s)
            && (HasScaffold(s) ==> multiset(Kinds(s.arms))[FixedEditor] == 1)
       <==> Contained(s)
  {
    assert HasScaffold(s) <==> Scaffolded(s);
    if s.tier4.Some? {
      DigestIff(s.tier4.value);
    }
  }

  /** The whole of what makes a spec valid. */
  lemma ValidSpecIff(env: Env, s: CampaignSpec)
    ensures ValidSpec(env, s) <==>
              && s.name != "" && Surface(env, s) && Trial(s) && Contained(s) && ClassRules(env, s) && PlanRules(s)
              && Sections(env, s)
  {
    SurfaceIff(env, s);
    TrialIff(s);
    ContainedIff(s);
    ClassesIff(env, s);
    PlanIff(s);
    SectionsIff(env, s);
  }

  /** The one refusal with a name of its own: a scaffold campaign whose other
      identity is in order, in any environment but research. */
  lemma ScaffoldRefusedIff(env: Env, s: CampaignSpec)
    requires ValidArtifacts(env, s.artifacts) && ValidClasses(env, s.classes)
    ensures Refusal(s) == Some(ScaffoldRefused) <==>
              && Scaffolded(s) && (s.environment.None? || s.environment == Some("production"))
              && s.name != "" && ClassRules(env, s)
              && exists i :: 0 <= i < |s.artifacts| && s.artifacts[i].artifactType == s.incumbent.artifactType
  {
    ArtifactsIff(env, s.artifacts);
    OneTypeIff(s.artifacts, s.incumbent.artifactType);
    ClassesIff(env, s);
    assert HasScaffold(s) <==> Scaffolded(s);
  }

  // -- the document ----------------------------------------------------------------------

  // The sections of the canonical document, key by key.

  lemma BindingFormats(incumbent: IncumbentBinding, strategy: StrategyBinding, policy: PolicyRef)
    ensures Get(EncodeIncumbent(incumbent), "release_manifest_digest") == Str(incumbent.digest)
    ensures Get(EncodeIncumbent(incumbent), "artifact_type") == Str(incumbent.artifactType)
    ensures Get(EncodeStrategy(strategy), "plugin_id") == Str(strategy.pluginId)
    ensures Get(EncodeStrategy(strategy), "pinned_image") == Str(strategy.pinnedImage)
    ensures Get(EncodePolicy(policy), "policy_id") == Str(policy.policyId)
    ensures Get(EncodePolicy(policy), "policy_digest") == Str(policy.digest)
  {
  }

  lemma DatasetsFormat(x: Datasets, y: StoppingRules)
    ensures Get(EncodeDatasets(x), "dev_partition") == Str(x.dev)
    ensures Get(EncodeDatasets(x), "selection_partition") == Str(x.selection)
    ensures Get(EncodeDatasets(x), "holdout_handle") == Str(x.holdout)
    ensures Get(EncodeStopping(y), "max_rounds") == Int(y.maxRounds)
    ensures Get(EncodeStopping(y), "max_no_improvement_rounds") == Int(y.maxNoImprovementRounds)
  {
  }

  lemma BudgetsFormat(x: SpecBudgets)
    ensures Get(EncodeBudgets(x), "task_budget_profile") == Str(x.profile)
    ensures Get(EncodeBudgets(x), "max_proposals") == Int(x.maxProposals)
    ensures Get(EncodeBudgets(x), "max_model_tokens") == Int(x.maxModelTokens)
    ensures Get(EncodeBudgets(x), "max_wall_clock_minutes") == Float(x.maxMinutes)
    ensures Get(EncodeBudgets(x), "max_sandbox_executions") == Int(x.maxSandboxExecutions)
  {
  }

  lemma StatisticsFormat(x: StatisticsPlan)
    ensures Get(EncodeStatistics(x), "alpha") == Float(x.alpha)
    ensures Get(EncodeStatistics(x), "multiplicity") == Str(if x.multiplicity.Bonferroni? then "bonferroni" else "none")
    ensures Get(EncodeStatistics(x), "bootstrap_iterations") == Int(x.iterations)
    ensures Get(EncodeStatistics(x), "bootstrap_seed") == Int(x.seed)
    ensures Get(EncodeStatistics(x), "ablation_family") == List(Strs(x.ablationFamily))
    ensures Get(EncodeStatistics(x), "required_sample_size") == if x.sampleSize.Some? then Int(x.sampleSize.value) else Null
  {
  }

  lemma {:induction false} EncodedAt<T>(xs: seq<T>, encode: T -> Json, i: nat)
    requires i < |xs|
    ensures EncodeAll(xs, encode)[i] == encode(xs[i])
  {
    if i > 0 {
      EncodedAt(xs[1..], encode, i - 1);
    }
  }

  lemma {:induction false} StrAtIndex(names: seq<string>, i: nat)
    requires i < |names|
    ensures Strs(names)[i] == Str(names[i])
  {
    if i > 0 {
      StrAtIndex(names[1..], i - 1);
    }
  }

  lemma ArmFormat(x: Arm)
    ensures Get(EncodeArm(x), "id") == Str(x.id) && Get(EncodeArm(x), "max_attempts") == Int(x.maxAttempts)
    ensures Get(EncodeArm(x), "kind") == Str(match x.kind
                                             case Incumbent => "incumbent"
                                             case RetrySelfConsistency => "retry-self-consistency"
                                             case OneShotControl => "one-shot-control"
                                             case Strategy => "strategy"
                                             case Ablation => "ablation"
                                             case FixedEditor => "fixed-editor")
    ensures Get(EncodeArm(x), "component_id") == if x.componentId.Some? then Str(x.componentId.value) else Null
    ensures Get(EncodeArm(x), "editor_ref") == if x.editorRef.Some? then Str(x.editorRef.value) else Null
  {
  }

  lemma EvaluatorFormat(x: Evaluator)
    ensures Get(EncodeEvaluator(x), "name") == Str(x.name) && Get(EncodeEvaluator(x), "pinned_image") == Str(x.pinnedImage)
    ensures Get(EncodeEvaluator(x), "stage") == Int(x.stage) && Get(EncodeEvaluator(x), "short_circuit") == Boolean(x.shortCircuit)
    ensures Get(EncodeEvaluator(x), "cost_class") == Str(match x.costClass
                                                         case Cheap => "cheap"
                                                         case Standard => "standard"
                                                         case Expensive => "expensive")
  {
  }

  lemma ClassFormat(x: MutationClass, y: CompensationAction)
    ensures Get(EncodeClass(x), "class_id") == Str(x.classId) && Get(EncodeClass(x), "risk_dossier_digest") == Str(x.dossier)
    ensures Get(EncodeClass(x), "max_tier") == Str(match x.maxTier
                                                   case TextOnly => "text-only"
                                                   case Brokered => "brokered"
                                                   case Executable => "executable"
                                                   case Highest => "highest")
    ensures Get(EncodeAction(y), "artifact_type") == Str(y.artifactType) && Get(EncodeAction(y), "action") == Str(y.action)
    ensures Get(EncodeAction(y), "hook_image") == if y.hookImage.Some? then Str(y.hookImage.value) else Null
  {
  }

  lemma ArtifactFormat(x: MutableArtifact, k: nat)
    requires k < |x.paths|
    ensures Get(EncodeArtifact(x), "artifact_type") == Str(x.artifactType)
    ensures var paths := Get(EncodeArtifact(x), "paths");
            paths.List? && |paths.items| == |x.paths| && paths.items[k] == Str(x.paths[k])
  {
    StrAtIndex(x.paths, k);
  }

  /** The canonical document under its keys: every section in its own format, and
      the lists entry by entry. */
  lemma CanonicalLists(s: CampaignSpec, i: nat)
    ensures Holds(ToCanonical(s), "arms", EncodeArms(s.arms)) && Holds(ToCanonical(s), "evaluators", EncodeEvaluators(s.evaluators))
    ensures i < |s.arms| ==> EncodeArms(s.arms).items[i] == EncodeArm(s.arms[i])
    ensures i < |s.evaluators| ==> EncodeEvaluators(s.evaluators).items[i] == EncodeEvaluator(s.evaluators[i])
    ensures i < |s.artifacts| ==> EncodeArtifacts(s.artifacts).items[i] == EncodeArtifact(s.artifacts[i])
    ensures i < |s.classes| ==> EncodeClasses(s.classes).items[i] == EncodeClass(s.classes[i])
  {
    CanonicalFields(s);
    if i < |s.arms| {
      EncodedAt(s.arms, EncodeArm, i);
    }
    if i < |s.evaluators| {
      EncodedAt(s.evaluators, EncodeEvaluator, i);
    }
    if i < |s.artifacts| {
      EncodedAt(s.artifacts, EncodeArtifact, i);
    }
    if i < |s.classes| {
      EncodedAt(s.classes, EncodeClass, i);
    }
  }

  // What a document may leave out, and what it then means.

  lemma EvaluatorDefaults(fields: map<string, Json>)
    ensures "stage" !in fields ==> DecodeEvaluator(Dict(fields)) == DecodeEvaluator(Dict(fields["stage" := Int(0)]))
    ensures "cost_class" !in fields ==> DecodeEvaluator(Dict(fields)) == DecodeEvaluator(Dict(fields["cost_class" := Str("cheap")]))
    ensures "short_circuit" !in fields ==>
              DecodeEvaluator(Dict(fields)) == DecodeEvaluator(Dict(fields["short_circuit" := Boolean(true)]))
  {
  }

  lemma ArmDefaults(fields: map<string, Json>)
    ensures "max_attempts" !in fields ==> DecodeArm(Dict(fields)) == DecodeArm(Dict(fields["max_attempts" := Int(1)]))
  {
  }

  lemma BudgetsDefaults(fields: map<string, Json>)
    ensures "max_sandbox_executions" !in fields ==>
              DecodeBudgets(Dict(fields)) == DecodeBudgets(Dict(fields["max_sandbox_executions" := Int(240)]))
  {
  }

  lemma StatisticsDefaults(env: Env, fields: map<string, Json>)
    ensures "ablation_family" !in fields ==>
              DecodeStatistics(env, Dict(fields)) == DecodeStatistics(env, Dict(fields["ablation_family" := List([])]))
  {
  }

  /** No mutation classes are pinned by anything that counts as nothing; what is
      neither that nor a list is refused. */
  lemma ClassesRead(env: Env, j: Json)
    ensures j in {Null, Boolean(false), Int(0), Float(0.0), Str(""), List([]), Dict(map[])} ==> DecodeClasses(env, j) == Ok([])
    ensures j !in {Null, Boolean(false), Int(0), Float(0.0), Str(""), List([]), Dict(map[])} && !j.List? ==>
              DecodeClasses(env, j) == Err(InvalidSpec)
    ensures j.List? && j.items != [] ==> DecodeClasses(env, j) == DecodeAll(j.items, ClassParser(env))
  {
  }

  /** Only the three schema versions are read, and only as numbers. */
  lemma OtherVersionsRefused(env: Env, raw: Json)
    requires FromMapping(env, raw).Ok?
    ensures Get(raw, "schema_version") in {Int(1), Int(2), Int(3)}
  {
  }

  // -- the windows -------------------------------------------------------------------------

  predicate Calendar(d: Date) {
    1 <= d.month <= 12 && 1 <= d.day <= 31
  }

  /** Dates in calendar order. */
  function Ordinal(d: Date): int {
    372 * d.year + 31 * (d.month - 1) + (d.day - 1)
  }

  /** The first schema version is read up to and including 27 October 2026, the
      second for one day more. */
  lemma WindowsAre(today: Date)
    requires Calendar(today)
    ensures After(today, V1_WINDOW_END) <==> Ordinal(today) >= Ordinal(Date(2026, 10, 28))
    ensures After(today, V2_WINDOW_END) <==> Ordinal(today) >= Ordinal(Date(2026, 10, 29))
  {
  }
}
