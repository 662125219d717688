/** The sections of a campaign spec: what each may hold, its canonical form, its
    parser, and that the parser inverts the canonical form. Construction is
    validation, so a parser returns a section only if it is valid. */
module SpecSections {
  import opened Wrappers
  import opened SpecJson
  import opened Arms

  function Checked<T>(x: T, ok: bool): Result<T, SpecError> {
    if ok then Ok(x) else Err(InvalidSpec)
  }

  // -- shapes of names ------------------------------------------------------------------

  predicate HasPrefix(s: string, prefix: string) {
    |prefix| <= |s| && s[..|prefix|] == prefix
  }

  predicate IsHex(c: char) {
    '0' <= c <= '9' || 'a' <= c <= 'f'
  }

  predicate IsDigest(s: string) {
    HasPrefix(s, "sha256:") && |s| == 71 && forall i :: 7 <= i < 71 ==> IsHex(s[i])
  }

  predicate MarkerAt(s: string, marker: string, i: nat) {
    i + |marker| <= |s| && s[i..i + |marker|] == marker
  }

  predicate IsPinnedImage(s: string) {
    exists i :: 0 <= i <= |s| && MarkerAt(s, "@sha256:", i)
  }

  predicate IsSealedHandle(s: string) {
    HasPrefix(s, "holdout://")
  }

  predicate Trimmed(env: Env, s: string) {
    s != "" && !env.blank(s[0]) && !env.blank(s[|s| - 1])
  }

  predicate IsArtifactType(s: string) {
    s in {"memory_entry", "prompt_bundle", "demonstration_set", "compiled_prompt_program", "skill_package",
          "workflow_graph", "tool_spec", "skill_script", "algorithm", "harness_patch", "scaffold"}
  }

  predicate IsScaffold(artifactType: string) {
    artifactType == "scaffold"
  }

  /** The path segments between slashes. */
  function Segments(path: string): seq<string> {
    if path == "" then [""]
    else
      var rest := Segments(path[1..]);
      if path[0] == '/' then [""] + rest
      else if rest == [] then [[path[0]]]
      else [[path[0]] + rest[0]] + rest[1..]
  }

  /** Relative, trimmed, without traversal, and outside the protected roots. */
  predicate IsMaskPath(env: Env, path: string) {
    && Trimmed(env, path)
    && path[0] != '/' && !(|path| > 1 && path[1] == ':')
    && ".." !in Segments(path)
    && !env.isProtected(path)
  }

  predicate NoRepeats(names: seq<string>) {
    forall i, j :: 0 <= i < j < |names| ==> names[i] != names[j]
  }

  // -- incumbent ------------------------------------------------------------------------

  datatype IncumbentBinding = IncumbentBinding(digest: string, artifactType: string)

  predicate ValidIncumbent(x: IncumbentBinding) {
    IsDigest(x.digest) && IsArtifactType(x.artifactType)
  }

  function EncodeIncumbent(x: IncumbentBinding): Json {
    Dict(map["release_manifest_digest" := Str(x.digest), "artifact_type" := Str(x.artifactType)])
  }

  function DecodeIncumbent(j: Json): Result<IncumbentBinding, SpecError> {
    var digest :- StrAt(j, "release_manifest_digest");
    var artifactType :- StrAt(j, "artifact_type");
    var x := IncumbentBinding(digest, artifactType);
    Checked(x, ValidIncumbent(x))
  }

  lemma IncumbentRoundTrip(x: IncumbentBinding)
    requires ValidIncumbent(x)
    ensures DecodeIncumbent(EncodeIncumbent(x)) == Ok(x)
  {
  }

  // -- mutable artifacts ----------------------------------------------------------------

  datatype MutableArtifact = MutableArtifact(artifactType: string, paths: seq<string>)

  predicate ValidArtifact(env: Env, x: MutableArtifact) {
    IsArtifactType(x.artifactType) && x.paths != [] && forall i :: 0 <= i < |x.paths| ==> IsMaskPath(env, x.paths[i])
  }

  function EncodeArtifact(x: MutableArtifact): Json {
    Dict(map["artifact_type" := Str(x.artifactType), "paths" := List(Strs(x.paths))])
  }

  function DecodeArtifact(env: Env, j: Json): Result<MutableArtifact, SpecError> {
    var artifactType :- StrAt(j, "artifact_type");
    var paths :- StrsAt(env, j, "paths");
    var x := MutableArtifact(artifactType, paths);
    Checked(x, ValidArtifact(env, x))
  }

  lemma ArtifactRoundTrip(env: Env, x: MutableArtifact)
    requires ValidArtifact(env, x)
    ensures DecodeArtifact(env, EncodeArtifact(x)) == Ok(x)
  {
    StrsRoundTrip(x.paths);
  }

  function Types(xs: seq<MutableArtifact>): (r: seq<string>)
    ensures |r| == |xs| && forall i :: 0 <= i < |xs| ==> r[i] == xs[i].artifactType
  {
    if xs == [] then [] else [xs[0].artifactType] + Types(xs[1..])
  }

  /** One mask per artifact class. */
  predicate ValidArtifacts(env: Env, xs: seq<MutableArtifact>) {
    xs != [] && NoRepeats(Types(xs)) && forall i :: 0 <= i < |xs| ==> ValidArtifact(env, xs[i])
  }

  function ArtifactParser(env: Env): Json -> Result<MutableArtifact, SpecError> {
    (j: Json) => DecodeArtifact(env, j)
  }

  function EncodeArtifacts(xs: seq<MutableArtifact>): Json {
    List(EncodeAll(xs, EncodeArtifact))
  }

  function CheckedArtifacts(env: Env, xs: seq<MutableArtifact>): Result<seq<MutableArtifact>, SpecError> {
    Checked(xs, xs != [] && NoRepeats(Types(xs)))
  }

  /** The list of bindings that the second and third schema versions carry. */
  function DecodeArtifacts(env: Env, j: Json): Result<seq<MutableArtifact>, SpecError> {
    if !j.List? || j.items == [] then Err(InvalidSpec)
    else
      var xs :- DecodeAll(j.items, ArtifactParser(env));
      CheckedArtifacts(env, xs)
  }

  lemma ArtifactsRoundTrip(env: Env, xs: seq<MutableArtifact>)
    requires ValidArtifacts(env, xs)
    ensures DecodeArtifacts(env, EncodeArtifacts(xs)) == Ok(xs)
  {
    forall i | 0 <= i < |xs| ensures ArtifactParser(env)(EncodeArtifact(xs[i])) == Ok(xs[i]) {
      ArtifactRoundTrip(env, xs[i]);
    }
    AllRoundTrip(xs, EncodeArtifact, ArtifactParser(env));
  }

  // -- mutation classes ----------------------------------------------------------------

  datatype IsolationTier = TextOnly | Brokered | Executable | Highest

  function TierName(t: IsolationTier): string {
    match t
    case TextOnly => "text-only"
    case Brokered => "brokered"
    case Executable => "executable"
    case Highest => "highest"
  }

  function TierNamed(s: string): Result<IsolationTier, SpecError> {
    if s == "text-only" then Ok(TextOnly)
    else if s == "brokered" then Ok(Brokered)
    else if s == "executable" then Ok(Executable)
    else if s == "highest" then Ok(Highest)
    else Err(InvalidSpec)
  }

  datatype MutationClass = MutationClass(classId: string, dossier: string, maxTier: IsolationTier)

  predicate ValidClass(env: Env, x: MutationClass) {
    Trimmed(env, x.classId) && IsDigest(x.dossier)
  }

  function EncodeClass(x: MutationClass): Json {
    Dict(map["class_id" := Str(x.classId), "risk_dossier_digest" := Str(x.dossier), "max_tier" := Str(TierName(x.maxTier))])
  }

  function DecodeClass(env: Env, j: Json): Result<MutationClass, SpecError> {
    var classId :- StrAt(j, "class_id");
    var dossier :- StrAt(j, "risk_dossier_digest");
    var name :- StrAt(j, "max_tier");
    var maxTier :- TierNamed(name);
    var x := MutationClass(classId, dossier, maxTier);
    Checked(x, ValidClass(env, x))
  }

  lemma ClassRoundTrip(env: Env, x: MutationClass)
    requires ValidClass(env, x)
    ensures DecodeClass(env, EncodeClass(x)) == Ok(x)
  {
  }

  predicate ValidClasses(env: Env, xs: seq<MutationClass>) {
    forall i :: 0 <= i < |xs| ==> ValidClass(env, xs[i])
  }

  function ClassParser(env: Env): Json -> Result<MutationClass, SpecError> {
    (j: Json) => DecodeClass(env, j)
  }

  function EncodeClasses(xs: seq<MutationClass>): Json {
    List(EncodeAll(xs, EncodeClass))
  }

  /** Values that count as absent. */
  predicate Falsy(j: Json) {
    match j
    case Null => true
    case Boolean(b) => !b
    case Int(n) => n == 0
    case Float(x) => x == 0.0
    case Str(s) => s == ""
    case List(items) => items == []
    case Dict(fields) => fields == map[]
  }

  function DecodeClasses(env: Env, j: Json): Result<seq<MutationClass>, SpecError> {
    if Falsy(j) then Ok([])
    else if !j.List? then Err(InvalidSpec)
    else DecodeAll(j.items, ClassParser(env))
  }

  lemma ClassesRoundTrip(env: Env, xs: seq<MutationClass>)
    requires ValidClasses(env, xs)
    ensures DecodeClasses(env, EncodeClasses(xs)) == Ok(xs)
  {
    forall i | 0 <= i < |xs| ensures ClassParser(env)(EncodeClass(xs[i])) == Ok(xs[i]) {
      ClassRoundTrip(env, xs[i]);
    }
    AllRoundTrip(xs, EncodeClass, ClassParser(env));
  }

  // -- compensation plan -----------------------------------------------------------------

  const RUN_HOOK := "run_compensation_hook"
  const RERUN := "rerun_conformance_suite"
  const RESTORE := "restore_scaffold_source"

  datatype CompensationAction = CompensationAction(artifactType: string, action: string, hookImage: Option<string>)

  predicate IsActionKind(s: string) {
    s in {"restore_prior_release_pointer", "revoke_artifact", RUN_HOOK, RESTORE, RERUN}
  }

  /** A hook must be pinned; the scaffold actions name the scaffold class; only a
      hook takes an image. */
  predicate ValidAction(x: CompensationAction) {
    && IsArtifactType(x.artifactType) && IsActionKind(x.action)
    && (if x.action == RUN_HOOK then x.hookImage.Some? && IsPinnedImage(x.hookImage.value) else x.hookImage.None?)
    && (x.action == RERUN || x.action == RESTORE ==> IsScaffold(x.artifactType))
  }

  function EncodeAction(x: CompensationAction): Json {
    var entry := map["artifact_type" := Str(x.artifactType), "action" := Str(x.action)];
    Dict(if x.hookImage.Some? then entry["hook_image" := Str(x.hookImage.value)] else entry)
  }

  function DecodeAction(j: Json): Result<CompensationAction, SpecError> {
    var artifactType :- StrAt(j, "artifact_type");
    var action :- StrAt(j, "action");
    var hookImage :- OptionalStr(j, "hook_image");
    var x := CompensationAction(artifactType, action, hookImage);
    Checked(x, ValidAction(x))
  }

  lemma ActionRoundTrip(x: CompensationAction)
    requires ValidAction(x)
    ensures DecodeAction(EncodeAction(x)) == Ok(x)
  {
    var j := EncodeAction(x);
    assert StrAt(j, "artifact_type") == Ok(x.artifactType);
    assert StrAt(j, "action") == Ok(x.action);
    assert OptionalStr(j, "hook_image") == Ok(x.hookImage);
  }

  function ScaffoldActions(xs: seq<CompensationAction>): seq<string> {
    if xs == [] then []
    else (if IsScaffold(xs[0].artifactType) then [xs[0].action] else []) + ScaffoldActions(xs[1..])
  }

  /** One action per artifact class; only the scaffold may have two, and then the
      restore followed by the conformance rerun. */
  predicate ValidPlan(xs: seq<CompensationAction>) {
    && xs != []
    && (forall i, j :: 0 <= i < j < |xs| && xs[i].artifactType == xs[j].artifactType ==> IsScaffold(xs[i].artifactType))
    && (|ScaffoldActions(xs)| < 2
        || (multiset(ScaffoldActions(xs)) == multiset([RESTORE, RERUN]) && ScaffoldActions(xs)[0] == RESTORE))
  }

  predicate ValidActions(xs: seq<CompensationAction>) {
    ValidPlan(xs) && forall i :: 0 <= i < |xs| ==> ValidAction(xs[i])
  }

  function EncodePlan(plan: Option<seq<CompensationAction>>): Json {
    if plan.None? then Null else Dict(map["actions" := List(EncodeAll(plan.value, EncodeAction))])
  }

  function DecodePlan(j: Json): Result<Option<seq<CompensationAction>>, SpecError> {
    if j.Null? then Ok(None)
    else if !j.Dict? || !Get(j, "actions").List? || Get(j, "actions").items == [] then Err(InvalidSpec)
    else
      var xs :- DecodeAll(Get(j, "actions").items, DecodeAction);
      Checked(Some(xs), ValidPlan(xs))
  }

  lemma PlanRoundTrip(plan: Option<seq<CompensationAction>>)
    requires plan.Some? ==> ValidActions(plan.value)
    ensures DecodePlan(EncodePlan(plan)) == Ok(plan)
  {
    if plan.Some? {
      forall i | 0 <= i < |plan.value| ensures DecodeAction(EncodeAction(plan.value[i])) == Ok(plan.value[i]) {
        ActionRoundTrip(plan.value[i]);
      }
      AllRoundTrip(plan.value, EncodeAction, DecodeAction);
      assert Get(EncodePlan(plan), "actions") == List(EncodeAll(plan.value, EncodeAction));
    }
  }

  // -- strategy, datasets, policy, stopping rules -----------------------------------------

  datatype StrategyBinding = StrategyBinding(pluginId: string, pinnedImage: string)

  predicate ValidStrategy(x: StrategyBinding) {
    x.pluginId != "" && IsPinnedImage(x.pinnedImage)
  }

  function EncodeStrategy(x: StrategyBinding): Json {
    Dict(map["plugin_id" := Str(x.pluginId), "pinned_image" := Str(x.pinnedImage)])
  }

  function DecodeStrategy(j: Json): Result<StrategyBinding, SpecError> {
    var pluginId :- StrAt(j, "plugin_id");
    var pinnedImage :- StrAt(j, "pinned_image");
    var x := StrategyBinding(pluginId, pinnedImage);
    Checked(x, ValidStrategy(x))
  }

  lemma StrategyRoundTrip(x: StrategyBinding)
    requires ValidStrategy(x)
    ensures DecodeStrategy(EncodeStrategy(x)) == Ok(x)
  {
  }

  datatype Datasets = Datasets(dev: string, selection: string, holdout: string)

  predicate ValidDatasets(x: Datasets) {
    x.dev != "" && x.selection != "" && IsSealedHandle(x.holdout)
  }

  function EncodeDatasets(x: Datasets): Json {
    Dict(map["dev_partition" := Str(x.dev), "selection_partition" := Str(x.selection), "holdout_handle" := Str(x.holdout)])
  }

  function DecodeDatasets(j: Json): Result<Datasets, SpecError> {
    var dev :- StrAt(j, "dev_partition");
    var selection :- StrAt(j, "selection_partition");
    var holdout :- StrAt(j, "holdout_handle");
    var x := Datasets(dev, selection, holdout);
    Checked(x, ValidDatasets(x))
  }

  lemma DatasetsRoundTrip(x: Datasets)
    requires ValidDatasets(x)
    ensures DecodeDatasets(EncodeDatasets(x)) == Ok(x)
  {
  }

  datatype PolicyRef = PolicyRef(policyId: string, digest: string)

  predicate ValidPolicy(x: PolicyRef) {
    x.policyId != "" && IsDigest(x.digest)
  }

  function EncodePolicy(x: PolicyRef): Json {
    Dict(map["policy_id" := Str(x.policyId), "policy_digest" := Str(x.digest)])
  }

  function DecodePolicy(j: Json): Result<PolicyRef, SpecError> {
    var policyId :- StrAt(j, "policy_id");
    var digest :- StrAt(j, "policy_digest");
    var x := PolicyRef(policyId, digest);
    Checked(x, ValidPolicy(x))
  }

  lemma PolicyRoundTrip(x: PolicyRef)
    requires ValidPolicy(x)
    ensures DecodePolicy(EncodePolicy(x)) == Ok(x)
  {
  }

  datatype StoppingRules = StoppingRules(maxRounds: int, maxNoImprovementRounds: int)

  predicate ValidStopping(x: StoppingRules) {
    x.maxRounds >= 1 && x.maxNoImprovementRounds >= 1
  }

  function EncodeStopping(x: StoppingRules): Json {
    Dict(map["max_rounds" := Int(x.maxRounds), "max_no_improvement_rounds" := Int(x.maxNoImprovementRounds)])
  }

  function DecodeStopping(j: Json): Result<StoppingRules, SpecError> {
    var maxRounds :- IntAt(j, "max_rounds");
    var maxNoImprovementRounds :- IntAt(j, "max_no_improvement_rounds");
    var x := StoppingRules(maxRounds, maxNoImprovementRounds);
    Checked(x, ValidStopping(x))
  }

  lemma StoppingRoundTrip(x: StoppingRules)
    requires ValidStopping(x)
    ensures DecodeStopping(EncodeStopping(x)) == Ok(x)
  {
  }

  // -- evaluators --------------------------------------------------------------------------

  datatype CostClass = Cheap | Standard | Expensive

  function CostName(c: CostClass): string {
    match c
    case Cheap => "cheap"
    case Standard => "standard"
    case Expensive => "expensive"
  }

  function CostNamed(s: string): Result<CostClass, SpecError> {
    if s == "cheap" then Ok(Cheap)
    else if s == "standard" then Ok(Standard)
    else if s == "expensive" then Ok(Expensive)
    else Err(InvalidSpec)
  }

  datatype Evaluator = Evaluator(name: string, pinnedImage: string, stage: int, costClass: CostClass, shortCircuit: bool)

  predicate ValidEvaluator(x: Evaluator) {
    x.name != "" && IsPinnedImage(x.pinnedImage) && x.stage >= 0
  }

  function EncodeEvaluator(x: Evaluator): Json {
    Dict(map["name" := Str(x.name), "pinned_image" := Str(x.pinnedImage), "stage" := Int(x.stage),
             "cost_class" := Str(CostName(x.costClass)), "short_circuit" := Boolean(x.shortCircuit)])
  }

  function DecodeEvaluator(j: Json): Result<Evaluator, SpecError> {
    var name :- StrAt(j, "name");
    var pinnedImage :- StrAt(j, "pinned_image");
    var stage :- RequireInt(GetOr(j, "stage", Int(0)));
    var cost :- RequireStr(GetOr(j, "cost_class", Str("cheap")));
    var costClass :- CostNamed(cost);
    var shortCircuit :- RequireBool(GetOr(j, "short_circuit", Boolean(true)));
    var x := Evaluator(name, pinnedImage, stage, costClass, shortCircuit);
    Checked(x, ValidEvaluator(x))
  }

  lemma EvaluatorRoundTrip(x: Evaluator)
    requires ValidEvaluator(x)
    ensures DecodeEvaluator(EncodeEvaluator(x)) == Ok(x)
  {
  }

  function DecodeEvaluators(env: Env, j: Json): Result<seq<Evaluator>, SpecError> {
    var items :- Walk(env, j);
    DecodeAll(items, DecodeEvaluator)
  }

  function EncodeEvaluators(xs: seq<Evaluator>): Json {
    List(EncodeAll(xs, EncodeEvaluator))
  }

  lemma EvaluatorsRoundTrip(env: Env, xs: seq<Evaluator>)
    requires forall i :: 0 <= i < |xs| ==> ValidEvaluator(xs[i])
    ensures DecodeEvaluators(env, EncodeEvaluators(xs)) == Ok(xs)
  {
    forall i | 0 <= i < |xs| ensures DecodeEvaluator(EncodeEvaluator(xs[i])) == Ok(xs[i]) {
      EvaluatorRoundTrip(xs[i]);
    }
    AllRoundTrip(xs, EncodeEvaluator, DecodeEvaluator);
  }

  // -- arms --------------------------------------------------------------------------------

  function KindName(k: ArmKind): string {
    match k
    case Incumbent => "incumbent"
    case RetrySelfConsistency => "retry-self-consistency"
    case OneShotControl => "one-shot-control"
    case Strategy => "strategy"
    case Ablation => "ablation"
    case FixedEditor => "fixed-editor"
  }

  function KindNamed(s: string): Result<ArmKind, SpecError> {
    if s == "incumbent" then Ok(ArmKind.Incumbent)
    else if s == "retry-self-consistency" then Ok(RetrySelfConsistency)
    else if s == "one-shot-control" then Ok(OneShotControl)
    else if s == "strategy" then Ok(ArmKind.Strategy)
    else if s == "ablation" then Ok(Ablation)
    else if s == "fixed-editor" then Ok(FixedEditor)
    else Err(InvalidSpec)
  }

  function WithOptional(fields: map<string, Json>, key: string, value: Option<string>): map<string, Json> {
    if value.Some? then fields[key := Str(value.value)] else fields
  }

  /** The optional fields are left out when unset. */
  function EncodeArm(x: Arm): Json {
    var fields := map["id" := Str(x.id), "kind" := Str(KindName(x.kind)), "max_attempts" := Int(x.maxAttempts)];
    Dict(WithOptional(WithOptional(fields, "component_id", x.componentId), "editor_ref", x.editorRef))
  }

  /** A present key must hold a string, null included. */
  function PresentStr(j: Json, key: string): Result<Option<string>, SpecError> {
    if !(j.Dict? && key in j.fields) then Ok(None)
    else
      var s :- RequireStr(j.fields[key]);
      Ok(Some(s))
  }

  function DecodeArm(j: Json): Result<Arm, SpecError> {
    var id :- StrAt(j, "id");
    var name :- StrAt(j, "kind");
    var kind :- KindNamed(name);
    var maxAttempts :- RequireInt(GetOr(j, "max_attempts", Int(1)));
    var componentId :- PresentStr(j, "component_id");
    var editorRef :- PresentStr(j, "editor_ref");
    var x := Arm(id, kind, maxAttempts, componentId, editorRef);
    if ValidArm(x) then Ok(x) else Err(ArmRefused)
  }

  lemma ArmRoundTrip(x: Arm)
    requires ValidArm(x)
    ensures DecodeArm(EncodeArm(x)) == Ok(x)
  {
  }

  function EncodeArms(xs: seq<Arm>): Json {
    List(EncodeAll(xs, EncodeArm))
  }

  function DecodeArms(env: Env, j: Json): Result<seq<Arm>, SpecError> {
    var items :- Walk(env, j);
    DecodeAll(items, DecodeArm)
  }

  lemma ArmsRoundTrip(env: Env, xs: seq<Arm>)
    requires forall i :: 0 <= i < |xs| ==> ValidArm(xs[i])
    ensures DecodeArms(env, EncodeArms(xs)) == Ok(xs)
  {
    forall i | 0 <= i < |xs| ensures DecodeArm(EncodeArm(xs[i])) == Ok(xs[i]) {
      ArmRoundTrip(xs[i]);
    }
    AllRoundTrip(xs, EncodeArm, DecodeArm);
  }

  // -- budgets -------------------------------------------------------------------------------

  datatype SpecBudgets = SpecBudgets(profile: string, maxProposals: int, maxModelTokens: int, maxMinutes: real,
                                     maxSandboxExecutions: int)

  predicate IsProfile(s: string) {
    s == "task-budget-v1" || s == "task-budget-v2-executable"
  }

  predicate ValidBudgets(x: SpecBudgets) {
    && x.maxProposals >= 1 && x.maxModelTokens >= 1 && x.maxMinutes > 0.0 && x.maxSandboxExecutions >= 1
    && IsProfile(x.profile)
  }

  function EncodeBudgets(x: SpecBudgets): Json {
    Dict(map["task_budget_profile" := Str(x.profile), "max_proposals" := Int(x.maxProposals),
             "max_model_tokens" := Int(x.maxModelTokens), "max_wall_clock_minutes" := Float(x.maxMinutes),
             "max_sandbox_executions" := Int(x.maxSandboxExecutions)])
  }

  function DecodeBudgets(j: Json): Result<SpecBudgets, SpecError> {
    var profile :- StrAt(j, "task_budget_profile");
    var maxProposals :- IntAt(j, "max_proposals");
    var maxModelTokens :- IntAt(j, "max_model_tokens");
    var minutes :- Item(j, "max_wall_clock_minutes");
    var maxMinutes :- RequireFloat(minutes);
    var maxSandboxExecutions :- RequireInt(GetOr(j, "max_sandbox_executions", Int(240)));
    var x := SpecBudgets(profile, maxProposals, maxModelTokens, maxMinutes, maxSandboxExecutions);
    Checked(x, ValidBudgets(x))
  }

  lemma BudgetsRoundTrip(x: SpecBudgets)
    requires ValidBudgets(x)
    ensures DecodeBudgets(EncodeBudgets(x)) == Ok(x)
  {
  }

  // -- statistics plan --------------------------------------------------------------------------

  datatype Multiplicity = Bonferroni | NoCorrection

  function MultiplicityName(m: Multiplicity): string {
    match m
    case Bonferroni => "bonferroni"
    case NoCorrection => "none"
  }

  function MultiplicityNamed(s: string): Result<Multiplicity, SpecError> {
    if s == "bonferroni" then Ok(Bonferroni) else if s == "none" then Ok(NoCorrection) else Err(InvalidSpec)
  }

  datatype StatisticsPlan = StatisticsPlan(alpha: real, multiplicity: Multiplicity, iterations: int, seed: int,
                                           ablationFamily: seq<string>, sampleSize: Option<int>)

  predicate ValidStatistics(env: Env, x: StatisticsPlan) {
    && (x.sampleSize.Some? ==> x.sampleSize.value >= 1)
    && (forall i :: 0 <= i < |x.ablationFamily| ==> Trimmed(env, x.ablationFamily[i]))
    && NoRepeats(x.ablationFamily)
    && 0.0 < x.alpha < 1.0
    && x.iterations >= 200
  }

  function EncodeStatistics(x: StatisticsPlan): Json {
    var fields := map["alpha" := Float(x.alpha), "multiplicity" := Str(MultiplicityName(x.multiplicity)),
                      "bootstrap_iterations" := Int(x.iterations), "bootstrap_seed" := Int(x.seed),
                      "ablation_family" := List(Strs(x.ablationFamily))];
    Dict(if x.sampleSize.Some? then fields["required_sample_size" := Int(x.sampleSize.value)] else fields)
  }

  function OptionalInt(j: Json, key: string): Result<Option<int>, SpecError> {
    if Get(j, key).Null? then Ok(None)
    else
      var n :- RequireInt(Get(j, key));
      Ok(Some(n))
  }

  function DecodeStatistics(env: Env, j: Json): Result<StatisticsPlan, SpecError> {
    var a :- Item(j, "alpha");
    var alpha :- RequireFloat(a);
    var m :- StrAt(j, "multiplicity");
    var multiplicity :- MultiplicityNamed(m);
    var iterations :- IntAt(j, "bootstrap_iterations");
    var seed :- IntAt(j, "bootstrap_seed");
    var items :- Walk(env, GetOr(j, "ablation_family", List([])));
    var ablationFamily :- RequireStrs(items);
    var sampleSize :- OptionalInt(j, "required_sample_size");
    var x := StatisticsPlan(alpha, multiplicity, iterations, seed, ablationFamily, sampleSize);
    Checked(x, ValidStatistics(env, x))
  }

  lemma StatisticsNumbers(x: StatisticsPlan)
    ensures var j := EncodeStatistics(x);
            && Item(j, "alpha") == Ok(Float(x.alpha))
            && IntAt(j, "bootstrap_iterations") == Ok(x.iterations)
            && IntAt(j, "bootstrap_seed") == Ok(x.seed)
  {
  }

  lemma StatisticsOthers(x: StatisticsPlan)
    ensures var j := EncodeStatistics(x);
            && StrAt(j, "multiplicity") == Ok(MultiplicityName(x.multiplicity))
            && GetOr(j, "ablation_family", List([])) == List(Strs(x.ablationFamily))
            && OptionalInt(j, "required_sample_size") == Ok(x.sampleSize)
  {
  }

  lemma MultiplicityNames(m: Multiplicity)
    ensures MultiplicityNamed(MultiplicityName(m)) == Ok(m)
  {
  }

  lemma StatisticsRoundTrip(env: Env, x: StatisticsPlan)
    requires ValidStatistics(env, x)
    ensures DecodeStatistics(env, EncodeStatistics(x)) == Ok(x)
  {
    StrsRoundTrip(x.ablationFamily);
    StatisticsNumbers(x);
    StatisticsOthers(x);
    MultiplicityNames(x.multiplicity);
  }
}
