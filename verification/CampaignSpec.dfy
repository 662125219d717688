/** The campaign spec as a document: its canonical form pins the whole of it, the
    parser inverts the canonical form, and older schema versions parse to the
    same spec inside their windows. */
module CampaignSpecs {
  import opened Wrappers
  import opened SpecJson
  import opened SpecSections
  import opened Arms

  datatype CampaignSpec = CampaignSpec(
    name: string,
    incumbent: IncumbentBinding,
    artifacts: seq<MutableArtifact>,
    strategy: StrategyBinding,
    arms: seq<Arm>,
    datasets: Datasets,
    evaluators: seq<Evaluator>,
    budgets: SpecBudgets,
    policy: PolicyRef,
    statistics: StatisticsPlan,
    stopping: StoppingRules,
    plan: Option<seq<CompensationAction>>,
    classes: seq<MutationClass>,
    metadata: map<string, string>,
    environment: Option<string>,
    tier4: Option<string>)

  // -- validity across sections -------------------------------------------------------------

  predicate HasScaffold(s: CampaignSpec) {
    exists i :: 0 <= i < |s.artifacts| && IsScaffold(s.artifacts[i].artifactType)
  }

  function CountKind(arms: seq<Arm>, k: ArmKind): nat {
    if arms == [] then 0 else (if arms[0].kind == k then 1 else 0) + CountKind(arms[1..], k)
  }

  function CountType(xs: seq<MutableArtifact>, t: string): nat {
    if xs == [] then 0 else (if xs[0].artifactType == t then 1 else 0) + CountType(xs[1..], t)
  }

  function ArmIds(arms: seq<Arm>): (r: seq<string>)
    ensures |r| == |arms| && forall i :: 0 <= i < |arms| ==> r[i] == arms[i].id
  {
    if arms == [] then [] else [arms[0].id] + ArmIds(arms[1..])
  }

  function ClassIds(classes: seq<MutationClass>): (r: seq<string>)
    ensures |r| == |classes| && forall i :: 0 <= i < |classes| ==> r[i] == classes[i].classId
  {
    if classes == [] then [] else [classes[0].classId] + ClassIds(classes[1..])
  }

  predicate KnownEnvironment(environment: Option<string>) {
    environment.None? || environment.value == "research" || environment.value == "production"
  }

  /** Scaffold mutation is for the research environment only. */
  predicate EnvironmentAllowed(s: CampaignSpec) {
    HasScaffold(s) ==> s.environment == Some("research")
  }

  predicate ClassesPinned(s: CampaignSpec) {
    HasScaffold(s) ==> s.classes != []
  }

  predicate Tier4Pinned(s: CampaignSpec) {
    if HasScaffold(s) then s.tier4.Some? && IsDigest(s.tier4.value) else s.tier4.None?
  }

  /** The three controls and the strategy arm once each, a fixed editor for a
      scaffold campaign, and ablations only of the preregistered family. */
  predicate ArmsFramed(s: CampaignSpec) {
    && s.arms != [] && NoRepeats(ArmIds(s.arms))
    && CountKind(s.arms, ArmKind.Incumbent) == 1 && CountKind(s.arms, RetrySelfConsistency) == 1
    && CountKind(s.arms, OneShotControl) == 1 && CountKind(s.arms, ArmKind.Strategy) == 1
    && (HasScaffold(s) ==> CountKind(s.arms, FixedEditor) == 1)
    && forall i :: 0 <= i < |s.arms| && s.arms[i].kind == Ablation ==>
         s.arms[i].componentId.Some? && s.arms[i].componentId.value in s.statistics.ablationFamily
  }

  predicate PlanInScope(s: CampaignSpec) {
    s.plan.Some? ==> forall i :: 0 <= i < |s.plan.value| ==> s.plan.value[i].artifactType in Types(s.artifacts)
  }

  /** The checks made when a spec is put together from valid sections, in order. */
  function Refusal(s: CampaignSpec): Option<SpecError> {
    if s.name == "" || !NoRepeats(ClassIds(s.classes)) then Some(InvalidSpec)
    else if CountType(s.artifacts, s.incumbent.artifactType) != 1 then Some(InvalidSpec)
    else if !KnownEnvironment(s.environment) then Some(InvalidSpec)
    else if !EnvironmentAllowed(s) then Some(ScaffoldRefused)
    else if !ClassesPinned(s) || !Tier4Pinned(s) || !ArmsFramed(s) || !PlanInScope(s) || s.evaluators == [] then
      Some(InvalidSpec)
    else None
  }

  function Constructed(s: CampaignSpec): Result<CampaignSpec, SpecError> {
    if Refusal(s).Some? then Err(Refusal(s).value) else Ok(s)
  }

  predicate SectionsValid(env: Env, s: CampaignSpec) {
    && ValidIncumbent(s.incumbent) && ValidArtifacts(env, s.artifacts) && ValidStrategy(s.strategy)
    && (forall i :: 0 <= i < |s.arms| ==> ValidArm(s.arms[i]))
    && ValidDatasets(s.datasets)
    && (forall i :: 0 <= i < |s.evaluators| ==> ValidEvaluator(s.evaluators[i]))
    && ValidBudgets(s.budgets) && ValidPolicy(s.policy) && ValidStatistics(env, s.statistics) && ValidStopping(s.stopping)
    && (s.plan.Some? ==> ValidActions(s.plan.value))
    && ValidClasses(env, s.classes)
  }

  predicate ValidSpec(env: Env, s: CampaignSpec) {
    SectionsValid(env, s) && Refusal(s).None?
  }

  // -- the canonical form ---------------------------------------------------------------------

  function OptionalJson(value: Option<string>): Json {
    if value.Some? then Str(value.value) else Null
  }

  function EncodeMetadata(metadata: map<string, string>): Json {
    Dict(map k | k in metadata :: Str(metadata[k]))
  }

  /** The sections under their keys. */
  function Document(version: Json, name: Json, incumbent: Json, artifacts: Json, strategy: Json, arms: Json,
                    datasets: Json, evaluators: Json, budgets: Json, policy: Json, statistics: Json, stopping: Json,
                    plan: Json, environment: Json, classes: Json, metadata: Json, tier4: Json): Json
  {
    Dict(map["schema_version" := version,
             "name" := name,
             "incumbent" := incumbent,
             "mutable_artifacts" := artifacts,
             "strategy_plugin" := strategy,
             "arms" := arms,
             "datasets" := datasets,
             "evaluators" := evaluators,
             "budgets" := budgets,
             "promotion_policy" := policy,
             "statistics" := statistics,
             "stopping_rules" := stopping,
             "compensation_plan" := plan,
             "environment" := environment,
             "mutation_classes" := classes,
             "metadata" := metadata,
             "tier4_policy_digest" := tier4])
  }

  function ToCanonical(s: CampaignSpec): Json {
    Document(Int(3), Str(s.name), EncodeIncumbent(s.incumbent), EncodeArtifacts(s.artifacts), EncodeStrategy(s.strategy),
             EncodeArms(s.arms), EncodeDatasets(s.datasets), EncodeEvaluators(s.evaluators), EncodeBudgets(s.budgets),
             EncodePolicy(s.policy), EncodeStatistics(s.statistics), EncodeStopping(s.stopping), EncodePlan(s.plan),
             OptionalJson(s.environment), EncodeClasses(s.classes), EncodeMetadata(s.metadata), OptionalJson(s.tier4))
  }

  // -- parsing ------------------------------------------------------------------------------------

  const V1_WINDOW_END := Date(2026, 10, 27)
  const V2_WINDOW_END := Date(2026, 10, 28)

  /** The mutation surface in the shape its schema version carries it. */
  function ParseArtifacts(env: Env, raw: Json, version: int): Result<seq<MutableArtifact>, SpecError> {
    if version == 3 || version == 2 then
      if version == 2 && After(env.today, V2_WINDOW_END) then Err(InvalidSpec)
      else DecodeArtifacts(env, Get(raw, "mutable_artifacts"))
    else if version == 1 then
      if After(env.today, V1_WINDOW_END) || !Get(raw, "mutable_artifact").Dict? then Err(InvalidSpec)
      else
        var x :- DecodeArtifact(env, Get(raw, "mutable_artifact"));
        CheckedArtifacts(env, [x])
    else Err(InvalidSpec)
  }

  function ParseDigest(j: Json, key: string): Result<Option<string>, SpecError> {
    var digest :- OptionalStr(j, key);
    Checked(digest, digest.Some? ==> IsDigest(digest.value))
  }

  /** Values that are not strings are shown as text; a section that is not a
      mapping is the one shape no handler turns into a refusal. */
  function ParseMetadata(env: Env, j: Json): Result<map<string, string>, SpecError> {
    if !j.Dict? then Err(Unhandled)
    else Ok(map k | k in j.fields :: if j.fields[k].Str? then j.fields[k].s else env.show(j.fields[k]))
  }

  function IncumbentAt(raw: Json): Result<IncumbentBinding, SpecError> {
    var j :- Item(raw, "incumbent");
    DecodeIncumbent(j)
  }

  function StrategyAt(raw: Json): Result<StrategyBinding, SpecError> {
    var j :- Item(raw, "strategy_plugin");
    DecodeStrategy(j)
  }

  function ArmsAt(env: Env, raw: Json): Result<seq<Arm>, SpecError> {
    var j :- Item(raw, "arms");
    DecodeArms(env, j)
  }

  function DatasetsAt(raw: Json): Result<Datasets, SpecError> {
    var j :- Item(raw, "datasets");
    DecodeDatasets(j)
  }

  function EvaluatorsAt(env: Env, raw: Json): Result<seq<Evaluator>, SpecError> {
    var j :- Item(raw, "evaluators");
    DecodeEvaluators(env, j)
  }

  function BudgetsAt(raw: Json): Result<SpecBudgets, SpecError> {
    var j :- Item(raw, "budgets");
    DecodeBudgets(j)
  }

  function PolicyAt(raw: Json): Result<PolicyRef, SpecError> {
    var j :- Item(raw, "promotion_policy");
    DecodePolicy(j)
  }

  function StatisticsAt(env: Env, raw: Json): Result<StatisticsPlan, SpecError> {
    var j :- Item(raw, "statistics");
    DecodeStatistics(env, j)
  }

  function StoppingAt(raw: Json): Result<StoppingRules, SpecError> {
    var j :- Item(raw, "stopping_rules");
    DecodeStopping(j)
  }

  function MetadataAt(env: Env, raw: Json): Result<map<string, string>, SpecError> {
    ParseMetadata(env, GetOr(raw, "metadata", Dict(map[])))
  }

  /** Puts the sections together in the order they are read: the first refusal
      is the answer. */
  function Assemble(artifacts: seq<MutableArtifact>,
      name: Result<string, SpecError>,
      incumbent: Result<IncumbentBinding, SpecError>,
      strategy: Result<StrategyBinding, SpecError>,
      arms: Result<seq<Arm>, SpecError>,
      datasets: Result<Datasets, SpecError>,
      evaluators: Result<seq<Evaluator>, SpecError>,
      budgets: Result<SpecBudgets, SpecError>,
      policy: Result<PolicyRef, SpecError>,
      tier4: Result<Option<string>, SpecError>,
      statistics: Result<StatisticsPlan, SpecError>,
      stopping: Result<StoppingRules, SpecError>,
      environment: Result<Option<string>, SpecError>,
      plan: Result<Option<seq<CompensationAction>>, SpecError>,
      classes: Result<seq<MutationClass>, SpecError>,
      metadata: Result<map<string, string>, SpecError>): Result<CampaignSpec, SpecError>
  {
    var name' :- name;
    var incumbent' :- incumbent;
    var strategy' :- strategy;
    var arms' :- arms;
    var datasets' :- datasets;
    var evaluators' :- evaluators;
    var budgets' :- budgets;
    var policy' :- policy;
    var tier4' :- tier4;
    var statistics' :- statistics;
    var stopping' :- stopping;
    var environment' :- environment;
    var plan' :- plan;
    var classes' :- classes;
    var metadata' :- metadata;
    Constructed(CampaignSpec(name', incumbent', artifacts, strategy', arms', datasets', evaluators', budgets', policy',
                             statistics', stopping', plan', classes', metadata', environment', tier4'))
  }

  lemma Assembled(artifacts: seq<MutableArtifact>,
      name: Result<string, SpecError>,
      incumbent: Result<IncumbentBinding, SpecError>,
      strategy: Result<StrategyBinding, SpecError>,
      arms: Result<seq<Arm>, SpecError>,
      datasets: Result<Datasets, SpecError>,
      evaluators: Result<seq<Evaluator>, SpecError>,
      budgets: Result<SpecBudgets, SpecError>,
      policy: Result<PolicyRef, SpecError>,
      tier4: Result<Option<string>, SpecError>,
      statistics: Result<StatisticsPlan, SpecError>,
      stopping: Result<StoppingRules, SpecError>,
      environment: Result<Option<string>, SpecError>,
      plan: Result<Option<seq<CompensationAction>>, SpecError>,
      classes: Result<seq<MutationClass>, SpecError>,
      metadata: Result<map<string, string>, SpecError>)
    requires Assemble(artifacts, name, incumbent, strategy, arms, datasets, evaluators, budgets, policy, tier4, statistics, stopping, environment, plan, classes, metadata).Ok?
    ensures name.Ok? && incumbent.Ok? && strategy.Ok? && arms.Ok? && datasets.Ok? && evaluators.Ok? && budgets.Ok? && policy.Ok? && tier4.Ok? && statistics.Ok? && stopping.Ok? && environment.Ok? && plan.Ok? && classes.Ok? && metadata.Ok?
    ensures Refusal(Assemble(artifacts, name, incumbent, strategy, arms, datasets, evaluators, budgets, policy, tier4, statistics, stopping, environment, plan, classes, metadata).value).None?
    ensures Assemble(artifacts, name, incumbent, strategy, arms, datasets, evaluators, budgets, policy, tier4, statistics, stopping, environment, plan, classes, metadata).value ==
            CampaignSpec(name.value, incumbent.value, artifacts, strategy.value, arms.value, datasets.value, evaluators.value,
                         budgets.value, policy.value, statistics.value, stopping.value, plan.value, classes.value,
                         metadata.value, environment.value, tier4.value)
  {
  }

  /** The sections in the order they are read, given the mutation surface. */
  function ParseSections(env: Env, raw: Json, artifacts: seq<MutableArtifact>): Result<CampaignSpec, SpecError> {
    Assemble(artifacts, StrAt(raw, "name"), IncumbentAt(raw), StrategyAt(raw), ArmsAt(env, raw), DatasetsAt(raw),
             EvaluatorsAt(env, raw), BudgetsAt(raw), PolicyAt(raw), ParseDigest(raw, "tier4_policy_digest"),
             StatisticsAt(env, raw), StoppingAt(raw), OptionalStr(raw, "environment"),
             DecodePlan(Get(raw, "compensation_plan")), DecodeClasses(env, Get(raw, "mutation_classes")),
             MetadataAt(env, raw))
  }

  /** The name and the incumbent, read before the mutation surface. */
  function IdentityAt(raw: Json): Result<(string, IncumbentBinding), SpecError> {
    var name :- StrAt(raw, "name");
    var incumbent :- IncumbentAt(raw);
    Ok((name, incumbent))
  }

  /** `raw` is a parsed mapping. */
  function FromMapping(env: Env, raw: Json): Result<CampaignSpec, SpecError> {
    var version :- IntAt(raw, "schema_version");
    var _ :- IdentityAt(raw);
    var artifacts :- ParseArtifacts(env, raw, version);
    ParseSections(env, raw, artifacts)
  }

  // -- the parser inverts the canonical form ---------------------------------------------------------

  predicate Holds(j: Json, key: string, value: Json) {
    j.Dict? && key in j.fields && j.fields[key] == value
  }

  // Reading the document back, key by key: distinct keys do not disturb each
  // other.

  lemma HeaderFields(version: Json, name: Json, incumbent: Json, artifacts: Json, strategy: Json, arms: Json,
                      datasets: Json, evaluators: Json, budgets: Json, policy: Json, statistics: Json, stopping: Json,
                      plan: Json, environment: Json, classes: Json, metadata: Json, tier4: Json)
    ensures var j := Document(version, name, incumbent, artifacts, strategy, arms, datasets, evaluators, budgets, policy,
                             statistics, stopping, plan, environment, classes, metadata, tier4);
            && Holds(j, "schema_version", version)
            && Holds(j, "name", name)
  {
  }

  lemma SurfaceFields(version: Json, name: Json, incumbent: Json, artifacts: Json, strategy: Json, arms: Json,
                      datasets: Json, evaluators: Json, budgets: Json, policy: Json, statistics: Json, stopping: Json,
                      plan: Json, environment: Json, classes: Json, metadata: Json, tier4: Json)
    ensures var j := Document(version, name, incumbent, artifacts, strategy, arms, datasets, evaluators, budgets, policy,
                             statistics, stopping, plan, environment, classes, metadata, tier4);
            && Holds(j, "incumbent", incumbent)
            && Holds(j, "mutable_artifacts", artifacts)
  {
  }

  lemma SearchFields(version: Json, name: Json, incumbent: Json, artifacts: Json, strategy: Json, arms: Json,
                      datasets: Json, evaluators: Json, budgets: Json, policy: Json, statistics: Json, stopping: Json,
                      plan: Json, environment: Json, classes: Json, metadata: Json, tier4: Json)
    ensures var j := Document(version, name, incumbent, artifacts, strategy, arms, datasets, evaluators, budgets, policy,
                             statistics, stopping, plan, environment, classes, metadata, tier4);
            && Holds(j, "strategy_plugin", strategy)
            && Holds(j, "arms", arms)
            && Holds(j, "datasets", datasets)
  {
  }

  lemma EvaluationFields(version: Json, name: Json, incumbent: Json, artifacts: Json, strategy: Json, arms: Json,
                      datasets: Json, evaluators: Json, budgets: Json, policy: Json, statistics: Json, stopping: Json,
                      plan: Json, environment: Json, classes: Json, metadata: Json, tier4: Json)
    ensures var j := Document(version, name, incumbent, artifacts, strategy, arms, datasets, evaluators, budgets, policy,
                             statistics, stopping, plan, environment, classes, metadata, tier4);
            && Holds(j, "evaluators", evaluators)
            && Holds(j, "budgets", budgets)
            && Holds(j, "promotion_policy", policy)
            && Holds(j, "statistics", statistics)
  {
  }

  lemma PolicyFields(version: Json, name: Json, incumbent: Json, artifacts: Json, strategy: Json, arms: Json,
                      datasets: Json, evaluators: Json, budgets: Json, policy: Json, statistics: Json, stopping: Json,
                      plan: Json, environment: Json, classes: Json, metadata: Json, tier4: Json)
    ensures var j := Document(version, name, incumbent, artifacts, strategy, arms, datasets, evaluators, budgets, policy,
                             statistics, stopping, plan, environment, classes, metadata, tier4);
            && Holds(j, "stopping_rules", stopping)
            && Holds(j, "compensation_plan", plan)
            && Holds(j, "environment", environment)
            && Holds(j, "mutation_classes", classes)
            && Holds(j, "metadata", metadata)
            && Holds(j, "tier4_policy_digest", tier4)
  {
  }

  lemma MetadataRoundTrip(env: Env, metadata: map<string, string>)
    ensures ParseMetadata(env, EncodeMetadata(metadata)) == Ok(metadata)
  {
    var read := ParseMetadata(env, EncodeMetadata(metadata)).value;
    assert forall k :: k in metadata ==> read[k] == metadata[k];
    assert read == metadata;
  }

  predicate HoldsSurface(j: Json, s: CampaignSpec) {
    && Holds(j, "schema_version", Int(3))
    && Holds(j, "mutable_artifacts", EncodeArtifacts(s.artifacts))
  }

  predicate HoldsSearch(j: Json, s: CampaignSpec) {
    && Holds(j, "name", Str(s.name))
    && Holds(j, "incumbent", EncodeIncumbent(s.incumbent))
    && Holds(j, "strategy_plugin", EncodeStrategy(s.strategy))
    && Holds(j, "arms", EncodeArms(s.arms))
    && Holds(j, "datasets", EncodeDatasets(s.datasets))
  }

  predicate HoldsEvaluation(j: Json, s: CampaignSpec) {
    && Holds(j, "evaluators", EncodeEvaluators(s.evaluators))
    && Holds(j, "budgets", EncodeBudgets(s.budgets))
    && Holds(j, "promotion_policy", EncodePolicy(s.policy))
    && Holds(j, "statistics", EncodeStatistics(s.statistics))
    && Holds(j, "stopping_rules", EncodeStopping(s.stopping))
  }

  predicate HoldsOptional(j: Json, s: CampaignSpec) {
    && Holds(j, "compensation_plan", EncodePlan(s.plan))
    && Holds(j, "environment", OptionalJson(s.environment))
    && Holds(j, "mutation_classes", EncodeClasses(s.classes))
    && Holds(j, "metadata", EncodeMetadata(s.metadata))
    && Holds(j, "tier4_policy_digest", OptionalJson(s.tier4))
  }

  /** Every key of the canonical form holds its section. */
  lemma CanonicalFields(s: CampaignSpec)
    ensures HoldsSurface(ToCanonical(s), s) && HoldsSearch(ToCanonical(s), s)
    ensures HoldsEvaluation(ToCanonical(s), s) && HoldsOptional(ToCanonical(s), s)
  {
    var version, name, incumbent, artifacts := Int(3), Str(s.name), EncodeIncumbent(s.incumbent), EncodeArtifacts(s.artifacts);
    var strategy, arms, datasets := EncodeStrategy(s.strategy), EncodeArms(s.arms), EncodeDatasets(s.datasets);
    var evaluators, budgets, policy := EncodeEvaluators(s.evaluators), EncodeBudgets(s.budgets), EncodePolicy(s.policy);
    var statistics, stopping, plan := EncodeStatistics(s.statistics), EncodeStopping(s.stopping), EncodePlan(s.plan);
    var environment, classes := OptionalJson(s.environment), EncodeClasses(s.classes);
    var metadata, tier4 := EncodeMetadata(s.metadata), OptionalJson(s.tier4);
    HeaderFields(version, name, incumbent, artifacts, strategy, arms, datasets, evaluators, budgets, policy,
                 statistics, stopping, plan, environment, classes, metadata, tier4);
    SurfaceFields(version, name, incumbent, artifacts, strategy, arms, datasets, evaluators, budgets, policy,
                  statistics, stopping, plan, environment, classes, metadata, tier4);
    SearchFields(version, name, incumbent, artifacts, strategy, arms, datasets, evaluators, budgets, policy,
                 statistics, stopping, plan, environment, classes, metadata, tier4);
    EvaluationFields(version, name, incumbent, artifacts, strategy, arms, datasets, evaluators, budgets, policy,
                     statistics, stopping, plan, environment, classes, metadata, tier4);
    PolicyFields(version, name, incumbent, artifacts, strategy, arms, datasets, evaluators, budgets, policy,
                 statistics, stopping, plan, environment, classes, metadata, tier4);
  }

  predicate ReadsSearch(env: Env, j: Json, s: CampaignSpec) {
    && StrAt(j, "name") == Ok(s.name) && IncumbentAt(j) == Ok(s.incumbent) && StrategyAt(j) == Ok(s.strategy)
    && ArmsAt(env, j) == Ok(s.arms) && DatasetsAt(j) == Ok(s.datasets)
  }

  predicate ReadsEvaluation(env: Env, j: Json, s: CampaignSpec) {
    && EvaluatorsAt(env, j) == Ok(s.evaluators) && BudgetsAt(j) == Ok(s.budgets) && PolicyAt(j) == Ok(s.policy)
    && StatisticsAt(env, j) == Ok(s.statistics) && StoppingAt(j) == Ok(s.stopping)
  }

  predicate ReadsOptional(env: Env, j: Json, s: CampaignSpec) {
    && ParseDigest(j, "tier4_policy_digest") == Ok(s.tier4) && OptionalStr(j, "environment") == Ok(s.environment)
    && DecodePlan(Get(j, "compensation_plan")) == Ok(s.plan)
    && DecodeClasses(env, Get(j, "mutation_classes")) == Ok(s.classes) && MetadataAt(env, j) == Ok(s.metadata)
  }

  lemma CanonicalReadsSearch(env: Env, j: Json, s: CampaignSpec)
    requires SectionsValid(env, s) && HoldsSearch(j, s)
    ensures ReadsSearch(env, j, s)
  {
    IncumbentRoundTrip(s.incumbent);
    StrategyRoundTrip(s.strategy);
    ArmsRoundTrip(env, s.arms);
    DatasetsRoundTrip(s.datasets);
  }

  lemma CanonicalReadsEvaluation(env: Env, j: Json, s: CampaignSpec)
    requires SectionsValid(env, s) && HoldsEvaluation(j, s)
    ensures ReadsEvaluation(env, j, s)
  {
    EvaluatorsRoundTrip(env, s.evaluators);
    BudgetsRoundTrip(s.budgets);
    PolicyRoundTrip(s.policy);
    StatisticsRoundTrip(env, s.statistics);
    StoppingRoundTrip(s.stopping);
  }

  lemma CanonicalReadsOptional(env: Env, j: Json, s: CampaignSpec)
    requires SectionsValid(env, s) && HoldsOptional(j, s) && Tier4Pinned(s)
    ensures ReadsOptional(env, j, s)
  {
    PlanRoundTrip(s.plan);
    ClassesRoundTrip(env, s.classes);
    MetadataRoundTrip(env, s.metadata);
  }

  lemma ParseOfReads(env: Env, j: Json, s: CampaignSpec)
    requires ReadsSearch(env, j, s) && ReadsEvaluation(env, j, s) && ReadsOptional(env, j, s)
    ensures ParseSections(env, j, s.artifacts) == Constructed(s)
  {
  }

  lemma CanonicalArtifacts(env: Env, j: Json, s: CampaignSpec)
    requires SectionsValid(env, s) && HoldsSurface(j, s)
    ensures IntAt(j, "schema_version") == Ok(3)
    ensures ParseArtifacts(env, j, 3) == Ok(s.artifacts)
  {
    ArtifactsRoundTrip(env, s.artifacts);
  }

  predicate Reads(env: Env, j: Json, s: CampaignSpec) {
    && ReadsSearch(env, j, s) && ReadsEvaluation(env, j, s) && ReadsOptional(env, j, s)
    && IntAt(j, "schema_version") == Ok(3) && ParseArtifacts(env, j, 3) == Ok(s.artifacts)
  }

  lemma CanonicalReads(env: Env, j: Json, s: CampaignSpec)
    requires SectionsValid(env, s) && Tier4Pinned(s)
    requires HoldsSurface(j, s) && HoldsSearch(j, s) && HoldsEvaluation(j, s) && HoldsOptional(j, s)
    ensures Reads(env, j, s)
  {
    CanonicalReadsSearch(env, j, s);
    CanonicalReadsEvaluation(env, j, s);
    CanonicalReadsOptional(env, j, s);
    CanonicalArtifacts(env, j, s);
  }

  lemma MappingOfReads(env: Env, j: Json, s: CampaignSpec)
    requires Reads(env, j, s)
    ensures FromMapping(env, j) == Constructed(s)
  {
    ParseOfReads(env, j, s);
  }

  lemma CanonicalParses(env: Env, j: Json, s: CampaignSpec)
    requires SectionsValid(env, s) && Tier4Pinned(s)
    requires HoldsSurface(j, s) && HoldsSearch(j, s) && HoldsEvaluation(j, s) && HoldsOptional(j, s)
    ensures FromMapping(env, j) == Constructed(s)
  {
    assert Reads(env, j, s) by {
      CanonicalReads(env, j, s);
    }
    MappingOfReads(env, j, s);
  }

  lemma ValidConstructs(env: Env, s: CampaignSpec)
    requires ValidSpec(env, s)
    ensures SectionsValid(env, s) && Tier4Pinned(s) && Constructed(s) == Ok(s)
  {
  }

  lemma ValidParses(env: Env, j: Json, s: CampaignSpec)
    requires ValidSpec(env, s)
    requires HoldsSurface(j, s) && HoldsSearch(j, s) && HoldsEvaluation(j, s) && HoldsOptional(j, s)
    ensures FromMapping(env, j) == Ok(s)
  {
    ValidConstructs(env, s);
    CanonicalParses(env, j, s);
  }

  /** Parsing the canonical form of a valid spec gives the spec back. */
  lemma CanonicalRoundTrip(env: Env, s: CampaignSpec)
    requires ValidSpec(env, s)
    ensures FromMapping(env, ToCanonical(s)) == Ok(s)
  {
    CanonicalFields(s);
    ValidParses(env, ToCanonical(s), s);
  }

  /** The canonical form pins the whole document: two valid specs with the same
      one are the same spec. */
  lemma CanonicalInjective(env: Env, s: CampaignSpec, t: CampaignSpec)
    requires ValidSpec(env, s) && ValidSpec(env, t) && ToCanonical(s) == ToCanonical(t)
    ensures s == t
  {
    CanonicalRoundTrip(env, s);
    CanonicalRoundTrip(env, t);
  }
}
