/** What parsing guarantees of any document: only valid specs come out, and a
    first- or second-version document means what its third-version form means. */
module SpecMigration {
  import opened Wrappers
  import opened SpecJson
  import opened SpecSections
  import opened CampaignSpecs
  import opened Arms

  // -- older schema versions ---------------------------------------------------------------

  predicate SameAt(j: Json, k: Json, key: string) {
    Item(j, key) == Item(k, key) && Get(j, key) == Get(k, key)
  }

  /** The documents agree on every key but the version and the mutation surface. */
  ghost predicate SameSections(j: Json, k: Json) {
    forall key: string {:trigger SameAt(j, k, key)} ::
      key != "schema_version" && key != "mutable_artifact" && key != "mutable_artifacts" ==> SameAt(j, k, key)
  }

  lemma SameSearch(env: Env, j: Json, k: Json)
    requires SameSections(j, k)
    ensures StrAt(j, "name") == StrAt(k, "name") && IncumbentAt(j) == IncumbentAt(k) && StrategyAt(j) == StrategyAt(k)
    ensures ArmsAt(env, j) == ArmsAt(env, k) && DatasetsAt(j) == DatasetsAt(k)
  {
    assert SameAt(j, k, "name");
    assert SameAt(j, k, "incumbent");
    assert SameAt(j, k, "strategy_plugin");
    assert SameAt(j, k, "arms");
    assert SameAt(j, k, "datasets");
  }

  lemma SameEvaluation(env: Env, j: Json, k: Json)
    requires SameSections(j, k)
    ensures EvaluatorsAt(env, j) == EvaluatorsAt(env, k) && BudgetsAt(j) == BudgetsAt(k) && PolicyAt(j) == PolicyAt(k)
    ensures StatisticsAt(env, j) == StatisticsAt(env, k) && StoppingAt(j) == StoppingAt(k)
  {
    assert SameAt(j, k, "evaluators");
    assert SameAt(j, k, "budgets");
    assert SameAt(j, k, "promotion_policy");
    assert SameAt(j, k, "statistics");
    assert SameAt(j, k, "stopping_rules");
  }

  lemma SameOptional(env: Env, j: Json, k: Json)
    requires SameSections(j, k)
    ensures ParseDigest(j, "tier4_policy_digest") == ParseDigest(k, "tier4_policy_digest")
    ensures OptionalStr(j, "environment") == OptionalStr(k, "environment")
    ensures Get(j, "compensation_plan") == Get(k, "compensation_plan")
    ensures Get(j, "mutation_classes") == Get(k, "mutation_classes")
  {
    assert SameAt(j, k, "tier4_policy_digest");
    assert SameAt(j, k, "environment");
    assert SameAt(j, k, "compensation_plan");
    assert SameAt(j, k, "mutation_classes");
  }

  lemma SameMetadata(env: Env, j: Json, k: Json)
    requires SameSections(j, k)
    ensures MetadataAt(env, j) == MetadataAt(env, k)
  {
    assert SameAt(j, k, "metadata");
    assert Item(j, "metadata").Ok? ==> GetOr(j, "metadata", Dict(map[])) == Item(j, "metadata").value;
    assert Item(k, "metadata").Ok? ==> GetOr(k, "metadata", Dict(map[])) == Item(k, "metadata").value;
  }

  predicate ReadAlike(env: Env, j: Json, k: Json) {
    && StrAt(j, "name") == StrAt(k, "name") && IncumbentAt(j) == IncumbentAt(k) && StrategyAt(j) == StrategyAt(k)
    && ArmsAt(env, j) == ArmsAt(env, k) && DatasetsAt(j) == DatasetsAt(k)
    && EvaluatorsAt(env, j) == EvaluatorsAt(env, k) && BudgetsAt(j) == BudgetsAt(k) && PolicyAt(j) == PolicyAt(k)
    && StatisticsAt(env, j) == StatisticsAt(env, k) && StoppingAt(j) == StoppingAt(k)
    && ParseDigest(j, "tier4_policy_digest") == ParseDigest(k, "tier4_policy_digest")
    && OptionalStr(j, "environment") == OptionalStr(k, "environment")
    && DecodePlan(Get(j, "compensation_plan")) == DecodePlan(Get(k, "compensation_plan"))
    && DecodeClasses(env, Get(j, "mutation_classes")) == DecodeClasses(env, Get(k, "mutation_classes"))
    && MetadataAt(env, j) == MetadataAt(env, k)
  }

  lemma AlikeParse(env: Env, j: Json, k: Json, artifacts: seq<MutableArtifact>)
    requires ReadAlike(env, j, k)
    ensures ParseSections(env, j, artifacts) == ParseSections(env, k, artifacts)
  {
  }

  lemma SameReadAlike(env: Env, j: Json, k: Json)
    requires SameSections(j, k)
    ensures ReadAlike(env, j, k)
  {
    SameSearch(env, j, k);
    SameEvaluation(env, j, k);
    SameOptional(env, j, k);
    SameMetadata(env, j, k);
  }

  lemma SectionsIgnoreVersion(env: Env, j: Json, k: Json, artifacts: seq<MutableArtifact>)
    requires SameSections(j, k)
    ensures ParseSections(env, j, artifacts) == ParseSections(env, k, artifacts)
  {
    SameReadAlike(env, j, k);
    AlikeParse(env, j, k, artifacts);
  }

  function Versioned(fields: map<string, Json>, version: int): Json {
    Dict(fields["schema_version" := Int(version)])
  }

  lemma VersionedSame(fields: map<string, Json>, v: int, w: int)
    ensures SameSections(Versioned(fields, v), Versioned(fields, w))
    ensures Get(Versioned(fields, v), "mutable_artifacts") == Get(Versioned(fields, w), "mutable_artifacts")
    ensures IntAt(Versioned(fields, v), "schema_version") == Ok(v) && IntAt(Versioned(fields, w), "schema_version") == Ok(w)
  {
  }

  lemma IdentityRefusals(raw: Json)
    ensures IdentityAt(raw).Err? ==> IdentityAt(raw).error == InvalidSpec
  {
  }

  lemma SameIdentity(env: Env, j: Json, k: Json)
    requires SameSections(j, k)
    ensures IdentityAt(j) == IdentityAt(k)
  {
    SameReadAlike(env, j, k);
  }

  /** Two documents with the same sections parse alike when their mutation surfaces
      do. */
  lemma SameSurfaceParse(env: Env, j: Json, k: Json, v: int, w: int)
    requires SameSections(j, k) && IntAt(j, "schema_version") == Ok(v) && IntAt(k, "schema_version") == Ok(w)
    requires ParseArtifacts(env, j, v) == ParseArtifacts(env, k, w)
    ensures FromMapping(env, j) == FromMapping(env, k)
  {
    SameIdentity(env, j, k);
    if ParseArtifacts(env, k, w).Ok? {
      SectionsIgnoreVersion(env, j, k, ParseArtifacts(env, k, w).value);
    }
  }

  lemma RefusedSurface(env: Env, j: Json, v: int)
    requires IntAt(j, "schema_version") == Ok(v) && ParseArtifacts(env, j, v) == Err(InvalidSpec)
    ensures FromMapping(env, j) == Err(InvalidSpec)
  {
    IdentityRefusals(j);
  }

  /** A second-version document, whatever else it holds, parses exactly as the
      third-version document with the same sections while its window is open, and
      is refused after. */
  lemma SecondVersionMeansThird(env: Env, fields: map<string, Json>)
    ensures FromMapping(env, Versioned(fields, 2))
         == if After(env.today, V2_WINDOW_END) then Err(InvalidSpec) else FromMapping(env, Versioned(fields, 3))
  {
    var j, k := Versioned(fields, 2), Versioned(fields, 3);
    VersionedSame(fields, 2, 3);
    if After(env.today, V2_WINDOW_END) {
      RefusedSurface(env, j, 2);
    } else {
      SameSurfaceParse(env, j, k, 2, 3);
    }
  }

  /** A first-version document carries one binding where the third carries a
      list. */
  function FirstVersion(fields: map<string, Json>, binding: Json): Json {
    Versioned(fields["mutable_artifact" := binding], 1)
  }

  function Upgraded(fields: map<string, Json>, binding: Json): Json {
    Versioned(fields["mutable_artifacts" := List([binding])], 3)
  }

  lemma FirstVersionSame(fields: map<string, Json>, binding: Json)
    ensures SameSections(FirstVersion(fields, binding), Upgraded(fields, binding))
    ensures Get(FirstVersion(fields, binding), "mutable_artifact") == binding
    ensures Get(Upgraded(fields, binding), "mutable_artifacts") == List([binding])
    ensures IntAt(FirstVersion(fields, binding), "schema_version") == Ok(1)
    ensures IntAt(Upgraded(fields, binding), "schema_version") == Ok(3)
  {
  }

  lemma OneBinding(env: Env, binding: Json)
    ensures DecodeArtifacts(env, List([binding])) ==
            var x := DecodeArtifact(env, binding);
            if x.Ok? then CheckedArtifacts(env, [x.value]) else Err(InvalidSpec)
  {
    ArtifactRefusals(env, binding);
    var items := [binding];
    assert items[1..] == [];
    assert DecodeAll(items[1..], ArtifactParser(env)) == Ok([]);
    assert ArtifactParser(env)(binding) == DecodeArtifact(env, binding);
    if DecodeArtifact(env, binding).Ok? {
      var x := DecodeArtifact(env, binding).value;
      assert [x] + [] == [x];
      assert DecodeAll(items, ArtifactParser(env)) == Ok([x]);
    }
  }

  lemma ArtifactRefusals(env: Env, binding: Json)
    ensures DecodeArtifact(env, binding).Err? ==> DecodeArtifact(env, binding).error == InvalidSpec
    ensures !binding.Dict? ==> DecodeArtifact(env, binding) == Err(InvalidSpec)
  {
    if StrAt(binding, "artifact_type").Ok? && Item(binding, "paths").Ok? && Walk(env, binding.fields["paths"]).Ok? {
      StrsRefusals(Walk(env, binding.fields["paths"]).value);
    }
  }

  lemma {:induction false} StrsRefusals(items: seq<Json>)
    ensures RequireStrs(items).Err? ==> RequireStrs(items).error == InvalidSpec
  {
    if items != [] {
      StrsRefusals(items[1..]);
    }
  }

  /** A first-version document parses exactly as its upgrade while its window is
      open, and is refused after. */
  lemma FirstVersionMeansThird(env: Env, fields: map<string, Json>, binding: Json)
    ensures FromMapping(env, FirstVersion(fields, binding))
         == if After(env.today, V1_WINDOW_END) then Err(InvalidSpec) else FromMapping(env, Upgraded(fields, binding))
  {
    var j, k := FirstVersion(fields, binding), Upgraded(fields, binding);
    FirstVersionSame(fields, binding);
    OneBinding(env, binding);
    ArtifactRefusals(env, binding);
    if After(env.today, V1_WINDOW_END) {
      RefusedSurface(env, j, 1);
    } else {
      SameSurfaceParse(env, j, k, 1, 3);
    }
  }

  // -- only valid specs come out ---------------------------------------------------------------

  lemma {:induction false} DecodedArtifactsValid(env: Env, items: seq<Json>)
    requires DecodeAll(items, ArtifactParser(env)).Ok?
    ensures var xs := DecodeAll(items, ArtifactParser(env)).value; forall i :: 0 <= i < |xs| ==> ValidArtifact(env, xs[i])
  {
    AllDecoded(items, ArtifactParser(env), (x: MutableArtifact) => ValidArtifact(env, x));
  }

  lemma ParsedArtifactsValid(env: Env, raw: Json, version: int)
    requires ParseArtifacts(env, raw, version).Ok?
    ensures ValidArtifacts(env, ParseArtifacts(env, raw, version).value)
  {
    if version == 3 || version == 2 {
      DecodedArtifactsValid(env, Get(raw, "mutable_artifacts").items);
    }
  }

  lemma ParsedArmsValid(env: Env, raw: Json)
    requires ArmsAt(env, raw).Ok?
    ensures var xs := ArmsAt(env, raw).value; forall i :: 0 <= i < |xs| ==> ValidArm(xs[i])
  {
    AllDecoded(Walk(env, Item(raw, "arms").value).value, DecodeArm, ValidArm);
  }

  lemma ParsedEvaluatorsValid(env: Env, raw: Json)
    requires EvaluatorsAt(env, raw).Ok?
    ensures var xs := EvaluatorsAt(env, raw).value; forall i :: 0 <= i < |xs| ==> ValidEvaluator(xs[i])
  {
    AllDecoded(Walk(env, Item(raw, "evaluators").value).value, DecodeEvaluator, ValidEvaluator);
  }

  lemma ParsedPlanValid(j: Json)
    requires DecodePlan(j).Ok? && DecodePlan(j).value.Some?
    ensures ValidActions(DecodePlan(j).value.value)
  {
    AllDecoded(Get(j, "actions").items, DecodeAction, ValidAction);
  }

  lemma ParsedClassesValid(env: Env, j: Json)
    requires DecodeClasses(env, j).Ok?
    ensures ValidClasses(env, DecodeClasses(env, j).value)
  {
    if !Falsy(j) {
      AllDecoded(j.items, ClassParser(env), (x: MutationClass) => ValidClass(env, x));
    }
  }

  lemma SectionsRead(env: Env, raw: Json, artifacts: seq<MutableArtifact>)
    requires ParseSections(env, raw, artifacts).Ok?
    ensures var s := ParseSections(env, raw, artifacts).value;
            && ReadsSearch(env, raw, s) && ReadsEvaluation(env, raw, s) && ReadsOptional(env, raw, s)
            && s.artifacts == artifacts && Refusal(s).None?
  {
    Assembled(artifacts, StrAt(raw, "name"), IncumbentAt(raw), StrategyAt(raw), ArmsAt(env, raw), DatasetsAt(raw),
              EvaluatorsAt(env, raw), BudgetsAt(raw), PolicyAt(raw), ParseDigest(raw, "tier4_policy_digest"),
              StatisticsAt(env, raw), StoppingAt(raw), OptionalStr(raw, "environment"),
              DecodePlan(Get(raw, "compensation_plan")), DecodeClasses(env, Get(raw, "mutation_classes")),
              MetadataAt(env, raw));
  }

  lemma SearchValid(env: Env, raw: Json, s: CampaignSpec)
    requires ReadsSearch(env, raw, s)
    ensures ValidIncumbent(s.incumbent) && ValidStrategy(s.strategy) && ValidDatasets(s.datasets)
    ensures forall i :: 0 <= i < |s.arms| ==> ValidArm(s.arms[i])
  {
    ParsedArmsValid(env, raw);
  }

  lemma BudgetsReadValid(raw: Json)
    requires BudgetsAt(raw).Ok?
    ensures ValidBudgets(BudgetsAt(raw).value)
  {
  }

  lemma StatisticsReadValid(env: Env, raw: Json)
    requires StatisticsAt(env, raw).Ok?
    ensures ValidStatistics(env, StatisticsAt(env, raw).value)
  {
  }

  lemma PolicyReadValid(raw: Json)
    requires PolicyAt(raw).Ok? && StoppingAt(raw).Ok?
    ensures ValidPolicy(PolicyAt(raw).value) && ValidStopping(StoppingAt(raw).value)
  {
  }

  lemma EvaluationValid(env: Env, raw: Json, s: CampaignSpec)
    requires ReadsEvaluation(env, raw, s)
    ensures ValidBudgets(s.budgets) && ValidPolicy(s.policy) && ValidStatistics(env, s.statistics) && ValidStopping(s.stopping)
    ensures forall i :: 0 <= i < |s.evaluators| ==> ValidEvaluator(s.evaluators[i])
  {
    BudgetsReadValid(raw);
    StatisticsReadValid(env, raw);
    PolicyReadValid(raw);
    ParsedEvaluatorsValid(env, raw);
  }

  lemma OptionalValid(env: Env, raw: Json, s: CampaignSpec)
    requires ReadsOptional(env, raw, s)
    ensures s.plan.Some? ==> ValidActions(s.plan.value)
    ensures ValidClasses(env, s.classes)
  {
    if s.plan.Some? {
      ParsedPlanValid(Get(raw, "compensation_plan"));
    }
    ParsedClassesValid(env, Get(raw, "mutation_classes"));
  }

  lemma ParsedSectionsValid(env: Env, raw: Json, artifacts: seq<MutableArtifact>)
    requires ValidArtifacts(env, artifacts) && ParseSections(env, raw, artifacts).Ok?
    ensures ValidSpec(env, ParseSections(env, raw, artifacts).value)
  {
    SectionsRead(env, raw, artifacts);
    var s := ParseSections(env, raw, artifacts).value;
    SearchValid(env, raw, s);
    EvaluationValid(env, raw, s);
    OptionalValid(env, raw, s);
  }

  /** Construction is validation: whatever the document, if it parses at all the
      spec is valid. */
  lemma ParsedIsValid(env: Env, raw: Json)
    requires FromMapping(env, raw).Ok?
    ensures ValidSpec(env, FromMapping(env, raw).value)
  {
    var version := IntAt(raw, "schema_version").value;
    ParsedArtifactsValid(env, raw, version);
    ParsedSectionsValid(env, raw, ParseArtifacts(env, raw, version).value);
  }

  /** The canonical form is a normal form: two documents parse to the same spec
      exactly when re-serialising them gives the same canonical form. */
  lemma CanonicalIsNormalForm(env: Env, raw: Json, other: Json)
    requires FromMapping(env, raw).Ok? && FromMapping(env, other).Ok?
    ensures FromMapping(env, raw) == FromMapping(env, other)
       <==> ToCanonical(FromMapping(env, raw).value) == ToCanonical(FromMapping(env, other).value)
    ensures FromMapping(env, ToCanonical(FromMapping(env, raw).value)) == FromMapping(env, raw)
  {
    ParsedIsValid(env, raw);
    ParsedIsValid(env, other);
    CanonicalRoundTrip(env, FromMapping(env, raw).value);
    CanonicalRoundTrip(env, FromMapping(env, other).value);
  }
}
