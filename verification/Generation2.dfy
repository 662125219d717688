/** Deriving the second-generation spec, and pinning a spec to its digest and
    signature. */
module Generation2 {
  import opened Wrappers
  import opened SpecJson
  import opened SpecSections
  import opened CampaignSpecs
  import opened Arms

  function ResolveIncumbent(promotedDigest: string, artifactType: string): Result<IncumbentBinding, SpecError> {
    var x := IncumbentBinding(promotedDigest, artifactType);
    Checked(x, ValidIncumbent(x))
  }

  function Rebound(datasets: Datasets, handle: string): Result<Datasets, SpecError> {
    var x := datasets.(holdout := handle);
    Checked(x, ValidDatasets(x))
  }

  function Lineage(s: CampaignSpec): map<string, string> {
    s.metadata["generation" := "2"]["derived_from" := s.name]
  }

  /** Everything is inherited but the incumbent, the holdout handle, the name and
      the lineage; the result goes through every validator again. */
  function DeriveGeneration2(s: CampaignSpec, promotedDigest: string, handle: string, name: Option<string>):
      Result<CampaignSpec, SpecError>
  {
    var incumbent :- ResolveIncumbent(promotedDigest, s.incumbent.artifactType);
    var datasets :- Rebound(s.datasets, handle);
    Constructed(CampaignSpec(
                  if name.Some? then name.value else s.name + "-gen2",
                  incumbent, s.artifacts, s.strategy, s.arms, datasets, s.evaluators, s.budgets, s.policy,
                  s.statistics, s.stopping, s.plan, s.classes, Lineage(s), s.environment, s.tier4))
  }

  function Derived(s: CampaignSpec, promotedDigest: string, handle: string, name: Option<string>): CampaignSpec {
    s.(incumbent := s.incumbent.(digest := promotedDigest), datasets := s.datasets.(holdout := handle),
       name := if name.Some? then name.value else s.name + "-gen2", metadata := Lineage(s))
  }

  /** From a valid spec the derivation succeeds exactly when the digest is well
      formed, the handle sealed and the name not empty; the derived spec is valid
      and differs in nothing but those and its lineage. */
  lemma DerivedExactly(env: Env, s: CampaignSpec, promotedDigest: string, handle: string, name: Option<string>)
    requires ValidSpec(env, s)
    ensures DeriveGeneration2(s, promotedDigest, handle, name).Ok? <==>
              IsDigest(promotedDigest) && IsSealedHandle(handle) && name != Some("")
    ensures DeriveGeneration2(s, promotedDigest, handle, name).Ok? ==>
              && DeriveGeneration2(s, promotedDigest, handle, name).value == Derived(s, promotedDigest, handle, name)
              && ValidSpec(env, Derived(s, promotedDigest, handle, name))
    ensures var lineage := Derived(s, promotedDigest, handle, name).metadata;
            && lineage.Keys == s.metadata.Keys + {"generation", "derived_from"}
            && lineage["generation"] == "2" && lineage["derived_from"] == s.name
            && forall key :: key in s.metadata && key != "generation" && key != "derived_from" ==> lineage[key] == s.metadata[key]
  {
    assert "generation"[0] != "derived_from"[0];
  }

  // -- pinning ------------------------------------------------------------------------------

  type Bytes = seq<int>

  /** Text encoding, hashing and signatures, left open. */
  datatype Keys = Keys(encode: Json -> Bytes, hash: Bytes -> string, sign: Bytes -> Bytes, verify: (Bytes, Bytes) -> bool)

  ghost predicate SignsCorrectly(k: Keys) {
    forall body: Bytes :: k.verify(k.sign(body), body)
  }

  function CanonicalBytes(k: Keys, s: CampaignSpec): Bytes {
    k.encode(ToCanonical(s))
  }

  function SpecDigest(k: Keys, s: CampaignSpec): string {
    "sha256:" + k.hash(CanonicalBytes(k, s))
  }

  datatype PinnedSpec = PinnedSpec(spec: CampaignSpec, digest: string, signature: Bytes)

  function PinAndSign(k: Keys, s: CampaignSpec): PinnedSpec {
    PinnedSpec(s, SpecDigest(k, s), k.sign(CanonicalBytes(k, s)))
  }

  predicate Verifies(k: Keys, p: PinnedSpec) {
    p.digest == SpecDigest(k, p.spec) && k.verify(p.signature, CanonicalBytes(k, p.spec))
  }

  /** Two different documents the pin cannot tell apart: their texts coincide, or
      their texts hash alike. */
  predicate Indistinct(k: Keys, s: CampaignSpec, t: CampaignSpec) {
    || (ToCanonical(s) != ToCanonical(t) && CanonicalBytes(k, s) == CanonicalBytes(k, t))
    || (CanonicalBytes(k, s) != CanonicalBytes(k, t) && k.hash(CanonicalBytes(k, s)) == k.hash(CanonicalBytes(k, t)))
  }

  /** A pin binds the whole document: a freshly pinned spec verifies, and putting
      any other valid spec under the pin is noticed unless the two encodings or
      their hashes clash. */
  lemma PinBindsTheSpec(env: Env, k: Keys, s: CampaignSpec, t: CampaignSpec)
    requires ValidSpec(env, s) && ValidSpec(env, t) && SignsCorrectly(k)
    ensures Verifies(k, PinAndSign(k, s))
    ensures Verifies(k, PinAndSign(k, s).(spec := t)) ==> t == s || Indistinct(k, s, t)
  {
    var body := CanonicalBytes(k, s);
    assert k.verify(k.sign(body), body);
    if Verifies(k, PinAndSign(k, s).(spec := t)) && !Indistinct(k, s, t) {
      DigestSuffix(k, s, t);
      CanonicalInjective(env, s, t);
    }
  }

  /** Whoever pinned a spec that verifies signed its text: one no signature was
      made for is refused, whatever digest it carries. */
  lemma UnsignedSpecRefused(k: Keys, p: PinnedSpec, signed: set<Bytes>)
    requires forall signature: Bytes, body: Bytes :: k.verify(signature, body) ==> body in signed
    ensures Verifies(k, p) ==> k.encode(ToCanonical(p.spec)) in signed
    ensures Verifies(k, p) ==> p.digest == "sha256:" + k.hash(k.encode(ToCanonical(p.spec)))
  {
  }

  lemma DigestSuffix(k: Keys, s: CampaignSpec, t: CampaignSpec)
    requires SpecDigest(k, s) == SpecDigest(k, t)
    ensures k.hash(CanonicalBytes(k, s)) == k.hash(CanonicalBytes(k, t))
  {
    assert SpecDigest(k, s)[7..] == k.hash(CanonicalBytes(k, s));
    assert SpecDigest(k, t)[7..] == k.hash(CanonicalBytes(k, t));
  }
}
