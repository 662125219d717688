/** Signed compensation plans: deriving the executable actions, walking a
    rollback, and the promotion check over the recorded evidence. */
module Compensation {
  import opened Wrappers

  const CAS_MODE := "cas"
  const REQUIRES_EXECUTION_MODE := "requires_execution"

  /** The action names whose compensation needs no execution of its own. */
  predicate IsCasKind(action: string) {
    || action == "restore_prior_release_pointer"
    || action == "revoke_artifact"
    || action == "restore_scaffold_source"
  }

  predicate IsKnownKind(action: string) {
    IsCasKind(action) || action == "run_compensation_hook" || action == "rerun_conformance_suite"
  }

  /** Names this runtime does not know classify as requiring execution. */
  function ClassificationForAction(action: string): string {
    if !IsKnownKind(action) then REQUIRES_EXECUTION_MODE
    else if IsCasKind(action) then CAS_MODE
    else REQUIRES_EXECUTION_MODE
  }

  datatype PlanAction = PlanAction(artifactDigest: string, action: string, mode: string, executed: bool)

  datatype ExecutionRecord = ExecutionRecord(planId: string, actionIndex: nat, artifactDigest: string, at: real)

  type Bytes = seq<int>

  datatype SignedPlan = SignedPlan(
    planId: string,
    campaignId: Option<string>,
    manifestDigest: Option<string>,
    actions: seq<PlanAction>,
    planDigest: string,
    signature: Bytes,
    signerPublicKey: Bytes)

  /** Hashing, signatures and the JSON encodings, left uninterpreted. */
  datatype Crypto = Crypto(
    digestOf: Bytes -> string,
    verifySignature: (Bytes, Bytes, Bytes) -> bool,
    planBody: (string, Option<string>, Option<string>, seq<PlanAction>) -> Bytes,
    encodePlan: SignedPlan -> Bytes,
    decodePlan: Bytes -> Option<SignedPlan>)

  function Body(c: Crypto, plan: SignedPlan): Bytes {
    c.planBody(plan.planId, plan.campaignId, plan.manifestDigest, plan.actions)
  }

  predicate Verifies(c: Crypto, plan: SignedPlan) {
    && plan.planDigest == c.digestOf(Body(c, plan))
    && c.verifySignature(plan.signature, plan.signerPublicKey, Body(c, plan))
  }

  // -- the rollback walk --------------------------------------------------------

  predicate NeedsExecution(plan: SignedPlan, i: nat)
    requires i < |plan.actions|
  {
    plan.actions[i].mode != CAS_MODE
  }

  /** The positions below `count` that need execution, in declared order. */
  function ToExecute(plan: SignedPlan, count: nat): (r: seq<nat>)
    requires count <= |plan.actions|
    ensures forall k :: 0 <= k < |r| ==> r[k] < count
  {
    if count == 0 then []
    else if NeedsExecution(plan, count - 1) then ToExecute(plan, count - 1) + [count - 1]
    else ToExecute(plan, count - 1)
  }

  function RecordsFor(plan: SignedPlan, positions: seq<nat>, clock: nat -> real): (r: seq<ExecutionRecord>)
    requires forall k :: 0 <= k < |positions| ==> positions[k] < |plan.actions|
    ensures |r| == |positions|
    ensures forall k :: 0 <= k < |r| ==> r[k] == RecordFor(plan, positions[k], clock)
  {
    seq(|positions|, k requires 0 <= k < |positions| && positions[k] < |plan.actions| =>
      RecordFor(plan, positions[k], clock))
  }

  /** `clock(i)` is the reading taken once action `i` has been executed. */
  function RecordFor(plan: SignedPlan, i: nat, clock: nat -> real): ExecutionRecord
    requires i < |plan.actions|
  {
    ExecutionRecord(plan.planId, i, plan.actions[i].artifactDigest, clock(i))
  }

  /** Exactly the positions that need execution, each once, ascending. */
  lemma {:induction false} ToExecuteExact(plan: SignedPlan, count: nat)
    requires count <= |plan.actions|
    ensures forall k, k' :: 0 <= k < k' < |ToExecute(plan, count)| ==> ToExecute(plan, count)[k] < ToExecute(plan, count)[k']
    ensures forall i: nat :: i in ToExecute(plan, count) <==> i < count && NeedsExecution(plan, i)
  {
    if count > 0 {
      ToExecuteExact(plan, count - 1);
    }
  }

  datatype CompensationError =
    | PlanTampered
    | Unexecuted(planId: string, actionIndex: nat)
    | ExecutorFailed(actionIndex: nat)
    | PlanBuild(position: nat)

  /** An executor of compensations: it fails at the positions in `failing`, which
      the environment may change between walks, and remembers what it performed. */
  class Executor {
    var failing: set<nat>
    var performed: seq<nat>

    constructor ()
      ensures failing == {} && performed == []
    {
      failing := {};
      performed := [];
    }

    method Execute(actionIndex: nat, action: PlanAction) returns (ok: bool)
      modifies this`performed
      ensures ok == (actionIndex !in failing)
      ensures performed == if ok then old(performed) + [actionIndex] else old(performed)
    {
      ok := actionIndex !in failing;
      if ok {
        performed := performed + [actionIndex];
      }
    }
  }

  /** The first position the walk fails at, if any. */
  ghost predicate FailsAt(plan: SignedPlan, failing: set<nat>, i: nat) {
    && i < |plan.actions| && NeedsExecution(plan, i) && i in failing
    && forall j: nat :: j < i && NeedsExecution(plan, j) ==> j !in failing
  }

  ghost predicate Completes(plan: SignedPlan, failing: set<nat>) {
    forall j: nat :: j < |plan.actions| && NeedsExecution(plan, j) ==> j !in failing
  }

  method ExecuteRollbackCompensations(plan: SignedPlan, executor: Executor, clock: nat -> real)
    returns (r: Result<seq<ExecutionRecord>, CompensationError>)
    modifies executor`performed
    ensures r.Ok? <==> Completes(plan, executor.failing)
    ensures r.Ok? ==>
      && r.value == RecordsFor(plan, ToExecute(plan, |plan.actions|), clock)
      && executor.performed == old(executor.performed) + ToExecute(plan, |plan.actions|)
    ensures r.Err? ==>
      && r.error.ExecutorFailed?
      && FailsAt(plan, executor.failing, r.error.actionIndex)
      && executor.performed == old(executor.performed) + ToExecute(plan, r.error.actionIndex)
  {
    var records: seq<ExecutionRecord> := [];
    for index := 0 to |plan.actions|
      invariant records == RecordsFor(plan, ToExecute(plan, index), clock)
      invariant executor.performed == old(executor.performed) + ToExecute(plan, index)
      invariant forall j: nat :: j < index && NeedsExecution(plan, j) ==> j !in executor.failing
    {
      var action := plan.actions[index];
      if action.mode == CAS_MODE {
        continue;
      }
      var ok := executor.Execute(index, action);
      if !ok {
        return Err(ExecutorFailed(index));
      }
      records := records + [ExecutionRecord(plan.planId, index, action.artifactDigest, clock(index))];
    }
    return Ok(records);
  }

  /** The evidence of a complete walk: one record for every action outside the CAS
      mode and no other, with the plan's id, the action's own artifact and the
      time it was done. */
  lemma WalkEvidence(plan: SignedPlan, clock: nat -> real, r: ExecutionRecord)
    ensures r in RecordsFor(plan, ToExecute(plan, |plan.actions|), clock) <==>
              && r.actionIndex < |plan.actions| && plan.actions[r.actionIndex].mode != "cas"
              && r == ExecutionRecord(plan.planId, r.actionIndex, plan.actions[r.actionIndex].artifactDigest, clock(r.actionIndex))
    ensures |RecordsFor(plan, ToExecute(plan, |plan.actions|), clock)| == |ToExecute(plan, |plan.actions|)|
  {
    ToExecuteExact(plan, |plan.actions|);
    var positions := ToExecute(plan, |plan.actions|);
    var records := RecordsFor(plan, positions, clock);
    if r in records {
      var k :| 0 <= k < |records| && records[k] == r;
      assert positions[k] in positions;
    }
    if r.actionIndex in positions {
      var k :| 0 <= k < |positions| && positions[k] == r.actionIndex;
      assert records[k] in records;
    }
  }

  // -- what a verified plan vouches for ----------------------------------------------

  /** A plan that verifies carries the digest of its own contents, and whoever
      holds its key signed those contents. */
  lemma VerifiedPlanWasSigned(c: Crypto, plan: SignedPlan, signed: set<Bytes>)
    requires forall signature: Bytes, body: Bytes :: c.verifySignature(signature, plan.signerPublicKey, body) ==> body in signed
    ensures Verifies(c, plan) ==>
              var body := c.planBody(plan.planId, plan.campaignId, plan.manifestDigest, plan.actions);
              plan.planDigest == c.digestOf(body) && body in signed
  {
  }

  /** A plan put together and signed the same way verifies. */
  lemma SignedPlanVerifies(c: Crypto, sign: Bytes -> Bytes, key: Bytes, planId: string, campaignId: Option<string>,
                           manifestDigest: Option<string>, actions: seq<PlanAction>)
    requires forall body: Bytes :: c.verifySignature(sign(body), key, body)
    ensures var body := c.planBody(planId, campaignId, manifestDigest, actions);
            Verifies(c, SignedPlan(planId, campaignId, manifestDigest, actions, c.digestOf(body), sign(body), key))
  {
  }

  /** Altering a verified plan under its digest is noticed, unless the two contents
      encode or hash alike. */
  lemma AlteredPlanRefused(c: Crypto, plan: SignedPlan, altered: SignedPlan)
    requires Verifies(c, plan) && altered.planDigest == plan.planDigest
    ensures var body := c.planBody(plan.planId, plan.campaignId, plan.manifestDigest, plan.actions);
            var other := c.planBody(altered.planId, altered.campaignId, altered.manifestDigest, altered.actions);
            !Verifies(c, altered) || other == body || (other != body && c.digestOf(other) == c.digestOf(body))
  {
  }

  // -- the promotion check ------------------------------------------------------

  predicate Evidenced(plan: SignedPlan, records: seq<ExecutionRecord>, i: nat) {
    exists k :: 0 <= k < |records| && records[k].planId == plan.planId && records[k].actionIndex == i
  }

  /** Every action that needs execution has a record of this plan. */
  ghost predicate Covers(plan: SignedPlan, records: seq<ExecutionRecord>) {
    forall i: nat :: i < |plan.actions| && NeedsExecution(plan, i) ==> Evidenced(plan, records, i)
  }

  method AssertPromotionAllowed(c: Crypto, plan: SignedPlan, executions: seq<ExecutionRecord>)
    returns (r: Result<(), CompensationError>)
    ensures r.Ok? <==> Verifies(c, plan) && Covers(plan, executions)
    ensures r == Err(PlanTampered) <==> !Verifies(c, plan)
    ensures r.Err? && r.error != PlanTampered ==>
      && r.error.Unexecuted? && r.error.planId == plan.planId && r.error.actionIndex < |plan.actions|
      && NeedsExecution(plan, r.error.actionIndex) && !Evidenced(plan, executions, r.error.actionIndex)
      && forall j: nat :: j < r.error.actionIndex && NeedsExecution(plan, j) ==> Evidenced(plan, executions, j)
  {
    if !Verifies(c, plan) {
      return Err(PlanTampered);
    }
    for index := 0 to |plan.actions|
      invariant forall j: nat :: j < index && NeedsExecution(plan, j) ==> Evidenced(plan, executions, j)
    {
      if plan.actions[index].mode == CAS_MODE {
        continue;
      }
      if !Evidenced(plan, executions, index) {
        return Err(Unexecuted(plan.planId, index));
      }
    }
    return Ok(());
  }

  /** Evidence is never lost by recording more. */
  lemma CoversMonotone(plan: SignedPlan, records: seq<ExecutionRecord>, more: seq<ExecutionRecord>)
    requires Covers(plan, records)
    ensures Covers(plan, records + more)
  {
    forall i: nat | i < |plan.actions| && NeedsExecution(plan, i) ensures Evidenced(plan, records + more, i) {
      var k :| 0 <= k < |records| && records[k].planId == plan.planId && records[k].actionIndex == i;
      assert (records + more)[k] == records[k];
    }
  }

  /** Records of other plans are no evidence, whatever actions they name. */
  lemma ForeignRecordsDoNotCount(plan: SignedPlan, records: seq<ExecutionRecord>, foreign: seq<ExecutionRecord>)
    requires forall k :: 0 <= k < |foreign| ==> foreign[k].planId != plan.planId
    ensures Covers(plan, records + foreign) <==> Covers(plan, records)
  {
    var all := records + foreign;
    if Covers(plan, all) {
      forall i: nat | i < |plan.actions| && NeedsExecution(plan, i) ensures Evidenced(plan, records, i) {
        assert Evidenced(plan, all, i);
        var k :| 0 <= k < |all| && all[k].planId == plan.planId && all[k].actionIndex == i;
        assert all[k] !in foreign;
        assert all[k] == records[k];
      }
    }
    if Covers(plan, records) {
      CoversMonotone(plan, records, foreign);
    }
  }

  /** One action outside the CAS mode that no record of the plan names is enough
      to refuse the promotion. */
  lemma OneMissingRecord(plan: SignedPlan, records: seq<ExecutionRecord>, i: nat)
    requires i < |plan.actions| && plan.actions[i].mode != "cas"
    requires forall k :: 0 <= k < |records| ==> records[k].planId != plan.planId || records[k].actionIndex != i
    ensures !Covers(plan, records)
  {
    assert NeedsExecution(plan, i) && !Evidenced(plan, records, i);
  }

  /** The records of one complete walk discharge the plan. */
  lemma WalkCovers(plan: SignedPlan, records: seq<ExecutionRecord>, clock: nat -> real)
    ensures Covers(plan, records + RecordsFor(plan, ToExecute(plan, |plan.actions|), clock))
  {
    ToExecuteExact(plan, |plan.actions|);
    var positions := ToExecute(plan, |plan.actions|);
    var all := records + RecordsFor(plan, positions, clock);
    forall i: nat | i < |plan.actions| && NeedsExecution(plan, i) ensures Evidenced(plan, all, i) {
      assert i in positions;
      var k :| 0 <= k < |positions| && positions[k] == i;
      assert all[|records| + k] == RecordsFor(plan, positions, clock)[k];
    }
  }

  // -- building a plan from the spec ----------------------------------------------

  datatype SpecAction = SpecAction(artifactType: string, action: string)

  predicate Resolved(a: SpecAction, digests: map<string, string>) {
    a.artifactType in digests && digests[a.artifactType] != ""
  }

  const CAS_KINDS := ["restore_prior_release_pointer", "revoke_artifact", "restore_scaffold_source"]

  /** Any name but the three, known or not. */
  predicate MustRun(action: string) {
    action !in CAS_KINDS
  }

  method PlanActionsFromSpec(specActions: seq<SpecAction>, digests: map<string, string>)
    returns (r: Result<seq<PlanAction>, CompensationError>)
    ensures r.Ok? <==> forall i :: 0 <= i < |specActions| ==> Resolved(specActions[i], digests)
    ensures r.Ok? ==> DerivedFrom(r.value, specActions, digests)
    ensures r.Ok? ==> |r.value| == |specActions|
    ensures r.Ok? ==> forall i :: 0 <= i < |specActions| ==>
      var a := specActions[i];
      && a.artifactType in digests && digests[a.artifactType] != ""
      && r.value[i] == PlanAction(digests[a.artifactType], a.action, if MustRun(a.action) then "requires_execution" else "cas", false)
    ensures r.Err? ==>
      r.error.PlanBuild? && r.error.position < |specActions| && !Resolved(specActions[r.error.position], digests)
  {
    var actions: seq<PlanAction> := [];
    for position := 0 to |specActions|
      invariant |actions| == position
      invariant forall i :: 0 <= i < position ==> Resolved(specActions[i], digests)
      invariant DerivedFrom(actions, specActions[..position], digests)
    {
      var a := specActions[position];
      if a.artifactType !in digests || digests[a.artifactType] == "" {
        return Err(PlanBuild(position));
      }
      actions := actions + [PlanAction(digests[a.artifactType], a.action, ClassificationForAction(a.action), false)];
    }
    assert specActions[..|specActions|] == specActions;
    return Ok(actions);
  }

  ghost predicate DerivedFrom(actions: seq<PlanAction>, specActions: seq<SpecAction>, digests: map<string, string>) {
    && |actions| == |specActions|
    && forall i :: 0 <= i < |actions| ==>
         && Resolved(specActions[i], digests)
         && actions[i].artifactDigest == digests[specActions[i].artifactType]
         && actions[i].action == specActions[i].action
         && actions[i].mode == ClassificationForAction(specActions[i].action)
         && !actions[i].executed
  }

  /** From the spec to the gate: a verified plan built from a spec admits
      promotion exactly when every action whose name is not one of the three CAS
      kinds has been executed; an unknown name is never waved through. */
  lemma PromotionNeedsEveryNonCasAction(plan: SignedPlan, specActions: seq<SpecAction>, digests: map<string, string>,
                                        records: seq<ExecutionRecord>)
    requires DerivedFrom(plan.actions, specActions, digests)
    ensures Covers(plan, records) <==> forall i: nat :: i < |specActions| && MustRun(specActions[i].action) ==> Evidenced(plan, records, i)
  {
  }

  // -- content-addressed storage --------------------------------------------------

  /** A content-addressed store, keyed by the digest of the stored bytes. */
  class ContentStore {
    const digestOf: Bytes -> string
    var blobs: map<string, Bytes>

    constructor (digestOf: Bytes -> string)
      ensures this.digestOf == digestOf && blobs == map[]
    {
      this.digestOf := digestOf;
      blobs := map[];
    }

    method Store(data: Bytes) returns (digest: string)
      modifies this`blobs
      ensures digest == digestOf(data)
      ensures blobs == old(blobs)[digest := data]
    {
      digest := digestOf(data);
      blobs := blobs[digest := data];
    }
  }

  method SavePlan(c: Crypto, store: ContentStore, plan: SignedPlan) returns (digest: string)
    modifies store`blobs
    ensures digest == store.digestOf(c.encodePlan(plan))
    ensures store.blobs == old(store.blobs)[digest := c.encodePlan(plan)]
  {
    digest := store.Store(c.encodePlan(plan));
  }

  /** What a load of `digest` must return given the stored bytes. */
  function LoadedPlan(c: Crypto, blobs: map<string, Bytes>, digestOf: Bytes -> string, digest: string)
    : Result<SignedPlan, CompensationError>
  {
    if digest !in blobs || digestOf(blobs[digest]) != digest then Err(PlanTampered)
    else
      var plan := c.decodePlan(blobs[digest]);
      if plan.None? || !Verifies(c, plan.value) then Err(PlanTampered) else Ok(plan.value)
  }

  method LoadPlan(c: Crypto, store: ContentStore, digest: string) returns (r: Result<SignedPlan, CompensationError>)
    ensures r == LoadedPlan(c, store.blobs, store.digestOf, digest)
    ensures r.Ok? ==> Verifies(c, r.value)
  {
    if digest !in store.blobs {
      return Err(PlanTampered);
    }
    var data := store.blobs[digest];
    if store.digestOf(data) != digest {
      return Err(PlanTampered);
    }
    var plan := c.decodePlan(data);
    if plan.None? || !Verifies(c, plan.value) {
      return Err(PlanTampered);
    }
    return Ok(plan.value);
  }

  /** What is not at its address is not loaded, however it reads. */
  lemma MisaddressedPlanRefused(c: Crypto, blobs: map<string, Bytes>, digestOf: Bytes -> string, digest: string, plan: SignedPlan)
    requires digest in blobs && c.decodePlan(blobs[digest]) == Some(plan)
    ensures LoadedPlan(c, blobs, digestOf, digest) ==
            if digestOf(blobs[digest]) == digest && Verifies(c, plan) then Ok(plan) else Err(PlanTampered)
  {
  }

  /** The blobs after storing a list of byte strings. */
  function StoreAll(blobs: map<string, Bytes>, digestOf: Bytes -> string, later: seq<Bytes>): map<string, Bytes> {
    if later == [] then blobs
    else StoreAll(blobs, digestOf, later[..|later| - 1])[digestOf(later[|later| - 1]) := later[|later| - 1]]
  }

  /** Later stores leave an address alone unless one of them collides with it. */
  lemma {:induction false} AddressKept(blobs: map<string, Bytes>, digestOf: Bytes -> string, data: Bytes, later: seq<Bytes>)
    requires digestOf(data) in blobs && blobs[digestOf(data)] == data
    ensures var after := StoreAll(blobs, digestOf, later);
            || (digestOf(data) in after && after[digestOf(data)] == data)
            || exists k :: 0 <= k < |later| && later[k] != data && digestOf(later[k]) == digestOf(data)
  {
    if later != [] {
      var init, last := later[..|later| - 1], later[|later| - 1];
      AddressKept(blobs, digestOf, data, init);
      if k :| 0 <= k < |init| && init[k] != data && digestOf(init[k]) == digestOf(data) {
        assert later[k] == init[k];
      } else if digestOf(last) == digestOf(data) && last != data {
        assert later[|later| - 1] != data;
      }
    }
  }

  /** A saved plan loads back as itself exactly when it verifies, whatever else
      is stored meanwhile, unless two stored byte strings share a digest. */
  lemma SavedPlanLoads(c: Crypto, blobs: map<string, Bytes>, digestOf: Bytes -> string, plan: SignedPlan, later: seq<Bytes>)
    requires c.decodePlan(c.encodePlan(plan)) == Some(plan)
    ensures var data := c.encodePlan(plan);
            var after := StoreAll(blobs[digestOf(data) := data], digestOf, later);
            || LoadedPlan(c, after, digestOf, digestOf(data)) == (if Verifies(c, plan) then Ok(plan) else Err(PlanTampered))
            || exists k :: 0 <= k < |later| && later[k] != data && digestOf(later[k]) == digestOf(data)
  {
  }
}
