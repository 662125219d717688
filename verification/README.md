# A verified model of EvoRuntime's guarantees

EvoRuntime runs preregistered optimisation campaigns over agent releases and
promises that what it reports can be trusted: the comparison statistics, the
tamper-evident event log, the campaign lifecycle with its compensation gate, the
sealed-holdout ledger, the budgets every arm is held to, the redaction boundary,
failure discovery, the campaign spec as a signed document, and the release
ledger. This project models those components in Dafny and proves their promises
over all inputs, all runs and all interleavings.

## How it is organised

Code that updates objects or tables step by step is modelled by classes and
methods with loops, each proved against a specification function; the promises
are lemmas about those functions. Expression-shaped code is modelled by functions.

- `Statistics`, `Bootstrap`, `Resampling`, `Holm`, `Results`, `Experiment`: the
  statistics kernel, what its figures are, and the aggregation that feeds it.
- `HashChain`, `ChainReport`, `EventStore`: the per-tenant hash chain, its
  verification, what it reports, and ingestion.
- `Lifecycle`, `Compensation`, `Orchestrator`, `Campaign`: the campaign state
  machine, the compensation plan and gate, the orchestrator object with its
  checkpoints, and the service's rebuild-per-request path.
- `Holdouts`, `HoldoutAccess`, `HoldoutService`: the alpha ledger of sealed
  holdouts and who gets at them.
- `Arms`, `Budgets`, `Runner`, `Backends`, `CampaignBudgets`: meters, the attempt
  loop, the scripted and live backends, and the campaign meter.
- `Detection`, `Redaction`, `Evidence`, `Idempotence`, `Counterexamples`, `Luhn`,
  `DlpMetrics`, `CorpusReport`: the redaction boundary.
- `Discovery`, `Signals`: failure clustering and the signals it reads.
- `SpecJson`, `SpecSections`, `CampaignSpec`, `SpecMigration`, `SpecRules`,
  `Generation2`: the spec as printer and parser, migration windows, what a valid
  spec promises, derivation and pinning.
- `Releases`: the activation ledger.
- `Wrappers`, `Sorting`, `Ordering`, `Selecting`, `RealSums`: shared definitions.

Conventions. Floating-point and decimal numbers are exact reals. The random
generator is any fixed stream of indices determined by seed, sample size, resample
and draw. SHA-256, signatures, JSON text and token generation are uninterpreted
functions: signatures carry a sign/verify hypothesis, token freshness is a
hypothesis, and hash results are disjunctions with a concrete break exhibited
among the inputs the given rows hash. A backend is any script of meter operations
with any ending; since the script is arbitrary, this covers backends that react to
refusals. A rule's pattern is any function from text to matches inside the text.
A table is a sequence of rows and a committed session one atomic step; times,
generated ids and the answers of collaborators (gates, executors, the tenancy
check, the broker) are parameters.

## Where the code and its documentation differ

The model follows the code.

- `src/evoruntime/campaign/compensation.py:545-549`: execution records are appended
  only after the whole walk succeeds, not as each action runs.
- `src/evoruntime/eval/discovery.py:190-194`: test-tool failures are tried before
  shell failures, and the later test for `run_tests` can never be reached.
- `src/evoruntime/eval/discovery.py:247-253`: `unclassified_count` is the size of the
  first unclassified cluster only, so it undercounts when unclassified failures have
  several signatures (`Discovery.UnclassifiedCountExactIff` gives the condition).
- `src/evoruntime/campaign/generation2.py:137-140`: the handoff is documented to refuse
  revoked and expired handles; rotation does not look at either and clears the
  revocation (`Holdouts.RotationRevives`).
- `src/evoruntime/eval/budgets.py:11-16`: a meter can report usage above its budget,
  in the wall-clock dimension, when time passes between charges
  (`Budgets.ReportsWithinBudgetIff` gives the condition).
- `src/evoruntime/dlp/redaction.py:23-26, 110-113`: redaction is documented as idempotent
  because no detector matches a marker. That is not enough
  (`Counterexamples.SilentMarkersAreNotEnough`): replacing what kept a rule from
  matching can let it match across the marker. The shipped patterns hold such a pair:
  `instruction_extraction` (`src/evoruntime/dlp/detectors.py:253-274`) allows a bounded
  gap without a full stop, an e-mail address has one and its marker has none, so the
  pattern matches `show bob@x.com prompt` only after redaction.
  `Idempotence.CrossingRulesIdleIff` gives the exact condition for rules whose matches
  span boundedly many markers, read off the original's kept stretches;
  `Idempotence.DividedRulesIdleIff` and `Idempotence.LocalRulesIdleIff` give it for two
  other kinds, and `Idempotence.IdempotentRules` describes rules that always meet it.
- `src/evoruntime/dlp/metrics.py:65-69`: the corpus loader accepts negative expected
  counts, with which recall can be one despite a miss or lie outside [0, 1]
  (`DlpMetrics.RecallReflectsMissesIff` and `DlpMetrics.RecallIsFractionIff` give the
  conditions on the labels); the pass gate is unaffected.
- `src/evoruntime/eval/backends.py:520-537`: a provider that reports a negative completion
  count gives back output charged before the attempt (`Backends.OutputGivenBackIff` gives
  the condition, `Backends.NegativeCountGivesBack` an attempt).
- `src/evoruntime/campaign/spec.py:479-490`: a spec with the bare scheme `holdout://` for a
  handle is valid, although the dataset service can never resolve it
  (`SpecRules.SealedHandleIff`).
- `src/evoruntime/api/service.py:1649-1651`: "exactly one release is active" fails for
  releases created directly as active, and after rolling back a release without a
  prior its active row remains (`Releases.CreateActiveKeepsOneIff` and
  `Releases.RollbackLeavesActiveIff` give the conditions,
  `Releases.ActiveRowOutlivesRollback` a run).

## Model

| member | source | states |
|---|---|---|
| Statistics.QuantileMonotone | src/evoruntime/eval/statistics.py:149-168 | the interpolated quantile is monotone in q and lies between the extremes of the sample |
| Statistics.QuantileMirror | src/evoruntime/eval/statistics.py:149-168 | the (1-q)-quantile of the reversed, negated sample is the negated q-quantile, through the interpolation |
| Bootstrap.PairedBootstrap | src/evoruntime/eval/statistics.py:187-246 | the resampling loop computes the bootstrap specification for every index stream, with its refusals of mismatched, empty, too-few-iteration and out-of-range-alpha inputs |
| Bootstrap.SwapMirrorsResult | src/evoruntime/eval/statistics.py:149-168 | swapping the arms under one seed negates the delta, mirrors the interval, keeps the p-value and flips the verdict |
| Bootstrap.IntervalOrdered | src/evoruntime/eval/statistics.py:229-246 | the lower end of the interval never exceeds the upper |
| Bootstrap.VerdictAgreesWithPValue | src/evoruntime/eval/statistics.py:89-101 | the verdict is conclusive exactly when the interval excludes parity, which gives p at most alpha + 2/B; one that contains parity has p above alpha(1 - 1/B) |
| Bootstrap.PValueRange | src/evoruntime/eval/statistics.py:229-235 | the two-sided p-value lies in (0, 1] |
| Bootstrap.SmallerAlphaEncloses | src/evoruntime/eval/statistics.py:160-168 | a smaller alpha gives an enclosing interval |
| Bootstrap.BonferroniVerdictsSurvive | src/evoruntime/eval/statistics.py:104-123 | every verdict against parity found under Bonferroni is the same verdict without correction |
| Resampling.IntervalOfDrawnSamples | src/evoruntime/eval/statistics.py:221-246 | the interval ends are the quantiles of the sorted means of the drawn samples, each difference taken at the drawn index |
| Resampling.IntervalWithinDifferences | src/evoruntime/eval/statistics.py:221-246 | differences that all lie in [lo, hi] give an interval inside [lo, hi] |
| Resampling.ShiftMovesInterval | src/evoruntime/eval/statistics.py:221-246 | adding d to every candidate score moves the observed delta and both ends of the interval by d |
| Resampling.PValueCounts | src/evoruntime/eval/statistics.py:229-235 | the p-value is twice the smaller of the two tail counts over the number of resamples, at least one resample and at most all |
| Resampling.AnswersIff | src/evoruntime/eval/statistics.py:206-220 | a result is given exactly for equally many scores, at least one, enough iterations and an alpha strictly between 0 and 1 |
| Resampling.BonferroniSplits | src/evoruntime/eval/statistics.py:104-123 | alpha is divided by the number of comparisons under Bonferroni and left alone otherwise |
| Resampling.QuantileInterpolates | src/evoruntime/eval/statistics.py:149-168 | the quantile lies on the segment between the two order statistics around q (n - 1), at its fractional part |
| Holm.HolmAdjusted | src/evoruntime/eval/statistics.py:249-270 | the running-maximum loop returns, for each key, the closure of Bonferroni over all key sets containing it, whatever the order of the mapping |
| Holm.HolmIsClosure | src/evoruntime/eval/statistics.py:249-270 | the tabulated running maximum is at every key the greatest capped |S| times min p over the sets S that contain the key |
| Holm.AdjustmentUnique | src/evoruntime/eval/statistics.py:249-270 | only one mapping closes Bonferroni, so neither map order nor tie order can matter |
| Holm.AdjustmentBounds | src/evoruntime/eval/statistics.py:249-270 | raw p <= adjusted p <= min(1, m p) |
| Holm.AdjustmentMonotone | src/evoruntime/eval/statistics.py:249-270 | adjustment keeps the order of the p-values and makes ties equal |
| Holm.StepDownIffAdjusted | src/evoruntime/eval/statistics.py:249-270 | for alpha below 1, adjusted p <= alpha exactly when sequential step-down rejects the key |
| Results.GroupScores | src/evoruntime/eval/results.py:193-212 | the dictionary of lists holds, for each key, the scores of its runs in run order |
| Results.MeanOfMeans | src/evoruntime/eval/results.py:193-248 | on groups of one size the mean of group means is the mean over all runs |
| Results.SuccessRateCounts | src/evoruntime/eval/results.py:215-248 | an arm's success rate is its number of successful runs over its number of runs |
| Experiments.RunArm | src/evoruntime/eval/runner.py:207-233 | the nested loops run every task under every seed, seed-major |
| Experiments.RunExperiment | src/evoruntime/eval/runner.py:236-278 | runs every arm over the same tasks and seeds, in arm order |
| Experiments.BuildArmSummary | src/evoruntime/eval/results.py:215-248 | per-task means, success rate and per-seed rates are those of the arm's runs; no runs is refused |
| Experiments.SummarizeExperiment | src/evoruntime/eval/results.py:269-323 | the report holds each arm's summary, each candidate's paired bootstrap against the incumbent on aligned tasks, and Holm-adjusted p-values |
| Experiments.TaskScoresRegroup | src/evoruntime/eval/results.py:215-248 | an arm's success rate is the mean of its per-task means on every run set the runner produces |
| Experiments.SeedRatesRegroup | src/evoruntime/eval/results.py:193-212 | an arm's success rate is the mean of its per-seed rates |
| Experiments.DeltaIsRateDifference | src/evoruntime/eval/results.py:251-323 | the paired delta, a mean over per-task means, is the difference of the two success rates |
| Experiments.ReportedDeltas | src/evoruntime/eval/results.py:269-323 | in every report over the runs of an experiment, each observed delta is candidate rate minus incumbent rate and each arm's rate, the incumbent's included, is the mean of its seed rates |
| Experiments.ReportedTests | src/evoruntime/eval/results.py:292-323 | in every report each comparison is made at the family alpha or its share of it, and the adjusted p-values lie between the raw ones and their multiples, in the same order |
| HashChain.VerifyChain | src/evoruntime/db/chain_verification.py:89-118 | the loop reports, row by row, exactly the violations of previous hash, sequence number and event hash |
| ChainReport.ReportedIff | src/evoruntime/db/chain_verification.py:89-118 | a violation is reported exactly when some row is misnumbered, misnames its predecessor's hash or misstates its own, with that row's number and event |
| ChainReport.DroppedRowReport | src/evoruntime/db/chain_verification.py:89-118 | dropping one row is reported as one gap and one previous-hash mismatch at its successor and nothing else |
| ChainReport.RewrittenRowReport | src/evoruntime/db/chain_verification.py:89-118 | a rewritten envelope under its old hashes is one hash mismatch at that row and nothing else |
| HashChain.AcceptedIffNoViolation | src/evoruntime/db/chain_verification.py:89-118 | no violation is reported exactly when every row is linked to its predecessor, numbered by its place and hashed correctly |
| HashChain.InputSplits | src/evoruntime/core/hashchain.py:23-32 | the concatenation of canonical bytes and a fixed-width previous hash splits in one way only |
| HashChain.EventHashPinsHistory | src/evoruntime/core/hashchain.py:23-45 | equal event hashes in two accepted chains close the same history at the same position, or a collision, a genesis preimage or an encoding clash is exhibited among the rows |
| HashChain.SameHeadSameChain | src/evoruntime/db/chain_verification.py:89-118 | two accepted chains with the same last hash hold the same rows, unless such a break is exhibited |
| HashChain.AcceptedIffPrefix | src/evoruntime/db/chain_verification.py:89-118 | of everything assembled from a chain's rows by dropping, duplicating, reordering or renumbering, exactly its prefixes are accepted |
| HashChain.MutationDetected | src/evoruntime/db/chain_verification.py:56-118 | rewriting the envelope of an accepted row under its old hashes is rejected, unless a break is exhibited |
| EventStores.EventStore.Ingest | src/evoruntime/db/ingest.py:35-87 | appends the next row of the tenant's chain; refuses, changing nothing, exactly when some row has the event id or the hash |
| EventStores.EventStore.VerifyTenant | src/evoruntime/db/chain_verification.py:89-118 | verifies one tenant's chain of the table; a store filled by ingestion alone reports no violation |
| EventStores.IngestExtendsOneChain | src/evoruntime/db/ingest.py:49-58 | an ingest extends its own tenant's chain by one row and leaves every other tenant's alone |
| EventStores.SequenceIsFresh | src/evoruntime/db/ingest.py:49-58 | the new sequence number is above every one the tenant already has |
| EventStores.IngestedIff | src/evoruntime/db/ingest.py:60-87 | an event is stored unless some row already has its id or the hash that would chain it |
| EventStores.EventsStoredOnce | src/evoruntime/db/ingest.py:83-86 | after any ingests, re-sent ones included, no two rows share an event id or a hash, and every row is one of the events sent |
| EventStores.EveryRunVerifies | src/evoruntime/db/ingest.py:35-87 | after any interleaving of ingests over any tenants every tenant's chain is accepted |
| EventStores.TamperedRunIsPrefix | src/evoruntime/db/chain_verification.py:89-118 | of the tenant's rows after any run, tampered with in any of those ways, only prefixes of the chain are accepted, or a break is exhibited |
| Lifecycle.StepKeepsConsistent | src/evoruntime/campaign/machine.py:330-412 | every transition, pause, resume and cancel keeps the log gapless and chained, phase and resume target a fold of it, and the erased history a legal table path |
| Lifecycle.RunConsistent | src/evoruntime/campaign/machine.py:113-138 | the same over every run from DISCOVER |
| Lifecycle.AcceptedCalls | src/evoruntime/campaign/machine.py:330-400 | which transition, pause, resume and cancel is accepted in which phase, and which three transitions need their gates |
| Lifecycle.LegalPathsAre | src/evoruntime/campaign/machine.py:113-138 | the legal histories are exactly the beginnings of a promotion or rollback after one or more development rounds, and those broken off by a cancellation before LEARN |
| Lifecycle.EveryPathRuns | src/evoruntime/campaign/machine.py:113-138 | conversely every legal table path is the erased history of some run |
| Lifecycle.RecordedIsVisited | src/evoruntime/campaign/machine.py:330-412 | every phase the log records, pauses apart, is visited by the history with pause/resume erased |
| Lifecycle.PromotionHistory | src/evoruntime/campaign/machine.py:113-138 | a log with an entry into PROMOTED ran development rounds, then SELECT_FREEZE, HOLDOUT, APPROVE and CANARY in that order |
| Lifecycle.GateEnteredOnce | src/evoruntime/campaign/machine.py:113-138 | each of those four gates is entered exactly once in the erased history |
| Compensation.ExecuteRollbackCompensations | src/evoruntime/campaign/compensation.py:414-444 | the walk executes exactly the non-CAS actions in ascending order and returns their records, or stops at the first that fails |
| Compensation.ToExecuteExact | src/evoruntime/campaign/compensation.py:414-444 | the positions walked are exactly the non-CAS ones, each once, ascending |
| Compensation.WalkEvidence | src/evoruntime/campaign/compensation.py:431-444 | a complete walk records every non-CAS action and no other, with its own artifact and time |
| Compensation.VerifiedPlanWasSigned | src/evoruntime/campaign/compensation.py:292-303 | a plan that verifies carries the digest of its own contents, signed under its key |
| Compensation.SignedPlanVerifies | src/evoruntime/campaign/compensation.py:306-336 | a plan put together and signed by the source's steps verifies |
| Compensation.AlteredPlanRefused | src/evoruntime/campaign/compensation.py:292-303 | contents altered under the same digest no longer verify, unless they encode or hash alike |
| Compensation.AssertPromotionAllowed | src/evoruntime/campaign/compensation.py:447-479 | promotion is admitted exactly when the plan verifies and every non-CAS action has a matching execution record |
| Compensation.WalkCovers | src/evoruntime/campaign/compensation.py:431-479 | a completed walk leaves every non-CAS action evidenced |
| Compensation.CoversMonotone | src/evoruntime/campaign/compensation.py:447-479 | records appended later never withdraw the evidence |
| Compensation.ForeignRecordsDoNotCount | src/evoruntime/campaign/compensation.py:447-479 | records of other plans neither admit nor block a promotion |
| Compensation.OneMissingRecord | src/evoruntime/campaign/compensation.py:447-479 | one non-CAS action without a record of the plan refuses the promotion |
| Compensation.PlanActionsFromSpec | src/evoruntime/campaign/compensation.py:482-510 | resolves each spec action to its artifact digest and mode in order, or refuses the first without a digest |
| Compensation.PromotionNeedsEveryNonCasAction | src/evoruntime/campaign/compensation.py:482-510 | a plan built from a spec admits promotion exactly when every action outside the CAS kinds was executed, unknown names included |
| Compensation.SavePlan | src/evoruntime/campaign/compensation.py:348-369 | stores a plan under the address of its bytes |
| Compensation.LoadPlan | src/evoruntime/campaign/compensation.py:371-405 | returns the plan stored at an address, or refuses what is missing, mis-addressed, malformed or unverifiable |
| Compensation.SavedPlanLoads | src/evoruntime/campaign/compensation.py:336-405 | a saved plan loads back whatever is stored after it, unless two stored byte strings collide |
| Orchestrators.CheckpointedCompensationGate.ExecuteRollback | src/evoruntime/campaign/compensation.py:545-549 | records reach the sink only after the whole walk succeeded; a failed walk appends none |
| Orchestrators.PromotionAlwaysBacked | src/evoruntime/campaign/machine.py:344-357 | with the gate installed, in every reachable state whose log contains APPROVE to CANARY the sink covers every non-CAS action of the verified plan |
| Orchestrators.EvaluationNeedsApproval | src/evoruntime/campaign/machine.py:344-349 | a refusing execution gate leaves the campaign in PROPOSE with nothing recorded |
| Orchestrators.EvaluationsApproved | src/evoruntime/campaign/machine.py:344-349 | over every run, each PROPOSE to DEV_EVALUATE record was appended by an event whose execution gate approved |
| Orchestrators.RollbackCall | src/evoruntime/campaign/compensation.py:545-549 | a rollback goes ahead exactly when nothing it must execute fails, with the evidence of all of it, and otherwise changes nothing |
| Orchestrators.CanaryCall | src/evoruntime/campaign/compensation.py:540-543 | APPROVE to CANARY goes ahead exactly when the plan verifies and is covered |
| Campaigns.CampaignOrchestrator.DoTransition | src/evoruntime/campaign/machine.py:330-357 | takes the table's step when gates admit it and appends one transition; a refusal or an aborted gate changes neither phase, target nor log; the execution gate alone decides PROPOSE to DEV_EVALUATE |
| Campaigns.CampaignOrchestrator.DoResume | src/evoruntime/campaign/machine.py:375-385 | returns to the recorded resume target and clears it |
| Campaigns.CampaignOrchestrator.Checkpoint | src/evoruntime/campaign/machine.py:416-433 | stores the snapshot of the whole state under its address |
| Campaigns.CampaignOrchestrator.Reconstruct | src/evoruntime/campaign/machine.py:435-487 | replays a snapshot's history into the given sink and restores phase and resume target, refusing other specs' snapshots and unverified pins |
| Campaigns.CheckpointRoundTrip | src/evoruntime/campaign/machine.py:416-487 | reconstructing from a checkpoint into a fresh sink gives the same state and the same answers to every future call sequence, unless stored bytes collide |
| Campaigns.Restarted | src/evoruntime/campaign/machine.py:416-487 | checkpointing an orchestrator object and reconstructing it over a fresh sink gives another object with the same pin and gates in the same state, which answers every call sequence alike |
| Campaigns.FreshSinkNeeded | src/evoruntime/campaign/machine.py:435-487 | replaying a non-empty history keeps a gapless log exactly when the sink was empty |
| Campaigns.CampaignRecord.TransitionCampaign | src/evoruntime/api/service.py:530-573 | rebuild from rows, take one step, persist one row; a refused step leaves the persisted rows and columns alone |
| Campaigns.RequestRefines | src/evoruntime/api/service.py:539-573 | one request through the rebuild path is one step of a long-lived orchestrator |
| Campaigns.ApiRefinesOrchestrator | src/evoruntime/api/service.py:1664-1707 | for every request sequence the persisted rows are those of a single long-lived orchestrator |
| Campaigns.WrongResumeTargetPersistsNothing | src/evoruntime/api/service.py:539-573 | resuming a paused campaign to any phase but its resume target leaves everything persisted unchanged |
| Campaigns.CancelRequest | src/evoruntime/api/service.py:546-547 | a cancellation is persisted in every phase but LEARN and CANCELLED, paused or not, and clears the resume target |
| Campaigns.PauseRequest | src/evoruntime/api/service.py:544-545 | a pause is persisted in every phase but LEARN, CANCELLED and PAUSED, remembering the phase |
| Campaigns.ResumeRequest | src/evoruntime/api/service.py:548-554 | a paused campaign moves on exactly to the phase it remembers |
| Campaigns.AdvanceRequest | src/evoruntime/api/service.py:555-573 | any other request is persisted exactly for the listed edges |
| Campaigns.PauseIsADetour | src/evoruntime/api/service.py:539-573 | after a pause only the interrupted phase, or a cancellation, can be asked for, and the two requests add two rows and change nothing else |
| Campaigns.EndIsFinal | src/evoruntime/api/service.py:539-573 | no request changes a campaign in LEARN or CANCELLED |
| Holdouts.HandleUriRoundTrip | src/evoruntime/datasets/service.py:99-116 | a handle URI parses exactly to the token it was built from, and only such URIs parse |
| HoldoutAccess.ContentIffEntitled | src/evoruntime/datasets/service.py:376-437 | content is given exactly to an evaluator of the handle's tenant, on a handle not revoked, inside its window, with budget for the query |
| HoldoutAccess.GrantedResolution | src/evoruntime/datasets/service.py:404-437 | a grant spends one query's alpha, appends one ledger row and leaves every other handle alone |
| HoldoutAccess.RefusedResolution | src/evoruntime/datasets/service.py:563-575 | a refusal spends nothing and appends one row with the first reason that stands, in the fixed order |
| HoldoutAccess.MutationIff | src/evoruntime/datasets/service.py:439-523 | rotation and revocation are accepted exactly for an evaluator of the handle's tenant, a rotation to a token no other handle has |
| HoldoutAccess.RefusedMutation | src/evoruntime/datasets/service.py:439-523 | a refused rotation or revocation changes no handle and appends its reason |
| HoldoutAccess.MutationWrites | src/evoruntime/datasets/service.py:439-523 | what an accepted rotation or revocation writes to its handle, and to no other |
| HoldoutAccess.RevokedUntilRotated | src/evoruntime/datasets/service.py:490-523 | after a revocation every resolution of the token fails until the handle is rotated |
| HoldoutAccess.IssuedIff | src/evoruntime/datasets/service.py:293-374 | which issue is accepted, and the unspent handle and ledger it leaves |
| Holdouts.ApplyKeepsValid | src/evoruntime/datasets/service.py:293-523 | issue, resolve, rotate and revoke each keep the accounting invariant, on every answer |
| Holdouts.EveryRunAccounts | src/evoruntime/datasets/service.py:376-437 | over every run, a handle's spend is the sum of its ledger rows and its price times its grants, within its total across all its tokens, and each row shows the running balance |
| Holdouts.QueriesRemainingExact | src/evoruntime/datasets/service.py:119-129 | `queries_remaining` is exactly the number of further grants the budget allows |
| Holdouts.GrantsUntilExhausted | src/evoruntime/datasets/service.py:376-437 | an entitled evaluator who resolves n times is granted min(n, queries_remaining) times and denied after that |
| Holdouts.RotationKillsToken | src/evoruntime/datasets/service.py:439-488 | after a rotation the old token resolves to nothing |
| Holdouts.DeadStaysDead | src/evoruntime/datasets/service.py:526-536 | a token without a handle stays dead in every later run that does not mint it again |
| Holdouts.RotationRevives | src/evoruntime/datasets/service.py:439-488 | rotation brings a revoked or expired handle back with its spend unchanged: the new token resolves exactly within the new window and remaining budget |
| Holdouts.HandoffRetiresOldToken | src/evoruntime/campaign/generation2.py:115-156 | after the generation-2 handoff, given fresh tokens, the old token never resolves, its spend history stays, and the new handle starts unspent over the same partition |
| HoldoutServices.HoldoutService.ResolveHandle | src/evoruntime/datasets/service.py:376-437 | grants and denials each append one ledger row in the step that updates the budget, exactly as the table step says |
| HoldoutServices.HoldoutService.RotateHandle | src/evoruntime/datasets/service.py:439-488 | replaces the token, clears the revocation, renews the window and counts the rotation; a denial is ledgered |
| HoldoutServices.HoldoutService.RevokeHandle | src/evoruntime/datasets/service.py:490-523 | sets the revocation time, again on every revocation; a denial is ledgered |
| HoldoutServices.HoldoutService.PrepareGeneration2Holdouts | src/evoruntime/campaign/generation2.py:115-156 | rotates, then issues over the rotated handle's partition; a refused rotation issues nothing |
| Budgets.ChargeAcceptedIff | src/evoruntime/eval/budgets.py:275-305 | a charge is accepted exactly when it is non-negative and the total fits every ceiling, wall clock included, and then is recorded exactly |
| Budgets.RefusalNamesFirstOverrun | src/evoruntime/eval/budgets.py:333-356 | a refusal names the first dimension in the fixed order that the charge would overrun, with its limit and total |
| Budgets.HeadroomIsWhatFits | src/evoruntime/eval/budgets.py:243-254 | within the token ceilings a charge is accepted exactly when it fits the reported headroom and the clock has not run out |
| Budgets.AnyCallerStaysInBudget | src/evoruntime/eval/budgets.py:204-318 | whatever a caller does through charge and refund, tokens and tool calls stay within the budget and input and tool usage never come back |
| Budgets.WallClockOverrun | src/evoruntime/eval/budgets.py:239-241 | elapsed time passes the ceiling by at most the time that passed on the clock |
| Budgets.ElapsedAddsUp | src/evoruntime/eval/budgets.py:239-241 | elapsed time is what the accepted charges of a run declared plus what passed on the clock in it |
| Budgets.ReportsWithinBudgetIff | src/evoruntime/eval/budgets.py:103-110 | reported usage is within the budget exactly when the time waited since the last accepted charge fits the wall-clock headroom it left; always on a clock that stands still |
| Budgets.ClockAloneOverruns | src/evoruntime/eval/budgets.py:239-241 | time alone, with no charge recorded, takes reported usage above the budget |
| Budgets.CheckpointPassesIff | src/evoruntime/eval/budgets.py:320-331 | a checkpoint passes exactly when usage is within the budget and changes nothing |
| Budgets.FrozenClock.Advance | src/evoruntime/eval/budgets.py:197-201 | moves forward by the given time and refuses to move back |
| Budgets.BudgetMeter.ChargeFor | src/evoruntime/eval/budgets.py:275-305 | records the charge on every field or refuses it and leaves the meter untouched |
| Budgets.BudgetMeter.Remaining | src/evoruntime/eval/budgets.py:243-254 | reports, within the token ceilings, exactly what a further charge may take while the clock has not run out |
| Budgets.BudgetMeter.RefundOutputTokens | src/evoruntime/eval/budgets.py:307-318 | returns output tokens, floored at nothing, and refuses a negative refund |
| Runner.RunTask | src/evoruntime/eval/runner.py:118-204 | the attempt loop over one shared meter records what the run specification says, for every backend script |
| Runner.DeltasAddUp | src/evoruntime/eval/runner.py:142-180 | per-attempt token and tool deltas add up to the usage where the last recorded attempt ended; exactly the runs no error stopped made every attempt |
| Runner.CompletedRunAddsUp | src/evoruntime/eval/runner.py:118-204 | a COMPLETED run made all its attempts and its deltas sum exactly to its final usage |
| Runner.EveryRunIsMatched | src/evoruntime/eval/runner.py:118-204 | no run of any arm spends more tokens or tool calls than the one budget, and its usage is within the budget exactly when its wall clock is |
| Runner.LaterAttemptsStartWithin | src/evoruntime/eval/runner.py:148-158 | no attempt after the first reaches the backend once the envelope is spent, wall clock included |
| Runner.SuccessIff | src/evoruntime/eval/runner.py:184-191 | a backend error voids the run, an exhausted budget does not, and a retry arm needs a strict majority of its completed attempts |
| Runner.SuccessesCount | src/evoruntime/eval/runner.py:183-191 | the votes counted are the attempts that claimed success |
| Runner.CoupledAgentsAreOrdered | src/evoruntime/eval/backends.py:185-199 | an agent that succeeds on every draw on which another does succeeds on every run on which it does, with equal usage and stop reason |
| Backends.RunScriptedAgent | src/evoruntime/eval/backends.py:154-182 | charges the step's declared cost, without tool calls when tools are off, then answers; a task without steps is an agent error |
| Backends.ScriptedRunSpendsWhatFits | src/evoruntime/eval/backends.py:132-182 | a scripted run spends exactly the longest prefix of its script that fits and completes exactly when all of it does |
| Backends.ScriptedAttemptsAre | src/evoruntime/eval/backends.py:132-182 | every recorded attempt claims and costs what its own step does, the last step past the end, tool calls aside when tools are off |
| Backends.EstimateIsLeastCover | src/evoruntime/eval/backends.py:458-464 | the estimate is the least positive number of three-character tokens covering the prompt |
| Backends.RunLiveBackend | src/evoruntime/eval/backends.py:506-552 | authorises, reads the credential, reserves, calls, refunds and settles in that order on the shared meter |
| Backends.LiveAttemptSettles | src/evoruntime/eval/backends.py:520-537 | the success path ends at input + max(estimate, actual) and output + min(reserved, actual), and is reached exactly when those fit; a negative reported count is floored at nothing |
| Backends.LiveClaimsIff | src/evoruntime/eval/backends.py:506-552 | an attempt answers exactly when sanctioned, credentialed, completed and within the envelope, and claims success exactly when the marker occurs in the text |
| Backends.UnsanctionedChargesNothing | src/evoruntime/eval/backends.py:506-518 | without sanction or credential nothing is charged and no time passes |
| Backends.OutputGivenBackIff | src/evoruntime/eval/backends.py:520-537 | a settled attempt leaves less output charged than it found exactly for a negative completion count over output already charged |
| Backends.NegativeCountGivesBack | src/evoruntime/eval/backends.py:520-537 | a concrete such attempt: ten output tokens charged before it, five after |
| Backends.FailedCallKeepsReservation | src/evoruntime/eval/backends.py:520-535 | a call that fails leaves the reservation charged and reports its own failure, unless the reservation did not fit |
| CampaignBudgets.CampaignChargeAcceptedIff | src/evoruntime/campaign/budgets.py:206-225 | a campaign charge is accepted exactly when it is non-negative and afterwards no dimension, its own or another, is over its ceiling |
| CampaignBudgets.CampaignRefusalNames | src/evoruntime/campaign/budgets.py:206-225 | a refusal names the first ceiling crossed in the fixed order, with its limit and the total |
| CampaignBudgets.RemainingIsWhatFits | src/evoruntime/campaign/budgets.py:178-194 | within the ceilings a batch fits exactly when it fits the view a strategy is shown and time has not run out |
| CampaignBudgets.SearchStaysInBudget | src/evoruntime/campaign/budgets.py:63-225 | over any search no ceiling on proposals, tokens or executions is crossed and nothing is given back |
| CampaignBudgets.SearchAddsUp | src/evoruntime/campaign/budgets.py:141-225 | a search spends the sum of the charges it got through and nothing for those refused |
| CampaignBudgets.ExhaustionIsFinal | src/evoruntime/campaign/budgets.py:196-204 | once exhausted, a campaign stays so under every later charge and passage of time |
| CampaignBudgets.ExhaustedIff | src/evoruntime/campaign/budgets.py:196-204 | exhausted means a one-token proposal or one execution no longer fits, or the last minute is used up |
| CampaignBudgets.CampaignBudgetMeter.ChargeProposals | src/evoruntime/campaign/budgets.py:141-160 | records count and tokens together or refuses both |
| CampaignBudgets.CampaignBudgetMeter.ChargeSandboxExecutions | src/evoruntime/campaign/budgets.py:106-125 | the count is recorded or refused, and a refusal changes nothing |
| CampaignBudgets.CampaignBudgetMeter.ChargeWallClock | src/evoruntime/campaign/budgets.py:162-176 | declared seconds are recorded or refused, and a refusal changes nothing |
| Detection.Detect | src/evoruntime/dlp/detectors.py:321-342 | the nested loops and the sort compute the detection specification for every rule set |
| Detection.DetectedAre | src/evoruntime/dlp/detectors.py:321-342 | findings are exactly the accepted matches of the rules, ordered by start, end and rule id |
| Redaction.MergeOverlapping | src/evoruntime/dlp/redaction.py:61-88 | the in-place pass computes the merge of the findings ordered by start and end |
| Redaction.MergedIs | src/evoruntime/dlp/redaction.py:61-88 | spans are sorted with a gap between any two, cover exactly the findings' positions, and each is labelled by its first longest constituent |
| Redaction.CoverDeterminesSpans | src/evoruntime/dlp/redaction.py:61-88 | gapped non-empty spans are determined by the positions they cover |
| Redaction.MergeIsCanonical | src/evoruntime/dlp/redaction.py:61-88 | findings in any order or from any rules that cover the same positions are cut into the same spans |
| Evidence.RedactText | src/evoruntime/dlp/redaction.py:107-127 | the text is the position-by-position redaction and the counts are the spans of each category |
| Evidence.ReplaceSpans | src/evoruntime/dlp/redaction.py:114-125 | cursor, parts and counts build the position-by-position redaction, in which a character is copied unless a finding covers it and each span ends in its marker |
| Evidence.RedactionKeepsUncovered | src/evoruntime/dlp/redaction.py:107-127 | with markers that write nothing the output is exactly the uncovered characters in order |
| Evidence.RenderedLength | src/evoruntime/dlp/redaction.py:107-127 | output length is input length less covered positions plus marker lengths |
| Evidence.CleanTextUnchanged | src/evoruntime/dlp/redaction.py:107-127 | text without findings is returned unchanged, whatever the markers |
| Idempotence.SoundRulesDetect | src/evoruntime/dlp/redaction.py:107-127 | a set of sound rules is a detector in the sense of the rows below, and one pass with it is the redaction |
| Idempotence.CrossingRulesIdleIff | src/evoruntime/dlp/redaction.py:107-127 | for rules whose matches span at most k markers, the second pass finds nothing and returns the text unchanged exactly when every k neighbouring markers with the kept stretches of the original around them, taken alone, trip no rule |
| Idempotence.LocalRulesIdleIff | src/evoruntime/dlp/redaction.py:107-127 | for rules decided by the matched text and its neighbouring characters, exactly when no match they make in any text reads like a piece of the redacted text that meets an inserted marker |
| Idempotence.DividedRulesIdleIff | src/evoruntime/dlp/redaction.py:107-127 | for rules that markers divide, exactly when each kept stretch of the original, taken alone, trips no rule |
| Idempotence.IdempotentRules | src/evoruntime/dlp/redaction.py:107-127 | rules that markers divide and that still fire with more text around them are idempotent on every text |
| Idempotence.UnchangedIff | src/evoruntime/dlp/redaction.py:107-127 | redaction returns a text as it was, moving nothing, exactly when every merged span already reads as its own marker |
| Idempotence.UnchangedByShift | src/evoruntime/dlp/redaction.py:107-127 | an input on which the text comes back although its spans do not read as markers, because what one adds another takes away |
| Counterexamples.SilentMarkersAreNotEnough | src/evoruntime/dlp/redaction.py:23-26 | sound rules whose matches span at most one marker and that fire on no marker, and a text none of whose kept stretches trips them, yet whose second pass finds a match across the marker, as the condition on neighbouring stretches says |
| Counterexamples.IdempotenceNeedsTheRules | src/evoruntime/dlp/redaction.py:110-113 | a sound rule and a text for which the second pass changes the text again |
| Evidence.BuildRedactedEvidenceBundle | src/evoruntime/dlp/redaction.py:165-190 | each item is the redaction of the raw item at its place and the bundle's counts are the total spans per category |
| Evidence.AssertBundleFullyRedacted | src/evoruntime/dlp/redaction.py:203-214 | passes exactly when every item is detector-clean, and otherwise names a failing item |
| Luhn.LuhnOk | src/evoruntime/dlp/detectors.py:62-76 | the loop over the reversed digits, of any script, accepts exactly 13 to 19 digits, not all one character, with weighted total divisible by ten |
| Luhn.DigitsKept | src/evoruntime/dlp/detectors.py:62-66 | digits of the matched text are kept in order |
| Luhn.SeparatorsDropped | src/evoruntime/dlp/detectors.py:62-66 | any other character is passed over, wherever it stands |
| Luhn.TrialNumberAccepted | src/evoruntime/dlp/detectors.py:62-76 | the customary trial number is accepted |
| Luhn.OneScriptAccepted | src/evoruntime/dlp/detectors.py:62-76 | within one script acceptance depends on the digit values alone, as the rows below state it |
| Luhn.SingleErrorDetected | src/evoruntime/dlp/detectors.py:62-76 | two digit strings that differ in exactly one digit are never both accepted |
| Luhn.TranspositionAcceptedIff | src/evoruntime/dlp/detectors.py:62-76 | an adjacent transposition of an accepted number is accepted exactly for equal digits or 0 with 9 |
| Luhn.TranspositionKeepsTotalIff | src/evoruntime/dlp/detectors.py:62-76 | the totals agree modulo ten under a transposition exactly for equal digits or 0 with 9 |
| Luhn.CheckDigitUnique | src/evoruntime/dlp/detectors.py:62-76 | every payload has exactly one check digit |
| DlpMetrics.DistinctSpanCount | src/evoruntime/dlp/metrics.py:129-148 | counts the findings before which no finding of the same rule and category reaches, by merging per rule |
| DlpMetrics.EvaluateCorpus | src/evoruntime/dlp/metrics.py:151-215 | totals, misses, false positives, cross-category findings and flagged examples are those of the corpus |
| CorpusReports.MissListedIff | src/evoruntime/dlp/metrics.py:177-190 | the misses are exactly the labels of positive examples that promise more distinct spans than are found, with both figures |
| CorpusReports.HitListedIff | src/evoruntime/dlp/metrics.py:162-175 | the false positives are exactly the findings in clean examples |
| CorpusReports.FlaggedIff | src/evoruntime/dlp/metrics.py:203-204 | the flagged ids are those of clean examples with a finding |
| CorpusReports.ReportedCounts | src/evoruntime/dlp/metrics.py:191-215 | clean examples, findings that no label of their example names, and the flagged share of the clean examples |
| CorpusReports.GateIs | src/evoruntime/dlp/metrics.py:108-126 | the gate in full: the secrets and PII recalls against their own minima, injection recall not gated |
| DlpMetrics.Passes | src/evoruntime/dlp/metrics.py:108-126 | returns whether there are no misses, no false positives, and every gated figure meets its threshold |
| DlpMetrics.RecallIsOneIff | src/evoruntime/dlp/metrics.py:65-69 | a reported recall is one exactly when the report lists no miss in the category or the category's labels sum to zero |
| DlpMetrics.RecallReflectsMissesIff | src/evoruntime/dlp/metrics.py:151-215 | for every rule set, recall is one just when the report lists no miss: exactly for labels that do not sum to zero or are all zero |
| DlpMetrics.RecallIsFractionIff | src/evoruntime/dlp/metrics.py:65-69 | for every rule set, recall is in [0, 1]: exactly for labels that sum to zero or do not mix positive with negative counts |
| DlpMetrics.RecallIsOneIffNoMiss | src/evoruntime/dlp/metrics.py:65-69 | for any expected counts, exactly when recall is one and when it is in [0, 1], from totals, credit and misses |
| DlpMetrics.NegativeCountHidesMiss | src/evoruntime/dlp/metrics.py:170-185 | two labelled examples the loader accepts whose report lists a miss and shows full recall |
| DlpMetrics.PassesIffNothingWrong | src/evoruntime/dlp/metrics.py:108-126 | for any thresholds a corpus could meet, it passes exactly when nothing is missed and nothing clean is flagged |
| DlpMetrics.NoFalsePositivesIff | src/evoruntime/dlp/metrics.py:158-170 | there is no false positive exactly when no clean example trips a rule |
| DlpMetrics.FlaggedAtMostClean | src/evoruntime/dlp/metrics.py:201-212 | the flagged examples are at most the clean ones, so the false-positive rate is a fraction |
| Discovery.ValidateTaxonomy | src/evoruntime/eval/discovery.py:109-126 | accepts exactly the mappings whose categories are all known and names an offender otherwise |
| Discovery.ToolNames | src/evoruntime/eval/discovery.py:148-157 | the set of tools called with the given result |
| Discovery.SignatureIsOfTheSet | src/evoruntime/eval/discovery.py:160-163 | a failure signature depends only on which tools failed |
| Discovery.ShellFirstIff | src/evoruntime/eval/discovery.py:166-203 | a failed shell call decides the category, as documented, exactly when no test tool failed too |
| Discovery.ShellIsNotFirst | src/evoruntime/eval/discovery.py:190-194 | a trace whose shell and test tools both failed is classified by the test tool |
| Discovery.ClusterFailures | src/evoruntime/eval/discovery.py:286-338 | the grouping loops compute the report specification for every taxonomy that validates |
| Discovery.ReportOrderFree | src/evoruntime/eval/discovery.py:303-338 | every permutation of the traces gives the same report, duplicated task and trace ids included |
| Discovery.ClustersStrictlyOrdered | src/evoruntime/eval/discovery.py:321-331 | clusters are strictly ordered by category name, the unclassified first, and signature |
| Discovery.ClusterHoldsItsTraces | src/evoruntime/eval/discovery.py:308-331 | a cluster holds exactly the ids of the failed traces with its key, at least one |
| Signals.ReportedIff | src/evoruntime/eval/discovery.py:303-331 | a trace's id is in a cluster exactly when its events report a failure |
| Signals.ClaimDecides | src/evoruntime/eval/discovery.py:129-145 | the last claimed outcome decides, whatever the end of the trace says |
| Signals.EndDecides | src/evoruntime/eval/discovery.py:129-145 | without a claim the last end of the trace decides |
| Signals.SilentNotReported | src/evoruntime/eval/discovery.py:129-145 | with neither, the trace is in no cluster |
| Signals.MappingWins | src/evoruntime/eval/discovery.py:166-189 | a task in the taxonomy has its mapped category whatever its events |
| Signals.OneFailingTool | src/evoruntime/eval/discovery.py:190-203 | the category of a trace whose only failed tool is the test runner, the shell, the editor or another |
| Signals.NoFailingTool | src/evoruntime/eval/discovery.py:197-203 | without a failed tool, a trace that read and never edited is a localization failure and any other is unclassified |
| Signals.UnclassifiedIff | src/evoruntime/eval/discovery.py:166-203 | which traces no rule classifies |
| Signals.SignatureIs | src/evoruntime/eval/discovery.py:148-163 | the signature lists the failed tools once each in order |
| Signals.SmallSignatures | src/evoruntime/eval/discovery.py:160-163 | the signatures of no, one and two failed tools |
| Signals.ReportFigures | src/evoruntime/eval/discovery.py:303-338 | traces scanned, events without a body, and the representatives as a slice of the members |
| Signals.ClustersInOrder | src/evoruntime/eval/discovery.py:327-329 | clusters by category, the unclassified first, then by signature |
| Signals.MembersInOrder | src/evoruntime/eval/discovery.py:307-318 | members by task and trace id, however the traces arrive |
| Discovery.FailureCountIsFailedTraces | src/evoruntime/eval/discovery.py:242-245 | the failure count is the number of traces with outcome False |
| Discovery.UnclassifiedTotalIsFailures | src/evoruntime/eval/discovery.py:303-338 | the unclassified clusters together count exactly the failed traces that no rule classifies |
| Discovery.UnclassifiedCountExactIff | src/evoruntime/eval/discovery.py:247-253 | the reported unclassified count is the number of failed traces that no rule classifies exactly when all of them have one failure signature |
| Discovery.TwoSignaturesUndercount | src/evoruntime/eval/discovery.py:247-253 | two unclassified failures with different signatures make the reported count smaller than their number |
| Discovery.UndercountHappens | src/evoruntime/eval/discovery.py:247-253 | two such traces, named |
| SpecSections.ArtifactsRoundTrip | src/evoruntime/campaign/spec.py:229-232 | the list of mutable artifacts parses back from its canonical form |
| SpecSections.ArmsRoundTrip | src/evoruntime/campaign/spec.py:1080-1093 | arms parse back, the optional fields left out when unset |
| SpecSections.StatisticsRoundTrip | src/evoruntime/campaign/spec.py:725-741 | the statistics plan parses back, with and without a sample size |
| SpecSections.PlanRoundTrip | src/evoruntime/campaign/spec.py:1318-1350 | the compensation plan parses back, absent or present |
| CampaignSpecs.CanonicalRoundTrip | src/evoruntime/campaign/spec.py:1067-1122 | from_mapping(to_canonical_dict(s)) is s for every valid spec |
| CampaignSpecs.CanonicalInjective | src/evoruntime/campaign/spec.py:1067-1133 | two valid specs with one canonical form are one spec |
| SpecMigration.ParsedIsValid | src/evoruntime/campaign/spec.py:1159-1315 | whatever parses, from whatever mapping, is valid |
| SpecRules.ValidSpecIff | src/evoruntime/campaign/spec.py:821-1065 | a spec is valid exactly when its surface, trial, containment, classes, plan and sections meet the rules written out in `SpecRules` |
| SpecRules.ScaffoldRefusedIff | src/evoruntime/campaign/spec.py:873-902 | the environment refusal is given exactly to a scaffold campaign outside research whose identity is in order |
| SpecRules.StatisticsServe | src/evoruntime/campaign/spec.py:698-724 | the statistics section holds exactly what the paired bootstrap accepts on any paired scores, with a family of distinct names |
| SpecRules.BudgetsServe | src/evoruntime/campaign/spec.py:578-606 | the budgets section holds exactly the ceilings under which a campaign is not exhausted before it starts, and a known task profile |
| SpecRules.SealedHandleIff | src/evoruntime/campaign/spec.py:479-490 | a sealed handle is one the dataset service can read a token from, or the bare scheme, which it cannot |
| SpecRules.PlanRulesIff | src/evoruntime/campaign/spec.py:394-440 | a plan compensates each class once, or the scaffold twice with the restore first and the conformance rerun after |
| SpecRules.DigestIff | src/evoruntime/campaign/spec.py:110-117 | a digest is the algorithm's name and 64 lower-case hexadecimal digits |
| SpecRules.SegmentsAre | src/evoruntime/campaign/spec.py:279-290 | the segments tested for traversal hold no slash and, joined by slashes, are the path |
| SpecRules.CanonicalLists | src/evoruntime/campaign/spec.py:1067-1122 | the lists of the canonical document, entry by entry in order |
| SpecRules.WindowsAre | src/evoruntime/campaign/spec.py:1395-1447 | the last calendar days on which the first and the second schema version are read |
| SpecRules.OtherVersionsRefused | src/evoruntime/campaign/spec.py:1395-1447 | whatever parses has schema version one, two or three, as a number |
| SpecMigration.CanonicalIsNormalForm | src/evoruntime/campaign/spec.py:1067-1122 | documents parse alike exactly when their re-serialisations coincide, and re-serialising parses to the same spec |
| SpecMigration.SecondVersionMeansThird | src/evoruntime/campaign/spec.py:1395-1432 | any second-version document parses exactly as its third-version form inside the window and is refused after it |
| SpecMigration.FirstVersionMeansThird | src/evoruntime/campaign/spec.py:1395-1447 | any first-version document parses exactly as its upgrade inside the window and is refused after it |
| Generation2.DerivedExactly | src/evoruntime/campaign/generation2.py:64-112 | from a valid spec the derivation succeeds exactly for a well-formed digest, a sealed handle and a non-empty name; the result is valid and differs only in incumbent digest, handle, name and metadata |
| Generation2.PinBindsTheSpec | src/evoruntime/campaign/spec.py:1457-1489 | a fresh pin verifies, and any other valid spec under it is noticed unless the two encodings or their hashes clash |
| Generation2.UnsignedSpecRefused | src/evoruntime/campaign/spec.py:1457-1489 | a pin that verifies carries the digest of the spec's text and a signature made for it |
| Releases.ReleaseService.SupersedeOtherActive | src/evoruntime/api/service.py:1649-1662 | rewrites every other active row of the tenant in place and nothing else |
| Releases.ReleaseService.CreateRelease | src/evoruntime/api/service.py:1429-1482 | adds the manifest and its activation row, or refuses and changes nothing |
| Releases.ReleaseService.PromoteRelease | src/evoruntime/api/service.py:1498-1525 | supersedes the others and adds the active row, only from canary |
| Releases.ReleaseService.RollbackRelease | src/evoruntime/api/service.py:1527-1567 | adds the rolled-back row and restores the prior, or takes everything back |
| Releases.StepKeepsOneActive | src/evoruntime/api/service.py:1498-1567 | each canary creation, promotion and rollback keeps at most one manifest of a tenant with active rows |
| Releases.EveryRunKeepsOneActive | src/evoruntime/api/service.py:1429-1567 | so does every run of them, and no prior ever goes missing |
| Releases.CreateActiveKeepsOneIff | src/evoruntime/api/service.py:1429-1482 | creating a release as active keeps one active manifest exactly when none was active before |
| Releases.CreationAcceptedIff | src/evoruntime/api/service.py:1429-1482 | a release is created exactly under a new digest, as canary or active, with a known prior if any, past both gates |
| Releases.PromotionAcceptedIff | src/evoruntime/api/service.py:1498-1525 | a promotion is accepted exactly when the tenant has the manifest, its newest row is a canary and the scaffold gate passes |
| Releases.PromotedOnce | src/evoruntime/api/service.py:1498-1525 | promoting a promoted release again is refused |
| Releases.RefusedIffUnchanged | src/evoruntime/api/service.py:1429-1567 | every refusal leaves the ledger as it was, and only refusals do |
| Releases.PromotionRowByRow | src/evoruntime/api/service.py:1498-1525 | a promotion supersedes the tenant's other active rows, changes no other and adds its own |
| Releases.RollbackRowByRow | src/evoruntime/api/service.py:1527-1567 | a rollback adds its row and, with a prior, supersedes the other active rows and adds the prior's |
| Releases.PromotionActivatesAlone | src/evoruntime/api/service.py:1498-1525 | a promotion leaves exactly the promoted manifest active |
| Releases.PromotionShows | src/evoruntime/api/service.py:1636-1647 | with increasing transaction times the promoted manifest's latest status is active |
| Releases.RollbackAcceptedIff | src/evoruntime/registry/service.py:482-531 | a rollback is refused only for want of a manifest or a live activation: the named prior exists and is never the release itself |
| Releases.RollbackRestoresPrior | src/evoruntime/api/service.py:1527-1567 | a rollback with a prior leaves exactly that prior active |
| Releases.RollbackShows | src/evoruntime/api/service.py:1636-1647 | with increasing transaction times the rolled-back manifest's latest status is rolled_back and its prior's is active |
| Releases.RollbackLeavesActiveIff | src/evoruntime/api/service.py:1527-1567 | after a rollback the rolled-back manifest keeps an active row exactly when it names no prior and had one |
| Releases.RollbackWithoutPriorLeavesRows | src/evoruntime/api/service.py:1527-1567 | without a prior every row stays, the latest status is rolled_back, and rolling back the active release leaves its own active row |
| Releases.ActiveRowOutlivesRollback | src/evoruntime/api/service.py:1429-1567 | from the empty ledger, creating in canary without a prior, promoting and rolling back ends in such a row |
| Releases.LatestAfterSuperseding | src/evoruntime/api/service.py:1636-1662 | superseding changes statuses in place, never which row is latest |
| Releases.OtherTenantsUntouched | src/evoruntime/api/service.py:1649-1662 | no operation touches another tenant's rows |

## Left out

- HTTP clients, the CLI, server wiring, database sessions, settings, logging, subprocesses and files: input and output around the modelled logic.
- SHA-256, Ed25519, base64, JSON text and token randomness: uninterpreted, as described above.
- The patterns of the detection rules and the IPv4 check: matches are arbitrary, and which characters are digits is a parameter of the Luhn validator.
- The redaction profile digest and the miss-log records: formatting of modelled values.
- Floating-point rounding and the statistical coverage of the bootstrap: statements are about the computed values over reals.
- `eval/power.py`: inverse normal and square roots; a pinned sample size is any positive number.
- Sample standard deviation, the variance report's spread, token means and report rendering: easy or presentational.
- Experiment-level validation (seeds, partitions, ablation family of an `Experiment`): only the arm checks that specs and runs rely on are modelled.
- Columns that no modelled decision reads (owner, storage identity, contamination audit, activated_by, signatures stored in rows) and foreign-key cascades.
- Concurrency inside one database transaction: each service call is one atomic step, as its row lock or session makes it.
- Runner.RunTask: the clock's sources are one class that never runs backwards, standing for both the frozen and the monotonic clock.
- Campaigns.CampaignOrchestrator.DoTransition: the compensation and execution gates answer through parameters and the modelled gate object, not through an open set of gate classes.
- CampaignSpecs.CanonicalRoundTrip: numbers that the source keeps as integers in a wall-clock or alpha field are the same real here, and mapping keys are strings.
- YAML reading, `pin_powered_sample_size`, and the content of the protected-path list and of the task budget profiles: parameters or names only.
- Report signatures, canonical bytes and `categories_hit` of discovery, and verdict tables rendered from results: they read the modelled values.
- Arms' roles in cascades, masks, suites and transcripts, the canary harness, approvals, admission and tier gates: they rest on modules outside this model.
