/** The campaign orchestrator with its sinks, gates and checkpoints, and the
    guarantee its compensation gate gives over every run. */
module Orchestrators {
  import opened Wrappers
  import opened Lifecycle
  import opened Compensation

  class TransitionSink {
    var log: seq<Transition>

    constructor ()
      ensures log == []
    {
      log := [];
    }

    method Append(t: Transition)
      modifies this
      ensures log == old(log) + [t]
    {
      log := log + [t];
    }
  }

  class ExecutionSink {
    var records: seq<ExecutionRecord>

    constructor ()
      ensures records == []
    {
      records := [];
    }

    method Append(record: ExecutionRecord)
      modifies this
      ensures records == old(records) + [record]
    {
      records := records + [record];
    }
  }

  /** The concrete gate over a signed plan. */
  class CheckpointedCompensationGate {
    const crypto: Crypto
    const plan: SignedPlan
    const executions: ExecutionSink
    const executor: Executor

    constructor (crypto: Crypto, plan: SignedPlan, executions: ExecutionSink, executor: Executor)
      ensures this.crypto == crypto && this.plan == plan
      ensures this.executions == executions && this.executor == executor
    {
      this.crypto := crypto;
      this.plan := plan;
      this.executions := executions;
      this.executor := executor;
    }

    method ApproveCanary() returns (r: Result<(), CompensationError>)
      ensures r.Ok? <==> Verifies(crypto, plan) && Covers(plan, executions.records)
    {
      r := AssertPromotionAllowed(crypto, plan, executions.records);
    }

    /** Records are appended only once the whole walk has succeeded: an aborted
        walk leaves no evidence, whatever it had already performed. */
    method ExecuteRollback(clock: nat -> real) returns (r: Result<(), CompensationError>)
      modifies executions, executor`performed
      ensures r.Ok? <==> Completes(plan, executor.failing)
      ensures r.Ok? ==>
        && executions.records == old(executions.records) + RecordsFor(plan, ToExecute(plan, |plan.actions|), clock)
        && executor.performed == old(executor.performed) + ToExecute(plan, |plan.actions|)
        && Covers(plan, executions.records)
      ensures r.Err? ==>
        && executions.records == old(executions.records)
        && r.error.ExecutorFailed? && FailsAt(plan, executor.failing, r.error.actionIndex)
        && executor.performed == old(executor.performed) + ToExecute(plan, r.error.actionIndex)
    {
      WalkCovers(plan, executions.records, clock);
      var records :- ExecuteRollbackCompensations(plan, executor, clock);
      for i := 0 to |records|
        invariant executions.records == old(executions.records) + records[..i]
        invariant executor.performed == old(executor.performed) + ToExecute(plan, |plan.actions|)
      {
        executions.Append(records[i]);
        assert records[..i + 1] == records[..i] + [records[i]];
      }
      assert records[..|records|] == records;
      return Ok(());
    }
  }

  // -- the gated campaign over whole runs -----------------------------------------

  /** A campaign with a compensation gate: its state and the evidence sink. */
  datatype GatedState = GatedState(campaign: State, records: seq<ExecutionRecord>)

  /** A call, or evidence appended to the sink by someone else. `failing` is how
      the executor behaves if this call makes it walk. */
  datatype Event =
    | Drive(command: Command, reason: string, now: real, executionApproves: bool, failing: set<nat>, clock: nat -> real)
    | Evidence(records: seq<ExecutionRecord>)

  ghost predicate Admits(c: Crypto, plan: SignedPlan, g: GatedState, to: Phase, executionApproves: bool, failing: set<nat>) {
    && (g.campaign.phase == Propose && to == DevEvaluate ==> executionApproves)
    && (g.campaign.phase == Approve && to == Canary ==> Verifies(c, plan) && Covers(plan, g.records))
    && (to == RolledBack ==> Completes(plan, failing))
  }

  ghost function CallOf(c: Crypto, plan: SignedPlan, g: GatedState, e: Event): Call
    requires e.Drive?
  {
    Call(e.command, e.reason, e.now,
         e.command.Advance? ==> Admits(c, plan, g, e.command.to, e.executionApproves, e.failing))
  }

  predicate RollsBack(s: State, command: Command) {
    command == Advance(RolledBack) && IsEdge(s.phase, RolledBack)
  }

  ghost function GatedAfter(c: Crypto, plan: SignedPlan, g: GatedState, e: Event): GatedState {
    match e
    case Evidence(records) => g.(records := g.records + records)
    case Drive(command, _, _, _, failing, clock) =>
      GatedState(
        After(g.campaign, CallOf(c, plan, g, e)),
        if RollsBack(g.campaign, command) && Completes(plan, failing)
        then g.records + RecordsFor(plan, ToExecute(plan, |plan.actions|), clock)
        else g.records)
  }

  ghost function GatedRun(c: Crypto, plan: SignedPlan, initial: seq<ExecutionRecord>, events: seq<Event>): GatedState {
    if events == [] then GatedState(START, initial)
    else GatedAfter(c, plan, GatedRun(c, plan, initial, events[..|events| - 1]), events[|events| - 1])
  }

  predicate PassedCanaryGate(log: seq<Transition>) {
    exists i :: 0 <= i < |log| && log[i].fromPhase == Approve && log[i].toPhase == Canary
  }

  predicate RolledBackIn(log: seq<Transition>) {
    exists i :: 0 <= i < |log| && log[i].toPhase == RolledBack && log[i].fromPhase != Paused
  }

  /** Whatever passed a gate is backed by the evidence that gate asks for. */
  ghost predicate Backed(c: Crypto, plan: SignedPlan, g: GatedState) {
    && (PassedCanaryGate(g.campaign.log) ==> Verifies(c, plan) && Covers(plan, g.records))
    && (RolledBackIn(g.campaign.log) ==> Covers(plan, g.records))
  }

  lemma CoversAfter(c: Crypto, plan: SignedPlan, g: GatedState, e: Event)
    ensures g.records <= GatedAfter(c, plan, g, e).records
    ensures Covers(plan, g.records) ==> Covers(plan, GatedAfter(c, plan, g, e).records)
    ensures e.Drive? && RollsBack(g.campaign, e.command) && Completes(plan, e.failing) ==>
      Covers(plan, GatedAfter(c, plan, g, e).records)
  {
    var g' := GatedAfter(c, plan, g, e);
    var more := g'.records[|g.records|..];
    assert g'.records == g.records + more;
    if Covers(plan, g.records) {
      CoversMonotone(plan, g.records, more);
    }
    if e.Drive? {
      WalkCovers(plan, g.records, e.clock);
    }
  }

  lemma LogGrowsByOne(s: State, c: Call)
    ensures After(s, c) == s || (Step(s, c).Ok? && |After(s, c).log| == |s.log| + 1 && s.log <= After(s, c).log)
    ensures Step(s, c).Ok? ==>
      After(s, c).log[|s.log|].fromPhase == s.phase && After(s, c).log[|s.log|].toPhase == After(s, c).phase
  {
  }

  lemma ConsistentAfter(c: Crypto, plan: SignedPlan, g: GatedState, e: Event)
    requires Consistent(g.campaign)
    ensures Consistent(GatedAfter(c, plan, g, e).campaign)
  {
    if e.Drive? {
      StepKeepsConsistent(g.campaign, CallOf(c, plan, g, e));
    }
  }

  lemma BackedAfter(c: Crypto, plan: SignedPlan, g: GatedState, e: Event)
    requires Backed(c, plan, g)
    ensures Backed(c, plan, GatedAfter(c, plan, g, e))
  {
    CoversAfter(c, plan, g, e);
    if e.Drive? {
      LogGrowsByOne(g.campaign, CallOf(c, plan, g, e));
      var g' := GatedAfter(c, plan, g, e);
      var log, log' := g.campaign.log, g'.campaign.log;
      if PassedCanaryGate(log') {
        var i :| 0 <= i < |log'| && log'[i].fromPhase == Approve && log'[i].toPhase == Canary;
        assert i < |log| ==> log[i] == log'[i];
      }
      if RolledBackIn(log') {
        var i :| 0 <= i < |log'| && log'[i].toPhase == RolledBack && log'[i].fromPhase != Paused;
        assert i < |log| ==> log[i] == log'[i];
      }
    }
  }

  /** With the checkpointed gate installed, in every reachable state whose log
      has taken APPROVE -> CANARY the plan verifies and the append-only sink
      covers every action that needs execution; likewise for a rollback. */
  lemma {:induction false} PromotionAlwaysBacked(c: Crypto, plan: SignedPlan, initial: seq<ExecutionRecord>, events: seq<Event>)
    ensures Backed(c, plan, GatedRun(c, plan, initial, events))
    ensures Consistent(GatedRun(c, plan, initial, events).campaign)
    ensures initial <= GatedRun(c, plan, initial, events).records
  {
    if events == [] {
      RunConsistent([]);
    } else {
      var init, last := events[..|events| - 1], events[|events| - 1];
      PromotionAlwaysBacked(c, plan, initial, init);
      ConsistentAfter(c, plan, GatedRun(c, plan, initial, init), last);
      BackedAfter(c, plan, GatedRun(c, plan, initial, init), last);
      CoversAfter(c, plan, GatedRun(c, plan, initial, init), last);
    }
  }

  // -- what each gated call does -------------------------------------------------------

  /** A rollback goes ahead exactly when no action it must execute fails. It then
      leaves the evidence of every one of them, and otherwise none. */
  lemma RollbackCall(c: Crypto, plan: SignedPlan, g: GatedState, e: Event)
    requires e.Drive? && e.command == Advance(RolledBack)
    ensures var g' := GatedAfter(c, plan, g, e);
            var goesAhead := (g.campaign.phase == Approve || g.campaign.phase == Canary)
              && forall i: nat :: i < |plan.actions| && plan.actions[i].mode != "cas" ==> i !in e.failing;
            if goesAhead then
              && g'.campaign.phase == RolledBack && |g'.campaign.log| == |g.campaign.log| + 1
              && g'.records == g.records + RecordsFor(plan, ToExecute(plan, |plan.actions|), e.clock)
            else g' == g
  {
    assert Completes(plan, e.failing) <==>
             forall i: nat :: i < |plan.actions| && plan.actions[i].mode != "cas" ==> i !in e.failing by {
      forall i: nat | i < |plan.actions| ensures NeedsExecution(plan, i) <==> plan.actions[i].mode != "cas" {
      }
    }
  }

  /** A canary goes ahead exactly when the plan verifies and is covered, and no
      call but a rollback touches the evidence. */
  lemma CanaryCall(c: Crypto, plan: SignedPlan, g: GatedState, e: Event)
    requires e.Drive? && e.command == Advance(Canary) && g.campaign.phase == Approve
    ensures var g' := GatedAfter(c, plan, g, e);
            if Verifies(c, plan) && Covers(plan, g.records)
            then g'.campaign.phase == Canary && |g'.campaign.log| == |g.campaign.log| + 1
            else g'.campaign == g.campaign
  {
  }

  lemma EvidenceOnlyFromRollbacks(c: Crypto, plan: SignedPlan, g: GatedState, e: Event)
    requires e.Drive? && e.command != Advance(RolledBack)
    ensures GatedAfter(c, plan, g, e).records == g.records
  {
  }

  /** Calls that consult no gate are those of the ungated machine. */
  lemma UngatedCall(c: Crypto, plan: SignedPlan, g: GatedState, e: Event)
    requires e.Drive?
    requires e.command.Advance? ==> e.command.to != DevEvaluate && e.command.to != Canary && e.command.to != RolledBack
    ensures GatedAfter(c, plan, g, e) == GatedState(After(g.campaign, Call(e.command, e.reason, e.now, true)), g.records)
  {
  }

  // -- the gate before development evaluation ------------------------------------------

  /** The event that asked for development evaluation and was approved. */
  predicate ApprovesEvaluation(e: Event) {
    e.Drive? && e.command == Advance(DevEvaluate) && e.executionApproves
  }

  /** Record `i` was appended by event `k`. */
  ghost predicate Appended(c: Crypto, plan: SignedPlan, initial: seq<ExecutionRecord>, events: seq<Event>, k: nat, i: nat) {
    k < |events| && |GatedRun(c, plan, initial, events[..k]).campaign.log| == i
    && |GatedRun(c, plan, initial, events[..k + 1]).campaign.log| == i + 1
  }

  /** A refusing gate leaves the campaign where it was. */
  lemma EvaluationNeedsApproval(c: Crypto, plan: SignedPlan, g: GatedState, e: Event)
    requires g.campaign.phase == Propose && e.Drive? && e.command == Advance(DevEvaluate)
    ensures GatedAfter(c, plan, g, e).campaign ==
            if e.executionApproves
            then State(DevEvaluate, g.campaign.resumeTarget,
                       g.campaign.log + [Transition(|g.campaign.log|, Propose, DevEvaluate, e.reason, e.now)])
            else g.campaign
  {
  }

  lemma OnlyAdvanceEvaluates(c: Crypto, plan: SignedPlan, g: GatedState, e: Event)
    requires Consistent(g.campaign)
    ensures var before, after := g.campaign.log, GatedAfter(c, plan, g, e).campaign.log;
            && (after == before || (|after| == |before| + 1 && before <= after))
            && (|after| == |before| + 1 && after[|before|].fromPhase == Propose && after[|before|].toPhase == DevEvaluate
                ==> ApprovesEvaluation(e))
  {
    if e.Drive? {
      var call := CallOf(c, plan, g, e);
      LogGrowsByOne(g.campaign, call);
      assert PauseFacts(g.campaign);
    }
  }

  /** Over every run of events, each PROPOSE to DEV_EVALUATE record in the log was
      appended by an event whose execution gate approved. */
  lemma {:induction false} EvaluationsApproved(c: Crypto, plan: SignedPlan, initial: seq<ExecutionRecord>, events: seq<Event>, i: nat)
    returns (k: nat)
    requires i < |GatedRun(c, plan, initial, events).campaign.log|
    requires GatedRun(c, plan, initial, events).campaign.log[i].fromPhase == Propose
    requires GatedRun(c, plan, initial, events).campaign.log[i].toPhase == DevEvaluate
    ensures Appended(c, plan, initial, events, k, i) && ApprovesEvaluation(events[k])
  {
    var init, last := events[..|events| - 1], events[|events| - 1];
    var g := GatedRun(c, plan, initial, init);
    PromotionAlwaysBacked(c, plan, initial, init);
    OnlyAdvanceEvaluates(c, plan, g, last);
    assert events[..|events|] == events;
    if i < |g.campaign.log| {
      k := EvaluationsApproved(c, plan, initial, init, i);
      assert init[..k] == events[..k] && init[..k + 1] == events[..k + 1];
    } else {
      k := |events| - 1;
    }
  }
}
