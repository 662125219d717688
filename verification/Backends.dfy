/** The two backends: a scripted agent that charges declared costs, and a live
    completion that reserves its worst case and reconciles afterwards. */
module Backends {
  import opened Wrappers
  import opened Budgets
  import opened Runner

  // -- the scripted agent ------------------------------------------------------------

  datatype ScriptedStep = ScriptedStep(claimedSuccess: bool, cost: Usage)

  /** The step of a numbered attempt, counting from 1: past the end of the script it
      stays at the final one, and a task without a script gets the default. */
  function StepFor(steps: seq<ScriptedStep>, otherwise: Option<ScriptedStep>, attempt: nat): Option<ScriptedStep>
    requires attempt >= 1
  {
    if steps == [] then otherwise
    else Some(steps[if attempt - 1 < |steps| - 1 then attempt - 1 else |steps| - 1])
  }

  function BilledCost(step: ScriptedStep, allowTools: bool): Usage {
    if allowTools then step.cost else step.cost.(toolCalls := 0)
  }

  /** On a clock that stands still. */
  function ScriptedPlan(step: Option<ScriptedStep>, allowTools: bool): Plan {
    match step
    case None => Plan(0.0, 0.0, [], Raises(EvalFailure))
    case Some(s) => Plan(0.0, 0.0, [Charge(BilledCost(s, allowTools), false)], Responds(s.claimedSuccess))
  }

  method RunScriptedAgent(meter: BudgetMeter, steps: seq<ScriptedStep>, otherwise: Option<ScriptedStep>,
                          attempt: nat, allowTools: bool) returns (outcome: Result<bool, Failure>)
    requires attempt >= 1
    modifies meter, meter.clock
    ensures var plan := ScriptedPlan(StepFor(steps, otherwise, attempt), allowTools);
            var played := Play(meter.budget, old(meter.State()), plan.ops);
            && meter.State() == played.0
            && outcome == (if played.1.Some? then Err(FailureOf(played.1.value))
                           else if plan.ending.Raises? then Err(plan.ending.failure)
                           else Ok(plan.ending.claimedSuccess))
  {
    var step := StepFor(steps, otherwise, attempt);
    if step.None? {
      return Err(EvalFailure);
    }
    var cost := BilledCost(step.value, allowTools);
    PlayOne(meter.budget, meter.State(), cost);
    var refused := meter.ChargeFor(cost);
    if refused.Some? {
      return Err(FailureOf(refused.value));
    }
    return Ok(step.value.claimedSuccess);
  }

  lemma PlayOne(budget: TaskBudget, a: Account, cost: Usage)
    ensures Play(budget, a, [Charge(cost, false)])
         == match Charged(budget, a, cost) case Ok(b) => (b, None) case Err(e) => (a, Some(e))
  {
  }

  predicate Affordable(steps: seq<ScriptedStep>) {
    steps != [] && forall i :: 0 <= i < |steps| ==> steps[i].cost.NonNegative()
  }

  function ScriptedPlans(steps: seq<ScriptedStep>, allowTools: bool, n: nat): (plans: seq<Plan>)
    ensures |plans| == n
  {
    if n == 0 then []
    else ScriptedPlans(steps, allowTools, n - 1) + [ScriptedPlan(StepFor(steps, None, n), allowTools)]
  }

  /** What the first `n` attempts of the script cost. */
  function ScriptCost(steps: seq<ScriptedStep>, allowTools: bool, n: nat): Usage
    requires steps != []
  {
    if n == 0 then NOTHING
    else ScriptCost(steps, allowTools, n - 1).Plus(BilledCost(StepFor(steps, None, n).value, allowTools))
  }

  lemma ScriptedProceed(budget: TaskBudget, p: Progress, step: ScriptedStep, allowTools: bool)
    requires step.cost.NonNegative() && p.account.Spent().Within(budget)
    ensures var next := Proceed(budget, p, ScriptedPlan(Some(step), allowTools));
            var total := p.account.Spent().Plus(BilledCost(step, allowTools));
            if total.Within(budget) then
              next.stopped.None? && |next.attempts| == |p.attempts| + 1 && next.account.Spent() == total
            else
              next == Progress(p.account, p.attempts, Some(OverBudget))
  {
    var cost := BilledCost(step, allowTools);
    ChargeAcceptedIff(budget, p.account, cost);
    PlayOne(budget, p.account, cost);
    assert Ticked(p.account, 0.0) == p.account;
  }

  function ScriptedAfter(budget: TaskBudget, steps: seq<ScriptedStep>, allowTools: bool, n: nat): Progress {
    AfterAttempts(budget, ScriptedPlans(steps, allowTools, n))
  }

  lemma ScriptedAfterStep(budget: TaskBudget, steps: seq<ScriptedStep>, allowTools: bool, n: nat)
    requires n > 0
    ensures var q := ScriptedAfter(budget, steps, allowTools, n - 1);
            ScriptedAfter(budget, steps, allowTools, n) ==
            if q.stopped.Some? then q else Proceed(budget, q, ScriptedPlan(StepFor(steps, None, n), allowTools))
  {
  }

  predicate SpendsWhatFits(budget: TaskBudget, steps: seq<ScriptedStep>, allowTools: bool, n: nat, p: Progress)
    requires steps != []
  {
    && (p.stopped.None? <==> ScriptCost(steps, allowTools, n).Within(budget))
    && (if p.stopped.None? then |p.attempts| == n
        else |p.attempts| < n && p.stopped == Some(OverBudget)
             && !ScriptCost(steps, allowTools, |p.attempts| + 1).Within(budget))
    && p.account.Spent() == ScriptCost(steps, allowTools, |p.attempts|)
    && p.account.Spent().Within(budget)
  }

  /** A scripted run spends exactly the longest prefix of its script that fits
      the envelope: it completes iff the whole script fits, and otherwise stops
      at the first attempt that does not, having charged nothing for it. */
  lemma {:induction false} ScriptedRunSpendsWhatFits(budget: TaskBudget, steps: seq<ScriptedStep>, allowTools: bool, n: nat)
    requires budget.WellFormed() && Affordable(steps)
    ensures SpendsWhatFits(budget, steps, allowTools, n, ScriptedAfter(budget, steps, allowTools, n))
  {
    if n > 0 {
      ScriptedRunSpendsWhatFits(budget, steps, allowTools, n - 1);
      ScriptedAfterStep(budget, steps, allowTools, n);
      ScriptedProceed(budget, ScriptedAfter(budget, steps, allowTools, n - 1), StepFor(steps, None, n).value, allowTools);
    }
  }

  /** The record of attempt `k` of a scripted run: what its own step, or past the
      end the last one, claims and costs, tool calls aside when tools are off. */
  predicate RecordsStep(steps: seq<ScriptedStep>, allowTools: bool, k: nat, r: AttemptRecord)
    requires steps != []
  {
    var step := if k < |steps| then steps[k] else steps[|steps| - 1];
    r == AttemptRecord(k + 1, step.claimedSuccess,
                       Usage(step.cost.inputTokens, step.cost.outputTokens, if allowTools then step.cost.toolCalls else 0,
                             step.cost.wallClock))
  }

  lemma ScriptedRecord(budget: TaskBudget, p: Progress, steps: seq<ScriptedStep>, allowTools: bool)
    requires steps != [] && p.account.Spent().Within(budget)
    requires StepFor(steps, None, |p.attempts| + 1).value.cost.NonNegative()
    ensures var next := Proceed(budget, p, ScriptedPlan(StepFor(steps, None, |p.attempts| + 1), allowTools));
            next.stopped.None? ==>
              next.attempts[..|p.attempts|] == p.attempts
              && |next.attempts| == |p.attempts| + 1
              && RecordsStep(steps, allowTools, |p.attempts|, next.attempts[|p.attempts|])
    ensures var next := Proceed(budget, p, ScriptedPlan(StepFor(steps, None, |p.attempts| + 1), allowTools));
            next.stopped.Some? ==> next.attempts == p.attempts
  {
    var step := StepFor(steps, None, |p.attempts| + 1).value;
    ScriptedProceed(budget, p, step, allowTools);
    assert Ticked(p.account, 0.0) == p.account;
    var next := Proceed(budget, p, ScriptedPlan(Some(step), allowTools));
    if next.stopped.None? {
      assert next.attempts[|p.attempts|].usage == UsageDelta(p.account.Spent(), next.account.Spent());
    }
  }

  /** What one more attempt adds to the record. */
  lemma ScriptedNext(budget: TaskBudget, steps: seq<ScriptedStep>, allowTools: bool, n: nat)
    requires n > 0 && budget.WellFormed() && Affordable(steps)
    ensures var before, after := ScriptedAfter(budget, steps, allowTools, n - 1).attempts, ScriptedAfter(budget, steps, allowTools, n).attempts;
            || after == before
            || (|after| == |before| + 1 && after[..|before|] == before && RecordsStep(steps, allowTools, |before|, after[|before|]))
  {
    var q := ScriptedAfter(budget, steps, allowTools, n - 1);
    ScriptedRunSpendsWhatFits(budget, steps, allowTools, n - 1);
    ScriptedAfterStep(budget, steps, allowTools, n);
    if q.stopped.None? {
      ScriptedRecord(budget, q, steps, allowTools);
    }
  }

  /** Every recorded attempt is its own step of the script. */
  lemma {:induction false} ScriptedAttemptsAre(budget: TaskBudget, steps: seq<ScriptedStep>, allowTools: bool, n: nat, k: nat)
    requires budget.WellFormed() && Affordable(steps)
    requires k < |ScriptedAfter(budget, steps, allowTools, n).attempts|
    ensures RecordsStep(steps, allowTools, k, ScriptedAfter(budget, steps, allowTools, n).attempts[k])
  {
    if n > 0 {
      ScriptedNext(budget, steps, allowTools, n);
      if k < |ScriptedAfter(budget, steps, allowTools, n - 1).attempts| {
        ScriptedAttemptsAre(budget, steps, allowTools, n - 1, k);
      }
    }
  }

  // -- the live backend ------------------------------------------------------------------

  datatype ChatResponse = ChatResponse(text: string, inputTokens: int, outputTokens: int)

  /** What the outside world answers: whether the broker sanctions the host, the
      credential, the completion or its failure, and how long it took. */
  datatype World = World(authorized: bool, credential: Option<string>, completion: Result<ChatResponse, Failure>, latency: real)

  /** Three characters a token, rounded up, at least one. */
  function EstimateInputTokens(prompt: string): nat {
    if prompt == "" then 1 else (|prompt| + 2) / 3
  }

  lemma EstimateIsLeastCover(prompt: string)
    ensures var n := EstimateInputTokens(prompt);
            n >= 1 && 3 * n >= |prompt| && (n > 1 ==> 3 * (n - 1) < |prompt|)
  {
  }

  function Least(x: int, y: int): int {
    if x < y then x else y
  }

  function Greatest(x: int, y: int): int {
    if x < y then y else x
  }

  function ReservedOutput(budget: TaskBudget, a: Account, maxOutput: int): int {
    Least(maxOutput, Headroom(budget, a).outputTokens)
  }

  function Reservation(budget: TaskBudget, a: Account, prompt: string, maxOutput: int): Usage {
    Usage(EstimateInputTokens(prompt), ReservedOutput(budget, a, maxOutput), 0, 0.0)
  }

  /** Give back what was not generated; bill the input the estimate missed. */
  function Reconciliation(reserved: Usage, response: ChatResponse): (Usage, int) {
    (Usage(Floored(response.inputTokens - reserved.inputTokens), 0, 0, 0.0),
     Floored(reserved.outputTokens - response.outputTokens))
  }

  /** The live attempt as meter operations, from the account it starts on. */
  function LiveOps(budget: TaskBudget, a: Account, prompt: string, maxOutput: int, world: World): seq<MeterOp> {
    if !world.authorized || world.credential.None? then []
    else
      var reserved := Reservation(budget, a, prompt, maxOutput);
      match world.completion
      case Err(_) => [Charge(reserved, false), Tick(world.latency)]
      case Ok(response) =>
        var settle := Reconciliation(reserved, response);
        [Charge(reserved, false), Tick(world.latency), Refund(settle.1, false), Charge(settle.0, false)]
  }

  function LiveEnding(world: World, marker: string): Ending {
    if !world.authorized || world.credential.None? then Raises(EvalFailure)
    else match world.completion
      case Err(failure) => Raises(failure)
      case Ok(response) => Responds(Contains(response.text, marker))
  }

  predicate Contains(text: string, part: string) {
    exists i :: 0 <= i <= |text| && StartsAt(text, part, i)
  }

  predicate StartsAt(text: string, part: string, i: nat) {
    i + |part| <= |text| && text[i..i + |part|] == part
  }

  lemma OccursIff(text: string, part: string)
    ensures Contains(text, part) <==> exists before: string, after: string :: text == before + part + after
  {
    if Contains(text, part) {
      var i :| 0 <= i <= |text| && StartsAt(text, part, i);
      assert text == text[..i] + part + text[i + |part|..];
    }
    if before: string, after: string :| text == before + part + after {
      assert StartsAt(text, part, |before|);
    }
  }

  /** What a live attempt answers, from what the world does. */
  function LiveOutcome(budget: TaskBudget, a: Account, prompt: string, maxOutput: int, marker: string, world: World): Result<bool, Failure>
    requires world.latency >= 0.0
  {
    var stopped := Play(budget, a, LiveOps(budget, a, prompt, maxOutput, world)).1;
    match LiveEnding(world, marker)
    case Raises(failure) => Err(if stopped.Some? then FailureOf(stopped.value) else failure)
    case Responds(claimed) => if stopped.Some? then Err(FailureOf(stopped.value)) else Ok(claimed)
  }

  /** The broker is asked before the credential is read, and both before any
      charge. */
  method RunLiveBackend(meter: BudgetMeter, remaining: Usage, prompt: string, maxOutput: int, marker: string, world: World)
    returns (outcome: Result<bool, Failure>)
    requires remaining == Headroom(meter.budget, meter.State())
    requires world.latency >= 0.0
    modifies meter, meter.clock
    ensures meter.State() == Play(meter.budget, old(meter.State()), LiveOps(meter.budget, old(meter.State()), prompt, maxOutput, world)).0
    ensures outcome == LiveOutcome(meter.budget, old(meter.State()), prompt, maxOutput, marker, world)
  {
    if !world.authorized {
      return Err(EvalFailure);
    }
    if world.credential.None? {
      return Err(EvalFailure);
    }
    ghost var a := meter.State();
    var reservedInput := EstimateInputTokens(prompt);
    var reservedOutput := Least(maxOutput, remaining.outputTokens);
    ghost var ops := LiveOps(meter.budget, a, prompt, maxOutput, world);
    PlayFirst(meter.budget, a, ops);
    var refused := meter.ChargeFor(Usage(reservedInput, reservedOutput, 0, 0.0));
    if refused.Some? {
      return Err(FailureOf(refused.value));
    }
    ghost var b := meter.State();
    PlayFirst(meter.budget, b, ops[1..]);
    var _ := meter.clock.Advance(world.latency);
    if world.completion.Err? {
      return Err(world.completion.error);
    }
    var response := world.completion.value;
    ghost var c := meter.State();
    PlayFirst(meter.budget, c, ops[1..][1..]);
    refused := meter.RefundOutputTokens(Floored(reservedOutput - response.outputTokens));
    PlayFirst(meter.budget, meter.State(), ops[1..][1..][1..]);
    refused := meter.ChargeFor(Usage(Floored(response.inputTokens - reservedInput), 0, 0, 0.0));
    if refused.Some? {
      return Err(FailureOf(refused.value));
    }
    return Ok(Contains(response.text, marker));
  }

  lemma PlayFirst(budget: TaskBudget, a: Account, ops: seq<MeterOp>)
    requires ops != [] && NoTimeTravel(ops)
    ensures NoTimeTravel(ops[1..])
    ensures var tried := TryOp(budget, a, ops[0]);
            Play(budget, a, ops) == if tried.Ok? then Play(budget, tried.value, ops[1..])
                                    else if Stops(ops[0]) then (a, Some(tried.error))
                                    else Play(budget, a, ops[1..])
  {
  }

  /** Reserve, then reconcile: where the live attempt ends, and exactly when it
      gets there. A provider that reports a negative completion count gives back
      output charged before the attempt, floored at nothing. */
  lemma LiveAttemptSettles(budget: TaskBudget, a: Account, prompt: string, maxOutput: int, world: World)
    requires InBudget(budget, a) && world.latency >= 0.0
    requires world.authorized && world.credential.Some? && world.completion.Ok?
    ensures var estimate, reserved := EstimateInputTokens(prompt), ReservedOutput(budget, a, maxOutput);
            var response := world.completion.value;
            var (b, stopped) := Play(budget, a, LiveOps(budget, a, prompt, maxOutput, world));
            && (stopped.None? <==>
                  && maxOutput >= 0
                  && a.inputTokens + Greatest(estimate, response.inputTokens) <= budget.maxInputTokens
                  && a.Elapsed() + world.latency <= budget.maxWallClock)
            && (stopped.None? ==>
                  && b.inputTokens == a.inputTokens + Greatest(estimate, response.inputTokens)
                  && b.outputTokens == Floored(a.outputTokens + Least(reserved, response.outputTokens))
                  && (response.outputTokens >= 0 ==> b.outputTokens == a.outputTokens + Least(reserved, response.outputTokens))
                  && b.toolCalls == a.toolCalls
                  && b.Elapsed() == a.Elapsed() + world.latency)
  {
    var ops := LiveOps(budget, a, prompt, maxOutput, world);
    var reserved := Reservation(budget, a, prompt, maxOutput);
    PlayFirst(budget, a, ops);
    HeadroomIsWhatFits(budget, a, reserved.(outputTokens := Floored(reserved.outputTokens)));
    if Charged(budget, a, reserved).Ok? {
      var b := Charged(budget, a, reserved).value;
      ChargeAcceptedIff(budget, a, reserved);
      PlayFirst(budget, b, ops[1..]);
      var c := Ticked(b, world.latency);
      PlayFirst(budget, c, ops[1..][1..]);
      var settle := Reconciliation(reserved, world.completion.value);
      var d := Refunded(c, settle.1).value;
      PlayFirst(budget, d, ops[1..][1..][1..]);
      ChargeAcceptedIff(budget, d, settle.0);
    }
  }

  /** The room a live attempt needs to settle. */
  predicate Fits(budget: TaskBudget, a: Account, prompt: string, maxOutput: int, response: ChatResponse, latency: real) {
    && maxOutput >= 0
    && a.inputTokens + Greatest(EstimateInputTokens(prompt), response.inputTokens) <= budget.maxInputTokens
    && a.Elapsed() + latency <= budget.maxWallClock
  }

  /** An attempt answers at all exactly when the host is sanctioned, the credential
      is there, the call succeeds and its counts fit; it then claims success
      exactly when the response holds the marker. */
  lemma LiveClaimsIff(budget: TaskBudget, a: Account, prompt: string, maxOutput: int, marker: string, world: World)
    requires InBudget(budget, a) && world.latency >= 0.0
    ensures var outcome := LiveOutcome(budget, a, prompt, maxOutput, marker, world);
            && (outcome.Ok? <==>
                  && world.authorized && world.credential.Some? && world.completion.Ok?
                  && Fits(budget, a, prompt, maxOutput, world.completion.value, world.latency))
            && (outcome.Ok? ==>
                  (outcome.value <==> exists before: string, after: string :: world.completion.value.text == before + marker + after))
  {
    if world.authorized && world.credential.Some? && world.completion.Ok? {
      LiveAttemptSettles(budget, a, prompt, maxOutput, world);
      OccursIff(world.completion.value.text, marker);
    }
  }

  /** Without a sanctioned host, or without the credential, nothing is charged and
      no time passes. */
  lemma UnsanctionedChargesNothing(budget: TaskBudget, a: Account, prompt: string, maxOutput: int, marker: string, world: World)
    requires world.latency >= 0.0 && (!world.authorized || world.credential.None?)
    ensures Play(budget, a, LiveOps(budget, a, prompt, maxOutput, world)) == (a, None)
    ensures LiveOutcome(budget, a, prompt, maxOutput, marker, world) == Err(EvalFailure)
  {
  }

  /** A settled attempt leaves less output charged than it found exactly when the
      provider reported a negative completion count over output already charged. */
  lemma OutputGivenBackIff(budget: TaskBudget, a: Account, prompt: string, maxOutput: int, world: World)
    requires InBudget(budget, a) && world.latency >= 0.0
    requires world.authorized && world.credential.Some? && world.completion.Ok?
    requires Play(budget, a, LiveOps(budget, a, prompt, maxOutput, world)).1.None?
    ensures Play(budget, a, LiveOps(budget, a, prompt, maxOutput, world)).0.outputTokens < a.outputTokens
       <==> world.completion.value.outputTokens < 0 && a.outputTokens > 0
  {
    LiveAttemptSettles(budget, a, prompt, maxOutput, world);
  }

  /** Such an attempt: ten output tokens were charged before it and five remain. */
  lemma NegativeCountGivesBack(text: string, key: string)
    ensures var budget, a := TaskBudget(100, 100, 1, 60.0), Account(0, 10, 0, 0.0, 0.0);
            var (b, stopped) := Play(budget, a, LiveOps(budget, a, "", 20, World(true, Some(key), Ok(ChatResponse(text, 1, -5)), 0.0)));
            stopped.None? && b.outputTokens == 5
  {
    var world := World(true, Some(key), Ok(ChatResponse(text, 1, -5)), 0.0);
    LiveAttemptSettles(TaskBudget(100, 100, 1, 60.0), Account(0, 10, 0, 0.0, 0.0), "", 20, world);
  }

  /** A call that fails leaves the whole reservation charged, and its own failure
      is reported, unless the reservation did not fit in the first place. */
  lemma FailedCallKeepsReservation(budget: TaskBudget, a: Account, prompt: string, maxOutput: int, marker: string, world: World)
    requires InBudget(budget, a) && world.latency >= 0.0
    requires world.authorized && world.credential.Some? && world.completion.Err?
    ensures var (b, stopped) := Play(budget, a, LiveOps(budget, a, prompt, maxOutput, world));
            stopped.None? ==>
              && b.inputTokens == a.inputTokens + EstimateInputTokens(prompt)
              && b.outputTokens == a.outputTokens + ReservedOutput(budget, a, maxOutput)
    ensures LiveOutcome(budget, a, prompt, maxOutput, marker, world) ==
            if maxOutput < 0 then Err(OtherError)
            else if a.inputTokens + EstimateInputTokens(prompt) > budget.maxInputTokens || a.Elapsed() > budget.maxWallClock
            then Err(OverBudget)
            else Err(world.completion.error)
  {
    var ops := LiveOps(budget, a, prompt, maxOutput, world);
    PlayFirst(budget, a, ops);
    var reserved := Reservation(budget, a, prompt, maxOutput);
    ChargeAcceptedIff(budget, a, reserved);
    if Charged(budget, a, reserved).Ok? {
      PlayFirst(budget, Charged(budget, a, reserved).value, ops[1..]);
    }
  }
}
