/** Running one arm against one task: attempts drawn from one shared envelope.
    A backend is any script of meter operations with any ending, so the results
    hold for every backend that touches the meter only through its methods. */
module Runner {
  import opened Wrappers
  import opened Arms
  import opened Budgets

  datatype Failure = OverBudget | EvalFailure | OtherError

  datatype Ending = Responds(claimedSuccess: bool) | Raises(failure: Failure)

  /** What one call to the backend does: time that passes before the attempt is
      opened and before it is checked, the meter operations, and the ending. */
  datatype Plan = Plan(idle: real, pause: real, ops: Script, ending: Ending) {
    predicate Forward() {
      idle >= 0.0 && pause >= 0.0
    }
  }

  datatype AttemptRecord = AttemptRecord(attempt: int, claimedSuccess: bool, usage: Usage)

  datatype StopReason = Completed | BudgetExhausted | BackendError

  datatype RunRecord = RunRecord(success: bool, attempts: seq<AttemptRecord>, usage: Usage, stopReason: StopReason)

  datatype Verifier = ClaimedOutcome | MajorityVote

  datatype ArmStrategy = ArmStrategy(maxAttempts: int, allowTools: bool, verifier: Verifier)

  function StrategyFor(arm: Arm): ArmStrategy {
    match arm.kind
    case RetrySelfConsistency => ArmStrategy(arm.maxAttempts, true, MajorityVote)
    case OneShotControl => ArmStrategy(1, false, ClaimedOutcome)
    case Incumbent => ArmStrategy(1, true, ClaimedOutcome)
    case Strategy => ArmStrategy(1, true, ClaimedOutcome)
    case Ablation => ArmStrategy(1, true, ClaimedOutcome)
    case FixedEditor => ArmStrategy(1, true, ClaimedOutcome)
  }

  function UsageDelta(before: Usage, after: Usage): Usage {
    Usage(after.inputTokens - before.inputTokens, after.outputTokens - before.outputTokens,
          after.toolCalls - before.toolCalls, after.wallClock - before.wallClock)
  }

  function Successes(attempts: seq<AttemptRecord>): nat {
    if attempts == [] then 0
    else Successes(attempts[..|attempts| - 1]) + (if attempts[|attempts| - 1].claimedSuccess then 1 else 0)
  }

  function Verify(verifier: Verifier, attempts: seq<AttemptRecord>): bool {
    if attempts == [] then false
    else match verifier
      case ClaimedOutcome => attempts[|attempts| - 1].claimedSuccess
      case MajorityVote => Successes(attempts) * 2 > |attempts|
  }

  // -- one attempt ----------------------------------------------------------------

  function FailureOf(e: MeterError): Failure {
    if e.BudgetExceeded? then OverBudget else OtherError
  }

  function Opened(a: Account, plan: Plan): Account {
    Ticked(a, plan.idle)
  }

  /** Attempts after the first are checked against the envelope before the
      backend is called. */
  function Attempted(budget: TaskBudget, a: Account, attempt: int, plan: Plan): (Account, Result<bool, Failure>) {
    var start := Ticked(Opened(a, plan), plan.pause);
    if attempt > 1 && !start.Spent().Within(budget) then (start, Err(OverBudget))
    else
      var played := Play(budget, start, plan.ops);
      if played.1.Some? then (played.0, Err(FailureOf(played.1.value)))
      else match plan.ending
        case Responds(claimed) => (played.0, Ok(claimed))
        case Raises(failure) => (played.0, Err(failure))
  }

  /** `stopped` is the error that ended the loop, if one did. */
  datatype Progress = Progress(account: Account, attempts: seq<AttemptRecord>, stopped: Option<Failure>)

  function Proceed(budget: TaskBudget, p: Progress, plan: Plan): Progress {
    var attempt := |p.attempts| + 1;
    var out := Attempted(budget, p.account, attempt, plan);
    match out.1
    case Err(failure) => Progress(out.0, p.attempts, Some(failure))
    case Ok(claimed) =>
      Progress(out.0,
               p.attempts + [AttemptRecord(attempt, claimed, UsageDelta(Opened(p.account, plan).Spent(), out.0.Spent()))],
               None)
  }

  /** `plans` lists what the backend does on each attempt it may be asked for. */
  function AfterAttempts(budget: TaskBudget, plans: seq<Plan>): Progress {
    if plans == [] then Progress(OPENED, [], None)
    else
      var p := AfterAttempts(budget, plans[..|plans| - 1]);
      if p.stopped.Some? then p else Proceed(budget, p, plans[|plans| - 1])
  }

  lemma AfterAttemptsSnoc(budget: TaskBudget, plans: seq<Plan>, n: nat)
    requires n < |plans|
    ensures var p := AfterAttempts(budget, plans[..n]);
            AfterAttempts(budget, plans[..n + 1]) == if p.stopped.Some? then p else Proceed(budget, p, plans[n])
  {
    assert plans[..n + 1][..n] == plans[..n];
  }

  /** The record of a run; `None` when an error outside the harness's own
      taxonomy propagates. */
  function Recorded(strategy: ArmStrategy, p: Progress): Option<RunRecord> {
    match p.stopped
    case None => Some(RunRecord(Verify(strategy.verifier, p.attempts), p.attempts, p.account.Spent(), Completed))
    case Some(OverBudget) =>
      Some(RunRecord(Verify(strategy.verifier, p.attempts), p.attempts, p.account.Spent(), BudgetExhausted))
    case Some(EvalFailure) => Some(RunRecord(false, p.attempts, p.account.Spent(), BackendError))
    case Some(OtherError) => None
  }

  function AttemptLimit(strategy: ArmStrategy): nat {
    if strategy.maxAttempts < 0 then 0 else strategy.maxAttempts
  }

  function RunOutcome(budget: TaskBudget, strategy: ArmStrategy, plans: seq<Plan>): Option<RunRecord>
    requires |plans| == AttemptLimit(strategy)
  {
    Recorded(strategy, AfterAttempts(budget, plans))
  }

  // -- the loop -----------------------------------------------------------------------

  method Drive(meter: BudgetMeter, ops: Script) returns (stopped: Option<MeterError>)
    modifies meter, meter.clock
    ensures (meter.State(), stopped) == Play(meter.budget, old(meter.State()), ops)
    decreases |ops|
  {
    if ops == [] {
      return None;
    }
    var refused: Option<MeterError> := None;
    match ops[0] {
      case Charge(cost, _) => refused := meter.ChargeFor(cost);
      case Refund(tokens, _) => refused := meter.RefundOutputTokens(tokens);
      case Tick(seconds) => var _ := meter.clock.Advance(seconds);
    }
    if refused.Some? && Stops(ops[0]) {
      return refused;
    }
    stopped := Drive(meter, ops[1..]);
  }

  /** One pass of the loop: `Attempted` on the meter. */
  method Attempt(meter: BudgetMeter, attempt: int, plan: Plan) returns (outcome: Result<AttemptRecord, Failure>)
    requires plan.Forward()
    modifies meter, meter.clock
    ensures var out := Attempted(meter.budget, old(meter.State()), attempt, plan);
            && meter.State() == out.0
            && outcome == match out.1
                          case Err(failure) => Err(failure)
                          case Ok(claimed) =>
                            Ok(AttemptRecord(attempt, claimed,
                                             UsageDelta(Opened(old(meter.State()), plan).Spent(), out.0.Spent())))
  {
    var _ := meter.clock.Advance(plan.idle);
    var before := meter.GetUsage();
    var _ := meter.clock.Advance(plan.pause);
    if attempt > 1 {
      var spent := meter.CheckpointNow();
      if spent.Some? {
        return Err(OverBudget);
      }
    }
    var stopped := Drive(meter, plan.ops);
    if stopped.Some? {
      return Err(FailureOf(stopped.value));
    }
    if plan.ending.Raises? {
      return Err(plan.ending.failure);
    }
    var after := meter.GetUsage();
    return Ok(AttemptRecord(attempt, plan.ending.claimedSuccess, UsageDelta(before, after)));
  }

  method Next(meter: BudgetMeter, made: seq<AttemptRecord>, plan: Plan)
    returns (attempts: seq<AttemptRecord>, failure: Option<Failure>)
    requires plan.Forward()
    modifies meter, meter.clock
    ensures Progress(meter.State(), attempts, failure) == Proceed(meter.budget, Progress(old(meter.State()), made, None), plan)
  {
    var outcome := Attempt(meter, |made| + 1, plan);
    match outcome {
      case Ok(record) => return made + [record], None;
      case Err(e) => return made, Some(e);
    }
  }

  method Record(strategy: ArmStrategy, meter: BudgetMeter, attempts: seq<AttemptRecord>, failure: Option<Failure>)
    returns (run: Option<RunRecord>)
    ensures run == Recorded(strategy, Progress(meter.State(), attempts, failure))
  {
    var usage := meter.GetUsage();
    match failure {
      case None => return Some(RunRecord(Verify(strategy.verifier, attempts), attempts, usage, Completed));
      case Some(OverBudget) => return Some(RunRecord(Verify(strategy.verifier, attempts), attempts, usage, BudgetExhausted));
      case Some(EvalFailure) => return Some(RunRecord(false, attempts, usage, BackendError));
      case Some(OtherError) => return None;
    }
  }

  /** The attempts, up to the first that raises. */
  method MakeAttempts(meter: BudgetMeter, plans: seq<Plan>) returns (attempts: seq<AttemptRecord>, failure: Option<Failure>)
    requires forall i :: 0 <= i < |plans| ==> plans[i].Forward()
    requires meter.State() == OPENED
    modifies meter, meter.clock
    ensures Progress(meter.State(), attempts, failure) == AfterAttempts(meter.budget, plans)
  {
    attempts, failure := [], None;
    var done: nat := 0;
    while done < |plans| && failure.None?
      invariant done <= |plans|
      invariant Progress(meter.State(), attempts, failure) == AfterAttempts(meter.budget, plans[..done])
    {
      AfterAttemptsSnoc(meter.budget, plans, done);
      attempts, failure := Next(meter, attempts, plans[done]);
      done := done + 1;
    }
    StoppedStays(meter.budget, plans, done);
  }

  method RunTask(budget: TaskBudget, strategy: ArmStrategy, plans: seq<Plan>, clock: FrozenClock)
    returns (run: Option<RunRecord>)
    requires |plans| == AttemptLimit(strategy)
    requires forall i :: 0 <= i < |plans| ==> plans[i].Forward()
    modifies clock
    ensures run == RunOutcome(budget, strategy, plans)
  {
    var meter := new BudgetMeter(budget, clock);
    var attempts, failure := MakeAttempts(meter, plans);
    run := Record(strategy, meter, attempts, failure);
  }

  lemma {:induction false} StoppedStays(budget: TaskBudget, plans: seq<Plan>, n: nat)
    requires n <= |plans| && (n == |plans| || AfterAttempts(budget, plans[..n]).stopped.Some?)
    ensures AfterAttempts(budget, plans) == AfterAttempts(budget, plans[..n])
    decreases |plans| - n
  {
    if n < |plans| {
      AfterAttemptsSnoc(budget, plans, n);
      StoppedStays(budget, plans, n + 1);
    } else {
      assert plans[..n] == plans;
    }
  }

  // -- what a run records ---------------------------------------------------------------

  function Tokens(u: Usage): (int, int, int) {
    (u.inputTokens, u.outputTokens, u.toolCalls)
  }

  function TotalUsage(attempts: seq<AttemptRecord>): Usage {
    if attempts == [] then NOTHING else TotalUsage(attempts[..|attempts| - 1]).Plus(attempts[|attempts| - 1].usage)
  }

  /** A recorded attempt's token and tool-call figures are the difference of the
      meter's readings around it. */
  lemma ProceedRecords(budget: TaskBudget, p: Progress, plan: Plan)
    ensures var next := Proceed(budget, p, plan);
            if next.stopped.Some? then next.attempts == p.attempts
            else
              && |next.attempts| == |p.attempts| + 1
              && next.attempts[..|p.attempts|] == p.attempts
              && next.attempts[|p.attempts|].attempt == |p.attempts| + 1
              && Tokens(next.attempts[|p.attempts|].usage.Plus(p.account.Spent())) == Tokens(next.account.Spent())
  {
  }

  lemma TotalUsageSnoc(attempts: seq<AttemptRecord>)
    requires attempts != []
    ensures TotalUsage(attempts) == TotalUsage(attempts[..|attempts| - 1]).Plus(attempts[|attempts| - 1].usage)
  {
  }

  lemma {:induction false} AttemptCount(budget: TaskBudget, plans: seq<Plan>)
    ensures var p := AfterAttempts(budget, plans);
            |p.attempts| <= |plans| && (p.stopped.None? <==> |p.attempts| == |plans|)
  {
    if plans != [] {
      AttemptCount(budget, plans[..|plans| - 1]);
      ProceedRecords(budget, AfterAttempts(budget, plans[..|plans| - 1]), plans[|plans| - 1]);
    }
  }

  lemma DeltaNext(budget: TaskBudget, q: Progress, plan: Plan)
    requires Tokens(TotalUsage(q.attempts)) == Tokens(q.account.Spent())
    ensures var p := Proceed(budget, q, plan);
            p.stopped.None? ==> Tokens(TotalUsage(p.attempts)) == Tokens(p.account.Spent())
  {
    ProceedRecords(budget, q, plan);
    var p := Proceed(budget, q, plan);
    if p.stopped.None? {
      TotalUsageSnoc(p.attempts);
    }
  }

  lemma {:induction false} RunningDeltasAddUp(budget: TaskBudget, plans: seq<Plan>)
    requires AfterAttempts(budget, plans).stopped.None?
    ensures var p := AfterAttempts(budget, plans); Tokens(TotalUsage(p.attempts)) == Tokens(p.account.Spent())
  {
    if plans != [] {
      var q := AfterAttempts(budget, plans[..|plans| - 1]);
      assert q.stopped.None?;
      RunningDeltasAddUp(budget, plans[..|plans| - 1]);
      DeltaNext(budget, q, plans[|plans| - 1]);
    }
  }

  /** The state after the last attempt a run recorded. */
  lemma {:induction false} AtLastAttempt(budget: TaskBudget, plans: seq<Plan>)
    requires |AfterAttempts(budget, plans).attempts| <= |plans|
    ensures var p := AfterAttempts(budget, plans);
            var q := AfterAttempts(budget, plans[..|p.attempts|]);
            q.stopped.None? && q.attempts == p.attempts
  {
    var p := AfterAttempts(budget, plans);
    AttemptCount(budget, plans);
    if p.stopped.None? {
      assert plans[..|p.attempts|] == plans;
    } else {
      var n := |plans| - 1;
      var q := AfterAttempts(budget, plans[..n]);
      assert p.attempts == q.attempts;
      AttemptCount(budget, plans[..n]);
      AtLastAttempt(budget, plans[..n]);
      assert plans[..n][..|p.attempts|] == plans[..|p.attempts|];
    }
  }

  /** The attempts' token and tool-call deltas add up to the usage at the point
      where the last recorded attempt ended; a run that no error stopped made
      every attempt. */
  lemma DeltasAddUp(budget: TaskBudget, plans: seq<Plan>)
    ensures var p := AfterAttempts(budget, plans);
            && |p.attempts| <= |plans|
            && (p.stopped.None? <==> |p.attempts| == |plans|)
    ensures var p := AfterAttempts(budget, plans);
            var q := AfterAttempts(budget, plans[..|p.attempts|]);
            q.stopped.None? && q.attempts == p.attempts && Tokens(TotalUsage(p.attempts)) == Tokens(q.account.Spent())
  {
    AttemptCount(budget, plans);
    AtLastAttempt(budget, plans);
    RunningDeltasAddUp(budget, plans[..|AfterAttempts(budget, plans).attempts|]);
  }

  /** A COMPLETED run spent all its attempts, and its per-attempt token and tool
      deltas sum exactly to its final usage. */
  lemma CompletedRunAddsUp(budget: TaskBudget, strategy: ArmStrategy, plans: seq<Plan>)
    requires |plans| == AttemptLimit(strategy)
    ensures var run := RunOutcome(budget, strategy, plans);
            run.Some? && run.value.stopReason == Completed ==>
              && |run.value.attempts| == AttemptLimit(strategy)
              && Tokens(TotalUsage(run.value.attempts)) == Tokens(run.value.usage)
  {
    DeltasAddUp(budget, plans);
    assert plans[..|plans|] == plans;
  }

  lemma AttemptStaysInBudget(budget: TaskBudget, a: Account, attempt: int, plan: Plan)
    requires InBudget(budget, a)
    ensures InBudget(budget, Attempted(budget, a, attempt, plan).0)
  {
    var start := Ticked(Opened(a, plan), plan.pause);
    AnyCallerStaysInBudget(budget, start, plan.ops);
  }

  lemma {:induction false} AttemptsStayInBudget(budget: TaskBudget, plans: seq<Plan>)
    requires budget.WellFormed()
    ensures InBudget(budget, AfterAttempts(budget, plans).account)
  {
    if plans != [] {
      var n := |plans| - 1;
      AttemptsStayInBudget(budget, plans[..n]);
      var q := AfterAttempts(budget, plans[..n]);
      AttemptStaysInBudget(budget, q.account, |q.attempts| + 1, plans[n]);
    }
  }

  /** Matched resources: whatever arm, backend and number of attempts, no run
      spends more tokens or tool calls than the one budget, and its usage is
      within the budget exactly when its wall clock is. */
  lemma EveryRunIsMatched(budget: TaskBudget, strategy: ArmStrategy, plans: seq<Plan>)
    requires budget.WellFormed() && |plans| == AttemptLimit(strategy) && RunOutcome(budget, strategy, plans).Some?
    ensures var usage := RunOutcome(budget, strategy, plans).value.usage;
            && 0 <= usage.inputTokens <= budget.maxInputTokens
            && 0 <= usage.outputTokens <= budget.maxOutputTokens
            && 0 <= usage.toolCalls <= budget.maxToolCalls
            && (usage.Within(budget) <==> usage.wallClock <= budget.maxWallClock)
  {
    AttemptsStayInBudget(budget, plans);
  }

  predicate CallWithin(budget: TaskBudget, a: Account, plan: Plan) {
    Ticked(Opened(a, plan), plan.pause).Spent().Within(budget)
  }

  lemma ProceedStartsWithin(budget: TaskBudget, p: Progress, plan: Plan)
    requires p.attempts != [] && Proceed(budget, p, plan).stopped.None?
    ensures CallWithin(budget, p.account, plan)
  {
  }

  lemma RunningBefore(budget: TaskBudget, plans: seq<Plan>, k: nat)
    requires k <= |plans| && AfterAttempts(budget, plans).stopped.None?
    ensures AfterAttempts(budget, plans[..k]).stopped.None?
  {
    if AfterAttempts(budget, plans[..k]).stopped.Some? {
      StoppedStays(budget, plans, k);
    }
  }

  /** Nothing had stopped the run before its last recorded attempt ended. */
  lemma RunningUntil(budget: TaskBudget, plans: seq<Plan>, k: nat)
    requires k <= |AfterAttempts(budget, plans).attempts| <= |plans|
    ensures AfterAttempts(budget, plans[..k]).stopped.None?
  {
    AtLastAttempt(budget, plans);
    var made := plans[..|AfterAttempts(budget, plans).attempts|];
    RunningBefore(budget, made, k);
    assert made[..k] == plans[..k];
  }

  /** No later attempt starts once the envelope is spent, wall clock included. */
  lemma LaterAttemptsStartWithin(budget: TaskBudget, plans: seq<Plan>, k: nat)
    requires 1 <= k < |AfterAttempts(budget, plans).attempts| <= |plans|
    ensures CallWithin(budget, AfterAttempts(budget, plans[..k]).account, plans[k])
  {
    RunningUntil(budget, plans, k);
    RunningUntil(budget, plans, k + 1);
    AttemptCount(budget, plans[..k]);
    AfterAttemptsSnoc(budget, plans, k);
    ProceedStartsWithin(budget, AfterAttempts(budget, plans[..k]), plans[k]);
  }

  lemma SuccessOf(strategy: ArmStrategy, p: Progress)
    requires Recorded(strategy, p).Some?
    ensures var run := Recorded(strategy, p).value;
            && run.attempts == p.attempts
            && (run.success <==>
                  && run.stopReason != BackendError
                  && run.attempts != []
                  && (if strategy.verifier == MajorityVote then Successes(run.attempts) * 2 > |run.attempts|
                      else run.attempts[|run.attempts| - 1].claimedSuccess))
  {
  }

  /** How the outcome is decided: a backend error voids the run, an exhausted
      budget does not, and a retry arm needs a strict majority of the attempts
      it completed. */
  lemma SuccessIff(budget: TaskBudget, arm: Arm, plans: seq<Plan>)
    requires ValidArm(arm) && |plans| == AttemptLimit(StrategyFor(arm))
    requires RunOutcome(budget, StrategyFor(arm), plans).Some?
    ensures var run := RunOutcome(budget, StrategyFor(arm), plans).value;
            run.success <==>
              && run.stopReason != BackendError
              && run.attempts != []
              && (if arm.kind == RetrySelfConsistency then Successes(run.attempts) * 2 > |run.attempts|
                  else |run.attempts| == 1 && run.attempts[0].claimedSuccess)
  {
    var strategy := StrategyFor(arm);
    var p := AfterAttempts(budget, plans);
    AttemptCount(budget, plans);
    SuccessOf(strategy, p);
    assert arm.kind != RetrySelfConsistency ==> |p.attempts| <= 1;
  }

  /** How the arms differ: only the retry arm has more than one attempt and a
      vote, and only the one-shot control works without tools. */
  lemma ArmStrategies(arm: Arm)
    ensures var strategy := StrategyFor(arm);
            && strategy.maxAttempts == (if arm.kind == RetrySelfConsistency then arm.maxAttempts else 1)
            && (strategy.verifier == MajorityVote <==> arm.kind == RetrySelfConsistency)
            && (strategy.allowTools <==> arm.kind != OneShotControl)
            && (ValidArm(arm) ==> strategy.maxAttempts == arm.maxAttempts >= 1)
  {
  }

  function Claims(attempts: seq<AttemptRecord>): seq<bool> {
    seq(|attempts|, i requires 0 <= i < |attempts| => attempts[i].claimedSuccess)
  }

  /** The votes are the attempts that claimed success. */
  lemma {:induction false} SuccessesCount(attempts: seq<AttemptRecord>)
    ensures Successes(attempts) == multiset(Claims(attempts))[true]
  {
    if attempts != [] {
      var init, last := attempts[..|attempts| - 1], attempts[|attempts| - 1];
      SuccessesCount(init);
      assert Claims(attempts) == Claims(init) + [last.claimedSuccess];
    }
  }

  /** How one attempt ends: the first call is made whatever the time, a later one
      only inside the envelope; then a refused charge counts as over budget, an
      invalid amount as an error outside the harness, and otherwise the backend's
      own ending stands. */
  lemma AttemptEnds(budget: TaskBudget, a: Account, attempt: int, plan: Plan)
    ensures var start := a.(ticked := a.ticked + plan.idle + plan.pause);
            var played := Play(budget, start, plan.ops);
            Attempted(budget, a, attempt, plan) ==
            if attempt > 1 && !start.Spent().Within(budget) then (start, Err(OverBudget))
            else (played.0, match played.1
                            case Some(NegativeAmount) => Err(OtherError)
                            case Some(BudgetExceeded(_, _, _)) => Err(OverBudget)
                            case None => match plan.ending
                                         case Responds(claimed) => Ok(claimed)
                                         case Raises(failure) => Err(failure))
  {
  }

  // -- two agents on common draws -------------------------------------------------------

  /** `other` spends what `plan` spends and claims success wherever it does. */
  predicate Covers(other: Plan, plan: Plan) {
    && other.idle == plan.idle && other.pause == plan.pause && other.ops == plan.ops
    && (if plan.ending.Responds? then other.ending.Responds? && (plan.ending.claimedSuccess ==> other.ending.claimedSuccess)
        else other.ending == plan.ending)
  }

  predicate Dominates(other: seq<Plan>, plans: seq<Plan>) {
    |other| == |plans| && forall i :: 0 <= i < |plans| ==> Covers(other[i], plans[i])
  }

  predicate RecordCovered(weak: AttemptRecord, strong: AttemptRecord) {
    weak.usage == strong.usage && (weak.claimedSuccess ==> strong.claimedSuccess)
  }

  predicate ClaimsCovered(weak: seq<AttemptRecord>, strong: seq<AttemptRecord>) {
    |weak| == |strong| && forall i :: 0 <= i < |weak| ==> RecordCovered(weak[i], strong[i])
  }

  lemma {:induction false} SuccessesCovered(weak: seq<AttemptRecord>, strong: seq<AttemptRecord>)
    requires ClaimsCovered(weak, strong)
    ensures Successes(weak) <= Successes(strong)
  {
    if weak != [] {
      SuccessesCovered(weak[..|weak| - 1], strong[..|strong| - 1]);
      assert RecordCovered(weak[|weak| - 1], strong[|strong| - 1]);
    }
  }

  lemma ProceedCovered(budget: TaskBudget, p: Progress, q: Progress, plan: Plan, other: Plan)
    requires p.account == q.account && ClaimsCovered(p.attempts, q.attempts) && Covers(other, plan)
    ensures var p', q' := Proceed(budget, p, plan), Proceed(budget, q, other);
            p'.account == q'.account && p'.stopped == q'.stopped && ClaimsCovered(p'.attempts, q'.attempts)
  {
  }

  lemma {:induction false} ProgressCovered(budget: TaskBudget, plans: seq<Plan>, other: seq<Plan>)
    requires Dominates(other, plans)
    ensures var p, q := AfterAttempts(budget, plans), AfterAttempts(budget, other);
            p.account == q.account && p.stopped == q.stopped && ClaimsCovered(p.attempts, q.attempts)
  {
    if plans != [] {
      var n := |plans| - 1;
      ProgressCovered(budget, plans[..n], other[..n]);
      ProceedCovered(budget, AfterAttempts(budget, plans[..n]), AfterAttempts(budget, other[..n]), plans[n], other[n]);
    }
  }

  lemma VerifyCovered(verifier: Verifier, weak: seq<AttemptRecord>, strong: seq<AttemptRecord>)
    requires ClaimsCovered(weak, strong)
    ensures Verify(verifier, weak) ==> Verify(verifier, strong)
  {
    SuccessesCovered(weak, strong);
    if weak != [] {
      assert RecordCovered(weak[|weak| - 1], strong[|strong| - 1]);
    }
  }

  /** Common random numbers: under either verifier, an agent that succeeds on
      every draw on which another does succeeds on every run on which it does,
      with the same usage and the same stop reason. */
  lemma CoupledAgentsAreOrdered(budget: TaskBudget, strategy: ArmStrategy, plans: seq<Plan>, other: seq<Plan>)
    requires |plans| == AttemptLimit(strategy) && Dominates(other, plans)
    ensures var weak, strong := RunOutcome(budget, strategy, plans), RunOutcome(budget, strategy, other);
            && weak.Some? == strong.Some?
            && (weak.Some? ==>
                  && weak.value.usage == strong.value.usage
                  && weak.value.stopReason == strong.value.stopReason
                  && (weak.value.success ==> strong.value.success))
  {
    ProgressCovered(budget, plans, other);
    VerifyCovered(strategy.verifier, AfterAttempts(budget, plans).attempts, AfterAttempts(budget, other).attempts);
  }
}
