/** The per-task budget meter. Charges are pre-flight: a charge is either
    recorded whole or refused with the first dimension it would overrun, and the
    results below hold for a meter driven by any caller at all. */
module Budgets {
  import opened Wrappers

  datatype Dimension = InputTokens | OutputTokens | ToolCalls | WallClock

  datatype TaskBudget = TaskBudget(maxInputTokens: int, maxOutputTokens: int, maxToolCalls: int, maxWallClock: real) {
    predicate WellFormed() {
      maxInputTokens > 0 && maxOutputTokens > 0 && maxToolCalls > 0 && maxWallClock > 0.0
    }

    function Limit(dimension: Dimension): real {
      match dimension
      case InputTokens => maxInputTokens as real
      case OutputTokens => maxOutputTokens as real
      case ToolCalls => maxToolCalls as real
      case WallClock => maxWallClock
    }
  }

  /** Resources consumed, still available, or asked for by a charge. */
  datatype Usage = Usage(inputTokens: int, outputTokens: int, toolCalls: int, wallClock: real) {
    predicate Within(budget: TaskBudget) {
      && inputTokens <= budget.maxInputTokens
      && outputTokens <= budget.maxOutputTokens
      && toolCalls <= budget.maxToolCalls
      && wallClock <= budget.maxWallClock
    }

    predicate NonNegative() {
      inputTokens >= 0 && outputTokens >= 0 && toolCalls >= 0 && wallClock >= 0.0
    }

    predicate FitsIn(room: Usage) {
      && inputTokens <= room.inputTokens && outputTokens <= room.outputTokens
      && toolCalls <= room.toolCalls && wallClock <= room.wallClock
    }

    function Plus(cost: Usage): Usage {
      Usage(inputTokens + cost.inputTokens, outputTokens + cost.outputTokens,
            toolCalls + cost.toolCalls, wallClock + cost.wallClock)
    }

    function Amount(dimension: Dimension): real {
      match dimension
      case InputTokens => inputTokens as real
      case OutputTokens => outputTokens as real
      case ToolCalls => toolCalls as real
      case WallClock => wallClock
    }
  }

  const NOTHING := Usage(0, 0, 0, 0.0)

  /** What a meter has recorded; `ticked` is the clock's advance since the meter
      was made. */
  datatype Account = Account(inputTokens: int, outputTokens: int, toolCalls: int, declared: real, ticked: real) {
    function Elapsed(): real {
      ticked + declared
    }

    function Spent(): Usage {
      Usage(inputTokens, outputTokens, toolCalls, Elapsed())
    }
  }

  const OPENED := Account(0, 0, 0, 0.0, 0.0)

  datatype MeterError = NegativeAmount | BudgetExceeded(dimension: Dimension, limit: real, attempted: real)

  function FirstViolation(budget: TaskBudget, a: Account, cost: Usage): Option<(Dimension, real)> {
    if (a.inputTokens + cost.inputTokens) as real > budget.Limit(InputTokens) then
      Some((InputTokens, (a.inputTokens + cost.inputTokens) as real))
    else if (a.outputTokens + cost.outputTokens) as real > budget.Limit(OutputTokens) then
      Some((OutputTokens, (a.outputTokens + cost.outputTokens) as real))
    else if (a.toolCalls + cost.toolCalls) as real > budget.Limit(ToolCalls) then
      Some((ToolCalls, (a.toolCalls + cost.toolCalls) as real))
    else if a.Elapsed() + cost.wallClock > budget.Limit(WallClock) then
      Some((WallClock, a.Elapsed() + cost.wallClock))
    else None
  }

  function Charged(budget: TaskBudget, a: Account, cost: Usage): Result<Account, MeterError> {
    if !cost.NonNegative() then Err(NegativeAmount)
    else
      var violation := FirstViolation(budget, a, cost);
      if violation.Some? then
        Err(BudgetExceeded(violation.value.0, budget.Limit(violation.value.0), violation.value.1))
      else
        Ok(a.(inputTokens := a.inputTokens + cost.inputTokens, outputTokens := a.outputTokens + cost.outputTokens,
              toolCalls := a.toolCalls + cost.toolCalls, declared := a.declared + cost.wallClock))
  }

  function Refunded(a: Account, tokens: int): Result<Account, MeterError> {
    if tokens < 0 then Err(NegativeAmount)
    else Ok(a.(outputTokens := Floored(a.outputTokens - tokens)))
  }

  function Ticked(a: Account, seconds: real): Account {
    a.(ticked := a.ticked + seconds)
  }

  function Floored(x: int): int {
    if x < 0 then 0 else x
  }

  function FlooredReal(x: real): real {
    if x < 0.0 then 0.0 else x
  }

  function Headroom(budget: TaskBudget, a: Account): Usage {
    Usage(Floored(budget.maxInputTokens - a.inputTokens), Floored(budget.maxOutputTokens - a.outputTokens),
          Floored(budget.maxToolCalls - a.toolCalls), FlooredReal(budget.maxWallClock - a.Elapsed()))
  }

  // -- one charge -----------------------------------------------------------------

  /** A charge is accepted exactly when it is non-negative and the total fits
      every ceiling; an accepted charge is recorded exactly and leaves the meter
      within its budget in all four dimensions, wall clock included. */
  lemma ChargeAcceptedIff(budget: TaskBudget, a: Account, cost: Usage)
    ensures Charged(budget, a, cost).Ok? <==> cost.NonNegative() && a.Spent().Plus(cost).Within(budget)
    ensures Charged(budget, a, cost).Ok? ==>
              Charged(budget, a, cost).value.Spent() == a.Spent().Plus(cost)
  {
  }

  function Rank(dimension: Dimension): nat {
    match dimension
    case InputTokens => 0
    case OutputTokens => 1
    case ToolCalls => 2
    case WallClock => 3
  }

  /** The dimension a refusal names: overrun, reported with the total that
      overran it, and the first such in the fixed order. */
  lemma RefusalNamesFirstOverrun(budget: TaskBudget, a: Account, cost: Usage)
    requires Charged(budget, a, cost).Err? && Charged(budget, a, cost).error.BudgetExceeded?
    ensures var e := Charged(budget, a, cost).error;
            && e.limit == budget.Limit(e.dimension)
            && e.attempted == a.Spent().Plus(cost).Amount(e.dimension) > e.limit
            && (forall d: Dimension :: a.Spent().Plus(cost).Amount(d) > budget.Limit(d) ==> Rank(e.dimension) <= Rank(d))
  {
  }

  /** The headroom a backend is shown is what it may still charge: inside the
      token and tool ceilings, a charge is accepted iff it fits the headroom and
      the clock has not already run out. */
  lemma HeadroomIsWhatFits(budget: TaskBudget, a: Account, cost: Usage)
    requires InBudget(budget, a) && cost.NonNegative()
    ensures Charged(budget, a, cost).Ok? <==> a.Elapsed() <= budget.maxWallClock && cost.FitsIn(Headroom(budget, a))
    ensures Headroom(budget, a).NonNegative()
    ensures a.Elapsed() >= budget.maxWallClock ==> Headroom(budget, a).wallClock == 0.0
  {
  }

  // -- any caller -------------------------------------------------------------------

  /** What a caller holding the meter can do to it, and whether it handles the
      error a refusal raises; time may pass at any point. */
  datatype MeterOp =
    | Charge(cost: Usage, catches: bool)
    | Refund(tokens: int, catches: bool)
    | Tick(seconds: real)

  type Script = ops: seq<MeterOp> | NoTimeTravel(ops)

  predicate NoTimeTravel(ops: seq<MeterOp>) {
    forall i :: 0 <= i < |ops| && ops[i].Tick? ==> ops[i].seconds >= 0.0
  }

  function TryOp(budget: TaskBudget, a: Account, op: MeterOp): Result<Account, MeterError> {
    match op
    case Charge(cost, _) => Charged(budget, a, cost)
    case Refund(tokens, _) => Refunded(a, tokens)
    case Tick(seconds) => Ok(Ticked(a, seconds))
  }

  predicate Stops(op: MeterOp) {
    match op
    case Charge(_, catches) => !catches
    case Refund(_, catches) => !catches
    case Tick(_) => false
  }

  /** Runs the script up to its end or its first unhandled refusal. A refused
      operation leaves the account it found. */
  function Play(budget: TaskBudget, a: Account, ops: Script): (r: (Account, Option<MeterError>))
    decreases |ops|
  {
    if ops == [] then (a, None)
    else
      var tried := TryOp(budget, a, ops[0]);
      if tried.Ok? then Play(budget, tried.value, ops[1..])
      else if Stops(ops[0]) then (a, Some(tried.error))
      else Play(budget, a, ops[1..])
  }

  /** The dimensions that only charges move. */
  predicate InBudget(budget: TaskBudget, a: Account) {
    && 0 <= a.inputTokens <= budget.maxInputTokens
    && 0 <= a.outputTokens <= budget.maxOutputTokens
    && 0 <= a.toolCalls <= budget.maxToolCalls
    && a.declared >= 0.0
  }

  lemma OpKeepsBudget(budget: TaskBudget, a: Account, op: MeterOp)
    requires InBudget(budget, a) && TryOp(budget, a, op).Ok?
    ensures InBudget(budget, TryOp(budget, a, op).value)
    ensures TryOp(budget, a, op).value.inputTokens >= a.inputTokens
    ensures TryOp(budget, a, op).value.toolCalls >= a.toolCalls
  {
  }

  /** Whatever a caller does, tokens and tool calls stay inside the envelope,
      and input tokens and tool calls never come back. */
  lemma {:induction false} AnyCallerStaysInBudget(budget: TaskBudget, a: Account, ops: Script)
    requires InBudget(budget, a)
    ensures InBudget(budget, Play(budget, a, ops).0)
    ensures Play(budget, a, ops).0.inputTokens >= a.inputTokens
    ensures Play(budget, a, ops).0.toolCalls >= a.toolCalls
    decreases |ops|
  {
    if ops != [] {
      var tried := TryOp(budget, a, ops[0]);
      if tried.Ok? {
        OpKeepsBudget(budget, a, ops[0]);
        AnyCallerStaysInBudget(budget, tried.value, ops[1..]);
      } else if !Stops(ops[0]) {
        AnyCallerStaysInBudget(budget, a, ops[1..]);
      }
    }
  }

  // -- the wall clock -----------------------------------------------------------------

  /** Time that passed. */
  function Waited(ops: Script): real
    decreases |ops|
  {
    if ops == [] then 0.0
    else (if ops[0].Tick? then ops[0].seconds else 0.0) + Waited(ops[1..])
  }

  /** Elapsed time overruns the ceiling by at most the time that passed on the
      clock: declared time never takes it over. */
  lemma {:induction false} WallClockOverrun(budget: TaskBudget, a: Account, ops: Script)
    requires InBudget(budget, a)
    ensures a.Elapsed() <= Play(budget, a, ops).0.Elapsed()
    ensures Play(budget, a, ops).0.Elapsed() <= Latest(a.Elapsed(), budget.maxWallClock) + Waited(ops)
    decreases |ops|
  {
    if ops != [] {
      WaitedNonNegative(ops[1..]);
      var tried := TryOp(budget, a, ops[0]);
      if tried.Ok? {
        OpKeepsBudget(budget, a, ops[0]);
        if ops[0].Charge? {
          ChargeAcceptedIff(budget, a, ops[0].cost);
        }
        WallClockOverrun(budget, tried.value, ops[1..]);
      } else if !Stops(ops[0]) {
        WallClockOverrun(budget, a, ops[1..]);
      }
    }
  }

  lemma {:induction false} WaitedNonNegative(ops: Script)
    ensures Waited(ops) >= 0.0
    decreases |ops|
  {
    if ops != [] {
      WaitedNonNegative(ops[1..]);
    }
  }

  function Latest(x: real, y: real): real {
    if x < y then y else x
  }

  /** Time the accepted charges of a run declare, and time that passes in it. */
  function Times(budget: TaskBudget, a: Account, ops: Script): (real, real)
    decreases |ops|
  {
    if ops == [] then (0.0, 0.0)
    else
      var tried := TryOp(budget, a, ops[0]);
      if tried.Ok? then
        var rest := Times(budget, tried.value, ops[1..]);
        match ops[0]
        case Charge(cost, _) => (cost.wallClock + rest.0, rest.1)
        case Refund(_, _) => rest
        case Tick(seconds) => (rest.0, seconds + rest.1)
      else if Stops(ops[0]) then (0.0, 0.0)
      else Times(budget, a, ops[1..])
  }

  /** Elapsed time is nothing but declared and waited time. */
  lemma {:induction false} ElapsedAddsUp(budget: TaskBudget, a: Account, ops: Script)
    ensures Play(budget, a, ops).0.Elapsed() == a.Elapsed() + Times(budget, a, ops).0 + Times(budget, a, ops).1
    decreases |ops|
  {
    if ops != [] {
      var tried := TryOp(budget, a, ops[0]);
      if tried.Ok? {
        ElapsedAddsUp(budget, tried.value, ops[1..]);
      } else if !Stops(ops[0]) {
        ElapsedAddsUp(budget, a, ops[1..]);
      }
    }
  }

  /** The account the last accepted charge of a run left, `at` if none is accepted,
      and the time that passed since, on top of `since`. */
  function SinceCharge(budget: TaskBudget, a: Account, ops: Script, at: Account, since: real): (Account, real)
    decreases |ops|
  {
    if ops == [] then (at, since)
    else
      var tried := TryOp(budget, a, ops[0]);
      if tried.Ok? then
        match ops[0]
        case Charge(_, _) => SinceCharge(budget, tried.value, ops[1..], tried.value, 0.0)
        case Refund(_, _) => SinceCharge(budget, tried.value, ops[1..], at, since)
        case Tick(seconds) => SinceCharge(budget, tried.value, ops[1..], at, since + seconds)
      else if Stops(ops[0]) then (at, since)
      else SinceCharge(budget, a, ops[1..], at, since)
  }

  lemma {:induction false} SinceChargeElapsed(budget: TaskBudget, a: Account, ops: Script, at: Account, since: real)
    requires a.Elapsed() == at.Elapsed() + since
    requires at.Elapsed() <= budget.maxWallClock
    ensures var last := SinceCharge(budget, a, ops, at, since);
            && Play(budget, a, ops).0.Elapsed() == last.0.Elapsed() + last.1
            && last.0.Elapsed() <= budget.maxWallClock
    decreases |ops|
  {
    if ops != [] {
      var tried := TryOp(budget, a, ops[0]);
      if tried.Ok? {
        match ops[0] {
          case Charge(cost, _) =>
            ChargeAcceptedIff(budget, a, cost);
            SinceChargeElapsed(budget, tried.value, ops[1..], tried.value, 0.0);
          case Refund(_, _) => SinceChargeElapsed(budget, tried.value, ops[1..], at, since);
          case Tick(seconds) => SinceChargeElapsed(budget, tried.value, ops[1..], at, since + seconds);
        }
      } else if !Stops(ops[0]) {
        SinceChargeElapsed(budget, a, ops[1..], at, since);
      }
    }
  }

  /** The promise that a meter never reports usage above its budget holds exactly
      of the runs that end no later than the last accepted charge left room for:
      the time waited since then fits the headroom it left. */
  lemma ReportsWithinBudgetIff(budget: TaskBudget, a: Account, ops: Script)
    requires InBudget(budget, a) && a.Elapsed() <= budget.maxWallClock
    ensures var (last, waited) := SinceCharge(budget, a, ops, a, 0.0);
            Play(budget, a, ops).0.Spent().Within(budget) <==> waited <= Headroom(budget, last).wallClock
    ensures Waited(ops) == 0.0 ==> Play(budget, a, ops).0.Spent().Within(budget)
  {
    AnyCallerStaysInBudget(budget, a, ops);
    WallClockOverrun(budget, a, ops);
    SinceChargeElapsed(budget, a, ops, a, 0.0);
  }

  /** Time alone takes a meter over: no charge is recorded, yet usage is above
      the budget. */
  lemma ClockAloneOverruns(budget: TaskBudget)
    requires budget.WellFormed()
    ensures var ops := [Tick(budget.maxWallClock + 1.0)];
            && NoTimeTravel(ops)
            && Play(budget, OPENED, ops).1.None?
            && !Play(budget, OPENED, ops).0.Spent().Within(budget)
  {
  }

  /** A checkpoint charges nothing and passes exactly when usage is within the
      budget. */
  lemma CheckpointPassesIff(budget: TaskBudget, a: Account)
    ensures Charged(budget, a, NOTHING).Ok? <==> a.Spent().Within(budget)
    ensures Charged(budget, a, NOTHING).Ok? ==> Charged(budget, a, NOTHING).value == a
  {
  }

  // -- the objects ----------------------------------------------------------------------

  /** A clock that moves only when told to. */
  class FrozenClock {
    var now: real

    constructor (start: real)
      ensures now == start
    {
      now := start;
    }

    method Advance(seconds: real) returns (refused: bool)
      modifies this
      ensures refused <==> seconds < 0.0
      ensures now == if seconds < 0.0 then old(now) else old(now) + seconds
    {
      if seconds < 0.0 {
        return true;
      }
      now := now + seconds;
      return false;
    }
  }

  class BudgetMeter {
    const budget: TaskBudget
    const clock: FrozenClock
    const startedAt: real
    var inputTokens: int
    var outputTokens: int
    var toolCalls: int
    var declaredWallClock: real

    function State(): Account
      reads this, clock
    {
      Account(inputTokens, outputTokens, toolCalls, declaredWallClock, clock.now - startedAt)
    }

    constructor (budget: TaskBudget, clock: FrozenClock)
      ensures this.budget == budget && this.clock == clock && State() == OPENED
    {
      this.budget := budget;
      this.clock := clock;
      startedAt := clock.now;
      inputTokens := 0;
      outputTokens := 0;
      toolCalls := 0;
      declaredWallClock := 0.0;
    }

    method GetUsage() returns (usage: Usage)
      ensures usage == State().Spent()
    {
      usage := Usage(inputTokens, outputTokens, toolCalls, (clock.now - startedAt) + declaredWallClock);
    }

    /** What is reported as remaining is what a charge may still take. */
    method Remaining() returns (usage: Usage)
      ensures usage == Headroom(budget, State())
      ensures InBudget(budget, State()) ==> forall cost: Usage :: cost.NonNegative() ==>
                (Charged(budget, State(), cost).Ok? <==> State().Elapsed() <= budget.maxWallClock && cost.FitsIn(usage))
    {
      var elapsed := (clock.now - startedAt) + declaredWallClock;
      usage := Usage(Floored(budget.maxInputTokens - inputTokens), Floored(budget.maxOutputTokens - outputTokens),
                     Floored(budget.maxToolCalls - toolCalls), FlooredReal(budget.maxWallClock - elapsed));
      if InBudget(budget, State()) {
        forall cost: Usage | cost.NonNegative()
          ensures Charged(budget, State(), cost).Ok? <==> State().Elapsed() <= budget.maxWallClock && cost.FitsIn(usage)
        {
          HeadroomIsWhatFits(budget, State(), cost);
        }
      }
    }

    method ChargeFor(cost: Usage) returns (refused: Option<MeterError>)
      modifies this
      ensures match Charged(budget, old(State()), cost)
              case Ok(a) => refused.None? && State() == a
              case Err(e) => refused == Some(e) && State() == old(State())
    {
      if cost.inputTokens < 0 || cost.outputTokens < 0 || cost.toolCalls < 0 || cost.wallClock < 0.0 {
        return Some(NegativeAmount);
      }
      var violation := FirstViolation(budget, State(), cost);
      if violation.Some? {
        return Some(BudgetExceeded(violation.value.0, budget.Limit(violation.value.0), violation.value.1));
      }
      inputTokens := inputTokens + cost.inputTokens;
      outputTokens := outputTokens + cost.outputTokens;
      toolCalls := toolCalls + cost.toolCalls;
      declaredWallClock := declaredWallClock + cost.wallClock;
      return None;
    }

    method RefundOutputTokens(tokens: int) returns (refused: Option<MeterError>)
      modifies this
      ensures match Refunded(old(State()), tokens)
              case Ok(a) => refused.None? && State() == a
              case Err(e) => refused == Some(e) && State() == old(State())
    {
      if tokens < 0 {
        return Some(NegativeAmount);
      }
      outputTokens := if outputTokens - tokens < 0 then 0 else outputTokens - tokens;
      return None;
    }

    method CheckpointNow() returns (refused: Option<MeterError>)
      modifies this
      ensures refused.None? <==> old(State()).Spent().Within(budget)
      ensures refused.Some? ==> refused.value.BudgetExceeded?
      ensures State() == old(State())
    {
      CheckpointPassesIff(budget, State());
      refused := ChargeFor(NOTHING);
    }
  }
}
