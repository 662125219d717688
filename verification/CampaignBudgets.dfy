/** The campaign meter: the task meter's discipline over proposals, sandbox
    executions, model tokens and minutes, with every charge on one dimension
    checked against all four. */
module CampaignBudgets {
  import opened Wrappers
  import opened Budgets

  datatype CampaignBudget = CampaignBudget(maxProposals: int, maxModelTokens: int, maxMinutes: real, maxSandboxExecutions: int)

  datatype CampaignDimension = Proposals | SandboxExecutions | ModelTokens | Minutes

  /** What the campaign has spent; seconds on the clock and declared seconds. */
  datatype Spent = Spent(proposals: int, modelTokens: int, sandboxExecutions: int, declared: real, ticked: real) {
    function ElapsedMinutes(): real {
      (ticked + declared) / 60.0
    }

    function Amount(d: CampaignDimension): real {
      match d
      case Proposals => proposals as real
      case SandboxExecutions => sandboxExecutions as real
      case ModelTokens => modelTokens as real
      case Minutes => ElapsedMinutes()
    }
  }

  const UNSPENT := Spent(0, 0, 0, 0.0, 0.0)

  function Ceiling(budget: CampaignBudget, d: CampaignDimension): real {
    match d
    case Proposals => budget.maxProposals as real
    case SandboxExecutions => budget.maxSandboxExecutions as real
    case ModelTokens => budget.maxModelTokens as real
    case Minutes => budget.maxMinutes
  }

  datatype CampaignError = NegativeCharge | CeilingCrossed(dimension: CampaignDimension, limit: real, attempted: real)

  /** The three charges the orchestrator makes. */
  datatype CampaignCharge =
    | ProposalBatch(count: int, inputTokens: int, outputTokens: int)
    | SandboxRuns(count: int)
    | WallClockSeconds(seconds: real)

  function Prospective(s: Spent, c: CampaignCharge): Spent {
    match c
    case ProposalBatch(count, input, output) => s.(proposals := s.proposals + count, modelTokens := s.modelTokens + (input + output))
    case SandboxRuns(count) => s.(sandboxExecutions := s.sandboxExecutions + count)
    case WallClockSeconds(seconds) => s.(declared := s.declared + seconds)
  }

  predicate Negative(c: CampaignCharge) {
    match c
    case ProposalBatch(count, input, output) => count < 0 || input < 0 || output < 0
    case SandboxRuns(count) => count < 0
    case WallClockSeconds(seconds) => seconds < 0.0
  }

  /** The first crossed ceiling in the fixed order. */
  function FirstCrossed(budget: CampaignBudget, total: Spent): Option<CampaignDimension> {
    if total.Amount(Proposals) > Ceiling(budget, Proposals) then Some(Proposals)
    else if total.Amount(SandboxExecutions) > Ceiling(budget, SandboxExecutions) then Some(SandboxExecutions)
    else if total.Amount(ModelTokens) > Ceiling(budget, ModelTokens) then Some(ModelTokens)
    else if total.Amount(Minutes) > Ceiling(budget, Minutes) then Some(Minutes)
    else None
  }

  function CampaignCharged(budget: CampaignBudget, s: Spent, c: CampaignCharge): Result<Spent, CampaignError> {
    if Negative(c) then Err(NegativeCharge)
    else
      var total := Prospective(s, c);
      var crossed := FirstCrossed(budget, total);
      if crossed.Some? then
        Err(CeilingCrossed(crossed.value, Ceiling(budget, crossed.value), total.Amount(crossed.value)))
      else Ok(total)
  }

  datatype Left = Left(proposals: int, modelTokens: int, minutes: real, sandboxExecutions: int)

  function RemainingBudget(budget: CampaignBudget, s: Spent): Left {
    Left(Floored(budget.maxProposals - s.proposals), Floored(budget.maxModelTokens - s.modelTokens),
         FlooredReal(budget.maxMinutes - s.ElapsedMinutes()), Floored(budget.maxSandboxExecutions - s.sandboxExecutions))
  }

  predicate Exhausted(budget: CampaignBudget, s: Spent) {
    var left := RemainingBudget(budget, s);
    left.proposals == 0 || left.modelTokens == 0 || left.sandboxExecutions == 0 || left.minutes <= 0.0
  }

  // -- one charge -------------------------------------------------------------------

  predicate WithinCeilings(budget: CampaignBudget, s: Spent) {
    && s.proposals <= budget.maxProposals && s.sandboxExecutions <= budget.maxSandboxExecutions
    && s.modelTokens <= budget.maxModelTokens && (s.declared + s.ticked) / 60.0 <= budget.maxMinutes
  }

  predicate NonNegativeCharge(c: CampaignCharge) {
    match c
    case ProposalBatch(count, input, output) => count >= 0 && input >= 0 && output >= 0
    case SandboxRuns(count) => count >= 0
    case WallClockSeconds(seconds) => seconds >= 0.0
  }

  /** A charge is accepted exactly when it is non-negative and afterwards no
      dimension, its own or another, is above its ceiling; it then adds to its own
      and to nothing else. */
  lemma CampaignChargeAcceptedIff(budget: CampaignBudget, s: Spent, c: CampaignCharge)
    ensures var total := match c
                         case ProposalBatch(count, input, output) =>
                           Spent(s.proposals + count, s.modelTokens + input + output, s.sandboxExecutions, s.declared, s.ticked)
                         case SandboxRuns(count) =>
                           Spent(s.proposals, s.modelTokens, s.sandboxExecutions + count, s.declared, s.ticked)
                         case WallClockSeconds(seconds) =>
                           Spent(s.proposals, s.modelTokens, s.sandboxExecutions, s.declared + seconds, s.ticked);
            && (CampaignCharged(budget, s, c).Ok? <==> NonNegativeCharge(c) && WithinCeilings(budget, total))
            && (CampaignCharged(budget, s, c).Ok? ==> CampaignCharged(budget, s, c).value == total)
  {
  }

  function Place(d: CampaignDimension): nat {
    match d
    case Proposals => 0
    case SandboxExecutions => 1
    case ModelTokens => 2
    case Minutes => 3
  }

  /** A refusal that is not of a negative amount names the first ceiling crossed,
      with its limit and the total that crossed it. */
  lemma CampaignRefusalNames(budget: CampaignBudget, s: Spent, c: CampaignCharge)
    requires CampaignCharged(budget, s, c).Err?
    ensures var error, total := CampaignCharged(budget, s, c).error, Prospective(s, c);
            && (error == NegativeCharge <==> !NonNegativeCharge(c))
            && (error != NegativeCharge ==>
                 && error.limit == Ceiling(budget, error.dimension)
                 && error.attempted == total.Amount(error.dimension) > error.limit
                 && forall d :: Place(d) < Place(error.dimension) ==> total.Amount(d) <= Ceiling(budget, d))
  {
  }

  predicate CampaignInBudget(budget: CampaignBudget, s: Spent) {
    && 0 <= s.proposals <= budget.maxProposals
    && 0 <= s.modelTokens <= budget.maxModelTokens
    && 0 <= s.sandboxExecutions <= budget.maxSandboxExecutions
    && s.declared >= 0.0
  }

  /** What a strategy is shown is what will be accepted: within the ceilings, a
      batch fits iff it fits the remaining view and time has not run out. */
  lemma RemainingIsWhatFits(budget: CampaignBudget, s: Spent, c: CampaignCharge)
    requires CampaignInBudget(budget, s) && !Negative(c)
    ensures var left := RemainingBudget(budget, s);
            CampaignCharged(budget, s, c).Ok? <==>
              && s.ElapsedMinutes() <= budget.maxMinutes
              && (match c
                  case ProposalBatch(count, input, output) => count <= left.proposals && input + output <= left.modelTokens
                  case SandboxRuns(count) => count <= left.sandboxExecutions
                  case WallClockSeconds(seconds) => seconds / 60.0 <= left.minutes)
  {
  }

  // -- whole searches -----------------------------------------------------------------

  datatype CampaignStep = Spend(charge: CampaignCharge) | Wait(seconds: real)

  function Next(budget: CampaignBudget, s: Spent, step: CampaignStep): Spent {
    match step
    case Wait(seconds) => s.(ticked := s.ticked + seconds)
    case Spend(c) => if CampaignCharged(budget, s, c).Ok? then CampaignCharged(budget, s, c).value else s
  }

  function Search(budget: CampaignBudget, s: Spent, steps: seq<CampaignStep>): Spent
    decreases |steps|
  {
    if steps == [] then s else Search(budget, Next(budget, s, steps[0]), steps[1..])
  }

  lemma NextStaysInBudget(budget: CampaignBudget, s: Spent, step: CampaignStep)
    requires CampaignInBudget(budget, s)
    ensures CampaignInBudget(budget, Next(budget, s, step))
    ensures var t := Next(budget, s, step);
            t.proposals >= s.proposals && t.modelTokens >= s.modelTokens && t.sandboxExecutions >= s.sandboxExecutions
  {
  }

  /** Over any search no ceiling on proposals, tokens or executions is crossed. */
  lemma {:induction false} SearchStaysInBudget(budget: CampaignBudget, s: Spent, steps: seq<CampaignStep>)
    requires CampaignInBudget(budget, s)
    ensures CampaignInBudget(budget, Search(budget, s, steps))
    ensures var t := Search(budget, s, steps);
            t.proposals >= s.proposals && t.modelTokens >= s.modelTokens && t.sandboxExecutions >= s.sandboxExecutions
    decreases |steps|
  {
    if steps != [] {
      NextStaysInBudget(budget, s, steps[0]);
      SearchStaysInBudget(budget, Next(budget, s, steps[0]), steps[1..]);
    }
  }

  /** What a search adds: every accepted charge on its own counters, and the time
      that passes. */
  function Added(budget: CampaignBudget, s: Spent, steps: seq<CampaignStep>): Spent
    decreases |steps|
  {
    if steps == [] then UNSPENT
    else match steps[0]
      case Wait(seconds) =>
        var rest := Added(budget, s.(ticked := s.ticked + seconds), steps[1..]);
        rest.(ticked := seconds + rest.ticked)
      case Spend(c) =>
        var charged := CampaignCharged(budget, s, c);
        if charged.Err? then Added(budget, s, steps[1..])
        else
          var rest := Added(budget, charged.value, steps[1..]);
          match c
          case ProposalBatch(count, input, output) =>
            rest.(proposals := count + rest.proposals, modelTokens := input + output + rest.modelTokens)
          case SandboxRuns(count) => rest.(sandboxExecutions := count + rest.sandboxExecutions)
          case WallClockSeconds(seconds) => rest.(declared := seconds + rest.declared)
  }

  /** A search spends the sum of the charges it got through, and nothing for those
      it was refused. */
  lemma {:induction false} SearchAddsUp(budget: CampaignBudget, s: Spent, steps: seq<CampaignStep>)
    ensures var t, added := Search(budget, s, steps), Added(budget, s, steps);
            t == Spent(s.proposals + added.proposals, s.modelTokens + added.modelTokens,
                       s.sandboxExecutions + added.sandboxExecutions, s.declared + added.declared, s.ticked + added.ticked)
    decreases |steps|
  {
    if steps != [] {
      SearchAddsUp(budget, Next(budget, s, steps[0]), steps[1..]);
      if steps[0].Spend? {
        CampaignChargeAcceptedIff(budget, s, steps[0].charge);
      }
    }
  }

  predicate Forward(steps: seq<CampaignStep>) {
    forall i :: 0 <= i < |steps| && steps[i].Wait? ==> steps[i].seconds >= 0.0
  }

  lemma NextElapses(budget: CampaignBudget, s: Spent, step: CampaignStep)
    requires step.Wait? ==> step.seconds >= 0.0
    ensures Next(budget, s, step).ElapsedMinutes() >= s.ElapsedMinutes()
  {
  }

  /** Exhaustion is final: no later charge or passage of time undoes it, so an
      orchestrator that stops on it never resumes within the same meter. */
  lemma {:induction false} ExhaustionIsFinal(budget: CampaignBudget, s: Spent, steps: seq<CampaignStep>)
    requires CampaignInBudget(budget, s) && Forward(steps) && Exhausted(budget, s)
    ensures Exhausted(budget, Search(budget, s, steps))
    decreases |steps|
  {
    if steps != [] {
      NextStaysInBudget(budget, s, steps[0]);
      NextElapses(budget, s, steps[0]);
      ExhaustionIsFinal(budget, Next(budget, s, steps[0]), steps[1..]);
    }
  }

  /** Exhaustion is refusal of the smallest step: a one-token proposal or one
      sandbox execution no longer fits, or the last minute is used up. */
  lemma ExhaustedIff(budget: CampaignBudget, s: Spent)
    requires CampaignInBudget(budget, s)
    ensures Exhausted(budget, s) <==>
              || CampaignCharged(budget, s, ProposalBatch(1, 1, 0)).Err?
              || CampaignCharged(budget, s, SandboxRuns(1)).Err?
              || s.ElapsedMinutes() == budget.maxMinutes
  {
  }

  // -- the object ------------------------------------------------------------------------

  class CampaignBudgetMeter {
    const budget: CampaignBudget
    const clock: FrozenClock
    const startedAt: real
    var proposals: int
    var modelTokens: int
    var sandboxExecutions: int
    var declaredWallClock: real

    function State(): Spent
      reads this, clock
    {
      Spent(proposals, modelTokens, sandboxExecutions, declaredWallClock, clock.now - startedAt)
    }

    constructor (budget: CampaignBudget, clock: FrozenClock)
      ensures this.budget == budget && this.clock == clock && State() == UNSPENT
    {
      this.budget := budget;
      this.clock := clock;
      startedAt := clock.now;
      proposals, modelTokens, sandboxExecutions := 0, 0, 0;
      declaredWallClock := 0.0;
    }

    method Refusal(total: Spent) returns (refused: Option<CampaignError>)
      ensures var crossed := FirstCrossed(budget, total);
              refused == if crossed.None? then None
                         else Some(CeilingCrossed(crossed.value, Ceiling(budget, crossed.value), total.Amount(crossed.value)))
    {
      var crossed := FirstCrossed(budget, total);
      if crossed.None? {
        return None;
      }
      return Some(CeilingCrossed(crossed.value, Ceiling(budget, crossed.value), total.Amount(crossed.value)));
    }

    method ChargeProposals(count: int, inputTokens: int, outputTokens: int) returns (refused: Option<CampaignError>)
      modifies this
      ensures match CampaignCharged(budget, old(State()), ProposalBatch(count, inputTokens, outputTokens))
              case Ok(s) => refused.None? && State() == s
              case Err(e) => refused == Some(e) && State() == old(State())
    {
      if count < 0 || inputTokens < 0 || outputTokens < 0 {
        return Some(NegativeCharge);
      }
      refused := Refusal(Prospective(State(), ProposalBatch(count, inputTokens, outputTokens)));
      if refused.None? {
        proposals := proposals + count;
        modelTokens := modelTokens + (inputTokens + outputTokens);
      }
    }

    method ChargeSandboxExecutions(count: int) returns (refused: Option<CampaignError>)
      modifies this
      ensures match CampaignCharged(budget, old(State()), SandboxRuns(count))
              case Ok(s) => refused.None? && State() == s
              case Err(e) => refused == Some(e) && State() == old(State())
    {
      if count < 0 {
        return Some(NegativeCharge);
      }
      refused := Refusal(Prospective(State(), SandboxRuns(count)));
      if refused.None? {
        sandboxExecutions := sandboxExecutions + count;
      }
    }

    method ChargeWallClock(seconds: real) returns (refused: Option<CampaignError>)
      modifies this
      ensures match CampaignCharged(budget, old(State()), WallClockSeconds(seconds))
              case Ok(s) => refused.None? && State() == s
              case Err(e) => refused == Some(e) && State() == old(State())
    {
      if seconds < 0.0 {
        return Some(NegativeCharge);
      }
      refused := Refusal(Prospective(State(), WallClockSeconds(seconds)));
      if refused.None? {
        declaredWallClock := declaredWallClock + seconds;
      }
    }
  }
}
