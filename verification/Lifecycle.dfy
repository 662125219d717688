/** The campaign lifecycle: the transition table, what one call does to the
    campaign's state, and what every run of calls keeps. */
module Lifecycle {
  import opened Wrappers

  datatype Phase =
    | Discover
    | Plan
    | Propose
    | DevEvaluate
    | SelectFreeze
    | Holdout
    | Approve
    | Canary
    | Promoted
    | RolledBack
    | Learn
    | Paused
    | Cancelled

  /** The transition table. */
  predicate IsEdge(fromPhase: Phase, to: Phase) {
    match fromPhase
    case Discover => to == Plan
    case Plan => to == Propose
    case Propose => to == DevEvaluate
    case DevEvaluate => to == Propose || to == SelectFreeze
    case SelectFreeze => to == Holdout
    case Holdout => to == Approve
    case Approve => to == Canary || to == RolledBack
    case Canary => to == Promoted || to == RolledBack
    case Promoted => to == Learn
    case RolledBack => to == Learn
    case Learn => false
    case Paused => false
    case Cancelled => false
  }

  predicate IsTerminal(phase: Phase) {
    phase == Learn || phase == Cancelled
  }

  predicate CanPause(phase: Phase) {
    !IsTerminal(phase) && phase != Paused
  }

  predicate CanCancel(phase: Phase) {
    !IsTerminal(phase)
  }

  datatype Transition = Transition(sequence: nat, fromPhase: Phase, toPhase: Phase, reason: string, at: real)

  datatype State = State(phase: Phase, resumeTarget: Option<Phase>, log: seq<Transition>)

  const START := State(Discover, None, [])

  datatype Command = Advance(to: Phase) | Pause | Resume | Cancel

  /** A call with the clock reading it sees and whether the gates it consults
      all return cleanly. */
  datatype Call = Call(command: Command, reason: string, now: real, admitted: bool)

  datatype MachineError = InvalidTransition(fromPhase: Phase) | GateRefused

  /** The edges before which a gate is consulted. */
  predicate Gated(fromPhase: Phase, to: Phase) {
    || (fromPhase == Propose && to == DevEvaluate)
    || (fromPhase == Approve && to == Canary)
    || to == RolledBack
  }

  function Record(s: State, to: Phase, resumeTarget: Option<Phase>, c: Call): State {
    State(to, resumeTarget, s.log + [Transition(|s.log|, s.phase, to, c.reason, c.now)])
  }

  /** One call. A refusal of any kind leaves no trace. */
  function Step(s: State, c: Call): Result<State, MachineError> {
    match c.command
    case Advance(to) =>
      if !IsEdge(s.phase, to) then Err(InvalidTransition(s.phase))
      else if Gated(s.phase, to) && !c.admitted then Err(GateRefused)
      else Ok(Record(s, to, s.resumeTarget, c))
    case Pause =>
      if !CanPause(s.phase) then Err(InvalidTransition(s.phase)) else Ok(Record(s, Paused, Some(s.phase), c))
    case Resume =>
      if s.phase != Paused || s.resumeTarget.None? then Err(InvalidTransition(s.phase))
      else Ok(Record(s, s.resumeTarget.value, None, c))
    case Cancel =>
      if !CanCancel(s.phase) then Err(InvalidTransition(s.phase)) else Ok(Record(s, Cancelled, None, c))
  }

  function After(s: State, c: Call): State {
    var r := Step(s, c);
    if r.Ok? then r.value else s
  }

  function Run(calls: seq<Call>): State {
    if calls == [] then START else After(Run(calls[..|calls| - 1]), calls[|calls| - 1])
  }

  // -- the log is the history ---------------------------------------------------

  function LastPhase(log: seq<Transition>): Phase {
    if log == [] then Discover else log[|log| - 1].toPhase
  }

  /** The resume target the log implies. */
  function LastResume(log: seq<Transition>): Option<Phase> {
    if log == [] || log[|log| - 1].toPhase != Paused then None else Some(log[|log| - 1].fromPhase)
  }

  /** The phase the campaign is in once control states are looked through. */
  function Effective(s: State): Phase {
    if s.phase == Paused && s.resumeTarget.Some? then s.resumeTarget.value else s.phase
  }

  /** The phases visited, with every pause and the resume that ends it erased. */
  function Visits(log: seq<Transition>): (v: seq<Phase>)
    ensures v != []
  {
    if log == [] then [Discover]
    else
      var before, t := Visits(log[..|log| - 1]), log[|log| - 1];
      if t.toPhase == Paused || (t.fromPhase == Paused && t.toPhase != Cancelled) then before
      else before + [t.toPhase]
  }

  /** A path of the table from DISCOVER, ended at most by a cancellation. */
  ghost predicate LegalPath(p: seq<Phase>) {
    && p != [] && p[0] == Discover
    && forall i :: 0 <= i < |p| - 1 ==> LegalStep(p, i)
  }

  ghost predicate LegalStep(p: seq<Phase>, i: nat)
    requires i < |p| - 1
  {
    IsEdge(p[i], p[i + 1]) || (p[i + 1] == Cancelled && i + 1 == |p| - 1 && !IsTerminal(p[i]))
  }

  /** The phase the record at position `i` must leave. */
  function Reached(log: seq<Transition>, i: nat): Phase
    requires i <= |log|
  {
    if i == 0 then Discover else log[i - 1].toPhase
  }

  ghost predicate Chained(log: seq<Transition>) {
    forall i :: 0 <= i < |log| ==> log[i].sequence == i && log[i].fromPhase == Reached(log, i)
  }

  ghost predicate Consistent(s: State) {
    && Chained(s.log)
    && s.phase == LastPhase(s.log)
    && s.resumeTarget == LastResume(s.log)
    && PauseFacts(s)
    && LegalPath(Visits(s.log))
    && Visits(s.log)[|Visits(s.log)| - 1] == Effective(s)
  }

  lemma ExtendPath(p: seq<Phase>, to: Phase)
    requires LegalPath(p) && !IsTerminal(p[|p| - 1])
    requires IsEdge(p[|p| - 1], to) || to == Cancelled
    ensures LegalPath(p + [to])
  {
    forall i | 0 <= i < |p| ensures LegalStep(p + [to], i) {
      if i < |p| - 1 {
        assert LegalStep(p, i);
        CancelledIsLast(p, i);
      }
    }
  }

  lemma CancelledIsLast(p: seq<Phase>, i: nat)
    requires LegalPath(p) && i < |p| - 1 && !IsTerminal(p[|p| - 1])
    ensures IsEdge(p[i], p[i + 1])
  {
    assert LegalStep(p, i);
  }

  lemma ChainedSnoc(log: seq<Transition>, t: Transition)
    requires Chained(log) && t.sequence == |log| && t.fromPhase == LastPhase(log)
    ensures Chained(log + [t])
  {
  }

  lemma VisitsSnoc(log: seq<Transition>, t: Transition)
    ensures Visits(log + [t])
         == if t.toPhase == Paused || (t.fromPhase == Paused && t.toPhase != Cancelled) then Visits(log)
            else Visits(log) + [t.toPhase]
  {
  }

  /** The three ways a record continues the history: a suspension, the return
      from one, or a step of the path. */
  ghost predicate Continues(s: State, to: Phase) {
    if to == Paused then CanPause(s.phase)
    else if s.phase == Paused && to != Cancelled then s.resumeTarget == Some(to)
    else !IsTerminal(Effective(s)) && (IsEdge(Effective(s), to) || to == Cancelled)
  }

  lemma RecordVisits(s: State, to: Phase, c: Call)
    requires Consistent(s) && Continues(s, to)
    ensures var s' := Record(s, to, if to == Paused then Some(s.phase) else None, c);
            LegalPath(Visits(s'.log)) && Visits(s'.log)[|Visits(s'.log)| - 1] == Effective(s')
  {
    var t := Transition(|s.log|, s.phase, to, c.reason, c.now);
    VisitsSnoc(s.log, t);
    if to != Paused && (s.phase != Paused || to == Cancelled) {
      ExtendPath(Visits(s.log), to);
      assert Visits(s.log + [t]) == Visits(s.log) + [to];
    } else {
      assert Visits(s.log + [t]) == Visits(s.log);
    }
  }

  lemma RecordConsistent(s: State, to: Phase, c: Call)
    requires Consistent(s) && Continues(s, to)
    ensures Consistent(Record(s, to, if to == Paused then Some(s.phase) else None, c))
  {
    RecordVisits(s, to, c);
    ChainedSnoc(s.log, Transition(|s.log|, s.phase, to, c.reason, c.now));
  }

  ghost predicate PauseFacts(s: State) {
    && (s.resumeTarget.Some? <==> s.phase == Paused)
    && (s.resumeTarget.Some? ==> CanPause(s.resumeTarget.value))
  }

  lemma StepRecords(s: State, c: Call)
    requires PauseFacts(s) && Step(s, c).Ok?
    ensures var to := After(s, c).phase;
            && Continues(s, to)
            && After(s, c) == Record(s, to, if to == Paused then Some(s.phase) else None, c)
  {
  }

  /** Which calls are accepted, in phases: the gates are consulted before
      evaluation, canary and rollback, and before nothing else. */
  lemma AcceptedCalls(s: State, c: Call)
    requires PauseFacts(s)
    ensures Step(s, c).Ok? <==>
            match c.command
            case Advance(to) => IsEdge(s.phase, to) && (to == DevEvaluate || to == Canary || to == RolledBack ==> c.admitted)
            case Pause => s.phase != Learn && s.phase != Cancelled && s.phase != Paused
            case Resume => s.phase == Paused
            case Cancel => s.phase != Learn && s.phase != Cancelled
  {
  }

  /** Every call keeps the log gapless and chained, the phase and the resume
      target a fold of it, and the erased history a legal table path. */
  lemma StepKeepsConsistent(s: State, c: Call)
    requires Consistent(s)
    ensures Consistent(After(s, c))
    ensures s.log <= After(s, c).log
  {
    if Step(s, c).Ok? {
      assert PauseFacts(s);
      StepRecords(s, c);
      RecordConsistent(s, After(s, c).phase, c);
    }
  }

  lemma {:induction false} RunConsistent(calls: seq<Call>)
    ensures Consistent(Run(calls))
  {
    if calls == [] {
      assert LegalPath(Visits([]));
    } else {
      RunConsistent(calls[..|calls| - 1]);
      StepKeepsConsistent(Run(calls[..|calls| - 1]), calls[|calls| - 1]);
    }
  }

  /** The table has no path the machine cannot take: every legal path is the
      erased history of a run. */
  lemma {:induction false} EveryPathRuns(p: seq<Phase>) returns (calls: seq<Call>)
    requires LegalPath(p)
    ensures Visits(Run(calls).log) == p && Run(calls).phase == p[|p| - 1]
  {
    if |p| == 1 {
      calls := [];
    } else {
      LegalInit(p);
      var before := EveryPathRuns(p[..|p| - 1]);
      calls := PathNext(before, p);
    }
  }

  lemma RunSnoc(calls: seq<Call>, c: Call)
    ensures Run(calls + [c]) == After(Run(calls), c)
  {
  }

  /** The call that takes the machine to `to`, cancelling if need be. */
  function CallTo(to: Phase): Call {
    Call(if to == Cancelled then Cancel else Advance(to), "", 0.0, true)
  }

  /** One more phase of a path, from a state that stands at its last. */
  lemma VisitsNext(s: State, to: Phase)
    requires s.phase != Paused && to != Paused
    requires if to == Cancelled then !IsTerminal(s.phase) else IsEdge(s.phase, to)
    ensures After(s, CallTo(to)).phase == to
    ensures Visits(After(s, CallTo(to)).log) == Visits(s.log) + [to]
  {
  }

  lemma PathNext(before: seq<Call>, p: seq<Phase>) returns (calls: seq<Call>)
    requires |p| > 1 && Visits(Run(before).log) == p[..|p| - 1] && Run(before).phase == p[|p| - 2]
    requires p[|p| - 2] != Paused && p[|p| - 1] != Paused
    requires if p[|p| - 1] == Cancelled then !IsTerminal(p[|p| - 2]) else IsEdge(p[|p| - 2], p[|p| - 1])
    ensures Visits(Run(calls).log) == p && Run(calls).phase == p[|p| - 1]
  {
    var to := p[|p| - 1];
    calls := before + [CallTo(to)];
    RunSnoc(before, CallTo(to));
    VisitsNext(Run(before), to);
    assert p == p[..|p| - 1] + [to];
  }

  lemma LegalInit(p: seq<Phase>)
    requires LegalPath(p) && |p| > 1
    ensures LegalPath(p[..|p| - 1])
    ensures var last, to := p[|p| - 2], p[|p| - 1];
            && last != Paused && to != Paused
            && if to == Cancelled then !IsTerminal(last) else IsEdge(last, to)
  {
    var init := p[..|p| - 1];
    forall i | 0 <= i < |init| - 1 ensures LegalStep(init, i) {
      assert LegalStep(p, i);
      assert LegalStep(p, i + 1);
    }
    assert LegalStep(p, |p| - 2);
    assert |p| > 2 ==> LegalStep(p, |p| - 3);
  }

  // -- what a promotion has passed through ----------------------------------------

  function Rounds(n: nat): seq<Phase> {
    if n == 0 then [] else Rounds(n - 1) + [Propose, DevEvaluate]
  }

  /** The only path to each phase, up to the number of development rounds. */
  function PathTo(phase: Phase, n: nat): seq<Phase> {
    var searched := [Discover, Plan] + Rounds(n);
    match phase
    case Discover => [Discover]
    case Plan => [Discover, Plan]
    case Propose => searched + [Propose]
    case DevEvaluate => searched
    case SelectFreeze => searched + [SelectFreeze]
    case Holdout => searched + [SelectFreeze, Holdout]
    case Approve => searched + [SelectFreeze, Holdout, Approve]
    case Canary => searched + [SelectFreeze, Holdout, Approve, Canary]
    case Promoted => searched + [SelectFreeze, Holdout, Approve, Canary, Promoted]
    case _ => []
  }

  /** The phases a campaign passes through on its way to promotion. */
  predicate OnTrack(phase: Phase) {
    !IsTerminal(phase) && phase != RolledBack && phase != Paused
  }

  predicate Searched(phase: Phase) {
    OnTrack(phase) && phase != Discover && phase != Plan && phase != Propose
  }

  function NextRound(fromPhase: Phase, to: Phase, n: nat): nat {
    if to == DevEvaluate then n + 1 else if fromPhase == Plan then 0 else n
  }

  lemma PathToStep(fromPhase: Phase, to: Phase, n: nat)
    requires IsEdge(fromPhase, to) && OnTrack(fromPhase) && OnTrack(to)
    ensures PathTo(to, NextRound(fromPhase, to, n)) == PathTo(fromPhase, n) + [to]
  {
  }

  lemma RoundsCounted(fromPhase: Phase, to: Phase, n: nat)
    requires IsEdge(fromPhase, to) && OnTrack(fromPhase) && OnTrack(to) && (Searched(fromPhase) ==> n >= 1)
    ensures Searched(to) ==> NextRound(fromPhase, to, n) >= 1
  {
  }

  lemma OnTrackStep(p: seq<Phase>, i: nat)
    requires LegalPath(p) && i + 1 < |p| && OnTrack(p[i + 1])
    ensures OnTrack(p[i]) && IsEdge(p[i], p[i + 1])
  {
    assert LegalStep(p, i);
  }

  lemma SameExtension(a: seq<Phase>, b: seq<Phase>, to: Phase, a': seq<Phase>, b': seq<Phase>)
    requires a == b && a' == a + [to] && b' == b + [to]
    ensures a' == b'
  {
  }

  lemma {:induction false} PathShape(p: seq<Phase>, k: nat) returns (n: nat)
    requires LegalPath(p) && 0 < k <= |p| && OnTrack(p[k - 1])
    ensures p[..k] == PathTo(p[k - 1], n)
    ensures Searched(p[k - 1]) ==> n >= 1
  {
    n := 0;
    if k > 1 {
      var fromPhase, to := p[k - 2], p[k - 1];
      OnTrackStep(p, k - 2);
      var m := PathShape(p, k - 1);
      PathToStep(fromPhase, to, m);
      RoundsCounted(fromPhase, to, m);
      n := NextRound(fromPhase, to, m);
      assert p[..k] == p[..k - 1] + [to];
      SameExtension(p[..k - 1], PathTo(fromPhase, m), to, p[..k], PathTo(to, n));
    }
  }

  lemma {:induction false} RoundsOnly(n: nat)
    ensures forall k :: 0 <= k < |Rounds(n)| ==> Rounds(n)[k] == Propose || Rounds(n)[k] == DevEvaluate
  {
    if n > 0 {
      RoundsOnly(n - 1);
    }
  }

  lemma AfterPromotion(p: seq<Phase>, i: nat)
    requires LegalPath(p) && i < |p| && p[i] == Promoted
    ensures p[i + 1..] == [] || p[i + 1..] == [Learn] || p[i + 1..] == [Cancelled]
  {
    if i + 1 < |p| {
      assert LegalStep(p, i);
      assert i + 2 < |p| ==> LegalStep(p, i + 1);
      assert p[i + 1..] == [p[i + 1]];
    }
  }

  /** What a legal path that reaches PROMOTED at position `i` looks like. */
  ghost predicate PromotionPath(p: seq<Phase>, i: nat, n: nat) {
    && n >= 1 && i < |p|
    && p[..i + 1] == [Discover, Plan] + Rounds(n) + [SelectFreeze, Holdout, Approve, Canary, Promoted]
    && (p[i + 1..] == [] || p[i + 1..] == [Learn] || p[i + 1..] == [Cancelled])
  }

  lemma LegalPromotion(p: seq<Phase>, i: nat) returns (n: nat)
    requires LegalPath(p) && i < |p| && p[i] == Promoted
    ensures PromotionPath(p, i, n)
  {
    n := PathShape(p, i + 1);
    AfterPromotion(p, i);
  }

  lemma {:induction false} VisitsGrow(log: seq<Transition>, n: nat)
    requires n <= |log|
    ensures |Visits(log[..n])| <= |Visits(log)| && Visits(log[..n]) <= Visits(log)
    decreases |log|
  {
    if n == |log| {
      assert log[..n] == log;
    } else {
      var init := log[..|log| - 1];
      VisitsGrow(init, n);
      assert init[..n] == log[..n];
      assert log == init + [log[|log| - 1]];
      VisitsSnoc(init, log[|log| - 1]);
    }
  }

  lemma StillVisited(s: State, c: Call, k: nat, i: nat)
    requires Consistent(s) && k < |s.log| && i < |Visits(s.log)| && Visits(s.log)[i] == s.log[k].toPhase
    ensures k < |After(s, c).log| && After(s, c).log[k] == s.log[k]
    ensures i < |Visits(After(s, c).log)| && Visits(After(s, c).log)[i] == s.log[k].toPhase
  {
    StepKeepsConsistent(s, c);
    assert After(s, c).log[..|s.log|] == s.log;
    VisitsGrow(After(s, c).log, |s.log|);
  }

  lemma LastRecord(s: State, c: Call, k: nat)
    requires Consistent(s) && |s.log| <= k < |After(s, c).log|
    requires After(s, c).log[k].toPhase != Paused
    ensures Visits(After(s, c).log)[|Visits(After(s, c).log)| - 1] == After(s, c).log[k].toPhase
  {
    StepKeepsConsistent(s, c);
    assert PauseFacts(s);
    if Step(s, c).Ok? {
      StepRecords(s, c);
    }
  }

  ghost predicate Visited(s: State, k: nat) {
    (k < |s.log| && s.log[k].toPhase != Paused) ==>
      exists i :: 0 <= i < |Visits(s.log)| && Visits(s.log)[i] == s.log[k].toPhase
  }

  lemma StepKeepsVisited(s: State, c: Call, k: nat)
    requires Consistent(s) && Visited(s, k)
    ensures Visited(After(s, c), k)
  {
    if k < |After(s, c).log| && After(s, c).log[k].toPhase != Paused {
      StepKeepsConsistent(s, c);
      if k < |s.log| {
        var i :| 0 <= i < |Visits(s.log)| && Visits(s.log)[i] == s.log[k].toPhase;
        StillVisited(s, c, k, i);
      } else {
        LastRecord(s, c, k);
      }
    }
  }

  /** A phase the log records, other than a pause, is one the history visits: a
      record that is erased returns to a phase entered before. */
  lemma {:induction false} RecordedIsVisited(calls: seq<Call>, k: nat)
    ensures Visited(Run(calls), k)
  {
    if calls != [] {
      RecordedIsVisited(calls[..|calls| - 1], k);
      RunConsistent(calls[..|calls| - 1]);
      StepKeepsVisited(Run(calls[..|calls| - 1]), calls[|calls| - 1], k);
    }
  }

  /** A log that reached PROMOTED froze its selection, ran the holdout, was
      approved and canaried, in that order and once each; before that it only
      ran development rounds, and after it only LEARN or a cancellation. */
  lemma PromotionHistory(calls: seq<Call>, k: nat) returns (i: nat, n: nat)
    requires k < |Run(calls).log| && Run(calls).log[k].toPhase == Promoted
    ensures PromotionPath(Visits(Run(calls).log), i, n)
  {
    RunConsistent(calls);
    RecordedIsVisited(calls, k);
    i :| 0 <= i < |Visits(Run(calls).log)| && Visits(Run(calls).log)[i] == Promoted;
    n := LegalPromotion(Visits(Run(calls).log), i);
  }

  /** Each gate of a promotion stands at one place of the path and nowhere else. */
  lemma GateEnteredOnce(p: seq<Phase>, i: nat, n: nat, gate: Phase) returns (at: nat)
    requires PromotionPath(p, i, n)
    requires gate == SelectFreeze || gate == Holdout || gate == Approve || gate == Canary
    ensures at < |p| && p[at] == gate
    ensures forall k :: 0 <= k < |p| && k != at ==> p[k] != gate
  {
    RoundsOnly(n);
    var m := |Rounds(n)|;
    at := m + if gate == SelectFreeze then 2 else if gate == Holdout then 3 else if gate == Approve then 4 else 5;
    var track := [Discover, Plan] + Rounds(n) + [SelectFreeze, Holdout, Approve, Canary, Promoted];
    assert p[at] == track[at];
    forall k | 0 <= k < |p| && k != at ensures p[k] != gate {
      if k > i {
        assert p[k] == p[i + 1..][k - i - 1];
      } else {
        assert p[k] == track[k];
        assert 2 <= k < m + 2 ==> track[k] == Rounds(n)[k - 2];
      }
    }
  }

  // -- the histories, written out -------------------------------------------------

  /** The three full courses of a campaign with `n` development rounds. */
  function Promotion(n: nat): seq<Phase> {
    [Discover, Plan] + Rounds(n) + [SelectFreeze, Holdout, Approve, Canary, Promoted, Learn]
  }

  function LateRollback(n: nat): seq<Phase> {
    [Discover, Plan] + Rounds(n) + [SelectFreeze, Holdout, Approve, Canary, RolledBack, Learn]
  }

  function EarlyRollback(n: nat): seq<Phase> {
    [Discover, Plan] + Rounds(n) + [SelectFreeze, Holdout, Approve, RolledBack, Learn]
  }

  predicate Course(p: seq<Phase>, n: nat) {
    n >= 1 && p != [] && (p <= Promotion(n) || p <= LateRollback(n) || p <= EarlyRollback(n))
  }

  /** A course broken off by a cancellation before it has ended. */
  predicate BrokenOff(p: seq<Phase>, n: nat) {
    |p| > 1 && p[|p| - 1] == Cancelled && p[|p| - 2] != Learn && Course(p[..|p| - 1], n)
  }

  lemma {:induction false} RoundsAlternate(n: nat)
    ensures |Rounds(n)| == 2 * n
    ensures forall k :: 0 <= k < 2 * n ==> Rounds(n)[k] == if k % 2 == 0 then Propose else DevEvaluate
  {
    if n > 0 {
      RoundsAlternate(n - 1);
    }
  }

  /** The phase at position `k` of a course. */
  lemma CourseAt(n: nat, rest: seq<Phase>, k: nat)
    requires k < 2 * n + 2 + |rest|
    ensures var p := [Discover, Plan] + Rounds(n) + rest;
            && |p| == 2 * n + 2 + |rest|
            && p[k] == if k == 0 then Discover
                       else if k == 1 then Plan
                       else if k < 2 * n + 2 then (if k % 2 == 0 then Propose else DevEvaluate)
                       else rest[k - 2 * n - 2]
  {
    RoundsAlternate(n);
  }

  lemma CourseSteps(n: nat, rest: seq<Phase>)
    requires n >= 1 && rest != [] && rest[0] == SelectFreeze
    requires forall i :: 0 <= i < |rest| - 1 ==> IsEdge(rest[i], rest[i + 1])
    ensures LegalPath([Discover, Plan] + Rounds(n) + rest)
  {
    var p := [Discover, Plan] + Rounds(n) + rest;
    CourseAt(n, rest, 0);
    forall i | 0 <= i < |p| - 1 ensures LegalStep(p, i) {
      CourseAt(n, rest, i);
      CourseAt(n, rest, i + 1);
    }
  }

  lemma PrefixLegal(p: seq<Phase>, whole: seq<Phase>)
    requires p != [] && p <= whole && LegalPath(whole) && whole[|whole| - 1] == Learn
    ensures LegalPath(p) && (p[|p| - 1] == Learn || !IsTerminal(p[|p| - 1]))
  {
    forall i | 0 <= i < |p| - 1 ensures LegalStep(p, i) {
      assert LegalStep(whole, i);
    }
    if |p| < |whole| {
      assert LegalStep(whole, |p| - 1);
    }
  }

  lemma CourseIsLegal(p: seq<Phase>, n: nat)
    requires Course(p, n)
    ensures LegalPath(p) && (p[|p| - 1] == Learn || !IsTerminal(p[|p| - 1]))
  {
    if p <= Promotion(n) {
      CourseSteps(n, [SelectFreeze, Holdout, Approve, Canary, Promoted, Learn]);
      PrefixLegal(p, Promotion(n));
    } else if p <= LateRollback(n) {
      CourseSteps(n, [SelectFreeze, Holdout, Approve, Canary, RolledBack, Learn]);
      PrefixLegal(p, LateRollback(n));
    } else {
      CourseSteps(n, [SelectFreeze, Holdout, Approve, RolledBack, Learn]);
      PrefixLegal(p, EarlyRollback(n));
    }
  }

  lemma BrokenOffIsLegal(p: seq<Phase>, n: nat)
    requires BrokenOff(p, n)
    ensures LegalPath(p)
  {
    CourseIsLegal(p[..|p| - 1], n);
    ExtendPath(p[..|p| - 1], Cancelled);
    assert p == p[..|p| - 1] + [Cancelled];
  }

  /** The path to a phase on the track is the start of a promotion. */
  lemma TrackIsCourse(phase: Phase, n: nat) returns (m: nat)
    requires OnTrack(phase) && (Searched(phase) ==> n >= 1)
    ensures m >= 1 && PathTo(phase, n) != [] && PathTo(phase, n) <= Promotion(m)
    ensures Searched(phase) ==> m == n
  {
    m := if phase == Propose then n + 1 else if Searched(phase) then n else 1;
    assert Rounds(m) == Rounds(m - 1) + [Propose, DevEvaluate];
  }

  lemma InitLegal(p: seq<Phase>)
    requires LegalPath(p) && |p| > 1
    ensures LegalPath(p[..|p| - 1]) && !IsTerminal(p[|p| - 2])
    ensures p[|p| - 1] != Cancelled ==> IsEdge(p[|p| - 2], p[|p| - 1])
  {
    LegalInit(p);
    assert LegalStep(p, |p| - 2);
  }

  lemma RolledBackIsCourse(p: seq<Phase>) returns (n: nat)
    requires LegalPath(p) && p[|p| - 1] == RolledBack
    ensures n >= 1 && p != [] && (p <= LateRollback(n) || p <= EarlyRollback(n))
    ensures p + [Learn] == LateRollback(n) || p + [Learn] == EarlyRollback(n)
  {
    InitLegal(p);
    var init := p[..|p| - 1];
    n := PathShape(init, |init|);
    assert init[..|init|] == init;
    assert p == init + [RolledBack];
    if init[|init| - 1] == Canary {
      assert p + [Learn] == LateRollback(n);
    } else {
      assert p + [Learn] == EarlyRollback(n);
    }
  }

  lemma LearnIsCourse(p: seq<Phase>) returns (n: nat)
    requires LegalPath(p) && p[|p| - 1] == Learn
    ensures Course(p, n)
  {
    InitLegal(p);
    var init := p[..|p| - 1];
    assert p == init + [Learn];
    if init[|init| - 1] == RolledBack {
      n := RolledBackIsCourse(init);
    } else {
      n := PathShape(init, |init|);
      assert init[..|init|] == init;
      assert p == Promotion(n);
    }
  }

  lemma LegalIsCourse(p: seq<Phase>) returns (n: nat)
    requires LegalPath(p) && p[|p| - 1] != Cancelled
    ensures Course(p, n)
  {
    var last := p[|p| - 1];
    if last == Learn {
      n := LearnIsCourse(p);
    } else if last == RolledBack {
      n := RolledBackIsCourse(p);
    } else {
      NeverPaused(p);
      n := PathShape(p, |p|);
      assert p[..|p|] == p;
      n := TrackIsCourse(last, n);
    }
  }

  lemma NeverPaused(p: seq<Phase>)
    requires LegalPath(p)
    ensures p[|p| - 1] != Paused
  {
    if |p| > 1 {
      InitLegal(p);
    }
  }

  /** The legal histories are exactly the beginnings of a promotion or of a
      rollback after one or more development rounds, and those broken off by a
      cancellation before LEARN. */
  lemma LegalPathsAre(p: seq<Phase>)
    ensures LegalPath(p) <==> exists n :: Course(p, n) || BrokenOff(p, n)
  {
    if LegalPath(p) {
      if p[|p| - 1] == Cancelled {
        InitLegal(p);
        var n := LegalIsCourse(p[..|p| - 1]);
        assert BrokenOff(p, n);
      } else {
        var n := LegalIsCourse(p);
        assert Course(p, n);
      }
    }
    forall n: nat | Course(p, n) || BrokenOff(p, n) ensures LegalPath(p) {
      if Course(p, n) {
        CourseIsLegal(p, n);
      } else {
        BrokenOffIsLegal(p, n);
      }
    }
  }
}
