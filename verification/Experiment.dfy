/** Running and summarizing an experiment: the arm-major, seed, task loops, the
    aggregation of every arm and the family of comparisons with the incumbent. */
module Experiments {
  import opened Wrappers
  import opened Sorting
  import opened RealSums
  import opened Statistics
  import opened Bootstrap
  import opened Holm
  import opened Results

  /** The outcome of an arm's run of a task under a seed replicate. */
  type Outcomes = (string, nat, string) -> bool

  // -- the runner's loops -------------------------------------------------------

  function SeedBlock(arm: string, tasks: seq<string>, seed: nat, outcomes: Outcomes): (r: seq<TaskRun>)
    ensures |r| == |tasks|
  {
    if tasks == [] then []
    else
      var last := tasks[|tasks| - 1];
      SeedBlock(arm, tasks[..|tasks| - 1], seed, outcomes) + [TaskRun(arm, last, seed, outcomes(arm, seed, last))]
  }

  function RunsOf(arm: string, tasks: seq<string>, seeds: nat, outcomes: Outcomes): seq<TaskRun> {
    if seeds == 0 then []
    else RunsOf(arm, tasks, seeds - 1, outcomes) + SeedBlock(arm, tasks, seeds - 1, outcomes)
  }

  method RunArm(arm: string, tasks: seq<string>, seeds: nat, outcomes: Outcomes) returns (runs: seq<TaskRun>)
    ensures runs == RunsOf(arm, tasks, seeds, outcomes)
  {
    runs := [];
    for seed := 0 to seeds
      invariant runs == RunsOf(arm, tasks, seed, outcomes)
    {
      var before := runs;
      for i := 0 to |tasks|
        invariant runs == before + SeedBlock(arm, tasks[..i], seed, outcomes)
      {
        assert tasks[..i + 1][..i] == tasks[..i];
        runs := runs + [TaskRun(arm, tasks[i], seed, outcomes(arm, seed, tasks[i]))];
      }
      assert tasks[..|tasks|] == tasks;
    }
  }

  function RunsOfAll(arms: seq<string>, tasks: seq<string>, seeds: nat, outcomes: Outcomes): seq<TaskRun> {
    if arms == [] then []
    else RunsOfAll(arms[..|arms| - 1], tasks, seeds, outcomes) + RunsOf(arms[|arms| - 1], tasks, seeds, outcomes)
  }

  method RunExperiment(arms: seq<string>, tasks: seq<string>, seeds: nat, outcomes: Outcomes)
    returns (runs: seq<TaskRun>)
    ensures runs == RunsOfAll(arms, tasks, seeds, outcomes)
  {
    runs := [];
    for i := 0 to |arms|
      invariant runs == RunsOfAll(arms[..i], tasks, seeds, outcomes)
    {
      var more := RunArm(arms[i], tasks, seeds, outcomes);
      assert arms[..i + 1][..i] == arms[..i];
      runs := runs + more;
    }
    assert arms[..|arms|] == arms;
  }

  // -- the run set is balanced --------------------------------------------------

  lemma {:induction false} ScoresByAppend<K>(a: seq<TaskRun>, b: seq<TaskRun>, key: TaskRun -> K, k: K)
    ensures ScoresBy(a + b, key, k) == ScoresBy(a, key, k) + ScoresBy(b, key, k)
  {
    if b == [] {
      assert a + b == a;
    } else {
      var init, last := b[..|b| - 1], b[|b| - 1];
      ScoresByAppend(a, init, key, k);
      ScoresBySnoc(a + init, last, key, k);
      ScoresBySnoc(init, last, key, k);
      assert a + b == a + init + [last] && b == init + [last];
    }
  }

  lemma {:induction false} BlockTaskCount(arm: string, tasks: seq<string>, seed: nat, outcomes: Outcomes, t: string)
    requires Distinct(tasks)
    ensures |ScoresBy(SeedBlock(arm, tasks, seed, outcomes), TaskOf, t)| == if t in tasks then 1 else 0
  {
    if tasks != [] {
      var init, last := tasks[..|tasks| - 1], tasks[|tasks| - 1];
      BlockTaskCount(arm, init, seed, outcomes, t);
      ScoresBySnoc(SeedBlock(arm, init, seed, outcomes), TaskRun(arm, last, seed, outcomes(arm, seed, last)), TaskOf, t);
      assert t in tasks <==> t in init || t == last;
    }
  }

  lemma {:induction false} BlockSeedCount(arm: string, tasks: seq<string>, seed: nat, outcomes: Outcomes, s: nat)
    ensures |ScoresBy(SeedBlock(arm, tasks, seed, outcomes), SeedOf, s)| == if s == seed then |tasks| else 0
  {
    if tasks != [] {
      var init, last := tasks[..|tasks| - 1], tasks[|tasks| - 1];
      BlockSeedCount(arm, init, seed, outcomes, s);
      ScoresBySnoc(SeedBlock(arm, init, seed, outcomes), TaskRun(arm, last, seed, outcomes(arm, seed, last)), SeedOf, s);
    }
  }

  lemma {:induction false} BlockFirstSeen(arm: string, tasks: seq<string>, seed: nat, outcomes: Outcomes)
    requires Distinct(tasks)
    ensures FirstSeen(SeedBlock(arm, tasks, seed, outcomes), TaskOf) == tasks
  {
    if tasks != [] {
      var init, last := tasks[..|tasks| - 1], tasks[|tasks| - 1];
      BlockFirstSeen(arm, init, seed, outcomes);
      FirstSeenSnoc(SeedBlock(arm, init, seed, outcomes), TaskRun(arm, last, seed, outcomes(arm, seed, last)), TaskOf);
      assert tasks == init + [last] && last !in init;
    }
  }

  /** In the runs of one arm every task has one score a seed, and every seed one
      score a task. */
  lemma {:induction false} RunsTaskCount(arm: string, tasks: seq<string>, seeds: nat, outcomes: Outcomes, t: string)
    requires Distinct(tasks)
    ensures |ScoresBy(RunsOf(arm, tasks, seeds, outcomes), TaskOf, t)| == if t in tasks then seeds else 0
  {
    if seeds > 0 {
      RunsTaskCount(arm, tasks, seeds - 1, outcomes, t);
      BlockTaskCount(arm, tasks, seeds - 1, outcomes, t);
      ScoresByAppend(RunsOf(arm, tasks, seeds - 1, outcomes), SeedBlock(arm, tasks, seeds - 1, outcomes), TaskOf, t);
    }
  }

  lemma {:induction false} RunsSeedCount(arm: string, tasks: seq<string>, seeds: nat, outcomes: Outcomes, s: nat)
    ensures |ScoresBy(RunsOf(arm, tasks, seeds, outcomes), SeedOf, s)| == if s < seeds then |tasks| else 0
  {
    if seeds > 0 {
      RunsSeedCount(arm, tasks, seeds - 1, outcomes, s);
      BlockSeedCount(arm, tasks, seeds - 1, outcomes, s);
      ScoresByAppend(RunsOf(arm, tasks, seeds - 1, outcomes), SeedBlock(arm, tasks, seeds - 1, outcomes), SeedOf, s);
    }
  }

  lemma {:induction false} FirstSeenAppendSeen<K>(a: seq<TaskRun>, b: seq<TaskRun>, key: TaskRun -> K)
    requires forall i :: 0 <= i < |b| ==> key(b[i]) in FirstSeen(a, key)
    ensures FirstSeen(a + b, key) == FirstSeen(a, key)
  {
    if b == [] {
      assert a + b == a;
    } else {
      var init, last := b[..|b| - 1], b[|b| - 1];
      FirstSeenAppendSeen(a, init, key);
      assert a + b == a + init + [last];
      FirstSeenSnoc(a + init, last, key);
    }
  }

  lemma {:induction false} BlockKeys(arm: string, tasks: seq<string>, seed: nat, outcomes: Outcomes)
    ensures forall i :: 0 <= i < |tasks| ==>
      var run := SeedBlock(arm, tasks, seed, outcomes)[i];
      run.taskId == tasks[i] && run.seedIndex == seed && run.armId == arm
  {
    if tasks != [] {
      BlockKeys(arm, tasks[..|tasks| - 1], seed, outcomes);
    }
  }

  /** The canonical task order is the order the tasks were given in. */
  lemma {:induction false} TasksFirstSeen(arm: string, tasks: seq<string>, seeds: nat, outcomes: Outcomes)
    requires Distinct(tasks) && seeds > 0
    ensures FirstSeen(RunsOf(arm, tasks, seeds, outcomes), TaskOf) == tasks
  {
    var before, block := RunsOf(arm, tasks, seeds - 1, outcomes), SeedBlock(arm, tasks, seeds - 1, outcomes);
    if seeds == 1 {
      BlockFirstSeen(arm, tasks, 0, outcomes);
      assert before + block == block;
    } else {
      TasksFirstSeen(arm, tasks, seeds - 1, outcomes);
      BlockKeys(arm, tasks, seeds - 1, outcomes);
      FirstSeenAppendSeen(before, block, TaskOf);
    }
  }

  /** On the runs of an arm the per-task means and the per-seed rates average to
      the success rate: nothing depends on the grouping. */
  lemma TaskScoresRegroup(arm: string, tasks: seq<string>, seeds: nat, outcomes: Outcomes, s: ArmSummary)
    requires Distinct(tasks) && tasks != [] && seeds > 0
    requires RunsOf(arm, tasks, seeds, outcomes) != []
    requires Summarizes(s, RunsOf(arm, tasks, seeds, outcomes))
    ensures AlignedScores(s, tasks).Ok? && |AlignedScores(s, tasks).value| == |tasks|
    ensures Mean(AlignedScores(s, tasks).value) == s.successRate
  {
    var runs := RunsOf(arm, tasks, seeds, outcomes);
    forall t | t in tasks ensures |ScoresBy(runs, TaskOf, t)| == seeds {
      RunsTaskCount(arm, tasks, seeds, outcomes, t);
    }
    TasksFirstSeen(arm, tasks, seeds, outcomes);
    FirstSeenKeys(runs, TaskOf);
    MeanOfMeans(runs, TaskOf, tasks, seeds);
    AlignedAreGroupMeans(s, runs, tasks);
  }

  lemma SeedRatesRegroup(arm: string, tasks: seq<string>, seeds: nat, outcomes: Outcomes, s: ArmSummary)
    requires tasks != [] && RunsOf(arm, tasks, seeds, outcomes) != []
    requires Summarizes(s, RunsOf(arm, tasks, seeds, outcomes))
    ensures s.perSeedRates != [] && Mean(s.perSeedRates) == s.successRate
  {
    var runs := RunsOf(arm, tasks, seeds, outcomes);
    var seen := FirstSeen(runs, SeedOf);
    var order := Sort(seen, LeNat);
    FirstSeenKeys(runs, SeedOf);
    SortPermutes(seen, LeNat);
    SameElements(order, seen);
    DistinctRearranged(seen, order);
    assert SeedOf(runs[0]) in order;
    forall k | k in order ensures |ScoresBy(runs, SeedOf, k)| == |tasks| {
      RunsSeedCount(arm, tasks, seeds, outcomes, k);
    }
    MeanOfMeans(runs, SeedOf, order, |tasks|);
  }

  // -- comparisons --------------------------------------------------------------

  datatype ResultsError =
    | UnknownArm(armId: string)
    | NoRuns(armId: string)
    | MissingTask
    | BadStatistics(error: StatisticsError)

  function ScoreList(scores: map<string, real>, taskIds: seq<string>): (r: seq<real>)
    requires forall i :: 0 <= i < |taskIds| ==> taskIds[i] in scores
    ensures |r| == |taskIds| && forall i :: 0 <= i < |r| ==> r[i] == scores[taskIds[i]]
  {
    seq(|taskIds|, i requires 0 <= i < |taskIds| => scores[taskIds[i]])
  }

  function AlignedScores(s: ArmSummary, taskIds: seq<string>): Result<seq<real>, ResultsError> {
    if exists i :: 0 <= i < |taskIds| && taskIds[i] !in s.taskScores then Err(MissingTask)
    else Ok(ScoreList(s.taskScores, taskIds))
  }

  lemma AlignedAreGroupMeans(s: ArmSummary, runs: seq<TaskRun>, tasks: seq<string>)
    requires runs != [] && Summarizes(s, runs) && FirstSeen(runs, TaskOf) == tasks
    requires forall t :: t in tasks ==> ScoresBy(runs, TaskOf, t) != []
    ensures AlignedScores(s, tasks) == Ok(GroupMeans(runs, TaskOf, tasks))
  {
    var means := GroupMeans(runs, TaskOf, tasks);
    forall i | 0 <= i < |tasks| ensures tasks[i] in s.taskScores && s.taskScores[tasks[i]] == means[i] {
      GroupMeansAt(runs, TaskOf, tasks, i);
    }
    assert ScoreList(s.taskScores, tasks) == means;
  }

  /** The paired delta, a mean over per-task means, is the candidate's success
      rate minus the incumbent's, means over all their runs. */
  lemma DeltaIsRateDifference(incumbent: string, candidate: string, tasks: seq<string>, seeds: nat, outcomes: Outcomes,
                              si: ArmSummary, sc: ArmSummary, iterations: int, alpha: real, seed: int, draws: IndexStream)
    requires Distinct(tasks) && tasks != [] && seeds > 0
    requires RunsOf(incumbent, tasks, seeds, outcomes) != [] && RunsOf(candidate, tasks, seeds, outcomes) != []
    requires Summarizes(si, RunsOf(incumbent, tasks, seeds, outcomes))
    requires Summarizes(sc, RunsOf(candidate, tasks, seeds, outcomes))
    ensures var taskIds := FirstSeen(RunsOf(incumbent, tasks, seeds, outcomes), TaskOf);
            && AlignedScores(si, taskIds).Ok? && AlignedScores(sc, taskIds).Ok?
            && var r := BootstrapOf(AlignedScores(si, taskIds).value, AlignedScores(sc, taskIds).value,
                                    iterations, alpha, seed, draws);
            r.Ok? ==> r.value.observedDelta == sc.successRate - si.successRate
  {
    TasksFirstSeen(incumbent, tasks, seeds, outcomes);
    TaskScoresRegroup(incumbent, tasks, seeds, outcomes, si);
    TaskScoresRegroup(candidate, tasks, seeds, outcomes, sc);
    BootstrapDelta(AlignedScores(si, tasks).value, AlignedScores(sc, tasks).value, iterations, alpha, seed, draws);
  }

  lemma BootstrapDelta(baseline: seq<real>, candidate: seq<real>, iterations: int, alpha: real, seed: int,
                       draws: IndexStream)
    requires baseline != [] && |baseline| == |candidate|
    ensures var r := BootstrapOf(baseline, candidate, iterations, alpha, seed, draws);
            r.Ok? ==> r.value.observedDelta == Mean(candidate) - Mean(baseline)
  {
    ObservedIsMean(baseline, candidate, iterations, alpha, seed, draws);
    MeanOfDifferences(baseline, candidate);
  }

  lemma ObservedIsMean(baseline: seq<real>, candidate: seq<real>, iterations: int, alpha: real, seed: int,
                       draws: IndexStream)
    requires baseline != [] && |baseline| == |candidate|
    ensures var r := BootstrapOf(baseline, candidate, iterations, alpha, seed, draws);
            r.Ok? ==> r.value.observedDelta == Mean(Minus(candidate, baseline))
  {
  }

  lemma MeanOfDifferences(baseline: seq<real>, candidate: seq<real>)
    requires baseline != [] && |baseline| == |candidate|
    ensures Mean(Minus(candidate, baseline)) == Mean(candidate) - Mean(baseline)
  {
    SumMinus(candidate, baseline);
    DifferenceOfQuotients(Sum(candidate), Sum(baseline), |baseline|);
  }

  lemma DifferenceOfQuotients(x: real, y: real, n: nat)
    requires n > 0
    ensures (x - y) / n as real == x / n as real - y / n as real
  {
  }

  // -- the whole experiment -----------------------------------------------------

  datatype Experiment = Experiment(
    incumbent: string,
    candidates: seq<string>,
    alpha: real,
    multiplicity: MultiplicityMethod,
    bootstrapIterations: int,
    bootstrapSeed: int)
  {
    function Arms(): seq<string> {
      [incumbent] + candidates
    }
  }

  datatype ArmComparison = ArmComparison(bootstrap: PairedBootstrapResult, adjustedPValue: real)

  datatype ExperimentResult = ExperimentResult(
    taskIds: seq<string>,
    primary: map<string, ArmSummary>,
    delta: map<string, ArmComparison>,
    perComparisonAlpha: real)

  function ArmRuns(runs: seq<TaskRun>, arm: string): seq<TaskRun> {
    if runs == [] then []
    else if runs[|runs| - 1].armId == arm then ArmRuns(runs[..|runs| - 1], arm) + [runs[|runs| - 1]]
    else ArmRuns(runs[..|runs| - 1], arm)
  }

  method BuildArmSummary(arm: string, runs: seq<TaskRun>) returns (r: Result<ArmSummary, ResultsError>)
    ensures r == Err(NoRuns(arm)) <==> runs == []
    ensures runs != [] ==> r.Ok? && Summarizes(r.value, runs)
  {
    if runs == [] {
      return Err(NoRuns(arm));
    }
    var byTask := GroupScores(runs, TaskOf);
    FirstSeenKeys(runs, TaskOf);
    var taskScores := map t | t in byTask :: Mean(byTask[t]);
    var rates := BuildSeedRates(runs);
    return Ok(ArmSummary(taskScores, Mean(Scores(runs)), rates));
  }

  function TableMeans(groups: map<nat, seq<real>>, order: seq<nat>): (r: seq<real>)
    requires forall k :: k in order ==> k in groups && groups[k] != []
    ensures |r| == |order| && forall i :: 0 <= i < |r| ==> r[i] == Mean(groups[order[i]])
  {
    seq(|order|, i requires 0 <= i < |order| => Mean(groups[order[i]]))
  }

  lemma TableMeansAreGroupMeans(runs: seq<TaskRun>, groups: map<nat, seq<real>>, order: seq<nat>)
    requires forall k :: k in order ==> k in groups && groups[k] != [] && groups[k] == ScoresBy(runs, SeedOf, k)
    ensures TableMeans(groups, order) == GroupMeans(runs, SeedOf, order)
  {
  }

  /** The per-seed half of the variance report. */
  method BuildSeedRates(runs: seq<TaskRun>) returns (rates: seq<real>)
    requires runs != []
    ensures forall k :: k in Sort(FirstSeen(runs, SeedOf), LeNat) ==> ScoresBy(runs, SeedOf, k) != []
    ensures rates == GroupMeans(runs, SeedOf, Sort(FirstSeen(runs, SeedOf), LeNat))
  {
    var bySeed := GroupScores(runs, SeedOf);
    var order := Sort(FirstSeen(runs, SeedOf), LeNat);
    SortedSeeds(runs);
    TableMeansAreGroupMeans(runs, bySeed, order);
    rates := TableMeans(bySeed, order);
  }

  /** The loop that files every run under its arm. */
  method RunsByArm(arms: seq<string>, runs: seq<TaskRun>) returns (r: Result<map<string, seq<TaskRun>>, ResultsError>)
    ensures r.Err? <==> exists i :: 0 <= i < |runs| && runs[i].armId !in arms
    ensures r.Err? ==> r.error.UnknownArm?
    ensures r.Ok? ==> forall a :: a in arms ==> a in r.value && r.value[a] == ArmRuns(runs, a)
  {
    var byArm := map a | a in arms :: [];
    for i := 0 to |runs|
      invariant forall j :: 0 <= j < i ==> runs[j].armId in arms
      invariant forall a :: a in arms ==> a in byArm && byArm[a] == ArmRuns(runs[..i], a)
    {
      if runs[i].armId !in arms {
        return Err(UnknownArm(runs[i].armId));
      }
      assert runs[..i + 1][..i] == runs[..i];
      byArm := byArm[runs[i].armId := byArm[runs[i].armId] + [runs[i]]];
    }
    assert runs[..|runs|] == runs;
    return Ok(byArm);
  }

  ghost predicate Primary(arms: seq<string>, runs: seq<TaskRun>, primary: map<string, ArmSummary>) {
    forall a :: a in arms ==> a in primary && ArmRuns(runs, a) != [] && Summarizes(primary[a], ArmRuns(runs, a))
  }

  method SummarizeArms(arms: seq<string>, runs: seq<TaskRun>, byArm: map<string, seq<TaskRun>>)
    returns (r: Result<map<string, ArmSummary>, ResultsError>)
    requires forall a :: a in arms ==> a in byArm && byArm[a] == ArmRuns(runs, a)
    ensures r.Ok? ==> Primary(arms, runs, r.value)
    ensures r.Err? ==> r.error.NoRuns? && r.error.armId in arms && ArmRuns(runs, r.error.armId) == []
  {
    var primary := map[];
    for i := 0 to |arms|
      invariant Primary(arms[..i], runs, primary)
    {
      var summary :- BuildArmSummary(arms[i], byArm[arms[i]]);
      primary := primary[arms[i] := summary];
    }
    assert arms[..|arms|] == arms;
    return Ok(primary);
  }

  /** The comparison of one candidate with the incumbent. */
  ghost predicate Compares(e: Experiment, primary: map<string, ArmSummary>, taskIds: seq<string>, alpha: real,
                           draws: IndexStream, candidate: string, result: PairedBootstrapResult)
  {
    && e.incumbent in primary && candidate in primary
    && AlignedScores(primary[e.incumbent], taskIds).Ok? && AlignedScores(primary[candidate], taskIds).Ok?
    && BootstrapOf(AlignedScores(primary[e.incumbent], taskIds).value, AlignedScores(primary[candidate], taskIds).value,
                   e.bootstrapIterations, alpha, e.bootstrapSeed, draws) == Ok(result)
  }

  lemma BootstrapPValueRange(baseline: seq<real>, candidate: seq<real>, iterations: int, alpha: real, seed: int,
                             draws: IndexStream)
    ensures var r := BootstrapOf(baseline, candidate, iterations, alpha, seed, draws);
            r.Ok? ==> 0.0 <= r.value.pValue <= 1.0
  {
  }

  /** A comparison whose p-value may enter the family. */
  ghost predicate Comparison(e: Experiment, primary: map<string, ArmSummary>, taskIds: seq<string>, alpha: real,
                             draws: IndexStream, candidate: string, result: PairedBootstrapResult)
  {
    Compares(e, primary, taskIds, alpha, draws, candidate, result) && 0.0 <= result.pValue <= 1.0
  }

  method CompareOne(e: Experiment, primary: map<string, ArmSummary>, taskIds: seq<string>, alpha: real,
                    draws: IndexStream, candidate: string) returns (r: Result<PairedBootstrapResult, ResultsError>)
    requires e.incumbent in primary && candidate in primary
    ensures r.Ok? ==> Comparison(e, primary, taskIds, alpha, draws, candidate, r.value)
    ensures r.Err? ==> !r.error.UnknownArm?
  {
    var baseline :- AlignedScores(primary[e.incumbent], taskIds);
    var scores :- AlignedScores(primary[candidate], taskIds);
    var result := PairedBootstrap(baseline, scores, e.bootstrapIterations, alpha, e.bootstrapSeed, draws);
    if result.Err? {
      return Err(BadStatistics(result.error));
    }
    BootstrapPValueRange(baseline, scores, e.bootstrapIterations, alpha, e.bootstrapSeed, draws);
    return Ok(result.value);
  }

  method CompareCandidates(e: Experiment, primary: map<string, ArmSummary>, taskIds: seq<string>, alpha: real,
                           draws: IndexStream)
    returns (r: Result<seq<PairedBootstrapResult>, ResultsError>)
    requires forall a :: a in e.Arms() ==> a in primary
    ensures r.Ok? ==> |r.value| == |e.candidates|
    ensures r.Ok? ==> forall i :: 0 <= i < |e.candidates| ==>
      Comparison(e, primary, taskIds, alpha, draws, e.candidates[i], r.value[i])
    ensures r.Err? ==> !r.error.UnknownArm?
  {
    var results: seq<PairedBootstrapResult> := [];
    assert e.Arms()[0] == e.incumbent;
    for i := 0 to |e.candidates|
      invariant |results| == i
      invariant forall j :: 0 <= j < i ==> Comparison(e, primary, taskIds, alpha, draws, e.candidates[j], results[j])
    {
      assert e.Arms()[i + 1] == e.candidates[i];
      var result :- CompareOne(e, primary, taskIds, alpha, draws, e.candidates[i]);
      results := results + [result];
    }
    return Ok(results);
  }

  ghost function RawPValues(delta: map<string, ArmComparison>): map<string, real> {
    map a | a in delta :: delta[a].bootstrap.pValue
  }

  ghost function AdjustedPValues(delta: map<string, ArmComparison>): map<string, real> {
    map a | a in delta :: delta[a].adjustedPValue
  }

  /** What an experiment result reports: every arm summarized from its own runs,
      every candidate bootstrapped against the incumbent at the per-comparison
      alpha over the incumbent's task order, and the closed Bonferroni test of
      the family of p-values. */
  ghost predicate Reports(e: Experiment, runs: seq<TaskRun>, draws: IndexStream, x: ExperimentResult) {
    && Primary(e.Arms(), runs, x.primary)
    && x.taskIds == FirstSeen(ArmRuns(runs, e.incumbent), TaskOf)
    && PerComparisonAlpha(e.alpha, |e.candidates|, e.multiplicity) == Ok(x.perComparisonAlpha)
    && (forall c :: c in x.delta <==> c in e.candidates)
    && (forall c :: c in x.delta ==>
         Compares(e, x.primary, x.taskIds, x.perComparisonAlpha, draws, c, x.delta[c].bootstrap))
    && IsAdjustment(RawPValues(x.delta), AdjustedPValues(x.delta))
  }

  method SummarizeExperiment(e: Experiment, runs: seq<TaskRun>, draws: IndexStream)
    returns (r: Result<ExperimentResult, ResultsError>)
    requires Distinct(e.Arms())
    ensures r.Ok? ==> Reports(e, runs, draws, r.value)
    ensures (exists i :: 0 <= i < |runs| && runs[i].armId !in e.Arms()) <==> r.Err? && r.error.UnknownArm?
  {
    var byArm :- RunsByArm(e.Arms(), runs);
    var primary :- SummarizeArms(e.Arms(), runs, byArm);
    assert e.Arms()[0] == e.incumbent;
    var taskIds := FirstSeen(byArm[e.incumbent], TaskOf);
    var alpha := PerComparisonAlpha(e.alpha, |e.candidates|, e.multiplicity);
    if alpha.Err? {
      return Err(BadStatistics(alpha.error));
    }
    var results :- CompareCandidates(e, primary, taskIds, alpha.value, draws);
    CandidatesDistinct(e);
    var delta := AdjustFamily(e.candidates, results);
    var report := ExperimentResult(taskIds, primary, delta, alpha.value);
    AssembleReport(e, runs, draws, results, report);
    return Ok(report);
  }

  lemma CandidatesDistinct(e: Experiment)
    requires Distinct(e.Arms())
    ensures Distinct(e.candidates)
  {
    forall i, j | 0 <= i < j < |e.candidates| ensures e.candidates[i] != e.candidates[j] {
      assert e.Arms()[i + 1] != e.Arms()[j + 1];
    }
  }

  lemma AssembleReport(e: Experiment, runs: seq<TaskRun>, draws: IndexStream, results: seq<PairedBootstrapResult>,
                       x: ExperimentResult)
    requires Primary(e.Arms(), runs, x.primary)
    requires x.taskIds == FirstSeen(ArmRuns(runs, e.incumbent), TaskOf)
    requires PerComparisonAlpha(e.alpha, |e.candidates|, e.multiplicity) == Ok(x.perComparisonAlpha)
    requires |results| == |e.candidates| && forall c :: c in x.delta <==> c in e.candidates
    requires forall i :: 0 <= i < |e.candidates| ==>
      && Compares(e, x.primary, x.taskIds, x.perComparisonAlpha, draws, e.candidates[i], results[i])
      && x.delta[e.candidates[i]].bootstrap == results[i]
    requires IsAdjustment(RawPValues(x.delta), AdjustedPValues(x.delta))
    ensures Reports(e, runs, draws, x)
  {
    forall c | c in x.delta
      ensures Compares(e, x.primary, x.taskIds, x.perComparisonAlpha, draws, c, x.delta[c].bootstrap)
    {
      var i :| 0 <= i < |e.candidates| && e.candidates[i] == c;
    }
  }

  function Items(names: seq<string>, results: seq<PairedBootstrapResult>): (items: seq<Item>)
    requires |names| == |results|
    ensures |items| == |names| && forall i :: 0 <= i < |names| ==> items[i] == (names[i], results[i].pValue)
  {
    seq(|names|, i requires 0 <= i < |names| => (names[i], results[i].pValue))
  }

  lemma FamilyAdjusted(names: seq<string>, results: seq<PairedBootstrapResult>, adjusted: map<string, real>)
    requires |names| == |results| && Distinct(names)
    requires forall i :: 0 <= i < |results| ==> 0.0 <= results[i].pValue <= 1.0
    requires ClosesBonferroni(Items(names, results), adjusted)
    ensures IsAdjustment(MapOf(Items(names, results)), adjusted)
    ensures MapOf(Items(names, results)).Keys == (set i | 0 <= i < |names| :: names[i])
    ensures forall i :: 0 <= i < |names| ==> MapOf(Items(names, results))[names[i]] == results[i].pValue
  {
    var items := Items(names, results);
    var p := MapOf(items);
    assert DistinctKeys(items);
    MapOfLists(items);
    forall i | 0 <= i < |names| ensures names[i] in p && p[names[i]] == results[i].pValue {
      assert items[i].0 in p;
    }
    forall k | k in p ensures 0.0 <= p[k] <= 1.0 && exists i :: 0 <= i < |names| && names[i] == k {
      var i :| 0 <= i < |items| && items[i] == (k, p[k]);
      assert names[i] == k;
    }
  }

  method AdjustFamily(names: seq<string>, results: seq<PairedBootstrapResult>)
    returns (delta: map<string, ArmComparison>)
    requires |names| == |results| && Distinct(names)
    requires forall i :: 0 <= i < |results| ==> 0.0 <= results[i].pValue <= 1.0
    ensures forall c :: c in delta <==> c in names
    ensures forall i :: 0 <= i < |names| ==> delta[names[i]].bootstrap == results[i]
    ensures IsAdjustment(RawPValues(delta), AdjustedPValues(delta))
  {
    var items := Items(names, results);
    assert DistinctKeys(items);
    var adjusted := HolmAdjusted(items);
    FamilyAdjusted(names, results, adjusted);
    delta := BuildDelta(names, results, adjusted);
    FamilyTables(names, results, adjusted, delta);
  }

  method BuildDelta(names: seq<string>, results: seq<PairedBootstrapResult>, adjusted: map<string, real>)
    returns (delta: map<string, ArmComparison>)
    requires |names| == |results| && Distinct(names) && forall c :: c in names ==> c in adjusted
    ensures forall c :: c in delta <==> c in names
    ensures forall i :: 0 <= i < |names| ==> delta[names[i]] == ArmComparison(results[i], adjusted[names[i]])
  {
    delta := map[];
    for i := 0 to |names|
      invariant forall c :: c in delta <==> c in names[..i]
      invariant forall j :: 0 <= j < i ==> delta[names[j]] == ArmComparison(results[j], adjusted[names[j]])
    {
      delta := delta[names[i] := ArmComparison(results[i], adjusted[names[i]])];
    }
  }

  lemma FamilyTables(names: seq<string>, results: seq<PairedBootstrapResult>, adjusted: map<string, real>,
                     delta: map<string, ArmComparison>)
    requires |names| == |results| && Distinct(names) && forall c :: c in delta <==> c in names
    requires MapOf(Items(names, results)).Keys == (set i | 0 <= i < |names| :: names[i]) == adjusted.Keys
    requires forall i :: 0 <= i < |names| ==>
      && MapOf(Items(names, results))[names[i]] == results[i].pValue
      && delta[names[i]] == ArmComparison(results[i], adjusted[names[i]])
    ensures RawPValues(delta) == MapOf(Items(names, results)) && AdjustedPValues(delta) == adjusted
  {
  }

  // -- end to end ---------------------------------------------------------------

  lemma {:induction false} ArmRunsAppend(a: seq<TaskRun>, b: seq<TaskRun>, arm: string)
    ensures ArmRuns(a + b, arm) == ArmRuns(a, arm) + ArmRuns(b, arm)
  {
    if b == [] {
      assert a + b == a;
    } else {
      ArmRunsAppend(a, b[..|b| - 1], arm);
      assert (a + b)[..|a + b| - 1] == a + b[..|b| - 1];
    }
  }

  lemma {:induction false} ArmRunsUniform(runs: seq<TaskRun>, arm: string, other: string)
    requires forall i :: 0 <= i < |runs| ==> runs[i].armId == arm
    ensures ArmRuns(runs, other) == if other == arm then runs else []
  {
    if runs != [] {
      ArmRunsUniform(runs[..|runs| - 1], arm, other);
    }
  }

  lemma {:induction false} RunsOfArm(arm: string, tasks: seq<string>, seeds: nat, outcomes: Outcomes)
    ensures forall i :: 0 <= i < |RunsOf(arm, tasks, seeds, outcomes)| ==> RunsOf(arm, tasks, seeds, outcomes)[i].armId == arm
  {
    if seeds > 0 {
      RunsOfArm(arm, tasks, seeds - 1, outcomes);
      BlockKeys(arm, tasks, seeds - 1, outcomes);
    }
  }

  /** Filing the runs of an experiment by arm gives back each arm's own runs. */
  lemma {:induction false} ArmRunsOfAll(arms: seq<string>, tasks: seq<string>, seeds: nat, outcomes: Outcomes, arm: string)
    requires Distinct(arms)
    ensures ArmRuns(RunsOfAll(arms, tasks, seeds, outcomes), arm)
         == if arm in arms then RunsOf(arm, tasks, seeds, outcomes) else []
  {
    if arms != [] {
      var init, last := arms[..|arms| - 1], arms[|arms| - 1];
      ArmRunsOfAll(init, tasks, seeds, outcomes, arm);
      ArmRunsAppend(RunsOfAll(init, tasks, seeds, outcomes), RunsOf(last, tasks, seeds, outcomes), arm);
      RunsOfArm(last, tasks, seeds, outcomes);
      ArmRunsUniform(RunsOf(last, tasks, seeds, outcomes), last, arm);
      assert arm in arms <==> arm in init || arm == last;
    }
  }

  /** In every report over the runs of an experiment the paired delta of each
      candidate is its success rate minus the incumbent's, and each arm's success
      rate is the mean of its per-seed rates. */
  lemma ReportedDeltas(e: Experiment, tasks: seq<string>, seeds: nat, outcomes: Outcomes, draws: IndexStream,
                       x: ExperimentResult, c: string)
    requires Distinct(e.Arms()) && Distinct(tasks) && tasks != [] && seeds > 0 && c in e.candidates
    requires Reports(e, RunsOfAll(e.Arms(), tasks, seeds, outcomes), draws, x)
    ensures x.taskIds == tasks
    ensures c in x.delta && c in x.primary && e.incumbent in x.primary
    ensures x.delta[c].bootstrap.observedDelta == x.primary[c].successRate - x.primary[e.incumbent].successRate
    ensures x.primary[c].perSeedRates != [] && Mean(x.primary[c].perSeedRates) == x.primary[c].successRate
    ensures x.primary[e.incumbent].perSeedRates != []
    ensures Mean(x.primary[e.incumbent].perSeedRates) == x.primary[e.incumbent].successRate
  {
    var runs := RunsOfAll(e.Arms(), tasks, seeds, outcomes);
    assert e.incumbent == e.Arms()[0] && e.incumbent in e.Arms();
    assert c in e.Arms();
    ArmRunsOfAll(e.Arms(), tasks, seeds, outcomes, e.incumbent);
    ArmRunsOfAll(e.Arms(), tasks, seeds, outcomes, c);
    TasksFirstSeen(e.incumbent, tasks, seeds, outcomes);
    DeltaIsRateDifference(e.incumbent, c, tasks, seeds, outcomes, x.primary[e.incumbent], x.primary[c],
                          e.bootstrapIterations, x.perComparisonAlpha, e.bootstrapSeed, draws);
    SeedRatesRegroup(c, tasks, seeds, outcomes, x.primary[c]);
    SeedRatesRegroup(e.incumbent, tasks, seeds, outcomes, x.primary[e.incumbent]);
  }

  lemma ReportedProbabilities(e: Experiment, runs: seq<TaskRun>, draws: IndexStream, x: ExperimentResult)
    requires Reports(e, runs, draws, x)
    ensures Probabilities(RawPValues(x.delta)) && |RawPValues(x.delta)| == |x.delta|
  {
    assert RawPValues(x.delta).Keys == x.delta.Keys;
    forall c | c in x.delta ensures 0.0 <= x.delta[c].bootstrap.pValue <= 1.0 {
      assert Compares(e, x.primary, x.taskIds, x.perComparisonAlpha, draws, c, x.delta[c].bootstrap);
      BootstrapPValueRange(AlignedScores(x.primary[e.incumbent], x.taskIds).value, AlignedScores(x.primary[c], x.taskIds).value,
                           e.bootstrapIterations, x.perComparisonAlpha, e.bootstrapSeed, draws);
    }
  }

  /** What a report tests: each candidate at the family's alpha or its share of it,
      and p-values adjusted over the candidates, between the raw one and its
      multiple, in the order of the raw ones. */
  lemma ReportedTests(e: Experiment, runs: seq<TaskRun>, draws: IndexStream, x: ExperimentResult, c: string, d: string)
    requires Reports(e, runs, draws, x) && c in e.candidates && d in e.candidates
    ensures x.perComparisonAlpha == if e.multiplicity == NoCorrection then e.alpha else e.alpha / |e.candidates| as real
    ensures c in x.delta && d in x.delta
    ensures x.delta[c].bootstrap.pValue <= x.delta[c].adjustedPValue <= Scaled(|x.delta|, x.delta[c].bootstrap.pValue) <= 1.0
    ensures x.delta[c].bootstrap.pValue <= x.delta[d].bootstrap.pValue ==> x.delta[c].adjustedPValue <= x.delta[d].adjustedPValue
  {
    ReportedProbabilities(e, runs, draws, x);
    AdjustmentBounds(RawPValues(x.delta), AdjustedPValues(x.delta), c);
    if x.delta[c].bootstrap.pValue <= x.delta[d].bootstrap.pValue {
      AdjustmentMonotone(RawPValues(x.delta), AdjustedPValues(x.delta), c, d);
    }
  }
}
