/** Aggregating task runs: per-task means, per-seed rates and the comparison of
    a candidate with the incumbent. The main result is regrouping: on the
    balanced run sets the runner produces, a mean of group means is the mean
    over all runs, so the paired delta is the difference of success rates. */
module Results {
  import opened Wrappers
  import opened Sorting
  import opened RealSums
  import opened Statistics
  import opened Bootstrap
  import opened Holm

  datatype TaskRun = TaskRun(armId: string, taskId: string, seedIndex: nat, success: bool) {
    function Score(): real {
      if success then 1.0 else 0.0
    }
  }

  function TaskOf(run: TaskRun): string {
    run.taskId
  }

  function SeedOf(run: TaskRun): nat {
    run.seedIndex
  }

  function Scores(runs: seq<TaskRun>): (r: seq<real>)
    ensures |r| == |runs|
  {
    if runs == [] then [] else [runs[0].Score()] + Scores(runs[1..])
  }

  /** The scores of the runs filed under key `k`, in run order. */
  function ScoresBy<K(==)>(runs: seq<TaskRun>, key: TaskRun -> K, k: K): seq<real> {
    if runs == [] then []
    else if key(runs[0]) == k then [runs[0].Score()] + ScoresBy(runs[1..], key, k)
    else ScoresBy(runs[1..], key, k)
  }

  /** The distinct keys of the runs in first-seen order. */
  function FirstSeen<K(==)>(runs: seq<TaskRun>, key: TaskRun -> K): seq<K> {
    if runs == [] then []
    else
      var before := FirstSeen(runs[..|runs| - 1], key);
      var k := key(runs[|runs| - 1]);
      if k in before then before else before + [k]
  }

  /** The places of the successful runs. */
  function Won(runs: seq<TaskRun>): set<int> {
    set i | 0 <= i < |runs| && runs[i].success
  }

  lemma WonSnoc(runs: seq<TaskRun>, run: TaskRun)
    ensures |Won(runs + [run])| == |Won(runs)| + if run.success then 1 else 0
  {
    assert Won(runs + [run]) == Won(runs) + if run.success then {|runs|} else {};
  }

  lemma {:induction false} ScoresCountWins(runs: seq<TaskRun>)
    ensures Sum(Scores(runs)) == |Won(runs)| as real
  {
    if runs != [] {
      var init, run := runs[..|runs| - 1], runs[|runs| - 1];
      ScoresCountWins(init);
      ScoresSnoc(init, run);
      WonSnoc(init, run);
      assert runs == init + [run];
      SumAppend(Scores(init), [run.Score()]);
      assert [run.Score()][1..] == [];
    }
  }

  /** An arm's success rate is its number of successful runs over its number of
      runs. */
  lemma SuccessRateCounts(s: ArmSummary, runs: seq<TaskRun>)
    requires runs != [] && Summarizes(s, runs)
    ensures s.successRate == |Won(runs)| as real / |runs| as real
  {
    ScoresCountWins(runs);
  }

  lemma {:induction false} ScoresSnoc(runs: seq<TaskRun>, run: TaskRun)
    ensures Scores(runs + [run]) == Scores(runs) + [run.Score()]
  {
    if runs != [] {
      ScoresSnoc(runs[1..], run);
      assert (runs + [run])[1..] == runs[1..] + [run];
    }
  }

  // -- the aggregation loops ----------------------------------------------------

  lemma {:induction false} ScoresBySnoc<K>(runs: seq<TaskRun>, run: TaskRun, key: TaskRun -> K, k: K)
    ensures ScoresBy(runs + [run], key, k)
         == if key(run) == k then ScoresBy(runs, key, k) + [run.Score()] else ScoresBy(runs, key, k)
  {
    if runs != [] {
      ScoresBySnoc(runs[1..], run, key, k);
      assert (runs + [run])[1..] == runs[1..] + [run];
    }
  }

  lemma FirstSeenSnoc<K>(runs: seq<TaskRun>, run: TaskRun, key: TaskRun -> K)
    ensures FirstSeen(runs + [run], key)
         == if key(run) in FirstSeen(runs, key) then FirstSeen(runs, key) else FirstSeen(runs, key) + [key(run)]
  {
  }

  lemma {:induction false} FirstSeenKeys<K>(runs: seq<TaskRun>, key: TaskRun -> K)
    ensures Distinct(FirstSeen(runs, key))
    ensures forall k :: k in FirstSeen(runs, key) <==> ScoresBy(runs, key, k) != []
    ensures forall i :: 0 <= i < |runs| ==> key(runs[i]) in FirstSeen(runs, key)
  {
    if runs != [] {
      var init, last := runs[..|runs| - 1], runs[|runs| - 1];
      FirstSeenKeys(init, key);
      assert runs == init + [last];
      FirstSeenSnoc(init, last, key);
      forall k ensures k in FirstSeen(runs, key) <==> ScoresBy(runs, key, k) != [] {
        ScoresBySnoc(init, last, key, k);
      }
      forall i | 0 <= i < |runs| ensures key(runs[i]) in FirstSeen(runs, key) {
        assert i < |init| ==> runs[i] == init[i];
      }
    }
  }

  /** The scores-by-key loop shared by the task and the seed breakdown. */
  method GroupScores<K(==)>(runs: seq<TaskRun>, key: TaskRun -> K) returns (groups: map<K, seq<real>>)
    ensures forall k :: k in groups <==> k in FirstSeen(runs, key)
    ensures forall k :: k in groups ==> groups[k] == ScoresBy(runs, key, k)
  {
    groups := map[];
    for i := 0 to |runs|
      invariant forall k :: k in groups <==> k in FirstSeen(runs[..i], key)
      invariant forall k :: k in groups ==> groups[k] == ScoresBy(runs[..i], key, k)
    {
      var run := runs[i];
      var k := key(run);
      assert runs[..i + 1] == runs[..i] + [run];
      FirstSeenSnoc(runs[..i], run, key);
      FirstSeenKeys(runs[..i], key);
      forall k' ensures ScoresBy(runs[..i + 1], key, k')
                     == if k == k' then ScoresBy(runs[..i], key, k') + [run.Score()] else ScoresBy(runs[..i], key, k')
      {
        ScoresBySnoc(runs[..i], run, key, k');
      }
      assert (if k in groups then groups[k] else []) == ScoresBy(runs[..i], key, k);
      groups := groups[k := (if k in groups then groups[k] else []) + [run.Score()]];
    }
    assert runs[..|runs|] == runs;
  }

  datatype ArmSummary = ArmSummary(taskScores: map<string, real>, successRate: real, perSeedRates: seq<real>)

  predicate LeNat(x: nat, y: nat) {
    x <= y
  }

  function GroupMeans<K(==)>(runs: seq<TaskRun>, key: TaskRun -> K, ks: seq<K>): (r: seq<real>)
    requires forall k :: k in ks ==> ScoresBy(runs, key, k) != []
    ensures |r| == |ks|
  {
    if ks == [] then [] else [Mean(ScoresBy(runs, key, ks[0]))] + GroupMeans(runs, key, ks[1..])
  }

  lemma {:induction false} GroupMeansAt<K>(runs: seq<TaskRun>, key: TaskRun -> K, ks: seq<K>, i: nat)
    requires forall k :: k in ks ==> ScoresBy(runs, key, k) != []
    requires i < |ks|
    ensures GroupMeans(runs, key, ks)[i] == Mean(ScoresBy(runs, key, ks[i]))
  {
    if i > 0 {
      GroupMeansAt(runs, key, ks[1..], i - 1);
    }
  }

  lemma SortedSeeds(runs: seq<TaskRun>)
    ensures forall k :: k in Sort(FirstSeen(runs, SeedOf), LeNat) ==>
      k in FirstSeen(runs, SeedOf) && ScoresBy(runs, SeedOf, k) != []
  {
    FirstSeenKeys(runs, SeedOf);
    SortPermutes(FirstSeen(runs, SeedOf), LeNat);
    SameElements(Sort(FirstSeen(runs, SeedOf), LeNat), FirstSeen(runs, SeedOf));
  }

  /** What `build_arm_summary` reports about an arm's runs. */
  ghost predicate Summarizes(s: ArmSummary, runs: seq<TaskRun>)
    requires runs != []
  {
    FirstSeenKeys(runs, TaskOf);
    SortedSeeds(runs);
    && (forall t :: t in s.taskScores <==> t in FirstSeen(runs, TaskOf))
    && (forall t :: t in s.taskScores ==> s.taskScores[t] == Mean(ScoresBy(runs, TaskOf, t)))
    && s.successRate == Mean(Scores(runs))
    && s.perSeedRates == GroupMeans(runs, SeedOf, Sort(FirstSeen(runs, SeedOf), LeNat))
  }

  // -- regrouping ---------------------------------------------------------------

  function GroupSums<K(==)>(runs: seq<TaskRun>, key: TaskRun -> K, ks: seq<K>): real {
    if ks == [] then 0.0 else Sum(ScoresBy(runs, key, ks[0])) + GroupSums(runs, key, ks[1..])
  }

  lemma {:induction false} GroupSumsCons<K>(runs: seq<TaskRun>, key: TaskRun -> K, ks: seq<K>)
    requires runs != [] && Distinct(ks)
    ensures GroupSums(runs, key, ks)
         == GroupSums(runs[1..], key, ks) + if key(runs[0]) in ks then runs[0].Score() else 0.0
  {
    if ks != [] {
      GroupSumsCons(runs, key, ks[1..]);
      assert key(runs[0]) in ks <==> key(runs[0]) == ks[0] || key(runs[0]) in ks[1..];
    }
  }

  lemma {:induction false} GroupSumsEmpty<K>(key: TaskRun -> K, ks: seq<K>)
    ensures GroupSums([], key, ks) == 0.0
  {
    if ks != [] {
      GroupSumsEmpty(key, ks[1..]);
    }
  }

  /** Summing group by group is summing run by run. */
  lemma {:induction false} GroupSumsTotal<K>(runs: seq<TaskRun>, key: TaskRun -> K, ks: seq<K>)
    requires Distinct(ks) && forall i :: 0 <= i < |runs| ==> key(runs[i]) in ks
    ensures GroupSums(runs, key, ks) == Sum(Scores(runs))
  {
    if runs == [] {
      GroupSumsEmpty(key, ks);
    } else {
      GroupSumsCons(runs, key, ks);
      GroupSumsTotal(runs[1..], key, ks);
    }
  }

  function GroupCount<K(==)>(runs: seq<TaskRun>, key: TaskRun -> K, ks: seq<K>): nat {
    if ks == [] then 0 else |ScoresBy(runs, key, ks[0])| + GroupCount(runs, key, ks[1..])
  }

  lemma {:induction false} GroupCountCons<K>(runs: seq<TaskRun>, key: TaskRun -> K, ks: seq<K>)
    requires runs != [] && Distinct(ks)
    ensures GroupCount(runs, key, ks)
         == GroupCount(runs[1..], key, ks) + if key(runs[0]) in ks then 1 else 0
  {
    if ks != [] {
      GroupCountCons(runs, key, ks[1..]);
      assert key(runs[0]) in ks <==> key(runs[0]) == ks[0] || key(runs[0]) in ks[1..];
    }
  }

  lemma {:induction false} GroupCountTotal<K>(runs: seq<TaskRun>, key: TaskRun -> K, ks: seq<K>)
    requires Distinct(ks) && forall i :: 0 <= i < |runs| ==> key(runs[i]) in ks
    ensures GroupCount(runs, key, ks) == |runs|
  {
    if runs == [] {
      GroupCountEmpty(key, ks);
    } else {
      GroupCountCons(runs, key, ks);
      GroupCountTotal(runs[1..], key, ks);
    }
  }

  lemma {:induction false} GroupCountEmpty<K>(key: TaskRun -> K, ks: seq<K>)
    ensures GroupCount([], key, ks) == 0
  {
    if ks != [] {
      GroupCountEmpty(key, ks[1..]);
    }
  }

  ghost predicate Balanced<K>(runs: seq<TaskRun>, key: TaskRun -> K, ks: seq<K>, size: nat) {
    forall k :: k in ks ==> |ScoresBy(runs, key, k)| == size
  }

  lemma {:induction false} BalancedSums<K>(runs: seq<TaskRun>, key: TaskRun -> K, ks: seq<K>, size: nat)
    requires size > 0 && Balanced(runs, key, ks, size)
    ensures forall k :: k in ks ==> ScoresBy(runs, key, k) != []
    ensures Times(Sum(GroupMeans(runs, key, ks)), size) == GroupSums(runs, key, ks)
    ensures GroupCount(runs, key, ks) == Product(|ks|, size)
  {
    if ks != [] {
      BalancedSums(runs, key, ks[1..], size);
      var group := ScoresBy(runs, key, ks[0]);
      MeanTimes(group, size);
      TimesAdds(Mean(group), Sum(GroupMeans(runs, key, ks[1..])), size);
    }
  }

  function Times(x: real, n: nat): real {
    x * n as real
  }

  function Product(m: nat, n: nat): nat {
    if m == 0 then 0 else n + Product(m - 1, n)
  }

  lemma {:induction false} ProductIs(m: nat, n: nat)
    ensures Product(m, n) == m * n
  {
    if m > 0 {
      ProductIs(m - 1, n);
    }
  }

  lemma MeanTimes(xs: seq<real>, size: nat)
    requires xs != [] && |xs| == size
    ensures Times(Mean(xs), size) == Sum(xs)
  {
  }

  lemma TimesAdds(x: real, y: real, n: nat)
    ensures Times(x + y, n) == Times(x, n) + Times(y, n)
  {
  }

  /** When every group has the same size, the mean of the group means is the
      mean over all runs. */
  lemma MeanOfMeans<K>(runs: seq<TaskRun>, key: TaskRun -> K, ks: seq<K>, size: nat)
    requires ks != [] && Distinct(ks) && size > 0 && Balanced(runs, key, ks, size)
    requires forall i :: 0 <= i < |runs| ==> key(runs[i]) in ks
    ensures forall k :: k in ks ==> ScoresBy(runs, key, k) != []
    ensures runs != [] && Mean(GroupMeans(runs, key, ks)) == Mean(Scores(runs))
  {
    BalancedSums(runs, key, ks, size);
    GroupSumsTotal(runs, key, ks);
    GroupCountTotal(runs, key, ks);
    Quotients(Sum(GroupMeans(runs, key, ks)), |ks|, size, Sum(Scores(runs)), |runs|);
  }

  lemma Quotients(means: real, groups: nat, size: nat, total: real, count: nat)
    requires groups > 0 && size > 0 && Times(means, size) == total && count == Product(groups, size)
    ensures count > 0 && means / groups as real == total / count as real
  {
    ProductIs(groups, size);
    var g, s := groups as real, size as real;
    assert count as real == g * s;
    assert (means / g) * (g * s) == means * s;
  }
}
