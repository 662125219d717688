/** Clustering failed traces: classification by signal, and a report that does
    not depend on the order the traces arrive in. */
module Discovery {
  import opened Wrappers
  import opened Sorting
  import opened Ordering
  import opened Selecting

  datatype DetailValue = Text(text: string) | Integer(n: int) | Number(x: real) | Flag(flag: bool) | Absent

  datatype TraceEventSignal = TraceEventSignal(eventType: string, details: map<string, DetailValue>, bodyResolved: bool)

  datatype DiscoveredTrace = DiscoveredTrace(traceId: string, taskId: string, events: seq<TraceEventSignal>)

  datatype FailureCategory = Localization | TestMisunderstanding | DependencyMisuse {
    function Name(): string {
      match this
      case Localization => "localization"
      case TestMisunderstanding => "test_misunderstanding"
      case DependencyMisuse => "dependency_misuse"
    }
  }

  function CategoryNamed(name: string): Option<FailureCategory> {
    if name == "localization" then Some(Localization)
    else if name == "test_misunderstanding" then Some(TestMisunderstanding)
    else if name == "dependency_misuse" then Some(DependencyMisuse)
    else None
  }

  /** The three names are read, and no other. */
  lemma NamesRead(name: string)
    ensures CategoryNamed(name).Some? <==> name in {"localization", "test_misunderstanding", "dependency_misuse"}
    ensures CategoryNamed(name).Some? ==> CategoryNamed(name).value.Name() == name
    ensures forall c: FailureCategory :: CategoryNamed(c.Name()) == Some(c)
    ensures Localization.Name() == "localization" && TestMisunderstanding.Name() == "test_misunderstanding"
  {
    forall c: FailureCategory ensures CategoryNamed(c.Name()) == Some(c) {
      assert "localization"[0] == 'l' && "test_misunderstanding"[0] == 't' && "dependency_misuse"[0] == 'd';
    }
  }

  type Taxonomy = map<string, FailureCategory>

  predicate Known(taxonomy: map<string, string>, task: string) {
    task in taxonomy ==> CategoryNamed(taxonomy[task]).Some?
  }

  predicate Resolves(resolved: Taxonomy, taxonomy: map<string, string>, task: string) {
    (task in resolved <==> task in taxonomy) && (task in taxonomy ==> CategoryNamed(taxonomy[task]) == Some(resolved[task]))
  }

  /** Refuses a mapping with any unknown category, naming one. */
  method ValidateTaxonomy(taxonomy: map<string, string>) returns (r: Result<Taxonomy, (string, string)>)
    ensures r.Ok? <==> forall task: string :: Known(taxonomy, task)
    ensures r.Ok? ==> forall task: string :: Resolves(r.value, taxonomy, task)
    ensures r.Ok? ==> r.value.Keys == taxonomy.Keys
    ensures r.Ok? ==> forall task: string :: task in r.value ==> r.value[task].Name() == taxonomy[task]
    ensures r.Err? ==> r.error.1 !in {"localization", "test_misunderstanding", "dependency_misuse"}
    ensures r.Err? ==> r.error.0 in taxonomy && taxonomy[r.error.0] == r.error.1 && !Known(taxonomy, r.error.0)
  {
    var resolved: Taxonomy := map[];
    var left := taxonomy.Keys;
    while left != {}
      invariant left <= taxonomy.Keys
      invariant forall task: string :: if task in left then task !in resolved else Resolves(resolved, taxonomy, task)
      decreases |left|
    {
      var task :| task in left;
      var category := CategoryNamed(taxonomy[task]);
      if category.None? {
        assert !Known(taxonomy, task);
        NamesRead(taxonomy[task]);
        return Err((task, taxonomy[task]));
      }
      resolved := resolved[task := category.value];
      left := left - {task};
    }
    forall task: string ensures Known(taxonomy, task) {
      assert Resolves(resolved, taxonomy, task);
    }
    forall task: string | task in taxonomy ensures task in resolved && resolved[task].Name() == taxonomy[task] {
      assert Resolves(resolved, taxonomy, task);
      NamesRead(taxonomy[task]);
    }
    forall task: string | task in resolved ensures task in taxonomy {
      assert Resolves(resolved, taxonomy, task);
    }
    return Ok(resolved);
  }

  // -- reading one trace ------------------------------------------------------------

  function Detail(event: TraceEventSignal, name: string): DetailValue {
    if name in event.details then event.details[name] else Absent
  }

  function LastEvent(events: seq<TraceEventSignal>, eventType: string): Option<TraceEventSignal> {
    if events == [] then None
    else if events[|events| - 1].eventType == eventType then Some(events[|events| - 1])
    else LastEvent(events[..|events| - 1], eventType)
  }

  function FlagOf(value: DetailValue): Option<bool> {
    if value.Flag? then Some(value.flag) else None
  }

  /** The last claimed outcome; only without a claim, how the trace ended. */
  function OutcomeOf(trace: DiscoveredTrace): Option<bool> {
    var claim := LastEvent(trace.events, "outcome.claimed");
    if claim.Some? then FlagOf(Detail(claim.value, "claimed_success"))
    else
      var ended := LastEvent(trace.events, "trace.ended");
      if ended.Some? then FlagOf(Detail(ended.value, "ok")) else None
  }

  predicate Failed(trace: DiscoveredTrace) {
    OutcomeOf(trace) == Some(false)
  }

  predicate Calls(event: TraceEventSignal, name: string, ok: bool) {
    event.eventType == "tool.completed" && Detail(event, "ok") == Flag(ok) && Detail(event, "name") == Text(name)
  }

  predicate Called(events: seq<TraceEventSignal>, name: string, ok: bool) {
    exists i :: 0 <= i < |events| && Calls(events[i], name, ok)
  }

  /** The names called with the given result, in call order. */
  function CalledNames(events: seq<TraceEventSignal>, ok: bool): seq<string> {
    if events == [] then []
    else
      var e := events[|events| - 1];
      CalledNames(events[..|events| - 1], ok)
      + (if e.eventType == "tool.completed" && Detail(e, "ok") == Flag(ok) && Detail(e, "name").Text?
         then [Detail(e, "name").text] else [])
  }

  lemma {:induction false} CalledNamesAre(events: seq<TraceEventSignal>, ok: bool)
    ensures forall name :: name in CalledNames(events, ok) <==> Called(events, name, ok)
  {
    if events != [] {
      var init, e := events[..|events| - 1], events[|events| - 1];
      CalledNamesAre(init, ok);
      assert events == init + [e];
      forall name ensures name in CalledNames(events, ok) <==> Called(events, name, ok) {
        assert name in CalledNames(init, ok) <==> Called(init, name, ok);
        CalledSnoc(init, e, name, ok);
      }
    }
  }

  lemma CalledSnoc(events: seq<TraceEventSignal>, e: TraceEventSignal, name: string, ok: bool)
    ensures Called(events + [e], name, ok) <==> Called(events, name, ok) || Calls(e, name, ok)
  {
    var all := events + [e];
    if Called(events, name, ok) {
      var i :| 0 <= i < |events| && Calls(events[i], name, ok);
      assert all[i] == events[i];
    }
    assert all[|events|] == e;
  }

  method ToolNames(trace: DiscoveredTrace, ok: bool) returns (names: set<string>)
    ensures forall name :: name in names <==> Called(trace.events, name, ok)
  {
    names := {};
    for i := 0 to |trace.events|
      invariant forall name :: name in names <==> Called(trace.events[..i], name, ok)
    {
      var e := trace.events[i];
      assert trace.events[..i + 1] == trace.events[..i] + [e];
      forall name ensures Called(trace.events[..i + 1], name, ok) <==> Called(trace.events[..i], name, ok) || Calls(e, name, ok) {
        CalledSnoc(trace.events[..i], e, name, ok);
      }
      if e.eventType != "tool.completed" {
        continue;
      }
      var name := Detail(e, "name");
      if Detail(e, "ok") == Flag(ok) && name.Text? {
        names := names + {name.text};
      }
    }
  }

  function JoinNames(names: seq<string>): string {
    if names == [] then ""
    else if |names| == 1 then names[0]
    else names[0] + "," + JoinNames(names[1..])
  }

  /** The failing tool names, each once and sorted, joined by commas. */
  function FailureSignatureOf(trace: DiscoveredTrace): string {
    var failed := Sort(Unique(CalledNames(trace.events, false)), LeString);
    if failed == [] then "no_failed_tool" else JoinNames(failed)
  }

  /** A signature depends only on which tools failed: not on how often, in what
      order or between what other events. */
  lemma SignatureIsOfTheSet(a: DiscoveredTrace, b: DiscoveredTrace)
    requires forall name :: Called(a.events, name, false) <==> Called(b.events, name, false)
    ensures FailureSignatureOf(a) == FailureSignatureOf(b)
  {
    LeStringIsOrder();
    var u, v := Unique(CalledNames(a.events, false)), Unique(CalledNames(b.events, false));
    CalledNamesAre(a.events, false);
    CalledNamesAre(b.events, false);
    UniqueIs(CalledNames(a.events, false));
    UniqueIs(CalledNames(b.events, false));
    DistinctSameElements(u, v);
    SortSorted(u, LeString);
    SortSorted(v, LeString);
    SortPermutes(u, LeString);
    SortPermutes(v, LeString);
    SortedUnique(Sort(u, LeString), Sort(v, LeString), LeString);
  }

  predicate StartsWithRead(name: string) {
    |name| >= 4 && name[..4] == "read"
  }

  predicate ReadSomething(events: seq<TraceEventSignal>) {
    exists i :: 0 <= i < |events| && IsRead(events[i])
  }

  predicate IsRead(e: TraceEventSignal) {
    && e.eventType == "tool.completed" && Detail(e, "ok").Flag?
    && Detail(e, "name").Text? && StartsWithRead(Detail(e, "name").text)
  }

  /** The rules in the order they are tried; the test tool is tried before the
      shell, and the fourth test can no longer be reached. */
  function ClassifyFailure(trace: DiscoveredTrace, taxonomy: Taxonomy): Option<FailureCategory> {
    if trace.taskId in taxonomy then Some(taxonomy[trace.taskId])
    else if Called(trace.events, "run_tests", false) || Called(trace.events, "test", false) then Some(TestMisunderstanding)
    else if Called(trace.events, "shell", false) then Some(DependencyMisuse)
    else if Called(trace.events, "run_tests", false) then Some(TestMisunderstanding)
    else if Called(trace.events, "edit", false) then Some(Localization)
    else if !Called(trace.events, "edit", true) && ReadSomething(trace.events) then Some(Localization)
    else None
  }

  /** The documented order would put a failed shell call first. It is what the
      code does exactly when no test tool failed too. */
  lemma ShellFirstIff(trace: DiscoveredTrace, taxonomy: Taxonomy)
    requires trace.taskId !in taxonomy && Called(trace.events, "shell", false)
    ensures ClassifyFailure(trace, taxonomy) == Some(DependencyMisuse)
       <==> !Called(trace.events, "run_tests", false) && !Called(trace.events, "test", false)
  {
  }

  function Failing(name: string): TraceEventSignal {
    TraceEventSignal("tool.completed", map["name" := Text(name), "ok" := Flag(false)], true)
  }

  lemma ShellIsNotFirst()
    ensures var trace := DiscoveredTrace("t", "task", [Failing("shell"), Failing("test")]);
            Called(trace.events, "shell", false) && ClassifyFailure(trace, map[]) == Some(TestMisunderstanding)
  {
    var events := [Failing("shell"), Failing("test")];
    assert Calls(events[0], "shell", false);
    assert Calls(events[1], "test", false);
  }

  // -- the order of traces and of clusters -------------------------------------------------

  predicate LePair(a: (string, string), b: (string, string)) {
    if a.0 == b.0 then LeString(a.1, b.1) else LeString(a.0, b.0)
  }

  lemma LePairIsOrder()
    ensures IsTotal(LePair) && IsTransitive(LePair) && IsAntisymmetric(LePair)
  {
    LeStringIsOrder();
    forall a: (string, string), b: (string, string), c: (string, string) | LePair(a, b) && LePair(b, c)
      ensures LePair(a, c)
    {
      if a.0 != b.0 && b.0 != c.0 {
        LeStringTransitive(a.0, b.0, c.0);
        if a.0 == c.0 {
          LeStringAntisymmetric(a.0, b.0);
        }
      } else if a.0 == b.0 == c.0 {
        LeStringTransitive(a.1, b.1, c.1);
      }
    }
    forall a: (string, string), b: (string, string) ensures LePair(a, b) || LePair(b, a) {
      LeStringTotal(a.0, b.0);
      LeStringTotal(a.1, b.1);
    }
    forall a: (string, string), b: (string, string) | LePair(a, b) && LePair(b, a) ensures a == b {
      if a.0 != b.0 {
        LeStringAntisymmetric(a.0, b.0);
      } else {
        LeStringAntisymmetric(a.1, b.1);
      }
    }
  }

  function Identity(t: DiscoveredTrace): (string, string) {
    (t.taskId, t.traceId)
  }

  predicate LeTrace(t: DiscoveredTrace, u: DiscoveredTrace) {
    LePair(Identity(t), Identity(u))
  }

  datatype ClusterKey = ClusterKey(category: Option<FailureCategory>, signature: string)

  function CategoryOrEmpty(category: Option<FailureCategory>): string {
    if category.Some? then category.value.Name() else ""
  }

  function SortName(k: ClusterKey): (string, string) {
    (CategoryOrEmpty(k.category), k.signature)
  }

  predicate LeKey(k: ClusterKey, l: ClusterKey) {
    LePair(SortName(k), SortName(l))
  }

  lemma SortNameInjective(k: ClusterKey, l: ClusterKey)
    requires SortName(k) == SortName(l)
    ensures k == l
  {
  }

  lemma LeTraceIsOrder()
    ensures IsTotal(LeTrace) && IsTransitive(LeTrace)
  {
    LePairIsOrder();
    forall t: DiscoveredTrace, u: DiscoveredTrace ensures LeTrace(t, u) || LeTrace(u, t) {
      assert LePair(Identity(t), Identity(u)) || LePair(Identity(u), Identity(t));
    }
    forall t: DiscoveredTrace, u: DiscoveredTrace, v: DiscoveredTrace | LeTrace(t, u) && LeTrace(u, v)
      ensures LeTrace(t, v)
    {
      assert LePair(Identity(t), Identity(u)) && LePair(Identity(u), Identity(v));
    }
  }

  lemma LeKeyIsOrder()
    ensures IsTotal(LeKey) && IsTransitive(LeKey) && IsAntisymmetric(LeKey)
  {
    LePairIsOrder();
    forall k: ClusterKey, l: ClusterKey ensures LeKey(k, l) || LeKey(l, k) {
      assert LePair(SortName(k), SortName(l)) || LePair(SortName(l), SortName(k));
    }
    forall k: ClusterKey, l: ClusterKey, m: ClusterKey | LeKey(k, l) && LeKey(l, m) ensures LeKey(k, m) {
      assert LePair(SortName(k), SortName(l)) && LePair(SortName(l), SortName(m));
    }
    forall k: ClusterKey, l: ClusterKey | LeKey(k, l) && LeKey(l, k) ensures k == l {
      assert SortName(k) == SortName(l);
      SortNameInjective(k, l);
    }
  }

  // -- the report --------------------------------------------------------------------------

  datatype Cluster = Cluster(key: ClusterKey, traceIds: seq<string>, representatives: seq<string>) {
    function Count(): nat {
      |traceIds|
    }
  }

  datatype Report = Report(tracesScanned: nat, unresolvedEvents: nat, clusters: seq<Cluster>)

  function KeyOf(t: DiscoveredTrace, taxonomy: Taxonomy): ClusterKey {
    ClusterKey(ClassifyFailure(t, taxonomy), FailureSignatureOf(t))
  }

  function Keying(taxonomy: Taxonomy): DiscoveredTrace -> ClusterKey {
    (t: DiscoveredTrace) => KeyOf(t, taxonomy)
  }

  function InCluster(taxonomy: Taxonomy, k: ClusterKey): DiscoveredTrace -> bool {
    (t: DiscoveredTrace) => Failed(t) && KeyOf(t, taxonomy) == k
  }

  function TraceId(t: DiscoveredTrace): string {
    t.traceId
  }

  predicate Unresolved(e: TraceEventSignal) {
    !e.bodyResolved
  }

  function UnresolvedIn(t: DiscoveredTrace): nat {
    |Selected(t.events, Unresolved, (e: TraceEventSignal) => e)|
  }

  /** The ids of the failed traces with key `k`, in the given order. */
  function Members(ts: seq<DiscoveredTrace>, taxonomy: Taxonomy, k: ClusterKey): seq<string> {
    Selected(ts, InCluster(taxonomy, k), TraceId)
  }

  /** The keys of the failed traces in the order they are first met. */
  function Keys(ts: seq<DiscoveredTrace>, taxonomy: Taxonomy): seq<ClusterKey> {
    Unique(Selected(ts, Failed, Keying(taxonomy)))
  }

  /** `members[:n]`: a negative bound counts from the end. */
  function Leading(members: seq<string>, n: int): seq<string> {
    if n >= |members| then members
    else if n >= 0 then members[..n]
    else if |members| + n >= 0 then members[..|members| + n]
    else []
  }

  function ClusterAt(ts: seq<DiscoveredTrace>, taxonomy: Taxonomy, k: ClusterKey, representatives: int): Cluster {
    Cluster(k, Members(ts, taxonomy, k), Leading(Members(ts, taxonomy, k), representatives))
  }

  function ClustersFor(keys: seq<ClusterKey>, ts: seq<DiscoveredTrace>, taxonomy: Taxonomy, representatives: int): (r: seq<Cluster>)
    ensures |r| == |keys|
  {
    if keys == [] then []
    else ClustersFor(keys[..|keys| - 1], ts, taxonomy, representatives)
         + [ClusterAt(ts, taxonomy, keys[|keys| - 1], representatives)]
  }

  function ReportOf(traces: seq<DiscoveredTrace>, taxonomy: Taxonomy, representatives: int): Report {
    var ordered := Sort(traces, LeTrace);
    Report(|traces|, Total(traces, UnresolvedIn),
           ClustersFor(Sort(Keys(ordered, taxonomy), LeKey), ordered, taxonomy, representatives))
  }

  ghost predicate Grouped(grouped: map<ClusterKey, seq<string>>, ts: seq<DiscoveredTrace>, taxonomy: Taxonomy) {
    forall k: ClusterKey :: MembersAt(grouped, k) == Members(ts, taxonomy, k)
  }

  function MembersAt(grouped: map<ClusterKey, seq<string>>, k: ClusterKey): seq<string> {
    if k in grouped then grouped[k] else []
  }

  lemma GroupStep(grouped: map<ClusterKey, seq<string>>, ts: seq<DiscoveredTrace>, t: DiscoveredTrace, taxonomy: Taxonomy)
    requires Grouped(grouped, ts, taxonomy)
    ensures var k := KeyOf(t, taxonomy);
            if Failed(t) then Grouped(grouped[k := MembersAt(grouped, k) + [t.traceId]], ts + [t], taxonomy)
            else Grouped(grouped, ts + [t], taxonomy)
  {
    var k := KeyOf(t, taxonomy);
    var after := if Failed(t) then grouped[k := MembersAt(grouped, k) + [t.traceId]] else grouped;
    forall l: ClusterKey ensures MembersAt(after, l) == Members(ts + [t], taxonomy, l) {
      SelectedSnoc(ts, t, InCluster(taxonomy, l), TraceId);
      assert MembersAt(grouped, l) == Members(ts, taxonomy, l);
    }
  }

  lemma KeysStep(ts: seq<DiscoveredTrace>, t: DiscoveredTrace, taxonomy: Taxonomy)
    ensures Keys(ts + [t], taxonomy) ==
            if Failed(t) && KeyOf(t, taxonomy) !in Keys(ts, taxonomy) then Keys(ts, taxonomy) + [KeyOf(t, taxonomy)]
            else Keys(ts, taxonomy)
  {
    SelectedSnoc(ts, t, Failed, Keying(taxonomy));
    if Failed(t) {
      UniqueSnoc(Selected(ts, Failed, Keying(taxonomy)), KeyOf(t, taxonomy));
    } else {
      assert Selected(ts, Failed, Keying(taxonomy)) + [] == Selected(ts, Failed, Keying(taxonomy));
    }
  }

  lemma TakeSnoc<T>(xs: seq<T>, i: nat)
    requires i < |xs|
    ensures xs[..i + 1] == xs[..i] + [xs[i]]
  {
  }

  /** `keys` are the dictionary's keys in insertion order. */
  method GroupFailures(ordered: seq<DiscoveredTrace>, taxonomy: Taxonomy)
    returns (scanned: nat, unresolved: nat, keys: seq<ClusterKey>, grouped: map<ClusterKey, seq<string>>)
    ensures scanned == |ordered| && unresolved == Total(ordered, UnresolvedIn)
    ensures keys == Keys(ordered, taxonomy) && Grouped(grouped, ordered, taxonomy)
  {
    scanned, unresolved, keys, grouped := 0, 0, [], map[];
    for i := 0 to |ordered|
      invariant scanned == i && unresolved == Total(ordered[..i], UnresolvedIn)
      invariant keys == Keys(ordered[..i], taxonomy)
      invariant Grouped(grouped, ordered[..i], taxonomy)
    {
      var trace := ordered[i];
      TakeSnoc(ordered, i);
      TotalSnoc(ordered[..i], trace, UnresolvedIn);
      GroupStep(grouped, ordered[..i], trace, taxonomy);
      KeysStep(ordered[..i], trace, taxonomy);
      scanned := scanned + 1;
      unresolved := unresolved + UnresolvedIn(trace);
      if OutcomeOf(trace) != Some(false) {
        continue;
      }
      var key := KeyOf(trace, taxonomy);
      if key !in keys {
        keys := keys + [key];
      }
      grouped := grouped[key := MembersAt(grouped, key) + [trace.traceId]];
    }
    assert ordered[..|ordered|] == ordered;
  }

  lemma ClustersSnoc(keys: seq<ClusterKey>, ts: seq<DiscoveredTrace>, taxonomy: Taxonomy, representatives: int, i: nat)
    requires i < |keys|
    ensures ClustersFor(keys[..i + 1], ts, taxonomy, representatives)
         == ClustersFor(keys[..i], ts, taxonomy, representatives) + [ClusterAt(ts, taxonomy, keys[i], representatives)]
  {
    assert keys[..i + 1][..i] == keys[..i];
  }

  method BuildClusters(keys: seq<ClusterKey>, grouped: map<ClusterKey, seq<string>>, representatives: int,
                       ghost ordered: seq<DiscoveredTrace>, ghost taxonomy: Taxonomy) returns (clusters: seq<Cluster>)
    requires Grouped(grouped, ordered, taxonomy)
    ensures clusters == ClustersFor(keys, ordered, taxonomy, representatives)
  {
    clusters := [];
    for i := 0 to |keys|
      invariant clusters == ClustersFor(keys[..i], ordered, taxonomy, representatives)
    {
      ClustersSnoc(keys, ordered, taxonomy, representatives, i);
      var members := MembersAt(grouped, keys[i]);
      clusters := clusters + [Cluster(keys[i], members, Leading(members, representatives))];
    }
    assert keys[..|keys|] == keys;
  }

  ghost predicate ReportFor(report: Report, traces: seq<DiscoveredTrace>, taxonomy: map<string, string>, representatives: int) {
    exists resolved: Taxonomy ::
      (forall task: string :: Resolves(resolved, taxonomy, task)) && report == ReportOf(traces, resolved, representatives)
  }

  method ClusterFailures(traces: seq<DiscoveredTrace>, taxonomy: map<string, string>, representatives: int)
    returns (r: Result<Report, (string, string)>)
    ensures r.Ok? <==> forall task: string :: Known(taxonomy, task)
    ensures r.Ok? ==> ReportFor(r.value, traces, taxonomy, representatives)
  {
    var resolved :- ValidateTaxonomy(taxonomy);
    var ordered := Sort(traces, LeTrace);
    SortPermutes(traces, LeTrace);
    TotalPermutes(ordered, traces, UnresolvedIn);
    var scanned, unresolved, keys, grouped := GroupFailures(ordered, resolved);
    var clusters := BuildClusters(Sort(keys, LeKey), grouped, representatives, ordered, resolved);
    var report := Report(scanned, unresolved, clusters);
    assert report == ReportOf(traces, resolved, representatives);
    return Ok(report);
  }

  // -- the order of the input does not matter ---------------------------------------------------

  function Seconds(pairs: seq<(string, string)>): seq<string> {
    if pairs == [] then [] else Seconds(pairs[..|pairs| - 1]) + [pairs[|pairs| - 1].1]
  }

  lemma SecondsSnoc(pairs: seq<(string, string)>, pair: (string, string))
    ensures Seconds(pairs + [pair]) == Seconds(pairs) + [pair.1]
  {
  }

  lemma {:induction false} MembersAreSeconds(ts: seq<DiscoveredTrace>, taxonomy: Taxonomy, k: ClusterKey)
    ensures Members(ts, taxonomy, k) == Seconds(Selected(ts, InCluster(taxonomy, k), Identity))
  {
    if ts != [] {
      var init, last := ts[..|ts| - 1], ts[|ts| - 1];
      MembersAreSeconds(init, taxonomy, k);
      assert ts == init + [last];
      SelectedSnoc(init, last, InCluster(taxonomy, k), Identity);
      SelectedSnoc(init, last, InCluster(taxonomy, k), TraceId);
      SecondsSnoc(Selected(init, InCluster(taxonomy, k), Identity), Identity(last));
    }
  }

  lemma {:induction false} SelectedSorted(ts: seq<DiscoveredTrace>, p: DiscoveredTrace -> bool)
    requires SortedBy(ts, LeTrace)
    ensures SortedBy(Selected(ts, p, Identity), LePair)
  {
    if ts != [] {
      var init, last := ts[..|ts| - 1], ts[|ts| - 1];
      SelectedSorted(init, p);
      var pairs := Selected(init, p, Identity);
      forall i | 0 <= i < |pairs| ensures LePair(pairs[i], Identity(last)) {
        SelectedFrom(init, p, Identity, pairs[i]);
        var t :| t in init && p(t) && Identity(t) == pairs[i];
        var j :| 0 <= j < |init| && init[j] == t;
        assert LeTrace(ts[j], ts[|ts| - 1]);
      }
    }
  }

  lemma MembersOrderFree(a: seq<DiscoveredTrace>, b: seq<DiscoveredTrace>, taxonomy: Taxonomy, k: ClusterKey)
    requires SortedBy(a, LeTrace) && SortedBy(b, LeTrace) && multiset(a) == multiset(b)
    ensures Members(a, taxonomy, k) == Members(b, taxonomy, k)
  {
    LePairIsOrder();
    var p := InCluster(taxonomy, k);
    SelectedSorted(a, p);
    SelectedSorted(b, p);
    SelectedPermutes(a, b, p, Identity);
    SortedUnique(Selected(a, p, Identity), Selected(b, p, Identity), LePair);
    MembersAreSeconds(a, taxonomy, k);
    MembersAreSeconds(b, taxonomy, k);
  }

  lemma KeysOrderFree(a: seq<DiscoveredTrace>, b: seq<DiscoveredTrace>, taxonomy: Taxonomy)
    requires multiset(a) == multiset(b)
    ensures Sort(Keys(a, taxonomy), LeKey) == Sort(Keys(b, taxonomy), LeKey)
  {
    LeKeyIsOrder();
    var x, y := Selected(a, Failed, Keying(taxonomy)), Selected(b, Failed, Keying(taxonomy));
    SelectedPermutes(a, b, Failed, Keying(taxonomy));
    SameElements(x, y);
    UniqueIs(x);
    UniqueIs(y);
    DistinctSameElements(Unique(x), Unique(y));
    SortSorted(Unique(x), LeKey);
    SortSorted(Unique(y), LeKey);
    SortPermutes(Unique(x), LeKey);
    SortPermutes(Unique(y), LeKey);
    SortedUnique(Sort(Unique(x), LeKey), Sort(Unique(y), LeKey), LeKey);
  }

  lemma {:induction false} ClustersOrderFree(keys: seq<ClusterKey>, a: seq<DiscoveredTrace>, b: seq<DiscoveredTrace>,
                                             taxonomy: Taxonomy, representatives: int)
    requires SortedBy(a, LeTrace) && SortedBy(b, LeTrace) && multiset(a) == multiset(b)
    ensures ClustersFor(keys, a, taxonomy, representatives) == ClustersFor(keys, b, taxonomy, representatives)
  {
    if keys != [] {
      ClustersOrderFree(keys[..|keys| - 1], a, b, taxonomy, representatives);
      MembersOrderFree(a, b, taxonomy, keys[|keys| - 1]);
    }
  }

  /** The same traces in any order yield the same report, duplicated task and
      trace ids included. */
  lemma ReportOrderFree(traces: seq<DiscoveredTrace>, shuffled: seq<DiscoveredTrace>, taxonomy: Taxonomy, representatives: int)
    requires multiset(traces) == multiset(shuffled)
    ensures ReportOf(traces, taxonomy, representatives) == ReportOf(shuffled, taxonomy, representatives)
  {
    LeTraceIsOrder();
    var a, b := Sort(traces, LeTrace), Sort(shuffled, LeTrace);
    SortSorted(traces, LeTrace);
    SortSorted(shuffled, LeTrace);
    SortPermutes(traces, LeTrace);
    SortPermutes(shuffled, LeTrace);
    SameElements(traces, shuffled);
    TotalPermutes(traces, shuffled, UnresolvedIn);
    KeysOrderFree(a, b, taxonomy);
    ClustersOrderFree(Sort(Keys(a, taxonomy), LeKey), a, b, taxonomy, representatives);
  }

  // -- the clusters partition the failures ------------------------------------------------------

  lemma {:induction false} ClustersAt(keys: seq<ClusterKey>, ts: seq<DiscoveredTrace>, taxonomy: Taxonomy, representatives: int, i: nat)
    requires i < |keys|
    ensures ClustersFor(keys, ts, taxonomy, representatives)[i] == ClusterAt(ts, taxonomy, keys[i], representatives)
  {
    if i < |keys| - 1 {
      ClustersAt(keys[..|keys| - 1], ts, taxonomy, representatives, i);
    }
  }

  lemma SortedKeys(ts: seq<DiscoveredTrace>, taxonomy: Taxonomy)
    ensures var keys := Sort(Keys(ts, taxonomy), LeKey);
            && Distinct(keys) && SortedBy(keys, LeKey)
            && forall k :: k in keys <==> k in Selected(ts, Failed, Keying(taxonomy))
  {
    LeKeyIsOrder();
    var found := Selected(ts, Failed, Keying(taxonomy));
    UniqueIs(found);
    SortPermutes(Unique(found), LeKey);
    SortSorted(Unique(found), LeKey);
    SameElements(Sort(Unique(found), LeKey), Unique(found));
    DistinctRearranged(Unique(found), Sort(Unique(found), LeKey));
  }

  /** Clusters come in strictly increasing order of category name and signature,
      the unclassified ones first. */
  lemma ClustersStrictlyOrdered(traces: seq<DiscoveredTrace>, taxonomy: Taxonomy, representatives: int, i: nat, j: nat)
    requires i < j < |ReportOf(traces, taxonomy, representatives).clusters|
    ensures var clusters := ReportOf(traces, taxonomy, representatives).clusters;
            LeKey(clusters[i].key, clusters[j].key) && clusters[i].key != clusters[j].key
  {
    var ordered := Sort(traces, LeTrace);
    var keys := Sort(Keys(ordered, taxonomy), LeKey);
    SortedKeys(ordered, taxonomy);
    ClustersAt(keys, ordered, taxonomy, representatives, i);
    ClustersAt(keys, ordered, taxonomy, representatives, j);
  }

  /** A cluster holds exactly the ids of the failed traces with its key, as often
      as they occur, and at least one. */
  lemma ClusterHoldsItsTraces(traces: seq<DiscoveredTrace>, taxonomy: Taxonomy, representatives: int, i: nat)
    requires i < |ReportOf(traces, taxonomy, representatives).clusters|
    ensures var cluster := ReportOf(traces, taxonomy, representatives).clusters[i];
            && multiset(cluster.traceIds) == multiset(Members(traces, taxonomy, cluster.key))
            && cluster.traceIds != []
  {
    var ordered := Sort(traces, LeTrace);
    var keys := Sort(Keys(ordered, taxonomy), LeKey);
    SortPermutes(traces, LeTrace);
    SortedKeys(ordered, taxonomy);
    ClustersAt(keys, ordered, taxonomy, representatives, i);
    SelectedPermutes(ordered, traces, InCluster(taxonomy, keys[i]), TraceId);
    assert keys[i] in keys;
    FoundKeyHasMembers(ordered, taxonomy, keys[i]);
  }

  lemma FoundKeyHasMembers(ts: seq<DiscoveredTrace>, taxonomy: Taxonomy, k: ClusterKey)
    requires k in Selected(ts, Failed, Keying(taxonomy))
    ensures Members(ts, taxonomy, k) != []
  {
  }

  function MemberTotal(keys: seq<ClusterKey>, ts: seq<DiscoveredTrace>, taxonomy: Taxonomy): nat {
    if keys == [] then 0
    else MemberTotal(keys[..|keys| - 1], ts, taxonomy) + |Members(ts, taxonomy, keys[|keys| - 1])|
  }

  lemma MembersGrow(ts: seq<DiscoveredTrace>, t: DiscoveredTrace, taxonomy: Taxonomy, k: ClusterKey)
    ensures |Members(ts + [t], taxonomy, k)| ==
            |Members(ts, taxonomy, k)| + if Failed(t) && KeyOf(t, taxonomy) == k then 1 else 0
  {
    SelectedSnoc(ts, t, InCluster(taxonomy, k), TraceId);
  }

  lemma MemberTotalSnoc(keys: seq<ClusterKey>, k: ClusterKey, ts: seq<DiscoveredTrace>, taxonomy: Taxonomy)
    ensures MemberTotal(keys + [k], ts, taxonomy) == MemberTotal(keys, ts, taxonomy) + |Members(ts, taxonomy, k)|
  {
  }

  lemma {:induction false} MemberTotalStep(keys: seq<ClusterKey>, ts: seq<DiscoveredTrace>, t: DiscoveredTrace, taxonomy: Taxonomy)
    requires Distinct(keys)
    ensures MemberTotal(keys, ts + [t], taxonomy)
         == MemberTotal(keys, ts, taxonomy) + (if Failed(t) && KeyOf(t, taxonomy) in keys then 1 else 0)
  {
    if keys != [] {
      var init, last := keys[..|keys| - 1], keys[|keys| - 1];
      assert keys == init + [last];
      MemberTotalStep(init, ts, t, taxonomy);
      MembersGrow(ts, t, taxonomy, last);
      MemberTotalSnoc(init, last, ts, taxonomy);
      MemberTotalSnoc(init, last, ts + [t], taxonomy);
    }
  }

  lemma {:induction false} MemberTotalNone(keys: seq<ClusterKey>, taxonomy: Taxonomy)
    ensures MemberTotal(keys, [], taxonomy) == 0
  {
    if keys != [] {
      MemberTotalNone(keys[..|keys| - 1], taxonomy);
    }
  }

  function FailureIds(ts: seq<DiscoveredTrace>): seq<string> {
    Selected(ts, Failed, TraceId)
  }

  lemma MemberTotalIsFailures(keys: seq<ClusterKey>, ts: seq<DiscoveredTrace>, taxonomy: Taxonomy)
    requires Distinct(keys) && forall t :: t in ts && Failed(t) ==> KeyOf(t, taxonomy) in keys
    ensures MemberTotal(keys, ts, taxonomy) == |FailureIds(ts)|
  {
    MemberTotalNone(keys, taxonomy);
    for n := 0 to |ts|
      invariant MemberTotal(keys, ts[..n], taxonomy) == |FailureIds(ts[..n])|
    {
      TakeSnoc(ts, n);
      MemberTotalStep(keys, ts[..n], ts[n], taxonomy);
      SelectedSnoc(ts[..n], ts[n], Failed, TraceId);
    }
    assert ts[..|ts|] == ts;
  }

  function FailureCount(clusters: seq<Cluster>): nat {
    if clusters == [] then 0 else FailureCount(clusters[..|clusters| - 1]) + clusters[|clusters| - 1].Count()
  }

  lemma {:induction false} FailureCountIsMemberTotal(keys: seq<ClusterKey>, ts: seq<DiscoveredTrace>, taxonomy: Taxonomy, representatives: int)
    ensures FailureCount(ClustersFor(keys, ts, taxonomy, representatives)) == MemberTotal(keys, ts, taxonomy)
  {
    if keys != [] {
      FailureCountIsMemberTotal(keys[..|keys| - 1], ts, taxonomy, representatives);
      var init := ClustersFor(keys[..|keys| - 1], ts, taxonomy, representatives);
      assert ClustersFor(keys, ts, taxonomy, representatives)[..|init|] == init;
    }
  }

  /** Every failed trace is counted once, and nothing else is. */
  lemma FailureCountIsFailedTraces(traces: seq<DiscoveredTrace>, taxonomy: Taxonomy, representatives: int)
    ensures FailureCount(ReportOf(traces, taxonomy, representatives).clusters) == |FailureIds(traces)|
  {
    var ordered := Sort(traces, LeTrace);
    var keys := Sort(Keys(ordered, taxonomy), LeKey);
    SortPermutes(traces, LeTrace);
    SortedKeys(ordered, taxonomy);
    forall t | t in ordered && Failed(t) ensures KeyOf(t, taxonomy) in keys {
      SelectedFrom(ordered, Failed, Keying(taxonomy), KeyOf(t, taxonomy));
      assert Keying(taxonomy)(t) == KeyOf(t, taxonomy);
    }
    FailureCountIsMemberTotal(keys, ordered, taxonomy, representatives);
    MemberTotalIsFailures(keys, ordered, taxonomy);
    SelectedPermutes(ordered, traces, Failed, TraceId);
    SameElements(FailureIds(ordered), FailureIds(traces));
  }

  // -- the unclassified bucket ---------------------------------------------------------------------

  predicate Unclassified(cluster: Cluster) {
    cluster.key.category.None?
  }

  /** The report's own figure: the size of the first unclassified cluster. */
  function UnclassifiedCount(clusters: seq<Cluster>): nat {
    if clusters == [] then 0
    else if Unclassified(clusters[0]) then clusters[0].Count()
    else UnclassifiedCount(clusters[1..])
  }

  function UnclassifiedTotal(clusters: seq<Cluster>): nat {
    if clusters == [] then 0
    else (if Unclassified(clusters[0]) then clusters[0].Count() else 0) + UnclassifiedTotal(clusters[1..])
  }

  predicate AtMostOneUnclassified(clusters: seq<Cluster>) {
    forall i, j :: 0 <= i < j < |clusters| ==> !Unclassified(clusters[i]) || !Unclassified(clusters[j])
  }

  predicate NoneEmpty(clusters: seq<Cluster>) {
    forall i :: 0 <= i < |clusters| ==> clusters[i].Count() > 0
  }

  lemma {:induction false} NoUnclassifiedIff(clusters: seq<Cluster>)
    requires NoneEmpty(clusters)
    ensures UnclassifiedTotal(clusters) == 0 <==> forall i :: 0 <= i < |clusters| ==> !Unclassified(clusters[i])
  {
    if clusters != [] {
      NoUnclassifiedIff(clusters[1..]);
      assert forall i :: 1 <= i < |clusters| ==> clusters[i] == clusters[1..][i - 1];
    }
  }

  lemma {:induction false} UnclassifiedCountIff(clusters: seq<Cluster>)
    requires NoneEmpty(clusters)
    ensures UnclassifiedCount(clusters) == UnclassifiedTotal(clusters) <==> AtMostOneUnclassified(clusters)
  {
    if clusters != [] {
      var rest := clusters[1..];
      assert forall i :: 1 <= i < |clusters| ==> clusters[i] == rest[i - 1];
      if Unclassified(clusters[0]) {
        NoUnclassifiedIff(rest);
        if UnclassifiedTotal(rest) != 0 {
          var i :| 0 <= i < |rest| && Unclassified(rest[i]);
          assert Unclassified(clusters[i + 1]);
        }
      } else {
        UnclassifiedCountIff(rest);
        if AtMostOneUnclassified(clusters) {
          forall i, j | 0 <= i < j < |rest| ensures !Unclassified(rest[i]) || !Unclassified(rest[j]) {
            assert rest[i] == clusters[i + 1] && rest[j] == clusters[j + 1];
          }
        }
      }
    }
  }

  lemma FailedTraceHasCluster(traces: seq<DiscoveredTrace>, taxonomy: Taxonomy, representatives: int, t: DiscoveredTrace)
    returns (i: nat)
    requires t in traces && Failed(t)
    ensures i < |ReportOf(traces, taxonomy, representatives).clusters|
    ensures ReportOf(traces, taxonomy, representatives).clusters[i].key == KeyOf(t, taxonomy)
  {
    var ordered := Sort(traces, LeTrace);
    var keys := Sort(Keys(ordered, taxonomy), LeKey);
    SortPermutes(traces, LeTrace);
    SameElements(ordered, traces);
    SortedKeys(ordered, taxonomy);
    SelectedFrom(ordered, Failed, Keying(taxonomy), KeyOf(t, taxonomy));
    assert Keying(taxonomy)(t) == KeyOf(t, taxonomy);
    assert KeyOf(t, taxonomy) in keys;
    i :| 0 <= i < |keys| && keys[i] == KeyOf(t, taxonomy);
    ClustersAt(keys, ordered, taxonomy, representatives, i);
  }

  predicate UnclassifiedFailure(t: DiscoveredTrace, taxonomy: Taxonomy) {
    Failed(t) && ClassifyFailure(t, taxonomy).None?
  }

  /** The traces that failed and that no rule classifies, by id. */
  function UnclassifiedFailures(ts: seq<DiscoveredTrace>, taxonomy: Taxonomy): seq<string> {
    Selected(ts, (t: DiscoveredTrace) => UnclassifiedFailure(t, taxonomy), TraceId)
  }

  ghost predicate OneSignature(traces: seq<DiscoveredTrace>, taxonomy: Taxonomy) {
    forall t, u :: t in traces && u in traces && UnclassifiedFailure(t, taxonomy) && UnclassifiedFailure(u, taxonomy)
      ==> FailureSignatureOf(t) == FailureSignatureOf(u)
  }

  /** The members of the unclassified keys. */
  function UnclassifiedMembers(keys: seq<ClusterKey>, ts: seq<DiscoveredTrace>, taxonomy: Taxonomy): nat {
    if keys == [] then 0
    else (if keys[0].category.None? then |Members(ts, taxonomy, keys[0])| else 0) + UnclassifiedMembers(keys[1..], ts, taxonomy)
  }

  lemma {:induction false} UnclassifiedTotalIs(keys: seq<ClusterKey>, ts: seq<DiscoveredTrace>, taxonomy: Taxonomy,
                                               representatives: int, clusters: seq<Cluster>)
    requires |clusters| == |keys|
    requires forall i :: 0 <= i < |keys| ==> clusters[i] == ClusterAt(ts, taxonomy, keys[i], representatives)
    ensures UnclassifiedTotal(clusters) == UnclassifiedMembers(keys, ts, taxonomy)
    decreases |keys|
  {
    if keys != [] {
      UnclassifiedTotalIs(keys[1..], ts, taxonomy, representatives, clusters[1..]);
      assert clusters[0] == ClusterAt(ts, taxonomy, keys[0], representatives);
    }
  }

  lemma {:induction false} UnclassifiedMembersNone(keys: seq<ClusterKey>, taxonomy: Taxonomy)
    ensures UnclassifiedMembers(keys, [], taxonomy) == 0
  {
    if keys != [] {
      UnclassifiedMembersNone(keys[1..], taxonomy);
    }
  }

  lemma {:induction false} UnclassifiedMembersStep(keys: seq<ClusterKey>, ts: seq<DiscoveredTrace>, t: DiscoveredTrace, taxonomy: Taxonomy)
    requires Distinct(keys)
    ensures UnclassifiedMembers(keys, ts + [t], taxonomy)
         == UnclassifiedMembers(keys, ts, taxonomy)
            + (if UnclassifiedFailure(t, taxonomy) && KeyOf(t, taxonomy) in keys then 1 else 0)
  {
    if keys != [] {
      UnclassifiedMembersStep(keys[1..], ts, t, taxonomy);
      SelectedSnoc(ts, t, InCluster(taxonomy, keys[0]), TraceId);
      assert keys == [keys[0]] + keys[1..];
      assert keys[0] !in keys[1..];
    }
  }

  lemma UnclassifiedMembersAre(keys: seq<ClusterKey>, ts: seq<DiscoveredTrace>, taxonomy: Taxonomy)
    requires Distinct(keys) && forall t :: t in ts && Failed(t) ==> KeyOf(t, taxonomy) in keys
    ensures UnclassifiedMembers(keys, ts, taxonomy) == |UnclassifiedFailures(ts, taxonomy)|
  {
    UnclassifiedMembersNone(keys, taxonomy);
    for n := 0 to |ts|
      invariant UnclassifiedMembers(keys, ts[..n], taxonomy) == |UnclassifiedFailures(ts[..n], taxonomy)|
    {
      TakeSnoc(ts, n);
      UnclassifiedMembersStep(keys, ts[..n], ts[n], taxonomy);
      SelectedSnoc(ts[..n], ts[n], (t: DiscoveredTrace) => UnclassifiedFailure(t, taxonomy), TraceId);
      assert ts[n] in ts;
    }
    assert ts[..|ts|] == ts;
  }

  /** The unclassified clusters together hold exactly the unclassified failures. */
  lemma UnclassifiedTotalIsFailures(traces: seq<DiscoveredTrace>, taxonomy: Taxonomy, representatives: int)
    ensures UnclassifiedTotal(ReportOf(traces, taxonomy, representatives).clusters) == |UnclassifiedFailures(traces, taxonomy)|
  {
    var ordered := Sort(traces, LeTrace);
    var keys := Sort(Keys(ordered, taxonomy), LeKey);
    var clusters := ReportOf(traces, taxonomy, representatives).clusters;
    SortPermutes(traces, LeTrace);
    SortedKeys(ordered, taxonomy);
    forall t | t in ordered && Failed(t) ensures KeyOf(t, taxonomy) in keys {
      SelectedFrom(ordered, Failed, Keying(taxonomy), KeyOf(t, taxonomy));
      assert Keying(taxonomy)(t) == KeyOf(t, taxonomy);
    }
    forall i | 0 <= i < |keys| ensures clusters[i] == ClusterAt(ordered, taxonomy, keys[i], representatives) {
      ClustersAt(keys, ordered, taxonomy, representatives, i);
    }
    UnclassifiedTotalIs(keys, ordered, taxonomy, representatives, clusters);
    UnclassifiedMembersAre(keys, ordered, taxonomy);
    SelectedPermutes(ordered, traces, (t: DiscoveredTrace) => UnclassifiedFailure(t, taxonomy), TraceId);
    SameElements(UnclassifiedFailures(ordered, taxonomy), UnclassifiedFailures(traces, taxonomy));
  }

  /** Every cluster is that of some failed trace. */
  lemma ClusterHasTrace(traces: seq<DiscoveredTrace>, taxonomy: Taxonomy, representatives: int, i: nat)
    returns (t: DiscoveredTrace)
    requires i < |ReportOf(traces, taxonomy, representatives).clusters|
    ensures t in traces && Failed(t) && KeyOf(t, taxonomy) == ReportOf(traces, taxonomy, representatives).clusters[i].key
  {
    var ordered := Sort(traces, LeTrace);
    var keys := Sort(Keys(ordered, taxonomy), LeKey);
    SortPermutes(traces, LeTrace);
    SameElements(ordered, traces);
    SortedKeys(ordered, taxonomy);
    ClustersAt(keys, ordered, taxonomy, representatives, i);
    assert keys[i] in keys;
    SelectedFrom(ordered, Failed, Keying(taxonomy), keys[i]);
    t :| t in ordered && Failed(t) && Keying(taxonomy)(t) == keys[i];
  }

  lemma OneSignatureAt(traces: seq<DiscoveredTrace>, taxonomy: Taxonomy, t: DiscoveredTrace, u: DiscoveredTrace)
    requires OneSignature(traces, taxonomy) && t in traces && u in traces
    requires UnclassifiedFailure(t, taxonomy) && UnclassifiedFailure(u, taxonomy)
    ensures KeyOf(t, taxonomy) == KeyOf(u, taxonomy)
  {
  }

  lemma OneBucket(traces: seq<DiscoveredTrace>, taxonomy: Taxonomy, representatives: int, clusters: seq<Cluster>, i: nat, j: nat)
    requires clusters == ReportOf(traces, taxonomy, representatives).clusters && i < j < |clusters|
    requires OneSignature(traces, taxonomy)
    ensures !Unclassified(clusters[i]) || !Unclassified(clusters[j])
  {
    var t := ClusterHasTrace(traces, taxonomy, representatives, i);
    var u := ClusterHasTrace(traces, taxonomy, representatives, j);
    ClustersStrictlyOrdered(traces, taxonomy, representatives, i, j);
    if Unclassified(clusters[i]) && Unclassified(clusters[j]) {
      OneSignatureAt(traces, taxonomy, t, u);
    }
  }

  lemma OneBucketOneSignature(traces: seq<DiscoveredTrace>, taxonomy: Taxonomy, representatives: int, clusters: seq<Cluster>,
                              t: DiscoveredTrace, u: DiscoveredTrace)
    requires clusters == ReportOf(traces, taxonomy, representatives).clusters && AtMostOneUnclassified(clusters)
    requires t in traces && u in traces && UnclassifiedFailure(t, taxonomy) && UnclassifiedFailure(u, taxonomy)
    ensures FailureSignatureOf(t) == FailureSignatureOf(u)
  {
    var i := FailedTraceHasCluster(traces, taxonomy, representatives, t);
    var j := FailedTraceHasCluster(traces, taxonomy, representatives, u);
    assert Unclassified(clusters[i]) && Unclassified(clusters[j]);
    assert i == j;
  }

  lemma OneSignatureIff(traces: seq<DiscoveredTrace>, taxonomy: Taxonomy, representatives: int, clusters: seq<Cluster>)
    requires clusters == ReportOf(traces, taxonomy, representatives).clusters
    ensures AtMostOneUnclassified(clusters) <==> OneSignature(traces, taxonomy)
  {
    if OneSignature(traces, taxonomy) {
      forall i, j | 0 <= i < j < |clusters| ensures !Unclassified(clusters[i]) || !Unclassified(clusters[j]) {
        OneBucket(traces, taxonomy, representatives, clusters, i, j);
      }
    } else if AtMostOneUnclassified(clusters) {
      forall t, u | t in traces && u in traces && UnclassifiedFailure(t, taxonomy) && UnclassifiedFailure(u, taxonomy)
        ensures FailureSignatureOf(t) == FailureSignatureOf(u)
      {
        OneBucketOneSignature(traces, taxonomy, representatives, clusters, t, u);
      }
    }
  }

  /** The figure the report gives for the unclassified bucket is the number of
      failures no rule classifies exactly when they all share one signature. */
  lemma UnclassifiedCountExactIff(traces: seq<DiscoveredTrace>, taxonomy: Taxonomy, representatives: int)
    ensures UnclassifiedCount(ReportOf(traces, taxonomy, representatives).clusters) == |UnclassifiedFailures(traces, taxonomy)|
       <==> OneSignature(traces, taxonomy)
  {
    var clusters := ReportOf(traces, taxonomy, representatives).clusters;
    forall i | 0 <= i < |clusters| ensures clusters[i].Count() > 0 {
      ClusterHoldsItsTraces(traces, taxonomy, representatives, i);
    }
    UnclassifiedCountIff(clusters);
    UnclassifiedTotalIsFailures(traces, taxonomy, representatives);
    OneSignatureIff(traces, taxonomy, representatives, clusters);
  }

  lemma {:induction false} UnclassifiedCountBelow(clusters: seq<Cluster>)
    ensures UnclassifiedCount(clusters) <= UnclassifiedTotal(clusters)
  {
    if clusters != [] {
      UnclassifiedCountBelow(clusters[1..]);
    }
  }

  /** Two unclassified failures with different signatures are enough to make the
      report undercount them. */
  lemma TwoSignaturesUndercount(traces: seq<DiscoveredTrace>, taxonomy: Taxonomy, representatives: int,
                                t: DiscoveredTrace, u: DiscoveredTrace)
    requires t in traces && u in traces && UnclassifiedFailure(t, taxonomy) && UnclassifiedFailure(u, taxonomy)
    requires FailureSignatureOf(t) != FailureSignatureOf(u)
    ensures UnclassifiedCount(ReportOf(traces, taxonomy, representatives).clusters) < |UnclassifiedFailures(traces, taxonomy)|
  {
    UnclassifiedCountExactIff(traces, taxonomy, representatives);
    UnclassifiedTotalIsFailures(traces, taxonomy, representatives);
    UnclassifiedCountBelow(ReportOf(traces, taxonomy, representatives).clusters);
  }

  const ENDED_BADLY := TraceEventSignal("trace.ended", map["ok" := Flag(false)], true)

  lemma EndedBadly()
    ensures var t := DiscoveredTrace("t", "task", [ENDED_BADLY]);
            Failed(t) && ClassifyFailure(t, map[]).None? && FailureSignatureOf(t) == "no_failed_tool"
  {
    var es := [ENDED_BADLY];
    assert es[..0] == [];
    assert CalledNames(es[..0], false) == [];
    assert CalledNames(es, false) == [];
    assert LastEvent(es[..0], "outcome.claimed").None?;
    assert LastEvent(es, "outcome.claimed").None? && LastEvent(es, "trace.ended") == Some(ENDED_BADLY);
  }

  lemma SearchFailed()
    ensures var u := DiscoveredTrace("u", "task", [Failing("grep"), ENDED_BADLY]);
            Failed(u) && ClassifyFailure(u, map[]).None? && FailureSignatureOf(u) == "grep"
  {
    var fs := [Failing("grep"), ENDED_BADLY];
    assert fs[..1] == [Failing("grep")] && fs[..1][..0] == [];
    assert LastEvent(fs[..1], "outcome.claimed").None?;
    assert LastEvent(fs, "outcome.claimed").None? && LastEvent(fs, "trace.ended") == Some(ENDED_BADLY);
    assert CalledNames(fs[..1], false) == ["grep"];
    assert CalledNames(fs, false) == ["grep"];
    OneName("grep");
  }

  lemma OneName(name: string)
    ensures Sort(Unique([name]), LeString) == [name]
  {
  }

  /** Such traces exist: one that failed without a failed tool, one whose search
      tool failed. */
  lemma UndercountHappens(representatives: int)
    ensures var t := DiscoveredTrace("t", "task", [ENDED_BADLY]);
            var u := DiscoveredTrace("u", "task", [Failing("grep"), ENDED_BADLY]);
            UnclassifiedCount(ReportOf([t, u], map[], representatives).clusters) < |UnclassifiedFailures([t, u], map[])|
  {
    var t := DiscoveredTrace("t", "task", [ENDED_BADLY]);
    var u := DiscoveredTrace("u", "task", [Failing("grep"), ENDED_BADLY]);
    EndedBadly();
    SearchFailed();
    assert FailureSignatureOf(t) != FailureSignatureOf(u);
    TwoSignaturesUndercount([t, u], map[], representatives, t, u);
  }
}
