/** Which traces a discovery report holds and under what category, read off their
    events: the last claim decides, only without a claim the end of the trace. */
module Signals {
  import opened Wrappers
  import opened Sorting
  import opened Ordering
  import opened Selecting
  import opened Discovery

  /** Event `i` is the last of its type. */
  predicate LastOf(events: seq<TraceEventSignal>, eventType: string, i: nat) {
    i < |events| && events[i].eventType == eventType
    && forall k :: i < k < |events| ==> events[k].eventType != eventType
  }

  predicate NoneOf(events: seq<TraceEventSignal>, eventType: string) {
    forall k :: 0 <= k < |events| ==> events[k].eventType != eventType
  }

  lemma {:induction false} LastEventIs(events: seq<TraceEventSignal>, eventType: string, i: nat)
    requires LastOf(events, eventType, i)
    ensures LastEvent(events, eventType) == Some(events[i])
  {
    if i < |events| - 1 {
      LastEventIs(events[..|events| - 1], eventType, i);
    }
  }

  lemma {:induction false} LastEventNone(events: seq<TraceEventSignal>, eventType: string)
    requires NoneOf(events, eventType)
    ensures LastEvent(events, eventType).None?
  {
    if events != [] {
      LastEventNone(events[..|events| - 1], eventType);
    }
  }

  /** Some cluster of the report lists the id. */
  ghost predicate Reported(traces: seq<DiscoveredTrace>, taxonomy: Taxonomy, representatives: int, id: string) {
    exists i :: 0 <= i < |ReportOf(traces, taxonomy, representatives).clusters|
                && id in ReportOf(traces, taxonomy, representatives).clusters[i].traceIds
  }

  /** No other trace goes by the id of `t`. */
  predicate OwnId(traces: seq<DiscoveredTrace>, t: DiscoveredTrace) {
    t in traces && forall u :: u in traces && u.traceId == t.traceId ==> u == t
  }

  lemma InMembers(cluster: seq<string>, members: seq<string>, id: string)
    requires multiset(cluster) == multiset(members)
    ensures id in cluster <==> id in members
  {
    SameElements(cluster, members);
  }

  lemma ReportedIff(traces: seq<DiscoveredTrace>, taxonomy: Taxonomy, representatives: int, t: DiscoveredTrace)
    requires OwnId(traces, t)
    ensures Reported(traces, taxonomy, representatives, t.traceId) <==> Failed(t)
  {
    var clusters := ReportOf(traces, taxonomy, representatives).clusters;
    if Failed(t) {
      var i := FailedTraceHasCluster(traces, taxonomy, representatives, t);
      ClusterHoldsItsTraces(traces, taxonomy, representatives, i);
      var k := clusters[i].key;
      assert InCluster(taxonomy, k)(t) && TraceId(t) == t.traceId;
      SelectedFrom(traces, InCluster(taxonomy, k), TraceId, t.traceId);
      InMembers(clusters[i].traceIds, Members(traces, taxonomy, k), t.traceId);
    }
    if Reported(traces, taxonomy, representatives, t.traceId) {
      var i :| 0 <= i < |clusters| && t.traceId in clusters[i].traceIds;
      ClusterHoldsItsTraces(traces, taxonomy, representatives, i);
      var k := clusters[i].key;
      InMembers(clusters[i].traceIds, Members(traces, taxonomy, k), t.traceId);
      SelectedFrom(traces, InCluster(taxonomy, k), TraceId, t.traceId);
      var u :| u in traces && InCluster(taxonomy, k)(u) && TraceId(u) == t.traceId;
      assert u == t;
    }
  }

  /** With a claim the last one decides, whatever the end of the trace says: the
      trace is reported exactly when it claims no success. */
  lemma ClaimDecides(traces: seq<DiscoveredTrace>, taxonomy: Taxonomy, representatives: int, t: DiscoveredTrace, i: nat)
    requires OwnId(traces, t) && LastOf(t.events, "outcome.claimed", i)
    ensures Reported(traces, taxonomy, representatives, t.traceId)
       <==> "claimed_success" in t.events[i].details && t.events[i].details["claimed_success"] == Flag(false)
  {
    LastEventIs(t.events, "outcome.claimed", i);
    ReportedIff(traces, taxonomy, representatives, t);
  }

  /** Without a claim the last end of the trace does. */
  lemma EndDecides(traces: seq<DiscoveredTrace>, taxonomy: Taxonomy, representatives: int, t: DiscoveredTrace, i: nat)
    requires OwnId(traces, t) && NoneOf(t.events, "outcome.claimed") && LastOf(t.events, "trace.ended", i)
    ensures Reported(traces, taxonomy, representatives, t.traceId)
       <==> "ok" in t.events[i].details && t.events[i].details["ok"] == Flag(false)
  {
    LastEventNone(t.events, "outcome.claimed");
    LastEventIs(t.events, "trace.ended", i);
    ReportedIff(traces, taxonomy, representatives, t);
  }

  /** A trace that neither claims nor ends is not reported. */
  lemma SilentNotReported(traces: seq<DiscoveredTrace>, taxonomy: Taxonomy, representatives: int, t: DiscoveredTrace)
    requires OwnId(traces, t) && NoneOf(t.events, "outcome.claimed") && NoneOf(t.events, "trace.ended")
    ensures !Reported(traces, taxonomy, representatives, t.traceId)
  {
    LastEventNone(t.events, "outcome.claimed");
    LastEventNone(t.events, "trace.ended");
    ReportedIff(traces, taxonomy, representatives, t);
  }

  // -- the category -----------------------------------------------------------------------

  /** The trace's only failing tool. */
  ghost predicate OnlyFailed(t: DiscoveredTrace, name: string) {
    forall other :: Called(t.events, other, false) <==> other == name
  }

  ghost predicate NoneFailed(t: DiscoveredTrace) {
    forall other :: !Called(t.events, other, false)
  }

  /** A completed call, successful or not, of a tool whose name starts with read. */
  predicate ReadCall(e: TraceEventSignal) {
    && e.eventType == "tool.completed" && "ok" in e.details && e.details["ok"].Flag?
    && "name" in e.details && e.details["name"].Text?
    && |e.details["name"].text| >= 4 && e.details["name"].text[..4] == "read"
  }

  predicate ReadAnything(t: DiscoveredTrace) {
    exists i :: 0 <= i < |t.events| && ReadCall(t.events[i])
  }

  lemma ReadsAgree(t: DiscoveredTrace)
    ensures ReadSomething(t.events) <==> ReadAnything(t)
  {
    forall i | 0 <= i < |t.events| ensures IsRead(t.events[i]) <==> ReadCall(t.events[i]) {
    }
    if ReadAnything(t) {
      var i :| 0 <= i < |t.events| && ReadCall(t.events[i]);
      assert IsRead(t.events[i]);
    }
    if ReadSomething(t.events) {
      var i :| 0 <= i < |t.events| && IsRead(t.events[i]);
      assert ReadCall(t.events[i]);
    }
  }

  /** An explicit mapping wins over every signal. */
  lemma MappingWins(t: DiscoveredTrace, taxonomy: Taxonomy)
    requires t.taskId in taxonomy
    ensures ClassifyFailure(t, taxonomy) == Some(taxonomy[t.taskId])
  {
  }

  /** What one failing tool alone is read as; a tool no rule names falls through to
      whether the agent looked without ever editing. */
  lemma OneFailingTool(t: DiscoveredTrace, taxonomy: Taxonomy, name: string)
    requires t.taskId !in taxonomy && OnlyFailed(t, name)
    ensures ClassifyFailure(t, taxonomy) ==
            if name == "run_tests" || name == "test" then Some(TestMisunderstanding)
            else if name == "shell" then Some(DependencyMisuse)
            else if name == "edit" || (!Called(t.events, "edit", true) && ReadAnything(t)) then Some(Localization)
            else None
  {
    ReadsAgree(t);
  }

  /** Without a failing tool a trace that read and never edited is a localisation
      failure, and any other is unclassified. */
  lemma NoFailingTool(t: DiscoveredTrace, taxonomy: Taxonomy)
    requires t.taskId !in taxonomy && NoneFailed(t)
    ensures ClassifyFailure(t, taxonomy) ==
            if !Called(t.events, "edit", true) && ReadAnything(t) then Some(Localization) else None
  {
    ReadsAgree(t);
  }

  /** No rule applies exactly to unmapped traces in which none of the four tools
      failed and which edited or never read. */
  lemma UnclassifiedIff(t: DiscoveredTrace, taxonomy: Taxonomy)
    ensures ClassifyFailure(t, taxonomy).None? <==>
              && t.taskId !in taxonomy
              && (forall name :: name in {"run_tests", "test", "shell", "edit"} ==> !Called(t.events, name, false))
              && (Called(t.events, "edit", true) || !ReadAnything(t))
  {
    ReadsAgree(t);
  }

  // -- the signature -----------------------------------------------------------------------

  /** The signature joins the names of the failing tools, each once, in order;
      `names` is that list however it is come by. */
  lemma SignatureIs(t: DiscoveredTrace, names: seq<string>)
    requires Distinct(names) && SortedBy(names, LeString)
    requires forall name :: name in names <==> Called(t.events, name, false)
    ensures FailureSignatureOf(t) == if names == [] then "no_failed_tool" else JoinNames(names)
  {
    var found := Unique(CalledNames(t.events, false));
    CalledNamesAre(t.events, false);
    UniqueIs(CalledNames(t.events, false));
    LeStringIsOrder();
    DistinctSameElements(found, names);
    SortPermutes(found, LeString);
    SortSorted(found, LeString);
    SortedUnique(Sort(found, LeString), names, LeString);
  }

  /** No failing tool, one, or two in their order. */
  lemma SmallSignatures(t: DiscoveredTrace, a: string, b: string)
    ensures NoneFailed(t) ==> FailureSignatureOf(t) == "no_failed_tool"
    ensures OnlyFailed(t, a) ==> FailureSignatureOf(t) == a
    ensures a != b && LeString(a, b) && BothFailed(t, a, b) ==> FailureSignatureOf(t) == a + "," + b
  {
    if NoneFailed(t) {
      SignatureIs(t, []);
    }
    if OnlyFailed(t, a) {
      SignatureIs(t, [a]);
    }
    if a != b && LeString(a, b) && BothFailed(t, a, b) {
      SignatureIs(t, [a, b]);
      assert [a, b][1..] == [b];
    }
  }

  ghost predicate BothFailed(t: DiscoveredTrace, a: string, b: string) {
    forall other :: Called(t.events, other, false) <==> other == a || other == b
  }

  // -- the rest of the report -----------------------------------------------------------------

  function BodiesOf(events: seq<TraceEventSignal>): seq<bool> {
    seq(|events|, i requires 0 <= i < |events| => events[i].bodyResolved)
  }

  /** Of every event of every trace, whether its body resolved. */
  function Bodies(traces: seq<DiscoveredTrace>): seq<bool> {
    if traces == [] then [] else Bodies(traces[..|traces| - 1]) + BodiesOf(traces[|traces| - 1].events)
  }

  lemma {:induction false} UnresolvedInIs(events: seq<TraceEventSignal>)
    ensures |Selected(events, Unresolved, (e: TraceEventSignal) => e)| == multiset(BodiesOf(events))[false]
  {
    if events != [] {
      var init, last := events[..|events| - 1], events[|events| - 1];
      UnresolvedInIs(init);
      assert BodiesOf(events) == BodiesOf(init) + [last.bodyResolved];
    }
  }

  lemma {:induction false} UnresolvedTotal(traces: seq<DiscoveredTrace>)
    ensures Total(traces, UnresolvedIn) == multiset(Bodies(traces))[false]
  {
    if traces != [] {
      UnresolvedTotal(traces[..|traces| - 1]);
      UnresolvedInIs(traces[|traces| - 1].events);
    }
  }

  /** How many of `count` members a slice up to `n` shows. */
  function Shown(count: nat, n: int): nat {
    if n >= count then count else if n >= 0 then n else if count + n > 0 then count + n else 0
  }

  /** Every trace is scanned, the events without a body are counted over all of
      them, and each cluster shows the first `n` of its members, or with a negative
      `n` all but the last. */
  lemma ReportFigures(traces: seq<DiscoveredTrace>, taxonomy: Taxonomy, n: int, i: nat)
    ensures ReportOf(traces, taxonomy, n).tracesScanned == |traces|
    ensures ReportOf(traces, taxonomy, n).unresolvedEvents == multiset(Bodies(traces))[false]
    ensures i < |ReportOf(traces, taxonomy, n).clusters| ==>
              var c := ReportOf(traces, taxonomy, n).clusters[i];
              c.representatives <= c.traceIds && |c.representatives| == Shown(|c.traceIds|, n)
  {
    UnresolvedTotal(traces);
    var ordered := Sort(traces, LeTrace);
    var keys := Sort(Keys(ordered, taxonomy), LeKey);
    if i < |keys| {
      ClustersAt(keys, ordered, taxonomy, n, i);
    }
  }

  // -- the order of the report -----------------------------------------------------------------

  /** Where a category stands by name, the unclassified before all. */
  function Standing(category: Option<FailureCategory>): nat {
    match category
    case None => 0
    case Some(DependencyMisuse) => 1
    case Some(Localization) => 2
    case Some(TestMisunderstanding) => 3
  }

  function Initial(c: FailureCategory): char {
    match c
    case DependencyMisuse => 'd'
    case Localization => 'l'
    case TestMisunderstanding => 't'
  }

  lemma NameStarts(c: FailureCategory)
    ensures c.Name() != "" && c.Name()[0] == Initial(c)
  {
  }

  lemma FirstDecides(a: string, b: string)
    requires a != "" && b != "" && a[0] != b[0]
    ensures a != b && (LeString(a, b) <==> a[0] < b[0])
  {
  }

  lemma NamesOrdered(c: Option<FailureCategory>, d: Option<FailureCategory>)
    ensures LeString(CategoryOrEmpty(c), CategoryOrEmpty(d)) <==> Standing(c) <= Standing(d)
    ensures CategoryOrEmpty(c) == CategoryOrEmpty(d) <==> c == d
  {
    if c.Some? {
      NameStarts(c.value);
    }
    if d.Some? {
      NameStarts(d.value);
    }
    if c == d {
      LeStringTotal(CategoryOrEmpty(c), CategoryOrEmpty(c));
    } else if c.Some? && d.Some? {
      FirstDecides(c.value.Name(), d.value.Name());
    }
  }

  /** Clusters come by category and, within one, by signature. */
  lemma ClustersInOrder(traces: seq<DiscoveredTrace>, taxonomy: Taxonomy, n: int, i: nat, j: nat)
    requires i < j < |ReportOf(traces, taxonomy, n).clusters|
    ensures var k, l := ReportOf(traces, taxonomy, n).clusters[i].key, ReportOf(traces, taxonomy, n).clusters[j].key;
            || Standing(k.category) < Standing(l.category)
            || (k.category == l.category && LeString(k.signature, l.signature) && k.signature != l.signature)
  {
    ClustersStrictlyOrdered(traces, taxonomy, n, i, j);
    var k, l := ReportOf(traces, taxonomy, n).clusters[i].key, ReportOf(traces, taxonomy, n).clusters[j].key;
    NamesOrdered(k.category, l.category);
  }

  /** The traces by task and, within one, by id. */
  predicate ByTask(ts: seq<DiscoveredTrace>) {
    forall a, b :: 0 <= a < b < |ts| ==>
      if ts[a].taskId == ts[b].taskId then LeString(ts[a].traceId, ts[b].traceId) else LeString(ts[a].taskId, ts[b].taskId)
  }

  /** However the traces arrive, a cluster lists its members by task and id. */
  lemma MembersInOrder(traces: seq<DiscoveredTrace>, arranged: seq<DiscoveredTrace>, taxonomy: Taxonomy, n: int, i: nat)
    requires multiset(arranged) == multiset(traces) && ByTask(arranged)
    requires i < |ReportOf(traces, taxonomy, n).clusters|
    ensures var c := ReportOf(traces, taxonomy, n).clusters[i];
            c.traceIds == Selected(arranged, (t: DiscoveredTrace) => Failed(t) && KeyOf(t, taxonomy) == c.key, (t: DiscoveredTrace) => t.traceId)
  {
    ReportOrderFree(traces, arranged, taxonomy, n);
    SortIdentity(arranged, LeTrace);
    var keys := Sort(Keys(arranged, taxonomy), LeKey);
    ClustersAt(keys, arranged, taxonomy, n, i);
    var key := keys[i];
    SelectedAlike(arranged, InCluster(taxonomy, key), (t: DiscoveredTrace) => Failed(t) && KeyOf(t, taxonomy) == key,
                  TraceId, (t: DiscoveredTrace) => t.traceId);
  }

  lemma {:induction false} SelectedAlike<T(!new), U>(xs: seq<T>, p: T -> bool, q: T -> bool, f: T -> U, g: T -> U)
    requires forall x :: p(x) == q(x) && f(x) == g(x)
    ensures Selected(xs, p, f) == Selected(xs, q, g)
  {
    if xs != [] {
      SelectedAlike(xs[..|xs| - 1], p, q, f, g);
    }
  }
}
