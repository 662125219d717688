/** The release activation ledger: canary, promotion and rollback over one
    append-mostly table whose old `active` rows are superseded in place. A
    committed session is one step; one that raises changes nothing. */
module Releases {
  import opened Wrappers

  datatype Status = Canary | Active | RolledBack | Superseded

  datatype Manifest = Manifest(tenant: string, digest: string, prior: Option<string>)

  datatype Row = Row(id: nat, tenant: string, digest: string, status: Status, createdAt: nat)

  datatype Ledger = Ledger(manifests: seq<Manifest>, rows: seq<Row>)

  datatype ReleaseError = BadStatus | ScaffoldRefused | NotFound | Circular | Duplicate | ActivationRefused | NotInCanary | NothingLive

  /** `scaffoldOk` and `activates` are the verdicts of the tenancy gate and of the
      signature, membership and acyclicity boundary; ids and times come from the
      database. */
  datatype Op =
    | Create(tenant: string, digest: string, prior: Option<string>, status: string,
             scaffoldOk: bool, activates: bool, id: nat, now: nat)
    | Promote(tenant: string, digest: string, scaffoldOk: bool, id: nat, now: nat)
    | Rollback(tenant: string, digest: string, id: nat, priorId: nat, now: nat)

  function FindManifest(ms: seq<Manifest>, tenant: string, digest: string): Option<Manifest> {
    if ms == [] then None
    else if ms[|ms| - 1].tenant == tenant && ms[|ms| - 1].digest == digest then Some(ms[|ms| - 1])
    else FindManifest(ms[..|ms| - 1], tenant, digest)
  }

  predicate Of(r: Row, tenant: string, digest: string) {
    r.tenant == tenant && r.digest == digest
  }

  predicate Later(r: Row, s: Row) {
    r.createdAt > s.createdAt || (r.createdAt == s.createdAt && r.id > s.id)
  }

  /** The newest row of a manifest by creation time, then id. */
  function Latest(rows: seq<Row>, tenant: string, digest: string): Option<Row> {
    if rows == [] then None
    else
      var best, r := Latest(rows[..|rows| - 1], tenant, digest), rows[|rows| - 1];
      if Of(r, tenant, digest) && (best.None? || Later(r, best.value)) then Some(r) else best
  }

  function LatestStatus(rows: seq<Row>, tenant: string, digest: string): Option<Status> {
    var latest := Latest(rows, tenant, digest);
    if latest.Some? then Some(latest.value.status) else None
  }

  predicate IsOtherActive(r: Row, tenant: string, digest: string) {
    r.tenant == tenant && r.status == Active && r.digest != digest
  }

  function Superseding(rows: seq<Row>, tenant: string, digest: string): (r: seq<Row>)
    ensures |r| == |rows|
    ensures forall i :: 0 <= i < |rows| ==>
              r[i] == if IsOtherActive(rows[i], tenant, digest) then rows[i].(status := Superseded) else rows[i]
  {
    if rows == [] then []
    else
      var last := rows[|rows| - 1];
      Superseding(rows[..|rows| - 1], tenant, digest)
      + [if IsOtherActive(last, tenant, digest) then last.(status := Superseded) else last]
  }

  function StatusNamed(status: string): Option<Status> {
    if status == "canary" then Some(Canary) else if status == "active" then Some(Active) else None
  }

  function Apply(l: Ledger, op: Op): (Ledger, Option<ReleaseError>) {
    match op
    case Create(tenant, digest, prior, status, scaffoldOk, activates, id, now) =>
      if StatusNamed(status).None? then (l, Some(BadStatus))
      else if !scaffoldOk then (l, Some(ScaffoldRefused))
      else if prior.Some? && FindManifest(l.manifests, tenant, prior.value).None? then (l, Some(NotFound))
      else if prior == Some(digest) then (l, Some(Circular))
      else if FindManifest(l.manifests, tenant, digest).Some? then (l, Some(Duplicate))
      else if !activates then (l, Some(ActivationRefused))
      else
        (Ledger(l.manifests + [Manifest(tenant, digest, prior)],
                l.rows + [Row(id, tenant, digest, StatusNamed(status).value, now)]), None)
    case Promote(tenant, digest, scaffoldOk, id, now) =>
      if FindManifest(l.manifests, tenant, digest).None? then (l, Some(NotFound))
      else if LatestStatus(l.rows, tenant, digest) != Some(Canary) then (l, Some(NotInCanary))
      else if !scaffoldOk then (l, Some(ScaffoldRefused))
      else (l.(rows := Superseding(l.rows, tenant, digest) + [Row(id, tenant, digest, Active, now)]), None)
    case Rollback(tenant, digest, id, priorId, now) =>
      var manifest := FindManifest(l.manifests, tenant, digest);
      var latest := LatestStatus(l.rows, tenant, digest);
      if manifest.None? then (l, Some(NotFound))
      else if latest != Some(Canary) && latest != Some(Active) then (l, Some(NothingLive))
      else
        var rolled := l.rows + [Row(id, tenant, digest, RolledBack, now)];
        var prior := manifest.value.prior;
        if prior.None? then (l.(rows := rolled), None)
        else if FindManifest(l.manifests, tenant, prior.value).None? then (l, Some(NotFound))
        else (l.(rows := Superseding(rolled, tenant, prior.value) + [Row(priorId, tenant, prior.value, Active, now)]), None)
  }

  // -- what every step keeps -------------------------------------------------------------

  /** No two manifests of the tenant carry `active` rows. */
  predicate OneActive(rows: seq<Row>, tenant: string) {
    forall i, j :: 0 <= i < |rows| && 0 <= j < |rows| && ActiveOf(rows[i], tenant) && ActiveOf(rows[j], tenant) ==>
      rows[i].digest == rows[j].digest
  }

  predicate ActiveOf(r: Row, tenant: string) {
    r.tenant == tenant && r.status == Active
  }

  predicate NoneActive(rows: seq<Row>, tenant: string) {
    forall i :: 0 <= i < |rows| ==> !ActiveOf(rows[i], tenant)
  }

  /** Every `active` row of the tenant is the manifest's, and there is one. */
  predicate ExactlyActive(rows: seq<Row>, tenant: string, digest: string) {
    && (forall i :: 0 <= i < |rows| && ActiveOf(rows[i], tenant) ==> rows[i].digest == digest)
    && (exists i :: 0 <= i < |rows| && ActiveOf(rows[i], tenant))
  }

  /** Manifests are unique in their tenant, each names an earlier one as prior,
      and rows are about manifests. */
  predicate Rooted(ms: seq<Manifest>) {
    && (forall i, j :: 0 <= i < j < |ms| && ms[i].tenant == ms[j].tenant ==> ms[i].digest != ms[j].digest)
    && (forall i :: 0 <= i < |ms| && ms[i].prior.Some? ==> FindManifest(ms[..i], ms[i].tenant, ms[i].prior.value).Some?)
  }

  predicate AboutManifests(l: Ledger) {
    forall i :: 0 <= i < |l.rows| ==> FindManifest(l.manifests, l.rows[i].tenant, l.rows[i].digest).Some?
  }

  predicate Valid(l: Ledger) {
    Rooted(l.manifests) && AboutManifests(l)
  }

  lemma {:induction false} FindManifestIs(ms: seq<Manifest>, tenant: string, digest: string)
    ensures FindManifest(ms, tenant, digest).Some? <==>
              exists i :: 0 <= i < |ms| && ms[i].tenant == tenant && ms[i].digest == digest
    ensures var found := FindManifest(ms, tenant, digest);
            found.Some? ==> found.value in ms && found.value.tenant == tenant && found.value.digest == digest
  {
    if ms != [] {
      FindManifestIs(ms[..|ms| - 1], tenant, digest);
      assert forall i :: 0 <= i < |ms| - 1 ==> ms[i] == ms[..|ms| - 1][i];
    }
  }

  lemma FindManifestSnoc(ms: seq<Manifest>, m: Manifest, tenant: string, digest: string)
    ensures FindManifest(ms + [m], tenant, digest) ==
            if m.tenant == tenant && m.digest == digest then Some(m) else FindManifest(ms, tenant, digest)
  {
  }

  lemma RootedSnoc(ms: seq<Manifest>, m: Manifest)
    requires Rooted(ms) && FindManifest(ms, m.tenant, m.digest).None?
    requires m.prior.Some? ==> FindManifest(ms, m.tenant, m.prior.value).Some?
    ensures Rooted(ms + [m])
  {
    var more := ms + [m];
    FindManifestIs(ms, m.tenant, m.digest);
    forall i | 0 <= i < |more| && more[i].prior.Some? ensures FindManifest(more[..i], more[i].tenant, more[i].prior.value).Some? {
      assert more[..i] == ms[..i];
      if i == |ms| {
        assert ms[..i] == ms;
      }
    }
  }

  lemma RowsStayAbout(l: Ledger, m: Manifest)
    requires AboutManifests(l)
    ensures AboutManifests(l.(manifests := l.manifests + [m]))
  {
  }

  lemma AboutAfterSuperseding(ms: seq<Manifest>, rows: seq<Row>, tenant: string, digest: string)
    requires AboutManifests(Ledger(ms, rows))
    ensures AboutManifests(Ledger(ms, Superseding(rows, tenant, digest)))
  {
  }

  lemma AboutSnoc(ms: seq<Manifest>, rows: seq<Row>, r: Row)
    requires AboutManifests(Ledger(ms, rows)) && FindManifest(ms, r.tenant, r.digest).Some?
    ensures AboutManifests(Ledger(ms, rows + [r]))
  {
  }

  lemma CreateKeepsValid(l: Ledger, op: Op)
    requires Valid(l) && op.Create? && Apply(l, op).1.None?
    ensures Valid(Apply(l, op).0)
  {
    var m := Manifest(op.tenant, op.digest, op.prior);
    RootedSnoc(l.manifests, m);
    RowsStayAbout(l, m);
    FindManifestSnoc(l.manifests, m, op.tenant, op.digest);
    AboutSnoc(l.manifests + [m], l.rows, Row(op.id, op.tenant, op.digest, StatusNamed(op.status).value, op.now));
  }

  function PriorOf(l: Ledger, op: Op): Option<string>
    requires op.Rollback?
  {
    var m := FindManifest(l.manifests, op.tenant, op.digest);
    if m.Some? then m.value.prior else None
  }

  /** What a successful rollback appends and supersedes. */
  lemma RollbackRows(l: Ledger, op: Op)
    requires op.Rollback? && Apply(l, op).1.None?
    ensures var rolled := l.rows + [Row(op.id, op.tenant, op.digest, RolledBack, op.now)];
            Apply(l, op).0 == Ledger(l.manifests, match PriorOf(l, op)
                                                  case None => rolled
                                                  case Some(p) => Superseding(rolled, op.tenant, p)
                                                                  + [Row(op.priorId, op.tenant, p, Active, op.now)])
    ensures FindManifest(l.manifests, op.tenant, op.digest).Some?
    ensures PriorOf(l, op).Some? ==> FindManifest(l.manifests, op.tenant, PriorOf(l, op).value).Some?
  {
  }

  lemma RollbackKeepsValid(l: Ledger, op: Op)
    requires Valid(l) && op.Rollback? && Apply(l, op).1.None?
    ensures Valid(Apply(l, op).0)
  {
  }

  lemma ApplyKeepsValid(l: Ledger, op: Op)
    requires Valid(l)
    ensures Valid(Apply(l, op).0)
  {
    if Apply(l, op).1.None? {
      if op.Create? {
        CreateKeepsValid(l, op);
      } else if op.Promote? {
        AboutAfterSuperseding(l.manifests, l.rows, op.tenant, op.digest);
        AboutSnoc(l.manifests, Superseding(l.rows, op.tenant, op.digest), Row(op.id, op.tenant, op.digest, Active, op.now));
      } else {
        RollbackKeepsValid(l, op);
      }
    }
  }

  /** Superseding and appending leaves exactly the appended manifest active. */
  lemma ActivatingAlone(rows: seq<Row>, r: Row)
    requires r.status == Active
    ensures ExactlyActive(Superseding(rows, r.tenant, r.digest) + [r], r.tenant, r.digest)
  {
    var after := Superseding(rows, r.tenant, r.digest) + [r];
    assert ActiveOf(after[|rows|], r.tenant);
  }

  predicate CreatesActive(op: Op) {
    op.Create? && op.status == "active"
  }

  lemma AppendInactive(rows: seq<Row>, r: Row, tenant: string)
    requires OneActive(rows, tenant) && r.status != Active
    ensures OneActive(rows + [r], tenant)
  {
  }

  lemma ActivateKeepsOne(rows: seq<Row>, r: Row, tenant: string)
    requires OneActive(rows, tenant) && r.status == Active
    ensures OneActive(Superseding(rows, r.tenant, r.digest) + [r], tenant)
  {
  }

  /** Each canary creation, promotion and rollback keeps at most one manifest of
      every tenant active. */
  lemma StepKeepsOneActive(l: Ledger, op: Op, tenant: string)
    requires OneActive(l.rows, tenant) && !CreatesActive(op)
    ensures OneActive(Apply(l, op).0.rows, tenant)
  {
    if Apply(l, op).1.None? {
      if op.Create? {
        AppendInactive(l.rows, Row(op.id, op.tenant, op.digest, Canary, op.now), tenant);
      } else if op.Promote? {
        ActivateKeepsOne(l.rows, Row(op.id, op.tenant, op.digest, Active, op.now), tenant);
      } else {
        RollbackRows(l, op);
        var r := Row(op.id, op.tenant, op.digest, RolledBack, op.now);
        AppendInactive(l.rows, r, tenant);
        if PriorOf(l, op).Some? {
          ActivateKeepsOne(l.rows + [r], Row(op.priorId, op.tenant, PriorOf(l, op).value, Active, op.now), tenant);
        }
      }
    }
  }

  lemma NewDigest(l: Ledger, tenant: string, digest: string)
    requires Valid(l) && FindManifest(l.manifests, tenant, digest).None?
    ensures forall i :: 0 <= i < |l.rows| ==> !Of(l.rows[i], tenant, digest)
  {
  }

  /** Creating a release as active does not supersede: it keeps the tenant at one
      active manifest exactly when none was active before. */
  lemma CreateActiveKeepsOneIff(l: Ledger, op: Op)
    requires Valid(l) && CreatesActive(op) && Apply(l, op).1.None?
    ensures OneActive(Apply(l, op).0.rows, op.tenant) <==> NoneActive(l.rows, op.tenant)
  {
    var after := Apply(l, op).0.rows;
    var n := |l.rows|;
    NewDigest(l, op.tenant, op.digest);
    assert ActiveOf(after[n], op.tenant) && after[n].digest == op.digest;
    assert forall i :: 0 <= i < n ==> after[i] == l.rows[i];
    if NoneActive(l.rows, op.tenant) {
      assert OneActive(after, op.tenant);
    } else {
      var i :| 0 <= i < n && ActiveOf(l.rows[i], op.tenant);
      assert !Of(l.rows[i], op.tenant, op.digest);
      assert after[i].digest != after[n].digest;
    }
  }

  // -- what promotion and rollback establish ---------------------------------------------

  /** Each promotion leaves exactly the promoted manifest active. */
  lemma PromotionActivatesAlone(l: Ledger, op: Op)
    requires op.Promote? && Apply(l, op).1.None?
    ensures ExactlyActive(Apply(l, op).0.rows, op.tenant, op.digest)
  {
    ActivatingAlone(l.rows, Row(op.id, op.tenant, op.digest, Active, op.now));
  }

  lemma {:induction false} FoundPrior(ms: seq<Manifest>, tenant: string, digest: string)
    requires Rooted(ms) && FindManifest(ms, tenant, digest).Some?
    ensures var m := FindManifest(ms, tenant, digest).value;
            m.prior.Some? ==> m.prior.value != digest && FindManifest(ms, tenant, m.prior.value).Some?
  {
    FindManifestIs(ms, tenant, digest);
    var m := FindManifest(ms, tenant, digest).value;
    var i :| 0 <= i < |ms| && ms[i] == m;
    if m.prior.Some? {
      FindManifestIs(ms[..i], tenant, m.prior.value);
      FindManifestIs(ms, tenant, m.prior.value);
      var k :| 0 <= k < i && ms[..i][k].tenant == tenant && ms[..i][k].digest == m.prior.value;
      assert ms[k].digest == m.prior.value;
    }
  }

  /** A rollback is refused only for want of a manifest or a live activation: the
      prior it names is always there and is never the release itself. */
  lemma RollbackAcceptedIff(l: Ledger, op: Op)
    requires Valid(l) && op.Rollback?
    ensures Apply(l, op).1.None? <==>
              && FindManifest(l.manifests, op.tenant, op.digest).Some?
              && (LatestStatus(l.rows, op.tenant, op.digest) == Some(Canary)
                  || LatestStatus(l.rows, op.tenant, op.digest) == Some(Active))
    ensures PriorOf(l, op) != Some(op.digest)
  {
    if FindManifest(l.manifests, op.tenant, op.digest).Some? {
      FoundPrior(l.manifests, op.tenant, op.digest);
    }
  }

  /** Each rollback of a release with a prior leaves exactly that prior active. */
  lemma RollbackRestoresPrior(l: Ledger, op: Op)
    requires op.Rollback? && Apply(l, op).1.None? && PriorOf(l, op).Some?
    ensures ExactlyActive(Apply(l, op).0.rows, op.tenant, PriorOf(l, op).value)
  {
    ActivatingAlone(l.rows + [Row(op.id, op.tenant, op.digest, RolledBack, op.now)],
                    Row(op.priorId, op.tenant, PriorOf(l, op).value, Active, op.now));
  }

  /** The transaction's time is after every recorded one. */
  predicate Fresh(rows: seq<Row>, now: nat) {
    forall i :: 0 <= i < |rows| ==> rows[i].createdAt < now
  }

  lemma {:induction false} LatestIsOneOf(rows: seq<Row>, tenant: string, digest: string)
    ensures var latest := Latest(rows, tenant, digest);
            latest.Some? ==> latest.value in rows && Of(latest.value, tenant, digest)
  {
    if rows != [] {
      LatestIsOneOf(rows[..|rows| - 1], tenant, digest);
    }
  }

  lemma LatestSnoc(rows: seq<Row>, r: Row, tenant: string, digest: string)
    ensures Latest(rows + [r], tenant, digest) ==
            var best := Latest(rows, tenant, digest);
            if Of(r, tenant, digest) && (best.None? || Later(r, best.value)) then Some(r) else best
  {
  }

  lemma NewestIsLatest(rows: seq<Row>, r: Row)
    requires Fresh(rows, r.createdAt)
    ensures Latest(rows + [r], r.tenant, r.digest) == Some(r)
  {
    LatestSnoc(rows, r, r.tenant, r.digest);
    LatestIsOneOf(rows, r.tenant, r.digest);
  }

  lemma SupersedingKeepsFresh(rows: seq<Row>, tenant: string, digest: string, now: nat)
    requires Fresh(rows, now)
    ensures Fresh(Superseding(rows, tenant, digest), now)
  {
  }

  function Updated(r: Row, tenant: string, digest: string): Row {
    if IsOtherActive(r, tenant, digest) then r.(status := Superseded) else r
  }

  /** Superseding changes a status in place, never which row is latest. */
  lemma {:induction false} LatestAfterSuperseding(rows: seq<Row>, tenant: string, digest: string, t: string, d: string)
    ensures var before, after := Latest(rows, t, d), Latest(Superseding(rows, tenant, digest), t, d);
            after == if before.Some? then Some(Updated(before.value, tenant, digest)) else None
  {
    if rows != [] {
      var init := rows[..|rows| - 1];
      LatestAfterSuperseding(init, tenant, digest, t, d);
      var rest := Superseding(rows, tenant, digest);
      assert rest[..|rows| - 1] == Superseding(init, tenant, digest);
    }
  }

  /** With transaction times increasing, the promoted manifest's latest status is
      active, the rolled-back one's is rolled_back and its prior's is active. */
  lemma PromotionShows(l: Ledger, op: Op)
    requires op.Promote? && Apply(l, op).1.None? && Fresh(l.rows, op.now)
    ensures LatestStatus(Apply(l, op).0.rows, op.tenant, op.digest) == Some(Active)
  {
    SupersedingKeepsFresh(l.rows, op.tenant, op.digest, op.now);
    NewestIsLatest(Superseding(l.rows, op.tenant, op.digest), Row(op.id, op.tenant, op.digest, Active, op.now));
  }

  lemma RollbackShows(l: Ledger, op: Op)
    requires Valid(l) && op.Rollback? && Apply(l, op).1.None? && Fresh(l.rows, op.now)
    ensures LatestStatus(Apply(l, op).0.rows, op.tenant, op.digest) == Some(RolledBack)
    ensures PriorOf(l, op).Some? ==>
              LatestStatus(Apply(l, op).0.rows, op.tenant, PriorOf(l, op).value) == Some(Active)
  {
    RollbackAcceptedIff(l, op);
    var r := Row(op.id, op.tenant, op.digest, RolledBack, op.now);
    NewestIsLatest(l.rows, r);
    if PriorOf(l, op).Some? {
      var p := PriorOf(l, op).value;
      var a := Row(op.priorId, op.tenant, p, Active, op.now);
      var rolled := Superseding(l.rows + [r], op.tenant, p);
      LatestAfterSuperseding(l.rows + [r], op.tenant, p, op.tenant, op.digest);
      LatestSnoc(rolled, a, op.tenant, op.digest);
      LatestAfterSuperseding(l.rows + [r], op.tenant, p, op.tenant, p);
      LatestSnoc(l.rows, r, op.tenant, p);
      LatestIsOneOf(l.rows, op.tenant, p);
      LatestSnoc(rolled, a, op.tenant, p);
    }
  }

  /** Some `active` row of the tenant is the manifest's. */
  predicate CarriesActive(rows: seq<Row>, tenant: string, digest: string) {
    exists i :: 0 <= i < |rows| && ActiveOf(rows[i], tenant) && rows[i].digest == digest
  }

  lemma CarriesSnoc(rows: seq<Row>, r: Row, tenant: string, digest: string)
    ensures CarriesActive(rows + [r], tenant, digest) <==>
              CarriesActive(rows, tenant, digest) || (ActiveOf(r, tenant) && r.digest == digest)
  {
    var more := rows + [r];
    if CarriesActive(rows, tenant, digest) {
      var i :| 0 <= i < |rows| && ActiveOf(rows[i], tenant) && rows[i].digest == digest;
      assert more[i] == rows[i];
    }
    assert more[|rows|] == r;
  }

  /** A rolled-back release keeps an `active` row exactly when it names no prior
      and had one: only restoring a prior supersedes. */
  lemma RollbackLeavesActiveIff(l: Ledger, op: Op)
    requires Valid(l) && op.Rollback? && Apply(l, op).1.None?
    ensures CarriesActive(Apply(l, op).0.rows, op.tenant, op.digest)
       <==> PriorOf(l, op).None? && CarriesActive(l.rows, op.tenant, op.digest)
  {
    RollbackRows(l, op);
    RollbackAcceptedIff(l, op);
    if PriorOf(l, op).Some? {
      RollbackRestoresPrior(l, op);
    } else {
      CarriesSnoc(l.rows, Row(op.id, op.tenant, op.digest, RolledBack, op.now), op.tenant, op.digest);
    }
  }

  /** Without a prior nothing is superseded: every row stays, and rolling back the
      active release leaves its own `active` row beside a latest status of
      rolled_back. */
  lemma RollbackWithoutPriorLeavesRows(l: Ledger, op: Op)
    requires Valid(l) && op.Rollback? && Apply(l, op).1.None? && PriorOf(l, op).None? && Fresh(l.rows, op.now)
    ensures Apply(l, op).0.rows[..|l.rows|] == l.rows
    ensures LatestStatus(Apply(l, op).0.rows, op.tenant, op.digest) == Some(RolledBack)
    ensures LatestStatus(l.rows, op.tenant, op.digest) == Some(Active) ==>
              CarriesActive(Apply(l, op).0.rows, op.tenant, op.digest)
  {
    RollbackShows(l, op);
    RollbackLeavesActiveIff(l, op);
    LatestIsOneOf(l.rows, op.tenant, op.digest);
  }

  // -- which calls are accepted ----------------------------------------------------------

  /** Row `i` is the manifest's newest: no other of its rows has a later creation
      time, a later id at the same time, or an earlier place at the same both. */
  predicate NewestAt(rows: seq<Row>, tenant: string, digest: string, i: nat) {
    && i < |rows| && Of(rows[i], tenant, digest)
    && forall j :: 0 <= j < |rows| && Of(rows[j], tenant, digest) ==> NotAfter(rows, j, i)
  }

  predicate NotAfter(rows: seq<Row>, j: nat, i: nat)
    requires j < |rows| && i < |rows|
  {
    || rows[j].createdAt < rows[i].createdAt
    || (rows[j].createdAt == rows[i].createdAt && rows[j].id < rows[i].id)
    || (rows[j].createdAt == rows[i].createdAt && rows[j].id == rows[i].id && i <= j)
  }

  lemma OneNewest(rows: seq<Row>, tenant: string, digest: string, i: nat, j: nat)
    requires NewestAt(rows, tenant, digest, i) && NewestAt(rows, tenant, digest, j)
    ensures i == j
  {
    assert NotAfter(rows, j, i) && NotAfter(rows, i, j);
  }

  lemma NewestKept(rows: seq<Row>, r: Row, tenant: string, digest: string, i: nat)
    requires NewestAt(rows, tenant, digest, i) && !(Of(r, tenant, digest) && Later(r, rows[i]))
    ensures NewestAt(rows + [r], tenant, digest, i)
  {
    var more := rows + [r];
    forall j | 0 <= j < |more| && Of(more[j], tenant, digest) ensures NotAfter(more, j, i) {
      assert j < |rows| ==> NotAfter(rows, j, i);
    }
  }

  lemma NewestTaken(rows: seq<Row>, r: Row, tenant: string, digest: string, i: nat)
    requires NewestAt(rows, tenant, digest, i) && Of(r, tenant, digest) && Later(r, rows[i])
    ensures NewestAt(rows + [r], tenant, digest, |rows|)
  {
    var more := rows + [r];
    forall j | 0 <= j < |more| && Of(more[j], tenant, digest) ensures NotAfter(more, j, |rows|) {
      assert j < |rows| ==> NotAfter(rows, j, i);
    }
  }

  /** The latest row is the newest of the manifest's, and there is one when it has
      any row. */
  lemma {:induction false} LatestIsNewest(rows: seq<Row>, tenant: string, digest: string) returns (i: nat)
    ensures Latest(rows, tenant, digest).Some? ==>
              NewestAt(rows, tenant, digest, i) && rows[i] == Latest(rows, tenant, digest).value
    ensures Latest(rows, tenant, digest).None? ==> forall j :: 0 <= j < |rows| ==> !Of(rows[j], tenant, digest)
  {
    i := 0;
    if rows != [] {
      var init, r := rows[..|rows| - 1], rows[|rows| - 1];
      assert rows == init + [r];
      i := LatestIsNewest(init, tenant, digest);
      var best := Latest(init, tenant, digest);
      if best.None? {
        assert forall j :: 0 <= j < |init| ==> !Of(init[j], tenant, digest);
        i := |init|;
      } else if Of(r, tenant, digest) && Later(r, best.value) {
        NewestTaken(init, r, tenant, digest, i);
        i := |init|;
      } else {
        NewestKept(init, r, tenant, digest, i);
      }
    }
  }

  /** The manifest's newest row has the status. */
  ghost predicate Shows(rows: seq<Row>, tenant: string, digest: string, status: Status) {
    exists i: nat :: NewestAt(rows, tenant, digest, i) && rows[i].status == status
  }

  lemma LatestShows(rows: seq<Row>, tenant: string, digest: string, status: Status)
    ensures LatestStatus(rows, tenant, digest) == Some(status) <==> Shows(rows, tenant, digest, status)
  {
    var i := LatestIsNewest(rows, tenant, digest);
    if k: nat :| NewestAt(rows, tenant, digest, k) && rows[k].status == status {
      assert Of(rows[k], tenant, digest);
      OneNewest(rows, tenant, digest, i, k);
    }
  }

  ghost predicate Known(ms: seq<Manifest>, tenant: string, digest: string) {
    exists i :: 0 <= i < |ms| && ms[i].tenant == tenant && ms[i].digest == digest
  }

  /** A promotion is accepted exactly when the tenant has the manifest, its newest
      row is a canary and the scaffold gate lets it pass. */
  lemma PromotionAcceptedIff(l: Ledger, op: Op)
    requires op.Promote?
    ensures Apply(l, op).1.None? <==>
              Known(l.manifests, op.tenant, op.digest) && Shows(l.rows, op.tenant, op.digest, Canary) && op.scaffoldOk
  {
    FindManifestIs(l.manifests, op.tenant, op.digest);
    LatestShows(l.rows, op.tenant, op.digest, Canary);
  }

  /** A release is created exactly under a new digest, as a canary or active, with
      a prior the tenant has when it names one, and past both gates. */
  lemma CreationAcceptedIff(l: Ledger, op: Op)
    requires op.Create?
    ensures Apply(l, op).1.None? <==>
              && (op.status == "canary" || op.status == "active")
              && !Known(l.manifests, op.tenant, op.digest)
              && (op.prior.Some? ==> Known(l.manifests, op.tenant, op.prior.value))
              && op.scaffoldOk && op.activates
  {
    FindManifestIs(l.manifests, op.tenant, op.digest);
    if op.prior.Some? {
      FindManifestIs(l.manifests, op.tenant, op.prior.value);
    }
  }

  /** Why a creation is refused: the first of these that holds. */
  lemma CreationRefusal(l: Ledger, op: Op)
    requires op.Create?
    ensures op.status != "canary" && op.status != "active" ==> Apply(l, op).1 == Some(BadStatus)
    ensures op.status == "canary" || op.status == "active" ==>
              && (!op.scaffoldOk ==> Apply(l, op).1 == Some(ScaffoldRefused))
              && (op.scaffoldOk && op.prior.Some? && !Known(l.manifests, op.tenant, op.prior.value) ==>
                   Apply(l, op).1 == Some(NotFound))
              && (op.scaffoldOk && op.prior == Some(op.digest) && Known(l.manifests, op.tenant, op.digest) ==>
                   Apply(l, op).1 == Some(Circular))
  {
    FindManifestIs(l.manifests, op.tenant, op.digest);
    if op.prior.Some? {
      FindManifestIs(l.manifests, op.tenant, op.prior.value);
    }
  }

  /** What activating a manifest does to a row that was there: the tenant's active
      rows of other manifests are superseded, and no other row changes, not even
      the manifest's own. */
  predicate BesideActivation(was: Row, r: Row, tenant: string, digest: string) {
    r == if was.tenant == tenant && was.status == Active && was.digest != digest then was.(status := Superseded) else was
  }

  lemma PromotionRowByRow(l: Ledger, op: Op, i: nat)
    requires op.Promote? && Apply(l, op).1.None?
    ensures var rows := Apply(l, op).0.rows;
            && |rows| == |l.rows| + 1 && rows[|l.rows|] == Row(op.id, op.tenant, op.digest, Active, op.now)
            && (i < |l.rows| ==> BesideActivation(l.rows[i], rows[i], op.tenant, op.digest))
    ensures Apply(l, op).0.manifests == l.manifests
  {
  }

  lemma RollbackRowByRow(l: Ledger, op: Op, i: nat)
    requires op.Rollback? && Apply(l, op).1.None?
    ensures var rows, n := Apply(l, op).0.rows, |l.rows|;
            && |rows| == n + (if PriorOf(l, op).Some? then 2 else 1)
            && rows[n] == Row(op.id, op.tenant, op.digest, RolledBack, op.now)
            && (PriorOf(l, op).Some? ==> rows[n + 1] == Row(op.priorId, op.tenant, PriorOf(l, op).value, Active, op.now))
            && (i < n ==> if PriorOf(l, op).Some? then BesideActivation(l.rows[i], rows[i], op.tenant, PriorOf(l, op).value)
                          else rows[i] == l.rows[i])
    ensures Apply(l, op).0.manifests == l.manifests
  {
    RollbackRows(l, op);
    var rolled := l.rows + [Row(op.id, op.tenant, op.digest, RolledBack, op.now)];
    assert i < |l.rows| ==> rolled[i] == l.rows[i];
  }

  /** Whatever refuses a call, the ledger is as it was; a call that is accepted
      adds a row, so it never is. */
  lemma RefusedIffUnchanged(l: Ledger, op: Op)
    ensures Apply(l, op).1.Some? <==> Apply(l, op).0 == l
  {
    if Apply(l, op).1.None? {
      assert |Apply(l, op).0.rows| > |l.rows|;
    }
  }

  /** A promoted release is not in canary any more: promoting it again is refused. */
  lemma PromotedOnce(l: Ledger, op: Op, again: Op)
    requires op.Promote? && Apply(l, op).1.None? && Fresh(l.rows, op.now)
    requires again.Promote? && again.tenant == op.tenant && again.digest == op.digest
    ensures Apply(Apply(l, op).0, again) == (Apply(l, op).0, Some(NotInCanary))
  {
    PromotionShows(l, op);
  }

  // -- runs -------------------------------------------------------------------------------

  function Run(l: Ledger, ops: seq<Op>): Ledger {
    if ops == [] then l else Apply(Run(l, ops[..|ops| - 1]), ops[|ops| - 1]).0
  }

  predicate NoneCreatesActive(ops: seq<Op>) {
    forall i :: 0 <= i < |ops| ==> !CreatesActive(ops[i])
  }

  /** Over every run of canary creations, promotions and rollbacks by any tenants,
      no tenant ever has two active manifests and no prior ever goes missing. */
  lemma {:induction false} EveryRunKeepsOneActive(l: Ledger, ops: seq<Op>, tenant: string)
    requires Valid(l) && OneActive(l.rows, tenant) && NoneCreatesActive(ops)
    ensures Valid(Run(l, ops)) && OneActive(Run(l, ops).rows, tenant)
  {
    if ops != [] {
      EveryRunKeepsOneActive(l, ops[..|ops| - 1], tenant);
      ApplyKeepsValid(Run(l, ops[..|ops| - 1]), ops[|ops| - 1]);
      StepKeepsOneActive(Run(l, ops[..|ops| - 1]), ops[|ops| - 1], tenant);
    }
  }

  /** A release created in canary without a prior, promoted and rolled back. */
  function CanaryPromotedRolledBack(tenant: string, digest: string): seq<Op> {
    [Create(tenant, digest, None, "canary", true, true, 0, 1), Promote(tenant, digest, true, 1, 2),
     Rollback(tenant, digest, 2, 3, 3)]
  }

  lemma RunThree(l: Ledger, a: Op, b: Op, c: Op)
    ensures Run(l, [a, b, c]) == Apply(Apply(Apply(l, a).0, b).0, c).0
  {
    assert [a, b, c][..2] == [a, b] && [a, b][..1] == [a] && [a][..0] == [];
    assert Run(l, [a]) == Apply(Run(l, []), a).0;
    assert Run(l, [a, b]) == Apply(Run(l, [a]), b).0;
  }

  lemma CanaryCreated(tenant: string, digest: string)
    ensures Apply(Ledger([], []), Create(tenant, digest, None, "canary", true, true, 0, 1))
         == (Ledger([Manifest(tenant, digest, None)], [Row(0, tenant, digest, Canary, 1)]), None)
  {
    var l := Ledger([], []);
    assert FindManifest(l.manifests, tenant, digest).None?;
    assert l.manifests + [Manifest(tenant, digest, None)] == [Manifest(tenant, digest, None)];
    assert l.rows + [Row(0, tenant, digest, Canary, 1)] == [Row(0, tenant, digest, Canary, 1)];
  }

  lemma CanaryPromoted(tenant: string, digest: string)
    ensures Apply(Ledger([Manifest(tenant, digest, None)], [Row(0, tenant, digest, Canary, 1)]),
                  Promote(tenant, digest, true, 1, 2))
         == (Ledger([Manifest(tenant, digest, None)],
                    [Row(0, tenant, digest, Canary, 1), Row(1, tenant, digest, Active, 2)]), None)
  {
    var m, r, a := Manifest(tenant, digest, None), Row(0, tenant, digest, Canary, 1), Row(1, tenant, digest, Active, 2);
    FindManifestSnoc([], m, tenant, digest);
    NewestIsLatest([], r);
    assert [] + [m] == [m] && [] + [r] == [r];
    assert Superseding([r], tenant, digest) == [r];
    assert [r] + [a] == [r, a];
  }

  /** From the empty ledger three accepted calls leave the tenant without a live
      release and the rolled-back one with an `active` row. */
  lemma ActiveRowOutlivesRollback(tenant: string, digest: string)
    ensures var rows := Run(Ledger([], []), CanaryPromotedRolledBack(tenant, digest)).rows;
            LatestStatus(rows, tenant, digest) == Some(RolledBack) && CarriesActive(rows, tenant, digest)
  {
    var ops := CanaryPromotedRolledBack(tenant, digest);
    var m := Manifest(tenant, digest, None);
    var r, a := Row(0, tenant, digest, Canary, 1), Row(1, tenant, digest, Active, 2);
    RunThree(Ledger([], []), ops[0], ops[1], ops[2]);
    CanaryCreated(tenant, digest);
    CanaryPromoted(tenant, digest);
    var l := Ledger([m], [r, a]);
    FindManifestSnoc([], m, tenant, digest);
    assert [] + [m] == [m] && [r] + [a] == [r, a];
    NewestIsLatest([r], a);
    RollbackAcceptedIff(l, ops[2]);
    RollbackWithoutPriorLeavesRows(l, ops[2]);
  }

  /** The rows of one tenant. */
  function RowsOf(rows: seq<Row>, tenant: string): seq<Row> {
    if rows == [] then []
    else RowsOf(rows[..|rows| - 1], tenant) + (if rows[|rows| - 1].tenant == tenant then [rows[|rows| - 1]] else [])
  }

  lemma RowsOfSnoc(rows: seq<Row>, r: Row, tenant: string)
    ensures RowsOf(rows + [r], tenant) == RowsOf(rows, tenant) + (if r.tenant == tenant then [r] else [])
  {
  }

  lemma {:induction false} SupersedingSpares(rows: seq<Row>, tenant: string, digest: string, other: string)
    requires other != tenant
    ensures RowsOf(Superseding(rows, tenant, digest), other) == RowsOf(rows, other)
  {
    if rows != [] {
      var init := rows[..|rows| - 1];
      SupersedingSpares(init, tenant, digest, other);
      assert Superseding(rows, tenant, digest)[..|init|] == Superseding(init, tenant, digest);
    }
  }

  lemma ActivatingSpares(rows: seq<Row>, r: Row, other: string)
    requires other != r.tenant
    ensures RowsOf(Superseding(rows, r.tenant, r.digest) + [r], other) == RowsOf(rows, other)
  {
    SupersedingSpares(rows, r.tenant, r.digest, other);
    RowsOfSnoc(Superseding(rows, r.tenant, r.digest), r, other);
  }

  /** No operation touches another tenant's rows. */
  lemma OtherTenantsUntouched(l: Ledger, op: Op, other: string)
    requires other != op.tenant
    ensures RowsOf(Apply(l, op).0.rows, other) == RowsOf(l.rows, other)
  {
    if Apply(l, op).1.None? {
      if op.Create? {
        RowsOfSnoc(l.rows, Row(op.id, op.tenant, op.digest, StatusNamed(op.status).value, op.now), other);
      } else if op.Promote? {
        ActivatingSpares(l.rows, Row(op.id, op.tenant, op.digest, Active, op.now), other);
      } else {
        RollbackRows(l, op);
        var r := Row(op.id, op.tenant, op.digest, RolledBack, op.now);
        RowsOfSnoc(l.rows, r, other);
        if PriorOf(l, op).Some? {
          ActivatingSpares(l.rows + [r], Row(op.priorId, op.tenant, PriorOf(l, op).value, Active, op.now), other);
        }
      }
    }
  }

  // -- the service --------------------------------------------------------------------------

  class ReleaseService {
    var manifests: seq<Manifest>
    var rows: seq<Row>

    function Contents(): Ledger
      reads this
    {
      Ledger(manifests, rows)
    }

    constructor ()
      ensures Contents() == Ledger([], []) && Valid(Contents())
    {
      manifests := [];
      rows := [];
    }

    /** Rewrites the status of every other active row in place. */
    method SupersedeOtherActive(tenant: string, digest: string)
      modifies this`rows
      ensures rows == Superseding(old(rows), tenant, digest)
    {
      ghost var before := rows;
      ghost var after := Superseding(rows, tenant, digest);
      for i := 0 to |rows|
        invariant |rows| == |before|
        invariant forall k :: 0 <= k < i ==> rows[k] == after[k]
        invariant forall k :: i <= k < |rows| ==> rows[k] == before[k]
      {
        if IsOtherActive(rows[i], tenant, digest) {
          rows := rows[i := rows[i].(status := Superseded)];
        }
      }
    }

    method CreateRelease(tenant: string, digest: string, prior: Option<string>, status: string,
                         scaffoldOk: bool, activates: bool, id: nat, now: nat) returns (error: Option<ReleaseError>)
      modifies this
      ensures (Contents(), error) == Apply(old(Contents()), Create(tenant, digest, prior, status, scaffoldOk, activates, id, now))
    {
      var named := StatusNamed(status);
      if named.None? {
        return Some(BadStatus);
      }
      if !scaffoldOk {
        return Some(ScaffoldRefused);
      }
      if prior.Some? && FindManifest(manifests, tenant, prior.value).None? {
        return Some(NotFound);
      }
      if prior == Some(digest) {
        return Some(Circular);
      }
      if FindManifest(manifests, tenant, digest).Some? {
        return Some(Duplicate);
      }
      var before := manifests;
      manifests := manifests + [Manifest(tenant, digest, prior)];
      if !activates {
        manifests := before;
        return Some(ActivationRefused);
      }
      rows := rows + [Row(id, tenant, digest, named.value, now)];
      return None;
    }

    method PromoteRelease(tenant: string, digest: string, scaffoldOk: bool, id: nat, now: nat)
      returns (error: Option<ReleaseError>)
      modifies this
      ensures (Contents(), error) == Apply(old(Contents()), Promote(tenant, digest, scaffoldOk, id, now))
    {
      if FindManifest(manifests, tenant, digest).None? {
        return Some(NotFound);
      }
      if LatestStatus(rows, tenant, digest) != Some(Canary) {
        return Some(NotInCanary);
      }
      if !scaffoldOk {
        return Some(ScaffoldRefused);
      }
      SupersedeOtherActive(tenant, digest);
      rows := rows + [Row(id, tenant, digest, Active, now)];
      return None;
    }

    /** The rolled-back row is added before the prior is looked up; when that
        raises, the session takes it back. */
    method RollbackRelease(tenant: string, digest: string, id: nat, priorId: nat, now: nat)
      returns (error: Option<ReleaseError>)
      modifies this
      ensures (Contents(), error) == Apply(old(Contents()), Rollback(tenant, digest, id, priorId, now))
    {
      var manifest := FindManifest(manifests, tenant, digest);
      if manifest.None? {
        return Some(NotFound);
      }
      var latest := LatestStatus(rows, tenant, digest);
      if latest != Some(Canary) && latest != Some(Active) {
        return Some(NothingLive);
      }
      var before := rows;
      rows := rows + [Row(id, tenant, digest, RolledBack, now)];
      var prior := manifest.value.prior;
      if prior.Some? {
        if FindManifest(manifests, tenant, prior.value).None? {
          rows := before;
          return Some(NotFound);
        }
        SupersedeOtherActive(tenant, prior.value);
        rows := rows + [Row(priorId, tenant, prior.value, Active, now)];
      }
      return None;
    }
  }
}
