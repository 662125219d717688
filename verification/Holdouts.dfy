/** Sealed holdout handles: budgeted capabilities with an append-only ledger.
    Tables are sequences of rows and a committed session is one atomic step;
    a session that raises leaves the tables as they were. Times are in days. */
module Holdouts {
  import opened Wrappers
  import opened Sorting
  import opened RealSums

  datatype Denial = RoleNotEvaluator | TenantMismatch | HandleRevoked | HandleExpired | AlphaBudgetExhausted

  datatype Principal = Principal(identityId: string, isEvaluator: bool, tenantId: string)

  datatype Partition = Partition(
    tenantId: string,
    isSealed: bool,
    contentLocator: string,
    contentDigest: string,
    itemCount: int)

  datatype Handle = Handle(
    id: string,
    tenantId: string,
    partitionId: string,
    tokenDigest: string,
    expiresAt: real,
    freshnessWindowDays: int,
    rotatedAt: Option<real>,
    rotationCount: nat,
    revokedAt: Option<real>,
    alphaBudgetTotal: real,
    alphaSpent: real,
    alphaPerQuery: real)
  {
    function AlphaRemaining(): real {
      alphaBudgetTotal - alphaSpent
    }
  }

  datatype Entry = Entry(
    tenantId: string,
    handleId: string,
    tokenDigest: string,
    partitionId: string,
    callerIdentity: string,
    purpose: string,
    denialReason: Option<Denial>,
    alphaSpent: real,
    alphaRemaining: real,
    occurredAt: real)
  {
    /** The outcome column: granted exactly when no reason is recorded. */
    predicate Granted() {
      denialReason.None?
    }
  }

  datatype Tables = Tables(partitions: map<string, Partition>, handles: seq<Handle>, ledger: seq<Entry>)

  datatype BudgetReport = BudgetReport(total: real, spent: real, remaining: real, perQuery: real, queriesRemaining: int)

  datatype ContentRef = ContentRef(partitionId: string, contentLocator: string, resolvedAt: real, budget: BudgetReport)

  datatype HoldoutError =
    | HandleNotFound
    | PartitionNotFound
    | NotSealed
    | IntegrityViolation
    | AccessDenied(reason: Denial)

  /** The table only holds positive prices; the guard keeps the division total. */
  function BuildBudgetReport(h: Handle): BudgetReport {
    var remaining := h.AlphaRemaining();
    BudgetReport(h.alphaBudgetTotal, h.alphaSpent, remaining, h.alphaPerQuery,
                 if remaining > 0.0 && h.alphaPerQuery > 0.0 then (remaining / h.alphaPerQuery).Floor else 0)
  }

  const HANDLE_PREFIX := "holdout://"

  function ParseHandleUri(uri: string): Result<string, HoldoutError> {
    if !(HANDLE_PREFIX <= uri) then Err(HandleNotFound)
    else if uri[|HANDLE_PREFIX|..] == "" then Err(HandleNotFound)
    else Ok(uri[|HANDLE_PREFIX|..])
  }

  function BuildHandleUri(token: string): string {
    HANDLE_PREFIX + token
  }

  lemma HandleUriRoundTrip(token: string, uri: string)
    ensures ParseHandleUri(BuildHandleUri(token)) == if token == "" then Err(HandleNotFound) else Ok(token)
    ensures ParseHandleUri(uri) == Ok(token) ==> uri == BuildHandleUri(token)
  {
  }

  // -- the steps ------------------------------------------------------------------

  function Lookup(handles: seq<Handle>, tokenDigest: string): (r: Option<nat>)
    ensures r.Some? ==> r.value < |handles| && handles[r.value].tokenDigest == tokenDigest
    ensures r.None? ==> forall i :: 0 <= i < |handles| ==> handles[i].tokenDigest != tokenDigest
  {
    if handles == [] then None
    else if handles[|handles| - 1].tokenDigest == tokenDigest then Some(|handles| - 1)
    else Lookup(handles[..|handles| - 1], tokenDigest)
  }

  function MutationDenial(p: Principal, h: Handle): Option<Denial> {
    if !p.isEvaluator then Some(RoleNotEvaluator)
    else if h.tenantId != p.tenantId then Some(TenantMismatch)
    else None
  }

  /** The checks in order of authority: who asks and for whom comes before what the
      handle still permits, so an outsider learns and changes nothing. */
  function DenialReason(p: Principal, h: Handle, now: real): Option<Denial> {
    if !p.isEvaluator then Some(RoleNotEvaluator)
    else if h.tenantId != p.tenantId then Some(TenantMismatch)
    else if h.revokedAt.Some? then Some(HandleRevoked)
    else if h.expiresAt <= now then Some(HandleExpired)
    else if h.AlphaRemaining() < h.alphaPerQuery then Some(AlphaBudgetExhausted)
    else None
  }

  function EntryFor(h: Handle, p: Principal, purpose: string, denial: Option<Denial>, spend: real, now: real): Entry {
    Entry(h.tenantId, h.id, h.tokenDigest, h.partitionId, p.identityId, purpose, denial, spend, h.AlphaRemaining(), now)
  }

  /** A cross-tenant caller is told the handle does not exist. */
  function Raised(denial: Denial): HoldoutError {
    if denial == TenantMismatch then HandleNotFound else AccessDenied(denial)
  }

  datatype Op =
    | Issue(principal: Principal, partitionId: string, total: real, perQuery: real, windowDays: int,
            newId: string, newDigest: string, now: real)
    | Resolve(principal: Principal, tokenDigest: string, purpose: string, now: real)
    | Rotate(principal: Principal, tokenDigest: string, newDigest: string, now: real)
    | Revoke(principal: Principal, tokenDigest: string, now: real)

  datatype Answer = Issued(handle: Handle) | Content(ref: ContentRef) | Revoked(handle: Handle)

  datatype Outcome = Outcome(tables: Tables, answer: Result<Answer, HoldoutError>)

  function IssueOf(t: Tables, op: Op): Outcome
    requires op.Issue?
  {
    if !op.principal.isEvaluator then Outcome(t, Err(AccessDenied(RoleNotEvaluator)))
    else if op.partitionId !in t.partitions || t.partitions[op.partitionId].tenantId != op.principal.tenantId
    then Outcome(t, Err(PartitionNotFound))
    else if !t.partitions[op.partitionId].isSealed then Outcome(t, Err(NotSealed))
    else if op.total < 0.0 || op.perQuery <= 0.0 || Taken(t.handles, op.newId, op.newDigest)
    then Outcome(t, Err(IntegrityViolation))
    else
      var h := Handle(op.newId, op.principal.tenantId, op.partitionId, op.newDigest,
                      op.now + op.windowDays as real, op.windowDays, None, 0, None, op.total, 0.0, op.perQuery);
      Outcome(t.(handles := t.handles + [h]), Ok(Issued(h)))
  }

  predicate Taken(handles: seq<Handle>, id: string, tokenDigest: string) {
    exists i :: 0 <= i < |handles| && (handles[i].id == id || handles[i].tokenDigest == tokenDigest)
  }

  function DeniedOutcome(t: Tables, h: Handle, p: Principal, purpose: string, denial: Denial, now: real): Outcome {
    Outcome(t.(ledger := t.ledger + [EntryFor(h, p, purpose, Some(denial), 0.0, now)]), Err(Raised(denial)))
  }

  function ResolveOf(t: Tables, op: Op): Outcome
    requires op.Resolve?
  {
    var i := Lookup(t.handles, op.tokenDigest);
    if i.None? then Outcome(t, Err(HandleNotFound))
    else
      var h := t.handles[i.value];
      var denial := DenialReason(op.principal, h, op.now);
      if denial.Some? then DeniedOutcome(t, h, op.principal, op.purpose, denial.value, op.now)
      else if h.partitionId !in t.partitions then Outcome(t, Err(PartitionNotFound))
      else
        var h' := h.(alphaSpent := h.alphaSpent + h.alphaPerQuery);
        var entry := EntryFor(h', op.principal, op.purpose, None, h.alphaPerQuery, op.now);
        Outcome(t.(handles := t.handles[i.value := h'], ledger := t.ledger + [entry]),
                Ok(Content(ContentRef(h.partitionId, t.partitions[h.partitionId].contentLocator, op.now,
                                      BuildBudgetReport(h')))))
  }

  /** Rotation swaps the token, restarts the window and lifts a revocation; it
      neither asks whether the handle was revoked or expired nor touches the
      spend. */
  function RotateOf(t: Tables, op: Op): Outcome
    requires op.Rotate?
  {
    var i := Lookup(t.handles, op.tokenDigest);
    if i.None? then Outcome(t, Err(HandleNotFound))
    else
      var h := t.handles[i.value];
      var denial := MutationDenial(op.principal, h);
      if denial.Some? then DeniedOutcome(t, h, op.principal, "handle.rotate", denial.value, op.now)
      else if TakenByOther(t.handles, i.value, op.newDigest) then Outcome(t, Err(IntegrityViolation))
      else
        var h' := h.(tokenDigest := op.newDigest, rotatedAt := Some(op.now), rotationCount := h.rotationCount + 1,
                     expiresAt := op.now + h.freshnessWindowDays as real, revokedAt := None);
        Outcome(t.(handles := t.handles[i.value := h']), Ok(Issued(h')))
  }

  predicate TakenByOther(handles: seq<Handle>, own: nat, tokenDigest: string) {
    exists i :: 0 <= i < |handles| && i != own && handles[i].tokenDigest == tokenDigest
  }

  function RevokeOf(t: Tables, op: Op): Outcome
    requires op.Revoke?
  {
    var i := Lookup(t.handles, op.tokenDigest);
    if i.None? then Outcome(t, Err(HandleNotFound))
    else
      var h := t.handles[i.value];
      var denial := MutationDenial(op.principal, h);
      if denial.Some? then DeniedOutcome(t, h, op.principal, "handle.revoke", denial.value, op.now)
      else
        var h' := h.(revokedAt := Some(op.now));
        Outcome(t.(handles := t.handles[i.value := h']), Ok(Revoked(h')))
  }

  function Apply(t: Tables, op: Op): Outcome {
    match op
    case Issue(_, _, _, _, _, _, _, _) => IssueOf(t, op)
    case Resolve(_, _, _, _) => ResolveOf(t, op)
    case Rotate(_, _, _, _) => RotateOf(t, op)
    case Revoke(_, _, _) => RevokeOf(t, op)
  }

  function Run(t: Tables, ops: seq<Op>): Tables {
    if ops == [] then t else Apply(Run(t, ops[..|ops| - 1]), ops[|ops| - 1]).tables
  }

  // -- the ledger and the budget agree --------------------------------------------

  /** What the ledger says a handle has spent, over all its tokens. */
  function SpentIn(ledger: seq<Entry>, id: string): real {
    if ledger == [] then 0.0
    else
      var last := ledger[|ledger| - 1];
      SpentIn(ledger[..|ledger| - 1], id) + if last.handleId == id then last.alphaSpent else 0.0
  }

  function GrantsIn(ledger: seq<Entry>, id: string): nat {
    if ledger == [] then 0
    else
      var last := ledger[|ledger| - 1];
      GrantsIn(ledger[..|ledger| - 1], id) + if last.handleId == id && last.Granted() then 1 else 0
  }

  function Times(n: nat, x: real): real {
    n as real * x
  }

  /** A handle's row agrees with its ledger rows. */
  ghost predicate Accounts(h: Handle, ledger: seq<Entry>) {
    && h.alphaPerQuery > 0.0
    && 0.0 <= h.alphaSpent <= h.alphaBudgetTotal
    && h.alphaSpent == SpentIn(ledger, h.id)
    && h.alphaSpent == Times(GrantsIn(ledger, h.id), h.alphaPerQuery)
  }

  /** A ledger row shows the balance left once it is booked, and spends the
      handle's price exactly when it grants. */
  ghost predicate Booked(handles: seq<Handle>, ledger: seq<Entry>, k: nat)
    requires k < |ledger|
  {
    exists i :: 0 <= i < |handles| && BookedAgainst(handles[i], ledger, k)
  }

  ghost predicate BookedAgainst(h: Handle, ledger: seq<Entry>, k: nat)
    requires k < |ledger|
  {
    && h.id == ledger[k].handleId
    && ledger[k].alphaRemaining == h.alphaBudgetTotal - SpentIn(ledger[..k + 1], h.id)
    && ledger[k].alphaSpent == if ledger[k].Granted() then h.alphaPerQuery else 0.0
  }

  ghost predicate DistinctHandles(handles: seq<Handle>) {
    forall i, j :: 0 <= i < j < |handles| ==>
      handles[i].id != handles[j].id && handles[i].tokenDigest != handles[j].tokenDigest
  }

  ghost predicate Valid(t: Tables) {
    && DistinctHandles(t.handles)
    && (forall i :: 0 <= i < |t.handles| ==> Accounts(t.handles[i], t.ledger))
    && (forall k :: 0 <= k < |t.ledger| ==> Booked(t.handles, t.ledger, k))
  }

  /** A change of a handle's row that keeps its identity and its terms. */
  ghost predicate SameTerms(h: Handle, h': Handle) {
    h'.id == h.id && h'.alphaBudgetTotal == h.alphaBudgetTotal && h'.alphaPerQuery == h.alphaPerQuery
  }

  lemma LedgerSnoc(ledger: seq<Entry>, e: Entry, id: string)
    ensures SpentIn(ledger + [e], id) == SpentIn(ledger, id) + if e.handleId == id then e.alphaSpent else 0.0
    ensures GrantsIn(ledger + [e], id) == GrantsIn(ledger, id) + if e.handleId == id && e.Granted() then 1 else 0
  {
  }

  lemma TimesNext(n: nat, x: real)
    ensures Times(n + 1, x) == Times(n, x) + x
  {
  }

  /** Booking one entry against handle `i`, whose row becomes `h'`. */
  lemma BookKeepsValid(t: Tables, i: nat, h': Handle, e: Entry)
    requires Valid(t) && i < |t.handles| && SameTerms(t.handles[i], h')
    requires forall j :: 0 <= j < |t.handles| && j != i ==> t.handles[j].tokenDigest != h'.tokenDigest
    requires e.handleId == h'.id && e.alphaRemaining == h'.AlphaRemaining()
    requires e.alphaSpent == if e.Granted() then h'.alphaPerQuery else 0.0
    requires h'.alphaSpent == t.handles[i].alphaSpent + e.alphaSpent && h'.alphaSpent <= h'.alphaBudgetTotal
    ensures Valid(t.(handles := t.handles[i := h'], ledger := t.ledger + [e]))
  {
    var handles, ledger := t.handles[i := h'], t.ledger + [e];
    forall j | 0 <= j < |handles| ensures Accounts(handles[j], ledger) {
      LedgerSnoc(t.ledger, e, handles[j].id);
      assert Accounts(t.handles[j], t.ledger);
      TimesNext(GrantsIn(t.ledger, handles[j].id), handles[j].alphaPerQuery);
    }
    forall k | 0 <= k < |ledger| ensures Booked(handles, ledger, k) {
      if k < |t.ledger| {
        assert Booked(t.handles, t.ledger, k);
        var m :| 0 <= m < |t.handles| && BookedAgainst(t.handles[m], t.ledger, k);
        assert ledger[..k + 1] == t.ledger[..k + 1];
        assert BookedAgainst(handles[m], ledger, k);
      } else {
        assert ledger[..k + 1] == ledger;
        LedgerSnoc(t.ledger, e, h'.id);
        assert Accounts(t.handles[i], t.ledger);
        assert BookedAgainst(handles[i], ledger, k);
      }
    }
  }

  /** A row change that books nothing. */
  lemma ReplaceKeepsValid(t: Tables, i: nat, h': Handle)
    requires Valid(t) && i < |t.handles| && SameTerms(t.handles[i], h') && h'.alphaSpent == t.handles[i].alphaSpent
    requires forall j :: 0 <= j < |t.handles| && j != i ==> t.handles[j].tokenDigest != h'.tokenDigest
    ensures Valid(t.(handles := t.handles[i := h']))
  {
    var handles := t.handles[i := h'];
    forall j | 0 <= j < |handles| ensures Accounts(handles[j], t.ledger) {
      assert Accounts(t.handles[j], t.ledger);
    }
    forall k | 0 <= k < |t.ledger| ensures Booked(handles, t.ledger, k) {
      assert Booked(t.handles, t.ledger, k);
      var m :| 0 <= m < |t.handles| && BookedAgainst(t.handles[m], t.ledger, k);
      assert BookedAgainst(handles[m], t.ledger, k);
    }
  }

  lemma {:induction false} UnknownSpendsNothing(ledger: seq<Entry>, id: string)
    requires forall k :: 0 <= k < |ledger| ==> ledger[k].handleId != id
    ensures SpentIn(ledger, id) == 0.0 && GrantsIn(ledger, id) == 0
  {
    if ledger != [] {
      UnknownSpendsNothing(ledger[..|ledger| - 1], id);
    }
  }

  lemma IssueKeepsValid(t: Tables, h: Handle)
    requires Valid(t) && !Taken(t.handles, h.id, h.tokenDigest)
    requires h.alphaSpent == 0.0 && h.alphaBudgetTotal >= 0.0 && h.alphaPerQuery > 0.0
    ensures Valid(t.(handles := t.handles + [h]))
  {
    var handles := t.handles + [h];
    forall k | 0 <= k < |t.ledger| ensures Booked(handles, t.ledger, k) && t.ledger[k].handleId != h.id {
      assert Booked(t.handles, t.ledger, k);
      var m :| 0 <= m < |t.handles| && BookedAgainst(t.handles[m], t.ledger, k);
      assert BookedAgainst(handles[m], t.ledger, k);
    }
    UnknownSpendsNothing(t.ledger, h.id);
    forall j | 0 <= j < |handles| ensures Accounts(handles[j], t.ledger) {
      assert j < |t.handles| ==> Accounts(t.handles[j], t.ledger);
    }
  }

  /** Every step, by any caller at any time, keeps the accounts. */
  lemma ApplyKeepsValid(t: Tables, op: Op)
    requires Valid(t)
    ensures Valid(Apply(t, op).tables)
  {
    if op.Issue? {
      var r := IssueOf(t, op);
      if r.answer.Ok? {
        IssueKeepsValid(t, r.answer.value.handle);
      }
    } else {
      var i := Lookup(t.handles, op.tokenDigest);
      if i.Some? {
        var h := t.handles[i.value];
        assert Accounts(h, t.ledger);
        var denial := if op.Resolve? then DenialReason(op.principal, h, op.now) else MutationDenial(op.principal, h);
        if denial.Some? {
          var purpose := if op.Resolve? then op.purpose else if op.Rotate? then "handle.rotate" else "handle.revoke";
          BookKeepsValid(t, i.value, h, EntryFor(h, op.principal, purpose, denial, 0.0, op.now));
          assert t.handles[i.value := h] == t.handles;
        } else {
          GrantedKeepsValid(t, op, i.value);
        }
      }
    }
  }

  lemma GrantedKeepsValid(t: Tables, op: Op, i: nat)
    requires Valid(t) && !op.Issue? && Lookup(t.handles, op.tokenDigest) == Some(i)
    requires (if op.Resolve? then DenialReason(op.principal, t.handles[i], op.now)
              else MutationDenial(op.principal, t.handles[i])).None?
    ensures Valid(Apply(t, op).tables)
  {
    var h := t.handles[i];
    assert Accounts(h, t.ledger);
    match op
    case Resolve(p, _, purpose, now) =>
      var h' := h.(alphaSpent := h.alphaSpent + h.alphaPerQuery);
      BookKeepsValid(t, i, h', EntryFor(h', p, purpose, None, h.alphaPerQuery, now));
    case Rotate(_, _, _, _) =>
      if Apply(t, op).answer.Ok? {
        ReplaceKeepsValid(t, i, Apply(t, op).answer.value.handle);
      }
    case Revoke(_, _, _) =>
      ReplaceKeepsValid(t, i, Apply(t, op).answer.value.handle);
  }

  /** Over every run of issues, resolutions, rotations and revocations, each
      handle's spend is the sum of its ledger rows and the price times its
      grants, within its total, and each row shows the running balance. */
  lemma {:induction false} EveryRunAccounts(t: Tables, ops: seq<Op>)
    requires Valid(t)
    ensures Valid(Run(t, ops))
  {
    if ops != [] {
      EveryRunAccounts(t, ops[..|ops| - 1]);
      ApplyKeepsValid(Run(t, ops[..|ops| - 1]), ops[|ops| - 1]);
    }
  }

  // -- what is left of a budget ---------------------------------------------------

  /** `queries_remaining` is exactly how many more grants the budget admits. */
  lemma QueriesRemainingExact(h: Handle, k: nat)
    requires h.alphaPerQuery > 0.0 && h.alphaSpent <= h.alphaBudgetTotal
    ensures BuildBudgetReport(h).queriesRemaining >= 0
    ensures k <= BuildBudgetReport(h).queriesRemaining <==>
      h.alphaSpent + Times(k, h.alphaPerQuery) <= h.alphaBudgetTotal
    ensures var report := BuildBudgetReport(h);
            && report.total == h.alphaBudgetTotal && report.spent == h.alphaSpent && report.perQuery == h.alphaPerQuery
            && report.spent + report.remaining == report.total
  {
    var remaining := h.AlphaRemaining();
    if remaining > 0.0 {
      FloorQuotient(remaining, h.alphaPerQuery, k);
    } else {
      PositiveTimes(k, h.alphaPerQuery);
    }
  }

  lemma PositiveTimes(k: nat, x: real)
    requires x > 0.0
    ensures Times(k, x) >= 0.0 && (Times(k, x) == 0.0 <==> k == 0)
  {
  }

  lemma FloorQuotient(y: real, x: real, k: nat)
    requires x > 0.0 && y > 0.0
    ensures (y / x).Floor >= 0
    ensures k <= (y / x).Floor <==> Times(k, x) <= y
  {
    var q := y / x;
    assert q * x == y && q > 0.0;
    assert k <= q.Floor <==> k as real <= q;
    if k as real <= q {
      assert (q - k as real) * x >= 0.0;
    } else {
      assert (k as real - q) * x > 0.0;
    }
  }

  /** Resolving the same token over and over, at the given times. */
  function ResolveAll(tokenDigest: string, p: Principal, purpose: string, times: seq<real>): seq<Op> {
    if times == [] then []
    else ResolveAll(tokenDigest, p, purpose, times[..|times| - 1]) + [Resolve(p, tokenDigest, purpose, times[|times| - 1])]
  }

  /** An evaluator of the handle's tenant, while the handle is live. */
  ghost predicate Entitled(t: Tables, i: nat, p: Principal, times: seq<real>)
    requires i < |t.handles|
  {
    var h := t.handles[i];
    && p.isEvaluator && p.tenantId == h.tenantId && h.revokedAt.None? && h.partitionId in t.partitions
    && forall k :: 0 <= k < |times| ==> times[k] < h.expiresAt
  }

  lemma LookupIs(handles: seq<Handle>, i: nat)
    requires DistinctHandles(handles) && i < |handles|
    ensures Lookup(handles, handles[i].tokenDigest) == Some(i)
  {
  }

  /** The state of handle `i` after a number of grants. */
  ghost predicate GrantedSoFar(before: Tables, after: Tables, i: nat, grants: nat)
    requires i < |before.handles|
  {
    var h := before.handles[i];
    && |after.handles| == |before.handles| && after.partitions == before.partitions
    && after.handles[i] == h.(alphaSpent := h.alphaSpent + Times(grants, h.alphaPerQuery))
    && GrantsIn(after.ledger, h.id) == GrantsIn(before.ledger, h.id) + grants
  }

  ghost predicate Fits(h: Handle, k: nat) {
    h.alphaSpent + Times(k, h.alphaPerQuery) <= h.alphaBudgetTotal
  }

  /** An entitled evaluator who resolves n times is granted min(n, q) times,
      where q is what the budget report promised, and denied thereafter. */
  lemma GrantsUntilExhausted(t: Tables, i: nat, p: Principal, purpose: string, times: seq<real>)
    requires Valid(t) && i < |t.handles| && Entitled(t, i, p, times)
    ensures var h := t.handles[i];
            var q := BuildBudgetReport(h).queriesRemaining;
            && q >= 0
            && GrantedSoFar(t, Run(t, ResolveAll(h.tokenDigest, p, purpose, times)), i, Capped(|times|, q))
  {
    var h := t.handles[i];
    assert Accounts(h, t.ledger);
    QueriesRemainingExact(h, 0);
    var q: nat := BuildBudgetReport(h).queriesRemaining;
    forall k: nat ensures Fits(h, k) <==> k <= q {
      QueriesRemainingExact(h, k);
    }
    GrantsUpTo(t, i, p, purpose, times, q);
  }

  lemma {:induction false} GrantsUpTo(t: Tables, i: nat, p: Principal, purpose: string, times: seq<real>, q: nat)
    requires Valid(t) && i < |t.handles| && Entitled(t, i, p, times)
    requires forall k: nat :: Fits(t.handles[i], k) <==> k <= q
    ensures var after := Run(t, ResolveAll(t.handles[i].tokenDigest, p, purpose, times));
            Valid(after) && GrantedSoFar(t, after, i, Capped(|times|, q))
    decreases |times|
  {
    if times != [] {
      var init, now := times[..|times| - 1], times[|times| - 1];
      GrantsUpTo(t, i, p, purpose, init, q);
      var ops := ResolveAll(t.handles[i].tokenDigest, p, purpose, init);
      var op := Resolve(p, t.handles[i].tokenDigest, purpose, now);
      RunSnoc(t, ops, op);
      GrantsNext(t, Run(t, ops), i, op, |init|, q);
    }
  }

  function Capped(n: nat, q: nat): nat {
    if n <= q then n else q
  }

  lemma GrantsNext(t: Tables, s: Tables, i: nat, op: Op, n: nat, q: nat)
    requires Valid(t) && Valid(s) && i < |t.handles| && GrantedSoFar(t, s, i, Capped(n, q)) && op.Resolve?
    requires op.tokenDigest == t.handles[i].tokenDigest && Entitled(t, i, op.principal, [op.now])
    requires forall k: nat :: Fits(t.handles[i], k) <==> k <= q
    ensures Valid(Apply(s, op).tables) && GrantedSoFar(t, Apply(s, op).tables, i, Capped(n + 1, q))
  {
    assert Fits(t.handles[i], Capped(n, q) + 1) <==> Capped(n, q) + 1 <= q;
    OneMoreResolve(t, s, i, op, Capped(n, q));
  }

  lemma RunSnoc(t: Tables, ops: seq<Op>, op: Op)
    ensures Run(t, ops + [op]) == Apply(Run(t, ops), op).tables
  {
  }

  lemma OneMoreResolve(t: Tables, s: Tables, i: nat, op: Op, grants: nat)
    requires Valid(t) && Valid(s) && i < |t.handles| && GrantedSoFar(t, s, i, grants) && op.Resolve?
    requires op.tokenDigest == t.handles[i].tokenDigest && Entitled(t, i, op.principal, [op.now])
    ensures var h := t.handles[i];
            && Valid(Apply(s, op).tables)
            && if Fits(h, grants + 1)
               then Apply(s, op).answer.Ok? && GrantedSoFar(t, Apply(s, op).tables, i, grants + 1)
               else Apply(s, op).answer == Err(AccessDenied(AlphaBudgetExhausted))
                    && GrantedSoFar(t, Apply(s, op).tables, i, grants)
  {
    ApplyKeepsValid(s, op);
    LookupIs(s.handles, i);
    var h := t.handles[i];
    assert [op.now][0] < h.expiresAt;
    TimesNext(grants, h.alphaPerQuery);
    var e := Apply(s, op).tables.ledger[|s.ledger|];
    LedgerSnoc(s.ledger, e, h.id);
  }

  // -- retired tokens ---------------------------------------------------------------

  /** No row answers to this digest. */
  ghost predicate Dead(t: Tables, tokenDigest: string) {
    forall i :: 0 <= i < |t.handles| ==> t.handles[i].tokenDigest != tokenDigest
  }

  ghost predicate Mints(op: Op, tokenDigest: string) {
    (op.Issue? || op.Rotate?) && op.newDigest == tokenDigest
  }

  lemma StepKeepsDead(t: Tables, op: Op, tokenDigest: string)
    requires Dead(t, tokenDigest) && !Mints(op, tokenDigest)
    ensures Dead(Apply(t, op).tables, tokenDigest)
  {
  }

  lemma {:induction false} RunKeepsDead(t: Tables, ops: seq<Op>, tokenDigest: string)
    requires Dead(t, tokenDigest) && forall k :: 0 <= k < |ops| ==> !Mints(ops[k], tokenDigest)
    ensures Dead(Run(t, ops), tokenDigest)
  {
    if ops != [] {
      RunKeepsDead(t, ops[..|ops| - 1], tokenDigest);
      StepKeepsDead(Run(t, ops[..|ops| - 1]), ops[|ops| - 1], tokenDigest);
    }
  }

  /** A dead token resolves to nothing and leaves no trace, and stays dead as
      long as nobody mints it again. */
  lemma DeadStaysDead(t: Tables, ops: seq<Op>, tokenDigest: string, attempt: Op)
    requires Dead(t, tokenDigest) && forall k :: 0 <= k < |ops| ==> !Mints(ops[k], tokenDigest)
    requires !attempt.Issue? && attempt.tokenDigest == tokenDigest
    ensures Apply(Run(t, ops), attempt) == Outcome(Run(t, ops), Err(HandleNotFound))
  {
    RunKeepsDead(t, ops, tokenDigest);
  }

  lemma RotationKillsToken(t: Tables, op: Op)
    requires Valid(t) && op.Rotate? && Apply(t, op).answer.Ok? && op.newDigest != op.tokenDigest
    ensures Dead(Apply(t, op).tables, op.tokenDigest)
  {
  }

  /** Rotation follows no other state than the caller's rights: it brings back a
      revoked or expired handle with its spend unchanged, and the new token
      resolves within the new window while budget remains. */
  lemma RotationRevives(t: Tables, i: nat, rotate: Op, resolve: Op)
    requires Valid(t) && i < |t.handles| && rotate.Rotate? && resolve.Resolve?
    requires rotate.tokenDigest == t.handles[i].tokenDigest && resolve.tokenDigest == rotate.newDigest
    requires rotate.principal.isEvaluator && rotate.principal.tenantId == t.handles[i].tenantId
    requires resolve.principal == rotate.principal && t.handles[i].partitionId in t.partitions
    requires !TakenByOther(t.handles, i, rotate.newDigest)
    ensures var rotated := Apply(t, rotate);
            var h := t.handles[i];
            && rotated.answer.Ok? && rotated.tables.handles[i].alphaSpent == h.alphaSpent
            && rotated.tables.handles[i].revokedAt.None? && rotated.tables.ledger == t.ledger
            && (Apply(rotated.tables, resolve).answer.Ok? <==>
                 resolve.now < rotate.now + h.freshnessWindowDays as real && h.AlphaRemaining() >= h.alphaPerQuery)
  {
  }

  // -- the handoff between generations ------------------------------------------------

  /** Rotate, then issue over the same partition; two sessions, so a refused
      issue does not undo the rotation. */
  function PrepareGeneration2(t: Tables, p: Principal, oldDigest: string, rotatedDigest: string, newId: string,
                              newDigest: string, total: real, perQuery: real, windowDays: int, now: real): Outcome
  {
    var rotated := Apply(t, Rotate(p, oldDigest, rotatedDigest, now));
    if rotated.answer.Err? then rotated
    else Apply(rotated.tables, Issue(p, rotated.answer.value.handle.partitionId, total, perQuery, windowDays,
                                     newId, newDigest, now))
  }

  /** After the handoff, given fresh tokens, the first generation's token never
      resolves again, in any later run; its spend and its ledger are intact; and
      the second generation starts on an unspent budget of its own over the
      same partition. */
  lemma HandoffRetiresOldToken(t: Tables, i: nat, p: Principal, rotatedDigest: string, newId: string, newDigest: string,
                               total: real, perQuery: real, windowDays: int, now: real, later: seq<Op>, attempt: Op)
    requires Valid(t) && i < |t.handles|
    requires p.isEvaluator && p.tenantId == t.handles[i].tenantId && !TakenByOther(t.handles, i, rotatedDigest)
    requires rotatedDigest != t.handles[i].tokenDigest && newDigest != t.handles[i].tokenDigest
    requires forall k :: 0 <= k < |later| ==> !Mints(later[k], t.handles[i].tokenDigest)
    requires !attempt.Issue? && attempt.tokenDigest == t.handles[i].tokenDigest
    ensures var h := t.handles[i];
            var out := PrepareGeneration2(t, p, h.tokenDigest, rotatedDigest, newId, newDigest, total, perQuery,
                                          windowDays, now);
            && Apply(Run(out.tables, later), attempt) == Outcome(Run(out.tables, later), Err(HandleNotFound))
            && out.tables.ledger == t.ledger
            && out.tables.handles[i].id == h.id && out.tables.handles[i].alphaSpent == h.alphaSpent
            && (out.answer.Ok? ==>
                 && |out.tables.handles| == |t.handles| + 1
                 && var g := out.tables.handles[|t.handles|];
                    g.partitionId == h.partitionId && g.alphaSpent == 0.0 && g.alphaBudgetTotal == total
                    && g.tokenDigest == newDigest && g.id == newId)
  {
    LookupIs(t.handles, i);
    var h := t.handles[i];
    var rotate := Rotate(p, h.tokenDigest, rotatedDigest, now);
    RotationKillsToken(t, rotate);
    var mid := Apply(t, rotate).tables;
    var issue := Issue(p, h.partitionId, total, perQuery, windowDays, newId, newDigest, now);
    assert Dead(Apply(mid, issue).tables, h.tokenDigest);
    DeadStaysDead(Apply(mid, issue).tables, later, h.tokenDigest, attempt);
  }
}
