/** Who gets at sealed content: each check of a resolution decides, in its order,
    over every reachable table; and a revoked token stays refused until rotated. */
module HoldoutAccess {
  import opened Wrappers
  import opened Holdouts

  /** Row `i` is the one a token digest names. */
  predicate Names(t: Tables, tokenDigest: string, i: nat) {
    i < |t.handles| && t.handles[i].tokenDigest == tokenDigest
  }

  /** What is wrong with a resolution, reason by reason. */
  predicate Stands(reason: Denial, p: Principal, h: Handle, now: real) {
    match reason
    case RoleNotEvaluator => !p.isEvaluator
    case TenantMismatch => p.tenantId != h.tenantId
    case HandleRevoked => h.revokedAt.Some?
    case HandleExpired => now >= h.expiresAt
    case AlphaBudgetExhausted => h.alphaSpent + h.alphaPerQuery > h.alphaBudgetTotal
  }

  function Rank(reason: Denial): nat {
    match reason
    case RoleNotEvaluator => 0
    case TenantMismatch => 1
    case HandleRevoked => 2
    case HandleExpired => 3
    case AlphaBudgetExhausted => 4
  }

  predicate FirstToStand(reason: Denial, p: Principal, h: Handle, now: real) {
    Stands(reason, p, h, now) && forall r: Denial :: Stands(r, p, h, now) ==> Rank(reason) <= Rank(r)
  }

  /** An evaluator of the handle's tenant, a live unrevoked handle, budget for one
      more query and content to hand out. */
  predicate MayResolve(t: Tables, i: nat, p: Principal, now: real)
    requires i < |t.handles|
  {
    var h := t.handles[i];
    && p.isEvaluator && p.tenantId == h.tenantId && h.revokedAt.None? && now < h.expiresAt
    && h.alphaSpent + h.alphaPerQuery <= h.alphaBudgetTotal && h.partitionId in t.partitions
  }

  // -- resolving ------------------------------------------------------------------------

  /** In every reachable table a resolution is answered with content exactly when
      the token names a handle the caller may resolve. */
  lemma ContentIffEntitled(t: Tables, ops: seq<Op>, op: Op)
    requires Valid(t) && op.Resolve?
    ensures var s := Run(t, ops);
            Apply(s, op).answer.Ok? <==> exists i: nat :: Names(s, op.tokenDigest, i) && MayResolve(s, i, op.principal, op.now)
  {
    EveryRunAccounts(t, ops);
    var s := Run(t, ops);
    var found := Lookup(s.handles, op.tokenDigest);
    if found.Some? {
      assert Names(s, op.tokenDigest, found.value);
      forall i: nat | Names(s, op.tokenDigest, i) ensures i == found.value {
        LookupIs(s.handles, i);
      }
    }
  }

  /** A granted resolution returns the partition's own locator, charges the handle's
      price and books one row for the caller. */
  lemma GrantedResolution(t: Tables, op: Op, i: nat)
    requires Valid(t) && op.Resolve? && Names(t, op.tokenDigest, i) && MayResolve(t, i, op.principal, op.now)
    ensures var out, h := Apply(t, op), t.handles[i];
            && out.answer.Ok? && out.answer.value.Content?
            && out.answer.value.ref.partitionId == h.partitionId && out.answer.value.ref.resolvedAt == op.now
            && out.answer.value.ref.contentLocator == t.partitions[h.partitionId].contentLocator
            && out.tables.partitions == t.partitions
            && out.tables.handles == t.handles[i := h.(alphaSpent := h.alphaSpent + h.alphaPerQuery)]
            && out.tables.ledger == t.ledger + [Entry(h.tenantId, h.id, op.tokenDigest, h.partitionId, op.principal.identityId,
                                                      op.purpose, None, h.alphaPerQuery,
                                                      h.alphaBudgetTotal - (h.alphaSpent + h.alphaPerQuery), op.now)]
  {
    LookupIs(t.handles, i);
  }

  /** What a refusal books: one row that spends nothing and names the reason. */
  function RefusalRow(h: Handle, p: Principal, purpose: string, reason: Denial, now: real): Entry {
    Entry(h.tenantId, h.id, h.tokenDigest, h.partitionId, p.identityId, purpose, Some(reason), 0.0,
          h.alphaBudgetTotal - h.alphaSpent, now)
  }

  /** A refusal changes no handle and books one row with the first reason that
      stands; a caller of another tenant is told there is no such handle. */
  lemma RefusedResolution(t: Tables, op: Op, i: nat, reason: Denial)
    requires Valid(t) && op.Resolve? && Names(t, op.tokenDigest, i)
    requires FirstToStand(reason, op.principal, t.handles[i], op.now)
    ensures Apply(t, op).tables == t.(ledger := t.ledger + [RefusalRow(t.handles[i], op.principal, op.purpose, reason, op.now)])
    ensures Apply(t, op).answer == Err(if reason == TenantMismatch then HandleNotFound else AccessDenied(reason))
  {
    LookupIs(t.handles, i);
    assert Stands(reason, op.principal, t.handles[i], op.now);
    assert forall r: Denial :: Stands(r, op.principal, t.handles[i], op.now) ==> Rank(reason) <= Rank(r);
    assert Stands(RoleNotEvaluator, op.principal, t.handles[i], op.now) <==> !op.principal.isEvaluator;
    assert Stands(TenantMismatch, op.principal, t.handles[i], op.now) <==> op.principal.tenantId != t.handles[i].tenantId;
    assert Stands(HandleRevoked, op.principal, t.handles[i], op.now) <==> t.handles[i].revokedAt.Some?;
    assert Stands(HandleExpired, op.principal, t.handles[i], op.now) <==> op.now >= t.handles[i].expiresAt;
  }

  /** A refusal always has a first reason, unless the partition's row is missing. */
  lemma RefusalHasReason(t: Tables, op: Op, i: nat) returns (reason: Denial)
    requires Valid(t) && op.Resolve? && Names(t, op.tokenDigest, i) && t.handles[i].partitionId in t.partitions
    requires Apply(t, op).answer.Err?
    ensures FirstToStand(reason, op.principal, t.handles[i], op.now)
  {
    LookupIs(t.handles, i);
    var p, h := op.principal, t.handles[i];
    reason := if Stands(RoleNotEvaluator, p, h, op.now) then RoleNotEvaluator
              else if Stands(TenantMismatch, p, h, op.now) then TenantMismatch
              else if Stands(HandleRevoked, p, h, op.now) then HandleRevoked
              else if Stands(HandleExpired, p, h, op.now) then HandleExpired
              else AlphaBudgetExhausted;
  }

  // -- rotating and revoking ----------------------------------------------------------------

  /** Only an evaluator of the handle's tenant rotates or revokes, and always does,
      a new token that is taken apart. */
  lemma MutationIff(t: Tables, op: Op, i: nat)
    requires Valid(t) && (op.Rotate? || op.Revoke?) && Names(t, op.tokenDigest, i)
    ensures Apply(t, op).answer.Ok? <==>
              && op.principal.isEvaluator && op.principal.tenantId == t.handles[i].tenantId
              && (op.Rotate? ==> forall j :: 0 <= j < |t.handles| && j != i ==> t.handles[j].tokenDigest != op.newDigest)
    ensures Apply(t, op).answer.Ok? ==> Apply(t, op).tables.ledger == t.ledger && Apply(t, op).tables.partitions == t.partitions
  {
    LookupIs(t.handles, i);
  }

  /** A refused mutation books who tried, under the mutation's own purpose. */
  lemma RefusedMutation(t: Tables, op: Op, i: nat)
    requires Valid(t) && (op.Rotate? || op.Revoke?) && Names(t, op.tokenDigest, i)
    requires !op.principal.isEvaluator || op.principal.tenantId != t.handles[i].tenantId
    ensures var reason := if !op.principal.isEvaluator then RoleNotEvaluator else TenantMismatch;
            var purpose := if op.Rotate? then "handle.rotate" else "handle.revoke";
            && Apply(t, op).tables == t.(ledger := t.ledger + [RefusalRow(t.handles[i], op.principal, purpose, reason, op.now)])
            && Apply(t, op).answer == Err(if op.principal.isEvaluator then HandleNotFound else AccessDenied(RoleNotEvaluator))
  {
    LookupIs(t.handles, i);
  }

  /** What a mutation writes: rotation the token, its time, its count, a window that
      starts now and no revocation; revocation its time. Nothing else changes. */
  lemma MutationWrites(t: Tables, op: Op, i: nat)
    requires Valid(t) && (op.Rotate? || op.Revoke?) && Names(t, op.tokenDigest, i) && Apply(t, op).answer.Ok?
    ensures var h, after := t.handles[i], Apply(t, op).tables.handles;
            && |after| == |t.handles| && (forall j :: 0 <= j < |t.handles| && j != i ==> after[j] == t.handles[j])
            && (op.Revoke? ==> after[i].revokedAt == Some(op.now) && after[i].(revokedAt := h.revokedAt) == h)
            && (op.Rotate? ==>
                 && after[i].tokenDigest == op.newDigest && after[i].revokedAt.None?
                 && after[i].rotatedAt == Some(op.now) && after[i].rotationCount == h.rotationCount + 1
                 && after[i].expiresAt - op.now == h.freshnessWindowDays as real
                 && after[i].(tokenDigest := h.tokenDigest, revokedAt := h.revokedAt, rotatedAt := h.rotatedAt,
                              rotationCount := h.rotationCount, expiresAt := h.expiresAt) == h)
  {
    LookupIs(t.handles, i);
  }

  /** The token names a revoked handle. */
  ghost predicate RevokedToken(t: Tables, tokenDigest: string) {
    exists i: nat :: Names(t, tokenDigest, i) && t.handles[i].revokedAt.Some?
  }

  predicate Rotates(op: Op, tokenDigest: string) {
    op.Rotate? && op.tokenDigest == tokenDigest
  }

  lemma StepKeepsRevoked(t: Tables, op: Op, tokenDigest: string)
    requires Valid(t) && RevokedToken(t, tokenDigest) && !Rotates(op, tokenDigest)
    ensures RevokedToken(Apply(t, op).tables, tokenDigest)
  {
    var i: nat :| Names(t, tokenDigest, i) && t.handles[i].revokedAt.Some?;
    var after := Apply(t, op).tables;
    assert Names(after, tokenDigest, i) && after.handles[i].revokedAt.Some?;
  }

  lemma {:induction false} RunKeepsRevoked(t: Tables, ops: seq<Op>, tokenDigest: string)
    requires Valid(t) && RevokedToken(t, tokenDigest) && forall k :: 0 <= k < |ops| ==> !Rotates(ops[k], tokenDigest)
    ensures RevokedToken(Run(t, ops), tokenDigest)
  {
    if ops != [] {
      RunKeepsRevoked(t, ops[..|ops| - 1], tokenDigest);
      EveryRunAccounts(t, ops[..|ops| - 1]);
      StepKeepsRevoked(Run(t, ops[..|ops| - 1]), ops[|ops| - 1], tokenDigest);
    }
  }

  lemma RevokeMarks(t: Tables, revoke: Op)
    requires Valid(t) && revoke.Revoke? && Apply(t, revoke).answer.Ok?
    ensures RevokedToken(Apply(t, revoke).tables, revoke.tokenDigest)
  {
    var i := Lookup(t.handles, revoke.tokenDigest).value;
    MutationWrites(t, revoke, i);
    assert Names(Apply(t, revoke).tables, revoke.tokenDigest, i);
  }

  lemma RevokedRefused(t: Tables, resolve: Op)
    requires Valid(t) && resolve.Resolve? && RevokedToken(t, resolve.tokenDigest)
    ensures Apply(t, resolve).answer.Err? && Apply(t, resolve).tables.handles == t.handles
  {
    var i: nat :| Names(t, resolve.tokenDigest, i) && t.handles[i].revokedAt.Some?;
    LookupIs(t.handles, i);
  }

  /** After an accepted revocation no resolution of the token is granted, whatever
      happens in between, until the token is rotated; and none changes a handle. */
  lemma RevokedUntilRotated(t: Tables, revoke: Op, ops: seq<Op>, resolve: Op)
    requires Valid(t) && revoke.Revoke? && Apply(t, revoke).answer.Ok?
    requires resolve.Resolve? && resolve.tokenDigest == revoke.tokenDigest
    requires forall k :: 0 <= k < |ops| ==> !Rotates(ops[k], revoke.tokenDigest)
    ensures var s := Run(Apply(t, revoke).tables, ops);
            Apply(s, resolve).answer.Err? && Apply(s, resolve).tables.handles == s.handles
  {
    var after := Apply(t, revoke).tables;
    RevokeMarks(t, revoke);
    ApplyKeepsValid(t, revoke);
    RunKeepsRevoked(after, ops, revoke.tokenDigest);
    EveryRunAccounts(after, ops);
    RevokedRefused(Run(after, ops), resolve);
  }

  // -- issuing -----------------------------------------------------------------------------

  /** A handle is issued exactly to an evaluator, over a sealed partition of the own
      tenant, on terms the table admits and under an unused id and token; it starts
      unspent, live for its window, and nothing else changes. */
  lemma IssuedIff(t: Tables, op: Op)
    requires op.Issue?
    ensures Apply(t, op).answer.Ok? <==>
              && op.principal.isEvaluator && op.partitionId in t.partitions
              && t.partitions[op.partitionId].tenantId == op.principal.tenantId && t.partitions[op.partitionId].isSealed
              && op.total >= 0.0 && op.perQuery > 0.0
              && forall i :: 0 <= i < |t.handles| ==> t.handles[i].id != op.newId && t.handles[i].tokenDigest != op.newDigest
    ensures Apply(t, op).answer.Err? ==> Apply(t, op).tables == t
    ensures Apply(t, op).answer.Ok? ==>
              && Apply(t, op).tables.handles[..|t.handles|] == t.handles && |Apply(t, op).tables.handles| == |t.handles| + 1
              && Apply(t, op).tables.ledger == t.ledger
              && var h := Apply(t, op).tables.handles[|t.handles|];
                 && h.id == op.newId && h.tokenDigest == op.newDigest && h.partitionId == op.partitionId
                 && h.tenantId == op.principal.tenantId && h.revokedAt.None? && h.rotationCount == 0
                 && h.alphaSpent == 0.0 && h.alphaBudgetTotal == op.total && h.alphaPerQuery == op.perQuery
                 && h.expiresAt - op.now == op.windowDays as real && h.freshnessWindowDays == op.windowDays
  {
  }
}
