/** The holdout service object over its tables. */
module HoldoutServices {
  import opened Wrappers
  import opened Holdouts

  class HoldoutService {
    const digestOf: string -> string
    var partitions: map<string, Partition>
    var handles: seq<Handle>
    var ledger: seq<Entry>

    function Contents(): Tables
      reads this
    {
      Tables(partitions, handles, ledger)
    }

    constructor (digestOf: string -> string, partitions: map<string, Partition>)
      ensures this.digestOf == digestOf && Contents() == Tables(partitions, [], [])
      ensures Valid(Contents())
    {
      this.digestOf := digestOf;
      this.partitions := partitions;
      handles := [];
      ledger := [];
    }

    method AppendLedgerRow(h: Handle, p: Principal, purpose: string, denial: Option<Denial>, spend: real, now: real)
      returns (e: Entry)
      modifies this`ledger
      ensures e == EntryFor(h, p, purpose, denial, spend, now)
      ensures ledger == old(ledger) + [e]
    {
      e := EntryFor(h, p, purpose, denial, spend, now);
      ledger := ledger + [e];
    }

    /** `newId` and `token` are what the id and token generators return. */
    method IssueHandle(p: Principal, partitionId: string, total: real, perQuery: real, windowDays: int,
                       newId: string, token: string, now: real) returns (r: Result<string, HoldoutError>)
      requires Valid(Contents())
      modifies this
      ensures Valid(Contents())
      ensures var out := Apply(old(Contents()), Issue(p, partitionId, total, perQuery, windowDays, newId, digestOf(token), now));
              Contents() == out.tables && (if out.answer.Ok? then r == Ok(BuildHandleUri(token)) else r == Err(out.answer.error))
    {
      ApplyKeepsValid(Contents(), Issue(p, partitionId, total, perQuery, windowDays, newId, digestOf(token), now));
      if !p.isEvaluator {
        return Err(AccessDenied(RoleNotEvaluator));
      }
      if partitionId !in partitions || partitions[partitionId].tenantId != p.tenantId {
        return Err(PartitionNotFound);
      }
      if !partitions[partitionId].isSealed {
        return Err(NotSealed);
      }
      var handle := Handle(newId, partitions[partitionId].tenantId, partitionId, digestOf(token),
                           now + windowDays as real, windowDays, None, 0, None, total, 0.0, perQuery);
      if total < 0.0 || perQuery <= 0.0 || Taken(handles, newId, digestOf(token)) {
        return Err(IntegrityViolation);
      }
      handles := handles + [handle];
      return Ok(BuildHandleUri(token));
    }

    /** A grant and a denial both append one ledger row in the transaction that
        updates the budget; denials are committed before they are raised. */
    method ResolveHandle(p: Principal, uri: string, purpose: string, now: real)
      returns (r: Result<ContentRef, HoldoutError>)
      requires Valid(Contents())
      modifies this
      ensures Valid(Contents())
      ensures match ParseHandleUri(uri)
              case Err(e) => r == Err(e) && Contents() == old(Contents())
              case Ok(token) =>
                var out := Apply(old(Contents()), Resolve(p, digestOf(token), purpose, now));
                && Contents() == out.tables
                && (if out.answer.Ok? then r == Ok(out.answer.value.ref) else r == Err(out.answer.error))
    {
      var token :- ParseHandleUri(uri);
      ApplyKeepsValid(Contents(), Resolve(p, digestOf(token), purpose, now));
      var found := Lookup(handles, digestOf(token));
      if found.None? {
        return Err(HandleNotFound);
      }
      var handle := handles[found.value];
      var denial := DenialReason(p, handle, now);
      if denial.Some? {
        var _ := AppendLedgerRow(handle, p, purpose, denial, 0.0, now);
        return Err(Raised(denial.value));
      }
      if handle.partitionId !in partitions {
        return Err(PartitionNotFound);
      }
      handle := handle.(alphaSpent := handle.alphaSpent + handle.alphaPerQuery);
      handles := handles[found.value := handle];
      var entry := AppendLedgerRow(handle, p, purpose, None, handle.alphaPerQuery, now);
      var partition := partitions[handle.partitionId];
      return Ok(ContentRef(handle.partitionId, partition.contentLocator, entry.occurredAt, BuildBudgetReport(handle)));
    }

    method RotateHandle(p: Principal, uri: string, newToken: string, now: real)
      returns (r: Result<(string, Handle), HoldoutError>)
      requires Valid(Contents())
      modifies this
      ensures Valid(Contents())
      ensures match ParseHandleUri(uri)
              case Err(e) => r == Err(e) && Contents() == old(Contents())
              case Ok(token) =>
                var out := Apply(old(Contents()), Rotate(p, digestOf(token), digestOf(newToken), now));
                && Contents() == out.tables
                && (if out.answer.Ok? then r == Ok((BuildHandleUri(newToken), out.answer.value.handle))
                    else r == Err(out.answer.error))
    {
      var token :- ParseHandleUri(uri);
      ApplyKeepsValid(Contents(), Rotate(p, digestOf(token), digestOf(newToken), now));
      var found := Lookup(handles, digestOf(token));
      if found.None? {
        return Err(HandleNotFound);
      }
      var handle := handles[found.value];
      var denial := MutationDenial(p, handle);
      if denial.Some? {
        var _ := AppendLedgerRow(handle, p, "handle.rotate", denial, 0.0, now);
        return Err(Raised(denial.value));
      }
      if TakenByOther(handles, found.value, digestOf(newToken)) {
        return Err(IntegrityViolation);
      }
      handle := handle.(tokenDigest := digestOf(newToken));
      handle := handle.(rotatedAt := Some(now), rotationCount := handle.rotationCount + 1);
      handle := handle.(expiresAt := now + handle.freshnessWindowDays as real, revokedAt := None);
      handles := handles[found.value := handle];
      return Ok((BuildHandleUri(newToken), handle));
    }

    method RevokeHandle(p: Principal, uri: string, now: real) returns (r: Result<Handle, HoldoutError>)
      requires Valid(Contents())
      modifies this
      ensures Valid(Contents())
      ensures match ParseHandleUri(uri)
              case Err(e) => r == Err(e) && Contents() == old(Contents())
              case Ok(token) =>
                var out := Apply(old(Contents()), Revoke(p, digestOf(token), now));
                && Contents() == out.tables
                && (if out.answer.Ok? then r == Ok(out.answer.value.handle) else r == Err(out.answer.error))
    {
      var token :- ParseHandleUri(uri);
      ApplyKeepsValid(Contents(), Revoke(p, digestOf(token), now));
      var found := Lookup(handles, digestOf(token));
      if found.None? {
        return Err(HandleNotFound);
      }
      var handle := handles[found.value];
      var denial := MutationDenial(p, handle);
      if denial.Some? {
        var _ := AppendLedgerRow(handle, p, "handle.revoke", denial, 0.0, now);
        return Err(Raised(denial.value));
      }
      handle := handle.(revokedAt := Some(now));
      handles := handles[found.value := handle];
      return Ok(handle);
    }

    /** Rotate, then issue over the partition the rotated handle seals. */
    method PrepareGeneration2Holdouts(p: Principal, oldUri: string, rotatedToken: string, newId: string, newToken: string,
                                      total: real, perQuery: real, windowDays: int, now: real)
      returns (r: Result<string, HoldoutError>)
      requires Valid(Contents())
      modifies this
      ensures Valid(Contents())
      ensures match ParseHandleUri(oldUri)
              case Err(e) => r == Err(e) && Contents() == old(Contents())
              case Ok(token) =>
                var out := PrepareGeneration2(old(Contents()), p, digestOf(token), digestOf(rotatedToken), newId,
                                              digestOf(newToken), total, perQuery, windowDays, now);
                && Contents() == out.tables
                && (if out.answer.Ok? then r == Ok(BuildHandleUri(newToken)) else r == Err(out.answer.error))
    {
      var rotated :- RotateHandle(p, oldUri, rotatedToken, now);
      r := IssueHandle(p, rotated.1.partitionId, total, perQuery, windowDays, newId, newToken, now);
    }
  }
}
