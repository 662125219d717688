/** The events table: appending an event to its tenant's chain, and verifying a
    tenant's chain from whatever the table holds. */
module EventStores {
  import opened Wrappers
  import opened Sorting
  import opened HashChain

  datatype IngestError = DuplicateEvent(eventId: string)

  predicate LeSeq(a: Row, b: Row) {
    a.chainSeq <= b.chainSeq
  }

  function TenantRows(rows: seq<Row>, tenant: string): seq<Row> {
    if rows == [] then []
    else
      var before := TenantRows(rows[..|rows| - 1], tenant);
      if rows[|rows| - 1].envelope.tenantId == tenant then before + [rows[|rows| - 1]] else before
  }

  /** `select ... where tenant_id = tenant order by chain_seq`. */
  function Chain(rows: seq<Row>, tenant: string): seq<Row> {
    Sort(TenantRows(rows, tenant), LeSeq)
  }

  function NextRow(h: Hasher, rows: seq<Row>, envelope: EventEnvelope): Row {
    var chain := Chain(rows, envelope.tenantId);
    var prevHash := if chain != [] then chain[|chain| - 1].eventHash else GENESIS_HASH;
    var chainSeq := (if chain != [] then chain[|chain| - 1].chainSeq else 0) + 1;
    Row(envelope, chainSeq, prevHash, ComputeEventHash(h, envelope, prevHash))
  }

  /** The unique constraints of the table that a new row can violate. */
  predicate Duplicates(rows: seq<Row>, row: Row) {
    exists i :: 0 <= i < |rows| && (
      || rows[i].envelope.eventId == row.envelope.eventId
      || rows[i].eventHash == row.eventHash
      || (rows[i].envelope.tenantId == row.envelope.tenantId && rows[i].chainSeq == row.chainSeq))
  }

  /** One ingest, committed or rolled back as a unit. */
  function Ingested(h: Hasher, rows: seq<Row>, envelope: EventEnvelope): seq<Row> {
    var row := NextRow(h, rows, envelope);
    if Duplicates(rows, row) then rows else rows + [row]
  }

  /** The table after a list of ingests, in whatever interleaving of tenants. */
  function AfterIngests(h: Hasher, envelopes: seq<EventEnvelope>): seq<Row> {
    if envelopes == [] then []
    else Ingested(h, AfterIngests(h, envelopes[..|envelopes| - 1]), envelopes[|envelopes| - 1])
  }

  /** Every tenant's rows, in insertion order, form an accepted chain. */
  ghost predicate AllChained(h: Hasher, rows: seq<Row>) {
    forall tenant :: Accepted(h, TenantRows(rows, tenant))
  }

  lemma AcceptedSorted(h: Hasher, rows: seq<Row>)
    requires Accepted(h, rows)
    ensures Sort(rows, LeSeq) == rows
  {
    forall i, j | 0 <= i < j < |rows| ensures LeSeq(rows[i], rows[j]) {
      assert Linked(h, rows, i) && Linked(h, rows, j);
    }
    SortIdentity(rows, LeSeq);
  }

  lemma TenantRowsSnoc(rows: seq<Row>, row: Row, tenant: string)
    ensures TenantRows(rows + [row], tenant)
         == if row.envelope.tenantId == tenant then TenantRows(rows, tenant) + [row] else TenantRows(rows, tenant)
  {
  }

  lemma AppendAccepted(h: Hasher, chain: seq<Row>, row: Row)
    requires Accepted(h, chain)
    requires row.chainSeq == |chain| + 1 && row.prevHash == PrevExpected(chain, |chain|)
    requires row.eventHash == ComputeEventHash(h, row.envelope, row.prevHash)
    ensures Accepted(h, chain + [row])
  {
    forall i | 0 <= i < |chain| + 1 ensures Linked(h, chain + [row], i) {
      if i < |chain| {
        assert Linked(h, chain, i);
      }
    }
  }

  /** An ingest extends its own tenant's chain by one row and leaves every other
      tenant's chain as it was. */
  lemma IngestExtendsOneChain(h: Hasher, rows: seq<Row>, envelope: EventEnvelope, tenant: string)
    requires AllChained(h, rows)
    ensures var row := NextRow(h, rows, envelope);
            && row.chainSeq == |Chain(rows, envelope.tenantId)| + 1
            && Accepted(h, TenantRows(rows + [row], tenant))
            && Chain(rows + [row], tenant)
               == Chain(rows, tenant) + if tenant == envelope.tenantId then [row] else []
  {
    var row := NextRow(h, rows, envelope);
    var chain := TenantRows(rows, envelope.tenantId);
    assert Accepted(h, chain) && Accepted(h, TenantRows(rows, tenant));
    AcceptedSorted(h, chain);
    AcceptedSorted(h, TenantRows(rows, tenant));
    assert chain != [] ==> Linked(h, chain, |chain| - 1);
    AppendAccepted(h, chain, row);
    TenantRowsSnoc(rows, row, tenant);
    AcceptedSorted(h, TenantRows(rows + [row], tenant));
  }

  lemma {:induction false} TenantRowsHold(rows: seq<Row>, i: nat)
    requires i < |rows|
    ensures rows[i] in TenantRows(rows, rows[i].envelope.tenantId)
  {
    if i < |rows| - 1 {
      TenantRowsHold(rows[..|rows| - 1], i);
    }
  }

  /** The (tenant, chain_seq) constraint is never the one that refuses. */
  lemma SequenceIsFresh(h: Hasher, rows: seq<Row>, envelope: EventEnvelope, i: nat)
    requires AllChained(h, rows) && i < |rows| && rows[i].envelope.tenantId == envelope.tenantId
    ensures 1 <= rows[i].chainSeq < NextRow(h, rows, envelope).chainSeq
  {
    var chain := TenantRows(rows, envelope.tenantId);
    TenantRowsHold(rows, i);
    AcceptedSorted(h, chain);
    var k :| 0 <= k < |chain| && chain[k] == rows[i];
    assert Linked(h, chain, k) && Linked(h, chain, |chain| - 1);
  }

  lemma IngestKeepsChains(h: Hasher, rows: seq<Row>, envelope: EventEnvelope)
    requires AllChained(h, rows)
    ensures AllChained(h, Ingested(h, rows, envelope))
  {
    forall tenant ensures Accepted(h, TenantRows(Ingested(h, rows, envelope), tenant)) {
      IngestExtendsOneChain(h, rows, envelope, tenant);
    }
  }

  /** Every interleaving of ingests over any tenants leaves every tenant's chain
      accepted, walked in `chain_seq` order. */
  lemma {:induction false} EveryRunVerifies(h: Hasher, envelopes: seq<EventEnvelope>, tenant: string)
    ensures AllChained(h, AfterIngests(h, envelopes))
    ensures Accepted(h, Chain(AfterIngests(h, envelopes), tenant))
  {
    if envelopes != [] {
      EveryRunVerifies(h, envelopes[..|envelopes| - 1], tenant);
      IngestKeepsChains(h, AfterIngests(h, envelopes[..|envelopes| - 1]), envelopes[|envelopes| - 1]);
    }
    AcceptedSorted(h, TenantRows(AfterIngests(h, envelopes), tenant));
  }

  // -- one row for each event ---------------------------------------------------------

  predicate KnowsEvent(rows: seq<Row>, eventId: string) {
    exists i :: 0 <= i < |rows| && rows[i].envelope.eventId == eventId
  }

  predicate KnowsHash(rows: seq<Row>, hash: seq<byte>) {
    exists i :: 0 <= i < |rows| && rows[i].eventHash == hash
  }

  /** An event is stored unless some row already has its id or the hash that would
      chain it: a re-sent one changes nothing. */
  lemma IngestedIff(h: Hasher, rows: seq<Row>, envelope: EventEnvelope)
    requires AllChained(h, rows)
    ensures Ingested(h, rows, envelope) ==
            if KnowsEvent(rows, envelope.eventId) || KnowsHash(rows, NextRow(h, rows, envelope).eventHash)
            then rows else rows + [NextRow(h, rows, envelope)]
    ensures NextRow(h, rows, envelope).envelope == envelope
  {
    if !KnowsEvent(rows, envelope.eventId) && !KnowsHash(rows, NextRow(h, rows, envelope).eventHash) {
      forall i | 0 <= i < |rows| && rows[i].envelope.tenantId == envelope.tenantId
        ensures rows[i].chainSeq != NextRow(h, rows, envelope).chainSeq
      {
        SequenceIsFresh(h, rows, envelope, i);
      }
    }
  }

  ghost predicate DistinctEvents(rows: seq<Row>) {
    forall i, j :: 0 <= i < j < |rows| ==>
      rows[i].envelope.eventId != rows[j].envelope.eventId && rows[i].eventHash != rows[j].eventHash
  }

  lemma DistinctSnoc(rows: seq<Row>, row: Row)
    requires DistinctEvents(rows) && !KnowsEvent(rows, row.envelope.eventId) && !KnowsHash(rows, row.eventHash)
    ensures DistinctEvents(rows + [row])
  {
  }

  /** However often events are re-sent, no two rows carry one event id or one
      hash, and every row is one of the events sent. */
  lemma {:induction false} EventsStoredOnce(h: Hasher, envelopes: seq<EventEnvelope>)
    ensures DistinctEvents(AfterIngests(h, envelopes))
    ensures forall i :: 0 <= i < |AfterIngests(h, envelopes)| ==> AfterIngests(h, envelopes)[i].envelope in envelopes
  {
    if envelopes != [] {
      var init, last := envelopes[..|envelopes| - 1], envelopes[|envelopes| - 1];
      EventsStoredOnce(h, init);
      EveryRunVerifies(h, init, "");
      var rows := AfterIngests(h, init);
      IngestedIff(h, rows, last);
      if AfterIngests(h, envelopes) != rows {
        DistinctSnoc(rows, NextRow(h, rows, last));
      }
      assert envelopes == init + [last];
    }
  }

  /** Tampering with the rows of any run: what is still accepted is a prefix of
      the tenant's own chain. */
  lemma TamperedRunIsPrefix(h: Hasher, envelopes: seq<EventEnvelope>, tenant: string, rows: seq<Row>)
    requires DrawnFrom(rows, Chain(AfterIngests(h, envelopes), tenant))
    ensures var original := Chain(AfterIngests(h, envelopes), tenant);
            Broken(h, original) || (Accepted(h, rows) <==> rows <= original)
  {
    EveryRunVerifies(h, envelopes, tenant);
    if !Broken(h, Chain(AfterIngests(h, envelopes), tenant)) {
      AcceptedIffPrefix(h, rows, Chain(AfterIngests(h, envelopes), tenant));
    }
  }

  /** The table behind the ingest path. */
  class EventStore {
    const hasher: Hasher
    var rows: seq<Row>

    ghost predicate Valid()
      reads this
    {
      AllChained(hasher, rows)
    }

    constructor (h: Hasher)
      ensures Valid() && rows == [] && hasher == h
    {
      hasher := h;
      rows := [];
      new;
      EveryRunVerifies(h, [], "");
    }

    method Ingest(envelope: EventEnvelope) returns (r: Result<Row, IngestError>)
      requires Valid()
      modifies this`rows
      ensures Valid()
      ensures rows == Ingested(hasher, old(rows), envelope)
      ensures r == if Duplicates(old(rows), NextRow(hasher, old(rows), envelope))
                   then Err(DuplicateEvent(envelope.eventId))
                   else Ok(NextRow(hasher, old(rows), envelope))
      ensures r.Err? <==> old(KnowsEvent(rows, envelope.eventId) || KnowsHash(rows, NextRow(hasher, rows, envelope).eventHash))
      ensures r.Err? ==> rows == old(rows)
      ensures r.Ok? ==> r.value.envelope == envelope && rows == old(rows) + [r.value]
      ensures r.Ok? ==> forall tenant ::
        Chain(rows, tenant) == old(Chain(rows, tenant)) + if tenant == envelope.tenantId then [r.value] else []
    {
      IngestKeepsChains(hasher, rows, envelope);
      IngestedIff(hasher, rows, envelope);
      forall tenant ensures Chain(rows + [NextRow(hasher, rows, envelope)], tenant)
        == Chain(rows, tenant) + if tenant == envelope.tenantId then [NextRow(hasher, rows, envelope)] else []
      {
        IngestExtendsOneChain(hasher, rows, envelope, tenant);
      }
      var chain := Chain(rows, envelope.tenantId);
      var prevHash: seq<byte> := GENESIS_HASH;
      var chainSeq := 1;
      if chain != [] {
        prevHash := chain[|chain| - 1].eventHash;
        chainSeq := chain[|chain| - 1].chainSeq + 1;
      }
      var row := Row(envelope, chainSeq, prevHash, ComputeEventHash(hasher, envelope, prevHash));
      if Duplicates(rows, row) {
        return Err(DuplicateEvent(envelope.eventId));
      }
      rows := rows + [row];
      return Ok(row);
    }

    method VerifyTenant(tenant: string) returns (eventCount: nat, violations: seq<ChainViolation>)
      ensures eventCount == |Chain(rows, tenant)|
      ensures violations == Violations(hasher, Chain(rows, tenant), eventCount)
      ensures violations == [] <==> Accepted(hasher, Chain(rows, tenant))
      ensures Valid() ==> violations == []
    {
      var chain := Chain(rows, tenant);
      eventCount := |chain|;
      violations := VerifyChain(hasher, chain);
      if AllChained(hasher, rows) {
        AcceptedSorted(hasher, TenantRows(rows, tenant));
      }
    }
  }
}
