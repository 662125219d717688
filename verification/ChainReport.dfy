/** What a chain verification reports, reason by reason. */
module ChainReport {
  import opened Wrappers
  import opened HashChain

  /** Row `i` gives the reason, read off the rows themselves. */
  predicate Gives(h: Hasher, rows: seq<Row>, i: nat, reason: ViolationReason)
    requires i < |rows|
  {
    match reason
    case SequenceGap => if i == 0 then rows[0].chainSeq != 1 else rows[i].chainSeq != rows[i - 1].chainSeq + 1
    case PrevHashMismatch => if i == 0 then rows[0].prevHash != GENESIS_HASH else rows[i].prevHash != rows[i - 1].eventHash
    case HashMismatch => rows[i].eventHash != h.sha256(h.canonicalBytes(rows[i].envelope) + rows[i].prevHash)
  }

  function Own(row: Row, reason: ViolationReason): ChainViolation {
    ChainViolation(row.chainSeq, row.envelope.eventId, reason)
  }

  /** What row `i` adds to the report. */
  function Added(h: Hasher, rows: seq<Row>, i: nat): seq<ChainViolation>
    requires i < |rows|
  {
    RowViolations(h, rows[i], PrevExpected(rows, i), SeqExpected(rows, i))
  }

  /** Its reasons, in the fixed order, each with the row's number and event. */
  lemma AddedAre(h: Hasher, rows: seq<Row>, i: nat)
    requires i < |rows|
    ensures Added(h, rows, i) ==
              (if Gives(h, rows, i, SequenceGap) then [Own(rows[i], SequenceGap)] else [])
              + (if Gives(h, rows, i, PrevHashMismatch) then [Own(rows[i], PrevHashMismatch)] else [])
              + (if Gives(h, rows, i, HashMismatch) then [Own(rows[i], HashMismatch)] else [])
  {
  }

  /** The violation is the row's own, for a reason it gives. */
  predicate Shows(h: Hasher, rows: seq<Row>, i: nat, v: ChainViolation)
    requires i < |rows|
  {
    Gives(h, rows, i, v.reason) && v == Own(rows[i], v.reason)
  }

  lemma OneOf(h: Hasher, rows: seq<Row>, i: nat, v: ChainViolation)
    requires i < |rows|
    ensures v in Added(h, rows, i) <==> Shows(h, rows, i, v)
  {
    AddedAre(h, rows, i);
  }

  lemma ReportedNext(h: Hasher, rows: seq<Row>, i: nat, v: ChainViolation)
    requires i < |rows|
    ensures v in Violations(h, rows, i + 1) <==> v in Violations(h, rows, i) || Shows(h, rows, i, v)
  {
    assert Violations(h, rows, i + 1) == Violations(h, rows, i) + Added(h, rows, i);
    OneOf(h, rows, i, v);
  }

  ghost predicate ShownBefore(h: Hasher, rows: seq<Row>, count: nat, v: ChainViolation)
    requires count <= |rows|
  {
    exists i :: 0 <= i < count && Shows(h, rows, i, v)
  }

  lemma ShownNext(h: Hasher, rows: seq<Row>, i: nat, v: ChainViolation)
    requires i < |rows|
    ensures ShownBefore(h, rows, i + 1, v) <==> ShownBefore(h, rows, i, v) || Shows(h, rows, i, v)
  {
  }

  /** The report holds exactly the violations some row gives. */
  lemma ReportedIff(h: Hasher, rows: seq<Row>, v: ChainViolation)
    ensures v in Violations(h, rows, |rows|) <==> ShownBefore(h, rows, |rows|, v)
  {
    for n := 0 to |rows|
      invariant v in Violations(h, rows, n) <==> ShownBefore(h, rows, n, v)
    {
      ReportedNext(h, rows, n, v);
      ShownNext(h, rows, n, v);
    }
  }

  // -- tampering with one row -------------------------------------------------------

  predicate Silent(h: Hasher, rows: seq<Row>, i: nat)
    requires i < |rows|
  {
    Added(h, rows, i) == []
  }

  ghost predicate Quiet(h: Hasher, rows: seq<Row>, m: nat, n: nat)
    requires m <= n <= |rows|
  {
    forall i :: m <= i < n ==> Silent(h, rows, i)
  }

  /** The report so far, after each number of rows. */
  function Reports(h: Hasher, rows: seq<Row>): seq<seq<ChainViolation>> {
    seq(|rows| + 1, i requires 0 <= i <= |rows| => Violations(h, rows, i))
  }

  predicate Stays<T(==)>(values: seq<T>, i: nat)
    requires i + 1 < |values|
  {
    values[i + 1] == values[i]
  }

  lemma {:induction false} Level<T>(values: seq<T>, m: nat, n: nat)
    requires m <= n < |values| && forall i :: m <= i < n ==> Stays(values, i)
    ensures values[n] == values[m]
  {
    if m < n {
      Level(values, m, n - 1);
      assert Stays(values, n - 1);
    }
  }

  lemma SilentStretch(h: Hasher, rows: seq<Row>, m: nat, n: nat)
    requires m <= n <= |rows| && Quiet(h, rows, m, n)
    ensures Violations(h, rows, n) == Violations(h, rows, m)
  {
    var reports := Reports(h, rows);
    forall i | m <= i < n ensures Stays(reports, i) {
      SilentNext(h, rows, i);
    }
    Level(reports, m, n);
  }

  lemma SilentNext(h: Hasher, rows: seq<Row>, i: nat)
    requires i < |rows| && Silent(h, rows, i)
    ensures Violations(h, rows, i + 1) == Violations(h, rows, i)
  {
    assert Violations(h, rows, i + 1) == Violations(h, rows, i) + Added(h, rows, i);
    assert Violations(h, rows, i) + [] == Violations(h, rows, i);
  }

  /** Only row `k` adds anything. */
  lemma OnlyRow(h: Hasher, rows: seq<Row>, k: nat)
    requires k < |rows| && Quiet(h, rows, 0, k) && Quiet(h, rows, k + 1, |rows|)
    ensures Violations(h, rows, |rows|) == Added(h, rows, k)
  {
    SilentStretch(h, rows, 0, k);
    SilentStretch(h, rows, k + 1, |rows|);
    assert [] + Added(h, rows, k) == Added(h, rows, k);
  }

  lemma LinkedFacts(h: Hasher, rows: seq<Row>, i: nat)
    requires Accepted(h, rows) && i < |rows|
    ensures rows[i].chainSeq == i + 1 && rows[i].prevHash == PrevExpected(rows, i)
    ensures rows[i].eventHash == ComputeEventHash(h, rows[i].envelope, rows[i].prevHash)
  {
    assert Linked(h, rows, i);
  }

  function Without(rows: seq<Row>, k: nat): (r: seq<Row>)
    requires k < |rows|
    ensures |r| == |rows| - 1
    ensures forall i :: 0 <= i < |r| ==> r[i] == rows[if i < k then i else i + 1]
  {
    rows[..k] + rows[k + 1..]
  }

  lemma DroppedElsewhere(h: Hasher, rows: seq<Row>, k: nat, i: nat)
    requires Accepted(h, rows) && k < |rows| && i < |rows| - 1 && i != k
    ensures Silent(h, Without(rows, k), i)
  {
    var at := if i < k then i else i + 1;
    LinkedFacts(h, rows, at);
    if i > 0 {
      LinkedFacts(h, rows, at - 1);
    }
  }

  lemma DroppedAt(h: Hasher, rows: seq<Row>, k: nat)
    requires Accepted(h, rows) && k + 1 < |rows| && rows[k].eventHash != PrevExpected(rows, k)
    ensures Added(h, Without(rows, k), k) == [Own(rows[k + 1], SequenceGap), Own(rows[k + 1], PrevHashMismatch)]
  {
    LinkedFacts(h, rows, k + 1);
    LinkedFacts(h, rows, k);
    if k > 0 {
      LinkedFacts(h, rows, k - 1);
    }
  }

  /** Dropping one row before the last is reported at its successor and nowhere
      else: a gap, and a previous hash that no longer matches, unless the dropped
      row's hash was its own predecessor's. */
  lemma DroppedRowReport(h: Hasher, rows: seq<Row>, k: nat)
    requires Accepted(h, rows) && k + 1 < |rows| && rows[k].eventHash != PrevExpected(rows, k)
    ensures Violations(h, Without(rows, k), |rows| - 1) == [Own(rows[k + 1], SequenceGap), Own(rows[k + 1], PrevHashMismatch)]
  {
    forall i | 0 <= i < |rows| - 1 && i != k ensures Silent(h, Without(rows, k), i) {
      DroppedElsewhere(h, rows, k, i);
    }
    OnlyRow(h, Without(rows, k), k);
    DroppedAt(h, rows, k);
  }

  function Rewritten(rows: seq<Row>, k: nat, envelope: EventEnvelope): (r: seq<Row>)
    requires k < |rows|
    ensures |r| == |rows|
  {
    rows[k := rows[k].(envelope := envelope)]
  }

  lemma RewrittenElsewhere(h: Hasher, rows: seq<Row>, k: nat, envelope: EventEnvelope, i: nat)
    requires Accepted(h, rows) && k < |rows| && i < |rows| && i != k
    ensures Silent(h, Rewritten(rows, k, envelope), i)
  {
    LinkedFacts(h, rows, i);
    if i > 0 {
      LinkedFacts(h, rows, i - 1);
    }
  }

  lemma RewrittenAt(h: Hasher, rows: seq<Row>, k: nat, envelope: EventEnvelope)
    requires Accepted(h, rows) && k < |rows| && ComputeEventHash(h, envelope, rows[k].prevHash) != rows[k].eventHash
    ensures Added(h, Rewritten(rows, k, envelope), k) == [ChainViolation(k + 1, envelope.eventId, HashMismatch)]
  {
    LinkedFacts(h, rows, k);
    if k > 0 {
      LinkedFacts(h, rows, k - 1);
    }
  }

  /** Rewriting an envelope under its old hashes is one hash mismatch at that row,
      and nothing else. */
  lemma RewrittenRowReport(h: Hasher, rows: seq<Row>, k: nat, envelope: EventEnvelope)
    requires Accepted(h, rows) && k < |rows| && ComputeEventHash(h, envelope, rows[k].prevHash) != rows[k].eventHash
    ensures Violations(h, Rewritten(rows, k, envelope), |rows|) == [ChainViolation(k + 1, envelope.eventId, HashMismatch)]
  {
    forall i | 0 <= i < |rows| && i != k ensures Silent(h, Rewritten(rows, k, envelope), i) {
      RewrittenElsewhere(h, rows, k, envelope, i);
    }
    OnlyRow(h, Rewritten(rows, k, envelope), k);
    RewrittenAt(h, rows, k, envelope);
  }
}
