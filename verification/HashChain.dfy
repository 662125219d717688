/** The per-tenant hash chain: append, full verification, and what an accepted
    chain pins down.

    The digest and the canonical encoding are arbitrary functions. A digest of
    fixed width always has collisions somewhere, so the guarantees are stated as
    "the claim holds, or the hash breaks on inputs these very rows hash". */
module HashChain {
  import opened Wrappers
  import opened Sorting

  type byte = x: int | 0 <= x < 256

  function Zeros(n: nat): (s: seq<byte>)
    ensures |s| == n
  {
    seq(n, i => 48)
  }

  /** A hex digest as ASCII: sixty-four characters, whatever was hashed. */
  type HashText = s: seq<byte> | |s| == 64 witness Zeros(64)

  /** Sixty-four ASCII zeros, the predecessor of a tenant's first event. */
  const GENESIS_HASH: HashText := Zeros(64)

  datatype ModelInfo = ModelInfo(provider: string, name: string, version: string)

  datatype CostInfo = CostInfo(inputTokens: nat, outputTokens: nat, usd: real)

  datatype DataClassification = Public | Internal | Confidential | Restricted

  datatype EventEnvelope = EventEnvelope(
    eventId: string,
    occurredAt: int,
    tenantId: string,
    agentId: string,
    releaseId: string,
    campaignId: Option<string>,
    traceId: string,
    taskId: string,
    eventType: string,
    schemaVersion: nat,
    artifactDigests: seq<string>,
    model: ModelInfo,
    environmentDigest: string,
    cost: CostInfo,
    dataClassification: DataClassification,
    payloadUri: Option<string>,
    payloadDigest: Option<string>)

  /** A stored event: its envelope columns and its hash-chain columns. */
  datatype Row = Row(envelope: EventEnvelope, chainSeq: int, prevHash: seq<byte>, eventHash: seq<byte>)

  datatype Hasher = Hasher(canonicalBytes: EventEnvelope -> seq<byte>, sha256: seq<byte> -> HashText)

  function HashInput(h: Hasher, envelope: EventEnvelope, prevHash: seq<byte>): seq<byte> {
    h.canonicalBytes(envelope) + prevHash
  }

  function ComputeEventHash(h: Hasher, envelope: EventEnvelope, prevHash: seq<byte>): HashText {
    h.sha256(HashInput(h, envelope, prevHash))
  }

  // -- verification -------------------------------------------------------------

  datatype ViolationReason = SequenceGap | PrevHashMismatch | HashMismatch

  datatype ChainViolation = ChainViolation(chainSeq: int, eventId: string, reason: ViolationReason)

  function RowViolations(h: Hasher, row: Row, expectedPrev: seq<byte>, expectedSeq: int): seq<ChainViolation> {
    var id := row.envelope.eventId;
    (if row.chainSeq != expectedSeq then [ChainViolation(row.chainSeq, id, SequenceGap)] else [])
    + (if row.prevHash != expectedPrev then [ChainViolation(row.chainSeq, id, PrevHashMismatch)] else [])
    + (if ComputeEventHash(h, row.envelope, row.prevHash) != row.eventHash
       then [ChainViolation(row.chainSeq, id, HashMismatch)] else [])
  }

  function PrevExpected(rows: seq<Row>, i: nat): seq<byte>
    requires i <= |rows|
  {
    if i == 0 then GENESIS_HASH else rows[i - 1].eventHash
  }

  function SeqExpected(rows: seq<Row>, i: nat): int
    requires i <= |rows|
  {
    if i == 0 then 1 else rows[i - 1].chainSeq + 1
  }

  /** The violations of the first `count` rows, in walk order. */
  function Violations(h: Hasher, rows: seq<Row>, count: nat): seq<ChainViolation>
    requires count <= |rows|
  {
    if count == 0 then []
    else Violations(h, rows, count - 1)
         + RowViolations(h, rows[count - 1], PrevExpected(rows, count - 1), SeqExpected(rows, count - 1))
  }

  method VerifyChain(h: Hasher, rows: seq<Row>) returns (violations: seq<ChainViolation>)
    ensures violations == Violations(h, rows, |rows|)
    ensures violations == [] <==> Accepted(h, rows)
  {
    violations := [];
    var expectedPrevHash := GENESIS_HASH;
    var expectedChainSeq := 1;
    for i := 0 to |rows|
      invariant expectedPrevHash == PrevExpected(rows, i)
      invariant expectedChainSeq == SeqExpected(rows, i)
      invariant violations == Violations(h, rows, i)
    {
      var row := rows[i];
      var found: seq<ChainViolation> := [];
      if row.chainSeq != expectedChainSeq {
        found := found + [ChainViolation(row.chainSeq, row.envelope.eventId, SequenceGap)];
      }
      if row.prevHash != expectedPrevHash {
        found := found + [ChainViolation(row.chainSeq, row.envelope.eventId, PrevHashMismatch)];
      }
      var recomputed := ComputeEventHash(h, row.envelope, row.prevHash);
      if recomputed != row.eventHash {
        found := found + [ChainViolation(row.chainSeq, row.envelope.eventId, HashMismatch)];
      }
      violations := violations + found;
      expectedPrevHash := row.eventHash;
      expectedChainSeq := row.chainSeq + 1;
    }
    AcceptedIffNoViolation(h, rows, |rows|);
    assert rows[..|rows|] == rows;
  }

  /** A well-formed chain: numbered from one, each row naming its predecessor's
      hash and carrying its own. */
  ghost predicate Accepted(h: Hasher, rows: seq<Row>) {
    forall i :: 0 <= i < |rows| ==> Linked(h, rows, i)
  }

  ghost predicate Linked(h: Hasher, rows: seq<Row>, i: nat)
    requires i < |rows|
  {
    && rows[i].chainSeq == i + 1
    && rows[i].prevHash == PrevExpected(rows, i)
    && rows[i].eventHash == ComputeEventHash(h, rows[i].envelope, rows[i].prevHash)
  }

  lemma {:induction false} AcceptedIffNoViolation(h: Hasher, rows: seq<Row>, count: nat)
    requires count <= |rows|
    ensures Violations(h, rows, count) == [] <==> Accepted(h, rows[..count])
  {
    if count > 0 {
      AcceptedIffNoViolation(h, rows, count - 1);
      var shorter, longer := rows[..count - 1], rows[..count];
      forall i | 0 <= i < count - 1 ensures Linked(h, shorter, i) <==> Linked(h, longer, i) {
      }
      if Accepted(h, longer) {
        forall i | 0 <= i < count - 1 ensures Linked(h, shorter, i) {
          assert Linked(h, longer, i);
        }
        assert Linked(h, longer, count - 1);
        assert count > 1 ==> Linked(h, longer, count - 2);
      }
      if Violations(h, rows, count) == [] {
        assert count > 1 ==> Linked(h, shorter, count - 2);
        assert Linked(h, longer, count - 1);
        forall i | 0 <= i < count ensures Linked(h, longer, i) {
          assert i < count - 1 ==> Linked(h, shorter, i);
        }
      }
    }
  }

  // -- what an accepted chain pins ----------------------------------------------

  /** `prev` has a fixed width, so the hashed concatenation splits one way. */
  lemma InputSplits(x: seq<byte>, p: seq<byte>, y: seq<byte>, q: seq<byte>)
    requires |p| == |q| && x + p == y + q
    ensures x == y && p == q
  {
    assert |x| == |y|;
    assert x == (x + p)[..|x|] && y == (y + q)[..|y|];
    assert p == (x + p)[|x|..] && q == (y + q)[|y|..];
  }

  ghost function InputAt(h: Hasher, rows: seq<Row>, i: nat): seq<byte>
    requires i < |rows|
  {
    HashInput(h, rows[i].envelope, rows[i].prevHash)
  }

  /** Two of these rows hash different inputs to the same digest. */
  ghost predicate Collides(h: Hasher, rows: seq<Row>) {
    exists i, j | 0 <= i < |rows| && 0 <= j < |rows| ::
      && InputAt(h, rows, i) != InputAt(h, rows, j)
      && h.sha256(InputAt(h, rows, i)) == h.sha256(InputAt(h, rows, j))
  }

  /** One of these rows hashes to the genesis sentinel. */
  ghost predicate HitsGenesis(h: Hasher, rows: seq<Row>) {
    exists i :: 0 <= i < |rows| && h.sha256(InputAt(h, rows, i)) == GENESIS_HASH
  }

  /** Two different envelopes among these rows encode to the same bytes. */
  ghost predicate EncodingClashes(h: Hasher, rows: seq<Row>) {
    exists i, j | 0 <= i < |rows| && 0 <= j < |rows| ::
      && rows[i].envelope != rows[j].envelope
      && h.canonicalBytes(rows[i].envelope) == h.canonicalBytes(rows[j].envelope)
  }

  ghost predicate Broken(h: Hasher, rows: seq<Row>) {
    Collides(h, rows) || HitsGenesis(h, rows) || EncodingClashes(h, rows)
  }

  /** Equal event hashes in two accepted chains stand at the same position and
      close the same history: same envelopes, same columns, all the way back. */
  lemma {:induction false} EventHashPinsHistory(h: Hasher, a: seq<Row>, b: seq<Row>, i: nat, j: nat)
    requires Accepted(h, a) && Accepted(h, b) && i < |a| && j < |b|
    requires a[i].eventHash == b[j].eventHash
    ensures Broken(h, a + b) || (i == j && a[..i + 1] == b[..j + 1])
    decreases i
  {
    var rows := a + b;
    if !Broken(h, rows) {
      assert Linked(h, a, i) && Linked(h, b, j);
      assert i > 0 ==> Linked(h, a, i - 1);
      assert j > 0 ==> Linked(h, b, j - 1);
      var k := |a| + j;
      assert rows[i] == a[i] && rows[k] == b[j];
      assert InputAt(h, rows, i) == InputAt(h, rows, k);
      InputSplits(h.canonicalBytes(a[i].envelope), a[i].prevHash, h.canonicalBytes(b[j].envelope), b[j].prevHash);
      if i == 0 && j > 0 {
        NotGenesis(h, rows, k - 1);
      } else if j == 0 && i > 0 {
        NotGenesis(h, rows, i - 1);
      } else if i > 0 && j > 0 {
        EventHashPinsHistory(h, a, b, i - 1, j - 1);
        assert a[..i + 1] == a[..i] + [a[i]] && b[..j + 1] == b[..j] + [b[j]];
      }
    }
  }

  lemma NotGenesis(h: Hasher, rows: seq<Row>, i: nat)
    requires !Broken(h, rows) && i < |rows|
    ensures ComputeEventHash(h, rows[i].envelope, rows[i].prevHash) != GENESIS_HASH
  {
    assert h.sha256(InputAt(h, rows, i)) == ComputeEventHash(h, rows[i].envelope, rows[i].prevHash);
  }

  /** Two accepted chains with the same last event hash are the same chain. */
  lemma SameHeadSameChain(h: Hasher, a: seq<Row>, b: seq<Row>)
    requires Accepted(h, a) && Accepted(h, b) && a != [] && b != []
    requires a[|a| - 1].eventHash == b[|b| - 1].eventHash
    ensures Broken(h, a + b) || a == b
  {
    EventHashPinsHistory(h, a, b, |a| - 1, |b| - 1);
    assert a[..|a|] == a && b[..|b|] == b;
  }

  // -- tampering ----------------------------------------------------------------

  /** Every row of `rows` is a row of `original`, perhaps renumbered: what
      dropping, duplicating, reordering and renumbering can produce. */
  ghost predicate DrawnFrom(rows: seq<Row>, original: seq<Row>) {
    forall k :: 0 <= k < |rows| ==> Renumbers(rows[k], original)
  }

  ghost predicate Renumbers(row: Row, original: seq<Row>) {
    exists m :: 0 <= m < |original| && row == original[m].(chainSeq := row.chainSeq)
  }

  lemma BrokenInOriginal(h: Hasher, rows: seq<Row>, original: seq<Row>)
    requires DrawnFrom(rows, original) && Broken(h, rows + original)
    ensures Broken(h, original)
  {
    var all := rows + original;
    forall k | 0 <= k < |all|
      ensures exists m :: (0 <= m < |original| && all[k].envelope == original[m].envelope
                           && InputAt(h, all, k) == InputAt(h, original, m))
    {
      if k < |rows| {
        assert Renumbers(rows[k], original);
        var m :| 0 <= m < |original| && rows[k] == original[m].(chainSeq := rows[k].chainSeq);
        assert InputAt(h, all, k) == InputAt(h, original, m);
      } else {
        assert InputAt(h, all, k) == InputAt(h, original, k - |rows|);
      }
    }
  }

  lemma PrefixAccepted(h: Hasher, original: seq<Row>, n: nat)
    requires Accepted(h, original) && n <= |original|
    ensures Accepted(h, original[..n])
  {
    forall i | 0 <= i < n ensures Linked(h, original[..n], i) {
      assert Linked(h, original, i);
    }
  }

  /** Of everything that can be assembled from a tenant's ingested rows,
      verification accepts exactly the prefixes of the original chain. */
  lemma AcceptedIffPrefix(h: Hasher, rows: seq<Row>, original: seq<Row>)
    requires Accepted(h, original) && DrawnFrom(rows, original) && !Broken(h, original)
    ensures Accepted(h, rows) <==> rows <= original
  {
    if rows <= original {
      PrefixAccepted(h, original, |rows|);
      assert rows == original[..|rows|];
    }
    if Accepted(h, rows) && rows != [] {
      var last := |rows| - 1;
      assert Renumbers(rows[last], original);
      var m :| 0 <= m < |original| && rows[last] == original[m].(chainSeq := rows[last].chainSeq);
      EventHashPinsHistory(h, rows, original, last, m);
      if Broken(h, rows + original) {
        BrokenInOriginal(h, rows, original);
      }
      assert rows[..|rows|] == rows;
    }
  }

  /** Rewriting the envelope of an accepted row while keeping its hash columns
      is rejected, unless the rewritten rows exhibit a break. */
  lemma MutationDetected(h: Hasher, rows: seq<Row>, i: nat, envelope: EventEnvelope)
    requires Accepted(h, rows) && i < |rows| && envelope != rows[i].envelope
    ensures var mutated := rows[i := rows[i].(envelope := envelope)];
            !Accepted(h, mutated) || Broken(h, rows + mutated)
  {
    var mutated := rows[i := rows[i].(envelope := envelope)];
    if Accepted(h, mutated) {
      EventHashPinsHistory(h, rows, mutated, i, i);
      assert rows[..i + 1][i] != mutated[..i + 1][i];
    }
  }
}
