/** The orchestrator object, its content-addressed checkpoints, and the API
    endpoint that rebuilds it from rows for every request. */
module Campaigns {
  import opened Wrappers
  import opened Lifecycle
  import opened Compensation
  import opened Orchestrators

  /** A spec with the digest and signature it was pinned under. */
  datatype PinnedSpec = PinnedSpec(digest: string, specDigest: string, signatureVerifies: bool) {
    predicate Verify() {
      digest == specDigest && signatureVerifies
    }
  }

  datatype Snapshot = Snapshot(
    specDigest: string,
    phase: Phase,
    resumeTarget: Option<Phase>,
    transitions: seq<Transition>)

  /** The JSON text of a snapshot, left uninterpreted. */
  datatype SnapshotCodec = SnapshotCodec(encode: Snapshot -> Bytes, decode: Bytes -> Option<Snapshot>)

  datatype CampaignError =
    | Machine(error: MachineError)
    | Compensating(cause: CompensationError)
    | SpecTampered
    | BadCheckpoint

  function SnapshotOf(specDigest: string, s: State): Snapshot {
    Snapshot(specDigest, s.phase, s.resumeTarget, s.log)
  }

  class CampaignOrchestrator {
    const pinned: PinnedSpec
    const checkpoints: ContentStore
    const codec: SnapshotCodec
    const sink: TransitionSink
    const executionGate: bool
    const gate: CheckpointedCompensationGate?
    var phase: Phase
    var resumeTarget: Option<Phase>

    function Abs(): State
      reads this, sink
    {
      State(phase, resumeTarget, sink.log)
    }

    ghost function Footprint(): set<object> {
      {this, sink} + if gate == null then {} else {gate.executions, gate.executor}
    }

    constructor Init(pinned: PinnedSpec, checkpoints: ContentStore, codec: SnapshotCodec, sink: TransitionSink,
                     initialPhase: Phase, resumeTarget: Option<Phase>, executionGate: bool,
                     gate: CheckpointedCompensationGate?)
      requires pinned.Verify()
      ensures this.pinned == pinned && this.checkpoints == checkpoints && this.codec == codec && this.sink == sink
      ensures this.executionGate == executionGate && this.gate == gate
      ensures phase == initialPhase && this.resumeTarget == resumeTarget
    {
      this.pinned := pinned;
      this.checkpoints := checkpoints;
      this.codec := codec;
      this.sink := sink;
      this.executionGate := executionGate;
      this.gate := gate;
      this.phase := initialPhase;
      this.resumeTarget := resumeTarget;
    }

    /** Construction refuses a spec that no longer verifies and replays the given
        history into the sink. */
    static method Create(pinned: PinnedSpec, checkpoints: ContentStore, codec: SnapshotCodec, sink: TransitionSink,
                         initialPhase: Phase, resumeTarget: Option<Phase>, transitions: seq<Transition>,
                         executionGate: bool, gate: CheckpointedCompensationGate?)
      returns (r: Result<CampaignOrchestrator, CampaignError>)
      modifies sink
      ensures r.Ok? <==> pinned.digest == pinned.specDigest && pinned.signatureVerifies
      ensures r.Err? ==> r.error == SpecTampered && sink.log == old(sink.log)
      ensures r.Ok? ==>
        && fresh(r.value) && r.value.sink == sink && r.value.pinned == pinned && r.value.checkpoints == checkpoints
        && r.value.codec == codec && r.value.executionGate == executionGate && r.value.gate == gate
        && r.value.Abs() == State(initialPhase, resumeTarget, old(sink.log) + transitions)
    {
      if !pinned.Verify() {
        return Err(SpecTampered);
      }
      var o := new CampaignOrchestrator.Init(pinned, checkpoints, codec, sink, initialPhase, resumeTarget,
                                             executionGate, gate);
      for i := 0 to |transitions|
        invariant sink.log == old(sink.log) + transitions[..i]
        invariant o.phase == initialPhase && o.resumeTarget == resumeTarget
      {
        sink.Append(transitions[i]);
        assert transitions[..i + 1] == transitions[..i] + [transitions[i]];
      }
      assert transitions[..|transitions|] == transitions;
      return Ok(o);
    }

    method DoRecord(fromPhase: Phase, to: Phase, reason: string, now: real) returns (t: Transition)
      modifies this`phase, sink
      ensures phase == to && t == Transition(old(|sink.log|), fromPhase, to, reason, now)
      ensures sink.log == old(sink.log) + [t]
    {
      t := Transition(|sink.log|, fromPhase, to, reason, now);
      sink.Append(t);
      phase := to;
    }

    /** Whether every gate consulted before this edge returns cleanly. */
    ghost predicate Clears(to: Phase, executionApproves: bool)
      reads this, gate, if gate == null then {} else {gate.executions, gate.executor}
    {
      && (phase == Propose && to == DevEvaluate && executionGate ==> executionApproves)
      && (gate != null && phase == Approve && to == Canary ==>
           Verifies(gate.crypto, gate.plan) && Covers(gate.plan, gate.executions.records))
      && (gate != null && to == RolledBack ==> Completes(gate.plan, gate.executor.failing))
    }

    method DoTransition(to: Phase, reason: string, now: real, executionApproves: bool, clock: nat -> real)
      returns (r: Result<Transition, CampaignError>)
      modifies Footprint()
      ensures Abs() == After(old(Abs()), Call(Advance(to), reason, now, old(Clears(to, executionApproves))))
      ensures r.Ok? <==> Step(old(Abs()), Call(Advance(to), reason, now, old(Clears(to, executionApproves)))).Ok?
      ensures r.Ok? ==> sink.log == old(sink.log) + [r.value]
      ensures r.Err? ==> phase == old(phase) && resumeTarget == old(resumeTarget) && sink.log == old(sink.log)
      ensures old(phase) == Propose && to == DevEvaluate ==> (r.Err? <==> executionGate && !executionApproves)
      ensures gate != null ==> gate.executor.failing == old(gate.executor.failing)
      ensures gate != null ==>
        GatedState(Abs(), gate.executions.records)
        == GatedAfter(gate.crypto, gate.plan, old(GatedState(Abs(), gate.executions.records)),
                      Drive(Advance(to), reason, now, !executionGate || executionApproves,
                            old(gate.executor.failing), clock))
    {
      if !IsEdge(phase, to) {
        return Err(Machine(InvalidTransition(phase)));
      }
      if phase == Propose && to == DevEvaluate && executionGate && !executionApproves {
        return Err(Machine(GateRefused));
      }
      if gate != null {
        if phase == Approve && to == Canary {
          var approved := gate.ApproveCanary();
          if approved.Err? {
            return Err(Compensating(approved.error));
          }
        }
        if to == RolledBack {
          var walked := gate.ExecuteRollback(clock);
          if walked.Err? {
            return Err(Compensating(walked.error));
          }
        }
      }
      var t := DoRecord(phase, to, reason, now);
      return Ok(t);
    }

    method DoPause(reason: string, now: real) returns (r: Result<Transition, CampaignError>)
      modifies this, sink
      ensures Abs() == After(old(Abs()), Call(Pause, reason, now, true))
      ensures r.Ok? <==> Step(old(Abs()), Call(Pause, reason, now, true)).Ok?
      ensures r.Ok? ==> sink.log == old(sink.log) + [r.value]
    {
      if !CanPause(phase) {
        return Err(Machine(InvalidTransition(phase)));
      }
      resumeTarget := Some(phase);
      var t := DoRecord(phase, Paused, reason, now);
      return Ok(t);
    }

    method DoResume(reason: string, now: real) returns (r: Result<Transition, CampaignError>)
      modifies this, sink
      ensures Abs() == After(old(Abs()), Call(Resume, reason, now, true))
      ensures r.Ok? <==> Step(old(Abs()), Call(Resume, reason, now, true)).Ok?
      ensures r.Ok? ==> sink.log == old(sink.log) + [r.value] && r.value.toPhase == phase
    {
      if phase != Paused || resumeTarget.None? {
        return Err(Machine(InvalidTransition(phase)));
      }
      var target := resumeTarget.value;
      resumeTarget := None;
      var t := DoRecord(Paused, target, reason, now);
      return Ok(t);
    }

    method DoCancel(reason: string, now: real) returns (r: Result<Transition, CampaignError>)
      modifies this, sink
      ensures Abs() == After(old(Abs()), Call(Cancel, reason, now, true))
      ensures r.Ok? <==> Step(old(Abs()), Call(Cancel, reason, now, true)).Ok?
      ensures r.Ok? ==> sink.log == old(sink.log) + [r.value]
    {
      if !CanCancel(phase) {
        return Err(Machine(InvalidTransition(phase)));
      }
      resumeTarget := None;
      var t := DoRecord(phase, Cancelled, reason, now);
      return Ok(t);
    }

    method Checkpoint() returns (digest: string)
      modifies checkpoints`blobs
      ensures digest == checkpoints.digestOf(codec.encode(SnapshotOf(pinned.digest, Abs())))
      ensures checkpoints.blobs == old(checkpoints.blobs)[digest := codec.encode(SnapshotOf(pinned.digest, Abs()))]
      ensures Abs() == old(Abs())
    {
      digest := checkpoints.Store(codec.encode(SnapshotOf(pinned.digest, Abs())));
    }

    /** Digest first, then shape, then spec, then construction. */
    static method Reconstruct(pinned: PinnedSpec, checkpoints: ContentStore, codec: SnapshotCodec, digest: string,
                              sink: TransitionSink, executionGate: bool, gate: CheckpointedCompensationGate?)
      returns (r: Result<CampaignOrchestrator, CampaignError>)
      modifies sink
      ensures var loaded := LoadedSnapshot(codec, checkpoints.blobs, checkpoints.digestOf, digest, pinned.digest);
              && (r.Ok? <==> loaded.Some? && pinned.Verify())
              && (r.Err? ==> sink.log == old(sink.log) && r.error == if loaded.Some? then SpecTampered else BadCheckpoint)
              && (r.Ok? ==>
                   && fresh(r.value) && r.value.sink == sink && r.value.gate == gate
                   && r.value.executionGate == executionGate && r.value.pinned == pinned
                   && r.value.Abs() == ReplayedInto(old(sink.log), loaded.value))
    {
      if digest !in checkpoints.blobs {
        return Err(BadCheckpoint);
      }
      var data := checkpoints.blobs[digest];
      if checkpoints.digestOf(data) != digest {
        return Err(BadCheckpoint);
      }
      var payload := codec.decode(data);
      if payload.None? || payload.value.specDigest != pinned.digest {
        return Err(BadCheckpoint);
      }
      r := Create(pinned, checkpoints, codec, sink, payload.value.phase, payload.value.resumeTarget,
                  payload.value.transitions, executionGate, gate);
    }
  }

  function LoadedSnapshot(codec: SnapshotCodec, blobs: map<string, Bytes>, digestOf: Bytes -> string, digest: string,
                          specDigest: string): Option<Snapshot>
  {
    if digest !in blobs || digestOf(blobs[digest]) != digest then None
    else
      var payload := codec.decode(blobs[digest]);
      if payload.None? || payload.value.specDigest != specDigest then None else payload
  }

  /** The state of an orchestrator built from a snapshot over a sink that already
      holds `before`. */
  function ReplayedInto(before: seq<Transition>, snapshot: Snapshot): State {
    State(snapshot.phase, snapshot.resumeTarget, before + snapshot.transitions)
  }

  // -- checkpoint and reconstruct -------------------------------------------------

  /** Reconstructing from a checkpoint into a fresh sink gives back the very same
      state, whatever was stored since, unless two stored byte strings collide;
      it therefore answers every future run of calls identically. */
  lemma CheckpointRoundTrip(codec: SnapshotCodec, blobs: map<string, Bytes>, digestOf: Bytes -> string,
                            later: seq<Bytes>, specDigest: string, s: State, calls: seq<Call>)
    requires codec.decode(codec.encode(SnapshotOf(specDigest, s))) == Some(SnapshotOf(specDigest, s))
    ensures var data := codec.encode(SnapshotOf(specDigest, s));
            var after := StoreAll(blobs[digestOf(data) := data], digestOf, later);
            var loaded := LoadedSnapshot(codec, after, digestOf, digestOf(data), specDigest);
            || (loaded.Some? && ReplayedInto([], loaded.value) == s
                && RunFrom(ReplayedInto([], loaded.value), calls) == RunFrom(s, calls))
            || exists k :: 0 <= k < |later| && later[k] != data && digestOf(later[k]) == digestOf(data)
  {
    var data := codec.encode(SnapshotOf(specDigest, s));
    AddressKept(blobs[digestOf(data) := data], digestOf, data, later);
  }

  /** A checkpoint is no use to another spec, and bytes changed under its address
      are noticed unless they hash to it. */
  lemma CheckpointRefused(codec: SnapshotCodec, blobs: map<string, Bytes>, digestOf: Bytes -> string, digest: string,
                          specDigest: string, s: State)
    requires digest in blobs && codec.decode(blobs[digest]) == Some(SnapshotOf(specDigest, s))
    ensures forall other: string :: other != specDigest ==> LoadedSnapshot(codec, blobs, digestOf, digest, other).None?
    ensures digestOf(blobs[digest]) != digest ==> LoadedSnapshot(codec, blobs, digestOf, digest, specDigest).None?
    ensures digestOf(blobs[digest]) == digest ==>
              LoadedSnapshot(codec, blobs, digestOf, digest, specDigest) == Some(Snapshot(specDigest, s.phase, s.resumeTarget, s.log))
  {
  }

  /** An orchestrator checkpointed and reconstructed over a fresh sink: another
      object, with the same pin and gates, that stands in the same state. */
  method Restarted(o: CampaignOrchestrator) returns (revived: CampaignOrchestrator)
    requires o.pinned.Verify()
    requires o.codec.decode(o.codec.encode(SnapshotOf(o.pinned.digest, o.Abs()))) == Some(SnapshotOf(o.pinned.digest, o.Abs()))
    modifies o.checkpoints`blobs
    ensures fresh(revived) && fresh(revived.sink) && revived.Abs() == old(o.Abs()) == o.Abs()
    ensures revived.pinned == o.pinned && revived.executionGate == o.executionGate && revived.gate == o.gate
    ensures forall calls: seq<Call> :: RunFrom(revived.Abs(), calls) == RunFrom(old(o.Abs()), calls)
  {
    var digest := o.Checkpoint();
    var sink := new TransitionSink();
    var r := CampaignOrchestrator.Reconstruct(o.pinned, o.checkpoints, o.codec, digest, sink, o.executionGate, o.gate);
    revived := r.value;
    assert [] + o.sink.log == o.sink.log;
  }

  function RunFrom(s: State, calls: seq<Call>): State {
    if calls == [] then s else After(RunFrom(s, calls[..|calls| - 1]), calls[|calls| - 1])
  }

  lemma {:induction false} RunFromStart(calls: seq<Call>)
    ensures RunFrom(START, calls) == Run(calls)
  {
    if calls != [] {
      RunFromStart(calls[..|calls| - 1]);
    }
  }

  /** A fresh sink is required: replaying a non-empty history into a sink that is
      not empty never gives a gapless log, and replaying into an empty one does. */
  lemma FreshSinkNeeded(before: seq<Transition>, specDigest: string, s: State)
    requires Consistent(s) && s.log != []
    ensures Consistent(ReplayedInto(before, SnapshotOf(specDigest, s))) <==> before == []
  {
    var replayed := ReplayedInto(before, SnapshotOf(specDigest, s));
    assert s.log[0].sequence == 0;
    if before == [] {
      assert replayed == s;
    } else {
      assert replayed.log[|before|] == s.log[0];
    }
  }

  // -- rebuild per request --------------------------------------------------------

  datatype TransitionRow = TransitionRow(sequence: nat, fromPhase: Phase, toPhase: Phase, reason: string, occurredAt: real)

  /** The campaign row and its transition rows, in sequence order. */
  datatype CampaignRows = CampaignRows(phase: Phase, resumeTarget: Option<Phase>, rows: seq<TransitionRow>)

  datatype Request = Request(target: Phase, reason: string, occurredAt: real)

  function FromRow(row: TransitionRow): Transition {
    Transition(row.sequence, row.fromPhase, row.toPhase, row.reason, row.occurredAt)
  }

  function Rebuilt(c: CampaignRows): State {
    State(c.phase, c.resumeTarget, seq(|c.rows|, i requires 0 <= i < |c.rows| => FromRow(c.rows[i])))
  }

  /** What the endpoint asks of the machine for a target phase. */
  function CommandFor(s: State, target: Phase): Command {
    if target == Paused then Pause
    else if target == Cancelled then Cancel
    else if s.phase == Paused then Resume
    else Advance(target)
  }

  /** The endpoint against a state: a resume that would land somewhere other than
      the requested phase is refused as a whole. */
  function Answer(s: State, q: Request, now: real): Result<State, MachineError> {
    var r := Step(s, Call(CommandFor(s, q.target), q.reason, now, true));
    if r.Ok? && CommandFor(s, q.target) == Resume && r.value.phase != q.target then Err(InvalidTransition(s.phase)) else r
  }

  function AfterRequest(c: CampaignRows, q: Request): CampaignRows {
    var r := Answer(Rebuilt(c), q, 0.0);
    if r.Err? then c
    else
      var t := r.value.log[|r.value.log| - 1];
      CampaignRows(t.toPhase, r.value.resumeTarget,
                   c.rows + [TransitionRow(t.sequence, t.fromPhase, t.toPhase, t.reason, q.occurredAt)])
  }

  /** One request against a freshly built orchestrator, which has no gates. After
      a refused resume the orchestrator has moved on, but it is discarded. */
  method TakeOneStep(o: CampaignOrchestrator, q: Request) returns (t: Result<Transition, CampaignError>)
    requires o.gate == null && !o.executionGate
    modifies o, o.sink
    ensures t.Ok? <==> Answer(old(o.Abs()), q, 0.0).Ok?
    ensures t.Ok? ==> o.Abs() == Answer(old(o.Abs()), q, 0.0).value && o.sink.log == old(o.sink.log) + [t.value]
  {
    if q.target == Paused {
      t := o.DoPause(q.reason, 0.0);
    } else if q.target == Cancelled {
      t := o.DoCancel(q.reason, 0.0);
    } else if o.phase == Paused {
      t := o.DoResume(q.reason, 0.0);
      if t.Ok? && t.value.toPhase != q.target {
        return Err(Machine(InvalidTransition(Paused)));
      }
    } else {
      t := o.DoTransition(q.target, q.reason, 0.0, true, i => 0.0);
    }
  }

  /** The endpoint over the persisted rows: rebuild an orchestrator, take one
      step, persist one row; any refusal persists nothing. */
  class CampaignRecord {
    const pinned: PinnedSpec
    const codec: SnapshotCodec
    const digestOf: Bytes -> string
    var phase: Phase
    var resumeTarget: Option<Phase>
    var rows: seq<TransitionRow>

    constructor (pinned: PinnedSpec, codec: SnapshotCodec, digestOf: Bytes -> string)
      ensures this.pinned == pinned && Rows() == CampaignRows(Discover, None, [])
    {
      this.pinned := pinned;
      this.codec := codec;
      this.digestOf := digestOf;
      phase := Discover;
      resumeTarget := None;
      rows := [];
    }

    function Rows(): CampaignRows
      reads this
    {
      CampaignRows(phase, resumeTarget, rows)
    }

    method TransitionCampaign(q: Request) returns (r: Result<(), CampaignError>)
      modifies this
      ensures !pinned.Verify() ==> r == Err(SpecTampered) && Rows() == old(Rows())
      ensures pinned.Verify() ==>
        && Rows() == AfterRequest(old(Rows()), q)
        && (r.Ok? <==> Answer(old(Rebuilt(Rows())), q, 0.0).Ok?)
    {
      var transitions := Rebuilt(Rows()).log;
      var store := new ContentStore(digestOf);
      var sink := new TransitionSink();
      var rebuilt := CampaignOrchestrator.Create(pinned, store, codec, sink, phase, resumeTarget, transitions, false, null);
      if rebuilt.Err? {
        return Err(rebuilt.error);
      }
      var o := rebuilt.value;
      assert [] + transitions == transitions;
      assert o.Abs() == Rebuilt(Rows());
      var t := TakeOneStep(o, q);
      if t.Err? {
        return Err(t.error);
      }
      rows := rows + [TransitionRow(t.value.sequence, t.value.fromPhase, t.value.toPhase, t.value.reason, q.occurredAt)];
      phase := t.value.toPhase;
      resumeTarget := o.resumeTarget;
      return Ok(());
    }
  }

  // -- the loop refines one long-lived orchestrator -----------------------------------

  /** The rows tell the same story as an orchestrator's log, up to the times. */
  ghost predicate SameStory(c: CampaignRows, s: State) {
    && c.phase == s.phase && c.resumeTarget == s.resumeTarget && |c.rows| == |s.log|
    && forall i :: 0 <= i < |s.log| ==>
         && c.rows[i].sequence == s.log[i].sequence && c.rows[i].fromPhase == s.log[i].fromPhase
         && c.rows[i].toPhase == s.log[i].toPhase && c.rows[i].reason == s.log[i].reason
  }

  lemma RequestRefines(c: CampaignRows, s: State, q: Request, now: real)
    requires SameStory(c, s)
    ensures Answer(s, q, now).Ok? <==> AfterRequest(c, q) != c
    ensures Answer(s, q, now).Ok? ==> SameStory(AfterRequest(c, q), Answer(s, q, now).value)
  {
  }

  /** Two logs that record the same moves, whatever their reasons and times. */
  ghost predicate SameMoves(a: seq<Transition>, b: seq<Transition>) {
    && |a| == |b|
    && forall i :: 0 <= i < |a| ==>
         a[i].sequence == b[i].sequence && a[i].fromPhase == b[i].fromPhase && a[i].toPhase == b[i].toPhase
  }

  lemma {:induction false} SameVisits(a: seq<Transition>, b: seq<Transition>)
    requires SameMoves(a, b)
    ensures Visits(a) == Visits(b)
  {
    if a != [] {
      SameVisits(a[..|a| - 1], b[..|b| - 1]);
    }
  }

  lemma MovesDecide(s: State, t: State)
    requires Consistent(s) && SameMoves(t.log, s.log) && t.phase == s.phase && t.resumeTarget == s.resumeTarget
    ensures Consistent(t)
  {
    SameVisits(t.log, s.log);
    assert Effective(t) == Effective(s);
    forall i | 0 <= i < |t.log| ensures t.log[i].sequence == i && t.log[i].fromPhase == Reached(t.log, i) {
      assert s.log[i].fromPhase == Reached(s.log, i) == Reached(t.log, i);
    }
  }

  /** An orchestrator rebuilt from rows that tell a consistent story is itself
      consistent. */
  lemma RebuiltConsistent(c: CampaignRows, s: State)
    requires SameStory(c, s) && Consistent(s)
    ensures SameMoves(Rebuilt(c).log, s.log) && Consistent(Rebuilt(c))
  {
    assert SameMoves(Rebuilt(c).log, s.log);
    MovesDecide(s, Rebuilt(c));
  }

  function ApiRun(requests: seq<Request>): CampaignRows {
    if requests == [] then CampaignRows(Discover, None, [])
    else AfterRequest(ApiRun(requests[..|requests| - 1]), requests[|requests| - 1])
  }

  /** One orchestrator kept alive across the requests, with its own clock. */
  function LongLivedRun(requests: seq<Request>, clock: nat -> real): State {
    if requests == [] then START
    else
      var before := LongLivedRun(requests[..|requests| - 1], clock);
      var r := Answer(before, requests[|requests| - 1], clock(|requests| - 1));
      if r.Ok? then r.value else before
  }

  lemma AnswerIsStep(s: State, q: Request, now: real)
    ensures Answer(s, q, now).Ok? ==> Answer(s, q, now).value == After(s, Call(CommandFor(s, q.target), q.reason, now, true))
  {
  }

  /** For every sequence of requests the persisted rows are those of a single
      long-lived orchestrator, and so have every property of its runs. */
  lemma {:induction false} ApiRefinesOrchestrator(requests: seq<Request>, clock: nat -> real)
    ensures SameStory(ApiRun(requests), LongLivedRun(requests, clock))
    ensures Consistent(LongLivedRun(requests, clock)) && Consistent(Rebuilt(ApiRun(requests)))
  {
    if requests == [] {
      RunConsistent([]);
      assert Rebuilt(ApiRun([])) == START;
    } else {
      var init, q := requests[..|requests| - 1], requests[|requests| - 1];
      ApiRefinesOrchestrator(init, clock);
      var s := LongLivedRun(init, clock);
      RequestRefines(ApiRun(init), s, q, clock(|init|));
      AnswerIsStep(s, q, clock(|init|));
      StepKeepsConsistent(s, Call(CommandFor(s, q.target), q.reason, clock(|init|), true));
      RebuiltConsistent(ApiRun(requests), LongLivedRun(requests, clock));
    }
  }

  /** Asking a paused campaign for any phase but its resume target, a pause or a
      cancellation persists nothing. */
  lemma WrongResumeTargetPersistsNothing(requests: seq<Request>, q: Request)
    requires ApiRun(requests).phase == Paused && q.target != Cancelled
    requires ApiRun(requests).resumeTarget != Some(q.target)
    ensures AfterRequest(ApiRun(requests), q) == ApiRun(requests)
  {
  }

  // -- what a request does, target by target -------------------------------------------

  function Entered(c: CampaignRows, target: Phase, resumeTarget: Option<Phase>, q: Request): CampaignRows {
    CampaignRows(target, resumeTarget, c.rows + [TransitionRow(|c.rows|, c.phase, target, q.reason, q.occurredAt)])
  }

  /** A cancellation is refused only at the end: a paused campaign is cancelled
      like any other, and its resume target forgotten. */
  lemma CancelRequest(c: CampaignRows, q: Request)
    requires q.target == Cancelled
    ensures AfterRequest(c, q) == if c.phase == Learn || c.phase == Cancelled then c else Entered(c, Cancelled, None, q)
  {
  }

  /** A pause remembers the phase it interrupts, and is refused to a campaign that
      is paused already or has ended. */
  lemma PauseRequest(c: CampaignRows, q: Request)
    requires q.target == Paused
    ensures AfterRequest(c, q) ==
            if c.phase == Learn || c.phase == Cancelled || c.phase == Paused then c else Entered(c, Paused, Some(c.phase), q)
  {
  }

  /** A paused campaign moves on only to the phase it remembers. */
  lemma ResumeRequest(c: CampaignRows, q: Request)
    requires c.phase == Paused && q.target != Paused && q.target != Cancelled
    ensures AfterRequest(c, q) == if c.resumeTarget == Some(q.target) then Entered(c, q.target, None, q) else c
  {
  }

  /** Where a campaign that is not paused may be asked to go. */
  const NEXT: set<(Phase, Phase)> := {
    (Discover, Plan), (Plan, Propose), (Propose, DevEvaluate), (DevEvaluate, Propose), (DevEvaluate, SelectFreeze),
    (SelectFreeze, Holdout), (Holdout, Approve), (Approve, Phase.Canary), (Approve, Phase.RolledBack),
    (Phase.Canary, Promoted), (Phase.Canary, Phase.RolledBack), (Promoted, Learn), (Phase.RolledBack, Learn)}

  lemma AdvanceRequest(c: CampaignRows, q: Request)
    requires c.phase != Paused && q.target != Paused && q.target != Cancelled
    ensures AfterRequest(c, q) == if (c.phase, q.target) in NEXT then Entered(c, q.target, c.resumeTarget, q) else c
  {
  }

  /** Pausing is a detour: from a paused campaign the one phase that can be asked
      for, other than a cancellation, is the one it was paused in, and the two
      requests leave it in the phase they found it in. */
  lemma PauseIsADetour(c: CampaignRows, pause: Request, q: Request)
    requires pause.target == Paused && AfterRequest(c, pause) != c
    ensures var back := AfterRequest(AfterRequest(c, pause), q);
            q.target != Cancelled ==>
              && (back != AfterRequest(c, pause) <==> q.target == c.phase)
              && (q.target == c.phase ==>
                   back.phase == c.phase && back.resumeTarget == None && |back.rows| == |c.rows| + 2)
  {
    PauseRequest(c, pause);
    var paused := Entered(c, Paused, Some(c.phase), pause);
    if q.target == Paused {
      PauseRequest(paused, q);
    } else if q.target != Cancelled {
      ResumeRequest(paused, q);
    }
  }

  /** Nothing is persisted after the end. */
  lemma {:induction false} EndIsFinal(c: CampaignRows, requests: seq<Request>)
    requires c.phase == Learn || c.phase == Cancelled
    ensures AfterRequests(c, requests) == c
  {
    if requests != [] {
      EndIsFinal(c, requests[..|requests| - 1]);
      var q := requests[|requests| - 1];
      if q.target == Cancelled {
        CancelRequest(c, q);
      } else if q.target == Paused {
        PauseRequest(c, q);
      } else {
        AdvanceRequest(c, q);
      }
    }
  }

  function AfterRequests(c: CampaignRows, requests: seq<Request>): CampaignRows {
    if requests == [] then c else AfterRequest(AfterRequests(c, requests[..|requests| - 1]), requests[|requests| - 1])
  }
}
