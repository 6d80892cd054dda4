/** The two analytics transactions of one room: consuming the next event, and replaying into a new epoch. */
module Pipeline {
  import opened Domain
  import opened Sequences
  import opened EchoMap
  import opened EchoProjection
  import opened ProjectionStore

  // ----- what a transaction computes before it writes -----

  datatype Approval = EdgeApproval(edgeId: string) | EvidenceApproval(eventId: string)

  /** The results of the reference algorithms and the correction ledger for one transaction, taken as given:
      nothing below depends on how they were computed. `late` names the event a late-event replay is owed for. */
  datatype Inputs = Inputs(
    graph: ConceptGraph, refs: EvidenceIndex, approvals: set<Approval>, approvedNodes: set<string>,
    traceTeacher: string, traceStudent: string, watermark: Instant,
    late: Option<string>, warnings: seq<string>, lastEventType: string)

  datatype PipelineError =
    | CursorGap | CursorBehind | HeadSetIncomplete | HeadEpochMismatch | EventSequenceInvalid
    | EvidenceInvalid | ProjectionFailed(cause: ProjectError) | StoreFailed(reason: StoreError)
    | ReplayAuthorityConflict

  datatype Tables = Tables(rows: map<ProjectionKey, KeyRows>, checkpoint: nat, replays: map<string, nat>)

  const PROJECTION_KEYS := [EchoTeacher, EchoStudent, TraceTeacher, TraceStudent]

  // ----- approvals -----

  predicate Approves(key: string, refs: EvidenceIndex, approvals: set<Approval>) {
    key in refs && refs[key].eventId != "" && EvidenceApproval(refs[key].eventId) in approvals
  }

  predicate CitesApproved(e: Relation, refs: EvidenceIndex, approvals: set<Approval>) {
    exists i :: 0 <= i < |e.evidence| && Approves(e.evidence[i], refs, approvals)
  }

  /** A citation that names no event, met before any approved one. */
  predicate ScanFails(e: Relation, refs: EvidenceIndex, approvals: set<Approval>) {
    exists i :: 0 <= i < |e.evidence| && (e.evidence[i] in refs ==> refs[e.evidence[i]].eventId == "")
                && forall j :: 0 <= j < i ==> !Approves(e.evidence[j], refs, approvals)
  }

  function ApprovedEdgeIds(room: string, es: seq<Relation>, refs: EvidenceIndex, approvals: set<Approval>): set<string> {
    (set a | a in approvals && a.EdgeApproval? :: a.edgeId)
    + (set e | e in es && CitesApproved(e, refs, approvals) :: WireEdgeId(room, IdentityOf(e)))
  }

  function ViewsOf(room: string, x: Inputs): Result<Views, PipelineError> {
    if exists e :: e in x.graph.edges && ScanFails(e, x.refs, x.approvals) then Err(EvidenceInvalid)
    else
      match Projected(room, x.graph, x.refs, ApprovedEdgeIds(room, x.graph.edges, x.refs, x.approvals), x.approvedNodes)
      case Err(e) => Err(ProjectionFailed(e))
      case Ok(v) => Ok(v)
  }

  // ----- one projection version -----

  /** _patch_baseline: only a snapshot of the same epoch is a base. */
  function PatchBaseline(r: KeyRows, epoch: Epoch): Graph {
    match r.head
    case None => EMPTY_GRAPH
    case Some(h) =>
      if h.snapshotId.None? || h.snapshotId.value !in r.snapshots || h.epoch != epoch then EMPTY_GRAPH
      else
        match r.snapshots[h.snapshotId.value].payload
        case EchoPayload(g) => g
        case TracePayload(_) => EMPTY_GRAPH
  }

  function NextVersion(r: KeyRows, epoch: Epoch): int {
    1 + if r.head.Some? && r.head.value.epoch == epoch then r.head.value.version else 0
  }

  function MetadataFor(key: ProjectionKey, b: Build, epoch: Epoch, version: int, through: nat, x: Inputs,
          enqueue: bool): Metadata {
    var requiresReplay := x.late.Some? && enqueue;
    Metadata(epoch, b.VersionFor(key), b.parameterHash, version, version - 1, through, x.watermark, requiresReplay,
             Dedupe(x.warnings + if requiresReplay then ["requires_replay"] else []), [])
  }

  function EchoSnapshot(key: ProjectionKey, m: Metadata, g: Graph): Snapshot {
    Snapshot(key, m.epoch, m.algorithmVersion, m.parameterHash, m.projectionVersion, m.baseVersion,
             m.completeThrough, m.watermark, m.requiresReplay, m.warnings,
             if key.EchoStudent? && g != EMPTY_GRAPH then Approved else Unreviewed,
             if key.EchoStudent? then StudentApproved else TeacherShadow, EchoPayload(g))
  }

  function TraceSnapshot(key: ProjectionKey, m: Metadata, bundle: string): Snapshot {
    Snapshot(key, m.epoch, m.algorithmVersion, m.parameterHash, m.projectionVersion, m.baseVersion,
             m.completeThrough, m.watermark, m.requiresReplay, m.warnings,
             if key.TraceStudent? then Approved else Unreviewed,
             if key.TraceStudent? then StudentAggregate else TeacherShadow, TracePayload(bundle))
  }

  predicate PatchChanges(p: Patch) {
    p.nodes != Delta([], [], []) || p.edges != Delta([], [], []) || p.positionUpdates != []
  }

  function ReasonCodes(p: Patch, x: Inputs): seq<string> {
    (if x.late.Some? then ["late_event"] else [])
    + (if PatchChanges(p) then ["event_applied"] else ["semantic_noop:" + x.lastEventType])
  }

  /** The patch is computed, explained, and computed again with its explanation. */
  function EchoPatch(key: ProjectionKey, prior: Graph, g: Graph, m: Metadata, x: Inputs): Patch {
    var draft := DiffGraphs(prior, g, m, key.EchoStudent?);
    DiffGraphs(prior, g, m.(reasonCodes := ReasonCodes(draft, x)), key.EchoStudent?)
  }

  function GraphFor(key: ProjectionKey, v: Views): Graph {
    if key.EchoStudent? then v.student else v.teacher
  }

  function SnapshotFor(key: ProjectionKey, m: Metadata, v: Views, x: Inputs): Snapshot {
    match key
    case TraceTeacher => TraceSnapshot(key, m, x.traceTeacher)
    case TraceStudent => TraceSnapshot(key, m, x.traceStudent)
    case _ => EchoSnapshot(key, m, GraphFor(key, v))
  }

  function PatchFor(key: ProjectionKey, r: KeyRows, m: Metadata, v: Views, x: Inputs): Option<Patch> {
    if key.IsEcho() then Some(EchoPatch(key, PatchBaseline(r, m.epoch), GraphFor(key, v), m, x)) else None
  }

  function PersistKey(key: ProjectionKey, r: KeyRows, b: Build, epoch: Epoch, through: nat, v: Views, x: Inputs,
          enqueue: bool): Result<KeyRows, StoreError> {
    var m := MetadataFor(key, b, epoch, NextVersion(r, epoch), through, x, enqueue);
    Persisted(r, SnapshotFor(key, m, v, x), PatchFor(key, r, m, v, x))
  }

  // ----- one transaction -----

  predicate AllKeys(t: Tables) { forall k: ProjectionKey :: k in t.rows }

  type KeyStep = (ProjectionKey, KeyRows) -> Result<KeyRows, StoreError>

  function StepOf(b: Build, epoch: Epoch, through: nat, v: Views, x: Inputs, enqueue: bool): KeyStep {
    (key, r) => PersistKey(key, r, b, epoch, through, v, x, enqueue)
  }

  lemma StepIs(key: ProjectionKey, r: KeyRows, b: Build, epoch: Epoch, through: nat, v: Views, x: Inputs, enqueue: bool)
    ensures StepOf(b, epoch, through, v, x, enqueue)(key, r) == PersistKey(key, r, b, epoch, through, v, x, enqueue)
  {
  }

  /** The loop over the projection keys: each key takes its step, and the first failure ends the transaction. */
  function PersistFrom(i: nat, t: Tables, step: KeyStep): Result<Tables, PipelineError>
    requires i <= |PROJECTION_KEYS| && AllKeys(t)
    decreases |PROJECTION_KEYS| - i
  {
    if i == |PROJECTION_KEYS| then Ok(t)
    else
      var key := PROJECTION_KEYS[i];
      match step(key, t.rows[key])
      case Err(e) => Err(StoreFailed(e))
      case Ok(r) => PersistFrom(i + 1, t.(rows := t.rows[key := r]), step)
  }

  ghost predicate KeyDone(step: Result<KeyRows, StoreError>, key: ProjectionKey, rows: map<ProjectionKey, KeyRows>,
                               rows': map<ProjectionKey, KeyRows>, error: Option<PipelineError>)
  {
    match step
    case Err(e) => error == Some(StoreFailed(e))
    case Ok(r) => error == None && rows' == rows[key := r]
  }

  lemma StepTakes(i: nat, t: Tables, rows: map<ProjectionKey, KeyRows>, step: KeyStep, error: Option<PipelineError>)
    requires i < |PROJECTION_KEYS| && AllKeys(t)
    requires KeyDone(step(PROJECTION_KEYS[i], t.rows[PROJECTION_KEYS[i]]), PROJECTION_KEYS[i], t.rows, rows, error)
    ensures PersistFrom(i, t, step) == if error.Some? then Err(error.value) else PersistFrom(i + 1, t.(rows := rows), step)
  {
  }

  /** One replay request per late event: asking again for another cursor is refused. */
  function EnqueueReplay(replays: map<string, nat>, event: string, through: nat): Result<map<string, nat>, PipelineError> {
    if event !in replays then Ok(replays[event := through])
    else if replays[event] == through then Ok(replays)
    else Err(ReplayAuthorityConflict)
  }

  function Owed(x: Inputs, enqueue: bool): Option<string> {
    if enqueue then x.late else None
  }

  /** After the four projections: the checkpoint moves forward, and an owed replay is requested. */
  function Settled(t: Tables, through: nat, owed: Option<string>): Result<Tables, PipelineError> {
    var checkpoint := if through > t.checkpoint then through else t.checkpoint;
    match owed
    case None => Ok(t.(checkpoint := checkpoint))
    case Some(event) =>
      match EnqueueReplay(t.replays, event, through)
      case Err(e) => Err(e)
      case Ok(replays) => Ok(Tables(t.rows, checkpoint, replays))
  }

  function Materialized(room: string, t: Tables, b: Build, epoch: Epoch, through: nat, x: Inputs,
          enqueue: bool): Result<Tables, PipelineError>
    requires AllKeys(t)
  {
    if through == 0 then Err(EventSequenceInvalid)
    else
      match ViewsOf(room, x)
      case Err(e) => Err(e)
      case Ok(v) =>
        match PersistFrom(0, t, StepOf(b, epoch, through, v, x, enqueue))
        case Err(e) => Err(e)
        case Ok(t') => Settled(t', through, Owed(x, enqueue))
  }

  predicate BuiltBy(h: Head, key: ProjectionKey, b: Build) {
    h.algorithmVersion == b.VersionFor(key) && h.parameterHash == b.parameterHash
  }

  predicate NoHeads(t: Tables) requires AllKeys(t) { forall k: ProjectionKey :: t.rows[k].head.None? }

  predicate AllHeads(t: Tables) requires AllKeys(t) { forall k: ProjectionKey :: t.rows[k].head.Some? }

  predicate OneEpoch(t: Tables, epoch: Epoch)
    requires AllKeys(t) && AllHeads(t)
  {
    forall k: ProjectionKey :: t.rows[k].head.value.epoch == epoch
  }

  predicate OneBuild(t: Tables, b: Build)
    requires AllKeys(t) && AllHeads(t)
  {
    forall k: ProjectionKey :: BuiltBy(t.rows[k].head.value, k, b)
  }

  /** _current_or_initial_epoch: continue the visible epoch, unless another build wrote it. */
  function CurrentEpoch(t: Tables, b: Build): Result<Epoch, PipelineError>
    requires AllKeys(t)
  {
    if NoHeads(t) then Ok(InitialEpoch)
    else if !AllHeads(t) then Err(HeadSetIncomplete)
    else
      var epoch := t.rows[EchoTeacher].head.value.epoch;
      if !OneEpoch(t, epoch) then Err(HeadEpochMismatch)
      else if !OneBuild(t, b) then Ok(RotatedEpoch(b))
      else Ok(epoch)
  }

  /** analytics_consume_handler for the event `seq`. */
  function Consumed(room: string, t: Tables, b: Build, seq_: nat, x: Inputs): Result<Tables, PipelineError>
    requires AllKeys(t)
  {
    if t.checkpoint >= seq_ then Ok(t)
    else if t.checkpoint + 1 != seq_ then Err(CursorGap)
    else
      match CurrentEpoch(t, b)
      case Err(e) => Err(e)
      case Ok(epoch) => Materialized(room, t, b, epoch, seq_, x, true)
  }

  predicate AlreadyReplayed(t: Tables, epoch: Epoch)
    requires AllKeys(t)
  {
    forall k: ProjectionKey ::
      var h := t.rows[k].head;
      h.Some? && h.value.epoch == epoch && h.value.completeThrough >= t.checkpoint
  }

  /** analytics_replay_handler: everything up to the checkpoint goes into the job's own epoch. */
  function Replayed(room: string, t: Tables, b: Build, jobId: nat, requested: nat, x: Inputs): Result<Tables, PipelineError>
    requires AllKeys(t)
  {
    if t.checkpoint < requested then Err(CursorBehind)
    else if AlreadyReplayed(t, ReplayEpoch(jobId)) then Ok(t)
    else Materialized(room, t, b, ReplayEpoch(jobId), t.checkpoint, x, false)
  }

  // ----- runs -----

  datatype Op =
    | Consume(build: Build, roomSeq: nat, inputs: Inputs)
    | Replay(build: Build, jobId: nat, requested: nat, inputs: Inputs)

  function Attempt(room: string, t: Tables, op: Op): Result<Tables, PipelineError>
    requires AllKeys(t)
  {
    match op
    case Consume(b, n, x) => Consumed(room, t, b, n, x)
    case Replay(b, j, n, x) => Replayed(room, t, b, j, n, x)
  }

  const EMPTY_TABLES := Tables(EMPTY_ROWS, 0, map[])

  // ----- the handlers, statement by statement -----

  /** _approved_echo_edge_ids: explicit edge approvals, and relations citing an approved event. */
  method ResolveApprovals(room: string, es: seq<Relation>, refs: EvidenceIndex,
          approvals: set<Approval>) returns (r: Result<set<string>, PipelineError>)
    ensures (exists e :: e in es && ScanFails(e, refs, approvals)) ==> r == Err(EvidenceInvalid)
    ensures !(exists e :: e in es && ScanFails(e, refs, approvals)) ==> r == Ok(ApprovedEdgeIds(room, es, refs, approvals))
  {
    var direct := set a | a in approvals && a.EdgeApproval? :: a.edgeId;
    var cited: set<string> := {};
    var i := 0;
    while i < |es|
      invariant 0 <= i <= |es|
      invariant forall e :: e in es[..i] ==> !ScanFails(e, refs, approvals)
      invariant cited == set e | e in es[..i] && CitesApproved(e, refs, approvals) :: WireEdgeId(room, IdentityOf(e))
    {
      assert es[..i + 1] == es[..i] + [es[i]];
      var approved := ScanEvidence(es[i], refs, approvals);
      if approved.None? { return Err(EvidenceInvalid); }
      if approved.value { cited := cited + {WireEdgeId(room, IdentityOf(es[i]))}; }
      i := i + 1;
    }
    assert es[..i] == es;
    return Ok(direct + cited);
  }

  /** One relation's citations, up to the first approved one. */
  method ScanEvidence(e: Relation, refs: EvidenceIndex, approvals: set<Approval>) returns (approved: Option<bool>)
    ensures approved.None? <==> ScanFails(e, refs, approvals)
    ensures approved.Some? ==> (approved.value <==> CitesApproved(e, refs, approvals))
  {
    var j := 0;
    while j < |e.evidence|
      invariant 0 <= j <= |e.evidence|
      invariant forall k :: 0 <= k < j ==>
        e.evidence[k] in refs && refs[e.evidence[k]].eventId != "" && !Approves(e.evidence[k], refs, approvals)
    {
      var key := e.evidence[j];
      if key !in refs || refs[key].eventId == "" { return None; }
      if EvidenceApproval(refs[key].eventId) in approvals { return Some(true); }
      j := j + 1;
    }
    return Some(false);
  }

  /** The worker's side of one room: the store, and the replay requests it has queued. */
  class AnalyticsHandlers {
    const room: string
    const store: Store
    var replays: map<string, nat>

    ghost predicate Valid() reads this, store { store.Valid() }

    ghost function Contents(): Tables reads this, store { Tables(store.rows, store.checkpoint, replays) }

    constructor (room: string)
      ensures Valid() && fresh(store) && this.room == room && Contents() == EMPTY_TABLES
    {
      this.room := room;
      this.store := new Store();
      this.replays := map[];
      new;
      EveryKeyEmpty();
      assert store.rows == EMPTY_ROWS;
    }

    /** _materialize, from the projected graph on: four projections, the checkpoint, and a replay request if one is owed. */
    method Materialize(b: Build, epoch: Epoch, through: nat, x: Inputs,
            enqueue: bool) returns (outcome: Result<(), PipelineError>)
      requires Valid()
      modifies this`replays, store
      ensures Valid()
      ensures outcome.Ok? ==> Materialized(room, old(Contents()), b, epoch, through, x, enqueue) == Ok(Contents())
      ensures outcome.Err? ==> Materialized(room, old(Contents()), b, epoch, through, x, enqueue) == Err(outcome.error)
    {
      if through == 0 { return Err(EventSequenceInvalid); }
      var error := MaterializeKeys(b, epoch, through, x, enqueue);
      if error.Some? { return Err(error.value); }
      outcome := Settle(through, Owed(x, enqueue));
    }

    method Settle(through: nat, owed: Option<string>) returns (outcome: Result<(), PipelineError>)
      requires Valid()
      modifies this`replays, store`checkpoint
      ensures Valid()
      ensures outcome.Ok? ==> Settled(old(Contents()), through, owed) == Ok(Contents())
      ensures outcome.Err? ==> Settled(old(Contents()), through, owed) == Err(outcome.error)
    {
      store.AdvanceCheckpoint(through);
      if owed.Some? {
        var event := owed.value;
        if event !in replays {
          replays := replays[event := through];
        } else if replays[event] != through {
          return Err(ReplayAuthorityConflict);
        }
      }
      return Ok(());
    }

    method MaterializeKeys(b: Build, epoch: Epoch, through: nat, x: Inputs,
            enqueue: bool) returns (error: Option<PipelineError>)
      requires Valid()
      modifies store`rows
      ensures Valid()
      ensures ViewsOf(room, x).Err? ==> error == Some(ViewsOf(room, x).error)
      ensures ViewsOf(room, x).Ok? ==>
        PersistFrom(0, old(Contents()), StepOf(b, epoch, through, ViewsOf(room, x).value, x, enqueue))
        == if error.Some? then Err(error.value) else Ok(Contents())
    {
      ghost var views := ViewsOf(room, x);
      ghost var v := if views.Ok? then views.value else Views(EMPTY_GRAPH, EMPTY_GRAPH);
      ghost var step := StepOf(b, epoch, through, v, x, enqueue);
      ghost var done := PersistFrom(0, Contents(), step);
      var i := 0;
      while i < |PROJECTION_KEYS|
        invariant 0 <= i <= |PROJECTION_KEYS| && Valid()
        invariant views.Err? ==> i == 0
        invariant views.Ok? ==> PersistFrom(i, Contents(), step) == done
      {
        error := MaterializePass(i, b, epoch, through, x, enqueue, step);
        if error.Some? { return; }
        i := i + 1;
      }
      error := None;
    }

    /** One pass of the loop, which stops at the first key that fails. */
    method MaterializePass(i: nat, b: Build, epoch: Epoch, through: nat, x: Inputs, enqueue: bool,
            ghost step: KeyStep) returns (error: Option<PipelineError>)
      requires Valid() && i < |PROJECTION_KEYS|
      requires ViewsOf(room, x).Ok? ==> step == StepOf(b, epoch, through, ViewsOf(room, x).value, x, enqueue)
      modifies store`rows
      ensures Valid()
      ensures ViewsOf(room, x).Err? && i == 0 ==> error == Some(ViewsOf(room, x).error)
      ensures ViewsOf(room, x).Ok? ==>
        PersistFrom(i, old(Contents()), step) == if error.Some? then Err(error.value) else PersistFrom(i + 1, Contents(), step)
    {
      error := MaterializeKey(PROJECTION_KEYS[i], b, epoch, through, x, enqueue);
      if ViewsOf(room, x).Ok? {
        StepIs(PROJECTION_KEYS[i], old(store.rows)[PROJECTION_KEYS[i]], b, epoch, through, ViewsOf(room, x).value, x, enqueue);
        StepTakes(i, old(Contents()), store.rows, step, error);
      }
    }

    /** The rows of one key, from the head's version to the next. */
    method MaterializeKey(key: ProjectionKey, b: Build, epoch: Epoch, through: nat, x: Inputs,
            enqueue: bool) returns (error: Option<PipelineError>)
      requires Valid()
      modifies store`rows
      ensures Valid()
      ensures key.IsEcho() && ViewsOf(room, x).Err? ==> error == Some(ViewsOf(room, x).error)
      ensures ViewsOf(room, x).Ok? ==>
        KeyDone(PersistKey(key, old(store.rows)[key], b, epoch, through, ViewsOf(room, x).value, x, enqueue), key, old(store.rows), store.rows, error)
    {
      var m := MetadataFor(key, b, epoch, NextVersion(store.rows[key], epoch), through, x, enqueue);
      var projected := ProjectKey(key, m, x);
      if projected.Err? { return Some(projected.error); }
      var (snapshot, patch) := projected.value;
      var stored := store.PersistAndAdvance(snapshot, patch);
      return if stored.Err? then Some(StoreFailed(stored.error)) else None;
    }

    /** The snapshot of one key, and for an ECHO key the patch that leads to it. */
    method ProjectKey(key: ProjectionKey, m: Metadata,
            x: Inputs) returns (r: Result<(Snapshot, Option<Patch>), PipelineError>)
      requires Valid()
      ensures key.IsEcho() && ViewsOf(room, x).Err? ==> r == Err(ViewsOf(room, x).error)
      ensures ViewsOf(room, x).Ok? ==>
        var v := ViewsOf(room, x).value;
        r == Ok((SnapshotFor(key, m, v, x), PatchFor(key, store.rows[key], m, v, x)))
    {
      if key.TraceTeacher? { return Ok((TraceSnapshot(key, m, x.traceTeacher), None)); }
      if key.TraceStudent? { return Ok((TraceSnapshot(key, m, x.traceStudent), None)); }
      var approved := ResolveApprovals(room, x.graph.edges, x.refs, x.approvals);
      if approved.Err? { return Err(approved.error); }
      var projected := ProjectEchoSnapshot(room, x.graph, x.refs, approved.value, x.approvedNodes);
      if projected.Err? { return Err(ProjectionFailed(projected.error)); }
      var current := if key.EchoTeacher? then projected.value.teacher else projected.value.student;
      var patch := EchoPatch(key, PatchBaseline(store.rows[key], m.epoch), current, m, x);
      return Ok((EchoSnapshot(key, m, current), Some(patch)));
    }

    /** Both handlers run in one transaction: an error leaves every table as it was. */
    method Run(op: Op) returns (outcome: Result<(), PipelineError>)
      requires Valid()
      modifies this`replays, store
      ensures Valid()
      ensures outcome.Ok? ==> Attempt(room, old(Contents()), op) == Ok(Contents())
      ensures outcome.Err? ==> Attempt(room, old(Contents()), op) == Err(outcome.error) && Contents() == old(Contents())
    {
      var rows, checkpoint, queued := store.rows, store.checkpoint, replays;
      match op {
        case Consume(b, n, x) => outcome := ConsumeEvent(b, n, x);
        case Replay(b, j, n, x) => outcome := ReplayRoom(b, j, n, x);
      }
      if outcome.Err? {
        store.rows, store.checkpoint, replays := rows, checkpoint, queued;
      }
    }

    method ConsumeEvent(b: Build, roomSeq: nat, x: Inputs) returns (outcome: Result<(), PipelineError>)
      requires Valid()
      modifies this`replays, store
      ensures Valid()
      ensures outcome.Ok? ==> Consumed(room, old(Contents()), b, roomSeq, x) == Ok(Contents())
      ensures outcome.Err? ==> Consumed(room, old(Contents()), b, roomSeq, x) == Err(outcome.error)
    {
      if store.checkpoint >= roomSeq { return Ok(()); }
      if store.checkpoint + 1 != roomSeq { return Err(CursorGap); }
      var epoch := CurrentEpoch(Tables(store.rows, store.checkpoint, replays), b);
      if epoch.Err? { return Err(epoch.error); }
      outcome := Materialize(b, epoch.value, roomSeq, x, true);
    }

    method ReplayRoom(b: Build, jobId: nat, requested: nat, x: Inputs) returns (outcome: Result<(), PipelineError>)
      requires Valid()
      modifies this`replays, store
      ensures Valid()
      ensures outcome.Ok? ==> Replayed(room, old(Contents()), b, jobId, requested, x) == Ok(Contents())
      ensures outcome.Err? ==> Replayed(room, old(Contents()), b, jobId, requested, x) == Err(outcome.error)
    {
      var through := store.checkpoint;
      if through < requested { return Err(CursorBehind); }
      var epoch := ReplayEpoch(jobId);
      if AlreadyReplayed(Tables(store.rows, store.checkpoint, replays), epoch) { return Ok(()); }
      outcome := Materialize(b, epoch, through, x, false);
    }
  }
}
