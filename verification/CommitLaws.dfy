/** Exactly when a consume transaction commits, and two ways in which a room can no longer advance. */
module CommitLaws {
  import opened Domain
  import opened Sequences
  import opened EchoMap
  import opened EchoProjection
  import opened ProjectionStore
  import opened Pipeline
  import opened PipelineLaws
  import opened RoomLaws
  import opened Runs

  // ----- what the store accepts -----

  /** The limits of the stored patch shape that the projection itself does not guarantee. */
  predicate PatchFits(p: Patch) {
    && Short(p.nodes.hidden) && Short(p.reasonCodes) && Short(p.warnings)
    && (p.evidenceRefs.Some? ==> forall i :: 0 <= i < |p.evidenceRefs.value| ==> 0 <= p.evidenceRefs.value[i].start)
  }

  /** What the rows of a view look like, whatever the graph. */
  ghost predicate ViewShape(g: Graph, student: bool) {
    && (forall n :: n in g.nodes ==> 0.0 <= n.x <= 1.0 && 0.0 <= n.y <= 1.0 && (student ==> n.reviewStatus.Approved?))
    && (forall e :: e in g.edges ==> EdgeShapeValid(e, student))
    && EdgeSpansOk(g.edges)
  }

  lemma TeacherDetail(room: string, x: Inputs, v: Views)
    requires ViewsOf(room, x) == Ok(v)
    ensures forall e :: e in v.teacher.edges ==> e.detail.Some?
  {
    var approved := ApprovedEdgeIds(room, x.graph.edges, x.refs, x.approvals);
    TeacherRows(room, x.graph, x.refs, approved, x.approvedNodes, v);
    forall e | e in v.teacher.edges ensures e.detail.Some? {
      var i :| 0 <= i < |v.teacher.edges| && v.teacher.edges[i] == e;
      assert ProjectEdge(room, x.graph.edges[i], x.refs, approved) == Ok(e);
    }
  }

  lemma StudentShape(t: Graph, s: Graph)
    requires s == Graph(ApprovedNodes(t.nodes), ApprovedEdges(t.edges)) && ViewShape(t, false)
    ensures ViewShape(s, true)
  {
    ApprovedNodesMembers(t.nodes);
    ApprovedEdgesMembers(t.edges);
    StudentSpansOk(t.edges);
  }

  lemma ViewsHaveShape(room: string, x: Inputs, v: Views)
    requires ViewsOf(room, x) == Ok(v)
    ensures ViewShape(v.teacher, false) && ViewShape(v.student, true)
  {
    ProjectedWithinBounds(room, x.graph, x.refs, ApprovedEdgeIds(room, x.graph.edges, x.refs, x.approvals), x.approvedNodes, v);
    TeacherDetail(room, x, v);
    StudentShape(v.teacher, v.student);
  }

  lemma DiffShape(key: ProjectionKey, prior: Graph, g: Graph, m: Metadata)
    requires key.IsEcho() && EdgeSpansOk(g.edges)
    ensures ShownFits(g, DiffGraphs(prior, g, m, key.EchoStudent?), key.EchoStudent?)
  {
    DiffShows(prior, g, m, key.EchoStudent?);
    DiffSpansOk(prior, g, m, key.EchoStudent?);
    DiffScoreZero(prior, g, m, key.EchoStudent?);
  }

  lemma DiffParts(prior: Graph, g: Graph, m: Metadata, student: bool)
    ensures var p := DiffGraphs(prior, g, m, student);
            && p.nodes == DiffRows(MapOf(prior).nodes, ById(g.nodes, NodeId))
            && p.edges == DiffRows(MapOf(prior).edges, ById(g.edges, EdgeId))
  {
  }

  lemma DiffShows(prior: Graph, g: Graph, m: Metadata, student: bool)
    ensures var p := DiffGraphs(prior, g, m, student);
            && (forall n :: n in p.nodes.added || n in p.nodes.updated ==> n in g.nodes)
            && (forall e :: e in p.edges.added || e in p.edges.updated ==> e in g.edges)
  {
    DiffParts(prior, g, m, student);
    DiffShowsCurrent(g.nodes, MapOf(prior).nodes, NodeId);
    DiffShowsCurrent(g.edges, MapOf(prior).edges, EdgeId);
  }

  ghost predicate ShownFits(g: Graph, p: Patch, student: bool) {
    && p.positionUpdates == MapSeq(PositionOf, p.nodes.added + p.nodes.updated)
    && (forall n :: n in p.nodes.added || n in p.nodes.updated ==> n in g.nodes)
    && (forall e :: e in p.edges.added || e in p.edges.updated ==> e in g.edges)
    && PatchSpansOk(p) && 0.0 <= p.changeScore <= 1.0 && p.evidenceRefs.None? == student
  }

  ghost predicate Restates(s: Snapshot, p: Patch) {
    && p.epoch == s.epoch && p.algorithmVersion == s.algorithmVersion && p.parameterHash == s.parameterHash
    && p.projectionVersion == s.projectionVersion && p.baseVersion == s.baseVersion
    && p.completeThrough == s.completeThrough && p.requiresReplay == s.requiresReplay
  }

  lemma ShownIsValid(s: Snapshot, g: Graph, p: Patch)
    requires s.key.IsEcho() && ViewShape(g, s.key.EchoStudent?) && ShownFits(g, p, s.key.EchoStudent?) && Restates(s, p)
    ensures ValidPatch(s, p) <==> PatchFits(p)
  {
    var shown := p.nodes.added + p.nodes.updated;
    forall i | 0 <= i < |p.positionUpdates| ensures 0.0 <= p.positionUpdates[i].x <= 1.0 && 0.0 <= p.positionUpdates[i].y <= 1.0 {
      assert shown[i] in g.nodes;
    }
    assert p.evidenceRefs.Some? ==> forall i :: 0 <= i < |p.evidenceRefs.value| ==> p.evidenceRefs.value[i] in p.evidenceRefs.value;
  }

  lemma EchoPatchValid(key: ProjectionKey, r: KeyRows, m: Metadata, v: Views, x: Inputs)
    requires key.IsEcho() && ViewShape(v.teacher, false) && ViewShape(v.student, true)
    ensures ValidPatch(SnapshotFor(key, m, v, x), PatchFor(key, r, m, v, x).value) <==> PatchFits(PatchFor(key, r, m, v, x).value)
  {
    var prior, g := PatchBaseline(r, m.epoch), GraphFor(key, v);
    var draft := DiffGraphs(prior, g, m, key.EchoStudent?);
    DiffShape(key, prior, g, m.(reasonCodes := ReasonCodes(draft, x)));
    SnapshotFields(key, m, v, x);
    ShownIsValid(SnapshotFor(key, m, v, x), g, PatchFor(key, r, m, v, x).value);
  }

  // ----- one key -----

  ghost predicate KeyFits(key: ProjectionKey, r: KeyRows, b: Build, epoch: Epoch, through: nat, v: Views, x: Inputs,
          enqueue: bool) {
    var m := MetadataFor(key, b, epoch, NextVersion(r, epoch), through, x, enqueue);
    key.IsEcho() ==> PatchFits(PatchFor(key, r, m, v, x).value)
  }

  lemma PersistedIff(r: KeyRows, s: Snapshot, patch: Option<Patch>)
    requires s.projectionVersion == NextVersion(r, s.epoch) && ValidSnapshot(s)
    requires patch.Some? ==> (var k := (s.epoch, s.projectionVersion); k in r.patches ==> k in r.snapshots)
    requires var k := (s.epoch, s.projectionVersion); k in r.snapshots ==> r.snapshots[k] != SnapshotRowOf(s)
    ensures Persisted(r, s, patch).Ok? <==> (patch.Some? ==> ValidPatch(s, patch.value)) && (s.epoch, s.projectionVersion) !in r.snapshots
  {
  }

  lemma RowIsBehind(key: ProjectionKey, r: KeyRows, k: VersionKey, checkpoint: nat)
    requires RowsDescribe(key, r, checkpoint) && k in r.snapshots
    ensures r.snapshots[k].completeThrough <= checkpoint
  {
  }

  lemma NextIsPositive(r: KeyRows, epoch: Epoch, checkpoint: nat)
    requires Contiguous(r) && HeadInstalled(r, checkpoint)
    ensures NextVersion(r, epoch) >= 1
  {
    if r.head.Some? {
      assert (r.head.value.epoch, r.head.value.version) in r.snapshots;
    }
  }

  /** A stored version never covers an event beyond the checkpoint. */
  lemma StoredIsBehind(key: ProjectionKey, r: KeyRows, epoch: Epoch, through: nat, checkpoint: nat)
    requires KeyInvariant(key, r, checkpoint) && through > checkpoint
    ensures NextVersion(r, epoch) >= 1 && (key.IsEcho() ==> r.patches.Keys == r.snapshots.Keys)
    ensures var k := (epoch, NextVersion(r, epoch)); k in r.snapshots ==> r.snapshots[k].completeThrough != through
  {
    NextIsPositive(r, epoch, checkpoint);
    var k := (epoch, NextVersion(r, epoch));
    if k in r.snapshots { RowIsBehind(key, r, k, checkpoint); }
  }

  /** Moving forward, one key commits exactly when its version is free and its patch fits. */
  lemma {:induction false} KeyCommits(key: ProjectionKey, r: KeyRows, b: Build, epoch: Epoch, through: nat, v: Views,
          x: Inputs, enqueue: bool, checkpoint: nat)
    requires KeyInvariant(key, r, checkpoint) && through > checkpoint
    requires ViewShape(v.teacher, false) && ViewShape(v.student, true)
    ensures PersistKey(key, r, b, epoch, through, v, x, enqueue).Ok?
            <==> KeyFits(key, r, b, epoch, through, v, x, enqueue) && (epoch, NextVersion(r, epoch)) !in r.snapshots
  {
    StoredIsBehind(key, r, epoch, through, checkpoint);
    FreeKeyCommits(key, r, b, epoch, through, v, x, enqueue);
  }

  lemma FreeKeyCommits(key: ProjectionKey, r: KeyRows, b: Build, epoch: Epoch, through: nat, v: Views, x: Inputs,
          enqueue: bool)
    requires NextVersion(r, epoch) >= 1 && (key.IsEcho() ==> r.patches.Keys == r.snapshots.Keys)
    requires var k := (epoch, NextVersion(r, epoch)); k in r.snapshots ==> r.snapshots[k].completeThrough != through
    requires ViewShape(v.teacher, false) && ViewShape(v.student, true)
    ensures PersistKey(key, r, b, epoch, through, v, x, enqueue).Ok?
            <==> KeyFits(key, r, b, epoch, through, v, x, enqueue) && (epoch, NextVersion(r, epoch)) !in r.snapshots
  {
    var m := MetadataFor(key, b, epoch, NextVersion(r, epoch), through, x, enqueue);
    SnapshotFields(key, m, v, x);
    if key.IsEcho() { EchoPatchValid(key, r, m, v, x); }
    PersistedIff(r, SnapshotFor(key, m, v, x), PatchFor(key, r, m, v, x));
  }

  // ----- the room -----

  ghost predicate RoomFits(t: Tables, b: Build, epoch: Epoch, v: Views, x: Inputs)
    requires AllKeys(t)
  {
    forall k: ProjectionKey :: KeyFits(k, t.rows[k], b, epoch, t.checkpoint + 1, v, x, true)
  }

  /** A rotation needs an epoch that no earlier rotation to the same build has used. */
  ghost predicate VersionFree(t: Tables, b: Build)
    requires AllKeys(t)
  {
    t.checkpoint > 0 && AllHeads(t) && !OneBuild(t, b) ==> (RotatedEpoch(b), 1) !in t.rows[EchoTeacher].snapshots
  }

  lemma TargetVersionFree(t: Tables, b: Build, epoch: Epoch)
    requires Invariant(t) && CurrentEpoch(t, b) == Ok(epoch)
    ensures VersionFree(t, b) <==> (epoch, NextVersion(t.rows[EchoTeacher], epoch)) !in t.rows[EchoTeacher].snapshots
  {
    CurrentEpochDefined(t, b);
    assert KeyInvariant(EchoTeacher, t.rows[EchoTeacher], t.checkpoint);
    if t.checkpoint > 0 && !OneBuild(t, b) {
      RotationLeaves(t, b);
    }
  }

  lemma VersionsFree(t: Tables, epoch: Epoch, k: ProjectionKey)
    requires Invariant(t)
    ensures (epoch, NextVersion(t.rows[k], epoch)) in t.rows[k].snapshots
            <==> (epoch, NextVersion(t.rows[EchoTeacher], epoch)) in t.rows[EchoTeacher].snapshots
  {
    NextVersionsAgree(t, epoch, k);
    assert t.rows[k].snapshots.Keys == t.rows[EchoTeacher].snapshots.Keys;
  }

  /** All four projections are persisted exactly when the target version is free and the patches fit. */
  lemma RoomPersists(room: string, t: Tables, b: Build, epoch: Epoch, v: Views, x: Inputs)
    requires Invariant(t) && CurrentEpoch(t, b) == Ok(epoch) && ViewsOf(room, x) == Ok(v)
    ensures PersistFrom(0, t, StepOf(b, epoch, t.checkpoint + 1, v, x, true)).Ok? <==> RoomFits(t, b, epoch, v, x) && VersionFree(t, b)
  {
    var through := t.checkpoint + 1;
    var step := StepOf(b, epoch, through, v, x, true);
    ViewsHaveShape(room, x, v);
    PersistAllRows(t, step);
    TargetVersionFree(t, b, epoch);
    forall k: ProjectionKey
      ensures step(k, t.rows[k]).Ok? <==> KeyFits(k, t.rows[k], b, epoch, through, v, x, true) && VersionFree(t, b)
    {
      StepIs(k, t.rows[k], b, epoch, through, v, x, true);
      KeyCommits(k, t.rows[k], b, epoch, through, v, x, true, t.checkpoint);
      VersionsFree(t, epoch, k);
    }
  }

  lemma SettledIff(t: Tables, through: nat, owed: Option<string>)
    requires forall e :: e in t.replays ==> t.replays[e] < through
    ensures Settled(t, through, owed).Ok? <==> (owed.Some? ==> owed.value !in t.replays)
  {
  }

  lemma MaterializedIff(room: string, t: Tables, b: Build, epoch: Epoch, through: nat, v: Views, x: Inputs)
    requires AllKeys(t) && through > 0 && ViewsOf(room, x) == Ok(v)
    requires forall e :: e in t.replays ==> t.replays[e] < through
    ensures Materialized(room, t, b, epoch, through, x, true).Ok?
            <==> PersistFrom(0, t, StepOf(b, epoch, through, v, x, true)).Ok? && (x.late.Some? ==> x.late.value !in t.replays)
  {
    var step := StepOf(b, epoch, through, v, x, true);
    if PersistFrom(0, t, step).Ok? {
      var done := PersistFrom(0, t, step).value;
      StepsTaken(t, step, done);
      SettledIff(done, through, Owed(x, true));
    }
  }

  /** Every condition on the next consume but the one on late events. */
  ghost predicate Fits(room: string, t: Tables, b: Build, epoch: Epoch, x: Inputs)
    requires AllKeys(t)
  {
    ViewsOf(room, x).Ok? && RoomFits(t, b, epoch, ViewsOf(room, x).value, x) && VersionFree(t, b)
  }

  ghost predicate Commits(room: string, t: Tables, b: Build, epoch: Epoch, x: Inputs)
    requires AllKeys(t)
  {
    && Fits(room, t, b, epoch, x)
    && (x.late.Some? ==> x.late.value !in t.replays)
  }

  /** Exactly when consuming the next event commits: its graph projects, its patches fit, its build has not
      rotated here before, and the late event it owes a replay for has not been named by an earlier consume. */
  lemma ConsumeCommits(room: string, t: Tables, b: Build, epoch: Epoch, x: Inputs)
    requires Invariant(t) && CurrentEpoch(t, b) == Ok(epoch)
    ensures Consumed(room, t, b, t.checkpoint + 1, x).Ok? <==> Commits(room, t, b, epoch, x)
  {
    var through := t.checkpoint + 1;
    assert Consumed(room, t, b, through, x) == Materialized(room, t, b, epoch, through, x, true);
    match ViewsOf(room, x)
    case Err(_) =>
    case Ok(v) =>
      MaterializedIff(room, t, b, epoch, through, v, x);
      RoomPersists(room, t, b, epoch, v, x);
  }

  lemma ConsumeCommitsAt(room: string, t: Tables, b: Build, epoch: Epoch, n: nat, x: Inputs)
    requires Invariant(t) && CurrentEpoch(t, b) == Ok(epoch) && n == t.checkpoint + 1
    ensures Consumed(room, t, b, n, x).Ok? <==> Commits(room, t, b, epoch, x)
  {
    ConsumeCommits(room, t, b, epoch, x);
  }

  // ----- two dead ends -----

  lemma NamedEventBlocks(room: string, t: Tables, b: Build, x: Inputs)
    requires Invariant(t) && x.late.Some? && x.late.value in t.replays
    ensures Consumed(room, t, b, t.checkpoint + 1, x).Err?
  {
    CurrentEpochDefined(t, b);
    ConsumeCommits(room, t, b, CurrentEpoch(t, b).value, x);
  }

  lemma ConsumeNames(room: string, t: Tables, b: Build, x: Inputs, t': Tables)
    requires Invariant(t) && Consumed(room, t, b, t.checkpoint + 1, x) == Ok(t') && x.late.Some?
    ensures x.late.value in t'.replays
  {
    CurrentEpochDefined(t, b);
    MaterializedSteps(room, t, b, CurrentEpoch(t, b).value, t.checkpoint + 1, x, true, t');
  }

  lemma MaterializedRequests(room: string, t: Tables, b: Build, epoch: Epoch, n: nat, x: Inputs, t': Tables)
    requires AllKeys(t) && Materialized(room, t, b, epoch, n, x, true) == Ok(t')
    ensures t'.replays == match x.late case None => t.replays case Some(e) => t.replays[e := n]
  {
    MaterializedSteps(room, t, b, epoch, n, x, true, t');
  }

  /** A committed consume asks for a replay of the event it names, which nobody has asked for before. */
  lemma ConsumeRequestsOnce(room: string, t: Tables, b: Build, n: nat, x: Inputs, t': Tables)
    requires Invariant(t) && n == t.checkpoint + 1 && Consumed(room, t, b, n, x) == Ok(t')
    ensures x.late.Some? ==> x.late.value !in t.replays
    ensures t'.replays == match x.late case None => t.replays case Some(e) => t.replays[e := n]
  {
    var epoch := EpochFound(t, b);
    ConsumeCommitsAt(room, t, b, epoch, n, x);
    ConsumedIs(room, t, b, epoch, n, x);
    MaterializedRequests(room, t, b, epoch, n, x, t');
  }

  lemma ReplayRequestsNothing(room: string, t: Tables, b: Build, jobId: nat, requested: nat, x: Inputs, t': Tables)
    requires Invariant(t) && Replayed(room, t, b, jobId, requested, x) == Ok(t')
    ensures t'.replays == t.replays && t'.checkpoint == t.checkpoint
  {
    if !AlreadyReplayed(t, ReplayEpoch(jobId)) {
      MaterializedSteps(room, t, b, ReplayEpoch(jobId), t.checkpoint, x, false, t');
    }
  }

  /** Once a consume has owed a replay for a late event, every later consume that still names it fails, with any build. */
  lemma LateEventBlocks(room: string, t: Tables, b: Build, x: Inputs, t': Tables, b': Build, x': Inputs)
    requires Invariant(t) && Consumed(room, t, b, t.checkpoint + 1, x) == Ok(t')
    requires x.late.Some? && x'.late == x.late
    ensures Invariant(t') && Consumed(room, t', b', t'.checkpoint + 1, x').Err?
  {
    ConsumeNames(room, t, b, x, t');
    ConsumeKeeps(room, t, b, t.checkpoint + 1, x, t');
    NamedEventBlocks(room, t', b', x');
  }

  const BUILD_A := Build("echo-1", "trace-1", "parameters")

  const BUILD_B := Build("echo-2", "trace-1", "parameters")

  /** Inputs that show nothing: an empty graph and no warnings. */
  ghost predicate Plain(room: string, x: Inputs) {
    ViewsOf(room, x) == Ok(Views(EMPTY_GRAPH, EMPTY_GRAPH)) && x.warnings == [] && |x.lastEventType| <= 100
  }

  ghost predicate Quiet(room: string, x: Inputs) { Plain(room, x) && x.late.None? }

  const CHAT := Inputs(ConceptGraph([], []), map[], {}, {}, "", "", 0, None, [], "chat")

  lemma ChatIsQuiet(room: string)
    ensures Quiet(room, CHAT)
  {
    assert ApprovedEdges([]) == [] && ApprovedNodes([]) == [];
  }

  /** Between two empty maps the patch is empty, and only its texts could be too long. */
  lemma EmptyPatchFits(m: Metadata, student: bool)
    requires Short(m.warnings) && Short(m.reasonCodes)
    ensures PatchFits(DiffGraphs(EMPTY_GRAPH, EMPTY_GRAPH, m, student))
    ensures !PatchChanges(DiffGraphs(EMPTY_GRAPH, EMPTY_GRAPH, m, student))
  {
    var p := DiffGraphs(EMPTY_GRAPH, EMPTY_GRAPH, m, student);
    DiffParts(EMPTY_GRAPH, EMPTY_GRAPH, m, student);
    assert MapOf(EMPTY_GRAPH) == EMPTY_MAP;
    DiffRowsEmpty(EMPTY_MAP.nodes, EMPTY_MAP.nodes);
    DiffRowsEmpty(EMPTY_MAP.edges, EMPTY_MAP.edges);
    assert p.edges.added + p.edges.updated == [];
    assert SortRefs(CollectRefs([])) == [] by {
      assert forall y :: y !in CollectRefs([]);
    }
  }

  /** A patch always fits when there was nothing to show and there is nothing to show. */
  lemma QuietFits(key: ProjectionKey, r: KeyRows, b: Build, epoch: Epoch, through: nat, room: string, x: Inputs)
    requires Plain(room, x) && PatchBaseline(r, epoch) == EMPTY_GRAPH
    ensures KeyFits(key, r, b, epoch, through, Views(EMPTY_GRAPH, EMPTY_GRAPH), x, true)
  {
    var m := MetadataFor(key, b, epoch, NextVersion(r, epoch), through, x, true);
    PlainWarnings(x.late.Some?);
    if key.IsEcho() {
      EmptyEchoPatchFits(key, m, x);
      assert PatchFor(key, r, m, Views(EMPTY_GRAPH, EMPTY_GRAPH), x).value == EchoPatch(key, EMPTY_GRAPH, EMPTY_GRAPH, m, x);
    }
  }

  lemma EmptyEchoPatchFits(key: ProjectionKey, m: Metadata, x: Inputs)
    requires Short(m.warnings) && m.reasonCodes == [] && |x.lastEventType| <= 100
    ensures PatchFits(EchoPatch(key, EMPTY_GRAPH, EMPTY_GRAPH, m, x))
  {
    var draft := DiffGraphs(EMPTY_GRAPH, EMPTY_GRAPH, m, key.EchoStudent?);
    EmptyPatchFits(m, key.EchoStudent?);
    EmptyPatchFits(m.(reasonCodes := ReasonCodes(draft, x)), key.EchoStudent?);
  }

  lemma PlainWarnings(late: bool)
    ensures Short(Dedupe([] + if late then ["requires_replay"] else []))
  {
    assert Dedupe([]) == [];
    assert ["requires_replay"][..0] == [];
    assert late ==> Dedupe(["requires_replay"]) == ["requires_replay"];
  }

  lemma QuietRoomFits(room: string, t: Tables, b: Build, epoch: Epoch, x: Inputs)
    requires Quiet(room, x)
    requires AllKeys(t) && forall k: ProjectionKey :: t.rows[k].head.Some? ==> t.rows[k].head.value.epoch != epoch
    ensures RoomFits(t, b, epoch, Views(EMPTY_GRAPH, EMPTY_GRAPH), x)
  {
    forall k: ProjectionKey
      ensures KeyFits(k, t.rows[k], b, epoch, t.checkpoint + 1, Views(EMPTY_GRAPH, EMPTY_GRAPH), x, true)
    {
      QuietFits(k, t.rows[k], b, epoch, t.checkpoint + 1, room, x);
    }
  }

  lemma QuietCommits(room: string, t: Tables, b: Build, n: nat, epoch: Epoch, x: Inputs)
    requires Quiet(room, x) && n == t.checkpoint + 1
    requires Invariant(t) && VersionFree(t, b) && CurrentEpoch(t, b) == Ok(epoch)
    requires RoomFits(t, b, epoch, Views(EMPTY_GRAPH, EMPTY_GRAPH), x)
    ensures Consumed(room, t, b, n, x).Ok?
  {
    ConsumeCommits(room, t, b, epoch, x);
  }

  ghost predicate FreshTarget(t: Tables, b: Build, epoch: Epoch)
    requires AllKeys(t)
  {
    if t.checkpoint == 0 then epoch == InitialEpoch else AllHeads(t) && !OneBuild(t, b) && epoch == RotatedEpoch(b)
  }

  lemma ConsumeIsNext(room: string, t: Tables, b: Build, n: nat, x: Inputs, op: Op, t': Tables)
    requires AllKeys(t) && op == Consume(b, n, x) && Consumed(room, t, b, n, x) == Ok(t')
    ensures NextOf(room)(t, op) == t'
  {
  }

  lemma QuietConsumed(room: string, t: Tables, b: Build, n: nat, epoch: Epoch, x: Inputs) returns (t': Tables)
    requires Quiet(room, x) && Invariant(t) && VersionFree(t, b) && FreshTarget(t, b, epoch) && n == t.checkpoint + 1
    ensures Consumed(room, t, b, n, x) == Ok(t')
    ensures Invariant(t') && t'.checkpoint == n && Installed(t', b, epoch) && AddsVersion(t, epoch, t')
  {
    CurrentEpochDefined(t, b);
    if t.checkpoint > 0 { RotationLeaves(t, b); }
    QuietRoomFits(room, t, b, epoch, x);
    QuietCommits(room, t, b, n, epoch, x);
    t' := Consumed(room, t, b, n, x).value;
    ConsumeKeeps(room, t, b, n, x, t');
  }

  lemma QuietConsume(room: string, t: Tables, b: Build, n: nat, epoch: Epoch, x: Inputs, op: Op) returns (t': Tables)
    requires Quiet(room, x) && Invariant(t) && VersionFree(t, b) && FreshTarget(t, b, epoch) && n == t.checkpoint + 1
    requires op == Consume(b, n, x)
    ensures NextOf(room)(t, op) == t'
    ensures Invariant(t') && t'.checkpoint == n && Installed(t', b, epoch) && AddsVersion(t, epoch, t')
  {
    t' := QuietConsumed(room, t, b, n, epoch, x);
    ConsumeIsNext(room, t, b, n, x, op, t');
  }

  lemma AnotherBuild(t: Tables, b: Build, c: Build, epoch: Epoch)
    requires AllKeys(t) && Installed(t, b, epoch) && b.echoVersion != c.echoVersion
    ensures AllHeads(t) && !OneBuild(t, c)
  {
    assert BuiltBy(t.rows[EchoTeacher].head.value, EchoTeacher, b);
  }

  /** A build whose rotation epoch is already stored cannot consume, whatever the event. */
  lemma RotationBlocks(room: string, t: Tables, b: Build, x: Inputs)
    requires Invariant(t) && t.checkpoint > 0 && AllHeads(t) && !OneBuild(t, b)
    requires (RotatedEpoch(b), 1) in t.rows[EchoTeacher].snapshots
    ensures Consumed(room, t, b, t.checkpoint + 1, x).Err?
  {
    CurrentEpochDefined(t, b);
    ConsumeCommits(room, t, b, RotatedEpoch(b), x);
  }

  function TwoBuilds(x: Inputs): seq<Op> {
    [Consume(BUILD_A, 1, x), Consume(BUILD_B, 2, x), Consume(BUILD_A, 3, x)]
  }

  /** What a run of `n` quiet events leaves behind. */
  ghost predicate Stage(t: Tables, n: nat, b: Build, epoch: Epoch, versions: set<VersionKey>) {
    Invariant(t) && t.checkpoint == n && Installed(t, b, epoch) && t.rows[EchoTeacher].snapshots.Keys == versions
  }

  ghost predicate Untouched(t: Tables) {
    Invariant(t) && t.checkpoint == 0 && t.rows[EchoTeacher] == NO_ROWS
  }

  lemma FirstStage(room: string, t: Tables, b: Build, x: Inputs, op: Op)
    requires Quiet(room, x) && Untouched(t) && op == Consume(b, 1, x)
    ensures Stage(NextOf(room)(t, op), 1, b, InitialEpoch, {(InitialEpoch, 1)})
  {
    var t' := QuietConsume(room, t, b, 1, InitialEpoch, x, op);
    FirstVersion(t, t');
  }

  lemma FirstVersion(t: Tables, t': Tables)
    requires AllKeys(t) && AllKeys(t') && t.rows[EchoTeacher] == NO_ROWS && AddsVersion(t, InitialEpoch, t')
    ensures t'.rows[EchoTeacher].snapshots.Keys == {(InitialEpoch, 1)}
  {
  }

  lemma RotatedVersion(t: Tables, c: Build, t': Tables, versions: set<VersionKey>)
    requires AllKeys(t) && AllKeys(t') && t.rows[EchoTeacher].snapshots.Keys == versions && AddsVersion(t, RotatedEpoch(c), t')
    requires NextVersion(t.rows[EchoTeacher], RotatedEpoch(c)) == 1
    ensures t'.rows[EchoTeacher].snapshots.Keys == versions + {(RotatedEpoch(c), 1)}
  {
  }

  lemma NextStage(room: string, t: Tables, n: nat, b: Build, epoch: Epoch, versions: set<VersionKey>, c: Build,
          x: Inputs, op: Op)
    requires Quiet(room, x) && n > 0 && Stage(t, n, b, epoch, versions) && op == Consume(c, n + 1, x)
    requires b.echoVersion != c.echoVersion && (RotatedEpoch(c), 1) !in versions
    ensures Stage(NextOf(room)(t, op), n + 1, c, RotatedEpoch(c), versions + {(RotatedEpoch(c), 1)})
  {
    AnotherBuild(t, b, c, epoch);
    RotationLeaves(t, c);
    var t' := QuietConsume(room, t, c, n + 1, RotatedEpoch(c), x, op);
    RotatedVersion(t, c, t', versions);
  }

  lemma BuildsDiffer()
    ensures BUILD_A.echoVersion != BUILD_B.echoVersion
  {
    assert BUILD_A.echoVersion[5] != BUILD_B.echoVersion[5];
  }

  lemma FirstStages(room: string, b: Build, x: Inputs, op: Op)
    requires Quiet(room, x) && op == Consume(b, 1, x)
    ensures forall t :: Untouched(t) ==> Stage(NextOf(room)(t, op), 1, b, InitialEpoch, {(InitialEpoch, 1)})
  {
    forall t | Untouched(t) ensures Stage(NextOf(room)(t, op), 1, b, InitialEpoch, {(InitialEpoch, 1)}) {
      FirstStage(room, t, b, x, op);
    }
  }

  lemma NextStages(room: string, n: nat, b: Build, epoch: Epoch, versions: set<VersionKey>, c: Build, x: Inputs, op: Op)
    requires Quiet(room, x) && n > 0 && op == Consume(c, n + 1, x)
    requires b.echoVersion != c.echoVersion && (RotatedEpoch(c), 1) !in versions
    ensures forall t :: Stage(t, n, b, epoch, versions) ==>
      Stage(NextOf(room)(t, op), n + 1, c, RotatedEpoch(c), versions + {(RotatedEpoch(c), 1)})
  {
    forall t | Stage(t, n, b, epoch, versions)
      ensures Stage(NextOf(room)(t, op), n + 1, c, RotatedEpoch(c), versions + {(RotatedEpoch(c), 1)})
    {
      NextStage(room, t, n, b, epoch, versions, c, x, op);
    }
  }

  lemma TwoBuildsStage(room: string, x: Inputs)
    requires Quiet(room, x)
    ensures Stage(After(room, TwoBuilds(x)), 3, BUILD_A, RotatedEpoch(BUILD_A),
                  {(InitialEpoch, 1)} + {(RotatedEpoch(BUILD_B), 1)} + {(RotatedEpoch(BUILD_A), 1)})
  {
    var one, two := {(InitialEpoch, 1)}, {(InitialEpoch, 1)} + {(RotatedEpoch(BUILD_B), 1)};
    var three := two + {(RotatedEpoch(BUILD_A), 1)};
    var ops := TwoBuilds(x);
    BuildsDiffer();
    FirstStages(room, BUILD_A, x, ops[0]);
    NextStages(room, 1, BUILD_A, InitialEpoch, one, BUILD_B, x, ops[1]);
    NextStages(room, 2, BUILD_B, RotatedEpoch(BUILD_B), two, BUILD_A, x, ops[2]);
    EmptyUntouched();
    ThreeStages(NextOf(room), Untouched,
                t => Stage(t, 1, BUILD_A, InitialEpoch, one), t => Stage(t, 2, BUILD_B, RotatedEpoch(BUILD_B), two),
                t => Stage(t, 3, BUILD_A, RotatedEpoch(BUILD_A), three), EMPTY_TABLES, ops[0], ops[1], ops[2]);
  }

  lemma EmptyUntouched()
    ensures Untouched(EMPTY_TABLES)
  {
    EmptyInvariant();
    EveryKeyEmpty();
  }

  /** Deploying one build, another, and the first again leaves the other unable to consume any fourth event. */
  lemma RotationBackBlocks(room: string, x: Inputs, y: Inputs)
    requires Quiet(room, x)
    ensures var t := After(room, TwoBuilds(x));
            AllKeys(t) && t.checkpoint == 3 && Consumed(room, t, BUILD_B, 4, y).Err?
  {
    TwoBuildsStage(room, x);
    BuildsDiffer();
    var t := After(room, TwoBuilds(x));
    AnotherBuild(t, BUILD_A, BUILD_B, RotatedEpoch(BUILD_A));
    RotationBlocks(room, t, BUILD_B, y);
  }

  /** The same for three plain chat events. */
  lemma RotationBackRun(room: string, y: Inputs)
    ensures var t := After(room, TwoBuilds(CHAT));
            AllKeys(t) && t.checkpoint == 3 && Consumed(room, t, BUILD_B, 4, y).Err?
  {
    ChatIsQuiet(room);
    RotationBackBlocks(room, CHAT, y);
  }
}
