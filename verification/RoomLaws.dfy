/** What every run of a room's transactions keeps, and exactly when one commits. */
module RoomLaws {
  import opened Domain
  import opened EchoMap
  import opened EchoProjection
  import opened ProjectionStore
  import opened Pipeline
  import opened PipelineLaws
  import opened Runs

  /** Four heads installed, on one epoch and version. */
  ghost predicate HeadsAgree(t: Tables)
    requires AllKeys(t)
  {
    && t.rows[EchoTeacher].head.Some?
    && forall k: ProjectionKey ::
         && t.rows[k].head.Some?
         && t.rows[k].head.value.epoch == t.rows[EchoTeacher].head.value.epoch
         && t.rows[k].head.value.version == t.rows[EchoTeacher].head.value.version
         && t.rows[k].head.value.completeThrough == t.checkpoint
  }

  ghost predicate KeysInvariant(t: Tables)
    requires AllKeys(t)
  {
    forall k: ProjectionKey :: KeyInvariant(k, t.rows[k], t.checkpoint)
  }

  ghost predicate Invariant(t: Tables) {
    AllKeys(t) && KeysInvariant(t) && HeadSet(t) && SameVersions(t) && RequestsBehind(t)
  }

  /** The four projections store the same versions. */
  ghost predicate SameVersions(t: Tables)
    requires AllKeys(t)
  {
    forall k: ProjectionKey :: t.rows[k].snapshots.Keys == t.rows[EchoTeacher].snapshots.Keys
  }

  /** A replay was only ever requested up to a cursor that had been reached. */
  ghost predicate RequestsBehind(t: Tables) {
    forall e :: e in t.replays ==> t.replays[e] <= t.checkpoint
  }

  ghost predicate HeadSet(t: Tables)
    requires AllKeys(t)
  {
    if t.checkpoint == 0 then NoHeads(t) else HeadsAgree(t)
  }

  /** The loop over the projection keys commits exactly when every key does, and then each key took its own step. */
  lemma {:induction false} PersistFromRows(i: nat, t: Tables, step: KeyStep)
    requires i <= |PROJECTION_KEYS| && AllKeys(t)
    ensures var done := PersistFrom(i, t, step);
            && (done.Ok? <==> forall j :: i <= j < 4 ==> step(PROJECTION_KEYS[j], t.rows[PROJECTION_KEYS[j]]).Ok?)
            && (done.Ok? ==>
                  && AllKeys(done.value) && done.value.checkpoint == t.checkpoint && done.value.replays == t.replays
                  && (forall j :: 0 <= j < i ==> done.value.rows[PROJECTION_KEYS[j]] == t.rows[PROJECTION_KEYS[j]])
                  && (forall j :: i <= j < 4 ==> step(PROJECTION_KEYS[j], t.rows[PROJECTION_KEYS[j]]) == Ok(done.value.rows[PROJECTION_KEYS[j]])))
    decreases |PROJECTION_KEYS| - i
  {
    if i < |PROJECTION_KEYS| {
      var key := PROJECTION_KEYS[i];
      if step(key, t.rows[key]).Ok? {
        PersistFromRows(i + 1, t.(rows := t.rows[key := step(key, t.rows[key]).value]), step);
      }
    }
  }

  lemma KeyIndex(k: ProjectionKey) returns (j: nat)
    ensures j < 4 && PROJECTION_KEYS[j] == k
  {
    j := match k case EchoTeacher => 0 case EchoStudent => 1 case TraceTeacher => 2 case TraceStudent => 3;
  }

  lemma PersistAllRows(t: Tables, step: KeyStep)
    requires AllKeys(t)
    ensures var done := PersistFrom(0, t, step);
            && (done.Ok? <==> forall k: ProjectionKey :: step(k, t.rows[k]).Ok?)
            && (done.Ok? ==>
                  && AllKeys(done.value) && done.value.checkpoint == t.checkpoint && done.value.replays == t.replays
                  && forall k: ProjectionKey :: step(k, t.rows[k]) == Ok(done.value.rows[k]))
  {
    PersistFromRows(0, t, step);
    var done := PersistFrom(0, t, step);
    if done.Ok? {
      forall k: ProjectionKey ensures step(k, t.rows[k]) == Ok(done.value.rows[k]) {
        var j := KeyIndex(k);
      }
    }
  }

  // ----- one transaction -----

  ghost predicate Grows(t: Tables, t': Tables)
    requires AllKeys(t) && AllKeys(t')
  {
    t.checkpoint <= t'.checkpoint && forall k: ProjectionKey :: Extends(t.rows[k], t'.rows[k])
  }

  lemma MaterializedParts(room: string, t: Tables, b: Build, epoch: Epoch, through: nat, x: Inputs, enqueue: bool,
          t': Tables)
    returns (done: Tables)
    requires AllKeys(t) && Materialized(room, t, b, epoch, through, x, enqueue) == Ok(t')
    ensures through > 0 && ViewsOf(room, x).Ok?
    ensures PersistFrom(0, t, StepOf(b, epoch, through, ViewsOf(room, x).value, x, enqueue)) == Ok(done)
    ensures Settled(done, through, Owed(x, enqueue)) == Ok(t')
  {
    done := PersistFrom(0, t, StepOf(b, epoch, through, ViewsOf(room, x).value, x, enqueue)).value;
  }

  lemma StepsTaken(t: Tables, step: KeyStep, done: Tables)
    requires AllKeys(t) && PersistFrom(0, t, step) == Ok(done)
    ensures AllKeys(done) && done.checkpoint == t.checkpoint && done.replays == t.replays
    ensures forall k: ProjectionKey :: step(k, t.rows[k]) == Ok(done.rows[k])
  {
    PersistAllRows(t, step);
  }

  lemma EachStep(t: Tables, done: Tables, b: Build, epoch: Epoch, through: nat, v: Views, x: Inputs, enqueue: bool)
    requires AllKeys(t) && AllKeys(done)
    requires forall k: ProjectionKey :: StepOf(b, epoch, through, v, x, enqueue)(k, t.rows[k]) == Ok(done.rows[k])
    ensures forall k: ProjectionKey :: PersistKey(k, t.rows[k], b, epoch, through, v, x, enqueue) == Ok(done.rows[k])
  {
    forall k: ProjectionKey ensures PersistKey(k, t.rows[k], b, epoch, through, v, x, enqueue) == Ok(done.rows[k]) {
      StepIs(k, t.rows[k], b, epoch, through, v, x, enqueue);
    }
  }

  lemma SettledEffect(t: Tables, through: nat, owed: Option<string>, t': Tables)
    requires Settled(t, through, owed) == Ok(t')
    ensures t'.rows == t.rows && t'.checkpoint == if through > t.checkpoint then through else t.checkpoint
    ensures t'.replays == match owed case None => t.replays case Some(e) => t.replays[e := through]
  {
  }

  lemma MaterializedSteps(room: string, t: Tables, b: Build, epoch: Epoch, through: nat, x: Inputs, enqueue: bool,
          t': Tables)
    requires AllKeys(t) && Materialized(room, t, b, epoch, through, x, enqueue) == Ok(t')
    ensures through > 0 && ViewsOf(room, x).Ok? && AllKeys(t')
    ensures t'.checkpoint == if through > t.checkpoint then through else t.checkpoint
    ensures t'.replays == match Owed(x, enqueue) case None => t.replays case Some(e) => t.replays[e := through]
    ensures forall k: ProjectionKey :: PersistKey(k, t.rows[k], b, epoch, through, ViewsOf(room, x).value, x, enqueue) == Ok(t'.rows[k])
  {
    var done := MaterializedParts(room, t, b, epoch, through, x, enqueue, t');
    var v := ViewsOf(room, x).value;
    StepsTaken(t, StepOf(b, epoch, through, v, x, enqueue), done);
    SettledEffect(done, through, Owed(x, enqueue), t');
    EachStep(t, t', b, epoch, through, v, x, enqueue);
  }

  /** Checking the citations for approvals refuses nothing that the projection would not refuse anyway. */
  lemma ViewsExist(room: string, x: Inputs)
    ensures ViewsOf(room, x).Ok? <==>
            Projected(room, x.graph, x.refs, ApprovedEdgeIds(room, x.graph.edges, x.refs, x.approvals), x.approvedNodes).Ok?
  {
    var approved := ApprovedEdgeIds(room, x.graph.edges, x.refs, x.approvals);
    match Projected(room, x.graph, x.refs, approved, x.approvedNodes)
    case Err(_) =>
    case Ok(v) =>
      TeacherRows(room, x.graph, x.refs, approved, x.approvedNodes, v);
      forall e | e in x.graph.edges ensures !ScanFails(e, x.refs, x.approvals) {
        var k :| 0 <= k < |x.graph.edges| && x.graph.edges[k] == e;
        assert ProjectEdge(room, e, x.refs, approved).Ok? && ResolveRefs(e.evidence, x.refs).Ok?;
        assert forall i :: 0 <= i < |e.evidence| ==> e.evidence[i] in e.evidence;
      }
  }

  lemma ViewsSpansOk(room: string, x: Inputs, v: Views)
    requires ViewsOf(room, x) == Ok(v)
    ensures EdgeSpansOk(v.teacher.edges) && EdgeSpansOk(v.student.edges)
  {
    ProjectedWithinBounds(room, x.graph, x.refs, ApprovedEdgeIds(room, x.graph.edges, x.refs, x.approvals), x.approvedNodes, v);
    StudentSpansOk(v.teacher.edges);
  }

  ghost predicate Targets(t: Tables, b: Build, epoch: Epoch, through: nat)
    requires AllKeys(t)
  {
    forall k: ProjectionKey :: TargetOk(k, t.rows[k], b, epoch, through, t.checkpoint)
  }

  lemma KeyMaterialized(key: ProjectionKey, r: KeyRows, b: Build, epoch: Epoch, through: nat, v: Views, x: Inputs,
          enqueue: bool, checkpoint: nat, r': KeyRows)
    requires KeyInvariant(key, r, checkpoint) && TargetOk(key, r, b, epoch, through, checkpoint)
    requires PersistKey(key, r, b, epoch, through, v, x, enqueue) == Ok(r')
    requires EdgeSpansOk(v.teacher.edges) && EdgeSpansOk(v.student.edges)
    ensures KeyInvariant(key, r', through) && StepTaken(key, r, b, epoch, GraphFor(key, v), r')
  {
    StepKeeps(key, r, b, epoch, through, v, x, enqueue, checkpoint, r');
    StepAdvances(key, r, b, epoch, through, v, x, enqueue, r');
  }

  /** Every key took its step. */
  ghost predicate RoomSteps(t: Tables, b: Build, epoch: Epoch, through: nat, v: Views, t': Tables)
    requires AllKeys(t) && AllKeys(t')
  {
    forall k: ProjectionKey :: KeyInvariant(k, t'.rows[k], through) && StepTaken(k, t.rows[k], b, epoch, GraphFor(k, v), t'.rows[k])
  }

  lemma MaterializedRows(room: string, t: Tables, b: Build, epoch: Epoch, through: nat, x: Inputs, enqueue: bool, t': Tables)
    requires Invariant(t) && Targets(t, b, epoch, through)
    requires Materialized(room, t, b, epoch, through, x, enqueue) == Ok(t')
    ensures AllKeys(t') && t'.checkpoint == through > 0 && ViewsOf(room, x).Ok?
    ensures RoomSteps(t, b, epoch, through, ViewsOf(room, x).value, t')
  {
    MaterializedSteps(room, t, b, epoch, through, x, enqueue, t');
    var v := ViewsOf(room, x).value;
    ViewsSpansOk(room, x, v);
    assert TargetOk(EchoTeacher, t.rows[EchoTeacher], b, epoch, through, t.checkpoint);
    forall k: ProjectionKey
      ensures KeyInvariant(k, t'.rows[k], through) && StepTaken(k, t.rows[k], b, epoch, GraphFor(k, v), t'.rows[k])
    {
      KeyMaterialized(k, t.rows[k], b, epoch, through, v, x, enqueue, t.checkpoint, t'.rows[k]);
    }
  }

  lemma RequestsStayBehind(room: string, t: Tables, b: Build, epoch: Epoch, through: nat, x: Inputs, enqueue: bool,
          t': Tables)
    requires AllKeys(t) && RequestsBehind(t) && through >= t.checkpoint
    requires Materialized(room, t, b, epoch, through, x, enqueue) == Ok(t')
    ensures RequestsBehind(t')
  {
    MaterializedSteps(room, t, b, epoch, through, x, enqueue, t');
  }

  lemma StepEffect(key: ProjectionKey, r: KeyRows, b: Build, epoch: Epoch, through: nat, g: Graph, r': KeyRows)
    requires KeyInvariant(key, r', through) && StepTaken(key, r, b, epoch, g, r')
    ensures Extends(r, r') && HeadAt(r', epoch, NextVersion(r, epoch), through) && BuiltBy(r'.head.value, key, b)
    ensures r'.snapshots.Keys == r.snapshots.Keys + {(epoch, NextVersion(r, epoch))}
  {
  }

  lemma NextVersionsAgree(t: Tables, epoch: Epoch, k: ProjectionKey)
    requires Invariant(t)
    ensures NextVersion(t.rows[k], epoch) == NextVersion(t.rows[EchoTeacher], epoch)
  {
  }

  lemma RoomStepsKeep(t: Tables, b: Build, epoch: Epoch, through: nat, v: Views, t': Tables)
    requires Invariant(t) && AllKeys(t') && t'.checkpoint == through > 0 && t.checkpoint <= through
    requires RoomSteps(t, b, epoch, through, v, t') && RequestsBehind(t')
    ensures Invariant(t') && Grows(t, t') && Installed(t', b, epoch) && AddsVersion(t, epoch, t')
  {
    var version := NextVersion(t.rows[EchoTeacher], epoch);
    forall k: ProjectionKey
      ensures Extends(t.rows[k], t'.rows[k]) && HeadAt(t'.rows[k], epoch, version, through) && BuiltBy(t'.rows[k].head.value, k, b)
      ensures KeyInvariant(k, t'.rows[k], through) && t'.rows[k].snapshots.Keys == t.rows[EchoTeacher].snapshots.Keys + {(epoch, version)}
    {
      NextVersionsAgree(t, epoch, k);
      StepEffect(k, t.rows[k], b, epoch, through, GraphFor(k, v), t'.rows[k]);
    }
    HeadsInstalled(t', b, epoch, version);
  }

  lemma HeadsInstalled(t: Tables, b: Build, epoch: Epoch, version: int)
    requires AllKeys(t)
    requires forall k: ProjectionKey :: HeadAt(t.rows[k], epoch, version, t.checkpoint) && BuiltBy(t.rows[k].head.value, k, b)
    ensures Installed(t, b, epoch)
  {
    assert HeadAt(t.rows[EchoTeacher], epoch, version, t.checkpoint);
  }

  /** One version more, the next one of the target epoch. */
  ghost predicate AddsVersion(t: Tables, epoch: Epoch, t': Tables)
    requires AllKeys(t) && AllKeys(t')
  {
    t'.rows[EchoTeacher].snapshots.Keys
    == t.rows[EchoTeacher].snapshots.Keys + {(epoch, NextVersion(t.rows[EchoTeacher], epoch))}
  }

  ghost predicate HeadAt(r: KeyRows, epoch: Epoch, version: int, through: int) {
    r.head.Some? && r.head.value.epoch == epoch && r.head.value.version == version && r.head.value.completeThrough == through
  }

  /** All four heads stand on the target epoch, built by this build. */
  ghost predicate Installed(t: Tables, b: Build, epoch: Epoch)
    requires AllKeys(t)
  {
    HeadsAgree(t) && t.rows[EchoTeacher].head.value.epoch == epoch && forall k: ProjectionKey :: BuiltBy(t.rows[k].head.value, k, b)
  }

  /** A committed materialisation keeps the invariant and installs the target epoch everywhere. */
  lemma MaterializedKeeps(room: string, t: Tables, b: Build, epoch: Epoch, through: nat, x: Inputs, enqueue: bool,
          t': Tables)
    requires Invariant(t) && Targets(t, b, epoch, through)
    requires Materialized(room, t, b, epoch, through, x, enqueue) == Ok(t')
    ensures Invariant(t') && t'.checkpoint == through && Grows(t, t') && Installed(t', b, epoch) && AddsVersion(t, epoch, t')
  {
    MaterializedRows(room, t, b, epoch, through, x, enqueue, t');
    assert TargetOk(EchoTeacher, t.rows[EchoTeacher], b, epoch, through, t.checkpoint);
    RequestsStayBehind(room, t, b, epoch, through, x, enqueue, t');
    RoomStepsKeep(t, b, epoch, through, ViewsOf(room, x).value, t');
  }

  // ----- the two handlers -----

  /** The head set is never partial and never mixed: the epoch of a consume is always defined. */
  lemma CurrentEpochDefined(t: Tables, b: Build)
    requires AllKeys(t) && HeadSet(t)
    ensures t.checkpoint == 0 ==> CurrentEpoch(t, b) == Ok(InitialEpoch)
    ensures t.checkpoint > 0 ==> AllHeads(t)
    ensures t.checkpoint > 0 && OneBuild(t, b) ==> CurrentEpoch(t, b) == Ok(t.rows[EchoTeacher].head.value.epoch)
    ensures t.checkpoint > 0 && !OneBuild(t, b) ==> CurrentEpoch(t, b) == Ok(RotatedEpoch(b))
  {
    if t.checkpoint > 0 {
      assert t.rows[EchoTeacher].head.Some?;
      assert OneEpoch(t, t.rows[EchoTeacher].head.value.epoch);
    }
  }

  lemma EpochFound(t: Tables, b: Build) returns (epoch: Epoch)
    requires Invariant(t)
    ensures CurrentEpoch(t, b) == Ok(epoch)
  {
    CurrentEpochDefined(t, b);
    epoch := CurrentEpoch(t, b).value;
  }

  lemma ConsumedIs(room: string, t: Tables, b: Build, epoch: Epoch, s: nat, x: Inputs)
    requires AllKeys(t) && CurrentEpoch(t, b) == Ok(epoch) && s == t.checkpoint + 1
    ensures Consumed(room, t, b, s, x) == Materialized(room, t, b, epoch, s, x, true)
  {
  }

  /** The epoch a consume writes to is either the visible one, built by this build, or none of the visible ones. */
  lemma ConsumeTargets(t: Tables, b: Build, epoch: Epoch)
    requires Invariant(t) && CurrentEpoch(t, b) == Ok(epoch)
    ensures Targets(t, b, epoch, t.checkpoint + 1)
  {
    CurrentEpochDefined(t, b);
    if t.checkpoint > 0 && !OneBuild(t, b) {
      RotationLeaves(t, b);
    }
    forall k: ProjectionKey ensures TargetOk(k, t.rows[k], b, epoch, t.checkpoint + 1, t.checkpoint) {
      if t.checkpoint > 0 && OneBuild(t, b) {
        HeadBuild(t, k);
      }
    }
  }

  /** A rotation never targets the visible epoch: that epoch's build would match. */
  lemma RotationLeaves(t: Tables, b: Build)
    requires Invariant(t) && t.checkpoint > 0 && AllHeads(t) && !OneBuild(t, b)
    ensures forall k: ProjectionKey :: t.rows[k].head.value.epoch != RotatedEpoch(b)
  {
    var j: ProjectionKey :| !BuiltBy(t.rows[j].head.value, j, b);
    HeadBuild(t, j);
  }

  /** A head on an epoch named after a build was written by that build. */
  lemma HeadBuild(t: Tables, k: ProjectionKey)
    requires Invariant(t) && t.checkpoint > 0
    ensures var h := t.rows[k].head.value; h.epoch.RotatedEpoch? ==> BuiltBy(h, k, h.epoch.build)
  {
    assert KeyInvariant(k, t.rows[k], t.checkpoint);
    var h := t.rows[k].head.value;
    assert RowDescribes(k, (h.epoch, h.version), t.rows[k].snapshots[(h.epoch, h.version)], t.checkpoint);
  }

  lemma ReplayTargets(t: Tables, b: Build, jobId: nat)
    requires AllKeys(t) && HeadSet(t) && t.checkpoint > 0 && !AlreadyReplayed(t, ReplayEpoch(jobId))
    ensures Targets(t, b, ReplayEpoch(jobId), t.checkpoint)
  {
    assert t.rows[EchoTeacher].head.value.epoch != ReplayEpoch(jobId);
  }

  lemma {:induction false} ConsumeKeeps(room: string, t: Tables, b: Build, roomSeq: nat, x: Inputs, t': Tables)
    requires Invariant(t) && Consumed(room, t, b, roomSeq, x) == Ok(t')
    ensures Invariant(t') && Grows(t, t')
    ensures t'.checkpoint == if roomSeq > t.checkpoint then t.checkpoint + 1 else t.checkpoint
    ensures roomSeq > t.checkpoint ==> CurrentEpoch(t, b).Ok? && roomSeq == t'.checkpoint
    ensures roomSeq > t.checkpoint ==> Installed(t', b, CurrentEpoch(t, b).value) && AddsVersion(t, CurrentEpoch(t, b).value, t')
  {
    if t.checkpoint >= roomSeq {
      GrowsReflexive(t);
    } else {
      CurrentEpochDefined(t, b);
      var epoch := CurrentEpoch(t, b).value;
      ConsumeTargets(t, b, epoch);
      MaterializedKeeps(room, t, b, epoch, roomSeq, x, true, t');
    }
  }

  lemma InstalledIsReplayed(t: Tables, b: Build, jobId: nat)
    requires AllKeys(t) && Installed(t, b, ReplayEpoch(jobId))
    ensures AlreadyReplayed(t, ReplayEpoch(jobId))
  {
  }

  lemma {:induction false} ReplayKeeps(room: string, t: Tables, b: Build, jobId: nat, requested: nat, x: Inputs, t': Tables)
    requires Invariant(t) && Replayed(room, t, b, jobId, requested, x) == Ok(t')
    ensures Invariant(t') && Grows(t, t')
    ensures t'.checkpoint == t.checkpoint >= requested
    ensures AlreadyReplayed(t', ReplayEpoch(jobId))
  {
    var epoch := ReplayEpoch(jobId);
    if AlreadyReplayed(t, epoch) {
      GrowsReflexive(t);
    } else {
      ReplayTargets(t, b, jobId);
      MaterializedKeeps(room, t, b, epoch, t.checkpoint, x, false, t');
      InstalledIsReplayed(t', b, jobId);
    }
  }

  /** Every committed transaction keeps the invariant, never moves the checkpoint back, and forgets nothing. */
  lemma AttemptKeeps(room: string, t: Tables, op: Op, t': Tables)
    requires Invariant(t) && Attempt(room, t, op) == Ok(t')
    ensures Invariant(t') && Grows(t, t')
  {
    match op
    case Consume(b, n, x) => ConsumeKeeps(room, t, b, n, x, t');
    case Replay(b, j, n, x) => ReplayKeeps(room, t, b, j, n, x, t');
  }

  /** A replay job that runs again after it committed changes nothing, whatever its build and inputs are by then. */
  lemma {:induction false} ReplayTwice(room: string, t: Tables, b: Build, jobId: nat, requested: nat, x: Inputs,
          t': Tables, b': Build, x': Inputs)
    requires Invariant(t) && Replayed(room, t, b, jobId, requested, x) == Ok(t')
    ensures AllKeys(t') && Replayed(room, t', b', jobId, requested, x') == Ok(t')
  {
    ReplayKeeps(room, t, b, jobId, requested, x, t');
  }

  // ----- runs -----

  /** A transaction that fails is rolled back. */
  function Outcome(room: string, t: Tables, op: Op): Tables
    requires AllKeys(t)
  {
    match Attempt(room, t, op) case Ok(t') => t' case Err(_) => t
  }

  /** One operation of a room's worker. */
  function NextOf(room: string): (Tables, Op) -> Tables {
    (t: Tables, op: Op) => if AllKeys(t) then Outcome(room, t, op) else t
  }

  /** The tables after a run from an empty room. */
  function After(room: string, ops: seq<Op>): Tables { Execute(NextOf(room), EMPTY_TABLES, ops) }

  lemma EmptyInvariant()
    ensures Invariant(EMPTY_TABLES)
  {
    EveryKeyEmpty();
    forall k: ProjectionKey ensures KeyInvariant(k, NO_ROWS, 0) {}
  }

  lemma OutcomeKeeps(room: string, t: Tables, op: Op)
    requires Invariant(t)
    ensures Invariant(Outcome(room, t, op)) && Grows(t, Outcome(room, t, op))
  {
    match Attempt(room, t, op)
    case Ok(t') => AttemptKeeps(room, t, op, t');
    case Err(_) => GrowsReflexive(t);
  }

  lemma GrowsReflexive(t: Tables)
    requires AllKeys(t)
    ensures Grows(t, t)
  {
  }

  /** The invariant, and nothing lost since some earlier state. */
  ghost predicate KeptSince(t: Tables, t': Tables) {
    Invariant(t) && Invariant(t') && Grows(t, t')
  }

  lemma NextKeeps(room: string, t: Tables, t': Tables, op: Op)
    requires KeptSince(t, t')
    ensures KeptSince(t, NextOf(room)(t', op))
  {
    OutcomeKeeps(room, t', op);
    GrowsTransitive(t, t', Outcome(room, t', op));
  }

  /** In every run from any consistent state, failures included, the invariant holds, the checkpoint never
      decreases, and no stored version is ever changed or dropped. */
  lemma {:induction false} RunKeeps(room: string, t: Tables, ops: seq<Op>)
    requires Invariant(t)
    ensures KeptSince(t, Execute(NextOf(room), t, ops))
  {
    GrowsReflexive(t);
    forall t', op | KeptSince(t, t') ensures KeptSince(t, NextOf(room)(t', op)) {
      NextKeeps(room, t, t', op);
    }
    Invariance(NextOf(room), t' => KeptSince(t, t'), t, ops);
  }

  /** After every run the four heads agree on epoch, version and cursor, the cursor is the checkpoint, and the epoch of
      the next consume is defined: an incomplete head set and an epoch mismatch cannot occur. */
  lemma {:induction false} HeadsInEveryRun(room: string, ops: seq<Op>, b: Build)
    ensures var t := After(room, ops); AllKeys(t) && HeadSet(t) && CurrentEpoch(t, b).Ok?
  {
    ReachableInvariant(room, ops);
    CurrentEpochDefined(After(room, ops), b);
  }

  lemma {:induction false} ReachableInvariant(room: string, ops: seq<Op>)
    ensures Invariant(After(room, ops))
  {
    EmptyInvariant();
    RunKeeps(room, EMPTY_TABLES, ops);
  }

  lemma GrowsTransitive(a: Tables, b: Tables, c: Tables)
    requires AllKeys(a) && AllKeys(b) && AllKeys(c) && Grows(a, b) && Grows(b, c)
    ensures Grows(a, c)
  {
    forall k: ProjectionKey ensures Extends(a.rows[k], c.rows[k]) {
      ExtendsTransitive(a.rows[k], b.rows[k], c.rows[k]);
    }
  }

  lemma ExtendsTransitive(a: KeyRows, b: KeyRows, c: KeyRows)
    requires Extends(a, b) && Extends(b, c)
    ensures Extends(a, c)
  {
  }

  /** The map a client rebuilds from the stored patches of one epoch, from the empty map up to a version. */
  function Fold(patches: map<VersionKey, PatchRow>, epoch: Epoch, version: int): GraphMap
    decreases version
  {
    if version <= 0 then EMPTY_MAP
    else if (epoch, version) !in patches then Fold(patches, epoch, version - 1)
    else ApplyPatch(Fold(patches, epoch, version - 1), PatchOf(patches[(epoch, version)]))
  }

  /** In every reachable state, each stored ECHO snapshot is the fold of its epoch's patches. */
  lemma {:induction false} SnapshotIsFold(room: string, ops: seq<Op>, key: ProjectionKey, k: VersionKey)
    requires key.IsEcho()
    ensures var t := After(room, ops);
            && AllKeys(t)
            && (k in t.rows[key].snapshots ==>
                  MapOf(GraphOf(t.rows[key].snapshots[k].payload)) == Fold(t.rows[key].patches, k.0, k.1))
  {
    ReachableInvariant(room, ops);
    var t := After(room, ops);
    if k in t.rows[key].snapshots {
      assert KeyInvariant(key, t.rows[key], t.checkpoint);
      LeadingApplies(key, t.rows[key]);
      FoldReaches(t.rows[key], k.0, k.1);
    }
  }

  ghost predicate PatchesApply(r: KeyRows) {
    && r.patches.Keys == r.snapshots.Keys
    && forall k {:trigger r.patches[k]} :: k in r.patches && k in r.snapshots ==>
         ApplyPatch(BaseMap(r.snapshots, k), PatchOf(r.patches[k])) == MapOf(GraphOf(r.snapshots[k].payload))
  }

  lemma LeadingApplies(key: ProjectionKey, r: KeyRows)
    requires key.IsEcho() && PatchesLead(key, r)
    ensures PatchesApply(r)
  {
  }

  lemma PatchReaches(r: KeyRows, k: VersionKey)
    requires PatchesApply(r) && k in r.snapshots
    ensures k in r.patches && ApplyPatch(BaseMap(r.snapshots, k), PatchOf(r.patches[k])) == MapOf(GraphOf(r.snapshots[k].payload))
  {
    assert k in r.patches.Keys;
  }

  lemma FoldUnfolds(patches: map<VersionKey, PatchRow>, epoch: Epoch, version: int, prior: int)
    requires version >= 1 && prior == version - 1 && (epoch, version) in patches
    ensures Fold(patches, epoch, version) == ApplyPatch(Fold(patches, epoch, prior), PatchOf(patches[(epoch, version)]))
  {
  }

  lemma {:induction false} FoldReaches(r: KeyRows, epoch: Epoch, version: int)
    requires Contiguous(r) && PatchesApply(r) && (epoch, version) in r.snapshots
    ensures MapOf(GraphOf(r.snapshots[(epoch, version)].payload)) == Fold(r.patches, epoch, version)
    decreases version
  {
    var k, prior := (epoch, version), version - 1;
    PatchReaches(r, k);
    FoldUnfolds(r.patches, epoch, version, prior);
    if version > 1 {
      FoldReaches(r, epoch, prior);
    }
    assert BaseMap(r.snapshots, k) == Fold(r.patches, epoch, prior);
  }

  // ----- what the stored graphs look like -----

  ghost predicate RowsMeetContract(key: ProjectionKey, r: KeyRows) {
    key.IsEcho() ==> forall k :: k in r.snapshots ==> GraphSemantics(GraphOf(r.snapshots[k].payload), key.EchoStudent?)
  }

  /** Every stored graph passes the wire contract of its view. */
  ghost predicate MeetsContract(t: Tables) {
    Invariant(t) && forall k: ProjectionKey :: RowsMeetContract(k, t.rows[k])
  }

  ghost predicate SoundInputs(op: Op) {
    WellFormed(op.inputs.graph) && DistinctRelations(op.inputs.graph)
  }

  lemma ViewsMeetContract(room: string, x: Inputs, v: Views)
    requires ViewsOf(room, x) == Ok(v) && WellFormed(x.graph) && DistinctRelations(x.graph)
    ensures GraphSemantics(v.teacher, false) && GraphSemantics(v.student, true)
  {
    var approved := ApprovedEdgeIds(room, x.graph.edges, x.refs, x.approvals);
    TeacherViewContract(room, x.graph, x.refs, approved, x.approvedNodes, v);
    StudentViewContract(room, x.graph, x.refs, approved, x.approvedNodes, v);
  }

  lemma StepMeetsContract(key: ProjectionKey, r: KeyRows, b: Build, epoch: Epoch, v: Views, r': KeyRows)
    requires RowsMeetContract(key, r) && StepTaken(key, r, b, epoch, GraphFor(key, v), r')
    requires GraphSemantics(v.teacher, false) && GraphSemantics(v.student, true)
    ensures RowsMeetContract(key, r')
  {
  }

  lemma MaterializedMeetsContract(room: string, t: Tables, b: Build, epoch: Epoch, through: nat, x: Inputs,
          enqueue: bool, t': Tables)
    requires MeetsContract(t) && Targets(t, b, epoch, through) && WellFormed(x.graph) && DistinctRelations(x.graph)
    requires Materialized(room, t, b, epoch, through, x, enqueue) == Ok(t')
    ensures AllKeys(t') && forall k: ProjectionKey :: RowsMeetContract(k, t'.rows[k])
  {
    MaterializedRows(room, t, b, epoch, through, x, enqueue, t');
    var v := ViewsOf(room, x).value;
    ViewsMeetContract(room, x, v);
    forall k: ProjectionKey ensures RowsMeetContract(k, t'.rows[k]) {
      assert StepTaken(k, t.rows[k], b, epoch, GraphFor(k, v), t'.rows[k]);
      StepMeetsContract(k, t.rows[k], b, epoch, v, t'.rows[k]);
    }
  }

  lemma ConsumeMeetsContract(room: string, t: Tables, b: Build, roomSeq: nat, x: Inputs, t': Tables)
    requires MeetsContract(t) && WellFormed(x.graph) && DistinctRelations(x.graph) && Consumed(room, t, b, roomSeq, x) == Ok(t')
    ensures AllKeys(t') && forall k: ProjectionKey :: RowsMeetContract(k, t'.rows[k])
  {
    if t.checkpoint < roomSeq {
      CurrentEpochDefined(t, b);
      var epoch := CurrentEpoch(t, b).value;
      ConsumeTargets(t, b, epoch);
      MaterializedMeetsContract(room, t, b, epoch, roomSeq, x, true, t');
    }
  }

  lemma ReplayMeetsContract(room: string, t: Tables, b: Build, jobId: nat, requested: nat, x: Inputs, t': Tables)
    requires MeetsContract(t) && WellFormed(x.graph) && DistinctRelations(x.graph) && Replayed(room, t, b, jobId, requested, x) == Ok(t')
    ensures AllKeys(t') && forall k: ProjectionKey :: RowsMeetContract(k, t'.rows[k])
  {
    if !AlreadyReplayed(t, ReplayEpoch(jobId)) {
      ReplayTargets(t, b, jobId);
      MaterializedMeetsContract(room, t, b, ReplayEpoch(jobId), t.checkpoint, x, false, t');
    }
  }

  lemma AttemptMeetsContract(room: string, t: Tables, op: Op, t': Tables)
    requires MeetsContract(t) && SoundInputs(op) && Attempt(room, t, op) == Ok(t')
    ensures MeetsContract(t')
  {
    AttemptKeeps(room, t, op, t');
    match op
    case Consume(b, n, x) => ConsumeMeetsContract(room, t, b, n, x, t');
    case Replay(b, j, n, x) => ReplayMeetsContract(room, t, b, j, n, x, t');
  }

  lemma NextMeetsContract(room: string, t: Tables, op: Op)
    requires MeetsContract(t) && SoundInputs(op)
    ensures MeetsContract(NextOf(room)(t, op))
  {
    match Attempt(room, t, op)
    case Ok(t') => AttemptMeetsContract(room, t, op, t');
    case Err(_) =>
  }

  /** If every graph handed to the writer is well formed with distinct relations, every stored graph passes the contract. */
  lemma {:induction false} RunMeetsContract(room: string, ops: seq<Op>)
    requires forall op :: op in ops ==> SoundInputs(op)
    ensures MeetsContract(After(room, ops))
  {
    EmptyInvariant();
    EveryKeyEmpty();
    assert MeetsContract(EMPTY_TABLES);
    forall t, op | op in ops && MeetsContract(t) ensures MeetsContract(NextOf(room)(t, op)) {
      NextMeetsContract(room, t, op);
    }
    Invariance(NextOf(room), MeetsContract, EMPTY_TABLES, ops);
  }
}
