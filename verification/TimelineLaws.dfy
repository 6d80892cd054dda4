/** Timelines and latest snapshots read from what the writer stored. */
module TimelineLaws {
  import opened Domain
  import opened EchoMap
  import opened EchoProjection
  import opened ProjectionStore
  import opened Pipeline
  import opened PipelineLaws
  import opened RoomLaws
  import opened AnalyticsContract
  import opened AnalyticsReader
  import opened ReaderLaws
  import C = Corrections
  import L = LedgerLaws

  /** A row and its patch cover the same events under the head's algorithm, and no less than the version before. */
  ghost predicate VersionFits(r: KeyRows, h: Head, v: int)
    requires Joined(r, h.epoch, v)
  {
    var row := r.snapshots[(h.epoch, v)];
    && row.epoch == h.epoch && row.version == v && AlgorithmOf(row, h.algorithmVersion, h.parameterHash)
    && r.patches[(h.epoch, v)].completeThrough == row.completeThrough >= 0
    && (Joined(r, h.epoch, v - 1) ==> r.snapshots[(h.epoch, v - 1)].completeThrough <= row.completeThrough)
  }

  ghost predicate Ordered(r: KeyRows, h: Head) {
    forall v :: Joined(r, h.epoch, v) ==> VersionFits(r, h, v)
  }

  lemma PatchCovers(key: ProjectionKey, r: KeyRows, checkpoint: int, k: VersionKey)
    requires PatchesLead(key, r) && RowsDescribe(key, r, checkpoint) && k in r.patches && k in r.snapshots
    ensures var row := r.snapshots[k];
            row.epoch == k.0 && row.version == k.1 && r.patches[k].completeThrough == row.completeThrough >= 0
  {
    VisiblePatch(key, r, checkpoint, k);
  }

  lemma HeadCovers(r: KeyRows, checkpoint: int, h: Head, v: int)
    requires Chained(r) && HeadInstalled(r, checkpoint) && r.head == Some(h)
    requires forall i :: Joined(r, h.epoch, i) <==> 1 <= i <= h.version
    requires Joined(r, h.epoch, v)
    ensures AlgorithmOf(r.snapshots[(h.epoch, v)], h.algorithmVersion, h.parameterHash)
  {
    SameAlgorithmVisible(r, h, v, h.version);
  }

  lemma NeverBehind(r: KeyRows, h: Head, v: int)
    requires Chained(r) && forall i :: Joined(r, h.epoch, i) <==> 1 <= i <= h.version
    requires Joined(r, h.epoch, v - 1) && Joined(r, h.epoch, v)
    ensures r.snapshots[(h.epoch, v - 1)].completeThrough <= r.snapshots[(h.epoch, v)].completeThrough
  {
    SameAlgorithmVisible(r, h, v - 1, v);
  }

  lemma WriterOrdersAt(key: ProjectionKey, r: KeyRows, checkpoint: int, v: int)
    requires PatchesLead(key, r) && RowsDescribe(key, r, checkpoint) && Chained(r) && HeadInstalled(r, checkpoint) && r.head.Some?
    requires forall i :: Joined(r, r.head.value.epoch, i) <==> 1 <= i <= r.head.value.version
    requires Joined(r, r.head.value.epoch, v)
    ensures VersionFits(r, r.head.value, v)
  {
    var h := r.head.value;
    HeadCovers(r, checkpoint, h, v);
    PatchCovers(key, r, checkpoint, (h.epoch, v));
    if Joined(r, h.epoch, v - 1) { NeverBehind(r, h, v); }
  }

  lemma WriterOrders(key: ProjectionKey, r: KeyRows, checkpoint: int)
    requires key.IsEcho() && KeyInvariant(key, r, checkpoint) && r.head.Some?
    ensures Ordered(r, r.head.value)
  {
    VisibleVersions(r, checkpoint);
    forall v | Joined(r, r.head.value.epoch, v) ensures VersionFits(r, r.head.value, v) {
      WriterOrdersAt(key, r, checkpoint, v);
    }
  }

  ghost predicate AtHead(h: Head, p: Patch, v: int) {
    && p.epoch == h.epoch && p.algorithmVersion == h.algorithmVersion && p.parameterHash == h.parameterHash
    && p.projectionVersion == v && p.baseVersion == v - 1
  }

  ghost predicate WireFits(h: Head, v: int, p: Patch) {
    AtHead(h, p, v) && PatchSpansOk(p) && PatchSemantics(p)
  }

  lemma ServedPatch(key: ProjectionKey, r: KeyRows, h: Head, v: int, p: Patch)
    requires Serves(key, r, h) && Joined(r, h.epoch, v) && PatchIs(r, h.epoch, v, p)
    ensures WireFits(h, v, p)
  {
    assert RowContinues(key, RowAt(r, h.epoch, v), v - 1, h);
    AssertEchoPatchExact(p);
  }

  lemma PatchesOrdered(r: KeyRows, h: Head, v: int, p: Patch, q: Patch)
    requires Ordered(r, h) && Joined(r, h.epoch, v) && Joined(r, h.epoch, v + 1)
    requires PatchIs(r, h.epoch, v, p) && PatchIs(r, h.epoch, v + 1, q)
    ensures p.completeThrough <= q.completeThrough
  {
    assert VersionFits(r, h, v) && VersionFits(r, h, v + 1);
    assert Joined(r, h.epoch, v + 1 - 1);
  }

  /** A stored chain of the visible epoch passes assertPatchChain. */
  lemma {:induction false} ServedChainOk(key: ProjectionKey, r: KeyRows, h: Head, lo: int, ps: seq<Patch>)
    requires Serves(key, r, h) && Ordered(r, h) && StoredChain(r, h.epoch, lo, ps) && 0 <= lo && lo + |ps| <= h.version
    ensures ChainOk(ps) && forall i :: 0 <= i < |ps| ==> AtHead(h, ps[i], lo + 1 + i)
  {
    forall i | 0 <= i < |ps| ensures WireFits(h, lo + 1 + i, ps[i]) {
      assert PatchIs(r, h.epoch, lo + 1 + i, ps[i]);
      assert Joined(r, h.epoch, lo + 1 + i);
      ServedPatch(key, r, h, lo + 1 + i, ps[i]);
    }
    forall i, j | 0 <= i && j == i + 1 && j < |ps| ensures Continues(ps[i], ps[j]) {
      assert WireFits(h, lo + 1 + i, ps[i]) && WireFits(h, lo + 1 + j, ps[j]);
      assert PatchIs(r, h.epoch, lo + 1 + i, ps[i]) && PatchIs(r, h.epoch, lo + 1 + j, ps[j]);
      assert Joined(r, h.epoch, lo + 1 + i) && Joined(r, h.epoch, lo + 1 + j);
      PatchesOrdered(r, h, lo + 1 + i, ps[i], ps[j]);
    }
  }

  /** The stored snapshot a timeline would start from does not pass the contract. */
  ghost predicate BaseBroken(key: ProjectionKey, r: KeyRows, epoch: Epoch, lo: int) {
    (epoch, lo) in r.snapshots && MapProjection(key, r.snapshots[(epoch, lo)]).None?
  }

  function TimelineFrom(key: ProjectionKey, r: KeyRows, h: Head, lo: int, ps: seq<Patch>): Timeline {
    var base := if (h.epoch, lo) in r.snapshots then Some(SnapshotOf(key, r.snapshots[(h.epoch, lo)])) else None;
    Timeline(key, h.epoch, base, ps, if base.Some? then Some(lo) else None, h.version)
  }

  lemma AnchoredServed(key: ProjectionKey, r: KeyRows, h: Head, lo: int, ps: seq<Patch>)
    requires key.IsEcho() && Serves(key, r, h) && 0 <= lo < h.version && |ps| == h.version - lo
    requires AtHead(h, ps[0], lo + 1) && ((h.epoch, 0) !in r.snapshots)
    ensures Anchored(key, r, h, ps) ==
            if BaseBroken(key, r, h.epoch, lo) then Err(Corrupt) else Ok(Shown(TimelineFrom(key, r, h, lo, ps)))
  {
    assert lo > 0 ==> Joined(r, h.epoch, lo);
  }

  lemma TimelineServed(key: ProjectionKey, r: KeyRows, h: Head, limit: nat, lo: int) returns (ps: seq<Patch>)
    requires key.IsEcho() && r.head == Some(h) && Serves(key, r, h) && Ordered(r, h) && (h.epoch, 0) !in r.snapshots
    requires 1 <= limit <= 200 && lo == h.version - Min(limit, h.version)
    ensures |ps| == h.version - lo && StoredChain(r, h.epoch, lo, ps)
    ensures TimelineOf(key, r, h.epoch, limit) ==
            if BaseBroken(key, r, h.epoch, lo) then Err(Corrupt) else Ok(Shown(TimelineFrom(key, r, h, lo, ps)))
  {
    LastRowsFound(key, r, h, limit, lo);
    var rows := LastRows(r, h.epoch, limit);
    RowsPass(key, r, h, lo, rows);
    ps := WireOf(rows);
    ServedChainOk(key, r, h, lo, ps);
    AnchoredServed(key, r, h, lo, ps);
    assert lo > 0 ==> Joined(r, h.epoch, lo);
  }

  lemma BaseOfTimeline(key: ProjectionKey, r: KeyRows, h: Head, lo: int, ps: seq<Patch>)
    requires key.IsEcho() && Serves(key, r, h) && Ordered(r, h) && 0 < lo < h.version && |ps| == h.version - lo && StoredChain(r, h.epoch, lo, ps)
    requires !BaseBroken(key, r, h.epoch, lo)
    ensures TimelineFrom(key, r, h, lo, ps).baseSnapshot.Some? && BaseFits(TimelineFrom(key, r, h, lo, ps).baseSnapshot.value, TimelineFrom(key, r, h, lo, ps))
  {
    assert Joined(r, h.epoch, lo) && Joined(r, h.epoch, lo + 1);
    assert PatchIs(r, h.epoch, lo + 1 + 0, ps[0]);
    ServedPatch(key, r, h, lo + 1, ps[0]);
    assert VersionFits(r, h, lo) && VersionFits(r, h, lo + 1);
    assert Joined(r, h.epoch, lo + 1 - 1);
  }

  lemma TimelineMeetsContract(key: ProjectionKey, r: KeyRows, h: Head, lo: int, ps: seq<Patch>)
    requires key.IsEcho() && Serves(key, r, h) && Ordered(r, h) && (h.epoch, 0) !in r.snapshots
    requires 0 <= lo < h.version && |ps| == h.version - lo && StoredChain(r, h.epoch, lo, ps)
    requires !BaseBroken(key, r, h.epoch, lo)
    ensures TimelineSemantics(TimelineFrom(key, r, h, lo, ps))
  {
    ServedChainOk(key, r, h, lo, ps);
    assert AtHead(h, ps[0], lo + 1 + 0) && AtHead(h, ps[|ps| - 1], lo + 1 + (|ps| - 1));
    if lo > 0 {
      BaseOfTimeline(key, r, h, lo, ps);
      assert Joined(r, h.epoch, lo) && VersionFits(r, h, lo);
    }
  }

  /** What a client has before it applies a timeline's patches. */
  function StartOf(t: Timeline): GraphMap {
    if t.baseSnapshot.Some? then MapOf(GraphOf(t.baseSnapshot.value.payload)) else EMPTY_MAP
  }

  ghost predicate Rebuilds(r: KeyRows, h: Head, lo: int, t: Timeline) {
    && TimelineSemantics(t) && |t.patches| == h.version - lo
    && ApplyAll(StartOf(t), t.patches) == MapAt(r, h.epoch, h.version)
  }

  /** The answer is a timeline that rebuilds the latest snapshot, unless the snapshot it starts from is refused. */
  ghost predicate AnswersTimeline(key: ProjectionKey, r: KeyRows, h: Head, limit: nat, lo: int) {
    match TimelineOf(key, r, h.epoch, limit)
    case Err(_) => BaseBroken(key, r, h.epoch, lo)
    case Ok(answer) => !BaseBroken(key, r, h.epoch, lo) && answer.Shown? && Rebuilds(r, h, lo, answer.timeline)
  }

  lemma ServedAnswers(key: ProjectionKey, r: KeyRows, h: Head, limit: nat, lo: int)
    requires key.IsEcho() && r.head == Some(h) && Serves(key, r, h) && Ordered(r, h) && PatchesApply(r) && (h.epoch, 0) !in r.snapshots
    requires 1 <= limit <= 200 && lo == h.version - Min(limit, h.version)
    ensures AnswersTimeline(key, r, h, limit, lo)
  {
    var ps := TimelineServed(key, r, h, limit, lo);
    if !BaseBroken(key, r, h.epoch, lo) {
      TimelineRebuilds(key, r, h, lo, ps);
    }
  }

  /** A timeline of the visible epoch is always answered, unless the snapshot it starts from fails the contract;
      it passes assertTimelineSemantics, and its patches rebuild the latest snapshot from its start. */
  lemma {:induction false} TimelineAnswers(key: ProjectionKey, r: KeyRows, checkpoint: int, limit: nat, lo: int)
    requires key.IsEcho() && KeyInvariant(key, r, checkpoint) && r.head.Some? && 1 <= limit <= 200
    requires lo == r.head.value.version - Min(limit, r.head.value.version)
    ensures AnswersTimeline(key, r, r.head.value, limit, lo)
  {
    WriterServes(key, r, checkpoint);
    WriterOrders(key, r, checkpoint);
    LeadingApplies(key, r);
    NoVersionZero(r, r.head.value.epoch);
    ServedAnswers(key, r, r.head.value, limit, lo);
  }

  lemma NoVersionZero(r: KeyRows, epoch: Epoch)
    requires Contiguous(r)
    ensures (epoch, 0) !in r.snapshots
  {
    assert (epoch, 0) in r.snapshots ==> (epoch, 0).1 >= 1;
  }

  lemma TimelineRebuilds(key: ProjectionKey, r: KeyRows, h: Head, lo: int, ps: seq<Patch>)
    requires key.IsEcho() && Serves(key, r, h) && Ordered(r, h) && PatchesApply(r) && (h.epoch, 0) !in r.snapshots
    requires 0 <= lo < h.version && |ps| == h.version - lo && StoredChain(r, h.epoch, lo, ps) && !BaseBroken(key, r, h.epoch, lo)
    ensures Rebuilds(r, h, lo, TimelineFrom(key, r, h, lo, ps))
  {
    TimelineMeetsContract(key, r, h, lo, ps);
    ChainReaches(r, h.epoch, lo, ps, h.version);
    assert StartOf(TimelineFrom(key, r, h, lo, ps)) == MapAt(r, h.epoch, lo);
  }

  // ----- snapshots -----

  /** What the server shows is what the worker wrote: review and display status are derived the same way on both sides. */
  lemma ProjectionRoundTrip(key: ProjectionKey, m: Metadata, v: Views, x: Inputs)
    requires m.baseVersion == m.projectionVersion - 1 >= 0 && m.completeThrough >= 0
    requires GraphSemantics(v.teacher, false) && GraphSemantics(v.student, true)
    requires EdgeSpansOk(v.teacher.edges) && EdgeSpansOk(v.student.edges)
    ensures MapProjection(key, SnapshotRowOf(SnapshotFor(key, m, v, x))) == Some(SnapshotFor(key, m, v, x))
  {
    var s := SnapshotFor(key, m, v, x);
    if key.IsEcho() {
      var g := GraphFor(key, v);
      assert g == EMPTY_GRAPH <==> |g.nodes| == 0 && |g.edges| == 0;
    }
    assert SnapshotOf(key, SnapshotRowOf(s)) == s;
  }

  /** A stored row of a room whose graphs meet the contract is never refused by the server. */
  lemma {:induction false} StoredRowReadable(key: ProjectionKey, k: VersionKey, row: SnapshotRow, checkpoint: int)
    requires key.IsEcho() && k.1 >= 1 && RowDescribes(key, k, row, checkpoint) && GraphSemantics(GraphOf(row.payload), key.EchoStudent?)
    ensures MapProjection(key, row) == Some(SnapshotOf(key, row))
  {
    var g := GraphOf(row.payload);
    assert g == EMPTY_GRAPH <==> |g.nodes| == 0 && |g.edges| == 0;
  }

  // ----- over whole runs -----

  /** A timeline request for the visible epoch is answered, passes the contract, and rebuilds the latest snapshot. */
  ghost predicate TimelineSound(key: ProjectionKey, r: KeyRows, limit: nat) {
    r.head.Some? ==>
      var h := r.head.value;
      TimelineOf(key, r, h.epoch, limit).Ok? && AnswersTimeline(key, r, h, limit, h.version - Min(limit, h.version))
  }

  lemma ContractAnswers(key: ProjectionKey, r: KeyRows, checkpoint: int, limit: nat)
    requires key.IsEcho() && KeyInvariant(key, r, checkpoint) && RowsMeetContract(key, r) && 1 <= limit <= 200
    ensures TimelineSound(key, r, limit)
  {
    if r.head.Some? {
      var lo := r.head.value.version - Min(limit, r.head.value.version);
      TimelineAnswers(key, r, checkpoint, limit, lo);
      ReadableBase(key, r, checkpoint, (r.head.value.epoch, lo));
    }
  }

  lemma ContractTimelineSound(t: Tables, key: ProjectionKey, limit: nat)
    requires key.IsEcho() && 1 <= limit <= 200 && MeetsContract(t)
    ensures TimelineSound(key, t.rows[key], limit)
  {
    assert KeyInvariant(key, t.rows[key], t.checkpoint) && RowsMeetContract(key, t.rows[key]);
    ContractAnswers(key, t.rows[key], t.checkpoint, limit);
  }

  /** In every run over well-formed graphs, timelines are sound at every length. */
  lemma {:induction false} TimelineOverRuns(room: string, ops: seq<Op>, key: ProjectionKey, limit: nat)
    requires key.IsEcho() && 1 <= limit <= 200 && forall op :: op in ops ==> SoundInputs(op)
    ensures AllKeys(After(room, ops)) && TimelineSound(key, After(room, ops).rows[key], limit)
  {
    RunMeetsContract(room, ops);
    ContractTimelineSound(After(room, ops), key, limit);
  }

  // ----- the graphs a ledger hands over -----

  /** A ledger that took a sound graph without repetitions to what the writer is given, with no replacement that
      collides. */
  ghost predicate LedgerGives(room: string, ds: seq<C.Detail>, s: C.LedgerState, x: Inputs) {
    && L.Sound(s) && DistinctRelations(s.graph)
    && L.NoCollision(room, ds, C.UndoneMerges(ds), 0, s)
    && C.ApplyLedger(room, ds, s) == Ok(C.LedgerState(x.graph, x.refs))
  }

  ghost predicate Corrected(room: string, op: Op) {
    exists ds, s :: LedgerGives(room, ds, s, op.inputs)
  }

  /** What a ledger gives is sound for the writer, and both views of it exist. */
  lemma CorrectedIsSound(room: string, op: Op)
    requires Corrected(room, op)
    ensures SoundInputs(op) && ViewsOf(room, op.inputs).Ok?
  {
    var ds, s :| LedgerGives(room, ds, s, op.inputs);
    var x := op.inputs;
    L.LedgerKeepsDistinct(room, ds, s, C.LedgerState(x.graph, x.refs));
    L.SoundProjects(room, C.LedgerState(x.graph, x.refs), ApprovedEdgeIds(room, x.graph.edges, x.refs, x.approvals), x.approvedNodes);
    ViewsExist(room, x);
  }

  /** In every run over corrected graphs, stored graphs meet the contract and timelines are sound at every length. */
  lemma {:induction false} LedgerRuns(room: string, ops: seq<Op>, key: ProjectionKey, limit: nat)
    requires key.IsEcho() && 1 <= limit <= 200 && forall op :: op in ops ==> Corrected(room, op)
    ensures MeetsContract(After(room, ops)) && TimelineSound(key, After(room, ops).rows[key], limit)
  {
    forall op | op in ops ensures SoundInputs(op) { CorrectedIsSound(room, op); }
    RunMeetsContract(room, ops);
    TimelineOverRuns(room, ops, key, limit);
  }

  /** Any other epoch is answered with a resync at version 0. */
  lemma {:induction false} TimelineElsewhere(key: ProjectionKey, r: KeyRows, epoch: Epoch, limit: nat)
    requires 1 <= limit <= 200 && (r.head.Some? ==> r.head.value.epoch != epoch)
    ensures TimelineOf(key, r, epoch, limit) == Ok(TimelineResync(0))
  {
  }

  lemma ReadableBase(key: ProjectionKey, r: KeyRows, checkpoint: int, k: VersionKey)
    requires key.IsEcho() && KeyInvariant(key, r, checkpoint) && RowsMeetContract(key, r)
    ensures !BaseBroken(key, r, k.0, k.1)
  {
    assert (k.0, k.1) == k;
    if k in r.snapshots {
      StoredRowReadable(key, k, r.snapshots[k], checkpoint);
    }
  }

  /** In every run, a patch request is answered exactly in the window of the visible epoch. */
  lemma {:induction false} PatchesOverRuns(room: string, ops: seq<Op>, key: ProjectionKey, epoch: Epoch, after: nat)
    requires key.IsEcho()
    ensures AllKeys(After(room, ops))
    ensures var r := After(room, ops).rows[key];
            var w := PatchesAfter(key, r, epoch, after);
            && w.Ok? && (w.value.Patches? <==> InWindow(r, epoch, after))
            && (w.value.Patches? ==> ApplyAll(MapAt(r, epoch, after), w.value.patches) == MapAt(r, epoch, r.head.value.version))
  {
    ReachableInvariant(room, ops);
    var t := After(room, ops);
    var r := t.rows[key];
    assert KeyInvariant(key, r, t.checkpoint);
    WindowAnswers(key, r, t.checkpoint, epoch, after);
    if InWindow(r, epoch, after) {
      var ps := WindowLeads(key, r, t.checkpoint, epoch, after);
    }
  }
}
