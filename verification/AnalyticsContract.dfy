/** The wire contract both languages check: single patches, patch chains and timelines. */
module AnalyticsContract {
  import opened Domain
  import opened Sequences
  import opened EchoMap
  import opened EchoProjection

  /** assertEchoPatchSemantics as written: a set of identifiers as large as the list of them. */
  predicate AssertEchoPatch(p: Patch) {
    var nodes, edges := TouchedIds(p.nodes, NodeId), TouchedIds(p.edges, EdgeId);
    var moved := MapSeq((u: PositionUpdate) => u.nodeId, p.positionUpdates);
    && p.projectionVersion == p.baseVersion + 1
    && |Elements(nodes)| == |nodes| && |Elements(edges)| == |edges| && |Elements(moved)| == |moved|
  }

  /** The size test accepts exactly the patches that touch no identifier twice. */
  lemma AssertEchoPatchExact(p: Patch)
    ensures AssertEchoPatch(p) <==> PatchSemantics(p)
  {
    SizeIsDistinctness(TouchedIds(p.nodes, NodeId));
    SizeIsDistinctness(TouchedIds(p.edges, EdgeId));
    SizeIsDistinctness(MapSeq((u: PositionUpdate) => u.nodeId, p.positionUpdates));
  }

  predicate Continues(a: Patch, b: Patch) {
    && b.baseVersion == a.projectionVersion && b.epoch == a.epoch
    && b.algorithmVersion == a.algorithmVersion && b.parameterHash == a.parameterHash
    && a.completeThrough <= b.completeThrough
  }

  ghost predicate ChainOk(ps: seq<Patch>) {
    && (forall i :: 0 <= i < |ps| ==> PatchSpansOk(ps[i]) && PatchSemantics(ps[i]))
    && (forall i, j :: 0 <= i && j == i + 1 && j < |ps| ==> Continues(ps[i], ps[j]))
  }

  method AssertPatchChain(ps: seq<Patch>) returns (ok: bool)
    ensures ok <==> ChainOk(ps)
  {
    var previous: Option<Patch> := None;
    var i := 0;
    while i < |ps|
      invariant 0 <= i <= |ps|
      invariant previous == if i == 0 then None else Some(ps[i - 1])
      invariant forall k :: 0 <= k < i ==> PatchSpansOk(ps[k]) && PatchSemantics(ps[k])
      invariant forall k, l :: 0 <= k && l == k + 1 && l < i ==> Continues(ps[k], ps[l])
    {
      AssertEchoPatchExact(ps[i]);
      if !PatchSpansOk(ps[i]) || !AssertEchoPatch(ps[i]) { return false; }
      if previous.Some? && !Continues(previous.value, ps[i]) { return false; }
      previous := Some(ps[i]);
      i := i + 1;
    }
    return true;
  }

  datatype Timeline = Timeline(
    key: ProjectionKey, epoch: Epoch, baseSnapshot: Option<Snapshot>, patches: seq<Patch>,
    truncatedBefore: Option<int>, headVersion: int)

  ghost predicate SnapshotContract(s: Snapshot) {
    SnapshotSemantics(s) && EdgeSpansOk(s.payload.graph.edges)
  }

  ghost predicate BaseFits(b: Snapshot, t: Timeline)
    requires t.patches != []
  {
    var first := t.patches[0];
    && SnapshotContract(b) && t.truncatedBefore == Some(b.projectionVersion)
    && b.epoch == first.epoch && b.algorithmVersion == first.algorithmVersion && b.parameterHash == first.parameterHash
    && b.completeThrough <= first.completeThrough
  }

  ghost predicate TimelineSemantics(t: Timeline) {
    && ChainOk(t.patches)
    && (forall i :: 0 <= i < |t.patches| ==> t.patches[i].epoch == t.epoch)
    && (t.baseSnapshot.Some? ==> t.baseSnapshot.value.key == t.key && t.baseSnapshot.value.epoch == t.epoch)
    && if t.patches == [] then t.baseSnapshot.None? && t.truncatedBefore.None? && t.headVersion == 0
       else
         && t.patches[|t.patches| - 1].projectionVersion == t.headVersion
         && t.patches[0].baseVersion == (if t.baseSnapshot.Some? then t.baseSnapshot.value.projectionVersion else 0)
         && (t.baseSnapshot.Some? ==> BaseFits(t.baseSnapshot.value, t))
         && (t.baseSnapshot.None? ==> t.truncatedBefore.None?)
  }

  method AssertTimelineSemantics(t: Timeline) returns (ok: bool)
    requires t.baseSnapshot.Some? ==> t.baseSnapshot.value.payload.EchoPayload? && t.baseSnapshot.value.key.IsEcho()
    ensures ok <==> TimelineSemantics(t)
  {
    var chain := AssertPatchChain(t.patches);
    if !chain { return false; }
    if exists i :: 0 <= i < |t.patches| && t.patches[i].epoch != t.epoch { return false; }
    if t.baseSnapshot.Some? && (t.baseSnapshot.value.key != t.key || t.baseSnapshot.value.epoch != t.epoch) { return false; }
    if t.patches == [] {
      return t.baseSnapshot.None? && t.truncatedBefore.None? && t.headVersion == 0;
    }
    var first, last := t.patches[0], t.patches[|t.patches| - 1];
    var expectedBase := if t.baseSnapshot.Some? then t.baseSnapshot.value.projectionVersion else 0;
    if first.baseVersion != expectedBase || last.projectionVersion != t.headVersion { return false; }
    if t.baseSnapshot.None? { return t.truncatedBefore.None?; }
    var b := t.baseSnapshot.value;
    if !EdgeSpansOk(b.payload.graph.edges) { return false; }
    var semantic := AssertEchoSnapshotSemantics(b);
    if !semantic { return false; }
    return t.truncatedBefore == Some(b.projectionVersion)
           && b.epoch == first.epoch && b.algorithmVersion == first.algorithmVersion && b.parameterHash == first.parameterHash
           && b.completeThrough <= first.completeThrough;
  }
}
