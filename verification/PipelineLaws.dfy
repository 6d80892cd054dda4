/** What every run of the two analytics transactions keeps. */
module PipelineLaws {
  import opened Domain
  import opened EchoMap
  import opened EchoProjection
  import opened ProjectionStore
  import opened Pipeline

  // ----- the invariant of one projection key -----

  function Previous(k: VersionKey): VersionKey { (k.0, k.1 - 1) }

  function GraphOf(p: Payload): Graph {
    match p case EchoPayload(g) => g case TracePayload(_) => EMPTY_GRAPH
  }

  /** The versions of an epoch are 1, 2, 3, … without a gap. */
  ghost predicate Contiguous(r: KeyRows) {
    && (forall k :: k in r.snapshots ==> k.1 >= 1)
    && (forall j: VersionKey, k: VersionKey :: k in r.snapshots && j.0 == k.0 && 1 <= j.1 <= k.1 ==> j in r.snapshots)
  }

  ghost predicate RowDescribes(key: ProjectionKey, k: VersionKey, row: SnapshotRow, checkpoint: int) {
    && row.epoch == k.0 && row.version == k.1
    && 0 < row.completeThrough <= checkpoint
    && row.payload.EchoPayload? == key.IsEcho()
    && EdgeSpansOk(GraphOf(row.payload).edges)
    && (k.0.RotatedEpoch? ==> row.algorithmVersion == k.0.build.VersionFor(key) && row.parameterHash == k.0.build.parameterHash)
  }

  ghost predicate RowsDescribe(key: ProjectionKey, r: KeyRows, checkpoint: int) {
    forall k :: k in r.snapshots ==> RowDescribes(key, k, r.snapshots[k], checkpoint)
  }

  /** A successor covers more of the log, under the same algorithm. */
  ghost predicate Succeeds(earlier: SnapshotRow, later: SnapshotRow) {
    && earlier.completeThrough < later.completeThrough
    && earlier.algorithmVersion == later.algorithmVersion
    && earlier.parameterHash == later.parameterHash
  }

  ghost predicate Chained(r: KeyRows) {
    forall j, k :: j in r.snapshots && k in r.snapshots && j == Previous(k) ==> Succeeds(r.snapshots[j], r.snapshots[k])
  }

  function BaseMap(snapshots: map<VersionKey, SnapshotRow>, k: VersionKey): GraphMap {
    if Previous(k) in snapshots then MapOf(GraphOf(snapshots[Previous(k)].payload)) else EMPTY_MAP
  }

  ghost predicate SameVersion(k: VersionKey, row: SnapshotRow, p: Patch) {
    && p.epoch == k.0 && p.projectionVersion == k.1 && p.baseVersion == k.1 - 1
    && p.completeThrough == row.completeThrough && p.requiresReplay == row.requiresReplay
    && p.algorithmVersion == row.algorithmVersion && p.parameterHash == row.parameterHash && p.warnings == row.warnings
  }

  /** A stored patch is its snapshot's, meets the wire contract, and leads to it from the previous version. */
  ghost predicate PatchLeads(student: bool, base: GraphMap, k: VersionKey, row: SnapshotRow, p: Patch) {
    && SameVersion(k, row, p) && p.evidenceRefs.None? == student
    && PatchSemantics(p) && PatchSpansOk(p)
    && ApplyPatch(base, p) == MapOf(GraphOf(row.payload))
    && IsDelta(base, MapOf(GraphOf(row.payload)), p)
  }

  ghost predicate PatchesLead(key: ProjectionKey, r: KeyRows) {
    && r.patches.Keys == (if key.IsEcho() then r.snapshots.Keys else {})
    && forall k {:trigger r.patches[k]} :: k in r.patches && k in r.snapshots ==>
         PatchLeads(key.EchoStudent?, BaseMap(r.snapshots, k), k, r.snapshots[k], PatchOf(r.patches[k]))
  }

  ghost predicate HeadNames(h: Head, row: SnapshotRow) {
    && h.epoch == row.epoch && h.version == row.version && h.completeThrough == row.completeThrough
    && h.algorithmVersion == row.algorithmVersion && h.parameterHash == row.parameterHash
    && h.watermark == row.watermark && h.requiresReplay == row.requiresReplay
  }

  /** The head names the newest stored version of its epoch, which covers everything up to the checkpoint. */
  ghost predicate HeadInstalled(r: KeyRows, checkpoint: int) {
    match r.head
    case None => r.snapshots == map[]
    case Some(h) =>
      var k := (h.epoch, h.version);
      && h.snapshotId == Some(k) && k in r.snapshots && (h.epoch, h.version + 1) !in r.snapshots
      && HeadNames(h, r.snapshots[k]) && h.completeThrough == checkpoint
  }

  ghost predicate KeyInvariant(key: ProjectionKey, r: KeyRows, checkpoint: int) {
    && Contiguous(r) && RowsDescribe(key, r, checkpoint) && Chained(r)
    && PatchesLead(key, r) && HeadInstalled(r, checkpoint)
  }

  // ----- one step of one key -----

  /** What the transactions guarantee about a target: a continued epoch keeps its algorithm and moves forward. */
  ghost predicate TargetOk(key: ProjectionKey, r: KeyRows, b: Build, epoch: Epoch, through: nat, checkpoint: nat) {
    && through > 0 && through >= checkpoint
    && (r.head.Some? && r.head.value.epoch == epoch ==> through > checkpoint && BuiltBy(r.head.value, key, b))
    && EpochFits(key, b, epoch)
  }

  /** An epoch named after a build holds that build's rows. */
  ghost predicate EpochFits(key: ProjectionKey, b: Build, epoch: Epoch) {
    epoch.RotatedEpoch? ==> b.VersionFor(key) == epoch.build.VersionFor(key) && b.parameterHash == epoch.build.parameterHash
  }

  /** Persisting the next version, said once: the row and its patch are new or already there, and the head moves. */
  ghost predicate PersistsNext(r: KeyRows, s: Snapshot, patch: Option<Patch>, r': KeyRows) {
    var k := (s.epoch, s.projectionVersion);
    && (k in r.snapshots ==> r.snapshots[k] == SnapshotRowOf(s))
    && r'.snapshots == r.snapshots[k := SnapshotRowOf(s)]
    && (patch.Some? && k in r.patches ==> r.patches[k] == PatchRowOf(patch.value))
    && r'.patches == (if patch.Some? then r.patches[k := PatchRowOf(patch.value)] else r.patches)
    && r'.head == Some(AdvancedHead(s))
  }

  lemma PersistedIsNext(r: KeyRows, s: Snapshot, patch: Option<Patch>, r': KeyRows)
    requires Persisted(r, s, patch) == Ok(r')
    requires s.projectionVersion == NextVersion(r, s.epoch)
    ensures PersistsNext(r, s, patch, r')
  {
  }

  /** A row placed at the end of its epoch, or placed again where it already is. */
  ghost predicate PlacesLast(r: KeyRows, k: VersionKey, row: SnapshotRow, snapshots: map<VersionKey, SnapshotRow>) {
    && snapshots == r.snapshots[k := row]
    && (k in r.snapshots ==> r.snapshots[k] == row)
    && k.1 >= 1 && (k.1 > 1 ==> Previous(k) in r.snapshots) && (k.0, k.1 + 1) !in r.snapshots
    && (Previous(k) in r.snapshots ==> Succeeds(r.snapshots[Previous(k)], row))
  }

  lemma PlacingKeepsOrder(r: KeyRows, k: VersionKey, row: SnapshotRow, r': KeyRows)
    requires Contiguous(r) && PlacesLast(r, k, row, r'.snapshots)
    ensures Contiguous(r')
  {
    forall i: VersionKey, j: VersionKey | j in r'.snapshots && i.0 == j.0 && 1 <= i.1 <= j.1 ensures i in r'.snapshots {
      if j == k && i != k {
        assert Previous(k) in r.snapshots;
      }
    }
  }

  lemma PlacingKeepsChain(r: KeyRows, k: VersionKey, row: SnapshotRow, r': KeyRows)
    requires Chained(r) && PlacesLast(r, k, row, r'.snapshots)
    ensures Chained(r')
  {
    forall i, j | i in r'.snapshots && j in r'.snapshots && i == Previous(j)
      ensures Succeeds(r'.snapshots[i], r'.snapshots[j])
    {
      assert i == k ==> j == (k.0, k.1 + 1);
    }
  }

  lemma PlacingKeepsRows(key: ProjectionKey, r: KeyRows, k: VersionKey, row: SnapshotRow, r': KeyRows,
          checkpoint: int, through: int)
    requires Contiguous(r) && RowsDescribe(key, r, checkpoint) && Chained(r)
    requires PlacesLast(r, k, row, r'.snapshots) && checkpoint <= through && RowDescribes(key, k, row, through)
    ensures Contiguous(r') && RowsDescribe(key, r', through) && Chained(r')
  {
    PlacingKeepsOrder(r, k, row, r');
    PlacingKeepsChain(r, k, row, r');
  }

  lemma PlacingKeepsBases(r: KeyRows, k: VersionKey, row: SnapshotRow, snapshots: map<VersionKey, SnapshotRow>,
          j: VersionKey)
    requires PlacesLast(r, k, row, snapshots) && j in snapshots
    ensures BaseMap(snapshots, j) == BaseMap(r.snapshots, j)
  {
    assert Previous(j) == k ==> j == (k.0, k.1 + 1);
  }

  lemma PlacingKeepsPatches(key: ProjectionKey, r: KeyRows, k: VersionKey, row: SnapshotRow, patch: Option<Patch>,
          r': KeyRows)
    requires PatchesLead(key, r) && PlacesLast(r, k, row, r'.snapshots)
    requires patch.Some? == key.IsEcho()
    requires r'.patches == if patch.Some? then r.patches[k := PatchRowOf(patch.value)] else r.patches
    requires patch.Some? ==> PatchLeads(key.EchoStudent?, BaseMap(r.snapshots, k), k, row, patch.value)
    ensures PatchesLead(key, r')
  {
    forall j | j in r'.patches && j in r'.snapshots
      ensures PatchLeads(key.EchoStudent?, BaseMap(r'.snapshots, j), j, r'.snapshots[j], PatchOf(r'.patches[j]))
    {
      PlacingKeepsBases(r, k, row, r'.snapshots, j);
      if j == k {
        PatchRoundTrip(patch.value);
      } else {
        assert PatchLeads(key.EchoStudent?, BaseMap(r.snapshots, j), j, r.snapshots[j], PatchOf(r.patches[j]));
      }
    }
  }

  /** The base a patch is computed against is the previous version, read as a map. */
  lemma BaselineIsPrevious(r: KeyRows, epoch: Epoch, checkpoint: int)
    requires Contiguous(r) && HeadInstalled(r, checkpoint)
    ensures MapOf(PatchBaseline(r, epoch)) == BaseMap(r.snapshots, (epoch, NextVersion(r, epoch)))
  {
    var k := (epoch, NextVersion(r, epoch));
    if r.head.Some? && r.head.value.epoch == epoch {
      assert Previous(k) == (epoch, r.head.value.version);
    } else {
      assert Previous(k) == (epoch, 0);
      assert Previous(k) !in r.snapshots;
    }
  }

  lemma DiffLeads(prior: Graph, g: Graph, m: Metadata, student: bool, row: SnapshotRow)
    requires m.baseVersion == m.projectionVersion - 1 && EdgeSpansOk(g.edges) && GraphOf(row.payload) == g
    requires row.completeThrough == m.completeThrough && row.requiresReplay == m.requiresReplay
    requires row.algorithmVersion == m.algorithmVersion && row.parameterHash == m.parameterHash && row.warnings == m.warnings
    ensures PatchLeads(student, MapOf(prior), (m.epoch, m.projectionVersion), row, DiffGraphs(prior, g, m, student))
  {
    DiffReaches(prior, g, m, student);
    DiffIsDelta(prior, g, m, student);
    DiffSatisfiesContract(prior, g, m, student);
    DiffSpansOk(prior, g, m, student);
  }

  lemma {:induction false} NewPatchLeads(key: ProjectionKey, r: KeyRows, m: Metadata, v: Views, x: Inputs, checkpoint: int)
    requires key.IsEcho() && Contiguous(r) && HeadInstalled(r, checkpoint)
    requires m.projectionVersion == NextVersion(r, m.epoch) && m.baseVersion == m.projectionVersion - 1
    requires EdgeSpansOk(GraphFor(key, v).edges)
    ensures var k := (m.epoch, m.projectionVersion);
            PatchLeads(key.EchoStudent?, BaseMap(r.snapshots, k), k, SnapshotRowOf(SnapshotFor(key, m, v, x)), PatchFor(key, r, m, v, x).value)
  {
    var prior, g := PatchBaseline(r, m.epoch), GraphFor(key, v);
    BaselineIsPrevious(r, m.epoch, checkpoint);
    var draft := DiffGraphs(prior, g, m, key.EchoStudent?);
    DiffLeads(prior, g, m.(reasonCodes := ReasonCodes(draft, x)), key.EchoStudent?, SnapshotRowOf(SnapshotFor(key, m, v, x)));
  }

  lemma NewRowDescribes(key: ProjectionKey, b: Build, m: Metadata, v: Views, x: Inputs)
    requires EdgeSpansOk(GraphFor(key, v).edges) && m.completeThrough > 0
    requires EpochFits(key, b, m.epoch) && m.algorithmVersion == b.VersionFor(key) && m.parameterHash == b.parameterHash
    ensures RowDescribes(key, (m.epoch, m.projectionVersion), SnapshotRowOf(SnapshotFor(key, m, v, x)), m.completeThrough)
  {
  }

  /** In the visible epoch the next version is not stored yet. */
  lemma PlacesContinued(r: KeyRows, row: SnapshotRow, snapshots: map<VersionKey, SnapshotRow>, checkpoint: int)
    requires Contiguous(r) && HeadInstalled(r, checkpoint) && r.head.Some?
    requires var h := r.head.value;
             && row.algorithmVersion == h.algorithmVersion && row.parameterHash == h.parameterHash
             && snapshots == r.snapshots[(h.epoch, h.version + 1) := row]
    requires row.completeThrough > checkpoint
    ensures PlacesLast(r, (r.head.value.epoch, r.head.value.version + 1), row, snapshots)
  {
    var h := r.head.value;
    var k, after := (h.epoch, h.version + 1), (h.epoch, h.version + 2);
    assert Previous(k) == (h.epoch, h.version) && Previous(after) == k;
  }

  /** An epoch that is entered starts at version 1, and is entered again only where nothing new was covered since. */
  lemma PlacesEntered(key: ProjectionKey, r: KeyRows, epoch: Epoch, row: SnapshotRow,
          snapshots: map<VersionKey, SnapshotRow>, checkpoint: int)
    requires Contiguous(r) && RowsDescribe(key, r, checkpoint) && Chained(r)
    requires snapshots == r.snapshots[(epoch, 1) := row] && ((epoch, 1) in r.snapshots ==> r.snapshots[(epoch, 1)] == row)
    requires row.completeThrough >= checkpoint
    ensures PlacesLast(r, (epoch, 1), row, snapshots)
  {
    var k, after := (epoch, 1), (epoch, 2);
    assert Previous(k) == (epoch, 0) && Previous(k) !in r.snapshots;
    assert Previous(after) == k;
  }

  lemma PlacesNext(key: ProjectionKey, r: KeyRows, b: Build, epoch: Epoch, through: nat, checkpoint: nat,
          row: SnapshotRow, snapshots: map<VersionKey, SnapshotRow>)
    requires Contiguous(r) && RowsDescribe(key, r, checkpoint) && Chained(r) && HeadInstalled(r, checkpoint)
    requires TargetOk(key, r, b, epoch, through, checkpoint)
    requires row.completeThrough == through && row.algorithmVersion == b.VersionFor(key) && row.parameterHash == b.parameterHash
    requires var k := (epoch, NextVersion(r, epoch)); snapshots == r.snapshots[k := row] && (k in r.snapshots ==> r.snapshots[k] == row)
    ensures PlacesLast(r, (epoch, NextVersion(r, epoch)), row, snapshots)
  {
    if r.head.Some? && r.head.value.epoch == epoch {
      PlacesContinued(r, row, snapshots, checkpoint);
    } else {
      PlacesEntered(key, r, epoch, row, snapshots, checkpoint);
    }
  }

  lemma HeadMoves(s: Snapshot, r': KeyRows)
    requires r'.head == Some(AdvancedHead(s))
    requires var k := (s.epoch, s.projectionVersion);
             k in r'.snapshots && r'.snapshots[k] == SnapshotRowOf(s) && (s.epoch, s.projectionVersion + 1) !in r'.snapshots
    ensures HeadInstalled(r', s.completeThrough)
  {
  }

  lemma SnapshotFields(key: ProjectionKey, m: Metadata, v: Views, x: Inputs)
    ensures var s := SnapshotFor(key, m, v, x);
            && s.key == key && s.epoch == m.epoch && s.projectionVersion == m.projectionVersion && s.baseVersion == m.baseVersion
            && s.completeThrough == m.completeThrough && s.requiresReplay == m.requiresReplay && s.watermark == m.watermark
            && s.algorithmVersion == m.algorithmVersion && s.parameterHash == m.parameterHash && s.warnings == m.warnings
            && (key.IsEcho() ==> s.payload == EchoPayload(GraphFor(key, v)))
  {
  }

  lemma NewVersionReady(key: ProjectionKey, r: KeyRows, b: Build, m: Metadata, v: Views, x: Inputs, checkpoint: int)
    requires Contiguous(r) && HeadInstalled(r, checkpoint) && EdgeSpansOk(GraphFor(key, v).edges)
    requires m.projectionVersion == NextVersion(r, m.epoch) && m.baseVersion == m.projectionVersion - 1 && m.completeThrough > 0
    requires EpochFits(key, b, m.epoch) && m.algorithmVersion == b.VersionFor(key) && m.parameterHash == b.parameterHash
    ensures var k, row, patch := (m.epoch, m.projectionVersion), SnapshotRowOf(SnapshotFor(key, m, v, x)), PatchFor(key, r, m, v, x);
            && RowDescribes(key, k, row, m.completeThrough)
            && (patch.Some? ==> PatchLeads(key.EchoStudent?, BaseMap(r.snapshots, k), k, row, patch.value))
  {
    NewRowDescribes(key, b, m, v, x);
    if key.IsEcho() {
      NewPatchLeads(key, r, m, v, x, checkpoint);
    }
  }

  /** A committed step of one key keeps its invariant. */
  lemma {:induction false} StepKeeps(key: ProjectionKey, r: KeyRows, b: Build, epoch: Epoch, through: nat, v: Views,
          x: Inputs, enqueue: bool, checkpoint: nat, r': KeyRows)
    requires KeyInvariant(key, r, checkpoint) && TargetOk(key, r, b, epoch, through, checkpoint)
    requires PersistKey(key, r, b, epoch, through, v, x, enqueue) == Ok(r')
    requires EdgeSpansOk(v.teacher.edges) && EdgeSpansOk(v.student.edges)
    ensures KeyInvariant(key, r', through)
  {
    var m := MetadataFor(key, b, epoch, NextVersion(r, epoch), through, x, enqueue);
    var s, patch := SnapshotFor(key, m, v, x), PatchFor(key, r, m, v, x);
    SnapshotFields(key, m, v, x);
    PersistedIsNext(r, s, patch, r');
    NewVersionReady(key, r, b, m, v, x, checkpoint);
    AssembleStep(key, r, b, epoch, through, checkpoint, s, patch, r');
  }

  ghost predicate StepTaken(key: ProjectionKey, r: KeyRows, b: Build, epoch: Epoch, g: Graph, r': KeyRows) {
    var k := (epoch, NextVersion(r, epoch));
    && r'.head.Some? && (r'.head.value.epoch, r'.head.value.version) == k && BuiltBy(r'.head.value, key, b)
    && Extends(r, r') && r'.snapshots.Keys == r.snapshots.Keys + {k}
    && (key.IsEcho() ==> r'.snapshots[k].payload == EchoPayload(g))
  }

  /** Stored rows are immutable. */
  ghost predicate Extends(r: KeyRows, r': KeyRows) {
    && (forall k :: k in r.snapshots ==> k in r'.snapshots && r'.snapshots[k] == r.snapshots[k])
    && (forall k :: k in r.patches ==> k in r'.patches && r'.patches[k] == r.patches[k])
  }

  /** A committed step moves the head to the target and forgets nothing. */
  lemma {:induction false} StepAdvances(key: ProjectionKey, r: KeyRows, b: Build, epoch: Epoch, through: nat,
          v: Views, x: Inputs, enqueue: bool, r': KeyRows)
    requires PersistKey(key, r, b, epoch, through, v, x, enqueue) == Ok(r')
    ensures StepTaken(key, r, b, epoch, GraphFor(key, v), r')
  {
    var m := MetadataFor(key, b, epoch, NextVersion(r, epoch), through, x, enqueue);
    SnapshotFields(key, m, v, x);
    PersistedIsNext(r, SnapshotFor(key, m, v, x), PatchFor(key, r, m, v, x), r');
  }

  lemma AssembleStep(key: ProjectionKey, r: KeyRows, b: Build, epoch: Epoch, through: nat, checkpoint: nat,
          s: Snapshot, patch: Option<Patch>, r': KeyRows)
    requires KeyInvariant(key, r, checkpoint) && TargetOk(key, r, b, epoch, through, checkpoint)
    requires s.epoch == epoch && s.projectionVersion == NextVersion(r, epoch) && s.completeThrough == through
    requires s.algorithmVersion == b.VersionFor(key) && s.parameterHash == b.parameterHash
    requires PersistsNext(r, s, patch, r') && patch.Some? == key.IsEcho()
    requires var k := (epoch, s.projectionVersion);
             && RowDescribes(key, k, SnapshotRowOf(s), through)
             && (patch.Some? ==> PatchLeads(key.EchoStudent?, BaseMap(r.snapshots, k), k, SnapshotRowOf(s), patch.value))
    ensures KeyInvariant(key, r', through)
  {
    PlacesNext(key, r, b, epoch, through, checkpoint, SnapshotRowOf(s), r'.snapshots);
    PlacedKeepsKey(key, r, through, checkpoint, s, patch, r');
  }

  lemma PlacedKeepsKey(key: ProjectionKey, r: KeyRows, through: nat, checkpoint: nat, s: Snapshot,
          patch: Option<Patch>, r': KeyRows)
    requires Contiguous(r) && RowsDescribe(key, r, checkpoint) && Chained(r) && PatchesLead(key, r) && checkpoint <= through
    requires PersistsNext(r, s, patch, r') && patch.Some? == key.IsEcho() && s.completeThrough == through
    requires var k := (s.epoch, s.projectionVersion);
             && PlacesLast(r, k, SnapshotRowOf(s), r'.snapshots)
             && RowDescribes(key, k, SnapshotRowOf(s), through)
             && (patch.Some? ==> PatchLeads(key.EchoStudent?, BaseMap(r.snapshots, k), k, SnapshotRowOf(s), patch.value))
    ensures KeyInvariant(key, r', through)
  {
    var k, row := (s.epoch, s.projectionVersion), SnapshotRowOf(s);
    PlacingKeepsRows(key, r, k, row, r', checkpoint, through);
    PlacingKeepsPatches(key, r, k, row, patch, r');
    assert r'.snapshots[k] == row && (s.epoch, s.projectionVersion + 1) !in r'.snapshots;
    HeadMoves(s, r');
  }
}
