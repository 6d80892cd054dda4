/** The server's side: reading the tables the worker wrote. */
module AnalyticsReader {
  import opened Domain
  import opened Sequences
  import opened Ordering
  import opened EchoMap
  import opened EchoProjection
  import opened ProjectionStore
  import opened AnalyticsContract

  datatype ReadError = Corrupt

  // ----- one row -----

  /** mapPatch and patchWire: a patch row joined with its snapshot row, checked before it leaves the server. */
  function MapPatch(key: ProjectionKey, row: PatchRow, s: SnapshotRow): Option<Patch> {
    var p := PatchOf(row);
    if row.baseVersion < 0 || row.version < 0 || row.completeThrough < 0 then None
    else if row.baseVersion != row.version - 1 || row.payload.requiresReplay != s.requiresReplay then None
    else if !key.IsEcho() || p.evidenceRefs.None? != key.EchoStudent? then None
    else if !PatchSpansOk(p) || !AssertEchoPatch(p) then None
    else Some(p)
  }

  /** Review and display status are not stored; the server derives them from the key and the content. */
  function ReviewOf(key: ProjectionKey, payload: Payload): ReviewStatus {
    if key.TraceStudent? then Approved
    else if key.EchoStudent? && payload.EchoPayload? && (|payload.graph.nodes| > 0 || |payload.graph.edges| > 0) then Approved
    else Unreviewed
  }

  function DisplayOf(key: ProjectionKey): SnapshotDisplay {
    if key.EchoStudent? then StudentApproved else if key.TraceStudent? then StudentAggregate else TeacherShadow
  }

  function SnapshotOf(key: ProjectionKey, row: SnapshotRow): Snapshot {
    Snapshot(key, row.epoch, row.algorithmVersion, row.parameterHash, row.version, row.version - 1,
             row.completeThrough, row.watermark, row.requiresReplay, row.warnings,
             ReviewOf(key, row.payload), DisplayOf(key), row.payload)
  }

  /** mapProjection. */
  ghost function MapProjection(key: ProjectionKey, row: SnapshotRow): Option<Snapshot> {
    if row.version < 1 || row.completeThrough < 0 then None
    else if key.IsEcho() && !SnapshotContract(SnapshotOf(key, row)) then None
    else Some(SnapshotOf(key, row))
  }

  method ReadProjection(key: ProjectionKey, row: SnapshotRow) returns (s: Option<Snapshot>)
    ensures s == MapProjection(key, row)
  {
    if row.version < 1 || row.completeThrough < 0 { return None; }
    var candidate := SnapshotOf(key, row);
    if key.IsEcho() {
      if !candidate.payload.EchoPayload? || !EdgeSpansOk(candidate.payload.graph.edges) { return None; }
      var ok := AssertEchoSnapshotSemantics(candidate);
      if !ok { return None; }
    }
    return Some(candidate);
  }

  // ----- queries -----

  type JoinedRow = (PatchRow, SnapshotRow)

  function VersionOrder(v: int): seq<int> { [v] }

  /** ORDER BY version. */
  function Ascending(vs: set<int>): (r: seq<int>)
    ensures forall v :: v in r <==> v in vs
    ensures SortedBy(r, VersionOrder)
  {
    assert InjectiveOn(vs, VersionOrder) by {
      forall a, b | a in vs && b in vs && VersionOrder(a) == VersionOrder(b) ensures a == b {
        assert VersionOrder(a)[0] == VersionOrder(b)[0];
      }
    }
    SortBy(vs, VersionOrder)
  }

  predicate Joined(r: KeyRows, epoch: Epoch, v: int) {
    (epoch, v) in r.patches && (epoch, v) in r.snapshots
  }

  /** The versions of an epoch that have both a patch and a snapshot. */
  function JoinedVersions(r: KeyRows, epoch: Epoch): (vs: set<int>)
    ensures forall v :: v in vs <==> Joined(r, epoch, v)
  {
    var vs := set k | k in r.patches && k in r.snapshots && k.0 == epoch :: k.1;
    assert forall v :: Joined(r, epoch, v) ==> (epoch, v).1 in vs;
    vs
  }

  function RowAt(r: KeyRows, epoch: Epoch, v: int): JoinedRow
    requires Joined(r, epoch, v)
  {
    (r.patches[(epoch, v)], r.snapshots[(epoch, v)])
  }

  function RowsAt(r: KeyRows, epoch: Epoch, versions: seq<int>): (rows: seq<JoinedRow>)
    requires forall i :: 0 <= i < |versions| ==> Joined(r, epoch, versions[i])
    ensures |rows| == |versions|
    ensures forall i :: 0 <= i < |rows| ==> rows[i] == RowAt(r, epoch, versions[i])
  {
    seq(|versions|, i requires 0 <= i < |versions| => RowAt(r, epoch, versions[i]))
  }

  /** LIMIT n. */
  function Take<T>(xs: seq<T>, n: nat): seq<T> { if |xs| <= n then xs else xs[..n] }

  /** ORDER BY ... DESC LIMIT n, turned round again. */
  function TakeLast<T>(xs: seq<T>, n: nat): seq<T> { if |xs| <= n then xs else xs[|xs| - n..] }

  // ----- validatePatchChain -----

  predicate RowContinues(key: ProjectionKey, row: JoinedRow, expected: int, head: Head) {
    && MapPatch(key, row.0, row.1).Some?
    && row.0.epoch == head.epoch && row.0.algorithmVersion == head.algorithmVersion && row.0.parameterHash == head.parameterHash
    && row.0.baseVersion == expected && row.0.version == expected + 1
  }

  /** What the rows must be for a chain from `after` to the head. */
  ghost predicate IsChain(key: ProjectionKey, rows: seq<JoinedRow>, after: int, head: Head) {
    (forall i :: 0 <= i < |rows| ==> RowContinues(key, rows[i], after + i, head)) && after + |rows| == head.version
  }

  function WireOf(rows: seq<JoinedRow>): seq<Patch> {
    MapSeq((row: JoinedRow) => PatchOf(row.0), rows)
  }

  method ValidatePatchChain(key: ProjectionKey, rows: seq<JoinedRow>, after: int, head: Head) returns (r: Option<seq<Patch>>)
    ensures r == if IsChain(key, rows, after, head) then Some(WireOf(rows)) else None
  {
    var patches: seq<Patch> := [];
    var expected := after;
    var i := 0;
    while i < |rows|
      invariant 0 <= i <= |rows| && expected == after + i
      invariant forall k :: 0 <= k < i ==> RowContinues(key, rows[k], after + k, head)
      invariant patches == WireOf(rows)[..i]
    {
      var patch := MapPatch(key, rows[i].0, rows[i].1);
      if patch.None? { return None; }
      var p := patch.value;
      if p.epoch != head.epoch || p.algorithmVersion != head.algorithmVersion || p.parameterHash != head.parameterHash
         || p.baseVersion != expected || p.projectionVersion != expected + 1
      {
        return None;
      }
      patches := patches + [p];
      expected := p.projectionVersion;
      i := i + 1;
    }
    assert WireOf(rows)[..|rows|] == WireOf(rows);
    return if expected == head.version then Some(patches) else None;
  }

  // ----- patchesAfter -----

  datatype PatchWindow = Patches(patches: seq<Patch>) | Resync

  function VersionsBetween(r: KeyRows, epoch: Epoch, after: int, through: int): (vs: set<int>)
    ensures forall v :: v in vs <==> Joined(r, epoch, v) && after < v <= through
  {
    set v | v in JoinedVersions(r, epoch) && after < v <= through
  }

  function WindowRows(r: KeyRows, epoch: Epoch, after: int, through: int): seq<JoinedRow> {
    var versions := Ascending(VersionsBetween(r, epoch, after, through));
    var chosen := Take(versions, 201);
    assert forall i :: 0 <= i < |chosen| ==> chosen[i] in versions;
    RowsAt(r, epoch, chosen)
  }

  ghost function PatchesAfter(key: ProjectionKey, r: KeyRows, epoch: Epoch, after: nat): Result<PatchWindow, ReadError> {
    if !key.IsEcho() || r.head.None? then Ok(Resync)
    else
      var head := r.head.value;
      if head.version < 0 then Err(Corrupt)
      else if head.epoch != epoch || after > head.version then Ok(Resync)
      else
        var rows := WindowRows(r, epoch, after, head.version);
        if |rows| > 200 || !IsChain(key, rows, after, head) then Ok(Resync) else Ok(Patches(WireOf(rows)))
  }

  method ReadPatches(key: ProjectionKey, r: KeyRows, epoch: Epoch, after: nat) returns (w: Result<PatchWindow, ReadError>)
    ensures w == PatchesAfter(key, r, epoch, after)
  {
    if !key.IsEcho() || r.head.None? { return Ok(Resync); }
    var head := r.head.value;
    if head.version < 0 { return Err(Corrupt); }
    if head.epoch != epoch || after > head.version { return Ok(Resync); }
    var rows := WindowRows(r, epoch, after, head.version);
    if |rows| > 200 { return Ok(Resync); }
    var patches := ValidatePatchChain(key, rows, after, head);
    return if patches.None? then Ok(Resync) else Ok(Patches(patches.value));
  }

  // ----- timeline -----

  datatype TimelineAnswer = Shown(timeline: Timeline) | TimelineResync(headVersion: int)

  function Min(a: int, b: int): int { if a < b then a else b }

  function LastRows(r: KeyRows, epoch: Epoch, limit: nat): seq<JoinedRow> {
    var versions := Ascending(JoinedVersions(r, epoch));
    var chosen := TakeLast(versions, limit);
    assert forall i :: 0 <= i < |chosen| ==> chosen[i] in versions;
    RowsAt(r, epoch, chosen)
  }

  /** The chain of a timeline, put on the snapshot it starts from. */
  ghost function Anchored(key: ProjectionKey, r: KeyRows, head: Head,
          patches: seq<Patch>): Result<TimelineAnswer, ReadError> {
    var first := if patches == [] then head.version else patches[0].projectionVersion;
    if head.version > 0 && patches == [] then Ok(TimelineResync(head.version))
    else if first <= 1 then Ok(Shown(Timeline(key, head.epoch, None, patches, None, head.version)))
    else if (head.epoch, first - 1) !in r.snapshots then Ok(TimelineResync(head.version))
    else
      match MapProjection(key, r.snapshots[(head.epoch, first - 1)])
      case None => Err(Corrupt)
      case Some(b) => Ok(Shown(Timeline(key, head.epoch, Some(b), patches, Some(first - 1), head.version)))
  }

  ghost function TimelineOf(key: ProjectionKey, r: KeyRows, epoch: Epoch, limit: int): Result<TimelineAnswer, ReadError> {
    if limit < 1 || limit > 200 then Err(Corrupt)
    else if r.head.None? || r.head.value.epoch != epoch then Ok(TimelineResync(0))
    else
      var head := r.head.value;
      if head.version < 0 then Err(Corrupt)
      else
        var expected, rows := Min(limit, head.version), LastRows(r, epoch, limit);
        if |rows| != expected || !IsChain(key, rows, head.version - expected, head) then Ok(TimelineResync(head.version))
        else Anchored(key, r, head, WireOf(rows))
  }

  method ReadAnchored(key: ProjectionKey, r: KeyRows, head: Head,
          patches: seq<Patch>) returns (t: Result<TimelineAnswer, ReadError>)
    ensures t == Anchored(key, r, head, patches)
  {
    var first := if patches == [] then head.version else patches[0].projectionVersion;
    if head.version > 0 && patches == [] { return Ok(TimelineResync(head.version)); }
    if first <= 1 { return Ok(Shown(Timeline(key, head.epoch, None, patches, None, head.version))); }
    if (head.epoch, first - 1) !in r.snapshots { return Ok(TimelineResync(head.version)); }
    var b := ReadProjection(key, r.snapshots[(head.epoch, first - 1)]);
    if b.None? { return Err(Corrupt); }
    return Ok(Shown(Timeline(key, head.epoch, Some(b.value), patches, Some(first - 1), head.version)));
  }

  method ReadTimeline(key: ProjectionKey, r: KeyRows, epoch: Epoch,
          limit: int) returns (t: Result<TimelineAnswer, ReadError>)
    ensures t == TimelineOf(key, r, epoch, limit)
  {
    if limit < 1 || limit > 200 { return Err(Corrupt); }
    if r.head.None? || r.head.value.epoch != epoch { return Ok(TimelineResync(0)); }
    var head := r.head.value;
    if head.version < 0 { return Err(Corrupt); }
    var expected := Min(limit, head.version);
    var rows := LastRows(r, epoch, limit);
    if |rows| != expected { return Ok(TimelineResync(head.version)); }
    var chain := ValidatePatchChain(key, rows, head.version - expected, head);
    if chain.None? { return Ok(TimelineResync(head.version)); }
    t := ReadAnchored(key, r, head, chain.value);
  }

  // ----- latest -----

  ghost function Latest(key: ProjectionKey, r: KeyRows): Result<Option<Snapshot>, ReadError> {
    if r.head.None? || r.head.value.snapshotId.None? || r.head.value.snapshotId.value !in r.snapshots then Ok(None)
    else
      var h, row := r.head.value, r.snapshots[r.head.value.snapshotId.value];
      if row.epoch != h.epoch || row.version != h.version then Ok(None)
      else
        match MapProjection(key, row)
        case None => Err(Corrupt)
        case Some(s) => Ok(Some(s))
  }

  method ReadLatest(key: ProjectionKey, r: KeyRows) returns (s: Result<Option<Snapshot>, ReadError>)
    ensures s == Latest(key, r)
  {
    if r.head.None? || r.head.value.snapshotId.None? || r.head.value.snapshotId.value !in r.snapshots { return Ok(None); }
    var h, row := r.head.value, r.snapshots[r.head.value.snapshotId.value];
    if row.epoch != h.epoch || row.version != h.version { return Ok(None); }
    var mapped := ReadProjection(key, row);
    return if mapped.None? then Err(Corrupt) else Ok(Some(mapped.value));
  }
}
