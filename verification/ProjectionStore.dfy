/** The analytics tables of one room and the port that writes them. */
module ProjectionStore {
  import opened Domain
  import opened EchoMap
  import opened EchoProjection

  /** A version of an epoch; with the projection key it is the unique key of a snapshot or patch row,
      and it also stands for the snapshot's random row identifier. */
  type VersionKey = (Epoch, int)

  datatype SnapshotRow = SnapshotRow(
    epoch: Epoch, version: int, completeThrough: int, watermark: Instant, requiresReplay: bool,
    algorithmVersion: string, parameterHash: string, warnings: seq<string>, payload: Payload)

  /** The closed JSON shape of a stored patch; versions and identity live in typed columns. */
  datatype PatchPayload = PatchPayload(
    requiresReplay: bool, warnings: seq<string>, nodes: Delta<Node>, edges: Delta<Edge>,
    positionUpdates: seq<PositionUpdate>, changeScore: real, reasonCodes: seq<string>,
    evidenceRefs: Option<seq<EvidenceRef>>)

  datatype PatchRow = PatchRow(
    epoch: Epoch, version: int, baseVersion: int, completeThrough: int,
    algorithmVersion: string, parameterHash: string, payload: PatchPayload)

  datatype Head = Head(
    epoch: Epoch, version: int, completeThrough: int, algorithmVersion: string, parameterHash: string,
    watermark: Instant, requiresReplay: bool, snapshotId: Option<VersionKey>)

  /** The rows of one projection key. Every statement filters on the key, so the tables split by it. */
  datatype KeyRows = KeyRows(
    head: Option<Head>, snapshots: map<VersionKey, SnapshotRow>, patches: map<VersionKey, PatchRow>)

  const NO_ROWS := KeyRows(None, map[], map[])

  const EMPTY_ROWS := map[EchoTeacher := NO_ROWS, EchoStudent := NO_ROWS, TraceTeacher := NO_ROWS, TraceStudent := NO_ROWS]

  lemma EveryKeyEmpty()
    ensures forall k: ProjectionKey :: k in EMPTY_ROWS && EMPTY_ROWS[k] == NO_ROWS
  {
    forall k: ProjectionKey ensures k in EMPTY_ROWS && EMPTY_ROWS[k] == NO_ROWS {
      match k case EchoTeacher => case EchoStudent => case TraceTeacher => case TraceStudent =>
    }
  }

  datatype StoreError = InvalidSnapshot | InvalidPatch | SnapshotConflict | PatchConflict | VersionConflict

  function SnapshotRowOf(s: Snapshot): SnapshotRow {
    SnapshotRow(s.epoch, s.projectionVersion, s.completeThrough, s.watermark, s.requiresReplay,
                s.algorithmVersion, s.parameterHash, s.warnings, s.payload)
  }

  /** _compact_patch_payload and the typed columns beside it. */
  function PatchRowOf(p: Patch): PatchRow {
    PatchRow(p.epoch, p.projectionVersion, p.baseVersion, p.completeThrough, p.algorithmVersion, p.parameterHash,
             PatchPayload(p.requiresReplay, p.warnings, p.nodes, p.edges, p.positionUpdates,
                          p.changeScore, p.reasonCodes, p.evidenceRefs))
  }

  /** The patch a stored row stands for: the typed columns give back what the payload leaves out. */
  function PatchOf(row: PatchRow): Patch {
    var p := row.payload;
    Patch(row.epoch, row.algorithmVersion, row.parameterHash, row.version, row.baseVersion, row.completeThrough,
          p.requiresReplay, p.warnings, p.nodes, p.edges, p.positionUpdates, p.changeScore, p.reasonCodes, p.evidenceRefs)
  }

  /** Compacting a patch into a row loses nothing. */
  lemma PatchRoundTrip(p: Patch)
    ensures PatchOf(PatchRowOf(p)) == p
  {
  }

  predicate ValidSnapshot(s: Snapshot) {
    s.projectionVersion >= 1 && s.baseVersion >= 0 && s.projectionVersion == s.baseVersion + 1
  }

  predicate Short(texts: seq<string>) { forall i :: 0 <= i < |texts| ==> |texts[i]| <= 160 }

  predicate EdgeShapeValid(e: Edge, student: bool) {
    if student then e.reviewStatus.Approved? && e.detail.None? else e.detail.Some?
  }

  /** _validate_patch: the patch restates its snapshot's identity, and a student patch carries approved rows only. */
  predicate ValidPatch(s: Snapshot, p: Patch) {
    var student := s.key.EchoStudent?;
    && s.key.IsEcho()
    && p.evidenceRefs.None? == student
    && p.epoch == s.epoch && p.algorithmVersion == s.algorithmVersion && p.parameterHash == s.parameterHash
    && p.projectionVersion == s.projectionVersion && p.baseVersion == s.baseVersion
    && p.completeThrough == s.completeThrough && p.requiresReplay == s.requiresReplay
    && (forall i :: 0 <= i < |p.positionUpdates| ==>
          0.0 <= p.positionUpdates[i].x <= 1.0 && 0.0 <= p.positionUpdates[i].y <= 1.0)
    && (student ==> forall i :: 0 <= i < |p.nodes.added| ==> p.nodes.added[i].reviewStatus.Approved?)
    && (student ==> forall i :: 0 <= i < |p.nodes.updated| ==> p.nodes.updated[i].reviewStatus.Approved?)
    && (forall i :: 0 <= i < |p.edges.added| ==> EdgeShapeValid(p.edges.added[i], student))
    && (forall i :: 0 <= i < |p.edges.updated| ==> EdgeShapeValid(p.edges.updated[i], student))
    && Short(p.nodes.hidden) && Short(p.reasonCodes) && Short(p.warnings)
    && (p.evidenceRefs.Some? ==> forall i :: 0 <= i < |p.evidenceRefs.value| ==>
          0 <= p.evidenceRefs.value[i].start < p.evidenceRefs.value[i].end)
    && 0.0 <= p.changeScore <= 1.0
  }

  /** ensure_head inserts a version-0 row unless one exists. */
  function HeadOrNew(r: KeyRows, s: Snapshot): Head {
    match r.head
    case Some(h) => h
    case None => Head(s.epoch, 0, 0, s.algorithmVersion, s.parameterHash, s.watermark, false, None)
  }

  /** INSERT ... ON CONFLICT DO NOTHING, then compare what is there. */
  function InsertOrMatch<V(==)>(m: map<VersionKey, V>, k: VersionKey, row: V): Option<map<VersionKey, V>> {
    if k !in m then Some(m[k := row]) else if m[k] == row then Some(m) else None
  }

  predicate StoredAs<V(==)>(m: map<VersionKey, V>, k: VersionKey, row: V) { k in m && m[k] == row }

  function AdvancedHead(s: Snapshot): Head {
    Head(s.epoch, s.projectionVersion, s.completeThrough, s.algorithmVersion, s.parameterHash,
         s.watermark, s.requiresReplay, Some((s.epoch, s.projectionVersion)))
  }

  /** The outcome of persisting one projection version and moving its head. */
  function Persisted(r: KeyRows, s: Snapshot, patch: Option<Patch>): Result<KeyRows, StoreError> {
    if !ValidSnapshot(s) then Err(InvalidSnapshot)
    else if patch.Some? && !ValidPatch(s, patch.value) then Err(InvalidPatch)
    else
      var head := HeadOrNew(r, s);
      var key := (s.epoch, s.projectionVersion);
      var existing := if head.epoch == s.epoch then head.version else 0;
      if existing >= s.projectionVersion then
        if !StoredAs(r.snapshots, key, SnapshotRowOf(s)) then Err(SnapshotConflict)
        else if patch.Some? && !StoredAs(r.patches, key, PatchRowOf(patch.value)) then Err(PatchConflict)
        else Ok(r.(head := Some(head)))
      else if existing + 1 != s.projectionVersion then Err(VersionConflict)
      else
        match InsertOrMatch(r.snapshots, key, SnapshotRowOf(s))
        case None => Err(SnapshotConflict)
        case Some(snapshots) =>
          match (if patch.None? then Some(r.patches) else InsertOrMatch(r.patches, key, PatchRowOf(patch.value)))
          case None => Err(PatchConflict)
          case Some(patches) => Ok(KeyRows(Some(AdvancedHead(s)), snapshots, patches))
  }

  /** The store of one room. */
  class Store {
    var rows: map<ProjectionKey, KeyRows>
    var checkpoint: nat

    ghost predicate Valid() reads this { forall k: ProjectionKey :: k in rows }

    constructor ()
      ensures Valid() && checkpoint == 0 && forall k: ProjectionKey :: rows[k] == NO_ROWS
    {
      rows := EMPTY_ROWS;
      checkpoint := 0;
      new;
      EveryKeyEmpty();
    }

    method EnsureHead(s: Snapshot) returns (head: Head)
      requires Valid()
      modifies this`rows
      ensures Valid()
      ensures head == HeadOrNew(old(rows)[s.key], s)
      ensures rows == old(rows)[s.key := old(rows)[s.key].(head := Some(head))]
    {
      if rows[s.key].head.None? {
        rows := rows[s.key := rows[s.key].(head :=
          Some(Head(s.epoch, 0, 0, s.algorithmVersion, s.parameterHash, s.watermark, false, None)))];
      }
      head := rows[s.key].head.value;
      assert old(rows)[s.key].head.Some? ==> rows[s.key] == rows[s.key].(head := Some(head));
    }

    /** persist_and_advance: the statements in their order. After an error the caller's transaction rolls back. */
    method PersistAndAdvance(s: Snapshot, patch: Option<Patch>) returns (outcome: Result<(), StoreError>)
      requires Valid()
      modifies this`rows
      ensures Valid()
      ensures outcome.Ok? <==> Persisted(old(rows)[s.key], s, patch).Ok?
      ensures outcome.Ok? ==> rows == old(rows)[s.key := Persisted(old(rows)[s.key], s, patch).value]
      ensures outcome.Err? ==> outcome.error == Persisted(old(rows)[s.key], s, patch).error
    {
      if !ValidSnapshot(s) { return Err(InvalidSnapshot); }
      if patch.Some? && !ValidPatch(s, patch.value) { return Err(InvalidPatch); }
      var head := EnsureHead(s);
      var version := s.projectionVersion;
      var key := (s.epoch, version);
      var existingVersion := if head.epoch != s.epoch then 0 else head.version;
      if existingVersion >= version {
        if !StoredAs(rows[s.key].snapshots, key, SnapshotRowOf(s)) { return Err(SnapshotConflict); }
        if patch.Some? && !StoredAs(rows[s.key].patches, key, PatchRowOf(patch.value)) { return Err(PatchConflict); }
        return Ok(());
      }
      if existingVersion + 1 != version { return Err(VersionConflict); }
      if key !in rows[s.key].snapshots {
        rows := rows[s.key := rows[s.key].(snapshots := rows[s.key].snapshots[key := SnapshotRowOf(s)])];
      } else if rows[s.key].snapshots[key] != SnapshotRowOf(s) {
        return Err(SnapshotConflict);
      }
      if patch.Some? {
        if key !in rows[s.key].patches {
          rows := rows[s.key := rows[s.key].(patches := rows[s.key].patches[key := PatchRowOf(patch.value)])];
        } else if rows[s.key].patches[key] != PatchRowOf(patch.value) {
          return Err(PatchConflict);
        }
      }
      rows := rows[s.key := rows[s.key].(head := Some(AdvancedHead(s)))];
      return Ok(());
    }

    /** The checkpoint only moves forward. */
    method AdvanceCheckpoint(roomSeq: nat)
      modifies this`checkpoint
      ensures checkpoint == if roomSeq > old(checkpoint) then roomSeq else old(checkpoint)
    {
      if roomSeq > checkpoint { checkpoint := roomSeq; }
    }
  }
}
