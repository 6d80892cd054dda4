/** The browser's side: applying one patch to the concept map on screen. */
module ConceptReducer {
  import opened Domain
  import opened Sequences
  import opened EchoMap
  import Ordering

  /** The part of a snapshot the reducer works on, with its rows keyed by identifier. */
  datatype ClientView = ClientView(
    key: ProjectionKey, epoch: Epoch, algorithmVersion: string, parameterHash: string,
    version: int, completeThrough: int, requiresReplay: bool, reviewStatus: ReviewStatus, warnings: seq<string>,
    nodes: map<string, Node>, edges: map<string, Edge>)

  datatype ReduceError =
    | ReplayRequired | EpochMismatch | BaselineMismatch | VersionMismatch | CursorRegression
    | NodeAddConflict | NodeUpdateMissing | NodeHideMissing
    | EdgeAddConflict | EdgeUpdateMissing | EdgeHideMissing
    | PositionTargetMissing | DanglingEdge | ResultInvalid

  // ----- one kind of change to one map -----

  predicate CanAdd<V>(m: map<string, V>, rows: seq<V>, id: V -> string) {
    && (forall i :: 0 <= i < |rows| ==> id(rows[i]) !in m)
    && (forall i, j :: 0 <= i < j < |rows| ==> id(rows[i]) != id(rows[j]))
  }

  predicate CanUpdate<V>(m: map<string, V>, rows: seq<V>, id: V -> string) {
    forall i :: 0 <= i < |rows| ==> id(rows[i]) in m
  }

  ghost predicate CanHide<V>(m: map<string, V>, ids: seq<string>) {
    Distinct(ids) && forall i :: 0 <= i < |ids| ==> ids[i] in m
  }

  /** The rows put into the map one after the other. */
  function Put<V>(m: map<string, V>, rows: seq<V>, id: V -> string): map<string, V> {
    if rows == [] then m
    else
      var last := |rows| - 1;
      Put(m, rows[..last], id)[id(rows[last]) := rows[last]]
  }

  lemma PutSnoc<V>(m: map<string, V>, rows: seq<V>, i: nat, id: V -> string)
    requires i < |rows|
    ensures Put(m, rows[..i + 1], id) == Put(m, rows[..i], id)[id(rows[i]) := rows[i]]
  {
    assert rows[..i + 1][..i] == rows[..i];
  }

  lemma PrefixSnoc<T>(s: seq<T>, i: nat)
    requires i < |s|
    ensures s[..i + 1] == s[..i] + [s[i]]
  {
  }

  lemma CanAddSnoc<V>(m: map<string, V>, rows: seq<V>, i: nat, id: V -> string, place: map<string, nat>)
    requires i < |rows| && CanAdd(m, rows[..i], id) && id(rows[i]) !in m && id(rows[i]) !in place
    requires forall k :: 0 <= k < i ==> id(rows[k]) in place
    ensures CanAdd(m, rows[..i + 1], id)
  {
    var s := rows[..i + 1];
    forall k, l | 0 <= k < l < |s| ensures id(s[k]) != id(s[l]) {
      if l < i {
        assert id(rows[..i][k]) != id(rows[..i][l]);
      } else {
        assert id(rows[k]) in place;
      }
    }
    forall k | 0 <= k < |s| ensures id(s[k]) !in m {
      assert k < i ==> id(rows[..i][k]) !in m;
    }
  }

  method AddRows<V>(m: map<string, V>, rows: seq<V>, id: V -> string) returns (r: Option<map<string, V>>)
    ensures r.Some? <==> CanAdd(m, rows, id)
    ensures r.Some? ==> r.value == Put(m, rows, id)
  {
    var out := m;
    ghost var place: map<string, nat> := map[];
    var i := 0;
    while i < |rows|
      invariant 0 <= i <= |rows|
      invariant out == Put(m, rows[..i], id)
      invariant CanAdd(m, rows[..i], id)
      invariant out.Keys == m.Keys + place.Keys && forall k :: 0 <= k < i ==> id(rows[k]) in place
      invariant forall key :: key in place ==> place[key] < i && id(rows[place[key]]) == key
    {
      if id(rows[i]) in out {
        assert id(rows[i]) !in m ==> place[id(rows[i])] < i;
        return None;
      }
      CanAddSnoc(m, rows, i, id, place);
      PutSnoc(m, rows, i, id);
      place := place[id(rows[i]) := i];
      out := out[id(rows[i]) := rows[i]];
      i := i + 1;
    }
    assert rows[..i] == rows;
    return Some(out);
  }

  method UpdateRows<V>(m: map<string, V>, rows: seq<V>, id: V -> string) returns (r: Option<map<string, V>>)
    ensures r.Some? <==> CanUpdate(m, rows, id)
    ensures r.Some? ==> r.value == Put(m, rows, id)
  {
    var out := m;
    var i := 0;
    while i < |rows|
      invariant 0 <= i <= |rows|
      invariant out == Put(m, rows[..i], id) && out.Keys == m.Keys
      invariant forall k :: 0 <= k < i ==> id(rows[k]) in m
    {
      if id(rows[i]) !in out { return None; }
      PutSnoc(m, rows, i, id);
      out := out[id(rows[i]) := rows[i]];
      i := i + 1;
    }
    assert rows[..i] == rows;
    return Some(out);
  }

  method HideRows<V>(m: map<string, V>, ids: seq<string>) returns (r: Option<map<string, V>>)
    ensures r.Some? <==> CanHide(m, ids)
    ensures r.Some? ==> r.value == m - Elements(ids)
  {
    var out := m;
    var i := 0;
    while i < |ids|
      invariant 0 <= i <= |ids|
      invariant out == m - Elements(ids[..i])
      invariant CanHide(m, ids[..i])
    {
      PrefixSnoc(ids, i);
      DistinctAppend(ids[..i], ids[i]);
      if ids[i] !in out {
        if ids[i] in m {
          var k :| 0 <= k < i && ids[..i][k] == ids[i];
          assert ids[k] == ids[i];
        }
        return None;
      }
      out := out - {ids[i]};
      assert Elements(ids[..i + 1]) == Elements(ids[..i]) + {ids[i]};
      i := i + 1;
    }
    assert ids[..i] == ids;
    return Some(out);
  }

  /** The nodes after the position updates, the last update of a node winning. */
  function Moved(m: map<string, Node>, ps: seq<PositionUpdate>): map<string, Node> {
    if ps == [] then m
    else
      var before, p := Moved(m, ps[..|ps| - 1]), ps[|ps| - 1];
      if p.nodeId in before then before[p.nodeId := before[p.nodeId].(x := p.x, y := p.y)] else before
  }

  predicate TargetsPresent(m: map<string, Node>, ps: seq<PositionUpdate>) {
    forall i :: 0 <= i < |ps| ==> ps[i].nodeId in m
  }

  method MoveNodes(m: map<string, Node>, ps: seq<PositionUpdate>) returns (r: Option<map<string, Node>>)
    ensures r.Some? <==> TargetsPresent(m, ps)
    ensures r.Some? ==> r.value == Moved(m, ps)
  {
    var out := m;
    var i := 0;
    while i < |ps|
      invariant 0 <= i <= |ps|
      invariant out == Moved(m, ps[..i]) && out.Keys == m.Keys
      invariant TargetsPresent(m, ps[..i])
    {
      if ps[i].nodeId !in out { return None; }
      PrefixSnoc(ps, i);
      out := out[ps[i].nodeId := out[ps[i].nodeId].(x := ps[i].x, y := ps[i].y)];
      i := i + 1;
    }
    assert ps[..i] == ps;
    return Some(out);
  }

  // ----- one map -----

  datatype RowsError = AddConflict | UpdateMissing | HideMissing

  ghost function ReducedRows<V>(m: map<string, V>, d: Delta<V>, id: V -> string): Result<map<string, V>, RowsError> {
    if !CanAdd(m, d.added, id) then Err(AddConflict)
    else if !CanUpdate(Put(m, d.added, id), d.updated, id) then Err(UpdateMissing)
    else if !CanHide(Put(Put(m, d.added, id), d.updated, id), d.hidden) then Err(HideMissing)
    else Ok(Put(Put(m, d.added, id), d.updated, id) - Elements(d.hidden))
  }

  method ReduceRows<V>(m: map<string, V>, d: Delta<V>, id: V -> string) returns (r: Result<map<string, V>, RowsError>)
    ensures r == ReducedRows(m, d, id)
  {
    var added := AddRows(m, d.added, id);
    if added.None? { return Err(AddConflict); }
    var updated := UpdateRows(added.value, d.updated, id);
    if updated.None? { return Err(UpdateMissing); }
    var hidden := HideRows(updated.value, d.hidden);
    if hidden.None? { return Err(HideMissing); }
    return Ok(hidden.value);
  }

  // ----- the whole view -----

  predicate NoDangling(nodes: map<string, Node>, edges: map<string, Edge>) {
    forall k :: k in edges ==> edges[k].head in nodes && edges[k].tail in nodes
  }

  /** What parsing the resulting snapshot checks beyond what the reducer has just ensured. */
  predicate ResultOk(key: ProjectionKey, nodes: map<string, Node>, edges: map<string, Edge>) {
    && (forall k :: k in edges ==> SpansOk(RefsOf(edges[k])))
    && (key.EchoStudent? ==> forall k :: k in nodes ==> nodes[k].reviewStatus.Approved?)
    && (key.EchoStudent? ==> forall k :: k in edges ==> edges[k].reviewStatus.Approved?)
  }

  function NodeError(e: RowsError): ReduceError {
    match e case AddConflict => NodeAddConflict case UpdateMissing => NodeUpdateMissing case HideMissing => NodeHideMissing
  }

  function EdgeError(e: RowsError): ReduceError {
    match e case AddConflict => EdgeAddConflict case UpdateMissing => EdgeUpdateMissing case HideMissing => EdgeHideMissing
  }

  function Mismatch(v: ClientView, p: Patch): Option<ReduceError> {
    if v.requiresReplay || p.requiresReplay then Some(ReplayRequired)
    else if p.epoch != v.epoch then Some(EpochMismatch)
    else if p.algorithmVersion != v.algorithmVersion || p.parameterHash != v.parameterHash then Some(BaselineMismatch)
    else if p.baseVersion != v.version || p.projectionVersion != v.version + 1 then Some(VersionMismatch)
    else if p.completeThrough < v.completeThrough then Some(CursorRegression)
    else None
  }

  function NextView(v: ClientView, p: Patch, nodes: map<string, Node>, edges: map<string, Edge>): ClientView {
    var review := if !v.key.EchoStudent? then v.reviewStatus else if |nodes| > 0 || |edges| > 0 then Approved else Unreviewed;
    ClientView(v.key, p.epoch, p.algorithmVersion, p.parameterHash, p.projectionVersion, p.completeThrough, false,
               review, p.warnings, nodes, edges)
  }

  ghost function Reduced(v: ClientView, p: Patch): Result<ClientView, ReduceError> {
    if Mismatch(v, p).Some? then Err(Mismatch(v, p).value)
    else
      match ReducedRows(v.nodes, p.nodes, NodeId)
      case Err(e) => Err(NodeError(e))
      case Ok(nodes) =>
        match ReducedRows(v.edges, p.edges, EdgeId)
        case Err(e) => Err(EdgeError(e))
        case Ok(edges) =>
          if !TargetsPresent(nodes, p.positionUpdates) then Err(PositionTargetMissing)
          else
            var moved := Moved(nodes, p.positionUpdates);
            if !NoDangling(moved, edges) then Err(DanglingEdge)
            else if !ResultOk(v.key, moved, edges) then Err(ResultInvalid)
            else Ok(NextView(v, p, moved, edges))
  }

  /** applyConceptPatch. */
  method ApplyConceptPatch(v: ClientView, p: Patch) returns (r: Result<ClientView, ReduceError>)
    ensures r == Reduced(v, p)
  {
    var mismatch := Mismatch(v, p);
    if mismatch.Some? { return Err(mismatch.value); }
    var nodes := ReduceRows(v.nodes, p.nodes, NodeId);
    if nodes.Err? { return Err(NodeError(nodes.error)); }
    var edges := ReduceRows(v.edges, p.edges, EdgeId);
    if edges.Err? { return Err(EdgeError(edges.error)); }
    var moved := MoveNodes(nodes.value, p.positionUpdates);
    if moved.None? { return Err(PositionTargetMissing); }
    if !NoDangling(moved.value, edges.value) { return Err(DanglingEdge); }
    if !ResultOk(v.key, moved.value, edges.value) { return Err(ResultInvalid); }
    return Ok(NextView(v, p, moved.value, edges.value));
  }

  // ----- a patch that lists exactly what changed -----

  function Restrict<V>(cur: map<string, V>, ks: seq<string>): map<string, V>
    requires forall k :: k in ks ==> k in cur
  {
    map k | k in ks :: cur[k]
  }

  lemma RestrictSnoc<V>(m: map<string, V>, cur: map<string, V>, ks: seq<string>)
    requires ks != [] && forall k :: k in ks ==> k in cur
    ensures var last := |ks| - 1; m + Restrict(cur, ks) == (m + Restrict(cur, ks[..last]))[ks[last] := cur[ks[last]]]
  {
    var last := |ks| - 1;
    assert ks == ks[..last] + [ks[last]];
  }

  /** The listed rows of `cur` are put over what is there. */
  lemma {:induction false} PutPicked<V>(m: map<string, V>, cur: map<string, V>, ks: seq<string>, id: V -> string)
    requires Keyed(cur, id) && forall k :: k in ks ==> k in cur
    ensures Put(m, Pick(cur, ks), id) == m + Restrict(cur, ks)
  {
    if ks != [] {
      var last := |ks| - 1;
      PutPicked(m, cur, ks[..last], id);
      assert Pick(cur, ks)[..last] == Pick(cur, ks[..last]);
      assert ks[last] in ks;
      RestrictSnoc(m, cur, ks);
    }
  }

  lemma PickedIds<V>(cur: map<string, V>, ks: seq<string>, id: V -> string)
    requires Keyed(cur, id) && forall k :: k in ks ==> k in cur
    ensures forall i :: 0 <= i < |ks| ==> id(Pick(cur, ks)[i]) == ks[i]
  {
    forall i | 0 <= i < |ks| ensures id(Pick(cur, ks)[i]) == ks[i] {
      assert ks[i] in ks;
    }
  }

  /** On the map it was computed from, a delta applies without an error and yields the map it was computed for. */
  lemma DeltaReduces<V>(prev: map<string, V>, cur: map<string, V>, id: V -> string)
    requires Keyed(cur, id)
    ensures ReducedRows(prev, DiffRows(prev, cur), id) == Ok(cur)
  {
    DiffRowsLists(prev, cur);
    var a, u, h := Ordering.SortStrings(NewKeys(prev, cur)), Ordering.SortStrings(ChangedKeys(prev, cur)), Ordering.SortStrings(GoneKeys(prev, cur));
    ListedReduces(prev, cur, id, a, u, h);
  }

  lemma ListedReduces<V>(prev: map<string, V>, cur: map<string, V>, id: V -> string, a: seq<string>, u: seq<string>,
          h: seq<string>)
    requires Keyed(cur, id) && ListsChange(prev, cur, a, u, h)
    ensures ReducedRows(prev, Delta(Pick(cur, a), Pick(cur, u), h), id) == Ok(cur)
  {
    PutPicked(prev, cur, a, id);
    PutPicked(Put(prev, Pick(cur, a), id), cur, u, id);
    OverlayHides(prev, cur, a, u, h);
    PickedIds(cur, a, id);
    PickedIds(cur, u, id);
    ListedFits(prev, cur, id, a, u, h);
  }

  lemma ListedFits<V>(prev: map<string, V>, cur: map<string, V>, id: V -> string, a: seq<string>, u: seq<string>,
          h: seq<string>)
    requires ListsChange(prev, cur, a, u, h)
    requires forall i :: 0 <= i < |a| ==> id(Pick(cur, a)[i]) == a[i]
    requires forall i :: 0 <= i < |u| ==> id(Pick(cur, u)[i]) == u[i]
    ensures CanAdd(prev, Pick(cur, a), id)
    ensures CanUpdate(prev + Restrict(cur, a), Pick(cur, u), id)
    ensures CanHide(prev + Restrict(cur, a) + Restrict(cur, u), h)
  {
    assert (forall i :: 0 <= i < |a| ==> a[i] in a) && (forall i :: 0 <= i < |u| ==> u[i] in u) && (forall i :: 0 <= i < |h| ==> h[i] in h);
  }

  lemma OverlayHides<V>(prev: map<string, V>, cur: map<string, V>, a: seq<string>, u: seq<string>, h: seq<string>)
    requires ListsChange(prev, cur, a, u, h)
    ensures forall k :: k in a || k in u ==> k in cur
    ensures prev + Restrict(cur, a) + Restrict(cur, u) - Elements(h) == cur
  {
  }

  /** Position updates that repeat where the nodes already are change nothing. */
  lemma {:induction false} MovedInPlace(m: map<string, Node>, ps: seq<PositionUpdate>)
    requires forall i :: 0 <= i < |ps| ==> ps[i].nodeId in m && m[ps[i].nodeId].x == ps[i].x && m[ps[i].nodeId].y == ps[i].y
    ensures Moved(m, ps) == m
  {
    if ps != [] {
      var p := ps[|ps| - 1];
      MovedInPlace(m, ps[..|ps| - 1]);
      assert m[p.nodeId] == m[p.nodeId].(x := p.x, y := p.y);
    }
  }

  lemma DeltaPositions(base: GraphMap, target: GraphMap, p: Patch)
    requires IsDelta(base, target, p) && Keyed(target.nodes, NodeId)
    ensures TargetsPresent(target.nodes, p.positionUpdates) && Moved(target.nodes, p.positionUpdates) == target.nodes
  {
    var rows := p.nodes.added + p.nodes.updated;
    forall i | 0 <= i < |rows| ensures rows[i].nodeId in target.nodes && target.nodes[rows[i].nodeId] == rows[i] {
      PickMembers(target.nodes, Ordering.SortStrings(NewKeys(base.nodes, target.nodes)));
      PickMembers(target.nodes, Ordering.SortStrings(ChangedKeys(base.nodes, target.nodes)));
      assert rows[i] in p.nodes.added || rows[i] in p.nodes.updated;
    }
    MovedInPlace(target.nodes, p.positionUpdates);
  }

  /** A view that shows the base of a delta is taken to the target, whenever the target passes the contract. */
  lemma DeltaApplies(v: ClientView, target: GraphMap, p: Patch)
    requires Mismatch(v, p).None? && IsDelta(GraphMap(v.nodes, v.edges), target, p)
    requires Keyed(target.nodes, NodeId) && Keyed(target.edges, EdgeId)
    requires NoDangling(target.nodes, target.edges) && ResultOk(v.key, target.nodes, target.edges)
    ensures Reduced(v, p) == Ok(NextView(v, p, target.nodes, target.edges))
  {
    DeltaReduces(v.nodes, target.nodes, NodeId);
    DeltaReduces(v.edges, target.edges, EdgeId);
    DeltaPositions(GraphMap(v.nodes, v.edges), target, p);
  }
}
