/** Deltas between concept maps: how the worker computes one, what one means, and how a client applies one. */
module EchoMap {
  import opened Domain
  import opened Ordering
  import opened Sequences

  // ----- one collection of rows with identifiers -----

  datatype Delta<V> = Delta(added: seq<V>, updated: seq<V>, hidden: seq<string>)

  /** A dictionary built from a list, where a later row with the same identifier wins. */
  function ById<V>(xs: seq<V>, id: V -> string): (m: map<string, V>)
    ensures forall k :: k in m ==> m[k] in xs && id(m[k]) == k
    ensures forall x :: x in xs ==> id(x) in m
  {
    if xs == [] then map[] else map[id(xs[0]) := xs[0]] + ById(xs[1..], id)
  }

  ghost predicate Keyed<V>(m: map<string, V>, id: V -> string) {
    forall k :: k in m ==> id(m[k]) == k
  }

  function Pick<V>(m: map<string, V>, ks: seq<string>): (xs: seq<V>)
    requires forall k :: k in ks ==> k in m
    ensures |xs| == |ks|
    ensures forall i :: 0 <= i < |ks| ==> xs[i] == m[ks[i]]
  {
    seq(|ks|, i requires 0 <= i < |ks| => m[ks[i]])
  }

  function NewKeys<V>(prev: map<string, V>, cur: map<string, V>): set<string> {
    cur.Keys - prev.Keys
  }

  function ChangedKeys<V(==)>(prev: map<string, V>, cur: map<string, V>): set<string> {
    set k | k in cur && k in prev && cur[k] != prev[k]
  }

  function GoneKeys<V>(prev: map<string, V>, cur: map<string, V>): set<string> {
    prev.Keys - cur.Keys
  }

  function DiffRows<V(==)>(prev: map<string, V>, cur: map<string, V>): Delta<V> {
    Delta(Pick(cur, SortStrings(NewKeys(prev, cur))),
          Pick(cur, SortStrings(ChangedKeys(prev, cur))),
          SortStrings(GoneKeys(prev, cur)))
  }

  /** The meaning of a delta: hidden identifiers go, added and updated rows are put in place. */
  function ApplyRows<V>(m: map<string, V>, d: Delta<V>, id: V -> string): map<string, V> {
    (m - Elements(d.hidden)) + ById(d.added, id) + ById(d.updated, id)
  }

  lemma {:induction false} ByIdLookup<V>(xs: seq<V>, id: V -> string, x: V)
    requires x in xs && Distinct(MapSeq(id, xs))
    ensures id(x) in ById(xs, id) && ById(xs, id)[id(x)] == x
  {
    var ids := MapSeq(id, xs);
    var m := ById(xs, id);
    var i :| 0 <= i < |xs| && xs[i] == x;
    var y := m[id(x)];
    var j :| 0 <= j < |xs| && xs[j] == y;
    assert ids[i] == ids[j];
  }

  lemma PickMembers<V>(m: map<string, V>, ks: seq<string>)
    requires forall k :: k in ks ==> k in m
    ensures forall x :: x in Pick(m, ks) ==> exists k :: k in ks && m[k] == x
  {
    var xs := Pick(m, ks);
    forall x | x in xs ensures exists k :: k in ks && m[k] == x {
      var i :| 0 <= i < |xs| && xs[i] == x;
      assert ks[i] in ks && m[ks[i]] == x;
    }
  }

  lemma PickIds<V>(m: map<string, V>, ks: seq<string>, id: V -> string)
    requires Keyed(m, id) && forall k :: k in ks ==> k in m
    ensures MapSeq(id, Pick(m, ks)) == ks
  {
    forall i | 0 <= i < |ks| ensures MapSeq(id, Pick(m, ks))[i] == ks[i] {
      assert ks[i] in ks;
    }
  }

  lemma PickById<V>(m: map<string, V>, ks: seq<string>, id: V -> string)
    requires Keyed(m, id) && Distinct(ks) && forall k :: k in ks ==> k in m
    ensures ById(Pick(m, ks), id) == map k | k in ks :: m[k]
  {
    var xs := Pick(m, ks);
    PickIds(m, ks, id);
    var b := ById(xs, id);
    forall k ensures k in b <==> k in ks {
      if k in ks {
        var i :| 0 <= i < |ks| && ks[i] == k;
        assert xs[i] in xs && id(xs[i]) == k;
      }
      if k in b {
        var i :| 0 <= i < |xs| && xs[i] == b[k];
        assert ks[i] in ks;
      }
    }
    forall k | k in ks ensures b[k] == m[k] {
      var i :| 0 <= i < |ks| && ks[i] == k;
      assert xs[i] in xs;
      ByIdLookup(xs, id, xs[i]);
    }
  }

  /** Any listing of the three key sets describes the same change. */
  ghost predicate ListsChange<V>(prev: map<string, V>, cur: map<string, V>, a: seq<string>, u: seq<string>, h: seq<string>) {
    && Distinct(a) && Distinct(u) && Distinct(h)
    && (forall k :: k in a <==> k in cur && k !in prev)
    && (forall k :: k in u <==> k in cur && k in prev && cur[k] != prev[k])
    && (forall k :: k in h <==> k in prev && k !in cur)
  }

  lemma DiffRowsLists<V>(prev: map<string, V>, cur: map<string, V>)
    ensures ListsChange(prev, cur, SortStrings(NewKeys(prev, cur)), SortStrings(ChangedKeys(prev, cur)),
                        SortStrings(GoneKeys(prev, cur)))
  {
  }

  lemma ListedChangeReaches<V>(prev: map<string, V>, cur: map<string, V>, id: V -> string, a: seq<string>,
          u: seq<string>, h: seq<string>)
    requires Keyed(cur, id) && ListsChange(prev, cur, a, u, h)
    ensures ApplyRows(prev, Delta(Pick(cur, a), Pick(cur, u), h), id) == cur
  {
    PickById(cur, a, id);
    PickById(cur, u, id);
    OverlayReaches(prev, cur, ById(Pick(cur, a), id), ById(Pick(cur, u), id), Elements(h));
  }

  lemma OverlayReaches<V>(prev: map<string, V>, cur: map<string, V>, added: map<string, V>, updated: map<string, V>,
          gone: set<string>)
    requires forall k :: k in added <==> k in cur && k !in prev
    requires forall k :: k in added ==> added[k] == cur[k]
    requires forall k :: k in updated <==> k in cur && k in prev && cur[k] != prev[k]
    requires forall k :: k in updated ==> updated[k] == cur[k]
    requires forall k :: k in gone <==> k in prev && k !in cur
    ensures (prev - gone) + added + updated == cur
  {
  }

  lemma ListedChangeTouchesOnce<V>(prev: map<string, V>, cur: map<string, V>, id: V -> string, a: seq<string>,
          u: seq<string>, h: seq<string>)
    requires Keyed(cur, id) && ListsChange(prev, cur, a, u, h)
    ensures TouchedIds(Delta(Pick(cur, a), Pick(cur, u), h), id) == a + u + h
    ensures Distinct(a + u + h)
  {
    PickIds(cur, a, id);
    PickIds(cur, u, id);
    DistinctConcat(a, u);
    DistinctConcat(a + u, h);
  }

  /** A delta turns the map it was computed from into the map it was computed for. */
  lemma DiffRowsReaches<V>(prev: map<string, V>, cur: map<string, V>, id: V -> string)
    requires Keyed(cur, id)
    ensures ApplyRows(prev, DiffRows(prev, cur), id) == cur
  {
    DiffRowsLists(prev, cur);
    ListedChangeReaches(prev, cur, id, SortStrings(NewKeys(prev, cur)), SortStrings(ChangedKeys(prev, cur)),
                        SortStrings(GoneKeys(prev, cur)));
  }

  /** Which identifiers a delta touches. */
  function TouchedIds<V>(d: Delta<V>, id: V -> string): seq<string> {
    MapSeq(id, d.added) + MapSeq(id, d.updated) + d.hidden
  }

  /** A new, a changed and a gone identifier are never the same. */
  lemma DiffRowsTouchesOnce<V>(prev: map<string, V>, cur: map<string, V>, id: V -> string)
    requires Keyed(cur, id)
    ensures Distinct(TouchedIds(DiffRows(prev, cur), id))
  {
    DiffRowsLists(prev, cur);
    ListedChangeTouchesOnce(prev, cur, id, SortStrings(NewKeys(prev, cur)), SortStrings(ChangedKeys(prev, cur)),
                            SortStrings(GoneKeys(prev, cur)));
  }

  /** A delta is empty exactly when nothing changed. */
  lemma DiffRowsEmpty<V>(prev: map<string, V>, cur: map<string, V>)
    ensures DiffRows(prev, cur) == Delta([], [], []) <==> prev == cur
  {
    if DiffRows(prev, cur) == Delta([], [], []) {
      assert NewKeys(prev, cur) == {} && GoneKeys(prev, cur) == {} && ChangedKeys(prev, cur) == {};
      assert prev.Keys == cur.Keys;
      forall k | k in cur ensures prev[k] == cur[k] {
        assert k !in ChangedKeys(prev, cur);
      }
    }
  }

  // ----- whole concept maps -----

  datatype GraphMap = GraphMap(nodes: map<string, Node>, edges: map<string, Edge>)

  const EMPTY_MAP := GraphMap(map[], map[])

  const EMPTY_GRAPH := Graph([], [])

  function MapOf(g: Graph): GraphMap {
    GraphMap(ById(g.nodes, NodeId), ById(g.edges, EdgeId))
  }

  datatype PositionUpdate = PositionUpdate(nodeId: string, x: real, y: real)

  datatype Patch = Patch(
    epoch: Epoch, algorithmVersion: string, parameterHash: string,
    projectionVersion: int, baseVersion: int, completeThrough: int,
    requiresReplay: bool, warnings: seq<string>,
    nodes: Delta<Node>, edges: Delta<Edge>, positionUpdates: seq<PositionUpdate>,
    changeScore: real, reasonCodes: seq<string>, evidenceRefs: Option<seq<EvidenceRef>>)

  function ApplyPatch(m: GraphMap, p: Patch): GraphMap {
    GraphMap(ApplyRows(m.nodes, p.nodes, NodeId), ApplyRows(m.edges, p.edges, EdgeId))
  }

  function PositionOf(n: Node): PositionUpdate { PositionUpdate(n.nodeId, n.x, n.y) }

  function RefsOf(e: Edge): seq<EvidenceRef> {
    match e.detail case Some(d) => d.evidenceRefs case None => []
  }

  function RefKey(r: EvidenceRef): seq<int> {
    CodePoints(r.eventId) + [-1, r.start, r.end]
  }

  /** The key order is the tuple order, because no code point is negative. */
  lemma RefKeyInjective(a: EvidenceRef, b: EvidenceRef)
    requires RefKey(a) == RefKey(b)
    ensures a == b
  {
    var x, y := RefKey(a), RefKey(b);
    assert CodePoints(a.eventId) == x[..|a.eventId|] == y[..|b.eventId|] == CodePoints(b.eventId);
    CodePointsInjective(a.eventId, b.eventId);
    assert x[|a.eventId| + 1] == a.start && x[|a.eventId| + 2] == a.end;
    assert y[|b.eventId| + 1] == b.start && y[|b.eventId| + 2] == b.end;
  }

  function CollectRefs(edges: seq<Edge>): (r: set<EvidenceRef>)
    ensures forall e, x :: e in edges && x in RefsOf(e) ==> x in r
    ensures forall x :: x in r ==> exists e :: e in edges && x in RefsOf(e)
  {
    if edges == [] then {} else Elements(RefsOf(edges[0])) + CollectRefs(edges[1..])
  }

  function SortRefs(s: set<EvidenceRef>): (r: seq<EvidenceRef>)
    ensures forall x :: x in r <==> x in s
    ensures SortedBy(r, RefKey)
  {
    assert InjectiveOn(s, RefKey) by {
      forall a, b | a in s && b in s && RefKey(a) == RefKey(b) ensures a == b { RefKeyInjective(a, b); }
    }
    SortBy(s, RefKey)
  }

  function ChangeCount<V>(d: Delta<V>): nat { |d.added| + |d.updated| + |d.hidden| }

  /** min(1, changed / max(1, previous size)). */
  function ChangeScore(changed: nat, previous: nat): (r: real)
    ensures 0.0 <= r <= 1.0
    ensures r == 0.0 <==> changed == 0
    ensures r == 1.0 <==> changed >= 1 && changed >= previous
  {
    var denominator := if previous < 1 then 1 else previous;
    if changed >= denominator then 1.0
    else
      DivBounds(changed, denominator);
      changed as real / denominator as real
  }

  lemma DivBounds(n: nat, d: nat)
    requires n < d
    ensures 0.0 <= n as real / d as real < 1.0
    ensures n as real / d as real == 0.0 <==> n == 0
  {
    var q := n as real / d as real;
    assert q * d as real == n as real;
  }

  /** diff_echo_snapshots: the student view carries no evidence references. */
  function DiffGraphs(prev: Graph, cur: Graph, meta: Metadata, student: bool): Patch {
    var p, c := MapOf(prev), MapOf(cur);
    var nodes, edges := DiffRows(p.nodes, c.nodes), DiffRows(p.edges, c.edges);
    Patch(
      meta.epoch, meta.algorithmVersion, meta.parameterHash,
      meta.projectionVersion, meta.baseVersion, meta.completeThrough,
      meta.requiresReplay, meta.warnings,
      nodes, edges, MapSeq(PositionOf, nodes.added + nodes.updated),
      ChangeScore(ChangeCount(nodes) + ChangeCount(edges), |p.nodes| + |p.edges|),
      meta.reasonCodes,
      if student then None else Some(SortRefs(CollectRefs(edges.added + edges.updated))))
  }

  /** Applying a diff to its base gives the snapshot it describes, both read as maps by identifier. */
  lemma DiffReaches(prev: Graph, cur: Graph, meta: Metadata, student: bool)
    ensures ApplyPatch(MapOf(prev), DiffGraphs(prev, cur, meta, student)) == MapOf(cur)
  {
    DiffRowsReaches(MapOf(prev).nodes, MapOf(cur).nodes, NodeId);
    DiffRowsReaches(MapOf(prev).edges, MapOf(cur).edges, EdgeId);
  }

  /** A patch lists exactly what changed between two maps. */
  ghost predicate IsDelta(base: GraphMap, target: GraphMap, p: Patch) {
    && p.nodes == DiffRows(base.nodes, target.nodes)
    && p.edges == DiffRows(base.edges, target.edges)
    && p.positionUpdates == MapSeq(PositionOf, p.nodes.added + p.nodes.updated)
  }

  lemma DiffIsDelta(prev: Graph, cur: Graph, meta: Metadata, student: bool)
    ensures IsDelta(MapOf(prev), MapOf(cur), DiffGraphs(prev, cur, meta, student))
  {
  }

  lemma DiffScoreZero(prev: Graph, cur: Graph, meta: Metadata, student: bool)
    ensures 0.0 <= DiffGraphs(prev, cur, meta, student).changeScore <= 1.0
    ensures DiffGraphs(prev, cur, meta, student).changeScore == 0.0 <==> MapOf(prev) == MapOf(cur)
  {
    DiffRowsEmpty(MapOf(prev).nodes, MapOf(cur).nodes);
    DiffRowsEmpty(MapOf(prev).edges, MapOf(cur).edges);
  }

  // ----- the wire contract for patches -----

  predicate SpansOk(refs: seq<EvidenceRef>) {
    forall r :: r in refs ==> r.start < r.end
  }

  predicate EdgeSpansOk(edges: seq<Edge>) {
    forall e :: e in edges ==> SpansOk(RefsOf(e))
  }

  /** assertEchoSpans on a patch. */
  predicate PatchSpansOk(p: Patch) {
    && (p.evidenceRefs.Some? ==> SpansOk(p.evidenceRefs.value))
    && EdgeSpansOk(p.edges.added) && EdgeSpansOk(p.edges.updated)
  }

  /** assertEchoPatchSemantics: a successor version, and no identifier touched twice. */
  ghost predicate PatchSemantics(p: Patch) {
    && p.projectionVersion == p.baseVersion + 1
    && Distinct(TouchedIds(p.nodes, NodeId))
    && Distinct(TouchedIds(p.edges, EdgeId))
    && Distinct(MapSeq((u: PositionUpdate) => u.nodeId, p.positionUpdates))
  }

  lemma DiffSatisfiesContract(prev: Graph, cur: Graph, meta: Metadata, student: bool)
    requires meta.projectionVersion == meta.baseVersion + 1
    ensures PatchSemantics(DiffGraphs(prev, cur, meta, student))
  {
    var p, c := MapOf(prev), MapOf(cur);
    DiffRowsTouchesOnce(p.nodes, c.nodes, NodeId);
    DiffRowsTouchesOnce(p.edges, c.edges, EdgeId);
    PositionsDistinct(DiffGraphs(prev, cur, meta, student));
  }

  lemma DiffSpansOk(prev: Graph, cur: Graph, meta: Metadata, student: bool)
    requires EdgeSpansOk(cur.edges)
    ensures PatchSpansOk(DiffGraphs(prev, cur, meta, student))
  {
    var d := DiffRows(MapOf(prev).edges, MapOf(cur).edges);
    DiffShowsCurrent(cur.edges, MapOf(prev).edges, EdgeId);
    assert EdgeSpansOk(d.added) && EdgeSpansOk(d.updated);
    RefsSpansOk(d.added + d.updated);
  }

  lemma RefsSpansOk(edges: seq<Edge>)
    requires EdgeSpansOk(edges)
    ensures SpansOk(SortRefs(CollectRefs(edges)))
  {
    forall r | r in SortRefs(CollectRefs(edges)) ensures r.start < r.end {
      var e :| e in edges && r in RefsOf(e);
    }
  }

  /** Every row a diff shows is a row of the current snapshot. */
  lemma DiffShowsCurrent<V>(xs: seq<V>, prev: map<string, V>, id: V -> string)
    ensures var d := DiffRows(prev, ById(xs, id)); forall x :: x in d.added || x in d.updated ==> x in xs
  {
    var cur := ById(xs, id);
    PickMembers(cur, SortStrings(NewKeys(prev, cur)));
    PickMembers(cur, SortStrings(ChangedKeys(prev, cur)));
  }

  lemma PositionsDistinct(p: Patch)
    requires p.positionUpdates == MapSeq(PositionOf, p.nodes.added + p.nodes.updated)
    requires Distinct(TouchedIds(p.nodes, NodeId))
    ensures Distinct(MapSeq((u: PositionUpdate) => u.nodeId, p.positionUpdates))
  {
    var ids := MapSeq((u: PositionUpdate) => u.nodeId, p.positionUpdates);
    var all := TouchedIds(p.nodes, NodeId);
    forall i | 0 <= i < |ids| ensures ids[i] == all[i] {
      var rows := p.nodes.added + p.nodes.updated;
      assert ids[i] == rows[i].nodeId;
      if i < |p.nodes.added| {
        assert all[i] == MapSeq(NodeId, p.nodes.added)[i];
      } else {
        assert all[i] == MapSeq(NodeId, p.nodes.updated)[i - |p.nodes.added|];
      }
    }
  }
}
