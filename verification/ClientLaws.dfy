/** A browser that applies the patches the server answers shows what the worker wrote last. */
module ClientLaws {
  import opened Domain
  import opened EchoMap
  import opened EchoProjection
  import opened ProjectionStore
  import opened Pipeline
  import opened PipelineLaws
  import opened RoomLaws
  import opened AnalyticsContract
  import opened AnalyticsReader
  import opened ReaderLaws
  import opened TimelineLaws
  import opened ConceptReducer
  import opened Runs

  /** What the browser shows of a stored version. */
  function ViewOf(key: ProjectionKey, row: SnapshotRow): ClientView {
    var g := GraphOf(row.payload);
    ClientView(key, row.epoch, row.algorithmVersion, row.parameterHash, row.version, row.completeThrough, row.requiresReplay,
               ReviewOf(key, row.payload), row.warnings, ById(g.nodes, NodeId), ById(g.edges, EdgeId))
  }

  lemma GraphFits(key: ProjectionKey, g: Graph)
    requires GraphSemantics(g, key.EchoStudent?) && EdgeSpansOk(g.edges)
    ensures NoDangling(ById(g.nodes, NodeId), ById(g.edges, EdgeId)) && ResultOk(key, ById(g.nodes, NodeId), ById(g.edges, EdgeId))
  {
    var nodes, edges := ById(g.nodes, NodeId), ById(g.edges, EdgeId);
    forall k | k in edges ensures edges[k].head in nodes && edges[k].tail in nodes && SpansOk(RefsOf(edges[k])) {
      var e := edges[k];
      assert e in g.edges;
      var a :| a in g.nodes && a.nodeId == e.head;
      var b :| b in g.nodes && b.nodeId == e.tail;
      assert NodeId(a) in nodes && NodeId(b) in nodes;
    }
  }

  lemma ContentCounts<V>(xs: seq<V>, id: V -> string)
    ensures |ById(xs, id)| > 0 <==> |xs| > 0
  {
    if xs != [] {
      assert xs[0] in xs;
      assert id(xs[0]) in ById(xs, id);
    }
  }

  /** The next view has the fields of the next row. */
  lemma NextIsRow(key: ProjectionKey, v: ClientView, row: SnapshotRow, p: Patch)
    requires key.IsEcho() && v.key == key && row.payload.EchoPayload? && SameVersion((row.epoch, row.version), row, p) && !row.requiresReplay
    requires key.EchoTeacher? ==> v.reviewStatus.Unreviewed?
    ensures var g := GraphOf(row.payload); NextView(v, p, ById(g.nodes, NodeId), ById(g.edges, EdgeId)) == ViewOf(key, row)
  {
    var g := GraphOf(row.payload);
    ContentCounts(g.nodes, NodeId);
    ContentCounts(g.edges, EdgeId);
  }

  lemma NoMismatch(key: ProjectionKey, prev: SnapshotRow, row: SnapshotRow, p: Patch)
    requires row.epoch == prev.epoch && row.version == prev.version + 1
    requires !prev.requiresReplay && !row.requiresReplay && prev.completeThrough <= row.completeThrough
    requires prev.algorithmVersion == row.algorithmVersion && prev.parameterHash == row.parameterHash
    requires SameVersion((row.epoch, row.version), row, p)
    ensures Mismatch(ViewOf(key, prev), p).None?
  {
  }

  /** One patch of a stored chain, applied in the browser. */
  lemma RowFollows(key: ProjectionKey, prev: SnapshotRow, row: SnapshotRow, p: Patch, nodes: map<string, Node>,
          edges: map<string, Edge>)
    requires key.IsEcho() && row.payload.EchoPayload? && !row.requiresReplay && SameVersion((row.epoch, row.version), row, p)
    requires Mismatch(ViewOf(key, prev), p).None?
    requires MapOf(GraphOf(row.payload)) == GraphMap(nodes, edges) && Keyed(nodes, NodeId) && Keyed(edges, EdgeId)
    requires IsDelta(MapOf(GraphOf(prev.payload)), GraphMap(nodes, edges), p)
    requires NoDangling(nodes, edges) && ResultOk(key, nodes, edges)
    ensures Reduced(ViewOf(key, prev), p) == Ok(ViewOf(key, row))
  {
    var v := ViewOf(key, prev);
    DeltaApplies(v, GraphMap(nodes, edges), p);
    NextIsRow(key, v, row, p);
  }

  /** Applying patches in the browser until one of them is refused. */
  ghost function Step(s: Result<ClientView, ReduceError>, p: Patch): Result<ClientView, ReduceError> {
    match s case Ok(v) => Reduced(v, p) case Err(e) => Err(e)
  }

  ghost function Follow(v: ClientView, ps: seq<Patch>): Result<ClientView, ReduceError> { Execute(Step, Ok(v), ps) }

  ghost predicate RowReady(key: ProjectionKey, r: KeyRows, k: VersionKey)
    requires k in r.snapshots
  {
    var row := r.snapshots[k];
    && row.payload.EchoPayload?
    && GraphSemantics(GraphOf(row.payload), key.EchoStudent?) && EdgeSpansOk(GraphOf(row.payload).edges)
  }

  ghost predicate Waiting(r: KeyRows, epoch: Epoch, v: int) {
    (epoch, v) in r.snapshots && r.snapshots[(epoch, v)].requiresReplay
  }

  /** No version from `after` on, up to v, is waiting for a replay. */
  ghost predicate Calm(r: KeyRows, epoch: Epoch, after: int, v: int) {
    forall w :: after <= w <= v ==> !Waiting(r, epoch, w)
  }

  lemma StoredFollows(key: ProjectionKey, r: KeyRows, h: Head, v: int, p: Patch)
    requires key.IsEcho() && PatchesLead(key, r) && Ordered(r, h) && Joined(r, h.epoch, v) && Joined(r, h.epoch, v + 1)
    requires PatchIs(r, h.epoch, v + 1, p) && RowReady(key, r, (h.epoch, v)) && RowReady(key, r, (h.epoch, v + 1))
    requires !Waiting(r, h.epoch, v) && !Waiting(r, h.epoch, v + 1)
    ensures Reduced(ViewOf(key, r.snapshots[(h.epoch, v)]), p) == Ok(ViewOf(key, r.snapshots[(h.epoch, v + 1)]))
  {
    var k := (h.epoch, v + 1);
    var prev, row := r.snapshots[(h.epoch, v)], r.snapshots[k];
    assert VersionFits(r, h, v) && VersionFits(r, h, v + 1);
    assert Joined(r, h.epoch, v + 1 - 1) && Previous(k) == (h.epoch, v);
    assert PatchLeads(key.EchoStudent?, BaseMap(r.snapshots, k), k, row, PatchOf(r.patches[k]));
    NoMismatch(key, prev, row, p);
    GraphFits(key, GraphOf(row.payload));
    var m := MapOf(GraphOf(row.payload));
    RowFollows(key, prev, row, p, m.nodes, m.edges);
  }

  /** The reducer refuses a patch from or to a version that waits for a replay. */
  lemma StoredRefused(key: ProjectionKey, r: KeyRows, h: Head, v: int, p: Patch)
    requires key.IsEcho() && PatchesLead(key, r) && Joined(r, h.epoch, v) && Joined(r, h.epoch, v + 1)
    requires PatchIs(r, h.epoch, v + 1, p) && (Waiting(r, h.epoch, v) || Waiting(r, h.epoch, v + 1))
    ensures Reduced(ViewOf(key, r.snapshots[(h.epoch, v)]), p) == Err(ReplayRequired)
  {
    var k := (h.epoch, v + 1);
    assert PatchLeads(key.EchoStudent?, BaseMap(r.snapshots, k), k, r.snapshots[k], PatchOf(r.patches[k]));
  }

  /** What a browser that showed `after` has at a version of the visible epoch. */
  ghost function StateAt(key: ProjectionKey, r: KeyRows, h: Head, after: int, v: int): Result<ClientView, ReduceError> {
    if Joined(r, h.epoch, v) && (v == after || Calm(r, h.epoch, after, v)) then Ok(ViewOf(key, r.snapshots[(h.epoch, v)]))
    else Err(ReplayRequired)
  }

  ghost predicate ReadyAt(key: ProjectionKey, r: KeyRows, h: Head, v: int) {
    Joined(r, h.epoch, v) && RowReady(key, r, (h.epoch, v))
  }

  lemma CalmNext(r: KeyRows, epoch: Epoch, after: int, v: int, n: int)
    requires after <= v && n == v + 1
    ensures Calm(r, epoch, after, n) <==> (v == after || Calm(r, epoch, after, v)) && !Waiting(r, epoch, v) && !Waiting(r, epoch, n)
  {
  }

  lemma StateIs(key: ProjectionKey, r: KeyRows, h: Head, after: int, v: int)
    requires Joined(r, h.epoch, v)
    ensures StateAt(key, r, h, after, v) ==
            if v == after || Calm(r, h.epoch, after, v) then Ok(ViewOf(key, r.snapshots[(h.epoch, v)])) else Err(ReplayRequired)
  {
  }

  lemma StepIs(v: ClientView, p: Patch, s: Result<ClientView, ReduceError>, s': Result<ClientView, ReduceError>)
    requires (s == Ok(v) && Reduced(v, p) == s') || (s.Err? && s' == s)
    ensures Step(s, p) == s'
  {
  }

  lemma StateStep(key: ProjectionKey, r: KeyRows, h: Head, after: int, v: int, p: Patch)
    requires key.IsEcho() && PatchesLead(key, r) && Ordered(r, h) && ReadyAt(key, r, h, v) && ReadyAt(key, r, h, v + 1)
    requires after <= v && PatchIs(r, h.epoch, v + 1, p)
    ensures Step(StateAt(key, r, h, after, v), p) == StateAt(key, r, h, after, v + 1)
  {
    var n := v + 1;
    CalmNext(r, h.epoch, after, v, n);
    StateIs(key, r, h, after, v);
    StateIs(key, r, h, after, n);
    if Waiting(r, h.epoch, v) || Waiting(r, h.epoch, n) {
      StoredRefused(key, r, h, v, p);
    } else {
      StoredFollows(key, r, h, v, p);
    }
    StepIs(ViewOf(key, r.snapshots[(h.epoch, v)]), p, StateAt(key, r, h, after, v), StateAt(key, r, h, after, n));
  }

  ghost function States(key: ProjectionKey, r: KeyRows, h: Head, after: int): int -> Result<ClientView, ReduceError> {
    v => StateAt(key, r, h, after, v)
  }

  lemma ReadyLeadsOn(key: ProjectionKey, r: KeyRows, h: Head, after: int, v: int)
    requires key.IsEcho() && PatchesLead(key, r) && Ordered(r, h) && ReadyAt(key, r, h, v) && ReadyAt(key, r, h, v + 1)
    requires after <= v
    ensures LeadsOn(r, h.epoch, Step, States(key, r, h, after), v)
  {
    StateStep(key, r, h, after, v, PatchOf(r.patches[(h.epoch, v + 1)]));
  }

  /** In every run over well-formed graphs, a browser that shows any version of the visible epoch inside the window,
      and applies the patches it is answered, ends showing the latest version, or is told to ask for a replay; it is
      told so exactly when there is something to apply and some version on the way waits for a replay. */
  lemma {:induction false} BrowserCatchesUp(room: string, ops: seq<Op>, key: ProjectionKey,
          after: nat) returns (ps: seq<Patch>)
    requires key.IsEcho() && after >= 1 && forall op :: op in ops ==> SoundInputs(op)
    requires AllKeys(After(room, ops)) && After(room, ops).rows[key].head.Some?
    requires InWindow(After(room, ops).rows[key], After(room, ops).rows[key].head.value.epoch, after)
    ensures var r := After(room, ops).rows[key];
            var h := r.head.value;
            && PatchesAfter(key, r, h.epoch, after) == Ok(Patches(ps))
            && (h.epoch, after) in r.snapshots && (h.epoch, h.version) in r.snapshots
            && Follow(ViewOf(key, r.snapshots[(h.epoch, after)]), ps)
               == if after == h.version || Calm(r, h.epoch, after, h.version) then Ok(ViewOf(key, r.snapshots[(h.epoch, h.version)]))
                  else Err(ReplayRequired)
  {
    RunMeetsContract(room, ops);
    var t := After(room, ops);
    assert KeyInvariant(key, t.rows[key], t.checkpoint) && RowsMeetContract(key, t.rows[key]);
    ps := WriterCatchesUp(key, t.rows[key], t.checkpoint, t.rows[key].head.value, after);
  }

  lemma WriterCatchesUp(key: ProjectionKey, r: KeyRows, checkpoint: int, h: Head, after: nat) returns (ps: seq<Patch>)
    requires key.IsEcho() && after >= 1 && r.head == Some(h) && KeyInvariant(key, r, checkpoint) && RowsMeetContract(key, r)
    requires after <= h.version <= after + 200
    ensures PatchesAfter(key, r, h.epoch, after) == Ok(Patches(ps))
    ensures (h.epoch, after) in r.snapshots && (h.epoch, h.version) in r.snapshots
    ensures Follow(ViewOf(key, r.snapshots[(h.epoch, after)]), ps)
            == if after == h.version || Calm(r, h.epoch, after, h.version) then Ok(ViewOf(key, r.snapshots[(h.epoch, h.version)]))
               else Err(ReplayRequired)
  {
    WriterServes(key, r, checkpoint);
    WriterOrders(key, r, checkpoint);
    RowsReady(key, r, checkpoint, h);
    AllLeadOn(key, r, h, after);
    ps := WindowServed(key, r, h, after);
    var states := States(key, r, h, after);
    ChainFollows(r, h.epoch, after, ps, h.version, Step, states);
    assert states(after) == StateAt(key, r, h, after, after) && states(h.version) == StateAt(key, r, h, after, h.version);
    assert Joined(r, h.epoch, after) && Joined(r, h.epoch, h.version);
  }

  lemma RowsReady(key: ProjectionKey, r: KeyRows, checkpoint: int, h: Head)
    requires key.IsEcho() && RowsDescribe(key, r, checkpoint) && RowsMeetContract(key, r)
    ensures forall v :: Joined(r, h.epoch, v) ==> ReadyAt(key, r, h, v)
  {
    forall v | Joined(r, h.epoch, v) ensures ReadyAt(key, r, h, v) {
      var k := (h.epoch, v);
      assert k in r.snapshots && RowDescribes(key, k, r.snapshots[k], checkpoint);
    }
  }

  lemma AllLeadOn(key: ProjectionKey, r: KeyRows, h: Head, after: nat)
    requires key.IsEcho() && Ordered(r, h) && PatchesLead(key, r) && after >= 1
    requires forall v :: Joined(r, h.epoch, v) <==> 1 <= v <= h.version
    requires forall w :: Joined(r, h.epoch, w) ==> ReadyAt(key, r, h, w)
    ensures forall v :: after <= v < h.version ==> LeadsOn(r, h.epoch, Step, States(key, r, h, after), v)
  {
    forall v | after <= v < h.version ensures LeadsOn(r, h.epoch, Step, States(key, r, h, after), v) {
      assert Joined(r, h.epoch, v) && Joined(r, h.epoch, v + 1);
      ReadyLeadsOn(key, r, h, after, v);
    }
  }
}
