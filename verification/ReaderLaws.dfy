/** What a reader gets from tables that some run of the writer left behind. */
module ReaderLaws {
  import opened Domain
  import opened Ordering
  import opened EchoMap
  import opened EchoProjection
  import opened ProjectionStore
  import opened Pipeline
  import opened PipelineLaws
  import opened RoomLaws
  import opened AnalyticsContract
  import opened AnalyticsReader
  import opened Runs

  // ----- which rows a query finds -----

  /** The versions lo + 1, …, hi. */
  function Span(lo: int, hi: int): (s: seq<int>)
    requires lo <= hi
    ensures |s| == hi - lo && forall i :: 0 <= i < |s| ==> s[i] == lo + 1 + i
  {
    seq(hi - lo, i => lo + 1 + i)
  }

  lemma AscendingIsSpan(vs: set<int>, lo: int, hi: int)
    requires lo <= hi && forall v :: v in vs <==> lo < v <= hi
    ensures Ascending(vs) == Span(lo, hi)
  {
    var s := Span(lo, hi);
    forall v ensures v in s <==> v in Ascending(vs) {
      if lo < v <= hi { assert s[v - lo - 1] == v; }
    }
    assert SortedBy(s, VersionOrder) by {
      forall i, j | 0 <= i < j < |s| ensures Less(VersionOrder(s[i]), VersionOrder(s[j])) {
        assert VersionOrder(s[i]) == [s[i]] && VersionOrder(s[j]) == [s[j]];
      }
    }
    SortedUnique(Ascending(vs), s, VersionOrder);
  }

  /** The visible epoch has exactly the versions 1 to the head's. */
  lemma VisibleVersions(r: KeyRows, checkpoint: int)
    requires Contiguous(r) && HeadInstalled(r, checkpoint) && r.head.Some? && r.patches.Keys == r.snapshots.Keys
    ensures r.head.value.version >= 1
    ensures forall v :: Joined(r, r.head.value.epoch, v) <==> 1 <= v <= r.head.value.version
  {
    var e, n := r.head.value.epoch, r.head.value.version;
    assert (e, n) in r.snapshots && (e, n + 1) !in r.snapshots;
    forall v ensures Joined(r, e, v) <==> 1 <= v <= n {
      var k := (e, v);
      if 1 <= v <= n { assert k in r.snapshots; }
      assert k in r.snapshots && v > n ==> (e, n + 1) in r.snapshots;
    }
  }

  ghost predicate AlgorithmOf(row: SnapshotRow, algorithm: string, hash: string) {
    row.algorithmVersion == algorithm && row.parameterHash == hash
  }

  lemma {:induction false} SameAlgorithm(r: KeyRows, epoch: Epoch, v: int, w: int)
    requires Chained(r) && v <= w && forall i :: v <= i <= w ==> (epoch, i) in r.snapshots
    ensures var a, b := r.snapshots[(epoch, v)], r.snapshots[(epoch, w)];
            AlgorithmOf(a, b.algorithmVersion, b.parameterHash) && a.completeThrough <= b.completeThrough
    decreases w - v
  {
    if v < w {
      SameAlgorithm(r, epoch, v, w - 1);
      var j, k := (epoch, w - 1), (epoch, w);
      assert j == Previous(k) && j in r.snapshots && k in r.snapshots;
      assert Succeeds(r.snapshots[j], r.snapshots[k]);
    }
  }

  lemma SameAlgorithmVisible(r: KeyRows, h: Head, v: int, w: int)
    requires Chained(r) && 1 <= v <= w <= h.version && forall i :: Joined(r, h.epoch, i) <==> 1 <= i <= h.version
    ensures Joined(r, h.epoch, v) && Joined(r, h.epoch, w)
    ensures var a, b := r.snapshots[(h.epoch, v)], r.snapshots[(h.epoch, w)];
            AlgorithmOf(a, b.algorithmVersion, b.parameterHash) && a.completeThrough <= b.completeThrough
  {
    forall i | v <= i <= w ensures (h.epoch, i) in r.snapshots { assert Joined(r, h.epoch, i); }
    SameAlgorithm(r, h.epoch, v, w);
  }

  lemma VisiblePatch(key: ProjectionKey, r: KeyRows, checkpoint: int, k: VersionKey)
    requires PatchesLead(key, r) && RowsDescribe(key, r, checkpoint) && k in r.patches && k in r.snapshots
    ensures PatchLeads(key.EchoStudent?, BaseMap(r.snapshots, k), k, r.snapshots[k], PatchOf(r.patches[k]))
    ensures RowDescribes(key, k, r.snapshots[k], checkpoint)
  {
  }

  lemma LeadingPatchPasses(key: ProjectionKey, k: VersionKey, row: SnapshotRow, patch: PatchRow, checkpoint: int, head: Head)
    requires key.IsEcho() && k.1 >= 1 && RowDescribes(key, k, row, checkpoint)
    requires var p := PatchOf(patch); SameVersion(k, row, p) && p.evidenceRefs.None? == key.EchoStudent? && PatchSemantics(p) && PatchSpansOk(p)
    requires k.0 == head.epoch && AlgorithmOf(row, head.algorithmVersion, head.parameterHash)
    ensures RowContinues(key, (patch, row), k.1 - 1, head)
  {
    AssertEchoPatchExact(PatchOf(patch));
  }

  /** Every stored row of the visible epoch passes the server's checks. */
  lemma VisibleRowPasses(key: ProjectionKey, r: KeyRows, checkpoint: int, v: int)
    requires key.IsEcho() && PatchesLead(key, r) && RowsDescribe(key, r, checkpoint) && Chained(r) && HeadInstalled(r, checkpoint) && r.head.Some?
    requires forall i :: Joined(r, r.head.value.epoch, i) <==> 1 <= i <= r.head.value.version
    requires Joined(r, r.head.value.epoch, v)
    ensures RowContinues(key, RowAt(r, r.head.value.epoch, v), v - 1, r.head.value)
  {
    var h := r.head.value;
    var k := (h.epoch, v);
    SameAlgorithmVisible(r, h, v, h.version);
    VisiblePatch(key, r, checkpoint, k);
    LeadingPatchPasses(key, k, r.snapshots[k], r.patches[k], checkpoint, h);
  }

  /** What the reader needs: versions 1 to the head's, each passing the checks, each leading on from the one before. */
  ghost predicate Serves(key: ProjectionKey, r: KeyRows, h: Head) {
    && h.version >= 1
    && (forall v :: Joined(r, h.epoch, v) <==> 1 <= v <= h.version)
    && (forall v :: Joined(r, h.epoch, v) ==> RowContinues(key, RowAt(r, h.epoch, v), v - 1, h))
  }

  lemma {:induction false} WriterServes(key: ProjectionKey, r: KeyRows, checkpoint: int)
    requires key.IsEcho() && KeyInvariant(key, r, checkpoint) && r.head.Some?
    ensures Serves(key, r, r.head.value)
  {
    VisibleVersions(r, checkpoint);
    forall v | Joined(r, r.head.value.epoch, v) ensures RowContinues(key, RowAt(r, r.head.value.epoch, v), v - 1, r.head.value) {
      VisibleRowPasses(key, r, checkpoint, v);
    }
  }

  // ----- what a chain of patches does -----

  /** Applying patches one after the other. */
  function ApplyAll(m: GraphMap, ps: seq<Patch>): GraphMap { Execute(ApplyPatch, m, ps) }

  /** A snapshot version read as a map; version 0 is the empty map. */
  function MapAt(r: KeyRows, epoch: Epoch, v: int): GraphMap {
    if (epoch, v) in r.snapshots then MapOf(GraphOf(r.snapshots[(epoch, v)].payload)) else EMPTY_MAP
  }

  ghost predicate PatchIs(r: KeyRows, epoch: Epoch, v: int, p: Patch) {
    (epoch, v) in r.patches && p == PatchOf(r.patches[(epoch, v)])
  }

  /** Patch i of the list is the stored patch of version lo + 1 + i. */
  ghost predicate StoredChain(r: KeyRows, epoch: Epoch, lo: int, ps: seq<Patch>) {
    forall i :: 0 <= i < |ps| ==> PatchIs(r, epoch, lo + 1 + i, ps[i])
  }

  /** The stored patch of version v + 1 leads from the state at v to the next. */
  ghost predicate LeadsOn<S>(r: KeyRows, epoch: Epoch, next: (S, Patch) -> S, states: int -> S, v: int) {
    var k := (epoch, v + 1);
    k in r.patches && next(states(v), PatchOf(r.patches[k])) == states(v + 1)
  }

  lemma ChainFollows<S>(r: KeyRows, epoch: Epoch, lo: int, ps: seq<Patch>, hi: int, next: (S, Patch) -> S, states: int -> S)
    requires StoredChain(r, epoch, lo, ps) && hi == lo + |ps|
    requires forall v :: lo <= v < hi ==> LeadsOn(r, epoch, next, states, v)
    ensures Execute(next, states(lo), ps) == states(hi)
  {
    forall i | 0 <= i < |ps| ensures next(states(lo + i), ps[i]) == states(lo + i + 1) {
      assert PatchIs(r, epoch, lo + 1 + i, ps[i]);
      assert LeadsOn(r, epoch, next, states, lo + i);
    }
    Follows(next, states, lo, ps);
  }

  ghost function Maps(r: KeyRows, epoch: Epoch): int -> GraphMap { v => MapAt(r, epoch, v) }

  lemma MapsLeadOn(r: KeyRows, epoch: Epoch, v: int)
    requires PatchesApply(r) && (epoch, v + 1) in r.patches
    ensures LeadsOn(r, epoch, ApplyPatch, Maps(r, epoch), v)
  {
    var k := (epoch, v + 1);
    assert k in r.snapshots && Previous(k) == (epoch, v);
  }

  lemma ChainReaches(r: KeyRows, epoch: Epoch, lo: int, ps: seq<Patch>, hi: int)
    requires PatchesApply(r) && StoredChain(r, epoch, lo, ps) && hi == lo + |ps|
    ensures ApplyAll(MapAt(r, epoch, lo), ps) == MapAt(r, epoch, hi)
  {
    forall v | lo <= v < hi ensures LeadsOn(r, epoch, ApplyPatch, Maps(r, epoch), v) {
      assert PatchIs(r, epoch, lo + 1 + (v - lo), ps[v - lo]);
      MapsLeadOn(r, epoch, v);
    }
    ChainFollows(r, epoch, lo, ps, hi, ApplyPatch, Maps(r, epoch));
    assert Maps(r, epoch)(lo) == MapAt(r, epoch, lo) && Maps(r, epoch)(hi) == MapAt(r, epoch, hi);
  }

  // ----- patchesAfter -----

  ghost predicate RowIs(r: KeyRows, epoch: Epoch, v: int, row: JoinedRow) {
    Joined(r, epoch, v) && row == RowAt(r, epoch, v)
  }

  /** The rows of versions lo + 1 and on, in order. */
  ghost predicate RowsFrom(r: KeyRows, h: Head, lo: int, rows: seq<JoinedRow>) {
    forall i :: 0 <= i < |rows| ==> RowIs(r, h.epoch, lo + 1 + i, rows[i])
  }

  lemma RowsPass(key: ProjectionKey, r: KeyRows, h: Head, lo: int, rows: seq<JoinedRow>)
    requires Serves(key, r, h) && |rows| == h.version - lo && RowsFrom(r, h, lo, rows)
    ensures IsChain(key, rows, lo, h) && StoredChain(r, h.epoch, lo, WireOf(rows))
  {
    forall i | 0 <= i < |rows|
      ensures RowContinues(key, rows[i], lo + i, h) && PatchIs(r, h.epoch, lo + 1 + i, WireOf(rows)[i])
    {
      assert RowIs(r, h.epoch, lo + 1 + i, rows[i]);
    }
  }

  lemma RowsOfVersions(r: KeyRows, h: Head, lo: int, versions: seq<int>)
    requires forall i :: 0 <= i < |versions| ==> Joined(r, h.epoch, versions[i]) && versions[i] == lo + 1 + i
    ensures RowsFrom(r, h, lo, RowsAt(r, h.epoch, versions))
  {
  }

  lemma WindowRowsFound(key: ProjectionKey, r: KeyRows, h: Head, lo: int)
    requires Serves(key, r, h) && 0 <= lo <= h.version
    ensures |WindowRows(r, h.epoch, lo, h.version)| == Min(h.version - lo, 201)
    ensures RowsFrom(r, h, lo, WindowRows(r, h.epoch, lo, h.version))
  {
    var vs := VersionsBetween(r, h.epoch, lo, h.version);
    AscendingIsSpan(vs, lo, h.version);
    var chosen := Take(Ascending(vs), 201);
    assert forall i :: 0 <= i < |chosen| ==> chosen[i] == lo + 1 + i;
    RowsOfVersions(r, h, lo, chosen);
  }

  lemma LastRowsFound(key: ProjectionKey, r: KeyRows, h: Head, limit: nat, lo: int)
    requires Serves(key, r, h) && lo == h.version - Min(limit, h.version)
    ensures |LastRows(r, h.epoch, limit)| == h.version - lo && RowsFrom(r, h, lo, LastRows(r, h.epoch, limit))
  {
    var vs := JoinedVersions(r, h.epoch);
    AscendingIsSpan(vs, 0, h.version);
    var chosen := TakeLast(Ascending(vs), limit);
    SpanSuffix(h.version, limit, lo);
    assert forall i :: 0 <= i < |chosen| ==> chosen[i] in Ascending(vs);
    RowsOfVersions(r, h, lo, chosen);
  }

  lemma SpanSuffix(n: nat, limit: nat, lo: int)
    requires lo == n - Min(limit, n)
    ensures var s := TakeLast(Span(0, n), limit); |s| == n - lo && forall i :: 0 <= i < |s| ==> s[i] == lo + 1 + i
  {
  }

  lemma WindowServed(key: ProjectionKey, r: KeyRows, h: Head, after: nat) returns (ps: seq<Patch>)
    requires key.IsEcho() && r.head == Some(h) && Serves(key, r, h) && after <= h.version <= after + 200
    ensures PatchesAfter(key, r, h.epoch, after) == Ok(Patches(ps))
    ensures |ps| == h.version - after && StoredChain(r, h.epoch, after, ps)
  {
    WindowRowsFound(key, r, h, after);
    RowsPass(key, r, h, after, WindowRows(r, h.epoch, after, h.version));
    ps := WireOf(WindowRows(r, h.epoch, after, h.version));
  }

  lemma OutsideWindow(key: ProjectionKey, r: KeyRows, h: Head, epoch: Epoch, after: nat)
    requires key.IsEcho() && r.head == Some(h) && Serves(key, r, h)
    requires h.epoch != epoch || !(after <= h.version <= after + 200)
    ensures PatchesAfter(key, r, epoch, after) == Ok(Resync)
  {
    if h.epoch == epoch && after <= h.version {
      WindowRowsFound(key, r, h, after);
    }
  }

  predicate InWindow(r: KeyRows, epoch: Epoch, after: nat) {
    r.head.Some? && r.head.value.epoch == epoch && after <= r.head.value.version <= after + 200
  }

  /** Patches are answered exactly inside a window of 200 versions of the visible epoch; every other request is
      answered with a resync. */
  lemma {:induction false} WindowAnswers(key: ProjectionKey, r: KeyRows, checkpoint: int, epoch: Epoch, after: nat)
    requires key.IsEcho() && KeyInvariant(key, r, checkpoint)
    ensures PatchesAfter(key, r, epoch, after).Ok?
    ensures PatchesAfter(key, r, epoch, after).value.Patches? <==> InWindow(r, epoch, after)
  {
    if r.head.Some? {
      WriterServes(key, r, checkpoint);
      if InWindow(r, epoch, after) {
        var ps := WindowServed(key, r, r.head.value, after);
      } else {
        OutsideWindow(key, r, r.head.value, epoch, after);
      }
    }
  }

  lemma ServedLeads(key: ProjectionKey, r: KeyRows, h: Head, after: nat) returns (ps: seq<Patch>)
    requires key.IsEcho() && r.head == Some(h) && Serves(key, r, h) && PatchesApply(r) && after <= h.version <= after + 200
    ensures PatchesAfter(key, r, h.epoch, after) == Ok(Patches(ps))
    ensures ApplyAll(MapAt(r, h.epoch, after), ps) == MapAt(r, h.epoch, h.version)
  {
    ps := WindowServed(key, r, h, after);
    ChainReaches(r, h.epoch, after, ps, h.version);
  }

  /** The patches of a window lead from the version the caller named to the latest snapshot. */
  lemma {:induction false} WindowLeads(key: ProjectionKey, r: KeyRows, checkpoint: int, epoch: Epoch,
          after: nat) returns (ps: seq<Patch>)
    requires key.IsEcho() && KeyInvariant(key, r, checkpoint) && InWindow(r, epoch, after)
    ensures PatchesAfter(key, r, epoch, after) == Ok(Patches(ps))
    ensures ApplyAll(MapAt(r, epoch, after), ps) == MapAt(r, epoch, r.head.value.version)
  {
    WriterServes(key, r, checkpoint);
    LeadingApplies(key, r);
    ps := ServedLeads(key, r, r.head.value, after);
  }
}
