/** The checks on a teacher's export of a room: the log, the artifacts, the projections and where each came from. */
module RoomExport {
  import opened Domain
  import opened Ordering
  import opened Sequences

  datatype EventType = MessageAdded | MessageRevised | CorrectionRecorded | OtherKnown

  datatype Event = Event(roomId: string, roomSeq: int, eventId: string, kind: EventType)

  datatype Derivation = HumanCorrection | OtherDerivation(name: string)

  /** What an artifact and its provenance record must agree on. */
  datatype ArtifactRef = ArtifactRef(
    artifactId: string, lineageId: string, roomId: string, eventId: string, roomSeq: int, modality: string, derivation: Derivation)

  datatype ProjectionRef = ProjectionRef(
    key: ProjectionKey, roomId: string, epoch: string, algorithmVersion: string,
    version: int, completeThrough: int, watermark: Instant)

  /** `contractOk`: the projection passes its own contract. */
  datatype Projection = Projection(ref: ProjectionRef, contractOk: bool)

  datatype Export = Export(
    roomId: string, through: int, events: seq<Event>,
    artifacts: seq<ArtifactRef>, artifactSources: seq<ArtifactRef>,
    projections: seq<Projection>, projectionSources: seq<ProjectionRef>)

  function EventId(e: Event): string { e.eventId }

  function ArtifactId(a: ArtifactRef): string { a.artifactId }

  function RefKey(r: ProjectionRef): ProjectionKey { r.key }

  function RefOf(p: Projection): ProjectionRef { p.ref }

  // ----- what the contract demands -----

  ghost predicate EventsOk(x: Export) {
    && |x.events| == x.through
    && (forall i :: 0 <= i < |x.events| ==> x.events[i].roomId == x.roomId && x.events[i].roomSeq == i + 1)
    && Distinct(MapSeq(EventId, x.events))
  }

  ghost predicate SourcesOk(x: Export) {
    && Distinct(MapSeq(ArtifactId, x.artifactSources))
    && (forall i :: 0 <= i < |x.artifactSources| ==> SourceFits(x, x.artifactSources[i]))
    && |x.artifactSources| == |x.artifacts|
  }

  predicate SourceFits(x: Export, s: ArtifactRef) { s.roomId == x.roomId && s.roomSeq <= x.through }

  predicate KindFits(derivation: Derivation, kind: EventType) {
    if derivation.HumanCorrection? then kind.CorrectionRecorded? else kind.MessageAdded? || kind.MessageRevised?
  }

  predicate BackedBy(x: Export, a: ArtifactRef) {
    exists i :: 0 <= i < |x.events| && x.events[i].eventId == a.eventId && x.events[i].roomSeq == a.roomSeq && KindFits(a.derivation, x.events[i].kind)
  }

  /** The locale's order of strings, by sort key; the host decides on the locale. */
  type Collation = string -> seq<int>

  /** Room order, and the locale's order of identifiers inside one event. */
  predicate ArtifactBefore(locale: Collation, a: ArtifactRef, b: ArtifactRef) {
    a.roomSeq < b.roomSeq || (a.roomSeq == b.roomSeq && Less(locale(a.artifactId), locale(b.artifactId)))
  }

  predicate ArtifactOk(x: Export, a: ArtifactRef) {
    a.roomId == x.roomId && a.roomSeq <= x.through && BackedBy(x, a) && a in x.artifactSources
  }

  ghost predicate ArtifactsOk(locale: Collation, x: Export) {
    && Distinct(MapSeq(ArtifactId, x.artifacts))
    && (forall i :: 0 <= i < |x.artifacts| ==> ArtifactOk(x, x.artifacts[i]))
    && (forall i, j :: 0 <= i && j == i + 1 && j < |x.artifacts| ==> ArtifactBefore(locale, x.artifacts[i], x.artifacts[j]))
  }

  ghost predicate ProjectionSourcesOk(x: Export) {
    && Distinct(MapSeq(RefKey, x.projectionSources))
    && (forall i :: 0 <= i < |x.projectionSources| ==> ProjectionSourceFits(x, x.projectionSources[i]))
    && |x.projectionSources| == |x.projections|
  }

  predicate ProjectionSourceFits(x: Export, s: ProjectionRef) { s.roomId == x.roomId && s.completeThrough <= x.through }

  predicate ProjectionOk(x: Export, p: Projection) {
    && ProjectionSourceFits(x, p.ref) && p.contractOk && (p.ref.key.EchoTeacher? || p.ref.key.TraceTeacher?)
    && p.ref in x.projectionSources
  }

  ghost predicate ProjectionsOk(x: Export) {
    && Distinct(MapSeq((p: Projection) => p.ref.key, x.projections))
    && (forall i :: 0 <= i < |x.projections| ==> ProjectionOk(x, x.projections[i]))
  }

  ghost predicate ExportOk(locale: Collation, x: Export) {
    EventsOk(x) && SourcesOk(x) && ArtifactsOk(locale, x) && ProjectionSourcesOk(x) && ProjectionsOk(x)
  }

  // ----- the checks, loop by loop -----

  /** A set of the identifiers seen so far, none of them twice. */
  ghost predicate Seen<T, K>(id: T -> K, xs: seq<T>, i: nat, seen: set<K>)
    requires i <= |xs|
  {
    seen == Elements(MapSeq(id, xs[..i])) && Distinct(MapSeq(id, xs[..i]))
  }

  lemma SeenGrows<T, K>(id: T -> K, xs: seq<T>, i: nat, seen: set<K>)
    requires i < |xs| && Seen(id, xs, i, seen) && id(xs[i]) !in seen
    ensures Seen(id, xs, i + 1, seen + {id(xs[i])})
  {
    assert MapSeq(id, xs[..i + 1]) == MapSeq(id, xs[..i]) + [id(xs[i])];
    DistinctAppend(MapSeq(id, xs[..i]), id(xs[i]));
  }

  lemma SeenTwice<T, K>(id: T -> K, xs: seq<T>, i: nat, seen: set<K>)
    requires i < |xs| && Seen(id, xs, i, seen) && id(xs[i]) in seen
    ensures !Distinct(MapSeq(id, xs))
  {
    var j :| 0 <= j < i && MapSeq(id, xs[..i])[j] == id(xs[i]);
    assert MapSeq(id, xs)[j] == MapSeq(id, xs)[i];
  }

  lemma SeenAll<T, K>(id: T -> K, xs: seq<T>, seen: set<K>)
    requires Seen(id, xs, |xs|, seen)
    ensures Distinct(MapSeq(id, xs))
  {
    assert xs[..|xs|] == xs;
  }

  /** Every listed record, and nothing else, under its own key. */
  ghost predicate IsIndex<K, S>(index: map<K, S>, xs: seq<S>, key: S -> K) {
    && (forall i :: 0 <= i < |xs| ==> key(xs[i]) in index && index[key(xs[i])] == xs[i])
    && (forall k :: k in index ==> index[k] in xs && key(index[k]) == k)
  }

  lemma IndexGrows<K, S>(index: map<K, S>, xs: seq<S>, i: nat, key: S -> K)
    requires i < |xs| && IsIndex(index, xs[..i], key) && key(xs[i]) !in index
    ensures IsIndex(index[key(xs[i]) := xs[i]], xs[..i + 1], key)
  {
    assert xs[..i + 1] == xs[..i] + [xs[i]];
  }

  method CheckEvents(x: Export) returns (ok: bool, byId: map<string, Event>)
    ensures ok <==> EventsOk(x)
    ensures ok ==> IsIndex(byId, x.events, EventId)
  {
    byId := map[];
    if |x.events| != x.through { return false, map[]; }
    var seen: set<string> := {};
    var i := 0;
    while i < |x.events|
      invariant 0 <= i <= |x.events|
      invariant Seen(EventId, x.events, i, seen)
      invariant forall k :: 0 <= k < i ==> x.events[k].roomId == x.roomId && x.events[k].roomSeq == k + 1
      invariant byId.Keys == seen && IsIndex(byId, x.events[..i], EventId)
    {
      var e := x.events[i];
      if e.roomId != x.roomId || e.roomSeq != i + 1 || e.eventId in seen {
        if e.eventId in seen { SeenTwice(EventId, x.events, i, seen); }
        return false, map[];
      }
      SeenGrows(EventId, x.events, i, seen);
      IndexGrows(byId, x.events, i, EventId);
      seen := seen + {e.eventId};
      byId := byId[e.eventId := e];
      i := i + 1;
    }
    SeenAll(EventId, x.events, seen);
    assert x.events[..i] == x.events;
    return true, byId;
  }

  lemma IndexLookup<K, S>(index: map<K, S>, xs: seq<S>, key: S -> K, s: S)
    requires IsIndex(index, xs, key)
    ensures s in xs <==> key(s) in index && index[key(s)] == s
  {
    if s in xs {
      var i :| 0 <= i < |xs| && xs[i] == s;
    }
  }

  /** Provenance records by key; the map is as large as the list because no key repeats. */
  method IndexSources<K(==), S>(xs: seq<S>, key: S -> K, fits: S -> bool) returns (ok: bool, index: map<K, S>)
    ensures ok <==> Distinct(MapSeq(key, xs)) && forall i :: 0 <= i < |xs| ==> fits(xs[i])
    ensures ok ==> |index| == |xs| && IsIndex(index, xs, key)
  {
    index := map[];
    ghost var place: map<K, nat> := map[];
    var i := 0;
    while i < |xs|
      invariant 0 <= i <= |xs| && |index| == i && index.Keys == place.Keys
      invariant forall k :: 0 <= k < i ==> fits(xs[k]) && key(xs[k]) in place && place[key(xs[k])] == k
      invariant forall k :: k in place ==> place[k] < i && index[k] == xs[place[k]] && key(index[k]) == k
    {
      var k := key(xs[i]);
      if k in index {
        RepeatedKey(xs, key, place[k], i);
        return false, map[];
      }
      if !fits(xs[i]) { return false, map[]; }
      index, place := index[k := xs[i]], place[k := i];
      i := i + 1;
    }
    PlacedKeys(xs, key, place);
    return true, index;
  }

  lemma RepeatedKey<K, S>(xs: seq<S>, key: S -> K, j: nat, i: nat)
    requires j < i < |xs| && key(xs[j]) == key(xs[i])
    ensures !Distinct(MapSeq(key, xs))
  {
    assert MapSeq(key, xs)[j] == MapSeq(key, xs)[i];
  }

  lemma PlacedKeys<K, S>(xs: seq<S>, key: S -> K, place: map<K, nat>)
    requires forall i :: 0 <= i < |xs| ==> key(xs[i]) in place && place[key(xs[i])] == i
    ensures Distinct(MapSeq(key, xs))
  {
    forall i, j | 0 <= i < j < |xs| ensures MapSeq(key, xs)[i] != MapSeq(key, xs)[j] {
      assert place[key(xs[i])] != place[key(xs[j])];
    }
  }

  method CheckArtifactSources(x: Export) returns (ok: bool, sources: map<string, ArtifactRef>)
    ensures ok <==> SourcesOk(x)
    ensures ok ==> IsIndex(sources, x.artifactSources, ArtifactId)
  {
    ok, sources := IndexSources(x.artifactSources, ArtifactId, s => SourceFits(x, s));
    if ok && |sources| != |x.artifacts| { ok := false; }
  }

  /** The conditions on one artifact, as looked up. */
  predicate ArtifactFits(x: Export, byId: map<string, Event>, sources: map<string, ArtifactRef>, a: ArtifactRef) {
    && a.roomId == x.roomId && a.roomSeq <= x.through
    && a.eventId in byId && byId[a.eventId].roomSeq == a.roomSeq && KindFits(a.derivation, byId[a.eventId].kind)
    && a.artifactId in sources && sources[a.artifactId] == a
  }

  lemma FitsIsOk(x: Export, byId: map<string, Event>, sources: map<string, ArtifactRef>, a: ArtifactRef)
    requires IsIndex(byId, x.events, EventId) && IsIndex(sources, x.artifactSources, ArtifactId)
    ensures ArtifactFits(x, byId, sources, a) <==> ArtifactOk(x, a)
  {
    EventLookup(x, byId, a);
    IndexLookup(sources, x.artifactSources, ArtifactId, a);
  }

  lemma Refuted(locale: Collation, x: Export, i: nat)
    requires i < |x.artifacts|
    requires ArtifactOk(x, x.artifacts[i]) ==> i > 0 && !ArtifactBefore(locale, x.artifacts[i - 1], x.artifacts[i])
    ensures !ArtifactsOk(locale, x)
  {
    var j := i - 1;
    assert ArtifactOk(x, x.artifacts[i]) ==> !ArtifactBefore(locale, x.artifacts[j], x.artifacts[i]);
  }

  method CheckArtifacts(locale: Collation, x: Export, byId: map<string, Event>, sources: map<string, ArtifactRef>) returns (ok: bool)
    requires IsIndex(byId, x.events, EventId) && IsIndex(sources, x.artifactSources, ArtifactId)
    ensures ok <==> ArtifactsOk(locale, x)
  {
    var seen: set<string> := {};
    var previous: Option<ArtifactRef> := None;
    var i := 0;
    while i < |x.artifacts|
      invariant 0 <= i <= |x.artifacts|
      invariant Seen(ArtifactId, x.artifacts, i, seen)
      invariant previous == if i == 0 then None else Some(x.artifacts[i - 1])
      invariant forall k :: 0 <= k < i ==> ArtifactOk(x, x.artifacts[k])
      invariant forall k, l :: 0 <= k && l == k + 1 && l < i ==> ArtifactBefore(locale, x.artifacts[k], x.artifacts[l])
    {
      var a := x.artifacts[i];
      if a.artifactId in seen {
        SeenTwice(ArtifactId, x.artifacts, i, seen);
        return false;
      }
      SeenGrows(ArtifactId, x.artifacts, i, seen);
      FitsIsOk(x, byId, sources, a);
      if !ArtifactFits(x, byId, sources, a) {
        Refuted(locale, x, i);
        return false;
      }
      if previous.Some? && !ArtifactBefore(locale, previous.value, a) {
        Refuted(locale, x, i);
        return false;
      }
      seen := seen + {a.artifactId};
      previous := Some(a);
      i := i + 1;
    }
    SeenAll(ArtifactId, x.artifacts, seen);
    return true;
  }

  lemma EventLookup(x: Export, byId: map<string, Event>, a: ArtifactRef)
    requires IsIndex(byId, x.events, EventId)
    ensures BackedBy(x, a) <==> a.eventId in byId && byId[a.eventId].roomSeq == a.roomSeq && KindFits(a.derivation, byId[a.eventId].kind)
  {
    if a.eventId in byId {
      var i :| 0 <= i < |x.events| && x.events[i] == byId[a.eventId];
      assert x.events[i].eventId == a.eventId;
    }
    if BackedBy(x, a) {
      var i :| 0 <= i < |x.events| && x.events[i].eventId == a.eventId && x.events[i].roomSeq == a.roomSeq && KindFits(a.derivation, x.events[i].kind);
      assert EventId(x.events[i]) in byId;
    }
  }

  method CheckProjectionSources(x: Export) returns (ok: bool, sources: map<ProjectionKey, ProjectionRef>)
    ensures ok <==> ProjectionSourcesOk(x)
    ensures ok ==> IsIndex(sources, x.projectionSources, RefKey)
  {
    ok, sources := IndexSources(x.projectionSources, RefKey, s => ProjectionSourceFits(x, s));
    if ok && |sources| != |x.projections| { ok := false; }
  }

  method CheckProjections(x: Export, sources: map<ProjectionKey, ProjectionRef>) returns (ok: bool)
    requires IsIndex(sources, x.projectionSources, RefKey)
    ensures ok <==> ProjectionsOk(x)
  {
    var keyOf := (p: Projection) => p.ref.key;
    var seen: set<ProjectionKey> := {};
    var i := 0;
    while i < |x.projections|
      invariant 0 <= i <= |x.projections|
      invariant Seen(keyOf, x.projections, i, seen)
      invariant forall k :: 0 <= k < i ==> ProjectionOk(x, x.projections[k])
    {
      var p := x.projections[i];
      if p.ref.key in seen {
        SeenTwice(keyOf, x.projections, i, seen);
        assert MapSeq(keyOf, x.projections) == MapSeq((q: Projection) => q.ref.key, x.projections);
        return false;
      }
      IndexLookup(sources, x.projectionSources, RefKey, p.ref);
      if !ProjectionSourceFits(x, p.ref) || !p.contractOk { return false; }
      if !p.ref.key.EchoTeacher? && !p.ref.key.TraceTeacher? { return false; }
      if p.ref.key !in sources || sources[p.ref.key] != p.ref { return false; }
      SeenGrows(keyOf, x.projections, i, seen);
      seen := seen + {p.ref.key};
      i := i + 1;
    }
    SeenAll(keyOf, x.projections, seen);
    assert MapSeq(keyOf, x.projections) == MapSeq((q: Projection) => q.ref.key, x.projections);
    return true;
  }

  /** assertSemantics. */
  method AssertSemantics(locale: Collation, x: Export) returns (ok: bool)
    ensures ok <==> ExportOk(locale, x)
  {
    var eventsOk, byId := CheckEvents(x);
    if !eventsOk { return false; }
    var sourcesOk, sources := CheckArtifactSources(x);
    if !sourcesOk { return false; }
    var artifactsOk := CheckArtifacts(locale, x, byId, sources);
    if !artifactsOk { return false; }
    var projectionSourcesOk, projectionSources := CheckProjectionSources(x);
    if !projectionSourcesOk { return false; }
    ok := CheckProjections(x, projectionSources);
  }

  // ----- what an accepted export is -----

  /** A list without repetitions whose elements all lie in an equally long list has all of that list's elements. */
  lemma {:induction false} Pigeonhole<T>(xs: seq<T>, ys: seq<T>)
    requires Distinct(xs) && |xs| == |ys| && forall x :: x in xs ==> x in ys
    ensures Elements(xs) == Elements(ys)
  {
    SizeIsDistinctness(xs);
    SizeIsDistinctness(ys);
    SubsetOfSameSize(Elements(xs), Elements(ys));
  }

  lemma SubsetOfSameSize<T>(a: set<T>, b: set<T>)
    requires a <= b && |b| <= |a|
    ensures a == b
  {
    var rest := b - a;
    assert b == a + rest && a !! rest;
    assert |b| == |a| + |rest|;
  }

  lemma DistinctByImage<T, K>(id: T -> K, xs: seq<T>)
    requires Distinct(MapSeq(id, xs))
    ensures Distinct(xs)
  {
    forall i, j | 0 <= i < j < |xs| ensures xs[i] != xs[j] {
      assert MapSeq(id, xs)[i] != MapSeq(id, xs)[j];
    }
  }

  lemma {:induction false} BeforeChains(locale: Collation, x: Export, i: nat, j: nat)
    requires ArtifactsOk(locale, x) && i < j < |x.artifacts|
    ensures ArtifactBefore(locale, x.artifacts[i], x.artifacts[j])
  {
    assert ArtifactBefore(locale, x.artifacts[j - 1], x.artifacts[j]);
    if i < j - 1 {
      BeforeChains(locale, x, i, j - 1);
      var a, b, c := x.artifacts[i], x.artifacts[j - 1], x.artifacts[j];
      if a.roomSeq == b.roomSeq == c.roomSeq {
        LessTransitive(locale(a.artifactId), locale(b.artifactId), locale(c.artifactId));
      }
    }
  }

  /** An accepted export has its artifacts in strict order, and its provenance records are exactly the artifacts' and
      the projections' own: no record is missing and none is left over. */
  lemma AcceptedExport(locale: Collation, x: Export)
    requires ExportOk(locale, x)
    ensures forall i, j :: 0 <= i < j < |x.artifacts| ==> ArtifactBefore(locale, x.artifacts[i], x.artifacts[j])
    ensures Distinct(x.artifacts) && Distinct(x.artifactSources) && Elements(x.artifacts) == Elements(x.artifactSources)
    ensures Distinct(x.projectionSources) && Elements(MapSeq(RefOf, x.projections)) == Elements(x.projectionSources)
  {
    forall i, j | 0 <= i < j < |x.artifacts| ensures ArtifactBefore(locale, x.artifacts[i], x.artifacts[j]) { BeforeChains(locale, x, i, j); }
    DistinctByImage(ArtifactId, x.artifacts);
    DistinctByImage(ArtifactId, x.artifactSources);
    forall a | a in x.artifacts ensures a in x.artifactSources {
      var i :| 0 <= i < |x.artifacts| && x.artifacts[i] == a;
      assert ArtifactOk(x, x.artifacts[i]);
    }
    Pigeonhole(x.artifacts, x.artifactSources);
    ProjectionsMatch(x);
  }

  lemma ProjectionsMatch(x: Export)
    requires ProjectionSourcesOk(x) && ProjectionsOk(x)
    ensures Distinct(x.projectionSources) && Elements(MapSeq(RefOf, x.projections)) == Elements(x.projectionSources)
  {
    var refs := MapSeq(RefOf, x.projections);
    DistinctByImage(RefKey, x.projectionSources);
    assert MapSeq(RefKey, refs) == MapSeq((p: Projection) => p.ref.key, x.projections);
    DistinctByImage(RefKey, refs);
    forall r | r in refs ensures r in x.projectionSources {
      var i :| 0 <= i < |refs| && refs[i] == r;
      assert ProjectionOk(x, x.projections[i]);
    }
    Pigeonhole(refs, x.projectionSources);
  }
}
