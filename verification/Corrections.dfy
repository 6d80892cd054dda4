/** The teacher correction ledger, replayed over a fresh concept graph. */
module Corrections {
  import opened Domain
  import opened Sequences
  import opened EchoProjection

  datatype RetractTarget = RetractProjection | RetractEvidence | RetractDerivedText

  /** One parsed review command. Reviews and text corrections do not touch the graph. */
  datatype Correction =
    | NoGraphChange
    | ReplaceSpan(edgeId: string, target: EvidenceRef, span: EvidenceRef)
    | ReplaceRelation(edgeId: string, head: string, linkPhrase: string, tail: string, relationFamily: string)
    | MergeAlias(canonical: string, alias: string)
    | SplitAlias(canonical: string, alias: string, newId: string, newCaption: string)
    | UndoMerge(targetEventId: string)
    | Retract(targetType: RetractTarget, targetId: string)

  datatype Detail = Detail(reviewEventId: string, correction: Correction, sourceEventId: Option<string>)

  datatype LedgerError = InvalidCommand | TargetInvalid

  /** The semantic rules of the review command parser. */
  predicate CommandValid(c: Correction) {
    match c
    case ReplaceSpan(_, t, s) => SpanValid(t) && SpanValid(s)
    case MergeAlias(canonical, alias) => canonical != alias
    case SplitAlias(canonical, alias, newId, _) => canonical != alias && canonical != newId && alias != newId
    case _ => true
  }

  predicate SpanValid(r: EvidenceRef) { r.eventId != "" && 0 <= r.start < r.end }

  datatype LedgerState = LedgerState(graph: ConceptGraph, refs: EvidenceIndex)

  // ----- merging relations with one identity -----

  function AddChannels(a: map<string, real>, b: map<string, real>): map<string, real> {
    map n | n in a.Keys + b.Keys :: (if n in a then a[n] else 0.0) + (if n in b then b[n] else 0.0)
  }

  function Absorb(current: Relation, e: Relation): Relation {
    current.(channels := AddChannels(current.channels, e.channels), evidence := Dedupe(current.evidence + e.evidence))
  }

  function FindIdentity(es: seq<Relation>, id: Identity): (k: nat)
    ensures k <= |es|
    ensures k < |es| ==> IdentityOf(es[k]) == id
    ensures forall j :: 0 <= j < k ==> IdentityOf(es[j]) != id
  {
    if es == [] then 0 else if IdentityOf(es[0]) == id then 0 else 1 + FindIdentity(es[1..], id)
  }

  lemma FindIdentityMembership(es: seq<Relation>, id: Identity)
    ensures FindIdentity(es, id) < |es| <==> id in MapSeq(IdentityOf, es)
    ensures FindIdentity(es, id) < |es| ==> MapSeq(IdentityOf, es)[FindIdentity(es, id)] == id
  {
    var ids := MapSeq(IdentityOf, es);
    if id in ids {
      var j :| 0 <= j < |ids| && ids[j] == id;
      assert IdentityOf(es[j]) == id;
    }
  }

  function MergeOne(acc: seq<Relation>, e: Relation): seq<Relation> {
    var k := FindIdentity(acc, IdentityOf(e));
    if k < |acc| then acc[k := Absorb(acc[k], e)] else acc + [e]
  }

  function MergeFrom(es: seq<Relation>, i: nat, acc: seq<Relation>): seq<Relation>
    requires i <= |es|
    decreases |es| - i
  {
    if i == |es| then acc else MergeFrom(es, i + 1, MergeOne(acc, es[i]))
  }

  function MergeDuplicates(es: seq<Relation>): seq<Relation> { MergeFrom(es, 0, []) }

  /** A dictionary by identity and its insertion order, for the merged relations so far. */
  ghost predicate Records(order: seq<Identity>, merged: map<Identity, Relation>, acc: seq<Relation>) {
    && order == MapSeq(IdentityOf, acc) && Distinct(order)
    && (forall id :: id in merged <==> id in order)
    && (forall k :: 0 <= k < |order| ==> order[k] in merged && merged[order[k]] == acc[k])
  }

  lemma RecordsNew(order: seq<Identity>, merged: map<Identity, Relation>, acc: seq<Relation>, edge: Relation, id: Identity)
    requires Records(order, merged, acc) && id == IdentityOf(edge) && id !in merged
    ensures Records(order + [id], merged[id := edge], acc + [edge])
  {
    DistinctAppend(order, id);
    assert order + [id] == MapSeq(IdentityOf, acc + [edge]);
  }

  lemma RecordsAgain(order: seq<Identity>, merged: map<Identity, Relation>, acc: seq<Relation>, k: nat, e: Relation,
          id: Identity)
    requires Records(order, merged, acc) && k < |acc| && order[k] == id && IdentityOf(e) == id
    ensures Records(order, merged[id := e], acc[k := e])
  {
    assert order == MapSeq(IdentityOf, acc[k := e]);
    forall j | 0 <= j < |order| ensures merged[id := e][order[j]] == acc[k := e][j] {
      if j != k { assert order[j] != order[k]; }
    }
  }

  lemma RecordsStep(order: seq<Identity>, merged: map<Identity, Relation>, acc: seq<Relation>, edge: Relation)
    requires Records(order, merged, acc)
    ensures var id := IdentityOf(edge);
            if id !in merged then Records(order + [id], merged[id := edge], MergeOne(acc, edge))
            else Records(order, merged[id := Absorb(merged[id], edge)], MergeOne(acc, edge))
  {
    var id := IdentityOf(edge);
    FindIdentityMembership(acc, id);
    if id !in merged {
      RecordsNew(order, merged, acc, edge, id);
    } else {
      var k := FindIdentity(acc, id);
      RecordsAgain(order, merged, acc, k, Absorb(acc[k], edge), id);
    }
  }

  /** _merge_duplicate_edges: a dictionary by identity that remembers insertion order. */
  method MergeDuplicateEdges(es: seq<Relation>) returns (r: seq<Relation>)
    ensures r == MergeDuplicates(es)
  {
    var order: seq<Identity> := [];
    var merged: map<Identity, Relation> := map[];
    ghost var acc: seq<Relation> := [];
    var i := 0;
    while i < |es|
      invariant 0 <= i <= |es|
      invariant MergeFrom(es, i, acc) == MergeDuplicates(es)
      invariant Records(order, merged, acc)
    {
      var edge := es[i];
      var identity := IdentityOf(edge);
      RecordsStep(order, merged, acc, edge);
      if identity !in merged {
        merged := merged[identity := edge];
        order := order + [identity];
      } else {
        merged := merged[identity := Absorb(merged[identity], edge)];
      }
      acc := MergeOne(acc, edge);
      i := i + 1;
    }
    r := seq(|order|, j requires 0 <= j < |order| && order[j] in merged => merged[order[j]]);
    assert r == acc;
  }

  // ----- the seven branches -----

  function FindEdge(room: string, es: seq<Relation>, edgeId: string): (k: nat)
    ensures k <= |es|
    ensures k < |es| ==> WireEdgeId(room, IdentityOf(es[k])) == edgeId
    ensures forall j :: 0 <= j < k ==> WireEdgeId(room, IdentityOf(es[j])) != edgeId
  {
    if es == [] then 0
    else if WireEdgeId(room, IdentityOf(es[0])) == edgeId then 0
    else 1 + FindEdge(room, es[1..], edgeId)
  }

  function FindSpan(ids: seq<string>, refs: EvidenceIndex, target: EvidenceRef): (k: nat)
    ensures k <= |ids|
    ensures k < |ids| ==> ids[k] in refs && refs[ids[k]] == target
  {
    if ids == [] then 0
    else if ids[0] in refs && refs[ids[0]] == target then 0
    else 1 + FindSpan(ids[1..], refs, target)
  }

  function RenameEnds(e: Relation, from: string, to: string): Relation {
    e.(head := if e.head == from then to else e.head, tail := if e.tail == from then to else e.tail)
  }

  function RenameAll(es: seq<Relation>, from: string, to: string): seq<Relation> {
    MapSeq(e => RenameEnds(e, from, to), es)
  }

  function WithoutNode(ns: seq<Concept>, id: string): (r: seq<Concept>)
    ensures forall n :: n in r <==> n in ns && n.nodeId != id
  {
    if ns == [] then [] else (if ns[0].nodeId == id then [] else [ns[0]]) + WithoutNode(ns[1..], id)
  }

  function RenameNode(n: Concept, from: string, to: string, caption: string): Concept {
    if n.nodeId == from then n.(nodeId := to, caption := caption) else n
  }

  function WithoutEdge(room: string, es: seq<Relation>, edgeId: string): (r: seq<Relation>)
    ensures |r| <= |es|
    ensures forall e :: e in r <==> e in es && WireEdgeId(room, IdentityOf(e)) != edgeId
  {
    if es == [] then []
    else (if WireEdgeId(room, IdentityOf(es[0])) == edgeId then [] else [es[0]]) + WithoutEdge(room, es[1..], edgeId)
  }

  predicate CitesEvent(refs: EvidenceIndex, key: string, eventId: string) { key in refs && refs[key].eventId == eventId }

  function KeptEvidence(ids: seq<string>, refs: EvidenceIndex, eventId: string): (r: seq<string>)
    ensures forall k :: k in r <==> k in ids && !CitesEvent(refs, k, eventId)
  {
    if ids == [] then []
    else (if CitesEvent(refs, ids[0], eventId) then [] else [ids[0]]) + KeptEvidence(ids[1..], refs, eventId)
  }

  /** Relations lose the retracted event's evidence; a relation with no evidence left goes. */
  function WithoutEvidence(es: seq<Relation>, refs: EvidenceIndex, eventId: string): seq<Relation> {
    if es == [] then []
    else
      var kept := KeptEvidence(es[0].evidence, refs, eventId);
      (if kept == [] then [] else [es[0].(evidence := kept)]) + WithoutEvidence(es[1..], refs, eventId)
  }

  function ApplyCorrection(room: string, reviewEventId: string, source: Option<string>, c: Correction,
          s: LedgerState): Result<LedgerState, LedgerError> {
    var g := s.graph;
    match c
    case NoGraphChange => Ok(s)
    case UndoMerge(_) => Ok(s)
    case ReplaceSpan(edgeId, target, span) =>
      var i := FindEdge(room, g.edges, edgeId);
      if i == |g.edges| then Err(TargetInvalid)
      else
        var k := FindSpan(g.edges[i].evidence, s.refs, target);
        if k == |g.edges[i].evidence| then Err(TargetInvalid)
        else
          var key := "correction:" + reviewEventId;
          var edge := g.edges[i].(evidence := g.edges[i].evidence[k := key]);
          Ok(LedgerState(g.(edges := g.edges[i := edge]), s.refs[key := span]))
    case ReplaceRelation(edgeId, head, linkPhrase, tail, family) =>
      var i := FindEdge(room, g.edges, edgeId);
      if i == |g.edges| || head !in NodeIds(g) || tail !in NodeIds(g) then Err(TargetInvalid)
      else
        var edge := g.edges[i].(head := head, linkPhrase := linkPhrase, tail := tail, relationFamily := family);
        Ok(s.(graph := g.(edges := g.edges[i := edge])))
    case MergeAlias(canonical, alias) =>
      if canonical !in NodeIds(g) || alias !in NodeIds(g) then Err(TargetInvalid)
      else
        Ok(s.(graph := ConceptGraph(WithoutNode(g.nodes, alias), MergeDuplicates(RenameAll(g.edges, alias, canonical)))))
    case SplitAlias(_, alias, newId, caption) =>
      if alias !in NodeIds(g) || newId in NodeIds(g) then Err(TargetInvalid)
      else
        Ok(s.(graph := ConceptGraph(MapSeq(n => RenameNode(n, alias, newId, caption), g.nodes), RenameAll(g.edges, alias, newId))))
    case Retract(RetractProjection, edgeId) =>
      var edges := WithoutEdge(room, g.edges, edgeId);
      if |edges| == |g.edges| then Err(TargetInvalid) else Ok(s.(graph := g.(edges := edges)))
    case Retract(targetType, targetId) =>
      var event := if targetType.RetractDerivedText? then source else Some(targetId);
      if event.None? || event.value == "" then Err(TargetInvalid)
      else Ok(s.(graph := g.(edges := WithoutEvidence(g.edges, s.refs, event.value))))
  }

  function UndoneMerges(ds: seq<Detail>): (r: set<string>)
    ensures forall id :: id in r <==> exists d :: d in ds && d.correction == UndoMerge(id)
  {
    set d | d in ds && d.correction.UndoMerge? :: d.correction.targetEventId
  }

  predicate Skipped(d: Detail, undone: set<string>) {
    d.correction.MergeAlias? && d.reviewEventId in undone
  }

  function ApplyFrom(room: string, ds: seq<Detail>, undone: set<string>, i: nat,
          s: LedgerState): Result<LedgerState, LedgerError>
    requires i <= |ds|
    decreases |ds| - i
  {
    if i == |ds| then Ok(s)
    else if Skipped(ds[i], undone) then ApplyFrom(room, ds, undone, i + 1, s)
    else
      match ApplyCorrection(room, ds[i].reviewEventId, ds[i].sourceEventId, ds[i].correction, s)
      case Err(e) => Err(e)
      case Ok(s') => ApplyFrom(room, ds, undone, i + 1, s')
  }

  predicate AllValid(ds: seq<Detail>) { forall i :: 0 <= i < |ds| ==> CommandValid(ds[i].correction) }

  /** The whole ledger: every command is parsed before the first one is applied. */
  function ApplyLedger(room: string, ds: seq<Detail>, s: LedgerState): Result<LedgerState, LedgerError> {
    if !AllValid(ds) then Err(InvalidCommand) else ApplyFrom(room, ds, UndoneMerges(ds), 0, s)
  }

  /** _apply_projection_corrections. */
  method ApplyProjectionCorrections(room: string, g: ConceptGraph, index: EvidenceIndex, ds: seq<Detail>)
    returns (r: Result<LedgerState, LedgerError>)
    ensures r == ApplyLedger(room, ds, LedgerState(g, index))
  {
    if !AllValid(ds) { return Err(InvalidCommand); }
    var undone := UndoneMerges(ds);
    var s := LedgerState(g, index);
    var i := 0;
    while i < |ds|
      invariant 0 <= i <= |ds|
      invariant ApplyFrom(room, ds, undone, i, s) == ApplyLedger(room, ds, LedgerState(g, index))
    {
      if !Skipped(ds[i], undone) {
        match ds[i].correction {
          case MergeAlias(canonical, alias) =>
            if canonical !in NodeIds(s.graph) || alias !in NodeIds(s.graph) { return Err(TargetInvalid); }
            var edges := MergeDuplicateEdges(RenameAll(s.graph.edges, alias, canonical));
            s := s.(graph := ConceptGraph(WithoutNode(s.graph.nodes, alias), edges));
          case _ =>
            match ApplyCorrection(room, ds[i].reviewEventId, ds[i].sourceEventId, ds[i].correction, s) {
              case Err(e) => return Err(e);
              case Ok(s') => s := s';
            }
        }
      }
      i := i + 1;
    }
    return Ok(s);
  }
}
