/** What the correction ledger guarantees about the graph it leaves behind. */
module LedgerLaws {
  import opened Domain
  import opened Sequences
  import opened EchoProjection
  import opened Corrections

  // ----- merging conserves everything but repetition -----

  function Total(es: seq<Relation>, channel: string): real {
    if es == [] then 0.0 else Total(es[..|es| - 1], channel) + Channel(es[|es| - 1], channel)
  }

  lemma {:induction false} TotalUpdate(es: seq<Relation>, k: nat, e: Relation, channel: string)
    requires k < |es|
    ensures Total(es[k := e], channel) == Total(es, channel) - Channel(es[k], channel) + Channel(e, channel)
  {
    var n := |es| - 1;
    if k == n {
      assert es[k := e][..n] == es[..n];
    } else {
      assert es[k := e][..n] == es[..n][k := e];
      TotalUpdate(es[..n], k, e, channel);
    }
  }

  lemma MergeOneTotal(acc: seq<Relation>, e: Relation, channel: string)
    ensures Total(MergeOne(acc, e), channel) == Total(acc, channel) + Channel(e, channel)
  {
    var k := FindIdentity(acc, IdentityOf(e));
    if k < |acc| {
      TotalUpdate(acc, k, Absorb(acc[k], e), channel);
    } else {
      assert (acc + [e])[..|acc|] == acc;
    }
  }

  lemma {:induction false} MergeFromTotal(es: seq<Relation>, i: nat, acc: seq<Relation>, channel: string)
    requires i <= |es|
    ensures Total(MergeFrom(es, i, acc), channel) == Total(acc, channel) + Total(es, channel) - Total(es[..i], channel)
    decreases |es| - i
  {
    if i < |es| {
      MergeOneTotal(acc, es[i], channel);
      MergeFromTotal(es, i + 1, MergeOne(acc, es[i]), channel);
      assert es[..i + 1][..i] == es[..i];
    } else {
      assert es[..i] == es;
    }
  }

  /** Every channel's total over all relations is conserved. */
  lemma {:induction false} MergeConservesChannels(es: seq<Relation>, channel: string)
    ensures Total(MergeDuplicates(es), channel) == Total(es, channel)
  {
    MergeFromTotal(es, 0, [], channel);
  }

  ghost predicate Cites(es: seq<Relation>, key: string) { exists e :: e in es && key in e.evidence }

  ghost predicate Has(es: seq<Relation>, id: Identity) { exists e :: e in es && IdentityOf(e) == id }

  lemma MergeOneCites(acc: seq<Relation>, e: Relation, key: string)
    ensures Cites(MergeOne(acc, e), key) <==> Cites(acc, key) || key in e.evidence
  {
    var k := FindIdentity(acc, IdentityOf(e));
    var r := MergeOne(acc, e);
    if k < |acc| {
      DedupeMembers(acc[k].evidence + e.evidence);
      assert r[k] in r && acc[k] in acc;
      if Cites(acc, key) {
        var d :| d in acc && key in d.evidence;
        var j :| 0 <= j < |acc| && acc[j] == d;
        assert r[j] in r;
      }
      if Cites(r, key) {
        var d :| d in r && key in d.evidence;
        var j :| 0 <= j < |r| && r[j] == d;
        assert acc[j] in acc;
      }
    } else {
      assert r == acc + [e];
    }
  }

  lemma MergeOneIdentities(acc: seq<Relation>, e: Relation)
    requires Distinct(MapSeq(IdentityOf, acc))
    ensures Distinct(MapSeq(IdentityOf, MergeOne(acc, e)))
    ensures forall id :: Has(MergeOne(acc, e), id) <==> Has(acc, id) || id == IdentityOf(e)
  {
    var id := IdentityOf(e);
    var k := FindIdentity(acc, id);
    var r := MergeOne(acc, e);
    FindIdentityMembership(acc, id);
    if k < |acc| {
      assert MapSeq(IdentityOf, r) == MapSeq(IdentityOf, acc);
      HasIsMembership(acc);
      HasIsMembership(r);
    } else {
      assert MapSeq(IdentityOf, r) == MapSeq(IdentityOf, acc) + [id];
      DistinctAppend(MapSeq(IdentityOf, acc), id);
      HasIsMembership(acc);
      HasIsMembership(r);
    }
  }

  lemma HasIsMembership(es: seq<Relation>)
    ensures forall id :: Has(es, id) <==> id in MapSeq(IdentityOf, es)
  {
    var ids := MapSeq(IdentityOf, es);
    forall id ensures Has(es, id) <==> id in ids {
      if Has(es, id) {
        var e :| e in es && IdentityOf(e) == id;
        var j :| 0 <= j < |es| && es[j] == e;
        assert ids[j] == id;
      }
      if id in ids {
        var j :| 0 <= j < |ids| && ids[j] == id;
        assert es[j] in es;
      }
    }
  }

  lemma {:induction false} MergeFromContents(es: seq<Relation>, i: nat, acc: seq<Relation>)
    requires i <= |es| && Distinct(MapSeq(IdentityOf, acc))
    ensures Distinct(MapSeq(IdentityOf, MergeFrom(es, i, acc)))
    ensures forall key :: Cites(MergeFrom(es, i, acc), key) <==> Cites(acc, key) || Cites(es[i..], key)
    ensures forall id :: Has(MergeFrom(es, i, acc), id) <==> Has(acc, id) || Has(es[i..], id)
    decreases |es| - i
  {
    if i < |es| {
      var acc' := MergeOne(acc, es[i]);
      MergeOneIdentities(acc, es[i]);
      MergeFromContents(es, i + 1, acc');
      assert es[i..] == [es[i]] + es[i + 1..];
      forall key ensures Cites(es[i..], key) <==> key in es[i].evidence || Cites(es[i + 1..], key) {
        CitesCons(es[i], es[i + 1..], key);
      }
      forall key ensures Cites(acc', key) <==> Cites(acc, key) || key in es[i].evidence {
        MergeOneCites(acc, es[i], key);
      }
      forall id ensures Has(es[i..], id) <==> id == IdentityOf(es[i]) || Has(es[i + 1..], id) {
        HasCons(es[i], es[i + 1..], id);
      }
    }
  }

  lemma CitesCons(e: Relation, es: seq<Relation>, key: string)
    ensures Cites([e] + es, key) <==> key in e.evidence || Cites(es, key)
  {
    assert e in [e] + es;
    if Cites(es, key) {
      var d :| d in es && key in d.evidence;
      assert d in [e] + es;
    }
  }

  lemma HasCons(e: Relation, es: seq<Relation>, id: Identity)
    ensures Has([e] + es, id) <==> id == IdentityOf(e) || Has(es, id)
  {
    assert e in [e] + es;
    if Has(es, id) {
      var d :| d in es && IdentityOf(d) == id;
      assert d in [e] + es;
    }
  }

  /** Merging leaves pairwise distinct identities, exactly the identities and exactly the evidence that were there. */
  lemma {:induction false} MergeContents(es: seq<Relation>)
    ensures Distinct(MapSeq(IdentityOf, MergeDuplicates(es)))
    ensures forall key :: Cites(MergeDuplicates(es), key) <==> Cites(es, key)
    ensures forall id :: Has(MergeDuplicates(es), id) <==> Has(es, id)
  {
    MergeFromContents(es, 0, []);
    assert es[0..] == es;
  }

  // ----- merge_alias -----

  lemma RenameTotals(es: seq<Relation>, from: string, to: string, channel: string)
    ensures Total(RenameAll(es, from, to), channel) == Total(es, channel)
  {
    if es != [] {
      var n := |es| - 1;
      assert RenameAll(es, from, to)[..n] == RenameAll(es[..n], from, to);
      RenameTotals(es[..n], from, to, channel);
    }
  }

  lemma RenameCites(es: seq<Relation>, from: string, to: string, key: string)
    ensures Cites(RenameAll(es, from, to), key) <==> Cites(es, key)
  {
    var rs := RenameAll(es, from, to);
    if Cites(es, key) {
      var e :| e in es && key in e.evidence;
      var j :| 0 <= j < |es| && es[j] == e;
      assert rs[j] in rs;
    }
    if Cites(rs, key) {
      var e :| e in rs && key in e.evidence;
      var j :| 0 <= j < |rs| && rs[j] == e;
      assert es[j] in es;
    }
  }

  /** Merging an alias: no node and no relation mentions it afterwards, no relation occurs twice,
      every channel keeps its total and exactly the same evidence stays cited. */
  lemma MergeAliasEffect(room: string, id: string, source: Option<string>, canonical: string, alias: string,
          s: LedgerState, t: LedgerState)
    requires canonical != alias
    requires ApplyCorrection(room, id, source, MergeAlias(canonical, alias), s) == Ok(t)
    ensures NodeIds(t.graph) == NodeIds(s.graph) - {alias}
    ensures forall n :: n in t.graph.nodes <==> n in s.graph.nodes && n.nodeId != alias
    ensures forall e :: e in t.graph.edges ==> e.head != alias && e.tail != alias
    ensures DistinctRelations(t.graph)
    ensures forall channel :: Total(t.graph.edges, channel) == Total(s.graph.edges, channel)
    ensures forall key :: Cites(t.graph.edges, key) <==> Cites(s.graph.edges, key)
    ensures t.refs == s.refs
  {
    var renamed := RenameAll(s.graph.edges, alias, canonical);
    MergeContents(renamed);
    forall e | e in t.graph.edges ensures e.head != alias && e.tail != alias {
      assert Has(t.graph.edges, IdentityOf(e));
      var d :| d in renamed && IdentityOf(d) == IdentityOf(e);
      var j :| 0 <= j < |renamed| && renamed[j] == d;
      assert d == RenameEnds(s.graph.edges[j], alias, canonical);
    }
    forall channel ensures Total(t.graph.edges, channel) == Total(s.graph.edges, channel) {
      MergeConservesChannels(renamed, channel);
      RenameTotals(s.graph.edges, alias, canonical, channel);
    }
    forall key ensures Cites(t.graph.edges, key) <==> Cites(s.graph.edges, key) {
      RenameCites(s.graph.edges, alias, canonical, key);
    }
    WithoutNodeIds(s.graph.nodes, alias);
  }

  lemma NodeIdsMembership(ns: seq<Concept>)
    ensures forall id :: id in Elements(MapSeq(ConceptId, ns)) <==> exists n :: n in ns && n.nodeId == id
  {
    var ids := MapSeq(ConceptId, ns);
    forall id ensures id in Elements(ids) <==> exists n :: n in ns && n.nodeId == id {
      if id in ids {
        var j :| 0 <= j < |ids| && ids[j] == id;
        assert ns[j] in ns;
      }
      if n :| n in ns && n.nodeId == id {
        var j :| 0 <= j < |ns| && ns[j] == n;
        assert ids[j] == id;
      }
    }
  }

  lemma WithoutNodeIds(ns: seq<Concept>, alias: string)
    ensures Elements(MapSeq(ConceptId, WithoutNode(ns, alias))) == Elements(MapSeq(ConceptId, ns)) - {alias}
    ensures Distinct(MapSeq(ConceptId, ns)) ==> Distinct(MapSeq(ConceptId, WithoutNode(ns, alias)))
  {
    NodeIdsMembership(ns);
    NodeIdsMembership(WithoutNode(ns, alias));
    WithoutNodeDistinct(ns, alias);
  }

  lemma {:induction false} WithoutNodeDistinct(ns: seq<Concept>, alias: string)
    ensures Distinct(MapSeq(ConceptId, ns)) ==> Distinct(MapSeq(ConceptId, WithoutNode(ns, alias)))
  {
    if ns != [] && Distinct(MapSeq(ConceptId, ns)) {
      HeadApart(ConceptId, ns);
      WithoutNodeDistinct(ns[1..], alias);
      var rest := WithoutNode(ns[1..], alias);
      if ns[0].nodeId != alias {
        assert WithoutNode(ns, alias) == [ns[0]] + rest;
        ConsDistinct(ConceptId, ns[0], rest);
      } else {
        assert WithoutNode(ns, alias) == rest;
      }
    }
  }

  // ----- the invariant every correction keeps -----

  ghost predicate RefValid(refs: EvidenceIndex, key: string) {
    key in refs && refs[key].eventId != "" && refs[key].start < refs[key].end
  }

  /** Every cited key resolves to a non-empty span, and no channel is negative. */
  ghost predicate RelationSound(e: Relation, refs: EvidenceIndex) {
    && (forall k :: k in e.evidence ==> RefValid(refs, k))
    && (forall n :: n in e.channels ==> e.channels[n] >= 0.0)
  }

  ghost predicate InUnitSquare(c: Concept) { -1.0 <= c.x <= 1.0 && -1.0 <= c.y <= 1.0 }

  ghost predicate Sound(s: LedgerState) {
    && WellFormed(s.graph)
    && (forall e :: e in s.graph.edges ==> RelationSound(e, s.refs))
    && (forall c :: c in s.graph.nodes ==> InUnitSquare(c))
  }

  lemma MergeOneSound(acc: seq<Relation>, e: Relation, refs: EvidenceIndex)
    requires RelationSound(e, refs) && forall d :: d in acc ==> RelationSound(d, refs)
    ensures forall d :: d in MergeOne(acc, e) ==> RelationSound(d, refs)
  {
    var k := FindIdentity(acc, IdentityOf(e));
    if k < |acc| {
      assert acc[k] in acc;
      DedupeMembers(acc[k].evidence + e.evidence);
      assert RelationSound(Absorb(acc[k], e), refs);
    }
  }

  lemma {:induction false} MergeFromSound(es: seq<Relation>, i: nat, acc: seq<Relation>, refs: EvidenceIndex)
    requires i <= |es|
    requires forall d :: d in acc ==> RelationSound(d, refs)
    requires forall d :: d in es ==> RelationSound(d, refs)
    ensures forall d :: d in MergeFrom(es, i, acc) ==> RelationSound(d, refs)
    decreases |es| - i
  {
    if i < |es| {
      MergeOneSound(acc, es[i], refs);
      MergeFromSound(es, i + 1, MergeOne(acc, es[i]), refs);
    }
  }

  lemma RenamedEdges(es: seq<Relation>, from: string, to: string)
    ensures forall e :: e in RenameAll(es, from, to) ==> exists d :: d in es && e == RenameEnds(d, from, to)
  {
    var rs := RenameAll(es, from, to);
    forall e | e in rs ensures exists d :: d in es && e == RenameEnds(d, from, to) {
      var j :| 0 <= j < |rs| && rs[j] == e;
      assert es[j] in es && e == RenameEnds(es[j], from, to);
    }
  }

  lemma MergeKeepsSound(canonical: string, alias: string, s: LedgerState)
    requires Sound(s) && canonical != alias && canonical in NodeIds(s.graph)
    ensures Sound(s.(graph := ConceptGraph(WithoutNode(s.graph.nodes, alias), MergeDuplicates(RenameAll(s.graph.edges, alias, canonical)))))
  {
    var renamed := RenameAll(s.graph.edges, alias, canonical);
    var edges := MergeDuplicates(renamed);
    WithoutNodeIds(s.graph.nodes, alias);
    RenamedEdges(s.graph.edges, alias, canonical);
    MergeFromSound(renamed, 0, [], s.refs);
    MergeContents(renamed);
    forall e | e in edges ensures e.head in NodeIds(s.graph) - {alias} && e.tail in NodeIds(s.graph) - {alias} {
      assert Has(edges, IdentityOf(e));
      var d :| d in renamed && IdentityOf(d) == IdentityOf(e);
      var o :| o in s.graph.edges && d == RenameEnds(o, alias, canonical);
    }
  }

  lemma SplitKeepsSound(alias: string, newId: string, caption: string, s: LedgerState)
    requires Sound(s) && alias in NodeIds(s.graph) && newId !in NodeIds(s.graph)
    ensures Sound(s.(graph := ConceptGraph(MapSeq(n => RenameNode(n, alias, newId, caption), s.graph.nodes), RenameAll(s.graph.edges, alias, newId))))
  {
    var g := s.graph;
    var nodes := MapSeq(n => RenameNode(n, alias, newId, caption), g.nodes);
    var ids, ids' := MapSeq(ConceptId, g.nodes), MapSeq(ConceptId, nodes);
    assert forall k :: 0 <= k < |ids| ==> ids'[k] == if ids[k] == alias then newId else ids[k];
    forall i, j | 0 <= i < j < |ids'| ensures ids'[i] != ids'[j] {
      assert ids[i] != ids[j] && ids[i] in NodeIds(g) && ids[j] in NodeIds(g);
    }
    forall id | id in NodeIds(g) ensures (if id == alias then newId else id) in Elements(ids') {
      var k :| 0 <= k < |ids| && ids[k] == id;
      assert ids'[k] in ids';
    }
    RenamedEdges(g.edges, alias, newId);
    forall c | c in nodes ensures InUnitSquare(c) {
      var k :| 0 <= k < |nodes| && nodes[k] == c;
      assert g.nodes[k] in g.nodes;
    }
  }

  lemma {:induction false} WithoutEvidenceMembers(es: seq<Relation>, refs: EvidenceIndex, event: string)
    ensures forall e :: e in WithoutEvidence(es, refs, event) ==>
      exists d :: d in es && e == d.(evidence := KeptEvidence(d.evidence, refs, event)) && e.evidence != []
  {
    if es != [] {
      WithoutEvidenceMembers(es[1..], refs, event);
      assert es == [es[0]] + es[1..];
    }
  }

  lemma ReplaceSpanKeepsSound(s: LedgerState, i: nat, target: EvidenceRef, key: string, span: EvidenceRef)
    requires Sound(s) && SpanValid(span) && i < |s.graph.edges|
    requires FindSpan(s.graph.edges[i].evidence, s.refs, target) < |s.graph.edges[i].evidence|
    ensures var e := s.graph.edges[i];
            var e' := e.(evidence := e.evidence[FindSpan(e.evidence, s.refs, target) := key]);
            Sound(LedgerState(s.graph.(edges := s.graph.edges[i := e']), s.refs[key := span]))
  {
    var e := s.graph.edges[i];
    var e' := e.(evidence := e.evidence[FindSpan(e.evidence, s.refs, target) := key]);
    var refs := s.refs[key := span];
    assert e in s.graph.edges && RelationSound(e, s.refs);
    assert RelationSound(e', refs) by {
      forall k | k in e'.evidence ensures RefValid(refs, k) {
        if k != key { assert k in e.evidence && RefValid(s.refs, k); }
      }
    }
    var edges := s.graph.edges[i := e'];
    forall d | d in edges ensures RelationSound(d, refs) && d.head in NodeIds(s.graph) && d.tail in NodeIds(s.graph) {
      var j :| 0 <= j < |edges| && edges[j] == d;
      assert s.graph.edges[j] in s.graph.edges && RelationSound(s.graph.edges[j], s.refs);
      if j != i {
        forall k | k in d.evidence ensures RefValid(refs, k) { assert RefValid(s.refs, k); }
      }
    }
  }

  lemma ReplaceEdgeKeepsSound(s: LedgerState, i: nat, head: string, linkPhrase: string, tail: string, family: string)
    requires Sound(s) && i < |s.graph.edges| && head in NodeIds(s.graph) && tail in NodeIds(s.graph)
    ensures var e' := s.graph.edges[i].(head := head, linkPhrase := linkPhrase, tail := tail, relationFamily := family);
            Sound(s.(graph := s.graph.(edges := s.graph.edges[i := e'])))
  {
    var e' := s.graph.edges[i].(head := head, linkPhrase := linkPhrase, tail := tail, relationFamily := family);
    var edges := s.graph.edges[i := e'];
    assert RelationSound(s.graph.edges[i], s.refs);
    forall d | d in edges ensures RelationSound(d, s.refs) && d.head in NodeIds(s.graph) && d.tail in NodeIds(s.graph) {
      var j :| 0 <= j < |edges| && edges[j] == d;
      assert s.graph.edges[j] in s.graph.edges;
    }
  }

  /** Each accepted correction keeps the graph well formed, its evidence resolvable and its numbers in range. */
  lemma CorrectionKeepsSound(room: string, id: string, source: Option<string>, c: Correction, s: LedgerState, t: LedgerState)
    requires Sound(s) && CommandValid(c) && ApplyCorrection(room, id, source, c, s) == Ok(t)
    ensures Sound(t)
  {
    match c
    case NoGraphChange =>
    case UndoMerge(_) =>
    case ReplaceSpan(edgeId, target, span) =>
      ReplaceSpanKeepsSound(s, FindEdge(room, s.graph.edges, edgeId), target, "correction:" + id, span);
    case ReplaceRelation(edgeId, head, linkPhrase, tail, family) =>
      ReplaceEdgeKeepsSound(s, FindEdge(room, s.graph.edges, edgeId), head, linkPhrase, tail, family);
    case MergeAlias(canonical, alias) => MergeKeepsSound(canonical, alias, s);
    case SplitAlias(_, alias, newId, caption) => SplitKeepsSound(alias, newId, caption, s);
    case Retract(RetractProjection, _) =>
    case Retract(targetType, targetId) =>
      var event := if targetType.RetractDerivedText? then source else Some(targetId);
      WithoutEvidenceMembers(s.graph.edges, s.refs, event.value);
  }

  lemma {:induction false} ApplyFromKeepsSound(room: string, ds: seq<Detail>, undone: set<string>, i: nat,
          s: LedgerState, t: LedgerState)
    requires i <= |ds| && AllValid(ds) && Sound(s) && ApplyFrom(room, ds, undone, i, s) == Ok(t)
    ensures Sound(t)
    decreases |ds| - i
  {
    if i < |ds| {
      if Skipped(ds[i], undone) {
        ApplyFromKeepsSound(room, ds, undone, i + 1, s, t);
      } else {
        var s' := ApplyCorrection(room, ds[i].reviewEventId, ds[i].sourceEventId, ds[i].correction, s).value;
        CorrectionKeepsSound(room, ds[i].reviewEventId, ds[i].sourceEventId, ds[i].correction, s, s');
        ApplyFromKeepsSound(room, ds, undone, i + 1, s', t);
      }
    }
  }

  /** A sound graph always projects. */
  lemma SoundProjects(room: string, s: LedgerState, approvedEdges: set<string>, approvedNodes: set<string>)
    requires Sound(s)
    ensures Projected(room, s.graph, s.refs, approvedEdges, approvedNodes).Ok?
  {
    EdgesProject(room, s.graph.edges, s.refs, approvedEdges, 0, []);
    var edges := ProjectEdges(room, s.graph.edges, s.refs, approvedEdges, 0, []).value;
    NodesProject(s.graph.nodes, s.graph.edges, approvedNodes + Endpoints(ApprovedEdges(edges)), 0, []);
  }

  lemma {:induction false} EdgesProject(room: string, es: seq<Relation>, refs: EvidenceIndex, approved: set<string>,
          i: nat, done: seq<Edge>)
    requires i <= |es| && forall e :: e in es ==> RelationSound(e, refs)
    ensures ProjectEdges(room, es, refs, approved, i, done).Ok?
    decreases |es| - i
  {
    if i < |es| {
      assert RelationSound(es[i], refs);
      var e := ProjectEdge(room, es[i], refs, approved);
      assert e.Ok?;
      EdgesProject(room, es, refs, approved, i + 1, done + [e.value]);
    }
  }

  lemma {:induction false} NodesProject(cs: seq<Concept>, es: seq<Relation>, shown: set<string>, i: nat, done: seq<Node>)
    requires i <= |cs| && forall c :: c in cs ==> InUnitSquare(c)
    ensures ProjectNodes(cs, es, shown, i, done).Ok?
    decreases |cs| - i
  {
    if i < |cs| {
      assert InUnitSquare(cs[i]);
      var n := ProjectNode(cs[i], es, shown);
      assert n.Ok?;
      NodesProject(cs, es, shown, i + 1, done + [n.value]);
    }
  }

  /** Whatever the ledger accepts, the corrected graph is sound and both views of it exist. */
  lemma {:induction false} LedgerKeepsSound(room: string, ds: seq<Detail>, s: LedgerState, t: LedgerState,
          approvedEdges: set<string>, approvedNodes: set<string>)
    requires Sound(s) && ApplyLedger(room, ds, s) == Ok(t)
    ensures Sound(t)
    ensures Projected(room, t.graph, t.refs, approvedEdges, approvedNodes).Ok?
  {
    ApplyFromKeepsSound(room, ds, UndoneMerges(ds), 0, s, t);
    SoundProjects(room, t, approvedEdges, approvedNodes);
  }

  // ----- undoing a merge -----

  ghost predicate DistinctReviews(ds: seq<Detail>) {
    Distinct(MapSeq((d: Detail) => d.reviewEventId, ds))
  }

  /** What the replay does with a ledger, command by command, without looking at its indices. */
  function Run(room: string, ds: seq<Detail>, undone: set<string>, s: LedgerState): Result<LedgerState, LedgerError> {
    if ds == [] then Ok(s)
    else if Skipped(ds[0], undone) then Run(room, ds[1..], undone, s)
    else
      match ApplyCorrection(room, ds[0].reviewEventId, ds[0].sourceEventId, ds[0].correction, s)
      case Err(e) => Err(e)
      case Ok(s') => Run(room, ds[1..], undone, s')
  }

  lemma {:induction false} ApplyFromIsRun(room: string, ds: seq<Detail>, undone: set<string>, i: nat, s: LedgerState)
    requires i <= |ds|
    ensures ApplyFrom(room, ds, undone, i, s) == Run(room, ds[i..], undone, s)
    decreases |ds| - i
  {
    if i < |ds| {
      assert ds[i..][0] == ds[i] && ds[i..][1..] == ds[i + 1..];
      if Skipped(ds[i], undone) {
        ApplyFromIsRun(room, ds, undone, i + 1, s);
      } else {
        var r := ApplyCorrection(room, ds[i].reviewEventId, ds[i].sourceEventId, ds[i].correction, s);
        if r.Ok? { ApplyFromIsRun(room, ds, undone, i + 1, r.value); }
      }
    }
  }

  /** The commands that still count: undo commands and the merges they undo are dropped. */
  function Live(ds: seq<Detail>, undone: set<string>): seq<Detail> {
    if ds == [] then []
    else (if Skipped(ds[0], undone) || ds[0].correction.UndoMerge? then [] else [ds[0]]) + Live(ds[1..], undone)
  }

  lemma {:induction false} RunIsRunLive(room: string, ds: seq<Detail>, undone: set<string>, s: LedgerState)
    ensures Run(room, ds, undone, s) == Run(room, Live(ds, undone), {}, s)
  {
    if ds != [] {
      var rest := Live(ds[1..], undone);
      if Skipped(ds[0], undone) || ds[0].correction.UndoMerge? {
        assert Live(ds, undone) == rest;
        RunIsRunLive(room, ds[1..], undone, s);
      } else {
        assert Live(ds, undone) == [ds[0]] + rest && ([ds[0]] + rest)[1..] == rest;
        var r := ApplyCorrection(room, ds[0].reviewEventId, ds[0].sourceEventId, ds[0].correction, s);
        if r.Ok? { RunIsRunLive(room, ds[1..], undone, r.value); }
      }
    }
  }

  lemma {:induction false} LiveConcat(a: seq<Detail>, b: seq<Detail>, undone: set<string>)
    ensures Live(a + b, undone) == Live(a, undone) + Live(b, undone)
  {
    if a == [] {
      assert a + b == b;
    } else {
      assert (a + b)[0] == a[0] && (a + b)[1..] == a[1..] + b;
      LiveConcat(a[1..], b, undone);
    }
  }

  /** A review identifier that no merge carries makes no difference to what counts. */
  lemma {:induction false} LiveIgnores(ds: seq<Detail>, undone: set<string>, id: string)
    requires forall d :: d in ds && d.correction.MergeAlias? ==> d.reviewEventId != id
    ensures Live(ds, undone + {id}) == Live(ds, undone)
  {
    if ds != [] {
      assert ds[0] in ds;
      LiveIgnores(ds[1..], undone, id);
    }
  }

  /** A merge and a later undo of it, anywhere in a ledger, leave exactly what the ledger without both leaves. */
  lemma {:induction false} UndoErasesMerge(room: string, a: seq<Detail>, merge: Detail, b: seq<Detail>, undo: Detail,
          c: seq<Detail>, s: LedgerState)
    requires merge.correction.MergeAlias? && CommandValid(merge.correction)
    requires undo.correction == UndoMerge(merge.reviewEventId)
    requires DistinctReviews(a + [merge] + b + [undo] + c)
    ensures ApplyLedger(room, a + [merge] + b + [undo] + c, s) == ApplyLedger(room, a + b + c, s)
  {
    var full, short := a + [merge] + b + [undo] + c, a + b + c;
    var id := merge.reviewEventId;
    assert forall d :: d in full <==> d in short || d == merge || d == undo;
    AllValidIsMembership(full);
    AllValidIsMembership(short);
    var undone := UndoneMerges(short);
    assert UndoneMerges(full) == undone + {id};
    OthersDiffer(a, merge, b, undo, c);
    ApplyFromIsRun(room, full, undone + {id}, 0, s);
    ApplyFromIsRun(room, short, undone, 0, s);
    assert full[0..] == full && short[0..] == short;
    RunIsRunLive(room, full, undone + {id}, s);
    RunIsRunLive(room, short, undone, s);
    LiveWithoutPair(a, merge, b, undo, c, undone);
  }

  lemma LiveWithoutPair(a: seq<Detail>, merge: Detail, b: seq<Detail>, undo: Detail, c: seq<Detail>, undone: set<string>)
    requires merge.correction.MergeAlias? && undo.correction.UndoMerge?
    requires forall d :: d in a || d in b || d in c ==> d.reviewEventId != merge.reviewEventId
    ensures Live(a + [merge] + b + [undo] + c, undone + {merge.reviewEventId}) == Live(a + b + c, undone)
  {
    var u := undone + {merge.reviewEventId};
    assert a + [merge] + b + [undo] + c == a + [merge] + (b + [undo] + c);
    LiveDrops(a, merge, b + [undo] + c, u);
    assert a + (b + [undo] + c) == (a + b) + [undo] + c;
    LiveDrops(a + b, undo, c, u);
    LiveIgnores(a + b + c, undone, merge.reviewEventId);
  }

  lemma LiveDrops(a: seq<Detail>, d: Detail, rest: seq<Detail>, undone: set<string>)
    requires Skipped(d, undone) || d.correction.UndoMerge?
    ensures Live(a + [d] + rest, undone) == Live(a + rest, undone)
  {
    assert a + [d] + rest == a + ([d] + rest);
    LiveConcat(a, [d] + rest, undone);
    LiveConcat([d], rest, undone);
    LiveConcat(a, rest, undone);
    assert Live([d], undone) == [];
  }

  lemma AllValidIsMembership(ds: seq<Detail>)
    ensures AllValid(ds) <==> forall d :: d in ds ==> CommandValid(d.correction)
  {
    if AllValid(ds) {
      forall d | d in ds ensures CommandValid(d.correction) {
        var j :| 0 <= j < |ds| && ds[j] == d;
      }
    }
  }

  lemma OthersDiffer(a: seq<Detail>, merge: Detail, b: seq<Detail>, undo: Detail, c: seq<Detail>)
    requires DistinctReviews(a + [merge] + b + [undo] + c)
    ensures forall d :: d in a || d in b || d in c ==> d.reviewEventId != merge.reviewEventId
  {
    var full := a + [merge] + b + [undo] + c;
    var ids := MapSeq((d: Detail) => d.reviewEventId, full);
    var m := |a|;
    assert full[m] == merge;
    forall d | d in a || d in b || d in c ensures d.reviewEventId != merge.reviewEventId {
      var k :| 0 <= k < |full| && full[k] == d && k != m by {
        if d in a {
          var j :| 0 <= j < |a| && a[j] == d;
          assert full[j] == d;
        } else if d in b {
          var j :| 0 <= j < |b| && b[j] == d;
          assert full[m + 1 + j] == d;
        } else {
          var j :| 0 <= j < |c| && c[j] == d;
          assert full[m + 1 + |b| + 1 + j] == d;
        }
      }
      assert ids[k] != ids[m];
    }
  }

  // ----- when relation identities stay distinct -----

  /** replace_relation does not merge: it keeps identities distinct exactly when no other relation has the new one. */
  lemma ReplaceRelationDistinct(room: string, id: string, source: Option<string>, c: Correction, s: LedgerState,
          t: LedgerState)
    requires c.ReplaceRelation? && DistinctRelations(s.graph)
    requires ApplyCorrection(room, id, source, c, s) == Ok(t)
    ensures var i := FindEdge(room, s.graph.edges, c.edgeId);
            DistinctRelations(t.graph) <==>
              forall j :: 0 <= j < |s.graph.edges| && j != i ==>
                IdentityOf(s.graph.edges[j]) != (c.head, c.linkPhrase, c.tail, c.relationFamily)
  {
    var i := FindEdge(room, s.graph.edges, c.edgeId);
    var ids, ids' := MapSeq(IdentityOf, s.graph.edges), MapSeq(IdentityOf, t.graph.edges);
    var next := (c.head, c.linkPhrase, c.tail, c.relationFamily);
    assert ids' == ids[i := next];
    if j :| 0 <= j < |ids| && j != i && ids[j] == next {
      assert ids'[j] == ids'[i];
    }
  }

  /** Two relations that differ only in their phrase, after a correction that makes the phrases equal. */
  lemma ReplaceRelationCanRepeat() returns (s: LedgerState, c: Correction, t: LedgerState)
    ensures Sound(s) && DistinctRelations(s.graph) && CommandValid(c)
    ensures ApplyCorrection("r", "v", None, c, s) == Ok(t) && !DistinctRelations(t.graph)
  {
    var a, b := Relation("x", "p", "x", "f", "uncertain", map[], []), Relation("x", "q", "x", "f", "uncertain", map[], []);
    var nodes := [Concept("x", "x", 0.0, 0.0)];
    s := LedgerState(ConceptGraph(nodes, [a, b]), map[]);
    assert MapSeq(ConceptId, nodes) == ["x"];
    TwoRelations(a, b);
    var edgeId := WireEdgeId("r", IdentityOf(b));
    SecondEdge(a, b);
    c := ReplaceRelation(edgeId, "x", "p", "x", "f");
    assert [a, b][1 := a] == [a, a];
    t := LedgerState(ConceptGraph(nodes, [a, a]), map[]);
    TwoRelations(a, a);
  }

  lemma TwoRelations(a: Relation, b: Relation)
    ensures Distinct(MapSeq(IdentityOf, [a, b])) <==> IdentityOf(a) != IdentityOf(b)
  {
    var ids := MapSeq(IdentityOf, [a, b]);
    assert ids[0] == IdentityOf(a) && ids[1] == IdentityOf(b);
  }

  lemma SecondEdge(a: Relation, b: Relation)
    requires IdentityOf(a) != IdentityOf(b)
    ensures FindEdge("r", [a, b], WireEdgeId("r", IdentityOf(b))) == 1
  {
    if WireEdgeId("r", IdentityOf(a)) == WireEdgeId("r", IdentityOf(b)) {
      WireEdgeIdInjective("r", IdentityOf(a), IdentityOf(b));
    }
    assert [a, b][1..] == [b];
  }

  /** A replacement that gives one relation the identity another one already has. */
  ghost predicate Collides(room: string, c: Correction, s: LedgerState) {
    c.ReplaceRelation? &&
    exists j :: 0 <= j < |s.graph.edges| && j != FindEdge(room, s.graph.edges, c.edgeId)
                && IdentityOf(s.graph.edges[j]) == (c.head, c.linkPhrase, c.tail, c.relationFamily)
  }

  /** Of all corrections only a colliding replacement makes an identity occur twice. */
  lemma CorrectionKeepsDistinct(room: string, id: string, source: Option<string>, c: Correction, s: LedgerState,
          t: LedgerState)
    requires Sound(s) && DistinctRelations(s.graph) && CommandValid(c) && ApplyCorrection(room, id, source, c, s) == Ok(t)
    ensures DistinctRelations(t.graph) <==> !Collides(room, c, s)
  {
    var es := s.graph.edges;
    match c
    case ReplaceSpan(edgeId, target, span) => assert MapSeq(IdentityOf, t.graph.edges) == MapSeq(IdentityOf, es);
    case ReplaceRelation(_, _, _, _, _) => ReplaceRelationDistinct(room, id, source, c, s, t);
    case MergeAlias(canonical, alias) => MergeContents(RenameAll(es, alias, canonical));
    case SplitAlias(_, alias, newId, _) => RenameKeepsDistinct(s.graph, alias, newId);
    case Retract(RetractProjection, edgeId) => WithoutEdgeDistinct(room, es, edgeId);
    case Retract(targetType, targetId) =>
      WithoutEvidenceDistinct(es, s.refs, (if targetType.RetractDerivedText? then source else Some(targetId)).value);
    case _ =>
  }

  /** Renaming to a name nobody has keeps identities apart. */
  lemma RenameKeepsDistinct(g: ConceptGraph, from: string, to: string)
    requires EndpointsPresent(g) && DistinctRelations(g) && to !in NodeIds(g)
    ensures Distinct(MapSeq(IdentityOf, RenameAll(g.edges, from, to)))
  {
    var ids, ids' := MapSeq(IdentityOf, g.edges), MapSeq(IdentityOf, RenameAll(g.edges, from, to));
    forall i, j | 0 <= i < j < |ids'| ensures ids'[i] != ids'[j] {
      var d, e := g.edges[i], g.edges[j];
      assert ids[i] != ids[j] && d in g.edges && e in g.edges;
      assert to != d.head && to != d.tail && to != e.head && to != e.tail;
    }
  }

  lemma {:induction false} WithoutEdgeDistinct(room: string, es: seq<Relation>, edgeId: string)
    ensures Distinct(MapSeq(IdentityOf, es)) ==> Distinct(MapSeq(IdentityOf, WithoutEdge(room, es, edgeId)))
  {
    if es != [] && Distinct(MapSeq(IdentityOf, es)) {
      HeadApart(IdentityOf, es);
      WithoutEdgeDistinct(room, es[1..], edgeId);
      var rest := WithoutEdge(room, es[1..], edgeId);
      if WireEdgeId(room, IdentityOf(es[0])) != edgeId {
        assert WithoutEdge(room, es, edgeId) == [es[0]] + rest;
        ConsDistinct(IdentityOf, es[0], rest);
      }
    }
  }

  lemma {:induction false} WithoutEvidenceDistinct(es: seq<Relation>, refs: EvidenceIndex, event: string)
    ensures Distinct(MapSeq(IdentityOf, es)) ==> Distinct(MapSeq(IdentityOf, WithoutEvidence(es, refs, event)))
  {
    if es != [] && Distinct(MapSeq(IdentityOf, es)) {
      HeadApart(IdentityOf, es);
      WithoutEvidenceDistinct(es[1..], refs, event);
      var rest, kept := WithoutEvidence(es[1..], refs, event), KeptEvidence(es[0].evidence, refs, event);
      WithoutEvidenceMembers(es[1..], refs, event);
      if kept != [] {
        assert WithoutEvidence(es, refs, event) == [es[0].(evidence := kept)] + rest;
        ConsDistinct(IdentityOf, es[0].(evidence := kept), rest);
      }
    }
  }

  /** No replacement that the ledger gets to collides with the graph it meets. */
  ghost predicate NoCollision(room: string, ds: seq<Detail>, undone: set<string>, i: nat, s: LedgerState)
    requires i <= |ds|
    decreases |ds| - i
  {
    i < |ds| ==>
      if Skipped(ds[i], undone) then NoCollision(room, ds, undone, i + 1, s)
      else
        match ApplyCorrection(room, ds[i].reviewEventId, ds[i].sourceEventId, ds[i].correction, s)
        case Err(_) => true
        case Ok(s') => !Collides(room, ds[i].correction, s) && NoCollision(room, ds, undone, i + 1, s')
  }

  lemma {:induction false} ApplyFromKeepsDistinct(room: string, ds: seq<Detail>, undone: set<string>, i: nat,
          s: LedgerState, t: LedgerState)
    requires i <= |ds| && AllValid(ds) && Sound(s) && DistinctRelations(s.graph)
    requires ApplyFrom(room, ds, undone, i, s) == Ok(t) && NoCollision(room, ds, undone, i, s)
    ensures DistinctRelations(t.graph)
    decreases |ds| - i
  {
    if i < |ds| {
      if Skipped(ds[i], undone) {
        ApplyFromKeepsDistinct(room, ds, undone, i + 1, s, t);
      } else {
        var d := ds[i];
        var s' := ApplyCorrection(room, d.reviewEventId, d.sourceEventId, d.correction, s).value;
        CorrectionKeepsSound(room, d.reviewEventId, d.sourceEventId, d.correction, s, s');
        CorrectionKeepsDistinct(room, d.reviewEventId, d.sourceEventId, d.correction, s, s');
        ApplyFromKeepsDistinct(room, ds, undone, i + 1, s', t);
      }
    }
  }

  /** A ledger whose replacements never collide leaves a sound graph in which no relation occurs twice. */
  lemma {:induction false} LedgerKeepsDistinct(room: string, ds: seq<Detail>, s: LedgerState, t: LedgerState)
    requires Sound(s) && DistinctRelations(s.graph) && ApplyLedger(room, ds, s) == Ok(t)
    requires NoCollision(room, ds, UndoneMerges(ds), 0, s)
    ensures Sound(t) && DistinctRelations(t.graph)
  {
    ApplyFromKeepsSound(room, ds, UndoneMerges(ds), 0, s, t);
    ApplyFromKeepsDistinct(room, ds, UndoneMerges(ds), 0, s, t);
  }

  // ----- the other corrections, one by one -----

  /** Replacing a span: the first citation of the target on the first relation with the wire id gets a key of its own,
      which stands for the new span. */
  lemma ReplaceSpanEffect(room: string, id: string, source: Option<string>, edgeId: string, target: EvidenceRef,
          span: EvidenceRef, s: LedgerState, t: LedgerState) returns (i: nat, k: nat)
    requires ApplyCorrection(room, id, source, ReplaceSpan(edgeId, target, span), s) == Ok(t)
    ensures i < |s.graph.edges| && WireEdgeId(room, IdentityOf(s.graph.edges[i])) == edgeId
    ensures forall j :: 0 <= j < i ==> WireEdgeId(room, IdentityOf(s.graph.edges[j])) != edgeId
    ensures k < |s.graph.edges[i].evidence| && Cited(s, i, k, target) && forall l :: 0 <= l < k ==> !Cited(s, i, l, target)
    ensures t.graph.nodes == s.graph.nodes && |t.graph.edges| == |s.graph.edges|
    ensures forall j :: 0 <= j < |s.graph.edges| && j != i ==> t.graph.edges[j] == s.graph.edges[j]
    ensures var e, f := s.graph.edges[i], t.graph.edges[i];
            && SameButEvidence(e, f) && |f.evidence| == |e.evidence|
            && (forall l :: 0 <= l < |e.evidence| && l != k ==> f.evidence[l] == e.evidence[l])
            && f.evidence[k] == "correction:" + id
    ensures t.refs.Keys == s.refs.Keys + {"correction:" + id} && t.refs["correction:" + id] == span
    ensures forall l :: l in s.refs && l != "correction:" + id ==> t.refs[l] == s.refs[l]
  {
    i := FindEdge(room, s.graph.edges, edgeId);
    k := FindSpan(s.graph.edges[i].evidence, s.refs, target);
    FindSpanFirst(s.graph.edges[i].evidence, s.refs, target);
  }

  ghost predicate Cited(s: LedgerState, i: nat, k: nat, target: EvidenceRef)
    requires i < |s.graph.edges| && k < |s.graph.edges[i].evidence|
  {
    s.graph.edges[i].evidence[k] in s.refs && s.refs[s.graph.edges[i].evidence[k]] == target
  }

  ghost predicate SameButEvidence(e: Relation, f: Relation) {
    && f.head == e.head && f.linkPhrase == e.linkPhrase && f.tail == e.tail && f.relationFamily == e.relationFamily
    && f.status == e.status && f.channels == e.channels
  }

  lemma {:induction false} FindSpanFirst(ids: seq<string>, refs: EvidenceIndex, target: EvidenceRef)
    ensures forall l :: 0 <= l < FindSpan(ids, refs, target) ==> !(ids[l] in refs && refs[ids[l]] == target)
  {
    if ids != [] {
      FindSpanFirst(ids[1..], refs, target);
      forall l | 0 <= l < FindSpan(ids, refs, target) ensures !(ids[l] in refs && refs[ids[l]] == target) {
        if l > 0 { assert ids[1..][l - 1] == ids[l]; }
      }
    }
  }

  /** Splitting an alias renames it everywhere and nothing else: its node carries the new name and caption where it
      was, every other node is the same, and relations change only in ends that named the alias. */
  lemma SplitAliasEffect(room: string, id: string, source: Option<string>, canonical: string, alias: string,
          newId: string, caption: string, s: LedgerState, t: LedgerState)
    requires CommandValid(SplitAlias(canonical, alias, newId, caption))
    requires ApplyCorrection(room, id, source, SplitAlias(canonical, alias, newId, caption), s) == Ok(t)
    ensures NodeIds(t.graph) == NodeIds(s.graph) - {alias} + {newId}
    ensures |t.graph.nodes| == |s.graph.nodes| && |t.graph.edges| == |s.graph.edges| && t.refs == s.refs
    ensures forall i :: 0 <= i < |s.graph.nodes| ==>
      var n, m := s.graph.nodes[i], t.graph.nodes[i];
      && (n.nodeId != alias ==> m == n)
      && (n.nodeId == alias ==> m.nodeId == newId && m.caption == caption && m.x == n.x && m.y == n.y)
    ensures forall i :: 0 <= i < |s.graph.edges| ==>
      var e, f := s.graph.edges[i], t.graph.edges[i];
      && f.head == (if e.head == alias then newId else e.head) && f.tail == (if e.tail == alias then newId else e.tail)
      && f.head != alias && f.tail != alias
      && f.linkPhrase == e.linkPhrase && f.relationFamily == e.relationFamily && f.status == e.status
      && f.channels == e.channels && f.evidence == e.evidence
  {
    RenameNodeIds(s.graph.nodes, t.graph.nodes, alias, newId, caption);
  }

  lemma RenameNodeIds(ns: seq<Concept>, ms: seq<Concept>, from: string, to: string, caption: string)
    requires ms == MapSeq(n => RenameNode(n, from, to, caption), ns)
    requires from in Elements(MapSeq(ConceptId, ns))
    ensures Elements(MapSeq(ConceptId, ms)) == Elements(MapSeq(ConceptId, ns)) - {from} + {to}
  {
    var ids, ids' := MapSeq(ConceptId, ns), MapSeq(ConceptId, ms);
    assert forall i :: 0 <= i < |ids| ==> ids'[i] == if ids[i] == from then to else ids[i];
    forall x ensures x in Elements(ids') <==> x in Elements(ids) - {from} + {to} {
      if x in Elements(ids) && x != from {
        var i :| 0 <= i < |ids| && ids[i] == x;
        assert ids'[i] == x;
      }
      if x == to {
        var i :| 0 <= i < |ids| && ids[i] == from;
        assert ids'[i] == to;
      }
      if x in Elements(ids') {
        var i :| 0 <= i < |ids'| && ids'[i] == x;
        assert ids[i] in Elements(ids);
      }
    }
  }

  /** Retracting evidence, or the source event of a derived text: no relation cites the event any more, and the
      relations are exactly those that had other evidence, with exactly that evidence. */
  lemma RetractEvidenceEffect(room: string, id: string, source: Option<string>, targetType: RetractTarget,
          targetId: string, s: LedgerState, t: LedgerState) returns (event: string)
    requires !targetType.RetractProjection?
    requires ApplyCorrection(room, id, source, Retract(targetType, targetId), s) == Ok(t)
    ensures event != "" && Some(event) == if targetType.RetractDerivedText? then source else Some(targetId)
    ensures t.graph.nodes == s.graph.nodes && t.refs == s.refs
    ensures forall f, k :: f in t.graph.edges && k in f.evidence ==> !CitesEvent(t.refs, k, event)
    ensures forall f :: f in t.graph.edges <==>
      exists e :: e in s.graph.edges && KeptEvidence(e.evidence, s.refs, event) != []
                  && f == e.(evidence := KeptEvidence(e.evidence, s.refs, event))
  {
    event := (if targetType.RetractDerivedText? then source else Some(targetId)).value;
    WithoutEvidenceContents(s.graph.edges, s.refs, event);
  }

  /** Retracting a projection removes exactly the relations with that wire id. */
  lemma RetractProjectionEffect(room: string, id: string, source: Option<string>, edgeId: string, s: LedgerState,
          t: LedgerState)
    requires ApplyCorrection(room, id, source, Retract(RetractProjection, edgeId), s) == Ok(t)
    ensures t.graph.nodes == s.graph.nodes && t.refs == s.refs
    ensures forall e :: e in t.graph.edges <==> e in s.graph.edges && WireEdgeId(room, IdentityOf(e)) != edgeId
    ensures exists e :: e in s.graph.edges && WireEdgeId(room, IdentityOf(e)) == edgeId
  {
    if forall e :: e in s.graph.edges ==> WireEdgeId(room, IdentityOf(e)) != edgeId {
      WithoutNothing(room, s.graph.edges, edgeId);
    }
  }

  lemma {:induction false} WithoutNothing(room: string, es: seq<Relation>, edgeId: string)
    requires forall e :: e in es ==> WireEdgeId(room, IdentityOf(e)) != edgeId
    ensures WithoutEdge(room, es, edgeId) == es
  {
    if es != [] { WithoutNothing(room, es[1..], edgeId); }
  }

  lemma {:induction false} WithoutEvidenceContents(es: seq<Relation>, refs: EvidenceIndex, event: string)
    ensures forall f :: f in WithoutEvidence(es, refs, event) <==>
      exists e :: e in es && KeptEvidence(e.evidence, refs, event) != []
                  && f == e.(evidence := KeptEvidence(e.evidence, refs, event))
  {
    if es != [] {
      WithoutEvidenceContents(es[1..], refs, event);
      var r, rest := WithoutEvidence(es, refs, event), WithoutEvidence(es[1..], refs, event);
      var first := es[0].(evidence := KeptEvidence(es[0].evidence, refs, event));
      assert r == (if first.evidence == [] then [] else [first]) + rest;
      forall f ensures f in r <==> Survives(es, refs, event, f) {
        assert f in r <==> (first.evidence != [] && f == first) || f in rest;
        assert f in rest <==> Survives(es[1..], refs, event, f);
        SurvivesCons(es, refs, event, f);
      }
    }
  }

  ghost predicate Survives(es: seq<Relation>, refs: EvidenceIndex, event: string, f: Relation) {
    exists e :: e in es && KeptEvidence(e.evidence, refs, event) != []
                && f == e.(evidence := KeptEvidence(e.evidence, refs, event))
  }

  lemma SurvivesCons(es: seq<Relation>, refs: EvidenceIndex, event: string, f: Relation)
    requires es != []
    ensures var kept := KeptEvidence(es[0].evidence, refs, event);
            Survives(es, refs, event, f) <==> (kept != [] && f == es[0].(evidence := kept)) || Survives(es[1..], refs, event, f)
  {
    assert forall e :: e in es <==> e == es[0] || e in es[1..];
  }
}
