/** The adapter from the reference concept graph to the two wire snapshots, and the contract they must meet. */
module EchoProjection {
  import opened Domain
  import opened Sequences
  import opened EchoMap
  import JsonText

  // ----- the graph the reference algorithm and the correction ledger produce -----

  datatype Concept = Concept(nodeId: string, caption: string, x: real, y: real)

  datatype Relation = Relation(
    head: string, linkPhrase: string, tail: string, relationFamily: string,
    status: string, channels: map<string, real>, evidence: seq<string>)

  datatype ConceptGraph = ConceptGraph(nodes: seq<Concept>, edges: seq<Relation>)

  type EvidenceIndex = map<string, EvidenceRef>

  type Identity = (string, string, string, string)

  function ConceptId(c: Concept): string { c.nodeId }

  function IdentityOf(e: Relation): Identity { (e.head, e.linkPhrase, e.tail, e.relationFamily) }

  function NodeIds(g: ConceptGraph): set<string> { Elements(MapSeq(ConceptId, g.nodes)) }

  ghost predicate EndpointsPresent(g: ConceptGraph) {
    forall e :: e in g.edges ==> e.head in NodeIds(g) && e.tail in NodeIds(g)
  }

  ghost predicate WellFormed(g: ConceptGraph) {
    Distinct(MapSeq(ConceptId, g.nodes)) && EndpointsPresent(g)
  }

  ghost predicate DistinctRelations(g: ConceptGraph) {
    Distinct(MapSeq(IdentityOf, g.edges))
  }

  /** echo_wire_edge_id: the UUIDv5 of this name, with the name standing for it. */
  function WireEdgeId(room: string, i: Identity): string {
    JsonText.QuoteList([room, i.0, i.1, i.2, i.3])
  }

  lemma WireEdgeIdInjective(room: string, a: Identity, b: Identity)
    requires WireEdgeId(room, a) == WireEdgeId(room, b)
    ensures a == b
  {
    var xs, ys := [room, a.0, a.1, a.2, a.3], [room, b.0, b.1, b.2, b.3];
    JsonText.QuoteListInjective(xs, ys);
    assert xs[1] == ys[1] && xs[2] == ys[2] && xs[3] == ys[3] && xs[4] == ys[4];
  }

  // ----- projecting -----

  datatype ProjectError = UnknownEvidence | InvalidSpan | InvalidChannel | InvalidPosition

  function Channel(e: Relation, name: string): real {
    if name in e.channels then e.channels[name] else 0.0
  }

  function ChannelsOf(e: Relation): Channels {
    Channels(Channel(e, "support"), Channel(e, "challenge"), Channel(e, "uncertain"), Channel(e, "question"))
  }

  function Max(a: real, b: real): real { if a < b then b else a }

  function Activity(c: Channels): real {
    Max(Max(c.support, c.challenge), Max(c.uncertain, c.question))
  }

  predicate NonNegative(c: Channels) {
    c.support >= 0.0 && c.challenge >= 0.0 && c.uncertain >= 0.0 && c.question >= 0.0
  }

  function ResolveRefs(ids: seq<string>, index: EvidenceIndex): (r: Result<seq<EvidenceRef>, ProjectError>)
    ensures r.Ok? <==> forall k :: k in ids ==> k in index && index[k].eventId != "" && index[k].start < index[k].end
    ensures r.Ok? ==> |r.value| == |ids| && forall i :: 0 <= i < |ids| ==> r.value[i] == index[ids[i]]
  {
    if ids == [] then Ok([])
    else if ids[0] !in index then Err(UnknownEvidence)
    else if index[ids[0]].eventId == "" || index[ids[0]].end <= index[ids[0]].start then Err(InvalidSpan)
    else
      match ResolveRefs(ids[1..], index)
      case Err(e) => Err(e)
      case Ok(refs) => Ok([index[ids[0]]] + refs)
  }

  function VisualStatus(evidenceStatus: string, approved: bool): DisplayStatus {
    if evidenceStatus == "disputed" then Disputed
    else if approved && evidenceStatus == "supported" then Confirmed
    else Provisional
  }

  function ProjectEdge(room: string, e: Relation, index: EvidenceIndex, approved: set<string>): Result<Edge, ProjectError> {
    match ResolveRefs(e.evidence, index)
    case Err(x) => Err(x)
    case Ok(refs) =>
      var channels := ChannelsOf(e);
      if !NonNegative(channels) then Err(InvalidChannel)
      else
        var id := WireEdgeId(room, IdentityOf(e));
        Ok(Edge(id, e.head, e.linkPhrase, e.tail, e.relationFamily, e.status,
                if id in approved then Approved else Unreviewed,
                VisualStatus(e.status, id in approved),
                Some(EdgeDetail(channels, Activity(channels), refs))))
  }

  /** The rows of relations `i` onwards after those already `done`; the first failure wins. */
  function ProjectEdges(room: string, es: seq<Relation>, index: EvidenceIndex, approved: set<string>, i: nat,
          done: seq<Edge>): Result<seq<Edge>, ProjectError>
    requires i <= |es|
    decreases |es| - i
  {
    if i == |es| then Ok(done)
    else
      match ProjectEdge(room, es[i], index, approved)
      case Err(x) => Err(x)
      case Ok(e) => ProjectEdges(room, es, index, approved, i + 1, done + [e])
  }

  predicate Touches(e: Relation, id: string) { e.head == id || e.tail == id }

  /** Whether some relation at this concept has a positive value on the channel. */
  predicate AnyPositive(id: string, es: seq<Relation>, channel: string) {
    es != [] && ((Touches(es[0], id) && Channel(es[0], channel) > 0.0) || AnyPositive(id, es[1..], channel))
  }

  function NodeStatus(id: string, es: seq<Relation>): string {
    var support := AnyPositive(id, es, "support");
    var challenge := AnyPositive(id, es, "challenge");
    if support && challenge then "disputed"
    else if support then "supported"
    else if challenge then "challenged"
    else "uncertain"
  }

  /** The reference position in [-1,1] as a wire position in [0,1]. */
  function NormalizePosition(v: real): (r: Option<real>)
    ensures r.Some? <==> -1.0 <= v <= 1.0
    ensures r.Some? ==> 0.0 <= r.value <= 1.0
  {
    if -1.0 <= v <= 1.0 then Some((v + 1.0) / 2.0) else None
  }

  function ProjectNode(c: Concept, es: seq<Relation>, shown: set<string>): Result<Node, ProjectError> {
    match (NormalizePosition(c.x), NormalizePosition(c.y))
    case (Some(x), Some(y)) =>
      var status := NodeStatus(c.nodeId, es);
      Ok(Node(c.nodeId, c.caption, status,
              if c.nodeId in shown then Approved else Unreviewed,
              VisualStatus(status, c.nodeId in shown), x, y))
    case _ => Err(InvalidPosition)
  }

  function ProjectNodes(cs: seq<Concept>, es: seq<Relation>, shown: set<string>, i: nat,
          done: seq<Node>): Result<seq<Node>, ProjectError>
    requires i <= |cs|
    decreases |cs| - i
  {
    if i == |cs| then Ok(done)
    else
      match ProjectNode(cs[i], es, shown)
      case Err(x) => Err(x)
      case Ok(n) => ProjectNodes(cs, es, shown, i + 1, done + [n])
  }

  function StudentEdge(e: Edge): Edge { e.(detail := None) }

  /** The approved rows, in order. */
  function ApprovedEdges(es: seq<Edge>): seq<Edge> {
    if es == [] then []
    else
      var last := |es| - 1;
      ApprovedEdges(es[..last]) + if es[last].reviewStatus.Approved? then [StudentEdge(es[last])] else []
  }

  function ApprovedNodes(ns: seq<Node>): seq<Node> {
    if ns == [] then []
    else
      var last := |ns| - 1;
      ApprovedNodes(ns[..last]) + if ns[last].reviewStatus.Approved? then [ns[last]] else []
  }

  function Endpoints(es: seq<Edge>): set<string> {
    (set e | e in es :: e.head) + (set e | e in es :: e.tail)
  }

  datatype Views = Views(teacher: Graph, student: Graph)

  /** What both views of one graph are: the teacher sees every row; the student sees the approved relations,
      their endpoints and separately approved concepts, without channels or evidence. */
  function Projected(room: string, g: ConceptGraph, index: EvidenceIndex, approvedEdges: set<string>,
          approvedNodes: set<string>): Result<Views, ProjectError> {
    match ProjectEdges(room, g.edges, index, approvedEdges, 0, [])
    case Err(x) => Err(x)
    case Ok(edges) =>
      var shownEdges := ApprovedEdges(edges);
      match ProjectNodes(g.nodes, g.edges, approvedNodes + Endpoints(shownEdges), 0, [])
      case Err(x) => Err(x)
      case Ok(nodes) => Ok(Views(Graph(nodes, edges), Graph(ApprovedNodes(nodes), shownEdges)))
  }

  /** project_echo_snapshot: one pass over the relations that grows `endpoints`, then one over the concepts. */
  method ProjectEchoSnapshot(room: string, g: ConceptGraph, index: EvidenceIndex, approvedEdges: set<string>,
          approvedNodes: set<string>)
    returns (r: Result<Views, ProjectError>)
    ensures r == Projected(room, g, index, approvedEdges, approvedNodes)
  {
    var error, teacherEdges, studentEdges, endpoints := ProjectRelations(room, g.edges, index, approvedEdges);
    if error.Some? {
      return Err(error.value);
    }
    var studentIds := approvedNodes + endpoints;
    var error', teacherNodes, studentNodes := ProjectConcepts(g.nodes, g.edges, studentIds);
    if error'.Some? {
      return Err(error'.value);
    }
    return Ok(Views(Graph(teacherNodes, teacherEdges), Graph(studentNodes, studentEdges)));
  }

  method ProjectRelations(room: string, es: seq<Relation>, index: EvidenceIndex, approved: set<string>)
    returns (error: Option<ProjectError>, teacher: seq<Edge>, student: seq<Edge>, endpoints: set<string>)
    ensures error.Some? ==> ProjectEdges(room, es, index, approved, 0, []) == Err(error.value)
    ensures error.None? ==> ProjectEdges(room, es, index, approved, 0, []) == Ok(teacher)
    ensures error.None? ==> student == ApprovedEdges(teacher) && endpoints == Endpoints(student)
  {
    error, teacher, student, endpoints := None, [], [], {};
    var i := 0;
    while i < |es|
      invariant 0 <= i <= |es|
      invariant error.None?
      invariant ProjectEdges(room, es, index, approved, i, teacher) == ProjectEdges(room, es, index, approved, 0, [])
      invariant student == ApprovedEdges(teacher)
      invariant endpoints == Endpoints(student)
    {
      match ProjectEdge(room, es[i], index, approved) {
        case Err(x) =>
          error := Some(x);
          return;
        case Ok(projected) =>
          ApprovedEdgesSnoc(teacher, projected);
          EndpointsSnoc(student, StudentEdge(projected));
          teacher := teacher + [projected];
          if projected.edgeId in approved {
            student := student + [StudentEdge(projected)];
            endpoints := endpoints + {projected.head, projected.tail};
          }
      }
      i := i + 1;
    }
  }

  lemma ApprovedEdgesSnoc(es: seq<Edge>, e: Edge)
    ensures ApprovedEdges(es + [e]) == ApprovedEdges(es) + if e.reviewStatus.Approved? then [StudentEdge(e)] else []
  {
    assert (es + [e])[..|es|] == es;
  }

  lemma EndpointsSnoc(es: seq<Edge>, e: Edge)
    ensures Endpoints(es + [e]) == Endpoints(es) + {e.head, e.tail}
  {
    var t := es + [e];
    forall x ensures x in Endpoints(t) <==> x in Endpoints(es) + {e.head, e.tail} {
      if x in Endpoints(es) {
        var d :| d in es && (d.head == x || d.tail == x);
        assert d in t;
      }
      assert e in t;
    }
  }

  method ProjectConcepts(cs: seq<Concept>, es: seq<Relation>, studentIds: set<string>)
    returns (error: Option<ProjectError>, teacher: seq<Node>, student: seq<Node>)
    ensures error.Some? ==> ProjectNodes(cs, es, studentIds, 0, []) == Err(error.value)
    ensures error.None? ==> ProjectNodes(cs, es, studentIds, 0, []) == Ok(teacher) && student == ApprovedNodes(teacher)
  {
    error, teacher, student := None, [], [];
    var i := 0;
    while i < |cs|
      invariant 0 <= i <= |cs|
      invariant error.None?
      invariant ProjectNodes(cs, es, studentIds, i, teacher) == ProjectNodes(cs, es, studentIds, 0, [])
      invariant student == ApprovedNodes(teacher)
    {
      match ProjectNode(cs[i], es, studentIds) {
        case Err(x) =>
          error := Some(x);
          return;
        case Ok(projected) =>
          assert (teacher + [projected])[..|teacher|] == teacher;
          teacher := teacher + [projected];
          if projected.nodeId in studentIds {
            student := student + [projected];
          }
      }
      i := i + 1;
    }
  }

  // ----- the snapshot contract -----

  /** What assertEchoSnapshotSemantics accepts in the rows of a payload. */
  ghost predicate GraphSemantics(g: Graph, student: bool) {
    && Distinct(MapSeq(NodeId, g.nodes))
    && Distinct(MapSeq(EdgeId, g.edges))
    && (forall e :: e in g.edges ==> HasNode(g.nodes, e.head) && HasNode(g.nodes, e.tail))
    && (student ==> AllApproved(g))
  }

  ghost predicate AllApproved(g: Graph) {
    (forall n :: n in g.nodes ==> n.reviewStatus.Approved?) && (forall e :: e in g.edges ==> e.reviewStatus.Approved?)
  }

  ghost predicate HasNode(ns: seq<Node>, id: string) { exists n :: n in ns && n.nodeId == id }

  ghost predicate SnapshotSemantics(s: Snapshot) {
    && s.payload.EchoPayload?
    && s.baseVersion == s.projectionVersion - 1
    && (s.key.EchoTeacher? ==> s.display.TeacherShadow?)
    && (!s.key.EchoTeacher? ==> s.display.StudentApproved? && (s.reviewStatus.Approved? <==> s.payload.graph != EMPTY_GRAPH))
    && GraphSemantics(s.payload.graph, s.key.EchoStudent?)
  }

  /** assertEchoSnapshotSemantics: the envelope, then the two loops over the payload. */
  method AssertEchoSnapshotSemantics(s: Snapshot) returns (ok: bool)
    requires s.payload.EchoPayload? && s.key.IsEcho()
    ensures ok <==> SnapshotSemantics(s)
  {
    var g := s.payload.graph;
    if s.baseVersion != s.projectionVersion - 1 { return false; }
    if s.key.EchoTeacher? {
      if !s.display.TeacherShadow? { return false; }
    } else {
      var hasContent := |g.nodes| > 0 || |g.edges| > 0;
      if !s.display.StudentApproved? || s.reviewStatus.Approved? != hasContent { return false; }
    }
    var nodesOk, nodeIds := CheckNodes(g.nodes, s.key.EchoStudent?);
    if !nodesOk { return false; }
    ok := CheckEdges(g.edges, nodeIds, s.key.EchoStudent?);
  }

  method CheckNodes(ns: seq<Node>, student: bool) returns (ok: bool, nodeIds: set<string>)
    ensures ok <==> Distinct(MapSeq(NodeId, ns)) && (student ==> forall n :: n in ns ==> n.reviewStatus.Approved?)
    ensures ok ==> forall id :: id in nodeIds <==> HasNode(ns, id)
  {
    nodeIds := {};
    var i := 0;
    while i < |ns|
      invariant 0 <= i <= |ns|
      invariant forall id :: id in nodeIds <==> HasNode(ns[..i], id)
      invariant Distinct(MapSeq(NodeId, ns[..i]))
      invariant student ==> forall n :: n in ns[..i] ==> n.reviewStatus.Approved?
    {
      var n := ns[i];
      if n.nodeId in nodeIds {
        var m :| m in ns[..i] && m.nodeId == n.nodeId;
        PrefixRepeats(ns, NodeId, i, m);
        return false, nodeIds;
      }
      if student && !n.reviewStatus.Approved? {
        assert n in ns;
        return false, nodeIds;
      }
      StepIds(ns, NodeId, i);
      assert ns[..i + 1] == ns[..i] + [n];
      HasNodeSnoc(ns[..i], n);
      nodeIds := nodeIds + {n.nodeId};
      i := i + 1;
    }
    assert ns[..i] == ns;
    ok := true;
  }

  lemma HasNodeSnoc(ns: seq<Node>, n: Node)
    ensures forall id :: HasNode(ns + [n], id) <==> HasNode(ns, id) || id == n.nodeId
  {
    forall id ensures HasNode(ns + [n], id) <==> HasNode(ns, id) || id == n.nodeId {
      assert n in ns + [n];
      if HasNode(ns, id) {
        var m :| m in ns && m.nodeId == id;
        assert m in ns + [n];
      }
    }
  }

  method CheckEdges(es: seq<Edge>, nodeIds: set<string>, student: bool) returns (ok: bool)
    ensures ok <==> Distinct(MapSeq(EdgeId, es))
                    && (forall e :: e in es ==> e.head in nodeIds && e.tail in nodeIds)
                    && (student ==> forall e :: e in es ==> e.reviewStatus.Approved?)
  {
    var edgeIds: set<string> := {};
    var i := 0;
    while i < |es|
      invariant 0 <= i <= |es|
      invariant edgeIds == Elements(MapSeq(EdgeId, es[..i]))
      invariant Distinct(MapSeq(EdgeId, es[..i]))
      invariant forall e :: e in es[..i] ==> e.head in nodeIds && e.tail in nodeIds
      invariant student ==> forall e :: e in es[..i] ==> e.reviewStatus.Approved?
    {
      var e := es[i];
      assert MapSeq(EdgeId, es[..i + 1]) == MapSeq(EdgeId, es[..i]) + [e.edgeId];
      DistinctAppend(MapSeq(EdgeId, es[..i]), e.edgeId);
      if e.edgeId in edgeIds {
        PrefixOfDistinct(MapSeq(EdgeId, es), i + 1);
        assert MapSeq(EdgeId, es)[..i + 1] == MapSeq(EdgeId, es[..i + 1]);
        return false;
      }
      if e.head !in nodeIds || e.tail !in nodeIds || (student && !e.reviewStatus.Approved?) {
        assert e in es;
        return false;
      }
      assert es[..i + 1] == es[..i] + [e];
      edgeIds := edgeIds + {e.edgeId};
      i := i + 1;
    }
    assert es[..i] == es;
    ok := true;
  }

  lemma PrefixOfDistinct<T>(s: seq<T>, n: nat)
    requires n <= |s|
    ensures Distinct(s) ==> Distinct(s[..n])
  {
  }

  lemma StepIds<V>(xs: seq<V>, id: V -> string, i: nat)
    requires i < |xs|
    ensures Distinct(MapSeq(id, xs[..i + 1])) <==> Distinct(MapSeq(id, xs[..i])) && forall x :: x in xs[..i] ==> id(x) != id(xs[i])
  {
    assert MapSeq(id, xs[..i + 1]) == MapSeq(id, xs[..i]) + [id(xs[i])];
    DistinctAppend(MapSeq(id, xs[..i]), id(xs[i]));
    var ids := MapSeq(id, xs[..i]);
    if x :| x in xs[..i] && id(x) == id(xs[i]) {
      var k :| 0 <= k < i && xs[k] == x;
      assert ids[k] == id(xs[i]);
    }
    if id(xs[i]) in ids {
      var k :| 0 <= k < |ids| && ids[k] == id(xs[i]);
      assert xs[..i][k] in xs[..i];
    }
  }

  lemma PrefixRepeats<V>(xs: seq<V>, id: V -> string, i: nat, m: V)
    requires i < |xs| && m in xs[..i] && id(m) == id(xs[i])
    ensures !Distinct(MapSeq(id, xs))
  {
    var ids := MapSeq(id, xs);
    var k :| 0 <= k < i && xs[k] == m;
    assert ids[k] == ids[i];
  }

  // ----- what the projection guarantees -----

  lemma {:induction false} ProjectEdgesRows(room: string, es: seq<Relation>, index: EvidenceIndex,
          approved: set<string>, i: nat, done: seq<Edge>, r: seq<Edge>)
    requires i <= |es| && ProjectEdges(room, es, index, approved, i, done) == Ok(r)
    ensures |r| == |done| + |es| - i && done <= r
    ensures forall k :: i <= k < |es| ==> ProjectEdge(room, es[k], index, approved) == Ok(r[|done| + k - i])
    decreases |es| - i
  {
    if i < |es| {
      var e := ProjectEdge(room, es[i], index, approved).value;
      ProjectEdgesRows(room, es, index, approved, i + 1, done + [e], r);
      assert done <= done + [e] && r[|done|] == (done + [e])[|done|];
    }
  }

  lemma {:induction false} ProjectNodesRows(cs: seq<Concept>, es: seq<Relation>, shown: set<string>, i: nat,
          done: seq<Node>, r: seq<Node>)
    requires i <= |cs| && ProjectNodes(cs, es, shown, i, done) == Ok(r)
    ensures |r| == |done| + |cs| - i && done <= r
    ensures forall k :: i <= k < |cs| ==> ProjectNode(cs[k], es, shown) == Ok(r[|done| + k - i])
    decreases |cs| - i
  {
    if i < |cs| {
      var n := ProjectNode(cs[i], es, shown).value;
      ProjectNodesRows(cs, es, shown, i + 1, done + [n], r);
      assert done <= done + [n] && r[|done|] == (done + [n])[|done|];
    }
  }

  /** Row by row, what the teacher view says about the graph. */
  lemma TeacherRows(room: string, g: ConceptGraph, index: EvidenceIndex, approvedEdges: set<string>,
          approvedNodes: set<string>, v: Views)
    requires Projected(room, g, index, approvedEdges, approvedNodes) == Ok(v)
    ensures |v.teacher.edges| == |g.edges| && |v.teacher.nodes| == |g.nodes|
    ensures forall k :: 0 <= k < |g.edges| ==> ProjectEdge(room, g.edges[k], index, approvedEdges) == Ok(v.teacher.edges[k])
    ensures forall k :: 0 <= k < |g.nodes| ==>
      ProjectNode(g.nodes[k], g.edges, approvedNodes + Endpoints(v.student.edges)) == Ok(v.teacher.nodes[k])
  {
    EdgeRows(room, g.edges, index, approvedEdges, v.teacher.edges);
    NodeRows(g.nodes, g.edges, approvedNodes + Endpoints(v.student.edges), v.teacher.nodes);
  }

  lemma EdgeRows(room: string, es: seq<Relation>, index: EvidenceIndex, approved: set<string>, r: seq<Edge>)
    requires ProjectEdges(room, es, index, approved, 0, []) == Ok(r)
    ensures |r| == |es| && forall k :: 0 <= k < |es| ==> ProjectEdge(room, es[k], index, approved) == Ok(r[k])
  {
    ProjectEdgesRows(room, es, index, approved, 0, [], r);
  }

  lemma NodeRows(cs: seq<Concept>, es: seq<Relation>, shown: set<string>, r: seq<Node>)
    requires ProjectNodes(cs, es, shown, 0, []) == Ok(r)
    ensures |r| == |cs| && forall k :: 0 <= k < |cs| ==> ProjectNode(cs[k], es, shown) == Ok(r[k])
  {
    ProjectNodesRows(cs, es, shown, 0, [], r);
  }

  lemma TeacherFields(room: string, g: ConceptGraph, index: EvidenceIndex, approvedEdges: set<string>,
          approvedNodes: set<string>, v: Views)
    requires Projected(room, g, index, approvedEdges, approvedNodes) == Ok(v)
    ensures EdgeFields(room, g.edges, approvedEdges, v.teacher.edges)
    ensures NodeFields(g.nodes, approvedNodes + Endpoints(v.student.edges), v.teacher.nodes)
  {
    TeacherRows(room, g, index, approvedEdges, approvedNodes, v);
    forall k | 0 <= k < |g.edges| ensures EdgeField(room, g.edges[k], approvedEdges, v.teacher.edges[k]) {
      assert ProjectEdge(room, g.edges[k], index, approvedEdges) == Ok(v.teacher.edges[k]);
    }
    forall k | 0 <= k < |g.nodes| ensures NodeField(g.nodes[k], approvedNodes + Endpoints(v.student.edges), v.teacher.nodes[k]) {
      assert ProjectNode(g.nodes[k], g.edges, approvedNodes + Endpoints(v.student.edges)) == Ok(v.teacher.nodes[k]);
    }
  }

  ghost predicate EdgeField(room: string, r: Relation, approved: set<string>, e: Edge) {
    && e.head == r.head && e.tail == r.tail && e.edgeId == WireEdgeId(room, IdentityOf(r))
    && (e.reviewStatus.Approved? <==> e.edgeId in approved)
  }

  ghost predicate EdgeFields(room: string, rs: seq<Relation>, approved: set<string>, es: seq<Edge>) {
    |es| == |rs| && forall k :: 0 <= k < |rs| ==> EdgeField(room, rs[k], approved, es[k])
  }

  ghost predicate NodeField(c: Concept, shown: set<string>, n: Node) {
    n.nodeId == c.nodeId && (n.reviewStatus.Approved? <==> n.nodeId in shown) && 0.0 <= n.x <= 1.0 && 0.0 <= n.y <= 1.0
  }

  ghost predicate NodeFields(cs: seq<Concept>, shown: set<string>, ns: seq<Node>) {
    |ns| == |cs| && forall k :: 0 <= k < |cs| ==> NodeField(cs[k], shown, ns[k])
  }

  /** Every evidence span a snapshot shows is non-empty, and every position lies in the unit square. */
  lemma ProjectedWithinBounds(room: string, g: ConceptGraph, index: EvidenceIndex, approvedEdges: set<string>,
          approvedNodes: set<string>, v: Views)
    requires Projected(room, g, index, approvedEdges, approvedNodes) == Ok(v)
    ensures EdgeSpansOk(v.teacher.edges)
    ensures forall n :: n in v.teacher.nodes ==> 0.0 <= n.x <= 1.0 && 0.0 <= n.y <= 1.0
  {
    TeacherRows(room, g, index, approvedEdges, approvedNodes, v);
    TeacherFields(room, g, index, approvedEdges, approvedNodes, v);
    forall e | e in v.teacher.edges ensures SpansOk(RefsOf(e)) {
      var k :| 0 <= k < |v.teacher.edges| && v.teacher.edges[k] == e;
      ProjectedSpansOk(room, g.edges[k], index, approvedEdges, e);
    }
  }

  /** A student row carries no evidence at all. */
  lemma StudentSpansOk(es: seq<Edge>)
    ensures EdgeSpansOk(ApprovedEdges(es))
  {
    ApprovedEdgesMembers(es);
  }

  lemma ProjectedSpansOk(room: string, r: Relation, index: EvidenceIndex, approved: set<string>, e: Edge)
    requires ProjectEdge(room, r, index, approved) == Ok(e)
    ensures SpansOk(RefsOf(e))
  {
    var refs := ResolveRefs(r.evidence, index).value;
    forall x | x in refs ensures x.start < x.end {
      var j :| 0 <= j < |refs| && refs[j] == x;
      assert r.evidence[j] in r.evidence;
    }
  }

  /** The teacher view passes the contract exactly when the graph is well formed and no relation occurs twice. */
  lemma TeacherViewContract(room: string, g: ConceptGraph, index: EvidenceIndex, approvedEdges: set<string>,
          approvedNodes: set<string>, v: Views)
    requires Projected(room, g, index, approvedEdges, approvedNodes) == Ok(v)
    ensures GraphSemantics(v.teacher, false) <==> WellFormed(g) && DistinctRelations(g)
  {
    TeacherFields(room, g, index, approvedEdges, approvedNodes, v);
    assert MapSeq(NodeId, v.teacher.nodes) == MapSeq(ConceptId, g.nodes);
    NodeIdsMatch(g, v.teacher.nodes);
    EdgeIdsMatchIdentities(room, g, approvedEdges, v.teacher.edges);
    EndpointsMatch(room, g, approvedEdges, v.teacher);
  }

  lemma EndpointsMatch(room: string, g: ConceptGraph, approved: set<string>, t: Graph)
    requires EdgeFields(room, g.edges, approved, t.edges)
    requires forall id :: id in NodeIds(g) <==> HasNode(t.nodes, id)
    ensures EndpointsPresent(g) <==> forall e :: e in t.edges ==> HasNode(t.nodes, e.head) && HasNode(t.nodes, e.tail)
  {
    if EndpointsPresent(g) {
      forall e | e in t.edges ensures HasNode(t.nodes, e.head) && HasNode(t.nodes, e.tail) {
        var k :| 0 <= k < |t.edges| && t.edges[k] == e;
        assert g.edges[k] in g.edges && EdgeField(room, g.edges[k], approved, e);
      }
    }
    if forall e :: e in t.edges ==> HasNode(t.nodes, e.head) && HasNode(t.nodes, e.tail) {
      forall r | r in g.edges ensures r.head in NodeIds(g) && r.tail in NodeIds(g) {
        var k :| 0 <= k < |g.edges| && g.edges[k] == r;
        assert t.edges[k] in t.edges && EdgeField(room, r, approved, t.edges[k]);
      }
    }
  }

  lemma NodeIdsMatch(g: ConceptGraph, ns: seq<Node>)
    requires MapSeq(NodeId, ns) == MapSeq(ConceptId, g.nodes)
    ensures forall id :: id in NodeIds(g) <==> HasNode(ns, id)
  {
    var ids := MapSeq(NodeId, ns);
    forall id ensures id in NodeIds(g) <==> HasNode(ns, id) {
      if id in NodeIds(g) {
        var k :| 0 <= k < |ids| && ids[k] == id;
        assert ns[k] in ns;
      }
      if HasNode(ns, id) {
        var n :| n in ns && n.nodeId == id;
        var k :| 0 <= k < |ns| && ns[k] == n;
        assert ids[k] == id;
      }
    }
  }

  lemma EdgeIdsMatchIdentities(room: string, g: ConceptGraph, approved: set<string>, edges: seq<Edge>)
    requires EdgeFields(room, g.edges, approved, edges)
    ensures Distinct(MapSeq(EdgeId, edges)) <==> DistinctRelations(g)
  {
    var ids, names := MapSeq(EdgeId, edges), MapSeq(IdentityOf, g.edges);
    forall k | 0 <= k < |ids| ensures ids[k] == WireEdgeId(room, names[k]) {
      assert EdgeField(room, g.edges[k], approved, edges[k]);
    }
    forall i, j | 0 <= i < j < |ids| ensures ids[i] == ids[j] <==> names[i] == names[j] {
      if ids[i] == ids[j] { WireEdgeIdInjective(room, names[i], names[j]); }
    }
  }

  lemma {:induction false} ApprovedEdgesMembers(es: seq<Edge>)
    ensures forall e :: e in ApprovedEdges(es) <==> exists t :: t in es && t.reviewStatus.Approved? && e == StudentEdge(t)
    ensures Distinct(MapSeq(EdgeId, es)) ==> Distinct(MapSeq(EdgeId, ApprovedEdges(es)))
    ensures forall id :: id in MapSeq(EdgeId, ApprovedEdges(es)) ==> id in MapSeq(EdgeId, es)
  {
    if es != [] {
      var last := |es| - 1;
      var init, e := es[..last], es[last];
      ApprovedEdgesMembers(init);
      assert es == init + [e];
      assert MapSeq(EdgeId, es) == MapSeq(EdgeId, init) + [e.edgeId];
      DistinctAppend(MapSeq(EdgeId, init), e.edgeId);
      if e.reviewStatus.Approved? {
        assert ApprovedEdges(es) == ApprovedEdges(init) + [StudentEdge(e)];
        assert MapSeq(EdgeId, ApprovedEdges(es)) == MapSeq(EdgeId, ApprovedEdges(init)) + [e.edgeId];
        DistinctAppend(MapSeq(EdgeId, ApprovedEdges(init)), e.edgeId);
      } else {
        assert ApprovedEdges(es) == ApprovedEdges(init);
      }
    }
  }

  lemma {:induction false} ApprovedNodesMembers(ns: seq<Node>)
    ensures forall n :: n in ApprovedNodes(ns) <==> n in ns && n.reviewStatus.Approved?
    ensures Distinct(MapSeq(NodeId, ns)) ==> Distinct(MapSeq(NodeId, ApprovedNodes(ns)))
    ensures forall id :: id in MapSeq(NodeId, ApprovedNodes(ns)) ==> id in MapSeq(NodeId, ns)
  {
    if ns != [] {
      var last := |ns| - 1;
      var init, n := ns[..last], ns[last];
      ApprovedNodesMembers(init);
      assert ns == init + [n];
      assert MapSeq(NodeId, ns) == MapSeq(NodeId, init) + [n.nodeId];
      DistinctAppend(MapSeq(NodeId, init), n.nodeId);
      if n.reviewStatus.Approved? {
        assert ApprovedNodes(ns) == ApprovedNodes(init) + [n];
        assert MapSeq(NodeId, ApprovedNodes(ns)) == MapSeq(NodeId, ApprovedNodes(init)) + [n.nodeId];
        DistinctAppend(MapSeq(NodeId, ApprovedNodes(init)), n.nodeId);
      } else {
        assert ApprovedNodes(ns) == ApprovedNodes(init);
      }
    }
  }

  /** The student view is the approved part of the teacher view, closed under endpoints and stripped of detail;
      it passes the student contract whenever the teacher view passes the teacher contract. */
  lemma StudentViewContract(room: string, g: ConceptGraph, index: EvidenceIndex, approvedEdges: set<string>,
          approvedNodes: set<string>, v: Views)
    requires Projected(room, g, index, approvedEdges, approvedNodes) == Ok(v)
    ensures forall e :: e in v.student.edges ==> e.detail.None? && e.edgeId in approvedEdges
    ensures forall t :: t in v.teacher.edges && t.edgeId in approvedEdges ==> StudentEdge(t) in v.student.edges
    ensures forall n :: n in v.student.nodes <==>
      n in v.teacher.nodes && n.nodeId in approvedNodes + Endpoints(v.student.edges)
    ensures GraphSemantics(v.teacher, false) ==> GraphSemantics(v.student, true)
  {
    TeacherFields(room, g, index, approvedEdges, approvedNodes, v);
    var t := v.teacher;
    var shown := approvedNodes + Endpoints(v.student.edges);
    ApprovedEdgesMembers(t.edges);
    ApprovedNodesMembers(t.nodes);
    forall e | e in t.edges ensures e.reviewStatus.Approved? <==> e.edgeId in approvedEdges {
      var k :| 0 <= k < |t.edges| && t.edges[k] == e;
      assert EdgeField(room, g.edges[k], approvedEdges, e);
    }
    forall n | n in t.nodes ensures n.reviewStatus.Approved? <==> n.nodeId in shown {
      var k :| 0 <= k < |t.nodes| && t.nodes[k] == n;
      assert NodeField(g.nodes[k], shown, n);
    }
    if GraphSemantics(t, false) {
      StudentEndpoints(t, v.student, shown);
    }
  }

  lemma StudentEndpoints(t: Graph, s: Graph, shown: set<string>)
    requires forall e :: e in t.edges ==> HasNode(t.nodes, e.head) && HasNode(t.nodes, e.tail)
    requires forall e :: e in s.edges ==> exists te :: te in t.edges && e == StudentEdge(te)
    requires forall n :: n in s.nodes <==> n in t.nodes && n.nodeId in shown
    requires Endpoints(s.edges) <= shown
    ensures forall e :: e in s.edges ==> HasNode(s.nodes, e.head) && HasNode(s.nodes, e.tail)
  {
    forall e | e in s.edges ensures HasNode(s.nodes, e.head) && HasNode(s.nodes, e.tail) {
      assert e.head in Endpoints(s.edges) && e.tail in Endpoints(s.edges);
      var te :| te in t.edges && e == StudentEdge(te);
      var h :| h in t.nodes && h.nodeId == te.head;
      var l :| l in t.nodes && l.nodeId == te.tail;
      assert h in s.nodes && l in s.nodes;
    }
  }

  // ----- what the derived fields mean -----

  ghost predicate Weighs(id: string, es: seq<Relation>, channel: string) {
    exists e :: e in es && Touches(e, id) && Channel(e, channel) > 0.0
  }

  lemma {:induction false} AnyPositiveMeans(id: string, es: seq<Relation>, channel: string)
    ensures AnyPositive(id, es, channel) <==> Weighs(id, es, channel)
  {
    if es != [] {
      AnyPositiveMeans(id, es[1..], channel);
      assert es == [es[0]] + es[1..];
    }
  }

  /** A concept is disputed when some relation at it supports and some relation at it challenges, and otherwise takes
      the side that has any weight. */
  lemma {:induction false} NodeStatusMeans(id: string, es: seq<Relation>)
    ensures var support, challenge := Weighs(id, es, "support"), Weighs(id, es, "challenge");
            && (NodeStatus(id, es) == "disputed" <==> support && challenge)
            && (NodeStatus(id, es) == "supported" <==> support && !challenge)
            && (NodeStatus(id, es) == "challenged" <==> challenge && !support)
            && (NodeStatus(id, es) == "uncertain" <==> !support && !challenge)
  {
    AnyPositiveMeans(id, es, "support");
    AnyPositiveMeans(id, es, "challenge");
    assert "disputed"[0] == 'd' && "supported"[0] == 's' && "challenged"[0] == 'c' && "uncertain"[0] == 'u';
  }

  /** The activity score is the largest channel. */
  lemma ActivityIsMaximum(c: Channels)
    ensures Activity(c) >= c.support && Activity(c) >= c.challenge && Activity(c) >= c.uncertain && Activity(c) >= c.question
    ensures Activity(c) in {c.support, c.challenge, c.uncertain, c.question}
  {
  }
}
