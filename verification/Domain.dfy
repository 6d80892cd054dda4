/** Vocabulary shared by the worker and the server: projection keys, epochs, wire rows. */
module Domain {

  datatype Option<+T> = None | Some(value: T)

  datatype Result<+T, +E> = Ok(value: T) | Err(error: E)

  datatype ProjectionKey =
    | EchoTeacher   // echo.teacher_shadow
    | EchoStudent   // echo.student_approved
    | TraceTeacher  // trace.teacher_bundle
    | TraceStudent  // trace.student_bundle
  {
    predicate IsEcho() { EchoTeacher? || EchoStudent? }
  }

  /** The algorithm constants compiled into one worker build. */
  datatype Build = Build(echoVersion: string, traceVersion: string, parameterHash: string) {
    function VersionFor(key: ProjectionKey): string {
      if key.IsEcho() then echoVersion else traceVersion
    }
  }

  /** An analysis epoch is a UUIDv5 of a name; the name itself stands for it (UUIDv5 does not collide). */
  datatype Epoch =
    | InitialEpoch
    | RotatedEpoch(build: Build)
    | ReplayEpoch(jobId: nat)

  /** Milliseconds on one clock. */
  type Instant = int

  datatype EvidenceRef = EvidenceRef(eventId: string, start: int, end: int)

  datatype Channels = Channels(support: real, challenge: real, uncertain: real, question: real)

  datatype ReviewStatus = Approved | Unreviewed

  datatype DisplayStatus = Inactive | Disputed | Confirmed | Provisional

  datatype Node = Node(
    nodeId: string, caption: string, evidenceStatus: string,
    reviewStatus: ReviewStatus, displayStatus: DisplayStatus, x: real, y: real)

  /** What a teacher edge carries and a student edge leaves out. */
  datatype EdgeDetail = EdgeDetail(channels: Channels, activityScore: real, evidenceRefs: seq<EvidenceRef>)

  datatype Edge = Edge(
    edgeId: string, head: string, linkPhrase: string, tail: string, relationFamily: string,
    evidenceStatus: string, reviewStatus: ReviewStatus, displayStatus: DisplayStatus,
    detail: Option<EdgeDetail>)

  datatype Graph = Graph(nodes: seq<Node>, edges: seq<Edge>)

  datatype Payload = EchoPayload(graph: Graph) | TracePayload(bundle: string)

  datatype SnapshotDisplay = TeacherShadow | StudentApproved | StudentAggregate

  datatype Snapshot = Snapshot(
    key: ProjectionKey, epoch: Epoch, algorithmVersion: string, parameterHash: string,
    projectionVersion: int, baseVersion: int, completeThrough: int, watermark: Instant,
    requiresReplay: bool, warnings: seq<string>,
    reviewStatus: ReviewStatus, display: SnapshotDisplay, payload: Payload)

  /** Metadata the writer attaches to one version of one projection. */
  datatype Metadata = Metadata(
    epoch: Epoch, algorithmVersion: string, parameterHash: string,
    projectionVersion: int, baseVersion: int, completeThrough: int, watermark: Instant,
    requiresReplay: bool, warnings: seq<string>, reasonCodes: seq<string>)

  function NodeId(n: Node): string { n.nodeId }

  function EdgeId(e: Edge): string { e.edgeId }
}

/** Facts about sequences that several modules need. */
module Sequences {

  ghost predicate Distinct<T>(s: seq<T>) {
    forall i, j :: 0 <= i < j < |s| ==> s[i] != s[j]
  }

  function Elements<T(==)>(s: seq<T>): set<T> {
    set x | x in s
  }

  /** `new Set(list).size === list.length` is exactly distinctness. */
  lemma {:induction false} SizeIsDistinctness<T>(s: seq<T>)
    ensures |Elements(s)| <= |s|
    ensures |Elements(s)| == |s| <==> Distinct(s)
  {
    if s == [] {
      assert Elements(s) == {};
    } else {
      var n := |s| - 1;
      var init := s[..n];
      SizeIsDistinctness(init);
      assert s == init + [s[n]];
      assert Elements(s) == Elements(init) + {s[n]};
      if s[n] in init {
        var k :| 0 <= k < n && init[k] == s[n];
        assert s[k] == s[n];
        assert Elements(s) == Elements(init);
      } else {
        assert Distinct(s) <==> Distinct(init) by {
          if Distinct(init) {
            forall i, j | 0 <= i < j < |s| ensures s[i] != s[j] {
              if j == n { assert s[i] in init; } else { assert init[i] != init[j]; }
            }
          }
          if Distinct(s) {
            forall i, j | 0 <= i < j < n ensures init[i] != init[j] {
              assert s[i] != s[j];
            }
          }
        }
      }
    }
  }

  lemma DistinctAppend<T>(s: seq<T>, x: T)
    ensures Distinct(s + [x]) <==> Distinct(s) && x !in s
  {
    var t := s + [x];
    assert t[|s|] == x && forall i :: 0 <= i < |s| ==> t[i] == s[i];
    if Distinct(s) && x !in s {
      forall i, j | 0 <= i < j < |t| ensures t[i] != t[j] {
        if j < |s| { assert s[i] != s[j]; } else { assert t[i] in s; }
      }
    }
  }

  lemma DistinctConcat<T>(a: seq<T>, b: seq<T>)
    requires Distinct(a) && Distinct(b)
    requires forall x :: x in a ==> x !in b
    ensures Distinct(a + b)
  {
    var c := a + b;
    forall i, j | 0 <= i < j < |c| ensures c[i] != c[j] {
      if j < |a| {
        assert a[i] != a[j];
      } else if i >= |a| {
        assert b[i - |a|] != b[j - |a|];
      } else {
        assert c[i] in a && c[j] in b;
      }
    }
  }

  function MapSeq<A, B>(f: A -> B, s: seq<A>): (r: seq<B>)
    ensures |r| == |s|
    ensures forall i :: 0 <= i < |s| ==> r[i] == f(s[i])
  {
    seq(|s|, i requires 0 <= i < |s| => f(s[i]))
  }

  /** With distinct keys, the first item's key is apart from all the others'. */
  lemma HeadApart<T, K>(key: T -> K, xs: seq<T>)
    requires xs != [] && Distinct(MapSeq(key, xs))
    ensures Distinct(MapSeq(key, xs[1..])) && forall x :: x in xs[1..] ==> key(x) != key(xs[0])
  {
    var keys, rest := MapSeq(key, xs), MapSeq(key, xs[1..]);
    assert rest == keys[1..];
    forall i, j | 0 <= i < j < |rest| ensures rest[i] != rest[j] { assert keys[i + 1] != keys[j + 1]; }
    forall x | x in xs[1..] ensures key(x) != key(xs[0]) {
      var j :| 0 <= j < |xs[1..]| && xs[1..][j] == x;
      assert keys[0] != keys[j + 1];
    }
  }

  lemma ConsDistinct<T, K>(key: T -> K, x: T, xs: seq<T>)
    requires Distinct(MapSeq(key, xs)) && forall y :: y in xs ==> key(y) != key(x)
    ensures Distinct(MapSeq(key, [x] + xs))
  {
    var keys, rest := MapSeq(key, [x] + xs), MapSeq(key, xs);
    assert keys == [key(x)] + rest;
    forall i, j | 0 <= i < j < |keys| ensures keys[i] != keys[j] {
      if i == 0 { assert xs[j - 1] in xs; } else { assert rest[i - 1] != rest[j - 1]; }
    }
  }

  /** Each item once, at its first position. */
  function Dedupe(s: seq<string>): seq<string> {
    if s == [] then []
    else
      var init, x := Dedupe(s[..|s| - 1]), s[|s| - 1];
      if x in init then init else init + [x]
  }

  lemma {:induction false} DedupeMembers(s: seq<string>)
    ensures forall x :: x in Dedupe(s) <==> x in s
    ensures Distinct(Dedupe(s))
  {
    if s != [] {
      var init, x := s[..|s| - 1], s[|s| - 1];
      DedupeMembers(init);
      assert s == init + [x];
      DistinctAppend(Dedupe(init), x);
    }
  }
}
