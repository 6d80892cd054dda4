/** How far a room with a late event gets. */
module LateLaws {
  import opened Domain
  import opened EchoMap
  import opened EchoProjection
  import opened ProjectionStore
  import opened Pipeline
  import opened PipelineLaws
  import opened RoomLaws
  import opened CommitLaws
  import opened LateEvents
  import opened Runs
  import P = Projector

  /** A consume of an event of the log, which names what the log says it names. */
  ghost predicate Reads(log: RoomLog, op: Op) {
    op.Consume? ==> 1 <= op.roomSeq <= |log.events| && op.inputs.late == Named(log, op.roomSeq)
  }

  ghost predicate NamedAt(log: RoomLog, through: nat, n: nat, id: string) {
    1 <= n <= through <= |log.events| && Named(log, n) == Some(id)
  }

  ghost predicate SameName(log: RoomLog, m: nat, n: nat)
    requires m <= |log.events| && n <= |log.events|
  {
    Named(log, m).Some? && Named(log, m) == Named(log, n)
  }

  /** An event that names what an earlier one has named already. */
  ghost predicate NamedBefore(log: RoomLog, n: nat)
    requires n <= |log.events|
  {
    exists m: nat :: 1 <= m < n && SameName(log, m, n)
  }

  /** The replay requests are those of the consumed events, and no two of them named the same event. */
  ghost predicate Requested(log: RoomLog, t: Tables) {
    && t.checkpoint <= |log.events|
    && (forall id :: id in t.replays <==> exists n :: NamedAt(log, t.checkpoint, n, id))
    && (forall n: nat :: 1 <= n <= t.checkpoint ==> !NamedBefore(log, n))
  }

  lemma NamedIsRequested(log: RoomLog, t: Tables, n: nat)
    requires Requested(log, t) && n == t.checkpoint + 1 <= |log.events|
    ensures NamedBefore(log, n) <==> Named(log, n).Some? && Named(log, n).value in t.replays
  {
    if NamedBefore(log, n) {
      var m: nat :| 1 <= m < n && SameName(log, m, n);
      assert NamedAt(log, t.checkpoint, m, Named(log, n).value);
    }
    if Named(log, n).Some? && Named(log, n).value in t.replays {
      var m: nat :| NamedAt(log, t.checkpoint, m, Named(log, n).value);
      assert SameName(log, m, n);
    }
  }

  lemma NamedAtNext(log: RoomLog, prior: nat, n: nat, id: string)
    requires n == prior + 1 <= |log.events|
    ensures (exists m :: NamedAt(log, n, m, id)) <==> (exists m :: NamedAt(log, prior, m, id)) || Named(log, n) == Some(id)
  {
    if exists m :: NamedAt(log, n, m, id) {
      var m: nat :| NamedAt(log, n, m, id);
      if m < n { assert NamedAt(log, prior, m, id); }
    }
    if exists m :: NamedAt(log, prior, m, id) {
      var m: nat :| NamedAt(log, prior, m, id);
      assert NamedAt(log, n, m, id);
    }
    if Named(log, n) == Some(id) { assert NamedAt(log, n, n, id); }
  }

  lemma RequestsGrow(log: RoomLog, t: Tables, n: nat, late: Option<string>, t': Tables)
    requires Requested(log, t) && n == t.checkpoint + 1 == t'.checkpoint && n <= |log.events| && late == Named(log, n)
    requires late.Some? ==> late.value !in t.replays
    requires t'.replays == match late case None => t.replays case Some(e) => t.replays[e := n]
    ensures Requested(log, t')
  {
    NamedIsRequested(log, t, n);
    forall id ensures id in t'.replays <==> exists m :: NamedAt(log, n, m, id) { NextRequested(log, t, n, late, t', id); }
  }

  lemma NextRequested(log: RoomLog, t: Tables, n: nat, late: Option<string>, t': Tables, id: string)
    requires Requested(log, t) && n == t.checkpoint + 1 && n <= |log.events| && late == Named(log, n)
    requires t'.replays == match late case None => t.replays case Some(e) => t.replays[e := n]
    ensures id in t'.replays <==> exists m :: NamedAt(log, n, m, id)
  {
    NamedAtNext(log, t.checkpoint, n, id);
    assert id in t'.replays <==> id in t.replays || late == Some(id);
  }

  lemma ConsumeRequests(room: string, log: RoomLog, t: Tables, b: Build, n: nat, x: Inputs, t': Tables)
    requires Invariant(t) && Requested(log, t) && Reads(log, Consume(b, n, x)) && Consumed(room, t, b, n, x) == Ok(t')
    ensures Requested(log, t')
  {
    if n > t.checkpoint {
      ConsumeKeeps(room, t, b, n, x, t');
      ConsumeRequestsOnce(room, t, b, n, x, t');
      RequestsGrow(log, t, n, x.late, t');
    }
  }

  lemma NextRequests(room: string, log: RoomLog, t: Tables, op: Op)
    requires Invariant(t) && Requested(log, t) && Reads(log, op)
    ensures Invariant(NextOf(room)(t, op)) && Requested(log, NextOf(room)(t, op))
  {
    OutcomeKeeps(room, t, op);
    match op
    case Consume(b, n, x) =>
      if Consumed(room, t, b, n, x).Ok? { ConsumeRequests(room, log, t, b, n, x, Consumed(room, t, b, n, x).value); }
    case Replay(b, j, n, x) =>
      if Replayed(room, t, b, j, n, x).Ok? { ReplayRequestsNothing(room, t, b, j, n, x, Replayed(room, t, b, j, n, x).value); }
  }

  lemma EmptyRequested(log: RoomLog)
    ensures Requested(log, EMPTY_TABLES)
  {
  }

  lemma {:induction false} RunRequests(room: string, log: RoomLog, ops: seq<Op>)
    requires forall op :: op in ops ==> Reads(log, op)
    ensures Invariant(After(room, ops)) && Requested(log, After(room, ops))
  {
    EmptyInvariant();
    EmptyRequested(log);
    var inv := t => Invariant(t) && Requested(log, t);
    forall t, op | op in ops && inv(t) ensures inv(NextOf(room)(t, op)) { NextRequests(room, log, t, op); }
    Invariance(NextOf(room), inv, EMPTY_TABLES, ops);
  }

  /** Exactly when the next event of a log can be consumed: its graph projects, its patches fit, its build has not
      rotated here before, and it does not name a late event that an earlier event of the log has named. */
  lemma {:induction false} NextCommits(room: string, log: RoomLog, ops: seq<Op>, b: Build, epoch: Epoch, n: nat, x: Inputs)
    requires forall op :: op in ops ==> Reads(log, op)
    requires AllKeys(After(room, ops)) && n == After(room, ops).checkpoint + 1 && Reads(log, Consume(b, n, x))
    requires CurrentEpoch(After(room, ops), b) == Ok(epoch)
    ensures Consumed(room, After(room, ops), b, n, x).Ok? <==> Fits(room, After(room, ops), b, epoch, x) && !NamedBefore(log, n)
  {
    RunRequests(room, log, ops);
    NextCommitsAt(room, log, After(room, ops), b, epoch, n, x);
  }

  lemma NextCommitsAt(room: string, log: RoomLog, t: Tables, b: Build, epoch: Epoch, n: nat, x: Inputs)
    requires Invariant(t) && Requested(log, t) && CurrentEpoch(t, b) == Ok(epoch)
    requires n == t.checkpoint + 1 <= |log.events| && x.late == Named(log, n)
    ensures Consumed(room, t, b, n, x).Ok? <==> Fits(room, t, b, epoch, x) && !NamedBefore(log, n)
  {
    NamedIsRequested(log, t, n);
    ConsumeCommitsAt(room, t, b, epoch, n, x);
  }

  /** A late event followed by any event but a correction that retracts evidence ends the room: whatever is consumed,
      replayed or rebuilt, in any order and by any builds, nothing after the late event is ever consumed. */
  lemma {:induction false} LateEventStops(room: string, log: RoomLog, ops: seq<Op>, p: nat)
    requires forall op :: op in ops ==> Reads(log, op)
    requires DistinctIds(log) && 1 <= p < |log.events| && Named(log, p).Some? && RetractsNothing(log, log.events[p])
    ensures After(room, ops).checkpoint <= p
  {
    RunRequests(room, log, ops);
    StillNamed(log, p);
    assert SameName(log, p, p + 1);
    assert NamedBefore(log, p + 1);
  }

  // ----- one such room -----

  function Message(seq_: int, id: string, at: Instant, seen: Instant): P.RoomEvent {
    P.RoomEvent("room", seq_, id, 1, "message.added", Some(at), seen, P.Add, Some("message of " + id), None, "hello")
  }

  /** Three messages; the second one's clock is ten seconds behind. */
  const LATE_LOG := RoomLog([Message(1, "a", 10000, 10000), Message(2, "b", 0, 11000), Message(3, "c", 12000, 12000)], map[])

  lemma AtomChat(c: P.Core<bool>, e: P.RoomEvent)
    requires e.kind == "message.added" && e.operation.Add? && e.replyTo.None?
    ensures P.Applied(SILENT, c, e, false).chats == c.chats + [P.ChatOf(c, e)]
    ensures P.ChatOf(c, e).effectiveTime == P.Effective(e) && P.ChatOf(c, e).event == e
  {
  }

  lemma {:induction false} ChatsOfMessages(es: seq<P.RoomEvent>)
    requires forall i :: 0 <= i < |es| ==> es[i].kind == "message.added" && es[i].operation.Add? && es[i].replyTo.None?
    ensures |Chats(es)| == |es|
    ensures forall i :: 0 <= i < |es| ==> Chats(es)[i].event == es[i] && Chats(es)[i].effectiveTime == P.Effective(es[i])
  {
    if es != [] {
      var init, last := es[..|es| - 1], es[|es| - 1];
      ChatsOfMessages(init);
      AtomChat(P.ApplyFrom(SILENT, P.EmptyCore(SILENT, false), init, false), last);
    }
  }

  lemma LateLogNames()
    ensures DistinctIds(LATE_LOG)
    ensures Named(LATE_LOG, 1) == None && Named(LATE_LOG, 2) == Some("b")
  {
    var es := LATE_LOG.events;
    assert Effective(LATE_LOG, 1) == es[..1] && Effective(LATE_LOG, 2) == es[..2];
    ChatsOfMessages(es[..1]);
    ChatsOfMessages(es[..2]);
    var one, two := Chats(es[..1]), Chats(es[..2]);
    assert one[..0] == [] && two[..1][..0] == [];
    assert GateAfter([]) == Gate(None, []);
    assert GateAfter(one) == Gate(Some(10000), []);
    assert GateAfter(two[..1]) == Gate(Some(10000), []);
    assert GateAfter(two) == Gate(Some(10000), ["b"]);
    NothingFirst(es[..1]);
    assert es[..2][..1] == es[..1];
    assert es[..1][..0] == [];
    assert FirstOf(es[..1], ["b"]) == None;
  }

  lemma {:induction false} NothingFirst(es: seq<P.RoomEvent>)
    ensures FirstOf(es, []) == None
  {
    if es != [] { NothingFirst(es[..|es| - 1]); }
  }

  ghost predicate BlankRows(r: KeyRows) {
    forall k :: k in r.snapshots ==> r.snapshots[k].payload == EchoPayload(EMPTY_GRAPH)
  }

  /** Every stored map is empty. */
  ghost predicate Blank(t: Tables) {
    AllKeys(t) && forall key: ProjectionKey :: key.IsEcho() ==> BlankRows(t.rows[key])
  }

  lemma PlainStaysBlank(room: string, t: Tables, b: Build, epoch: Epoch, n: nat, x: Inputs, t': Tables)
    requires Invariant(t) && Blank(t) && Plain(room, x) && Targets(t, b, epoch, n)
    requires Materialized(room, t, b, epoch, n, x, true) == Ok(t')
    ensures Blank(t')
  {
    MaterializedRows(room, t, b, epoch, n, x, true, t');
    StepsStayBlank(t, b, epoch, n, ViewsOf(room, x).value, t');
  }

  lemma StepsStayBlank(t: Tables, b: Build, epoch: Epoch, n: nat, v: Views, t': Tables)
    requires Blank(t) && AllKeys(t') && v == Views(EMPTY_GRAPH, EMPTY_GRAPH) && RoomSteps(t, b, epoch, n, v, t')
    ensures Blank(t')
  {
    forall key: ProjectionKey | key.IsEcho() ensures BlankRows(t'.rows[key]) {
      assert StepTaken(key, t.rows[key], b, epoch, GraphFor(key, v), t'.rows[key]);
      StepStaysBlank(key, t.rows[key], b, epoch, t'.rows[key]);
    }
  }

  lemma StepStaysBlank(key: ProjectionKey, r: KeyRows, b: Build, epoch: Epoch, r': KeyRows)
    requires key.IsEcho() && BlankRows(r) && StepTaken(key, r, b, epoch, EMPTY_GRAPH, r')
    ensures BlankRows(r')
  {
  }

  lemma BlankBaseline(t: Tables, key: ProjectionKey, epoch: Epoch)
    requires Invariant(t) && Blank(t) && key.IsEcho()
    ensures PatchBaseline(t.rows[key], epoch) == EMPTY_GRAPH
  {
    assert KeyInvariant(key, t.rows[key], t.checkpoint);
  }

  /** Whatever plain event comes next is consumed, unless it names an event that has been named. */
  lemma PlainCommits(room: string, t: Tables, b: Build, epoch: Epoch, n: nat, x: Inputs) returns (t': Tables)
    requires Invariant(t) && Blank(t) && Plain(room, x) && n == t.checkpoint + 1 && CurrentEpoch(t, b) == Ok(epoch)
    requires VersionFree(t, b) && (x.late.Some? ==> x.late.value !in t.replays)
    ensures Consumed(room, t, b, n, x) == Ok(t')
    ensures Invariant(t') && Blank(t') && t'.checkpoint == n && Installed(t', b, epoch)
  {
    forall key: ProjectionKey ensures KeyFits(key, t.rows[key], b, epoch, n, Views(EMPTY_GRAPH, EMPTY_GRAPH), x, true) {
      if key.IsEcho() {
        BlankBaseline(t, key, epoch);
        QuietFits(key, t.rows[key], b, epoch, n, room, x);
      }
    }
    ConsumeCommitsAt(room, t, b, epoch, n, x);
    t' := Consumed(room, t, b, n, x).value;
    ConsumeKeeps(room, t, b, n, x, t');
    ConsumeTargets(t, b, epoch);
    ConsumedIs(room, t, b, epoch, n, x);
    PlainStaysBlank(room, t, b, epoch, n, x, t');
  }

  const LATE_CHAT := CHAT.(late := Some("b"))

  const LATE_RUN := [Consume(BUILD_A, 1, CHAT), Consume(BUILD_A, 2, LATE_CHAT)]

  /** The first event, quiet, and the second, which names one. */
  lemma TwoPlain(room: string, b: Build, t: Tables, x: Inputs, y: Inputs, one: Op, two: Op)
    requires Untouched(t) && Blank(t) && t.replays == map[]
    requires Quiet(room, x) && Plain(room, y) && one == Consume(b, 1, x) && two == Consume(b, 2, y)
    ensures Execute(NextOf(room), t, [one, two]).checkpoint == 2
  {
    CurrentEpochDefined(t, b);
    var t1 := PlainCommits(room, t, b, InitialEpoch, 1, x);
    Continues(room, t, b, x, t1);
    var t2 := PlainCommits(room, t1, b, InitialEpoch, 2, y);
    TwoSteps(room, t, one, t1, two, t2);
  }

  lemma Continues(room: string, t: Tables, b: Build, x: Inputs, t': Tables)
    requires Untouched(t) && t.replays == map[] && x.late.None? && Consumed(room, t, b, 1, x) == Ok(t')
    requires Invariant(t') && t'.checkpoint == 1 && Installed(t', b, InitialEpoch)
    ensures CurrentEpoch(t', b) == Ok(InitialEpoch) && VersionFree(t', b) && t'.replays == map[]
  {
    CurrentEpochDefined(t', b);
    FirstRequests(room, t, b, 1, x, t');
  }

  lemma FirstRequests(room: string, t: Tables, b: Build, n: nat, x: Inputs, t': Tables)
    requires Invariant(t) && n == t.checkpoint + 1 && t.replays == map[] && x.late.None? && Consumed(room, t, b, n, x) == Ok(t')
    ensures t'.replays == map[]
  {
    ConsumeRequestsOnce(room, t, b, n, x, t');
  }

  lemma TwoSteps(room: string, t0: Tables, a: Op, t1: Tables, b: Op, t2: Tables)
    requires AllKeys(t0) && AllKeys(t1) && Attempt(room, t0, a) == Ok(t1) && Attempt(room, t1, b) == Ok(t2)
    ensures Execute(NextOf(room), t0, [a, b]) == t2
  {
    ExecuteSnoc(NextOf(room), t0, [], a);
    ExecuteSnoc(NextOf(room), t0, [a], b);
    assert [] + [a] == [a] && [a] + [b] == [a, b];
  }

  lemma FirstTwo(room: string)
    ensures After(room, LATE_RUN).checkpoint == 2
  {
    ChatIsQuiet(room);
    EmptyUntouched();
    EveryKeyEmpty();
    TwoPlain(room, BUILD_A, EMPTY_TABLES, CHAT, LATE_CHAT, LATE_RUN[0], LATE_RUN[1]);
  }

  lemma LateRunReads()
    ensures forall op :: op in LATE_RUN ==> Reads(LATE_LOG, op)
  {
    LateLogNames();
    assert forall op :: op in LATE_RUN ==> op == LATE_RUN[0] || op == LATE_RUN[1];
  }

  lemma LateLogStops(room: string, ops: seq<Op>)
    requires forall op :: op in ops ==> Reads(LATE_LOG, op)
    ensures After(room, ops).checkpoint <= 2
  {
    LateLogNames();
    LateEventStops(room, LATE_LOG, ops, 2);
  }

  lemma NeverBack(room: string, ops: seq<Op>, more: seq<Op>)
    ensures After(room, ops).checkpoint <= After(room, ops + more).checkpoint
  {
    ReachableInvariant(room, ops);
    RunKeeps(room, After(room, ops), more);
    ExecuteConcat(NextOf(room), EMPTY_TABLES, ops, more);
  }

  /** The late message is consumed, and nothing after it ever is. */
  lemma {:induction false} LateEventRun(room: string, more: seq<Op>)
    requires forall op :: op in more ==> Reads(LATE_LOG, op)
    ensures forall op :: op in LATE_RUN ==> Reads(LATE_LOG, op)
    ensures After(room, LATE_RUN).checkpoint == 2 && After(room, LATE_RUN + more).checkpoint == 2
  {
    LateRunReads();
    FirstTwo(room);
    LateLogStops(room, LATE_RUN + more);
    NeverBack(room, LATE_RUN, more);
  }
}
