/** Which event a materialisation names as late, as a matter of the room's log. */
module LateEvents {
  import opened Domain
  import P = Projector

  // ----- the lateness gate of the reference algorithms -----

  /** The newest time an accepted chat event carried, and the events refused for being too far behind it. */
  datatype Gate = Gate(watermark: Option<Instant>, late: seq<string>)

  predicate TooLate(g: Gate, c: P.Chat) {
    g.watermark.Some? && c.effectiveTime < g.watermark.value - P.ALLOWED_LATENESS
  }

  /** _is_too_late and the watermark, as both reference algorithms keep them; a refused event moves nothing. */
  function GateAfter(chats: seq<P.Chat>): Gate {
    if chats == [] then Gate(None, [])
    else
      var g, c := GateAfter(chats[..|chats| - 1]), chats[|chats| - 1];
      if TooLate(g, c) then g.(late := g.late + [c.event.eventId])
      else g.(watermark := Some(if g.watermark.Some? then P.Max(g.watermark.value, c.effectiveTime) else c.effectiveTime))
  }

  // ----- chat events do not depend on the algorithms -----

  const SILENT: P.Engine<bool> := P.Engine(false, (r, chat, history, replaying) => (r, false))

  /** The chat events among some events applied in order. */
  function Chats(es: seq<P.RoomEvent>): seq<P.Chat> {
    P.ApplyFrom(SILENT, P.EmptyCore(SILENT, false), es, false).chats
  }

  ghost predicate Agree<R, S>(a: P.Core<R>, b: P.Core<S>) {
    && a.maxSeen == b.maxSeen && a.watermark == b.watermark && a.warnings == b.warnings
    && a.lineage == b.lineage && a.chats == b.chats
  }

  /** Whatever the algorithms do, they are fed the same chat events. */
  lemma {:induction false} EngineIrrelevant<R>(g: P.Engine<R>, es: seq<P.RoomEvent>, flag: bool)
    ensures Agree(P.ApplyFrom(g, P.EmptyCore(g, flag), es, false), P.ApplyFrom(SILENT, P.EmptyCore(SILENT, false), es, false))
  {
    if es != [] { EngineIrrelevant(g, es[..|es| - 1], flag); }
  }

  // ----- the log, and what it looks like when n events have been written -----

  /** The room's events, and for each correction event the events whose evidence it retracts. */
  datatype RoomLog = RoomLog(events: seq<P.RoomEvent>, retracts: map<string, set<string>>)

  ghost predicate DistinctIds(log: RoomLog) {
    forall i, j :: 0 <= i < j < |log.events| ==> log.events[i].eventId != log.events[j].eventId
  }

  /** _suppressed_event_ids: the corrections among the first n events. */
  predicate Suppressed(log: RoomLog, n: nat, id: string)
    requires n <= |log.events|
  {
    exists i :: 0 <= i < n && log.events[i].eventId in log.retracts && id in log.retracts[log.events[i].eventId]
  }

  /** _effective_events: a retracted event keeps its place and says nothing. */
  function Shown(log: RoomLog, n: nat, i: nat): P.RoomEvent
    requires i < n <= |log.events|
  {
    var e := log.events[i];
    if Suppressed(log, n, e.eventId)
    then e.(kind := "analytics.evidence.retracted.v1", messageId := None, replyTo := None, body := "")
    else e
  }

  function Effective(log: RoomLog, n: nat): seq<P.RoomEvent>
    requires n <= |log.events|
  {
    seq(n, i requires 0 <= i < n => Shown(log, n, i))
  }

  /** The first event with one of these identifiers. */
  function FirstOf(es: seq<P.RoomEvent>, ids: seq<string>): Option<string> {
    if es == [] then None
    else
      var before := FirstOf(es[..|es| - 1], ids);
      if before.Some? then before else if es[|es| - 1].eventId in ids then Some(es[|es| - 1].eventId) else None
  }

  /** The event that materialising the n-th event names: the first late one of the log as it then is. */
  function Named(log: RoomLog, n: nat): Option<string>
    requires n <= |log.events|
  {
    var es := Effective(log, n);
    FirstOf(es, GateAfter(Chats(es)).late)
  }

  // ----- an append-only log keeps naming the same event -----

  /** A correction that retracts nothing, or any other event. */
  predicate RetractsNothing(log: RoomLog, e: P.RoomEvent) { e.eventId in log.retracts ==> log.retracts[e.eventId] == {} }

  lemma EffectiveGrows(log: RoomLog, n: nat)
    requires n < |log.events| && RetractsNothing(log, log.events[n])
    ensures Effective(log, n + 1) == Effective(log, n) + [Shown(log, n + 1, n)]
  {
    forall id ensures Suppressed(log, n + 1, id) <==> Suppressed(log, n, id) {
      if Suppressed(log, n + 1, id) {
        var i :| 0 <= i < n + 1 && log.events[i].eventId in log.retracts && id in log.retracts[log.events[i].eventId];
      }
    }
  }

  lemma ChatsGrow(es: seq<P.RoomEvent>, e: P.RoomEvent)
    ensures Chats(es) <= Chats(es + [e])
    ensures |Chats(es + [e])| <= |Chats(es)| + 1
    ensures |Chats(es + [e])| == |Chats(es)| + 1 ==> Chats(es + [e])[|Chats(es)|].event.eventId == e.eventId
  {
    assert (es + [e])[..|es|] == es;
  }

  /** One chat event more makes at most that event late. */
  lemma LateGrows(chats: seq<P.Chat>, more: seq<P.Chat>)
    requires chats <= more && |more| <= |chats| + 1
    ensures GateAfter(chats).late <= GateAfter(more).late
    ensures forall id :: id in GateAfter(more).late ==>
      id in GateAfter(chats).late || (|more| > |chats| && id == more[|chats|].event.eventId)
  {
    if |more| > |chats| {
      assert more[..|chats|] == chats;
    } else {
      assert more == chats;
    }
  }

  lemma {:induction false} FirstOfStays(es: seq<P.RoomEvent>, ids: seq<string>, more: seq<string>, last: string)
    requires ids <= more && forall id :: id in more ==> id in ids || id == last
    requires forall i :: 0 <= i < |es| ==> es[i].eventId != last
    ensures FirstOf(es, more) == FirstOf(es, ids)
  {
    if es != [] { FirstOfStays(es[..|es| - 1], ids, more, last); }
  }

  /** A late event, once named, is named again with the next event, unless that one retracts evidence. */
  lemma StillNamed(log: RoomLog, n: nat)
    requires DistinctIds(log) && n < |log.events| && RetractsNothing(log, log.events[n]) && Named(log, n).Some?
    ensures Named(log, n + 1) == Named(log, n)
  {
    var es, e := Effective(log, n), Shown(log, n + 1, n);
    EffectiveGrows(log, n);
    ChatsGrow(es, e);
    LateGrows(Chats(es), Chats(es + [e]));
    FirstOfStays(es, GateAfter(Chats(es)).late, GateAfter(Chats(es + [e])).late, e.eventId);
    assert (es + [e])[..n] == es;
  }

  /** Something is named exactly if something is late. */
  lemma NamedWhenLate(log: RoomLog, n: nat)
    requires n <= |log.events|
    ensures Named(log, n).Some? <==> GateAfter(Chats(Effective(log, n))).late != []
  {
    var es := Effective(log, n);
    var late := GateAfter(Chats(es)).late;
    LateAreChats(Chats(es));
    ChatsAreEvents(es);
    FirstOfFinds(es, late);
    if late != [] {
      assert late[0] in late;
    }
  }

  lemma {:induction false} LateAreChats(chats: seq<P.Chat>)
    ensures forall id :: id in GateAfter(chats).late ==> exists i :: 0 <= i < |chats| && chats[i].event.eventId == id
  {
    if chats != [] {
      var init := chats[..|chats| - 1];
      LateAreChats(init);
      forall id | id in GateAfter(chats).late ensures exists i :: 0 <= i < |chats| && chats[i].event.eventId == id {
        if id in GateAfter(init).late {
          var i :| 0 <= i < |init| && init[i].event.eventId == id;
          assert chats[i].event.eventId == id;
        } else {
          assert chats[|chats| - 1].event.eventId == id;
        }
      }
    }
  }

  lemma {:induction false} ChatsAreEvents(es: seq<P.RoomEvent>)
    ensures forall i :: 0 <= i < |Chats(es)| ==> exists j :: 0 <= j < |es| && es[j].eventId == Chats(es)[i].event.eventId
  {
    if es == [] {
      assert Chats(es) == [];
    } else {
      var init, last := es[..|es| - 1], es[|es| - 1];
      ChatsAreEvents(init);
      assert es == init + [last];
      ChatsGrow(init, last);
      forall i | 0 <= i < |Chats(es)| ensures exists j :: 0 <= j < |es| && es[j].eventId == Chats(es)[i].event.eventId {
        if i < |Chats(init)| {
          assert Chats(es)[i] == Chats(init)[i];
          var j :| 0 <= j < |init| && init[j].eventId == Chats(init)[i].event.eventId;
          assert es[j].eventId == Chats(es)[i].event.eventId;
        } else {
          assert es[|es| - 1].eventId == Chats(es)[i].event.eventId;
        }
      }
    }
  }

  lemma {:induction false} FirstOfFinds(es: seq<P.RoomEvent>, ids: seq<string>)
    ensures FirstOf(es, ids).Some? <==> exists j :: 0 <= j < |es| && es[j].eventId in ids
  {
    if es != [] {
      FirstOfFinds(es[..|es| - 1], ids);
      if j :| 0 <= j < |es| && es[j].eventId in ids {
        if j < |es| - 1 { assert es[..|es| - 1][j].eventId in ids; }
      }
    }
  }
}
