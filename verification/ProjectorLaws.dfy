/** The order in which events arrive does not matter; a replay forgets only what replays are meant to forget. */
module ProjectorLaws {
  import opened Domain
  import opened Ordering
  import opened Sequences
  import opened Projector

  // ----- one log, delivered in any order -----

  /** One valid event per room sequence number 1..n, with distinct identities. */
  ghost predicate IsLog(room: string, log: seq<RoomEvent>) {
    && (forall i :: 0 <= i < |log| ==> log[i].room == room && log[i].roomSeq == i + 1 && log[i].revision >= 1)
    && (forall i, j :: 0 <= i < j < |log| ==> log[i].eventId != log[j].eventId)
  }

  /** Numbers of the log that have been delivered. */
  ghost predicate Within(log: seq<RoomEvent>, got: set<int>) {
    forall s :: s in got ==> 1 <= s <= |log|
  }

  /** k is the length of the longest delivered prefix. */
  ghost predicate PrefixIs(got: set<int>, k: int) {
    k >= 0 && k + 1 !in got && forall s :: 1 <= s <= k ==> s in got
  }

  lemma PrefixUnique(got: set<int>, k: int, l: int)
    requires PrefixIs(got, k) && PrefixIs(got, l)
    ensures k == l
  {
  }

  /** The delivered events beyond the prefix, by number. */
  function Rest(log: seq<RoomEvent>, got: set<int>, k: int): map<int, RoomEvent>
    requires Within(log, got)
  {
    map s | s in got && s > k :: log[s - 1]
  }

  ghost predicate SortedHistory(h: seq<RoomEvent>) { SortedBy(h, HistoryKey) }

  ghost predicate Delivered(log: seq<RoomEvent>, got: set<int>, e: RoomEvent) {
    e.roomSeq in got && 1 <= e.roomSeq <= |log| && log[e.roomSeq - 1] == e
  }

  ghost predicate HistoryIs(log: seq<RoomEvent>, got: set<int>, h: seq<RoomEvent>) {
    SortedHistory(h) && forall e :: e in h <==> Delivered(log, got, e)
  }

  /** What a projector holds after any deliveries covering exactly `got`. */
  ghost predicate Holds<R>(g: Engine<R>, log: seq<RoomEvent>, got: set<int>, k: int, s: State<R>) {
    && Within(log, got) && PrefixIs(got, k) && k <= |log|
    && s.through == k && s.pending == Rest(log, got, k)
    && s.core == ApplyFrom(g, EmptyCore(g, false), log[..k], false)
    && HistoryIs(log, got, s.history)
  }

  lemma LessHead(a: RoomEvent, b: RoomEvent)
    requires a.roomSeq != b.roomSeq
    ensures Less(HistoryKey(a), HistoryKey(b)) <==> a.roomSeq < b.roomSeq
  {
    LessAt(HistoryKey(a), HistoryKey(b), 0);
  }

  /** Sorting a new key into a sorted list keeps it sorted and adds that event only. */
  lemma {:induction false} InsertSorts(h: seq<RoomEvent>, e: RoomEvent)
    requires SortedHistory(h) && forall i :: 0 <= i < |h| ==> HistoryKey(h[i]) != HistoryKey(e)
    ensures SortedHistory(Insert(h, e))
    ensures forall x :: x in Insert(h, e) <==> x in h || x == e
  {
    var last := |h| - 1;
    if h == [] {
    } else if !Less(HistoryKey(e), HistoryKey(h[last])) {
      LessTotal(HistoryKey(e), HistoryKey(h[last]));
      forall i | 0 <= i < |h| ensures Less(HistoryKey(h[i]), HistoryKey(e)) {
        if i < last { LessTransitive(HistoryKey(h[i]), HistoryKey(h[last]), HistoryKey(e)); }
      }
    } else {
      var front := h[..last];
      assert h == front + [h[last]];
      InsertSorts(front, e);
      var r := Insert(front, e);
      forall i | 0 <= i < |r| ensures Less(HistoryKey(r[i]), HistoryKey(h[last])) {
        assert r[i] in r;
        if r[i] != e {
          var j :| 0 <= j < |front| && front[j] == r[i];
          assert Less(HistoryKey(h[j]), HistoryKey(h[last]));
        }
      }
    }
  }

  /** Draining applies exactly the events up to the first number that is missing. */
  lemma {:induction false} DrainApplies<R>(g: Engine<R>, log: seq<RoomEvent>, got: set<int>, c: Core<R>,
          through: int, k: int)
    requires Within(log, got) && PrefixIs(got, k) && 0 <= through <= k <= |log|
    requires c == ApplyFrom(g, EmptyCore(g, false), log[..through], false)
    ensures Drained(g, c, through, Rest(log, got, through))
            == (ApplyFrom(g, EmptyCore(g, false), log[..k], false), k, Rest(log, got, k))
    decreases k - through
  {
    var next := through + 1;
    if through < k {
      assert next in got && Rest(log, got, through)[next] == log[through];
      assert Rest(log, got, through) - {next} == Rest(log, got, next);
      assert log[..next][..through] == log[..through] && log[..next][through] == log[through];
      DrainApplies(g, log, got, Applied(g, c, log[through], false), next, k);
    }
  }

  lemma NotKnown(room: string, log: seq<RoomEvent>, got: set<int>, h: seq<RoomEvent>, s: int)
    requires IsLog(room, log) && HistoryIs(log, got, h) && 1 <= s <= |log|
    ensures Known(h, log[s - 1]) <==> s in got
    ensures s !in got ==> forall i :: 0 <= i < |h| ==> HistoryKey(h[i]) != HistoryKey(log[s - 1])
  {
    var e := log[s - 1];
    if s in got {
      assert Delivered(log, got, e);
      assert e in h;
      var i :| 0 <= i < |h| && h[i] == e;
    } else {
      forall i | 0 <= i < |h| ensures h[i].eventId != e.eventId && HistoryKey(h[i]) != HistoryKey(e) {
        assert h[i] in h;
        assert Delivered(log, got, h[i]);
        assert HistoryKey(h[i])[0] == h[i].roomSeq && HistoryKey(e)[0] == s;
      }
    }
  }

  lemma DeliveredGrows(log: seq<RoomEvent>, got: set<int>, s: int, e: RoomEvent, x: RoomEvent)
    requires 1 <= s <= |log| && log[s - 1] == e && e.roomSeq == s
    ensures Delivered(log, got + {s}, x) <==> Delivered(log, got, x) || x == e
  {
  }

  lemma HistoryGrows(room: string, log: seq<RoomEvent>, got: set<int>, h: seq<RoomEvent>, s: int, e: RoomEvent)
    requires HistoryIs(log, got, h) && 1 <= s <= |log| && log[s - 1] == e && e.roomSeq == s
    requires forall i :: 0 <= i < |h| ==> HistoryKey(h[i]) != HistoryKey(e)
    ensures HistoryIs(log, got + {s}, Insert(h, e))
  {
    InsertSorts(h, e);
    forall x ensures x in Insert(h, e) <==> Delivered(log, got + {s}, x) {
      DeliveredGrows(log, got, s, e, x);
    }
  }

  lemma ElementsSnoc<T>(xs: seq<T>)
    requires xs != []
    ensures Elements(xs) == Elements(xs[..|xs| - 1]) + {xs[|xs| - 1]}
  {
    assert xs == xs[..|xs| - 1] + [xs[|xs| - 1]];
  }

  lemma PrefixExtends(log: seq<RoomEvent>, got: set<int>, from: int) returns (k: int)
    requires Within(log, got) && 0 <= from <= |log| && forall s :: 1 <= s <= from ==> s in got
    ensures from <= k <= |log| && PrefixIs(got, k)
  {
    k := from;
    while k + 1 in got
      invariant from <= k <= |log| && forall s :: 1 <= s <= k ==> s in got
      decreases |log| - k
    {
      k := k + 1;
    }
  }

  /** One delivery, first or repeated, early or in turn. */
  lemma DeliveryKeeps<R>(g: Engine<R>, room: string, log: seq<RoomEvent>, got: set<int>, k: int, s: State<R>,
          n: int) returns (k': int)
    requires IsLog(room, log) && Holds(g, log, got, k, s) && 1 <= n <= |log|
    ensures Consumed(g, room, s, log[n - 1]).Ok?
    ensures Holds(g, log, got + {n}, k', Consumed(g, room, s, log[n - 1]).value.1)
  {
    var e := log[n - 1];
    NotKnown(room, log, got, s.history, n);
    if n in got {
      assert got + {n} == got;
      k' := k;
    } else {
      HistoryGrows(room, log, got, s.history, n, e);
      assert n > k;
      if n > k + 1 {
        k' := k;
        assert s.pending[n := e] == Rest(log, got + {n}, k);
      } else {
        k' := PrefixExtends(log, got + {n}, k + 1);
        assert s.pending[n := e] == Rest(log, got + {n}, k);
        DrainApplies(g, log, got + {n}, s.core, k, k');
      }
    }
  }

  /** Deliveries by number, in any order and with any repetitions; a refused event leaves the projector as it was. */
  function Deliver<R>(g: Engine<R>, room: string, log: seq<RoomEvent>, order: seq<int>): State<R>
    requires forall i :: 0 <= i < |order| ==> 1 <= order[i] <= |log|
  {
    if order == [] then Start(g)
    else
      var s := Deliver(g, room, log, order[..|order| - 1]);
      match Consumed(g, room, s, log[order[|order| - 1] - 1]) case Ok(r) => r.1 case Err(_) => s
  }

  lemma DeliverSnoc<R>(g: Engine<R>, room: string, log: seq<RoomEvent>, order: seq<int>)
    requires order != [] && forall i :: 0 <= i < |order| ==> 1 <= order[i] <= |log|
    ensures var n := |order| - 1;
            var step := Consumed(g, room, Deliver(g, room, log, order[..n]), log[order[n] - 1]);
            Deliver(g, room, log, order) == if step.Ok? then step.value.1 else Deliver(g, room, log, order[..n])
  {
  }

  /** At every moment the applied events are exactly the longest contiguous delivered prefix, and the pending ones
      exactly the delivered rest. */
  lemma {:induction false} DeliveredPrefix<R>(g: Engine<R>, room: string, log: seq<RoomEvent>,
          order: seq<int>) returns (k: int)
    requires IsLog(room, log) && forall i :: 0 <= i < |order| ==> 1 <= order[i] <= |log|
    ensures Holds(g, log, Elements(order), k, Deliver(g, room, log, order))
  {
    if order == [] {
      k := 0;
      assert Elements(order) == {};
    } else {
      var n := |order| - 1;
      var before := DeliveredPrefix(g, room, log, order[..n]);
      k := DeliveryKeeps(g, room, log, Elements(order[..n]), before, Deliver(g, room, log, order[..n]), order[n]);
      ElementsSnoc(order);
      DeliverSnoc(g, room, log, order);
    }
  }

  lemma SameHistory(log: seq<RoomEvent>, got: set<int>, h: seq<RoomEvent>, h': seq<RoomEvent>)
    requires HistoryIs(log, got, h) && HistoryIs(log, got, h')
    ensures h == h'
  {
    forall e ensures e in h <==> e in h' {
      assert e in h <==> Delivered(log, got, e);
    }
    SortedUnique(h, h', HistoryKey);
  }

  /** Two delivery orders that cover the same events leave the same state behind. */
  lemma {:induction false} OrderIrrelevant<R>(g: Engine<R>, room: string, log: seq<RoomEvent>, a: seq<int>, b: seq<int>)
    requires IsLog(room, log)
    requires (forall i :: 0 <= i < |a| ==> 1 <= a[i] <= |log|) && (forall i :: 0 <= i < |b| ==> 1 <= b[i] <= |log|)
    requires Elements(a) == Elements(b)
    ensures Deliver(g, room, log, a) == Deliver(g, room, log, b)
  {
    var k := DeliveredPrefix(g, room, log, a);
    var l := DeliveredPrefix(g, room, log, b);
    PrefixUnique(Elements(a), k, l);
    SameHistory(log, Elements(a), Deliver(g, room, log, a).history, Deliver(g, room, log, b).history);
  }

  /** When every event has arrived, they have all been applied in room order and nothing is pending. */
  lemma {:induction false} FullDelivery<R>(g: Engine<R>, room: string, log: seq<RoomEvent>, order: seq<int>)
    requires IsLog(room, log) && forall s :: s in Elements(order) <==> 1 <= s <= |log|
    ensures forall i :: 0 <= i < |order| ==> 1 <= order[i] <= |log|
    ensures Deliver(g, room, log, order) == State(ApplyFrom(g, EmptyCore(g, false), log, false), |log|, log, map[])
  {
    forall i | 0 <= i < |order| ensures 1 <= order[i] <= |log| {
      assert order[i] in Elements(order);
    }
    var k := DeliveredPrefix(g, room, log, order);
    assert |log| + 1 !in Elements(order);
    assert k == |log| by { PrefixUnique(Elements(order), k, |log|); }
    assert log[..k] == log;
    assert Rest(log, Elements(order), k) == map[];
    assert HistoryIs(log, Elements(order), log) by {
      forall i, j | 0 <= i < j < |log| ensures Less(HistoryKey(log[i]), HistoryKey(log[j])) { LessHead(log[i], log[j]); }
      forall e ensures e in log <==> Delivered(log, Elements(order), e) {}
    }
    SameHistory(log, Elements(order), Deliver(g, room, log, order).history, log);
  }

  // ----- replay -----

  /** What a projector has received, whatever the numbers say. */
  ghost predicate Received<R>(s: State<R>, events: set<RoomEvent>) {
    SortedHistory(s.history) && forall e :: e in s.history <==> e in events
  }

  /** Projectors that hold the same events agree after a replay. */
  lemma ReplayAgrees<R>(g: Engine<R>, a: State<R>, b: State<R>, events: set<RoomEvent>)
    requires Received(a, events) && Received(b, events)
    ensures Replayed(g, a) == Replayed(g, b)
  {
    SortedUnique(a.history, b.history, HistoryKey);
    FlagIrrelevant(g, a.history, a.core.requiresReplay, b.core.requiresReplay);
  }

  /** Everything but the replay flag. */
  function Unflagged<R>(c: Core<R>): Core<R> { c.(requiresReplay := false) }

  lemma {:induction false} FlagIrrelevant<R>(g: Engine<R>, es: seq<RoomEvent>, p: bool, q: bool)
    ensures Unflagged(ApplyFrom(g, EmptyCore(g, p), es, true)) == Unflagged(ApplyFrom(g, EmptyCore(g, q), es, true))
  {
    if es != [] {
      FlagIrrelevant(g, es[..|es| - 1], p, q);
    }
  }

  /** A valid event with a new identity is recorded, whatever its number. */
  lemma ConsumeRecords<R>(g: Engine<R>, room: string, s: State<R>, events: set<RoomEvent>, e: RoomEvent)
    requires Received(s, events) && Consumed(g, room, s, e).Ok?
    requires forall x :: x in events && x != e ==> x.eventId != e.eventId
    ensures Received(Consumed(g, room, s, e).value.1, events + {e})
  {
    if Known(s.history, e) {
      var i :| 0 <= i < |s.history| && s.history[i].eventId == e.eventId && s.history[i].revision == e.revision;
      assert s.history[i] in s.history;
      assert e in events;
      assert events + {e} == events;
    } else {
      forall i | 0 <= i < |s.history| ensures HistoryKey(s.history[i]) != HistoryKey(e) {
        assert s.history[i] in s.history;
        if HistoryKey(s.history[i]) == HistoryKey(e) {
          assert CodePoints(s.history[i].eventId) == HistoryKey(s.history[i])[1..] == HistoryKey(e)[1..] == CodePoints(e.eventId);
          CodePointsInjective(s.history[i].eventId, e.eventId);
        }
      }
      InsertSorts(s.history, e);
    }
  }

  function ConsumeAll<R>(g: Engine<R>, room: string, es: seq<RoomEvent>): State<R> {
    if es == [] then Start(g)
    else
      var s := ConsumeAll(g, room, es[..|es| - 1]);
      match Consumed(g, room, s, es[|es| - 1]) case Ok(r) => r.1 case Err(_) => s
  }

  ghost predicate Acceptable(room: string, e: RoomEvent) { e.room == room && e.roomSeq >= 1 && e.revision >= 1 }

  ghost predicate DistinctIds(events: set<RoomEvent>) {
    forall x, y :: x in events && y in events && x != y ==> x.eventId != y.eventId
  }

  lemma {:induction false} AllRecorded<R>(g: Engine<R>, room: string, es: seq<RoomEvent>)
    requires DistinctIds(Elements(es)) && forall e :: e in es ==> Acceptable(room, e)
    ensures Received(ConsumeAll(g, room, es), Elements(es))
  {
    if es != [] {
      var n := |es| - 1;
      ElementsSnoc(es);
      AllRecorded(g, room, es[..n]);
      ConsumeRecords(g, room, ConsumeAll(g, room, es[..n]), Elements(es[..n]), es[n]);
    }
  }

  /** Two projectors that received the same events with distinct identities, in any orders and even with clashing
      numbers, are in the same state after a replay. */
  lemma {:induction false} ReplayOrderIrrelevant<R>(g: Engine<R>, room: string, a: seq<RoomEvent>, b: seq<RoomEvent>)
    requires Elements(a) == Elements(b) && DistinctIds(Elements(a)) && forall e :: e in a || e in b ==> Acceptable(room, e)
    ensures Replayed(g, ConsumeAll(g, room, a)) == Replayed(g, ConsumeAll(g, room, b))
  {
    AllRecorded(g, room, a);
    AllRecorded(g, room, b);
    ReplayAgrees(g, ConsumeAll(g, room, a), ConsumeAll(g, room, b), Elements(a));
  }

  /** The part of a core that does not depend on the lateness gate. */
  ghost predicate SameCursor<R>(a: Core<R>, b: Core<R>) {
    && a.maxSeen == b.maxSeen && a.watermark == b.watermark && a.warnings == b.warnings
    && a.lineage == b.lineage && a.chats == b.chats
  }

  lemma {:induction false} GateIrrelevant<R>(g: Engine<R>, es: seq<RoomEvent>, p: bool, q: bool)
    ensures SameCursor(ApplyFrom(g, EmptyCore(g, p), es, false), ApplyFrom(g, EmptyCore(g, q), es, true))
  {
    if es != [] {
      GateIrrelevant(g, es[..|es| - 1], p, q);
    }
  }

  lemma {:induction false} LastOfLog(room: string, log: seq<RoomEvent>)
    requires IsLog(room, log)
    ensures LastSequence(log) == |log|
  {
    if log != [] {
      LastOfLog(room, log[..|log| - 1]);
    }
  }

  /** Replaying a fully applied log keeps its cursor, watermark, warnings, lineage and chat history. */
  lemma {:induction false} ReplayKeepsCursor<R>(g: Engine<R>, room: string, log: seq<RoomEvent>, order: seq<int>)
    requires IsLog(room, log) && forall s :: s in Elements(order) <==> 1 <= s <= |log|
    ensures forall i :: 0 <= i < |order| ==> 1 <= order[i] <= |log|
    ensures var s := Deliver(g, room, log, order);
            var r := Replayed(g, s);
            && r.through == s.through && r.history == s.history && r.pending == s.pending
            && SameCursor(r.core, s.core) && !r.core.requiresReplay
  {
    FullDelivery(g, room, log, order);
    LastOfLog(room, log);
    GateIrrelevant(g, log, false, Deliver(g, room, log, order).core.requiresReplay);
  }

  // ----- the watermark -----

  /** The largest effective time of a non-empty list of events. */
  function LatestEffective(es: seq<RoomEvent>): int
    requires es != []
  {
    if |es| == 1 then Effective(es[0]) else Max(LatestEffective(es[..|es| - 1]), Effective(es[|es| - 1]))
  }

  /** After any events the watermark is the largest min(event time, ingest time), less five seconds. */
  lemma {:induction false} WatermarkIs<R>(g: Engine<R>, es: seq<RoomEvent>, flag: bool, replaying: bool)
    requires es != []
    ensures var c := ApplyFrom(g, EmptyCore(g, flag), es, replaying);
            c.maxSeen == Some(LatestEffective(es)) && c.watermark == Some(LatestEffective(es) - ALLOWED_LATENESS)
  {
    var init := es[..|es| - 1];
    if init == [] {
      assert ApplyFrom(g, EmptyCore(g, flag), init, replaying) == EmptyCore(g, flag);
    } else {
      WatermarkIs(g, init, flag, replaying);
    }
  }

  /** LatestEffective is an upper bound, and it is reached. */
  lemma {:induction false} LatestIsMaximum(es: seq<RoomEvent>) returns (at: nat)
    requires es != []
    ensures at < |es| && Effective(es[at]) == LatestEffective(es)
    ensures forall i :: 0 <= i < |es| ==> Effective(es[i]) <= LatestEffective(es)
  {
    var last := |es| - 1;
    if last == 0 {
      at := 0;
    } else {
      var init := LatestIsMaximum(es[..last]);
      at := if Effective(es[last]) > LatestEffective(es[..last]) then last else init;
      forall i | 0 <= i < |es| ensures Effective(es[i]) <= LatestEffective(es) {
        assert i < last ==> es[..last][i] == es[i];
      }
    }
  }

  /** If ingest times never go back and an event's own clock lags by at most five seconds, it is never late, however
      far ahead the clocks of earlier events ran. */
  lemma {:induction false} NeverLate<R>(g: Engine<R>, es: seq<RoomEvent>, e: RoomEvent, flag: bool, replaying: bool)
    requires forall i :: 0 <= i < |es| ==> es[i].ingestTime <= e.ingestTime
    requires e.ingestTime - EventTime(e) <= ALLOWED_LATENESS
    ensures !Decision(ApplyFrom(g, EmptyCore(g, flag), es, replaying), e).tooLate
  {
    if es != [] {
      WatermarkIs(g, es, flag, replaying);
      var at := LatestIsMaximum(es);
    }
  }
}
