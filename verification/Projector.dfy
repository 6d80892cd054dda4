/** The streaming projector: events in, in any order, and the reference algorithms fed in room order. */
module Projector {
  import opened Domain
  import opened Ordering

  // ----- events -----

  datatype Operation = Add | Revise | Retract | Delete

  datatype RoomEvent = RoomEvent(
    room: string, roomSeq: int, eventId: string, revision: int, kind: string,
    eventTime: Option<Instant>, ingestTime: Instant,
    operation: Operation, messageId: Option<string>, replyTo: Option<string>, body: string)

  datatype Chat = Chat(event: RoomEvent, effectiveTime: Instant, replyEvent: Option<string>, targetEvent: Option<string>)

  /** The pinned ECHO and TRACE algorithms, taken together and left uninterpreted: one step sees the new chat
      event, the chat history before it, and whether the lateness gate is off; it says whether it wants a replay. */
  datatype Engine<!R> = Engine(initial: R, apply: (R, Chat, seq<Chat>, bool) -> (R, bool))

  // ----- the watermark -----

  const ALLOWED_LATENESS := 5000

  const FUTURE_CLOCK_WARNING := 30000

  function Max(a: int, b: int): int { if a < b then b else a }

  function Min(a: int, b: int): int { if b < a then b else a }

  datatype CursorDecision = CursorDecision(effective: Instant, maxSeen: Instant, watermark: Instant, tooLate: bool, clamped: bool)

  /** advance_watermark; a watermark that does not exist yet is below every instant. */
  function AdvanceWatermark(eventTime: Instant, ingestTime: Instant, maxSeen: Instant,
          watermark: Option<Instant>): CursorDecision {
    var effective := Min(eventTime, ingestTime);
    var seen := Max(maxSeen, effective);
    CursorDecision(effective, seen,
                   if watermark.Some? then Max(watermark.value, seen - ALLOWED_LATENESS) else seen - ALLOWED_LATENESS,
                   watermark.Some? && effective < watermark.value,
                   eventTime - ingestTime > FUTURE_CLOCK_WARNING)
  }

  function EventTime(e: RoomEvent): Instant { if e.eventTime.Some? then e.eventTime.value else e.ingestTime }

  function Effective(e: RoomEvent): Instant { Min(EventTime(e), e.ingestTime) }

  // ----- lineage -----

  type Lineage = map<string, string>

  function Active(l: Lineage, root: Option<string>): Option<string> {
    if root.Some? && root.value != "" && root.value in l then Some(l[root.value]) else None
  }

  predicate Names(root: Option<string>) { root.Some? && root.value != "" }

  /** resolve_before: a reply or a revision of a message that is not active is refused. */
  predicate Resolves(l: Lineage, e: RoomEvent) {
    && (Names(e.replyTo) ==> Active(l, e.replyTo).Some?)
    && (!e.operation.Add? ==> Active(l, e.messageId).Some?)
  }

  function AdvanceLineage(l: Lineage, e: RoomEvent): Lineage {
    if !Names(e.messageId) then l
    else if e.operation.Retract? || e.operation.Delete? then l - {e.messageId.value}
    else l[e.messageId.value := e.eventId]
  }

  // ----- one event -----

  const SEMANTIC_TYPES := {"message.added", "message.revised", "message.retracted", "message.deleted"}

  const CLAMPED := "client_time_future_clamped"

  /** What applying an event reads and writes. */
  datatype Core<!R> = Core(
    maxSeen: Option<Instant>, watermark: Option<Instant>, warnings: seq<string>,
    lineage: Lineage, chats: seq<Chat>, reference: R, requiresReplay: bool)

  function Decision<R>(c: Core<R>, e: RoomEvent): CursorDecision {
    AdvanceWatermark(EventTime(e), e.ingestTime, if c.maxSeen.Some? then c.maxSeen.value else Effective(e), c.watermark)
  }

  function ChatOf<R>(c: Core<R>, e: RoomEvent): Chat {
    Chat(e, Decision(c, e).effective, Active(c.lineage, e.replyTo), Active(c.lineage, e.messageId))
  }

  function Ticked<R>(c: Core<R>, e: RoomEvent): Core<R> {
    var d := Decision(c, e);
    c.(maxSeen := Some(d.maxSeen), watermark := Some(d.watermark),
       warnings := if d.clamped && CLAMPED !in c.warnings then c.warnings + [CLAMPED] else c.warnings)
  }

  /** _apply_one. */
  function Applied<R>(g: Engine<R>, c: Core<R>, e: RoomEvent, replaying: bool): Core<R> {
    var ticked := Ticked(c, e);
    if e.kind !in SEMANTIC_TYPES || !Resolves(c.lineage, e) then ticked
    else
      var chat := ChatOf(c, e);
      var (reference, asks) := g.apply(c.reference, chat, c.chats, replaying);
      ticked.(lineage := AdvanceLineage(c.lineage, e), chats := c.chats + [chat], reference := reference,
              requiresReplay := c.requiresReplay || asks || (Decision(c, e).tooLate && !replaying))
  }

  function EmptyCore<R>(g: Engine<R>, requiresReplay: bool): Core<R> {
    Core(None, None, [], map[], [], g.initial, requiresReplay)
  }

  /** Events applied one after the other. */
  function ApplyFrom<R>(g: Engine<R>, c: Core<R>, es: seq<RoomEvent>, replaying: bool): Core<R> {
    if es == [] then c
    else Applied(g, ApplyFrom(g, c, es[..|es| - 1], replaying), es[|es| - 1], replaying)
  }

  // ----- the projector -----

  datatype State<!R> = State(core: Core<R>, through: int, history: seq<RoomEvent>, pending: map<int, RoomEvent>)

  datatype ConsumeError = ForeignRoom | InvalidSequence | InvalidRevision

  datatype Receipt = Duplicate | Late | Blocked | Advanced

  datatype SequenceDecision = Seen | Next | Gap

  function DecideSequence(roomSeq: int, through: int): SequenceDecision {
    if roomSeq <= through then Seen else if roomSeq == through + 1 then Next else Gap
  }

  function HistoryKey(e: RoomEvent): seq<int> { [e.roomSeq] + CodePoints(e.eventId) }

  /** A stable sort of a sorted list with one more event at its end. */
  function Insert(h: seq<RoomEvent>, e: RoomEvent): seq<RoomEvent> {
    if h == [] || !Less(HistoryKey(e), HistoryKey(h[|h| - 1])) then h + [e]
    else Insert(h[..|h| - 1], e) + [h[|h| - 1]]
  }

  predicate Known(h: seq<RoomEvent>, e: RoomEvent) {
    exists i :: 0 <= i < |h| && h[i].eventId == e.eventId && h[i].revision == e.revision
  }

  /** Pending events are applied as long as the next one is there. */
  function Drained<R>(g: Engine<R>, c: Core<R>, through: int, pending: map<int, RoomEvent>): (Core<R>, int,
          map<int, RoomEvent>)
    decreases pending.Keys
  {
    var next := through + 1;
    if next !in pending then (c, through, pending)
    else
      assert (pending - {next}).Keys == pending.Keys - {next};
      Drained(g, Applied(g, c, pending[next], false), next, pending - {next})
  }

  function Consumed<R>(g: Engine<R>, room: string, s: State<R>, e: RoomEvent): Result<(Receipt, State<R>), ConsumeError> {
    if e.room != room then Err(ForeignRoom)
    else if e.roomSeq < 1 then Err(InvalidSequence)
    else if e.revision < 1 then Err(InvalidRevision)
    else if Known(s.history, e) then Ok((Duplicate, s))
    else
      var history := Insert(s.history, e);
      match DecideSequence(e.roomSeq, s.through)
      case Seen => Ok((Late, s.(history := history, core := s.core.(requiresReplay := true))))
      case Gap => Ok((Blocked, s.(history := history, pending := s.pending[e.roomSeq := e])))
      case Next =>
        var (core, through, pending) := Drained(g, s.core, s.through, s.pending[e.roomSeq := e]);
        Ok((Advanced, State(core, through, history, pending)))
  }

  function LastSequence(es: seq<RoomEvent>): int {
    if es == [] then 0 else Max(LastSequence(es[..|es| - 1]), es[|es| - 1].roomSeq)
  }

  /** replay: everything again from the start, gaps and all, with the lateness gate off. */
  function Replayed<R>(g: Engine<R>, s: State<R>): State<R> {
    var core := ApplyFrom(g, EmptyCore(g, s.core.requiresReplay), s.history, true);
    State(core.(requiresReplay := false), LastSequence(s.history), s.history, map[])
  }

  function Start<R>(g: Engine<R>): State<R> { State(EmptyCore(g, false), 0, [], map[]) }

  class StreamingProjector<R> {
    const engine: Engine<R>
    const room: string
    var through: int
    var requiresReplay: bool
    var history: seq<RoomEvent>
    var reference: R
    var lineage: Lineage
    var maxSeen: Option<Instant>
    var watermark: Option<Instant>
    var warnings: seq<string>
    var pending: map<int, RoomEvent>
    var chats: seq<Chat>

    ghost function CoreState(): Core<R> reads this {
      Core(maxSeen, watermark, warnings, lineage, chats, reference, requiresReplay)
    }

    ghost function Contents(): State<R> reads this { State(CoreState(), through, history, pending) }

    constructor (engine: Engine<R>, room: string)
      ensures this.engine == engine && this.room == room && Contents() == Start(engine)
    {
      this.engine, this.room := engine, room;
      through, requiresReplay, history := 0, false, [];
      reference, lineage, maxSeen, watermark := engine.initial, map[], None, None;
      warnings, pending, chats := [], map[], [];
    }

    /** The cursor part of applying an event. */
    method Tick(e: RoomEvent) returns (decision: CursorDecision)
      modifies this`maxSeen, this`watermark, this`warnings
      ensures decision == Decision(old(CoreState()), e) && CoreState() == Ticked(old(CoreState()), e)
    {
      var priorMax := if maxSeen.Some? then maxSeen.value else Effective(e);
      decision := AdvanceWatermark(EventTime(e), e.ingestTime, priorMax, watermark);
      maxSeen, watermark := Some(decision.maxSeen), Some(decision.watermark);
      if decision.clamped && CLAMPED !in warnings { warnings := warnings + [CLAMPED]; }
    }

    method ApplyOne(e: RoomEvent, replaying: bool)
      modifies this
      ensures CoreState() == Applied(engine, old(CoreState()), e, replaying)
      ensures through == old(through) && history == old(history) && pending == old(pending)
    {
      var decision := Tick(e);
      if e.kind !in SEMANTIC_TYPES || !Resolves(lineage, e) { return; }
      var chat := Chat(e, decision.effective, Active(lineage, e.replyTo), Active(lineage, e.messageId));
      lineage := AdvanceLineage(lineage, e);
      var (next, asks) := engine.apply(reference, chat, chats, replaying);
      reference := next;
      if asks || (decision.tooLate && !replaying) { requiresReplay := true; }
      chats := chats + [chat];
    }

    method Consume(e: RoomEvent) returns (r: Result<Receipt, ConsumeError>)
      modifies this
      ensures match Consumed(engine, room, old(Contents()), e)
              case Err(x) => r == Err(x) && Contents() == old(Contents())
              case Ok((receipt, s)) => r == Ok(receipt) && Contents() == s
    {
      if e.room != room { return Err(ForeignRoom); }
      if e.roomSeq < 1 { return Err(InvalidSequence); }
      if e.revision < 1 { return Err(InvalidRevision); }
      if Known(history, e) { return Ok(Duplicate); }
      history := Insert(history, e);
      match DecideSequence(e.roomSeq, through) {
        case Seen =>
          requiresReplay := true;
          return Ok(Late);
        case Gap =>
          pending := pending[e.roomSeq := e];
          return Ok(Blocked);
        case Next =>
          pending := pending[e.roomSeq := e];
          Drain();
          return Ok(Advanced);
      }
    }

    method Drain()
      modifies this
      ensures history == old(history)
      ensures (CoreState(), through, pending) == Drained(engine, old(CoreState()), old(through), old(pending))
    {
      while through + 1 in pending
        invariant history == old(history)
        invariant Drained(engine, CoreState(), through, pending) == Drained(engine, old(CoreState()), old(through), old(pending))
        decreases pending.Keys
      {
        var next := through + 1;
        var event := pending[next];
        assert (pending - {next}).Keys == pending.Keys - {next};
        pending := pending - {next};
        ApplyOne(event, false);
        through := next;
      }
    }

    method Replay()
      modifies this
      ensures Contents() == Replayed(engine, old(Contents()))
    {
      pending := map[];
      reference, lineage, chats := engine.initial, map[], [];
      through, maxSeen, watermark, warnings := 0, None, None, [];
      var i := 0;
      while i < |history|
        invariant 0 <= i <= |history| && history == old(history) && pending == map[]
        invariant CoreState() == ApplyFrom(engine, EmptyCore(engine, old(requiresReplay)), history[..i], true)
        invariant through == LastSequence(history[..i])
      {
        assert history[..i + 1][..i] == history[..i];
        ApplyOne(history[i], true);
        through := Max(through, history[i].roomSeq);
        i := i + 1;
      }
      assert history[..i] == history;
      requiresReplay := false;
    }
  }
}
