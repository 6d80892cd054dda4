/** The agent runs of one room: requested, cancelled, disabled, completed by the worker, or reconciled. */
module AgentRuns {
  import opened Domain

  type EventId = nat   // its position in the room's log

  type RunId = nat     // its position in creation order; the run's job carries the same number

  datatype RunState = Queued | Running | Streaming | Completed | BlockedByPolicy | Cancelled | Failed

  predicate IsActive(s: RunState) { s.Queued? || s.Running? || s.Streaming? }

  datatype Run = Run(state: RunState, trigger: EventId, failure: Option<string>)

  /** The attempt a job is leased to. */
  datatype RunClaim = RunClaim(generation: nat, token: int, worker: string)

  datatype JobState = Waiting | Claimed(claim: RunClaim) | JobDead | JobCancelled | JobSucceeded

  datatype RoomStatus = Scheduled | Open | Paused | Closed

  datatype EventKind = MessageAdded | MessageRevised | MessageRetracted | OtherEvent

  datatype MessageId = MemberMessage(nat) | RunMessage(RunId)

  datatype Event = Event(
    kind: EventKind, byAgent: bool, message: Option<MessageId>, revision: nat, mentionsAgent: bool, causation: Option<RunId>)

  /** The room's rows, the business receipts of its jobs by generation, and one history: the jobs that ever had one. */
  datatype Room = Room(
    status: RoomStatus, enabled: bool, deleting: bool, runs: seq<Run>, jobs: seq<JobState>, events: seq<Event>,
    receipts: map<(RunId, nat), int>, committed: set<RunId>)

  datatype AgentError =
    | DeletionInProgress | RoomNotOpen | AgentDisabled | TriggerNotFound | AgentCannotTriggerAgent
    | TriggerNotActive | ExplicitTriggerRequired | RunAlreadyActive | RunNotFound | RunNotActive

  // ----- requesting a run -----

  predicate IsMessage(e: Event, m: MessageId) { !e.kind.OtherEvent? && e.message == Some(m) }

  /** The newest revision of a message; at the same revision the later event. */
  function Latest(events: seq<Event>, m: MessageId): Option<Event> {
    if events == [] then None
    else
      var before, e := Latest(events[..|events| - 1], m), events[|events| - 1];
      if IsMessage(e, m) && (before.None? || e.revision >= before.value.revision) then Some(e) else before
  }

  /** The run of a trigger, if there is one. */
  function RunOf(runs: seq<Run>, trigger: EventId): Option<RunId> {
    if runs == [] then None
    else
      var before := RunOf(runs[..|runs| - 1], trigger);
      if before.Some? then before else if runs[|runs| - 1].trigger == trigger then Some(|runs| - 1) else None
  }

  /** The oldest active run. */
  function ActiveRun(runs: seq<Run>): Option<RunId> {
    if runs == [] then None
    else
      var before := ActiveRun(runs[..|runs| - 1]);
      if before.Some? then before else if IsActive(runs[|runs| - 1].state) then Some(|runs| - 1) else None
  }

  function Refusal(r: Room, trigger: EventId, teacher: bool): Option<AgentError> {
    if !r.status.Open? then Some(RoomNotOpen)
    else if !r.enabled then Some(AgentDisabled)
    else if trigger >= |r.events| then Some(TriggerNotFound)
    else
      var e := r.events[trigger];
      if e.byAgent then Some(AgentCannotTriggerAgent)
      else if !(e.kind.MessageAdded? || e.kind.MessageRevised?) || e.message.None? then Some(TriggerNotActive)
      else
        var latest := Latest(r.events, e.message.value);
        if latest.None? || latest.value.kind.MessageRetracted? then Some(TriggerNotActive)
        else if !teacher && !latest.value.mentionsAgent then Some(ExplicitTriggerRequired)
        else if ActiveRun(r.runs).Some? then Some(RunAlreadyActive)
        else None
  }

  /** getOrCreateRunAndJob: the run, whether it is new, and the room. */
  function Requested(r: Room, trigger: EventId, teacher: bool): Result<(RunId, bool, Room), AgentError> {
    if r.deleting then Err(DeletionInProgress)
    else
      match RunOf(r.runs, trigger)
      case Some(id) => Ok((id, false, r))
      case None =>
        match Refusal(r, trigger, teacher)
        case Some(e) => Err(e)
        case None => Ok((|r.runs|, true, r.(runs := r.runs + [Run(Queued, trigger, None)], jobs := r.jobs + [Waiting])))
  }

  // ----- cancelling -----

  function Ended(r: Room, id: RunId, state: RunState, code: string): Room
    requires id < |r.runs|
  {
    r.(runs := r.runs[id := r.runs[id].(state := state, failure := Some(code))])
  }

  /** cancelLocked: the run and its job end together. */
  function CancelledRun(r: Room, id: RunId, code: string): Room
    requires id < |r.runs|
  {
    var ended := Ended(r, id, Cancelled, code);
    if id < |r.jobs| then ended.(jobs := r.jobs[id := JobCancelled]) else ended
  }

  function CancelRequested(r: Room, id: RunId): Result<Room, AgentError> {
    if r.deleting then Err(DeletionInProgress)
    else if id >= |r.runs| then Err(RunNotFound)
    else if !IsActive(r.runs[id].state) then Err(RunNotActive)
    else Ok(CancelledRun(r, id, "CANCEL_REQUESTED"))
  }

  /** setEnabled: switching the agent off cancels the oldest active run, in the same transaction. */
  function EnabledSet(r: Room, enabled: bool): Result<(Option<RunId>, Room), AgentError> {
    if r.deleting then Err(DeletionInProgress)
    else
      var set' := r.(enabled := enabled);
      var active := ActiveRun(r.runs);
      if enabled || active.None? then Ok((None, set'))
      else
        ActiveRunIsActive(r.runs);
        Ok((active, CancelledRun(set', active.value, "AGENT_DISABLED")))
  }

  lemma {:induction false} ActiveRunIsActive(runs: seq<Run>)
    ensures ActiveRun(runs).Some? ==> ActiveRun(runs).value < |runs| && IsActive(runs[ActiveRun(runs).value].state)
    ensures ActiveRun(runs).None? ==> forall i :: 0 <= i < |runs| ==> !IsActive(runs[i].state)
  {
    if runs != [] {
      ActiveRunIsActive(runs[..|runs| - 1]);
    }
  }

  // ----- completion by the worker -----

  datatype Completion =
    | Applied | AlreadyApplied | OutputInvalid | ClaimStale | NotActive | NotOpen | ReceiptConflict

  predicate Spoken(events: seq<Event>, id: RunId) {
    exists i :: 0 <= i < |events| && events[i].causation == Some(id)
  }

  /** completeBusiness: another attempt's receipt for this generation is a conflict. */
  predicate Conflicts(r: Room, id: RunId, claim: RunClaim) {
    var key := (id, claim.generation); key in r.receipts && r.receipts[key] != claim.token
  }

  function Receipted(r: Room, id: RunId, claim: RunClaim): Room {
    r.(receipts := r.receipts[(id, claim.generation) := claim.token], committed := r.committed + {id})
  }

  /** The transaction of the internal completion route; after a conflict everything is rolled back. */
  function Finished(r: Room, id: RunId, claim: RunClaim): (Completion, Room) {
    if id >= |r.runs| || id >= |r.jobs| then (OutputInvalid, r)
    else if r.jobs[id] != Claimed(claim) then (ClaimStale, r)
    else if Spoken(r.events, id) then
      if Conflicts(r, id, claim) then (ReceiptConflict, r) else (AlreadyApplied, Receipted(r, id, claim))
    else if !IsActive(r.runs[id].state) then (NotActive, r)
    else if !r.status.Open? && !r.status.Paused? then (NotOpen, r)
    else if Conflicts(r, id, claim) then (ReceiptConflict, r)
    else (Applied, Receipted(Uttered(r, id), id, claim))
  }

  /** The run's message, and the end of the run. */
  function Uttered(r: Room, id: RunId): Room
    requires id < |r.runs|
  {
    r.(events := r.events + [Event(MessageAdded, true, Some(RunMessage(id)), 1, false, Some(id))],
       runs := r.runs[id := r.runs[id].(state := Completed, failure := None)])
  }

  // ----- reconciliation -----

  datatype Reason = DeadJob | CancelledJob | RoomClosed

  datatype Orphan = Orphan(run: RunId, reason: Reason)

  /** The sweep's selection, made without the room lock; every number below `n` is looked at. */
  function Orphans(r: Room, n: nat): seq<Orphan>
    requires n <= |r.runs|
  {
    if n == 0 then []
    else
      var before, id := Orphans(r, n - 1), n - 1;
      if !IsActive(r.runs[id].state) then before
      else if r.status.Closed? then before + [Orphan(id, RoomClosed)]
      else if id >= |r.jobs| || r.jobs[id].JobCancelled? then before + [Orphan(id, CancelledJob)]
      else if r.jobs[id].JobDead? then before + [Orphan(id, DeadJob)]
      else before
  }

  /** What one sweep takes up: the oldest orphans, as many as fit the batch. */
  function Selected(r: Room, batch: nat): seq<Orphan> {
    var all := Orphans(r, |r.runs|);
    if |all| <= batch then all else all[..batch]
  }

  function TerminalOf(reason: Reason): RunState { if reason.DeadJob? then Failed else Cancelled }

  function CodeOf(reason: Reason): string {
    match reason
    case DeadJob => "AGENT_EXECUTION_EXHAUSTED"
    case RoomClosed => "ROOM_NOT_OPEN"
    case CancelledJob => "AGENT_RUN_CANCELLED"
  }

  /** Settling one selected run, under the lock: a run that ended meanwhile is left alone. */
  function Settled(r: Room, o: Orphan): (Option<RunState>, Room) {
    if o.run >= |r.runs| || !IsActive(r.runs[o.run].state) then (None, r)
    else (Some(TerminalOf(o.reason)), Ended(r, o.run, TerminalOf(o.reason), CodeOf(o.reason)))
  }

  datatype Tally = Tally(failed: nat, cancelled: nat)

  function SettledAll(r: Room, os: seq<Orphan>): (Tally, Room) {
    if os == [] then (Tally(0, 0), r)
    else
      var (t, before) := SettledAll(r, os[..|os| - 1]);
      var (end, after) := Settled(before, os[|os| - 1]);
      (match end
       case Some(s) => if s.Failed? then t.(failed := t.failed + 1) else t.(cancelled := t.cancelled + 1)
       case None => t, after)
  }

  // ----- steps -----

  datatype Op =
    | Request(trigger: EventId, teacher: bool)
    | Cancel(run: RunId)
    | SetEnabled(enabled: bool)
    | Complete(run: RunId, claim: RunClaim)
    | DropReceipt(run: RunId, generation: nat)                   // a job that succeeds loses its receipt
    | Settle(orphan: Orphan)                                     // with whatever a stale selection said
    | Progress(run: RunId, to: RunState)                         // between the active states
    | JobMoves(run: RunId, job: JobState)                        // anything the queue does
    | Speak(event: Event)                                        // a member's event
    | SetStatus(status: RoomStatus)
    | StartDeletion

  function Step(r: Room, op: Op): Room {
    match op
    case Request(trigger, teacher) => (match Requested(r, trigger, teacher) case Ok(x) => x.2 case Err(_) => r)
    case Cancel(id) => (match CancelRequested(r, id) case Ok(r') => r' case Err(_) => r)
    case SetEnabled(enabled) => (match EnabledSet(r, enabled) case Ok(x) => x.1 case Err(_) => r)
    case Complete(id, claim) => Finished(r, id, claim).1
    case DropReceipt(id, generation) => r.(receipts := r.receipts - {(id, generation)})
    case Settle(o) => Settled(r, o).1
    case Progress(id, to) =>
      if id < |r.runs| && IsActive(r.runs[id].state) && IsActive(to) then r.(runs := r.runs[id := r.runs[id].(state := to)]) else r
    case JobMoves(id, to) => if id < |r.jobs| then r.(jobs := r.jobs[id := to]) else r
    case Speak(e) => r.(events := r.events + [e.(causation := None)])
    case SetStatus(status) => r.(status := status)
    case StartDeletion => r.(deleting := true)
  }

  const EMPTY := Room(Scheduled, true, false, [], [], [], map[], {})

  // ----- the transactions, statement by statement -----

  class AgentRepository {
    var status: RoomStatus
    var enabled: bool
    var deleting: bool
    var runs: seq<Run>
    var jobs: seq<JobState>
    var events: seq<Event>
    var receipts: map<(RunId, nat), int>
    ghost var committed: set<RunId>

    ghost function Contents(): Room reads this { Room(status, enabled, deleting, runs, jobs, events, receipts, committed) }

    constructor ()
      ensures Contents() == EMPTY
    {
      status, enabled, deleting, runs, jobs, events, receipts, committed := Scheduled, true, false, [], [], [], map[], {};
    }

    method FindActive() returns (id: Option<RunId>)
      ensures id == ActiveRun(runs)
    {
      var i := 0;
      while i < |runs|
        invariant 0 <= i <= |runs| && ActiveRun(runs[..i]).None?
      {
        assert runs[..i + 1][..i] == runs[..i];
        if IsActive(runs[i].state) {
          ActivePrefix(runs, i + 1);
          return Some(i);
        }
        i := i + 1;
      }
      assert runs[..i] == runs;
      return None;
    }

    method FindRun(trigger: EventId) returns (id: Option<RunId>)
      ensures id == RunOf(runs, trigger)
    {
      var i := 0;
      while i < |runs|
        invariant 0 <= i <= |runs| && RunOf(runs[..i], trigger).None?
      {
        assert runs[..i + 1][..i] == runs[..i];
        if runs[i].trigger == trigger {
          TriggerPrefix(runs, i + 1, trigger);
          return Some(i);
        }
        i := i + 1;
      }
      assert runs[..i] == runs;
      return None;
    }

    /** ORDER BY revision DESC, room_seq DESC LIMIT 1. */
    method FindLatest(m: MessageId) returns (latest: Option<Event>)
      ensures latest == Latest(events, m)
    {
      latest := None;
      var i := 0;
      while i < |events|
        invariant 0 <= i <= |events| && latest == Latest(events[..i], m)
      {
        assert events[..i + 1][..i] == events[..i];
        if IsMessage(events[i], m) && (latest.None? || events[i].revision >= latest.value.revision) {
          latest := Some(events[i]);
        }
        i := i + 1;
      }
      assert events[..i] == events;
    }

    method GetOrCreateRun(trigger: EventId, teacher: bool) returns (r: Result<(RunId, bool), AgentError>)
      modifies this`runs, this`jobs
      ensures match Requested(old(Contents()), trigger, teacher)
              case Ok(x) => r == Ok((x.0, x.1)) && Contents() == x.2
              case Err(e) => r == Err(e) && Contents() == old(Contents())
    {
      if deleting { return Err(DeletionInProgress); }
      var existing := FindRun(trigger);
      if existing.Some? { return Ok((existing.value, false)); }
      if !status.Open? { return Err(RoomNotOpen); }
      if !enabled { return Err(AgentDisabled); }
      if trigger >= |events| { return Err(TriggerNotFound); }
      var e := events[trigger];
      if e.byAgent { return Err(AgentCannotTriggerAgent); }
      if !(e.kind.MessageAdded? || e.kind.MessageRevised?) || e.message.None? { return Err(TriggerNotActive); }
      var latest := FindLatest(e.message.value);
      if latest.None? || latest.value.kind.MessageRetracted? { return Err(TriggerNotActive); }
      if !teacher && !latest.value.mentionsAgent { return Err(ExplicitTriggerRequired); }
      var active := FindActive();
      if active.Some? { return Err(RunAlreadyActive); }
      runs, jobs := runs + [Run(Queued, trigger, None)], jobs + [Waiting];
      return Ok((|runs| - 1, true));
    }

    method CancelLocked(id: RunId, code: string)
      requires id < |runs|
      modifies this`runs, this`jobs
      ensures Contents() == CancelledRun(old(Contents()), id, code)
    {
      runs := runs[id := runs[id].(state := Cancelled, failure := Some(code))];
      if id < |jobs| { jobs := jobs[id := JobCancelled]; }
    }

    method CancelRun(id: RunId) returns (error: Option<AgentError>)
      modifies this`runs, this`jobs
      ensures match CancelRequested(old(Contents()), id)
              case Ok(r) => error == None && Contents() == r
              case Err(e) => error == Some(e) && Contents() == old(Contents())
    {
      if deleting { return Some(DeletionInProgress); }
      if id >= |runs| { return Some(RunNotFound); }
      if !IsActive(runs[id].state) { return Some(RunNotActive); }
      CancelLocked(id, "CANCEL_REQUESTED");
      return None;
    }

    method SetAgentEnabled(on: bool) returns (r: Result<Option<RunId>, AgentError>)
      modifies this`enabled, this`runs, this`jobs
      ensures match EnabledSet(old(Contents()), on)
              case Ok(x) => r == Ok(x.0) && Contents() == x.1
              case Err(e) => r == Err(e) && Contents() == old(Contents())
    {
      if deleting { return Err(DeletionInProgress); }
      enabled := on;
      var cancelled: Option<RunId> := None;
      if !on {
        var active := FindActive();
        if active.Some? {
          ActiveRunIsActive(runs);
          CancelLocked(active.value, "AGENT_DISABLED");
          cancelled := active;
        }
      }
      return Ok(cancelled);
    }

    /** completeBusiness, for a claim that has been found current. */
    method WriteReceipt(id: RunId, claim: RunClaim) returns (ok: bool)
      modifies this`receipts, this`committed
      ensures ok <==> !Conflicts(old(Contents()), id, claim)
      ensures Contents() == if ok then Receipted(old(Contents()), id, claim) else old(Contents())
    {
      var key := (id, claim.generation);
      if key !in receipts {
        receipts := receipts[key := claim.token];
      } else if receipts[key] != claim.token {
        return false;
      }
      assert receipts == old(receipts)[key := claim.token];
      committed := committed + {id};
      return true;
    }

    method CompleteRun(id: RunId, claim: RunClaim) returns (c: Completion)
      modifies this`runs, this`events, this`receipts, this`committed
      ensures (c, Contents()) == Finished(old(Contents()), id, claim)
    {
      if id >= |runs| || id >= |jobs| { return OutputInvalid; }
      if jobs[id] != Claimed(claim) { return ClaimStale; }
      if Spoken(events, id) {
        var known := WriteReceipt(id, claim);
        return if known then AlreadyApplied else ReceiptConflict;
      }
      if !IsActive(runs[id].state) { return NotActive; }
      if !status.Open? && !status.Paused? { return NotOpen; }
      var runsBefore, eventsBefore := runs, events;
      events := events + [Event(MessageAdded, true, Some(RunMessage(id)), 1, false, Some(id))];
      runs := runs[id := runs[id].(state := Completed, failure := None)];
      var written := WriteReceipt(id, claim);
      if !written {
        runs, events := runsBefore, eventsBefore;
        return ReceiptConflict;
      }
      return Applied;
    }

    /** The first phase of a sweep: the oldest orphans, up to the batch size. */
    method SelectOrphans(batch: nat) returns (os: seq<Orphan>)
      ensures os == Selected(Contents(), batch)
    {
      os := [];
      var i := 0;
      while i < |runs| && |os| < batch
        invariant 0 <= i <= |runs| && |os| <= batch
        invariant os == Orphans(Contents(), i)
      {
        if IsActive(runs[i].state) {
          if status.Closed? {
            os := os + [Orphan(i, RoomClosed)];
          } else if i >= |jobs| || jobs[i].JobCancelled? {
            os := os + [Orphan(i, CancelledJob)];
          } else if jobs[i].JobDead? {
            os := os + [Orphan(i, DeadJob)];
          }
        }
        i := i + 1;
      }
      OrphansPrefix(Contents(), i, |runs|);
    }

    /** The second phase of a sweep, over what the first phase selected. */
    method SettleOrphans(os: seq<Orphan>) returns (failed: nat, cancelled: nat)
      modifies this`runs
      ensures (Tally(failed, cancelled), Contents()) == SettledAll(old(Contents()), os)
    {
      failed, cancelled := 0, 0;
      var i := 0;
      while i < |os|
        invariant 0 <= i <= |os|
        invariant status == old(status) && enabled == old(enabled) && deleting == old(deleting) && jobs == old(jobs) && events == old(events)
        invariant receipts == old(receipts) && committed == old(committed)
        invariant (Tally(failed, cancelled), Contents()) == SettledAll(old(Contents()), os[..i])
      {
        assert os[..i + 1][..i] == os[..i];
        var o := os[i];
        if o.run < |runs| && IsActive(runs[o.run].state) {
          var terminal := TerminalOf(o.reason);
          runs := runs[o.run := runs[o.run].(state := terminal, failure := Some(CodeOf(o.reason)))];
          if terminal.Failed? { failed := failed + 1; } else { cancelled := cancelled + 1; }
        }
        i := i + 1;
      }
      assert os[..i] == os;
    }
  }

  /** Older runs come first in the selection. */
  lemma {:induction false} OrphansPrefix(r: Room, i: nat, n: nat)
    requires i <= n <= |r.runs|
    ensures Orphans(r, i) <= Orphans(r, n)
    decreases n
  {
    if i < n { OrphansPrefix(r, i, n - 1); }
  }

  lemma {:induction false} ActivePrefix(runs: seq<Run>, n: nat)
    requires n <= |runs| && ActiveRun(runs[..n]).Some?
    ensures ActiveRun(runs) == ActiveRun(runs[..n])
    decreases |runs| - n
  {
    if n == |runs| {
      assert runs[..n] == runs;
    } else {
      assert runs[..n + 1][..n] == runs[..n];
      ActivePrefix(runs, n + 1);
    }
  }

  lemma {:induction false} TriggerPrefix(runs: seq<Run>, n: nat, trigger: EventId)
    requires n <= |runs| && RunOf(runs[..n], trigger).Some?
    ensures RunOf(runs, trigger) == RunOf(runs[..n], trigger)
    decreases |runs| - n
  {
    if n == |runs| {
      assert runs[..n] == runs;
    } else {
      assert runs[..n + 1][..n] == runs[..n];
      TriggerPrefix(runs, n + 1, trigger);
    }
  }
}
