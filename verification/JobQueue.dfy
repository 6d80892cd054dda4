/** The durable jobs of one room: leases fenced by generation, token and worker, and the receipts of business work. */
module JobQueue {
  import opened Domain

  type JobId = nat

  datatype JobKind =
    | ConsumeEvent(roomSeq: nat)     // analytics.consume.v1
    | ReplayRoom(requested: nat)     // analytics.replay-room.v1
    | OtherKind                      // every job type outside the analytics order
  {
    predicate Analytics() { !OtherKind? }

    /** analytics_order_seq and analytics_order_kind. */
    function OrderSeq(): nat requires Analytics() { if ConsumeEvent? then roomSeq else requested }

    function OrderKind(): nat requires Analytics() { if ConsumeEvent? then 0 else 1 }
  }

  datatype Status = Queued | Running | Succeeded | Retryable | Dead | Cancelled

  datatype Lease = Lease(token: int, lockedAt: int, worker: string)

  datatype Job = Job(
    kind: JobKind, status: Status, attempts: nat, maxAttempts: nat, runAfter: int, generation: nat, lease: Option<Lease>)

  /** What an attempt remembers of its claim; the immutable columns it also compares are those of the job. */
  datatype Claim = Claim(job: JobId, generation: nat, token: int, worker: string)

  datatype Receipt = Receipt(token: int, code: string)

  type ReceiptKey = (JobId, nat)

  /** The tables, the materialised cursor, and two histories: the order in which consume jobs materialised events,
      and the jobs whose business work ever committed. */
  datatype World = World(
    now: int, events: nat, jobs: map<JobId, Job>, receipts: map<ReceiptKey, Receipt>, checkpoint: nat,
    log: seq<nat>, committed: set<JobId>)

  datatype JobError =
    | InvalidCode | StaleClaim | CompletionMissing | CompletionConflict | CursorGap | CursorBehind | HandlerFailed | NotFound

  const LEASE := 120

  const RETRY_DELAY := 5

  // ----- claiming -----

  predicate Precedes(a: JobId, p: JobKind, b: JobId, q: JobKind)
    requires p.Analytics() && q.Analytics()
  {
    || p.OrderSeq() < q.OrderSeq()
    || (p.OrderSeq() == q.OrderSeq() && p.OrderKind() < q.OrderKind())
    || (p.OrderSeq() == q.OrderSeq() && p.OrderKind() == q.OrderKind() && a < b)
  }

  /** The ordering barrier: every earlier analytics job of the room has succeeded. */
  predicate Unblocked(jobs: map<JobId, Job>, id: JobId)
    requires id in jobs
  {
    jobs[id].kind.Analytics() ==>
      forall p :: p in jobs && jobs[p].kind.Analytics() && Precedes(p, jobs[p].kind, id, jobs[id].kind) ==> jobs[p].status.Succeeded?
  }

  predicate Expired(j: Job, now: int) {
    j.status.Running? && j.lease.Some? && j.lease.value.lockedAt < now - LEASE
  }

  predicate Waiting(j: Job) { (j.status.Queued? || j.status.Retryable?) && j.lease.None? }

  /** claim_worker_job.sql. */
  predicate Claimable(w: World, id: JobId) {
    && id in w.jobs && w.jobs[id].runAfter <= w.now
    && (Waiting(w.jobs[id]) || Expired(w.jobs[id], w.now))
    && Unblocked(w.jobs, id)
  }

  predicate HasReceipt(w: World, id: JobId)
    requires id in w.jobs
  {
    var key := (id, w.jobs[id].generation);
    w.jobs[id].lease.Some? && key in w.receipts && w.receipts[key].token == w.jobs[id].lease.value.token
  }

  function Released(j: Job, status: Status): Job { j.(status := status, lease := None) }

  function WithoutReceipts(receipts: map<ReceiptKey, Receipt>, id: JobId): map<ReceiptKey, Receipt> {
    map k | k in receipts && k.0 != id :: receipts[k]
  }

  datatype Settlement = Picked(claim: Claim) | Recovered | Exhausted | Untouched

  /** settle_worker_job_claims.sql for one candidate: a lost attempt that had committed is finished, one that has
      no attempts left is buried, and otherwise the job gets a new generation and token. */
  function Settle(w: World, id: JobId, worker: string, token: int): (Settlement, World)
    requires id in w.jobs
  {
    var j := w.jobs[id];
    if Expired(j, w.now) && HasReceipt(w, id) then
      (Recovered, w.(jobs := w.jobs[id := Released(j, Succeeded)], receipts := WithoutReceipts(w.receipts, id)))
    else if Expired(j, w.now) && j.attempts >= j.maxAttempts then
      (Exhausted, w.(jobs := w.jobs[id := Released(j, Dead)]))
    else if j.attempts < j.maxAttempts && (Waiting(j) || Expired(j, w.now)) && Unblocked(w.jobs, id) then
      var next := j.(status := Running, lease := Some(Lease(token, w.now, worker)), generation := j.generation + 1, attempts := j.attempts + 1);
      (Picked(Claim(id, next.generation, token, worker)), w.(jobs := w.jobs[id := next]))
    else (Untouched, w)
  }

  // ----- transitions of an attempt -----

  /** The fence: the row still carries this attempt's generation, token and worker, and runs. */
  predicate Current(w: World, c: Claim) {
    && c.job in w.jobs && w.jobs[c.job].status.Running? && w.jobs[c.job].generation == c.generation
    && w.jobs[c.job].lease.Some? && w.jobs[c.job].lease.value.token == c.token && w.jobs[c.job].lease.value.worker == c.worker
  }

  function Heartbeaten(w: World, c: Claim): Result<World, JobError> {
    if !Current(w, c) then Err(StaleClaim)
    else
      var j := w.jobs[c.job];
      Ok(w.(jobs := w.jobs[c.job := j.(lease := Some(j.lease.value.(lockedAt := w.now)))]))
  }

  /** [A-Z0-9_]{1,64}. */
  predicate CodeOk(code: string) {
    1 <= |code| <= 64 && forall i :: 0 <= i < |code| ==> 'A' <= code[i] <= 'Z' || '0' <= code[i] <= '9' || code[i] == '_'
  }

  /** complete_business. */
  function Completed(w: World, c: Claim, code: string): Result<World, JobError> {
    var key := (c.job, c.generation);
    if !CodeOk(code) then Err(InvalidCode)
    else if !Current(w, c) then Err(StaleClaim)
    else if key in w.receipts && w.receipts[key] != Receipt(c.token, code) then Err(CompletionConflict)
    else Ok(w.(receipts := w.receipts[key := Receipt(c.token, code)], committed := w.committed + {c.job}))
  }

  const CONSUMED := "ANALYTICS_CONSUMED"

  const REPLAYED := "ANALYTICS_REPLAYED"

  /** analytics_consume_handler: materialisation and receipt in one transaction; `materializes` says whether the
      materialisation itself succeeds. */
  function ConsumeCommitted(w: World, c: Claim, materializes: bool): Result<World, JobError> {
    if c.job !in w.jobs || !w.jobs[c.job].kind.ConsumeEvent? then Err(NotFound)
    else
      var target := w.jobs[c.job].kind.roomSeq;
      if w.checkpoint >= target then Completed(w, c, CONSUMED)
      else if w.checkpoint + 1 != target then Err(CursorGap)
      else if !materializes then Err(HandlerFailed)
      else Completed(w.(checkpoint := target, log := w.log + [target]), c, CONSUMED)
  }

  function ReplayCommitted(w: World, c: Claim, materializes: bool): Result<World, JobError> {
    if c.job !in w.jobs || !w.jobs[c.job].kind.ReplayRoom? then Err(NotFound)
    else if w.checkpoint < w.jobs[c.job].kind.requested then Err(CursorBehind)
    else if !materializes then Err(HandlerFailed)
    else Completed(w, c, REPLAYED)
  }

  function Finished(w: World, c: Claim): World
    requires c.job in w.jobs
  {
    w.(jobs := w.jobs[c.job := Released(w.jobs[c.job], Succeeded)], receipts := w.receipts - {(c.job, c.generation)})
  }

  predicate Receipted(w: World, c: Claim) {
    var key := (c.job, c.generation);
    key in w.receipts && w.receipts[key].token == c.token
  }

  function SucceededBy(w: World, c: Claim): Result<World, JobError> {
    if !Current(w, c) then Err(StaleClaim)
    else if !Receipted(w, c) then Err(CompletionMissing)
    else Ok(Finished(w, c))
  }

  /** fail: committed business work is finished, never retried. */
  function FailedBy(w: World, c: Claim, terminal: bool): Result<World, JobError> {
    if !Current(w, c) then Err(StaleClaim)
    else if Receipted(w, c) then Ok(Finished(w, c))
    else
      var j := w.jobs[c.job];
      if terminal || j.attempts >= j.maxAttempts then Ok(w.(jobs := w.jobs[c.job := Released(j, Dead)]))
      else Ok(w.(jobs := w.jobs[c.job := Released(j, Retryable).(runAfter := w.now + RETRY_DELAY)]))
  }

  function CancelledBy(w: World, c: Claim): Result<World, JobError> {
    if !Current(w, c) then Err(StaleClaim)
    else Ok(w.(jobs := w.jobs[c.job := Released(w.jobs[c.job], Cancelled)]))
  }

  // ----- the environment -----

  /** A room event is appended together with its consume job. */
  function Appended(w: World, id: JobId, maxAttempts: nat): World {
    if id in w.jobs then w
    else w.(events := w.events + 1, jobs := w.jobs[id := Job(ConsumeEvent(w.events + 1), Queued, 0, maxAttempts, w.now, 0, None)])
  }

  /** A replay is requested up to a cursor of the room; any other job is enqueued as it is. */
  function Enqueued(w: World, id: JobId, kind: JobKind, maxAttempts: nat): World {
    if id in w.jobs || kind.ConsumeEvent? || (kind.ReplayRoom? && kind.requested > w.events) then w
    else w.(jobs := w.jobs[id := Job(kind, Queued, 0, maxAttempts, w.now, 0, None)])
  }

  /** Deleting the room cancels its unfinished jobs, and closing it those outside the analytics order. */
  function ServerCancelled(w: World, id: JobId): World {
    if id !in w.jobs then w
    else
      var j := w.jobs[id];
      if j.status.Queued? || j.status.Retryable? || j.status.Running? then w.(jobs := w.jobs[id := Released(j, Cancelled)]) else w
  }

  /** Cancelling an agent run cancels the run's job, whatever state the job is in. The run is still active then, and a
      run whose job has committed is not: its receipt and the end of the run are one transaction. */
  function AgentJobCancelled(w: World, id: JobId): World {
    if id in w.jobs && w.jobs[id].kind.OtherKind? && id !in w.committed then w.(jobs := w.jobs[id := Released(w.jobs[id], Cancelled)]) else w
  }

  datatype Op =
    | Tick(seconds: nat)
    | AppendEvent(id: JobId, maxAttempts: nat)
    | Enqueue(id: JobId, kind: JobKind, maxAttempts: nat)
    | ServerCancel(id: JobId)
    | CancelAgentJob(id: JobId)
    | ClaimJob(id: JobId, worker: string, token: int)
    | Heartbeat(claim: Claim)
    | CommitConsume(claim: Claim, materializes: bool)
    | CommitReplay(claim: Claim, materializes: bool)
    | CommitOther(claim: Claim, code: string)
    | Succeed(claim: Claim)
    | Fail(claim: Claim, terminal: bool)
    | Cancel(claim: Claim)

  function OrSame(w: World, r: Result<World, JobError>): World { match r case Ok(w') => w' case Err(_) => w }

  /** One step of any process; a failed transaction changes nothing. Stopping is the absence of further steps. */
  function Step(w: World, op: Op): World {
    match op
    case Tick(d) => w.(now := w.now + d)
    case AppendEvent(id, n) => Appended(w, id, n)
    case Enqueue(id, kind, n) => Enqueued(w, id, kind, n)
    case ServerCancel(id) => ServerCancelled(w, id)
    case CancelAgentJob(id) => AgentJobCancelled(w, id)
    case ClaimJob(id, worker, token) => if Claimable(w, id) then Settle(w, id, worker, token).1 else w
    case Heartbeat(c) => OrSame(w, Heartbeaten(w, c))
    case CommitConsume(c, ok) => OrSame(w, ConsumeCommitted(w, c, ok))
    case CommitReplay(c, ok) => OrSame(w, ReplayCommitted(w, c, ok))
    case CommitOther(c, code) => if c.job in w.jobs && w.jobs[c.job].kind.OtherKind? then OrSame(w, Completed(w, c, code)) else w
    case Succeed(c) => OrSame(w, SucceededBy(w, c))
    case Fail(c, terminal) => OrSame(w, FailedBy(w, c, terminal))
    case Cancel(c) => OrSame(w, CancelledBy(w, c))
  }

  const EMPTY := World(0, 0, map[], map[], 0, [], {})

  // ----- the store, statement by statement -----

  class JobStore {
    const worker: string
    var now: int
    var events: nat
    var jobs: map<JobId, Job>
    var receipts: map<ReceiptKey, Receipt>
    var checkpoint: nat
    ghost var log: seq<nat>
    ghost var committed: set<JobId>

    ghost function Contents(): World reads this { World(now, events, jobs, receipts, checkpoint, log, committed) }

    constructor (worker: string)
      ensures this.worker == worker && Contents() == EMPTY
    {
      this.worker := worker;
      now, events, jobs, receipts, checkpoint, log, committed := 0, 0, map[], map[], 0, [], {};
    }

    method RequireCurrent(c: Claim) returns (error: Option<JobError>)
      ensures error == if Current(Contents(), c) then None else Some(StaleClaim)
    {
      if c.job !in jobs { return Some(StaleClaim); }
      var j := jobs[c.job];
      if !j.status.Running? || j.generation != c.generation || j.lease.None? { return Some(StaleClaim); }
      if j.lease.value.token != c.token || j.lease.value.worker != c.worker { return Some(StaleClaim); }
      return None;
    }

    /** claim: the candidate the database picked, settled in the same transaction. */
    method ClaimOne(candidate: JobId, token: int) returns (r: Settlement)
      modifies this
      ensures Claimable(old(Contents()), candidate) ==>
                (r, Contents()) == Settle(old(Contents()), candidate, worker, token)
      ensures !Claimable(old(Contents()), candidate) ==> r == Untouched && Contents() == old(Contents())
    {
      if candidate !in jobs { return Untouched; }
      var j := jobs[candidate];
      var expired := Expired(j, now);
      if j.runAfter > now || !(Waiting(j) || expired) || !Unblocked(jobs, candidate) { return Untouched; }
      var key := (candidate, j.generation);
      if expired && key in receipts && receipts[key].token == j.lease.value.token {
        jobs := jobs[candidate := Released(j, Succeeded)];
        receipts := WithoutReceipts(receipts, candidate);
        return Recovered;
      }
      if expired && j.attempts >= j.maxAttempts {
        jobs := jobs[candidate := Released(j, Dead)];
        return Exhausted;
      }
      if j.attempts >= j.maxAttempts { return Untouched; }
      j := j.(status := Running, lease := Some(Lease(token, now, worker)), generation := j.generation + 1, attempts := j.attempts + 1);
      jobs := jobs[candidate := j];
      return Picked(Claim(candidate, j.generation, token, worker));
    }

    method SendHeartbeat(c: Claim) returns (error: Option<JobError>)
      modifies this`jobs
      ensures error == None <==> Heartbeaten(old(Contents()), c).Ok?
      ensures error == None ==> Heartbeaten(old(Contents()), c) == Ok(Contents())
      ensures error != None ==> error == Some(StaleClaim) && Contents() == old(Contents())
    {
      error := RequireCurrent(c);
      if error.None? {
        var j := jobs[c.job];
        jobs := jobs[c.job := j.(lease := Some(j.lease.value.(lockedAt := now)))];
      }
    }

    /** complete_business: fence, insert unless there is one, and compare what is there. */
    method CompleteBusiness(c: Claim, code: string) returns (error: Option<JobError>)
      modifies this`receipts, this`committed
      ensures match Completed(old(Contents()), c, code)
              case Ok(w) => error == None && Contents() == w
              case Err(e) => error == Some(e) && Contents() == old(Contents())
    {
      if !CodeOk(code) { return Some(InvalidCode); }
      error := RequireCurrent(c);
      if error.Some? { return; }
      var key := (c.job, c.generation);
      if key !in receipts {
        receipts := receipts[key := Receipt(c.token, code)];
      } else if receipts[key] != Receipt(c.token, code) {
        return Some(CompletionConflict);
      }
      assert receipts == old(receipts)[key := Receipt(c.token, code)];
      committed := committed + {c.job};
    }

    /** The consume transaction; on an error the cursor is rolled back with everything else. */
    method Consume(c: Claim, materializes: bool) returns (error: Option<JobError>)
      modifies this`receipts, this`committed, this`checkpoint, this`log
      ensures match ConsumeCommitted(old(Contents()), c, materializes)
              case Ok(w) => error == None && Contents() == w
              case Err(e) => error == Some(e) && Contents() == old(Contents())
    {
      if c.job !in jobs || !jobs[c.job].kind.ConsumeEvent? { return Some(NotFound); }
      var target := jobs[c.job].kind.roomSeq;
      if checkpoint >= target {
        error := CompleteBusiness(c, CONSUMED);
        return;
      }
      if checkpoint + 1 != target { return Some(CursorGap); }
      if !materializes { return Some(HandlerFailed); }
      var before := checkpoint;
      ghost var logBefore := log;
      checkpoint, log := target, log + [target];
      error := CompleteBusiness(c, CONSUMED);
      if error.Some? {
        checkpoint, log := before, logBefore;
      }
    }

    method SucceedJob(c: Claim) returns (error: Option<JobError>)
      modifies this`jobs, this`receipts
      ensures match SucceededBy(old(Contents()), c)
              case Ok(w) => error == None && Contents() == w
              case Err(e) => error == Some(e) && Contents() == old(Contents())
    {
      error := RequireCurrent(c);
      if error.Some? { return; }
      var key := (c.job, c.generation);
      if key !in receipts || receipts[key].token != c.token { return Some(CompletionMissing); }
      jobs := jobs[c.job := jobs[c.job].(status := Succeeded, lease := None)];
      receipts := receipts - {key};
    }

    method FailJob(c: Claim, terminal: bool) returns (error: Option<JobError>)
      modifies this`jobs, this`receipts
      ensures match FailedBy(old(Contents()), c, terminal)
              case Ok(w) => error == None && Contents() == w
              case Err(e) => error == Some(e) && Contents() == old(Contents())
    {
      error := RequireCurrent(c);
      if error.Some? { return; }
      var key := (c.job, c.generation);
      var j := jobs[c.job];
      if key in receipts && receipts[key].token == c.token {
        jobs := jobs[c.job := j.(status := Succeeded, lease := None)];
        receipts := receipts - {key};
      } else if terminal || j.attempts >= j.maxAttempts {
        jobs := jobs[c.job := j.(status := Dead, lease := None)];
      } else {
        jobs := jobs[c.job := j.(status := Retryable, lease := None, runAfter := now + RETRY_DELAY)];
      }
    }

    /** run_with_lease, from the moment the handler has returned or raised. `lost` is the heartbeat's cancellation
        flag, which other threads may set between the two reads. */
    method Conclude(c: Claim, handler: HandlerEnd, lostAtError: bool,
            lostAtEnd: bool) returns (r: Result<HandlerOutcome, JobError>)
      modifies this`jobs, this`receipts
      ensures match Concluded(old(Contents()), c, handler, lostAtError, lostAtEnd)
              case (outcome, w) => r == outcome && Contents() == w
    {
      var outcome := LostLease;
      match handler {
        case Returned(o) => outcome := o;
        case RaisedStale => outcome := LostLease;
        case Raised(terminal) =>
          if !lostAtError {
            var failed := FailJob(c, terminal);
            if failed.None? && terminal { outcome := TerminalCancelled; }
          }
      }
      if outcome.Success? {
        if lostAtEnd { return Ok(LostLease); }
        var error := SucceedJob(c);
        if error == Some(StaleClaim) { return Ok(LostLease); }
        if error.Some? { return Err(error.value); }
      }
      return Ok(outcome);
    }
  }

  datatype HandlerOutcome = Success | TerminalCancelled | LostLease

  datatype HandlerEnd = Returned(outcome: HandlerOutcome) | RaisedStale | Raised(terminal: bool)

  /** How an attempt ends: success is reported only together with the transition to succeeded. */
  function Concluded(w: World, c: Claim, handler: HandlerEnd, lostAtError: bool,
          lostAtEnd: bool): (Result<HandlerOutcome, JobError>, World) {
    match handler
    case RaisedStale => (Ok(LostLease), w)
    case Raised(terminal) =>
      if lostAtError then (Ok(LostLease), w)
      else
        (match FailedBy(w, c, terminal)
         case Err(_) => (Ok(LostLease), w)
         case Ok(w') => (Ok(if terminal then TerminalCancelled else LostLease), w'))
    case Returned(outcome) =>
      if !outcome.Success? then (Ok(outcome), w)
      else if lostAtEnd then (Ok(LostLease), w)
      else
        match SucceededBy(w, c)
        case Ok(w') => (Ok(Success), w')
        case Err(e) => (if e == StaleClaim then Ok(LostLease) else Err(e), w)
  }
}
