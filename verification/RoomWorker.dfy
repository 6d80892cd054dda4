/** A room's job queue and its analytics tables together: what an attempt commits, it commits to both at once. */
module RoomWorker {
  import opened Domain
  import opened Pipeline
  import opened PipelineLaws
  import opened RoomLaws
  import opened OnceLaws
  import opened Runs
  import Q = JobQueue
  import L = JobLaws

  datatype Worker = Worker(queue: Q.World, tables: Tables)

  /** A step of the queue that is not an analytics commit, or the transaction of one of the two handlers. A consume that
      owes a replay enqueues it, under a job the database numbers. */
  datatype Act =
    | Queue(op: Q.Op)
    | CommitConsume(claim: Q.Claim, build: Build, inputs: Inputs, replayJob: Q.JobId, maxAttempts: nat)
    | CommitReplay(claim: Q.Claim, build: Build, inputs: Inputs)

  predicate Consumer(w: Q.World, c: Q.Claim) { c.job in w.jobs && w.jobs[c.job].kind.ConsumeEvent? }

  predicate Replayer(w: Q.World, c: Q.Claim) { c.job in w.jobs && w.jobs[c.job].kind.ReplayRoom? }

  /** The replay job a committed consume leaves behind, if it owes one. */
  function WithReplay(q: Q.World, t: Tables, t': Tables, owed: Option<string>, id: Q.JobId, maxAttempts: nat): Q.World {
    if t.checkpoint < t'.checkpoint && owed.Some? then Q.Step(q, Q.Enqueue(id, Q.ReplayRoom(t'.checkpoint), maxAttempts)) else q
  }

  /** Materialisation and receipt in one transaction: both, or neither. */
  function Both(w: Worker, done: Result<Tables, PipelineError>, receipt: Result<Q.World, Q.JobError>): Worker {
    if done.Ok? && receipt.Ok? then Worker(receipt.value, done.value) else w
  }

  function Consuming(room: string, w: Worker, c: Q.Claim, b: Build, x: Inputs, id: Q.JobId, maxAttempts: nat): Worker
    requires AllKeys(w.tables)
  {
    if !Consumer(w.queue, c) then w
    else
      var w' := Both(w, Consumed(room, w.tables, b, w.queue.jobs[c.job].kind.roomSeq, x), Q.ConsumeCommitted(w.queue, c, true));
      w'.(queue := WithReplay(w'.queue, w.tables, w'.tables, Owed(x, true), id, maxAttempts))
  }

  function Replaying(room: string, w: Worker, c: Q.Claim, b: Build, x: Inputs): Worker
    requires AllKeys(w.tables)
  {
    if !Replayer(w.queue, c) then w
    else Both(w, Replayed(room, w.tables, b, c.job, w.queue.jobs[c.job].kind.requested, x), Q.ReplayCommitted(w.queue, c, true))
  }

  function Does(room: string, w: Worker, a: Act): Worker
    requires AllKeys(w.tables)
  {
    match a
    case Queue(op) => if op.CommitConsume? || op.CommitReplay? then w else w.(queue := Q.Step(w.queue, op))
    case CommitConsume(c, b, x, id, n) => Consuming(room, w, c, b, x, id, n)
    case CommitReplay(c, b, x) => Replaying(room, w, c, b, x)
  }

  function ActOf(room: string): (Worker, Act) -> Worker {
    (w: Worker, a: Act) => if AllKeys(w.tables) then Does(room, w, a) else w
  }

  const IDLE := Worker(Q.EMPTY, EMPTY_TABLES)

  /** The worker's state after any interleaving. */
  function Ran(room: string, acts: seq<Act>): Worker { Execute(ActOf(room), IDLE, acts) }

  ghost predicate Consistent(w: Worker) {
    L.Invariant(w.queue) && Invariant(w.tables) && EachOnce(w.tables) && w.tables.checkpoint == w.queue.checkpoint
  }

  /** What either handler leaves in the tables, with the cursor where the queue's handler leaves it. */
  ghost predicate Leaves(done: Result<Tables, PipelineError>, cursor: nat) {
    done.Ok? ==> Invariant(done.value) && EachOnce(done.value) && done.value.checkpoint == cursor
  }

  lemma ConsumedLeaves(room: string, t: Tables, b: Build, s: nat, x: Inputs)
    requires Invariant(t) && EachOnce(t)
    ensures Leaves(Consumed(room, t, b, s, x), if s > t.checkpoint then t.checkpoint + 1 else t.checkpoint)
  {
    if Consumed(room, t, b, s, x).Ok? {
      ConsumeKeeps(room, t, b, s, x, Consumed(room, t, b, s, x).value);
      ConsumeKeepsEach(room, t, b, s, x, Consumed(room, t, b, s, x).value);
    }
  }

  lemma ReplayedLeaves(room: string, t: Tables, b: Build, j: nat, s: nat, x: Inputs)
    requires Invariant(t) && EachOnce(t)
    ensures Leaves(Replayed(room, t, b, j, s, x), t.checkpoint)
  {
    if Replayed(room, t, b, j, s, x).Ok? {
      ReplayKeeps(room, t, b, j, s, x, Replayed(room, t, b, j, s, x).value);
      ReplayKeepsEach(room, t, b, j, s, x, Replayed(room, t, b, j, s, x).value);
    }
  }

  /** What a receipt leaves in the queue. */
  ghost predicate Receipted(receipt: Result<Q.World, Q.JobError>, cursor: nat) {
    receipt.Ok? ==> L.Invariant(receipt.value) && receipt.value.checkpoint == cursor
  }

  lemma ConsumeReceipted(w: Q.World, c: Q.Claim)
    requires L.Invariant(w) && Consumer(w, c)
    ensures Receipted(Q.ConsumeCommitted(w, c, true), if w.jobs[c.job].kind.roomSeq > w.checkpoint then w.checkpoint + 1 else w.checkpoint)
  {
    L.StepKeeps(w, Q.CommitConsume(c, true));
  }

  lemma ReplayReceipted(w: Q.World, c: Q.Claim)
    requires L.Invariant(w) && Replayer(w, c)
    ensures Receipted(Q.ReplayCommitted(w, c, true), w.checkpoint)
  {
    L.StepKeeps(w, Q.CommitReplay(c, true));
  }

  lemma BothConsistent(w: Worker, done: Result<Tables, PipelineError>, receipt: Result<Q.World, Q.JobError>, cursor: nat)
    requires Consistent(w) && Leaves(done, cursor) && Receipted(receipt, cursor)
    ensures Consistent(Both(w, done, receipt))
  {
  }

  /** Nothing but the consume handler moves the cursor. */
  lemma QueueKeeps(w: Q.World, op: Q.Op)
    requires L.Invariant(w) && !op.CommitConsume?
    ensures L.Invariant(Q.Step(w, op)) && Q.Step(w, op).checkpoint == w.checkpoint
  {
    L.StepKeeps(w, op);
  }

  lemma WithReplayKeeps(w: Worker, t: Tables, owed: Option<string>, id: Q.JobId, n: nat)
    requires Consistent(w)
    ensures Consistent(w.(queue := WithReplay(w.queue, t, w.tables, owed, id, n)))
  {
    QueueKeeps(w.queue, Q.Enqueue(id, Q.ReplayRoom(w.tables.checkpoint), n));
  }

  lemma ConsumingKeeps(room: string, w: Worker, c: Q.Claim, b: Build, x: Inputs, id: Q.JobId, n: nat)
    requires Consistent(w)
    ensures Consistent(Consuming(room, w, c, b, x, id, n))
  {
    if Consumer(w.queue, c) {
      var s := w.queue.jobs[c.job].kind.roomSeq;
      var done, receipt := Consumed(room, w.tables, b, s, x), Q.ConsumeCommitted(w.queue, c, true);
      ConsumedLeaves(room, w.tables, b, s, x);
      ConsumeReceipted(w.queue, c);
      BothConsistent(w, done, receipt, if s > w.queue.checkpoint then w.queue.checkpoint + 1 else w.queue.checkpoint);
      WithReplayKeeps(Both(w, done, receipt), w.tables, Owed(x, true), id, n);
    }
  }

  lemma ReplayingKeeps(room: string, w: Worker, c: Q.Claim, b: Build, x: Inputs)
    requires Consistent(w)
    ensures Consistent(Replaying(room, w, c, b, x))
  {
    if Replayer(w.queue, c) {
      ReplayedLeaves(room, w.tables, b, c.job, w.queue.jobs[c.job].kind.requested, x);
      ReplayReceipted(w.queue, c);
      BothConsistent(w, Replayed(room, w.tables, b, c.job, w.queue.jobs[c.job].kind.requested, x),
                     Q.ReplayCommitted(w.queue, c, true), w.queue.checkpoint);
    }
  }

  lemma ActKeeps(room: string, w: Worker, a: Act)
    requires Consistent(w)
    ensures Consistent(ActOf(room)(w, a))
  {
    match a
    case Queue(op) => if !op.CommitConsume? && !op.CommitReplay? { QueueKeeps(w.queue, op); }
    case CommitConsume(c, b, x, id, n) => ConsumingKeeps(room, w, c, b, x, id, n);
    case CommitReplay(c, b, x) => ReplayingKeeps(room, w, c, b, x);
  }

  lemma {:induction false} RunConsistent(room: string, acts: seq<Act>)
    ensures Consistent(Ran(room, acts))
  {
    EmptyInvariant();
    L.RunKeeps([]);
    forall w, a | Consistent(w) ensures Consistent(ActOf(room)(w, a)) { ActKeeps(room, w, a); }
    Invariance(ActOf(room), Consistent, IDLE, acts);
  }

  /** Under every interleaving of claims, lost workers, reclaims and commits the tables stay consistent, their checkpoint
      is the cursor, and every event up to it is in exactly one consumed version of every key. */
  lemma {:induction false} ConsumedExactlyOnce(room: string, acts: seq<Act>, key: ProjectionKey, s: int)
    ensures var w := Ran(room, acts);
            && Invariant(w.tables) && w.tables.checkpoint == w.queue.checkpoint
            && (1 <= s <= w.queue.checkpoint ==> ConsumedOnce(w.tables.rows[key], s))
  {
    RunConsistent(room, acts);
  }

  /** The event of a succeeded consume job is stored, once, under every key. */
  lemma {:induction false} SucceededIsStored(room: string, acts: seq<Act>, id: Q.JobId, key: ProjectionKey)
    ensures var w := Ran(room, acts);
            && AllKeys(w.tables)
            && (id in w.queue.jobs && w.queue.jobs[id].status.Succeeded? && w.queue.jobs[id].kind.ConsumeEvent? ==>
                  ConsumedOnce(w.tables.rows[key], w.queue.jobs[id].kind.roomSeq))
  {
    RunConsistent(room, acts);
    var w := Ran(room, acts);
    if id in w.queue.jobs && w.queue.jobs[id].status.Succeeded? && w.queue.jobs[id].kind.ConsumeEvent? {
      assert L.KindOk(w.queue.jobs[id].kind, w.queue.events);
    }
  }

  /** What an attempt does under its claim, in either half. */
  predicate Under(a: Act, c: Q.Claim) {
    match a
    case Queue(op) => L.ActsUnder(op, c)
    case CommitConsume(d, _, _, _, _) => d == c
    case CommitReplay(d, _, _) => d == c
  }

  ghost predicate Lost(w: Worker, c: Q.Claim) { AllKeys(w.tables) && L.Superseded(w.queue, c) }

  lemma QueueStaysLost(w: Q.World, op: Q.Op, c: Q.Claim)
    requires L.Superseded(w, c)
    ensures L.Superseded(Q.Step(w, op), c)
  {
    L.SupersededStays(w, op, c);
  }

  lemma CommitStaysLost(w: Q.World, d: Q.Claim, c: Q.Claim)
    requires L.Superseded(w, c)
    ensures Q.ConsumeCommitted(w, d, true).Ok? ==> L.Superseded(Q.ConsumeCommitted(w, d, true).value, c)
    ensures Q.ReplayCommitted(w, d, true).Ok? ==> L.Superseded(Q.ReplayCommitted(w, d, true).value, c)
  {
  }

  lemma ConsumedHasKeys(room: string, t: Tables, b: Build, s: nat, x: Inputs)
    requires Invariant(t)
    ensures Consumed(room, t, b, s, x).Ok? ==> AllKeys(Consumed(room, t, b, s, x).value)
  {
    if Consumed(room, t, b, s, x).Ok? { ConsumeKeeps(room, t, b, s, x, Consumed(room, t, b, s, x).value); }
  }

  lemma ReplayedHasKeys(room: string, t: Tables, b: Build, j: nat, s: nat, x: Inputs)
    requires Invariant(t)
    ensures Replayed(room, t, b, j, s, x).Ok? ==> AllKeys(Replayed(room, t, b, j, s, x).value)
  {
    if Replayed(room, t, b, j, s, x).Ok? { ReplayKeeps(room, t, b, j, s, x, Replayed(room, t, b, j, s, x).value); }
  }

  lemma BothStaysLost(w: Worker, done: Result<Tables, PipelineError>, receipt: Result<Q.World, Q.JobError>, c: Q.Claim)
    requires Lost(w, c) && (done.Ok? ==> AllKeys(done.value)) && (receipt.Ok? ==> L.Superseded(receipt.value, c))
    ensures Lost(Both(w, done, receipt), c)
  {
  }

  lemma WithReplayStaysLost(w: Worker, t: Tables, owed: Option<string>, id: Q.JobId, n: nat, c: Q.Claim)
    requires Lost(w, c)
    ensures Lost(w.(queue := WithReplay(w.queue, t, w.tables, owed, id, n)), c)
  {
    QueueStaysLost(w.queue, Q.Enqueue(id, Q.ReplayRoom(w.tables.checkpoint), n), c);
  }

  lemma LostStays(room: string, w: Worker, a: Act, c: Q.Claim)
    requires Consistent(w) && Lost(w, c)
    ensures Lost(ActOf(room)(w, a), c)
  {
    match a
    case Queue(op) => QueueStaysLost(w.queue, op, c);
    case CommitConsume(d, b, x, id, n) => ConsumingStaysLost(room, w, d, b, x, id, n, c);
    case CommitReplay(d, b, x) => ReplayingStaysLost(room, w, d, b, x, c);
  }

  lemma ConsumingStaysLost(room: string, w: Worker, d: Q.Claim, b: Build, x: Inputs, id: Q.JobId, n: nat, c: Q.Claim)
    requires Consistent(w) && Lost(w, c)
    ensures Lost(Consuming(room, w, d, b, x, id, n), c)
  {
    if Consumer(w.queue, d) {
      var s := w.queue.jobs[d.job].kind.roomSeq;
      ConsumedHasKeys(room, w.tables, b, s, x);
      CommitStaysLost(w.queue, d, c);
      BothStaysLost(w, Consumed(room, w.tables, b, s, x), Q.ConsumeCommitted(w.queue, d, true), c);
      WithReplayStaysLost(Both(w, Consumed(room, w.tables, b, s, x), Q.ConsumeCommitted(w.queue, d, true)), w.tables, Owed(x, true), id, n, c);
    }
  }

  lemma ReplayingStaysLost(room: string, w: Worker, d: Q.Claim, b: Build, x: Inputs, c: Q.Claim)
    requires Consistent(w) && Lost(w, c)
    ensures Lost(Replaying(room, w, d, b, x), c)
  {
    if Replayer(w.queue, d) {
      var s := w.queue.jobs[d.job].kind.requested;
      ReplayedHasKeys(room, w.tables, b, d.job, s, x);
      CommitStaysLost(w.queue, d, c);
      BothStaysLost(w, Replayed(room, w.tables, b, d.job, s, x), Q.ReplayCommitted(w.queue, d, true), c);
    }
  }

  /** After any further run, nothing a superseded attempt does changes the queue or a single stored row. */
  lemma {:induction false} LostTouchesNothing(room: string, before: seq<Act>, more: seq<Act>, c: Q.Claim, a: Act)
    requires L.Superseded(Ran(room, before).queue, c) && Under(a, c)
    ensures var w := Execute(ActOf(room), Ran(room, before), more); ActOf(room)(w, a) == w
  {
    RunConsistent(room, before);
    var inv := w => Consistent(w) && Lost(w, c);
    forall w, o | inv(w) ensures inv(ActOf(room)(w, o)) {
      ActKeeps(room, w, o);
      LostStays(room, w, o, c);
    }
    Invariance(ActOf(room), inv, Ran(room, before), more);
    LostIsIdle(room, Execute(ActOf(room), Ran(room, before), more), c, a);
  }

  lemma LostIsIdle(room: string, w: Worker, c: Q.Claim, a: Act)
    requires Lost(w, c) && Under(a, c)
    ensures ActOf(room)(w, a) == w
  {
    match a
    case Queue(op) => QueueRefuses(w.queue, c, op);
    case CommitConsume(_, b, x, id, n) =>
      if Consumer(w.queue, c) {
        ReceiptRefused(w.queue, c);
        NotBoth(w, Consumed(room, w.tables, b, w.queue.jobs[c.job].kind.roomSeq, x), Q.ConsumeCommitted(w.queue, c, true));
      }
    case CommitReplay(_, b, x) =>
      if Replayer(w.queue, c) {
        ReceiptRefused(w.queue, c);
        NotBoth(w, Replayed(room, w.tables, b, c.job, w.queue.jobs[c.job].kind.requested, x), Q.ReplayCommitted(w.queue, c, true));
      }
  }

  lemma QueueRefuses(w: Q.World, c: Q.Claim, op: Q.Op)
    requires L.Superseded(w, c) && L.ActsUnder(op, c)
    ensures Q.Step(w, op) == w
  {
  }

  lemma ReceiptRefused(w: Q.World, c: Q.Claim)
    requires L.Superseded(w, c)
    ensures Q.ConsumeCommitted(w, c, true).Err? && Q.ReplayCommitted(w, c, true).Err?
  {
  }

  lemma NotBoth(w: Worker, done: Result<Tables, PipelineError>, receipt: Result<Q.World, Q.JobError>)
    requires receipt.Err?
    ensures Both(w, done, receipt) == w
  {
  }

  /** A current attempt never finds the tables too far behind, and never a partial or mixed set of heads. */
  lemma {:induction false} CurrentFindsTables(room: string, acts: seq<Act>, c: Q.Claim, b: Build, x: Inputs)
    ensures var w := Ran(room, acts);
            && AllKeys(w.tables) && CurrentEpoch(w.tables, b).Ok?
            && (Q.Current(w.queue, c) && Consumer(w.queue, c) ==>
                  !CursorError(Consumed(room, w.tables, b, w.queue.jobs[c.job].kind.roomSeq, x)))
            && (Q.Current(w.queue, c) && Replayer(w.queue, c) ==>
                  !CursorError(Replayed(room, w.tables, b, c.job, w.queue.jobs[c.job].kind.requested, x)))
  {
    RunConsistent(room, acts);
    var w := Ran(room, acts);
    CurrentEpochDefined(w.tables, b);
    if Q.Current(w.queue, c) { CurrentInReach(room, w, c, b, x); }
  }

  ghost predicate CursorError(done: Result<Tables, PipelineError>) { done == Err(CursorGap) || done == Err(CursorBehind) }

  lemma CurrentInReach(room: string, w: Worker, c: Q.Claim, b: Build, x: Inputs)
    requires Consistent(w) && Q.Current(w.queue, c)
    ensures Consumer(w.queue, c) ==> !CursorError(Consumed(room, w.tables, b, w.queue.jobs[c.job].kind.roomSeq, x))
    ensures Replayer(w.queue, c) ==> !CursorError(Replayed(room, w.tables, b, c.job, w.queue.jobs[c.job].kind.requested, x))
  {
    CursorReached(w.queue, c);
    if Consumer(w.queue, c) {
      ConsumeInReach(room, w.tables, b, w.queue.jobs[c.job].kind.roomSeq, x);
    } else if Replayer(w.queue, c) {
      ReplayInReach(room, w.tables, b, c.job, w.queue.jobs[c.job].kind.requested, x);
    }
  }

  lemma CursorReached(w: Q.World, c: Q.Claim)
    requires L.Invariant(w) && Q.Current(w, c)
    ensures Consumer(w, c) ==> w.jobs[c.job].kind.roomSeq <= w.checkpoint + 1
    ensures Replayer(w, c) ==> w.jobs[c.job].kind.requested <= w.checkpoint
  {
    L.CurrentFindsCursor(w, c, true);
  }

  lemma ConsumeInReach(room: string, t: Tables, b: Build, s: nat, x: Inputs)
    requires Invariant(t) && s <= t.checkpoint + 1
    ensures !CursorError(Consumed(room, t, b, s, x))
  {
    if s > t.checkpoint {
      var epoch := EpochFound(t, b);
      ConsumedIs(room, t, b, epoch, s, x);
      MaterializedErrors(room, t, b, epoch, s, x, true);
    }
  }

  lemma ReplayInReach(room: string, t: Tables, b: Build, j: nat, s: nat, x: Inputs)
    requires Invariant(t) && s <= t.checkpoint
    ensures !CursorError(Replayed(room, t, b, j, s, x))
  {
    MaterializedErrors(room, t, b, ReplayEpoch(j), t.checkpoint, x, false);
  }

  lemma MaterializedErrors(room: string, t: Tables, b: Build, epoch: Epoch, through: nat, x: Inputs, enqueue: bool)
    requires AllKeys(t)
    ensures !CursorError(Materialized(room, t, b, epoch, through, x, enqueue))
  {
    var views := ViewsOf(room, x);
    if views.Ok? {
      LoopErrors(t, StepOf(b, epoch, through, views.value, x, enqueue), through, Owed(x, enqueue));
    } else {
      ViewsErrors(room, x);
    }
  }

  lemma ViewsErrors(room: string, x: Inputs)
    requires ViewsOf(room, x).Err?
    ensures ViewsOf(room, x).error.EvidenceInvalid? || ViewsOf(room, x).error.ProjectionFailed?
  {
  }

  lemma LoopErrors(t: Tables, step: KeyStep, through: nat, owed: Option<string>)
    requires AllKeys(t)
    ensures !CursorError(match PersistFrom(0, t, step) case Err(e) => Err(e) case Ok(t') => Settled(t', through, owed))
  {
    PersistErrors(0, t, step);
    if PersistFrom(0, t, step).Ok? { SettledErrors(PersistFrom(0, t, step).value, through, owed); }
  }

  lemma SettledErrors(t: Tables, through: nat, owed: Option<string>)
    ensures !CursorError(Settled(t, through, owed))
  {
  }

  lemma {:induction false} PersistErrors(i: nat, t: Tables, step: KeyStep)
    requires i <= |PROJECTION_KEYS| && AllKeys(t)
    ensures PersistFrom(i, t, step).Err? ==> PersistFrom(i, t, step).error.StoreFailed?
    decreases |PROJECTION_KEYS| - i
  {
    if i < |PROJECTION_KEYS| {
      var key := PROJECTION_KEYS[i];
      if step(key, t.rows[key]).Ok? {
        PersistErrors(i + 1, t.(rows := t.rows[key := step(key, t.rows[key]).value]), step);
      }
    }
  }
}
