/** What the job protocol guarantees under every interleaving of claims, lost workers, reclaims and commits. */
module JobLaws {
  import opened Domain
  import opened JobQueue
  import opened Runs

  // ----- a superseded attempt -----

  /** The row no longer belongs to this attempt. */
  ghost predicate Superseded(w: World, c: Claim) {
    c.job in w.jobs && c.generation <= w.jobs[c.job].generation && !Current(w, c)
  }

  /** Whatever anyone does, an attempt that lost its lease never gets it back. */
  lemma SupersededStays(w: World, op: Op, c: Claim)
    requires Superseded(w, c)
    ensures Superseded(Step(w, op), c)
  {
  }

  /** The steps an attempt takes under its claim. */
  predicate ActsUnder(op: Op, c: Claim) {
    match op
    case Heartbeat(d) => d == c
    case CommitConsume(d, _) => d == c
    case CommitReplay(d, _) => d == c
    case CommitOther(d, _) => d == c
    case Succeed(d) => d == c
    case Fail(d, _) => d == c
    case Cancel(d) => d == c
    case _ => false
  }

  /** After any further run, nothing a superseded attempt does changes anything. */
  lemma {:induction false} SupersededIsHarmless(w: World, ops: seq<Op>, c: Claim, op: Op)
    requires Superseded(w, c) && ActsUnder(op, c)
    ensures Step(Execute(Step, w, ops), op) == Execute(Step, w, ops)
  {
    forall t, o | Superseded(t, c) ensures Superseded(Step(t, o), c) { SupersededStays(t, o, c); }
    Invariance(Step, t => Superseded(t, c), w, ops);
  }

  /** A later claim supersedes every earlier claim of the job. */
  lemma {:induction false} ClaimSupersedes(w: World, id: JobId, worker: string, token: int, c: Claim)
    requires Claimable(w, id) && Settle(w, id, worker, token).0.Picked?
    requires c.job == id && c.generation <= w.jobs[id].generation
    ensures Superseded(Settle(w, id, worker, token).1, c)
    ensures Current(Settle(w, id, worker, token).1, Settle(w, id, worker, token).0.claim)
  {
  }

  // ----- committed work -----

  /** A job whose business work committed is still running under that receipt, or finished, or was cancelled. */
  ghost predicate Safe(w: World, id: JobId) {
    id in w.jobs && id in w.committed && ((w.jobs[id].status.Running? && HasReceipt(w, id)) || w.jobs[id].status.Succeeded? || w.jobs[id].status.Cancelled?)
  }

  lemma SafeStays(w: World, op: Op, id: JobId)
    requires Safe(w, id)
    ensures Safe(Step(w, op), id)
  {
  }

  /** A committed business receipt is never turned into retryable or dead, whatever happens afterwards. */
  lemma {:induction false} CommittedNeverRetried(w: World, c: Claim, code: string, w': World, ops: seq<Op>)
    requires Completed(w, c, code) == Ok(w')
    ensures Safe(Execute(Step, w', ops), c.job)
  {
    forall t, o | Safe(t, c.job) ensures Safe(Step(t, o), c.job) { SafeStays(t, o, c.job); }
    Invariance(Step, t => Safe(t, c.job), w', ops);
  }

  /** A cancellation that reaches a job while it is running: by the server, or by the attempt itself. */
  ghost predicate Cancels(w: World, op: Op, id: JobId) {
    && id in w.jobs && w.jobs[id].status.Running?
    && (op == ServerCancel(id) || (op.Cancel? && op.claim.job == id && Current(w, op.claim)))
  }

  /** One step turns a committed job into a cancelled one exactly if it cancels the job while it is still running. */
  lemma CommittedStep(w: World, op: Op, id: JobId)
    requires Safe(w, id)
    ensures Safe(Step(w, op), id)
    ensures Step(w, op).jobs[id].status.Cancelled? <==> w.jobs[id].status.Cancelled? || Cancels(w, op, id)
  {
  }

  /** Some step of the run cancels the job while it is running. */
  ghost predicate CancelReaches(w: World, ops: seq<Op>, id: JobId) { Happens(Step, w, ops, (t, op) => Cancels(t, op, id)) }

  /** A job whose work has committed ends up cancelled exactly if a cancellation reaches it before it is marked succeeded. */
  lemma {:induction false} CommittedCancelledExactly(w: World, id: JobId, ops: seq<Op>)
    requires Safe(w, id) && !w.jobs[id].status.Cancelled?
    ensures Safe(Execute(Step, w, ops), id)
    ensures Execute(Step, w, ops).jobs[id].status.Cancelled? <==> CancelReaches(w, ops, id)
  {
    if ops != [] {
      var n := |ops| - 1;
      CommittedCancelledExactly(w, id, ops[..n]);
      CommittedStep(Execute(Step, w, ops[..n]), ops[n], id);
      HappensSnoc(Step, w, ops[..n], ops[n], (t, op) => Cancels(t, op, id));
      assert ops == ops[..n] + [ops[n]];
    }
  }

  const LOST_SUCCESS: seq<Op> :=
    [AppendEvent(0, 1), ClaimJob(0, "worker", 7), CommitConsume(Claim(0, 1, 7, "worker"), true), ServerCancel(0)]

  /** An event is materialised and its receipt written, and then the room is deleted before the worker reports. */
  lemma CommittedCanBeCancelled()
    ensures var w := Execute(Step, EMPTY, LOST_SUCCESS);
            0 in w.committed && 0 in w.jobs && w.jobs[0].status.Cancelled? && w.log == [1]
  {
    var ops := LOST_SUCCESS;
    var claim := Claim(0, 1, 7, "worker");
    var w1 := Step(EMPTY, ops[0]);
    var w2 := Step(w1, ops[1]);
    assert Claimable(w1, 0) && w2.jobs[0].status.Running? && Current(w2, claim);
    var w3 := Step(w2, ops[2]);
    assert CodeOk(CONSUMED);
    assert 0 in w3.committed && w3.jobs[0].status.Running?;
    assert ops[..1] == [] + [ops[0]] && ops[..2] == ops[..1] + [ops[1]] && ops[..3] == ops[..2] + [ops[2]] && ops == ops[..3] + [ops[3]];
    ExecuteSnoc(Step, EMPTY, [], ops[0]);
    ExecuteSnoc(Step, EMPTY, ops[..1], ops[1]);
    ExecuteSnoc(Step, EMPTY, ops[..2], ops[2]);
    ExecuteSnoc(Step, EMPTY, ops[..3], ops[3]);
  }

  // ----- the invariant -----

  /** worker_job_lease_check. */
  ghost predicate LeasesOk(w: World) {
    forall id :: id in w.jobs ==> (w.jobs[id].lease.Some? <==> w.jobs[id].status.Running?)
  }

  ghost predicate Consumes(w: World, id: JobId, s: nat) { id in w.jobs && w.jobs[id].kind == ConsumeEvent(s) }

  ghost predicate HasConsumer(w: World, s: nat) { exists id :: Consumes(w, id, s) }

  ghost predicate KindOk(kind: JobKind, events: nat) {
    && (kind.Analytics() ==> kind.OrderSeq() <= events)
    && (kind.ConsumeEvent? ==> kind.roomSeq >= 1)
  }

  /** Every event has its consume job, and no job points beyond the room's log. */
  ghost predicate EventsHaveJobs(w: World) {
    && (forall s: nat :: 1 <= s <= w.events ==> HasConsumer(w, s))
    && (forall id :: id in w.jobs ==> KindOk(w.jobs[id].kind, w.events))
  }

  /** Only committed work leaves a receipt or a succeeded job, and committed consume work has moved the cursor. */
  ghost predicate CommitsRecorded(w: World) {
    && (forall id :: id in w.committed ==> Safe(w, id))
    && (forall k :: k in w.receipts ==> k.0 in w.committed)
    && (forall id :: id in w.jobs && w.jobs[id].status.Succeeded? ==> id in w.committed)
    && (forall id :: id in w.committed && id in w.jobs && w.jobs[id].kind.ConsumeEvent? ==> w.jobs[id].kind.roomSeq <= w.checkpoint)
  }

  /** Events were materialised one by one, in order. */
  ghost predicate InOrder(w: World) {
    |w.log| == w.checkpoint && forall i :: 0 <= i < |w.log| ==> w.log[i] == i + 1
  }

  predicate Before(w: World, p: JobId, id: JobId)
    requires p in w.jobs && id in w.jobs
  {
    w.jobs[p].kind.Analytics() && w.jobs[id].kind.Analytics() && Precedes(p, w.jobs[p].kind, id, w.jobs[id].kind)
  }

  /** While an analytics job runs, every earlier consume job has succeeded. */
  ghost predicate Barrier(w: World) {
    forall p, id :: p in w.jobs && id in w.jobs && w.jobs[id].status.Running? && w.jobs[p].kind.ConsumeEvent? && Before(w, p, id)
      ==> w.jobs[p].status.Succeeded?
  }

  ghost predicate Invariant(w: World) {
    LeasesOk(w) && EventsHaveJobs(w) && CommitsRecorded(w) && InOrder(w) && Barrier(w)
  }

  lemma LeasesKept(w: World, op: Op)
    requires LeasesOk(w)
    ensures LeasesOk(Step(w, op))
  {
  }

  /** Jobs are only ever added, and keep their kind. */
  lemma KindsKept(w: World, op: Op)
    ensures w.events <= Step(w, op).events
    ensures forall id :: id in w.jobs ==> id in Step(w, op).jobs && Step(w, op).jobs[id].kind == w.jobs[id].kind
    ensures forall id :: id in Step(w, op).jobs && id !in w.jobs ==> KindOk(Step(w, op).jobs[id].kind, Step(w, op).events)
    ensures Step(w, op).events > w.events ==> Step(w, op).events == w.events + 1 && HasConsumer(Step(w, op), w.events + 1)
  {
    if op.AppendEvent? && op.id !in w.jobs {
      assert Consumes(Step(w, op), op.id, w.events + 1);
    }
  }

  lemma EventsKept(w: World, op: Op)
    requires EventsHaveJobs(w)
    ensures EventsHaveJobs(Step(w, op))
  {
    var w' := Step(w, op);
    KindsKept(w, op);
    forall s: nat | 1 <= s <= w'.events ensures HasConsumer(w', s) {
      if s <= w.events {
        assert HasConsumer(w, s);
        var id :| Consumes(w, id, s);
        assert Consumes(w', id, s);
      }
    }
    forall id | id in w'.jobs ensures KindOk(w'.jobs[id].kind, w'.events) {
      if id in w.jobs { assert KindOk(w.jobs[id].kind, w.events); }
    }
  }

  lemma OrderKept(w: World, op: Op)
    requires InOrder(w)
    ensures InOrder(Step(w, op))
    ensures w.checkpoint <= Step(w, op).checkpoint <= w.checkpoint + 1
  {
  }

  /** How committed work comes about: by a current attempt, which for a consume job leaves the cursor at its event. */
  lemma CommitSources(w: World, op: Op)
    ensures forall id :: id in Step(w, op).committed && id !in w.committed ==>
      Safe(Step(w, op), id) && (Step(w, op).jobs[id].kind.ConsumeEvent? ==> Step(w, op).jobs[id].kind.roomSeq <= Step(w, op).checkpoint)
    ensures w.committed <= Step(w, op).committed && w.checkpoint <= Step(w, op).checkpoint
    ensures forall k :: k in Step(w, op).receipts && k !in w.receipts ==> k.0 in Step(w, op).committed
  {
  }

  /** A job becomes succeeded only under its receipt. */
  lemma SuccessSources(w: World, op: Op)
    ensures forall id :: id in Step(w, op).jobs && Step(w, op).jobs[id].status.Succeeded? ==>
      id in w.jobs && (w.jobs[id].status.Succeeded? || exists k :: k in w.receipts && k.0 == id)
  {
    var w' := Step(w, op);
    forall id | id in w'.jobs && w'.jobs[id].status.Succeeded?
      ensures id in w.jobs && (w.jobs[id].status.Succeeded? || exists k :: k in w.receipts && k.0 == id)
    {
      if id in w.jobs && !w.jobs[id].status.Succeeded? {
        assert (id, w.jobs[id].generation) in w.receipts;
      }
    }
  }

  lemma CommitsKept(w: World, op: Op)
    requires CommitsRecorded(w)
    ensures CommitsRecorded(Step(w, op))
  {
    var w' := Step(w, op);
    CommitSources(w, op);
    SuccessSources(w, op);
    KindsKept(w, op);
    forall id | id in w'.committed
      ensures Safe(w', id) && (w'.jobs[id].kind.ConsumeEvent? ==> w'.jobs[id].kind.roomSeq <= w'.checkpoint)
    {
      if id in w.committed { SafeStays(w, op, id); }
    }
  }

  /** Only a claim makes a job run, and then every earlier consume job has succeeded. */
  lemma RunningSources(w: World, op: Op, id: JobId)
    requires id in Step(w, op).jobs && Step(w, op).jobs[id].status.Running?
    ensures id in w.jobs && (w.jobs[id].status.Running? || (Unblocked(w.jobs, id) && op.ClaimJob?))
  {
  }

  lemma SucceededStays(w: World, op: Op, id: JobId)
    requires id in w.jobs && (id in w.committed || w.jobs[id].kind.Analytics()) && w.jobs[id].status.Succeeded?
    ensures id in Step(w, op).jobs && Step(w, op).jobs[id].status.Succeeded?
  {
  }

  lemma BarrierKept(w: World, op: Op)
    requires Barrier(w) && EventsHaveJobs(w)
    ensures Barrier(Step(w, op))
  {
    var w' := Step(w, op);
    KindsKept(w, op);
    forall p, id | p in w'.jobs && id in w'.jobs && w'.jobs[id].status.Running? && w'.jobs[p].kind.ConsumeEvent? && Before(w', p, id)
      ensures w'.jobs[p].status.Succeeded?
    {
      RunningSources(w, op, id);
      if p in w.jobs {
        assert Before(w, p, id);
        EarlierStays(w, op, p, id);
      } else {
        assert KindOk(w.jobs[id].kind, w.events);
        NewIsLast(w, op, p);
      }
    }
  }

  lemma EarlierStays(w: World, op: Op, p: JobId, id: JobId)
    requires Barrier(w) && p in w.jobs && id in w.jobs && w.jobs[p].kind.ConsumeEvent? && Before(w, p, id)
    requires w.jobs[id].status.Running? || Unblocked(w.jobs, id)
    ensures p in Step(w, op).jobs && Step(w, op).jobs[p].status.Succeeded?
  {
    SucceededStays(w, op, p);
  }

  lemma NewIsLast(w: World, op: Op, p: JobId)
    requires p in Step(w, op).jobs && p !in w.jobs && Step(w, op).jobs[p].kind.ConsumeEvent?
    ensures Step(w, op).jobs[p].kind.roomSeq == w.events + 1
  {
  }

  lemma StepKeeps(w: World, op: Op)
    requires Invariant(w)
    ensures Invariant(Step(w, op))
  {
    LeasesKept(w, op);
    EventsKept(w, op);
    CommitsKept(w, op);
    OrderKept(w, op);
    BarrierKept(w, op);
  }

  lemma RunKeeps(ops: seq<Op>)
    ensures Invariant(Execute(Step, EMPTY, ops))
  {
    forall w, op | Invariant(w) ensures Invariant(Step(w, op)) { StepKeeps(w, op); }
    Invariance(Step, Invariant, EMPTY, ops);
  }

  // ----- what follows in every run -----

  /** Each room sequence number is materialised by consume exactly once and in order, and nothing beyond the cursor. */
  lemma {:induction false} ExactlyOnceInOrder(ops: seq<Op>)
    ensures var w := Execute(Step, EMPTY, ops);
            |w.log| == w.checkpoint && forall i :: 0 <= i < |w.log| ==> w.log[i] == i + 1
  {
    RunKeeps(ops);
  }

  /** A succeeded job had a committed receipt; for a consume job, its event has been materialised. */
  lemma {:induction false} SucceededWasCommitted(ops: seq<Op>, id: JobId)
    ensures var w := Execute(Step, EMPTY, ops);
            id in w.jobs && w.jobs[id].status.Succeeded? ==>
              && id in w.committed
              && (w.jobs[id].kind.ConsumeEvent? ==> w.jobs[id].kind.roomSeq <= w.checkpoint && w.jobs[id].kind.roomSeq in w.log)
  {
    RunKeeps(ops);
    var w := Execute(Step, EMPTY, ops);
    if id in w.jobs && w.jobs[id].status.Succeeded? && w.jobs[id].kind.ConsumeEvent? {
      var s := w.jobs[id].kind.roomSeq;
      assert w.log[s - 1] == s;
    }
  }

  lemma CurrentFindsCursor(w: World, c: Claim, materializes: bool)
    requires Invariant(w) && Current(w, c)
    ensures ConsumeCommitted(w, c, materializes) != Err(CursorGap)
    ensures ReplayCommitted(w, c, materializes) != Err(CursorBehind)
  {
    assert KindOk(w.jobs[c.job].kind, w.events);
    match w.jobs[c.job].kind
    case ConsumeEvent(s) => if s > 1 { EarlierMaterialised(w, c.job, s - 1); }
    case ReplayRoom(s) => if s > 0 { EarlierMaterialised(w, c.job, s); }
    case OtherKind =>
  }

  /** Because of the claim barrier, a current consume attempt never finds a gap before its event, and a current
      replay attempt never finds the cursor behind its request. */
  lemma {:induction false} CursorErrorsUnreachable(ops: seq<Op>, c: Claim, materializes: bool)
    ensures var w := Execute(Step, EMPTY, ops);
            Current(w, c) ==>
              && ConsumeCommitted(w, c, materializes) != Err(CursorGap)
              && ReplayCommitted(w, c, materializes) != Err(CursorBehind)
  {
    RunKeeps(ops);
    var w := Execute(Step, EMPTY, ops);
    if Current(w, c) { CurrentFindsCursor(w, c, materializes); }
  }

  lemma EarlierMaterialised(w: World, id: JobId, s: nat)
    requires Invariant(w) && id in w.jobs && w.jobs[id].status.Running? && w.jobs[id].kind.Analytics() && 1 <= s <= w.events
    requires w.jobs[id].kind.ConsumeEvent? ==> s < w.jobs[id].kind.roomSeq
    requires w.jobs[id].kind.ReplayRoom? ==> s <= w.jobs[id].kind.requested
    ensures w.checkpoint >= s
  {
    assert HasConsumer(w, s);
    var p :| Consumes(w, p, s);
    assert Before(w, p, id);
  }

  /** Succeeded is never left, whatever the kind of the job. */
  lemma {:induction false} SucceededForever(ops: seq<Op>, more: seq<Op>, id: JobId)
    ensures var w := Execute(Step, EMPTY, ops);
            id in w.jobs && w.jobs[id].status.Succeeded? ==>
              var w' := Execute(Step, w, more); id in w'.jobs && w'.jobs[id].status.Succeeded?
  {
    RunKeeps(ops);
    var w := Execute(Step, EMPTY, ops);
    if id in w.jobs && w.jobs[id].status.Succeeded? { DoneStays(w, more, id); }
  }

  ghost predicate Done(w: World, id: JobId) { id in w.jobs && id in w.committed && w.jobs[id].status.Succeeded? }

  lemma {:induction false} DoneStays(w: World, ops: seq<Op>, id: JobId)
    requires Done(w, id)
    ensures Done(Execute(Step, w, ops), id)
  {
    forall t, o | Done(t, id) ensures Done(Step(t, o), id) { SucceededStays(t, o, id); CommitSources(t, o); }
    Invariance(Step, t => Done(t, id), w, ops);
  }

  /** A successful report means the job is succeeded, and it stays so whatever happens afterwards. */
  lemma {:induction false} SuccessIsFinal(before: seq<Op>, c: Claim, handler: HandlerEnd, lostAtError: bool,
          lostAtEnd: bool, ops: seq<Op>)
    requires Concluded(Execute(Step, EMPTY, before), c, handler, lostAtError, lostAtEnd).0 == Ok(Success)
    ensures var w := Concluded(Execute(Step, EMPTY, before), c, handler, lostAtError, lostAtEnd).1;
            && c.job in w.jobs && w.jobs[c.job].status.Succeeded?
            && c.job in Execute(Step, w, ops).jobs && Execute(Step, w, ops).jobs[c.job].status.Succeeded?
  {
    var w0 := Execute(Step, EMPTY, before);
    RunKeeps(before);
    var w := Concluded(w0, c, handler, lostAtError, lostAtEnd).1;
    assert (c.job, c.generation) in w0.receipts;
    DoneStays(w, ops, c.job);
  }
}
