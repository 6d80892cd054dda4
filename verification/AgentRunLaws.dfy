/** What every reachable state of the agent protocol satisfies. */
module AgentRunLaws {
  import opened Domain
  import opened AgentRuns
  import opened Runs

  /** At most one run is active. */
  ghost predicate OneActive(r: Room) {
    forall i, j :: 0 <= i < j < |r.runs| ==> !(IsActive(r.runs[i].state) && IsActive(r.runs[j].state))
  }

  /** At most one run answers a trigger. */
  ghost predicate OnePerTrigger(r: Room) {
    forall i, j :: 0 <= i < j < |r.runs| ==> r.runs[i].trigger != r.runs[j].trigger
  }

  ghost predicate DisabledIsIdle(r: Room) {
    !r.enabled ==> forall i :: 0 <= i < |r.runs| ==> !IsActive(r.runs[i].state)
  }

  /** How many events of the room carry a run's job as their cause. */
  function Utterances(events: seq<Event>, id: RunId): nat {
    if events == [] then 0
    else Utterances(events[..|events| - 1], id) + if events[|events| - 1].causation == Some(id) then 1 else 0
  }

  /** A run is completed exactly when it has spoken, and it speaks once. */
  ghost predicate CompletedSpoke(r: Room) {
    && (forall id: nat :: id < |r.runs| ==> Utterances(r.events, id) == if r.runs[id].state.Completed? then 1 else 0)
    && (forall id: nat :: id >= |r.runs| ==> Utterances(r.events, id) == 0)
  }

  /** Only a completed run's job ever had a business receipt. */
  ghost predicate CommittedCompleted(r: Room) {
    forall id :: id in r.committed ==> id < |r.runs| && r.runs[id].state.Completed?
  }

  ghost predicate Invariant(r: Room) {
    && OneActive(r) && OnePerTrigger(r) && DisabledIsIdle(r) && CompletedSpoke(r) && CommittedCompleted(r)
    && |r.jobs| == |r.runs|
  }

  lemma {:induction false} RunOfFinds(runs: seq<Run>, trigger: EventId)
    ensures RunOf(runs, trigger).None? <==> forall i :: 0 <= i < |runs| ==> runs[i].trigger != trigger
    ensures RunOf(runs, trigger).Some? ==> RunOf(runs, trigger).value < |runs| && runs[RunOf(runs, trigger).value].trigger == trigger
  {
    if runs != [] {
      RunOfFinds(runs[..|runs| - 1], trigger);
    }
  }

  lemma {:induction false} SpokenCounts(events: seq<Event>, id: RunId)
    ensures Spoken(events, id) <==> Utterances(events, id) > 0
  {
    if events != [] {
      var last := |events| - 1;
      SpokenCounts(events[..last], id);
      if Spoken(events, id) && events[last].causation != Some(id) {
        var i :| 0 <= i < |events| && events[i].causation == Some(id);
        assert events[..last][i].causation == Some(id);
      }
      if Spoken(events[..last], id) {
        var i :| 0 <= i < last && events[..last][i].causation == Some(id);
        assert events[i].causation == Some(id);
      }
    }
  }

  lemma UtterancesSnoc(events: seq<Event>, e: Event, id: RunId)
    ensures Utterances(events + [e], id) == Utterances(events, id) + if e.causation == Some(id) then 1 else 0
  {
    assert (events + [e])[..|events|] == events;
  }

  lemma RequestKeeps(r: Room, trigger: EventId, teacher: bool)
    requires Invariant(r)
    ensures Invariant(Step(r, Request(trigger, teacher)))
  {
    RunOfFinds(r.runs, trigger);
    ActiveRunIsActive(r.runs);
  }

  lemma EndKeeps(r: Room, id: RunId, state: RunState, code: string)
    requires Invariant(r) && id < |r.runs| && IsActive(r.runs[id].state) && !IsActive(state) && !state.Completed?
    ensures Invariant(Ended(r, id, state, code))
  {
  }

  lemma DisableKeeps(r: Room)
    requires Invariant(r)
    ensures Invariant(Step(r, SetEnabled(false)))
  {
    ActiveRunIsActive(r.runs);
  }

  lemma UtterKeeps(r: Room, id: RunId)
    requires Invariant(r) && id < |r.runs| && IsActive(r.runs[id].state) && !Spoken(r.events, id)
    ensures Invariant(Uttered(r, id))
  {
    var e := Event(MessageAdded, true, Some(RunMessage(id)), 1, false, Some(id));
    forall k: nat ensures Utterances(r.events + [e], k) == Utterances(r.events, k) + if k == id then 1 else 0 {
      UtterancesSnoc(r.events, e, k);
    }
  }

  lemma CompleteKeeps(r: Room, id: RunId, claim: RunClaim)
    requires Invariant(r)
    ensures Invariant(Step(r, Complete(id, claim)))
  {
    SpokenCounts(r.events, id);
    if Finished(r, id, claim).0.Applied? { UtterKeeps(r, id); }
  }

  lemma SpeakKeeps(r: Room, e: Event)
    requires Invariant(r)
    ensures Invariant(Step(r, Speak(e)))
  {
    forall k: nat ensures Utterances(r.events + [e.(causation := None)], k) == Utterances(r.events, k) {
      UtterancesSnoc(r.events, e.(causation := None), k);
    }
  }

  lemma StepKeeps(r: Room, op: Op)
    requires Invariant(r)
    ensures Invariant(Step(r, op))
  {
    match op
    case Request(trigger, teacher) => RequestKeeps(r, trigger, teacher);
    case Cancel(id) => if CancelRequested(r, id).Ok? { EndKeeps(r, id, Cancelled, "CANCEL_REQUESTED"); }
    case SetEnabled(enabled) => if !enabled { DisableKeeps(r); }
    case Complete(id, claim) => CompleteKeeps(r, id, claim);
    case Settle(o) => if Settled(r, o).0.Some? { EndKeeps(r, o.run, TerminalOf(o.reason), CodeOf(o.reason)); }
    case Speak(e) => SpeakKeeps(r, e);
    case _ =>
  }

  lemma RunKeeps(ops: seq<Op>)
    ensures Invariant(Execute(Step, EMPTY, ops))
  {
    forall r, op | Invariant(r) ensures Invariant(Step(r, op)) { StepKeeps(r, op); }
    Invariance(Step, Invariant, EMPTY, ops);
  }

  /** In every reachable state a room has at most one active run and a trigger at most one run, and a switched-off
      agent has none. */
  lemma {:induction false} AtMostOneRun(ops: seq<Op>)
    ensures var r := Execute(Step, EMPTY, ops); OneActive(r) && OnePerTrigger(r) && DisabledIsIdle(r)
  {
    RunKeeps(ops);
  }

  /** In every reachable state a run is completed exactly when exactly one room event carries its job as cause, and a
      run in any other state has said nothing. */
  lemma {:induction false} CompletedExactlyWhenSpoken(ops: seq<Op>, id: RunId)
    ensures var r := Execute(Step, EMPTY, ops);
            id < |r.runs| ==>
              && (r.runs[id].state.Completed? <==> Utterances(r.events, id) == 1)
              && (!r.runs[id].state.Completed? ==> !Spoken(r.events, id))
  {
    RunKeeps(ops);
    SpokenCounts(Execute(Step, EMPTY, ops).events, id);
  }

  ghost predicate EndedAs(r: Room, id: RunId, run: Run) {
    id < |r.runs| && r.runs[id] == run && !IsActive(run.state)
  }

  lemma EndedStays(r: Room, op: Op, id: RunId, run: Run)
    requires EndedAs(r, id, run)
    ensures EndedAs(Step(r, op), id, run)
  {
    ActiveRunIsActive(r.runs);
  }

  /** Terminal states are never left: not by a late completion, a second cancel, or a stale sweep. */
  lemma {:induction false} TerminalForever(r: Room, ops: seq<Op>, id: RunId)
    requires id < |r.runs| && !IsActive(r.runs[id].state)
    ensures EndedAs(Execute(Step, r, ops), id, r.runs[id])
  {
    var run := r.runs[id];
    forall t, op | EndedAs(t, id, run) ensures EndedAs(Step(t, op), id, run) { EndedStays(t, op, id, run); }
    Invariance(Step, t => EndedAs(t, id, run), r, ops);
  }

  /** A cancelled or failed run never speaks, whatever its worker still does. */
  lemma {:induction false} SilencedForever(ops: seq<Op>, more: seq<Op>, id: RunId)
    requires var r := Execute(Step, EMPTY, ops); id < |r.runs| && (r.runs[id].state.Cancelled? || r.runs[id].state.Failed?)
    ensures !Spoken(Execute(Step, Execute(Step, EMPTY, ops), more).events, id)
  {
    RunKeeps(ops);
    var r := Execute(Step, EMPTY, ops);
    forall t, op | Invariant(t) ensures Invariant(Step(t, op)) { StepKeeps(t, op); }
    Invariance(Step, Invariant, r, more);
    TerminalForever(r, more, id);
    SpokenCounts(Execute(Step, r, more).events, id);
  }

  /** Switching the agent off leaves no active run, because there is at most one to cancel. */
  lemma {:induction false} DisableSilences(ops: seq<Op>)
    ensures var r := Execute(Step, EMPTY, ops);
            !r.deleting ==> var off := Step(r, SetEnabled(false)); !off.enabled && ActiveRun(off.runs).None?
  {
    RunKeeps(ops);
    var r := Execute(Step, EMPTY, ops);
    DisableKeeps(r);
    ActiveRunIsActive(Step(r, SetEnabled(false)).runs);
  }

  /** A run whose job ever had a business receipt is completed; so a run that can still be cancelled has none, and
      cancelling it takes no job away whose work has committed. */
  lemma {:induction false} ReceiptMeansCompleted(ops: seq<Op>, id: RunId)
    ensures var r := Execute(Step, EMPTY, ops);
            && (id in r.committed ==> id < |r.runs| && r.runs[id].state.Completed?)
            && (CancelRequested(r, id).Ok? ==> id !in r.committed)
            && (EnabledSet(r, false).Ok? && EnabledSet(r, false).value.0 == Some(id) ==> id !in r.committed)
  {
    RunKeeps(ops);
    ActiveRunIsActive(Execute(Step, EMPTY, ops).runs);
  }

  /** An active run that can no longer finish: the room closed, or its job is missing, dead or cancelled. */
  predicate Abandoned(r: Room, id: RunId)
    requires id < |r.runs|
  {
    IsActive(r.runs[id].state) && (r.status.Closed? || id >= |r.jobs| || r.jobs[id].JobDead? || r.jobs[id].JobCancelled?)
  }

  lemma {:induction false} OrphansAre(r: Room, n: nat)
    requires n <= |r.runs|
    ensures forall i :: 0 <= i < |Orphans(r, n)| ==>
      Orphans(r, n)[i].run < n && Abandoned(r, Orphans(r, n)[i].run) && i == |Orphans(r, Orphans(r, n)[i].run)|
  {
    if n > 0 { OrphansAre(r, n - 1); }
  }

  lemma AbandonedPlace(r: Room, id: RunId)
    requires id < |r.runs| && Abandoned(r, id)
    ensures var place := |Orphans(r, id)|; |Orphans(r, |r.runs|)| > place && Orphans(r, |r.runs|)[place].run == id
  {
    assert |Orphans(r, id + 1)| == |Orphans(r, id)| + 1 && Orphans(r, id + 1)[|Orphans(r, id)|].run == id;
    OrphansPrefix(r, id + 1, |r.runs|);
  }

  /** The sweep selects exactly the active runs that can no longer finish and have fewer than a batch of older ones. */
  lemma {:induction false} OrphansExactly(r: Room, batch: nat, id: RunId)
    ensures (exists reason :: Orphan(id, reason) in Selected(r, batch))
            <==> id < |r.runs| && Abandoned(r, id) && |Orphans(r, id)| < batch
  {
    var all, some := Orphans(r, |r.runs|), Selected(r, batch);
    OrphansAre(r, |r.runs|);
    if reason :| Orphan(id, reason) in some {
      var i :| 0 <= i < |some| && some[i] == Orphan(id, reason);
      assert all[i] == Orphan(id, reason);
    }
    if id < |r.runs| && Abandoned(r, id) && |Orphans(r, id)| < batch {
      AbandonedPlace(r, id);
      var o := all[|Orphans(r, id)|];
      assert some[|Orphans(r, id)|] == o == Orphan(id, o.reason);
    }
  }

  /** A sweep whose selection is still true leaves the room free for a new run. */
  lemma SettleFrees(r: Room, o: Orphan)
    requires Invariant(r) && ActiveRun(r.runs) == Some(o.run)
    ensures ActiveRun(Settled(r, o).1.runs).None?
  {
    ActiveRunIsActive(r.runs);
    ActiveRunIsActive(Settled(r, o).1.runs);
  }
}
