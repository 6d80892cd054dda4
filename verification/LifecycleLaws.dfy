/** What every run of a deletion keeps, and when it can finish. */
module LifecycleLaws {
  import opened Domain
  import opened Lifecycle
  import opened Runs

  /** The place of a surface in the order. */
  function Position(surface: Surface): nat {
    match surface
    case ProviderCopies => 0 case Media => 1 case Derivatives => 2 case Artifacts => 3
    case Projections => 4 case AgentRuns => 5 case Caches => 6 case Events => 7
  }

  /** The verified surfaces are the first n of the order. */
  ghost predicate VerifiedPrefix(s: Saga, n: nat) {
    n <= 8 && forall surface: Surface :: IsVerified(s, surface) <==> Position(surface) < n
  }

  ghost predicate HasPrefix(s: Saga) { exists n: nat :: VerifiedPrefix(s, n) }

  /** Completion, the receipt, the room's end and the last verified surface come together. */
  ghost predicate CompletedTogether(s: Saga) {
    && (s.status.Completed? <==> IsVerified(s, Surface.Events))
    && (s.status.Completed? <==> s.receipt.Some?)
    && (s.status.Completed? <==> !s.roomPresent)
    && (s.receipt.Some? ==> s.receipt.value == SORTED_SURFACES)
    && forall surface: Surface :: surface in s.manifests
  }

  lemma PositionOf(surface: Surface)
    ensures Position(surface) < 8 && DELETE_ORDER[Position(surface)] == surface && Prior(surface) == DELETE_ORDER[..Position(surface)]
  {
  }

  lemma InOrder(i: nat)
    requires i < 8
    ensures Position(DELETE_ORDER[i]) == i
  {
  }

  lemma PriorMeans(s: Saga, surface: Surface)
    ensures PriorVerified(s, surface) <==> forall other: Surface :: Position(other) < Position(surface) ==> IsVerified(s, other)
  {
    PositionOf(surface);
    if PriorVerified(s, surface) {
      forall other: Surface | Position(other) < Position(surface) ensures IsVerified(s, other) {
        PositionOf(other);
        assert Prior(surface)[Position(other)] == other;
      }
    }
    if forall other: Surface :: Position(other) < Position(surface) ==> IsVerified(s, other) {
      forall i | 0 <= i < |Prior(surface)| ensures IsVerified(s, Prior(surface)[i]) {
        InOrder(i);
      }
    }
  }

  /** Verifying a surface whose predecessors are verified extends the prefix by that surface, or changes nothing. */
  lemma MarkExtends(s: Saga, n: nat, surface: Surface, t: Saga)
    requires VerifiedPrefix(s, n) && PriorVerified(s, surface) && surface in s.manifests
    requires t.manifests == Marked(s, surface).manifests
    ensures VerifiedPrefix(t, if IsVerified(s, surface) then n else n + 1)
    ensures !IsVerified(s, surface) ==> n < 8 && DELETE_ORDER[n] == surface
  {
    PositionOf(surface);
    PriorMeans(s, surface);
    if !IsVerified(s, surface) {
      InOrder(n);
      assert Position(surface) == n by {
        assert !IsVerified(s, DELETE_ORDER[n]);
      }
      forall other: Surface ensures IsVerified(t, other) <==> Position(other) < n + 1 {
        PositionOf(other);
      }
    }
  }

  /** What one operation can do to the manifests: nothing, or verify one surface after its predecessors. */
  ghost predicate VerifiesOne(s: Saga, t: Saga, surface: Surface) {
    t.manifests == s.manifests || (surface in s.manifests && PriorVerified(s, surface) && t.manifests == Marked(s, surface).manifests)
  }

  lemma HandledVerifies(s: Saga, surface: Surface, claim: ClaimCheck, reply: MediaReply)
    ensures VerifiesOne(s, MediaEffect(s, surface, claim, reply), surface)
    ensures Handled(s, surface, claim, reply).Ok? ==> VerifiesOne(s, Handled(s, surface, claim, reply).value, surface)
  {
  }

  lemma PrefixKept(s: Saga, op: Op)
    requires HasPrefix(s)
    ensures HasPrefix(Step(s, op))
  {
    var n: nat :| VerifiedPrefix(s, n);
    var t := Step(s, op);
    if op.Attempt? {
      HandledVerifies(s, op.surface, op.claim, op.reply);
      if t.manifests == s.manifests {
        assert VerifiedPrefix(t, n);
      } else {
        MarkExtends(s, n, op.surface, t);
        assert VerifiedPrefix(t, if IsVerified(s, op.surface) then n else n + 1);
      }
    } else {
      assert VerifiedPrefix(t, n);
    }
  }

  lemma AllFollowsLast(s: Saga, n: nat)
    requires VerifiedPrefix(s, n)
    ensures IsVerified(s, Surface.Events) <==> n == 8
    ensures AllVerified(s) <==> n == 8
  {
    assert Position(Surface.Events) == 7;
    if n == 8 {
      forall surface: Surface ensures IsVerified(s, surface) { PositionOf(surface); }
    }
  }

  /** The handler completes a saga exactly when it verifies the last surface, and then it leaves a full receipt. */
  lemma CompletionKept(s: Saga, op: Op)
    requires CompletedTogether(s)
    ensures CompletedTogether(Step(s, op))
  {
  }

  lemma TerminalStays(s: Saga, op: Op)
    ensures s.status.Completed? ==> Step(s, op).status.Completed? && Step(s, op).receipt == s.receipt && Step(s, op).manifests == s.manifests
    ensures s.status.Dead? ==> Step(s, op).status.Dead? && Step(s, op).receipt == s.receipt && Step(s, op).manifests == s.manifests
  {
  }

  ghost predicate Invariant(s: Saga) { HasPrefix(s) && CompletedTogether(s) }

  lemma FrozenInvariant(rows: Rows)
    ensures Invariant(Freeze(rows)) && VerifiedPrefix(Freeze(rows), 0)
  {
    forall surface: Surface ensures surface in Freeze(rows).manifests { PositionOf(surface); }
    assert VerifiedPrefix(Freeze(rows), 0);
  }

  lemma RunKeeps(rows: Rows, ops: seq<Op>)
    ensures Invariant(Execute(Step, Freeze(rows), ops))
  {
    FrozenInvariant(rows);
    forall s, op | Invariant(s) ensures Invariant(Step(s, op)) {
      PrefixKept(s, op);
      CompletionKept(s, op);
    }
    Invariance(Step, Invariant, Freeze(rows), ops);
  }

  /** In every run the verified surfaces form a prefix of the order, and a receipt exists exactly when the deletion is
      completed, which is exactly when all eight surfaces are verified. */
  lemma {:induction false} ReceiptMeansAll(rows: Rows, ops: seq<Op>)
    ensures var s := Execute(Step, Freeze(rows), ops);
            && HasPrefix(s)
            && (s.receipt.Some? <==> s.status.Completed?)
            && (s.status.Completed? <==> AllVerified(s))
            && (s.receipt.Some? ==> ValidReceipt(s.receipt))
  {
    RunKeeps(rows, ops);
    var s := Execute(Step, Freeze(rows), ops);
    var n: nat :| VerifiedPrefix(s, n);
    AllFollowsLast(s, n);
    ReceiptIsValid();
  }

  lemma ReceiptIsValid()
    ensures ValidReceipt(Some(SORTED_SURFACES))
  {
    forall surface: Surface ensures surface in SORTED_SURFACES {
      match surface
      case AgentRuns => assert SORTED_SURFACES[0] == surface;
      case Artifacts => assert SORTED_SURFACES[1] == surface;
      case Caches => assert SORTED_SURFACES[2] == surface;
      case Derivatives => assert SORTED_SURFACES[3] == surface;
      case Events => assert SORTED_SURFACES[4] == surface;
      case Media => assert SORTED_SURFACES[5] == surface;
      case Projections => assert SORTED_SURFACES[6] == surface;
      case ProviderCopies => assert SORTED_SURFACES[7] == surface;
    }
  }

  /** Completed and dead are never left. */
  lemma {:induction false} TerminalForever(s: Saga, ops: seq<Op>)
    ensures s.status.Completed? ==> Execute(Step, s, ops).status.Completed?
    ensures s.status.Dead? ==> Execute(Step, s, ops).status.Dead?
  {
    forall t: Saga, op ensures (t.status.Completed? ==> Step(t, op).status.Completed?) && (t.status.Dead? ==> Step(t, op).status.Dead?) {
      TerminalStays(t, op);
    }
    if s.status.Completed? { Invariance(Step, (t: Saga) => t.status.Completed?, s, ops); }
    if s.status.Dead? { Invariance(Step, (t: Saga) => t.status.Dead?, s, ops); }
  }

  // ----- when a deletion finishes -----

  /** An unfinished deletion that no other writer disturbs, of a room without provider copies, with n surfaces done. */
  ghost predicate Undisturbed(s: Saga, n: nat) {
    && VerifiedPrefix(s, n) && n < 8 && CompletedTogether(s) && !s.status.Dead?
    && Count(ProviderCopies, s.rows) == 0
    && (forall surface: Surface :: surface in s.manifests && !s.manifests[surface].status.Buried?)
    && (forall surface: Surface :: !IsVerified(s, surface) ==> s.manifests[surface].expected == Count(surface, s.rows))
  }

  lemma FrozenUndisturbed(rows: Rows)
    requires Count(ProviderCopies, rows) == 0
    ensures Undisturbed(Freeze(rows), 0)
  {
    FrozenInvariant(rows);
  }

  /** Deleting one surface leaves the other counts alone, and adds no provider copies. */
  lemma DeleteIsLocal(surface: Surface, other: Surface, r: Rows)
    requires !surface.Events? && !surface.Media? && !surface.ProviderCopies?
    requires Count(ProviderCopies, r) == 0
    ensures Count(surface, DeleteRows(surface, r)) == 0
    ensures other != surface ==> Count(other, DeleteRows(surface, r)) == Count(other, r)
  {
  }

  /** An attempt on the next surface under a held claim always verifies it; the eighth completes the deletion. */
  lemma {:induction false} InOrderAttemptAdvances(s: Saga, n: nat, reply: MediaReply)
    requires Undisturbed(s, n)
    ensures var t := Step(s, Attempt(DELETE_ORDER[n], Held, reply));
            && VerifiedPrefix(t, n + 1)
            && (n < 7 ==> Undisturbed(t, n + 1))
            && (n == 7 ==> t.status.Completed?)
  {
    var surface := DELETE_ORDER[n];
    InOrder(n);
    PriorMeans(s, surface);
    AllFollowsLast(s, n);
    assert Handled(s, surface, Held, reply) == Verify(Activated(s), surface, Held) by {
      assert !IsVerified(s, surface) && s.manifests[surface].expected == Count(surface, s.rows);
    }
    if n < 7 {
      VerifyAdvances(s, n, surface);
    } else {
      LastAdvances(s);
    }
  }

  lemma RowsAfter(s: Saga, n: nat, surface: Surface, rows: Rows)
    requires Undisturbed(s, n) && n < 7 && surface == DELETE_ORDER[n]
    requires rows == if Count(surface, s.rows) > 0 then DeleteRows(surface, s.rows) else s.rows
    ensures Count(surface, rows) == 0 && Count(ProviderCopies, rows) == 0
    ensures forall other: Surface :: Position(other) > n ==> Count(other, rows) == Count(other, s.rows)
  {
    InOrder(n);
    forall other: Surface | Position(other) > n ensures Count(other, rows) == Count(other, s.rows) {
      if Count(surface, s.rows) > 0 { DeleteIsLocal(surface, other, s.rows); }
    }
  }

  lemma VerifyAdvances(s: Saga, n: nat, surface: Surface)
    requires Undisturbed(s, n) && n < 7 && surface == DELETE_ORDER[n] && PriorVerified(s, surface)
    ensures Verify(Activated(s), surface, Held).Ok?
    ensures Undisturbed(Verify(Activated(s), surface, Held).value, n + 1)
  {
    InOrder(n);
    var rows := if Count(surface, s.rows) > 0 then DeleteRows(surface, s.rows) else s.rows;
    RowsAfter(s, n, surface, rows);
    assert s.manifests[surface].expected == Count(surface, s.rows) by { assert !IsVerified(s, surface); }
    var t := Marked(Activated(s).(rows := rows), surface);
    assert Verify(Activated(s), surface, Held) == Ok(t);
    MarkExtends(s, n, surface, t);
  }

  lemma LastAdvances(s: Saga)
    requires Undisturbed(s, 7)
    ensures Verify(Activated(s), Surface.Events, Held).Ok?
    ensures var t := Verify(Activated(s), Surface.Events, Held).value; t.status.Completed? && VerifiedPrefix(t, 8)
  {
    var active := Activated(s);
    PositionOf(Surface.Events);
    var done := Marked(active, Surface.Events);
    MarkExtends(active, 7, Surface.Events, done);
    AllFollowsLast(done, 8);
    ReceiptIsValid();
    assert VerifiedPrefix(Verify(active, Surface.Events, Held).value, 8);
  }

  function Sweep(n: nat, reply: MediaReply): seq<Op>
    requires n <= 8
  {
    if n == 0 then [] else Sweep(n - 1, reply) + [Attempt(DELETE_ORDER[n - 1], Held, reply)]
  }

  ghost predicate Swept(s: Saga, n: nat) { (n < 8 ==> Undisturbed(s, n)) && (n == 8 ==> s.status.Completed?) }

  lemma SweepSteps(n: nat, reply: MediaReply, op: Op)
    requires n < 8 && op == Attempt(DELETE_ORDER[n], Held, reply)
    ensures forall s :: Undisturbed(s, n) ==> Swept(Step(s, op), n + 1)
  {
    forall s | Undisturbed(s, n) ensures Swept(Step(s, op), n + 1) { InOrderAttemptAdvances(s, n, reply); }
  }

  lemma {:induction false} SweepAdvances(rows: Rows, n: nat, reply: MediaReply)
    requires Count(ProviderCopies, rows) == 0 && n <= 8
    ensures var s := Execute(Step, Freeze(rows), Sweep(n, reply));
            (n < 8 ==> Undisturbed(s, n)) && (n == 8 ==> s.status.Completed?)
  {
    if n == 0 {
      FrozenUndisturbed(rows);
    } else {
      SweepAdvances(rows, n - 1, reply);
      var op := Attempt(DELETE_ORDER[n - 1], Held, reply);
      SweepSteps(n - 1, reply, op);
      LastStage(Step, s => Undisturbed(s, n - 1), s => Swept(s, n), Freeze(rows), Sweep(n - 1, reply), op);
    }
  }

  /** Provider copies recorded at the freeze keep every surface unverified. */
  ghost predicate Blocked(s: Saga) {
    && ProviderCopies in s.manifests && s.manifests[ProviderCopies].expected > 0
    && forall surface: Surface :: !IsVerified(s, surface)
  }

  lemma BlockedStays(s: Saga, op: Op)
    requires Blocked(s) && CompletedTogether(s)
    ensures Blocked(Step(s, op))
  {
    if op.Attempt? {
      HandledVerifies(s, op.surface, op.claim, op.reply);
      PriorMeans(s, op.surface);
      assert !IsVerified(s, ProviderCopies) && Position(ProviderCopies) == 0;
      assert !op.surface.ProviderCopies? ==> Position(op.surface) > 0 && !PriorVerified(s, op.surface);
      assert Step(s, op).manifests == s.manifests;
    }
    forall surface: Surface ensures !IsVerified(Step(s, op), surface) {
      assert !IsVerified(s, surface);
    }
  }

  /** A deletion can be completed exactly when the room had no possible provider copy at the freeze. */
  lemma CompletableExactly(rows: Rows)
    ensures (exists ops :: Execute(Step, Freeze(rows), ops).status.Completed?) <==> Count(ProviderCopies, rows) == 0
  {
    if Count(ProviderCopies, rows) == 0 {
      var ops := Sweep(8, MediaReply(false, NotYet));
      SweepAdvances(rows, 8, MediaReply(false, NotYet));
      assert Execute(Step, Freeze(rows), ops).status.Completed?;
    } else {
      forall ops ensures !Execute(Step, Freeze(rows), ops).status.Completed? { NeverCompletes(rows, ops); }
    }
  }

  lemma {:induction false} NeverCompletes(rows: Rows, ops: seq<Op>)
    requires Count(ProviderCopies, rows) > 0
    ensures !Execute(Step, Freeze(rows), ops).status.Completed?
  {
    FrozenInvariant(rows);
    var stuck := (s: Saga) => Blocked(s) && CompletedTogether(s);
    forall s, op | stuck(s) ensures stuck(Step(s, op)) {
      BlockedStays(s, op);
      CompletionKept(s, op);
    }
    assert stuck(Freeze(rows)) by {
      forall surface: Surface ensures !IsVerified(Freeze(rows), surface) { PositionOf(surface); }
    }
    Invariance(Step, stuck, Freeze(rows), ops);
  }
}
