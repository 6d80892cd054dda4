/** Deleting a room: eight surfaces, verified in dependency order, and one final receipt. */
module Lifecycle {
  import opened Domain

  datatype Surface = Events | Media | Derivatives | Artifacts | Projections | AgentRuns | Caches | ProviderCopies

  const DELETE_ORDER := [ProviderCopies, Media, Derivatives, Artifacts, Projections, AgentRuns, Caches, Surface.Events]

  /** sorted(SURFACES), as the receipt lists them. */
  const SORTED_SURFACES := [AgentRuns, Artifacts, Caches, Derivatives, Surface.Events, Media, Projections, ProviderCopies]

  /** How many rows of each table a room has. */
  datatype Rows = Rows(
    events: nat, media: nat, derivatives: nat, localTexts: nat, providerTexts: nat, extractions: nat, reviews: nat,
    snapshots: nat, patches: nat, outbox: nat, heads: nat, promotions: nat, agentRuns: nat)

  /** _surface_count. A medium, an agent run or a provider's text is evidence of a copy outside. */
  function Count(surface: Surface, r: Rows): nat {
    match surface
    case Events => r.events
    case Media => r.media
    case Derivatives => r.derivatives
    case Artifacts => r.localTexts + r.providerTexts + r.extractions + r.reviews
    case Projections => r.snapshots + r.patches + r.outbox + r.heads + r.promotions
    case AgentRuns => r.agentRuns
    case Caches => 0
    case ProviderCopies => r.media + r.agentRuns + r.providerTexts
  }

  /** _delete_surface. Media belong to another service, events go with the room. */
  function DeleteRows(surface: Surface, r: Rows): Rows {
    match surface
    case Derivatives => r.(derivatives := 0)
    case Artifacts => r.(localTexts := 0, providerTexts := 0, extractions := 0, reviews := 0)
    case Projections => r.(snapshots := 0, patches := 0, outbox := 0, heads := 0, promotions := 0)
    case AgentRuns => r.(agentRuns := 0)
    case _ => r
  }

  datatype ManifestStatus = Frozen | Working | Verified | Buried

  datatype Manifest = Manifest(expected: nat, status: ManifestStatus)

  datatype SagaStatus = Queued | Running | Retryable | Completed | Dead

  datatype Saga = Saga(
    status: SagaStatus, roomPresent: bool, rows: Rows, manifests: map<Surface, Manifest>, receipt: Option<seq<Surface>>)

  datatype SagaError =
    | ClaimStale | CompletionConflict
    | ManifestMissing | JobNotActive | SurfaceNotActive | ReceiptInvalid | MediaRejected            // terminal
    | RoomReferenceMissing | DependencyPending | MediaPending | ProviderCopiesPending
    | CountChanged | SurfaceNotEmpty                                                               // retryable

  /** Whether the attempt's claim still holds, at its first check and when the receipt is written. */
  datatype ClaimCheck = Held | LostBefore | LostAtCompletion | OtherReceipt

  /** The media service's answer, and whether it marked the surface verified in its own transaction. */
  datatype MediaReply = MediaReply(marks: bool, answer: MediaAnswer)

  datatype MediaAnswer = Done | NotYet | Refused | Stale

  predicate IsVerified(s: Saga, surface: Surface) {
    surface in s.manifests && s.manifests[surface].status.Verified?
  }

  predicate AllVerified(s: Saga) { forall surface: Surface :: IsVerified(s, surface) }

  /** The surfaces before this one in the order. */
  function Prior(surface: Surface): seq<Surface> {
    match surface
    case ProviderCopies => DELETE_ORDER[..0]
    case Media => DELETE_ORDER[..1]
    case Derivatives => DELETE_ORDER[..2]
    case Artifacts => DELETE_ORDER[..3]
    case Projections => DELETE_ORDER[..4]
    case AgentRuns => DELETE_ORDER[..5]
    case Caches => DELETE_ORDER[..6]
    case Events => DELETE_ORDER[..7]
  }

  predicate PriorVerified(s: Saga, surface: Surface) {
    forall i :: 0 <= i < |Prior(surface)| ==> IsVerified(s, Prior(surface)[i])
  }

  /** _valid_receipt: as many entries as surfaces, and every surface among them. */
  predicate ValidReceipt(receipt: Option<seq<Surface>>) {
    receipt.Some? && |receipt.value| == 8 && forall surface: Surface :: surface in receipt.value
  }

  function Marked(s: Saga, surface: Surface): Saga
    requires surface in s.manifests
  {
    s.(manifests := s.manifests[surface := s.manifests[surface].(status := Verified)])
  }

  /** complete_business at the end of the transaction. */
  function Complete(s: Saga, claim: ClaimCheck): Result<Saga, SagaError> {
    match claim
    case Held => Ok(s)
    case OtherReceipt => Err(CompletionConflict)
    case _ => Err(ClaimStale)
  }

  /** A surface whose rows are gone, or are now deleted, is verified; the last one takes the room with it. */
  function Verify(s: Saga, surface: Surface, claim: ClaimCheck): Result<Saga, SagaError>
    requires surface in s.manifests
  {
    var count, expected := Count(surface, s.rows), s.manifests[surface].expected;
    if surface.ProviderCopies? && (expected > 0 || count > 0) then Err(ProviderCopiesPending)
    else if !surface.ProviderCopies? && count != expected then Err(CountChanged)
    else if surface.Events? then
      var done := Marked(s, surface);
      if !AllVerified(done) then Err(DependencyPending)
      else
        var receipt := if s.receipt.Some? then s.receipt else Some(SORTED_SURFACES);
        if !ValidReceipt(receipt) then Err(ReceiptInvalid)
        else Complete(done.(receipt := receipt, status := Completed, roomPresent := false), claim)
    else
      var rows := if expected > 0 && count > 0 then DeleteRows(surface, s.rows) else s.rows;
      if Count(surface, rows) != 0 then Err(SurfaceNotEmpty)
      else Complete(Marked(s.(rows := rows), surface), claim)
  }

  /** The media surface is verified by its own service, through a call; `after` is what that service left. */
  function ThroughMedia(after: Saga, reply: MediaReply, claim: ClaimCheck): Result<Saga, SagaError> {
    match reply.answer
    case NotYet => Err(MediaPending)
    case Refused => Err(MediaRejected)
    case Stale => Err(ClaimStale)
    case Done => if !IsVerified(after, Media) then Err(MediaPending) else Complete(after, claim)
  }

  predicate CallsMedia(s: Saga, surface: Surface) {
    surface.Media? && Media in s.manifests && (s.manifests[Media].expected > 0 || Count(Media, s.rows) > 0)
  }

  function Activated(s: Saga): Saga {
    if s.status.Queued? || s.status.Retryable? then s.(status := Running) else s
  }

  /** Whether the handler gets as far as counting the surface's rows. */
  predicate Reached(s: Saga, surface: Surface, claim: ClaimCheck) {
    && !claim.LostBefore? && surface in s.manifests && !s.status.Dead? && !s.status.Completed?
    && !s.manifests[surface].status.Buried? && !s.manifests[surface].status.Verified? && s.roomPresent
    && PriorVerified(s, surface)
  }

  /** What the media service commits on its own, whatever becomes of the worker's transaction. */
  function MediaEffect(s: Saga, surface: Surface, claim: ClaimCheck, reply: MediaReply): Saga {
    if Reached(s, surface, claim) && CallsMedia(s, surface) && reply.marks then Marked(s, Media) else s
  }

  /** An attempt on a deletion that is neither completed nor dead. */
  function HandledActive(s: Saga, surface: Surface, claim: ClaimCheck, reply: MediaReply): Result<Saga, SagaError>
    requires surface in s.manifests
  {
    if s.manifests[surface].status.Buried? then Err(SurfaceNotActive)
    else if s.manifests[surface].status.Verified? then Complete(s, claim)
    else if !s.roomPresent then Err(RoomReferenceMissing)
    else if !PriorVerified(s, surface) then Err(DependencyPending)
    else if CallsMedia(s, surface) then ThroughMedia(if reply.marks then Marked(s, Media) else s, reply, claim)
    else Verify(s, surface, claim)
  }

  /** delete_surface_handler. */
  function Handled(s: Saga, surface: Surface, claim: ClaimCheck, reply: MediaReply): Result<Saga, SagaError> {
    if claim.LostBefore? then Err(ClaimStale)
    else if surface !in s.manifests then Err(ManifestMissing)
    else if s.status.Dead? then Err(JobNotActive)
    else if s.status.Completed? then
      if !ValidReceipt(s.receipt) || !AllVerified(s) then Err(ReceiptInvalid) else Complete(s, claim)
    else HandledActive(Activated(s), surface, claim, reply)
  }

  /** _sync_lifecycle_status: a failed attempt's effect on the parent, which never leaves completed or dead. */
  function Synced(s: Saga, dead: bool): Saga {
    if s.status.Completed? || s.status.Dead? then s else s.(status := if dead then Dead else Retryable)
  }

  /** freeze_deletion_surfaces. */
  function Freeze(rows: Rows): Saga {
    Saga(Queued, true, rows, map surface: Surface | surface in DELETE_ORDER :: Manifest(Count(surface, rows), Frozen), None)
  }

  datatype Op =
    | Attempt(surface: Surface, claim: ClaimCheck, reply: MediaReply)
    | Failed(dead: bool)        // a failed, exhausted or dead surface job
    | Written(rows: Rows)       // any other writer, while the room exists

  function Step(s: Saga, op: Op): Saga {
    match op
    case Attempt(surface, claim, reply) =>
      (match Handled(s, surface, claim, reply) case Ok(s') => s' case Err(_) => MediaEffect(s, surface, claim, reply))
    case Failed(dead) => Synced(s, dead)
    case Written(rows) => if s.roomPresent then s.(rows := rows) else s
  }

  // ----- the handler, statement by statement -----

  class DeletionJob {
    var status: SagaStatus
    var roomPresent: bool
    var rows: Rows
    var manifests: map<Surface, Manifest>
    var receipt: Option<seq<Surface>>

    ghost function Contents(): Saga reads this { Saga(status, roomPresent, rows, manifests, receipt) }

    constructor (rows: Rows)
      ensures Contents() == Freeze(rows)
    {
      status, roomPresent, this.rows, receipt := Queued, true, rows, None;
      manifests := map surface: Surface | surface in DELETE_ORDER :: Manifest(Count(surface, rows), Frozen);
    }

    method Restore(s: SagaStatus, room: bool, r: Rows, m: map<Surface, Manifest>, receipt: Option<seq<Surface>>)
      modifies this
      ensures Contents() == Saga(s, room, r, m, receipt)
    {
      status, roomPresent, rows, manifests, this.receipt := s, room, r, m, receipt;
    }

    /** One attempt. An error rolls the worker's transaction back; what the media service did stays. */
    method HandleSurface(surface: Surface, claim: ClaimCheck, reply: MediaReply) returns (error: Option<SagaError>)
      modifies this
      ensures match Handled(old(Contents()), surface, claim, reply)
              case Ok(s) => error == None && Contents() == s
              case Err(e) => error == Some(e) && Contents() == MediaEffect(old(Contents()), surface, claim, reply)
    {
      var s0, room0, rows0, manifests0, receipt0 := status, roomPresent, rows, manifests, receipt;
      var marks := Reached(Saga(status, roomPresent, rows, manifests, receipt), surface, claim)
                   && CallsMedia(Saga(status, roomPresent, rows, manifests, receipt), surface) && reply.marks;
      error := Transact(surface, claim, reply);
      if error.Some? {
        if marks { manifests0 := manifests0[Media := manifests0[Media].(status := Verified)]; }
        Restore(s0, room0, rows0, manifests0, receipt0);
      }
    }

    method Transact(surface: Surface, claim: ClaimCheck, reply: MediaReply) returns (error: Option<SagaError>)
      modifies this
      ensures match Handled(old(Contents()), surface, claim, reply)
              case Ok(s) => error == None && Contents() == s
              case Err(e) => error == Some(e)
    {
      if claim.LostBefore? { return Some(ClaimStale); }
      if surface !in manifests { return Some(ManifestMissing); }
      if status.Dead? { return Some(JobNotActive); }
      if status.Completed? {
        if !ValidReceipt(receipt) || !AllVerified(Saga(status, roomPresent, rows, manifests, receipt)) { return Some(ReceiptInvalid); }
        return CompletionError(claim);
      }
      if status.Queued? || status.Retryable? { status := Running; }
      error := TransactActive(surface, claim, reply);
    }

    method TransactActive(surface: Surface, claim: ClaimCheck, reply: MediaReply) returns (error: Option<SagaError>)
      requires surface in manifests
      modifies this
      ensures match HandledActive(old(Contents()), surface, claim, reply)
              case Ok(s) => error == None && Contents() == s
              case Err(e) => error == Some(e)
    {
      if manifests[surface].status.Buried? { return Some(SurfaceNotActive); }
      if manifests[surface].status.Verified? { return CompletionError(claim); }
      if !roomPresent { return Some(RoomReferenceMissing); }
      var ready := DependenciesVerified(surface);
      if !ready { return Some(DependencyPending); }
      if surface.Media? && (manifests[surface].expected > 0 || Count(surface, rows) > 0) {
        error := AskMedia(claim, reply);
        return;
      }
      error := VerifySurface(surface, claim);
    }

    method DependenciesVerified(surface: Surface) returns (ok: bool)
      ensures ok == PriorVerified(Contents(), surface)
    {
      var i := 0;
      while i < |Prior(surface)|
        invariant 0 <= i <= |Prior(surface)|
        invariant forall k :: 0 <= k < i ==> IsVerified(Contents(), Prior(surface)[k])
      {
        var prior := Prior(surface)[i];
        if prior !in manifests || !manifests[prior].status.Verified? { return false; }
        i := i + 1;
      }
      return true;
    }

    method AskMedia(claim: ClaimCheck, reply: MediaReply) returns (error: Option<SagaError>)
      requires Media in manifests
      modifies this`manifests
      ensures var after := if reply.marks then Marked(old(Contents()), Media) else old(Contents());
              match ThroughMedia(after, reply, claim)
              case Ok(s) => error == None && Contents() == s
              case Err(e) => error == Some(e)
    {
      if reply.marks { manifests := manifests[Media := manifests[Media].(status := Verified)]; }
      match reply.answer {
        case NotYet => return Some(MediaPending);
        case Refused => return Some(MediaRejected);
        case Stale => return Some(ClaimStale);
        case Done =>
      }
      if !manifests[Media].status.Verified? { return Some(MediaPending); }
      return CompletionError(claim);
    }

    method VerifySurface(surface: Surface, claim: ClaimCheck) returns (error: Option<SagaError>)
      requires surface in manifests
      modifies this
      ensures match Verify(old(Contents()), surface, claim)
              case Ok(s) => error == None && Contents() == s
              case Err(e) => error == Some(e)
    {
      var count, expected := Count(surface, rows), manifests[surface].expected;
      if surface.ProviderCopies? {
        if expected > 0 || count > 0 { return Some(ProviderCopiesPending); }
      } else if count != expected {
        return Some(CountChanged);
      }
      if !surface.Events? {
        if expected > 0 && count > 0 {
          rows := DeleteRows(surface, rows);
          count := Count(surface, rows);
        }
        if count != 0 { return Some(SurfaceNotEmpty); }
      }
      manifests := manifests[surface := manifests[surface].(status := Verified)];
      if surface.Events? {
        if !AllVerified(Saga(status, roomPresent, rows, manifests, receipt)) { return Some(DependencyPending); }
        if receipt.None? { receipt := Some(SORTED_SURFACES); }
        if !ValidReceipt(receipt) { return Some(ReceiptInvalid); }
        status, roomPresent := Completed, false;
      }
      return CompletionError(claim);
    }
  }

  function CompletionError(claim: ClaimCheck): Option<SagaError> {
    match claim case Held => None case OtherReceipt => Some(CompletionConflict) case _ => Some(ClaimStale)
  }
}
