# Learning Orbit: a verified model of its stateful core

This Dafny project models the parts of Learning Orbit in which several steps, several processes or two languages have
to agree, and proves that they do:

* **Analytics pipeline.** A worker folds a room's event log into ECHO concept maps, replays the teacher's correction
  ledger over them, and stores each version as a snapshot plus a patch, with four projection heads and one checkpoint.
  The server serves the latest snapshot, a patch window or a timeline, and the browser applies the patches.
  (`EchoMap`, `EchoProjection`, `Corrections`, `LedgerLaws`, `ProjectionStore`, `Pipeline`, `PipelineLaws`, `RoomLaws`,
  `OnceLaws`, `CommitLaws`, `LateEvents`, `LateLaws`, `AnalyticsContract`, `AnalyticsReader`, `ReaderLaws`,
  `TimelineLaws`, `ConceptReducer`, `ClientLaws`)
* **Streaming projector.** Events arrive late, twice and out of order; the reference algorithms see them once, in room
  order. (`Projector`, `ProjectorLaws`)
* **Durable jobs.** Leases fenced by generation, token and worker, an ordering barrier, and business receipts; the
  queue alone, and the queue together with the tables its handlers write. (`JobQueue`, `JobLaws`, `RoomWorker`)
* **Room deletion.** Eight surfaces in dependency order, frozen counts and a final receipt. (`Lifecycle`,
  `LifecycleLaws`)
* **Agent runs.** Requests, cancellation, disabling, completion and a two-phase reconciler. (`AgentRuns`,
  `AgentRunLaws`)
* **Signed text.** Canonical JSON with its strict parser, UTF-8 and base64url. (`JsonText`, `CanonicalJson`, `Utf8`,
  `Base64Url`)
* **Room export.** The checks on a teacher's export. (`RoomExport`)

Objects that the source updates in place (the store, the handlers, the projector, the job store, the deletion, the
agent repository, the validator's walk) are classes; their methods follow the source statement by statement and are
proved equal to a specification function of the old state. The laws are lemmas about those functions. A run is any
finite sequence of operations with any arguments (`Runs.Execute`), so every interleaving is a run; a failed
transaction is a step that changes nothing.

`dafny verify dfyconfig.toml` checks the whole project.

## What the proofs found

The model follows the code in each of these cases, and the lemma named gives the exact condition or a concrete run.

* `replace_relation` does not merge duplicates: it can leave two edges with one identity, hence one wire id, which the
  snapshot contract then refuses. It keeps identities distinct if and only if no other relation already has the new one
  (`LedgerLaws.ReplaceRelationDistinct`, `LedgerLaws.ReplaceRelationCanRepeat`).
* A late event is named by the consume that meets it, and a replay is enqueued under a key derived from that event. The
  next consume rebuilds from the whole log, finds the same event late and names it again; it asks for the same key at a
  higher cursor and is refused with `REPLAY_AUTHORITY_CONFLICT`, with any build and after any replay. Exactly which next
  events commit: `CommitLaws.ConsumeCommits`, and over a growing log `LateLaws.NextCommits`. So a late event followed by
  anything but a correction that retracts evidence ends its room (`LateLaws.LateEventStops`); three messages, the second
  with a clock ten seconds behind, are enough (`LateLaws.LateEventRun`).
* Changing the worker build starts an epoch named after the build. Going back to a build that was rotated to before
  re-enters its epoch at version 1, which is already stored with other contents, so every consume under that build
  fails. Builds A, B, A, B are enough (`CommitLaws.RotationBlocks`, `CommitLaws.RotationBackBlocks`), on four plain chat
  messages already (`CommitLaws.RotationBackRun`).
* A deletion can be completed if and only if the room had no media, no agent run and no provider-made text at the
  moment of the freeze: a possible provider copy is counted then and never confirmed deleted, and no surface can be
  verified before it (`LifecycleLaws.CompletableExactly`).
* The worker's canonical JSON is documented as the server's closed subset, but the worker measures strings in code
  points and the server in UTF-16 code units. The server accepts exactly those of the worker's values whose strings
  also fit in code units (`CanonicalJson.ServerAcceptsExactly`, `CanonicalJson.EmojiAreRefused`).
* A job with a committed receipt is never retried or buried, but it can end up marked cancelled: if and only if a
  cancellation, by the deletion or closing of its room or by its own attempt, reaches it before it is marked succeeded
  (`JobLaws.CommittedNeverRetried`, `JobLaws.CommittedCancelledExactly`, with a run in `JobLaws.CommittedCanBeCancelled`).
  A job marked succeeded stays so (`JobLaws.SucceededForever`).
* A browser that applies the patches it is answered reaches the latest version if and only if there is nothing to apply
  or no version on its way waits for a replay; otherwise it is told to ask for one (`ClientLaws.BrowserCatchesUp`).
* A timeline with a base fails as corrupt, instead of answering, when that stored base snapshot breaks the snapshot
  contract; over graphs that are well formed this cannot happen (`TimelineLaws.TimelineAnswers`,
  `TimelineLaws.TimelineOverRuns`), and a correction ledger without colliding replacements leaves such graphs
  (`TimelineLaws.LedgerRuns`).

## Assumptions

Stored JSON documents are compared as values; a hash, a UUID derived from names and a signature are taken as
collision-free, so the values they are derived from stand for them. One transaction is one atomic step. Claiming picks
any claimable job; a token is an arbitrary number, so freshness of tokens is nowhere relied on, only the growing
generation. The concept graph, evidence index, approvals and TRACE bundle that the reference algorithms compute for a
version are arbitrary inputs (`Inputs`), and in the projector the algorithms are an arbitrary deterministic `Engine`.
Which event is named late is an arbitrary input too, except in `LateLaws`, where the log decides it.

## Model

| member | source | states |
|---|---|---|
| EchoMap.DiffReaches | services/worker/src/learning_orbit_worker/echo_adapter.py:124-142 | Applying the diff of two snapshots to the first, read as maps by id, gives the second. |
| EchoMap.DiffRowsReaches | services/worker/src/learning_orbit_worker/echo_adapter.py:125-132 | The same for any keyed rows: added, updated and hidden together lead from one map to the other. |
| EchoMap.DiffRowsTouchesOnce | services/worker/src/learning_orbit_worker/echo_adapter.py:125-132 | No identifier is in two of the three lists, nor twice in one. |
| EchoMap.DiffRowsEmpty | services/worker/src/learning_orbit_worker/echo_adapter.py:125-132 | The delta is empty exactly when the maps are equal. |
| EchoMap.ChangeScore | services/worker/src/learning_orbit_worker/echo_adapter.py:137-139 | The score lies in [0,1], is 0 exactly when nothing changed and 1 exactly when at least as much changed as there was before. |
| EchoMap.DiffScoreZero | services/worker/src/learning_orbit_worker/echo_adapter.py:137-139 | A diff's score lies in [0,1] and is 0 exactly when the two maps are equal. |
| EchoMap.DiffSatisfiesContract | packages/contracts/src/analytics.ts:108-126 | Every diff with consecutive versions passes the patch contract. |
| EchoMap.DiffSpansOk | packages/contracts/src/analytics.ts:53-74 | A diff of edges with non-empty spans shows only non-empty spans, in its edges and its evidence list. |
| EchoMap.SortRefs | services/worker/src/learning_orbit_worker/echo_adapter.py:133-141 | The evidence list has exactly the collected references, sorted by the key the worker sorts by. |
| EchoProjection.ProjectEchoSnapshot | services/worker/src/learning_orbit_worker/echo_adapter.py:81-121 | The two-pass construction with its growing endpoint set computes the specified pair of views, or its first error. |
| EchoProjection.ProjectRelations | services/worker/src/learning_orbit_worker/echo_adapter.py:88-108 | The pass over the relations yields the teacher edges, their approved student copies and exactly those copies' endpoints. |
| EchoProjection.ProjectConcepts | services/worker/src/learning_orbit_worker/echo_adapter.py:109-119 | The pass over the concepts yields the teacher nodes and the student nodes among them. |
| EchoProjection.WireEdgeIdInjective | services/worker/src/learning_orbit_worker/echo_adapter.py:44-48 | In one room two relations share a wire id only if head, predicate, tail and family agree. |
| EchoProjection.ResolveRefs | services/worker/src/learning_orbit_worker/echo_adapter.py:64-78 | Evidence resolves exactly when every key is indexed with an event and a non-empty span, and then to those entries in order. |
| EchoProjection.NormalizePosition | services/worker/src/learning_orbit_worker/echo_adapter.py:14-18 | A position is accepted exactly in [-1,1] and lands in [0,1]. |
| EchoProjection.NodeStatusMeans | services/worker/src/learning_orbit_worker/echo_adapter.py:21-31 | Each status is characterised by whether some incident relation weighs in support and whether some weighs in challenge. |
| EchoProjection.ActivityIsMaximum | services/worker/src/learning_orbit_worker/echo_adapter.py:95-98 | The activity score is one of the four channels and at least each of them. |
| EchoProjection.ProjectedWithinBounds | packages/contracts/src/analytics.ts:53-74 | In every view that is produced, spans are non-empty and positions lie in the unit square. |
| EchoProjection.TeacherViewContract | packages/contracts/src/analytics.ts:76-106 | The teacher view passes the contract exactly when the graph is well formed and no relation identity repeats. |
| EchoProjection.StudentViewContract | packages/contracts/src/analytics.ts:76-106 | The student view is the approved subgraph closed under endpoints, shows no evidence, and passes the contract whenever the teacher view does. |
| EchoProjection.AssertEchoSnapshotSemantics | packages/contracts/src/analytics.ts:76-106 | The check accepts exactly the snapshots with a consistent envelope, distinct ids, present endpoints and, for students, approved rows. |
| EchoProjection.CheckNodes | packages/contracts/src/analytics.ts:90-97 | The node loop accepts exactly distinct ids (and approved rows for students), and its set has exactly the ids present. |
| EchoProjection.CheckEdges | packages/contracts/src/analytics.ts:98-105 | The edge loop accepts exactly distinct ids with both endpoints present (and approved rows for students). |
| Corrections.MergeDuplicateEdges | services/worker/src/learning_orbit_worker/analytics_handlers.py:691-710 | The insertion-ordered dictionary loop computes the specified merge. |
| Corrections.ApplyProjectionCorrections | services/worker/src/learning_orbit_worker/analytics_handlers.py:737-843 | The ledger loop over the mutable graph computes the specified ledger, including which error it stops at. |
| LedgerLaws.MergeConservesChannels | services/worker/src/learning_orbit_worker/analytics_handlers.py:691-710 | Merging duplicates conserves every channel's total over all edges. |
| LedgerLaws.MergeContents | services/worker/src/learning_orbit_worker/analytics_handlers.py:691-710 | Merging leaves pairwise distinct identities, exactly the identities and exactly the evidence keys there were. |
| LedgerLaws.MergeAliasEffect | services/worker/src/learning_orbit_worker/analytics_handlers.py:790-802 | `merge_alias` removes exactly the alias node and every mention of it, leaves distinct identities, and conserves channel totals and the union of evidence. |
| LedgerLaws.SplitAliasEffect | services/worker/src/learning_orbit_worker/analytics_handlers.py:803-818 | `split_alias` puts a node with the new id and caption in place of the alias and redirects every edge end; the new node keeps the alias's other fields, every other node and every other field of every edge stays. |
| LedgerLaws.ReplaceSpanEffect | services/worker/src/learning_orbit_worker/analytics_handlers.py:771-782 | `replace_span` turns exactly the first citation of the target on the first edge with that wire id into a key of its own, which stands for the new span; all else on that edge, every other edge, the nodes and every other index entry stay. |
| LedgerLaws.RetractEvidenceEffect | services/worker/src/learning_orbit_worker/analytics_handlers.py:827-842 | Retracting evidence or derived text: no edge cites the event any more, and every edge with other evidence survives with exactly that evidence, unchanged otherwise; nodes and index stay. |
| LedgerLaws.RetractProjectionEffect | services/worker/src/learning_orbit_worker/analytics_handlers.py:827-842 | Retracting a relation removes exactly the edges with its wire id, and no node. |
| LedgerLaws.CorrectionKeepsSound | services/worker/src/learning_orbit_worker/analytics_handlers.py:764-843 | Every accepted correction keeps node ids distinct, endpoints present, evidence resolvable and numbers in range, given the contract's rules for commands. |
| LedgerLaws.LedgerKeepsSound | packages/contracts/src/analytics.ts:275-295 | Every accepted ledger, of any length, leaves a sound graph of which both views exist. |
| LedgerLaws.SoundProjects | services/worker/src/learning_orbit_worker/echo_adapter.py:81-121 | Projecting a sound graph never raises, whatever is approved. |
| LedgerLaws.UndoErasesMerge | services/worker/src/learning_orbit_worker/analytics_handlers.py:752-770 | A ledger with a merge and a later undo of it gives the same result, graph, index or error, as the ledger without both, whatever surrounds them. |
| LedgerLaws.ReplaceRelationDistinct | services/worker/src/learning_orbit_worker/analytics_handlers.py:783-789 | `replace_relation` keeps identities distinct if and only if no other relation has the new identity. |
| LedgerLaws.ReplaceRelationCanRepeat | services/worker/src/learning_orbit_worker/analytics_handlers.py:783-789 | A sound graph and a valid command after which two relations share an identity. |
| LedgerLaws.CorrectionKeepsDistinct | services/worker/src/learning_orbit_worker/analytics_handlers.py:764-843 | Over a sound graph without repeated identities an accepted command leaves one if and only if it is not a `replace_relation` whose new identity another relation has. |
| LedgerLaws.LedgerKeepsDistinct | services/worker/src/learning_orbit_worker/analytics_handlers.py:737-843 | An accepted ledger of any length, none of whose replacements collides with the graph it meets, leaves a sound graph without repeated identities. |
| ProjectionStore.PatchRoundTrip | services/worker/src/learning_orbit_worker/projection_store.py:236-248 | Nothing is lost when a patch is compacted into a row and read back. |
| ProjectionStore.Store.constructor | services/worker/src/learning_orbit_worker/projection_store.py:339-343 | A room starts without rows and at checkpoint 0. |
| ProjectionStore.Store.EnsureHead | services/worker/src/learning_orbit_worker/projection_store.py:345-357 | Returns the head there is, or creates one for the snapshot; no other row changes. |
| ProjectionStore.Store.PersistAndAdvance | services/worker/src/learning_orbit_worker/projection_store.py:453-588 | The statement sequence commits exactly when the specification does, with its new rows for that key only, and otherwise with its error. |
| ProjectionStore.Store.AdvanceCheckpoint | services/worker/src/learning_orbit_worker/projection_store.py:593-603 | The checkpoint becomes the larger of the old one and the argument. |
| Pipeline.ResolveApprovals | services/worker/src/learning_orbit_worker/analytics_handlers.py:713-734 | The loop yields exactly the explicitly approved edges and those citing an approved event, or fails on the first citation that is not in the index. |
| RoomLaws.ViewsExist | services/worker/src/learning_orbit_worker/analytics_handlers.py:1073-1116 | Looking citations up for approvals refuses nothing that the projection would not refuse: the views exist exactly when the projection does. |
| Pipeline.AnalyticsHandlers.Materialize | services/worker/src/learning_orbit_worker/analytics_handlers.py:1117-1189 | Four projections, checkpoint and owed replay request together refine one function of the old tables. |
| Pipeline.AnalyticsHandlers.Settle | services/worker/src/learning_orbit_worker/analytics_handlers.py:1179-1189 | Checkpoint and replay request after the loop; the same request twice must agree on its cursor. |
| Pipeline.AnalyticsHandlers.MaterializeKeys | services/worker/src/learning_orbit_worker/analytics_handlers.py:1117-1178 | The loop over the projection keys takes each key's step in order and stops at the first error. |
| Pipeline.AnalyticsHandlers.MaterializePass | services/worker/src/learning_orbit_worker/analytics_handlers.py:1117-1178 | One pass moves the loop from its key to the next, or ends it with that key's error. |
| Pipeline.AnalyticsHandlers.MaterializeKey | services/worker/src/learning_orbit_worker/analytics_handlers.py:1117-1178 | Materialising one key changes the rows of that key only, as specified, or nothing. |
| Pipeline.AnalyticsHandlers.ProjectKey | services/worker/src/learning_orbit_worker/analytics_handlers.py:1131-1178 | The snapshot of a key and, for ECHO, the patch against the stored baseline. |
| Pipeline.AnalyticsHandlers.ConsumeEvent | services/worker/src/learning_orbit_worker/analytics_handlers.py:1192-1224 | A consume is a no-op at or behind the checkpoint, an error across a gap, and otherwise materialises the next event in the current epoch. |
| Pipeline.AnalyticsHandlers.ReplayRoom | services/worker/src/learning_orbit_worker/analytics_handlers.py:1227-1278 | A replay is a no-op when its epoch is installed, an error before its cursor, and otherwise rebuilds everything into the job's own epoch. |
| Pipeline.AnalyticsHandlers.Run | services/worker/src/learning_orbit_worker/analytics_handlers.py:152-159 | Either the transaction's whole effect or, on an error, none of it. |
| PipelineLaws.PersistedIsNext | services/worker/src/learning_orbit_worker/projection_store.py:453-588 | A successful persist installs exactly the next version: its snapshot and patch row, and the head on it; a row already there must be equal. |
| PipelineLaws.NewPatchLeads | services/worker/src/learning_orbit_worker/analytics_handlers.py:171-189 | The patch computed against the baseline leads from the previously stored version of the epoch (or the empty map) to the new snapshot, with matching metadata. |
| PipelineLaws.StepKeeps | services/worker/src/learning_orbit_worker/analytics_handlers.py:1117-1178 | A committed step keeps a key's invariant: contiguous versions, matching rows, patches that lead from version to version, and the head on the last. |
| PipelineLaws.StepAdvances | services/worker/src/learning_orbit_worker/analytics_handlers.py:1117-1178 | A committed step moves the head to the target epoch's next version and forgets no stored row. |
| RoomLaws.PersistAllRows | services/worker/src/learning_orbit_worker/analytics_handlers.py:1117-1178 | The key loop commits exactly when each of the four steps does, and then each key has taken its own step. |
| RoomLaws.CurrentEpochDefined | services/worker/src/learning_orbit_worker/analytics_handlers.py:966-1004 | The incomplete-set and mixed-epoch errors cannot occur: the epoch is the first, the visible one, or the rotation epoch of a new build. |
| RoomLaws.ConsumeKeeps | services/worker/src/learning_orbit_worker/analytics_handlers.py:1192-1224 | A committed consume keeps the room invariant, moves the checkpoint by exactly one or not at all, and adds one version in one epoch for all four keys. |
| RoomLaws.ReplayKeeps | services/worker/src/learning_orbit_worker/analytics_handlers.py:1227-1278 | A committed replay keeps the room invariant and the checkpoint, and leaves its epoch installed. |
| RoomLaws.AttemptKeeps | services/worker/src/learning_orbit_worker/analytics_handlers.py:1192-1278 | Every committed transaction keeps the invariant, never moves the checkpoint back and never changes or drops a stored row. |
| RoomLaws.RunKeeps | services/worker/src/learning_orbit_worker/analytics_handlers.py:1192-1278 | The same for every run from every good state, with retries, replays and rotations in any order. |
| RoomLaws.ReachableInvariant | services/worker/src/learning_orbit_worker/analytics_handlers.py:1007-1278 | The room invariant holds in every reachable state. |
| RoomLaws.HeadsInEveryRun | services/worker/src/learning_orbit_worker/analytics_handlers.py:966-1004 | In every reachable state there are no heads at checkpoint 0, and otherwise all four agree on epoch, version and the checkpoint; the current epoch is always defined. |
| RoomLaws.SnapshotIsFold | services/worker/src/learning_orbit_worker/projection_store.py:453-588 | In every reachable state each stored ECHO snapshot is the fold of its epoch's patches from the empty map. |
| RoomLaws.ReplayTwice | services/worker/src/learning_orbit_worker/analytics_handlers.py:1263-1278 | A replay job that runs again after it committed changes nothing, whatever build and inputs it then has. |
| RoomLaws.RunMeetsContract | packages/contracts/src/analytics.ts:76-106 | If every graph handed to the writer is well formed with distinct relations, every graph ever stored passes the snapshot contract. |
| OnceLaws.EveryEventOnce | services/worker/src/learning_orbit_worker/analytics_handlers.py:1192-1278 | In every run of consumes, replays and rotations each event up to the checkpoint was consumed into exactly one stored version of every projection key; the only versions besides are those a replay rebuilt. |
| CommitLaws.ConsumeCommits | services/worker/src/learning_orbit_worker/analytics_handlers.py:1007-1224 | The next consume commits if and only if the views exist, the patches fit the stored format, the target version is free and no late event is named twice. |
| CommitLaws.KeyCommits | services/worker/src/learning_orbit_worker/projection_store.py:453-588 | Moving forward, one key commits if and only if its version is free and its patch fits. |
| CommitLaws.EchoPatchValid | services/worker/src/learning_orbit_worker/projection_store.py:121-233 | Of the many patch checks, a patch made by the pipeline can fail only those on list entries and negative offsets. |
| CommitLaws.LateEventBlocks | services/worker/src/learning_orbit_worker/replay_jobs.py:29-85 | One step of the dead end below: once a consume has named an event, a next consume that names it again fails, with any build. |
| LateEvents.EngineIrrelevant | services/worker/src/learning_orbit_worker/projector.py:244-300 | Which chat events reach the algorithms, and the projector's own state, do not depend on the algorithms. |
| LateEvents.NamedWhenLate | services/worker/src/learning_orbit_worker/analytics_handlers.py:1180-1189 | Materialising a log names an event exactly if some chat event of it is refused as too late. |
| LateEvents.StillNamed | services/worker/src/learning_orbit_worker/reference/learning_orbit_algorithms_v1.py:605-666 | The event named for a log is named again for the log with one more event, unless that event retracts evidence. |
| LateLaws.NextCommits | services/worker/src/learning_orbit_worker/analytics_handlers.py:1007-1224 | In every run over a log the next event commits if and only if its views exist, its patches fit, its version is free and no earlier event of the log named the event it names. |
| LateLaws.LateEventStops | services/worker/src/learning_orbit_worker/replay_jobs.py:29-85 | After an event whose materialisation names one, if the next event retracts nothing, no run of consumes, replays and builds ever gets further. |
| LateLaws.LateEventRun | services/worker/src/learning_orbit_worker/analytics_handlers.py:1179-1189 | A log of three messages of which the first two are consumed and the third never is, whatever happens next. |
| CommitLaws.RotationBlocks | services/worker/src/learning_orbit_worker/analytics_handlers.py:966-1004 | A build whose rotation epoch is already stored cannot consume anything while another build is visible. |
| CommitLaws.RotationBackBlocks | services/worker/src/learning_orbit_worker/analytics_handlers.py:966-1004 | After builds A, B and A have each consumed one event, B fails on every fourth event. |
| CommitLaws.RotationBackRun | services/worker/src/learning_orbit_worker/analytics_handlers.py:966-1004 | Such a run on plain chat messages: three are consumed, and the fourth is refused under B, whatever it is. |
| AnalyticsContract.AssertEchoPatchExact | packages/contracts/src/analytics.ts:108-126 | The comparison of set sizes accepts exactly the patches that touch no identifier twice and step one version. |
| AnalyticsContract.AssertPatchChain | packages/contracts/src/analytics.ts:216-231 | The loop accepts exactly chains of consecutive versions of one epoch and algorithm with non-decreasing cursors. |
| AnalyticsContract.AssertTimelineSemantics | packages/contracts/src/analytics.ts:240-273 | The check accepts exactly a chain that starts at its base and ends at the announced version. |
| AnalyticsReader.ReadProjection | apps/server/src/modules/analytics/analytics-repository.ts:138-212 | The server's reconstruction of a snapshot from a row, or its refusal by number ranges and the ECHO contract. The JSON-schema, TRACE-contract and warnings-hash checks on a row are left out. |
| AnalyticsReader.ValidatePatchChain | apps/server/src/modules/analytics/analytics-repository.ts:266-291 | The loop returns the wire patches exactly when every row continues the chain. |
| AnalyticsReader.ReadPatches | apps/server/src/modules/analytics/analytics-repository.ts:401-450 | `patchesAfter` as a function of the stored rows, up to the row checks left out above. |
| AnalyticsReader.ReadTimeline | apps/server/src/modules/analytics/analytics-repository.ts:452-520 | `timeline` as a function of the stored rows, with its limits, up to the row checks left out above. |
| AnalyticsReader.ReadAnchored | apps/server/src/modules/analytics/analytics-repository.ts:494-520 | The base snapshot a timeline is anchored to, or a corrupt answer. |
| AnalyticsReader.ReadLatest | apps/server/src/modules/analytics/analytics-repository.ts:383-399 | `latest` as a function of the stored rows, up to the row checks left out above. |
| ReaderLaws.WriterServes | apps/server/src/modules/analytics/analytics-repository.ts:266-291 | Every row of the visible epoch that the worker stored passes the server's checks, and exactly the versions 1 to the head's are there. |
| ReaderLaws.WindowAnswers | apps/server/src/modules/analytics/analytics-repository.ts:401-450 | A patch request is answered with patches if and only if it names the visible epoch and a version at most 200 behind the head, and all else is a resync; it never fails on the checks modelled (see `AnalyticsReader.ReadProjection`). |
| ReaderLaws.WindowLeads | apps/server/src/modules/analytics/analytics-repository.ts:401-450 | The patches answered lead from the version named to the latest snapshot. |
| TimelineLaws.PatchesOverRuns | apps/server/src/modules/analytics/analytics-repository.ts:401-450 | Both facts in every state that any run of the writer leaves. |
| TimelineLaws.TimelineAnswers | apps/server/src/modules/analytics/analytics-repository.ts:452-520 | Over the visible epoch a timeline fails exactly when its stored base is unreadable; otherwise it meets its contract, has the newest patches up to the limit, and rebuilds the latest snapshot. |
| TimelineLaws.TimelineOverRuns | packages/contracts/src/analytics.ts:240-273 | In every run over well-formed graphs, timelines of every length answer, meet the contract and rebuild the latest snapshot. |
| TimelineLaws.CorrectedIsSound | services/worker/src/learning_orbit_worker/analytics_handlers.py:737-843 | A graph that a ledger without colliding replacements left of a sound graph without repeated identities meets what the writer's laws ask of their inputs, and both its views exist. |
| TimelineLaws.LedgerRuns | services/worker/src/learning_orbit_worker/analytics_handlers.py:1073-1178 | In every run over such graphs every stored graph passes the contract and timelines are sound at every length. |
| TimelineLaws.TimelineElsewhere | apps/server/src/modules/analytics/analytics-repository.ts:452-478 | Any other epoch is answered with a resync. |
| TimelineLaws.ServedChainOk | packages/contracts/src/analytics.ts:216-231 | Every stored stretch of the visible epoch is a chain the contract accepts, including non-decreasing cursors. |
| TimelineLaws.StoredRowReadable | apps/server/src/modules/analytics/analytics-repository.ts:138-212 | A stored row whose graph meets the contract is never refused by the server. |
| TimelineLaws.ProjectionRoundTrip | apps/server/src/modules/analytics/analytics-repository.ts:40-59 | The server shows exactly the snapshot the worker wrote: statuses and review fields are derived alike in both languages. |
| ConceptReducer.ApplyConceptPatch | apps/web/src/lib/analytics/concept-reducer.ts:25-104 | The reducer's loops over mutable maps compute the specified view or its first error. |
| ConceptReducer.AddRows | apps/web/src/lib/analytics/concept-reducer.ts:47-66 | Accepts exactly new, pairwise distinct ids, and puts the rows over the map. |
| ConceptReducer.UpdateRows | apps/web/src/lib/analytics/concept-reducer.ts:51-66 | Accepts exactly ids that are present, and puts the rows over the map. |
| ConceptReducer.HideRows | apps/web/src/lib/analytics/concept-reducer.ts:55-69 | Accepts exactly ids that are present and not repeated, and removes them. |
| ConceptReducer.MoveNodes | apps/web/src/lib/analytics/concept-reducer.ts:70-74 | Accepts exactly positions of present nodes, and moves them. |
| ConceptReducer.DeltaReduces | apps/web/src/lib/analytics/concept-reducer.ts:47-69 | On the map it was computed from, a worker's delta applies without an error and yields the map it was computed for. |
| ConceptReducer.DeltaApplies | apps/web/src/lib/analytics/concept-reducer.ts:25-104 | A view that shows the base of a delta is taken to its target, whenever the target meets the contract. |
| ClientLaws.RowFollows | apps/web/src/lib/analytics/concept-reducer.ts:25-104 | One stored patch takes the browser from the view of one stored row to the view of the next. |
| ClientLaws.BrowserCatchesUp | apps/web/src/lib/analytics/concept-reducer.ts:25-104 | After any run over well-formed graphs, a browser on any version in the window that applies the answered patches shows exactly the head's row, or is refused with `ReplayRequired`; refused exactly if there is a patch and some version on the way waits for a replay. |
| Projector.StreamingProjector.constructor | services/worker/src/learning_orbit_worker/projector.py:193-196 | A projector starts empty. |
| Projector.StreamingProjector.Tick | services/worker/src/learning_orbit_worker/projector.py:47-78 | The watermark and lateness decision on one event. |
| Projector.StreamingProjector.ApplyOne | services/worker/src/learning_orbit_worker/projector.py:244-300 | Applying one event changes cursor, lineage and chat as specified, and not the queues. |
| Projector.StreamingProjector.Consume | services/worker/src/learning_orbit_worker/projector.py:198-231 | Refuses malformed events without effect, ignores known ones, keeps early ones pending and drains what became contiguous. |
| Projector.StreamingProjector.Drain | services/worker/src/learning_orbit_worker/projector.py:219-225 | The loop applies pending events up to the first missing number. |
| Projector.StreamingProjector.Replay | services/worker/src/learning_orbit_worker/projector.py:302-317 | Rebuilds from the sorted history, across gaps. |
| ProjectorLaws.DeliveredPrefix | services/worker/src/learning_orbit_worker/projector.py:198-231 | After any deliveries of a log, the applied events are exactly the longest contiguous delivered prefix and the pending ones exactly the delivered rest. |
| ProjectorLaws.OrderIrrelevant | services/worker/src/learning_orbit_worker/replay.py:17-29 | Two orders, with any repetitions, that cover the same events leave the same state. |
| ProjectorLaws.FullDelivery | services/worker/src/learning_orbit_worker/replay.py:17-29 | When all events of a log have arrived, the state is that of sorted delivery and nothing is pending. |
| ProjectorLaws.ReplayOrderIrrelevant | services/worker/src/learning_orbit_worker/projector.py:302-317 | Projectors that received the same events with distinct ids, in any order and with clashing numbers, are equal after a replay. |
| ProjectorLaws.ReplayKeepsCursor | services/worker/src/learning_orbit_worker/projector.py:302-317 | On a fully applied log, a replay keeps watermark, cursor, warnings, lineage and chat history. |
| ProjectorLaws.WatermarkIs | services/worker/src/learning_orbit_worker/projector.py:47-78 | After any events the watermark is the largest of their capped times less five seconds. |
| ProjectorLaws.LatestIsMaximum | services/worker/src/learning_orbit_worker/projector.py:47-78 | That largest time is reached by one of the events and bounds all of them. |
| ProjectorLaws.NeverLate | services/worker/src/learning_orbit_worker/projector.py:47-78 | If no earlier event was ingested later, an event whose clock lags at most five seconds is never late, however far ahead other clocks ran. |
| JobQueue.JobStore.RequireCurrent | services/worker/src/learning_orbit_worker/jobs.py:308-319 | Refuses exactly the claims that do not match the running row in generation, token and worker. |
| JobQueue.JobStore.ClaimOne | apps/server/src/db/sql/settle_worker_job_claims.sql:1-62 | A claim finishes a committed lost attempt, buries an exhausted one, or starts an attempt under a larger generation. |
| JobQueue.JobStore.SendHeartbeat | services/worker/src/learning_orbit_worker/jobs.py:297-306 | Renews the lease of a current claim and nothing else. |
| JobQueue.JobStore.CompleteBusiness | services/worker/src/learning_orbit_worker/jobs.py:51-69 | Leaves this claim's receipt, or fails without effect on a malformed code, a stale claim or a different receipt. |
| JobQueue.JobStore.Consume | services/worker/src/learning_orbit_worker/analytics_handlers.py:1192-1224 | Cursor and receipt move together or not at all. |
| JobQueue.JobStore.SucceedJob | services/worker/src/learning_orbit_worker/jobs.py:321-347 | Only a current claim with its own receipt succeeds. |
| JobQueue.JobStore.FailJob | services/worker/src/learning_orbit_worker/jobs.py:349-399 | A failure report finishes committed work, and otherwise retries or buries. |
| JobQueue.JobStore.Conclude | services/worker/src/learning_orbit_worker/handler_registry.py:164-217 | How an attempt ends, for every handler result and both readings of the cancellation flag. |
| JobLaws.SupersededIsHarmless | services/worker/src/learning_orbit_worker/jobs.py:38-49 | Once superseded, an attempt changes nothing with any of its steps, however long it goes on and whatever others do. |
| JobLaws.SupersededStays | services/worker/src/learning_orbit_worker/jobs.py:256-265 | An attempt that lost its lease never gets it back. |
| JobLaws.ClaimSupersedes | apps/server/src/db/sql/settle_worker_job_claims.sql:55-62 | A new claim supersedes every earlier claim of the job and is itself current. |
| JobLaws.CommittedNeverRetried | services/worker/src/learning_orbit_worker/jobs.py:349-373 | After a committed receipt the job is, for ever, running under it, succeeded or cancelled: never retryable, never dead, never started again. |
| JobLaws.CommittedCancelledExactly | services/worker/src/learning_orbit_worker/jobs.py:448-463 | A job with a committed receipt ends up cancelled if and only if a cancellation reaches it while it is still running. |
| JobLaws.CommittedCanBeCancelled | apps/server/src/modules/governance/governance-service.ts:192 | A run in which an event is materialised under its receipt and its job is then cancelled by the deletion of the room. |
| JobLaws.ExactlyOnceInOrder | services/worker/src/learning_orbit_worker/analytics_handlers.py:1192-1224 | Seen from the queue alone: the events that consume attempts materialise are exactly 1, 2, …, checkpoint in this order, in every run. |
| JobLaws.SucceededWasCommitted | services/worker/src/learning_orbit_worker/jobs.py:321-347 | In every run a succeeded job had committed business work; for a consume job its event is materialised. |
| JobLaws.CursorErrorsUnreachable | apps/server/src/db/sql/claim_worker_job.sql:1-21 | Because of the claim barrier, a current consume never meets a gap and a current replay never finds the cursor behind. |
| RoomWorker.ConsumedExactlyOnce | services/worker/src/learning_orbit_worker/analytics_handlers.py:1192-1278 | Queue and tables together, under every interleaving of claims, lost workers, commits and failures: the room invariant holds, checkpoint and cursor agree, and every event up to them is in exactly one consumed version of every key. |
| RoomWorker.SucceededIsStored | services/worker/src/learning_orbit_worker/jobs.py:321-347 | The event of a succeeded consume job is stored, in exactly one consumed version of every key. |
| RoomWorker.LostTouchesNothing | services/worker/src/learning_orbit_worker/jobs.py:38-49 | Once superseded, an attempt changes neither the queue nor a stored row, whatever others do meanwhile. |
| RoomWorker.CurrentFindsTables | services/worker/src/learning_orbit_worker/analytics_handlers.py:1192-1278 | A current attempt never finds the tables' checkpoint out of reach, nor a partial or mixed set of heads. |
| JobLaws.SuccessIsFinal | services/worker/src/learning_orbit_worker/handler_registry.py:164-217 | Success is reported only for a succeeded job, and the job stays succeeded whatever happens afterwards. |
| JobLaws.SucceededForever | services/worker/src/learning_orbit_worker/jobs.py:321-399 | In every run a succeeded job, of any kind, stays succeeded. |
| Lifecycle.DeletionJob.constructor | apps/server/src/modules/governance/governance-service.ts:44-78 | The freeze records one count per surface and no receipt. |
| Lifecycle.DeletionJob.HandleSurface | services/worker/src/learning_orbit_worker/lifecycle.py:210-318 | One attempt: its whole effect, or only what the media service itself recorded. |
| Lifecycle.DeletionJob.Transact | services/worker/src/learning_orbit_worker/lifecycle.py:215-237 | The parent's state decides whether an attempt does anything. |
| Lifecycle.DeletionJob.TransactActive | services/worker/src/learning_orbit_worker/lifecycle.py:238-318 | An attempt of an active deletion, in the source's order of checks. |
| Lifecycle.DeletionJob.DependenciesVerified | services/worker/src/learning_orbit_worker/lifecycle.py:258-262 | The loop finds out whether all earlier surfaces are verified. |
| Lifecycle.DeletionJob.AskMedia | services/worker/src/learning_orbit_worker/lifecycle.py:172-207 | The media surface counts as done only if the service's answer and its mark agree. |
| Lifecycle.DeletionJob.VerifySurface | services/worker/src/learning_orbit_worker/lifecycle.py:280-318 | Count, delete, recount, mark, and with the last surface the receipt. |
| LifecycleLaws.ReceiptMeansAll | services/worker/src/learning_orbit_worker/lifecycle.py:152-169 | In every run the verified surfaces form a prefix of the order, and a receipt exists iff the job is completed iff all eight are verified; the receipt is valid. |
| LifecycleLaws.TerminalForever | services/worker/src/learning_orbit_worker/jobs.py:416-446 | Completed and dead are never left. |
| LifecycleLaws.InOrderAttemptAdvances | services/worker/src/learning_orbit_worker/lifecycle.py:210-318 | Without provider copies and concurrent writers, an in-order attempt always verifies its surface, and the eighth completes the deletion. |
| LifecycleLaws.SweepAdvances | services/worker/src/learning_orbit_worker/lifecycle.py:210-318 | From every such freeze, n in-order attempts verify n surfaces and eight complete the deletion. |
| LifecycleLaws.CompletableExactly | apps/server/src/modules/governance/governance-service.ts:44-78 | Some run completes the deletion if and only if no provider copy was counted at the freeze. |
| LifecycleLaws.NeverCompletes | services/worker/src/learning_orbit_worker/lifecycle.py:83-110 | With a provider copy counted, no run completes. |
| AgentRuns.AgentRepository.constructor | infra/postgres/migrations/004_agent_multimodal.sql:31-34 | A room starts without runs. |
| AgentRuns.AgentRepository.FindActive | apps/server/src/modules/agent/agent-repository.ts:140-145 | The oldest active run, if there is one. |
| AgentRuns.AgentRepository.FindRun | apps/server/src/modules/agent/agent-repository.ts:101-102 | The run of a trigger, if there is one. |
| AgentRuns.AgentRepository.FindLatest | apps/server/src/modules/agent/agent-repository.ts:126-135 | The newest revision of a message, the later event at equal revisions. |
| AgentRuns.AgentRepository.GetOrCreateRun | apps/server/src/modules/agent/agent-repository.ts:89-185 | The existing run, a new one with its job, or the first refusal; nothing changes on a refusal. |
| AgentRuns.AgentRepository.CancelLocked | apps/server/src/modules/agent/agent-repository.ts:255-262 | The run and its job end together. |
| AgentRuns.AgentRepository.CancelRun | apps/server/src/modules/agent/agent-repository.ts:221-232 | Cancels an active run, and refuses any other without effect. |
| AgentRuns.AgentRepository.SetAgentEnabled | apps/server/src/modules/agent/agent-repository.ts:234-253 | Switching off also cancels the active run, in the same transaction. |
| AgentRuns.AgentRepository.CompleteRun | apps/server/src/modules/agent/internal-agent-complete-route.ts:84-188 | Appends one event, leaves the claim's receipt and completes the run, recognises an earlier delivery, or refuses without effect. |
| AgentRuns.AgentRepository.WriteReceipt | apps/server/src/modules/agent/internal-agent-complete-route.ts:134-188 | The receipt of a claim is written once; a different one for the same attempt is a conflict and changes nothing. |
| AgentRuns.AgentRepository.SelectOrphans | apps/server/src/modules/agent/agent-run-reconciler.ts:44-66 | The oldest runs that can no longer finish, at most a batch of them. |
| AgentRuns.AgentRepository.SettleOrphans | apps/server/src/modules/agent/agent-run-reconciler.ts:68-112 | The sweep's second phase and its counters, over any selection however stale. |
| AgentRunLaws.AtMostOneRun | apps/server/src/modules/agent/agent-repository.ts:89-185 | In every reachable state at most one run is active, a trigger has at most one run, and a disabled agent has no active run. |
| AgentRunLaws.CompletedExactlyWhenSpoken | apps/server/src/modules/agent/internal-agent-complete-route.ts:84-188 | In every reachable state a run is completed if and only if exactly one event carries its job as causation; any other run has none. |
| AgentRunLaws.ReceiptMeansCompleted | apps/server/src/modules/agent/internal-agent-complete-route.ts:134-188 | In every reachable state a run whose job has a business receipt is completed, so cancelling a run, or switching the agent off, never takes a job with a receipt. |
| AgentRunLaws.TerminalForever | apps/server/src/modules/agent/agent-run-reconciler.ts:68-112 | A terminal run keeps its state, trigger and failure code whatever happens. |
| AgentRunLaws.SilencedForever | apps/server/src/modules/agent/internal-agent-complete-route.ts:134-146 | A cancelled or failed run never speaks, whatever its worker still does. |
| AgentRunLaws.DisableSilences | apps/server/src/modules/agent/agent-repository.ts:234-253 | Cancelling one run is enough: after switching off there is no active run. |
| AgentRunLaws.OrphansExactly | apps/server/src/modules/agent/agent-run-reconciler.ts:44-66 | The sweep selects exactly the active runs whose room closed or whose job is missing, dead or cancelled and that have fewer than a batch of older ones. |
| AgentRunLaws.SettleFrees | apps/server/src/modules/agent/agent-run-reconciler.ts:68-112 | Settling the active run frees the room for a new one. |
| JsonText.ReadQuoted | services/worker/src/learning_orbit_worker/service_assertion.py:102-116 | Reading a printed string gives it back and leaves what follows untouched. |
| JsonText.QuoteListInjective | services/worker/src/learning_orbit_worker/echo_adapter.py:44-48 | Printed lists of equally many strings are equal only if the lists are. |
| CanonicalJson.KeyOrderIsCodeUnits | services/worker/src/learning_orbit_worker/service_assertion.py:102-116 | Sorting keys by UTF-16BE bytes is sorting by UTF-16 code units (section 3.2.3 of RFC 8785), and no two keys tie. |
| CanonicalJson.KeyOrderIsNotCodePoints | apps/server/src/modules/security/canonical-json.ts:79-86 | Two keys that sort the other way round by code points. |
| CanonicalJson.Walk.Visit | services/worker/src/learning_orbit_worker/service_assertion.py:29-86 | The recursive walk with its running counter accepts exactly values within depth, string and node limits, and counts every node once. |
| CanonicalJson.Walk.VisitItems | services/worker/src/learning_orbit_worker/service_assertion.py:56-66 | The same for the items of a list. |
| CanonicalJson.Walk.VisitMembers | services/worker/src/learning_orbit_worker/service_assertion.py:67-85 | The same for the members of an object, in whatever order the dictionary yields them. |
| CanonicalJson.Walk.VisitMember | services/worker/src/learning_orbit_worker/service_assertion.py:73-82 | One more member is accepted exactly if the members so far and this one stay within the limits together. |
| CanonicalJson.ReadPrinted | services/worker/src/learning_orbit_worker/service_assertion.py:102-129 | The reader gives back every printed value and leaves alone what follows it. |
| CanonicalJson.LoadsPrinted | services/worker/src/learning_orbit_worker/service_assertion.py:119-129 | Loading the text of any value gives the value. |
| CanonicalJson.ParseExactly | services/worker/src/learning_orbit_worker/service_assertion.py:89-129 | The parser accepts raw bytes as a value if and only if they are that value's canonical bytes. |
| CanonicalJson.CanonicalInjective | services/worker/src/learning_orbit_worker/service_assertion.py:89-99 | Distinct values have distinct canonical bytes. |
| CanonicalJson.ServerAcceptsExactly | apps/server/src/modules/security/canonical-json.ts:19-72 | Of the values the worker accepts, the server accepts exactly those whose strings fit when counted in code units. |
| CanonicalJson.EmojiAreRefused | apps/server/src/modules/security/canonical-json.ts:19-31 | A value the worker accepts and the server refuses. |
| Utf8.DecodesEncoded | services/worker/src/learning_orbit_worker/service_assertion.py:89-129 | Decoding gives back every encoded text. |
| Base64Url.BytesRoundTrip | services/worker/src/learning_orbit_worker/service_assertion.py:132-142 | Every non-empty byte string comes back from its text (section 5 of RFC 4648). |
| Base64Url.AcceptedExactly | services/worker/src/learning_orbit_worker/service_assertion.py:132-142 | A text is read as some bytes if and only if it is the text of those bytes. |
| RoomExport.CheckEvents | packages/contracts/src/room-export.ts:72-80 | The loop accepts exactly a log numbered 1 to `throughRoomSeq` with distinct ids, and indexes it. |
| RoomExport.CheckArtifactSources | packages/contracts/src/room-export.ts:82-87 | The loop accepts exactly distinct, fitting provenance records, and indexes them. |
| RoomExport.CheckArtifacts | packages/contracts/src/room-export.ts:89-109 | The loop accepts exactly artifacts in strict order of event and of the locale's order of ids, each with its event and its own provenance record. |
| RoomExport.CheckProjectionSources | packages/contracts/src/room-export.ts:111-116 | The loop accepts exactly provenance records with distinct keys, and indexes them. |
| RoomExport.CheckProjections | packages/contracts/src/room-export.ts:118-133 | The loop accepts exactly projections with distinct keys, each matching its record. |
| RoomExport.AssertSemantics | packages/contracts/src/room-export.ts:71-134 | All checks together accept exactly the well-formed exports. |
| RoomExport.AcceptedExport | packages/contracts/src/room-export.ts:71-134 | In an accepted export artifacts are strictly ordered, and artifacts and projections are in bijection with their provenance records. |
| RoomExport.Pigeonhole | packages/contracts/src/room-export.ts:88-133 | Equal sizes and lookups that all succeed leave no provenance record unused. |

## Left out

- SQL, locking and isolation: a transaction is one atomic step under the room lock. Heartbeat threads are steps and a
  flag that may change between its two reads.
- Floating point: channels, scores and positions are reals. Times are whole milliseconds.
- JSON Schema, Unicode normalisation, SHA-256, UUIDv5 and Ed25519: types, preconditions and the values hashed stand for
  them. Signing and verifying an assertion, with its clock checks, are not part of this model.
- The reference ECHO and TRACE algorithms except their lateness gate, the TRACE windows, views and contract (a TRACE
  bundle is opaque text), and the extraction of chat events from the canonical event list.
- Rows for direct artifacts, extractions, artifact reviews and the projection outbox. In `LateEvents`, how a correction's
  target becomes the events it retracts (a parameter of the log) and corrected texts (which move no event in time).
- Random snapshot ids: a snapshot is found by its unique (epoch, version) key instead. The stored `evidenceStatus`
  follows from `requiresReplay` and is not stored twice.
- In a materialisation the log up to the event is taken as contiguous; the query that checks this is part of the input.
- The browser reducer keeps its old watermark time; that field, and the order of its lists on screen, are not part of
  the client's view.
- Which locale orders export artifact ids: the order is a parameter.
- Agent runs: transition and control rows, session and role checks, the hook before creation, and the identity fields
  that the completion route compares. The reconciler's batch is shared by all rooms; here it is one room's.
- Deletion: the media service itself (only its answer and its mark), and the cascade that removes the rows with the
  room.
- Canonical JSON: cyclic Python containers and floats, both of which the source refuses; here they cannot be written.
- `AnalyticsRepository.persistProjection`, sessions, governance records, HTTP routes and user interface: only easy
  members.
- AnalyticsReader.ReadProjection: the JSON-schema, TRACE-contract and warnings-hash checks on a row are not modelled, so
  "never fails" in the laws about the server is relative to them.
- JobQueue.JobStore.ClaimOne: the database's choice among claimable jobs is a parameter, so its order by `run_after`
  and its skipping of locked rows are not modelled.
