# Starweaver: durable continuation, evidence and release logic in Dafny

This project models the parts of Starweaver whose correctness depends on the order of steps over
whole runs, on two pieces of code agreeing, or on arithmetic, and proves what they promise.
`dafny verify dfyconfig.toml` checks everything.

**Durable human-in-the-loop continuation.** `Store` gives each operation of the in-memory session
store that touches these tables, older unfenced ones included, as one atomic function on them (runs,
claims, admissions, receipts, sealed evidence).
`Resume` cuts `resume_after_hitl_by_id` at its suspension points into phases; a *world* is one store,
any number of runtimes and the log of injected effects, and an *event* is a step of one runtime (with
its store call applied, lost, or applied with the reply lost), a crash, or any operation of another
client. A crash in the middle of an injection counts as an injection. `InMemoryStore` and `AgentRuntimes` hold the same operations and the same call as objects
updated in place, proved equal to those functions and phases. `StoreEffects` states what each store
operation promises its callers, `ResumeAnswers` what every answer of a call means and `ResumeCalm`
how an undisturbed call ends, all without recourse to how those functions compute it. `Resolver` is the effect-free check of
human decisions and `Resolution` the effectful pass; both are compared with one condition,
`Resolvable`.

**Evidence and outbox.** `Evidence` numbers display and replay events; `Outbox` publishes to two
sinks under arbitrary faults, `OutboxHistory` follows any mix of commits and whole flushes,
`OutboxInterleaved` any number of overlapping flushes call by call, `Publisher` holds the loops.

**Release logic.** `CivilDays` and `HttpDate` (HTTP dates, section 5.6.7 of RFC 9110), `Publish` (order check and
retry loop; Retry-After is section 10.2.3 of RFC 9110), `Graph` (two searches), `Manifest` (version
edits).

**Other components.** `McpSlots` (run-scoped connections), `Product` and `ProductHistory` (run
coordinator), `RootDigest` and `Materialization` (evidence of how an agent was built), `Segments`
(image bands). `Order` and `Basics` are shared.

## What turned out not to hold as stated

- *At most one injection* needs the source's evidence to be sealed and its record not to be
  overwritten by the store's unfenced `append_run` or `update_run_status`. Every history crosses the
  effect fence at most once, plus once if the run was not sealed, plus once per such overwrite
  (`StoreSafety.CrossingsAreBounded`), and this bound is reached
  (`StoreSafety.CrossingsReachTheBound`). Without overwrites, a run that can be taken up is exclusive
  if and only if it is sealed (`StoreSafety.SealDecidesExclusivity`). Of identifiers this needs one
  thing only: idempotency keys are shared by all sessions of a store, so a key must not be used for
  two of them (`ResumeHistory.InjectedAtMostOnce`).
- *Injection only under the own started claim* is not guaranteed after the fence: the lease is
  checked once (`runtime.rs:1237`). Each injection, SDK-owned or host-managed, happens either under the
  call's own started claim and lease or after the source was concluded, never both
  (`ResumeHistory.EffectsAreOwnedOrConcluded`), and the second exactly when the session's expired
  admission was evicted between fence and injection (`ResumeEviction.UnownedExactlyWhenEvicted`). That
  is reached from every store with an unclaimed, sealed, waiting run
  (`ResumeFindings.LeaseCanBeOutlived`).
- *A committed continuation is finalised* exactly when its stream did not suspend again
  (`ResumeFindings.FinalizesUnlessSuspended`). Otherwise the call gets stuck with its lease; when the
  lease expires the continuation is cancelled and its approvals can no longer be claimed
  (`ResumeFindings.SuspendedAgainIsCancelled`).
- Retained replay evidence is numbered consecutively exactly under `Evidence.Roomy`, a condition on
  the host counter (`Evidence.RetainedNumbering`, `Evidence.MovingCounterLeavesGap`).
- Image bands cover all rows exactly when the overlap is smaller than a band
  (`Segments.CoversExactlyWhen`, `Segments.WideOverlapLosesRows`).
- Reading back a replaced version gives it back exactly when it has no quote, and a later replacement
  undoes an earlier one exactly when that had no quote (`Manifest.ReadAfterReplace`,
  `Manifest.LastReplaceWins`, `Manifest.QuotedVersionIsCut`).
- `Preserve` does not compare evidence versions: a version 1 target passes against an unbound current
  source although the fingerprints differ (`Materialization.PreserveAllVersions`,
  `Materialization.PreserveAdmitsLegacyTarget`).
- The day count overflows 32 bits exactly before 23 June -5877641 and after 9 September 5879610
  (`CivilDays.OverflowExactly`).
- *An ended product run keeps its status* exactly while no exception follows its completion, whose
  publication is still inside the guarded part, and no approval finishes after its failure
  (`ProductHistory.EndedFlipsExactly`, `ProductHistory.EndedStatusKept`); both happen
  (`ProductHistory.CompletedCanBecomeFailed`, `ProductHistory.FailedCanBecomeCompleted`).

## Model

| member | source | states |
|---|---|---|
| InMemoryStore.InMemorySessionStore.ClaimHitlResume | crates/starweaver-session/src/store/memory.rs:1547-1579 | the claim operation in place is the function whose histories are analysed: only a waiting run, one claim at a time, same-id retry accepted while in preflight |
| InMemoryStore.InMemorySessionStore.StartHitlResumeEffect | crates/starweaver-session/src/store/memory.rs:1581-1631 | crossing the fence needs a live lease of an active run that continues the waiting source, and that source's own admitted claim |
| InMemoryStore.InMemorySessionStore.AbortAdmittedHitlResume | crates/starweaver-session/src/store/memory.rs:1633-1709 | an abort fails the continuation and frees the claim only before the fence; past it, it reports that the effect started |
| InMemoryStore.InMemorySessionStore.ReleaseHitlResumeClaim | crates/starweaver-session/src/store/memory.rs:1734-1757 | only an own preflight claim can be released |
| InMemoryStore.InMemorySessionStore.AcquireRunAdmission | crates/starweaver-session/src/store/memory.rs:713-911 | idempotent receipts, eviction of an expired lease, replacement of a waiting run and the claim's move to admitted, all or nothing |
| InMemoryStore.InMemorySessionStore.CommitRunEvidence | crates/starweaver-session/src/store/memory.rs:1344-1401 | retry by digest, fence, claim authorisation and source status, then source, target and seal change together |
| InMemoryStore.InMemorySessionStore.FinalizeRunAdmission | crates/starweaver-session/src/store/memory.rs:2428-2508 | finalisation with and without a remaining admission |
| InMemoryStore.InMemorySessionStore.ReconcileExpiredRunAdmissions | crates/starweaver-session/src/store/memory.rs:2525-2599 | every expired admission is evicted, its source concluded fail-closed, or nothing changes |
| InMemoryStore.InMemorySessionStore.CommitCheckpoint | crates/starweaver-session/src/store/memory.rs:1444-1545 | fenced or not, a checkpoint records a missing session and run and leaves a recorded run as it is |
| InMemoryStore.InMemorySessionStore.MarkHitlResumeStarted | crates/starweaver-session/src/store/memory.rs:1711-1732 | the older transition moves an own preflight claim past the fence without an admission, and answers success in every later state |
| InMemoryStore.InMemorySessionStore.AppendRunRecord | crates/starweaver-session/src/store/memory/runs.rs:16-71 | replaces or creates a run record without a fence |
| InMemoryStore.InMemorySessionStore.UpdateRunStatus | crates/starweaver-session/src/store/memory/runs.rs:205-263 | the older status update: any status, without a fence |
| StoreEffects.ClaimIsExclusive | crates/starweaver-session/src/store/memory.rs:1547-1579 | one claimant at a time: another id is refused, the same id accepted again, and only the owner's release puts everything back |
| StoreEffects.ClaimableExactly | crates/starweaver-session/src/store/memory.rs:1547-1579 | who can claim a run and who can release its claim; every other attempt changes nothing |
| StoreEffects.FenceLetsOneThrough | crates/starweaver-session/src/store/memory.rs:1581-1631 | the fence opens exactly for the admitted claim of a live continuation of the waiting source; then it is shut for everyone, an abort reports the effect and no release is possible |
| StoreEffects.AbortFreesSource | crates/starweaver-session/src/store/memory.rs:1633-1709 | an abort before the fence fails the continuation and leaves the source waiting as it was, to be claimed anew; past the fence it changes nothing |
| StoreEffects.RenewalExtends | crates/starweaver-session/src/store/memory.rs:2353-2380 | a heartbeat moves the expiry of the caller's own live lease and nothing else |
| StoreEffects.ReturnedLeaseIsGone | crates/starweaver-session/src/store/memory.rs:2382-2402 | only a live owner returns a lease; a repetition is no error |
| StoreEffects.StatusWrite | crates/starweaver-session/src/store/memory.rs:338-379 | a status write changes one record and the session pointer, which follows active runs and is given up only by the run it names; writing what is recorded already changes nothing |
| StoreEffects.FencedUpdate | crates/starweaver-session/src/store/memory.rs:2404-2426 | who may give a run which status under a lease, and what changes |
| StoreEffects.UnfencedUpdate | crates/starweaver-session/src/store/memory/runs.rs:205-263 | the older update needs no lease; failures and cancellations get a diagnostic and no preview |
| StoreEffects.AppendedRecord | crates/starweaver-session/src/store/memory/runs.rs:16-71 | a complete record replaces the old one whole, and the session row follows it |
| StoreEffects.CheckpointAccepted | crates/starweaver-session/src/store/memory.rs:1444-1545 | who may checkpoint, and what no checkpoint touches |
| StoreEffects.CheckpointRecords | crates/starweaver-session/src/store/memory.rs:1444-1545 | a recorded run stays as it is; an unknown one is recorded as running where the checkpoint says queued or starting |
| StoreEffects.MarkedStarted | crates/starweaver-session/src/store/memory.rs:1711-1732 | the older transition asks for the own claim only and touches nothing else |
| StoreEffects.FinalizeAccepted | crates/starweaver-session/src/store/memory.rs:2428-2508 | exactly which finalisations are accepted, with and without an admission in the session |
| StoreEffects.FinalizedOnce | crates/starweaver-session/src/store/memory.rs:2428-2508 | a finalised run has its projection and the slot is free; a repetition is accepted exactly with what is recorded |
| StoreEffects.CommitAccepted | crates/starweaver-session/src/store/memory.rs:1344-1401 | exactly which first commits of a run's evidence are accepted; all others change nothing |
| StoreEffects.EvidenceIsRecorded | crates/starweaver-session/src/store/memory.rs:1344-1401 | an accepted commit records outcome, restore link and pointer, and keeps an indeterminate marker |
| StoreEffects.EvidenceIsSealedOnce | crates/starweaver-session/src/store/memory.rs:1344-1401 | sealed evidence is accepted again by its digest without effect, and no other evidence is |
| StoreEffects.EvictionFreesSlot | crates/starweaver-session/src/store/memory.rs:381-441 | when an admission can be evicted, and what that does to slot, pointer and run |
| StoreEffects.ReconciliationDecides | crates/starweaver-session/src/store/memory.rs:381-441 | every expired continuation that a reconciliation reaches, among any others in any order: a claim only admitted leaves the source waiting, unchanged and to be claimed anew; a started one cancels it, and only then both carry the indeterminate marker |
| StoreEffects.NextAdmissionDecides | crates/starweaver-session/src/store/memory.rs:381-441 | the same for the eviction inside the next admission |
| StoreEffects.AdmissionIsIdempotent | crates/starweaver-session/src/store/memory.rs:713-911 | a granted request is answered with its recorded lease for ever after, without any effect; another fingerprint is refused |
| StoreEffects.AdmissionGranted | crates/starweaver-session/src/store/memory.rs:713-911 | exactly which requests a free slot grants, and every table after the grant |
| StoreEffects.LiveLeaseBars | crates/starweaver-session/src/store/memory.rs:713-911 | a live lease bars every other request |
| StoreEffects.ExpiredLeaseGivesWay | crates/starweaver-session/src/store/memory.rs:713-911 | over an expired lease a request is answered as after its eviction, and evicts nothing unless it is granted |
| StoreEffects.EvictedLeaseIsDead | crates/starweaver-session/src/store/memory.rs:713-911 | the generation grows, so that an evicted lease is never live again |
| StoreSafety.ApplyKeeps | crates/starweaver-session/src/store/memory.rs:1344-1757 | every operation with any arguments, other than an unfenced overwrite of the run itself, keeps records, seals, a shut fence and a conclusion |
| StoreSafety.CrossingsAreBounded | crates/starweaver-session/src/store/memory.rs:1581-1631 | over any history of any clients, the fence is crossed at most once while open, once more before sealing, and once more per unfenced overwrite |
| StoreSafety.CrossingsReachTheBound | crates/starweaver-session/src/store/memory/runs.rs:205-263 | for a run that can be taken up, a history reaches that bound for every number of overwrites |
| StoreSafety.EffectFenceCrossedAtMostOnce | crates/starweaver-session/src/store/memory.rs:1581-1631 | a sealed run that nobody overwrites is crossed at most once, and never once its fence is shut |
| StoreSafety.SealDecidesExclusivity | crates/starweaver-session/src/store/memory.rs:443-463 | for a run that can be taken up: no history without overwrites crosses twice if and only if its evidence is sealed |
| ResumeSafety.ForeignKeeps | crates/starweaver-agent/src/runtime.rs:1098-1283 | what a call may rely on survives every operation that does not use its generated identifiers |
| ResumeSafety.ForeignKeepsRelease | crates/starweaver-agent/src/runtime.rs:1138-1149 | such operations neither admit the continuation of a refused call nor bring back a claim it lost |
| ResumeSafety.HostStartFirms | crates/starweaver-agent/src/runtime.rs:1004-1046 | whatever lease, source and claim a host passes, once the store lets it cross the fence they belong together |
| ResumeSafety.OwnStep | crates/starweaver-agent/src/runtime.rs:1098-1376 | every step of a call, SDK-owned or host-managed, under every fault, hands the next phase what it relies on |
| ResumeHistory.EffectsAreOwnedOrConcluded | crates/starweaver-agent/src/runtime.rs:1237-1283 | in every history each injection, SDK-owned or host-managed, complete or cut short by a crash, is under the call's own started claim and lease, or after the source concluded, and not both |
| ResumeEviction.UnownedExactlyWhenEvicted | crates/starweaver-agent/src/runtime.rs:1174-1255 | from the fence to the step or crash that ends the injection: the injection is not the call's own if and only if the session's expired admission was evicted in between |
| ResumeEviction.LostExactlyByEviction | crates/starweaver-session/src/store/memory.rs:2525-2599 | no operation of anyone else takes a live lease away except the eviction of its expired admission, by reconciliation or by the next admission |
| ResumeHistory.InjectedAtMostOnce | crates/starweaver-agent/src/runtime.rs:1098-1283 | any number of runtimes, own or host-managed, sharing claims and leases or not, any interleaving, crashes in mid-injection, lost replies and expiries: one waiting run's results are injected at most once, with never a second injection under way, while nobody overwrites its record |
| ResumeHistory.PlausibleIsKeyed | crates/starweaver-agent/src/runtime.rs:1107-1137 | unique generated identifiers are more than that needs |
| ResumeHistory.StepOrderly | crates/starweaver-agent/src/runtime.rs:1004-1046 | every event keeps what each runtime relies on, host-managed ones included |
| ResumeCalls.CallsAreRegular | crates/starweaver-agent/src/runtime.rs:1139-1376 | in every history a call goes by what it hears: it asks for a release only after a request that brought no lease, injects only right after the fence, finalises only after a confirmed abort, a commit, or a failure without anything to commit; a returned call holds neither lease nor continuation id unless it got stuck |
| ResumeCalls.ReleaseMeansUnadmitted | crates/starweaver-agent/src/runtime.rs:1138-1149 | in every history, lost replies included, a release removes a claim only while no continuation was admitted, and otherwise changes nothing |
| ResumeCalls.FinalizationIsEarned | crates/starweaver-agent/src/runtime.rs:1174-1376 | in every history an admission is finalised only when the call's claim is gone after an abort, or its source has concluded |
| ResumeCalls.AnswerMeansConcluded | crates/starweaver-agent/src/runtime.rs:1245-1376 | a call that returns a result, an injection error or a stream error leaves a concluded source, and neither lease nor continuation id on the runtime |
| ResumeFindings.CommittedCallHasConcludedSource | crates/starweaver-agent/src/runtime.rs:1265-1281 | a call that finalises after its commit has a terminal, sealed source |
| ResumeFindings.UnrecordedFailureChangesNothing | crates/starweaver-agent/src/runtime.rs:1347-1376 | finalising after a failure without anything to commit happens only with a concluded source and changes no table |
| ResumeFindings.CommitIsAtomic | crates/starweaver-session/src/store/memory.rs:566-710 | the fenced commit changes target, source, claim and seal together or nothing |
| ResumeFindings.FinalizesUnlessSuspended | crates/starweaver-agent/src/runtime.rs:1284-1322 | after an accepted commit, without faults and with a live lease, the call returns its outcome with nothing held if and only if the stream did not suspend again; otherwise it is stuck, its source concluded and its admission held |
| ResumeFindings.SuspendedAgainIsCancelled | crates/starweaver-session/src/store/memory.rs:2525-2599 | and is cancelled when its lease expires |
| ResumeFindings.InjectionCanOutliveItsLease | crates/starweaver-agent/src/runtime.rs:1237-1255 | a lease that lapses after the check lets results be injected into a cancelled source |
| ResumeFindings.LeaseCanBeOutlived | crates/starweaver-agent/src/runtime.rs:1098-1255 | from every store with an unclaimed, sealed, waiting run a history with unique identifiers leads there |
| ResumeAnswers.AnswersAreExact | crates/starweaver-agent/src/runtime.rs:1139-1376 | in every environment the answer tells what happened: a result exactly for a finished stream, an injection error for a broken injection, a stream error for a broken stream, a start error for a failed fence, each refusal for its own cause, and stuck for a refused commit, target or finalisation |
| ResumeAnswers.HostAnswers | crates/starweaver-agent/src/runtime.rs:1004-1046 | a host-managed injection is refused exactly when the fence did not open or its answer was lost; otherwise it runs, and the runtime keeps its lease and run id |
| ResumeAnswers.UnstartedKeepsRuntime | crates/starweaver-agent/src/runtime.rs:1107-1236 | in every environment a call that never learns that its fence was crossed leaves no lease on the runtime and the session's run id as it was |
| ResumeAnswers.StreamDecidesStatuses | crates/starweaver-agent/src/runtime.rs:1284-1346 | an accepted commit after the stream: a result completes the source whatever the continuation's status, a cancelled stream cancels both, any other failure fails both with the diagnostic |
| ResumeAnswers.BrokenInjectionFailsBoth | crates/starweaver-agent/src/runtime.rs:1245-1282 | an accepted commit after a broken injection fails source and continuation |
| ResumeAnswers.UncertainStartFailsBoth | crates/starweaver-agent/src/runtime.rs:1174-1236 | so does one after a fence that was crossed although it answered with an error |
| ResumeAnswers.GrantedAdmission | crates/starweaver-agent/src/runtime.rs:1107-1137 | what a granted request of a call leaves in every table; its lease runs for thirty seconds |
| ResumeCalm.CalmCall | crates/starweaver-agent/src/runtime.rs:1055-1376 | left alone, a call takes up any waiting, unclaimed run and ends as its injection and its stream do, for every way they can end: answers, both runs' records, seal, claim and admission; it halts with everything in its hands for an unidentified failure or a failed run without diagnostic, and lingers under its lease when the run is not over |
| ResumeCalm.RefusalGivesClaimBack | crates/starweaver-agent/src/runtime.rs:1138-1149 | a refused admission leads to one attempt to release the claim, which succeeds for a claim still in preflight whatever happened in between, unless it is lost |
| AgentRuntimes.AgentRuntime.ResumeAfterHitlById | crates/starweaver-agent/src/runtime.rs:1055-1376 | the sequential call, with other clients running at every await, is exactly a drive through the phases and awaits at most nine times |
| AgentRuntimes.EveryCallReturns | crates/starweaver-agent/src/runtime.rs:1055-1376 | whatever the environment does, a call has returned after nine suspension points |
| Resolver.PreflightDecides | crates/starweaver-agent/src/session.rs:936-1009 | the preflight accepts exactly the decision sets that match the pending work one to one, with callable approvals and terminal deferred results |
| Resolver.SpellingsAgree | crates/starweaver-agent/src/session.rs:1303-1326 | plain, record-style and aliased spellings of one call have one canonical id |
| Resolver.CanonicalIds | crates/starweaver-agent/src/session.rs:1303-1326 | what every spelling stands for: an approval loses its record prefix, a deferred id keeps it, aliases are resolved behind it, and a deferred id without the prefix is its own canonical id |
| Resolver.PendingExactly | crates/starweaver-agent/src/session.rs:1437-1463 | exactly the marked returns are pending, under their record ids |
| Resolver.PendingCollide | crates/starweaver-agent/src/session.rs:1437-1463 | they collide exactly when two marked returns name one call |
| Resolver.RefusalsHaveReasons | crates/starweaver-agent/src/session.rs:936-1009 | every refusal names the first defect in the order of the checks: status, no work, first repeated id, least unknown id, all missing ids in order, least uncallable and least open id |
| Resolver.CallThatRuns | crates/starweaver-agent/src/session.rs:1828-1839 | an approval runs the last pending call of its id, or else the last one of the latest response; an id without either has no call |
| Resolver.CollectUnique | crates/starweaver-agent/src/session.rs:1273-1301 | collecting under canonical ids gives the ordered map of exactly the given entries, or the first repeated id |
| Resolution.ResolveHitlResults | crates/starweaver-agent/src/session.rs:1134-1271 | succeeds exactly when the preflight accepts; every other error is the preflight's own and comes before any call runs, unless an approved call is missing or a deferred result is open; a late failure says which calls had run; on success each distinct pending approval, in order, is answered by its call with exactly the deciding human's arguments or refused with exactly that human's reason |
| Resolution.DecisionsAreAnswered | crates/starweaver-agent/src/session.rs:1196-1271 | each given decision, under any spelling, is answered as it was given: overriding arguments, reason, or status and response for the deferred call |
| Resolution.OutcomesAreExact | crates/starweaver-agent/src/session.rs:1194-1271 | each outcome list holds exactly the ids decided so, and exactly the approved calls ran |
| Resolution.KeepOrder | crates/starweaver-agent/src/session.rs:1194-1271 | outcome lists keep the order of the pending work |
| Resolution.PendingDeferredIds | crates/starweaver-agent/src/session.rs:1437-1463 | the record ids of marked deferred returns, or the first duplicate |
| Resolution.FirstSeenOrder | crates/starweaver-agent/src/session.rs:1196-1199 | repeated pending approvals are answered once, in the order they first appear |
| Resolution.OutcomesPartition | crates/starweaver-agent/src/session.rs:1194-1271 | approved and denied split the distinct pending ids; completed, failed and cancelled split the deferred ids |
| Resolution.AliasesAreDuplicates | crates/starweaver-agent/src/session.rs:1273-1301 | two spellings of one canonical id are always rejected as a duplicate |
| Evidence.Resequence | crates/starweaver-agent/src/runtime.rs:2404-2408 | display messages are renumbered 0, 1, 2, ... in place, otherwise unchanged |
| Evidence.ProjectStreamEvidence | crates/starweaver-agent/src/runtime.rs:2182-2281 | the loops compute the reference evidence, in the order of the records: message j of record i stands behind all earlier ones, under the number of its place, otherwise unchanged; nothing when nothing is configured |
| Evidence.DisplayKeepsOrder | crates/starweaver-agent/src/runtime.rs:2203-2212 | display evidence keeps the order of records and of messages in them, body and terminal flag unchanged |
| Evidence.ReplayShows | crates/starweaver-agent/src/runtime.rs:2213-2266 | replay evidence shows every display message in order with a log, and the terminal ones in order without |
| Evidence.ReplayShowsNoMore | crates/starweaver-agent/src/runtime.rs:2213-2276 | and nothing else but one marker when the run has ended |
| Evidence.MarkerNamesStatus | crates/starweaver-agent/src/runtime.rs:2267-2276 | the marker names how the run ended |
| Evidence.WithoutCounter | crates/starweaver-agent/src/runtime.rs:2221-2266 | without a host counter retained evidence is numbered on from the display messages |
| Evidence.LogNumbersFromZero | crates/starweaver-agent/src/runtime.rs:2213-2220 | with a replay log the numbers are consecutive from 0 whatever the host counter does |
| Evidence.RetainedNumbering | crates/starweaver-agent/src/runtime.rs:2221-2266 | retained evidence is consecutive from the host counter exactly when that has room and stays put between its two reads |
| Evidence.MovingCounterLeavesGap | crates/starweaver-agent/src/runtime.rs:2221-2266 | a counter that moves leaves a gap |
| Evidence.MarkerIsLastAndOnly | crates/starweaver-agent/src/runtime.rs:2267-2276 | a terminal marker appears once, last, exactly when the status is terminal and replay evidence is kept |
| Evidence.StreamCursors | crates/starweaver-agent/src/runtime.rs:2374-2402 | one cursor per non-empty family, at its maximum |
| Evidence.ReplayCursorIsMarker | crates/starweaver-agent/src/runtime.rs:2391-2400 | the replay cursor of a finished run is its marker's number |
| Publisher.StreamPublisher.AcknowledgeStreamPublication | crates/starweaver-session/src/store/memory.rs:1774-1791 | acknowledging clears one target and drops the publication when both are clear |
| Publisher.StreamPublisher.PublishStreamPublication | crates/starweaver-agent/src/runtime.rs:2283-2352 | both targets are attempted whatever the first one does |
| Publisher.StreamPublisher.FlushPendingStreamPublications | crates/starweaver-agent/src/runtime.rs:2354-2372 | every publication of the session, and no other, is attempted, and the reported error is that of the first one to fail |
| Outbox.ListedFlushed | crates/starweaver-agent/src/runtime.rs:2354-2372 | each publication ends as its own calls decide; the flush succeeds exactly when all attempts did |
| Outbox.ItemOrder | crates/starweaver-agent/src/runtime.rs:2283-2352 | an archive receives raw records, display messages and the snapshot in this order, a replay log the replay events |
| Outbox.SinksGrowInOrder | crates/starweaver-agent/src/runtime.rs:2283-2352 | however a push fails, its sink grows by the first part of these items, and by all of them in order when every append succeeds |
| OutboxHistory.NeverAcknowledgedUndelivered | crates/starweaver-agent/src/runtime.rs:2283-2352 | in every run a target stops pending only after all its items reached its sink, and sinks hold only committed items |
| OutboxHistory.FailuresAreIndependent | crates/starweaver-agent/src/runtime.rs:2283-2372 | whether a target is cleared depends on its own sink, appends and acknowledgement alone |
| OutboxHistory.CleanFlushDelivers | crates/starweaver-agent/src/runtime.rs:2354-2372 | a failure-free flush delivers every item ever committed for the session and leaves nothing pending |
| OutboxInterleaved.NeverClearedUndelivered | crates/starweaver-agent/src/runtime.rs:2283-2372 | however flushes overlap call by call and fail, a target stops pending only after all its items reached its sink |
| OutboxInterleaved.UnharmedTargetIsDelivered | crates/starweaver-agent/src/runtime.rs:2283-2372 | whatever other flushes do and however this one fails elsewhere, a target whose own calls succeeded is cleared and delivered once the flush is past it |
| OutboxInterleaved.CleanFlushDelivers | crates/starweaver-agent/src/runtime.rs:2354-2372 | among any other flushes, one that gets through without a fault of its own delivers everything committed for its session before it started |
| OutboxInterleaved.AloneIsOneFlush | crates/starweaver-agent/src/runtime.rs:2283-2372 | with nobody else about, the single calls amount to one whole flush |
| CivilDays.ClosedFormIsNaiveCount | xtask/src/release.rs:1153-1168 | the closed form equals the day-by-day count on every real date of every year |
| CivilDays.NextDayIsNextNumber | xtask/src/release.rs:1153-1168 | the next day has the next number |
| CivilDays.StrictlyIncreasing | xtask/src/release.rs:1153-1168 | dates and numbers are in the same order |
| CivilDays.OverflowExactly | xtask/src/release.rs:1153-1168 | no 32-bit step overflows if and only if the date lies between 23 June -5877641 and 9 September 5879610 |
| CivilDays.NoOverflowInRange | xtask/src/release.rs:1153-1168 | in particular within 5.8 million years of year 0 |
| CivilDays.HttpDateCountsSeconds | xtask/src/release.rs:1142-1151 | real times give the exact second count; exactly dates before 1970 are rejected |
| CivilDays.UnrealDates | xtask/src/release.rs:1153-1168 | dates that do not exist: 30 and 31 February and fields out of range are refused, other days past the end of a month count on into the next |
| CivilDays.AnyTimeCounts | xtask/src/release.rs:1142-1151 | hours, minutes and seconds beyond a clock's count on; only counts before 1970 are refused |
| HttpDate.ReadsWhatIsWritten | xtask/src/release.rs:1116-1151 | a real date and time written in the fixed form is read back as its exact second count, or refused before 1970, whatever weekday it carries |
| HttpDate.ParsesExactly | xtask/src/release.rs:1116-1151 | every text of words behind one comma, with any padding and gaps, is read by one rule: day, month name, year, time of at least three parts, zone, and nothing else; otherwise refused |
| HttpDate.MonthNames | xtask/src/release.rs:1120-1134 | the twelve month names with their numbers, and no other text |
| HttpDate.UnsignedNumbers | xtask/src/release.rs:1119-1139 | which texts are unsigned 32-bit numbers, and which number each is |
| HttpDate.SignedNumbers | xtask/src/release.rs:1135 | the same for the signed year |
| HttpDate.SplitsEverywhere | xtask/src/release.rs:1136 | the time is split at every colon and nowhere else |
| HttpDate.CommaNeeded | xtask/src/release.rs:1117 | a text without a comma is refused |
| Publish.ValidatePublishDependencyOrder | xtask/src/release.rs:1304-1331 | with unique names, accepted exactly for topological orders of the declared graph |
| Publish.AcceptedGraphIsAcyclic | xtask/src/release.rs:1304-1331 | acceptance rules out cycles of every length |
| Publish.RunPublish | xtask/src/release.rs:959-1001 | the loop with its retries produces the reference log |
| Publish.RunIsBounded | xtask/src/release.rs:959-1001 | at most max(retries, 1) uploads per package, every wait between 1 and max(1, limit), success exactly when every package is present |
| Publish.EventsAreExplained | xtask/src/release.rs:959-1001 | every event of every run: a skip is of a known package, an upload the next attempt after rejected ones, with the registry's reply, a wait follows a rejected attempt that is not the last and lasts exactly as long as Retry-After or the policy asks, within the limits |
| Publish.RunSucceedsExactly | xtask/src/release.rs:959-1001 | a run succeeds exactly when every package is known or one of its permitted attempts is accepted |
| Publish.WaitIsDue | xtask/src/release.rs:1079-1115 | the wait: what Retry-After asks for, the policy's delay without it, one second for a time that has passed, at least 1 and at most the limit |
| Publish.EarlierPackagesFirst | xtask/src/release.rs:959-1001 | whenever something is done for a package, everything listed earlier is already present |
| Publish.DependenciesPublishedFirst | xtask/src/release.rs:959-1001 | direct and indirect dependencies are present before any upload of a package is tried |
| Graph.EnsureNoPath | xtask/src/architecture.rs:154-178 | terminates and reports a real path of at least one edge exactly when there is one |
| Graph.DependsOn | xtask/src/desktop.rs:501-515 | a hit is a real path; a miss means everything newly seen was explored in full |
| Graph.ReleaseJobDependsOn | xtask/src/desktop.rs:501-515 | from an empty seen set it decides the same question |
| Manifest.TomlTableBodyStart | xtask/src/release.rs:796-805 | the line loop finds the reference offset |
| Manifest.BodyFollowsMarker | xtask/src/release.rs:796-805 | a found body follows a line equal to the marker |
| Manifest.NoEarlierMarker | xtask/src/release.rs:796-805 | it is the first such line, and a missing body means there is none |
| Manifest.TrimmedLine | xtask/src/release.rs:796-805 | a line is the marker exactly when only line ends follow it |
| Manifest.ReadsFirstVersion | xtask/src/release.rs:782-795 | the version read is the first one behind the marker, up to the next quote, and none is read without |
| Manifest.ReplaceIsLocal | xtask/src/release.rs:763-795 | reading works exactly when replacing does, and only the value changes |
| Manifest.ReadAfterReplace | xtask/src/release.rs:763-795 | read after replace gives the new version if and only if it has no quote |
| Manifest.ReplaceWithCurrent | xtask/src/release.rs:763-795 | replacing with the current version changes nothing |
| Manifest.LastReplaceWins | xtask/src/release.rs:763-780 | the last of two replacements wins if and only if the first has no quote |
| McpSlots.StepKeeps | crates/starweaver-agent/src/mcp_live.rs:178-282 | every step of prepare, exit, removal and cancellation keeps the slot invariant |
| McpSlots.ConnectionsAreReachable | crates/starweaver-agent/src/mcp_live.rs:218-246 | in every run each open connection sits in its run's current slot, at most one per run |
| McpSlots.ConnectionsAreOpened | crates/starweaver-agent/src/mcp_live.rs:218-246 | in every run each connect of a lock holder: with a connection it is reused; without, success opens exactly one new connection in the run's current slot, and failure opens nothing and hands the lock on |
| McpSlots.PrepareEnters | crates/starweaver-agent/src/mcp_live.rs:218-233 | a prepare gets or makes the run's slot and has its lock or is last in line |
| McpSlots.FinishedPrepareKeeps | crates/starweaver-agent/src/mcp_live.rs:236-246 | a finished prepare keeps the connection and hands the lock on |
| McpSlots.ExitEnters | crates/starweaver-agent/src/mcp_live.rs:248-262 | an exit enters the run's slot, or has nothing to do without one |
| McpSlots.CloseTakesOne | crates/starweaver-agent/src/mcp_live.rs:262-282 | a successful close takes exactly the slot's connection, a failed one keeps it; the lock is handed on |
| McpSlots.CancelLeaves | crates/starweaver-agent/src/mcp_live.rs:178-282 | a cancelled task hands its lock on or gives up its place in line, and nothing else changes |
| McpSlots.RemovalIsSafe | crates/starweaver-agent/src/mcp_live.rs:178-188 | a dropped slot is empty, free and awaited by nobody |
| McpSlots.RemovalIsExact | crates/starweaver-agent/src/mcp_live.rs:178-188 | a slot is dropped exactly when it is the run's current one, empty, and nobody works on it or waits for it |
| McpSlots.OnlyExitCloses | crates/starweaver-agent/src/mcp_live.rs:248-282 | a connection disappears exactly in a successful exit of its own run; failures and cancellations keep it |
| Product.ProductDatabase.ClaimNextQueued | examples/python/claw_product_runtime.py:707-737 | claims the earliest queued run for exactly this runtime, keeps the marker of a recovered run, and touches no other run or row |
| Product.ProductDatabase.UpdateRunStatus | examples/python/claw_product_runtime.py:757-836 | the whole new run and session row; ending or suspending clears the claim |
| Product.ProductDatabase.RecoverOrphanRunning | examples/python/claw_product_runtime.py:596-618 | exactly the running runs are queued again without claim, with session and prompt kept; exactly the rows that show such a run, or one queued again earlier, become idle; nothing else changes |
| Product.RecoverySettles | examples/python/claw_product_runtime.py:596-618 | every session keeps its active run and prompt, nothing is left running and no row shows a recovered run, and a second recovery changes nothing |
| Product.ProductDatabase.FindActiveRun | examples/python/claw_product_runtime.py:635-644 | the latest queued, running or waiting run of the session |
| Product.ProductDatabase.CreateRun | examples/python/claw_product_runtime.py:646-691 | a queued run without claim and the session row that shows it; an unknown session changes nothing |
| Product.ProductDatabase.MergeQueuedInput | examples/python/claw_product_runtime.py:693-704 | the new text behind a line break, everything else of the run kept |
| ProductHistory.AtMostOneActiveRun | examples/python/claw_product_runtime.py:2992-3021 | in every history a session has at most one active run, and exactly the running runs carry a claim |
| ProductHistory.EndedForever | examples/python/claw_product_runtime.py:3125-3265 | a run that left the active states never returns |
| ProductHistory.StreamedPromptIsComplete | examples/python/claw_product_runtime.py:693-737 | a claimed run works on the newline join of every text submitted while it was queued, recoveries included |
| ProductHistory.FateOfText | examples/python/claw_product_runtime.py:2992-3014 | a text is kept, steered or refused; only a session waiting for a human answers without keeping it |
| ProductHistory.OwnedSinceBegin | examples/python/claw_product_runtime.py:3125-3185 | in every history a run takes steering exactly as long as its stream has begun in this process and neither returned nor failed since; an exception before the guarded part leaves it behind |
| ProductHistory.ClaimNamesClaimant | examples/python/claw_product_runtime.py:706-737 | in every history a running run carries the name of the runtime that claimed it last, as the earliest queued run, and has been running since |
| ProductHistory.EventsMoveRuns | examples/python/claw_product_runtime.py:2992-3185 | every event and what it does to the status and the coroutine of every run |
| ProductHistory.EndedFlipsExactly | examples/python/claw_product_runtime.py:3157-3185 | an ended run changes its status in a step if and only if that is an exception after its completion or a successful approval after its failure |
| ProductHistory.EndedStatusKept | examples/python/claw_product_runtime.py:3125-3265 | over any stretch of a history an ended run keeps its status throughout if and only if it contains no such step |
| ProductHistory.CompletedCanBecomeFailed | examples/python/claw_product_runtime.py:3157-3185 | a history in which a completed run ends as failed |
| ProductHistory.FailedCanBecomeCompleted | examples/python/claw_product_runtime.py:3023-3071 | a history in which a failed run ends as completed |
| RootDigest.RootSetDigest | crates/starweaver-agent/src/materialization.rs:768-786 | the hasher is fed exactly the length-prefixed stream |
| RootDigest.StreamDeterminesRoots | crates/starweaver-agent/src/materialization.rs:768-786 | two streams are equal if and only if scopes and sets of roots are |
| RootDigest.StreamByHand | crates/starweaver-agent/src/materialization.rs:768-786 | the hashed bytes of one set of roots, character by character |
| Order.DictionaryOrder | crates/starweaver-agent/src/materialization.rs:768-786 | the roots are sorted as in a dictionary |
| Materialization.StoreThenLoad | crates/starweaver-agent/src/materialization.rs:206-269 | evidence survives storing and loading exactly when its fingerprint verifies; other metadata is untouched |
| Materialization.LoadThenStore | crates/starweaver-agent/src/materialization.rs:206-269 | whatever loads verifies, and storing it back changes nothing |
| Materialization.LoadsExactly | crates/starweaver-agent/src/materialization.rs:206-269 | which metadata loads as what: absent, malformed for its version, invalid, or the record |
| Materialization.AddingToolset | crates/starweaver-agent/src/materialization.rs:128-164 | adding toolsets one by one equals starting with all of them, as a set |
| Materialization.NewRecord | crates/starweaver-agent/src/materialization.rs:128-164 | a new record holds the given identities, sorted toolsets, no host bindings, the current version and the digest of just that |
| Materialization.ToolsetsAreASet | crates/starweaver-agent/src/materialization.rs:128-153 | neither the order of toolset identities nor repetition shows in the evidence |
| Materialization.RefreshedIsValid | crates/starweaver-agent/src/materialization.rs:155-200 | a rebuilt record verifies exactly when it is of the current version |
| Materialization.FingerprintIdentifies | crates/starweaver-agent/src/materialization.rs:182-301 | fingerprints of verified records identify them |
| Materialization.AssessContinuation | crates/starweaver-agent/src/materialization.rs:390-467 | the drift list is built field by field as the reference decision says |
| Materialization.ReportIsExact | crates/starweaver-agent/src/materialization.rs:396-453 | the report names exactly the drifting fields |
| Materialization.ReportIsSpelledOut | crates/starweaver-agent/src/materialization.rs:396-460 | the report entry by entry, source value before target value, in the order of the record; host bindings of a version 1 source always; one entry for missing evidence |
| Materialization.PreserveMeansSameFingerprint | crates/starweaver-agent/src/materialization.rs:454-460 | between verified current records Preserve is allowed exactly for equal fingerprints |
| Materialization.PreserveAllVersions | crates/starweaver-agent/src/materialization.rs:454-460 | over all verified records an allowed Preserve means equal fingerprints exactly for current targets |
| Materialization.UnboundSourceNeedsSwitch | crates/starweaver-agent/src/materialization.rs:418-460 | a version 1 source, or none, is allowed only under Switch |
| Materialization.CompatibleChain | crates/starweaver-agent/src/materialization.rs:454-460 | a chain of Compatible steps is one Compatible step |
| Materialization.DecisionIsBound | crates/starweaver-agent/src/materialization.rs:500-511 | a decision made for one source and target validates exactly when it allowed the continuation and is presented with that very pair of verified records |
| Segments.Split | crates/starweaver-agent/src/media_compression.rs:100-139 | an image within the limit stays whole; otherwise number, top and height of every band; the number is ceil((height - overlap) / step), at least one |
| Segments.CoversExactlyWhen | crates/starweaver-agent/src/media_compression.rs:118-139 | all rows are covered if and only if the overlap is smaller than a band |
| Segments.BandShape | crates/starweaver-agent/src/media_compression.rs:118-139 | bands fit the limit, neighbours are one step apart and share exactly the overlap |
| Segments.LastEnd | crates/starweaver-agent/src/media_compression.rs:118-139 | the last band ends at the last row if and only if the overlap is smaller than a band |
| Segments.BandsAreExact | crates/starweaver-agent/src/media_compression.rs:118-139 | top and height of every band, and that no band follows once the next would start within the overlap of the end |

## Left out

- ResumeHistory.InjectedAtMostOnce: assumes that the source's evidence is sealed, that nobody overwrites the source with the unfenced `append_run` or `update_run_status`, and that an idempotency key in use is not used for another session; nothing is assumed about claims, leases, clocks, faults or interleaving.
- ResumeHistory.EffectsAreOwnedOrConcluded: assumes that the identifiers of a call under way (claim, admission, continuation, idempotency key) are its own, that its source is sealed and neither source nor continuation is overwritten without a fence, and that a host begins with a continuation that has committed nothing and is not waiting; a host whose lease, source and claim do not match is included.
- ResumeEviction.UnownedExactlyWhenEvicted: under the same assumptions.
- ResumeFindings.FinalizesUnlessSuspended: three undisturbed polls; a lease that expires in between is the subject of `ResumeFindings.SuspendedAgainIsCancelled`.
- InMemoryStore.InMemorySessionStore.AcquireRunAdmission: namespaces and run sequence numbers are not modelled.
- InMemoryStore.InMemorySessionStore.CommitRunEvidence: the record-level checks of a bundle are one flag; outbox, approval and deferred rows are not modelled here.
- ResumeCalls.CallsAreRegular: store errors are one `Err`; error kinds and messages are not distinguished.
- StoreSafety.CrossingsAreBounded: counts crossings by `start_hitl_resume_effect`; the older `mark_hitl_resume_started` is among the operations of a history, but whoever injects after it alone is not counted.
- Store: the marker of an indeterminate effect survives a commit, as it does when the committing client has reloaded the record. Namespaces, sequence numbers, revisions, timestamps, head pointers, host events, run-control intents, approval and deferred records inside evidence, and the SQLite store are not modelled; `intact` stands for the remaining checks of an evidence bundle.
- Resume: the text of snapshots and checkpoints, model calls and tool bodies; the stream only reports how it ended. The heartbeat task is any other client's renewal; the live check after the fence is a free choice.
- Resolver: metadata of tool returns, and the argument rewriting of an approved call, are opaque values; a deferred return carries only its marker.
- Evidence: the projector is a parameter; scopes and bodies of events are opaque.
- OutboxHistory.CleanFlushDelivers: one flush at a time; overlapping flushes are the subject of `OutboxInterleaved`. Sinks are logs that may hold an item twice, as retries deliver at least once.
- CivilDays.HttpDateCountsSeconds: speaks of real dates and times; others are the subject of `CivilDays.UnrealDates` and `CivilDays.AnyTimeCounts`.
- HttpDate: only ASCII white space separates words; finding the header line in command output is not modelled.
- Publish.RunPublish: environment variables and command output are parameters; a Retry-After date is given in whole seconds.
- Manifest: offsets count characters where the program counts bytes.
- McpSlots: a step machine on values; the map, cells and locks are not objects in place.
- McpSlots.ConnectionsAreReachable: slot lookup and queueing for its lock are one step, the lock is first-in first-out, and connecting either yields a connection or leaves none behind.
- ProductHistory.AtMostOneActiveRun: one live coordinator; sessions that get runs from workflows or agencies, overlapping approvals of one run, and the orphaning hook are excluded. Run ids are creation order, so equal timestamps do not occur.
- Product.ProductDatabase.UpdateRunStatus: native ids, outputs, saved states, workspace and sandbox columns are not modelled.
- ProductHistory: what the session row shows while a late failure or approval overlaps a new run is not claimed.
- Materialization: the digest is an abstract function of the fingerprinted fields, collision-free where a lemma says so; the projection of an agent specification is opaque text.
- Segments: decoding, cropping and encoding, and the compression search loop, would only add abstract functions.
- Cassette scrubbing, coverage, snapshots, documentation and smoke checks, the command line, MCP transport and the desktop interface: file, process and string plumbing.
