# Verified models of the BCSP application core

This project models the concurrent and data-shaping core of the BCSP course-schedule application in
Dafny and proves what that core promises. It covers six components.

**Publication of prepared serving generations.** An immutable snapshot caches an authoritative store.
Writers take numbered dirty tickets around each store transaction; one worker rebuilds, publishes by
compare-and-swap and clears exactly the tickets it covered; readers bind only while admission is open.
`DirtyTickets` is the ticket table, as flat operations and as the registry object with its nested maps.
`Publication` is the whole protocol as a transition system over a store of versioned resources;
`PublicationTickets` and `PublicationFreshness` hold the invariant, `PublicationTheorems` the results
over runs. `RebuildWorker` is the worker's own loop state and `WorkerRuns` ties its settling to the
protocol; `OptimisticBuild` is the non-atomic builder over a store history; `BuildTraces` and `BuildRuns`
put its reads back into a run of the protocol.
`OpenPersistence` is the object that opens and closes a barrier around each terminal transaction of an
Open pull.

**The bounded refresh supervisor.** `Supervisor` interleaves the runtime handle, the select loop and
the workflow tasks; `SupervisorInvariants` and `SupervisorTheorems` hold the proofs; `RefreshHandle` is the
handle object, `ManualRetry` the retry generations that go through it.

**Outbound byte accounting.** `Outbound` takes every atomic operation of senders and pumps as a step;
`OutboundTheorems` has conservation, delivery and verdicts, `OutboundTeardown` how a connection comes down.

**The semantic JSON canonicalizer.** `Json` prints values and `JsonReader` reads them back; `HashPreimage`
adds UTF-8 and the domain tags; `Canonical`, `CanonicalOrder` and `CanonicalTheorems` define the normalizer
and characterize it, and `CanonicalMeaning` says what it does to each kind of value; `Canonicalizer` is the
recursive procedure with its mutable path.

**Filter dictionaries.** `FilterCatalog`, `FilterSummary`, `FilterOptions` and `FilterService` prove the
prepared option listing equal to the one-pass reference; `FilterText`, `FilterRecords` and `FilterAnswers`
tell the answer from the Catalogs' records alone; `DynamicFilters` does the same for validation,
with `FilterValues` for the normalization every request goes through and `SortedLists` for the lists.

**WAL maintenance.** `WalMaintenance` has the due flag, the starvation detector, the escalation policy,
one maintenance run and the driver.

Five expectations turn out not to hold as stated. Each comes with a witness and with the exact condition:

- The failed-rebuild fallback compares discovery, Catalog generations and readiness only. It can reopen
  binding on an Open overlay that a committed transaction has superseded (`FallbackServesStaleOverlay`).
  Whatever else is going on, an unmasked overlay is then current if and only if it already reflected what
  the batches let go had committed (`FallbackExactness`, `ServingSafety`); re-reading it ends the gap
  (`RereadMeetsWaived`), and without a fallback there is none (`NoFallbackNoGap`).
- A comment in the pump speaks of one verdict per teardown. A sender can count an overflow between the
  pump's look at the kill flag and its own count (`TwoVerdictsHappen`); two verdicts are due exactly in that
  window (`VerdictsPerConnection`).
- Registering a target that is still marked as removed puts a second coordinator beside the one that is
  away: two Open pulls of it can overlap and a later removal can be lost (`HastyRegistrationPullsTwice`,
  `HastyRemovalIsLost`). Every coordinator stays in one place exactly in the runs that never do so
  (`PlacementIffCalm`), and the supervisor's guarantees hold in every run until it first does.
- WAL escalations are meant to keep a minimum interval. One that fails is not recorded, so the next may
  follow at once (`FailedEscalationIsForgotten`). Escalations are spaced if and only if no run, at its turn,
  escalates for an Open commit within the interval after a last escalation that failed or had no answer
  (`OneRunSpaced`, `SpacedExactly`); so they are when all of them complete (`CompletedHistoryIsSpaced`).
- The starvation detector is meant to see every PASSIVE report. A failed escalation leaves the run before
  its report is kept, so failing restarts hide starvation for good (`FailingRestartsHideStarvation`); the
  detector is true to all reports if and only if no such run had a report that would have moved it
  (`DetectorExactly`).

Assumptions: locks are not poisoned, tasks do not panic (except where a lost task is a parameter),
fewer than 2^64 - 1 epochs are issued, calls on one runtime handle are sequential, and the store's
version counters only grow.

## Model

| member | source | states |
|---|---|---|
| `DirtyTickets.PreparedServingRegistry.NextDirtyEpoch` | crates/bcsp-application/src/prepared_serving.rs:1871-1874 | the epoch counter counts up and saturates at the top of the 64-bit range |
| `DirtyTickets.PreparedServingRegistry.MarkFullDirty` | crates/bcsp-application/src/prepared_serving.rs:1635-1643 | the table gains exactly one Precommit Full ticket of the next epoch |
| `DirtyTickets.PreparedServingRegistry.MarkOpenDirty` | crates/bcsp-application/src/prepared_serving.rs:1667-1682 | the table gains exactly one Precommit Open ticket of the target |
| `DirtyTickets.PreparedServingRegistry.CommitFullDirty` | crates/bcsp-application/src/prepared_serving.rs:1645-1656 | a known Full ticket becomes Committed, an unknown one is refused with nothing changed |
| `DirtyTickets.PreparedServingRegistry.CommitOpenDirty` | crates/bcsp-application/src/prepared_serving.rs:1684-1700 | the same for an Open ticket |
| `DirtyTickets.PreparedServingRegistry.RollbackFullDirty` | crates/bcsp-application/src/prepared_serving.rs:1658-1665 | removes the ticket only while it is Precommit |
| `DirtyTickets.PreparedServingRegistry.RollbackOpenDirty` | crates/bcsp-application/src/prepared_serving.rs:1731-1748 | the same for an Open ticket, leaving no empty target entry to mask with |
| `DirtyTickets.PreparedServingRegistry.ConvertFullDirtyToOpen` | crates/bcsp-application/src/prepared_serving.rs:1702-1729 | swaps one Precommit Full ticket for one Committed Open ticket, or restores the table |
| `DirtyTickets.PreparedServingRegistry.ClearFullTickets` | crates/bcsp-application/src/prepared_serving.rs:1750-1757 | removes exactly the completed tickets that are past Precommit |
| `DirtyTickets.PreparedServingRegistry.ClearOpenTickets` | crates/bcsp-application/src/prepared_serving.rs:1759-1771 | the same for one target's Open tickets |
| `DirtyTickets.PreparedServingRegistry.PromoteOpenTicketsToFull` | crates/bcsp-application/src/prepared_serving.rs:1773-1807 | replaces a whole batch by one Committed Full ticket exactly when every ticket of it is Committed and every listed target has one; otherwise nothing changes |
| `DirtyTickets.PreparedServingRegistry.Snapshot` | crates/bcsp-application/src/prepared_serving.rs:1532-1556 | binds exactly when a generation exists and every ticket is an Open one still in its Precommit window, masking exactly the targets those tickets name; says it is rebuilding exactly when some ticket is Full or Committed |
| `DirtyTickets.BindExactly` | crates/bcsp-application/src/prepared_serving.rs:1532-1556 | the same of the ticket table alone, for every table and every current generation |
| `RebuildWorker.RebuildQueue.MergeRequest` | crates/bcsp-application/src/prepared_serving.rs:644-660 | the pending ticket set grows by the request's ticket and nothing else |
| `RebuildWorker.RebuildQueue.DrainChannel` | crates/bcsp-application/src/prepared_serving.rs:413-422 | everything waiting becomes pending, and a shutdown request anywhere in it is remembered |
| `RebuildWorker.RebuildQueue.TakeBatch` | crates/bcsp-application/src/prepared_serving.rs:424-435 | takes every pending Full ticket, or if there is none every Open one, and leaves exactly the rest pending |
| `RebuildWorker.RequeueOpenTickets` | crates/bcsp-application/src/prepared_serving.rs:662-672 | the merged batch is the union of both batches, ticket by ticket |
| `RebuildWorker.RebuildQueue.ClearExecutedOpen` | crates/bcsp-application/src/prepared_serving.rs:474-480 | clearing target by target clears the whole batch |
| `RebuildWorker.RebuildQueue.Settle` | crates/bcsp-application/src/prepared_serving.rs:474-576 | a Committed ticket of the batch leaves the table only when a generation was published, when a failed Full rebuild found its source unchanged, or when one pending Committed Full ticket replaces the whole Open batch; outside shutdown and cancellation a ticket that stays is pending again |
| `RebuildWorker.SettledTickets` | crates/bcsp-application/src/prepared_serving.rs:474-576 | for each ticket of a settled batch: why it has gone, or where it is if it stays |
| `WorkerRuns.SettlingIsRun` | crates/bcsp-application/src/prepared_serving.rs:423-588 | every way of settling a batch goes from a reachable state of the protocol to a reachable one, by the worker steps it stands for |
| `WorkerRuns.OnlyCoveredIsCleared` | crates/bcsp-application/src/prepared_serving.rs:474-534 | tickets are cleared only from an execution that a published generation or an unmoved foundation covers |
| `PublicationTickets.TicketInvStep` | crates/bcsp-application/src/prepared_serving.rs:189-314 | every step of every participant keeps ticket ownership and placement |
| `PublicationFreshness.InvStep` | crates/bcsp-application/src/prepared_serving.rs:423-588 | every step keeps: the latest version of each resource is served, or some live ticket answers for it, or the fallback has let a later ticket go |
| `PublicationFreshness.NarrowStep` | crates/bcsp-application/src/prepared_serving.rs:268-305 | narrowing hands everything the Full ticket answered for to its Open heir |
| `PublicationFreshness.PromoteStep` | crates/bcsp-application/src/prepared_serving.rs:499-525 | promotion hands everything a batch answered for to one Full heir |
| `PublicationFreshness.ClearStep` | crates/bcsp-application/src/prepared_serving.rs:474-481 | clearing covered tickets in any order uncovers nothing |
| `PublicationFreshness.CheckOverlayStep` | crates/bcsp-application/src/prepared_serving.rs:2482-2488 | looking at Catalog and readiness of a target, as a step of its own, keeps the invariant |
| `PublicationFreshness.ReadOverlayStep` | crates/bcsp-application/src/prepared_serving.rs:2490-2499 | reading the Open state of a target looked at before, whatever was committed in between, keeps it |
| `PublicationFreshness.PublishStep` | crates/bcsp-application/src/prepared_serving.rs:1809-1864 | a published generation reflects every commit its batch stood for |
| `PublicationFreshness.LookAtStep` | crates/bcsp-application/src/prepared_serving.rs:1135-1176 | finding one part of the foundation unmoved, as a step of its own before the fallback, keeps the invariant |
| `PublicationFreshness.FallbackStep` | crates/bcsp-application/src/prepared_serving.rs:526-534 | the fallback keeps the invariant and records the tickets it lets go |
| `PublicationTheorems.RunKeepsInv` | crates/bcsp-application/src/prepared_serving.rs:376-597 | the whole invariant holds in every state of every run |
| `PublicationTheorems.ServingSafety` | crates/bcsp-application/src/prepared_serving.rs:1492-1557 | a successful bind reflects every committed discovery and Catalog change, and for unmasked targets their readiness; an unmasked overlay is current if and only if it meets every ticket a fallback let go |
| `PublicationTheorems.RereadMeetsWaived` | crates/bcsp-application/src/prepared_serving.rs:2469-2521 | Open state read when no fallback follows meets every ticket let go, so publishing it ends the gap |
| `PublicationTheorems.NoFallbackNoGap` | crates/bcsp-application/src/prepared_serving.rs:526-534 | in a run without fallbacks every unmasked overlay bound is current |
| `PublicationTheorems.PublishedNeverRegresses` | crates/bcsp-application/src/prepared_serving.rs:1809-1864 | neither the generation number nor any version served ever goes back, over whole runs and through targets that leave and return |
| `PublicationTheorems.TicketConservation` | crates/bcsp-application/src/prepared_serving.rs:410-588 | before shutdown each Committed ticket is in exactly one of barrier, channel, pending and executing; no other ticket is anywhere |
| `PublicationTheorems.IdleMeansOpen` | crates/bcsp-application/src/prepared_serving.rs:1879-1885 | an idle worker with no live barriers means nothing is dirty and binding is open and unmasked |
| `PublicationTheorems.OpenPullsOnlyMask` | crates/bcsp-application/src/prepared_serving.rs:1492-1557 | in every run: binding is open exactly when there is a generation and every live ticket is that of an undecided Open barrier, and it masks exactly the targets of those barriers |
| `PublicationTheorems.NoBarrierOnceStopped` | crates/bcsp-application/src/prepared_serving.rs:106-119 | once barriers are refused or the worker has gone, none begins again |
| `PublicationTheorems.GuardIsExclusive` | crates/bcsp-application/src/prepared_serving.rs:1809-1864 | one rebuild at a time: another may begin exactly when none holds the guard, and publishing and abandoning both give it back |
| `PublicationTheorems.RegistryCallsSucceed` | crates/bcsp-application/src/prepared_serving.rs:285-303 | the fail-closed branches for a failed commit, narrowing, promotion or swap are never reached |
| `PublicationTheorems.FallbackExactness` | crates/bcsp-application/src/prepared_serving.rs:526-534 | in every run, beside any other tickets and rebuilds: the overlay of a target bound unmasked after the fallback is current if and only if it already reflected this batch and those let go before |
| `PublicationTheorems.FallbackServesStaleOverlay` | crates/bcsp-application/src/prepared_serving.rs:1135-1176 | a run in which the fallback reopens binding on a superseded overlay |
| `OptimisticBuild.ConstantGeneration` | crates/bcsp-application/src/prepared_serving.rs:2208-2219 | a generation seen unchanged at two moments was in force throughout |
| `OptimisticBuild.ProjectOverlay` | crates/bcsp-application/src/prepared_serving.rs:2469-2521 | an overlay pairs evidence with the sequence numbers of one and the same Open state, or carries no evidence; refusal means the Catalog was not the one asked for |
| `OptimisticBuild.Build` | crates/bcsp-application/src/prepared_serving.rs:2101-2305 | a build that succeeds had discovery, every Catalog and the corpus current from one moment until another, read all its overlays between the two, and is what the protocol holds after the reads in its trace; a store that holds still is built unless the rebuild is cancelled or memory is scarce, and every error has its cause |
| `OptimisticBuild.ReadFoundation` | crates/bcsp-application/src/prepared_serving.rs:2127-2203 | the first half of a build has read everything it holds between known moments; it fails only when cancelled |
| `OptimisticBuild.Validate` | crates/bcsp-application/src/prepared_serving.rs:2217-2231 | agreement means discovery, every generation and then the corpus were seen again; disagreement names a moment at which the store differed |
| `OptimisticBuild.RebuildOverlays` | crates/bcsp-application/src/prepared_serving.rs:2407-2467 | only the listed overlays are replaced, the foundation is shared untouched, unknown targets are refused, and the protocol rebuild of them is complete |
| `BuildRuns.BesideBuild` | crates/bcsp-application/src/prepared_serving.rs:1809-1864 | no other participant depends on what a rebuild has read or replaces the generation under it |
| `BuildRuns.Interleave` | crates/bcsp-application/src/prepared_serving.rs:2101-2305 | reads made at moments of their own while others went on can be put between their steps, giving a run of the protocol |
| `BuildRuns.WholeBuildIsRun` | crates/bcsp-application/src/prepared_serving.rs:2101-2305 | a validated generation is one a run publishes: stamped with the store of one moment and with the Open versions its sequence numbers were read at |
| `BuildRuns.OverlayRebuildIsRun` | crates/bcsp-application/src/prepared_serving.rs:2407-2467 | so is a rebuild of overlays, on the served foundation |
| `OpenPersistence.PublicationDemand.BeginPublication` | crates/bcsp-application/src/prepared_serving.rs:317-327 | opens a Full barrier and counts one admission, or changes nothing once the gate is closed |
| `OpenPersistence.PublicationDemand.BeginOpenPublication` | crates/bcsp-application/src/prepared_serving.rs:329-341 | the same for an Open barrier |
| `OpenPersistence.PublicationDemand.CommitFull` | crates/bcsp-application/src/prepared_serving.rs:241-266 | commits the ticket and queues it if the channel is open; the admission is returned |
| `OpenPersistence.PublicationDemand.CommitOpen` | crates/bcsp-application/src/prepared_serving.rs:190-227 | the same for an Open barrier |
| `OpenPersistence.PublicationDemand.CommitAsOpen` | crates/bcsp-application/src/prepared_serving.rs:268-305 | narrows and queues the Open ticket, or asks for a Full rebuild |
| `OpenPersistence.PublicationDemand.DropFull` | crates/bcsp-application/src/prepared_serving.rs:308-314 | rolls an undecided barrier back and returns its admission |
| `OpenPersistence.PublicationDemand.DropOpen` | crates/bcsp-application/src/prepared_serving.rs:230-238 | the same for an Open barrier |
| `OpenPersistence.ShortLockOpenPersistence.BeginAttempt` | crates/bcsp-application/src/refresh_coordinator.rs:1813-1829 | only a serving pull whose attempt began remembers its target, and a failed begin forgets it |
| `OpenPersistence.ShortLockOpenPersistence.FinishSuccess` | crates/bcsp-application/src/refresh_coordinator.rs:1831-1954 | succeeds exactly when the transaction commits, barriers are admitted and a serving pull has an attempt; for every storage outcome, fallback included, it says which terminal is committed, and leaves one Committed ticket for it, Full exactly when a Catalog was published |
| `OpenPersistence.ShortLockOpenPersistence.FinishCandidateSuccess` | crates/bcsp-application/src/refresh_coordinator.rs:1858-1933 | the candidate's Full barrier ends committed, narrowed or rolled back, fallback terminal included |
| `OpenPersistence.ShortLockOpenPersistence.FinishServingSuccess` | crates/bcsp-application/src/refresh_coordinator.rs:1836-1853 | a serving pull's barrier is committed with its transaction; an earlier one left behind is rolled back |
| `OpenPersistence.ShortLockOpenPersistence.FinishFailure` | crates/bcsp-application/src/refresh_coordinator.rs:1956-2016 | succeeds exactly when the failure terminal commits, barriers are admitted and a serving pull has an attempt; then that terminal is committed and leaves one Committed Open ticket, otherwise nothing is |
| `OpenPersistence.ShortLockOpenPersistence.Session` | crates/bcsp-application/src/refresh_coordinator.rs:1715-2016 | over any calls and outcomes and the final drop, the terminals committed are exactly those the calls and outcomes determine; new tickets match them one to one and none stays Precommit; admissions return to their count |
| `OpenPersistence.ShortLockOpenPersistence.Calls` | crates/bcsp-application/src/refresh_coordinator.rs:1715-2016 | the same before the drop, with at most one barrier of the object still parked |
| `OptimisticBuild.ConstantBatch` | crates/bcsp-application/src/prepared_serving.rs:2469-2521 | an Open batch number seen unchanged at two moments was in force throughout, which is what pairing evidence with sequence numbers relies on |
| `OptimisticBuild.ReadGenerations` | crates/bcsp-application/src/prepared_serving.rs:2136-2143 | every target gets a generation that was current at some moment of the pass |
| `OptimisticBuild.ReadCatalogs` | crates/bcsp-application/src/prepared_serving.rs:2144-2203 | exactly the ready targets get a Catalog, each one current at some moment of the pass; a missing one is reported only if it had vanished |
| `OptimisticBuild.ValidateGenerations` | crates/bcsp-application/src/prepared_serving.rs:2217-2227 | agreement means every generation was seen again; disagreement names a moment at which one had moved |
| `OptimisticBuild.ProjectOverlays` | crates/bcsp-application/src/prepared_serving.rs:2407-2467 | every listed target gets a freshly read overlay, all others keep theirs, each refusal has its cause, and the reads made are reads of the protocol with those stamps |
| `OpenPersistence.PublicationDemand.Admit` | crates/bcsp-application/src/prepared_serving.rs:106-119 | an admission is counted exactly while the gate is open, saturating at the word size |
| `OpenPersistence.PublicationDemand.Release` | crates/bcsp-application/src/prepared_serving.rs:158-170 | an admission is returned, never below zero |
| `OpenPersistence.ShortLockOpenPersistence.FinishCandidateFailure` | crates/bcsp-application/src/refresh_coordinator.rs:1956-2016 | a candidate failure terminal commits its Open barrier with its transaction or rolls it back |
| `OpenPersistence.ShortLockOpenPersistence.FinishServingFailure` | crates/bcsp-application/src/refresh_coordinator.rs:1956-2016 | the same for a serving pull, and no barrier stays parked after it |
| `SupervisorInvariants.StepKeepsInv` | crates/bcsp-application/src/refresh_runtime.rs:345-669 | every step of loop and tasks keeps placement, ownership, phases and gates; a processed command must fit the desk |
| `SupervisorTheorems.CommandApplies` | crates/bcsp-application/src/refresh_runtime.rs:345-464 | processing a command the handle may send changes the desk's view of its target exactly as the command says, wherever the coordinator is, and no other target's |
| `SupervisorTheorems.CalmRunKeepsInv` | crates/bcsp-application/src/refresh_runtime.rs:345-669 | the invariant and the agreement with the handle hold in every state a run reaches before its first hasty registration |
| `SupervisorTheorems.HandleAgreement` | crates/bcsp-application/src/refresh_runtime.rs:955-1010 | replaying the queued commands on the desk gives the handle's view; an empty queue means they agree; an idle coordinator has the desired demand |
| `SupervisorTheorems.OnePullPerTarget` | crates/bcsp-application/src/refresh_coordinator.rs:789-853 | two tasks pulling Open of one target are the same task |
| `SupervisorTheorems.NoServingOpenBesideCandidate` | crates/bcsp-application/src/refresh_coordinator.rs:1355-1361 | once a Catalog workflow has announced its candidate pull, no serving pull of that target starts until that workflow is gone |
| `SupervisorTheorems.ServingExactly` | crates/bcsp-application/src/refresh_coordinator.rs:789-853 | beside a workflow that has not finished, a concurrent Open holding the gate may start to pull exactly while the workflow is fetching or processing a Catalog |
| `SupervisorTheorems.ServingBesideCatalog` | crates/bcsp-application/src/refresh_runtime.rs:541-590 | from any such state with a concurrent Open waiting, its gate free and room for it, three steps lead to its pull beside the same workflow |
| `SupervisorTheorems.WatchedWaits` | crates/bcsp-application/src/refresh_runtime.rs:632-658 | exactly a dispatch for the Catalog of a watched target leaves a concurrent Open waiting |
| `SupervisorTheorems.ServingRepeats` | crates/bcsp-application/src/refresh_runtime.rs:508-530 | a concurrent Open that ends while its workflow runs leaves the next one waiting |
| `SupervisorTheorems.OnlyFinishFinishes` | crates/bcsp-application/src/refresh_runtime.rs:465-530 | a task has finished exactly when it had before or the step ends it |
| `SupervisorTheorems.CallsAreTerse` | crates/bcsp-application/src/refresh_runtime.rs:715-807 | registering and activating send a command exactly when they change something, and never more than one |
| `SupervisorTheorems.SupervisorPlacement` | crates/bcsp-application/src/refresh_runtime.rs:1013-1076 | a target's coordinator is in at most one place, in exactly one while it is known; primaries are unique, deferred completions match concurrent pulls, and the concurrency bound holds |
| `SupervisorTheorems.RemovedNeverReturns` | crates/bcsp-application/src/refresh_runtime.rs:455-463 | a target removed while away stays gone until it is registered again |
| `SupervisorTheorems.HastyStepDoubles` | crates/bcsp-application/src/refresh_runtime.rs:350-394 | taking up a registration of a target still marked as removed puts its coordinator in two places |
| `SupervisorTheorems.PlacementIffCalm` | crates/bcsp-application/src/refresh_runtime.rs:345-669 | for every run: each coordinator is always in at most one place if and only if the run takes up no such registration |
| `SupervisorTheorems.HastyRegistrationPullsTwice` | crates/bcsp-application/src/refresh_runtime.rs:345-400 | a run in which removal and registration around an away coordinator lead to two pulls of one target |
| `SupervisorTheorems.HastyRemovalIsLost` | crates/bcsp-application/src/refresh_runtime.rs:1013-1076 | a run in which a target the handle has removed is back at rest with nothing queued |
| `RefreshHandle.CallKeepsAgreement` | crates/bcsp-application/src/refresh_runtime.rs:693-927 | any handle call whose commands reflect its change of view keeps handle and supervisor in agreement |
| `RefreshHandle.RefreshRuntime.RegisterTarget` | crates/bcsp-application/src/refresh_runtime.rs:715-777 | registers or reclassifies with commands that reflect the change; stopped exactly when a command was needed and the channel is closed, with everything restored |
| `RefreshHandle.RefreshRuntime.ActivateOpen` | crates/bcsp-application/src/refresh_runtime.rs:779-807 | both errors exactly characterized; success sends one command for a target not yet active |
| `RefreshHandle.RefreshRuntime.RequestManualRetry` | crates/bcsp-application/src/refresh_runtime.rs:809-849 | a generation is sent only if newer than the last accepted one; every outcome is characterized exactly, and a refused or repeated call changes nothing |
| `RefreshHandle.RefreshRuntime.SyncProductDemand` | crates/bcsp-application/src/refresh_runtime.rs:851-877 | the active set becomes the demanded registered targets, by releases and activations of the difference only |
| `RefreshHandle.RefreshRuntime.RetainRegisteredTargets` | crates/bcsp-application/src/refresh_runtime.rs:888-927 | exactly the retained targets survive; with the channel open the removals reflect the change |
| `ManualRetry.TargetRefreshDemand.RequestManualTargetRetries` | crates/bcsp-application/src/target_refresh_demand.rs:123-147 | refused exactly when the generations would run out, with nothing changed; otherwise every requested target is pending, pending ones keep their generation, and one generation is issued for each of the others |
| `ManualRetry.TargetRefreshDemand.Acknowledge` | crates/bcsp-application/src/target_refresh_demand.rs:169-182 | removes a pending retry if and only if the generation is the pending one |
| `ManualRetry.OfferOne` | crates/bcsp-application/src/official_refresh_runtime.rs:668-696 | taken exactly when the target is registered and the channel is open or the generation is no news; a command is sent, and the generation recorded, exactly when it is taken and news |
| `ManualRetry.DispatchManualTargetRetries` | crates/bcsp-application/src/official_refresh_runtime.rs:668-696 | one scan sends each retry that is news exactly once and nothing else, and only over an open channel; a retry leaves the pending set exactly when the runtime took it |
| `ManualRetry.RunKeepsInv` | crates/bcsp-application/src/target_refresh_demand.rs:123-182 | over every interleaving of requests, offers and acknowledgements, numbering and delivery stay consistent |
| `ManualRetry.SentExactlyOnce` | crates/bcsp-application/src/refresh_runtime.rs:809-849 | no retry is sent twice, and one that is no longer pending was sent exactly once |
| `ManualRetry.GenerationsIncrease` | crates/bcsp-application/src/target_refresh_demand.rs:141-145 | generations are issued in strictly increasing order across targets |
| `ManualRetry.OnlyItsOwnAcknowledgement` | crates/bcsp-application/src/target_refresh_demand.rs:167-182 | a pending retry stays pending until that very generation is acknowledged |
| `ManualRetry.OfferExactly` | crates/bcsp-application/src/refresh_runtime.rs:809-849 | in the interleaved model too: an offer sends exactly what is news over an open channel, and entitles to acknowledge exactly what was sent or is no news |
| `Outbound.OutboundByteBudget.TryReserve` | crates/bcsp-application/src/host.rs:713-729 | a reservation is granted if and only if it fits the limit and the word size, and then counted |
| `Outbound.OutboundByteBudget.Drop` | crates/bcsp-application/src/host.rs:739-745 | dropping a reservation returns its bytes, wrapping as the machine word does |
| `Outbound.AccountFrame` | crates/bcsp-application/src/host.rs:813-830 | a frame holds its bytes in both budgets or in neither; each overflow is reported exactly when that budget has no room, the socket budget first |
| `OutboundTheorems.StepKeepsInv` | crates/bcsp-application/src/host.rs:931-956 | every atomic operation of every sender and pump keeps balance, delivery and verdict bookkeeping |
| `OutboundTheorems.RunKeepsInv` | crates/bcsp-application/src/host.rs:973-1131 | that invariant holds in every state of every run |
| `OutboundTheorems.ByteConservation` | crates/bcsp-application/src/host.rs:694-745 | each counter equals the bytes held by queued frames, half-made sends and the pump, and never exceeds its limit |
| `OutboundTheorems.RefusedExactly` | crates/bcsp-application/src/host.rs:713-729 | in every run a frame is refused its socket share exactly when what the connection holds leaves no room for it |
| `OutboundTheorems.RefusedGloballyExactly` | crates/bcsp-application/src/host.rs:713-729 | and its process-wide share exactly when what all connections hold together leaves none |
| `OutboundTheorems.NoUnderflow` | crates/bcsp-application/src/host.rs:739-745 | whatever any sender or pump holds is at most the counter it will subtract it from, so the subtraction never wraps |
| `OutboundTheorems.OrderedDelivery` | crates/bcsp-application/src/host.rs:1066-1100 | what the peer received is a prefix of what was accepted, in order |
| `OutboundTheorems.GoneHoldsNothing` | crates/bcsp-application/src/host.rs:1122-1131 | a finished connection without sends in progress holds no byte of either budget |
| `OutboundTheorems.VerdictsPerConnection` | crates/bcsp-application/src/host.rs:940-952 | at most one overflow and one timeout verdict; at most one in all unless an overflow and a timeout raced, and then both once counted |
| `OutboundTheorems.KilledIsForever` | crates/bcsp-application/src/host.rs:931-956 | a connection once marked dead stays dead |
| `OutboundTheorems.NoTimeoutOnceKilled` | crates/bcsp-application/src/host.rs:1090-1096 | a timeout not yet decided when the flag is set is never counted |
| `OutboundTeardown.KilledIsDying` | crates/bcsp-application/src/host.rs:931-1100 | once the kill flag is set, for ever: the pump turns to no new frame, only a frame it was writing can still be written, and senders that come later get nowhere |
| `OutboundTeardown.StopsForReason` | crates/bcsp-application/src/host.rs:994-1122 | the pump leaves its loop exactly for a kill flag, a marker, a peer that leaves, a counted timeout or a write that did not succeed |
| `OutboundTeardown.CondemnedIsTold` | crates/bcsp-application/src/host.rs:940-956 | in every run a connection that an overflow condemned has its marker queued, or on its way, or its pump has stopped; a pump past its loop has set the kill flag |
| `OutboundTheorems.TwoVerdictsHappen` | crates/bcsp-application/src/host.rs:1090-1096 | a run that counts an overflow and a timeout for one teardown |
| `WalMaintenance.WalMaintenanceSignal.MarkOpenCommit` | crates/bcsp-application/src/refresh_maintenance.rs:84-86 | sets the Open bit and keeps the other |
| `WalMaintenance.WalMaintenanceSignal.MarkCatalogPublished` | crates/bcsp-application/src/refresh_maintenance.rs:88-90 | sets the Catalog bit and keeps the other |
| `WalMaintenance.WalMaintenanceSignal.Take` | crates/bcsp-application/src/refresh_maintenance.rs:94-103 | empties the flag and answers with the strongest pending reason |
| `WalMaintenance.Decide` | crates/bcsp-application/src/refresh_maintenance.rs:169-198 | truncates exactly when not starved and a Catalog was published or the log exceeds 65,536 frames with the last escalation a minute old; restarts exactly for an Open commit between 16,384 and that |
| `WalMaintenance.EscalatesExactly` | crates/bcsp-application/src/refresh_maintenance.rs:282-395 | after any history a run escalates exactly when it has its PASSIVE report, the last three kept reports are not all stuck, and a Catalog was published or the log is large and every completed escalation is a minute old; and in which mode |
| `WalMaintenance.DetectorTracksHistory` | crates/bcsp-application/src/refresh_maintenance.rs:210-227 | the detector is starved exactly when the history ends in enough reports without progress, and reports the crossing exactly once |
| `WalMaintenance.WalMaintenanceState.Run` | crates/bcsp-application/src/refresh_maintenance.rs:282-395 | every run joins the history, which alone decides what is remembered; there is an outcome exactly when a report was taken and no escalation failed, and it says what the kept reports and the escalation called amount to |
| `WalMaintenance.CompletedAreSpaced` | crates/bcsp-application/src/refresh_maintenance.rs:304-316 | in every history no Open-commit escalation, completed or not, comes too soon after a completed one |
| `WalMaintenance.OneRunSpaced` | crates/bcsp-application/src/refresh_maintenance.rs:304-316 | a run keeps a spaced history spaced if and only if it does not escalate for an Open commit within the interval after a last escalation that failed or had no answer |
| `WalMaintenance.SpacedExactly` | crates/bcsp-application/src/refresh_maintenance.rs:304-316 | for every history: the escalations called are spaced if and only if no run of it does so at its turn |
| `WalMaintenance.CompletedHistoryIsSpaced` | crates/bcsp-application/src/refresh_maintenance.rs:169-198 | a history in which every escalation called completes is spaced |
| `WalMaintenance.FailedEscalationIsForgotten` | crates/bcsp-application/src/refresh_maintenance.rs:304-316 | a history of two runs, the first with a failed escalation, that escalates twice within a second |
| `WalMaintenance.DetectorSeesKept` | crates/bcsp-application/src/refresh_maintenance.rs:313-316 | in every history the detector is starved exactly on a trailing run of kept reports without progress |
| `WalMaintenance.OneRunSeesAll` | crates/bcsp-application/src/refresh_maintenance.rs:370-395 | a run leaves the detector true to all reports taken if and only if it keeps its report or the report would not have moved it |
| `WalMaintenance.DetectorExactly` | crates/bcsp-application/src/refresh_maintenance.rs:304-316 | the detector is true to all reports throughout a history if and only if no run with a failed escalation lost a report that would have moved it |
| `WalMaintenance.FailingRestartsHideStarvation` | crates/bcsp-application/src/refresh_maintenance.rs:370-395 | after any number of failing restarts of a log without progress the detector still counts none |
| `WalMaintenance.MaintenanceDriver.Tick` | crates/bcsp-application/src/refresh_runtime.rs:110-128 | one task at a time; a busy tick loses no mark, a free one starts a task for the pending reason and clears it, handing it the state that came back, or a fresh one if that job was lost |
| `WalMaintenance.MaintenanceDriver.Reclaim` | crates/bcsp-application/src/refresh_runtime.rs:130-140 | the state comes back from a finished task; a lost one leaves a fresh state |
| `JsonReader.ReadsBack` | crates/bcsp-catalog/src/canonical.rs:63-69 | a reader of JSON text gives every printed value back, and leaves what follows it |
| `JsonReader.RoundTrip` | crates/bcsp-catalog/src/canonical.rs:63-69 | reading the text of a value gives the value and nothing more |
| `JsonReader.TextInjective` | crates/bcsp-catalog/src/canonical.rs:63-69 | two printable values with the same compact text are the same value |
| `HashPreimage.Utf8Injective` | crates/bcsp-catalog/src/canonical.rs:63-69 | two strings with the same UTF-8 bytes are the same string |
| `HashPreimage.OnlyNulEndsTag` | crates/bcsp-catalog/src/canonical.rs:5-10 | a preimage holds one NUL byte, and it is the last byte of its domain tag |
| `HashPreimage.PreimageInjective` | crates/bcsp-catalog/src/canonical.rs:5-10 | the bytes hashed agree if and only if domain and value do, across all domains |
| `HashPreimage.BuildPreimage` | crates/bcsp-catalog/src/canonical.rs:63-69 | the bytes fed to the hash for a domain and a value are fed for no other |
| `CanonicalOrder.TrimTwice` | crates/bcsp-catalog/src/canonical.rs:98-104 | trimming is idempotent |
| `CanonicalOrder.TrimCuts` | crates/bcsp-catalog/src/canonical.rs:98-104 | a text is its trimmed form between two pieces of whitespace, and the trimmed form neither begins nor ends with whitespace |
| `CanonicalOrder.TrimIgnores` | crates/bcsp-catalog/src/canonical.rs:98-104 | whitespace put around a text does not change its trimmed form |
| `CanonicalOrder.TrimCharacterized` | crates/bcsp-catalog/src/canonical.rs:98-104 | two texts trim alike if and only if both are some text with whitespace around it |
| `CanonicalOrder.LexMeans` | crates/bcsp-catalog/src/canonical.rs:84-97 | the order of texts: one is a beginning of the other, or smaller where they first differ |
| `CanonicalOrder.SortIsSorted` | crates/bcsp-catalog/src/canonical.rs:84-97 | ordering a set array by text gives an ordered rearrangement |
| `CanonicalOrder.SortForgetsOrder` | crates/bcsp-catalog/src/canonical.rs:84-97 | two set arrays order alike if and only if they hold the same items as often |
| `CanonicalTheorems.TrustStable` | crates/bcsp-catalog/src/canonical.rs:109-146 | canonicalizing an object changes no retained field's standing as text derived from a trustworthy source |
| `CanonicalTheorems.CanonIdempotent` | crates/bcsp-catalog/src/canonical.rs:71-107 | canonicalizing twice is canonicalizing once |
| `CanonicalTheorems.CanonCharacterized` | crates/bcsp-catalog/src/canonical.rs:71-282 | two values canonicalize alike if and only if they differ only in dropped derived text, order inside known sets and whitespace around known semantic strings; whitespace is compared without trimming |
| `CanonicalMeaning.ObjectMeans` | crates/bcsp-catalog/src/canonical.rs:73-83 | an object keeps its members in order, all but a section's own derived text whose structured array is there, of usable items, or empty beside blank text |
| `CanonicalMeaning.RedundantMeans` | crates/bcsp-catalog/src/canonical.rs:109-146 | when derived text can go, told from the first members under its name and its array's |
| `CanonicalMeaning.OrderMatters` | crates/bcsp-catalog/src/canonical.rs:148-172 | swapping two items that differ goes unnoticed in the listed set fields of each profile and nowhere else |
| `CanonicalMeaning.WhitespaceMatters` | crates/bcsp-catalog/src/canonical.rs:174-264 | whitespace around a text goes unnoticed in the listed string fields of each profile and nowhere else |
| `Canonicalizer.Canonicalize` | crates/bcsp-catalog/src/canonical.rs:71-107 | the procedure with its shared path computes the canonical value and leaves the path as it was |
| `Canonicalizer.CanonicalizeEntries` | crates/bcsp-catalog/src/canonical.rs:73-83 | the retained fields, in order, each canonicalized under its own path |
| `Canonicalizer.CanonicalizeItems` | crates/bcsp-catalog/src/canonical.rs:84-97 | the items, in order, each canonicalized under the array's path |
| `Canonicalizer.ExactIsIdentity` | crates/bcsp-catalog/src/canonical.rs:19-27 | the exact profile changes nothing |
| `Canonicalizer.HashInputsCharacterized` | crates/bcsp-catalog/src/canonical.rs:19-69 | hash inputs agree if and only if the domain does and the values are equal, or equivalent in the section-semantic domain |
| `FilterSummary.InsertSummarises` | crates/bcsp-application/src/query_service.rs:806-820 | inserting one option extends the summary of all inserted so far |
| `FilterSummary.BestIsFirstLongest` | crates/bcsp-application/src/query_service.rs:806-820 | the label kept for a key is the first of the longest ones |
| `FilterSummary.SummaryUnique` | crates/bcsp-application/src/query_service.rs:806-820 | option lists with the same gist per key have one and the same summary |
| `FilterOptions.InstructorLabel` | crates/bcsp-application/src/query_service.rs:826-919 | an instructor's label folds to its key, so filtering labels after summarising is filtering before |
| `FilterOptions.SortIsStable` | crates/bcsp-application/src/prepared_serving.rs:1342-1353 | a listing is in order, holds what was listed, and keeps tied options in the order they came |
| `FilterOptions.TargetAgrees` | crates/bcsp-application/src/prepared_serving.rs:1193-1311 | for one target the dictionary, filtered, has the gist of the filtered Catalog |
| `FilterOptions.OptionMapsAgree` | crates/bcsp-application/src/prepared_serving.rs:959-1011 | for any targets, merging dictionaries and collecting from the Catalogs give the same options |
| `FilterOptions.AnswersAgree` | crates/bcsp-application/src/prepared_serving.rs:959-1011 | and the same sorted, truncated answer |
| `FilterText.TrimmedMeans` | crates/bcsp-application/src/query_service.rs:877-882 | trimming, as a relation between texts |
| `FilterText.CollapsesMeans` | crates/bcsp-application/src/query_service.rs:867-868 | joining the words of a text: runs without whitespace, in order, with single spaces between them |
| `FilterText.NumeralMeans` | crates/bcsp-contracts/src/query.rs:1046-1055 | reading digits: leading zeros and a decimal numeral |
| `FilterText.ContainsMeans` | crates/bcsp-application/src/query_service.rs:822-824 | a query matches a text exactly when it occurs somewhere in it |
| `FilterRecords.BandMeans` | crates/bcsp-application/src/query_service.rs:834-847 | a course number offers the hundred it falls in, valued by its first number and labelled from first to last in three digits, exactly if it is all digits and the hundred fits 32 bits |
| `FilterRecords.LevelMeans` | crates/bcsp-application/src/query_service.rs:848-862 | a level offers its trimmed upper-case form, with the two known ones labelled in words |
| `FilterRecords.NameMeans` | crates/bcsp-application/src/query_service.rs:863-874 | a name offers its words if there are any and the query occurs in them, whatever the case |
| `FilterRecords.CodedMeans` | crates/bcsp-application/src/query_service.rs:875-916 | a code and a description offer the code labelled with both, or whichever of the two there is |
| `FilterAnswers.CollectedDescribes` | crates/bcsp-application/src/query_service.rs:826-919 | the options collected from any Catalogs are exactly those their records carry |
| `FilterAnswers.ListingLists` | crates/bcsp-application/src/prepared_serving.rs:1342-1353 | the listing holds each option once, bands by number and others by folded label and then value |
| `FilterAnswers.AnswerAnswers` | crates/bcsp-application/src/query_service.rs:167-263 | the answer is that listing, cut at the limit exactly when it is longer; bands are not cut |
| `FilterService.CollectCatalogOptions` | crates/bcsp-application/src/query_service.rs:826-919 | a folded key is among the options if and only if some course, section name, section or meeting record of the Catalogs carries it; its value is the first such record's and its label the first of the longest |
| `FilterService.MergePrepared` | crates/bcsp-application/src/prepared_serving.rs:959-1011 | the pass over dictionaries computes the summary of their matching options |
| `FilterService.ListOptions` | crates/bcsp-application/src/prepared_serving.rs:1342-1353 | the map is listed in label order with the value breaking ties, and bands by number |
| `FilterService.BuildDictionary` | crates/bcsp-application/src/prepared_serving.rs:1193-1311 | every field of a target's dictionary is the ordered listing of its Catalog's options |
| `FilterService.CanonicalTargets` | crates/bcsp-application/src/query_service.rs:692-705 | succeeds exactly on a non-empty list without repetition and keeps its members |
| `FilterService.CanonicalTargetsSorted` | crates/bcsp-application/src/query_service.rs:692-705 | the canonical list is in key order |
| `FilterService.DuplicateIsFirst` | crates/bcsp-application/src/query_service.rs:692-705 | a duplicate error names the first target that occurs a second time |
| `FilterService.ReferenceFilterOptions` | crates/bcsp-application/src/query_service.rs:167-263 | answers exactly when the request lists its distinct targets in order and the store still has every published version; the answer is what the records of those Catalogs offer, listed and cut, with their versions; every error is true of the request and the store |
| `FilterService.AcceptedMeans` | crates/bcsp-application/src/query_service.rs:172-175 | a request is accepted exactly when its targets are distinct, there are some, and it lists them by term and then campus |
| `FilterService.RefusalMeans` | crates/bcsp-application/src/query_service.rs:692-772 | a request is refused with an error if and only if the error is true of it: no targets, the first repetition, another list, the first target not published, the first one changed with both versions |
| `FilterService.MovedStoreRefuses` | crates/bcsp-application/src/query_service.rs:751-772 | a moving store only takes the reference answer away: it is given exactly when no accepted target has moved, and is then the same |
| `FilterService.PreparedFilterOptions` | crates/bcsp-application/src/query_service.rs:391-426 | the prepared service gives, for every request, what the reference gives on a store holding still: same options, truncation and versions, same request errors, same first missing target under its own error; and what it gives is what the records offer |
| `DynamicFilters.FindsAgree` | crates/bcsp-application/src/prepared_serving.rs:1321-1340 | the two lookups agree exactly unless a core code is not uppercase while its uppercase is offered |
| `DynamicFilters.ValidationAgrees` | crates/bcsp-application/src/prepared_serving.rs:1013-1093 | the two validators report the same list if and only if no selected core code differs from an offered one by ASCII case alone |
| `DynamicFilters.CollectedListsAgree` | crates/bcsp-application/src/prepared_serving.rs:1013-1093 | the same for the list read off the dictionaries themselves |
| `DynamicFilters.LookUp` | crates/bcsp-application/src/query_service.rs:921-938 | the reference search finds exactly the values some record of the Catalogs carries |
| `DynamicFilters.LookUpPrepared` | crates/bcsp-application/src/prepared_serving.rs:1095-1116 | the prepared search finds exactly what a dictionary holds under the folded value |
| `DynamicFilters.CollectInvalid` | crates/bcsp-application/src/query_service.rs:980-1087 | exactly the chosen values that no selected Catalog has, told field by field from the records; by field, then by value, each once |
| `DynamicFilters.ChosenMeans` | crates/bcsp-application/src/query_service.rs:980-1087 | which values a request selects, for each of the eight fields |
| `DynamicFilters.KnownMeans` | crates/bcsp-application/src/query_service.rs:921-938 | what the reference path accepts, told from the records of the Catalogs |
| `DynamicFilters.CollectInvalidPrepared` | crates/bcsp-application/src/prepared_serving.rs:1013-1093 | exactly the chosen values not in a dictionary; by field, then by value, each once |
| `FilterValues.TryNew` | crates/bcsp-contracts/src/query.rs:1148-1205 | accepted values are the distinct selected ones in order, codes in uppercase and names without stray whitespace; each error is returned exactly when its limit is the first one broken |
| `FilterValues.NormalUnique` | crates/bcsp-contracts/src/query.rs:1148-1205 | an input has only one such form |
| `FilterValues.NormalizedTwice` | crates/bcsp-contracts/src/query.rs:1148-1205 | normalized values pass normalization again unchanged |
| `FilterValues.NormalizedListsAgree` | crates/bcsp-application/src/prepared_serving.rs:1013-1093 | for every normalized request both validators report the same list |
| `FilterValues.NormalizedDictionariesAgree` | crates/bcsp-application/src/prepared_serving.rs:1095-1116 | so does the list read off the dictionaries themselves |
| `FilterValues.UnnormalizedListsDiffer` | crates/bcsp-contracts/src/query.rs:1057-1061 | a lower-case core code would tell the validators apart, which is why tokens are upper-cased first |

## Left out

- OpenPersistence.ShortLockOpenPersistence.Session: has no interference from other writers, because interleaving is the subject of `Publication`.
- OpenPersistence.ShortLockOpenPersistence.BeginAttempt: the attempt sequence number it bumps in the store without a barrier is not part of the store's versions.
- OpenPersistence.PublicationDemand.BeginPublication: its failure on a poisoned lock is not modelled, as nowhere in the project.
- DirtyTickets.PreparedServingRegistry.Snapshot: the wait for admission within a deadline is left out; a caller that waits is one that asks again.
- OptimisticBuild.Build: the two queries behind one look at a generation are one read, the full-text corpus is read as one version, projection of Catalogs into query form and resident-byte estimates are not computed, and the term window's clock is fixed.
- SupervisorTheorems.CalmRunKeepsInv: stops at the first registration of a target still marked as removed, because `PlacementIffCalm` shows placement fails right there.
- SupervisorTheorems.HandleAgreement: stops there too.
- SupervisorTheorems.OnePullPerTarget: stops there too; `HastyRegistrationPullsTwice` is what can follow.
- SupervisorTheorems.NoServingOpenBesideCandidate: stops there too.
- SupervisorTheorems.SupervisorPlacement: stops there too, and `HastyStepDoubles` shows it is false right after.
- SupervisorTheorems.RemovedNeverReturns: stops there too; `HastyRemovalIsLost` is what can follow.
- SupervisorInvariants.StepKeepsInv: scheduling hints, due times and origin pauses are nondeterministic choices, and task panics and failed registrations are left out.
- OutboundTheorems.VerdictsPerConnection: verdicts are kept per connection, where the code adds them to process-wide counters.
- WalMaintenance.MaintenanceDriver.Tick: a lost background job restarts the maintenance history, as in the code; nothing relates the histories before and after.
- ManualRetry.DispatchManualTargetRetries: no request arrives during the scan; `RunKeepsInv` and the lemmas after it interleave them.
- FilterService.ReferenceFilterOptions: keyword options, storage and projection failures are left out.
- FilterService.PreparedFilterOptions: keyword options, storage and projection failures are left out.
- FilterValues.TryNew: the fields no dictionary holds enter by their sizes only, and the checks on single tokens are left out.
- DynamicFilters.ValidationAgrees: full-text term existence is membership ignoring ASCII case, and Unicode lowercasing is any function.
- JsonReader.RoundTrip: numbers are their printed text and objects their entries in key order; the reader takes compact text only, and no escaped surrogates.
- HashPreimage.PreimageInjective: stops at the hashed bytes; SHA-256 itself is left out.
- Liveness: nothing here says that the worker or the supervisor eventually acts.
- Storage: SQLite, its transactions, recovery and full-text search appear only as versioned state.
- Search: ranking, course and section queries, pagination and detail responses.
- Transport: heartbeats, pings, inbound messages, session parsing, tracing and metrics.
- Upstream access: HTTP fetching, normalization of upstream documents and the refresh scheduler's own timing.
