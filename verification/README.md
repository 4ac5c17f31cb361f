# Verified models of the IBM Cloud provider for Karpenter

This project models the parts of the provider that have to be right over whole histories rather than in one call: the
crash-tolerant IKS worker pool allocation, VPC launch recovery, the provisioning circuit breakers, the NodeClass hash
migration, the request batcher, the expiring caches, and the loops that page, parse, tag and choose. Everything is
stated for all inputs or all runs; where a promise of the code turns out to depend on a condition, the condition is
proved to be exact.

## How the models are built

**Protocols** (`Iks*`, `Vpc*`, `HashMigration`, `Batcher*`) are state machines. Each API call, clock reading or channel
operation is one atomic step `X1(w): Option<World>`, `Next` dispatches, and `Exec` runs a sequence of steps from the
initial world. Steps of all threads interleave freely; a crash, an abandoned attempt or a lost response may follow any
step. One lemma per step preserves the invariant, one induction carries it to every run, and the theorem files draw the
consequences. The IKS invariant has two parts: `Base` holds in every environment, `Guard` where the creation window is
wide enough. The source writes these as straight-line code that mutates its arguments between API calls; a
single Dafny method could not show the interleavings, which is what the properties are about.

Safety says what no run does; the **progress** results say that the threads get something done. `Leads(env, goal, w, v)`
means that steps of one purpose bring `w` to `v`. What the cloud may do on its own is restricted there: under `Delete` a
pool of the claim disappears only after its deletion was requested, under `Bind` the one listing of workers is written out.

**Objects** (`Breaker`, `BreakerManager`, `Expiry`, `PoolTracking`) are classes whose methods are proved against value
functions, and the run properties are lemmas about those functions. **Loops** (worker listings, name lookups, paging,
tag listing, image filtering, pricing batches) are methods with invariants.

- `Options` optional values, results, string search and the reading of a failed create; `Sorting` sorting by a total preorder.
- `IksTypes`, `IksWorkers`, `IksSteps` data, listings and steps; `IksInvariant` with `IksBase` and with `IksGuard`,
  `Iks*Keeps` preservation of its two parts; `IksTheorems`, `IksWindow`, `IksPublished`, `IksSeen` what every run keeps;
  `IksPaths`, `IksRelease`, `IksStuck`, `IksBinding` what can still be reached.
- `VpcLaunch`, `VpcInvariant`, `VpcKeeps`, `VpcOnce`, `VpcTheorems`, `VpcProgress`, `VpcLookup` the same for VPC launches.
- `Breaker`, `BreakerRuns`, `CreateRuns` one breaker; `BreakerManager`, `FleetRuns` all of them; `KeyRuns`,
  `KeyRates`, `KeyCreates` one key among them; `Provisioning` their use in Create.
- `HashMigration`; `Batcher`, `BatcherRuns`, `BatcherBatches`, `BatcherProgress`, `BatchCalls`; `Expiry`; `PoolTracking`.
- `Pagination`, `Ownership`, `TagListing`, `ImageNames`, `ImageChoice`.

## What the environment is assumed to do

- IKS: one NodeClaim and the pool name derived from it; one create attempt per claim at a time (createAllocation reads
  the claim before it takes the lock); the pool lock is exclusive; Kubernetes writes are compare-and-swap on the resource
  version; a name lookup finds some pool of the name or truly none; pool labels do not change and pool identities are
  not reused; nobody else labels pools with this claim; nobody else edits the claim's allocation annotation or its
  finalizer, though other writes to the claim come at any time; a 4xx answer other than 408, 409 and 429 created nothing; a
  create takes effect at most `delay` after the start it recorded, and a lookup is judged at most `lag` after it was
  made. The cloud may hold several pools of the name, foreign pools come and go, and deletion is asynchronous.
- VPC: one create attempt per claim, none once a provider ID is published; nobody else edits the launch annotation or
  its finalizer; instances with the launch name are this launch's (the name is a hash of cluster and claim); the same
  `delay` and `lag`.
- Breakers, caches, batcher: the clock does not go back; each locked section of the breaker uses one clock reading; the
  limits are at least one, as options validation demands; the executor returns at most as many results as inputs.
- Hash migration: a NodeClaim name is not used again; a new claim may carry any hash and version.

## Findings

- The creation window of 15 minutes is compared with a clock reading taken after the lookup it judges, and the IKS start
  is stored in whole seconds. "A create takes effect within the window" is therefore not enough. No run leaves a pool
  behind if and only if `delay + lag + 1s - 1ns <= window` (`IksWindow.NoOrphanIff`), and no run makes two pools under
  the same condition (`IksWindow.NoDuplicateIff`); for VPC, which stores the full timestamp, no run loses an instance if
  and only if `delay + lag <= window` (`VpcTheorems.NoLeakIff`, `DropsSafelyIff`). Concrete losing runs are given for
  every other environment.
- Two VPC instances need more: Create looks again before it submits again, so a claim has at most one instance if and
  only if `delay <= window`, whatever the lag (`VpcTheorems.NoDuplicateIff`).
- A terminating IKS claim whose pools do not disappear unasked can go if and only if at most one pool of it is left to
  delete, that pool is the recorded one if one is recorded, and it is still as ordered: one zone, the flavor, at most one
  worker, no autoscaling, our labels (`IksStuck.CanGoIff`). A pool that was edited away from that holds the claim for ever.
- What does not depend on the window holds in every environment, even where creates overlap: write-once identities,
  agreement of claim and reservation, no create after "deleting", deletions inside ownership, tombstones.
- The manager's cleanup keeps every open breaker for its recovery timeout if and only if the timeout is at most two
  hours and a tick, or at most the failure window (`KeepsBlockingIff`).
- Breakers of different keys are isolated except for one thing: a request for any key can start the cleanup that
  discards another key's breaker. The breaker of a key is exactly that of its own events since it was last discarded
  (`Projection`), and a discard can forget creates that are in flight (`InFlightForgotten`).
- Over every run of concurrent creates a key's counter is the number of its running creates if and only if no due cleanup
  discards its breaker while one of them is running (`KeyCreates.CountsRightIff`), and then the limit on concurrent creates
  holds (`AtMostMaxConcurrent`). Otherwise every configuration has a run in which one create more than the limit is running
  (`TooManyInFlight`).
- Per breaker, at most twice the rate limit is admitted in any 60 seconds, and every configuration reaches that
  (`SlidingRateIsSharp`). Per NodeClass and region the bound is twice the limit in a minute without a discard and three
  times in a minute with one (`KeyRateBound`). Every configuration reaches three times the limit less one. While no create
  of the key fails, three times the limit is reached if and only if `maxConcurrent <= 148 * rate`, which holds for the
  default configuration (`KeyRates.MostPerMinute`).
- Removing the hash checkpoint changes the verdict of a claim in exactly one situation (`FinishChangesIff`); a claim
  that was skipped as Drifted and lost that mark before the end can be in it (`SkippedClaimCanChange`), and so can a claim
  that appears after the listing with the version 1 hash of its launch checkpoint (`LateClaimCanChange`).
- The comment in `pkg/batcher/batcher.go:90-92` says a buffered trigger keeps Add from blocking when another Add has
  already triggered. The code blocks it if and only if that other token is still in the channel (`AddBlocksIff`,
  `SecondAddBlocks`). It is not blocked for good once no more Adds come (`BlockedIsNotStuck`, `StepsRunOut`); while they
  keep coming, others may take the free place each time.
- The image comparison falls back to creation time when a name does not parse. Over a mixture of names it can go in
  circles (`MixedNamesCycle`, `MixedNamesWitness`); the candidates it is used on all parse.

## Model

| member | source | states |
|---|---|---|
| `IksTypes.Truncate` | pkg/providers/iks/workerpool/allocation.go:624 | the stored start loses less than a second |
| `IksTypes.Update` | pkg/providers/iks/workerpool/allocation.go:615-634 | a stored record with a known pool is never pending, and only "creating" makes one pending or moves its start |
| `IksTypes.Restore` | pkg/providers/iks/workerpool/allocation.go:655-690 | the merged allocation keeps the snapshot and agrees with both sides on every identity either knows, or is refused |
| `IksWorkers.Live` | pkg/providers/iks/workerpool/allocation.go:1093-1096 | exactly the workers of the pool that are not deleted |
| `IksWorkers.FindPrimary` | pkg/providers/iks/workerpool/allocation.go:286-314 | the subnet of the first primary interface, if any |
| `IksWorkers.SelectWorker` | pkg/providers/iks/workerpool/allocation.go:286-314 | a worker is bound if and only if it is the only live one of the pool and matches zone, flavor and subnet |
| `IksWorkers.CheckRemovable` | pkg/providers/iks/workerpool/allocation.go:1093-1105 | true if and only if at most one live worker is listed and it is the allocation's own where that is known |
| `IksWorkers.PrimaryIff` | pkg/providers/iks/workerpool/allocation.go:286-314 | the subnet read is that of the first primary interface |
| `IksWorkers.SelectedIff` | pkg/providers/iks/workerpool/allocation.go:286-314 | a worker is bound if and only if it is at the only live entry of the pool, with an ID, in the zone, of the flavor, and its first primary interface in the named subnet |
| `IksWorkers.OnlyOwnIff` | pkg/providers/iks/workerpool/allocation.go:1093-1105 | cleanup goes on if and only if there is at most one live entry, and that is the known worker's if one is known |
| `IksBase.StepBase` | pkg/providers/iks/workerpool/allocation.go:176-351 | in any environment, every API call of createAllocation, cleanup, ConfirmGone and TryDeleteEmptyPool, every change outside and every crash keeps the records, identities, ownership and log of deletions consistent |
| `IksBase.RunBase` | pkg/providers/iks/workerpool/allocation.go:1026-1207 | so does every run of any interleaving, however late creates take effect |
| `IksTheorems.CreateStepKeeps` | pkg/providers/iks/workerpool/allocation.go:176-351 | with a wide enough window, every API call of createAllocation, checkpoint, reserve and updateReservation also keeps what guards against loss and duplication |
| `IksTheorems.CleanStepKeeps` | pkg/providers/iks/workerpool/allocation.go:916-1110 | so does every call of Cleanup, ConfirmGone, cleanup and the finalizer release |
| `IksTheorems.CollectStepKeeps` | pkg/providers/iks/workerpool/allocation.go:1112-1207 | so does every call of TryDeleteEmptyPool and of the tombstone release |
| `IksTheorems.EnvStepKeeps` | pkg/providers/iks/workerpool/allocation.go:176-351 | so do late creates, lost requests, foreign pools, claim edits, claim deletion and crashes between any two calls |
| `IksTheorems.RunKeeps` | pkg/providers/iks/workerpool/allocation.go:176-351 | with a wide enough window, both parts of the invariant hold after every run of any interleaving |
| `IksTheorems.NoOrphanInAnyRun` | pkg/providers/iks/workerpool/allocation.go:1026-1110 | in every run, while an allocated pool exists the claim exists with its finalizer and an annotation whose pool identity, if any, is that pool's; while a create can still take effect, with its finalizer and an annotation without one |
| `IksTheorems.AtMostOnePool` | pkg/providers/iks/workerpool/allocation.go:237-274 | in every run a claim has at most one pool or one create that can still make one, never both |
| `IksTheorems.CreateIsIssuedSafely` | pkg/providers/iks/workerpool/allocation.go:237-274 | a create is issued only with no pool, no live create, no identity ever recorded, no "deleting" ever recorded, and its start announced |
| `IksTheorems.CreateIsAnnounced` | pkg/providers/iks/workerpool/allocation.go:237-274 | in any environment a create is issued only for a protected claim, with no "deleting" ever recorded, no pool in annotation or reservation, and its start announced |
| `IksTheorems.RecordIsWriteOnce` | pkg/providers/iks/workerpool/allocation.go:615-690 | in every run of any environment the snapshot never changes, pool and worker are written once, "deleting" is final and "active" only becomes "deleting" |
| `IksTheorems.RecordIsWellFormed` | pkg/providers/iks/workerpool/allocation.go:615-643 | in any environment active implies a known pool; pending implies none and a start that parses, so uncertainty ends exactly with the window |
| `IksTheorems.StoredIdentitiesAgree` | pkg/providers/iks/workerpool/allocation.go:559-588 | in every run of any environment claim annotation and reservation never disagree about snapshot, pool or worker |
| `IksTheorems.NoCreateAfterDeleting` | pkg/providers/iks/workerpool/allocation.go:202-229 | in any environment, once "deleting" was recorded no later run ever issues a create |
| `IksTheorems.DeletionsStayInside` | pkg/providers/iks/workerpool/allocation.go:1082-1207 | in any environment cleanup deletes only its own claim's pool with at most its own live worker, the collector only unclaimed pools without live workers |
| `IksTheorems.TombstoneBlocksCreate` | pkg/providers/iks/workerpool/allocation.go:590-613 | in any environment no create is issued while a collector's tombstone holds the name |
| `IksTheorems.GoneStaysGone` | pkg/controllers/iks/poolcleanup/controller.go:159-190 | a pool once gone never exists again in any continuation |
| `IksTheorems.TombstoneOutlivesPool` | pkg/controllers/iks/poolcleanup/controller.go:159-190 | a tombstone is dropped only when its pool is gone for good, although the release works without the lock |
| `IksWindow.OrphanRun` | pkg/providers/iks/workerpool/allocation.go:1054-1060 | for every environment that does not fit the window, a concrete run that leaves a pool without its claim |
| `IksWindow.NoOrphanIff` | pkg/providers/iks/workerpool/allocation.go:637-643 | no run orphans a pool if and only if delay, lag and the lost fraction of a second fit into the window |
| `IksWindow.DuplicateRun` | pkg/providers/iks/workerpool/allocation.go:237-274 | in the same environments, a concrete run that makes two pools for one claim |
| `IksWindow.NoDuplicateIff` | pkg/providers/iks/workerpool/allocation.go:237-274 | no run has two pools, or a pool beside a live create, if and only if the same sum fits into the window |
| `IksPublished.AnnotationIsWriteOnce` | pkg/providers/iks/workerpool/allocation.go:559-588 | in every run of any environment the claim annotation keeps its snapshot, and its pool and worker once written, and a claim once gone stays gone |
| `IksPublished.PublishedWorkerIsAnnotated` | pkg/providers/iks/workerpool/allocation.go:961-972 | in every run of any environment a published worker is the annotation's, which ConfirmGone compares |
| `IksRelease.TerminatingClaimCanGo` | pkg/providers/iks/workerpool/allocation.go:916-1110 | in any environment, from every reachable world, a terminating claim can go once its pools are gone and the window has passed, and leaves no reservation |
| `IksRelease.PoolIsDeletedAndClaimGoes` | pkg/providers/iks/workerpool/allocation.go:1026-1110 | the same when the claim's pool disappears only on request: from every reachable world whose pool is as ordered, with any listing of at most its own worker, cleanup requests the deletion and the claim goes |
| `IksStuck.CanGoIff` | pkg/providers/iks/workerpool/allocation.go:692-706 | after any restart the claim can go so if and only if at most one pool is left to delete, as ordered and as recorded |
| `IksBinding.CreateCanSucceed` | pkg/providers/iks/workerpool/allocation.go:176-351 | in any environment, from every reachable world with a live claim whose reservation is not deleting and whose pool is as ordered, or absent and never recorded, Create can end with exactly the listed worker recorded as active, annotated and published |
| `IksBinding.RefusalIff` | pkg/providers/iks/workerpool/allocation.go:646-653 | a create counts as refused exactly on a 4xx answer other than 408, 409 and 429 |
| `IksBinding.RefusedCanRetry` | pkg/providers/iks/workerpool/allocation.go:244-262 | from every reachable world with a refused create and no pool, a new request can be sent without time passing |
| `IksBinding.RefusedCanGo` | pkg/providers/iks/workerpool/allocation.go:1054-1080 | and if the claim is terminating it can go without time passing |
| `IksSeen.PublishedWorkerWasSeen` | pkg/providers/iks/workerpool/allocation.go:276-333 | in every run of any environment a published worker was, in some listing, the only live worker of a pool of this claim just looked up and as ordered, and had the zone, flavor and subnet ordered |
| `IksSeen.DeletedPoolsWereChecked` | pkg/providers/iks/workerpool/allocation.go:1082-1207 | in every run of any environment each deletion followed a look at that pool: as ordered and the claim's own, or empty and nobody's; and a listing of at most the own worker, or of none |
| `IksSeen.TombstoneWasChecked` | pkg/providers/iks/workerpool/allocation.go:1112-1207 | in every run of any environment a tombstone's pool was seen empty, nobody's and without live workers |
| `IksSeen.EmptyPoolIsDeleted` | pkg/providers/iks/workerpool/allocation.go:1112-1207 | from every reachable world without allocation and reservation, an empty pool of nobody gets its tombstone and its deletion requested |
| `VpcKeeps.CreateStepKeeps` | pkg/providers/vpc/instance/provider.go:208-240 | every checkpoint, lookup, submission and answer of a launch keeps the launch invariant |
| `VpcKeeps.CleanStepKeeps` | pkg/providers/vpc/instance/recovery.go:400-453 | so does every call of CleanupPending and of the finalizer release |
| `VpcKeeps.EnvStepKeeps` | pkg/providers/vpc/instance/recovery.go:350-378 | so do late creates, lost requests, claim edits and crashes |
| `VpcTheorems.RunKeeps` | pkg/providers/vpc/instance/recovery.go:232-302 | the invariant holds after every run |
| `VpcOnce.StepOnce` | pkg/providers/vpc/instance/provider.go:208-240 | where creates take effect within the window, every step keeps one instance or one live create, shown by the claim's checkpoint while it exists |
| `VpcOnce.RunOnce` | pkg/providers/vpc/instance/provider.go:748-763 | so does every run, whatever the lookup lag |
| `VpcTheorems.NoLeakInAnyRun` | pkg/controllers/nodeclaim/allocation/controller.go:54-105 | in every run an instance, or a create that can still make one, has a claim with finalizer and checkpoint |
| `VpcTheorems.AtMostOneInstance` | pkg/providers/vpc/instance/provider.go:748-763 | in every run with creates that take effect within the window a claim has at most one instance or one live create, never both |
| `VpcTheorems.FinalizerDropsOnNothing` | pkg/controllers/nodeclaim/allocation/controller.go:54-105 | with a wide enough window, whoever drops the finalizer, nothing exists and nothing can still appear |
| `VpcTheorems.OnlyTwoDrop` | pkg/controllers/nodeclaim/allocation/controller.go:54-105 | in any environment only the release and the reset of a given-up launch drop the finalizer |
| `VpcTheorems.DropRun` | pkg/controllers/nodeclaim/allocation/controller.go:54-105 | for every environment that does not fit the window, a run that drops the finalizer of an existing instance |
| `VpcTheorems.DropsSafelyIff` | pkg/controllers/nodeclaim/allocation/controller.go:54-105 | finalizers are dropped only on nothing if and only if delay and lag fit into the window |
| `VpcTheorems.PublishedInstanceIsTheOnlyOne` | pkg/providers/vpc/instance/recovery.go:380-398 | a published provider ID names the only instance the launch can have |
| `VpcTheorems.LeakRun` | pkg/providers/vpc/instance/recovery.go:217-219 | for every environment that does not fit the window, a concrete run that loses an instance |
| `VpcTheorems.NoLeakIff` | pkg/providers/vpc/instance/recovery.go:217-219 | no run leaks an instance if and only if delay and lag fit into the window |
| `VpcTheorems.DuplicateRun` | pkg/providers/vpc/instance/recovery.go:217-219 | for every environment whose creates can outlast the window, a run with two instances |
| `VpcTheorems.NoDuplicateIff` | pkg/providers/vpc/instance/provider.go:748-763 | no run has two instances if and only if a create takes effect within the window |
| `VpcProgress.RunExplained` | pkg/providers/vpc/instance/recovery.go:232-302 | in every run the finalizer never stands without its checkpoint, and a live claim never has the checkpoint without it |
| `VpcProgress.TerminatingClaimCanGo` | pkg/providers/vpc/instance/recovery.go:400-453 | in any environment, from every reachable world, a terminating claim can go: its instance is deleted on request only and then gone, or the window passes without one |
| `VpcProgress.LiveClaimCanLaunch` | pkg/providers/vpc/instance/provider.go:208-240 | in any environment, from every reachable world with a live claim, whatever crashed or was lost, Create can end with an existing instance published and the claim protected |
| `VpcProgress.RefusalIff` | pkg/providers/vpc/instance/recovery.go:300-302 | a create counts as refused exactly on a 4xx answer other than 408, 409 and 429 |
| `VpcProgress.RefusedCanRetry` | pkg/providers/vpc/instance/recovery.go:267-298 | from every reachable world with a refused create whose checkpoint is on the claim, even if another write conflicts with recording it, that can be discarded and, if no instance has the name, a new request sent, without time passing |
| `VpcProgress.RefusedCanGo` | pkg/providers/vpc/instance/recovery.go:217-219 | and if the claim is terminating it can go without time passing |
| `VpcProgress.UnsentCanRetry` | pkg/providers/vpc/instance/provider.go:888-892 | a request the client reports unsent is treated as refused, with nothing pending |
| `VpcProgress.LostAnswerIsSalvaged` | pkg/providers/vpc/instance/provider.go:893-895 | after a lost or bad answer the attempt still returns an instance it finds, and that is published |
| `VpcLookup.FindLaunch` | pkg/providers/vpc/instance/recovery.go:304-348 | each result in exactly its case: none listed, the first without an ID, unreadable, a second one, not fitting the checkpoint in profile, zone, VPC, image, subnet, group or account, or the one instance as read |
| `VpcLookup.FitsIff` | pkg/providers/vpc/instance/recovery.go:320-347 | an instance fits if and only if it is as launched in every checkpointed field, in the subnet of its primary interface or else its attachment, and in the account its name shows |
| `VpcLookup.GateByNodes` | pkg/providers/vpc/instance/recovery.go:415-440 | direct deletion only when no node carries the instance; every managed node not yet deleting is drained; an unmanaged one stops |
| `Breaker.CircuitBreaker.constructor` | pkg/cloudprovider/circuitbreaker.go:96-114 | a new breaker is closed with empty counters; without configuration it is disabled |
| `Breaker.CircuitBreaker.CanProvision` | pkg/cloudprovider/circuitbreaker.go:117-191 | verdict and new state are those of the request function; a disabled breaker admits and does not change |
| `Breaker.CircuitBreaker.RecordPending` | pkg/cloudprovider/circuitbreaker.go:193-202 | frees a concurrency slot and, half open, a probe |
| `Breaker.CircuitBreaker.RecordSuccess` | pkg/cloudprovider/circuitbreaker.go:205-230 | frees a slot and closes a half-open breaker |
| `Breaker.CircuitBreaker.RecordFailure` | pkg/cloudprovider/circuitbreaker.go:233-292 | frees a slot, records and prunes failures, and opens on the threshold or out of half open |
| `Breaker.CircuitBreaker.RecentFailures` | pkg/cloudprovider/circuitbreaker.go:357-366 | the number of failures inside the window |
| `Breaker.CleanOldFailures` | pkg/cloudprovider/circuitbreaker.go:344-355 | exactly the failures after the cutoff, in order |
| `Breaker.CountRecentFailures` | pkg/cloudprovider/circuitbreaker.go:357-366 | their number |
| `BreakerRuns.SlidingRateBound` | pkg/cloudprovider/circuitbreaker.go:158-177 | in every run of one breaker every half-open minute, wherever it starts, has at most twice the rate limit of admissions |
| `BreakerRuns.SlidingRateIsSharp` | pkg/cloudprovider/circuitbreaker.go:314-322 | every configuration has a run that reaches the bound |
| `BreakerRuns.RateWaitIsExact` | pkg/cloudprovider/circuitbreaker.go:158-165 | a refused caller is told exactly when the rate limit lifts |
| `BreakerRuns.Conservation` | pkg/cloudprovider/circuitbreaker.go:149-292 | with one outcome per admission the counter equals the creates in flight, within its limit, and probes never exceed it |
| `BreakerRuns.NoHalfOpenWedge` | pkg/cloudprovider/circuitbreaker.go:149-156 | a full half-open breaker has a create in flight, and any outcome leaves the state or frees a probe |
| `CreateRuns.InterleavedIsDisciplined` | pkg/cloudprovider/cloudprovider.go:481-520 | any interleaving of attempts that each ask once and record once if admitted has one outcome per admission |
| `CreateRuns.ConcurrentConservation` | pkg/cloudprovider/cloudprovider.go:481-520 | over concurrent creates the counter is the number of attempts between question and outcome, within its limit |
| `CreateRuns.ConcurrentNoWedge` | pkg/cloudprovider/circuitbreaker.go:149-156 | a full half-open breaker has a running attempt, and any outcome of any running attempt frees it |
| `BreakerRuns.EpisodeBound` | pkg/cloudprovider/circuitbreaker.go:193-202 | a half-open episode admits at most its limit plus the pending outcomes recorded in it |
| `BreakerRuns.OpenMeansBlocked` | pkg/cloudprovider/circuitbreaker.go:130-147 | whatever outcomes arrive, every request before the timeout is refused with exactly the remaining wait |
| `BreakerRuns.RecoveryProbes` | pkg/cloudprovider/circuitbreaker.go:130-147 | the first request after the timeout makes the breaker half open and is not refused as blocked |
| `BreakerRuns.AdmittedIff` | pkg/cloudprovider/circuitbreaker.go:117-191 | in every disciplined run, by the history alone: blocked if and only if opened less than the timeout ago, probes full if and only if half open with all out, admitted if and only if mode, probes, minute and concurrency all have room |
| `BreakerRuns.RecoveryAdmitsAllProbes` | pkg/cloudprovider/circuitbreaker.go:130-156 | from every run that left it open, once the timeout has passed, exactly the allowed number of probes is admitted where rate and concurrency have room, and the next refused |
| `BreakerRuns.ChangedIsLastChange` | pkg/cloudprovider/circuitbreaker.go:324-342 | the recorded time of change is that of the last change of mode |
| `BreakerRuns.ModeMoves` | pkg/cloudprovider/circuitbreaker.go:324-342 | open to half open exactly on a request after the timeout; half open to closed exactly on a success, to open exactly on a failure |
| `BreakerRuns.PrunedIsComplete` | pkg/cloudprovider/circuitbreaker.go:344-366 | at every later moment the pruned list counts exactly the recent failures of the whole history |
| `BreakerRuns.ClosedOpensExactly` | pkg/cloudprovider/circuitbreaker.go:246-292 | a closed breaker opens if and only if a recorded failure brings the true recent count to the threshold |
| `BreakerManager.Manager.constructor` | pkg/cloudprovider/nodeclasscircuitbreaker.go:38-48 | starts with no breakers |
| `BreakerManager.Manager.CanProvision` | pkg/cloudprovider/nodeclasscircuitbreaker.go:51-80 | cleans up when due, creates the key's breaker and asks it; nothing else changes |
| `BreakerManager.Manager.Find` | pkg/cloudprovider/nodeclasscircuitbreaker.go:82-106 | the locked lookup finds the key's breaker, if there is one |
| `BreakerManager.Manager.LandPending` | pkg/cloudprovider/nodeclasscircuitbreaker.go:82-92 | outside the lock the outcome reaches the breaker found, and a key only if that is still its breaker |
| `BreakerManager.Manager.RecordPending` | pkg/cloudprovider/nodeclasscircuitbreaker.go:82-92 | with nothing in between, both steps reach the key's breaker only, if there is one |
| `BreakerManager.Manager.LandSuccess` | pkg/cloudprovider/nodeclasscircuitbreaker.go:95-113 | outside the lock the outcome reaches the breaker found, and a key only if that is still its breaker |
| `BreakerManager.Manager.RecordSuccess` | pkg/cloudprovider/nodeclasscircuitbreaker.go:95-113 | with nothing in between, both steps reach the key's breaker only, if there is one |
| `BreakerManager.Manager.RecordFailure` | pkg/cloudprovider/nodeclasscircuitbreaker.go:116-140 | reaches the key's breaker only, made if missing |
| `BreakerManager.Manager.ResetNodeClass` | pkg/cloudprovider/nodeclasscircuitbreaker.go:211-235 | replaces a known key's breaker by a new one |
| `BreakerManager.Manager.CleanupIfNeeded` | pkg/cloudprovider/nodeclasscircuitbreaker.go:245-283 | once the interval has passed, drops exactly the unused breakers |
| `FleetRuns.KeysAreDistinct` | pkg/cloudprovider/nodeclasscircuitbreaker.go:240-242 | the key determines NodeClass and region, although names may contain hyphens |
| `FleetRuns.Isolation` | pkg/cloudprovider/nodeclasscircuitbreaker.go:51-140 | two runs with the same events for a key and requests at the same other times leave it the same breaker, whatever the other keys, admissions and outcomes are |
| `FleetRuns.OthersUntouched` | pkg/cloudprovider/nodeclasscircuitbreaker.go:51-140 | an event of another key changes a key's breaker if and only if it is a request whose due cleanup finds that breaker unused, and then drops it |
| `KeyRuns.Projection` | pkg/cloudprovider/nodeclasscircuitbreaker.go:51-140 | after every run a key's breaker is that of its own events alone since it was last discarded |
| `KeyRuns.SparedIsAlone` | pkg/cloudprovider/nodeclasscircuitbreaker.go:51-140 | as long as no due cleanup finds it unused, it is that of all its own events alone |
| `KeyRuns.InFlightForgotten` | pkg/cloudprovider/nodeclasscircuitbreaker.go:245-283 | for every configuration, a request of another key can discard a breaker with a create in flight; `KeyCreates.CountsRightIff` gives the exact condition |
| `KeyRuns.KeyRateBound` | pkg/cloudprovider/nodeclasscircuitbreaker.go:51-80 | over every run of the fleet a minute admits at most twice the limit per key, or three times if its breaker is discarded in that minute |
| `KeyRates.AlmostThreeTimes` | pkg/cloudprovider/nodeclasscircuitbreaker.go:245-283 | every configuration has a run that admits three times the limit less one in a minute |
| `KeyRates.KeyRateIsSharp` | pkg/cloudprovider/nodeclasscircuitbreaker.go:245-283 | with at most 148 times the rate of concurrent creates, a run that reaches three times |
| `KeyRates.MostPerMinute` | pkg/cloudprovider/circuitbreaker.go:158-177 | while no create of the key fails, three times is reached if and only if the concurrency limit is at most 148 times the rate; one less always, more never |
| `KeyCreates.CountsRightIff` | pkg/cloudprovider/nodeclasscircuitbreaker.go:51-140 | over every run of attempts a key's counter is always the number of its running attempts if and only if no due cleanup discards its breaker while one is running |
| `KeyCreates.AtMostMaxConcurrent` | pkg/cloudprovider/circuitbreaker.go:167-177 | under that condition no more creates of a key run at once than allowed |
| `KeyCreates.TooManyInFlight` | pkg/cloudprovider/nodeclasscircuitbreaker.go:245-283 | every configuration has a run with one running create of a key more than allowed |
| `FleetRuns.RunKeepsOpen` | pkg/cloudprovider/nodeclasscircuitbreaker.go:245-283 | with a short enough timeout an open breaker stays open for it in every run of the whole fleet |
| `FleetRuns.DroppedEarly` | pkg/cloudprovider/nodeclasscircuitbreaker.go:263-275 | with any longer timeout some run discards an open breaker too early |
| `FleetRuns.KeepsBlockingIff` | pkg/cloudprovider/nodeclasscircuitbreaker.go:245-283 | the exact condition between the two |
| `Provisioning.Conclude` | pkg/cloudprovider/cloudprovider.go:481-520 | whatever other attempts did since the admission, exactly one outcome is recorded, on each return path and on a panic, and of the kind the attempt deserves |
| `Provisioning.Create` | pkg/cloudprovider/cloudprovider.go:459-520 | an uninterrupted attempt records one outcome if admitted and none if refused |
| `Provisioning.RecordedIsTold` | pkg/cloudprovider/cloudprovider.go:481-520 | a failed attempt is among the key's failures and opens it if half open; one still provisioning changes neither failures nor mode; a launched one closes it if half open; each frees one slot, and other keys keep theirs |
| `Provisioning.FailuresAddUp` | pkg/cloudprovider/cloudprovider.go:481-520 | whatever attempts of whatever keys are concluded, the recent failures of a key are exactly those of its failed attempts |
| `Provisioning.EnoughFailuresOpen` | pkg/cloudprovider/cloudprovider.go:481-520 | the failed attempt that brings them to the threshold leaves the breaker open |
| `Provisioning.ThresholdInARowOpens` | pkg/cloudprovider/cloudprovider.go:481-520 | in particular threshold failed attempts in a row inside the window, whatever the breaker was before |
| `HashMigration.StepKeeps` | pkg/controllers/nodeclass/hash/controller.go:55-138 | every controller write, spec edit, claim change and crash keeps the migration invariant |
| `HashMigration.RunKeeps` | pkg/controllers/nodeclass/hash/controller.go:55-138 | it holds after every run |
| `HashMigration.VerdictSurvives` | pkg/cloudprovider/cloudprovider.go:765-805 | in every run no controller write changes the verdict of a claim, for the last write of a claim listed and not already Drifted |
| `HashMigration.FinishChangesIff` | pkg/controllers/nodeclass/hash/controller.go:76-92 | removing the checkpoint changes a verdict exactly when an unmigrated claim is pinned and the two hashes disagree about the spec |
| `HashMigration.DriftIff` | pkg/cloudprovider/cloudprovider.go:765-805 | unknown versions drift by version; a version 2 claim is the same if and only if its hash is that of the provisioning fields; a pinned one if and only if these are as pinned; any other version 1 claim if and only if its hash is that of the spec |
| `HashMigration.OtherFieldsDoNotDrift` | pkg/utils/nodeclass/hash.go:60-97 | edits outside the provisioning fields drift no migrated or pinned claim |
| `HashMigration.FinishIsComplete` | pkg/controllers/nodeclass/hash/controller.go:55-92 | a finished class carries its own version 2 hash and no checkpoint, and every listed stale claim was restamped |
| `HashMigration.MigrationCanFinish` | pkg/controllers/nodeclass/hash/controller.go:55-138 | from every reachable world the controller alone can finish, and exactly the version 1 claims with the pinned hash that are not Drifted carry the new hash |
| `HashMigration.HashCanBeRefreshed` | pkg/controllers/nodeclass/hash/controller.go:76-92 | a version 2 class gets the hash of its present spec |
| `HashMigration.SkippedClaimCanChange` | pkg/controllers/nodeclass/hash/controller.go:94-138 | a run in which a claim skipped as Drifted changes its verdict at the end |
| `HashMigration.LateClaimCanChange` | pkg/providers/vpc/instance/recovery.go:380-398 | a run in which a claim that appears after the listing with a version 1 hash changes its verdict at the end |
| `Batcher.StepKeeps` | pkg/batcher/batcher.go:101-212 | every caller, loop and worker step keeps requests where they are recorded, each once |
| `Batcher.RunKeeps` | pkg/batcher/batcher.go:101-212 | so does every interleaving |
| `BatcherRuns.NoLostWakeup` | pkg/batcher/batcher.go:101-170 | a waiting request implies a token, a caller about to trigger or a loop about to swap |
| `BatcherRuns.OneAnswer` | pkg/batcher/batcher.go:198-212 | over every run a request's channel gets at most one answer, and exactly the one it has received |
| `BatcherRuns.OwnResponse` | pkg/batcher/getpricing.go:68-92 | with the pricing executor that one answer is the response of the single call of its batch for the request's own ID |
| `BatcherBatches.LimitsHold` | pkg/batcher/batcher.go:136-196 | in every run at most the allowed number of workers run, and a batch gathers at most the allowed number of triggers |
| `BatcherBatches.SameHashSameBatch` | pkg/batcher/batcher.go:101-170 | requests of one hash that wait together go to the same worker, in every continuation |
| `BatcherBatches.DifferentHashDifferentBatch` | pkg/batcher/batcher.go:136-170 | requests of different hashes never do |
| `BatcherBatches.OwnResultArrives` | pkg/batcher/batcher.go:198-212 | in every run an answered request has the result at its own place in its batch, or the news that there is none |
| `BatcherProgress.StepsRunOut` | pkg/batcher/batcher.go:136-212 | after any run, only boundedly many steps can follow before another Add |
| `BatcherProgress.StuckMeansAnswered` | pkg/batcher/batcher.go:101-212 | when no step is left every caller has sent its trigger and has its answer |
| `BatcherProgress.AddBlocksIff` | pkg/batcher/batcher.go:90-119 | in every run a registered caller is blocked on its trigger if and only if another caller's token is in the channel |
| `BatcherProgress.SecondAddBlocks` | pkg/batcher/batcher.go:90-119 | two callers are enough to see it |
| `BatcherProgress.BlockedIsNotStuck` | pkg/batcher/batcher.go:101-170 | while a caller is blocked some other step can happen |
| `BatchCalls.RunCalls` | pkg/batcher/batcher.go:198-212 | each channel is empty when written and gets its own index's result, or the shortage error with its index |
| `BatchCalls.Group` | pkg/batcher/getpricing.go:73-83 | nil inputs are answered and the groups hold exactly the indices of each ID |
| `BatchCalls.ExecPricingBatch` | pkg/batcher/getpricing.go:68-92 | each distinct ID is called exactly once, in any order, and each result is its own ID's response |
| `BatchCalls.WriteGroup` | pkg/batcher/getpricing.go:84-89 | exactly the results of one ID are written |
| `Expiry.RunCovers` | pkg/cache/cache.go:53-144 | after every history the table is the plain map less some expired entries |
| `Expiry.Transparent` | pkg/cache/cache.go:53-144 | lookups agree with the plain map, however sections interleave |
| `Expiry.PlainIsLatestPut` | pkg/cache/cache.go:90-133 | the plain map holds exactly the latest put of each key not dropped or wiped since |
| `Expiry.HitIff` | pkg/cache/cache.go:53-144 | after every history a lookup finds a value if and only if that was its key's latest put, not dropped or wiped since, and has not expired |
| `Expiry.SizeIsLive` | pkg/cache/cache.go:121-127 | the size after a sweep is the number of live entries of the plain map |
| `Expiry.FutureReadingLoses` | pkg/cache/cache.go:71-81 | an eviction with a reading from the future would lose a live entry, so the clock assumption is needed |
| `TtlCache.SweepInterval` | pkg/cache/cache.go:97 | half the TTL, cut to between a millisecond and a minute |
| `TtlCache.Cache.constructor` | pkg/cache/cache.go:46-50 | starts empty and due for a sweep |
| `TtlCache.Cache.Find` | pkg/cache/cache.go:53-72 | a hit if and only if a live entry is there; the expired case carries its clock reading on |
| `TtlCache.Cache.EvictIfStale` | pkg/cache/cache.go:71-82 | evicts only what is expired at that reading now |
| `TtlCache.Cache.SetWithTTL` | pkg/cache/cache.go:90-103 | sweeps when due, schedules the next sweep and stores the entry with the second reading |
| `TtlCache.Cache.Delete` | pkg/cache/cache.go:106-110 | removes the key only |
| `TtlCache.Cache.Has` | pkg/cache/cache.go:113-118 | true if and only if a live entry is there |
| `TtlCache.Cache.Size` | pkg/cache/cache.go:121-126 | the number of live entries |
| `TtlCache.Cache.Clear` | pkg/cache/cache.go:129-133 | removes everything |
| `TtlCache.Cache.RemoveExpired` | pkg/cache/cache.go:138-144 | removes exactly the expired entries |
| `Offerings.UnavailableOfferings.constructor` | pkg/cache/unavailable_offerings.go:30-34 | starts empty |
| `Offerings.UnavailableOfferings.Add` | pkg/cache/unavailable_offerings.go:37-41 | stores the expiry |
| `Offerings.UnavailableOfferings.Remove` | pkg/cache/unavailable_offerings.go:44-48 | removes the offering only |
| `Offerings.UnavailableOfferings.Check` | pkg/cache/unavailable_offerings.go:51-66 | unavailable if and only if an unexpired mark is there |
| `Offerings.UnavailableOfferings.EvictIfStale` | pkg/cache/unavailable_offerings.go:68-77 | evicts only what is expired at the carried reading |
| `Offerings.UnavailableOfferings.Cleanup` | pkg/cache/unavailable_offerings.go:80-89 | removes exactly the expired marks |
| `PoolTracking.TrackedFromStreakStart` | pkg/controllers/iks/poolcleanup/controller.go:123-132 | over every history the recorded time is that of the first sighting since the pool was last seen in use or deleted |
| `PoolTracking.DueIsLongEmpty` | pkg/controllers/iks/poolcleanup/controller.go:133-135 | a pool is due if and only if its unbroken run of empty sightings began by the limit |
| `PoolTracking.Tracker.HandlePool` | pkg/controllers/iks/poolcleanup/controller.go:118-155 | one pool is tried exactly when own, empty, allowed and seen empty for the TTL |
| `PoolTracking.Tracker.CleanupEmptyPools` | pkg/controllers/iks/poolcleanup/controller.go:102-157 | the same for every pool of a pass, and the tracking is that of the extended history |
| `Pagination.LoopNeverEnds` | pkg/cloudprovider/ibm/vpc.go:495-514 | a chain of cursors that returns to a token goes round for ever |
| `Pagination.PagesInOrder` | pkg/cloudprovider/ibm/vpc.go:495-514 | each page stands after all earlier ones and before all later ones |
| `Pagination.Paginate` | pkg/cloudprovider/ibm/vpc.go:495-514 | terminates; all items in order exactly when the chain ends, the server's error exactly when a request fails, an error exactly on every cycle |
| `Ownership.ReservedCannotBeOverridden` | pkg/utils/ownership/ownership.go:65-81 | no user tag replaces or adds a reserved key, and every other user tag is kept |
| `Ownership.ReservedIff` | pkg/utils/ownership/ownership.go:77-81 | a key is reserved if and only if, in whatever letters, it is managed-by or begins with one of the four prefixes |
| `Ownership.MergeTags` | pkg/providers/vpc/instance/recovery.go:368-373 | the launcher's tags and the user's unreserved ones |
| `Ownership.ValidateTag` | pkg/utils/ownership/ownership.go:99-114 | accepts exactly 1 to 128 characters of the tag alphabet |
| `Ownership.ParsePrint` | pkg/controllers/node/orphancleanup/controller.go:221-224 | splitting at the first colon undoes printing for keys without one |
| `Ownership.PrintParse` | pkg/controllers/node/orphancleanup/controller.go:221-224 | and printing undoes splitting |
| `Ownership.FormatTags` | pkg/utils/ownership/ownership.go:83-97 | every tag once, sorted; an error if and only if some tag cannot be printed |
| `Ownership.FormatIsDeterministic` | pkg/utils/ownership/ownership.go:83-97 | the result does not depend on the order the map is walked in |
| `Ownership.LeIff` | pkg/utils/ownership/ownership.go:83-97 | the order is that of the first difference, prefixes first |
| `TagListing.InstanceTags` | pkg/controllers/node/orphancleanup/controller.go:197-242 | through any faithful paging, all listed names and nothing less; an incomplete listing is never taken for a whole one |
| `TagListing.LastNameCounts` | pkg/controllers/node/orphancleanup/controller.go:217-230 | of several names with one key the last one counts |
| `TagListing.ConflictIff` | pkg/controllers/node/orphancleanup/controller.go:225-228 | a listing is refused if and only if two names give a reserved key different values |
| `TagListing.ReadBack` | pkg/controllers/node/orphancleanup/controller.go:217-230 | reading attached tags in any order gives back the map |
| `TagListing.ReservedValueStands` | pkg/controllers/node/orphancleanup/controller.go:225-228 | a reserved key keeps its listed value or the listing is refused, whatever else is attached |
| `TagListing.OwnedExactlyByLauncher` | pkg/controllers/node/orphancleanup/controller.go:244-253 | with non-empty UIDs, merged launch tags are owned if and only if the cluster UID matches |
| `TagListing.OwnedIff` | pkg/controllers/node/orphancleanup/controller.go:244-253 | any tags are owned if and only if managed, provider, claim, class and cluster tags are all as they should be |
| `TagListing.UnidentifiedIff` | pkg/controllers/node/orphancleanup/controller.go:244-253 | an unreadable cluster identity is an error exactly for tags that could be this cluster's |
| `TagListing.OwnershipRoundTrip` | pkg/utils/ownership/ownership.go:65-114 | merged, printed, listed and read back, the tags are the same and the verdict names the launching cluster |
| `TagListing.LaunchAndJudge` | pkg/controllers/node/orphancleanup/controller.go:197-253 | from merging through printing, any faithful paging and reading to the verdict: printed if and only if every tag can be, and then owned exactly by the launching cluster |
| `ImageNames.ParsePrint` | pkg/providers/common/image/resolver.go:331-390 | parsing undoes printing in each of the four formats |
| `ImageNames.PrintParse` | pkg/providers/common/image/resolver.go:331-390 | whatever parses is well formed and prints back as it was |
| `ImageNames.FormatsAreDisjoint` | pkg/providers/common/image/resolver.go:331-390 | no name has two readings, within or across formats |
| `ImageNames.ReadsComponents` | pkg/providers/common/image/resolver.go:331-390 | a name written out in one of the four formats is read component by component, with the defaults of the shorter ones |
| `ImageChoice.BeforeIsByRank` | pkg/providers/common/image/resolver.go:393-431 | among names that parse, and among names that do not, the comparison is the strict order of minor if open, patch, build, creation time |
| `ImageChoice.MatchesIff` | pkg/providers/common/image/resolver.go:268-329 | a selector accepts a name if and only if it is written in one of the four formats with components it asks for |
| `ImageChoice.GoodIff` | pkg/providers/common/image/resolver.go:212-279 | an image can be chosen if and only if it has an ID, an accepted name and is available or deprecated |
| `ImageChoice.BeforeIff` | pkg/providers/common/image/resolver.go:393-431 | of two written names the higher open minor, then patch, then build, then the newer image comes first |
| `ImageChoice.LongerIsLarger` | pkg/providers/common/image/resolver.go:393-431 | versions are compared as numbers: a longer one without leading zeros is larger |
| `ImageChoice.FirstDifferenceDecides` | pkg/providers/common/image/resolver.go:393-431 | among equally long ones the first different digit decides |
| `ImageChoice.ListImages` | pkg/providers/common/image/resolver.go:212-266 | exactly the usable images, each as often as listed, newest first |
| `ImageChoice.FilterImages` | pkg/providers/common/image/resolver.go:268-279 | exactly the matching images, as often as listed |
| `ImageChoice.SortByVersion` | pkg/providers/common/image/resolver.go:393-431 | a permutation; where all names parse, or none does, no later image should come first |
| `ImageChoice.MixedNamesCycle` | pkg/providers/common/image/resolver.go:393-402 | over a mixture of names the comparison can go in circles |
| `ImageChoice.MixedNamesWitness` | pkg/providers/common/image/resolver.go:393-402 | three images that do |
| `ImageChoice.ResolveImageBySelector` | pkg/providers/common/image/resolver.go:134-210 | the best matching usable image, private only when no public one matches; each error exactly in its case |
| `ImageChoice.OrderDoesNotMatter` | pkg/providers/common/image/resolver.go:134-210 | listings of the same images in another order lead to a choice of the same rank |

## Left out

- Several pool names and claims in one IKS world: the model follows one claim and its name; the lock and the reservation are per name.
- The worker lookup in cleanup for a known worker (`allocation.go:1061-1073`) and the node drain in Cleanup can only end an attempt early and are part of the abandon step.
- A reservation found already deleted when cleanup deletes it (the ignored not-found at `allocation.go:1075`): under the lock only an outside hand can cause it.
- Account, region and cluster identity checks in front of each IKS and VPC call, and a read instance that does not fit its checkpoint, only end an attempt with an error.
- newAllocation and validateInstanceType: the snapshot is an arbitrary value, because the scheduling rules belong to another library.
- HTTP, IAM and SDK wrappers, credentials, token parsing: represented as environment steps.
- SHA-256 and the structural hashes: the launch name is unique per claim, and both NodeClass hashes are arbitrary functions.
- The JSON form of the launch configuration, of allocations and of the hash checkpoint, and what a checkpoint that does not parse does.
- Two clock readings inside one locked breaker section: the model uses one.
- KeyRates.MostPerMinute: the exact condition is for runs without a failed create of the key, because a breaker that reopens can keep its count of concurrent creates through several recoveries; the bound of three times and the run with one less hold for all runs.
- KeyRuns.Projection: in fleet runs an outcome is one step; one that lands on a breaker discarded since its lookup (`LandPending`, `LandSuccess`) is lost to the key, and the discard has then already met a running create.
- Breaker status reports, error summaries and messages.
- The batcher's shutdown, which returns without answering; the exact times of its idle and total timeouts, which end at any moment here; a failing hasher, which makes Add return before it registers.
- GetOrSet and GetOrSetWithTTL: a Get followed by a Set.
- Choosing an image by ID or by name pattern, and the name filter of the image listing.
- The rest of the orphan collector, and the load balancer, tagging, interruption, spot preemption, registration, startup-taint and termination controllers: single-branch guards around API calls.
- Error strings, webhook and status validation, metrics, logging, options parsing and bootstrap data.
- Ownership.FormatTags: which of the two error texts a map with several bad tags gets depends on the order it is walked in, and is not fixed.
- The draining of nodes before a published VPC instance is deleted: the deletion itself is a step that may come at any time after the claim's.
- Update in place of the claim and reservation objects during one IKS or VPC attempt: local copies are fields of the thread state.
