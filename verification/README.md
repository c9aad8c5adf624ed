# A verified model of mongoqueue

mongoqueue is a fair, leased job queue. Jobs live in one durable collection; each Queue
keeps, in memory, a virtual clock per (tenant, partition) timeline, and stamps every job
it enqueues one stride above that clock. Workers claim the visible job with the lowest
(vstamp, id). This project models the three parts that make that work, and proves what
the code's comments and its design document promise of them.

- **The virtual-time cache** (`vtimecache.go`, `enqueue.go`, `Queue.Reconcile`), twice.
  `Protocol` is a step relation in which any number of enqueues, refreshes, walks, Queues and
  store events interleave one shared-memory access or one server call at a time; an
  action that is not enabled changes nothing, so every sequence of actions is a run.
  `Locks`, `Order`, `Budget`, `Ledger`, `Drift`, `Epochs`, `Floors` and `Chain` each keep one invariant
  over every step, and `Runs` and `Stamps` state the theorems over every reachable state;
  `Replay` walks one run, step by step, to a stamp that falls, and `Solo` runs an enqueue, a
  refresh and a walk's turn each by itself. `VtimeCache` and
  `Queue` are the same code as classes updated in place, with the source's loops and error
  paths, each method tied to a function of the old state; `CacheLaws` proves what
  any sequence of those operations keeps.
- **The job store and the lease protocol** (`claim.go`, `lease.go`, `resolve.go`).
  `Jobs` gives each server call as one atomic guarded update, `Calls` says field by field what
  that comes to, `Collection` is the class whose
  methods perform them and report faults, `Frontier` is what stamping reads back, and
  `Leases` proves the safety properties over whole runs with a history of every
  record ever inserted.
- **Fairness** (`vtime.go` with the claim order). `VTime` and `Duration` carry the wrapping
  and truncating machine arithmetic; `Service` sets dispatch against stamping, and
  `Fairness`, `Overtaking` and `Drain` are the bounds over its runs. `Projection` proves that
  a stretch of a `Protocol` run without re-seeds is a run of `Service`, event by event, so
  that the bounds hold of the concurrent cache.

Times in the store are integers in milliseconds, caller durations integers in nanoseconds.
A server call may fail before it is applied or after (`Fault`), a hook's queries may fail
(`ReadFaults`), and server times may come in any order. `race` says between which lookups
and locks of the sequential cache a walk slips in.

Where the comments or the obvious reading promise more than the code keeps, the model
follows the code and says exactly how far the promise holds:

- Stamps rise strictly over the *pending* jobs of a timeline, and between two seeds, but not
  over its whole life (`Stamps.StampFollowsLast`, `Stamps.StampAboveServed`,
  `Stamps.StampRisesIff`; `Replay.StampFallsBelowHighest` is a run in which one falls).
- An insert stored behind an error breaks slot uniqueness until the timeline is re-seeded
  (`Stamps.HiddenInsertReusesSlot`, `Queue.EnqueueKeepsOrder`, `Queue.ReconcileHeals`).
- A frontier is two reads, not a snapshot, and an enqueue between them can pull it below
  where it was (`Frontier.TornFrontierBelowIff`, `Frontier.TornFrontierFalls`); and a refresh
  may store late (`Runs.LateRefreshDip`).
- `durationMillis` is a ceiling only where its callers use it (`Duration.CeilingIff`).
- A reconcile passes over the partitions left when its context ends, and then reports a
  failure but not one per partition (`Queue.Queue.RefreshPartitions`).

## Model

| member | source | states |
|---|---|---|
| VTime.NextVStamp | vtime.go:46-55 | the stamp is the exact unbounded sum precisely when scaled cost and sum both fit an int64; in every other case ErrVTimeOverflow, never a wrapped value |
| VTime.StrideIsIdeal | vtime.go:39-41 | up to maxCost the machine stride, product wrap and truncating division included, is the mathematical one |
| VTime.UnguardedStrideCollapses | vtime.go:25-26 | one unit above maxCost the unguarded product wraps and the stride collapses to 1, so the guard is needed |
| VTime.StrideBrackets | vtime.go:28-41 | the stride is the cost-weight quotient rounded down, or the one-unit floor exactly when that quotient is below one |
| VTime.TruncationBelowOne | vtime.go:16-17 | truncation and floor together move a stride by less than one unit from cost over weight |
| VTime.NormalizeCost | vtime.go:60-62 | a cost is never rejected: a positive one is kept, any other becomes 1 |
| VTime.NormalizeWeight | vtime.go:69-78 | exactly the negative weights are rejected, zero becomes 1 and a positive one is kept |
| Duration.DurationMillis | duration.go:10-16 | for non-negative durations the ceiling in milliseconds; a positive duration never becomes zero |
| Duration.CeilingIff | duration.go:10-16 | it is the ceiling if and only if the duration is non-negative or a whole number of milliseconds |
| Jobs.PrecedesIsStrictTotal | claim.go:100-102 | the claim sort decides between any two records, one way only |
| Jobs.FirstUnique | claim.go:100-102 | a pool has at most one first record under the claim sort |
| Jobs.FirstExists | claim.go:100-102 | every non-empty pool has a first record under the claim sort |
| Jobs.Target | claim.go:78-97 | a claim's target is the first of the visible pending jobs of the partition, and there is none exactly when none is visible |
| Jobs.StoreStepFrame | lease.go:58-72 | no store event adds a record, returns one to pending, changes its place in the order or deletes a pending one |
| Calls.IdBeforeIsLexical | claim.go:100-102 | the tie-break is binary order: a proper prefix, or the lower character at the first difference |
| Calls.ClaimTakesFirstDue | claim.go:57-102 | a claim takes a record if and only if some record of the partition is pending and due, claimed before or not, and then the first of all that are, giving it the fence, a visibility one lease on and an attempt |
| Calls.ClaimNeedsLease | claim.go:58-60 | without a positive lease nothing is taken |
| Calls.HeartbeatWrites | lease.go:22-29 | the visibility moves exactly when id, claim and pending liveness match, whether or not the lease has run out; nothing else changes |
| Calls.ReleaseWrites | lease.go:42-50 | the fence goes and the whole delay is kept, exactly when id, claim and pending liveness match |
| Calls.CompleteWrites | resolve.go:24-29 | the record is resolved as told exactly when id, claim and pending liveness match |
| Calls.CancelWrites | resolve.go:31-59 | a pending record is resolved as canceled whether or not it is claimed, keeping its fence; nothing else changes |
| Calls.ExpireDeletes | queue.go:304-311 | a deletion takes exactly a resolved record |
| Frontier.HighestStamp | queue.go:182-203 | the first stamp in descending order is attained and bounds every other; none exactly on an empty pool |
| Frontier.LowestStamp | queue.go:182-203 | the first stamp in ascending order is attained and bounds every other from below |
| Frontier.EdgeIsHighestPending | queue.go:80-125 | the seed query answers the highest stamp among the timeline's pending jobs, 0 if none; resolved jobs never count, whatever fence they keep |
| Frontier.ClockIsHighestFenced | queue.go:158-167 | the clock query answers the highest stamp among the partition's claimed jobs, pending or resolved |
| Frontier.FallbackIsLowestPending | queue.go:169-177 | the fallback answers the lowest stamp among the partition's pending jobs, visible or not |
| Frontier.FrontierFallsBack | queue.go:147-156 | the fallback decides, read from the later store, exactly when no job of the partition carried a claim |
| Frontier.ClockStep | queue.go:162-167 | the service clock falls only when a release or a deletion drops a top fenced job, and rises only by a claim, to the claimed stamp |
| Frontier.ClockMonotone | queue.go:132-143 | over any run of inserts and store events that drops no top fenced job, the service clock never decreases |
| Frontier.FirstClaimKeepsFrontier | queue.go:127-152 | the first claim after the fallback to the lowest pending stamp does not lower the frontier |
| Frontier.RunDescends | enqueue.go:140-157 | over any run of inserts and store events, a stored record was there at first, in the same place and no less pending, or was inserted in the run |
| Frontier.TornFrontierBelowIff | queue.go:147-156 | what the second read finds lies below the frontier as it was at the first if and only if no job had a fence then and a job inserted meanwhile, stamped below all that was pending, is pending at the second read |
| Frontier.TornFrontierFalls | queue.go:147-156 | such an input: the frontier stands at 5000 when the computation begins, and it answers 1000 |
| Leases.RevokedForever | lease.go:52-72 | once a minted claim stops matching its record, no continuation makes it match again, reuse of the id included |
| Leases.OnlyLatestClaimHolds | claim.go:64-86 | in every reachable world at most one claim can write a record, and it is the last one applied to it |
| Leases.EndsTheClaim | lease.go:42-50 | a reclaim, release, completion, cancel or deletion ends the claim it hits |
| Leases.WinsAreRecorded | resolve.go:24-29 | the history counts exactly the terminal writes and the claims that the run's events won |
| Leases.SingleResolution | resolve.go:48-62 | of all Complete and Cancel attempts on one record at most one wins, and one has won exactly when the record is no longer pending in the store |
| Leases.StoredFieldsCoincide | resolve.go:97-103 | resolved liveness, a non-empty resolution and resolved_at always coincide; attempts equals the claims applied |
| Leases.RecordIsImmutable | resolve.go:24-69 | tenant, partition, cost and vstamp of a stored record never change, nor do its resolution fields once it is resolved |
| Leases.Conservation | enqueue.go:140-157 | every record ever inserted is pending, resolved or deleted, counted once |
| Leases.LastLeaseIsRecorded | lease.go:22-50 | the history carries the last write of a record's visibility: a claim's, a heartbeat's or a release's |
| Leases.LeaseExclusion | claim.go:72-97 | a record is claimed at least the full duration of the last write after it, a lease or a release's delay, in server time that need not be monotone |
| Leases.TakenWhenDue | claim.go:38-56 | an open record that sorts first among those due is taken by a claim if and only if the full duration of its last write has passed, or, never written, its inserted visibility is reached |
| Leases.StepStores | claim.go:72-97 | every event of the history does to the store what its server call does |
| Collection.Collection.InsertOne | enqueue.go:152-157 | the record is stored exactly when its id is new and the call reached the server; each outcome has its error |
| Collection.Collection.Claim | claim.go:57-87 | with a record pending and due the handle is that of the one record written, with its fence; with none ErrNoJob; a non-positive lease is refused |
| Collection.Collection.FencedUpdate | lease.go:58-72 | the write applies exactly when id, claim and pending liveness match; a miss is ErrLeaseLost and changes nothing |
| Collection.Collection.Heartbeat | lease.go:22-29 | a non-positive extension is refused; otherwise it applies, or ErrLeaseLost, exactly by id, claim and pending liveness |
| Collection.Collection.Release | lease.go:42-50 | a negative delay is refused; otherwise the release applies, or ErrLeaseLost, exactly by id, claim and pending liveness |
| Collection.Collection.Complete | resolve.go:24-29 | an empty resolution is refused; otherwise it applies, or ErrLeaseLost, exactly by id, claim and pending liveness |
| Collection.Collection.Get | resolve.go:79-92 | the record, or ErrJobNotFound, or ErrMissingJobID |
| Collection.Collection.Cancel | resolve.go:48-69 | nil exactly when the job was pending, claimed or not; a miss is classified by the store as other clients have left it at the diagnostic read, pending included |
| Protocol.StampIsChecked | vtimecache.go:204-208 | the step relation's overflow test and stamp are those of the checked machine arithmetic |
| Locks.StepKeepsInv | vtimecache.go:26-41 | every step keeps the lock invariant: holders, map entries and the walk's position agree |
| Locks.RetryStep | vtimecache.go:238-257 | every step keeps each enqueue's retries within the evictions of its key |
| Locks.LocksTakenInOrder | vtimecache.go:36-41 | whoever holds a lock blocks only on a later one in the order map, entry, low-water marks |
| Order.StepKeepsInv | vtimecache.go:192-231 | every step keeps each trusted clock at or above its timeline's pending stamps |
| Budget.StepKeepsInv | vtime.go:14-26 | every step keeps all stamps, clocks and low-water marks within the partition's inserted strides |
| Ledger.StepKeepsInv | vtimecache.go:204-231 | every step keeps each seeded entry at its timeline's account, and each account at its last seed or last insert |
| Ledger.StampFromAccount | vtimecache.go:204-209 | every stamp is its timeline's account plus one stride |
| Drift.StepKeepsInv | vtimecache.go:193-203 | every step keeps a clock in use no older than the last walk's handling of its timeline, however flags and walk race |
| Epochs.StepKeepsInv | vtimecache.go:193-203 | every step keeps each account on the map's entry it was seeded on, in use, unless a walk has handled the timeline since |
| Epochs.ReseededWasHandled | vtimecache.go:193-203 | whoever seeds a timeline again, a walk has handled it since its last seed began |
| Floors.StepKeepsInv | vtimecache.go:116-137 | every step keeps a low-water mark at or above the service clock at the start of the refresh that wrote it |
| Chain.StepKeepsInv | vtimecache.go:213-231 | every step keeps a steady timeline's stamps one stride apart |
| Chain.LinkedIsStateless | vtime.go:43-55 | stamps one stride apart are a base plus running stride sums |
| Runs.RunKeepsGood | vtimecache.go:11-41 | all the invariants hold after any run from a state where they hold |
| Runs.OneReservation | vtimecache.go:233-257 | two enqueues holding reservations on one timeline are the same enqueue, and its entry is the map's |
| Runs.UnevictedIffMapped | vtimecache.go:270-282 | an entry no walk holds is unevicted exactly when it is the map's entry for its key |
| Runs.LocksMatchReservations | enqueue.go:129-161 | an entry lock is held by exactly the enqueue between its reserve and its one release |
| Runs.RetriesBoundedByEvictions | vtimecache.go:238-257 | lockTimeline retries at most once per eviction of its key since the enqueue began |
| Runs.NoDeadlock | vtimecache.go:36-41 | enqueues, walks, refreshes and reconciles take the three locks in order, so waiting descends, and an agent that waits for nobody can step |
| Runs.SomeoneRuns | vtimecache.go:36-41 | from any agent in any reachable state a chain of waits ends at one that can step |
| Runs.TimelineOrder | vtimecache.go:192-211 | through a timeline's only writer, every insert is stamped strictly above all its pending jobs, whatever interleaved before |
| Order.NewStampExceeds | queue.go:80-115 | the seed's trailing edge and the committed clock both bound the pending stamps the next one must exceed |
| Stamps.HiddenInsertReusesSlot | enqueue.go:111-115 | after an insert stored behind an error, while its job is pending and until the timeline's next insert, an enqueue stamps above it if and only if the timeline was re-seeded meanwhile or its stride is the larger |
| Stamps.StampFollowsLast | vtimecache.go:204-209 | without a seed since the timeline's last insert, the new stamp is that insert's plus the stride, resolved jobs included |
| Stamps.UnhandledNeverReseeds | vtimecache.go:193-203 | over any run in which no walk handles a timeline seeded since the last handling, no enqueue of it seeds again |
| Stamps.StampsChainBetweenWalks | vtimecache.go:204-209 | over such a run, from the first insert after the seed on, each stamp is the last one plus the stride, whatever the hooks would answer |
| Stamps.StampAboveServed | vtimecache.go:65-72 | without releases or deletions of fenced jobs, a stamp exceeds every job of its partition that was claimed before the refresh began whose mark the last seed read |
| Stamps.StampRisesIff | queue.go:80-94 | a stamp exceeds the highest ever issued on its timeline if and only if, after a re-seed, the low-water mark or a pending job the seed read stood within a stride of it, and otherwise the last stamp does |
| Replay.StampFallsBelowHighest | queue.go:86-94 | a reachable state in which it does not: a cancelled job stamped 5000 is stored, and the next stamp is 1000 |
| Runs.ClockBudget | vtime.go:16-22 | over any number of Queues every vstamp, cached clock and low-water mark of a partition lies between 0 and the sum of strides ever inserted there, within int64 |
| Runs.OverflowOnlyWhenSpent | vtimecache.go:204-208 | an enqueue overflows exactly when the checked arithmetic says so, and only if cost exceeds maxCost or the partition's spent budget cannot carry the stride |
| Runs.CacheRefinesStatelessStamper | vtimecache.go:192-231 | a steady timeline's n-th stamp is one fixed base plus the first n+1 strides, whatever walks, evictions, aborts and duplicates intervened |
| Runs.DriftBound | vtimecache.go:18-26 | a reserve that locked its timeline after a walk handled it stamps from a seed begun after that handling |
| Runs.SeedKeepsItsFloor | vtimecache.go:213-231 | no walk prunes a low-water mark between a cold seed's store and its read |
| Runs.StoredLaneStays | vtimecache.go:283-293 | a stored low-water mark stays while any entry of its partition is cached |
| Runs.LateRefreshDip | vtimecache.go:116-137 | without releases or deletions of fenced jobs, a seed falls short of the service clock by at most the clock's advance since the last-writing refresh began |
| Solo.ReserveAlone | vtimecache.go:192-231 | run by itself a reserve stamps from a clock in use as it stands, re-seeds a known timeline from trailing edge and stored mark, and for a new one computes and stores the frontier first |
| Solo.InsertAlone | enqueue.go:140-152 | an insert stores the call's own envelope at the stamp, pending and never claimed |
| Solo.TouchedIsMarked | vtimecache.go:270-274 | a walk marks an entry touched since the last one and clears the touch |
| Solo.HeldIsMarked | vtimecache.go:275-278 | an untouched entry that is locked is marked too |
| Solo.IdleIsEvicted | vtimecache.go:279-281 | any other leaves the map, evicted and unlocked |
| Solo.PruneTargets | vtimecache.go:283-293 | the prune takes on exactly the stored marks without a cached entry |
| Solo.RefreshAlone | vtimecache.go:123-137 | a refresh by itself stores the frontier, or leaves the mark when there is none |
| VtimeCache.VtimeCache.RefreshLWM | vtimecache.go:123-137 | a found frontier overwrites the mark; an error or an absent frontier leaves the prior value |
| VtimeCache.VtimeCache.Partitions | vtimecache.go:147-159 | the partitions of the cached timelines, all of them, each once |
| VtimeCache.VtimeCache.Handle | vtimecache.go:271-281 | a touched or locked entry is marked stale and stays; any other leaves the map and is evicted |
| VtimeCache.VtimeCache.Walk | vtimecache.go:270-282 | over the whole map, exactly the touched and the locked entries survive, stale and untouched, and no lock changes |
| VtimeCache.VtimeCache.Prune | vtimecache.go:283-293 | exactly the marks of partitions without a cached entry are dropped |
| VtimeCache.VtimeCache.InvalidateAndEvict | vtimecache.go:267-294 | both maps after a walk as a function of the old ones |
| VtimeCache.VtimeCache.LockTimeline | vtimecache.go:238-257 | whichever lookups a walk races, the entry returned is locked, unevicted and the map's own; the loop ends |
| VtimeCache.VtimeCache.Seed | vtimecache.go:214-231 | max of trailing edge and low-water mark, refreshed first on a cold seed; a failing hook leaves the entry unseeded |
| VtimeCache.VtimeCache.Reserve | vtimecache.go:192-211 | both maps after a reserve as a function of the old ones; the lock is kept exactly on success, with the checked stamp |
| VtimeCache.VtimeCache.Commit | vtimecache.go:298-301 | the clock becomes the stamp, the lock is free, nothing else changes |
| VtimeCache.VtimeCache.Abort | vtimecache.go:306-308 | only the lock is freed |
| CacheLaws.RelockedCell | vtimecache.go:233-257 | however walks race a lookup, every cell afterwards is the old one, the old one marked stale, or a fresh one for the key itself |
| CacheLaws.TwoWalksEvictTheIdle | vtimecache.go:18-26 | an entry nobody reserves between two walks survives the second exactly if an older reservation still holds it |
| CacheLaws.ReservedSurvivesNextWalk | vtimecache.go:260-266 | a reserve, successful or not, keeps its entry through the next walk, stale |
| CacheLaws.FirstReserveAfterWalkSeeds | vtimecache.go:18-26 | a timeline's first reserve after a walk stamps from a new seed, and a new entry's seed has refreshed its low-water mark |
| CacheLaws.ReserveReads | vtimecache.go:192-231 | both maps, the lock and the answer after a reserve no walk races, told from the entry it finds: a clock in use needs neither hook, a known timeline its trailing edge, a new one both |
| CacheLaws.NextStampChains | vtimecache.go:193-209 | after a committed reserve stamped v, over any operations without a walk or another commit of the timeline, its next reserve is stamped v plus its stride or overflows, whatever both hooks answer, and no mark changes |
| CacheLaws.WalkPrunesExactly | vtimecache.go:283-293 | after a walk the marks belong to cached partitions, and none of those is lost or changed |
| Queue.Normalize | enqueue.go:81-104 | exactly a missing id, a negative weight or a negative delay is refused, in that order; id, tenant, delay, a positive cost and weight and a named partition are kept, the others get their defaults |
| Queue.Queue.FirstVStamp | queue.go:182-203 | the first matching stamp in the sort's direction, none, or the error |
| Queue.Queue.SeedTenantVtime | queue.go:108-125 | the timeline's highest pending stamp, or 0 |
| Queue.Queue.ComputeLWM | queue.go:147-177 | the service clock, else the lowest pending stamp, else nothing; the fallback is read only when the clock finds nothing |
| Queue.Queue.Enqueue | enqueue.go:123-162 | store, cache, locks and error after each path as a function of the old state: normalize, reserve, insert visible one delay from now, commit or abort |
| Queue.EnqueueStores | enqueue.go:134-160 | a failed reserve changes no job and hands its error on; otherwise one record with the enqueue's own envelope is added exactly when its id is new and the call arrived, each outcome has its error, and the clock moves exactly on Ok |
| Queue.HooksRead | queue.go:108-156 | the reserve is asked for the job's cost and weight, with trailing edge and frontier of the store as its hooks |
| Queue.ReserveStampsAbove | vtimecache.go:192-211 | with the clocks in step, a reserve answers clock plus stride, above everything pending on the timeline |
| Queue.EnqueueKeepsOrder | enqueue.go:106-115 | every path frees the lock; success stores the job, field by field its own, above all its timeline has pending, at the clock; the clocks stay in step if and only if the enqueue succeeded or the store is unchanged |
| Queue.ReconcileHeals | queue.go:350-366 | after a walk a timeline's next stamp exceeds everything pending, even if the clock was out of step |
| Queue.OthersKeepOrder | queue.go:372-400 | no store event and no reconcile puts a clock out of step |
| Queue.Queue.RefreshPartitions | queue.go:381-394 | each partition in its turn is refreshed or reported, until exactly the look at the context that finds it ended; no refresh is started after that |
| Queue.Queue.Reconcile | queue.go:376-400 | refused at entry it changes nothing; otherwise the cache is the walk of the refreshed cache, whatever failed |
| Queue.ReconcileSettles | queue.go:376-400 | used or locked entries end up stale with touched cleared, the others are gone; refreshed surviving partitions hold their new frontier, failed or skipped ones their old mark, no other partition any |
| Service.OpeningIsServed | vtimecache.go:213-231 | newly seeded timelines over a store with none of their jobs satisfy the service invariant |
| Service.StepKeepsInv | claim.go:72-97 | enqueues, claims and every harmless call keep timelines and store describing each other |
| Service.DispatchTakesHead | claim.go:91-102 | a claim takes a timeline's jobs in enqueue order |
| Fairness.WeightedFairness | docs/fair-job-queue-design.md:55-61 | over any window after both were first served and while both are backlogged, the strides served to two tenants differ by at most one maximal stride of each |
| Fairness.ShareTracksStride | vtime.go:14-17 | served strides are within one unit per job of served cost over weight |
| Fairness.CostFairness | docs/fair-job-queue-design.md:55-61 | the fairness bound on cost over weight, with one unit of truncation per job served |
| Overtaking.BoundedOvertaking | claim.go:100-102 | a job is claimed after at most as many other claims as jobs stand ahead of it now plus the distances by which the timelines' clocks fall short of its stamp |
| Overtaking.BoundedOvertakingStride | vtimecache.go:204-209 | the total stride enqueued later at or below a stamp is at most the sum of the timelines' distances to it |
| Overtaking.OwnTimelineNeverOvertakes | vtimecache.go:298-301 | later jobs of the job's own timeline are stamped above it |
| Projection.RunSimulates | vtimecache.go:192-231 | a protocol run that re-seeds no described timeline is, event by event, a run of the service model, with the same store |
| Projection.OpeningSimulates | vtimecache.go:213-231 | such a stretch may begin wherever timelines with one writer have no stored job |
| Projection.CacheIsFair | docs/fair-job-queue-design.md:55-61 | the fairness bound for protocol runs, with lookups, walks, evictions, aborts, duplicates, refreshes and completions interleaved |
| Projection.CacheIsFairByCost | docs/fair-job-queue-design.md:55-61 | the same on cost over weight, with one unit of truncation per job served |
| Projection.BetweenWalksIsAdmissible | vtimecache.go:193-203 | while no walk handles a described timeline, nothing about seeds need be assumed for the service's bounds |
| Projection.FairBetweenWalks | docs/fair-job-queue-design.md:55-61 | the fairness bound for protocol runs between walks, without any assumption on re-seeding |
| Projection.CacheBoundsOvertaking | claim.go:100-102 | the overtaking bound for protocol runs, counted in their claims |
| Drain.DrainsInOrder | claim.go:57-102 | repeated claims return each visible job once in strictly increasing (vstamp, id), and then no job |
| Drain.DrainMergesSchedules | vtime.go:46-55 | a drain returns every unclaimed slot, each timeline's in enqueue order and each at its base plus prefix stride sum |

## Left out

- The MongoDB driver, BSON encoding, pipelines, read and write concerns, collation and query plans: each server call is one atomic guarded step on a map of jobs.
- `EnsureIndexes`, `EnsureTTLIndex` and the indexes' coverage: a step that deletes resolved jobs stands for the TTL.
- `kind.go`, job bodies, node ids, `StampedBy`, option functions and error text: opaque to stamping and leasing.
- Contexts and timeouts other than as a failed call, a lost reply or the moment a reconcile sees its context ended.
- Fairness across a re-seed: one may lift a backlogged timeline or drop an idle one back, so the bounds hold within one seeding epoch.
- Failover rollback, and the stamps of several Queues writing one timeline: the documentation makes both the caller's obligation. The budget, lock and lease results hold across any number of Queues.
- Client clocks: an enqueue's `now` is arbitrary; its `visible_at` is that plus the delay, in whole milliseconds.
- Integer widths of `visible_at` and `attempts`: unbounded here. Stamps, costs, weights and durations have their int64 range.
- Random claim ids: a claim mints one never minted before, and a fenced call presents a minted one.
- Nil hooks of the cache: only the Queue's wiring is modelled.
- Go's memory model below single accesses: a mutex and an atomic are each one indivisible step.
- Queue.Queue.Enqueue: asks for a timeline without an outstanding reservation, because one caller at a time could only wait for ever; waiting is in `Protocol` and `Locks`. Its hook queries and its insert see one store, and are evaluated ahead of the reserve that uses them, because they only read; the interleaved form is `Protocol`.
- Queue.Queue.Reconcile: every refresh sees one store, and no enqueue runs inside it; the interleaved form is `Protocol`.
- VtimeCache.VtimeCache.Reserve: asks for an unlocked timeline, as Queue.Queue.Enqueue does and for the same reason.
- VtimeCache.VtimeCache.LockTimeline: asks for an unlocked timeline likewise. The race is with whole walks between a lookup and its lock; finer interleavings are in `Protocol`.
- Runs.TimelineOrder: assumes that no earlier insert of the timeline was stored behind an error, because `Stamps.HiddenInsertReusesSlot` shows when the slot is then reused.
- Runs.CacheRefinesStatelessStamper: a seed that finds the low-water mark above the trailing edge, or a resolved job, moves the base, so both are excluded from the timeline's history.
- Runs.LateRefreshDip: excludes releases and deletions of fenced jobs in the partition, because either may lower the service clock itself.
- Stamps.StampAboveServed: excludes releases and deletions of fenced jobs in the partition, for the reason given for Runs.LateRefreshDip.
- Fairness.WeightedFairness: both tenants backlogged from before the service the window starts after, jobs visible from their enqueue and leases outlasting the run, because an idle timeline may fall behind and a hidden or returning job breaks its timeline's order.
- Projection.CacheIsFair: the same, and no described timeline is re-seeded, written by two Queues or given a hidden insert in the stretch.
