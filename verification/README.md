# PitBox: scheduler, compiled cache, canonicaliser and Garage warm-up

A Dafny model of the parts of PitBox that carry state or structure, with proofs of what they promise.
`dafny verify dfyconfig.toml` checks all of it.

- **Lane pool** (`run_one`). Callers draw an id, queue for a lane behind a mutex and a condition
  variable, run their task outside the mutex, and give the lane back. `LaneProtocol` is the step
  machine, one step per atomic action, for any number of callers and any schedule, with barging and
  spurious wake-ups; `LaneSafety` proves the invariants, `LaneTheorems` and `LaneHistory` what follows
  for whole runs, and `LaneScheduler` is the object with its fields changed in place.
- **Batches** (`run_many_classified`). One worker a lane, a shared cursor, counters written one atomic
  at a time, an event log and a final sort. `BatchProtocol`, `BatchSafety`, `BatchTheorems`,
  `BatchHistory` and `BatchScheduler` divide the work in the same way; `NodeReport` adds the
  aggregation of the node.
- **Both APIs at once**. `GridProtocol` joins the two step machines as the scheduler does: one clock,
  one id counter, one busy time, and lanes that they do not share; a batch draws its ids one by one
  while callers draw theirs. `GridSafety` and `GridTheorems` prove that neither API disturbs the other
  and that no id is used by both; `Utilization` states when the clamp of grid utilisation matters, on
  the arithmetic of `GridClock`, and `UtilizationRace` has two runs where it does.
- **Compiled cache**. `CacheStore` is the store on disk and the two checks made on it, `CompiledCache`
  the cache with lookup, publication, trimming, restoring and the readiness index, `CacheProtocol`
  any number of preparations interleaved at every file operation, with crashes and damage, `CacheSolo`
  one of them alone, and `Toolchain` what is assumed of the compiler, the deserialiser and the digest.
- **Canonical requests**. `Percent`, `Splitting`, `QueryOrder` and `Canonical` follow
  `canonical_path_and_query` from percent-decoding to the joined query. Percent-encoding is that of
  sections 2.1 and 2.3 of RFC 3986, and `Alphabet` ties it to their characters, written out.
- **Garage warm-up and admission**. `WarmupProtocol`, `WarmupSafety` and `WarmupTheorems` are the
  once-cell per digest, the preparation budget and the dispatcher's map of ready artifacts;
  `WarmupOutcomes` says which requests are executed, refused or turned away, `WarmupRace` is a run
  worth knowing, and `GarageAgent` is the two objects with their fields.
- **Nested calls**. `Invocation` follows depth and visited Garages along a chain of calls.

`Wrappers`, `Sums`, `Sorting`, `Sequences` and `EntryOrder` are shared mathematics.

## What the proofs show about the code

Four statements of the design hold with a condition, which is proved exactly or as a counted bound:

- That concurrent requests never repeat the warm-up of a digest, as the repository's own `README.md`
  says from line 120, holds while no warm-up fails. After a failure the cell is removed by digest
  (`apps/pit-garage/src/main.rs`, line 335), so a request that had waited on the failed cell can remove
  a younger one that is being filled, and a second warm-up starts beside the first. `SingleFlight` and
  `FlightsInProgress` bound this; `TwoWarmupsAtOnce` is such a run.
- A cache miss falls back to compilation, but the component is then read back from the cache. When the
  compiled artifact alone exceeds the cache size, trimming has removed it and preparation fails.
  `Prepare` says exactly when it succeeds; `OversizedModule` is such a module.
- The readiness index lists whatever a lookup would restore for digests with the `sha256:` prefix. A
  lookup also accepts a digest without it, which the index never lists (`WarmIsListed`,
  `RestoredButNotListed`).
- Grid utilisation is lane busy time over lane time, and the clamp in `grid_utilization` hides two ways
  for the quotient to exceed one. `run_one` and batches do not share lanes, so together they reach twice
  the lane time (`MixedUseNeedsTheClamp`); either alone stays within it at any one moment. But elapsed
  time is read before the busy time, and a task that ends between the reads is billed in full, so even
  one call can make the quotient any size (`LateLoad`). `ReadingNeedsNoClamp` says exactly when the clamp
  is idle, `OneApiReadingIsBounded` and `MixedReadingIsBounded` how far off a reading can be.

## Model

| member | source | states |
|---|---|---|
| LaneSafety.StepKeepsSlots | crates/pit-scheduler/src/lib.rs:334-346 | after every action of every caller, whoever owns a lane finds its own id in that lane's slot |
| LaneSafety.ScanKeepsWake | crates/pit-scheduler/src/lib.rs:335-345 | a caller that finds all slots taken may park: no wake-up is lost, because no slot is free |
| LaneSafety.ClearKeepsWake | crates/pit-scheduler/src/lib.rs:377-380 | emptying a slot leaves a wake-up owed by the mutex holder, who has not notified yet |
| LaneSafety.NotifyKeepsWake | crates/pit-scheduler/src/lib.rs:380 | `notify_one`, whichever parked caller it picks, settles that debt; with nobody parked there is none |
| LaneSafety.StepKeepsTaken | crates/pit-scheduler/src/lib.rs:340-378 | occupied slots and lane owners stay equally many |
| LaneSafety.ActiveBounds | crates/pit-scheduler/src/lib.rs:351-379 | `shared_active`, raised outside the mutex and lowered after the slot is emptied, is never negative, never above the lane count, and at most the occupied slots unless a caller holds the mutex |
| LaneSafety.StepKeepsClock | crates/pit-scheduler/src/lib.rs:356-362 | task intervals on one lane are disjoint, so a lane is never billed for more time than has passed |
| LaneSafety.ObserveKeepsSnapshots | crates/pit-scheduler/src/lib.rs:289-306 | reading the counters one by one while callers move keeps `running` within the occupied slots |
| LaneSafety.StepKeepsInv | crates/pit-scheduler/src/lib.rs:329-382 | every atomic action of every caller keeps all invariants of the pool |
| LaneSafety.ApplyKeepsInv | crates/pit-scheduler/src/lib.rs:289-382 | so do arrivals, notifications, spurious wake-ups, snapshots, ids drawn by a batch and the passage of time |
| LaneTheorems.LanesAreExclusive | crates/pit-scheduler/src/lib.rs:334-378 | in every reachable state no two callers own one lane, an owned lane shows its owner's id, and slots and owners are equally many |
| LaneTheorems.CountersStayInRange | crates/pit-scheduler/src/lib.rs:331-379 | in every reachable state active and peak are within the lane count, waiting is not negative, and busy time is within lane time |
| LaneTheorems.PeakCoversOverlap | crates/pit-scheduler/src/lib.rs:351-352 | `shared_peak` covers the tasks that overlap, although each caller publishes the value of its own increment and the publications arrive in any order |
| LaneHistory.PeakIsMostActive | crates/pit-scheduler/src/lib.rs:351-352 | over every run the peak is never more than the largest number of callers that were active in one state, and exactly that number when no caller is about to publish its value |
| LaneHistory.MostActiveIsReached | crates/pit-scheduler/src/lib.rs:351-379 | that number is the head count of a state of the run |
| LaneHistory.NoStateIsMoreActive | crates/pit-scheduler/src/lib.rs:351-379 | and no state of the run has a larger one |
| LaneHistory.EveryTaskRuns | crates/pit-scheduler/src/lib.rs:329-362 | a call past its task was in the task at some state of the run, on a lane that showed its id |
| LaneHistory.BusyIsTaskTime | crates/pit-scheduler/src/lib.rs:356-362 | busy time is the time tasks were running, every tick counted once for each of them, up to the intervals not added yet |
| LaneHistory.IdsAreDense | crates/pit-scheduler/src/lib.rs:329 | the next id is the number of ids drawn so far, by calls and by batches; ids of calls are below it and different |
| LaneHistory.LowestFreeLane | crates/pit-scheduler/src/lib.rs:334-346 | a caller at the scan claims the lowest free lane, and parks only when every lane is taken |
| LaneHistory.SnapshotIsRead | crates/pit-scheduler/src/lib.rs:288-306 | each figure of a finished snapshot is the true one at a state of the run: active callers, waiting callers, peak, lanes, read in this order under the mutex |
| LaneTheorems.SnapshotsAddUp | apps/pit-garage/src/main.rs:244-247 | every completed snapshot shows at most as many running callers as occupied lanes, so active and free lanes of the heartbeat add up to the lane count |
| LaneTheorems.NoLostWakeup | crates/pit-scheduler/src/lib.rs:343-380 | with the mutex free and somebody parked, free slots are at most the callers woken and not yet rechecked |
| LaneTheorems.NotAllParked | crates/pit-scheduler/src/lib.rs:334-346 | the unfinished callers are never all parked, whoever holds the mutex |
| LaneTheorems.NoDeadlock | crates/pit-scheduler/src/lib.rs:329-382 | while a call has not returned, some caller or snapshot can move without a spurious wake-up, under any barging |
| LaneTheorems.EveryMoveCosts | crates/pit-scheduler/src/lib.rs:329-382 | every move lowers a measure; arrivals, snapshots and spurious wake-ups raise it by a constant at most |
| LaneTheorems.RunsAreShort | crates/pit-scheduler/src/lib.rs:329-382 | over any run the moves are at most twenty a call, five a snapshot and two a spurious wake-up, and fewer by the work left |
| LaneTheorems.QuietPoolIsClean | crates/pit-scheduler/src/lib.rs:377-382 | when nothing can move, every call has returned, every slot is free, the mutex is free and both counters are zero |
| LaneScheduler.PitScheduler.New | crates/pit-scheduler/src/lib.rs:194-217 | zero lanes are an error; otherwise the pool starts empty |
| LaneScheduler.PitScheduler.FindFree | crates/pit-scheduler/src/lib.rs:335-338 | the scan finds the first free slot, or none |
| LaneScheduler.PitScheduler.ScanOrPark | crates/pit-scheduler/src/lib.rs:334-346 | claims the first free slot and keeps the mutex, or parks and releases it, in one action |
| LaneScheduler.PitScheduler.RaiseActive | crates/pit-scheduler/src/lib.rs:351 | raises the counter and keeps the value it returned |
| LaneScheduler.PitScheduler.RaisePeak | crates/pit-scheduler/src/lib.rs:352 | `fetch_max` of the value the caller's own increment returned; `LaneHistory.PeakIsMostActive` says what that makes of the peak over a run |
| LaneScheduler.PitScheduler.AddBusyTime | crates/pit-scheduler/src/lib.rs:356-362 | adds the interval of the task that ran |
| LaneScheduler.PitScheduler.ClearSlot | crates/pit-scheduler/src/lib.rs:378 | empties the caller's own slot and no other |
| LaneScheduler.PitScheduler.NotifyOne | crates/pit-scheduler/src/lib.rs:380 | wakes any one parked caller, and none only when none is parked |
| LaneScheduler.PitScheduler.Snapshot | crates/pit-scheduler/src/lib.rs:289-306 | `shared_snapshot`, one read at a time under the mutex |
| LaneScheduler.PitScheduler.CallerStep | crates/pit-scheduler/src/lib.rs:329-382 | whichever action comes next changes the fields as the protocol says |
| LaneScheduler.PitScheduler.ServeAll | crates/pit-scheduler/src/lib.rs:323-382 | in any interleaving all calls made, and those that come in meanwhile, return, with snapshots, spurious wake-ups, ids drawn by batches and time in between; the pool is left as it was created |
| BatchSafety.StepKeepsJobs | crates/pit-scheduler/src/lib.rs:451-457 | each index below the cursor stays with exactly one worker or is done |
| BatchSafety.StepKeepsScores | crates/pit-scheduler/src/lib.rs:500-516 | completed and failed are the reports plus the workers that have counted and not reported |
| BatchSafety.StepKeepsOrder | crates/pit-scheduler/src/lib.rs:461-462 | in order of entry, every worker counted in `running` has published, or is about to publish, a peak at least as large as its place |
| BatchSafety.StepKeepsLives | crates/pit-scheduler/src/lib.rs:464-515 | the log's events of each id are always exactly the history of its job |
| BatchSafety.StepKeepsLaneLogs | crates/pit-scheduler/src/lib.rs:464-515 | on each lane starts and endings alternate at every moment |
| BatchSafety.StepKeepsDepth | crates/pit-scheduler/src/lib.rs:460-517 | executions begun and not ended according to any prefix of the log stay within the recorded peak |
| BatchSafety.StepKeepsInv | crates/pit-scheduler/src/lib.rs:451-529 | every atomic action of every worker keeps all invariants of a batch |
| BatchSafety.ApplyKeepsInv | crates/pit-scheduler/src/lib.rs:418-529 | so do the start of a batch, ids drawn by `run_one` callers and the passage of time |
| BatchSafety.DrawnIds | crates/pit-scheduler/src/lib.rs:424-427 | ids drawn while others draw too are increasing and distinct |
| BatchTheorems.LogNeverExceedsPeak | crates/pit-scheduler/src/lib.rs:460-517 | for every prefix of the event log, started minus ended is at most `peak_active`, which is at most the lanes and the jobs |
| BatchHistory.PeakIsMostBusy | crates/pit-scheduler/src/lib.rs:461-462 | over every run of a batch the peak is never more than the largest number of executions counted in one of its states, and exactly that number when no worker is about to publish its value |
| BatchHistory.MostBusyIsReached | crates/pit-scheduler/src/lib.rs:461-516 | that number is the head count of a state of the batch |
| BatchHistory.NoStateIsBusier | crates/pit-scheduler/src/lib.rs:461-516 | and no state of the batch has a larger one |
| BatchHistory.EveryJobIsWorked | crates/pit-scheduler/src/lib.rs:472-529 | a reported job was worked on at some state of the batch, by the worker and on the lane its report names |
| BatchHistory.BusyIsTaskTime | crates/pit-scheduler/src/lib.rs:472-499 | over any number of batches busy time is the time their tasks were running, exactly once a batch is joined |
| BatchHistory.IdsAreDense | crates/pit-scheduler/src/lib.rs:424-427 | the ids of a batch in closed form: no id is skipped that nobody else drew |
| BatchTheorems.JobsAreConserved | crates/pit-scheduler/src/lib.rs:452-517 | queued, running, completed and failed add up to the count at every step, minus the workers between lines 458 and 461, plus those between 501 or 508 and 516; none is ever negative |
| BatchTheorems.LanesShowDistinctJobs | crates/pit-scheduler/src/lib.rs:460-517 | no two lanes ever show the same execution |
| BatchTheorems.JoinedCountersAreFinal | crates/pit-scheduler/src/lib.rs:532-539 | after the join nothing is queued or running, completed is the number of successful reports and failed that of the others, together the count; the cursor is at count plus lanes, and all lanes are free |
| BatchTheorems.JoinedLogIsWellFormed | crates/pit-scheduler/src/lib.rs:432-517 | the log of a joined batch has three events a job: the Queued ones first, with increasing ids, then one start and one ending of each id on one lane, as the task decided; lanes alternate |
| BatchTheorems.ReportOf | crates/pit-scheduler/src/lib.rs:525-528 | every job of a joined batch has a report, with its id, its lane and the classifier's verdict on what the task returned there |
| BatchTheorems.ResultsComeBackInSubmissionOrder | crates/pit-scheduler/src/lib.rs:525-538 | any sort by id yields submission order, one result a job, even when `run_one` calls took ids in between |
| BatchTheorems.LogMatchesResults | crates/pit-scheduler/src/lib.rs:464-538 | for each job the log has exactly the start and the ending that its result reports: same lane, same success |
| BatchTheorems.EveryActionGetsCloser | crates/pit-scheduler/src/lib.rs:451-532 | every worker still in its loop can act, and each action lowers a measure, so a batch is joined after finitely many |
| BatchTheorems.BatchUtilisation | crates/pit-scheduler/src/lib.rs:472-499 | over any number of batches busy time is within lane time |
| BatchScheduler.RunState.WorkerStep | crates/pit-scheduler/src/lib.rs:451-529 | whichever action comes next changes the run state as the protocol says |
| BatchScheduler.RunState.Claim | crates/pit-scheduler/src/lib.rs:452-455 | takes the index at the cursor and moves the cursor on; past the end the worker leaves its loop |
| BatchScheduler.RunState.Tally | crates/pit-scheduler/src/lib.rs:500-513 | counts a success or a failure by the verdict |
| BatchScheduler.RunState.RunWorkers | crates/pit-scheduler/src/lib.rs:441-532 | in any interleaving, with time passing and ids drawn by others, all workers leave their loops; the state after is that of a run of the protocol |
| BatchScheduler.PitScheduler.DrawAll | crates/pit-scheduler/src/lib.rs:424-427 | draws one id a job while others draw |
| BatchScheduler.PitScheduler.QueueAll | crates/pit-scheduler/src/lib.rs:432-434 | logs every job as queued, in id order |
| BatchScheduler.PitScheduler.RunManyClassified | crates/pit-scheduler/src/lib.rs:400-551 | an empty batch is an error and changes nothing; otherwise one result a job in submission order with the right verdict; a snapshot of the final state, whose completed and failed are the successful and the other results returned and whose peak is the largest number of executions that ran at once; and a log of three events a job that agrees with the results |
| GridSafety.OneKeepsInv | crates/pit-scheduler/src/lib.rs:329-362 | a `run_one` caller draws from the id counter and adds to the busy time that batches use, and keeps the joint invariant |
| GridSafety.DrawKeepsInv | crates/pit-scheduler/src/lib.rs:424-427 | a batch draws its ids one by one while callers draw theirs in between |
| GridSafety.LaunchKeepsInv | crates/pit-scheduler/src/lib.rs:418-442 | the ids drawn are those of a batch that started in one piece with the same draws in between |
| GridSafety.ApplyKeepsInv | crates/pit-scheduler/src/lib.rs:180-190 | every action of either API keeps both machines' invariants, and the shared counters are what both made of them |
| GridTheorems.IdsAreNeverShared | crates/pit-scheduler/src/lib.rs:329-425 | no id drawn by `run_one` is ever an id of a batch: of the one at hand, of an earlier or of a later one |
| GridTheorems.EachApiIsItself | crates/pit-scheduler/src/lib.rs:180-190 | with both APIs in use each is in a state it can reach on its own, so all results about either hold |
| Utilization.EachApiFits | crates/pit-scheduler/src/lib.rs:356-362 | at any one moment the shared busy time is what both APIs added, and either part is within lane time |
| Utilization.OneApiFits | crates/pit-scheduler/src/lib.rs:356-362 | at every moment of a run that uses only one of the two APIs the busy time is within lane time |
| Utilization.MixedUseIsAtMostTwice | crates/pit-scheduler/src/lib.rs:359-362 | at every moment of every run the shared busy time is at most twice lane time |
| UtilizationRace.MixedUseNeedsTheClamp | crates/pit-scheduler/src/lib.rs:272-279 | and that is reached: a run with one call and one batch on one lane where the quotient, read at one moment, is two |
| Utilization.BilledIsAdded | crates/pit-scheduler/src/lib.rs:356-362 | between two moments the busy time grows by exactly what the tasks that ended were billed |
| Utilization.ClampIsIdleExactly | crates/pit-scheduler/src/lib.rs:272-279 | for the two values read the clamp at one changes nothing exactly when the busy time fits into the lane time |
| Utilization.EndsOfTheScale | crates/pit-scheduler/src/lib.rs:272-279 | the reading is one exactly when busy time is at least lane time, and zero exactly when nothing was billed, no time has passed or there is no lane |
| Utilization.ReadingNeedsNoClamp | crates/pit-scheduler/src/lib.rs:272-279 | for a reading, elapsed time first and busy time later, the clamp changes nothing exactly when the busy time at the first read, and what is billed before the second, fit into the lane time at the first |
| Utilization.OneApiReadingNeedsNoClamp | crates/pit-scheduler/src/lib.rs:272-279 | with one API in use the clamp is idle when no task is billed between the two reads, or no time passes |
| UtilizationRace.LateLoad | crates/pit-scheduler/src/lib.rs:273-278 | otherwise it is not: a run of one call and no batch, and a reading of it whose quotient is as large as one likes |
| Utilization.OneApiReadingIsBounded | crates/pit-scheduler/src/lib.rs:272-279 | with one API the quotient is at most the time at the second read over the time at the first |
| Utilization.MixedReadingIsBounded | crates/pit-scheduler/src/lib.rs:272-279 | with both it is at most twice that |
| NodeReport.FiguresAreCounts | apps/pit-node/src/lib.rs:490-517 | each figure is the number of results with its status, and failed that of its four |
| NodeReport.EveryStatusIsCountedOnce | apps/pit-node/src/lib.rs:490-517 | each status falls into exactly one of completed, failed, timed out and cancelled; memory limit is within failed |
| NodeReport.ReportAgreesWithScheduler | apps/pit-node/src/lib.rs:451-537 | for every batch the node's figures add up to the requested count and agree with the scheduler's completed and failed |
| Percent.PercentDecode | crates/pit-runtime/src/lib.rs:2393-2418 | the scan with its index and buffer computes what the string decodes to, or the same error |
| Percent.DecodeUndoesEncode | crates/pit-runtime/src/lib.rs:2380-2418 | decoding an encoded byte string gives it back, for all byte strings |
| Percent.EncodeIsInjective | crates/pit-runtime/src/lib.rs:2380-2391 | different byte strings have different encodings |
| Percent.DecodeAcceptsWellFormed | crates/pit-runtime/src/lib.rs:2403-2413 | decoding succeeds exactly when every percent sign has two hexadecimal digits behind it |
| Percent.NormalizedExactly | crates/pit-runtime/src/lib.rs:2380-2418 | decode and encode leave a string alone exactly when its escapes are upper-case and none is of an unreserved character, as sections 6.2.2.1 and 6.2.2.2 of RFC 3986 normalise them, and, beyond those sections, everything but unreserved characters is escaped; `Alphabet.EncodesByAlphabet` says which characters those are |
| Percent.EncodedAlphabet | crates/pit-runtime/src/lib.rs:2384-2387 | encoded text holds unreserved characters and percent signs only, so no separator |
| Alphabet.EncodesByAlphabet | crates/pit-runtime/src/lib.rs:2380-2391 | a byte is its own encoding if and only if it is one of the 66 characters of section 2.3 of RFC 3986, written out; any other becomes a percent sign and its two upper-case digits |
| Alphabet.OwnEncoding | crates/pit-runtime/src/lib.rs:2380-2391 | a byte string is its own encoding if and only if all its bytes are among those 66 |
| Alphabet.EncodesBytewise | crates/pit-runtime/src/lib.rs:2380-2391 | the encoding of a string is that of its parts in order |
| Alphabet.DecodesEscapes | crates/pit-runtime/src/lib.rs:2393-2418 | an escape with digits in either case stands for the byte they write |
| Alphabet.DecodesCharacters | crates/pit-runtime/src/lib.rs:2396-2402 | every character but the percent sign stands for itself, a plus sign included |
| Splitting.SplitUndoesJoin | crates/pit-runtime/src/lib.rs:2422-2426 | splitting a join of parts without the separator gives the parts |
| Splitting.JoinUndoesSplit | crates/pit-runtime/src/lib.rs:2422-2428 | joining a split gives the string |
| QueryOrder.SortedByKeyThenValue | crates/pit-runtime/src/lib.rs:2438 | parameters are sorted bytewise by key, then by value |
| QueryOrder.SameSort | crates/pit-runtime/src/lib.rs:2438 | sorting forgets the order of the parameters and nothing else |
| Alphabet.LexIsByteOrder | crates/pit-runtime/src/lib.rs:2438 | the order of the sort is byte order: a prefix first, otherwise the smaller byte at the first difference |
| Canonical.CanonicalShowsMeaning | crates/pit-runtime/src/lib.rs:2420-2451 | the pipeline fails exactly when a segment or parameter does not decode, and otherwise shows the decoded path and parameters |
| Canonical.ShownPathReads | crates/pit-runtime/src/lib.rs:2422-2443 | the shown path, split and decoded again, is the same resource |
| Canonical.ShownQueryReads | crates/pit-runtime/src/lib.rs:2427-2449 | the shown query, split and decoded again, has the same parameters with the same multiplicities |
| Canonical.CanonicalIsNormalForm | crates/pit-runtime/src/lib.rs:2420-2451 | canonicalising a canonical path and query changes nothing |
| Canonical.CanonicalIsCompleteInvariant | crates/pit-runtime/src/lib.rs:2420-2451 | two accepted inputs have one canonical form if and only if their decoded segments agree, up to the empty path being "/", and their decoded parameters agree as multisets |
| Canonical.AcceptsExactlyWellFormed | crates/pit-runtime/src/lib.rs:2420-2437 | an input is rejected if and only if some percent escape anywhere in it is broken |
| Alphabet.PlainPathStays | crates/pit-runtime/src/lib.rs:2420-2443 | a path over the 66 characters and slashes is shown unchanged, with an empty query |
| Alphabet.RootIsShown | crates/pit-runtime/src/lib.rs:2439-2443 | the empty path and the root are shown as a slash |
| Alphabet.PlainRequest | crates/pit-runtime/src/lib.rs:2420-2451 | with parameters over the 66 characters, the path is shown unchanged and the parameters sorted |
| Alphabet.OneParameter | crates/pit-runtime/src/lib.rs:2427-2449 | one parameter, key and value over the 66 characters, is shown as it stands |
| Alphabet.ShownInOrder | crates/pit-runtime/src/lib.rs:2438-2449 | the parameters of every canonical query, split off at their separators, are in order by key and then by value |
| CacheStore.LookupRefinesReadiness | crates/pit-runtime/src/lib.rs:698-718 | for a canonical digest a lookup hits if and only if the readiness check passes and format, world and module size agree |
| CacheStore.UnfitEntriesAreInvisible | crates/pit-runtime/src/lib.rs:698-896 | entries of another schema, another Wasmtime release, another target or architecture, another digest or engine, or with a missing, empty or wrongly sized artifact are neither restored nor listed |
| CacheStore.NewestSurvivesIfItFits | crates/pit-runtime/src/lib.rs:663-671 | a strictly newest entry survives trimming if and only if it fits on its own, and then unchanged |
| CompiledCache.Cache.ListOldestFirst | crates/pit-runtime/src/lib.rs:635-664 | the listing has every entry with an artifact once, oldest first, whatever order the directories come in |
| CompiledCache.Cache.Evict | crates/pit-runtime/src/lib.rs:635-672 | what is left is the newest suffix that fits; restoring the last victim would not fit; the running total never needs its saturation |
| CompiledCache.Cache.CompiledCacheEntry | crates/pit-runtime/src/lib.rs:675-770 | a hit changes nothing; a miss drops a damaged entry, compiles, publishes and trims, or fails to compile with nothing published |
| CompiledCache.Cache.Prepare | crates/pit-runtime/src/lib.rs:963-1085 | a prepared component is the one direct compilation gives, reported as restored if and only if the cached artifact was usable; a hit leaves the store alone, a miss leaves the publication trimmed, after an entry that does not load is gone; a success leaves the request a hit for the next time, unless it was compiled to nothing; with the newest time stamp, preparation succeeds if and only if the cached artifact is usable or the compiled one fits the cache; a failure is that of the compiler, or that the artifact is gone |
| CompiledCache.Cache.WarmDigests | crates/pit-runtime/src/lib.rs:844-905 | the index lists exactly the ready digests, sorted, each once |
| CompiledCache.ColdOutcome | crates/pit-runtime/src/lib.rs:733-769 | after a miss the fresh artifact is there if and only if it fits, and loads to what direct compilation gives |
| CompiledCache.SurvivorIsWarm | crates/pit-runtime/src/lib.rs:740-769 | a publication that survives trimming answers the next lookup and is in the index, if and only if it is not empty |
| CompiledCache.ColdIsUsable | crates/pit-runtime/src/lib.rs:740-769 | a fresh artifact that could be read back is a usable hit for the next preparation, unless it is empty |
| CompiledCache.WarmIsListed | crates/pit-runtime/src/lib.rs:844-905 | a digest that a lookup would restore is in the index if and only if it has its `sha256:` prefix |
| CompiledCache.RestoredButNotListed | crates/pit-runtime/src/lib.rs:593-604 | an entry published for a digest without the prefix is restored by the next lookup and not listed |
| CompiledCache.OversizedModule | crates/pit-runtime/src/lib.rs:757-769 | a module that compiles and whose cached preparation fails, because its compiled form alone exceeds the cache |
| Toolchain.CompiledBytesAreTrue | crates/pit-runtime/src/lib.rs:733-757 | what is published under a key is the compiled form of every module with that digest |
| CacheProtocol.StepKeepsStoreFaithful | crates/pit-runtime/src/lib.rs:607-769 | no file operation of any preparation puts foreign bytes under a key |
| CacheProtocol.ApplyKeepsInv | crates/pit-runtime/src/lib.rs:614-770 | nor does a preparation that dies between two file operations, a publication that fails because its directory is removed under it, trimming, or damage to the files |
| CacheProtocol.CacheIsTransparent | crates/pit-runtime/src/lib.rs:963-1085 | from any faithful store, over any interleaving, crash and damage, every successful preparation has the component direct compilation gives, and the store stays faithful |
| CacheProtocol.PreparationsEnd | crates/pit-runtime/src/lib.rs:963-1085 | a preparation is over after at most seventeen operations of its own, rebuilding once at most, whatever others do |
| CacheProtocol.PreparationsNeverWait | crates/pit-runtime/src/lib.rs:675-770 | until it is over its next operation is always possible |
| CacheSolo.AloneIsPrepare | crates/pit-runtime/src/lib.rs:675-1085 | a preparation that has the cache to itself ends, operation by operation, with the store and the result of the cached branch, for every trimming the listing allows and in either restore mode |
| WarmupSafety.StepKeepsCells | apps/pit-garage/src/main.rs:326-331 | a busy cell is being filled by exactly the request it names |
| WarmupSafety.StepKeepsReady | apps/pit-garage/src/main.rs:341-407 | success of a cell means that its digest is in the dispatcher's map |
| WarmupSafety.StepKeepsCreations | apps/pit-garage/src/main.rs:319-336 | a digest gets a new cell only after a removal, and every removal is by a request that saw an error |
| WarmupSafety.StepKeepsOpen | apps/pit-garage/src/main.rs:335 | unfilled cells of a digest are the one in the map and those a late removal took out of it |
| WarmupSafety.StepKeepsMap | apps/pit-garage/src/main.rs:332-338 | a cell in the map holds a success, or a request is still about to settle it |
| WarmupSafety.StepKeepsBudget | apps/pit-garage/src/main.rs:357-362 | permits held and permits free always make the budget |
| WarmupSafety.StepKeepsInv | apps/pit-garage/src/main.rs:313-560 | every atomic action of every request keeps all warm-up invariants |
| WarmupTheorems.LanesGoToReadyArtifacts | apps/pit-garage/src/main.rs:460-508 | a request whose warm-up succeeded finds its artifact in the dispatcher's map at any later time, so no lookup fails |
| WarmupTheorems.PreparationsAddUp | apps/pit-garage/src/main.rs:381-399 | preparations are compilations, restores, failures and those in flight; those never exceed the budget of at least one; executions are the requests dispatched; admissions stay within the limit |
| WarmupTheorems.SingleFlight | apps/pit-garage/src/main.rs:318-338 | over any run the warm-ups started for a digest are at most one more than the requests refused because one failed; a ready digest had at least one |
| WarmupTheorems.FlightsInProgress | apps/pit-garage/src/main.rs:326-337 | the warm-ups running for a digest are at most one more than the removals that hit a younger cell |
| WarmupRace.TwoWarmupsAtOnce | apps/pit-garage/src/main.rs:335 | a run in which two warm-ups of one digest are in progress, because the removal is by digest |
| WarmupTheorems.ReadyDigestsAreNotPreparedAgain | apps/pit-garage/src/main.rs:347-356 | once a digest is ready, preparations of it are at most the requests that had already looked and not found it |
| WarmupTheorems.NoDeadlock | apps/pit-garage/src/main.rs:313-407 | while a request is unanswered some request can move |
| WarmupTheorems.RunsAreShort | apps/pit-garage/src/main.rs:409-560 | over any run there are at most sixteen moves a request |
| WarmupTheorems.QuietGarage | apps/pit-garage/src/main.rs:332-338 | when nothing can move all requests are answered, all permits are back, and no failed cell is left: every digest in the map is ready |
| WarmupOutcomes.TroublesAreFailures | apps/pit-garage/src/main.rs:341-407 | over any run the warm-ups of a digest that failed are exactly the bad answers its requests got from the store or the runtime |
| WarmupOutcomes.RefusalNeedsTrouble | apps/pit-garage/src/main.rs:332-338 | no request is refused as unavailable unless a request for its digest got a bad answer before |
| WarmupOutcomes.TurnedAwayWhenFull | apps/pit-garage/src/main.rs:453-459 | the requests turned away as overloaded are exactly those that found as many others admitted as the limit allows |
| WarmupOutcomes.RoomForAll | apps/pit-garage/src/main.rs:453-459 | with at most as many requests as the limit allows nobody finds it reached |
| WarmupOutcomes.PermitsAreUsed | apps/pit-garage/src/main.rs:357-362 | a request that wants to prepare waits exactly while the permits of the budget, at least one, are all held |
| WarmupOutcomes.GoodAnswersServe | apps/pit-garage/src/main.rs:313-560 | if no request for a digest gets a bad answer, one warm-up at most serves them all; once nothing can move each was executed or turned away as overloaded; and the digest is ready as soon as one is executed |
| WarmupOutcomes.GoodAnswersAndRoom | apps/pit-garage/src/main.rs:409-560 | with good answers for every digest and room for all, every request is executed |
| WarmupOutcomes.AnswersAreExecutions | apps/pit-garage/src/main.rs:490-560 | the requests answered as executed are exactly those whose execution was asked for |
| WarmupOutcomes.ReadyIsPrepared | apps/pit-node/src/lib.rs:224-242 | a digest is in the dispatcher's map exactly when the runtime has prepared it |
| WarmupOutcomes.SourcesAreCounted | apps/pit-garage/src/main.rs:392-399 | restores and compilations count what the runtime reported, up to the requests that have yet to count theirs |
| GarageAgent.PitHttpDispatcher.HasPrepared | apps/pit-node/src/lib.rs:213-218 | whether the digest is in the map |
| GarageAgent.PitHttpDispatcher.RegisterWithReport | apps/pit-node/src/lib.rs:224-242 | a prepared artifact is added to the map and nothing leaves it; a failed one changes nothing |
| GarageAgent.GarageAgent.Admit | apps/pit-garage/src/main.rs:453-459 | a request is admitted exactly when a permit is free, and takes it |
| GarageAgent.GarageAgent.Attach | apps/pit-garage/src/main.rs:319-325 | the digest's cell, created when there is none |
| GarageAgent.GarageAgent.GetOrInit | apps/pit-garage/src/main.rs:326-331 | a request fills an empty cell, or reads a filled one |
| GarageAgent.GarageAgent.Register | apps/pit-garage/src/main.rs:382-391 | a prepared artifact goes into the dispatcher's map; otherwise the warm-up fails |
| GarageAgent.GarageAgent.CountSource | apps/pit-garage/src/main.rs:392-402 | a preparation is counted as a restore or as a compilation, by its report |
| GarageAgent.GarageAgent.ReleasePermit | apps/pit-garage/src/main.rs:357-407 | the preparation permit goes back at the end of the warm-up, on every way out |
| GarageAgent.GarageAgent.Conclude | apps/pit-garage/src/main.rs:332-338 | success means the digest is ready; an error removes whatever cell the digest has |
| GarageAgent.GarageAgent.Dispatch | apps/pit-garage/src/main.rs:499-508 | the dispatcher's lookup finds the artifact |
| GarageAgent.GarageAgent.Reply | apps/pit-garage/src/main.rs:453-560 | the admission permit goes back at the end of the request, on every way out |
| GarageAgent.GarageAgent.ServeAll | apps/pit-garage/src/main.rs:409-560 | in any interleaving and with any answers all requests received, and those that come in meanwhile, are answered, all permits return, and what the warm-up map holds is ready; with good answers all are executed or turned away as overloaded, and all are executed when there is room for them |
| Invocation.ChainsThatRun | apps/pit-garage/src/main.rs:439-452 | a chain of Garages runs if and only if no Garage is on it twice or was visited before, and every hop is within both depth limits |
| Invocation.ChainsEnd | apps/pit-garage/src/main.rs:439-452 | where a chain is refused, and why: a call too deep for the sender is not sent, then a Garage already in the path refuses as a cycle, then one beyond 16 as too deep |
| Invocation.CallThatLeaves | apps/pit-garage/src/main.rs:473-506 | the call that leaves a chain is one deeper for each of its Garages and lists them in order, unless the last one's own limit keeps it back |
| Invocation.ChainsAreFinite | apps/pit-garage/src/main.rs:439-474 | a chain from a fresh request runs on different Garages, at most all of them and at most 17 |
| Invocation.ChainsCanBeFull | apps/pit-garage/src/main.rs:616-620 | both limits are reached by any different Garages whose own depth limit allows it |

## Left out

- CacheProtocol.CacheIsTransparent: assumes a deterministic compiler, a deserialiser that inverts it, digests that identify modules, and damage that leaves an artifact unloadable or as it was (`Toolchain.Lawful`, `CacheProtocol.Harmless`). Bytes written by somebody else that do load are outside it.
- CompiledCache.Cache.Prepare: the exact condition for success is stated for an artifact whose time stamp is strictly the newest; with equal time stamps the result is still correct, but which entry goes first is the file system's choice.
- CompiledCache.Cache.CompiledCacheEntry: writing to the disk succeeds as long as nobody else removes the directory; that case is in `CacheProtocol`, a full disk and the like are not modelled.
- CompiledCache.Cache.Evict: directories are removed at once and removal never fails; a removal that the file system refuses, which the source ignores, is not modelled. Trimming one listing while others publish is covered in `CacheProtocol` by removing any set of entries.
- Utilization.ClampIsIdleExactly: the quotient is a real number instead of a float.
- WarmupTheorems.SingleFlight: requests are not cancelled. A request dropped while it fills a cell lets the next one start over, and its blocking preparation continues.
- LaneTheorems.NoDeadlock: tasks return. There is no guard between claiming a lane and clearing it, so a panicking task keeps its lane.
- Invocation.ChainsAreFinite: PitLane, which places nested calls, is not part of this model; it is assumed to forward depth and visited ids as it got them, and ids survive being printed and parsed.
- LaneScheduler.PitScheduler.ServeAll: calls the atomic actions in an order of its choosing; the source has threads do this. Real time and thread priorities do not appear.
- BatchScheduler.PitScheduler.RunManyClassified: id counter and busy time are handed from run to run inside the object; what a task returns is a function of id and lane.
- GarageAgent.GarageAgent.Return: the execution on a lane is the lane pool's own model; here it is one step.
- Wrap-around of the 64-bit counters and of the size total, and saturation of the busy time: naturals are unbounded.
- The assignment callback, timings in reports, gaps and queue durations: they influence nothing modelled here.
- Temporary files, `fsync` and the two-character directory level: renames are atomic, and the level follows from the digest.
- Keys with path separators in them: digests are taken as plain names.
- Wasmtime compilation, linking, instantiation and deserialisation; WASI and HTTP hosts; memory limiters and timeouts.
- SHA-256, HMAC, dates and the rest of SigV4 verification.
- Registration, heartbeat transport, artifact acquisition and Paddock back ends: answers of the artifact store are arbitrary here; counters of remote acquisitions and cache publications are not kept.
- Request validation before admission other than the two guards of nested calls, status texts, environment and runtime checks, the command line, benchmarks: single branches.
