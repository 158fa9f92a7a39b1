# Limen, verified

Dafny models of the five small state machines at the heart of Limen, an admission-control library,
with proofs about every run or every interleaving of them.

- **Slot guards and the outcome ledger** (`Guards`, `GuardPrograms`): move-only guards that report
  each admission once, whatever program moves them about.
- **Blocking limiters** (`Blocking`, `BlockingInterleaving`, `BlockingInvariant`, `BlockingRuns`,
  `BlockingSolo`, `BlockingStranding`): the fast path, parking, time-outs, the hand-off from a release
  to a waiter, and the mirroring of completions, for the first-in-first-out and the last-in-first-out
  limiter over a simple limiter; what each call does when nobody interrupts it, and how a waiter can
  be left behind.
- **Partitioned limiter** (`Partitioned`, `PartitionedInterleaving`, `PartitionedRuns`): quotas, the
  gate with its burst and saturated branches, the two-step release and the sleeping budget.
- **Gradient2** (`RealMath`, `ExpAvg`, `Gradient2`, `Gradient2Recovery`, `Gradient2Liveness`,
  `Gradient2Traps`, `Gradient2TrapRuns`, `Gradient2Conditions`): the adaptive cap, with the safety
  properties of the repository's TLA+ proposal, explicit recovery times, and the exact conditions of
  its two liveness properties.
- **CoDel** (`Codel`, `CodelRuns`, `CodelRfc`): the drop decision, its schedule over whole histories,
  and its agreement with the dequeue routine of sections 5.5 and 5.6 of RFC 8289.
- **Windowed limit** (`OrderStatistics`, `SampleWindows`, `Windowed`, `WindowedRuns`,
  `WindowedInterleaving`, `WindowedInvariant`, `WindowedSolo`): the two sample windows, and the double buffer that
  stands for one list of samples since the last boundary.

Code that updates objects is modelled by classes whose methods are proved against functions on
values; the runs and interleavings are then reasoned about on those values. In the interleaving
models each access to an atomic, and each region under a mutex, is one step of one thread, and every
schedule is allowed. Weak compare-and-swaps may fail spuriously. Doubles are reals. `Counting` holds
sums and counts that the interleaving models share.

Three statements found in the repository do not hold of the code as they stand; for each there is a
refuting run and the exact condition under which it holds:

- test/traffic_simulation_test.cc:515 asserts that the partitioned limiter's in-flight count stays at
  or below its cap. `PartitionedRuns.CapIsOvershotByOneThread` shows it does not, even with calls one
  at a time; `PartitionedRuns.CapIsKeptIff` says exactly when it does, and
  `PartitionedInterleaving.OvershootBound` and `PartitionedRuns.OvershootAttained` give the true,
  attained bound.
- formal_methods/gradient2_tla_proposal.md:65 asks for the cap to recover when good windows recur
  forever. That holds exactly of configurations without a trap, a level that one good window cannot
  lift past what the worst gradient keeps up: `Gradient2TrapRuns.RecoversAfterSpikeIff`, as a finite
  check for every rising probe, the default one included, `Gradient2Conditions.RecoversIffNoTrapCell`,
  and in closed form for constant probes `Gradient2Conditions.RecoversIffConstantProbe`. The builder's
  defaults are trapped at their floor of 20: `Gradient2Conditions.DefaultsAreTrapped`.
- formal_methods/gradient2_tla_proposal.md:75 asks for the long-term RTT to come back when a baseline
  latency recurs forever. That holds exactly of a long window of one sample:
  `Gradient2Liveness.RecoversFromAmnesiaIff`.

When instead every window from some point on is good, the loop recovers, with explicit window counts:
`Gradient2Recovery.Recovers`, `Gradient2Recovery.RecoversWithDefaultProbe`,
`Gradient2Recovery.AmnesiaEnds` and `Gradient2Recovery.AmnesiaEndsByDrift`.

## Model

| member | source | states |
|---|---|---|
| `Guards.AbstractLimiter.DoAcquire` | src/simple_limiter.cc:44-66 | the compare-and-swap loop admits exactly below the cap, adding one, however often the weak exchange fails spuriously |
| `Guards.AbstractLimiter.TryAcquire` | src/abstract_limiter.cc:75-108 | bypass counts at acquire time and always admits; otherwise a refusal is counted or a live guard is returned with in-flight one higher |
| `Guards.AbstractLimiter.OnSlotComplete` | src/abstract_limiter.cc:117-143 | a bypassed completion changes nothing; any other gives the slot back, counts its outcome, and feeds a sample for success and drop only |
| `Guards.SlotGuard.constructor` | include/limen/limiter.h:167-173 | a new guard is attached and not completed |
| `Guards.SlotGuard.Moved` | include/limen/limiter.h:119-127 | the moved-to guard takes everything over and the source is detached |
| `Guards.SlotGuard.Complete` | include/limen/limiter.h:175-182 | only a live guard reports, with its status, and is completed afterwards |
| `Guards.SlotGuard.MoveAssign` | include/limen/limiter.h:129-145 | a live target is completed as ignored, the source is taken over and detached; self-assignment does nothing |
| `Guards.SlotGuard.Destroy` | include/limen/limiter.h:108-114 | a live guard going out of scope is completed as ignored |
| `GuardPrograms.LedgerBalances` | include/limen/limiter.h:106-190 | after any program of acquires, moves, assignments, completions and destructions, each admission is held by one live guard or was reported once, and calls, in-flight, outcomes and samples balance |
| `GuardPrograms.EachAdmissionCompletesOnce` | include/limen/limiter.h:108-182 | when all guards are out of scope, the admissions and the completions correspond one to one and nothing is in flight |
| `GuardPrograms.NeverOverCap` | src/abstract_limiter.cc:75-108 | live guards that hold a slot never exceed the largest cap any call saw |
| `GuardPrograms.StepOwns` | include/limen/limiter.h:106-190 | the attached, completed and bypassed flags amount to owning admissions: an acquire takes a slot exactly while fewer than the cap are held, a completion reports its own status once, and a guard destroyed or assigned over reports being ignored |
| `GuardPrograms.ProgramOwns` | include/limen/limiter.h:106-190 | so over whole programs: who holds which admission, and the completions in order with their statuses, are those of that machine |
| `Blocking.BlockingLimiter.Register` | src/blocking_limiter.cc:90-94 | a delegate guard is registered under a number never used before |
| `Blocking.BlockingLimiter.TryFast` | src/blocking_limiter.cc:86-97 | the fast path admits exactly below the delegate's cap and registers the new guard, as an uninterrupted acquire of the interleaving model does; a refusal changes only the delegate's rejection count |
| `Blocking.BlockingLimiter.Park` | src/lifo_blocking_limiter.cc:131-140 | the waiter goes to the back, or to the front unless the backlog is full, in which case nothing changes |
| `Blocking.BlockingLimiter.EraseForward` | src/blocking_limiter.cc:132-137 | the forward search erases the first occurrence and nothing else |
| `Blocking.BlockingLimiter.EraseBackward` | src/lifo_blocking_limiter.cc:161-169 | the backward search erases the last occurrence and nothing else |
| `Blocking.BlockingLimiter.FinishWait` | src/blocking_limiter.cc:122-154 | a waiter with a slot registers it and leaves the queue alone; one without leaves the queue, the others keeping their order |
| `Blocking.BlockingLimiter.ServeHead` | src/blocking_limiter.cc:203-215 | one round serves and notifies the head exactly if the delegate is below its cap |
| `Blocking.BlockingLimiter.Unblock` | src/blocking_limiter.cc:196-217 | of n waiters the first min(n, cap - in-flight), in order, get distinct live slots and are notified; it ends with an empty queue or a full delegate |
| `Blocking.BlockingLimiter.OnSlotComplete` | src/blocking_limiter.cc:157-194 | the inner guard found by number is told the same status, and the freed room goes to the queue, as an uninterrupted release of the interleaving model does; an unknown number frees nothing |
| `BlockingInterleaving.FirstAt` | src/blocking_limiter.cc:132-137 | the first position of an element, or the end |
| `BlockingInterleaving.LastAt` | src/lifo_blocking_limiter.cc:161-169 | one past the last position of an element, or zero |
| `BlockingInvariant.ErasedRemoves` | src/lifo_blocking_limiter.cc:161-169 | either search removes exactly the timed-out waiter from a queue without repetitions |
| `BlockingInvariant.ErasedOrder` | src/blocking_limiter.cc:132-137 | either search keeps the parking order of the rest |
| `BlockingInvariant.TokensStep` | src/blocking_limiter.cc:84-217 | each step keeps delegate in-flight equal to the number of delegate guards and no guard in two places |
| `BlockingInvariant.HomeStep` | src/blocking_limiter.cc:84-155 | each step keeps a live waiter either queued or handed a slot, never both, and a guard in a local variable exactly where the code has one |
| `BlockingInvariant.ServedStep` | src/blocking_limiter.cc:196-217 | each step keeps the order in which the first-in-first-out limiter serves |
| `BlockingInvariant.StepKeeps` | src/blocking_limiter.cc:84-217 | every step of every thread keeps the whole inductive invariant |
| `BlockingInvariant.RunKeeps` | src/lifo_blocking_limiter.cc:116-236 | so does every interleaving, for both disciplines |
| `BlockingRuns.Conservation` | src/blocking_limiter.cc:84-217 | in every interleaving delegate in-flight is the number of delegate guards, each in exactly one named place, callers hold at most cap outer guards, and the delegate's admissions are its live guards plus its completions of each status |
| `BlockingRuns.Quiescence` | src/blocking_limiter.cc:157-194 | with no call under way in-flight is the number of outer guards held, every status has been mirrored, nobody is queued, and admissions balance; with no outer guard held in-flight is zero |
| `BlockingRuns.TimeoutRace` | src/blocking_limiter.cc:114-138 | a waiter that looks after being notified or timed out finds either a slot, which it takes, or itself queued once, and is removed; no guard is lost or doubled |
| `BlockingRuns.NotifiedMeansHandedOver` | src/blocking_limiter.cc:210-214 | a parked waiter has been notified exactly if it has a slot, and exactly if it is no longer queued |
| `BlockingRuns.QueueIsTheWaiters` | src/lifo_blocking_limiter.cc:131-172 | the queue is exactly the live waiters without a slot, each once, and stays within the backlog |
| `BlockingRuns.ServiceOrder` | src/lifo_blocking_limiter.cc:220-236 | each hand-off serves, of all live waiters without a slot, the longest parked or the most recently parked, and gives it a slot and a notification |
| `BlockingRuns.ServedInParkingOrder` | src/blocking_limiter.cc:196-217 | over a whole run the first-in-first-out limiter serves parkings in the order they happened |
| `BlockingRuns.HandOffEnds` | src/blocking_limiter.cc:196-217 | once a hand-off holds the mutex it shortens the queue only from the front, undisturbed, and gives the mutex up only with an empty queue or when the delegate refuses the head at the cap |
| `BlockingSolo.CallsGoOn` | src/blocking_limiter.cc:84-217 | at each step of any run: a completion extracts, mirrors its own status and goes on serving, and ends only with an empty queue or a refusal at the cap; an acquire turns away only at the cap, retries with the live count, and then parks unless a bounded backlog is full |
| `BlockingSolo.HandOff` | src/blocking_limiter.cc:196-217 | an uninterrupted hand-off serves min(n, cap - in-flight) waiters, the head first: each off the queue, notified, with a new guard of its own, and nothing else changed |
| `BlockingSolo.SoloRelease` | src/blocking_limiter.cc:157-217 | an uninterrupted completion frees its slot under its status and then serves exactly the waiters there is room for |
| `BlockingSolo.ReleaseIsAnUninterruptedCall` | src/blocking_limiter.cc:157-217 | from every reachable state with the mutex free that run exists, ends as the method `OnSlotComplete` does, and leaves nobody waiting whom the delegate would admit |
| `BlockingSolo.SoloAcquire` | src/blocking_limiter.cc:84-97 | an uninterrupted acquire below the cap is admitted and registered under the next number, whoever is queued |
| `BlockingSolo.SoloPark` | src/lifo_blocking_limiter.cc:116-140 | at or above the cap it parks at the back, or at the front of a backlog with room; a full backlog turns it away with nothing changed |
| `BlockingSolo.AcquireIsAnUninterruptedCall` | src/lifo_blocking_limiter.cc:116-140 | both from every reachable state with the mutex free, ending as the method `TryFast` does |
| `BlockingSolo.SoloCollect` | src/blocking_limiter.cc:114-154 | a waiter with a slot registers it whether it was notified or timed out |
| `BlockingSolo.SoloGiveUp` | src/lifo_blocking_limiter.cc:145-180 | a waiter without a slot cannot have been notified; its time-out takes it off the queue |
| `BlockingSolo.CapIsLastStored` | src/simple_limiter.cc:48-56 | the cap a run ends with is the one stored last; no call changes it |
| `BlockingStranding.AcquirerCanBeStranded` | src/blocking_limiter.cc:84-109 | from every state with all threads idle and the delegate exactly full, one acquire and one release can interleave so that the acquirer is parked, unnotified, while the delegate has room and nobody else has anything left to do |
| `BlockingStranding.SomeRunStrands` | src/lifo_blocking_limiter.cc:116-149 | such a run exists from a new limiter with a cap of one and two threads, for both disciplines |
| `Partitioned.QuotaIsLeast` | src/abstract_partitioned_limiter.cc:52-55 | a quota is the least number of slots that is at least one and covers the share of the cap |
| `Partitioned.QuotasAreLeast` | src/abstract_partitioned_limiter.cc:353-359 | so is the quota of each partition, at its own place in the list |
| `Partitioned.QuotaMonotone` | src/abstract_partitioned_limiter.cc:52-55 | a larger cap never shrinks a quota |
| `Partitioned.QuotaSum` | src/abstract_partitioned_limiter.cc:178-186 | the quotas of n declared partitions with shares of at most one in all, and of the unknown partition, exceed a positive cap by at most n; with the sum check's tolerance, by at most n plus the billionth of the cap rounded up |
| `Partitioned.PartitionedLimiter.constructor` | src/abstract_partitioned_limiter.cc:243-260 | declared partitions in order, then unknown with no share, all empty, with the quotas of the initial cap |
| `Partitioned.PartitionedLimiter.RecomputePartitionLimits` | src/abstract_partitioned_limiter.cc:353-359 | every partition gets the quota of the new cap |
| `Partitioned.PartitionedLimiter.ResolvePartition` | src/abstract_partitioned_limiter.cc:342-351 | the first resolver that names a configured partition decides; if none does, unknown |
| `Partitioned.PartitionedLimiter.DoAcquire` | src/abstract_partitioned_limiter.cc:279-323 | a lone call is admitted exactly below the cap or below its quota, counting in both counters; a refusal changes nothing |
| `Partitioned.PartitionedLimiter.MaybeBackoffDelay` | src/abstract_partitioned_limiter.cc:383-400 | sleeps exactly if the partition delays refusals and the budget has room, and gives its place back |
| `Partitioned.PartitionedLimiter.Release` | src/abstract_partitioned_limiter.cc:325-327 | a completion takes one from in-flight and from the partition's counter |
| `Partitioned.GateIsAnUninterruptedCall` | src/abstract_partitioned_limiter.cc:279-323 | the lone-thread gate is a run of the interleaving model |
| `Partitioned.ReleaseIsAnUninterruptedCall` | src/abstract_partitioned_limiter.cc:325-327 | a lone completion is a run of the interleaving model that ends in the view `Release` leaves, with one guard of the partition fewer held |
| `Partitioned.RefusalIsAnUninterruptedCall` | src/abstract_partitioned_limiter.cc:293-400 | a lone refusal, its sleep included, is a run that leaves everything as it was |
| `Partitioned.ReleaseUndoesAdmission` | src/abstract_partitioned_limiter.cc:293-327 | a release of the partition just admitted to restores in-flight and every busy counter |
| `Partitioned.AdmitAndRelease` | src/abstract_partitioned_limiter.cc:293-327 | through the methods: acquire and release leave the limiter as it was, and admission is exactly below the cap or the quota |
| `Partitioned.OvershootOfConfiguration` | src/abstract_partitioned_limiter.cc:279-327 | n declared partitions with shares of at most one in all and T threads never hold more than twice the cap plus n - 2 + T slots; with the tolerance, plus its slack |
| `PartitionedInterleaving.LedgerStep` | src/abstract_partitioned_limiter.cc:279-327 | each step keeps every busy counter equal to the guards held plus the threads between the two counters |
| `PartitionedInterleaving.PotentialStep` | src/abstract_partitioned_limiter.cc:293-320 | each step keeps the potential: excess over the quotas plus bursts already committed to |
| `PartitionedInterleaving.RunKeeps` | src/abstract_partitioned_limiter.cc:279-400 | every interleaving keeps ledger, potential and sleeping budget |
| `PartitionedInterleaving.OvershootBound` | src/abstract_partitioned_limiter.cc:279-327 | with T threads in-flight never exceeds the sum of the quotas plus cap - 2 + T, however cap and quotas move below their bounds |
| `PartitionedInterleaving.SequentialOvershootBound` | src/abstract_partitioned_limiter.cc:293-320 | with one thread, the sum of the quotas plus cap - 1 |
| `PartitionedInterleaving.LedgerAndBudget` | src/abstract_partitioned_limiter.cc:383-400 | busy counters sum to in-flight plus threads mid-acquire or mid-release; the delayed counter is the number of sleepers and within its budget |
| `PartitionedInterleaving.QuiescentLedger` | src/abstract_partitioned_limiter.cc:325-327 | once all threads are idle each busy counter is exactly the guards held, and nobody sleeps |
| `PartitionedRuns.SoloBurst` | src/abstract_partitioned_limiter.cc:293-320 | an uninterrupted call below the cap is admitted whatever its partition holds |
| `PartitionedRuns.SoloSwap` | src/abstract_partitioned_limiter.cc:293-320 | an uninterrupted call at the cap is admitted below its quota |
| `PartitionedRuns.SoloRelease` | src/abstract_partitioned_limiter.cc:325-327 | an uninterrupted completion gives the slot back in both counters |
| `PartitionedRuns.SoloBackoff` | src/abstract_partitioned_limiter.cc:383-400 | a refused call with a delay and room in the budget can sleep, counted, and leaves everything as it was |
| `PartitionedRuns.BackoffStep` | src/abstract_partitioned_limiter.cc:383-400 | at each step of any run a refused call leaves without sleeping only if its partition has no delay or it saw the budget used up; it looks at the live count and sleeps only by raising it |
| `PartitionedRuns.LimitsAreLastStored` | src/abstract_partitioned_limiter.cc:353-359 | the cap and each quota a run ends with are those stored last; no call changes them |
| `PartitionedRuns.OvershootAttained` | src/abstract_partitioned_limiter.cc:293-320 | the overshoot bound is attained for every number of threads |
| `PartitionedRuns.CapIsOvershotByOneThread` | test/traffic_simulation_test.cc:515 | with two partitions a single thread drives in-flight past the cap, contrary to the assertion |
| `PartitionedRuns.CapIsKeptIff` | test/traffic_simulation_test.cc:515 | no run exceeds the cap exactly if unknown is the only partition and one thread calls |
| `PartitionedRuns.RefusalIsJustified` | src/abstract_partitioned_limiter.cc:293-320 | while caps and quotas are stored at any time: during a refused call an in-flight count of the moment reached a cap of the moment, and the partition's busy counter its quota |
| `PartitionedRuns.RefusalWithFixedLimits` | src/abstract_partitioned_limiter.cc:293-320 | with fixed cap and quotas, a refused call saw in-flight at the cap and its partition at its quota, each at one moment |
| `ExpAvg.FactorIsWeight` | src/exp_avg_measurement.cc:24 | the steady-state factor is a weight: positive, at most one, and 2 over the window plus one |
| `ExpAvg.AddStaysWithin` | src/exp_avg_measurement.cc:31-41 | warm-up mean and smoothed value stay in every interval that holds all samples |
| `ExpAvg.WarmUpIsMean` | src/exp_avg_measurement.cc:31-41 | during warm-up the value times the number of samples is their sum |
| `ExpAvg.WarmValueMoves` | src/exp_avg_measurement.cc:31-41 | after it the value moves toward the sample by the factor of the distance |
| `ExpAvg.ExpAvgMeasurement.constructor` | src/exp_avg_measurement.cc:28-29 | starts empty |
| `ExpAvg.ExpAvgMeasurement.Add` | src/exp_avg_measurement.cc:31-41 | the mean of the warm-up samples, then the weighted mean, as the value function `Added` says |
| `ExpAvg.ExpAvgMeasurement.Reset` | src/exp_avg_measurement.cc:43-47 | back to empty |
| `ExpAvg.ExpAvgMeasurement.Update` | src/exp_avg_measurement.cc:49-51 | only the value is mapped |
| `Gradient2.Gradient2Limit.constructor` | src/gradient2_limit.cc:117-160 | starts at the initial limit with an empty long-term average |
| `Gradient2.Gradient2Limit.Update` | src/gradient2_limit.cc:162-213 | one update as the value function `Updated` says; returns the truncated estimate |
| `Gradient2.Gradient2Limit.NextEstimate` | src/gradient2_limit.cc:198-209 | gradient, probe, smoothing and clamp in the code's order equal the closed form |
| `Gradient2.BlendBounds` | src/gradient2_limit.cc:202-206 | the smoothed new limit lies between the shedding floor and the smoothed probe |
| `Gradient2.BlendMoves` | src/gradient2_limit.cc:202-206 | the new limit lies the smoothing weight of the way from the estimate to gradient times estimate plus probe |
| `Gradient2.UpdateBounds` | formal_methods/gradient2_tla_proposal.md:50-55 | one update keeps the range, sheds at most half the smoothing weight, and rises by at most the smoothed probe |
| `Gradient2.NoSheddingWithoutQueuing` | formal_methods/gradient2_tla_proposal.md:36-41 | a window within tolerance never lowers the cap; with demand for at least half the cap it adds exactly the smoothed probe up to the ceiling |
| `Gradient2.UnusedWindowKeepsTheCap` | src/gradient2_limit.cc:162-196 | a window without a measured latency changes nothing; one with demand for less than half the cap keeps the cap and still enters the long-term RTT |
| `Gradient2.GradientIsQuotient` | src/gradient2_limit.cc:198-200 | between its bounds the gradient times the short latency is the tolerance times the long one |
| `Gradient2.GradientIsHalf` | src/gradient2_limit.cc:198-200 | beyond twice that latency it is one half |
| `Gradient2.TruncateDropsFraction` | src/gradient2_limit.cc:212 | the limit handed out is the estimate without its fraction |
| `Gradient2.SheddingVelocity` | src/gradient2_limit.cc:162-213 | after k updates of any kind the cap is in range and at least est0 * (1 - smoothing/2)^k |
| `Gradient2.CorrectionBounds` | src/gradient2_limit.cc:183-189 | drift correction lowers the average but never below the current sample |
| `Gradient2.CorrectionIff` | src/gradient2_limit.cc:183-189 | five percent come off exactly when the average is more than twice the current sample |
| `Gradient2.LongRttHull` | src/gradient2_limit.cc:174-189 | after any history the long-term RTT lies between the least and the greatest positive sample |
| `Gradient2Recovery.DeviationStep` | src/gradient2_limit.cc:174-189 | past warm-up one update under latency r shrinks the distance to r by the sample's weight without changing its sign |
| `Gradient2Recovery.ExcessDecays` | src/exp_avg_measurement.cc:31-51 | under constant r the excess after n windows is at most the first one over 1 + 2n/(w+1), and never negative |
| `Gradient2Recovery.DeficitDecays` | src/exp_avg_measurement.cc:31-51 | a deficit vanishes at the same rate and never turns into an excess |
| `Gradient2Recovery.AmnesiaEnds` | formal_methods/gradient2_tla_proposal.md:69-77 | under constant latency the long-term RTT is back within five percent after an explicit number of windows, whatever the correction does |
| `Gradient2Recovery.DriftPhase` | src/gradient2_limit.cc:183-189 | drift correction: after k windows of one latency the long-term RTT is at most twice it, or at most 0.95^k of what it was |
| `Gradient2Recovery.ExcessDecaysGeometrically` | src/exp_avg_measurement.cc:31-51 | the excess over a constant latency shrinks by the sample weight in every window |
| `Gradient2Recovery.AmnesiaEndsByDrift` | formal_methods/gradient2_tla_proposal.md:69-77 | a drift phase until 0.95^k brings the spike to twice the latency and a geometric one to a twentieth end within five percent |
| `Gradient2Recovery.CatchesUp` | src/gradient2_limit.cc:162-213 | after ceil((w+1)/(2(tol-1))) windows of one latency the loop treats it as within tolerance |
| `Gradient2Recovery.CaughtUpIsHealthy` | src/gradient2_limit.cc:162-213 | from then on the gradient stays one while demand lasts |
| `Gradient2Recovery.Climbs` | src/gradient2_limit.cc:202-212 | while healthy the cap gains the smoothed probe per window until it meets the ceiling |
| `Gradient2Recovery.Recovers` | formal_methods/gradient2_tla_proposal.md:60-67 | from any warm state constant latency and demand bring the cap exactly to its ceiling within ceil((w+1)/(2(tol-1))) + ceil((max-min)/smoothing) windows, and keep it there |
| `Gradient2Recovery.DefaultSqrtQueueSize` | src/gradient2_limit.cc:89-97 | the default probe is the least root of at least one whose square reaches the cap |
| `Gradient2Recovery.CrossesBand` | src/gradient2_limit.cc:202-212 | ceil(3/smoothing) healthy windows carry the cap from one square to the next |
| `Gradient2Recovery.SquareRootRecovery` | src/gradient2_limit.cc:89-97 | with the default probe the cap reaches its ceiling within ceil(3/smoothing) windows per integer root left |
| `Gradient2Recovery.RecoversWithDefaultProbe` | src/gradient2_limit.cc:89-97 | recovery from any warm state with the default probe, with its window count |
| `Gradient2Recovery.RecurringGoodWindowsDoNotRecover` | formal_methods/gradient2_tla_proposal.md:60-77 | a concrete run, from a state a new loop reaches in ten windows, in which good windows recur and neither cap nor long-term RTT comes back |
| `Gradient2Liveness.SeesawRefutes` | formal_methods/gradient2_tla_proposal.md:69-77 | with a longer window, spikes and baseline windows in turn keep the long-term RTT up forever |
| `Gradient2Liveness.RecoversFromAmnesiaIff` | formal_methods/gradient2_tla_proposal.md:69-77 | a baseline that recurs forever brings the long-term RTT within five percent, from every warm state on every run, exactly if the long window is one sample |
| `Gradient2Traps.GradientAtLeast` | src/gradient2_limit.cc:198-200 | the gradient is at least that of a window so slow that it alone makes the average |
| `Gradient2Traps.FloorStep` | src/gradient2_limit.cc:198-209 | no window takes a cap below a level where the probe makes up for the worst gradient |
| `Gradient2Traps.TwoGoods` | src/gradient2_limit.cc:198-212 | without a trap two good windows, whatever comes between, raise the level that holds by the smoothing weight or reach the ceiling |
| `Gradient2Traps.NoTrapRecovers` | formal_methods/gradient2_tla_proposal.md:60-67 | without a trap good windows that recur forever reach the ceiling |
| `Gradient2TrapRuns.SlowGradient` | src/gradient2_limit.cc:198-200 | a window slow enough has a gradient as near the worst as planned |
| `Gradient2TrapRuns.TrapHolds` | formal_methods/gradient2_tla_proposal.md:60-67 | with a trap a run from the floor of the range has good windows forever and never reaches the ceiling |
| `Gradient2TrapRuns.RecoversAfterSpikeIff` | formal_methods/gradient2_tla_proposal.md:60-67 | for every rising probe recovery from recurring good windows holds exactly without a trap |
| `Gradient2Conditions.RecoversIffNoTrapCell` | formal_methods/gradient2_tla_proposal.md:60-67 | the same as a finite check over the integers from the minimum to the maximum limit |
| `Gradient2Conditions.RecoversIffDefaultProbe` | src/gradient2_limit.cc:89-97 | that check for the default square-root probe |
| `Gradient2Conditions.RecoversIffConstantProbe` | formal_methods/gradient2_tla_proposal.md:60-67 | for a constant probe p: exactly if tol * f >= 1, or max <= Max(min, p/(1 - Max(1/2, tol * f))) + smoothing * p, with f = 2/(w+1) |
| `Gradient2Conditions.IdleIsReached` | src/gradient2_limit.cc:162-196 | a new loop at its floor is in the refuting run's first state after ten idle windows |
| `Gradient2Conditions.DefaultsAreTrapped` | include/limen/gradient2_limit.h:189-198 | the builder's defaults do not recover from good windows that only recur, from a state they reach in ten windows |
| `Codel.CodelFilter.constructor` | src/codel_filter.cc:79-86 | nothing above target, nothing dropped |
| `Codel.CodelFilter.ShouldDrop` | src/codel_filter.cc:88-136 | one decision and all five state variables as the value function `Decide` says |
| `Codel.CodelFilter.OkToDrop` | src/codel_filter.cc:138-164 | the first-above time and the verdict as the value function `DropVerdict` says |
| `CodelRuns.DroppingIffStanding` | src/codel_filter.cc:88-164 | after any history the filter is dropping exactly if the current run of above-target calls began at least an interval ago; it drops nothing otherwise |
| `CodelRuns.CountOrder` | src/codel_filter.cc:125-131 | the count never falls behind the count its episode began with, so the unsigned difference never wraps |
| `Codel.GapTimesRoot` | src/codel_filter.cc:166-169 | the gap to the next drop times the square root of the count is the interval |
| `Codel.GapShrinks` | src/codel_filter.cc:166-169 | so it shrinks as the count grows, from the interval itself at a count of one |
| `CodelRuns.DropSchedule` | src/codel_filter.cc:100-134 | while dropping, the next drop time is the entry time plus the sum of interval/sqrt(j) over the episode's counts |
| `CodelRuns.ScheduleBounds` | src/codel_filter.cc:100-134 | while dropping, the next drop is due between 2 interval (sqrt(count + 1) - sqrt(lastcount)) and 2 interval (sqrt(count) - sqrt(lastcount)) + interval/sqrt(lastcount) after entry |
| `CodelRuns.DropSchedules` | src/codel_filter.cc:100-134 | a drop puts the next one after its own due time, or after now in a new episode, by the time whose product with sqrt(count) is the interval |
| `CodelRuns.DropRate` | src/codel_filter.cc:166-169 | count is at most (sqrt(lastcount) + (t - entry)/(2 interval)) squared at every time t of the episode |
| `CodelRuns.NextDropWithinGap` | src/codel_filter.cc:106-133 | the next drop time is never more than interval/sqrt(count) after the last drop |
| `CodelRuns.EpisodeAccounting` | src/codel_filter.cc:100-134 | an episode drops count - lastcount + 1 items, and the episodes sum to the drop counter |
| `CodelRuns.NextEpisodeStart` | src/codel_filter.cc:120-131 | a new episode starts from the previous one's drops less one if that exceeds one and re-entry is within 16 intervals, else from one |
| `CodelRfc.LoopAgrees` | src/codel_filter.cc:100-115 | from the dropping state asking until an item is kept agrees with the drop loop of RFC 8289 |
| `CodelRfc.RfcAgreement` | src/codel_filter.cc:88-164 | asking about successive items at one clock reading drops and serves what one dequeue of RFC 8289 does; says exactly how the end states differ |
| `OrderStatistics.SortSorts` | src/percentile_sample_window.cc:83 | sorting sorts and keeps every element as often as it occurs |
| `OrderStatistics.Rank` | src/percentile_sample_window.cc:83-93 | the k-th smallest is the only value with at most k elements below it and more than k at most it |
| `OrderStatistics.SortIgnoresOrder` | src/percentile_sample_window.cc:83 | sorting forgets the order of arrival |
| `SampleWindows.AverageSampleWindow.constructor` | include/limen/average_sample_window.h:67-71 | starts empty |
| `SampleWindows.AverageSampleWindow.LowerMin` | src/average_sample_window.cc:28-33 | the compare-and-swap loop keeps the smaller value |
| `SampleWindows.AverageSampleWindow.RaiseMax` | src/average_sample_window.cc:35-40 | the compare-and-swap loop keeps the larger value |
| `SampleWindows.AverageSampleWindow.AddSample` | src/average_sample_window.cc:23-50 | the fields stand for one more sample |
| `SampleWindows.AverageSampleWindow.TrackedRttNs` | src/average_sample_window.cc:52-59 | the truncated mean of the samples since the reset, zero if none |
| `SampleWindows.AverageSampleWindow.Reset` | src/average_sample_window.cc:61-68 | the fields stand for no samples |
| `SampleWindows.PercentileSampleWindow.constructor` | src/percentile_sample_window.cc:26-39 | starts empty with room for the samples to keep, none included |
| `SampleWindows.PercentileSampleWindow.AddSample` | src/percentile_sample_window.cc:41-67 | one more sample, stored only while there is room |
| `SampleWindows.PercentileSampleWindow.FillSortBuffer` | src/percentile_sample_window.cc:79-82 | the buffer holds the first samples since the reset, never stale entries |
| `SampleWindows.PercentileSampleWindow.TrackedRttNs` | src/percentile_sample_window.cc:69-94 | the element at the percentile's rank among the first samples since the reset, zero if none came |
| `SampleWindows.PercentileSampleWindow.Reset` | src/percentile_sample_window.cc:96-105 | no samples, whatever the array still holds |
| `SampleWindows.RankIsNearest` | src/percentile_sample_window.cc:88-92 | the rank is the nearest to the percentile's share of the samples, at least the first, and the last for the full percentile |
| `SampleWindows.LeastRttIsLeast` | src/average_sample_window.cc:28-33 | the candidate is a lower bound of the samples and one of them, or the sentinel |
| `SampleWindows.MostInflightIsMost` | src/average_sample_window.cc:35-40 | the reported in-flight is an upper bound and one of the samples', or zero |
| `SampleWindows.MeanIsTruncated` | src/average_sample_window.cc:52-59 | the mean is the sum of the round trips divided by their number, toward zero |
| `SampleWindows.PercentileIsOrderStatistic` | src/percentile_sample_window.cc:69-94 | the result is the only value with the rank's number of usable samples below it |
| `SampleWindows.Usable` | src/percentile_sample_window.cc:41-82 | what counts are the round trips of the first samples, all of them or as many as the array keeps |
| `SampleWindows.PercentileIgnoresOrder` | src/percentile_sample_window.cc:69-94 | if nothing overflowed the arrival order does not matter |
| `SampleWindows.PercentileKeepsFirst` | src/percentile_sample_window.cc:43-46 | once full, later samples do not change the result |
| `SampleWindows.TrackedAtLeast` | src/average_sample_window.cc:52-59 | what either window reports is at least every lower bound of its samples |
| `Windowed.WindowedLimit.constructor` | src/windowed_limit.cc:83-89 | both slots empty, first boundary due at once |
| `Windowed.WindowedLimit.CloseWindow` | src/windowed_limit.cc:126-171 | a boundary reports the full window, schedules the next, flips and leaves the other slot empty |
| `Windowed.WindowedLimit.OnSample` | src/windowed_limit.cc:91-174 | the two slots and the index change as one list of samples since the last boundary does, and the inactive slot is empty |
| `Windowed.WindowLengthIs` | src/windowed_limit.cc:142-153 | the window length is twice the least round trip, or the window time it would pass |
| `WindowedRuns.Replay` | src/windowed_limit.cc:91-174 | every history through the two-slot machine delivers exactly what one list of above-threshold samples would deliver: a description of each closed window with enough samples, in order |
| `WindowedRuns.DeliveriesDescribeWindows` | src/windowed_limit.cc:126-166 | exactly the closed windows with at least windowSize samples are delivered, in order, each with the closing call's start, the greatest in-flight, whether any sample dropped, and the truncated mean or the order statistic |
| `WindowedRuns.EverySampleOnce` | src/windowed_limit.cc:91-174 | every accepted sample is in exactly one window, in order, and the deliveries are the reports of the closed windows |
| `WindowedRuns.DueAfterBoundary` | src/windowed_limit.cc:142-153 | the next boundary is due after the last one's end by twice its least round trip, clamped to the window times |
| `WindowedRuns.BoundariesApart` | src/windowed_limit.cc:142-153 | the i-th and j-th boundaries are more than (j - i) minimum window times apart |
| `WindowedRuns.DeliversAtLeastThreshold` | src/windowed_limit.cc:93-97 | every round trip delivered is at least the threshold |
| `WindowedRuns.NoZeroLatency` | src/gradient2_limit.cc:164-172 | with a positive threshold the zero-latency branch is never taken: each delivery enters the long-term average |
| `WindowedInvariant.PartitionStep` | src/windowed_limit.cc:91-174 | each step keeps every sample added to a field in one place: read, erased, or in a slot |
| `WindowedInvariant.WindowsStep` | src/windowed_limit.cc:126-137 | each step keeps the windows' samples disjoint |
| `WindowedInvariant.RunKeeps` | src/windowed_limit.cc:91-174 | every interleaving keeps the invariant |
| `WindowedInvariant.EverySampleOnePlace` | src/windowed_limit.cc:126-171 | at any moment only what the boundary under way has read is both read and still in its slot |
| `WindowedInvariant.CountsAddUp` | src/average_sample_window.cc:23-68 | between boundaries samples recorded are those read, plus those erased between read and reset, plus those in the slots, for every field; none is in two windows |
| `WindowedInvariant.BoundariesExclusive` | src/windowed_limit.cc:111-153 | boundaries exclude each other and each moves the due time on by more than the minimum window |
| `WindowedSolo.SoloSample` | src/windowed_limit.cc:91-174 | an uninterrupted call below the threshold changes nothing; otherwise its sample is in every field of the active slot, and past the due time the window is read whole, the slots flip, the due time is set and the slot is emptied |
| `WindowedSolo.SampleIsAnUninterruptedCall` | src/windowed_limit.cc:91-174 | from every reachable state with the try-lock free that run exists, keeps count and due time as the one-call-at-a-time limit does, and erases nothing unread |

## Left out

- Weak memory: atomic accesses are interleaved steps of one shared state; reorderings that relaxed atomics allow are not modelled.
- Floating point and machine integers: reals and unbounded integers; the sample counters, the slot ids and CoDel's count are assumed not to overflow, and `Windowed.WindowedLimit.OnSample` requires that the sums and doublings of times fit.
- Square root: any function whose value is non-negative and squares to its argument; for the probe of Gradient2, the least integer whose square reaches the cap.
- Clocks, sleeping, notifications and condition waits: times are inputs, a time-out is a step that may happen whenever a waiter is parked, a sleep is the time between two steps.
- Regions under the blocking limiters' mutex are single steps, except the hand-off, which holds the mutex across the separate steps of its delegate calls.
- Liveness of parked waiters: none is guaranteed, see `BlockingStranding.AcquirerCanBeStranded`; besides, a fresh caller may overtake the queue through the fast path, as `BlockingSolo.SoloAcquire` shows.
- Bypass predicates in the blocking and partitioned machines; they are in `Guards` and `GuardPrograms`.
- Delegates of the blocking limiters other than the simple limiter.
- The percentile window under interleaving; `WindowedInterleaving` has the average window, with each minimum and maximum loop as one step at its successful exchange or last load, and leaves the least round trip read at a boundary open.
- Gradient2's probe as a stateful callable: it is a function of the cap.
- Probes of Gradient2 that fall when the cap rises: the exact condition of recovery from recurring good windows is proved for rising probes of at least one, the default and constant ones among them.
- `WindowedLimit`'s try-lock with calls one at a time always succeeds; it is a step of its own in `WindowedInterleaving`.
- A percentile window with room for no sample that is asked for its result after a sample came: the code then reads an element of an empty buffer, so `TrackedRttNs` and the windowed limit's configuration exclude it.
- Builders' validation: its checks are preconditions. `Gradient2Limit::Builder::Build` checks nothing; the documented ranges are preconditions here.
- `FixedLimit`, `SettableLimit`, `MinimumMeasurement`, `SingleMeasurement` and the listeners of `AbstractLimit`: easy members; caps are arbitrary or bounded inputs instead.
- OpenTelemetry instruments, histograms, tracing and log sinks: foreign calls without effect on the state.
