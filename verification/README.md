# Verified models of the platform's transaction, balancing and limiting cores

This project models, in Dafny, the parts of the platform whose correctness is not visible from
reading one function, and proves what they guarantee over all inputs and all runs. Where a
property one would expect does not hold of the code, the code is modelled as it is, an execution
that breaks the property is exhibited, and the exact condition under which it does hold is proved.

`dafny verify dfyconfig.toml` checks everything.

## What is modelled

**TCC transactions** (`app/common/tcc/txmanager.go`, `txstore.go`, `idempotency.go`).
`TccModel` is a transition system for one transaction with any number of components: the database
row, the Redis copy of the record (which may be missing or stale), the idempotency marks, one Try
goroutine per component with its read-edit-write `TXUpdate`, the caller of `twoPhaseCommit`, and any
number of passes (the caller's own and every monitor round, including the half-hour expiry in
`GetHangingTXs`). Every database or Redis call is one step, any step may interleave with any other,
every call may fail, and a call that reports an error may have been applied all the same. Time is a
counter that only grows. `TccSoundness` proves the invariant on all copies of the record, `TccClaims`
the at-most-once invariant on phases, `TccTheorems` the guarantees, `TccStatus` what a final status
stands for and how final it is, `TccScenarios` that a commit is reachable for every set of components,
`TccLimits` exhibits, for every set of components, the executions in which stronger expectations fail
and says exactly when they can, `TccAnswers` what the answer true leaves open, and `TccPasses` how many
passes it takes to end with a status that no participant stands behind, and what one pass guarantees. `TccStore` holds the store and
the Try loop, and `TccManager` `advanceProgress` and the monitor's query, in their own sequential form,
and connect them to the steps.

**Saga orchestrator** (`saga_orchestrator.go`). `Saga` runs actions and compensations that are
arbitrary functions of an abstract world and of the call number, so an action may fail once and
succeed at the retry. The tick also drives cancellation between steps.

**Circuit breaker** (`discovery/circuit_breaker.go`). `CircuitBreaker` has the object, and a system
around it with the requests in flight by generation and the results recorded in the current one.

**Load balancers** (`discovery/load_balancer.go`). `ConsistentHash` (with the actual 32-bit hash, 150
virtual nodes and collisions) and `WeightedRoundRobin`.

**RBAC** (`security/rbac.go`), **token bucket** (`gateway/middlewares/rate_limiter.go`), **priority
queue** (`performance/worker_pool.go`) and the **spending summary** (`yearBill/script/data.go`).

## What the code does not guarantee

- Confirm and Cancel can both have been called, and a transaction whose caller was told true can have
  been cancelled, exactly from the moment the timeout has passed (`BothPhasesIff`,
  `CancelledAfterTrueIff`); before that they exclude each other. The same pass can then turn a row that
  is successful and confirmed everywhere into a failed one (`CommittedThenCancelled`, `CommittedRowFlips`).
- Two concurrent `TXUpdate` calls can overwrite each other, so true can be answered over a row that has
  lost an acknowledged Try; this takes two components (`LostUpdateIff`). After true, a Cancel can still
  come exactly when a pass may still judge some copy that is not all successful (`CancelAfterTrueIff`).
- A row can say "successful" although no Confirm call of any component ever succeeded, because the mark
  is placed before the call (`SuccessfulWithoutConfirm`). With one pass every Confirm is acknowledged
  (`SuccessfulStatusConfirmed`); a Confirm can be missing exactly when a second pass has been started
  (`UnconfirmedSuccessIff`).
- A row can say "failure" although no Cancel was ever acknowledged, because three failing Cancels count as
  done; one pass is enough for that, however young the transaction (`FailedWithoutCancel`,
  `UncancelledFailureIff`).
- A failed row can lack its cancel marks exactly when the transaction is more than thirty minutes old
  (`FailedUncancelledIff`, `ExpiredWithoutCancel`), and a final status can change exactly when the
  timeout or the thirty minutes have passed (`StatusFlipsIff`).
- After false a Confirm can follow if an accepting row write was applied but reported as an error
  (`LostReplyConfirmsAfterFalse`), and only then (`FalseNeverConfirms`).
- A saga reports Compensated whatever became of its compensations; the error text for a failed
  compensation at lines 166-168 can never be returned (`EndStateIgnoresCompensation`,
  `CompensatedYetNotRestored`). Compensated means restored, from every world and under every pattern of
  failing actions and compensations, exactly when every step but the last has no effect or has a
  compensation that never fails (`RestoresIffBacked`, `RestoresIffCovered`). A negative `RetryCount` counts a step as executed
  without calling its action (`CompletedAppliesAllIff`).
- With the default trip rule and at most five probes, a half-open breaker whose probes all fail refuses
  every request for ever. A breaker refuses for ever exactly when it is in that state
  (`RefusesForeverIffWedged`), and a new one can get there exactly when it probes with five or fewer and
  its interval is not negative (`RefusalReachableIff`). With a negative interval no result ever counts
  and it never opens (`NegativeIntervalStaysClosed`).
- The token bucket moves `lastRefill` on every call, so a client calling more often than once per period
  is never refilled (`FrequentCallsNeverRefill`); `RefusedIff` and `MoreThanStoredIff` say exactly when a
  call is refused and when a run is refilled.
- Rows with an empty merchant name can suppress the favourite restaurant (`FavouriteExactly`).
- `UpdateRole` and `DeleteRole` change one side of the role relation only, and `AddUser` takes roles and
  list as they come; a run stays in step exactly when each of these meets its condition (`StepKeepsIff`,
  `RunKeepsIff`). A role that is deleted while held and then added again has been updated behind its
  holders' backs (`DeleteThenAddKeepsIff`).
- With a negative total weight the balancer can get stuck on its first instance (`FallbackIff`,
  `FallbackSticks`); a new one ever does exactly when every prefix sum is below the size of the total
  (`EverStuckIff`).

## Model

| member | source | states |
|---|---|---|
| TccTheorems.EveryCopyIsSound | app/common/tcc/txstore.go:78-120 | in every execution every copy of the record, stored or held in memory, however stale, shows "successful" only for an acknowledged Try and "failure" only for a refused one |
| TccTheorems.ConfirmNeedsEveryTry | app/common/tcc/txmanager.go:231-261 | Confirm is never called on any component unless the Try of every component was acknowledged |
| TccTheorems.SuccessfulRowIsFinal | app/common/tcc/txstore.go:78-150 | once the components column is all successful, no later step of any actor changes it, despite lost updates and stale rewrites |
| TccTheorems.ConfirmExcludesCancel | app/common/tcc/txmanager.go:443-465 | if both Confirm and Cancel were called, some snapshot with a hanging entry was judged after its deadline |
| TccTheorems.FalseNeverConfirms | app/common/tcc/txmanager.go:311-383 | after twoPhaseCommit answers false no pass ever calls Confirm, unless an accepting row write was applied though reported as an error |
| TccTheorems.TrueMeansEveryTryRecorded | app/common/tcc/txmanager.go:371-382 | after it answers true every Try was acknowledged and written, and a Cancel can only come from a timeout verdict |
| TccTheorems.SuccessfulStatus | app/common/tcc/txmanager.go:290-307 | a row with status "successful" has every Try acknowledged and every confirm mark set |
| TccPasses.SuccessfulStatusConfirmed | app/common/tcc/txmanager.go:244-261 | in every execution with at most one pass, a successful row has every Confirm acknowledged |
| TccPasses.UnconfirmedSuccessIff | app/common/tcc/txmanager.go:246-255 | for every set of components, a successful row with an unacknowledged Confirm and at most n passes is reachable if and only if n is at least two |
| TccPasses.SecondPassSubmits | app/common/tcc/txmanager.go:246-255 | the first pass gives one component up, the second goes past its mark, confirms the rest and submits |
| TccPasses.FailedStatusCancelled | app/common/tcc/txmanager.go:262-304 | in every execution with at most one pass, a failed row not older than thirty minutes has, for every component, a Cancel that was acknowledged or three that erred without a reply; a refused Cancel is never passed over |
| TccPasses.SoleCancelStep | app/common/tcc/txmanager.go:231-308 | every step keeps the invariant behind this |
| TccPasses.FailedWithoutCancel | app/common/tcc/txmanager.go:262-289 | for every set of components, one pass within every deadline ends with a failed row, every cancel mark and no Cancel acknowledged |
| TccPasses.UncancelledFailureIff | app/common/tcc/txmanager.go:276-280 | a failed row not older than thirty minutes with an unacknowledged Cancel and at most n passes is reachable if and only if n is at least one |
| TccPasses.SoleStep | app/common/tcc/txmanager.go:231-308 | every step keeps what the only pass knows: components behind it confirmed, those ahead unmarked |
| TccTheorems.PhaseRunsAtMostOnce | app/common/tcc/txmanager.go:386-403 | over all passes on all nodes a phase of a component is called at most three times and returns without error at most once |
| TccTheorems.OneClaimant | app/common/tcc/idempotency.go:35-43 | whoever gets past CheckAndMark for a phase of a component is the only one ever to do so |
| TccScenarios.EveryTransactionCanCommit | app/common/tcc/txmanager.go:93-112 | for every set of components there is an execution that answers true with every Confirm acknowledged and the row and its copy successful |
| TccStatus.FailedStatus | app/common/tcc/txstore.go:161-173 | in every execution, a row with status "failure" that is not older than thirty minutes has the cancel mark of every component set, and a Try was refused or a hanging snapshot was judged late |
| TccStatus.StatusIsFinal | app/common/tcc/txstore.go:123-150 | a final status never returns to hanging, and never changes into the other one unless a hanging snapshot was judged late or the transaction is older than thirty minutes |
| TccStatus.StepAccounted | app/common/tcc/txmanager.go:231-308 | every step of every actor keeps the invariant behind these |
| TccLimits.BothPhasesIff | app/common/tcc/txmanager.go:453-456 | for every set of components and every time, a state in which both Confirm and Cancel were called is reachable if and only if the timeout has passed |
| TccLimits.CancelledAfterTrueIff | app/common/tcc/txmanager.go:371-382 | the same for a Cancel after twoPhaseCommit returned true |
| TccLimits.CommittedThenCancelled | app/common/tcc/txmanager.go:453-456 | from then on a reachable state in which true was returned, the row is successful, and every component was both confirmed and cancelled |
| TccLimits.FailedUncancelledIff | app/common/tcc/txstore.go:161-173 | a reachable failed row can lack a cancel mark if and only if the transaction is older than thirty minutes |
| TccLimits.StatusFlipsIff | app/common/tcc/txstore.go:123-150 | a final status can change at a given time if and only if the timeout or the thirty minutes have passed by then |
| TccLimits.CommittedRowFlips | app/common/tcc/txstore.go:161-173 | and then even a row that is successful and confirmed everywhere turns into a failed one |
| TccAnswers.LostUpdateIff | app/common/tcc/txstore.go:78-120 | true can be answered over a row that lost an acknowledged Try if and only if there are two components or more |
| TccAnswers.CancelAfterTrueIff | app/common/tcc/txmanager.go:371-382 | after true and before any verdict by timeout, some continuation calls Cancel if and only if some copy that a pass may still judge has an entry that is not successful |
| TccAnswers.SafeNeverCancels | app/common/tcc/txmanager.go:443-465 | with no such copy left no continuation calls Cancel |
| TccLimits.SuccessfulWithoutConfirm | app/common/tcc/txmanager.go:246-255 | for every set of components, a reachable state with status "successful" in which no Confirm call of any component returned without error |
| TccLimits.ExpiredWithoutCancel | app/common/tcc/txstore.go:161-173 | for every set of components and every time past thirty minutes, a reachable state in which true was returned, every Confirm was acknowledged, and the row is failed without a cancel mark |
| TccLimits.LostReplyConfirmsAfterFalse | app/common/tcc/txmanager.go:359-363 | for every set of components, a reachable state in which twoPhaseCommit returned false and every Confirm was acknowledged |
| TccSoundness.StepSound | app/common/tcc/txstore.go:78-205 | every step of every actor keeps the invariant on all copies, and outcomes, row writes and marks only grow |
| TccSoundness.ThreadStepDuty | app/common/tcc/txmanager.go:321-365 | what each step of a Try goroutine leaves true of the row, the copy, the call history and its own snapshot, without touching other goroutines |
| TccSoundness.PassStepDuty | app/common/tcc/txmanager.go:231-308 | the same for each step of an advanceProgress pass |
| TccSoundness.VerdictJustified | app/common/tcc/txmanager.go:443-465 | an all-successful snapshot proves every Try recorded; a failure entry proves a refusal |
| TccClaims.StepClaimed | app/common/tcc/idempotency.go:35-49 | every step keeps: a marked slot is acknowledged, given up or being called by its one claimant, within its call bounds |
| TccStore.KeyIsInjective | app/common/tcc/idempotency.go:29-31 | marks of different transactions, components or phases never share a key, even if component ids contain the separator |
| TccStore.IdempotencyStore.CheckAndMark | app/common/tcc/idempotency.go:35-43 | reports whether the mark was present and leaves it present, or fails with the mark set or not |
| TccStore.TxStore.constructor | app/common/tcc/txstore.go:43-75 | a hanging entry per component, copied to Redis unless that write fails |
| TccStore.TxStore.TXUpdate | app/common/tcc/txstore.go:78-120 | row, copy and result after each combination of cache miss and failing calls |
| TccStore.TxStore.TXSubmit | app/common/tcc/txstore.go:123-150 | the same for the final status |
| TccStore.TxStore.GetTX | app/common/tcc/txstore.go:184-205 | the copy, else the row, which is then cached |
| TccStore.SetComponent | app/common/tcc/txstore.go:95-105 | the loop edits the first entry with the id and no other |
| TccStore.UpdateIsSteps | app/common/tcc/txstore.go:78-120 | an undisturbed goroutine's steps have exactly the effect and the result of TXUpdate |
| TccStore.SubmitIsSteps | app/common/tcc/txstore.go:123-150 | an undisturbed pass's steps have exactly the effect of TXSubmit |
| TccStore.FetchIsSteps | app/common/tcc/txmanager.go:221-228 | an undisturbed pass judges exactly the record GetTX returns |
| TccStore.GetStatus | app/common/tcc/txmanager.go:443-465 | the loop computes the verdict: failure if any failure, else successful if all are, else failure when late, else hanging |
| TccStore.ReadEitherMeans | app/common/tcc/txstore.go:184-205 | the record found is the copy, or the row when Redis has none or does not answer |
| TccStore.UpdatedMeans | app/common/tcc/txstore.go:78-120 | TXUpdate call by call and entry by entry: what is read, that only the first entry with the id is set, what is written where, and when it fails |
| TccStore.SubmittedMeans | app/common/tcc/txstore.go:123-150 | the same for TXSubmit |
| TccStore.TryMarkMeans | app/common/tcc/txmanager.go:328-341 | an earlier Try mark counts as accepted, a failing check ends the goroutine with an error |
| TccStore.ExecuteWithRetry | app/common/tcc/txmanager.go:386-403 | returns the first reply that is not an error, or the third error; never makes a fourth call |
| TccStore.RetryIsSteps | app/common/tcc/txmanager.go:342-358 | the Try steps end with the acceptance that the retry loop's reply carries |
| TccStore.GetComponents | app/common/tcc/txmanager.go:406-440 | accepts exactly nonempty requests for distinct registered components |
| TccStore.ThirdAttemptCounts | app/common/tcc/txmanager.go:386-403 | two errors and then an acknowledgement end in an acknowledged Try, three errors in a refused one |
| TccManager.ConfirmOrCancel | app/common/tcc/txmanager.go:244-283 | the closures acknowledge, err or refuse exactly as mark, faults and the first reply that is not an error say; a Cancel that only errs is taken for done |
| TccManager.AdvanceProgress | app/common/tcc/txmanager.go:231-308 | a status is submitted exactly when the verdict is not hanging and the loop goes on at every component |
| TccManager.MeetingIsSteps | app/common/tcc/txmanager.go:290-304 | an undisturbed pass goes on at a component exactly as ConfirmOrCancel says |
| TccManager.AdvanceIsSteps | app/common/tcc/txmanager.go:290-307 | an undisturbed pass submits exactly when AdvanceProgress does |
| TccManager.JudgeIsSteps | app/common/tcc/txmanager.go:231-241 | the verdict decides which loop is entered |
| TccManager.GetHangingTX | app/common/tcc/txstore.go:153-181 | one transaction in GetHangingTXs: failed if older than thirty minutes, returned if it still hangs |
| TccManager.MonitorIsSteps | app/common/tcc/txstore.go:153-181 | an undisturbed monitor pass judges exactly the record GetHangingTX returns |
| Saga.SagaIsAtomic | app/common/tcc/saga_orchestrator.go:144-184 | with clean failures, Completed is a chain of all actions, once each and in order, from the first world to the last, Failed a chain of those executed; Compensated restores the initial world if the executed steps' compensations restore, and undoes exactly the executed prefix in reverse order if they are reliable |
| Saga.StepIsAtomic | app/common/tcc/saga_orchestrator.go:188-216 | over all its attempts a step took effect exactly once or left the world alone |
| Saga.AttemptsMeans | app/common/tcc/saga_orchestrator.go:188-216 | executeStep ends with the first successful call among one more than the retry count, or with the last one failing, at the right tick and world; with a negative count no call is made |
| Saga.RetriedIff | app/common/tcc/saga_orchestrator.go:191-208 | with clean failures a step succeeds if and only if one of its calls would |
| Saga.EndsExactly | app/common/tcc/saga_orchestrator.go:144-184 | step by step and call by call: Completed if and only if all steps ran, Failed if and only if cancelled before one, Compensated if and only if one failed at every call |
| Saga.ChosenMeans | app/common/tcc/saga_orchestrator.go:229-245 | the first compensation registered for the step, else the step's own |
| Saga.BackwardUnwinds | app/common/tcc/saga_orchestrator.go:225-255 | compensating along the chain of worlds leads back to its start |
| Saga.BackwardUndoesEach | app/common/tcc/saga_orchestrator.go:225-255 | reliable compensations are all undone, in reverse order and once each |
| Saga.EndStateIgnoresCompensation | app/common/tcc/saga_orchestrator.go:165-172 | two sagas with the same actions and retries end in the same state with the same result and the same steps applied, whatever their compensations do |
| Saga.CompletedAppliesAllIff | app/common/tcc/saga_orchestrator.go:188-216 | a completed saga applied every action if and only if no retry count is negative |
| Saga.RestoresIffCovered | app/common/tcc/saga_orchestrator.go:225-255 | from every world and in every environment of clean failures, failing fallible compensations and cancellation, Compensated restores the world if and only if every step but the last has its effect taken back, and has no effect if its compensation may fail |
| Saga.RestoresIffBacked | app/common/tcc/saga_orchestrator.go:229-254 | where compensations take back unless they fail, that is: if and only if every step but the last has no effect, or has a compensation that never fails |
| Saga.CompensatedYetNotRestored | app/common/tcc/saga_orchestrator.go:238-254 | a saga that ends Compensated with the first effect left standing |
| Saga.ExecuteStep | app/common/tcc/saga_orchestrator.go:188-216 | the retry loop computes the attempts function |
| Saga.SagaOrchestrator.Execute | app/common/tcc/saga_orchestrator.go:115-185 | world, result and the sequence of persisted states for every run, including the two early error returns |
| Saga.SagaOrchestrator.RunSteps | app/common/tcc/saga_orchestrator.go:147-176 | the loop over the steps with cancellation and failure |
| Saga.SagaOrchestrator.Compensate | app/common/tcc/saga_orchestrator.go:219-258 | the reverse loop that swallows errors |
| Saga.SagaOrchestrator.FindCompensation | app/common/tcc/saga_orchestrator.go:229-245 | the first registered compensation, else the step's own |
| CircuitBreaker.CountersAreExact | app/common/discovery/circuit_breaker.go:117-150 | under any interleaving, in-flight requests of the current generation are Requests minus results, the counters are the totals and trailing runs of the generation's results, an open breaker has none, and a half-open generation admits at most maxRequests |
| CircuitBreaker.StepConsistent | app/common/discovery/circuit_breaker.go:153-236 | every start, finish and query keeps that invariant |
| CircuitBreaker.StaleResultIgnored | app/common/discovery/circuit_breaker.go:139-143 | after any run, a result of an older generation changes nothing beyond bringing the state up to date |
| CircuitBreaker.NothingRecordedWhileOpen | app/common/discovery/circuit_breaker.go:135-150 | after any run that left the breaker open, a result that comes back is not recorded, not even when it is what ends the window |
| CircuitBreaker.GenerationsGrow | app/common/discovery/circuit_breaker.go:184-202 | over any run the generation never falls and every state change raises it |
| CircuitBreaker.OpenWindow | app/common/discovery/circuit_breaker.go:117-217 | in every run, once a step opens the breaker, every request up to and including that time plus the timeout is refused and leaves it unchanged, and the first one later, whatever results come back meanwhile, is admitted as a half-open probe |
| CircuitBreaker.WindowHolds | app/common/discovery/circuit_breaker.go:153-165 | through the whole window, whatever happens, the state stays and every request is refused |
| CircuitBreaker.FirstProbeAdmitted | app/common/discovery/circuit_breaker.go:117-132 | the first request after the window is admitted as a half-open probe |
| CircuitBreaker.ClosedWindow | app/common/discovery/circuit_breaker.go:153-217 | in every run, once a closed generation begins, every call up to and including that time plus the interval finds it unchanged and its results count; the first later call begins a new one with zero counts and a result of the old one is not recorded; with interval zero time never ends it |
| CircuitBreaker.GenerationKeepsWindow | app/common/discovery/circuit_breaker.go:184-217 | as long as a generation lasts, its state and its expiry stay |
| CircuitBreaker.TripsIffRule | app/common/discovery/circuit_breaker.go:176-181 | after any run, a recorded failure opens the breaker if and only if the trip rule says so of the totals and runs that include it |
| CircuitBreaker.NormalizedMeans | app/common/discovery/circuit_breaker.go:56-89 | zero settings mean one probe and twenty seconds, others are kept |
| CircuitBreaker.OpensOnSixthFailure | app/common/discovery/circuit_breaker.go:258-261 | with the default rule it opens if and only if the sixth failure in a row of one generation is recorded |
| CircuitBreaker.WedgedForever | app/common/discovery/circuit_breaker.go:126-128 | half open with all probes used and answered, every later request is refused for ever |
| CircuitBreaker.WedgeNeedsFewProbes | app/common/discovery/circuit_breaker.go:176-181 | under the default rule that needs maxRequests of five or less |
| CircuitBreaker.FewProbesWedge | app/common/discovery/circuit_breaker.go:168-181 | and every breaker with that few gets there from any fresh half-open generation |
| CircuitBreaker.WedgeReachableIff | app/common/discovery/circuit_breaker.go:117-261 | a new breaker with the default rule can use up and lose all its probes if and only if maxRequests is at most five and the interval is not negative |
| CircuitBreaker.RefusesForeverIffWedged | app/common/discovery/circuit_breaker.go:117-181 | after any run and under any trip rule, no continuation admits a request if and only if the breaker is half open with all probes used and answered |
| CircuitBreaker.RefusalReachableIff | app/common/discovery/circuit_breaker.go:117-261 | a new breaker with the default rule can end up refusing for ever if and only if maxRequests is at most five and the interval is not negative |
| CircuitBreaker.NegativeIntervalStaysClosed | app/common/discovery/circuit_breaker.go:153-217 | a negative interval renews the generation at every call, so results never count and the breaker stays closed through every run |
| CircuitBreaker.ApplyIsMethods | app/common/discovery/circuit_breaker.go:117-165 | the system's transitions are the methods' |
| CircuitBreaker.Breaker.constructor | app/common/discovery/circuit_breaker.go:56-89 | defaults, and the first generation |
| CircuitBreaker.Breaker.ToNewGeneration | app/common/discovery/circuit_breaker.go:200-217 | a new generation with zero counts and the expiry of its state |
| CircuitBreaker.Breaker.ChangeState | app/common/discovery/circuit_breaker.go:184-197 | a new generation only on a real change |
| CircuitBreaker.Breaker.CurrentState | app/common/discovery/circuit_breaker.go:153-165 | expiry of closed intervals and of the open window |
| CircuitBreaker.Breaker.BeforeRequest | app/common/discovery/circuit_breaker.go:117-132 | admission with its two refusals |
| CircuitBreaker.Breaker.AfterRequest | app/common/discovery/circuit_breaker.go:135-181 | recording, closing and tripping |
| ConsistentHash.JoinMovesOnlyToNew | app/common/discovery/load_balancer.go:248-308 | inserting an instance anywhere in the list moves a key only to that instance, even with colliding virtual nodes |
| ConsistentHash.LeaveMovesOnlyOwnKeys | app/common/discovery/load_balancer.go:248-308 | removing an instance moves only the keys it held |
| ConsistentHash.InsertionMovesOnlyToNew | app/common/discovery/load_balancer.go:286-298 | the same on the filtered lists, with the reason: a moved key's successor is a position of the new instance, and such a position gets it the key unless an instance behind it in the list has it too |
| ConsistentHash.ChoiceIsUnique | app/common/discovery/load_balancer.go:274-282 | the specification of Select determines its answer |
| ConsistentHash.ConsistentHashLoadBalancer.Select | app/common/discovery/load_balancer.go:248-283 | the errors exactly, and otherwise the owner of the cyclic successor of the key's hash |
| ConsistentHash.ConsistentHashLoadBalancer.Lookup | app/common/discovery/load_balancer.go:271-282 | the scan finds the cyclic successor |
| ConsistentHash.ConsistentHashLoadBalancer.BuildRing | app/common/discovery/load_balancer.go:286-308 | keys are the sorted positions of all virtual nodes, each mapped to the last instance that claimed it |
| ConsistentHash.ConsistentHashLoadBalancer.Sort | app/common/discovery/load_balancer.go:300-307 | the exchange sort gives a sorted permutation |
| ConsistentHash.ComputeHash | app/common/discovery/load_balancer.go:311-317 | the characters times descending powers of 31, in 32 bits |
| ConsistentHash.HashIsPolynomial | app/common/discovery/load_balancer.go:311-317 | the same of the specification's hash |
| ConsistentHash.PointsMeans | app/common/discovery/load_balancer.go:290-297 | 150 positions per instance, those of its id, a colon and the character numbered 0 to 149 |
| ConsistentHash.AllPointsMeans | app/common/discovery/load_balancer.go:286-298 | the ring has exactly the instances' positions, each owned by the last to claim it |
| LoadBalancer.FilterHealthy | app/common/discovery/load_balancer.go:253-259 | every healthy instance, whatever its weight, in its place and as often as it occurs, and no other |
| LoadBalancer.HealthyMeans | app/common/discovery/load_balancer.go:253-259 | the same of the specification's filter |
| WeightedRoundRobin.RoundIsExact | app/common/discovery/load_balancer.go:129-152 | over any full round from any cursor each instance is selected exactly its weight of times (once each when all weights are zero) |
| WeightedRoundRobin.TurnMeans | app/common/discovery/load_balancer.go:129-155 | whatever the weights: plain round robin when the total is zero, else the first running sum above the cursor's remainder, else the first instance with the cursor kept |
| WeightedRoundRobin.StretchAnywhere | app/common/discovery/load_balancer.go:138-152 | at any cursor, an instance is selected if and only if the cursor's remainder lies in its stretch of the list |
| WeightedRoundRobin.FallbackNeedsNegativeTotal | app/common/discovery/load_balancer.go:154-155 | the fallback return needs a negative total weight |
| WeightedRoundRobin.FallbackIff | app/common/discovery/load_balancer.go:129-155 | it is reached if and only if the total is negative and no prefix sum exceeds the cursor's remainder |
| WeightedRoundRobin.FallbackSticks | app/common/discovery/load_balancer.go:154-155 | from then on every selection is the first instance |
| WeightedRoundRobin.EverStuckIff | app/common/discovery/load_balancer.go:109-156 | a new balancer ever gets there if and only if the total is negative and every prefix sum is below its size |
| WeightedRoundRobin.WeightedRoundRobinLoadBalancer.Select | app/common/discovery/load_balancer.go:109-156 | the errors exactly, and otherwise the turn at the cursor |
| Rbac.FlattenedEqualsRelation | app/common/security/rbac.go:234-376 | after any run whose operations are each harmless where they occur, a user's list is, as a multiset, the direct grants plus the permissions of every held role |
| Rbac.RunKeepsIff | app/common/security/rbac.go:60-376 | a run stays in step from beginning to end if and only if each of its operations is harmless in the state it finds |
| Rbac.TwoSidedIsHarmless | app/common/security/rbac.go:234-376 | the assign and remove operations, AddRole, AddUser without roles, DeleteUser and the permission operations are harmless in every state |
| Rbac.StepKeepsIff | app/common/security/rbac.go:60-376 | an operation, accepted or refused, keeps lists and relation in step if and only if it is harmless |
| Rbac.HasPermissionAgrees | app/common/security/rbac.go:379-410 | HasPermission equals the flattened list alone, and equals the relation |
| Rbac.RevokeKeepsExactlyTheRest | app/common/security/rbac.go:267-300 | after removing a role a user keeps exactly what is granted directly or by another held role |
| Rbac.AssignThenRemove | app/common/security/rbac.go:234-300 | removing a role just assigned restores roles and permissions |
| Rbac.UpdateRoleKeepsIff | app/common/security/rbac.go:89-101 | UpdateRole keeps the balance if and only if nobody holds the role or its permissions are unchanged |
| Rbac.DeleteRoleKeepsIff | app/common/security/rbac.go:104-115 | DeleteRole keeps lists and relation in step if and only if nobody holds the role |
| Rbac.DeleteThenAddKeepsIff | app/common/security/rbac.go:60-115 | deleting a role and adding it again keeps them in step if and only if nobody holds it or its permissions are unchanged |
| Rbac.AddUserKeepsIff | app/common/security/rbac.go:176-189 | AddUser keeps them in step if and only if the user's roles exist, are distinct and their grants are in its list; otherwise no account of direct grants would do |
| Rbac.RBAC.AssignRoleToUser | app/common/security/rbac.go:234-264 | refused unless user and role exist and the role is not held; then role and permissions are appended |
| Rbac.RBAC.RemoveRoleFromUser | app/common/security/rbac.go:267-300 | refused unless held; then one occurrence of the role and of each of its permissions goes, and no other user changes |
| Rbac.RBAC.AssignPermissionToRole | app/common/security/rbac.go:303-338 | refused unless the permission is registered, the role exists and lacks it; then the role and all its holders gain it |
| Rbac.RBAC.RemovePermissionFromRole | app/common/security/rbac.go:341-376 | refused unless the role has it; then the role and its holders lose it |
| Rbac.RBAC.HasPermission | app/common/security/rbac.go:379-410 | true exactly when some registered permission has that resource and that action and is in the user's list or comes with an existing role it holds |
| Rbac.GrantTakesEffect | app/common/security/rbac.go:303-338 | a permission given to a role is usable by its holders at once, for its own resource and action |
| Rbac.AssignTakesEffect | app/common/security/rbac.go:234-264 | after assigning a role the user holds it and has exactly its permissions more |
| Rbac.GrantingMeans | app/common/security/rbac.go:320-334 | a holder gains the permission once for each time it holds the role, and nothing else |
| Rbac.RevokingMeans | app/common/security/rbac.go:356-372 | a holder loses it that many times as far as it has it, and nothing else |
| Rbac.RBAC.AddRole | app/common/security/rbac.go:60-73 | refused if the id exists, else added |
| Rbac.RBAC.UpdateRole | app/common/security/rbac.go:89-101 | refused if missing, else replaced |
| Rbac.RBAC.DeleteRole | app/common/security/rbac.go:104-115 | refused if missing, else removed |
| Rbac.RBAC.AddPermission | app/common/security/rbac.go:118-131 | as AddRole |
| Rbac.RBAC.UpdatePermission | app/common/security/rbac.go:147-159 | as UpdateRole |
| Rbac.RBAC.DeletePermission | app/common/security/rbac.go:162-173 | as DeleteRole |
| Rbac.RBAC.AddUser | app/common/security/rbac.go:176-189 | refused if the id exists, else added as it is |
| Rbac.RBAC.DeleteUser | app/common/security/rbac.go:220-231 | refused if missing, else removed |
| TokenBucket.AdmissionIsBounded | app/gateway/middlewares/rate_limiter.go:56-78 | calls from s to t admit at most capacity plus the refill of the whole periods between s and t, whatever came before |
| TokenBucket.TokensStayInRange | app/gateway/middlewares/rate_limiter.go:64-78 | tokens stay within zero and capacity over any run |
| TokenBucket.FrequentCallsNeverRefill | app/gateway/middlewares/rate_limiter.go:60-66 | with every gap below a period, exactly the stored tokens are ever admitted |
| TokenBucket.RefusedIff | app/gateway/middlewares/rate_limiter.go:56-78 | a call is refused if and only if the capacity is zero, or nothing is stored and no whole period at a positive rate has passed |
| TokenBucket.TokensAreConserved | app/gateway/middlewares/rate_limiter.go:56-78 | over any run, tokens stored plus tokens added equal calls admitted plus tokens left |
| TokenBucket.CreditedIff | app/gateway/middlewares/rate_limiter.go:60-66 | a run is refilled if and only if some gap reaches a period, at a positive rate, while there is room |
| TokenBucket.SomeRefillIffLongGap | app/gateway/middlewares/rate_limiter.go:60-66 | that is, at a positive rate and capacity, if and only if some gap between calls reaches a period, or the first one does while there is room |
| TokenBucket.MoreThanStoredIff | app/gateway/middlewares/rate_limiter.go:60-78 | a run is admitted more than was stored at its start if and only if it makes more calls than that and one of its gaps reaches a period |
| TokenBucket.NewKeyIsFull | app/gateway/middlewares/rate_limiter.go:56-64 | the first call for a key is admitted unless the capacity is zero, and leaves the capacity less one |
| TokenBucket.TokenBucketRateLimiter.Allow | app/gateway/middlewares/rate_limiter.go:49-79 | the script's answer, remaining tokens and new bucket, by the whole periods since the last call |
| PriorityQueue.QueueIsStable | app/common/performance/worker_pool.go:264-285 | any sequence of Push and Pop answers as a queue that pops the earliest job of highest priority, leaves the reference queue's jobs in descending priority with push order among equals, and the jobs pushed are those popped and those left |
| PriorityQueue.HeadIsTop | app/common/performance/worker_pool.go:274-285 | the head of the slice is that job, and the rests correspond |
| PriorityQueue.StableSortIsUnique | app/common/performance/worker_pool.go:288-297 | descending order with push order among equals determines the slice |
| PriorityQueue.JobQueue.Push | app/common/performance/worker_pool.go:264-271 | the job lands behind every job of its priority or higher |
| PriorityQueue.JobQueue.Pop | app/common/performance/worker_pool.go:274-285 | the head, or nothing when empty |
| PriorityQueue.JobQueue.Sort | app/common/performance/worker_pool.go:288-297 | the bubble sort is descending and keeps the order among equals, for any slice |
| Spending.OrderDoesNotMatter | app/yearBill/script/data.go:63-125 | all totals and the earliest and latest times of day are the same for every interleaving of the workers |
| Spending.TotalsAddUp | app/yearBill/script/data.go:95-119 | restaurant, library and other totals together equal the per-merchant totals together and the sum of all debits |
| Spending.TotalsByKind | app/yearBill/script/data.go:95-119 | each of the three totals, and each merchant's entry, is the sum of the debits at its kind of place |
| Spending.TimesAreExtremes | app/yearBill/script/data.go:106-113 | the two times of day are the earliest and the latest of the restaurant debits |
| Spending.PlaceTotals | app/yearBill/script/data.go:96-100 | a merchant's entry is what was spent there |
| Spending.FavouriteExactly | app/yearBill/script/data.go:101-105 | a restaurant with a maximal total is reported under every interleaving if and only if some restaurant beats the rows with an empty merchant name |
| Spending.NamedRowsReportFavourite | app/yearBill/script/data.go:101-105 | with every merchant named, one restaurant debit is enough |
| Spending.PayTotals.Record | app/yearBill/script/data.go:75-120 | the row's effect on the shared totals, including the rows that are skipped |
| Spending.PayTotals.Charge | app/yearBill/script/data.go:95-119 | the critical section |

## Left out

- Expiry of marks, of the Redis copy of a bucket and of locks: marks and buckets do not expire, the copy of a transaction record may vanish at any step, and the monitor lock is not modelled, so any number of passes may run at once.
- Redis and database clients that resend a call on their own, and reads that return a wrong record: each call takes effect at most once.
- TccModel is a transition system on values and not a class, because the property is about interleavings; TccStore has the store and the loops in imperative form.
- TccTheorems.FalseNeverConfirms: excepts executions in which an accepting row write was applied but reported as an error, because the code then does confirm (TccLimits.LostReplyConfirmsAfterFalse).
- Liveness of the monitor, back-off ticks, sleeping between retries and context deadlines: cancellation and failures are nondeterministic.
- Component registration, requests and the participants themselves: a participant is whatever replies it gives.
- The parallel coordinators in transaction_coordinator.go and tcc.go, SagaManager and the state manager's queries.
- Step timeouts, error texts and end times of sagas: an error is the fact that there was one.
- Saga.RestoresIffCovered: for effects that can lead to any world, and compensations that depend on the world alone when the environment lets them succeed; for others only the sufficient direction, in Saga.SagaIsAtomic, is proved.
- Saga.RestoresIffBacked: a compensation that succeeds is taken to undo its action exactly, and one that fails to leave the world alone; for one that succeeds with another effect see Saga.RestoresIffCovered.
- The moment between the monitor's first query and its clock reading (txstore.go lines 157-162): both are one step, so a pass is started with the age the transaction has when its row is read.
- 32-bit overflow of the breaker's counters and of cursors: they are natural numbers.
- The breaker's state-change callback, its manager and the panic path of ExecuteWithContext, which is a failing result.
- Round robin, random and least-connections balancing, the balancer factory and the registry.
- Slices of roles and users shared with callers: roles and users are values in the maps, so aliasing and update through a caller's pointer are not captured.
- Names, metadata and time stamps in RBAC, its listing operations and UpdateUser.
- The sliding-window limiter and the gateway's own breaker.
- The worker pool around the priority queue.
- Spending: amounts are exact reals instead of decimals that pass through float64; the day of the earliest and latest meal, fetching and decoding are left out.
