# GPU work and memory ownership: a Dafny model

`gpu-info` submits GPU work from several owners to one device and queue, and owns the memory that
work uses. Its promises are about ownership: nothing is released before the GPU has finished with
it, every reservation is settled exactly once, every allocated byte is charged to exactly one
owner, and idle capacity is evicted only when, and only as far as, a plan needs it. This project
models the five files that keep those promises and proves them.

`dafny verify dfyconfig.toml` checks everything.

## How it is built

| module (its file has the same name) | what it holds |
|---|---|
| `Outcomes`, `Gpus` | results, error-scope verdicts; the GPU, driver, callbacks and host as a constrained environment |
| `Protocol`, `ProtocolProofs`, `Runs` | the ownership protocol of a submission queue as a state machine of thirteen steps, its invariant, and theorems about every run |
| `WorkContexts`, `WorkQueues` | the classes `WorkContext`, `RecordedWork`, `WorkQueue`: every field update is one enabled step of such a run |
| `Admission` | the classes `MemoryBudget` and `Reservation`: counters proved equal to sums over live owners |
| `Pool`, `PoolSteps` | the class `ResourcePool` against its retention policy; the same code with the lock released between evictions, for any number of threads |
| `Gate` | the counting semaphore, one step per locked section |
| `ValidationCells` | composite error scopes, the cell a future leaves while it is polled, and the result a `Checked` operation keeps private |
| `Descriptors` | descriptor checks and byte counts |
| `Plans`, `Supply`, `Residency` | plans of descriptors as functions over idle allocations; what idle allocations cover of a plan; the classes `Resources`, `Owned`, `Batch`, `Prepared` |
| `DomainSteps` | one ownership domain used by any number of threads, one step per locked section |

The environment is never assumed to be helpful. `Gpus.Gpu` records what was queued, what has
retired, write-once completion signals, error-scope verdicts and device loss; `Gpus.Evolves` lets it
move arbitrarily between any two observations, as long as history is not rewritten and a completion
signal reports success only after its position of the stream retired. Foreign submissions may land
before and after every one of ours, also between an unwound launch and its fence. Steps are guarded by
what the code checks, not by what it hopes: `Protocol.Evidence` is the condition the collection pass
tests, including that it has looked at the entry's acceptance in the same pass, and that this evidence
proves retirement is the lemma `ProtocolProofs.EvidenceProves`. A hook call is dated at the owner's last
look at the environment before it; what the host reports between that look and the call counts as later.

The vocabulary that contracts share is defined once, and what it means is proved apart from its definition: the
status of a submission in terms of scopes and signals (`ProtocolProofs.StatusMeans`), what a pass may not miss in the
same terms (`WorkQueues.Notices`), where a match is found in terms of keys and usages (`Supply.MatchLaw`), where an
allocation ends in terms of usage, size and loss (`Residency.Resources.Resting`), and what a texture's levels are in terms of
quotients by powers of two (`Descriptors.TextureBytesMeans`).

The classes carry ghost state in three ways. A `WorkContext` holds the run all owners of the context
have made so far; only `WorkContext.Take` extends it, with an enabled step. It also keeps every request made of the
driver with its answer, and every sleep, so that contracts say what was asked, how often and in which order. A `Resources` holds which
charge belongs to which owner, and its invariant says that every charge is idle, waiting to be mapped,
held, or made by somebody else on the shared budget - in exactly one of these places.

## Where the code falls short of its documentation

* **`submitted` can be skipped.** The collection pass looks at an entry's acceptance once
  (`src/wait/work.rs:497`) and again inside `status()` (`src/wait/work.rs:504`). If the scopes settle and
  the callback runs between the two, the lease is told `completed(Ok)` and never `submitted`.
  `Runs.SkipHappens` is such a run with both observations in it. `Runs.SkippedExactly` says that runs skip in
  no other way, and `WorkQueues.WorkQueue.Collect` gives the same condition for every entry a pass visits,
  in terms of the pass's two observations. Otherwise `submitted` comes first (`Runs.SubmittedFirst`).
  The pass is synchronous, so this needs a backend whose scopes settle on another thread while the pass runs.
  It never happens where scopes answer when they are popped, as native ones do (`Runs.PromptNeverSkips`), nor in a
  browser, whose promises settle only between calls (`Runs.SynchronousNeverSkips`);
  `WorkContexts.WorkContext.NeverSkips` says so of the class for both.
* **A success can be told after a reported loss.** The pass looks for a loss before its first entry
  (`src/wait/work.rs:480`) and again only for a dropped callback (`src/wait/work.rs:525`).
  `Runs.LossMissed` is a run in which a lease is told Ok after the host reported the loss.
  `Runs.DespiteLossExactly` says when: the entry succeeded by its own scopes and signal, and the owner had
  not looked since. `WorkQueues.WorkQueue.Collect` states it for a pass: a success is dated after the loss
  exactly if some visited entry had succeeded by itself and the loss was reported after the look that begins
  the pass and by the time of that visit; of the two statements this is the one a caller can check.
  A loss reported before `Collect`, `WaitForSlots`, `Shutdown` or `TrySubmit` is called is always seen: no lease
  is then told Ok.
* **`Gate` can lose a wake-up.** `enter_until` may be the waiter a permit's return notifies, and then
  give up (`src/pool.rs:541-542`). `Gate.WakeupLostExactly` is the exact condition,
  `Gate.WakeupCanBeLost` a run, and `Gate.NoWakeupLost` the guarantee where nobody gives up.

## Model

| member | source | states |
|---|---|---|
| Outcomes.VerdictAccepts | src/wait.rs:177-191 | a composite of error scopes accepts exactly when every member settled without error |
| Outcomes.VerdictMeans | src/wait.rs:177-191 | a composite is pending exactly while a member is, accepts exactly if all do, and else fails with the first failed member in order |
| Outcomes.VerdictSticks | src/wait.rs:197-205 | once a composite has answered, scopes settling later never change the answer |
| ProtocolProofs.StatusMeans | src/wait.rs:298-310 | a submission answers its completion signal once every scope has accepted, the first failed scope once all have settled, and nothing else |
| ProtocolProofs.ProofMeans | src/wait/work.rs:515-521 | a failed entry is proved retired by settled scopes together with a fence whose scopes accepted and whose signal succeeded |
| ProtocolProofs.OwnersDisjoint | src/wait/work.rs:164-170 | no two recordings or pending entries ever hold the same lease |
| ProtocolProofs.EvidenceProves | src/wait/work.rs:515-552 | whatever the pass settles an entry on - own signal, fence, empty queue or known loss - proves its commands no longer run, and Ok proves retirement and acceptance of every owned scope |
| ProtocolProofs.FinishPhases | src/wait/work.rs:553-561 | settling an entry ends each of its leases, once, and touches no other lease |
| ProtocolProofs.StepKeeps | src/wait/work.rs:384-675 | the invariant of queue, recordings, leases and hook log survives every step of owner, producer and environment |
| Runs.RunKeeps | src/wait/work.rs:384-675 | every state of every run satisfies the invariant |
| Runs.RetirementSafety | src/wait/work.rs:472-568 | in every run, at each completed call the lease's commands had retired or the device was known lost, and at each aborted call they had never reached the queue |
| Runs.ValidatedSuccess | src/wait/work.rs:405-453 | submitted and completed(Ok) only after every scope of every recording merged into the submission, and the submission's own, settled without error; completed(Ok) only for retired commands |
| Runs.PhaseCounts | src/wait/work.rs:302-313 | the automaton over the hook log means what plain call counts mean |
| Runs.LeaseLifeCycle | src/wait/work.rs:232-240 | a lease gets exactly one of aborted and completed, and gets it as soon as neither a recording nor the queue holds it; submitted at most once and never with aborted |
| Runs.SubmittedFirst | src/wait/work.rs:497-503 | in every run each completed(Ok) has an earlier submitted of the same lease, unless a step of the run skips that lease |
| Runs.StepSkips | src/wait/work.rs:553-561 | a lease becomes skipped in exactly the step that settles an entry accepted and completed only after the pass looked for acceptance |
| Runs.SkippedExactly | src/wait/work.rs:496-507 | a run skips submitted if and only if in some pass acceptance and completion both became visible between the look at acceptance and the look at status |
| Runs.SkipHappens | src/wait/work.rs:497-504 | a concrete run from an empty queue in which both looks of one pass straddle acceptance and submitted is skipped |
| Runs.PromptKeeps | src/wait/work.rs:440-453 | where no recorded or submitted scope is unsettled when popped, no step skips submitted: the passes' own look sees every acceptance |
| Runs.PromptNeverSkips | src/wait/work.rs:496-504 | on such a backend no run skips submitted |
| Runs.SynchronousNeverSkips | src/wait/work.rs:496-504 | where no scope settles between the two looks of a pass, no run skips submitted, however late scopes settle |
| Runs.StepTellsDespiteLoss | src/wait/work.rs:504-561 | a lease is told Ok despite a reported loss in exactly the step that settles an entry's own success while the owner has not seen the loss |
| Runs.DespiteLossExactly | src/wait/work.rs:473-482 | a run tells a lease Ok despite a reported loss if and only if some step of it does that; a dropped callback is never forgiven then |
| Runs.LossMissed | src/wait/work.rs:480-561 | a concrete run in which a lease is told Ok after the host reported the loss |
| Runs.StepKeepsFailures | src/wait/work.rs:505-513 | a queued entry keeps its first failure, its leases and its announcement |
| Runs.StatusSticks | src/wait.rs:298-310 | an observed submission outcome is final |
| ProtocolProofs.StepLater | src/wait.rs:451-455 | no step takes back a signal, a verdict, a queued position or a reported loss |
| WorkContexts.WorkContext.Take | src/wait/work.rs:384-675 | the only way the protocol state changes: an enabled step of the run, after which history is an extension |
| WorkContexts.WorkContext.History | src/wait/work.rs:472-568 | of the hooks this context has actually called: retirement safety, validated success, and one ending per lease |
| WorkContexts.WorkContext.NeverSkips | src/wait/work.rs:440-453 | a context whose scopes settle at once, or only between calls, has never skipped submitted |
| WorkContexts.WorkContext.AfterLoss | src/wait/work.rs:667-675 | once the owner has seen the loss, every lease it tells is told DeviceLost, or was aborted unsubmitted |
| WorkContexts.WorkContext.PollDevice | src/wait.rs:507-521 | a reported empty queue proves everything queued so far retired, except in the browser |
| WorkContexts.RecordedWork.constructor | src/wait/work.rs:185-196 | new work owns its commands, one lease and its scopes; the queue, its flags and the hook log are untouched |
| WorkContexts.RecordedWork.Record | src/wait/work.rs:201-218 | a known rejection or unwinding encoder aborts the lease with nothing recorded; otherwise the scopes travel with the work, none known to have failed; the queue and its flags are untouched |
| WorkContexts.RecordedWork.Append | src/wait/work.rs:221-229 | commands, leases and scopes in order, every lease gated by the scopes of both, or a foreign context's work unchanged; the queue and its flags are untouched |
| WorkContexts.RecordedWork.Drop | src/wait/work.rs:232-240 | every lease is aborted, in order, and gone |
| WorkContexts.WorkContext.Drive | src/wait/work.rs:420-436 | one hand-over to the driver is recorded with what came of it; an accepted one has popped its scope |
| WorkContexts.WorkContext.AskFence | src/wait/work.rs:643-665 | one request for a fence is recorded with what came of it |
| WorkQueues.Notices | src/wait/work.rs:496-552 | a pass settles an accepted and signalled entry with Ok; gives a rejected one, or an accepted one whose callback failed or was dropped, that very failure; settles a failed one with proof; and tells a dropped callback, and no other failure, as a success exactly if all scopes accepted and no loss is reported |
| WorkQueues.PassFences | src/wait/work.rs:505-513 | the visits of a pass ask the driver for fences only, and for none if the queue is known empty |
| WorkQueues.ReadySticks | src/wait/work.rs:515-529 | observable proof that an entry can be settled is never withdrawn |
| WorkQueues.SettledPhases | src/wait/work.rs:309-313 | settling with Ok skips submitted exactly for an entry that was never announced |
| WorkQueues.FirstFailureConcat | src/wait/work.rs:554-556 | the failure a pass reports is the first in call order |
| WorkQueues.FirstFailureOfCompleted | src/wait/work.rs:309-313 | an entry's leases all report the one outcome it was settled with |
| WorkQueues.WorkQueue.constructor | src/wait/work.rs:350-360 | an empty, unpoisoned queue of the given capacity |
| WorkQueues.WorkQueue.Announce | src/wait/work.rs:302-307 | every lease is told submitted, once, in order; nothing else changes |
| WorkQueues.WorkQueue.Settle | src/wait/work.rs:557-561 | the entry leaves, the others keep their order, its leases are completed in order |
| WorkQueues.WorkQueue.Recover | src/wait/work.rs:643-665 | the failed entry keeps the fence, or an observer of a refused fence's scopes, or nothing if asking unwound; a queued fence is bound behind everything in the stream; its own completion stays |
| WorkQueues.WorkQueue.FailEntry | src/wait/work.rs:505-513 | the first failure is latched, the queue poisoned, and one fence asked for exactly if the queue is not known empty, and kept |
| WorkQueues.WorkQueue.Inspect | src/wait/work.rs:515-529 | retired means proof and is missed by no entry that had it; recovered exactly a retired entry whose dropped callback is forgiven: accepted, and no loss reported, at that look |
| WorkQueues.DecisionFaithful | src/wait/work.rs:496-552 | two observations and a decision make exactly one outcome: own success, a forgiven dropped callback, the first failure, or none without proof |
| WorkQueues.WorkQueue.DecideEntry | src/wait/work.rs:530-552 | the outcome is one the evidence allows; a dropped callback is announced and told Ok only while no loss is reported, and never told Dropped then; without an outcome there was no proof |
| WorkQueues.WorkQueue.Observe | src/wait/work.rs:497-513 | acceptance seen at the first observation is announced, and only there; a failure seen at the second is latched and one fence asked for unless the queue is known empty; a failed entry is not touched |
| WorkQueues.WorkQueue.CollectEntry | src/wait/work.rs:496-564 | one entry is settled or kept, its leases told exactly what its observations say, skipped exactly when acceptance appeared between the two |
| WorkQueues.WorkQueue.TerminalLoss | src/wait/work.rs:667-675 | with a reported loss every entry is settled, oldest first, with DeviceLost; without one nothing changes |
| WorkQueues.WorkQueue.VisitAll | src/wait/work.rs:493-565 | every entry is visited once, in submission order; the hook log grows by exactly what the visits tell |
| WorkQueues.WorkQueue.CollectEntries | src/wait/work.rs:493-568 | Ok counts exactly the entries that left, Err is the first failure told to a lease, and no entry that was ready stays |
| WorkQueues.PassingNext | src/wait/work.rs:496-564 | a visit extends the account of the pass - survivors, calls, order, skips - and disturbs no earlier verdict |
| WorkQueues.PassTellsLost | src/wait/work.rs:480-561 | a pass dates a success after the loss exactly if it visited an entry that had succeeded by itself when the loss was reported |
| WorkQueues.WorkQueue.VisitNext | src/wait/work.rs:496-564 | one iteration in terms of the whole pass |
| WorkQueues.WorkQueue.PollForSweep | src/wait/work.rs:473-492 | loss before poll, latched fault before poll, one poll, loss again after it; the queue counts as empty exactly if the poll said so, outside the browser; a poll error settles nothing |
| WorkQueues.WorkQueue.LatchFault | src/wait/work.rs:483-488 | a panicked poll is latched and poisons |
| WorkQueues.WorkQueue.Collect | src/wait/work.rs:472-568 | the whole pass: poisoned is exact afterwards, pending stays in order and within capacity, results count what happened; submitted is skipped, and a success dated after the loss, exactly as the visits' observations say; no success if the loss was reported before; no failure, success or proof visible when the visits began is missed; one poll at most and then fences; each error is explained by the loss, the poll or a lease |
| WorkQueues.WorkQueue.SubmissionOrder | src/wait/work.rs:557-559 | pending entries are always in submission order |
| WorkQueues.WorkQueue.TrySubmit | src/wait/work.rs:384-466 | work comes back whole or is consumed; consumed work has its aborted calls made with nothing queued, or is retained as the newest entry with its commands in the stream, announced exactly if its acceptance was seen; work whose recording is known rejected is aborted and never reaches the driver; accepted work is handed over once, last of all, retained work once and then fenced, any other work never; a failed collection is explained by loss, poll or lease |
| WorkQueues.WorkQueue.Launch | src/wait/work.rs:412-465 | the owner is installed before the driver call, so success, unwinding and rejection all leave the leases in the newest entry, behind the entries there were; the driver is asked once, and for a fence exactly if it unwound or a rejection is known |
| WorkQueues.WorkQueue.Confirm | src/wait/work.rs:440-453 | the leases are announced, by exactly these calls, if and only if acceptance is known at submission; a rejection known then is retained as a failure |
| WorkQueues.WorkQueue.LaunchUnwound | src/wait/work.rs:455-464 | an unwound submission is retained, poisoned and fenced |
| WorkQueues.WorkQueue.WaitForSlots | src/wait/work.rs:580-615 | Ok is the drop in the pending count; unpoisoned and before the deadline it means the slots asked for, at least one and at most all, are free; every sleep is within a period and the deadline, unpoisoned, for lack of slots, and followed by a poll; Err is the failed poll, the loss, or the first failure told to a lease |
| WorkQueues.WorkQueue.Shutdown | src/wait/work.rs:622-641 | Ok only with nothing pending and no failure told; pending work comes back only with a poll error; otherwise Err is the first failure told; it gives up only after polling once per pass |
| WorkQueues.WorkQueue.DropQueue | src/wait/work.rs:702-719 | ends with nothing pending, and then every lease not in a recording is settled, or after polling in every round |
| Admission.TotalWithout | src/budget/admission.rs:155-165 | the sum over live owners splits at any one owner |
| Admission.TotalUnion | src/budget/admission.rs:155-165 | sums over disjoint owners add up |
| Admission.HighestIsMaximum | src/budget/admission.rs:96-97 | the peak is reached and nothing was above it |
| Admission.ChargeMoves | src/budget/admission.rs:126-146 | charging keeps both counters equal to their sums, without wrapping |
| Admission.MemoryBudget.SetLimit | src/budget/admission.rs:69-71 | a limit changes future growth only |
| Admission.MemoryBudget.Reserve | src/budget/admission.rs:82-103 | all bytes or none: refused exactly if 64 bits cannot hold the sum, or for positive growth without a limit or beyond it |
| Admission.MemoryBudget.Release | src/budget/admission.rs:161-165 | a destroyed resource gives back exactly its own bytes |
| Admission.Reservation.Charge | src/budget/admission.rs:126-146 | total usage does not change; fails exactly when the remainder is too small |
| Admission.Reservation.Drop | src/budget/admission.rs:149-153 | exactly the uncharged remainder is rolled back |
| Pool.RoomAtIsShortest | src/pool.rs:397-410 | the prefix a return evicts makes room, and no shorter one does |
| Pool.OverAtIsShortest | src/pool.rs:354-361 | the prefix a lowered budget evicts is enough, and no shorter one is |
| Pool.FreeAtIsShortest | src/pool.rs:426-444 | the prefix eviction destroys frees enough, or is everything; no shorter one does |
| Pool.LatestAtIsLatest | src/pool.rs:375-375 | the slot taken is the most recently returned of its key, and none only if there is none |
| Pool.ResourcePool.SetBudget | src/pool.rs:350-364 | drops exactly the shortest oldest prefix over budget; raising brings nothing back |
| Pool.ResourcePool.Take | src/pool.rs:373-379 | removes exactly that slot and keeps the order of the rest |
| Pool.ResourcePool.Put | src/pool.rs:383-420 | drops the shortest oldest prefix that makes room, no entry too many, and appends, or drops only the resource |
| Pool.ResourcePool.Evict | src/pool.rs:425-445 | drops the shortest oldest prefix of the bytes asked for and says how much that was |
| PoolSteps.StepKeeps | src/pool.rs:383-445 | with the lock released between evictions, every locked section of any thread keeps the byte sum, both bounds, and never removes from an empty list |
| PoolSteps.StepConserves | src/pool.rs:383-445 | every returned resource is idle, in one caller's hands, taken, or dropped - never two of them |
| PoolSteps.EveryRelease | src/pool.rs:350-445 | both, at every lock release of every run |
| PoolSteps.BoundedSections | src/pool.rs:394-410 | however threads interleave, each own section uses up one of the evictions a put or evict still has |
| PoolSteps.EndsWithinIdleCount | src/pool.rs:394-445 | from its first locked section on, a put or evict ends within the idle count it saw there, plus one section, whatever other threads do |
| PoolSteps.SoloPut | src/pool.rs:383-420 | undisturbed, the sections of a put come to what the sequential policy says |
| PoolSteps.TakeIsLatest | src/pool.rs:373-379 | among any threads, a take hands out the latest idle resource of its key, and nothing else moves |
| PoolSteps.BudgetIsShortest | src/pool.rs:350-364 | among any threads, a new budget drops the shortest oldest prefix beyond it |
| PoolSteps.SoloEvict | src/pool.rs:425-445 | undisturbed, the sections of an evict come to what the sequential policy says |
| Gate.StepKeepsPermits | src/pool.rs:539-589 | every step keeps free plus live permits; a cancelled wait changes neither |
| Gate.PermitsConserved | src/pool.rs:524-611 | in every run free plus live permits equal the initial permits, at least one |
| Gate.WakeupLostExactly | src/pool.rs:539-558 | a step loses a wake-up if and only if it is a cancellation by one of exactly as many awake waiters as there are free permits, while somebody sleeps |
| Gate.NoWakeupLost | src/pool.rs:567-588 | in runs without cancellation, a sleeper and a free permit imply somebody awake to take it |
| Gate.WakeupCanBeLost | src/pool.rs:539-558 | a run in which a permit is free and the only waiter sleeps on |
| ValidationCells.PollAll | src/wait.rs:177-191 | pending if any member is, else the first error in order; every member is polled |
| ValidationCells.PollIsVerdict | src/wait.rs:197-201 | however composites nest, polling answers the ordered verdict of the leaf scopes |
| ValidationCells.StepKeeps | src/wait.rs:197-228 | a future is in its cell, in one poller's hands, or destroyed with the outcome published; it is never polled after settling |
| ValidationCells.SettledSticks | src/wait.rs:204-206 | a published outcome never changes |
| ValidationCells.PublishedGrows | src/wait.rs:222-227 | along every run published verdicts only accumulate |
| ValidationCells.CompositeIsAtomic | src/wait.rs:177-191 | although other pollers run between two members, a composite's answer is the one every later poll repeats, and pending means a member was unsettled |
| ValidationCells.Checked.Poll | src/wait.rs:255-267 | the value stays private until the scopes settle and is handed out at most once |
| Descriptors.HalvedIsQuotient | src/resources.rs:161-161 | a level's halved extent is the quotient by two to the power of the level, rounded down |
| Descriptors.MaxMipsIs | src/resources.rs:107-107 | there may be another level exactly while some extent that shrinks is not used up; a line has one |
| Descriptors.LevelIs | src/resources.rs:161-168 | one level has the extents of its quotients, at least one, the fewest blocks that cover them, and the product of blocks, depth, samples and block size as bytes |
| Descriptors.TextureBytesMeans | src/resources.rs:159-172 | an accepted texture has one such level per mip and as many bytes as they have together, or overflows exactly beyond 64 bits |
| Descriptors.TextureAccepted | src/resources.rs:100-158 | which textures are accepted, condition by condition |
| Descriptors.BufferAccepted | src/resources.rs:70-95 | which buffers are accepted, and that they stand for their size |
| Descriptors.SameKey | src/resources.rs:175-205 | two descriptors share a key exactly if they differ in nothing but a view format equal to the format |
| Descriptors.CheckedStep | src/resources.rs:165-170 | stopping a chain of products at the first 64-bit overflow loses nothing |
| Descriptors.CheckedLevel | src/resources.rs:163-170 | one mip level by checked products is its mathematical size, or overflow exactly when 64 bits cannot hold it |
| Descriptors.ComputeTextureBytes | src/resources.rs:99-173 | the mip loop returns the unbounded sum of level sizes, and Overflow exactly when that exceeds 64 bits; the first complaint otherwise |
| Descriptors.NormalizedBytes | src/resources.rs:175-180 | dropping a redundant view format changes neither size nor complaints |
| Descriptors.SpecBytesPositive | src/resources.rs:70-173 | an accepted descriptor never stands for zero bytes |
| Plans.FateMeans | src/resources.rs:470-531 | where an allocation nobody holds ends, told by health, loss, usage, size, budget and mapping |
| Plans.ReturnableMeans | src/resources.rs:470-531 | what can all go back, told by loss, usage, size, mapping and room |
| Supply.MatchLaw | src/resources.rs:302-318 | a descriptor misses exactly if it is a read-back buffer or no slot still idle has its key; otherwise it takes the latest such slot |
| Supply.MatchesAre | src/resources.rs:302-318 | of every key a plan matches as many as it wants and the pool offers, whichever is less |
| Supply.CoveredMeans | src/resources.rs:302-318 | a plan is matched as a whole exactly if no read-back buffer is in it and no key is wanted more often than offered |
| Supply.CoveredPlan | src/budget/admission.rs:77-81 | such a plan has no objection to meet, misses nothing and evicts nothing, whatever the limit |
| Plans.CheckOutMoves | src/resources.rs:302-318 | checking out a plan neither loses nor duplicates an allocation, a byte or an entry |
| Plans.MissingGrows | src/resources.rs:309-313 | stopping at the first overflow of the missing bytes refuses no plan that fits |
| Plans.Relief | src/resources.rs:319-333 | the second reservation after eviction is refused exactly when evicting everything would not have been enough |
| Plans.NoRelief | src/resources.rs:319-333 | where it is refused, everything idle was evicted |
| Plans.ObjectionMeans | src/resources.rs:280-334 | the first refused descriptor is the objection; else a plan is refused exactly if what it misses overflows, or no limit or too low a one allows it with everything idle evicted |
| Plans.EvictsLeast | src/resources.rs:319-333 | Capacity exactly when no amount of eviction helps; otherwise the evicted prefix is the shortest that makes room |
| Plans.AcceptsNext | src/resources.rs:470-530 | where a whole batch fits, returning it one by one evicts nothing |
| Plans.TotalOfSlots | src/budget/admission.rs:197-207 | charges of distinct allocations are worth exactly their bytes |
| Plans.SwapRemoveKeeps | src/resources.rs:401-401 | removing by moving the last into place loses nothing |
| Plans.ComebackMeans | src/resources.rs:418-431 | exactly what was mapped while no loss is known comes back, mapped and otherwise unchanged |
| Plans.LastFailureIsLast | src/resources.rs:413-433 | a harvest reports the last failed callback's failure, and none exactly if none failed |
| Residency.Worth | src/resources.rs:227-233 | the charges are worth idle, waiting, held and foreign bytes together |
| Residency.Resources.Conservation | src/resources.rs:227-233 | allocated always equals idle plus pending-remap plus held plus foreign bytes |
| DomainSteps.StepKeeps | src/resources.rs:280-531 | every locked section and change of hands by any thread keeps each allocation in exactly one place, charged once with its own bytes |
| DomainSteps.ConservedThroughout | src/resources.rs:227-233 | between any two sections of any threads, allocated bytes are idle, waiting, held, in some thread's hands, or foreign |
| DomainSteps.NeverShared | src/resources.rs:302-318 | in every run, two takers never share an allocation |
| DomainSteps.NeverWraps | src/budget/admission.rs:82-165 | in every run of any threads, reserved and charged together fit 64 bits and no saturating subtraction is clamped |
| Residency.OthersMove | src/budget/admission.rs:82-103 | charges that others make or release on the shared budget never disturb where this domain's charges are |
| Residency.Resources.constructor | src/resources.rs:249-262 | an empty domain on a shared budget, with retention off and at most 256 idle entries |
| Residency.Resources.Prepare | src/resources.rs:280-380 | succeeds exactly on plans without objection, with the exact error otherwise; a refusal gives every match back evicting nothing, one for Capacity left nothing idle to evict; success evicted the prefix the pressure needs, hands out new owners, and leaves every other owner, and every charge but the evicted ones, as it was; a plan that idle allocations cover succeeds whatever the limit, evicting nothing |
| Residency.Resources.CheckOutPlan | src/resources.rs:302-318 | takes the latest match per descriptor in plan order, sums the misses, or stops at overflow |
| Residency.Resources.Admit | src/resources.rs:319-334 | reserve, evict exactly what is needed, reserve again: all misses or nothing |
| Residency.Resources.Create | src/resources.rs:343-374 | the charge of a created miss cannot fail, and the allocation is charged with exactly its own bytes |
| Residency.Resources.CreateMisses | src/resources.rs:337-378 | every slot ends up exactly as specified, matches untouched, and the reservation at zero |
| Residency.Resources.RollBack | src/resources.rs:470-530 | dropped matches go back whole, evict nothing, and leave charges and other owners unchanged |
| Residency.Resources.DropOwner | src/resources.rs:470-531 | destroyed, queued for mapping or pooled, exactly by health, reusability, budget, loss and mapping: after a loss, unhealthy, read-back or too large it loses its charge and moves nothing; an unmapped staging buffer is the last to be mapped; anything else is the newest idle slot |
| Residency.Resources.Resting | src/resources.rs:470-531 | what the fate of an allocation comes to for the pool, the remaps and its charge |
| Residency.Resources.DropBatch | src/resources.rs:470-531 | every filled slot is given up; unhealthy ones are destroyed; healthy ones go back in order, evicting nothing, if there is room |
| Residency.Resources.SetIdleBudget | src/resources.rs:264-266 | evicted idle allocations release their charges |
| Residency.Resources.EvictIdle | src/pool.rs:425-445 | destroyed idle allocations release their charges before anything is reserved again |
| Residency.Resources.AnswerMapping | src/resources.rs:540-551 | the first answer of a map callback is recorded, a later one changes nothing |
| Residency.Resources.TakeAllAnswered | src/resources.rs:386-404 | exactly the answered remaps leave the list |
| Residency.Resources.SettleRemap | src/resources.rs:418-431 | a mapped allocation goes back mapped, a failed or lost one is destroyed |
| Residency.Resources.Collect | src/resources.rs:384-434 | counts what was harvested or reports the last failure; nothing failed or lost stays charged, after a loss the pool is unchanged, and the rest goes back mapped, in order, if there is room |
| Residency.Owned.Clone | src/resources.rs:555-556 | one more handle of the same allocation |
| Residency.Owned.Drop | src/resources.rs:470-531 | only the last handle's drop moves the allocation, and where to is told by health, usage, size, budget, loss and mapping |
| Residency.Owned.Taint | src/resources.rs:457-459 | a tainted owner is never healthy again, and the drop of its last handle destroys the allocation |
| Residency.Owned.Upload | src/resources.rs:584-606 | accepted exactly for the only handle of a mapped staging buffer with aligned bounds; afterwards it is unmapped |
| Residency.Batch.Accept | src/resources.rs:669-674 | every allocation becomes healthy, none changes hands |
| Residency.Batch.Transfer | src/resources.rs:675-694 | a slot is transferred once, to the kind that asked |
| Residency.Prepared.Poll | src/resources.rs:646-656 | pending, then exactly once: the healthy batch, or the scopes' error with everything created destroyed and the matches back in the pool if there is room; only that answer moves anything in the domain |
| Residency.Prepared.Drop | src/resources.rs:640-644 | dropping before an answer publishes nothing and destroys everything created |

## Left out

- WorkQueues.WorkQueue.Shutdown: takes a number of passes, because an unresponsive GPU may delay it forever; what it returns is stated for every number.
- WorkQueues.WorkQueue.DropQueue: takes a number of rounds for the same reason; when they run out it says that it polled in each.
- WorkQueues.WorkQueue.WaitForSlots: time is a counter that only moves forward; a deadline beyond the platform's clock is not modelled.
- WorkContexts.WorkContext.PollDevice: in the browser an empty queue is reported at random and never used as proof.
- Runs.PromptNeverSkips: that native scopes settle when popped is an assumption about the backend, named by the flag `immediate`.
- Runs.SynchronousNeverSkips: that browser promises settle only between calls is such an assumption too, named by the flag `wasm32`.
- WorkContexts.WorkContext.Drive: the record of requests holds what was asked and answered, not the commands, which the GPU's stream holds.
- Gate.WakeupLostExactly: a waiter with a timeout counts as a sleeper, although it wakes by itself; the run of `Gate.WakeupCanBeLost` leaves one without.
- Gate.StepKeepsPermits: the gate is a value of its step model, not a class: its only behaviour is blocking, which needs the interleaving.
- ValidationCells.StepKeeps: the cell is a value of its step model for the same reason; a backend future that panics is one more answer.
- PoolSteps.StepKeeps: the interleaved pool works on values; the class `Pool.ResourcePool` is the sequential form.
- Residency.Resources.Prepare: one thread at a time, as are all methods of `Resources`; interleavings of their locked sections are in `DomainSteps` and `PoolSteps`. A creation call that panics, and an allocation whose metadata vector cannot grow, are not modelled.
- DomainSteps.StepKeeps: says where allocations are, not why: health, budgets and which allocation is taken are the matter of `Residency` and `PoolSteps`.
- Residency.Resources.constructor: charges other domains make on the shared budget do not change within one operation; between operations `Residency.OthersMove` covers them.
- Residency.Owned.Drop: an owner that outlives its domain (whose allocation is then destroyed) is not modelled.
- Residency.Owned.Upload: the bytes copied and the native map range are not modelled; a failing map range is a parameter.
- Residency.Resources.AnswerMapping: starting the native map call, and its possible panic, are part of the environment.
- Between the owner's last look and a hook call nothing is observed; a loss reported in that moment is dated after the call.
- One queue per context: several queues on one context share the device but not their entries; the other queue's work appears as foreign submissions.
- The three error scopes around one operation are one scope with one verdict; which of the three failed first is not modelled.
- Completion callbacks and loss notification are steps of the environment that obey write-once signals, so `Notify` and `loss_notifier` have no class of their own.
- Lease hooks neither panic nor re-enter, as their documentation demands; poisoned mutexes are not modelled.
- Vectors always grow: a failing `try_reserve` would drop the resource, as an oversized one is dropped.
- A pool created with no entry limit is one with a limit nobody reaches.
- Workspaces, `take_buffer` and `take_texture` are wrappers around the pool; statistics, logging, labels and condition-variable sleep lengths do not affect ownership.
- Clones of native handles obtained through `Deref` or `resource_untracked` are documented as outside the accounting.
- Device discovery, displays, images, pipeline caches, external memory, budgets read from the system and the command line are other parts of the crate.
