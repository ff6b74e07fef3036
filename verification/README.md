# A verified model of the condition variable, its futex, and the coroutine handoff

This project models two cores of the repository in Dafny and proves what their comments and
documentation promise, for every number of threads, every interleaving and every length of run.

**The condition-variable stack** (`codes/pseudo_cond_var`). A two-group condition variable in the
style of glibc, on top of a futex lock that lives in the low bits of a word and of a futex with an
intrusive wait queue.

* `CondWords` is `pthread_cond_t` with its packed words, a class updated in place. One method for each
  atomic operation, with the wrap-around of 64 and 32 bits written out. Each method is proved to do
  to the unpacked memory (`CondMemory`) what a function there says.
* `CondProtocol` is the interleaving of `pthread_cond_wait`, `_signal`, `_broadcast` and `_destroy`,
  with `dec_grefs` and `quiesce_and_switch_g1`, over that memory: a program counter and locals for
  each thread, one step for each atomic macro and each futex call, spurious failures of weak
  exchanges and spurious returns of futex waits. History variables count the posted signals, those taken
  by members of G1 and by members of G2, and those G1 got in excess.
* `CondInvariant`, `CondTally` and `CondSafety` hold the invariant: facts about the shared words in each
  phase of a switch, facts about each thread's place, and sums over all threads (references, sleepers,
  wake-ups on their way, stolen signals owed). `Tally` and `Numbers` have the sums. `CondTheorems` states what
  follows for runs; `CondService` says whom the posted signals reach. `CondHistory` is about whole
  calls in a run: what holds when a thread that called wait, signal, broadcast or destroy has returned.
* `CondCalls` and `CondWaits` (with `CondAlone`) are about a thread that nobody disturbs: from every place in the code
  its call ends after a bounded number of its own steps in a state given by one formula. `CondRepair` and
  `CondLost` build runs from such calls.
* `ThreeStateLock` is the inner lock, with the loop by which its holder replaces the upper bits; `LockAlone` has its use
  by a thread that nobody disturbs.
* `QueueWalk`, `FutexBucket`, `FutexKernel` and `FutexTheorems` are the kernel side: the walk as a
  function on queues, the bucket and its nodes on the heap, the interleaving of
  `kernel_futex_wait` and `kernel_futex_wake`, and what it guarantees. `FutexAlone` is about whole calls, undisturbed and
  in a run.

**The coroutine handoff** (`codes/coroutine`).

* `CoroHandoff` and `CoroTheorems` are `symmetric_resume.cpp` built with `SYMMETRIC_EXTRA`: the main thread
  and a worker race on `done_` for each single task. `CoroWorker` is the worker's queue and loop.
* `CoroVariants` has the three single-threaded ways to await a single task as one machine; `CoroEvents`
  the events that all of them produce.

## Where the code does not do what it is meant to do

The model follows the code. Three places have a lemma with a run that shows the failure, a statement
of exactly when it happens, and the property proved for the rest.

* `three_states_lock_t.h:34-46`. A slow-path exchange that fails on a word in state 1 goes to sleep on that
  value, and the unlock of a word in state 1 wakes nobody (`LiteralCodeStrands`). The code differs from one
  that retries in exactly this step (`LiteralStepExactly`); with the retry, or in runs that never take
  this step, no sleeper is stranded (`NoStrandedSleeper`, `LiteralRunsThatRetry`).
* `k_futex.h:221`. The comment in lines 219-220 says that the waiter count is incremented before the enqueue;
  the code increments it in line 198, after the comparison of line 183 and the enqueue of lines 196-197. A store and
  a wake in between are lost (`LiteralCodeLosesWakeup`). The fast path of the code is right if and only if
  no waiter on the address is in that window (`LiteralFastPathExactly`), and a step of the code loses a wake-up if
  and only if it is a fast-path return that overlooks such a waiter, whose value is old, with no other wake of all on
  its way (`WakeupIsKeptExactly`). Runs of the code without such a step lose no wake-up (`LiteralRunsThatSee`); with
  the order of the comment every step refines the atomic futex (`EarlyCountingRefines`) and none is ever lost
  (`NoLostWakeup`).
* `pthread_cond.h:133-138`. The test of `g1_start` and the exchange that gives a stolen signal back are two steps,
  so the signal can land in a slot that has become G2 (`RepairHitsG2`). `RepairGoesBackExactly` says when it
  goes back to the group it came from, and when it lands in G2. A waiter that takes it there is still counted in the
  size of its group, and a later signal is spent on that count: it posts, and the only blocked waiter sleeps on
  (`SignalReachesNobody`). `PostReachesExactly` says exactly when a post finds a member to be served; in runs
  without late repairs every post does (`PunctualPostsReach`), and each posted signal serves one waiter
  (`PunctualSignalsServe`).

## Model

| member | source | states |
|---|---|---|
| CondTheorems.Partition | codes/pseudo_cond_var/nptl/pthread_cond.h:82-87 | In every state of every run with the inner lock free, a waiter numbered in [g1_start>>1, +orig_size) sits in the slot of G1, one numbered from there on in that of G2, below wseq>>1, and no two waiters share a number |
| CondTheorems.GroupWords | codes/pseudo_cond_var/nptl/pthread_cond.h:12-18 | With the inner lock free: g1_start and wseq agree on the G2 index, the size of G2 is 0, that of G1 between 0 and its original size, and no slot is closed |
| CondTheorems.FlipIsExactCut | codes/pseudo_cond_var/nptl/pthread_cond.h:198-203 | The xor of wseq cuts exactly: every waiter from g1_start on that has registered before it is in the new G1's slot, and the cut is the wseq it returned |
| CondTheorems.StartWordGrows | codes/pseudo_cond_var/nptl/pthread_cond.h:190-193 | The g1_start word never goes back; only the switch changes it, by exactly the old original size, which is 0 only for the initial group, and toggles the index |
| CondTheorems.NoBlockingInReusedSlot | codes/pseudo_cond_var/nptl/pthread_cond.h:108-118 | A thread about to block or blocked on a group futex holds a reference of the slot and its number is not below g1_start>>1 |
| CondTheorems.DrainedSlotIsEmpty | codes/pseudo_cond_var/nptl/pthread_cond.h:180-199 | Once the quiescing loop is over and until the slot is reopened nobody sleeps on it, is about to, or is past the closed-flag check |
| CondTheorems.PostingConservation | codes/pseudo_cond_var/nptl/pthread_cond.h:168-212 | With the lock free, the signals posted since the start are (g1_start>>1) + orig_size - g_size[G1], and at most wseq>>1 |
| CondTheorems.PostingStep | codes/pseudo_cond_var/nptl/pthread_cond.h:226-267 | Posting adds to g_signals of G1 exactly what it takes off its size; no other step counts as posting; a step of a signal posts at most one |
| CondTheorems.SignalPostsOnce | codes/pseudo_cond_var/nptl/pthread_cond.h:226-239 | After a step of a call of signal that posts, and until the call has returned, the thread posts nothing more |
| CondTheorems.CallOutcome | codes/pseudo_cond_var/nptl/pthread_cond.h:215-273 | Past the fast path, a signal posts nothing only if all waiters it read in wseq have been posted to; a broadcast ends with all of them posted to |
| CondTheorems.LeavesOnlyWhenPosted | codes/pseudo_cond_var/nptl/pthread_cond.h:99-114 | A wait that returns without having taken a signal has a number below the total of posted signals |
| CondTheorems.NewcomerNeverTakes | codes/pseudo_cond_var/nptl/pthread_cond.h:122-123 | While a slot plays G1 every successful decrement of its g_signals is by a waiter registered before the cut, with the lock's holder outside a switch by one below (g1_start>>1)+orig_size |
| CondTheorems.StolenSignalsAreNotLost | codes/pseudo_cond_var/nptl/pthread_cond.h:122-144 | While G1 is open: signals in it + signals its members took + signals thieves still owe it = signals posted to it + surplus, hence at least those posted to it |
| CondTheorems.SleeperIsNotForgotten | codes/pseudo_cond_var/nptl/pthread_cond.h:108-144 | If a waiter sleeps on an open slot that holds a signal, a wake-up of that slot is on its way or another member of the slot is awake in its loop |
| CondTheorems.QuiescerIsNeverStranded | codes/pseudo_cond_var/nptl/pthread_cond.h:71-79 | While the quiescer sleeps on g_refs, the wake flag is set with a reference left, or a thread is in dec_grefs between its last decrement and its FUTEX_WAKE |
| CondTheorems.DrainIsCovered | codes/pseudo_cond_var/nptl/pthread_cond.h:133-139 | While G1 is being drained, the members asleep are no more than the wake-ups on their way plus the thieves that will add one, or a wake of all is on its way |
| CondTheorems.QuiesceNeverDeadlocks | codes/pseudo_cond_var/nptl/pthread_cond.h:180-188 | Whenever the quiescer sleeps, another thread that is neither asleep nor waiting for the lock holds it up or is going to wake one that does |
| CondTheorems.WaitersAreCounted | codes/pseudo_cond_var/nptl/pthread_cond.h:89-91 | wrefs>>3 is the number of threads between stage 2 and stage 5, in every state |
| CondTheorems.ReturnsOnlyWhenNobodyWaits | codes/pseudo_cond_var/nptl/pthread_cond.h:57-69 | pthread_cond_destroy returns, and signal and broadcast take their fast path, only when no thread is between stage 2 and stage 5 |
| CondTheorems.DestroyerIsNeverStranded | codes/pseudo_cond_var/nptl/pthread_cond.h:146-155 | While the destroyer sleeps, the flag is set and a waiter is counted, or the last waiter still owes its wake |
| CondTheorems.CountersFit | codes/pseudo_cond_var/nptl/pthread_cond.h:12-18 | References and waiters are never negative nor more than the threads, group sizes never negative nor more than the registered waiters, signals never negative |
| CondTheorems.DistinctRun | codes/pseudo_cond_var/nptl/pthread_cond.h:84-86 | No two threads ever have the same sequence number |
| CondSafety.InvNext | codes/pseudo_cond_var/nptl/pthread_cond.h:57-273 | Every step of every thread, and every wake-up, keeps the whole invariant: words, places and sums |
| CondSafety.InvRun | codes/pseudo_cond_var/nptl/pthread_cond.h:43-273 | The invariant holds in every state of every run from pthread_cond_init |
| CondSafety.LocalsStep | codes/pseudo_cond_var/nptl/pthread_cond.h:82-273 | What each thread knows at its place in the code survives the steps of all others |
| CondSafety.CountsStep | codes/pseudo_cond_var/nptl/pthread_cond.h:73-158 | References, sleepers, wake-ups and stolen signals stay in balance in every step but the advance of g1_start |
| CondSafety.AdvanceCounts | codes/pseudo_cond_var/nptl/pthread_cond.h:190-193 | The advance of g1_start, which cancels what thieves owe and makes G2 the accounted group, keeps the balance |
| CondSafety.RankGrows | codes/pseudo_cond_var/nptl/pthread_cond.h:190-193 | The advance increases the g1_start word, so that no value of it comes back |
| CondInvariant.SignalerKeepsWaiters | codes/pseudo_cond_var/nptl/pthread_cond.h:164-213 | Closing, draining, advancing, reopening and flipping leave every waiter's group, slot and permission to block intact |
| CondTally.DrainingStep | codes/pseudo_cond_var/nptl/pthread_cond.h:176-188 | Each step during the drain keeps the sleepers of the closing slot covered |
| CondTally.ConservedStepWaiter | codes/pseudo_cond_var/nptl/pthread_cond.h:122-144 | Taking a signal, and repairing, keep posted = available + taken + owed - surplus |
| CondHistory.BroadcastCall | codes/pseudo_cond_var/nptl/pthread_cond.h:241-273 | A whole call of broadcast in any run: it returned on the fast path with nobody counted, or at its unlock the posted total is at least the wseq>>1 it read |
| CondHistory.SignalCall | codes/pseudo_cond_var/nptl/pthread_cond.h:215-239 | A whole call of signal in any run: fast path with nobody counted, or all it read in wseq have been posted to, or it posted one signal in a step of its own |
| CondHistory.DestroyCall | codes/pseudo_cond_var/nptl/pthread_cond.h:57-69 | When a call of destroy has returned, in any run, the destroying flag is set and nobody is between stage 2 and stage 5 |
| CondHistory.WaitCall | codes/pseudo_cond_var/nptl/pthread_cond.h:82-158 | A whole call of wait in any run has the number and slot of the wseq it fetched, and has taken a signal from that slot or its number has been posted to |
| CondCalls.UninterruptedCall | codes/pseudo_cond_var/nptl/pthread_cond.h:215-273 | A whole undisturbed call of signal or broadcast ends Idle with the lock free, in exactly 6, 7, 8, 15 or 17 steps, in the state CallEnd gives for members left in G1, waiters in G2 only, both, or nobody |
| CondCalls.CallOutcomes | codes/pseudo_cond_var/nptl/pthread_cond.h:215-273 | After such a call the lock is free; a broadcast has posted to everybody registered and left g_size[G1] 0; a signal has posted one, or nothing if all had been; a switch puts g1_start at the old cut and toggles the index |
| CondCalls.UninterruptedDrain | codes/pseudo_cond_var/nptl/pthread_cond.h:176-188 | A call that has to switch while references are held ends asleep on g_refs with G1 closed, the wake flag set and the lock held |
| CondCalls.UninterruptedFast | codes/pseudo_cond_var/nptl/pthread_cond.h:216-220 | With nobody counted a call changes nothing; while the lock is held it waits for it |
| CondCalls.QuiescerEnds | codes/pseudo_cond_var/nptl/pthread_cond.h:180-212 | From every place of the quiescing loop, also just woken, with no references left the call ends within ten steps with the groups switched and its signals posted |
| CondCalls.DrainEnds | codes/pseudo_cond_var/nptl/pthread_cond.h:181-188 | With no references left the quiescer is past the drain in one or two steps |
| CondCalls.DrainBlocks | codes/pseudo_cond_var/nptl/pthread_cond.h:181-187 | With references left the quiescer sleeps within four steps, with the wake flag set |
| CondCalls.SwitchEnds | codes/pseudo_cond_var/nptl/pthread_cond.h:190-212 | From every place of the switch the call ends within eight steps in the state SwitchEnd gives |
| CondCalls.UninterruptedDestroy | codes/pseudo_cond_var/nptl/pthread_cond.h:57-69 | An undisturbed destroy sets the flag and returns if nobody is counted, and sleeps if somebody is |
| CondCalls.DestroyerEnds | codes/pseudo_cond_var/nptl/pthread_cond.h:63-66 | A destroyer in its loop, also just woken, returns within two steps if nobody is counted and sleeps within three if somebody is |
| CondWaits.WaitEnds | codes/pseudo_cond_var/nptl/pthread_cond.h:82-155 | From every place of a wait, with any stale value it has read, the undisturbed waiter ends within 24 steps as WaitEnd says |
| CondWaits.UninterruptedWait | codes/pseudo_cond_var/nptl/pthread_cond.h:84-155 | A whole undisturbed call of wait takes the next number in the slot of G2 and ends as WaitEnd says |
| CondWaits.SignalIsTaken | codes/pseudo_cond_var/nptl/pthread_cond.h:97-123 | A member of an open slot that holds a signal, at whatever place of its loop or just woken, takes exactly one, drops its reference and returns |
| CondWaits.ClosedIsLeft | codes/pseudo_cond_var/nptl/pthread_cond.h:99-114 | From every place of its loop or just woken a waiter of a closed slot returns without a signal and without its reference |
| CondWaits.NothingToTake | codes/pseudo_cond_var/nptl/pthread_cond.h:104-118 | Without a signal in its open slot a waiter of a group closed for good returns and any other blocks with one reference |
| CondWaits.ThiefEnds | codes/pseudo_cond_var/nptl/pthread_cond.h:125-144 | A thief gives back what it takes from G1; one that finds g1_start changed since it read it, or the slot closed, puts nothing back |
| CondWaits.WakesOnlyIfNeeded | codes/pseudo_cond_var/nptl/pthread_cond.h:73-79 | The quiescer is woken just by dropping the last reference with the flag set; a thief wakes a sleeper just after putting a signal back or with the closed flag seen |
| CondRepair.SlotIsReused | codes/pseudo_cond_var/nptl/pthread_cond.h:195-200 | A run in which the slot of a waiter that has not looked at it yet becomes G1 again |
| CondRepair.SignalIsStolen | codes/pseudo_cond_var/nptl/pthread_cond.h:125-131 | Its continuation, in which that waiter takes a signal of the newer group and is about to give it back |
| CondRepair.RepairHitsG2 | codes/pseudo_cond_var/nptl/pthread_cond.h:133-138 | Its end: two reachable states, joined by the exchange of line 137, before which the slot of G2 holds no signal and after which it holds one, with nobody in G2 signaled |
| CondService.UnservedAreCounted | codes/pseudo_cond_var/nptl/pthread_cond.h:97-144 | Outside a switch, the live members of G1 without a signal are g_size + g_signals/2 + signals owed - signals in excess - signals taken before the group was G1; those of G2 are all that registered but for such takers |
| CondService.PostReachesExactly | codes/pseudo_cond_var/nptl/pthread_cond.h:226-267 | A post of a signal or broadcast finds a live member to be served iff excess and early taking are less than g_size + g_signals/2 + owed; a signal is then there and the poster owes the wake-up |
| CondService.PunctualPostsReach | codes/pseudo_cond_var/nptl/pthread_cond.h:226-267 | In runs in which every repair finds g1_start unchanged since the signal was taken, every post finds a live member to be served |
| CondService.PunctualSignalsServe | codes/pseudo_cond_var/nptl/pthread_cond.h:122-144 | In such runs each signal posted has served one waiter, or lies in G1, or is owed to it |
| CondService.PunctualIsClean | codes/pseudo_cond_var/nptl/pthread_cond.h:125-144 | In such runs no group gets a signal not posted to it and nobody takes one from G2 |
| CondLost.SignalReachesNobody | codes/pseudo_cond_var/nptl/pthread_cond.h:226-238 | A reachable state with one waiter blocked and all other threads idle, from which a whole undisturbed call of signal posts and leaves the waiter asleep |
| CondRepair.RepairGoesBackExactly | codes/pseudo_cond_var/nptl/pthread_cond.h:127-143 | A signal put back repays the group it was taken from iff g1_start is what it was then; it lands in G2 iff g1_start has another index than the thief read |
| CondWords.StartDeltaExact | codes/pseudo_cond_var/nptl/pthread_cond.h:192-193 | The 32-bit increment is 2*orig_size+1 or -1 without borrow iff the index is 1 or orig_size is not 0 |
| CondWords.EmptyTestExact | codes/pseudo_cond_var/nptl/pthread_cond.h:168-174 | The 32-bit test for an empty G2 is zero iff seq - g1_start - orig_size + g_size is, within the bounds |
| CondWords.CondVar.constructor | codes/pseudo_cond_var/nptl/pthread_cond.h:43-55 | The words of a fresh condition variable stand for the initial memory |
| CondWords.CondVar.FetchAddWseq | codes/pseudo_cond_var/nptl/pthread_cond.h:84-87 | Takes the next sequence number, returns the old one with the G2 index |
| CondWords.CondVar.FetchXorWseq | codes/pseudo_cond_var/nptl/pthread_cond.h:198-199 | Flips the G2 index and returns the sequence number untouched |
| CondWords.CondVar.FetchAddWrefs | codes/pseudo_cond_var/nptl/pthread_cond.h:91 | One more waiter, the flag unchanged |
| CondWords.CondVar.FetchSubWrefs | codes/pseudo_cond_var/nptl/pthread_cond.h:147-155 | One waiter less; tells to wake the destroyer iff the flag is set and this was the last |
| CondWords.CondVar.FetchOrDestroying | codes/pseudo_cond_var/nptl/pthread_cond.h:58-60 | Sets the flag and returns the word it leaves |
| CondWords.CondVar.TakeRef | codes/pseudo_cond_var/nptl/pthread_cond.h:109 | One more reference, the wake flag unchanged |
| CondWords.CondVar.DropRef | codes/pseudo_cond_var/nptl/pthread_cond.h:73-75 | Adding -2 modulo 2^32 drops one reference; the comparison with 3 holds iff it was the last with the flag set |
| CondWords.CondVar.ClearWake | codes/pseudo_cond_var/nptl/pthread_cond.h:76 | Clears the wake flag, the count unchanged |
| CondWords.CondVar.RequestWake | codes/pseudo_cond_var/nptl/pthread_cond.h:183 | Sets the wake flag and returns count and flag |
| CondWords.CondVar.CasSignals | codes/pseudo_cond_var/nptl/pthread_cond.h:122-138 | The exchange succeeds iff not spurious, the slot is open and the count as seen; then it takes or puts back one signal |
| CondWords.CondVar.PostOne | codes/pseudo_cond_var/nptl/pthread_cond.h:229-232 | One signal more, the size of the group one less, nothing else |
| CondWords.CondVar.PostAll | codes/pseudo_cond_var/nptl/pthread_cond.h:255-266 | As many signals more as the group had members left, its size 0 |
| CondWords.CondVar.CloseGroup | codes/pseudo_cond_var/nptl/pthread_cond.h:176-178 | Sets the closed flag, the signals unchanged |
| CondWords.CondVar.ReopenSlot | codes/pseudo_cond_var/nptl/pthread_cond.h:195-196 | The slot is open and without signals |
| CondWords.CondVar.FetchAddStart | codes/pseudo_cond_var/nptl/pthread_cond.h:190-193 | g1_start>>1 grows by exactly the old original size and its index toggles |
| CondWords.CondVar.AddGroupSize | codes/pseudo_cond_var/nptl/pthread_cond.h:202-203 | The size of the new G1 grows by the waiters between the groups |
| CondWords.CondVar.CasOrigSize | codes/pseudo_cond_var/nptl/pthread_cond.h:205-210 | Installs the new original size if the word is as expected, and never changes the lock bits |
| CondWords.CondVar.LoadSignals | codes/pseudo_cond_var/nptl/pthread_cond.h:97-105 | The tests of the loaded word are those of closed flag and count; it is 0 iff open and empty |
| CondWords.CondVar.IsPastStart | codes/pseudo_cond_var/nptl/pthread_cond.h:111 | The comparison tells whether the waiter's group is closed for good |
| CondWords.CondVar.MayHaveStolen | codes/pseudo_cond_var/nptl/pthread_cond.h:125-131 | Repair is due iff the waiter's number is below g1_start and its slot plays G1 |
| CondWords.CondVar.FutexCompareRefs | codes/pseudo_cond_var/nptl/pthread_cond.h:185 | The quiescer sleeps iff the count is as seen and the flag still set |
| CondWords.CondVar.FutexCompareWrefs | codes/pseudo_cond_var/nptl/pthread_cond.h:64 | The destroyer sleeps iff the count is as seen and the flag set |
| ThreeStateLock.MutualExclusion | codes/pseudo_cond_var/nptl/three_states_lock_t.h:18-58 | At most one holder, with the code as it is and with the retry |
| ThreeStateLock.WordTellsHolder | codes/pseudo_cond_var/nptl/three_states_lock_t.h:8-16 | There is a holder iff the lock bits are not 0, and they are never 3 |
| ThreeStateLock.StepRefines | codes/pseudo_cond_var/nptl/pthread_cond.h:205-210 | Every step on the packed word is a step of a lock with an owner and a separate size that only the owner changes |
| ThreeStateLock.WakeRefines | codes/pseudo_cond_var/nptl/three_states_lock_t.h:55-57 | A wake-up changes nothing the abstract lock sees |
| ThreeStateLock.NoStrandedSleeper | codes/pseudo_cond_var/nptl/three_states_lock_t.h:29-58 | With the failed exchange retried, a sleeper implies state 2, an unlocker that owes a wake, or a thread awake in the slow path |
| ThreeStateLock.LiteralStepExactly | codes/pseudo_cond_var/nptl/three_states_lock_t.h:34-46 | The code differs from the retrying one exactly when the slow-path exchange fails on a word in state 1 |
| ThreeStateLock.LiteralRunsThatRetry | codes/pseudo_cond_var/nptl/three_states_lock_t.h:29-58 | Runs of the code that never take that step strand no sleeper |
| ThreeStateLock.UnlockStrandsExactly | codes/pseudo_cond_var/nptl/three_states_lock_t.h:53-58 | With nobody else to help, an unlock strands the sleepers iff it finds state 1 |
| ThreeStateLock.LiteralCodeStrands | codes/pseudo_cond_var/nptl/three_states_lock_t.h:34-46 | A run of the code as it is that ends with a sleeper on a free lock and nobody to wake it |
| ThreeStateLock.InvRun | codes/pseudo_cond_var/nptl/three_states_lock_t.h:18-58 | The lock's invariant holds in every state of every run |
| LockAlone.FreeLockIsTaken | codes/pseudo_cond_var/nptl/three_states_lock_t.h:18-51 | A thread that wants the lock and finds it free, at whatever place, with any stale value, or just woken, holds it within four steps, in state 1 by the fast path and 2 by the slow path, the upper bits unchanged |
| LockAlone.HeldLockBlocks | codes/pseudo_cond_var/nptl/three_states_lock_t.h:29-50 | One that finds it held sleeps within six steps with state 2 in the word, but for a value it has just compared and, in the code as it is, a failed exchange |
| LockAlone.UnlockEnds | codes/pseudo_cond_var/nptl/three_states_lock_t.h:53-58 | An unlock frees the lock, keeps the upper bits, and comes by the wake-up iff the state was 2 |
| LockAlone.ResizeEnds | codes/pseudo_cond_var/nptl/pthread_cond.h:205-210 | The holder's loop installs the new upper bits within two steps, from any stale value, and keeps the lock bits |
| LockAlone.HolderResizes | codes/pseudo_cond_var/nptl/pthread_cond.h:205-210 | A holder that replaces the upper bits has done so after two steps and still holds the lock |
| QueueWalk.WalkIsExact | codes/pseudo_cond_var/kernel/k_futex.h:225-249 | The walk takes exactly the first min(n, matches) matching nodes; the other matching and the non-matching ones stay in their order |
| QueueWalk.KeptInOrder | codes/pseudo_cond_var/kernel/k_futex.h:225-249 | What stays is a subsequence of the old chain |
| QueueWalk.WalkConserves | codes/pseudo_cond_var/kernel/k_futex.h:225-249 | Taken and kept nodes together are the old chain |
| QueueWalk.WalkOfAll | codes/pseudo_cond_var/kernel/k_futex.h:225-249 | With a limit no queue exceeds every matching node is taken and no other |
| QueueWalk.TakenOrKept | codes/pseudo_cond_var/kernel/k_futex.h:225-249 | No node is both taken and kept |
| FutexBucket.HashFutex | codes/pseudo_cond_var/kernel/k_futex.h:146-151 | The bucket index is below 16 |
| FutexBucket.BucketsCollideExactly | codes/pseudo_cond_var/kernel/k_futex.h:141-151 | Two words share a bucket iff their addresses agree modulo 64 |
| FutexBucket.Node.WakeUpProcess | codes/pseudo_cond_var/kernel/k_futex.h:104-110 | Leaves a wake-up pending and ends the task's wait on wake_cv |
| FutexBucket.Node.Schedule | codes/pseudo_cond_var/kernel/k_futex.h:95-102 | A round of the loop returns iff a wake-up was pending, which it uses up, with the task running; else it waits on wake_cv |
| FutexBucket.Bucket.CompareAndEnqueue | codes/pseudo_cond_var/kernel/k_futex.h:176-201 | Queues the node at the front iff the values agree, keeps the chain linked and the count its length, and otherwise changes nothing |
| FutexBucket.Bucket.Dequeue | codes/pseudo_cond_var/kernel/k_futex.h:238-246 | Takes the node out at its place, unqueued with a wake-up pending; all other nodes keep place, state and flags |
| FutexBucket.Bucket.Walk | codes/pseudo_cond_var/kernel/k_futex.h:225-252 | The walk through pp leaves the chain as QueueWalk says, returns the number taken, wakes exactly those, and keeps the count the chain's length |
| FutexKernel.InvRun | codes/pseudo_cond_var/kernel/k_futex.h:164-253 | The bucket's invariant holds in every state of every run, with late and with early counting |
| FutexTheorems.WaitersIsChainLength | codes/pseudo_cond_var/kernel/k_futex.h:133-138 | Whenever the bucket lock is free, waiters is the length of the chain |
| FutexTheorems.BucketLockExcludes | codes/pseudo_cond_var/kernel/k_futex.h:75-85 | The bucket lock has at most one holder |
| FutexTheorems.StackNodeOwnership | codes/pseudo_cond_var/kernel/k_futex.h:164-209 | A node is in the chain, or in the waker's hands, only while its owner is inside kernel_futex_wait and not woken; never after its wake-up is pending |
| FutexTheorems.WalkerStaysInChain | codes/pseudo_cond_var/kernel/k_futex.h:226-249 | The walk never stands behind a node that has left the chain, and the owner of the node it takes out cannot return before the walk has woken it |
| FutexTheorems.WakePendingIsKept | codes/pseudo_cond_var/kernel/k_futex.h:95-110 | Only a walk on its address wakes a waiter, only schedule uses the wake-up up, and schedule returns only with one |
| FutexTheorems.LockedStepsRefine | codes/pseudo_cond_var/kernel/k_futex.h:153-209 | Every step but a fast-path return is a step of a futex whose compare-and-enqueue and wake are atomic; a wake counts from its lock |
| FutexAlone.CallHasOneEffect | codes/pseudo_cond_var/kernel/k_futex.h:164-253 | In any run, with late or early counting, exactly one step of a call between its start and its return has an effect on the atomic futex, and it is the call's own: the compare-and-enqueue of the wait, or the wake-up of the address for the number asked for |
| FutexAlone.EffectIsAtomic | codes/pseudo_cond_var/kernel/k_futex.h:164-253 | With early counting that step is the atomic futex's step |
| FutexAlone.UninterruptedWake | codes/pseudo_cond_var/kernel/k_futex.h:214-253 | A whole undisturbed wake with somebody counted and the bucket lock free takes out the first n nodes on the address, wakes exactly their owners and leaves the lock free |
| FutexAlone.UninterruptedStore | codes/pseudo_cond_var/kernel/k_futex.h:214-253 | A store with its wake of all changes the word and wakes everybody on it |
| FutexAlone.UninterruptedFast | codes/pseudo_cond_var/kernel/k_futex.h:218-222 | With nobody counted a wake does nothing |
| FutexAlone.WalkEnds | codes/pseudo_cond_var/kernel/k_futex.h:226-252 | From every place of the walk the wake ends with what it still has to take taken and woken and the lock free |
| FutexAlone.UninterruptedWait | codes/pseudo_cond_var/kernel/k_futex.h:164-202 | A whole undisturbed wait changes nothing and returns if the value differs; else it sleeps with its node in front and one more counted; the lock is free |
| FutexAlone.WaitEnds | codes/pseudo_cond_var/kernel/k_futex.h:176-202 | From every place of the wait it ends so within seven steps, and a sleeper with its wake-up pending returns |
| FutexTheorems.EarlyCountingRefines | codes/pseudo_cond_var/kernel/k_futex.h:218-222 | With the count raised early, as the comment has it, every step of every run refines that futex |
| FutexTheorems.LiteralFastPathExactly | codes/pseudo_cond_var/kernel/k_futex.h:218-222 | The code's fast-path return refines a wake iff no waiter on the address is between its comparison and its count |
| FutexTheorems.NoLostWakeup | codes/pseudo_cond_var/kernel/k_futex.h:153-163 | With early counting, a waiter whose word has changed will be woken by a wake of all on its way or by the walk in progress |
| FutexTheorems.WakeupIsKeptExactly | codes/pseudo_cond_var/kernel/k_futex.h:218-222 | In runs of the code as it is, a step keeps every waiter on an old value covered by a wake of all iff it is no fast-path return that overlooks one |
| FutexTheorems.LiteralRunsThatSee | codes/pseudo_cond_var/kernel/k_futex.h:153-163 | In runs of the code as it is without such a return, a waiter whose word has changed will be woken by a wake of all on its way or by the walk in progress |
| FutexTheorems.LiteralCodeLosesWakeup | codes/pseudo_cond_var/kernel/k_futex.h:183-198 | A run of the code as it is that ends with a waiter asleep on an old value and all others idle |
| CoroTheorems.CompleteRun | codes/coroutine/symmetric_resume.cpp:36-71 | A run that cannot go on has ended: both threads gone, nothing queued, no frame left, and each single task created, run, continued and destroyed exactly once, in order |
| CoroTheorems.FramesAreAlive | codes/coroutine/symmetric_resume.cpp:163-201 | No thread uses a single task's frame before it is made or after it is destroyed, and the frame exists while the worker is inside its resume() |
| CoroTheorems.ResumedOnlyWhenSuspended | codes/coroutine/symmetric_resume.cpp:47-63 | The worker resumes the task only when it is suspended and main has published it; the task never runs on two threads; it is destroyed only after the worker has gone |
| CoroTheorems.AlwaysSuspendsOnWorker | codes/coroutine/symmetric_resume.cpp:184-201 | Once the task has moved to the worker it always takes the suspend branch |
| CoroTheorems.StopDiscardsNothing | codes/coroutine/symmetric_resume.cpp:247-254 | The queue never holds more than one job, and none once the task has finished |
| CoroTheorems.RunsAreBounded | codes/coroutine/symmetric_resume.cpp:230-265 | However the threads interleave they take at most 20 steps for each iteration and 13 more |
| CoroTheorems.NoDeadlock | codes/coroutine/symmetric_resume.cpp:56-63 | Until main has returned one of the threads can move |
| CoroTheorems.MainStaysEnabled | codes/coroutine/symmetric_resume.cpp:245-261 | What main waits for stays true whatever the worker does |
| CoroTheorems.WorkerStaysEnabled | codes/coroutine/symmetric_resume.cpp:56-63 | What the worker waits for stays true whatever main does |
| CoroTheorems.InvRun | codes/coroutine/symmetric_resume.cpp:36-265 | The handoff's invariant holds in every state of every run |
| CoroHandoff.InvNext | codes/coroutine/symmetric_resume.cpp:36-265 | Every step of either thread keeps control, flags, queue and trace in agreement |
| CoroEvents.EachOnce | codes/coroutine/coro.hpp:105-127 | The expected trace has, for each iteration, creation, body, continuation and destruction once, in order, and then the end |
| CoroVariants.Execute | codes/coroutine/symmetric_trans.cpp:5-12 | Plain resume, done_-checked and symmetric transfer produce the same events for every count, nest resume() 2*count+1, at most 2 and 1 deep, and the final awaiter never finds done_ set |
| CoroVariants.ShapeNext | codes/coroutine/symmetric_resume.cpp:203-213 | Each step keeps the stack of unreturned resume() calls in the shape of its variant, and gets nearer to the end |
| CoroVariants.NestedLength | codes/coroutine/coro.hpp:42-53 | With plain resume two calls stay on the stack for each iteration |
| CoroWorker.Worker.constructor | codes/coroutine/worker.hpp:11-14 | At least one thread, no jobs and no stop request |
| CoroWorker.Worker.Submit | codes/coroutine/worker.hpp:29-35 | Jobs are queued at the end and one waiting thread is notified; this is the submission of both jobs in the handoff's machine |
| CoroWorker.Worker.Stop | codes/coroutine/worker.hpp:37-43 | Requests the stop, notifies all waiting threads and leaves the queue alone; this is the main thread's step in the handoff's machine |
| CoroWorker.Worker.Take | codes/coroutine/worker.hpp:56-65 | A round ends the thread, waits, or takes the oldest job, and is the worker's step in the handoff's machine |
| CoroWorker.Worker.RunLoop | codes/coroutine/worker.hpp:55-68 | Rounds of Take: jobs run in the order of their submission until none is left and the thread waits; after a stop none runs |

## Left out

- Memory orders and fences: memory is sequentially consistent in all models.
- The user's mutex: stage 3 and the last line of `pthread_cond_wait`, `pthread_mutex.h`, and the wrappers in `std/` are not part of this model.
- The condition variable over the inner lock and the futex: `CondProtocol` uses both by their intended contracts (a lock with one holder, an atomic compare-and-sleep); `ThreeStateLock` and `FutexKernel` say how far the code meets these. A thread that waits for the lock tries again in `CondProtocol`; it does not sleep there.
- FUTEX_WAKE of INT_MAX in `CondProtocol`: one wake for each sleeper until nobody is left, with other threads' steps in between, which allows all runs of an atomic wake and more.
- Bounds of the packed words: the methods of `CondWords` have them as preconditions (fewer than 2^29 waiters, original size below 2^30, wseq>>1 below 2^63, g_signals without overflow); `CountersFit` has the bounds that hold in every run.
- CondWords.CondVar.AddGroupSize: within the bounds in which the 32-bit addition does not wrap.
- Using the condition variable or its memory after `pthread_cond_destroy` has returned.
- FutexKernel: the words of one bucket, whatever their number; buckets share nothing. A store is always followed by a wake of all, other wakes may come at any time; the limits of a wake and the values are arbitrary.
- FutexBucket.Node.Schedule: one round of its loop, executed under wake_lock; `k_mutex` and `k_cond` are used by their contract, and `k_sched.h`, `syscall.h` and `atomic.h` are not part of this model.
- More than one worker thread in the handoff: the code's argument rests on a single one.
- CoroWorker.Worker.RunLoop: ends where the thread has to wait on cv_, because nobody submits or stops meanwhile; `CoroHandoff` has the interleaving.
- The number of rounds of polling and yielding, logging, and the address printed by short_addr: waiting loops are steps that are enabled when their condition holds.
- A negative count given to make_task, which behaves like 0.
- `generator.cpp`: a fixed demonstration with four values.
