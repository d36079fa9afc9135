# Verification of a user-level thread library and its clients

A Dafny model of the M:N thread library in `pthreads/`, of the sorting program that runs on it, and of the
thread pool, the message reassembler, the response loop and the byte pipe in `server/`, with proofs of what
they keep over every run. `dafny verify dfyconfig.toml` checks all of it.

## What is modelled

**The thread library** (`pthreads/mypthread.c` over `pthreads/queue_util.c`). `Machine` is a transition system.
One event is one wait for an internal semaphore, or one protected section with the posts that end it, or a call
by user code, so that any number of kernel threads interleave wherever the C code lets them. The state holds the
threads, the run queue with a flag for its tail pointer, the mutexes and condition variables with their wait
lists, the four semaphores, and what each kernel thread is doing. Three fields are history: the holders of a
mutex, the threads whose queue node was linked behind a freed node, and whether `mutex_sem` was leaked.
`ThreadList` is the pointer layer below: classes of nodes with `next` and `prev`, proved against sequences.
`Library` joins the two: the globals on the heap, with thread objects shared by the run queue and the lists of all
mutexes and condition variables, and the operations as methods on them; abstracted to the data of the machine, each
method does what the machine says of its section, and it keeps the lists apart. The theorems follow in `Semaphores`
(exclusion, no wait cycle), `Placement` and `Whereabouts` (where every thread is), `Mutexes`, `CondVars`, `Reacquire`,
`Joining` (who waits in a join, and who wakes it), `JoinReturns` (when a join returns), `StaleIds`, `Bypass`,
`KernelThreads` (how many there are) and `Progress`. `SoloRuns` says what each call does on a kernel thread that is
alone, and `Mishaps` puts such calls together.

**The sort** (`pthreads/mtsort.c`). `NeighbourSort` interleaves n - 1 sorters and the checker statement by
statement, including the three writes of a swap. `Orders` counts inversions, `SortFinishes` shows that every run
can be finished, `SortArrays` holds the same reads and writes as methods on the array.

**The reassembler** (`server/SocketLibrary/smessages.c`). `Framing` is a reference parser of the byte stream,
`Reassembly` the list shared by all sockets as a value, `Cleaning` what `clean_list` does, `Delivery` whole runs of
`get_next_message` on any number of sockets that may be closed, and `MessageList` the operations with their loops and
cursors on the list in place.

**The thread pool** (`server/threadpool.c`). `TaskQueue` is the linked queue; `ThreadPool` is the monitor as a
transition system of workers and callers of dispatch; `PoolTheorems` and `PoolSignals` hold its theorems.

**The loops** (`server/server.c`, `server/common.c`). `SwapLoop` and `BytePipe`.

`Prelude` has the small shared definitions.

## Where the code departs from what it promises

The library is modelled as written, with one exception. Two flags of `Machine.Config` stand for repairs, and
`Config(p, false, false)` is the text of the repository under policy p, so that each theorem says which of the two
it needs.

- The exception: a contended `mypthread_mutex_lock` overwrites the context of its caller with a fresh call of itself
  (`pthreads/mypthread.c:350-352`), so that the thread takes the mutex later but does not find back to its caller. In
  the model it does, as the comment there and POSIX intend; `Reacquire` is about that way back.

- `mypthread_dequeue_first_active` does not move the tail off a last node that it removes
  (`pthreads/queue_util.c:51-60`), and the next enqueue links its node behind the freed one. Placement counts
  those threads apart (`lost`). `Whereabouts.ShippedLosesExactly` says which runs lose a thread: those with an enqueue
  on a list whose last of two or more entries was taken out and that was never empty since;
  `Mishaps.SecondYieldLosesTheThread` is one. With the flag `movesTail` there are none (`Whereabouts.NoneLost`).
- `mypthread_mutex_trylock` does not post `mutex_sem` when it returns EBUSY (`pthreads/mypthread.c:373-378`).
  `Progress.LeakedExactly` says exactly which runs leak it, `Progress.LeakBlocksForEver` what follows, and
  `Mishaps.TrylockWedgesTheProcess` is such a run. `NeighbourSort` has mutexes as POSIX describes them: with
  this defect the sort stops at the first trylock that finds its mutex taken.
- `mypthread_join` returns too early: the dispatcher takes a thread out of the run queue under `mypthread_sem` and
  names it on its kernel thread only behind `kthread_sem` (`pthreads/mypthread.c:128-136`). A join whose lookup and
  test fall in between finds its target neither queued nor running (`pthreads/mypthread.c:258-279`) and returns while
  the target lives, although POSIX suspends the caller until it has terminated. `Mishaps.JoinReturnsTooEarly` is
  such a run with two kernel threads. `JoinReturns.ReturnsTooEarlyExactly` and `JoinReturns.JoinExactly` give the
  exact condition, under any policy; a join that waits comes back only after the exit of its target
  (`JoinReturns.ComesBackAfterExit`), and under ULONLY, with the tail repaired, every join does what POSIX says
  (`JoinReturns.JoinSuspends`).
- `mypthread_join` may also wait too long: it gives `mypthread_sem` back between its test and its enqueue
  (`pthreads/mypthread.c:258-272`), and a kernel thread still names the thread it has just left.
  `Joining.StrandedExactly` and `Joining.StrandedRunExactly` give the two ways in which a thread comes to wait for a
  dead one. `Mishaps.JoinWaitsForTheDead` and `Mishaps.ExitMissesTheJoiner` are runs with two kernel threads, one for
  each; under ULONLY, with the tail repaired, it cannot happen (`Joining.JoinersWaitForTheLiving`).
- A kernel thread that has passed its test of the thread count does not come back to it while it finds no ACTIVE
  thread (`pthreads/mypthread.c:119-146`). `Progress.BehindTheLastExit` says what that means behind the last exit: one
  that is already searching goes on for ever.
- `mypthread_create` does not set `dependent_th` (`pthreads/mypthread.c:187-198`). The theorems on runs ask that it
  finds a harmless value there (`Placement.CleanRun`): 0, the id of the new thread, or the id of a dead thread, which
  stays harmless once it is (`Joining.DeadStayDead`). `StaleIds.CreateIsSafeExactly` shows that nothing less will do:
  with any other value a run follows in which a waiting thread is woken while it stays on its list.
- `mypthread_mutex_unlock` does not ask who holds the mutex. POSIX leaves this to the caller;
  `Mutexes.ExclusionExactly` says for which runs the caller has done its part, and
  `Mutexes.ForeignUnlockAdmitsTwo` what happens otherwise.
- A read that begins with the NUL of a pending message does not complete it
  (`server/SocketLibrary/smessages.c:79-85`). `Framing.HeardAsMeantExactly` makes that the exact condition.
- `clean_list` does not look at the node behind one that it unlinks (`server/SocketLibrary/smessages.c:253-266`).
  `Cleaning.CleansExactly` says when it removes everything, `Cleaning.OneIsLeft` shows a list on which it does not,
  and `Delivery.ReuseDeliversExactly` what that means for the next connection with the same socket number.
- The test for a full queue in `dispatch` compares two addresses (`server/threadpool.c:148`) and is never true, so
  the queue is unbounded here; `dispatch` never blocks for a free worker, although `server/threadpool.h` says so.

The specification of the calls is IEEE Std 1003.1-2017, System Interfaces, the DESCRIPTION sections of
`pthread_mutex_lock`, `pthread_cond_wait`, `pthread_cond_signal` and `pthread_join`.

## Model

| member | source | states |
|---|---|---|
| Semaphores.SectionBalanced | pthreads/mypthread.c:195-446 | every protected section posts exactly the semaphores it stops holding, and only a trylock that finds its mutex taken leaves one unposted |
| Semaphores.SemsHold | pthreads/mypthread.c:119-147 | in every run each semaphore that is 0 is held by the one kernel thread that took it, or is the leaked mutex_sem |
| Semaphores.OneHolder | pthreads/mypthread.c:33-49 | at most one kernel thread is behind each of the four semaphores |
| Semaphores.LockOrder | pthreads/mypthread.c:258-446 | whoever waits for a semaphore holds only semaphores of lower rank: cond_sem, mutex_sem, mypthread_sem, kthread_sem |
| Semaphores.NoWaitCycle | pthreads/mypthread.c:258-446 | no chain of waits among any number of kernel threads returns to its start, and none is longer than four |
| Semaphores.WritesAreGuarded | pthreads/mypthread.c:119-446 | an event changes the run queue, the counter or the ids only behind mypthread_sem, a mutex only behind mutex_sem, the list of a condition variable only behind cond_sem, the kernel threads and the thread each names only behind kthread_sem, and a thread other than its own only behind mypthread_sem or mutex_sem |
| Placement.InvStep | pthreads/mypthread.c:119-446 | every event, shipped or repaired, keeps the placement invariant, if a create section finds a harmless dependent_th |
| Placement.InvRun | pthreads/mypthread.c:119-446 | the placement invariant holds at the end of every run |
| Placement.InitInv | pthreads/mypthread.c:165-186 | the state that the first mypthread_create sets up satisfies the invariant |
| Placement.SectionSound | pthreads/mypthread.c:339-446 | mutex_sem and cond_sem keep a thread that is being put away apart from whoever empties the list it is on |
| Placement.ExitWakesWaiting | pthreads/queue_util.c:83-91 | a thread whose dependent_th names the exiting thread is WAITING, so the exit wakes no BLOCKED one |
| Whereabouts.EveryThreadHasOnePlace | pthreads/mypthread.c:225-449 | in every run each live thread is in one hand or once in the run queue (or lost behind a freed node) and never two of these, no dead thread is anywhere, and a thread is BLOCKED iff it is on exactly one wait list, once |
| Whereabouts.LostExactly | pthreads/queue_util.c:166-177 | a run loses a thread iff it enqueues one on a nonempty list that has lost its tail |
| Whereabouts.TailLostExactly | pthreads/queue_util.c:39-65 | the shipped run queue has lost its tail iff a dispatch took the last of two or more entries out and it was never empty since |
| Whereabouts.ShippedLosesExactly | pthreads/queue_util.c:39-65 | the runs of the shipped library that lose a thread: exactly those with an enqueue after such a dispatch |
| Whereabouts.NoneLost | pthreads/queue_util.c:51-60 | with the tail moved off a removed last node no run loses a thread |
| Mutexes.ExclusionExactly | pthreads/mypthread.c:339-388 | in every state of a run each mutex has at most one holder, and lock is true iff it has one: exactly for the runs in which every unlock is by a holder or of a free mutex |
| Mutexes.ExclusiveSection | pthreads/mypthread.c:339-449 | of all sections only an unlock of a mutex that somebody else holds breaks exclusion, and it always does |
| Mutexes.MutualExclusion | pthreads/mypthread.c:339-388 | the same at the end of a run |
| Mutexes.UnlockKeepsExclusionExactly | pthreads/mypthread.c:383-389 | an unlock keeps that exactly when the caller holds the mutex or the mutex is free |
| Mutexes.ForeignUnlockAdmitsTwo | pthreads/mypthread.c:339-389 | a thread that unlocks a mutex held by another and locks it again on an undisturbed kernel thread then holds it together with the other |
| Mutexes.NoWaiterOnAFreeMutex | pthreads/mypthread.c:339-388 | over every run, whoever unlocks, an unlocked mutex has an empty blocked list |
| Mutexes.UnlockWakesEveryWaiter | pthreads/queue_util.c:181-195 | the event of an unlock, also of the one in cond_wait, frees the mutex, empties its list, and makes each thread of the list ACTIVE to retry the lock |
| Mutexes.MutexChanges | pthreads/mypthread.c:339-389 | all that any event does to a mutex: a lock or trylock that finds it free adds its caller as a holder, a lock that does not puts its caller last on the list, an unlock frees it and empties the list |
| Mutexes.TrylockExactly | pthreads/mypthread.c:365-379 | a trylock on a free mutex makes its caller the one holder and the mutex locked, one on a taken mutex changes nothing; either way it is back in user code and all other data is as before |
| Mutexes.HeldUntilGivenBack | pthreads/mypthread.c:339-389 | over every disciplined run a thread that holds a mutex, by lock or trylock, is its one holder until its own unlock, and nobody else takes it meanwhile |
| Mutexes.EveryWaiterHasAHolder | pthreads/mypthread.c:344-388 | in every disciplined run a thread blocked on a mutex has one current holder, and the unlock of that holder wakes it |
| CondVars.ListOfCond | pthreads/mypthread.c:411-446 | only cond_wait adds to the list of a condition variable, at its end, and only signal and broadcast on it take from it |
| CondVars.ReleaseAndWaitIsAtomic | pthreads/mypthread.c:411-446 | the first signal or broadcast to take effect after a cond_wait has released its mutex finds the waiter on the list, however the kernel threads interleave |
| CondVars.WakesExactly | pthreads/mypthread.c:411-430 | in every reachable state the event of a broadcast makes every thread on the list ACTIVE and empties it, that of a signal does so to the first and leaves the others BLOCKED in their order, and nothing else changes |
| CondVars.NoLostWakeUp | pthreads/mypthread.c:411-446 | the first signal or broadcast to take effect after a cond_wait has released its mutex wakes the waiter, or, as a signal, whoever stood before it, with the waiter still in line, in any interleaving |
| CondVars.WakesBeforeReturning | pthreads/mypthread.c:411-430 | between the call of a broadcast and its return everyone who was on the list at the call is woken, and between the call of a signal and its return the one who was first, whatever other kernel threads do |
| CondVars.WaitersStayInLine | pthreads/mypthread.c:411-446 | signals are not stored: in every run without a wake on the condition variable its waiters stay on the list in their order, and new ones line up behind them, whatever was signalled before |
| Reacquire.BackWithTheMutex | pthreads/mypthread.c:339-360 | in every run a thread inside mutex_lock, blocked on the mutex, or anywhere in cond_wait from its call on is next seen in user code as a holder of that mutex, given the way back to its caller that the comment promises |
| Reacquire.BoundSection | pthreads/mypthread.c:339-360 | each section on that way gives the thread the mutex or leaves it on the way |
| Joining.WokenExactlyAtExit | pthreads/mypthread.c:225-238 | a thread that waits in a join becomes ACTIVE at the exit of the thread it joined, if it is in the run queue by then, and stays WAITING at every other event |
| Joining.ExitLeavesBlockedAlone | pthreads/queue_util.c:83-91 | an exit leaves every BLOCKED thread alone, also one with a dependent_th left from an earlier join |
| Joining.DeadStayDead | pthreads/mypthread.c:229-231 | in every run a dead thread stays dead, so a dependent_th that names it is harmless at any later create |
| StaleIds.CreateIsSafeExactly | pthreads/mypthread.c:187-198 | from any plain state, every run after a create keeps each BLOCKED thread, and no other, on one wait list iff the dependent_th found by create is 0, the new thread, or a dead thread |
| StaleIds.JunkWakes | pthreads/queue_util.c:83-91 | for every other value there is a run in which the new thread is ACTIVE and still on the list of a condition variable |
| StaleIds.StaleIdWakesAWaiter | pthreads/queue_util.c:83-91 | such a run from the start: main creates thread 2 in storage that names thread 3 |
| Joining.StrandedExactly | pthreads/mypthread.c:256-297 | an event makes a thread wait for a dead one iff it is a join test passed by a stale kernel thread entry, or an exit between the test and the enqueue of a join |
| Joining.StrandedForEver | pthreads/mypthread.c:225-297 | such a thread goes on waiting, whatever happens |
| Joining.StrandedRunExactly | pthreads/mypthread.c:225-297 | a thread waits for a dead one at the end of a run iff it did at its start or one of its events was of those two kinds |
| Joining.JoinersWaitForTheLiving | pthreads/mypthread.c:256-297 | under ULONLY with the tail repaired, in every run whoever waits in a join names a thread that exists and is alive |
| JoinReturns.ReturnsTooEarlyExactly | pthreads/mypthread.c:258-297 | under any policy a join returns at its test while its target lives iff the target was not queued at the lookup, no kernel thread names it, and it is queued, lost, or on its way to a kernel thread |
| JoinReturns.SuspendsExactly | pthreads/mypthread.c:256-297 | under any policy, in every run from the test on, the caller is next in user code when its target is not alive, iff the target does not slip through in that way |
| JoinReturns.JoinExactly | pthreads/mypthread.c:256-297 | for each single run from the call of join on, under any policy: the caller is next in user code when its target is not alive, iff the run does not come to the test of this join while the target slips through |
| JoinReturns.ComesBackAfterExit | pthreads/mypthread.c:225-297 | in every run a thread that waits in a join is next in user code when the thread it joined is dead |
| JoinReturns.ReturnsAtOnceExactly | pthreads/mypthread.c:256-297 | under ULONLY with the tail repaired, in every run a join returns at its test iff its target is not alive |
| JoinReturns.JoinSuspends | pthreads/mypthread.c:256-297 | under ULONLY with the tail repaired, in every run from the call of join on, it comes back to its caller only when its target is not alive |
| Bypass.SectionOnQueue | pthreads/queue_util.c:33-65 | a section appends to the run queue or takes its first ACTIVE entry out, and keeps the order of the rest |
| Bypass.StaysActive | pthreads/queue_util.c:83-91 | an ACTIVE thread in the run queue stays ACTIVE whatever section any kernel thread runs |
| Bypass.BoundedBypass | pthreads/mypthread.c:128-146 | an ACTIVE thread at index k has been dispatched once k + 1 threads have been, and keeps moving up until then, in every run |
| Progress.SomeoneCanGo | pthreads/mypthread.c:119-147 | while nothing is leaked, from each kernel thread inside the library a chain of waits, possibly empty, leads to one that can go on |
| Progress.LeakedExactly | pthreads/mypthread.c:365-379 | mutex_sem is leaked by exactly the runs of the shipped code in which a trylock finds its mutex taken |
| Progress.LeakBlocksForEver | pthreads/mypthread.c:340-384 | after that a kernel thread in front of mutex_sem never moves again, in any run |
| Progress.NoInternalDeadlock | pthreads/mypthread.c:119-446 | the same in every state of every run, with trylock repaired or without a busy trylock |
| Progress.CountRun | pthreads/mypthread.c:195-233 | mypthread_count is the number of threads that are not dead, in every run |
| Progress.HaltsExactlyWhenAllDead | pthreads/mypthread.c:119-125 | in every state of every run, an event gives a kernel thread up iff it is the count test of that kernel thread and every thread is dead, and sends it on to look for an ACTIVE thread iff it is that test and some thread is not |
| Progress.LastExit | pthreads/mypthread.c:225-238 | the exit of the only live thread leaves every thread dead and its kernel thread in front of the count test |
| Progress.BehindTheLastExit | pthreads/mypthread.c:119-147 | in every run behind the last exit the data stays, a kernel thread at its count test halts there, and one that has passed it looks for an ACTIVE thread for ever |
| Progress.EveryCallIsOpen | pthreads/mypthread.c:187-446 | in every state of every run, a thread in user code can make exactly the calls of the library that name existing objects |
| KernelThreads.SpawnsExactly | pthreads/mypthread.c:200-219 | an event starts a kernel thread, without a thread and in front of the scheduler, iff it is the last part of a create under KLALWAYS, or under a KLMATCH policy whose limit is not reached |
| KernelThreads.KernelThreadsExactly | pthreads/mypthread.c:195-219 | in every run the kernel threads are numbered without gaps, and there is one more than creates that have ended: always one under ULONLY, without limit under KLALWAYS, up to the limit (or the first one alone) under a KLMATCH policy |
| Mishaps.TrylockWedgesTheProcess | pthreads/mypthread.c:365-388 | lock, trylock and unlock of one mutex on one kernel thread reach a state in which nothing can happen |
| Mishaps.SecondYieldLosesTheThread | pthreads/queue_util.c:39-65 | main creates and joins a thread that yields twice: the shipped library loses it, and main waits for it |
| Mishaps.JoinWaitsForTheDead | pthreads/mypthread.c:256-297 | with two kernel threads, and both repairs, main comes to wait for a thread that has exited |
| Mishaps.ExitMissesTheJoiner | pthreads/mypthread.c:225-272 | with two kernel threads, and both repairs, the target exits between the test and the enqueue of a join, finds nobody to wake, and main waits for it |
| Mishaps.JoinReturnsTooEarly | pthreads/mypthread.c:128-279 | with two kernel threads, and both repairs, main is back from its join while its target is ACTIVE, in the hand of a kernel thread that does not name it yet |
| Machine.FirstActiveIs | pthreads/queue_util.c:39-50 | the entry to dispatch is ACTIVE and no entry before it is |
| ThreadList.ThreadQueue.Add | pthreads/queue_util.c:166-177 | ll_add appends to the list when its tail is at its last node, and leaves a list that has lost its tail as it is |
| ThreadList.ThreadQueue.FreeOne | pthreads/queue_util.c:199-207 | ll_free_one drops the first node and makes its thread, and no other, ACTIVE, with stale prev and tail pointers allowed |
| ThreadList.ThreadQueue.Free | pthreads/queue_util.c:181-195 | ll_free makes every thread of the list ACTIVE and empties the list |
| ThreadList.ThreadQueue.Get | pthreads/queue_util.c:69-79 | mypthread_get finds a thread with the id in the list iff there is one |
| ThreadList.ThreadQueue.UpdateWaiting | pthreads/queue_util.c:83-91 | makes ACTIVE exactly the listed threads whose dependent_th is the id; the list stays |
| ThreadList.ThreadQueue.DequeueFirstActive | pthreads/queue_util.c:39-65 | takes the first ACTIVE thread out and keeps the order of the rest; without one nothing changes; the tail is lost exactly when a last node goes that is not the only one |
| ThreadList.FoundIsFirstActive | pthreads/queue_util.c:39-50 | the index that the pointer walk stops at is the one the machine dispatches |
| ThreadList.ChainedWithout | pthreads/queue_util.c:55-60 | the pointer writes around a node leave the others chained in order |
| Library.Globals.constructor | pthreads/mypthread.c:165-186 | heap objects that are initialised and apart give the initial data of the machine, and the invariant of the heap |
| Library.Globals.ListChanged | pthreads/queue_util.c:166-207 | a change of one list and its nodes keeps the heap invariant: lists apart down to their nodes, each well formed, of known threads, only the run queue ever without its tail |
| Library.Globals.OtherMutexes | pthreads/queue_util.c:166-207 | and it leaves the abstract lists of all other mutexes as they were |
| Library.Globals.IdsName | pthreads/queue_util.c:166-207 | the ids of a list name exactly the thread objects that it shares with the rest of the library |
| Library.Globals.FreeAll | pthreads/queue_util.c:181-195 | the pointer loop of ll_free empties one list and makes ACTIVE exactly the threads that its ids name, seen through the shared objects |
| Library.Globals.FreeFirst | pthreads/queue_util.c:199-207 | ll_free_one drops one id and makes ACTIVE exactly the thread it names |
| Library.Globals.EnqueueThread | pthreads/queue_util.c:33-35 | ll_add on the heap is the enqueue of the machine, with a lost thread when the tail is off the list |
| Library.Globals.CreateThread | pthreads/mypthread.c:187-198 | a new thread object and node on the heap are the create section of the machine |
| Library.Globals.BeginYield | pthreads/mypthread.c:244-245 | the assignment before the wait is the first step of yield |
| Library.Globals.ExitThread | pthreads/mypthread.c:229-232 | the walk over the run queue that writes through its thread pointers is the exit section |
| Library.Globals.FindThread | pthreads/queue_util.c:69-79 | the walk finds a thread iff the id is in the run queue of the machine |
| Library.Globals.RunningSomewhere | pthreads/queue_util.c:120-129 | true iff some kernel thread names the thread |
| Library.Globals.JoinThread | pthreads/mypthread.c:264-296 | the test of join, on the thread object found, is the join section, and says whether the caller waits |
| Library.Globals.LockMutex | pthreads/mypthread.c:340-352 | mutex_lock on the mutex object and its list is the lock section, and says whether the mutex was taken |
| Library.Globals.TryLockMutex | pthreads/mypthread.c:365-379 | trylock answers that it has taken the mutex object iff it was free; then the caller is added to its holders, else they stay, and it is locked in both cases; the data is that of the trylock section |
| Library.Globals.UnlockMutex | pthreads/mypthread.c:383-389 | unlock with the freeing loop over shared thread objects is the unlock section of the machine |
| Library.Globals.WakeWaiters | pthreads/mypthread.c:411-430 | signal and broadcast on the list object are the wake section of the machine: the first, or all, leave the list and are ACTIVE |
| Library.Globals.WaitOn | pthreads/mypthread.c:438-441 | cond_wait behind its unlock, on the thread object and the list, is its section of the machine |
| Library.Globals.DequeueFirstActive | pthreads/mypthread.c:128-131 | the search through shared objects and the unlinking of the node are the scheduler section, with the thread to dispatch |
| Orders.ExchangeRemovesOne | pthreads/mtsort.c:52-56 | exchanging two neighbours that are out of order lowers the inversion count by exactly one |
| Orders.SortedIffNone | pthreads/mtsort.c:88-96 | a list is sorted iff it has no inversions |
| Orders.DescendingInversions | pthreads/mtsort.c:145-147 | the list n, ..., 1 has n(n - 1)/2 inversions |
| NeighbourSort.LocksStep | pthreads/mtsort.c:44-100 | every statement keeps: a mutex is held by exactly the thread that is between its lock and its unlock |
| NeighbourSort.SwapsStep | pthreads/mtsort.c:52-56 | every statement of any thread keeps: a sorter in the middle of a swap finds its pair as it left it |
| NeighbourSort.LogicalStep | pthreads/mtsort.c:52-56 | the last write of a swap exchanges two neighbours that are out of order; no other statement changes the list up to pending swaps |
| NeighbourSort.PermutationThroughout | pthreads/mtsort.c:44-62 | in every state of every run the list is, up to pending swaps, a permutation of the input, and swaps done plus inversions left equal the inversions of the input |
| NeighbourSort.QuitsSorted | pthreads/mtsort.c:79-108 | every run that quits has sorted the list with exactly as many swaps as the input has inversions |
| NeighbourSort.MainSwaps | pthreads/mtsort.c:144-147 | on the list of main that is n(n - 1)/2 swaps |
| NeighbourSort.StaysSorted | pthreads/mtsort.c:96-108 | once quitting is set it stays set, and late sorters leave the list as it is |
| NeighbourSort.SortersDoNotWait | pthreads/mtsort.c:45-50 | whoever waits for a mutex of a sorter waits for one that can take its next step |
| NeighbourSort.NoWaitCycle | pthreads/mtsort.c:45-100 | a path of two waits ends in a sorter that waits for nobody, so the wait-for graph has no cycle |
| NeighbourSort.NeverStuck | pthreads/mtsort.c:44-113 | until all threads are done some thread can take a step |
| SortFinishes.EveryRunCanFinish | pthreads/mtsort.c:44-113 | every run can be continued to one in which all threads have exited and the list is sorted |
| SortFinishes.SwapPair | pthreads/mtsort.c:44-62 | while a pair is out of order its sorter can swap it, from every state in which nobody is past its locks |
| SortFinishes.GoHome | pthreads/mtsort.c:45-62 | a sorter past its first lock gets back to the top of its loop by itself |
| SortArrays.CompareAndSwap | pthreads/mtsort.c:52-56 | the array is changed by the exchange iff the pair was out of order, and then has one inversion less |
| SortArrays.Check | pthreads/mtsort.c:88-92 | check iff the array is sorted |
| SortArrays.InitialList | pthreads/mtsort.c:144-147 | the array is n, ..., 1, with n(n - 1)/2 inversions |
| Framing.ParseEncoded | server/SocketLibrary/smessages.c:170 | parsing the bytes of messages, each followed by NUL, gives back the messages |
| Framing.ParsePrefix | server/SocketLibrary/smessages.c:76-87 | any first part of that parses to the first k messages and a first part of the next |
| Framing.HeardAsMeantExactly | server/SocketLibrary/smessages.c:76-87 | for any number of reads, the library parses the stream as it was sent iff no read begins with the NUL of a pending message |
| Reassembly.ReceivedOf | server/SocketLibrary/smessages.c:75-88 | handling the pieces of one read continues the parse of the stream of the socket, but for NULs the read begins with |
| Reassembly.HandledOther | server/SocketLibrary/smessages.c:194-232 | handling a piece for one socket leaves the entries of every other socket as they are |
| Reassembly.TakenOf | server/SocketLibrary/smessages.c:135-155 | what is handed out for a socket is its first complete message, and only that leaves the list |
| Delivery.OtherCall | server/SocketLibrary/smessages.c:115-156 | a whole call for another socket, also one that finds it closed, leaves the entries of a socket as they are |
| Delivery.Conserved | server/SocketLibrary/smessages.c:36-156 | for any interleaving of sockets, of which others may be closed, messages returned and entries waiting are together, in order, the parse of what was read on the socket |
| Delivery.DeliversAsSentExactly | server/SocketLibrary/smessages.c:48-156 | that is the parse of the stream as sent iff every cut is clean |
| Delivery.RoundTrip | server/SocketLibrary/smessages.c:48-170 | while messages arrive in any cutting with clean cuts, those returned and waiting are the first k of them in order, and the pending bytes are a first part of the next |
| Delivery.AllDelivered | server/SocketLibrary/smessages.c:115-170 | once all has arrived, repeated get_next_message returns exactly the messages, in order |
| Delivery.OnlyTheLastIncomplete | server/SocketLibrary/smessages.c:91-110 | after any calls, with any closing of sockets, at most one entry of each socket is incomplete, and it is its last |
| Delivery.CallSettled | server/SocketLibrary/smessages.c:36-156 | every call keeps that for every socket |
| Delivery.ReuseDeliversExactly | server/SocketLibrary/smessages.c:58-62 | after any calls and a close, a socket number that is used again gets its new stream as sent iff the close removed every entry of the socket (the condition of CleansExactly) and every cut is clean |
| Delivery.EntriesFit | server/SocketLibrary/smessages.c:215-231 | with messages shorter than MAXBUFF and clean cuts every entry is shorter than its buffer after every read |
| Cleaning.CleansExactly | server/SocketLibrary/smessages.c:234-267 | clean_list removes every entry of the socket iff, behind the leading ones, no two of them are next to each other |
| Cleaning.OneIsLeft | server/SocketLibrary/smessages.c:253-266 | two adjacent entries of a socket behind one of another: the second stays |
| Cleaning.CleanedOther | server/SocketLibrary/smessages.c:234-267 | cleaning leaves the entries of every other socket as they are |
| Cleaning.CleanedSettled | server/SocketLibrary/smessages.c:234-267 | what cleaning leaves of a socket is some of what was there, with at most the last entry incomplete |
| MessageList.Messages.Handle | server/SocketLibrary/smessages.c:194-232 | completes or extends the incomplete entry of the socket, or appends one; complete iff the NUL was read |
| MessageList.Messages.SplitRead | server/SocketLibrary/smessages.c:75-87 | the cursor loop handles exactly the pieces that the reference parser finds in the read |
| MessageList.Messages.IncomingMessages | server/SocketLibrary/smessages.c:36-113 | the list after all reads of a call, and the number of complete messages in the parse of the socket, which is 0 iff get_next_message has nothing to hand out; or -1 and a cleaned list at the end of the file |
| MessageList.Messages.CountReady | server/SocketLibrary/smessages.c:96-112 | the number of complete messages in the parse of the socket; that many entries of the socket are complete, and the next one, if any, is not |
| MessageList.CountsWhatIsWaiting | server/SocketLibrary/smessages.c:36-156 | after any calls of which none closes the socket, the count is the number of messages read on it and not yet handed out, and that many more calls of get_next_message return exactly those |
| MessageList.Messages.GetNextMessage | server/SocketLibrary/smessages.c:115-156 | returns and removes the message that the list model hands out, or 0, or -1 with a cleaned list, and keeps at most the last entry of each socket incomplete |
| MessageList.Messages.CleanList | server/SocketLibrary/smessages.c:234-267 | the two loops leave the list that the model of clean_list gives |
| TaskQueue.Queue.PushTask | server/threadpool.c:40-51 | appends the task at the rear; the counter stays the length of the chain from front to rear |
| TaskQueue.Queue.Take | server/threadpool.c:66-75 | removes the first task; the counter stays the length of the chain |
| ThreadPool.LockedStep | server/threadpool.c:57-80 | every step keeps: the mutex is held by exactly the one thread that is inside |
| ThreadPool.SleepersStep | server/threadpool.c:60-79 | every step keeps: the sleeping workers are the list of the condition variable, each once; a step wakes at most sleeping workers |
| PoolSignals.SleepersExactly | server/threadpool.c:60-79 | a worker that finds no task lines up behind the sleepers, each signal (of dispatch, or of the worker that took the last task) wakes the one that has slept longest, and nothing else changes the list |
| PoolSignals.DispatchWakesTwo | server/threadpool.c:148-159 | in any interleaving, when a dispatch comes from its push to its unlock it has woken the first two sleeping workers, or all if fewer sleep, and no other |
| ThreadPool.TakersStep | server/threadpool.c:60-66 | a worker that goes to take a task finds one |
| PoolTheorems.NoTaskWaitsForASleeper | server/threadpool.c:57-159 | in every run, whenever the mutex is free and some worker sleeps, there are at most as many queued tasks as workers neither asleep nor busy |
| PoolTheorems.AllAsleepMeansNoTask | server/threadpool.c:57-84 | when the mutex is free and all workers sleep, no task is queued |
| PoolTheorems.FifoExactlyOnce | server/threadpool.c:66-82 | in every run the dispatched tasks are the dequeued ones followed by the queue, and each dequeued one is executed or in the hand of one worker |
| PoolTheorems.ComesToRest | server/threadpool.c:57-84 | without new calls of dispatch every schedule ends, within a bound given by the state |
| PoolTheorems.RestMeansDone | server/threadpool.c:57-84 | when no thread can go on all workers sleep, the queue is empty, and every dispatched task has been executed exactly as often as dispatched |
| PoolTheorems.EveryTaskIsExecuted | server/threadpool.c:57-159 | from every reachable state every schedule reaches that rest within the bound, and then each task has been executed exactly as often as dispatch was called with it |
| PoolTheorems.EveryCallIsDispatched | server/threadpool.c:133-159 | in every run the tasks pushed, with those of callers still to push theirs, are the ones dispatch was called with |
| SwapLoop.Round | server/server.c:189-195 | one round of the inner loop keeps the first byte and rotates the others by one, for any length |
| SwapLoop.ProcessRequest | server/server.c:172-200 | for any size and number of rounds the response is the request, repeated to fill it, with all bytes but the first rotated by the number of rounds |
| SwapLoop.OneMoreRound | server/server.c:188-195 | a rotation by j rounds followed by one is the rotation by j + 1 |
| SwapLoop.OnlyTheRemainderCounts | server/server.c:188-195 | only the number of rounds modulo size - 1 matters |
| SwapLoop.FullTurnsDoNothing | server/server.c:188-195 | a multiple of size - 1 rounds is the identity |
| SwapLoop.RotationPermutes | server/server.c:188-195 | no byte is lost or doubled |
| SwapLoop.ServerResponse | server/server.c:185-197 | 10 bytes and 500000 rounds: the first byte, then the others rotated by five |
| BytePipe.Stream.CorrectWrite | server/common.c:50-69 | whatever short, EAGAIN, EINTR and failing results, exactly the first sofar bytes are sent, and all of them iff the results offer enough before a failure; -1 means the length of the string |
| BytePipe.Stream.CorrectRead | server/common.c:28-44 | exactly the first sofar bytes of the stream are moved to data, and nothing beyond them is consumed |
| BytePipe.FullReturnExactly | server/common.c:28-69 | a call with bytes to move returns the length iff it has moved them all |
| BytePipe.Transfer | server/common.c:28-69 | correct_write and then correct_read of the same length: two full returns mean equal buffers and an empty stream, and a write that returned in full can be read in full |
| BytePipe.WriterIsAlone | server/common.c:50-69 | in any interleaving the writer sends and returns what correct_write does by itself on the same results |
| BytePipe.ReadTurn | server/common.c:28-44 | a read that may move n bytes gets the next bytes of what was written: as many as n, as are on the way, and as the reader still wants |
| BytePipe.ReaderIsAlone | server/common.c:28-44 | once everything is sent, the reader, interleaved with anything, reads and returns what correct_read does by itself on the same results |
| BytePipe.AllArrives | server/common.c:28-69 | if the writes offer to move everything in the first part of an interleaving, and the reads the rest in the later part, the reader has all of the data and returns its length |
| BytePipe.ReliablePipe | server/common.c:28-69 | for any interleaving of the two loops and any results, what was read and what is on the way are together what was written, and a full read is the data, with nothing left on the way |

## Left out

- `clone`, `makecontext`, `setcontext`, `swapcontext`, stacks, `gettid`, `sleep`: a dispatch is a change of the thread that a kernel thread runs; core counts are a parameter of the policy.
- Reacquire.BackWithTheMutex: the model retries the lock and then continues the caller; the context that the code rebuilds (`pthreads/mypthread.c:350-352`) loses the caller.
- The moment between the enqueue of a thread and the saving of its context: the enqueue is the step that leaves the running phase.
- Reuse of freed memory: a freed node keeps its contents, so a thread linked behind one is lost and nothing is overwritten.
- A kernel thread that has not dispatched anything has no thread; `mykthread_is_running` would follow a null pointer there (`pthreads/queue_util.c:123`), the model treats it as naming no thread.
- `mypthread_create` after all threads are dead, which initialises the semaphores again.
- `mypthread_mutex_destroy` and `mypthread_cond_destroy`: objects exist from the start and stay; `mypthread_self` and `mypthread_equal` only read.
- Library.Globals.RunningSomewhere: takes the list of kernel threads as a parameter; `mykthread_add`, `mykthread_get` and `mykthread_update` would only add easy members. Where a thread goes on is a field of its object (`resume`), in place of its context.
- StaleIds.CreateIsSafeExactly: about plain states, with one kernel thread and the tail repaired; that a harmless value is safe from every state is `Placement.InvRun`.
- A `dependent_th` below 0 names no thread, like 0; ids are natural numbers here.
- Progress.NoInternalDeadlock: says that each kernel thread inside waits for one that can go on, not that it goes on; the semaphores are not assumed fair.
- SortFinishes.EveryRunCanFinish: says that a run can be finished, not that every schedule finishes it; sorters may back off for ever under an unfair one.
- Delivery.RoundTrip: is about a socket that stays open; other sockets may be closed, and `Delivery.ReuseDeliversExactly` is about one that is used again.
- `send_a_message` when a write is short: the rest of that message is never sent, and only a warning is printed. `select`, the other read errors (the process exits) and `empty_incoming_messages` are not part of this model.
- `create_threadpool` with its counters, `destroy_threadpool`, failures of `malloc`, `free`: the pool begins with n workers in front of the mutex.
- ThreadPool.LockedStep: mutex and condition variable of the pool are as in POSIX, with waiters woken in order of arrival; that the library provides this is the subject of `Mutexes`, `CondVars` and `Reacquire`.
- BytePipe.Stream.CorrectWrite: the results of the single calls of `write` are a finite sequence given from outside; when they run out the call has not returned.
- `server/threadpool_pthread.c`, a near copy of the pool that unlocks before it waits; `hw1/`, an earlier attempt; `pthreads/utilities.c`, sample programs, clients, printing and timing.
