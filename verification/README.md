# Verified models of a state-threads server

The repository holds a cooperative thread library (a fork of State Threads), a lock-free message queue, a
server built on both and the TinyXML parser that it reads its documents with. This project models the parts
of it that are easy to get wrong and proves what they promise, in Dafny 4.11. `dafny verify dfyconfig.toml`
checks everything.

**The scheduler** (`Scheduler*.dfy`, `SleepQueue.dfy`, `IoQueue.dfy`, `Queues.dfy`, `VirtualProcessor.dfy`).
`Scheduler.State` is the virtual processor with all its queues, its threads and what they wait for; a step is
what happens between two context switches: a call into the library, the rest of a call after the switch, or a
round of the idle thread. A thread that was switched away keeps the place where it goes on. `fault` records a
failed `ST_ASSERT`, a counter that would go below zero or a list operation on a thread that is not on the
list; it is proved never to be set. `SchedulerInvariant.Inv` holds in every state of every run
(`SchedulerSteps.RunKeeps`); `SchedulerEffects` says what a step may do to threads other than the one that
takes it, and from that follow the theorems on mutexes, condition variables, join and the clock. `SchedulerCalls`
gives for each call, from what the caller can know before, when it returns what and what it leaves. The class
`VirtualProcessor.Vp` is the same code on fields that are changed in place, with the loops of the source; each
method is proved to make exactly the step of the state machine, so that every theorem is about it as well.
Its sleep queue (`SleepQueue.SleepQ`, delta-encoded) refines a sorted list of absolute deadlines, and the
counters of its I/O queue (`IoQueue.IoQ`) are proved exact.

**The lock-free queue** (`LockFree*.dfy`, `Linearizable.dfy`). Any number of threads, one access to shared
memory a step, pointers and counts read separately, `cas` as two steps. Every run refines an atomic FIFO; the
refinement looks ahead to decide whether an empty answer takes effect when the next pointer is read. This
variant never swings the tail after linking, so that at most one linked node is beyond it. `LockFreedom.LockFree`
is its progress: only calls that take effect hold up another.

**TinyXML** (`Xml*.dfy`, `Utf8.dfy`, `ChildList.dfy`, `AttributeRing.dfy`, `Newlines.dfy`). A `const char*` is
a position in the document's bytes. `XmlParser` says what each `Parse` makes of a position, `XmlParse` has the
loops that compute it, `XmlPrinter` is the visitor that appends to its buffer. The main result is
`XmlComplete.ReadsDocument`: `XmlGrammar` has the concrete syntax of documents, with every choice of white space,
quotes and references that a writer has, and whatever is written in it is read as what it means. That printing and
parsing is the identity, `XmlRoundTrip.RoundTrip`, follows. `XmlReference` says which names and numbers stand for which
characters, and `XmlErrors` what the parser does with other input. The links between nodes and between attributes are
modelled on the heap.

**Short writes** (`ShortWrites.dfy`). `st_write`, `st_writev` and `st_read_fully` against an operating system
that moves any part, is interrupted or not ready, as a script of events: any finite course of events.

**The thread pool** (`ThreadPool.dfy`). The counters and limits of `examples/server.c` under any order of
events.

Where the code differs from what its comments or name suggest, the model follows the code:

- `EncodeString` copies text that starts with `&#x` unchanged, up to the next semicolon, so such a value is
  not read back: `XmlReadBack.ReadBackExactly` says that this is the only case.
- `LinkEndChild` asserts that a node has no parent or this one. A node that is in the list already satisfies
  that, and linking it leaves no list at all: both cases are in the contract of `ChildList.TiXmlNode.LinkEndChild`.
- `FindOrCreate` adds its new attribute before it names it, so the assertion that its name is new fails if an
  attribute has an empty name: `AttributeRing.EmptyNameAsserts`. Where assertions are off the outcome is the same.
- `st_writev` returns -1 after it has sent a part when it finds no memory for a copy of more than 16 vectors:
  `ShortWrites.Starved` says exactly when, and `ShortWrites.SendsAPart` is a case.
- `st_usleep(-1)` is not endless: it sets a timer for the longest time of the type, as
  `SchedulerClock.SetsTimer` says for every value.
- The lead-byte table gives the length of what `ConvertUTF32ToUTF8` wrote for code points below 0x140000 only.
- A join of a thread that has been joined but has not yet cleaned up waits for a signal that does not come
  (`SchedulerLateJoin.LateNoted`), and the condition variable is then not freed. `SchedulerLateJoin.TermIsFree`
  says exactly when, and `SchedulerLateJoin.LeftBehind` is a run in which it happens.

## Model

| member | source | states |
|---|---|---|
| `LockFreeQueue.AccessOk` | lock_free_queue.cpp:228-389 | Each access of any thread keeps the list well formed: head not past tail, at most one linked node beyond tail, and every pointer that is followed leads to a node |
| `LockFreeQueue.LinkKeepsList` | lock_free_queue.cpp:268-310 | Linking at the last node's null next pointer keeps the list, and a node that was linked stays in its place |
| `LockFreeQueue.NextInv` | lock_free_queue.cpp:228-389 | One step of any interleaving keeps the invariant of all threads together; nodes that threads own are distinct |
| `LockFreeQueue.InitInv` | lock_free_queue.cpp:254-262 | The queue as opened, with its dummy node, satisfies the invariant |
| `Linearizable.Linearizability` | lock_free_queue.cpp:268-389 | Every interleaving of any number of enqueues and dequeues is a run of an atomic FIFO with the same calls and results; enqueue takes effect once, dequeue returns the front, and 0 only if the queue was empty at a moment inside the call |
| `Linearizable.MemorySafety` | lock_free_queue.cpp:326-389 | No run follows a null pointer, frees a dummy twice or frees a node that can be reached from head or tail |
| `Linearizable.AccessRefines` | lock_queue.h:216-326 | Each access of either version is one step of the FIFO or none, whatever torn pairs of pointer and count it read |
| `LockFreedom.LockFree` | lock_free_queue.cpp:264-389 | In every run a thread goes round its loop again at most four times for each node linked and twice for each node taken, nodes linked are no more than calls of enqueue, and its accesses are bounded by its calls and those rounds |
| `LockFreedom.RetryHasCause` | lock_free_queue.cpp:264-389 | A round of either loop that ends in another has just moved the tail on, or another thread swapped a pointer or stored a count since it began |
| `LockFreedom.RoundsAreWrites` | lock_free_queue.cpp:228-389 | The rounds of each thread are no more than the swaps and count stores of all threads so far |
| `LockFreeAlone.EnqueueRound` | lock_free_queue.cpp:268-324 | A round of enqueue with no other thread in between links its node behind the last with a count one higher and leaves the tail, or moves a tail that lags to the next node with a count two higher (one in lock_queue.h) and begins again; nothing else changes |
| `LockFreeAlone.DequeueEmpty` | lock_free_queue.cpp:332-362 | With head and tail at a node without a link, dequeue returns 0 and changes nothing |
| `LockFreeAlone.DequeueHelps` | lock_free_queue.cpp:353-367 | With a link there, it moves the tail on with a count one higher and begins again |
| `LockFreeAlone.DequeueTakes` | lock_free_queue.cpp:369-388 | Otherwise it moves head on with a count one higher, frees the old dummy and returns the value of the new one; tail and nodes stay |
| `LockFreeAlone.ChecksBoth` | lock_free_queue.cpp:289-291 | Both loops go on from their consistency check exactly if pointer and count are those that they read |
| `LockFreeAlone.SwapsIfSame` | lock_free_queue.cpp:243-252 | A swap puts the new pointer in exactly if the old one is as expected, and otherwise changes nothing |
| `LockFreeAlone.WrapMeans` | lock_free_queue.cpp:243-252 | A stored count is the 32-bit number congruent to it |
| `LockFreeAlone.CallBegins` | lock_free_queue.cpp:268-279 | Enqueue begins with a node of its own that holds the value, no link and a count of zero |
| `SleepQueue.AddRefines` | sched.c:517-556 | Setting a timer inserts its absolute deadline behind those due no later, leaves the others, and keeps every time within a word |
| `SleepQueue.DelRefines` | sched.c:562-589 | Taking a thread out removes its deadline and no other, and _ST_SLEEPQMAX is again the total |
| `SleepQueue.ExpireRefines` | sched.c:608-627 | The clock check wakes exactly the threads whose deadline has come, in order, and keeps the other deadlines |
| `SleepQueue.TimersSorted` | sched.c:517-556 | The prefix sums of the deltas are sorted deadlines between the last clock and the last clock plus _ST_SLEEPQMAX |
| `SleepQueue.RunRefines` | sched.c:517-628 | Over any run of calls the queue is the list of deadlines, changed by each call as the list would be |
| `SleepQueue.InsertKeeps` | sched.c:531-551 | Insertion adds one timer and keeps the multiset of the others |
| `SleepQueue.InsertSorted` | sched.c:531-551 | Insertion keeps the deadlines in order |
| `SleepQueue.RemoveKeeps` | sched.c:562-589 | Removal keeps exactly the timers of the other threads |
| `SleepQueue.DueExactly` | sched.c:608-627 | The timers that are due are a prefix of the list, those with a deadline no later than now |
| `SleepQueue.SleepQ.AddSleepQ` | sched.c:517-556 | In place: the queue becomes the one that the specification inserts into |
| `SleepQueue.SleepQ.FindPlace` | sched.c:534-545 | The scan finds the place where the prefix sum first exceeds the timeout, and the rest of the time |
| `SleepQueue.SleepQ.DelSleepQ` | sched.c:562-589 | In place: the following sleeper takes over the time, or _ST_SLEEPQMAX shrinks |
| `IoQueue.RegisterKeeps` | sched.c:81-110 | A new request goes last; the counter of each descriptor and event grows by the number of its pollfds that ask for it, a descriptor is in the read, write or exception set exactly if its counter there is positive, and _ST_MAX_OSFD becomes the highest descriptor asked for |
| `IoQueue.ReleaseKeeps` | sched.c:118-135 | A request that timed out or was interrupted leaves the queue with exactly its registrations; no counter is decremented from zero, and counters and sets stay those of the pollfds that are queued |
| `IoQueue.NotifyKeeps` | sched.c:281-351 | A round of select notifies exactly the requests with a pollfd whose socket is in the result set of an event that it asks for, releases exactly their registrations, and recomputes _ST_MAX_OSFD from the others |
| `IoQueue.SelectMeets` | sched.c:249-351 | If select finds only what it was given, each socket that it finds belongs to a request that is notified, a round that finds one notifies one, and nobody asks for what was found any longer |
| `IoQueue.ReadyOrder` | sched.c:281-351 | Of two requests that a round notifies the one queued earlier comes first |
| `IoQueue.NotReadyOrder` | sched.c:281-351 | The requests that stay keep their order |
| `IoQueue.ReventsShow` | sched.c:298-309 | An event is reported for a pollfd exactly if it is asked for and the socket is in the result set of that same event |
| `IoQueue.StepKeeps` | sched.c:65-146 | Every operation keeps the counters equal to the number of queued pollfds with that descriptor and event, the fd_sets those with a positive counter, and the bound, and conserves registrations |
| `IoQueue.BadFdBounds` | sched.c:366-430 | After a bad descriptor the recomputed _ST_MAX_OSFD bounds every descriptor of interest and is one of them, or -1 without any |
| `IoQueue.RunExact` | sched.c:65-363 | In every state of every run each counter is the number of queued pollfds that ask for that event of that descriptor, the fd_sets are the descriptors with a positive counter, _ST_MAX_OSFD bounds them, and each registration made was released once or is still counted |
| `IoQueue.DropKeyCounted` | sched.c:311-327 | A decrement clears the descriptor from the set exactly when no registration is left |
| `IoQueue.IoQ.Poll` | sched.c:81-104 | In place: the loop over the descriptors adds one to the counter of each event that a pollfd asks for and sets that event's fd_set |
| `IoQueue.IoQ.Leave` | sched.c:118-135 | In place: the request of the thread leaves with its registrations |
| `IoQueue.IoQ.Idle` | sched.c:281-351 | In place: the notification loop is the specified scan; a request is notified exactly if select shows an event that it asks for, and the state after it is exact |
| `IoQueue.IoQ.Look` | sched.c:288-309 | Whether one of the pollfds of a request has an event that select shows, which events each has, and the highest descriptor |
| `IoQueue.IoQ.FindBadFd` | sched.c:366-430 | In place: the highest descriptor with events of all requests |
| `Queues.WithoutOrder` | sync.cpp:178 | Taking an element out of a list keeps the order of the others |
| `SchedulerInvariant.WakeKeeps` | sync.cpp:208-220 | Waking a waiting thread keeps the invariant of the whole processor |
| `SchedulerInvariant.ScheduleKeeps` | sched.c:148-165 | The next thread is runnable, as the scheduler asserts, and is the idle thread only if the run queue is empty |
| `SchedulerSteps.NextKeeps` | sched.c:65-721 | Every step of any thread keeps the invariant |
| `SchedulerSteps.InitKeeps` | sched.c:171-219 | The processor as initialised satisfies the invariant |
| `SchedulerSteps.RunKeeps` | sched.c:148-649 | The invariant holds in every state of every run: states, flags, places and queues of all threads agree, wait queues hold exactly the waiting threads, no assertion has failed |
| `SchedulerSteps.CallKeeps` | sync.cpp:96-346 | Every call of the library keeps the invariant |
| `SchedulerSteps.PollersWait` | sched.c:249-351 | When the idle thread looks for I/O each thread with a queued request is in IO_WAIT |
| `SchedulerSteps.ExpireKeeps` | sched.c:592-628 | The loop of the clock check keeps the invariant, its assertions hold, and it appends the threads of the expired sleepers to the run queue |
| `SchedulerSteps.HandOffKeeps` | sync.cpp:316-331 | Handing a mutex on keeps the invariant: nobody waits for a mutex without an owner |
| `SchedulerCalls.LockCall` | sync.cpp:268-293 | With an interrupt pending st_mutex_lock fails with EINTR and clears it; otherwise it returns 0 as the new owner exactly if there is none, EDEADLK exactly if the caller is the owner, and else the caller goes last in the wait queue, into LOCK_WAIT, and the next runnable thread runs |
| `SchedulerCalls.TrylockCall` | sync.cpp:335-346 | st_mutex_trylock returns 0 as the new owner exactly if there is none, and EBUSY otherwise |
| `SchedulerCalls.UnlockCall` | sync.cpp:307-332 | st_mutex_unlock returns EPERM exactly if the caller is not the owner; otherwise the first waiter in LOCK_WAIT owns the mutex and is last in the run queue, or nobody owns it |
| `SchedulerCalls.UsleepCall` | sync.cpp:96-109 | st_usleep fails with EINTR if an interrupt is pending; otherwise the caller sleeps with its timer set and the next thread runs |
| `SchedulerCalls.CondWaitCall` | sync.cpp:158-176 | The same for st_cond_timedwait, with the caller last in the wait queue and a timer only if there is a limit |
| `SchedulerCalls.SignalCall` | sync.cpp:202-222 | st_cond_signal makes the first waiter in COND_WAIT runnable, a broadcast each of them in order, last in the run queue and off the sleep queue, and changes nothing else |
| `SchedulerCalls.PollCall` | sched.c:65-110 | st_poll fails with EINTR if an interrupt is pending; otherwise the request is queued and registered, the caller waits in IO_WAIT with a timer if there is a limit, and the next thread runs |
| `SchedulerCalls.InterruptCall` | sched.c:631-649 | An interrupt does nothing to a zombie, sets the flag of a running or runnable thread, and also wakes one that waits |
| `SchedulerCalls.CreateCall` | sched.c:652-721 | A new thread is runnable, last in the run queue, joinable as asked for, and nothing else changes |
| `SchedulerCalls.ExitCall` | sched.c:433-456 | Exit keeps the value; a joinable thread becomes a zombie, wakes its joiner if one waits, and the next thread runs; any other is freed |
| `SchedulerCalls.JoinCall` | sched.c:465-490 | A join fails with EINVAL for a thread that is not joinable or has a joiner and with EDEADLK for the caller itself; it returns a zombie's value and makes it runnable; otherwise it waits as a condition wait does |
| `SchedulerCalls.UsleepResumes` | sync.cpp:109-118 | Resumed, st_usleep returns EINTR and clears the flag exactly if an interrupt is pending, and 0 otherwise |
| `SchedulerCalls.CondWaitResumes` | sync.cpp:177-193 | Resumed, a condition wait is off the wait queue with both flags cleared and returns EINTR, ETIME or 0 by them |
| `SchedulerCalls.LockResumes` | sync.cpp:293-304 | Resumed, a lock is off the wait queue; it fails with EINTR exactly if an interrupt is pending and the thread is not the owner |
| `SchedulerCalls.ExitResumes` | sched.c:448-460 | Resumed after its join, an exiting thread is freed and the next one runs |
| `SchedulerCalls.JoinResumes` | sched.c:484-500 | Resumed, a join fails with EINTR if an interrupt is pending, returns the value of a zombie, or waits again |
| `SchedulerCalls.BeginResumes` | sched.c:505-514 | A thread that runs for the first time is in its start function, and nothing else has changed |
| `SchedulerEffects.StepChange` | sched.c:65-721 | A step changes another thread only to release it, for the reason that goes with the step: signal, exit, interrupt, unlock, join, I/O, clock or creation |
| `SchedulerEffects.HandOffEffect` | sync.cpp:316-331 | An unlock gives the mutex to the first waiter in LOCK_WAIT and to nobody exactly if there is none |
| `SchedulerFrames.StepSame` | sync.cpp:268-346 | A step that is not about a mutex leaves its owner and its waiters |
| `SchedulerMutex.MutualExclusion` | sync.cpp:268-346 | At any time of any run at most one thread has locked a mutex and not unlocked it, by what its calls returned, and the owner field names it |
| `SchedulerMutex.TrackKeeps` | sync.cpp:268-346 | Each step keeps what the program saw of a mutex true to its owner field |
| `SchedulerMutex.LockReturns` | sync.cpp:291-303 | A thread resumed in st_mutex_lock owns the mutex or was interrupted; one that owns it gets 0 and a pending interrupt stays, the other gets EINTR |
| `SchedulerMutex.WaiterHasOwner` | sync.cpp:288-293 | A thread in LOCK_WAIT waits for a mutex that has an owner, and is on its queue |
| `SchedulerMutex.FirstComeFirstServed` | sync.cpp:307-332 | Of two threads that wait, no unlock hands the mutex to the later one while the earlier one waits |
| `SchedulerCond.SignalsOldest` | sync.cpp:202-222 | A signal releases exactly the oldest thread still in COND_WAIT, and none exactly if none is; one that timed out or was interrupted never takes it |
| `SchedulerCond.BroadcastAll` | sync.cpp:202-222 | A broadcast releases every thread still in COND_WAIT and changes no other |
| `SchedulerCond.KeepsOrder` | sync.cpp:158-193 | Waiters that are not running keep their places in the wait queue under every step |
| `SchedulerCond.WaitEnds` | sync.cpp:158-222 | A wait ends by a signal on its variable, by the clock, which sets TIMEDOUT, or by an interrupt, and by nothing else |
| `SchedulerCond.WaitReturns` | sync.cpp:158-193 | A wait is released exactly once and returns 0 exactly if a signal did it and no interrupt is pending, ETIME exactly if the clock did and none is, EINTR exactly if one is; TIMEDOUT is cleared |
| `SchedulerCond.TimedoutOnlyInWait` | sync.cpp:180-185 | TIMEDOUT is never set outside a condition wait |
| `SchedulerPlaces.RunUnflagged` | sync.cpp:97-303 | In no state of any run has a thread that waits, for whatever it is, an interrupt pending |
| `SchedulerReturns.LockWaitReturns` | sync.cpp:268-303 | Over any run a wait for a mutex is ended once, by a hand-off or an interrupt; one that was handed the mutex returns 0 as its owner whatever came in between, an interrupt since then stays pending; the other fails with EINTR without it |
| `SchedulerReturns.OwnerFrom` | sync.cpp:268-332 | From the hand-off until it runs the waiter is the owner, under every step of the others; one interrupted instead is not given the mutex |
| `SchedulerReturns.UsleepReturns` | sync.cpp:97-124 | Over any run a sleep is ended once, by a clock check at or after its deadline or by an interrupt, and st_usleep returns 0 exactly if no interrupt is pending when it goes on |
| `SchedulerReturns.JoinReturns` | sched.c:433-502 | Over any run a wait for a thread is ended once, by its exit or an interrupt; st_thread_join fails with EINTR exactly if an interrupt came at or after that, and otherwise returns the value of that exit |
| `SchedulerReturns.WokenNoted` | sched.c:631-649 | A thread that was woken keeps its place until it runs, and an interrupt is pending then exactly if one came at its wake-up or since |
| `SchedulerPoll.PollReturns` | sched.c:65-146 | Over any run a poll is ended once, by a round in which select shows an event that it asks for, by the clock at or after its deadline, or by an interrupt; it fails with EINTR exactly if one came, otherwise it returns the number of its pollfds with such an event, not zero, in the first case and 0 in the second; its request is off the queue |
| `SchedulerPoll.RunRequests` | sched.c:107-146 | In every state of every run a queued request is for the descriptors that its thread waits for |
| `SchedulerPoll.RoundPoll` | sched.c:281-351 | A round of the idle thread wakes a polling thread exactly if select shows an event that it asks for, and then tells it for each pollfd exactly the events that are asked for and shown; otherwise its request stays |
| `SchedulerPoll.PollResumes` | sched.c:112-145 | Resumed, st_poll takes out a request that is still queued, fails with EINTR exactly if an interrupt is pending, and otherwise returns the number of pollfds with an event, 0 for a request still queued |
| `SchedulerJoin.JoinedOnce` | sched.c:465-502 | In any run at most one join of a thread succeeds |
| `SchedulerJoin.JoinGetsExitValue` | sched.c:433-502 | A join that succeeds returns the value of that thread's earlier call of st_thread_exit |
| `SchedulerJoin.InterruptedJoiner` | sched.c:484-490 | An interrupted joiner fails and leaves the zombie and its queue as they were without it |
| `SchedulerLateJoin.TermIsFree` | sched.c:449-452 | When a thread destroys its termination variable nobody waits there exactly if each join of it that came after it was joined, and waited, was interrupted and has returned |
| `SchedulerLateJoin.NoLateJoins` | sched.c:449-452 | Nobody waits there if the program did not join that thread after it was joined |
| `SchedulerLateJoin.StaleJoinWaits` | sched.c:465-490 | A join of a thread that was joined and is not freed waits exactly if nobody waits for it and no interrupt is pending, and changes nothing for that thread |
| `SchedulerLateJoin.LateNoted` | sched.c:484-490 | In any run such a joiner is in COND_WAIT for as long as it waits and is not interrupted, and exactly then; no signal, exit or clock releases it |
| `SchedulerLateJoin.LeftBehind` | sched.c:433-502 | A run: a thread is joined, joined again before it cleans up, and destroys a termination variable on which its joiner waits while only the idle thread is left |
| `SchedulerTheorems.OneQueue` | sched.c:148-165 | Each live thread is on at most one of the run, sleep and zombie queues, once, and is runnable exactly if it is on the run queue, in every state of every run |
| `SchedulerTheorems.IdleLast` | sched.c:148-165 | While the idle thread runs no other thread can |
| `SchedulerTheorems.ClockWakesDue` | sched.c:592-628 | The idle thread's clock check wakes the threads with deadline no later than now in the order of deadline and insertion, and marks those in a condition wait |
| `SchedulerTheorems.RoundCall` | sched.c:226-363 | A round of the idle thread wakes the threads that I/O was found for and then those whose deadline has come; the first of them runs and the others are the run queue, or the idle thread runs again |
| `SchedulerTheorems.FoundExactly` | sched.c:281-351 | I/O was found for a thread exactly if select shows an event that its request asks for |
| `SchedulerTheorems.FoundInOrder` | sched.c:281-351 | Threads that I/O was found for are woken in the order of their requests |
| `SchedulerClock.FirstDeadline` | sched.c:278-285 | The limit for select is none without a sleeper; otherwise a thread is due exactly when the limit is up |
| `SchedulerClock.SetsTimer` | sync.cpp:97-124 | A call with a limit that does not return at once sets a timer for the last reading of the clock plus the limit, for st_usleep whatever the limit is |
| `SchedulerClock.DeadlineKept` | sched.c:517-628 | Over any run a thread that sleeps keeps its deadline, whatever happens to other threads, and every clock check so far was before it |
| `SchedulerClock.SleepEnds` | sched.c:517-649 | Over any run its sleep ends by an interrupt, a signal on what it waits for, its I/O, or the first clock check at or after its deadline, by that as a timeout |
| `VirtualProcessor.Vp.Step` | sched.c:65-721 | Any step on the fields in place is the step of the state machine, and the next can be taken from where it ends |
| `VirtualProcessor.Vp.CondSignal` | sync.cpp:202-222 | The scanning loop is the specified signal or broadcast |
| `VirtualProcessor.Vp.MutexUnlock` | sync.cpp:307-332 | The scanning loop is the specified hand-off |
| `VirtualProcessor.Vp.MutexLock` | sync.cpp:268-291 | Up to its switch, the call is the specified one, of which `SchedulerCalls.LockCall` says when it returns what |
| `VirtualProcessor.Vp.CondEnd` | sync.cpp:177-193 | The end of a wait, and of a join, is the specified one |
| `VirtualProcessor.Vp.PollEnd` | sched.c:112-145 | The end of a poll is the specified one |
| `VirtualProcessor.Vp.CheckClock` | sched.c:592-628 | The loop over the sleepers is the specified one, and its assertions hold |
| `VirtualProcessor.Vp.VpIdle` | sched.c:249-363 | Select is given the time to the first deadline in seconds and microseconds, and the notification of ready threads is the specified one |
| `VirtualProcessor.Vp.ThreadExit` | sched.c:433-462 | Up to its first switch, exit is the specified one |
| `VirtualProcessor.Vp.ThreadJoin` | sched.c:465-502 | Join is the specified one, with its three errors |
| `VirtualProcessor.Vp.ThreadInterrupt` | sched.c:631-649 | Interrupt is the specified one |
| `Utf8.ConvertUTF32ToUTF8` | HMSyncPlatformServer/tinyxmlparser.cpp:88-126 | The bytes written from the last to the first are the specified ones, and the rest of the buffer stays |
| `Utf8.ConvertsByRfc3629` | HMSyncPlatformServer/tinyxmlparser.cpp:88-126 | They are the table of section 3 of RFC 3629 for every code point |
| `Utf8.DecodeConverted` | HMSyncPlatformServer/tinyxmlparser.cpp:88-126 | Decoding gives the code point back, for everything that is converted |
| `Utf8.WellFormedExactly` | HMSyncPlatformServer/tinyxmlparser.cpp:88-126 | The bytes are well-formed UTF-8 exactly for Unicode scalar values |
| `Utf8.TableAgrees` | HMSyncPlatformServer/tinyxmlparser.cpp:66-85 | The lead-byte table agrees with the number of bytes written exactly below 0x140000 |
| `Utf8.OutOfRange` | HMSyncPlatformServer/tinyxmlparser.cpp:66-113 | Nothing is converted exactly from 0x200000 on; the table gives 2, 3 and 4 for C2-DF, E0-EF and F0-F4, and 1 for every other byte |
| `XmlText.ScanDigits` | HMSyncPlatformServer/tinyxmlparser.cpp:452-496 | The scan from right to left with a wrapping multiplier computes the number modulo 2^32, or fails on a wrong digit |
| `XmlText.GetEntity` | HMSyncPlatformServer/tinyxmlparser.cpp:438-531 | The loop over the named entities and the two reference forms compute the specified text and position, which `XmlReference.NamesRead` and `XmlReference.EntityIsNumber` give in full |
| `XmlText.EncodeString` | HMSyncPlatformServer/tinyxml.cpp:51-132 | The loop appends the specified encoding, which `XmlReference.Writes` and `XmlReference.Copies` give in full |
| `XmlText.ReadText` | HMSyncPlatformServer/tinyxmlparser.cpp:574-637 | Both loops compute the specified text and position |
| `XmlText.ReadName` | HMSyncPlatformServer/tinyxmlparser.cpp:401-436 | The longest name at a position, and null where none starts |
| `XmlText.StringEqual` | HMSyncPlatformServer/tinyxmlparser.cpp:534-572 | Whether the document has a tag at a position, with and without case |
| `XmlReadBack.ReadEscape` | HMSyncPlatformServer/tinyxml.h:327-362 | GetChar reads each character back as it was written |
| `XmlReadBack.ReadBackExactly` | HMSyncPlatformServer/tinyxml.cpp:51-132 | An attribute value is read back, and the reader stops at its quote, if and only if no "&#x" is in it |
| `XmlReadBack.ReadTextBack` | HMSyncPlatformServer/tinyxmlparser.cpp:595-637 | For any text without "&#x", trimmed ReadText of what was written, then white space and a tag, gives the text without the spaces at its ends and with each inner run of spaces become one, and stops after the '<' |
| `XmlReadBack.CondensedExactly` | HMSyncPlatformServer/tinyxmlparser.cpp:595-629 | What is left has no space at an end and none doubled, all other characters in their order, and is the text itself exactly if that was so before |
| `XmlReference.DecodesReference` | HMSyncPlatformServer/tinyxmlparser.cpp:438-512 | A hexadecimal or decimal reference to a Unicode scalar value is decoded to the bytes of section 3 of RFC 3629, and reading goes on after its semicolon |
| `XmlReference.EntityIsNumber` | HMSyncPlatformServer/tinyxmlparser.cpp:438-512 | Any reference is decoded from its number modulo 2^32 |
| `XmlReference.LeadingZeros` | HMSyncPlatformServer/tinyxmlparser.cpp:462-500 | Leading zeros do not change the number |
| `XmlReference.NamesRead` | HMSyncPlatformServer/tinyxmlparser.cpp:43-50 | &lt; is read as <, &gt; as >, &amp; as &, &quot; as " and &apos; as ', each up to its semicolon, and an ampersand that starts none of them as nothing |
| `XmlReference.Writes` | HMSyncPlatformServer/tinyxml.cpp:51-132 | Those five characters are written by those names, one below 32 by two upper-case hexadecimal digits, and any other as it is |
| `XmlReference.Copies` | HMSyncPlatformServer/tinyxml.cpp:57-78 | What starts with &#x is copied up to the next semicolon or the last character |
| `XmlReference.NumberSpelled` | HMSyncPlatformServer/tinyxmlparser.cpp:462-500 | Any number, spelled in decimal or hexadecimal digits of either case, is read as itself |
| `XmlReference.DigitsAre` | HMSyncPlatformServer/tinyxmlparser.cpp:465-500 | The digits of each base are those and no other characters |
| `XmlReference.NoSemicolon` | HMSyncPlatformServer/tinyxmlparser.cpp:452-481 | A reference without a semicolon gives no text and a null position |
| `XmlReference.WrongDigit` | HMSyncPlatformServer/tinyxmlparser.cpp:465-500 | So does one with a character before the semicolon that is no digit of its base |
| `XmlReference.NoDigits` | HMSyncPlatformServer/tinyxmlparser.cpp:438-512 | One without digits stands for zero |
| `XmlGrammar.CharacterClasses` | HMSyncPlatformServer/tinyxmlparser.cpp:129-172 | Which characters are white space, which start a name and which go on with it |
| `XmlGrammar.LowerCase` | HMSyncPlatformServer/tinyxml.h:382-393 | Case is ignored for the 26 letters and no other character |
| `XmlParser.NodeAt` | HMSyncPlatformServer/tinyxmlparser.cpp:818-899 | On any input the parse of a node ends, and if it succeeds its position is after the start and inside the document |
| `XmlParser.ElementAt` | HMSyncPlatformServer/tinyxmlparser.cpp:1043-1176 | The same for elements, through the recursion with their children |
| `XmlParser.KidsFrom` | HMSyncPlatformServer/tinyxmlparser.cpp:1179-1247 | The same for the children of an element |
| `XmlParser.AttributeAt` | HMSyncPlatformServer/tinyxmlparser.cpp:1392-1463 | An attribute that parses is at least one character long; `XmlComplete.AttributeBack` says what it is |
| `XmlParse.ParseElement` | HMSyncPlatformServer/tinyxmlparser.cpp:1043-1176 | The loop over the attributes, the children and the end tag compute the specified element, position and error |
| `XmlParse.ReadValue` | HMSyncPlatformServer/tinyxmlparser.cpp:1179-1247 | The loop over the children computes the specified list |
| `XmlParse.ParseAttribute` | HMSyncPlatformServer/tinyxmlparser.cpp:1392-1463 | The name, the equals sign with white space on either side and the value in any quotes or none are parsed as specified |
| `XmlParse.ParseComment` | HMSyncPlatformServer/tinyxmlparser.cpp:1337-1389 | The loop to the end of a comment |
| `XmlParse.ParseCData` | HMSyncPlatformServer/tinyxmlparser.cpp:1497-1527 | The loop to the end of a CDATA section |
| `XmlParse.ParseUnknown` | HMSyncPlatformServer/tinyxmlparser.cpp:1275-1307 | The loop to the end of an unknown tag |
| `XmlParse.ParseDeclaration` | HMSyncPlatformServer/tinyxmlparser.cpp:1572-1629 | The loop over the fields of a declaration |
| `XmlParse.IdentifyNode` | HMSyncPlatformServer/tinyxmlparser.cpp:818-899 | The kind of a node, by the first tag that matches |
| `XmlParse.ParseDocument` | HMSyncPlatformServer/tinyxmlparser.cpp:704-796 | The loop over the nodes of a document |
| `XmlParse.PrintAndParse` | HMSyncPlatformServer/tinyxml.h:1764-1795 | Printing in either mode and parsing what is in the buffer gives the document back |
| `XmlPrinter.Quoting` | HMSyncPlatformServer/tinyxml.cpp:1209-1232 | An attribute is written in single quotes exactly if its value holds a double one |
| `XmlPrinter.EmptyLine` | HMSyncPlatformServer/tinyxml.cpp:1765-1785 | An empty element is one line with one tag |
| `XmlPrinter.TextLine` | HMSyncPlatformServer/tinyxml.cpp:1786-1825 | An element with nothing but a text is one line |
| `XmlPrinter.KidLines` | HMSyncPlatformServer/tinyxml.cpp:1765-1825 | Any other has its two tags on lines of their own, around the lines of its children |
| `XmlPrinter.LeafLines` | HMSyncPlatformServer/tinyxml.cpp:1828-1884 | Each leaf is on a line of its own, between the delimiters of its kind |
| `XmlPrinter.DeclarationLine` | HMSyncPlatformServer/tinyxml.cpp:1417-1436 | A declaration has those of its three fields that are not empty |
| `XmlPrinter.IndentedIs` | HMSyncPlatformServer/tinyxml.h:1785-1788 | The indent of a line is the indent string, once for each level |
| `XmlPrinter.TiXmlPrinter.AcceptAll` | HMSyncPlatformServer/tinyxml.cpp:1155-1166 | The buffer grows by the layout of all nodes, and the printer is as deep as before |
| `XmlPrinter.TiXmlPrinter.Accept` | HMSyncPlatformServer/tinyxml.cpp:874-885 | The buffer grows by the layout of one node |
| `XmlPrinter.TiXmlPrinter.VisitEnter` | HMSyncPlatformServer/tinyxml.cpp:1765-1799 | The start of an element; a sole text child is to follow on the same line |
| `XmlPrinter.TiXmlPrinter.VisitExit` | HMSyncPlatformServer/tinyxml.cpp:1802-1825 | The end of an element, none for an empty one |
| `XmlPrinter.TiXmlPrinter.Visit` | HMSyncPlatformServer/tinyxml.cpp:1828-1884 | Each kind of leaf, and plain text within its line |
| `XmlPrinter.TiXmlPrinter.PrintAttribute` | HMSyncPlatformServer/tinyxml.cpp:1209-1232 | Name and value encoded, in quotes that the value does not hold |
| `XmlPrinter.TiXmlPrinter.DoIndent` | HMSyncPlatformServer/tinyxml.h:1785-1788 | The indent as many times as the printer is deep |
| `XmlComplete.ReadsDocument` | HMSyncPlatformServer/tinyxmlparser.cpp:704-796 | Every document that the grammar of `XmlGrammar` writes is read as the tree that it means, without an error: white space anywhere between markup, before an attribute, on either side of its equals sign and before the end of a tag, values in either quotes or bare, each character as itself, by name or by number |
| `XmlComplete.NodeBack` | HMSyncPlatformServer/tinyxmlparser.cpp:818-899 | The same for one piece of markup at any place in a document |
| `XmlComplete.KidsBack` | HMSyncPlatformServer/tinyxmlparser.cpp:1179-1247 | The same for the children of an element before its end tag |
| `XmlComplete.AttrsBack` | HMSyncPlatformServer/tinyxmlparser.cpp:1087-1172 | Attributes with different names are read in their order, whatever white space is between and within them |
| `XmlComplete.AttributeBack` | HMSyncPlatformServer/tinyxmlparser.cpp:1392-1463 | A name, white space or none, an equals sign, white space or none and a value in either quotes or bare are read as that name and what the value means, up to its end |
| `XmlRoundTrip.RoundTrip` | HMSyncPlatformServer/tinyxml.cpp:1765-1873 | Printing a document in any layout of white space and parsing it gives an equal tree and no error, for elements, text, CDATA, comments, unknown tags and declarations; a corollary of `XmlComplete.ReadsDocument` |
| `XmlRoundTrip.NodeLaid` | HMSyncPlatformServer/tinyxml.cpp:1765-1884 | What is printed for a legal node is one of the ways to write it in that grammar, and means that node |
| `XmlRoundTrip.KidsLaid` | HMSyncPlatformServer/tinyxml.cpp:1155-1166 | The same for the children of an element |
| `XmlErrors.AnyDocument` | HMSyncPlatformServer/tinyxmlparser.cpp:704-796 | Whatever the input is, no element of the tree has two attributes with one name, and a document without a node is an error |
| `XmlErrors.AnyElement` | HMSyncPlatformServer/tinyxmlparser.cpp:1043-1176 | On any input an element ends with an empty tag or an end tag of its own name, or an error is reported; the first error stays |
| `XmlErrors.SecondAttribute` | HMSyncPlatformServer/tinyxmlparser.cpp:1141-1158 | A second attribute of one name is an error of its element |
| `XmlErrors.NoEquals` | HMSyncPlatformServer/tinyxmlparser.cpp:1410-1415 | So is a name in a tag that no equals sign follows |
| `XmlErrors.StrayQuote` | HMSyncPlatformServer/tinyxmlparser.cpp:1443-1460 | So is a bare value with a quote in it |
| `XmlErrors.QuoteNotClosed` | HMSyncPlatformServer/tinyxmlparser.cpp:1427-1442 | A value whose quote is not closed has no position after it |
| `XmlErrors.WrongEndTag` | HMSyncPlatformServer/tinyxmlparser.cpp:1117-1137 | Another end tag than that of the element is an error |
| `XmlErrors.StraySlash` | HMSyncPlatformServer/tinyxmlparser.cpp:1093-1103 | So is a slash in a tag that does not end it |
| `XmlErrors.Unfinished` | HMSyncPlatformServer/tinyxmlparser.cpp:1084-1092 | So is a tag, or an element, that the document ends in |
| `XmlErrors.CommentNoEnd` | HMSyncPlatformServer/tinyxmlparser.cpp:1337-1389 | A comment without an end is the rest of the document |
| `XmlErrors.UnknownNoEnd` | HMSyncPlatformServer/tinyxmlparser.cpp:1275-1307 | So is an unknown tag |
| `XmlErrors.SectionNoEnd` | HMSyncPlatformServer/tinyxmlparser.cpp:1497-1527 | A CDATA section without one has no position after it |
| `ChildList.TiXmlNode.LinkEndChild` | HMSyncPlatformServer/tinyxml.cpp:182-207 | A node not in the list becomes the last child with all links consistent; one that is in it leaves links that are those of no list; a document is refused |
| `ChildList.TiXmlNode.InsertBeforeChild` | HMSyncPlatformServer/tinyxml.cpp:226-258 | A copy goes before a child: the list is the old one with it inserted, links consistent; otherwise nothing changes |
| `ChildList.TiXmlNode.InsertAfterChild` | HMSyncPlatformServer/tinyxml.cpp:261-293 | A copy goes after a child |
| `ChildList.TiXmlNode.ReplaceChild` | HMSyncPlatformServer/tinyxml.cpp:296-332 | A copy takes the place of a child |
| `ChildList.TiXmlNode.RemoveChild` | HMSyncPlatformServer/tinyxml.cpp:335-358 | The list is the old one without the child |
| `ChildList.TiXmlNode.Clear` | HMSyncPlatformServer/tinyxml.cpp:168-182 | Each child is met once, in order, and none is left |
| `ChildList.LinkedTwice` | HMSyncPlatformServer/tinyxml.cpp:185-209 | After a node of the list is linked again, no sequence of children agrees with the links |
| `AttributeRing.TiXmlAttributeSet.Add` | HMSyncPlatformServer/tinyxml.cpp:1513-1526 | A new attribute goes last in the ring whether or not the assertion holds, which it does exactly if its name is new; names stay distinct exactly then |
| `AttributeRing.TiXmlAttributeSet.Remove` | HMSyncPlatformServer/tinyxml.cpp:1528-1544 | An attribute is taken out of the ring, the others keep their order |
| `AttributeRing.TiXmlAttributeSet.Find` | HMSyncPlatformServer/tinyxml.cpp:1571-1579 | The only attribute with a name, or null exactly if there is none |
| `AttributeRing.TiXmlAttributeSet.FindOrCreate` | HMSyncPlatformServer/tinyxml.cpp:1582-1591 | The attribute with a name, created last if there was none, with names distinct; the assertion holds exactly if the name was there or no attribute had an empty name |
| `AttributeRing.TiXmlAttributeSet.SetAttribute` | HMSyncPlatformServer/tinyxml.cpp:779-786 | As a map from names to values in the order of their insertion, the set changes at one name: the others and an old name keep their places, a new one goes last, whether or not the assertion holds |
| `AttributeRing.EmptyNameAsserts` | HMSyncPlatformServer/tinyxml.cpp:1582-1591 | After an attribute with an empty name is set, setting another makes the assertion fail, and both are set |
| `AttributeRing.TiXmlAttributeSet.Last` | HMSyncPlatformServer/tinyxml.h:912-915 | The newest attribute, through the sentinel |
| `Newlines.NormalizeInPlace` | HMSyncPlatformServer/tinyxml.cpp:1051-1074 | The loop leaves the normalized text up to the first NUL, ended by a NUL, and never writes beyond what it has read |
| `Newlines.NormalizedIsBoth` | HMSyncPlatformServer/tinyxml.cpp:1051-1074 | That text is what the two translations of section 2.11 of XML 1.0 make of it |
| `Newlines.Idempotent` | HMSyncPlatformServer/tinyxml.cpp:1051-1074 | Normalizing twice is normalizing once; a text stays as it is exactly if it has no carriage return |
| `ShortWrites.Socket.Write` | io.c:465-491 | For every course of events what was sent is a part of the buffer from its start, all of it exactly if the call succeeds |
| `ShortWrites.Socket.Writev` | io.c:494-565 | It sends and returns what st_write would for the concatenated buffers and the same events, and leaves the caller's vectors, unless there is no memory and more than 16 vectors are left at the first partial write: exactly then it has sent that part and returns -1 |
| `ShortWrites.SendsAPart` | io.c:533-539 | Eighteen vectors and events by which st_writev sends a byte and fails where st_write sends all |
| `ShortWrites.UnwrittenAt` | io.c:527-530 | The first vector with a byte left after a number of bytes is the only one that this number reaches into |
| `ShortWrites.Socket.Rebuild` | io.c:526-553 | The rebuilt vectors hold exactly the bytes still to send and fit the 16 slots or the allocated memory; it fails exactly if they are copied for the first time, are more than 16, and there is no memory |
| `ShortWrites.Socket.FindUnwritten` | io.c:527-530 | The next unwritten vector, and how much of it was sent |
| `ShortWrites.Socket.ReadFully` | io.c:440-462 | What was read is in the buffer in order and the rest is still to come |
| `ShortWrites.FailsForAReason` | io.c:465-491 | A write fails if one of the calls and waits that it reached failed, and otherwise only because the script has no more for it; if it does not fail it has sent everything |
| `ShortWrites.SucceedsExactly` | io.c:465-491 | A write succeeds exactly if some call completes it: no call up to it failed, with it enough was moved and not before, and there was one wait, which succeeded, after each earlier call that moved a part or was not ready, and none after an interrupted one |
| `ShortWrites.ReadsExactly` | io.c:440-462 | A read succeeds exactly if some call ends it, by the last byte or by none, under the same conditions, and says how much it has then |
| `ThreadPool.SetThreadThrottling` | examples/server.c:408-436 | The limits of a process are the ceilings of those of all processes, with min <= max_wait <= max |
| `ThreadPool.Pieces` | examples/server.c:848-886 | An accepted connection leaves one thread less waiting; another is asked for exactly if fewer than min_wait_threads are left and there are fewer than max_threads in all; a thread stays exactly if no more than max_wait_threads wait |
| `ThreadPool.SocketKeeps` | examples/server.c:848-886 | Each piece of a thread's loop keeps the counters true and within the limits, and the balance if a thread that is asked for is created |
| `ThreadPool.Equilibrium` | examples/server.c:815-886 | Over any order of events the counters count the waiting and serving threads and keep the limits, and while creation never fails there are min_wait_threads waiting or max_threads in all |
| `ThreadPool.Server.StartThreads` | examples/server.c:815-843 | The pool starts exactly if for each socket one of its max_wait_threads creations succeeds; as many threads wait there as creations succeeded |
| `ThreadPool.Server.StartSocket` | examples/server.c:832-841 | In place: the threads of one socket, as many as creations succeed |
| `ThreadPool.Server.Step` | examples/server.c:848-886 | In place: the counters and threads change as the specified step |

## Left out

- Addresses of queue nodes that are reused after free, and stale local pointers to freed nodes: addresses are fresh, and free is an event.
- `ArrayQ`, `st_stack_push`, `st_stack_pop` and the commented-out queue: their code does not support a concurrent specification.
- The event object of `st_msg_queue_t::notify`, and the destructors of both queues.
- Fair schedules, and that one thread's call ends while others go on making calls: the queue is lock-free, not wait-free.
- `_st_active_count` and the exit of the process when it comes to zero; stacks, private data and their destructors; the primordial flag.
- `st_cond_destroy` and `st_mutex_destroy` called by the program, and a thread created at the address of a freed one.
- The `os == TRUE` form of `_st_poll`, whose descriptors do not go through the table of sockets, and the silent limit of FD_SET on the size of an fd_set.
- Linearizable.MemorySafety: says nothing of a local pointer to a node that another thread has freed since; addresses are fresh, and free is an event.
- Real sockets, select, setjmp contexts and signals: they are parameters of the steps, or scripts.
- The time cache of `st_time`, and time values that wrap around: the clock does not go back.
- The circular lists of the scheduler are sequences; that no thread is on two of them, which makes this right, is proved. What a loop over them sees while they change is therefore not modelled.
- VirtualProcessor.Vp.VpIdle: notified requests are all taken off the I/O queue before their threads are woken, where the source does both for one request after the other; the state at the end is the same.
- Parsing in UTF-8 mode except for character references: byte order marks, multi-byte names and lead bytes in text.
- Row and column numbers, the error position, user data, STL streaming, printing to a FILE, and `condenseWhiteSpace` set to false.
- The parser makes trees as values; how nodes are linked while they are parsed is not modelled, except for the list edits in `ChildList.dfy`.
- ChildList.TiXmlNode.Clone: copies the node's value and kind but not its subtree, since only the links of one list are at issue.
- XmlRoundTrip.RoundTrip: a document has at least one node and no text beside its elements, and text has no space at its ends nor two in a row, because other text is changed by the parser.
- XmlComplete.ReadsDocument: the grammar has no ampersand that starts no reference, and no text beside the top-level elements; what the parser does with other input is said by `XmlReference` and `XmlErrors` case by case.
- ShortWrites.Socket.Write: an endless run of interrupts is not a script; after the last event the socket fails.
- `ThreadPool.dfy` has no accept mutex, no sessions and no signals; a thread is switched away only in st_accept and in its session.
- The copies of TinyXML in `server/`, `examples/txctl.c`, the database, proxy and resolver code.
