# ezRTOS kernel: a verified model

This project models two components of the small real-time operating system in `p2/rtos` and proves
properties of them.

**The kernel as a transition system.** A state (`KernelState.KState`) is the ordered task list with all
descriptors, the current and last dispatched task, the pending ticks, and the mutexes, semaphores,
mailboxes and event groups with their FIFO wait queues. A step (`MainLoop.Step`) is one kernel entry
(request handler, then dispatch if asked for) or one timer interrupt. `Requests` and `Scheduler` give one
specification function per handler. On top of them stand the global invariants and the theorems over
whole runs.

**The kernel as objects.** `Kernel` declares the descriptors and kernel objects as classes with the
source's fields. `KernelTasks`, `KernelMutex`, `KernelSemaphore`, `KernelEvents`, `KernelMailbox` and
`KernelScheduler` hold the handlers as methods that update these objects in place, with the source's
loops and recursion. Each method is proved to change the view of the whole kernel exactly as its
specification function says. `KernelMain` joins them: boot, request switch and main loop pass through
exactly the states of the transition system, so that every theorem about runs is one about the objects.

**The heap allocator.** `HeapSegments` describes the heap as a sequence of segments, `HeapLaws` proves
what callers rely on, `HeapMemory` relates segments to the headers and links in memory, `HeapPayloads`
shows that payloads are spared, `HeapAllocator`
is `kmalloc` and `kfree` in place, and `HeapRuns` states the results over runs.

**Linked structures.** `Queue` and `PtrList` are the linked queue and list in place. The kernel modules use
sequences where the source uses these two; `Queue` and `PtrList` show that the linked forms behave as
sequences.

**What callers are told.** `Effects`, `Outcomes`, `MailAnswers`, `SemaphoreAnswers`, `EventMeaning` and `Refusals`
say in terms of the state alone, without the specification functions of the handlers, what each request
comes to: result, error, who is woken, who is left alone. `Yielding` and `Starvation` do the same for dispatches and
ticks, and `Booting` for the creations before OS_Start.

`Records`, `PriorityLaw` and `ReverseOrder` follow a task's priority through whole runs; `Witnesses` evaluates
two runs from boot that go wrong.

Terms. A run is *tame* if only `Task_Sleep` sets a timer, and a nonzero one, semaphore amounts are not
negative and priorities are at most `LOWEST_PRIORITY`. History fields that no branch reads (`base`, `held`,
`orderly`, `delivered`, `clock`) serve only to state properties.

`dafny verify dfyconfig.toml` checks the whole project.

## Where the program departs from its intent

- A task that suspends itself goes on running in state SUSPENDED, because no switch is requested
  (`p2/rtos/kernel/task/task.c:124-129`). `Running.StepKeepsOneRunning` shows that this is the only way in
  which "exactly one RUNNING task" fails.
- Unlocking restores the priority saved by that mutex, so releasing mutexes out of order can leave a raised
  or wrong priority (`p2/rtos/kernel/mutex/mutex.c:250`). `PriorityLaw.PriorityIsLastAsked` says exactly which
  priority a task ends up with, and so when it is that of its creation; `Witnesses.PriorityNeverRestored` is a
  run in which it is not.
- A contended lock changes the waiter's priority and the ceiling, never the present owner's priority
  (`p2/rtos/kernel/mutex/mutex.c:175-181`). Nothing is claimed about boosting the owner.
- Starvation prevention keeps the candidate with the fewest ticks (`p2/rtos/kernel/kernel.c:194`), although the
  comment above it says highest. `Selection.SelectMeaning` states what the code does.
- Timeouts are compared in 16 bits (`p2/rtos/kernel/kernel.c:133`); sleeps of 32768 ticks or more end at once
  (`Clock.LongSleepWakesAtOnce`, `Witnesses.LongSleepEnds`).
- Ticks pending when a task goes to sleep are charged to it. The sleep theorems count handled ticks.
- A mailbox of capacity 0 never delivers a message (`MailOrder.NoCapacityNoDelivery`).
- `kmalloc` unlinks an exact piece correctly only at the list head (`p2/rtos/kernel/others/kmalloc.c:162`), and `kfree`
  keeps a stale predecessor after absorbing the list head (`p2/rtos/kernel/others/kmalloc.c:312-318`). The field
  `corrected` of `Allocator` selects the text as written or with these two lines corrected. The contracts say
  for both when the heap stays well formed; two witness methods show short runs that break the text as written.
- The drain loop of a semaphore reads through the head of an empty queue
  (`p2/rtos/kernel/semaphore/semaphore.c:149-165`). It is modelled as stopping there.
- After the termination of a task that is not the list head, `Last_Dispatched` points to a freed node
  (`p2/rtos/kernel/task/task.c:187`). The model lets it become any live position, chosen by the environment.

## Model

| member | source | states |
|---|---|---|
| `KernelMain.Operate` | p2/rtos/kernel/kernel.c:313-498 | The kernel from power-on, as objects on the heap: for every configuration and every run its state is the one of the transition system, and in a tame run that state satisfies all invariants and `QueuesAgree`. |
| `KernelMain.Boot` | p2/rtos/kernel/kernel.c:507-568 | Reset, the creations of main() and the first dispatch, in place, give exactly the start state of the transition system, or no state if nothing can run. |
| `KernelMain.Run` | p2/rtos/kernel/kernel.c:321-498 | The main loop over any events: the objects pass through exactly the states of `Exec`, and stop exactly when it has none. |
| `KernelMain.Step` | p2/rtos/kernel/kernel.c:321-498 | One kernel entry or timer interrupt in place equals one step of the transition system. (When a step dispatches, and whom: `Yielding.SwitchMeaning`, `Yielding.YieldMeaning`.) |
| `KernelMain.HandleRequest` | p2/rtos/kernel/kernel.c:340-486 | The request switch: every request changes the whole kernel state exactly as its specification says, and only newly created objects join it. |
| `KernelMain.IssueRequest` | p2/rtos/kernel/kernel.c:330-337 | The caller's arguments and timeout are stored in its descriptor, and the error code is cleared. |
| `KernelMain.Switch` | p2/rtos/kernel/kernel.c:489-493 | Dispatch and clearing of the switch request, or false while no task gets ready. |
| `ShapeProofs.HandleShape` | p2/rtos/kernel/kernel.c:340-486 | Whatever the request, the task list stays duplicate-free and lists exactly the living tasks, PIDs stay dense, queues hold known tasks, a mutex is owned exactly while its count is positive, and it has waiters only while owned. |
| `ShapeProofs.DispatchShape` | p2/rtos/kernel/kernel.c:212-286 | Dispatch keeps all of this. |
| `MainLoop.ConfigureShape` | p2/rtos/kernel/kernel.c:507-568 | Every configuration before OS_Start has this shape, with no current task. |
| `Running.StepKeepsOneRunning` | p2/rtos/kernel/kernel.c:227-228 | A step leaves exactly the current task RUNNING if and only if it is not a request of the current task to suspend itself. |
| `Running.AlwaysOneRunning` | p2/rtos/kernel/kernel.c:268-271 | Over every run without self-suspension, timed or not, exactly the current task is RUNNING whenever the kernel returns. |
| `Running.StartRunning` | p2/rtos/kernel/kernel.c:316-317 | The first dispatch leaves exactly one task RUNNING. |
| `Effects.StubStores` | p2/rtos/os.c:31-61 | Entering the kernel stores the arguments of a call that has any, and the timeout of one that can wait or sleep, changes nothing else of any task, and clears the error. |
| `Refusals.ErrorMeaning` | p2/rtos/kernel/kernel.c:334-483 | Every tame request in a state that satisfies the invariants ends with exactly the error that a table over all requests gives: full, missing, not the owner, wrong state, invalid, or none; and a request that reports an error has changed nothing but the caller's own result. |
| `Yielding.SwitchMeaning` | p2/rtos/kernel/kernel.c:488-493 | After any request, a switch is asked for if and only if the caller now sleeps, waits or has terminated, or has passed a mutex on to a task that waited for it; in the latter case the caller is READY. |
| `TameRuns.AlwaysSound` | p2/rtos/kernel/kernel.c:321-498 | From boot on, in every run in which only sleeping sets timers: queues and states agree, timers belong to sleepers, semaphores and mailboxes serve whoever can be served, ceilings bound their waiters, and saved priorities are right. |
| `TameRuns.StepSound` | p2/rtos/kernel/kernel.c:321-498 | Each step keeps these invariants. |
| `WaitQueues.QueuesAlwaysAgree` | p2/rtos/kernel/mutex/mutex.c:172-185 | In every reachable state of a tame run each queue entry is a live task in the matching wait state for that object and not the current task; each waiting task is in the queue it names; no task is queued twice anywhere. |
| `WaitQueues.EntriesWait` | p2/rtos/kernel/mailbox/mailbox.c:194-197 | The first half, for one entry of one queue. |
| `WaitQueues.WaitersQueued` | p2/rtos/kernel/semaphore/semaphore.c:197-208 | The second half, for one waiting task: one queue, one position. |
| `WaitQueues.NoStaleHead` | p2/rtos/kernel/mailbox/mailbox.c:237-244 | In a state that satisfies the invariants no give, send or receive reports a queue head in the wrong state. (An unlock cannot report it either, since its branch raises no error; see HeadAwaitsMutex.) |
| `WaitQueues.NeverStaleFromBoot` | p2/rtos/kernel/semaphore/semaphore.c:152-158 | The same from boot, for every request after every tame run. |
| `WaitQueues.HeadAwaitsMutex` | p2/rtos/kernel/mutex/mutex.c:202-209 | In a state that satisfies the invariants the head of a mutex queue is waiting for that mutex, and a full unlock makes it owner and ready. |
| `WaitQueues.HeadServedFromBoot` | p2/rtos/kernel/mutex/mutex.c:192-214 | The same from boot, at every full unlock after every tame run. |
| `KernelTasks.CreateDirect` | p2/rtos/kernel/task/task.c:24-77 | In place: a new READY descriptor with the next PID at the end of the list, or MAX_OBJECT_ERR at 16 tasks. |
| `KernelTasks.CreateTask` | p2/rtos/kernel/task/task.c:81-94 | The same as a request; the PID, or 0, is returned to the caller. |
| `KernelTasks.Suspend` | p2/rtos/kernel/task/task.c:97-131 | In place: only READY, RUNNING and SLEEPING tasks are suspended, and the state to resume to is saved; both error cases. |
| `KernelTasks.Resume` | p2/rtos/kernel/task/task.c:134-169 | In place: only a suspended task is resumed, to the saved state; both error cases. |
| `KernelTasks.Sleep` | p2/rtos/kernel/task/task.c:172-177 | In place: the current task sleeps and a switch is requested. |
| `KernelTasks.Terminate` | p2/rtos/kernel/task/task.c:180-189 | In place: the current task is dead and off the list, all others keep their order; Last_Dispatched moves to the head or to an arbitrary position. |
| `KernelTasks.FindProcess` | p2/rtos/kernel/kernel.c:36-54 | The listed task with that PID, or none. |
| `Outcomes.TaskCreateAdds` | p2/rtos/kernel/task/task.c:24-94 | A request to create a task gives it the next PID, READY with the given priority at the end of the list, and the caller reads that PID; with 16 tasks on the list there is an error, the caller reads 0, and nothing else changes. |
| `Outcomes.SuspensionMeaning` | p2/rtos/kernel/task/task.c:97-169 | Suspending a READY, RUNNING or SLEEPING task makes it SUSPENDED and remembers what it was; resuming a SUSPENDED one brings that back, a RUNNING one as READY; in every other case only the error, one of two, is new; no other task changes. |
| `Outcomes.ResumeUndoesSuspend` | p2/rtos/kernel/task/task.c:117-163 | A READY or SLEEPING task that is suspended and then resumed by another task is in its old state again. |
| `Outcomes.SleepMeaning` | p2/rtos/kernel/task/task.c:172-177 | The caller alone changes: it sleeps, its timer set to what it asked for, and a switch is asked for. |
| `Outcomes.TerminateMeaning` | p2/rtos/kernel/task/task.c:180-189 | The caller alone is dead and off the list, which keeps its order; a switch is asked for; if the caller was the list head, the next scan starts behind the new head. |
| `Outcomes.CreationsGive` | p2/rtos/kernel/semaphore/semaphore.c:44-100 | A request to create a mutex, semaphore, event group or mailbox returns its number and appends it, free, empty or with its initial count, which is 0 or 1 when binary; with eight of the kind there is an error and 0 is returned; nothing else changes. |
| `Booting.ConfigureMeaning` | p2/rtos/kernel/task/task.c:24-77 | After any sequence of creations by main() the tasks are 1, 2, 3 and so on, up to 16, READY with the priorities given, in order; likewise the first eight objects of each kind with their initial contents. |
| `Booting.FirstTask` | p2/rtos/kernel/kernel.c:316-317 | OS_Start runs the first created of the most urgent tasks. |
| `KernelMutex.LockMutex` | p2/rtos/kernel/mutex/mutex.c:140-189 | In place: acquisition, recursion or queueing with saved priority and lowered ceiling; the two lookup errors. |
| `KernelMutex.UnlockMutex` | p2/rtos/kernel/mutex/mutex.c:218-264 | In place: refusal, count, full release, or hand-over to the head of the queue. |
| `KernelMutex.LockFromQueue` | p2/rtos/kernel/mutex/mutex.c:192-214 | In place: the head of the queue becomes owner with its saved priority kept for later, and both it and the releasing task become READY. |
| `KernelMutex.CreateMutexObject` | p2/rtos/kernel/mutex/mutex.c:59-96 | In place: a new free mutex with the next id, or MAX_OBJECT_ERR at 8. |
| `Mutexes.LockSound` | p2/rtos/kernel/mutex/mutex.c:140-189 | Lock keeps all global invariants. |
| `Mutexes.UnlockSound` | p2/rtos/kernel/mutex/mutex.c:218-264 | Unlock keeps all global invariants, in whatever order mutexes are released. |
| `MutexLaws.CountOfTenure` | p2/rtos/kernel/mutex/mutex.c:155-165 | From boot, over every run, timed or not: `lock_count` is the locks minus the unlocks that the present owner has made in this tenure, counting the lock that it was queued with; a tenure ends with as many unlocks as locks; a free mutex has count 0. |
| `MutexLaws.LocksAreAccounted` | p2/rtos/kernel/mutex/mutex.c:155-189 | Over every run, timed or not, and over all tenures: lock count plus number of waiters changes by the lock requests minus the unlocks of the then owners, so no request is lost or counted twice. |
| `MutexLaws.MutualExclusion` | p2/rtos/kernel/mutex/mutex.c:155-189 | From boot, in every tame run: owned exactly while locked, waited for only while owned, never by the owner; exactly the owner holds the mutex; no waiter is more urgent than the ceiling. |
| `MutexLaws.FirstComeFirstServed` | p2/rtos/kernel/mutex/mutex.c:182-185 | Over every tame run: tasks that had to wait, in order of arrival, are those granted the mutex followed by those still waiting. |
| `MutexLaws.CeilingIsMinimum` | p2/rtos/kernel/mutex/mutex.c:175-181 | Over every run: `highest_priority` is the least priority among the last uncontended acquirer and all who had to queue since. |
| `MutexLaws.NewOwnerMostUrgent` | p2/rtos/kernel/mutex/mutex.c:209 | At hand-over the new owner is READY and no remaining waiter has a more urgent priority. |
| `PriorityLaw.PriorityIsLastAsked` | p2/rtos/kernel/mutex/mutex.c:155-189 | The exact law, from boot, over every tame run and any order of releases: a task that owns and awaits no mutex has the priority with which it had asked for the mutex that it fully released last (at first, its priority at creation); so it has its priority at creation if and only if it had asked for that mutex with it. |
| `PriorityLaw.StepAgrees` | p2/rtos/kernel/mutex/mutex.c:192-264 | Each step keeps the log of what a task asked for in agreement with what owned mutexes and queues have saved for it. |
| `Records.StepRecord` | p2/rtos/kernel/mutex/mutex.c:175-250 | Over any step, timed or not, the priority of every task changes exactly by its own contended lock (to the ceiling), its own full unlock (to the saved priority), or its becoming owner at a hand-over (to the ceiling). |
| `ReverseOrder.BaseRestoredFromBoot` | p2/rtos/kernel/mutex/mutex.c:250 | From boot, over every tame run in which a task releases its mutexes in the reverse order of acquisition: whenever it owns and awaits no mutex it has its priority at creation, however many hand-overs raised it, and in whatever order other tasks released theirs. |
| `ReverseOrder.StepOrderly` | p2/rtos/kernel/mutex/mutex.c:245-261 | Such a release, and any other step, keeps the record of safe releases. |
| `MutexLaws.BaseRestored` | p2/rtos/kernel/mutex/mutex.c:250 | A sufficient condition, over every tame run: a task that owns and awaits no mutex has its priority at creation if each of its own full releases was safe. (The exact law is PriorityIsLastAsked.) |
| `MutexLaws.ReverseOrderIsSafe` | p2/rtos/kernel/mutex/mutex.c:250 | Releasing the last acquired mutex is safe. |
| `MutexLaws.SafeReleaseIsExact` | p2/rtos/kernel/mutex/mutex.c:245-261 | A full release by a task whose releases were safe so far keeps it so that its oldest mutex has saved its priority at creation (or, with no mutex left, that it has that priority) if and only if the release is safe: the released mutex is not the oldest held, or the next one has saved the same priority. |
| `MutexLaws.OutOfOrderRelease` | p2/rtos/kernel/mutex/mutex.c:250 | The failing family: after locking a then b and releasing a then b, the priority at creation is back if and only if b had saved it. |
| `Witnesses.FamilyIsReached` | p2/rtos/kernel/mutex/mutex.c:245-261 | A run from boot into that family: a task of priority 5 is handed its first mutex with priority 2 and locks a second one. |
| `Witnesses.PriorityNeverRestored` | p2/rtos/kernel/mutex/mutex.c:250 | The rest of that run: the task releases both, owns and awaits nothing, and runs on with priority 2 instead of 5. |
| `KernelSemaphore.Get` | p2/rtos/kernel/semaphore/semaphore.c:171-213 | In place: clamping for binary semaphores, taking, or queueing up. |
| `KernelSemaphore.Give` | p2/rtos/kernel/semaphore/semaphore.c:216-243 | In place: clamped count, then serving of the queue; the stale-head error and the lookup error. (What that comes to: `SemaphoreAnswers.GiveAnswers`.) |
| `KernelSemaphore.GetFromQueue` | p2/rtos/kernel/semaphore/semaphore.c:142-168 | In place: the drain loop serves heads while the count suffices and stops on an empty queue. |
| `KernelSemaphore.Create` | p2/rtos/kernel/semaphore/semaphore.c:44-100 | In place: a new semaphore, with the initial count clamped when binary, or MAX_OBJECT_ERR. |
| `Semaphores.DrainMeaning` | p2/rtos/kernel/semaphore/semaphore.c:142-168 | The drain serves the longest prefix of the queue that the count pays for in order, wakes exactly those tasks and subtracts exactly their amounts. |
| `Semaphores.GiveMeaning` | p2/rtos/kernel/semaphore/semaphore.c:232-242 | A give wakes such a prefix and leaves the count below what the next head wants. |
| `Semaphores.GetSound` | p2/rtos/kernel/semaphore/semaphore.c:171-213 | Get keeps all global invariants: in particular the head always waits for more than there is. |
| `Semaphores.GiveSound` | p2/rtos/kernel/semaphore/semaphore.c:216-243 | Give keeps all global invariants. |
| `SemaphoreLaws.GrantsAreCovered` | p2/rtos/kernel/semaphore/semaphore.c:189-240 | Over every tame run, for a counting semaphore: count + units granted = initial count + units given, where granted are the amounts taken at once and those of the waiters that a give served. |
| `SemaphoreLaws.UnitsAreConserved` | p2/rtos/kernel/semaphore/semaphore.c:189-213 | Over every tame run: count minus what the queue waits for changes by units given minus units asked for. |
| `SemaphoreLaws.HeadIsNeverStranded` | p2/rtos/kernel/semaphore/semaphore.c:142-165 | From boot, in every tame run: the count is never negative, at most 1 when binary, and always less than what the head of the queue waits for. |
| `SemaphoreAnswers.GiveAnswers` | p2/rtos/kernel/semaphore/semaphore.c:216-243 | In a state that satisfies the invariants a give serves the first k waiters: they alone become READY, count after plus the amounts they had asked for is count before plus the amount, of which a binary semaphore keeps at most one unit in all, and the rest does not suffice for the next waiter. |
| `SemaphoreAnswers.BinaryGive` | p2/rtos/kernel/semaphore/semaphore.c:232-240 | So a give of one or more units to a binary semaphore makes it available if nobody waits, and otherwise its first waiter leaves the queue, READY. |
| `SemaphoreAnswers.GetAnswers` | p2/rtos/kernel/semaphore/semaphore.c:189-208 | A get takes its amount (at most one unit of a binary semaphore) if the count suffices; otherwise the caller, and nobody else, waits at the end of the queue with that amount stored, and a switch is asked for. |
| `SemaphoreAnswers.BinaryUnitsAreConserved` | p2/rtos/kernel/semaphore/semaphore.c:189-240 | Over every tame run, for a binary semaphore: count + units taken = initial count + the number of gives that found it empty. |
| `KernelMailbox.SendInternal` | p2/rtos/kernel/mailbox/mailbox.c:176-222 | In place, mutually recursive: refusal, blocking, or storing and waking receivers, exactly as specified; terminates because the two queues shrink. |
| `KernelMailbox.RecvInternal` | p2/rtos/kernel/mailbox/mailbox.c:303-342 | In place: empty result, blocking of the current task, or taking the oldest mail and letting senders in. |
| `KernelMailbox.SendFromQueue` | p2/rtos/kernel/mailbox/mailbox.c:226-256 | In place: blocked senders deposit their mail while there is room. |
| `KernelMailbox.RecvFromQueue` | p2/rtos/kernel/mailbox/mailbox.c:345-373 | In place: blocked receivers take mail while there is any. |
| `KernelMailbox.Send` | p2/rtos/kernel/mailbox/mailbox.c:259-292 | In place: the request; nothing is returned while the operation is pending. (What is returned otherwise: `MailAnswers.SendAnswers`.) |
| `KernelMailbox.Recv` | p2/rtos/kernel/mailbox/mailbox.c:376-405 | In place: the request; nothing is returned while the operation is pending. (What is returned otherwise: `MailAnswers.RecvAnswers`.) |
| `KernelMailbox.Check` | p2/rtos/kernel/mailbox/mailbox.c:413-431 | In place: the number of stored mails. |
| `KernelMailbox.Create` | p2/rtos/kernel/mailbox/mailbox.c:56-98 | In place: a new empty mailbox, or MAX_OBJECT_ERR. |
| `Mailboxes.SendRefines` | p2/rtos/kernel/mailbox/mailbox.c:176-222 | In settled states the recursion through four procedures is one simple step: refuse, queue up, store, or hand to the first waiting receiver. |
| `Mailboxes.RecvRefines` | p2/rtos/kernel/mailbox/mailbox.c:303-342 | Likewise: refuse, queue up, or take the oldest mail and refill from the first blocked sender. |
| `Mailboxes.SendHandsOver` | p2/rtos/kernel/mailbox/mailbox.c:206-219 | A message sent while receivers wait reaches the first of them, who alone is woken. |
| `Mailboxes.RecvRefills` | p2/rtos/kernel/mailbox/mailbox.c:327-341 | A receive from a full mailbox takes the oldest mail and stores that of the first blocked sender, who alone is woken. |
| `MailAnswers.SendAnswers` | p2/rtos/kernel/mailbox/mailbox.c:176-289 | The request, in a state that satisfies the invariants: a nonblocking send to a full mailbox changes nothing and returns 0; a blocking one waits at the end of the queue, its result unwritten; with room it returns 1, and the message is stored or handed to the first waiting receiver, who alone is woken. |
| `MailAnswers.RecvAnswers` | p2/rtos/kernel/mailbox/mailbox.c:303-405 | The request: a nonblocking receive from an empty mailbox returns 0 and no message; a blocking one waits, its result unwritten; otherwise it returns 1 with the oldest message, and the first blocked sender, if any, deposits its own and is woken. |
| `MailAnswers.OtherAnswers` | p2/rtos/kernel/mailbox/mailbox.c:413-431 | A check returns the number of stored mails; without such a mailbox every mailbox call returns 0 with an error and changes nothing else. |
| `Mailboxes.SendSound` | p2/rtos/kernel/mailbox/mailbox.c:259-292 | Send keeps all global invariants: receivers wait only on an empty mailbox, senders only on a full one. |
| `Mailboxes.RecvSound` | p2/rtos/kernel/mailbox/mailbox.c:376-405 | Receive keeps them too. |
| `MailOrder.FirstInFirstOut` | p2/rtos/kernel/mailbox/mailbox.c:176-255 | Over every tame run: delivered, then stored, then blocked messages are exactly the accepted ones in request order. |
| `MailOrder.FirstInFirstOutFromBoot` | p2/rtos/kernel/mailbox/mailbox.c:303-342 | The same from boot: nothing is lost, duplicated or overtaken. |
| `MailAnswers.AcceptedIffTold` | p2/rtos/kernel/mailbox/mailbox.c:280-283 | From boot, after every tame run: a nonblocking send returns 1 if and only if its message is among the accepted ones of FirstInFirstOut, and otherwise 0. |
| `MailAnswers.DeliveredIffTold` | p2/rtos/kernel/mailbox/mailbox.c:397-400 | And a nonblocking receive returns 1 if and only if a message is delivered, the one that the caller then holds; otherwise 0. |
| `MailOrder.NobodyWaitsNeedlessly` | p2/rtos/kernel/mailbox/mailbox.c:181-219 | From boot, in every tame run: no more mails than the capacity, receivers only on an empty mailbox, senders only on a full one, and both only without capacity. |
| `MailOrder.NoCapacityNoDelivery` | p2/rtos/kernel/mailbox/mailbox.c:181-189 | A mailbox without capacity never delivers anything, in any tame run. |
| `KernelEvents.SetBits` | p2/rtos/kernel/event/event_group.c:112-162 | In place: the bits are set, and the loop over the task list wakes exactly the waiters whose condition now holds. (Bit by bit: `EventMeaning.SetMeaning`.) |
| `KernelEvents.ClearBits` | p2/rtos/kernel/event/event_group.c:164-183 | In place: exactly those bits are cleared. |
| `KernelEvents.WaitBits` | p2/rtos/kernel/event/event_group.c:185-218 | In place: the task blocks exactly if its condition does not hold; a missing group raises no error. (Bit by bit: `EventMeaning.WaitMeaning`.) |
| `KernelEvents.Create` | p2/rtos/kernel/event/event_group.c:39-69 | In place: a new group without events, or MAX_OBJECT_ERR. |
| `EventGroups.NeverLosesWakeUp` | p2/rtos/kernel/event/event_group.c:131-155 | From boot, in every run, timed or not: no task waits on an existing group whose bits already satisfy its condition. |
| `EventGroups.SetBitsKeeps` | p2/rtos/kernel/event/event_group.c:143-155 | Set re-examines every waiter of every group. |
| `EventGroups.ClearIsSafe` | p2/rtos/kernel/event/event_group.c:179 | Clearing bits cannot make an any- or all-condition true. |
| `EventGroups.WaitBitsKeeps` | p2/rtos/kernel/event/event_group.c:201-213 | Wait blocks only while the condition is false. |
| `EventMeaning.SatisfiedMeans` | p2/rtos/kernel/event/event_group.c:150-153 | The comparison of masked bits means, bit by bit: for an all-wait, every awaited bit is set; for an any-wait, some awaited bit is set, or none is awaited. |
| `EventMeaning.SetMeaning` | p2/rtos/kernel/event/event_group.c:131-155 | A set request adds exactly its bits; a task waiting on that group becomes READY if and only if its condition, read bit by bit, holds of the new bits; nothing else of it changes, and no other task does. |
| `EventMeaning.ClearMeaning` | p2/rtos/kernel/event/event_group.c:179 | A clear request removes exactly its bits and affects no other task. |
| `EventMeaning.WaitMeaning` | p2/rtos/kernel/event/event_group.c:201-213 | A wait request blocks the caller, with its timeout running, if and only if its condition, read bit by bit, fails now; otherwise it comes back at once; nobody else is affected. |
| `EventMeaning.WaitMissing` | p2/rtos/kernel/event/event_group.c:195-199 | A wait on a missing group comes back at once, without an error. |
| `KernelScheduler.TickHandler` | p2/rtos/kernel/kernel.c:108-152 | In place: the loop ages every listed task once by all pending ticks. (What ageing is: `Starvation.TickMeaning`, `Starvation.TicksCount`.) |
| `KernelScheduler.AgeTask` | p2/rtos/kernel/kernel.c:122-148 | One pass of the loop, with the unsigned difference tested as signed. |
| `Starvation.TickMeaning` | p2/rtos/kernel/kernel.c:118-149 | In plain integers below 32768: handling n ticks adds them to the starvation count of each listed READY task; a running timeout goes down by n, or it ends and the task is READY with result 0, or set to resume as READY if suspended; nothing else changes. |
| `Starvation.TicksCount` | p2/rtos/kernel/kernel.c:122-126 | Whatever the timeouts: n ticks add exactly n modulo 2^16 to every READY task, which stays READY, and nothing to any other. |
| `Starvation.StarvationIsWaited` | p2/rtos/kernel/kernel.c:122-126 | From boot, in every run: the starvation count of a task is the number of ticks handled while it was READY since it was created or last dispatched, modulo 2^16. |
| `Starvation.LongWaitersAreSeen` | p2/rtos/kernel/kernel.c:189-206 | From boot: a task that has waited, READY, for STARVATION_MAX and less than 2^16 handled ticks since it last ran is starving in the next scan, which then selects the first starving task with the fewest ticks, or it is strictly more urgent than every READY task visited before it. |
| `Starvation.NoTickIsLost` | p2/rtos/kernel/kernel.c:108-152 | Over every run in which the kernel need not idle and the pending ticks fit a word: ticks handled plus ticks pending grow by exactly the number of timer interrupts. |
| `Clock.WrapIsExact` | p2/rtos/kernel/kernel.c:133-134 | The 16-bit test agrees with the integers if and only if the true difference fits a signed 16-bit integer. |
| `Clock.LongSleepWakesAtOnce` | p2/rtos/kernel/kernel.c:133-148 | The failing family: a sleep with 32768 or more ticks left ends at the next tick handling. |
| `Witnesses.LongSleepEnds` | p2/rtos/kernel/kernel.c:133-148 | A run from boot: a task asks for 40000 ticks of sleep, and runs again after one tick. |
| `Clock.TicksBatch` | p2/rtos/kernel/kernel.c:108-152 | Handling a ticks and then b ticks is handling a + b at once, starvation counts aside. |
| `Clock.SleepLasts` | p2/rtos/kernel/kernel.c:129-148 | From boot and from the request on: a task asks to sleep for t ticks, 0 < t < 32768; as long as fewer than t have been handled since, those of the request itself included, it is asleep or suspended in its sleep with exactly the rest to go, through any run in which no task suspends itself and no batch of ticks reaches 32768. |
| `Clock.SleepEnds` | p2/rtos/kernel/task/task.c:172-177 | And the step that handles the t-th tick leaves it ready, dispatched, or set to resume as ready. |
| `Clock.SleepBegins` | p2/rtos/kernel/kernel.c:212-286 | The step of the request: ticks that were pending or arrive while the kernel idles are already counted against the sleep. |
| `Clock.NeverWakesEarly` | p2/rtos/kernel/kernel.c:129-148 | The same for a task that already sleeps with T < 32768 ticks to go, through any run in which no task suspends itself and no batch of ticks reaches 32768. |
| `Clock.WakesOnTime` | p2/rtos/kernel/kernel.c:143-148 | Under the same two guards, the step that handles the T-th tick wakes it. |
| `Clock.TimersBelongToSleepers` | p2/rtos/kernel/kernel.c:129-148 | From boot, in every tame run: a timer runs exactly for sleeping tasks and for those suspended in their sleep; no task sleeps without one. |
| `KernelScheduler.SelectNext` | p2/rtos/kernel/kernel.c:161-209 | In place: the circular scan finds the position that the specification selects. |
| `KernelScheduler.WaitForReady` | p2/rtos/kernel/kernel.c:241-267 | In place: the idle loop, which handles ticks once in 100 rounds, stops exactly in the state in which some task is ready, and misses none. |
| `KernelScheduler.Dispatch` | p2/rtos/kernel/kernel.c:212-286 | In place: requeueing, ticks, selection, idling and the switch, with the whole state it leaves. |
| `Selection.SelectMeaning` | p2/rtos/kernel/kernel.c:176-208 | The selected task, declaratively: the first of the READY tasks that starve without being a strict running minimum and have the fewest ticks; otherwise the first READY task of least priority number; nothing only if none is READY. |
| `Selection.VisitsEachOnce` | p2/rtos/kernel/kernel.c:176 | The scan visits every list position exactly once, starting after Last_Dispatched. |
| `Yielding.YieldMeaning` | p2/rtos/kernel/kernel.c:474-478 | Every yield, or timer preemption, that returns has dispatched: from the state with the caller READY and the ticks handled, the first starving task with the fewest ticks, or else the first READY one of the best priority in scan order, runs. |
| `Yielding.RunningYields` | p2/rtos/kernel/kernel.c:226-234 | A yield of a RUNNING task always returns, and exactly the pending ticks are handled before the choice. |
| `Yielding.EqualsTakeTurns` | p2/rtos/kernel/kernel.c:183-188 | While nobody starves, a RUNNING task that yields to another READY task at least as urgent loses the processor to one of the most urgent, and is READY. |
| `Selection.FavouredIsNearest` | p2/rtos/kernel/kernel.c:184-188 | A task at the best READY priority is selected, or another one nearer to Last_Dispatched is. |
| `Selection.BoundedWaiting` | p2/rtos/kernel/kernel.c:176-188 | Round robin: a task that stays READY at the best priority while nobody starves is dispatched within as many dispatches as there are tasks, whatever the others do; every yield and every call that asks for a switch counts as one. |
| `Selection.FirstDispatchSucceeds` | p2/rtos/kernel/kernel.c:549-568 | If main() created any task, the first dispatch finds one to run. |
| `Queue.Queue.Link` | p2/rtos/kernel/others/Queue.c:55-64 | A new element is appended at the tail; the linked nodes stand for the old sequence plus one value. |
| `Queue.Queue.Enqueue` | p2/rtos/kernel/others/Queue.c:66-94 | Appends a value of the right kind; refuses one of the wrong kind. |
| `Queue.Queue.Unlink` | p2/rtos/kernel/others/Queue.c:101-121 | The oldest element is cut off the chain; head, tail and count follow, also when it was the last. |
| `Queue.Queue.Dequeue` | p2/rtos/kernel/others/Queue.c:123-151 | The oldest value leaves, or 0 from an empty queue. |
| `Queue.Queue.Peek` | p2/rtos/kernel/others/Queue.c:159-182 | The oldest value, or 0, and no change. |
| `Queue.FirstInFirstOut` | p2/rtos/kernel/others/Queue.c:55-151 | For any interleaving: what left followed by what waits is what was there followed by what was accepted. |
| `Queue.Perform` | p2/rtos/kernel/others/Queue.c:55-151 | The linked queue returns and keeps exactly what the sequence does, for any interleaving of operations. |
| `PtrList.List.CNext` | p2/rtos/kernel/others/PtrList.c:12-15 | The next entry, cyclically. |
| `PtrList.List.FindTail` | p2/rtos/kernel/others/PtrList.c:17-24 | The last entry. |
| `PtrList.List.Add` | p2/rtos/kernel/others/PtrList.c:27-47 | Appends, also to the embedded empty head. |
| `PtrList.List.Find` | p2/rtos/kernel/others/PtrList.c:49-55 | The entry of the first occurrence, or none. |
| `PtrList.List.RemoveHead` | p2/rtos/kernel/others/PtrList.c:61-78 | Removing the head by copying its successor deletes exactly the first item. |
| `PtrList.List.Remove` | p2/rtos/kernel/others/PtrList.c:57-91 | Deletes exactly the item of that entry and keeps the order of all others, or reports that it is not listed. |
| `PtrList.AddThenRemove` | p2/rtos/kernel/others/PtrList.c:27-91 | Adding an item, also to an empty list, and removing its entry gives back the list. |
| `HeapAllocator.Allocator.Init` | p2/rtos/kernel/others/kmalloc.c:97-112 | An empty heap between the two bounds, or refusal if they are reversed; well formed if and only if the heap does not reach down to address 0, which is NULL. |
| `HeapAllocator.Allocator.GrowBreak` | p2/rtos/kernel/others/kmalloc.c:71-83 | The break moves exactly if its 16-bit value stays within the bounds. |
| `HeapAllocator.Allocator.Search` | p2/rtos/kernel/others/kmalloc.c:153-173 | The first exact piece with the predecessor that the loop really records, and the smallest piece that exceeds the 16-bit sum of length and header; while that sum does not wrap this is the best splittable piece. |
| `HeapAllocator.Allocator.Kmalloc` | p2/rtos/kernel/others/kmalloc.c:150-217 | As written, for every 16-bit length: as long as no sum wraps, result and segments are those of the specification, the heap stays well formed if and only if the first exact piece (if any) is the list head (with line 162 corrected, always), and only headers are written, none of which overlaps the payload of a block that is live before and after; when a sum wraps, exactly the stray header and break that the code then leaves. |
| `HeapAllocator.Allocator.PointerIsValid` | p2/rtos/kernel/others/kmalloc.c:38-59 | Every live block passes; nothing but a segment does. |
| `HeapAllocator.Allocator.Neighbours` | p2/rtos/kernel/others/kmalloc.c:273-290 | The search of kfree finds the nearest free pieces on both sides and the predecessor of the upper one, and detects a double free. |
| `HeapAllocator.Allocator.MergeUp` | p2/rtos/kernel/others/kmalloc.c:307-319 | Step 2, as written, keeps the list; the predecessor it leaves is wrong exactly if the absorbed piece was the only free one above. |
| `HeapAllocator.Allocator.MergeDown` | p2/rtos/kernel/others/kmalloc.c:324-335 | Step 3 keeps the list if it is given the right predecessor. |
| `HeapAllocator.Allocator.Kfree` | p2/rtos/kernel/others/kmalloc.c:257-349 | As written: the segments are those of the specification, and the heap stays well formed if and only if it is not the case that the list head was absorbed and then step 3 or 4 fires; corrected, always. Only headers of old segments are written, none of which overlaps the payload of a block that is live before and after. |
| `HeapMemory.FreeListInMemory` | p2/rtos/kernel/others/kmalloc.c:79-82 | Following the links from the head visits every free segment once, in strictly descending address order, and nothing else. |
| `HeapSegments.ExactMeaning` | p2/rtos/kernel/others/kmalloc.c:162-169 | The exact piece is the highest free segment of that size. |
| `HeapSegments.BestMeaning` | p2/rtos/kernel/others/kmalloc.c:171-172 | The best piece is the smallest free segment with more than the request and a header, the highest among equals. |
| `HeapSegments.MallocWellFormed` | p2/rtos/kernel/others/kmalloc.c:150-217 | Allocation keeps the tiling: no gaps, no two free neighbours, lowest segment live. |
| `HeapSegments.FreeWellFormed` | p2/rtos/kernel/others/kmalloc.c:257-349 | Release keeps the tiling. |
| `HeapLaws.MallocFails` | p2/rtos/kernel/others/kmalloc.c:206-212 | NULL if and only if no free segment fits and the heap cannot grow; then nothing changes. |
| `HeapLaws.MallocLive` | p2/rtos/kernel/others/kmalloc.c:175-216 | A successful call adds exactly one block of the requested size and moves no other. |
| `HeapLaws.FreeLive` | p2/rtos/kernel/others/kmalloc.c:294-349 | A release removes exactly the given block. |
| `HeapLaws.FreeAgain` | p2/rtos/kernel/others/kmalloc.c:285-289 | A release of anything but a live block changes nothing. |
| `HeapLaws.FreeUndoesMalloc` | p2/rtos/kernel/others/kmalloc.c:160-348 | Freeing the block just allocated restores break and segments exactly, whichever of the three ways it was found. |
| `HeapLaws.AlwaysTiled` | p2/rtos/kernel/others/kmalloc.c:150-349 | After any sequence of calls, [break, start) is tiled as above. |
| `HeapLaws.LiveIsOwned` | p2/rtos/kernel/others/kmalloc.c:150-349 | After any sequence of calls, the live segments are exactly the blocks handed out and not yet freed. |
| `HeapLaws.BlocksDisjoint` | p2/rtos/kernel/others/kmalloc.c:150-217 | Blocks share no byte and lie within the heap. |
| `HeapLaws.FreeAll` | p2/rtos/kernel/others/kmalloc.c:339-348 | Freeing every block in any order gives break = start and no segments. |
| `HeapRuns.GrowthTestExact` | p2/rtos/kernel/others/kmalloc.c:73-75 | The wrapped test of the break agrees with the integers if and only if neither size nor break wraps around. |
| `HeapPayloads.PayloadsUntouched` | p2/rtos/kernel/others/kmalloc.c:62-67 | Writes to headers of the partition before or after an operation spare the payload of every block that is live in both. |
| `HeapRuns.AllocateThenFree` | p2/rtos/kernel/others/kmalloc.c:160-348 | In memory, as written: kmalloc followed by kfree of its result restores break, segments, list head and every header (exact piece at the list head). |
| `HeapRuns.Execute` | p2/rtos/kernel/others/kmalloc.c:150-349 | Every run of calls that wrap no 16-bit sum and point into no block, and that in the program as written also avoid its two slips, keeps headers, list and break in step with the partition, and no header is written into the payload of a block that lives through the run. |
| `HeapRuns.FreeEverything` | p2/rtos/kernel/others/kmalloc.c:337-348 | In memory, corrected: freeing all blocks in any order leaves an empty list and break = start. |
| `HeapRuns.OldestFirstBreaks` | p2/rtos/kernel/others/kmalloc.c:312-318 | A witness: as written, two blocks freed oldest first corrupt the list. |
| `HeapRuns.SecondExactPieceBreaks` | p2/rtos/kernel/others/kmalloc.c:162 | A witness: as written, taking an exact piece behind the list head corrupts the list. |

## Left out

- Context switching, stacks, timer registers, interrupts masks, serial output and error texts: hardware and I/O. Kernel entry and exit are the step boundaries, and ticks are environment steps.
- The public stubs of `p2/rtos/os.c`: their arguments are the fields of `Request`. A task's request arguments are typed, so a slot that was last written by a request of another kind reads as 0; this affects only timed runs, in which a waiter can be woken by a timer while it stays queued.
- KernelTasks.CreateDirect: allocation is taken to succeed, and the initial timeout, which the source leaves unset, is 0.
- KernelTasks.Terminate: the free position of `Last_Dispatched` afterwards is a parameter, because the source reads freed memory there.
- KernelSemaphore.Get: counts and amounts are `int` in the source, whose overflow C leaves undefined; the model's integers have none. An amount above 32767, which the stub turns negative, is a negative amount here. `lock_count`, which would wrap after 65535 nested locks, and identifiers do not wrap either.
- KernelSemaphore.Give: likewise, for the sum of count and amount.
- KernelMailbox.SendInternal: a message is a value with a size and a sender; the copying of its bytes is not modelled, and neither is the value returned to a sender or receiver that blocked, which the source never sets.
- KernelEvents.Create: reading the bits of a group is left out, because its stub never stores the group's id.
- KernelScheduler.WaitForReady: ticks that arrive while the kernel idles are counted when they are handled, as a list of batches chosen by the environment.
- Preemption by the timer interrupt: it enters the kernel as a yield of the running task, which is covered as such; its counters are left out.
- MutexLaws.BaseRestored: sufficient only, as is `ReverseOrder.BaseRestoredFromBoot`; `PriorityLaw.PriorityIsLastAsked` is exact.
- MutexLaws.SafeReleaseIsExact: is about what the oldest mutex has saved, not about the priority in the end; the latter is in `PriorityLaw.PriorityIsLastAsked`.
- Clock.NeverWakesEarly: needs T and every batch of ticks below 32768, as `Clock.WrapIsExact` and `Witnesses.LongSleepEnds` show.
- Selection.BoundedWaiting: assumes a fixed task list and no starving READY task; the comparison in the source supports no bound otherwise.
- HeapAllocator.Allocator.PointerIsValid: as for `Kfree`, a pointer into the middle of a block is excluded.
- HeapAllocator.Allocator.Kmalloc: memory is a map of headers by address, so what a stray header after a wrapped sum overwrites byte by byte is not modelled.
- HeapAllocator.Allocator.Kfree: a pointer into the middle of a block is excluded, since the source then reads payload bytes as a header.
- Destroying mutexes, semaphores, event groups, mailboxes and mails: the source neither handles missing objects nor waiting tasks there.
- `p2/rtos/kernel/event/event.c`: an easier case of waiting and waking, with a counter left uninitialised.
- `krealloc` and `kcalloc`: the former does not preserve contents as written, the latter adds nothing.
