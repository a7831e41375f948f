# A verified model of the kernel

The kernel is a small real-time kernel for one RV32 core, in the style of the μT-Kernel 3.0 specification: tasks with
fixed priorities, semaphores, event flags, mailboxes, timed waits counted in 10 ms ticks, and nested external
interrupts. This project models its blocking and scheduling state machine in Dafny and proves what the kernel promises
over whole runs. `dafny verify dfyconfig.toml` checks all of it.

## How the model is built

There are four parts.

1. **The kernel.** `KernelState.dfy` holds the state between two calls (control blocks, the two kinds of queue links,
   free lists, `current`, `next`, the software interrupt bit, the compare value, the clock) and the invariant `Inv`.
   `KernelOps.dfy` and `Timer.dfy` give every call, the timer handler and the scheduler as a function on that state:
   this is the specification. `Kernel.dfy` is the kernel as the C code writes it, a class with arrays of control blocks,
   fields and loops; each method is proved to take the state to what the specification function says. `Packets.dfy` adds
   the checks of packets, attributes and NULL pointers, and shows that a call which passes them is a step. The others
   prove things about the specification: `Runs.dfy` that every reachable state satisfies `Inv`, `Guarantees.dfy`,
   `Objects.dfy` and `CallResults.dfy` what follows for callers, `Checks.dfy` and `Footprints.dfy` what every step answers
   and touches, `Requests.dfy` what a wait call leaves when it blocks, `WaitEndings.dfy` which event ends a wait and with
   which cause, `Releases.dfy` in which order, `Switches.dfy` when a switch is asked for, `Units.dfy`, `Ledgers.dfy` and
   `Deliveries.dfy` where units and messages go, `TimerLate.dfy`, `TimerRuns.dfy`, `TimerOrder.dfy`, `Forecast.dfy`,
   `LateGrants.dfy` and `LateRun.dfy` the timer results, `EventFlags.dfy` and `Messages.dfy` the flag walk and the
   message order.
2. **The lists.** `LinkedRings.dfy` is `kernel/list.h` at the level of its pointers. It proves that the operations do to
   circular doubly linked rings what module `Rings` says they do to sequences, and `Rings` is what part 1 uses.
3. **The machine.** `Interrupts.dfy` and `InterruptController.dfy` model the PLIC driver and the trap entries with a
   stack of served sources; `TimerRegisters.dfy` the 64-bit timer registers that are reached in halves while the clock
   runs.
4. **The block routines.** `BlockMemory.dfy` models the copy and fill routines on a byte memory with words.

Each call body runs with interrupts disabled, so it is one atomic step. A call that blocks is two: the part up to the
switch, and `Resume`, the part after it. `Step` in `Runs.dfy` lists the steps, `Enabled` says when each can happen, and
`IsRun` what a run is: any sequence of enabled steps from the launch state.

The fields of `Hist` and the component `pc` of a task are history: they record arrivals, deadlines, deliveries and where
a task is inside a call, and no kernel code reads them. A UINT bit pattern is the set of its 1 bits.

That a wait times out exactly when its deadline is reached is false of the code for waiters of a TA_FIRST semaphore: in
a late handler run an earlier time-out may hand its units to a waiter whose own deadline has passed too, and that one
ends with E_OK (`LateRun.ReachedButServed` is a run from the launch in which this happens). `LateGrants.TimesOutExactly`
says of every wait how it fares in a handler run, told from the state before it: `Forecast.Lucky` is one pass over the
wait queue, which reads what the waiters ask for and the order of the deadlines that are reached. Waiters of a TA_CNT
semaphore are never served in a handler run, so for them, and for all waits that are not for units, the claim holds.

## Assumptions

- The idle task only yields, so it is always ready (`Enabled`).
- A message is not sent again, and its priority not changed, while it is queued.
- A handler that turned interrupts on turns them off again before it returns (`CanStep`).
- Tick counts fit in a UINT and machine times in 64 bits.
- The clock stands still during a step of part 1. `TimerRegisters.MachineTimer.PassElapsedPeriods` justifies this: with
  the clock running, the code counts what one look at the clock during the call would count.
- The body of a safe traversal takes off the ring no entry but the one it is on. In part 1 this is so because a wait that
  ends with a grant ends no other wait.

## Model

| member | source | states |
|---|---|---|
| `Runs.RunsKeepInv` | kernel/task.c:274-297 | In every run every state satisfies the whole invariant: queue membership against task state, wait objects, free lists, deadlines, scheduling |
| `Runs.StepKeepsInv` | kernel/semaphore.c:294-296 | Every call, timer run and switch, with any arguments and in any state that satisfies the invariant, keeps it |
| `Runs.LaunchInv` | kernel/start.c:46-123 | The launch state satisfies the invariant |
| `Runs.LaunchIsBooted` | kernel/start.c:58-112 | The launch state is what creating and starting the initial and the idle task makes of a cold kernel |
| `Guarantees.EveryTaskInItsPlace` | kernel/task.c:274-288 | A ready or running task is exactly on the ready queue of its priority, a waiting one on the timer queue if and only if it has ticks left and on an object's queue if and only if it waits for that live object; no queue holds a task twice |
| `Guarantees.StepHasEffect` | kernel/task.c:276-288 | Any step leaves any other task as it was, or ends its wait; ready queues only grow at the tail unless the running task gives up its place |
| `Guarantees.WaitEndsOnce` | kernel/task.c:274-297 | A wait stays the same wait until a step ends it with the cause that step stands for; after that no step changes the cause or what was delivered until the task itself resumes |
| `Guarantees.EndedOnceInRun` | kernel/task.c:274-288 | Over a run, a wait that is over ended at exactly one step: the task waits up to there and not after, and the step is one that stands for the end |
| `WaitEndings.WaitEndsByItsEvent` | kernel/task.c:274-297 | A signal, a set pattern, a message and a wake-up end a wait with E_OK, a forced release its target with E_RLWAI, a deletion with E_DLT, the timer with E_TMOUT at a deadline that is reached; those whom a release or a time-out made way for at a semaphore get E_OK; no other step ends a wait |
| `LateGrants.TimesOutExactly` | kernel/timer.c:115-130 | From the state before a handler run, for every wait: it ends with E_OK if and only if the forecast for its TA_FIRST semaphore serves it, with E_TMOUT if and only if its deadline is reached and it is not served, and else goes on; under TA_CNT nobody is served |
| `Forecast.ForecastHolds` | kernel/timer.c:110-130 | One pass over the wait queue of a semaphore before the run names exactly those whom the rounds of the run hand units to |
| `LateGrants.DueIsReached` | kernel/timer.c:79-88 | What the pass reads of the counts is which deadlines are reached and their order, ties in the order of the timer queue |
| `LateRun.ReachedButServed` | kernel/task.c:290-296 | A run of twelve steps from the launch after which a deadline is reached and the timer interrupt ends the wait with E_OK all the same |
| `Guarantees.ReportStands` | kernel/mailbox.c:409-431 | Over any stretch of a run from the step that ended the wait, the resumed call returns what answers to that very step: the message sent, a pattern that satisfies the wait, E_OK, E_RLWAI, E_DLT or E_TMOUT |
| `Guarantees.DeadlineFixed` | kernel/timer.c:153-159 | The compare value and the ticks left of a timed waiter name the same absolute deadline in every step until its wait ends |
| `Guarantees.TimedWaitBounds` | kernel/timer.h:30-33 | Whatever the step, a wait of the ms on record never times out before they have passed nor outside a handler run, and a handler run at or after ms rounded up to ticks plus one tick ends it |
| `Requests.BlocksAsAsked` | kernel/timer.c:181-199 | Whatever wait call blocks, its caller waits for what the call asked for: that kind, those units, that pattern and mode, at that object, behind all it does not come before; its limit is the time the call gave, counted from now and rounded up by at most two ticks, or none; everything else is as it was |
| `Requests.WaitBoundsInRun` | kernel/timer.h:30-33 | In every run, from a wait call with a limit of ms: no step ends the wait with E_TMOUT before ms have passed since the call, none but a handler run does, and a handler run at or after ms rounded up to ticks plus one tick ends it |
| `WaitStart.DeadlineWindow` | kernel/timer.c:153-158 | The deadline is after now + ms and within one tick of that rounded up, also with edges pending |
| `WaitStart.PendingIs` | kernel/timer.c:54-61 | The edges counted are exactly those that have passed |
| `TimerRuns.TimerHandlerInv` | kernel/timer.c:100-137 | A run of the handler keeps the invariant; units a time-out sets free reach those they cover |
| `TimerRuns.TimerHandlerTimes` | kernel/timer.c:115-130 | A limit is reached in a run exactly if the clock has reached its deadline, and no wait times out before |
| `TimerLate.LateInterruptsCompose` | kernel/timer.c:100-137 | One late run leaves the whole kernel state, `next` and the switch request included, exactly as a run now and one later |
| `Timer.ExpireComposes` | kernel/timer.c:115-130 | Taking off m + n ticks is taking off m and then n, with the semaphore hand-overs in between |
| `Timer.ExpireStep` | kernel/timer.c:117-130 | A round that ends a wait shrinks the timer queue and keeps the invariant, which is why the loop ends |
| `TimerOrder.ExpiriesInOrder` | kernel/timer.c:110-130 | Waits time out in deadline order, ties in queue order, and a departure hands units to nobody whose own deadline is earlier |
| `TimerOrder.ExpiriesComplete` | kernel/timer.c:115-130 | Every wait that ends in a run is in its log: it timed out there, or was handed units by one that did |
| `TimerOrder.QueuesFollowLog` | kernel/timer.c:115-130 | On every ready queue the tasks a run made ready stand in the order of its log, each time-out before those it made way for |
| `LateGrants.NewcomersInOrder` | kernel/timer.c:100-137 | So after a whole handler run the newcomers of every ready queue stand in the order of the deadlines |
| `WaitEnd.CompleteWaitKeeps` | kernel/task.c:274-297 | Ending any wait keeps the invariant of a step, makes the task ready with the cause, and takes it off the timer queue |
| `WaitEnd.CompleteWaitSettles` | kernel/semaphore.c:340-345 | A waiter that leaves strands nobody behind it |
| `WaitEnd.ServeFromKeeps` | kernel/semaphore.c:346-374 | The serving walk ends waits at that semaphore only, under TA_FIRST the first ones, and leaves no request the units cover |
| `Objects.UnitsConserved` | kernel/semaphore.c:321-328 | 0 <= semcnt <= maxsem, units put in equal the count plus units granted, and no waiter (the head under TA_FIRST) asks for what is there |
| `Units.SignalConserves` | kernel/semaphore.c:326-328 | A signal splits its units between the count and exactly what the released waiters asked for |
| `Ledgers.UnitsTold` | kernel/semaphore.c:183-200 | Every step accounts for the units of every semaphore: the count and what a signal puts in are the new count, what waiters were handed, and what a request took at once; the record of units says just that |
| `Ledgers.TakesUnits` | kernel/semaphore.c:194-200 | A request granted at once takes exactly what it asks for off the count, and changes nothing else |
| `Units.ForcedConserves` | kernel/task.c:505-514 | A forced release takes from each count exactly what the tasks it made way for asked for, and gives its target nothing |
| `Units.TimeoutsConserve` | kernel/task.c:290-296 | The same for a whole run of the timer handler |
| `Objects.GrantsInOrder` | kernel/semaphore.c:346-374 | Under TA_FIRST whoever a signal serves comes before all who still wait |
| `Releases.SignalLetsGo` | kernel/semaphore.c:346-374 | A signal serves greedily in the order of the queue: exactly those whose request fits what those served ahead left, under TA_FIRST up to the first that does not fit; and they become ready in that order |
| `Releases.DepartureLetsGo` | kernel/task.c:274-297 | A waiter that is released or times out becomes ready first, then those it made way for, in the order of the queue |
| `Releases.ForcedLetsGo` | kernel/task.c:505-514 | The same of tk_rel_wai |
| `Releases.DeletionLetsGo` | kernel/semaphore.c:408-425 | The waiters of a deleted semaphore or mailbox become ready in the order of the queue |
| `Releases.SetLetsGo` | kernel/event_flag.c:275-298 | Those whose waits a set pattern satisfies become ready in the order of the queue |
| `Releases.OneLetsGo` | kernel/mailbox.c:97-115 | A message or a wake-up makes at most one task ready, behind its peers |
| `Objects.ForcedInOrder` | kernel/task.c:505-514 | The same for whoever is served because a waiter was released by force |
| `Objects.TimeoutsInOrder` | kernel/task.c:290-296 | The same for whoever is served because others timed out, over a whole handler run |
| `CallResults.GrantedAtOnce` | kernel/semaphore.c:183-205 | A valid request is granted at once if and only if there are units and, under TA_FIRST, the caller outranks every waiter of a TA_TPRI queue or nobody waits; else it is E_TMOUT or blocks |
| `WaitStart.JoinQueues` | kernel/semaphore.c:216-244 | A task joins its wait queue behind its equals: arrival or priority order is kept |
| `EventFlags.SetFlgIsFold` | kernel/event_flag.c:275-298 | tk_set_flg is the left fold of match, deliver, clear over the waiters: the pattern left, who is released and with which pattern |
| `EventFlags.MatchMonotone` | kernel/event_flag.c:106-117 | A pattern with fewer bits satisfies no more waits |
| `CallResults.FlagAtOnce` | kernel/event_flag.c:175-198 | A wait ends at once if and only if the bits it waits for are set (one of them, or all), reports the pattern as it was, and takes away all bits, those waited for, or none |
| `CallResults.ClearKeepsBits` | kernel/event_flag.c:318-336 | Exactly the bits in clrptn stay of the pattern, and nobody is released |
| `Objects.FlagsSettled` | kernel/event_flag.c:169-190 | No waiter is satisfied by the pattern of its flag, and a flag without TA_WMUL has at most one |
| `Objects.EachMessageOnce` | kernel/mailbox.c:326-338 | Every message accepted by a live mailbox is queued or was handed to one receiver, as often as it was sent |
| `Ledgers.SentTold` | kernel/mailbox.c:326-338 | In every step the record of messages sent to a mailbox grows by the message of an accepted send to it, and by nothing else; a mailbox that is created has none |
| `Ledgers.SendQueues` | kernel/mailbox.c:331-337 | A message sent where nobody waits is queued: at the tail, or behind all of its own or a higher priority and ahead of the others; nothing else changes |
| `Deliveries.HandedTold` | kernel/mailbox.c:326-338 | In every step the record of handed-over messages grows by an entry exactly if a message is handed over, and the entry names it and its receiver: the caller that returns it, or the first task that waited, whose wait ends with it |
| `Deliveries.ReceiverIsTold` | kernel/mailbox.c:112-115 | Nobody who waits at a mailbox is let go with E_OK but by a send to it, with the message sent, which the record then says it got |
| `Objects.MailboxOrder` | kernel/mailbox.c:48-75 | Messages of one priority are handed over in the order sent, TA_MFIFO ones all in that order; in every state a mailbox holds exactly what was sent and not handed over, in order of sending or stably sorted by priority; it never holds both messages and receivers |
| `Objects.SendServesFirst` | kernel/mailbox.c:97-115 | A message goes to the receiver before all others, nobody is dropped from the queue |
| `CallResults.ReceiveTakesFirst` | kernel/mailbox.c:375-389 | A queued message is received at once: the first, of the highest priority under TA_MPRI; the others stay, and nothing else changes |
| `MbxCalls.PopTakesFirst` | kernel/mailbox.c:97-110 | The loop pops the head of the queue at once: there is no receiver for it to drop |
| `MbxCalls.DropIsRelease` | kernel/mailbox.c:252-255 | Popping and releasing the receivers one by one is releasing the whole queue in order |
| `Messages.InsertKeeps` | kernel/mailbox.c:48-75 | Insertion keeps the queue sorted and each priority in arrival order |
| `Messages.StableSortIs` | kernel/mailbox.c:48-75 | Arrivals inserted one by one give a sorted queue with the arrivals of each priority in order |
| `Messages.StableOrderIsUnique` | kernel/mailbox.c:35-37 | Those two facts determine the queue: it is the stable sort |
| `Objects.CreateSemTakesFree` | kernel/semaphore.c:96-122 | Creation fails with E_LIMIT if and only if all control blocks are live, and otherwise takes the first of the free list |
| `Objects.CreateFlgTakesFree` | kernel/event_flag.c:70-95 | The same for event flags |
| `Objects.CreateMbxTakesFree` | kernel/mailbox.c:194-225 | The same for mailboxes |
| `Objects.CreateTaskTakesFree` | kernel/task.c:205-241 | The same for tasks |
| `SemCalls.DeadIsEmpty` | kernel/semaphore.c:404-425 | A control block that is free has an empty wait queue, so no departing waiter is ever unlinked from a free list |
| `Objects.DeleteReleasesAll` | kernel/semaphore.c:408-425 | Deletion releases all waiters with E_DLT, no other task changes, and the block joins the free list |
| `CallResults.DeleteMbxReleasesAll` | kernel/mailbox.c:252-265 | The same for mailboxes, and no message is handed to anybody |
| `Guarantees.SchedulerSafety` | kernel/task.c:251-259 | Only `current` runs; it, or `next` if a switch is pending, heads its ready queue and nobody ready outranks it |
| `Switches.SwitchAskedExactly` | kernel/task.c:353-361 | After any step but the switch, a switch is pending if and only if one was or the running task is not the first choice any more; the switch clears the request |
| `Guarantees.SwitchKeepsPlaces` | kernel/start.c:150-167 | A switch runs `next`; the preempted task is ready at the place it had |
| `Guarantees.PlaceLostOnlyByOwnStep` | kernel/task.c:377-393 | Ready queues change but at the tail only by the running task's own yield, wait or exit |
| `Guarantees.IdleHaltsAlone` | kernel/task.c:365-370 | The test the idle task makes is true if and only if no other task is ready |
| `Guarantees.WakeupsAccounted` | kernel/task.c:544-601 | Accepted wake-ups are queued or were used; at most 4095 are queued, none while the task sleeps |
| `Guarantees.ReleaseLosesNoWakeup` | kernel/task.c:481-519 | tk_rel_wai changes no count of queued wake-ups |
| `CallResults.WakeUpAccepted` | kernel/task.c:555-601 | Exactly when a wake-up is accepted; a refused one changes nothing |
| `CallResults.WakeUpResult` | kernel/task.c:561-587 | It ends a sleep, leaving no request queued, or queues exactly one |
| `CallResults.ForcedRelease` | kernel/task.c:493-516 | It succeeds if and only if the task is another one and waits; the task is ready with E_RLWAI, or nothing changes |
| `CallResults.StartGoesLast` | kernel/task.c:312-363 | It succeeds if and only if the task is dormant; the task is last of its ready queue with a cleared record |
| `CallResults.YieldGoesLast` | kernel/task.c:377-393 | The caller is last among its peers and no other queue changes |
| `CallResults.NoDelayIsYield` | kernel/timer.c:181-191 | A delay of 0 is a yield |
| `CallResults.ExitLeaves` | kernel/task.c:402-462 | A task that exits is dormant, one that is deleted as well exists no more and its block is the last of the free list; it is off its ready queue, and every other task and queue is as it was |
| `CallResults.ResumeReturns` | kernel/mailbox.c:409-431 | After the rest of a wait call the task has returned from it, still running, and nothing else has changed |
| `Packets.CallsAreSteps` | kernel/task.c:146-150 | Whatever packet or pointer a caller passes, the call answers with the code of the first check that fails and changes nothing, or is the step that its attribute and mode bits say |
| `Checks.FirstCheckDecides` | kernel/semaphore.c:153-205 | A table of the checks of every call: it answers with the code of the first that fails, and then nothing has changed; if none fails it succeeds, or blocks exactly because what it asks for is not there |
| `Footprints.StepFootprint` | kernel/task.c:561-587 | Every step touches only what it is about: counts, patterns and messages of the object it names, attributes only at creation and deletion, the clock, compare value and current task each in its own step, and queued wake-ups one by one |
| `Packets.AttributesFirst` | kernel/task.c:169-181 | E_RSATR if and only if there is a packet with an attribute bit that is not supported, or of a task without TA_USERBUF |
| `Kernels.Kernel.constructor` | kernel/start.c:46-116 | The object starts in the launch state |
| `Kernels.Kernel.GetHighestPriorityTask` | kernel/task.c:251-259 | The loop over the ready queues finds the head of the first that is not empty |
| `Kernels.Kernel.CompleteWait` | kernel/task.c:274-297 | Applied to a waiting task only, and recursive with the serving walk, it does what `WaitEnd.CompleteWaitKeeps` is about: off both queues, ready with the cause, units passed on after a time-out or forced release |
| `Kernels.Kernel.SemServeWaiters` | kernel/semaphore.c:346-374 | The walk with its break and continue cases is the specified one |
| `Kernels.Kernel.CreTsk` | kernel/task.c:159-241 | The imperative body does what `Packets.TkCreTsk` says: E_RSATR before E_PAR for a bad packet, priority or stack, E_LIMIT, or the first free control block reset and dormant |
| `Kernels.Kernel.StaTsk` | kernel/task.c:312-363 | Does what `KernelOps.StaTsk` says: E_ID, E_NOEXS, E_OBJ in this order, or the record cleared and the task at the tail of its ready queue |
| `Kernels.Kernel.YieldCpu` | kernel/task.c:377-393 | Does what `KernelOps.Yield` says: the caller behind its peers, the next task chosen |
| `Kernels.Kernel.ExitTask` | kernel/task.c:402-426 | Does what `KernelOps.ExtTsk` says, up to the switch: off the ready queue, dormant, a switch always asked for |
| `Kernels.Kernel.ExitAndDeleteTask` | kernel/task.c:436-462 | Does what `KernelOps.ExdTsk` says, up to the switch: the control block goes to the tail of the free list |
| `Kernels.Kernel.RelWai` | kernel/task.c:481-519 | Does what `KernelOps.RelWai` says, with its order of error checks |
| `Kernels.Kernel.WupTsk` | kernel/task.c:544-601 | Does what `KernelOps.WupTsk` says: a sleep ends, any other live task has a request queued up to the limit, and the errors in the order of the code |
| `Kernels.Kernel.IdleCanHalt` | kernel/task.c:365-370 | Asked by the idle task, it is true if and only if no other task is ready; it compares the two links of the queue head |
| `Kernels.Kernel.SwitchTask` | kernel/start.c:150-167 | Does what `KernelOps.Schedule` says: RUN to RDY for the old task if it still ran, RUN for `next`, the request cleared |
| `Kernels.Kernel.FirstDeadline` | kernel/timer.c:79-88 | The scan finds the least count, the first of equals |
| `Kernels.Kernel.PassElapsedPeriods` | kernel/timer.c:54-61 | The loop counts the edges that have passed and finds the next one |
| `Kernels.Kernel.TimerHandler` | kernel/timer.c:100-137 | The nested loops of the handler do what the specified run does |
| `Kernels.Kernel.ScheduleTimer` | kernel/timer.c:153-164 | Does what `KernelOps.StartTimer` says: ticks plus pending edges as the count, the tail of the timer queue, a switch |
| `Kernels.Kernel.DlyTsk` | kernel/timer.c:181-206 | Does what `KernelOps.DlyTsk` says: E_CTX, a yield for 0, else a timed wait |
| `Kernels.Kernel.SlpTsk` | kernel/timer.c:228-269 | Does what `KernelOps.SlpTsk` says: E_PAR, E_CTX, a queued request used up, E_TMOUT for a poll, else a wait |
| `Kernels.Kernel.ResumeCall` | kernel/mailbox.c:409-431 | Does what `KernelOps.Resume` says: the part of each kind of wait call after the switch, what it reports and resets |
| `Kernels.Kernel.CreSem` | kernel/semaphore.c:71-123 | Does what `Packets.TkCreSem` says: E_PAR for no packet, E_RSATR for the attributes, E_PAR for bad counts, E_LIMIT, or the first free control block |
| `Kernels.Kernel.JoinSemQueue` | kernel/semaphore.c:207-244 | The scan with its empty-queue and tail cases puts the caller at its place |
| `Kernels.Kernel.WaiSem` | kernel/semaphore.c:153-261 | Does what `KernelOps.WaiSem` says, with the order of its checks: take at once, E_TMOUT for a poll, or join the queue and block |
| `Kernels.Kernel.SigSem` | kernel/semaphore.c:297-338 | Does what `KernelOps.SigSem` says: E_QOVR before any unit is handed out, else the units added and the waiters served |
| `Kernels.Kernel.DelSem` | kernel/semaphore.c:388-437 | Does what `KernelOps.DelSem` says: the loop releases the head until the queue is empty, then the block is free |
| `Kernels.Kernel.CreFlg` | kernel/event_flag.c:58-96 | Does what `Packets.TkCreFlg` says: E_PAR for no packet, E_RSATR for the attributes, E_LIMIT, or the first free control block with the initial pattern |
| `Kernels.Kernel.JoinFlgQueue` | kernel/event_flag.c:200-224 | The second of the three insertions reaches the same place |
| `Kernels.Kernel.WaiFlg` | kernel/event_flag.c:136-241 | Does what `Packets.TkWaiFlg` says: E_PAR for no result place or a bad mode, E_OBJ for a second waiter before the pattern is looked at, then match, poll or block |
| `Kernels.Kernel.SetFlg` | kernel/event_flag.c:260-310 | The walk that delivers, clears and releases while it goes is `KernelOps.SetFrom`; a switch only if anybody waited |
| `Kernels.Kernel.ClrFlg` | kernel/event_flag.c:318-336 | Does what `KernelOps.ClrFlg` says: the pattern masked, nobody released |
| `Kernels.Kernel.InsertMsgPri` | kernel/mailbox.c:48-75 | The tail short cut and the scan put the message where plain stable insertion does |
| `Kernels.Kernel.JoinMbxQueue` | kernel/mailbox.c:77-95 | The third insertion reaches the same place |
| `Kernels.Kernel.PopWaitingReceiver` | kernel/mailbox.c:97-110 | The loop pops up to the first task that waits for a mailbox |
| `Kernels.Kernel.CreMbx` | kernel/mailbox.c:177-226 | Does what `Packets.TkCreMbx` says: E_PAR for no packet, E_RSATR for the attributes, E_LIMIT, or the first free control block with both queues empty |
| `Kernels.Kernel.SndMbx` | kernel/mailbox.c:294-342 | Does what `Packets.TkSndMbx` says: E_ID before E_PAR for no message, then handed to the receiver popped, or queued by arrival or priority |
| `Kernels.Kernel.RcvMbx` | kernel/mailbox.c:354-407 | Does what `Packets.TkRcvMbx` says: E_PAR for no result place, then the first message, E_TMOUT for a poll, or join the queue and block |
| `Kernels.Kernel.DelMbx` | kernel/mailbox.c:237-271 | Does what `KernelOps.DelMbx` says: the loop pops and releases all receivers with E_DLT, then the block is free |
| `LinkedRings.InitListHead` | kernel/list.h:16-19 | A ring of one node |
| `LinkedRings.ListEmpty` | kernel/list.h:21-23 | True if and only if the head is alone |
| `LinkedRings.ListDel` | kernel/list.h:37-45 | The other nodes are a ring in their order, and the node's links are poisoned |
| `LinkedRings.ListAdd` | kernel/list.h:47-58 | The node goes after the given one |
| `LinkedRings.ListAddTail` | kernel/list.h:60-63 | The node goes at the tail |
| `LinkedRings.EndsMeet` | kernel/task.c:366-369 | The two ends of a ring are one node if and only if it holds at most one entry |
| `LinkedRings.LinkTable.AddTail` | kernel/list.h:60-63 | On the rings of all tasks it is the sequence operation, and no other ring is touched |
| `LinkedRings.LinkTable.PutBefore` | kernel/list.h:56-58 | Adding after a node's predecessor inserts before the node |
| `LinkedRings.LinkTable.Del` | kernel/list.h:37-45 | Taking a task off the ring it is on needs no head and is the sequence operation |
| `LinkedRings.LinkTable.Init` | kernel/list.h:16-19 | A link that is on no ring is detached |
| `LinkedRings.LinkTable.IsLinked` | kernel/list.h:21-23 | A task's own link tells whether it is on a ring |
| `LinkedRings.LinkTable.FirstEntry` | kernel/list.h:34-35 | The first entry, or none |
| `LinkedRings.LinkTable.NextEntry` | kernel/list.h:65-68 | The next entry, or the head |
| `LinkedRings.LinkTable.EndsAreOne` | kernel/task.c:366-369 | The test on the ready queue of the idle task |
| `LinkedRings.LinkTable.TraverseSafe` | kernel/list.h:76-84 | Whichever entries the body takes off while on them, each original entry is visited once, in order, and the others stay in order |
| `Interrupts.RunsKeep` | kernel/intctl.c:115-142 | Every state of every run of the nested-trap machine satisfies its invariant |
| `Interrupts.Nesting` | kernel/asm/rv32/start.S:248-295 | Thresholds on the trap stack strictly increase, the current one is the innermost handler's, depth is at most 7, every completion was written with its source enabled, schedule() ran only at depth 1, mie is restored at depth 0 |
| `Interrupts.DepthBounded` | kernel/intctl.c:122-129 | n nested handlers need a priority of at least n |
| `Interrupts.OnlyHigherInterrupts` | kernel/intctl.c:122-125 | A handler is interrupted by a higher priority only, never by the timer or a switch |
| `Interrupts.NestedTrapBalanced` | kernel/asm/rv32/start.S:217-246 | When what nested in a handler is over, the stack, threshold, depth, claimed sources and mie bits are as before |
| `Interrupts.EnterIs` | kernel/intctl.c:115-141 | An external interrupt calls the handler defined for a source above the outer ones, or switches a source without one off and leaves nothing claimed |
| `Interrupts.ReturnIs` | kernel/intctl.c:126-141 | A return restores the outer threshold, completes the source, keeps its enable bit, and at the outermost exit serves the switch |
| `Interrupts.CompletionIs` | kernel/intctl.c:131-141 | The completion is never ignored, and the enable bit ends as it was, or off |
| `Interrupts.ShortTrapIs` | kernel/asm/rv32/start.S:159-214 | A timer or software trap makes the switch that was asked for, before it or by the timer handler, and leaves nothing else |
| `Interrupts.SwitchServedOnce` | kernel/asm/rv32/start.S:159-246 | In every step a switch that is asked for is pending until schedule() is called, at most once and only if asked for, and at the latest where a trap returns to code outside every handler |
| `Interrupts.EnableIs` | kernel/intctl.c:83-100 | For a good number and level that source has that priority and is on, no other source is touched; else nothing changes |
| `Interrupts.DisableIs` | kernel/intctl.c:102-110 | For a good number that source is off, no other source is touched; else nothing changes |
| `Interrupts.SetOnIs` | kernel/intctl.c:25-35 | Reading, changing and writing the shared word changes that source's bit and no other |
| `Interrupts.SmallStepsAre` | kernel/dispatch.h:19-22 | dispatch() leaves a switch request up and nothing else; a source that is claimed is held back, any other becomes pending |
| `Interrupts.DefinitionIs` | kernel/intctl.c:57-78 | A definition succeeds if and only if it is made outside handlers and critical sections, for a good number, with no packet or one for a C handler; then that handler, and no other, is the one called for the number |
| `InterruptControllers.Controller.constructor` | kernel/intctl.c:37-48 | A controller found in any state is brought to the known one |
| `InterruptControllers.Controller.InitIntctl` | kernel/intctl.c:37-48 | The three loops clear handlers, priorities and enable words |
| `InterruptControllers.Controller.TkDefInt` | kernel/intctl.c:57-78 | Does what `Interrupts.TkDefInt` says: E_CTX, E_PAR for a bad number, the handler taken away, E_RSATR, E_PAR for no handler, or the new table |
| `InterruptControllers.Controller.EnableInt` | kernel/intctl.c:83-100 | New registers; nothing for a bad number or level |
| `InterruptControllers.Controller.DisableInt` | kernel/intctl.c:102-110 | New registers |
| `InterruptControllers.Controller.ExternalInterrupt` | kernel/asm/rv32/start.S:248-263 | The entry and the C part up to the handler, and which handler is called |
| `InterruptControllers.Controller.HandlerReturned` | kernel/asm/rv32/start.S:265-295 | The rest of the C part and the exit |
| `InterruptControllers.Controller.TimerInterrupt` | kernel/asm/rv32/start.S:194-214 | Not nested; a switch asked for before the trap or by the timer handler is made, once |
| `InterruptControllers.Controller.SoftwareInterrupt` | kernel/asm/rv32/start.S:159-175 | Always switches, at depth 1 |
| `TimerRegisters.MachineTimer.ReadMtime` | kernel/timer.c:31-39 | The value read in halves is the clock's at some moment of the call, and the retries end |
| `TimerRegisters.MachineTimer.WriteMtimecmp` | kernel/timer.c:41-46 | No intermediate value of the register is below both the old and the new one |
| `TimerRegisters.MachineTimer.PassElapsedPeriods` | kernel/timer.c:54-61 | With a running clock the count is that of one moment during the call |
| `TimerRegisters.EdgesPassed` | kernel/timer.c:48-53 | The count is the only one that leaves the next edge ahead and the last one behind |
| `BlockMemory.MemCpy` | kernel/memcpy.c:28-119 | For every length and alignment exactly the requested bytes change, to the source's; word accesses are aligned |
| `BlockMemory.MemSet` | kernel/memset.c:39-94 | For every length, alignment and value exactly the requested bytes change, to the value's low byte |
| `BlockMemory.CopyWord` | kernel/memcpy.c:99-103 | One aligned word copy is four byte copies |
| `BlockMemory.CopiesAgree` | kernel/memcpy.c:28-39 | Any two copies that change exactly the requested bytes, by words or by bytes, leave the same memory |
| `BlockMemory.SpreadIsFourCopies` | kernel/memset.c:63-65 | value * 0x01010101 does not wrap and is four copies of the byte |
| `BlockMemory.PartsOfJoin` | kernel/memcpy.c:86-93 | A word holds its four bytes |
| `BlockMemory.JoinOfParts` | kernel/memcpy.c:86-93 | And four bytes make back the word |

The QEMU work-around in `EnableInt` writes the threshold back unchanged and so does nothing in the model.

## Left out

- Register saving, stack contents, boot, fatal stops and the idle loop: machine plumbing or
  straight-line code.
- Kernels.Kernel.CreTsk: nothing in the model reads a stack, so its pointer is not kept.
- Kernels.Kernel.ExitTask: exit and the switch that follows are separate steps here. The stack pointer that the switch
  stores is not modelled, so the reuse of an exiting task's own control block in between is not restricted either.
- Kernels.Kernel.DlyTsk: a delay of 0 releases and takes the interrupt lock once more before it yields; here the yield is
  part of the same step. What can come in between is a step before it.
- Kernels.Kernel.CompleteWait: the two links of a task are ring membership here, with the poison value of a deleted link;
  that the pointer operations refine this is proved in LinkedRings, not by putting pointers into the kernel class.
- Kernels.Kernel.SndMbx: messages are values in the queue of the mailbox; the link word inside a message, which a user
  could damage, is not modelled.
- Kernels.Kernel.CreSem: the queue head of a control block serves as its free-list link too; here the free list is a
  sequence of its own, and SemCalls.DeadIsEmpty says that the two uses never meet.
- Interrupts.EnterIs: mstatus.MPP, the interrupt stack and the saved frame are not modelled but for the mie bits in it.
- BlockMemory.MemCpy: addresses are indices of one memory; the aliasing rules of C and the return of a pointer type are
  not modelled.
- Instruction counts, the device drivers, the libraries and the test code.
- Other table sizes than those of include/sys/config.h, which are constants here.
