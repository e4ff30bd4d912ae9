# A verified model of the kernel

The repository is a small uniprocessor teaching kernel for MIPS: a PCB table of 16 slots, a three-level feedback
scheduler, sleeping, process creation, waiting, killing and exiting, mutexes, conditions, semaphores, barriers, a mailbox
built on them, a bounded formatter and a screen buffer. This project models that logic in Dafny and proves what it is
for, over all inputs, all states and all runs.

**The kernel.** Kernel code runs with interrupts off, so everything a process does between two calls of the scheduler
happens at once: a run is a sequence of such steps. `Model.dfy` and `Steps.dfy` give the state and every step as values.
`Links.dfy` and `Machine.dfy` give the same kernel in the form the program has: queues are heads and tails over PCBs that
share one `prev`/`next` pair, tables are updated in place, loops walk the links. Each method is proved to do exactly its
step. The laws are then proved about steps and runs:

- `Placement`, `Invariant`, `Preserve`, `StepInv`, `LifeInv`, `Death`, `Legacy`, `Runs`: every PCB is in exactly one place; ids,
  mutex owners, wait reasons and counters agree; every step of every process keeps all of this, and the scheduler always
  finds a process to run. Killing and exiting have a closed form.
- `SchedulerLaws`, `Effects`, `Fields`: the whole effect of every step. Who leaves which queue, who becomes ready in what order,
  what becomes of the caller, who runs next, and what every PCB, mutex and counter says afterwards, all in terms of the
  state before. `CallerLaws` draws from it who runs after an up, a barrier or a broadcast.
- `Frame`, `Objects`: what a step leaves alone.
- `ProcessLaws`, `SleepLaws`, `WaitingTime`, `SyncLaws`, `CondLaws`: ids, sleeping, exact waiting times, semaphores, barriers,
  conditions, mutex ownership.
- `Initialization`: in which cases initializing a mutex, condition, semaphore or barrier keeps the kernel in order.
- `Steadiness`, `WaitLaws`, `LostWaiter`: what no step can reach stays as it is; so a process that waits for a living one
  waits exactly until its death, and one that waits for a dead one waits for ever.
- `Scenes`, `Reinitialized`: short runs from start-up that lead to the states in which the program does what it should not.

**The mailbox.** `Mailbox.dfy` is a machine over the kernel machine. Senders and receivers run with interrupts on, so its
actions are the single reads and writes of the shared fields and the system calls; between any two of them the timer may
interrupt, anybody else may run, and the process may be killed. `MailboxLaws` proves that the mutex keeps what a process
has read true until it writes, and from that the account of all bytes, with the exact effect of a kill. `MailboxStack` and
`MailboxMidway` prove that with messages of one length the box is a bounded stack of messages if and only if the length
divides the capacity, in the sense that otherwise somebody comes to wait with part of a message sent. `MailboxSides` proves
who waits on which condition and whom a signal wakes. `MailboxTorn` leads to the kill that loses a byte. `MailboxBuffer` is the loop over the buffer array, in place.

**Text.** `Strings`, `Numerals` and `Format` are the string, number and formatting routines, on arrays and in loops as in the
program, proved against the unbounded text. `FormatLaws` says what formats stand for, alone and put together. `Screen` is
the screen buffer with its terminal, `ScreenLaws` what each operation does to the cells.

Process-local data that the steps need and C keeps on a kernel stack is modelled as fields: `cont` says that a process is
inside a mutex acquisition and will try again when it runs, and `on` names the queue a PCB is linked into.

To verify the whole project, run `dafny verify dfyconfig.toml`.

## Model

| member | source | states |
|---|---|---|
| Links.Queue.Push | kernel/sched/queue.c:20-38 | appends at the tail: both link directions and both ends describe the longer sequence, or the forward links and the ends alone where only those were right before |
| Links.Queue.Dequeue | kernel/sched/queue.c:40-59 | takes the head of a queue that is not empty; the rest stays linked both ways, or forwards where only that held before |
| Links.Queue.Bypass | kernel/sched/queue.c:67-86 | the four unlink cases: exactly the neighbours' links, or the ends, skip the element |
| Links.Queue.Remove | kernel/sched/queue.c:62-92 | deletes exactly the given element, wherever it is, and returns its old successor |
| Links.Queue.RemoveAsWritten | kernel/sched/queue.c:62-92 | with the write of line 85 taken literally: a queue linked both ways stays so if and only if the removed element was first or last; otherwise its successor keeps pointing back to it, while the ends and the forward links are right. What an element wrongly points back to becomes the tail when it is removed as the last one, and in the middle cuts the queue there |
| Links.Queue.RemoveTwoAsWritten | kernel/sched/queue.c:62-92 | removing so an element and then its successor, the last one, leaves a tail that is not in the queue |
| Scenes.KillFromTheMiddle | kernel/sched/queue.c:79-86 | from every start-up a state is reached in which the second of three sleepers may be killed, so the unlink in the middle of a queue does occur |
| Links.Queue.IsEmpty | kernel/sched/queue.c:11-18 | the head test answers whether the sequence is empty |
| Links.QueueTable.Push | kernel/sched/queue.c:20-38 | over all queues sharing one link pair per PCB: one queue grows at its end, every other queue and every other PCB's place is untouched |
| Links.QueueTable.Dequeue | kernel/sched/queue.c:40-59 | one queue loses its first element, all others are untouched |
| Links.QueueTable.Remove | kernel/sched/queue.c:62-92 | one queue loses the given element, all others are untouched; the returned cursor is the element behind it |
| Links.QueueTable.Init | kernel/sched/queue.c:6-9 | the queue becomes empty whoever was in it; those who were keep their links, all other queues are untouched |
| Machine.Kernel.CheckSleeping | kernel/sched/sched.c:22-39 | the walk that unlinks its own cursor ends, and does what one pass over the sleepers in order does |
| Machine.Kernel.Scheduler | kernel/sched/sched.c:42-78 | wakes sleepers, demotes and requeues the interrupted process, runs the head of the best ready queue |
| Machine.Kernel.IrqTimer | kernel/irq/irq.c:7-16 | the interrupt is the tick step |
| Machine.Kernel.Elapse | kernel/irq/irq.c:13 | the addition to the clock is the advance step |
| Machine.Kernel.DoUnblockOne | kernel/sched/sched.c:157-166 | the first waiter becomes ready at priority 1 at the end of ready queue 1 |
| Machine.Kernel.DoUnblockAll | kernel/sched/sched.c:168-180 | the loop drains the queue into ready queue 1, first come first |
| Machine.Kernel.DoSleep | kernel/sched/sched.c:139-148 | the in-place system call is the sleep step |
| Machine.Kernel.InitPcb | init/main.c:59-106 | on memory as the loader leaves it: slot 0 is current, process 2 the next id, the queues are made and empty, the slots free, the shell ready at priority 3 |
| Machine.Kernel.DoSpawn | init/main.c:268-313 | the in-place system call is the spawn step |
| Machine.Kernel.DoWait | init/main.c:315-332 | the in-place system call is the wait step, the target alive or dead |
| Machine.Kernel.RemovePid | init/main.c:347-396 | the search loop that unlinks while it walks takes out exactly the process with the id, and ends there |
| Machine.Kernel.ReleaseAll | init/main.c:406-412 | the loop over the locks of a dying process releases each one it lists |
| Machine.Kernel.DoKill | init/main.c:334-414 | the in-place system call is the kill step, for a victim in any state it may be killed in |
| Machine.Kernel.DoExit | init/main.c:416-436 | the in-place system call is the exit step |
| Machine.Kernel.MutexAcquire | kernel/locking/lock.c:30-52 | one round of the acquisition loop: block and reschedule, or take the mutex and list it |
| Machine.Kernel.DoMutexRelease | kernel/locking/lock.c:54-84 | the in-place system call is the release step; the owner need not be the caller |
| Machine.Kernel.MutexInit | kernel/locking/lock.c:23-28 | the mutex is free and its queue empty, whoever held it or waited; the links stay right if and only if nobody waited, the kernel stays in order if and only if it was not held |
| Machine.Kernel.ConditionWait | kernel/locking/cond.c:11-24 | counts the caller, queues it and releases the mutex in one step, and leaves it about to acquire; the caller need not own the mutex |
| Machine.Kernel.ConditionSignal | kernel/locking/cond.c:26-34 | wakes one waiter if one is counted |
| Machine.Kernel.ConditionBroadcast | kernel/locking/cond.c:36-44 | wakes all waiters if any is counted |
| Machine.Kernel.ConditionInit | kernel/locking/cond.c:5-9 | no waiter is counted and none is queued, nothing else changes; the kernel stays in order if and only if nobody waited |
| Machine.Kernel.SemaphoreInit | kernel/locking/sem.c:4-12 | a negative value is refused and nothing is written; otherwise value and queue are set, and the kernel stays in order if and only if nobody waited |
| Machine.Kernel.SemaphoreUp | kernel/locking/sem.c:14-21 | the in-place system call is the up step |
| Machine.Kernel.SemaphoreDown | kernel/locking/sem.c:23-30 | the in-place system call is the down step |
| Machine.Kernel.BarrierInit | kernel/locking/barrier.c:4-9 | nobody has arrived and nobody waits, nothing else changes; the kernel stays in order if and only if nobody waited |
| Machine.Kernel.BarrierArrive | kernel/locking/barrier.c:11-24 | the in-place system call is the arrival step, with its three cases |
| Initialization.NewLockIsSafeIfFree | kernel/locking/lock.c:23-28 | initializing a mutex keeps the whole invariant if and only if it is not held, whether or not anybody waits |
| Initialization.NewCondIsSafeIfEmpty | kernel/locking/cond.c:5-9 | initializing a condition keeps it if and only if nobody waits |
| Initialization.NewSemIsSafeIfEmpty | kernel/locking/sem.c:4-12 | initializing a semaphore keeps it if and only if the value is refused or nobody waits |
| Initialization.NewBarrierIsSafeIfEmpty | kernel/locking/barrier.c:4-9 | initializing a barrier, whatever the goal, keeps it if and only if nobody waits |
| Reinitialized.ReinitializedMutexIsShared | test/test_project3/test_kill.c:14-21 | from every start-up with a mutex the run spawn, acquire, spawn reaches a state in which a held mutex nobody waits for may be initialized; that breaks the invariant, and the next acquisition gives the mutex two holders |
| Placement.CheckSleepingEffect | kernel/sched/sched.c:22-39 | waking sleepers is a stable partition: the overdue ones join the end of ready queue 1 in order at priority 1, the sleep queue keeps exactly the others in order |
| Placement.ScheduleSettles | kernel/sched/sched.c:42-74 | from any state a step may call it in, the scheduler finds a process and leaves every PCB in the one place its status names; wait queues are untouched |
| SchedulerLaws.PassMoves | kernel/sched/sched.c:42-78 | one pass of the scheduler, from any state it may be called in: each ready queue gets first the due sleepers (the first queue), then the interrupted process one queue below its own; the first process of the first queue that is not empty runs at that queue's priority; everybody else stays in order, and wait queues are untouched |
| Runs.BootInv | init/main.c:59-106 | the first scheduler call establishes the invariant for any numbers of objects |
| Runs.StepKeepsInv | kernel/sched/sched.c:42-180 | every enabled step of every process can be done, in particular never dequeues from three empty ready queues, and keeps the whole invariant |
| Runs.RunKeepsInv | kernel/sched/sched.c:42-180 | the invariant holds after every legal run |
| Runs.ExactlyOnePlace | kernel/sched/sched.c:42-180 | in every reachable state: running iff current; ready once in the queue of its priority; sleeping once in the sleep queue; blocked once in exactly one wait queue; a free slot nowhere |
| Runs.MutexSafety | kernel/locking/lock.c:23-84 | in every reachable state a locked mutex has one holder, which is alive, lists it exactly once and is what a search for the recorded owner finds, and nobody else lists it; a free one has no owner, no holder and no waiter |
| Runs.NobodyIsStranded | kernel/locking/lock.c:30-37 | who is in a mutex queue waits for a mutex that somebody holds |
| Runs.SignalIsAlwaysCallable | kernel/locking/cond.c:26-34 | in every reachable state a signal that counts a waiter finds one: it never dequeues from an empty queue |
| Runs.UpIsAlwaysCallable | kernel/locking/sem.c:14-21 | in every reachable state an up that must wake somebody finds somebody |
| Effects.StepRunsOn | kernel/locking/cond.c:26-44 | releasing, signalling, broadcasting, taking a free mutex and arriving at a barrier that is over: the caller runs on, and every queue is given exactly, the woken at the end of ready queue 1 in their order |
| Effects.StepMoves | kernel/sched/sched.c:42-180 | every other step of every process, deaths included: what becomes of the caller, who joins ready queue 1 in what order, who runs next, and the exact content of every queue afterwards, with any sleepers due |
| Fields.StepFields | init/main.c:268-436 | every step: the id, alarm, awaited id, awaited mutex, list of mutexes and continuation of every process, every mutex, every counter, the next id and the clock afterwards |
| CallerLaws.UpGivesWay | kernel/locking/sem.c:14-21 | with nobody due, the caller of up ends behind the next lower ready queue and runs again exactly if nobody stands before it; the first waiter joins ready queue 1 behind the others |
| CallerLaws.UpWakes | kernel/locking/sem.c:14-21 | the woken process runs at once if ready queue 1 was empty; else the first of that queue runs and the woken waits behind the rest at priority 1 |
| CallerLaws.PassingGivesWay | kernel/locking/sem.c:23-30 | a caller that passes a positive semaphore gives way as well |
| CallerLaws.OpeningGivesWay | kernel/locking/barrier.c:11-24 | who completes a round gives way to those it lets through, who join ready queue 1 in the order of their arrival |
| CallerLaws.BroadcastWakesAll | kernel/locking/cond.c:36-44 | ready queue 1 grows by the waiters in the order in which they came, each is ready at priority 1, and every other queue and PCB is as before |
| Death.UnqueueFindsIt | init/main.c:346-396 | a killed process is found in the queue its status and wait fields lead to |
| Legacy.KillEffect | init/main.c:334-412 | just before its scheduler call, kill has left the victim in no queue and with no mutex; its mutexes are free and nobody waits for them; those who waited for it or them are ready at priority 1 at the end of ready queue 1 in order; every other PCB, queue and mutex is unchanged |
| Legacy.ExitEffect | init/main.c:416-434 | the same for exit |
| Frame.StepFramed | kernel/sched/sched.c:42-180 | a step kills nobody but its victim and changes ids, alarms, continuations and the clock only where its call does |
| Objects.StepQueues | kernel/locking/sem.c:14-30 | semaphores, barriers and conditions are touched by their own operations only, whatever else happens, deaths included |
| ProcessLaws.SpawnGivesNewPid | init/main.c:289-297 | a new process gets an id nobody had, and a search for it finds the process |
| ProcessLaws.PidRun | init/main.c:317-322 | over any run a search for a handed-out id finds the slot it was given to, or nothing |
| ProcessLaws.WaitsForTheLiving | init/main.c:315-332 | in every reachable state the id a waiter waits for resolves to the living process whose queue it is in |
| WaitLaws.WaitLastsAsLong | init/main.c:315-332 | over every run after a wait, unless the waiter is killed: while the id it waits for names a living process it is blocked, in that process's queue and in no other, and does not run |
| WaitLaws.DeathEndsWait | init/main.c:334-436 | the step in which the process dies, by exit or by kill, wakes who waits for it |
| WaitLaws.GoneStaysGone | init/main.c:289-297 | an id that names nobody alive never does again, whatever step is done |
| ProcessLaws.WaitIsSafeIfAlive | init/main.c:315-332 | waiting for an id that is in the table keeps the invariant if and only if its process is alive, which the program does not test |
| ProcessLaws.WaiterIsLost | init/main.c:275-292 | if it is dead and its slot is the next to be used, the next spawn leaves the waiter blocked and in no queue |
| Scenes.DeadMayBeWaitedFor | init/main.c:315-332 | from every start-up the run spawn, spawn, exit is legal and leaves a process running that may wait for a dead one whose slot is the next to be used |
| LostWaiter.SomebodyIsLost | init/main.c:275-332 | a reachable state in which the wait breaks the invariant and the spawn after it leaves the waiter in no queue |
| LostWaiter.WaiterNeverReturns | init/main.c:275-332 | over every run after a wait for a dead process, unless the waiter or the dead id is killed: the waiter stays blocked and never runs; once the slot is used again it is in no queue |
| SleepLaws.FallsAsleep | kernel/sched/sched.c:139-148 | the caller is asleep after its own scheduler pass, with the alarm it asked for |
| SleepLaws.SleepNeverEndsEarly | kernel/sched/sched.c:27-33 | in every later state of every run without a kill of the process, it still sleeps or more than n * 10,000,000 time units have passed |
| SleepLaws.NobodyOversleeps | kernel/sched/sched.c:58 | after a scheduler pass nobody in the sleep queue is overdue |
| SleepLaws.WakingKeepsOrder | kernel/sched/sched.c:22-39 | of two sleepers that are due the one that fell asleep first is woken first, and those that are not due keep their order |
| WaitingTime.QuietTick | kernel/sched/sched.c:64-73 | one tick with nobody due: exactly how the three ready queues move |
| WaitingTime.WaitingTime | kernel/sched/sched.c:64-73 | in runs of ticks at which nobody is due and of steps that neither wake nor block anybody, mutex operations included: the process at index k of ready queue 1, 2 or 3 becomes current at tick k+1, at tick Q1+k+1, or at tick 2*Q1+Q2+(1 if the current priority is 1)+k+1, and not before |
| WaitingTime.SettlesExactly | kernel/sched/sched.c:64-73 | in such runs, after exactly 2*Q1+Q2+(1 if the current priority is 1) ticks everybody is at the lowest priority |
| WaitingTime.TakingTurns | kernel/sched/sched.c:64-73 | from then on any number n of ticks rotates the line of processes by n modulo its length |
| WaitingTime.RoundRobin | kernel/sched/sched.c:64-73 | after any multiple of the number of processes in line the same one runs and the line is the same |
| SyncLaws.SemaphoreLaw | kernel/locking/sem.c:4-30 | over every run from a value v >= 0: the value is v + ups - downs, min(downs, v + ups) have passed, and those stopped are those resumed, in the same order, followed by the queue |
| SyncLaws.SemaphoreExcludes | kernel/locking/sem.c:14-30 | if every process calls up and down in pairs, at most v processes are between their down and their up |
| SyncLaws.NewSemaphoreLaw | kernel/locking/sem.c:4-30 | a semaphore nobody waits for, initialized with v, follows that law with the value v over every run from then on |
| SyncLaws.BarrierLaw | kernel/locking/barrier.c:4-24 | over every run those let through are the first n * (arrivals / n) arrivals in order and the queue is the rest |
| SyncLaws.NewBarrierLaw | kernel/locking/barrier.c:4-24 | a barrier nobody waits for, initialized with a goal, follows that law with rounds of that many |
| CondLaws.CondStep | kernel/locking/cond.c:11-44 | in every step the counter is the queue length; a wait appends, a signal takes the first, a broadcast takes all, nothing else touches the queue |
| CondLaws.ConditionLaw | kernel/locking/cond.c:11-44 | over every run those who waited are those who joined ready queue 1 by signals and broadcasts, in the same order, followed by the queue; the counter is the difference of the two numbers |
| CondLaws.WaiterIsQueued | kernel/locking/cond.c:19-22 | the step that frees the mutex has already queued the waiter, so no later signal can miss it |
| CondLaws.SignalWakesFirst | kernel/locking/cond.c:26-34 | a signal makes the first waiter ready behind the others of ready queue 1 and changes no other queue; without a waiter it changes nothing |
| CondLaws.AcquiringEndsOwning | kernel/locking/cond.c:22-23 | a process that waited, or is acquiring, goes on to its own code only in a step in which it gets the mutex |
| CondLaws.OwnerKeeps | kernel/locking/lock.c:38-48 | a holder keeps its mutex in every step but a release of it, a condition wait with it, and its own death |
| MailboxLaws.FirstBoxIsFresh | libs/mailbox.c:8-24 | a box on a kernel that has just started is a state the mailbox laws begin with |
| MailboxLaws.OneInside | libs/mailbox.c:79-105 | at most one process is inside the box, and it owns the mutex |
| MailboxLaws.LoopStep | libs/mailbox.c:82-105 | one read or write of the process inside: what it has read of the fill level stays true, the fill level stays in range, and the content it sees changes by exactly the byte it moves |
| MailboxLaws.ActKeepsSystem | libs/mailbox.c:75-139 | every single read, write, call or interrupt, and every kill, keeps the fill level in range, what the process inside knows true, and every byte accounted for, the one being moved included |
| MailboxLaws.MailboxConserves | libs/mailbox.c:75-139 | over every run, with messages of any lengths: the fill level stays in range, and whenever nobody is inside the bytes written are the bytes read plus the live prefix of the buffer, up to one byte for each kill between the two writes of a transfer |
| MailboxLaws.KillIsExact | libs/mailbox.c:87-120 | when the process inside is killed the account stays exact if and only if it was not between its two writes, that of the byte and that of the fill level |
| MailboxTorn.KillMayTear | libs/mailbox.c:87-90 | for every message length a run from a fresh box leads to a sender between its two writes and to the shell, which may kill it; if it does, one byte is lost and the account is not exact |
| MailboxLaws.OnlyTheHolderWrites | libs/mailbox.c:79-105 | an action that changes the shared fields is done by the recorded owner of the locked mutex |
| MailboxLaws.InsideCanGoOn | libs/mailbox.c:82-105 | the process inside always has a next action, and the kernel accepts the call of each one it has; the branch for inconsistent attributes is never reached |
| MailboxSides.SignalIsOwed | libs/mailbox.c:87-125 | after a transfer, with its two writes in either order, a receiver signals exactly if the box was full and a sender exactly if it was empty |
| MailboxSides.ReceiverWakesSender | libs/mailbox.c:123-124 | the signal of a receiver makes the first of those who wait on not_full ready at the end of ready queue 1 and changes nothing else |
| MailboxSides.SenderWakesReceiver | libs/mailbox.c:91-92 | the signal of a sender does this for not_empty |
| MailboxSides.AwaitJoinsOwnSide | libs/mailbox.c:95-130 | a sender that finds the box full waits on not_full, a receiver that finds it empty on not_empty, behind those who came before and with the mutex free |
| MailboxSides.RunKeepsSides | libs/mailbox.c:75-139 | over every run whoever waits on not_full is sending and whoever waits on not_empty is receiving |
| MailboxSides.LeavingFrees | libs/mailbox.c:106-138 | who leaves the box frees its mutex and makes those who wait to come in ready, in order |
| MailboxStack.NobodyWaitsMidway | libs/mailbox.c:95-100 | if all messages have one length that divides the capacity, nobody waits with part of a message sent or received |
| MailboxStack.FinishApplies | libs/mailbox.c:106-142 | an operation that ends is a push that fits or a pop of the top message, reversed |
| MailboxStack.ActRefines | libs/mailbox.c:75-143 | every single read, write, call or interrupt keeps the bytes, with the part the process inside has moved, in step with the stack of messages, which changes when an operation ends |
| MailboxStack.MailboxIsAStack | libs/mailbox.c:75-143 | over every run in which nobody is killed inside the box, the history of operations is a history of a bounded last-in first-out stack of whole messages; whenever nobody is inside, the live buffer is the messages on that stack one after the other |
| MailboxMidway.OtherLengthsWaitMidway | libs/mailbox.c:83-100 | for every length that does not divide the capacity, longer ones included, a run from a fresh box leads to a sender that waits with part of its message sent |
| MailboxMidway.WaitingMidway | libs/mailbox.c:83-133 | nobody can come to wait midway in any such run from any fresh box if and only if the length divides the capacity |
| MailboxBuffer.TransferStores | libs/mailbox.c:87 | undisturbed, the single actions that move a byte put it on top, in whichever order the two writes are done |
| MailboxBuffer.MailBuffer.constructor | libs/mailbox.c:8-24 | a new box is empty and filled with the digit zero |
| MailboxBuffer.MailBuffer.SendOn | libs/mailbox.c:82-105 | the loop in place, up to the end or a full box: the bytes are appended, and one signal is sent exactly if the box was empty |
| MailboxBuffer.MailBuffer.ReceiveOn | libs/mailbox.c:115-137 | the loop in place, up to the end or an empty box: the last bytes are taken in reverse, and one signal is sent exactly if the box was full |
| Strings.StrRev | libs/string.c:85-107 | the two-pointer loop reverses exactly the first length characters; a length below one changes nothing |
| Strings.ReverseTwice | libs/mailbox.c:141-142 | reversing what a stack returned gives the message as it was sent |
| Strings.StrLen | libs/string.c:3-10 | the index of the first NUL |
| Numerals.RenderedIsRight | libs/printk.c:56-101 | for every 32-bit value and radix from 2 to 16 the text is a numeral of at least the padded width whose value is the value, with a sign exactly for negative signed values |
| Numerals.RenderedIsNeat | libs/printk.c:56-101 | the letters are capitals exactly if asked for, and no zero stands in front beyond the padding |
| Numerals.RenderedFits | libs/printk.c:140-178 | in the radixes and paddings a format can ask for, at most 11 characters |
| Numerals.LowDigits | libs/printk.c:74-80 | the do-while loop on unsigned division leaves the digits of the magnitude, lowest first |
| Numerals.ReverseFirst | libs/printk.c:90-98 | the in-place loop reverses a prefix of the buffer and touches nothing behind it |
| Numerals.MiniItoa | libs/printk.c:56-101 | the buffer holds the text and a NUL, nothing behind them changes; a radix above 16 writes nothing; the most negative value is covered |
| Numerals.GetPara | test/test_shell.c:201-216 | the loop with 32-bit wrap-around yields the wrapped value of a string of digits, and -1 at the first other character |
| Numerals.PrintThenParse | test/test_shell.c:201-216 | every 32-bit value printed as unsigned decimal with any padding is read back as itself; printed as signed, the same holds exactly for values that are not negative or are -1 |
| Format.MiniBuff.Putc | libs/printk.c:109-117 | a character and a NUL are added if both fit, otherwise nothing is written |
| Format.MiniBuff.Puts | libs/printk.c:119-133 | as many characters as fit are added, with a NUL behind them |
| Format.MiniStrLen | libs/printk.c:47-54 | the length of the text before the first NUL |
| Format.ReadDirective | libs/printk.c:152-167 | reads a conversion without passing the NUL of the format |
| Format.MiniVsnprintf | libs/printk.c:135-204 | for every format and matching arguments the result is the first min(ideal length, buffer_len - 1) characters of the untruncated text; that number is returned, nothing else is written, and the format is not read past its NUL |
| Format.Printk | libs/printk.c:206-219 | what is sent is the first 255 characters of the ideal text, ended by NUL |
| Format.PlainText | libs/printk.c:148-149 | a format without percent signs stands for itself |
| FormatLaws.Compose | libs/printk.c:144-201 | if a complete format takes exactly its arguments, then with another format behind it the text is that of both, one after the other, each from its own arguments |
| FormatLaws.NumberAlone | libs/printk.c:175-185 | %d, %u, %x and %X, with or without a padding, take one argument each, and the text stands for its value in the right radix, sign, width and case |
| FormatLaws.CharacterAlone | libs/printk.c:187-189 | %c takes one argument and stands for the character of its low byte |
| FormatLaws.StringAlone | libs/printk.c:191-194 | %s takes one argument and stands for the string up to its NUL |
| FormatLaws.OtherAlone | libs/printk.c:196-198 | any other character, a percent sign included, stands for itself and takes no argument |
| FormatLaws.UnfinishedIsDropped | libs/printk.c:157-173 | a format that ends within a conversion stands for what comes before it |
| FormatLaws.TwoNumbers | libs/printk.c:144-201 | two decimal conversions with any plain text between them stand for the two arguments in order |
| FormatLaws.CursorCommand | drivers/screen.c:13-17 | the cursor command carries the row first and then the column |
| Format.PrintfThenParse | libs/printk.c:140-178 | a padded decimal conversion in a format, read back by the shell's parser, gives the value |
| Screen.OpIsSimulated | drivers/screen.c:34-191 | each operation keeps "what was sent is shown", and has the effect on page and terminal that a screen which always redraws everything has, wherever the cursor was moved; only the terminal's own cursor may differ, after a refresh with a negative one |
| Screen.DifferentialIsFull | drivers/screen.c:34-191 | over every sequence of writes, scrolls, clears, cursor moves to anywhere and refreshes the differential and the full redraw leave the same page and show the same |
| Screen.CursorIsTheSame | drivers/screen.c:34-191 | and if no refresh finds a negative cursor the terminals agree in their cursors too |
| Screen.ShowsThePage | drivers/screen.c:164-191 | after a refresh the terminal shows the page if and only if no NUL cell is in it |
| Screen.EveryRefreshShowsThePage | drivers/screen.c:114-137 | after the whole screen was cleared, from whatever state, and without writing NUL, every refresh leaves exactly the page on the terminal |
| Screen.ScrollMovesLowerRows | drivers/screen.c:63-112 | a new line on the last row, or a character in the last cell, moves rows 17 to 29 up by one, blanks row 29 and leaves rows 0 to 15 alone |
| Screen.TypedIsOnPage | drivers/screen.c:90-111 | wherever the cursor was, after a character it is on the page |
| Screen.WhenItScrolls | drivers/screen.c:65-111 | from a cursor on the page, exactly a new line on the last row and a character in the last cell scroll |
| Screen.TextAppears | drivers/screen.c:147-155 | text that fits in the line appears there in order, moves the cursor by its length, and changes nothing else |
| ScreenLaws.CharacterAppears | drivers/screen.c:84-99 | an ordinary character changes exactly the cell at the cursor, which moves on, at the end of a line to the beginning of the next |
| ScreenLaws.NewLineGoesDown | drivers/screen.c:65-83 | new line and enter go to the first column of the next line and change no cell |
| ScreenLaws.BackspaceBlanks | drivers/screen.c:70-78 | backspace goes one to the left and blanks that cell, and does nothing at the beginning of a line |
| ScreenLaws.CursorComesBack | drivers/screen.c:90-104 | from off the page, where the three special characters leave the cursor |
| ScreenLaws.TwoLines | drivers/screen.c:147-155 | a line, a new line and a line: the first text where it began, the second from column 0 of the next row, the cursor behind it, and every other cell unchanged |
| ScreenLaws.FullLineWraps | drivers/screen.c:84-99 | a text that ends in the last column leaves the cursor at the beginning of the next line |
| ScreenLaws.ClearBlanksLines | drivers/screen.c:122-139 | clearing blanks exactly the cells of the given lines and puts the cursor home |
| ScreenLaws.MovedCursorWrites | drivers/screen.c:141-145 | after a move no cell has changed and the next character appears where the cursor was moved to |
| ScreenLaws.RefreshPutsCursor | drivers/screen.c:189-190 | a refresh leaves the terminal's cursor one row above and one column left of the page's, or in its row or column if that is the first |
| Screen.ScreenBuffer.constructor | init/main.c:203-207 | start-up fills both buffers with the digit zero |
| Screen.ScreenBuffer.InitScreen | drivers/screen.c:114-119 | from then on what was sent is what is shown |
| Screen.ScreenBuffer.Scroll | drivers/screen.c:34-60 | the two nested loops shift the lower rows in place and forget what was sent of them |
| Screen.ScreenBuffer.MoveCursor | drivers/screen.c:141-145 | the cursor is where it was told to be, on the page or not |
| Screen.ScreenBuffer.WriteCh | drivers/screen.c:63-112 | the in-place write is the page's write, for every character and every cursor that leads to a cell; the cursor ends on the page |
| Screen.ScreenBuffer.WriteText | drivers/screen.c:147-155 | writes the characters up to the NUL one by one, from any cursor that leads to a cell; the terminal is not touched |
| Screen.ScreenBuffer.Reflush | drivers/screen.c:164-191 | the nested loops send exactly the cells that differ, for every cursor, on the page or not, and leave the terminal's cursor where the last command puts it |
| Screen.ScreenBuffer.ScreenClear | drivers/screen.c:122-139 | blanks exactly the rows from line1 to line2 that exist, moves the cursor home and refreshes, whatever was on the screen |

## Left out

Departures and readings of the source:

- kernel/sched/queue.c:85 writes through the `next` field of slot 0 where the unlink means the removed item's; slot 0 is never linked, so as written the successor's `prev` is not set. The kernel is modelled with the intended unlink; what the literal one does to a queue is proved separately, the fault it may raise is not modelled.
- The endless loops after an error (init/main.c:278-281 and 386-389, kernel/locking/lock.c:50-51) are preconditions: a free slot, a victim not blocked on a semaphore, condition or barrier, a free place for the lock. So are searches that would run past the table, and the release of a free mutex, or a condition wait with one, which searches for the owner -1.
- Searches for an id begin at slot 2, so the shell in slot 1 is never found. The shell is assumed never to block, sleep or use mutexes, as its code does; that is what makes some process always ready.
- `do_wait` does not test that its target is alive. Runs wait for living processes only; what happens otherwise is proved separately.
- A blocked acquisition and the acquisition at the end of a condition wait are "block now, try again as a later step of the same process".
- Time is a natural number advanced by the environment; the wrap-around of the 32-bit counter is not modelled, and neither is that of the process id counter and of the object counters. The interrupt handler's addition to the clock after a process resumes is an environment step of its own.
- Runs begin at the first scheduler call, which leaves slot 0.
- The links of PCBs are objects updated in place; the other PCB fields and the tables of objects are sequences that the methods reassign, so aliasing between them is not modelled.
- The terminal is taken to drop a cursor command with a negative number, and to stop at its edge for one beyond it.
- Per-process cursor positions, the `process_id` copy, stack addresses, `historical_num` and names are not part of the state.
- MailboxStack.MailboxIsAStack: says nothing of runs in which a process is killed inside the box, which may leave part of a message there; the account of bytes covers those.

Parts of the repository that are not modelled:

- Assembly context switching, exception entry, CP0 registers and the boot path; only "kernel code is atomic" is taken from them.
- The raw block and unblock system calls, which change a status without rescheduling, and the system call table.
- Spin locks, which are not atomic as written and not used.
- Opening and closing mailboxes by name; a box is taken as open, with its mutex and conditions used by it alone.
- Anything a compiler may do to the mailbox's loops beyond choosing the order of the two writes of a transfer.
- Liveness of the mailbox: it signals on the step from empty, or from full, only, so a receiver may sleep while there is data.
- Runs in which a mutex, condition, semaphore or barrier is initialized while it is in use; what one such call does to the kernel is proved.
- Reads of missing variadic arguments: arguments match the format. Radix 0 and 1, which no caller uses, are excluded.
- What the terminal makes of control characters other than new line, backspace, enter and NUL, and text that `printk` sends straight to the serial port past the screen buffer. A character written at a cursor that leads to no cell of the page lands in other memory and is excluded.
- The shell's command line, the keyboard, the demonstration tasks and the process listing: user interface.
- The remaining routines of libs/string.c.
