# UMCG: a verified model of the M:N scheduling protocol

UMCG (User Managed Concurrency Groups) lets a process schedule its own threads.
A *worker* thread runs only while a *server* thread has switched to it; when the
worker blocks, wakes, waits, exits, times out or is preempted, the kernel reports
an *event* to a server. This project models the protocol at four levels and
proves properties of all runs at each of them:

1. **The Linux kernel side**, as a transition system over any number of tasks
   (`LinuxProtocol`, `LinuxSafety`, `LinuxRuns`, `LinuxDelivery`, `LinuxOrder`,
   `LinuxTimers`), again one lock
   section at a time for the idle lists (`LinuxWakeup`) and one atomic access at a
   time for a timed wait (`LinuxTimeout`), and as a class that keeps the list
   threaded through the workers and writes user buffers (`LinuxCollect`,
   `LinuxKernel`).
2. **The Nanos klib side**, in the same way (`KlibProtocol`, `KlibSafety`,
   `KlibRuns`, `KlibHistory`, `KlibDelivery`, `KlibTimeout`, `KlibWaitRace`), with collection into
   a buffer that may fault (`KlibBuffer`, `KlibLoop`), runs in which any buffer may
   (`KlibFaults`), and a class for the calls and hooks (`KlibKernel`).
3. **The user scheduler on top of the klib**: the bookkeeping of one server
   (`Scheduler`), its loops as they change queues in place (`SchedulerLoop`), the
   life of a task (`TaskFlow`), and kernel, router, workers and servers stepping in
   any order (`SchedulerSystem`, `SchedulerSafety`, `SchedulerRuns`,
   `SchedulerProgress`, `SchedulerBound`, `SchedulerOrder`).
4. **Completion accounting**: deciding that all tasks are done from two counters
   read one after the other, while tasks submit tasks to a bounded queue
   (`Completion`), and the same object used by one thread (`TaskStats`).

`Events` has the 64-bit report word, `Buffers` user memory that can fault, `Lists`
facts about lists, sizes and sums; `LinuxExamples` and `KlibExamples` are runs into
the places where a property stops holding.

In the transition systems one step is one system call body or hook unless said
otherwise; a step kills the process or writes through a stale pointer exactly where
the code does. The classes have one method per call or hook; its contract says that
the abstract state moves by the protocol's step and that the invariant of the
protocol is kept, so everything proved about runs holds of the methods.

`dafny verify dfyconfig.toml` checks the whole project.

## Where the code does not do what one would expect

- klib, a fault on the TIMEOUT word of a timed-out swap: its WAIT word has been
  written and the worker stays listed, so it is reported again. `OnceUnlessTorn`
  says exactly when.
- klib, a fault on the first word of a returning switch: the event is gone
  (`SwitchAction`, `LostWait`), and nobody hears of a worker whose WAIT went that way
  (`ForgottenForEver`). `AccountedWithFaults` is the balance of every run with faults.
- Linux, a fault on the first word loses the mail in the same place and kills
  nobody, every later one kills (`CollectEvents`). A worker whose WAIT or PREEMPT was
  lost is never available again (`SwallowedWait`, `GoneForEver`).
- klib, a timed wait can return 0 although TIMEOUT was reported, in two ways: the
  timer handler lists the worker before it sets the value, and removing the timer
  need not wait for it (`LateHandlerReturnsZero`); or it finishes before the call
  itself, which registers the timer first, stores 0 over its value
  (`EarlyHandlerReturnsZero`). `ReturnAgreesIffHandlerIsInTime` is the exact
  condition.
- klib, a swap puts the worker on the list before it registers the timer, so a switch
  can remove the timer before there is one. The timer then stays behind and can end a
  later wait that has no timeout (`TimerLeftBehind`); `TimerIsLeftIffArmedLate` says
  when.
- klib, a worker is WAITING before its event is in the slot: a switch to a worker
  between these two stores redirects the write (`UncleanSwitchRedirects`). Every wait
  of a run hits its slot if and only if no switch does that (`HitIffClean`). A server
  that has the WAIT in hand is safe (`RuledWaitsHitTheirSlot`); so is one that
  switches to a worker whose event is in a slot not yet returned.
- Linux, a switch to a worker with a timeout outstanding can kill
  (`SwitchIsSafeIffDisarmed`, `TimedWaitInHand`), and a signal lets a waiting worker
  set one anew (`SwitchIsSafeBehindSignalsIff`); a switch that leaves no room for a
  report makes the next wait kill (`NextWaitIsSafeIffRoomGiven`, `MailWithoutRoom`).
- Linux, an ATTACHED server that a signal interrupts may go back into its wait only
  without a timeout: the timeout stores RUNNING over ATTACHED
  (`ReentryIsSafeIffNoTimeoutWhileAttached`, `TimedReentry`).
- Linux, the status store of `umcg_wake_idle_server` can come after the server has
  timed out: it then kills a server that waits again, or lands on ATTACHED, after
  which the worker's next report kills (`TimeoutsKillAndOverwrite`,
  `OverwrittenServerKills`). `HarmIffUnsafe` is the exact condition, and every
  timeout of a sleeping server meets it for a moment (`EveryTimeoutIsUnsafe`).
- Linux, the check for a worker already on the idle list misses the last one, whose
  second enqueue would tie the list into a ring (`RingIsNoList`); no run asks for it.
- Linux, work stays listed with every server asleep if a server unregisters as the
  last that is not IDLE (`AttendedStep`, `AbandonedWork`); nothing else leads there
  (`WorkIsAttended`).
- Scheduler, a worker at the head of `pending` need not get the next task: a turn that
  finds no task sends it to the end of the queue. With one task at a time another
  worker can get them all (`StarvingRun`). Its place in the queue bounds its wait while
  there is work (`BoundedWait`), and `ServedAtItsTurnIff` is the exact condition.
- Scheduler, a queue of pending workers none of which is Waiting makes
  `try_schedule_tasks` turn for ever (`SpinsForEver`); no run gets there.
- Accounting, a submission does not wait for room: a full queue drops the task, which
  stays counted for ever (`RefusingRun`). A true answer can still come if and only if
  none has been dropped and there is a way out: a worker is free, or some task that
  holds one is submitting no more than the queue has room for (`AnswerComesIff`). With
  tasks that submit one at a time, the trap is a full queue with every worker inside a
  submission (`TrapOfSingleThreads`, `TrappingRun`). A reader that loaded before the
  last completion gets false even after another got true (`OldReaderStillGetsFalse`).

## Model

| member | source | states |
|---|---|---|
| `Events.EncodeRoundTrip` | src/umcg_base.rs:38-39 | the reader's shift and mask give back the id and event of every word the kernel writes for an accepted id, and no such word is the terminating zero |
| `Events.OnlyAlignedIdsSurvive` | resources/umcg_with_logs.c:203-204 | an id survives encoding and decoding if and only if registration accepts it |
| `Events.DecodeRoundTrip` | src/attempt2.rs:402-403 | a buffer that holds encoded reports and is then full or zero-terminated decodes to exactly those reports, whatever lies behind |
| `Events.EventNumbers` | src/umcg_base.rs:67-79 | the six event numbers, the mask and the shift |
| `LinuxSafety.StepKeeps` | resources/complete_umcg_changes.patch:2870-3871 | every system call and hook that respects the user rule leads from a state of the invariant to another and does not kill |
| `LinuxRuns.NoRunIsKilled` | resources/complete_umcg_changes.patch:2870-3871 | no legal run of any length over any tasks reaches a kill label, a bad status, a bad event or an overwritten mailbox |
| `LinuxRuns.NoMoreRunningThanServers` | resources/UMCG-how-should-we-proceed-Should-we.mbox:1867-1869 | in every reachable state RUNNING workers plus RUNNING servers are at most the registered servers, because umcg_server maps the RUNNING workers one-to-one onto the ATTACHED servers |
| `LinuxRuns.EveryWorkerIsInOnePlace` | resources/complete_umcg_changes.patch:2990-3014 | every registered worker executes, sleeps, or has exactly one WAKE, WAIT or PREEMPT report: on the idle list, in one mailbox, with user space, or swallowed by a fault |
| `LinuxRuns.GoneForEver` | resources/complete_umcg_changes.patch:3286-3292 | a worker whose WAIT or PREEMPT was swallowed is in every continuation still registered, and never again executing, listed, announced or known |
| `LinuxRuns.SwitchIsSafeIffDisarmed` | resources/complete_umcg_changes.patch:3604-3629 | a server may switch to a worker it holds a report for, whatever that worker's timer does first, if and only if no timeout is outstanding |
| `LinuxRuns.SwitchIsSafeBehindSignalsIff` | resources/complete_umcg_changes.patch:3584-3593 | the same whatever the worker's own signals and timer do first: if and only if it has no timeout and is not in the idle loop, which a signal lets it re-enter with one |
| `LinuxRuns.ReentryIsSafeIffNoTimeoutWhileAttached` | resources/complete_umcg_changes.patch:3543-3553 | in every reachable state, a thread that a signal took out of its wait may go back in, with no legal run killed afterwards, if and only if it is not an ATTACHED server with a timeout |
| `LinuxRuns.NextWaitIsSafeIffRoomGiven` | resources/complete_umcg_changes.patch:3283-3292 | a server woken with mail survives its next wait if and only if it gave room for one report |
| `LinuxRuns.NextReportIsSafeIffRoomGiven` | resources/complete_umcg_changes.patch:2870-2888 | if the server switches next instead of waiting, its worker's next report is safe if and only if room was given |
| `LinuxRuns.RegistrationStartsAfresh` | resources/complete_umcg_changes.patch:2990-3033 | a registered server is RUNNING without mail, a registered worker BLOCKED without a server, whatever was left under the tid |
| `LinuxRuns.OverwrittenServerKills` | resources/complete_umcg_changes.patch:2889-2897 | in every reachable state, if the ATTACHED of a running worker's server is overwritten with RUNNING, whatever the worker reports next kills |
| `LinuxExamples.TimedWaitInHand` | resources/complete_umcg_changes.patch:3125-3185 | a legal run to a worker in hand with a timeout outstanding: the timer fires and the switch kills |
| `LinuxExamples.MailWithoutRoom` | resources/complete_umcg_changes.patch:3283-3292 | a legal run to a server with mail: leaving no room makes its next wait kill |
| `LinuxExamples.TimedReentry` | resources/complete_umcg_changes.patch:3548-3553 | a legal run to an ATTACHED server whose re-entry with a timeout leads to a kill |
| `LinuxExamples.SwallowedWait` | resources/complete_umcg_changes.patch:3286-3292 | a legal run in which a fault swallows a WAIT |
| `LinuxExamples.AbandonedWork` | resources/complete_umcg_changes.patch:3035-3060 | a legal run in which the only server that is not IDLE unregisters and leaves a worker listed |
| `LinuxDelivery.CollectConserves` | resources/complete_umcg_changes.patch:3298-3364 | a collection that does not kill moves each report from the list to the buffer, none lost and none twice |
| `LinuxDelivery.ExactlyOnce` | resources/complete_umcg_changes.patch:2870-3871 | in every legal run, as often as a worker blocked, woke, waited, swapped, timed out, was preempted or exited, that event has been written into a server's buffer, was lost with a first word that faulted, or is on its way, in one mailbox or on the idle list |
| `LinuxOrder.AttendedStep` | resources/complete_umcg_changes.patch:2906-2988 | every step keeps this: if a worker is listed and a server registered, some server is not IDLE; but for one step, a server unregistering as the last that is not IDLE while work is listed |
| `LinuxOrder.WorkIsAttended` | resources/complete_umcg_changes.patch:2906-2988 | so it holds at the end of every legal run without such a step |
| `LinuxOrder.WakesTheLatest` | resources/complete_umcg_changes.patch:2969-2988 | a worker waking up, timing out or swapping, and the wake command: if a server is IDLE, exactly one goes from IDLE to RUNNING, the one that went idle last in the run |
| `LinuxOrder.OnlyWakesWake` | resources/complete_umcg_changes.patch:2969-2988 | nothing but these steps and its own timeout or poll makes a server leave IDLE |
| `LinuxOrder.ListIsStack` | resources/complete_umcg_changes.patch:2906-2967 | on both idle lists, who stands further in front went there later in the run |
| `LinuxOrder.WaitBeforeTimeout` | resources/complete_umcg_changes.patch:3334-3356 | whatever a server is told at once about a worker that waited and timed out, the WAIT comes before the TIMEOUT |
| `LinuxOrder.LatestIsToldFirst` | resources/complete_umcg_changes.patch:3298-3364 | of two listed workers a server is told of the one first that was listed later |
| `LinuxOrder.ToldAllThereIs` | resources/complete_umcg_changes.patch:3283-3364 | a server is told its mail first, and of everybody listed unless less than two words are left |
| `LinuxTimers.CanFireIffTimed` | resources/complete_umcg_changes.patch:3187-3211 | after a wait, swap or re-entry the worker can time out if and only if it was given a timeout |
| `LinuxTimers.FiresOncePerTimeout` | resources/complete_umcg_changes.patch:3125-3185 | in every legal run a worker has timed out no more often than it has waited, swapped or re-entered with a timeout |
| `LinuxTimers.CanReenterIff` | resources/complete_umcg_changes.patch:3785-3793 | in every legal run a signal can take a worker out of its wait exactly from when it waits or swaps until it times out or is switched to |
| `LinuxWakeup.NoLostWakeup` | resources/complete_umcg_changes.patch:2906-2988 | one lock section per step: if work is listed and every registered server is on the idle-server list, some thread is between its enqueue and its wake |
| `LinuxWakeup.NoSleepWithWorkWaiting` | resources/complete_umcg_changes.patch:2969-2988 | the same when every server is asleep: a wake is due, or a waker has taken a server and not yet stored its status |
| `LinuxWakeup.StoreFindsTheUntimedServerAsleep` | resources/complete_umcg_changes.patch:2969-2988 | a server that never times out itself is found IDLE in its idle loop by every store aimed at it, whatever the timeouts of others do, and its own enqueue does not kill |
| `LinuxWakeup.HarmIffUnsafe` | resources/complete_umcg_changes.patch:2941-2988 | from every reachable state a kill or a store over ATTACHED can be reached without a further timeout if and only if some server is listed or popped without being asleep, popped while listed, popped twice, or entering without being IDLE |
| `LinuxWakeup.EveryTimeoutIsUnsafe` | resources/complete_umcg_changes.patch:3085-3096 | every expiry of a server in its idle loop leads to such a state |
| `LinuxWakeup.TimeoutsKillAndOverwrite` | resources/complete_umcg_changes.patch:2949-2987 | runs from the start in which the late store makes an enqueue kill, and in which it is about to overwrite ATTACHED |
| `LinuxWakeup.TheLatestIsTaken` | resources/complete_umcg_changes.patch:2924-2988 | a waker takes the server, and a collector the worker, that went onto its list last |
| `LinuxWakeup.ReportEndsTheLoop` | resources/complete_umcg_changes.patch:2889-2904 | after the report of its worker an ATTACHED server can leave its loop |
| `LinuxTimeout.OnlyAttachKills` | resources/complete_umcg_changes.patch:3125-3185 | in a timed wait only a server's attach can kill, exactly when the worker is not RUNNABLE; the kill label of the timeout and the unexpected status of collection are unreachable |
| `LinuxTimeout.TimedWaitAgrees` | resources/complete_umcg_changes.patch:3125-3185 | one atomic access per step: the wait returns -ETIMEDOUT iff exactly one TIMEOUT was reported for it and 0 iff none was, and a swap was reported by exactly one WAIT |
| `LinuxTimeout.NeverTwoTimeouts` | resources/complete_umcg_changes.patch:3298-3364 | at every point of every run at most one TIMEOUT and one WAIT are reported, and no TIMEOUT before the worker has committed to -ETIMEDOUT |
| `LinuxCollect.LinkedMeansNext` | resources/complete_umcg_changes.patch:2906-2923 | the "task on the list" check fires exactly for the workers that have a successor on the list |
| `LinuxCollect.ThreadPush` | resources/complete_umcg_changes.patch:2906-2923 | linking a worker in front of the list represents the sequence with it in front |
| `LinuxCollect.ThreadPop` | resources/complete_umcg_changes.patch:2924-2939 | taking the head and clearing its link represents the rest of the sequence |
| `LinuxCollect.RingIsNoList` | resources/complete_umcg_changes.patch:2906-2923 | pushing the last worker of the list again passes the check and leaves links that represent no list |
| `LinuxCollect.ReaderDecodes` | resources/complete_umcg_changes.patch:3294-3377 | what a finished collection leaves in the buffer decodes to the server's own mail, if any, and then the collected reports in order |
| `LinuxKernel.Kernel.SendMail` | resources/complete_umcg_changes.patch:2870-2904 | umcg_wake_server: the mailbox word is the encoding of the worker's id and event; kills for no server, mail already there, or a registered server that is not ATTACHED |
| `LinuxKernel.Kernel.PushIdleWorker` | resources/complete_umcg_changes.patch:2906-2923 | umcg_enqueue_idle_worker on the threaded list, for every worker: the step, the kill, or the ring |
| `LinuxKernel.Kernel.PopIdleWorker` | resources/complete_umcg_changes.patch:2924-2939 | umcg_dequeue_idle_worker returns the head and leaves the rest |
| `LinuxKernel.Kernel.Leave` | resources/complete_umcg_changes.patch:3035-3081 | umcg_unregister: step, -EINVAL for a bad argument or status or a missing server, otherwise 0; keeps the invariant |
| `LinuxKernel.Kernel.EnterWait` | resources/complete_umcg_changes.patch:3504-3542 | umcg_wait by a server: step, return value for every flag and size, when it kills; keeps the invariant |
| `LinuxKernel.Kernel.ReenterWait` | resources/complete_umcg_changes.patch:3543-3593 | umcg_wait after a signal: step, -EINVAL without the INTERRUPTED flag, -ETIMEDOUT for a server that polls; keeps the invariant under the user rule |
| `LinuxKernel.Kernel.SwitchFromRunningServer` | resources/complete_umcg_changes.patch:3687-3702 | umcg_ctx_switch by a server: step, -ESRCH, -EPERM or -EINVAL, when it kills; keeps the invariant under the user rule |
| `LinuxKernel.Kernel.SwitchFromRunningWorker` | resources/complete_umcg_changes.patch:3660-3684 | umcg_ctx_switch by a worker: step, -ESRCH, -EPERM or -EINVAL, when it kills; keeps the invariant under the user rule |
| `LinuxKernel.Kernel.CollectTurn` | resources/complete_umcg_changes.patch:3298-3364 | one turn takes the head worker, makes it RUNNABLE and writes what its status owes, and kills iff the status is unexpected or a word faults |
| `LinuxKernel.Kernel.CollectWorkers` | resources/complete_umcg_changes.patch:3294-3364 | the loop writes exactly the reports of the workers it takes, in order, no more words than the room given, and kills iff the protocol does or a word it writes faults |
| `LinuxKernel.Kernel.CollectEvents` | resources/complete_umcg_changes.patch:3267-3377 | umcg_server_idle_loop after the sleep: mail first, then the list, then a zero if there is room; the buffer decodes to the mail's event and the collected reports; return value, lost mail on a first-word fault, when it kills |
| `KlibSafety.StepKeeps` | resources/umcg_with_logs.c:108-546 | every call, hook and timer expiry leads from a state of the invariant to another, and no event is written through a stale slot pointer |
| `KlibRuns.NoWildWrite` | resources/umcg_with_logs.c:117-124 | in every run every event goes into the empty slot of a server inside a context switch |
| `KlibRuns.RunningWorkersMatchEmptySlots` | resources/umcg_with_logs.c:496-530 | the RUNNING and PAUSED workers are one-to-one with the servers whose slot is still empty |
| `KlibRuns.IdleListHoldsTheIdle` | resources/umcg_with_logs.c:108-115 | a worker is on the idle list, exactly once, if and only if its status is IDLE or IDLE with TIMEOUT |
| `KlibRuns.TwoSlotSwitchReturnsOneEvent` | resources/umcg_with_logs.c:353-382 | a switch with two slots returns exactly one event, BLOCK, WAIT, PREEMPT or EXIT, and leaves the list alone |
| `KlibRuns.GrammarCounts` | resources/umcg_with_logs.c:117-191 | in every history of the event grammar switch-ins equal BLOCK+WAIT+PREEMPT+EXIT plus one if attached, WAKEs equal BLOCKs and registrations minus one if asleep, TIMEOUTs never exceed WAITs |
| `KlibRuns.BlockThenWake` | resources/umcg_with_logs.c:141-191 | a BLOCK is followed directly by its WAKE, and every WAKE but that of a registration directly follows a BLOCK |
| `KlibRuns.HistoriesBalance` | resources/umcg_with_logs.c:108-546 | the same balance for every worker in every reachable state, in terms of the kernel's own status |
| `KlibRuns.BoundedWait` | resources/umcg_with_logs.c:262-309 | the worker at position k of the idle list has been handed out by the (k+1)-th collection with room for two, whatever else happens meanwhile |
| `KlibHistory.HistoryIsWhatHappened` | resources/umcg_with_logs.c:108-546 | in every run the history of a worker is what the calls and hooks put it through: which one switched it in or reported which event, in order |
| `KlibHistory.ReturnsTimedOutIff` | resources/umcg_with_logs.c:126-139 | in every reachable state a worker will resume with -ETIMEDOUT if and only if the last WAIT, TIMEOUT or EXIT of its history is a TIMEOUT |
| `KlibHistory.CanFireIffTimed` | resources/umcg_with_logs.c:423-426 | after a wait or swap the timer can fire if and only if a timeout was given |
| `KlibHistory.CanBlockIffPaused` | resources/umcg_with_logs.c:141-166 | in every run an executing worker can block if and only if its pause hook has run since it was last switched to or resumed |
| `KlibDelivery.CollectConserves` | resources/umcg_with_logs.c:262-309 | collection moves each report from the list to the buffer, none lost and none twice |
| `KlibDelivery.ExactlyOnce` | resources/umcg_with_logs.c:108-546 | in every run, as often as a worker has reported an event, it has been written into a server's buffer or is on its way, in one slot or on the list |
| `KlibDelivery.AllDeliveredWhenQuiet` | resources/umcg_with_logs.c:262-382 | with an empty list and no server inside a switch, user space has seen every event exactly once |
| `KlibDelivery.WaitBeforeTimeout` | resources/umcg_with_logs.c:286-299 | whatever a server is told at once about a worker that waited and timed out, the WAIT comes before the TIMEOUT |
| `KlibDelivery.ToldAllThereIs` | resources/umcg_with_logs.c:262-382 | a server is told the event of its switch first, and of everybody listed unless less than two words are left |
| `KlibTimeout.TimeoutReportedIffClaimed` | resources/umcg_with_logs.c:126-139 | one compare-and-swap per step: TIMEOUT is reported at most once, only if the handler claimed the wait, and exactly then by the time the worker runs again |
| `KlibTimeout.ClaimsIffStillWaiting` | resources/umcg_with_logs.c:133-137 | an undisturbed handler claims the wait if and only if the worker still waits, or has swapped and is listed without a timeout |
| `KlibTimeout.ReturnAgreesIffHandlerIsInTime` | resources/umcg_with_logs.c:126-139 | the value the worker resumes with agrees with the report if and only if the handler is not between listing the worker and setting the value, and did not set it before the call stored 0 |
| `KlibTimeout.WaitingLeavesTheEarlyHandler` | resources/umcg_with_logs.c:423-428 | if removing a timer waits for its handler, the value agrees if and only if the handler did not set it before the call stored 0 |
| `KlibTimeout.LateHandlerReturnsZero` | resources/umcg_with_logs.c:131-138 | a concrete interleaving in which TIMEOUT is reported and the wait returns 0 |
| `KlibTimeout.EarlyHandlerReturnsZero` | resources/umcg_with_logs.c:423-428 | a concrete interleaving in which the call stores 0 over the handler's value, with a timer removal that waits |
| `KlibTimeout.TimerIsLeftIffArmedLate` | resources/umcg_with_logs.c:522-531 | the worker runs again with the timer of its wait still registered if and only if the switch removed the timer before the call registered it, and the handler has not run |
| `KlibTimeout.TimerLeftBehind` | resources/umcg_with_logs.c:522-531 | such a run of a swap; the timer then ends a later wait without a timeout, and TIMEOUT is reported for it |
| `KlibWaitRace.HitIffClean` | resources/umcg_with_logs.c:423-428 | one store per step, for every run: every wait writes into the slot of the server it left, still empty and meant for it, if and only if no switch took a worker between its two stores |
| `KlibWaitRace.RuledWaitsHitTheirSlot` | resources/umcg_with_logs.c:423-428 | a rule user space can check: if servers switch only to workers whose WAIT they have in hand, every wait hits its slot |
| `KlibWaitRace.ReturnedCanBeSwitched` | resources/umcg_with_logs.c:353-382 | once its WAIT has been returned, the rule lets any free server switch to the worker |
| `KlibWaitRace.UncleanSwitchRedirects` | resources/umcg_with_logs.c:502-510 | for every worker between its stores and every free server, the switch succeeds, the write goes to the new server and the old slot stays empty |
| `KlibWaitRace.BetweenTheStores` | resources/umcg_with_logs.c:423-428 | a run that follows the rule and has a worker between its stores |
| `KlibBuffer.WritableCollects` | resources/umcg_with_logs.c:262-309 | in a buffer without faults the loop does what the protocol says |
| `KlibBuffer.CollectIntoPrefix` | resources/umcg_with_logs.c:262-309 | with any faults, what is taken is a prefix of the list and what is written is what it owes, plus one WAIT of the next worker if the write tears |
| `KlibBuffer.TornIff` | resources/umcg_with_logs.c:286-299 | a write tears if and only if the first word that faults is the TIMEOUT word of a timed-out swap on the list |
| `KlibBuffer.OnceUnlessTorn` | resources/umcg_with_logs.c:262-309 | collection into a faulting buffer hands out every report exactly once if and only if no write tears |
| `KlibBuffer.CollectIntoFits` | resources/umcg_with_logs.c:266-303 | collection never writes more words than it was given room for, whatever faults |
| `KlibFaults.AccountedWithFaults` | resources/umcg_with_logs.c:262-382 | in every run with any faults no write goes astray, and reported events plus torn writes are written, lost or on their way |
| `KlibFaults.LostIsForgotten` | resources/umcg_with_logs.c:368-371 | a lost WAIT leaves its worker, if it waits on without a timer and without another report, to be forgotten |
| `KlibFaults.ForgottenForEver` | resources/umcg_with_logs.c:262-382 | unless a server switches to it unasked, a forgotten worker stays as it is in every run and nothing about it is written again |
| `KlibExamples.TornRun` | resources/umcg_with_logs.c:286-299 | a run to a timed-out swap on the list, and a buffer whose second word faults: the write tears |
| `KlibExamples.LostWait` | resources/umcg_with_logs.c:368-371 | a run to a filled slot with a WAIT, and a buffer whose first word faults: the event is lost and the worker forgotten |
| `KlibLoop.NegativeTakesNothing` | resources/umcg_with_logs.c:276-280 | a negative return value means nothing was taken off the list; any other is the number of words written |
| `KlibLoop.ZeroMeansEmpty` | resources/umcg_with_logs.c:343-345 | with room for two, collection returns 0 if and only if nobody is listed |
| `KlibLoop.FailsIffFaultsFirst` | resources/umcg_with_logs.c:274-297 | collection returns -EFAULT if and only if there is room, somebody is listed, and the first word faults or the second behind a timed-out swap; otherwise the number of words |
| `KlibLoop.CollectedIsDecoded` | resources/umcg_with_logs.c:262-309 | what a server decodes from a buffer it could write is the event of its switch, if any, and then the collected (worker, event) pairs |
| `KlibKernel.Kernel.EventToSlot` | resources/umcg_with_logs.c:117-124 | umcg_worker_event_to_server: the slot word is the encoding of the worker's id and event; wild iff it is not an empty slot |
| `KlibKernel.Kernel.ServerSwitch` | resources/umcg_with_logs.c:484-513 | step, -ESRCH or -EINVAL, sleeps iff the target is RUNNABLE or WAITING; keeps the invariant |
| `KlibKernel.Kernel.WorkerSwitch` | resources/umcg_with_logs.c:514-533 | step, -ESRCH or -EINVAL, sleeps iff the target is RUNNABLE, for every caller, itself as the target included; keeps the invariant |
| `KlibKernel.Kernel.WriteOwed` | resources/umcg_with_logs.c:275-299 | the words written for one worker: WAIT then TIMEOUT for a timed-out swap, its event otherwise, up to the first fault |
| `KlibKernel.Kernel.CollectLoop` | resources/umcg_with_logs.c:262-303 | the loop ends with state, count and buffer as the faulting collection says |
| `KlibKernel.Kernel.GetEvents` | resources/umcg_with_logs.c:262-309 | umcg_server_get_events: return value, no larger than the room given, state, and the buffer word for word, with a zero behind the reports if there is room and it can be written |
| `KlibKernel.Kernel.ServerPoll` | resources/umcg_with_logs.c:407-413 | -EINVAL below two slots, -ETIMEDOUT iff nobody is listed, -EFAULT iff the first worker's words fault, else 0; the buffer decodes to what was collected |
| `KlibKernel.Kernel.ServerWaitAction` | resources/umcg_with_logs.c:329-351 | a waiting server goes back to sleep if and only if it has not timed out, nobody is listed and no wake is pending; the pending wake is consumed only if it is needed; the exact value otherwise |
| `KlibKernel.Kernel.WakeCommand` | resources/umcg_with_logs.c:566-573 | the wake is pending afterwards if and only if a server sleeps; -EAGAIN otherwise |
| `KlibKernel.Kernel.SwitchAction` | resources/umcg_with_logs.c:353-382 | the slot's word first, then the list: the buffer decodes to the event the worker reported and then what was collected; sleeps iff the slot is empty; the event is lost iff the first word faults; -EFAULT iff the first word or all of the collection faults, else 0 |
| `Scheduler.BlockAndWakeKeepQueues` | src/attempt2.rs:961-1003 | an expected BLOCK or WAKE keeps the queue invariant without any odd branch |
| `Scheduler.WaitKeepsQueues` | src/attempt2.rs:1065-1107 | an expected WAIT keeps the queue invariant, its push succeeds and the worker is pending |
| `Scheduler.ChooseKeepsQueues` | src/attempt2.rs:811-944 | under the queue invariant a turn finds no worker, no task, or starts the first task on a Waiting worker; no push fails and the CRITICAL branch is not taken |
| `SchedulerLoop.ReactKeeps` | src/attempt2.rs:946-1119 | handling an expected event nests at most once, leaves nobody Running, keeps the queues and only adds tasks |
| `SchedulerLoop.SpinsForEver` | src/attempt2.rs:833-841 | if no pending worker is Waiting, after any number of turns the loop is where it was, so it never returns |
| `SchedulerLoop.CalmNeverSpins` | src/attempt2.rs:833-841 | a server that keeps the queue invariant is never in that state |
| `SchedulerLoop.Loop.HandleEvent` | src/attempt2.rs:946-1119 | the recursion over queues and states computes the reaction, for every event in every state |
| `SchedulerLoop.Loop.TakeTurn` | src/attempt2.rs:822-880 | one turn of the loop makes the choice, for every state of the queues |
| `SchedulerLoop.RanIsCloser` | src/attempt2.rs:842-908 | starting the chosen worker uses up one switch, leaves that worker where the switch leaves it and everybody else alone, and one task fewer is left to come |
| `SchedulerLoop.Loop.TryScheduleTasks` | src/attempt2.rs:811-944 | does turn after turn of this until no worker waits or no task is queued; terminates if finitely many tasks are spawned, whatever else the workers do; starts tasks in queue order and loses none; blocked workers stay blocked |
| `SchedulerLoop.AllAreResumed` | src/attempt2.rs:782-806 | handling the WAKEs of a channel resumes each worker named once, in order, and leaves it where its switch leaves it; nobody else is touched |
| `SchedulerLoop.Loop.DrainEvents` | src/attempt2.rs:782-806 | every WAKE received is handled, in order |
| `SchedulerLoop.Loop.Iterate` | src/attempt2.rs:751-807 | one turn of the event loop: tasks are started until no worker waits or no task is queued, then what arrived is handled; invariant and order of tasks are kept |
| `TaskFlow.BeginKeeps` | src/attempt2.rs:168-192 | taking a task from the worker's channel keeps every task in exactly one place and starts none twice |
| `SchedulerSafety.StepKeeps` | src/attempt2.rs:135-1119 | every step of kernel, router, worker or server keeps the invariant that ties both layers together |
| `SchedulerRuns.NothingOddHappens` | src/attempt2.rs:811-1119 | in no run does a context switch fail, a queue overflow, an event arrive in the wrong state or at the wrong server, or the kernel write through a stale slot |
| `SchedulerRuns.BeliefsMatchKernel` | src/attempt2.rs:885-909 | scheduler Waiting implies kernel WAITING, a WAKE in hand implies kernel RUNNABLE, kernel RUNNING or PAUSED implies scheduler Running: why unchecked return codes are safe |
| `SchedulerRuns.WakeConservation` | src/attempt2.rs:402-419 | the tokens kernel BLOCKED, WAKE listed, WAKE in the router, WAKE in the channel total one while the worker counts as Blocked or its BLOCK is unread, and zero otherwise |
| `SchedulerRuns.RecursionDepthIsOne` | src/attempt2.rs:1007-1043 | a returning switch hands over BLOCK or WAIT for the worker switched to, and its handling asks for no further switch |
| `SchedulerRuns.QueueDiscipline` | src/attempt2.rs:245-259 | in every reachable state pending is the Waiting workers without duplicates and running is as long as the others are many |
| `SchedulerRuns.TasksRunOnce` | src/attempt2.rs:1549-1573 | every accepted task is in exactly one of queue, channel, hands of a worker or finished, and no body starts twice |
| `SchedulerProgress.FindUseful` | src/attempt2.rs:740-944 | in every such state with an unfinished task some party other than a submitter can take a step that shortens the way to the end |
| `SchedulerProgress.NoDeadEnd` | src/attempt2.rs:135-1119 | from every reachable state, with a worker and channels of size one or more, all accepted tasks can still be completed without a new task, pause or blocking: no interleaving leads into a dead end |
| `SchedulerBound.WorkIsBounded` | src/attempt2.rs:135-1119 | no livelock: in every run from a reachable state, however interleaved, the steps other than turns that find nothing to do are at most the measure of that state plus five for each new task, pause or blocking |
| `SchedulerBound.QuietMeansDone` | src/attempt2.rs:740-944 | where no party can take such a step any more, every accepted task is done |
| `SchedulerOrder.TurnServesHead` | src/attempt2.rs:811-944 | a turn gives the first task to the worker at the head of `pending`, or sends it to the end if there is none; nobody else is touched |
| `SchedulerOrder.ServedAtItsTurnIff` | src/attempt2.rs:811-944 | in every run, after `k` turns of a server the next is that of the worker then at position `k`, and it is started if and only if a task is queued |
| `SchedulerOrder.BoundedWait` | src/attempt2.rs:811-944 | if no turn finds the task queue empty, the worker at position `k` is started by the (k+1)-th task, whoever joins |
| `SchedulerOrder.StarvingRun` | src/attempt2.rs:925-939 | for every n a run from registration in which one worker gets n tasks and the one that was first none |
| `SchedulerOrder.TasksInOrder` | src/attempt2.rs:1471-1483 | over every run, the tasks that found room are given to workers in the order of their submission, and the rest is the queue |
| `SchedulerOrder.SubmittedIsAcceptedOrRefused` | src/attempt2.rs:1471-1477 | over every run a task is dropped if and only if it was submitted to a full queue, and accepted if and only if there was room |
| `SchedulerOrder.RunningInOrder` | src/attempt2.rs:1065-1107 | over every run, `running` is the workers started, in order, without as many from the front as WAITs were handled |
| `SchedulerOrder.WakesInOrder` | src/attempt2.rs:402-419 | over every run a server resumes its workers in the order in which they woke, through the kernel's list, the router and its channel |
| `SchedulerOrder.RouterTakesNine` | src/attempt2.rs:373-403 | the router takes the first nine listed workers at a time, all if there are no more |
| `SchedulerProgress.SmallestIsInitial` | src/attempt2.rs:513-579 | there is a system from which the runs above start |
| `Completion.TrueAnswerMeansAllCountedAreDone` | src/task_stats.rs:69-73 | a true answer is correct at its second load under any interleaving: every task counted by then is done |
| `Completion.CountersRefineMap` | src/task_stats.rs:50-67 | the counters differ from the number of entries and of true entries exactly by the updates in flight |
| `Completion.TerminationDetected` | src/lib.rs:1163-1187 | once outside submissions have stopped, a true answer means that no task or descendant is being submitted, queued or running |
| `Completion.StartedInOrder` | src/attempt2.rs:1471-1483 | over every run the tasks that found room have started in the order in which they were queued |
| `Completion.AnswerIff` | src/task_stats.rs:69-73 | for every reader in every run the answer is true if and only if there is a task, every counted task is done, and none was counted as completed since the reader's first load |
| `Completion.TerminationIsStable` | src/task_stats.rs:69-73 | after a true answer with outside submissions stopped, nothing moves in any continuation, and a reader gets true exactly if no task was counted as completed since its first load |
| `Completion.OldReaderStillGetsFalse` | src/task_stats.rs:69-73 | a run in which one reader gets true and another, between its loads since before the last completion, gets false |
| `Completion.ReaderCanAskAgain` | src/task_stats.rs:69-73 | a reader that has its answer can ask again, and others keep what they loaded |
| `Completion.RefusedTaskBlocksTheAnswer` | src/attempt2.rs:1569-1571 | while a refused task is counted, the answer is false |
| `Completion.RefusalIsForEver` | src/attempt2.rs:1569-1571 | a refused task stays so in every run |
| `Completion.AnswerComesIff` | src/attempt2.rs:1549-1572 | with the queue's capacity and the number of workers: from every reachable state with a task, the tasks there are can still lead to a true answer if and only if none was refused and a worker is free or held by a task whose submissions in progress fit into the queue |
| `Completion.TrapOfSingleThreads` | src/attempt2.rs:1549-1572 | if every task submits one task at a time and there is a worker, that second condition fails exactly with a full queue and every worker inside a submission |
| `Completion.RefusingRun` | src/attempt2.rs:1471-1477 | for every capacity and number of workers, a run that fills the queue and has the next task refused |
| `Completion.TrappingRun` | src/attempt2.rs:1549-1572 | a run into the trap in which nothing has been refused yet |
| `TaskStats.AllTrue` | src/task_stats.rs:69-73 | as many true entries as entries means that all are true, and conversely |
| `TaskStats.Stats.RegisterTask` | src/task_stats.rs:50-54 | keeps the counters exact if and only if the id is new |
| `TaskStats.Stats.MarkCompleted` | src/task_stats.rs:56-67 | counts a task once however often it is marked, an unknown one not at all, and keeps the counters exact |
| `TaskStats.Stats.AllTasksCompleted` | src/task_stats.rs:69-73 | with exact counters the answer is true iff there is a task and every entry is true |

## Left out

- Waiting for a particular worker (`umcg_server_wait_for_worker` and the klib's wait with a tid): its tail interleaves with a new switch; the schedulers do not use it.
- Fatal signals, exec and exit cleanup, and the klib's nullified waits inside a switch: no run contains them.
- Signals in Linux, between the return of -EINTR and the re-entry: the thread does nothing else meanwhile, and leaving and entering again are one step, `Reenter`, with the new timeout. A server that instead starts another wait or switch there is not in any run.
- `LinuxWakeup`: no server unregisters, none re-enters after a signal, and a poll (timeout 1) by a server already RUNNING is taken as the end of its loop.
- Memory ordering weaker than interleaving of the atomic accesses.
- Time: a timeout may expire at any moment once set, and a preemption may come at any moment.
- Block queues, red-black tree, closures, reference counts and the timer wheel: a blocked thread is one that takes no step, the tree is a map, a timer is registered or not.
- The `-ENOMEM` paths of the klib: allocation does not fail.
- Registration by the scheduler (src/attempt2.rs:513-579) discards switch events, so runs of the whole system start with every worker parked by WAIT.
- PREEMPT and EXIT in the whole system: `handle_event` rejects both, and neither is produced by its steps.
- Shutdown of workers and servers, disconnected channels, the demos, metrics, logging and CPU affinity.
- The second scheduler in src/lib.rs, apart from the order of its `submit`: the same idea with weaker bookkeeping.
- The retry loops of src/umcg_base.rs and their classification of errno values into wait results.
- Wrap-around of the counters, which are machine words.
- LinuxKernel.Kernel.TimedOutWorker: takes the two compare-exchanges as one step; `LinuxTimeout` has them apart.
- KlibKernel.Kernel.TimeoutHandler: takes the handler as one step; `KlibTimeout` has its parts apart.
- KlibTimeout.ReturnAgreesIffHandlerIsInTime: a thread is resumed only once its own call has gone to sleep; what the klib does to a thread still on a CPU is library code.
- SchedulerLoop.Loop.TryScheduleTasks: the loop of one server, with tasks arriving during switches; other servers taking from the shared queue are in `SchedulerSystem`.
- SchedulerProgress.NoDeadEnd: completion stays possible from every state; with `SchedulerBound`, it happens under every thread scheduler that lets some party get on and does not block or pause workers for ever. Fairness itself is not modelled.
- Completion.AnswerComesIff: a worker is free or has a task; servers are not in this model, since a worker that submits can block and so give its server back. A queue has room for at least one task, since none can be created without.
