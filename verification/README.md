# Apexstorm: a verified model of the coroutine runtime and the byte array

The project models the two parts of the Apexstorm C++ server library on which the rest is built, and proves what
they keep.

**The coroutine runtime.** Worker threads share a task queue (`Sched`, `Scheduler`), fibers are swapped in and out,
timers sit in a set ordered by deadline (`Timers`, `TimerManager`), descriptors have one waiter per event (`Events`,
`IOManager`), and the hooked system calls join all four (`Runtime`): a call that would block arms a timeout,
registers its descriptor, parks its fiber, and is raced by readiness, timeout, cancellation and close. Each part is
a transition system with one step per critical section. A run is any sequence of steps of any number of workers, in
any order; a step that is not possible changes nothing. Results are about every run.

**The byte array.** A cursor over a linked list of fixed-size nodes, as a class with real links and buffers
(`ByteArray`), refines a flat byte sequence with a cursor for every node size. The codecs (`Endian`, `Zigzag`,
`Varint`, `Codec`), the file dump and the scatter/gather views used by the socket stream (`Streams`) are built on it.

The imperative parts of the source are classes and methods with loops; each is tied by its `ensures` to a function
on values, and the properties are proved about that function.

## Main results

* In every run of scheduler, fibers, timers and events together, with yields in pieces and resizes late, each fiber is
  in one hand and events, waiters and counts agree throughout exactly if every step is careful: nobody takes a fiber
  that its last worker has not settled, and no late resize drops a registered context
  (`RuntimeTheorems.InOrderExactly`). Runs with whole yields and no late resize are careful
  (`RuntimeWhole.WholeRunsAreCareful`).
* In every careful run a fiber that waits in a hooked call is scheduled at most once per wait; for every step, exactly
  once if the step reaches its event, not at all otherwise (`RuntimeTheorems.WokenOnce`,
  `RuntimeWakes.WokenExactlyWhenReached`); for a whole batch of reports, exactly if the loop takes its event
  (`RuntimeBatch.BatchWakesExactly`).
* In the scheduler alone, no fiber is ever in the hands of two workers exactly as long as nobody takes one that its last
  worker has not settled, if a fiber with a wake-up outstanding or delivered arranges no other and yields only to be
  held (`SchedApart.HeldOnceExactly`).
* A hooked call is over after a step exactly if the step is its successful attempt, its failure to register, its finding
  that it has timed out, or a connect's waking (`RuntimeCalls.CallEndsExactly`). In every run, a call other than a connect
  that ends after a wait has tried again since or has timed out (`RuntimeCalls.WokenTriesAgain`), and one that finds
  itself timed out reports that and tries no more (`RuntimeCalls.TimedOutIsReported`). A call that is not waiting has
  no pending timer (`RuntimeTimers.NoTimerLeft`).
* For every step and event, who waits for it afterwards (`RuntimeEvents.WaiterExactly`); for every callback, of hooks or
  of the program, how many are on their way (`RuntimeEvents.CallbacksConserved`), so that in every careful run each is
  run as often as it was sent, less those on their way (`RuntimeEvents.EachRunOnce`).
* A call reports a timeout only after its time, counted from its first wait, if the deadline fitted 64 bits when it was
  last armed (`RuntimeWakes.TimedOutOnlyAfter`); it can be told at once exactly if it did not
  (`RuntimeCases.EarlyExactly`). The callback of an ended call changes nothing (`RuntimeWakes.LeftoverIsHarmless`).
* When the runtime says that it may stop, somebody is left waiting exactly if the wait was arranged after the read
  that would have seen it (`RuntimeStop.StopAnswerExactly`); and it says so exactly if it was asked to stop and the
  three reads found nothing (`RuntimeStop.AnswersExactly`, for the scheduler alone `SchedAsked.StopExactly`).
* The poller sleeps through no earlier timer, in every run, exactly if no step is unsafe (`Poller.NoWakeIsLost`), and in
  no run in which times fit their words and waits start and are interrupted when they were asked for
  (`Poller.PlainRunsLoseNothing`). The same holds of the poller joined to the composed runtime
  (`RuntimePoller.JoinedLosesNothing`), where it means that no waiting fiber's timer is slept through
  (`RuntimePoller.NeverSleptThrough`). A wait that starts when it was asked for ends exactly at the first deadline, or at
  the cap (`Poller.WaitEndsAtFirst`). In every run a pending timer is due its period after it was last started
  (`TimerPeriods.DueExactly`). Expiry emits exactly the due timers in order (`Timers.ListExpiredExact`); a
  one-shot timer has one fate (`TimerLife.OneShotLife`).
* The pending count, the registered bits, the waiters and the kernel's interest set agree throughout a run exactly
  if no late resize drops a waiter (`EventLoop.RunKeeps`); a batch of reports is handled as reported exactly if every
  later entry reports what entry 0 was left with (`Batches.BatchIsRightExactly`).
* Writing any mixed list of values and reading it back gives the same list exactly when every string's length fits
  its prefix, for every node size, byte order and host (`Codec.Exchange`).

## Where the code does not do what it should

Each is a lemma with a concrete case or an exact condition, and the code is modelled as it is.

* With the state write, the swap and the write-back of a yield apart, a fiber can run in two workers
  (`SchedSingle.SplitYieldBreaksIt`, exact condition in `SchedApart.HeldOnceExactly`).
* `stopping()` reads the timers, the pending count and the scheduler one after another. A fiber that registers in
  between is missed (`RuntimeCases.StopCanMissAWaiter`, exact condition in `RuntimeStop.StopAnswerExactly`). At time
  zero a timer for the last moment reads as none (`RuntimeCases.ZeroClockHidesATimer`, `RuntimeStop.NoTimersExactly`).
* The poller looks at entry 0 of the batch for every entry and overwrites it, so later entries are dropped or taken
  for something else (`EventLoop.SecondWaiterIsLost`, `EventLoop.LaterEntriesAreDropped`, `Batches.PipeFirst`, exact
  condition in `Batches.BatchIsRightExactly`, and for a waiting call in `RuntimeBatch.MissedExactly`).
* The poller can lose a wake-up in four ways, each with a run: it starts to wait later than it asked
  (`Poller.LateBlockLosesWake`); an interrupted wait is called again with the old timeout (`Poller.InterruptLosesWake`);
  the timeout is cast to `int`, which for some timeouts means a wait without limit (`Poller.UnboundedWait`); refreshing
  announces nothing, so a deadline that wraps in 64 bits is slept through (`Poller.RefreshCanLoseWake`). The exact
  condition is `Poller.StepExact`.
* The context vector is resized with a size computed before the lock, so it can shrink. A dropped context stays allocated
  and the kernel still points to it: its waiter is woken by a report, and is out of reach of `delEvent`, `cancelEvent`
  and `cancelAll` (`EventLoop.LateResizeCanLoseAWaiter`, exact condition in `EventLoop.RunKeeps`).
* A call whose timeout does not fit into 64 bits after the current time is told at once that it has timed out
  (`RuntimeCases.TimeoutCanBeEarly`, exact condition in `RuntimeCases.EarlyExactly`).
* Going back counts as a clock rollover from an hour on, but in the first hour of the clock, where the subtraction wraps,
  any step back does, and every timer fires (`TimerPeriods.FirstHourFiresEarly`, exact condition in
  `Timers.RolloverExactly` and `TimerPeriods.EarlyExactly`).
* Reading nothing at the very end of the capacity follows a null node (`ByteArrays.ReadNothingAtEnd`, exact
  condition in `ByteArrays.ByteArray.Read`).
* Dumping a short unread tail from inside a node fails (`Streams.DumpShortTail`, exact condition in `Streams.Dump`).
* A positioned read starts in the cursor's node, whatever the position (`ByteArrays.ReadElsewhere`, exact condition in
  `ByteArrays.ByteArray.ReachedExactly`).
* Receiving nothing, or sending with nothing unread, looks at a slice that is not there (`Streams.Receive`,
  `Streams.Send`).
* `writeStringF16` truncates the length of a longer string (`Codec.LongStringComesBackEmpty`,
  `Codec.ExchangeLongString`, exact condition in `Codec.StringRoundTrip`).
* The header documents the length of `writeStringVint` as a varint; the code writes a fixed 64-bit length on both
  sides, and the model follows the code (`lib/include/bytearray.h:65-66`, `lib/bytearray.cpp:181-184`).

## Conventions

* Fibers, timers and shared records are named by numbers; a timer's number stands for its address.
* The clock is a number that does not go back, except in `Timers` and `TimerLife`, where every call has its own time.
* Whether `epoll_ctl` succeeds is an argument `ok` of each operation; what the kernel reports, what a socket accepts
  and the bytes of a file are arguments too.
* 64-bit wrap-around of deadlines, of the rollover test and of zigzag, and truncation to 16, 32 and 64 bits are
  explicit. Sizes of buffers are unbounded.
* The node size of a byte array is at least 1.
* In `Runtime`, callbacks that a poller has taken from the timer set and not yet scheduled are `hands`; each may be
  scheduled separately, which includes scheduling them together. A timer callback is one step, up to its swap.
* Registering an event that is already registered, and a report of an event that is not registered, stop the
  program in the source and are not steps of the model.

## Model

| member | source | states |
|---|---|---|
| RuntimeTheorems.WokenOnce | lib/hook.cpp:151-205 | in every careful run, yields in pieces, a fiber is scheduled at most once since it last arranged to be, and one that waits in a hook is still held by its event or timer, or was scheduled exactly once, or lost its event to delEvent |
| RuntimeWakes.WokenExactlyWhenReached | lib/iomanager.cpp:324-457 | for every step and every waiting call: scheduled once if the step is readiness, timeout, cancellation or close of its event, dropped if it is delEvent, undisturbed otherwise |
| RuntimeTheorems.RunsOnce | lib/scheduler.cpp:193-241 | in every careful run of the composed system no fiber is in the hands of two workers |
| RuntimeTheorems.StepKeeps | lib/hook.cpp:106-208 | every step of hooks, timers, events, workers and pollers keeps the composed invariant (waiters and slots match, each sleeper has one token, running fibers are waited for only on the way to their yield) exactly if it is careful, and otherwise a fiber is in two hands or counts and waiters disagree |
| RuntimeTheorems.InOrderExactly | lib/scheduler.cpp:188-292 | over every run from a new runtime: each fiber is in one hand and events, waiters and counts agree throughout exactly if nobody takes a fiber that its last worker has not settled and no late resize drops a registered context |
| RuntimeWhole.WholeRunsAreCareful | lib/scheduler.cpp:229-270 | a run in which every worker settles the fiber it left before anything else happens, and nobody resizes late, is careful |
| RuntimeWaits.ResizeKeeps | lib/iomanager.cpp:246-270 | a late resize keeps the composed invariant exactly if it drops no registered context |
| RuntimeTheorems.RunKeepsInv | lib/hook.cpp:106-208 | the composed invariant holds along every careful run |
| RuntimeTheorems.StartIsGood | lib/iomanager.cpp:189-225 | a new runtime satisfies the composed invariant |
| RuntimeTheorems.Reachable | lib/hook.cpp:106-208 | every state reached from the start by a careful run satisfies the composed invariant |
| RuntimeTheorems.ReleaseWakes | lib/iomanager.cpp:372-409 | taking a waiting call's event schedules its fiber exactly once |
| RuntimeTheorems.MaskWakes | lib/iomanager.cpp:411-457 | taking several events of a descriptor schedules a waiting fiber exactly if its event is among them |
| RuntimeWakes.ReadyWakes | lib/iomanager.cpp:556-605 | readiness schedules a waiting fiber exactly if it covers its event |
| RuntimeWakes.CloseWakes | lib/hook.cpp:464-478 | closing a descriptor schedules exactly the fibers that wait on it |
| RuntimeWakes.CancelWakes | lib/iomanager.cpp:372-409 | cancelling an event schedules the fiber that waits for it and no other |
| RuntimeWakes.TimeoutWakes | lib/hook.cpp:151-168 | a timeout callback schedules the waiting fiber exactly if the call is live and not yet timed out |
| RuntimeWakes.DelDrops | lib/iomanager.cpp:324-370 | deleting an event drops its waiter without scheduling it |
| RuntimeWakes.TimedOutOnlyAfter | lib/hook.cpp:142-205 | in every careful run a call that finds itself timed out has a timeout and has waited all of it since its first wait, if the deadline fitted 64 bits when it was last armed |
| RuntimeWakes.EarlyExactlyWhenWrapped | lib/hook.cpp:150-170 | the deadline a call arms is earlier than asked exactly when clock plus timeout does not fit 64 bits, and then it is due at once |
| RuntimeWakes.RecordsAreNew | lib/hook.cpp:133-134 | a step continues a call, ends it, or begins one with a record nobody had |
| RuntimeWakes.StaysDead | lib/hook.cpp:147-160 | a record that is gone stays gone along every run |
| RuntimeWakes.LeftoverIsHarmless | lib/hook.cpp:153-168 | the timeout callback of an ended call changes nothing, in any later state |
| RuntimeWakes.TimeoutTakesOwnExactly | lib/hook.cpp:155-167 | a live timeout callback takes its own call's event exactly if that call still waits for it |
| RuntimeCalls.CallEndsExactly | lib/hook.cpp:137-207 | for every step and every fiber in a call: the call is over exactly if the step is its successful attempt, its giving up, or its check when timed out or a connect; otherwise its arguments stay, it is marked exactly if it was or its timeout callback ran, its first wait is kept, and after a check it is about to try again |
| RuntimeCalls.WokenTriesAgain | lib/hook.cpp:194-203 | in every run a call other than a connect that has registered or been woken and is over has made another attempt since, or has timed out |
| RuntimeCalls.TimedOutIsReported | lib/hook.cpp:198-200 | in every run a call that finds itself timed out makes no other attempt and ends by reporting it |
| RuntimeCalls.RefusedFails | lib/hook.cpp:173-187 | in every run a call whose registration is refused makes no other attempt and ends by failing |
| RuntimeCalls.CallFromBeginning | lib/hook.cpp:106-208 | in every run from a call's beginning: as long as it lasts it has the descriptor, event, timeout and kind it was made with, and it is over exactly if one of the four ends has come, a connection made only for a connect |
| RuntimeCalls.HowItEnds | lib/hook.cpp:137-207 | the same from any point of the call |
| RuntimeCalls.SleepEndsExactly | lib/hook.cpp:221-244 | a sleep is over exactly by its own last step |
| RuntimeTimers.NoTimerLeft | lib/hook.cpp:173-196 | in every run, careful or not, a pending timeout belongs to a call that has armed it and not come back: a call that tries, has come back, or is over has none, and one that waits has only its last |
| RuntimeTimers.StepOwned | lib/hook.cpp:150-196 | every step keeps that |
| RuntimeEvents.WaiterExactly | lib/iomanager.cpp:256-457 | for every careful step and every event: nobody waits for it if the step takes or deletes it, else the fiber or callback the step registers, else who did before |
| RuntimeEvents.CallbacksConserved | lib/iomanager.cpp:529-605 | for every step and callback: those in a poller's hands, queued or with a worker grow exactly by what was scheduled, expired or waited for an event the step takes, and shrink exactly by what the fiber that swaps out ran |
| RuntimeEvents.EachRunOnce | lib/iomanager.cpp:529-605 | in every careful run from the start a callback was run as often as it was sent on its way, less those still on it |
| RuntimeCases.TimeoutCanBeEarly | lib/hook.cpp:142-205 | for every clock and timeout whose sum reaches 2^64, a run from a new runtime in which a call is told at the time of its first wait that it timed out |
| RuntimeCases.EarlyExactly | lib/hook.cpp:142-205 | for every clock and positive timeout of 64 bits: some careful run tells a call at the time of its first wait that it timed out exactly if their sum reaches 2^64 |
| RuntimeBatch.BatchWakesExactly | lib/iomanager.cpp:538-606 | the loop over a batch schedules a waiting fiber once if its descriptor is entry 0 and its event was reported, or comes later and entry 0 was left with its event, and leaves every other fiber alone |
| RuntimeBatch.FirstEntryWakes | lib/iomanager.cpp:559-605 | a waiting call whose descriptor is entry 0 is woken exactly if its event, an error or a hang-up was reported |
| RuntimeBatch.LaterEntryWakes | lib/iomanager.cpp:567-605 | one whose descriptor comes later is woken exactly if, somebody having been handed over for entry 0, its event is registered and unreported there, or, nobody having been, its event's bit is set there |
| RuntimeBatch.MissedExactly | lib/iomanager.cpp:538-606 | a waiting call reported as a later entry is missed exactly if entry 0 was left without its event |
| RuntimeBatch.LoopIsRun | lib/iomanager.cpp:538-606 | the loop over a batch is a run of the composed runtime, a step for each round, and keeps its invariant |
| RuntimeStop.StopAnswerExactly | lib/iomanager.cpp:475-483 | over every careful run before, between and up to the three reads: if the answer is to stop, nothing executes, and a fiber is still to be scheduled exactly if a poller holds its wake-up, its event was registered after the second read and not taken since, or it lay down after the first and its timer is still set (or did so before, at time zero, until the end of time) |
| RuntimeStop.AnswersExactly | lib/iomanager.cpp:475-483 | over every careful run of a runtime not yet asked to stop: the answer is to stop exactly if there was no timer at the first read (or the last moment's at time zero), nothing registered at the second, and by the third it was asked to stop, every task was taken and no worker was between picking and counting down |
| RuntimeStop.FlagsAlong | lib/scheduler.cpp:99-150 | both stop flags are up after a careful run exactly if they were before or it was asked to stop on the way |
| RuntimeStop.StoppingIsSound | lib/iomanager.cpp:475-483 | if nothing is registered after the second read, no timer set after the first, and the time is not zero, the answer leaves only fibers that were dropped or whose wake-up a poller holds |
| RuntimeCases.StopCanMissAWaiter | lib/iomanager.cpp:475-483 | a run from a new runtime in which the answer is to stop while a fiber waits for its event |
| RuntimeStop.NoTimersExactly | lib/timer.cpp:144-159 | the next deadline reads as none exactly if the set is empty, or at time zero if the first deadline is the last moment there is |
| RuntimeCases.ZeroClockHidesATimer | lib/timer.cpp:144-159 | a run in which a pending timer reads as none |
| RuntimeStop.WaitStep | lib/hook.cpp:173-190 | for every step: a call comes to wait exactly by registering, and stops waiting exactly by a step that takes or deletes its event |
| RuntimeStop.WaitHistory | lib/hook.cpp:151-205 | a call waits at the end of a careful run exactly if it did at the start and nothing took its event, or it registered on the way and nothing took it since |
| RuntimeStop.SleepStep | lib/hook.cpp:221-244 | for every step: a sleeper comes to have a timer set exactly by lying down, and stops having one exactly when timers are expired and it is due |
| RuntimeStop.SleepHistory | lib/hook.cpp:221-244 | the same for sleepers along every careful run |
| RuntimeSteps.InternalKeeps | lib/scheduler.cpp:188-292 | steps of workers between hooks, settling included, keep the composed invariant unless they take a fiber too early |
| RuntimeSteps.YieldMoves | lib/fiber.cpp:222-240 | swapping out keeps the composed invariant, up to the token the fiber's callback held |
| RuntimeSteps.ParkKeeps | lib/hook.cpp:188-190 | parking a fiber keeps the composed invariant, also when it was woken before it parked |
| RuntimeWaits.SetTimerKeeps | lib/hook.cpp:150-170 | arming a call's timeout keeps the composed invariant, on the first wait and on every retry |
| RuntimeWaits.RegisterKeeps | lib/hook.cpp:173-187 | registering the descriptor links the slot to the call and keeps the composed invariant |
| RuntimeWaits.BeginSleepKeeps | lib/hook.cpp:221-244 | sleeping arranges exactly one wake-up |
| RuntimeWaits.ReleaseKeeps | lib/iomanager.cpp:372-409 | taking one event and scheduling its waiter keeps the composed invariant |
| RuntimeWaits.MaskIsReleases | lib/iomanager.cpp:594-604 | handing over a mask of events is handing them over one by one |
| RuntimeWaits.DelKeeps | lib/iomanager.cpp:324-370 | deleting an event keeps the composed invariant |
| RuntimeRuns.RunTimerKeeps | lib/timer.cpp:130-142 | running a hook's timer callback keeps the composed invariant |
| RuntimeRuns.FireYield | lib/timer.cpp:130-135 | what a timer callback does and its fiber's swapping out can be exchanged |
| RuntimeRuns.ExpireEffect | lib/timer.cpp:161-218 | with a clock that does not go back exactly the timers whose deadline has come are emitted, and no sleeper twice |
| RuntimeRuns.ExpireKeeps | lib/iomanager.cpp:529-536 | moving expired callbacks to a poller's hands keeps the composed invariant |
| RuntimeRuns.HandOverKeeps | lib/iomanager.cpp:531-536 | scheduling an expired callback keeps the composed invariant |
| Flight.FlyingKept | lib/scheduler.cpp:193-262 | between being scheduled and being run a callback is neither lost nor doubled |
| Flight.FlyingYield | lib/scheduler.cpp:229-270 | a fiber that swaps out has used up exactly the callback its worker held |
| SchedSingle.SingleExecution | lib/scheduler.cpp:193-241 | in every run with one wake-up at a time in which nothing is taken too early no fiber is held by two workers, and a picked fiber has not ended |
| SchedSingle.ReuseIsSafe | lib/scheduler.cpp:242-270 | between tasks a worker's callback fiber is absent or INIT, and nobody waits for it, has queued it or holds it |
| SchedSingle.WokenAtMostOnce | lib/scheduler.cpp:229-241 | in every run a fiber is woken at most once per arrangement, and a parked one is waited for, woken or dropped |
| SchedSingle.StepKeepsSingle | lib/scheduler.cpp:188-292 | every such step keeps fibers in one hand and every parked fiber waited for, woken or dropped |
| SchedSingle.RunKeepsSingle | lib/scheduler.cpp:188-292 | the same along every such run |
| SchedSingle.WholeNeverTooEarly | lib/scheduler.cpp:229-270 | if every yield is followed at once by its worker's write-back, nothing is ever taken too early |
| SchedSingle.SplitYieldBreaksIt | lib/fiber.cpp:232-240 | a run from a fresh scheduler, with one wake-up at a time, in which two workers come to hold one fiber |
| SchedApart.HeldOnceExactly | lib/scheduler.cpp:193-270 | over every run of every interleaving with yields in pieces, in which a fiber with a wake-up outstanding or delivered arranges no other and yields only to be held: each fiber is held by at most one worker throughout exactly if nobody takes a fiber that another worker has left and not yet settled |
| SchedApart.StepApart | lib/scheduler.cpp:188-292 | every step of that kind that takes nothing too early keeps fibers in one hand, queued once and not both waited for and queued |
| SchedApart.TooEarlyIsHeldTwice | lib/scheduler.cpp:196-216 | taking one too early gives it to two workers |
| SchedApart.StartKeeps | lib/scheduler.cpp:224-262 | swapping a task in keeps what every worker holds apart, and leaves the worker running a fiber |
| SchedApart.PickKeeps | lib/scheduler.cpp:193-217 | taking a task keeps what every worker holds apart |
| SchedApart.YieldWriteKeeps | lib/fiber.cpp:222-240 | writing the state and swapping out keeps it, also when the fiber is already queued |
| SchedApart.SettleKeeps | lib/scheduler.cpp:232-270 | settling a fiber keeps it, whichever state it was left in and whether it was a fiber's or a callback's |
| SchedCounts.RunKeeps | lib/scheduler.cpp:188-292 | under every interleaving the counters equal the number of workers at work and idle, tasks are conserved and in order, and no unparked fiber is forgotten |
| SchedCounts.CountsKept | lib/scheduler.cpp:209-285 | the active and idle counters are exact after every step, on every path out of a task |
| SchedCounts.TasksKept | lib/include/scheduler.h:95-102 | every scheduled task is queued or taken once, and callbacks for anybody are taken in the order they were scheduled |
| SchedCounts.PickOrder | lib/scheduler.cpp:193-217 | the scan takes the first task it may run, and never a callback for anybody behind another one |
| SchedCounts.WorkersKept | lib/scheduler.cpp:197-202 | a task for one thread is taken only there, and a worker busy with its own fiber keeps it |
| SchedCounts.AccountedKept | lib/scheduler.cpp:229-270 | a fiber that is neither parked nor ended is queued, with a worker, or a worker's spare |
| SchedCounts.StopIsSound | lib/scheduler.cpp:307-311 | when stopping is true nothing executes, and the only unparked unfinished fiber is a ready one its own worker is about to requeue |
| SchedAsked.StopExactly | lib/scheduler.cpp:307-311 | over every run of a fresh scheduler not yet asked to stop: it may stop exactly if it was asked to on the way, every task asked for has been taken, and no worker is between picking one and counting it down |
| SchedAsked.LogExactly | lib/include/scheduler.h:45-102 | in every run the tasks logged are those asked for, in order, each for the thread named |
| SchedAsked.RunsWhereAsked | lib/scheduler.cpp:197-254 | in every run what a worker has picked or runs was asked for, for its own thread or anybody; a callback by a call that scheduled it so |
| SchedAsked.TasksAsAsked | lib/scheduler.cpp:193-217 | in every run each task asked for is queued or taken, as often as it was asked for |
| SchedAsked.PickExact | lib/scheduler.cpp:193-217 | a worker takes the first task for its thread or anybody that is not an executing fiber, and nothing only if there is none |
| SchedAsked.EndedIsFinal | lib/scheduler.cpp:224-262 | in every run, whoever still schedules it, a fiber that has ended and that no worker has stays ended |
| SchedAsked.ExitExactly | lib/scheduler.cpp:276-280 | a worker is out of its loop exactly if it has left it, and never comes back |
| Sched.FirstEligible | lib/scheduler.cpp:194-216 | the first task for this thread or for anybody whose fiber does not execute |
| Schedulers.Entries | lib/include/scheduler.h:65-80 | a batch adds its non-empty arguments, for any thread |
| Schedulers.Scheduler.constructor | lib/scheduler.cpp:21-53 | a new scheduler has nothing to do |
| Schedulers.Scheduler.ScheduleNoLock | lib/include/scheduler.h:95-102 | appends a task unless it is empty, and tells whether the list was empty |
| Schedulers.Scheduler.ScheduleAll | lib/include/scheduler.h:65-80 | moves every non-empty argument into the list in order, empties the arguments, and asks for a wake-up exactly if the list was empty and there were arguments |
| Schedulers.Scheduler.PickTask | lib/scheduler.cpp:193-217 | takes the first eligible task, and asks to wake another worker exactly if it found none and one is pinned elsewhere |
| Schedulers.Scheduler.SwapIn | lib/scheduler.cpp:224-254 | drops an ended fiber, runs a live one, or binds a callback to the worker's fiber |
| Schedulers.Scheduler.SwapBack | lib/scheduler.cpp:229-270 | counts down, then requeues, recycles or marks as parked |
| Schedulers.Scheduler.IsStopping | lib/scheduler.cpp:307-311 | says yes exactly in the states SchedAsked.StopExactly describes; in every state a run reaches, yes means that nobody is at work and the only unparked unfinished fiber is a ready one its own worker is about to requeue |
| Timers.ComparatorIsStrictTotalOrder | lib/timer.cpp:12-30 | the comparator orders all pointers, null included, strictly and totally |
| Timers.Deadline | lib/timer.cpp:32-36 | a deadline fits 64 bits, is the sum exactly if the sum does, and otherwise the sum less 2^64 |
| Timers.FindsPending | lib/timer.cpp:40-52 | looking a pending timer up finds it: no key changes while its timer is in the set |
| Timers.AddTimerKeeps | lib/timer.cpp:220-233 | adding keeps set and callbacks in step, and announces the timer exactly if it is the new first and no announcement is out |
| Timers.CancelKeeps | lib/timer.cpp:40-52 | cancelling succeeds exactly for a pending timer, which is all that changes |
| Timers.RefreshKeeps | lib/timer.cpp:54-76 | refreshing succeeds exactly for a pending timer and moves only its deadline |
| Timers.MoveKeeps | lib/timer.cpp:64-75 | a timer taken out, changed and put back leaves the rest of the set as it was and in order |
| Timers.ResetKeeps | lib/timer.cpp:78-114 | resetting succeeds for a pending timer or one that has the period already, moves only a pending one, and announces it exactly if it becomes the first and no announcement is out |
| Timers.ResetStarts | lib/timer.cpp:104-112 | a reset from now makes the timer due its new period from now; any other keeps the start of its period, in 64-bit arithmetic |
| Timers.NextTimerExact | lib/timer.cpp:144-159 | for a set that is not empty the time to wait is 0 exactly if a pending timer is due; otherwise it ends at a pending timer's deadline and no pending timer is due earlier |
| Timers.RolloverExactly | lib/timer.cpp:235-243 | the clock counts as rolled over exactly if it went back by more than an hour, or at all in its first hour |
| Timers.ExpiredEndExact | lib/timer.cpp:183-191 | looking a probe up and skipping equal deadlines ends after exactly the due timers, whatever the probe's address |
| Timers.SettleAllEffect | lib/timer.cpp:197-217 | expired one-shots lose their callback, recurring ones are put back a period later |
| Timers.ListExpiredExact | lib/timer.cpp:161-218 | expiry emits, in the order of deadlines and then addresses, the callbacks of exactly the due timers, all on a rollover, settles them and changes nothing else |
| Timers.SettleKeeps | lib/timer.cpp:197-217 | settling one expired timer keeps the set in order |
| Timers.TakeOut | lib/timer.cpp:191-196 | the expired timers leave the set together |
| TimerManagers.TimerManager.constructor | lib/timer.cpp:116-116 | an empty set that remembers the time |
| TimerManagers.TimerManager.LowerBound | lib/timer.cpp:183-186 | the search finds the first timer not before a key |
| TimerManagers.TimerManager.AddTimer | lib/timer.cpp:120-128 | the method adds as specified |
| TimerManagers.TimerManager.Cancel | lib/timer.cpp:40-52 | the method cancels as specified |
| TimerManagers.TimerManager.Refresh | lib/timer.cpp:54-76 | the method refreshes as specified |
| TimerManagers.TimerManager.Reset | lib/timer.cpp:78-114 | the method resets as Timers.ResetKeeps and Timers.ResetStarts state |
| TimerManagers.TimerManager.GetNextTimer | lib/timer.cpp:144-159 | the method returns the time Timers.NextTimerExact states and clears the wake flag |
| TimerManagers.TimerManager.ListExpiredCb | lib/timer.cpp:161-218 | the method collects and settles as specified |
| TimerManagers.TimerManager.ExpiredEnd | lib/timer.cpp:183-191 | the loop over equal deadlines ends as specified |
| TimerManagers.TimerManager.SettleAll | lib/timer.cpp:197-217 | the loop takes the callbacks in order and settles every expired timer |
| TimerLife.StepKeeps | lib/timer.cpp:40-114 | every operation keeps each one-shot timer pending, fired once or cancelled, counted by the callbacks expiry returns, and never fires a cancelled one |
| TimerLife.EmittedOnce | lib/timer.cpp:191-217 | the callbacks an expiry returns are those of the due timers, each once |
| TimerLife.RunKeeps | lib/timer.cpp:161-218 | so does every run |
| TimerLife.OneShotLife | lib/timer.cpp:197-217 | at every point of every run a one-shot timer is exactly one of pending, fired once, cancelled |
| TimerLife.CancelIsFinal | lib/timer.cpp:40-52 | after a cancel that succeeded nothing is emitted for that timer, in any continuation |
| TimerPeriods.DueExactly | lib/timer.cpp:40-218 | in every run of a new manager a pending timer has the period it was last given and is due that long, in 64-bit arithmetic, after it was last added, refreshed, reset from now or put back on expiry |
| TimerPeriods.StepPeriod | lib/timer.cpp:40-218 | every operation keeps that |
| TimerPeriods.EarlyExactly | lib/timer.cpp:161-218 | an expiry returns a pending timer's callback exactly if its deadline has come or the clock went back, by more than an hour or in its first hour at all |
| TimerPeriods.FirstHourFiresEarly | lib/timer.cpp:235-243 | a run in which a timer for time 1010 fires when the clock goes from 10 to 9 |
| Poller.NoWakeIsLost | lib/iomanager.cpp:463-528 | over every run from the start, with coalesced tickles, resets, refreshes, interruptions and extra calls that clear the flag: the poller never waits past a timer with nothing on its way exactly if every step is safe |
| Poller.StepExact | lib/iomanager.cpp:498-528 | for every step: a wake-up is lost exactly by a refresh to before the end of the wait, or by a wait called, or called again after an interruption, that would pass the first timer, each with nothing on its way |
| Poller.PlainRunsLoseNothing | lib/iomanager.cpp:498-528 | no wake-up is lost in a run whose deadlines fit 64 bits, whose timeouts have a non-negative low half, and whose waits start and are interrupted only at the time they were asked for |
| Poller.StartedKept | lib/timer.cpp:54-114 | in such a run every pending timer was started in the past |
| Poller.InterruptLosesWake | lib/iomanager.cpp:503-528 | a run in which a wait of 100 milliseconds interrupted after 60 goes on to 160 |
| Poller.LateBlockLosesWake | lib/iomanager.cpp:498-515 | a run in which a wait of 100 milliseconds called 60 after it was asked for goes on to 160 |
| Poller.AskedKept | lib/iomanager.cpp:498-515 | in a plain run, as long as no time has passed since the poller asked, starting to wait loses nothing, whatever others do in between |
| Poller.AddWakes | lib/timer.cpp:220-233 | putting a timer in front announces it, or an announcement is already out |
| Poller.RefreshCanLoseWake | lib/timer.cpp:54-76 | a run from the start in which a refresh loses the wake-up |
| Poller.WaitIsBoundedExactly | lib/iomanager.cpp:502-515 | the wait is bounded by the cap and the deadline exactly if the low 32 bits of the timeout are not negative |
| Poller.WaitArgumentExact | lib/iomanager.cpp:502-515 | the wait is the low 32 bits of the timeout, at most 5000, without limit if they are negative as an int, and 5000 if there is no timer |
| Poller.WaitEndsAtFirst | lib/iomanager.cpp:498-515 | a wait that starts when it was asked for, whatever others do in between, ends exactly at the first deadline if that is within 5000 milliseconds, at once if it has come, and after 5000 otherwise |
| Poller.PipeHistory | lib/iomanager.cpp:463-473 | in every run the pipe holds a byte exactly if one was written by somebody who found the poller not busy and it was not drained since |
| Poller.RoundExactly | lib/iomanager.cpp:485-620 | for every step the poller goes one place round, from tasks to idling, asking, waiting, waking and back, exactly by the step of its place; an interruption leaves it waiting |
| Poller.UnboundedWait | lib/iomanager.cpp:502-515 | a run from the start in which a timer 2^31 milliseconds away makes the poller wait without limit |
| RuntimePoller.JoinedLosesNothing | lib/iomanager.cpp:463-528 | over every run of the composed runtime with one of its workers polling: the poller never waits past a timer with nothing on its way exactly if every step is safe |
| RuntimePoller.Projects | lib/hook.cpp:150-244 | every step of hooks, workers and program is, on the timers, a step of the timer protocol |
| RuntimePoller.NeverSleptThrough | lib/iomanager.cpp:498-528 | in every such run with safe and careful steps, while the poller waits with nothing on its way no waiting fiber's timer is due before the wait ends |
| RuntimePoller.LinkedKept | lib/scheduler.cpp:272-285 | the poller is not busy exactly while its worker idles, in every run |
| RuntimePoller.TickleSeesPoller | lib/iomanager.cpp:463-473 | a caller finds an idle thread exactly if the poller is not busy |
| RuntimePoller.JoinedKeeps | lib/iomanager.cpp:485-536 | the poller's own steps keep the composed invariant too |
| Events.AddEventKeeps | lib/iomanager.cpp:256-322 | registering keeps counts, bits, slots and interest set in step, and the slot it fills is empty |
| Events.DelEventKeeps | lib/iomanager.cpp:324-370 | deleting keeps them in step |
| Events.CancelEventKeeps | lib/iomanager.cpp:372-409 | cancelling keeps them in step |
| Events.CancelAllKeeps | lib/iomanager.cpp:411-457 | cancelling all keeps them in step and leaves the descriptor idle |
| Events.DispatchKeeps | lib/iomanager.cpp:578-604 | handling a report keeps them in step, and stops the program exactly if some but not all of the events it believes ready are registered |
| Events.TriggerExact | lib/iomanager.cpp:165-187 | a triggered event hands over its one waiter and leaves its slot empty |
| Events.TriggerAllExact | lib/iomanager.cpp:594-604 | a triggered mask hands over the waiters of exactly its bits, the reader first |
| Events.LookupKeeps | lib/iomanager.cpp:256-270 | growing the context vector to half as much again as the descriptor keeps every context |
| Events.PendingNeverUnderflows | lib/iomanager.cpp:340-457 | the pending count is never negative, and zero exactly if nothing is registered |
| EventLoop.StepKeeps | lib/iomanager.cpp:246-457 | every operation keeps counts, bits, slots and interest set in step, except exactly a late resize that drops a registered context |
| EventLoop.RunKeeps | lib/iomanager.cpp:246-457 | counts, bits, slots and interest set are in step at every point of a run exactly if no late resize of it drops a registered context |
| Events.LateResizeIsSafeExactly | lib/iomanager.cpp:246-270 | a resize decided on an old size keeps counts, bits, slots and interest set in step exactly if nothing is registered beyond it |
| EventLoop.LateResizeCanLoseAWaiter | lib/iomanager.cpp:246-270 | a run from a new manager in which it drops a context: delEvent, cancelEvent and cancelAll no longer reach the waiter, and a report hands it over |
| EventLoop.CutWaits | lib/iomanager.cpp:246-457 | along every run without a report for its descriptor a dropped context keeps its waiters, whoever adds, deletes or cancels |
| EventLoop.CutIsReported | lib/iomanager.cpp:555-605 | a report for a dropped context's descriptor hands over exactly the waiters of the bits reported and counts them down |
| EventLoop.FirstEntryIsExact | lib/iomanager.cpp:538-605 | entry 0 of a batch hands over exactly the waiters it reports, hang-ups and errors widened to what is registered |
| EventLoop.FirstEntryOnBits | lib/iomanager.cpp:559-605 | on the report's own bits: with an error or hang-up entry 0 hands over every registered waiter and leaves the context idle, without one exactly the registered waiters whose bit is set; it stops the program exactly if somebody is to be handed over and a bit is set that is not registered |
| EventLoop.HangUpHandsOver | lib/iomanager.cpp:559-566 | a batch of one hang-up hands over the fiber registered for reading |
| EventLoop.LaterEntriesAreDropped | lib/iomanager.cpp:570-605 | once entry 0 reports nothing more, every later entry is ignored |
| EventLoop.SecondWaiterIsLost | lib/iomanager.cpp:570-605 | of two ready readers in one batch only the first is woken |
| Batches.RoundsClosed | lib/iomanager.cpp:538-606 | the loop over a batch handles entry 0 with its own bits and every later entry with what entry 0 was left with |
| Batches.LeftoverExact | lib/iomanager.cpp:582-587 | what entry 0 is left with, on its own bits: what is registered and neither reported nor covered by an error if somebody was handed over, otherwise what it reported |
| Batches.BatchIsRightExactly | lib/iomanager.cpp:538-606 | a batch of distinct descriptors reporting registered events is handled as reported exactly if every later entry reported what entry 0 was left with, or nothing of it is registered there |
| Batches.PipeFirst | lib/iomanager.cpp:548-572 | with the wake pipe as entry 0, the batch is handled as reported exactly if every other entry reported readable and no more |
| Batches.EachSameExactly | lib/iomanager.cpp:578-604 | two choices of bits for the same descriptors come to the same exactly if they do descriptor by descriptor |
| Batches.DispatchDiffers | lib/iomanager.cpp:578-604 | handling a descriptor with other bits than it reported shows in its context or stops the program |
| IOManagers.IOManager.constructor | lib/iomanager.cpp:189-225 | 32 idle contexts, nothing pending |
| IOManagers.IOManager.ContextResize | lib/iomanager.cpp:246-254 | cuts the vector or fills it with idle contexts |
| IOManagers.IOManager.AddEvent | lib/iomanager.cpp:256-322 | the method registers as specified |
| IOManagers.IOManager.DelEvent | lib/iomanager.cpp:324-370 | the method deletes as specified |
| IOManagers.IOManager.TriggerEvent | lib/iomanager.cpp:171-187 | the method hands the waiter over as specified |
| IOManagers.IOManager.CancelEvent | lib/iomanager.cpp:372-409 | the method cancels as specified and schedules the waiter |
| IOManagers.IOManager.CancelAll | lib/iomanager.cpp:411-457 | the method cancels all events as specified and schedules the waiters |
| IOManagers.IOManager.DispatchBatch | lib/iomanager.cpp:538-606 | the loop over a batch does what Batches.RoundsClosed states, entry 0 overwritten as it goes |
| IOManagers.IOManager.Round | lib/iomanager.cpp:552-605 | one round of that loop, for entry 0 as EventLoop.FirstEntryOnBits states |
| Zigzag.EncodeValue | lib/bytearray.cpp:103-109 | non-negative values are doubled, negative ones become the odd numbers, the minimum included |
| Zigzag.DecodeValue | lib/bytearray.cpp:114-116 | even words are halved, odd ones become negative |
| Zigzag.Bijection | lib/bytearray.cpp:103-116 | encoding and decoding are mutually inverse on all words of a width |
| Varint.EncodeDenotes | lib/bytearray.cpp:125-135 | the emitted groups are well formed and denote the value |
| Varint.Minimal | lib/bytearray.cpp:125-135 | no well-formed groups for a value are shorter, and equally long ones are the same |
| Varint.LengthExact | lib/bytearray.cpp:125-150 | the number of groups is that of the value's 7-bit digits |
| Varint.FitsBuffer | lib/bytearray.cpp:125-150 | at most 5 groups for 32 bits and 10 for 64, so the buffer never overflows |
| Varint.SelfDelimiting | lib/bytearray.cpp:221-250 | the reader, whatever follows, takes exactly the groups of a value and returns it |
| Varint.LengthMonotone | lib/bytearray.cpp:125-150 | larger values never take fewer groups |
| Varint.SignedLengthMonotone | lib/bytearray.cpp:121-139 | signed values of larger magnitude never take fewer groups |
| Varint.EqualMagnitudeDiffers | lib/bytearray.cpp:121-139 | of 64 and -64 the first takes two groups and the second one |
| Endian.SwapReverses | lib/include/endian.h:13-27 | byteswap reverses the bytes, for every width |
| Endian.SwapInvolution | lib/include/endian.h:13-27 | byteswap undoes itself |
| Endian.WrittenIsWireOrder | lib/bytearray.cpp:63-98 | what is written depends on the byte-order setting and not on the host |
| Endian.ReadBackIsWireOrder | lib/bytearray.cpp:191-216 | what is read depends on the byte-order setting and not on the host |
| Endian.FixedRoundTrip | lib/bytearray.cpp:63-98 | a fixed-width word written on one host is read back on another |
| ByteArrays.ByteArray.constructor | lib/bytearray.cpp:32-35 | one node, empty, big-endian |
| ByteArrays.ByteArray.SetIsLittleEndian | lib/bytearray.cpp:50-56 | sets the byte order and nothing else |
| ByteArrays.ByteArray.AddCapacity | lib/bytearray.cpp:540-580 | there is room for what was asked, in whole nodes, and contents, size and position are unchanged |
| ByteArrays.ByteArray.FindTail | lib/bytearray.cpp:556-561 | the walk ends at the last node |
| ByteArrays.ByteArray.Write | lib/bytearray.cpp:320-374 | overwrites and extends the flat sequence at the cursor |
| ByteArrays.ByteArray.WriteNodes | lib/bytearray.cpp:333-370 | the copying loop places the bytes across nodes |
| ByteArrays.ByteArray.Read | lib/bytearray.cpp:376-423 | returns the next bytes and moves on; throws exactly if too few are unread; follows a null node exactly if nothing is read at capacity |
| ByteArrays.ReadNothingAtEnd | lib/bytearray.cpp:376-389 | an array on which reading nothing follows a null node |
| ByteArrays.ByteArray.ReadNodes | lib/bytearray.cpp:388-420 | the copying loop returns the slice under the cursor |
| ByteArrays.ByteArray.ReachedExactly | lib/bytearray.cpp:425-437 | a positioned read starts where it was told exactly if that is in the cursor's node |
| ByteArrays.ByteArray.ReadAt | lib/bytearray.cpp:425-458 | a positioned read returns the bytes from where it starts, throws if too many are asked for, or runs off the last node |
| ByteArrays.ReadElsewhere | lib/bytearray.cpp:425-437 | an array on which reading the first byte gives the fifth |
| ByteArrays.ByteArray.SetPosition | lib/bytearray.cpp:460-482 | moves anywhere up to the capacity, extending the size over it, and refuses more |
| ByteArrays.ByteArray.Seek | lib/bytearray.cpp:472-482 | finds the node of the position without following a null node |
| ByteArrays.ByteArray.Clear | lib/bytearray.cpp:306-318 | one empty node is left |
| ByteArrays.ByteArray.ToString | lib/bytearray.cpp:582-592 | the unread bytes |
| ByteArrays.ByteArray.CollectSlices | lib/bytearray.cpp:617-649 | the loop builds the planned slices |
| ByteArrays.ByteArray.PlanGathers | lib/bytearray.cpp:609-651 | the planned slices cover exactly the flat bytes they stand for |
| ByteArrays.ByteArray.GetReadBuffers | lib/bytearray.cpp:609-651 | the slices concatenate to what a read would return, up to what is unread |
| ByteArrays.ByteArray.GetWriteBuffers | lib/bytearray.cpp:694-726 | room is made, the slices cover it in order, and the contents are unchanged |
| ByteArrays.ByteArray.Scatter | lib/bytearray.cpp:694-726 | an outside writer that fills the slices from the front overwrites the flat bytes from the cursor |
| Chunks.Locate | lib/bytearray.cpp:327-328 | quotient and remainder by the node size are the node and the offset in it |
| Chunks.CeilingCovers | lib/bytearray.cpp:551-553 | the rounded-up number of nodes covers the size and is less than one node too much |
| Chunks.FlattenSplice | lib/bytearray.cpp:333-370 | changing bytes of one node changes the flat sequence at the same place |
| Chunks.FlattenSlice | lib/bytearray.cpp:388-420 | bytes of one node are a slice of the flat sequence |
| Codec.WriteWord | lib/bytearray.cpp:60-98 | the fixed-width writers append the word in wire order |
| Codec.ReadWord | lib/bytearray.cpp:191-216 | the fixed-width readers return it, or throw and leave the array as it was |
| Codec.Groups | lib/bytearray.cpp:125-150 | the emitting loop produces the encoding |
| Codec.WriteGroups | lib/bytearray.cpp:125-150 | the varint writers append the encoding |
| Codec.ReadGroups | lib/bytearray.cpp:221-250 | the varint readers consume what the scan does |
| Codec.WriteValue | lib/bytearray.cpp:60-188 | every writer appends its value's image |
| Codec.WireFormat | lib/bytearray.cpp:60-184 | the bytes of each kind of value on any host: words in the array's order and two's complement, floats in 4 and 8 bytes, groups of the value or its zigzag, and a string's truncated length before its bytes |
| Codec.ReadValue | lib/bytearray.cpp:191-302 | every reader returns what its kind parses and moves over just that |
| Codec.ReadString | lib/bytearray.cpp:267-302 | the string readers take a length and that many bytes, or throw |
| Codec.RoundTrip | lib/bytearray.cpp:60-302 | a value followed by anything is read back exactly if its length fits its prefix |
| Codec.StringRoundTrip | lib/bytearray.cpp:169-302 | a string comes back cut to its truncated length, the whole string exactly if its length fits |
| Codec.LongStringComesBackEmpty | lib/bytearray.cpp:169-172 | a string of 65536 bytes with a 16-bit length comes back empty |
| Codec.ExchangeLongString | lib/bytearray.cpp:169-172 | such a string, written and read back through an array, is not what was written |
| Codec.ListRoundTrip | lib/bytearray.cpp:60-302 | a mixed list is read back completely exactly if every value fits |
| Codec.WriteValues | lib/bytearray.cpp:60-188 | a list of values is written as the images in order |
| Codec.ReadValues | lib/bytearray.cpp:191-302 | reading in turn stops at the first throw and keeps what was read |
| Codec.Pack | lib/bytearray.cpp:32-188 | a new array with a list written to it and rewound |
| Codec.Exchange | lib/bytearray.cpp:60-302 | write, rewind, read: the same list exactly if every value fits, and then nothing is left unread |
| Streams.Dump | lib/bytearray.cpp:484-515 | writes the unread bytes exactly if nothing is unread, the cursor is node-aligned, or at least a node's worth is unread; otherwise it fails |
| Streams.DumpShortTail | lib/bytearray.cpp:496-513 | an array of which two unread bytes are not dumped |
| Streams.Load | lib/bytearray.cpp:517-538 | the loop over the file writes all of it at the cursor |
| Streams.Transfer | lib/bytearray.cpp:484-538 | dump and load into an array of any other node size gives the same bytes and leaves the source alone |
| Streams.WriteMore | lib/bytearray.cpp:530-536 | writing piece by piece is writing at once |
| Streams.Receive | lib/socket_stream.cpp:26-37 | receiving into write buffers and moving the position is writing the received bytes; a slice that is not there is looked at exactly if the length is 0 |
| Streams.Send | lib/socket_stream.cpp:46-57 | sending from read buffers takes the accepted prefix of the unread bytes and moves over it; a slice that is not there is looked at exactly if the length is 0 or nothing is unread |

## Left out

- The HTTP parser, session and server, addresses, sockets, logging, configuration and threads: wrappers, generated automata or glue.
- `fcntl`, `ioctl`, `setsockopt` hooks and the descriptor manager: per-descriptor flags; a hooked call is modelled from the point where it decides to wait.
- `do_io`, `connect_with_timeout` and `sleep` are steps on values and not methods with loops, because other workers act between any two of their steps; retrying on EINTR is part of one attempt.
- `usleep` and `nanosleep`: the same protocol as `sleep`.
- ucontext stack switching, stack allocation, fiber destruction, and the caller's own root fiber in `Scheduler::stop`.
- The kernel's own event mask: only membership in the interest set is modelled.
- Weak-memory effects, unlocked reads, and a clock value read before a lock is taken, which is read in the same step here.
- The overload of `getReadBuffers` with a position, `toHexString`, and `writeStringWithoutLength`, which has no reader.
- Liveness: that a due timer or a ready descriptor is eventually handled.
- RuntimeWakes.TimedOutOnlyAfter: excludes deadlines that did not fit 64 bits when last armed, for which the property is false (RuntimeCases.EarlyExactly).
- RuntimeStop.StoppingIsSound: excludes runs that register or set timers between the reads, and time zero, for which the property is false (RuntimeCases.StopCanMissAWaiter, RuntimeCases.ZeroClockHidesATimer); RuntimeStop.StopAnswerExactly covers all careful runs.
- RuntimeTheorems.WokenOnce: for careful runs only, as are the other results over runs of the composed runtime; outside them the runtime is not in order (RuntimeTheorems.InOrderExactly).
- Poller.NoWakeIsLost: one polling thread.
- RuntimePoller.JoinedLosesNothing: one worker polls and the others do not idle.
- RuntimeBatch.BatchWakesExactly: the rounds of a batch follow one another; a step of somebody else between two of them is covered by RuntimeWakes.WokenExactlyWhenReached, round by round.
