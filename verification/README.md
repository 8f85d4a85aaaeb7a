# Verification of the sylar fiber runtime

Sylar is a C++ server framework. Worker threads share a queue of tasks, fibers are switched by hand, an IO manager
parks fibers on file descriptor events, a timer set runs callbacks, and hooked system calls make blocking code
asynchronous. Beside that stand a log pattern scanner with loggers that follow a configuration, and network address
code. This project models these parts in Dafny and proves what they keep.

Check it with `dafny verify dfyconfig.toml`.

## What is modelled

- **Timers** (`Timer.dfy`, `TimerManager.dfy`). The set ordered by deadline and identity, with 64-bit deadlines that
  wrap. The class `TimerManager` updates timers and their order in place; functions on lists of entries say what it
  computes.
- **Task queue** (`Scheduler.dfy`). Submission, the eligibility scan of a worker, bounded bypass.
- **Event table** (`EventTable.dfy`, `EventRuns.dfy`, `IOManager.dfy`). The mask and the two slots of each descriptor,
  the pending counter, and the kernel's interest masks as a map whose updates may fail. The operations are functions on
  a table; the class `IOManager`, with its `FdContext` objects, is proved to compute them. `EventRuns` follows whole runs.
- **Runtime** (`Runtime*.dfy`, `Shutdown*.dfy`, `Watch.dfy`). Workers, fibers, queue, event table, timers and the idle loop as one
  step system. Every lock region, every switch and every client action is a step; writing the state a fiber leaves in
  (`Leave`) and the bookkeeping of the worker (`Back`) are two, so a fiber can be queued while it executes, and taken
  while it is parked. A wake-up right is a continuation in the queue, in a worker's hands, in an event slot or in a timer.
  The discipline of the clients is part of `Enabled`: a fiber leaves one wake-up of its own behind and then yields to hold.
- **Hooked calls** (`Hook.dfy`, `HookedCall.dfy`, `Timeout*.dfy`). `do_io` and `connect_with_timeout` as methods with
  the retry loop, against arbitrary actions of the rest of the process at every point of the call. A timer callback is
  two steps, its check with the write of the errno and its `cancelEvent`, which may come after the call is over.
- **Idle wait** (`Tickle.dfy`). One worker, any number of threads that add timers and submit tasks, the `m_tickled`
  flag, the pipe, and the cast of the timeout to `int`. The scan of the queue and the count of idle workers are two steps.
- **Log patterns** (`LogFormatter.dfy`, `LogFormatterLaws.dfy`). The scanner as a class with its loops, proved against a
  recursive scan, and the printer that inverts it.
- **Logger configuration** (`LogConfig.dfy`). Loggers, their manager, the configuration variable and its listener.
- **IPv6 addresses** (`IPv6Address.dfy`, `Broadcast.dfy`). The text against a decoder for section 2.2 of RFC 4291, and
  the broadcast address against its bits.

`Bags.dfy` holds sums over sequences, `Tasks.dfy` the shared vocabulary.

## Where the code is not what one would expect

- A yield writes HOLD before the switch, and the worker writes it again afterwards. Between the two, a second worker can
  take and run the fiber (`RuntimeLimits.ParkedFiberRunsTwice`, `OverlapsIffParked`). A run puts no fiber on two stacks exactly when none of
  its swap-ins takes a fiber that is still on one (`AloneIffNoOverlap`), and so never if yields are booked at once.
- `delEvent` and `cancelEvent` choose the epoll operation by the old mask. Removing the last event registers an empty
  mask, and the descriptor then refuses every registration until it is closed (`LastRemoval`, `StuckForever`,
  `CloseUnsticks`).
- An error or hang-up reported for a descriptor with one event registered ends the process by an assertion
  (`DispatchAbortsIff`, `ErrorOnReaderAborts`).
- The `close` hook cancels only for a descriptor that `FdManager` knows, on a hooked thread with an IO manager. Any
  other close, and one whose cancellation fails, leaves the events in the table although the kernel has forgotten the
  descriptor (`CloseKeepsIff`, `UnknownCloseStrands`). No table operation and no further close frees them, and with the
  counter above zero no worker can stop (`StrandedForever`, `StrandedStaysClosed`).
- `listExpiredCb` hands out nothing when the earliest deadline is exactly now, even on later deadlines equal to it
  (`ExpiredIff`). `refresh` never moves a timer.
- A deadline can wrap and be smaller than its period (`DeadlineAtLeastPeriodIff`); `reset` is right all the same.
- A timeout whose low 32 bits are 2^31 or more becomes a wait without end (`ComputeMissesNothingIff`,
  `LongTimerIsSleptThrough`).
- A task can lie beside a worker that sleeps its three seconds: its tickle comes between the worker's empty scan and the
  count of idle workers (`TaskIsSleptThrough`), or it is queued behind a task pinned to another thread
  (`TaskBehindAnotherIsSleptThrough`). With one worker these are the only ways (`NoTaskSleptThroughIff`).
- A worker whose idle fiber has ended still takes tasks. What such a task arms may never be watched again: two workers
  can both leave while a fiber sleeps (`SleeperLeftBehind`). If no worker arms that late, none is forgotten
  (`ForgetsNobody`), and `ForgottenIff` says exactly what is.
- The record of a hooked call outlives the retry. A timer callback that was handed out in time for one wait and runs
  before the next registration sets the errno and cancels nothing. The timer of the next wait then finds the errno set
  and does not end it: the timeout is lost (`TimeoutIsLost`, `TimeoutWakesIff`). A callback that runs after the next
  registration ends that wait before its time (`StaleEndsWait`, `TimedOutTooEarly`). A wait that starts with no callback
  of its call outstanding is timed out only at its deadline or after a rollover of the clock (`TimeoutIsFull`).
- A timer callback that has passed its check cancels even when its call is over, and so can wake another call that waits
  for the same event of the descriptor, without an errno and with nothing to read (`LateCancelWakesAnother`).
- In a pattern, `%%` adds one percent sign and goes on at the second one; the round trip holds all the same. Empty
  braces are what it loses.
- A logger keeps a formatter that its configuration no longer gives (`FormatterIsNotReset`).
- An IPv6 address whose last group is zero is printed as text that does not decode.

## Model

| member | source | states |
|---|---|---|
| Timers.InsertOrdered | sylar/timer.cc:5-23 | Inserting by the comparator keeps the set strictly ordered by deadline and identity. |
| Timers.ExpiredIff | sylar/timer.cc:144-171 | A timer is handed out exactly on rollover, or when its deadline is reached and the earliest deadline is not this very instant. |
| Timers.NeverEarlyNeverLate | sylar/timer.cc:144-171 | Without rollover no timer is handed out early, and every timer strictly past its deadline is handed out. |
| Timers.RearmElements | sylar/timer.cc:171-181 | What remains is exactly the timers not handed out and the recurring ones, armed again at now plus period. |
| Timers.RearmOrdered | sylar/timer.cc:171-181 | Rearming keeps the strict order. |
| Timers.NoneMeansEmpty | sylar/timer.cc:128-142 | The value for "no timer" means an empty set, but for the last deadline of all read at instant zero. |
| Timers.DeadlineAtLeastPeriodIff | sylar/timer.cc:30 | A deadline is at least its period exactly when the 64-bit addition did not wrap. |
| TimerManagement.StartIsArmed | sylar/timer.cc:78 | Deadline minus period is the instant the period counts from, even where the addition wrapped. |
| TimerManagement.TimerManager.Find | sylar/timer.cc:42 | Searching by the comparator finds a timer exactly when it is in the set. |
| TimerManagement.TimerManager.AddTimer | sylar/timer.cc:95-102 | The set gains one entry at its place, whatever address the new timer gets; the caller owes a notification exactly when it is at the front and nobody has notified. |
| TimerManagement.TimerManager.AddLocked | sylar/timer.cc:183-197 | The same for a timer that exists already. |
| TimerManagement.TimerManager.Cancel | sylar/timer.cc:38-47 | The first cancel takes exactly this timer out and drops its callback; later ones do nothing and say so. |
| TimerManagement.TimerManager.Refresh | sylar/timer.cc:49-61 | It always answers no and changes nothing; its erase is never reached. |
| TimerManagement.TimerManager.Reset | sylar/timer.cc:62-85 | The timer is armed for the new period from now or from the instant its old period counted from; every other outcome changes nothing. |
| TimerManagement.TimerManager.HasTimer | sylar/timer.cc:104-108 | Whether a timer is armed. |
| TimerManagement.TimerManager.GetNextTimer | sylar/timer.cc:128-142 | The time to the earliest deadline, zero when it is due; the notification flag is cleared. |
| TimerManagement.TimerManager.CountDue | sylar/timer.cc:160-166 | The searched prefix is the timers whose deadline is reached, whatever the identity of the probe. |
| TimerManagement.TimerManager.ListExpiredCb | sylar/timer.cc:144-181 | The callbacks appended are those of the expired prefix in deadline order, and the set is the rest with the recurring ones rearmed; in the set exactly the timers with a callback. |
| Scheduling.Scan | sylar/scheduler.cc:164-185 | The position of the first eligible task: every earlier one is pinned elsewhere or a fiber that executes. |
| Scheduling.Scheduler.ScheduleNoLock | sylar/scheduler.h:62-70 | A task is appended unless it is null; whether the queue was empty is reported. |
| Scheduling.Scheduler.ScheduleRange | sylar/scheduler.h:39-52 | The tasks are appended in order and the caller's container is left with none of them. |
| Scheduling.Scheduler.Take | sylar/scheduler.cc:160-189 | The first eligible task is removed, the order of the rest kept, the active count raised; without one nothing changes and a tickle is due exactly for a task pinned elsewhere. |
| Scheduling.FollowIsSound | sylar/scheduler.cc:164-185 | A task that is not taken stays in the queue, where its tracked position says. |
| Scheduling.BoundedBypass | sylar/scheduler.cc:162-185 | A task at position k that stays eligible for a worker is passed over by at most k of its takes. |
| EventTable.AddKeeps | sylar/iomanager.cc:127-177 | A registration keeps slots, masks and counter consistent; if it succeeds, the slot holds exactly its continuation and the mask gains the event, else nothing is stored. |
| EventTable.DelKeeps | sylar/iomanager.cc:178-210 | A deletion clears exactly this event and drops what its slot held, hands over nothing, and changes nothing where it fails. |
| EventTable.CancelKeeps | sylar/iomanager.cc:211-241 | A cancellation clears exactly this event and hands over what its slot held, drops nothing, and changes nothing where it fails. |
| EventTable.CancelAllKeeps | sylar/iomanager.cc:243-282 | Both slots are handed over, nothing is dropped, and no event is left, as the last assertion says. |
| EventTable.DispatchKeeps | sylar/iomanager.cc:365-403 | A report that trips no assertion hands over exactly the slots of the reported events and leaves the other event registered. |
| EventTable.TriggerMoves | sylar/iomanager.cc:33-44 | Triggering registered events empties exactly their slots and bits, and moves their contents. |
| EventTable.ApplyKeeps | sylar/iomanager.cc:127-282 | Every operation: a bit is set exactly when its slot holds a scheduler and one of fiber and callback, the kernel watches the same events, the counter is the number of bits, and continuations are conserved. |
| EventRuns.RunKeeps | sylar/iomanager.cc:127-403 | The same after every run, with everything stored accounted for. |
| EventRuns.OneFate | sylar/iomanager.cc:161-282 | Over any run, copies in slots, handed over and dropped add up to the copies stored. |
| EventRuns.DispatchAbortsIff | sylar/iomanager.cc:367-403 | Dispatch fails an assertion exactly when epoll agrees and reports an unregistered event beside a registered one. |
| EventRuns.ErrorOnReaderAborts | sylar/iomanager.cc:367-403 | An error reported for a descriptor registered for READ alone does it. |
| EventRuns.AddSucceedsIff | sylar/iomanager.cc:148-159 | A registration succeeds exactly when epoll is willing and the descriptor is not left registered for nothing. |
| EventRuns.RemovalsSucceedIff | sylar/iomanager.cc:187-268 | Each removal succeeds exactly when epoll is willing and there is an event to remove. |
| EventRuns.LastRemoval | sylar/iomanager.cc:192-238 | Removing the last event leaves the descriptor stuck exactly when delEvent or cancelEvent does it. |
| EventRuns.StuckForever | sylar/iomanager.cc:148-239 | A stuck descriptor stays so over every run of table operations, until it is closed. |
| EventRuns.CloseKeepsIff | sylar/hook.cc:372-386 | Closing a descriptor keeps masks, slots and counter consistent exactly when the hook's three guards hold and epoll agrees to the cancellation, or no event is registered. |
| EventRuns.CloseStrandsIff | sylar/hook.cc:372-386 | Every other close leaves events set that the kernel does not watch. |
| EventRuns.UnknownCloseStrands | sylar/hook.cc:377-385 | A descriptor that `FdManager` does not know, registered for READ and closed: it is left so, with its waiter in the slot, though epoll would agree. |
| EventRuns.StrandedForever | sylar/iomanager.cc:127-403 | Over every run of table operations such a descriptor keeps its events and waiters, and the pending count stays above zero. |
| EventRuns.StrandedStaysClosed | sylar/hook.cc:372-386 | Closing it once more changes nothing. |
| EventRuns.CloseUnsticks | sylar/hook.cc:372-386 | A stuck descriptor that is closed, hooked or not, can be registered again. |
| IOManagement.FdContext.TriggerEvent | sylar/iomanager.cc:33-44 | The bit and the scheduler are cleared, and the callback, else the fiber, is moved to the queue. |
| IOManagement.IOManager.AddEvent | sylar/iomanager.cc:127-177 | Objects and kernel end where the table operation says, for every answer of epoll. |
| IOManagement.IOManager.DelEvent | sylar/iomanager.cc:178-210 | The same for a deletion. |
| IOManagement.IOManager.CancelEvent | sylar/iomanager.cc:211-241 | The same, and exactly the slot's content is appended to the queue. |
| IOManagement.IOManager.CancelAll | sylar/iomanager.cc:243-282 | The same for both slots, and no event is left. |
| IOManagement.IOManager.DispatchOne | sylar/iomanager.cc:365-403 | The same for a report; an assertion fails exactly when the table operation says so. |
| IOManagement.IOManager.DispatchAll | sylar/iomanager.cc:354-404 | The loop over all reports is a run of dispatch operations, up to the first failed assertion. |
| IOManagement.IOManager.ContextResize | sylar/iomanager.cc:116-125 | The table grows by fresh contexts and keeps the ones it has. |
| IOManagement.NonePendingIff | sylar/iomanager.cc:297-301 | The pending count is zero exactly when neither the table nor the kernel has an event. |
| IOManagement.IOManager.Stopping | sylar/iomanager.cc:297-301 | After instant zero, it answers yes exactly when no timer is armed, no event is set or watched, no task is queued or with a worker, and a stop is asked for. |
| RuntimeRights.StepConserves | sylar/scheduler.cc:157-253 | Every step: what it makes is there afterwards, what it uses is gone, and no other continuation is lost or made, in queue, hands, slots or timers. |
| RuntimeRights.TakeMoves | sylar/scheduler.cc:162-185 | A take only moves a task from the queue into the worker's hands. |
| RuntimeRights.FireConserves | sylar/iomanager.cc:346-352 | Expiry moves callbacks from timers to hands, and copies only those that recur. |
| RuntimeRights.TableConserves | sylar/iomanager.cc:127-282 | Table operations only move continuations between slots and queue, but for what they store and drop. |
| RuntimeCore.Local | sylar/scheduler.cc:157-253 | A step that changes at most one worker and one fiber keeps the ownership invariant if it does so there. |
| RuntimeCore.ArmKeeps | sylar/iomanager.cc:161-175 | Leaving one wake-up behind keeps it. |
| RuntimeCore.LeaveKeeps | sylar/fiber.cc:183-195 | Writing the state a fiber leaves in keeps it. |
| RuntimeCore.BackKeeps | sylar/scheduler.cc:192-229 | The worker's bookkeeping after a switch keeps it, for task fibers and callback fibers. |
| RuntimeCore.ResumeKeeps | sylar/fiber.cc:148-157 | Swapping in a fiber that is on no stack keeps it. |
| RuntimeCore.CallKeeps | sylar/scheduler.cc:205-213 | Running a callback on the reused or new callback fiber keeps it. |
| RuntimeSafety.HandIsLive | sylar/scheduler.cc:190-192 | A fiber in a worker's hands has exactly one right, is not finished, does not execute, and has a body. |
| RuntimeSafety.CoreStays | sylar/scheduler.cc:157-253 | Every step but an overlapping swap-in keeps the ownership invariant. |
| RuntimeRuns.CountersStay | sylar/scheduler.cc:181-244 | The active and idle counters always equal the number of workers running a task and idling. |
| RuntimeRuns.SoundStays | sylar/scheduler.cc:157-253 | Every step but an overlapping swap-in keeps the whole invariant. |
| RuntimeRuns.RunSound | sylar/scheduler.cc:157-253 | So does every run without one. |
| RuntimeRuns.AloneIffNoOverlap | sylar/scheduler.cc:162-204 | A run never has a fiber on two workers exactly when none of its swap-ins takes a fiber still on a stack. |
| RuntimeRuns.OverlapsIffParked | sylar/fiber.cc:190-195 | A swap-in does that exactly when the fiber it takes is parked on another worker, its yield written but not booked. |
| RuntimeRuns.YieldOutcome | sylar/scheduler.cc:192-229 | A yield with its bookkeeping changes one fiber and one worker only: READY is about to be queued again, HOLD is off the stack, an ended callback fiber is INIT without a callback and kept, one that can go on is given away. |
| RuntimeRuns.IdleEndsIff | sylar/scheduler.cc:259-264 | The last question of the idle loop ends the idle fiber exactly when a stop is asked for, nothing is queued, and no worker has a task. |
| RuntimeRuns.AtomicNeverOverlaps | sylar/fiber.cc:190-195 | A run in which every yield is booked at once has no such swap-in. |
| RuntimeRuns.EveryWakeUpOnce | sylar/iomanager.cc:33-44 | Over a run, resumptions and drops of a fiber's rights plus the right still there equal the rights granted; there is never more than one. |
| RuntimeRuns.SoundAsserts | sylar/fiber.cc:115-157 | Every state assertion the worker loop meets holds, no finished fiber is resumed, and at the loop head the callback fiber is absent or INIT without a callback. |
| RuntimeRuns.RunAsserts | sylar/scheduler.cc:153-251 | So over every run without an overlap. |
| RuntimeRuns.BootSound | sylar/scheduler.cc:56-75 | A pool just started satisfies the invariant. |
| RuntimeLimits.ParkedFiberRunsTwice | sylar/fiber.cc:193-194 | A run from the start in which two workers run one fiber, because a yield was not booked yet. |
| Shutdown.LastTake | sylar/scheduler.cc:162-185 | When all others have left, a worker that looks takes a task whenever an unpinned one is queued. |
| Shutdown.AttendedStays | sylar/scheduler.cc:157-253 | In a closed run, queued work always has a worker that has not left. |
| Shutdown.NothingStranded | sylar/scheduler.cc:157-253 | Once all workers of a closed run have left, the queue is empty, both counters are zero, and no fiber is READY or EXEC. |
| Watching.TimersLeftIff | sylar/iomanager.cc:297-363 | When no worker watches the timers at the end, one is left only if some step armed one that nobody watched from then on, and exactly then if no client takes a timer back. |
| Watching.EventsLeftIff | sylar/iomanager.cc:297-404 | The same for events and the pending counter. |
| Watching.ForgottenIff | sylar/iomanager.cc:297-323 | Any number of workers: once all have left a closed run, no continuation is left anywhere unless a timer or an event was armed that no worker watched from then on; exactly then if no client takes one back. |
| Watching.BootGuarded | sylar/scheduler.cc:157-253 | A started pool meets what the results on watching start from. |
| Watching.PoolForgottenIff | sylar/iomanager.cc:297-323 | So from the start of a pool of any size: nothing is left anywhere exactly when nothing was armed unwatched, if no client takes one back. |
| Watching.ForgetsNobody | sylar/scheduler.cc:236-241 | Any number of workers leave no timer, no event and no continuation, if no worker arms one after its idle fiber has ended. |
| Watching.LateArmStays | sylar/scheduler.cc:236-241 | Once every idle fiber has ended, a timer or event that is armed and not taken back is still there at the end. |
| Watching.OneWorkerForgetsNobody | sylar/iomanager.cc:297-323 | So the only worker of a closed run leaves nothing behind. |
| ShutdownLimits.SleeperLeftBehind | sylar/scheduler.cc:193-197 | A closed run of two workers that ends with both gone and the timer of a sleeping fiber still armed: it was armed after both idle fibers had ended. |
| Hook.OthersKeep | sylar/hook.cc:131-139 | No action of others, a timer callback of the call included, gives the call a wake-up or a timer, or an errno without its callback having run. |
| HookedCall.Reactor.AddConditionTimer | sylar/hook.cc:130-140 | A timer with the call's callback, exactly when there is a timeout. |
| HookedCall.Reactor.AddEvent | sylar/hook.cc:142 | On success exactly one wake-up of the fiber is registered, on failure none. |
| HookedCall.Reactor.YieldToHold | sylar/hook.cc:152 | The fiber goes on only by using up its one wake-up. |
| HookedCall.Reactor.WaitForEvent | sylar/hook.cc:125-162 | After a wait that was refused or has ended, no wake-up and no timer of the call is left. |
| HookedCall.Retry | sylar/hook.cc:120-123 | The first result that is not an interruption. |
| HookedCall.Reactor.DoIo | sylar/hook.cc:95-166 | On every exit no wake-up of the fiber is registered or queued, and no timer of the call is armed; ETIMEDOUT only if its own timer callback ran while its record was alive, and no round starts once it has run, so such a wait is never retried; every round but the last would have blocked, and the last one's first uninterrupted result is what is returned; other descriptors bypass the protocol. |
| HookedCall.Reactor.ConnectWithTimeout | sylar/hook.cc:235-302 | The same for connect: after a wait that the timer did not end, and after a refused one, the error that the socket reports. |
| Timeouts.CancelTakesIff | sylar/hook.cc:137 | The cancellation of a timer callback hands over whatever continuation then waits for the event, exactly when epoll agrees, whosever it is. |
| Timeouts.TimeoutWakesIff | sylar/hook.cc:131-139 | Run at once, the timer callback of a call hands the waiting registration to the scheduler exactly when epoll agrees and the record is alive without an errno; otherwise table and queue stay as they are. |
| Timeouts.TimeoutIsFull | sylar/hook.cc:125-161 | Whatever others do: a wait that starts with no callback of its call outstanding ends without an errno unless the clock reached its deadline or went back by more than an hour; without a timeout it always does. |
| TimeoutLimits.StaleEndsWait | sylar/hook.cc:125-161 | Any world with a callback of the call outstanding: a wait can end by ETIMEDOUT without its deadline being reached. |
| TimeoutLimits.TimeoutIsLost | sylar/hook.cc:118-161 | A call whose first timer's callback runs before its second registration: it is parked with its errno set, and no timer or queued callback is left that would end the wait. |
| TimeoutLimits.TimedOutTooEarly | sylar/hook.cc:118-161 | A call whose first timer's callback runs after its second registration: the second wait, due at 40, is timed out at 30. |
| TimeoutLimits.LateCancelWakesAnother | sylar/hook.cc:131-139 | A callback whose call ends between its check and its cancellation: the cancellation wakes another call that reads from the descriptor, without an errno. |
| Tickle.WaitIsBoundedIff | sylar/iomanager.cc:328-336 | The wait is bounded by 3000 ms and by the timeout exactly when the low half of the timeout is below 2^31, or there is none. |
| Tickle.ComputeMissesNothingIff | sylar/iomanager.cc:315-336 | Computing the wake time misses no timer exactly when the cast is sound or an alarm is raised anyway. |
| Tickle.StepKeeps | sylar/timer.cc:183-197 | Every step of the worker and of the other threads keeps the wake-up invariant. |
| Tickle.NoLostWakeUp | sylar/iomanager.cc:288-363 | In every run, a waiting worker that would sleep past a timer has a byte in the pipe or a tickle owed. |
| Tickle.LongTimerIsSleptThrough | sylar/iomanager.cc:330 | A run with a timer of 2^31 ms that ends with the worker waiting for ever and no alarm raised. |
| Tickle.NoTaskSleptThroughIff | sylar/scheduler.cc:185-244 | Over every run, a worker about to wait or waiting beside a queued task always has a byte or a tickle coming, exactly when no step is a last tickle between its scan and its being counted idle, or a submission behind a task for another thread to a worker with no alarm. |
| Tickle.TaskIsSleptThrough | sylar/iomanager.cc:288-295 | A run of the first kind: the task stays queued, the worker waits three seconds, and no alarm is raised. |
| Tickle.TaskBehindAnotherIsSleptThrough | sylar/scheduler.h:62-70 | A run of the second kind. |
| Formatting.LogFormatter.constructor | sylar/log.cc:492-608 | The items and the error flag are those of the scan. |
| Formatting.LogFormatter.Tokenize | sylar/log.cc:492-572 | The loop over any string ends with the vector and error of the recursive scan. |
| Formatting.ScanDirective | sylar/log.cc:509-545 | The inner loop reads the longest name and its format, and where they end, or finds the braces open. |
| FormattingLaws.PrintsBack | sylar/log.cc:492-572 | An error-free pattern is printed back exactly when none of its directives has empty braces. |
| FormattingLaws.NoEmptyBraces | sylar/log.cc:530-532 | A pattern without `{}` has no such directive. |
| FormattingLaws.ScansBack | sylar/log.cc:492-608 | Scanning the printed form of a list gives the list back, without error, exactly when it is canonical. |
| FormattingLaws.ErrorFreeIsCanonical | sylar/log.cc:492-608 | Error-free patterns without empty braces scan to canonical lists. |
| LogConfig.Logger.SetFormatter | sylar/log.cc:233-243 | The formatter goes to the logger and to exactly the appenders without their own. |
| LogConfig.Logger.SetPattern | sylar/log.cc:244-253 | A pattern with an error changes nothing; another one goes to the logger and to exactly the appenders without their own formatter. |
| LogConfig.Logger.AddAppender | sylar/log.cc:282-290 | The appender is appended, with the logger's formatter if it has none. |
| LogConfig.Logger.Define | sylar/log.cc:814-840 | The logger of a definition gets its level, its usable pattern, and one appender for each that it lists. |
| LogConfig.LoggerManager.GetLogger | sylar/log.cc:631-641 | The logger of a name, made on first use; no two names share one. |
| LogConfig.LoggerManager.OnChange | sylar/log.cc:797-853 | The listener changes exactly the loggers whose definition is new, changed or gone. |
| LogConfig.LogsVar.SetValue | sylar/config.h:295-314 | The listener sees old and new value before the value changes, and nothing happens for an equal one. |
| LogConfig.LogsVar.SetValues | sylar/config.h:295-314 | A sequence of updates is the fold of single ones, for every logger. |
| LogConfig.IncrementalIsRebuild | sylar/log.cc:795-853 | After any sequence of updates, level and appenders are as the last configuration alone makes them; dropped names have level 100 and no appenders; others are untouched. |
| LogConfig.FullRebuildIff | sylar/log.cc:815-818 | The formatters in use agree too exactly when the latest usable pattern of the history is what the last configuration would use. |
| LogConfig.FormatterIsNotReset | sylar/log.cc:815-818 | Taking a pattern out of the configuration leaves it in force. |
| IPv6.Insert | sylar/address.cc:431-454 | The bracketed text of the eight groups, and the port. |
| IPv6.InsertGroups | sylar/address.cc:434-449 | The loop drops the first zero run and marks it with a double colon when a group follows. |
| IPv6.TextDecodes | sylar/address.cc:431-454 | The text decodes to the same eight groups when the last one is not zero, and otherwise does not decode. |
| Broadcast.MaskBits | sylar/address.cc:18-21 | The mask sets exactly the bits from the prefix on. |
| Broadcast.BroadcastAddress | sylar/address.cc:455-464 | The first prefix bits are kept and all others set. |
| Broadcast.BroadcastsCompose | sylar/address.cc:455-464 | Two broadcasts in a row are one with the shorter prefix; in particular broadcasting is idempotent. |

## Left out

- Runtime: fibers and workers are values in a step system and not objects, because workers interleave; updates in place of `Fiber` objects are not captured. The class `Scheduler` has the lock regions of the queue as methods.
- Tickle.NoLostWakeUp: for one worker that does not stop; an interrupted wait starts again with the same timeout, so a wake-up can be late by what had already passed, and the time of the wait is not measured.
- LogConfig.LoggerManager.OnChange: the order in which the definitions are visited is not fixed, each touches its own logger only; appenders are values, so one appender shared by two loggers is not captured; other listeners of the variable are not modelled.
- TimerManagement.TimerManager.AddTimer: the address is any that no timer in existence has; the step systems of the runtime and the hooked calls give a new timer a larger identity than all before, which decides only the order of timers with equal deadlines.
- Hook.OthersKeep: others keep the discipline of the runtime, that is, they do not register or schedule the calling fiber and do not touch the timers of the call; what they do otherwise is arbitrary.
- TimerManagement.TimerManager.ListExpiredCb: the window between the read lock of the emptiness test and the write lock is closed.
- Swapping contexts, stacks, thread creation, locks, `shared_ptr` lifetimes (but the record of a hooked call), destructors: a switch is a step, a lock region is atomic.
- `m_rootFiber` and the caller's thread as a worker: they differ in which thread runs the loop only.
- `epoll_wait` reports arbitrary events; that real kernels report only registered ones, errors and hang-ups is not assumed.
- EventRuns.StuckForever: for runs of the table operations; closing is stated beside it (`CloseKeepsIff`, `CloseUnsticks`), and that the kernel forgets a closed descriptor is assumed; for a duplicated one it does so at the last close only.
- Descriptors beyond the fixed size of `FdManager`, negative descriptors, and `contextResize` racing with a lookup: lookup and growth are one step.
- Appenders of type 0, which the listener would dereference as null; YAML and the conversions of configuration values.
- IPv4, network addresses and subnet masks, prefixes of 128 and more, address lookup: as written they do not compute what their names say, or write out of bounds.
- The output of the formatters, file and standard output, dates, `fcntl`, `ioctl`; of the sleep hooks the timer and the yield are steps of the runtime, the conversion of their arguments to milliseconds is not modelled.
