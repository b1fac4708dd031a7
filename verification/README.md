# User Mode Scheduling: a verified model of the kernel module

The module lets user threads ("schedulers") decide when other user threads ("workers") run. Workers are put on
completion lists; a scheduler dequeues a batch of ready workers from its list, executes them one after the
other, and gets each back when it yields or exits. A worker may be on several lists and even several times on one.

Three things make this hard, and are what the project proves. The worker's mutex is taken with a trylock in one
ioctl and released in another, so it is a token that crosses user space. Schedulers sleep on counters that are
updated list by list, not on the state of the locks. And two sleep/wake protocols overlap: scheduler and worker
through `state` and `curr_sched_tid`, scheduler and wait queue through the counters.

## How the model is built

`Protocol` is a transition system: maps of worker, list and scheduler records, a position for every scheduler
thread inside its current ioctl, and one function per atomic step. Workers, lists and schedulers are unbounded in
number, `maxWt` (the MAX_WT of the source, 8 there) is any number from 1 on.

| file | contents |
|---|---|
| Protocol | records, steps, when a step may happen (`Guard`), which identifiers it follows (`Resolves`), what it does (`Apply`), runs |
| Totals | sums over finite maps |
| Invariant, Frames, SchedulerSteps, WorkerSteps, ClientSteps, Safety | the inductive invariant and its proof, step by step |
| Theorems, Debts | what the invariant says about sleeping, ownership, counters, indexes, identifiers; that owed wakes are made |
| Effects | who may change which record, and what wakes, signals, late adds, slices and destroys do, told apart from the step functions |
| Measure, Descent, Progress | the termination measure, freedom from deadlock, finite work |
| Strays, Liveness | a second measure for runs with stray wakes and interrupted waits, and what happens in them under fair scheduling |
| Refinement | a scheduler with only a ready set and an owner map, and the simulation |
| Accounts | conservation of switches and of running time |
| History, Scans | answers of the dequeue over runs, whole scans amid the steps of others, and the life of a worker |
| Solo, Answers | closed forms of the loops of an ioctl that runs without interference; which workers an answer can name |
| Records, Kernel | the kernel records as objects, the tables, and the ioctl handlers as methods proved against `Protocol` |
| Buckets | the hash buckets behind the tables and behind the queue of a list |
| UserLists, Skipped | the fixed arrays of user space, their agreement with the kernel, and what follows when they disagree |
| Handshake | creation of a worker: condition variable, WAITWTCREATION, CREATEWORKERTHREAD |

The atomic steps are modelling assumptions:

- Scheduler-side ioctls are cut into the visit of one queue element with its trylock, one list decrement, setting
  both records to running and waking the worker, one test of the worker's state, the time update, one list
  increment, one list wake, and the unlock. Any other thread may act between two of these.
- UMSTHREADTYIELD and WORKERTHREADEXIT are one step each: the worker is pinned to its scheduler's CPU
  (src/lib/ums.c:54, src/lib/ums.c:73). CREATEWORKERTHREAD is one step in `Protocol`; `Handshake` separates its
  insertion of the record from its wake.
- COMPLLISTADD is one step, possible while the worker's mutex is free. An element added while a scan is under way
  is met by that scan or not, depending on its bucket; the step says which scans meet it.
- A visit of a queue element sees it only if it is still there.
- The client executes only workers of its own current batch, each once, and does not dequeue again before that
  (`Skipped` drops this last point and books what is left aside under a thread that never moves); it adds no exited
  worker; it destroys lists and then workers after all schedulers have left, as src/example/main.c:108-114 does. A
  tid is not reused while a record has it.
- A scheduler asleep in either of its two wait loops may be woken for no reason, and an interrupted wait falls
  through to the scan, because the result of wait_event_interruptible is not looked at (src/lkm/ums_core.c:180).
- The clock (`now`) never goes back.

Fields the source leaves uninitialised (`wt_running`, `last_measured`) start at -1 and 0; they are written before
they are read. `left` is the number of yields the worker's routine still makes. `born`, `execs`, `entered`,
`sliceStart`, `sliceEnd`, `sliceSum` and `ledger` are history: nothing else depends on them.

The methods of `Kernel` that contain a loop over several atomic steps are proved for the case that nobody
interferes, and their contracts give the run of `Protocol` steps they took; `Protocol` itself has all interleavings.

Where the report and the code differ, the model follows the code. doc/report.md:46 says that a thread that
locked nothing puts itself to sleep; the code goes back to the wait condition and sleeps only if that is false.

## What turned out not to hold

- The creation handshake can lose its wake. In WAITWTCREATION the first look-up of the record comes before
  `set_current_state` (src/lkm/ums_core.c:156-158). If that look-up fails and the new thread then both inserts the
  record and makes its wake before `set_current_state`, the creator goes to sleep and nobody is left to wake it.
  `Handshake.LossHappens` is such a run; `Handshake.LostIff` and `Handshake.ReturnsIff` say that this is exactly
  when it happens. What counts is the wake: if the insertion falls into that gap but the wake comes later, the
  creator returns (`Handshake.LateWakeArrives`).
- The user-space half of a list refuses an add when it is full, and `ums_completion_list_add` goes on to the kernel
  regardless (src/lib/ums.c:137-143). `UserLists.AgreementIff` gives the exact condition under which the halves
  agree, and under it every answer is executed completely (`UserLists.AnswersResolve`). Otherwise an answer can name
  a worker without a handle (`UserLists.UnresolvedAnswer`, `UserLists.OverflowHappens`), scheduler_proc skips it, and
  when it dequeues again the worker stays locked and no scheduler of its lists is ever answered -1
  (`Skipped.SkippingNeverEnds`).
- A table finds nothing after a delete exactly if the key was in it at most once (`Buckets.DeleteForgetsIff`), so
  identifiers have to be fresh on insert.

## Model

| member | source | states |
|---|---|---|
| Safety.KeepStep | src/lkm/ums_core.c:121-272 | every atomic step of every ioctl, by any thread, keeps the invariant |
| Safety.ReachableInv | src/lkm/ums_core.c:121-272 | the invariant holds in every reachable state, for any number of threads and lists |
| Theorems.NoStrandedSleeper | src/lkm/ums_core.c:175-225 | whoever sleeps on the wait queue of a list is owed a wake by another scheduler, which is not asleep there itself, holds a worker of that list and has yet to reach the list in that worker's wake loop |
| Debts.DebtStays | src/lkm/ums_core.c:212-225 | no step of any thread discharges such a debt, moves it to another holder or lets the worker go, except the holder's wake of that list |
| Debts.PaidBeforeRelease | src/lkm/kcompletion_list.h:72-78 | in every run in which the worker that guarantees a wake on a list is let go there is a moment at which nobody sleeps on that list |
| Theorems.RunningPair | src/lkm/kworker_thread.h:48-53 | a worker is RUNNING exactly while it names a scheduler, and then that scheduler is running, names this worker and waits for it |
| Theorems.AsleepIsNamed | src/lkm/ksched_thread.h:55-61 | a scheduler asleep in wait_worker_thread has a worker that is still RUNNING and names it |
| Theorems.StopWakesItsScheduler | src/lkm/kworker_thread.h:97-103 | a yield or exit finds the scheduler that waits for this worker, wakes it and moves no other |
| Theorems.ExclusiveOwnership | src/lkm/kcompletion_list.c:84-91 | a worker in some scheduler's batch or execution is locked by it, is there once, and is with no other scheduler, whatever lists they used |
| Theorems.LockedIffHeld | src/lkm/ums_core.c:195-227 | a worker is locked exactly while some scheduler has it in its batch or execution; an unlocked one does not run |
| Theorems.CrossIndex | src/lkm/kworker_thread.c:35-51 | for every tid and list, the multiplicity in wt_ready_queue is that in clid_list, and 0 for exited workers |
| Theorems.LiveExact | src/lkm/kcompletion_list.h:92-107 | nthreads is the number of queue elements and the number of occurrences of the list at live workers, duplicates counted, also after exits |
| Theorems.ReadyExact | src/lkm/kcompletion_list.h:44-70 | at every sub-step threads_ready is the number of occurrences that are up (unlocked, not yet decremented, or incremented again), between 0 and nthreads |
| Theorems.ZeroReadyAllLocked | src/lkm/ums_core.c:180-181 | threads_ready = 0 means that every live worker of the list is locked |
| Theorems.ReadyBetweenHandlers | src/lkm/ums_core.c:180-181 | while no scheduler is in a decrement loop or between the first increment of an execute and the unlock, threads_ready counts exactly the unlocked live workers, however many workers are in execution |
| Theorems.ExecHasWorker | src/lkm/ums_core.c:198-225 | the worker a scheduler has in hand during an execute is a live record, locked by it, in the state that belongs to the phase |
| Theorems.DecHasWorker | src/lkm/kcompletion_list.c:85-91 | so is the worker whose lists a scan is decrementing |
| Theorems.NoDangling | src/lkm/kcompletion_list.c:39-49 | every other tid and every clid that an ioctl follows resolves to a live record, also under the teardown order |
| Effects.SchedChanges | src/lkm/ums_core.c:170-258 | a scheduler's record changes only by its own steps, its position also by a wake that reaches it or an element put before its cursor |
| Effects.WorkerChanges | src/lkm/ums_core.c:170-258 | a worker's record changes only by steps that concern it, and each field only by its own kind of step |
| Effects.ListChanges | src/lkm/kcompletion_list.h:44-107 | a list changes only by adds to it, by the counter loops that meet it, and by the exit of a worker on it |
| Effects.SchedsComeAndGo | src/lkm/ksched_thread.c:15-34 | only an enter brings a scheduler and only its own leave takes it away |
| Effects.EntersIdle | src/lkm/ums_core.c:121-135 | a scheduler enters with nothing in hand, nothing run and its list, and can dequeue |
| Effects.WakeOneWakes | src/lkm/kcompletion_list.h:72-78 | a wake of a list sends each of its sleepers, and nobody else, back to the wait condition |
| Effects.StrayWakeRechecks | src/lkm/ums_core.c:180 | a stray wake on the wait queue leaves everything as it was if the condition is false, and leads to the scan if it is true |
| Effects.StrayWakeWaitsOn | src/lkm/ksched_thread.h:55-61 | a stray wake in wait_worker_thread leaves everything as it was |
| Effects.InterruptedWait | src/lkm/ums_core.c:176-182 | an interrupted wait falls through without anybody's wake: -1 exactly if no live worker is on the list, else a scan of the whole queue; no other record changes |
| Effects.LateIsSeen | src/lkm/kcompletion_list.c:51-65 | an add gives each scan of the list that it is put before one more element to visit, and changes no other scheduler |
| Effects.LateIsVisited | src/lkm/kcompletion_list.c:84-91 | such a scan can visit the new element at once, and then locks its worker if there is room |
| Effects.LateIsAnswered | src/lkm/kcompletion_list.c:84-91 | the worker can be part of that scan's answer, by steps of the scanner alone |
| Effects.ElapsedChanges | src/lkm/ksched_thread.h:33-50 | only the end of a scheduler's own slice changes its elapsed_wt_running |
| Effects.ElapsedStays | src/lkm/ksched_thread.h:33-50 | over any run until the end of its next slice the scheduler shows the same elapsed_wt_running |
| Effects.SliceIsTimePassed | src/lkm/ums_core.c:202-216 | whatever happens in between, elapsed_wt_running becomes exactly the time since the execute, and the worker's total grows by as much |
| Effects.CanTearDown | src/example/main.c:108-114 | once all schedulers have left, destroying lists and then workers empties all tables |
| Effects.DestroysOne | src/lkm/kcompletion_list.c:105-126 | a destroy takes exactly its record out of the tables |
| Descent.StepDescends | src/example/main.c:12-52 | without client growth and stray wakes every step makes the measure smaller, except steps of a dequeue round that has locked nothing and the clock, which leave it or lower it |
| Progress.BusyWorks | src/lkm/ums_core.c:195-258 | any thread that holds something, or the worker it waits for, can take a step that lowers the measure |
| Progress.DeadlockFree | src/lkm/ums_core.c:170-258 | from every reachable state with a scheduler left some run lowers the measure |
| Progress.CanFinish | src/example/main.c:41-52 | from every reachable state some run ends with all schedulers out of their loop |
| Progress.FiniteWork | src/example/main.c:41-52 | every endless run is, from some point on, only dequeue rounds without a lock and the clock |
| Liveness.CanAct | src/lkm/ums_core.c:170-227 | every scheduler that is not asleep on a wait queue has a step to take, so fairness asks nothing impossible |
| Strays.OpenLowers | src/lkm/ums_core.c:176-182 | also with stray wakes and interrupted waits: every step lowers a measure or is idle (a round without a lock, a wait for a running worker, a stray, the clock) and leaves it |
| Liveness.IdleIsQuiet | src/lkm/ksched_thread.h:55-61 | once a fair run has only idle steps left no scheduler holds or awaits a worker |
| Liveness.FairRunsFinish | src/example/main.c:41-54 | in every fair endless run all schedulers are answered -1 and leave, however often sleepers are woken for no reason or interrupted |
| Liveness.FairRunExists | src/example/main.c:41-54 | every reachable state starts a fair endless run |
| Liveness.ServedWorkersExit | src/example/main.c:108-114 | in every fair endless run, strays included, in which each live worker is on a served list, all workers exit and all schedulers leave |
| Liveness.CanDrain | src/example/main.c:108-114 | from every reachable state with served workers some run ends with all workers exited and all schedulers gone |
| Refinement.OwnersHold | src/lkm/ums_core.c:195-227 | in every reachable state a live worker is ready or owned, never both; owned means locked by, and in the batch or execution of, that one scheduler; ready means unlocked or locked by a scan that has not answered |
| Refinement.Simulates | src/lkm/ums_core.c:170-258 | every step of the module is a stuttering or a proper step of the abstract scheduler: a dequeue takes 1 to MAX_WT ready members of the list at once, an execute gives one back, an exit removes one |
| Refinement.SimulatesRun | src/lkm/ums_core.c:170-258 | every run of the module is a run of the abstract scheduler |
| Refinement.TakeMeans | src/lkm/kcompletion_list.c:67-103 | the end of a successful scan moves exactly its batch from the ready set to the caller |
| Refinement.GiveBackMeans | src/lkm/ums_core.c:218-225 | the unlock after a yield makes exactly this worker ready again |
| Refinement.FinishMeans | src/lkm/ums_core.c:245-258 | an exit removes exactly this worker, from the live workers and from its owner |
| Accounts.BooksStep | src/lkm/ksched_thread.h:33-50 | every step keeps both balances and the clocks of every scheduler and worker |
| Accounts.SwitchConservation | src/lkm/kworker_thread.h:60-73 | switches of all schedulers, past ones included, equal switches of all workers plus exited plus running workers |
| Accounts.SameClock | src/lkm/kworker_thread.h:48-53 | when a slice is measured the worker's stamp is the one its own scheduler took, so no other execution came in between |
| Accounts.TimeConservation | src/lkm/kworker_thread.h:82-88 | the running times of all workers equal the slices of all schedulers, each taken on the scheduler's own stamps, and fit in the time spent in UMS mode |
| Accounts.WorkerTimeBound | src/lkm/kworker_thread.h:82-88 | a worker's total running time is between 0 and its age |
| History.MinusOneIffGone | src/lkm/kcompletion_list.c:81-82 | the answer is -1 exactly when no live worker belongs to the list |
| History.PositiveAnswer | src/lkm/ums_core.c:176-184 | any other answer is a batch of 1 to MAX_WT distinct idle workers of the list, exactly the workers the caller has locked, never 0 |
| Scans.ScanOverRun | src/lkm/kcompletion_list.c:67-103 | with any steps of others in between, a scan reports exactly the distinct workers it has locked, at most MAX_WT, each free, idle and on the list when visited, has nobody else locked, and has decremented each list exactly by their multiplicities |
| Scans.EachElementOnce | src/lkm/kcompletion_list.c:84-98 | with any steps of others in between, a scan visits each element of the queue, and each that is added before its cursor, exactly once |
| History.MinusOneForever | src/lkm/ums_core.c:176-184 | once a list answered -1 it answers -1 to everybody in every later state, unless a worker is added to it |
| History.WorkerLife | src/lkm/kworker_thread.h:48-73 | over any run a worker's states follow IDLE (RUNNING IDLE)* [RUNNING [EXITING]], nswitches counts the returns to IDLE, and yields made and yields left add up |
| History.RoutineRunsOut | src/example/main.c:12-28 | a worker whose routine yields n times exits after exactly n switches and n + 1 executions |
| History.FrozenInTail | src/lkm/ums_core.c:212-225 | from the end of the wait to the unlock no step of any thread changes the worker's state |
| Solo.DroppedCounts | src/lkm/kcompletion_list.h:62-70 | after the scan every threads_ready has fallen by the multiplicities of the workers taken, and nothing else of the list changed |
| Solo.WakeEnds | src/lkm/ums_core.c:212-225 | the tail of an execute, uninterrupted, adds the slice, refills the lists only after a yield, wakes everybody on the worker's lists and unlocks |
| Answers.CanBeAnswered | src/lkm/kcompletion_list.c:84-91 | every unlocked live worker of the list can be part of the next answer |
| Records.KWorkerThread.constructor | src/lkm/kworker_thread.c:13-33 | a new worker is idle, unlocked, on no list and run by nobody |
| Records.KWorkerThread.SetRunning | src/lkm/kworker_thread.h:48-53 | the whole record after the running macro and the wake |
| Records.KWorkerThread.SetIdle | src/lkm/kworker_thread.h:60-64 | the whole record after a yield |
| Records.KWorkerThread.SetExiting | src/lkm/kworker_thread.h:70-73 | the whole record after an exit |
| Records.KWorkerThread.UpdateTimeMeasured | src/lkm/kworker_thread.h:82-88 | the slice, and the record with the slice added |
| Records.KWorkerThread.TryLock | src/lkm/kcompletion_list.c:87 | succeeds exactly on a free mutex and changes nothing otherwise |
| Records.KWorkerThread.AddClid | src/lkm/kworker_thread.c:35-51 | the list id becomes the first of clid_list |
| Records.KCompletionList.AddWorker | src/lkm/kcompletion_list.c:51-65 | the bucketed queue gains one element, both counters grow by one |
| Records.KCompletionList.RemoveWorker | src/lkm/kcompletion_list.h:98-105 | the bucketed queue loses every element with the tid, nthreads falls by one |
| Records.KSchedThread.constructor | src/lkm/ksched_thread.c:15-34 | a new scheduler record |
| Records.KSchedThread.SetRunning | src/lkm/ksched_thread.h:33-38 | the whole record after the running macro |
| Records.KSchedThread.SetIdle | src/lkm/ksched_thread.h:46-50 | the whole record after the idle macro |
| Kernel.UmsModule.InitCompletionList | src/lkm/kcompletion_list.c:17-37 | takes exactly the protocol step; the id is new |
| Kernel.UmsModule.CreateWorkerThread | src/lkm/ums_core.c:137-152 | takes exactly the protocol step |
| Kernel.UmsModule.EnterSchedMode | src/lkm/ums_core.c:121-135 | takes exactly the protocol step |
| Kernel.UmsModule.CompletionListAdd | src/lkm/ums_core.c:187-193 | takes exactly the protocol step, on the worker's record, on the list's and on the cursors of the scans that will meet the element |
| Kernel.UmsModule.YieldHandler | src/lkm/ums_core.c:229-243 | takes exactly the protocol step, on the worker and on the scheduler that ran it |
| Kernel.UmsModule.ForEachDecNthreads | src/lkm/kcompletion_list.h:92-107 | the loop leaves every list it met n times without elements of the worker and with nthreads less n, and the others alone |
| Kernel.UmsModule.ExitHandler | src/lkm/ums_core.c:245-258 | takes exactly the protocol step |
| Kernel.UmsModule.VisitElement | src/lkm/kcompletion_list.c:84-98 | takes exactly the protocol step, and reports the worker exactly if it was there, free and fitted |
| Kernel.UmsModule.ForEachDecThreadsReady | src/lkm/kcompletion_list.h:62-70 | the loop is a run of the protocol and lowers threads_ready by the worker's multiplicities |
| Kernel.UmsModule.GetWtReadyQueue | src/lkm/kcompletion_list.c:67-103 | the scan is a run of the protocol; it answers -1 on nthreads = 0, else at most MAX_WT distinct workers, exactly those it locked, each unlocked and idle before; none it could take is left out while there is room; counters fall by their multiplicities |
| Kernel.UmsModule.DequeueRound | src/lkm/ums_core.c:176-182 | one round of the loop is a run of the protocol: it falls asleep exactly if the wait condition is false, and otherwise ends as the scan reports |
| Kernel.UmsModule.InterruptedRound | src/lkm/ums_core.c:176-182 | a round whose wait is interrupted is a run of the protocol and ends as the scan reports, whatever the condition says |
| Kernel.EmptyRoundIff | src/lkm/ums_core.c:176-182 | a round ends with 0 exactly if the condition held, live workers are left and none of them could be taken |
| Kernel.UmsModule.DequeueHandler | src/lkm/ums_core.c:170-185 | while no other scheduler is in a decrement loop or between the first increment of an execute and the unlock, the handler takes one round: it falls asleep exactly if the wait condition is false, answers -1 for a list without live workers, and else a batch of at least one, whatever the others have in execution |
| Kernel.UmsModule.StartWorker | src/lkm/ums_core.c:195-208 | takes exactly the protocol step |
| Kernel.UmsModule.MeasureSlice | src/lkm/ums_core.c:214-216 | takes exactly the protocol step |
| Kernel.UmsModule.ForEachIncThreadsReady | src/lkm/kcompletion_list.h:44-52 | the loop is a run of the protocol and raises threads_ready by the worker's multiplicities |
| Kernel.UmsModule.WakeAll | src/lkm/kcompletion_list.h:77 | wakes all and only the threads asleep on the list |
| Kernel.UmsModule.WakeUpSchedulers | src/lkm/kcompletion_list.h:72-78 | the loop is a run of the protocol and wakes everybody on the worker's lists |
| Kernel.UmsModule.FinishExecute | src/lkm/ums_core.c:212-227 | from the end of the wait to the return, a run of the protocol with the end state that Solo.WakeEnds describes |
| Kernel.UmsModule.CompletionListDestroy | src/lkm/kcompletion_list.c:105-126 | takes exactly the protocol step |
| Kernel.UmsModule.WorkerThreadDestroy | src/lkm/kworker_thread.c:87-107 | takes exactly the protocol step, and ignores a tid without a record |
| Kernel.UmsModule.SchedThreadDestroy | src/lkm/ksched_thread.c:63-69 | takes exactly the protocol step |
| Kernel.ReadyIsNotEmpty | src/lkm/ums_core.c:180-181 | under the same condition a scan begun on threads_ready > 0 finds somebody |
| Buckets.SearchFinds | src/lkm/kworker_thread.c:53-63 | for any hash function and number of buckets the search of one bucket finds a key exactly if the table has it |
| Buckets.TableRefinesMap | src/lkm/kworker_thread.c:53-63 | after any inserts under fresh keys and deletes the table agrees with a map on every key |
| Buckets.EmptyShows | src/lkm/kcompletion_list.c:29 | a table of empty buckets shows the empty map |
| Buckets.DeleteForgetsIff | src/lkm/ksched_thread.c:63-69 | after a delete the search misses the key exactly if it was in the table at most once |
| Buckets.InsertAdds | src/lkm/kcompletion_list.c:59 | an insert adds one element, also for a tid that is in the queue already |
| Buckets.InsertLooks | src/lkm/kworker_thread.c:28 | after an insert the search finds the new record under its key, and under other keys what it found before |
| Buckets.DeleteUndoesInsert | src/lkm/ksched_thread.c:63-69 | a delete takes the most recent record with its key |
| Buckets.PurgeEmpties | src/lkm/kcompletion_list.h:98-104 | the walk over one bucket removes all and only the elements of the whole table with the worker's tid |
| Buckets.PurgeLooks | src/lkm/kcompletion_list.h:98-104 | the walk leaves the look-up of every other key as it was |
| Buckets.PurgeKeepsOrder | src/lkm/kcompletion_list.h:98-104 | what remains of the bucket keeps its order |
| Buckets.HashTable.Add | src/lkm/kworker_thread.c:28 | the array after hash_add_rcu |
| Buckets.HashTable.Search | src/lkm/kcompletion_list.c:39-49 | the loop returns the first record of the bucket with this key, or none |
| Buckets.HashTable.Remove | src/lkm/ksched_thread.c:63-69 | the array without the record that the search finds |
| Buckets.HashTable.Purge | src/lkm/kcompletion_list.h:98-104 | the array without all elements with this tid |
| UserLists.CompletionList.constructor | src/lib/completion_list.c:5-10 | a new list is empty |
| UserLists.CompletionList.Add | src/lib/completion_list.c:12-29 | -1 exactly on a full list, which stays as it is; otherwise the handle is appended |
| UserLists.CompletionList.Get | src/lib/completion_list.c:31-44 | a handle of the list with this tid, or none exactly if there is none |
| UserLists.CompletionList.ExecuteBatch | src/example/main.c:46-51 | the loop executes exactly the entries whose tids have a handle, wherever they stand in the answer, in the order of the answer |
| UserLists.ResolvedConcat | src/example/main.c:46-51 | what is executed of two parts of an answer is what is executed of the whole: an entry without a handle ends nothing |
| UserLists.ResolvedCounts | src/example/main.c:46-51 | an entry with a handle is executed as often as it was answered, one without never |
| UserLists.HoldsTheFirst | src/lib/completion_list.c:12-29 | after any adds the list holds the first MAX_WT of them, in order |
| UserLists.WholeBatchIff | src/example/main.c:46-51 | the whole batch is executed exactly if every tid has a handle |
| UserLists.MembershipsAreAdds | src/lib/ums.c:133-149 | until teardown the kernel has a worker on a list as often as it was added |
| UserLists.ClidsAreJoined | src/lkm/kworker_thread.c:35-51 | clid_list names the lists a worker was added to, the last first |
| UserLists.AgreementIff | src/lib/ums.c:133-149 | every worker on the kernel's list has a handle exactly if the adds after the list was full repeat earlier workers; at most MAX_WT adds suffice |
| UserLists.AnswersResolve | src/example/main.c:42-51 | while the adds after the list was full repeat earlier workers every answer for it is executed completely and in order |
| UserLists.AnswersResolveWithinMax | src/lib/completion_list.c:18-22 | in particular with at most MAX_WT adds |
| UserLists.UnresolvedAnswer | src/example/main.c:46-51 | a free worker without a handle can be part of the next answer, and is then left out by scheduler_proc |
| UserLists.OverflowHappens | src/lib/ums.c:133-149 | a run with one add too many that ends in a state to which UnresolvedAnswer applies |
| Skipped.ForgottenForever | src/example/main.c:46-52 | a worker left aside by a further dequeue stays locked and idle for ever, nthreads of its lists stays positive, and nobody waiting on one of them is answered -1 |
| Skipped.SkippingNeverEnds | src/example/main.c:41-52 | a scheduler that dequeues again with a worker in hand, and every other scheduler of that worker's lists, never leaves |
| Skipped.KeepAside | src/example/main.c:46-52 | leaving workers aside keeps the invariant of the kernel |
| Skipped.AsideExtendsCall | src/lkm/ums_core.c:170-179 | for the scheduler itself such a dequeue is the ordinary one, and no other scheduler and no worker outside its batch is touched |
| Skipped.BatchAddsUp | src/example/main.c:46-51 | until the next dequeue what a scheduler has executed and what it has in hand make up its batch, whatever the others do |
| Skipped.BatchInOrder | src/example/main.c:46-51 | a scheduler that always executes the head of what it has in hand executes the workers in the order of the answer, whatever the others do |
| Skipped.WholeBatchDone | src/example/main.c:41-52 | a scheduler that has executed its whole batch is back with an empty batch and holds no worker |
| Handshake.ReturnsWhenReady | src/lib/ums.c:192-230 | the creator returns only after the tid is published and the kernel record exists |
| Handshake.ReturnsRunning | src/lkm/ums_core.c:157-167 | along every run the creator's task state is TASK_INTERRUPTIBLE only inside the wait, always while it sleeps, and never when it returns |
| Handshake.StrayWakeSleepsAgain | src/lkm/ums_core.c:158-164 | a stray wake before the record exists makes the creator look again and sleep exactly as before |
| Handshake.StrayWakeSleeps | src/lkm/ums_core.c:158-164 | wherever in the wait a stray wake meets it, the creator sleeps again as long as there is no record |
| Handshake.LostIff | src/lkm/ums_core.c:137-168 | the wake is lost exactly if it is made between a first look-up in vain and the set_current_state after it, and only a stray wake makes up for it |
| Handshake.ReturnsIff | src/lkm/ums_core.c:137-168 | once the new thread has made its wake the creator by itself returns if and only if the wake was not lost |
| Handshake.LossHappens | src/lkm/ums_core.c:156-158 | a run in which insertion and wake fall between look-up and set_current_state, and the wake is lost |
| Handshake.LateWakeArrives | src/lkm/ums_core.c:144-147 | a run in which only the insertion falls there, and the wake is not lost |

## Left out

- The /proc files (src/lkm/ums_proc.c) and their own look-ups: separate from scheduling.
- Device registration, copying from and to user space, ioctl numbers, log output: plumbing.
- Allocation failure, RCU grace periods and reference counts of pids: not part of the protocol.
- Increments torn by truly parallel, unlocked updates (src/lkm/kcompletion_list.c:21-36, src/lkm/kcompletion_list.c:63-64): COMPLLISTADD and list initialisation are atomic here, and nothing is claimed about the finer interleavings.
- Splitting a yield between "state := IDLE" and "wake, sleep": excluded by the pinning of workers to the CPU of their scheduler, which is assumed.
- Stray wakes of workers: their sleep is a single schedule() without a second look, so the module relies on there being none.
- CPU affinity and the assignment of CPUs to lists in main: every scheduler may serve any list.
- Clients that break their obligations (execute a tid that is not in their batch, add an exited worker, destroy early): outside the model, except for adds beyond MAX_WT and dequeues with workers in hand.
- C integer widths: counters and times are unbounded.
- kworker_thread_copy and ksched_thread_copy: only /proc uses them.
- proc_mutex and kst->mutex: they guard single macros, which are parts of atomic steps here.
- Kernel.UmsModule.GetWtReadyQueue: is stated without interference, although the original takes no lock around the scan; Scans.ScanOverRun is the statement with interference, about the protocol. The array wt_ready_queue is a sequence, and elements are visited in any order.
- Kernel.UmsModule.ForEachDecThreadsReady: is stated without interference; Scans.ScanOverRun counts its decrements amid the steps of others.
- Kernel.UmsModule.ForEachIncThreadsReady: is stated without interference; Theorems.ReadyExact is what holds of it at every moment amid the steps of others.
- Kernel.UmsModule.WakeUpSchedulers: is stated without interference; Debts.PaidBeforeRelease is what holds of it amid the steps of others.
- Kernel.UmsModule.DequeueRound: is stated without interference, and ends where the thread falls asleep; what wakes it are steps of other threads.
- Kernel.UmsModule.DequeueHandler: is stated without interference, and for a start at which no other scheduler has changed a counter but not yet the lock that belongs to it; from other starts Kernel.EmptyRoundIff says when a round comes back empty, and then the loop can go round for as long as the others stand still.
- Kernel.UmsModule.FinishExecute: is stated without interference, and does not model the wait for the worker, which needs other threads.
- Kernel.UmsModule: its three tables are maps; Buckets.TableRefinesMap is what justifies that. Only the queue of a list is kept in buckets there.
- Liveness.FairRunsFinish: speaks about runs in which the client enters no more schedulers and adds no more workers; with endless adds there is nothing to finish. Fairness is assumed of schedulers that are not asleep on a wait queue and of workers that execute user code.
- Dequeues from another list than the one the scheduler entered with: the ioctl takes the list from its arguments each time (src/lkm/ums_core.c:171-173); here, as in scheduler_proc, it is always the same.
- Handshake.ReturnsWhenReady: takes each pthread critical section as one step.
