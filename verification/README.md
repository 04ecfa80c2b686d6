# The scheduler of question 2, verified

This project models the scheduler of the Linux 5.8.1 kernel as changed in `hw3/question_2/my_call`, in Dafny, and
proves what its comments promise. The change adds a switch counter to every task: a field in `sched.h`, an increment
in `__schedule()` and two system calls. `hw3/readme.md` counts switch-ins only, because they equal switch-outs; that this
holds, and that the counter is right, follows only from the protocol by which CPUs switch, wake and migrate tasks, so
that protocol is the centre of the model; beside it stand the other parts of `core.c` that share its state.

## Parts

- **Switch, wakeup and migration** (`SchedState`, `SchedInvariant`, `SchedEffects`, `SchedMigrate`, `SchedSafety`,
  `SchedWakeup`, `SchedFrame`, `SchedProgress`). A step relation over any number of CPUs and tasks. Every step keeps one
  invariant, stated pairwise between a task record and a CPU record. From it follow placement, the silence of the
  wakelist warnings, the stability that `task_rq_lock()` promises, the arrival of every migration, that the documented
  wait loop loses no wakeup, and that no CPUs ever wait for each other in a circle. `SchedEffects` says of each step,
  without the functions that compute it, what it does to the fields and when it can happen.
- **Counters over runs** (`SchedCounters`, `SchedLoad`, `SchedSleepers`, `SchedMm`): the repository's switch counter,
  `nvcsw` and `nivcsw`, `nr_switches`, the value of `wait_task_inactive()`, `nr_uninterruptible`, `nr_iowait`, and the
  lazy references to address spaces.
- **The same as code** (`SchedCore`, `SchedTtwu`): a class that updates runqueues and tasks statement by statement, each
  method proved to be a step, or a run of steps, that the theorems above are about.
- **Utilization clamps** (`Uclamp`, `UclampRuns`, `UclampCache`, `UclampStale`): bucket counts that cache a maximum, per
  runqueue, and every run of the operations, updates of active tasks included, over any number of runqueues; when the
  cached maximum is right, and exactly when an update makes it wrong.
- **Task groups** (`GroupTree`, `CfsBandwidth`, `EffClamps`): the traversal without a stack, the admission test for CFS
  bandwidth on top of it, and the pruned walk that keeps effective clamps up to date.
- **CPU death** (`CpuDeath`), **wake queues** (`WakeQ`), **priorities and classes** (`Prio`) and the **remote tick**
  (`TickWork`).

`dafny verify dfyconfig.toml` checks everything.

## How to read the model

- Steps are sequentially consistent. A section that runs under a runqueue lock is one step, but these are kept
  apart: publishing and claiming the next task, clearing `prev->on_cpu`, dropping the lock; every load and store of
  `try_to_wake_up()` that others can get in between; the two halves of a migration; and reading a runqueue before
  locking it. A wakelist is drained one entry per step, which allows more interleavings than the source;
  `Scheduler.SchedTtwuPending` is the whole section.
- A CPU with interrupts off has a mode that says what it is in the middle of. A wakelist is drained, and a wakeup or
  migration begun, only on a CPU that is in none; this is how "with interrupts off" appears.
- Machine integers are explicit: counters wrap at 2^32 or 2^64, ratios shift in 64 bits and are stored in signed words.
- Two values carry bookkeeping that the source has elsewhere: `Waking(carried)` tells a task on a wakelist from one its
  waker still holds, `Migrating(mover)` names the CPU that carries a task between runqueues.
- Sleeping states are sets of state bits; wake masks never contain TASK_WAKING or TASK_NEW. `signal_pending_state()` and
  PF_FROZEN are event parameters, and so are the picks of the scheduling classes, the CPUs chosen by
  `select_task_rq()`, and the outcomes of permission and bandwidth checks.
- Class code that moves tasks between runqueues is assumed to take only tasks that are queued and not running, under the
  lock of their runqueue.
- A child's `nvcsw` and `nivcsw` start at 0, which fork does in code that is not part of this model.
- The idle task counts as queued on its CPU. `prev_mm` stands for the runqueue's field and then for the local copy in
  `finish_task_switch()` until it is dropped; dropping it and the runqueue lock are one step.
- The waker's `nr_iowait` decrement and its store of TASK_WAKING are one step, and so are the deactivation of a sleeper
  and the increment; the counts are exact between steps.
- The iteration lists of a group's children keep their order; a group is found in its parent's list by position, where
  the source follows the list pointer.
- Group bandwidth is that of the legacy hierarchy: a limit is inherited only by a group that sets none.
- A CPU's starts and stops of the remote tick alternate and a start is over before the next stop, because CPU hotplug
  operations on one CPU do not overlap.
- `is_per_cpu_kthread()`, the `BW_SHIFT` constants and the test for RT priorities are declared in headers that are not
  part of this model; they are taken as: a kernel thread bound to one CPU, a shift of 20 with 44-bit quotas (as the
  "203 days" at `core.c:7530` says), and priorities below 100.

## Where code and comment differ

- `core.c:1002-1003` says a bucket's value is reset to its base when its last task leaves. The code leaves the value and
  overwrites it with the next task. The model follows the code.
- `uclamp_bucket_id()` has no cap. `Uclamp.BucketIdsFit` gives the exact bucket counts for which none is needed; the
  runs assume such a count, five being the default.
- `core.c:845-853` resets the clamps of an idle runqueue when a task arrives. `uclamp_update_active()` can leave the idle
  flag set on a runqueue with a task, and the next enqueue then takes that task's clamp away.
  `UclampCache.UpdateKeepsInvariant` says exactly when the flag is left, `UclampStale.UpdateThenEnqueue` exactly when a
  clamp is lost or a warning follows, and `UclampStale.LosingRun` is one run in which both happen.
- `rt_mutex_setprio()` and `__sched_setscheduler()` rely on callers to spare the stopper, idle tasks and nice values out
  of range: `Prio.Scheduler.RtMutexSetprio` and `SchedSetscheduler` say exactly when a task's class would no longer match
  its priority.
- The start system call has no return statement; its result is ignored.
- `process_switches_count` is copied by fork and not cleared, so the counter means something only from a `start` on.

## Model

| member | source | states |
|---|---|---|
| `SchedCounters.StopCountsSwitches` | hw3/question_2/my_call/core.c:4144-4219 | For every run between a task's `start` and its next `stop`, on any CPUs: the value returned equals, modulo 2^32, how often the task was switched in, how often it was switched out, and the growth of its `nvcsw + nivcsw`. |
| `SchedCounters.RunTally` | hw3/question_2/my_call/core.c:4187-4219 | Over every run, a task's three counters move exactly by the switches an observer of `rq->curr` sees, wrapping included: `nvcsw` by those at which it called schedule() in another state than TASK_RUNNING, `nivcsw` by the others, preemptions among them; switch-ins minus switch-outs is the change of "is running". |
| `SchedCounters.StepTally` | hw3/question_2/my_call/core.c:4191-4219 | The same for one step of any kind. |
| `SchedCounters.OnlyScheduleSwitches` | hw3/question_2/my_call/core.c:4191-4212 | Every other step leaves all current tasks and all switch counters of runqueues and tasks alone. |
| `SchedCounters.SwitchesGrowTogether` | hw3/question_2/my_call/core.c:3499-3508 | Over every run, forks included, `nr_context_switches()` grows by the total growth of `nvcsw + nivcsw` over all tasks, modulo 2^64. |
| `SchedCounters.SwitchesAddUp` | hw3/question_2/my_call/core.c:4194-4212 | The difference of the two totals, modulo 2^64, is an invariant of every run. |
| `SchedCounters.SameCountMeansUnscheduled` | hw3/question_2/my_call/core.c:1863-1964 | Two looks of `wait_task_inactive()` that return the same non-zero value: the task was not switched in between, unless its voluntary switches in between are a non-zero multiple of 2^63. |
| `SchedCounters.LeavesVoluntarily` | hw3/question_2/my_call/core.c:4144-4185 | A task that was switched in and is off its runqueue at the end of a run gave way voluntarily at least once. |
| `SchedCounters.SleepIsVoluntary` | hw3/question_2/my_call/core.c:4153-4185 | A step after which a task is off its runqueue is a voluntary switch away from it, or found it off already and did not switch to it. |
| `SchedCounters.LookIs` | hw3/question_2/my_call/core.c:1912-1961 | A look of `wait_task_inactive()` answers 0 exactly if a state was given that is not the task's, has to wait exactly if there is no such mismatch and the task is on a CPU or queued, and else returns `nvcsw` with the top bit set, for a task off every runqueue. |
| `SchedCore.Scheduler.LookInactive` | hw3/question_2/my_call/core.c:1912-1961 | The statements of that look, under both locks, give this answer. |
| `SchedCore.Scheduler.StartToCount` | hw3/question_2/my_call/start_to_count_number_of_process_switches.c:9-13 | Sets the counter of the caller to 0 and changes nothing else. |
| `SchedCore.Scheduler.StopToCount` | hw3/question_2/my_call/stop_to_count_number_of_process_switches.c:9-13 | Returns, for every run since the caller's counter was last zero while it ran, on this or another CPU, how often the caller was switched in, which is how often it was switched out and the growth of its `nvcsw + nivcsw`, modulo 2^32. |
| `SchedInvariant.ReachableInv` | hw3/question_2/my_call/core.c:2512-2675 | In every state reachable from boot, all task and CPU records agree: where a task is queued, listed, claimed or carried, who holds which lock, and what each CPU is in the middle of. |
| `SchedInvariant.StepInv` | hw3/question_2/my_call/core.c:2512-2675 | Every step of every kind keeps that agreement. |
| `SchedInvariant.ScheduleInv` | hw3/question_2/my_call/core.c:4101-4221 | The locked section of `__schedule()` with any allowed pick keeps it. |
| `SchedInvariant.FinishTaskInv` | hw3/question_2/my_call/core.c:3155-3170 | Clearing `prev->on_cpu` keeps it. |
| `SchedInvariant.TtwuLockedInv` | hw3/question_2/my_call/core.c:2251-2267 | `ttwu_remote()` on a runqueue read before it was locked keeps it, retry included. |
| `SchedInvariant.TtwuClaimInv` | hw3/question_2/my_call/core.c:2583-2620 | The waker's `nr_iowait` decrement and TASK_WAKING store keep it. |
| `SchedInvariant.PushWakelistInv` | hw3/question_2/my_call/core.c:2319-2391 | Putting a claimed task on a remote wakelist, whether its `on_cpu` is still set or not, keeps it. |
| `SchedInvariant.TtwuSelectInv` | hw3/question_2/my_call/core.c:2656-2661 | A new CPU for the claimed task keeps it. |
| `SchedInvariant.TtwuQueueInv` | hw3/question_2/my_call/core.c:2394-2408 | Activating the claimed task under the lock of its runqueue keeps it. |
| `SchedInvariant.DrainInv` | hw3/question_2/my_call/core.c:2270-2301 | Draining a wakelist entry keeps it. |
| `SchedInvariant.StopperDetachInv` | hw3/question_2/my_call/core.c:1519-1556 | The first half of a migration from the stopper keeps it. |
| `SchedInvariant.AttachInv` | hw3/question_2/my_call/core.c:1476-1484 | The second half keeps it. |
| `SchedInvariant.SwapInv` | hw3/question_2/my_call/core.c:1742-1816 | `migrate_swap_stop()` keeps it, whether it swaps or finds a task gone. |
| `SchedInvariant.LockedDetachInv` | hw3/question_2/my_call/core.c:1670-1676 | `move_queued_task()` called under `task_rq_lock()` keeps it. |
| `SchedInvariant.NewQueueInv` | hw3/question_2/my_call/core.c:3016-3055 | The last step of `wake_up_new_task()` keeps it. |
| `SchedSafety.CurrentOnce` | hw3/question_2/my_call/core.c:4191-4221 | A task is current on at most one CPU, which is its `cpu`, and is queued there with `on_cpu` set. |
| `SchedSafety.PlacedOnce` | hw3/question_2/my_call/core.c:1466-1485 | A task is in at most one runqueue or wakelist, once, and QUEUED exactly when it is in the runqueue of its `cpu`. |
| `SchedSafety.PickIsOffCpu` | hw3/question_2/my_call/core.c:3144-3170 | A task that `__schedule()` switches to is current nowhere, and no CPU is still switching away from it. |
| `SchedSafety.DrainNeverWarns` | hw3/question_2/my_call/core.c:2270-2301 | No entry of a wakelist that is drained has `on_cpu` set or another CPU: neither warning can fire. |
| `SchedSafety.ProtocolNeverWarns` | hw3/question_2/my_call/core.c:2394-2408 | A waker that saw `on_cpu` is never on that CPU, a mover finds the task where it put it, a task about to be activated is off every runqueue. |
| `SchedSafety.LockedIsOwn` | hw3/question_2/my_call/core.c:105-142 | When `task_rq_lock()` returns, the locked runqueue is the task's own, the task is not migrating, and it is queued exactly if it is in that runqueue. |
| `SchedSafety.TaskRqLockHolds` | hw3/question_2/my_call/core.c:105-142 | In every interleaving, until that CPU drops the locks, no step changes the task's `cpu`, `on_rq` or `on_cpu`, and both locks stay held. |
| `SchedSafety.StepStable` | hw3/question_2/my_call/core.c:81-142 | The same for one step of any kind by any CPU. |
| `SchedWakeup.NoLostWakeup` | hw3/question_2/my_call/sched.h:151-192 | In every interleaving of sleepers and wakers: once the condition is cleared and every waker that cleared it has returned, a task in the documented wait loop is queued, migrating with a live mover, on a wakelist, or carried by a live waker. |
| `SchedWakeup.StepWaitInv` | hw3/question_2/my_call/core.c:2512-2675 | What every step keeps for it: a task past its test, asleep against a cleared condition, has a waker still at work on it. |
| `SchedWakeup.ScheduleLoop` | hw3/question_2/my_call/core.c:4153-4185 | `__schedule()` keeps it, preemption between setting the state and sleeping included. |
| `SchedEffects.LoopMeans` | hw3/question_2/my_call/sched.h:151-192 | What each step of the loop stores, and that its test is of the condition. |
| `SchedLoad.CountsAlwaysExact` | hw3/question_2/my_call/core.c:2226-2243 | In every reachable state the sum of `nr_uninterruptible` over CPUs is, modulo 2^64, the number of sleeping or claimed tasks marked as contributing; each `nr_iowait` is the number of io-waiting sleepers last placed there that no waker has claimed. |
| `SchedSleepers.LoadCountsSleepers` | hw3/question_2/my_call/core.c:4157-4160 | After every run from boot the sum of `nr_uninterruptible` is, modulo 2^64, the number of tasks asleep or claimed that, when they last went to sleep, were in TASK_UNINTERRUPTIBLE without TASK_NOLOAD and not frozen. |
| `SchedSleepers.IowaitCountsSleepers` | hw3/question_2/my_call/core.c:2583-2586 | And the `nr_iowait` of each CPU is the number of unclaimed io-waiting sleepers last placed there. |
| `SchedLoad.ScheduleExact` | hw3/question_2/my_call/core.c:4158-4182 | Going to sleep keeps both counts exact. |
| `SchedLoad.ClaimExact` | hw3/question_2/my_call/core.c:2583-2586 | The waker's decrement keeps both counts exact. |
| `SchedLoad.DrainExact` | hw3/question_2/my_call/core.c:2226-2243 | Activation on another CPU than the one that counted the sleeper keeps both counts exact. |
| `SchedMm.LazyRefsExact` | hw3/question_2/my_call/core.c:3406-3462 | In every reachable state the lazy references to an mm are the CPUs whose current task is a kernel thread borrowing it plus those with it in `prev_mm`; kernel threads off every CPU hold none; each CPU has its current task's `active_mm` loaded. |
| `SchedMm.SwitchInMm` | hw3/question_2/my_call/core.c:3406-3462 | `context_switch()` keeps the accounting in all four cases of user and kernel tasks. |
| `SchedMm.FinishLockMm` | hw3/question_2/my_call/core.c:3296-3317 | The deferred `mmdrop()` keeps the accounting. |
| `SchedCore.Scheduler.constructor` | hw3/question_2/my_call/core.c:6169-6230 | Boot: one idle task per CPU, running. |
| `SchedCore.Scheduler.Schedule` | hw3/question_2/my_call/core.c:4139-4221 | The locked section of `__schedule()` in place is the schedule step, and does to the fields of both tasks and of the runqueue what ScheduleMeans says. |
| `SchedEffects.ScheduleMeans` | hw3/question_2/my_call/core.c:4139-4221 | The previous task leaves its runqueue exactly if it is not preempted, not runnable and has no signal pending; it then counts for the load exactly in an uninterruptible sleep that is not TASK_NOLOAD nor frozen; its switch goes to `nvcsw` exactly if it was not preempted and not runnable, else to `nivcsw`; the next task is counted and on the CPU; nothing else changes but the address spaces. |
| `SchedEffects.CanScheduleMeans` | hw3/question_2/my_call/core.c:4153-4187 | When the section can run with which next task: any of the runqueue but the one going to sleep, with the lock free; a signal matters only in an interruptible or killable sleep. |
| `SchedEffects.FinishMeans` | hw3/question_2/my_call/core.c:3155-3170 | `finish_task()` clears `on_cpu` of the previous task and nothing else, and then the lock can be dropped. |
| `SchedCore.Scheduler.DrainEntry` | hw3/question_2/my_call/core.c:2290-2298 | One round of the drain loop in place, and exactly when its two warnings fire. |
| `SchedCore.Scheduler.SchedTtwuPending` | hw3/question_2/my_call/core.c:2270-2301 | From a state that satisfies the invariant the whole wakelist is drained in list order, the list ends empty, every task of it is runnable in the runqueue of this CPU, and no warning fires. |
| `SchedEffects.DrainMeans` | hw3/question_2/my_call/core.c:2290-2298 | One entry: the first task of the list becomes TASK_RUNNING, QUEUED and a member of this CPU's runqueue, and no other task changes. |
| `SchedCore.Scheduler.DequeueForMove` | hw3/question_2/my_call/core.c:1466-1475 | The first half of `move_queued_task()` in place is the detach step: out of the old runqueue, `cpu` is the CPU asked for, and the mover carries the task there. |
| `SchedCore.Scheduler.EnqueueMoved` | hw3/question_2/my_call/core.c:1476-1484 | The second half in place is the attach step, and its BUG_ON is not hit. |
| `SchedCore.Scheduler.MigrationCpuStop` | hw3/question_2/my_call/core.c:1519-1556 | Both halves, for a task still queued on the stopper's CPU: it ends queued on the CPU asked for and on no other, the BUG_ON is not hit, and no other task changes. |
| `SchedMigrate.MigrationArrives` | hw3/question_2/my_call/core.c:1466-1485 | A migration by the stopper, a scheduling class or under `task_rq_lock()`, with any steps of other CPUs in between, ends with the task queued on the CPU it was begun for and on no other. |
| `SchedMigrate.CarriedStays` | hw3/question_2/my_call/core.c:1466-1485 | In every interleaving, until its mover attaches it, a task in migration is on no runqueue and no CPU, marked MIGRATING, with the new CPU already stored. |
| `SchedEffects.LockedDetachMeans` | hw3/question_2/my_call/core.c:1670-1676 | `move_queued_task()` called under `task_rq_lock()` sends the task to the CPU asked for and drops the runqueue lock. |
| `SchedEffects.SwapMeans` | hw3/question_2/my_call/core.c:1742-1816 | Two queued tasks found in their places, with masks that admit it, end on each other's CPU; otherwise nothing changes. |
| `SchedEffects.CanLockedDetachMeans` | hw3/question_2/my_call/core.c:1670-1676 | And when `move_queued_task()` can be called under `task_rq_lock()`. |
| `SchedEffects.CanMoveMeans` | hw3/question_2/my_call/core.c:1519-1556 | When the stopper and when a scheduling class can take a task off its runqueue. |
| `SchedCore.Scheduler.TaskRqLockRound` | hw3/question_2/my_call/core.c:105-142 | A round of `task_rq_lock()` with the runqueue unlocked returns with both locks exactly if the task is not migrating, and else leaves everything as it was. |
| `SchedMigrate.LockRound` | hw3/question_2/my_call/core.c:105-142 | The same of the two steps of the protocol, with no other CPU in between. |
| `SchedEffects.LockCheckMeans` | hw3/question_2/my_call/core.c:111-138 | Looking again under the lock, in any state: both locks are kept exactly if the runqueue read before is still the task's own and the task is not migrating, and else both are dropped. |
| `SchedCore.Scheduler.TryToWakeUp` | hw3/question_2/my_call/core.c:2512-2675 | `try_to_wake_up()` in place, up to its end or to where it waits for another CPU: no match and nothing changed exactly when the state has no bit of the mask; else what TryAchieves says; and a waiting can end, with the task awake, by steps that begin nothing new. |
| `SchedTtwu.TryAchieves` | hw3/question_2/my_call/core.c:2512-2675 | The whole answer of a call with no other CPU in between: nothing happens exactly if the state has no bit of the mask; a task still queued becomes runnable where it is, under that runqueue's lock; a task off every CPU goes to the one `select_task_rq()` named, one that its CPU has not let go of to that CPU's wakelist if that is allowed; and exactly when the call has to wait instead. No other task changes. |
| `SchedEffects.MatchesMeans` | hw3/question_2/my_call/core.c:2549-2550 | A state matches a mask exactly if they have a bit in common. |
| `SchedEffects.TtwuBeginMeans` | hw3/question_2/my_call/core.c:2546-2555 | A wakeup takes `p->pi_lock` and goes on exactly for such a state, and otherwise changes nothing. |
| `SchedEffects.CanWakeMeans` | hw3/question_2/my_call/core.c:2546-2555 | When a wakeup can begin and when a wakelist can be drained. |
| `SchedEffects.NewTaskMeans` | hw3/question_2/my_call/core.c:3016-3055 | `wake_up_new_task()` leaves the child runnable in the runqueue of the CPU chosen for it. |
| `SchedEffects.ForkMeans` | hw3/question_2/my_call/core.c:2911-2962 | A child starts in TASK_NEW with `nvcsw` and `nivcsw` at 0 and with its parent's `process_switches_count`. |
| `SchedProgress.NobodyIsStuck` | hw3/question_2/my_call/core.c:2583-2675 | From every reachable state there is a run in which CPUs only go on with the sections they are in and which ends with every CPU out of its section: runqueue locks, pi_locks, `on_cpu` and migrations never make a circle of waiters. At its end every task whose wakeup was under way is awake. |
| `SchedProgress.SectionGoesOn` | hw3/question_2/my_call/core.c:105-142 | A CPU with no lock holder and no carried task in its way can make its next step, whatever its section and phase, and comes nearer to the end of it; a stale runqueue costs one more round. |
| `SchedProgress.SpinEnds` | hw3/question_2/my_call/core.c:2644-2654 | A waker that waits for `on_cpu` waits for a CPU that is in `__schedule()` with the task as `prev`: with all lock holders out, `on_cpu` is clear. |
| `SchedProgress.SettledIsQuiet` | hw3/question_2/my_call/core.c:1466-1485 | Once all are out, no lock is held, no task is migrating or claimed by a waker, `on_cpu` is set exactly for current tasks, and a waking task is on its CPU's wakelist. |
| `SchedProgress.TryCompletes` | hw3/question_2/my_call/core.c:2512-2675 | A call that matches can always be completed, with the task awake. |
| `SchedTtwu.TryRuns` | hw3/question_2/my_call/core.c:2512-2675 | Such a call is a run of the protocol, so the theorems about runs hold of it. |
| `Uclamp.BucketIdsFit` | hw3/question_2/my_call/core.c:798-806 | `uclamp_bucket_id()` names one of n buckets for every clamp value if and only if n buckets of the rounded width reach past SCHED_CAPACITY_SCALE. |
| `Uclamp.BucketCounts` | hw3/question_2/my_call/core.c:797-806 | Five buckets satisfy that; with twenty, the value 1024 gets the bucket number 20. |
| `Uclamp.EffGetRespects` | hw3/question_2/my_call/core.c:876-919 | The effective clamp is within the system default and the group's clamp, and is one of the three values. |
| `Uclamp.EffGetIsMinimum` | hw3/question_2/my_call/core.c:876-919 | Which of the three it is: the request if it was made from user space and both restrictions allow it, else the group's clamp if the default allows that, else the default. |
| `Uclamp.RunQueue.constructor` | hw3/question_2/my_call/core.c:1248-1252 | A cleared runqueue. |
| `Uclamp.RunQueue.IncIdInPlace` | hw3/question_2/my_call/core.c:944-971 | The statements of `uclamp_rq_inc_id()` on the bucket array compute the counted clamp: count, bucket maximum, runqueue maximum, idle reset. |
| `Uclamp.RunQueue.FindMax` | hw3/question_2/my_call/core.c:855-874 | The loop from the top bucket down returns the value of the top bucket in use, or the idle value, and sets the idle flag only for the maximum clamp. |
| `Uclamp.RunQueue.DecIdInPlace` | hw3/question_2/my_call/core.c:982-1018 | The statements of `uclamp_rq_dec_id()` compute the uncounted clamp, and exactly when its two warnings fire. |
| `Uclamp.RunQueue.IncInPlace` | hw3/question_2/my_call/core.c:1020-1033 | Both clamp ids, then the idle flag cleared; nothing for a class without clamps. |
| `Uclamp.RunQueue.DecInPlace` | hw3/question_2/my_call/core.c:1035-1044 | Both clamp ids; nothing for a class without clamps. |
| `UclampRuns.CountsAlwaysExact` | hw3/question_2/my_call/core.c:921-1074 | Over every run of enqueues, dequeues, forks, requests and updates of active tasks from `init_uclamp()`: every bucket counts exactly the active tasks in it, holds a value of its own range, and no task in it is above that; so no dequeue or update ever finds its task's bucket empty. |
| `UclampRuns.IncIdSound` | hw3/question_2/my_call/core.c:944-971 | Counting a task keeps the counts and bucket values right, with the idle flag right or wrong. |
| `UclampRuns.DecIdSound` | hw3/question_2/my_call/core.c:982-1018 | So does uncounting one. |
| `UclampRuns.ForkSound` | hw3/question_2/my_call/core.c:1224-1238 | A fork, with or without reset, keeps them right on all runqueues. |
| `UclampRuns.ChildMeans` | hw3/question_2/my_call/core.c:1224-1238 | A child keeps its parent's requests if the reset flag is clear, and else asks for 0 and 1024; it is counted nowhere. |
| `UclampRuns.InitSound` | hw3/question_2/my_call/core.c:1240-1268 | They are right in the state of `init_uclamp()`. |
| `UclampCache.ClampTracksTasks` | hw3/question_2/my_call/core.c:855-1074 | Over every run, updates included, in which no maximum clamp is updated of a task alone on its runqueue: with a task active the cached clamp is the maximum over buckets in use, at least every active clamp and less than one bucket width above the largest; an empty runqueue's minimum clamp is 0. |
| `UclampCache.CalmRunNeverWarns` | hw3/question_2/my_call/core.c:999-1013 | In no run without such an update does a dequeue of a counted task hit a warning. |
| `UclampCache.UpdateKeepsInvariant` | hw3/question_2/my_call/core.c:1046-1074 | `uclamp_update_active()` keeps counts and cached values right and never warns itself, but keeps the whole invariant if and only if it does not update the maximum clamp of a task alone on its runqueue, since then the idle flag stays set. |
| `UclampCache.LastTaskLeaves` | hw3/question_2/my_call/core.c:828-843 | The last task to leave a runqueue leaves it idle with that task's maximum clamp and a minimum clamp of 0. |
| `UclampStale.UpdateThenEnqueue` | hw3/question_2/my_call/core.c:845-853 | After an update of an active task and the enqueue of another on its runqueue, for either clamp: the cached clamp is below that of the first task if and only if the update was of its maximum clamp, it was alone, and the second task asks for less; a dequeue of the first task would then hit a warning if and only if the second one's bucket is a lower one. |
| `UclampStale.StrandedJoin` | hw3/question_2/my_call/core.c:845-853 | A task that joins a runqueue whose idle flag was left set replaces the cached clamp by its own. |
| `UclampStale.LosingRun` | hw3/question_2/my_call/core.c:1046-1074 | A run of five operations from `init_uclamp()`, with five buckets, that ends with a cached maximum of 100 and an active task whose maximum clamp is 1024 and whose dequeue would warn. |
| `GroupTree.WalkTgTreeFrom` | hw3/question_2/my_call/core.c:712-741 | The goto traversal terminates and makes exactly the calls of the recursive definition, stopping at and returning the first non-zero result. |
| `GroupTree.EachOnce` | hw3/question_2/my_call/core.c:712-741 | A walk calls `down` and `up` once each on every group of the subtree and on no other. |
| `GroupTree.DownFirstUpLast` | hw3/question_2/my_call/core.c:706-741 | `down` on a group comes before, `up` after, all calls on groups below it. |
| `GroupTree.RestGoesOn` | hw3/question_2/my_call/core.c:724-730 | Standing at a position of a group's list, what the walk still does is all of the child there and then what follows the child; past the end it is `up` on the group and then what follows the group. |
| `GroupTree.LeaveStep` | hw3/question_2/my_call/core.c:731-738 | After `up` on a group the walk is over if the group is its start, and is otherwise at the position after the group in its parent's list. |
| `GroupTree.CallsParentsFirst` | hw3/question_2/my_call/core.c:712-741 | No group is entered before its parent. |
| `CfsBandwidth.ScheduledMeans` | hw3/question_2/my_call/core.c:7721-7773 | The admission walk returns 0 if and only if no limited group exceeds its nearest limited ancestor, else -EINVAL; on success every group's hierarchical quota is its own ratio if limited, else its nearest limited ancestor's, else unlimited. |
| `CfsBandwidth.FeasibleMeans` | hw3/question_2/my_call/core.c:7721-7752 | The settings are feasible if and only if no limited group has a larger ratio than any limited group above it. |
| `CfsBandwidth.InForceMeans` | hw3/question_2/my_call/core.c:7721-7752 | The limit in force on a group is that of the nearest group above it, or its own, that sets one; the root sets none. |
| `CfsBandwidth.InBoundsMeans` | hw3/question_2/my_call/core.c:7548-7563 | The bounds in figures: a period of 1 ms to 1 s, a quota of at least 1 ms and, if limited, of at most 2^44 - 1 microseconds. |
| `CfsBandwidth.StaleValuesDoNotMatter` | hw3/question_2/my_call/core.c:7721-7752 | Result, and on success all hierarchical quotas, do not depend on what earlier walks left behind. |
| `CfsBandwidth.VisitSettles` | hw3/question_2/my_call/core.c:7721-7752 | One call fails exactly if the group does not fit, and otherwise settles it. |
| `CfsBandwidth.ProposalIsSetting` | hw3/question_2/my_call/core.c:7754-7773 | Testing a proposal is testing the settings as they would be after it is stored, units included. |
| `CfsBandwidth.RatioFits` | hw3/question_2/my_call/core.c:2993-3007 | Within the bounds the shift fits 64 bits, the quotient fits a signed word and the ratio is exact. |
| `CfsBandwidth.ShiftFits` | hw3/question_2/my_call/core.c:7528-7531 | A number of microseconds shifts without loss if and only if it is at most MAX_BW. |
| `CfsBandwidth.RatioMonotone` | hw3/question_2/my_call/core.c:2993-3007 | The ratio grows with the quota and shrinks with the period. |
| `CfsBandwidth.WalkRatiosExact` | hw3/question_2/my_call/core.c:7701-7719 | In a walk over legal settings with a legal proposal, the limit computed for every group is its exact ratio, and none is mistaken for unlimited. |
| `CfsBandwidth.Groups.CfsSchedulable` | hw3/question_2/my_call/core.c:7754-7773 | The method in place runs that walk. |
| `CfsBandwidth.Groups.SetBandwidth` | hw3/question_2/my_call/core.c:7535-7615 | Accepts a setting if and only if it is not for the root, within bounds and feasible; then stores it and leaves every hierarchical quota in force; otherwise the settings are unchanged. All settings stay legal and feasible over every history. |
| `CfsBandwidth.Groups.SetQuota` | hw3/question_2/my_call/core.c:7617-7630 | The same for a quota in microseconds, negative meaning none, with its overflow check. |
| `CfsBandwidth.Groups.SetPeriod` | hw3/question_2/my_call/core.c:7645-7656 | The same for a period in microseconds. |
| `EffClamps.Groups.UpdateEff` | hw3/question_2/my_call/core.c:7337-7380 | The walk that skips subtrees leaves every group with the clamps of the full recomputation and their bucket ids, given consistency except for the top group's request; changes nothing outside the subtree; and updates the tasks of exactly the groups that changed, once, with the right mask. |
| `EffClamps.FullIsPathMinimum` | hw3/question_2/my_call/core.c:7347-7360 | The effective maximum is the smallest maximum requested on the path to the root, the effective minimum the smallest request of either kind. |
| `EffClamps.FullIsCapped` | hw3/question_2/my_call/core.c:7347-7360 | Effective minimum at most effective maximum, and both at most the parent's. |
| `EffClamps.ConsistentIsFull` | hw3/question_2/my_call/core.c:7346-7379 | Local consistency with the parent means equality with the full recomputation. |
| `EffClamps.SkippedFrontier` | hw3/question_2/my_call/core.c:7372-7375 | Below a group that does not change, nothing is inconsistent. |
| `EffClamps.RightmostSkips` | hw3/question_2/my_call/core.c:7372-7375 | Going on from the rightmost descendant skips exactly the subtree. |
| `EffClamps.Groups.Write` | hw3/question_2/my_call/core.c:7425-7456 | A write of requests keeps every group at the full recomputation and notifies exactly the changed groups. |
| `EffClamps.Groups.Create` | hw3/question_2/my_call/core.c:7068-7080 | A new group, copied from its parent and put on line, restricts nothing: its effective clamps are 0 and its parent's maximum; every group is at the full recomputation and no other changes. |
| `CpuDeath.SelectFallbackRq` | hw3/question_2/my_call/core.c:2013-2080 | Terminates without reaching BUG, with the first allowed active CPU of the node, or the first CPU allowed under the narrowest of the three masks that leaves one. |
| `CpuDeath.FallbackIsAllowed` | hw3/question_2/my_call/core.c:1436-1445 | The CPU chosen is online and allowed for the task, and the mask is kept if any CPU was allowed under it. |
| `CpuDeath.FallbackMeans` | hw3/question_2/my_call/core.c:2013-2080 | Which mask: the task's own if that leaves a CPU, else its cpuset's if that does, else all possible CPUs; which CPU: the first active one of the node that the mask names, else the first allowed one. |
| `CpuDeath.IsCpuAllowedMeans` | hw3/question_2/my_call/core.c:1436-1445 | A CPU of the mask that is active, or for a kernel thread bound to that one CPU online. |
| `CpuDeath.Machine.MigrateTask` | hw3/question_2/my_call/core.c:1501-1512 | Moves the task to the CPU if it is allowed there, and does nothing otherwise; queues stay in step with tasks. |
| `CpuDeath.Machine.PickMigrateTask` | hw3/question_2/my_call/core.c:6360-6376 | Picks `rq->stop` while it is set and queued, and some other queued task once it is cleared. |
| `CpuDeath.Machine.RescueTask` | hw3/question_2/my_call/core.c:6420-6452 | One round: the task leaves the dead CPU for the fallback CPU, no warning. |
| `CpuDeath.Machine.MigrateTasks` | hw3/question_2/my_call/core.c:6385-6456 | The loop terminates with only the stopper left, every other task rescued as `select_fallback_rq()` says, no other task touched, no warning, and `rq->stop` restored. |
| `CpuDeath.EveryoneRescued` | hw3/question_2/my_call/core.c:6385-6456 | Afterwards each of these tasks is in exactly one queue, of an online CPU other than the dead one that is allowed for it. |
| `WakeQ.WokenInOrder` | hw3/question_2/my_call/core.c:416-501 | In every interleaving of any number of contexts: what `wake_up_q()` has woken is what was added, in that order, up to what is still listed; when its loop ends, all of it. |
| `WakeQ.StepRel` | hw3/question_2/my_call/core.c:416-501 | Every operation on the linked nodes, the heads and the reference counts keeps them in step with plain queues and held references. |
| `WakeQ.LinkedMeansQueued` | hw3/question_2/my_call/core.c:416-501 | A node is linked exactly while its task is on one list, once; references are those held plus one for the list. |
| `WakeQ.LinkRel` | hw3/question_2/my_call/core.c:416-438 | Storing through `lastp` appends to its own queue and touches no other. |
| `WakeQ.WakeRel` | hw3/question_2/my_call/core.c:485-500 | One round of the loop takes the first task off, unlinks it and drops the list's reference. |
| `WakeQ.WakeQueues.TryAdd` | hw3/question_2/my_call/core.c:416-438 | Links the node if it was not linked, else changes nothing, and says which. |
| `WakeQ.WakeQueues.WakeQAdd` | hw3/question_2/my_call/core.c:452-456 | Adds and takes a reference if it was added. |
| `WakeQ.WakeQueues.WakeQAddSafe` | hw3/question_2/my_call/core.c:475-479 | Adds and hands the caller's reference over, or drops it. |
| `WakeQ.WakeQueues.WakeUpQ` | hw3/question_2/my_call/core.c:481-501 | Left alone, terminates having woken the queue in order, with the list's nodes unlinked and its references gone. |
| `Prio.Scheduler.RtMutexSetprio` | hw3/question_2/my_call/core.c:4523-4639 | The task ends at its normal priority or its donor's, whichever is higher, in the class of that; the queue and the running mark of its class, old and new, follow; nobody else is touched. Class and priority agree afterwards if and only if the task is not a stopper whose priority changes or is a deadline task's. |
| `Prio.BoostUndone` | hw3/question_2/my_call/core.c:4523-4639 | After any boost, the same call without a donor gives back the task as it was unboosted; while boosted it runs at least as high as the donor and as its own priority. |
| `Prio.Scheduler.SetUserNice` | hw3/question_2/my_call/core.c:4647-4698 | The new nice value takes effect for ordinary policies and leaves an RT boost; queue and mark are kept. |
| `Prio.Scheduler.SchedSetscheduler` | hw3/question_2/my_call/core.c:4902-5167 | Which error is returned when; without error the new parameters, the class of the new priority, and a boost kept if asked; queue and mark are kept. Class and priorities agree afterwards if and only if parameters were not set on an idle task nor with a nice value out of range for an ordinary policy. |
| `Prio.Scheduler.SchedFork` | hw3/question_2/my_call/core.c:2911-2956 | The child's class goes with its priority; a deadline child is refused with -EAGAIN. |
| `Prio.Scheduler.Change` | hw3/question_2/my_call/core.c:4584-4631 | The dequeue/put and enqueue/set bracket: a task queued or running stays so, in its new class and no other. |
| `Prio.ForkDropsBoost` | hw3/question_2/my_call/core.c:2911-2956 | A child starts at its normal priority whatever its parent's boost, and is refused if and only if the parent is a deadline task without reset-on-fork. |
| `Prio.WithParamsOk` | hw3/question_2/my_call/core.c:4832-4884 | New parameters leave priority, normal priority and class in agreement if and only if they fit the task, with a kept boost at least as high as the donor. |
| `Prio.PriorityOrder` | hw3/question_2/my_call/core.c:1329-1352 | Deadline tasks are at -1, above all real-time tasks, whose priority is 99 minus `rt_priority`, above all others, at their static priority; a higher `rt_priority` is a higher priority. |
| `Prio.NiceOrder` | hw3/question_2/my_call/core.c:1329-1352 | A lower nice value is a higher priority; -20 is 100 and 19 is 139. |
| `Prio.SetsAsAsked` | hw3/question_2/my_call/core.c:4832-4884 | Setting parameters sets policy, nice value and priority as asked, keeps what was not asked, and leaves the task at its new normal priority or its donor's, the higher one. |
| `Prio.ShortcutChangesNothing` | hw3/question_2/my_call/core.c:5037-5050 | The return before the change is taken if and only if setting the parameters would set none of them anew. |
| `Prio.ArgsOkMeans` | hw3/question_2/my_call/core.c:4919-4943 | Which arguments are accepted: a known policy, with a priority from 1 to 99 for a real-time one and 0 for any other. |
| `Prio.RenicedMeans` | hw3/question_2/my_call/core.c:4647-4698 | What a nice value in range does to all four priorities, and that any other does nothing. |
| `Prio.ForkMeans` | hw3/question_2/my_call/core.c:2917-2949 | A child's policy and priorities, with and without reset-on-fork. |
| `Prio.ClassFollowsPolicy` | hw3/question_2/my_call/core.c:1341-1372 | An unboosted task is in the class of its policy, and a boost never moves a task to a lower class. |
| `TickWork.OneItem` | hw3/question_2/my_call/core.c:3706-3832 | In every interleaving of alternating starts and stops with the workers: one work item while RUNNING or OFFLINING, none while OFFLINE, and no warning fires. |
| `TickWork.RunInv` | hw3/question_2/my_call/core.c:3706-3832 | The invariant behind it over every run. |
| `TickWork.Work.TickStart` | hw3/question_2/my_call/core.c:3796-3814 | The exchange in `sched_tick_start()`, whether it queues the item, and when it warns. |
| `TickWork.Work.TickStop` | hw3/question_2/my_call/core.c:3817-3832 | The exchange in `sched_tick_stop()`, and when it warns. |
| `TickWork.Work.TickLook` | hw3/question_2/my_call/core.c:3785-3794 | The end of `sched_tick_remote()`: the new state, whether it requeues, and when it warns. |

## Left out

- Weak memory: barriers and reordering; steps are sequentially consistent.
- The increment of `nr_iowait` after the task is already off its runqueue: a waker may see it late; the model's section is one step.
- SchedCore.Scheduler.TaskRqLockRound: one round of `task_rq_lock()`; its retry loop ends only if the other CPUs let it.
- SchedCore.Scheduler.TryToWakeUp: returns where the source spins for another CPU, whose steps the method does not make; its contract says that the waiting can end, not that every schedule of the CPUs ends it.
- SchedProgress.NobodyIsStuck: says that a run to the end exists, not that a fair scheduler of steps reaches it.
- TTWU statistics, `wake_cpu`, the decision whether CPUs share a cache, and wakeups through `wake_list` interrupts.
- Scheduling class bodies, PELT, load weights, preemption decisions and balance callbacks.
- The rt-mutex chain walk and the deadline fields; a priority donor is a task with a priority.
- Exit and exec changes of an address space, and reference counts of an mm other than the lazy ones.
- CPU hotplug around the emptying of a runqueue, and the stop-machine bodies that call `migrate_swap_stop()` and `migration_cpu_stop()`.
- Bounds of bucket counts: a bucket's 53-bit task count is a natural number.
- Removal of task groups, cgroup file parsing, percentages and the sysctl handlers.
- The cgroup2 branch of `tg_cfs_schedulable_down()`: it takes a signed minimum with "unlimited" read as -1, which is not a minimum over ancestors.
- The timer, throttling and refill that follow an accepted bandwidth setting.
- SchedCounters.StopCountsSwitches: only for windows opened by `start`, because a child inherits its parent's count.
- SchedWakeup.NoLostWakeup: for the uninterruptible form of the wait loop; signals that end other sleeps are an event parameter of `__schedule()` only.
- hw1, hw2 and question 1 of hw3: wrappers around kernel headers that are not shown, and test programs.
