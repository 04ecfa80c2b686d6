/**
 * The state of the scheduler and its atomic steps, for any number of CPUs and tasks.
 *
 * Steps are sequentially consistent.  A section that runs under a runqueue lock is one step, except
 * where the source itself lets others look in between: the switch publishes `rq->curr` in one step and
 * clears `prev->on_cpu` in another while still holding the lock, try_to_wake_up() advances load by load,
 * a migration is a detach and an attach, and task_rq_lock() reads the runqueue before it locks it.
 */
module SchedState {
  import opened Wrappers

  type Tid = nat
  type Cpu = nat
  type Mm = nat

  /** The bits a sleeping task may put in its state word; wake masks are made of the same bits. */
  datatype SleepBit = INTERRUPTIBLE | UNINTERRUPTIBLE | STOPPED | TRACED | PARKED | DEAD | WAKEKILL | NOLOAD

  /**
   * The values stored in task_struct::state.  TASK_WAKING and TASK_NEW are only ever stored alone.
   * The flag of Waking is bookkeeping: the waker still carries the task, or has left it on a wakelist.
   */
  datatype TaskState = Running | Sleeping(bits: set<SleepBit>) | Waking(carried: bool) | New

  /** task_struct::on_rq; `mover` is the CPU that carries the task between its two runqueues. */
  datatype OnRq = Off | Queued | Migrating(mover: Cpu)

  /** Where a task stands in the documented wait loop (sched.h:156-163). */
  datatype WaitPc = Outside | StateSet | Tested

  datatype Task = Task(
    state: TaskState,
    onRq: OnRq,
    onCpu: bool,
    cpu: Cpu,
    piLock: Option<Cpu>,       // the CPU that holds p->pi_lock
    contributes: bool,         // sched_contributes_to_load
    inIowait: bool,
    remoteWakeup: bool,        // sched_remote_wakeup
    nvcsw: U64,
    nivcsw: U64,
    switches: U32,             // process_switches_count
    mm: Option<Mm>,
    activeMm: Option<Mm>,
    needSleep: bool,           // the condition of the wait loop
    pc: WaitPc,
    owed: nat)                 // wakers that cleared the condition and have not called wake_up_state() yet

  /** The phases of try_to_wake_up(), named after what has been read or written. */
  datatype Phase = Seen | Remote | Guess(g: Cpu) | Blocked | Claimed | SawOnCpu | Spin | OffCpu | Placed(migrated: bool)

  /** What a CPU is executing with interrupts off. */
  datatype Mode =
    | Run
    | Switching(prev: Tid)
    | Switched
    | Ttwu(p: Tid, ph: Phase, owing: bool)
    | NewPlaced(p: Tid)
    | Carrying(p: Tid, dest: Cpu, pi: bool)
    | LockGuess(p: Tid, g: Cpu)
    | LockHeld(p: Tid, g: Cpu)

  datatype Rq = Rq(
    curr: Tid,
    idle: Tid,
    stop: Tid,
    queue: set<Tid>,           // tasks enqueued here, the running one and the idle task included
    wakelist: seq<Tid>,
    lock: Option<Cpu>,         // the CPU that holds rq->lock across steps
    mode: Mode,
    nrSwitches: U64,
    nrUninterruptible: U64,
    nrIowait: int,
    prevMm: Option<Mm>,
    loadedMm: Option<Mm>)

  datatype State = State(tasks: seq<Task>, rqs: seq<Rq>, lazyRefs: map<Mm, int>)

  datatype Event =
    // __schedule(), finish_task(), finish_lock_switch()
    | Schedule(c: Cpu, preempt: bool, signal: bool, frozen: bool, next: Tid)
    | FinishTask(c: Cpu)
    | FinishLock(c: Cpu)
    // try_to_wake_up(), executed on CPU c
    | WakeSelf(c: Cpu, mask: set<SleepBit>, owing: bool)
    | TtwuBegin(c: Cpu, p: Tid, mask: set<SleepBit>, owing: bool)
    | TtwuLoadOnRq(c: Cpu)
    | TtwuReadRq(c: Cpu)
    | TtwuLocked(c: Cpu)
    | TtwuClaim(c: Cpu)
    | TtwuLoadOnCpu(c: Cpu)
    | TtwuListOnCpu(c: Cpu)
    | TtwuNoList(c: Cpu)
    | TtwuSpinDone(c: Cpu)
    | TtwuSelect(c: Cpu, dest: Cpu)
    | TtwuQueueList(c: Cpu)
    | TtwuQueue(c: Cpu)
    // sched_ttwu_pending(), one entry of the list
    | Drain(c: Cpu)
    // migration
    | StopperDetach(c: Cpu, p: Tid, dest: Cpu)
    | BalanceDetach(c: Cpu, p: Tid, dest: Cpu)
    | Attach(c: Cpu)
    | Swap(src: Cpu, dst: Cpu, p: Tid, q: Tid, allowed: bool)
    // task_rq_lock(), and move_queued_task() called with it held
    | LockRead(c: Cpu, p: Tid)
    | LockCheck(c: Cpu)
    | LockedDetach(c: Cpu, dest: Cpu)
    | LockDrop(c: Cpu)
    // fork
    | Fork(c: Cpu, mm: Option<Mm>)
    | NewPlace(c: Cpu, p: Tid, dest: Cpu)
    | NewQueue(c: Cpu)
    // what the running task does to itself
    | SetState(c: Cpu, st: TaskState)
    | SetIowait(c: Cpu, b: bool)
    | StartCount(c: Cpu)
    | StopCount(c: Cpu)
    // the wait loop and its waker
    | LoopArm(c: Cpu)
    | LoopSet(c: Cpu)
    | LoopTest(c: Cpu)
    | LoopExit(c: Cpu)
    | ClearCondition(p: Tid)

  /** The events by kind; Step and the proofs about it dispatch on them. */
  predicate SwitchEvent(e: Event) { e.Schedule? || e.FinishTask? || e.FinishLock? }
  predicate ArriveEvent(e: Event) { e.Drain? || e.Fork? || e.NewPlace? || e.NewQueue? }
  predicate WakeEvent(e: Event) { e.WakeSelf? || e.TtwuBegin? || e.TtwuLoadOnRq? || e.TtwuReadRq?
    || e.TtwuLocked? || e.TtwuClaim? }
  predicate PlaceEvent(e: Event) { e.TtwuLoadOnCpu? || e.TtwuListOnCpu? || e.TtwuNoList? || e.TtwuSpinDone?
    || e.TtwuSelect? || e.TtwuQueueList? || e.TtwuQueue? }
  predicate MoveEvent(e: Event) { e.StopperDetach? || e.BalanceDetach? || e.Attach? || e.Swap? }
  predicate LockEvent(e: Event) { e.LockRead? || e.LockCheck? || e.LockedDetach? || e.LockDrop? }
  predicate OwnEvent(e: Event) { e.SetState? || e.SetIowait? || e.StartCount? || e.StopCount? }

  // ---------------------------------------------------------------- access

  predicate IsCpu(s: State, c: Cpu) { c < |s.rqs| }
  predicate IsTask(s: State, p: Tid) { p < |s.tasks| }

  /** CPU c is executing ordinary code of its current task, or an interrupt handler on top of it. */
  predicate Idling(s: State, c: Cpu) { IsCpu(s, c) && s.rqs[c].mode.Run? && s.rqs[c].curr < |s.tasks| }

  predicate LockFree(s: State, c: Cpu) { IsCpu(s, c) && s.rqs[c].lock.None? }

  function Curr(s: State, c: Cpu): Tid
    requires IsCpu(s, c)
  { s.rqs[c].curr }

  function CurrTask(s: State, c: Cpu): Task
    requires IsCpu(s, c) && s.rqs[c].curr < |s.tasks|
  { s.tasks[s.rqs[c].curr] }

  function PutTask(s: State, p: Tid, t: Task): State
    requires IsTask(s, p)
  { s.(tasks := s.tasks[p := t]) }

  function PutRq(s: State, c: Cpu, r: Rq): State
    requires IsCpu(s, c)
  { s.(rqs := s.rqs[c := r]) }

  function PutMode(s: State, c: Cpu, m: Mode): State
    requires IsCpu(s, c)
  { PutRq(s, c, s.rqs[c].(mode := m)) }

  /** `p->state & mask` */
  predicate Matches(st: TaskState, mask: set<SleepBit>) {
    st.Sleeping? && exists b :: b in st.bits && b in mask
  }

  // ---------------------------------------------------------------- __schedule

  /** Whether the locked section of __schedule() takes the previous task off the runqueue. */
  predicate GoesToSleep(t: Task, preempt: bool, signal: bool) {
    !preempt && !t.state.Running? && !signal
  }

  predicate ContributesToLoad(st: TaskState, frozen: bool) {
    st.Sleeping? && UNINTERRUPTIBLE in st.bits && NOLOAD !in st.bits && !frozen
  }

  predicate CanSchedule(s: State, c: Cpu, preempt: bool, signal: bool, next: Tid) {
    && Idling(s, c) && LockFree(s, c)
    && IsTask(s, next) && next in s.rqs[c].queue
    && var t := CurrTask(s, c);
    // signal_pending_state() only looks at interruptible and killable sleeps
    && (signal ==> !preempt && (Matches(t.state, {INTERRUPTIBLE, WAKEKILL})))
    && (GoesToSleep(t, preempt, signal) ==> next != Curr(s, c))
    // the wait loop calls schedule() only after its test
    && (!preempt ==> !t.pc.StateSet?)
  }

  /** Lines 4153-4185: the previous task stays, is made runnable by a signal, or is deactivated. */
  function PutPrev(s: State, c: Cpu, preempt: bool, signal: bool, frozen: bool): State
    requires Idling(s, c)
  {
    var r, t := s.rqs[c], CurrTask(s, c);
    if !preempt && !t.state.Running? then
      if signal then PutTask(s, r.curr, t.(state := Running))
      else
        var load := ContributesToLoad(t.state, frozen);
        var s' := PutTask(s, r.curr, t.(contributes := load, onRq := Off));
        PutRq(s', c, r.(
          queue := r.queue - {r.curr},
          nrUninterruptible := if load then Inc64(r.nrUninterruptible) else r.nrUninterruptible,
          nrIowait := if t.inIowait then r.nrIowait + 1 else r.nrIowait))
    else s
  }

  function LazyRefs(s: State, m: Mm): int { if m in s.lazyRefs then s.lazyRefs[m] else 0 }

  function GrabLazy(s: State, m: Option<Mm>): map<Mm, int> {
    if m.Some? then s.lazyRefs[m.value := LazyRefs(s, m.value) + 1] else s.lazyRefs
  }

  function DropLazy(s: State, m: Option<Mm>): map<Mm, int> {
    if m.Some? then s.lazyRefs[m.value := LazyRefs(s, m.value) - 1] else s.lazyRefs
  }

  /** The task switched away from: its counter, and a kernel thread gives its borrowed mm away. */
  function SwitchedOut(t: Task, voluntary: bool): Task {
    var t1 := if voluntary then t.(nvcsw := Inc64(t.nvcsw)) else t.(nivcsw := Inc64(t.nivcsw));
    if t.mm.None? then t1.(activeMm := None) else t1
  }

  /** The task switched to: counted, claimed, and a kernel thread borrows the mm of the one before. */
  function SwitchedIn(t: Task, prev: Task): Task {
    var t1 := t.(switches := Inc32(t.switches), onCpu := true);
    if t.mm.None? then t1.(activeMm := prev.activeMm) else t1
  }

  /** Lines 4191-4221 and context_switch(): publish and claim the next task, with the lock kept. */
  function SwitchIn(s: State, c: Cpu, voluntary: bool, next: Tid): State
    requires Idling(s, c) && IsTask(s, next)
  {
    var r := s.rqs[c];
    var prev := r.curr;
    var pt, nt := s.tasks[prev], s.tasks[next];
    State(
      s.tasks[prev := SwitchedOut(pt, voluntary)][next := SwitchedIn(nt, pt)],
      s.rqs[c := r.(
        nrSwitches := Inc64(r.nrSwitches), curr := next, mode := Switching(prev), lock := Some(c),
        loadedMm := if nt.mm.Some? then nt.mm else r.loadedMm,
        prevMm := if nt.mm.Some? && pt.mm.None? then pt.activeMm else r.prevMm)],
      if nt.mm.None? && pt.mm.Some? then GrabLazy(s, pt.activeMm) else s.lazyRefs)
  }

  predicate Voluntary(t: Task, preempt: bool) { !preempt && !t.state.Running? }

  function DoSchedule(s: State, c: Cpu, preempt: bool, signal: bool, frozen: bool, next: Tid): State
    requires CanSchedule(s, c, preempt, signal, next)
  {
    var s1 := PutPrev(s, c, preempt, signal, frozen);
    if next == Curr(s, c) then s1 else SwitchIn(s1, c, Voluntary(CurrTask(s, c), preempt), next)
  }

  predicate CanFinishTask(s: State, c: Cpu) {
    IsCpu(s, c) && s.rqs[c].mode.Switching? && IsTask(s, s.rqs[c].mode.prev)
  }

  function DoFinishTask(s: State, c: Cpu): State
    requires CanFinishTask(s, c)
  {
    var prev := s.rqs[c].mode.prev;
    PutMode(PutTask(s, prev, s.tasks[prev].(onCpu := false)), c, Switched)
  }

  predicate CanFinishLock(s: State, c: Cpu) { IsCpu(s, c) && s.rqs[c].mode.Switched? }

  /** finish_lock_switch() and the mmdrop() of what was left in prev_mm. */
  function DoFinishLock(s: State, c: Cpu): State
    requires CanFinishLock(s, c)
  {
    var r := s.rqs[c];
    PutRq(s, c, r.(mode := Run, lock := None, prevMm := None)).(lazyRefs := DropLazy(s, r.prevMm))
  }

  // ---------------------------------------------------------------- try_to_wake_up

  /** The waker of a wait loop has cleared its condition before; its call pays one debt. */
  predicate CanOwe(t: Task, mask: set<SleepBit>, owing: bool) {
    owing ==> t.owed > 0 && UNINTERRUPTIBLE in mask
  }

  function Pay(t: Task, owing: bool): Task
    requires owing ==> t.owed > 0
  { if owing then t.(owed := t.owed - 1) else t }

  predicate CanWakeSelf(s: State, c: Cpu, mask: set<SleepBit>, owing: bool) {
    Idling(s, c) && CanOwe(CurrTask(s, c), mask, owing)
  }

  function DoWakeSelf(s: State, c: Cpu, mask: set<SleepBit>, owing: bool): State
    requires CanWakeSelf(s, c, mask, owing)
  {
    var t := Pay(CurrTask(s, c), owing);
    PutTask(s, Curr(s, c), if Matches(t.state, mask) then t.(state := Running) else t)
  }

  predicate CanTtwuBegin(s: State, c: Cpu, p: Tid, mask: set<SleepBit>, owing: bool) {
    Idling(s, c) && IsTask(s, p) && p != Curr(s, c) && s.tasks[p].piLock.None? && CanOwe(s.tasks[p], mask, owing)
  }

  /** CPU c holds p->pi_lock and goes on with the wakeup. */
  function TakePi(s: State, c: Cpu, p: Tid, owing: bool): State
    requires IsCpu(s, c) && IsTask(s, p)
  { PutMode(PutTask(s, p, s.tasks[p].(piLock := Some(c))), c, Ttwu(p, Seen, owing)) }

  /** Take p->pi_lock and test the state; without a match the lock is dropped at once. */
  function DoTtwuBegin(s: State, c: Cpu, p: Tid, mask: set<SleepBit>, owing: bool): State
    requires CanTtwuBegin(s, c, p, mask, owing)
  {
    var s1 := PutTask(s, p, Pay(s.tasks[p], owing));
    if Matches(s.tasks[p].state, mask) then TakePi(s1, c, p, owing) else s1
  }

  predicate InTtwu(s: State, c: Cpu) { IsCpu(s, c) && s.rqs[c].mode.Ttwu? && IsTask(s, s.rqs[c].mode.p) }

  predicate AtPhase(s: State, c: Cpu, ph: Phase) { InTtwu(s, c) && s.rqs[c].mode.ph == ph }

  function Target(s: State, c: Cpu): Task
    requires InTtwu(s, c)
  { s.tasks[s.rqs[c].mode.p] }

  function PutPhase(s: State, c: Cpu, ph: Phase): State
    requires InTtwu(s, c)
  { PutMode(s, c, s.rqs[c].mode.(ph := ph)) }

  function DoTtwuLoadOnRq(s: State, c: Cpu): State
    requires AtPhase(s, c, Seen)
  { PutPhase(s, c, if Target(s, c).onRq.Off? then Blocked else Remote) }

  function DoTtwuReadRq(s: State, c: Cpu): State
    requires AtPhase(s, c, Remote)
  { PutPhase(s, c, Guess(Target(s, c).cpu)) }

  predicate CanTtwuLocked(s: State, c: Cpu) {
    InTtwu(s, c) && s.rqs[c].mode.ph.Guess? && LockFree(s, s.rqs[c].mode.ph.g)
  }

  /** Leave try_to_wake_up(): p->pi_lock is dropped. */
  function Leave(s: State, c: Cpu, t: Task): State
    requires InTtwu(s, c)
  { PutMode(PutTask(s, s.rqs[c].mode.p, t.(piLock := None)), c, Run) }

  /** ttwu_remote() found the task queued: it only becomes runnable. */
  function WakeQueued(s: State, c: Cpu): State
    requires InTtwu(s, c)
  { Leave(s, c, Target(s, c).(state := Running)) }

  /** __task_rq_lock() and ttwu_remote() with the runqueue that was read; a stale one means another try. */
  function DoTtwuLocked(s: State, c: Cpu): State
    requires CanTtwuLocked(s, c)
  {
    var t := Target(s, c);
    if t.cpu != s.rqs[c].mode.ph.g || t.onRq.Migrating? then PutPhase(s, c, Remote)
    else if t.onRq.Queued? then WakeQueued(s, c)
    else PutPhase(s, c, Blocked)
  }

  predicate CanTtwuClaim(s: State, c: Cpu) { AtPhase(s, c, Blocked) && IsCpu(s, Target(s, c).cpu) }

  /** The waker takes the task out of its runqueue's nr_iowait. */
  function DropIowait(s: State, c: Cpu): State
    requires CanTtwuClaim(s, c)
  {
    var t := Target(s, c);
    if t.inIowait then PutRq(s, t.cpu, s.rqs[t.cpu].(nrIowait := s.rqs[t.cpu].nrIowait - 1)) else s
  }

  /** The waker stores TASK_WAKING. */
  function StoreWaking(s: State, c: Cpu): State
    requires AtPhase(s, c, Blocked)
  { PutPhase(PutTask(s, s.rqs[c].mode.p, Target(s, c).(state := Waking(true))), c, Claimed) }

  function DoTtwuClaim(s: State, c: Cpu): State
    requires CanTtwuClaim(s, c)
  { StoreWaking(DropIowait(s, c), c) }

  function DoTtwuLoadOnCpu(s: State, c: Cpu): State
    requires AtPhase(s, c, Claimed)
  { PutPhase(s, c, if Target(s, c).onCpu then SawOnCpu else Spin) }

  /** __ttwu_queue_wakelist() */
  function PushWakelist(s: State, c: Cpu, dest: Cpu, migrated: bool): State
    requires InTtwu(s, c) && IsCpu(s, dest)
  {
    var p := s.rqs[c].mode.p;
    var s1 := Leave(s, c, Target(s, c).(remoteWakeup := migrated, state := Waking(false)));
    var r := s1.rqs[dest];
    PutRq(s1, dest, r.(wakelist := r.wakelist + [p]))
  }

  predicate CanTtwuListOnCpu(s: State, c: Cpu) { AtPhase(s, c, SawOnCpu) && IsCpu(s, Target(s, c).cpu) }

  function DoTtwuListOnCpu(s: State, c: Cpu): State
    requires CanTtwuListOnCpu(s, c)
  { PushWakelist(s, c, Target(s, c).cpu, false) }

  function DoTtwuNoList(s: State, c: Cpu): State
    requires AtPhase(s, c, SawOnCpu)
  { PutPhase(s, c, Spin) }

  predicate CanTtwuSpinDone(s: State, c: Cpu) { AtPhase(s, c, Spin) && !Target(s, c).onCpu }

  function DoTtwuSpinDone(s: State, c: Cpu): State
    requires CanTtwuSpinDone(s, c)
  { PutPhase(s, c, OffCpu) }

  /** select_task_rq() and set_task_cpu(). */
  function DoTtwuSelect(s: State, c: Cpu, dest: Cpu): State
    requires AtPhase(s, c, OffCpu) && IsCpu(s, dest)
  {
    var t := Target(s, c);
    PutPhase(PutTask(s, s.rqs[c].mode.p, t.(cpu := dest)), c, Placed(t.cpu != dest))
  }

  predicate AtPlaced(s: State, c: Cpu) { InTtwu(s, c) && s.rqs[c].mode.ph.Placed? && IsCpu(s, Target(s, c).cpu) }

  /** ttwu_queue_wakelist() declines the waker's own CPU. */
  predicate CanTtwuQueueList(s: State, c: Cpu) { AtPlaced(s, c) && Target(s, c).cpu != c }

  function DoTtwuQueueList(s: State, c: Cpu): State
    requires CanTtwuQueueList(s, c)
  { PushWakelist(s, c, Target(s, c).cpu, s.rqs[c].mode.ph.migrated) }

  /** ttwu_do_activate() on runqueue d. */
  function Activate(s: State, d: Cpu, p: Tid): State
    requires IsCpu(s, d) && IsTask(s, p)
  {
    var r, t := s.rqs[d], s.tasks[p];
    PutTask(
      PutRq(s, d, r.(
        queue := r.queue + {p},
        nrUninterruptible := if t.contributes then Dec64(r.nrUninterruptible) else r.nrUninterruptible)),
      p, t.(onRq := Queued, state := Running))
  }

  predicate CanTtwuQueue(s: State, c: Cpu) { AtPlaced(s, c) && LockFree(s, Target(s, c).cpu) }

  function DoTtwuQueue(s: State, c: Cpu): State
    requires CanTtwuQueue(s, c)
  {
    var p, d := s.rqs[c].mode.p, Target(s, c).cpu;
    var s1 := Activate(s, d, p);
    Leave(s1, c, s1.tasks[p])
  }

  predicate CanDrain(s: State, c: Cpu) {
    Idling(s, c) && LockFree(s, c) && |s.rqs[c].wakelist| > 0 && IsTask(s, s.rqs[c].wakelist[0])
  }

  /** One entry of sched_ttwu_pending(), repair of a wrong CPU (lines 2294-2295) included. */
  function DoDrain(s: State, c: Cpu): State
    requires CanDrain(s, c)
  {
    var r := s.rqs[c];
    var p := r.wakelist[0];
    Activate(PutTask(PutRq(s, c, r.(wakelist := r.wakelist[1..])), p, s.tasks[p].(cpu := c)), c, p)
  }

  // ---------------------------------------------------------------- migration

  /** First half of move_queued_task(): off the source runqueue, MIGRATING, new CPU set, lock dropped. */
  function Detach(s: State, c: Cpu, p: Tid, dest: Cpu, pi: bool): State
    requires IsCpu(s, c) && IsTask(s, p) && IsCpu(s, s.tasks[p].cpu)
  {
    var t := s.tasks[p];
    var src := s.rqs[t.cpu];
    var s1 := PutRq(s, t.cpu, src.(queue := src.queue - {p}));
    PutMode(PutTask(s1, p, t.(onRq := Migrating(c), cpu := dest)), c, Carrying(p, dest, pi))
  }

  /** migration_cpu_stop() on the stopper of CPU c, with the task still queued there. */
  predicate CanStopperDetach(s: State, c: Cpu, p: Tid, dest: Cpu) {
    && Idling(s, c) && LockFree(s, c) && IsTask(s, p) && IsCpu(s, dest)
    && Curr(s, c) == s.rqs[c].stop && p != s.rqs[c].stop && p != s.rqs[c].idle
    && s.tasks[p].piLock.None? && s.tasks[p].cpu == c && s.tasks[p].onRq.Queued?
  }

  function DoStopperDetach(s: State, c: Cpu, p: Tid, dest: Cpu): State
    requires CanStopperDetach(s, c, p, dest)
  { Detach(PutTask(s, p, s.tasks[p].(piLock := Some(c))), c, p, dest, true) }

  /** A scheduling class pulls or pushes a task that is not running, under runqueue locks alone. */
  predicate CanBalanceDetach(s: State, c: Cpu, p: Tid, dest: Cpu) {
    && Idling(s, c) && IsTask(s, p) && IsCpu(s, dest) && IsCpu(s, s.tasks[p].cpu)
    && LockFree(s, s.tasks[p].cpu) && s.tasks[p].onRq.Queued? && !s.tasks[p].onCpu
    && p != s.rqs[s.tasks[p].cpu].idle
  }

  predicate CanAttach(s: State, c: Cpu) {
    && IsCpu(s, c) && s.rqs[c].mode.Carrying? && IsTask(s, s.rqs[c].mode.p)
    && LockFree(s, s.rqs[c].mode.dest)
  }

  /** Second half: enqueue on the destination. */
  function DoAttach(s: State, c: Cpu): State
    requires CanAttach(s, c)
  {
    var m := s.rqs[c].mode;
    var t := s.tasks[m.p];
    var dst := s.rqs[m.dest];
    var s1 := PutRq(s, m.dest, dst.(queue := dst.queue + {m.p}));
    PutMode(PutTask(s1, m.p, t.(onRq := Queued, piLock := if m.pi then None else t.piLock)), c, Run)
  }

  /** migrate_swap_stop() with both CPUs in their stoppers. */
  predicate CanSwap(s: State, src: Cpu, dst: Cpu, p: Tid, q: Tid) {
    && Idling(s, src) && Idling(s, dst) && src != dst && LockFree(s, src) && LockFree(s, dst)
    && IsTask(s, p) && IsTask(s, q) && p != q
    && Curr(s, src) == s.rqs[src].stop && Curr(s, dst) == s.rqs[dst].stop
    && p !in {s.rqs[src].stop, s.rqs[src].idle} && q !in {s.rqs[dst].stop, s.rqs[dst].idle}
    && s.tasks[p].piLock.None? && s.tasks[q].piLock.None?
  }

  /** __migrate_swap_task() */
  function MoveIfQueued(s: State, p: Tid, from: Cpu, to: Cpu): State
    requires IsTask(s, p) && IsCpu(s, from) && IsCpu(s, to)
  {
    var t := s.tasks[p];
    if t.onRq.Queued? then
      var s1 := PutRq(s, from, s.rqs[from].(queue := s.rqs[from].queue - {p}));
      PutTask(PutRq(s1, to, s1.rqs[to].(queue := s1.rqs[to].queue + {p})), p, t.(cpu := to))
    else s
  }

  /** `allowed` says whether the masks of both tasks admit the exchange. */
  function DoSwap(s: State, src: Cpu, dst: Cpu, p: Tid, q: Tid, allowed: bool): State
    requires CanSwap(s, src, dst, p, q)
  {
    if s.tasks[q].cpu != dst || s.tasks[p].cpu != src || !allowed then s
    else MoveIfQueued(MoveIfQueued(s, p, src, dst), q, dst, src)
  }

  // ---------------------------------------------------------------- task_rq_lock

  predicate CanLockRead(s: State, c: Cpu, p: Tid) { Idling(s, c) && IsTask(s, p) && s.tasks[p].piLock.None? }

  function DoLockRead(s: State, c: Cpu, p: Tid): State
    requires CanLockRead(s, c, p)
  {
    var t := s.tasks[p];
    PutMode(PutTask(s, p, t.(piLock := Some(c))), c, LockGuess(p, t.cpu))
  }

  predicate CanLockCheck(s: State, c: Cpu) {
    IsCpu(s, c) && s.rqs[c].mode.LockGuess? && IsTask(s, s.rqs[c].mode.p) && LockFree(s, s.rqs[c].mode.g)
  }

  function KeepRqLock(s: State, c: Cpu): State
    requires CanLockCheck(s, c)
  {
    var m := s.rqs[c].mode;
    PutMode(PutRq(s, m.g, s.rqs[m.g].(lock := Some(c))), c, LockHeld(m.p, m.g))
  }

  function DropPi(s: State, c: Cpu): State
    requires CanLockCheck(s, c)
  {
    var p := s.rqs[c].mode.p;
    PutMode(PutTask(s, p, s.tasks[p].(piLock := None)), c, Run)
  }

  /** The lock is kept only if the runqueue is still the task's own and the task is not migrating. */
  predicate StillThere(s: State, c: Cpu)
    requires CanLockCheck(s, c)
  {
    var t := s.tasks[s.rqs[c].mode.p];
    s.rqs[c].mode.g == t.cpu && !t.onRq.Migrating?
  }

  /** Lock the runqueue that was read and look again; otherwise drop both locks and start over. */
  function DoLockCheck(s: State, c: Cpu): State
    requires CanLockCheck(s, c)
  { if StillThere(s, c) then KeepRqLock(s, c) else DropPi(s, c) }

  predicate HasLock(s: State, c: Cpu) {
    && IsCpu(s, c) && s.rqs[c].mode.LockHeld? && IsTask(s, s.rqs[c].mode.p) && IsCpu(s, s.rqs[c].mode.g)
  }

  /** __set_cpus_allowed_ptr() line 1670: the task is queued, not running, not being woken. */
  predicate CanLockedDetach(s: State, c: Cpu, dest: Cpu) {
    && HasLock(s, c) && IsCpu(s, dest)
    && var t := s.tasks[s.rqs[c].mode.p];
    t.onRq.Queued? && !t.onCpu && t.cpu == s.rqs[c].mode.g && s.rqs[c].mode.p != s.rqs[s.rqs[c].mode.g].idle
  }

  function DoLockedDetach(s: State, c: Cpu, dest: Cpu): State
    requires CanLockedDetach(s, c, dest)
  {
    var m := s.rqs[c].mode;
    Detach(PutRq(s, m.g, s.rqs[m.g].(lock := None)), c, m.p, dest, true)
  }

  function DoLockDrop(s: State, c: Cpu): State
    requires HasLock(s, c)
  {
    var m := s.rqs[c].mode;
    var s1 := PutRq(s, m.g, s.rqs[m.g].(lock := None));
    PutMode(PutTask(s1, m.p, s.tasks[m.p].(piLock := None)), c, Run)
  }

  // ---------------------------------------------------------------- fork

  /** A new task copies its parent; sched_fork() marks it TASK_NEW on the parent's CPU. */
  function DoFork(s: State, c: Cpu, mm: Option<Mm>): State
    requires Idling(s, c)
  {
    var parent := CurrTask(s, c);
    s.(tasks := s.tasks + [parent.(
      state := New, onRq := Off, onCpu := false, cpu := c, piLock := None, inIowait := false,
      nvcsw := 0, nivcsw := 0, mm := mm, activeMm := mm, needSleep := false, pc := Outside, owed := 0)])
  }

  predicate CanNewPlace(s: State, c: Cpu, p: Tid, dest: Cpu) {
    Idling(s, c) && IsTask(s, p) && IsCpu(s, dest) && s.tasks[p].state.New? && s.tasks[p].piLock.None?
  }

  function DoNewPlace(s: State, c: Cpu, p: Tid, dest: Cpu): State
    requires CanNewPlace(s, c, p, dest)
  { PutMode(PutTask(s, p, s.tasks[p].(state := Running, cpu := dest, piLock := Some(c))), c, NewPlaced(p)) }

  predicate CanNewQueue(s: State, c: Cpu) {
    && IsCpu(s, c) && s.rqs[c].mode.NewPlaced? && IsTask(s, s.rqs[c].mode.p)
    && LockFree(s, s.tasks[s.rqs[c].mode.p].cpu)
  }

  function DoNewQueue(s: State, c: Cpu): State
    requires CanNewQueue(s, c)
  {
    var p := s.rqs[c].mode.p;
    var t := s.tasks[p];
    var r := s.rqs[t.cpu];
    var s1 := PutRq(s, t.cpu, r.(queue := r.queue + {p}));
    PutMode(PutTask(s1, p, t.(onRq := Queued, piLock := None)), c, Run)
  }

  // ---------------------------------------------------------------- the running task

  predicate Special(st: TaskState) { st.Sleeping? && exists b :: b in st.bits && b in {STOPPED, TRACED, PARKED, DEAD} }

  /** set_current_state(), and set_special_state() which takes p->pi_lock. */
  predicate CanSetState(s: State, c: Cpu, st: TaskState) {
    && Idling(s, c) && (st.Running? || (st.Sleeping? && Curr(s, c) != s.rqs[c].idle))
    && (Special(st) ==> CurrTask(s, c).piLock.None?)
  }

  function PutCurr(s: State, c: Cpu, t: Task): State
    requires IsCpu(s, c) && s.rqs[c].curr < |s.tasks|
  { PutTask(s, s.rqs[c].curr, t) }

  function DoSetState(s: State, c: Cpu, st: TaskState): State
    requires CanSetState(s, c, st)
  { PutCurr(s, c, CurrTask(s, c).(state := st, pc := Outside)) }

  /** A task arms its condition before it enters the loop. */
  function DoLoopArm(s: State, c: Cpu): State
    requires Idling(s, c)
  { PutCurr(s, c, CurrTask(s, c).(needSleep := true, pc := Outside)) }

  predicate CanLoopSet(s: State, c: Cpu) {
    Idling(s, c) && !CurrTask(s, c).pc.StateSet? && Curr(s, c) != s.rqs[c].idle
  }

  function DoLoopSet(s: State, c: Cpu): State
    requires CanLoopSet(s, c)
  { PutCurr(s, c, CurrTask(s, c).(state := Sleeping({UNINTERRUPTIBLE}), pc := StateSet)) }

  predicate CanLoopTest(s: State, c: Cpu) {
    Idling(s, c) && CurrTask(s, c).pc.StateSet? && CurrTask(s, c).needSleep
  }

  function DoLoopTest(s: State, c: Cpu): State
    requires CanLoopTest(s, c)
  { PutCurr(s, c, CurrTask(s, c).(pc := Tested)) }

  predicate CanLoopExit(s: State, c: Cpu) {
    Idling(s, c) && CurrTask(s, c).pc.StateSet? && !CurrTask(s, c).needSleep
  }

  function DoLoopExit(s: State, c: Cpu): State
    requires CanLoopExit(s, c)
  { PutCurr(s, c, CurrTask(s, c).(state := Running, pc := Outside)) }

  function DoClear(s: State, p: Tid): State
    requires IsTask(s, p)
  { PutTask(s, p, s.tasks[p].(needSleep := false, owed := s.tasks[p].owed + 1)) }

  // ---------------------------------------------------------------- the step relation

  function StepSwitch(s: State, e: Event): Option<State> {
    match e
    case Schedule(c, preempt, signal, frozen, next) =>
      if CanSchedule(s, c, preempt, signal, next) then Some(DoSchedule(s, c, preempt, signal, frozen, next)) else None
    case FinishTask(c) => if CanFinishTask(s, c) then Some(DoFinishTask(s, c)) else None
    case FinishLock(c) => if CanFinishLock(s, c) then Some(DoFinishLock(s, c)) else None
    case _ => None
  }

  function StepArrive(s: State, e: Event): Option<State> {
    match e
    case Drain(c) => if CanDrain(s, c) then Some(DoDrain(s, c)) else None
    case Fork(c, mm) => if Idling(s, c) then Some(DoFork(s, c, mm)) else None
    case NewPlace(c, p, dest) => if CanNewPlace(s, c, p, dest) then Some(DoNewPlace(s, c, p, dest)) else None
    case NewQueue(c) => if CanNewQueue(s, c) then Some(DoNewQueue(s, c)) else None
    case _ => None
  }

  function StepWake(s: State, e: Event): Option<State> {
    match e
    case WakeSelf(c, mask, owing) =>
      if CanWakeSelf(s, c, mask, owing) then Some(DoWakeSelf(s, c, mask, owing)) else None
    case TtwuBegin(c, p, mask, owing) =>
      if CanTtwuBegin(s, c, p, mask, owing) then Some(DoTtwuBegin(s, c, p, mask, owing)) else None
    case TtwuLoadOnRq(c) => if AtPhase(s, c, Seen) then Some(DoTtwuLoadOnRq(s, c)) else None
    case TtwuReadRq(c) => if AtPhase(s, c, Remote) then Some(DoTtwuReadRq(s, c)) else None
    case TtwuLocked(c) => if CanTtwuLocked(s, c) then Some(DoTtwuLocked(s, c)) else None
    case TtwuClaim(c) => if CanTtwuClaim(s, c) then Some(DoTtwuClaim(s, c)) else None
    case _ => None
  }

  function StepPlace(s: State, e: Event): Option<State> {
    match e
    case TtwuLoadOnCpu(c) => if AtPhase(s, c, Claimed) then Some(DoTtwuLoadOnCpu(s, c)) else None
    case TtwuListOnCpu(c) => if CanTtwuListOnCpu(s, c) then Some(DoTtwuListOnCpu(s, c)) else None
    case TtwuNoList(c) => if AtPhase(s, c, SawOnCpu) then Some(DoTtwuNoList(s, c)) else None
    case TtwuSpinDone(c) => if CanTtwuSpinDone(s, c) then Some(DoTtwuSpinDone(s, c)) else None
    case TtwuSelect(c, dest) =>
      if AtPhase(s, c, OffCpu) && IsCpu(s, dest) then Some(DoTtwuSelect(s, c, dest)) else None
    case TtwuQueueList(c) => if CanTtwuQueueList(s, c) then Some(DoTtwuQueueList(s, c)) else None
    case TtwuQueue(c) => if CanTtwuQueue(s, c) then Some(DoTtwuQueue(s, c)) else None
    case _ => None
  }

  function StepMove(s: State, e: Event): Option<State> {
    match e
    case StopperDetach(c, p, dest) =>
      if CanStopperDetach(s, c, p, dest) then Some(DoStopperDetach(s, c, p, dest)) else None
    case BalanceDetach(c, p, dest) =>
      if CanBalanceDetach(s, c, p, dest) then Some(Detach(s, c, p, dest, false)) else None
    case Attach(c) => if CanAttach(s, c) then Some(DoAttach(s, c)) else None
    case Swap(src, dst, p, q, allowed) =>
      if CanSwap(s, src, dst, p, q) then Some(DoSwap(s, src, dst, p, q, allowed)) else None
    case _ => None
  }

  function StepLock(s: State, e: Event): Option<State> {
    match e
    case LockRead(c, p) => if CanLockRead(s, c, p) then Some(DoLockRead(s, c, p)) else None
    case LockCheck(c) => if CanLockCheck(s, c) then Some(DoLockCheck(s, c)) else None
    case LockedDetach(c, dest) =>
      if CanLockedDetach(s, c, dest) then Some(DoLockedDetach(s, c, dest)) else None
    case LockDrop(c) => if HasLock(s, c) then Some(DoLockDrop(s, c)) else None
    case _ => None
  }

  function StepOwn(s: State, e: Event): Option<State> {
    match e
    case SetState(c, st) => if CanSetState(s, c, st) then Some(DoSetState(s, c, st)) else None
    case SetIowait(c, b) => if Idling(s, c) then Some(PutCurr(s, c, CurrTask(s, c).(inIowait := b))) else None
    case StartCount(c) => if Idling(s, c) then Some(PutCurr(s, c, CurrTask(s, c).(switches := 0))) else None
    case StopCount(c) => if Idling(s, c) then Some(s) else None
    case _ => None
  }

  function StepLoop(s: State, e: Event): Option<State> {
    match e
    case LoopArm(c) => if Idling(s, c) then Some(DoLoopArm(s, c)) else None
    case LoopSet(c) => if CanLoopSet(s, c) then Some(DoLoopSet(s, c)) else None
    case LoopTest(c) => if CanLoopTest(s, c) then Some(DoLoopTest(s, c)) else None
    case LoopExit(c) => if CanLoopExit(s, c) then Some(DoLoopExit(s, c)) else None
    case ClearCondition(p) => if IsTask(s, p) then Some(DoClear(s, p)) else None
    case _ => None
  }

  /** What event e does in s; none if it cannot happen there. */
  function Step(s: State, e: Event): Option<State> {
    if SwitchEvent(e) then StepSwitch(s, e)
    else if ArriveEvent(e) then StepArrive(s, e)
    else if WakeEvent(e) then StepWake(s, e)
    else if PlaceEvent(e) then StepPlace(s, e)
    else if MoveEvent(e) then StepMove(s, e)
    else if LockEvent(e) then StepLock(s, e)
    else if OwnEvent(e) then StepOwn(s, e)
    else StepLoop(s, e)
  }

  predicate Enabled(s: State, e: Event) { Step(s, e).Some? }

  function Apply(s: State, e: Event): State
    requires Enabled(s, e)
  { Step(s, e).value }

  /** A finite run: every event is enabled where it happens. */
  predicate ValidRun(s: State, es: seq<Event>)
    decreases |es|
  {
    |es| == 0 || (Enabled(s, es[0]) && ValidRun(Apply(s, es[0]), es[1..]))
  }

  function Final(s: State, es: seq<Event>): State
    requires ValidRun(s, es)
    decreases |es|
  {
    if |es| == 0 then s else Final(Apply(s, es[0]), es[1..])
  }

  /** The idle task of CPU c and its runqueue at boot, in init_mm. */
  function IdleTask(c: Cpu): Task {
    Task(Running, Queued, true, c, None, false, false, false, 0, 0, 0, None, Some(0), false, Outside, 0)
  }

  function BootRq(c: Cpu, stop: Tid): Rq { Rq(c, c, stop, {c}, [], None, Run, 0, 0, 0, None, Some(0)) }

  /** After boot every CPU runs its idle task and nothing else exists; `stop` names the stopper forked later. */
  predicate Boot(s: State) {
    && |s.tasks| == |s.rqs|
    && (forall c :: 0 <= c < |s.rqs| ==> s.tasks[c] == IdleTask(c) && s.rqs[c] == BootRq(c, s.rqs[c].stop))
    && s.lazyRefs == map[0 := |s.rqs|]
  }
}
