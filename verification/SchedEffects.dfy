/**
 * What the steps do to the fields of tasks and runqueues, said without the functions that compute it: which tasks a
 * wakeup mask matches, where a switch is counted, when task_rq_lock() keeps its locks, where a migration ends.
 */
module SchedEffects {
  import opened Wrappers
  import opened SchedState
  import opened SchedInvariant

  /** Only tasks p and q, and the runqueues of c and d, differ. */
  ghost predicate OnlyThese(s: State, s': State, p: Tid, q: Tid, c: Cpu, d: Cpu) {
    && |s'.tasks| == |s.tasks| && |s'.rqs| == |s.rqs|
    && (forall r :: 0 <= r < |s.tasks| && r != p && r != q ==> s'.tasks[r] == s.tasks[r])
    && (forall e :: 0 <= e < |s.rqs| && e != c && e != d ==> s'.rqs[e] == s.rqs[e])
  }

  // ---------------------------------------------------------------- wakeup masks

  /** p->state & mask, with the state as the set of its bits. */
  function Bits(st: TaskState): set<SleepBit> { if st.Sleeping? then st.bits else {} }

  lemma MatchesMeans(st: TaskState, mask: set<SleepBit>)
    ensures Matches(st, mask) <==> Bits(st) * mask != {}
  {
    if Matches(st, mask) {
      var b :| b in st.bits && b in mask;
      assert b in Bits(st) * mask;
    }
  }

  /** A wakeup goes on under p->pi_lock exactly for a state that has a bit of the mask; else it changes nothing. */
  lemma TtwuBeginMeans(s: State, c: Cpu, p: Tid, mask: set<SleepBit>, owing: bool, s': State)
    requires Step(s, TtwuBegin(c, p, mask, owing)) == Some(s')
    ensures var owed := if owing then s.tasks[p].owed - 1 else s.tasks[p].owed;
      && owed >= 0
      && if Bits(s.tasks[p].state) * mask == {} then s' == s.(tasks := s.tasks[p := s.tasks[p].(owed := owed)])
         else
           && OnlyThese(s, s', p, p, c, c) && s'.rqs[c] == s.rqs[c].(mode := Ttwu(p, Seen, owing))
           && s'.tasks[p] == s.tasks[p].(owed := owed, piLock := Some(c))
  {
    MatchesMeans(s.tasks[p].state, mask);
  }

  lemma WakeSelfMeans(s: State, c: Cpu, mask: set<SleepBit>, owing: bool, s': State)
    requires Step(s, WakeSelf(c, mask, owing)) == Some(s')
    ensures s.rqs[c].curr < |s.tasks|
    ensures var p := s.rqs[c].curr; var owed := if owing then s.tasks[p].owed - 1 else s.tasks[p].owed;
      && owed >= 0
      && s' == s.(tasks := s.tasks[p := if Bits(s.tasks[p].state) * mask == {} then s.tasks[p].(owed := owed)
                                        else s.tasks[p].(owed := owed, state := Running)])
  {
    MatchesMeans(CurrTask(s, c).state, mask);
  }

  /** A waker clears the condition first, and then owes the task a wakeup. */
  lemma ClearMeans(s: State, p: Tid, s': State)
    requires Step(s, ClearCondition(p)) == Some(s')
    ensures p < |s.tasks|
    ensures s' == s.(tasks := s.tasks[p := s.tasks[p].(needSleep := false, owed := s.tasks[p].owed + 1)])
  {
  }

  // ---------------------------------------------------------------- __schedule

  /** prev has called schedule() in a sleeping state, and no signal keeps it runnable. */
  predicate Sleeps(t: Task, preempt: bool, signal: bool) { !preempt && !t.state.Running? && !signal }

  /** What its sleep adds to the load. */
  predicate AddsLoad(t: Task, frozen: bool) {
    t.state.Sleeping? && UNINTERRUPTIBLE in t.state.bits && NOLOAD !in t.state.bits && !frozen
  }

  /**
   * The task that calls schedule(): off its runqueue exactly if it sleeps, runnable again if a signal kept it, marked
   * by what it adds to the load; if it is switched out, its switch is voluntary unless it is preempted or runnable.
   */
  predicate PrevMeans(t: Task, t': Task, preempt: bool, signal: bool, frozen: bool, switched: bool) {
    var voluntary := !preempt && !t.state.Running?;
    && t'.onRq == (if Sleeps(t, preempt, signal) then Off else t.onRq)
    && t'.state == (if voluntary && signal then Running else t.state)
    && t'.contributes == (if Sleeps(t, preempt, signal) then AddsLoad(t, frozen) else t.contributes)
    && t'.nvcsw == (t.nvcsw + if switched && voluntary then 1 else 0) % 0x1_0000_0000_0000_0000
    && t'.nivcsw == (t.nivcsw + if switched && !voluntary then 1 else 0) % 0x1_0000_0000_0000_0000
    && t'.onCpu == t.onCpu && t'.cpu == t.cpu && t'.piLock == t.piLock && t'.switches == t.switches
  }

  /** The runqueue: prev leaves it if it sleeps, and the two counts of sleepers follow. */
  predicate RqMeans(r: Rq, r': Rq, c: Cpu, t: Task, preempt: bool, signal: bool, frozen: bool, next: Tid) {
    var sleeps := Sleeps(t, preempt, signal);
    && r'.queue == (if sleeps then r.queue - {r.curr} else r.queue) && r'.wakelist == r.wakelist && r'.curr == next
    && r'.nrUninterruptible == (r.nrUninterruptible + if sleeps && AddsLoad(t, frozen) then 1 else 0)
      % 0x1_0000_0000_0000_0000
    && r'.nrIowait == r.nrIowait + (if sleeps && t.inIowait then 1 else 0)
    && r'.nrSwitches == (r.nrSwitches + if next != r.curr then 1 else 0) % 0x1_0000_0000_0000_0000
    && (if next == r.curr then r'.mode == r.mode && r'.lock == r.lock
        else r'.mode == Switching(r.curr) && r'.lock == Some(c))
  }

  /** The task switched to: counted, on the CPU, and otherwise as it was, but for a borrowed address space. */
  predicate NextMeans(t: Task, t': Task) {
    t' == t.(switches := (t.switches + 1) % 0x1_0000_0000, onCpu := true, activeMm := t'.activeMm)
  }

  lemma PutPrevMeans(s: State, c: Cpu, preempt: bool, signal: bool, frozen: bool)
    requires Idling(s, c)
    ensures var prev, s' := s.rqs[c].curr, PutPrev(s, c, preempt, signal, frozen);
      && OnlyThese(s, s', prev, prev, c, c)
      && PrevMeans(s.tasks[prev], s'.tasks[prev], preempt, signal, frozen, false)
      && RqMeans(s.rqs[c], s'.rqs[c], c, s.tasks[prev], preempt, signal, frozen, prev)
  {
  }

  /** The switch itself. */
  predicate SwitchedMeans(t: Task, t': Task, voluntary: bool) {
    t' == t.(nvcsw := (t.nvcsw + if voluntary then 1 else 0) % 0x1_0000_0000_0000_0000,
      nivcsw := (t.nivcsw + if voluntary then 0 else 1) % 0x1_0000_0000_0000_0000, activeMm := t'.activeMm)
  }

  lemma SwitchInMeans(s: State, c: Cpu, voluntary: bool, next: Tid)
    requires Idling(s, c) && IsTask(s, next) && next != s.rqs[c].curr
    ensures var prev, s' := s.rqs[c].curr, SwitchIn(s, c, voluntary, next);
      && OnlyThese(s, s', prev, next, c, c) && SwitchedMeans(s.tasks[prev], s'.tasks[prev], voluntary)
      && NextMeans(s.tasks[next], s'.tasks[next])
      && RqSwitched(s.rqs[c], s'.rqs[c], c, next)
  {
  }

  /** The locked section of __schedule(). */
  ghost predicate Scheduled(s: State, s': State, c: Cpu, preempt: bool, signal: bool, frozen: bool, next: Tid) {
    && c < |s.rqs| && s.rqs[c].curr < |s.tasks| && next < |s.tasks|
    && var prev := s.rqs[c].curr;
    && OnlyThese(s, s', prev, next, c, c)
    && PrevMeans(s.tasks[prev], s'.tasks[prev], preempt, signal, frozen, next != prev)
    && RqMeans(s.rqs[c], s'.rqs[c], c, s.tasks[prev], preempt, signal, frozen, next)
    && (next != prev ==> NextMeans(s.tasks[next], s'.tasks[next]))
  }

  /** The runqueue after a switch. */
  predicate RqSwitched(r: Rq, r': Rq, c: Cpu, next: Tid) {
    r' == r.(curr := next, mode := Switching(r.curr), lock := Some(c), loadedMm := r'.loadedMm, prevMm := r'.prevMm,
      nrSwitches := (r.nrSwitches + 1) % 0x1_0000_0000_0000_0000)
  }

  /** A switch after prev was put aside. */
  lemma BothPrev(t: Task, t1: Task, t': Task, preempt: bool, signal: bool, frozen: bool)
    requires PrevMeans(t, t1, preempt, signal, frozen, false)
    requires SwitchedMeans(t1, t', !preempt && !t.state.Running?)
    ensures PrevMeans(t, t', preempt, signal, frozen, true)
  {
  }

  lemma BothRq(r: Rq, r1: Rq, r': Rq, c: Cpu, t: Task, preempt: bool, signal: bool, frozen: bool, next: Tid)
    requires RqMeans(r, r1, c, t, preempt, signal, frozen, r.curr) && RqSwitched(r1, r', c, next) && next != r.curr
    ensures RqMeans(r, r', c, t, preempt, signal, frozen, next)
  {
  }

  lemma ScheduleMeans(s: State, c: Cpu, preempt: bool, signal: bool, frozen: bool, next: Tid)
    requires CanSchedule(s, c, preempt, signal, next)
    ensures Scheduled(s, DoSchedule(s, c, preempt, signal, frozen, next), c, preempt, signal, frozen, next)
  {
    var s1 := PutPrev(s, c, preempt, signal, frozen);
    PutPrevMeans(s, c, preempt, signal, frozen);
    if next != Curr(s, c) {
      var voluntary := Voluntary(CurrTask(s, c), preempt);
      SwitchInMeans(s1, c, voluntary, next);
      var s', t := SwitchIn(s1, c, voluntary, next), CurrTask(s, c);
      BothPrev(t, CurrTask(s1, c), s'.tasks[Curr(s, c)], preempt, signal, frozen);
      BothRq(s.rqs[c], s1.rqs[c], s'.rqs[c], c, t, preempt, signal, frozen, next);
      assert s1.tasks[next] == s.tasks[next];
    }
  }

  /** finish_task() and finish_lock_switch(): the previous task is let go, then the lock. */
  lemma FinishMeans(s: State, c: Cpu, s': State)
    requires Step(s, FinishTask(c)) == Some(s')
    ensures c < |s.rqs| && s.rqs[c].mode.Switching? && s.rqs[c].mode.prev < |s.tasks|
    ensures s'.tasks == s.tasks[s.rqs[c].mode.prev := s.tasks[s.rqs[c].mode.prev].(onCpu := false)]
    ensures s'.rqs == s.rqs[c := s.rqs[c].(mode := Switched)]
    ensures Enabled(s', FinishLock(c)) && Apply(s', FinishLock(c)).tasks == s'.tasks
    ensures Apply(s', FinishLock(c)).rqs == s.rqs[c := s.rqs[c].(mode := Run, lock := None, prevMm := None)]
  {
  }

  // ---------------------------------------------------------------- wakelists and new tasks

  /** The first task of the wakelist becomes runnable on the CPU that drains it. */
  lemma DrainMeans(s: State, c: Cpu, s': State)
    requires Step(s, Drain(c)) == Some(s')
    ensures c < |s.rqs| && |s.rqs[c].wakelist| > 0 && s.rqs[c].wakelist[0] < |s.tasks|
    ensures var p := s.rqs[c].wakelist[0];
      && OnlyThese(s, s', p, p, c, c)
      && s'.tasks[p] == s.tasks[p].(cpu := c, onRq := Queued, state := Running)
      && s'.rqs[c].queue == s.rqs[c].queue + {p} && s.rqs[c].wakelist == [p] + s'.rqs[c].wakelist
      && s'.rqs[c].curr == s.rqs[c].curr && s'.rqs[c].mode == s.rqs[c].mode && s'.rqs[c].lock == s.rqs[c].lock
  {
  }

  /** A child starts with nvcsw and nivcsw at 0, but with its parent's process_switches_count; nobody can wake it. */
  lemma ForkMeans(s: State, c: Cpu, mm: Option<Mm>, s': State)
    requires Step(s, Fork(c, mm)) == Some(s')
    ensures c < |s.rqs| && s.rqs[c].curr < |s.tasks| && s'.rqs == s.rqs && |s'.tasks| == |s.tasks| + 1
    ensures s'.tasks[..|s.tasks|] == s.tasks
    ensures var parent, child := s.tasks[s.rqs[c].curr], s'.tasks[|s.tasks|];
      && child.state == New && child.onRq == Off && !child.onCpu && child.nvcsw == 0 && child.nivcsw == 0
      && child.switches == parent.switches && child.mm == mm && child.activeMm == mm && !child.inIowait
      && child.piLock.None?
  {
  }

  /** wake_up_new_task(): the child ends runnable in the runqueue of the CPU chosen for it. */
  lemma NewTaskMeans(s: State, c: Cpu, p: Tid, dest: Cpu, s1: State, s': State)
    requires Step(s, NewPlace(c, p, dest)) == Some(s1) && Step(s1, NewQueue(c)) == Some(s')
    ensures c < |s.rqs| && dest < |s.rqs| && p < |s.tasks| && OnlyThese(s, s', p, p, c, dest)
    ensures s.tasks[p].state == New && s.tasks[p].piLock == None
    ensures s'.tasks[p] == s.tasks[p].(state := Running, cpu := dest, onRq := Queued)
    ensures s'.rqs[dest].queue == s.rqs[dest].queue + {p}
  {
    assert s1.tasks[p] == s.tasks[p].(state := Running, cpu := dest, piLock := Some(c));
  }

  // ---------------------------------------------------------------- when a step can happen

  /** CPU c is not in the middle of a section that has interrupts off. */
  predicate Free(s: State, c: Cpu) { c < |s.rqs| && s.rqs[c].mode == Run }

  /**
   * __schedule() may go to any task in the runqueue, unless that is the one that goes to sleep; a signal only counts in
   * an interruptible or killable sleep; and the wait loop does not sleep before its test.
   */
  lemma CanScheduleMeans(s: State, c: Cpu, preempt: bool, signal: bool, frozen: bool, next: Tid)
    requires Inv(s) && c < |s.rqs| && s.rqs[c].curr < |s.tasks|
    ensures Enabled(s, Schedule(c, preempt, signal, frozen, next)) <==>
      var t := s.tasks[s.rqs[c].curr];
      && Free(s, c) && s.rqs[c].lock == None && next in s.rqs[c].queue
      && (signal ==> !preempt && Bits(t.state) * {INTERRUPTIBLE, WAKEKILL} != {})
      && (Sleeps(t, preempt, signal) ==> next != s.rqs[c].curr) && (!preempt ==> !t.pc.StateSet?)
  {
    assert CpuOk(s.rqs[c], |s.rqs|, |s.tasks|);
    MatchesMeans(CurrTask(s, c).state, {INTERRUPTIBLE, WAKEKILL});
  }

  /**
   * A wakeup can begin once p->pi_lock is free, a wakelist be drained once the runqueue's lock is.  A waker of the wait
   * loop pays with it what it owes, with a mask that the loop's state matches.
   */
  lemma CanWakeMeans(s: State, c: Cpu, p: Tid, mask: set<SleepBit>, owing: bool)
    requires Inv(s) && c < |s.rqs| && p < |s.tasks|
    ensures Enabled(s, TtwuBegin(c, p, mask, owing)) <==>
      && Free(s, c) && p != s.rqs[c].curr && s.tasks[p].piLock == None
      && (owing ==> s.tasks[p].owed > 0 && UNINTERRUPTIBLE in mask)
    ensures p == s.rqs[c].curr ==> (Enabled(s, WakeSelf(c, mask, owing)) <==>
      Free(s, c) && (owing ==> s.tasks[p].owed > 0 && UNINTERRUPTIBLE in mask))
    ensures Enabled(s, LockRead(c, p)) <==> Free(s, c) && s.tasks[p].piLock == None
    ensures Enabled(s, Drain(c)) <==> Free(s, c) && s.rqs[c].lock == None && s.rqs[c].wakelist != []
  {
    assert CpuOk(s.rqs[c], |s.rqs|, |s.tasks|);
  }

  /** What may be migrated: a queued task, but not an idle one; off every CPU unless the stopper does it. */
  lemma CanMoveMeans(s: State, c: Cpu, p: Tid, dest: Cpu)
    requires Inv(s) && c < |s.rqs| && p < |s.tasks| && dest < |s.rqs|
    ensures s.tasks[p].cpu < |s.rqs|
    ensures var t, src := s.tasks[p], s.rqs[s.tasks[p].cpu];
      && (Enabled(s, StopperDetach(c, p, dest)) <==>
        && Free(s, c) && s.rqs[c].lock == None && s.rqs[c].curr == s.rqs[c].stop
        && p !in {s.rqs[c].stop, s.rqs[c].idle} && t.piLock == None && t.cpu == c && t.onRq == Queued)
      && (Enabled(s, BalanceDetach(c, p, dest)) <==>
        Free(s, c) && src.lock == None && t.onRq == Queued && !t.onCpu && p != src.idle)
  {
    assert CpuOk(s.rqs[c], |s.rqs|, |s.tasks|) && TaskOk(s.tasks[p], |s.rqs|);
  }

  /** Under task_rq_lock(): any queued task that is neither running nor idle. */
  lemma CanLockedDetachMeans(s: State, c: Cpu, p: Tid, g: Cpu, dest: Cpu)
    requires Inv(s) && c < |s.rqs| && s.rqs[c].mode == LockHeld(p, g)
    ensures p < |s.tasks| && g < |s.rqs| && Enabled(s, LockDrop(c))
    ensures Enabled(s, LockedDetach(c, dest)) <==>
      dest < |s.rqs| && s.tasks[p].onRq == Queued && !s.tasks[p].onCpu && p != s.rqs[g].idle
  {
    assert CpuOk(s.rqs[c], |s.rqs|, |s.tasks|) && Known(s, p, c);
  }

  /** The exchange: between two stoppers, with all four locks free and two tasks that are neither stopper nor idle. */
  lemma CanSwapMeans(s: State, src: Cpu, dst: Cpu, p: Tid, q: Tid, allowed: bool)
    requires Inv(s) && src < |s.rqs| && dst < |s.rqs| && p < |s.tasks| && q < |s.tasks|
    ensures Enabled(s, Swap(src, dst, p, q, allowed)) <==>
      && src != dst && p != q && Free(s, src) && Free(s, dst) && s.rqs[src].lock == None && s.rqs[dst].lock == None
      && s.rqs[src].curr == s.rqs[src].stop && s.rqs[dst].curr == s.rqs[dst].stop
      && p !in {s.rqs[src].stop, s.rqs[src].idle} && q !in {s.rqs[dst].stop, s.rqs[dst].idle}
      && s.tasks[p].piLock == None && s.tasks[q].piLock == None
  {
    assert CpuOk(s.rqs[src], |s.rqs|, |s.tasks|) && CpuOk(s.rqs[dst], |s.rqs|, |s.tasks|);
  }

  /** Any task but an idle one may set itself sleeping, a special state only under its pi_lock. */
  lemma CanSetStateMeans(s: State, c: Cpu, st: TaskState)
    requires c < |s.rqs| && s.rqs[c].curr < |s.tasks|
    ensures Enabled(s, SetState(c, st)) <==>
      && Free(s, c) && (st == Running || (st.Sleeping? && s.rqs[c].curr != s.rqs[c].idle))
      && (Bits(st) * {STOPPED, TRACED, PARKED, DEAD} != {} ==> s.tasks[s.rqs[c].curr].piLock == None)
  {
    assert Special(st) <==> Bits(st) * {STOPPED, TRACED, PARKED, DEAD} != {} by {
      if b :| b in Bits(st) * {STOPPED, TRACED, PARKED, DEAD} { assert b in st.bits; }
      if Special(st) {
        var b :| b in st.bits && b in {STOPPED, TRACED, PARKED, DEAD};
        assert b in Bits(st) * {STOPPED, TRACED, PARKED, DEAD};
      }
    }
  }

  /** The running task may fork at any time; a new task is placed once. */
  lemma CanForkMeans(s: State, c: Cpu, p: Tid, dest: Cpu, mm: Option<Mm>)
    requires Inv(s) && c < |s.rqs| && p < |s.tasks| && s.rqs[c].curr < |s.tasks|
    ensures Enabled(s, Fork(c, mm)) <==> Free(s, c)
    ensures Enabled(s, NewPlace(c, p, dest)) <==>
      Free(s, c) && dest < |s.rqs| && s.tasks[p].state == New && s.tasks[p].piLock == None
  {
  }

  /** The running task may do this to itself at any time; the wait loop sets the state, tests, and sleeps or leaves. */
  lemma CanOwnMeans(s: State, c: Cpu)
    requires c < |s.rqs| && s.rqs[c].curr < |s.tasks|
    ensures Enabled(s, StartCount(c)) <==> Free(s, c)
    ensures Enabled(s, StopCount(c)) <==> Free(s, c)
  {
  }

  lemma CanLoopMeans(s: State, c: Cpu)
    requires c < |s.rqs| && s.rqs[c].curr < |s.tasks|
    ensures Enabled(s, LoopSet(c)) <==>
      Free(s, c) && !s.tasks[s.rqs[c].curr].pc.StateSet? && s.rqs[c].curr != s.rqs[c].idle
    ensures Enabled(s, LoopTest(c)) <==>
      var t := s.tasks[s.rqs[c].curr]; Free(s, c) && t.pc.StateSet? && t.needSleep
    ensures Enabled(s, LoopExit(c)) <==>
      var t := s.tasks[s.rqs[c].curr]; Free(s, c) && t.pc.StateSet? && !t.needSleep
  {
  }

  // ---------------------------------------------------------------- the running task

  /** What the task running on c does to itself. */
  lemma OwnMeans(s: State, e: Event, s': State)
    requires OwnEvent(e) && Step(s, e) == Some(s')
    ensures e.c < |s.rqs| && s.rqs[e.c].curr < |s.tasks| && s'.rqs == s.rqs
    ensures var p := s.rqs[e.c].curr; var t := s.tasks[p];
      s'.tasks == s.tasks[p := match e
        case SetState(_, st) => t.(state := st, pc := Outside)
        case SetIowait(_, b) => t.(inIowait := b)
        case StartCount(_) => t.(switches := 0)
        case _ => t]
  {
    assert s.tasks[s.rqs[e.c].curr := s.tasks[s.rqs[e.c].curr]] == s.tasks;
  }

  lemma LoopMeans(s: State, e: Event, s': State)
    requires (e.LoopArm? || e.LoopSet? || e.LoopTest? || e.LoopExit?) && Step(s, e) == Some(s')
    ensures e.c < |s.rqs| && s.rqs[e.c].curr < |s.tasks| && s'.rqs == s.rqs
    ensures var p := s.rqs[e.c].curr; var t := s.tasks[p];
      s'.tasks == s.tasks[p := match e
        case LoopArm(_) => t.(needSleep := true, pc := Outside)
        case LoopSet(_) => t.(state := Sleeping({UNINTERRUPTIBLE}), pc := StateSet)
        case LoopTest(_) => t.(pc := Tested)
        case LoopExit(_) => t.(state := Running, pc := Outside)]
    ensures e.LoopTest? ==> s.tasks[s.rqs[e.c].curr].needSleep
    ensures e.LoopExit? ==> !s.tasks[s.rqs[e.c].curr].needSleep
  {
  }

  // ---------------------------------------------------------------- task_rq_lock

  /** The locks are kept exactly if the runqueue is still the task's own and the task is not migrating. */
  lemma LockCheckMeans(s: State, c: Cpu, s': State)
    requires Step(s, LockCheck(c)) == Some(s')
    ensures c < |s.rqs| && s.rqs[c].mode.LockGuess? && s.rqs[c].mode.p < |s.tasks| && s.rqs[c].mode.g < |s.rqs|
    ensures var p, g := s.rqs[c].mode.p, s.rqs[c].mode.g;
      && OnlyThese(s, s', p, p, c, g)
      && if s.tasks[p].cpu == g && !s.tasks[p].onRq.Migrating? then
           s'.rqs[c].mode == LockHeld(p, g) && s'.rqs[g].lock == Some(c) && s'.tasks[p] == s.tasks[p]
         else
           s'.rqs == s.rqs[c := s.rqs[c].(mode := Run)] && s'.tasks[p] == s.tasks[p].(piLock := None)
  {
  }

  // ---------------------------------------------------------------- migration

  /** The first half of a migration: out of its runqueue, on its way to dest, in the hands of c. */
  predicate Detached(s: State, s': State, c: Cpu, p: Tid, dest: Cpu, pi: bool) {
    && c < |s.rqs| == |s'.rqs| && p < |s.tasks| == |s'.tasks| && s.tasks[p].cpu < |s.rqs|
    && s'.tasks[p].cpu == dest && s'.tasks[p].onRq == Migrating(c) && s'.rqs[c].mode == Carrying(p, dest, pi)
    && s'.rqs[s.tasks[p].cpu].queue == s.rqs[s.tasks[p].cpu].queue - {p}
    && s'.tasks[p].state == s.tasks[p].state && s'.tasks[p].onCpu == s.tasks[p].onCpu
  }

  lemma StopperDetachMeans(s: State, c: Cpu, p: Tid, dest: Cpu, s': State)
    requires Step(s, StopperDetach(c, p, dest)) == Some(s')
    ensures Detached(s, s', c, p, dest, true) && OnlyThese(s, s', p, p, c, c) && s'.tasks[p].piLock == Some(c)
  {
  }

  lemma BalanceDetachMeans(s: State, c: Cpu, p: Tid, dest: Cpu, s': State)
    requires Step(s, BalanceDetach(c, p, dest)) == Some(s')
    ensures Detached(s, s', c, p, dest, false) && OnlyThese(s, s', p, p, c, s.tasks[p].cpu)
    ensures s'.tasks[p].piLock == s.tasks[p].piLock
  {
  }

  lemma LockedDetachMeans(s: State, c: Cpu, dest: Cpu, s': State)
    requires Step(s, LockedDetach(c, dest)) == Some(s')
    ensures c < |s.rqs| && s.rqs[c].mode.LockHeld? && s.rqs[c].mode.g < |s.rqs|
    ensures var p, g := s.rqs[c].mode.p, s.rqs[c].mode.g;
      && Detached(s, s', c, p, dest, true) && OnlyThese(s, s', p, p, c, g) && s'.rqs[g].lock.None?
      && s'.tasks[p].piLock == s.tasks[p].piLock
  {
  }

  /** The second half: queued on the CPU it was carried to. */
  lemma AttachMeans(s: State, c: Cpu, p: Tid, dest: Cpu, pi: bool, s': State)
    requires Step(s, Attach(c)) == Some(s') && s.rqs[c].mode == Carrying(p, dest, pi)
    ensures OnlyThese(s, s', p, p, c, dest) && s'.rqs[c].mode.Run?
    ensures dest < |s.rqs| && s'.rqs[dest].queue == s.rqs[dest].queue + {p}
    ensures s'.tasks[p] == s.tasks[p].(onRq := Queued, piLock := if pi then None else s.tasks[p].piLock)
  {
  }

  /** __migrate_swap_task() */
  lemma MoveIfQueuedMeans(s: State, p: Tid, from: Cpu, to: Cpu)
    requires IsTask(s, p) && IsCpu(s, from) && IsCpu(s, to) && s.tasks[p].cpu == from && from != to
    ensures var s', q := MoveIfQueued(s, p, from, to), s.tasks[p].onRq.Queued?;
      && OnlyThese(s, s', p, p, from, to) && s'.tasks[p] == s.tasks[p].(cpu := if q then to else from)
      && s'.rqs[from] == s.rqs[from].(queue := if q then s.rqs[from].queue - {p} else s.rqs[from].queue)
      && s'.rqs[to] == s.rqs[to].(queue := if q then s.rqs[to].queue + {p} else s.rqs[to].queue)
  {
    if !s.tasks[p].onRq.Queued? { assert s.tasks[p] == s.tasks[p].(cpu := from); }
  }

  /** migrate_swap_stop(): two queued tasks that are found in their places, and may, change them. */
  lemma SwapMeans(s: State, src: Cpu, dst: Cpu, p: Tid, q: Tid, allowed: bool)
    requires CanSwap(s, src, dst, p, q)
    ensures var s', pq, qq := DoSwap(s, src, dst, p, q, allowed), s.tasks[p].onRq.Queued?, s.tasks[q].onRq.Queued?;
      if s.tasks[p].cpu == src && s.tasks[q].cpu == dst && allowed then
        && OnlyThese(s, s', p, q, src, dst)
        && s'.tasks[p] == s.tasks[p].(cpu := if pq then dst else src)
        && s'.tasks[q] == s.tasks[q].(cpu := if qq then src else dst)
        && (pq ==> p in s'.rqs[dst].queue && p !in s'.rqs[src].queue)
        && (qq ==> q in s'.rqs[src].queue && q !in s'.rqs[dst].queue)
      else s' == s
  {
    if s.tasks[p].cpu == src && s.tasks[q].cpu == dst && allowed {
      MoveIfQueuedMeans(s, p, src, dst);
      MoveIfQueuedMeans(MoveIfQueued(s, p, src, dst), q, dst, src);
    }
  }
}
