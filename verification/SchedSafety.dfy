/** What the invariant means for the scheduler: placement, wakelists, and the stability task_rq_lock() promises. */
module SchedSafety {
  import opened Wrappers
  import opened SchedState
  import opened SchedInvariant

  predicate IsCurr(s: State, p: Tid, c: Cpu) { IsCpu(s, c) && s.rqs[c].curr == p }
  predicate InQueue(s: State, p: Tid, c: Cpu) { IsCpu(s, c) && p in s.rqs[c].queue }
  predicate InWakelist(s: State, p: Tid, c: Cpu) { IsCpu(s, c) && p in s.rqs[c].wakelist }

  /** In every reachable state a task is current on at most one CPU, which is its own and on which it is queued. */
  lemma CurrentOnce(s: State, es: seq<Event>, p: Tid, c: Cpu, d: Cpu)
    requires Boot(s) && ValidRun(s, es)
    requires IsCurr(Final(s, es), p, c) && IsTask(Final(s, es), p)
    ensures var t := Final(s, es).tasks[p]; t.cpu == c && t.onRq.Queued? && t.onCpu
    ensures IsCurr(Final(s, es), p, d) ==> c == d
  {
    ReachableInv(s, es);
    var f := Final(s, es);
    assert Known(f, p, c);
    if IsCurr(f, p, d) { assert Known(f, p, d); }
  }

  /** A task sits in at most one runqueue or wakelist, and is QUEUED exactly in the runqueue of its cpu. */
  lemma PlacedOnce(s: State, es: seq<Event>, p: Tid, c: Cpu, d: Cpu)
    requires Boot(s) && ValidRun(s, es) && IsTask(Final(s, es), p) && IsCpu(Final(s, es), c)
    ensures var f := Final(s, es);
      && (InQueue(f, p, c) <==> f.tasks[p].onRq.Queued? && f.tasks[p].cpu == c)
      && (InQueue(f, p, c) && InQueue(f, p, d) ==> c == d)
      && (InWakelist(f, p, c) && InWakelist(f, p, d) ==> c == d)
      && !(InQueue(f, p, c) && InWakelist(f, p, d))
      && (InWakelist(f, p, c) ==> multiset(f.rqs[c].wakelist)[p] == 1)
  {
    ReachableInv(s, es);
    var f := Final(s, es);
    assert Known(f, p, c);
    if IsCpu(f, d) { assert Known(f, p, d); }
    if p in f.rqs[c].wakelist { OnceInDistinct(f.rqs[c].wakelist, p); }
  }

  /** A task that __schedule() picks and switches to is claimed by no CPU: not running, not being switched away from. */
  lemma PickIsOffCpu(s: State, es: seq<Event>, c: Cpu, preempt: bool, signal: bool, next: Tid, d: Cpu)
    requires Boot(s) && ValidRun(s, es)
    requires CanSchedule(Final(s, es), c, preempt, signal, next) && next != Curr(Final(s, es), c)
      && IsCpu(Final(s, es), d)
    ensures !Final(s, es).tasks[next].onCpu
    ensures Final(s, es).rqs[d].curr != next && Final(s, es).rqs[d].mode != Switching(next)
  {
    ReachableInv(s, es);
    var f := Final(s, es);
    assert Known(f, next, c) && Known(f, next, d);
    assert LockOk(c, f.rqs[c].mode, c, f.rqs[c].lock);
  }

  /** Neither warning of sched_ttwu_pending() fires, for any entry of the list that is drained. */
  lemma DrainNeverWarns(s: State, es: seq<Event>, c: Cpu, i: nat)
    requires Boot(s) && ValidRun(s, es) && CanDrain(Final(s, es), c) && i < |Final(s, es).rqs[c].wakelist|
    ensures var f := Final(s, es); var p := f.rqs[c].wakelist[i];
      IsTask(f, p) && !f.tasks[p].onCpu && f.tasks[p].cpu == c && f.tasks[p].onRq.Off?
  {
    ReachableInv(s, es);
    var f := Final(s, es);
    var p := f.rqs[c].wakelist[i];
    assert CpuOk(f.rqs[c], |f.rqs|, |f.tasks|);
    assert Known(f, p, c) && Known(f, f.rqs[c].curr, c);
  }

  /**
   * The other checks in the protocol: a waker never puts a task on the wakelist of its own CPU, and a mover finds
   * it where it put it.
   */
  lemma ProtocolNeverWarns(s: State, es: seq<Event>, c: Cpu)
    requires Boot(s) && ValidRun(s, es)
    ensures var f := Final(s, es);
      && (AtPhase(f, c, SawOnCpu) ==> Target(f, c).cpu != c)
      && (CanAttach(f, c) ==> f.tasks[f.rqs[c].mode.p].cpu == f.rqs[c].mode.dest)
      && (CanTtwuQueue(f, c) ==> Target(f, c).onRq.Off? && !Target(f, c).onCpu)
  {
    ReachableInv(s, es);
    var f := Final(s, es);
    if InTtwu(f, c) { assert Known(f, f.rqs[c].mode.p, c); }
    if CanAttach(f, c) { assert Known(f, f.rqs[c].mode.p, c); }
  }

  // ---------------------------------------------------------------- task_rq_lock

  /** CPU c has returned from task_rq_lock() on p with the lock of runqueue g. */
  predicate Locked(s: State, c: Cpu, p: Tid, g: Cpu) {
    IsCpu(s, c) && s.rqs[c].mode == LockHeld(p, g)
  }

  /** When task_rq_lock() returns, the locked runqueue is the task's own and the task is not migrating. */
  lemma LockedIsOwn(s: State, es: seq<Event>, c: Cpu, p: Tid, g: Cpu)
    requires Boot(s) && ValidRun(s, es) && Locked(Final(s, es), c, p, g)
    ensures var f := Final(s, es);
      && IsTask(f, p) && IsCpu(f, g) && f.tasks[p].cpu == g && !f.tasks[p].onRq.Migrating?
      && f.rqs[g].lock == Some(c) && f.tasks[p].piLock == Some(c)
      && (f.tasks[p].onRq.Queued? <==> p in f.rqs[g].queue)
  {
    ReachableInv(s, es);
    var f := Final(s, es);
    assert CpuOk(f.rqs[c], |f.rqs|, |f.tasks|) && Known(f, p, c) && Known(f, p, g);
    assert LockOk(c, f.rqs[c].mode, g, f.rqs[g].lock);
  }

  /** What the two locks pin down. */
  predicate Pinned(t: Task, s': State, c: Cpu, p: Tid, g: Cpu) {
    Locked(s', c, p, g) && IsTask(s', p) && s'.tasks[p].cpu == g && s'.tasks[p].onRq == t.onRq
      && s'.tasks[p].onCpu == t.onCpu
  }

  /** The event by which CPU c gives up what task_rq_lock() took. */
  predicate Drops(e: Event, c: Cpu) { e == LockDrop(c) || (e.LockedDetach? && e.c == c) }

  /** The task a CPU is working on. */
  function WorksOn(m: Mode): Option<Tid> {
    match m
    case Run => None
    case Switched => None
    case Switching(p) => Some(p)
    case Ttwu(p, _, _) => Some(p)
    case NewPlaced(p) => Some(p)
    case Carrying(p, _, _) => Some(p)
    case LockGuess(p, _) => Some(p)
    case LockHeld(p, _) => Some(p)
  }

  /** CPU c holds both locks of p, and no other CPU works on p. */
  ghost predicate Alone(s: State, c: Cpu, p: Tid, g: Cpu) {
    && Locked(s, c, p, g) && IsTask(s, p) && IsCpu(s, g)
    && s.tasks[p].piLock == Some(c) && s.rqs[g].lock == Some(c) && s.tasks[p].cpu == g && !s.tasks[p].onRq.Migrating?
    && (forall d :: 0 <= d < |s.rqs| && d != c ==> WorksOn(s.rqs[d].mode) != Some(p))
    && (forall d :: 0 <= d < |s.rqs| && s.rqs[d].lock == Some(c) ==> d == g)
    && (forall d :: 0 <= d < |s.rqs| && |s.rqs[d].wakelist| > 0 && s.rqs[d].wakelist[0] == p ==> d == g)
    && (forall d :: 0 <= d < |s.rqs| && d != c && s.rqs[d].mode.LockHeld? ==> s.rqs[d].mode.g != g)
    && (forall d :: 0 <= d < |s.rqs| && s.rqs[d].lock.None? ==> s.rqs[d].curr != p && p !in s.rqs[d].queue)
    && !s.rqs[g].mode.Switched?
  }

  lemma LockedAlone(s: State, c: Cpu, p: Tid, g: Cpu)
    requires Inv(s) && Locked(s, c, p, g)
    ensures Alone(s, c, p, g)
  {
    assert CpuOk(s.rqs[c], |s.rqs|, |s.tasks|) && Known(s, p, c) && Known(s, p, g);
    assert LockOk(c, s.rqs[c].mode, g, s.rqs[g].lock) && LockOk(g, s.rqs[g].mode, g, s.rqs[g].lock);
    forall d | 0 <= d < |s.rqs| ensures
      && (d != c ==> WorksOn(s.rqs[d].mode) != Some(p))
      && (s.rqs[d].lock == Some(c) ==> d == g)
      && (|s.rqs[d].wakelist| > 0 && s.rqs[d].wakelist[0] == p ==> d == g)
      && (d != c && s.rqs[d].mode.LockHeld? ==> s.rqs[d].mode.g != g)
      && (s.rqs[d].lock.None? ==> s.rqs[d].curr != p && p !in s.rqs[d].queue)
    {
      assert Known(s, p, d) && LockOk(c, s.rqs[c].mode, d, s.rqs[d].lock) && LockOk(d, s.rqs[d].mode, g, s.rqs[g].lock);
    }
  }

  lemma LoopStable(s: State, e: Event, c: Cpu, p: Tid, g: Cpu)
    requires Alone(s, c, p, g) && StepLoop(s, e).Some? && !Drops(e, c)
    ensures Pinned(s.tasks[p], StepLoop(s, e).value, c, p, g)
  {
  }

  lemma OwnStable(s: State, e: Event, c: Cpu, p: Tid, g: Cpu)
    requires Alone(s, c, p, g) && StepOwn(s, e).Some? && !Drops(e, c)
    ensures Pinned(s.tasks[p], StepOwn(s, e).value, c, p, g)
  {
  }

  lemma LockStable(s: State, e: Event, c: Cpu, p: Tid, g: Cpu)
    requires Alone(s, c, p, g) && StepLock(s, e).Some? && !Drops(e, c)
    ensures Pinned(s.tasks[p], StepLock(s, e).value, c, p, g)
  {
  }

  lemma SwapStable(s: State, src: Cpu, dst: Cpu, q: Tid, r: Tid, allowed: bool, c: Cpu, p: Tid, g: Cpu)
    requires Alone(s, c, p, g) && CanSwap(s, src, dst, q, r)
    ensures Pinned(s.tasks[p], DoSwap(s, src, dst, q, r, allowed), c, p, g)
  {
  }

  lemma MoveStable(s: State, e: Event, c: Cpu, p: Tid, g: Cpu)
    requires Alone(s, c, p, g) && StepMove(s, e).Some? && !Drops(e, c)
    ensures Pinned(s.tasks[p], StepMove(s, e).value, c, p, g)
  {
    if e.Swap? { SwapStable(s, e.src, e.dst, e.p, e.q, e.allowed, c, p, g); }
  }

  lemma TtwuQueueStable(s: State, d: Cpu, c: Cpu, p: Tid, g: Cpu)
    requires Alone(s, c, p, g) && CanTtwuQueue(s, d)
    ensures Pinned(s.tasks[p], DoTtwuQueue(s, d), c, p, g)
  {
  }

  lemma ListStable(s: State, d: Cpu, dest: Cpu, migrated: bool, c: Cpu, p: Tid, g: Cpu)
    requires Alone(s, c, p, g) && InTtwu(s, d) && IsCpu(s, dest)
    ensures Pinned(s.tasks[p], PushWakelist(s, d, dest, migrated), c, p, g)
  {
  }

  lemma PlaceStable(s: State, e: Event, c: Cpu, p: Tid, g: Cpu)
    requires Alone(s, c, p, g) && StepPlace(s, e).Some? && !Drops(e, c)
    ensures Pinned(s.tasks[p], StepPlace(s, e).value, c, p, g)
  {
    if e.TtwuQueue? { TtwuQueueStable(s, e.c, c, p, g); }
    else if e.TtwuListOnCpu? { ListStable(s, e.c, Target(s, e.c).cpu, false, c, p, g); }
    else if e.TtwuQueueList? { ListStable(s, e.c, Target(s, e.c).cpu, s.rqs[e.c].mode.ph.migrated, c, p, g); }
  }

  lemma TtwuLockedStable(s: State, d: Cpu, c: Cpu, p: Tid, g: Cpu)
    requires Alone(s, c, p, g) && CanTtwuLocked(s, d)
    ensures Pinned(s.tasks[p], DoTtwuLocked(s, d), c, p, g)
  {
  }

  lemma TtwuClaimStable(s: State, d: Cpu, c: Cpu, p: Tid, g: Cpu)
    requires Alone(s, c, p, g) && CanTtwuClaim(s, d)
    ensures Pinned(s.tasks[p], DoTtwuClaim(s, d), c, p, g)
  {
  }

  lemma TtwuBeginStable(s: State, d: Cpu, q: Tid, mask: set<SleepBit>, owing: bool, c: Cpu, p: Tid, g: Cpu)
    requires Alone(s, c, p, g) && CanTtwuBegin(s, d, q, mask, owing)
    ensures Pinned(s.tasks[p], DoTtwuBegin(s, d, q, mask, owing), c, p, g)
  {
  }

  lemma WakeStable(s: State, e: Event, c: Cpu, p: Tid, g: Cpu)
    requires Alone(s, c, p, g) && StepWake(s, e).Some? && !Drops(e, c)
    ensures Pinned(s.tasks[p], StepWake(s, e).value, c, p, g)
  {
    if e.TtwuBegin? { TtwuBeginStable(s, e.c, e.p, e.mask, e.owing, c, p, g); }
    else if e.TtwuLocked? { TtwuLockedStable(s, e.c, c, p, g); }
    else if e.TtwuClaim? { TtwuClaimStable(s, e.c, c, p, g); }
  }

  lemma DrainStable(s: State, d: Cpu, c: Cpu, p: Tid, g: Cpu)
    requires Alone(s, c, p, g) && CanDrain(s, d)
    ensures Pinned(s.tasks[p], DoDrain(s, d), c, p, g)
  {
  }

  lemma ArriveStable(s: State, e: Event, c: Cpu, p: Tid, g: Cpu)
    requires Alone(s, c, p, g) && StepArrive(s, e).Some? && !Drops(e, c)
    ensures Pinned(s.tasks[p], StepArrive(s, e).value, c, p, g)
  {
    if e.Drain? { DrainStable(s, e.c, c, p, g); }
  }

  lemma SwitchStable(s: State, e: Event, c: Cpu, p: Tid, g: Cpu)
    requires Alone(s, c, p, g) && StepSwitch(s, e).Some?
    ensures Pinned(s.tasks[p], StepSwitch(s, e).value, c, p, g)
  {
    if e.Schedule? { ScheduleEffect(s, e.c, e.preempt, e.signal, e.frozen, e.next); }
  }

  lemma StepStable(s: State, e: Event, c: Cpu, p: Tid, g: Cpu)
    requires Alone(s, c, p, g) && Enabled(s, e) && !Drops(e, c)
    ensures Pinned(s.tasks[p], Apply(s, e), c, p, g)
  {
    if SwitchEvent(e) { SwitchStable(s, e, c, p, g); }
    else if ArriveEvent(e) { ArriveStable(s, e, c, p, g); }
    else if WakeEvent(e) { WakeStable(s, e, c, p, g); }
    else if PlaceEvent(e) { PlaceStable(s, e, c, p, g); }
    else if MoveEvent(e) { MoveStable(s, e, c, p, g); }
    else if LockEvent(e) { LockStable(s, e, c, p, g); }
    else if OwnEvent(e) { OwnStable(s, e, c, p, g); }
    else { LoopStable(s, e, c, p, g); }
  }

  /**
   * From the return of task_rq_lock() until that CPU drops the locks, in every interleaving the task keeps its CPU,
   * its on_rq and its on_cpu, and the CPU keeps both locks.
   */
  lemma {:induction false} TaskRqLockHolds(s: State, es: seq<Event>, c: Cpu, p: Tid, g: Cpu)
    requires Inv(s) && IsTask(s, p) && Locked(s, c, p, g) && ValidRun(s, es)
    requires forall i :: 0 <= i < |es| ==> !Drops(es[i], c)
    ensures Pinned(s.tasks[p], Final(s, es), c, p, g)
    ensures IsCpu(Final(s, es), g) && Final(s, es).rqs[g].lock == Some(c) && Final(s, es).tasks[p].piLock == Some(c)
    decreases |es|
  {
    LockedAlone(s, c, p, g);
    if |es| > 0 {
      StepStable(s, es[0], c, p, g);
      StepInv(s, es[0]);
      TaskRqLockHolds(Apply(s, es[0]), es[1..], c, p, g);
    }
  }
}
