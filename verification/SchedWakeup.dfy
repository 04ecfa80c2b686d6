/** The wait loop of sched.h:156-172 against its waker: no wakeup is lost. */
module SchedWakeup {
  import opened Wrappers
  import opened SchedState
  import opened SchedInvariant

  /** A waker that has cleared the condition of p is inside its wake_up_state() call. */
  predicate WakerInside(s: State, p: Tid)
    requires IsTask(s, p)
  {
    var w := s.tasks[p].piLock;
    w.Some? && IsCpu(s, w.value) && s.rqs[w.value].mode.Ttwu? && s.rqs[w.value].mode.p == p && s.rqs[w.value].mode.owing
  }

  /** A waker has cleared the condition of p and has not finished its wake_up_state() call. */
  predicate WakerBusy(s: State, p: Tid)
    requires IsTask(s, p)
  { s.tasks[p].owed > 0 || WakerInside(s, p) }

  /**
   * Inside the loop only UNINTERRUPTIBLE is slept in, only past the test, and never against a cleared condition
   * and no waker.
   */
  predicate LoopOk(s: State, p: Tid) {
    p < |s.tasks| ==>
    var t := s.tasks[p];
    && (!t.pc.Outside? ==>
      && !t.state.New? && !(t.onRq.Off? && t.state.Running?)
      && (t.state.Sleeping? ==> t.state.bits == {UNINTERRUPTIBLE}))
    && (t.pc.StateSet? ==> !t.onRq.Off?)
    && (t.pc.Tested? && !t.needSleep && t.state.Sleeping? ==> WakerBusy(s, p))
  }

  ghost predicate WaitInv(s: State) { forall p :: 0 <= p < |s.tasks| ==> LoopOk(s, p) }

  /** All that the steps need to know about task p. */
  ghost predicate LoopPre(s: State, p: Tid) {
    p < |s.tasks| ==>
    && LoopOk(s, p) && TaskOk(s.tasks[p], |s.rqs|)
    && (forall d :: 0 <= d < |s.rqs| ==> WorkOk(p, s.tasks[p], d, s.rqs[d].mode))
    && (forall d :: 0 <= d < |s.rqs| && s.rqs[d].curr == p ==> s.tasks[p].onRq.Queued?)
  }

  lemma LoopLoop(s: State, e: Event, p: Tid)
    requires LoopPre(s, p) && StepLoop(s, e).Some?
    ensures LoopOk(StepLoop(s, e).value, p)
  {
  }

  lemma OwnLoop(s: State, e: Event, p: Tid)
    requires LoopPre(s, p) && StepOwn(s, e).Some?
    ensures LoopOk(StepOwn(s, e).value, p)
  {
  }

  lemma LockCheckLoop(s: State, d: Cpu, p: Tid)
    requires LoopPre(s, p) && CanLockCheck(s, d)
    ensures LoopOk(DoLockCheck(s, d), p)
  {
  }

  lemma LockedDetachLoop(s: State, d: Cpu, dest: Cpu, p: Tid)
    requires LoopPre(s, p) && CanLockedDetach(s, d, dest)
    ensures LoopOk(DoLockedDetach(s, d, dest), p)
  {
  }

  lemma LockLoop(s: State, e: Event, p: Tid)
    requires LoopPre(s, p) && StepLock(s, e).Some?
    ensures LoopOk(StepLock(s, e).value, p)
  {
    match e
    case LockCheck(d) => LockCheckLoop(s, d, p);
    case LockedDetach(d, dest) => LockedDetachLoop(s, d, dest, p);
    case _ =>
  }

  lemma AttachLoop(s: State, d: Cpu, p: Tid)
    requires LoopPre(s, p) && CanAttach(s, d)
    ensures LoopOk(DoAttach(s, d), p)
  {
  }

  lemma MoveIfQueuedLoop(s: State, q: Tid, src: Cpu, dst: Cpu, p: Tid)
    requires IsTask(s, q) && IsCpu(s, src) && IsCpu(s, dst) && LoopOk(s, p)
    ensures LoopOk(MoveIfQueued(s, q, src, dst), p)
  {
  }

  lemma SwapLoop(s: State, src: Cpu, dst: Cpu, q: Tid, r: Tid, allowed: bool, p: Tid)
    requires LoopPre(s, p) && CanSwap(s, src, dst, q, r)
    ensures LoopOk(DoSwap(s, src, dst, q, r, allowed), p)
  {
    MoveIfQueuedLoop(s, q, src, dst, p);
    MoveIfQueuedLoop(MoveIfQueued(s, q, src, dst), r, dst, src, p);
  }

  lemma MoveLoop(s: State, e: Event, p: Tid)
    requires LoopPre(s, p) && StepMove(s, e).Some?
    ensures LoopOk(StepMove(s, e).value, p)
  {
    if e.Attach? { AttachLoop(s, e.c, p); }
    else if e.Swap? { SwapLoop(s, e.src, e.dst, e.p, e.q, e.allowed, p); }
  }

  lemma TtwuQueueLoop(s: State, d: Cpu, p: Tid)
    requires LoopPre(s, p) && CanTtwuQueue(s, d)
    ensures LoopOk(DoTtwuQueue(s, d), p)
  {
  }

  lemma PushWakelistLoop(s: State, c: Cpu, d: Cpu, remote: bool, p: Tid)
    requires LoopPre(s, p) && InTtwu(s, c) && IsCpu(s, d)
    requires ClaimedPhase(s.rqs[c].mode.ph)
    ensures LoopOk(PushWakelist(s, c, d, remote), p)
  {
  }

  lemma PlaceLoop(s: State, e: Event, p: Tid)
    requires LoopPre(s, p) && StepPlace(s, e).Some?
    ensures LoopOk(StepPlace(s, e).value, p)
  {
    match e
    case TtwuListOnCpu(d) => PushWakelistLoop(s, d, Target(s, d).cpu, false, p);
    case TtwuQueueList(d) => PushWakelistLoop(s, d, Target(s, d).cpu, s.rqs[d].mode.ph.migrated, p);
    case TtwuQueue(d) => TtwuQueueLoop(s, d, p);
    case _ =>
  }

  lemma TtwuLockedLoop(s: State, d: Cpu, p: Tid)
    requires LoopPre(s, p) && CanTtwuLocked(s, d)
    ensures LoopOk(DoTtwuLocked(s, d), p)
  {
  }

  lemma WakeSelfLoop(s: State, d: Cpu, mask: set<SleepBit>, owing: bool, p: Tid)
    requires LoopPre(s, p) && CanWakeSelf(s, d, mask, owing)
    ensures LoopOk(DoWakeSelf(s, d, mask, owing), p)
  {
  }

  lemma TtwuBeginLoop(s: State, d: Cpu, q: Tid, mask: set<SleepBit>, owing: bool, p: Tid)
    requires LoopPre(s, p) && CanTtwuBegin(s, d, q, mask, owing)
    ensures LoopOk(DoTtwuBegin(s, d, q, mask, owing), p)
  {
  }

  lemma WakeLoop(s: State, e: Event, p: Tid)
    requires LoopPre(s, p) && StepWake(s, e).Some?
    ensures LoopOk(StepWake(s, e).value, p)
  {
    match e
    case WakeSelf(d, mask, owing) => WakeSelfLoop(s, d, mask, owing, p);
    case TtwuBegin(d, q, mask, owing) => TtwuBeginLoop(s, d, q, mask, owing, p);
    case TtwuLocked(d) => TtwuLockedLoop(s, d, p);
    case _ =>
  }

  lemma DrainLoop(s: State, d: Cpu, p: Tid)
    requires LoopPre(s, p) && CanDrain(s, d)
    ensures LoopOk(DoDrain(s, d), p)
  {
  }

  lemma ArriveLoop(s: State, e: Event, p: Tid)
    requires LoopPre(s, p) && StepArrive(s, e).Some?
    ensures LoopOk(StepArrive(s, e).value, p)
  {
    if e.Drain? { DrainLoop(s, e.c, p); }
  }

  lemma PutPrevLoop(s: State, c: Cpu, preempt: bool, signal: bool, frozen: bool, next: Tid, p: Tid)
    requires LoopPre(s, p) && CanSchedule(s, c, preempt, signal, next)
    ensures LoopOk(PutPrev(s, c, preempt, signal, frozen), p)
  {
  }

  lemma SwitchInLoop(s: State, c: Cpu, voluntary: bool, next: Tid, p: Tid)
    requires LoopOk(s, p) && Idling(s, c) && IsTask(s, next)
    ensures LoopOk(SwitchIn(s, c, voluntary, next), p)
  {
  }

  lemma ScheduleLoop(s: State, c: Cpu, preempt: bool, signal: bool, frozen: bool, next: Tid, p: Tid)
    requires LoopPre(s, p) && CanSchedule(s, c, preempt, signal, next)
    ensures LoopOk(DoSchedule(s, c, preempt, signal, frozen, next), p)
  {
    PutPrevLoop(s, c, preempt, signal, frozen, next, p);
    SwitchInLoop(PutPrev(s, c, preempt, signal, frozen), c, Voluntary(CurrTask(s, c), preempt), next, p);
  }

  lemma LoopKnown(s: State, p: Tid)
    requires Inv(s) && WaitInv(s)
    ensures LoopPre(s, p)
  {
    if !IsTask(s, p) { return; }
    forall d | 0 <= d < |s.rqs| ensures WorkOk(p, s.tasks[p], d, s.rqs[d].mode)
      && (s.rqs[d].curr == p ==> s.tasks[p].onRq.Queued?) {
      assert Known(s, p, d);
    }
    assert LoopOk(s, p) && TaskOk(s.tasks[p], |s.rqs|);
  }

  lemma StepWaitInv(s: State, e: Event)
    requires Inv(s) && WaitInv(s) && Enabled(s, e)
    ensures WaitInv(Apply(s, e))
  {
    forall p | 0 <= p < |Apply(s, e).tasks| ensures LoopOk(Apply(s, e), p) {
      LoopKnown(s, p);
      StepLoopOk(s, e, p);
    }
  }

  lemma SwitchLoop(s: State, e: Event, p: Tid)
    requires LoopPre(s, p) && StepSwitch(s, e).Some?
    ensures LoopOk(StepSwitch(s, e).value, p)
  {
    if e.Schedule? { ScheduleLoop(s, e.c, e.preempt, e.signal, e.frozen, e.next, p); }
  }

  lemma StepLoopOk(s: State, e: Event, p: Tid)
    requires LoopPre(s, p) && Enabled(s, e)
    ensures LoopOk(Apply(s, e), p)
  {
    if SwitchEvent(e) { SwitchLoop(s, e, p); }
    else if ArriveEvent(e) { ArriveLoop(s, e, p); }
    else if WakeEvent(e) { WakeLoop(s, e, p); }
    else if PlaceEvent(e) { PlaceLoop(s, e, p); }
    else if MoveEvent(e) { MoveLoop(s, e, p); }
    else if LockEvent(e) { LockLoop(s, e, p); }
    else if OwnEvent(e) { OwnLoop(s, e, p); }
    else { LoopLoop(s, e, p); }
  }

  lemma {:induction false} RunWaitInv(s: State, es: seq<Event>)
    requires Inv(s) && WaitInv(s) && ValidRun(s, es)
    ensures Inv(Final(s, es)) && WaitInv(Final(s, es))
    decreases |es|
  {
    if |es| > 0 {
      StepInv(s, es[0]);
      StepWaitInv(s, es[0]);
      RunWaitInv(Apply(s, es[0]), es[1..]);
    }
  }

  /** Task p is in a runqueue, between two of them with a live mover, on a wakelist, or carried by a live waker. */
  predicate OnItsWay(s: State, p: Tid)
    requires IsTask(s, p)
  {
    var t := s.tasks[p];
    match t.onRq
    case Queued => IsCpu(s, t.cpu) && p in s.rqs[t.cpu].queue
    case Migrating(m) => IsCpu(s, m) && s.rqs[m].mode.Carrying? && s.rqs[m].mode.p == p
    case Off =>
      if t.state == Waking(false) then IsCpu(s, t.cpu) && p in s.rqs[t.cpu].wakelist
      else
        && t.state == Waking(true) && t.piLock.Some? && IsCpu(s, t.piLock.value)
        && s.rqs[t.piLock.value].mode.Ttwu? && s.rqs[t.piLock.value].mode.p == p
        && ClaimedPhase(s.rqs[t.piLock.value].mode.ph)
  }

  lemma AsleepNowhere(s: State, p: Tid)
    requires Inv(s) && LoopOk(s, p) && IsTask(s, p)
    requires !s.tasks[p].pc.Outside? && !s.tasks[p].needSleep && !WakerBusy(s, p)
    ensures OnItsWay(s, p)
  {
    var t := s.tasks[p];
    assert TaskOk(t, |s.rqs|);
    assert Known(s, p, t.cpu);
    if t.piLock.Some? { assert Known(s, p, t.piLock.value); }
    if t.onRq.Migrating? { assert Known(s, p, t.onRq.mover); }
  }

  /**
   * No lost wakeup: whatever the interleaving, once the condition is cleared and every waker that cleared it has
   * returned, a task in the wait loop is not left sleeping off every runqueue and wakelist.
   */
  lemma NoLostWakeup(s: State, es: seq<Event>, p: Tid)
    requires Boot(s) && ValidRun(s, es) && IsTask(Final(s, es), p)
    requires var f := Final(s, es); !f.tasks[p].pc.Outside? && !f.tasks[p].needSleep && !WakerBusy(f, p)
    ensures OnItsWay(Final(s, es), p)
  {
    BootInv(s);
    RunWaitInv(s, es);
    AsleepNowhere(Final(s, es), p);
  }
}
