/** A migration over every run: a task taken off one runqueue for another CPU arrives there and nowhere else. */
module SchedMigrate {
  import opened Wrappers
  import opened SchedState
  import opened SchedInvariant
  import opened SchedEffects

  /** p is on its way to dest in the hands of c: on no runqueue, on no CPU. */
  ghost predicate InTransit(s: State, c: Cpu, p: Tid, dest: Cpu) {
    && p < |s.tasks| && s.tasks[p].cpu == dest && s.tasks[p].onRq == Migrating(c) && !s.tasks[p].onCpu
    && forall d :: 0 <= d < |s.rqs| ==> p !in s.rqs[d].queue && s.rqs[d].curr != p
  }

  /** p is queued on dest and on no other CPU. */
  ghost predicate Arrived(s: State, p: Tid, dest: Cpu) {
    && p < |s.tasks| && s.tasks[p].cpu == dest && s.tasks[p].onRq == Queued
    && forall d :: 0 <= d < |s.rqs| ==> (p in s.rqs[d].queue <==> d == dest)
  }

  lemma CarriedInTransit(s: State, c: Cpu, p: Tid, dest: Cpu, pi: bool)
    requires Inv(s) && IsCpu(s, c) && s.rqs[c].mode == Carrying(p, dest, pi)
    ensures InTransit(s, c, p, dest) && IsCpu(s, dest)
  {
    assert CpuOk(s.rqs[c], |s.rqs|, |s.tasks|) && Known(s, p, c) && TaskOk(s.tasks[p], |s.rqs|);
    forall d | 0 <= d < |s.rqs| ensures p !in s.rqs[d].queue && s.rqs[d].curr != p {
      assert Known(s, p, d) && CpuOk(s.rqs[d], |s.rqs|, |s.tasks|);
    }
  }

  /** A CPU that carries a task does nothing else, whatever the others do. */
  ghost predicate StillCarries(s: State, s': State, c: Cpu) {
    IsCpu(s, c) && IsCpu(s', c) && s'.rqs[c].mode == s.rqs[c].mode
  }

  lemma SwitchCarries(s: State, e: Event, c: Cpu)
    requires IsCpu(s, c) && s.rqs[c].mode.Carrying? && StepSwitch(s, e).Some?
    ensures StillCarries(s, StepSwitch(s, e).value, c)
  {
    if e.Schedule? { ScheduleMeans(s, e.c, e.preempt, e.signal, e.frozen, e.next); }
  }

  lemma ArriveCarries(s: State, e: Event, c: Cpu)
    requires IsCpu(s, c) && s.rqs[c].mode.Carrying? && StepArrive(s, e).Some?
    ensures StillCarries(s, StepArrive(s, e).value, c)
  {
  }

  lemma WakeCarries(s: State, e: Event, c: Cpu)
    requires IsCpu(s, c) && s.rqs[c].mode.Carrying? && StepWake(s, e).Some?
    ensures StillCarries(s, StepWake(s, e).value, c)
  {
  }

  lemma PlaceCarries(s: State, e: Event, c: Cpu)
    requires IsCpu(s, c) && s.rqs[c].mode.Carrying? && StepPlace(s, e).Some?
    ensures StillCarries(s, StepPlace(s, e).value, c)
  {
  }

  lemma MoveCarries(s: State, e: Event, c: Cpu)
    requires IsCpu(s, c) && s.rqs[c].mode.Carrying? && StepMove(s, e).Some? && e != Attach(c)
    ensures StillCarries(s, StepMove(s, e).value, c)
  {
  }

  lemma LockCarries(s: State, e: Event, c: Cpu)
    requires IsCpu(s, c) && s.rqs[c].mode.Carrying? && StepLock(s, e).Some?
    ensures StillCarries(s, StepLock(s, e).value, c)
  {
  }

  lemma StepCarries(s: State, e: Event, c: Cpu)
    requires IsCpu(s, c) && s.rqs[c].mode.Carrying? && Enabled(s, e) && e != Attach(c)
    ensures StillCarries(s, Apply(s, e), c)
  {
    if SwitchEvent(e) { SwitchCarries(s, e, c); }
    else if ArriveEvent(e) { ArriveCarries(s, e, c); }
    else if WakeEvent(e) { WakeCarries(s, e, c); }
    else if PlaceEvent(e) { PlaceCarries(s, e, c); }
    else if MoveEvent(e) { MoveCarries(s, e, c); }
    else if LockEvent(e) { LockCarries(s, e, c); }
  }

  /** In every interleaving the task stays in transit until its mover attaches it. */
  lemma {:induction false} CarriedStays(s: State, es: seq<Event>, c: Cpu, p: Tid, dest: Cpu, pi: bool)
    requires Inv(s) && IsCpu(s, c) && s.rqs[c].mode == Carrying(p, dest, pi)
    requires ValidRun(s, es) && forall i :: 0 <= i < |es| ==> es[i] != Attach(c)
    ensures Inv(Final(s, es)) && IsCpu(Final(s, es), c) && Final(s, es).rqs[c].mode == Carrying(p, dest, pi)
    ensures InTransit(Final(s, es), c, p, dest)
    decreases |es|
  {
    if |es| == 0 {
      CarriedInTransit(s, c, p, dest, pi);
    } else {
      StepInv(s, es[0]);
      StepCarries(s, es[0], c);
      CarriedStays(Apply(s, es[0]), es[1..], c, p, dest, pi);
    }
  }

  /** The events that begin a migration of p to dest by CPU c; pi says whether c holds p's pi_lock. */
  predicate Detaches(s: State, e: Event, c: Cpu, p: Tid, dest: Cpu, pi: bool) {
    || (e == StopperDetach(c, p, dest) && pi) || (e == BalanceDetach(c, p, dest) && !pi)
    || (e == LockedDetach(c, dest) && pi && IsCpu(s, c) && s.rqs[c].mode.LockHeld? && s.rqs[c].mode.p == p)
  }

  lemma DetachMeans(s: State, e: Event, c: Cpu, p: Tid, dest: Cpu, pi: bool)
    requires Enabled(s, e) && Detaches(s, e, c, p, dest, pi)
    ensures Detached(s, Apply(s, e), c, p, dest, pi)
  {
    if e.StopperDetach? { StopperDetachMeans(s, c, p, dest, Apply(s, e)); }
    else if e.BalanceDetach? { BalanceDetachMeans(s, c, p, dest, Apply(s, e)); }
    else { LockedDetachMeans(s, c, dest, Apply(s, e)); }
  }

  /**
   * A migration by the stopper, by a scheduling class or under task_rq_lock(), with any steps of other CPUs in
   * between: the task ends queued on the CPU the migration was begun for, and on no other.
   */
  lemma MigrationArrives(s: State, e: Event, c: Cpu, p: Tid, dest: Cpu, pi: bool, es: seq<Event>)
    requires Inv(s) && Enabled(s, e) && Detaches(s, e, c, p, dest, pi)
    requires ValidRun(Apply(s, e), es) && forall i :: 0 <= i < |es| ==> es[i] != Attach(c)
    requires Enabled(Final(Apply(s, e), es), Attach(c))
    ensures InTransit(Apply(s, e), c, p, dest) && InTransit(Final(Apply(s, e), es), c, p, dest)
    ensures Arrived(Apply(Final(Apply(s, e), es), Attach(c)), p, dest)
  {
    var s1 := Apply(s, e);
    StepInv(s, e);
    DetachMeans(s, e, c, p, dest, pi);
    CarriedStays(s1, [], c, p, dest, pi);
    CarriedStays(s1, es, c, p, dest, pi);
    AttachArrives(Final(s1, es), c, p, dest, pi);
  }

  lemma AttachArrives(s: State, c: Cpu, p: Tid, dest: Cpu, pi: bool)
    requires Inv(s) && IsCpu(s, c) && s.rqs[c].mode == Carrying(p, dest, pi) && Enabled(s, Attach(c))
    ensures Arrived(Apply(s, Attach(c)), p, dest) && Inv(Apply(s, Attach(c)))
  {
    CarriedInTransit(s, c, p, dest, pi);
    var s' := Apply(s, Attach(c));
    StepInv(s, Attach(c));
    AttachMeans(s, c, p, dest, pi, s');
    forall d | 0 <= d < |s'.rqs| ensures p in s'.rqs[d].queue <==> d == dest { assert Known(s', p, d); }
  }

  /** The stopper's migration with the runqueue of dest unlocked: both halves, and nobody else is touched. */
  lemma StopperMoves(s: State, c: Cpu, p: Tid, dest: Cpu)
    requires Inv(s) && CanStopperDetach(s, c, p, dest) && LockFree(s, dest)
    ensures var s1 := DoStopperDetach(s, c, p, dest);
      && Inv(s1) && CanAttach(s1, c)
      && var f := DoAttach(s1, c);
        && Arrived(f, p, dest) && Inv(f) && f.tasks[p].piLock.None?
        && |f.tasks| == |s.tasks| && forall q :: 0 <= q < |s.tasks| && q != p ==> f.tasks[q] == s.tasks[q]
  {
    var s1 := DoStopperDetach(s, c, p, dest);
    StepInv(s, StopperDetach(c, p, dest));
    StopperDetachMeans(s, c, p, dest, s1);
    AttachArrives(s1, c, p, dest, true);
    AttachMeans(s1, c, p, dest, true, DoAttach(s1, c));
  }

  // ---------------------------------------------------------------- one round of task_rq_lock

  /** CPU c has both locks of p. */
  predicate HasBoth(s: State, c: Cpu, p: Tid) {
    && IsCpu(s, c) && p < |s.tasks| && IsCpu(s, s.tasks[p].cpu)
    && s.rqs[c].mode == LockHeld(p, s.tasks[p].cpu) && s.rqs[s.tasks[p].cpu].lock == Some(c)
    && s.tasks[p].piLock == Some(c)
  }

  /**
   * A round of task_rq_lock() in which nobody interferes: once the runqueue's lock is free it ends with both locks
   * exactly if the task is not migrating, and else with none.
   */
  lemma LockRound(s: State, c: Cpu, p: Tid)
    requires Inv(s) && Enabled(s, LockRead(c, p)) && LockFree(s, s.tasks[p].cpu)
    ensures Enabled(Apply(s, LockRead(c, p)), LockCheck(c))
    ensures var f := Apply(Apply(s, LockRead(c, p)), LockCheck(c));
      && f.tasks[p] == s.tasks[p].(piLock := f.tasks[p].piLock)
      && if !s.tasks[p].onRq.Migrating? then HasBoth(f, c, p)
         else IsCpu(f, c) && f.rqs[c].mode.Run? && f.tasks[p].piLock.None? && f.rqs == s.rqs
  {
    assert TaskOk(s.tasks[p], |s.rqs|);
    var s1 := Apply(s, LockRead(c, p));
    assert s1.rqs[c].mode == LockGuess(p, s.tasks[p].cpu) && s1.tasks[p] == s.tasks[p].(piLock := Some(c));
    LockCheckMeans(s1, c, Apply(s1, LockCheck(c)));
  }
}
