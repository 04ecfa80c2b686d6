/**
 * The invariant of the step relation, and its preservation by every event.
 *
 * It is stated pairwise: what a task record and a CPU record say about each other.  A step touches few
 * records, so all other pairs carry over unread.
 */
module SchedInvariant {
  import opened Wrappers
  import opened SchedState

  /** Executing m, a CPU holds the pi_lock of p. */
  predicate HoldsPi(m: Mode, p: Tid) {
    match m
    case Ttwu(q, _, _) => q == p
    case NewPlaced(q) => q == p
    case Carrying(q, _, pi) => q == p && pi
    case LockGuess(q, _) => q == p
    case LockHeld(q, _) => q == p
    case _ => false
  }

  /** Executing m, CPU w holds the lock of runqueue g. */
  predicate HoldsRqLock(m: Mode, w: Cpu, g: Cpu) {
    match m
    case Switching(_) => w == g
    case Switched => w == g
    case LockHeld(_, h) => h == g
    case _ => false
  }

  /** The phases after TASK_WAKING was stored: the waker alone is responsible for the task. */
  predicate ClaimedPhase(ph: Phase) { ph.Claimed? || ph.SawOnCpu? || ph.Spin? || ph.OffCpu? || ph.Placed? }

  /** What holds of a task by itself, with n CPUs. */
  predicate TaskOk(t: Task, n: nat) {
    && t.cpu < n
    && (t.piLock.Some? ==> t.piLock.value < n)
    && (t.onRq.Migrating? ==> t.onRq.mover < n && !t.onCpu)
    && (t.state.Waking? ==> t.onRq.Off? && (t.state.carried ==> t.piLock.Some?))
    && (t.state.New? ==> t.onRq.Off? && !t.onCpu)
    && (t.state.Running? && t.onRq.Off? ==> t.piLock.Some? && !t.onCpu)
  }

  predicate ModeOk(m: Mode, n: nat, tasks: nat) {
    match m
    case Run => true
    case Switched => true
    case Switching(p) => p < tasks
    case Ttwu(p, ph, _) => p < tasks && (ph.Guess? ==> ph.g < n)
    case NewPlaced(p) => p < tasks
    case Carrying(p, d, _) => p < tasks && d < n
    case LockGuess(p, g) => p < tasks && g < n
    case LockHeld(p, g) => p < tasks && g < n
  }

  /** What holds of a CPU by itself, with n CPUs and the given number of tasks. */
  predicate CpuOk(r: Rq, n: nat, tasks: nat) {
    && r.curr < tasks && r.idle < tasks && r.curr in r.queue && r.idle in r.queue
    && ModeOk(r.mode, n, tasks)
    && (forall p {:trigger p in r.queue} :: p in r.queue ==> p < tasks)
    && (forall i :: 0 <= i < |r.wakelist| ==> r.wakelist[i] < tasks)
    && (forall i, j :: 0 <= i < j < |r.wakelist| ==> r.wakelist[i] != r.wakelist[j])
  }

  /** What the CPU is executing agrees with the task it is doing it to. */
  predicate WorkOk(p: Tid, t: Task, c: Cpu, m: Mode) {
    && (HoldsPi(m, p) <==> t.piLock == Some(c))
    && (m.Carrying? && m.p == p <==> t.onRq == Migrating(c))
    && (m == NewPlaced(p) <==> t.piLock == Some(c) && t.onRq.Off? && t.state.Running?)
    && (m.Ttwu? && m.p == p && ClaimedPhase(m.ph) <==> t.piLock == Some(c) && t.state == Waking(true))
    && (m.Ttwu? && m.p == p ==>
      && !t.state.New?
      && (m.ph.Seen? || m.ph.Remote? || m.ph.Guess? ==> !t.state.Waking?)
      && (m.ph.Blocked? ==> t.onRq.Off? && t.state.Sleeping?)
      && (m.ph.SawOnCpu? ==> t.cpu != c)
      && (m.ph.OffCpu? || m.ph.Placed? ==> !t.onCpu))
    && (m.Carrying? && m.p == p ==> t.cpu == m.dest)
    && (m.LockHeld? && m.p == p ==> t.cpu == m.g && !t.onRq.Migrating?)
  }

  /** The runqueue of CPU c and task p agree on where p is. */
  predicate PlaceOk(p: Tid, t: Task, c: Cpu, r: Rq) {
    && (r.curr == p ==> t.cpu == c)
    && (r.mode == Switching(p) ==> t.cpu == c && r.curr != p)
    && (t.cpu == c ==> (t.onCpu <==> r.curr == p || r.mode == Switching(p)))
    && (p in r.queue <==> t.cpu == c && t.onRq.Queued?)
    && (p in r.wakelist <==> t.cpu == c && t.state == Waking(false))
    && (r.idle == p ==> t.state.Running?)
  }

  predicate PairOk(p: Tid, t: Task, c: Cpu, r: Rq) { PlaceOk(p, t, c, r) && WorkOk(p, t, c, r.mode) }

  /** The lock of runqueue d is held across steps by CPU c exactly when c executes a section that holds it. */
  predicate LockOk(c: Cpu, m: Mode, d: Cpu, lock: Option<Cpu>) { HoldsRqLock(m, c, d) <==> lock == Some(c) }

  ghost predicate TasksOk(s: State) { forall p :: 0 <= p < |s.tasks| ==> TaskOk(s.tasks[p], |s.rqs|) }

  ghost predicate CpusOk(s: State) {
    forall c :: 0 <= c < |s.rqs| ==>
      && CpuOk(s.rqs[c], |s.rqs|, |s.tasks|)
      && (s.rqs[c].lock.Some? ==> s.rqs[c].lock.value < |s.rqs|)
  }

  ghost predicate PairsOk(s: State) {
    forall p, c :: 0 <= p < |s.tasks| && 0 <= c < |s.rqs| ==> PairOk(p, s.tasks[p], c, s.rqs[c])
  }

  ghost predicate LocksOk(s: State) {
    forall c, d :: 0 <= c < |s.rqs| && 0 <= d < |s.rqs| ==> LockOk(c, s.rqs[c].mode, d, s.rqs[d].lock)
  }

  ghost predicate Inv(s: State) { TasksOk(s) && CpusOk(s) && PairsOk(s) && LocksOk(s) }

  // ---------------------------------------------------------------- steps that touch one task

  /** m is about no task but p. */
  predicate Minds(m: Mode, p: Tid) {
    match m
    case Run => true
    case Switched => true
    case Switching(q) => q == p
    case Ttwu(q, _, _) => q == p
    case NewPlaced(q) => q == p
    case Carrying(q, _, _) => q == p
    case LockGuess(q, _) => q == p
    case LockHeld(q, _) => q == p
  }

  /** r' is r after a step that concerns p alone. */
  ghost predicate RqStep(r: Rq, r': Rq, p: Tid, n: nat, tasks: nat) {
    && r'.curr == r.curr && r'.idle == r.idle
    && (r'.mode == r.mode || (Minds(r.mode, p) && Minds(r'.mode, p) && ModeOk(r'.mode, n, tasks)))
    && (r'.queue == r.queue || r'.queue == r.queue + {p} || (r'.queue == r.queue - {p} && p != r.curr && p != r.idle))
    && (r'.wakelist == r.wakelist || (r'.wakelist == r.wakelist + [p] && p !in r.wakelist)
      || (|r.wakelist| > 0 && r.wakelist[0] == p && r'.wakelist == r.wakelist[1..]))
  }

  lemma RqFramed(p: Tid, q: Tid, t: Task, c: Cpu, r: Rq, r': Rq, n: nat, tasks: nat)
    requires PairOk(q, t, c, r) && RqStep(r, r', p, n, tasks) && q != p
    ensures PairOk(q, t, c, r')
  {
    if |r.wakelist| > 0 && r'.wakelist == r.wakelist[1..] {
      assert r.wakelist == [r.wakelist[0]] + r'.wakelist;
    }
  }

  lemma RqStepOk(r: Rq, r': Rq, p: Tid, n: nat, tasks: nat)
    requires CpuOk(r, n, tasks) && RqStep(r, r', p, n, tasks) && p < tasks
    ensures CpuOk(r', n, tasks)
  {
  }

  /** After a step that concerns p alone, CPU e and task p agree. */
  ghost predicate Agrees(s: State, s': State, p: Tid, e: Cpu)
    requires IsTask(s, p) && |s'.tasks| == |s.tasks| && |s'.rqs| == |s.rqs| && IsCpu(s, e)
  {
    && PairOk(p, s'.tasks[p], e, s'.rqs[e])
    && (s'.rqs[e] == s.rqs[e] || RqStep(s.rqs[e], s'.rqs[e], p, |s.rqs|, |s.tasks|))
  }

  /** The step changes no task but p. */
  ghost predicate OneTask(s: State, s': State, p: Tid) {
    && IsTask(s, p) && |s'.tasks| == |s.tasks| && |s'.rqs| == |s.rqs|
    && TaskOk(s'.tasks[p], |s.rqs|)
    && (forall q :: 0 <= q < |s.tasks| && q != p ==> s'.tasks[q] == s.tasks[q])
  }

  ghost predicate LockRange(s: State) {
    forall c :: 0 <= c < |s.rqs| && s.rqs[c].lock.Some? ==> s.rqs[c].lock.value < |s.rqs|
  }

  lemma OneTaskInv(s: State, s': State, p: Tid)
    requires Inv(s) && OneTask(s, s', p) && LocksOk(s') && LockRange(s')
    requires forall e :: 0 <= e < |s.rqs| ==> Agrees(s, s', p, e)
    ensures Inv(s')
  {
    forall q, e | 0 <= q < |s'.tasks| && 0 <= e < |s'.rqs|
      ensures PairOk(q, s'.tasks[q], e, s'.rqs[e])
    {
      assert PairOk(q, s.tasks[q], e, s.rqs[e]) && Agrees(s, s', p, e);
      if q != p && s'.rqs[e] != s.rqs[e] { RqFramed(p, q, s.tasks[q], e, s.rqs[e], s'.rqs[e], |s.rqs|, |s.tasks|); }
    }
    forall e | 0 <= e < |s'.rqs| ensures CpuOk(s'.rqs[e], |s.rqs|, |s.tasks|) {
      assert CpuOk(s.rqs[e], |s.rqs|, |s.tasks|) && Agrees(s, s', p, e);
      if s'.rqs[e] != s.rqs[e] { RqStepOk(s.rqs[e], s'.rqs[e], p, |s.rqs|, |s.tasks|); }
    }
  }

  /** No lock is taken or dropped. */
  ghost predicate SameLocks(s: State, s': State) {
    && |s'.rqs| == |s.rqs|
    && forall e :: 0 <= e < |s.rqs| ==>
      && s'.rqs[e].lock == s.rqs[e].lock
      && (s'.rqs[e].mode == s.rqs[e].mode
        || forall g :: HoldsRqLock(s.rqs[e].mode, e, g) <==> HoldsRqLock(s'.rqs[e].mode, e, g))
  }

  lemma QuietInv(s: State, s': State, p: Tid)
    requires Inv(s) && OneTask(s, s', p) && SameLocks(s, s')
    requires forall e :: 0 <= e < |s.rqs| ==> Agrees(s, s', p, e)
    ensures Inv(s')
  {
    forall e, g | 0 <= e < |s'.rqs| && 0 <= g < |s'.rqs| ensures LockOk(e, s'.rqs[e].mode, g, s'.rqs[g].lock) {
      assert LockOk(e, s.rqs[e].mode, g, s.rqs[g].lock);
    }
    OneTaskInv(s, s', p);
  }

  /** What the invariant says about task p and CPU e. */
  ghost predicate Known(s: State, p: Tid, e: Cpu)
  {
    && IsTask(s, p) && IsCpu(s, e) && TaskOk(s.tasks[p], |s.rqs|) && PairOk(p, s.tasks[p], e, s.rqs[e])
    && CpuOk(s.rqs[e], |s.rqs|, |s.tasks|)
  }


  /** Counters, flags and the wait loop are not what the invariant speaks of. */
  predicate SameCore(t: Task, t': Task) {
    t'.state == t.state && t'.onRq == t.onRq && t'.onCpu == t.onCpu && t'.cpu == t.cpu && t'.piLock == t.piLock
  }

  lemma SameCoreInv(s: State, p: Tid, t': Task)
    requires Inv(s) && IsTask(s, p) && SameCore(s.tasks[p], t')
    ensures Inv(PutTask(s, p, t'))
  {
    var s' := PutTask(s, p, t');
    assert TaskOk(s.tasks[p], |s.rqs|);
    forall e | 0 <= e < |s.rqs| ensures Agrees(s, s', p, e) {
      assert Known(s, p, e);
    }
    QuietInv(s, s', p);
  }

  /** The waker moves to a phase that is right for its task. */
  lemma PutPhaseInv(s: State, c: Cpu, ph: Phase)
    requires Inv(s) && InTtwu(s, c) && (ph.Guess? ==> IsCpu(s, ph.g))
    requires WorkOk(s.rqs[c].mode.p, Target(s, c), c, s.rqs[c].mode.(ph := ph))
    ensures Inv(PutPhase(s, c, ph))
  {
    var s', p := PutPhase(s, c, ph), s.rqs[c].mode.p;
    assert TaskOk(s.tasks[p], |s.rqs|);
    forall e | 0 <= e < |s.rqs| ensures Agrees(s, s', p, e) {
      assert Known(s, p, e);
    }
    QuietInv(s, s', p);
  }

  lemma FinishTaskInv(s: State, c: Cpu)
    requires Inv(s) && CanFinishTask(s, c)
    ensures Inv(DoFinishTask(s, c))
  {
    var s' := DoFinishTask(s, c);
    var p := s.rqs[c].mode.prev;
    assert Known(s, p, c) && Known(s, p, s.tasks[p].cpu);
    forall e | 0 <= e < |s.rqs| ensures Agrees(s, s', p, e) {
      assert Known(s, p, e);
    }
    QuietInv(s, s', p);
  }

  lemma TakePiInv(s: State, c: Cpu, p: Tid, owing: bool)
    requires Inv(s) && Idling(s, c) && IsTask(s, p) && s.tasks[p].piLock.None? && s.tasks[p].state.Sleeping?
    ensures Inv(TakePi(s, c, p, owing))
  {
    var s' := TakePi(s, c, p, owing);
    assert Known(s, p, c) && Known(s, p, s.tasks[p].cpu);
    forall e | 0 <= e < |s.rqs| ensures Agrees(s, s', p, e) {
      assert Known(s, p, e);
    }
    QuietInv(s, s', p);
  }

  lemma WakeQueuedInv(s: State, c: Cpu)
    requires Inv(s) && CanTtwuLocked(s, c) && Target(s, c).onRq.Queued?
    ensures Inv(WakeQueued(s, c))
  {
    var s' := WakeQueued(s, c);
    var p := s.rqs[c].mode.p;
    assert Known(s, p, c) && Known(s, p, s.tasks[p].cpu);
    forall e | 0 <= e < |s.rqs| ensures Agrees(s, s', p, e) {
      assert Known(s, p, e);
    }
    QuietInv(s, s', p);
  }

  lemma StoreWakingInv(s: State, c: Cpu)
    requires Inv(s) && AtPhase(s, c, Blocked)
    ensures Inv(StoreWaking(s, c))
  {
    var s' := StoreWaking(s, c);
    var p := s.rqs[c].mode.p;
    assert Known(s, p, c) && Known(s, p, s.tasks[p].cpu);
    forall e | 0 <= e < |s.rqs| ensures Agrees(s, s', p, e) {
      assert Known(s, p, e);
    }
    QuietInv(s, s', p);
  }

  lemma PushWakelistInv(s: State, c: Cpu, migrated: bool)
    requires Inv(s) && InTtwu(s, c) && ClaimedPhase(s.rqs[c].mode.ph) && IsCpu(s, Target(s, c).cpu)
    ensures Inv(PushWakelist(s, c, Target(s, c).cpu, migrated))
  {
    var s' := PushWakelist(s, c, Target(s, c).cpu, migrated);
    var p := s.rqs[c].mode.p;
    assert Known(s, p, c) && Known(s, p, s.tasks[p].cpu);
    forall e | 0 <= e < |s.rqs| ensures Agrees(s, s', p, e) {
      assert Known(s, p, e);
    }
    QuietInv(s, s', p);
  }

  lemma TtwuSelectInv(s: State, c: Cpu, dest: Cpu)
    requires Inv(s) && AtPhase(s, c, OffCpu) && IsCpu(s, dest)
    ensures Inv(DoTtwuSelect(s, c, dest))
  {
    var s' := DoTtwuSelect(s, c, dest);
    var p := s.rqs[c].mode.p;
    assert Known(s, p, c) && Known(s, p, s.tasks[p].cpu);
    forall e | 0 <= e < |s.rqs| ensures Agrees(s, s', p, e) {
      assert Known(s, p, e);
    }
    QuietInv(s, s', p);
  }

  lemma TtwuQueueInv(s: State, c: Cpu)
    requires Inv(s) && CanTtwuQueue(s, c)
    ensures Inv(DoTtwuQueue(s, c))
  {
    var s' := DoTtwuQueue(s, c);
    var p := s.rqs[c].mode.p;
    assert Known(s, p, c) && Known(s, p, s.tasks[p].cpu);
    forall e | 0 <= e < |s.rqs| ensures Agrees(s, s', p, e) {
      assert Known(s, p, e);
    }
    QuietInv(s, s', p);
  }

  lemma DrainInv(s: State, c: Cpu)
    requires Inv(s) && CanDrain(s, c)
    ensures Inv(DoDrain(s, c))
  {
    var s' := DoDrain(s, c);
    var p := s.rqs[c].wakelist[0];
    assert Known(s, p, c) && Known(s, p, s.tasks[p].cpu);
    forall e | 0 <= e < |s.rqs| ensures Agrees(s, s', p, e) {
      assert Known(s, p, e);
    }
    QuietInv(s, s', p);
  }

  lemma StopperDetachInv(s: State, c: Cpu, p: Tid, dest: Cpu)
    requires Inv(s) && CanStopperDetach(s, c, p, dest)
    ensures Inv(DoStopperDetach(s, c, p, dest))
  {
    var s' := DoStopperDetach(s, c, p, dest);
    assert Known(s, p, c) && Known(s, p, s.tasks[p].cpu);
    forall e | 0 <= e < |s.rqs| ensures Agrees(s, s', p, e) {
      assert Known(s, p, e);
    }
    QuietInv(s, s', p);
  }

  lemma BalanceDetachInv(s: State, c: Cpu, p: Tid, dest: Cpu)
    requires Inv(s) && CanBalanceDetach(s, c, p, dest)
    ensures Inv(Detach(s, c, p, dest, false))
  {
    var s' := Detach(s, c, p, dest, false);
    assert Known(s, p, c) && Known(s, p, s.tasks[p].cpu);
    forall e | 0 <= e < |s.rqs| ensures Agrees(s, s', p, e) {
      assert Known(s, p, e);
    }
    QuietInv(s, s', p);
  }

  lemma AttachInv(s: State, c: Cpu)
    requires Inv(s) && CanAttach(s, c)
    ensures Inv(DoAttach(s, c))
  {
    var s' := DoAttach(s, c);
    var p := s.rqs[c].mode.p;
    assert Known(s, p, c) && Known(s, p, s.tasks[p].cpu);
    forall e | 0 <= e < |s.rqs| ensures Agrees(s, s', p, e) {
      assert Known(s, p, e);
    }
    QuietInv(s, s', p);
  }

  lemma MoveIfQueuedInv(s: State, p: Tid, src: Cpu, dst: Cpu)
    requires Inv(s) && IsCpu(s, src) && IsCpu(s, dst) && src != dst && LockFree(s, src) && LockFree(s, dst)
      && IsTask(s, p) && s.rqs[src].mode.Run? && s.rqs[src].curr != p && s.rqs[src].idle != p
      && s.tasks[p].piLock.None? && s.tasks[p].cpu == src
    ensures Inv(MoveIfQueued(s, p, src, dst))
  {
    var s' := MoveIfQueued(s, p, src, dst);
    assert Known(s, p, src) && Known(s, p, s.tasks[p].cpu);
    forall e | 0 <= e < |s.rqs| ensures Agrees(s, s', p, e) {
      assert Known(s, p, e);
    }
    QuietInv(s, s', p);
  }

  lemma LockReadInv(s: State, c: Cpu, p: Tid)
    requires Inv(s) && CanLockRead(s, c, p)
    ensures Inv(DoLockRead(s, c, p))
  {
    var s' := DoLockRead(s, c, p);
    assert Known(s, p, c) && Known(s, p, s.tasks[p].cpu);
    forall e | 0 <= e < |s.rqs| ensures Agrees(s, s', p, e) {
      assert Known(s, p, e);
    }
    QuietInv(s, s', p);
  }

  lemma DropPiInv(s: State, c: Cpu)
    requires Inv(s) && CanLockCheck(s, c)
    ensures Inv(DropPi(s, c))
  {
    var s' := DropPi(s, c);
    var p := s.rqs[c].mode.p;
    assert Known(s, p, c) && Known(s, p, s.tasks[p].cpu);
    forall e | 0 <= e < |s.rqs| ensures Agrees(s, s', p, e) {
      assert Known(s, p, e);
    }
    QuietInv(s, s', p);
  }

  lemma NewPlaceInv(s: State, c: Cpu, p: Tid, dest: Cpu)
    requires Inv(s) && CanNewPlace(s, c, p, dest)
    ensures Inv(DoNewPlace(s, c, p, dest))
  {
    var s' := DoNewPlace(s, c, p, dest);
    assert Known(s, p, c) && Known(s, p, s.tasks[p].cpu);
    forall e | 0 <= e < |s.rqs| ensures Agrees(s, s', p, e) {
      assert Known(s, p, e);
    }
    QuietInv(s, s', p);
  }

  lemma NewQueueInv(s: State, c: Cpu)
    requires Inv(s) && CanNewQueue(s, c)
    ensures Inv(DoNewQueue(s, c))
  {
    var s' := DoNewQueue(s, c);
    var p := s.rqs[c].mode.p;
    assert Known(s, p, c) && Known(s, p, s.tasks[p].cpu);
    forall e | 0 <= e < |s.rqs| ensures Agrees(s, s', p, e) {
      assert Known(s, p, e);
    }
    QuietInv(s, s', p);
  }

  /** The running task writes its own state word. */
  lemma StateWordInv(s: State, c: Cpu, t': Task)
    requires Inv(s) && Idling(s, c) && SameCore(CurrTask(s, c).(state := t'.state), t')
    requires t'.state.Running? || (t'.state.Sleeping? && Curr(s, c) != s.rqs[c].idle)
    ensures Inv(PutCurr(s, c, t'))
  {
    var s' := PutCurr(s, c, t');
    var p := s.rqs[c].curr;
    assert Known(s, p, c) && Known(s, p, s.tasks[p].cpu);
    forall e | 0 <= e < |s.rqs| ensures Agrees(s, s', p, e) {
      assert Known(s, p, e);
    }
    QuietInv(s, s', p);
  }

  lemma FinishLockLocks(s: State, c: Cpu)
    requires Inv(s) && CanFinishLock(s, c)
    ensures LocksOk(DoFinishLock(s, c)) && LockRange(DoFinishLock(s, c))
  {
    var s' := DoFinishLock(s, c);
    forall e, g | 0 <= e < |s.rqs| && 0 <= g < |s.rqs| ensures LockOk(e, s'.rqs[e].mode, g, s'.rqs[g].lock) {
      assert LockOk(e, s.rqs[e].mode, g, s.rqs[g].lock);
    }
  }

  lemma FinishLockInv(s: State, c: Cpu)
    requires Inv(s) && CanFinishLock(s, c)
    ensures Inv(DoFinishLock(s, c))
  {
    var s' := DoFinishLock(s, c);
    var p := s.rqs[c].curr;
    assert Known(s, p, c) && Known(s, p, s.tasks[p].cpu);
    forall e | 0 <= e < |s.rqs| ensures Agrees(s, s', p, e) {
      assert Known(s, p, e);
    }
    FinishLockLocks(s, c);
    OneTaskInv(s, s', p);
  }

  lemma KeepRqLockLocks(s: State, c: Cpu)
    requires Inv(s) && CanLockCheck(s, c) && StillThere(s, c)
    ensures LocksOk(KeepRqLock(s, c)) && LockRange(KeepRqLock(s, c))
  {
    var s' := KeepRqLock(s, c);
    forall e, g | 0 <= e < |s.rqs| && 0 <= g < |s.rqs| ensures LockOk(e, s'.rqs[e].mode, g, s'.rqs[g].lock) {
      assert LockOk(e, s.rqs[e].mode, g, s.rqs[g].lock);
    }
  }

  lemma KeepRqLockInv(s: State, c: Cpu)
    requires Inv(s) && CanLockCheck(s, c) && StillThere(s, c)
    ensures Inv(KeepRqLock(s, c))
  {
    var s' := KeepRqLock(s, c);
    var p := s.rqs[c].mode.p;
    assert Known(s, p, c) && Known(s, p, s.tasks[p].cpu);
    forall e | 0 <= e < |s.rqs| ensures Agrees(s, s', p, e) {
      assert Known(s, p, e);
    }
    KeepRqLockLocks(s, c);
    OneTaskInv(s, s', p);
  }

  lemma LockedDetachLocks(s: State, c: Cpu, dest: Cpu)
    requires Inv(s) && CanLockedDetach(s, c, dest)
    ensures LocksOk(DoLockedDetach(s, c, dest)) && LockRange(DoLockedDetach(s, c, dest))
  {
    var s' := DoLockedDetach(s, c, dest);
    forall e, g | 0 <= e < |s.rqs| && 0 <= g < |s.rqs| ensures LockOk(e, s'.rqs[e].mode, g, s'.rqs[g].lock) {
      assert LockOk(e, s.rqs[e].mode, g, s.rqs[g].lock);
    }
  }

  lemma LockedDetachInv(s: State, c: Cpu, dest: Cpu)
    requires Inv(s) && CanLockedDetach(s, c, dest)
    ensures Inv(DoLockedDetach(s, c, dest))
  {
    var s' := DoLockedDetach(s, c, dest);
    var p := s.rqs[c].mode.p;
    assert Known(s, p, c) && Known(s, p, s.tasks[p].cpu);
    forall e | 0 <= e < |s.rqs| ensures Agrees(s, s', p, e) {
      assert Known(s, p, e);
    }
    LockedDetachLocks(s, c, dest);
    OneTaskInv(s, s', p);
  }

  lemma LockDropLocks(s: State, c: Cpu)
    requires Inv(s) && HasLock(s, c)
    ensures LocksOk(DoLockDrop(s, c)) && LockRange(DoLockDrop(s, c))
  {
    var s' := DoLockDrop(s, c);
    forall e, g | 0 <= e < |s.rqs| && 0 <= g < |s.rqs| ensures LockOk(e, s'.rqs[e].mode, g, s'.rqs[g].lock) {
      assert LockOk(e, s.rqs[e].mode, g, s.rqs[g].lock);
    }
  }

  lemma LockDropInv(s: State, c: Cpu)
    requires Inv(s) && HasLock(s, c)
    ensures Inv(DoLockDrop(s, c))
  {
    var s' := DoLockDrop(s, c);
    var p := s.rqs[c].mode.p;
    assert Known(s, p, c) && Known(s, p, s.tasks[p].cpu);
    forall e | 0 <= e < |s.rqs| ensures Agrees(s, s', p, e) {
      assert Known(s, p, e);
    }
    LockDropLocks(s, c);
    OneTaskInv(s, s', p);
  }

  // ---------------------------------------------------------------- the switch

  /** What the locked section of __schedule() does to the fields the invariant speaks of. */
  predicate Rescheduled(s: State, s': State, c: Cpu, next: Tid, sleeps: bool)
    requires Idling(s, c) && IsTask(s, next)
  {
    var r, prev := s.rqs[c], s.rqs[c].curr;
    && |s'.tasks| == |s.tasks| && |s'.rqs| == |s.rqs|
    && (forall d :: 0 <= d < |s.rqs| && d != c ==> s'.rqs[d] == s.rqs[d])
    && (forall p :: 0 <= p < |s.tasks| && p != prev && p != next ==> s'.tasks[p] == s.tasks[p])
    && var r' := s'.rqs[c];
    && r'.idle == r.idle && r'.wakelist == r.wakelist && r'.curr == next
    && r'.queue == (if sleeps then r.queue - {prev} else r.queue)
    && (if next == prev then r'.mode == Run && r'.lock == None else r'.mode == Switching(prev) && r'.lock == Some(c))
    && var t, t', n, n' := s.tasks[prev], s'.tasks[prev], s.tasks[next], s'.tasks[next];
    && t'.cpu == t.cpu && t'.piLock == t.piLock && t'.onCpu == t.onCpu
    && t'.onRq == (if sleeps then Off else t.onRq)
    && (t'.state == t.state || (!sleeps && t'.state.Running? && t.state.Sleeping?))
    && (next != prev ==>
      && n'.cpu == n.cpu && n'.piLock == n.piLock && n'.onCpu && n'.onRq == n.onRq && n'.state == n.state)
  }

  lemma ScheduleEffect(s: State, c: Cpu, preempt: bool, signal: bool, frozen: bool, next: Tid)
    requires CanSchedule(s, c, preempt, signal, next)
    ensures Rescheduled(s, DoSchedule(s, c, preempt, signal, frozen, next), c, next, GoesToSleep(CurrTask(s, c),
      preempt, signal))
  {
  }

  lemma RescheduledPairs(s: State, s': State, c: Cpu, next: Tid, sleeps: bool, q: Tid, e: Cpu)
    requires Inv(s) && Idling(s, c) && LockFree(s, c) && IsTask(s, next) && next in s.rqs[c].queue
    requires sleeps ==> next != s.rqs[c].curr && s.tasks[s.rqs[c].curr].state.Sleeping?
    requires Rescheduled(s, s', c, next, sleeps) && IsTask(s, q) && IsCpu(s, e)
    ensures PairOk(q, s'.tasks[q], e, s'.rqs[e])
  {
    assert Known(s, q, e) && Known(s, q, c) && Known(s, next, c) && Known(s, s.rqs[c].curr, c);
  }

  lemma RescheduledInv(s: State, s': State, c: Cpu, next: Tid, sleeps: bool)
    requires Inv(s) && Idling(s, c) && LockFree(s, c) && IsTask(s, next) && next in s.rqs[c].queue
    requires sleeps ==> next != s.rqs[c].curr && s.tasks[s.rqs[c].curr].state.Sleeping?
    requires Rescheduled(s, s', c, next, sleeps)
    ensures Inv(s')
  {
    forall q, e | 0 <= q < |s'.tasks| && 0 <= e < |s'.rqs| ensures PairOk(q, s'.tasks[q], e, s'.rqs[e]) {
      RescheduledPairs(s, s', c, next, sleeps, q, e);
    }
    forall e, g | 0 <= e < |s.rqs| && 0 <= g < |s.rqs| ensures LockOk(e, s'.rqs[e].mode, g, s'.rqs[g].lock) {
      assert LockOk(e, s.rqs[e].mode, g, s.rqs[g].lock);
    }
    assert Known(s, s.rqs[c].curr, c) && Known(s, next, c) && Known(s, s.rqs[c].idle, c);
    forall q | 0 <= q < |s'.tasks| ensures TaskOk(s'.tasks[q], |s.rqs|) {
      assert TaskOk(s.tasks[q], |s.rqs|);
    }
  }

  lemma ScheduleInv(s: State, c: Cpu, preempt: bool, signal: bool, frozen: bool, next: Tid)
    requires Inv(s) && CanSchedule(s, c, preempt, signal, next)
    ensures Inv(DoSchedule(s, c, preempt, signal, frozen, next))
  {
    ScheduleEffect(s, c, preempt, signal, frozen, next);
    assert Known(s, s.rqs[c].curr, c);
    RescheduledInv(s, DoSchedule(s, c, preempt, signal, frozen, next), c, next, GoesToSleep(CurrTask(s, c), preempt,
      signal));
  }

  lemma SwapInv(s: State, src: Cpu, dst: Cpu, p: Tid, q: Tid, allowed: bool)
    requires Inv(s) && CanSwap(s, src, dst, p, q)
    ensures Inv(DoSwap(s, src, dst, p, q, allowed))
  {
    if s.tasks[q].cpu == dst && s.tasks[p].cpu == src && allowed {
      MoveIfQueuedInv(s, p, src, dst);
      MoveIfQueuedInv(MoveIfQueued(s, p, src, dst), q, dst, src);
    }
  }

  lemma ForkInv(s: State, c: Cpu, mm: Option<Mm>)
    requires Inv(s) && Idling(s, c)
    ensures Inv(DoFork(s, c, mm))
  {
    var s', p := DoFork(s, c, mm), |s.tasks|;
    forall e | 0 <= e < |s.rqs| ensures CpuOk(s'.rqs[e], |s.rqs|, |s'.tasks|) && PairOk(p, s'.tasks[p], e, s'.rqs[e]) {
      assert CpuOk(s.rqs[e], |s.rqs|, |s.tasks|);
    }
  }

  // ---------------------------------------------------------------- every event

  lemma WakeSelfInv(s: State, c: Cpu, mask: set<SleepBit>, owing: bool)
    requires Inv(s) && CanWakeSelf(s, c, mask, owing)
    ensures Inv(DoWakeSelf(s, c, mask, owing))
  {
    var t := Pay(CurrTask(s, c), owing);
    if Matches(t.state, mask) {
      StateWordInv(s, c, t.(state := Running));
    } else {
      SameCoreInv(s, Curr(s, c), t);
    }
  }

  lemma TtwuBeginInv(s: State, c: Cpu, p: Tid, mask: set<SleepBit>, owing: bool)
    requires Inv(s) && CanTtwuBegin(s, c, p, mask, owing)
    ensures Inv(DoTtwuBegin(s, c, p, mask, owing))
  {
    var s1 := PutTask(s, p, Pay(s.tasks[p], owing));
    SameCoreInv(s, p, s1.tasks[p]);
    if Matches(s.tasks[p].state, mask) { TakePiInv(s1, c, p, owing); }
  }

  lemma TtwuLockedInv(s: State, c: Cpu)
    requires Inv(s) && CanTtwuLocked(s, c)
    ensures Inv(DoTtwuLocked(s, c))
  {
    var t := Target(s, c);
    assert Known(s, s.rqs[c].mode.p, c);
    if t.cpu != s.rqs[c].mode.ph.g || t.onRq.Migrating? {
      PutPhaseInv(s, c, Remote);
    } else if t.onRq.Queued? {
      WakeQueuedInv(s, c);
    } else {
      PutPhaseInv(s, c, Blocked);
    }
  }

  /** nr_iowait is no part of the invariant. */
  lemma DropIowaitInv(s: State, c: Cpu)
    requires Inv(s) && CanTtwuClaim(s, c)
    ensures Inv(DropIowait(s, c)) && AtPhase(DropIowait(s, c), c, Blocked)
  {
    var s1 := DropIowait(s, c);
    forall p, e | 0 <= p < |s1.tasks| && 0 <= e < |s1.rqs| ensures PairOk(p, s1.tasks[p], e, s1.rqs[e]) {
      assert PairOk(p, s.tasks[p], e, s.rqs[e]);
    }
    forall e, g | 0 <= e < |s1.rqs| && 0 <= g < |s1.rqs| ensures LockOk(e, s1.rqs[e].mode, g, s1.rqs[g].lock) {
      assert LockOk(e, s.rqs[e].mode, g, s.rqs[g].lock);
    }
  }

  lemma TtwuClaimInv(s: State, c: Cpu)
    requires Inv(s) && CanTtwuClaim(s, c)
    ensures Inv(DoTtwuClaim(s, c))
  {
    DropIowaitInv(s, c);
    StoreWakingInv(DropIowait(s, c), c);
  }

  lemma PhaseMovesInv(s: State, c: Cpu)
    requires Inv(s) && InTtwu(s, c)
    ensures AtPhase(s, c, Seen) ==> Inv(DoTtwuLoadOnRq(s, c))
    ensures AtPhase(s, c, Remote) ==> Inv(DoTtwuReadRq(s, c))
    ensures AtPhase(s, c, Claimed) ==> Inv(DoTtwuLoadOnCpu(s, c))
    ensures AtPhase(s, c, SawOnCpu) ==> Inv(DoTtwuNoList(s, c))
    ensures CanTtwuSpinDone(s, c) ==> Inv(DoTtwuSpinDone(s, c))
  {
    var t := Target(s, c);
    assert Known(s, s.rqs[c].mode.p, c) && Known(s, s.rqs[c].mode.p, t.cpu);
    match s.rqs[c].mode.ph {
      case Seen => PutPhaseInv(s, c, if t.onRq.Off? then Blocked else Remote);
      case Remote => PutPhaseInv(s, c, Guess(t.cpu));
      case Claimed => PutPhaseInv(s, c, if t.onCpu then SawOnCpu else Spin);
      case SawOnCpu => PutPhaseInv(s, c, Spin);
      case Spin => if !t.onCpu { PutPhaseInv(s, c, OffCpu); }
      case _ =>
    }
  }

  lemma LockCheckInv(s: State, c: Cpu)
    requires Inv(s) && CanLockCheck(s, c)
    ensures Inv(DoLockCheck(s, c))
  {
    if StillThere(s, c) { KeepRqLockInv(s, c); } else { DropPiInv(s, c); }
  }

  lemma StepLoopInv(s: State, e: Event)
    requires Inv(s) && StepLoop(s, e).Some?
    ensures Inv(StepLoop(s, e).value)
  {
    match e
    case LoopArm(c) => SameCoreInv(s, Curr(s, c), CurrTask(s, c).(needSleep := true, pc := Outside));
    case LoopSet(c) => StateWordInv(s, c, CurrTask(s, c).(state := Sleeping({UNINTERRUPTIBLE}), pc := StateSet));
    case LoopTest(c) => SameCoreInv(s, Curr(s, c), CurrTask(s, c).(pc := Tested));
    case LoopExit(c) => StateWordInv(s, c, CurrTask(s, c).(state := Running, pc := Outside));
    case ClearCondition(p) => SameCoreInv(s, p, s.tasks[p].(needSleep := false, owed := s.tasks[p].owed + 1));
    case _ =>
  }

  lemma StepOwnInv(s: State, e: Event)
    requires Inv(s) && StepOwn(s, e).Some?
    ensures Inv(StepOwn(s, e).value)
  {
    match e
    case SetState(c, st) => StateWordInv(s, c, CurrTask(s, c).(state := st, pc := Outside));
    case SetIowait(c, b) => SameCoreInv(s, Curr(s, c), CurrTask(s, c).(inIowait := b));
    case StartCount(c) => SameCoreInv(s, Curr(s, c), CurrTask(s, c).(switches := 0));
    case StopCount(c) =>
    case _ =>
  }

  lemma StepLockInv(s: State, e: Event)
    requires Inv(s) && StepLock(s, e).Some?
    ensures Inv(StepLock(s, e).value)
  {
    match e
    case LockRead(c, p) => LockReadInv(s, c, p);
    case LockCheck(c) => LockCheckInv(s, c);
    case LockedDetach(c, dest) => LockedDetachInv(s, c, dest);
    case LockDrop(c) => LockDropInv(s, c);
    case _ =>
  }

  lemma StepMoveInv(s: State, e: Event)
    requires Inv(s) && StepMove(s, e).Some?
    ensures Inv(StepMove(s, e).value)
  {
    match e
    case StopperDetach(c, p, dest) => StopperDetachInv(s, c, p, dest);
    case BalanceDetach(c, p, dest) => BalanceDetachInv(s, c, p, dest);
    case Attach(c) => AttachInv(s, c);
    case Swap(src, dst, p, q, allowed) => SwapInv(s, src, dst, p, q, allowed);
    case _ =>
  }

  lemma StepPlaceInv(s: State, e: Event)
    requires Inv(s) && StepPlace(s, e).Some?
    ensures Inv(StepPlace(s, e).value)
  {
    match e
    case TtwuLoadOnCpu(c) => PhaseMovesInv(s, c);
    case TtwuListOnCpu(c) => PushWakelistInv(s, c, false);
    case TtwuNoList(c) => PhaseMovesInv(s, c);
    case TtwuSpinDone(c) => PhaseMovesInv(s, c);
    case TtwuSelect(c, dest) => TtwuSelectInv(s, c, dest);
    case TtwuQueueList(c) => PushWakelistInv(s, c, s.rqs[c].mode.ph.migrated);
    case TtwuQueue(c) => TtwuQueueInv(s, c);
    case _ =>
  }

  lemma StepWakeInv(s: State, e: Event)
    requires Inv(s) && StepWake(s, e).Some?
    ensures Inv(StepWake(s, e).value)
  {
    match e
    case WakeSelf(c, mask, owing) => WakeSelfInv(s, c, mask, owing);
    case TtwuBegin(c, p, mask, owing) => TtwuBeginInv(s, c, p, mask, owing);
    case TtwuLoadOnRq(c) => PhaseMovesInv(s, c);
    case TtwuReadRq(c) => PhaseMovesInv(s, c);
    case TtwuLocked(c) => TtwuLockedInv(s, c);
    case TtwuClaim(c) => TtwuClaimInv(s, c);
    case _ =>
  }

  lemma StepArriveInv(s: State, e: Event)
    requires Inv(s) && StepArrive(s, e).Some?
    ensures Inv(StepArrive(s, e).value)
  {
    match e
    case Drain(c) => DrainInv(s, c);
    case Fork(c, mm) => ForkInv(s, c, mm);
    case NewPlace(c, p, dest) => NewPlaceInv(s, c, p, dest);
    case NewQueue(c) => NewQueueInv(s, c);
    case _ =>
  }

  lemma StepSwitchInv(s: State, e: Event)
    requires Inv(s) && StepSwitch(s, e).Some?
    ensures Inv(StepSwitch(s, e).value)
  {
    match e
    case Schedule(c, preempt, signal, frozen, next) => ScheduleInv(s, c, preempt, signal, frozen, next);
    case FinishTask(c) => FinishTaskInv(s, c);
    case FinishLock(c) => FinishLockInv(s, c);
    case _ =>
  }

  lemma StepInv(s: State, e: Event)
    requires Inv(s) && Enabled(s, e)
    ensures Inv(Apply(s, e))
  {
    if SwitchEvent(e) { StepSwitchInv(s, e); }
    else if ArriveEvent(e) { StepArriveInv(s, e); }
    else if WakeEvent(e) { StepWakeInv(s, e); }
    else if PlaceEvent(e) { StepPlaceInv(s, e); }
    else if MoveEvent(e) { StepMoveInv(s, e); }
    else if LockEvent(e) { StepLockInv(s, e); }
    else if OwnEvent(e) { StepOwnInv(s, e); }
    else { StepLoopInv(s, e); }
  }

  /** The invariant holds at the end of every run from a state where it holds. */
  lemma {:induction false} RunInv(s: State, es: seq<Event>)
    requires Inv(s) && ValidRun(s, es)
    ensures Inv(Final(s, es))
    decreases |es|
  {
    if |es| > 0 {
      StepInv(s, es[0]);
      RunInv(Apply(s, es[0]), es[1..]);
    }
  }

  lemma BootInv(s: State)
    requires Boot(s)
    ensures Inv(s)
  {
  }

  /** Every state reachable from boot satisfies the invariant. */
  lemma ReachableInv(s: State, es: seq<Event>)
    requires Boot(s) && ValidRun(s, es)
    ensures Inv(Final(s, es))
  {
    BootInv(s);
    RunInv(s, es);
  }
}
