/** What most events leave alone: current tasks, switch counters, address spaces, and who is asleep. */
module SchedFrame {
  import opened Wrappers
  import opened SchedState

  predicate RqStill(r: Rq, r': Rq) {
    r'.curr == r.curr && r'.idle == r.idle && r'.nrSwitches == r.nrSwitches && r'.prevMm == r.prevMm
      && r'.loadedMm == r.loadedMm
    && (r.mode.Switching? || r.mode.Switched? ==> r'.mode.Switching? || r'.mode.Switched?)
  }

  predicate TaskStill(t: Task, t': Task) {
    t'.nvcsw == t.nvcsw && t'.nivcsw == t.nivcsw && t'.switches == t.switches && t'.mm == t.mm
      && t'.activeMm == t.activeMm
    && (t'.onRq.Off? ==> t.onRq.Off?)
  }

  ghost predicate Still(s: State, s': State) {
    && |s'.tasks| == |s.tasks| && |s'.rqs| == |s.rqs| && s'.lazyRefs == s.lazyRefs
    && (forall c :: 0 <= c < |s.rqs| ==> RqStill(s.rqs[c], s'.rqs[c]))
    && (forall p :: 0 <= p < |s.tasks| ==> TaskStill(s.tasks[p], s'.tasks[p]))
  }

  /** The events that do touch those fields. */
  predicate Stirs(e: Event) { e.Schedule? || e.FinishLock? || e.Fork? || e.StartCount? }

  lemma LoopStill(s: State, e: Event)
    requires StepLoop(s, e).Some? && !Stirs(e)
    ensures Still(s, StepLoop(s, e).value)
  {
  }

  lemma OwnStill(s: State, e: Event)
    requires StepOwn(s, e).Some? && !Stirs(e)
    ensures Still(s, StepOwn(s, e).value)
  {
  }

  lemma LockedDetachStill(s: State, d: Cpu, dest: Cpu)
    requires CanLockedDetach(s, d, dest)
    ensures Still(s, DoLockedDetach(s, d, dest))
  {
  }

  lemma LockDropStill(s: State, d: Cpu)
    requires HasLock(s, d)
    ensures Still(s, DoLockDrop(s, d))
  {
  }

  lemma LockStill(s: State, e: Event)
    requires StepLock(s, e).Some? && !Stirs(e)
    ensures Still(s, StepLock(s, e).value)
  {
    if e.LockedDetach? { LockedDetachStill(s, e.c, e.dest); }
    if e.LockDrop? { LockDropStill(s, e.c); }
  }

  lemma MoveIfQueuedStill(s: State, p: Tid, src: Cpu, dst: Cpu)
    requires IsTask(s, p) && IsCpu(s, src) && IsCpu(s, dst)
    ensures Still(s, MoveIfQueued(s, p, src, dst))
  {
  }

  lemma SwapStill(s: State, src: Cpu, dst: Cpu, p: Tid, q: Tid, allowed: bool)
    requires CanSwap(s, src, dst, p, q)
    ensures Still(s, DoSwap(s, src, dst, p, q, allowed))
  {
    MoveIfQueuedStill(s, p, src, dst);
    MoveIfQueuedStill(MoveIfQueued(s, p, src, dst), q, dst, src);
  }

  lemma MoveStill(s: State, e: Event)
    requires StepMove(s, e).Some? && !Stirs(e)
    ensures Still(s, StepMove(s, e).value)
  {
    if e.Swap? { SwapStill(s, e.src, e.dst, e.p, e.q, e.allowed); }
  }

  lemma PushWakelistStill(s: State, c: Cpu, d: Cpu, remote: bool)
    requires InTtwu(s, c) && IsCpu(s, d)
    ensures Still(s, PushWakelist(s, c, d, remote))
  {
  }

  lemma TtwuSelectStill(s: State, d: Cpu, dest: Cpu)
    requires AtPhase(s, d, OffCpu) && IsCpu(s, dest)
    ensures Still(s, DoTtwuSelect(s, d, dest))
  {
  }

  lemma TtwuQueueStill(s: State, d: Cpu)
    requires CanTtwuQueue(s, d)
    ensures Still(s, DoTtwuQueue(s, d))
  {
  }

  lemma PlaceStill(s: State, e: Event)
    requires StepPlace(s, e).Some? && !Stirs(e)
    ensures Still(s, StepPlace(s, e).value)
  {
    match e
    case TtwuListOnCpu(d) => PushWakelistStill(s, d, Target(s, d).cpu, false);
    case TtwuSelect(d, dest) => TtwuSelectStill(s, d, dest);
    case TtwuQueueList(d) => PushWakelistStill(s, d, Target(s, d).cpu, s.rqs[d].mode.ph.migrated);
    case TtwuQueue(d) => TtwuQueueStill(s, d);
    case _ =>
  }

  lemma TtwuLockedStill(s: State, d: Cpu)
    requires CanTtwuLocked(s, d)
    ensures Still(s, DoTtwuLocked(s, d))
  {
  }

  lemma TtwuBeginStill(s: State, d: Cpu, p: Tid, mask: set<SleepBit>, owing: bool)
    requires CanTtwuBegin(s, d, p, mask, owing)
    ensures Still(s, DoTtwuBegin(s, d, p, mask, owing))
  {
  }

  lemma TtwuClaimStill(s: State, d: Cpu)
    requires CanTtwuClaim(s, d)
    ensures Still(s, DoTtwuClaim(s, d))
  {
  }

  lemma WakeStill(s: State, e: Event)
    requires StepWake(s, e).Some? && !Stirs(e)
    ensures Still(s, StepWake(s, e).value)
  {
    match e
    case TtwuBegin(d, p, mask, owing) => TtwuBeginStill(s, d, p, mask, owing);
    case TtwuLocked(d) => TtwuLockedStill(s, d);
    case TtwuClaim(d) => TtwuClaimStill(s, d);
    case _ =>
  }

  lemma ArriveStill(s: State, e: Event)
    requires StepArrive(s, e).Some? && !Stirs(e)
    ensures Still(s, StepArrive(s, e).value)
  {
  }

  lemma SwitchStill(s: State, e: Event)
    requires StepSwitch(s, e).Some? && !Stirs(e)
    ensures Still(s, StepSwitch(s, e).value)
  {
  }

  lemma StepStill(s: State, e: Event)
    requires Enabled(s, e) && !Stirs(e)
    ensures Still(s, Apply(s, e))
  {
    if SwitchEvent(e) { SwitchStill(s, e); }
    else if ArriveEvent(e) { ArriveStill(s, e); }
    else if WakeEvent(e) { WakeStill(s, e); }
    else if PlaceEvent(e) { PlaceStill(s, e); }
    else if MoveEvent(e) { MoveStill(s, e); }
    else if LockEvent(e) { LockStill(s, e); }
    else if OwnEvent(e) { OwnStill(s, e); }
    else { LoopStill(s, e); }
  }

  // ---------------------------------------------------------------- who is asleep

  /** A task as the load and iowait counts see it: asleep on a CPU, claimed by a waker, or neither. */
  datatype Nap = Awake | Asleep(load: bool, io: bool, cpu: Cpu) | Roused(load: bool)

  function NapOf(t: Task): Nap {
    if !t.onRq.Off? then Awake
    else match t.state
      case Sleeping(_) => Asleep(t.contributes, t.inIowait, t.cpu)
      case Waking(_) => Roused(t.contributes)
      case _ => Awake
  }

  ghost predicate NapStill(s: State, s': State) {
    && |s'.tasks| == |s.tasks| && |s'.rqs| == |s.rqs|
    && (forall c :: 0 <= c < |s.rqs| ==>
      s'.rqs[c].nrUninterruptible == s.rqs[c].nrUninterruptible && s'.rqs[c].nrIowait == s.rqs[c].nrIowait)
    && (forall p :: 0 <= p < |s.tasks| ==> NapOf(s'.tasks[p]) == NapOf(s.tasks[p]))
  }

  /** What is known of the tasks that CPUs run or work on. */
  predicate LiveCpu(s: State, c: Cpu) {
    && IsCpu(s, c) && IsTask(s, s.rqs[c].curr) && s.tasks[s.rqs[c].curr].onRq.Queued?
    && match s.rqs[c].mode
       case Ttwu(p, ph, _) => IsTask(s, p) &&
         (ph.SawOnCpu? || ph.Placed? || ph.OffCpu? ==> s.tasks[p].onRq.Off? && s.tasks[p].state.Waking?)
       case NewPlaced(p) => IsTask(s, p) && s.tasks[p].onRq.Off? && s.tasks[p].state.Running?
       case Carrying(p, _, _) => IsTask(s, p) && s.tasks[p].onRq.Migrating?
       case _ => true
  }

  ghost predicate Live(s: State) { forall c {:trigger s.rqs[c]} :: 0 <= c < |s.rqs| ==> LiveCpu(s, c) }

  /** The events that put a task to sleep, claim it, activate it or create one. */
  predicate Naps(e: Event) { e.Schedule? || e.TtwuClaim? || e.TtwuQueue? || e.Drain? || e.Fork? }

  lemma MoveIfQueuedNap(s: State, p: Tid, src: Cpu, dst: Cpu)
    requires IsTask(s, p) && IsCpu(s, src) && IsCpu(s, dst)
    ensures NapStill(s, MoveIfQueued(s, p, src, dst))
  {
  }

  lemma SwapNap(s: State, src: Cpu, dst: Cpu, p: Tid, q: Tid, allowed: bool)
    requires CanSwap(s, src, dst, p, q)
    ensures NapStill(s, DoSwap(s, src, dst, p, q, allowed))
  {
    MoveIfQueuedNap(s, p, src, dst);
    MoveIfQueuedNap(MoveIfQueued(s, p, src, dst), q, dst, src);
  }

  lemma LockedDetachNap(s: State, d: Cpu, dest: Cpu)
    requires Live(s) && CanLockedDetach(s, d, dest)
    ensures NapStill(s, DoLockedDetach(s, d, dest))
  {
  }

  lemma LockCheckNap(s: State, d: Cpu)
    requires CanLockCheck(s, d)
    ensures NapStill(s, DoLockCheck(s, d))
  {
  }

  lemma LockDropNap(s: State, d: Cpu)
    requires HasLock(s, d)
    ensures NapStill(s, DoLockDrop(s, d))
  {
  }

  lemma LoopNap(s: State, e: Event)
    requires Live(s) && StepLoop(s, e).Some? && !Naps(e)
    ensures NapStill(s, StepLoop(s, e).value)
  {
  }

  lemma OwnNap(s: State, e: Event)
    requires Live(s) && StepOwn(s, e).Some? && !Naps(e)
    ensures NapStill(s, StepOwn(s, e).value)
  {
  }

  lemma LockNap(s: State, e: Event)
    requires Live(s) && StepLock(s, e).Some? && !Naps(e)
    ensures NapStill(s, StepLock(s, e).value)
  {
    match e
    case LockRead(d, p) =>
    case LockCheck(d) => LockCheckNap(s, d);
    case LockedDetach(d, dest) => LockedDetachNap(s, d, dest);
    case LockDrop(d) => LockDropNap(s, d);
    case _ =>
  }

  lemma MoveNap(s: State, e: Event)
    requires Live(s) && StepMove(s, e).Some? && !Naps(e)
    ensures NapStill(s, StepMove(s, e).value)
  {
    if e.Swap? { SwapNap(s, e.src, e.dst, e.p, e.q, e.allowed); }
  }

  lemma TtwuListOnCpuNap(s: State, d: Cpu)
    requires Live(s) && CanTtwuListOnCpu(s, d)
    ensures NapStill(s, DoTtwuListOnCpu(s, d))
  {
  }

  lemma TtwuQueueListNap(s: State, d: Cpu)
    requires Live(s) && CanTtwuQueueList(s, d)
    ensures NapStill(s, DoTtwuQueueList(s, d))
  {
  }

  lemma PlaceNap(s: State, e: Event)
    requires Live(s) && StepPlace(s, e).Some? && !Naps(e)
    ensures NapStill(s, StepPlace(s, e).value)
  {
    if e.TtwuListOnCpu? { TtwuListOnCpuNap(s, e.c); }
    else if e.TtwuQueueList? { TtwuQueueListNap(s, e.c); }
  }

  lemma TtwuLockedNap(s: State, d: Cpu)
    requires Live(s) && CanTtwuLocked(s, d)
    ensures NapStill(s, DoTtwuLocked(s, d))
  {
  }

  lemma WakeNap(s: State, e: Event)
    requires Live(s) && StepWake(s, e).Some? && !Naps(e)
    ensures NapStill(s, StepWake(s, e).value)
  {
    if e.TtwuLocked? { TtwuLockedNap(s, e.c); }
  }

  lemma ArriveNap(s: State, e: Event)
    requires Live(s) && StepArrive(s, e).Some? && !Naps(e)
    ensures NapStill(s, StepArrive(s, e).value)
  {
  }

  lemma SwitchNap(s: State, e: Event)
    requires StepSwitch(s, e).Some? && !Naps(e)
    ensures NapStill(s, StepSwitch(s, e).value)
  {
  }

  lemma StepNap(s: State, e: Event)
    requires Live(s) && Enabled(s, e) && !Naps(e)
    ensures NapStill(s, Apply(s, e))
  {
    if SwitchEvent(e) { SwitchNap(s, e); }
    else if ArriveEvent(e) { ArriveNap(s, e); }
    else if WakeEvent(e) { WakeNap(s, e); }
    else if PlaceEvent(e) { PlaceNap(s, e); }
    else if MoveEvent(e) { MoveNap(s, e); }
    else if LockEvent(e) { LockNap(s, e); }
    else if OwnEvent(e) { OwnNap(s, e); }
    else { LoopNap(s, e); }
  }
}
