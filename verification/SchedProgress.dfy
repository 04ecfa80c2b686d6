/**
 * The sections that wait never wait for each other in a circle: from every reachable state the CPUs can all finish
 * what they are executing, each by going on with its own section, and then every wakeup under way has woken its task.
 */
module SchedProgress {
  import opened Wrappers
  import opened SchedState
  import opened SchedInvariant
  import opened SchedTtwu

  predicate Busy(s: State, c: Cpu) { IsCpu(s, c) && !s.rqs[c].mode.Run? }

  predicate HoldsLock(m: Mode) { m.Switching? || m.Switched? || m.LockHeld? }

  /** How CPU c goes on with its section; a waker places its task on its own CPU. */
  function NextEvent(s: State, c: Cpu): Event
    requires Busy(s, c)
  {
    match s.rqs[c].mode
    case Switching(_) => FinishTask(c)
    case Switched => FinishLock(c)
    case LockGuess(_, _) => LockCheck(c)
    case LockHeld(_, _) => LockDrop(c)
    case Carrying(_, _, _) => Attach(c)
    case NewPlaced(_) => NewQueue(c)
    case Ttwu(_, ph, _) =>
      match ph
      case Seen => TtwuLoadOnRq(c)
      case Remote => TtwuReadRq(c)
      case Guess(_) => TtwuLocked(c)
      case Blocked => TtwuClaim(c)
      case Claimed => TtwuLoadOnCpu(c)
      case SawOnCpu => TtwuNoList(c)
      case Spin => TtwuSpinDone(c)
      case OffCpu => TtwuSelect(c, c)
      case Placed(_) => TtwuQueue(c)
  }

  /** How far the section is from its end; a stale guess of a runqueue has to be made again. */
  function Left(s: State, c: Cpu): nat
    requires IsCpu(s, c)
  {
    match s.rqs[c].mode
    case Run => 0
    case Switching(_) => 2
    case Switched => 1
    case LockGuess(_, _) => 2
    case LockHeld(_, _) => 1
    case Carrying(_, _, _) => 1
    case NewPlaced(_) => 1
    case Ttwu(p, ph, _) =>
      match ph
      case Placed(_) => 1
      case OffCpu => 2
      case Spin => 3
      case SawOnCpu => 4
      case Claimed => 5
      case Blocked => 6
      case Guess(g) => if IsTask(s, p) && s.tasks[p].cpu == g then 7 else 9
      case Remote => 8
      case Seen => 10
  }

  /** No other CPU is in a section that c could have to wait for. */
  ghost predicate Clear(s: State, c: Cpu)
    requires IsCpu(s, c)
  {
    var m := s.rqs[c].mode;
    forall d :: 0 <= d < |s.rqs| && d != c ==>
      && (HoldsLock(s.rqs[d].mode) ==> HoldsLock(m)) && (s.rqs[d].mode.Carrying? ==> HoldsLock(m) || m.Carrying?)
  }

  /** c is waking q up. */
  predicate Wakes(s: State, c: Cpu, q: Tid) { IsCpu(s, c) && s.rqs[c].mode.Ttwu? && s.rqs[c].mode.p == q }

  /** A step of c: the other CPUs stay in their sections, */
  predicate OwnStep(s: State, s': State, c: Cpu) {
    && |s'.rqs| == |s.rqs| && |s'.tasks| == |s.tasks|
    && forall d :: 0 <= d < |s.rqs| && d != c ==> s'.rqs[d].mode == s.rqs[d].mode
  }

  /** who is awake stays awake, */
  ghost predicate StayAwake(s: State, s': State) { forall q :: 0 <= q < |s.tasks| && Awake(s, q) ==> Awake(s', q) }

  /** and c comes nearer to its end, which is not before the task that it wakes is awake. */
  predicate Nearer(s: State, s': State, c: Cpu)
    requires IsCpu(s, c) && IsCpu(s', c)
  {
    var m, m' := s.rqs[c].mode, s'.rqs[c].mode;
    && Left(s', c) < Left(s, c)
    && (m'.Run? || (!m.Carrying? && (HoldsLock(m) ==> HoldsLock(m'))))
    && (m.Ttwu? ==> Wakes(s', c, m.p) || Awake(s', m.p))
  }

  ghost predicate Onward(s: State, s': State, c: Cpu)
    requires IsCpu(s, c)
  { OwnStep(s, s', c) && StayAwake(s, s') && Nearer(s, s', c) }

  /** The next step of c is possible and takes c on. */
  ghost predicate GoesOn(s: State, c: Cpu) {
    Busy(s, c) && Enabled(s, NextEvent(s, c)) && Onward(s, Apply(s, NextEvent(s, c)), c)
  }

  lemma LockHolder(s: State, g: Cpu)
    requires Inv(s) && IsCpu(s, g) && s.rqs[g].lock.Some?
    ensures var w := s.rqs[g].lock.value; IsCpu(s, w) && HoldsLock(s.rqs[w].mode)
  {
    var w := s.rqs[g].lock.value;
    assert LockOk(w, s.rqs[w].mode, g, s.rqs[g].lock);
  }

  /** With nobody else in the way, every runqueue lock is free for a CPU that holds none. */
  lemma LocksClear(s: State, c: Cpu, g: Cpu)
    requires Inv(s) && IsCpu(s, c) && IsCpu(s, g) && Clear(s, c) && !HoldsLock(s.rqs[c].mode)
    ensures LockFree(s, g)
  {
    if s.rqs[g].lock.Some? { LockHolder(s, g); }
  }

  // ---------------------------------------------------------------- every section can go on

  lemma FinishTaskGoesOn(s: State, c: Cpu)
    requires CanFinishTask(s, c)
    ensures Onward(s, DoFinishTask(s, c), c)
  {
  }

  lemma FinishLockGoesOn(s: State, c: Cpu)
    requires CanFinishLock(s, c)
    ensures Onward(s, DoFinishLock(s, c), c)
  {
  }

  lemma LockCheckGoesOn(s: State, c: Cpu)
    requires CanLockCheck(s, c)
    ensures Onward(s, DoLockCheck(s, c), c)
  {
  }

  lemma LockDropGoesOn(s: State, c: Cpu)
    requires HasLock(s, c)
    ensures Onward(s, DoLockDrop(s, c), c)
  {
  }

  lemma AttachGoesOn(s: State, c: Cpu)
    requires CanAttach(s, c)
    ensures Onward(s, DoAttach(s, c), c)
  {
  }

  lemma NewQueueGoesOn(s: State, c: Cpu)
    requires CanNewQueue(s, c)
    ensures Onward(s, DoNewQueue(s, c), c)
  {
  }

  /** The steps of a waker that only load. */
  lemma PhaseGoesOn(s: State, c: Cpu, ph: Phase)
    requires InTtwu(s, c) && Left(PutPhase(s, c, ph), c) < Left(s, c)
    ensures Onward(s, PutPhase(s, c, ph), c)
  {
  }

  lemma SelectGoesOn(s: State, c: Cpu)
    requires AtPhase(s, c, OffCpu) && !Awake(s, s.rqs[c].mode.p)
    ensures Onward(s, DoTtwuSelect(s, c, c), c)
  {
  }

  lemma WakeQueuedGoesOn(s: State, c: Cpu)
    requires InTtwu(s, c) && IsCpu(s, Target(s, c).cpu) && Target(s, c).onRq.Queued?
    requires s.rqs[c].mode.p in s.rqs[Target(s, c).cpu].queue
    ensures Onward(s, WakeQueued(s, c), c)
  {
  }

  lemma ClaimGoesOn(s: State, c: Cpu)
    requires CanTtwuClaim(s, c) && !Awake(s, s.rqs[c].mode.p)
    ensures Onward(s, DoTtwuClaim(s, c), c)
  {
  }

  lemma QueueGoesOn(s: State, c: Cpu)
    requires CanTtwuQueue(s, c)
    ensures Onward(s, DoTtwuQueue(s, c), c)
  {
  }

  /** A waker that waits for on_cpu waits for a CPU in __schedule(), which finish_task() ends. */
  lemma SpinEnds(s: State, c: Cpu)
    requires Inv(s) && AtPhase(s, c, Spin) && Clear(s, c)
    ensures !Target(s, c).onCpu
  {
    var p, d := s.rqs[c].mode.p, Target(s, c).cpu;
    assert TaskOk(Target(s, c), |s.rqs|) && Known(s, p, c) && Known(s, p, d) && CpuOk(s.rqs[d], |s.rqs|, |s.tasks|);
  }

  /** One that has locked the runqueue of the task finds it there, on its way nowhere. */
  lemma RemoteEnds(s: State, c: Cpu)
    requires Inv(s) && InTtwu(s, c) && Clear(s, c) && s.rqs[c].mode.ph.Guess?
    ensures !Target(s, c).onRq.Migrating? && CanTtwuLocked(s, c) && Onward(s, DoTtwuLocked(s, c), c)
  {
    var p, t := s.rqs[c].mode.p, Target(s, c);
    assert CpuOk(s.rqs[c], |s.rqs|, |s.tasks|) && TaskOk(t, |s.rqs|) && Known(s, p, t.cpu);
    LocksClear(s, c, s.rqs[c].mode.ph.g);
    if t.onRq.Migrating? { Carrier(s, p); }
    if t.cpu != s.rqs[c].mode.ph.g {
      PhaseGoesOn(s, c, Remote);
    } else if t.onRq.Queued? {
      WakeQueuedGoesOn(s, c);
    } else {
      PhaseGoesOn(s, c, Blocked);
    }
  }

  lemma Carrier(s: State, p: Tid)
    requires Inv(s) && IsTask(s, p) && s.tasks[p].onRq.Migrating?
    ensures var d := s.tasks[p].onRq.mover; IsCpu(s, d) && s.rqs[d].mode.Carrying?
  {
    assert TaskOk(s.tasks[p], |s.rqs|) && Known(s, p, s.tasks[p].onRq.mover);
  }

  lemma WakeFires(s: State, c: Cpu, s': State)
    requires Busy(s, c) && WakeEvent(NextEvent(s, c)) && StepWake(s, NextEvent(s, c)) == Some(s') && Onward(s, s', c)
    ensures GoesOn(s, c)
  {
  }

  lemma PlaceFires(s: State, c: Cpu, s': State)
    requires Busy(s, c) && PlaceEvent(NextEvent(s, c)) && StepPlace(s, NextEvent(s, c)) == Some(s') && Onward(s, s', c)
    ensures GoesOn(s, c)
  {
  }

  lemma WakeGoesOn(s: State, c: Cpu)
    requires Inv(s) && InTtwu(s, c) && Clear(s, c) && WakeEvent(NextEvent(s, c))
    ensures GoesOn(s, c)
  {
    var t := Target(s, c);
    assert TaskOk(t, |s.rqs|) && Known(s, s.rqs[c].mode.p, c);
    match s.rqs[c].mode.ph
    case Seen =>
      PhaseGoesOn(s, c, if t.onRq.Off? then Blocked else Remote);
      WakeFires(s, c, DoTtwuLoadOnRq(s, c));
    case Remote =>
      PhaseGoesOn(s, c, Guess(t.cpu));
      WakeFires(s, c, DoTtwuReadRq(s, c));
    case Guess(_) =>
      RemoteEnds(s, c);
      WakeFires(s, c, DoTtwuLocked(s, c));
    case Blocked =>
      ClaimGoesOn(s, c);
      WakeFires(s, c, DoTtwuClaim(s, c));
  }

  lemma PlaceGoesOn(s: State, c: Cpu)
    requires Inv(s) && InTtwu(s, c) && Clear(s, c) && PlaceEvent(NextEvent(s, c))
    ensures GoesOn(s, c)
  {
    var t := Target(s, c);
    assert TaskOk(t, |s.rqs|) && Known(s, s.rqs[c].mode.p, c);
    match s.rqs[c].mode.ph
    case Claimed => ClaimedGoesOn(s, c);
    case SawOnCpu => ClaimedGoesOn(s, c);
    case Spin =>
      SpinEnds(s, c);
      ClaimedGoesOn(s, c);
    case OffCpu =>
      SelectGoesOn(s, c);
      PlaceFires(s, c, DoTtwuSelect(s, c, c));
    case Placed(_) =>
      LocksClear(s, c, t.cpu);
      QueueGoesOn(s, c);
      PlaceFires(s, c, DoTtwuQueue(s, c));
  }

  lemma ClaimedGoesOn(s: State, c: Cpu)
    requires AtPhase(s, c, Claimed) || AtPhase(s, c, SawOnCpu) || CanTtwuSpinDone(s, c)
    ensures GoesOn(s, c)
  {
    match s.rqs[c].mode.ph
    case Claimed =>
      PhaseGoesOn(s, c, if Target(s, c).onCpu then SawOnCpu else Spin);
      PlaceFires(s, c, DoTtwuLoadOnCpu(s, c));
    case SawOnCpu =>
      PhaseGoesOn(s, c, Spin);
      PlaceFires(s, c, DoTtwuNoList(s, c));
    case Spin =>
      PhaseGoesOn(s, c, OffCpu);
      PlaceFires(s, c, DoTtwuSpinDone(s, c));
  }

  /** A CPU that no one is in the way of can go on with its section. */
  lemma SectionGoesOn(s: State, c: Cpu)
    requires Inv(s) && Busy(s, c) && Clear(s, c)
    ensures GoesOn(s, c)
  {
    assert CpuOk(s.rqs[c], |s.rqs|, |s.tasks|);
    var m := s.rqs[c].mode;
    if m.Ttwu? {
      if WakeEvent(NextEvent(s, c)) { WakeGoesOn(s, c); } else { PlaceGoesOn(s, c); }
    } else if m.Switching? || m.Switched? {
      SwitchGoesOn(s, c);
    } else if m.LockGuess? || m.LockHeld? {
      LockGoesOn(s, c);
    } else {
      ArriveGoesOn(s, c);
    }
  }

  lemma SwitchGoesOn(s: State, c: Cpu)
    requires CanFinishTask(s, c) || CanFinishLock(s, c)
    ensures GoesOn(s, c)
  {
    if s.rqs[c].mode.Switching? { FinishTaskGoesOn(s, c); } else { FinishLockGoesOn(s, c); }
  }

  lemma LockGoesOn(s: State, c: Cpu)
    requires Inv(s) && Busy(s, c) && Clear(s, c) && (s.rqs[c].mode.LockGuess? || s.rqs[c].mode.LockHeld?)
    ensures GoesOn(s, c)
  {
    assert CpuOk(s.rqs[c], |s.rqs|, |s.tasks|);
    if s.rqs[c].mode.LockGuess? {
      LocksClear(s, c, s.rqs[c].mode.g);
      LockCheckGoesOn(s, c);
    } else {
      LockDropGoesOn(s, c);
    }
  }

  lemma ArriveGoesOn(s: State, c: Cpu)
    requires Inv(s) && Busy(s, c) && Clear(s, c) && (s.rqs[c].mode.Carrying? || s.rqs[c].mode.NewPlaced?)
    ensures GoesOn(s, c)
  {
    if s.rqs[c].mode.Carrying? {
      CarrierGoesOn(s, c);
    } else {
      assert CpuOk(s.rqs[c], |s.rqs|, |s.tasks|) && TaskOk(s.tasks[s.rqs[c].mode.p], |s.rqs|);
      LocksClear(s, c, s.tasks[s.rqs[c].mode.p].cpu);
      NewQueueGoesOn(s, c);
    }
  }

  lemma CarrierGoesOn(s: State, c: Cpu)
    requires Inv(s) && Busy(s, c) && Clear(s, c) && s.rqs[c].mode.Carrying?
    ensures GoesOn(s, c)
  {
    assert CpuOk(s.rqs[c], |s.rqs|, |s.tasks|);
    LocksClear(s, c, s.rqs[c].mode.dest);
    AttachGoesOn(s, c);
  }

  // ---------------------------------------------------------------- all of them come to their end

  /** A run in which every step goes on with a section that is under way: nothing new is begun. */
  ghost predicate Continues(s: State, es: seq<Event>)
    decreases |es|
  {
    |es| == 0 ||
    ((exists c :: Busy(s, c) && es[0] == NextEvent(s, c)) && Enabled(s, es[0]) && Continues(Apply(s, es[0]), es[1..]))
  }

  lemma {:induction false} ContinuesIsRun(s: State, es: seq<Event>)
    requires Continues(s, es)
    ensures ValidRun(s, es)
    decreases |es|
  {
    if |es| > 0 { ContinuesIsRun(Apply(s, es[0]), es[1..]); }
  }

  function BusyCpus(s: State): set<Cpu> { set c: Cpu | c < |s.rqs| && !s.rqs[c].mode.Run? }

  predicate AllOut(s: State) { forall c :: 0 <= c < |s.rqs| ==> s.rqs[c].mode.Run? }

  lemma NoneBusy(s: State)
    requires BusyCpus(s) == {}
    ensures AllOut(s)
  {
    forall c | 0 <= c < |s.rqs| ensures s.rqs[c].mode.Run? { assert c !in BusyCpus(s); }
  }

  /** Holders of locks go first, then those that carry a task. */
  lemma SomeoneClear(s: State) returns (c: Cpu)
    requires BusyCpus(s) != {}
    ensures Busy(s, c) && Clear(s, c)
  {
    if d :| d in BusyCpus(s) && HoldsLock(s.rqs[d].mode) {
      c := d;
    } else if d :| d in BusyCpus(s) && s.rqs[d].mode.Carrying? {
      c := d;
      assert forall e :: 0 <= e < |s.rqs| && HoldsLock(s.rqs[e].mode) ==> e in BusyCpus(s);
    } else {
      c :| c in BusyCpus(s);
      assert forall e :: 0 <= e < |s.rqs| && (HoldsLock(s.rqs[e].mode) || s.rqs[e].mode.Carrying?) ==> e in BusyCpus(s);
    }
  }

  /** p is awake, or some CPU is waking it up. */
  ghost predicate Attended(s: State, p: Tid) { Awake(s, p) || exists c :: Wakes(s, c, p) }

  lemma StaysAttended(s: State, s': State, c: Cpu, p: Tid)
    requires IsCpu(s, c) && Onward(s, s', c) && IsTask(s, p) && Attended(s, p)
    ensures Attended(s', p)
  {
    if d :| Wakes(s, d, p) { if d != c { assert Wakes(s', d, p); } }
  }

  /** Every CPU has finished, and whoever was attended to is awake. */
  ghost predicate Settled(s: State, f: State) {
    && Inv(f) && AllOut(f) && |f.tasks| == |s.tasks|
    && forall p :: 0 <= p < |s.tasks| && Attended(s, p) ==> Awake(f, p)
  }

  lemma SettledFrom(s: State, s': State, c: Cpu, f: State)
    requires IsCpu(s, c) && Onward(s, s', c) && Settled(s', f)
    ensures Settled(s, f)
  {
    forall p | 0 <= p < |s.tasks| && Attended(s, p) ensures Awake(f, p) { StaysAttended(s, s', c, p); }
  }

  lemma SettledNow(s: State)
    requires Inv(s) && AllOut(s)
    ensures Settled(s, s)
  {
  }

  lemma FewerBusy(s: State, s': State, c: Cpu)
    requires Busy(s, c) && Clear(s, c) && Onward(s, s', c)
    ensures if Busy(s', c) then BusyCpus(s') == BusyCpus(s) && Clear(s', c)
      else BusyCpus(s') == BusyCpus(s) - {c} && c in BusyCpus(s)
  {
  }

  lemma OneMore(s: State, c: Cpu, rest: seq<Event>)
    requires GoesOn(s, c) && Continues(Apply(s, NextEvent(s, c)), rest)
    ensures Continues(s, [NextEvent(s, c)] + rest) && ValidRun(s, [NextEvent(s, c)] + rest)
    ensures ValidRun(Apply(s, NextEvent(s, c)), rest)
    ensures Final(s, [NextEvent(s, c)] + rest) == Final(Apply(s, NextEvent(s, c)), rest)
  {
    var es := [NextEvent(s, c)] + rest;
    assert es[1..] == rest && es[0] == NextEvent(s, c);
    ContinuesIsRun(s, es);
  }

  lemma {:induction false} SettleWith(s: State, c: Cpu) returns (es: seq<Event>)
    requires Inv(s) && Busy(s, c) && Clear(s, c)
    ensures Continues(s, es) && ValidRun(s, es) && Settled(s, Final(s, es))
    decreases |BusyCpus(s)|, Left(s, c)
  {
    SectionGoesOn(s, c);
    var s' := Apply(s, NextEvent(s, c));
    StepInv(s, NextEvent(s, c));
    FewerBusy(s, s', c);
    var rest: seq<Event>;
    if Busy(s', c) { rest := SettleWith(s', c); } else { rest := Settle(s'); }
    es := [NextEvent(s, c)] + rest;
    OneMore(s, c, rest);
    SettledFrom(s, s', c, Final(s', rest));
  }

  /**
   * From every state of the protocol there is a run that begins nothing new and ends with every CPU out of its
   * section: no circle of waiters among runqueue locks, pi_locks, on_cpu and migrations.  At its end every task whose
   * wakeup was under way is awake, and every task that was awake still is.
   */
  lemma {:induction false} Settle(s: State) returns (es: seq<Event>)
    requires Inv(s)
    ensures Continues(s, es) && ValidRun(s, es) && Settled(s, Final(s, es))
    decreases |BusyCpus(s)|, 11
  {
    if BusyCpus(s) == {} {
      es := [];
      NoneBusy(s);
      SettledNow(s);
    } else {
      var c := SomeoneClear(s);
      es := SettleWith(s, c);
    }
  }

  /** Once settled, no lock is held, no task is between runqueues or CPUs, and no task is half woken. */
  lemma SettledIsQuiet(s: State, p: Tid, c: Cpu)
    requires Inv(s) && AllOut(s) && IsTask(s, p) && IsCpu(s, c)
    ensures LockFree(s, c) && s.tasks[p].piLock.None? && !s.tasks[p].onRq.Migrating?
    ensures s.tasks[p].state.Waking? ==> IsCpu(s, s.tasks[p].cpu) && p in s.rqs[s.tasks[p].cpu].wakelist
    ensures s.tasks[p].onCpu <==> IsCpu(s, s.tasks[p].cpu) && s.rqs[s.tasks[p].cpu].curr == p
  {
    var t := s.tasks[p];
    assert TaskOk(t, |s.rqs|) && Known(s, p, t.cpu);
    if s.rqs[c].lock.Some? { LockHolder(s, c); }
    if t.onRq.Migrating? { Carrier(s, p); }
    if t.piLock.Some? { PiHolder(s, p); }
  }

  lemma PiHolder(s: State, p: Tid)
    requires Inv(s) && IsTask(s, p) && s.tasks[p].piLock.Some?
    ensures Busy(s, s.tasks[p].piLock.value)
  {
    assert TaskOk(s.tasks[p], |s.rqs|) && Known(s, p, s.tasks[p].piLock.value);
  }

  /** In no reachable state are CPUs stuck, and no wakeup that has matched its task is lost. */
  lemma NobodyIsStuck(s: State, es: seq<Event>) returns (more: seq<Event>)
    requires Boot(s) && ValidRun(s, es)
    ensures Continues(Final(s, es), more) && ValidRun(Final(s, es), more)
    ensures Settled(Final(s, es), Final(Final(s, es), more))
  {
    ReachableInv(s, es);
    more := Settle(Final(s, es));
  }

  /** Going on with what is under way, and nothing else, ends with p awake. */
  ghost predicate EndsAwake(s: State, p: Tid) {
    exists more :: Continues(s, more) && ValidRun(s, more) && Awake(Final(s, more), p)
  }

  lemma AttendedEndsAwake(s: State, p: Tid)
    requires Inv(s) && IsTask(s, p) && Attended(s, p)
    ensures EndsAwake(s, p)
  {
    var more := Settle(s);
  }

  /** A call of try_to_wake_up() that matches wakes the task, if not by itself then once its waiting is over. */
  lemma TryCompletes(s: State, c: Cpu, p: Tid, mask: set<SleepBit>, dest: Cpu, list: bool)
    requires Inv(s) && CanTry(s, c, p, mask) && IsCpu(s, dest)
    ensures s.tasks[p].state.Sleeping? && s.tasks[p].state.bits * mask != {} ==>
      EndsAwake(Try(s, c, p, mask, dest, list).state, p)
  {
    if !s.tasks[p].state.Sleeping? || s.tasks[p].state.bits * mask == {} { return; }
    var o := Try(s, c, p, mask, dest, list);
    TryAchieves(s, c, p, mask, dest, list);
    var es := TryRuns(s, c, p, mask, dest, list);
    RunInv(s, es);
    if o.result.Waiting? {
      assert Wakes(o.state, c, p);
      assert CpuOk(o.state.rqs[c], |o.state.rqs|, |o.state.tasks|);
    }
    AttendedEndsAwake(o.state, p);
  }
}
