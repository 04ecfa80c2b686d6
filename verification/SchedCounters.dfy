/**
 * Switch counters over runs: the repository's process_switches_count, the kernel's own nvcsw, nivcsw and
 * nr_switches, and the number that wait_task_inactive() returns.
 */
module SchedCounters {
  import opened Wrappers
  import opened SchedState
  import opened SchedInvariant
  import opened SchedFrame

  // ---------------------------------------------------------------- observing a run

  /** Between s and s' some CPU starts (stops) running p. */
  ghost predicate SwitchedTo(s: State, s': State, p: Tid) {
    exists c :: 0 <= c < |s.rqs| && c < |s'.rqs| && s.rqs[c].curr != p && s'.rqs[c].curr == p
  }

  ghost predicate SwitchedFrom(s: State, s': State, p: Tid) {
    exists c :: 0 <= c < |s.rqs| && c < |s'.rqs| && s.rqs[c].curr == p && s'.rqs[c].curr != p
  }

  /** The switch is a voluntary one: p called schedule() in a state other than TASK_RUNNING. */
  ghost predicate GivesWay(s: State, e: Event, p: Tid)
    requires Enabled(s, e)
  {
    SwitchedFrom(s, Apply(s, e), p) && IsTask(s, p) && e.Schedule? && !e.preempt && !s.tasks[p].state.Running?
  }

  /** How often an observer sees a task switched in, switched out, and switched out voluntarily. */
  datatype Sighting = Sighting(ins: nat, outs: nat, vol: nat)

  function Plus(a: Sighting, b: Sighting): Sighting { Sighting(a.ins + b.ins, a.outs + b.outs, a.vol + b.vol) }

  function Bit(b: bool): nat { if b then 1 else 0 }

  ghost function SeeStep(s: State, e: Event, p: Tid): Sighting
    requires Enabled(s, e)
  {
    var s' := Apply(s, e);
    Sighting(Bit(SwitchedTo(s, s', p)), Bit(SwitchedFrom(s, s', p)), Bit(GivesWay(s, e, p)))
  }

  ghost function See(s: State, es: seq<Event>, p: Tid): Sighting
    requires ValidRun(s, es)
    decreases |es|
  {
    if |es| == 0 then Sighting(0, 0, 0) else Plus(SeeStep(s, es[0], p), See(Apply(s, es[0]), es[1..], p))
  }

  ghost predicate OnSomeCpu(s: State, p: Tid) { exists c :: 0 <= c < |s.rqs| && s.rqs[c].curr == p }

  /** Task p itself calls start_to_count_number_of_process_switches(). */
  predicate Starts(s: State, e: Event, p: Tid) { e.StartCount? && IsCpu(s, e.c) && s.rqs[e.c].curr == p }

  ghost predicate NoStart(s: State, es: seq<Event>, p: Tid)
    requires ValidRun(s, es)
    decreases |es|
  { |es| > 0 ==> !Starts(s, es[0], p) && NoStart(Apply(s, es[0]), es[1..], p) }

  // ---------------------------------------------------------------- one step

  /** The counters of a task move by what was seen; r and r' say whether the task is current before and after. */
  predicate Tally(t: Task, t': Task, o: Sighting, counting: bool, r: bool, r': bool) {
    && (counting ==> t'.switches == (t.switches + o.ins) % 0x1_0000_0000)
    && o.ins - o.outs == Bit(r') - Bit(r)
    && t'.nvcsw == (t.nvcsw + o.vol) % 0x1_0000_0000_0000_0000
    && t'.nivcsw == (t.nivcsw + o.outs - o.vol) % 0x1_0000_0000_0000_0000
  }

  /** No CPU changes its current task. */
  ghost predicate NoSwitch(s: State, s': State) {
    && |s'.rqs| == |s.rqs| && |s.tasks| <= |s'.tasks|
    && (forall c :: 0 <= c < |s.rqs| ==> s'.rqs[c].curr == s.rqs[c].curr && s'.rqs[c].nrSwitches == s.rqs[c].nrSwitches)
    && (forall p :: 0 <= p < |s.tasks| ==>
      s'.tasks[p].nvcsw == s.tasks[p].nvcsw && s'.tasks[p].nivcsw == s.tasks[p].nivcsw)
    && (forall p :: |s.tasks| <= p < |s'.tasks| ==> s'.tasks[p].nvcsw == 0 && s'.tasks[p].nivcsw == 0)
  }

  lemma StirsNoSwitch(s: State, e: Event)
    requires Enabled(s, e) && (e.FinishLock? || e.Fork? || e.StartCount?)
    ensures NoSwitch(s, Apply(s, e))
    ensures forall p :: 0 <= p < |s.tasks| && !Starts(s, e, p) ==> Apply(s, e).tasks[p].switches == s.tasks[p].switches
  {
  }

  lemma OnlyScheduleSwitches(s: State, e: Event)
    requires Enabled(s, e) && !e.Schedule?
    ensures NoSwitch(s, Apply(s, e))
    ensures forall p :: 0 <= p < |s.tasks| && !Starts(s, e, p) ==> Apply(s, e).tasks[p].switches == s.tasks[p].switches
  {
    if Stirs(e) { StirsNoSwitch(s, e); } else { StepStill(s, e); }
  }

  lemma NoSwitchSeen(s: State, s': State, p: Tid)
    requires NoSwitch(s, s') && IsTask(s, p)
    ensures !SwitchedFrom(s, s', p) && !SwitchedTo(s, s', p) && (OnSomeCpu(s', p) <==> OnSomeCpu(s, p))
  {
  }

  /** What the locked section of __schedule() does to the counters, when CPU c goes from prev to next. */
  ghost predicate Switches(s: State, s': State, c: Cpu, next: Tid, voluntary: bool) {
    && Idling(s, c) && IsTask(s, next) && |s'.rqs| == |s.rqs| && |s'.tasks| == |s.tasks|
    && (forall d :: 0 <= d < |s.rqs| && d != c ==>
      s'.rqs[d].curr == s.rqs[d].curr && s'.rqs[d].nrSwitches == s.rqs[d].nrSwitches)
    && var prev := s.rqs[c].curr;
    && prev != next && s'.rqs[c].curr == next && s'.rqs[c].nrSwitches == Inc64(s.rqs[c].nrSwitches)
    && (forall p :: 0 <= p < |s.tasks| ==>
      var t, t' := s.tasks[p], s'.tasks[p];
      && t'.switches == (if p == next then Inc32(t.switches) else t.switches)
      && t'.nvcsw == (if p == prev && voluntary then Inc64(t.nvcsw) else t.nvcsw)
      && t'.nivcsw == (if p == prev && !voluntary then Inc64(t.nivcsw) else t.nivcsw))
  }

  /** Going to sleep touches no counter of switches. */
  lemma PutPrevNoSwitch(s: State, c: Cpu, preempt: bool, signal: bool, frozen: bool)
    requires Idling(s, c)
    ensures var s' := PutPrev(s, c, preempt, signal, frozen);
      && NoSwitch(s, s') && |s'.tasks| == |s.tasks| && Idling(s', c)
      && (forall p :: 0 <= p < |s.tasks| ==> s'.tasks[p].switches == s.tasks[p].switches)
  {
  }

  lemma SwitchInSwitches(s: State, c: Cpu, voluntary: bool, next: Tid)
    requires Idling(s, c) && IsTask(s, next) && next != Curr(s, c)
    ensures Switches(s, SwitchIn(s, c, voluntary, next), c, next, voluntary)
  {
  }

  /** A task current on one CPU is current on no other. */
  ghost predicate SoleCurr(s: State) {
    forall c, d :: 0 <= c < |s.rqs| && 0 <= d < |s.rqs| && s.rqs[c].curr == s.rqs[d].curr ==> c == d
  }

  lemma InvSoleCurr(s: State)
    requires Inv(s)
    ensures SoleCurr(s)
  {
    forall c, d | 0 <= c < |s.rqs| && 0 <= d < |s.rqs| && s.rqs[c].curr == s.rqs[d].curr ensures c == d {
      assert CpuOk(s.rqs[c], |s.rqs|, |s.tasks|);
      assert Known(s, s.rqs[c].curr, c) && Known(s, s.rqs[c].curr, d);
    }
  }

  lemma SwitchesSeen(s: State, s': State, c: Cpu, next: Tid, voluntary: bool, p: Tid)
    requires Switches(s, s', c, next, voluntary) && SoleCurr(s) && SoleCurr(s') && IsTask(s, p)
    ensures SwitchedFrom(s, s', p) <==> p == s.rqs[c].curr
    ensures SwitchedTo(s, s', p) <==> p == next
    ensures if p == next then !OnSomeCpu(s, p) && OnSomeCpu(s', p)
            else if p == s.rqs[c].curr then OnSomeCpu(s, p) && !OnSomeCpu(s', p)
            else OnSomeCpu(s', p) == OnSomeCpu(s, p)
  {
    assert s.rqs[c].curr != s'.rqs[c].curr;
    if p != next && p != s.rqs[c].curr && OnSomeCpu(s, p) {
      var d :| 0 <= d < |s.rqs| && s.rqs[d].curr == p;
      assert s'.rqs[d].curr == p;
    }
  }

  lemma SwitchesTally(s: State, s': State, c: Cpu, next: Tid, voluntary: bool, p: Tid)
    requires Switches(s, s', c, next, voluntary) && SoleCurr(s) && SoleCurr(s') && IsTask(s, p)
    ensures Tally(s.tasks[p], s'.tasks[p], Sighting(Bit(SwitchedTo(s, s', p)), Bit(SwitchedFrom(s, s', p)),
      Bit(SwitchedFrom(s, s', p) && voluntary)),
      true, OnSomeCpu(s, p), OnSomeCpu(s', p))
  {
    SwitchesSeen(s, s', c, next, voluntary, p);
  }

  lemma NoSwitchTally(s: State, s': State, p: Tid, counting: bool)
    requires NoSwitch(s, s') && IsTask(s, p) && (counting ==> s'.tasks[p].switches == s.tasks[p].switches)
    ensures Tally(s.tasks[p], s'.tasks[p], Sighting(0, 0, 0), counting, OnSomeCpu(s, p), OnSomeCpu(s', p))
    ensures !SwitchedFrom(s, s', p) && !SwitchedTo(s, s', p)
  {
    NoSwitchSeen(s, s', p);
  }

  lemma SameCurrSeen(s: State, s1: State, s': State, p: Tid)
    requires NoSwitch(s, s1) && |s'.rqs| == |s.rqs|
    ensures (SwitchedTo(s, s', p) <==> SwitchedTo(s1, s', p)) && (SwitchedFrom(s, s', p) <==> SwitchedFrom(s1, s', p))
    ensures OnSomeCpu(s, p) <==> OnSomeCpu(s1, p)
  {
  }

  lemma TwoPhaseTally(s: State, s1: State, s': State, c: Cpu, next: Tid, voluntary: bool, p: Tid)
    requires NoSwitch(s, s1) && |s1.tasks| == |s.tasks| && IsTask(s, p) && s1.tasks[p].switches == s.tasks[p].switches
    requires Switches(s1, s', c, next, voluntary) && SoleCurr(s) && SoleCurr(s')
    ensures Tally(s.tasks[p], s'.tasks[p], Sighting(Bit(SwitchedTo(s, s', p)), Bit(SwitchedFrom(s, s', p)),
      Bit(SwitchedFrom(s, s', p) && voluntary)),
      true, OnSomeCpu(s, p), OnSomeCpu(s', p))
    ensures SwitchedFrom(s, s', p) ==> p == s.rqs[c].curr
  {
    SameCurrSeen(s, s1, s', p);
    SwitchesTally(s1, s', c, next, voluntary, p);
    SwitchesSeen(s1, s', c, next, voluntary, p);
  }

  lemma ScheduleTally(s: State, c: Cpu, preempt: bool, signal: bool, frozen: bool, next: Tid, p: Tid)
    requires CanSchedule(s, c, preempt, signal, next) && IsTask(s, p)
    requires SoleCurr(s) && SoleCurr(DoSchedule(s, c, preempt, signal, frozen, next))
    ensures var s' := DoSchedule(s, c, preempt, signal, frozen, next);
      && IsTask(s', p)
      && Tally(s.tasks[p], s'.tasks[p],
        Sighting(Bit(SwitchedTo(s, s', p)), Bit(SwitchedFrom(s, s', p)),
          Bit(SwitchedFrom(s, s', p) && Voluntary(CurrTask(s, c), preempt))),
        true, OnSomeCpu(s, p), OnSomeCpu(s', p))
      && (SwitchedFrom(s, s', p) ==> p == s.rqs[c].curr)
  {
    var s1, s' := PutPrev(s, c, preempt, signal, frozen), DoSchedule(s, c, preempt, signal, frozen, next);
    PutPrevNoSwitch(s, c, preempt, signal, frozen);
    if next == Curr(s, c) {
      NoSwitchTally(s, s', p, true);
    } else {
      var v := Voluntary(CurrTask(s, c), preempt);
      SwitchInSwitches(s1, c, v, next);
      TwoPhaseTally(s, s1, s', c, next, v, p);
    }
  }

  ghost predicate StepTallied(s: State, e: Event, p: Tid)
    requires Inv(s) && Enabled(s, e) && IsTask(s, p)
  {
    var s' := Apply(s, e);
    IsTask(s', p) && Tally(s.tasks[p], s'.tasks[p], SeeStep(s, e, p), !Starts(s, e, p), OnSomeCpu(s, p),
      OnSomeCpu(s', p))
  }

  lemma ScheduleStepTally(s: State, e: Event, p: Tid)
    requires Inv(s) && Enabled(s, e) && IsTask(s, p) && e.Schedule?
    requires SoleCurr(s) && SoleCurr(Apply(s, e))
    ensures StepTallied(s, e, p)
  {
    ScheduleTally(s, e.c, e.preempt, e.signal, e.frozen, e.next, p);
    assert GivesWay(s, e, p) <==> SwitchedFrom(s, Apply(s, e), p) && Voluntary(CurrTask(s, e.c), e.preempt);
  }

  lemma StepTally(s: State, e: Event, p: Tid)
    requires Inv(s) && Enabled(s, e) && IsTask(s, p)
    ensures StepTallied(s, e, p)
  {
    StepInv(s, e);
    InvSoleCurr(s);
    InvSoleCurr(Apply(s, e));
    if e.Schedule? {
      ScheduleStepTally(s, e, p);
    } else {
      OnlyScheduleSwitches(s, e);
      NoSwitchTally(s, Apply(s, e), p, !Starts(s, e, p));
    }
  }

  // ---------------------------------------------------------------- whole runs

  lemma ModAdd32(a: int, b: int)
    ensures (a % 0x1_0000_0000 + b) % 0x1_0000_0000 == (a + b) % 0x1_0000_0000
  {
  }

  lemma ModAdd64(a: int, b: int)
    ensures (a % 0x1_0000_0000_0000_0000 + b) % 0x1_0000_0000_0000_0000 == (a + b) % 0x1_0000_0000_0000_0000
  {
  }

  lemma TallyTrans(t: Task, t1: Task, t2: Task, o1: Sighting, o2: Sighting, c1: bool, c2: bool, r: bool, r1: bool,
    r2: bool)
    requires Tally(t, t1, o1, c1, r, r1) && Tally(t1, t2, o2, c2, r1, r2)
    ensures Tally(t, t2, Plus(o1, o2), c1 && c2, r, r2)
  {
    ModAdd32(t.switches + o1.ins, o2.ins);
    ModAdd64(t.nvcsw + o1.vol, o2.vol);
    ModAdd64(t.nivcsw + o1.outs - o1.vol, o2.outs - o2.vol);
  }

  /** Over any run, the counters of p are what the observed switches make them. */
  lemma {:induction false} RunTally(s: State, es: seq<Event>, p: Tid)
    requires Inv(s) && ValidRun(s, es) && IsTask(s, p)
    ensures IsTask(Final(s, es), p)
    ensures Tally(s.tasks[p], Final(s, es).tasks[p], See(s, es, p), NoStart(s, es, p), OnSomeCpu(s, p),
      OnSomeCpu(Final(s, es), p))
    decreases |es|
  {
    if |es| > 0 {
      var s1, es1 := Apply(s, es[0]), es[1..];
      StepTally(s, es[0], p);
      StepInv(s, es[0]);
      RunTally(s1, es1, p);
      TallyTrans(s.tasks[p], s1.tasks[p], Final(s1, es1).tasks[p], SeeStep(s, es[0], p), See(s1, es1, p),
        !Starts(s, es[0], p), NoStart(s1, es1, p), OnSomeCpu(s, p), OnSomeCpu(s1, p), OnSomeCpu(Final(s, es), p));
    }
  }

  /** What stop_to_count_number_of_process_switches() returns to the task running on CPU c. */
  function StopResult(s: State, c: Cpu): U32
    requires Idling(s, c)
  { CurrTask(s, c).switches }

  /**
   * The counter of t' is the number of times the task was switched in since t, and out, and what nvcsw + nivcsw
   * grew by.
   */
  predicate CountsRight(t: Task, t': Task, o: Sighting) {
    && t'.switches == o.ins % 0x1_0000_0000 && o.ins == o.outs
    && t'.switches == (t'.nvcsw + t'.nivcsw - t.nvcsw - t.nivcsw) % 0x1_0000_0000
  }

  /**
   * A task that has just called start on some CPU (s) runs on until it calls stop on the same or another CPU d: stop
   * returns, modulo 2^32, how often the task was switched in since, which is how often it was switched out, which is
   * the growth of its nvcsw + nivcsw.
   */
  lemma StopCountsSwitches(s: State, c: Cpu, es: seq<Event>, d: Cpu, p: Tid)
    requires Inv(s) && Idling(s, c) && Curr(s, c) == p && s.tasks[p].switches == 0
    requires ValidRun(s, es) && NoStart(s, es, p) && Idling(Final(s, es), d) && Curr(Final(s, es), d) == p
    ensures var f, o := Final(s, es), See(s, es, p);
      StopResult(f, d) == f.tasks[p].switches && CountsRight(s.tasks[p], f.tasks[p], o)
  {
    TallyWhileRunning(s, c, es, d, p);
    TallyAtStop(s.tasks[p], Final(s, es).tasks[p], See(s, es, p));
  }

  /** The run es leads from s, where the task p on CPU c had its counter at 0, to f, where p runs on CPU d. */
  ghost predicate Window(s: State, c: Cpu, es: seq<Event>, f: State, d: Cpu, p: Tid) {
    && Inv(s) && Idling(s, c) && Curr(s, c) == p && s.tasks[p].switches == 0
    && ValidRun(s, es) && NoStart(s, es, p) && Final(s, es) == f && Idling(f, d) && Curr(f, d) == p
  }

  /** The value is that number of switches of p. */
  ghost predicate IsSwitchCount(count: U32, s: State, es: seq<Event>, f: State, p: Tid)
    requires ValidRun(s, es) && IsTask(s, p) && IsTask(f, p)
  {
    count == f.tasks[p].switches && CountsRight(s.tasks[p], f.tasks[p], See(s, es, p))
  }

  lemma WindowCounts(s: State, c: Cpu, es: seq<Event>, f: State, d: Cpu, p: Tid)
    requires Window(s, c, es, f, d, p)
    ensures IsSwitchCount(f.tasks[p].switches, s, es, f, p)
  {
    StopCountsSwitches(s, c, es, d, p);
  }

  /** So stop returns it for every window that ends in the call. */
  lemma StopCountsWindows(f: State, d: Cpu)
    requires Idling(f, d)
    ensures forall s, c, es :: Window(s, c, es, f, d, Curr(f, d)) ==>
      IsSwitchCount(StopResult(f, d), s, es, f, Curr(f, d))
  {
    forall s, c, es | Window(s, c, es, f, d, Curr(f, d))
      ensures IsSwitchCount(StopResult(f, d), s, es, f, Curr(f, d))
    {
      WindowCounts(s, c, es, f, d, Curr(f, d));
    }
  }

  lemma TallyWhileRunning(s: State, c: Cpu, es: seq<Event>, d: Cpu, p: Tid)
    requires Inv(s) && IsCpu(s, c) && s.rqs[c].curr == p && IsTask(s, p) && ValidRun(s, es) && NoStart(s, es, p)
    requires IsCpu(Final(s, es), d) && Final(s, es).rqs[d].curr == p
    ensures IsTask(Final(s, es), p) && Tally(s.tasks[p], Final(s, es).tasks[p], See(s, es, p), true, true, true)
  {
    RunTally(s, es, p);
    assert OnSomeCpu(s, p);
    assert OnSomeCpu(Final(s, es), p);
  }

  lemma TallyAtStop(t: Task, t': Task, o: Sighting)
    requires Tally(t, t', o, true, true, true) && t.switches == 0
    ensures CountsRight(t, t', o)
  {
    Mod64To32(t.nvcsw, o.vol, t'.nvcsw);
    Mod64To32(t.nivcsw, o.outs - o.vol, t'.nivcsw);
    SumMod32(t'.nvcsw - t.nvcsw, o.vol, t'.nivcsw - t.nivcsw, o.outs - o.vol);
  }

  lemma Mod64To32(x: int, k: int, y: int)
    requires y == (x + k) % 0x1_0000_0000_0000_0000
    ensures (y - x - k) % 0x1_0000_0000 == 0
  {
    var q := (x + k) / 0x1_0000_0000_0000_0000;
    assert y - x - k == 0x1_0000_0000 * (-q * 0x1_0000_0000);
  }

  lemma SumMod32(a: int, v: int, b: int, i: int)
    requires (a - v) % 0x1_0000_0000 == 0 && (b - i) % 0x1_0000_0000 == 0
    ensures (a + b) % 0x1_0000_0000 == (v + i) % 0x1_0000_0000
  {
  }

  // ---------------------------------------------------------------- wait_task_inactive

  /**
   * The part of wait_task_inactive() under task_rq_lock(): the value returned, or 0 when the state does not match;
   * none while it must wait.
   */
  function Observe(t: Task, matchState: Option<TaskState>): Option<int> {
    if matchState.Some? && t.state != matchState.value then Some(0)
    else if t.onCpu || t.onRq.Queued? then None
    else Some(t.nvcsw % 0x8000_0000_0000_0000 + 0x8000_0000_0000_0000)
  }

  /**
   * The answer of a look at a task: 0 exactly if a state was given that is not the task's; no answer yet exactly if
   * there is no such mismatch and the task is on a CPU or queued; otherwise nvcsw with the top bit set, for a task that
   * is off every runqueue.
   */
  predicate LookMeans(t: Task, matchState: Option<TaskState>, r: Option<int>) {
    var differs := matchState.Some? && matchState.value != t.state;
    && (r == Some(0) <==> differs) && (r.None? <==> !differs && (t.onCpu || t.onRq.Queued?))
    && (r.Some? && !differs ==>
      && t.onRq.Off? && !t.onCpu && 0x8000_0000_0000_0000 <= r.value < 0x1_0000_0000_0000_0000
      && (r.value == t.nvcsw || r.value == t.nvcsw + 0x8000_0000_0000_0000))
  }

  lemma LookIs(s: State, c: Cpu, p: Tid, g: Cpu, m: Option<TaskState>)
    requires Inv(s) && IsTask(s, p) && IsCpu(s, c) && s.rqs[c].mode == LockHeld(p, g)
    ensures LookMeans(s.tasks[p], m, Observe(s.tasks[p], m))
  {
    assert Known(s, p, c);
  }

  /**
   * A task that is off its runqueue after a step was off it before and not switched to, or has just gone to sleep
   * voluntarily.
   */
  lemma SleepIsVoluntary(s: State, e: Event, p: Tid)
    requires Inv(s) && Enabled(s, e) && IsTask(s, p) && IsTask(Apply(s, e), p) && Apply(s, e).tasks[p].onRq.Off?
    ensures GivesWay(s, e, p) || (s.tasks[p].onRq.Off? && !SwitchedTo(s, Apply(s, e), p))
  {
    if e.Schedule? {
      ScheduleOff(s, e.c, e.preempt, e.signal, e.frozen, e.next, p);
    } else {
      OnlyScheduleSwitches(s, e);
      NoSwitchSeen(s, Apply(s, e), p);
      if Stirs(e) { StirsOff(s, e, p); } else { StepStill(s, e); }
    }
  }

  lemma StirsOff(s: State, e: Event, p: Tid)
    requires Enabled(s, e) && IsTask(s, p) && (e.FinishLock? || e.Fork? || e.StartCount?)
    ensures IsTask(Apply(s, e), p) && Apply(s, e).tasks[p].onRq == s.tasks[p].onRq
  {
  }

  lemma ScheduleOff(s: State, c: Cpu, preempt: bool, signal: bool, frozen: bool, next: Tid, p: Tid)
    requires Inv(s) && CanSchedule(s, c, preempt, signal, next) && IsTask(s, p)
    ensures var s' := DoSchedule(s, c, preempt, signal, frozen, next);
      IsTask(s', p) && (s'.tasks[p].onRq.Off? ==>
        || (p == s.rqs[c].curr && Voluntary(s.tasks[p], preempt) && SwitchedFrom(s, s', p))
        || (s.tasks[p].onRq.Off? && !SwitchedTo(s, s', p)))
  {
    var s' := DoSchedule(s, c, preempt, signal, frozen, next);
    ScheduleEffect(s, c, preempt, signal, frozen, next);
    assert Known(s, next, c);
    if p == s.rqs[c].curr && s'.tasks[p].onRq.Off? && p != next { assert s'.rqs[c].curr != p; }
  }

  /** If p was switched in and is off its runqueue now, it went away voluntarily at least once. */
  lemma {:induction false} LeavesVoluntarily(s: State, es: seq<Event>, p: Tid, ins: nat, vol: nat)
    requires Inv(s) && ValidRun(s, es) && IsTask(s, p)
    requires s.tasks[p].onRq.Off? && ins > 0 ==> vol > 0
    ensures IsTask(Final(s, es), p)
    ensures Final(s, es).tasks[p].onRq.Off? && ins + See(s, es, p).ins > 0 ==> vol + See(s, es, p).vol > 0
    decreases |es|
  {
    if |es| > 0 {
      var s1, e := Apply(s, es[0]), es[0];
      StepTally(s, e, p);
      StepInv(s, e);
      if s1.tasks[p].onRq.Off? { SleepIsVoluntary(s, e, p); }
      LeavesVoluntarily(s1, es[1..], p, ins + SeeStep(s, e, p).ins, vol + SeeStep(s, e, p).vol);
    }
  }

  /** A non-zero value is only returned for a task that is off every runqueue. */
  lemma LooksOff(s: State, p: Tid, c: Cpu, g: Cpu, m: Option<TaskState>)
    requires Inv(s) && IsTask(s, p) && IsCpu(s, c) && s.rqs[c].mode == LockHeld(p, g)
    requires Observe(s.tasks[p], m).Some? && Observe(s.tasks[p], m) != Some(0)
    ensures s.tasks[p].onRq.Off?
  {
    assert Known(s, p, c);
  }

  /**
   * Two calls of wait_task_inactive() that return the same non-zero value: the task was not switched in between the
   * two looks, unless its voluntary switches in between are a non-zero multiple of 2^63.
   */
  lemma SameCountMeansUnscheduled(s: State, es: seq<Event>, p: Tid, g: Cpu, c: Cpu, d: Cpu, h: Cpu,
                                  m1: Option<TaskState>, m2: Option<TaskState>)
    requires Inv(s) && ValidRun(s, es) && IsTask(s, p) && IsTask(Final(s, es), p)
    requires IsCpu(s, c) && s.rqs[c].mode == LockHeld(p, g)
    requires IsCpu(Final(s, es), d) && Final(s, es).rqs[d].mode == LockHeld(p, h)
    requires Observe(s.tasks[p], m1) == Observe(Final(s, es).tasks[p], m2) && Observe(s.tasks[p], m1).Some?
    requires Observe(s.tasks[p], m1) != Some(0)
    ensures See(s, es, p).ins == 0 || (See(s, es, p).vol > 0 && Multiple63(See(s, es, p).vol))
  {
    RunInv(s, es);
    LooksOff(s, p, c, g, m1);
    LooksOff(Final(s, es), p, d, h, m2);
    LeavesVoluntarily(s, es, p, 0, 0);
    SameCountSeen(s, es, p, m1, m2);
  }

  lemma SameCountSeen(s: State, es: seq<Event>, p: Tid, m1: Option<TaskState>, m2: Option<TaskState>)
    requires Inv(s) && ValidRun(s, es) && IsTask(s, p) && IsTask(Final(s, es), p)
    requires Observe(s.tasks[p], m1) == Observe(Final(s, es).tasks[p], m2) && Observe(s.tasks[p], m1).Some?
    requires Observe(s.tasks[p], m1) != Some(0)
    ensures Multiple63(See(s, es, p).vol)
  {
    RunTally(s, es, p);
    SameLooks(s.tasks[p], Final(s, es).tasks[p], See(s, es, p), NoStart(s, es, p), OnSomeCpu(s, p),
      OnSomeCpu(Final(s, es), p), m1, m2);
  }

  predicate Multiple63(v: nat) { v % 0x8000_0000_0000_0000 == 0 }

  lemma SameLooks(t: Task, t': Task, o: Sighting, k: bool, r: bool, r': bool, m1: Option<TaskState>,
    m2: Option<TaskState>)
    requires Tally(t, t', o, k, r, r')
    requires Observe(t, m1) == Observe(t', m2) && Observe(t, m1).Some? && Observe(t, m1) != Some(0)
    ensures Multiple63(o.vol)
  {
    SameHalfWord(t.nvcsw, o.vol, t'.nvcsw);
  }

  lemma SameHalfWord(x: int, v: int, y: int)
    requires y == (x + v) % 0x1_0000_0000_0000_0000 && x % 0x8000_0000_0000_0000 == y % 0x8000_0000_0000_0000
    ensures v % 0x8000_0000_0000_0000 == 0
  {
    var q := (x + v) / 0x1_0000_0000_0000_0000;
    var a, b := x / 0x8000_0000_0000_0000, y / 0x8000_0000_0000_0000;
    Multiple(v, b - a + 2 * q);
  }

  lemma Multiple(v: int, k: int)
    requires v == 0x8000_0000_0000_0000 * k
    ensures v % 0x8000_0000_0000_0000 == 0
  {
  }

  // ---------------------------------------------------------------- nr_context_switches

  function Sum(xs: seq<int>): int { if |xs| == 0 then 0 else Sum(xs[..|xs| - 1]) + xs[|xs| - 1] }

  lemma {:induction false} SumChange(xs: seq<int>, ys: seq<int>, i: nat)
    requires i < |xs| == |ys| && forall j :: 0 <= j < |xs| && j != i ==> xs[j] == ys[j]
    ensures Sum(ys) - Sum(xs) == ys[i] - xs[i]
  {
    var n := |xs| - 1;
    if i < n {
      SumChange(xs[..n], ys[..n], i);
    } else {
      assert xs[..n] == ys[..n];
    }
  }

  /** nr_context_switches(), before it is cut to 64 bits. */
  function TotalSwitches(s: State): int { Sum(SwitchSeq(s)) }

  function SwitchSeq(s: State): seq<int> { seq(|s.rqs|, i requires 0 <= i < |s.rqs| => s.rqs[i].nrSwitches) }

  /** nvcsw + nivcsw over all tasks. */
  function TotalCsw(s: State): int { Sum(CswSeq(s)) }

  function CswSeq(s: State): seq<int> {
    seq(|s.tasks|, i requires 0 <= i < |s.tasks| => s.tasks[i].nvcsw + s.tasks[i].nivcsw)
  }

  /** Switches counted by runqueues and switches counted by tasks differ by a constant, modulo 2^64. */
  function Gap(s: State): int { (TotalSwitches(s) - TotalCsw(s)) % 0x1_0000_0000_0000_0000 }

  lemma NoSwitchGap(s: State, s': State)
    requires NoSwitch(s, s')
    ensures TotalSwitches(s') == TotalSwitches(s) && TotalCsw(s') == TotalCsw(s)
  {
    var xs, ys := SwitchSeq(s), SwitchSeq(s');
    assert xs == ys;
    SumExtend(CswSeq(s), CswSeq(s'));
  }

  lemma {:induction false} SumExtend(xs: seq<int>, ys: seq<int>)
    requires |xs| <= |ys| && (forall i :: 0 <= i < |xs| ==> ys[i] == xs[i])
      && (forall i :: |xs| <= i < |ys| ==> ys[i] == 0)
    ensures Sum(ys) == Sum(xs)
    decreases |ys|
  {
    if |xs| < |ys| {
      SumExtend(xs, ys[..|ys| - 1]);
    } else {
      assert xs == ys;
    }
  }

  lemma SwitchesGap(s: State, s': State, c: Cpu, next: Tid, voluntary: bool)
    requires Switches(s, s', c, next, voluntary)
    ensures TotalSwitches(s') - TotalSwitches(s) == s'.rqs[c].nrSwitches - s.rqs[c].nrSwitches
    ensures var p := s.rqs[c].curr;
      TotalCsw(s') - TotalCsw(s) == s'.tasks[p].nvcsw + s'.tasks[p].nivcsw - s.tasks[p].nvcsw - s.tasks[p].nivcsw
  {
    SumChange(SwitchSeq(s), SwitchSeq(s'), c);
    SumChange(CswSeq(s), CswSeq(s'), s.rqs[c].curr);
  }

  lemma GapShift(a: int, b: int, x: U64, y: U64)
    ensures (a + (Inc64(x) - x) - b - (Inc64(y) - y)) % 0x1_0000_0000_0000_0000 == (a - b) % 0x1_0000_0000_0000_0000
  {
  }

  lemma TwoPhaseGap(s: State, s1: State, s': State, c: Cpu, next: Tid, voluntary: bool)
    requires NoSwitch(s, s1) && |s1.tasks| == |s.tasks| && Switches(s1, s', c, next, voluntary)
    ensures Gap(s') == Gap(s)
  {
    NoSwitchGap(s, s1);
    SwitchesGap(s1, s', c, next, voluntary);
    var t := CurrTask(s1, c);
    GapShift(TotalSwitches(s), TotalCsw(s), s1.rqs[c].nrSwitches, if voluntary then t.nvcsw else t.nivcsw);
  }

  lemma ScheduleGap(s: State, c: Cpu, preempt: bool, signal: bool, frozen: bool, next: Tid)
    requires CanSchedule(s, c, preempt, signal, next)
    ensures Gap(DoSchedule(s, c, preempt, signal, frozen, next)) == Gap(s)
  {
    var s1, s' := PutPrev(s, c, preempt, signal, frozen), DoSchedule(s, c, preempt, signal, frozen, next);
    PutPrevNoSwitch(s, c, preempt, signal, frozen);
    if next == Curr(s, c) {
      NoSwitchGap(s, s');
    } else {
      var v := Voluntary(CurrTask(s, c), preempt);
      SwitchInSwitches(s1, c, v, next);
      TwoPhaseGap(s, s1, s', c, next, v);
    }
  }

  lemma StepGap(s: State, e: Event)
    requires Enabled(s, e)
    ensures Gap(Apply(s, e)) == Gap(s)
  {
    if e.Schedule? {
      ScheduleGap(s, e.c, e.preempt, e.signal, e.frozen, e.next);
    } else {
      OnlyScheduleSwitches(s, e);
      NoSwitchGap(s, Apply(s, e));
    }
  }

  /** No run changes the gap, tasks born on the way included. */
  lemma {:induction false} SwitchesAddUp(s: State, es: seq<Event>)
    requires ValidRun(s, es)
    ensures Gap(Final(s, es)) == Gap(s)
    decreases |es|
  {
    if |es| > 0 {
      StepGap(s, es[0]);
      SwitchesAddUp(Apply(s, es[0]), es[1..]);
    }
  }

  /** nr_context_switches() has grown by what nvcsw + nivcsw have grown in total, modulo 2^64. */
  predicate GrewTogether(s: State, f: State) {
    (TotalSwitches(f) - TotalSwitches(s)) % 0x1_0000_0000_0000_0000
      == (TotalCsw(f) - TotalCsw(s)) % 0x1_0000_0000_0000_0000
  }

  lemma SwitchesGrowTogether(s: State, es: seq<Event>)
    requires ValidRun(s, es)
    ensures GrewTogether(s, Final(s, es))
  {
    SwitchesAddUp(s, es);
    SameGap(s, Final(s, es));
  }

  lemma SameGap(s: State, f: State)
    requires Gap(f) == Gap(s)
    ensures GrewTogether(s, f)
  {
    ModDifference(TotalSwitches(s), TotalCsw(s), TotalSwitches(f), TotalCsw(f));
  }

  lemma ModDifference(a: int, b: int, x: int, y: int)
    requires (a - b) % 0x1_0000_0000_0000_0000 == (x - y) % 0x1_0000_0000_0000_0000
    ensures (x - a) % 0x1_0000_0000_0000_0000 == (y - b) % 0x1_0000_0000_0000_0000
  {
  }
}
