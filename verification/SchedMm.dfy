/** Lazy address spaces: the references held for kernel threads that borrow the mm of the task before them. */
module SchedMm {
  import opened Wrappers
  import opened SchedState
  import opened SchedInvariant
  import opened SchedFrame
  import opened SchedCounters

  /** How many references to m CPU c accounts for: its current kernel thread borrows m, or m waits in prev_mm. */
  function Holds(s: State, c: Cpu, m: Mm): int {
    if IsCpu(s, c) && IsTask(s, s.rqs[c].curr) then
      var t := s.tasks[s.rqs[c].curr];
      Bit(t.mm.None? && t.activeMm == Some(m)) + Bit(s.rqs[c].prevMm == Some(m))
    else 0
  }

  function Borrowed(s: State, m: Mm): seq<int> { seq(|s.rqs|, c requires 0 <= c < |s.rqs| => Holds(s, c, m)) }

  /** The loaded mm is the current task's active one, and prev_mm is only set during a switch. */
  predicate CpuMmOk(s: State, c: Cpu) {
    IsCpu(s, c) && IsTask(s, s.rqs[c].curr) &&
    var r, t := s.rqs[c], s.tasks[s.rqs[c].curr];
    && r.loadedMm == t.activeMm && t.activeMm.Some?
    && (r.prevMm.Some? ==> r.mode.Switching? || r.mode.Switched?)
  }

  /** A user task is active in its own mm; a kernel thread has an active mm only while it runs. */
  predicate TaskMmOk(s: State, p: Tid) {
    IsTask(s, p) &&
    var t := s.tasks[p];
    && (t.mm.Some? ==> t.activeMm == t.mm)
    && (t.mm.None? && t.activeMm.Some? ==> IsCpu(s, t.cpu) && s.rqs[t.cpu].curr == p)
  }

  ghost predicate RefsOk(s: State) { forall m: Mm :: LazyRefs(s, m) == Sum(Borrowed(s, m)) }

  ghost predicate MmInv(s: State) {
    && (forall c :: 0 <= c < |s.rqs| ==> CpuMmOk(s, c))
    && (forall p :: 0 <= p < |s.tasks| ==> TaskMmOk(s, p))
    && RefsOk(s)
  }

  /** Nothing about address spaces changes; tasks may be born. */
  ghost predicate MmStill(s: State, s': State) {
    && |s.tasks| <= |s'.tasks| && |s'.rqs| == |s.rqs| && s'.lazyRefs == s.lazyRefs
    && (forall c :: 0 <= c < |s.rqs| ==>
      var r, r' := s.rqs[c], s'.rqs[c];
      && r'.curr == r.curr && r'.prevMm == r.prevMm && r'.loadedMm == r.loadedMm
      && (r.mode.Switching? || r.mode.Switched? ==> r'.mode.Switching? || r'.mode.Switched?))
    && (forall p :: 0 <= p < |s.tasks| ==>
      s'.tasks[p].mm == s.tasks[p].mm && s'.tasks[p].activeMm == s.tasks[p].activeMm)
    && (forall p :: |s.tasks| <= p < |s'.tasks| ==> s'.tasks[p].activeMm == s'.tasks[p].mm)
  }

  /** A current task has its cpu field set to where it runs. */
  ghost predicate CurrHome(s: State) {
    forall c :: 0 <= c < |s.rqs| ==> IsTask(s, s.rqs[c].curr) && s.tasks[s.rqs[c].curr].cpu == c
  }

  lemma InvCurrHome(s: State)
    requires Inv(s)
    ensures CurrHome(s)
  {
    forall c | 0 <= c < |s.rqs| ensures IsTask(s, s.rqs[c].curr) && s.tasks[s.rqs[c].curr].cpu == c {
      assert CpuOk(s.rqs[c], |s.rqs|, |s.tasks|);
      assert Known(s, s.rqs[c].curr, c);
    }
  }

  lemma StillMmInv(s: State, s': State)
    requires CurrHome(s) && CurrHome(s') && MmInv(s) && MmStill(s, s')
    ensures MmInv(s')
  {
    forall c | 0 <= c < |s'.rqs| ensures CpuMmOk(s', c) {
      assert CpuMmOk(s, c);
    }
    forall p | 0 <= p < |s'.tasks| ensures TaskMmOk(s', p) {
      if IsTask(s, p) {
        assert TaskMmOk(s, p);
        if s.tasks[p].mm.None? && s.tasks[p].activeMm.Some? { assert s'.rqs[s.tasks[p].cpu].curr == p; }
      }
    }
    forall m: Mm ensures LazyRefs(s', m) == Sum(Borrowed(s', m)) {
      forall c | 0 <= c < |s.rqs| ensures Holds(s', c, m) == Holds(s, c, m) {
        assert CpuMmOk(s, c);
      }
      assert Borrowed(s', m) == Borrowed(s, m);
    }
  }

  lemma StirsMmStill(s: State, e: Event)
    requires Enabled(s, e) && (e.Fork? || e.StartCount?)
    ensures MmStill(s, Apply(s, e))
  {
  }

  /** finish_lock_switch() and mmdrop(): one reference fewer, one CPU fewer that accounts for it. */
  lemma FinishLockMm(s: State, c: Cpu)
    requires MmInv(s) && CanFinishLock(s, c)
    ensures MmInv(DoFinishLock(s, c))
  {
    var s' := DoFinishLock(s, c);
    forall d | 0 <= d < |s'.rqs| ensures CpuMmOk(s', d) {
      assert CpuMmOk(s, d);
    }
    forall p | 0 <= p < |s'.tasks| ensures TaskMmOk(s', p) {
      assert TaskMmOk(s, p);
    }
    assert CpuMmOk(s, c);
    forall m: Mm ensures LazyRefs(s', m) == Sum(Borrowed(s', m)) {
      assert LazyRefs(s, m) == Sum(Borrowed(s, m));
      SumChange(Borrowed(s, m), Borrowed(s', m), c);
    }
  }

  /** PutPrev touches no address space. */
  lemma PutPrevMm(s: State, c: Cpu, preempt: bool, signal: bool, frozen: bool)
    requires Idling(s, c)
    ensures MmStill(s, PutPrev(s, c, preempt, signal, frozen))
  {
  }

  /** context_switch(): what next borrows or prev leaves behind is what CPU c accounts for. */
  lemma SwitchInHolds(s: State, c: Cpu, voluntary: bool, next: Tid, m: Mm)
    requires MmInv(s) && CurrHome(s) && Idling(s, c) && IsTask(s, next) && next != Curr(s, c) && s.tasks[next].cpu == c
    ensures var s' := SwitchIn(s, c, voluntary, next);
      && LazyRefs(s', m) - LazyRefs(s, m) == Holds(s', c, m) - Holds(s, c, m)
      && forall d :: 0 <= d < |s.rqs| && d != c ==> Holds(s', d, m) == Holds(s, d, m)
  {
    assert CpuMmOk(s, c) && TaskMmOk(s, next) && TaskMmOk(s, Curr(s, c));
  }

  lemma SwitchInOk(s: State, c: Cpu, voluntary: bool, next: Tid)
    requires MmInv(s) && CurrHome(s) && Idling(s, c) && IsTask(s, next) && next != Curr(s, c) && s.tasks[next].cpu == c
    ensures var s' := SwitchIn(s, c, voluntary, next);
      && (forall d :: 0 <= d < |s'.rqs| ==> CpuMmOk(s', d)) && (forall p :: 0 <= p < |s'.tasks| ==> TaskMmOk(s', p))
  {
    var s' := SwitchIn(s, c, voluntary, next);
    assert CpuMmOk(s, c) && TaskMmOk(s, next) && TaskMmOk(s, Curr(s, c));
    forall d | 0 <= d < |s'.rqs| ensures CpuMmOk(s', d) {
      assert CpuMmOk(s, d);
    }
    forall p | 0 <= p < |s'.tasks| ensures TaskMmOk(s', p) {
      assert TaskMmOk(s, p);
    }
  }

  lemma SwitchInMm(s: State, c: Cpu, voluntary: bool, next: Tid)
    requires MmInv(s) && CurrHome(s) && Idling(s, c) && IsTask(s, next) && next != Curr(s, c) && s.tasks[next].cpu == c
    ensures MmInv(SwitchIn(s, c, voluntary, next))
  {
    var s' := SwitchIn(s, c, voluntary, next);
    SwitchInOk(s, c, voluntary, next);
    forall m: Mm ensures LazyRefs(s', m) == Sum(Borrowed(s', m)) {
      assert LazyRefs(s, m) == Sum(Borrowed(s, m));
      SwitchInHolds(s, c, voluntary, next, m);
      SumChange(Borrowed(s, m), Borrowed(s', m), c);
    }
  }

  lemma ScheduleMm(s: State, c: Cpu, preempt: bool, signal: bool, frozen: bool, next: Tid)
    requires Inv(s) && MmInv(s) && CanSchedule(s, c, preempt, signal, next)
    ensures MmInv(DoSchedule(s, c, preempt, signal, frozen, next))
  {
    var s1 := PutPrev(s, c, preempt, signal, frozen);
    InvCurrHome(s);
    PutPrevMm(s, c, preempt, signal, frozen);
    StillMmInv(s, s1);
    assert Known(s, next, c);
    if next != Curr(s, c) { SwitchInMm(s1, c, Voluntary(CurrTask(s, c), preempt), next); }
  }

  lemma StepMmStill(s: State, e: Event)
    requires Enabled(s, e) && !e.Schedule? && !e.FinishLock?
    ensures MmStill(s, Apply(s, e))
  {
    if Stirs(e) { StirsMmStill(s, e); } else { StepStill(s, e); }
  }

  lemma StepMm(s: State, e: Event)
    requires Inv(s) && MmInv(s) && Enabled(s, e)
    ensures MmInv(Apply(s, e))
  {
    if e.Schedule? {
      ScheduleMm(s, e.c, e.preempt, e.signal, e.frozen, e.next);
    } else if e.FinishLock? {
      FinishLockMm(s, e.c);
    } else {
      StepInv(s, e);
      InvCurrHome(s);
      InvCurrHome(Apply(s, e));
      StepMmStill(s, e);
      StillMmInv(s, Apply(s, e));
    }
  }

  lemma BootMm(s: State)
    requires Boot(s)
    ensures MmInv(s)
  {
    forall m: Mm ensures LazyRefs(s, m) == Sum(Borrowed(s, m)) {
      SumConst(Borrowed(s, m), if m == 0 then 1 else 0);
    }
  }

  lemma {:induction false} SumConst(xs: seq<int>, k: int)
    requires forall i :: 0 <= i < |xs| ==> xs[i] == k
    ensures Sum(xs) == k * |xs|
  {
    if |xs| > 0 { SumConst(xs[..|xs| - 1], k); }
  }

  lemma {:induction false} RunMm(s: State, es: seq<Event>)
    requires Inv(s) && MmInv(s) && ValidRun(s, es)
    ensures MmInv(Final(s, es))
    decreases |es|
  {
    if |es| > 0 {
      StepInv(s, es[0]);
      StepMm(s, es[0]);
      RunMm(Apply(s, es[0]), es[1..]);
    }
  }

  /**
   * In every reachable state: the lazy references to an mm are the CPUs whose current task is a kernel thread
   * borrowing it plus those where it waits in prev_mm; a kernel thread off every CPU holds none; and each CPU has
   * the active mm of its current task loaded.
   */
  lemma LazyRefsExact(s: State, es: seq<Event>, m: Mm, p: Tid, c: Cpu)
    requires Boot(s) && ValidRun(s, es)
    ensures var f := Final(s, es);
      && LazyRefs(f, m) == Sum(Borrowed(f, m)) >= 0
      && (IsTask(f, p) && f.tasks[p].mm.None? && f.tasks[p].activeMm.Some? ==> OnSomeCpu(f, p))
      && (IsCpu(f, c) ==> IsTask(f, f.rqs[c].curr) && f.rqs[c].loadedMm == f.tasks[f.rqs[c].curr].activeMm)
  {
    BootInv(s);
    BootMm(s);
    RunMm(s, es);
    var f := Final(s, es);
    SumNonNegative(Borrowed(f, m));
    if IsTask(f, p) { assert TaskMmOk(f, p); }
    if IsCpu(f, c) { assert CpuMmOk(f, c); }
  }

  lemma {:induction false} SumNonNegative(xs: seq<int>)
    requires forall i :: 0 <= i < |xs| ==> xs[i] >= 0
    ensures Sum(xs) >= 0
  {
    if |xs| > 0 { SumNonNegative(xs[..|xs| - 1]); }
  }
}
