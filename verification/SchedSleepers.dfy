/**
 * What nr_uninterruptible and nr_iowait count, in terms of a run: the tasks that went to sleep uninterruptibly, unless
 * frozen or in a sleep that is not to count, and those that sleep waiting for I/O.
 */
module SchedSleepers {
  import opened Wrappers
  import opened SchedState
  import opened SchedInvariant
  import opened SchedFrame
  import opened SchedEffects
  import opened SchedCounters
  import opened SchedLoad

  /** By event e the running task p goes to sleep. */
  predicate FallsAsleep(s: State, e: Event, p: Tid) {
    && e.Schedule? && e.c < |s.rqs| && s.rqs[e.c].curr == p && p < |s.tasks|
    && !e.preempt && !e.signal && !s.tasks[p].state.Running?
  }

  /** Whether p was one to be counted when it last went to sleep; v if it has not since the start of the run. */
  ghost function LastSleepCounts(s: State, es: seq<Event>, p: Tid, v: bool): bool
    requires ValidRun(s, es)
    decreases |es|
  {
    if |es| == 0 then v
    else LastSleepCounts(Apply(s, es[0]), es[1..], p, if FallsAsleep(s, es[0], p) then Counts(s, es[0], p) else v)
  }

  /** TASK_UNINTERRUPTIBLE without TASK_NOLOAD, and not frozen. */
  predicate Counts(s: State, e: Event, p: Tid)
    requires FallsAsleep(s, e, p)
  {
    var st := s.tasks[p].state;
    st.Sleeping? && UNINTERRUPTIBLE in st.bits && NOLOAD !in st.bits && !e.frozen
  }

  /** Asleep, or claimed by a waker that has not activated it yet. */
  predicate Napping(t: Task) { t.onRq.Off? && (t.state.Sleeping? || t.state.Waking?) }

  /** While p naps, sched_contributes_to_load is v. */
  predicate Marked(s: State, p: Tid, v: bool) {
    p < |s.tasks| && Napping(s.tasks[p]) ==> s.tasks[p].contributes == v
  }

  lemma ScheduleMarked(s: State, c: Cpu, preempt: bool, signal: bool, frozen: bool, next: Tid, p: Tid, v: bool)
    requires Inv(s) && CanSchedule(s, c, preempt, signal, next) && Marked(s, p, v)
    ensures var e := Schedule(c, preempt, signal, frozen, next);
      Marked(DoSchedule(s, c, preempt, signal, frozen, next), p, if FallsAsleep(s, e, p) then Counts(s, e, p) else v)
  {
    ScheduleMeans(s, c, preempt, signal, frozen, next);
    assert CpuOk(s.rqs[c], |s.rqs|, |s.tasks|) && Known(s, s.rqs[c].curr, c) && Known(s, next, c);
  }

  lemma ClaimMarked(s: State, c: Cpu, p: Tid, v: bool)
    requires Inv(s) && CanTtwuClaim(s, c) && Marked(s, p, v)
    ensures Marked(DoTtwuClaim(s, c), p, v)
  {
    assert Known(s, s.rqs[c].mode.p, c);
  }

  lemma ArriveMarked(s: State, e: Event, p: Tid, v: bool)
    requires StepArrive(s, e).Some? && Naps(e) && Marked(s, p, v)
    ensures Marked(StepArrive(s, e).value, p, v)
  {
  }

  /** Any event but those that put a task to sleep, claim or activate one, or create one. */
  lemma QuietMarked(s: State, e: Event, p: Tid, v: bool)
    requires Inv(s) && Enabled(s, e) && !Naps(e) && Marked(s, p, v)
    ensures Marked(Apply(s, e), p, v)
  {
    InvLive(s);
    StepNap(s, e);
    assert p < |s.tasks| ==> NapOf(Apply(s, e).tasks[p]) == NapOf(s.tasks[p]);
  }

  lemma QueueMarked(s: State, c: Cpu, p: Tid, v: bool)
    requires CanTtwuQueue(s, c) && Marked(s, p, v)
    ensures Marked(DoTtwuQueue(s, c), p, v)
  {
  }

  lemma StepMarked(s: State, e: Event, p: Tid, v: bool)
    requires Inv(s) && Enabled(s, e) && Marked(s, p, v)
    ensures Marked(Apply(s, e), p, if FallsAsleep(s, e, p) then Counts(s, e, p) else v)
  {
    if e.Schedule? { ScheduleMarked(s, e.c, e.preempt, e.signal, e.frozen, e.next, p, v); }
    else if e.TtwuClaim? { ClaimMarked(s, e.c, p, v); }
    else if e.Drain? || e.Fork? { ArriveMarked(s, e, p, v); }
    else if e.TtwuQueue? { QueueMarked(s, e.c, p, v); }
    else { QuietMarked(s, e, p, v); }
  }

  lemma {:induction false} RunMarked(s: State, es: seq<Event>, p: Tid, v: bool)
    requires Inv(s) && ValidRun(s, es) && Marked(s, p, v)
    ensures Marked(Final(s, es), p, LastSleepCounts(s, es, p, v))
    decreases |es|
  {
    if |es| > 0 {
      StepInv(s, es[0]);
      StepMarked(s, es[0], p, v);
      RunMarked(Apply(s, es[0]), es[1..], p, if FallsAsleep(s, es[0], p) then Counts(s, es[0], p) else v);
    }
  }

  lemma {:induction false} SumOfBits(xs: seq<int>, a: set<nat>)
    requires forall i :: 0 <= i < |xs| ==> xs[i] == if i in a then 1 else 0
    requires forall i :: i in a ==> i < |xs|
    ensures Sum(xs) == |a|
    decreases |xs|
  {
    if |xs| == 0 {
      assert a == {};
    } else {
      var n := |xs| - 1;
      SumOfBits(xs[..n], a - {n});
    }
  }

  /** The tasks that nap after the run, and were to be counted when they went to sleep. */
  ghost function LoadSleepers(s: State, es: seq<Event>): set<Tid>
    requires ValidRun(s, es)
  {
    set p: Tid | p < |Final(s, es).tasks| && Napping(Final(s, es).tasks[p]) && LastSleepCounts(s, es, p, false)
  }

  /** The tasks asleep for I/O whose last CPU is c and that no waker has claimed. */
  ghost function IoSleepers(s: State, c: Cpu): set<Tid> {
    set p: Tid | p < |s.tasks| && s.tasks[p].onRq.Off? && s.tasks[p].state.Sleeping? && s.tasks[p].inIowait
      && s.tasks[p].cpu == c
  }

  lemma LoadMarks(s: State, es: seq<Event>, f: State, p: Tid)
    requires Boot(s) && ValidRun(s, es) && f == Final(s, es) && p < |f.tasks|
    ensures LoadBit(NapOf(f.tasks[p])) == if Napping(f.tasks[p]) && LastSleepCounts(s, es, p, false) then 1 else 0
  {
    BootInv(s);
    RunMarked(s, es, p, false);
  }

  lemma LoadsAre(s: State, es: seq<Event>)
    requires Boot(s) && ValidRun(s, es)
    ensures Sum(Loads(Final(s, es).tasks)) == |LoadSleepers(s, es)|
  {
    var f := Final(s, es);
    forall p: nat | p < |f.tasks| ensures Loads(f.tasks)[p] == if p in LoadSleepers(s, es) then 1 else 0 {
      LoadMarks(s, es, f, p);
    }
    SumOfBits(Loads(f.tasks), LoadSleepers(s, es));
  }

  predicate SameWord(a: int, b: int) { (a - b) % 0x1_0000_0000_0000_0000 == 0 }

  lemma ExactWords(f: State)
    requires LoadExact(f)
    ensures SameWord(Sum(Unint(f.rqs)), Sum(Loads(f.tasks)))
  {
  }

  /** After every run from boot, nr_uninterruptible over all CPUs adds up, modulo 2^64, to the number of such tasks. */
  lemma LoadCountsSleepers(s: State, es: seq<Event>)
    requires Boot(s) && ValidRun(s, es)
    ensures SameWord(Sum(Unint(Final(s, es).rqs)), |LoadSleepers(s, es)|)
  {
    CountsAlwaysExact(s, es);
    ExactWords(Final(s, es));
    LoadsAre(s, es);
  }

  /** And the nr_iowait of a CPU is the number of those last placed there that sleep for I/O. */
  lemma IowaitCountsSleepers(s: State, es: seq<Event>, c: Cpu)
    requires Boot(s) && ValidRun(s, es) && IsCpu(Final(s, es), c)
    ensures Final(s, es).rqs[c].nrIowait == |IoSleepers(Final(s, es), c)|
  {
    CountsAlwaysExact(s, es);
    assert IoExact(Final(s, es), c);
    SumOfBits(Ios(Final(s, es).tasks, c), IoSleepers(Final(s, es), c));
  }
}
