/** nr_uninterruptible and nr_iowait: counts kept on one CPU and undone on another. */
module SchedLoad {
  import opened Wrappers
  import opened SchedState
  import opened SchedInvariant
  import opened SchedFrame
  import opened SchedCounters

  /** 1 for a task that went to sleep contributing to the load and has not been activated since. */
  function LoadBit(n: Nap): int {
    match n
    case Asleep(load, _, _) => Bit(load)
    case Roused(load) => Bit(load)
    case Awake => 0
  }

  /** 1 for a task asleep in iowait that was last placed on CPU c and that no waker has claimed. */
  function IoBit(n: Nap, c: Cpu): int {
    match n
    case Asleep(_, io, cpu) => Bit(io && cpu == c)
    case _ => 0
  }

  function Loads(ts: seq<Task>): seq<int> { seq(|ts|, i requires 0 <= i < |ts| => LoadBit(NapOf(ts[i]))) }
  function Ios(ts: seq<Task>, c: Cpu): seq<int> { seq(|ts|, i requires 0 <= i < |ts| => IoBit(NapOf(ts[i]), c)) }
  function Unint(rs: seq<Rq>): seq<int> { seq(|rs|, i requires 0 <= i < |rs| => rs[i].nrUninterruptible) }

  /**
   * The per-CPU counts of uninterruptible tasks add up, as wrapping words, to the sleeping tasks that contribute
   * to the load.
   */
  predicate LoadExact(s: State) { (Sum(Unint(s.rqs)) - Sum(Loads(s.tasks))) % 0x1_0000_0000_0000_0000 == 0 }

  predicate IoExact(s: State, c: Cpu)
    requires IsCpu(s, c)
  { s.rqs[c].nrIowait == Sum(Ios(s.tasks, c)) }

  ghost predicate Exact(s: State) { LoadExact(s) && forall c :: 0 <= c < |s.rqs| ==> IoExact(s, c) }

  /** Only task p changes its nap, and the counts follow: CPU d counts the load, the CPU of the task the iowait. */
  ghost predicate OneNap(s: State, s': State, p: Tid, d: Cpu) {
    && IsTask(s, p) && IsCpu(s, d) && |s'.tasks| == |s.tasks| && |s'.rqs| == |s.rqs|
    && (forall q :: 0 <= q < |s.tasks| && q != p ==> NapOf(s'.tasks[q]) == NapOf(s.tasks[q]))
    && (forall c :: 0 <= c < |s.rqs| && c != d ==> s'.rqs[c].nrUninterruptible == s.rqs[c].nrUninterruptible)
    && var n, n' := NapOf(s.tasks[p]), NapOf(s'.tasks[p]);
    && s'.rqs[d].nrUninterruptible == (s.rqs[d].nrUninterruptible + LoadBit(n') - LoadBit(n)) % 0x1_0000_0000_0000_0000
    && (forall c :: 0 <= c < |s.rqs| ==> s'.rqs[c].nrIowait - s.rqs[c].nrIowait == IoBit(n', c) - IoBit(n, c))
  }

  lemma LoadShift(a: int, b: int, x: U64, k: int)
    requires (a - b) % 0x1_0000_0000_0000_0000 == 0
    ensures (a + ((x + k) % 0x1_0000_0000_0000_0000 - x) - (b + k)) % 0x1_0000_0000_0000_0000 == 0
  {
    var q := (x + k) / 0x1_0000_0000_0000_0000;
    assert a + ((x + k) % 0x1_0000_0000_0000_0000 - x) - (b + k) == (a - b) + 0x1_0000_0000_0000_0000 * (-q);
  }

  lemma OneNapExact(s: State, s': State, p: Tid, d: Cpu)
    requires Exact(s) && OneNap(s, s', p, d)
    ensures Exact(s')
  {
    SumChange(Unint(s.rqs), Unint(s'.rqs), d);
    SumChange(Loads(s.tasks), Loads(s'.tasks), p);
    LoadShift(Sum(Unint(s.rqs)), Sum(Loads(s.tasks)), s.rqs[d].nrUninterruptible,
      LoadBit(NapOf(s'.tasks[p])) - LoadBit(NapOf(s.tasks[p])));
    forall c | 0 <= c < |s'.rqs| ensures IoExact(s', c) {
      assert IoExact(s, c);
      SumChange(Ios(s.tasks, c), Ios(s'.tasks, c), p);
    }
  }

  lemma StillExact(s: State, s': State)
    requires Exact(s) && NapStill(s, s')
    ensures Exact(s')
  {
    assert Unint(s'.rqs) == Unint(s.rqs) && Loads(s'.tasks) == Loads(s.tasks);
    forall c | 0 <= c < |s'.rqs| ensures IoExact(s', c) {
      assert IoExact(s, c) && Ios(s'.tasks, c) == Ios(s.tasks, c);
    }
  }

  lemma ForkExact(s: State, c: Cpu, mm: Option<Mm>)
    requires Exact(s) && Idling(s, c)
    ensures Exact(DoFork(s, c, mm))
  {
    var s' := DoFork(s, c, mm);
    SumExtend(Loads(s.tasks), Loads(s'.tasks));
    forall d | 0 <= d < |s'.rqs| ensures IoExact(s', d) {
      assert IoExact(s, d);
      SumExtend(Ios(s.tasks, d), Ios(s'.tasks, d));
    }
  }

  lemma InvLive(s: State)
    requires Inv(s)
    ensures Live(s)
  {
    forall c | 0 <= c < |s.rqs| ensures LiveCpu(s, c) {
      assert CpuOk(s.rqs[c], |s.rqs|, |s.tasks|) && Known(s, s.rqs[c].curr, c);
      match s.rqs[c].mode {
        case Ttwu(p, _, _) => assert Known(s, p, c);
        case NewPlaced(p) => assert Known(s, p, c);
        case Carrying(p, _, _) => assert Known(s, p, c);
        case _ =>
      }
    }
  }

  /** The sleeper's side: __schedule() counts it on the CPU it leaves. */
  lemma PutPrevNap(s: State, c: Cpu, preempt: bool, signal: bool, frozen: bool)
    requires Idling(s, c) && CurrTask(s, c).onRq.Queued? && CurrTask(s, c).cpu == c
    requires GoesToSleep(CurrTask(s, c), preempt, signal) ==> CurrTask(s, c).state.Sleeping?
    ensures OneNap(s, PutPrev(s, c, preempt, signal, frozen), s.rqs[c].curr, c)
  {
  }

  lemma SwitchInNap(s: State, c: Cpu, voluntary: bool, next: Tid)
    requires Idling(s, c) && IsTask(s, next) && next != Curr(s, c)
    ensures NapStill(s, SwitchIn(s, c, voluntary, next))
  {
  }

  lemma ScheduleExact(s: State, c: Cpu, preempt: bool, signal: bool, frozen: bool, next: Tid)
    requires Inv(s) && Exact(s) && CanSchedule(s, c, preempt, signal, next)
    ensures Exact(DoSchedule(s, c, preempt, signal, frozen, next))
  {
    var s1 := PutPrev(s, c, preempt, signal, frozen);
    assert CpuOk(s.rqs[c], |s.rqs|, |s.tasks|) && Known(s, s.rqs[c].curr, c);
    PutPrevNap(s, c, preempt, signal, frozen);
    OneNapExact(s, s1, s.rqs[c].curr, c);
    if next != Curr(s, c) {
      SwitchInNap(s1, c, Voluntary(CurrTask(s, c), preempt), next);
      StillExact(s1, SwitchIn(s1, c, Voluntary(CurrTask(s, c), preempt), next));
    }
  }

  /** The waker's side: iowait is dropped where the task sleeps ... */
  lemma ClaimNap(s: State, c: Cpu)
    requires CanTtwuClaim(s, c) && Target(s, c).onRq.Off? && Target(s, c).state.Sleeping?
    ensures OneNap(s, DoTtwuClaim(s, c), s.rqs[c].mode.p, Target(s, c).cpu)
  {
  }

  /** ... and load where it is activated. */
  lemma ActivateNap(s: State, d: Cpu, p: Tid)
    requires IsCpu(s, d) && IsTask(s, p) && s.tasks[p].onRq.Off? && s.tasks[p].state.Waking?
    ensures OneNap(s, Activate(s, d, p), p, d)
  {
  }

  lemma TtwuQueueExact(s: State, c: Cpu)
    requires Inv(s) && Exact(s) && CanTtwuQueue(s, c)
    ensures Exact(DoTtwuQueue(s, c))
  {
    var p, d := s.rqs[c].mode.p, Target(s, c).cpu;
    var s1 := Activate(s, d, p);
    assert Known(s, p, c);
    ActivateNap(s, d, p);
    OneNapExact(s, s1, p, d);
    StillExact(s1, Leave(s1, c, s1.tasks[p]));
  }

  lemma DrainExact(s: State, c: Cpu)
    requires Inv(s) && Exact(s) && CanDrain(s, c)
    ensures Exact(DoDrain(s, c))
  {
    var r := s.rqs[c];
    var p := r.wakelist[0];
    assert Known(s, p, c);
    var s1 := PutTask(PutRq(s, c, r.(wakelist := r.wakelist[1..])), p, s.tasks[p].(cpu := c));
    StillExact(s, s1);
    ActivateNap(s1, c, p);
    OneNapExact(s1, Activate(s1, c, p), p, c);
  }

  lemma ClaimExact(s: State, c: Cpu)
    requires Inv(s) && Exact(s) && CanTtwuClaim(s, c)
    ensures Exact(DoTtwuClaim(s, c))
  {
    assert Known(s, s.rqs[c].mode.p, c);
    ClaimNap(s, c);
    OneNapExact(s, DoTtwuClaim(s, c), s.rqs[c].mode.p, Target(s, c).cpu);
  }

  lemma ArriveExact(s: State, e: Event)
    requires Inv(s) && Exact(s) && StepArrive(s, e).Some? && Naps(e)
    ensures Exact(StepArrive(s, e).value)
  {
    if e.Drain? { DrainExact(s, e.c); } else { ForkExact(s, e.c, e.mm); }
  }

  lemma NapsExact(s: State, e: Event)
    requires Inv(s) && Exact(s) && Enabled(s, e) && Naps(e)
    ensures Exact(Apply(s, e))
  {
    match e
    case Schedule(c, preempt, signal, frozen, next) => ScheduleExact(s, c, preempt, signal, frozen, next);
    case TtwuClaim(c) => ClaimExact(s, c);
    case TtwuQueue(c) => TtwuQueueExact(s, c);
    case Drain(_) => ArriveExact(s, e);
    case Fork(_, _) => ArriveExact(s, e);
  }

  lemma StepExact(s: State, e: Event)
    requires Inv(s) && Exact(s) && Enabled(s, e)
    ensures Exact(Apply(s, e))
  {
    if Naps(e) {
      NapsExact(s, e);
    } else {
      InvLive(s);
      StepNap(s, e);
      StillExact(s, Apply(s, e));
    }
  }

  lemma BootExact(s: State)
    requires Boot(s)
    ensures Exact(s)
  {
    SumZero(Unint(s.rqs));
    SumZero(Loads(s.tasks));
    forall c | 0 <= c < |s.rqs| ensures IoExact(s, c) {
      SumZero(Ios(s.tasks, c));
    }
  }

  lemma {:induction false} SumZero(xs: seq<int>)
    requires forall i :: 0 <= i < |xs| ==> xs[i] == 0
    ensures Sum(xs) == 0
  {
    if |xs| > 0 { SumZero(xs[..|xs| - 1]); }
  }

  lemma {:induction false} RunExact(s: State, es: seq<Event>)
    requires Inv(s) && Exact(s) && ValidRun(s, es)
    ensures Exact(Final(s, es))
    decreases |es|
  {
    if |es| > 0 {
      StepInv(s, es[0]);
      StepExact(s, es[0]);
      RunExact(Apply(s, es[0]), es[1..]);
    }
  }

  /** In every reachable state both counts are exact. */
  lemma CountsAlwaysExact(s: State, es: seq<Event>)
    requires Boot(s) && ValidRun(s, es)
    ensures Exact(Final(s, es))
  {
    BootInv(s);
    BootExact(s);
    RunExact(s, es);
  }
}
