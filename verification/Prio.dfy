/**
 * Priorities and scheduling classes through fork, renice, policy changes and priority inheritance.  Every class
 * has its own queue and its own mark on the running task, so a change of class has to take the task out of the old
 * one and put it into the new one.
 */
module Prio {
  import opened Wrappers

  type Tid = nat

  datatype Class = StopClass | DlClass | RtClass | FairClass | IdleClass
  datatype Policy = NORMAL | FIFO | RR | BATCH | IDLE | DEADLINE

  /** Only ordinary tasks have their class chosen by priority. */
  datatype Kind = Ordinary | Stopper | Idler

  const MAX_DL_PRIO: int := 0
  const MAX_RT_PRIO: int := 100
  const MIN_NICE: int := -20
  const MAX_NICE: int := 19
  const EINVAL: int := 22
  const EAGAIN: int := 11

  function NiceToPrio(nice: int): int { nice + 120 }
  predicate DlPrio(prio: int) { prio < MAX_DL_PRIO }
  predicate RtPrio(prio: int) { prio < MAX_RT_PRIO }
  predicate RtPolicy(p: Policy) { p.FIFO? || p.RR? }
  predicate FairPolicy(p: Policy) { p.NORMAL? || p.BATCH? }

  datatype Task = Task(
    kind: Kind, policy: Policy, staticPrio: int, rtPriority: int, normalPrio: int, prio: int, cls: Class,
    resetOnFork: bool,
    topTask: Option<Tid>,      // pi_top_task
    onRq: bool, running: bool)

  /** normal_prio() */
  function NormalPrio(policy: Policy, staticPrio: int, rtPriority: int): int {
    if policy.DEADLINE? then MAX_DL_PRIO - 1
    else if RtPolicy(policy) then MAX_RT_PRIO - 1 - rtPriority
    else staticPrio
  }

  /**
   * The scale of priorities, where smaller is higher: deadline tasks are at -1, above every real-time task; rt_priority
   * 99 is 0 and 1 is 98, higher ones first; then nice -20 is 100 and 19 is 139, lower ones first.
   */
  lemma PriorityOrder(p: Policy, q: Policy, a: Task, b: Task)
    requires ParamsOk(a) && ParamsOk(b) && p == a.policy && q == b.policy
    ensures var x, y := NormalPrio(p, a.staticPrio, a.rtPriority), NormalPrio(q, b.staticPrio, b.rtPriority);
      && (p.DEADLINE? ==> x == -1) && (RtPolicy(p) ==> x == 99 - a.rtPriority)
      && (!p.DEADLINE? && !RtPolicy(p) ==> x == a.staticPrio)
      && (p.DEADLINE? && !q.DEADLINE? ==> x < y) && (RtPolicy(p) && !RtPolicy(q) && !q.DEADLINE? ==> x < y)
      && (RtPolicy(p) && RtPolicy(q) ==> (x < y <==> a.rtPriority > b.rtPriority))
    ensures RtPolicy(p) <==> p == FIFO || p == RR
  {
  }

  lemma NiceOrder(a: int, b: int)
    ensures NiceToPrio(a) < NiceToPrio(b) <==> a < b
    ensures NiceToPrio(-20) == 100 && NiceToPrio(0) == 120 && NiceToPrio(19) == 139
    ensures MIN_NICE <= a <= MAX_NICE <==> 100 <= NiceToPrio(a) < 140
  {
  }

  /** The class that goes with a priority. */
  function ClassOf(prio: int): Class {
    if DlPrio(prio) then DlClass else if RtPrio(prio) then RtClass else FairClass
  }

  predicate ParamsOk(t: Task) {
    && MAX_RT_PRIO <= t.staticPrio < MAX_RT_PRIO + 40
    && if RtPolicy(t.policy) then 1 <= t.rtPriority < MAX_RT_PRIO else t.rtPriority == 0
  }

  predicate TaskOk(t: Task) {
    && ParamsOk(t)
    && t.normalPrio == NormalPrio(t.policy, t.staticPrio, t.rtPriority) && t.prio <= t.normalPrio
    && t.cls == match t.kind case Stopper => StopClass case Idler => IdleClass case Ordinary => ClassOf(t.prio)
  }

  /** An ordinary task at its normal priority is in the class of its policy; a boosted one is only ever moved up. */
  lemma ClassFollowsPolicy(t: Task)
    requires TaskOk(t) && t.kind.Ordinary?
    ensures t.prio == t.normalPrio ==>
      t.cls == if t.policy.DEADLINE? then DlClass else if RtPolicy(t.policy) then RtClass else FairClass
    ensures t.policy.DEADLINE? ==> t.cls.DlClass?
    ensures RtPolicy(t.policy) ==> !t.cls.FairClass?
  {
  }

  /** __rt_effective_prio() */
  function Effective(prio: int, donor: Option<int>): int {
    if donor.Some? && donor.value < prio then donor.value else prio
  }

  /** What sched_attr asks for; a policy of -1 keeps the old one, and dl* are what the deadline class says of it. */
  datatype PolicyArg = Keep | Set(policy: Policy) | Unknown
  datatype Attr = Attr(policy: PolicyArg, nice: int, priority: nat, keepParams: bool, resetOnFork: bool,
                       utilClamp: bool, unknownFlags: bool, dlValid: bool, dlChanged: bool)

  function PolicyFor(t: Task, a: Attr): Policy
    requires !a.policy.Unknown?
  { if a.policy.Keep? then t.policy else a.policy.policy }

  /** The checks on the arguments alone. */
  predicate ArgsOk(t: Task, a: Attr) {
    && !a.policy.Unknown? && !a.unknownFlags && a.priority < MAX_RT_PRIO
    && (PolicyFor(t, a).DEADLINE? ==> a.dlValid) && (RtPolicy(PolicyFor(t, a)) <==> a.priority != 0)
  }

  /** A known policy, and a priority from 1 to 99 for a real-time policy and 0 for any other. */
  lemma ArgsOkMeans(t: Task, a: Attr)
    ensures var policy := if a.policy.Set? then a.policy.policy else t.policy;
      ArgsOk(t, a) <==> (!a.policy.Unknown? && !a.unknownFlags && (policy.DEADLINE? ==> a.dlValid)
        && if policy.FIFO? || policy.RR? then 1 <= a.priority <= 99 else a.priority == 0)
  {
  }

  /** There is nothing to change but the reset-on-fork flag. */
  predicate NothingNew(t: Task, a: Attr)
    requires !a.policy.Unknown?
  {
    var policy := PolicyFor(t, a);
    && policy == t.policy && !a.utilClamp
    && (FairPolicy(policy) ==> NiceToPrio(a.nice) == t.staticPrio)
    && (RtPolicy(policy) ==> a.priority == t.rtPriority)
    && (policy.DEADLINE? ==> !a.dlChanged)
  }

  function Flagged(t: Task, a: Attr): Task {
    t.(resetOnFork := if a.policy.Keep? then t.resetOnFork else a.resetOnFork)
  }

  /** __setscheduler(): new parameters, and the donor's priority if that is to be kept. */
  function WithParams(t: Task, a: Attr, donor: Option<int>): Task
    requires !a.policy.Unknown?
  {
    if a.keepParams then t
    else
      var policy := PolicyFor(t, a);
      var staticPrio := if FairPolicy(policy) then NiceToPrio(a.nice) else t.staticPrio;
      var normal := NormalPrio(policy, staticPrio, a.priority);
      var prio := Effective(normal, donor);
      t.(policy := policy, staticPrio := staticPrio, rtPriority := a.priority, normalPrio := normal, prio := prio,
         cls := ClassOf(prio))
  }

  /** The task has the policy, nice value and priority that were asked for, and keeps what was not asked. */
  predicate SetAsAsked(t: Task, a: Attr, t': Task) {
    && t'.resetOnFork == (if a.policy.Set? then a.resetOnFork else t.resetOnFork) && t'.topTask == t.topTask
    && t'.kind == t.kind
    && if a.keepParams then t' == t.(resetOnFork := t'.resetOnFork)
       else
         && t'.policy == (if a.policy.Set? then a.policy.policy else t.policy) && t'.rtPriority == a.priority
         && t'.staticPrio == (if t'.policy.NORMAL? || t'.policy.BATCH? then a.nice + 120 else t.staticPrio)
         && t'.normalPrio == (if t'.policy.DEADLINE? then -1 else if a.priority > 0 then 99 - a.priority
                              else t'.staticPrio)
  }

  /** Setting parameters sets them as asked, and leaves the task at its new priority or its donor's, the higher one. */
  lemma SetsAsAsked(t: Task, a: Attr, donor: Option<int>)
    requires ArgsOk(t, a)
    ensures var t' := WithParams(Flagged(t, a), a, donor);
      && SetAsAsked(t, a, t')
      && (!a.keepParams ==>
        t'.prio == if donor.Some? && donor.value < t'.normalPrio then donor.value else t'.normalPrio)
  {
  }

  /** The shortcut is taken exactly where setting the parameters would change none of them. */
  lemma ShortcutChangesNothing(t: Task, a: Attr)
    requires ParamsOk(t) && t.normalPrio == NormalPrio(t.policy, t.staticPrio, t.rtPriority) && ArgsOk(t, a)
    ensures NothingNew(t, a) <==>
      && !a.utilClamp && (t.policy.DEADLINE? ==> !a.dlChanged)
      && SetAsAsked(t, a.(keepParams := false), Flagged(t, a))
    ensures NothingNew(t, a) ==> SetAsAsked(t, a, Flagged(t, a))
  {
  }

  /** set_user_nice() on the task alone. */
  function Reniced(t: Task, nice: int): Task {
    if t.staticPrio == NiceToPrio(nice) || nice < MIN_NICE || nice > MAX_NICE then t
    else
      var u := t.(staticPrio := NiceToPrio(nice));
      if t.policy.DEADLINE? || RtPolicy(t.policy) then u
      else u.(normalPrio := NiceToPrio(nice), prio := if RtPrio(t.prio) then t.prio else NiceToPrio(nice))
  }

  /** A new nice value takes effect for an ordinary policy, and a task boosted to a real-time priority keeps that. */
  lemma RenicedMeans(t: Task, nice: int)
    requires TaskOk(t)
    ensures var u, fair := Reniced(t, nice), !t.policy.DEADLINE? && !t.policy.FIFO? && !t.policy.RR?;
      if -20 <= nice <= 19 then
        u == t.(staticPrio := nice + 120, normalPrio := if fair then nice + 120 else t.normalPrio,
          prio := if fair && t.prio >= 100 then (if t.staticPrio == nice + 120 then t.prio else nice + 120) else t.prio)
      else u == t
  {
  }

  /** The class record of the child, before its class is chosen. */
  function ForkParams(parent: Task): Task {
    var t := parent.(prio := parent.normalPrio, onRq := false, running := false, topTask := None);
    if !t.resetOnFork then t
    else
      var special := t.policy.DEADLINE? || RtPolicy(t.policy);
      var policy := if special then NORMAL else t.policy;
      var staticPrio := if special || t.staticPrio < NiceToPrio(0) then NiceToPrio(0) else t.staticPrio;
      t.(policy := policy, staticPrio := staticPrio, rtPriority := if special then 0 else t.rtPriority,
         prio := staticPrio, normalPrio := staticPrio, resetOnFork := false)
  }

  // ---------------------------------------------------------------- the operations in place

  class Scheduler {
    var tasks: seq<Task>
    var queued: map<Class, set<Tid>>     // what each class has enqueued
    var marked: map<Class, set<Tid>>     // what each class has been told is running

    /** A task is enqueued, and marked as running, with its own class and no other. */
    ghost predicate Placed(p: Tid, onRq: bool, running: bool)
      reads this
      requires p < |tasks| && AllClasses(queued) && AllClasses(marked)
    {
      forall c: Class ::
        && (p in queued[c] <==> onRq && c == tasks[p].cls)
        && (p in marked[c] <==> running && c == tasks[p].cls)
    }

    /** Every task is where its class says. */
    ghost predicate Sound()
      reads this
    {
      && AllClasses(queued) && AllClasses(marked)
      && (forall c: Class, p: Tid :: p in queued[c] || p in marked[c] ==> p < |tasks|)
      && forall p :: 0 <= p < |tasks| ==>
        && (tasks[p].topTask.Some? ==> tasks[p].topTask.value < |tasks|)
        && Placed(p, tasks[p].onRq, tasks[p].running)
    }

    /** And its class is that of its priority. */
    ghost predicate Valid()
      reads this
    { Sound() && AllOk(tasks) }

    /** Nobody but p is touched. */
    twostate predicate OthersSame(p: Tid)
      reads this
      requires old(AllClasses(queued)) && old(AllClasses(marked))
      requires AllClasses(queued) && AllClasses(marked)
    {
      && |tasks| == |old(tasks)| && (forall q :: 0 <= q < |tasks| && q != p ==> tasks[q] == old(tasks)[q])
      && forall q: Tid, c: Class :: q != p ==>
        (q in queued[c] <==> q in old(queued)[c]) && (q in marked[c] <==> q in old(marked)[c])
    }

    /** The first task is init_task, which becomes an idle task. */
    constructor ()
      ensures Valid() && tasks == [INIT_TASK]
    {
      tasks := [INIT_TASK];
      queued := NOBODY;
      marked := NOBODY;
      new;
      NobodyIsTotal();
    }

    method DequeueTask(p: Tid)
      requires p < |tasks| && AllClasses(queued)
      modifies this`queued
      ensures queued == old(queued)[tasks[p].cls := old(queued)[tasks[p].cls] - {p}]
    { queued := queued[tasks[p].cls := queued[tasks[p].cls] - {p}]; }

    method EnqueueTask(p: Tid)
      requires p < |tasks| && AllClasses(queued)
      modifies this`queued
      ensures queued == old(queued)[tasks[p].cls := old(queued)[tasks[p].cls] + {p}]
    { queued := queued[tasks[p].cls := queued[tasks[p].cls] + {p}]; }

    method PutPrevTask(p: Tid)
      requires p < |tasks| && AllClasses(marked)
      modifies this`marked
      ensures marked == old(marked)[tasks[p].cls := old(marked)[tasks[p].cls] - {p}]
    { marked := marked[tasks[p].cls := marked[tasks[p].cls] - {p}]; }

    method SetNextTask(p: Tid)
      requires p < |tasks| && AllClasses(marked)
      modifies this`marked
      ensures marked == old(marked)[tasks[p].cls := old(marked)[tasks[p].cls] + {p}]
    { marked := marked[tasks[p].cls := marked[tasks[p].cls] + {p}]; }

    /** What every change does first: take the task out of its class, if it is in. */
    method TakeOut(p: Tid)
      requires Sound() && p < |tasks|
      modifies this`queued, this`marked
      ensures AllClasses(queued) && AllClasses(marked) && OthersSame(p) && Placed(p, false, false)
    {
      if tasks[p].onRq { DequeueTask(p); }
      if tasks[p].running { PutPrevTask(p); }
    }

    /** And last: put it into its class, which may be another one now. */
    method PutBack(p: Tid)
      requires p < |tasks| && AllClasses(queued) && AllClasses(marked) && Placed(p, false, false)
      modifies this`queued, this`marked
      ensures AllClasses(queued) && AllClasses(marked) && OthersSame(p) && Placed(p, tasks[p].onRq, tasks[p].running)
    {
      if tasks[p].onRq { EnqueueTask(p); }
      if tasks[p].running { SetNextTask(p); }
    }

    /** The bracket around every change of a task's priority or class. */
    method Change(p: Tid, t: Task)
      requires Sound() && p < |tasks| && t.onRq == tasks[p].onRq && t.running == tasks[p].running
      requires t.topTask.Some? ==> t.topTask.value < |tasks|
      modifies this
      ensures Sound() && OthersSame(p) && tasks == old(tasks)[p := t]
    {
      TakeOut(p);
      tasks := tasks[p := t];
      PutBack(p);
      assert forall q :: 0 <= q < |tasks| && q != p ==> Placed(q, tasks[q].onRq, tasks[q].running);
    }

    /** A store that leaves the task in its class. */
    method Store(p: Tid, t: Task)
      requires Sound() && p < |tasks| && t.onRq == tasks[p].onRq && t.running == tasks[p].running
        && t.cls == tasks[p].cls
      requires t.topTask.Some? ==> t.topTask.value < |tasks|
      modifies this`tasks
      ensures Sound() && OthersSame(p) && tasks == old(tasks)[p := t]
    {
      assert Placed(p, t.onRq, t.running);
      tasks := tasks[p := t];
    }

    /** set_user_nice() */
    method SetUserNice(p: Tid, nice: int)
      requires Valid() && p < |tasks|
      modifies this
      ensures Valid() && OthersSame(p) && tasks[p] == Reniced(old(tasks)[p], nice)
    {
      var t := tasks[p];
      if t.staticPrio == NiceToPrio(nice) || nice < MIN_NICE || nice > MAX_NICE { return; }
      OneChanged(tasks, p, Reniced(t, nice));
      if t.policy.DEADLINE? || RtPolicy(t.policy) {
        Store(p, t.(staticPrio := NiceToPrio(nice)));
        return;
      }
      t := t.(staticPrio := NiceToPrio(nice));
      t := t.(normalPrio := NormalPrio(t.policy, t.staticPrio, t.rtPriority));
      if !RtPrio(t.prio) { t := t.(prio := t.normalPrio); }
      Change(p, t);
    }

    function DonorPrio(donor: Option<Tid>): Option<int>
      reads this
      requires donor.Some? ==> donor.value < |tasks|
    { if donor.Some? then Some(tasks[donor.value].prio) else None }

    /**
     * rt_mutex_setprio(): the task runs at its own priority or its donor's, whichever is higher.  Nothing here spares
     * the stopper: it would leave its class exactly when its priority changes or is a deadline task's.
     */
    method RtMutexSetprio(p: Tid, donor: Option<Tid>)
      requires Valid() && p < |tasks| && (donor.Some? ==> donor.value < |tasks|)
      modifies this
      ensures Sound() && OthersSame(p)
      ensures tasks[p] == Boosted(old(tasks)[p], donor, old(DonorPrio(donor)))
      ensures tasks[p] == old(tasks)[p].(topTask := donor, prio := tasks[p].prio, cls := tasks[p].cls)
      ensures old(tasks)[p].kind.Ordinary? ==> var normal := old(tasks)[p].normalPrio;
        tasks[p].prio == if donor.Some? && old(tasks)[donor.value].prio < normal then old(tasks)[donor.value].prio
                         else normal
      ensures var t, prio := old(tasks)[p], Effective(old(tasks)[p].normalPrio, old(DonorPrio(donor)));
        Valid() <==> !(t.kind.Stopper? && (prio != t.prio || DlPrio(prio)))
    {
      OneChanged(tasks, p, Boosted(tasks[p], donor, DonorPrio(donor)));
      BoostedOk(tasks[p], donor, DonorPrio(donor));
      var t := tasks[p];
      var prio := Effective(t.normalPrio, DonorPrio(donor));
      if t.topTask == donor && prio == t.prio && !DlPrio(prio) { return; }
      t := t.(topTask := donor);
      if (prio == t.prio && !DlPrio(prio)) || t.kind.Idler? {
        Store(p, t);
        return;
      }
      SetPrio(p, t, prio);
    }

    /** The rest of it, with the runqueue bracket. */
    method SetPrio(p: Tid, t: Task, prio: int)
      requires Sound() && p < |tasks| && t.onRq == tasks[p].onRq && t.running == tasks[p].running
      requires t.topTask.Some? ==> t.topTask.value < |tasks|
      modifies this
      ensures Sound() && OthersSame(p) && tasks == old(tasks)[p := t.(prio := prio, cls := ClassOf(prio))]
    {
      var u := t;
      if DlPrio(prio) {
        u := u.(cls := DlClass);
      } else if RtPrio(prio) {
        u := u.(cls := RtClass);
      } else {
        u := u.(cls := FairClass);
      }
      u := u.(prio := prio);
      Change(p, u);
    }

    /**
     * __sched_setscheduler().  `early` and `late` are the verdicts of the permission, security, clamp and bandwidth
     * checks made before and after the test for "nothing to change".  An idle task, or a nice value that no caller
     * has clamped, is not turned away.
     */
    method SchedSetscheduler(p: Tid, a: Attr, early: int, late: int, pi: bool) returns (ret: int)
      requires Valid() && p < |tasks|
      modifies this
      ensures Sound() && OthersSame(p)
      ensures var t := old(tasks)[p];
        ret == if !ArgsOk(t, a) then -EINVAL else if early != 0 then early else if t.kind.Stopper? then -EINVAL
          else if NothingNew(t, a) then 0 else late
      ensures tasks[p] ==
        if ret != 0 then old(tasks)[p]
        else if NothingNew(old(tasks)[p], a) then Flagged(old(tasks)[p], a)
        else WithParams(Flagged(old(tasks)[p], a), a, if pi then old(DonorPrio(tasks[p].topTask)) else None)
      ensures Valid() <==> !(ret == 0 && !NothingNew(old(tasks)[p], a) && Misfits(old(tasks)[p], a))
      ensures ret == 0 ==> SetAsAsked(old(tasks)[p], a, tasks[p])
    {
      var t := tasks[p];
      if !ArgsOk(t, a) { return -EINVAL; }
      if early != 0 { return early; }
      if t.kind.Stopper? { return -EINVAL; }
      if NothingNew(t, a) {
        ShortcutChangesNothing(t, a);
        OneChanged(tasks, p, Flagged(t, a));
        Store(p, Flagged(t, a));
        return 0;
      }
      if late != 0 { return late; }
      var donor := if pi then DonorPrio(t.topTask) else None;
      SetsAsAsked(t, a, donor);
      SetScheduler(p, a, donor);
      ret := 0;
    }

    /** __setscheduler() and the flag, within the bracket. */
    method SetScheduler(p: Tid, a: Attr, donor: Option<int>)
      requires Valid() && p < |tasks| && !tasks[p].kind.Stopper? && ArgsOk(tasks[p], a)
      modifies this
      ensures Sound() && OthersSame(p) && tasks == old(tasks)[p := WithParams(Flagged(old(tasks)[p], a), a, donor)]
      ensures Valid() <==> !Misfits(old(tasks)[p], a)
    {
      var t := Flagged(tasks[p], a);
      WithParamsOk(t, a, donor);
      OneChanged(tasks, p, WithParams(t, a, donor));
      Change(p, WithParams(t, a, donor));
    }

    /** sched_fork(): the child's parameters and class; a deadline child is refused. */
    method SchedFork(parent: Tid) returns (ret: int)
      requires Valid() && parent < |tasks|
      modifies this`tasks
      ensures Valid()
      ensures ret == if old(tasks)[parent].policy.DEADLINE? && !old(tasks)[parent].resetOnFork then -EAGAIN else 0
      ensures var child := ForkParams(old(tasks)[parent]);
        tasks == if ret != 0 then old(tasks) else old(tasks) + [child.(kind := Ordinary, cls := ClassOf(child.prio))]
    {
      var child := ForkParams(tasks[parent]).(kind := Ordinary);
      ForkDropsBoost(tasks[parent]);
      if DlPrio(child.prio) { return -EAGAIN; }
      if RtPrio(child.prio) {
        child := child.(cls := RtClass);
      } else {
        child := child.(cls := FairClass);
      }
      tasks := tasks + [child];
      ret := 0;
    }
  }

  /**
   * The child has its parent's policy and parameters; with reset-on-fork it is an ordinary task, of nice 0 after a
   * real-time or deadline policy or a negative nice value.
   */
  lemma ForkMeans(parent: Task)
    requires TaskOk(parent)
    ensures var child := ForkParams(parent);
      var special := parent.policy.DEADLINE? || parent.policy.FIFO? || parent.policy.RR?;
      && child.prio == child.normalPrio && !child.onRq && !child.running && child.topTask.None? && !child.resetOnFork
      && if !parent.resetOnFork then
           && child.policy == parent.policy && child.staticPrio == parent.staticPrio
           && child.rtPriority == parent.rtPriority && child.normalPrio == parent.normalPrio
         else
           && child.policy == (if special then NORMAL else parent.policy) && child.rtPriority == 0
           && child.staticPrio == (if special || parent.staticPrio < 120 then 120 else parent.staticPrio)
           && child.normalPrio == child.staticPrio
  {
  }

  /** A child never inherits a boost, and it is refused exactly when it would be a deadline task. */
  lemma ForkDropsBoost(parent: Task)
    requires TaskOk(parent)
    ensures var child := ForkParams(parent).(kind := Ordinary, cls := ClassOf(ForkParams(parent).prio));
      && TaskOk(child) && child.prio == child.normalPrio
      && (DlPrio(child.prio) <==> parent.policy.DEADLINE? && !parent.resetOnFork)
      && (parent.resetOnFork ==> child.cls.FairClass? && child.staticPrio >= NiceToPrio(0) && !child.resetOnFork)
  {
  }

  /** What rt_mutex_setprio() makes of a task. */
  function Boosted(t: Task, donor: Option<Tid>, donorPrio: Option<int>): Task {
    var prio := Effective(t.normalPrio, donorPrio);
    if t.kind.Idler? || (prio == t.prio && !DlPrio(prio)) then t.(topTask := donor)
    else t.(topTask := donor, prio := prio, cls := ClassOf(prio))
  }

  /** A boost leaves a task in the class of its priority, unless it moves the stopper. */
  lemma BoostedOk(t: Task, donor: Option<Tid>, donorPrio: Option<int>)
    requires TaskOk(t)
    ensures var prio := Effective(t.normalPrio, donorPrio);
      TaskOk(Boosted(t, donor, donorPrio)) <==> !(t.kind.Stopper? && (prio != t.prio || DlPrio(prio)))
  {
  }

  /** Boosts leave nothing behind: after any of them, the task without a donor is what it was before, unboosted. */
  lemma BoostUndone(t: Task, donor: Option<Tid>, donorPrio: Option<int>)
    requires TaskOk(t) && t.kind.Ordinary?
    ensures var b := Boosted(t, donor, donorPrio);
      && b.prio <= t.normalPrio && (donorPrio.Some? ==> b.prio <= donorPrio.value)
      && Boosted(b, None, None) == t.(topTask := None, prio := t.normalPrio, cls := ClassOf(t.normalPrio))
  {
  }

  predicate AllOk(ts: seq<Task>) { forall p :: 0 <= p < |ts| ==> TaskOk(ts[p]) }

  lemma OneChanged(ts: seq<Task>, p: Tid, t: Task)
    requires AllOk(ts) && p < |ts|
    ensures AllOk(ts[p := t]) <==> TaskOk(t)
  {
    var us := ts[p := t];
    if TaskOk(t) {
      forall q | 0 <= q < |us| ensures TaskOk(us[q]) { if q != p { assert us[q] == ts[q]; } }
    } else {
      assert us[p] == t;
    }
  }

  /** The new parameters do not fit the task: it has no such class, or the nice value has no priority. */
  predicate Misfits(t: Task, a: Attr)
    requires !a.policy.Unknown?
  {
    && !a.keepParams
    && (t.kind.Idler? || (FairPolicy(PolicyFor(t, a)) && !(MIN_NICE <= a.nice <= MAX_NICE)))
  }

  /** New parameters leave a task in order exactly when they fit it, with the boost of its donor kept. */
  lemma WithParamsOk(t: Task, a: Attr, donor: Option<int>)
    requires TaskOk(t) && !t.kind.Stopper? && ArgsOk(t, a)
    ensures TaskOk(WithParams(t, a, donor)) <==> !Misfits(t, a)
    ensures donor.Some? && !a.keepParams ==> WithParams(t, a, donor).prio <= donor.value
  {
  }

  const NOBODY: map<Class, set<Tid>> := map[StopClass := {}, DlClass := {}, RtClass := {}, FairClass := {},
    IdleClass := {}]

  lemma NobodyIsTotal()
    ensures AllClasses(NOBODY)
  {
    forall c: Class ensures c in NOBODY {
      match c case StopClass => case DlClass => case RtClass => case FairClass => case IdleClass =>
    }
  }

  const INIT_TASK: Task := Task(Idler, NORMAL, NiceToPrio(0), 0, NiceToPrio(0), NiceToPrio(0), IdleClass, false,
    None, false, false)

  predicate AllClasses(m: map<Class, set<Tid>>) { forall c: Class :: c in m }
}
