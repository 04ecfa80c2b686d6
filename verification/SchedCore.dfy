/**
 * The locked sections of the scheduler as code that updates runqueues and tasks in place, statement by
 * statement, each proved to be the step of SchedState that the protocol theorems are about.
 */
module SchedCore {
  import opened Wrappers
  import opened SchedState
  import opened SchedInvariant
  import opened SchedCounters
  import opened SchedTtwu
  import opened SchedProgress
  import opened SchedEffects
  import opened SchedMigrate

  class Scheduler {
    var tasks: seq<Task>
    var rqs: seq<Rq>
    var lazyRefs: map<Mm, int>

    function Now(): State
      reads this
    { State(tasks, rqs, lazyRefs) }

    /** Boot: one idle task for each of n CPUs. */
    constructor (n: nat)
      ensures Boot(Now()) && |rqs| == n
    {
      tasks := seq(n, c requires 0 <= c => IdleTask(c));
      rqs := seq(n, c requires 0 <= c => BootRq(c, n + c));
      lazyRefs := map[0 := n];
      new;
      assert forall c :: 0 <= c < n ==> rqs[c] == BootRq(c, n + c);
    }

    method MmGrab(m: Option<Mm>)
      modifies this`lazyRefs
      ensures lazyRefs == GrabLazy(old(Now()), m)
    {
      if m.Some? { lazyRefs := lazyRefs[m.value := LazyRefs(Now(), m.value) + 1]; }
    }

    method MmDrop(m: Option<Mm>)
      modifies this`lazyRefs
      ensures lazyRefs == DropLazy(old(Now()), m)
    {
      if m.Some? { lazyRefs := lazyRefs[m.value := LazyRefs(Now(), m.value) - 1]; }
    }

    /** deactivate_task() with the two counts around it. */
    method SleepTask(c: Cpu, prev: Tid, load: bool)
      requires IsCpu(Now(), c) && IsTask(Now(), prev)
      modifies this`tasks, this`rqs
      ensures tasks == old(tasks)[prev := old(tasks)[prev].(contributes := load, onRq := Off)]
      ensures var r := old(rqs)[c];
        rqs == old(rqs)[c := r.(
          queue := r.queue - {prev},
          nrUninterruptible := if load then Inc64(r.nrUninterruptible) else r.nrUninterruptible,
          nrIowait := if old(tasks)[prev].inIowait then r.nrIowait + 1 else r.nrIowait)]
    {
      tasks := tasks[prev := tasks[prev].(contributes := load)];
      if tasks[prev].contributes {
        rqs := rqs[c := rqs[c].(nrUninterruptible := Inc64(rqs[c].nrUninterruptible))];
      }
      tasks := tasks[prev := tasks[prev].(onRq := Off)];
      rqs := rqs[c := rqs[c].(queue := rqs[c].queue - {prev})];
      if tasks[prev].inIowait {
        rqs := rqs[c := rqs[c].(nrIowait := rqs[c].nrIowait + 1)];
      }
    }

    /**
     * Lines 4153-4185 of __schedule(): put the previous task to sleep, or keep it; returns which counter the
     * switch goes to.
     */
    method PutPrevTask(c: Cpu, preempt: bool, signal: bool, frozen: bool) returns (voluntary: bool)
      requires Idling(Now(), c)
      modifies this`tasks, this`rqs
      ensures Now() == PutPrev(old(Now()), c, preempt, signal, frozen)
      ensures voluntary <==> !preempt && CurrTask(old(Now()), c).state != Running
    {
      var prev := rqs[c].curr;
      var state := tasks[prev].state;
      voluntary := false;
      if !preempt && state != Running {
        if signal {
          tasks := tasks[prev := tasks[prev].(state := Running)];
        } else {
          SleepTask(c, prev, ContributesToLoad(state, frozen));
        }
        voluntary := true;
      }
    }

    /** context_switch(): hand the address space over. */
    method SwitchMm(c: Cpu, prev: Tid, next: Tid)
      requires IsCpu(Now(), c) && IsTask(Now(), prev) && IsTask(Now(), next) && prev != next
      modifies this
      ensures var o := old(Now()); var pt, nt := o.tasks[prev], o.tasks[next];
        && tasks == o.tasks[prev := if pt.mm.None? then pt.(activeMm := None) else pt]
                           [next := if nt.mm.None? then nt.(activeMm := pt.activeMm) else nt]
        && rqs == o.rqs[c := o.rqs[c].(
             loadedMm := if nt.mm.Some? then nt.mm else o.rqs[c].loadedMm,
             prevMm := if nt.mm.Some? && pt.mm.None? then pt.activeMm else o.rqs[c].prevMm)]
        && lazyRefs == (if nt.mm.None? && pt.mm.Some? then GrabLazy(o, pt.activeMm) else o.lazyRefs)
    {
      var pt, nt := tasks[prev], tasks[next];
      if nt.mm.None? {
        tasks := tasks[next := nt.(activeMm := pt.activeMm)];
        if pt.mm.Some? {
          MmGrab(pt.activeMm);
        } else {
          tasks := tasks[prev := pt.(activeMm := None)];
        }
      } else {
        rqs := rqs[c := rqs[c].(loadedMm := nt.mm)];
        if pt.mm.None? {
          rqs := rqs[c := rqs[c].(prevMm := pt.activeMm)];
          tasks := tasks[prev := pt.(activeMm := None)];
        }
      }
    }

    /** Lines 4191-4221: publish the next task, count the switch on both sides and claim it. */
    method CountAndClaim(c: Cpu, prev: Tid, voluntary: bool, next: Tid)
      requires IsCpu(Now(), c) && IsTask(Now(), prev) && IsTask(Now(), next) && next != prev
      modifies this`tasks, this`rqs
      ensures rqs == old(rqs)[c := old(rqs)[c].(nrSwitches := Inc64(old(rqs)[c].nrSwitches), curr := next)]
      ensures var pt, nt := old(tasks)[prev], old(tasks)[next];
        var pt' := if voluntary then pt.(nvcsw := Inc64(pt.nvcsw)) else pt.(nivcsw := Inc64(pt.nivcsw));
        tasks == old(tasks)[prev := pt'][next := nt.(switches := Inc32(nt.switches), onCpu := true)]
    {
      rqs := rqs[c := rqs[c].(nrSwitches := Inc64(rqs[c].nrSwitches))];
      rqs := rqs[c := rqs[c].(curr := next)];
      if voluntary {
        tasks := tasks[prev := tasks[prev].(nvcsw := Inc64(tasks[prev].nvcsw))];
      } else {
        tasks := tasks[prev := tasks[prev].(nivcsw := Inc64(tasks[prev].nivcsw))];
      }
      tasks := tasks[next := tasks[next].(switches := Inc32(tasks[next].switches))];
      tasks := tasks[next := tasks[next].(onCpu := true)];
    }

    method SwitchTo(c: Cpu, voluntary: bool, next: Tid)
      requires Idling(Now(), c) && IsTask(Now(), next) && next != rqs[c].curr
      modifies this
      ensures Now() == SwitchIn(old(Now()), c, voluntary, next)
    {
      var prev := rqs[c].curr;
      CountAndClaim(c, prev, voluntary, next);
      SwitchMm(c, prev, next);
      rqs := rqs[c := rqs[c].(mode := Switching(prev), lock := Some(c))];
    }

    /** The locked section of __schedule(), up to the switch of stacks. */
    method Schedule(c: Cpu, preempt: bool, signal: bool, frozen: bool, next: Tid)
      requires CanSchedule(Now(), c, preempt, signal, next)
      modifies this
      ensures Now() == DoSchedule(old(Now()), c, preempt, signal, frozen, next)
      ensures Scheduled(old(Now()), Now(), c, preempt, signal, frozen, next)
    {
      ScheduleMeans(Now(), c, preempt, signal, frozen, next);
      var prev := rqs[c].curr;
      var voluntary := PutPrevTask(c, preempt, signal, frozen);
      if prev != next {
        SwitchTo(c, voluntary, next);
      }
    }

    /** finish_task() and then finish_lock_switch() with the deferred mmdrop(). */
    method FinishTask(c: Cpu)
      requires CanFinishTask(Now(), c)
      modifies this`tasks, this`rqs
      ensures Now() == DoFinishTask(old(Now()), c)
    {
      var prev := rqs[c].mode.prev;
      tasks := tasks[prev := tasks[prev].(onCpu := false)];
      rqs := rqs[c := rqs[c].(mode := Switched)];
    }

    method FinishLock(c: Cpu)
      requires CanFinishLock(Now(), c)
      modifies this
      ensures Now() == DoFinishLock(old(Now()), c)
    {
      var mm := rqs[c].prevMm;
      rqs := rqs[c := rqs[c].(prevMm := None)];
      rqs := rqs[c := rqs[c].(lock := None, mode := Run)];
      MmDrop(mm);
    }

    /** ttwu_do_activate() and ttwu_do_wakeup() */
    method TtwuDoActivate(d: Cpu, p: Tid)
      requires IsCpu(Now(), d) && IsTask(Now(), p)
      modifies this`tasks, this`rqs
      ensures Now() == Activate(old(Now()), d, p)
    {
      if tasks[p].contributes {
        rqs := rqs[d := rqs[d].(nrUninterruptible := Dec64(rqs[d].nrUninterruptible))];
      }
      rqs := rqs[d := rqs[d].(queue := rqs[d].queue + {p})];
      tasks := tasks[p := tasks[p].(onRq := Queued)];
      tasks := tasks[p := tasks[p].(state := Running)];
    }

    /** The body of the loop in sched_ttwu_pending(), with its two checks. */
    method DrainEntry(c: Cpu) returns (warned: bool)
      requires CanDrain(Now(), c)
      modifies this`tasks, this`rqs
      ensures var p := old(rqs)[c].wakelist[0]; warned <==> old(tasks)[p].onCpu || old(tasks)[p].cpu != c
      ensures Now() == DoDrain(old(Now()), c)
    {
      var p := rqs[c].wakelist[0];
      warned := tasks[p].onCpu;
      rqs := rqs[c := rqs[c].(wakelist := rqs[c].wakelist[1..])];
      if tasks[p].cpu != c {
        warned := true;
        tasks := tasks[p := tasks[p].(cpu := c)];
      }
      TtwuDoActivate(c, p);
    }

    /**
     * sched_ttwu_pending(): the whole wakelist under one hold of the lock.  It is a run of Drain steps, in list
     * order, that empties the list, and neither WARN_ON_ONCE is hit.
     */
    method SchedTtwuPending(c: Cpu) returns (warned: bool)
      requires Inv(Now()) && Idling(Now(), c) && LockFree(Now(), c)
      modifies this`tasks, this`rqs
      ensures !warned
      ensures ValidRun(old(Now()), Drains(c, |old(rqs)[c].wakelist|))
        && Now() == Final(old(Now()), Drains(c, |old(rqs)[c].wakelist|))
      ensures |rqs| == |old(rqs)| && rqs[c].wakelist == [] && Inv(Now())
      ensures forall i :: 0 <= i < |old(rqs)[c].wakelist| ==> RunnableOn(Now(), c, old(rqs)[c].wakelist[i])
    {
      warned := false;
      ghost var k := 0;
      while |rqs[c].wakelist| > 0
        invariant DrainedTo(old(Now()), Now(), c, k) && !warned
        decreases |rqs[c].wakelist|
      {
        DrainRound(old(Now()), Now(), c, k);
        var w := DrainEntry(c);
        warned := warned || w;
        k := k + 1;
      }
    }

    /** move_queued_task(), first half: under the lock of the source runqueue. */
    method DequeueForMove(c: Cpu, p: Tid, dest: Cpu, pi: bool)
      requires IsCpu(Now(), c) && IsTask(Now(), p) && IsCpu(Now(), tasks[p].cpu)
      modifies this`tasks, this`rqs
      ensures Now() == Detach(old(Now()), c, p, dest, pi) && Detached(old(Now()), Now(), c, p, dest, pi)
    {
      tasks := tasks[p := tasks[p].(onRq := Migrating(c))];
      var src := tasks[p].cpu;
      rqs := rqs[src := rqs[src].(queue := rqs[src].queue - {p})];
      tasks := tasks[p := tasks[p].(cpu := dest)];
      rqs := rqs[c := rqs[c].(mode := Carrying(p, dest, pi))];
    }

    /** Second half: under the lock of the destination; its BUG_ON is never hit. */
    method EnqueueMoved(c: Cpu) returns (bug: bool)
      requires Inv(Now()) && CanAttach(Now(), c)
      modifies this`tasks, this`rqs
      ensures !bug && Now() == DoAttach(old(Now()), c)
    {
      var p, dest := rqs[c].mode.p, rqs[c].mode.dest;
      assert Known(Now(), p, c);
      bug := tasks[p].cpu != dest;
      var pi := rqs[c].mode.pi;
      rqs := rqs[dest := rqs[dest].(queue := rqs[dest].queue + {p})];
      tasks := tasks[p := tasks[p].(onRq := Queued)];
      rqs := rqs[c := rqs[c].(mode := Run)];
      if pi { tasks := tasks[p := tasks[p].(piLock := None)]; }
    }

    /** migration_cpu_stop() with move_queued_task(): the task is queued on the CPU it was sent to, and nowhere else. */
    method MigrationCpuStop(c: Cpu, p: Tid, dest: Cpu) returns (bug: bool)
      requires Inv(Now()) && CanStopperDetach(Now(), c, p, dest) && LockFree(Now(), dest)
      modifies this`tasks, this`rqs
      ensures !bug && Arrived(Now(), p, dest) && Inv(Now()) && tasks[p].piLock.None?
      ensures |tasks| == |old(tasks)| && forall q :: 0 <= q < |tasks| && q != p ==> tasks[q] == old(tasks)[q]
    {
      StopperMoves(Now(), c, p, dest);
      tasks := tasks[p := tasks[p].(piLock := Some(c))];
      DequeueForMove(c, p, dest, true);
      bug := EnqueueMoved(c);
    }

    /**
     * One round of task_rq_lock(), with the runqueue's lock free: it returns with both locks exactly if the task is
     * not migrating, and else has dropped them.
     */
    method TaskRqLockRound(c: Cpu, p: Tid) returns (locked: bool)
      requires Inv(Now()) && CanLockRead(Now(), c, p) && LockFree(Now(), tasks[p].cpu)
      modifies this`tasks, this`rqs
      ensures locked <==> !old(tasks)[p].onRq.Migrating?
      ensures locked ==> HasBoth(Now(), c, p)
      ensures !locked ==> Now() == old(Now())
    {
      LockRound(Now(), c, p);
      tasks := tasks[p := tasks[p].(piLock := Some(c))];
      var g := tasks[p].cpu;
      rqs := rqs[c := rqs[c].(mode := LockGuess(p, g))];
      locked := g == tasks[p].cpu && !tasks[p].onRq.Migrating?;
      if locked {
        rqs := rqs[g := rqs[g].(lock := Some(c))];
        rqs := rqs[c := rqs[c].(mode := LockHeld(p, g))];
      } else {
        tasks := tasks[p := tasks[p].(piLock := None)];
        rqs := rqs[c := rqs[c].(mode := Run)];
      }
    }

    /** The part of wait_task_inactive() under task_rq_lock(); none while it has to wait. */
    method LookInactive(c: Cpu, p: Tid, matchState: Option<TaskState>) returns (ncsw: Option<U64>)
      requires Inv(Now()) && HasBoth(Now(), c, p)
      ensures ncsw == Observe(tasks[p], matchState) && LookMeans(tasks[p], matchState, ncsw)
    {
      LookIs(Now(), c, p, tasks[p].cpu, matchState);
      var running, queued := tasks[p].onCpu, tasks[p].onRq.Queued?;
      var n := 0;
      if matchState.None? || tasks[p].state == matchState.value {
        n := if tasks[p].nvcsw < 0x8000_0000_0000_0000 then tasks[p].nvcsw + 0x8000_0000_0000_0000 else tasks[p].nvcsw;
      }
      if n == 0 { return Some(0); }
      if running || queued { return None; }
      ncsw := Some(n);
    }

    // The pieces of try_to_wake_up() between which other CPUs may act.

    /** Take p->pi_lock and test the state. */
    method LockForWakeup(c: Cpu, p: Tid, mask: set<SleepBit>) returns (success: bool)
      requires CanTtwuBegin(Now(), c, p, mask, false)
      modifies this`tasks, this`rqs
      ensures Now() == DoTtwuBegin(old(Now()), c, p, mask, false) && (success <==> Matches(old(tasks)[p].state, mask))
    {
      success := Matches(tasks[p].state, mask);
      if success {
        tasks := tasks[p := tasks[p].(piLock := Some(c))];
        rqs := rqs[c := rqs[c].(mode := Ttwu(p, Seen, false))];
      }
    }

    method SetPhase(c: Cpu, ph: Phase)
      requires InTtwu(Now(), c)
      modifies this`rqs
      ensures Now() == PutPhase(old(Now()), c, ph)
    { rqs := rqs[c := rqs[c].(mode := rqs[c].mode.(ph := ph))]; }

    /** ttwu_remote(), with the lock of the task's runqueue just taken. */
    method TtwuRemote(c: Cpu) returns (done: bool)
      requires CanTtwuLocked(Now(), c)
      modifies this`tasks, this`rqs
      ensures Now() == DoTtwuLocked(old(Now()), c)
      ensures done <==> Target(old(Now()), c).cpu == old(rqs)[c].mode.ph.g && Target(old(Now()), c).onRq.Queued?
    {
      var p, g := rqs[c].mode.p, rqs[c].mode.ph.g;
      done := false;
      if tasks[p].cpu != g || tasks[p].onRq.Migrating? {
        SetPhase(c, Remote);
      } else if tasks[p].onRq.Queued? {
        tasks := tasks[p := tasks[p].(state := Running)];
        tasks := tasks[p := tasks[p].(piLock := None)];
        rqs := rqs[c := rqs[c].(mode := Run)];
        done := true;
      } else {
        SetPhase(c, Blocked);
      }
    }

    /** The waker takes the task out of nr_iowait and stores TASK_WAKING. */
    method ClaimTask(c: Cpu)
      requires CanTtwuClaim(Now(), c)
      modifies this`tasks, this`rqs
      ensures Now() == DoTtwuClaim(old(Now()), c)
    {
      var p := rqs[c].mode.p;
      var d := tasks[p].cpu;
      if tasks[p].inIowait { rqs := rqs[d := rqs[d].(nrIowait := rqs[d].nrIowait - 1)]; }
      tasks := tasks[p := tasks[p].(state := Waking(true))];
      SetPhase(c, Claimed);
    }

    /** __ttwu_queue_wakelist() */
    method QueueWakelist(c: Cpu, d: Cpu, migrated: bool)
      requires InTtwu(Now(), c) && IsCpu(Now(), d)
      modifies this`tasks, this`rqs
      ensures Now() == PushWakelist(old(Now()), c, d, migrated)
    {
      var p := rqs[c].mode.p;
      tasks := tasks[p := tasks[p].(remoteWakeup := migrated)];
      tasks := tasks[p := tasks[p].(state := Waking(false), piLock := None)];
      rqs := rqs[c := rqs[c].(mode := Run)];
      rqs := rqs[d := rqs[d].(wakelist := rqs[d].wakelist + [p])];
    }

    /** ttwu_queue() under the lock of the runqueue. */
    method QueueTask(c: Cpu)
      requires CanTtwuQueue(Now(), c)
      modifies this`tasks, this`rqs
      ensures Now() == DoTtwuQueue(old(Now()), c)
    {
      var p := rqs[c].mode.p;
      TtwuDoActivate(tasks[p].cpu, p);
      tasks := tasks[p := tasks[p].(piLock := None)];
      rqs := rqs[c := rqs[c].(mode := Run)];
    }

    /** ttwu_queue(): on the wakelist of the task's CPU, or into its runqueue once that is unlocked. */
    method TtwuQueue(c: Cpu, list: bool) returns (r: WakeResult)
      requires AtPlaced(Now(), c)
      modifies this`tasks, this`rqs
      ensures Outcome(Now(), r) == Queue(old(Now()), c, list)
    {
      var d := tasks[rqs[c].mode.p].cpu;
      if list && d != c {
        QueueWakelist(c, d, rqs[c].mode.ph.migrated);
        return Woken;
      }
      if rqs[d].lock.Some? { return Waiting; }
      QueueTask(c);
      r := Woken;
    }

    /** The end of try_to_wake_up(), once on_cpu is clear. */
    method PlaceTask(c: Cpu, dest: Cpu, list: bool) returns (r: WakeResult)
      requires AtPhase(Now(), c, Spin) && !Target(Now(), c).onCpu && IsCpu(Now(), dest)
      modifies this`tasks, this`rqs
      ensures Outcome(Now(), r) == Place(old(Now()), c, dest, list)
    {
      var p := rqs[c].mode.p;
      SetPhase(c, OffCpu);
      var migrated := tasks[p].cpu != dest;
      tasks := tasks[p := tasks[p].(cpu := dest)];
      SetPhase(c, Placed(migrated));
      r := TtwuQueue(c, list);
    }

    /** From the point where the task is known to be off its runqueue. */
    method WakeBlocked(c: Cpu, dest: Cpu, list: bool) returns (r: WakeResult)
      requires CanTtwuClaim(Now(), c) && IsCpu(Now(), dest)
      modifies this`tasks, this`rqs
      ensures Outcome(Now(), r) == Wake(old(Now()), c, dest, list)
    {
      ClaimTask(c);
      assert IsCpu(Now(), Target(Now(), c).cpu);
      var t := tasks[rqs[c].mode.p];
      if t.onCpu {
        SetPhase(c, SawOnCpu);
        if list && t.cpu != c {
          QueueWakelist(c, t.cpu, false);
          return Woken;
        }
        SetPhase(c, Spin);
        return Waiting;
      }
      SetPhase(c, Spin);
      r := PlaceTask(c, dest, list);
    }

    /** The rest of it, under p->pi_lock. */
    method WakeMatched(c: Cpu, dest: Cpu, list: bool) returns (r: WakeResult)
      requires AtPhase(Now(), c, Seen) && IsCpu(Now(), Target(Now(), c).cpu) && IsCpu(Now(), dest)
      modifies this`tasks, this`rqs
      ensures Outcome(Now(), r) == Matched(old(Now()), c, dest, list)
    {
      var p := rqs[c].mode.p;
      if tasks[p].onRq.Off? {
        SetPhase(c, Blocked);
      } else {
        SetPhase(c, Remote);
        var g := tasks[p].cpu;
        SetPhase(c, Guess(g));
        if rqs[g].lock.Some? { return Waiting; }
        var done := TtwuRemote(c);
        return if done then Woken else Waiting;
      }
      r := WakeBlocked(c, dest, list);
    }

    /**
     * try_to_wake_up() on the task p, up to its end or to where it has to wait for another CPU.  `dest` is what
     * select_task_rq() answers, and `list` whether ttwu_queue_wakelist() is willing.  The waiting always can end,
     * and then the task is awake.
     */
    method TryToWakeUp(c: Cpu, p: Tid, mask: set<SleepBit>, dest: Cpu, list: bool) returns (r: WakeResult)
      requires Inv(Now()) && Idling(Now(), c) && IsTask(Now(), p) && IsCpu(Now(), dest)
      requires p == rqs[c].curr || tasks[p].piLock.None?
      modifies this`tasks, this`rqs
      ensures Outcome(Now(), r) == Try(old(Now()), c, p, mask, dest, list)
      ensures r.NoMatch? <==> !old(tasks)[p].state.Sleeping? || old(tasks)[p].state.bits * mask == {}
      ensures r.NoMatch? ==> Now() == old(Now())
      ensures IsCpu(old(Now()), old(tasks)[p].cpu) && OthersKept(old(Now()), Now(), p)
      ensures TryMeans(old(Now()), c, p, mask, dest, list, Outcome(Now(), r)) && Achieves(Outcome(Now(), r), c, p)
      ensures !r.NoMatch? ==> EndsAwake(Now(), p)
    {
      TryOk(Now(), c, p, mask);
      TryCompletes(Now(), c, p, mask, dest, list);
      TryAchieves(Now(), c, p, mask, dest, list);
      if p == rqs[c].curr {
        if !Matches(tasks[p].state, mask) { return NoMatch; }
        tasks := tasks[p := tasks[p].(state := Running)];
        return Woken;
      }
      var success := LockForWakeup(c, p, mask);
      if !success { return NoMatch; }
      r := WakeMatched(c, dest, list);
    }

    /** start_to_count_number_of_process_switches() */
    method StartToCount(c: Cpu)
      requires Idling(Now(), c)
      modifies this`tasks
      ensures Enabled(old(Now()), StartCount(c)) && Now() == Apply(old(Now()), StartCount(c))
      ensures tasks == old(tasks)[rqs[c].curr := old(tasks)[rqs[c].curr].(switches := 0)]
    {
      var current := rqs[c].curr;
      tasks := tasks[current := tasks[current].(switches := 0)];
    }

    /** stop_to_count_number_of_process_switches() */
    method StopToCount(c: Cpu) returns (count: U32)
      requires Idling(Now(), c)
      ensures Enabled(Now(), StopCount(c)) && count == StopResult(Now(), c)
      ensures forall s, c0, es :: Window(s, c0, es, Now(), c, Curr(Now(), c)) ==>
        IsSwitchCount(count, s, es, Now(), Curr(Now(), c))
    {
      var current := rqs[c].curr;
      count := tasks[current].switches;
      StopCountsWindows(Now(), c);
    }
  }

  /** p can be picked by __schedule() on CPU c. */
  predicate RunnableOn(s: State, c: Cpu, p: Tid) {
    && IsCpu(s, c) && IsTask(s, p) && p in s.rqs[c].queue
    && s.tasks[p].state == Running && s.tasks[p].onRq == Queued && s.tasks[p].cpu == c
  }

  lemma DrainKeeps(s: State, c: Cpu)
    requires CanDrain(s, c)
    ensures var s' := DoDrain(s, c);
      RunnableOn(s', c, s.rqs[c].wakelist[0]) && forall q :: RunnableOn(s, c, q) ==> RunnableOn(s', c, q)
  {
  }

  function Drains(c: Cpu, n: nat): seq<Event> { seq(n, i => Drain(c)) }

  /** The first k entries of the wakelist of c have been drained, and are runnable there. */
  ghost predicate DrainedTo(s0: State, s: State, c: Cpu, k: nat) {
    && IsCpu(s0, c) && Inv(s) && Idling(s, c) && LockFree(s, c) && |s.rqs| == |s0.rqs|
    && k <= |s0.rqs[c].wakelist| && s.rqs[c].wakelist == s0.rqs[c].wakelist[k..]
    && (forall i :: 0 <= i < k ==> RunnableOn(s, c, s0.rqs[c].wakelist[i]))
    && ValidRun(s0, Drains(c, k)) && s == Final(s0, Drains(c, k))
  }

  /** One more: neither warning is due. */
  lemma DrainRound(s0: State, s: State, c: Cpu, k: nat)
    requires DrainedTo(s0, s, c, k) && |s.rqs[c].wakelist| > 0
    ensures CanDrain(s, c) && var t := s.tasks[s.rqs[c].wakelist[0]]; !t.onCpu && t.cpu == c
    ensures DrainedTo(s0, DoDrain(s, c), c, k + 1)
  {
    DrainReady(s, c);
    DrainKeeps(s, c);
    DrainInv(s, c);
    DrainRun(s0, s, c, k);
  }

  lemma DrainReady(s: State, c: Cpu)
    requires Inv(s) && Idling(s, c) && LockFree(s, c) && |s.rqs[c].wakelist| > 0
    ensures CanDrain(s, c) && var t := s.tasks[s.rqs[c].wakelist[0]]; !t.onCpu && t.cpu == c
  {
    assert CpuOk(s.rqs[c], |s.rqs|, |s.tasks|);
    assert Known(s, s.rqs[c].wakelist[0], c) && Known(s, s.rqs[c].curr, c);
  }

  lemma DrainRun(s0: State, s: State, c: Cpu, k: nat)
    requires CanDrain(s, c) && ValidRun(s0, Drains(c, k)) && s == Final(s0, Drains(c, k))
    ensures ValidRun(s0, Drains(c, k + 1)) && Final(s0, Drains(c, k + 1)) == DoDrain(s, c)
  {
    RunAppend(s0, Drains(c, k), Drain(c));
    assert Drains(c, k + 1) == Drains(c, k) + [Drain(c)];
  }

  lemma {:induction false} RunAppend(s: State, es: seq<Event>, e: Event)
    requires ValidRun(s, es) && Enabled(Final(s, es), e)
    ensures ValidRun(s, es + [e]) && Final(s, es + [e]) == Apply(Final(s, es), e)
    decreases |es|
  {
    if |es| > 0 {
      RunAppend(Apply(s, es[0]), es[1..], e);
      assert (es + [e])[1..] == es[1..] + [e];
    }
  }
}
