/**
 * A call of try_to_wake_up() with no other CPU acting in between: which steps of the protocol it makes, and what it
 * achieves.
 */
module SchedTtwu {
  import opened Wrappers
  import opened SchedState
  import opened SchedInvariant
  import opened SchedEffects

  /** How far a call of try_to_wake_up() gets before it has to wait for another CPU. */
  datatype WakeResult = NoMatch | Woken | Waiting

  datatype Outcome = Outcome(state: State, result: WakeResult)

  /** ttwu_queue() */
  function Queue(s: State, c: Cpu, list: bool): Outcome
    requires AtPlaced(s, c)
  {
    if list && CanTtwuQueueList(s, c) then Outcome(DoTtwuQueueList(s, c), Woken)
    else if !CanTtwuQueue(s, c) then Outcome(s, Waiting)
    else Outcome(DoTtwuQueue(s, c), Woken)
  }

  function Place(s: State, c: Cpu, dest: Cpu, list: bool): Outcome
    requires CanTtwuSpinDone(s, c) && IsCpu(s, dest)
  { Queue(DoTtwuSelect(DoTtwuSpinDone(s, c), c, dest), c, list) }

  function WakeClaimed(s: State, c: Cpu, dest: Cpu, list: bool): Outcome
    requires AtPhase(s, c, Claimed) && IsCpu(s, Target(s, c).cpu) && IsCpu(s, dest)
  {
    var s1 := DoTtwuLoadOnCpu(s, c);
    if !Target(s1, c).onCpu then Place(s1, c, dest, list)
    else if list && Target(s1, c).cpu != c then Outcome(DoTtwuListOnCpu(s1, c), Woken)
    else Outcome(DoTtwuNoList(s1, c), Waiting)
  }

  function Wake(s: State, c: Cpu, dest: Cpu, list: bool): Outcome
    requires CanTtwuClaim(s, c) && IsCpu(s, dest)
  { WakeClaimed(DoTtwuClaim(s, c), c, dest, list) }

  function RemoteTry(s: State, c: Cpu): Outcome
    requires AtPhase(s, c, Remote) && IsCpu(s, Target(s, c).cpu)
  {
    var s1 := DoTtwuReadRq(s, c);
    if !CanTtwuLocked(s1, c) then Outcome(s1, Waiting)
    else Outcome(DoTtwuLocked(s1, c), if Target(s1, c).onRq.Queued? then Woken else Waiting)
  }

  function Matched(s: State, c: Cpu, dest: Cpu, list: bool): Outcome
    requires AtPhase(s, c, Seen) && IsCpu(s, Target(s, c).cpu) && IsCpu(s, dest)
  {
    var s1 := DoTtwuLoadOnRq(s, c);
    if AtPhase(s1, c, Blocked) then Wake(s1, c, dest, list) else RemoteTry(s1, c)
  }

  predicate CanTry(s: State, c: Cpu, p: Tid, mask: set<SleepBit>) {
    Idling(s, c) && IsTask(s, p) && IsCpu(s, s.tasks[p].cpu) && (p != Curr(s, c) ==> CanTtwuBegin(s, c, p, mask, false))
  }

  function Try(s: State, c: Cpu, p: Tid, mask: set<SleepBit>, dest: Cpu, list: bool): Outcome
    requires CanTry(s, c, p, mask) && IsCpu(s, dest)
  {
    if !Matches(s.tasks[p].state, mask) then Outcome(s, NoMatch)
    else if p == Curr(s, c) then Outcome(DoWakeSelf(s, c, mask, false), Woken)
    else Matched(DoTtwuBegin(s, c, p, mask, false), c, dest, list)
  }

  lemma TryOk(s: State, c: Cpu, p: Tid, mask: set<SleepBit>)
    requires Inv(s) && Idling(s, c) && IsTask(s, p) && (p == Curr(s, c) || s.tasks[p].piLock.None?)
    ensures CanTry(s, c, p, mask)
  {
    assert TaskOk(s.tasks[p], |s.rqs|);
  }

  /** p is runnable on the runqueue of its CPU, or on that CPU's wakelist. */
  predicate Awake(s: State, p: Tid) {
    && IsTask(s, p) && IsCpu(s, s.tasks[p].cpu)
    && var t := s.tasks[p];
    (t.state.Running? && t.onRq.Queued? && p in s.rqs[t.cpu].queue) || (t.state == Waking(false)
      && p in s.rqs[t.cpu].wakelist)
  }

  // ---------------------------------------------------------------- a call is a run

  /** es leads from s to f. */
  predicate Runs(s: State, es: seq<Event>, f: State) { ValidRun(s, es) && Final(s, es) == f }

  lemma Prepend(s: State, e: Event, s': State, es: seq<Event>, f: State)
    requires Step(s, e) == Some(s') && Runs(s', es, f)
    ensures Runs(s, [e] + es, f)
  {
    assert ([e] + es)[1..] == es;
  }

  lemma PrependWake(s: State, e: Event, s': State, es: seq<Event>, f: State)
    requires WakeEvent(e) && StepWake(s, e) == Some(s') && Runs(s', es, f)
    ensures Runs(s, [e] + es, f)
  {
    Prepend(s, e, s', es, f);
  }

  lemma PrependPlace(s: State, e: Event, s': State, es: seq<Event>, f: State)
    requires PlaceEvent(e) && StepPlace(s, e) == Some(s') && Runs(s', es, f)
    ensures Runs(s, [e] + es, f)
  {
    Prepend(s, e, s', es, f);
  }

  lemma QueueRuns(s: State, c: Cpu, list: bool) returns (es: seq<Event>)
    requires AtPlaced(s, c)
    ensures Runs(s, es, Queue(s, c, list).state)
  {
    es := [];
    if list && CanTtwuQueueList(s, c) {
      PrependPlace(s, TtwuQueueList(c), DoTtwuQueueList(s, c), [], DoTtwuQueueList(s, c));
      es := [TtwuQueueList(c)] + [];
    } else if CanTtwuQueue(s, c) {
      PrependPlace(s, TtwuQueue(c), DoTtwuQueue(s, c), [], DoTtwuQueue(s, c));
      es := [TtwuQueue(c)] + [];
    }
  }

  lemma PlaceRuns(s: State, c: Cpu, dest: Cpu, list: bool) returns (es: seq<Event>)
    requires CanTtwuSpinDone(s, c) && IsCpu(s, dest)
    ensures Runs(s, es, Place(s, c, dest, list).state)
  {
    var s1, f := DoTtwuSpinDone(s, c), Place(s, c, dest, list).state;
    var s2 := DoTtwuSelect(s1, c, dest);
    var es2 := QueueRuns(s2, c, list);
    PrependPlace(s1, TtwuSelect(c, dest), s2, es2, f);
    var es1 := [TtwuSelect(c, dest)] + es2;
    PrependPlace(s, TtwuSpinDone(c), s1, es1, f);
    es := [TtwuSpinDone(c)] + es1;
  }

  lemma ClaimedRuns(s: State, c: Cpu, dest: Cpu, list: bool) returns (es: seq<Event>)
    requires AtPhase(s, c, Claimed) && IsCpu(s, Target(s, c).cpu) && IsCpu(s, dest)
    ensures Runs(s, es, WakeClaimed(s, c, dest, list).state)
  {
    var s1, f := DoTtwuLoadOnCpu(s, c), WakeClaimed(s, c, dest, list).state;
    var es1: seq<Event>;
    if !Target(s1, c).onCpu {
      es1 := PlaceRuns(s1, c, dest, list);
    } else if list && Target(s1, c).cpu != c {
      PrependPlace(s1, TtwuListOnCpu(c), f, [], f);
      es1 := [TtwuListOnCpu(c)] + [];
    } else {
      PrependPlace(s1, TtwuNoList(c), f, [], f);
      es1 := [TtwuNoList(c)] + [];
    }
    PrependPlace(s, TtwuLoadOnCpu(c), s1, es1, f);
    es := [TtwuLoadOnCpu(c)] + es1;
  }

  lemma WakeRuns(s: State, c: Cpu, dest: Cpu, list: bool) returns (es: seq<Event>)
    requires CanTtwuClaim(s, c) && IsCpu(s, dest)
    ensures Runs(s, es, Wake(s, c, dest, list).state)
  {
    var s1 := DoTtwuClaim(s, c);
    var es1 := ClaimedRuns(s1, c, dest, list);
    PrependWake(s, TtwuClaim(c), s1, es1, Wake(s, c, dest, list).state);
    es := [TtwuClaim(c)] + es1;
  }

  lemma RemoteRuns(s: State, c: Cpu) returns (es: seq<Event>)
    requires AtPhase(s, c, Remote) && IsCpu(s, Target(s, c).cpu)
    ensures Runs(s, es, RemoteTry(s, c).state)
  {
    var s1, f := DoTtwuReadRq(s, c), RemoteTry(s, c).state;
    var es1: seq<Event> := [];
    if CanTtwuLocked(s1, c) {
      PrependWake(s1, TtwuLocked(c), f, [], f);
      es1 := [TtwuLocked(c)] + [];
    }
    PrependWake(s, TtwuReadRq(c), s1, es1, f);
    es := [TtwuReadRq(c)] + es1;
  }

  lemma MatchedRuns(s: State, c: Cpu, dest: Cpu, list: bool) returns (es: seq<Event>)
    requires AtPhase(s, c, Seen) && IsCpu(s, Target(s, c).cpu) && IsCpu(s, dest)
    ensures Runs(s, es, Matched(s, c, dest, list).state)
  {
    var s1 := DoTtwuLoadOnRq(s, c);
    var es1: seq<Event>;
    if AtPhase(s1, c, Blocked) { es1 := WakeRuns(s1, c, dest, list); } else { es1 := RemoteRuns(s1, c); }
    PrependWake(s, TtwuLoadOnRq(c), s1, es1, Matched(s, c, dest, list).state);
    es := [TtwuLoadOnRq(c)] + es1;
  }

  /** A call of try_to_wake_up() is a run of the protocol, so all that holds of runs holds of it. */
  lemma TryRuns(s: State, c: Cpu, p: Tid, mask: set<SleepBit>, dest: Cpu, list: bool) returns (es: seq<Event>)
    requires CanTry(s, c, p, mask) && IsCpu(s, dest)
    ensures Runs(s, es, Try(s, c, p, mask, dest, list).state)
  {
    var f := Try(s, c, p, mask, dest, list).state;
    es := [];
    if Matches(s.tasks[p].state, mask) {
      if p == Curr(s, c) {
        PrependWake(s, WakeSelf(c, mask, false), f, [], f);
        es := [WakeSelf(c, mask, false)] + [];
      } else {
        var s1 := DoTtwuBegin(s, c, p, mask, false);
        var es1 := MatchedRuns(s1, c, dest, list);
        PrependWake(s, TtwuBegin(c, p, mask, false), s1, es1, f);
        es := [TtwuBegin(c, p, mask, false)] + es1;
      }
    }
  }

  // ---------------------------------------------------------------- what it achieves

  /** The call ends with the task woken on this CPU, or stands still in the middle of it. */
  predicate Achieves(o: Outcome, c: Cpu, p: Tid) {
    IsCpu(o.state, c) &&
    match o.result
    case NoMatch => true
    case Woken => Awake(o.state, p) && o.state.rqs[c].mode.Run?
    case Waiting => o.state.rqs[c].mode.Ttwu? && o.state.rqs[c].mode.p == p
  }

  /**
   * p has been woken onto CPU d: at the end of its wakelist, with sched_remote_wakeup telling whether it was moved, or
   * runnable in its runqueue.
   */
  predicate WokenOn(s: State, p: Tid, d: Cpu, listed: bool, moved: bool) {
    && IsTask(s, p) && IsCpu(s, d) && s.tasks[p].cpu == d && s.tasks[p].piLock.None?
    && if listed then
         && s.tasks[p].state == Waking(false) && s.tasks[p].onRq.Off? && s.tasks[p].remoteWakeup == moved
         && |s.rqs[d].wakelist| > 0 && s.rqs[d].wakelist[|s.rqs[d].wakelist| - 1] == p
       else s.tasks[p].state == Running && s.tasks[p].onRq == Queued && p in s.rqs[d].queue
  }

  /** Apart from p the call changes no task. */
  ghost predicate OthersKept(s: State, s': State, p: Tid) {
    |s'.tasks| == |s.tasks| && forall q :: 0 <= q < |s.tasks| && q != p ==> s'.tasks[q] == s.tasks[q]
  }

  /** The answer for a task off its runqueue and off every CPU, which goes to dest. */
  predicate PlacedMeans(s: State, c: Cpu, p: Tid, dest: Cpu, list: bool, o: Outcome)
    requires IsCpu(s, dest) && IsTask(s, p)
  {
    var moved := s.tasks[p].cpu != dest;
    if list && dest != c then o.result.Woken? && WokenOn(o.state, p, dest, true, moved)
    else if s.rqs[dest].lock.None? then o.result.Woken? && WokenOn(o.state, p, dest, false, moved)
    else o.result.Waiting?
  }

  /** For one off its runqueue, claimed before its CPU has finished with it or after. */
  predicate OffMeans(s: State, c: Cpu, p: Tid, dest: Cpu, list: bool, o: Outcome)
    requires IsTask(s, p) && IsCpu(s, dest)
  {
    var t := s.tasks[p];
    if !t.onCpu then PlacedMeans(s, c, p, dest, list, o)
    else if list && t.cpu != c then o.result.Woken? && WokenOn(o.state, p, t.cpu, true, false)
    else o.result.Waiting?
  }

  /** For one that is still on a runqueue: it only becomes runnable there, under that runqueue's lock. */
  predicate OnMeans(s: State, p: Tid, o: Outcome)
    requires IsTask(s, p) && IsCpu(s, s.tasks[p].cpu)
  {
    var t := s.tasks[p];
    if s.rqs[t.cpu].lock.Some? || t.onRq.Migrating? then o.result.Waiting?
    else o.result.Woken? && WokenOn(o.state, p, t.cpu, false, false)
  }

  lemma ListAchieves(s: State, c: Cpu, d: Cpu, moved: bool)
    requires InTtwu(s, c) && IsCpu(s, d) && Target(s, c).onRq.Off? && Target(s, c).cpu == d
    ensures var f, p := PushWakelist(s, c, d, moved), s.rqs[c].mode.p;
      WokenOn(f, p, d, true, moved) && OthersKept(s, f, p) && IsCpu(f, c) && f.rqs[c].mode.Run?
  {
  }

  lemma RunnableAchieves(s: State, c: Cpu)
    requires CanTtwuQueue(s, c)
    ensures var f, p, d := DoTtwuQueue(s, c), s.rqs[c].mode.p, Target(s, c).cpu;
      WokenOn(f, p, d, false, false) && OthersKept(s, f, p) && IsCpu(f, c) && f.rqs[c].mode.Run?
  {
  }

  lemma WokenIsAwake(s: State, p: Tid, d: Cpu, listed: bool, moved: bool)
    requires WokenOn(s, p, d, listed, moved)
    ensures Awake(s, p)
  {
  }

  lemma QueueAchieves(s: State, c: Cpu, list: bool)
    requires AtPlaced(s, c) && Target(s, c).onRq.Off?
    ensures var o, p, d, moved := Queue(s, c, list), s.rqs[c].mode.p, Target(s, c).cpu, s.rqs[c].mode.ph.migrated;
      && Achieves(o, c, p) && !o.result.NoMatch? && OthersKept(s, o.state, p)
      && if list && d != c then o.result.Woken? && WokenOn(o.state, p, d, true, moved)
         else if s.rqs[d].lock.None? then o.result.Woken? && WokenOn(o.state, p, d, false, moved)
         else o.result.Waiting?
  {
    var o, p, d, moved := Queue(s, c, list), s.rqs[c].mode.p, Target(s, c).cpu, s.rqs[c].mode.ph.migrated;
    if list && d != c {
      ListAchieves(s, c, d, moved);
      WokenIsAwake(o.state, p, d, true, moved);
    } else if s.rqs[d].lock.None? {
      RunnableAchieves(s, c);
      WokenIsAwake(o.state, p, d, false, moved);
    }
  }

  lemma PlaceAchieves(s: State, c: Cpu, dest: Cpu, list: bool)
    requires CanTtwuSpinDone(s, c) && IsCpu(s, dest) && Target(s, c).onRq.Off?
    ensures var o, p := Place(s, c, dest, list), s.rqs[c].mode.p;
      && Achieves(o, c, p) && !o.result.NoMatch? && OthersKept(s, o.state, p) && PlacedMeans(s, c, p, dest, list, o)
  {
    var s1 := DoTtwuSelect(DoTtwuSpinDone(s, c), c, dest);
    assert OthersKept(s, s1, s.rqs[c].mode.p) && s1.rqs[dest].lock == s.rqs[dest].lock;
    QueueAchieves(s1, c, list);
  }

  lemma WakeAchieves(s: State, c: Cpu, dest: Cpu, list: bool)
    requires CanTtwuClaim(s, c) && IsCpu(s, dest) && Target(s, c).onRq.Off?
    ensures var o, p := Wake(s, c, dest, list), s.rqs[c].mode.p;
      && Achieves(o, c, p) && !o.result.NoMatch? && OthersKept(s, o.state, p) && OffMeans(s, c, p, dest, list, o)
  {
    var s1 := DoTtwuLoadOnCpu(DoTtwuClaim(s, c), c);
    if !Target(s1, c).onCpu { PlaceAchieves(s1, c, dest, list); }
  }

  lemma RemoteAchieves(s: State, c: Cpu)
    requires AtPhase(s, c, Remote) && IsCpu(s, Target(s, c).cpu) && !Target(s, c).onRq.Off?
    requires Target(s, c).onRq.Queued? ==> s.rqs[c].mode.p in s.rqs[Target(s, c).cpu].queue
    ensures var o, p := RemoteTry(s, c), s.rqs[c].mode.p;
      && Achieves(o, c, p) && !o.result.NoMatch? && OthersKept(s, o.state, p) && OnMeans(s, p, o)
  {
  }

  lemma MatchedAchieves(s: State, c: Cpu, dest: Cpu, list: bool)
    requires AtPhase(s, c, Seen) && IsCpu(s, Target(s, c).cpu) && IsCpu(s, dest)
    requires Target(s, c).onRq.Queued? ==> s.rqs[c].mode.p in s.rqs[Target(s, c).cpu].queue
    ensures var o, p := Matched(s, c, dest, list), s.rqs[c].mode.p;
      && Achieves(o, c, p) && !o.result.NoMatch? && OthersKept(s, o.state, p)
      && if s.tasks[p].onRq.Off? then OffMeans(s, c, p, dest, list, o) else OnMeans(s, p, o)
  {
    var s1 := DoTtwuLoadOnRq(s, c);
    if AtPhase(s1, c, Blocked) { WakeAchieves(s1, c, dest, list); } else { RemoteAchieves(s1, c); }
  }

  /**
   * The whole answer of try_to_wake_up().  Nothing happens exactly when the state has no bit of the mask; the running
   * task only becomes runnable again; any other ends woken, on the CPU said above, or the call waits for another CPU.
   */
  predicate TryMeans(s: State, c: Cpu, p: Tid, mask: set<SleepBit>, dest: Cpu, list: bool, o: Outcome)
    requires IsCpu(s, c) && IsTask(s, p) && IsCpu(s, s.tasks[p].cpu) && IsCpu(s, dest)
  {
    var t := s.tasks[p];
    if !t.state.Sleeping? || t.state.bits * mask == {} then o == Outcome(s, NoMatch)
    else if p == s.rqs[c].curr then o == Outcome(s.(tasks := s.tasks[p := t.(state := Running)]), Woken)
    else !o.result.NoMatch? && if t.onRq.Off? then OffMeans(s, c, p, dest, list, o) else OnMeans(s, p, o)
  }

  lemma TryAchieves(s: State, c: Cpu, p: Tid, mask: set<SleepBit>, dest: Cpu, list: bool)
    requires Inv(s) && CanTry(s, c, p, mask) && IsCpu(s, dest)
    ensures var o := Try(s, c, p, mask, dest, list);
      Achieves(o, c, p) && OthersKept(s, o.state, p) && TryMeans(s, c, p, mask, dest, list, o)
  {
    assert CpuOk(s.rqs[c], |s.rqs|, |s.tasks|) && TaskOk(s.tasks[p], |s.rqs|);
    assert Known(s, p, c) && Known(s, p, s.tasks[p].cpu);
    MatchesMeans(s.tasks[p].state, mask);
    if Matches(s.tasks[p].state, mask) && p != Curr(s, c) {
      MatchedAchieves(DoTtwuBegin(s, c, p, mask, false), c, dest, list);
    }
  }
}
