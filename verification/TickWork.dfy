/** The remote tick of a CPU in full dynticks mode: a work item that requeues itself while the CPU is up. */
module TickWork {
  const OFFLINE: int := 0
  const OFFLINING: int := 1
  const RUNNING: int := 2

  /**
   * tick_work::state, and where the work item is: queued, run by a worker that has not looked at the state yet, about
   * to be queued again by a worker that has, or about to be queued by sched_tick_start().  `up` says which of start
   * and stop comes next; they alternate.
   */
  datatype State = State(state: int, queued: nat, running: nat, requeueing: nat, starting: nat, up: bool)

  datatype Event =
    | Start          // the exchange in sched_tick_start()
    | StartQueue     // and its queue_delayed_work()
    | Stop           // the exchange in sched_tick_stop()
    | Fire           // a worker takes the item and runs sched_tick_remote()
    | Look           // its atomic_fetch_add_unless()
    | Requeue        // and its queue_delayed_work()

  predicate Enabled(s: State, e: Event) {
    match e
    case Start => !s.up
    case StartQueue => s.starting > 0
    case Stop => s.up && s.starting == 0
    case Fire => s.queued > 0
    case Look => s.running > 0
    case Requeue => s.requeueing > 0
  }

  /** atomic_fetch_add_unless(&state, -1, RUNNING) */
  function FetchAddUnless(state: int): int { if state == RUNNING then state else state - 1 }

  function Step(s: State, e: Event): State
    requires Enabled(s, e)
  {
    match e
    case Start => s.(state := RUNNING, up := true,
      starting := if s.state == OFFLINE then s.starting + 1 else s.starting)
    case StartQueue => s.(starting := s.starting - 1, queued := s.queued + 1)
    case Stop => s.(state := OFFLINING, up := false)
    case Fire => s.(queued := s.queued - 1, running := s.running + 1)
    case Look => s.(state := FetchAddUnless(s.state), running := s.running - 1,
                    requeueing := if s.state == RUNNING then s.requeueing + 1 else s.requeueing)
    case Requeue => s.(requeueing := s.requeueing - 1, queued := s.queued + 1)
  }

  /** The WARN_ON_ONCE of each operation; queueing an item that is queued already would lose a tick. */
  predicate Warns(s: State, e: Event) {
    match e
    case Start => s.state == RUNNING
    case Stop => s.state != RUNNING
    case Look => s.state == OFFLINE
    case StartQueue => s.queued > 0
    case Requeue => s.queued > 0
    case Fire => false
  }

  function Items(s: State): nat { s.queued + s.running + s.requeueing + s.starting }

  predicate Inv(s: State) {
    && s.state in {OFFLINE, OFFLINING, RUNNING} && (s.up <==> s.state == RUNNING)
    && Items(s) == if s.state == OFFLINE then 0 else 1
  }

  predicate ValidRun(s: State, es: seq<Event>)
    decreases |es|
  { |es| == 0 || (Enabled(s, es[0]) && ValidRun(Step(s, es[0]), es[1..])) }

  function Final(s: State, es: seq<Event>): State
    requires ValidRun(s, es)
    decreases |es|
  { if |es| == 0 then s else Final(Step(s, es[0]), es[1..]) }

  /** After boot the CPU is offline for the remote tick. */
  const BOOT: State := State(OFFLINE, 0, 0, 0, 0, false)

  lemma {:induction false} RunInv(s: State, es: seq<Event>)
    requires Inv(s) && ValidRun(s, es)
    ensures Inv(Final(s, es))
    decreases |es|
  {
    if |es| > 0 { RunInv(Step(s, es[0]), es[1..]); }
  }

  /**
   * However starts and stops, which alternate, interleave with the workers: there is exactly one work item while the
   * state is RUNNING or OFFLINING and none while it is OFFLINE, and no warning fires.
   */
  lemma OneItem(es: seq<Event>, e: Event)
    requires ValidRun(BOOT, es) && Enabled(Final(BOOT, es), e)
    ensures var f := Final(BOOT, es);
      && Items(f) == (if f.state == OFFLINE then 0 else 1) && (f.up <==> f.state == RUNNING) && !Warns(f, e)
  {
    RunInv(BOOT, es);
  }

  class Work {
    var state: int
    ghost var rest: State          // where the work item is

    ghost function Now(): State
      reads this
    { rest.(state := state) }

    constructor ()
      ensures Now() == BOOT
    { state, rest := OFFLINE, BOOT; }

    /** atomic_xchg() */
    method Exchange(v: int) returns (os: int)
      modifies this`state
      ensures os == old(state) && state == v
    { os, state := state, v; }

    /** sched_tick_start(); `queue` tells whether it queues the item next. */
    method TickStart() returns (queue: bool, warned: bool)
      requires Enabled(Now(), Start)
      modifies this
      ensures Now() == Step(old(Now()), Start) && (warned <==> Warns(old(Now()), Start))
      ensures state == 2 && (queue <==> old(state) == 0) && (warned <==> old(state) == 2)
      ensures queue <==> Now().starting > old(Now()).starting
    {
      ghost var s := Step(Now(), Start);
      var os := Exchange(RUNNING);
      warned := os == RUNNING;
      queue := os == OFFLINE;
      rest := s;
    }

    /** sched_tick_stop() */
    method TickStop() returns (warned: bool)
      requires Enabled(Now(), Stop)
      modifies this
      ensures Now() == Step(old(Now()), Stop) && (warned <==> Warns(old(Now()), Stop))
      ensures state == 1 && (warned <==> old(state) != 2)
    {
      ghost var s := Step(Now(), Stop);
      var os := Exchange(OFFLINING);
      warned := os != RUNNING;
      rest := s;
    }

    /** The end of sched_tick_remote(). */
    method TickLook() returns (requeue: bool, warned: bool)
      requires Enabled(Now(), Look)
      modifies this
      ensures Now() == Step(old(Now()), Look) && (warned <==> Warns(old(Now()), Look))
      ensures state == (if old(state) == 2 then 2 else old(state) - 1) && (requeue <==> old(state) == 2)
      ensures (warned <==> old(state) == 0) && (requeue <==> Now().requeueing > old(Now()).requeueing)
    {
      ghost var s := Step(Now(), Look);
      var os := state;
      if state != RUNNING { state := state - 1; }
      warned := os == OFFLINE;
      requeue := os == RUNNING;
      rest := s;
    }
  }
}
