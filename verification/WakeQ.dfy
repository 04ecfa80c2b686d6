/** Wake queues: lists threaded through the tasks themselves, against plain sequences of tasks. */
module WakeQ {
  import opened Wrappers

  type Tid = nat

  /** wake_q_node::next: NULL, WAKE_Q_TAIL, or the node of a task. */
  datatype Next = Nil | Tail | To(t: Tid)

  /**
   * wake_q_head: `last` is the task whose node holds *lastp, or none for the head itself; `node` is the position of a
   * wake_up_q() on this head, if one has begun.
   */
  datatype Head = Head(first: Next, last: Option<Tid>, node: Option<Next>)

  /** Every task's node and reference count, and the heads of all contexts. */
  datatype State = State(next: seq<Next>, refs: seq<int>, heads: seq<Head>)

  datatype Event =
    | Init(h: nat)                // wake_q_init() on a head that is not in use
    | Add(h: nat, t: Tid)         // wake_q_add()
    | AddSafe(h: nat, t: Tid)     // wake_q_add_safe()
    | BeginWake(h: nat)           // wake_up_q() starts
    | WakeNext(h: nat)            // one round of its loop
    | Get(t: Tid)                 // someone takes a reference
    | Put(t: Tid)                 // and drops it

  predicate Fits(s: State, h: nat, t: Tid) { h < |s.heads| && t < |s.next| == |s.refs| }

  // ---------------------------------------------------------------- the linked form

  predicate CanLink(s: State, h: nat, t: Tid) {
    Fits(s, h, t) && (s.heads[h].last.Some? ==> s.heads[h].last.value < |s.next|)
  }

  /** __wake_q_add() on a task in no list. */
  function Link(s: State, h: nat, t: Tid): State
    requires CanLink(s, h, t)
  {
    var d := s.heads[h];
    var next := s.next[t := Tail];
    if d.last.None? then s.(next := next, heads := s.heads[h := d.(first := To(t), last := Some(t))])
    else s.(next := next[d.last.value := To(t)], heads := s.heads[h := d.(last := Some(t))])
  }

  function AddRef(s: State, t: Tid, k: int): State
    requires t < |s.refs|
  { s.(refs := s.refs[t := s.refs[t] + k]) }

  predicate CanWake(s: State, h: nat) {
    && h < |s.heads| && s.heads[h].node.Some? && s.heads[h].node.value.To?
    && s.heads[h].node.value.t < |s.next| == |s.refs|
  }

  /** One round: step to the next node, unlink this one, wake the task and drop the list's reference. */
  function WakeOne(s: State, h: nat): State
    requires CanWake(s, h)
  {
    var t := s.heads[h].node.value.t;
    AddRef(State(s.next[t := Nil], s.refs, s.heads[h := s.heads[h].(node := Some(s.next[t]))]), t, -1)
  }

  predicate CanStep(s: State, e: Event) {
    match e
    case Init(h) => h < |s.heads|
    case Add(h, t) => CanLink(s, h, t) && s.heads[h].node.None?
    case AddSafe(h, t) => CanLink(s, h, t) && s.heads[h].node.None?
    case BeginWake(h) => h < |s.heads| && s.heads[h].node.None?
    case WakeNext(h) => CanWake(s, h)
    case Get(t) => t < |s.refs|
    case Put(t) => t < |s.refs|
  }

  function Step(s: State, e: Event): State
    requires CanStep(s, e)
  {
    match e
    case Init(h) => s.(heads := s.heads[h := Head(Tail, None, None)])
    case Add(h, t) => if s.next[t].Nil? then AddRef(Link(s, h, t), t, 1) else s
    case AddSafe(h, t) => if s.next[t].Nil? then Link(s, h, t) else AddRef(s, t, -1)
    case BeginWake(h) => s.(heads := s.heads[h := s.heads[h].(node := Some(s.heads[h].first))])
    case WakeNext(h) => WakeOne(s, h)
    case Get(t) => AddRef(s, t, 1)
    case Put(t) => AddRef(s, t, -1)
  }

  // ---------------------------------------------------------------- the simple form

  /** A queue, and all tasks added to it and woken from it since it was last initialised. */
  datatype Queue = Queue(tasks: seq<Tid>, added: seq<Tid>, woken: seq<Tid>, draining: bool)

  /** The queues; for each task the one it is on, and the references held outside the queues. */
  datatype Model = Model(queues: seq<Queue>, owner: seq<Option<nat>>, held: seq<int>)

  predicate MFits(m: Model, h: nat, t: Tid) { h < |m.queues| && t < |m.owner| == |m.held| }

  /** Who may do what: a task is queued by someone who keeps it alive, a reference is dropped by its holder. */
  predicate MCan(m: Model, e: Event) {
    match e
    case Init(h) => h < |m.queues| && m.queues[h].draining && m.queues[h].tasks == []
    case Add(h, t) => MFits(m, h, t) && !m.queues[h].draining && (m.held[t] > 0 || m.owner[t].Some?)
    case AddSafe(h, t) => MFits(m, h, t) && !m.queues[h].draining && m.held[t] > 0
    case BeginWake(h) => h < |m.queues| && !m.queues[h].draining
    case WakeNext(h) =>
      && h < |m.queues| && m.queues[h].draining && m.queues[h].tasks != []
      && m.queues[h].tasks[0] < |m.owner|
    case Get(t) => t < |m.held| == |m.owner| && (m.held[t] > 0 || m.owner[t].Some?)
    case Put(t) => t < |m.held| && m.held[t] > 0
  }

  function Enqueue(m: Model, h: nat, t: Tid): Model
    requires MFits(m, h, t)
  {
    var q := m.queues[h];
    m.(queues := m.queues[h := q.(tasks := q.tasks + [t], added := q.added + [t])], owner := m.owner[t := Some(h)])
  }

  /** The queue that follows when the first task of q is woken. */
  function Woken(q: Queue): Queue
    requires q.tasks != []
  { q.(tasks := q.tasks[1..], woken := q.woken + [q.tasks[0]]) }

  /** The first task of queue h leaves it and is woken. */
  function Dequeue(m: Model, h: nat): Model
    requires h < |m.queues| && m.queues[h].tasks != [] && m.queues[h].tasks[0] < |m.owner|
  {
    var q := m.queues[h];
    m.(queues := m.queues[h := Woken(q)],
       owner := m.owner[q.tasks[0] := None])
  }

  function Hold(m: Model, t: Tid, k: int): Model
    requires t < |m.held|
  { m.(held := m.held[t := m.held[t] + k]) }

  function MStep(m: Model, e: Event): Model
    requires MCan(m, e)
  {
    match e
    case Init(h) => m.(queues := m.queues[h := Queue([], [], [], false)])
    case Add(h, t) => if m.owner[t].None? then Enqueue(m, h, t) else m
    case AddSafe(h, t) => Hold(if m.owner[t].None? then Enqueue(m, h, t) else m, t, -1)
    case BeginWake(h) => m.(queues := m.queues[h := m.queues[h].(draining := true)])
    case WakeNext(h) => Dequeue(m, h)
    case Get(t) => Hold(m, t, 1)
    case Put(t) => Hold(m, t, -1)
  }

  // ---------------------------------------------------------------- what ties them

  /** What the i-th node of a list points to. */
  function LinkOf(q: seq<Tid>, i: nat): Next { if i + 1 < |q| then To(q[i + 1]) else Tail }

  /** The nodes of q are linked in order, from `start` to the tail. */
  predicate Linked(next: seq<Next>, start: Next, q: seq<Tid>) {
    && start == (if q == [] then Tail else To(q[0]))
    && forall i :: 0 <= i < |q| ==> q[i] < |next| && next[q[i]] == LinkOf(q, i)
  }

  predicate HeadOk(next: seq<Next>, d: Head, q: Queue) {
    && q.added == q.woken + q.tasks && q.draining == d.node.Some?
    && if q.draining then Linked(next, d.node.value, q.tasks)
       else Linked(next, d.first, q.tasks) && d.last == if q.tasks == [] then None else Some(q.tasks[|q.tasks| - 1])
  }

  /** Queue h holds its own tasks, once each. */
  predicate QueueOk(owner: seq<Option<nat>>, q: seq<Tid>, h: nat) {
    && (forall i :: 0 <= i < |q| ==> q[i] < |owner| && owner[q[i]] == Some(h))
    && (forall i, j :: 0 <= i < j < |q| ==> q[i] != q[j])
  }

  predicate TaskOk(s: State, m: Model, t: Tid)
    requires t < |s.next| == |s.refs| == |m.owner| == |m.held|
  {
    && (s.next[t].Nil? <==> m.owner[t].None?)
    && (m.owner[t].Some? ==> m.owner[t].value < |m.queues| && t in m.queues[m.owner[t].value].tasks)
    && m.held[t] >= 0 && s.refs[t] == m.held[t] + if m.owner[t].Some? then 1 else 0
  }

  predicate Rel(s: State, m: Model) {
    && |s.next| == |s.refs| == |m.owner| == |m.held| && |s.heads| == |m.queues|
    && (forall h :: 0 <= h < |s.heads| ==>
      HeadOk(s.next, s.heads[h], m.queues[h]) && QueueOk(m.owner, m.queues[h].tasks, h))
    && (forall t :: 0 <= t < |s.next| ==> TaskOk(s, m, t))
  }

  /** Lists whose nodes keep their links stay as they are. */
  lemma LinkedFramed(next: seq<Next>, next': seq<Next>, d: Head, q: Queue)
    requires HeadOk(next, d, q) && |next'| == |next|
    requires forall i :: 0 <= i < |q.tasks| ==> q.tasks[i] < |next| && next'[q.tasks[i]] == next[q.tasks[i]]
    ensures HeadOk(next', d, q)
  {
  }

  /** Storing at *lastp appends to the list of its head, */
  lemma LinkHead(s: State, h: nat, t: Tid, q: Queue)
    requires CanLink(s, h, t) && HeadOk(s.next, s.heads[h], q) && !q.draining && t !in q.tasks
    requires forall i, j :: 0 <= i < j < |q.tasks| ==> q.tasks[i] != q.tasks[j]
    ensures HeadOk(Link(s, h, t).next, Link(s, h, t).heads[h], q.(tasks := q.tasks + [t], added := q.added + [t]))
  {
  }

  /** and touches no other list. */
  lemma LinkOther(s: State, m: Model, h: nat, t: Tid, k: nat)
    requires Rel(s, m) && CanLink(s, h, t) && s.next[t].Nil? && !m.queues[h].draining && k < |s.heads| && k != h
    ensures HeadOk(Link(s, h, t).next, Link(s, h, t).heads[k], m.queues[k])
  {
    assert TaskOk(s, m, t);
    assert HeadOk(s.next, s.heads[k], m.queues[k]) && QueueOk(m.owner, m.queues[k].tasks, k);
    assert HeadOk(s.next, s.heads[h], m.queues[h]) && QueueOk(m.owner, m.queues[h].tasks, h);
    LinkedFramed(s.next, Link(s, h, t).next, s.heads[k], m.queues[k]);
  }

  lemma LinkTask(s: State, m: Model, h: nat, t: Tid, u: Tid)
    requires Rel(s, m) && CanLink(s, h, t) && s.next[t].Nil? && !m.queues[h].draining && u < |s.next|
    ensures TaskOk(AddRef(Link(s, h, t), t, 1), Enqueue(m, h, t), u)
  {
    var m' := Enqueue(m, h, t);
    assert TaskOk(s, m, u) && TaskOk(s, m, t);
    assert HeadOk(s.next, s.heads[h], m.queues[h]) && QueueOk(m.owner, m.queues[h].tasks, h);
    if u == t { assert m'.queues[h].tasks[|m.queues[h].tasks|] == t; }
    if s.heads[h].last == Some(u) { assert m.queues[h].tasks[|m.queues[h].tasks| - 1] == u; }
  }

  lemma LinkRel(s: State, m: Model, h: nat, t: Tid)
    requires Rel(s, m) && Fits(s, h, t) && s.next[t].Nil? && s.heads[h].node.None?
    ensures CanLink(s, h, t) && MFits(m, h, t)
    ensures Rel(AddRef(Link(s, h, t), t, 1), Enqueue(m, h, t))
  {
    assert TaskOk(s, m, t) && HeadOk(s.next, s.heads[h], m.queues[h]) && QueueOk(m.owner, m.queues[h].tasks, h);
    var s', m' := AddRef(Link(s, h, t), t, 1), Enqueue(m, h, t);
    LinkHead(s, h, t, m.queues[h]);
    forall k | 0 <= k < |s.heads|
      ensures HeadOk(s'.next, s'.heads[k], m'.queues[k]) && QueueOk(m'.owner, m'.queues[k].tasks, k)
    {
      assert QueueOk(m.owner, m.queues[k].tasks, k);
      if k != h { LinkOther(s, m, h, t, k); }
    }
    forall u | 0 <= u < |s'.next| ensures TaskOk(s', m', u) { LinkTask(s, m, h, t, u); }
  }

  /** Unlinking the first node leaves the rest. */
  lemma Unlink(next: seq<Next>, q: seq<Tid>)
    requires q != [] && Linked(next, To(q[0]), q) && forall i, j :: 0 <= i < j < |q| ==> q[i] != q[j]
    ensures Linked(next[q[0] := Nil], next[q[0]], q[1..])
  {
    assert next[q[0]] == LinkOf(q, 0);
    forall i | 0 <= i < |q| - 1 ensures LinkOf(q[1..], i) == LinkOf(q, i + 1) && next[q[1..][i]] == LinkOf(q, i + 1) {
      assert q[1..][i] == q[i + 1];
    }
  }

  lemma MoveFirst<T>(a: seq<T>, b: seq<T>)
    requires b != []
    ensures a + b == a + [b[0]] + b[1..]
  {
  }

  /** One round of wake_up_q() takes the first task off its own list, */
  lemma WakeOwn(next: seq<Next>, d: Head, q: Queue)
    requires HeadOk(next, d, q) && q.draining && q.tasks != []
    requires forall i, j :: 0 <= i < j < |q.tasks| ==> q.tasks[i] != q.tasks[j]
    ensures HeadOk(next[q.tasks[0] := Nil], d.(node := Some(next[q.tasks[0]])), Woken(q))
  {
    Unlink(next, q.tasks);
    MoveFirst(q.woken, q.tasks);
  }

  lemma WakeTail(owner: seq<Option<nat>>, q: seq<Tid>, h: nat)
    requires QueueOk(owner, q, h) && q != []
    ensures QueueOk(owner[q[0] := None], q[1..], h)
  {
  }

  /** and no other list loses one. */
  lemma WakeOther(next: seq<Next>, d: Head, q: Queue, owner: seq<Option<nat>>, k: nat, t: Tid)
    requires HeadOk(next, d, q) && QueueOk(owner, q.tasks, k)
    requires t < |owner| == |next| && owner[t].Some? && owner[t].value != k
    ensures HeadOk(next[t := Nil], d, q) && QueueOk(owner[t := None], q.tasks, k)
  {
    LinkedFramed(next, next[t := Nil], d, q);
  }

  lemma InTail(q: seq<Tid>, u: Tid)
    requires u in q && u != q[0]
    ensures u in q[1..]
  {
    var i :| 0 <= i < |q| && q[i] == u;
    assert q[1..][i - 1] == u;
  }

  lemma WakeTask(s: State, m: Model, h: nat, u: Tid)
    requires Rel(s, m) && MCan(m, WakeNext(h)) && CanWake(s, h) && u < |s.next|
    requires s.heads[h].node == Some(To(m.queues[h].tasks[0]))
    ensures TaskOk(WakeOne(s, h), Dequeue(m, h), u)
  {
    var q := m.queues[h];
    assert TaskOk(s, m, u) && TaskOk(s, m, q.tasks[0]) && QueueOk(m.owner, q.tasks, h);
    if u != q.tasks[0] && m.owner[u] == Some(h) { InTail(q.tasks, u); }
  }

  /** and unlinks it. */
  lemma WakeRel(s: State, m: Model, h: nat)
    requires Rel(s, m) && MCan(m, WakeNext(h))
    ensures CanWake(s, h) && s.heads[h].node == Some(To(m.queues[h].tasks[0]))
    ensures Rel(WakeOne(s, h), Dequeue(m, h))
  {
    assert HeadOk(s.next, s.heads[h], m.queues[h]) && QueueOk(m.owner, m.queues[h].tasks, h);
    var s', m' := WakeOne(s, h), Dequeue(m, h);
    WakeOwn(s.next, s.heads[h], m.queues[h]);
    WakeTail(m.owner, m.queues[h].tasks, h);
    forall k | 0 <= k < |s.heads|
      ensures HeadOk(s'.next, s'.heads[k], m'.queues[k]) && QueueOk(m'.owner, m'.queues[k].tasks, k)
    {
      if k != h {
        assert HeadOk(s.next, s.heads[k], m.queues[k]) && QueueOk(m.owner, m.queues[k].tasks, k);
        WakeOther(s.next, s.heads[k], m.queues[k], m.owner, k, m.queues[h].tasks[0]);
      }
    }
    forall u | 0 <= u < |s'.next| ensures TaskOk(s', m', u) { WakeTask(s, m, h, u); }
  }

  /** Only reference counts change. */
  lemma RefRel(s: State, m: Model, t: Tid, k: int)
    requires Rel(s, m) && t < |s.refs| && m.held[t] + k >= 0
    ensures Rel(AddRef(s, t, k), Hold(m, t, k))
  {
    forall u | 0 <= u < |s.next| ensures TaskOk(AddRef(s, t, k), Hold(m, t, k), u) { assert TaskOk(s, m, u); }
  }

  /** Every event keeps the linked lists and the queues in step. */
  lemma StepRel(s: State, m: Model, e: Event)
    requires Rel(s, m) && MCan(m, e)
    ensures CanStep(s, e) && Rel(Step(s, e), MStep(m, e))
  {
    match e
    case Init(h) => HeadRel(s, m, h, Head(Tail, None, None), Queue([], [], [], false));
    case Add(h, t) => AddRel(s, m, h, t);
    case AddSafe(h, t) =>
      AddRel(s, m, h, t);
      if s.next[t].Nil? {
        RefRel(Step(s, Add(h, t)), MStep(m, Add(h, t)), t, -1);
        assert AddRef(AddRef(Link(s, h, t), t, 1), t, -1) == Link(s, h, t);
      } else {
        RefRel(s, m, t, -1);
      }
    case BeginWake(h) =>
      assert HeadOk(s.next, s.heads[h], m.queues[h]);
      HeadRel(s, m, h, s.heads[h].(node := Some(s.heads[h].first)), m.queues[h].(draining := true));
    case WakeNext(h) => WakeRel(s, m, h);
    case Get(t) =>
      assert TaskOk(s, m, t);
      RefRel(s, m, t, 1);
    case Put(t) => RefRel(s, m, t, -1);
  }

  lemma AddRel(s: State, m: Model, h: nat, t: Tid)
    requires Rel(s, m) && MFits(m, h, t) && !m.queues[h].draining
    ensures CanStep(s, Add(h, t)) && (s.next[t].Nil? <==> m.owner[t].None?)
    ensures Rel(Step(s, Add(h, t)), if m.owner[t].None? then Enqueue(m, h, t) else m)
  {
    assert TaskOk(s, m, t) && HeadOk(s.next, s.heads[h], m.queues[h]) && QueueOk(m.owner, m.queues[h].tasks, h);
    if s.next[t].Nil? { LinkRel(s, m, h, t); }
  }

  /** A head changes, its tasks do not. */
  lemma HeadRel(s: State, m: Model, h: nat, d: Head, q: Queue)
    requires Rel(s, m) && h < |s.heads| && HeadOk(s.next, d, q) && q.tasks == m.queues[h].tasks
    ensures Rel(s.(heads := s.heads[h := d]), m.(queues := m.queues[h := q]))
  {
    var s', m' := s.(heads := s.heads[h := d]), m.(queues := m.queues[h := q]);
    forall k | 0 <= k < |s.heads|
      ensures HeadOk(s'.next, s'.heads[k], m'.queues[k]) && QueueOk(m'.owner, m'.queues[k].tasks, k)
    {
      assert HeadOk(s.next, s.heads[k], m.queues[k]) && QueueOk(m.owner, m.queues[k].tasks, k);
    }
    forall u | 0 <= u < |s.next| ensures TaskOk(s', m', u) { assert TaskOk(s, m, u); }
  }

  // ---------------------------------------------------------------- runs of all contexts together

  /** n tasks with these references held, in no list, and k initialised heads. */
  function StartState(held: seq<int>, k: nat): State {
    State(seq(|held|, i => Nil), held, seq(k, i => Head(Tail, None, None)))
  }

  function StartModel(held: seq<int>, k: nat): Model {
    Model(seq(k, i => Queue([], [], [], false)), seq(|held|, i => None), held)
  }

  lemma StartRel(held: seq<int>, k: nat)
    requires forall t :: 0 <= t < |held| ==> held[t] >= 0
    ensures Rel(StartState(held, k), StartModel(held, k))
  {
  }

  predicate ValidRun(m: Model, es: seq<Event>)
    decreases |es|
  { |es| == 0 || (MCan(m, es[0]) && ValidRun(MStep(m, es[0]), es[1..])) }

  /** What is observed at one head since its last initialisation: the tasks added, and those woken. */
  datatype Log = Log(added: seq<Tid>, woken: seq<Tid>)

  function Observe(s: State, e: Event, h: nat, l: Log): Log
    requires CanStep(s, e)
  {
    match e
    case Init(k) => if k == h then Log([], []) else l
    case Add(k, t) => if k == h && s.next[t].Nil? then l.(added := l.added + [t]) else l
    case AddSafe(k, t) => if k == h && s.next[t].Nil? then l.(added := l.added + [t]) else l
    case WakeNext(k) => if k == h then l.(woken := l.woken + [s.heads[k].node.value.t]) else l
    case _ => l
  }

  /** The state and the log of head h after a run. */
  ghost function After(s: State, m: Model, es: seq<Event>, h: nat, l: Log): (State, Log)
    requires Rel(s, m) && ValidRun(m, es)
    decreases |es|
  {
    if |es| == 0 then (s, l)
    else
      StepRel(s, m, es[0]);
      After(Step(s, es[0]), MStep(m, es[0]), es[1..], h, Observe(s, es[0], h, l))
  }

  /** What was added is what was woken, in the same order, and then what is still on the list. */
  ghost predicate FirstInFirstOut(s: State, h: nat, l: Log)
    requires h < |s.heads|
  {
    var start := if s.heads[h].node.Some? then s.heads[h].node.value else s.heads[h].first;
    exists q: seq<Tid> :: Linked(s.next, start, q) && l.added == l.woken + q && (start == Tail ==> l.woken == l.added)
  }

  lemma ObserveRel(s: State, m: Model, e: Event, h: nat, l: Log)
    requires Rel(s, m) && MCan(m, e) && h < |m.queues|
    requires l == Log(m.queues[h].added, m.queues[h].woken)
    ensures CanStep(s, e)
    ensures Observe(s, e, h, l) == Log(MStep(m, e).queues[h].added, MStep(m, e).queues[h].woken)
  {
    StepRel(s, m, e);
    match e
    case Add(k, t) => assert TaskOk(s, m, t);
    case AddSafe(k, t) => assert TaskOk(s, m, t);
    case WakeNext(k) => WakeRel(s, m, k);
    case _ =>
  }

  lemma {:induction false} RunRel(s: State, m: Model, es: seq<Event>, h: nat, l: Log) returns (m': Model)
    requires Rel(s, m) && ValidRun(m, es) && h < |m.queues| && l == Log(m.queues[h].added, m.queues[h].woken)
    ensures var r := After(s, m, es, h, l);
      Rel(r.0, m') && h < |m'.queues| && r.1 == Log(m'.queues[h].added, m'.queues[h].woken)
    decreases |es|
  {
    if |es| == 0 {
      m' := m;
    } else {
      StepRel(s, m, es[0]);
      ObserveRel(s, m, es[0], h, l);
      m' := RunRel(Step(s, es[0]), MStep(m, es[0]), es[1..], h, Observe(s, es[0], h, l));
    }
  }

  /** The state after a run from the start, and what was observed at head h. */
  ghost function Outcome(held: seq<int>, k: nat, es: seq<Event>, h: nat): (State, Log)
    requires (forall t :: 0 <= t < |held| ==> held[t] >= 0) && ValidRun(StartModel(held, k), es)
  {
    StartRel(held, k);
    After(StartState(held, k), StartModel(held, k), es, h, Log([], []))
  }

  /**
   * In every interleaving of any number of contexts, each wake_up_q() wakes the tasks added to its head in the order
   * in which they were added, each as often as it was added, and when its loop ends it has woken all of them.
   */
  lemma WokenInOrder(held: seq<int>, k: nat, es: seq<Event>, h: nat)
    requires (forall t :: 0 <= t < |held| ==> held[t] >= 0) && h < k
    requires ValidRun(StartModel(held, k), es)
    ensures h < |Outcome(held, k, es, h).0.heads|
      && FirstInFirstOut(Outcome(held, k, es, h).0, h, Outcome(held, k, es, h).1)
  {
    StartRel(held, k);
    var m := RunRel(StartState(held, k), StartModel(held, k), es, h, Log([], []));
    var r := Outcome(held, k, es, h);
    assert HeadOk(r.0.next, r.0.heads[h], m.queues[h]);
  }

  /**
   * A node is linked exactly while its task is on one list, once; the references are those held plus one for the
   * list.
   */
  lemma LinkedMeansQueued(s: State, m: Model, t: Tid, h: nat, k: nat)
    requires Rel(s, m) && t < |s.next| && h < |s.heads| && k < |s.heads|
    ensures !s.next[t].Nil? <==> exists i :: 0 <= i < |m.queues| && t in m.queues[i].tasks
    ensures t in m.queues[h].tasks && t in m.queues[k].tasks ==> h == k
    ensures t in m.queues[h].tasks ==> multiset(m.queues[h].tasks)[t] == 1
    ensures s.refs[t] == m.held[t] + (if s.next[t].Nil? then 0 else 1) >= 0
  {
    assert TaskOk(s, m, t);
    forall i | 0 <= i < |m.queues| && t in m.queues[i].tasks ensures m.owner[t] == Some(i) {
      assert QueueOk(m.owner, m.queues[i].tasks, i);
    }
    if t in m.queues[h].tasks {
      assert QueueOk(m.owner, m.queues[h].tasks, h);
      OnceInDistinct(m.queues[h].tasks, t);
    }
  }

  // ---------------------------------------------------------------- the operations in place

  class WakeQueues {
    var next: seq<Next>
    var refs: seq<int>
    var heads: seq<Head>

    function Now(): State
      reads this
    { State(next, refs, heads) }

    constructor (held: seq<int>, k: nat)
      ensures Now() == StartState(held, k)
    {
      next, refs, heads := seq(|held|, i => Nil), held, seq(k, i => Head(Tail, None, None));
    }

    /** __wake_q_add() */
    method TryAdd(h: nat, t: Tid) returns (added: bool)
      requires CanLink(Now(), h, t)
      modifies this`next, this`heads
      ensures added <==> old(next)[t].Nil?
      ensures Now() == if added then Link(old(Now()), h, t) else old(Now())
    {
      if !next[t].Nil? { return false; }
      next := next[t := Tail];
      match heads[h].last {
        case None => heads := heads[h := heads[h].(first := To(t))];
        case Some(l) => next := next[l := To(t)];
      }
      heads := heads[h := heads[h].(last := Some(t))];
      added := true;
    }

    method WakeQAdd(h: nat, t: Tid)
      requires CanStep(Now(), Add(h, t))
      modifies this
      ensures Now() == Step(old(Now()), Add(h, t))
    {
      var added := TryAdd(h, t);
      if added { refs := refs[t := refs[t] + 1]; }
    }

    method WakeQAddSafe(h: nat, t: Tid)
      requires CanStep(Now(), AddSafe(h, t))
      modifies this
      ensures Now() == Step(old(Now()), AddSafe(h, t))
    {
      var added := TryAdd(h, t);
      if !added { refs := refs[t := refs[t] - 1]; }
    }

    /** One round of the loop in wake_up_q(). */
    method WakeRound(h: nat) returns (task: Tid)
      requires CanWake(Now(), h)
      modifies this
      ensures Now() == WakeOne(old(Now()), h) && old(heads)[h].node == Some(To(task))
    {
      task := heads[h].node.value.t;
      heads := heads[h := heads[h].(node := Some(next[task]))];
      next := next[task := Nil];
      refs := refs[task := refs[task] - 1];
    }

    /**
     * wake_up_q(), left alone: it ends, having woken the queue in order; m' is what the queues then are, so every
     * node of the queue is unlinked again and the list's references are gone.
     */
    method WakeUpQ(h: nat, ghost m: Model) returns (woken: seq<Tid>, ghost m': Model)
      requires Rel(Now(), m) && MCan(m, BeginWake(h))
      modifies this
      ensures woken == m.queues[h].tasks && Rel(Now(), m') && m'.held == m.held
      ensures m'.queues == m.queues[h := Queue([], m.queues[h].added, m.queues[h].woken + woken, true)]
    {
      StartDrain(Now(), m, h);
      heads := heads[h := heads[h].(node := Some(heads[h].first))];
      woken, m' := [], MStep(m, BeginWake(h));
      while heads[h].node != Some(Tail)
        invariant h < |heads| && Draining(Now(), m', m, h, woken)
        decreases |m'.queues[h].tasks|
      {
        DrainRound(Now(), m', m, h, woken);
        var task := WakeRound(h);
        woken, m' := woken + [task], Dequeue(m', h);
      }
      EndDrain(Now(), m', m, h, woken);
    }
  }

  /** Inside wake_up_q(): `woken` have left queue h of m, and d is what the queues are now. */
  predicate Draining(s: State, d: Model, m: Model, h: nat, woken: seq<Tid>) {
    Rel(s, d) && h < |s.heads| && Drained(d, m, h, woken)
  }

  predicate Drained(d: Model, m: Model, h: nat, woken: seq<Tid>) {
    && h < |d.queues| == |m.queues| && d.held == m.held
    && d.queues == m.queues[h := Queue(d.queues[h].tasks, m.queues[h].added, m.queues[h].woken + woken, true)]
    && woken + d.queues[h].tasks == m.queues[h].tasks
  }

  lemma DrainedNext(d: Model, m: Model, h: nat, woken: seq<Tid>)
    requires Drained(d, m, h, woken) && d.queues[h].tasks != [] && d.queues[h].tasks[0] < |d.owner|
    ensures Drained(Dequeue(d, h), m, h, woken + [d.queues[h].tasks[0]])
  {
    var q, t := d.queues[h], d.queues[h].tasks[0];
    assert (m.queues[h].woken + woken) + [t] == m.queues[h].woken + (woken + [t]);
    assert woken + q.tasks == (woken + [t]) + q.tasks[1..];
  }

  lemma StartDrain(s: State, m: Model, h: nat)
    requires Rel(s, m) && MCan(m, BeginWake(h))
    ensures h < |s.heads| && Draining(Step(s, BeginWake(h)), MStep(m, BeginWake(h)), m, h, [])
  {
    StepRel(s, m, BeginWake(h));
    assert m.queues[h].woken + [] == m.queues[h].woken;
  }

  lemma DrainRound(s: State, d: Model, m: Model, h: nat, woken: seq<Tid>)
    requires Draining(s, d, m, h, woken) && s.heads[h].node != Some(Tail)
    ensures CanWake(s, h) && MCan(d, WakeNext(h)) && s.heads[h].node == Some(To(d.queues[h].tasks[0]))
    ensures Draining(WakeOne(s, h), Dequeue(d, h), m, h, woken + [d.queues[h].tasks[0]])
  {
    Pending(s, d, h);
    WakeRel(s, d, h);
    DrainedNext(d, m, h, woken);
  }

  lemma EndDrain(s: State, d: Model, m: Model, h: nat, woken: seq<Tid>)
    requires Draining(s, d, m, h, woken) && s.heads[h].node == Some(Tail)
    ensures d.queues[h].tasks == [] && woken == m.queues[h].tasks
  {
    Pending(s, d, h);
  }

  lemma InRange(s: State, m: Model, h: nat)
    requires Rel(s, m) && h < |s.heads|
    ensures forall i :: 0 <= i < |m.queues[h].tasks| ==> m.queues[h].tasks[i] < |m.owner|
  {
    assert QueueOk(m.owner, m.queues[h].tasks, h);
  }

  /** The loop of wake_up_q() has reached the tail exactly when the queue is empty. */
  lemma Pending(s: State, m: Model, h: nat)
    requires Rel(s, m) && h < |s.heads| && m.queues[h].draining
    ensures s.heads[h].node.Some? && (s.heads[h].node == Some(Tail) <==> m.queues[h].tasks == [])
    ensures m.queues[h].tasks != [] ==> MCan(m, WakeNext(h))
  {
    assert HeadOk(s.next, s.heads[h], m.queues[h]);
    InRange(s, m, h);
  }
}
