/**
 * Enqueues, dequeues, forks, requests and updates of active tasks in any order, over any number of runqueues: the
 * reference counts of the buckets.
 */
module UclampRuns {
  import opened Wrappers
  import opened Uclamp

  datatype State = State(rqs: seq<RqClamps>, tasks: seq<TaskClamp>)

  datatype Event =
    | Enqueue(c: nat, p: Tid, enabled: bool, lim: Limits)
    | Dequeue(p: Tid, enabled: bool)
    | Fork(p: Tid, resetOnFork: bool)
    | Request(p: Tid, req: Pair<Se>)
    | Update(p: Tid, id: ClampId, lim: Limits)       // uclamp_update_active()

  predicate Active(t: TaskClamp) { t.eff.min.active }

  /** p is counted on runqueue c. */
  predicate On(s: State, p: Tid, c: nat) { p < |s.tasks| && Active(s.tasks[p]) && s.tasks[p].on == c }

  /** Only a class that uses clamps counts a task, and it dequeues what it enqueued. */
  predicate Enabled(s: State, e: Event, d: nat)
    requires d > 0
  {
    match e
    case Enqueue(c, p, _, lim) => c < |s.rqs| && p < |s.tasks| && !Active(s.tasks[p]) && LimitsSet(lim, d)
    case Dequeue(p, enabled) => p < |s.tasks| && (enabled <==> Active(s.tasks[p]))
    case Fork(p, _) => p < |s.tasks|
    case Request(p, req) => p < |s.tasks| && WasSet(req.min, d) && WasSet(req.max, d)
    case Update(p, _, lim) => p < |s.tasks| && LimitsSet(lim, d)
  }

  /** uclamp_fork() on the copy of the parent. */
  function Child(t: TaskClamp, resetOnFork: bool, d: nat): TaskClamp
    requires d > 0
  {
    var req := if !resetOnFork then t.req
      else Pair(SetSe(t.req.min, Unclamped(MIN), false, d), SetSe(t.req.max, Unclamped(MAX), false, d));
    TaskClamp(req, Pair(t.eff.min.(active := false), t.eff.max.(active := false)), t.on)
  }

  /** A child that is counted nowhere; it asks for what its parent does, or with the flag for no clamp. */
  lemma ChildMeans(t: TaskClamp, resetOnFork: bool, d: nat)
    requires d > 0
    ensures var c := Child(t, resetOnFork, d);
      && !c.eff.min.active && !c.eff.max.active
      && if resetOnFork then
           && c.req.min.value == 0 && c.req.max.value == 1024 && !c.req.min.userDefined && !c.req.max.userDefined
           && c.req.min.bucketId == 0 && c.req.max.bucketId == 1024 / d
         else c.req == t.req
  {
  }

  function EnqueueOn(s: State, c: nat, p: Tid, lim: Limits): State
    requires c < |s.rqs| && p < |s.tasks| && CanInc(Both(s.rqs[c], s.tasks[p]), lim)
  {
    var y := Inc(Both(s.rqs[c], s.tasks[p].(on := c)), lim);
    State(s.rqs[c := y.rq], s.tasks[p := y.task])
  }

  predicate CanDequeue(s: State, p: Tid) {
    p < |s.tasks| && s.tasks[p].on < |s.rqs| && CanDec(Both(s.rqs[s.tasks[p].on], s.tasks[p]))
  }

  function DequeueFrom(s: State, p: Tid): State
    requires CanDequeue(s, p)
  {
    var c := s.tasks[p].on;
    var y := Dec(Both(s.rqs[c], s.tasks[p]));
    State(s.rqs[c := y.rq], s.tasks[p := y.task])
  }

  predicate CanUpdate(s: State, p: Tid, id: ClampId, lim: Limits) {
    && p < |s.tasks| && s.tasks[p].on < |s.rqs|
    && CanDecId(Both(s.rqs[s.tasks[p].on], s.tasks[p]), id)
    && EffGet(s.tasks[p].req.Get(id), lim).bucketId < |s.rqs[s.tasks[p].on].clamp.Get(id).buckets|
  }

  /** uclamp_update_active() on a task that is counted: out of one bucket and into another. */
  function UpdateActive(s: State, p: Tid, id: ClampId, lim: Limits): State
    requires CanUpdate(s, p, id, lim)
  {
    var c := s.tasks[p].on;
    var y := IncId(DecId(Both(s.rqs[c], s.tasks[p]), id), id, lim);
    State(s.rqs[c := y.rq], s.tasks[p := y.task])
  }

  function Apply(s: State, e: Event, n: nat, d: nat): State
    requires Geometry(n, d) && Sound(s, n, d) && Enabled(s, e, d)
  {
    match e
    case Enqueue(c, p, enabled, lim) =>
      if enabled then (CanEnqueue(s, c, p, lim, n, d); EnqueueOn(s, c, p, lim)) else s
    case Dequeue(p, enabled) =>
      if enabled then (ActiveCanDequeue(s, p, n, d); DequeueFrom(s, p)) else s
    case Fork(p, reset) => s.(tasks := s.tasks + [Child(s.tasks[p], reset, d)])
    case Request(p, req) => s.(tasks := s.tasks[p := s.tasks[p].(req := req)])
    case Update(p, id, lim) =>
      if Active(s.tasks[p]) then (UpdateFits(s, p, id, lim, n, d); UpdateActive(s, p, id, lim)) else s
  }

  // ---------------------------------------------------------------- what the buckets count

  /** p is counted on runqueue c, in bucket b of clamp id. */
  predicate Member(t: TaskClamp, c: nat, id: ClampId, b: nat) {
    t.on == c && t.eff.Get(id).active && t.eff.Get(id).bucketId == b
  }

  ghost function Members(tasks: seq<TaskClamp>, c: nat, id: ClampId, b: nat): set<Tid> {
    set p: Tid | p < |tasks| && Member(tasks[p], c, id, b)
  }

  ghost predicate CountOk(tasks: seq<TaskClamp>, c: nat, id: ClampId, buckets: seq<Bucket>) {
    forall b :: 0 <= b < |buckets| ==> buckets[b].tasks == |Members(tasks, c, id, b)|
  }

  /** A bucket with tasks holds a value of its own range. */
  predicate RangeOk(buckets: seq<Bucket>, d: nat)
    requires d > 0
  { forall b :: 0 <= b < |buckets| && buckets[b].tasks > 0 ==> BucketId(buckets[b].value, d) == b }

  /** No counted task is above the value of its bucket. */
  predicate ValueOk(tasks: seq<TaskClamp>, c: nat, id: ClampId, buckets: seq<Bucket>) {
    forall p :: 0 <= p < |tasks| && tasks[p].on == c && tasks[p].eff.Get(id).active ==>
      var se := tasks[p].eff.Get(id);
      se.bucketId < |buckets| && se.value <= buckets[se.bucketId].value
  }

  /** What the buckets of one clamp of runqueue c are always worth. */
  ghost predicate IdSound(tasks: seq<TaskClamp>, c: nat, id: ClampId, buckets: seq<Bucket>, n: nat, d: nat)
    requires d > 0
  {
    |buckets| == n && CountOk(tasks, c, id, buckets) && RangeOk(buckets, d) && ValueOk(tasks, c, id, buckets)
  }

  ghost predicate RqSound(s: State, c: nat, n: nat, d: nat)
    requires c < |s.rqs| && d > 0
  {
    && IdSound(s.tasks, c, MIN, s.rqs[c].clamp.min.buckets, n, d)
    && IdSound(s.tasks, c, MAX, s.rqs[c].clamp.max.buckets, n, d)
  }

  predicate TaskOk(t: TaskClamp, rqs: nat, n: nat, d: nat)
    requires d > 0
  {
    && SeOk(t.req.min, n, d) && SeOk(t.req.max, n, d) && t.eff.min.active == t.eff.max.active
    && (Active(t) ==> t.on < rqs && SeOk(t.eff.min, n, d) && SeOk(t.eff.max, n, d))
  }

  ghost predicate Sound(s: State, n: nat, d: nat) {
    && d > 0
    && (forall c :: 0 <= c < |s.rqs| ==> RqSound(s, c, n, d))
    && (forall p :: 0 <= p < |s.tasks| ==> TaskOk(s.tasks[p], |s.rqs|, n, d))
  }

  lemma CanEnqueue(s: State, c: nat, p: Tid, lim: Limits, n: nat, d: nat)
    requires Geometry(n, d) && Sound(s, n, d) && c < |s.rqs| && p < |s.tasks| && LimitsSet(lim, d)
    ensures CanInc(Both(s.rqs[c], s.tasks[p]), lim)
    ensures SeOk(EffGet(s.tasks[p].req.min, lim), n, d) && SeOk(EffGet(s.tasks[p].req.max, lim), n, d)
  {
    assert RqSound(s, c, n, d) && TaskOk(s.tasks[p], |s.rqs|, n, d);
    EffGetOk(s.tasks[p].req.min, lim, n, d);
    EffGetOk(s.tasks[p].req.max, lim, n, d);
  }

  lemma ActiveCanDequeue(s: State, p: Tid, n: nat, d: nat)
    requires Sound(s, n, d) && p < |s.tasks| && Active(s.tasks[p])
    ensures CanDequeue(s, p)
  {
    assert TaskOk(s.tasks[p], |s.rqs|, n, d);
    assert RqSound(s, s.tasks[p].on, n, d);
  }

  lemma UpdateFits(s: State, p: Tid, id: ClampId, lim: Limits, n: nat, d: nat)
    requires Geometry(n, d) && Sound(s, n, d) && p < |s.tasks| && Active(s.tasks[p]) && LimitsSet(lim, d)
    ensures CanUpdate(s, p, id, lim) && SeOk(EffGet(s.tasks[p].req.Get(id), lim), n, d)
  {
    assert TaskOk(s.tasks[p], |s.rqs|, n, d);
    assert RqSound(s, s.tasks[p].on, n, d);
    EffGetOk(s.tasks[p].req.Get(id), lim, n, d);
  }

  // ---------------------------------------------------------------- one task changes

  /** Only p changes. */
  predicate OnlyTask(tasks: seq<TaskClamp>, tasks': seq<TaskClamp>, p: Tid) {
    && p < |tasks| && |tasks'| == |tasks|
    && forall q :: 0 <= q < |tasks| && q != p ==> tasks'[q] == tasks[q]
  }

  function One(b: bool): int { if b then 1 else 0 }

  lemma WithoutOne(a: set<Tid>, p: Tid)
    ensures |a| == |a - {p}| + One(p in a)
  {
    if p in a { assert a == (a - {p}) + {p}; } else { assert a == a - {p}; }
  }

  /** Two sets that agree but for p differ in size by p. */
  lemma SameButOne(a: set<Tid>, b: set<Tid>, p: Tid)
    requires forall q: Tid :: q != p ==> (q in a <==> q in b)
    ensures |b| - |a| == One(p in b) - One(p in a)
  {
    WithoutOne(a, p);
    WithoutOne(b, p);
    assert a - {p} == b - {p};
  }

  lemma MembersFramed(tasks: seq<TaskClamp>, tasks': seq<TaskClamp>, p: Tid, c: nat, id: ClampId, b: nat)
    requires OnlyTask(tasks, tasks', p)
    ensures |Members(tasks', c, id, b)| - |Members(tasks, c, id, b)|
      == One(Member(tasks'[p], c, id, b)) - One(Member(tasks[p], c, id, b))
  {
    SameButOne(Members(tasks, c, id, b), Members(tasks', c, id, b), p);
  }

  lemma CountFramed(tasks: seq<TaskClamp>, tasks': seq<TaskClamp>, p: Tid, c: nat, id: ClampId,
      bs: seq<Bucket>, bs': seq<Bucket>)
    requires OnlyTask(tasks, tasks', p) && CountOk(tasks, c, id, bs) && |bs'| == |bs|
    requires forall b :: 0 <= b < |bs| ==>
      bs'[b].tasks - bs[b].tasks == One(Member(tasks'[p], c, id, b)) - One(Member(tasks[p], c, id, b))
    ensures CountOk(tasks', c, id, bs')
  {
    forall b | 0 <= b < |bs| ensures bs'[b].tasks == |Members(tasks', c, id, b)| {
      MembersFramed(tasks, tasks', p, c, id, b);
    }
  }

  lemma CountedRange(cl: Clamp, b: nat, v: nat, idle: bool, d: nat)
    requires d > 0 && b < |cl.buckets| && RangeOk(cl.buckets, d) && BucketId(v, d) == b
    ensures RangeOk(Counted(cl, b, v, idle).buckets, d)
  {
  }

  lemma CountedValue(tasks: seq<TaskClamp>, tasks': seq<TaskClamp>, p: Tid, c: nat, id: ClampId, cl: Clamp, idle: bool)
    requires CountOk(tasks, c, id, cl.buckets) && ValueOk(tasks, c, id, cl.buckets) && OnlyTask(tasks, tasks', p)
    requires tasks'[p].on == c && tasks'[p].eff.Get(id).bucketId < |cl.buckets|
    ensures var se := tasks'[p].eff.Get(id); ValueOk(tasks', c, id, Counted(cl, se.bucketId, se.value, idle).buckets)
  {
    var se := tasks'[p].eff.Get(id);
    var bs' := Counted(cl, se.bucketId, se.value, idle).buckets;
    forall q | 0 <= q < |tasks'| && tasks'[q].on == c && tasks'[q].eff.Get(id).active
      ensures var e := tasks'[q].eff.Get(id); e.bucketId < |bs'| && e.value <= bs'[e.bucketId].value
    {
      if q != p { assert q in Members(tasks, c, id, tasks[q].eff.Get(id).bucketId); }
    }
  }

  /** uclamp_rq_inc_id() on a task counted nowhere. */
  lemma IncIdSound(tasks: seq<TaskClamp>, tasks': seq<TaskClamp>, p: Tid, c: nat, id: ClampId, cl: Clamp, idle: bool,
      n: nat, d: nat)
    requires d > 0 && IdSound(tasks, c, id, cl.buckets, n, d) && OnlyTask(tasks, tasks', p)
    requires !tasks[p].eff.Get(id).active && tasks'[p].on == c && tasks'[p].eff.Get(id).active
    requires SeOk(tasks'[p].eff.Get(id), n, d)
    ensures var se := tasks'[p].eff.Get(id); IdSound(tasks', c, id, Counted(cl, se.bucketId, se.value, idle).buckets,
      n, d)
  {
    var se := tasks'[p].eff.Get(id);
    CountedRange(cl, se.bucketId, se.value, idle, d);
    CountedValue(tasks, tasks', p, c, id, cl, idle);
    CountFramed(tasks, tasks', p, c, id, cl.buckets, Counted(cl, se.bucketId, se.value, idle).buckets);
  }

  /** A counted task is in a bucket in use. */
  lemma InUse(tasks: seq<TaskClamp>, p: Tid, c: nat, id: ClampId, bs: seq<Bucket>)
    requires CountOk(tasks, c, id, bs) && ValueOk(tasks, c, id, bs)
    requires p < |tasks| && tasks[p].on == c && tasks[p].eff.Get(id).active
    ensures tasks[p].eff.Get(id).bucketId < |bs| && bs[tasks[p].eff.Get(id).bucketId].tasks > 0
  {
    assert p in Members(tasks, c, id, tasks[p].eff.Get(id).bucketId);
  }

  /** uclamp_rq_dec_id() on a counted task. */
  lemma DecIdSound(tasks: seq<TaskClamp>, tasks': seq<TaskClamp>, p: Tid, c: nat, id: ClampId, bs: seq<Bucket>,
      n: nat, d: nat)
    requires d > 0 && IdSound(tasks, c, id, bs, n, d) && OnlyTask(tasks, tasks', p)
    requires tasks[p].on == c && tasks[p].eff.Get(id).active && !tasks'[p].eff.Get(id).active
    ensures tasks[p].eff.Get(id).bucketId < n && IdSound(tasks', c, id, Fewer(bs, tasks[p].eff.Get(id).bucketId), n, d)
  {
    InUse(tasks, p, c, id, bs);
    CountFramed(tasks, tasks', p, c, id, bs, Fewer(bs, tasks[p].eff.Get(id).bucketId));
  }

  /** A runqueue that p neither leaves nor joins. */
  lemma IdFramed(tasks: seq<TaskClamp>, tasks': seq<TaskClamp>, p: Tid, c: nat, id: ClampId, bs: seq<Bucket>,
      n: nat, d: nat)
    requires d > 0 && IdSound(tasks, c, id, bs, n, d) && OnlyTask(tasks, tasks', p)
    requires tasks'[p].on == c && tasks'[p].eff.Get(id).active ==>
      tasks'[p].eff.Get(id) == tasks[p].eff.Get(id) && tasks[p].on == c
    requires tasks[p].on == c && tasks[p].eff.Get(id).active ==>
      tasks'[p].eff.Get(id) == tasks[p].eff.Get(id) && tasks'[p].on == c
    ensures IdSound(tasks', c, id, bs, n, d)
  {
    CountFramed(tasks, tasks', p, c, id, bs, bs);
  }

  // ---------------------------------------------------------------- every event

  /** p joins, leaves or moves on runqueue c; everyone else is as before. */
  predicate Moves(s: State, s': State, p: Tid, c: nat) {
    && OnlyTask(s.tasks, s'.tasks, p) && c < |s.rqs| == |s'.rqs| && s'.rqs == s.rqs[c := s'.rqs[c]]
    && (!Active(s.tasks[p]) || s.tasks[p].on == c) && s'.tasks[p].on == c
  }

  lemma MovesSound(s: State, s': State, p: Tid, c: nat, n: nat, d: nat)
    requires Sound(s, n, d) && Moves(s, s', p, c) && RqSound(s', c, n, d) && TaskOk(s'.tasks[p], |s.rqs|, n, d)
    ensures Sound(s', n, d)
  {
    assert TaskOk(s.tasks[p], |s.rqs|, n, d);
    forall e | 0 <= e < |s'.rqs| ensures RqSound(s', e, n, d) {
      if e != c {
        assert RqSound(s, e, n, d);
        IdFramed(s.tasks, s'.tasks, p, e, MIN, s.rqs[e].clamp.min.buckets, n, d);
        IdFramed(s.tasks, s'.tasks, p, e, MAX, s.rqs[e].clamp.max.buckets, n, d);
      }
    }
    forall q | 0 <= q < |s'.tasks| ensures TaskOk(s'.tasks[q], |s'.rqs|, n, d) {
      assert TaskOk(s.tasks[q], |s.rqs|, n, d);
    }
  }

  lemma EnqueueSound(s: State, c: nat, p: Tid, lim: Limits, n: nat, d: nat)
    requires Geometry(n, d) && Sound(s, n, d) && c < |s.rqs| && p < |s.tasks| && !Active(s.tasks[p])
      && LimitsSet(lim, d)
    ensures CanInc(Both(s.rqs[c], s.tasks[p]), lim) && Sound(EnqueueOn(s, c, p, lim), n, d)
  {
    CanEnqueue(s, c, p, lim, n, d);
    JoinedSound(s, c, p, lim, n, d);
    MovesSound(s, EnqueueOn(s, c, p, lim), p, c, n, d);
  }

  /** The runqueue that p joins. */
  lemma JoinedSound(s: State, c: nat, p: Tid, lim: Limits, n: nat, d: nat)
    requires Sound(s, n, d) && c < |s.rqs| && p < |s.tasks| && !Active(s.tasks[p])
    requires CanInc(Both(s.rqs[c], s.tasks[p]), lim)
    requires SeOk(EffGet(s.tasks[p].req.min, lim), n, d) && SeOk(EffGet(s.tasks[p].req.max, lim), n, d)
    ensures var s' := EnqueueOn(s, c, p, lim); RqSound(s', c, n, d) && TaskOk(s'.tasks[p], |s.rqs|, n, d)
  {
    var s' := EnqueueOn(s, c, p, lim);
    assert RqSound(s, c, n, d) && TaskOk(s.tasks[p], |s.rqs|, n, d);
    IncIdSound(s.tasks, s'.tasks, p, c, MIN, s.rqs[c].clamp.min, s.rqs[c].idle, n, d);
    IncIdSound(s.tasks, s'.tasks, p, c, MAX, s.rqs[c].clamp.max, s.rqs[c].idle, n, d);
  }

  /** The first of the two warnings of a dequeue needs a bucket that does not count the task. */
  lemma DequeueSound(s: State, p: Tid, n: nat, d: nat)
    requires Sound(s, n, d) && p < |s.tasks| && Active(s.tasks[p])
    ensures CanDequeue(s, p) && Sound(DequeueFrom(s, p), n, d)
    ensures forall id: ClampId :: s.rqs[s.tasks[p].on].clamp.Get(id).buckets[s.tasks[p].eff.Get(id).bucketId].tasks > 0
  {
    ActiveCanDequeue(s, p, n, d);
    var s', c := DequeueFrom(s, p), s.tasks[p].on;
    assert RqSound(s, c, n, d) && TaskOk(s.tasks[p], |s.rqs|, n, d);
    InUse(s.tasks, p, c, MIN, s.rqs[c].clamp.min.buckets);
    InUse(s.tasks, p, c, MAX, s.rqs[c].clamp.max.buckets);
    DecIdSound(s.tasks, s'.tasks, p, c, MIN, s.rqs[c].clamp.min.buckets, n, d);
    DecIdSound(s.tasks, s'.tasks, p, c, MAX, s.rqs[c].clamp.max.buckets, n, d);
    MovesSound(s, s', p, c, n, d);
  }

  /** Both clamps of the runqueue on which a counted task is updated. */
  lemma UpdatedSound(s: State, p: Tid, id: ClampId, lim: Limits, n: nat, d: nat)
    requires Sound(s, n, d) && p < |s.tasks| && Active(s.tasks[p]) && CanUpdate(s, p, id, lim)
    requires SeOk(EffGet(s.tasks[p].req.Get(id), lim), n, d)
    ensures RqSound(UpdateActive(s, p, id, lim), s.tasks[p].on, n, d)
  {
    var s', c, t := UpdateActive(s, p, id, lim), s.tasks[p].on, s.tasks[p];
    var x := DecId(Both(s.rqs[c], t), id);
    var mid := s.tasks[p := x.task];
    var other := if id.MIN? then MAX else MIN;
    assert RqSound(s, c, n, d) && TaskOk(t, |s.rqs|, n, d);
    DecIdSound(s.tasks, mid, p, c, id, s.rqs[c].clamp.Get(id).buckets, n, d);
    IncIdSound(mid, s'.tasks, p, c, id, x.rq.clamp.Get(id), x.rq.idle, n, d);
    IdFramed(s.tasks, s'.tasks, p, c, other, s.rqs[c].clamp.Get(other).buckets, n, d);
  }

  lemma UpdateSound(s: State, p: Tid, id: ClampId, lim: Limits, n: nat, d: nat)
    requires Geometry(n, d) && Sound(s, n, d) && p < |s.tasks| && Active(s.tasks[p]) && LimitsSet(lim, d)
    ensures CanUpdate(s, p, id, lim) && Sound(UpdateActive(s, p, id, lim), n, d)
  {
    UpdateFits(s, p, id, lim, n, d);
    UpdatedSound(s, p, id, lim, n, d);
    assert TaskOk(s.tasks[p], |s.rqs|, n, d);
    MovesSound(s, UpdateActive(s, p, id, lim), p, s.tasks[p].on, n, d);
  }

  /** Nobody is counted anywhere else than before. */
  lemma SameMembersSound(s: State, tasks': seq<TaskClamp>, n: nat, d: nat)
    requires Sound(s, n, d) && |s.tasks| <= |tasks'|
    requires forall p :: 0 <= p < |tasks'| ==> TaskOk(tasks'[p], |s.rqs|, n, d)
    requires forall p :: 0 <= p < |s.tasks| ==> tasks'[p].eff == s.tasks[p].eff && tasks'[p].on == s.tasks[p].on
    requires forall p :: |s.tasks| <= p < |tasks'| ==> !Active(tasks'[p])
    ensures Sound(s.(tasks := tasks'), n, d)
  {
    var s' := s.(tasks := tasks');
    forall c | 0 <= c < |s'.rqs| ensures RqSound(s', c, n, d) {
      assert RqSound(s, c, n, d);
      forall id: ClampId, b: nat ensures Members(tasks', c, id, b) == Members(s.tasks, c, id, b) {
        forall p: Tid | p < |tasks'| ensures Member(tasks'[p], c, id, b) ==> p < |s.tasks| {
          assert TaskOk(tasks'[p], |s.rqs|, n, d);
        }
      }
    }
  }

  lemma ForkSound(s: State, p: Tid, reset: bool, n: nat, d: nat)
    requires Geometry(n, d) && Sound(s, n, d) && p < |s.tasks|
    ensures Sound(s.(tasks := s.tasks + [Child(s.tasks[p], reset, d)]), n, d)
  {
    var child := Child(s.tasks[p], reset, d);
    assert TaskOk(s.tasks[p], |s.rqs|, n, d);
    WasSetOk(child.req.min, n, d);
    WasSetOk(child.req.max, n, d);
    SameMembersSound(s, s.tasks + [child], n, d);
  }

  lemma RequestSound(s: State, p: Tid, req: Pair<Se>, n: nat, d: nat)
    requires Geometry(n, d) && Sound(s, n, d) && p < |s.tasks| && WasSet(req.min, d) && WasSet(req.max, d)
    ensures Sound(s.(tasks := s.tasks[p := s.tasks[p].(req := req)]), n, d)
  {
    WasSetOk(req.min, n, d);
    WasSetOk(req.max, n, d);
    assert TaskOk(s.tasks[p], |s.rqs|, n, d);
    SameMembersSound(s, s.tasks[p := s.tasks[p].(req := req)], n, d);
  }

  lemma StepSound(s: State, e: Event, n: nat, d: nat)
    requires Geometry(n, d) && Sound(s, n, d) && Enabled(s, e, d)
    ensures Sound(Apply(s, e, n, d), n, d)
  {
    match e
    case Enqueue(c, p, enabled, lim) => EnqueueSound(s, c, p, lim, n, d);
    case Dequeue(p, enabled) => if enabled { DequeueSound(s, p, n, d); }
    case Fork(p, reset) => ForkSound(s, p, reset, n, d);
    case Request(p, req) => RequestSound(s, p, req, n, d);
    case Update(p, id, lim) => if Active(s.tasks[p]) { UpdateSound(s, p, id, lim, n, d); }
  }

  // ---------------------------------------------------------------- runs

  /** es can happen from s, one event after the other. */
  ghost predicate ValidRun(s: State, es: seq<Event>, n: nat, d: nat)
    requires Geometry(n, d) && Sound(s, n, d)
    decreases |es|
  {
    |es| > 0 ==> Enabled(s, es[0], d) && (StepSound(s, es[0], n, d); ValidRun(Apply(s, es[0], n, d), es[1..], n, d))
  }

  ghost function Final(s: State, es: seq<Event>, n: nat, d: nat): (f: State)
    requires Geometry(n, d) && Sound(s, n, d) && ValidRun(s, es, n, d)
    ensures Sound(f, n, d)
    decreases |es|
  {
    if |es| == 0 then s else (StepSound(s, es[0], n, d); Final(Apply(s, es[0], n, d), es[1..], n, d))
  }

  /** init_uclamp(): cleared runqueues, and a first task that asks for no clamp. */
  function Init(cpus: nat, n: nat, d: nat): State
    requires d > 0
  {
    var none := Se(0, 0, false, false);
    State(seq(cpus, i => Fresh(n)), [TaskClamp(
      Pair(SetSe(none, Unclamped(MIN), false, d), SetSe(none, Unclamped(MAX), false, d)), Pair(none, none), 0)])
  }

  lemma InitSound(cpus: nat, n: nat, d: nat)
    requires Geometry(n, d)
    ensures Sound(Init(cpus, n, d), n, d)
  {
    var s := Init(cpus, n, d);
    WasSetOk(s.tasks[0].req.min, n, d);
    WasSetOk(s.tasks[0].req.max, n, d);
    forall c | 0 <= c < |s.rqs| ensures RqSound(s, c, n, d) {
      forall id: ClampId, b: nat ensures Members(s.tasks, c, id, b) == {} {}
    }
  }

  ghost predicate Run(cpus: nat, n: nat, d: nat, es: seq<Event>)
    requires Geometry(n, d)
  {
    InitSound(cpus, n, d);
    ValidRun(Init(cpus, n, d), es, n, d)
  }

  /** The state that a run from init_uclamp() ends in. */
  ghost function End(cpus: nat, n: nat, d: nat, es: seq<Event>): (f: State)
    requires Geometry(n, d) && Run(cpus, n, d, es)
    ensures Sound(f, n, d)
  {
    InitSound(cpus, n, d);
    Final(Init(cpus, n, d), es, n, d)
  }

  /**
   * Over every run, updates of active tasks included, a bucket counts exactly the active tasks in it, holds a value of
   * its range and none of its tasks is above that; so a dequeue or an update never finds the bucket of its task empty.
   */
  lemma CountsAlwaysExact(cpus: nat, n: nat, d: nat, es: seq<Event>, c: nat, id: ClampId, p: Tid)
    requires Geometry(n, d) && Run(cpus, n, d, es) && c < |End(cpus, n, d, es).rqs|
    ensures var f := End(cpus, n, d, es); IdSound(f.tasks, c, id, f.rqs[c].clamp.Get(id).buckets, n, d)
    ensures var f := End(cpus, n, d, es); On(f, p, c) ==>
      f.tasks[p].eff.Get(id).bucketId < n && f.rqs[c].clamp.Get(id).buckets[f.tasks[p].eff.Get(id).bucketId].tasks > 0
  {
    var f := End(cpus, n, d, es);
    assert RqSound(f, c, n, d);
    if On(f, p, c) {
      assert TaskOk(f.tasks[p], |f.rqs|, n, d);
      InUse(f.tasks, p, c, id, f.rqs[c].clamp.Get(id).buckets);
    }
  }
}
