/**
 * What the cached clamp of a runqueue says about its tasks, over every run in which no maximum clamp is updated of a
 * task that is alone on its runqueue; and exactly what such an update breaks.
 */
module UclampCache {
  import opened Wrappers
  import opened Uclamp
  import opened UclampRuns

  predicate AllEmpty(buckets: seq<Bucket>) { forall b :: 0 <= b < |buckets| ==> buckets[b].tasks == 0 }

  /** v is the largest value of a bucket with tasks in it. */
  predicate IsMax(buckets: seq<Bucket>, v: nat) {
    && (exists b :: 0 <= b < |buckets| && buckets[b].tasks > 0 && buckets[b].value == v)
    && (forall b :: 0 <= b < |buckets| && buckets[b].tasks > 0 ==> buckets[b].value <= v)
  }

  predicate CacheOk(c: Clamp, id: ClampId, idle: bool) {
    && (!AllEmpty(c.buckets) ==> IsMax(c.buckets, c.value))
    && (AllEmpty(c.buckets) && (id.MIN? || !idle) ==> c.value == 0)
  }

  /** Both cached values are right, and only an empty runqueue is marked idle. */
  predicate Cached(r: RqClamps) {
    && CacheOk(r.clamp.min, MIN, r.idle) && CacheOk(r.clamp.max, MAX, r.idle)
    && (r.idle ==> AllEmpty(r.clamp.min.buckets) && AllEmpty(r.clamp.max.buckets))
  }

  ghost predicate Inv(s: State, n: nat, d: nat) {
    Sound(s, n, d) && forall c :: 0 <= c < |s.rqs| ==> Cached(s.rqs[c])
  }

  // ---------------------------------------------------------------- one clamp

  lemma CountedCache(cl: Clamp, b: nat, v: nat, id: ClampId, idle: bool)
    requires b < |cl.buckets| && CacheOk(cl, id, idle) && (idle ==> AllEmpty(cl.buckets))
    ensures CacheOk(Counted(cl, b, v, idle), id, false)
    ensures IsMax(Counted(cl, b, v, idle).buckets, Counted(cl, b, v, idle).value)
  {
    var cl' := Counted(cl, b, v, idle);
    assert cl'.buckets[b].tasks > 0;
    if !AllEmpty(cl.buckets) {
      var k :| 0 <= k < |cl.buckets| && cl.buckets[k].tasks > 0 && cl.buckets[k].value == cl.value;
      assert cl'.buckets[k].tasks > 0;
    }
  }

  lemma TopIsMax(bs: seq<Bucket>, d: nat)
    requires d > 0 && RangeOk(bs, d)
    ensures Top(bs, |bs|).None? <==> AllEmpty(bs)
    ensures Top(bs, |bs|).Some? ==> IsMax(bs, bs[Top(bs, |bs|).value].value)
  {
    var t := Top(bs, |bs|);
    if t.Some? {
      forall b | 0 <= b < |bs| && bs[b].tasks > 0 ensures bs[b].value <= bs[t.value].value {
        if b < t.value { LowerBucketIsSmaller(bs[b].value, bs[t.value].value, d); }
      }
    }
  }

  lemma UncountedCache(cl: Clamp, b: nat, v: nat, id: ClampId, idle: bool, d: nat)
    requires d > 0 && b < |cl.buckets| && CacheOk(cl, id, idle) && RangeOk(cl.buckets, d) && cl.buckets[b].tasks > 0
    ensures !DecWarns(cl, b)
    ensures CacheOk(Uncounted(cl, b, v, id), id, idle || TurnsIdle(cl, b, id))
    ensures TurnsIdle(cl, b, id) <==> id.MAX? && AllEmpty(Fewer(cl.buckets, b))
    ensures TurnsIdle(cl, b, id) ==> Uncounted(cl, b, v, id).value == v
  {
    var bs := Fewer(cl.buckets, b);
    TopIsMax(bs, d);
    assert IsMax(cl.buckets, cl.value);
    var k :| 0 <= k < |cl.buckets| && cl.buckets[k].tasks > 0 && cl.buckets[k].value == cl.value;
    if !Recomputes(cl, b) {
      assert bs[k].tasks > 0;
      assert IsMax(bs, cl.value);
    }
  }

  // ---------------------------------------------------------------- one runqueue

  lemma OnInUse(s: State, p: Tid, c: nat, n: nat, d: nat)
    requires Sound(s, n, d) && On(s, p, c)
    ensures c < |s.rqs|
    ensures forall id: ClampId :: var se, bs := s.tasks[p].eff.Get(id), s.rqs[c].clamp.Get(id).buckets;
      se.active && se.bucketId < n == |bs| && bs[se.bucketId].tasks > 0
  {
    assert TaskOk(s.tasks[p], |s.rqs|, n, d) && RqSound(s, c, n, d);
    InUse(s.tasks, p, c, MIN, s.rqs[c].clamp.min.buckets);
    InUse(s.tasks, p, c, MAX, s.rqs[c].clamp.max.buckets);
  }

  /** No bucket of either clamp is in use exactly when no task is counted. */
  lemma EmptyMeansNobody(s: State, c: nat, id: ClampId, n: nat, d: nat)
    requires Sound(s, n, d) && c < |s.rqs|
    ensures AllEmpty(s.rqs[c].clamp.Get(id).buckets) <==> forall p: Tid :: !On(s, p, c)
  {
    assert RqSound(s, c, n, d);
    var bs := s.rqs[c].clamp.Get(id).buckets;
    if p: Tid :| On(s, p, c) {
      OnInUse(s, p, c, n, d);
      assert bs[s.tasks[p].eff.Get(id).bucketId].tasks > 0;
    } else {
      forall b | 0 <= b < n ensures bs[b].tasks == 0 {
        forall q: Tid | q < |s.tasks| ensures !Member(s.tasks[q], c, id, b) {
          assert !On(s, q, c) && TaskOk(s.tasks[q], |s.rqs|, n, d);
        }
        assert Members(s.tasks, c, id, b) == {};
      }
    }
  }

  lemma EnqueueCached(s: State, c: nat, p: Tid, lim: Limits)
    requires c < |s.rqs| && p < |s.tasks| && CanInc(Both(s.rqs[c], s.tasks[p]), lim) && Cached(s.rqs[c])
    ensures Cached(EnqueueOn(s, c, p, lim).rqs[c])
  {
    var r, t := s.rqs[c], s.tasks[p];
    var lo, hi := EffGet(t.req.min, lim), EffGet(t.req.max, lim);
    CountedCache(r.clamp.min, lo.bucketId, lo.value, MIN, r.idle);
    CountedCache(r.clamp.max, hi.bucketId, hi.value, MAX, r.idle);
  }

  /** Neither clamp warns when p leaves; the runqueue is marked idle exactly when nobody is left. */
  lemma DequeueCached(s: State, p: Tid, n: nat, d: nat)
    requires Inv(s, n, d) && p < |s.tasks| && Active(s.tasks[p]) && CanDequeue(s, p) && Sound(DequeueFrom(s, p), n, d)
    ensures var r := DequeueFrom(s, p).rqs[s.tasks[p].on];
      && Cached(r) && (r.idle <==> AllEmpty(r.clamp.max.buckets))
      && (r.idle ==> r.clamp.max.value == s.tasks[p].eff.max.value)
    ensures forall id: ClampId :: !DecWarns(s.rqs[s.tasks[p].on].clamp.Get(id), s.tasks[p].eff.Get(id).bucketId)
  {
    var s', c, t := DequeueFrom(s, p), s.tasks[p].on, s.tasks[p];
    var r := s.rqs[c];
    OnInUse(s, p, c, n, d);
    assert RqSound(s, c, n, d) && Cached(r) && !r.idle;
    UncountedCache(r.clamp.min, t.eff.min.bucketId, t.eff.min.value, MIN, false, d);
    UncountedCache(r.clamp.max, t.eff.max.bucketId, t.eff.max.value, MAX, false, d);
    EmptyMeansNobody(s', c, MIN, n, d);
    EmptyMeansNobody(s', c, MAX, n, d);
  }

  /** p is the only task counted on its runqueue. */
  ghost predicate Sole(s: State, p: Tid)
    requires p < |s.tasks|
  { forall q: Tid :: On(s, q, s.tasks[p].on) ==> q == p }

  /** An update keeps both cached values right; only the flag can be wrong after it. */
  predicate ValuesCached(r: RqClamps) { CacheOk(r.clamp.min, MIN, false) && CacheOk(r.clamp.max, MAX, false) }

  lemma UpdateCached(s: State, p: Tid, id: ClampId, lim: Limits, n: nat, d: nat)
    requires Inv(s, n, d) && p < |s.tasks| && Active(s.tasks[p]) && CanUpdate(s, p, id, lim)
    ensures var r, r' := s.rqs[s.tasks[p].on], UpdateActive(s, p, id, lim).rqs[s.tasks[p].on];
      ValuesCached(r') && (r'.idle <==> id.MAX? && AllEmpty(Fewer(r.clamp.max.buckets, s.tasks[p].eff.max.bucketId)))
    ensures !DecWarns(s.rqs[s.tasks[p].on].clamp.Get(id), s.tasks[p].eff.Get(id).bucketId)
  {
    var c, t := s.tasks[p].on, s.tasks[p];
    var cl, se, next := s.rqs[c].clamp.Get(id), t.eff.Get(id), EffGet(t.req.Get(id), lim);
    OnInUse(s, p, c, n, d);
    assert RqSound(s, c, n, d) && Cached(s.rqs[c]) && !s.rqs[c].idle;
    UncountedCache(cl, se.bucketId, se.value, id, false, d);
    var cl' := Uncounted(cl, se.bucketId, se.value, id);
    CountedCache(cl', next.bucketId, next.value, id, TurnsIdle(cl, se.bucketId, id));
  }

  /** With p out of its bucket nothing is in use exactly when p was alone. */
  lemma SoleMeansEmpty(s: State, p: Tid, n: nat, d: nat)
    requires Sound(s, n, d) && p < |s.tasks| && Active(s.tasks[p]) && CanDequeue(s, p)
    ensures Sole(s, p) <==> AllEmpty(Fewer(s.rqs[s.tasks[p].on].clamp.max.buckets, s.tasks[p].eff.max.bucketId))
  {
    var s', c := DequeueFrom(s, p), s.tasks[p].on;
    DequeueSound(s, p, n, d);
    EmptyMeansNobody(s', c, MAX, n, d);
    assert forall q: Tid :: On(s', q, c) <==> On(s, q, c) && q != p;
  }

  // ---------------------------------------------------------------- every event

  /** The update that breaks the cache: of the maximum clamp of a task that is alone. */
  ghost predicate Strands(s: State, e: Event) {
    e.Update? && e.id.MAX? && e.p < |s.tasks| && Active(s.tasks[e.p]) && Sole(s, e.p)
  }

  /** With p still counted and both values right, the invariant holds exactly when the flag is clear. */
  lemma FlagDecides(s: State, s': State, p: Tid, c: nat, n: nat, d: nat)
    requires Inv(s, n, d) && Sound(s', n, d) && c < |s.rqs| == |s'.rqs| && s'.rqs == s.rqs[c := s'.rqs[c]]
    requires On(s', p, c) && ValuesCached(s'.rqs[c])
    ensures Inv(s', n, d) <==> !s'.rqs[c].idle
  {
    OnInUse(s', p, c, n, d);
    assert s'.rqs[c].clamp.max.buckets[s'.tasks[p].eff.Get(MAX).bucketId].tasks > 0;
    if s'.rqs[c].idle { assert !Cached(s'.rqs[c]); } else { assert Cached(s'.rqs[c]); }
  }

  /**
   * uclamp_update_active() keeps counts and cached values right, but it keeps the whole invariant exactly when it does
   * not update the maximum clamp of a task that is alone on its runqueue: only uclamp_rq_inc() clears the idle flag.
   */
  lemma UpdateKeepsInvariant(s: State, p: Tid, id: ClampId, lim: Limits, n: nat, d: nat)
    requires Geometry(n, d) && Inv(s, n, d) && p < |s.tasks| && Active(s.tasks[p]) && LimitsSet(lim, d)
    ensures CanUpdate(s, p, id, lim)
    ensures var s' := UpdateActive(s, p, id, lim);
      && Sound(s', n, d) && ValuesCached(s'.rqs[s.tasks[p].on])
      && (s'.rqs[s.tasks[p].on].idle <==> id.MAX? && Sole(s, p)) && (Inv(s', n, d) <==> !(id.MAX? && Sole(s, p)))
    ensures !DecWarns(s.rqs[s.tasks[p].on].clamp.Get(id), s.tasks[p].eff.Get(id).bucketId)
  {
    UpdateSound(s, p, id, lim, n, d);
    ActiveCanDequeue(s, p, n, d);
    UpdateCached(s, p, id, lim, n, d);
    SoleMeansEmpty(s, p, n, d);
    var s', c := UpdateActive(s, p, id, lim), s.tasks[p].on;
    FlagDecides(s, s', p, c, n, d);
  }

  lemma StepInv(s: State, e: Event, n: nat, d: nat)
    requires Geometry(n, d) && Inv(s, n, d) && Enabled(s, e, d) && !Strands(s, e)
    ensures Inv(Apply(s, e, n, d), n, d)
  {
    StepSound(s, e, n, d);
    match e
    case Enqueue(c, p, enabled, lim) =>
      if enabled {
        CanEnqueue(s, c, p, lim, n, d);
        EnqueueCached(s, c, p, lim);
      }
    case Dequeue(p, enabled) =>
      if enabled {
        DequeueSound(s, p, n, d);
        DequeueCached(s, p, n, d);
      }
    case Fork(p, reset) =>
    case Request(p, req) =>
    case Update(p, id, lim) => if Active(s.tasks[p]) { UpdateKeepsInvariant(s, p, id, lim, n, d); }
  }

  // ---------------------------------------------------------------- runs

  /** No update in the run is of the kind that breaks the cache. */
  ghost predicate Calm(s: State, es: seq<Event>, n: nat, d: nat)
    requires Geometry(n, d) && Sound(s, n, d) && ValidRun(s, es, n, d)
    decreases |es|
  {
    |es| > 0 ==> !Strands(s, es[0]) && (StepSound(s, es[0], n, d); Calm(Apply(s, es[0], n, d), es[1..], n, d))
  }

  lemma {:induction false} CalmInv(s: State, es: seq<Event>, n: nat, d: nat)
    requires Geometry(n, d) && Inv(s, n, d) && ValidRun(s, es, n, d) && Calm(s, es, n, d)
    ensures Inv(Final(s, es, n, d), n, d)
    decreases |es|
  {
    if |es| > 0 {
      StepSound(s, es[0], n, d);
      StepInv(s, es[0], n, d);
      CalmInv(Apply(s, es[0], n, d), es[1..], n, d);
    }
  }

  /** Cleared runqueues have their clamps right. */
  lemma InitCached(s: State)
    requires forall c :: 0 <= c < |s.rqs| ==> exists n: nat :: s.rqs[c] == Fresh(n)
    ensures forall c :: 0 <= c < |s.rqs| ==> Cached(s.rqs[c])
  {
  }

  ghost predicate CalmRun(cpus: nat, n: nat, d: nat, es: seq<Event>)
    requires Geometry(n, d)
  {
    InitSound(cpus, n, d);
    Run(cpus, n, d, es) && Calm(Init(cpus, n, d), es, n, d)
  }

  lemma CalmEndInv(cpus: nat, n: nat, d: nat, es: seq<Event>)
    requires Geometry(n, d) && CalmRun(cpus, n, d, es)
    ensures Inv(End(cpus, n, d, es), n, d)
  {
    InitSound(cpus, n, d);
    CalmInv(Init(cpus, n, d), es, n, d);
  }

  /** What a runqueue's clamp says about the tasks counted there. */
  ghost predicate Tracks(s: State, c: nat, id: ClampId, d: nat)
    requires c < |s.rqs|
  {
    var cl := s.rqs[c].clamp.Get(id);
    && (forall p: Tid :: On(s, p, c) ==> s.tasks[p].eff.Get(id).value <= cl.value)
    && ((exists p: Tid :: On(s, p, c)) ==>
      && IsMax(cl.buckets, cl.value) && !s.rqs[c].idle
      && exists q: Tid :: On(s, q, c) && cl.value < s.tasks[q].eff.Get(id).value + d)
    && ((forall q: Tid :: !On(s, q, c)) && id.MIN? ==> cl.value == 0)
  }

  lemma OnMember(s: State, c: nat, id: ClampId, p: Tid, n: nat, d: nat)
    requires Inv(s, n, d) && On(s, p, c)
    ensures c < |s.rqs| && !s.rqs[c].idle
    ensures var cl := s.rqs[c].clamp.Get(id); s.tasks[p].eff.Get(id).value <= cl.value && IsMax(cl.buckets, cl.value)
  {
    OnInUse(s, p, c, n, d);
    assert RqSound(s, c, n, d) && Cached(s.rqs[c]);
    var cl, b := s.rqs[c].clamp.Get(id), s.tasks[p].eff.Get(id).bucketId;
    assert cl.buckets[b].tasks > 0;
  }

  lemma InvTracks(s: State, c: nat, id: ClampId, n: nat, d: nat)
    requires Inv(s, n, d) && c < |s.rqs|
    ensures Tracks(s, c, id, d)
  {
    forall p: Tid | On(s, p, c) ensures s.tasks[p].eff.Get(id).value <= s.rqs[c].clamp.Get(id).value {
      OnMember(s, c, id, p, n, d);
    }
    if p: Tid :| On(s, p, c) {
      OnMember(s, c, id, p, n, d);
      NearestTask(s, c, id, n, d);
    } else {
      EmptyMeansNobody(s, c, id, n, d);
      assert Cached(s.rqs[c]);
    }
  }

  /** The task that keeps the cached value's bucket in use. */
  lemma NearestTask(s: State, c: nat, id: ClampId, n: nat, d: nat)
    requires Sound(s, n, d) && c < |s.rqs| && IsMax(s.rqs[c].clamp.Get(id).buckets, s.rqs[c].clamp.Get(id).value)
    ensures exists q: Tid :: On(s, q, c) && s.rqs[c].clamp.Get(id).value < s.tasks[q].eff.Get(id).value + d
  {
    assert RqSound(s, c, n, d);
    var cl := s.rqs[c].clamp.Get(id);
    var b :| 0 <= b < n && cl.buckets[b].tasks > 0 && cl.buckets[b].value == cl.value;
    assert Members(s.tasks, c, id, b) != {};
    var q :| q in Members(s.tasks, c, id, b);
    assert TaskOk(s.tasks[q], |s.rqs|, n, d);
    SameBucketIsClose(cl.value, s.tasks[q].eff.Get(id).value, d);
    assert On(s, q, c);
  }

  /**
   * Over every calm run, updates included: the cached clamp is the largest value of a bucket in use as soon as a task
   * is active, no active task is above it, and some active task is less than one bucket below it.
   */
  lemma ClampTracksTasks(cpus: nat, n: nat, d: nat, es: seq<Event>, c: nat, id: ClampId)
    requires Geometry(n, d) && CalmRun(cpus, n, d, es) && c < |End(cpus, n, d, es).rqs|
    ensures Tracks(End(cpus, n, d, es), c, id, d)
  {
    CalmEndInv(cpus, n, d, es);
    InvTracks(End(cpus, n, d, es), c, id, n, d);
  }

  /** Over every calm run no warning fires: not for a dequeue of any active task, nor for an update. */
  lemma CalmRunNeverWarns(cpus: nat, n: nat, d: nat, es: seq<Event>, p: Tid, id: ClampId)
    requires Geometry(n, d) && CalmRun(cpus, n, d, es)
    requires var f := End(cpus, n, d, es); p < |f.tasks| && Active(f.tasks[p])
    ensures var f := End(cpus, n, d, es);
      CanDequeue(f, p) && !DecWarns(f.rqs[f.tasks[p].on].clamp.Get(id), f.tasks[p].eff.Get(id).bucketId)
  {
    CalmEndInv(cpus, n, d, es);
    DequeueSound(End(cpus, n, d, es), p, n, d);
    DequeueCached(End(cpus, n, d, es), p, n, d);
  }

  /** When the last task leaves, the runqueue keeps that task's maximum clamp, drops the minimum and is marked idle. */
  lemma LastTaskLeaves(s: State, p: Tid, n: nat, d: nat)
    requires Inv(s, n, d) && p < |s.tasks| && Active(s.tasks[p]) && Sole(s, p)
    ensures CanDequeue(s, p)
    ensures var r := DequeueFrom(s, p).rqs[s.tasks[p].on];
      r.idle && r.clamp.max.value == s.tasks[p].eff.max.value && r.clamp.min.value == 0
  {
    DequeueSound(s, p, n, d);
    DequeueCached(s, p, n, d);
    var s', c := DequeueFrom(s, p), s.tasks[p].on;
    assert forall q: Tid :: On(s', q, c) ==> On(s, q, c) && q != p;
    EmptyMeansNobody(s', c, MIN, n, d);
    EmptyMeansNobody(s', c, MAX, n, d);
  }
}
