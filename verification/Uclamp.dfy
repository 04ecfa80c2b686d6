/**
 * Utilization clamps of one runqueue: per-bucket reference counts cache the maximum clamp of the tasks enqueued.
 * The values are those of `struct uclamp_rq`, `struct uclamp_bucket` and `struct uclamp_se`.
 */
module Uclamp {
  import opened Wrappers

  type Tid = nat

  /** SCHED_CAPACITY_SCALE */
  const SCALE: nat := 1024

  datatype ClampId = MIN | MAX
  datatype Bucket = Bucket(tasks: nat, value: nat)
  datatype Se = Se(value: nat, bucketId: nat, active: bool, userDefined: bool)

  /** A value for each clamp id. */
  datatype Pair<T> = Pair(min: T, max: T) {
    function Get(id: ClampId): T { if id.MIN? then min else max }
    function Put(id: ClampId, x: T): Pair<T> { if id.MIN? then this.(min := x) else this.(max := x) }
  }

  /** p->uclamp_req and p->uclamp; `on` is bookkeeping: the runqueue that counts the task while it is active. */
  datatype TaskClamp = TaskClamp(req: Pair<Se>, eff: Pair<Se>, on: nat)

  datatype Clamp = Clamp(buckets: seq<Bucket>, value: nat)

  /** A runqueue's clamps and its UCLAMP_FLAG_IDLE. */
  datatype RqClamps = RqClamps(clamp: Pair<Clamp>, idle: bool)

  /** A runqueue and the task that is enqueued or dequeued. */
  datatype Both = Both(rq: RqClamps, task: TaskClamp)

  /** What restricts a task's request: its group's effective clamp, if it has such a group, and the system default. */
  datatype Limits = Limits(group: Option<Se>, system: Se)

  // ---------------------------------------------------------------- buckets

  /** UCLAMP_BUCKET_DELTA for n buckets: the rounded quotient. */
  function Delta(n: nat): nat
    requires n > 0
  { (SCALE + n / 2) / n }

  function BucketId(value: nat, d: nat): nat
    requires d > 0
  { value / d }

  /** n buckets of width d have one for every clamp value. */
  predicate Geometry(n: nat, d: nat) { d > 0 && BucketId(SCALE, d) < n }

  /** Enough buckets are those that together reach past SCHED_CAPACITY_SCALE. */
  lemma GeometryIsWidth(n: nat, d: nat)
    requires d > 0
    ensures Geometry(n, d) <==> d * n > SCALE
  {
    assert d * (SCALE / d) <= SCALE < d * (SCALE / d + 1);
    if d * n > SCALE { Cancel(d, SCALE / d, n); } else { Cancel(d, n, SCALE / d + 1); }
  }

  lemma BucketInRange(value: nat, n: nat, d: nat)
    requires Geometry(n, d) && value <= SCALE
    ensures BucketId(value, d) < n
  {
    assert d * (value / d) <= value <= SCALE < d * (SCALE / d + 1);
    Cancel(d, value / d, SCALE / d + 1);
  }

  /**
   * uclamp_bucket_id() has no cap: it names one of the n buckets for every clamp value exactly when n buckets of
   * the rounded width reach past SCHED_CAPACITY_SCALE.
   */
  lemma BucketIdsFit(n: nat)
    requires n > 0 && Delta(n) > 0
    ensures (forall v: nat :: v <= SCALE ==> BucketId(v, Delta(n)) < n) <==> Delta(n) * n > SCALE
  {
    var d := Delta(n);
    GeometryIsWidth(n, d);
    if Geometry(n, d) {
      forall v: nat | v <= SCALE ensures BucketId(v, d) < n { BucketInRange(v, n, d); }
    } else {
      assert BucketId(SCALE, d) >= n;
    }
  }

  /** Five buckets, the default, fit; with twenty the largest clamp value has no bucket. */
  lemma BucketCounts()
    ensures Delta(5) == 205 && Geometry(5, Delta(5))
    ensures Delta(20) == 51 && BucketId(SCALE, Delta(20)) == 20
  {
  }

  lemma LowerBucketIsSmaller(x: nat, y: nat, d: nat)
    requires d > 0 && BucketId(x, d) < BucketId(y, d)
    ensures x < y
  {
    assert x < d * (x / d + 1) <= d * (y / d) <= y;
  }

  lemma SameBucketIsClose(x: nat, y: nat, d: nat)
    requires d > 0 && BucketId(x, d) == BucketId(y, d)
    ensures x < y + d
  {
    assert x == d * (x / d) + x % d && y == d * (y / d) + y % d;
  }

  // ---------------------------------------------------------------- effective clamps of a task

  /** uclamp_none() */
  function Unclamped(id: ClampId): nat { if id.MIN? then 0 else SCALE }

  /** uclamp_se_set() */
  function SetSe(se: Se, value: nat, userDefined: bool, d: nat): Se
    requires d > 0
  { se.(value := value, bucketId := BucketId(value, d), userDefined := userDefined) }

  /** uclamp_tg_restrict() */
  function TgRestrict(req: Se, group: Option<Se>): Se {
    if group.Some? && (req.value > group.value.value || !req.userDefined) then group.value else req
  }

  /** uclamp_eff_get() */
  function EffGet(req: Se, lim: Limits): Se {
    var r := TgRestrict(req, lim.group);
    if r.value > lim.system.value then lim.system else r
  }

  /**
   * The effective clamp respects both restrictions; a value asked for from user space is lowered no further than
   * they demand, and without one the group decides.
   */
  lemma EffGetRespects(req: Se, lim: Limits)
    ensures var e := EffGet(req, lim).value;
      && e <= lim.system.value && (lim.group.Some? ==> e <= lim.group.value.value)
      && (lim.group.None? || req.userDefined ==> e <= req.value)
      && (e == req.value || e == lim.system.value || (lim.group.Some? && e == lim.group.value.value))
      && (lim.group.Some? && !req.userDefined
        && lim.group.value.value <= lim.system.value
        ==> e == lim.group.value.value)
  {
  }

  /** The value itself: a task that has asked is held to the smallest of the three, one that has not to the group's. */
  lemma EffGetIsMinimum(req: Se, lim: Limits)
    ensures var asked := if lim.group.None? || (req.userDefined && req.value <= lim.group.value.value) then req
                         else lim.group.value;
      EffGet(req, lim) == if asked.value <= lim.system.value then asked else lim.system
  {
  }

  /** se holds what uclamp_se_set() stores for some clamp value. */
  predicate WasSet(se: Se, d: nat)
    requires d > 0
  { se.value <= SCALE && se.bucketId == BucketId(se.value, d) }

  /** ... and one of the n buckets is meant. */
  predicate SeOk(se: Se, n: nat, d: nat)
    requires d > 0
  { WasSet(se, d) && se.bucketId < n }

  lemma WasSetOk(se: Se, n: nat, d: nat)
    requires Geometry(n, d) && WasSet(se, d)
    ensures SeOk(se, n, d)
  { BucketInRange(se.value, n, d); }

  predicate LimitsSet(lim: Limits, d: nat)
    requires d > 0
  { WasSet(lim.system, d) && (lim.group.Some? ==> WasSet(lim.group.value, d)) }

  lemma EffGetOk(req: Se, lim: Limits, n: nat, d: nat)
    requires Geometry(n, d) && WasSet(req, d) && LimitsSet(lim, d)
    ensures SeOk(EffGet(req, lim), n, d)
  { WasSetOk(EffGet(req, lim), n, d); }

  // ---------------------------------------------------------------- the operations

  /** A clamp with one more task, of value v, in bucket b. */
  function Counted(c: Clamp, b: nat, v: nat, idle: bool): Clamp
    requires b < |c.buckets|
  {
    var k := c.buckets[b];
    var value := if idle then v else c.value;
    Clamp(c.buckets[b := Bucket(k.tasks + 1, if k.tasks == 0 || v > k.value then v else k.value)],
      if v > value then v else value)
  }

  predicate CanIncId(x: Both, id: ClampId, lim: Limits) {
    EffGet(x.task.req.Get(id), lim).bucketId < |x.rq.clamp.Get(id).buckets|
  }

  /** uclamp_rq_inc_id() */
  function IncId(x: Both, id: ClampId, lim: Limits): Both
    requires CanIncId(x, id, lim)
  {
    var se := EffGet(x.task.req.Get(id), lim).(active := true);
    Both(x.rq.(clamp := x.rq.clamp.Put(id, Counted(x.rq.clamp.Get(id), se.bucketId, se.value, x.rq.idle))),
      x.task.(eff := x.task.eff.Put(id, se)))
  }

  /** The top bucket with tasks in it among the first k. */
  function Top(buckets: seq<Bucket>, k: nat): (r: Option<nat>)
    requires k <= |buckets|
    ensures r.Some? ==> r.value < k && buckets[r.value].tasks > 0
    ensures forall j :: 0 <= j < k && (r.Some? ==> r.value < j) ==> buckets[j].tasks == 0
  {
    if k == 0 then None else if buckets[k - 1].tasks > 0 then Some(k - 1) else Top(buckets, k - 1)
  }

  /** uclamp_rq_max_value(), with uclamp_idle_value() when no task is left. */
  function MaxValue(buckets: seq<Bucket>, id: ClampId, v: nat): nat {
    var t := Top(buckets, |buckets|);
    if t.Some? then buckets[t.value].value else if id.MAX? then v else Unclamped(MIN)
  }

  /** The buckets with one task fewer in bucket b; a count of 0 stays 0. */
  function Fewer(buckets: seq<Bucket>, b: nat): (r: seq<Bucket>)
    requires b < |buckets|
    ensures |r| == |buckets|
  {
    if buckets[b].tasks > 0 then buckets[b := buckets[b].(tasks := buckets[b].tasks - 1)] else buckets
  }

  /** Taking a task out of bucket b makes the runqueue look for its clamp value again. */
  predicate Recomputes(c: Clamp, b: nat)
    requires b < |c.buckets|
  { Fewer(c.buckets, b)[b].tasks == 0 && c.buckets[b].value >= c.value }

  /** A clamp with one task, of value v, fewer in bucket b. */
  function Uncounted(c: Clamp, b: nat, v: nat, id: ClampId): Clamp
    requires b < |c.buckets|
  {
    var bs := Fewer(c.buckets, b);
    Clamp(bs, if Recomputes(c, b) then MaxValue(bs, id, v) else c.value)
  }

  /** Only the maximum clamp records that the runqueue went idle. */
  predicate TurnsIdle(c: Clamp, b: nat, id: ClampId)
    requires b < |c.buckets|
  { id.MAX? && Recomputes(c, b) && Top(Fewer(c.buckets, b), |c.buckets|).None? }

  /** The two SCHED_WARN_ON of uclamp_rq_dec_id(). */
  predicate DecWarns(c: Clamp, b: nat)
    requires b < |c.buckets|
  { c.buckets[b].tasks == 0 || (c.buckets[b].tasks == 1 && c.buckets[b].value > c.value) }

  predicate CanDecId(x: Both, id: ClampId) { x.task.eff.Get(id).bucketId < |x.rq.clamp.Get(id).buckets| }

  /** uclamp_rq_dec_id() */
  function DecId(x: Both, id: ClampId): Both
    requires CanDecId(x, id)
  {
    var se := x.task.eff.Get(id);
    var c := x.rq.clamp.Get(id);
    Both(RqClamps(x.rq.clamp.Put(id, Uncounted(c, se.bucketId, se.value, id)), x.rq.idle
      || TurnsIdle(c, se.bucketId, id)),
      x.task.(eff := x.task.eff.Put(id, se.(active := false))))
  }

  predicate CanInc(x: Both, lim: Limits) { CanIncId(x, MIN, lim) && CanIncId(x, MAX, lim) }

  /** uclamp_rq_inc() for a class that uses clamps. */
  function Inc(x: Both, lim: Limits): Both
    requires CanInc(x, lim)
  {
    var y := IncId(IncId(x, MIN, lim), MAX, lim);
    y.(rq := y.rq.(idle := false))
  }

  predicate CanDec(x: Both) { CanDecId(x, MIN) && CanDecId(x, MAX) }

  /** uclamp_rq_dec() for a class that uses clamps. */
  function Dec(x: Both): Both
    requires CanDec(x)
  { DecId(DecId(x, MIN), MAX) }

  // ---------------------------------------------------------------- the operations in place

  class TaskStruct {
    var req: Pair<Se>
    var eff: Pair<Se>
    ghost var on: nat

    ghost function View(): TaskClamp
      reads this
    { TaskClamp(req, eff, on) }
  }

  class RunQueue {
    const minBuckets: array<Bucket>
    const maxBuckets: array<Bucket>
    var minValue: nat
    var maxValue: nat
    var idle: bool

    ghost predicate Valid()
      reads this
    { minBuckets != maxBuckets && minBuckets.Length == maxBuckets.Length }

    ghost function View(): RqClamps
      reads this, minBuckets, maxBuckets
    { RqClamps(Pair(Clamp(minBuckets[..], minValue), Clamp(maxBuckets[..], maxValue)), idle) }

    ghost function With(p: TaskStruct): Both
      reads this, minBuckets, maxBuckets, p
    { Both(View(), p.View()) }

    /** init_uclamp() clears every runqueue. */
    constructor (n: nat)
      ensures Valid() && fresh(minBuckets) && fresh(maxBuckets) && View() == Fresh(n)
    {
      minBuckets := new Bucket[n](i => Bucket(0, 0));
      maxBuckets := new Bucket[n](i => Bucket(0, 0));
      minValue, maxValue, idle := 0, 0, false;
      new;
      assert minBuckets[..] == maxBuckets[..] == Fresh(n).clamp.min.buckets;
    }

    function BucketsOf(id: ClampId): array<Bucket>
    { if id.MIN? then minBuckets else maxBuckets }

    method SetValue(id: ClampId, v: nat)
      modifies this`minValue, this`maxValue
      ensures minValue == (if id.MIN? then v else old(minValue)) && maxValue == (if id.MAX? then v else old(maxValue))
    { if id.MIN? { minValue := v; } else { maxValue := v; } }

    function GetValue(id: ClampId): nat
      reads this
    { if id.MIN? then minValue else maxValue }

    method IncIdInPlace(p: TaskStruct, id: ClampId, lim: Limits)
      requires Valid() && CanIncId(With(p), id, lim)
      modifies this`minValue, this`maxValue, BucketsOf(id), p`eff
      ensures With(p) == IncId(old(With(p)), id, lim)
    {
      var se := EffGet(p.req.Get(id), lim).(active := true);
      p.eff := p.eff.Put(id, se);
      var bucket, b := BucketsOf(id), se.bucketId;
      bucket[b] := bucket[b].(tasks := bucket[b].tasks + 1);
      if idle { SetValue(id, se.value); }
      if bucket[b].tasks == 1 || se.value > bucket[b].value {
        bucket[b] := bucket[b].(value := se.value);
      }
      if se.value > GetValue(id) { SetValue(id, se.value); }
      assert bucket[..] == Counted(old(View()).clamp.Get(id), b, se.value, old(idle)).buckets;
    }

    /** uclamp_rq_max_value(): from the top bucket down. */
    method FindMax(id: ClampId, v: nat) returns (m: nat)
      requires Valid()
      modifies this`idle
      ensures m == MaxValue(BucketsOf(id)[..], id, v)
      ensures idle == (old(idle) || (id.MAX? && Top(BucketsOf(id)[..], BucketsOf(id).Length).None?))
    {
      var bucket := BucketsOf(id);
      var b := bucket.Length - 1;
      while b >= 0
        invariant -1 <= b < bucket.Length
        invariant Top(bucket[..], bucket.Length) == Top(bucket[..], b + 1) && idle == old(idle)
      {
        if bucket[b].tasks != 0 { return bucket[b].value; }
        b := b - 1;
      }
      if id.MAX? {
        idle := true;
        return v;
      }
      return Unclamped(MIN);
    }

    method DecIdInPlace(p: TaskStruct, id: ClampId) returns (warned: bool)
      requires Valid() && CanDecId(With(p), id)
      modifies this`minValue, this`maxValue, this`idle, BucketsOf(id), p`eff
      ensures With(p) == DecId(old(With(p)), id)
      ensures warned <==> DecWarns(old(View()).clamp.Get(id), old(p.eff).Get(id).bucketId)
    {
      var se := p.eff.Get(id);
      var bucket, b := BucketsOf(id), se.bucketId;
      warned := bucket[b].tasks == 0;
      if bucket[b].tasks != 0 { bucket[b] := bucket[b].(tasks := bucket[b].tasks - 1); }
      p.eff := p.eff.Put(id, se.(active := false));
      if bucket[b].tasks != 0 { return; }
      var rqClamp := GetValue(id);
      warned := warned || bucket[b].value > rqClamp;
      if bucket[b].value >= rqClamp {
        var m := FindMax(id, se.value);
        SetValue(id, m);
      }
    }

    /** uclamp_rq_inc(); `enabled` is p->sched_class->uclamp_enabled. */
    method IncInPlace(p: TaskStruct, enabled: bool, lim: Limits)
      requires Valid() && (enabled ==> CanInc(With(p), lim))
      modifies this, minBuckets, maxBuckets, p`eff
      ensures Valid() && With(p) == if enabled then Inc(old(With(p)), lim) else old(With(p))
    {
      if !enabled { return; }
      IncIdInPlace(p, MIN, lim);
      IncIdInPlace(p, MAX, lim);
      if idle { idle := false; }
    }

    /** uclamp_rq_dec() */
    method DecInPlace(p: TaskStruct, enabled: bool) returns (warned: bool)
      requires Valid() && (enabled ==> CanDec(With(p)))
      modifies this, minBuckets, maxBuckets, p`eff
      ensures Valid() && With(p) == if enabled then Dec(old(With(p))) else old(With(p))
      ensures !enabled ==> !warned
      ensures enabled ==> (warned <==> exists id :: DecWarns(old(View()).clamp.Get(id), old(p.eff).Get(id).bucketId))
    {
      if !enabled { return false; }
      var w := DecIdInPlace(p, MIN);
      warned := DecIdInPlace(p, MAX);
      warned := warned || w;
    }
  }

  /** A runqueue no task was ever counted on. */
  function Fresh(n: nat): RqClamps {
    var c := Clamp(seq(n, i => Bucket(0, 0)), 0);
    RqClamps(Pair(c, c), false)
  }
}
