/**
 * The idle flag that uclamp_update_active() can leave set on a runqueue in use: what the next enqueue then does to the
 * cached clamps, exactly when, and one run in which it happens.
 */
module UclampStale {
  import opened Wrappers
  import opened Uclamp
  import opened UclampRuns
  import opened UclampCache

  /** An active task and one that is not, and what restricts the clamps of both. */
  predicate TwoTasks(s: State, p: Tid, lim: Limits, q: Tid, lim': Limits, d: nat) {
    && d > 0 && p < |s.tasks| && Active(s.tasks[p]) && LimitsSet(lim, d)
    && q < |s.tasks| && !Active(s.tasks[q]) && LimitsSet(lim', d)
  }

  /** Clamp id of p is updated. */
  ghost function Updated(s: State, p: Tid, id: ClampId, lim: Limits, n: nat, d: nat): (f: State)
    requires Geometry(n, d) && Inv(s, n, d) && p < |s.tasks| && Active(s.tasks[p]) && LimitsSet(lim, d)
    ensures Sound(f, n, d) && On(f, p, s.tasks[p].on) && s.tasks[p].on < |f.rqs| && |f.tasks| == |s.tasks|
  {
    UpdateSound(s, p, id, lim, n, d);
    OnInUse(UpdateActive(s, p, id, lim), p, s.tasks[p].on, n, d);
    UpdateActive(s, p, id, lim)
  }

  /** And then q is enqueued on p's runqueue. */
  ghost function Joined(s: State, p: Tid, id: ClampId, lim: Limits, q: Tid, lim': Limits, n: nat, d: nat): (f: State)
    requires Geometry(n, d) && Inv(s, n, d) && TwoTasks(s, p, lim, q, lim', d)
    ensures Sound(f, n, d) && On(f, p, s.tasks[p].on) && s.tasks[p].on < |f.rqs|
  {
    EnqueueSound(Updated(s, p, id, lim, n, d), s.tasks[p].on, q, lim', n, d);
    EnqueueOn(Updated(s, p, id, lim, n, d), s.tasks[p].on, q, lim')
  }

  /** The update strands the flag, and for clamp j the task that joins asks for less than p. */
  ghost predicate Loses(s: State, p: Tid, id: ClampId, lim: Limits, q: Tid, lim': Limits, j: ClampId, n: nat, d: nat)
    requires Geometry(n, d) && Inv(s, n, d) && TwoTasks(s, p, lim, q, lim', d)
  {
    id.MAX? && Sole(s, p)
    && EffGet(s.tasks[q].req.Get(j), lim').value < Updated(s, p, id, lim, n, d).tasks[p].eff.Get(j).value
  }

  /** A dequeue of p from runqueue c would warn about clamp j. */
  ghost predicate Warns(s: State, p: Tid, c: nat, j: ClampId, n: nat, d: nat)
    requires Sound(s, n, d) && On(s, p, c)
  {
    OnInUse(s, p, c, n, d);
    DecWarns(s.rqs[c].clamp.Get(j), s.tasks[p].eff.Get(j).bucketId)
  }

  /** Nobody but p in its bucket, if p is alone. */
  lemma AloneInBucket(s: State, p: Tid, j: ClampId, n: nat, d: nat)
    requires Sound(s, n, d) && p < |s.tasks| && Active(s.tasks[p]) && Sole(s, p)
    ensures s.tasks[p].on < |s.rqs| && s.tasks[p].eff.Get(j).bucketId < |s.rqs[s.tasks[p].on].clamp.Get(j).buckets|
    ensures s.rqs[s.tasks[p].on].clamp.Get(j).buckets[s.tasks[p].eff.Get(j).bucketId].tasks == 1
  {
    var c, b := s.tasks[p].on, s.tasks[p].eff.Get(j).bucketId;
    OnInUse(s, p, c, n, d);
    assert RqSound(s, c, n, d);
    forall q: Tid | q in Members(s.tasks, c, j, b) ensures q == p {
      assert TaskOk(s.tasks[q], |s.rqs|, n, d) && On(s, q, c);
    }
    assert p in Members(s.tasks, c, j, b);
    assert Members(s.tasks, c, j, b) == {p};
  }

  lemma JoinedClamp(s1: State, c: nat, q: Tid, lim: Limits, j: ClampId)
    requires c < |s1.rqs| && q < |s1.tasks| && CanInc(Both(s1.rqs[c], s1.tasks[q]), lim)
    ensures var v := EffGet(s1.tasks[q].req.Get(j), lim);
      && v.bucketId < |s1.rqs[c].clamp.Get(j).buckets|
      && EnqueueOn(s1, c, q, lim).rqs[c].clamp.Get(j)
        == Counted(s1.rqs[c].clamp.Get(j), v.bucketId, v.value, s1.rqs[c].idle)
  {
  }

  /** A task that joins with the flag set replaces the cached clamp by its own. */
  lemma StrandedJoin(s1: State, p: Tid, c: nat, q: Tid, lim: Limits, j: ClampId, n: nat, d: nat)
    requires Sound(s1, n, d) && On(s1, p, c) && Sole(s1, p) && c < |s1.rqs| && s1.rqs[c].idle
    requires q < |s1.tasks| && !Active(s1.tasks[q]) && CanInc(Both(s1.rqs[c], s1.tasks[q]), lim)
    requires SeOk(EffGet(s1.tasks[q].req.Get(j), lim), n, d) && Sound(EnqueueOn(s1, c, q, lim), n, d)
    ensures var f, v := EnqueueOn(s1, c, q, lim), EffGet(s1.tasks[q].req.Get(j), lim);
      && On(f, p, c) && f.rqs[c].clamp.Get(j).value == v.value
      && (Warns(f, p, c, j, n, d) <==> v.bucketId < s1.tasks[p].eff.Get(j).bucketId)
  {
    AloneInBucket(s1, p, j, n, d);
    JoinedClamp(s1, c, q, lim, j);
    assert RqSound(s1, c, n, d);
    JoinWarns(s1.rqs[c].clamp.Get(j), s1.tasks[p].eff.Get(j).bucketId, EffGet(s1.tasks[q].req.Get(j), lim), n, d);
  }

  /** The bucket b of one task against the clamp v of another, on a clamp that forgot its value. */
  lemma JoinWarns(cl: Clamp, b: nat, v: Se, n: nat, d: nat)
    requires d > 0 && b < |cl.buckets| == n && cl.buckets[b].tasks == 1 && RangeOk(cl.buckets, d) && SeOk(v, n, d)
    ensures DecWarns(Counted(cl, v.bucketId, v.value, true), b) <==> v.bucketId < b
  {
    var w := cl.buckets[b].value;
    if v.bucketId < b { LowerBucketIsSmaller(v.value, w, d); }
    if b < v.bucketId { LowerBucketIsSmaller(w, v.value, d); }
  }

  /** The runqueue of p after the update and the enqueue, in either case. */
  ghost predicate JoinedRight(
    s: State, p: Tid, id: ClampId, lim: Limits, q: Tid, lim': Limits, j: ClampId, n: nat, d: nat)
    requires Geometry(n, d) && Inv(s, n, d) && TwoTasks(s, p, lim, q, lim', d)
  {
    var f, c := Joined(s, p, id, lim, q, lim', n, d), s.tasks[p].on;
    && (f.rqs[c].clamp.Get(j).value < f.tasks[p].eff.Get(j).value <==> Loses(s, p, id, lim, q, lim', j, n, d))
    && (Warns(f, p, c, j, n, d) <==>
      id.MAX? && Sole(s, p) && EffGet(s.tasks[q].req.Get(j), lim').bucketId < f.tasks[p].eff.Get(j).bucketId)
  }

  lemma JoinedFrames(s: State, p: Tid, id: ClampId, lim: Limits, q: Tid, lim': Limits, n: nat, d: nat)
    requires Geometry(n, d) && Inv(s, n, d) && TwoTasks(s, p, lim, q, lim', d)
    ensures Updated(s, p, id, lim, n, d).tasks[q] == s.tasks[q]
    ensures Joined(s, p, id, lim, q, lim', n, d).tasks[p] == Updated(s, p, id, lim, n, d).tasks[p]
  {
  }

  /** What the update of the lone task p leaves for the enqueue. */
  lemma UpdatedStranded(s: State, p: Tid, lim: Limits, n: nat, d: nat)
    requires Geometry(n, d) && Inv(s, n, d) && p < |s.tasks| && Active(s.tasks[p]) && LimitsSet(lim, d) && Sole(s, p)
    ensures var s1 := Updated(s, p, MAX, lim, n, d); s1.rqs[s.tasks[p].on].idle && Sole(s1, p)
  {
    UpdateKeepsInvariant(s, p, MAX, lim, n, d);
    var s1 := Updated(s, p, MAX, lim, n, d);
    forall r: Tid | On(s1, r, s1.tasks[p].on) ensures r == p { assert On(s, r, s.tasks[p].on); }
  }

  lemma StrandedCase(s: State, p: Tid, lim: Limits, q: Tid, lim': Limits, j: ClampId, n: nat, d: nat)
    requires Geometry(n, d) && Inv(s, n, d) && TwoTasks(s, p, lim, q, lim', d) && Sole(s, p)
    ensures JoinedRight(s, p, MAX, lim, q, lim', j, n, d)
  {
    var s1, c := Updated(s, p, MAX, lim, n, d), s.tasks[p].on;
    UpdatedStranded(s, p, lim, n, d);
    JoinedFrames(s, p, MAX, lim, q, lim', n, d);
    CanEnqueue(s1, c, q, lim', n, d);
    var f := Joined(s, p, MAX, lim, q, lim', n, d);
    assert f == EnqueueOn(s1, c, q, lim');
    StrandedJoin(s1, p, c, q, lim', j, n, d);
  }

  lemma CalmCase(s: State, p: Tid, id: ClampId, lim: Limits, q: Tid, lim': Limits, j: ClampId, n: nat, d: nat)
    requires Geometry(n, d) && Inv(s, n, d) && TwoTasks(s, p, lim, q, lim', d) && !(id.MAX? && Sole(s, p))
    ensures JoinedRight(s, p, id, lim, q, lim', j, n, d)
  {
    var s1, c := Updated(s, p, id, lim, n, d), s.tasks[p].on;
    UpdateKeepsInvariant(s, p, id, lim, n, d);
    StepInv(s1, Enqueue(c, q, true, lim'), n, d);
    var f := Joined(s, p, id, lim, q, lim', n, d);
    OnMember(f, c, j, p, n, d);
    DequeueSound(f, p, n, d);
    DequeueCached(f, p, n, d);
  }

  /**
   * What an update and the enqueue after it do to the clamps of a runqueue whose clamps were right: the cached clamp
   * ends below that of the active task p exactly when the update was of the maximum clamp of p, alone on its
   * runqueue, and the task that joined asks for less; a dequeue of p would then warn exactly when it asks for so much
   * less that its bucket is a lower one.
   */
  lemma UpdateThenEnqueue(s: State, p: Tid, id: ClampId, lim: Limits, q: Tid, lim': Limits, j: ClampId, n: nat, d: nat)
    requires Geometry(n, d) && Inv(s, n, d) && TwoTasks(s, p, lim, q, lim', d)
    ensures JoinedRight(s, p, id, lim, q, lim', j, n, d)
  {
    if id.MAX? && Sole(s, p) {
      StrandedCase(s, p, lim, q, lim', j, n, d);
    } else {
      CalmCase(s, p, id, lim, q, lim', j, n, d);
    }
  }

  // ---------------------------------------------------------------- one run

  const ANY: Limits := Limits(None, Se(1024, 4, false, false))

  /** Five buckets: the first task is enqueued and updated alone; a child that asks for at most 100 joins it. */
  const LOSING_RUN: seq<Event> := [
    Enqueue(0, 0, true, ANY), Update(0, MAX, ANY), Fork(0, false),
    Request(1, Pair(Se(0, 0, false, false), Se(100, 0, false, true))), Enqueue(0, 1, true, ANY)]

  /** What the first two events leave: one task, at 1024, on a runqueue marked idle. */
  predicate Stranded(s: State) {
    && |s.rqs| == |s.tasks| == 1 && s.rqs[0].idle && Active(s.tasks[0]) && s.tasks[0].on == 0
    && s.tasks[0].eff.max == Se(1024, 4, true, false)
  }

  /** The maximum clamp of the runqueue is 100, with a task on it that may run at 1024, whose dequeue would warn. */
  ghost predicate Lost(s: State) {
    && Sound(s, 5, 205) && On(s, 0, 0) && |s.rqs| == 1
    && s.tasks[0].eff.max.value == 1024 && s.rqs[0].clamp.max.value == 100 && Warns(s, 0, 0, MAX, 5, 205)
  }

  lemma LosingTail(s2: State)
    requires Sound(s2, 5, 205) && Stranded(s2)
    ensures ValidRun(s2, LOSING_RUN[2..], 5, 205) && Lost(Final(s2, LOSING_RUN[2..], 5, 205))
  {
    var e := LOSING_RUN;
    StepSound(s2, e[2], 5, 205);
    var s3 := Apply(s2, e[2], 5, 205);
    StepSound(s3, e[3], 5, 205);
    var s4 := Apply(s3, e[3], 5, 205);
    StepSound(s4, e[4], 5, 205);
    var s5 := Apply(s4, e[4], 5, 205);
    assert Sole(s4, 0) && s4.tasks[1].req.max == Se(100, 0, false, true);
    CanEnqueue(s4, 0, 1, ANY, 5, 205);
    StrandedJoin(s4, 0, 0, 1, ANY, MAX, 5, 205);
    RunCons(s4, e[4], s5, [], 5, 205);
    RunCons(s3, e[3], s4, [e[4]], 5, 205);
    RunCons(s2, e[2], s3, [e[3], e[4]], 5, 205);
    assert e[2..] == [e[2]] + ([e[3]] + ([e[4]] + []));
  }

  lemma LosingHead()
    ensures Sound(Init(1, 5, 205), 5, 205) && Enabled(Init(1, 5, 205), LOSING_RUN[0], 205)
    ensures var s1 := Apply(Init(1, 5, 205), LOSING_RUN[0], 5, 205);
      && Sound(s1, 5, 205) && Enabled(s1, LOSING_RUN[1], 205)
      && Sound(Apply(s1, LOSING_RUN[1], 5, 205), 5, 205) && Stranded(Apply(s1, LOSING_RUN[1], 5, 205))
  {
    InitSound(1, 5, 205);
    var s0, e := Init(1, 5, 205), LOSING_RUN;
    StepSound(s0, e[0], 5, 205);
    var s1 := Apply(s0, e[0], 5, 205);
    InitCached(s0);
    StepInv(s0, e[0], 5, 205);
    StepSound(s1, e[1], 5, 205);
    UpdateKeepsInvariant(s1, 0, MAX, ANY, 5, 205);
  }

  /** In the run of uclamp operations above, the runqueue ends with a maximum clamp below that of its task. */
  lemma LosingRun()
    ensures Geometry(5, 205) && Run(1, 5, 205, LOSING_RUN) && Lost(End(1, 5, 205, LOSING_RUN))
  {
    LosingHead();
    var s0, e := Init(1, 5, 205), LOSING_RUN;
    var s1 := Apply(s0, e[0], 5, 205);
    var s2 := Apply(s1, e[1], 5, 205);
    LosingTail(s2);
    RunCons(s1, e[1], s2, e[2..], 5, 205);
    RunCons(s0, e[0], s1, [e[1]] + e[2..], 5, 205);
    assert e == [e[0]] + ([e[1]] + e[2..]);
  }

  lemma RunCons(s: State, e: Event, s': State, es: seq<Event>, n: nat, d: nat)
    requires Geometry(n, d) && Sound(s, n, d) && Enabled(s, e, d) && s' == Apply(s, e, n, d)
    requires Sound(s', n, d) && ValidRun(s', es, n, d)
    ensures ValidRun(s, [e] + es, n, d) && Final(s, [e] + es, n, d) == Final(s', es, n, d)
  {
    assert ([e] + es)[1..] == es;
  }
}
