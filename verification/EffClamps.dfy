/**
 * Effective utilization clamps of task groups: a pre-order walk that skips the subtree of every group it leaves
 * unchanged, against recomputing every group.
 */
module EffClamps {
  import opened Wrappers
  import opened GroupTree
  import Uclamp

  /** The minimum and maximum clamp of a group, requested or effective. */
  datatype Vals = Vals(min: nat, max: nat)

  /** What a new group asks for. */
  const UNRESTRICTED: Vals := Vals(Uclamp.Unclamped(Uclamp.MIN), Uclamp.Unclamped(Uclamp.MAX))

  function Lower(a: nat, b: nat): nat { if a <= b then a else b }

  /** The effective clamps of a group with this request below a group with those effective clamps, if below any. */
  function Cap(req: Vals, parent: Option<Vals>): Vals {
    var min := if parent.Some? && req.min > parent.value.min then parent.value.min else req.min;
    var max := if parent.Some? && req.max > parent.value.max then parent.value.max else req.max;
    Vals(Lower(min, max), max)
  }

  function Above(t: Tree, eff: seq<Vals>, g: nat): Option<Vals>
    requires WellFormed(t) && |eff| == |t| && g < |t|
  {
    assert GroupOk(t, g);
    if t[g].parent.Some? then Some(eff[t[g].parent.value]) else None
  }

  /** The effective clamps of g follow from its request and its parent's effective clamps. */
  predicate Consistent(t: Tree, req: seq<Vals>, eff: seq<Vals>, g: nat)
    requires WellFormed(t) && |req| == |eff| == |t| && g < |t|
  { eff[g] == Cap(req[g], Above(t, eff, g)) }

  predicate AllConsistent(t: Tree, req: seq<Vals>, eff: seq<Vals>)
    requires WellFormed(t) && |req| == |eff| == |t|
  { forall g :: 0 <= g < |t| ==> Consistent(t, req, eff, g) }

  // ---------------------------------------------------------------- the full recomputation

  /** The effective clamps of g computed from the requests alone, from the root down. */
  function Full(t: Tree, req: seq<Vals>, g: nat): Vals
    requires WellFormed(t) && |req| == |t| && g < |t|
    decreases g
  {
    assert GroupOk(t, g);
    Cap(req[g], if g == 0 then None else Some(Full(t, req, t[g].parent.value)))
  }

  lemma {:induction false} ConsistentIsFull(t: Tree, req: seq<Vals>, eff: seq<Vals>, g: nat)
    requires WellFormed(t) && |req| == |eff| == |t| && g < |t| && AllConsistent(t, req, eff)
    ensures eff[g] == Full(t, req, g)
    decreases g
  {
    assert GroupOk(t, g) && Consistent(t, req, eff, g);
    if g > 0 { ConsistentIsFull(t, req, eff, t[g].parent.value); }
  }

  /** The minimum never exceeds the maximum, and neither exceeds the parent's. */
  lemma FullIsCapped(t: Tree, req: seq<Vals>, g: nat)
    requires WellFormed(t) && |req| == |t| && g < |t|
    ensures var e := Full(t, req, g);
      && e.min <= e.max
      && (g > 0 ==> GroupOk(t, g) && var p := Full(t, req, t[g].parent.value); e.min <= p.min && e.max <= p.max)
  {
    assert GroupOk(t, g);
  }

  /**
   * What the walk computes, without a walk: the effective maximum is the smallest maximum requested on the way up
   * to the root, the effective minimum the smallest request of either kind.
   */
  lemma {:induction false} FullIsPathMinimum(t: Tree, req: seq<Vals>, g: nat)
    requires WellFormed(t) && |req| == |t| && g < |t|
    ensures var e := Full(t, req, g);
      && (forall a: nat :: a < |t| && Under(t, a, g) ==> e.max <= req[a].max && e.min <= Lower(req[a].min, req[a].max))
      && (exists a: nat :: a < |t| && Under(t, a, g) && e.max == req[a].max)
      && (exists a: nat :: a < |t| && Under(t, a, g) && e.min == Lower(req[a].min, req[a].max))
    decreases g
  {
    assert GroupOk(t, g) && Under(t, g, g);
    if g > 0 {
      var p := t[g].parent.value;
      FullIsPathMinimum(t, req, p);
      FullIsCapped(t, req, p);
      var e, pe := Full(t, req, g), Full(t, req, p);
      var a: nat :| a < |t| && Under(t, a, p) && pe.max == req[a].max;
      var b: nat :| b < |t| && Under(t, b, p) && pe.min == Lower(req[b].min, req[b].max);
      assert Under(t, a, g) && Under(t, b, g);
    }
  }

  // ---------------------------------------------------------------- pre-order with skipping

  /** css_rightmost_descendant() */
  function Rightmost(t: Tree, x: nat): (r: nat)
    requires WellFormed(t) && x < |t|
    ensures r < |t| && |t[r].children| == 0
    decreases |t| - x
  {
    assert GroupOk(t, x);
    if |t[x].children| == 0 then x else Rightmost(t, t[x].children[|t[x].children| - 1])
  }

  /** The group that follows x and everything below it, within the subtree of top. */
  function NextAfter(t: Tree, top: nat, x: nat): (r: Option<nat>)
    requires WellFormed(t) && top < |t| && x < |t| && Under(t, top, x)
    ensures r.Some? ==> r.value < |t|
    decreases x
  {
    assert GroupOk(t, x);
    if x == top then None
    else if NextSibling(t, x).Some? then NextSibling(t, x)
    else NextAfter(t, top, t[x].parent.value)
  }

  /** css_next_descendant_pre() */
  function NextPre(t: Tree, top: nat, x: nat): (r: Option<nat>)
    requires WellFormed(t) && top < |t| && x < |t| && Under(t, top, x)
    ensures r.Some? ==> r.value < |t|
  {
    assert GroupOk(t, x);
    if |t[x].children| > 0 then Some(t[x].children[0]) else NextAfter(t, top, x)
  }

  /** g comes after x and everything below it. */
  ghost predicate Later(t: Tree, top: nat, x: nat, g: nat)
    requires WellFormed(t) && top < |t| && x < |t| && g < |t| && Under(t, top, x)
    decreases x
  {
    x != top &&
    (assert GroupOk(t, x);
     var p := t[x].parent.value;
     UnderChildFrom(t, p, Position(t[p].children, x) + 1, g) || Later(t, top, p, g))
  }

  /** A walk that has come to x has g still to come, or is at g. */
  ghost predicate ToCome(t: Tree, top: nat, x: nat, g: nat)
    requires WellFormed(t) && top < |t| && x < |t| && g < |t| && Under(t, top, x)
  { Under(t, x, g) || Later(t, top, x, g) }

  lemma ChildrenToCome(t: Tree, top: nat, x: nat, g: nat)
    requires WellFormed(t) && top < |t| && x < |t| && g < |t| && Under(t, top, x) && |t[x].children| > 0
    ensures var c := t[x].children[0];
      c < |t| && Under(t, top, c) && (ToCome(t, top, c, g) <==> g != x && ToCome(t, top, x, g))
  {
    var c := t[x].children[0];
    assert GroupOk(t, x) && GroupOk(t, c);
    UnderIsLater(t, top, x);
    PositionUnique(t[x].children, 0);
    UnderSplits(t, x, g);
    LaterIsApart(t, top, x, g);
    assert UnderChildFrom(t, x, 0, g) <==> Under(t, c, g) || UnderChildFrom(t, x, 1, g);
  }

  /** What comes later is neither above nor below. */
  lemma {:induction false} LaterIsApart(t: Tree, top: nat, x: nat, g: nat)
    requires WellFormed(t) && top < |t| && x < |t| && g < |t| && Under(t, top, x)
    ensures Later(t, top, x, g) ==> !Under(t, x, g) && !Under(t, g, x) && Under(t, top, g)
    decreases x
  {
    assert GroupOk(t, x);
    if x != top && Later(t, top, x, g) {
      var p := t[x].parent.value;
      assert GroupOk(t, p);
      var i := Position(t[p].children, x);
      if UnderChildFrom(t, p, i + 1, g) {
        var j :| i + 1 <= j < |t[p].children| && t[p].children[j] < |t| && Under(t, t[p].children[j], g);
        SiblingApart(t, p, i, j, g);
        UnderTrans(t, top, p, t[p].children[j]);
        UnderTrans(t, top, t[p].children[j], g);
      } else {
        LaterIsApart(t, top, p, g);
        if Under(t, x, g) { UnderTrans(t, p, x, g); }
      }
    }
  }

  lemma SiblingApart(t: Tree, p: nat, i: nat, j: nat, g: nat)
    requires WellFormed(t) && p < |t| && i < j < |t[p].children| && g < |t|
    requires t[p].children[i] < |t| && t[p].children[j] < |t| && Under(t, t[p].children[j], g)
    ensures !Under(t, t[p].children[i], g) && !Under(t, g, t[p].children[i])
  {
    assert GroupOk(t, p);
    var x, y := t[p].children[i], t[p].children[j];
    if Under(t, x, g) { OneChildAbove(t, p, i, j, g); }
    if Under(t, g, x) {
      UnderTrans(t, y, g, x);
      assert Under(t, x, x);
      OneChildAbove(t, p, i, j, x);
    }
  }

  /** After x and its subtree the walk goes on with exactly what comes later. */
  lemma {:induction false} SkippedToCome(t: Tree, top: nat, x: nat, g: nat)
    requires WellFormed(t) && top < |t| && x < |t| && g < |t| && Under(t, top, x)
    ensures match NextAfter(t, top, x)
      case Some(y) => Under(t, top, y) && (ToCome(t, top, y, g) <==> Later(t, top, x, g))
      case None => !Later(t, top, x, g)
    decreases x
  {
    assert GroupOk(t, x);
    if x != top {
      var p := t[x].parent.value;
      assert GroupOk(t, p);
      var i := Position(t[p].children, x) + 1;
      if i < |t[p].children| {
        var y := t[p].children[i];
        assert GroupOk(t, y);
        PositionUnique(t[p].children, i);
        UnderIsLater(t, top, p);
        assert UnderChildFrom(t, p, i, g) <==> Under(t, y, g) || UnderChildFrom(t, p, i + 1, g);
      } else {
        assert !UnderChildFrom(t, p, i, g);
        SkippedToCome(t, top, p, g);
      }
    }
  }

  /** Skipping to the rightmost descendant and going on from there skips exactly the subtree. */
  lemma {:induction false} RightmostSkips(t: Tree, top: nat, x: nat)
    requires WellFormed(t) && top < |t| && x < |t| && Under(t, top, x)
    ensures Under(t, top, Rightmost(t, x)) && NextPre(t, top, Rightmost(t, x)) == NextAfter(t, top, x)
    decreases |t| - x
  {
    assert GroupOk(t, x);
    var n := |t[x].children|;
    if n > 0 {
      var c := t[x].children[n - 1];
      assert GroupOk(t, c);
      PositionUnique(t[x].children, n - 1);
      UnderIsLater(t, top, x);
      RightmostSkips(t, top, c);
    }
  }

  // ---------------------------------------------------------------- the walk

  ghost function Todo(t: Tree, top: nat, css: Option<nat>): set<nat>
    requires WellFormed(t) && top < |t| && (css.Some? ==> css.value < |t| && Under(t, top, css.value))
  { set g: nat | g < |t| && css.Some? && ToCome(t, top, css.value, g) }

  ghost function Subtree(t: Tree, x: nat): set<nat>
    requires WellFormed(t) && x < |t|
  { set g: nat | g < |t| && Under(t, x, g) }

  /** Only a group still to come whose parent has been passed can be inconsistent. */
  ghost predicate OnlyFrontier(t: Tree, req: seq<Vals>, eff: seq<Vals>, todo: set<nat>)
    requires WellFormed(t) && |req| == |eff| == |t|
  {
    forall g :: 0 <= g < |t| ==>
      (g in todo ==> GroupOk(t, g) && g > 0 && t[g].parent.value in todo) ==> Consistent(t, req, eff, g)
  }

  lemma HereAndBelow(t: Tree, top: nat, x: nat)
    requires WellFormed(t) && top < |t| && x < |t| && Under(t, top, x)
    ensures x in Todo(t, top, Some(x)) && Subtree(t, x) <= Todo(t, top, Some(x)) <= Subtree(t, top)
    ensures x > 0 ==> GroupOk(t, x) && t[x].parent.value !in Todo(t, top, Some(x))
  {
    forall g: nat | g in Todo(t, top, Some(x)) ensures Under(t, top, g) {
      LaterIsApart(t, top, x, g);
      if Under(t, x, g) { UnderTrans(t, top, x, g); }
    }
    assert GroupOk(t, x);
    if x > 0 {
      var p := t[x].parent.value;
      LaterIsApart(t, top, x, p);
      assert Under(t, p, p) && Under(t, p, x);
      if Under(t, x, p) { UnderIsLater(t, x, p); }
    }
  }

  lemma NextTodo(t: Tree, top: nat, x: nat)
    requires WellFormed(t) && top < |t| && x < |t| && Under(t, top, x)
    ensures var n := NextPre(t, top, x);
      (n.Some? ==> Under(t, top, n.value)) && Todo(t, top, n) == Todo(t, top, Some(x)) - {x}
  {
    assert GroupOk(t, x);
    var n := NextPre(t, top, x);
    if |t[x].children| > 0 {
      forall g: nat | g < |t|
        ensures Under(t, top, n.value) && (ToCome(t, top, n.value, g) <==> g != x && ToCome(t, top, x, g))
      {
        ChildrenToCome(t, top, x, g);
      }
      ChildrenToCome(t, top, x, x);
    } else {
      SkippedTodo(t, top, x);
      forall g: nat | g < |t| ensures Under(t, x, g) <==> g == x { UnderSplits(t, x, g); }
      assert Subtree(t, x) == {x};
    }
  }

  lemma SkippedTodo(t: Tree, top: nat, x: nat)
    requires WellFormed(t) && top < |t| && x < |t| && Under(t, top, x)
    ensures var n := NextAfter(t, top, x);
      (n.Some? ==> Under(t, top, n.value)) && Todo(t, top, n) == Todo(t, top, Some(x)) - Subtree(t, x)
  {
    var n := NextAfter(t, top, x);
    SkippedToCome(t, top, x, x);
    forall g: nat | g < |t| ensures g in Todo(t, top, n) <==> g in Todo(t, top, Some(x)) - Subtree(t, x) {
      SkippedToCome(t, top, x, g);
      LaterIsApart(t, top, x, g);
    }
  }

  lemma StartFrontier(t: Tree, req: seq<Vals>, eff: seq<Vals>, top: nat)
    requires WellFormed(t) && |req| == |eff| == |t| && top < |t|
    requires forall g :: 0 <= g < |t| && g != top ==> Consistent(t, req, eff, g)
    ensures OnlyFrontier(t, req, eff, Todo(t, top, Some(top)))
  {
    HereAndBelow(t, top, top);
  }

  /** Recomputing x moves the frontier to its children. */
  lemma RecomputedFrontier(t: Tree, req: seq<Vals>, eff: seq<Vals>, todo: set<nat>, x: nat)
    requires WellFormed(t) && |req| == |eff| == |t| && x < |t| && OnlyFrontier(t, req, eff, todo)
    requires x in todo && Subtree(t, x) <= todo && (x > 0 ==> GroupOk(t, x) && t[x].parent.value !in todo)
    ensures OnlyFrontier(t, req, eff[x := Cap(req[x], Above(t, eff, x))], todo - {x})
  {
    var eff', below := eff[x := Cap(req[x], Above(t, eff, x))], Subtree(t, x);
    forall g | 0 <= g < |t| && (g in todo - {x} ==> GroupOk(t, g) && g > 0 && t[g].parent.value in todo - {x})
      ensures Consistent(t, req, eff', g)
    {
      assert GroupOk(t, g) && Under(t, x, x);
      if g != x {
        assert Consistent(t, req, eff, g);
        assert g > 0 && t[g].parent.value == x ==> g in below;
      }
    }
  }

  /** If x does not change, nothing below it is inconsistent. */
  lemma SkippedFrontier(t: Tree, req: seq<Vals>, eff: seq<Vals>, todo: set<nat>, x: nat)
    requires WellFormed(t) && |req| == |eff| == |t| && x < |t| && OnlyFrontier(t, req, eff, todo)
    requires Subtree(t, x) <= todo && Consistent(t, req, eff, x)
    ensures OnlyFrontier(t, req, eff, todo - Subtree(t, x))
  {
    forall g | 0 <= g < |t| && g in Subtree(t, x) ensures Consistent(t, req, eff, g) {
      assert GroupOk(t, g);
      if g != x { assert t[g].parent.value in Subtree(t, x); }
    }
  }

  /** A call of uclamp_update_active_tasks(): the group and its mask of clamp ids. */
  datatype Notice = Notice(g: nat, min: bool, max: bool)

  /** The notices name each group that changed, once, with exactly the clamps that changed. */
  predicate NoticesOk(notices: seq<Notice>, eff0: seq<Vals>, eff: seq<Vals>)
    requires |eff0| == |eff|
  {
    && (forall i :: 0 <= i < |notices| ==> var k := notices[i];
      k.g < |eff| && (k.min <==> eff[k.g].min != eff0[k.g].min) && (k.max <==> eff[k.g].max != eff0[k.g].max))
    && (forall i, j :: 0 <= i < j < |notices| ==> notices[i].g != notices[j].g)
    && (forall g :: 0 <= g < |eff| ==> (eff[g] != eff0[g] <==> exists i :: 0 <= i < |notices| && notices[i].g == g))
  }

  lemma NoticesGrow(notices: seq<Notice>, eff0: seq<Vals>, eff: seq<Vals>, x: nat, e: Vals)
    requires |eff0| == |eff| && x < |eff| && eff[x] == eff0[x] && e != eff[x] && NoticesOk(notices, eff0, eff)
    ensures NoticesOk(notices + [Notice(x, e.min != eff[x].min, e.max != eff[x].max)], eff0, eff[x := e])
  {
    var more, eff' := notices + [Notice(x, e.min != eff[x].min, e.max != eff[x].max)], eff[x := e];
    forall g | 0 <= g < |eff'| ensures eff'[g] != eff0[g] <==> exists i :: 0 <= i < |more| && more[i].g == g {
      if g == x {
        assert more[|notices|].g == x;
      } else if i :| 0 <= i < |notices| && notices[i].g == g {
        assert more[i].g == g;
      }
    }
  }

  /** What holds when the walk from top has come to css: nothing to come has been touched. */
  ghost predicate WalkOk(t: Tree, req: seq<Vals>, eff0: seq<Vals>, eff: seq<Vals>, top: nat, css: Option<nat>,
      notices: seq<Notice>)
    requires WellFormed(t) && |req| == |eff0| == |eff| == |t| && top < |t|
  {
    && (css.Some? ==> css.value < |t| && Under(t, top, css.value))
    && OnlyFrontier(t, req, eff, Todo(t, top, css)) && NoticesOk(notices, eff0, eff)
    && (forall g :: 0 <= g < |t| ==> (Under(t, top, g) ==> g in Todo(t, top, css)) ==> eff[g] == eff0[g])
  }

  lemma WalkChanged(t: Tree, req: seq<Vals>, eff0: seq<Vals>, eff: seq<Vals>, top: nat, x: nat, notices: seq<Notice>)
    requires WellFormed(t) && |req| == |eff0| == |eff| == |t| && top < |t| && x < |t|
    requires WalkOk(t, req, eff0, eff, top, Some(x), notices) && Cap(req[x], Above(t, eff, x)) != eff[x]
    ensures var e := Cap(req[x], Above(t, eff, x));
      WalkOk(t, req, eff0, eff[x := e], top, NextPre(t, top, x),
        notices + [Notice(x, e.min != eff[x].min, e.max != eff[x].max)])
  {
    HereAndBelow(t, top, x);
    RecomputedFrontier(t, req, eff, Todo(t, top, Some(x)), x);
    NextTodo(t, top, x);
    NoticesGrow(notices, eff0, eff, x, Cap(req[x], Above(t, eff, x)));
  }

  lemma WalkSame(t: Tree, req: seq<Vals>, eff0: seq<Vals>, eff: seq<Vals>, top: nat, x: nat, notices: seq<Notice>)
    requires WellFormed(t) && |req| == |eff0| == |eff| == |t| && top < |t| && x < |t|
    requires WalkOk(t, req, eff0, eff, top, Some(x), notices) && Consistent(t, req, eff, x)
    ensures WalkOk(t, req, eff0, eff, top, NextAfter(t, top, x), notices)
  {
    HereAndBelow(t, top, x);
    SkippedFrontier(t, req, eff, Todo(t, top, Some(x)), x);
    SkippedTodo(t, top, x);
  }

  /** The buckets of a pair of clamps, with buckets d wide. */
  function Buckets(e: Vals, d: nat): Vals
    requires d > 0
  { Vals(Uclamp.BucketId(e.min, d), Uclamp.BucketId(e.max, d)) }

  class Groups {
    const d: nat              // UCLAMP_BUCKET_DELTA
    var tree: Tree
    var req: seq<Vals>
    var eff: seq<Vals>
    var ids: seq<Vals>        // the bucket_id beside each effective value

    predicate Shaped()
      reads this
    { WellFormed(tree) && |req| == |eff| == |ids| == |tree| && d > 0 }

    /** Every effective value has its bucket beside it, which only a change of the value recomputes. */
    predicate InBuckets()
      reads this
      requires Shaped()
    { forall g :: 0 <= g < |tree| ==> ids[g].min == eff[g].min / d && ids[g].max == eff[g].max / d }

    /** Every group's effective clamps are those of the full recomputation. */
    ghost predicate Valid()
      reads this
    { Shaped() && InBuckets() && forall g :: 0 <= g < |tree| ==> eff[g] == Full(tree, req, g) }

    /**
     * cpu_util_update_eff(): with the tree consistent but for the request of `top`, every group ends with the
     * clamps of the full recomputation, nothing outside the subtree changes, and exactly the tasks of the groups
     * that changed are updated.
     */
    method UpdateEff(top: nat) returns (notices: seq<Notice>)
      requires Shaped() && InBuckets() && top < |tree|
      requires forall g :: 0 <= g < |tree| && g != top ==> Consistent(tree, req, eff, g)
      modifies this`eff, this`ids
      ensures Valid()
      ensures forall g :: 0 <= g < |tree| && !Under(tree, top, g) ==> eff[g] == old(eff)[g]
      ensures NoticesOk(notices, old(eff), eff)
    {
      var css: Option<nat> := Some(top);
      notices := [];
      StartFrontier(tree, req, eff, top);
      while css.Some?
        invariant Shaped() && InBuckets() && WalkOk(tree, req, old(eff), eff, top, css, notices)
        decreases Todo(tree, top, css)
      {
        var x := css.value;
        HereAndBelow(tree, top, x);
        var e := Cap(req[x], Above(tree, eff, x));
        var min, max := e.min != eff[x].min, e.max != eff[x].max;
        if min || max {
          WalkChanged(tree, req, old(eff), eff, top, x, notices);
          NextTodo(tree, top, x);
          StoreEff(x, e, min, max);
          notices := notices + [Notice(x, min, max)];
          css := NextPre(tree, top, x);
        } else {
          WalkSame(tree, req, old(eff), eff, top, x, notices);
          SkippedTodo(tree, top, x);
          RightmostSkips(tree, top, x);
          css := NextPre(tree, top, Rightmost(tree, x));
        }
      }
      forall g | 0 <= g < |tree| ensures eff[g] == Full(tree, req, g) { ConsistentIsFull(tree, req, eff, g); }
    }

    /** The stores in the walk, for the clamps that differ: the value, and its bucket. */
    method StoreEff(x: nat, e: Vals, min: bool, max: bool)
      requires Shaped() && InBuckets() && x < |tree| && (min <==> e.min != eff[x].min) && (max <==> e.max != eff[x].max)
      modifies this`eff, this`ids
      ensures Shaped() && InBuckets() && eff == old(eff)[x := e]
    {
      if min {
        eff := eff[x := eff[x].(min := e.min)];
        ids := ids[x := ids[x].(min := Uclamp.BucketId(e.min, d))];
      }
      if max {
        eff := eff[x := eff[x].(max := e.max)];
        ids := ids[x := ids[x].(max := Uclamp.BucketId(e.max, d))];
      }
    }

    /** At boot there is the root group, unrestricted. */
    constructor (d: nat)
      requires d > 0
      ensures Valid() && |tree| == 1 && this.d == d
    {
      var v := Vals(Uclamp.SCALE, Uclamp.SCALE);
      this.d, tree, req, eff, ids := d, [Group(None, [])], [v], [v], [Buckets(v, d)];
    }

    /** cpu_uclamp_write() of one or both requests of a group, and uclamp_update_root_tg() for the root. */
    method Write(g: nat, v: Vals) returns (notices: seq<Notice>)
      requires Valid() && g < |tree|
      modifies this`req, this`eff, this`ids
      ensures Valid() && req == old(req)[g := v]
      ensures NoticesOk(notices, old(eff), eff)
      ensures forall x :: 0 <= x < |tree| && !Under(tree, g, x) ==> eff[x] == old(eff)[x]
    {
      ghost var was := req;
      req := req[g := v];
      forall x | 0 <= x < |tree| && x != g ensures Consistent(tree, req, eff, x) { FullIsConsistent(tree, was, eff,
        x); }
      notices := UpdateEff(g);
    }

    /** alloc_uclamp_sched_group() and cpu_cgroup_css_online(): a copy of the parent's clamps, then one update. */
    method Create(p: nat) returns (notices: seq<Notice>)
      requires Valid() && p < |tree|
      modifies this
      ensures Valid() && tree == AddGroup(old(tree), p) && req == old(req) + [UNRESTRICTED]
      ensures eff == old(eff) + [eff[|old(tree)|]]
      ensures eff[|old(tree)|] == Vals(0, if old(eff)[p].max < 1024 then old(eff)[p].max else 1024)
      ensures NoticesOk(notices, old(eff) + [old(eff)[p]], eff)
    {
      var n := |tree|;
      AddGroupOk(tree, p);
      NewGroupConsistent(tree, req, eff, p);
      tree, req, eff, ids := AddGroup(tree, p), req + [UNRESTRICTED], eff + [eff[p]], ids + [ids[p]];
      notices := UpdateEff(n);
      forall x: nat | x < n ensures !Under(tree, n, x) { if Under(tree, n, x) { UnderIsLater(tree, n, x); } }
      assert eff == old(eff) + [eff[n]];
      assert GroupOk(tree, n) && eff[n] == Full(tree, req, n) && eff[p] == Full(tree, req, p);
    }
  }

  lemma FullIsConsistent(t: Tree, req: seq<Vals>, eff: seq<Vals>, g: nat)
    requires WellFormed(t) && |req| == |eff| == |t| && g < |t| && forall x :: 0 <= x < |t| ==> eff[x] == Full(t, req, x)
    ensures Consistent(t, req, eff, g)
  {
    assert GroupOk(t, g);
  }

  lemma NewGroupConsistent(t: Tree, req: seq<Vals>, eff: seq<Vals>, p: nat)
    requires WellFormed(t) && |req| == |eff| == |t| && p < |t| && forall x :: 0 <= x < |t| ==> eff[x] == Full(t, req, x)
    requires WellFormed(AddGroup(t, p))
    ensures forall g :: 0 <= g < |t| ==> Consistent(AddGroup(t, p), req + [UNRESTRICTED], eff + [eff[p]], g)
  {
    forall g | 0 <= g < |t| ensures Consistent(AddGroup(t, p), req + [UNRESTRICTED], eff + [eff[p]], g) {
      FullIsConsistent(t, req, eff, g);
      assert GroupOk(t, g);
    }
  }
}
