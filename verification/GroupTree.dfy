/** The tree of task groups and its traversal without a stack, walk_tg_tree_from(). */
module GroupTree {
  import opened Wrappers

  /** struct task_group: its parent and its list of children. */
  datatype Group = Group(parent: Option<nat>, children: seq<nat>)

  /** Groups are numbered in the order of creation; 0 is root_task_group. */
  type Tree = seq<Group>

  /** A group is in the list of its parent, which is older. */
  predicate LinkOk(t: Tree, g: nat)
    requires g < |t|
  {
    if g == 0 then t[g].parent == None
    else t[g].parent.Some? && t[g].parent.value < g && g in t[t[g].parent.value].children
  }

  /** The members of its list are younger groups with this parent, */
  predicate ListOk(t: Tree, g: nat)
    requires g < |t|
  { forall i :: 0 <= i < |t[g].children| ==> g < t[g].children[i] < |t| && t[t[g].children[i]].parent == Some(g) }

  /** each listed once. */
  predicate OnceOk(t: Tree, g: nat)
    requires g < |t|
  { forall i, j :: 0 <= i < j < |t[g].children| ==> t[g].children[i] != t[g].children[j] }

  predicate GroupOk(t: Tree, g: nat)
    requires g < |t|
  { LinkOk(t, g) && ListOk(t, g) && OnceOk(t, g) }

  predicate WellFormed(t: Tree) {
    && |t| > 0
    && (forall g :: 0 <= g < |t| ==> LinkOk(t, g)) && (forall g :: 0 <= g < |t| ==> ListOk(t, g))
    && (forall g :: 0 <= g < |t| ==> OnceOk(t, g))
  }

  // ---------------------------------------------------------------- the recursive definition

  datatype Call = Down(g: nat) | Up(g: nat)

  /** The callbacks of a walk from g: on g, on its children in list order, and on g again. */
  function Calls(t: Tree, g: nat): seq<Call>
    requires WellFormed(t) && g < |t|
    decreases |t| - g, 1, 0
  {
    assert ListOk(t, g);
    [Down(g)] + CallsFrom(t, g, 0) + [Up(g)]
  }

  /** The callbacks on the children of g from the i-th on. */
  function CallsFrom(t: Tree, g: nat, i: nat): seq<Call>
    requires WellFormed(t) && g < |t| && i <= |t[g].children|
    decreases |t| - g, 0, |t[g].children| - i
  {
    assert ListOk(t, g);
    if i == |t[g].children| then [] else Calls(t, t[g].children[i]) + CallsFrom(t, g, i + 1)
  }

  /** A callback of either kind: it changes the data it is given and returns an error code. */
  type Visitor<!S> = (S, nat) -> (S, int)

  /** Make the calls one by one, up to the first that does not return 0. */
  function RunCalls<S>(down: Visitor<S>, up: Visitor<S>, s: S, cs: seq<Call>): (S, int)
    decreases |cs|
  {
    if |cs| == 0 then (s, 0)
    else
      var r := if cs[0].Down? then down(s, cs[0].g) else up(s, cs[0].g);
      if r.1 != 0 then r else RunCalls(down, up, r.0, cs[1..])
  }

  // ---------------------------------------------------------------- the traversal

  /** g is x or an ancestor of x. */
  predicate Under(t: Tree, g: nat, x: nat)
    requires WellFormed(t) && g < |t| && x < |t|
    decreases x
  {
    x == g || (assert LinkOk(t, x); t[x].parent.Some? && Under(t, g, t[x].parent.value))
  }

  /** The position of a group in its parent's list of children. */
  function Position(children: seq<nat>, x: nat): (i: nat)
    requires x in children
    ensures i < |children| && children[i] == x
  { if children[0] == x then 0 else 1 + Position(children[1..], x) }

  /** The next group in the list of siblings. */
  function NextSibling(t: Tree, x: nat): (r: Option<nat>)
    requires WellFormed(t) && 0 < x < |t|
    ensures r.Some? ==> r.value < |t|
  {
    assert LinkOk(t, x);
    var p := t[x].parent.value;
    assert ListOk(t, p);
    var i := Position(t[p].children, x) + 1;
    if i < |t[p].children| then Some(t[p].children[i]) else None
  }

  /** What a walk from `from` still does after it has left x for the last time. */
  function After(t: Tree, from: nat, x: nat): seq<Call>
    requires WellFormed(t) && from < |t| && x < |t| && Under(t, from, x)
    decreases x, 0
  {
    if x == from then []
    else
      assert LinkOk(t, x);
      Rest(t, from, t[x].parent.value, Position(t[t[x].parent.value].children, x) + 1)
  }

  /** What it still does when it stands at position i of the list of children of x. */
  function Rest(t: Tree, from: nat, x: nat, i: nat): seq<Call>
    requires WellFormed(t) && from < |t| && x < |t| && Under(t, from, x) && i <= |t[x].children|
    decreases x, 1
  { CallsFrom(t, x, i) + [Up(x)] + After(t, from, x) }

  /** Positions are found from either end: a list without duplicates has one. */
  lemma {:induction false} PositionUnique(children: seq<nat>, i: nat)
    requires i < |children| && forall a, b :: 0 <= a < b < |children| ==> children[a] != children[b]
    ensures Position(children, children[i]) == i
  {
    if i > 0 { PositionUnique(children[1..], i - 1); }
  }

  lemma {:induction false} UnderIsLater(t: Tree, g: nat, x: nat)
    requires WellFormed(t) && g < |t| && x < |t| && Under(t, g, x)
    ensures g <= x
    decreases x
  {
    if x != g { assert LinkOk(t, x); UnderIsLater(t, g, t[x].parent.value); }
  }

  /** After the i-th child of x the walk is at the next position. */
  lemma AfterChild(t: Tree, from: nat, x: nat, i: nat)
    requires WellFormed(t) && from < |t| && x < |t| && Under(t, from, x) && i < |t[x].children|
    ensures var c := t[x].children[i];
      && 0 < c < |t| && c != from && t[c].parent == Some(x) && Under(t, from, c)
      && After(t, from, c) == Rest(t, from, x, i + 1)
  {
    assert GroupOk(t, x);
    PositionUnique(t[x].children, i);
    UnderIsLater(t, from, x);
  }

  lemma Regroup<T>(a: seq<T>, b: seq<T>, c: seq<T>, d: seq<T>)
    ensures (a + b) + c + d == a + (b + c + d)
  {
  }

  lemma RegroupEnter<T>(d: seq<T>, b: seq<T>, u: seq<T>, r: seq<T>)
    ensures (d + b + u) + r == d + (b + u + r)
  {
  }

  /** Entering x is the call on x itself and then the list of its children from the start. */
  lemma EnterRest(t: Tree, from: nat, x: nat)
    requires WellFormed(t) && from < |t| && x < |t| && Under(t, from, x)
    ensures Calls(t, x) + After(t, from, x) == [Down(x)] + Rest(t, from, x, 0)
  {
    RegroupEnter([Down(x)], CallsFrom(t, x, 0), [Up(x)], After(t, from, x));
  }

  /** At position i of its list the walk enters the i-th child; past the end it leaves x. */
  lemma RestGoesOn(t: Tree, from: nat, x: nat, i: nat)
    requires WellFormed(t) && from < |t| && x < |t| && Under(t, from, x) && i <= |t[x].children|
    ensures if i < |t[x].children|
      then
        var c := t[x].children[i];
        c < |t| && Under(t, from, c) && Rest(t, from, x, i) == Calls(t, c) + After(t, from, c)
      else Rest(t, from, x, i) == [Up(x)] + After(t, from, x)
  {
    if i < |t[x].children| {
      AfterChild(t, from, x, i);
      Regroup(Calls(t, t[x].children[i]), CallsFrom(t, x, i + 1), [Up(x)], After(t, from, x));
    } else {
      assert [] + [Up(x)] == [Up(x)];
    }
  }

  /** Making the first call of several. */
  lemma RunFirst<S>(down: Visitor<S>, up: Visitor<S>, s: S, c: Call, cs: seq<Call>)
    ensures var r := if c.Down? then down(s, c.g) else up(s, c.g);
      RunCalls(down, up, s, [c] + cs) == if r.1 != 0 then r else RunCalls(down, up, r.0, cs)
  {
    assert ([c] + cs)[1..] == cs;
  }

  /** What a walk still does that is about to enter x. */
  function Entering(t: Tree, from: nat, x: nat): seq<Call>
    requires WellFormed(t) && from < |t| && x < |t| && Under(t, from, x)
  { Calls(t, x) + After(t, from, x) }

  lemma EnterStep<S>(t: Tree, from: nat, x: nat, down: Visitor<S>, up: Visitor<S>, s: S)
    requires WellFormed(t) && from < |t| && x < |t| && Under(t, from, x)
    ensures |Rest(t, from, x, 0)| < |Entering(t, from, x)|
    ensures var r := down(s, x);
      RunCalls(down, up, s, Entering(t, from, x))
        == if r.1 != 0 then r else RunCalls(down, up, r.0, Rest(t, from, x, 0))
  {
    EnterRest(t, from, x);
    RunFirst(down, up, s, Down(x), Rest(t, from, x, 0));
  }

  /** At position i of the list of x the walk enters the child there, */
  lemma NextStep(t: Tree, from: nat, x: nat, i: nat)
    requires WellFormed(t) && from < |t| && x < |t| && Under(t, from, x) && i < |t[x].children|
    ensures var c := t[x].children[i]; c < |t| && Under(t, from, c) && Rest(t, from, x, i) == Entering(t, from, c)
  {
    RestGoesOn(t, from, x, i);
  }

  /** and past the end it leaves x, for the list of the parent of x or for good. */
  lemma LeaveStep<S>(t: Tree, from: nat, x: nat, down: Visitor<S>, up: Visitor<S>, s: S)
    requires WellFormed(t) && from < |t| && x < |t| && Under(t, from, x)
    ensures |After(t, from, x)| < |Rest(t, from, x, |t[x].children|)|
    ensures var r := up(s, x);
      RunCalls(down, up, s, Rest(t, from, x, |t[x].children|))
        == if r.1 != 0 then r else RunCalls(down, up, r.0, After(t, from, x))
    ensures if x == from then After(t, from, x) == []
      else
        && t[x].parent.Some? && t[x].parent.value < |t| && Under(t, from, t[x].parent.value)
        && x in t[t[x].parent.value].children
        && After(t, from, x) == Rest(t, from, t[x].parent.value, Position(t[t[x].parent.value].children, x) + 1)
  {
    RestGoesOn(t, from, x, |t[x].children|);
    RunFirst(down, up, s, Up(x), After(t, from, x));
    assert LinkOk(t, x);
  }

  /** The walk stands at one of its two labels, and todo is what it still does. */
  ghost predicate Stands(t: Tree, from: nat, parent: nat, child: nat, entering: bool, todo: seq<Call>)
    requires WellFormed(t) && from < |t|
  {
    && parent < |t| && Under(t, from, parent)
    && if entering then todo == Entering(t, from, parent)
       else child in t[parent].children && todo == Rest(t, from, parent, Position(t[parent].children, child) + 1)
  }

  /**
   * walk_tg_tree_from(): its two labels are the two values of `entering`, and the list position is found again
   * from the group it left.  It makes exactly the calls of the recursive definition.
   */
  method WalkTgTreeFrom<S>(t: Tree, from: nat, down: Visitor<S>, up: Visitor<S>, data: S) returns (s: S, ret: int)
    requires WellFormed(t) && from < |t|
    ensures (s, ret) == RunCalls(down, up, data, Calls(t, from))
  {
    ghost var goal := RunCalls(down, up, data, Calls(t, from));
    ghost var todo := Entering(t, from, from);
    assert todo == Calls(t, from);
    s := data;
    var parent: nat, child: nat, entering := from, from, true;
    while true
      invariant Stands(t, from, parent, child, entering, todo)
      invariant goal == RunCalls(down, up, s, todo)
      decreases |todo|, if entering then 0 else 1
    {
      var i: nat := 0;
      if entering {
        EnterStep(t, from, parent, down, up, s);
        var r := down(s, parent);
        s, ret := r.0, r.1;
        if ret != 0 { return; }
        todo := Rest(t, from, parent, 0);
      } else {
        i := Position(t[parent].children, child) + 1;
      }
      if i < |t[parent].children| {
        NextStep(t, from, parent, i);
        parent, entering := t[parent].children[i], true;
        continue;
      }
      LeaveStep(t, from, parent, down, up, s);
      var r := up(s, parent);
      s, ret := r.0, r.1;
      if ret != 0 { return; }
      todo := After(t, from, parent);
      if parent == from { return; }
      child, parent, entering := parent, t[parent].parent.value, false;
    }
  }

  // ---------------------------------------------------------------- each group once, in order

  /** Ancestors of one group are ancestors of each other. */
  lemma {:induction false} AncestorsChain(t: Tree, a: nat, b: nat, x: nat)
    requires WellFormed(t) && a < |t| && b < |t| && x < |t| && Under(t, a, x) && Under(t, b, x)
    ensures Under(t, a, b) || Under(t, b, a)
    decreases x
  {
    if x != a && x != b {
      assert LinkOk(t, x);
      AncestorsChain(t, a, b, t[x].parent.value);
    }
  }

  /** A group lies below one child at most. */
  lemma OneChildAbove(t: Tree, g: nat, i: nat, j: nat, x: nat)
    requires WellFormed(t) && g < |t| && i < |t[g].children| && j < |t[g].children| && x < |t|
    requires t[g].children[i] < |t| && t[g].children[j] < |t|
    requires Under(t, t[g].children[i], x) && Under(t, t[g].children[j], x)
    ensures i == j
  {
    assert ListOk(t, g) && OnceOk(t, g);
    var a, b := t[g].children[i], t[g].children[j];
    AncestorsChain(t, a, b, x);
    if a != b && Under(t, a, b) { UnderIsLater(t, a, g); }
    if a != b && Under(t, b, a) { UnderIsLater(t, b, g); }
  }

  ghost predicate UnderChildFrom(t: Tree, g: nat, i: nat, x: nat)
    requires WellFormed(t) && g < |t| && x < |t|
  {
    exists j :: i <= j < |t[g].children| && t[g].children[j] < |t| && Under(t, t[g].children[j], x)
  }

  lemma UnderSplits(t: Tree, g: nat, x: nat)
    requires WellFormed(t) && g < |t| && x < |t|
    ensures Under(t, g, x) <==> x == g || UnderChildFrom(t, g, 0, x)
    ensures UnderChildFrom(t, g, 0, x) ==> g < x
  {
    assert ListOk(t, g);
    if x != g && Under(t, g, x) { ChildAbove(t, g, x); }
    if UnderChildFrom(t, g, 0, x) {
      var j :| 0 <= j < |t[g].children| && t[g].children[j] < |t| && Under(t, t[g].children[j], x);
      UnderTrans(t, g, t[g].children[j], x);
      UnderIsLater(t, t[g].children[j], x);
    }
  }

  lemma {:induction false} ChildAbove(t: Tree, g: nat, x: nat)
    requires WellFormed(t) && g < |t| && x < |t| && x != g && Under(t, g, x)
    ensures UnderChildFrom(t, g, 0, x)
    decreases x
  {
    assert LinkOk(t, x) && ListOk(t, g);
    var p := t[x].parent.value;
    if p == g {
      assert t[g].children[Position(t[g].children, x)] == x;
    } else {
      ChildAbove(t, g, p);
      var j :| 0 <= j < |t[g].children| && t[g].children[j] < |t| && Under(t, t[g].children[j], p);
      assert Under(t, t[g].children[j], x);
    }
  }

  lemma {:induction false} UnderTrans(t: Tree, a: nat, b: nat, x: nat)
    requires WellFormed(t) && a < |t| && b < |t| && x < |t| && Under(t, a, b) && Under(t, b, x)
    ensures Under(t, a, x)
    decreases x
  {
    if x != b {
      assert LinkOk(t, x);
      UnderTrans(t, a, b, t[x].parent.value);
      UnderIsLater(t, a, t[x].parent.value);
    }
  }

  function Times(b: bool): nat { if b then 1 else 0 }

  /** The walk from g calls `down` and `up` once each on g and every group below it, and on no other. */
  lemma {:induction false} EachOnce(t: Tree, g: nat, x: nat)
    requires WellFormed(t) && g < |t| && x < |t|
    ensures multiset(Calls(t, g))[Down(x)] == multiset(Calls(t, g))[Up(x)] == Times(Under(t, g, x))
    decreases |t| - g, 1, 0
  {
    EachOnceFrom(t, g, 0, x);
    UnderSplits(t, g, x);
  }

  lemma {:induction false} EachOnceFrom(t: Tree, g: nat, i: nat, x: nat)
    requires WellFormed(t) && g < |t| && x < |t| && i <= |t[g].children|
    ensures multiset(CallsFrom(t, g, i))[Down(x)] == multiset(CallsFrom(t, g, i))[Up(x)] == Times(UnderChildFrom(t,
      g, i, x))
    decreases |t| - g, 0, |t[g].children| - i
  {
    assert ListOk(t, g);
    if i < |t[g].children| {
      var c := t[g].children[i];
      EachOnce(t, c, x);
      EachOnceFrom(t, g, i + 1, x);
      if Under(t, c, x) && UnderChildFrom(t, g, i + 1, x) {
        var j :| i + 1 <= j < |t[g].children| && t[g].children[j] < |t| && Under(t, t[g].children[j], x);
        OneChildAbove(t, g, i, j, x);
      }
      assert UnderChildFrom(t, g, i, x) <==> Under(t, c, x) || UnderChildFrom(t, g, i + 1, x);
    }
  }

  /** The calls on a child and what is below it are a contiguous part. */
  lemma {:induction false} ChildPart(t: Tree, g: nat, i: nat, j: nat) returns (pre: seq<Call>, post: seq<Call>)
    requires WellFormed(t) && g < |t| && i <= j < |t[g].children| && t[g].children[j] < |t|
    ensures CallsFrom(t, g, i) == pre + Calls(t, t[g].children[j]) + post
    decreases j - i
  {
    assert ListOk(t, g);
    if i == j {
      pre, post := [], CallsFrom(t, g, i + 1);
    } else {
      var pre1, post1 := ChildPart(t, g, i + 1, j);
      pre, post := Calls(t, t[g].children[i]) + pre1, post1;
    }
  }

  /** So are the calls on any group below. */
  lemma {:induction false} Part(t: Tree, g: nat, x: nat) returns (pre: seq<Call>, post: seq<Call>)
    requires WellFormed(t) && g < |t| && x < |t| && Under(t, g, x)
    ensures Calls(t, g) == pre + Calls(t, x) + post
    decreases x
  {
    if x == g {
      pre, post := [], [];
    } else {
      assert LinkOk(t, x);
      var p := t[x].parent.value;
      var pre1, post1 := Part(t, g, p);
      var pre2, post2 := ChildPart(t, p, 0, Position(t[p].children, x));
      pre, post := pre1 + [Down(p)] + pre2, post2 + [Up(p)] + post1;
      Nest(pre1, Down(p), pre2, Calls(t, x), post2, Up(p), post1);
    }
  }

  lemma Nest(a: seq<Call>, d: Call, b: seq<Call>, m: seq<Call>, e: seq<Call>, u: Call, f: seq<Call>)
    ensures a + ([d] + (b + m + e) + [u]) + f == (a + [d] + b) + m + (e + [u] + f)
  {
  }

  /** Entering and leaving b happens between entering and leaving a. */
  ghost predicate Brackets(cs: seq<Call>, a: nat, b: nat) {
    exists i, j, k, l :: 0 <= i <= j < k <= l < |cs| && cs[i] == Down(a) && cs[j] == Down(b) && cs[k] == Up(b)
      && cs[l] == Up(a)
  }

  /** cs is what a walk from g looks like from outside. */
  predicate Bracketed(cs: seq<Call>, g: nat) { |cs| >= 2 && cs[0] == Down(g) && cs[|cs| - 1] == Up(g) }

  lemma CallsBracketed(t: Tree, g: nat)
    requires WellFormed(t) && g < |t|
    ensures Bracketed(Calls(t, g), g)
  {
  }

  lemma PartBrackets(pre: seq<Call>, pre1: seq<Call>, m: seq<Call>, post1: seq<Call>, post: seq<Call>, a: nat, b: nat)
    requires Bracketed(pre1 + m + post1, a) && Bracketed(m, b)
    ensures Brackets(pre + (pre1 + m + post1) + post, a, b)
  {
    var inner := pre1 + m + post1;
    var cs := pre + inner + post;
    var i, j := |pre|, |pre| + |pre1|;
    var k, l := j + |m| - 1, i + |inner| - 1;
    assert cs[i] == inner[0] && cs[l] == inner[|inner| - 1];
    assert inner[|pre1|] == m[0] && inner[|pre1| + |m| - 1] == m[|m| - 1];
    assert cs[j] == m[0] && cs[k] == m[|m| - 1];
  }

  /** `down` on a group comes before anything below it, `up` on it after. */
  lemma DownFirstUpLast(t: Tree, from: nat, a: nat, b: nat)
    requires WellFormed(t) && from < |t| && a < |t| && b < |t| && Under(t, from, a) && Under(t, a, b)
    ensures Brackets(Calls(t, from), a, b)
  {
    var pre, post := Part(t, from, a);
    var pre1, post1 := Part(t, a, b);
    CallsBracketed(t, a);
    CallsBracketed(t, b);
    PartBrackets(pre, pre1, Calls(t, b), post1, post, a, b);
  }

  /** Every call of `down` in cs is on the root, a group in `done`, or one whose parent cs went down on before. */
  predicate ParentsFirst(t: Tree, done: set<nat>, cs: seq<Call>)
    requires WellFormed(t)
    decreases |cs|
  {
    |cs| == 0 ||
    var g := cs[0].g;
    if cs[0].Up? then ParentsFirst(t, done, cs[1..])
    else
      && g < |t| && (g == 0 || (assert LinkOk(t, g); t[g].parent.value in done))
      && ParentsFirst(t, done + {g}, cs[1..])
  }

  lemma {:induction false} ParentsFirstApp(t: Tree, done: set<nat>, a: seq<Call>, b: seq<Call>)
    requires WellFormed(t) && ParentsFirst(t, done, a) && (forall d: set<nat> :: done <= d ==> ParentsFirst(t, d, b))
    ensures ParentsFirst(t, done, a + b)
    decreases |a|
  {
    if |a| == 0 {
      assert a + b == b;
    } else {
      assert (a + b)[1..] == a[1..] + b;
      ParentsFirstApp(t, if a[0].Up? then done else done + {a[0].g}, a[1..], b);
    }
  }

  lemma {:induction false} CallsParentsFirst(t: Tree, g: nat, done: set<nat>)
    requires WellFormed(t) && g < |t| && (g == 0 || (assert LinkOk(t, g); t[g].parent.value in done))
    ensures ParentsFirst(t, done, Calls(t, g))
    decreases |t| - g, 1, 0
  {
    forall d: set<nat> | g in d ensures ParentsFirst(t, d, CallsFrom(t, g, 0)) { FromParentsFirst(t, g, 0, d); }
    var mid := CallsFrom(t, g, 0) + [Up(g)];
    ParentsFirstApp(t, done + {g}, CallsFrom(t, g, 0), [Up(g)]);
    assert Calls(t, g) == [Down(g)] + mid;
    assert Calls(t, g)[1..] == mid;
  }

  lemma {:induction false} FromParentsFirst(t: Tree, g: nat, i: nat, done: set<nat>)
    requires WellFormed(t) && g < |t| && i <= |t[g].children| && g in done
    ensures ParentsFirst(t, done, CallsFrom(t, g, i))
    decreases |t| - g, 0, |t[g].children| - i
  {
    assert ListOk(t, g);
    if i < |t[g].children| {
      CallsParentsFirst(t, t[g].children[i], done);
      forall d: set<nat> | done <= d ensures ParentsFirst(t, d, CallsFrom(t, g, i + 1)) { FromParentsFirst(t, g,
        i + 1, d); }
      ParentsFirstApp(t, done, Calls(t, t[g].children[i]), CallsFrom(t, g, i + 1));
    }
  }

  // ---------------------------------------------------------------- the whole tree

  lemma {:induction false} AllUnderRoot(t: Tree, x: nat)
    requires WellFormed(t) && x < |t|
    ensures Under(t, 0, x)
    decreases x
  {
    if x > 0 { assert LinkOk(t, x); AllUnderRoot(t, t[x].parent.value); }
  }

  /** A new group goes to the head of its parent's list (sched_online_group()). */
  function AddGroup(t: Tree, p: nat): Tree
    requires p < |t|
  { t[p := t[p].(children := [|t|] + t[p].children)] + [Group(Some(p), [])] }

  lemma AddGroupOk(t: Tree, p: nat)
    requires WellFormed(t) && p < |t|
    ensures WellFormed(AddGroup(t, p))
  {
    var t' := AddGroup(t, p);
    forall g | 0 <= g < |t'| ensures LinkOk(t', g) && ListOk(t', g) && OnceOk(t', g) {
      if g < |t| {
        assert LinkOk(t, g) && ListOk(t, g) && OnceOk(t, g);
      } else {
        assert t'[p].children[0] == g;
      }
    }
  }
}
