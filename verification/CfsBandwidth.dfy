/**
 * CFS bandwidth of task groups: the admission test that walks the tree, the ratios it computes with fixed-width
 * integers, and the writes that it guards.  The hierarchy is the legacy one.
 */
module CfsBandwidth {
  import opened Wrappers
  import opened GroupTree

  const EINVAL: int := 22
  const NSEC_PER_USEC: nat := 1000
  const U64_MAX: nat := 0xFFFF_FFFF_FFFF_FFFF

  /** RUNTIME_INF, which is -1 when it is read as a signed number. */
  const RUNTIME_INF: U64 := 0xFFFF_FFFF_FFFF_FFFF
  const NO_LIMIT: int := -1

  /** 1 << BW_SHIFT, and MAX_BW = (1 << (64 - BW_SHIFT)) - 1. */
  const BW_UNIT: nat := 0x10_0000
  const MAX_BW: nat := 0xFFF_FFFF_FFFF

  const MAX_PERIOD: nat := 1_000_000_000
  const MIN_PERIOD: nat := 1_000_000
  const MAX_RUNTIME: nat := MAX_BW * NSEC_PER_USEC

  /** cfs_bandwidth::period and quota, in nanoseconds. */
  datatype Bandwidth = Bandwidth(period: U64, quota: U64)

  /** The default: 100 ms and no limit. */
  const DEFAULT: Bandwidth := Bandwidth(100_000_000, RUNTIME_INF)

  // ---------------------------------------------------------------- fixed-point ratios

  /** `runtime << BW_SHIFT` in 64 bits */
  function Shifted(runtime: U64): U64 { runtime * BW_UNIT % 0x1_0000_0000_0000_0000 }

  /** to_ratio() */
  function ToRatio(period: U64, runtime: U64): U64 {
    if runtime == RUNTIME_INF then BW_UNIT else if period == 0 then 0 else Quotient(Shifted(runtime), period)
  }

  function Quotient(a: U64, b: U64): U64
    requires b > 0
  { DivBound(a, b); a / b }

  lemma Grows(b: nat, q: nat)
    requires b > 0
    ensures q <= b * q
  {
    assert b * q == q + (b - 1) * q;
  }

  lemma DivBound(a: nat, b: nat)
    requires b > 0
    ensures 0 <= a / b <= a
  {
    var q := a / b;
    assert a == b * q + a % b;
    Grows(b, q);
  }

  /** A u64 stored in an s64. */
  function ToS64(x: U64): int { if x < 0x8000_0000_0000_0000 then x else x - 0x1_0000_0000_0000_0000 }

  /** tg_get_cfs_period() and tg_get_cfs_quota(), in microseconds. */
  function PeriodUs(b: Bandwidth): U64 { b.period / NSEC_PER_USEC }
  function QuotaUs(b: Bandwidth): int { if b.quota == RUNTIME_INF then -1 else b.quota / NSEC_PER_USEC }

  /** struct cfs_schedulable_data: the proposed setting, in microseconds when it is a limit. */
  datatype Proposal = Proposal(tg: nat, period: U64, quota: U64)

  /** normalize_cfs_quota() */
  function Normalize(bw: seq<Bandwidth>, g: nat, d: Proposal): U64
    requires g < |bw|
  {
    var period := if g == d.tg then d.period else PeriodUs(bw[g]);
    var quota := if g == d.tg then d.quota else if QuotaUs(bw[g]) == -1 then RUNTIME_INF else QuotaUs(bw[g]);
    if quota == RUNTIME_INF then RUNTIME_INF else ToRatio(period, quota)
  }

  /** The settings tg_set_cfs_bandwidth() lets through. */
  predicate InBounds(b: Bandwidth) {
    && MIN_PERIOD <= b.period <= MAX_PERIOD && MIN_PERIOD <= b.quota
    && (b.quota != RUNTIME_INF ==> b.quota <= MAX_RUNTIME)
  }

  /** A period of 1 ms to 1 s; a quota of at least 1 ms that is either no limit or, in microseconds, fits 44 bits. */
  lemma InBoundsMeans(b: Bandwidth)
    ensures InBounds(b) <==>
      && 1_000_000 <= b.period <= 1_000_000_000 && 1_000_000 <= b.quota
      && (b.quota == 0xFFFF_FFFF_FFFF_FFFF || b.quota <= (0x1000_0000_0000 - 1) * 1000)
  {
  }

  /** The ratio without any rounding to machine words; only limited settings have one. */
  function ExactRatio(b: Bandwidth): nat
    requires b.quota != RUNTIME_INF && b.period >= NSEC_PER_USEC
  {
    DivBound(b.quota / NSEC_PER_USEC * BW_UNIT, b.period / NSEC_PER_USEC);
    b.quota / NSEC_PER_USEC * BW_UNIT / (b.period / NSEC_PER_USEC)
  }

  /** A number of microseconds can be shifted without loss exactly up to MAX_BW. */
  lemma ShiftFits(us: nat)
    ensures us * BW_UNIT <= U64_MAX <==> us <= MAX_BW
  {
  }

  /** Within bounds the shift does not overflow and the quotient fits a signed word, so the ratio is exact. */
  lemma RatioFits(b: Bandwidth)
    requires InBounds(b) && b.quota != RUNTIME_INF
    ensures b.quota / NSEC_PER_USEC * BW_UNIT <= U64_MAX && b.quota / NSEC_PER_USEC != RUNTIME_INF
    ensures ToRatio(b.period / NSEC_PER_USEC, b.quota / NSEC_PER_USEC) == ExactRatio(b) < 0x8000_0000_0000_0000
  {
    var q, p := b.quota / NSEC_PER_USEC, b.period / NSEC_PER_USEC;
    assert q <= MAX_BW && p >= 1000;
    DivShrinks(q * BW_UNIT, p);
  }

  lemma DivShrinks(a: nat, b: nat)
    requires b >= 2
    ensures a / b <= a / 2
  {
    DivMod(a, b);
    TimesMore(2, b, a / b);
  }

  /** More quota means a larger ratio, a longer period a smaller one. */
  lemma RatioMonotone(b: Bandwidth, c: Bandwidth)
    requires InBounds(b) && InBounds(c) && b.quota != RUNTIME_INF && c.quota != RUNTIME_INF
    requires b.quota <= c.quota && c.period <= b.period
    ensures ToRatio(PeriodUs(b), b.quota / NSEC_PER_USEC) <= ToRatio(PeriodUs(c), c.quota / NSEC_PER_USEC)
  {
    RatioFits(b);
    RatioFits(c);
    DivMonotone(b.quota / NSEC_PER_USEC * BW_UNIT, c.quota / NSEC_PER_USEC * BW_UNIT, PeriodUs(b), PeriodUs(c));
  }

  lemma DivMonotone(a: nat, a': nat, b: nat, b': nat)
    requires a <= a' && 0 < b' <= b
    ensures a / b <= a' / b'
  {
    var q, q' := a / b, a' / b';
    DivMod(a, b);
    DivMod(a', b');
    TimesMore(b', b, q);
    NextIsMore(b', q, q', a');
  }

  lemma DivMod(a: nat, b: nat)
    requires b > 0
    ensures b * (a / b) <= a < b * (a / b) + b
  {
  }

  lemma TimesMore(x: nat, y: nat, q: nat)
    requires x <= y
    ensures x * q <= y * q
  {
  }

  lemma NextIsMore(d: nat, x: nat, y: nat, a: nat)
    requires d * x <= a < d * y + d
    ensures x <= y
  {
    assert d * (y + 1) == d * y + d;
    Cancel(d, x, y + 1);
  }

  // ---------------------------------------------------------------- the admission walk

  /** The test of one group: its ratio under the proposal against the hierarchical quota of its parent. */
  function Visit(t: Tree, bw: seq<Bandwidth>, d: Proposal, hq: seq<int>, g: nat): (seq<int>, int)
    requires |hq| == |bw| == |t| && WellFormed(t) && g < |t|
  {
    assert GroupOk(t, g);
    if t[g].parent.None? then (hq[g := NO_LIMIT], 0)
    else
      var quota, parentQuota := ToS64(Normalize(bw, g, d)), hq[t[g].parent.value];
      if quota == NO_LIMIT then (hq[g := parentQuota], 0)
      else if parentQuota != NO_LIMIT && quota > parentQuota then (hq, -EINVAL)
      else (hq[g := quota], 0)
  }

  /** tg_cfs_schedulable_down() as a callback; groups outside the tree are left alone. */
  function DownVisitor(t: Tree, bw: seq<Bandwidth>, d: Proposal): Visitor<seq<int>> {
    (hq: seq<int>, g: nat) =>
      if |hq| == |bw| == |t| && WellFormed(t) && g < |t| then Visit(t, bw, d, hq, g) else (hq, 0)
  }

  /** tg_nop() */
  function NopVisitor(): Visitor<seq<int>> { (hq: seq<int>, g: nat) => (hq, 0) }

  /** The limit a group sets itself, as a ratio, if it sets one. */
  function Limit(bw: seq<Bandwidth>, g: nat, d: Proposal): int
    requires g < |bw|
  { ToS64(Normalize(bw, g, d)) }

  /** The limit in force on a group: its own, or that of the nearest ancestor with a limit; the root has none. */
  function InForce(t: Tree, bw: seq<Bandwidth>, d: Proposal, g: nat): int
    requires WellFormed(t) && |bw| == |t| && g < |t|
    decreases g
  {
    assert GroupOk(t, g);
    if g == 0 then NO_LIMIT
    else if Limit(bw, g, d) != NO_LIMIT then Limit(bw, g, d)
    else InForce(t, bw, d, t[g].parent.value)
  }

  /** A limited group asks for no more than what is in force on its parent. */
  predicate Fits(t: Tree, bw: seq<Bandwidth>, d: Proposal, g: nat)
    requires WellFormed(t) && |bw| == |t| && g < |t|
  {
    assert GroupOk(t, g);
    g == 0 || Limit(bw, g, d) == NO_LIMIT ||
    var above := InForce(t, bw, d, t[g].parent.value);
    above == NO_LIMIT || Limit(bw, g, d) <= above
  }

  predicate Feasible(t: Tree, bw: seq<Bandwidth>, d: Proposal)
    requires WellFormed(t) && |bw| == |t|
  { forall g :: 0 <= g < |t| ==> Fits(t, bw, d, g) }

  /** No group from g up to below a sets a limit. */
  predicate FreeUpTo(t: Tree, bw: seq<Bandwidth>, d: Proposal, a: nat, g: nat)
    requires WellFormed(t) && |bw| == |t| && a < |t| && g < |t| && Under(t, a, g)
    decreases g
  {
    g == a || (assert GroupOk(t, g); Limit(bw, g, d) == NO_LIMIT && FreeUpTo(t, bw, d, a, t[g].parent.value))
  }

  /** The limit in force on g is that of a, which is g or above it, with none in between; the root has none. */
  predicate IsSource(t: Tree, bw: seq<Bandwidth>, d: Proposal, a: nat, g: nat)
    requires WellFormed(t) && |bw| == |t| && g < |t|
  {
    && a < |t| && Under(t, a, g) && FreeUpTo(t, bw, d, a, g) && (a == 0 || Limit(bw, a, d) != NO_LIMIT)
    && InForce(t, bw, d, g) == if a == 0 then NO_LIMIT else Limit(bw, a, d)
  }

  /** The limit in force on g is that of some group above it, or its own, with none in between; or there is none. */
  lemma {:induction false} InForceMeans(t: Tree, bw: seq<Bandwidth>, d: Proposal, g: nat)
    requires WellFormed(t) && |bw| == |t| && g < |t|
    ensures exists a: nat :: IsSource(t, bw, d, a, g)
    decreases g
  {
    assert GroupOk(t, g);
    if g == 0 || Limit(bw, g, d) != NO_LIMIT {
      assert IsSource(t, bw, d, g, g);
    } else {
      var p := t[g].parent.value;
      InForceMeans(t, bw, d, p);
      var a: nat :| IsSource(t, bw, d, a, p);
      UnderIsLater(t, a, p);
      assert IsSource(t, bw, d, a, g);
    }
  }

  /** Two groups other than the root, one above the other, both with a limit. */
  predicate BothLimited(t: Tree, bw: seq<Bandwidth>, d: Proposal, a: nat, g: nat)
    requires WellFormed(t) && |bw| == |t|
  {
    && 0 < a < |t| && 0 < g < |t| && Under(t, a, g)
    && Limit(bw, a, d) != NO_LIMIT && Limit(bw, g, d) != NO_LIMIT
  }

  /** What is in force below a limited group is no more than its limit. */
  lemma {:induction false} InForceBelow(t: Tree, bw: seq<Bandwidth>, d: Proposal, a: nat, g: nat)
    requires WellFormed(t) && |bw| == |t| && 0 < a < |t| && g < |t| && Under(t, a, g) && Limit(bw, a, d) != NO_LIMIT
    requires Feasible(t, bw, d)
    ensures g > 0 && InForce(t, bw, d, g) != NO_LIMIT && InForce(t, bw, d, g) <= Limit(bw, a, d)
    decreases g
  {
    assert GroupOk(t, g) && Fits(t, bw, d, g);
    UnderIsLater(t, a, g);
    if g != a { InForceBelow(t, bw, d, a, t[g].parent.value); }
  }

  /** The settings are feasible exactly when no limited group has more than any limited group above it. */
  lemma FeasibleMeans(t: Tree, bw: seq<Bandwidth>, d: Proposal)
    requires WellFormed(t) && |bw| == |t|
    ensures Feasible(t, bw, d) <==>
      forall a, g :: BothLimited(t, bw, d, a, g) ==> Limit(bw, g, d) <= Limit(bw, a, d)
  {
    if Feasible(t, bw, d) {
      forall a, g | BothLimited(t, bw, d, a, g) ensures Limit(bw, g, d) <= Limit(bw, a, d) {
        InForceBelow(t, bw, d, a, g);
      }
    } else {
      var g :| 0 <= g < |t| && !Fits(t, bw, d, g);
      assert GroupOk(t, g);
      var p := t[g].parent.value;
      InForceMeans(t, bw, d, p);
      var a: nat :| IsSource(t, bw, d, a, p);
      assert Under(t, a, g) && BothLimited(t, bw, d, a, g);
    }
  }

  /** hq holds the limits in force of the groups in `done`. */
  predicate Settled(t: Tree, bw: seq<Bandwidth>, d: Proposal, hq: seq<int>, done: set<nat>)
    requires WellFormed(t) && |bw| == |t| == |hq|
  { forall g :: g in done && g < |t| ==> hq[g] == InForce(t, bw, d, g) }

  /** One call: it fails exactly if the group does not fit, and otherwise settles it. */
  lemma VisitSettles(t: Tree, bw: seq<Bandwidth>, d: Proposal, hq: seq<int>, done: set<nat>, g: nat)
    requires WellFormed(t) && |bw| == |t| == |hq| && g < |t| && Settled(t, bw, d, hq, done)
    requires g == 0 || (assert GroupOk(t, g); t[g].parent.value in done)
    ensures var r := Visit(t, bw, d, hq, g);
      && (r.1 == 0 <==> Fits(t, bw, d, g)) && r.1 in {0, -EINVAL}
      && |r.0| == |t| && (r.1 == 0 ==> Settled(t, bw, d, r.0, done + {g}))
  {
    assert GroupOk(t, g);
  }

  /** A walk that goes down on parents first fails exactly if some group it goes down on does not fit. */
  lemma {:induction false} WalkSettles(t: Tree, bw: seq<Bandwidth>, d: Proposal, hq: seq<int>, done: set<nat>,
    cs: seq<Call>)
    requires WellFormed(t) && |bw| == |t| == |hq| && Settled(t, bw, d, hq, done) && ParentsFirst(t, done, cs)
    ensures var r := RunCalls(DownVisitor(t, bw, d), NopVisitor(), hq, cs);
      && (r.1 == 0 <==> forall g: nat :: g < |t| && Down(g) in cs ==> Fits(t, bw, d, g))
      && r.1 in {0, -EINVAL} && |r.0| == |t|
      && (r.1 == 0 ==>
        && Settled(t, bw, d, r.0, done)
        && forall g: nat :: g < |t| && Down(g) in cs ==> r.0[g] == InForce(t, bw, d, g))
    decreases |cs|
  {
    if |cs| > 0 {
      assert cs == [cs[0]] + cs[1..];
      var g := cs[0].g;
      if cs[0].Up? {
        WalkSettles(t, bw, d, hq, done, cs[1..]);
      } else {
        VisitSettles(t, bw, d, hq, done, g);
        var r := Visit(t, bw, d, hq, g);
        if r.1 == 0 { WalkSettles(t, bw, d, r.0, done + {g}, cs[1..]); }
      }
    }
  }

  /** __cfs_schedulable() */
  function Scheduled(t: Tree, bw: seq<Bandwidth>, d: Proposal, hq: seq<int>): (seq<int>, int)
    requires WellFormed(t) && |bw| == |t| == |hq|
  { RunCalls(DownVisitor(t, bw, d), NopVisitor(), hq, Calls(t, 0)) }

  /**
   * The test succeeds exactly when no limited group exceeds its nearest limited ancestor, and then every group's
   * hierarchical quota is the limit in force on it.  What earlier walks left in hq has no influence.
   */
  lemma ScheduledMeans(t: Tree, bw: seq<Bandwidth>, d: Proposal, hq: seq<int>)
    requires WellFormed(t) && |bw| == |t| == |hq|
    ensures var r := Scheduled(t, bw, d, hq);
      && (r.1 == 0 <==> Feasible(t, bw, d)) && r.1 in {0, -EINVAL} && |r.0| == |t|
      && (r.1 == 0 ==> forall g :: 0 <= g < |t| ==> r.0[g] == InForce(t, bw, d, g))
  {
    CallsParentsFirst(t, 0, {});
    WalkSettles(t, bw, d, hq, {}, Calls(t, 0));
    forall g: nat | g < |t| ensures Down(g) in Calls(t, 0) {
      AllUnderRoot(t, g);
      EachOnce(t, 0, g);
    }
  }

  lemma StaleValuesDoNotMatter(t: Tree, bw: seq<Bandwidth>, d: Proposal, hq1: seq<int>, hq2: seq<int>)
    requires WellFormed(t) && |bw| == |t| == |hq1| == |hq2|
    ensures var r1, r2 := Scheduled(t, bw, d, hq1), Scheduled(t, bw, d, hq2);
      r1.1 == r2.1 && (r1.1 == 0 ==> r1.0 == r2.0)
  {
    ScheduledMeans(t, bw, d, hq1);
    ScheduledMeans(t, bw, d, hq2);
  }

  // ---------------------------------------------------------------- histories of writes

  /** What __cfs_schedulable() makes of a setting in nanoseconds. */
  function ProposalOf(g: nat, b: Bandwidth): Proposal {
    if b.quota == RUNTIME_INF then Proposal(g, b.period, b.quota)
    else Proposal(g, b.period / NSEC_PER_USEC, b.quota / NSEC_PER_USEC)
  }

  /** A proposal that names no group: the settings as they are. */
  function AsIs(n: nat): Proposal { Proposal(n, 0, RUNTIME_INF) }

  /**
   * In every walk over legal settings with a legal proposal, the limit computed for a group is its exact ratio: no
   * shift overflows, no quotient turns negative, and no ratio is taken for "unlimited".
   */
  lemma WalkRatiosExact(bw: seq<Bandwidth>, g: nat, b: Bandwidth, x: nat)
    requires g < |bw| && x < |bw| && InBounds(b) && InBounds(bw[x])
    ensures var b1 := bw[g := b][x];
      Limit(bw, x, ProposalOf(g, b)) == if b1.quota == RUNTIME_INF then NO_LIMIT else ExactRatio(b1)
  {
    var b1 := bw[g := b][x];
    if b1.quota != RUNTIME_INF { RatioFits(b1); }
  }

  lemma ProposalLimit(bw: seq<Bandwidth>, g: nat, b: Bandwidth, x: nat)
    requires g < |bw| && x < |bw|
    ensures Limit(bw, x, ProposalOf(g, b)) == Limit(bw[g := b], x, AsIs(|bw|))
  {
  }

  lemma {:induction false} SameLimitsInForce(t: Tree, bw: seq<Bandwidth>, d: Proposal, bw': seq<Bandwidth>,
    d': Proposal, x: nat)
    requires WellFormed(t) && |bw| == |bw'| == |t| && x < |t|
    requires forall y :: 0 <= y < |t| ==> Limit(bw, y, d) == Limit(bw', y, d')
    ensures InForce(t, bw, d, x) == InForce(t, bw', d', x)
    decreases x
  {
    if x > 0 {
      assert GroupOk(t, x);
      SameLimitsInForce(t, bw, d, bw', d', t[x].parent.value);
    }
  }

  lemma SameLimitsFeasible(t: Tree, bw: seq<Bandwidth>, d: Proposal, bw': seq<Bandwidth>, d': Proposal)
    requires WellFormed(t) && |bw| == |bw'| == |t|
    requires forall y :: 0 <= y < |t| ==> Limit(bw, y, d) == Limit(bw', y, d')
    ensures Feasible(t, bw, d) <==> Feasible(t, bw', d')
  {
    forall x | 0 <= x < |t| ensures Fits(t, bw, d, x) == Fits(t, bw', d', x) {
      assert GroupOk(t, x);
      if x > 0 { SameLimitsInForce(t, bw, d, bw', d', t[x].parent.value); }
    }
  }

  /** Testing a proposal is testing the settings as they would be after it is accepted. */
  lemma ProposalIsSetting(t: Tree, bw: seq<Bandwidth>, g: nat, b: Bandwidth)
    requires WellFormed(t) && |bw| == |t| && g < |t|
    ensures Feasible(t, bw, ProposalOf(g, b)) <==> Feasible(t, bw[g := b], AsIs(|t|))
    ensures forall x :: 0 <= x < |t| ==> InForce(t, bw, ProposalOf(g, b), x) == InForce(t, bw[g := b], AsIs(|t|), x)
  {
    forall x | 0 <= x < |t| ensures Limit(bw, x, ProposalOf(g, b)) == Limit(bw[g := b], x, AsIs(|t|)) {
      ProposalLimit(bw, g, b, x);
    }
    SameLimitsFeasible(t, bw, ProposalOf(g, b), bw[g := b], AsIs(|t|));
    forall x | 0 <= x < |t| ensures InForce(t, bw, ProposalOf(g, b), x) == InForce(t, bw[g := b], AsIs(|t|), x) {
      SameLimitsInForce(t, bw, ProposalOf(g, b), bw[g := b], AsIs(|t|), x);
    }
  }

  /** The settings that may be written: legal, not for the root, and within what is in force above and below. */
  predicate Admitted(t: Tree, bw: seq<Bandwidth>, g: nat, b: Bandwidth)
    requires WellFormed(t) && |bw| == |t| && g < |t|
  { g != 0 && InBounds(b) && Feasible(t, bw[g := b], AsIs(|t|)) }

  function Clip(x: int): U64 { if x < 0 then 0 else if x > U64_MAX then U64_MAX else x }

  /** The groups with their settings and the hierarchical quotas of the last walks. */
  class Groups {
    var tree: Tree
    var bw: seq<Bandwidth>
    var hq: seq<int>

    /** What every history of writes and creations keeps: legal settings, and no group over its ancestors. */
    ghost predicate Valid()
      reads this
    {
      && WellFormed(tree) && |bw| == |tree| == |hq|
      && (forall g :: 0 <= g < |bw| ==> InBounds(bw[g]))
      && Feasible(tree, bw, AsIs(|tree|))
    }

    constructor ()
      ensures Valid() && |tree| == 1
    {
      tree, bw, hq := [Group(None, [])], [DEFAULT], [0];
    }

    method CfsSchedulable(g: nat, period: U64, quota: U64) returns (ret: int)
      requires WellFormed(tree) && |bw| == |tree| == |hq|
      modifies this`hq
      ensures (hq, ret) == Scheduled(tree, bw, ProposalOf(g, Bandwidth(period, quota)), old(hq))
    {
      var data := Proposal(g, period, quota);
      if quota != RUNTIME_INF { data := Proposal(g, period / NSEC_PER_USEC, quota / NSEC_PER_USEC); }
      hq, ret := WalkTgTreeFrom(tree, 0, DownVisitor(tree, bw, data), NopVisitor(), hq);
    }

    /** tg_set_cfs_bandwidth() */
    method SetBandwidth(g: nat, period: U64, quota: U64) returns (ret: int)
      requires Valid() && g < |tree|
      modifies this`bw, this`hq
      ensures Valid() && ret in {0, -EINVAL}
      ensures ret == 0 <==> Admitted(tree, old(bw), g, Bandwidth(period, quota))
      ensures bw == if ret == 0 then old(bw)[g := Bandwidth(period, quota)] else old(bw)
      ensures ret == 0 ==> forall x :: 0 <= x < |tree| ==> hq[x] == InForce(tree, bw, AsIs(|tree|), x)
    {
      if g == 0 { return -EINVAL; }
      if quota < MIN_PERIOD || period < MIN_PERIOD { return -EINVAL; }
      if period > MAX_PERIOD { return -EINVAL; }
      if quota != RUNTIME_INF && quota > MAX_RUNTIME { return -EINVAL; }
      ghost var b := Bandwidth(period, quota);
      ScheduledMeans(tree, bw, ProposalOf(g, b), hq);
      ProposalIsSetting(tree, bw, g, b);
      ret := CfsSchedulable(g, period, quota);
      if ret != 0 { return; }
      bw := bw[g := Bandwidth(period, quota)];
    }

    /** tg_set_cfs_quota(): microseconds, negative for no limit; the period stays. */
    method SetQuota(g: nat, us: int) returns (ret: int)
      requires Valid() && g < |tree| && -0x8000_0000_0000_0000 <= us < 0x8000_0000_0000_0000
      modifies this`bw, this`hq
      ensures Valid() && ret in {0, -EINVAL}
      ensures var b := Bandwidth(old(bw)[g].period, if us < 0 then RUNTIME_INF else Clip(us * NSEC_PER_USEC));
        && (ret == 0 <==> us * NSEC_PER_USEC <= U64_MAX && Admitted(tree, old(bw), g, b))
        && bw == if ret == 0 then old(bw)[g := b] else old(bw)
      ensures ret == 0 ==> QuotaUs(bw[g]) == if us < 0 then -1 else us
    {
      var quota: U64;
      if us < 0 {
        quota := RUNTIME_INF;
      } else if us <= U64_MAX / NSEC_PER_USEC {
        quota := us * NSEC_PER_USEC;
      } else {
        return -EINVAL;
      }
      ret := SetBandwidth(g, bw[g].period, quota);
    }

    /** tg_set_cfs_period(): microseconds; the quota stays. */
    method SetPeriod(g: nat, us: U64) returns (ret: int)
      requires Valid() && g < |tree|
      modifies this`bw, this`hq
      ensures Valid() && ret in {0, -EINVAL}
      ensures var b := Bandwidth(Clip(us * NSEC_PER_USEC), old(bw)[g].quota);
        && (ret == 0 <==> us * NSEC_PER_USEC <= U64_MAX && Admitted(tree, old(bw), g, b))
        && bw == if ret == 0 then old(bw)[g := b] else old(bw)
      ensures ret == 0 ==> PeriodUs(bw[g]) == us
    {
      if us > U64_MAX / NSEC_PER_USEC { return -EINVAL; }
      ret := SetBandwidth(g, us * NSEC_PER_USEC, bw[g].quota);
    }

    /** A new group has no limit, so it cannot break the hierarchy. */
    method CreateGroup(p: nat)
      requires Valid() && p < |tree|
      modifies this
      ensures Valid() && tree == AddGroup(old(tree), p) && bw == old(bw) + [Bandwidth(100_000_000, U64_MAX)]
    {
      AddGroupOk(tree, p);
      NewGroupFeasible(tree, bw, p);
      tree, bw, hq := AddGroup(tree, p), bw + [DEFAULT], hq + [0];
    }
  }

  lemma {:induction false} NewGroupInForce(t: Tree, bw: seq<Bandwidth>, p: nat, x: nat)
    requires WellFormed(t) && |bw| == |t| && p < |t| && x < |t|
    requires WellFormed(AddGroup(t, p))
    ensures InForce(AddGroup(t, p), bw + [DEFAULT], AsIs(|t| + 1), x) == InForce(t, bw, AsIs(|t|), x)
    decreases x
  {
    if x > 0 {
      assert GroupOk(t, x);
      NewGroupInForce(t, bw, p, t[x].parent.value);
    }
  }

  lemma NewGroupFeasible(t: Tree, bw: seq<Bandwidth>, p: nat)
    requires WellFormed(t) && |bw| == |t| && p < |t| && Feasible(t, bw, AsIs(|t|)) && WellFormed(AddGroup(t, p))
    ensures Feasible(AddGroup(t, p), bw + [DEFAULT], AsIs(|t| + 1))
  {
    var t', bw' := AddGroup(t, p), bw + [DEFAULT];
    forall x | 0 <= x < |t'| ensures Fits(t', bw', AsIs(|t'|), x) {
      if x < |t| {
        assert GroupOk(t, x) && Fits(t, bw, AsIs(|t|), x);
        if x > 0 { NewGroupInForce(t, bw, p, t[x].parent.value); }
      }
    }
  }
}
