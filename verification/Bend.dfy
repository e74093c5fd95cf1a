/** How sharply the commanded path bends along lines (src/block.cpp, src/fsm_impl.hpp): the second differences
    of the setpoints, which an acceleration bounds, also where a block ends and the next begins. */
module Bends {
  import opened Numerics
  import opened Points
  import opened Machines
  import opened Profiles
  import opened Motions
  import opened BlockSpec
  import opened BlockFacts
  import opened FsmSpec
  import opened FsmFacts
  import opened FsmRuns
  import opened Helices
  import opened Paths

  function Bend(x: real, y: real, z: real): real {
    z - 2.0 * y + x
  }

  /** The squared length of r - 2 q + p. */
  function BendSq(p: Point, q: Point, r: Point): real
    requires p.Complete() && q.Complete() && r.Complete()
  {
    Sq(Bend(p.x.value, q.x.value, r.x.value)) + Sq(Bend(p.y.value, q.y.value, r.y.value))
      + Sq(Bend(p.z.value, q.z.value, r.z.value))
  }

  // ----- along a profile -----

  /** The second difference of the way is at most the acceleration times the squared time. */
  lemma TravelBend(p: Profile, A: real, v: real, t: real, h: real)
    requires A > 0.0 && Joined(p) && Limited(A, v, p) && h >= 0.0
    ensures Abs(Bend(Travel(p, t - h), Travel(p, t), Travel(p, t + h))) <= Product(Product(A, h), h)
  {
    hide Travel, Speed, Product, Joined;
    MovesAlways(p, A, t - h, t);
    MovesAlways(p, A, t, t + h);
    assert t - (t - h) == h && t + h - t == h;
  }

  /** Along a line of length `l` the points follow the way. */
  lemma AlongBend(x0: real, dx: real, l1: real, l2: real, l3: real)
    ensures Sq(Bend(Along(x0, dx, l1), Along(x0, dx, l2), Along(x0, dx, l3))) == Product(Sq(dx), Sq(Bend(l1, l2, l3)))
  {
    var b := Bend(l1, l2, l3);
    assert Bend(Along(x0, dx, l1), Along(x0, dx, l2), Along(x0, dx, l3)) == Product(dx, b);
    ProductSq(dx, b);
  }

  lemma WayBend(l: real, r1: real, r2: real, r3: real)
    requires l > 0.0
    ensures Product(l, Bend(r1 / l, r2 / l, r3 / l)) == Bend(r1, r2, r3)
  {
    var x, y, z := r1 / l, r2 / l, r3 / l;
    assert x * l == r1 && y * l == r2 && z * l == r3;
  }

  /** Three points of a line that are equally far apart in time. */
  lemma LineBend(cfg: Config, start: Point, b: BlockState, t: real, h: real)
    requires Moving(cfg, start, b) && b.kind.Line? && h >= 0.0
    ensures CanInterpolate(start, b) && b.profile.l != 0.0
    ensures BendSq(SetpointAt(cfg.libm, start, b, t - h), SetpointAt(cfg.libm, start, b, t),
                   SetpointAt(cfg.libm, start, b, t + h)) <= Sq(Product(Product(cfg.A, h), h))
  {
    MovingSound(cfg, start, b);
    LineBendIs(cfg, start, b, t - h, t, t + h);
    hide Travel, Plan, Plannable, Libm.Valid, Product, Sq, BendSq, Lambda, SetpointAt, CanInterpolate;
    TravelBend(b.profile, cfg.A, b.feedrate / 60.0, t, h);
    SqAbs(Bend(Travel(b.profile, t - h), Travel(b.profile, t), Travel(b.profile, t + h)),
          Product(Product(cfg.A, h), h));
  }

  lemma SqAbs(x: real, y: real)
    requires Abs(x) <= y
    ensures Sq(x) <= Sq(y)
  {
    SqWithin(Abs(x), y);
  }

  /** The points of a line bend as the way along it does. */
  lemma LineBendIs(cfg: Config, start: Point, b: BlockState, t1: real, t2: real, t3: real)
    requires Moving(cfg, start, b) && b.kind.Line?
    ensures CanInterpolate(start, b) && b.profile.l != 0.0
    ensures BendSq(SetpointAt(cfg.libm, start, b, t1), SetpointAt(cfg.libm, start, b, t2),
                   SetpointAt(cfg.libm, start, b, t3))
      == Sq(Bend(Travel(b.profile, t1), Travel(b.profile, t2), Travel(b.profile, t3)))
  {
    MovingSound(cfg, start, b);
    var p := b.profile;
    WayBend(b.length, Travel(p, t1), Travel(p, t2), Travel(p, t3));
    var l1, l2, l3 := Lambda(p, t1), Lambda(p, t2), Lambda(p, t3);
    var bend := Bend(l1, l2, l3);
    assert Product(b.length, bend) == Bend(Travel(p, t1), Travel(p, t2), Travel(p, t3));
    hide Travel, Plan, Plannable, Libm.Valid, Product, Sq, Lambda, Along, Bend, Point.Length;
    AlongBend(start.x.value, b.delta.x.value, l1, l2, l3);
    AlongBend(start.y.value, b.delta.y.value, l1, l2, l3);
    AlongBend(start.z.value, b.delta.z.value, l1, l2, l3);
    SpaceLength(cfg.libm, b.delta);
    ThreeProducts(Sq(b.delta.x.value), Sq(b.delta.y.value), Sq(b.delta.z.value), Sq(bend), Sq(b.length));
    ProductSq(b.length, bend);
  }

  lemma ThreeProducts(x: real, y: real, z: real, h: real, q: real)
    requires x + y + z == q
    ensures Product(x, h) + Product(y, h) + Product(z, h) == Product(q, h)
  {}

  // ----- along the commanded setpoints -----

  /** Three successive setpoints bend by no more than the machine's acceleration in one tick. */
  ghost predicate Bent(cfg: Config, a: Setpoint, b: Setpoint, c: Setpoint) {
    && a.point.Complete() && b.point.Complete() && c.point.Complete()
    && BendSq(a.point, b.point, c.point) <= Sq(Product(Product(cfg.A, cfg.tq), cfg.tq))
  }

  ghost predicate Gradual(cfg: Config, cs: seq<Setpoint>) {
    forall k :: 0 <= k < |cs| - 2 ==> Bent(cfg, cs[k], cs[k + 1], cs[k + 2])
  }

  /** The setpoints of a line at ticks j - 1, j and j + 1 of its clock; before tick 0 it stands at its start. */
  lemma TickBent(cfg: Config, bs: seq<BlockState>, i: nat, j: int)
    requires cfg.Valid() && i < |bs| && Sampled(cfg, bs, i) && bs[i].kind.Line? && CanMove(cfg, bs, i)
    ensures Bent(cfg, SetpointTick(cfg, bs, i, j - 1), SetpointTick(cfg, bs, i, j), SetpointTick(cfg, bs, i, j + 1))
  {
    hide Plan, PointAt, Clock, Sq, Product, Ready, CanInterpolate, Libm.Valid, BendSq, Lambda, SetpointAt;
    SampledMoves(cfg, bs, i);
    var t := Clock(cfg.tq, j);
    NextClock(cfg.tq, j);
    NextClock(cfg.tq, j - 1);
    assert Clock(cfg.tq, j - 1) == t - cfg.tq && Clock(cfg.tq, j + 1) == t + cfg.tq;
    LineBend(cfg, StartAt(cfg, bs, i), bs[i], t, cfg.tq);
    SetpointComplete(cfg, bs, i, t - cfg.tq);
    SetpointComplete(cfg, bs, i, t);
    SetpointComplete(cfg, bs, i, t + cfg.tq);
  }

  lemma CommandsGradual(cfg: Config, bs: seq<BlockState>, i: nat)
    requires cfg.Valid() && i < |bs| && Sampled(cfg, bs, i) && bs[i].kind.Line?
    ensures Gradual(cfg, Commands(cfg, bs, i))
  {
    hide RunnableAt, Bent, SetpointTick, Commands, CanInterpolate;
    SampledMoves(cfg, bs, i);
    CommandsOf(cfg, bs, i);
    var cs := Commands(cfg, bs, i);
    forall k | 0 <= k < |cs| - 2
      ensures Bent(cfg, cs[k], cs[k + 1], cs[k + 2])
    {
      TickBent(cfg, bs, i, k + 1);
    }
  }

  /** Where one line ends and the next begins: the first stands at its target for its last two setpoints, and
      the second starts there from rest. */
  lemma LinesJoin(cfg: Config, bs: seq<BlockState>, i: nat)
    requires cfg.Valid() && i + 1 < |bs| && Sampled(cfg, bs, i) && Sampled(cfg, bs, i + 1)
    requires bs[i].kind.Line? && bs[i + 1].kind.Line?
    ensures var cs, ds := Commands(cfg, bs, i), Commands(cfg, bs, i + 1);
      && |cs| >= 3 && |ds| >= 3
      && Bent(cfg, cs[|cs| - 2], cs[|cs| - 1], ds[0]) && Bent(cfg, cs[|cs| - 1], ds[0], ds[1])
  {
    hide RunnableAt, PointAt, Lambda, Clock, CanInterpolate, Sq, Product, Commands, SetpointAt, Ready, Plan, Libm.Valid;
    CommandsAreWalk(cfg, bs, i);
    CommandsSmooth(cfg, bs, i);
    CommandsSmooth(cfg, bs, i + 1);
    CommandsOf(cfg, bs, i + 1);
    BlocksJoin(cfg, bs, i);
    SampledMoves(cfg, bs, i + 1);
    var cs, ds := Commands(cfg, bs, i), Commands(cfg, bs, i + 1);
    var first, next := SetpointTick(cfg, bs, i + 1, 0), SetpointTick(cfg, bs, i + 1, 1);
    StandsBefore(cfg, bs, i + 1);
    TickBent(cfg, bs, i + 1, 0);
    assert ds[0] == first && ds[1] == next;
    PointBends(cfg, first.point);
  }

  /** Before tick 0 of its clock a block is at its start. */
  lemma StandsBefore(cfg: Config, bs: seq<BlockState>, i: nat)
    requires cfg.Valid() && i < |bs| && Sampled(cfg, bs, i) && CanMove(cfg, bs, i)
    ensures SetpointTick(cfg, bs, i, -1).point == SetpointTick(cfg, bs, i, 0).point
    ensures SetpointTick(cfg, bs, i, 0).point.Complete()
  {
    hide Plan, Travel, PointAt, CanInterpolate, Libm.Valid;
    SampledMoves(cfg, bs, i);
    MovingSound(cfg, StartAt(cfg, bs, i), bs[i]);
    SetpointComplete(cfg, bs, i, Clock(cfg.tq, 0));
    Progress(cfg, bs[i].arcFeedrate, bs[i].length, Clock(cfg.tq, -1), Clock(cfg.tq, 0));
    Progress(cfg, bs[i].arcFeedrate, bs[i].length, Clock(cfg.tq, 0), Clock(cfg.tq, 0));
  }

  lemma PointBends(cfg: Config, p: Point)
    requires p.Complete()
    ensures BendSq(p, p, p) <= Sq(Product(Product(cfg.A, cfg.tq), cfg.tq))
  {
    SqZero();
    SqPositive(Product(Product(cfg.A, cfg.tq), cfg.tq));
  }

  /** Along any run of consecutive lines every three successive setpoints p, q, r satisfy
      |r - 2 q + p| <= A tq^2, at repeated endpoints and from one block to the next too. */
  lemma {:induction false} StreamGradual(cfg: Config, bs: seq<BlockState>, lo: nat, hi: nat)
    requires cfg.Valid() && lo < hi <= |bs|
    requires forall i :: lo <= i < hi ==> Sampled(cfg, bs, i) && bs[i].kind.Line?
    ensures Gradual(cfg, Stream(cfg, bs, lo, hi))
    ensures var cs, first := Stream(cfg, bs, lo, hi), Commands(cfg, bs, lo);
      |first| >= 3 && |cs| >= |first| && cs[0] == first[0] && cs[1] == first[1]
    decreases hi - lo
  {
    hide RunnableAt, Bent, Sampled, Gradual, Commands, Smooth, TicksWithin, Gentle;
    CommandsGradual(cfg, bs, lo);
    CommandsSmooth(cfg, bs, lo);
    var cs := Commands(cfg, bs, lo);
    if lo + 1 == hi {
      assert Stream(cfg, bs, lo, hi) == cs;
    } else {
      StreamGradual(cfg, bs, lo + 1, hi);
      LinesJoin(cfg, bs, lo);
      GradualJoin(cfg, cs, Stream(cfg, bs, lo + 1, hi));
    }
  }

  lemma GradualJoin(cfg: Config, cs: seq<Setpoint>, ds: seq<Setpoint>)
    requires |cs| >= 2 && |ds| >= 2 && Gradual(cfg, cs) && Gradual(cfg, ds)
    requires Bent(cfg, cs[|cs| - 2], cs[|cs| - 1], ds[0]) && Bent(cfg, cs[|cs| - 1], ds[0], ds[1])
    ensures Gradual(cfg, cs + ds)
  {
    hide Bent;
    var es, n := cs + ds, |cs|;
    forall k | 0 <= k < |es| - 2
      ensures Bent(cfg, es[k], es[k + 1], es[k + 2])
    {
      if k < n - 2 {
        assert Bent(cfg, cs[k], cs[k + 1], cs[k + 2]);
      } else if k >= n {
        assert Bent(cfg, ds[k - n], ds[k - n + 1], ds[k - n + 2]);
      }
    }
  }
}
