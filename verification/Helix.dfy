/** Blocks whose motion leaves the plane of their arc: their length counts X and Y only (src/block.cpp), so
    that the tool can be faster in space than the feedrate. Exactly when, and by how much. */
module Helices {
  import opened Numerics
  import opened Points
  import opened Machines
  import opened Profiles
  import opened Motions
  import opened Arcs
  import opened BlockSpec
  import opened BlockFacts

  // ----- distances -----

  /** The squared distance between two points of the path in the XY plane, or in space for a line, over a
      part `h` of it. */
  function PathSq(m: Libm, b: BlockState, h: real): real
    requires !b.kind.Line? ==> b.arc.Some?
  {
    if b.kind.Line? then Sq(Product(b.length, h)) else ChordSq(m, b.arc.value, h)
  }

  /** The squared distance between two setpoints is that along the line, or the squared chord of the arc and
      the squared climb together. */
  lemma SetpointDistance(cfg: Config, start: Point, b: BlockState, t1: real, t2: real)
    requires Moving(cfg, start, b)
    ensures CanInterpolate(start, b) && b.profile.l != 0.0
    ensures var l1, l2 := Lambda(b.profile, t1), Lambda(b.profile, t2);
      DistSq(SetpointAt(cfg.libm, start, b, t1), SetpointAt(cfg.libm, start, b, t2))
        == PathSq(cfg.libm, b, l2 - l1) + Climb(b, l1, l2)
  {
    hide Speed, Travel, Plan, Libm.Valid, Sq, Along, Lambda, ArcX, ArcY, SweptAbout, Length, Point.Length, ChordSq;
    MovingSound(cfg, start, b);
    var l1, l2 := Lambda(b.profile, t1), Lambda(b.profile, t2);
    var h := l2 - l1;
    AlongStep(start.z.value, b.delta.z.value, l1, l2);
    if b.kind.Line? {
      AlongStep(start.x.value, b.delta.x.value, l1, l2);
      AlongStep(start.y.value, b.delta.y.value, l1, l2);
      SpaceLength(cfg.libm, b.delta);
      ThreeSquares(Sq(b.delta.x.value), Sq(b.delta.y.value), Sq(b.delta.z.value), Sq(h), Sq(b.length));
      SqOfProduct(b.length, h, Product(b.length, h));
    } else {
      ChordIs(cfg.libm, b.arc.value, l1, l2);
      SqFlip(ArcX(cfg.libm, b.arc.value, l1), ArcX(cfg.libm, b.arc.value, l2));
      SqFlip(ArcY(cfg.libm, b.arc.value, l1), ArcY(cfg.libm, b.arc.value, l2));
    }
  }

  lemma PathWithin(cfg: Config, b: BlockState, h: real)
    requires cfg.Valid() && (!b.kind.Line? ==> b.arc.Some? && b.length == Length(b.arc.value))
    ensures PathSq(cfg.libm, b, h) <= Sq(Product(b.length, h))
  {
    hide Sq, ChordSq, Length, Libm.Valid, ArcX, ArcY;
    if !b.kind.Line? {
      ChordIs(cfg.libm, b.arc.value, 0.0, h);
      ChordWithinArc(cfg.libm, b.arc.value, 0.0, h);
      assert h - 0.0 == h;
    }
  }

  /** Two setpoints of one block are no farther apart than the feedrate F (mm/min) allows in the time
      between them and the climb together. */
  lemma SetpointStep(cfg: Config, start: Point, b: BlockState, t1: real, t2: real)
    requires Moving(cfg, start, b) && t1 <= t2
    ensures CanInterpolate(start, b) && b.profile.l != 0.0
    ensures DistSq(SetpointAt(cfg.libm, start, b, t1), SetpointAt(cfg.libm, start, b, t2))
         <= Sq(Reach(b.feedrate, t2 - t1)) + Climb(b, Lambda(b.profile, t1), Lambda(b.profile, t2))
  {
    SetpointDistance(cfg, start, b, t1, t2);
    ProgressStep(cfg, start, b, t1, t2);
    hide DistSq, SetpointAt, Lambda, Plan, Plannable, Libm.Valid, Sq, PathSq, SweptAbout, Length, CanInterpolate,
      Point.Length, Climb;
    PathWithin(cfg, b, Lambda(b.profile, t2) - Lambda(b.profile, t1));
  }

  // ----- speed in space -----

  /** The peak speed in space keeps within the feedrate: for a line always, and for an arc if the climb is
      gentle enough for its peak speed. */
  predicate Gentle(b: BlockState)
    requires b.profile.Planned? && b.delta.Complete()
  {
    b.kind.Line? || Product(Sq(b.profile.f), SpanSq(b)) <= Product(Sq(b.feedrate / 60.0), Sq(b.length))
  }

  /** The squared length of the path in space. */
  function SpanSq(b: BlockState): real
    requires b.delta.Complete()
  {
    if b.kind.Line? then Sq(b.length) else Sq(b.length) + Sq(b.delta.z.value)
  }

  /** The squared speed in space at time `t`: that along the path in the plane, and that of the climb. */
  function SpaceSpeedSq(b: BlockState, t: real): real
    requires b.profile.Planned? && b.delta.Complete() && b.length > 0.0
  {
    Sq(Speed(b.profile, t)) + if b.kind.Line? then 0.0 else Sq(ClimbRate(b, t))
  }

  /** How fast Z moves: progress grows by speed over length. */
  function ClimbRate(b: BlockState, t: real): real
    requires b.profile.Planned? && b.delta.Complete() && b.length > 0.0
  {
    b.delta.z.value * (Speed(b.profile, t) / b.length)
  }

  lemma SpaceSpeedIs(b: BlockState, t: real)
    requires b.profile.Planned? && b.delta.Complete() && b.length > 0.0
    ensures Product(SpaceSpeedSq(b, t), Sq(b.length)) == Product(Sq(Speed(b.profile, t)), SpanSq(b))
  {
    hide Speed, Sq;
    var v, dz, l := Speed(b.profile, t), b.delta.z.value, b.length;
    if !b.kind.Line? {
      var y := ClimbRate(b, t);
      RateTimes(v, dz, l, y);
      SqOfProduct(y, l, dz * v);
      SqOfProduct(dz, v, dz * v);
      SumTimes(Sq(v), Sq(y), Sq(l), Sq(dz));
    }
  }

  lemma RateTimes(v: real, dz: real, l: real, y: real)
    requires l > 0.0 && y == dz * (v / l)
    ensures dz * v == y * l
  {
    var x := v / l;
    assert x * l == v;
  }

  lemma SumTimes(v: real, y: real, l: real, dz: real)
    requires y * l == dz * v
    ensures Product(v + y, l) == Product(v, l + dz)
  {}

  /** At the end of its first ramp a block is at its peak. */
  lemma PeakReached(p: Profile)
    requires Joined(p)
    ensures Speed(p, p.dt1) == p.f
  {
    Cruising(p, p.dt1);
  }

  /** The speed in space keeps within the feedrate at all times exactly when the block is gentle. */
  lemma SpeedInSpace(cfg: Config, start: Point, b: BlockState)
    requires Moving(cfg, start, b)
    ensures b.length > 0.0
    ensures (forall t :: SpaceSpeedSq(b, t) <= Sq(b.feedrate / 60.0)) <==> Gentle(b)
  {
    MovingSound(cfg, start, b);
    hide Speed, Sq, Product, Joined, Ready, Libm.Valid, Plan, SpanSq, SpaceSpeedSq;
    var p, g, q := b.profile, Sq(b.feedrate / 60.0), Sq(b.length);
    SqPositive(b.length);
    SpanPositive(b);
    PeakReached(p);
    SpaceSpeedIs(b, p.dt1);
    ProductOrder(SpaceSpeedSq(b, p.dt1), g, q);
    forall t
      ensures Gentle(b) ==> SpaceSpeedSq(b, t) <= g
    {
      SpeedRange(p, cfg.A, b.feedrate / 60.0, t);
      SpaceSpeedIs(b, t);
      ProductOrder(SpaceSpeedSq(b, t), g, q);
      SqWithin(Speed(p, t), p.f);
      ProductMono(Sq(Speed(p, t)), Sq(p.f), SpanSq(b));
      if b.kind.Line? {
        LineSpan(b);
        SqWithin(p.f, b.feedrate / 60.0);
        ProductMono(Sq(p.f), g, SpanSq(b));
      }
    }
    LineGentle(b);
  }

  lemma LineGentle(b: BlockState)
    requires b.profile.Planned? && b.delta.Complete()
    ensures b.kind.Line? ==> Gentle(b)
    ensures !b.kind.Line? ==>
      (Gentle(b) <==> Product(Sq(b.profile.f), SpanSq(b)) <= Product(Sq(b.feedrate / 60.0), Sq(b.length)))
  {}

  lemma LineSpan(b: BlockState)
    requires b.delta.Complete() && b.kind.Line?
    ensures SpanSq(b) == Sq(b.length)
  {}

  lemma SpanPositive(b: BlockState)
    requires b.delta.Complete() && b.length > 0.0
    ensures SpanSq(b) > 0.0
  {
    SqPositive(b.length);
    SqPositive(b.delta.z.value);
  }

  lemma ProductOrder(x: real, y: real, c: real)
    requires c > 0.0
    ensures Product(x, c) <= Product(y, c) <==> x <= y
  {
    if x <= y {
      MulMono(x, y, c);
    } else {
      MulStrict(y, x, c);
    }
  }

  lemma ProductMono(x: real, y: real, c: real)
    requires x <= y && c >= 0.0
    ensures Product(x, c) <= Product(y, c)
  {
    MulMono(x, y, c);
  }

  // ----- distances between setpoints -----

  /** In the time from `t1` to `t2` the way along the path is the growth of progress times the length. */
  lemma Way(cfg: Config, start: Point, b: BlockState, t1: real, t2: real)
    requires Moving(cfg, start, b)
    ensures b.profile.l == b.length > 0.0
    ensures Product(b.length, Lambda(b.profile, t2) - Lambda(b.profile, t1))
      == Travel(b.profile, t2) - Travel(b.profile, t1)
  {
    hide Speed, Travel, Plan, Libm.Valid, Product;
    MovingSound(cfg, start, b);
    LengthTimes(b.length, Travel(b.profile, t1), Travel(b.profile, t2));
  }

  /** Two setpoints are no farther apart than their path in space is long. */
  lemma WithinSpan(cfg: Config, start: Point, b: BlockState, t1: real, t2: real)
    requires Moving(cfg, start, b)
    ensures CanInterpolate(start, b) && b.profile.l != 0.0
    ensures DistSq(SetpointAt(cfg.libm, start, b, t1), SetpointAt(cfg.libm, start, b, t2))
      <= Product(SpanSq(b), Sq(Lambda(b.profile, t2) - Lambda(b.profile, t1)))
  {
    SetpointDistance(cfg, start, b, t1, t2);
    hide DistSq, SetpointAt, Lambda, Plan, Plannable, Libm.Valid, Sq, PathSq, SweptAbout, Length, CanInterpolate,
      Point.Length;
    var h := Lambda(b.profile, t2) - Lambda(b.profile, t1);
    PathWithin(cfg, b, h);
    ProductSq(b.length, h);
    SpanTimes(b, Lambda(b.profile, t1), Lambda(b.profile, t2));
  }

  lemma SpanTimes(b: BlockState, l1: real, l2: real)
    requires b.delta.Complete()
    ensures Product(SpanSq(b), Sq(l2 - l1)) == Product(Sq(b.length), Sq(l2 - l1)) + Climb(b, l1, l2)
  {
    hide Sq;
  }

  /** Setpoints of a gentle block are never farther apart than the feedrate allows in the time between. */
  lemma GentleSteps(cfg: Config, start: Point, b: BlockState, t1: real, t2: real)
    requires Moving(cfg, start, b) && Gentle(b) && t1 <= t2
    ensures CanInterpolate(start, b) && b.profile.l != 0.0
    ensures DistSq(SetpointAt(cfg.libm, start, b, t1), SetpointAt(cfg.libm, start, b, t2))
      <= Sq(Reach(b.feedrate, t2 - t1))
  {
    WithinSpan(cfg, start, b, t1, t2);
    WayBound(cfg, start, b, t1, t2);
    hide Moving, DistSq, SetpointAt, Lambda, Sq, CanInterpolate, SpanSq, Product, Reach;
    var g, dt := b.feedrate / 60.0, t2 - t1;
    ProductSq(g, dt);
    ReachIs(b.feedrate, dt);
    GentleBound(SpanSq(b), Sq(Lambda(b.profile, t2) - Lambda(b.profile, t1)), Sq(b.length), Sq(b.profile.f), Sq(dt),
                Sq(g));
  }

  /** The way along the path is within the peak speed, and a gentle block's peak within its feedrate. */
  lemma WayBound(cfg: Config, start: Point, b: BlockState, t1: real, t2: real)
    requires Moving(cfg, start, b) && Gentle(b) && t1 <= t2
    ensures b.profile.l != 0.0 && Sq(b.length) > 0.0 && SpanSq(b) >= 0.0 && Sq(t2 - t1) >= 0.0
    ensures Product(Sq(b.length), Sq(Lambda(b.profile, t2) - Lambda(b.profile, t1)))
      <= Product(Sq(b.profile.f), Sq(t2 - t1))
    ensures Product(Sq(b.profile.f), SpanSq(b)) <= Product(Sq(b.feedrate / 60.0), Sq(b.length))
  {
    MovingSound(cfg, start, b);
    Way(cfg, start, b, t1, t2);
    hide Lambda, Travel, Speed, Plan, Plannable, Libm.Valid, Sq, SpanSq, Product, Gentle, SweptAbout, Whole;
    var h, dt := Lambda(b.profile, t2) - Lambda(b.profile, t1), t2 - t1;
    var r := Travel(b.profile, t2) - Travel(b.profile, t1);
    WayRange(cfg, b, t1, t2);
    ProductSq(b.length, h);
    ProductSq(b.profile.f, dt);
    SqWithin(r, Product(b.profile.f, dt));
    SqPositive(b.length);
    SqPositive(dt);
    SpanPositive(b);
    GentleCondition(b);
  }

  lemma WayRange(cfg: Config, b: BlockState, t1: real, t2: real)
    requires t1 <= t2 && b.profile.Planned? && Sound(cfg.A, cfg.tq, b.feedrate / 60.0, b.profile) && cfg.A > 0.0
    ensures 0.0 <= Travel(b.profile, t2) - Travel(b.profile, t1) <= Product(b.profile.f, t2 - t1)
  {
    hide Travel, Speed, Product;
    MovesAlways(b.profile, cfg.A, t1, t2);
  }

  lemma GentleCondition(b: BlockState)
    requires b.profile.Planned? && b.delta.Complete() && Gentle(b) && 0.0 <= b.profile.f <= b.feedrate / 60.0
    ensures Product(Sq(b.profile.f), SpanSq(b)) <= Product(Sq(b.feedrate / 60.0), Sq(b.length))
  {
    hide Sq, Product;
    if b.kind.Line? {
      SqWithin(b.profile.f, b.feedrate / 60.0);
      SqPositive(b.length);
      ProductMono(Sq(b.profile.f), Sq(b.feedrate / 60.0), Sq(b.length));
    }
  }

  lemma ReachIs(F: real, h: real)
    ensures Reach(F, h) == Product(F / 60.0, h)
  {}

  lemma ProductSq(x: real, y: real)
    ensures Sq(Product(x, y)) == Product(Sq(x), Sq(y))
  {
    SqOfProduct(x, y, x * y);
  }

  lemma GentleBound(s: real, h: real, q: real, f: real, t: real, g: real)
    requires q > 0.0 && s >= 0.0 && t >= 0.0
    requires Product(q, h) <= Product(f, t) && Product(f, s) <= Product(g, q)
    ensures Product(s, h) <= Product(g, t)
  {
    MulMono(q * h, f * t, s);
    MulMono(f * s, g * q, t);
    var x, y := s * h, g * t;
    assert x * q == q * h * s;
    assert y * q == g * q * t;
    assert f * t * s == f * s * t;
    CancelLe(x, y, q);
  }

  // ----- blocks that are not gentle -----

  /** The setpoints just before the peak of a block that is not gentle are farther apart than the feedrate
      allows. */
  lemma SteepSteps(cfg: Config, start: Point, b: BlockState) returns (t1: real, t2: real)
    requires Moving(cfg, start, b) && !Gentle(b)
    ensures t1 <= t2 && CanInterpolate(start, b) && b.profile.l != 0.0
    ensures DistSq(SetpointAt(cfg.libm, start, b, t1), SetpointAt(cfg.libm, start, b, t2))
      > Sq(Reach(b.feedrate, t2 - t1))
  {
    MovingSound(cfg, start, b);
    hide DistSq, SetpointAt, Lambda, Plan, Libm.Valid, Sq, CanInterpolate, Product, Whole, Plannable, SweptAbout, Brief;
    var p, g := b.profile, b.feedrate / 60.0;
    var q, w, s, x, k := Sq(b.length), Sq(b.arc.value.dtheta), SpanSq(b), Sq(p.f), Product(p.f, p.a);
    SqPositive(b.arc.value.dtheta);
    SqPositive(p.f);
    ProductPositive(p.f, p.a);
    SpanPositive(b);
    var e := BriefTime(x, k, Product(w, x), s, w, Product(Sq(g), q), p.dt1);
    t1, t2 := p.dt1 - e, p.dt1;
    assert t2 - t1 == e;
    SteepEnd(cfg, start, b, e);
  }

  /** How far progress grows in the last time `e` of the first ramp. */
  function Growth(b: BlockState, e: real): real
    requires b.profile.Planned? && b.profile.l != 0.0
  {
    Lambda(b.profile, b.profile.dt1) - Lambda(b.profile, b.profile.dt1 - e)
  }

  /** The distance covered in that time is a part of the path and the climb. */
  lemma PeakPath(cfg: Config, start: Point, b: BlockState, e: real)
    requires Moving(cfg, start, b) && !b.kind.Line?
    ensures CanInterpolate(start, b) && b.profile.l != 0.0
    ensures var p := b.profile;
      DistSq(SetpointAt(cfg.libm, start, b, p.dt1 - e), SetpointAt(cfg.libm, start, b, p.dt1))
        == PathSq(cfg.libm, b, Growth(b, e)) + Product(Sq(b.delta.z.value), Sq(Growth(b, e)))
  {
    SetpointDistance(cfg, start, b, b.profile.dt1 - e, b.profile.dt1);
    hide DistSq, SetpointAt, Lambda, Plan, Plannable, Libm.Valid, PathSq, CanInterpolate, SweptAbout, Sq, Product,
      Climb;
    ClimbIs(b, Lambda(b.profile, b.profile.dt1 - e), Lambda(b.profile, b.profile.dt1));
  }

  /** What is known of that part of the path. */
  lemma PeakRamp(cfg: Config, start: Point, b: BlockState, e: real)
    requires Moving(cfg, start, b) && !b.kind.Line? && 0.0 < e <= b.profile.dt1
    ensures b.profile.l != 0.0 && b.arc.Some?
    ensures var p, h := b.profile, Sq(Growth(b, e));
      var d := Product(Sq(b.length), h);
      && 0.0 <= d && Product(Sq(p.f) - Product(Product(p.f, p.a), e), Sq(e)) <= d <= Product(Sq(p.f), Sq(e))
      && PathSq(cfg.libm, b, Growth(b, e)) >= d - Product(d, Product(Sq(b.arc.value.dtheta), h)) / 12.0
  {
    MovingSound(cfg, start, b);
    hide Lambda, Travel, Plan, Plannable, Libm.Valid, Sq, Product, PathSq, SweptAbout, Limited, Whole;
    var p, h := b.profile, Growth(b, e);
    Way(cfg, start, b, p.dt1 - e, p.dt1);
    var d := Travel(p, p.dt1) - Travel(p, p.dt1 - e);
    RampWay(p, e, d);
    ProductSq(b.length, h);
    SqPositive(d);
    ChordBeyond(cfg, b, h);
  }

  lemma SteepEnd(cfg: Config, start: Point, b: BlockState, e: real)
    requires Moving(cfg, start, b) && !b.kind.Line? && b.arc.Some?
    requires var p, g, w := b.profile, b.feedrate / 60.0, Sq(b.arc.value.dtheta);
      var m := Product(w, Sq(p.f));
      && 0.0 < e <= p.dt1 && e <= 1.0 && SpanSq(b) - Product(m, e) >= 0.0
      && Brief(Sq(p.f), Product(p.f, p.a), m, SpanSq(b), e) > Product(Sq(g), Sq(b.length))
    ensures CanInterpolate(start, b) && b.profile.l != 0.0
    ensures var t2 := b.profile.dt1;
      DistSq(SetpointAt(cfg.libm, start, b, t2 - e), SetpointAt(cfg.libm, start, b, t2)) > Sq(Reach(b.feedrate, e))
  {
    SteepSigns(cfg, start, b);
    PeakPath(cfg, start, b, e);
    PeakRamp(cfg, start, b, e);
    hide Moving, DistSq, SetpointAt, Sq, CanInterpolate, Product, PathSq, Growth, Brief, Reach;
    var p, g, t2 := b.profile, b.feedrate / 60.0, b.profile.dt1;
    var h, w := Sq(Growth(b, e)), Sq(b.arc.value.dtheta);
    ReachIs(b.feedrate, e);
    ProductSq(g, e);
    var dist := DistSq(SetpointAt(cfg.libm, start, b, t2 - e), SetpointAt(cfg.libm, start, b, t2));
    SteepBound(dist, h, Product(Sq(b.length), h), SpanSq(b), Sq(b.delta.z.value), Sq(b.length), w, Sq(p.f),
               Product(p.f, p.a), Product(w, Sq(p.f)), e, Sq(e), Sq(g), PathSq(cfg.libm, b, Growth(b, e)));
  }

  lemma SteepSigns(cfg: Config, start: Point, b: BlockState)
    requires Moving(cfg, start, b) && !b.kind.Line? && b.arc.Some?
    ensures b.delta.Complete() && b.length > 0.0 && b.profile.f > 0.0
    ensures Sq(b.length) > 0.0 && Sq(b.profile.f) > 0.0
    ensures Sq(b.arc.value.dtheta) >= 0.0 && Sq(b.feedrate / 60.0) >= 0.0
  {
    MovingSound(cfg, start, b);
    hide Sq, Plan, Plannable, Libm.Valid;
    SqPositive(b.length);
    SqPositive(b.profile.f);
    SqPositive(b.arc.value.dtheta);
    SqPositive(b.feedrate / 60.0);
  }

  lemma ClimbIs(b: BlockState, l1: real, l2: real)
    requires b.delta.Complete() && !b.kind.Line?
    ensures Climb(b, l1, l2) == Product(Sq(b.delta.z.value), Sq(l2 - l1))
  {}

  /** A time `e` so short that the speed lost in it and the bend of the arc do not matter. */
  lemma BriefTime(x: real, k: real, m: real, s: real, w: real, gq: real, dt1: real) returns (e: real)
    requires k > 0.0 && x > 0.0 && s > 0.0 && dt1 > 0.0 && w >= 0.0 && m == Product(w, x) && Product(x, s) > gq
    ensures 0.0 < e <= dt1 && e <= 1.0
    ensures Brief(x, k, m, s, e) > gq && s - Product(m, e) >= 0.0
  {
    hide Brief;
    MulNonNegative(w, x);
    var c := k * s + x * m + 1.0;
    MulPositive(k, s);
    MulNonNegative(x, m);
    e := FourBounds(dt1, Product(x, s) - gq, 2.0 * c, s, m + 1.0);
    BriefBound(x, s, k, m, e, gq, c);
  }

  lemma FourBounds(dt1: real, y1: real, c1: real, y2: real, c2: real) returns (e: real)
    requires dt1 > 0.0 && y1 > 0.0 && c1 > 0.0 && y2 > 0.0 && c2 > 0.0
    ensures 0.0 < e <= dt1 && e <= 1.0 && e * c1 <= y1 && e * c2 <= y2
  {
    var e1, e2 := y1 / c1, y2 / c2;
    DivPositive(y1, c1);
    DivPositive(y2, c2);
    e := Min(Min(dt1, 1.0), Min(e1, e2));
    FractionBound(y1, c1, e1, e);
    FractionBound(y2, c2, e2, e);
  }

  lemma FractionBound(x: real, c: real, q: real, e: real)
    requires c > 0.0 && q == x / c && e <= q
    ensures e * c <= x
  {
    assert q * c == x;
    MulMono(e, q, c);
  }

  /** What a time `e` leaves of the product of x and s. */
  function Brief(x: real, k: real, m: real, s: real, e: real): real {
    Product(x - Product(k, e), s - Product(m, e))
  }

  lemma BriefBound(x: real, s: real, k: real, m: real, e: real, gq: real, c: real)
    requires e > 0.0 && k >= 0.0 && m >= 0.0 && x >= 0.0 && s >= 0.0 && c == k * s + x * m + 1.0
    requires e * (2.0 * c) <= Product(x, s) - gq && e * (m + 1.0) <= s && Product(x, s) > gq
    ensures Brief(x, k, m, s, e) > gq && s - Product(m, e) >= 0.0
  {
    MulNonNegative(k, m);
    MulNonNegative(k * m, e * e);
    MulNonNegative(k, s);
    MulNonNegative(x, m);
    var u := k * s + x * m;
    BriefExpands(x, s, k, m, e, u);
    BriefSum(e, c, u);
  }

  lemma BriefSum(e: real, c: real, u: real)
    requires c == u + 1.0 && e > 0.0 && u >= 0.0
    ensures e * (2.0 * c) >= e * u + e
  {
    MulNonNegative(e, u);
  }

  lemma BriefExpands(x: real, s: real, k: real, m: real, e: real, u: real)
    requires u == k * s + x * m
    ensures Brief(x, k, m, s, e) == Product(x, s) - e * u + k * m * (e * e)
  {}

  /** The way along a path in the last time `e` of its first ramp. */
  lemma RampWay(p: Profile, e: real, d: real)
    requires Joined(p) && 0.0 < e <= p.dt1 && d == Travel(p, p.dt1) - Travel(p, p.dt1 - e)
    ensures Product(Sq(p.f) - Product(Product(p.f, p.a), e), Sq(e)) <= Sq(d) <= Product(Sq(p.f), Sq(e))
  {
    hide Travel;
    Accelerating(p, p.dt1);
    Accelerating(p, p.dt1 - e);
    RampDistance(p.f, p.a, p.dt1, e, d);
  }

  lemma RampDistance(f: real, a: real, dt1: real, e: real, d: real)
    requires a > 0.0 && 0.0 < e <= dt1 && a * dt1 == f
    requires d == a * dt1 * dt1 / 2.0 - a * (dt1 - e) * (dt1 - e) / 2.0
    ensures Product(Sq(f) - Product(Product(f, a), e), Sq(e)) <= Sq(d) <= Product(Sq(f), Sq(e))
  {
    var y := Product(a, e) / 2.0;
    RampLength(f, a, dt1, e, d, y);
    RampDrop(f, a, dt1, e, y);
    SpeedDrop(f, a, e, y);
    RampSquare(f, y, e, Sq(f) - Product(Product(f, a), e));
  }

  lemma RampLength(f: real, a: real, dt1: real, e: real, d: real, y: real)
    requires f == a * dt1 && y == Product(a, e) / 2.0
    requires d == a * dt1 * dt1 / 2.0 - a * (dt1 - e) * (dt1 - e) / 2.0
    ensures d == Product(f - y, e)
  {
    assert d == a * dt1 * e - a * e * e / 2.0;
  }

  lemma RampDrop(f: real, a: real, dt1: real, e: real, y: real)
    requires a > 0.0 && 0.0 < e <= dt1 && f == a * dt1 && y == Product(a, e) / 2.0
    ensures 0.0 <= f - y <= f
  {
    MulPositive(a, e);
    MulMono(e, dt1, a);
  }

  lemma SpeedDrop(f: real, a: real, e: real, y: real)
    requires y == Product(a, e) / 2.0
    ensures Sq(f - y) >= Sq(f) - Product(Product(f, a), e)
  {
    SqPositive(y);
    assert Sq(f - y) == Sq(f) - 2.0 * (f * y) + Sq(y);
    assert 2.0 * (f * y) == f * a * e;
  }

  lemma RampSquare(f: real, y: real, e: real, low: real)
    requires 0.0 <= f - y <= f && Sq(f - y) >= low
    ensures Product(low, Sq(e)) <= Sq(Product(f - y, e)) <= Product(Sq(f), Sq(e))
  {
    hide Sq, Product;
    ProductSq(f - y, e);
    SqPositive(e);
    SqWithin(f - y, f);
    ProductMono(low, Sq(f - y), Sq(e));
    ProductMono(Sq(f - y), Sq(f), Sq(e));
  }

  /** A chord falls short of its arc by no more than a fourth power of the angle. */
  lemma ChordBeyond(cfg: Config, b: BlockState, h: real)
    requires cfg.Valid() && !b.kind.Line? && b.arc.Some? && b.length == Length(b.arc.value)
    ensures var x := Product(Sq(b.length), Sq(h));
      PathSq(cfg.libm, b, h) >= x - Product(x, Product(Sq(b.arc.value.dtheta), Sq(h))) / 12.0
  {
    var a := b.arc.value;
    var phi := Product(a.dtheta, h);
    assert cfg.libm.Round(phi);
    ProductSq(a.dtheta, h);
    LengthSq(a);
    SqPositive(a.r);
    RoundBound(cfg.libm.cos(phi), phi, Sq(phi));
    ChordBound(Sq(a.r), Sq(a.dtheta), Sq(h), Sq(phi), UnitChordSq(cfg.libm, phi), Sq(b.length));
  }

  lemma LengthSq(a: Arc)
    ensures Sq(Length(a)) == Sq(a.dtheta) * Sq(a.r)
  {
    SqOfProduct(a.dtheta, a.r, a.dtheta * a.r);
  }

  lemma RoundBound(c: real, phi: real, u: real)
    requires u == phi * phi && c <= 1.0 - phi * phi / 2.0 + phi * phi * phi * phi / 24.0
    ensures 2.0 - 2.0 * c >= u - u * u / 12.0
  {
    assert phi * phi * phi * phi == u * u;
  }

  lemma ChordBound(r: real, w: real, h: real, u: real, chord: real, q: real)
    requires r >= 0.0 && u == Product(w, h) && chord >= u - u * u / 12.0 && q == w * r
    ensures Product(r, chord) >= Product(q, h) - Product(Product(q, h), Product(w, h)) / 12.0
  {
    MulMono(u - u * u / 12.0, chord, r);
    assert r * u == q * h;
    assert r * (u * u) == q * h * u;
  }

  lemma SteepBound(dist: real, h: real, d: real, s: real, z: real, q: real, w: real, x: real, k: real, m: real,
                   e: real, e2: real, g: real, path: real)
    requires q > 0.0 && w >= 0.0 && x > 0.0 && m == Product(w, x) && 0.0 < e <= 1.0 && e2 == Sq(e) && g >= 0.0
    requires s == q + z && s - Product(m, e) >= 0.0
    requires d == Product(q, h) >= 0.0 && path >= d - Product(d, Product(w, h)) / 12.0 && dist == path + Product(z, h)
    requires Product(x - Product(k, e), e2) <= d <= Product(x, e2)
    requires Brief(x, k, m, s, e) > Product(g, q)
    ensures dist > Product(g, e2)
  {
    var rest, y := s - Product(m, e), x - Product(k, e);
    SquareShrinks(e, e2);
    SpanDistance(dist, h, d, s, z, q, w, path);
    SmallBend(d, s, w, x, e, e2, rest);
    PeakDistance(d, rest, y, e2, Product(g, q));
    SpanCancels(dist, q, g, e2);
  }

  lemma SquareShrinks(e: real, e2: real)
    requires 0.0 < e <= 1.0 && e2 == Sq(e)
    ensures 0.0 < e2 <= e
  {
    SqPositive(e);
    var y := 1.0 - e;
    MulNonNegative(e, y);
    assert e * y == e - e2;
  }

  lemma SpanDistance(dist: real, h: real, d: real, s: real, z: real, q: real, w: real, path: real)
    requires q > 0.0 && s == q + z && d == Product(q, h)
    requires path >= d - Product(d, Product(w, h)) / 12.0 && dist == path + Product(z, h)
    ensures Product(dist, q) >= Product(d, s) - Product(d, Product(w, d)) / 12.0
  {
    MulMono(d - d * (w * h) / 12.0, path, q);
    assert q * (d * (w * h)) == d * (w * d);
    assert z * h * q == z * d;
  }

  lemma SmallBend(d: real, s: real, w: real, x: real, e: real, e2: real, rest: real)
    requires w >= 0.0 && x > 0.0 && e2 <= e && 0.0 <= d <= Product(x, e2)
    requires rest == s - Product(Product(w, x), e)
    ensures Product(d, s) - Product(d, Product(w, d)) / 12.0 >= Product(d, rest)
  {
    MulMono(e2, e, x);
    MulMono(d, x * e, w);
    MulNonNegative(w, d);
    var y, u := w * d, w * (x * e);
    MulMono(y / 12.0, u, d);
    assert rest == s - u;
  }

  lemma PeakDistance(d: real, rest: real, y: real, e2: real, gq: real)
    requires e2 > 0.0 && rest >= 0.0 && d >= Product(y, e2) && Product(y, rest) > gq
    ensures Product(d, rest) > Product(e2, gq)
  {
    MulMono(y * e2, d, rest);
    MulStrict(gq, y * rest, e2);
    assert y * e2 * rest == y * rest * e2;
  }

  lemma SpanCancels(dist: real, q: real, g: real, e2: real)
    requires q > 0.0 && Product(dist, q) > Product(e2, Product(g, q))
    ensures dist > Product(g, e2)
  {
    var y := g * e2;
    assert e2 * (g * q) == y * q;
    if dist <= y {
      MulMono(dist, y, q);
    }
  }

  /** No two setpoints of a block are farther apart than the feedrate allows in the time between them exactly
      when the block is gentle. */
  lemma StepsExact(cfg: Config, start: Point, b: BlockState)
    requires Moving(cfg, start, b)
    ensures CanInterpolate(start, b) && b.profile.l != 0.0
    ensures (forall t1, t2 :: t1 <= t2 ==> Near(cfg, start, b, t1, t2)) <==> Gentle(b)
  {
    hide DistSq, SetpointAt, Plan, Libm.Valid, Sq, CanInterpolate, Gentle;
    MovingSound(cfg, start, b);
    if Gentle(b) {
      forall t1, t2 | t1 <= t2
        ensures Near(cfg, start, b, t1, t2)
      {
        GentleSteps(cfg, start, b, t1, t2);
      }
    } else {
      var t1, t2 := SteepSteps(cfg, start, b);
      assert !Near(cfg, start, b, t1, t2);
    }
  }

  predicate Near(cfg: Config, start: Point, b: BlockState, t1: real, t2: real)
    requires CanInterpolate(start, b) && b.profile.Planned? && b.profile.l != 0.0
  {
    DistSq(SetpointAt(cfg.libm, start, b, t1), SetpointAt(cfg.libm, start, b, t2)) <= Sq(Reach(b.feedrate, t2 - t1))
  }

  // ----- helices that jump -----

  /** Z at tick `j` of a block. */
  function Height(tq: real, start: Point, b: BlockState, j: nat): real
    requires start.Complete() && b.delta.Complete() && b.profile.Planned? && b.profile.l != 0.0
  {
    Along(start.z.value, b.delta.z.value, Lambda(b.profile, Clock(tq, j)))
  }

  /** Among steps that together climb more than n times `r` there is one that climbs more than `r`. */
  lemma {:induction false} TallStep(tq: real, start: Point, b: BlockState, n: nat, r: real) returns (j: nat)
    requires start.Complete() && b.delta.Complete() && b.profile.Planned? && b.profile.l != 0.0 && r >= 0.0
    requires Abs(Height(tq, start, b, n) - Height(tq, start, b, 0)) > Clock(r, n)
    ensures j < n && Abs(Height(tq, start, b, j + 1) - Height(tq, start, b, j)) > r
  {
    hide Height, Clock;
    NoTime(r);
    NextClock(r, n - 1);
    if n == 0 {
      assert false;
    } else if Abs(Height(tq, start, b, n) - Height(tq, start, b, n - 1)) > r {
      j := n - 1;
    } else {
      j := TallStep(tq, start, b, n - 1, r);
    }
  }

  lemma NoTime(r: real)
    ensures Clock(r, 0) == 0.0
  {}

  /** A helix that climbs more than its ticks times the reach of one has two successive setpoints that are
      farther apart than that reach. */
  lemma HelixJumps(cfg: Config, start: Point, b: BlockState) returns (j: nat)
    requires Moving(cfg, start, b)
    requires Ticks(cfg.tq, b.profile) >= 0
    requires Abs(b.delta.z.value) > Clock(Reach(b.feedrate, cfg.tq), Ticks(cfg.tq, b.profile))
    ensures CanInterpolate(start, b) && b.profile.l != 0.0
    ensures j < Ticks(cfg.tq, b.profile)
    ensures DistSq(SetpointAt(cfg.libm, start, b, Clock(cfg.tq, j)),
                   SetpointAt(cfg.libm, start, b, Clock(cfg.tq, j + 1)))
      > Sq(Reach(b.feedrate, cfg.tq))
  {
    MovingSound(cfg, start, b);
    hide Plan, Clock, Libm.Valid, Sq, Lambda, ArcX, ArcY, SweptAbout, Length, Point.Length;
    var k, r := Ticks(cfg.tq, b.profile), Reach(b.feedrate, cfg.tq);
    NoTime(cfg.tq);
    Progress(cfg, b.arcFeedrate, b.length, 0.0, b.profile.dt);
    FeedPositive(b.feedrate, cfg.tq);
    j := TallStep(cfg.tq, start, b, k, r);
    var p1 := SetpointAt(cfg.libm, start, b, Clock(cfg.tq, j));
    var p2 := SetpointAt(cfg.libm, start, b, Clock(cfg.tq, j + 1));
    HeightApart(p1, p2, r);
  }

  lemma FeedPositive(F: real, tq: real)
    requires F > 0.0 && tq > 0.0
    ensures Reach(F, tq) > 0.0
  {
    MulPositive(F / 60.0, tq);
  }

  lemma HeightApart(p: Point, q: Point, r: real)
    requires p.Complete() && q.Complete() && r >= 0.0 && Abs(q.z.value - p.z.value) > r
    ensures DistSq(p, q) > Sq(r)
  {
    SqPositive(p.x.value - q.x.value);
    SqPositive(p.y.value - q.y.value);
    hide Sq;
    var d := Abs(q.z.value - p.z.value);
    SqOfAbs(p.z.value - q.z.value, d);
    SqStrict(r, d);
  }

  lemma SqOfAbs(x: real, d: real)
    requires d == x || d == -x
    ensures Sq(d) == Sq(x)
  {}

  lemma SqStrict(r: real, d: real)
    requires 0.0 <= r < d
    ensures Sq(r) < Sq(d)
  {
    var e := d - r;
    MulPositive(e, d + r);
    assert e * (d + r) == Sq(d) - Sq(r);
  }

  /** A clockwise full circle about the point one to the right of the machine zero, up to height `z`, at
      60 mm/min. */
  function HelixLine(z: real): seq<Word> {
    [Word('G', Text(Some(2), None)), Word('I', Text(None, Some(1.0))), Word('Z', Text(None, Some(z))),
     Word('F', Text(None, Some(60.0)))]
  }

  /** The speed that such a line is planned with. */
  function HelixFeed(cfg: Config): real {
    Min(60.0, ArcCap(cfg, 1.0))
  }

  lemma HelixReads(z: real)
    ensures ReadWords(Blank(HelixLine(z)), HelixLine(z), None) ==
      (Blank(HelixLine(z)).(kind := Cwa, i := 1.0, target := Point(None, None, Some(z)), feedrate := 60.0), None)
  {
    var ws := HelixLine(z);
    var s := Blank(ws);
    var s1 := s.(kind := Cwa);
    var s2 := s1.(i := 1.0);
    var s3 := s2.(target := Point(None, None, Some(z)));
    var s4 := s3.(feedrate := 60.0);
    assert ReadWord(s, ws[0], None) == (s1, More);
    assert ReadWord(s1, ws[1], None) == (s2, More);
    assert ReadWord(s2, ws[2], None) == (s3, More);
    assert ReadWord(s3, ws[3], None) == (s4, More);
    assert ws[1..][0] == ws[1] && ws[1..][1..] == ws[2..];
    assert ws[2..][0] == ws[2] && ws[2..][1..] == ws[3..];
    assert ws[3..][0] == ws[3] && ws[3..][1..] == [];
    assert ReadWords(s4, [], None) == (s4, None);
    assert ReadWords(s3, ws[3..], None) == (s4, None);
    assert ReadWords(s2, ws[2..], None) == (s4, None);
    assert ReadWords(s1, ws[1..], None) == (s4, None);
  }

  /** The arc of such a line: a full circle of radius 1. */
  lemma HelixArc(cfg: Config, c: Chord)
    requires cfg.Valid() && c.Sq() == 0.0
    ensures var a := ArcOf(cfg.libm, None, false, c, 0.0, 1.0, 0.0);
      a.Swept? && a.arc.r == 1.0 && Length(a.arc) == 2.0 * cfg.libm.pi
  {
    hide Length;
    var m := cfg.libm;
    FullTurn(m, None, false, c, 1.0, 0.0);
    RootFacts(m, SumSq(1.0, 0.0));
    assert SumSq(1.0, 0.0) == 1.0;
    SqInjective(m.sqrt(1.0), 1.0);
  }

  lemma HelixFeedPositive(cfg: Config)
    requires cfg.Valid()
    ensures HelixFeed(cfg) > 0.0
  {
    CapSq(cfg, 1.0);
    assert Sq(0.0) == 0.0;
  }

  /** Such a line parses to a moving block that is planned the same whatever its height. */
  lemma HelixBuilt(cfg: Config, z: real)
    requires cfg.Valid()
    ensures Plannable(cfg, HelixFeed(cfg), 2.0 * cfg.libm.pi)
    ensures Plan(cfg, HelixFeed(cfg), 2.0 * cfg.libm.pi).Planned?
    ensures var (b, e) := Built(cfg, None, None, HelixLine(z));
      && e.None? && b.kind.Cwa? && b.feedrate == 60.0 && Moving(cfg, cfg.zero, b)
      && b.delta.z.value == z - cfg.zero.z.value
      && b.profile == Plan(cfg, HelixFeed(cfg), 2.0 * cfg.libm.pi)
  {
    hide Plan, ArcOf, ArcCap, Length, SweptAbout, ReadWords, Point.Length, Libm.Valid;
    HelixReads(z);
    var s := Blank(HelixLine(z)).(kind := Cwa, i := 1.0, target := Point(None, None, Some(z)), feedrate := 60.0);
    var target := s.target.Modal(cfg.zero);
    assert target == At(cfg.zero.x.value, cfg.zero.y.value, z);
    NoChord(ChordOf(cfg.zero, target));
    HelixArc(cfg, ChordOf(cfg.zero, target));
    HelixFeedPositive(cfg);
    PiPositive(cfg);
    PlanSound(cfg, HelixFeed(cfg), 2.0 * cfg.libm.pi);
    FinishReady(cfg, None, cfg.zero, s);
  }

  lemma NoChord(c: Chord)
    requires c.x0 == c.x1 && c.y0 == c.y1
    ensures c.Sq() == 0.0
  {}

  lemma PiPositive(cfg: Config)
    requires cfg.Valid()
    ensures cfg.libm.pi > 0.0
  {}

  /** On every machine there is a line whose setpoints jump: one that climbs high enough, because its duration
      does not depend on its height. */
  lemma SteepHelix(cfg: Config) returns (z: real, j: nat)
    requires cfg.Valid()
    ensures Built(cfg, None, None, HelixLine(z)).1.None?
    ensures var b := Built(cfg, None, None, HelixLine(z)).0;
      && Moving(cfg, cfg.zero, b) && CanInterpolate(cfg.zero, b) && b.profile.l != 0.0
      && j < Ticks(cfg.tq, b.profile) && !Gentle(b)
      && DistSq(SetpointAt(cfg.libm, cfg.zero, b, Clock(cfg.tq, j)),
                SetpointAt(cfg.libm, cfg.zero, b, Clock(cfg.tq, j + 1))) > Sq(Reach(b.feedrate, cfg.tq))
  {
    hide Plan, Built, Moving, CanInterpolate, Clock, DistSq, SetpointAt, Gentle, Libm.Valid, Ticks, Sq;
    HelixBuilt(cfg, 0.0);
    var p := Plan(cfg, HelixFeed(cfg), 2.0 * cfg.libm.pi);
    var climb := Clock(Reach(60.0, cfg.tq), Ticks(cfg.tq, p));
    z := cfg.zero.z.value + Abs(climb) + 1.0;
    HelixBuilt(cfg, z);
    var b := Built(cfg, None, None, HelixLine(z)).0;
    MovingWhole(cfg, cfg.zero, b);
    j := HelixJumps(cfg, cfg.zero, b);
    NextClock(cfg.tq, j);
    NotGentle(cfg, cfg.zero, b, Clock(cfg.tq, j), Clock(cfg.tq, j + 1));
  }

  lemma MovingWhole(cfg: Config, start: Point, b: BlockState)
    requires Moving(cfg, start, b)
    ensures Ticks(cfg.tq, b.profile) >= 1
  {
    MovingSound(cfg, start, b);
  }

  lemma NotGentle(cfg: Config, start: Point, b: BlockState, t1: real, t2: real)
    requires Moving(cfg, start, b) && t1 <= t2
    requires CanInterpolate(start, b) && b.profile.l != 0.0 && !Near(cfg, start, b, t1, t2)
    ensures !Gentle(b)
  {
    hide Near, Gentle, Plan, Libm.Valid, CanInterpolate;
    StepsExact(cfg, start, b);
  }
}
