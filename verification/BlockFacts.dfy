/** What holds of every parsed block: the geometry it was parsed with, where its motion starts and ends,
    how far two of its setpoints can be apart, and how fast it goes round an arc. */
module BlockFacts {
  import opened Numerics
  import opened Points
  import opened Machines
  import opened Profiles
  import opened Motions
  import opened Arcs
  import opened BlockSpec

  /** The arc that a parsed block has about its centre. */
  ghost predicate ArcReady(cfg: Config, c: Chord, b: BlockState) {
    && b.arc.Some?
    && var a := b.arc.value;
    && a.r == b.r >= 0.0
    && a == SweptAbout(cfg.libm, b.kind.Ccwa?, c, a.xc, a.yc, a.r)
    && Sq(c.x0 - a.xc) + Sq(c.y0 - a.yc) == a.r * a.r
    && b.length == Length(a)
    && b.arcFeedrate <= ArcCap(cfg, a.r)
  }

  /** The feedrate that a block is planned with: a line's own, and for an arc the greatest that neither exceeds
      its own nor lets the squared speed in mm/s exceed A times the radius. */
  ghost predicate Paced(cfg: Config, b: BlockState) {
    && (b.kind.Line? ==> b.arcFeedrate == b.feedrate)
    && (b.kind.Cwa? || b.kind.Ccwa? ==>
        && b.arcFeedrate <= b.feedrate && Sq(b.arcFeedrate / 60.0) <= Product(cfg.A, b.r)
        && (b.arcFeedrate == b.feedrate || Sq(b.arcFeedrate / 60.0) == Product(cfg.A, b.r)))
  }

  /** A block that was parsed to start at `start`. */
  ghost predicate Ready(cfg: Config, start: Point, b: BlockState) {
    && b.parsed && start.Complete() && b.target.Complete() && b.delta == b.target.Delta(start) && b.acc == cfg.A
    && (b.kind.Line? ==> b.length == b.delta.Length(cfg.libm) && b.arcFeedrate == b.feedrate)
    && (Interpolated(b.kind) ==> (b.profile.Planned? <==> b.length > 0.0 && b.arcFeedrate > 0.0))
    && (Interpolated(b.kind) && b.profile.Planned? ==>
        && Plannable(cfg, b.arcFeedrate, b.length) && cfg.Valid()
        && b.profile == Plan(cfg, b.arcFeedrate, b.length)
        && b.arcFeedrate <= b.feedrate && Paced(cfg, b)
        && (!b.kind.Line? ==> ArcReady(cfg, ChordOf(start, b.target), b)))
  }

  /** Parsing makes a block ready. */
  lemma FinishReady(cfg: Config, error: Option<real>, start: Point, s: BlockState)
    requires cfg.Valid() && Finish(cfg, error, start, s).1.None?
    ensures Ready(cfg, start, Finish(cfg, error, start, s).0)
  {
    hide Plan, Planning, ArcCap, ArcOf, SweptAbout, Length, Point.Length, Point.Modal, Point.Delta, WithArc, Sq,
      Product, Libm.Valid;
    ModalCompletes(s.target, start);
    var s2 := Displaced(cfg, start, s.(target := s.target.Modal(start)));
    PlanningPlans(cfg, s2.(arcFeedrate := s2.feedrate));
    if s2.kind.Cwa? || s2.kind.Ccwa? {
      WithArcReady(cfg, error, start, s2);
      var s3 := WithArc(cfg, error, start, s2).0;
      PlanningPlans(cfg, s3.(arcFeedrate := Min(s3.feedrate, ArcCap(cfg, s3.r))));
      if s3.length > 0.0 {
        Capped(cfg, s3.feedrate, s3.r);
      }
    }
  }

  lemma PlanningPlans(cfg: Config, s: BlockState)
    requires cfg.Valid()
    ensures var b := Planning(cfg, s);
      && b == s.(profile := b.profile)
      && (b.profile.Planned? <==> s.length > 0.0 && s.arcFeedrate > 0.0)
      && (b.profile.Planned? ==>
          Plannable(cfg, s.arcFeedrate, s.length) && b.profile == Plan(cfg, s.arcFeedrate, s.length))
  {
    hide Libm.Valid;
  }

  /** The lower of a feedrate and the cap of a radius. */
  lemma Capped(cfg: Config, feedrate: real, r: real)
    requires cfg.Valid() && r >= 0.0
    ensures var f := Min(feedrate, ArcCap(cfg, r));
      && f <= feedrate && f <= ArcCap(cfg, r)
      && (f > 0.0 ==>
          && Sq(f / 60.0) <= Product(cfg.A, r)
          && (f == feedrate || Sq(f / 60.0) == Product(cfg.A, r)))
  {
    hide Sq, ArcCap, Libm.Valid;
    CapSq(cfg, r);
    var f := Min(feedrate, ArcCap(cfg, r));
    if f > 0.0 {
      SqWithin(f / 60.0, ArcCap(cfg, r) / 60.0);
    }
  }

  lemma WithArcReady(cfg: Config, error: Option<real>, start: Point, s: BlockState)
    requires cfg.Valid() && start.Complete() && s.target.Complete() && WithArc(cfg, error, start, s).1.None?
    requires s.kind.Cwa? || s.kind.Ccwa?
    ensures var s1 := WithArc(cfg, error, start, s).0;
      && s1 == s.(r := s1.r, arc := s1.arc, length := s1.length)
      && (s1.length > 0.0 ==>
          && s1.arc.Some? && s1.arc.value.r == s1.r >= 0.0
          && var c, a := ChordOf(start, s.target), s1.arc.value;
          && a == SweptAbout(cfg.libm, s.kind.Ccwa?, c, a.xc, a.yc, a.r)
          && Sq(c.x0 - a.xc) + Sq(c.y0 - a.yc) == a.r * a.r
          && s1.length == Length(a))
  {
    hide ArcOf, SweptAbout, Sq, Length;
    if ArcOf(cfg.libm, error, s.kind.Ccwa?, ChordOf(start, s.target), s.r, s.i, s.j).Swept? {
      ArcOfStarts(cfg.libm, error, s.kind.Ccwa?, ChordOf(start, s.target), s.r, s.i, s.j);
    }
  }

  /** The centre is at the arc's radius from its start. */
  lemma ArcOfStarts(m: Libm, error: Option<real>, ccw: bool, c: Chord, R: real, i: real, j: real)
    requires m.Valid() && ArcOf(m, error, ccw, c, R, i, j).Swept?
    ensures var a := ArcOf(m, error, ccw, c, R, i, j).arc;
      && a.r >= 0.0 && Sq(c.x0 - a.xc) + Sq(c.y0 - a.yc) == a.r * a.r
      && a == SweptAbout(m, ccw, c, a.xc, a.yc, a.r)
  {
    hide CentreX, CentreY, Cross, Sq, Chord.Sq;
    AbsSq(R);
    if R != 0.0 {
      RadiusForm(m, c, ccw, R);
    } else {
      HypotSq(m, i, j);
      CentreFormStart(i, j, c.x0 - (c.x0 + i), c.y0 - (c.y0 + j));
    }
  }

  // ----- what a block with a planned profile does -----

  /** A block that the machine can run along a profile. */
  ghost predicate Moving(cfg: Config, start: Point, b: BlockState) {
    Ready(cfg, start, b) && Interpolated(b.kind) && b.profile.Planned?
  }

  lemma MovingSound(cfg: Config, start: Point, b: BlockState)
    requires Moving(cfg, start, b)
    ensures CanInterpolate(start, b)
    ensures b.profile.l == b.length > 0.0 && Sound(cfg.A, cfg.tq, b.feedrate / 60.0, b.profile)
    ensures b.profile.f <= b.arcFeedrate / 60.0
  {
    PlanSound(cfg, b.arcFeedrate, b.length);
  }

  /** At no instant of an arc does the centripetal acceleration exceed the machine's: the square of the
      speed in mm/s is at most A times the radius. */
  lemma ArcSafe(cfg: Config, start: Point, b: BlockState, t: real)
    requires Moving(cfg, start, b) && !b.kind.Line?
    ensures Sq(Speed(b.profile, t)) <= cfg.A * b.r
  {
    hide Speed, Travel, ArcCap, Libm.Valid, Plan, Sq, Plannable;
    MovingSound(cfg, start, b);
    SpeedRange(b.profile, cfg.A, b.feedrate / 60.0, t);
    CapSq(cfg, b.r);
    SqWithin(Speed(b.profile, t), ArcCap(cfg, b.r) / 60.0);
  }

  lemma SqMono(v: real, w: real)
    requires 0.0 <= v <= w
    ensures v * v <= w * w
  {
    MulMono(v, w, v);
    MulMono(v, w, w);
  }

  lemma CapSq(cfg: Config, r: real)
    requires cfg.Valid() && r >= 0.0
    ensures var cap := ArcCap(cfg, r) / 60.0; cap >= 0.0 && Sq(cap) == cfg.A * r
  {
    var x, q := CapPower(cfg.A, r), cfg.A * r;
    CapPowerSq(cfg.A, r);
    RootFacts(cfg.libm, x);
    SqInjective(cfg.libm.sqrt(x), q);
    RootFacts(cfg.libm, cfg.libm.sqrt(x));
  }

  lemma CapPowerSq(A: real, r: real)
    requires A > 0.0 && r >= 0.0
    ensures A * r >= 0.0 && CapPower(A, r) == (A * r) * (A * r) && CapPower(A, r) >= 0.0
  {
    MulNonNegative(A, r);
    MulNonNegative(A * r, A * r);
  }

  /** A block starts where it should; a line ends on its target, and an arc misses it, in the plane, by
      the difference between its radius and the distance of the target from its centre. */
  lemma MovingEnds(cfg: Config, start: Point, b: BlockState)
    requires Moving(cfg, start, b)
    ensures CanInterpolate(start, b)
    ensures PointAt(cfg.libm, start, b, 0.0) == start
    ensures DistSq(PointAt(cfg.libm, start, b, 1.0), b.target) == Miss(cfg.libm, start, b)
    ensures Miss(cfg.libm, start, b) == 0.0 ==> PointAt(cfg.libm, start, b, 1.0) == b.target
  {
    hide SweptAbout, ArcCap, Libm.Valid, Plan, ArcX, ArcY, EndRadius, Sq;
    MovingSound(cfg, start, b);
    var p := PointAt(cfg.libm, start, b, 1.0);
    SqZero();
    if !b.kind.Line? {
      var c, a := ChordOf(start, b.target), b.arc.value;
      EndRadiusSq(cfg.libm, c, a);
      ArcEnds(cfg.libm, b.kind.Ccwa?, c, a, EndRadius(cfg.libm, c, a));
    }
    NoDistance(p, b.target);
  }

  /** The squared distance by which a block ends beside its target. */
  function Miss(m: Libm, start: Point, b: BlockState): real
    requires CanInterpolate(start, b) && b.target.Complete()
  {
    if b.kind.Line? then 0.0 else Sq(b.arc.value.r - EndRadius(m, ChordOf(start, b.target), b.arc.value))
  }

  lemma NoDistance(p: Point, q: Point)
    requires p.Complete() && q.Complete()
    ensures DistSq(p, q) == 0.0 ==> p == q
  {
    SqPositive(p.x.value - q.x.value);
    SqPositive(p.y.value - q.y.value);
    SqPositive(p.z.value - q.z.value);
  }

  lemma SqZero()
    ensures Sq(0.0) == 0.0
  {}

  // ----- how far apart two setpoints of a block are -----

  /** The distance that feedrate F (mm/min) allows in time `h`. */
  function Reach(F: real, h: real): real {
    F / 60.0 * h
  }

  /** In the time from `t1` to `t2` progress grows by the distance walked over the length, and the distance
      is within what the feedrate allows. */
  lemma ProgressStep(cfg: Config, start: Point, b: BlockState, t1: real, t2: real)
    requires Moving(cfg, start, b) && t1 <= t2
    ensures b.profile.l == b.length > 0.0
    ensures Sq(Product(b.length, Lambda(b.profile, t2) - Lambda(b.profile, t1))) <= Sq(Reach(b.feedrate, t2 - t1))
  {
    hide Speed, Travel, Plan, Libm.Valid, Sq;
    MovingSound(cfg, start, b);
    MovesAlways(b.profile, cfg.A, t1, t2);
    var r1, r2, g := Travel(b.profile, t1), Travel(b.profile, t2), b.feedrate / 60.0;
    MulMono(b.profile.f, g, t2 - t1);
    LengthTimes(b.length, r1, r2);
    SqWithin(r2 - r1, Reach(b.feedrate, t2 - t1));
  }

  lemma LengthTimes(l: real, r1: real, r2: real)
    requires l > 0.0
    ensures Product(l, r2 / l - r1 / l) == r2 - r1
  {
    var x, y := r1 / l, r2 / l;
    assert x * l == r1 && y * l == r2;
  }

  lemma SqWithin(x: real, y: real)
    requires 0.0 <= x <= y
    ensures Sq(x) <= Sq(y)
  {
    SqMono(x, y);
  }

  lemma AlongStep(x0: real, dx: real, l1: real, l2: real)
    ensures Sq(Along(x0, dx, l1) - Along(x0, dx, l2)) == Sq(dx) * Sq(l2 - l1)
  {
    var h, d := l2 - l1, Along(x0, dx, l1) - Along(x0, dx, l2);
    assert d == -(dx * h);
    assert Sq(d) == dx * h * (dx * h);
  }

  lemma SpaceLength(m: Libm, p: Point)
    requires m.Valid() && p.Complete()
    ensures Sq(p.Length(m)) == Sq(p.x.value) + Sq(p.y.value) + Sq(p.z.value)
  {
    SqPositive(p.x.value);
    SqPositive(p.y.value);
    SqPositive(p.z.value);
    RootFacts(m, p.x.value * p.x.value + p.y.value * p.y.value + p.z.value * p.z.value);
  }

  /** The squared distance that the Z motion adds to two points of a helix: its length counts X and Y only. */
  function Climb(b: BlockState, l1: real, l2: real): real
    requires b.delta.Complete()
  {
    if b.kind.Line? then 0.0 else Sq(b.delta.z.value) * Sq(l2 - l1)
  }

  lemma ThreeSquares(x: real, y: real, z: real, h: real, q: real)
    requires x + y + z == q
    ensures x * h + y * h + z * h == q * h
  {}

  lemma SqFlip(x: real, y: real)
    ensures Sq(x - y) == Sq(y - x)
  {}
}
