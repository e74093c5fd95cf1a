/** The motion profile of a block: `Block::compute` and `Block::Profile::lambda` (src/block.cpp). */
module Profiles {
  import opened Numerics
  import opened Machines

  /** The profile fields. Unplanned stands for a profile whose fields are still all zero, or are not
      numbers because the length or the feedrate is not positive. */
  datatype Profile =
    | Unplanned
    | Planned(a: real, d: real, f: real, l: real, dt1: real, dtm: real, dt2: real, dt: real)

  // ----- planning -----

  predicate Plannable(cfg: Config, feedrate: real, l: real) {
    cfg.A > 0.0 && cfg.tq > 0.0 && feedrate > 0.0 && l > 0.0
  }

  /** Whether a block reaches its feedrate for some time before it is quantized. */
  predicate Cruises(cfg: Config, feedrate: real, l: real)
    requires Plannable(cfg, feedrate, l)
  {
    var f0 := feedrate / 60.0;
    l / f0 - f0 / cfg.A > 0.0
  }

  /** The time a block needs before it is stretched to whole ticks. */
  function Ideal(cfg: Config, feedrate: real, l: real): real
    requires Plannable(cfg, feedrate, l)
  {
    var f0 := feedrate / 60.0;
    if Cruises(cfg, feedrate, l) then l / f0 + f0 / cfg.A else 2.0 * cfg.libm.sqrt(l / cfg.A)
  }

  lemma IdealPositive(cfg: Config, feedrate: real, l: real)
    requires cfg.Valid() && Plannable(cfg, feedrate, l)
    ensures Ideal(cfg, feedrate, l) > 0.0
  {
    var f0 := feedrate / 60.0;
    DivPositive(l, f0);
    DivPositive(f0, cfg.A);
    DivPositive(l, cfg.A);
    RootFacts(cfg.libm, l / cfg.A);
  }

  /** The profile fields that the planner stores, given the duration `dt` of the quantized block. */
  function Plan(cfg: Config, feedrate: real, l: real): Profile
    requires cfg.Valid() && Plannable(cfg, feedrate, l)
  {
    IdealPositive(cfg, feedrate, l);
    QuantizedNext(cfg.tq, Ideal(cfg, feedrate, l));
    var dt := Quantized(cfg.tq, Ideal(cfg, feedrate, l));
    var f0 := feedrate / 60.0;
    DivPositive(f0, cfg.A);
    DivPositive(l, cfg.A);
    RootFacts(cfg.libm, l / cfg.A);
    if Cruises(cfg, feedrate, l) then
      Trapezoid(l, f0 / cfg.A, dt)
    else
      Triangle(l, cfg.libm.sqrt(l / cfg.A), dt)
  }

  /** The profile of duration `dt` that covers `l` with equal ramps of duration `ramp`. */
  function Trapezoid(l: real, ramp: real, dt: real): Profile
    requires ramp > 0.0 && dt > ramp
  {
    var f := l / (dt - ramp);
    Planned(f / ramp, -(f / ramp), f, l, ramp, dt - 2.0 * ramp, ramp, dt)
  }

  /** The profile of duration `dt` that covers `l` by accelerating for `ramp` and braking at once. */
  function Triangle(l: real, ramp: real, dt: real): Profile
    requires ramp > 0.0 && dt > ramp
  {
    var f := 2.0 * l / dt;
    Planned(f / ramp, -(f / (dt - ramp)), f, l, ramp, 0.0, dt - ramp, dt)
  }

  // ----- what every planned profile satisfies -----

  /** The duration field, zero until it is planned. */
  function Duration(p: Profile): real {
    if p.Planned? then p.dt else 0.0
  }

  /** The number of ticks that a profile lasts. */
  function Ticks(tq: real, p: Profile): int
    requires tq > 0.0 && p.Planned?
  {
    (p.dt / tq).Floor
  }

  /** The three phases join up, and together cover the length. */
  ghost predicate Joined(p: Profile) {
    && p.Planned?
    && p.l > 0.0 && p.f > 0.0 && p.dt1 > 0.0 && p.dtm >= 0.0 && p.dt2 > 0.0
    && p.a > 0.0 && p.d < 0.0
    && p.dt1 + p.dtm + p.dt2 == p.dt
    && p.f * (p.dt1 / 2.0 + p.dtm + p.dt2 / 2.0) == p.l
    && p.a * p.dt1 == p.f && p.d * p.dt2 == -p.f
  }

  /** Acceleration stays within `A` and speed within `v` (in mm/s). */
  ghost predicate Limited(A: real, v: real, p: Profile)
    requires p.Planned?
  {
    p.a <= A && -A <= p.d && p.f <= v
  }

  /** The profile lasts a whole number of ticks. */
  ghost predicate Whole(tq: real, p: Profile)
    requires p.Planned?
  {
    tq > 0.0 && Ticks(tq, p) >= 1 && p.dt == Clock(tq, Ticks(tq, p))
  }

  ghost predicate Sound(A: real, tq: real, v: real, p: Profile) {
    Joined(p) && Limited(A, v, p) && Whole(tq, p)
  }

  lemma TrapezoidJoined(l: real, ramp: real, dt: real)
    requires l > 0.0 && ramp > 0.0 && dt > 2.0 * ramp
    ensures Joined(Trapezoid(l, ramp, dt))
    ensures Trapezoid(l, ramp, dt).f * (dt - ramp) == l
  {
    var w := dt - ramp;
    DivPositive(l, w);
    var f := l / w;
    DivPositive(f, ramp);
    assert ramp / 2.0 + (dt - 2.0 * ramp) + ramp / 2.0 == w;
  }

  lemma TriangleJoined(l: real, ramp: real, dt: real)
    requires l > 0.0 && ramp > 0.0 && dt > 2.0 * ramp
    ensures Joined(Triangle(l, ramp, dt))
    ensures Triangle(l, ramp, dt).f * dt == 2.0 * l
  {
    DivPositive(2.0 * l, dt);
    var f, w := 2.0 * l / dt, dt - ramp;
    DivPositive(f, ramp);
    DivPositive(f, w);
    assert ramp / 2.0 + 0.0 + w / 2.0 == dt / 2.0;
    assert f * (dt / 2.0) == l;
  }

  /** Stretching a trapezoid lowers its peak below the feedrate `f0`. */
  lemma TrapezoidLimited(A: real, f0: real, l: real, dt: real)
    requires A > 0.0 && f0 > 0.0 && l > 0.0
    requires l / f0 - f0 / A > 0.0 && dt > l / f0 + f0 / A
    ensures f0 / A > 0.0 && dt > 2.0 * (f0 / A)
    ensures Limited(A, f0, Trapezoid(l, f0 / A, dt))
  {
    DivPositive(f0, A);
    DivPositive(l, f0);
    var ramp, x := f0 / A, l / f0;
    TrapezoidJoined(l, ramp, dt);
    var p, w := Trapezoid(l, ramp, dt), dt - ramp;
    assert p.f <= f0 by {
      MulMono(x, w, f0);
      CancelLe(p.f, f0, w);
    }
    CancelLe(p.a, A, ramp);
  }

  /** A triangle that starts at acceleration `A` keeps within both limits however long it brakes. */
  lemma TriangleLimited(A: real, f0: real, ramp: real, l: real, dt: real)
    requires A > 0.0 && f0 > 0.0 && ramp > 0.0 && l > 0.0 && dt > 2.0 * ramp
    requires ramp * ramp * A == l && l * A <= f0 * f0
    ensures Limited(A, f0, Triangle(l, ramp, dt))
  {
    var p := Triangle(l, ramp, dt);
    TriangleJoined(l, ramp, dt);
    RampSpeed(A, f0, ramp, l);
    TrianglePeak(A, ramp, l, dt, p.f);
    CancelLe(p.a, A, ramp);
    TriangleBrake(A, ramp, dt - ramp, p.f, -p.d);
  }

  lemma RampSpeed(A: real, f0: real, ramp: real, l: real)
    requires A > 0.0 && f0 > 0.0
    requires ramp * ramp * A == l && l * A <= f0 * f0
    ensures A * ramp <= f0
  {
    var v := A * ramp;
    assert v * v == l * A;
    SqOrder(v, f0);
  }

  lemma TrianglePeak(A: real, ramp: real, l: real, dt: real, f: real)
    requires A > 0.0 && ramp > 0.0 && dt > 2.0 * ramp
    requires ramp * ramp * A == l && f * dt == 2.0 * l
    ensures f <= A * ramp
  {
    var v := A * ramp;
    assert 2.0 * l == 2.0 * ramp * v;
    MulMono(2.0 * ramp, dt, v);
    assert f * dt <= v * dt;
    CancelLe(f, v, dt);
  }

  lemma TriangleBrake(A: real, ramp: real, w: real, f: real, d: real)
    requires A > 0.0 && 0.0 < ramp <= w && f <= A * ramp && d * w == f
    ensures d <= A
  {
    MulMono(ramp, w, A);
    assert d * w <= A * w;
    CancelLe(d, A, w);
  }

  /** A block too short to cruise is too short to exceed its feedrate. */
  lemma TriangleSlow(A: real, f0: real, l: real)
    requires A > 0.0 && f0 > 0.0 && l > 0.0 && l / f0 - f0 / A <= 0.0
    ensures l * A <= f0 * f0
  {
    DivPositive(l, f0);
    DivPositive(f0, A);
    var x, y := l / f0, f0 / A;
    MulMono(x, y, f0);
    MulMono(l, y * f0, A);
    assert y * f0 * A == f0 * f0;
  }

  lemma QuantizedWhole(tq: real, t: real, p: Profile)
    requires tq > 0.0 && t >= 0.0 && p.Planned?
    requires t / tq + 1.0 > -1.0 && p.dt == Quantized(tq, t)
    ensures Whole(tq, p) && t < p.dt <= t + tq
  {
    QuantizedNext(tq, t);
    var k := Truncate(t / tq + 1.0);
    FloorOfMultiple(k, tq, p.dt);
  }

  /** The root that the triangle uses as its first ramp. */
  lemma RampOfLength(m: Libm, A: real, l: real, ramp: real)
    requires m.Valid() && A > 0.0 && l > 0.0 && ramp == m.sqrt(l / A)
    ensures ramp > 0.0 && ramp * ramp * A == l
  {
    DivPositive(l, A);
    RootFacts(m, l / A);
  }

  lemma TriangleSound(m: Libm, A: real, f0: real, ramp: real, l: real, dt: real)
    requires m.Valid() && A > 0.0 && f0 > 0.0 && l > 0.0 && ramp == m.sqrt(l / A) && dt > 2.0 * ramp
    requires l / f0 - f0 / A <= 0.0
    ensures ramp > 0.0 && Joined(Triangle(l, ramp, dt)) && Limited(A, f0, Triangle(l, ramp, dt))
  {
    TriangleSlow(A, f0, l);
    RampOfLength(m, A, l, ramp);
    TriangleJoined(l, ramp, dt);
    TriangleLimited(A, f0, ramp, l, dt);
  }

  /** Every planned profile is sound, although its peak is derived again after quantization, and
      stretching adds at most one tick to the ideal duration. */
  lemma PlanSound(cfg: Config, feedrate: real, l: real)
    requires cfg.Valid() && Plannable(cfg, feedrate, l)
    ensures Sound(cfg.A, cfg.tq, feedrate / 60.0, Plan(cfg, feedrate, l))
    ensures Plan(cfg, feedrate, l).l == l
    ensures Ideal(cfg, feedrate, l) < Plan(cfg, feedrate, l).dt <= Ideal(cfg, feedrate, l) + cfg.tq
  {
    var f0, t := feedrate / 60.0, Ideal(cfg, feedrate, l);
    IdealPositive(cfg, feedrate, l);
    var p := Plan(cfg, feedrate, l);
    QuantizedWhole(cfg.tq, t, p);
    if Cruises(cfg, feedrate, l) {
      TrapezoidLimited(cfg.A, f0, l, p.dt);
      TrapezoidJoined(l, f0 / cfg.A, p.dt);
    } else {
      TriangleSound(cfg.libm, cfg.A, f0, cfg.libm.sqrt(l / cfg.A), l, p.dt);
    }
  }

  // ----- the plan, phase by phase -----

  /** What the planner is asked for, in terms of its fields: a whole number of ticks, the least above what the
      motion needs. A block that reaches its feedrate takes the ramps that A needs for it, and spends the excess
      cruising; a shorter one accelerates for as long as A needs to cover half of it, does not cruise, and
      spends the excess braking. */
  ghost predicate Prescribed(cfg: Config, feedrate: real, l: real, p: Profile)
    requires feedrate > 0.0 && cfg.A > 0.0
  {
    && p.Planned? && p.l == l && Whole(cfg.tq, p)
    && var f0 := feedrate / 60.0;
    if Product(l, cfg.A) > Sq(f0) then
      var needed := l / f0 + f0 / cfg.A;
      && needed < p.dt <= needed + cfg.tq
      && Product(p.dt1, cfg.A) == f0 && p.dt2 == p.dt1 && p.dtm == l / f0 - f0 / cfg.A + (p.dt - needed)
    else
      var needed := 2.0 * p.dt1;
      && needed < p.dt <= needed + cfg.tq
      && Product(Sq(p.dt1), cfg.A) == l && p.dtm == 0.0 && p.dt2 - p.dt1 == p.dt - needed
  }

  /** The planned profile is the only one that joins and is prescribed. */
  lemma PlanExact(cfg: Config, feedrate: real, l: real, p: Profile)
    requires cfg.Valid() && Plannable(cfg, feedrate, l)
    ensures Joined(p) && Prescribed(cfg, feedrate, l, p) <==> p == Plan(cfg, feedrate, l)
  {
    PlanPrescribed(cfg, feedrate, l);
    PlanSound(cfg, feedrate, l);
    if Joined(p) && Prescribed(cfg, feedrate, l, p) {
      PrescribedOnce(cfg, feedrate, l, p, Plan(cfg, feedrate, l));
    }
  }

  lemma CruisesWhen(A: real, f0: real, l: real)
    requires A > 0.0 && f0 > 0.0 && l > 0.0
    ensures l / f0 - f0 / A > 0.0 <==> Product(l, A) > Sq(f0)
  {
    if l / f0 - f0 / A > 0.0 {
      CruiseLong(A, f0, l);
    } else {
      TriangleSlow(A, f0, l);
    }
  }

  lemma PlanPrescribed(cfg: Config, feedrate: real, l: real)
    requires cfg.Valid() && Plannable(cfg, feedrate, l)
    ensures Prescribed(cfg, feedrate, l, Plan(cfg, feedrate, l))
  {
    hide Sound, Product, Sq, Libm.Valid, Whole, Ideal, Cruises;
    var f0 := feedrate / 60.0;
    PlanSound(cfg, feedrate, l);
    PlanPhases(cfg, feedrate, l);
    RampOfSpeed(f0, cfg.A);
    RootSquare(cfg.libm, cfg.A, l);
    SoundWhole(cfg, feedrate, Plan(cfg, feedrate, l));
  }

  lemma SoundWhole(cfg: Config, feedrate: real, p: Profile)
    requires Sound(cfg.A, cfg.tq, feedrate / 60.0, p)
    ensures p.Planned? && Whole(cfg.tq, p)
  {}

  lemma RampOfSpeed(f0: real, A: real)
    requires A > 0.0
    ensures Product(f0 / A, A) == f0
  {}

  lemma RootSquare(m: Libm, A: real, l: real)
    requires m.Valid() && A > 0.0 && l > 0.0
    ensures Product(Sq(m.sqrt(l / A)), A) == l
  {
    RampOfLength(m, A, l, m.sqrt(l / A));
  }

  lemma PlanPhases(cfg: Config, feedrate: real, l: real)
    requires cfg.Valid() && Plannable(cfg, feedrate, l)
    ensures var p, f0, root := Plan(cfg, feedrate, l), feedrate / 60.0, cfg.libm.sqrt(l / cfg.A);
      && p.Planned?
      && if Product(l, cfg.A) > Sq(f0)
         then p.dt1 == f0 / cfg.A == p.dt2 && p.dtm == p.dt - 2.0 * (f0 / cfg.A)
           && Ideal(cfg, feedrate, l) == l / f0 + f0 / cfg.A
         else p.dt1 == root && p.dtm == 0.0 && p.dt2 == p.dt - root && Ideal(cfg, feedrate, l) == 2.0 * root
  {
    hide Product, Sq, Libm.Valid, Quantized;
    CruisesWhen(cfg.A, feedrate / 60.0, l);
  }

  lemma PrescribedOnce(cfg: Config, feedrate: real, l: real, p: Profile, q: Profile)
    requires feedrate > 0.0 && cfg.A > 0.0 && l > 0.0
    requires Joined(p) && Prescribed(cfg, feedrate, l, p) && Joined(q) && Prescribed(cfg, feedrate, l, q)
    ensures p == q
  {
    SameShape(p, q);
    JoinedTimes(p);
    JoinedTimes(q);
    hide Product, Sq, Joined, Whole;
    var f0 := feedrate / 60.0;
    if Product(l, cfg.A) > Sq(f0) {
      CancelBoth(p.dt1, q.dt1, cfg.A);
      SameTicks(cfg.tq, p, q, l / f0 + f0 / cfg.A);
    } else {
      SameRoot(p.dt1, q.dt1, cfg.A);
      SameTicks(cfg.tq, p, q, 2.0 * p.dt1);
    }
  }

  lemma JoinedTimes(p: Profile)
    requires Joined(p)
    ensures p.Planned? && p.dt1 > 0.0 && p.dt1 + p.dtm + p.dt2 == p.dt
  {}

  lemma CancelBoth(x: real, y: real, c: real)
    requires c > 0.0 && Product(x, c) == Product(y, c)
    ensures x == y
  {
    CancelLe(x, y, c);
    CancelLe(y, x, c);
  }

  lemma SameRoot(x: real, y: real, A: real)
    requires A > 0.0 && x > 0.0 && y > 0.0 && Product(Sq(x), A) == Product(Sq(y), A)
    ensures x == y
  {
    CancelBoth(Sq(x), Sq(y), A);
    SqInjective(x, y);
  }

  /** Only one whole number of ticks lies in a range of one tick. */
  lemma SameTicks(tq: real, p: Profile, q: Profile, t: real)
    requires p.Planned? && q.Planned? && Whole(tq, p) && Whole(tq, q)
    requires t < p.dt <= t + tq && t < q.dt <= t + tq
    ensures p.dt == q.dt
  {
    hide Clock, Ticks;
    NextAbove(tq, Ticks(tq, p), Ticks(tq, q));
    NextAbove(tq, Ticks(tq, q), Ticks(tq, p));
  }

  lemma NextAbove(tq: real, i: int, j: int)
    requires tq > 0.0
    ensures i < j ==> Clock(tq, j) >= Clock(tq, i) + tq
  {
    if i < j {
      NextClock(tq, i);
      ClockOrder(tq, i + 1, j);
    }
  }

  /** The durations of the phases determine the rest. */
  lemma SameShape(p: Profile, q: Profile)
    requires Joined(p) && Joined(q)
    ensures p.l == q.l && p.dt == q.dt && p.dt1 == q.dt1 && p.dtm == q.dtm && p.dt2 == q.dt2 ==> p == q
  {
    if p.l == q.l && p.dt == q.dt && p.dt1 == q.dt1 && p.dtm == q.dtm && p.dt2 == q.dt2 {
      CancelBoth(p.f, q.f, p.dt1 / 2.0 + p.dtm + p.dt2 / 2.0);
      CancelBoth(p.a, q.a, p.dt1);
      CancelBoth(p.d, q.d, p.dt2);
    }
  }

  // ----- no profile within the limits is more than one tick faster -----

  /** A motion with peak `f` that covers `l` needs at least `l / f + f / A`. */
  lemma NeedsTime(A: real, v: real, p: Profile)
    requires A > 0.0 && Joined(p) && Limited(A, v, p)
    ensures 0.0 < p.f <= v && p.f * p.f + p.l * A <= p.dt * p.f * A
  {
    var w := p.dt1 / 2.0 + p.dt2 / 2.0;
    PeakWithin(A, p.a, p.d, p.dt1, p.dt2, p.f);
    NeedsTimeSum(A, p.f, w, p.dt, p.l);
  }

  lemma PeakWithin(A: real, a: real, d: real, dt1: real, dt2: real, f: real)
    requires dt1 > 0.0 && dt2 > 0.0 && a <= A && -A <= d && a * dt1 == f && d * dt2 == -f
    ensures f <= Product(A, dt1 / 2.0 + dt2 / 2.0)
  {
    MulMono(a, A, dt1);
    MulMono(-d, A, dt2);
    assert A * (dt1 / 2.0 + dt2 / 2.0) == A * dt1 / 2.0 + A * dt2 / 2.0;
  }

  lemma NeedsTimeSum(A: real, f: real, w: real, dt: real, l: real)
    requires f > 0.0 && f <= Product(A, w) && l == f * (dt - w)
    ensures f * f + l * A <= dt * f * A
  {
    MulMono(f, A * w, f);
    assert l * A == dt * f * A - A * w * f;
  }

  lemma CruiseIsFastest(A: real, f0: real, l: real, f: real, dt: real)
    requires A > 0.0 && 0.0 < f <= f0 && f0 * f0 < l * A
    requires f * f + l * A <= dt * f * A
    ensures f0 * f0 + l * A <= dt * f0 * A
  {
    var s, g := l * A, dt * A;
    assert dt * f * A == g * f;
    assert dt * f0 * A == g * f0;
    FasterCruise(f, f0, s, g);
  }

  lemma FasterCruise(f: real, f0: real, s: real, g: real)
    requires 0.0 < f <= f0 && f0 * f0 < s && f * f + s <= g * f
    ensures f0 * f0 + s <= g * f0
  {
    CrossBound(f, f0, s);
    Crosswise(f * f + s, f0 * f0 + s, f, f0, g);
  }

  lemma CrossBound(f: real, f0: real, s: real)
    requires 0.0 < f <= f0 && f0 * f0 < s
    ensures (f0 * f0 + s) * f <= (f * f + s) * f0
  {
    var e, r := f0 - f, s - f * f0;
    assert r >= 0.0 by { MulMono(f, f0, f0); }
    assert e * r >= 0.0;
    assert (f * f + s) * f0 - (f0 * f0 + s) * f == e * r;
  }

  lemma Crosswise(x: real, y: real, f: real, f0: real, g: real)
    requires f > 0.0 && f0 > 0.0 && x <= g * f && y * f <= x * f0
    ensures y <= g * f0
  {
    MulMono(x, g * f, f0);
    assert g * f * f0 == g * f0 * f;
    CancelLe(y, g * f0, f);
  }

  lemma RampIsFastest(A: real, ramp: real, l: real, f: real, dt: real)
    requires A > 0.0 && f > 0.0 && ramp * ramp * A == l
    requires f * f + l * A <= dt * f * A
    ensures 2.0 * ramp <= dt
  {
    var v, c := ramp * A, f * A;
    assert v * v == l * A;
    SqNonNegative(f - v);
    assert (f - v) * (f - v) == f * f - 2.0 * f * v + v * v;
    assert 2.0 * ramp * c == 2.0 * f * v;
    assert dt * c == dt * f * A;
    CancelLe(2.0 * ramp, dt, c);
  }

  lemma CruiseIdeal(A: real, f0: real, l: real, dt: real)
    requires A > 0.0 && f0 > 0.0 && f0 * f0 + l * A <= dt * f0 * A
    ensures l / f0 + f0 / A <= dt
  {
    var x, y, c := l / f0, f0 / A, f0 * A;
    assert x * f0 == l && y * A == f0;
    assert (x + y) * c == l * A + f0 * f0;
    CancelLe(x + y, dt, c);
  }

  lemma CruiseLong(A: real, f0: real, l: real)
    requires A > 0.0 && f0 > 0.0 && l / f0 - f0 / A > 0.0
    ensures f0 * f0 < l * A
  {
    var x, y, c := l / f0, f0 / A, f0 * A;
    assert x * f0 == l && y * A == f0;
    MulStrict(y, x, c);
    assert y * c == f0 * f0;
    assert x * c == l * A;
  }

  lemma WholeAbove(tq: real, t: real, q: Profile)
    requires tq > 0.0 && t >= 0.0 && q.Planned? && Whole(tq, q) && q.dt > t
    ensures t / tq + 1.0 > -1.0 && Quantized(tq, t) <= q.dt
  {
    QuantizedLeast(tq, t, Ticks(tq, q));
  }

  /** No motion that joins, covers the same length, and keeps within the same limits is faster than the
      ideal duration; so none is more than one tick faster than the planned one, and among those that
      last whole ticks and longer than the ideal, the planned one is the fastest. */
  lemma PlanOptimal(cfg: Config, feedrate: real, l: real, q: Profile)
    requires cfg.Valid() && Plannable(cfg, feedrate, l)
    requires Joined(q) && Limited(cfg.A, feedrate / 60.0, q) && q.l == l
    ensures Ideal(cfg, feedrate, l) <= q.dt
    ensures Plan(cfg, feedrate, l).dt - cfg.tq <= q.dt
    ensures Whole(cfg.tq, q) && q.dt > Ideal(cfg, feedrate, l) ==> Plan(cfg, feedrate, l).dt <= q.dt
  {
    IdealLeast(cfg, feedrate, l, q);
    PlanSound(cfg, feedrate, l);
    IdealPositive(cfg, feedrate, l);
    if Whole(cfg.tq, q) && q.dt > Ideal(cfg, feedrate, l) {
      WholeAbove(cfg.tq, Ideal(cfg, feedrate, l), q);
    }
  }

  lemma IdealLeast(cfg: Config, feedrate: real, l: real, q: Profile)
    requires cfg.Valid() && Plannable(cfg, feedrate, l)
    requires q.Planned? && Joined(q) && Limited(cfg.A, feedrate / 60.0, q) && q.l == l
    ensures Ideal(cfg, feedrate, l) <= q.dt
  {
    hide Joined, Ideal, Plannable;
    NeedsTime(cfg.A, feedrate / 60.0, q);
    IdealBelow(cfg, feedrate, l, q.f, q.dt);
  }

  lemma IdealBelow(cfg: Config, feedrate: real, l: real, f: real, dt: real)
    requires cfg.Valid() && Plannable(cfg, feedrate, l)
    requires 0.0 < f <= feedrate / 60.0 && f * f + l * cfg.A <= dt * f * cfg.A
    ensures Ideal(cfg, feedrate, l) <= dt
  {
    var f0, ramp := feedrate / 60.0, cfg.libm.sqrt(l / cfg.A);
    if Cruises(cfg, feedrate, l) {
      CruiseBelow(cfg.A, f0, l, f, dt);
    } else {
      RampOfLength(cfg.libm, cfg.A, l, ramp);
      RampIsFastest(cfg.A, ramp, l, f, dt);
    }
  }

  lemma CruiseBelow(A: real, f0: real, l: real, f: real, dt: real)
    requires A > 0.0 && f0 > 0.0 && l / f0 - f0 / A > 0.0 && 0.0 < f <= f0 && f * f + l * A <= dt * f * A
    ensures l / f0 + f0 / A <= dt
  {
    CruiseLong(A, f0, l);
    CruiseIsFastest(A, f0, l, f, dt);
    CruiseIdeal(A, f0, l, dt);
  }
}
