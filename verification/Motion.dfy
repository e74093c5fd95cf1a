/** Sampling a profile: `Block::Profile::lambda` (src/block.cpp), and what the motion that it describes
    keeps at every time and between any two times. */
module Motions {
  import opened Numerics
  import opened Machines
  import opened Profiles

  /** The distance walked at time `t`, in mm. */
  function Travel(p: Profile, t: real): real
    requires p.Planned?
  {
    if t < 0.0 then 0.0
    else if t < p.dt1 then p.a * t * t / 2.0
    else if t < p.dt1 + p.dtm then p.f * (p.dt1 / 2.0 + (t - p.dt1))
    else if t < p.dt1 + p.dtm + p.dt2 then
      var t2 := p.dt1 + p.dtm;
      p.f * (p.dt1 / 2.0 + p.dtm) + p.f * (t - t2) + p.d / 2.0 * (t * t + t2 * t2) - p.d * t * t2
    else p.l
  }

  /** The speed at time `t`, in mm/s. */
  function Speed(p: Profile, t: real): real
    requires p.Planned?
  {
    if t < 0.0 then 0.0
    else if t < p.dt1 then p.a * t
    else if t < p.dt1 + p.dtm then p.f
    else if t < p.dt1 + p.dtm + p.dt2 then p.f + p.d * (t - (p.dt1 + p.dtm))
    else 0.0
  }

  /** The acceleration that `lambda` leaves in `current_acc`. */
  function Acceleration(p: Profile, t: real): real
    requires p.Planned?
  {
    if t < 0.0 then 0.0
    else if t < p.dt1 then p.a
    else if t < p.dt1 + p.dtm then 0.0
    else if t < p.dt1 + p.dtm + p.dt2 then p.d
    else 0.0
  }

  /** The normalised progress. */
  function Lambda(p: Profile, t: real): real
    requires p.Planned? && p.l != 0.0
  {
    Travel(p, t) / p.l
  }

  // ----- the phases, each with both of its ends -----

  lemma Before(p: Profile, t: real)
    requires Joined(p) && t <= 0.0
    ensures Travel(p, t) == 0.0 && Speed(p, t) == 0.0
  {}

  lemma Accelerating(p: Profile, t: real)
    requires Joined(p) && 0.0 <= t <= p.dt1
    ensures Travel(p, t) == p.a * t * t / 2.0 && Speed(p, t) == p.a * t
  {
    if t == p.dt1 {
      Cruising(p, t);
      assert p.a * t * t == p.f * t;
      assert p.f * (p.dt1 / 2.0) == p.f * t / 2.0;
    }
  }

  lemma Cruising(p: Profile, t: real)
    requires Joined(p) && p.dt1 <= t <= p.dt1 + p.dtm
    ensures Travel(p, t) == p.f * (p.dt1 / 2.0 + (t - p.dt1)) && Speed(p, t) == p.f
  {
    if t == p.dt1 + p.dtm {
      Braking(p, t, 0.0);
      assert t - p.dt1 == p.dtm;
    }
  }

  /** `u` is the time since braking began. */
  lemma Braking(p: Profile, t: real, u: real)
    requires Joined(p) && 0.0 <= u <= p.dt2 && t == p.dt1 + p.dtm + u
    ensures Travel(p, t) == p.f * (p.dt1 / 2.0 + p.dtm) + p.f * u + p.d * u * u / 2.0
    ensures Speed(p, t) == p.f + p.d * u
  {
    var t2 := p.dt1 + p.dtm;
    if u < p.dt2 {
      BrakingSquare(p.d, t, t2, u);
    } else {
      assert p.d * u * u == -p.f * u;
      BrakingEnd(p.f, p.dt1 / 2.0 + p.dtm, u, p.l);
    }
  }

  lemma BrakingSquare(d: real, t: real, t2: real, u: real)
    requires u == t - t2
    ensures d / 2.0 * (t * t + t2 * t2) - d * t * t2 == d * u * u / 2.0
  {}

  lemma BrakingEnd(f: real, w: real, u: real, l: real)
    requires f * (w + u / 2.0) == l
    ensures l == f * w + f * u + -f * u / 2.0
  {}

  lemma After(p: Profile, t: real)
    requires Joined(p) && t >= p.dt
    ensures Travel(p, t) == p.l && Speed(p, t) == 0.0
  {}

  // ----- any two times -----

  /** A stretch of motion of duration `h` and length `r`, from speed `v1` to `v2`: the speed changes by no
      more than acceleration `A` allows; the length is not negative and no more than peak speed `f` allows;
      and at both ends speed is the derivative of length, with an error that is quadratic in the duration. */
  ghost predicate Drives(A: real, f: real, v1: real, v2: real, r: real, h: real) {
    && Turned(A, v2 - v1, h)
    && 0.0 <= r <= Product(f, h)
    && Strayed(A, Slip(r, v1, h), h) && Strayed(A, Slip(r, v2, h), h)
  }

  ghost predicate Turned(A: real, w: real, h: real) {
    Abs(w) <= Product(A, h)
  }

  /** The distance that a constant speed `v` would not have covered. */
  function Slip(r: real, v: real, h: real): real {
    r - Product(v, h)
  }

  /** The distance that acceleration `A` covers from rest. */
  function Sag(A: real, h: real): real {
    Product(Product(A, h), h) / 2.0
  }

  ghost predicate Strayed(A: real, e: real, h: real) {
    Abs(e) <= Sag(A, h)
  }

  ghost predicate Moves(p: Profile, A: real, t1: real, t2: real)
    requires p.Planned?
  {
    Drives(A, p.f, Speed(p, t1), Speed(p, t2), Travel(p, t2) - Travel(p, t1), t2 - t1)
  }

  // ----- bounds on named products -----

  lemma AbsTimes(w: real, b: real, h: real)
    requires Abs(w) <= b && h >= 0.0
    ensures Abs(Product(w, h)) <= Product(b, h)
  {
    MulMono(w, b, h);
    MulMono(-w, b, h);
  }

  lemma MonoProduct(x: real, y: real, h: real)
    requires x <= y && h >= 0.0
    ensures Product(x, h) <= Product(y, h)
  {
    MulMono(x, y, h);
  }

  lemma ZeroProduct(h: real)
    ensures Product(0.0, h) == 0.0
  {}

  lemma SumProduct(x: real, y: real, h: real)
    ensures Product(x + y, h) == Product(x, h) + Product(y, h)
  {}

  lemma DifferenceProduct(x: real, y: real, h: real)
    ensures Product(x - y, h) == Product(x, h) - Product(y, h)
  {}

  lemma ProductSum(x: real, h1: real, h2: real)
    ensures Product(x, h1 + h2) == Product(x, h1) + Product(x, h2)
  {}

  lemma HalfProduct(x: real, h: real)
    ensures Product(x / 2.0, h) == Product(x, h) / 2.0
  {}

  lemma CrossProduct(A: real, h1: real, h2: real)
    ensures Product(Product(A, h1), h2) == Product(Product(A, h2), h1)
  {
    assert A * h1 * h2 == A * h2 * h1;
  }

  // ----- motion at constant acceleration -----

  /** Motion at constant acceleration `c`. */
  lemma Uniform(A: real, f: real, c: real, v1: real, v2: real, r: real, h: real)
    requires h >= 0.0 && -A <= c <= A
    requires 0.0 <= v1 <= f && 0.0 <= v2 <= f
    requires v2 == v1 + Product(c, h) && r == Product(v1, h) + Product(Product(c, h), h) / 2.0
    ensures Drives(A, f, v1, v2, r, h)
  {
    hide Product;
    var w := Product(c, h);
    AbsTimes(c, A, h);
    AbsTimes(w, Product(A, h), h);
    DifferenceProduct(v2, v1, h);
    UniformReach(f, v1, v2, r, h);
  }

  /** The length is that of the mean speed. */
  lemma UniformReach(f: real, v1: real, v2: real, r: real, h: real)
    requires h >= 0.0 && 0.0 <= v1 <= f && 0.0 <= v2 <= f
    requires r == Product(v1, h) + Product(v2 - v1, h) / 2.0
    ensures 0.0 <= r <= Product(f, h)
  {
    hide Product;
    var v := (v1 + v2) / 2.0;
    HalfProduct(v2 - v1, h);
    SumProduct(v1, (v2 - v1) / 2.0, h);
    assert v1 + (v2 - v1) / 2.0 == v;
    MonoProduct(0.0, v, h);
    MonoProduct(v, f, h);
    ZeroProduct(h);
  }

  /** Motion at constant speed. */
  lemma Steady(A: real, f: real, v: real, r: real, h: real)
    requires A > 0.0 && h >= 0.0 && 0.0 <= v <= f && r == Product(v, h)
    ensures Drives(A, f, v, v, r, h)
  {
    hide Product, Drives;
    ZeroProduct(h);
    Uniform(A, f, 0.0, v, v, r, h);
  }

  lemma Standing(A: real, f: real, h: real)
    requires A > 0.0 && h >= 0.0 && f > 0.0
    ensures Drives(A, f, 0.0, 0.0, 0.0, h)
  {
    hide Product, Drives;
    ZeroProduct(h);
    Steady(A, f, 0.0, 0.0, h);
  }

  // ----- one stretch after another -----

  lemma DrivesJoin(A: real, f: real, v1: real, v: real, v2: real, r1: real, r2: real, h1: real, h2: real)
    requires h1 >= 0.0 && h2 >= 0.0
    requires Drives(A, f, v1, v, r1, h1) && Drives(A, f, v, v2, r2, h2)
    ensures Drives(A, f, v1, v2, r1 + r2, h1 + h2)
  {
    hide Turned, Strayed, Slip, Product;
    TurnsJoin(A, h1, h2, v - v1, v2 - v);
    ProductSum(f, h1, h2);
    SlipsJoin(A, v1, v, v2, r1, r2, h1, h2);
  }

  lemma TurnsJoin(A: real, h1: real, h2: real, w1: real, w2: real)
    requires Turned(A, w1, h1) && Turned(A, w2, h2)
    ensures Turned(A, w1 + w2, h1 + h2)
  {
    hide Product;
    ProductSum(A, h1, h2);
  }

  lemma SlipsJoin(A: real, v1: real, v: real, v2: real, r1: real, r2: real, h1: real, h2: real)
    requires h1 >= 0.0 && h2 >= 0.0 && Turned(A, v - v1, h1) && Turned(A, v2 - v, h2)
    requires Strayed(A, Slip(r1, v1, h1), h1) && Strayed(A, Slip(r2, v, h2), h2)
    requires Strayed(A, Slip(r1, v, h1), h1) && Strayed(A, Slip(r2, v2, h2), h2)
    ensures Strayed(A, Slip(r1 + r2, v1, h1 + h2), h1 + h2)
    ensures Strayed(A, Slip(r1 + r2, v2, h1 + h2), h1 + h2)
  {
    hide Slip, Turned, Strayed, Product;
    SlipSplit(v1, v, v2, r1, r2, h1, h2);
    ErrorsJoin(A, h1, h2, v - v1, Slip(r1, v1, h1), Slip(r2, v, h2));
    TurnedBack(A, v2 - v, h2);
    ErrorsJoin(A, h2, h1, v - v2, Slip(r2, v2, h2), Slip(r1, v, h1));
  }

  lemma TurnedBack(A: real, w: real, h: real)
    requires Turned(A, w, h)
    ensures Turned(A, -w, h)
  {
    hide Product;
  }

  lemma SlipSplit(v1: real, v: real, v2: real, r1: real, r2: real, h1: real, h2: real)
    ensures Slip(r1 + r2, v1, h1 + h2) == Slip(r1, v1, h1) + Slip(r2, v, h2) + Product(v - v1, h2)
    ensures Slip(r1 + r2, v2, h1 + h2) == Slip(r2, v2, h2) + Slip(r1, v, h1) + Product(v - v2, h1)
  {
    hide Product;
    ProductSum(v1, h1, h2);
    ProductSum(v2, h1, h2);
    DifferenceProduct(v, v1, h2);
    DifferenceProduct(v, v2, h1);
  }

  lemma DrivesWiden(A: real, f: real, g: real, v1: real, v2: real, r: real, h: real)
    requires h >= 0.0 && f <= g && Drives(A, f, v1, v2, r, h)
    ensures Drives(A, g, v1, v2, r, h)
  {
    hide Product, Turned, Strayed, Slip;
    MonoProduct(f, g, h);
  }

  lemma ErrorsJoin(A: real, h1: real, h2: real, w: real, e1: real, e2: real)
    requires h1 >= 0.0 && h2 >= 0.0 && Turned(A, w, h1)
    requires Strayed(A, e1, h1) && Strayed(A, e2, h2)
    ensures Strayed(A, e1 + e2 + Product(w, h2), h1 + h2)
  {
    hide Product, Sag;
    AbsTimes(w, Product(A, h1), h2);
    SagJoin(A, h1, h2);
  }

  lemma SagJoin(A: real, h1: real, h2: real)
    ensures Sag(A, h1 + h2) == Sag(A, h1) + Sag(A, h2) + Product(Product(A, h1), h2)
  {
    hide Product;
    ProductSum(A, h1, h2);
    SumProduct(Product(A, h1), Product(A, h2), h1 + h2);
    ProductSum(Product(A, h1), h1, h2);
    ProductSum(Product(A, h2), h1, h2);
    CrossProduct(A, h1, h2);
  }

  lemma Chain(p: Profile, A: real, t1: real, t: real, t2: real)
    requires p.Planned? && t1 <= t <= t2 && Moves(p, A, t1, t) && Moves(p, A, t, t2)
    ensures Moves(p, A, t1, t2)
  {
    var r1, r2 := Travel(p, t) - Travel(p, t1), Travel(p, t2) - Travel(p, t);
    DrivesJoin(A, p.f, Speed(p, t1), Speed(p, t), Speed(p, t2), r1, r2, t - t1, t2 - t);
    assert r1 + r2 == Travel(p, t2) - Travel(p, t1);
    assert t - t1 + (t2 - t) == t2 - t1;
  }

  // ----- within one phase -----

  lemma MovesBefore(p: Profile, A: real, t1: real, t2: real)
    requires A > 0.0 && Joined(p) && t1 <= t2 <= 0.0
    ensures Moves(p, A, t1, t2)
  {
    Before(p, t1);
    Before(p, t2);
    Standing(A, p.f, t2 - t1);
  }

  lemma MovesAccelerating(p: Profile, A: real, t1: real, t2: real)
    requires Joined(p) && p.a <= A && 0.0 <= t1 <= t2 <= p.dt1
    ensures Moves(p, A, t1, t2)
  {
    hide Travel, Speed;
    Accelerating(p, t1);
    Accelerating(p, t2);
    RampUpDrives(A, p.f, p.a, t1, t2, p.dt1, Speed(p, t1), Speed(p, t2), Travel(p, t2) - Travel(p, t1));
  }

  lemma RampUpDrives(A: real, f: real, a: real, t1: real, t2: real, t: real, v1: real, v2: real, r: real)
    requires 0.0 < a <= A && 0.0 <= t1 <= t2 <= t && a * t == f
    requires v1 == a * t1 && v2 == a * t2 && r == a * t2 * t2 / 2.0 - a * t1 * t1 / 2.0
    ensures Drives(A, f, v1, v2, r, t2 - t1)
  {
    RampUp(a, t1, t2, t);
    RampUpLength(a, t1, t2, v1, v2, r);
    hide Product, Drives;
    Uniform(A, f, a, v1, v2, r, t2 - t1);
  }

  lemma RampUp(a: real, t1: real, t2: real, t: real)
    requires a > 0.0 && 0.0 <= t1 <= t2 <= t
    ensures 0.0 <= a * t1 <= a * t && 0.0 <= a * t2 <= a * t
  {
    MulMono(t1, t, a);
    MulMono(t2, t, a);
  }

  lemma RampUpLength(a: real, t1: real, t2: real, v1: real, v2: real, r: real)
    requires v1 == a * t1 && v2 == a * t2 && r == a * t2 * t2 / 2.0 - a * t1 * t1 / 2.0
    ensures var h := t2 - t1;
      v2 == v1 + Product(a, h) && r == Product(v1, h) + Product(Product(a, h), h) / 2.0
  {
    var h := t2 - t1;
    assert v2 == v1 + a * h;
    assert v2 * t2 == v1 * t1 + 2.0 * (v1 * h) + a * h * h;
  }

  lemma MovesCruising(p: Profile, A: real, t1: real, t2: real)
    requires A > 0.0 && Joined(p) && p.dt1 <= t1 <= t2 <= p.dt1 + p.dtm
    ensures Moves(p, A, t1, t2)
  {
    Cruising(p, t1);
    Cruising(p, t2);
    var w1, w2 := p.dt1 / 2.0 + (t1 - p.dt1), p.dt1 / 2.0 + (t2 - p.dt1);
    Distribute(w2, w1, p.f);
    Steady(A, p.f, p.f, p.f * (t2 - t1), t2 - t1);
  }

  lemma MovesBraking(p: Profile, A: real, t1: real, t2: real)
    requires Joined(p) && -A <= p.d && p.dt1 + p.dtm <= t1 <= t2 <= p.dt
    ensures Moves(p, A, t1, t2)
  {
    hide Travel, Speed;
    var u1, u2 := t1 - (p.dt1 + p.dtm), t2 - (p.dt1 + p.dtm);
    Braking(p, t1, u1);
    Braking(p, t2, u2);
    RampDownDrives(A, p.f, p.d, u1, u2, p.dt2, t2 - t1, Speed(p, t1), Speed(p, t2), Travel(p, t2) - Travel(p, t1));
  }

  lemma RampDownDrives(A: real, f: real, d: real, u1: real, u2: real, u: real, h: real, v1: real, v2: real, r: real)
    requires -A <= d < 0.0 && 0.0 <= u1 <= u2 <= u && d * u == -f && h == u2 - u1
    requires v1 == f + d * u1 && v2 == f + d * u2
    requires r == (f * u2 + d * u2 * u2 / 2.0) - (f * u1 + d * u1 * u1 / 2.0)
    ensures Drives(A, f, v1, v2, r, h)
  {
    RampDown(f, d, u1, u2, u);
    RampDownLength(f, d, u1, u2, v1, v2, r);
    hide Product, Drives;
    Uniform(A, f, d, v1, v2, r, h);
  }

  lemma RampDown(f: real, d: real, u1: real, u2: real, u: real)
    requires d < 0.0 && 0.0 <= u1 <= u2 <= u && d * u == -f
    ensures 0.0 <= f + d * u1 <= f && 0.0 <= f + d * u2 <= f
  {
    MulMono(u1, u, -d);
    MulMono(u2, u, -d);
  }

  lemma RampDownLength(f: real, d: real, u1: real, u2: real, v1: real, v2: real, r: real)
    requires v1 == f + d * u1 && v2 == f + d * u2
    requires r == (f * u2 + d * u2 * u2 / 2.0) - (f * u1 + d * u1 * u1 / 2.0)
    ensures var h := u2 - u1;
      v2 == v1 + Product(d, h) && r == Product(v1, h) + Product(Product(d, h), h) / 2.0
  {
    var h := u2 - u1;
    RampUpLength(d, u1, u2, d * u1, d * u2, d * u2 * u2 / 2.0 - d * u1 * u1 / 2.0);
    hide Product;
    SumProduct(f, d * u1, h);
    FeedLength(f, u1, u2);
  }

  lemma FeedLength(f: real, u1: real, u2: real)
    ensures f * u2 - f * u1 == Product(f, u2 - u1)
  {}

  lemma MovesAfter(p: Profile, A: real, t1: real, t2: real)
    requires A > 0.0 && Joined(p) && p.dt <= t1 <= t2
    ensures Moves(p, A, t1, t2)
  {
    Standing(A, p.f, t2 - t1);
  }

  // ----- across all phases -----

  /** Times are split at the phase boundaries, in order. */
  lemma MovesFromBraking(p: Profile, A: real, t1: real, t2: real)
    requires A > 0.0 && Joined(p) && -A <= p.d && p.dt1 + p.dtm <= t1 <= t2
    ensures Moves(p, A, t1, t2)
  {
    if t2 <= p.dt {
      MovesBraking(p, A, t1, t2);
    } else if t1 >= p.dt {
      MovesAfter(p, A, t1, t2);
    } else {
      MovesBraking(p, A, t1, p.dt);
      MovesAfter(p, A, p.dt, t2);
      Chain(p, A, t1, p.dt, t2);
    }
  }

  lemma MovesFromCruise(p: Profile, A: real, t1: real, t2: real)
    requires A > 0.0 && Joined(p) && -A <= p.d && p.dt1 <= t1 <= t2
    ensures Moves(p, A, t1, t2)
  {
    var b := p.dt1 + p.dtm;
    if t2 <= b {
      MovesCruising(p, A, t1, t2);
    } else if t1 >= b {
      MovesFromBraking(p, A, t1, t2);
    } else {
      MovesCruising(p, A, t1, b);
      MovesFromBraking(p, A, b, t2);
      Chain(p, A, t1, b, t2);
    }
  }

  lemma MovesFromStart(p: Profile, A: real, t1: real, t2: real)
    requires A > 0.0 && Joined(p) && p.a <= A && -A <= p.d && 0.0 <= t1 <= t2
    ensures Moves(p, A, t1, t2)
  {
    if t2 <= p.dt1 {
      MovesAccelerating(p, A, t1, t2);
    } else if t1 >= p.dt1 {
      MovesFromCruise(p, A, t1, t2);
    } else {
      MovesAccelerating(p, A, t1, p.dt1);
      MovesFromCruise(p, A, p.dt1, t2);
      Chain(p, A, t1, p.dt1, t2);
    }
  }

  lemma MovesAlways(p: Profile, A: real, t1: real, t2: real)
    requires A > 0.0 && Joined(p) && p.a <= A && -A <= p.d && t1 <= t2
    ensures Moves(p, A, t1, t2)
  {
    if t2 <= 0.0 {
      MovesBefore(p, A, t1, t2);
    } else if t1 >= 0.0 {
      MovesFromStart(p, A, t1, t2);
    } else {
      MovesBefore(p, A, t1, 0.0);
      MovesFromStart(p, A, 0.0, t2);
      Chain(p, A, t1, 0.0, t2);
    }
  }

  // ----- the profile theorems -----

  /** At every time the speed lies between zero and the peak. */
  lemma SpeedRange(p: Profile, A: real, v: real, t: real)
    requires A > 0.0 && Joined(p) && Limited(A, v, p)
    ensures 0.0 <= Speed(p, t) <= p.f <= v && Abs(Acceleration(p, t)) <= A
  {
    if 0.0 <= t <= p.dt1 {
      Accelerating(p, t);
      RampRange(p, t);
    } else if p.dt1 + p.dtm <= t <= p.dt {
      Braking(p, t, t - (p.dt1 + p.dtm));
      BrakeRange(p, t - (p.dt1 + p.dtm));
    }
  }

  lemma RampRange(p: Profile, t: real)
    requires Joined(p) && 0.0 <= t <= p.dt1
    ensures 0.0 <= p.a * t <= p.f
  {
    RampUp(p.a, t, t, p.dt1);
  }

  lemma BrakeRange(p: Profile, u: real)
    requires Joined(p) && 0.0 <= u <= p.dt2
    ensures 0.0 <= p.f + p.d * u <= p.f
  {
    RampDown(p.f, p.d, u, u, p.dt2);
  }

  /** The phase of a profile at time `t`, each without its end: before it, accelerating, cruising, braking,
      and after it. */
  function Phase(p: Profile, t: real): nat
    requires p.Planned?
  {
    if t < 0.0 then 0
    else if t < p.dt1 then 1
    else if t < p.dt1 + p.dtm then 2
    else if t < p.dt1 + p.dtm + p.dt2 then 3
    else 4
  }

  /** Within each phase the acceleration is the rate at which the speed changes. */
  lemma AccelerationIs(p: Profile, t1: real, t2: real)
    requires p.Planned? && Phase(p, t1) == Phase(p, t2)
    ensures Speed(p, t2) - Speed(p, t1) == Product(Acceleration(p, t1), t2 - t1)
    ensures Acceleration(p, t1) == Acceleration(p, t2)
  {
    match Phase(p, t1)
    case 1 => RampRate(p.a, t1, t2);
    case 3 => RampRate(p.d, t1 - (p.dt1 + p.dtm), t2 - (p.dt1 + p.dtm));
    case _ => ZeroProduct(t2 - t1);
  }

  lemma RampRate(c: real, t1: real, t2: real)
    ensures c * t2 - c * t1 == Product(c, t2 - t1)
  {}

  /** The kinematic envelope of every planned block: between any two times, in whatever phases, speed and
      distance change as an acceleration of at most A and a speed of at most the feedrate allow. */
  lemma Envelope(cfg: Config, feedrate: real, l: real, t1: real, t2: real)
    requires cfg.Valid() && Plannable(cfg, feedrate, l) && t1 <= t2
    ensures var p := Plan(cfg, feedrate, l);
      && 0.0 <= Speed(p, t1) <= feedrate / 60.0
      && Abs(Acceleration(p, t1)) <= cfg.A
      && Drives(cfg.A, feedrate / 60.0, Speed(p, t1), Speed(p, t2), Travel(p, t2) - Travel(p, t1), t2 - t1)
  {
    PlanSound(cfg, feedrate, l);
    var p := Plan(cfg, feedrate, l);
    SpeedRange(p, cfg.A, feedrate / 60.0, t1);
    MovesAlways(p, cfg.A, t1, t2);
    DrivesWiden(cfg.A, p.f, feedrate / 60.0, Speed(p, t1), Speed(p, t2), Travel(p, t2) - Travel(p, t1), t2 - t1);
  }

  /** Progress starts at 0, never falls, reaches 1 exactly when the profile ends, and stays there. */
  lemma Progress(cfg: Config, feedrate: real, l: real, t1: real, t2: real)
    requires cfg.Valid() && Plannable(cfg, feedrate, l) && t1 <= t2
    ensures var p := Plan(cfg, feedrate, l);
      && 0.0 <= Lambda(p, t1) <= Lambda(p, t2) <= 1.0
      && (t1 <= 0.0 ==> Lambda(p, t1) == 0.0 && Speed(p, t1) == 0.0)
      && (t2 >= p.dt ==> Lambda(p, t2) == 1.0 && Speed(p, t2) == 0.0)
  {
    PlanSound(cfg, feedrate, l);
    var p := Plan(cfg, feedrate, l);
    TravelRange(p, cfg.A, t1, t2);
    DivMono(0.0, Travel(p, t1), l);
    DivMono(Travel(p, t1), Travel(p, t2), l);
    DivMono(Travel(p, t2), l, l);
    DivUnique(l, l, 1.0);
    DivUnique(0.0, l, 0.0);
  }

  lemma TravelRange(p: Profile, A: real, t1: real, t2: real)
    requires A > 0.0 && Joined(p) && p.a <= A && -A <= p.d && t1 <= t2
    ensures 0.0 <= Travel(p, t1) <= Travel(p, t2) <= p.l
    ensures t1 <= 0.0 ==> Travel(p, t1) == 0.0
  {
    if t1 > 0.0 {
      MovesAlways(p, A, 0.0, t1);
    }
    Before(p, 0.0);
    MovesAlways(p, A, t1, t2);
    if t2 < p.dt {
      MovesAlways(p, A, t2, p.dt);
    }
    if t1 <= 0.0 {
      Before(p, t1);
    }
    After(p, p.dt);
  }

  lemma DivMono(x: real, y: real, c: real)
    requires c > 0.0 && x <= y
    ensures x / c <= y / c
  {}

  /** A trapezoid walks its second half as the mirror image of its first. */
  lemma Mirrored(cfg: Config, feedrate: real, l: real, t: real)
    requires cfg.Valid() && Plannable(cfg, feedrate, l) && Cruises(cfg, feedrate, l)
    ensures var p := Plan(cfg, feedrate, l); Lambda(p, t) + Lambda(p, p.dt - t) == 1.0
  {
    PlanSound(cfg, feedrate, l);
    var p := Plan(cfg, feedrate, l);
    if t <= p.dt / 2.0 {
      MirroredTravel(p, t, p.dt - t);
    } else {
      MirroredTravel(p, p.dt - t, t);
    }
    DivWhole(Travel(p, t), Travel(p, p.dt - t), l);
  }

  lemma DivWhole(x: real, y: real, c: real)
    requires c > 0.0 && x + y == c
    ensures x / c + y / c == 1.0
  {
    var u, v := x / c, y / c;
    assert u * c == x && v * c == y;
    Distribute(u, v, c);
    CancelLe(u + v, 1.0, c);
    CancelLe(1.0, u + v, c);
  }

  lemma MirroredTravel(p: Profile, t: real, s: real)
    requires Joined(p) && p.dt1 == p.dt2 && p.d == -p.a && t <= s && t + s == p.dt
    ensures Travel(p, t) + Travel(p, s) == p.l
  {
    if t <= 0.0 {
      Before(p, t);
      After(p, s);
    } else if t <= p.dt1 {
      Accelerating(p, t);
      Braking(p, s, p.dt2 - t);
      MirroredRamp(p.f, p.a, p.dt1, p.dtm, t, p.l);
    } else {
      Cruising(p, t);
      Cruising(p, s);
      var x, y := p.dt1 / 2.0 + (t - p.dt1), p.dt1 / 2.0 + (s - p.dt1);
      assert p.f * x + p.f * y == p.f * (x + y);
    }
  }

  lemma MirroredRamp(f: real, a: real, dt1: real, dtm: real, t: real, l: real)
    requires a * dt1 == f && f * (dt1 / 2.0 + dtm + dt1 / 2.0) == l
    ensures var u := dt1 - t; a * t * t / 2.0 + (f * (dt1 / 2.0 + dtm) + f * u + -a * u * u / 2.0) == l
  {
    var u := dt1 - t;
    assert f * u == a * dt1 * u;
    assert f * (dt1 / 2.0) == a * dt1 * dt1 / 2.0;
    assert a * u * u == a * dt1 * dt1 - 2.0 * a * dt1 * t + a * t * t;
    assert a * dt1 * u == a * dt1 * dt1 - a * dt1 * t;
    assert f * (dt1 / 2.0 + dtm + dt1 / 2.0) == f * (dt1 / 2.0 + dtm) + f * (dt1 / 2.0);
  }

  /** Half of the duration is half of the way exactly when the block cruises: a triangle brakes for longer
      than it accelerates, and is past the middle by then. */
  lemma HalfWay(cfg: Config, feedrate: real, l: real)
    requires cfg.Valid() && Plannable(cfg, feedrate, l)
    ensures var p := Plan(cfg, feedrate, l); Lambda(p, p.dt / 2.0) == 0.5 <==> Cruises(cfg, feedrate, l)
  {
    PlanSound(cfg, feedrate, l);
    var p := Plan(cfg, feedrate, l);
    if Cruises(cfg, feedrate, l) {
      Mirrored(cfg, feedrate, l, p.dt / 2.0);
    } else {
      TriangleHalf(p);
      CancelHalf(Travel(p, p.dt / 2.0), l);
    }
  }

  lemma TriangleHalf(p: Profile)
    requires Joined(p) && p.dtm == 0.0 && p.dt1 < p.dt2
    ensures Travel(p, p.dt / 2.0) > p.l / 2.0
  {
    var u := p.dt / 2.0 - p.dt1;
    Braking(p, p.dt / 2.0, u);
    PastMiddle(p.f, p.d, p.dt1, p.dt2, u);
    assert p.dt1 / 2.0 + p.dtm + p.dt2 / 2.0 == p.dt1 + u;
  }

  lemma PastMiddle(f: real, d: real, dt1: real, dt2: real, u: real)
    requires d < 0.0 && 0.0 < u < dt2 && d * dt2 == -f
    ensures f * (dt1 / 2.0) + f * u + d * u * u / 2.0 > f * (dt1 + u) / 2.0
  {
    var e := dt2 - u;
    assert f == -d * (u + e);
    MulPositive(-d, u);
    MulPositive(-d * u, e);
    assert f * u == -d * u * u + -d * u * e;
    assert f * (dt1 + u) / 2.0 == f * (dt1 / 2.0) + f * u / 2.0;
  }

  lemma CancelHalf(x: real, l: real)
    requires l > 0.0 && x > l / 2.0
    ensures x / l != 0.5
  {
    assert x / l * l == x;
  }

  // ----- walking along a profile -----

  datatype Sample = Sample(t: real, progress: real, speed: real)

  /** What `lambda` returns at time `t`; the speed is in mm/min. */
  function SampleAt(p: Profile, t: real): Sample
    requires p.Planned? && p.l != 0.0
  {
    Sample(t, Lambda(p, t), Speed(p, t) * 60.0)
  }

  /** One sample a tick, from time 0 to the end of the profile. */
  function Samples(tq: real, p: Profile): seq<Sample>
    requires tq > 0.0 && p.Planned? && p.l != 0.0 && Ticks(tq, p) >= 0
  {
    seq(Ticks(tq, p) + 1, i requires 0 <= i => SampleAt(p, Clock(tq, i)))
  }

  /** Progress never falls from one sample to a later one, and the speed keeps within the feedrate. */
  lemma SamplesClimb(cfg: Config, feedrate: real, l: real, t1: real, t2: real)
    requires cfg.Valid() && Plannable(cfg, feedrate, l) && t1 <= t2
    ensures var p := Plan(cfg, feedrate, l);
      && p.l == l
      && var a, b := SampleAt(p, t1), SampleAt(p, t2);
      && 0.0 <= a.progress <= b.progress <= 1.0 && 0.0 <= a.speed <= feedrate
  {
    PlanSound(cfg, feedrate, l);
    Progress(cfg, feedrate, l, t1, t2);
    SpeedRange(Plan(cfg, feedrate, l), cfg.A, feedrate / 60.0, t1);
  }

  /** The sampled speeds, in mm/min, are those of the sampled progress over the length `l`: between any two
      samples both change as the machine's acceleration and the feedrate allow. */
  lemma SamplesDrive(cfg: Config, feedrate: real, l: real, t1: real, t2: real)
    requires cfg.Valid() && Plannable(cfg, feedrate, l) && t1 <= t2
    ensures var p := Plan(cfg, feedrate, l);
      && p.l == l
      && var x, y := SampleAt(p, t1), SampleAt(p, t2);
      && x.t == t1 && y.t == t2
      && Drives(cfg.A, feedrate / 60.0, x.speed / 60.0, y.speed / 60.0,
                Product(l, y.progress) - Product(l, x.progress), t2 - t1)
  {
    PlanSound(cfg, feedrate, l);
    Envelope(cfg, feedrate, l, t1, t2);
    var p := Plan(cfg, feedrate, l);
    hide Drives, Plan, Travel, Speed, Product, Sound;
    WholeQuotient(Travel(p, t1), l);
    WholeQuotient(Travel(p, t2), l);
  }

  lemma WholeQuotient(x: real, l: real)
    requires l > 0.0
    ensures Product(l, x / l) == x
  {}

  /** The samples of a planned block run from rest at 0 to rest at 1. */
  lemma SamplesSpan(cfg: Config, feedrate: real, l: real)
    requires cfg.Valid() && Plannable(cfg, feedrate, l)
    ensures var p := Plan(cfg, feedrate, l);
      && Ticks(cfg.tq, p) >= 1 && p.l == l
      && var ss := Samples(cfg.tq, p);
      && ss[0] == Sample(0.0, 0.0, 0.0) && ss[|ss| - 1] == Sample(p.dt, 1.0, 0.0)
  {
    hide Travel, Speed, Plan;
    PlanSound(cfg, feedrate, l);
    var p := Plan(cfg, feedrate, l);
    Progress(cfg, feedrate, l, 0.0, p.dt);
    assert Clock(cfg.tq, 0) == 0.0;
  }
}
