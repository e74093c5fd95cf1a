/** Arc geometry: `Block::calc_arc` (src/block.cpp), in the plane of X and Y. */
module Arcs {
  import opened Numerics

  /** A swept arc: centre, radius, start angle and signed sweep. */
  datatype Arc = Arc(xc: real, yc: real, r: real, theta0: real, dtheta: real)

  /** Degenerate stands for a radius form whose centre is not a number. */
  datatype ArcResult = Mismatch(r: real) | Degenerate(r: real) | Swept(arc: Arc)

  /** Two endpoints, relative to which an arc is given. */
  datatype Chord = Chord(x0: real, y0: real, x1: real, y1: real) {
    function Dx(): real { x1 - x0 }
    function Dy(): real { y1 - y0 }
    function Sq(): real { SumSq(Dx(), Dy()) }
  }

  /** Whether a circle of radius |R| passes through two distinct endpoints. */
  predicate Solvable(c: Chord, R: real) {
    R != 0.0 && c.Sq() > 0.0 && R * R >= c.Sq() / 4.0
  }

  /** +1 for the centre on the left of the chord, -1 on the right. */
  function Side(ccw: bool, R: real): real {
    if ccw == (R > 0.0) then 1.0 else -1.0
  }

  /** The distance from a chord of length `d` to the centre. */
  function Rise(m: Libm, R: real, d: real): real {
    m.sqrt(R * R - d * d / 4.0)
  }

  /** The same distance as a fraction of the chord. */
  function Offset(m: Libm, c: Chord, R: real): real
    requires m.sqrt(c.Sq()) != 0.0
  {
    Rise(m, R, m.sqrt(c.Sq())) / m.sqrt(c.Sq())
  }

  function CentreX(m: Libm, c: Chord, s: real, R: real): real
    requires m.sqrt(c.Sq()) != 0.0
  {
    (c.x0 + c.x1) / 2.0 - s * c.Dy() * Offset(m, c, R)
  }

  function CentreY(m: Libm, c: Chord, s: real, R: real): real
    requires m.sqrt(c.Sq()) != 0.0
  {
    (c.y0 + c.y1) / 2.0 + s * c.Dx() * Offset(m, c, R)
  }

  /** The signed sweep for a difference `raw` of two angles. */
  function Sweep(pi: real, ccw: bool, raw: real): real {
    var net := if raw < 0.0 then 2.0 * pi + raw else raw;
    if ccw then net else -(2.0 * pi - net)
  }

  function SweptAbout(m: Libm, ccw: bool, c: Chord, xc: real, yc: real, r: real): Arc {
    var theta0 := m.atan2(c.y0 - yc, c.x0 - xc);
    Arc(xc, yc, r, theta0, Sweep(m.pi, ccw, m.atan2(c.y1 - yc, c.x1 - xc) - theta0))
  }

  function Length(a: Arc): real {
    Abs(a.dtheta * a.r)
  }

  /** The arc of a block: by radius when R is given, else by the centre offset (i, j), which is refused
      when the two radii differ by more than the machine's current error, if that is available. */
  function ArcOf(m: Libm, error: Option<real>, ccw: bool, c: Chord, R: real, i: real, j: real): ArcResult
    requires m.Valid()
  {
    if R != 0.0 then
      if Solvable(c, R) then
        RootFacts(m, c.Sq());
        var s := Side(ccw, R);
        Swept(SweptAbout(m, ccw, c, CentreX(m, c, s, R), CentreY(m, c, s, R), Abs(R)))
      else
        Degenerate(Abs(R))
    else
      var r, xc, yc := m.Hypot(i, j), c.x0 + i, c.y0 + j;
      if error.Some? && Abs(r - m.Hypot(c.x1 - xc, c.y1 - yc)) > error.value then Mismatch(r)
      else Swept(SweptAbout(m, ccw, c, xc, yc, Abs(r)))
  }

  // ----- the sweep -----

  /** The sweep is the raw angle difference up to one turn, and its sign is the direction of the arc. */
  lemma SweepNormal(pi: real, ccw: bool, raw: real)
    requires pi > 0.0 && -2.0 * pi < raw < 2.0 * pi
    ensures var w := Sweep(pi, ccw, raw);
      && (w == raw || w == raw + 2.0 * pi || w == raw - 2.0 * pi)
      && (if ccw then 0.0 <= w < 2.0 * pi else -2.0 * pi <= w < 0.0)
  {}

  /** About one centre, the two directions together go once around the circle. */
  lemma DirectionsComplete(m: Libm, c: Chord, xc: real, yc: real, r: real)
    requires m.Valid() && r >= 0.0
    ensures Length(SweptAbout(m, true, c, xc, yc, r)) + Length(SweptAbout(m, false, c, xc, yc, r)) == 2.0 * m.pi * r
  {
    RawRange(m, c, xc, yc);
    var p, q := SweptAbout(m, true, c, xc, yc, r).dtheta, SweptAbout(m, false, c, xc, yc, r).dtheta;
    assert q == p - 2.0 * m.pi;
    MulNonNegative(p, r);
    MulNonNegative(-q, r);
    assert p * r + -q * r == (p - q) * r;
  }

  lemma RawRange(m: Libm, c: Chord, xc: real, yc: real)
    requires m.Valid()
    ensures -2.0 * m.pi < m.atan2(c.y1 - yc, c.x1 - xc) - m.atan2(c.y0 - yc, c.x0 - xc) < 2.0 * m.pi
  {
    assert m.Polar(c.y0 - yc, c.x0 - xc) && m.Polar(c.y1 - yc, c.x1 - xc);
  }

  /** A full turn written in the centre form (equal endpoints) is walked clockwise only: the
      counterclockwise block has length zero. */
  lemma FullTurn(m: Libm, error: Option<real>, ccw: bool, c: Chord, i: real, j: real)
    requires m.Valid() && c.Sq() == 0.0 && (error.Some? ==> error.value >= 0.0)
    ensures var a := ArcOf(m, error, ccw, c, 0.0, i, j);
      && a.Swept?
      && Length(a.arc) == if ccw then 0.0 else 2.0 * m.pi * m.Hypot(i, j)
  {
    SumOfSquares(c.Dx(), c.Dy());
    var xc, yc, r := c.x0 + i, c.y0 + j, m.Hypot(i, j);
    HypotNegated(m, i, j, c.x1 - xc, c.y1 - yc);
    HypotSq(m, i, j);
    MulNonNegative(m.pi, r);
  }

  lemma SumOfSquares(x: real, y: real)
    requires Sq(x) + Sq(y) == 0.0
    ensures x == 0.0 && y == 0.0
  {
    hide Sq;
    SqPositive(x);
    SqPositive(y);
  }

  lemma HypotSq(m: Libm, x: real, y: real)
    requires m.Valid()
    ensures m.Hypot(x, y) >= 0.0 && m.Hypot(x, y) * m.Hypot(x, y) == x * x + y * y
  {
    SqNonNegative(x);
    SqNonNegative(y);
    RootFacts(m, SumSq(x, y));
  }

  lemma HypotNegated(m: Libm, x: real, y: real, u: real, v: real)
    requires u == -x && v == -y
    ensures m.Hypot(u, v) == m.Hypot(x, y)
  {
    assert SumSq(u, v) == SumSq(x, y);
  }

  // ----- the centre given by a radius -----

  /** A radius vector from the centre: half the chord (a, b) turned by a right angle and scaled by `k`,
      plus or minus half the chord. */
  lemma RadiusSq(dx: real, dy: real, k: real, q: real, rr: real)
    requires q == dx * dx + dy * dy && k * k * q == rr - q / 4.0
    ensures Sq(dy * k - dx / 2.0) + Sq(-(dx * k) - dy / 2.0) == rr
    ensures Sq(dy * k + dx / 2.0) + Sq(-(dx * k) + dy / 2.0) == rr
  {
    var a, b := dy * k, dx * k;
    assert a * dx == b * dy;
    assert a * a + b * b == k * k * q;
    SquareOfSum(a, dx / 2.0);
    SquareOfSum(-b, dy / 2.0);
  }

  lemma SquareOfSum(a: real, b: real)
    ensures Sq(a + b) == a * a + 2.0 * (a * b) + b * b
    ensures Sq(a - b) == a * a - 2.0 * (a * b) + b * b
  {}

  /** The signed area that the two radius vectors span. */
  lemma RadiiCross(dx: real, dy: real, k: real, q: real)
    requires q == dx * dx + dy * dy
    ensures Cross(dy * k - dx / 2.0, -(dx * k) - dy / 2.0, dy * k + dx / 2.0, -(dx * k) + dy / 2.0) == k * q
  {
    var a, b := dy * k, dx * k;
    assert a * dx == b * dy;
    assert a * dy + b * dx == k * q;
    CrossOfSums(a, b, dx / 2.0, dy / 2.0);
  }

  function Cross(ux: real, uy: real, vx: real, vy: real): real {
    ux * vy - uy * vx
  }

  lemma CrossOfSums(a: real, b: real, x: real, y: real)
    ensures Cross(a - x, -b - y, a + x, -b + y) == 2.0 * (a * y) + 2.0 * (b * x)
  {}

  /** The centre that the radius form computes, as a turn and scaling of the chord. */
  lemma CentreScale(m: Libm, c: Chord, ccw: bool, R: real) returns (k: real)
    requires m.Valid() && Solvable(c, R)
    ensures m.sqrt(c.Sq()) > 0.0
    ensures var s := Side(ccw, R);
      && CentreX(m, c, s, R) == (c.x0 + c.x1) / 2.0 - c.Dy() * k
      && CentreY(m, c, s, R) == (c.y0 + c.y1) / 2.0 + c.Dx() * k
      && k * k * c.Sq() == R * R - c.Sq() / 4.0
      && s * k >= 0.0
  {
    var d, q, s := m.sqrt(c.Sq()), c.Sq(), Side(ccw, R);
    RootFacts(m, q);
    assert d * d == q;
    RiseFacts(m, R, d);
    var h := Offset(m, c, R);
    OffsetSq(Rise(m, R, d), d, h);
    k := s * h;
    if s == -1.0 {
      assert k * k == h * h;
    }
  }

  lemma RiseFacts(m: Libm, R: real, d: real)
    requires m.Valid() && R * R - d * d / 4.0 >= 0.0
    ensures Rise(m, R, d) >= 0.0 && Rise(m, R, d) * Rise(m, R, d) == R * R - d * d / 4.0
  {
    RootFacts(m, R * R - d * d / 4.0);
  }

  lemma OffsetSq(w: real, d: real, h: real)
    requires d > 0.0 && w >= 0.0 && h == w / d
    ensures h >= 0.0 && h * h * (d * d) == w * w
  {
    DivNonNegative(w, d);
    assert h * d == w;
    assert h * h * (d * d) == (h * d) * (h * d);
  }

  /** The radius form: the centre lies at squared distance R squared from both endpoints, and the signed
      area of the two radius vectors has the sign of the centre's side (or is zero on a half circle). */
  lemma RadiusForm(m: Libm, c: Chord, ccw: bool, R: real)
    requires m.Valid() && Solvable(c, R)
    ensures m.sqrt(c.Sq()) > 0.0
    ensures var s := Side(ccw, R); var xc, yc := CentreX(m, c, s, R), CentreY(m, c, s, R);
      && Sq(c.x0 - xc) + Sq(c.y0 - yc) == R * R
      && Sq(c.x1 - xc) + Sq(c.y1 - yc) == R * R
      && s * Cross(c.x0 - xc, c.y0 - yc, c.x1 - xc, c.y1 - yc) >= 0.0
      && (Cross(c.x0 - xc, c.y0 - yc, c.x1 - xc, c.y1 - yc) == 0.0 <==> R * R == c.Sq() / 4.0)
  {
    var s, dx, dy, q := Side(ccw, R), c.Dx(), c.Dy(), c.Sq();
    var k := CentreScale(m, c, ccw, R);
    var xc, yc := CentreX(m, c, s, R), CentreY(m, c, s, R);
    RadiusSq(dx, dy, k, q, R * R);
    RadiiCross(dx, dy, k, q);
    assert c.x0 - xc == dy * k - dx / 2.0 && c.y0 - yc == -(dx * k) - dy / 2.0;
    assert c.x1 - xc == dy * k + dx / 2.0 && c.y1 - yc == -(dx * k) + dy / 2.0;
    SignedProduct(s, k, q);
  }

  lemma SignedProduct(s: real, k: real, q: real)
    requires q > 0.0 && s * k >= 0.0
    ensures s * (k * q) >= 0.0
    ensures k * q == 0.0 <==> k * k * q == 0.0
  {
    assert s * (k * q) == (s * k) * q;
    if k > 0.0 {
      MulPositive(k, q);
      MulPositive(k, k * q);
    } else if k < 0.0 {
      MulPositive(-k, q);
      MulPositive(-k, -k * q);
    }
  }

  // ----- minor and major arcs -----

  /** A vector from the centre in polar form. */
  lemma PolarForm(m: Libm, x: real, y: real, r: real)
    requires m.Valid() && r >= 0.0 && Sq(x) + Sq(y) == r * r
    ensures x == r * m.cos(m.atan2(y, x)) && y == r * m.sin(m.atan2(y, x))
  {
    assert m.Polar(y, x);
    HypotSq(m, x, y);
    SqInjective(m.Hypot(x, y), r);
  }

  /** The signed area that two radius vectors span is r squared times the sine of the angle between. */
  lemma CrossIsSine(m: Libm, r: real, a: real, b: real)
    requires m.Valid()
    ensures Cross(r * m.cos(a), r * m.sin(a), r * m.cos(b), r * m.sin(b)) == r * r * m.sin(b - a)
  {
    assert m.Difference(b, a);
    var ca, sa, cb, sb := m.cos(a), m.sin(a), m.cos(b), m.sin(b);
    assert Cross(r * ca, r * sa, r * cb, r * sb) == r * r * (sb * ca - cb * sa);
  }

  /** Turning a whole time either way changes no angle's sine and cosine. */
  lemma SameDirection(m: Libm, a: real, b: real)
    requires m.Valid() && (b == a || b == a + 2.0 * m.pi || b == a - 2.0 * m.pi)
    ensures m.sin(b) == m.sin(a) && m.cos(b) == m.cos(a)
  {
    assert m.Turn(a) && m.Turn(b);
  }

  lemma SineZeros(m: Libm)
    requires m.Valid()
    ensures m.sin(0.0) == 0.0 && m.sin(m.pi) == 0.0 && m.sin(-m.pi) == 0.0
  {
    assert m.Difference(0.0, 0.0) && m.Unit(0.0);
    assert m.Difference(0.0, m.pi);
    assert m.Turn(-m.pi);
    assert 0.0 - m.pi == -m.pi && -m.pi + 2.0 * m.pi == m.pi;
    assert m.cos(0.0) == 1.0;
    assert m.sin(-m.pi) == -m.sin(m.pi);
  }

  /** The size of a sweep. */
  function Size(ccw: bool, w: real): real {
    if ccw then w else -w
  }

  /** The sign of the sine places a sweep in the half turn nearer to its start or in the farther one. */
  lemma SweepHalf(m: Libm, ccw: bool, w: real)
    requires m.Valid() && if ccw then 0.0 <= w < 2.0 * m.pi else -2.0 * m.pi <= w < 0.0
    ensures Size(ccw, m.sin(w)) > 0.0 ==> 0.0 < Size(ccw, w) < m.pi
    ensures Size(ccw, m.sin(w)) < 0.0 ==> m.pi < Size(ccw, w) < 2.0 * m.pi
    ensures m.sin(w) == 0.0 ==> w == 0.0 || w == -2.0 * m.pi || Size(ccw, w) == m.pi
  {
    var u := if ccw then w - 2.0 * m.pi else w + 2.0 * m.pi;
    SameDirection(m, w, u);
    SineZeros(m);
    assert m.SineSign(w) && m.SineSign(u);
  }

  /** The signed area `x` of the radius vectors, on the centre's side, decides which half turn it is. */
  lemma HalfTurn(m: Libm, ccw: bool, R: real, rr: real, w: real, x: real)
    requires m.Valid() && if ccw then 0.0 <= w < 2.0 * m.pi else -2.0 * m.pi <= w < 0.0
    requires R != 0.0 && rr > 0.0 && x == rr * m.sin(w) && Side(ccw, R) * x >= 0.0
    requires w != 0.0 && w != -2.0 * m.pi
    ensures Size(ccw, w) > 0.0
    ensures x == 0.0 ==> Size(ccw, w) == m.pi
    ensures x != 0.0 && R > 0.0 ==> Size(ccw, w) < m.pi
    ensures x != 0.0 && R < 0.0 ==> Size(ccw, w) > m.pi
  {
    SweepHalf(m, ccw, w);
    SineSide(rr, m.sin(w), x);
  }

  /** The sign of the area is the sign of the sine. */
  lemma SineSide(rr: real, sine: real, x: real)
    requires rr > 0.0 && x == rr * sine
    ensures (x > 0.0 <==> sine > 0.0) && (x < 0.0 <==> sine < 0.0)
  {
    if sine > 0.0 {
      MulPositive(rr, sine);
    } else if sine < 0.0 {
      MulPositive(rr, -sine);
    }
  }

  /** The angle at which an arc's sweep ends. */
  function EndAngle(a: Arc): real {
    a.theta0 + a.dtheta
  }

  /** An arc about (xc, yc) whose radius is the distance to its start: it starts there, and ends in the
      direction of its end, at its own radius. */
  lemma SweptEnds(m: Libm, ccw: bool, c: Chord, xc: real, yc: real, r: real, r2: real)
    requires m.Valid() && r >= 0.0 && r2 >= 0.0
    requires Sq(c.x0 - xc) + Sq(c.y0 - yc) == r * r && Sq(c.x1 - xc) + Sq(c.y1 - yc) == r2 * r2
    ensures var a := SweptAbout(m, ccw, c, xc, yc, r);
      && c.x0 - xc == r * m.cos(a.theta0) && c.y0 - yc == r * m.sin(a.theta0)
      && c.x1 - xc == r2 * m.cos(EndAngle(a)) && c.y1 - yc == r2 * m.sin(EndAngle(a))
  {
    var a := SweptAbout(m, ccw, c, xc, yc, r);
    var theta1 := m.atan2(c.y1 - yc, c.x1 - xc);
    PolarForm(m, c.x0 - xc, c.y0 - yc, r);
    PolarForm(m, c.x1 - xc, c.y1 - yc, r2);
    RawRange(m, c, xc, yc);
    SweepNormal(m.pi, ccw, theta1 - a.theta0);
    SameDirection(m, theta1, EndAngle(a));
  }

  /** The radius form: R > 0 walks the minor arc and R < 0 the major arc, in both directions; the two are
      equal exactly when the chord is a diameter. */
  lemma MinorOrMajor(m: Libm, error: Option<real>, ccw: bool, c: Chord, R: real, i: real, j: real)
    requires m.Valid() && Solvable(c, R)
    ensures ArcOf(m, error, ccw, c, R, i, j).Swept?
    ensures var a := ArcOf(m, error, ccw, c, R, i, j).arc;
      && a.r == Abs(R)
      && (R * R == c.Sq() / 4.0 ==> Length(a) == m.pi * a.r)
      && (R * R != c.Sq() / 4.0 && R > 0.0 ==> Length(a) < m.pi * a.r)
      && (R * R != c.Sq() / 4.0 && R < 0.0 ==> Length(a) > m.pi * a.r)
  {
    hide Cross, Sq, CentreX, CentreY, Length, Chord.Sq, Side, Abs, Libm.Valid;
    RadiusForm(m, c, ccw, R);
    var s := Side(ccw, R);
    var xc, yc := CentreX(m, c, s, R), CentreY(m, c, s, R);
    AbsSq(R);
    MinorOrMajorAbout(m, ccw, c, xc, yc, R, Abs(R));
  }

  lemma AbsSq(R: real)
    ensures Abs(R) * Abs(R) == R * R && (R != 0.0 ==> Abs(R) > 0.0)
  {}

  lemma MinorOrMajorAbout(m: Libm, ccw: bool, c: Chord, xc: real, yc: real, R: real, r: real)
    requires m.Valid() && R != 0.0 && c.Sq() > 0.0 && r > 0.0
    requires Sq(c.x0 - xc) + Sq(c.y0 - yc) == r * r && Sq(c.x1 - xc) + Sq(c.y1 - yc) == r * r
    requires Side(ccw, R) * Cross(c.x0 - xc, c.y0 - yc, c.x1 - xc, c.y1 - yc) >= 0.0
    ensures var a, x := SweptAbout(m, ccw, c, xc, yc, r), Cross(c.x0 - xc, c.y0 - yc, c.x1 - xc, c.y1 - yc);
      && (x == 0.0 ==> Length(a) == m.pi * r)
      && (x != 0.0 && R > 0.0 ==> Length(a) < m.pi * r)
      && (x != 0.0 && R < 0.0 ==> Length(a) > m.pi * r)
  {
    hide Cross, Sq, Libm.Valid, Length, Chord.Sq, Side, Size;
    var a, x := SweptAbout(m, ccw, c, xc, yc, r), Cross(c.x0 - xc, c.y0 - yc, c.x1 - xc, c.y1 - yc);
    SweptEnds(m, ccw, c, xc, yc, r, r);
    RawRange(m, c, xc, yc);
    SweepNormal(m.pi, ccw, m.atan2(c.y1 - yc, c.x1 - xc) - a.theta0);
    DistinctEnds(m, c, a);
    CrossOfEnds(m, a, c);
    SqPositive(r);
    HalfTurn(m, ccw, R, Sq(r), a.dtheta, x);
    LengthByAngle(a, ccw, m.pi);
  }

  lemma CrossOfEnds(m: Libm, a: Arc, c: Chord)
    requires m.Valid()
    requires c.x0 - a.xc == a.r * m.cos(a.theta0) && c.y0 - a.yc == a.r * m.sin(a.theta0)
    requires c.x1 - a.xc == a.r * m.cos(EndAngle(a)) && c.y1 - a.yc == a.r * m.sin(EndAngle(a))
    ensures Cross(c.x0 - a.xc, c.y0 - a.yc, c.x1 - a.xc, c.y1 - a.yc) == Sq(a.r) * m.sin(a.dtheta)
  {
    assert EndAngle(a) - a.theta0 == a.dtheta;
    CrossIsSine(m, a.r, a.theta0, EndAngle(a));
  }

  /** Distinct endpoints do not lie in the same direction from the centre. */
  lemma DistinctEnds(m: Libm, c: Chord, a: Arc)
    requires m.Valid() && c.Sq() > 0.0
    requires c.x0 - a.xc == a.r * m.cos(a.theta0) && c.y0 - a.yc == a.r * m.sin(a.theta0)
    requires c.x1 - a.xc == a.r * m.cos(EndAngle(a)) && c.y1 - a.yc == a.r * m.sin(EndAngle(a))
    ensures a.dtheta != 0.0 && a.dtheta != -2.0 * m.pi
  {
    if a.dtheta == 0.0 || a.dtheta == -2.0 * m.pi {
      SameDirection(m, a.theta0, EndAngle(a));
    }
  }

  lemma LengthByAngle(a: Arc, ccw: bool, pi: real)
    requires a.r > 0.0 && Size(ccw, a.dtheta) > 0.0
    ensures Size(ccw, a.dtheta) == pi ==> Length(a) == pi * a.r
    ensures Size(ccw, a.dtheta) < pi ==> Length(a) < pi * a.r
    ensures Size(ccw, a.dtheta) > pi ==> Length(a) > pi * a.r
  {
    var u := Size(ccw, a.dtheta);
    assert u * a.r == a.dtheta * a.r || u * a.r == -(a.dtheta * a.r);
    MulPositive(u, a.r);
    if u < pi {
      MulStrict(u, pi, a.r);
    } else if u > pi {
      MulStrict(pi, u, a.r);
    }
  }

  // ----- points on an arc -----

  function AngleAt(a: Arc, progress: real): real {
    a.theta0 + a.dtheta * progress
  }

  function ArcX(m: Libm, a: Arc, progress: real): real {
    a.xc + a.r * m.cos(AngleAt(a, progress))
  }

  function ArcY(m: Libm, a: Arc, progress: real): real {
    a.yc + a.r * m.sin(AngleAt(a, progress))
  }

  /** The distance from the centre to the programmed end, which an arc by centre may miss. */
  function EndRadius(m: Libm, c: Chord, a: Arc): real {
    m.Hypot(c.x1 - a.xc, c.y1 - a.yc)
  }

  /** Every arc starts at its start point; the radius form ends at its end point, and the centre form at a
      point whose distance from it is the difference of the two radii, which the check bounds by the
      current error when there is one. */
  lemma ArcReaches(m: Libm, error: Option<real>, ccw: bool, c: Chord, R: real, i: real, j: real)
    requires m.Valid() && ArcOf(m, error, ccw, c, R, i, j).Swept?
    ensures var a := ArcOf(m, error, ccw, c, R, i, j).arc;
      && a.r >= 0.0
      && ArcX(m, a, 0.0) == c.x0 && ArcY(m, a, 0.0) == c.y0
      && Sq(ArcX(m, a, 1.0) - c.x1) + Sq(ArcY(m, a, 1.0) - c.y1) == Sq(a.r - EndRadius(m, c, a))
      && (R != 0.0 ==> a.r == EndRadius(m, c, a))
      && (R == 0.0 && error.Some? ==> Abs(a.r - EndRadius(m, c, a)) <= error.value)
  {
    hide CentreX, CentreY, Cross, Sq, Chord.Sq, ArcX, ArcY;
    var a := ArcOf(m, error, ccw, c, R, i, j).arc;
    var r2 := EndRadius(m, c, a);
    EndRadiusSq(m, c, a);
    AbsSq(R);
    if R != 0.0 {
      RadiusForm(m, c, ccw, R);
      SqInjective(a.r, r2);
    } else {
      HypotSq(m, i, j);
      CentreFormStart(i, j, c.x0 - a.xc, c.y0 - a.yc);
    }
    ArcEnds(m, ccw, c, a, r2);
  }

  lemma EndRadiusSq(m: Libm, c: Chord, a: Arc)
    requires m.Valid()
    ensures EndRadius(m, c, a) >= 0.0
    ensures Sq(c.x1 - a.xc) + Sq(c.y1 - a.yc) == EndRadius(m, c, a) * EndRadius(m, c, a)
  {
    HypotSq(m, c.x1 - a.xc, c.y1 - a.yc);
  }

  lemma CentreFormStart(i: real, j: real, x: real, y: real)
    requires x == -i && y == -j
    ensures Sq(x) + Sq(y) == i * i + j * j
  {}

  lemma ArcEnds(m: Libm, ccw: bool, c: Chord, a: Arc, r2: real)
    requires m.Valid() && a.r >= 0.0 && r2 >= 0.0 && a == SweptAbout(m, ccw, c, a.xc, a.yc, a.r)
    requires Sq(c.x0 - a.xc) + Sq(c.y0 - a.yc) == a.r * a.r && Sq(c.x1 - a.xc) + Sq(c.y1 - a.yc) == r2 * r2
    ensures ArcX(m, a, 0.0) == c.x0 && ArcY(m, a, 0.0) == c.y0
    ensures Sq(ArcX(m, a, 1.0) - c.x1) + Sq(ArcY(m, a, 1.0) - c.y1) == Sq(a.r - r2)
  {
    hide Sq, SweptAbout;
    SweptEnds(m, ccw, c, a.xc, a.yc, a.r, r2);
    assert AngleAt(a, 0.0) == a.theta0 && AngleAt(a, 1.0) == EndAngle(a);
    var co, si := m.cos(EndAngle(a)), m.sin(EndAngle(a));
    assert m.Unit(EndAngle(a));
    EndGap(a.r, r2, co, si, ArcX(m, a, 1.0) - c.x1, ArcY(m, a, 1.0) - c.y1);
  }

  lemma EndGap(r: real, r2: real, co: real, si: real, x: real, y: real)
    requires co * co + si * si == 1.0 && x == r * co - r2 * co && y == r * si - r2 * si
    ensures Sq(x) + Sq(y) == Sq(r - r2)
  {
    var g := r - r2;
    assert x == g * co && y == g * si;
    assert Sq(x) + Sq(y) == g * g * (co * co + si * si);
  }

  /** The centre form: the centre lies at (i, j) from the start point, and the radius is the length of that.
      The form is refused exactly when an error is available and smaller than the difference between that
      length and the distance of the end point from the centre. */
  lemma CentreForm(m: Libm, error: Option<real>, ccw: bool, c: Chord, i: real, j: real)
    requires m.Valid()
    ensures var result := ArcOf(m, error, ccw, c, 0.0, i, j);
      && (result.Swept? ==>
          && result.arc.xc - c.x0 == i && result.arc.yc - c.y0 == j
          && result.arc.r >= 0.0 && Sq(result.arc.r) == Sq(i) + Sq(j))
      && (!result.Swept? <==>
          && error.Some?
          && error.value < Abs(m.sqrt(Sq(i) + Sq(j)) - m.sqrt(Sq(c.x1 - c.x0 - i) + Sq(c.y1 - c.y0 - j))))
      && (!result.Swept? ==> result.Mismatch?)
  {
    HypotSq(m, i, j);
    assert SumSq(i, j) == Sq(i) + Sq(j);
    EndOffset(c.x1 - (c.x0 + i), c.y1 - (c.y0 + j), c.x1 - c.x0 - i, c.y1 - c.y0 - j);
  }

  lemma EndOffset(x: real, y: real, u: real, v: real)
    requires x == u && y == v
    ensures SumSq(x, y) == Sq(u) + Sq(v)
  {}

  /** The radius form: there is an arc exactly when the end points are distinct and no farther apart than the
      diameter; it is never refused. */
  lemma RadiusSolves(m: Libm, error: Option<real>, ccw: bool, c: Chord, R: real, i: real, j: real)
    requires m.Valid() && R != 0.0
    ensures var result, d := ArcOf(m, error, ccw, c, R, i, j), Sq(c.x1 - c.x0) + Sq(c.y1 - c.y0);
      && (result.Swept? <==> 0.0 < d <= 4.0 * Sq(R))
      && !result.Mismatch? && (result.Swept? ==> result.arc.r == Abs(R))
  {
    assert c.Sq() == Sq(c.x1 - c.x0) + Sq(c.y1 - c.y0);
  }

  /** Every point of an arc is at its radius from its centre. */
  lemma OnCircle(m: Libm, a: Arc, progress: real)
    requires m.Valid()
    ensures Sq(ArcX(m, a, progress) - a.xc) + Sq(ArcY(m, a, progress) - a.yc) == Sq(a.r)
  {
    var t := AngleAt(a, progress);
    assert m.Unit(t);
    EndGap(a.r, 0.0, m.cos(t), m.sin(t), ArcX(m, a, progress) - a.xc, ArcY(m, a, progress) - a.yc);
  }

  /** The straight distance between two points of an arc is at most the distance along it. */
  lemma ChordWithinArc(m: Libm, a: Arc, l1: real, l2: real)
    requires m.Valid()
    ensures Sq(ArcX(m, a, l2) - ArcX(m, a, l1)) + Sq(ArcY(m, a, l2) - ArcY(m, a, l1)) <= Sq(Product(Length(a), l2 - l1))
  {
    hide Sq, Libm.Valid, AngleAt;
    var s, t := AngleAt(a, l1), AngleAt(a, l2);
    var x, y := ArcX(m, a, l2) - ArcX(m, a, l1), ArcY(m, a, l2) - ArcY(m, a, l1);
    var dc, ds := m.cos(t) - m.cos(s), m.sin(t) - m.sin(s);
    UnitChord(m, s, t);
    assert x == dc * a.r && y == ds * a.r;
    var u, v := t - s, Product(Length(a), l2 - l1);
    AngleStep(a, l1, l2);
    AbsProductSq(a.dtheta, a.r, l2 - l1, u, Length(a), v);
    Scaled(dc, ds, u, a.r, x, y, v);
  }

  lemma AngleStep(a: Arc, l1: real, l2: real)
    ensures AngleAt(a, l2) - AngleAt(a, l1) == a.dtheta * (l2 - l1) == Product(a.dtheta, l2 - l1)
  {}

  lemma UnitChord(m: Libm, s: real, t: real)
    requires m.Valid()
    ensures Sq(m.cos(t) - m.cos(s)) + Sq(m.sin(t) - m.sin(s)) <= Sq(t - s)
  {
    UnitChordIs(m, s, t);
    assert m.Flat(t - s);
  }

  lemma UnitChordIs(m: Libm, s: real, t: real)
    requires m.Valid()
    ensures Sq(m.cos(t) - m.cos(s)) + Sq(m.sin(t) - m.sin(s)) == UnitChordSq(m, t - s)
  {
    assert m.Unit(s) && m.Unit(t) && m.Difference(t, s);
    SquareOfSum(m.cos(t), m.cos(s));
    SquareOfSum(m.sin(t), m.sin(s));
  }

  /** The squared chord over a part `h` of an arc. */
  function ChordSq(m: Libm, a: Arc, h: real): real {
    Product(Sq(a.r), UnitChordSq(m, Product(a.dtheta, h)))
  }

  /** The squared chord over an angle of the unit circle. */
  function UnitChordSq(m: Libm, angle: real): real {
    2.0 - 2.0 * m.cos(angle)
  }

  lemma ChordIs(m: Libm, a: Arc, l1: real, l2: real)
    requires m.Valid()
    ensures Sq(ArcX(m, a, l2) - ArcX(m, a, l1)) + Sq(ArcY(m, a, l2) - ArcY(m, a, l1)) == ChordSq(m, a, l2 - l1)
  {
    hide Sq, Libm.Valid, AngleAt, Product, UnitChordSq;
    var s, t := AngleAt(a, l1), AngleAt(a, l2);
    var dc, ds := m.cos(t) - m.cos(s), m.sin(t) - m.sin(s);
    UnitChordIs(m, s, t);
    AngleStep(a, l1, l2);
    SqOfProduct(dc, a.r, ArcX(m, a, l2) - ArcX(m, a, l1));
    SqOfProduct(ds, a.r, ArcY(m, a, l2) - ArcY(m, a, l1));
    TimesSum(Sq(dc), Sq(ds), UnitChordSq(m, t - s), Sq(a.r));
  }

  lemma TimesSum(x: real, y: real, u: real, q: real)
    requires x + y == u
    ensures x * q + y * q == Product(q, u)
  {}

  lemma Scaled(x: real, y: real, u: real, r: real, rx: real, ry: real, v: real)
    requires Sq(x) + Sq(y) <= Sq(u) && rx == x * r && ry == y * r && Sq(v) == Sq(u) * Sq(r)
    ensures Sq(rx) + Sq(ry) <= Sq(v)
  {
    SqOfProduct(x, r, rx);
    SqOfProduct(y, r, ry);
    SqPositive(r);
    MulMono(Sq(x) + Sq(y), Sq(u), Sq(r));
    Distribute(Sq(x), Sq(y), Sq(r));
  }

  lemma SqOfProduct(x: real, y: real, z: real)
    requires z == x * y
    ensures Sq(z) == Sq(x) * Sq(y)
  {}

  lemma AbsProductSq(w: real, r: real, h: real, u: real, l: real, v: real)
    requires u == w * h && (l == w * r || l == -(w * r)) && v == l * h
    ensures Sq(v) == Sq(u) * Sq(r)
  {
    assert v == u * r || v == -(u * r);
    SqOfProduct(u, r, u * r);
  }
}
