/** Numbers of the kernel: optional values, `size_t`, and the C mathematical library as a record of
    functions about which only textbook facts are stated. */
module Numerics {

  datatype Option<+T> = None | Some(value: T)

  function Abs(x: real): real {
    if x < 0.0 then -x else x
  }

  function Sq(x: real): real {
    x * x
  }

  function Product(x: real, y: real): real {
    x * y
  }

  function SumSq(x: real, y: real): real {
    x * x + y * y
  }

  /** The number of values of the 64-bit `size_t`. */
  const SIZE_MOD := 0x1_0000_0000_0000_0000

  /** Conversion of an `int` to `size_t`: negative numbers wrap to the top of the range. */
  function ToSize(i: int): int {
    i % SIZE_MOD
  }

  /** `static_cast<size_t>` of a `double`: truncation toward zero, defined above -1. */
  function Truncate(x: real): int
    requires x > -1.0
  {
    if x < 0.0 then 0 else x.Floor
  }

  /** The functions of `<cmath>` that the kernel calls. Each fact is a predicate of its own, so that a
      proof uses an instance of it only where it names that instance. */
  datatype Libm = Libm(
    sqrt: real -> real, cos: real -> real, sin: real -> real, atan2: (real, real) -> real, pi: real) {

    ghost predicate Root(x: real) {
      x >= 0.0 ==> sqrt(x) >= 0.0 && sqrt(x) * sqrt(x) == x
    }

    ghost predicate Unit(a: real) {
      cos(a) * cos(a) + sin(a) * sin(a) == 1.0
    }

    ghost predicate Turn(a: real) {
      cos(a + 2.0 * pi) == cos(a) && sin(a + 2.0 * pi) == sin(a)
    }

    ghost predicate SineSign(a: real) {
      && (0.0 < a < pi ==> sin(a) > 0.0)
      && (-pi < a < 0.0 ==> sin(a) < 0.0)
    }

    ghost predicate Difference(a: real, b: real) {
      && sin(a - b) == sin(a) * cos(b) - cos(a) * sin(b)
      && cos(a - b) == cos(a) * cos(b) + sin(a) * sin(b)
    }

    ghost predicate Flat(a: real) {
      cos(a) >= 1.0 - a * a / 2.0
    }

    ghost predicate Round(a: real) {
      cos(a) <= 1.0 - a * a / 2.0 + a * a * a * a / 24.0
    }

    ghost predicate Polar(y: real, x: real) {
      && -pi < atan2(y, x) <= pi
      && x == Hypot(x, y) * cos(atan2(y, x))
      && y == Hypot(x, y) * sin(atan2(y, x))
    }

    ghost predicate Valid() {
      && pi > 0.0
      && (forall x :: Root(x))
      && (forall a :: Unit(a))
      && (forall a :: Turn(a))
      && (forall a :: SineSign(a))
      && (forall a, b :: Difference(a, b))
      && (forall a :: Flat(a))
      && (forall a :: Round(a))
      && (forall y, x :: Polar(y, x))
    }

    /** The two-argument `hypot`. */
    function Hypot(x: real, y: real): real {
      sqrt(SumSq(x, y))
    }

    /** The three-argument `hypot`. */
    function Hypot3(x: real, y: real, z: real): real {
      sqrt(x * x + y * y + z * z)
    }

    /** `pow(x, 0.25)`. */
    function FourthRoot(x: real): real {
      sqrt(sqrt(x))
    }
  }

  lemma RootFacts(m: Libm, x: real)
    requires m.Valid() && x >= 0.0
    ensures m.sqrt(x) >= 0.0 && m.sqrt(x) * m.sqrt(x) == x
    ensures x > 0.0 ==> m.sqrt(x) > 0.0
  {
    assert m.Root(x);
  }

  lemma SqNonNegative(x: real)
    ensures x * x >= 0.0
  {}

  lemma SqPositive(x: real)
    ensures Sq(x) >= 0.0 && (x != 0.0 ==> Sq(x) > 0.0)
  {
    if x > 0.0 {
      ProductPositive(x, x);
    } else if x < 0.0 {
      ProductPositive(-x, -x);
    }
    assert Sq(x) == Product(x, x) == Product(-x, -x);
  }

  lemma ProductPositive(x: real, y: real)
    requires x > 0.0 && y > 0.0
    ensures Product(x, y) > 0.0
  {
    MulPositive(x, y);
  }

  /** Two numbers that are not negative are ordered as their squares are. */
  lemma SqOrder(x: real, y: real)
    requires y >= 0.0 && x * x <= y * y
    ensures x <= y
  {
    if x > y {
      MulPositive(x - y, x + y);
    }
  }

  lemma SqInjective(x: real, y: real)
    requires x >= 0.0 && y >= 0.0 && x * x == y * y
    ensures x == y
  {
    SqOrder(x, y);
    SqOrder(y, x);
  }

  lemma MulMono(a: real, b: real, c: real)
    requires a <= b && c >= 0.0
    ensures a * c <= b * c
  {}

  lemma Distribute(a: real, b: real, c: real)
    ensures (a + b) * c == a * c + b * c && (a - b) * c == a * c - b * c
  {}

  lemma MulNonNegative(a: real, b: real)
    requires a >= 0.0 && b >= 0.0
    ensures a * b >= 0.0
  {}

  lemma MulPositive(a: real, b: real)
    requires a > 0.0 && b > 0.0
    ensures a * b > 0.0
  {}

  lemma DivNonNegative(a: real, b: real)
    requires a >= 0.0 && b > 0.0
    ensures a / b >= 0.0 && a / b * b == a
  {}

  lemma DivPositive(a: real, b: real)
    requires a > 0.0 && b > 0.0
    ensures a / b > 0.0 && a / b * b == a
  {}

  lemma DivUnique(x: real, y: real, q: real)
    requires y != 0.0 && q * y == x
    ensures x / y == q
  {}

  lemma MulStrict(x: real, y: real, c: real)
    requires c > 0.0 && x < y
    ensures x * c < y * c
  {
    var e := y - x;
    assert e * c > 0.0;
    assert y * c == e * c + x * c;
  }

  /** A common positive factor can be cancelled. */
  lemma CancelLe(x: real, y: real, c: real)
    requires c > 0.0 && x * c <= y * c
    ensures x <= y
  {
    if x > y {
      MulStrict(y, x, c);
    }
  }

  lemma FloorOfMultiple(k: int, c: real, x: real)
    requires c > 0.0 && x == k as real * c
    ensures (x / c).Floor == k
  {
    DivUnique(x, c, k as real);
  }
}
