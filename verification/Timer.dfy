/** The statistics of the loop timer (src/timer.hpp), with statistics enabled. */
module Timers {
  import opened Numerics

  // ----- the two-pass definitions -----

  function Sum(xs: seq<real>): real {
    if xs == [] then 0.0 else Sum(xs[..|xs| - 1]) + xs[|xs| - 1]
  }

  /** The sum of squared deviations from `c`. */
  function Deviation(xs: seq<real>, c: real): real {
    if xs == [] then 0.0 else Deviation(xs[..|xs| - 1], c) + Sq(xs[|xs| - 1] - c)
  }

  function Squares(xs: seq<real>): real {
    if xs == [] then 0.0 else Squares(xs[..|xs| - 1]) + Sq(xs[|xs| - 1])
  }

  lemma {:induction false} DeviationExpands(xs: seq<real>, c: real)
    ensures Deviation(xs, c) == Squares(xs) - 2.0 * c * Sum(xs) + |xs| as real * (c * c)
    decreases |xs|
  {
    hide Sq;
    if xs != [] {
      var ys, x := xs[..|xs| - 1], xs[|xs| - 1];
      DeviationExpands(ys, c);
      ExpansionStep(Deviation(ys, c), Squares(ys), Sum(ys), |ys| as real, c, x);
    }
  }

  lemma ExpansionStep(d: real, q: real, s: real, n: real, c: real, x: real)
    requires d == q - 2.0 * c * s + n * (c * c)
    ensures d + Sq(x - c) == q + Sq(x) - 2.0 * c * (s + x) + (n + 1.0) * (c * c)
  {
    assert Sq(x - c) == Sq(x) - 2.0 * c * x + c * c;
  }

  /** About their mean, the deviations of `n` numbers are their squares less n times the squared mean. */
  lemma DeviationFromMean(xs: seq<real>, c: real)
    requires Product(c, |xs| as real) == Sum(xs)
    ensures Deviation(xs, c) == Squares(xs) - Product(|xs| as real, Sq(c))
  {
    hide Sum, Squares, Deviation;
    DeviationExpands(xs, c);
    MeanTerm(Sum(xs), |xs| as real, c);
  }

  lemma MeanTerm(s: real, n: real, c: real)
    requires Product(c, n) == s
    ensures 2.0 * c * s - n * (c * c) == Product(n, Sq(c))
  {
    assert c * s == n * (c * c);
  }

  lemma Snoc(xs: seq<real>, x: real, c: real)
    ensures Sum(xs + [x]) == Sum(xs) + x
    ensures Deviation(xs + [x], c) == Deviation(xs, c) + Sq(x - c)
    ensures Squares(xs + [x]) == Squares(xs) + Sq(x)
  {
    assert (xs + [x])[..|xs|] == xs;
  }

  lemma {:induction false} SumWithin(xs: seq<real>, lo: real, hi: real)
    requires forall i :: 0 <= i < |xs| ==> lo <= xs[i] <= hi
    ensures lo * |xs| as real <= Sum(xs) <= hi * |xs| as real
    decreases |xs|
  {
    if xs != [] {
      SumWithin(xs[..|xs| - 1], lo, hi);
    }
  }

  // ----- the streaming step -----

  /** The running number, mean and standard deviation. */
  datatype Stats = Stats(n: nat, mean: real, sd: real)

  /** The statistics of the samples `xs` by the two-pass definitions: n - 1 times the squared standard
      deviation is the sum of squared deviations from the mean. */
  ghost predicate Describes(st: Stats, xs: seq<real>) {
    && st.n == |xs| && st.sd >= 0.0
    && (st.n == 0 ==> st.mean == 0.0)
    && (st.n <= 1 ==> st.sd == 0.0)
    && (st.n >= 1 ==>
        && Product(st.mean, st.n as real) == Sum(xs)
        && Product(st.n as real - 1.0, Sq(st.sd)) == Deviation(xs, st.mean))
  }

  /** The recurrence behind `update_stats`: `n1` old samples of mean `u`, a new one `x`, and the new mean. */
  lemma Recurrence(n1: real, u: real, x: real, v: real, w: real)
    requires n1 >= 1.0 && Product(v, n1 + 1.0) == Product(u, n1) + x && Product(w, n1) == n1 + 1.0
    ensures Product(w, Sq(v - x)) == Product(u - x, v - x)
    ensures Sq(x) - Product(n1 + 1.0, Sq(v)) == Product(u - x, v - x) - Product(n1, Sq(u))
  {
    var n, g, y := n1 + 1.0, v - x, u - x;
    assert n * g == n1 * y;
    WeightedSquare(n, n1, w, g, y);
    MeanSquares(n1, u, x, v);
  }

  lemma WeightedSquare(n: real, n1: real, w: real, g: real, y: real)
    requires n > 0.0 && n * g == n1 * y && w * n1 == n
    ensures w * Sq(g) == y * g
  {
    var p, q := w * Sq(g), y * g;
    assert p * n == w * g * (n * g);
    assert w * g * (n1 * y) == w * n1 * (y * g);
    assert p * n == q * n;
    CancelLe(p, q, n);
    CancelLe(q, p, n);
  }

  lemma MeanSquares(n1: real, u: real, x: real, v: real)
    requires x == v * (n1 + 1.0) - n1 * u
    ensures Sq(x) - (n1 + 1.0) * (v * v) == (u - x) * (v - x) - n1 * (u * u)
  {
    var a, b, c := v * v, u * v, u * u;
    assert x * u == b * (n1 + 1.0) - n1 * c;
    assert x * v == a * (n1 + 1.0) - n1 * b;
    assert (u - x) * (v - x) == b - x * u - x * v + Sq(x);
  }

  /** The step keeps the description: the new mean and deviation are those of the longer list. */
  lemma StepDescribes(xs: seq<real>, x: real, st: Stats, v: real, sd: real, w: real)
    requires Describes(st, xs) && st.n >= 1 && sd >= 0.0
    requires Product(v, st.n as real + 1.0) == Product(st.mean, st.n as real) + x
    requires Product(w, st.n as real) == st.n as real + 1.0
    requires Product(st.n as real, Sq(sd)) == Product(st.n as real - 1.0, Sq(st.sd)) + Product(w, Sq(v - x))
    ensures Describes(Stats(st.n + 1, v, sd), xs + [x])
  {
    hide Sq, Product, Sum, Squares, Deviation;
    var n1, u, ys := st.n as real, st.mean, xs + [x];
    Snoc(xs, x, v);
    DeviationFromMean(xs, u);
    assert |ys| as real == n1 + 1.0;
    DeviationFromMean(ys, v);
    Snoc(xs, x, u);
    Recurrence(n1, u, x, v, w);
  }

  /** The assignments of `update_stats`, from the second sample on. */
  lemma UpdateDescribes(m: Libm, xs: seq<real>, x: real, st: Stats, nr: real, n1r: real, w: real, v: real, q: real)
    requires m.Valid() && Describes(st, xs) && st.n >= 1
    requires nr == 1.0 / (st.n as real + 1.0) && n1r == 1.0 / st.n as real && w == (st.n as real + 1.0) / st.n as real
    requires v == nr * (st.n as real * st.mean + x)
    requires q == n1r * ((st.n as real - 1.0) * Sq(st.sd) + w * Sq(v - x))
    ensures Describes(Stats(st.n + 1, v, m.sqrt(q)), xs + [x])
  {
    hide Sq, Sum, Deviation;
    var n1 := st.n as real;
    SqPositive(st.sd);
    SqPositive(v - x);
    Quotients(n1, n1 - 1.0, Sq(st.sd), n1 * st.mean + x, nr, n1r, v, w, Sq(v - x), q);
    SqOfRoot(m, q);
    StepDescribes(xs, x, st, v, m.sqrt(q), w);
  }

  lemma SqOfRoot(m: Libm, q: real)
    requires m.Valid() && q >= 0.0
    ensures m.sqrt(q) >= 0.0 && Sq(m.sqrt(q)) == q
  {
    RootFacts(m, q);
  }

  // ----- the timer -----

  datatype WaitResult = NotStarted | OnTime | SignalLate | MaxWaitExceeded

  /** `min` (None for infinity) and `max` (which starts at zero) are the extremes of `xs`. */
  ghost predicate Extremes(min: Option<real>, max: real, xs: seq<real>) {
    && (forall x :: x in xs ==> min.Some? && min.value <= x <= max)
    && (min.Some? ==> min.value in xs) && (max == 0.0 || max in xs) && max >= 0.0
  }

  ghost predicate Among(xs: seq<real>, ys: seq<real>) {
    forall x :: x in xs ==> x in ys
  }

  lemma SamplesGrow(min: Option<real>, max: real, xs: seq<real>, ys: seq<real>, x: real)
    requires Extremes(min, max, ys) && Among(xs, ys)
    ensures Extremes(if min.Some? && min.value <= x then min else Some(x), if x > max then x else max, ys + [x])
    ensures Among(xs, ys + [x]) && Among(xs + [x], ys + [x])
  {
    var zs := ys + [x];
    assert zs[|ys|] == x;
    forall y | y in ys
      ensures y in zs
    {
      var i :| 0 <= i < |ys| && ys[i] == y;
      assert zs[i] == y;
    }
  }

  lemma SamplesWithin(min: Option<real>, max: real, xs: seq<real>, ys: seq<real>)
    requires Extremes(min, max, ys) && Among(xs, ys) && xs != []
    ensures min.Some? && forall x :: x in xs ==> min.value <= x <= max
  {
    var x := xs[0];
    assert x in xs;
    assert x in ys;
  }

  class Timer {
    const libm: Libm
    const maxWait: real
    var n: nat
    var min: Option<real>
    var max: real
    var mean: real
    var sd: real
    var started: bool
    var first: bool
    var last: real
    ghost var counted: seq<real>
    ghost var seen: seq<real>

    /** The running statistics describe the samples counted since the last stop; `min` (None for infinity)
        and `max` bound all intervals seen since then, counted or not. */
    ghost predicate Valid()
      reads this
    {
      && libm.Valid()
      && Describes(Stats(n, mean, sd), counted)
      && Extremes(min, max, seen) && Among(counted, seen)
    }

    constructor (libm: Libm, maxWait: real)
      requires libm.Valid()
      ensures Valid() && counted == [] && seen == [] && !started && first
    {
      this.libm, this.maxWait := libm, maxWait;
      n, min, max, mean, sd := 0, None, 0.0, 0.0, 0.0;
      started, first, last := false, true, 0.0;
      counted, seen := [], [];
    }

    method Start(now: real)
      requires Valid()
      modifies this`last, this`started
      ensures Valid() && started && last == now
    {
      last, started := now, true;
    }

    method StopTimer()
      requires Valid()
      modifies this
      ensures Valid() && counted == [] && seen == [] && !started && first
    {
      n, min, max, mean, sd := 0, None, 0.0, 0.0, 0.0;
      started, first := false, true;
      counted, seen := [], [];
    }

    /** `update_stats`. */
    method UpdateStats(x: real)
      requires libm.Valid() && Describes(Stats(n, mean, sd), counted)
      modifies this`n, this`mean, this`sd, this`counted
      ensures Describes(Stats(n, mean, sd), counted) && counted == old(counted) + [x]
    {
      hide Sq, Sum, Deviation, Libm.Valid;
      ghost var st := Stats(n, mean, sd);
      n := n + 1;
      if n <= 1 {
        mean, sd := x, 0.0;
        FirstDescribes(counted, x);
      } else {
        var n1, n2 := n as real - 1.0, n as real - 2.0;
        var nr, n1r, nn1 := 1.0 / n as real, 1.0 / n1, n as real / n1;
        var v := nr * (n1 * mean + x);
        var q := n1r * (n2 * Sq(sd) + nn1 * Sq(v - x));
        UpdateDescribes(libm, counted, x, st, nr, n1r, nn1, v, q);
        mean, sd := v, libm.sqrt(q);
      }
      counted := counted + [x];
    }

    /** The statistics part of `wait`: `late` says that the sleep was not interrupted by the interval
        signal, and `now` is the time at its end. */
    method Wait(late: bool, now: real) returns (r: WaitResult)
      requires Valid()
      modifies this
      ensures Valid()
      ensures !old(started) ==>
        && r == NotStarted && counted == old(counted) && seen == old(seen)
        && first == old(first) && last == old(last)
      ensures old(started) ==> var dt := now - old(last);
        && last == now && !first
        && seen == (if old(first) then old(seen) else old(seen) + [dt])
        && counted == (if old(first) || late then old(counted) else old(counted) + [dt])
        && r == (if dt > maxWait then MaxWaitExceeded else if late then SignalLate else OnTime)
      ensures started == old(started)
    {
      if !started {
        return NotStarted;
      }
      hide Describes, Extremes, Among, Libm.Valid;
      r := if late then SignalLate else OnTime;
      var dt := now - last;
      if !first {
        Record(late, dt);
      }
      first := false;
      if dt > maxWait {
        r := MaxWaitExceeded;
      }
      last := now;
    }

    method Record(late: bool, dt: real)
      requires Valid()
      modifies this`min, this`max, this`n, this`mean, this`sd, this`counted, this`seen
      ensures Valid() && seen == old(seen) + [dt]
      ensures counted == if late then old(counted) else old(counted) + [dt]
    {
      hide Describes, Extremes, Among, Libm.Valid;
      SamplesGrow(min, max, counted, seen, dt);
      min := if min.Some? && min.value <= dt then min else Some(dt);
      max := if dt > max then dt else max;
      seen := seen + [dt];
      if !late {
        UpdateStats(dt);
      }
    }

    /** Once a sample has been counted, the mean lies between `min` and `max`. */
    lemma MeanBetween()
      requires Valid() && n >= 1
      ensures min.Some? && min.value <= mean <= max
    {
      hide Sum, Deviation, Libm.Valid, Extremes, Among;
      SamplesWithin(min, max, counted, seen);
      MeanWithin(Stats(n, mean, sd), counted, min.value, max);
    }
  }

  lemma MeanWithin(st: Stats, xs: seq<real>, lo: real, hi: real)
    requires Describes(st, xs) && xs != [] && forall x :: x in xs ==> lo <= x <= hi
    ensures lo <= st.mean <= hi
  {
    hide Sum, Deviation;
    forall i | 0 <= i < |xs|
      ensures lo <= xs[i] <= hi
    {
      assert xs[i] in xs;
    }
    SumWithin(xs, lo, hi);
    CancelLe(lo, st.mean, |xs| as real);
    CancelLe(st.mean, hi, |xs| as real);
  }

  /** The description leaves nothing open. */
  lemma DescribesUnique(a: Stats, b: Stats, xs: seq<real>)
    requires Describes(a, xs) && Describes(b, xs)
    ensures a == b
  {
    hide Sum, Deviation, Sq, Product;
    var k := |xs| as real;
    if |xs| >= 1 {
      ProductSwap(a.mean, k);
      ProductSwap(b.mean, k);
      CancelProduct(k, a.mean, b.mean);
    }
    if |xs| >= 2 {
      CancelProduct(k - 1.0, Sq(a.sd), Sq(b.sd));
      SqRoot(a.sd, b.sd);
    }
  }

  lemma CancelProduct(c: real, x: real, y: real)
    requires c > 0.0 && Product(c, x) == Product(c, y)
    ensures x == y
  {
    CancelLe(x, y, c);
    CancelLe(y, x, c);
  }

  lemma ProductSwap(x: real, y: real)
    ensures Product(x, y) == Product(y, x)
  {}

  lemma SqRoot(x: real, y: real)
    requires x >= 0.0 && y >= 0.0 && Sq(x) == Sq(y)
    ensures x == y
  {
    SqInjective(x, y);
  }

  lemma FirstDescribes(xs: seq<real>, x: real)
    requires xs == []
    ensures Describes(Stats(1, x, 0.0), xs + [x])
  {
    Snoc(xs, x, x);
  }

  lemma Quotients(n1: real, n2: real, s: real, t: real, nr: real, n1r: real, v: real, w: real, g: real, q: real)
    requires n1 >= 1.0 && n2 == n1 - 1.0 && s >= 0.0 && g >= 0.0
    requires nr == 1.0 / (n1 + 1.0) && n1r == 1.0 / n1 && v == nr * t && w == (n1 + 1.0) / n1
    requires q == n1r * (n2 * s + w * g)
    ensures v * (n1 + 1.0) == t && w * n1 == n1 + 1.0 && q >= 0.0 && n1 * q == n2 * s + w * g
  {
    var n := n1 + 1.0;
    assert nr * n == 1.0 && n1r * n1 == 1.0;
    assert v * n == nr * n * t;
    DivPositive(n, n1);
    DivPositive(1.0, n1);
    MulNonNegative(n2, s);
    MulNonNegative(w, g);
    var p := n2 * s + w * g;
    MulNonNegative(n1r, p);
    assert n1 * q == n1r * n1 * p;
  }
}
