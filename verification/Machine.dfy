/** The machine (src/machine.cpp): limits that stay fixed after loading, and the axes state that every
    commanded setpoint updates. The transport to the simulator is a reply given by the caller. */
module Machines {
  import opened Numerics
  import opened Points

  datatype Config = Config(A: real, tq: real, maxError: real, zero: Point, libm: Libm) {
    ghost predicate Valid() {
      A > 0.0 && tq > 0.0 && zero.Complete() && libm.Valid()
    }
  }

  /** The time of tick `i`. */
  function Clock(tq: real, i: int): real {
    i as real * tq
  }

  lemma ClockOrder(tq: real, i: int, j: int)
    requires tq > 0.0 && i <= j
    ensures Clock(tq, i) <= Clock(tq, j) && Clock(tq, j) - Clock(tq, i) == Clock(tq, j - i)
  {
    MulMono(i as real, j as real, tq);
    Distribute(j as real, i as real, tq);
  }

  lemma NextClock(tq: real, k: int)
    ensures Clock(tq, k) + tq == Clock(tq, k + 1)
  {}

  /** The least multiple of `tq` strictly above `t` (for `t` not negative). */
  function Quantized(tq: real, t: real): (q: real)
    requires tq > 0.0 && t / tq + 1.0 > -1.0
  {
    Clock(tq, Truncate(t / tq + 1.0))
  }

  lemma QuantizedNext(tq: real, t: real)
    requires tq > 0.0 && t >= 0.0
    ensures t / tq + 1.0 > -1.0
    ensures t < Quantized(tq, t) <= t + tq
    ensures Quantized(tq, t) == Clock(tq, Truncate(t / tq + 1.0)) && Truncate(t / tq + 1.0) >= 1
  {
    DivNonNegative(t, tq);
    NextMultiple(tq, t, t / tq, Truncate(t / tq + 1.0) as real);
  }

  lemma NextMultiple(tq: real, t: real, x: real, k: real)
    requires tq > 0.0 && x * tq == t && k <= x + 1.0 < k + 1.0
    ensures t < k * tq <= t + tq
  {
    assert t < k * tq by {
      var e := k - x;
      assert e * tq > 0.0;
      assert k * tq == e * tq + x * tq;
    }
    assert k * tq <= t + tq by {
      var d := x + 1.0 - k;
      assert d * tq >= 0.0;
      assert k * tq == x * tq + tq - d * tq;
    }
  }

  /** No multiple of `tq` lies between `t` and its quantized value. */
  lemma QuantizedLeast(tq: real, t: real, n: int)
    requires tq > 0.0 && t >= 0.0 && Clock(tq, n) > t
    ensures t / tq + 1.0 > -1.0 && Clock(tq, n) >= Quantized(tq, t)
  {
    QuantizedNext(tq, t);
    var x := t / tq;
    var k := Truncate(t / tq + 1.0);
    assert x * tq == t;
    if n < k {
      MulMono(n as real, x, tq);
    } else {
      ClockOrder(tq, k, n);
    }
  }

  /** What a commanded setpoint leaves behind: `error` is None while it is NaN. */
  datatype Axes = Axes(setpoint: Point, position: Point, error: Option<real>)

  /** The distance from setpoint to position, or NaN when a coordinate of either is undefined. */
  function ErrorOf(m: Libm, setpoint: Point, position: Point): Option<real> {
    if setpoint.Complete() && position.Complete()
    then Some(setpoint.Delta(position).Length(m))
    else None
  }

  /** `sync`: a reply moves the reported position; a lost or malformed one leaves it. */
  function Synced(m: Libm, ax: Axes, reply: Option<Point>): Axes {
    var position := if reply.Some? then reply.value else ax.position;
    Axes(ax.setpoint, position, ErrorOf(m, ax.setpoint, position))
  }

  /** `set_setpoint`: None when reading an undefined coordinate throws. */
  function Commanded(m: Libm, agent: bool, ax: Axes, p: Point, reply: Option<Point>): Option<Axes> {
    var stored := ax.(setpoint := p);
    if !agent then Some(stored)
    else if !p.Complete() then None
    else Some(Synced(m, stored, reply))
  }

  class Machine {
    const cfg: Config
    const agent: bool
    var setpoint: Point
    var position: Point
    var error: Option<real>

    constructor (cfg: Config, agent: bool)
      ensures this.cfg == cfg && this.agent == agent
      ensures View() == Axes(UNDEFINED, UNDEFINED, None)
    {
      this.cfg, this.agent := cfg, agent;
      setpoint, position, error := UNDEFINED, UNDEFINED, None;
    }

    function View(): Axes
      reads this
    {
      Axes(setpoint, position, error)
    }

    method Quantize(t: real) returns (q: real, dq: real)
      requires cfg.tq > 0.0 && t / cfg.tq + 1.0 > -1.0
      ensures q == Quantized(cfg.tq, t) && dq == q - t
      ensures t >= 0.0 ==> 0.0 < dq <= cfg.tq
    {
      q := Truncate(t / cfg.tq + 1.0) as real * cfg.tq;
      dq := q - t;
      if t >= 0.0 {
        QuantizedNext(cfg.tq, t);
      }
    }

    method Sync(reply: Option<Point>)
      modifies this
      ensures View() == if agent then Synced(cfg.libm, old(View()), reply) else old(View())
    {
      if !agent {
        return;
      }
      if reply.Some? {
        position := reply.value;
      }
      if setpoint.Complete() && position.Complete() {
        error := Some(setpoint.Delta(position).Length(cfg.libm));
      } else {
        error := None;
      }
    }

    method SetSetpoint(p: Point, reply: Option<Point>) returns (ok: bool)
      modifies this
      ensures ok <==> Commanded(cfg.libm, agent, old(View()), p, reply).Some?
      ensures ok ==> View() == Commanded(cfg.libm, agent, old(View()), p, reply).value
      ensures !ok ==> View() == old(View()).(setpoint := p)
    {
      setpoint := p;
      ok := true;
      if agent {
        if p.Complete() {
          Sync(reply);
        } else {
          ok := false;
        }
      }
    }
  }
}
