/** When a connected machine has arrived (src/machine.cpp, src/fsm_impl.hpp): in terms of the distance between
    the point that was commanded and the position that is reported. */
module Arrivals {
  import opened Numerics
  import opened Points
  import opened Machines
  import opened BlockFacts
  import opened ProgramSpec
  import opened FsmSpec
  import opened FsmFacts
  import opened Lines

  /** The position that a command leaves: that of the reply, or without one the position reported last. */
  function Reported(s: Ctrl, t: Tick): Point {
    if t.reply.Some? then t.reply.value else s.axes.position
  }

  /** After a setpoint is commanded to an agent, the position is the one reported, and the error is its distance
      from the setpoint, available exactly when all coordinates are; without an agent only the setpoint
      changes. */
  lemma CommandLeaves(m: Libm, agent: bool, ax: Axes, p: Point, reply: Option<Point>)
    requires m.Valid()
    ensures Commanded(m, agent, ax, p, reply).None? <==> agent && !p.Complete()
    ensures Commanded(m, agent, ax, p, reply).Some? ==>
      var now, position := Commanded(m, agent, ax, p, reply).value, if reply.Some? then reply.value else ax.position;
      && now.setpoint == p
      && (!agent ==> now.position == ax.position && now.error == ax.error)
      && (agent ==>
          && now.position == position
          && (now.error.Some? <==> position.Complete())
          && (now.error.Some? ==> now.error.value >= 0.0 && Sq(now.error.value) == DistSq(p, position)))
  {
    hide Point.Length;
    var position := if reply.Some? then reply.value else ax.position;
    if agent && p.Complete() && position.Complete() {
      SpaceLength(m, p.Delta(position));
      LengthPositive(m, p.Delta(position));
    }
  }

  lemma LessSq(x: real, y: real)
    requires x >= 0.0 && y > 0.0
    ensures x < y <==> Sq(x) < Sq(y)
  {
    var d, e := y - x, y + x;
    assert Sq(y) - Sq(x) == d * e;
    if x < y {
      MulPositive(d, e);
    } else {
      MulNonNegative(-d, e);
    }
  }

  /** Whether the reported position is closer to `p` than the machine's tolerance. */
  ghost predicate Reached(cfg: Config, p: Point, position: Point) {
    p.Complete() && position.Complete() && cfg.maxError > 0.0 && DistSq(p, position) < Sq(cfg.maxError)
  }

  lemma ArrivedReached(cfg: Config, ax: Axes, p: Point, position: Point)
    requires p.Complete() && (ax.error.Some? <==> position.Complete())
    requires ax.error.Some? ==> ax.error.value >= 0.0 && Sq(ax.error.value) == DistSq(p, position)
    ensures Arrived(cfg, ax) <==> Reached(cfg, p, position)
  {
    hide Sq, DistSq;
    if ax.error.Some? && cfg.maxError > 0.0 {
      LessSq(ax.error.value, cfg.maxError);
    }
  }

  lemma SendLeaves(cfg: Config, s: Ctrl, b: Option<nat>, p: Point, t: Tick)
    requires cfg.Valid() && p.Complete()
    ensures Send(cfg, true, s, b, p, t).Some?
    ensures var s1 := Send(cfg, true, s, b, p, t).value; s1.state == s.state && s1.stop == s.stop
    ensures Arrived(cfg, Send(cfg, true, s, b, p, t).value.axes) <==> Reached(cfg, p, Reported(s, t))
  {
    hide Commanded, Arrived, Sq, DistSq, Libm.Valid;
    CompleteSends(cfg, true, s, b, p, t);
    CommandLeaves(cfg.libm, true, s.axes, p, t.reply);
    ArrivedReached(cfg, Send(cfg, true, s, b, p, t).value.axes, p, Reported(s, t));
  }

  /** A connected rapid motion that no signal interrupts ends at the tick at which the position is closer to its
      target than the tolerance, and goes on until then. */
  lemma RapidArrives(cfg: Config, s: Ctrl, t: Tick, i: nat)
    requires cfg.Valid() && i < |s.blocks| && s.cursor == Some(i) && s.state.RapidMotion?
    requires t.connected && !Pending(s, t) && s.blocks[i].target.Complete()
    ensures Step(cfg, true, s, t).Next?
    ensures Step(cfg, true, s, t).ctrl.state ==
      if Reached(cfg, s.blocks[i].target, Reported(s, t)) then LoadBlock else RapidMotion
  {
    hide Step, Send, Arrived, Reached, Libm.Valid;
    var s0 := Signalled(s, t);
    StepIs(cfg, true, s, t);
    SendLeaves(cfg, s0, Some(i), s.blocks[i].target, t);
    assert Reported(s0, t) == Reported(s, t);
    assert Do(cfg, true, s0, t) == DoRapidMotion(cfg, true, s0, t);
  }

  /** Homing with an agent ends at the tick at which the position is closer to the machine zero than the
      tolerance, and goes on until then, unless a signal stops it. */
  lemma HomingArrives(cfg: Config, s: Ctrl, t: Tick)
    requires cfg.Valid() && Within(s.cursor, |s.blocks|) && s.state.GoToZero? && !Pending(s, t)
    ensures Step(cfg, true, s, t).Next?
    ensures Step(cfg, true, s, t).ctrl.state == if Reached(cfg, cfg.zero, Reported(s, t)) then Idle else GoToZero
  {
    hide Step, Send, Arrived, Reached, Libm.Valid;
    var s0 := Signalled(s, t);
    StepIs(cfg, true, s, t);
    SendLeaves(cfg, s0, None, cfg.zero, t);
    assert Reported(s0, t) == Reported(s, t);
    assert Do(cfg, true, s0, t) == DoGoToZero(cfg, true, s0, t);
  }
}
