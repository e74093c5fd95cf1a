/** The tolerance in the end-of-block test of `do_interp_motion` (src/fsm_impl.hpp): how far the accumulated
    block clock may drift from whole ticks before a block lasts another number of them. */
module Tolerance {
  import opened Numerics
  import opened Points
  import opened Machines
  import opened Profiles
  import opened Motions
  import opened BlockSpec
  import opened BlockFacts
  import opened ProgramSpec
  import opened FsmSpec
  import opened FsmFacts

  /** The block clock at each tick, which starts at 0 and is closer than `drift` to the whole tick. */
  ghost predicate Drifts(tq: real, c: seq<real>, drift: real) {
    && |c| > 0 && c[0] == 0.0
    && forall i :: 0 <= i < |c| ==> Abs(c[i] - Clock(tq, i)) < drift
  }

  /** The outcome of the first `n` ticks when the block clock shows `c[j]` at tick `j`. */
  function Drifted(cfg: Config, agent: bool, s: Ctrl, ticks: seq<Tick>, c: seq<real>, n: nat): (o: Outcome)
    requires cfg.Valid() && Within(s.cursor, |s.blocks|) && n <= |ticks| && n <= |c|
    ensures o.Next? ==> Within(o.ctrl.cursor, |o.ctrl.blocks|)
  {
    if n == 0 then Next(s)
    else
      match Drifted(cfg, agent, s, ticks, c, n - 1)
      case Failed(f) => Failed(f)
      case Next(s1) =>
        var s2 := s1.(tBlk := c[n - 1]);
        StepWithin(cfg, agent, s2, ticks[n - 1]);
        Step(cfg, agent, s2, ticks[n - 1])
  }

  /** The machine stays in INTERP_MOTION before tick k + 1, and leaves it for LOAD_BLOCK at that tick, so
      that the block lasts k + 2 ticks. */
  ghost predicate Lasts(cfg: Config, agent: bool, s: Ctrl, ticks: seq<Tick>, c: seq<real>, k: nat)
    requires cfg.Valid() && Within(s.cursor, |s.blocks|) && |ticks| >= k + 2 && |c| == k + 2
  {
    && (forall n :: 0 <= n <= k + 1 ==>
          var o := Drifted(cfg, agent, s, ticks, c, n); o.Next? && o.ctrl.state.InterpMotion?)
    && Drifted(cfg, agent, s, ticks, c, k + 2).Next? && Drifted(cfg, agent, s, ticks, c, k + 2).ctrl.state.LoadBlock?
  }

  /** The block lasts k + 2 ticks on every clock that drifts by less than `drift`. */
  ghost predicate Tolerated(cfg: Config, agent: bool, s: Ctrl, ticks: seq<Tick>, k: nat, drift: real)
    requires cfg.Valid() && Within(s.cursor, |s.blocks|) && |ticks| >= k + 2
  {
    forall c: seq<real> :: |c| == k + 2 && Drifts(cfg.tq, c, drift) ==> Lasts(cfg, agent, s, ticks, c, k)
  }

  /** A machine that has just entered INTERP_MOTION for block `i`, and ticks at which no signal comes. */
  ghost predicate Interpolating(cfg: Config, s: Ctrl, ticks: seq<Tick>, i: nat) {
    && i < |s.blocks| && s.cursor == Some(i) && RunnableAt(cfg, s.blocks, i) && Interpolated(s.blocks[i].kind)
    && s.state.InterpMotion? && !s.stop
    && (forall j :: 0 <= j < |ticks| ==> !ticks[j].sigint)
  }

  /** The setpoints of block `i` at the first `n` times of a clock. */
  function SentAt(cfg: Config, bs: seq<BlockState>, i: nat, c: seq<real>, n: nat): seq<Setpoint>
    requires i < |bs| && CanMove(cfg, bs, i) && n <= |c|
  {
    seq(n, j requires 0 <= j < n => Setpoint(Some(i), SetpointOf(cfg, bs, i, c[j])))
  }

  /** While the clock has not passed the end of the block at an earlier tick, tick `n` leaves exactly if it
      has passed it then. */
  lemma {:induction false} DriftRun(cfg: Config, agent: bool, s: Ctrl, ticks: seq<Tick>, c: seq<real>, i: nat, n: nat)
    requires cfg.Valid() && Interpolating(cfg, s, ticks, i) && 0 < n <= |ticks| && n <= |c|
    requires CanMove(cfg, s.blocks, i)
    requires forall m :: 0 <= m < n - 1 ==> c[m] <= s.blocks[i].profile.dt + cfg.tq / 10.0
    ensures var o := Drifted(cfg, agent, s, ticks, c, n);
      && o.Next?
      && o.ctrl.state == (if c[n - 1] > s.blocks[i].profile.dt + cfg.tq / 10.0 then LoadBlock else InterpMotion)
      && o.ctrl.blocks == s.blocks && o.ctrl.cursor == s.cursor && !o.ctrl.stop
      && o.ctrl.sent == s.sent + SentAt(cfg, s.blocks, i, c, n)
  {
    hide Step, RunnableAt, CanInterpolate, SetpointOf, Libm.Valid;
    var s1 := s;
    if n > 1 {
      DriftRun(cfg, agent, s, ticks, c, i, n - 1);
      s1 := Drifted(cfg, agent, s, ticks, c, n - 1).ctrl;
      assert Drifted(cfg, agent, s, ticks, c, n - 1) == Next(s1);
      assert SentAt(cfg, s.blocks, i, c, n) ==
        SentAt(cfg, s.blocks, i, c, n - 1) + [Setpoint(Some(i), SetpointOf(cfg, s.blocks, i, c[n - 1]))];
    } else {
      assert Drifted(cfg, agent, s, ticks, c, 0) == Next(s);
      assert SentAt(cfg, s.blocks, i, c, 1) == [Setpoint(Some(i), SetpointOf(cfg, s.blocks, i, c[0]))];
    }
    InterpAt(cfg, agent, s1.(tBlk := c[n - 1]), ticks[n - 1], i);
  }

  lemma DriftedTest(tq: real, k: nat, c: seq<real>, i: nat)
    requires tq > 0.0 && |c| == k + 2 && Drifts(tq, c, tq / 10.0) && i < |c|
    ensures c[i] > Clock(tq, k) + tq / 10.0 <==> i == k + 1
    ensures i == k + 1 ==> c[i] > Clock(tq, k)
  {
    hide Clock;
    assert Abs(c[i] - Clock(tq, i)) < tq / 10.0;
    if i <= k {
      ClockOrder(tq, i, k);
    } else {
      NextClock(tq, k);
    }
  }

  lemma DriftLasts(cfg: Config, agent: bool, s: Ctrl, ticks: seq<Tick>, c: seq<real>, i: nat)
    requires cfg.Valid() && Interpolating(cfg, s, ticks, i)
    requires var k := Ticks(cfg.tq, s.blocks[i].profile); k >= 0 && |ticks| >= k + 2 && |c| == k + 2
    requires Drifts(cfg.tq, c, cfg.tq / 10.0)
    ensures Lasts(cfg, agent, s, ticks, c, Ticks(cfg.tq, s.blocks[i].profile))
  {
    hide Clock, Drifts, RunnableAt, CanInterpolate, Drifted, SentAt, Libm.Valid;
    RunnableMoves(cfg, s.blocks, i);
    var k := Ticks(cfg.tq, s.blocks[i].profile);
    forall m | 0 <= m < k + 2
      ensures c[m] > Clock(cfg.tq, k) + cfg.tq / 10.0 <==> m == k + 1
    {
      DriftedTest(cfg.tq, k, c, m);
    }
    forall n | 0 <= n <= k + 2
      ensures var o := Drifted(cfg, agent, s, ticks, c, n);
        o.Next? && o.ctrl.state == if n == k + 2 then LoadBlock else InterpMotion
    {
      if n == 0 {
        DriftedNone(cfg, agent, s, ticks, c);
      } else {
        DriftRun(cfg, agent, s, ticks, c, i, n);
      }
    }
  }

  lemma DriftedNone(cfg: Config, agent: bool, s: Ctrl, ticks: seq<Tick>, c: seq<real>)
    requires cfg.Valid() && Within(s.cursor, |s.blocks|)
    ensures Drifted(cfg, agent, s, ticks, c, 0) == Next(s)
  {}

  /** A clock that is exact but for tick `k`, where it is ahead by `e`. */
  function Ahead(tq: real, k: nat, e: real): (c: seq<real>)
    ensures |c| == k + 2
  {
    seq(k + 2, i requires 0 <= i => if i == k then Clock(tq, i) + e else Clock(tq, i))
  }

  lemma AheadDrifts(tq: real, k: nat, e: real, drift: real)
    requires tq > 0.0 && k > 0 && 0.0 < e < drift
    ensures Drifts(tq, Ahead(tq, k, e), drift)
    ensures forall m :: 0 <= m < k ==> Ahead(tq, k, e)[m] <= Clock(tq, k) + tq / 10.0
  {
    assert Clock(tq, 0) == 0.0;
    hide Clock;
    forall m | 0 <= m < k
      ensures Ahead(tq, k, e)[m] <= Clock(tq, k) + tq / 10.0
    {
      ClockOrder(tq, m, k);
    }
  }

  /** The tolerance of a tenth of a tick is exactly the drift that the number of ticks survives: an
      interpolated block of `k` ticks lasts k + 2 ticks on all clocks that start at 0 and drift by less than
      `drift` if and only if `drift` is at most a tenth of a tick. */
  lemma ToleranceExact(cfg: Config, agent: bool, s: Ctrl, ticks: seq<Tick>, i: nat, drift: real)
    requires cfg.Valid() && Interpolating(cfg, s, ticks, i) && drift > 0.0
    requires |ticks| >= Ticks(cfg.tq, s.blocks[i].profile) + 2
    ensures Ticks(cfg.tq, s.blocks[i].profile) >= 1
    ensures Tolerated(cfg, agent, s, ticks, Ticks(cfg.tq, s.blocks[i].profile), drift) <==> drift <= cfg.tq / 10.0
  {
    hide Clock, Lasts, Drifted, CanInterpolate, RunnableAt, Libm.Valid;
    RunnableMoves(cfg, s.blocks, i);
    var tq, k := cfg.tq, Ticks(cfg.tq, s.blocks[i].profile);
    if drift <= tq / 10.0 {
      forall c: seq<real> | |c| == k + 2 && Drifts(tq, c, drift)
        ensures Lasts(cfg, agent, s, ticks, c, k)
      {
        DriftLasts(cfg, agent, s, ticks, c, i);
      }
    } else {
      var e := (drift + tq / 10.0) / 2.0;
      var c := Ahead(tq, k, e);
      AheadDrifts(tq, k, e, drift);
      DriftRun(cfg, agent, s, ticks, c, i, k + 1);
      LeavesEarly(cfg, agent, s, ticks, c, k);
    }
  }

  lemma LeavesEarly(cfg: Config, agent: bool, s: Ctrl, ticks: seq<Tick>, c: seq<real>, k: nat)
    requires cfg.Valid() && Within(s.cursor, |s.blocks|) && |ticks| >= k + 2 && |c| == k + 2
    requires Drifted(cfg, agent, s, ticks, c, k + 1).Next?
    requires Drifted(cfg, agent, s, ticks, c, k + 1).ctrl.state.LoadBlock?
    ensures !Lasts(cfg, agent, s, ticks, c, k)
  {
    hide Drifted;
  }

  /** On a clock within the tolerance the setpoints of a block are those at its times, and the last one that
      is sent is the point at progress 1. */
  lemma DriftArrives(cfg: Config, agent: bool, s: Ctrl, ticks: seq<Tick>, c: seq<real>, i: nat)
    requires cfg.Valid() && Interpolating(cfg, s, ticks, i)
    requires var k := Ticks(cfg.tq, s.blocks[i].profile); k >= 0 && |ticks| >= k + 2 && |c| == k + 2
    requires Drifts(cfg.tq, c, cfg.tq / 10.0)
    ensures CanMove(cfg, s.blocks, i) && Drifted(cfg, agent, s, ticks, c, |c|).Next?
    ensures var s1 := Drifted(cfg, agent, s, ticks, c, |c|).ctrl;
      && s1.sent == s.sent + SentAt(cfg, s.blocks, i, c, |c|)
      && s1.sent[|s1.sent| - 1] ==
           Setpoint(Some(i), PointAt(cfg.libm, StartAt(cfg, s.blocks, i), s.blocks[i], 1.0))
  {
    hide Clock, Drifts, RunnableAt, CanInterpolate, Drifted, PointAt, Lambda, Libm.Valid;
    RunnableMoves(cfg, s.blocks, i);
    var k := Ticks(cfg.tq, s.blocks[i].profile);
    forall m | 0 <= m < k + 2
      ensures c[m] > Clock(cfg.tq, k) + cfg.tq / 10.0 <==> m == k + 1
    {
      DriftedTest(cfg.tq, k, c, m);
    }
    DriftRun(cfg, agent, s, ticks, c, i, k + 2);
    DriftedTest(cfg.tq, k, c, k + 1);
    ArrivesAfter(cfg, StartAt(cfg, s.blocks, i), s.blocks[i], c[k + 1]);
  }

  lemma ArrivesAfter(cfg: Config, start: Point, b: BlockState, t: real)
    requires Moving(cfg, start, b) && t >= b.profile.dt
    ensures Lambda(b.profile, t) == 1.0
  {
    hide Plan, Travel, Speed;
    MovingSound(cfg, start, b);
    Progress(cfg, b.arcFeedrate, b.length, 0.0, t);
  }
}
