/** The path that a run commands (src/block.cpp, src/fsm_impl.hpp): the state machine samples each block as
    `walk` does, and consecutive setpoints stay as close as the feedrate allows, across blocks too. */
module Paths {
  import opened Numerics
  import opened Points
  import opened Machines
  import opened Profiles
  import opened Motions
  import opened BlockSpec
  import opened BlockFacts
  import opened Helices
  import opened FsmSpec
  import opened FsmFacts
  import opened FsmRuns

  // ----- the state machine refines walk -----

  /** The points that `interpolate` returns at the samples of `walk`. */
  function WalkPoint(cfg: Config, bs: seq<BlockState>, i: nat, sample: Sample): Point
    requires i < |bs| && CanInterpolate(StartAt(cfg, bs, i), bs[i])
  {
    PointAt(cfg.libm, StartAt(cfg, bs, i), bs[i], sample.progress)
  }

  /** The setpoints of an interpolated block are those of `walk`, sample for sample, and then the endpoint
      once more. */
  lemma CommandsAreWalk(cfg: Config, bs: seq<BlockState>, i: nat)
    requires cfg.Valid() && i < |bs| && RunnableAt(cfg, bs, i) && Interpolated(bs[i].kind)
    ensures Playable(cfg, bs, i)
    ensures var walk, cs := Samples(cfg.tq, bs[i].profile), Commands(cfg, bs, i);
      && |cs| == |walk| + 1 == Ticks(cfg.tq, bs[i].profile) + 2
      && (forall j :: 0 <= j < |walk| ==> cs[j] == Setpoint(Some(i), WalkPoint(cfg, bs, i, walk[j])))
      && walk[0].progress == 0.0 && walk[|walk| - 1].progress == 1.0
      && cs[|walk|] == cs[|walk| - 1]
      && cs[|walk|].point == PointAt(cfg.libm, StartAt(cfg, bs, i), bs[i], 1.0)
  {
    hide Ready, CanInterpolate, PointAt, Lambda, Clock, Libm.Valid, Plan;
    CommandsOf(cfg, bs, i);
    RunnableMoves(cfg, bs, i);
    var b, k := bs[i], Ticks(cfg.tq, bs[i].profile);
    EndsOfMotion(cfg, StartAt(cfg, bs, i), b);
    var cs, walk := Commands(cfg, bs, i), Samples(cfg.tq, b.profile);
    assert cs[k] == SetpointTick(cfg, bs, i, k) && cs[k + 1] == SetpointTick(cfg, bs, i, k + 1);
  }

  /** Progress is 0 at the first tick, and 1 at the last one and at the tick after it. */
  lemma EndsOfMotion(cfg: Config, start: Point, b: BlockState)
    requires cfg.Valid() && Moving(cfg, start, b)
    ensures Whole(cfg.tq, b.profile) && b.profile.l > 0.0
    ensures var k := Ticks(cfg.tq, b.profile);
      && Lambda(b.profile, Clock(cfg.tq, 0)) == 0.0
      && Lambda(b.profile, Clock(cfg.tq, k)) == 1.0 && Lambda(b.profile, Clock(cfg.tq, k + 1)) == 1.0
  {
    hide Plan, Travel, Speed;
    MovingSound(cfg, start, b);
    ClockOne(cfg.tq);
    var k := Ticks(cfg.tq, b.profile);
    ClockOrder(cfg.tq, k, k + 1);
    Progress(cfg, b.arcFeedrate, b.length, 0.0, b.profile.dt);
    Progress(cfg, b.arcFeedrate, b.length, 0.0, Clock(cfg.tq, k + 1));
  }

  // ----- smoothness -----

  /** Two successive setpoints are no farther apart than the feedrate of the second one's block allows in
      one tick. */
  ghost predicate Close(cfg: Config, bs: seq<BlockState>, a: Setpoint, b: Setpoint) {
    && a.point.Complete() && b.point.Complete() && b.block.Some? && b.block.value < |bs|
    && DistSq(a.point, b.point) <= Sq(Reach(bs[b.block.value].feedrate, cfg.tq))
  }

  ghost predicate Smooth(cfg: Config, bs: seq<BlockState>, cs: seq<Setpoint>) {
    forall k :: 0 <= k < |cs| - 1 ==> Close(cfg, bs, cs[k], cs[k + 1])
  }

  /** A block that is interpolated and can be run. */
  ghost predicate Sampled(cfg: Config, bs: seq<BlockState>, i: nat)
    requires i < |bs|
  {
    RunnableAt(cfg, bs, i) && Interpolated(bs[i].kind)
  }

  lemma SampledMoves(cfg: Config, bs: seq<BlockState>, i: nat)
    requires cfg.Valid() && i < |bs| && Sampled(cfg, bs, i)
    ensures Moving(cfg, StartAt(cfg, bs, i), bs[i]) && CanMove(cfg, bs, i) && bs[i].delta.Complete()
  {
    hide Plan, Plannable, CanInterpolate;
    RunnableMoves(cfg, bs, i);
  }

  /** A block whose steps have a length. */
  predicate Measured(b: BlockState) {
    b.profile.Planned? && b.profile.l != 0.0 && b.delta.Complete() && (!b.kind.Line? ==> b.arc.Some?)
  }

  /** The squared distance of a step, from tick `j` of the block to the next. */
  function StepSq(cfg: Config, b: BlockState, j: nat): real
    requires Measured(b)
  {
    var l1, l2 := Lambda(b.profile, Clock(cfg.tq, j)), Lambda(b.profile, Clock(cfg.tq, j + 1));
    PathSq(cfg.libm, b, l2 - l1) + Climb(b, l1, l2)
  }

  /** Every step of the block, the chord and the climb together, is within what its feedrate allows in a tick. */
  ghost predicate TicksWithin(cfg: Config, b: BlockState)
    requires Measured(b) && cfg.tq > 0.0
  {
    forall j :: 0 <= j < Ticks(cfg.tq, b.profile) ==> StepSq(cfg, b, j) <= Sq(Reach(b.feedrate, cfg.tq))
  }

  lemma SampledArc(cfg: Config, bs: seq<BlockState>, i: nat)
    requires cfg.Valid() && i < |bs| && Sampled(cfg, bs, i)
    ensures CanMove(cfg, bs, i) && Measured(bs[i])
  {
    hide Plan, Plannable;
    RunnableMoves(cfg, bs, i);
  }

  lemma StepClose(cfg: Config, bs: seq<BlockState>, i: nat, j: nat)
    requires cfg.Valid() && i < |bs| && Sampled(cfg, bs, i) && CanMove(cfg, bs, i) && Measured(bs[i])
    ensures Close(cfg, bs, SetpointTick(cfg, bs, i, j), SetpointTick(cfg, bs, i, j + 1)) <==>
      StepSq(cfg, bs[i], j) <= Sq(Reach(bs[i].feedrate, cfg.tq))
    ensures Gentle(bs[i]) ==> StepSq(cfg, bs[i], j) <= Sq(Reach(bs[i].feedrate, cfg.tq))
  {
    hide Plan, Lambda, PointAt, Clock, Sq, DistSq, Ready, CanInterpolate, Gentle, Libm.Valid, PathSq, Climb, Reach;
    SampledMoves(cfg, bs, i);
    var start, t1, t2 := StartAt(cfg, bs, i), Clock(cfg.tq, j), Clock(cfg.tq, j + 1);
    NextClock(cfg.tq, j);
    assert t2 - t1 == cfg.tq;
    SetpointDistance(cfg, start, bs[i], t1, t2);
    SetpointComplete(cfg, bs, i, t1);
    SetpointComplete(cfg, bs, i, t2);
    if Gentle(bs[i]) {
      GentleSteps(cfg, start, bs[i], t1, t2);
    }
  }

  /** The setpoints of a block are smooth exactly when each of its steps is within the reach of a tick; and
      those of a gentle block, and so of every line, are. */
  lemma CommandsSmooth(cfg: Config, bs: seq<BlockState>, i: nat)
    requires cfg.Valid() && i < |bs| && Sampled(cfg, bs, i)
    ensures CanMove(cfg, bs, i) && Measured(bs[i])
    ensures Smooth(cfg, bs, Commands(cfg, bs, i)) <==> TicksWithin(cfg, bs[i])
    ensures Gentle(bs[i]) ==> TicksWithin(cfg, bs[i])
    ensures bs[i].kind.Line? ==> Gentle(bs[i])
    ensures |Commands(cfg, bs, i)| >= 3
  {
    hide RunnableAt, Close, Gentle, SetpointTick, Commands, CanInterpolate, StepSq, Reach;
    SampledArc(cfg, bs, i);
    LineGentle(bs[i]);
    CommandsOf(cfg, bs, i);
    var cs, k := Commands(cfg, bs, i), Ticks(cfg.tq, bs[i].profile);
    forall j | 0 <= j < k
      ensures Close(cfg, bs, cs[j], cs[j + 1]) <==> StepSq(cfg, bs[i], j) <= Sq(Reach(bs[i].feedrate, cfg.tq))
      ensures Gentle(bs[i]) ==> StepSq(cfg, bs[i], j) <= Sq(Reach(bs[i].feedrate, cfg.tq))
    {
      StepClose(cfg, bs, i, j);
    }
    RepeatClose(cfg, bs, i);
    if TicksWithin(cfg, bs[i]) {
      forall j | 0 <= j < |cs| - 1
        ensures Close(cfg, bs, cs[j], cs[j + 1])
      {}
    }
    if Smooth(cfg, bs, cs) {
      forall j | 0 <= j < k
        ensures StepSq(cfg, bs[i], j) <= Sq(Reach(bs[i].feedrate, cfg.tq))
      {
        assert Close(cfg, bs, cs[j], cs[j + 1]);
      }
    }
  }

  /** The repeated endpoint is close to the endpoint. */
  lemma RepeatClose(cfg: Config, bs: seq<BlockState>, i: nat)
    requires cfg.Valid() && i < |bs| && Sampled(cfg, bs, i)
    ensures var cs, k := Commands(cfg, bs, i), Ticks(cfg.tq, bs[i].profile);
      |cs| == k + 2 && k >= 1 && Close(cfg, bs, cs[k], cs[k + 1])
  {
    hide RunnableAt, PointAt, Lambda, Clock, CanInterpolate, Sq, Commands;
    CommandsAreWalk(cfg, bs, i);
    CommandsOf(cfg, bs, i);
    SampledMoves(cfg, bs, i);
    var k := Ticks(cfg.tq, bs[i].profile);
    SetpointComplete(cfg, bs, i, Clock(cfg.tq, k));
    SqZero();
    SqPositive(Reach(bs[i].feedrate, cfg.tq));
  }

  /** Block `i` ends no farther beside its target, where the next one begins, than the next one's feedrate
      allows in a tick. */
  ghost predicate Meets(cfg: Config, bs: seq<BlockState>, i: nat)
    requires i + 1 < |bs| && CanInterpolate(StartAt(cfg, bs, i), bs[i]) && bs[i].target.Complete()
  {
    Miss(cfg.libm, StartAt(cfg, bs, i), bs[i]) <= Sq(Reach(bs[i + 1].feedrate, cfg.tq))
  }

  /** Where one block ends and the next begins, the setpoints are as far apart as the first misses its target:
      they are close exactly when the blocks meet, and the same when it misses by nothing, as a line does. */
  lemma BlocksJoin(cfg: Config, bs: seq<BlockState>, i: nat)
    requires cfg.Valid() && i + 1 < |bs| && Sampled(cfg, bs, i) && Sampled(cfg, bs, i + 1)
    ensures CanInterpolate(StartAt(cfg, bs, i), bs[i]) && bs[i].target.Complete()
    ensures var cs, ds := Commands(cfg, bs, i), Commands(cfg, bs, i + 1);
      var miss := Miss(cfg.libm, StartAt(cfg, bs, i), bs[i]);
      && |cs| > 0 && |ds| > 0
      && (Close(cfg, bs, cs[|cs| - 1], ds[0]) <==> Meets(cfg, bs, i))
      && (miss == 0.0 ==> cs[|cs| - 1].point == ds[0].point)
      && (bs[i].kind.Line? ==> miss == 0.0 && Meets(cfg, bs, i))
  {
    hide RunnableAt, Plan, Lambda, PointAt, Clock, DistSq, Sq, Ready, CanInterpolate, Libm.Valid;
    CommandsAreWalk(cfg, bs, i);
    CommandsAreWalk(cfg, bs, i + 1);
    SampledMoves(cfg, bs, i);
    SampledMoves(cfg, bs, i + 1);
    MovingEnds(cfg, StartAt(cfg, bs, i), bs[i]);
    MovingEnds(cfg, StartAt(cfg, bs, i + 1), bs[i + 1]);
    RunnableMoves(cfg, bs, i);
    PointComplete(cfg, bs, i);
    SqPositive(Reach(bs[i + 1].feedrate, cfg.tq));
  }

  lemma PointComplete(cfg: Config, bs: seq<BlockState>, i: nat)
    requires i < |bs| && CanInterpolate(StartAt(cfg, bs, i), bs[i])
    ensures PointAt(cfg.libm, StartAt(cfg, bs, i), bs[i], 1.0).Complete()
  {}

  /** After a rapid motion, which is commanded as its target, the next block begins there. */
  lemma RapidJoins(cfg: Config, bs: seq<BlockState>, i: nat)
    requires cfg.Valid() && i + 1 < |bs| && bs[i].kind.Rapid? && Sampled(cfg, bs, i + 1)
    ensures var cs, ds := Commands(cfg, bs, i), Commands(cfg, bs, i + 1);
      |cs| > 0 && |ds| > 0 && cs[|cs| - 1].point == ds[0].point
  {
    hide RunnableAt, Plan, Lambda, PointAt, Clock, Miss, Ready, CanInterpolate, Libm.Valid;
    CommandsAreWalk(cfg, bs, i + 1);
    SampledMoves(cfg, bs, i + 1);
    MovingEnds(cfg, StartAt(cfg, bs, i + 1), bs[i + 1]);
  }

  /** The setpoints of consecutive interpolated blocks are smooth exactly when each step of each block is within
      the reach of a tick and each block meets the next. */
  lemma {:induction false} StreamExact(cfg: Config, bs: seq<BlockState>, lo: nat, hi: nat)
    requires cfg.Valid() && lo < hi <= |bs|
    requires forall i :: lo <= i < hi ==> Sampled(cfg, bs, i)
    ensures forall i :: lo <= i < hi ==> CanInterpolate(StartAt(cfg, bs, i), bs[i]) && bs[i].target.Complete()
    ensures forall i :: lo <= i < hi ==> Measured(bs[i])
    ensures Smooth(cfg, bs, Stream(cfg, bs, lo, hi)) <==>
      && (forall i :: lo <= i < hi ==> TicksWithin(cfg, bs[i]))
      && (forall i :: lo <= i < hi - 1 ==> Meets(cfg, bs, i))
    ensures var cs := Stream(cfg, bs, lo, hi);
      |cs| > 0 && |Commands(cfg, bs, lo)| > 0 && cs[0] == Commands(cfg, bs, lo)[0]
    decreases hi - lo
  {
    hide RunnableAt, Close, Sampled, Smooth, Meets, Commands, CanInterpolate, TicksWithin;
    CommandsSmooth(cfg, bs, lo);
    SampledEnds(cfg, bs, lo);
    var cs := Commands(cfg, bs, lo);
    if lo + 1 == hi {
      assert Stream(cfg, bs, lo, hi) == cs;
    } else {
      StreamExact(cfg, bs, lo + 1, hi);
      BlocksJoin(cfg, bs, lo);
      SmoothJoin(cfg, bs, cs, Stream(cfg, bs, lo + 1, hi));
    }
  }

  lemma SampledEnds(cfg: Config, bs: seq<BlockState>, i: nat)
    requires cfg.Valid() && i < |bs| && Sampled(cfg, bs, i)
    ensures CanInterpolate(StartAt(cfg, bs, i), bs[i]) && bs[i].target.Complete()
  {
    hide Plan, Plannable, CanInterpolate;
    RunnableMoves(cfg, bs, i);
  }

  /** Along any run of consecutive gentle blocks, and so along lines, every two successive setpoints are within
      (F/60 * tq) squared of each other, F being the feedrate of the block of the second, exactly when each
      block meets the next. */
  lemma StreamSmooth(cfg: Config, bs: seq<BlockState>, lo: nat, hi: nat)
    requires cfg.Valid() && lo < hi <= |bs|
    requires forall i :: lo <= i < hi ==> Sampled(cfg, bs, i)
    ensures forall i :: lo <= i < hi ==> CanInterpolate(StartAt(cfg, bs, i), bs[i]) && bs[i].target.Complete()
    ensures forall i :: lo <= i < hi ==> Measured(bs[i])
    ensures (forall i :: lo <= i < hi ==> Measured(bs[i]) && Gentle(bs[i])) ==>
      (Smooth(cfg, bs, Stream(cfg, bs, lo, hi)) <==> forall i :: lo <= i < hi - 1 ==> Meets(cfg, bs, i))
    ensures (forall i :: lo <= i < hi ==> bs[i].kind.Line?) ==> Smooth(cfg, bs, Stream(cfg, bs, lo, hi))
  {
    hide RunnableAt, Sampled, Smooth, Meets, Commands, CanInterpolate, Gentle, Stream, TicksWithin;
    StreamExact(cfg, bs, lo, hi);
    forall i | lo <= i < hi
      ensures Measured(bs[i])
      ensures Gentle(bs[i]) ==> TicksWithin(cfg, bs[i])
      ensures bs[i].kind.Line? ==> Gentle(bs[i])
    {
      CommandsSmooth(cfg, bs, i);
    }
    forall i | lo <= i < hi - 1
      ensures bs[i].kind.Line? ==> Meets(cfg, bs, i)
    {
      BlocksJoin(cfg, bs, i);
    }
  }

  lemma SmoothJoin(cfg: Config, bs: seq<BlockState>, cs: seq<Setpoint>, ds: seq<Setpoint>)
    requires |cs| > 0 && |ds| > 0
    ensures Smooth(cfg, bs, cs + ds) <==>
      Smooth(cfg, bs, cs) && Smooth(cfg, bs, ds) && Close(cfg, bs, cs[|cs| - 1], ds[0])
  {
    hide Close;
    var es := cs + ds;
    var n := |cs|;
    forall k | 0 <= k < n - 1
      ensures Close(cfg, bs, es[k], es[k + 1]) <==> Close(cfg, bs, cs[k], cs[k + 1])
    {}
    forall k | 0 <= k < |ds| - 1
      ensures Close(cfg, bs, es[n + k], es[n + k + 1]) <==> Close(cfg, bs, ds[k], ds[k + 1])
    {}
    assert es[n - 1] == cs[n - 1] && es[n] == ds[0];
    if Smooth(cfg, bs, es) {
      assert Close(cfg, bs, es[n - 1], es[n - 1 + 1]);
      forall k | 0 <= k < |ds| - 1
        ensures Close(cfg, bs, ds[k], ds[k + 1])
      {
        assert Close(cfg, bs, es[n + k], es[n + k + 1]);
      }
    }
    if Smooth(cfg, bs, cs) && Smooth(cfg, bs, ds) && Close(cfg, bs, cs[n - 1], ds[0]) {
      forall k | 0 <= k < |es| - 1
        ensures Close(cfg, bs, es[k], es[k + 1])
      {
        if k >= n {
          assert Close(cfg, bs, ds[k - n], ds[k - n + 1]);
        }
      }
    }
  }
}
