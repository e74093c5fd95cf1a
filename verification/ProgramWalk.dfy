/** The loop over a whole program in the `main` of src/program.cpp: it walks every block that is not rapid
    and not without motion, under one running clock. */
module ProgramWalks {
  import opened Numerics
  import opened Points
  import opened Machines
  import opened Profiles
  import opened Motions
  import opened BlockSpec
  import opened BlockFacts
  import opened Blocks
  import opened ProgramFacts
  import opened Programs
  import opened FsmSpec
  import opened FsmFacts
  import opened FsmRuns

  /** A line of output: the position of its block, the running time, the sample and the point. */
  datatype Row = Row(block: nat, total: real, sample: Sample, point: Point)

  ghost function RowsOf(cfg: Config, bs: seq<BlockState>, i: nat, done: nat): seq<Row>
    requires i < |bs|
  {
    if Playable(cfg, bs, i)
    then seq(Ticks(cfg.tq, bs[i].profile) + 1, j requires 0 <= j => RowAt(cfg, bs, i, done, j))
    else []
  }

  function RowAt(cfg: Config, bs: seq<BlockState>, i: nat, done: nat, j: nat): Row
    requires i < |bs| && CanMove(cfg, bs, i)
  {
    Row(i, Clock(cfg.tq, done + j), SampleAt(bs[i].profile, Clock(cfg.tq, j)), SetpointOf(cfg, bs, i, Clock(cfg.tq, j)))
  }

  /** A block on which the loop throws: it is neither rapid nor NO_MOTION, and it is not parsed, so that its
      first sample throws, or has no known type, so that `interpolate` refuses the one sample of a walk
      that lasts no time. */
  predicate Halts(b: BlockState) {
    !b.kind.Rapid? && !b.kind.NoMotion? && !(b.parsed && Interpolated(b.kind))
  }

  /** The rows for the blocks from `lo` on, after `done` rows, up to the first block that halts the loop. */
  ghost function Rows(cfg: Config, bs: seq<BlockState>, lo: nat, done: nat): seq<Row>
    requires lo <= |bs|
    decreases |bs| - lo
  {
    if lo == |bs| || Halts(bs[lo]) then []
    else
      var rs := RowsOf(cfg, bs, lo, done);
      rs + Rows(cfg, bs, lo + 1, done + |rs|)
  }

  ghost function PointsOf(rows: seq<Row>): seq<Setpoint> {
    seq(|rows|, k requires 0 <= k < |rows| => Setpoint(Some(rows[k].block), rows[k].point))
  }

  /** What the state machine commands for block `i`, without rapid moves and repeated endpoints. */
  ghost function Unrepeated(cfg: Config, bs: seq<BlockState>, i: nat): seq<Setpoint>
    requires i < |bs|
  {
    var cs := Commands(cfg, bs, i);
    if bs[i].kind.Rapid? || |cs| == 0 then [] else cs[..|cs| - 1]
  }

  ghost function UnrepeatedFrom(cfg: Config, bs: seq<BlockState>, lo: nat): seq<Setpoint>
    requires lo <= |bs|
    decreases |bs| - lo
  {
    if lo == |bs| || Halts(bs[lo]) then [] else Unrepeated(cfg, bs, lo) + UnrepeatedFrom(cfg, bs, lo + 1)
  }

  lemma RowsOfBlock(cfg: Config, bs: seq<BlockState>, i: nat, done: nat)
    requires i < |bs|
    ensures PointsOf(RowsOf(cfg, bs, i, done)) == Unrepeated(cfg, bs, i)
  {
    hide CanInterpolate, SetpointAt, Clock, Ticks;
    var ps, us := PointsOf(RowsOf(cfg, bs, i, done)), Unrepeated(cfg, bs, i);
    assert |ps| == |us|;
    forall j | 0 <= j < |ps|
      ensures ps[j] == us[j]
    {
      assert us[j] == SetpointTick(cfg, bs, i, j);
    }
  }

  /** The rows of a block: its tick, the progress and the speed in mm/min at that tick, and the point there. */
  lemma RowsSampled(cfg: Config, bs: seq<BlockState>, i: nat, done: nat, j: nat)
    requires i < |bs| && j < |RowsOf(cfg, bs, i, done)|
    ensures CanMove(cfg, bs, i)
    ensures var row, p := RowsOf(cfg, bs, i, done)[j], bs[i].profile;
      && row.block == i && row.total == Clock(cfg.tq, done + j) && row.sample.t == Clock(cfg.tq, j)
      && row.sample.progress == Lambda(p, row.sample.t) && row.sample.speed == 60.0 * Speed(p, row.sample.t)
      && row.point == PointAt(cfg.libm, StartAt(cfg, bs, i), bs[i], row.sample.progress)
  {
    hide PointAt, CanInterpolate, Clock, Lambda, Speed, Ticks;
  }

  lemma PointsNothing()
    ensures PointsOf([]) == []
  {}

  lemma PointsJoin(xs: seq<Row>, ys: seq<Row>)
    ensures PointsOf(xs + ys) == PointsOf(xs) + PointsOf(ys)
  {}

  /** The walk of a program visits the points that the state machine commands, in the same order, less the
      rapid moves and the repeated endpoints; and its running clock is one tick a row. */
  lemma {:induction false} WalkIsStream(cfg: Config, bs: seq<BlockState>, lo: nat, done: nat)
    requires lo <= |bs|
    ensures PointsOf(Rows(cfg, bs, lo, done)) == UnrepeatedFrom(cfg, bs, lo)
    ensures var rows := Rows(cfg, bs, lo, done);
      forall k :: 0 <= k < |rows| ==> rows[k].total == Clock(cfg.tq, done + k)
    decreases |bs| - lo
  {
    hide CanInterpolate, SetpointAt, Ticks, PointsOf, Unrepeated, Halts;
    PointsNothing();
    if lo < |bs| && !Halts(bs[lo]) {
      var rs := RowsOf(cfg, bs, lo, done);
      RowsOfBlock(cfg, bs, lo, done);
      WalkIsStream(cfg, bs, lo + 1, done + |rs|);
      PointsJoin(rs, Rows(cfg, bs, lo + 1, done + |rs|));
    }
  }

  /** One block of the loop, from row `done` on; None when it throws. */
  method WalkBlock(p: Program, i: nat, ghost done: nat, total: real) returns (rows: Option<seq<Row>>, tTot: real)
    requires p.Valid() && Sane(p.machine.cfg, p.States()) && PlannedAll(p.States())
    requires i < |p.blocks| && Interpolated(p.blocks[i].kind)
    requires total == Clock(p.machine.cfg.tq, done)
    modifies p.blocks
    ensures p.Valid() && p.States() == old(p.States())
    ensures rows == if p.blocks[i].parsed then Some(RowsOf(p.machine.cfg, p.States(), i, done)) else None
    ensures rows.Some? ==> tTot == Clock(p.machine.cfg.tq, done + |rows.value|)
  {
    hide StatesOf, Linked, Config.Valid, CanInterpolate, Clock, Sane, PlannedAll, RowsOf, Playable, Samples;
    var samples := SamplesOf(p, i);
    if samples.None? {
      return None, total;
    }
    var along;
    along, tTot := RowsAlong(p.machine, p.blocks[i], i, p.States(), samples.value, done, total);
    rows := Some(along);
  }

  /** The samples of one block; None when its walk throws. */
  method SamplesOf(p: Program, i: nat) returns (samples: Option<seq<Sample>>)
    requires p.Valid() && Sane(p.machine.cfg, p.States()) && PlannedAll(p.States())
    requires i < |p.blocks| && Interpolated(p.blocks[i].kind)
    modifies p.blocks
    ensures p.Valid() && p.States() == old(p.States())
    ensures p.blocks[i].State() == p.States()[i]
    ensures p.blocks[i].Start(p.machine.cfg) == StartAt(p.machine.cfg, p.States(), i)
    ensures samples.Some? <==> p.blocks[i].parsed
    ensures samples.Some? ==>
      Playable(p.machine.cfg, p.States(), i) && samples.value == Samples(p.machine.cfg.tq, p.States()[i].profile)
  {
    hide StatesOf, Linked, Config.Valid, CanInterpolate, Sane, PlannedAll, SampleAt, Joined, Whole;
    var b := p.blocks[i];
    SaneMoves(p.machine.cfg, p.States(), i);
    samples := b.Walk(p.machine);
    ValuesKept(p.blocks);
    LinksKept(p.blocks);
    LinkedStart(p.machine.cfg, p.blocks, i);
  }

  /** The rows of one walk. */
  method RowsAlong(mc: Machine, b: Block, i: nat, ghost bs: seq<BlockState>, samples: seq<Sample>,
                   ghost done: nat, total: real)
    returns (rows: seq<Row>, tTot: real)
    requires i < |bs| && b.State() == bs[i] && b.Start(mc.cfg) == StartAt(mc.cfg, bs, i) && b.parsed
    requires Playable(mc.cfg, bs, i) && samples == Samples(mc.cfg.tq, bs[i].profile)
    requires total == Clock(mc.cfg.tq, done)
    ensures rows == RowsOf(mc.cfg, bs, i, done)
    ensures tTot == Clock(mc.cfg.tq, done + |rows|)
  {
    hide CanInterpolate, PointAt, Clock, SampleAt, Ticks, RowAt, StartAt, Block.State, Block.Start;
    tTot, rows := total, [];
    for k := 0 to |samples|
      invariant |rows| == k && tTot == Clock(mc.cfg.tq, done + k)
      invariant forall j :: 0 <= j < k ==> rows[j] == RowAt(mc.cfg, bs, i, done, j)
    {
      RowIs(mc.cfg, bs, i, done, k, samples[k]);
      var point := b.Interpolate(mc, samples[k].progress);
      rows := rows + [Row(i, tTot, samples[k], point.value)];
      tTot := tTot + mc.cfg.tq;
      NextClock(mc.cfg.tq, done + k);
    }
  }

  /** The loop over the blocks of a list that any history of edits left behind, its parsed motions planned: it
      gets to the end unless it meets a block that halts it. */
  method WalkProgram(p: Program) returns (rows: seq<Row>, ok: bool)
    requires p.Valid() && Sane(p.machine.cfg, p.States()) && PlannedAll(p.States())
    modifies p.blocks
    ensures p.Valid() && p.States() == old(p.States())
    ensures rows == Rows(p.machine.cfg, p.States(), 0, 0)
    ensures ok <==> forall i :: 0 <= i < |p.States()| ==> !Halts(p.States()[i])
  {
    hide StatesOf, Linked, Config.Valid, Clock, Sane, PlannedAll, RowsOf, Rows, Halts;
    ghost var bs := p.States();
    var total, i := 0.0, 0;
    rows := [];
    ClockStart(p.machine.cfg.tq);
    while i < |p.blocks|
      invariant 0 <= i <= |p.blocks| && p.Valid() && p.States() == bs
      invariant total == Clock(p.machine.cfg.tq, |rows|)
      invariant rows + Rows(p.machine.cfg, bs, i, |rows|) == Rows(p.machine.cfg, bs, 0, 0)
      invariant forall k :: 0 <= k < i ==> !Halts(bs[k])
    {
      RowsStep(p.machine.cfg, bs, i, rows);
      var part;
      part, total := WalkNext(p, i, |rows|, total);
      if part.None? {
        return rows, false;
      }
      rows := rows + part.value;
      i := i + 1;
    }
    RowsEnd(p.machine.cfg, bs, |rows|);
    ok := true;
  }

  /** One turn of the loop; None when it throws. */
  method WalkNext(p: Program, i: nat, ghost done: nat, total: real) returns (rows: Option<seq<Row>>, tTot: real)
    requires p.Valid() && Sane(p.machine.cfg, p.States()) && PlannedAll(p.States()) && i < |p.blocks|
    requires total == Clock(p.machine.cfg.tq, done)
    modifies p.blocks
    ensures p.Valid() && p.States() == old(p.States())
    ensures rows == if Halts(p.States()[i]) then None else Some(RowsOf(p.machine.cfg, p.States(), i, done))
    ensures rows.Some? ==> tTot == Clock(p.machine.cfg.tq, done + |rows.value|)
  {
    hide StatesOf, Linked, Config.Valid, Clock, Sane, PlannedAll, RowsOf, Halts;
    var b := p.blocks[i];
    assert b.State() == p.States()[i];
    HaltsWhen(p.States()[i]);
    if b.kind.Rapid? || b.kind.NoMotion? {
      RowsNone(p.machine.cfg, p.States(), i, done);
      return Some([]), total;
    }
    if b.kind.Other? {
      return None, total;
    }
    rows, tTot := WalkBlock(p, i, done, total);
  }

  lemma ClockStart(tq: real)
    ensures Clock(tq, 0) == 0.0
  {}

  lemma HaltsWhen(b: BlockState)
    ensures b.kind.Rapid? || b.kind.NoMotion? ==> !Halts(b)
    ensures b.kind.Other? ==> Halts(b)
    ensures Interpolated(b.kind) ==> (Halts(b) <==> !b.parsed)
  {}

  lemma RowsEnd(cfg: Config, bs: seq<BlockState>, done: nat)
    ensures Rows(cfg, bs, |bs|, done) == []
  {}

  lemma RowsStep(cfg: Config, bs: seq<BlockState>, i: nat, rows: seq<Row>)
    requires i < |bs|
    ensures var rs := RowsOf(cfg, bs, i, |rows|);
      rows + Rows(cfg, bs, i, |rows|) ==
        if Halts(bs[i]) then rows else rows + rs + Rows(cfg, bs, i + 1, |rows + rs|)
  {
    hide RowsOf, Halts;
  }

  lemma RowsNone(cfg: Config, bs: seq<BlockState>, i: nat, done: nat)
    requires i < |bs| && !Interpolated(bs[i].kind)
    ensures RowsOf(cfg, bs, i, done) == []
  {}

  lemma RowIs(cfg: Config, bs: seq<BlockState>, i: nat, done: nat, j: nat, sample: Sample)
    requires i < |bs| && CanMove(cfg, bs, i)
    requires sample == SampleAt(bs[i].profile, Clock(cfg.tq, j))
    ensures RowAt(cfg, bs, i, done, j) ==
      Row(i, Clock(cfg.tq, done + j), sample, PointAt(cfg.libm, StartAt(cfg, bs, i), bs[i], sample.progress))
  {
    hide PointAt, CanInterpolate, Clock, Lambda, Speed;
  }

  lemma SaneMoves(cfg: Config, bs: seq<BlockState>, i: nat)
    requires cfg.Valid() && Sane(cfg, bs) && PlannedAll(bs) && i < |bs| && Interpolated(bs[i].kind)
    ensures bs[i].parsed ==> Playable(cfg, bs, i) && Joined(bs[i].profile) && Whole(cfg.tq, bs[i].profile)
    ensures !bs[i].parsed ==> !bs[i].profile.Planned?
  {
    hide Plan, Plannable, CanInterpolate, Made;
    assert Follows(cfg, bs, i);
    if bs[i].parsed {
      assert RunnableAt(cfg, bs, i);
      RunnableMoves(cfg, bs, i);
      MovingSound(cfg, StartAt(cfg, bs, i), bs[i]);
    }
  }
}
