/** Whole runs of the state machine: safety over every run, the exact run of a program that nothing
    interrupts, and how soon a stop request takes effect. */
module FsmRuns {
  import opened Numerics
  import opened Machines
  import opened Profiles
  import opened BlockSpec
  import opened BlockFacts
  import opened ProgramSpec
  import opened FsmSpec
  import opened FsmFacts

  // ----- every run -----

  /** Every tick of a run that starts the program finds one that can be run. */
  ghost predicate RunFine(cfg: Config, agent: bool, s: Ctrl, ticks: seq<Tick>)
    requires cfg.Valid() && Within(s.cursor, |s.blocks|)
    decreases |ticks|
  {
    if ticks == [] then true
    else
      StepWithin(cfg, agent, s, ticks[0]);
      && StartFine(agent, s, ticks[0])
      && (Step(cfg, agent, s, ticks[0]).Next? ==> RunFine(cfg, agent, Step(cfg, agent, s, ticks[0]).ctrl, ticks[1..]))
  }

  /** No run fails, whatever keys are pressed, files loaded, with error or without, signals sent and positions
      reported, as long as SPACE only ever starts a list whose parsed motions are planned and whose last block
      does not break the run; and every run keeps the dispatch invariant. */
  lemma {:induction false} RunKeeps(cfg: Config, agent: bool, s: Ctrl, ticks: seq<Tick>)
    requires cfg.Valid() && Inv(cfg, agent, s) && RunFine(cfg, agent, s, ticks)
    ensures Run(cfg, agent, s, ticks).Next? && Inv(cfg, agent, Run(cfg, agent, s, ticks).ctrl)
    decreases |ticks|
  {
    hide Step, Inv, StartFine, Libm.Valid;
    InvWithin(cfg, agent, s);
    if ticks != [] {
      StepKeeps(cfg, agent, s, ticks[0]);
      var s1 := Step(cfg, agent, s, ticks[0]).ctrl;
      if !s1.state.Stop? {
        RunKeeps(cfg, agent, s1, ticks[1..]);
      }
    }
  }

  lemma InvWithin(cfg: Config, agent: bool, s: Ctrl)
    requires cfg.tq > 0.0 && Inv(cfg, agent, s)
    ensures Within(s.cursor, |s.blocks|)
  {}

  // ----- the setpoints of a block -----

  /** How many ticks a block takes after the tick that loads it. */
  function Dwell(cfg: Config, b: BlockState): nat
    requires cfg.tq > 0.0
  {
    if Interpolated(b.kind) && b.profile.Planned? && Ticks(cfg.tq, b.profile) >= 0 then Ticks(cfg.tq, b.profile) + 2
    else 1
  }

  function Cost(cfg: Config, b: BlockState): nat
    requires cfg.tq > 0.0
  {
    1 + Dwell(cfg, b)
  }

  /** The setpoint that INTERP_MOTION commands at tick `j` of block `i`. */
  function SetpointTick(cfg: Config, bs: seq<BlockState>, i: nat, j: int): Setpoint
    requires i < |bs| && CanMove(cfg, bs, i)
  {
    Setpoint(Some(i), SetpointOf(cfg, bs, i, Clock(cfg.tq, j)))
  }

  /** Whether block `i` is interpolated, and lasts some whole ticks. */
  ghost predicate Playable(cfg: Config, bs: seq<BlockState>, i: nat)
    requires i < |bs|
  {
    CanMove(cfg, bs, i) && cfg.tq > 0.0 && Ticks(cfg.tq, bs[i].profile) >= 1
  }

  /** The setpoints that a disconnected machine is sent for block `i`. */
  ghost function Commands(cfg: Config, bs: seq<BlockState>, i: nat): seq<Setpoint>
    requires i < |bs|
  {
    if bs[i].kind.Rapid? then [Setpoint(Some(i), bs[i].target)]
    else if Playable(cfg, bs, i) then seq(Dwell(cfg, bs[i]), j requires 0 <= j => SetpointTick(cfg, bs, i, j))
    else []
  }

  /** The setpoints for blocks `lo` to `hi`. */
  ghost function Stream(cfg: Config, bs: seq<BlockState>, lo: nat, hi: nat): seq<Setpoint>
    requires lo <= hi <= |bs|
    decreases hi - lo
  {
    if lo == hi then [] else Commands(cfg, bs, lo) + Stream(cfg, bs, lo + 1, hi)
  }

  /** The ticks that blocks `lo` to `hi` cost. */
  function TotalCost(cfg: Config, bs: seq<BlockState>, lo: nat, hi: nat): nat
    requires cfg.tq > 0.0 && lo <= hi <= |bs|
    decreases hi - lo
  {
    if lo == hi then 0 else Cost(cfg, bs[lo]) + TotalCost(cfg, bs, lo + 1, hi)
  }

  function Positions(lo: nat, hi: nat): seq<nat>
    requires lo <= hi
    decreases hi - lo
  {
    if lo == hi then [] else [lo] + Positions(lo + 1, hi)
  }

  // ----- the uninterrupted run of a program -----

  /** No signal comes, and the machine stays disconnected. */
  ghost predicate Quiet(agent: bool, ticks: seq<Tick>) {
    forall k :: 0 <= k < |ticks| ==> !ticks[k].sigint && (agent ==> !ticks[k].connected)
  }

  /** From `s`, after `n` of the ticks, the run has come to `s1`. */
  ghost predicate Reaches(cfg: Config, agent: bool, s: Ctrl, ticks: seq<Tick>, n: nat, s1: Ctrl)
    requires cfg.Valid()
  {
    && n <= |ticks| && Within(s.cursor, |s.blocks|) && Within(s1.cursor, |s1.blocks|)
    && Run(cfg, agent, s, ticks) == Run(cfg, agent, s1, ticks[n..])
  }

  lemma ReachesOne(cfg: Config, agent: bool, s: Ctrl, ticks: seq<Tick>, s1: Ctrl)
    requires cfg.Valid() && Within(s.cursor, |s.blocks|) && |ticks| > 0
    requires Step(cfg, agent, s, ticks[0]) == Next(s1) && !s1.state.Stop?
    ensures Reaches(cfg, agent, s, ticks, 1, s1)
  {
    hide Step, Libm.Valid;
    StepWithin(cfg, agent, s, ticks[0]);
  }

  lemma ReachesMore(cfg: Config, agent: bool, s: Ctrl, ticks: seq<Tick>, m: nat, s1: Ctrl, n: nat, s2: Ctrl)
    requires cfg.Valid() && Reaches(cfg, agent, s, ticks, m, s1) && Reaches(cfg, agent, s1, ticks[m..], n, s2)
    ensures Reaches(cfg, agent, s, ticks, m + n, s2)
  {
    hide Run, Libm.Valid;
    assert ticks[m..][n..] == ticks[m + n..];
  }

  /** What has happened between two states: `cost` ticks of time, blocks visited and setpoints sent. */
  ghost predicate Did(cfg: Config, s: Ctrl, s1: Ctrl, cost: nat, vs: seq<nat>, cs: seq<Setpoint>) {
    && s1.blocks == s.blocks
    && s1.tTot == s.tTot + Clock(cfg.tq, cost)
    && s1.visited == s.visited + vs && s1.sent == s.sent + cs
  }

  lemma DidMore(cfg: Config, s: Ctrl, s1: Ctrl, s2: Ctrl, m: nat, vs: seq<nat>, cs: seq<Setpoint>,
                n: nat, ws: seq<nat>, ds: seq<Setpoint>)
    requires Did(cfg, s, s1, m, vs, cs) && Did(cfg, s1, s2, n, ws, ds)
    ensures Did(cfg, s, s2, m + n, vs + ws, cs + ds)
  {
    hide Clock;
    ClockSum(cfg.tq, m, n);
    Concat(s.visited, vs, ws);
    Concat(s.sent, cs, ds);
  }

  lemma QuietDrop(agent: bool, ticks: seq<Tick>, n: nat)
    requires Quiet(agent, ticks) && n <= |ticks|
    ensures Quiet(agent, ticks[n..])
    ensures n < |ticks| ==> !ticks[n].sigint && (agent ==> !ticks[n].connected)
  {}

  lemma Concat<T>(a: seq<T>, b: seq<T>, c: seq<T>)
    ensures a + b + c == a + (b + c)
  {}

  /** A quiet run gets past block `i`. */
  ghost predicate Passes(cfg: Config, agent: bool, bs: seq<BlockState>, i: nat)
    requires i < |bs|
  {
    !bs[i].kind.Other? && Safe(cfg, agent, bs, i)
  }

  /** A state in which block `i` has been loaded and is being run. */
  ghost predicate Running(s: Ctrl, i: nat) {
    i < |s.blocks| && s.cursor == Some(i) && !s.stop
  }

  /** From tick `j` of an interpolated block to the end of the block. */
  lemma {:induction false} InterpRun(cfg: Config, agent: bool, s: Ctrl, ticks: seq<Tick>, i: nat, j: nat)
    returns (s1: Ctrl)
    requires cfg.Valid() && Running(s, i) && RunnableAt(cfg, s.blocks, i)
    requires s.state.InterpMotion? && Interpolated(s.blocks[i].kind)
    requires s.tBlk == Clock(cfg.tq, j) && Quiet(agent, ticks)
    requires j < Dwell(cfg, s.blocks[i]) && |ticks| >= Dwell(cfg, s.blocks[i]) - j
    ensures Playable(cfg, s.blocks, i)
    ensures Reaches(cfg, agent, s, ticks, Dwell(cfg, s.blocks[i]) - j, s1)
    ensures Running(s1, i) && s1.state.LoadBlock?
    ensures Did(cfg, s, s1, Dwell(cfg, s.blocks[i]) - j, [], Commands(cfg, s.blocks, i)[j..])
    decreases Dwell(cfg, s.blocks[i]) - j
  {
    hide Clock, Reaches, Quiet, Did, Commands, RunnableAt, Playable;
    var bs := s.blocks;
    var cs, n := Commands(cfg, bs, i), Dwell(cfg, bs[i]);
    RunnableMoves(cfg, bs, i);
    CommandsOf(cfg, bs, i);
    var s2 := InterpTickRun(cfg, agent, s, ticks, i, j);
    if j == n - 1 {
      s1 := s2;
      assert cs[j..] == [cs[j]];
    } else {
      QuietDrop(agent, ticks, 1);
      s1 := InterpRun(cfg, agent, s2, ticks[1..], i, j + 1);
      RunsJoin(cfg, agent, s, ticks, 1, s2, [], [cs[j]], n - (j + 1), s1, n - (j + 1), [], cs[j + 1..]);
      assert cs[j..] == [cs[j]] + cs[j + 1..];
    }
  }

  lemma CommandsOf(cfg: Config, bs: seq<BlockState>, i: nat)
    requires i < |bs| && cfg.tq > 0.0 && RunnableAt(cfg, bs, i) && Interpolated(bs[i].kind)
    ensures Playable(cfg, bs, i)
    ensures |Commands(cfg, bs, i)| == Dwell(cfg, bs[i]) == Ticks(cfg.tq, bs[i].profile) + 2
    ensures forall j :: 0 <= j < Dwell(cfg, bs[i]) ==> Commands(cfg, bs, i)[j] == SetpointTick(cfg, bs, i, j)
  {
    hide Ready, CanInterpolate, SetpointOf, Clock;
    RunnableMoves(cfg, bs, i);
  }

  /** One tick of an interpolated block. */
  lemma InterpTickRun(cfg: Config, agent: bool, s: Ctrl, ticks: seq<Tick>, i: nat, j: nat) returns (s1: Ctrl)
    requires cfg.Valid() && Running(s, i) && RunnableAt(cfg, s.blocks, i)
    requires s.state.InterpMotion? && Interpolated(s.blocks[i].kind)
    requires s.tBlk == Clock(cfg.tq, j) && Quiet(agent, ticks) && |ticks| > 0 && j < Dwell(cfg, s.blocks[i])
    ensures Reaches(cfg, agent, s, ticks, 1, s1) && Running(s1, i) && s1.blocks == s.blocks
    ensures Playable(cfg, s.blocks, i) && Did(cfg, s, s1, 1, [], [SetpointTick(cfg, s.blocks, i, j)])
    ensures s1.state == if j == Dwell(cfg, s.blocks[i]) - 1 then LoadBlock else InterpMotion
    ensures s1.tBlk == Clock(cfg.tq, j + 1)
  {
    hide Step, Run, Clock, RunnableAt, Reaches, SetpointOf, CanInterpolate, Ready;
    RunnableMoves(cfg, s.blocks, i);
    InterpTick(cfg, agent, s, ticks[0], i, j);
    ClockOne(cfg.tq);
    s1 := Step(cfg, agent, s, ticks[0]).ctrl;
    ReachesOne(cfg, agent, s, ticks, s1);
  }

  lemma ClockOne(tq: real)
    ensures Clock(tq, 1) == tq && Clock(tq, 0) == 0.0
  {}

  lemma ClockSum(tq: real, m: int, n: int)
    ensures Clock(tq, m) + Clock(tq, n) == Clock(tq, m + n)
  {
    Distribute(m as real, n as real, tq);
  }

  /** One block: from LOAD_BLOCK before it to LOAD_BLOCK after it. */
  lemma BlockRun(cfg: Config, agent: bool, s: Ctrl, ticks: seq<Tick>, bs: seq<BlockState>, i: nat)
    returns (s1: Ctrl)
    requires cfg.Valid() && i < |bs| && Passes(cfg, agent, bs, i) && Loading(s, bs, i) && Quiet(agent, ticks)
    requires |ticks| >= Cost(cfg, bs[i])
    ensures Reaches(cfg, agent, s, ticks, Cost(cfg, bs[i]), s1)
    ensures Loading(s1, bs, i + 1)
    ensures Did(cfg, s, s1, Cost(cfg, bs[i]), [i], Commands(cfg, bs, i))
  {
    hide Clock, Reaches, Quiet, Did, Commands, Dwell, RunnableAt;
    var s2 := LoadRun(cfg, agent, s, ticks, bs, i);
    QuietDrop(agent, ticks, 1);
    var cs, n := Commands(cfg, bs, i), Dwell(cfg, bs[i]);
    DwellOf(cfg, bs[i]);
    if bs[i].kind.Rapid? || bs[i].kind.NoMotion? {
      s1 := OneTickRun(cfg, agent, s2, ticks[1..], i);
    } else {
      s1 := InterpRun(cfg, agent, s2, ticks[1..], i, 0);
      assert cs[0..] == cs;
    }
    DidBlocks(cfg, s2, s1, n, [], cs);
    RunsJoin(cfg, agent, s, ticks, 1, s2, [i], [], n, s1, n, [], cs);
    assert [i] + [] == [i] && [] + cs == cs;
  }

  lemma DwellOf(cfg: Config, b: BlockState)
    requires cfg.tq > 0.0
    ensures !Interpolated(b.kind) ==> Dwell(cfg, b) == 1
    ensures Dwell(cfg, b) >= 1
  {}

  lemma DidBlocks(cfg: Config, s: Ctrl, s1: Ctrl, n: nat, vs: seq<nat>, cs: seq<Setpoint>)
    requires Did(cfg, s, s1, n, vs, cs)
    ensures s1.blocks == s.blocks
  {}

  /** The tick that loads block `i`. */
  lemma LoadRun(cfg: Config, agent: bool, s: Ctrl, ticks: seq<Tick>, bs: seq<BlockState>, i: nat) returns (s1: Ctrl)
    requires cfg.Valid() && i < |bs| && Loading(s, bs, i) && Quiet(agent, ticks) && |ticks| > 0
    ensures Reaches(cfg, agent, s, ticks, 1, s1) && Did(cfg, s, s1, 1, [i], [])
    ensures s1.blocks == bs && Running(s1, i) && s1.state == StateFor(bs[i].kind)
    ensures s1.state.InterpMotion? ==> s1.tBlk == Clock(cfg.tq, 0)
  {
    hide Step, Run, Clock, Reaches;
    LoadTick(cfg, agent, s, ticks[0]);
    ClockOne(cfg.tq);
    s1 := Step(cfg, agent, s, ticks[0]).ctrl;
    ReachesOne(cfg, agent, s, ticks, s1);
  }

  /** A block that takes one tick. */
  lemma OneTickRun(cfg: Config, agent: bool, s: Ctrl, ticks: seq<Tick>, i: nat) returns (s1: Ctrl)
    requires cfg.Valid() && Running(s, i) && Passes(cfg, agent, s.blocks, i) && |ticks| > 0 && Quiet(agent, ticks)
    requires s.blocks[i].kind.Rapid? || s.blocks[i].kind.NoMotion?
    requires s.state == StateFor(s.blocks[i].kind)
    ensures Reaches(cfg, agent, s, ticks, 1, s1)
    ensures Running(s1, i) && s1.state.LoadBlock?
    ensures Did(cfg, s, s1, 1, [], Commands(cfg, s.blocks, i))
  {
    QuietDrop(agent, ticks, 0);
    hide Step, Run, Libm.Valid, Reaches, Quiet, RunnableAt;
    if s.state.RapidMotion? {
      RapidTick(cfg, agent, s, ticks[0], i);
    } else {
      RunnableMoves(cfg, s.blocks, i);
      NoMotionTick(cfg, agent, s, ticks[0], i);
    }
    s1 := Step(cfg, agent, s, ticks[0]).ctrl;
    ReachesOne(cfg, agent, s, ticks, s1);
    ClockOne(cfg.tq);
  }

  /** A machine about to load block `i`, and no signal pending. */
  ghost predicate Loading(s: Ctrl, bs: seq<BlockState>, i: nat) {
    Within(s.cursor, |s.blocks|) && s.blocks == bs && !s.stop && s.state.LoadBlock? && Upcoming(s) == i
  }

  lemma Unrolled(cfg: Config, bs: seq<BlockState>, i: nat, hi: nat)
    requires cfg.tq > 0.0 && i <= hi <= |bs|
    ensures i == hi ==> TotalCost(cfg, bs, i, hi) == 0 && Positions(i, hi) == [] && Stream(cfg, bs, i, hi) == []
    ensures i < hi ==> TotalCost(cfg, bs, i, hi) == Cost(cfg, bs[i]) + TotalCost(cfg, bs, i + 1, hi)
    ensures i < hi ==> Positions(i, hi) == [i] + Positions(i + 1, hi)
    ensures i < hi ==> Stream(cfg, bs, i, hi) == Commands(cfg, bs, i) + Stream(cfg, bs, i + 1, hi)
  {}

  /** Part of a program: from LOAD_BLOCK before block `i` to LOAD_BLOCK before block `hi`. */
  lemma {:induction false} ProgramRun(cfg: Config, agent: bool, s: Ctrl, ticks: seq<Tick>,
                                      bs: seq<BlockState>, i: nat, hi: nat) returns (s1: Ctrl)
    requires cfg.Valid() && i <= hi <= |bs| && Loading(s, bs, i) && Quiet(agent, ticks)
    requires forall k :: i <= k < hi ==> Passes(cfg, agent, bs, k)
    requires |ticks| >= TotalCost(cfg, bs, i, hi)
    ensures Reaches(cfg, agent, s, ticks, TotalCost(cfg, bs, i, hi), s1) && Loading(s1, bs, hi)
    ensures Did(cfg, s, s1, TotalCost(cfg, bs, i, hi), Positions(i, hi), Stream(cfg, bs, i, hi))
    decreases hi - i
  {
    hide Cost, Commands, TotalCost, Stream, Positions, Did, Reaches, Quiet, Clock, Passes, Loading;
    Unrolled(cfg, bs, i, hi);
    if i == hi {
      s1 := s;
      NoTicks(cfg, agent, s, ticks, bs, i);
    } else {
      var c, rest := Cost(cfg, bs[i]), TotalCost(cfg, bs, i + 1, hi);
      var s2 := BlockRun(cfg, agent, s, ticks, bs, i);
      QuietDrop(agent, ticks, c);
      s1 := ProgramRun(cfg, agent, s2, ticks[c..], bs, i + 1, hi);
      RunsJoin(cfg, agent, s, ticks, c, s2, [i], Commands(cfg, bs, i),
               rest, s1, rest, Positions(i + 1, hi), Stream(cfg, bs, i + 1, hi));
    }
  }

  lemma NoTicks(cfg: Config, agent: bool, s: Ctrl, ticks: seq<Tick>, bs: seq<BlockState>, i: nat)
    requires cfg.Valid() && Loading(s, bs, i)
    ensures Reaches(cfg, agent, s, ticks, 0, s) && Did(cfg, s, s, 0, [], [])
  {
    hide Run, Config.Valid;
    assert ticks[0..] == ticks;
  }

  /** One stretch of a run after another. */
  lemma RunsJoin(cfg: Config, agent: bool, s: Ctrl, ticks: seq<Tick>, m: nat, s1: Ctrl, vs: seq<nat>, cs: seq<Setpoint>,
                 n: nat, s2: Ctrl, time: nat, ws: seq<nat>, ds: seq<Setpoint>)
    requires cfg.Valid() && Reaches(cfg, agent, s, ticks, m, s1) && Reaches(cfg, agent, s1, ticks[m..], n, s2)
    requires Did(cfg, s, s1, m, vs, cs) && Did(cfg, s1, s2, time, ws, ds)
    ensures Reaches(cfg, agent, s, ticks, m + n, s2) && Did(cfg, s, s2, m + time, vs + ws, cs + ds)
  {
    ReachesMore(cfg, agent, s, ticks, m, s1, n, s2);
    DidMore(cfg, s, s1, s2, m, vs, cs, time, ws, ds);
  }

  /** LOAD_BLOCK after the last block. */
  lemma EndRun(cfg: Config, agent: bool, s: Ctrl, ticks: seq<Tick>) returns (s1: Ctrl)
    requires cfg.Valid() && Within(s.cursor, |s.blocks|) && !s.stop && s.state.LoadBlock?
    requires Upcoming(s) == |s.blocks| && |ticks| > 0 && Quiet(agent, ticks)
    ensures Reaches(cfg, agent, s, ticks, 1, s1) && Did(cfg, s, s1, 0, [], [])
    ensures s1.state.Idle? && s1.done && s1.cursor == None && !s1.stop
  {
    hide Step, Run, Clock, Reaches;
    LoadTick(cfg, agent, s, ticks[0]);
    s1 := Step(cfg, agent, s, ticks[0]).ctrl;
    ReachesOne(cfg, agent, s, ticks, s1);
    ClockOne(cfg.tq);
  }

  /** The tick that starts a program, when SPACE is pressed in IDLE and no signal is pending. */
  lemma StartRun(cfg: Config, agent: bool, s: Ctrl, ticks: seq<Tick>) returns (s1: Ctrl)
    requires cfg.Valid() && Within(s.cursor, |s.blocks|) && !s.stop && s.state.Idle?
    requires |ticks| > 0 && Quiet(agent, ticks) && ticks[0].key.Space?
    ensures Reaches(cfg, agent, s, ticks, 1, s1) && Loading(s1, s.blocks, 0)
    ensures s1.tTot == 0.0 && s1.visited == s.visited && s1.sent == s.sent
  {
    IdleTick(cfg, agent, s, ticks[0]);
    QuietDrop(agent, ticks, 0);
    hide Step, Run, Quiet, Config.Valid;
    s1 := Step(cfg, agent, s, ticks[0]).ctrl;
    ReachesOne(cfg, agent, s, ticks, s1);
  }

  /** From IDLE, when SPACE is pressed, to LOAD_BLOCK before block `hi`. */
  lemma PartRun(cfg: Config, agent: bool, s: Ctrl, ticks: seq<Tick>, hi: nat) returns (s1: Ctrl)
    requires cfg.Valid() && Within(s.cursor, |s.blocks|) && !s.stop && s.state.Idle? && hi <= |s.blocks|
    requires forall k :: 0 <= k < hi ==> Passes(cfg, agent, s.blocks, k)
    requires |ticks| >= TotalCost(cfg, s.blocks, 0, hi) + 1 && Quiet(agent, ticks) && ticks[0].key.Space?
    ensures Reaches(cfg, agent, s, ticks, TotalCost(cfg, s.blocks, 0, hi) + 1, s1) && Loading(s1, s.blocks, hi)
    ensures s1.tTot == Clock(cfg.tq, TotalCost(cfg, s.blocks, 0, hi))
    ensures s1.visited == s.visited + Positions(0, hi) && s1.sent == s.sent + Stream(cfg, s.blocks, 0, hi)
  {
    hide Run, Clock, TotalCost, Quiet, Stream, Positions, Passes, Reaches, Libm.Valid;
    var s2 := StartRun(cfg, agent, s, ticks);
    QuietDrop(agent, ticks, 1);
    s1 := ProgramRun(cfg, agent, s2, ticks[1..], s.blocks, 0, hi);
    ReachesMore(cfg, agent, s, ticks, 1, s2, TotalCost(cfg, s.blocks, 0, hi), s1);
  }

  /** The whole run: from IDLE, when SPACE is pressed on a disconnected machine and no signal comes,
      after two ticks more than the sum over the blocks of 1 + dwell the machine is back in IDLE; it has
      visited each block once, in list order, and commanded exactly the setpoints of each; and the total
      time is `tq` times that sum. */
  lemma WholeRun(cfg: Config, agent: bool, s: Ctrl, ticks: seq<Tick>) returns (s1: Ctrl)
    requires cfg.Valid() && Within(s.cursor, |s.blocks|) && !s.stop && s.state.Idle?
    requires forall k :: 0 <= k < |s.blocks| ==> Passes(cfg, agent, s.blocks, k)
    requires |ticks| == TotalCost(cfg, s.blocks, 0, |s.blocks|) + 2 && Quiet(agent, ticks) && ticks[0].key.Space?
    ensures Run(cfg, agent, s, ticks) == Next(s1)
    ensures s1.state.Idle? && s1.done && s1.blocks == s.blocks
    ensures s1.visited == s.visited + Positions(0, |s.blocks|)
    ensures s1.sent == s.sent + Stream(cfg, s.blocks, 0, |s.blocks|)
    ensures s1.tTot == Clock(cfg.tq, TotalCost(cfg, s.blocks, 0, |s.blocks|))
  {
    hide Run, Clock, TotalCost, Quiet, Stream, Positions, Passes, Reaches, Libm.Valid;
    var n := TotalCost(cfg, s.blocks, 0, |s.blocks|) + 1;
    var s2 := PartRun(cfg, agent, s, ticks, |s.blocks|);
    QuietDrop(agent, ticks, n);
    s1 := EndRun(cfg, agent, s2, ticks[n..]);
    ReachesMore(cfg, agent, s, ticks, n, s2, 1, s1);
    ReachesEnd(cfg, agent, s, ticks, s1);
    DidNothing(cfg, s2, s1);
  }

  lemma DidNothing(cfg: Config, s: Ctrl, s1: Ctrl)
    requires Did(cfg, s, s1, 0, [], [])
    ensures s1.blocks == s.blocks && s1.tTot == s.tTot && s1.visited == s.visited && s1.sent == s.sent
  {}

  lemma ReachesEnd(cfg: Config, agent: bool, s: Ctrl, ticks: seq<Tick>, s1: Ctrl)
    requires cfg.Valid() && Reaches(cfg, agent, s, ticks, |ticks|, s1)
    ensures Run(cfg, agent, s, ticks) == Next(s1)
  {
    hide Step, Config.Valid;
    assert ticks[|ticks|..] == [];
  }
}
