/** What every run records (src/fsm_impl.hpp): which blocks it has visited since the program was last started,
    how much time it counts for them and what it commands, whatever keys, signals, files and positions it
    meets. */
module Journals {
  import opened Numerics
  import opened Machines
  import opened Profiles
  import opened BlockSpec
  import opened ProgramSpec
  import opened ProgramFacts
  import opened FsmSpec
  import opened FsmFacts
  import opened FsmRuns

  /** Since the last IDLE to LOAD_BLOCK: the blocks visited and the setpoints sent before it, how many setpoints
      have been sent for each block that has been loaded, and how many ticks have loaded a block or run one. */
  datatype Journal = Journal(before: seq<nat>, sentBefore: seq<Setpoint>, counts: seq<nat>, ticks: nat)

  /** One more setpoint for the last block. */
  function Raised(counts: seq<nat>): seq<nat> {
    if counts == [] then [] else counts[..|counts| - 1] + [counts[|counts| - 1] + 1]
  }

  /** The journal after a tick from `s` to `s1`. */
  function Noted(s: Ctrl, s1: Ctrl, j: Journal): Journal {
    if s.state.Idle? && s1.state.LoadBlock? then Journal(s.visited, s.sent, [], 0)
    else if s.state.LoadBlock? && s1.cursor.Some? then j.(counts := j.counts + [0], ticks := j.ticks + 1)
    else if s.state.RapidMotion? || s.state.InterpMotion? then j.(counts := Raised(j.counts), ticks := j.ticks + 1)
    else if s.state.NoMotionBlock? then j.(ticks := j.ticks + 1)
    else j
  }

  /** The journal after a run. */
  function JournalOf(cfg: Config, agent: bool, s: Ctrl, ticks: seq<Tick>, j: Journal): Journal
    requires cfg.Valid() && Within(s.cursor, |s.blocks|)
    decreases |ticks|
  {
    if ticks == [] then j
    else
      match Step(cfg, agent, s, ticks[0])
      case Failed(_) => j
      case Next(s1) =>
        StepWithin(cfg, agent, s, ticks[0]);
        if s1.state.Stop? then Noted(s, s1, j) else JournalOf(cfg, agent, s1, ticks[1..], Noted(s, s1, j))
  }

  /** The blocks visited since the last start are the first ones of the list, each once and in order; while
      the program is run, the last of them is the one under the cursor; and the total time is a tick for
      each tick that loaded or ran a block. */
  ghost predicate Logged(cfg: Config, s: Ctrl, j: Journal) {
    && s.visited == j.before + Positions(0, |j.counts|)
    && s.tTot == Clock(cfg.tq, j.ticks)
    && (Busy(s) ==> |j.counts| == Upcoming(s))
  }

  lemma {:induction false} PositionsSnoc(lo: nat, hi: nat)
    requires lo <= hi
    ensures Positions(lo, hi + 1) == Positions(lo, hi) + [hi]
    decreases hi - lo
  {
    if lo < hi {
      PositionsSnoc(lo + 1, hi);
    }
  }

  lemma MotionTick(cfg: Config, agent: bool, s: Ctrl, t: Tick)
    requires cfg.Valid() && Within(s.cursor, |s.blocks|) && Step(cfg, agent, s, t).Next?
    requires s.state.RapidMotion? || s.state.InterpMotion? || s.state.NoMotionBlock?
    ensures var s1 := Step(cfg, agent, s, t).ctrl;
      s1.visited == s.visited && s1.tTot == s.tTot + cfg.tq && s1.cursor == s.cursor
  {
    hide Config.Valid, Step, SetpointAt, CanInterpolate, Arrived, Commanded;
    StepIs(cfg, agent, s, t);
    match s.state
    case RapidMotion =>
    case InterpMotion =>
    case NoMotionBlock =>
  }

  lemma StepLogged(cfg: Config, agent: bool, s: Ctrl, t: Tick, j: Journal)
    requires cfg.Valid() && Within(s.cursor, |s.blocks|) && Logged(cfg, s, j) && Step(cfg, agent, s, t).Next?
    ensures var s1 := Step(cfg, agent, s, t).ctrl; Logged(cfg, s1, Noted(s, s1, j))
  {
    hide Step, Clock, Positions, LoadedFile, Arrived, Config.Valid;
    var s1 := Step(cfg, agent, s, t).ctrl;
    NextClock(cfg.tq, j.ticks);
    PositionsSnoc(0, |j.counts|);
    NoPositions(cfg.tq);
    match s.state
    case Init => InitTick(cfg, agent, s, t);
    case Idle => IdleTick(cfg, agent, s, t);
    case LoadBlock => LoadTick(cfg, agent, s, t);
    case RapidMotion => MotionTick(cfg, agent, s, t);
    case InterpMotion => MotionTick(cfg, agent, s, t);
    case NoMotionBlock => MotionTick(cfg, agent, s, t);
    case GoToZero => ZeroTick(cfg, agent, s, t);
    case Stop => StopTick(cfg, agent, s, t);
    case NoChange => NoChangeTick(cfg, agent, s, t);
  }

  lemma NoPositions(tq: real)
    ensures Positions(0, 0) == [] && Clock(tq, 0) == 0.0
  {}

  lemma NoChangeTick(cfg: Config, agent: bool, s: Ctrl, t: Tick)
    requires cfg.Valid() && Within(s.cursor, |s.blocks|) && s.state.NoChange?
    ensures Step(cfg, agent, s, t) == Next(s.(prev := NoChange, stop := Pending(s, t)))
  {
    hide Config.Valid;
  }

  /** Every run that does not fail keeps its journal. */
  lemma {:induction false} RunLogged(cfg: Config, agent: bool, s: Ctrl, ticks: seq<Tick>, j: Journal)
    requires cfg.Valid() && Within(s.cursor, |s.blocks|) && Logged(cfg, s, j) && Run(cfg, agent, s, ticks).Next?
    ensures Logged(cfg, Run(cfg, agent, s, ticks).ctrl, JournalOf(cfg, agent, s, ticks, j))
    decreases |ticks|
  {
    hide Step, Logged, Noted, Libm.Valid;
    if ticks != [] {
      StepLogged(cfg, agent, s, ticks[0], j);
      StepWithin(cfg, agent, s, ticks[0]);
      var s1 := Step(cfg, agent, s, ticks[0]).ctrl;
      if !s1.state.Stop? {
        RunLogged(cfg, agent, s1, ticks[1..], Noted(s, s1, j));
      }
    }
  }

  /** A machine that has just been set up has an empty journal. */
  lemma StartLogged(cfg: Config, axes: Axes)
    ensures Logged(cfg, NewCtrl(axes), Journal([], [], [], 0))
  {}

  // ----- what is commanded -----

  /** The first `n` setpoints for block `i`: a rapid motion repeats its target while it waits. */
  ghost function SaidFor(cfg: Config, bs: seq<BlockState>, i: nat, n: nat): seq<Setpoint>
    requires i < |bs|
  {
    if bs[i].kind.Rapid? then seq(n, _ => Setpoint(Some(i), bs[i].target))
    else if CanMove(cfg, bs, i) then seq(n, j requires 0 <= j => SetpointTick(cfg, bs, i, j))
    else []
  }

  /** The setpoints for the first blocks, by the number for each. */
  ghost function Said(cfg: Config, bs: seq<BlockState>, counts: seq<nat>): seq<Setpoint>
    requires |counts| <= |bs|
  {
    if counts == [] then []
    else
      var i := |counts| - 1;
      Said(cfg, bs, counts[..i]) + SaidFor(cfg, bs, i, counts[i])
  }

  /** The number of setpoints for a block that has been left for the next. */
  ghost predicate Finished(cfg: Config, b: BlockState, n: nat)
    requires cfg.tq > 0.0
  {
    if b.kind.Rapid? then n >= 1 else if Interpolated(b.kind) then n == Dwell(cfg, b) else n == 0
  }

  /** The number for the block under way. */
  ghost predicate UnderWay(cfg: Config, s: Ctrl, b: BlockState, n: nat)
    requires cfg.tq > 0.0
  {
    match s.state
    case RapidMotion => b.kind.Rapid?
    case InterpMotion => Interpolated(b.kind) && n < Dwell(cfg, b) && s.tBlk == Clock(cfg.tq, n)
    case NoMotionBlock => b.kind.NoMotion? && n == 0
    case Stop => Interpolated(b.kind) && n <= Dwell(cfg, b)
    case _ => Finished(cfg, b, n)
  }

  /** The setpoints sent since the last start are those of the blocks loaded since then: all of them for each
      block that has been left, and the first ones of the block under way. */
  ghost predicate Told(cfg: Config, s: Ctrl, j: Journal)
    requires cfg.tq > 0.0
  {
    && |j.counts| <= |s.blocks|
    && s.sent == j.sentBefore + Said(cfg, s.blocks, j.counts)
    && (forall i :: 0 <= i < |j.counts| - 1 ==> Finished(cfg, s.blocks[i], j.counts[i]))
    && (j.counts != [] ==> UnderWay(cfg, s, s.blocks[|j.counts| - 1], j.counts[|j.counts| - 1]))
  }

  /** The program is being run, or was at the tick before. */
  predicate Ran(s: Ctrl) {
    Busy(s) || s.prev.LoadBlock? || s.prev.RapidMotion? || s.prev.InterpMotion? || s.prev.NoMotionBlock?
  }

  lemma SaidMore(cfg: Config, bs: seq<BlockState>, counts: seq<nat>)
    requires |counts| < |bs|
    ensures Said(cfg, bs, counts + [0]) == Said(cfg, bs, counts)
  {
    hide SetpointTick, CanMove;
    assert (counts + [0])[..|counts|] == counts;
  }

  lemma SaidRaised(cfg: Config, bs: seq<BlockState>, counts: seq<nat>)
    requires 0 < |counts| <= |bs|
    requires bs[|counts| - 1].kind.Rapid? || CanMove(cfg, bs, |counts| - 1)
    ensures var i, n := |counts| - 1, counts[|counts| - 1];
      && |Raised(counts)| == |counts| && Raised(counts)[..i] == counts[..i] && Raised(counts)[i] == n + 1
      && Said(cfg, bs, Raised(counts)) == Said(cfg, bs, counts) +
           [if bs[i].kind.Rapid? then Setpoint(Some(i), bs[i].target) else SetpointTick(cfg, bs, i, n)]
  {
    hide SetpointTick, CanMove;
    var i, n := |counts| - 1, counts[|counts| - 1];
    assert Raised(counts)[..i] == counts[..i];
    var next := if bs[i].kind.Rapid? then Setpoint(Some(i), bs[i].target) else SetpointTick(cfg, bs, i, n);
    assert SaidFor(cfg, bs, i, n + 1) == SaidFor(cfg, bs, i, n) + [next];
  }

  /** A block is loaded. */
  lemma ToldLoaded(cfg: Config, s: Ctrl, s1: Ctrl, j: Journal, j1: Journal)
    requires cfg.tq > 0.0 && s.state.LoadBlock? && Told(cfg, s, j) && |j.counts| < |s.blocks|
    requires s1.blocks == s.blocks && s1.sent == s.sent
    requires j1.sentBefore == j.sentBefore && j1.counts == j.counts + [0]
    requires UnderWay(cfg, s1, s.blocks[|j.counts|], 0)
    ensures Told(cfg, s1, j1)
  {
    hide Said, UnderWay, Finished;
    SaidMore(cfg, s.blocks, j.counts);
    forall i | 0 <= i < |j1.counts| - 1
      ensures Finished(cfg, s.blocks[i], j1.counts[i])
    {
      if i == |j.counts| - 1 {
        LastFinished(cfg, s, s.blocks[i], j.counts[i]);
      }
    }
  }

  lemma LastFinished(cfg: Config, s: Ctrl, b: BlockState, n: nat)
    requires cfg.tq > 0.0 && s.state.LoadBlock? && UnderWay(cfg, s, b, n)
    ensures Finished(cfg, b, n)
  {}

  /** A setpoint is sent for the block under way. */
  lemma ToldRaised(cfg: Config, s: Ctrl, s1: Ctrl, j: Journal, j1: Journal)
    requires cfg.tq > 0.0 && Told(cfg, s, j) && j.counts != [] && s1.blocks == s.blocks
    requires j1.sentBefore == j.sentBefore && j1.counts == Raised(j.counts)
    requires var i, n := |j.counts| - 1, j.counts[|j.counts| - 1];
      && (s.blocks[i].kind.Rapid? || CanMove(cfg, s.blocks, i))
      && s1.sent == s.sent + [if s.blocks[i].kind.Rapid? then Setpoint(Some(i), s.blocks[i].target)
                              else SetpointTick(cfg, s.blocks, i, n)]
      && UnderWay(cfg, s1, s.blocks[i], n + 1)
    ensures Told(cfg, s1, j1)
  {
    hide Said, UnderWay, Finished, Raised, CanMove, SetpointTick;
    SaidRaised(cfg, s.blocks, j.counts);
    forall k | 0 <= k < |j1.counts| - 1
      ensures Finished(cfg, s.blocks[k], j1.counts[k])
    {
      assert j1.counts[k] == j1.counts[..|j.counts| - 1][k] == j.counts[..|j.counts| - 1][k];
    }
  }

  lemma LoadTold(cfg: Config, agent: bool, s: Ctrl, t: Tick, j: Journal)
    requires cfg.Valid() && Inv(cfg, agent, s) && s.state.LoadBlock? && Logged(cfg, s, j) && Told(cfg, s, j)
    ensures Step(cfg, agent, s, t).Next?
    ensures var s1 := Step(cfg, agent, s, t).ctrl; Told(cfg, s1, Noted(s, s1, j))
  {
    LoadTick(cfg, agent, s, t);
    var s1, i := Step(cfg, agent, s, t).ctrl, Upcoming(s);
    hide Step, SafeAll, Safe, Sane, Told, UnderWay, Clock, Libm.Valid, Positions, Dispatched;
    if i < |s.blocks| {
      SafeEach(cfg, agent, s.blocks, i);
      NewlyUnderWay(cfg, agent, s1, i);
      ToldLoaded(cfg, s, s1, j, Noted(s, s1, j));
    } else {
      ToldEnded(cfg, s, s1, j);
    }
  }

  /** The end of the program is reached. */
  lemma ToldEnded(cfg: Config, s: Ctrl, s1: Ctrl, j: Journal)
    requires cfg.tq > 0.0 && s.state.LoadBlock? && Told(cfg, s, j) && s1.state.Idle?
    requires s1.blocks == s.blocks && s1.sent == s.sent
    ensures Told(cfg, s1, j)
  {
    hide Said, Finished;
  }

  lemma NewlyUnderWay(cfg: Config, agent: bool, s: Ctrl, i: nat)
    requires cfg.Valid() && i < |s.blocks| && Safe(cfg, agent, s.blocks, i) && s.state == StateFor(s.blocks[i].kind)
    requires s.state.InterpMotion? ==> s.tBlk == 0.0
    ensures UnderWay(cfg, s, s.blocks[i], 0)
  {
    hide RunnableAt, Libm.Valid;
    ClockOne(cfg.tq);
    DwellOf(cfg, s.blocks[i]);
  }

  lemma RapidTold(cfg: Config, agent: bool, s: Ctrl, t: Tick, j: Journal)
    requires cfg.Valid() && Inv(cfg, agent, s) && s.state.RapidMotion? && Logged(cfg, s, j) && Told(cfg, s, j)
    ensures Step(cfg, agent, s, t).Next?
    ensures var s1 := Step(cfg, agent, s, t).ctrl; Told(cfg, s1, Noted(s, s1, j))
  {
    DispatchedSafe(cfg, agent, s);
    RapidTick(cfg, agent, s, t, s.cursor.value);
    var s1 := Step(cfg, agent, s, t).ctrl;
    hide Step, SafeAll, Said, Arrived, Sane, Raised, Libm.Valid, Positions, Clock;
    ToldRaised(cfg, s, s1, j, Noted(s, s1, j));
  }

  lemma InterpTold(cfg: Config, agent: bool, s: Ctrl, t: Tick, j: Journal)
    requires cfg.Valid() && Inv(cfg, agent, s) && s.state.InterpMotion? && Logged(cfg, s, j) && Told(cfg, s, j)
    ensures Step(cfg, agent, s, t).Next?
    ensures var s1 := Step(cfg, agent, s, t).ctrl; Told(cfg, s1, Noted(s, s1, j))
  {
    hide Step, SafeAll, RunnableAt, Said, Sane, Raised, Clock, SetpointOf, CanInterpolate, BlockTick, Libm.Valid,
      Positions;
    var i := s.cursor.value;
    var n := j.counts[i];
    DispatchedSafe(cfg, agent, s);
    RunnableMoves(cfg, s.blocks, i);
    InterpTick(cfg, agent, s, t, i, n);
    var s1 := Step(cfg, agent, s, t).ctrl;
    assert Dwell(cfg, s.blocks[i]) == Ticks(cfg.tq, s.blocks[i].profile) + 2;
    ToldRaised(cfg, s, s1, j, Noted(s, s1, j));
  }

  /** Every tick keeps this part of the journal while a program is run. */
  lemma StepTold(cfg: Config, agent: bool, s: Ctrl, t: Tick, j: Journal)
    requires cfg.Valid() && Inv(cfg, agent, s) && StartFine(agent, s, t) && Logged(cfg, s, j)
    requires Ran(s) ==> Told(cfg, s, j)
    ensures Step(cfg, agent, s, t).Next?
    ensures var s1 := Step(cfg, agent, s, t).ctrl; Ran(s1) ==> Told(cfg, s1, Noted(s, s1, j))
  {
    hide Step, SafeAll, Sane, Libm.Valid, Said, Clock, LoadedFile, Arrived, Positions, RunnableAt;
    StepKeeps(cfg, agent, s, t);
    match s.state
    case Init => InitTick(cfg, agent, s, t);
    case Idle =>
      IdleTick(cfg, agent, s, t);
      NothingSaid(cfg, s.blocks);
    case LoadBlock => LoadTold(cfg, agent, s, t, j);
    case RapidMotion => RapidTold(cfg, agent, s, t, j);
    case InterpMotion => InterpTold(cfg, agent, s, t, j);
    case NoMotionBlock =>
      DispatchedSafe(cfg, agent, s);
      NoMotionTick(cfg, agent, s, t, s.cursor.value);
    case GoToZero => ZeroTick(cfg, agent, s, t);
    case Stop => StopTick(cfg, agent, s, t);
  }

  lemma NothingSaid(cfg: Config, bs: seq<BlockState>)
    ensures Said(cfg, bs, []) == []
  {}

  /** Every run whose starts find a list that holds keeps its whole journal, whatever else it meets. */
  lemma {:induction false} RunTold(cfg: Config, agent: bool, s: Ctrl, ticks: seq<Tick>, j: Journal)
    requires cfg.Valid() && Inv(cfg, agent, s) && RunFine(cfg, agent, s, ticks)
    requires Logged(cfg, s, j) && (Ran(s) ==> Told(cfg, s, j))
    ensures Run(cfg, agent, s, ticks).Next?
    ensures var s1, j1 := Run(cfg, agent, s, ticks).ctrl, JournalOf(cfg, agent, s, ticks, j);
      Logged(cfg, s1, j1) && (Ran(s1) ==> Told(cfg, s1, j1))
    decreases |ticks|
  {
    hide Step, Logged, Noted, Told, Ran, Inv, StartFine, Libm.Valid;
    InvWithin(cfg, agent, s);
    if ticks != [] {
      StepKeeps(cfg, agent, s, ticks[0]);
      StepTold(cfg, agent, s, ticks[0], j);
      StepLogged(cfg, agent, s, ticks[0], j);
      StepWithin(cfg, agent, s, ticks[0]);
      var s1 := Step(cfg, agent, s, ticks[0]).ctrl;
      if !s1.state.Stop? {
        RunTold(cfg, agent, s1, ticks[1..], Noted(s, s1, j));
      }
    }
  }
}
