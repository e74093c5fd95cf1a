/** What every run of the state machine keeps, and what the run of a whole program does. */
module FsmFacts {
  import opened Numerics
  import opened Points
  import opened Machines
  import opened Profiles
  import opened BlockSpec
  import opened BlockFacts
  import opened ProgramSpec
  import opened ProgramFacts
  import opened FsmSpec

  // ----- programs that can be run -----

  /** A block that is parsed to start where the block before it ends, and whose profile, if it needs one,
      is planned. */
  ghost predicate RunnableAt(cfg: Config, bs: seq<BlockState>, i: nat)
    requires i < |bs|
  {
    && Ready(cfg, StartAt(cfg, bs, i), bs[i])
    && (Interpolated(bs[i].kind) ==> Moving(cfg, StartAt(cfg, bs, i), bs[i]))
  }

  ghost predicate Runnable(cfg: Config, bs: seq<BlockState>) {
    forall i :: 0 <= i < |bs| ==> RunnableAt(cfg, bs, i)
  }

  /** Every parsed block that is to be interpolated has a profile: its length and feedrate are positive. */
  predicate PlannedAll(bs: seq<BlockState>) {
    forall i :: 0 <= i < |bs| && bs[i].parsed && Interpolated(bs[i].kind) ==> bs[i].profile.Planned?
  }

  /** A list that any history of edits leaves behind can be run when it is parsed throughout and planned. */
  lemma SaneRunnable(cfg: Config, bs: seq<BlockState>)
    requires Sane(cfg, bs) && AllParsed(bs) && PlannedAll(bs)
    ensures Runnable(cfg, bs)
  {
    hide Ready, Made;
    forall i | 0 <= i < |bs|
      ensures RunnableAt(cfg, bs, i)
    {
      assert Follows(cfg, bs, i);
    }
  }

  /** Loading a file without fault leaves a program that can be run, if its motions are planned. */
  lemma LoadRunnable(cfg: Config, error: Option<real>, bs: seq<BlockState>, file: Option<seq<FileLine>>)
    requires cfg.Valid()
    requires var (bs1, e) := LoadedFile(cfg, error, bs, file, false); e.None? && PlannedAll(bs1)
    ensures Runnable(cfg, LoadedFile(cfg, error, bs, file, false).0)
  {
    hide Loaded, Follows;
    LoadSane(cfg, error, [], file.value);
    LoadKeeps(cfg, error, [], file.value);
    SaneRunnable(cfg, Loaded(cfg, error, [], file.value).0);
  }

  /** A block that is not parsed makes the machine throw: when it is to be interpolated, when it is printed in
      NO_MOTION, and when an agent is to be sent a target that is not complete. */
  predicate Breaks(agent: bool, b: BlockState) {
    && !b.parsed
    && (Interpolated(b.kind) || b.kind.NoMotion? || (b.kind.Rapid? && agent && !b.target.Complete()))
  }

  /** No list breaks a run but by its last block. */
  predicate Holds(agent: bool, bs: seq<BlockState>) {
    |bs| > 0 ==> !Breaks(agent, bs[|bs| - 1])
  }

  /** A block that no tick throws on: it can be run, or is a rapid motion that the machine accepts as a
      setpoint, parsed or not, or has no known type and is not run at all. */
  ghost predicate Safe(cfg: Config, agent: bool, bs: seq<BlockState>, i: nat)
    requires i < |bs|
  {
    if bs[i].kind.Rapid? then agent ==> bs[i].target.Complete()
    else bs[i].kind.Other? || RunnableAt(cfg, bs, i)
  }

  ghost predicate SafeAll(cfg: Config, agent: bool, bs: seq<BlockState>) {
    forall i :: 0 <= i < |bs| ==> Safe(cfg, agent, bs, i)
  }

  lemma SafeEach(cfg: Config, agent: bool, bs: seq<BlockState>, i: nat)
    requires SafeAll(cfg, agent, bs) && i < |bs|
    ensures Safe(cfg, agent, bs, i)
  {
    hide Safe;
  }

  /** In a list that any history of edits leaves behind, its parsed motions planned, every block is safe
      exactly when the last one does not break a run. */
  lemma SaneSafe(cfg: Config, agent: bool, bs: seq<BlockState>)
    requires Sane(cfg, bs) && PlannedAll(bs)
    ensures SafeAll(cfg, agent, bs) <==> Holds(agent, bs)
  {
    hide Ready, Made;
    forall i | 0 <= i < |bs|
      ensures Safe(cfg, agent, bs, i) <==> !Breaks(agent, bs[i])
      ensures i < |bs| - 1 ==> !Breaks(agent, bs[i])
    {
      SaneSafeAt(cfg, agent, bs, i);
    }
  }

  lemma SaneSafeAt(cfg: Config, agent: bool, bs: seq<BlockState>, i: nat)
    requires Sane(cfg, bs) && PlannedAll(bs) && i < |bs|
    ensures Safe(cfg, agent, bs, i) <==> !Breaks(agent, bs[i])
    ensures i < |bs| - 1 ==> !Breaks(agent, bs[i])
  {
    hide Made, CanInterpolate;
    assert Follows(cfg, bs, i);
    if bs[i].parsed {
      assert RunnableAt(cfg, bs, i);
      RunnableMoves(cfg, bs, i);
    }
  }

  // ----- the invariant -----

  /** The tick of the block clock. */
  function BlockTick(cfg: Config, s: Ctrl): int
    requires cfg.tq > 0.0
  {
    (s.tBlk / cfg.tq).Floor
  }

  /** In the states that run a block the cursor is on a block of a matching type, and while interpolating
      the block clock is a whole number of ticks, at most one more than the block lasts. */
  ghost predicate Dispatched(cfg: Config, s: Ctrl)
    requires cfg.tq > 0.0 && Within(s.cursor, |s.blocks|)
  {
    match s.state
    case RapidMotion => s.cursor.Some? && s.blocks[s.cursor.value].kind.Rapid?
    case NoMotionBlock => s.cursor.Some? && s.blocks[s.cursor.value].kind.NoMotion?
    case InterpMotion =>
      && s.cursor.Some?
      && var b := s.blocks[s.cursor.value];
      && Interpolated(b.kind) && b.profile.Planned?
      && s.tBlk == Clock(cfg.tq, BlockTick(cfg, s)) && 0 <= BlockTick(cfg, s) <= Ticks(cfg.tq, b.profile) + 1
    case NoChange => false
    case _ => true
  }

  /** The states in which a program is being run. */
  predicate Busy(s: Ctrl) {
    s.state.LoadBlock? || s.state.RapidMotion? || s.state.InterpMotion? || s.state.NoMotionBlock?
  }

  /** The list is always one that some history of edits leaves behind; while it is being run, it is safe. */
  ghost predicate Inv(cfg: Config, agent: bool, s: Ctrl)
    requires cfg.tq > 0.0
  {
    && Within(s.cursor, |s.blocks|) && (s.done ==> s.cursor.None?)
    && Sane(cfg, s.blocks) && (Busy(s) ==> SafeAll(cfg, agent, s.blocks)) && Dispatched(cfg, s)
  }

  lemma InvStarts(cfg: Config, agent: bool, axes: Axes)
    requires cfg.Valid()
    ensures Inv(cfg, agent, NewCtrl(axes))
  {}

  /** A tick that starts the program finds a list whose last block does not break the run, and whose parsed
      motions are planned. Reloads before that may fail, and even the last one. */
  predicate StartFine(agent: bool, s: Ctrl, t: Tick) {
    s.state.Idle? && t.key.Space? && !Pending(s, t) ==> Holds(agent, s.blocks) && PlannedAll(s.blocks)
  }

  // ----- one tick in each state -----

  lemma TickOfClock(cfg: Config, s: Ctrl, j: int)
    requires cfg.tq > 0.0 && s.tBlk == Clock(cfg.tq, j)
    ensures BlockTick(cfg, s) == j
  {
    FloorOfMultiple(j, cfg.tq, s.tBlk);
  }

  /** The test of `do_interp_motion`, with its tolerance, at tick `j` of a block that lasts `k` ticks. */
  lemma EndOfBlock(tq: real, j: int, k: int)
    requires tq > 0.0
    ensures Clock(tq, j) > Clock(tq, k) + tq / 10.0 <==> j > k
  {
    if j > k {
      ClockOrder(tq, k + 1, j);
      NextClock(tq, k);
    } else {
      ClockOrder(tq, j, k);
    }
  }

  lemma CompleteSends(cfg: Config, agent: bool, s: Ctrl, b: Option<nat>, p: Point, t: Tick)
    requires agent ==> p.Complete()
    ensures Send(cfg, agent, s, b, p, t).Some?
    ensures var s1 := Send(cfg, agent, s, b, p, t).value; s1 == s.(axes := s1.axes, sent := s.sent + [Setpoint(b, p)])
    ensures !agent ==> Send(cfg, agent, s, b, p, t).value.axes == s.axes.(setpoint := p)
  {}

  /** Whether block `i` is interpolated, and can be. */
  predicate CanMove(cfg: Config, bs: seq<BlockState>, i: nat)
    requires i < |bs|
  {
    && Interpolated(bs[i].kind) && CanInterpolate(StartAt(cfg, bs, i), bs[i])
    && bs[i].profile.Planned? && bs[i].profile.l != 0.0
  }

  /** The setpoint of block `i` at time `t` of its clock. */
  function SetpointOf(cfg: Config, bs: seq<BlockState>, i: nat, t: real): Point
    requires i < |bs| && CanMove(cfg, bs, i)
  {
    SetpointAt(cfg.libm, StartAt(cfg, bs, i), bs[i], t)
  }

  lemma RunnableMoves(cfg: Config, bs: seq<BlockState>, i: nat)
    requires i < |bs| && RunnableAt(cfg, bs, i)
    ensures bs[i].parsed && bs[i].target.Complete()
    ensures Interpolated(bs[i].kind) ==>
      && Moving(cfg, StartAt(cfg, bs, i), bs[i]) && CanInterpolate(StartAt(cfg, bs, i), bs[i])
      && bs[i].profile.l > 0.0 && Whole(cfg.tq, bs[i].profile)
  {
    hide Plan, Plannable;
    if Interpolated(bs[i].kind) {
      MovingSound(cfg, StartAt(cfg, bs, i), bs[i]);
    }
  }

  /** A tick of INTERP_MOTION at whatever time the block clock shows. */
  lemma InterpAt(cfg: Config, agent: bool, s: Ctrl, t: Tick, i: nat)
    requires cfg.Valid() && Within(s.cursor, |s.blocks|) && s.cursor == Some(i) && RunnableAt(cfg, s.blocks, i)
    requires s.state.InterpMotion? && Interpolated(s.blocks[i].kind)
    ensures Step(cfg, agent, s, t).Next? && CanMove(cfg, s.blocks, i)
    ensures var s1 := Step(cfg, agent, s, t).ctrl;
      && s1 == s.(prev := InterpMotion,
                  state := if Pending(s, t) then Stop
                           else if s.tBlk > s.blocks[i].profile.dt + cfg.tq / 10.0 then LoadBlock
                           else InterpMotion,
                  stop := Pending(s, t),
                  tTot := s.tTot + cfg.tq, tBlk := s.tBlk + cfg.tq, axes := s1.axes,
                  sent := s.sent + [Setpoint(Some(i), SetpointOf(cfg, s.blocks, i, s.tBlk))])
  {
    hide Do, SetpointAt, CanInterpolate, Ready, RunnableAt, Send, Config.Valid, Step, StartAt;
    RunnableMoves(cfg, s.blocks, i);
    InterpDo(cfg, agent, Signalled(s, t), t, i);
    StepIs(cfg, agent, s, t);
  }

  lemma InterpDo(cfg: Config, agent: bool, s: Ctrl, t: Tick, i: nat)
    requires cfg.Valid() && Within(s.cursor, |s.blocks|) && s.cursor == Some(i) && RunnableAt(cfg, s.blocks, i)
    requires s.state.InterpMotion? && Interpolated(s.blocks[i].kind)
    ensures CanMove(cfg, s.blocks, i) && Do(cfg, agent, s, t).Goes?
    ensures Do(cfg, agent, s, t).to ==
      if s.tBlk > s.blocks[i].profile.dt + cfg.tq / 10.0 then LoadBlock else NoChange
    ensures var s1 := Do(cfg, agent, s, t).ctrl;
      s1 == s.(tTot := s.tTot + cfg.tq, tBlk := s.tBlk + cfg.tq, axes := s1.axes,
               sent := s.sent + [Setpoint(Some(i), SetpointOf(cfg, s.blocks, i, s.tBlk))])
  {
    RunnableMoves(cfg, s.blocks, i);
    hide SetpointAt, CanInterpolate, Ready, RunnableAt, Send, Config.Valid;
    CompleteSends(cfg, agent, s, Some(i), SetpointOf(cfg, s.blocks, i, s.tBlk), t);
    SetpointComplete(cfg, s.blocks, i, s.tBlk);
  }

  /** A tick of INTERP_MOTION at tick `j` of a block clock. */
  lemma InterpTick(cfg: Config, agent: bool, s: Ctrl, t: Tick, i: nat, j: int)
    requires cfg.Valid() && Within(s.cursor, |s.blocks|) && s.cursor == Some(i) && RunnableAt(cfg, s.blocks, i)
    requires s.state.InterpMotion? && Interpolated(s.blocks[i].kind) && s.tBlk == Clock(cfg.tq, j)
    ensures Step(cfg, agent, s, t).Next? && CanMove(cfg, s.blocks, i)
    ensures var s1 := Step(cfg, agent, s, t).ctrl; var k := Ticks(cfg.tq, s.blocks[i].profile);
      && s1 == s.(prev := InterpMotion,
                  state := if Pending(s, t) then Stop else if j > k then LoadBlock else InterpMotion,
                  stop := Pending(s, t),
                  tTot := s.tTot + cfg.tq, tBlk := Clock(cfg.tq, j + 1), axes := s1.axes,
                  sent := s.sent + [Setpoint(Some(i), SetpointOf(cfg, s.blocks, i, Clock(cfg.tq, j)))])
  {
    hide Do, Clock, CanInterpolate, RunnableAt, Step, SetpointOf, Ticks;
    RunnableMoves(cfg, s.blocks, i);
    InterpAt(cfg, agent, s, t, i);
    EndOfBlock(cfg.tq, j, Ticks(cfg.tq, s.blocks[i].profile));
    NextClock(cfg.tq, j);
  }

  lemma SetpointComplete(cfg: Config, bs: seq<BlockState>, i: nat, t: real)
    requires i < |bs| && CanMove(cfg, bs, i)
    ensures SetpointOf(cfg, bs, i, t).Complete()
  {}

  /** A tick of RAPID_MOTION: without an agent it does not matter whether the block is parsed. */
  lemma RapidTick(cfg: Config, agent: bool, s: Ctrl, t: Tick, i: nat)
    requires cfg.Valid() && Within(s.cursor, |s.blocks|) && s.cursor == Some(i)
    requires s.state.RapidMotion? && (agent ==> s.blocks[i].target.Complete())
    ensures Step(cfg, agent, s, t).Next?
    ensures var s1 := Step(cfg, agent, s, t).ctrl;
      && s1 == s.(prev := RapidMotion,
                  state := if Pending(s, t) || !agent || !t.connected || Arrived(cfg, s1.axes) then LoadBlock
                           else RapidMotion,
                  stop := false,
                  tTot := s.tTot + cfg.tq, tBlk := s.tBlk + cfg.tq, axes := s1.axes,
                  sent := s.sent + [Setpoint(Some(i), s.blocks[i].target)])
  {
    hide Send, Config.Valid, Arrived;
    CompleteSends(cfg, agent, Signalled(s, t), Some(i), s.blocks[i].target, t);
  }

  lemma NoMotionTick(cfg: Config, agent: bool, s: Ctrl, t: Tick, i: nat)
    requires cfg.Valid() && Within(s.cursor, |s.blocks|) && s.cursor == Some(i)
    requires s.state.NoMotionBlock? && s.blocks[i].parsed
    ensures Step(cfg, agent, s, t) ==
      Next(s.(prev := NoMotionBlock, state := LoadBlock, stop := Pending(s, t), tTot := s.tTot + cfg.tq))
  {
    hide Config.Valid;
  }

  /** The position that `load_next` goes to. */
  function Upcoming(s: Ctrl): nat {
    if s.cursor.None? then 0 else s.cursor.value + 1
  }

  lemma LoadTick(cfg: Config, agent: bool, s: Ctrl, t: Tick)
    requires cfg.Valid() && Within(s.cursor, |s.blocks|) && s.state.LoadBlock?
    ensures Step(cfg, agent, s, t).Next?
    ensures var s1, i := Step(cfg, agent, s, t).ctrl, Upcoming(s);
      s1 == if i < |s.blocks|
            then var to := StateFor(s.blocks[i].kind);
              s.(prev := LoadBlock, state := to, stop := Pending(s, t), cursor := Some(i), done := false,
                 tTot := s.tTot + cfg.tq, tBlk := if to.RapidMotion? || to.InterpMotion? then 0.0 else s.tBlk,
                 visited := s.visited + [i])
            else s.(prev := LoadBlock, state := Idle, stop := Pending(s, t), cursor := None, done := true)
  {
    hide Config.Valid, Step;
    StepIs(cfg, agent, s, t);
    assert Do(cfg, agent, Signalled(s, t), t) == DoLoadBlock(cfg, Signalled(s, t));
  }

  lemma IdleTick(cfg: Config, agent: bool, s: Ctrl, t: Tick)
    requires cfg.Valid() && Within(s.cursor, |s.blocks|) && s.state.Idle?
    ensures Step(cfg, agent, s, t).Next?
    ensures var s1 := Step(cfg, agent, s, t).ctrl;
      && s1.prev == Idle && s1.stop == Pending(s, t)
      && s1.visited == s.visited && s1.sent == s.sent && (!s1.state.LoadBlock? ==> s1.tTot == s.tTot)
      && (Pending(s, t) ==> s1.state.Stop?)
      && (!Pending(s, t) ==>
          match t.key
          case Space =>
            s1 == s.(prev := Idle, state := LoadBlock, cursor := None, done := false, tTot := 0.0, tBlk := 0.0)
          case Reload => s1.state.Idle?
          case ZeroKey => s1 == s.(prev := Idle, state := GoToZero)
          case Quit => s1 == s.(prev := Idle, state := Stop)
          case OtherKey => s1 == s.(prev := Idle))
      && (if t.key.Reload? && t.file.Some?
          then s1.blocks == LoadedFile(cfg, s.axes.error, s.blocks, t.file, false).0 && s1.cursor == None && !s1.done
          else s1.blocks == s.blocks && (s1.cursor, s1.done) in {(s.cursor, s.done), (None, false)})
  {
    hide Config.Valid, LoadedFile;
  }

  lemma ZeroTick(cfg: Config, agent: bool, s: Ctrl, t: Tick)
    requires cfg.Valid() && Within(s.cursor, |s.blocks|) && s.state.GoToZero?
    ensures Step(cfg, agent, s, t).Next?
    ensures var s1 := Step(cfg, agent, s, t).ctrl;
      && s1 == s.(prev := GoToZero,
                  state := if Pending(s, t) then Stop else if Arrived(cfg, s1.axes) then Idle else GoToZero,
                  stop := Pending(s, t), axes := s1.axes, sent := s.sent + [Setpoint(None, cfg.zero)])
  {
    assert cfg.zero.Complete();
    hide Config.Valid, Arrived, Send;
    CompleteSends(cfg, agent, Signalled(s, t), None, cfg.zero, t);
  }

  // ----- every run -----

  /** The dispatch invariant: no tick fails, and every tick keeps the invariant. In particular the end
      iterator is never dereferenced and `interpolate` never throws. */
  lemma StepKeeps(cfg: Config, agent: bool, s: Ctrl, t: Tick)
    requires cfg.Valid() && Inv(cfg, agent, s) && StartFine(agent, s, t)
    ensures Step(cfg, agent, s, t).Next? && Inv(cfg, agent, Step(cfg, agent, s, t).ctrl)
  {
    hide Step, SafeAll, RunnableAt, Sane, Config.Valid, SetpointOf, Arrived;
    DispatchedSafe(cfg, agent, s);
    match s.state
    case Init => InitKeeps(cfg, agent, s, t);
    case Idle => IdleKeeps(cfg, agent, s, t);
    case LoadBlock => LoadKeepsInv(cfg, agent, s, t);
    case RapidMotion => RapidTick(cfg, agent, s, t, s.cursor.value);
    case InterpMotion => InterpKeeps(cfg, agent, s, t);
    case NoMotionBlock => NoMotionTick(cfg, agent, s, t, s.cursor.value);
    case GoToZero => ZeroTick(cfg, agent, s, t);
    case Stop => StopTick(cfg, agent, s, t);
  }

  /** The block that is being run is safe, and so can be, unless it is rapid. */
  lemma DispatchedSafe(cfg: Config, agent: bool, s: Ctrl)
    requires cfg.Valid() && Inv(cfg, agent, s)
    ensures s.state.RapidMotion? ==> agent ==> s.blocks[s.cursor.value].target.Complete()
    ensures s.state.InterpMotion? ==> RunnableAt(cfg, s.blocks, s.cursor.value)
    ensures s.state.NoMotionBlock? ==> s.blocks[s.cursor.value].parsed
  {
    hide SafeAll, Sane, RunnableAt, BlockTick, Clock;
    if s.state.RapidMotion? || s.state.InterpMotion? || s.state.NoMotionBlock? {
      SafeEach(cfg, agent, s.blocks, s.cursor.value);
      if s.state.NoMotionBlock? {
        RunnableMoves(cfg, s.blocks, s.cursor.value);
      }
    }
  }

  lemma StopTick(cfg: Config, agent: bool, s: Ctrl, t: Tick)
    requires cfg.Valid() && Within(s.cursor, |s.blocks|) && s.state.Stop?
    ensures Step(cfg, agent, s, t) == Next(s.(prev := Stop, stop := Pending(s, t)))
  {
    hide Config.Valid;
  }

  /** INIT: only a file that loads without error leaves a program. */
  lemma InitTick(cfg: Config, agent: bool, s: Ctrl, t: Tick)
    requires cfg.Valid() && Within(s.cursor, |s.blocks|) && s.state.Init?
    ensures Step(cfg, agent, s, t).Next?
    ensures var (bs, e) := LoadedFile(cfg, s.axes.error, [], t.file, false);
      Step(cfg, agent, s, t).ctrl ==
        if e.None?
        then s.(prev := Init, state := Idle, stop := Pending(s, t), blocks := bs, cursor := None, done := false)
        else s.(prev := Init, state := Stop, stop := Pending(s, t))
  {
    hide LoadedFile, Config.Valid, Step;
    StepIs(cfg, agent, s, t);
    assert Do(cfg, agent, Signalled(s, t), t) == DoInit(cfg, Signalled(s, t), t);
  }

  /** A load from scratch leaves a sane list, failed or not. */
  lemma FileSane(cfg: Config, error: Option<real>, bs: seq<BlockState>, file: Option<seq<FileLine>>)
    requires cfg.Valid() && file.Some?
    ensures Sane(cfg, LoadedFile(cfg, error, bs, file, false).0)
  {
    hide Loaded;
    LoadSane(cfg, error, [], file.value);
  }

  lemma InitKeeps(cfg: Config, agent: bool, s: Ctrl, t: Tick)
    requires cfg.Valid() && Inv(cfg, agent, s) && s.state.Init?
    ensures Step(cfg, agent, s, t).Next? && Inv(cfg, agent, Step(cfg, agent, s, t).ctrl)
  {
    hide SafeAll, Sane, Loaded, Config.Valid, Step;
    InitTick(cfg, agent, s, t);
    if t.file.Some? {
      FileSane(cfg, s.axes.error, [], t.file);
    }
  }

  lemma IdleKeeps(cfg: Config, agent: bool, s: Ctrl, t: Tick)
    requires cfg.Valid() && Inv(cfg, agent, s) && StartFine(agent, s, t) && s.state.Idle?
    ensures Step(cfg, agent, s, t).Next? && Inv(cfg, agent, Step(cfg, agent, s, t).ctrl)
  {
    hide SafeAll, Sane, LoadedFile, PlannedAll, Holds, Config.Valid, Step;
    IdleTick(cfg, agent, s, t);
    if t.key.Reload? && t.file.Some? {
      FileSane(cfg, s.axes.error, s.blocks, t.file);
    }
    if t.key.Space? && !Pending(s, t) {
      SaneSafe(cfg, agent, s.blocks);
    }
  }

  lemma LoadKeepsInv(cfg: Config, agent: bool, s: Ctrl, t: Tick)
    requires cfg.Valid() && Inv(cfg, agent, s) && s.state.LoadBlock?
    ensures Step(cfg, agent, s, t).Next? && Inv(cfg, agent, Step(cfg, agent, s, t).ctrl)
  {
    LoadTick(cfg, agent, s, t);
    var s1, i := Step(cfg, agent, s, t).ctrl, Upcoming(s);
    hide SafeAll, RunnableAt, Sane, Config.Valid, Step, Ready;
    if i < |s.blocks| {
      SafeEach(cfg, agent, s.blocks, i);
      if s1.state.InterpMotion? {
        RunnableMoves(cfg, s.blocks, i);
        assert Clock(cfg.tq, 0) == 0.0;
        TickOfClock(cfg, s1, 0);
      }
    }
  }

  lemma InterpKeeps(cfg: Config, agent: bool, s: Ctrl, t: Tick)
    requires cfg.Valid() && Inv(cfg, agent, s) && s.state.InterpMotion?
    ensures Step(cfg, agent, s, t).Next? && Inv(cfg, agent, Step(cfg, agent, s, t).ctrl)
  {
    hide SafeAll, RunnableAt, Sane, Step, SetpointOf, Clock, BlockTick;
    var i, j := s.cursor.value, BlockTick(cfg, s);
    DispatchedSafe(cfg, agent, s);
    InterpTick(cfg, agent, s, t, i, j);
    TickOfClock(cfg, Step(cfg, agent, s, t).ctrl, j + 1);
  }
}
