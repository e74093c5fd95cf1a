/** SIGINT (src/fsm.hpp, src/fsm_impl.hpp): a request that comes between ticks stays pending until it
    stops the machine or a rapid motion consumes it, and that takes a bounded number of ticks. */
module StopRequests {
  import opened Numerics
  import opened Machines
  import opened BlockSpec
  import opened ProgramSpec
  import opened ProgramFacts
  import opened FsmSpec
  import opened FsmFacts

  /** A request has been answered: the machine has stopped, or has left a rapid motion for the next block. */
  predicate Answered(s: Ctrl) {
    s.state.Stop? || (s.prev.RapidMotion? && s.state.LoadBlock? && !s.stop)
  }

  /** The blocks that have not been loaded yet. */
  function Unvisited(s: Ctrl): nat
    requires Within(s.cursor, |s.blocks|)
  {
    |s.blocks| - Upcoming(s)
  }

  /** The most ticks that an answer takes. */
  function Patience(s: Ctrl): nat
    requires Within(s.cursor, |s.blocks|)
  {
    match s.state
    case Init => 2
    case LoadBlock => 2 * Unvisited(s) + 2
    case NoMotionBlock => 2 * Unvisited(s) + 3
    case _ => 1
  }

  /** Whether the first block from position `i` on that moves, or has no known type, is a rapid motion. */
  predicate RapidAhead(bs: seq<BlockState>, i: nat)
    decreases |bs| - i
  {
    i < |bs| && (bs[i].kind.Rapid? || (bs[i].kind.NoMotion? && RapidAhead(bs, i + 1)))
  }

  /** Whether a rapid motion will consume a request that is pending now. */
  predicate RapidTakes(s: Ctrl) {
    s.state.RapidMotion? || ((s.state.LoadBlock? || s.state.NoMotionBlock?) && RapidAhead(s.blocks, Upcoming(s)))
  }

  /** A tick that answers nothing keeps the request pending, brings the answer nearer, and does not change
      which answer it will be. */
  lemma StepPending(cfg: Config, agent: bool, s: Ctrl, t: Tick)
    requires cfg.Valid() && Inv(cfg, agent, s) && Pending(s, t)
    ensures Step(cfg, agent, s, t).Next?
    ensures var s1 := Step(cfg, agent, s, t).ctrl;
      && Inv(cfg, agent, s1)
      && if Answered(s1) then s1.state.Stop? <==> !RapidTakes(s)
         else s1.stop && Patience(s1) < Patience(s) && (RapidTakes(s1) <==> RapidTakes(s))
  {
    hide Step, Sane, SafeAll, RunnableAt, Libm.Valid, SetpointOf, Clock, Arrived, LoadedFile;
    StepKeeps(cfg, agent, s, t);
    DispatchedSafe(cfg, agent, s);
    match s.state
    case Init => InitTick(cfg, agent, s, t);
    case Idle => IdleTick(cfg, agent, s, t);
    case LoadBlock => LoadTick(cfg, agent, s, t);
    case RapidMotion => RapidTick(cfg, agent, s, t, s.cursor.value);
    case InterpMotion => InterpTick(cfg, agent, s, t, s.cursor.value, BlockTick(cfg, s));
    case NoMotionBlock => NoMotionTick(cfg, agent, s, t, s.cursor.value);
    case GoToZero => ZeroTick(cfg, agent, s, t);
    case Stop => StopTick(cfg, agent, s, t);
  }

  lemma RunPrefix(cfg: Config, agent: bool, s: Ctrl, ticks: seq<Tick>, i: nat)
    requires cfg.Valid() && Within(s.cursor, |s.blocks|) && 1 <= i <= |ticks| && Step(cfg, agent, s, ticks[0]).Next?
    ensures var s1 := Step(cfg, agent, s, ticks[0]).ctrl;
      && Within(s1.cursor, |s1.blocks|)
      && Run(cfg, agent, s, ticks[..i]) ==
           if s1.state.Stop? then Next(s1) else Run(cfg, agent, s1, ticks[1..][..i - 1])
  {
    hide Step;
    StepWithin(cfg, agent, s, ticks[0]);
    assert ticks[..i][1..] == ticks[1..][..i - 1];
  }

  /** A signal is never lost. With `m` blocks not loaded yet, after at most 2m + 3 ticks the machine has
      stopped, or a rapid motion has consumed the request and gone on to LOAD_BLOCK: the latter exactly when
      the machine is in RAPID_MOTION, or about to load, and the first block ahead that is not NO_MOTION is
      rapid. From IDLE, INTERP_MOTION and GO_TO_ZERO the machine stops at once. */
  lemma {:induction false} PendingStop(cfg: Config, agent: bool, s: Ctrl, ticks: seq<Tick>) returns (i: nat)
    requires cfg.Valid() && Inv(cfg, agent, s)
    requires |ticks| >= Patience(s) && Pending(s, ticks[0])
    ensures 1 <= i <= Patience(s) <= 2 * Unvisited(s) + 3
    ensures s.state.Idle? || s.state.InterpMotion? || s.state.GoToZero? ==> i == 1
    ensures Run(cfg, agent, s, ticks[..i]).Next? && Answered(Run(cfg, agent, s, ticks[..i]).ctrl)
    ensures Run(cfg, agent, s, ticks[..i]).ctrl.state.Stop? <==> !RapidTakes(s)
    decreases |ticks|
  {
    hide Step, Dispatched, SafeAll, Sane, RapidTakes, Libm.Valid;
    StepPending(cfg, agent, s, ticks[0]);
    var s1 := Step(cfg, agent, s, ticks[0]).ctrl;
    if Answered(s1) {
      i := 1;
      RunPrefix(cfg, agent, s, ticks, 1);
    } else {
      var j := PendingStop(cfg, agent, s1, ticks[1..]);
      i := j + 1;
      RunPrefix(cfg, agent, s, ticks, i);
    }
  }

  /** While interpolating, a pending request goes nowhere but to STOP. */
  lemma InterpStops(cfg: Config, agent: bool, s: Ctrl, t: Tick)
    requires cfg.Valid() && Inv(cfg, agent, s) && s.state.InterpMotion? && Pending(s, t)
    ensures Step(cfg, agent, s, t).Next? && Step(cfg, agent, s, t).ctrl.state.Stop?
  {
    hide Step, SafeAll, RunnableAt, Sane, SetpointOf, Clock, Libm.Valid;
    DispatchedSafe(cfg, agent, s);
    InterpTick(cfg, agent, s, t, s.cursor.value, BlockTick(cfg, s));
  }

  /** RAPID_MOTION never stops the machine, although its wrapper tests the flag: the state function has
      cleared it by then. A request there only skips the rest of the motion. */
  lemma RapidNeverStops(cfg: Config, agent: bool, s: Ctrl, t: Tick)
    requires cfg.Valid() && Inv(cfg, agent, s) && s.state.RapidMotion?
    ensures Step(cfg, agent, s, t).Next?
    ensures var s1 := Step(cfg, agent, s, t).ctrl;
      !s1.state.Stop? && !s1.stop && (Pending(s, t) ==> s1.state.LoadBlock?)
  {
    hide Step, SafeAll, RunnableAt, Sane, Libm.Valid, Arrived;
    DispatchedSafe(cfg, agent, s);
    RapidTick(cfg, agent, s, t, s.cursor.value);
  }

  // ----- homing without a broker -----

  /** Without an agent no tick makes the error available. */
  lemma StepNoError(cfg: Config, s: Ctrl, t: Tick)
    requires cfg.Valid() && Within(s.cursor, |s.blocks|) && s.axes.error.None? && Step(cfg, false, s, t).Next?
    ensures Step(cfg, false, s, t).ctrl.axes.error.None?
  {
    hide Step, SetpointAt, CanInterpolate, LoadedFile, Config.Valid;
    StepIs(cfg, false, s, t);
    match s.state
    case Init =>
    case Idle =>
    case LoadBlock =>
    case RapidMotion =>
    case InterpMotion =>
    case NoMotionBlock =>
    case GoToZero =>
    case Stop =>
    case NoChange =>
  }

  lemma {:induction false} RunNoError(cfg: Config, s: Ctrl, ticks: seq<Tick>)
    requires cfg.Valid() && Within(s.cursor, |s.blocks|) && s.axes.error.None? && Run(cfg, false, s, ticks).Next?
    ensures Run(cfg, false, s, ticks).ctrl.axes.error.None?
    decreases |ticks|
  {
    hide Step, Libm.Valid;
    if ticks != [] {
      StepNoError(cfg, s, ticks[0]);
      StepWithin(cfg, false, s, ticks[0]);
      var s1 := Step(cfg, false, s, ticks[0]).ctrl;
      if !s1.state.Stop? {
        RunNoError(cfg, s1, ticks[1..]);
      }
    }
  }

  predicate Signal(ticks: seq<Tick>) {
    exists j :: 0 <= j < |ticks| && ticks[j].sigint
  }

  /** From a machine that has just been set up without an agent, however it has been run since, homing goes on
      for ever unless a signal comes, and a signal stops it. */
  lemma HomingNeedsBroker(cfg: Config, axes: Axes, before: seq<Tick>, s: Ctrl, ticks: seq<Tick>)
    requires cfg.Valid() && axes.error.None? && Run(cfg, false, NewCtrl(axes), before) == Next(s)
    requires s.state.GoToZero? && Within(s.cursor, |s.blocks|)
    ensures Run(cfg, false, s, ticks).Next?
    ensures Run(cfg, false, s, ticks).ctrl.state ==
      if ticks != [] && (s.stop || Signal(ticks)) then Stop else GoToZero
  {
    hide Run, Libm.Valid;
    RunNoError(cfg, NewCtrl(axes), before);
    HomingRun(cfg, s, ticks);
  }

  lemma {:induction false} HomingRun(cfg: Config, s: Ctrl, ticks: seq<Tick>)
    requires cfg.Valid() && Within(s.cursor, |s.blocks|) && s.state.GoToZero? && s.axes.error.None?
    ensures Run(cfg, false, s, ticks).Next?
    ensures Run(cfg, false, s, ticks).ctrl.state ==
      if ticks != [] && (s.stop || Signal(ticks)) then Stop else GoToZero
    decreases |ticks|
  {
    hide Step, Libm.Valid;
    if ticks != [] {
      ZeroTick(cfg, false, s, ticks[0]);
      StepNoError(cfg, s, ticks[0]);
      var s1 := Step(cfg, false, s, ticks[0]).ctrl;
      if s.stop || ticks[0].sigint {
        assert s1.state.Stop?;
      } else {
        HomingRun(cfg, s1, ticks[1..]);
        SignalLater(ticks);
      }
    }
  }

  lemma SignalLater(ticks: seq<Tick>)
    requires ticks != [] && !ticks[0].sigint
    ensures Signal(ticks) <==> ticks[1..] != [] && Signal(ticks[1..])
  {
    if Signal(ticks) {
      var j :| 0 <= j < |ticks| && ticks[j].sigint;
      assert ticks[1..][j - 1].sigint;
    }
    if Signal(ticks[1..]) {
      var j :| 0 <= j < |ticks[1..]| && ticks[1..][j].sigint;
      assert ticks[j + 1].sigint;
    }
  }
}
