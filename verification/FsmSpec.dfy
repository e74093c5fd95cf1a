/** One tick of the execution state machine (src/fsm.hpp, src/fsm_impl.hpp), as a function of its state
    and of what the outside world does at that tick. */
module FsmSpec {
  import opened Numerics
  import opened Points
  import opened Machines
  import opened BlockSpec
  import opened ProgramSpec

  datatype State =
    | Init | Idle | LoadBlock | RapidMotion | InterpMotion | NoMotionBlock | GoToZero | Stop
    | NoChange

  datatype Key = Space | Reload | ZeroKey | Quit | OtherKey

  /** What one tick meets: whether SIGINT came before it, the key that IDLE reads, the lines of the
      program file, whether the broker is connected, and the position that it replies with. */
  datatype Tick = Tick(sigint: bool, key: Key, file: Option<seq<FileLine>>, connected: bool, reply: Option<Point>)

  /** A commanded setpoint, and the block that it belongs to. */
  datatype Setpoint = Setpoint(block: Option<nat>, point: Point)

  /** The state pair, the stop flag, the clocks, the program with its cursor and the axes; `visited` and
      `sent` record the blocks loaded and the setpoints commanded. */
  datatype Ctrl = Ctrl(
    state: State, prev: State, stop: bool, tTot: real, tBlk: real,
    blocks: seq<BlockState>, cursor: Cursor, done: bool, axes: Axes,
    visited: seq<nat>, sent: seq<Setpoint>)

  /** A machine that has just been set up. */
  function NewCtrl(axes: Axes): Ctrl {
    Ctrl(Init, Init, false, 0.0, 0.0, [], None, false, axes, [], [])
  }

  /** Whether a signal is pending at a tick. */
  predicate Pending(s: Ctrl, t: Tick) {
    s.stop || t.sigint
  }

  /** Why a tick can fail: the end iterator is dereferenced, a block that is not parsed is used, an
      undefined coordinate is read, or a profile is not a number. */
  datatype Fault = EndDereferenced | UnparsedBlock | UndefinedCoordinate | NotANumber

  datatype Move = Throws(fault: Fault) | Goes(ctrl: Ctrl, to: State)

  datatype Outcome = Failed(fault: Fault) | Next(ctrl: Ctrl)

  // ----- state functions -----

  function WithProgram(s: Ctrl, bs: seq<BlockState>): Ctrl {
    s.(blocks := bs, cursor := None, done := false)
  }

  function DoInit(cfg: Config, s: Ctrl, t: Tick): Move
    requires cfg.Valid()
  {
    var (bs, e) := LoadedFile(cfg, s.axes.error, [], t.file, false);
    if e.None? then Goes(WithProgram(s, bs), Idle) else Goes(s, Stop)
  }

  function DoIdle(cfg: Config, s: Ctrl, t: Tick): Move
    requires cfg.Valid()
  {
    match t.key
    case Space => Goes(s, LoadBlock)
    case Reload =>
      if t.file.None? then Goes(s, NoChange)
      else Goes(WithProgram(s, LoadedFile(cfg, s.axes.error, s.blocks, t.file, false).0), NoChange)
    case ZeroKey => Goes(s, GoToZero)
    case Quit => Goes(s, Stop)
    case OtherKey => Goes(s, NoChange)
  }

  /** The state that runs a block of a given type. */
  function StateFor(k: Kind): State {
    match k
    case NoMotion => NoMotionBlock
    case Rapid => RapidMotion
    case Line => InterpMotion
    case Cwa => InterpMotion
    case Ccwa => InterpMotion
    case Other(_) => Idle
  }

  function DoLoadBlock(cfg: Config, s: Ctrl): Move
    requires Within(s.cursor, |s.blocks|)
  {
    var c := NextCursor(s.cursor, |s.blocks|);
    var s1 := s.(cursor := c, done := c.None?);
    if c.None? then Goes(s1, Idle)
    else Goes(s1.(tTot := s.tTot + cfg.tq, visited := s.visited + [c.value]), StateFor(s.blocks[c.value].kind))
  }

  /** `set_setpoint`, for block `b`. */
  function Send(cfg: Config, agent: bool, s: Ctrl, b: Option<nat>, p: Point, t: Tick): Option<Ctrl> {
    var axes := Commanded(cfg.libm, agent, s.axes, p, t.reply);
    if axes.None? then None else Some(s.(axes := axes.value, sent := s.sent + [Setpoint(b, p)]))
  }

  /** Whether the position is within the machine's tolerance: never while the error is not available. */
  predicate Arrived(cfg: Config, ax: Axes) {
    ax.error.Some? && ax.error.value < cfg.maxError
  }

  function DoRapidMotion(cfg: Config, agent: bool, s: Ctrl, t: Tick): Move
    requires Within(s.cursor, |s.blocks|)
  {
    if s.cursor.None? then Throws(EndDereferenced)
    else
      var sent := Send(cfg, agent, s, s.cursor, s.blocks[s.cursor.value].target, t);
      if sent.None? then Throws(UndefinedCoordinate)
      else
        var s1 := sent.value.(tTot := s.tTot + cfg.tq, tBlk := s.tBlk + cfg.tq);
        if s.stop then Goes(s1.(stop := false), LoadBlock)
        else if agent && t.connected && !Arrived(cfg, s1.axes) then Goes(s1, NoChange)
        else Goes(s1, LoadBlock)
  }

  /** Where the motion of block `i` starts. */
  function StartAt(cfg: Config, bs: seq<BlockState>, i: nat): Point
    requires i < |bs|
  {
    StartOf(cfg, Prev(bs, i))
  }

  function DoInterpMotion(cfg: Config, agent: bool, s: Ctrl, t: Tick): Move
    requires Within(s.cursor, |s.blocks|)
  {
    if s.cursor.None? then Throws(EndDereferenced)
    else
      var b, start := s.blocks[s.cursor.value], StartAt(cfg, s.blocks, s.cursor.value);
      if !b.parsed then Throws(UnparsedBlock)
      else if !b.profile.Planned? || b.profile.l == 0.0 then Throws(NotANumber)
      else if !CanInterpolate(start, b) then Throws(UndefinedCoordinate)
      else
        var sent := Send(cfg, agent, s, s.cursor, SetpointAt(cfg.libm, start, b, s.tBlk), t);
        if sent.None? then Throws(UndefinedCoordinate)
        else
          var to := if s.tBlk > b.profile.dt + cfg.tq / 10.0 then LoadBlock else NoChange;
          Goes(sent.value.(tTot := s.tTot + cfg.tq, tBlk := s.tBlk + cfg.tq), to)
  }

  function DoNoMotion(cfg: Config, s: Ctrl): Move
    requires Within(s.cursor, |s.blocks|)
  {
    if s.cursor.None? then Throws(EndDereferenced)
    else if !s.blocks[s.cursor.value].parsed then Throws(UnparsedBlock)
    else Goes(s.(tTot := s.tTot + cfg.tq), LoadBlock)
  }

  function DoGoToZero(cfg: Config, agent: bool, s: Ctrl, t: Tick): Move {
    var sent := Send(cfg, agent, s, None, cfg.zero, t);
    if sent.None? then Throws(UndefinedCoordinate)
    else Goes(sent.value, if Arrived(cfg, sent.value.axes) then Idle else NoChange)
  }

  // ----- wrappers, transitions and the tick -----

  /** The wrappers of `install_functions`: a result that the state does not allow becomes NO_CHANGE, and
      in some states the stop flag overrides it. */
  function Filter(from: State, to: State, stop: bool): State {
    match from
    case Init => if to.Idle? || to.Stop? then to else NoChange
    case Idle => if stop then Stop else if to.Idle? || to.LoadBlock? || to.Stop? || to.GoToZero? then to else NoChange
    case LoadBlock => if to.NoMotionBlock? || to.RapidMotion? || to.InterpMotion? || to.Idle? then to else NoChange
    case RapidMotion => if stop then Stop else if to.RapidMotion? || to.LoadBlock? then to else NoChange
    case InterpMotion => if stop then Stop else if to.InterpMotion? || to.LoadBlock? then to else NoChange
    case NoMotionBlock => if to.LoadBlock? then to else NoChange
    case GoToZero => if stop then Stop else if to.GoToZero? || to.Idle? then to else NoChange
    case Stop => NoChange
    case NoChange => NoChange
  }

  function Do(cfg: Config, agent: bool, s: Ctrl, t: Tick): Move
    requires cfg.Valid() && Within(s.cursor, |s.blocks|)
  {
    match s.state
    case Init => DoInit(cfg, s, t)
    case Idle => DoIdle(cfg, s, t)
    case LoadBlock => DoLoadBlock(cfg, s)
    case RapidMotion => DoRapidMotion(cfg, agent, s, t)
    case InterpMotion => DoInterpMotion(cfg, agent, s, t)
    case NoMotionBlock => DoNoMotion(cfg, s)
    case GoToZero => DoGoToZero(cfg, agent, s, t)
    case Stop => Goes(s, NoChange)
    case NoChange => Goes(s, NoChange)
  }

  /** The transition functions: `reset`, `begin_rapid` and `begin_interp`. */
  function Transition(s: Ctrl): Ctrl {
    if s.prev.Idle? && s.state.LoadBlock? then s.(cursor := None, done := false, tTot := 0.0, tBlk := 0.0)
    else if s.prev.LoadBlock? && (s.state.RapidMotion? || s.state.InterpMotion?) then s.(tBlk := 0.0)
    else s
  }

  function Signalled(s: Ctrl, t: Tick): Ctrl {
    if t.sigint then s.(stop := true) else s
  }

  /** `eval_state`, after a signal that may have come since the tick before. */
  function Step(cfg: Config, agent: bool, s: Ctrl, t: Tick): Outcome
    requires cfg.Valid() && Within(s.cursor, |s.blocks|)
  {
    match Do(cfg, agent, Signalled(s, t), t)
    case Throws(f) => Failed(f)
    case Goes(s1, to) =>
      var next := Filter(s.state, to, s1.stop);
      Next(Transition(s1.(prev := s.state, state := if next.NoChange? then s.state else next)))
  }

  /** The loop of `run` over the ticks that are given: it ends after the tick that enters STOP. */
  function Run(cfg: Config, agent: bool, s: Ctrl, ticks: seq<Tick>): Outcome
    requires cfg.Valid() && Within(s.cursor, |s.blocks|)
    decreases |ticks|
  {
    if ticks == [] then Next(s)
    else
      match Step(cfg, agent, s, ticks[0])
      case Failed(f) => Failed(f)
      case Next(s1) =>
        StepWithin(cfg, agent, s, ticks[0]);
        if s1.state.Stop? then Next(s1) else Run(cfg, agent, s1, ticks[1..])
  }

  /** The cursor stays an iterator of the list. */
  lemma DoWithin(cfg: Config, agent: bool, s: Ctrl, t: Tick)
    requires cfg.Valid() && Within(s.cursor, |s.blocks|)
    ensures Do(cfg, agent, s, t).Goes? ==> var s1 := Do(cfg, agent, s, t).ctrl; Within(s1.cursor, |s1.blocks|)
  {
    hide LoadedFile, SetpointAt, CanInterpolate, Arrived, StateFor, Config.Valid, Commanded;
    match s.state
    case Init =>
    case Idle =>
    case LoadBlock =>
    case RapidMotion =>
    case InterpMotion =>
    case NoMotionBlock =>
    case GoToZero =>
    case Stop =>
    case NoChange =>
  }

  /** A tick, given what its state function did. */
  lemma StepIs(cfg: Config, agent: bool, s: Ctrl, t: Tick)
    requires cfg.Valid() && Within(s.cursor, |s.blocks|)
    ensures match Do(cfg, agent, Signalled(s, t), t)
      case Throws(f) => Step(cfg, agent, s, t) == Failed(f)
      case Goes(s1, to) =>
        var next := Filter(s.state, to, s1.stop);
        Step(cfg, agent, s, t) ==
          Next(Transition(s1.(prev := s.state, state := if next.NoChange? then s.state else next)))
  {
    hide Do, Filter, Transition, Config.Valid;
  }

  lemma StepWithin(cfg: Config, agent: bool, s: Ctrl, t: Tick)
    requires cfg.Valid() && Within(s.cursor, |s.blocks|)
    ensures Step(cfg, agent, s, t).Next? ==> var s1 := Step(cfg, agent, s, t).ctrl; Within(s1.cursor, |s1.blocks|)
  {
    hide Do, Filter, Config.Valid;
    DoWithin(cfg, agent, Signalled(s, t), t);
  }
}
