/** The `FiniteStateMachine` class (src/fsm.hpp) with its state functions (src/fsm_impl.hpp): state that
    every tick updates in place, proved against the tick function of FsmSpec. */
module Fsms {
  import opened Numerics
  import opened Points
  import opened Machines
  import opened BlockSpec
  import opened Blocks
  import opened ProgramSpec
  import opened Programs
  import opened FsmSpec

  /** What a state function did to the view of the machine, by its two results. */
  ghost predicate Matches(m: Move, to: State, fault: Option<Fault>, view: Ctrl) {
    match m
    case Throws(f) => fault == Some(f)
    case Goes(s, next) => fault.None? && to == next && view == s
  }

  ghost predicate Stepped(o: Outcome, fault: Option<Fault>, view: Ctrl) {
    match o
    case Failed(f) => fault == Some(f)
    case Next(s) => fault.None? && view == s
  }

  class Fsm {
    const machine: Machine
    var program: Program
    var state: State
    var prev: State
    var stopRequested: bool
    var tTot: real
    var tBlk: real
    ghost var visited: seq<nat>
    ghost var sent: seq<Setpoint>

    ghost predicate Valid()
      reads this, program, program.blocks
    {
      program.machine == machine && program.Valid()
    }

    ghost function View(): Ctrl
      reads this, machine, program, program.blocks
    {
      Ctrl(state, prev, stopRequested, tTot, tBlk, program.States(), program.current, program.done,
           machine.View(), visited, sent)
    }

    /** The program and its blocks are the ones there were, or new. */
    twostate predicate Kept()
      reads this, program
    {
      && (program == old(program) || fresh(program))
      && forall i :: 0 <= i < |program.blocks| ==> program.blocks[i] in old(program.blocks) || fresh(program.blocks[i])
    }

    constructor (machine: Machine)
      requires machine.cfg.Valid()
      ensures Valid() && this.machine == machine && fresh(program) && program.blocks == []
      ensures View() == Ctrl(Init, Init, false, 0.0, 0.0, [], None, false, machine.View(), [], [])
    {
      this.machine := machine;
      program := new Program(machine);
      state, prev, stopRequested := Init, Init, false;
      tTot, tBlk := 0.0, 0.0;
      visited, sent := [], [];
    }

    // ----- state functions -----

    method DoInit(t: Tick) returns (to: State)
      requires Valid()
      modifies this`program
      ensures Valid() && Matches(FsmSpec.DoInit(machine.cfg, old(View()), t), to, None, View())
      ensures Kept()
    {
      hide Loaded, StatesOf, Linked, Config.Valid;
      var p := new Program(machine);
      var e := p.Load(t.file, false);
      if e.None? {
        program := p;
        to := Idle;
      } else {
        to := State.Stop;
      }
    }

    method DoIdle(t: Tick) returns (to: State)
      requires Valid()
      modifies program, program.blocks
      ensures Valid() && Matches(FsmSpec.DoIdle(machine.cfg, old(View()), t), to, None, View())
      ensures Kept()
    {
      hide Loaded, StatesOf, Linked, Config.Valid;
      to := NoChange;
      match t.key {
        case Space => to := LoadBlock;
        case Reload => var _ := program.Load(t.file, false);
        case ZeroKey => to := GoToZero;
        case Quit => to := State.Stop;
        case OtherKey =>
      }
    }

    method Entered(b: Block) returns (to: State)
      ensures to == StateFor(b.kind)
    {
      match b.kind {
        case NoMotion => to := NoMotionBlock;
        case Rapid => to := RapidMotion;
        case Line => to := InterpMotion;
        case Cwa => to := InterpMotion;
        case Ccwa => to := InterpMotion;
        case Other(_) => to := Idle;
      }
    }

    method DoLoadBlock() returns (to: State)
      requires Valid()
      modifies this`tTot, this`visited, program`current, program`done
      ensures Valid() && Matches(FsmSpec.DoLoadBlock(machine.cfg, old(View())), to, None, View())
      ensures program.blocks == old(program.blocks)
    {
      hide StatesOf, Linked, Config.Valid, StateFor;
      program.LoadNext();
      if program.done {
        return Idle;
      }
      to := Entered(program.blocks[program.current.value]);
      Visit(program.current.value);
    }

    method Visit(ghost i: nat)
      requires Valid()
      modifies this`tTot, this`visited
      ensures Valid() && View() == old(View()).(tTot := old(tTot) + machine.cfg.tq, visited := old(visited) + [i])
    {
      hide StatesOf, Linked, Config.Valid;
      tTot := tTot + machine.cfg.tq;
      visited := visited + [i];
    }

    /** `set_setpoint`, recording the block that the point belongs to. */
    method Send(ghost b: Option<nat>, p: Point, t: Tick) returns (ok: bool)
      requires Valid()
      modifies machine, this`sent
      ensures Valid()
      ensures var s := FsmSpec.Send(machine.cfg, machine.agent, old(View()), b, p, t);
        ok == s.Some? && (ok ==> View() == s.value)
    {
      hide StatesOf, Linked, Config.Valid, Commanded;
      ok := machine.SetSetpoint(p, t.reply);
      if ok {
        sent := sent + [Setpoint(b, p)];
      }
    }

    method HasArrived() returns (yes: bool)
      ensures yes == Arrived(machine.cfg, machine.View())
    {
      yes := machine.error.Some? && machine.error.value < machine.cfg.maxError;
    }

    method Approached(t: Tick) returns (to: State)
      ensures to ==
        if machine.agent && t.connected && !Arrived(machine.cfg, machine.View()) then NoChange else LoadBlock
    {
      if machine.agent && t.connected {
        var arrived := HasArrived();
        to := if arrived then LoadBlock else NoChange;
      } else {
        to := LoadBlock;
      }
    }

    method DoRapidMotion(t: Tick) returns (to: State, fault: Option<Fault>)
      requires Valid()
      modifies machine, this`sent, this`tTot, this`tBlk, this`stopRequested
      ensures Valid() && Matches(FsmSpec.DoRapidMotion(machine.cfg, machine.agent, old(View()), t), to, fault, View())
    {
      hide StatesOf, Linked, Config.Valid, Commanded, Arrived, FsmSpec.Send;
      to, fault := NoChange, None;
      if program.current.None? {
        return to, Some(EndDereferenced);
      }
      var target := program.blocks[program.current.value].target;
      assert target == View().blocks[program.current.value].target;
      var ok := Send(program.current, target, t);
      if !ok {
        return to, Some(UndefinedCoordinate);
      }
      to := Approached(t);
      CountTick();
      if stopRequested {
        to := ConsumeStop();
      }
    }

    method CountTick()
      requires Valid()
      modifies this`tTot, this`tBlk
      ensures Valid() && View() == old(View()).(tTot := old(tTot) + machine.cfg.tq, tBlk := old(tBlk) + machine.cfg.tq)
    {
      hide StatesOf, Linked, Config.Valid;
      tTot, tBlk := tTot + machine.cfg.tq, tBlk + machine.cfg.tq;
    }

    method ConsumeStop() returns (to: State)
      requires Valid()
      modifies this`stopRequested
      ensures Valid() && View() == old(View()).(stop := false) && to == LoadBlock
    {
      hide StatesOf, Linked, Config.Valid;
      stopRequested, to := false, LoadBlock;
    }

    /** `interpolate` for the block under the cursor at the block clock. */
    method Target() returns (p: Option<Point>, fault: Option<Fault>)
      requires Valid() && program.current.Some?
      modifies program.blocks
      ensures Valid() && View() == old(View())
      ensures fault.Some? <==> p.None?
      ensures var s, i := View(), program.current.value;
        var b, start := s.blocks[i], StartAt(machine.cfg, s.blocks, i);
        if !b.parsed then fault == Some(UnparsedBlock)
        else if !b.profile.Planned? || b.profile.l == 0.0 then fault == Some(NotANumber)
        else if !CanInterpolate(start, b) then fault == Some(UndefinedCoordinate)
        else p == Some(SetpointAt(machine.cfg.libm, start, b, s.tBlk))
    {
      hide StatesOf, Linked, Config.Valid, CanInterpolate, PointAt;
      var i := program.current.value;
      var b := program.blocks[i];
      if !b.parsed {
        return None, Some(UnparsedBlock);
      }
      if !b.profile.Planned? || b.profile.l == 0.0 {
        return None, Some(NotANumber);
      }
      LinkedStart(machine.cfg, program.blocks, i);
      var sample := b.LambdaAt(tBlk);
      ValuesKept(program.blocks);
      LinksKept(program.blocks);
      LinkedStart(machine.cfg, program.blocks, i);
      p := b.Interpolate(machine, sample.value.progress);
      fault := if p.None? then Some(UndefinedCoordinate) else None;
    }

    method DoInterpMotion(t: Tick) returns (to: State, fault: Option<Fault>)
      requires Valid()
      modifies machine, program.blocks, this`sent, this`tTot, this`tBlk
      ensures Valid() && Matches(FsmSpec.DoInterpMotion(machine.cfg, machine.agent, old(View()), t), to, fault, View())
    {
      hide StatesOf, Linked, Config.Valid, CanInterpolate, SetpointAt, Commanded, StartAt, FsmSpec.Send;
      to, fault := NoChange, None;
      if program.current.None? {
        return to, Some(EndDereferenced);
      }
      var p, f := Target();
      if f.Some? {
        return to, f;
      }
      var ok := Send(program.current, p.value, t);
      if !ok {
        return to, Some(UndefinedCoordinate);
      }
      if tBlk > program.blocks[program.current.value].profile.dt + machine.cfg.tq / 10.0 {
        to := LoadBlock;
      }
      CountTick();
    }

    method DoNoMotion() returns (to: State, fault: Option<Fault>)
      requires Valid()
      modifies this`tTot
      ensures Valid() && Matches(FsmSpec.DoNoMotion(machine.cfg, old(View())), to, fault, View())
    {
      hide StatesOf, Linked, Config.Valid;
      to, fault := LoadBlock, None;
      if program.current.None? {
        return to, Some(EndDereferenced);
      }
      if !program.blocks[program.current.value].parsed {
        return to, Some(UnparsedBlock);
      }
      tTot := tTot + machine.cfg.tq;
    }

    method DoGoToZero(t: Tick) returns (to: State, fault: Option<Fault>)
      requires Valid()
      modifies machine, this`sent
      ensures Valid() && Matches(FsmSpec.DoGoToZero(machine.cfg, machine.agent, old(View()), t), to, fault, View())
    {
      hide StatesOf, Linked, Config.Valid, Commanded, Arrived;
      to, fault := NoChange, None;
      var ok := Send(None, machine.cfg.zero, t);
      if !ok {
        return to, Some(UndefinedCoordinate);
      }
      var arrived := HasArrived();
      if arrived {
        to := Idle;
      }
    }

    // ----- the machine -----

    /** The state function of the present state. */
    method Dispatch(t: Tick) returns (to: State, fault: Option<Fault>)
      requires Valid()
      modifies this, machine, program, program.blocks
      ensures fault.None? ==> Valid()
      ensures Matches(Do(machine.cfg, machine.agent, old(View()), t), to, fault, View())
      ensures state == old(state)
      ensures Kept()
    {
      hide StatesOf, Linked, Config.Valid, Matches, FsmSpec.DoInit, FsmSpec.DoIdle, FsmSpec.DoLoadBlock,
        FsmSpec.DoRapidMotion, FsmSpec.DoInterpMotion, FsmSpec.DoNoMotion, FsmSpec.DoGoToZero;
      to, fault := NoChange, None;
      match state {
        case Init => to := DoInit(t);
        case Idle => to := DoIdle(t);
        case LoadBlock => to := DoLoadBlock();
        case RapidMotion => to, fault := DoRapidMotion(t);
        case InterpMotion => to, fault := DoInterpMotion(t);
        case NoMotionBlock => to, fault := DoNoMotion();
        case GoToZero => to, fault := DoGoToZero(t);
        case Stop => MatchesNothing(View());
        case NoChange => MatchesNothing(View());
      }
    }

    /** The transition functions: `reset`, `begin_rapid` and `begin_interp`; the others do nothing here. */
    method Transit()
      requires Valid()
      modifies this`tTot, this`tBlk, program`current, program`done
      ensures Valid() && View() == Transition(old(View()))
      ensures program.blocks == old(program.blocks)
    {
      hide StatesOf, Linked, Config.Valid;
      if prev.Idle? && state.LoadBlock? {
        program.Rewind();
        tTot, tBlk := 0.0, 0.0;
      } else if prev.LoadBlock? && (state.RapidMotion? || state.InterpMotion?) {
        tBlk := 0.0;
      }
    }

    /** `eval_state`, after the signal that may have come since the tick before. */
    method EvalState(t: Tick) returns (fault: Option<Fault>)
      requires Valid()
      modifies this, machine, program, program.blocks
      ensures fault.None? ==> Valid()
      ensures Stepped(Step(machine.cfg, machine.agent, old(View()), t), fault, View())
      ensures Kept()
    {
      hide StatesOf, Linked, Config.Valid, Do, Filter, Transition, Step;
      ghost var before := View();
      if t.sigint {
        stopRequested := true;
      }
      var to;
      to, fault := Dispatch(t);
      StepIs(machine.cfg, machine.agent, before, t);
      if fault.Some? {
        return;
      }
      Advance(to);
    }

    /** Enters the state that the wrapper makes of `to`. */
    method Advance(to: State)
      requires Valid()
      modifies this`prev, this`state, this`tTot, this`tBlk, program`current, program`done
      ensures Valid() && program.blocks == old(program.blocks)
      ensures var s, next := old(View()), Filter(old(state), to, old(stopRequested));
        View() == Transition(s.(prev := s.state, state := if next.NoChange? then s.state else next))
    {
      hide StatesOf, Linked, Config.Valid, Filter, Transition;
      var next := Filter(state, to, stopRequested);
      prev, state := state, if next.NoChange? then state else next;
      Transit();
    }

    /** `setup`. */
    method Setup(s: State)
      requires Valid()
      modifies this`stopRequested, this`state, this`prev
      ensures Valid() && View() == old(View()).(stop := false, state := s, prev := s)
    {
      hide StatesOf, Linked, Config.Valid;
      stopRequested, state, prev := false, s, s;
    }

    /** `run`, over the ticks that are given. */
    method Run(ticks: seq<Tick>) returns (fault: Option<Fault>)
      requires Valid()
      modifies this, machine, program, program.blocks
      ensures var s := old(View()).(stop := false, state := Init, prev := Init);
        Stepped(FsmSpec.Run(machine.cfg, machine.agent, s, ticks), fault, View())
    {
      hide StatesOf, Linked, Config.Valid, Step;
      Setup(Init);
      ghost var all := FsmSpec.Run(machine.cfg, machine.agent, View(), ticks);
      var k := 0;
      while k < |ticks|
        invariant 0 <= k <= |ticks| && Valid()
        invariant FsmSpec.Run(machine.cfg, machine.agent, View(), ticks[k..]) == all
        invariant program == old(program) || fresh(program)
        invariant forall i :: 0 <= i < |program.blocks| ==>
          program.blocks[i] in old(program.blocks) || fresh(program.blocks[i])
      {
        ghost var before := View();
        fault := EvalState(ticks[k]);
        if fault.Some? {
          return;
        }
        k := k + 1;
        if state.Stop? {
          return None;
        }
      }
      fault := None;
    }
  }

  lemma MatchesNothing(s: Ctrl)
    ensures Matches(Goes(s, NoChange), NoChange, None, s)
  {}
}
