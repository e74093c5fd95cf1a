/** A reload that fails leaves a list whose last block is not parsed (src/program.cpp), and IDLE does not
    mind (src/fsm_impl.hpp): what the next run does with it. */
module FailedReloads {
  import opened Numerics
  import opened Machines
  import opened BlockSpec
  import opened ProgramSpec
  import opened ProgramFacts
  import opened FsmSpec
  import opened FsmFacts
  import opened FsmRuns

  function FaultOf(b: BlockState): Fault {
    if b.kind.Rapid? then UndefinedCoordinate else UnparsedBlock
  }

  /** The tick that runs a block that is not parsed. */
  lemma UnparsedFails(cfg: Config, agent: bool, s: Ctrl, t: Tick, i: nat)
    requires cfg.Valid() && i < |s.blocks| && s.cursor == Some(i) && !s.blocks[i].parsed
    requires s.state == StateFor(s.blocks[i].kind) && !s.blocks[i].kind.Other?
    ensures Step(cfg, agent, s, t).Failed? <==> Breaks(agent, s.blocks[i])
    ensures Breaks(agent, s.blocks[i]) ==> Step(cfg, agent, s, t) == Failed(FaultOf(s.blocks[i]))
  {
    hide Config.Valid, Step, Arrived;
    StepIs(cfg, agent, s, t);
  }

  lemma {:induction false} TotalCostSnoc(cfg: Config, bs: seq<BlockState>, lo: nat, hi: nat)
    requires cfg.tq > 0.0 && lo <= hi < |bs|
    ensures TotalCost(cfg, bs, lo, hi + 1) == TotalCost(cfg, bs, lo, hi) + Cost(cfg, bs[hi])
    decreases hi - lo
  {
    if lo < hi {
      TotalCostSnoc(cfg, bs, lo + 1, hi);
    }
  }

  /** The run that SPACE starts on a list that any history of edits left behind, with its parsed motions planned
      and no signal, fails exactly when its last block breaks it: when that is not parsed, and is
      interpolated, or NO_MOTION, or rapid without a complete target while there is an agent. */
  lemma QuietRunFails(cfg: Config, agent: bool, s: Ctrl, ticks: seq<Tick>)
    requires cfg.Valid() && Within(s.cursor, |s.blocks|) && !s.stop && s.state.Idle?
    requires Sane(cfg, s.blocks) && PlannedAll(s.blocks)
    requires forall k :: 0 <= k < |s.blocks| ==> !s.blocks[k].kind.Other?
    requires |ticks| == TotalCost(cfg, s.blocks, 0, |s.blocks|) + 2 && Quiet(agent, ticks) && ticks[0].key.Space?
    ensures var bs := s.blocks;
      && (Run(cfg, agent, s, ticks).Failed? <==> !Holds(agent, bs))
      && (Run(cfg, agent, s, ticks).Failed? ==> Run(cfg, agent, s, ticks) == Failed(FaultOf(bs[|bs| - 1])))
  {
    hide Sane, PlannedAll, Passes, Safe, Run, Quiet, TotalCost, Libm.Valid, Breaks;
    var bs := s.blocks;
    forall k | 0 <= k < |bs|
      ensures Passes(cfg, agent, bs, k) <==> !Breaks(agent, bs[k])
      ensures k < |bs| - 1 ==> !Breaks(agent, bs[k])
    {
      SaneSafeAt(cfg, agent, bs, k);
      PassesIs(cfg, agent, bs, k);
    }
    if |bs| > 0 && Breaks(agent, bs[|bs| - 1]) {
      TotalCostSnoc(cfg, bs, 0, |bs| - 1);
      BrokenRun(cfg, agent, s, ticks);
    } else {
      var _ := WholeRun(cfg, agent, s, ticks);
    }
  }

  lemma PassesIs(cfg: Config, agent: bool, bs: seq<BlockState>, i: nat)
    requires i < |bs| && !bs[i].kind.Other?
    ensures Passes(cfg, agent, bs, i) <==> Safe(cfg, agent, bs, i)
  {}

  /** A run that gets to a last block that breaks it. */
  lemma BrokenRun(cfg: Config, agent: bool, s: Ctrl, ticks: seq<Tick>)
    requires cfg.Valid() && Within(s.cursor, |s.blocks|) && !s.stop && s.state.Idle? && |s.blocks| > 0
    requires var n := |s.blocks| - 1;
      && (forall k :: 0 <= k < n ==> Passes(cfg, agent, s.blocks, k)) && Breaks(agent, s.blocks[n])
      && |ticks| >= TotalCost(cfg, s.blocks, 0, n) + 3 && Quiet(agent, ticks) && ticks[0].key.Space?
    ensures Run(cfg, agent, s, ticks) == Failed(FaultOf(s.blocks[|s.blocks| - 1]))
  {
    hide Passes, Quiet, TotalCost, Libm.Valid, Step, Run, Stream, Positions, Clock;
    var bs, n := s.blocks, |s.blocks| - 1;
    var m := TotalCost(cfg, bs, 0, n) + 1;
    var s1 := PartRun(cfg, agent, s, ticks, n);
    QuietDrop(agent, ticks, m);
    var s2 := LoadRun(cfg, agent, s1, ticks[m..], bs, n);
    ReachesMore(cfg, agent, s, ticks, m, s1, 1, s2);
    UnparsedFails(cfg, agent, s2, ticks[m + 1], n);
    RunFails(cfg, agent, s2, ticks[m + 1..], FaultOf(bs[n]));
  }

  lemma RunFails(cfg: Config, agent: bool, s: Ctrl, ticks: seq<Tick>, f: Fault)
    requires cfg.Valid() && Within(s.cursor, |s.blocks|) && |ticks| > 0 && Step(cfg, agent, s, ticks[0]) == Failed(f)
    ensures Run(cfg, agent, s, ticks) == Failed(f)
  {
    hide Step, Libm.Valid;
  }

  // ----- a run that fails -----

  /** A line that is refused for its second word: a G of some code, and an X without a number. */
  function BrokenLine(code: int): seq<Word> {
    [Word('G', Text(Some(code), None)), Word('X', Missing)]
  }

  function Press(key: Key, file: Option<seq<FileLine>>): Tick {
    Tick(false, key, file, false, None)
  }

  /** INIT with an empty file, a reload of a file with one broken line, SPACE, and three more ticks. */
  function BrokenTicks(code: int): seq<Tick> {
    var rest := [Press(Space, None), Press(OtherKey, None), Press(OtherKey, None), Press(OtherKey, None)];
    [Press(OtherKey, Some([])), Press(Reload, Some([Code(BrokenLine(code))]))] + rest
  }

  lemma BrokenBlock(cfg: Config, error: Option<real>, code: int)
    requires cfg.Valid() && 0 <= code <= 4
    ensures var (b, e) := Built(cfg, error, None, BrokenLine(code));
      && e == Some(MissingArgument) && b == Blank(BrokenLine(code)).(kind := KindOf(code))
      && (Breaks(true, b) && (Breaks(false, b) <==> code != 0))
  {
    hide Finish;
    var s, ws := Blank(BrokenLine(code)), BrokenLine(code);
    assert ws[1..] == [Word('X', Missing)];
    var s1 := s.(kind := KindOf(code));
    assert ReadWord(s, ws[0], None) == (s1, More);
    assert ReadWord(s1, ws[1], None) == (s1, Bad(MissingArgument));
    assert ReadWords(s1, ws[1..], None) == (s1, Some(MissingArgument));
  }

  /** From a machine that has just been set up: the reload fails, the machine stays in IDLE, and the run
      that SPACE then starts throws, except on a rapid block without an agent. */
  lemma ReloadCanFail(cfg: Config, agent: bool, axes: Axes, code: int)
    requires cfg.Valid() && 0 <= code <= 4
    ensures Run(cfg, agent, NewCtrl(axes), BrokenTicks(code)).Failed? <==> agent || code != 0
  {
    hide Step, Built, Passes, Libm.Valid;
    var s, ticks := NewCtrl(axes), BrokenTicks(code);
    InitTick(cfg, agent, s, ticks[0]);
    var s1 := Step(cfg, agent, s, ticks[0]).ctrl;
    assert s1 == s.(prev := Init, state := Idle);
    IdleTick(cfg, agent, s1, ticks[1]);
    var s2 := Step(cfg, agent, s1, ticks[1]).ctrl;
    var b := Built(cfg, axes.error, None, BrokenLine(code)).0;
    BrokenBlock(cfg, axes.error, code);
    BrokenLoad(cfg, axes.error, code);
    assert s2.blocks == [b] && s2.state.Idle? && !s2.stop;
    FileSane(cfg, axes.error, [], ticks[1].file);
    assert TotalCost(cfg, [b], 0, 1) == 2;
    assert ticks[1..][1..] == ticks[2..];
    QuietRunFails(cfg, agent, s2, ticks[2..]);
  }

  lemma BrokenLoad(cfg: Config, error: Option<real>, code: int)
    requires cfg.Valid() && 0 <= code <= 4
    ensures LoadedFile(cfg, error, [], Some([Code(BrokenLine(code))]), false)
         == ([Built(cfg, error, None, BrokenLine(code)).0], Some(MissingArgument))
  {
    hide Built;
    BrokenBlock(cfg, error, code);
    var b, words := Built(cfg, error, None, BrokenLine(code)).0, BrokenLine(code);
    var none: seq<BlockState> := [];
    assert Prev(none, |none|) == None && none + [b] == [b];
    assert Appended(cfg, error, none, words) == ([b], Some(MissingArgument));
  }
}
