/** The Python binding of a program (Python/src/cncpp_python.cpp): a second cursor over the kernel's list,
    and blocks that are rebuilt from their stored lines each time they are asked for. */
module Bindings {
  import opened Numerics
  import opened Machines
  import opened BlockSpec
  import opened Blocks
  import opened ProgramSpec
  import opened ProgramFacts
  import opened Programs

  // ----- the two cursors -----

  datatype PyCursor = PyCursor(current: Cursor, started: bool)

  /** `program_load_next` on the cursor: the end does not wrap. */
  function PyNext(c: PyCursor, n: nat): PyCursor {
    var current :=
      if !c.started then CursorAt(0, n)
      else if c.current.Some? then CursorAt(c.current.value + 1, n)
      else None;
    PyCursor(current, true)
  }

  /** The binding's cursor after a rewind and `k` calls. */
  function PyAfter(k: nat, n: nat): PyCursor {
    if k == 0 then PyCursor(None, false) else PyNext(PyAfter(k - 1, n), n)
  }

  /** The kernel's cursor after a rewind and `k` calls of `load_next`. */
  function KernelAfter(k: nat, n: nat): Cursor {
    if k == 0 then None else NextCursor(KernelAfter(k - 1, n), n)
  }

  lemma {:induction false} KernelCycles(k: nat, n: nat)
    requires k > 0
    ensures KernelAfter(k, n) == CursorAt((k - 1) % (n + 1), n)
  {
    if k > 1 {
      KernelCycles(k - 1, n);
      SuccMod(k - 2, n + 1);
    }
  }

  lemma SuccMod(a: nat, m: nat)
    requires m > 0
    ensures (a + 1) % m == if a % m == m - 1 then 0 else a % m + 1
  {
    var q, r := a / m, a % m;
    if r == m - 1 {
      ModIs(a + 1, m, q + 1, 0);
    } else {
      ModIs(a + 1, m, q, r + 1);
    }
  }

  lemma ModIs(a: nat, m: nat, q: int, r: nat)
    requires m > 0 && a == m * q + r && r < m
    ensures a % m == r
  {
    var p := a / m;
    assert m * (p - q) == r - a % m;
    Apart(m, p - q);
  }

  lemma Apart(m: nat, d: int)
    ensures d >= 1 ==> m * d >= m
    ensures d <= -1 ==> m * d + m <= 0
  {}

  lemma {:induction false} PyStays(k: nat, n: nat)
    requires k > 0
    ensures PyAfter(k, n) == PyCursor(CursorAt(if k <= n then k - 1 else n, n), true)
    ensures k <= n ==> PyAfter(k, n).current == Some(k - 1)
  {
    if k > 1 {
      PyStays(k - 1, n);
    }
  }

  /** Over a list of `n` blocks the cursors agree for n + 1 calls after a rewind, and after that only each
      time the kernel's comes back to the end. */
  lemma CursorsAgree(k: nat, n: nat)
    ensures PyAfter(k, n).current == KernelAfter(k, n) <==> k <= n + 1 || k % (n + 1) == 0
  {
    if k > 0 {
      KernelCycles(k, n);
      PyStays(k, n);
      SuccMod(k - 1, n + 1);
      if k <= n + 1 {
        ModIs(k - 1, n + 1, 0, k - 1);
      }
    }
  }

  // ----- rebuilding -----

  /** The blocks made of `lines` after those in `out`, up to the first line that throws. */
  function Rebuilt(cfg: Config, error: Option<real>, out: seq<BlockState>, lines: seq<seq<Word>>)
    : (r: (seq<BlockState>, Option<Error>))
    requires cfg.Valid()
    ensures r.1.None? ==> |r.0| == |out| + |lines|
    decreases |lines|
  {
    if lines == [] then (out, None)
    else
      var (b, e) := Built(cfg, error, Prev(out, |out|), lines[0]);
      if e.Some? then (out, e) else Rebuilt(cfg, error, out + [b], lines[1..])
  }

  lemma ChainedBuilt(cfg: Config, error: Option<real>, bs: seq<BlockState>, i: nat)
    requires cfg.Valid() && Chained(cfg, error, bs) && i < |bs|
    ensures bs[i] == Built(cfg, error, Prev(bs, i), bs[i].words).0
    ensures i > 0 ==> bs[i - 1].parsed
  {
    hide Built;
  }

  lemma RebuiltNothing(cfg: Config, error: Option<real>, out: seq<BlockState>)
    requires cfg.Valid()
    ensures Rebuilt(cfg, error, out, []) == (out, None)
  {}

  lemma RebuiltStep(cfg: Config, error: Option<real>, out: seq<BlockState>, lines: seq<seq<Word>>)
    requires cfg.Valid() && lines != []
    ensures var (b, e) := Built(cfg, error, Prev(out, |out|), lines[0]);
      && (e.None? <==> b.parsed)
      && Rebuilt(cfg, error, out, lines) == if e.Some? then (out, e) else Rebuilt(cfg, error, out + [b], lines[1..])
  {
    hide Built;
    BuiltParsed(cfg, error, Prev(out, |out|), lines[0]);
  }

  lemma LinesStep(bs: seq<BlockState>, k: nat, m: nat)
    requires k < m <= |bs|
    ensures |LinesOf(bs)| == |bs| && LinesOf(bs)[k..m][0] == bs[k].words
    ensures LinesOf(bs)[k..m][1..] == LinesOf(bs)[k + 1..m]
  {}

  /** Rebuilding the rest of a chained list after a parsed prefix. */
  lemma {:induction false} RebuiltFrom(cfg: Config, error: Option<real>, bs: seq<BlockState>, k: nat, m: nat)
    requires cfg.Valid() && Chained(cfg, error, bs) && k <= m <= |bs|
    ensures var (out, e) := Rebuilt(cfg, error, bs[..k], LinesOf(bs)[k..m]);
      && (e.None? <==> forall i :: k <= i < m ==> bs[i].parsed)
      && (e.None? ==> out == bs[..m])
    decreases m - k
  {
    hide Built, Chained, LinesOf, Rebuilt, Config.Valid;
    RebuiltNothing(cfg, error, bs[..k]);
    if k < m {
      LinesStep(bs, k, m);
      assert Prev(bs[..k], k) == Prev(bs, k);
      assert bs[..k] + [bs[k]] == bs[..k + 1];
      ChainedBuilt(cfg, error, bs, k);
      RebuiltStep(cfg, error, bs[..k], LinesOf(bs)[k..m]);
      RebuiltFrom(cfg, error, bs, k + 1, m);
    }
  }

  /** `program_blocks`: while the machine is as it was, rebuilding succeeds exactly on a list that parsed,
      and gives back the kernel's blocks. */
  lemma ReplayAgrees(cfg: Config, error: Option<real>, bs: seq<BlockState>)
    requires cfg.Valid() && Chained(cfg, error, bs)
    ensures var (out, e) := Rebuilt(cfg, error, [], LinesOf(bs));
      (e.None? <==> AllParsed(bs)) && (e.None? ==> out == bs)
  {
    hide Built, Chained, Rebuilt;
    RebuiltFrom(cfg, error, bs, 0, |bs|);
    assert bs[..0] == [] && bs[..|bs|] == bs;
    assert LinesOf(bs)[0..|bs|] == LinesOf(bs);
  }

  /** `program_block_at`: the block at the cursor is rebuilt exactly when the kernel's is parsed. */
  lemma ReplayAgreesAt(cfg: Config, error: Option<real>, bs: seq<BlockState>, i: nat)
    requires cfg.Valid() && Chained(cfg, error, bs) && i < |bs|
    ensures var (out, e) := Rebuilt(cfg, error, [], LinesOf(bs)[..i + 1]);
      (e.None? <==> bs[i].parsed) && (e.None? ==> out[i] == bs[i])
  {
    hide Built, Rebuilt;
    RebuiltFrom(cfg, error, bs, 0, i + 1);
    assert bs[..0] == [];
    assert LinesOf(bs)[0..i + 1] == LinesOf(bs)[..i + 1];
    assert bs[..i + 1][i] == bs[i];
  }

  /** `make_parsed_block`. */
  method MakeParsed(machine: Machine, words: seq<Word>, previous: Block?) returns (b: Block, e: Option<Error>)
    requires machine.cfg.Valid()
    modifies if previous == null then {} else {previous}
    ensures fresh(b) && machine.error == old(machine.error)
    ensures previous != null ==> previous.State() == old(previous.State())
    ensures previous != null && !previous.parsed ==> e == Some(NotParsed)
    ensures previous != null && previous.parsed ==>
      (b.State(), e) == Built(machine.cfg, machine.error, Some(previous.State()), words)
    ensures previous == null ==> (b.State(), e) == Built(machine.cfg, machine.error, None, words)
  {
    hide Parsed, Config.Valid, ToSize;
    b := new Block(words);
    if previous != null {
      e := b.Assign(previous);
      if e.Some? {
        return;
      }
    }
    e := b.Parse(machine);
  }

  class PyProgram {
    const machine: Machine
    const program: Program
    var current: Cursor
    var started: bool

    ghost predicate Valid()
      reads this, program, program.blocks
    {
      program.machine == machine && program.Valid() && Within(current, |program.blocks|)
    }

    constructor (machine: Machine)
      requires machine.cfg.Valid()
      ensures Valid() && this.machine == machine && fresh(program) && program.blocks == []
      ensures current == None && !started
    {
      this.machine := machine;
      program := new Program(machine);
      current, started := None, false;
    }

    method Rewind()
      modifies this
      ensures PyCursor(current, started) == PyAfter(0, |program.blocks|)
    {
      current, started := None, false;
    }

    /** `program_load`; a load that throws leaves this cursor where it was. */
    method Load(file: Option<seq<FileLine>>, append: bool) returns (e: Option<Error>)
      requires Valid()
      modifies this, program, program.blocks
      ensures program.Valid()
      ensures (program.States(), e) ==
        LoadedFile(machine.cfg, machine.error, old(program.States()), file, append)
      ensures e.None? ==> Valid() && current == None && !started
      ensures e.Some? ==> current == old(current) && started == old(started)
    {
      hide LoadedFile, StatesOf, Linked, Config.Valid;
      e := program.Load(file, append);
      if e.None? {
        Rewind();
      }
    }

    /** `program_blocks`: new blocks, each linked to the one before. */
    method RebuiltBlocks() returns (out: seq<Block>, e: Option<Error>)
      requires Valid()
      ensures (StatesOf(out), e) == Rebuilt(machine.cfg, machine.error, [], LinesOf(program.States()))
      ensures forall i :: 0 <= i < |out| ==> fresh(out[i])
    {
      hide Built, Rebuilt, StatesOf, Linked, Config.Valid;
      ghost var lines := LinesOf(program.States());
      ghost var all := Rebuilt(machine.cfg, machine.error, [], lines);
      out, e := [], None;
      var k, previous: Block? := 0, null;
      while k < |program.blocks|
        invariant 0 <= k == |out| <= |program.blocks| && e.None?
        invariant forall i :: 0 <= i < |out| ==> fresh(out[i])
        invariant previous == if k == 0 then null else out[k - 1]
        invariant previous != null ==> previous.parsed
        invariant Rebuilt(machine.cfg, machine.error, StatesOf(out), lines[k..]) == all
      {
        var b;
        RebuiltStep(machine.cfg, machine.error, StatesOf(out), lines[k..]);
        label building:
        b, e := MakeParsed(machine, program.blocks[k].words, previous);
        ValuesKept@building(out);
        if e.Some? {
          return;
        }
        out := out + [b];
        StatesLast(out);
        assert out[..k] == out[..|out| - 1];
        previous := b;
        k := k + 1;
      }
      assert lines[k..] == [];
      RebuiltNothing(machine.cfg, machine.error, StatesOf(out));
    }

    /** `program_block_at`, for the block at position `i`. */
    method BlockAt(i: nat) returns (b: Block?, e: Option<Error>)
      requires Valid() && i < |program.blocks|
      ensures var (out, e1) := Rebuilt(machine.cfg, machine.error, [], LinesOf(program.States())[..i + 1]);
        e == e1 && (e.None? ==> b != null && fresh(b) && b.State() == out[i])
    {
      hide Built, StatesOf, Linked, Config.Valid;
      ghost var lines := LinesOf(program.States())[..i + 1];
      ghost var all := Rebuilt(machine.cfg, machine.error, [], lines);
      ghost var out: seq<BlockState> := [];
      b, e := null, None;
      var k := 0;
      while k <= i
        invariant 0 <= k == |out| <= i + 1 && e.None?
        invariant b == null <==> k == 0
        invariant b != null ==> fresh(b) && b.parsed && b.State() == out[k - 1]
        invariant Rebuilt(machine.cfg, machine.error, out, lines[k..]) == all
      {
        ghost var prev := Prev(out, k);
        b, e := MakeParsed(machine, program.blocks[k].words, b);
        if e.Some? {
          return;
        }
        BuiltParsed(machine.cfg, machine.error, prev, program.blocks[k].words);
        out := out + [b.State()];
        k := k + 1;
      }
      assert lines[k..] == [];
    }

    /** `program_load_next`: no block at the end. */
    method LoadNext() returns (b: Block?, e: Option<Error>)
      requires Valid()
      modifies this
      ensures Valid() && PyCursor(current, started) == PyNext(PyCursor(old(current), old(started)), |program.blocks|)
      ensures current.None? ==> b == null && e == None
      ensures current.Some? ==>
        var (out, e1) := Rebuilt(machine.cfg, machine.error, [], LinesOf(program.States())[..current.value + 1]);
        e == e1 && (e.None? ==> b != null && b.State() == out[current.value])
    {
      hide Rebuilt, StatesOf, Linked, Config.Valid;
      if !started {
        current := if |program.blocks| == 0 then None else Some(0);
        started := true;
      } else if current.Some? {
        var i := current.value + 1;
        current := if i == |program.blocks| then None else Some(i);
      }
      if current.None? {
        return null, None;
      }
      b, e := BlockAt(current.value);
    }
  }
}
