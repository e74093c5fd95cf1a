/** The `Program` class (src/program.cpp): a doubly linked list of blocks that grows in place, and the
    cursor that runs over it. */
module Programs {
  import opened Numerics
  import opened Machines
  import opened BlockSpec
  import opened Blocks
  import opened ProgramSpec

  /** The values of a list of blocks. */
  ghost function StatesOf(bs: seq<Block>): (ss: seq<BlockState>)
    reads bs
    ensures |ss| == |bs| && forall i :: 0 <= i < |bs| ==> ss[i] == bs[i].State()
  {
    if bs == [] then [] else StatesOf(bs[..|bs| - 1]) + [bs[|bs| - 1].State()]
  }

  /** The links of the blocks mirror their order in the list. */
  ghost predicate Linked(bs: seq<Block>)
    reads bs
  {
    && (forall i, j :: 0 <= i < j < |bs| ==> bs[i] != bs[j])
    && (forall i {:trigger bs[i].prev} :: 0 <= i < |bs| ==> bs[i].prev == if i == 0 then null else bs[i - 1])
    && (forall i {:trigger bs[i].next} :: 0 <= i < |bs| ==> bs[i].next == if i == |bs| - 1 then null else bs[i + 1])
  }

  /** Blocks whose values are unchanged make an unchanged list of values. */
  twostate lemma ValuesKept(bs: seq<Block>)
    requires forall i :: 0 <= i < |bs| ==> bs[i].State() == old(bs[i].State())
    ensures StatesOf(bs) == old(StatesOf(bs))
  {
    hide StatesOf, Block.State;
  }

  /** Blocks whose links are unchanged stay linked. */
  twostate lemma LinksKept(bs: seq<Block>)
    requires old(Linked(bs))
    requires forall i :: 0 <= i < |bs| ==> bs[i].prev == old(bs[i].prev)
    requires forall i :: 0 <= i < |bs| ==> bs[i].next == old(bs[i].next)
    ensures Linked(bs)
  {}

  /** A list grows by a block that points back to its last one, which points on to it. */
  twostate lemma LinkedGrows(bs: seq<Block>, new b: Block)
    requires old(Linked(bs)) && b !in bs && b.next == null
    requires forall i :: 0 <= i < |bs| ==> bs[i].prev == old(bs[i].prev)
    requires forall i :: 0 <= i < |bs| - 1 ==> bs[i].next == old(bs[i].next)
    requires if bs == [] then b.prev == null else b.prev == bs[|bs| - 1] && bs[|bs| - 1].next == b
    ensures Linked(bs + [b])
  {
    var cs := bs + [b];
    forall i | 0 <= i < |cs|
      ensures cs[i].prev == if i == 0 then null else cs[i - 1]
    {
      if i < |bs| {
        assert old(bs[i].prev) == if i == 0 then null else bs[i - 1];
      }
    }
    forall i | 0 <= i < |cs|
      ensures cs[i].next == if i == |cs| - 1 then null else cs[i + 1]
    {
      if i < |bs| - 1 {
        assert old(bs[i].next) == bs[i + 1];
      }
    }
  }

  lemma AppendedIs(cfg: Config, error: Option<real>, bs: seq<BlockState>, words: seq<Word>)
    requires cfg.Valid()
    ensures var prev := Prev(bs, |bs|);
      Appended(cfg, error, bs, words) ==
        if |bs| > 0 && !bs[|bs| - 1].parsed then (bs, Some(NotParsed))
        else (bs + [Parsed(cfg, error, prev, Opened(prev, words)).0], Parsed(cfg, error, prev, Opened(prev, words)).1)
  {
    hide Parsed, Opened;
  }

  lemma LoadedNothing(cfg: Config, error: Option<real>, bs: seq<BlockState>)
    requires cfg.Valid()
    ensures Loaded(cfg, error, bs, []) == (bs, None)
  {}

  lemma LoadedStep(cfg: Config, error: Option<real>, bs: seq<BlockState>, lines: seq<FileLine>)
    requires cfg.Valid() && lines != []
    ensures Loaded(cfg, error, bs, lines) ==
      if lines[0].Ignored? then Loaded(cfg, error, bs, lines[1..])
      else
        var (bs1, e) := Appended(cfg, error, bs, lines[0].words);
        if e.Some? then (bs1, e) else Loaded(cfg, error, bs1, lines[1..])
  {
    hide Appended;
  }

  lemma StatesLast(bs: seq<Block>)
    requires |bs| > 0
    ensures StatesOf(bs) == StatesOf(bs[..|bs| - 1]) + [bs[|bs| - 1].State()]
  {}

  lemma LinkedDistinct(bs: seq<Block>)
    requires Linked(bs)
    ensures forall i :: 0 <= i < |bs| - 1 ==> bs[i] != bs[|bs| - 1]
  {}

  lemma LastPrev(bs: seq<Block>)
    requires Linked(bs) && |bs| > 0
    ensures var b := bs[|bs| - 1];
      && b.prev != b
      && b.PrevState() == (if |bs| == 1 then None else Some(bs[|bs| - 2].State()))
  {}

  lemma LinkedStart(cfg: Config, bs: seq<Block>, i: nat)
    requires Linked(bs) && i < |bs|
    ensures bs[i].Start(cfg) == StartOf(cfg, Prev(StatesOf(bs), i))
  {
    hide StatesOf;
  }

  class Program {
    const machine: Machine
    var blocks: seq<Block>
    var current: Cursor
    var done: bool

    ghost predicate Valid()
      reads this, blocks
    {
      && machine.cfg.Valid() && Linked(blocks)
      && Within(current, |blocks|) && (done ==> current.None?)
    }

    ghost function States(): seq<BlockState>
      reads this, blocks
    {
      StatesOf(blocks)
    }

    /** New blocks have been added at the end of the list. */
    twostate predicate Grown()
      reads this
    {
      old(blocks) <= blocks && forall i :: |old(blocks)| <= i < |blocks| ==> fresh(blocks[i])
    }

    constructor (machine: Machine)
      requires machine.cfg.Valid()
      ensures Valid() && this.machine == machine && blocks == [] && current == None && !done
    {
      this.machine := machine;
      blocks, current, done := [], None, false;
    }

    /** `emplace_back`: the block is linked before it is parsed, or not added at all. */
    method Emplace(words: seq<Word>) returns (e: Option<Error>)
      requires Valid()
      modifies this`blocks, blocks
      ensures Valid()
      ensures old(blocks) <= blocks && StatesOf(old(blocks)) == old(States())
      ensures e == (if |old(blocks)| > 0 && !old(States()[|blocks| - 1]).parsed then Some(NotParsed) else None)
      ensures e.Some? ==> blocks == old(blocks)
      ensures e.None? ==> |blocks| == |old(blocks)| + 1 && fresh(blocks[|old(blocks)|])
      ensures e.None? ==> blocks[|old(blocks)|].State() == Opened(Prev(old(States()), |old(blocks)|), words)
    {
      hide StatesOf, ToSize, Linked, Config.Valid;
      ghost var was := blocks;
      assert |was| > 0 ==> Prev(StatesOf(was), |was|) == Some(was[|was| - 1].State());
      LinkedDistinct(was);
      var b := new Block(words);
      e := None;
      if |blocks| > 0 {
        e := b.Assign(blocks[|blocks| - 1]);
      }
      ValuesKept(was);
      if e.None? {
        blocks := blocks + [b];
        LinkedGrows(was, b);
      } else {
        LinksKept(was);
      }
    }

    /** `operator<<`. */
    method Append(words: seq<Word>) returns (e: Option<Error>)
      requires Valid()
      modifies this`blocks, blocks
      ensures Valid()
      ensures (States(), e) == Appended(machine.cfg, machine.error, old(States()), words)
      ensures old(blocks) <= blocks && |blocks| <= |old(blocks)| + 1
      ensures |blocks| > |old(blocks)| ==> fresh(blocks[|old(blocks)|])
    {
      hide Appended, Parsed, Opened, StatesOf, Linked, Config.Valid, Block.State;
      ghost var before := States();
      e := Emplace(words);
      AppendedIs(machine.cfg, machine.error, before, words);
      if e.None? {
        StatesLast(blocks);
        assert blocks[..|blocks| - 1] == old(blocks);
        e := ParseLast();
      }
    }

    /** `parse` of the last block. */
    method ParseLast() returns (e: Option<Error>)
      requires Valid() && |blocks| > 0
      modifies blocks
      ensures Valid() && blocks == old(blocks)
      ensures var n, was := |blocks| - 1, old(States());
        && States() == was[..n] + [States()[n]]
        && (States()[n], e) == Parsed(machine.cfg, machine.error, Prev(was, n), was[n])
    {
      hide Parsed, StatesOf, Linked, Config.Valid, Block.State;
      ghost var before, n := blocks[..|blocks| - 1], |blocks| - 1;
      var b := blocks[|blocks| - 1];
      LastPrev(blocks);
      LinkedDistinct(blocks);
      StatesLast(blocks);
      e := b.Parse(machine);
      ValuesKept(before);
      LinksKept(blocks);
      StatesLast(blocks);
      assert States()[n] == b.State();
    }

    /** The loop of `load`. */
    method AppendLines(lines: seq<FileLine>) returns (e: Option<Error>)
      requires Valid()
      modifies this`blocks, blocks
      ensures Valid()
      ensures (States(), e) == Loaded(machine.cfg, machine.error, old(States()), lines)
      ensures Grown()
    {
      hide Appended, Loaded, States, StatesOf, Linked, Within, Config.Valid;
      ghost var all := Loaded(machine.cfg, machine.error, States(), lines);
      assert lines[0..] == lines;
      var k := 0;
      while k < |lines|
        invariant 0 <= k <= |lines|
        invariant Valid()
        invariant Loaded(machine.cfg, machine.error, States(), lines[k..]) == all
        invariant Grown()
      {
        LoadedStep(machine.cfg, machine.error, States(), lines[k..]);
        if lines[k].Code? {
          e := Append(lines[k].words);
          if e.Some? {
            return;
          }
        }
        k := k + 1;
      }
      assert lines[k..] == [];
      LoadedNothing(machine.cfg, machine.error, States());
      e := None;
    }

    /** `load`, of a file given by its lines; None when it cannot be opened. */
    method Load(file: Option<seq<FileLine>>, append: bool) returns (e: Option<Error>)
      requires Valid()
      modifies this, blocks
      ensures Valid()
      ensures (States(), e) == LoadedFile(machine.cfg, machine.error, old(States()), file, append)
      ensures if file.Some? && !append then current == None && !done else current == old(current) && done == old(done)
      ensures forall i :: 0 <= i < |blocks| ==> blocks[i] in old(blocks) || fresh(blocks[i])
    {
      hide Loaded, StatesOf, Linked, Config.Valid;
      if file.None? {
        return Some(NoFile);
      }
      if !append {
        Reset();
      }
      e := AppendLines(file.value);
    }

    /** `load_next`. */
    method LoadNext()
      requires Valid()
      modifies this`current, this`done
      ensures Valid()
      ensures current == NextCursor(old(current), |blocks|) && done == current.None?
    {
      if current.None? {
        current := if |blocks| == 0 then None else Some(0);
      } else {
        var i := current.value + 1;
        current := if i == |blocks| then None else Some(i);
      }
      done := current.None?;
    }

    method Rewind()
      modifies this`current, this`done
      ensures current == None && !done
    {
      current, done := None, false;
    }

    method Reset()
      requires Valid()
      modifies this
      ensures Valid() && blocks == [] && States() == [] && current == None && !done
    {
      blocks := [];
      Rewind();
    }
  }
}
