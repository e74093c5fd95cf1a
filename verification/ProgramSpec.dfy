/** Programs as values (src/program.cpp): the list of blocks and the cursor over it. */
module ProgramSpec {
  import opened Numerics
  import opened Machines
  import opened BlockSpec

  /** A line of a file; a line is ignored when it is empty or begins with '#'. */
  datatype FileLine = Ignored | Code(words: seq<Word>)

  /** The block before position `i`. */
  function Prev(bs: seq<BlockState>, i: int): Option<BlockState>
    requires 0 <= i <= |bs|
  {
    if i == 0 then None else Some(bs[i - 1])
  }

  /** `operator<<`: a block after one that is not parsed is refused, and leaves the list as it was; a
      block whose line is refused stays at the end of the list, not parsed. */
  function Appended(cfg: Config, error: Option<real>, bs: seq<BlockState>, words: seq<Word>)
    : (seq<BlockState>, Option<Error>)
    requires cfg.Valid()
  {
    var prev := Prev(bs, |bs|);
    if prev.Some? && !prev.value.parsed then (bs, Some(NotParsed))
    else
      var (b, e) := Built(cfg, error, prev, words);
      (bs + [b], e)
  }

  /** The loop of `load` over the lines of a file, which ends at the first line that is refused. */
  function Loaded(cfg: Config, error: Option<real>, bs: seq<BlockState>, lines: seq<FileLine>)
    : (seq<BlockState>, Option<Error>)
    requires cfg.Valid()
    decreases |lines|
  {
    if lines == [] then (bs, None)
    else if lines[0].Ignored? then Loaded(cfg, error, bs, lines[1..])
    else
      var (bs1, e) := Appended(cfg, error, bs, lines[0].words);
      if e.Some? then (bs1, e) else Loaded(cfg, error, bs1, lines[1..])
  }

  /** `load`: a file that cannot be opened leaves everything as it was. */
  function LoadedFile(cfg: Config, error: Option<real>, bs: seq<BlockState>, file: Option<seq<FileLine>>, append: bool)
    : (seq<BlockState>, Option<Error>)
    requires cfg.Valid()
  {
    if file.None? then (bs, Some(NoFile))
    else Loaded(cfg, error, if append then bs else [], file.value)
  }

  /** The lines that the blocks of a list were made of. */
  function LinesOf(bs: seq<BlockState>): (lines: seq<seq<Word>>)
    ensures |lines| == |bs|
  {
    seq(|bs|, i requires 0 <= i < |bs| => bs[i].words)
  }

  // ----- the cursor -----

  /** An iterator over a list of `n` blocks: None is the end, which appending does not move away from. */
  type Cursor = Option<nat>

  predicate Within(c: Cursor, n: nat) {
    c.Some? ==> c.value < n
  }

  /** The iterator at position `i`, where `n` is the end. */
  function CursorAt(i: nat, n: nat): Cursor {
    if i < n then Some(i) else None
  }

  /** `load_next`: the end wraps to the beginning. */
  function NextCursor(c: Cursor, n: nat): Cursor {
    if c.None? then CursorAt(0, n) else CursorAt(c.value + 1, n)
  }

  // ----- structure -----

  /** Every block but the last is parsed. */
  ghost predicate Structured(bs: seq<BlockState>) {
    forall i :: 0 <= i < |bs| - 1 ==> bs[i].parsed
  }

  ghost predicate AllParsed(bs: seq<BlockState>) {
    forall i :: 0 <= i < |bs| ==> bs[i].parsed
  }

  /** Each block is what its line makes of it after the block before. */
  ghost predicate Chained(cfg: Config, error: Option<real>, bs: seq<BlockState>)
    requires cfg.Valid()
  {
    && Structured(bs)
    && forall i :: 0 <= i < |bs| ==> bs[i] == Built(cfg, error, Prev(bs, i), bs[i].words).0
  }
}
