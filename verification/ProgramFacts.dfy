/** What every program keeps (src/program.cpp): structure, numbering, modal inheritance, and the positions
    of its blocks, after any history of `operator<<`, `load` and `reset`. */
module ProgramFacts {
  import opened Numerics
  import opened Points
  import opened Machines
  import opened Profiles
  import opened Arcs
  import opened BlockSpec
  import opened BlockFacts
  import opened WordOrder
  import opened ProgramSpec

  // ----- one block -----

  /** A block is parsed exactly when building it throws nothing, and then its fields are those that the
      token loop read and that it was opened with. */
  lemma BuiltParsed(cfg: Config, error: Option<real>, prev: Option<BlockState>, words: seq<Word>)
    requires cfg.Valid()
    ensures var (b, e) := Built(cfg, error, prev, words);
      var (s, e0) := ReadWords(Opened(prev, words), words, NumberOf(prev));
      && b.words == words
      && (b.parsed <==> e.None?)
      && (e.None? ==> e0.None? && Finish(cfg, error, StartOf(cfg, prev), s) == (b, None))
  {
    hide ReadWord, Planning, Displaced;
    ReadKeeps(Opened(prev, words), words, NumberOf(prev));
    var (s, e0) := ReadWords(Opened(prev, words), words, NumberOf(prev));
    if e0.None? {
      FinishKeeps(cfg, error, StartOf(cfg, prev), s);
    }
  }

  lemma {:induction false} ReadKeeps(s: BlockState, ws: seq<Word>, prevN: Option<int>)
    ensures var r := ReadWords(s, ws, prevN).0;
      && r.words == s.words && r.parsed == s.parsed && r.profile == s.profile
      && (0 <= s.n < SIZE_MOD ==> 0 <= r.n < SIZE_MOD)
    decreases |ws|
  {
    if ws != [] {
      var (s1, read) := ReadWord(s, ws[0], prevN);
      assert s1.words == s.words && s1.parsed == s.parsed && s1.profile == s.profile;
      assert 0 <= s.n < SIZE_MOD ==> 0 <= s1.n < SIZE_MOD;
      hide ReadWord;
      ReadKeeps(s1, ws[1..], prevN);
    }
  }

  lemma FinishKeeps(cfg: Config, error: Option<real>, start: Point, s: BlockState)
    requires cfg.Valid()
    ensures var (b, e) := Finish(cfg, error, start, s);
      && b.words == s.words && b.n == s.n && b.feedrate == s.feedrate && b.spindle == s.spindle && b.tool == s.tool
      && b.kind == s.kind && b.target == s.target.Modal(start)
      && (e.Some? ==> b.parsed == s.parsed) && (e.None? ==> b.parsed)
      && (e.Some? || !Interpolated(b.kind) ==> b.profile == s.profile)
  {
    hide ArcOf, ArcCap, Plan, Point.Delta, Point.Length;
    if start.Complete() {
      ModalCompletes(s.target, start);
    }
  }

  // ----- structure -----

  /** Appending keeps the blocks that are there and the structure; it throws exactly when the list then
      holds a block that is not parsed. */
  lemma AppendKeeps(cfg: Config, error: Option<real>, bs: seq<BlockState>, words: seq<Word>)
    requires cfg.Valid() && Structured(bs)
    ensures var (bs1, e) := Appended(cfg, error, bs, words);
      Structured(bs1) && bs <= bs1 && (e.None? <==> AllParsed(bs1))
  {
    hide Built;
    var prev := Prev(bs, |bs|);
    if prev.Some? && !prev.value.parsed {
      assert !bs[|bs| - 1].parsed;
    } else {
      BuiltParsed(cfg, error, prev, words);
      var (b, e) := Built(cfg, error, prev, words);
      assert (bs + [b])[|bs|] == b;
    }
  }

  /** Once a block is refused every later one is, and the list stays as it is. */
  lemma RefusedForGood(cfg: Config, error: Option<real>, bs: seq<BlockState>, words: seq<Word>)
    requires cfg.Valid() && Structured(bs) && !AllParsed(bs)
    ensures Appended(cfg, error, bs, words) == (bs, Some(NotParsed))
  {}

  lemma {:induction false} LoadKeeps(cfg: Config, error: Option<real>, bs: seq<BlockState>, lines: seq<FileLine>)
    requires cfg.Valid() && Structured(bs)
    ensures var (bs1, e) := Loaded(cfg, error, bs, lines);
      && Structured(bs1) && bs <= bs1
      && (AllParsed(bs) ==> (e.None? <==> AllParsed(bs1)))
      && (!AllParsed(bs) ==> bs1 == bs && (e.None? <==> forall k :: 0 <= k < |lines| ==> lines[k].Ignored?))
    decreases |lines|
  {
    hide Built;
    if lines != [] {
      if lines[0].Ignored? {
        LoadKeeps(cfg, error, bs, lines[1..]);
        assert lines == [lines[0]] + lines[1..];
      } else {
        AppendKeeps(cfg, error, bs, lines[0].words);
        var (bs1, e) := Appended(cfg, error, bs, lines[0].words);
        if e.None? {
          LoadKeeps(cfg, error, bs1, lines[1..]);
        }
      }
    }
  }

  /** Loading two files one after the other, with append, is loading their concatenation. */
  lemma {:induction false} LoadConcatenated(cfg: Config, error: Option<real>, bs: seq<BlockState>,
                                            f: seq<FileLine>, g: seq<FileLine>)
    requires cfg.Valid() && Structured(bs)
    ensures Loaded(cfg, error, bs, f + g).0 == Loaded(cfg, error, Loaded(cfg, error, bs, f).0, g).0
    ensures Loaded(cfg, error, bs, f).1.None? ==>
      Loaded(cfg, error, bs, f + g).1 == Loaded(cfg, error, Loaded(cfg, error, bs, f).0, g).1
    ensures Loaded(cfg, error, bs, f).1.Some? ==> Loaded(cfg, error, bs, f + g).1 == Loaded(cfg, error, bs, f).1
    decreases |f|
  {
    hide Built, Appended;
    if f == [] {
      assert f + g == g;
    } else {
      assert (f + g)[1..] == f[1..] + g;
      if f[0].Ignored? {
        LoadConcatenated(cfg, error, bs, f[1..], g);
      } else {
        AppendKeeps(cfg, error, bs, f[0].words);
        var (bs1, e) := Appended(cfg, error, bs, f[0].words);
        if e.None? {
          LoadConcatenated(cfg, error, bs1, f[1..], g);
        } else {
          LoadKeeps(cfg, error, bs1, g);
        }
      }
    }
  }

  /** The lines of a file that are not ignored. */
  function CodesOf(lines: seq<FileLine>): seq<seq<Word>> {
    if lines == [] then []
    else if lines[0].Ignored? then CodesOf(lines[1..])
    else [lines[0].words] + CodesOf(lines[1..])
  }

  /** A load makes one block of each line that is not ignored, in order, up to the first one that is refused. */
  lemma {:induction false} LoadedLines(cfg: Config, error: Option<real>, bs: seq<BlockState>, lines: seq<FileLine>)
    requires cfg.Valid()
    ensures var (bs1, e) := Loaded(cfg, error, bs, lines);
      && LinesOf(bs1) <= LinesOf(bs) + CodesOf(lines)
      && (e.None? ==> LinesOf(bs1) == LinesOf(bs) + CodesOf(lines))
    decreases |lines|
  {
    hide Built, Appended;
    if lines != [] && lines[0].Ignored? {
      LoadedLines(cfg, error, bs, lines[1..]);
    } else if lines != [] {
      var (bs1, e) := Appended(cfg, error, bs, lines[0].words);
      AppendedLines(cfg, error, bs, lines[0].words);
      assert LinesOf(bs) + CodesOf(lines) == LinesOf(bs) + [lines[0].words] + CodesOf(lines[1..]);
      if e.None? {
        LoadedLines(cfg, error, bs1, lines[1..]);
      }
    }
  }

  lemma AppendedLines(cfg: Config, error: Option<real>, bs: seq<BlockState>, words: seq<Word>)
    requires cfg.Valid()
    ensures var (bs1, e) := Appended(cfg, error, bs, words);
      && (LinesOf(bs1) == LinesOf(bs) + [words] || (e.Some? && bs1 == bs))
  {
    hide Built;
    BuiltParsed(cfg, error, Prev(bs, |bs|), words);
  }

  /** Loading with append keeps the list and adds to it; without, the list before does not matter; and a file that
      cannot be opened changes nothing. */
  lemma LoadReplaces(cfg: Config, error: Option<real>, bs: seq<BlockState>, lines: seq<FileLine>, cs: seq<BlockState>)
    requires cfg.Valid() && Structured(bs)
    ensures bs <= LoadedFile(cfg, error, bs, Some(lines), true).0
    ensures LoadedFile(cfg, error, bs, Some(lines), false) == LoadedFile(cfg, error, cs, Some(lines), false)
    ensures LinesOf(LoadedFile(cfg, error, bs, Some(lines), false).0) <= CodesOf(lines)
    ensures forall append :: LoadedFile(cfg, error, bs, None, append) == (bs, Some(NoFile))
  {
    hide Loaded;
    LoadKeeps(cfg, error, bs, lines);
    LoadedLines(cfg, error, [], lines);
    assert LinesOf([]) + CodesOf(lines) == CodesOf(lines);
  }

  // ----- histories -----

  datatype Edit = Push(words: seq<Word>) | Load(file: Option<seq<FileLine>>, append: bool) | Reset

  /** The list after an edit that happens while the machine's error is `error`. */
  function Edited(cfg: Config, bs: seq<BlockState>, edit: Edit, error: Option<real>): seq<BlockState>
    requires cfg.Valid()
  {
    match edit
    case Push(words) => Appended(cfg, error, bs, words).0
    case Load(file, append) => LoadedFile(cfg, error, bs, file, append).0
    case Reset => []
  }

  /** The list after a history of edits, from the empty list. */
  function History(cfg: Config, edits: seq<(Edit, Option<real>)>): seq<BlockState>
    requires cfg.Valid()
  {
    if edits == [] then []
    else
      var last := edits[|edits| - 1];
      Edited(cfg, History(cfg, edits[..|edits| - 1]), last.0, last.1)
  }

  /** No number before a parsed block is the greatest `size_t`, after which an inherited number starts again
      at 0. */
  predicate Unwrapped(bs: seq<BlockState>) {
    forall i :: 0 < i < |bs| && bs[i].parsed ==> bs[i - 1].n != SIZE_MOD - 1
  }

  /** The numbers of the parsed blocks. */
  ghost predicate Increasing(bs: seq<BlockState>) {
    forall i, j :: 0 <= i < j < |bs| && bs[j].parsed ==> bs[i].n < bs[j].n
  }

  /** Where each block stands: it carries on from the one before. */
  ghost predicate Follows(cfg: Config, bs: seq<BlockState>, i: int)
    requires 0 <= i < |bs|
  {
    && 0 <= bs[i].n < SIZE_MOD
    && (bs[i].parsed ==> Ready(cfg, StartOf(cfg, Prev(bs, i)), bs[i]))
    && (i > 0 && bs[i].parsed ==> bs[i].n > bs[i - 1].n || bs[i].n == ToSize(bs[i - 1].n + 1))
    && (bs[i].profile.Planned? ==> bs[i].parsed && Interpolated(bs[i].kind))
    && Made(cfg, Prev(bs, i), bs[i])
  }

  /** A block is what its line makes of it after `prev`, for whatever error the machine had then. */
  ghost predicate Made(cfg: Config, prev: Option<BlockState>, b: BlockState) {
    cfg.Valid() && exists error :: b == Built(cfg, error, prev, b.words).0
  }

  ghost predicate Sane(cfg: Config, bs: seq<BlockState>) {
    Structured(bs) && forall i :: 0 <= i < |bs| ==> Follows(cfg, bs, i)
  }

  /** A block that has just been built follows the one before it. */
  lemma BuiltFollows(cfg: Config, error: Option<real>, prev: Option<BlockState>, words: seq<Word>)
    requires cfg.Valid()
    ensures var (b, e) := Built(cfg, error, prev, words);
      && 0 <= b.n < SIZE_MOD
      && (b.parsed ==> Ready(cfg, StartOf(cfg, prev), b))
      && (b.parsed && prev.Some? ==> b.n > prev.value.n || b.n == ToSize(prev.value.n + 1))
      && (b.profile.Planned? ==> b.parsed && Interpolated(b.kind))
      && Made(cfg, prev, b)
  {
    var s0 := Opened(prev, words);
    BuiltParsed(cfg, error, prev, words);
    ReadKeeps(s0, words, NumberOf(prev));
    var (s, e0) := ReadWords(s0, words, NumberOf(prev));
    hide ReadWords, Planning, Displaced;
    FinishKeeps(cfg, error, StartOf(cfg, prev), s);
    if Built(cfg, error, prev, words).1.None? {
      LastWholeWins(s0, words, NumberOf(prev));
      FinishReady(cfg, error, StartOf(cfg, prev), s);
    }
  }

  lemma AppendSane(cfg: Config, error: Option<real>, bs: seq<BlockState>, words: seq<Word>)
    requires cfg.Valid() && Sane(cfg, bs)
    ensures Sane(cfg, Appended(cfg, error, bs, words).0)
  {
    hide Built, Ready;
    AppendKeeps(cfg, error, bs, words);
    BuiltFollows(cfg, error, Prev(bs, |bs|), words);
    var bs1 := Appended(cfg, error, bs, words).0;
    forall i | 0 <= i < |bs1|
      ensures Follows(cfg, bs1, i)
    {
      if i < |bs| {
        assert Follows(cfg, bs, i) && Prev(bs1, i) == Prev(bs, i);
      } else {
        assert Prev(bs1, i) == Prev(bs, |bs|);
      }
    }
  }

  lemma {:induction false} LoadSane(cfg: Config, error: Option<real>, bs: seq<BlockState>, lines: seq<FileLine>)
    requires cfg.Valid() && Sane(cfg, bs)
    ensures Sane(cfg, Loaded(cfg, error, bs, lines).0)
    decreases |lines|
  {
    hide Appended, Follows;
    if lines != [] {
      if lines[0].Ignored? {
        LoadSane(cfg, error, bs, lines[1..]);
      } else {
        AppendSane(cfg, error, bs, lines[0].words);
        var (bs1, e) := Appended(cfg, error, bs, lines[0].words);
        if e.None? {
          LoadSane(cfg, error, bs1, lines[1..]);
        }
      }
    }
  }

  /** After every history of edits, whatever the machine's error was at each of them, all blocks but
      possibly the last are parsed, and each block carries on from the one before it. */
  lemma {:induction false} HistorySane(cfg: Config, edits: seq<(Edit, Option<real>)>)
    requires cfg.Valid()
    ensures Sane(cfg, History(cfg, edits))
    decreases |edits|
  {
    hide Appended, Loaded, Follows;
    if edits != [] {
      var last := edits[|edits| - 1];
      var bs := History(cfg, edits[..|edits| - 1]);
      HistorySane(cfg, edits[..|edits| - 1]);
      match last.0
      case Push(words) => AppendSane(cfg, last.1, bs, words);
      case Load(file, append) =>
        if file.Some? {
          LoadSane(cfg, last.1, if append then bs else [], file.value);
        }
      case Reset =>
    }
  }

  /** The numbers of the parsed blocks strictly increase exactly when none but the last is the greatest
      number: after that one an inherited number starts again at 0, and no N word is accepted. */
  lemma NumbersIncrease(cfg: Config, bs: seq<BlockState>)
    requires Sane(cfg, bs)
    ensures Increasing(bs) <==> Unwrapped(bs)
  {
    hide Ready, Made;
    if Increasing(bs) {
      forall i | 0 < i < |bs| && bs[i].parsed
        ensures bs[i - 1].n != SIZE_MOD - 1
      {
        assert bs[i - 1].n < bs[i].n && Follows(cfg, bs, i);
      }
    }
    if Unwrapped(bs) {
      forall i, j | 0 <= i < j < |bs| && bs[j].parsed
        ensures bs[i].n < bs[j].n
      {
        NumbersClimb(cfg, bs, i, j);
      }
    }
  }

  lemma {:induction false} NumbersClimb(cfg: Config, bs: seq<BlockState>, i: int, j: int)
    requires Sane(cfg, bs) && Unwrapped(bs) && 0 <= i < j < |bs| && bs[j].parsed
    ensures bs[i].n < bs[j].n
    decreases j
  {
    hide Ready, Made;
    assert Follows(cfg, bs, j - 1) && Follows(cfg, bs, j);
    assert bs[j - 1].n < bs[j].n;
    if i < j - 1 {
      NumbersClimb(cfg, bs, i, j - 1);
    }
  }

  /** Such programs exist: N-1 is the greatest number, and the line after it, with no N, starts at 0. */
  lemma NumbersCanWrap(cfg: Config, error: Option<real>)
    requires cfg.Valid()
    ensures var minus, g := Word('N', Text(Some(-1), None)), Word('G', Text(Some(0), None));
      var (bs, e) := Loaded(cfg, error, [], [Code([minus, g]), Code([g])]);
      e.None? && |bs| == 2 && bs[0].n == SIZE_MOD - 1 && bs[1].n == 0
  {
    hide Built;
    var minus, g := Word('N', Text(Some(-1), None)), Word('G', Text(Some(0), None));
    var first, second := Code([minus, g]), Code([g]);
    assert [minus, g][1..] == [g] && [g][1..] == [];
    assert LastKind([g]) == Some(0) && LastWhole([g], 'N') == None;
    StillLine(cfg, error, None, [minus, g]);
    var b := Built(cfg, error, None, [minus, g]).0;
    StillLine(cfg, error, Some(b), [g]);
    var c := Built(cfg, error, Some(b), [g]).0;
    assert [] + [b] == [b] && [b] + [c] == [b, c] && Prev([b], 1) == Some(b);
    assert Appended(cfg, error, [], first.words) == ([b], None);
    assert Appended(cfg, error, [b], second.words) == ([b, c], None);
    assert [first, second][1..] == [second] && [second][1..] == [];
    assert Loaded(cfg, error, [b, c], []) == ([b, c], None);
    assert Loaded(cfg, error, [b], [second]) == ([b, c], None);
  }

  /** A line that reads without fault as a type that needs no profile is parsed. */
  lemma StillLine(cfg: Config, error: Option<real>, prev: Option<BlockState>, words: seq<Word>)
    requires cfg.Valid() && (prev.Some? ==> prev.value.target.Complete())
    requires AllReadable(words, NumberOf(prev)) && LastKind(words).Some? && !Interpolated(KindOf(LastKind(words).value))
    ensures var (b, e) := Built(cfg, error, prev, words);
      && e.None? && b.parsed && b.target.Complete()
      && b.n == if LastWhole(words, 'N').Some? then ToSize(LastWhole(words, 'N').value) else Opened(prev, words).n
  {
    var s0 := Opened(prev, words);
    ReadsAll(s0, words, NumberOf(prev));
    LastWholeWins(s0, words, NumberOf(prev));
    var s := ReadWords(s0, words, NumberOf(prev)).0;
    hide ReadWords, Planning, WithArc, PutAll, LastKind, LastWhole, KindOf;
    ModalCompletes(s.target, StartOf(cfg, prev));
  }

  // ----- modal inheritance -----

  /** The latest number written for letter `c` in the lines of the first `n` blocks. */
  function LatestNumber(bs: seq<BlockState>, n: nat, c: char): Option<real>
    requires n <= |bs|
  {
    if n == 0 then None else OrElse(LastNumber(bs[n - 1].words, c), LatestNumber(bs, n - 1, c))
  }

  function LatestTool(bs: seq<BlockState>, n: nat): Option<int>
    requires n <= |bs|
  {
    if n == 0 then None else OrElse(LastWhole(bs[n - 1].words, 'T'), LatestTool(bs, n - 1))
  }

  predicate Coordinate(c: char) {
    c == 'X' || c == 'Y' || c == 'Z'
  }

  /** The value of a modal letter before any word is read. */
  function Initial(cfg: Config, c: char): Option<real>
    requires Coordinate(c) || c == 'F' || c == 'S'
  {
    match c
    case 'X' => cfg.zero.x
    case 'Y' => cfg.zero.y
    case 'Z' => cfg.zero.z
    case _ => Some(0.0)
  }

  /** One line: the last word of a modal letter wins, else the previous block's value, else the initial one. */
  lemma BuiltModal(cfg: Config, error: Option<real>, prev: Option<BlockState>, words: seq<Word>, c: char)
    requires cfg.Valid() && (prev.Some? ==> prev.value.target.Complete())
    requires Built(cfg, error, prev, words).1.None? && (Coordinate(c) || c == 'F' || c == 'S')
    ensures var b := Built(cfg, error, prev, words).0;
      && b.target.Complete()
      && NumberAt(b, c) == OrElse(LastNumber(words, c), if prev.Some? then NumberAt(prev.value, c) else Initial(cfg, c))
      && b.tool == (if LastWhole(words, 'T').Some? then ToSize(LastWhole(words, 'T').value)
                    else if prev.Some? then prev.value.tool
                    else 0)
  {
    var s0 := Opened(prev, words);
    BuiltParsed(cfg, error, prev, words);
    var s := ReadWords(s0, words, NumberOf(prev)).0;
    LastNumberWins(s0, words, NumberOf(prev), c);
    LastWholeWins(s0, words, NumberOf(prev));
    hide ReadWords, Finish, LastNumber, LastWhole;
    FinishKeeps(cfg, error, StartOf(cfg, prev), s);
    ModalCompletes(s.target, StartOf(cfg, prev));
  }

  lemma MadeAt(cfg: Config, bs: seq<BlockState>, i: nat) returns (error: Option<real>)
    requires cfg.Valid() && Sane(cfg, bs) && i < |bs| && bs[i].parsed
    ensures Built(cfg, error, Prev(bs, i), bs[i].words) == (bs[i], None)
    ensures i > 0 ==> bs[i - 1].parsed
  {
    hide Built, Ready;
    assert Follows(cfg, bs, i);
    error :| bs[i] == Built(cfg, error, Prev(bs, i), bs[i].words).0;
    BuiltParsed(cfg, error, Prev(bs, i), bs[i].words);
  }

  /** After any history, the target of every parsed block is complete, and each of X, Y, Z, F and S has the
      latest value written at or before the block, else the machine zero (0 for F and S). */
  lemma {:induction false} LastWriterWins(cfg: Config, bs: seq<BlockState>, i: nat, c: char)
    requires cfg.Valid() && Sane(cfg, bs) && i < |bs| && bs[i].parsed
    requires Coordinate(c) || c == 'F' || c == 'S'
    ensures bs[i].target.Complete()
    ensures NumberAt(bs[i], c) == OrElse(LatestNumber(bs, i + 1, c), Initial(cfg, c))
    decreases i
  {
    hide Built, LastNumber, LastWhole, ToSize, NumberAt, Initial, Config.Valid, Sane;
    var error := MadeAt(cfg, bs, i);
    if i > 0 {
      LastWriterWins(cfg, bs, i - 1, c);
    }
    BuiltModal(cfg, error, Prev(bs, i), bs[i].words, c);
  }

  /** The same for the tool. */
  lemma {:induction false} LastToolWins(cfg: Config, bs: seq<BlockState>, i: nat)
    requires cfg.Valid() && Sane(cfg, bs) && i < |bs| && bs[i].parsed
    ensures bs[i].tool == if LatestTool(bs, i + 1).Some? then ToSize(LatestTool(bs, i + 1).value) else 0
    decreases i
  {
    hide Built, LastNumber, LastWhole, ToSize, NumberAt, Initial, Config.Valid, Sane;
    var error := MadeAt(cfg, bs, i);
    if i > 0 {
      LastToolWins(cfg, bs, i - 1);
      LastWriterWins(cfg, bs, i - 1, 'X');
    }
    BuiltModal(cfg, error, Prev(bs, i), bs[i].words, 'X');
  }

  // ----- positions -----

  function SumOf(bs: seq<BlockState>, n: nat): (real, real, real)
    requires n <= |bs| && forall i :: 0 <= i < n ==> bs[i].delta.Complete()
  {
    if n == 0 then (0.0, 0.0, 0.0)
    else
      var (x, y, z) := SumOf(bs, n - 1);
      var d := bs[n - 1].delta;
      assert bs[n - 1].delta.Complete();
      (x + d.x.value, y + d.y.value, z + d.z.value)
  }

  /** The displacements of the first `n` blocks add up to the last one's target minus the machine zero. */
  lemma {:induction false} DeltasTelescope(cfg: Config, bs: seq<BlockState>, n: nat)
    requires cfg.Valid() && Sane(cfg, bs) && 0 < n <= |bs| && bs[n - 1].parsed
    ensures forall i :: 0 <= i < n ==> bs[i].delta.Complete() && bs[i].target.Complete()
    ensures var (x, y, z) := SumOf(bs, n); At(x, y, z) == bs[n - 1].target.Delta(cfg.zero)
    decreases n
  {
    hide Made;
    assert Follows(cfg, bs, n - 1);
    if n > 1 {
      DeltasTelescope(cfg, bs, n - 1);
    }
  }

  // ----- rebuilding from the stored lines -----

  /** A list that grew by appends under one machine error is chained. */
  lemma AppendChained(cfg: Config, error: Option<real>, bs: seq<BlockState>, words: seq<Word>)
    requires cfg.Valid() && Chained(cfg, error, bs)
    ensures Chained(cfg, error, Appended(cfg, error, bs, words).0)
  {
    hide Built;
    AppendKeeps(cfg, error, bs, words);
    BuiltParsed(cfg, error, Prev(bs, |bs|), words);
    var bs1 := Appended(cfg, error, bs, words).0;
    forall i | 0 <= i < |bs1|
      ensures bs1[i] == Built(cfg, error, Prev(bs1, i), bs1[i].words).0
    {
      assert Prev(bs1, i) == Prev(bs, i);
    }
  }

  lemma {:induction false} LoadChained(cfg: Config, error: Option<real>, bs: seq<BlockState>, lines: seq<FileLine>)
    requires cfg.Valid() && Chained(cfg, error, bs)
    ensures Chained(cfg, error, Loaded(cfg, error, bs, lines).0)
    decreases |lines|
  {
    hide Built, Appended;
    if lines != [] {
      if lines[0].Ignored? {
        LoadChained(cfg, error, bs, lines[1..]);
      } else {
        AppendChained(cfg, error, bs, lines[0].words);
        var (bs1, e) := Appended(cfg, error, bs, lines[0].words);
        if e.None? {
          LoadChained(cfg, error, bs1, lines[1..]);
        }
      }
    }
  }
}
