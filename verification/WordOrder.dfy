/** The token loop of `Block::parse` (src/block.cpp): the last word of each letter wins, and the order of
    words with different letters does not matter, save that N is also read as G. */
module WordOrder {
  import opened Numerics
  import opened Points
  import opened Machines
  import opened Arcs
  import opened BlockSpec

  predicate Comments(w: Word) {
    Command(w) == '#' || Command(w) == ';'
  }

  /** A word that reading accepts, in whatever state the block is. */
  predicate Readable(w: Word, prevN: Option<int>) {
    && !Comments(w) && w.arg.Text?
    && (TakesWhole(Command(w)) ==> w.arg.whole.Some? && !(Command(w) == 'N' && Stale(prevN, ToSize(w.arg.whole.value))))
    && (TakesNumber(Command(w)) ==> w.arg.number.Some?)
    && (TakesWhole(Command(w)) || TakesNumber(Command(w)))
  }

  lemma ReadableReads(s: BlockState, w: Word, prevN: Option<int>)
    ensures ReadWord(s, w, prevN).1.More? <==> Readable(w, prevN)
    ensures Readable(w, prevN) ==> ReadWord(s, w, prevN).0 == Put(s, w)
  {}

  /** What a readable word assigns. */
  function Put(s: BlockState, w: Word): BlockState {
    var c := Command(w);
    if TakesWhole(c) && w.arg.Text? && w.arg.whole.Some? then PutWhole(s, c, w.arg.whole.value)
    else if TakesNumber(c) && w.arg.Text? && w.arg.number.Some? then PutNumber(s, c, w.arg.number.value)
    else s
  }

  // ----- order -----

  /** Two words that may not be exchanged: the same letter, or N and G. */
  predicate Bound(v: Word, w: Word) {
    var c, d := Command(v), Command(w);
    c == d || (c == 'N' && d == 'G') || (c == 'G' && d == 'N')
  }

  lemma NumbersCommute(s: BlockState, c: char, v: real, d: char, w: real)
    requires TakesNumber(c) && TakesNumber(d) && c != d
    ensures PutNumber(PutNumber(s, c, v), d, w) == PutNumber(PutNumber(s, d, w), c, v)
  {
    match c
    case 'X' =>
    case 'Y' =>
    case 'Z' =>
    case 'I' =>
    case 'J' =>
    case 'R' =>
    case 'F' =>
    case _ =>
  }

  lemma WholesCommute(s: BlockState, c: char, v: int, d: char, w: int)
    requires TakesWhole(c) && TakesWhole(d) && c != d
    requires !(c == 'N' && d == 'G') && !(c == 'G' && d == 'N')
    ensures PutWhole(PutWhole(s, c, v), d, w) == PutWhole(PutWhole(s, d, w), c, v)
  {
    hide ToSize, KindOf;
    match c
    case 'N' =>
    case 'G' =>
    case 'T' =>
    case _ =>
  }

  lemma WholeNumberCommute(s: BlockState, c: char, v: int, d: char, w: real)
    requires TakesWhole(c) && TakesNumber(d)
    ensures PutNumber(PutWhole(s, c, v), d, w) == PutWhole(PutNumber(s, d, w), c, v)
  {
    hide ToSize, KindOf;
    match c
    case 'N' =>
    case 'G' =>
    case 'T' =>
    case _ =>
  }

  lemma PutCommutes(s: BlockState, v: Word, w: Word)
    requires !Bound(v, w)
    ensures Put(Put(s, v), w) == Put(Put(s, w), v)
  {
    hide PutWhole, PutNumber, Command;
    var c, d := Command(v), Command(w);
    if v.arg.Text? && w.arg.Text? {
      if TakesWhole(c) && TakesWhole(d) && v.arg.whole.Some? && w.arg.whole.Some? {
        WholesCommute(s, c, v.arg.whole.value, d, w.arg.whole.value);
      } else if TakesWhole(c) && TakesNumber(d) && v.arg.whole.Some? && w.arg.number.Some? {
        WholeNumberCommute(s, c, v.arg.whole.value, d, w.arg.number.value);
      } else if TakesNumber(c) && TakesWhole(d) && v.arg.number.Some? && w.arg.whole.Some? {
        WholeNumberCommute(s, d, w.arg.whole.value, c, v.arg.number.value);
      } else if TakesNumber(c) && TakesNumber(d) && v.arg.number.Some? && w.arg.number.Some? {
        NumbersCommute(s, c, v.arg.number.value, d, w.arg.number.value);
      }
    }
  }

  ghost predicate AllReadable(ws: seq<Word>, prevN: Option<int>) {
    forall k :: 0 <= k < |ws| ==> Readable(ws[k], prevN)
  }

  /** No letter occurs twice. */
  ghost predicate Distinct(ws: seq<Word>) {
    forall j, k :: 0 <= j < k < |ws| ==> Command(ws[j]) != Command(ws[k])
  }

  /** No G stands before an N. */
  ghost predicate NumberFirst(ws: seq<Word>) {
    forall j, k :: 0 <= j < k < |ws| ==> !(Command(ws[j]) == 'G' && Command(ws[k]) == 'N')
  }

  function PutAll(s: BlockState, ws: seq<Word>): BlockState
    decreases |ws|
  {
    if ws == [] then s else PutAll(Put(s, ws[0]), ws[1..])
  }

  lemma {:induction false} ReadsAll(s: BlockState, ws: seq<Word>, prevN: Option<int>)
    requires AllReadable(ws, prevN)
    ensures ReadWords(s, ws, prevN) == (PutAll(s, ws), None)
    decreases |ws|
  {
    if ws != [] {
      ReadableReads(s, ws[0], prevN);
      ReadsAll(Put(s, ws[0]), ws[1..], prevN);
    }
  }

  /** A word that is not bound to any word before it can be read first. */
  lemma {:induction false} PutFirst(s: BlockState, ws: seq<Word>, k: nat)
    requires k < |ws| && forall j :: 0 <= j < k ==> !Bound(ws[j], ws[k])
    ensures PutAll(s, ws) == PutAll(Put(s, ws[k]), ws[..k] + ws[k + 1..])
    decreases k
  {
    if k == 0 {
      assert ws[..0] + ws[1..] == ws[1..];
    } else {
      var rest := ws[..k] + ws[k + 1..];
      PutFirst(Put(s, ws[0]), ws[1..], k - 1);
      PutCommutes(s, ws[0], ws[k]);
      assert rest[1..] == ws[1..][..k - 1] + ws[1..][k..];
    }
  }

  lemma WithoutOne(ws: seq<Word>, k: nat)
    requires k < |ws| && Distinct(ws) && NumberFirst(ws)
    ensures Distinct(ws[..k] + ws[k + 1..]) && NumberFirst(ws[..k] + ws[k + 1..])
    ensures multiset(ws) == multiset{ws[k]} + multiset(ws[..k] + ws[k + 1..])
  {
    assert ws == ws[..k] + [ws[k]] + ws[k + 1..];
    var us := ws[..k] + ws[k + 1..];
    hide Command;
    assert forall i :: 0 <= i < |us| ==> us[i] == ws[if i < k then i else i + 1];
  }

  /** In a permutation that keeps N before G, nothing that precedes its first word elsewhere is bound to it. */
  lemma FirstIsFree(ws: seq<Word>, vs: seq<Word>, k: nat, j: nat)
    requires multiset(ws) == multiset(vs) && Distinct(ws) && NumberFirst(ws) && NumberFirst(vs)
    requires vs != [] && j < k < |ws| && ws[k] == vs[0]
    ensures !Bound(ws[j], vs[0])
  {
    assert ws[j] in multiset(ws);
    var i :| 0 <= i < |vs| && vs[i] == ws[j];
  }

  lemma {:induction false} PutPermuted(s: BlockState, ws: seq<Word>, vs: seq<Word>)
    requires multiset(ws) == multiset(vs) && Distinct(ws) && NumberFirst(ws) && NumberFirst(vs)
    ensures PutAll(s, ws) == PutAll(s, vs)
    decreases |vs|
  {
    hide Put, Bound, Distinct;
    if vs == [] {
      assert |multiset(ws)| == |ws|;
    } else {
      var w := vs[0];
      assert w in multiset(ws);
      var k :| 0 <= k < |ws| && ws[k] == w;
      forall j | 0 <= j < k
        ensures !Bound(ws[j], w)
      {
        FirstIsFree(ws, vs, k, j);
      }
      PutFirst(s, ws, k);
      WithoutOne(ws, k);
      assert vs == [w] + vs[1..];
      assert multiset(ws) - multiset{w} == multiset(vs[1..]);
      PutPermuted(Put(s, w), ws[..k] + ws[k + 1..], vs[1..]);
    }
  }

  lemma PermutedReadable(ws: seq<Word>, vs: seq<Word>, prevN: Option<int>)
    requires multiset(ws) == multiset(vs) && AllReadable(ws, prevN)
    ensures AllReadable(vs, prevN)
  {
    forall k | 0 <= k < |vs|
      ensures Readable(vs[k], prevN)
    {
      assert vs[k] in multiset(ws);
    }
  }

  /** Rewriting a line as any permutation of its words, with N still before G, leaves the block that is
      built from it the same but for the text of the line. */
  lemma OrderIrrelevant(cfg: Config, error: Option<real>, prev: Option<BlockState>, ws: seq<Word>, vs: seq<Word>)
    requires cfg.Valid() && multiset(ws) == multiset(vs)
    requires AllReadable(ws, NumberOf(prev)) && Distinct(ws) && NumberFirst(ws) && NumberFirst(vs)
    ensures Built(cfg, error, prev, vs).1 == Built(cfg, error, prev, ws).1
    ensures Built(cfg, error, prev, vs).0 == Built(cfg, error, prev, ws).0.(words := vs)
  {
    hide Finish, PutAll, Distinct, NumberFirst;
    var s := Opened(prev, ws);
    PermutedReadable(ws, vs, NumberOf(prev));
    ReadsAll(s, ws, NumberOf(prev));
    ReadsAll(Opened(prev, vs), vs, NumberOf(prev));
    PutPermuted(s, ws, vs);
    PutAllText(s, vs, vs);
    FinishText(cfg, error, StartOf(cfg, prev), PutAll(s, vs), vs);
  }

  lemma {:induction false} PutAllText(s: BlockState, ws: seq<Word>, text: seq<Word>)
    ensures PutAll(s.(words := text), ws) == PutAll(s, ws).(words := text)
    decreases |ws|
  {
    if ws != [] {
      PutText(s, ws[0], text);
      PutAllText(Put(s, ws[0]), ws[1..], text);
    }
  }

  lemma PutText(s: BlockState, w: Word, text: seq<Word>)
    ensures Put(s.(words := text), w) == Put(s, w).(words := text)
  {
    hide ToSize, KindOf, Command;
  }

  lemma FinishText(cfg: Config, error: Option<real>, start: Point, s: BlockState, text: seq<Word>)
    requires cfg.Valid()
    ensures Finish(cfg, error, start, s.(words := text)).1 == Finish(cfg, error, start, s).1
    ensures Finish(cfg, error, start, s.(words := text)).0 == Finish(cfg, error, start, s).0.(words := text)
  {
    hide Moved, Point.Modal, Point.Delta, Point.Length, Config.Valid;
    if start.Complete() {
      ModalCompletes(s.target, start);
      MovedText(cfg, error, start, Displaced(cfg, start, s.(target := s.target.Modal(start))), text);
    }
  }

  lemma MovedText(cfg: Config, error: Option<real>, start: Point, s: BlockState, text: seq<Word>)
    requires cfg.Valid() && start.Complete() && s.target.Complete()
    ensures Moved(cfg, error, start, s.(words := text)).1 == Moved(cfg, error, start, s).1
    ensures Moved(cfg, error, start, s.(words := text)).0 == Moved(cfg, error, start, s).0.(words := text)
  {
    hide ArcOf, ArcCap, Config.Valid;
  }

  // ----- the last word of a letter -----

  function OrElse<T>(o: Option<T>, p: Option<T>): Option<T> {
    if o.Some? then o else p
  }

  /** The number of the last word of letter `c` before any comment. */
  function LastNumber(ws: seq<Word>, c: char): Option<real>
    decreases |ws|
  {
    if ws == [] || Comments(ws[0]) then None
    else OrElse(LastNumber(ws[1..], c), if Command(ws[0]) == c && ws[0].arg.Text? then ws[0].arg.number else None)
  }

  /** The integer of the last word of letter `c` before any comment. */
  function LastWhole(ws: seq<Word>, c: char): Option<int>
    decreases |ws|
  {
    if ws == [] || Comments(ws[0]) then None
    else OrElse(LastWhole(ws[1..], c), WholeOf(ws[0], c))
  }

  /** The last number that is the type of the block: that of a G word or of an N word. */
  function LastKind(ws: seq<Word>): Option<int>
    decreases |ws|
  {
    if ws == [] || Comments(ws[0]) then None
    else OrElse(LastKind(ws[1..]), KindFrom(ws[0]))
  }

  /** The field that a letter with a number writes. */
  function NumberAt(s: BlockState, c: char): Option<real>
    requires TakesNumber(c)
  {
    match c
    case 'X' => s.target.x
    case 'Y' => s.target.y
    case 'Z' => s.target.z
    case 'I' => Some(s.i)
    case 'J' => Some(s.j)
    case 'R' => Some(s.r)
    case 'F' => Some(s.feedrate)
    case _ => Some(s.spindle)
  }

  /** After the token loop every field that takes a number holds the last number written to it. */
  lemma {:induction false} LastNumberWins(s: BlockState, ws: seq<Word>, prevN: Option<int>, c: char)
    requires TakesNumber(c) && ReadWords(s, ws, prevN).1.None?
    ensures NumberAt(ReadWords(s, ws, prevN).0, c) == OrElse(LastNumber(ws, c), NumberAt(s, c))
    decreases |ws|
  {
    if ws != [] && !Comments(ws[0]) {
      var s1 := ReadWord(s, ws[0], prevN).0;
      LastNumberWins(s1, ws[1..], prevN, c);
      NumberWritten(s, ws[0], prevN, c);
    }
  }

  lemma NumberWritten(s: BlockState, w: Word, prevN: Option<int>, c: char)
    requires TakesNumber(c) && ReadWord(s, w, prevN).1.More?
    ensures NumberAt(ReadWord(s, w, prevN).0, c) ==
      OrElse(if Command(w) == c && w.arg.Text? then w.arg.number else None, NumberAt(s, c))
  {
    hide ToSize, KindOf, Command;
  }

  function WholeOf(w: Word, c: char): Option<int> {
    if Command(w) == c && w.arg.Text? then w.arg.whole else None
  }

  function KindFrom(w: Word): Option<int> {
    OrElse(WholeOf(w, 'N'), WholeOf(w, 'G'))
  }

  /** `r` is `s` with the integers `number`, `tool`, `m` and `kind` written, where there are any. */
  ghost predicate Wrote(s: BlockState, r: BlockState, number: Option<int>, tool: Option<int>, m: Option<int>,
                        kind: Option<int>) {
    && r.n == (if number.Some? then ToSize(number.value) else s.n)
    && r.tool == (if tool.Some? then ToSize(tool.value) else s.tool)
    && r.m == (if m.Some? then ToSize(m.value) else s.m)
    && r.kind == (if kind.Some? then KindOf(kind.value) else s.kind)
    && r.parsed == s.parsed && r.profile == s.profile && r.words == s.words
  }

  lemma WholeWritten(s: BlockState, w: Word, prevN: Option<int>)
    requires ReadWord(s, w, prevN).1.More?
    ensures Wrote(s, ReadWord(s, w, prevN).0, WholeOf(w, 'N'), WholeOf(w, 'T'), WholeOf(w, 'M'), KindFrom(w))
    ensures WholeOf(w, 'N').Some? ==> !Stale(prevN, ReadWord(s, w, prevN).0.n)
  {
    hide ToSize, KindOf, Command;
  }

  /** The same for the fields that take an integer: number, tool and M argument, and the type, which both
      N and G write. */
  lemma {:induction false} LastWholeWins(s: BlockState, ws: seq<Word>, prevN: Option<int>)
    requires ReadWords(s, ws, prevN).1.None?
    ensures Wrote(s, ReadWords(s, ws, prevN).0, LastWhole(ws, 'N'), LastWhole(ws, 'T'), LastWhole(ws, 'M'),
                  LastKind(ws))
    ensures LastWhole(ws, 'N').Some? ==> !Stale(prevN, ReadWords(s, ws, prevN).0.n)
    decreases |ws|
  {
    hide ToSize, KindOf, Command;
    if ws != [] && !Comments(ws[0]) {
      WholeWritten(s, ws[0], prevN);
      var (s1, read) := ReadWord(s, ws[0], prevN);
      assert read.More?;
      hide ReadWord;
      LastWholeWins(s1, ws[1..], prevN);
    }
  }
}
