/** What a line of G-code means (src/block.cpp): the block that it is parsed to, in terms of the last word of
    each letter and of the block before it. */
module Lines {
  import opened Numerics
  import opened Points
  import opened Machines
  import opened Profiles
  import opened Arcs
  import opened BlockSpec
  import opened BlockFacts
  import opened WordOrder
  import opened ProgramFacts
  import opened FsmSpec

  // ----- words -----

  /** A lower-case letter reads as the upper-case one, and no other letter changes. */
  lemma CaseIgnored(s: BlockState, w: Word, prevN: Option<int>)
    ensures 'a' <= w.letter <= 'z' ==>
      ReadWord(s, w, prevN) == ReadWord(s, w.(letter := (w.letter as int - 32) as char), prevN)
    ensures !('a' <= w.letter <= 'z') ==> Command(w) == w.letter
  {}

  /** What becomes of a word, by its letter and its argument: twelve letters are known, four of them take an
      integer and eight a number, and an N must exceed the number of the block before. */
  lemma WordRead(s: BlockState, w: Word, prevN: Option<int>)
    ensures var c, read := Command(w), ReadWord(s, w, prevN).1;
      var whole, number := c in "NGTM", c in "XYZIJRFS";
      var exceeds :=
        w.arg.Text? && w.arg.whole.Some? && prevN.Some? ==> prevN.value < ToSize(w.arg.whole.value);
      && (read.Comment? <==> c == '#' || c == ';')
      && (read.More? <==>
          w.arg.Text? && !read.Comment? &&
          ((whole && w.arg.whole.Some? && (c == 'N' ==> exceeds)) || (number && w.arg.number.Some?)))
      && (read == Bad(MissingArgument) <==> w.arg.Missing? && !read.Comment?)
      && (read == Bad(UnknownCommand) <==> w.arg.Text? && !read.Comment? && !whole && !number)
      && (read == Bad(BadNumber) <==>
          w.arg.Text? && !read.Comment? && ((whole && w.arg.whole.None?) || (number && w.arg.number.None?)))
      && (read == Bad(NotIncreasing) <==>
          w.arg.Text? && c == 'N' && w.arg.whole.Some? && !exceeds)
  {
    hide ToSize, Command;
  }

  /** The words before the first comment are all readable. */
  ghost predicate Accepted(ws: seq<Word>, prevN: Option<int>) {
    ws == [] || Comments(ws[0]) || (Readable(ws[0], prevN) && Accepted(ws[1..], prevN))
  }

  /** Reading a line throws nothing exactly when the words before the first comment are all readable. */
  lemma {:induction false} ReadsWhen(s: BlockState, ws: seq<Word>, prevN: Option<int>)
    ensures ReadWords(s, ws, prevN).1.None? <==> Accepted(ws, prevN)
    decreases |ws|
  {
    if ws != [] {
      ReadableReads(s, ws[0], prevN);
      if ReadWord(s, ws[0], prevN).1.More? {
        ReadsWhen(ReadWord(s, ws[0], prevN).0, ws[1..], prevN);
      }
    }
  }

  // ----- the fields that a line sets -----

  function Value(o: Option<real>): real {
    if o.Some? then o.value else 0.0
  }

  /** The fields that nothing is inherited for, as reading leaves them. */
  lemma OwnWords(prev: Option<BlockState>, words: seq<Word>)
    requires ReadWords(Opened(prev, words), words, NumberOf(prev)).1.None?
    ensures var s := ReadWords(Opened(prev, words), words, NumberOf(prev)).0;
      && s.i == Value(LastNumber(words, 'I')) && s.j == Value(LastNumber(words, 'J'))
      && s.r == Value(LastNumber(words, 'R'))
      && s.m == (if LastWhole(words, 'M').Some? then ToSize(LastWhole(words, 'M').value) else 0)
      && s.target == Point(LastNumber(words, 'X'), LastNumber(words, 'Y'), LastNumber(words, 'Z'))
      && s.kind == (if LastKind(words).Some? then KindOf(LastKind(words).value) else NoMotion)
      && s.words == words
  {
    hide ReadWords, LastNumber, LastWhole, LastKind, KindOf, ToSize;
    var s0 := Opened(prev, words);
    LastNumberWins(s0, words, NumberOf(prev), 'I');
    LastNumberWins(s0, words, NumberOf(prev), 'J');
    LastNumberWins(s0, words, NumberOf(prev), 'R');
    LastNumberWins(s0, words, NumberOf(prev), 'X');
    LastNumberWins(s0, words, NumberOf(prev), 'Y');
    LastNumberWins(s0, words, NumberOf(prev), 'Z');
    LastWholeWins(s0, words, NumberOf(prev));
  }

  /** The part of a parse after the words leaves these fields alone; only an arc's radius changes. */
  lemma FinishOwn(cfg: Config, error: Option<real>, start: Point, s: BlockState)
    requires cfg.Valid()
    ensures var b := Finish(cfg, error, start, s).0;
      b.i == s.i && b.j == s.j && b.m == s.m && (!b.kind.Cwa? && !b.kind.Ccwa? ==> b.r == s.r)
  {
    hide ArcOf, ArcCap, Plan, Point.Delta, Point.Length, Libm.Valid;
    if start.Complete() {
      ModalCompletes(s.target, start);
    }
  }

  lemma BuiltIs(cfg: Config, error: Option<real>, prev: Option<BlockState>, words: seq<Word>)
    requires cfg.Valid()
    ensures var (s, e) := ReadWords(Opened(prev, words), words, NumberOf(prev));
      Built(cfg, error, prev, words) == if e.Some? then (s, e) else Finish(cfg, error, StartOf(cfg, prev), s)
  {
    hide ReadWords, Finish;
  }

  /** I, J and M are those of the line, or 0, and so is R but on an arc. */
  lemma OwnFields(cfg: Config, error: Option<real>, prev: Option<BlockState>, words: seq<Word>)
    requires cfg.Valid() && Built(cfg, error, prev, words).1.None?
    ensures var b := Built(cfg, error, prev, words).0;
      && b.i == Value(LastNumber(words, 'I')) && b.j == Value(LastNumber(words, 'J'))
      && b.m == (if LastWhole(words, 'M').Some? then ToSize(LastWhole(words, 'M').value) else 0)
      && (!b.kind.Cwa? && !b.kind.Ccwa? ==> b.r == Value(LastNumber(words, 'R')))
  {
    hide Built, ReadWords, Finish, LastNumber, LastWhole, LastKind, KindOf, ToSize, Opened;
    BuiltIs(cfg, error, prev, words);
    OwnWords(prev, words);
    FinishOwn(cfg, error, StartOf(cfg, prev), ReadWords(Opened(prev, words), words, NumberOf(prev)).0);
  }

  /** The type of a block, by the last number of a G or N word: 0 is rapid, 1 a line, 2 a clockwise and 3 a
      counterclockwise arc, 4 no motion; so is a line without either; and any other is none of these. */
  lemma TypeOfLine(cfg: Config, error: Option<real>, prev: Option<BlockState>, words: seq<Word>)
    requires cfg.Valid() && Built(cfg, error, prev, words).1.None?
    ensures var k, code := Built(cfg, error, prev, words).0.kind, LastKind(words);
      && (k.Rapid? <==> code == Some(0))
      && (k.Line? <==> code == Some(1))
      && (k.Cwa? <==> code == Some(2))
      && (k.Ccwa? <==> code == Some(3))
      && (k.NoMotion? <==> code == None || code == Some(4))
  {
    hide Built, ReadWords, Finish, LastNumber, LastWhole, LastKind, ToSize, Opened;
    BuiltIs(cfg, error, prev, words);
    OwnWords(prev, words);
    FinishKeeps(cfg, error, StartOf(cfg, prev), ReadWords(Opened(prev, words), words, NumberOf(prev)).0);
  }

  /** Where a line goes from `start`: the coordinates that it does not write stay. */
  function TargetOf(start: Point, words: seq<Word>): Point {
    Point(OrElse(LastNumber(words, 'X'), start.x), OrElse(LastNumber(words, 'Y'), start.y),
          OrElse(LastNumber(words, 'Z'), start.z))
  }

  lemma TargetOfLine(cfg: Config, error: Option<real>, prev: Option<BlockState>, words: seq<Word>)
    requires cfg.Valid() && StartOf(cfg, prev).Complete() && Built(cfg, error, prev, words).1.None?
    ensures TargetOf(StartOf(cfg, prev), words).Complete()
    ensures Built(cfg, error, prev, words).0.target == TargetOf(StartOf(cfg, prev), words)
  {
    hide Built, ReadWords, Finish, LastNumber, LastWhole, LastKind, ToSize, Opened, KindOf;
    BuiltIs(cfg, error, prev, words);
    OwnWords(prev, words);
    FinishKeeps(cfg, error, StartOf(cfg, prev), ReadWords(Opened(prev, words), words, NumberOf(prev)).0);
  }

  // ----- arcs -----

  /** An accepted line of type 2 or 3 is parsed as `calc_arc` says, from its own words. */
  lemma ArcOfLine(cfg: Config, error: Option<real>, prev: Option<BlockState>, words: seq<Word>)
    requires cfg.Valid() && StartOf(cfg, prev).Complete() && Accepted(words, NumberOf(prev))
    requires LastKind(words) == Some(2) || LastKind(words) == Some(3)
    ensures TargetOf(StartOf(cfg, prev), words).Complete()
    ensures var (b, e) := Built(cfg, error, prev, words);
      var start := StartOf(cfg, prev);
      var c := ChordOf(start, TargetOf(start, words));
      match ArcOf(cfg.libm, error, LastKind(words) == Some(3), c, Value(LastNumber(words, 'R')),
                  Value(LastNumber(words, 'I')), Value(LastNumber(words, 'J')))
      case Mismatch(_) => e == Some(ArcMismatch)
      case Degenerate(r) => e == None && b.arc == None && b.r == r && b.length == 0.0
      case Swept(a) => e == None && b.arc == Some(a) && b.r == a.r && b.length == Length(a)
  {
    hide Built, ReadWords, LastNumber, LastWhole, LastKind, ToSize, Opened, Accepted, ArcOf, ArcCap, Point.Delta,
      Point.Length, Planning, Length, Libm.Valid;
    ReadsWhen(Opened(prev, words), words, NumberOf(prev));
    BuiltIs(cfg, error, prev, words);
    OwnWords(prev, words);
    var s := ReadWords(Opened(prev, words), words, NumberOf(prev)).0;
    var start := StartOf(cfg, prev);
    assert s.target.Modal(start) == TargetOf(start, words);
    ArcFinish(cfg, error, start, s);
  }

  lemma ArcFinish(cfg: Config, error: Option<real>, start: Point, s: BlockState)
    requires cfg.Valid() && start.Complete() && (s.kind.Cwa? || s.kind.Ccwa?)
    ensures s.target.Modal(start).Complete()
    ensures var (b, e) := Finish(cfg, error, start, s);
      match ArcOf(cfg.libm, error, s.kind.Ccwa?, ChordOf(start, s.target.Modal(start)), s.r, s.i, s.j)
      case Mismatch(_) => e == Some(ArcMismatch)
      case Degenerate(r) => e == None && b.arc == None && b.r == r && b.length == 0.0
      case Swept(a) => e == None && b.arc == Some(a) && b.r == a.r && b.length == Length(a)
  {
    hide ArcOf, ArcCap, Plan, Plannable, Point.Delta, Point.Length, Libm.Valid, Length;
    ModalCompletes(s.target, start);
  }

  /** An arc line without R, or with R0, turns about the point at its (I, J) from the start, and is refused exactly
      when an error is available and smaller than the difference between the distances of the start and of
      the target from that point. */
  lemma CentreLine(cfg: Config, error: Option<real>, prev: Option<BlockState>, words: seq<Word>)
    requires cfg.Valid() && StartOf(cfg, prev).Complete() && Accepted(words, NumberOf(prev))
    requires LastKind(words) == Some(2) || LastKind(words) == Some(3)
    requires Value(LastNumber(words, 'R')) == 0.0
    ensures TargetOf(StartOf(cfg, prev), words).Complete()
    ensures var (b, e) := Built(cfg, error, prev, words);
      var start, i, j := StartOf(cfg, prev), Value(LastNumber(words, 'I')), Value(LastNumber(words, 'J'));
      var target, m := TargetOf(start, words), cfg.libm;
      var x, y := target.x.value - start.x.value - i, target.y.value - start.y.value - j;
      && (e == None || e == Some(ArcMismatch))
      && (e == Some(ArcMismatch) <==>
          error.Some? && error.value < Abs(m.sqrt(Sq(i) + Sq(j)) - m.sqrt(Sq(x) + Sq(y))))
      && (e == None ==>
          && b.arc.Some? && b.arc.value.xc - start.x.value == i && b.arc.value.yc - start.y.value == j
          && b.r == b.arc.value.r >= 0.0 && Sq(b.r) == Sq(i) + Sq(j))
  {
    hide Accepted, ArcOf, Built, LastNumber, LastKind, Sq, Libm.Valid, Length;
    ArcOfLine(cfg, error, prev, words);
    var start := StartOf(cfg, prev);
    CentreForm(cfg.libm, error, LastKind(words) == Some(3), ChordOf(start, TargetOf(start, words)),
               Value(LastNumber(words, 'I')), Value(LastNumber(words, 'J')));
  }

  /** An arc line with R is never refused. It has an arc, of radius |R|, exactly when its target is elsewhere in
      the plane than its start, and no farther than the diameter. */
  lemma RadiusLine(cfg: Config, error: Option<real>, prev: Option<BlockState>, words: seq<Word>)
    requires cfg.Valid() && StartOf(cfg, prev).Complete() && Accepted(words, NumberOf(prev))
    requires LastKind(words) == Some(2) || LastKind(words) == Some(3)
    requires Value(LastNumber(words, 'R')) != 0.0
    ensures TargetOf(StartOf(cfg, prev), words).Complete()
    ensures var (b, e) := Built(cfg, error, prev, words);
      var start, R := StartOf(cfg, prev), Value(LastNumber(words, 'R'));
      var target := TargetOf(start, words);
      var d := Sq(target.x.value - start.x.value) + Sq(target.y.value - start.y.value);
      e == None && (b.arc.Some? <==> 0.0 < d <= 4.0 * Sq(R)) && (b.arc.Some? ==> b.arc.value.r == b.r == Abs(R))
  {
    hide Accepted, ArcOf, Built, LastNumber, LastKind, Sq, Libm.Valid, Length, Abs;
    ArcOfLine(cfg, error, prev, words);
    var start := StartOf(cfg, prev);
    RadiusSolves(cfg.libm, error, LastKind(words) == Some(3), ChordOf(start, TargetOf(start, words)),
                 Value(LastNumber(words, 'R')), Value(LastNumber(words, 'I')), Value(LastNumber(words, 'J')));
  }

  // ----- motion -----

  /** A line of type 1 goes straight from its start to its target. */
  lemma StraightLine(cfg: Config, error: Option<real>, prev: Option<BlockState>, words: seq<Word>, progress: real)
    requires cfg.Valid() && StartOf(cfg, prev).Complete() && LastKind(words) == Some(1)
    requires Built(cfg, error, prev, words).1.None?
    ensures var b, start := Built(cfg, error, prev, words).0, StartOf(cfg, prev);
      var target := TargetOf(start, words);
      && CanInterpolate(start, b) && target.Complete()
      && var p := PointAt(cfg.libm, start, b, progress);
      && p.Complete()
      && p.x.value == start.x.value + (target.x.value - start.x.value) * progress
      && p.y.value == start.y.value + (target.y.value - start.y.value) * progress
      && p.z.value == start.z.value + (target.z.value - start.z.value) * progress
  {
    hide Built, LastNumber, LastKind, Ready, Libm.Valid, Along;
    TypeOfLine(cfg, error, prev, words);
    TargetOfLine(cfg, error, prev, words);
    LineReady(cfg, error, prev, words);
    var b, start, target := Built(cfg, error, prev, words).0, StartOf(cfg, prev), TargetOf(StartOf(cfg, prev), words);
    AlongIs(start.x.value, b.delta.x.value, target.x.value, progress);
    AlongIs(start.y.value, b.delta.y.value, target.y.value, progress);
    AlongIs(start.z.value, b.delta.z.value, target.z.value, progress);
  }

  lemma AlongIs(x0: real, dx: real, x1: real, progress: real)
    requires dx == x1 - x0
    ensures Along(x0, dx, progress) == x0 + (x1 - x0) * progress
  {}

  lemma LineReady(cfg: Config, error: Option<real>, prev: Option<BlockState>, words: seq<Word>)
    requires cfg.Valid() && Built(cfg, error, prev, words).1.None?
    ensures var b, start := Built(cfg, error, prev, words).0, StartOf(cfg, prev);
      && Ready(cfg, start, b) && b.parsed && start.Complete() && b.target.Complete()
      && b.delta == b.target.Delta(start)
  {
    hide Finish, ReadWords;
    FinishReady(cfg, error, StartOf(cfg, prev), ReadWords(Opened(prev, words), words, NumberOf(prev)).0);
  }

  /** A line of type 1 is planned exactly when it has a feedrate and somewhere to go, and then at that feedrate
      over the distance. */
  lemma LinePlanned(cfg: Config, error: Option<real>, prev: Option<BlockState>, words: seq<Word>)
    requires cfg.Valid() && StartOf(cfg, prev).Complete() && LastKind(words) == Some(1)
    requires Built(cfg, error, prev, words).1.None?
    ensures var b, start := Built(cfg, error, prev, words).0, StartOf(cfg, prev);
      && b.target.Complete()
      && (b.profile.Planned? <==> b.feedrate > 0.0 && b.target != start)
      && (b.profile.Planned? ==>
          && Plannable(cfg, b.feedrate, b.profile.l) && b.profile == Plan(cfg, b.feedrate, b.profile.l)
          && b.profile.l > 0.0 && Sq(b.profile.l) == DistSq(b.target, start))
  {
    hide Built, LastKind, Plan, Sq;
    TypeOfLine(cfg, error, prev, words);
    LineReady(cfg, error, prev, words);
    var b, start := Built(cfg, error, prev, words).0, StartOf(cfg, prev);
    LengthIs(cfg, start, b);
    if b.profile.Planned? {
      PlanSound(cfg, b.feedrate, b.length);
    }
  }

  /** The length of a displacement is the distance, and so is zero for none only. */
  lemma LengthIs(cfg: Config, start: Point, b: BlockState)
    requires cfg.Valid() && start.Complete() && b.target.Complete() && b.delta == b.target.Delta(start)
    ensures var l := b.delta.Length(cfg.libm);
      l >= 0.0 && Sq(l) == DistSq(b.target, start) && (l > 0.0 <==> b.target != start)
  {
    var d := b.delta;
    SpaceLength(cfg.libm, d);
    LengthPositive(cfg.libm, d);
    hide Libm.Valid, Sq, Point.Length;
    SqZero();
    SqPositive(d.Length(cfg.libm));
    NoDistance(b.target, start);
  }

  lemma LengthPositive(m: Libm, d: Point)
    requires m.Valid() && d.Complete()
    ensures d.Length(m) >= 0.0
  {
    SqPositive(d.x.value);
    SqPositive(d.y.value);
    SqPositive(d.z.value);
    RootFacts(m, d.x.value * d.x.value + d.y.value * d.y.value + d.z.value * d.z.value);
  }

  /** A planned arc turns clockwise for type 2 and counterclockwise for type 3. */
  lemma ArcTurns(cfg: Config, start: Point, b: BlockState)
    requires Moving(cfg, start, b) && !b.kind.Line?
    ensures b.arc.Some?
    ensures b.kind.Cwa? ==> -2.0 * cfg.libm.pi <= b.arc.value.dtheta < 0.0
    ensures b.kind.Ccwa? ==> 0.0 <= b.arc.value.dtheta < 2.0 * cfg.libm.pi
  {
    hide Plan, Libm.Valid, Sq, Product, Length, ArcCap;
    var c, a := ChordOf(start, b.target), b.arc.value;
    RawRange(cfg.libm, c, a.xc, a.yc);
    SweepNormal(cfg.libm.pi, b.kind.Ccwa?, cfg.libm.atan2(c.y1 - a.yc, c.x1 - a.xc) - a.theta0);
  }

  /** In a program, a line whose latest F is `v` takes at most a tick more than any joined motion over its length
      that keeps within v mm/min and the machine's acceleration. */
  lemma LineIsFast(cfg: Config, bs: seq<BlockState>, i: nat, v: real, q: Profile)
    requires cfg.Valid() && Sane(cfg, bs) && i < |bs| && bs[i].kind.Line? && bs[i].profile.Planned?
    requires LatestNumber(bs, i + 1, 'F') == Some(v)
    requires q.Planned? && Joined(q) && Limited(cfg.A, v / 60.0, q)
    requires StartAt(cfg, bs, i).Complete() && bs[i].target.Complete()
    requires Sq(q.l) == DistSq(bs[i].target, StartAt(cfg, bs, i))
    ensures bs[i].profile.dt - cfg.tq <= q.dt
  {
    hide Plan, Libm.Valid, Made, LatestNumber, Sq, DistSq, Joined, Limited, Plannable;
    assert Follows(cfg, bs, i);
    LastWriterWins(cfg, bs, i, 'F');
    var b := bs[i];
    LengthIs(cfg, StartAt(cfg, bs, i), b);
    JoinedLength(q);
    SqSame(q.l, b.length);
    PlanOptimal(cfg, v, b.length, q);
  }

  lemma JoinedLength(q: Profile)
    requires Joined(q)
    ensures q.l > 0.0
  {}

  lemma SqSame(x: real, y: real)
    requires x >= 0.0 && y >= 0.0 && Sq(x) == Sq(y)
    ensures x == y
  {
    SqInjective(x, y);
  }
}
