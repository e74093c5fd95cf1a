/** Blocks as values: what reading and parsing a line of G-code makes of it (src/block.cpp). */
module BlockSpec {
  import opened Numerics
  import opened Points
  import opened Machines
  import opened Profiles
  import opened Motions
  import opened Arcs

  /** The text after a command letter, as `stoi` and `stod` read it; None when the conversion throws. */
  datatype Arg = Missing | Text(whole: Option<int>, number: Option<real>)

  datatype Word = Word(letter: char, arg: Arg)

  datatype Kind = Rapid | Line | Cwa | Ccwa | NoMotion | Other(code: int)

  datatype Error =
    | MissingArgument | BadNumber | NotIncreasing | UnknownCommand | IncompletePoint | ArcMismatch | NotParsed
    | NoFile

  /** The fields of a block, links apart. `arc` holds the centre and the angles; it is None until they
      have been computed, and when they are not numbers. */
  datatype BlockState = BlockState(
    words: seq<Word>, n: int, parsed: bool,
    target: Point, delta: Point, length: real,
    i: real, j: real, r: real, arc: Option<Arc>,
    feedrate: real, arcFeedrate: real, spindle: real, acc: real,
    m: int, tool: int, kind: Kind, profile: Profile)

  function KindOf(code: int): Kind {
    if code == 0 then Rapid
    else if code == 1 then Line
    else if code == 2 then Cwa
    else if code == 3 then Ccwa
    else if code == 4 then NoMotion
    else Other(code)
  }

  predicate Interpolated(k: Kind) {
    k.Line? || k.Cwa? || k.Ccwa?
  }

  function Upper(c: char): char {
    if 'a' <= c <= 'z' then (c as int - 'a' as int + 'A' as int) as char else c
  }

  function Command(w: Word): char {
    Upper(w.letter)
  }

  // ----- construction -----

  function Blank(words: seq<Word>): BlockState {
    BlockState(words, 0, false, UNDEFINED, UNDEFINED, 0.0, 0.0, 0.0, 0.0, None,
               0.0, 0.0, 0.0, 0.0, 0, 0, NoMotion, Unplanned)
  }

  /** `operator=`: tool, feedrate and spindle are inherited, the number is one more, and the target is
      cleared. */
  function Inheriting(s: BlockState, o: BlockState): BlockState {
    s.(tool := o.tool, feedrate := o.feedrate, spindle := o.spindle, n := ToSize(o.n + 1), target := UNDEFINED)
  }

  // ----- reading words -----

  datatype Read = More | Comment | Bad(error: Error)

  predicate TakesWhole(c: char) {
    c == 'N' || c == 'G' || c == 'T' || c == 'M'
  }

  predicate TakesNumber(c: char) {
    c == 'X' || c == 'Y' || c == 'Z' || c == 'I' || c == 'J' || c == 'R' || c == 'F' || c == 'S'
  }

  /** The assignment of a command that takes an integer: N falls through to G. */
  function PutWhole(s: BlockState, c: char, v: int): BlockState
    requires TakesWhole(c)
  {
    match c
    case 'N' => s.(n := ToSize(v), kind := KindOf(v))
    case 'G' => s.(kind := KindOf(v))
    case 'T' => s.(tool := ToSize(v))
    case _ => s.(m := ToSize(v))
  }

  /** The assignment of a command that takes a number. */
  function PutNumber(s: BlockState, c: char, v: real): BlockState
    requires TakesNumber(c)
  {
    match c
    case 'X' => s.(target := s.target.(x := Some(v)))
    case 'Y' => s.(target := s.target.(y := Some(v)))
    case 'Z' => s.(target := s.target.(z := Some(v)))
    case 'I' => s.(i := v)
    case 'J' => s.(j := v)
    case 'R' => s.(r := v)
    case 'F' => s.(feedrate := v)
    case _ => s.(spindle := v)
  }

  /** Whether the number of a block does not exceed the one before it. */
  predicate Stale(prevN: Option<int>, n: int) {
    prevN.Some? && prevN.value >= n
  }

  /** `parse_token`. A refused N has already been stored, but not yet as the type. */
  function ReadWord(s: BlockState, w: Word, prevN: Option<int>): (BlockState, Read) {
    var c := Command(w);
    if c == '#' || c == ';' then (s, Comment)
    else if w.arg.Missing? then (s, Bad(MissingArgument))
    else if TakesWhole(c) then
      if w.arg.whole.None? then (s, Bad(BadNumber))
      else if c == 'N' && Stale(prevN, ToSize(w.arg.whole.value)) then
        (s.(n := ToSize(w.arg.whole.value)), Bad(NotIncreasing))
      else (PutWhole(s, c, w.arg.whole.value), More)
    else if TakesNumber(c) then
      if w.arg.number.None? then (s, Bad(BadNumber))
      else (PutNumber(s, c, w.arg.number.value), More)
    else (s, Bad(UnknownCommand))
  }

  /** The token loop: it ends at a comment, and at the first word that throws. */
  function ReadWords(s: BlockState, ws: seq<Word>, prevN: Option<int>): (BlockState, Option<Error>)
    decreases |ws|
  {
    if ws == [] then (s, None)
    else
      var (s1, read) := ReadWord(s, ws[0], prevN);
      match read
      case More => ReadWords(s1, ws[1..], prevN)
      case Comment => (s1, None)
      case Bad(e) => (s1, Some(e))
  }

  // ----- parsing -----

  function StartOf(cfg: Config, prev: Option<BlockState>): Point {
    if prev.Some? then prev.value.target else cfg.zero
  }

  function NumberOf(prev: Option<BlockState>): Option<int> {
    if prev.Some? then Some(prev.value.n) else None
  }

  /** The profile of `compute`, or Unplanned where its numbers would not be numbers. */
  function Planning(cfg: Config, s: BlockState): BlockState
    requires cfg.Valid()
  {
    s.(profile := if Plannable(cfg, s.arcFeedrate, s.length) then Plan(cfg, s.arcFeedrate, s.length) else Unplanned)
  }

  /** The speed in mm/min that the acceleration allows along an arc of radius `r`. */
  function ArcCap(cfg: Config, r: real): real {
    cfg.libm.FourthRoot(CapPower(cfg.A, r)) * 60.0
  }

  function CapPower(A: real, r: real): real {
    A * A * r * r
  }

  function Min(x: real, y: real): real {
    if y < x then y else x
  }

  function ChordOf(start: Point, target: Point): Chord
    requires start.Complete() && target.Complete()
  {
    Chord(start.x.value, start.y.value, target.x.value, target.y.value)
  }

  /** The state that `calc_arc` leaves, and whether it throws. */
  function WithArc(cfg: Config, error: Option<real>, start: Point, s: BlockState): (BlockState, Option<Error>)
    requires cfg.Valid() && start.Complete() && s.target.Complete()
  {
    match ArcOf(cfg.libm, error, s.kind.Ccwa?, ChordOf(start, s.target), s.r, s.i, s.j)
    case Mismatch(r) => (s.(r := r), Some(ArcMismatch))
    case Degenerate(r) => (s.(r := r, arc := None, length := 0.0), None)
    case Swept(a) => (s.(r := a.r, arc := Some(a), length := Length(a)), None)
  }

  /** The displacement of a block whose target has been completed. */
  function Displaced(cfg: Config, start: Point, s: BlockState): BlockState
    requires start.Complete() && s.target.Complete()
  {
    var delta := s.target.Delta(start);
    s.(delta := delta, acc := cfg.A, length := delta.Length(cfg.libm))
  }

  /** The profile, and for an arc the geometry, of a block that has been displaced. */
  function Moved(cfg: Config, error: Option<real>, start: Point, s: BlockState): (BlockState, Option<Error>)
    requires cfg.Valid() && start.Complete() && s.target.Complete()
  {
    if s.kind.Line? then
      (Planning(cfg, s.(arcFeedrate := s.feedrate)), None)
    else if s.kind.Cwa? || s.kind.Ccwa? then
      var (s1, e) := WithArc(cfg, error, start, s);
      if e.Some? then (s1, e)
      else (Planning(cfg, s1.(arcFeedrate := Min(s1.feedrate, ArcCap(cfg, s1.r)))), None)
    else (s, None)
  }

  /** The part of `parse` after the token loop. */
  function Finish(cfg: Config, error: Option<real>, start: Point, s: BlockState): (BlockState, Option<Error>)
    requires cfg.Valid()
  {
    var s1 := s.(target := s.target.Modal(start));
    if !start.Complete() then (s1, Some(IncompletePoint))
    else
      var (s2, e) := Moved(cfg, error, start, Displaced(cfg, start, s1));
      if e.Some? then (s2, e) else (s2.(parsed := true), None)
  }

  /** `parse`. */
  function Parsed(cfg: Config, error: Option<real>, prev: Option<BlockState>, s: BlockState)
    : (BlockState, Option<Error>)
    requires cfg.Valid()
  {
    var (s1, e) := ReadWords(s, s.words, NumberOf(prev));
    if e.Some? then (s1, e) else Finish(cfg, error, StartOf(cfg, prev), s1)
  }

  /** A block made for a line, before it is parsed. */
  function Opened(prev: Option<BlockState>, words: seq<Word>): BlockState {
    if prev.Some? then Inheriting(Blank(words), prev.value) else Blank(words)
  }

  /** A block made for a line after `prev` (which is parsed), and parsed. */
  function Built(cfg: Config, error: Option<real>, prev: Option<BlockState>, words: seq<Word>)
    : (BlockState, Option<Error>)
    requires cfg.Valid()
  {
    Parsed(cfg, error, prev, Opened(prev, words))
  }

  // ----- sampling a parsed block -----

  /** Whether `interpolate` returns a point. */
  predicate CanInterpolate(start: Point, s: BlockState) {
    && s.parsed && start.Complete() && s.delta.Complete() && Interpolated(s.kind)
    && (!s.kind.Line? ==> s.arc.Some?)
  }

  function Along(x0: real, dx: real, progress: real): real {
    x0 + dx * progress
  }

  /** `interpolate`, at a progress along the block. */
  function PointAt(m: Libm, start: Point, s: BlockState, progress: real): Point
    requires CanInterpolate(start, s)
  {
    var z := Along(start.z.value, s.delta.z.value, progress);
    if s.kind.Line? then
      At(Along(start.x.value, s.delta.x.value, progress), Along(start.y.value, s.delta.y.value, progress), z)
    else
      At(ArcX(m, s.arc.value, progress), ArcY(m, s.arc.value, progress), z)
  }

  /** `interpolate`, at time `t`. */
  function SetpointAt(m: Libm, start: Point, s: BlockState, t: real): Point
    requires CanInterpolate(start, s) && s.profile.Planned? && s.profile.l != 0.0
  {
    PointAt(m, start, s, Lambda(s.profile, t))
  }
}
