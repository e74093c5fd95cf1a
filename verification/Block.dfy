/** The `Block` class (src/block.cpp), proved against the values of BlockSpec. */
module Blocks {
  import opened Numerics
  import opened Points
  import opened Machines
  import opened Profiles
  import opened Motions
  import opened Arcs
  import opened BlockSpec

  class Block {
    const words: seq<Word>
    var n: int
    var parsed: bool
    var target: Point
    var delta: Point
    var length: real
    var i: real
    var j: real
    var r: real
    var arc: Option<Arc>
    var feedrate: real
    var arcFeedrate: real
    var spindle: real
    var acc: real
    var m: int
    var tool: int
    var kind: Kind
    var profile: Profile
    var currentAcc: real
    var prev: Block?
    var next: Block?

    constructor (words: seq<Word>)
      ensures State() == Blank(words) && prev == null && next == null
    {
      this.words := words;
      n, parsed, target, delta, length := 0, false, UNDEFINED, UNDEFINED, 0.0;
      i, j, r, arc := 0.0, 0.0, 0.0, None;
      feedrate, arcFeedrate, spindle, acc := 0.0, 0.0, 0.0, 0.0;
      m, tool, kind, profile, currentAcc := 0, 0, NoMotion, Unplanned, 0.0;
      prev, next := null, null;
    }

    /** The value of this block: the links and the running acceleration are not part of it. */
    function State(): BlockState
      reads `n, `parsed, `target, `delta, `length, `i, `j, `r, `arc, `feedrate, `arcFeedrate,
            `spindle, `acc, `m, `tool, `kind, `profile
    {
      BlockState(words, n, parsed, target, delta, length, i, j, r, arc,
                 feedrate, arcFeedrate, spindle, acc, m, tool, kind, profile)
    }

    function PrevState(): Option<BlockState>
      reads this, prev
    {
      if prev == null then None else Some(prev.State())
    }

    /** `start_point`. */
    function Start(cfg: Config): Point
      reads this, prev
    {
      if prev == null then cfg.zero else prev.target
    }

    /** `operator=`: refuses a block that is not parsed, and otherwise links the two. */
    method Assign(o: Block) returns (e: Option<Error>)
      requires o != this
      modifies this, o`next
      ensures e == if o.parsed then None else Some(NotParsed)
      ensures State() == if o.parsed then Inheriting(old(State()), o.State()) else old(State())
      ensures if o.parsed then prev == o && o.next == this else prev == old(prev) && o.next == old(o.next)
      ensures next == old(next)
    {
      hide ToSize;
      if !o.parsed {
        return Some(NotParsed);
      }
      tool, feedrate, spindle, n := o.tool, o.feedrate, o.spindle, ToSize(o.n + 1);
      target := UNDEFINED;
      prev := o;
      o.next := this;
      e := None;
    }

    /** The assignments of `parse_token` for a command that takes an integer. */
    method StoreWhole(c: char, v: int)
      requires TakesWhole(c) && (c == 'N' ==> n == ToSize(v))
      modifies this`kind, this`tool, this`m
      ensures State() == PutWhole(old(State()), c, v)
    {
      hide ToSize, KindOf;
      match c {
        case 'N' => kind := KindOf(v);
        case 'G' => kind := KindOf(v);
        case 'T' => tool := ToSize(v);
        case _ => m := ToSize(v);
      }
    }

    /** The assignments of `parse_token` for a command that takes a number. */
    method StoreNumber(c: char, v: real)
      requires TakesNumber(c)
      modifies this`target, this`i, this`j, this`r, this`feedrate, this`spindle
      ensures State() == PutNumber(old(State()), c, v)
    {
      match c {
        case 'X' => target := target.(x := Some(v));
        case 'Y' => target := target.(y := Some(v));
        case 'Z' => target := target.(z := Some(v));
        case 'I' => i := v;
        case 'J' => j := v;
        case 'R' => r := v;
        case 'F' => feedrate := v;
        case _ => spindle := v;
      }
    }

    method ReadToken(w: Word) returns (read: Read)
      requires prev != this
      modifies this
      ensures (State(), read) == ReadWord(old(State()), w, NumberOf(PrevState()))
      ensures prev == old(prev) && next == old(next)
    {
      var c := Command(w);
      if c == '#' || c == ';' {
        return Comment;
      }
      if w.arg.Missing? {
        return Bad(MissingArgument);
      }
      read := More;
      if TakesWhole(c) {
        if w.arg.whole.None? {
          return Bad(BadNumber);
        }
        var v := w.arg.whole.value;
        if c == 'N' {
          n := ToSize(v);
          if prev != null && prev.n >= n {
            return Bad(NotIncreasing);
          }
        }
        StoreWhole(c, v);
      } else if TakesNumber(c) {
        if w.arg.number.None? {
          return Bad(BadNumber);
        }
        var v := w.arg.number.value;
        StoreNumber(c, v);
      } else {
        read := Bad(UnknownCommand);
      }
    }

    /** The token loop of `parse`. */
    method ReadTokens() returns (e: Option<Error>)
      requires prev != this
      modifies this
      ensures (State(), e) == ReadWords(old(State()), words, NumberOf(PrevState()))
      ensures prev == old(prev) && next == old(next)
    {
      ghost var all := ReadWords(State(), words, NumberOf(PrevState()));
      var k := 0;
      while k < |words|
        invariant 0 <= k <= |words|
        invariant prev == old(prev) && next == old(next)
        invariant ReadWords(State(), words[k..], NumberOf(PrevState())) == all
      {
        var read := ReadToken(words[k]);
        match read {
          case More =>
          case Comment => return None;
          case Bad(error) => return Some(error);
        }
        k := k + 1;
      }
      e := None;
    }

    /** `compute`, for a block whose numbers are numbers. */
    method Compute(mc: Machine)
      requires mc.cfg.Valid() && Plannable(mc.cfg, arcFeedrate, length) && acc == mc.cfg.A
      modifies this`profile
      ensures profile == Plan(mc.cfg, arcFeedrate, length)
    {
      var l, A := length, acc;
      var f := arcFeedrate / 60.0;
      DivPositive(f, A);
      DivPositive(l, f);
      DivPositive(l, A);
      IdealPositive(mc.cfg, arcFeedrate, l);
      var dt1 := f / A;
      var dt2 := dt1;
      var dtm := l / f - (dt1 + dt2) / 2.0;
      var dt, dq;
      if dtm > 0.0 {
        dt, dq := mc.Quantize(dt1 + dtm + dt2);
        dtm := dtm + dq;
        f := 2.0 * l / (dt1 + dt2 + 2.0 * dtm);
        HalfQuotient(l, dt - dt1);
      } else {
        RootFacts(mc.cfg.libm, l / A);
        dt1 := mc.cfg.libm.sqrt(l / A);
        dt2 := dt1;
        dt, dq := mc.Quantize(dt1 + dt2);
        dtm := 0.0;
        dt2 := dt2 + dq;
        f := 2.0 * l / (dt1 + dt2);
      }
      profile := Planned(f / dt1, -(f / dt2), f, l, dt1, dtm, dt2, dt);
    }

    /** The centre that `calc_arc` computes from a radius, for which one exists. */
    method CentreByRadius(lib: Libm, c: Chord) returns (xc: real, yc: real)
      requires lib.Valid() && Solvable(c, r) && (kind.Cwa? || kind.Ccwa?)
      requires delta.Complete() && delta.x.value == c.Dx() && delta.y.value == c.Dy()
      ensures lib.sqrt(c.Sq()) != 0.0
      ensures xc == CentreX(lib, c, Side(kind.Ccwa?, r), r) && yc == CentreY(lib, c, Side(kind.Ccwa?, r), r)
    {
      var dx, dy := delta.x.value, delta.y.value;
      var sign := if r > 0.0 then 1.0 else -1.0;
      sign := sign * (if kind.Ccwa? then 1.0 else -1.0);
      RootFacts(lib, c.Sq());
      var d := lib.Hypot(dx, dy);
      HypotIs(lib, c, dx, dy);
      var sq := Rise(lib, r, d) / d;
      xc := (c.x0 + c.x1) / 2.0 - sign * dy * sq;
      yc := (c.y0 + c.y1) / 2.0 + sign * dx * sq;
      CentreIs(lib, c, sign, r, dx, dy, sq);
    }

    /** The angles, the length and the unsigned radius of the arc about a centre. */
    method SetSweep(lib: Libm, c: Chord, xc: real, yc: real)
      requires kind.Cwa? || kind.Ccwa?
      modifies this`r, this`arc, this`length
      ensures arc == Some(SweptAbout(lib, kind.Ccwa?, c, xc, yc, Abs(old(r))))
      ensures r == Abs(old(r)) == arc.value.r && length == Length(arc.value)
    {
      var theta0 := lib.atan2(c.y0 - yc, c.x0 - xc);
      var dtheta := lib.atan2(c.y1 - yc, c.x1 - xc) - theta0;
      if dtheta < 0.0 {
        dtheta := 2.0 * lib.pi + dtheta;
      }
      if kind.Cwa? {
        dtheta := -(2.0 * lib.pi - dtheta);
      }
      length := Abs(dtheta * r);
      AbsAbs(dtheta, r);
      r := Abs(r);
      arc := Some(Arc(xc, yc, r, theta0, dtheta));
    }

    /** `calc_arc`. */
    method CalcArc(mc: Machine) returns (e: Option<Error>)
      requires mc.cfg.Valid() && prev != this && Start(mc.cfg).Complete() && target.Complete()
      requires delta == target.Delta(Start(mc.cfg)) && (kind.Cwa? || kind.Ccwa?)
      modifies this`r, this`arc, this`length
      ensures (State(), e) == WithArc(mc.cfg, mc.error, Start(mc.cfg), old(State()))
    {
      hide CentreX, CentreY, SweptAbout, Length, Libm.Hypot, Libm.Valid, Config.Valid, Chord.Sq, Side, Abs, Solvable;
      ConfigLibm(mc.cfg);
      var lib, c := mc.cfg.libm, ChordOf(Start(mc.cfg), target);
      var xc, yc;
      if r != 0.0 {
        if !Solvable(c, r) {
          r, arc, length := Abs(r), None, 0.0;
          return None;
        }
        xc, yc := CentreByRadius(lib, c);
      } else {
        r := lib.Hypot(i, j);
        xc, yc := c.x0 + i, c.y0 + j;
        var r2 := lib.Hypot(c.x1 - xc, c.y1 - yc);
        if mc.error.Some? && Abs(r - r2) > mc.error.value {
          return Some(ArcMismatch);
        }
      }
      SetSweep(lib, c, xc, yc);
      e := None;
    }

    /** `parse`. */
    method Parse(mc: Machine) returns (e: Option<Error>)
      requires mc.cfg.Valid() && prev != this
      modifies this
      ensures (State(), e) == Parsed(mc.cfg, mc.error, PrevState(), old(State()))
      ensures prev == old(prev) && next == old(next)
    {
      hide ReadWords, Finish;
      e := ReadTokens();
      if e.None? {
        e := ComputeMotion(mc);
      }
    }

    /** The part of `parse` that follows the token loop. */
    method ComputeMotion(mc: Machine) returns (e: Option<Error>)
      requires mc.cfg.Valid() && prev != this
      modifies this
      ensures (State(), e) == Finish(mc.cfg, mc.error, Start(mc.cfg), old(State()))
      ensures prev == old(prev) && next == old(next)
    {
      hide Moved, Displaced, Point.Modal, Point.Delta;
      var start := Start(mc.cfg);
      target := target.Modal(start);
      if !start.Complete() {
        return Some(IncompletePoint);
      }
      ModalCompletes(old(target), start);
      Displace(mc);
      e := ComputeMove(mc);
      if e.None? {
        parsed := true;
      }
    }

    method Displace(mc: Machine)
      requires prev != this && Start(mc.cfg).Complete() && target.Complete()
      modifies this`delta, this`acc, this`length
      ensures State() == Displaced(mc.cfg, Start(mc.cfg), old(State()))
      ensures delta == target.Delta(Start(mc.cfg)) && acc == mc.cfg.A
    {
      delta := target.Delta(Start(mc.cfg));
      acc := mc.cfg.A;
      length := delta.Length(mc.cfg.libm);
    }

    method ComputeMove(mc: Machine) returns (e: Option<Error>)
      requires mc.cfg.Valid() && prev != this && Start(mc.cfg).Complete() && target.Complete()
      requires delta == target.Delta(Start(mc.cfg)) && acc == mc.cfg.A
      modifies this`length, this`arcFeedrate, this`r, this`arc, this`profile
      ensures (State(), e) == Moved(mc.cfg, mc.error, Start(mc.cfg), old(State()))
    {
      hide Planning, WithArc, ArcCap, Point.Delta;
      e := None;
      if kind.Line? {
        arcFeedrate := feedrate;
        ComputeIfNumbers(mc);
      } else if kind.Cwa? || kind.Ccwa? {
        e := CalcArc(mc);
        if e.None? {
          arcFeedrate := Min(feedrate, ArcCap(mc.cfg, r));
          ComputeIfNumbers(mc);
        }
      }
    }

    method ComputeIfNumbers(mc: Machine)
      requires mc.cfg.Valid() && acc == mc.cfg.A
      modifies this`profile
      ensures State() == Planning(mc.cfg, old(State()))
    {
      if Plannable(mc.cfg, arcFeedrate, length) {
        Compute(mc);
      } else {
        profile := Unplanned;
      }
    }

    /** `lambda`: throws on a block that is not parsed; the speed is in mm/min. */
    method LambdaAt(t: real) returns (sample: Option<Sample>)
      requires parsed ==> profile.Planned? && profile.l != 0.0
      modifies this`currentAcc
      ensures sample == if parsed then Some(SampleAt(profile, t)) else None
      ensures parsed ==> currentAcc == Acceleration(profile, t)
      ensures !parsed ==> currentAcc == old(currentAcc)
    {
      if !parsed {
        return None;
      }
      var p, walked, speed := profile, 0.0, 0.0;
      currentAcc := 0.0;
      if t < 0.0 {
      } else if t < p.dt1 {
        walked, speed, currentAcc := p.a * t * t / 2.0, p.a * t, p.a;
      } else if t < p.dt1 + p.dtm {
        walked, speed := p.f * (p.dt1 / 2.0 + (t - p.dt1)), p.f;
      } else if t < p.dt1 + p.dtm + p.dt2 {
        var t2 := p.dt1 + p.dtm;
        walked := p.f * (p.dt1 / 2.0 + p.dtm) + p.f * (t - t2) + p.d / 2.0 * (t * t + t2 * t2) - p.d * t * t2;
        speed, currentAcc := p.f + p.d * (t - t2), p.d;
      } else {
        walked := p.l;
      }
      assert walked == Travel(p, t) && speed == Speed(p, t);
      return Some(Sample(t, walked / p.l, speed * 60.0));
    }

    /** `interpolate`, at a progress from 0 to 1 along the block: None when it throws. */
    method Interpolate(mc: Machine, progress: real) returns (p: Option<Point>)
      ensures p.Some? <==> parsed && CanInterpolate(Start(mc.cfg), State())
      ensures p.Some? ==> p.value == PointAt(mc.cfg.libm, Start(mc.cfg), State(), progress)
    {
      if !parsed || !Start(mc.cfg).Complete() || !delta.Complete() {
        return None;
      }
      var lib, p0 := mc.cfg.libm, Start(mc.cfg);
      var x, y;
      if kind.Line? {
        x, y := Along(p0.x.value, delta.x.value, progress), Along(p0.y.value, delta.y.value, progress);
      } else if (kind.Cwa? || kind.Ccwa?) && arc.Some? {
        x, y := ArcX(lib, arc.value, progress), ArcY(lib, arc.value, progress);
      } else {
        return None;
      }
      p := Some(At(x, y, Along(p0.z.value, delta.z.value, progress)));
    }

    /** `walk`: one sample a tick while the time does not exceed the duration. On a block that is not parsed
        the first sample throws. */
    method Walk(mc: Machine) returns (samples: Option<seq<Sample>>)
      requires parsed ==> Joined(profile) && Whole(mc.cfg.tq, profile)
      modifies this`currentAcc
      ensures parsed ==> samples == Some(Samples(mc.cfg.tq, profile))
      ensures !parsed ==> samples == if Duration(profile) >= 0.0 then None else Some([])
    {
      var t, k, walked, tq := 0.0, 0, [], mc.cfg.tq;
      ghost var last := if parsed then Ticks(tq, profile) else 0;
      while t <= Duration(profile)
        invariant 0 <= k <= last + 1 && t == Clock(tq, k) && (!parsed ==> k == 0)
        invariant |walked| == k
        invariant parsed ==> forall h :: 0 <= h < k ==> walked[h] == SampleAt(profile, Clock(tq, h))
        decreases last + 1 - k
      {
        var sample := LambdaAt(t);
        if sample.None? {
          return None;
        }
        ClockBound(tq, k, last);
        walked := walked + [sample.value];
        t := t + tq;
        NextClock(tq, k);
        k := k + 1;
      }
      if parsed {
        ClockBound(tq, k, last);
        assert walked == Samples(tq, profile);
      } else {
        assert Clock(tq, 0) == 0.0 && walked == [];
      }
      return Some(walked);
    }
  }

  lemma HalfQuotient(l: real, w: real)
    requires w > 0.0
    ensures 2.0 * l / (2.0 * w) == l / w
  {
    DivUnique(2.0 * l, 2.0 * w, l / w);
  }

  lemma ConfigLibm(cfg: Config)
    requires cfg.Valid()
    ensures cfg.libm.Valid()
  {}

  lemma HypotIs(lib: Libm, c: Chord, dx: real, dy: real)
    requires dx == c.Dx() && dy == c.Dy()
    ensures lib.Hypot(dx, dy) == lib.sqrt(c.Sq())
  {}

  lemma CentreIs(lib: Libm, c: Chord, s: real, R: real, dx: real, dy: real, h: real)
    requires lib.sqrt(c.Sq()) != 0.0 && dx == c.Dx() && dy == c.Dy() && h == Offset(lib, c, R)
    ensures CentreX(lib, c, s, R) == (c.x0 + c.x1) / 2.0 - s * dy * h
    ensures CentreY(lib, c, s, R) == (c.y0 + c.y1) / 2.0 + s * dx * h
  {}

  lemma AbsAbs(w: real, r: real)
    ensures Abs(w * r) == Abs(w * Abs(r))
  {}

  lemma ClockBound(tq: real, k: int, last: int)
    requires tq > 0.0
    ensures Clock(tq, k) <= Clock(tq, last) <==> k <= last
  {
    if k <= last {
      ClockOrder(tq, k, last);
    } else {
      NextClock(tq, last);
      ClockOrder(tq, last + 1, k);
    }
  }
}
