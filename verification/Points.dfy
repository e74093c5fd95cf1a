/** Points whose coordinates may be undefined (src/point.cpp). A point is a value: the objects that
    hold one replace it as a whole. */
module Points {
  import opened Numerics

  datatype Point = Point(x: Option<real>, y: Option<real>, z: Option<real>) {

    predicate Complete() {
      x.Some? && y.Some? && z.Some?
    }

    /** This point with its undefined coordinates taken from `o`. */
    function Modal(o: Point): Point {
      Point(if o.x.Some? && x.None? then o.x else x,
            if o.y.Some? && y.None? then o.y else y,
            if o.z.Some? && z.None? then o.z else z)
    }

    function Delta(o: Point): Point
      requires Complete() && o.Complete()
    {
      At(x.value - o.x.value, y.value - o.y.value, z.value - o.z.value)
    }

    function Length(m: Libm): real
      requires Complete()
    {
      m.Hypot3(x.value, y.value, z.value)
    }
  }

  const UNDEFINED := Point(None, None, None)

  function At(x: real, y: real, z: real): Point {
    Point(Some(x), Some(y), Some(z))
  }

  /** The squared Euclidean distance. */
  function DistSq(p: Point, q: Point): real
    requires p.Complete() && q.Complete()
  {
    Sq(p.x.value - q.x.value) + Sq(p.y.value - q.y.value) + Sq(p.z.value - q.z.value)
  }

  lemma ModalCompletes(p: Point, o: Point)
    requires o.Complete()
    ensures p.Modal(o).Complete() && p.Modal(o).Delta(o).Complete()
  {}

  /** Inheriting along a list of points may be grouped in any way, and doing it twice adds nothing. */
  lemma ModalChains(p: Point, o: Point, q: Point)
    ensures p.Modal(o).Modal(q) == p.Modal(o.Modal(q))
    ensures p.Modal(o).Modal(o) == p.Modal(o) && p.Modal(p) == p
  {}
}
