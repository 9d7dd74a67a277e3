/** Optional values and results, used for JavaScript's `undefined` and for
    operations that throw. */
module Wrappers {

  datatype Option<+T> = None | Some(value: T) {
    function GetOr(default: T): T {
      if Some? then value else default
    }
  }

  datatype Result<+R, +E> = Success(value: R) | Failure(error: E)
}

/** The two-axis geometry shared by the scroller and the sensor: every
    per-axis quantity is a pair indexed by an axis instead of by the strings
    "x" and "y". */
module Geometry {

  datatype Axis = X | Y {
    function Other(): Axis {
      if X? then Y else X
    }
  }

  /** A pair of reals: a point, a speed or a scroll fraction. */
  datatype Vec = Vec(x: real, y: real) {
    function At(a: Axis): real {
      if a.X? then x else y
    }

    function With(a: Axis, v: real): (r: Vec)
      ensures r.At(a) == v && r.At(a.Other()) == At(a.Other())
    {
      if a.X? then Vec(v, y) else Vec(x, v)
    }
  }

  /** A pair of booleans, one per axis. */
  datatype Flags = Flags(x: bool, y: bool) {
    function At(a: Axis): bool {
      if a.X? then x else y
    }
  }

  /** An axis-aligned bounding box, as an element's getBBox() reports it. */
  datatype Box = Box(x: real, y: real, width: real, height: real) {
    function Origin(a: Axis): real {
      if a.X? then x else y
    }

    function Extent(a: Axis): real {
      if a.X? then width else height
    }
  }

  function Abs(r: real): real {
    if r < 0.0 then -r else r
  }
}
