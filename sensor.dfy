/** The sensor widget: it turns a control point (typically the mouse) into
    an intensity in [-1, 1] along each axis, measured from the centre of the
    sensor's bounding box in units of its half extent, and fires enter,
    leave and intensity-update events as the point crosses the box.

    The screen-to-local transform is not modelled: `SetControlPoint` takes
    the control point already in the sensor's coordinate system, and the
    bounding box as a parameter. The fired events are recorded in a ghost
    log, specified by `Run` over the history of readings. */
module Sensor {
  import opened Wrappers
  import opened Geometry

  /** An intensity function, called with the axis' own intensity first and
      the other axis' intensity second. */
  type IntensityFunction = (real, real) -> real

  /** The defaults: each axis keeps its clamped intensity. */
  const IdentityX: IntensityFunction := (x: real, y: real) => x
  const IdentityY: IntensityFunction := (y: real, x: real) => y

  /** The intensity-functions argument; a member that is not a function is
      absent. */
  datatype FunctionsArg = FunctionsArg(x: Option<IntensityFunction>, y: Option<IntensityFunction>)

  /** One axis of a reading: the clamped intensity and whether the raw
      intensity fell outside [-1, 1]. */
  datatype AxisSample = AxisSample(value: real, out: bool)

  /** curIntensity: both intensities, the per-axis out flags and whether
      the point is out along either axis. */
  datatype Reading = Reading(x: real, y: real, out: Flags, isOut: bool) {
    function WithAxis(a: Axis, s: AxisSample): (r: Reading)
      ensures r.isOut == isOut
    {
      if a.X? then this.(x := s.value, out := out.(x := s.out))
      else this.(y := s.value, out := out.(y := s.out))
    }
  }

  /** previousIntensity: what is kept of the last reading. */
  datatype Previous = Previous(x: real, y: real, isOut: bool)

  datatype SensorEvent = Enter | Leave | IntensityUpdate(x: real, y: real)

  // ---------------------------------------------------------------------
  // One axis
  // ---------------------------------------------------------------------

  /** computeAxisIntensity as a value: the offset of `ctrl` from
      `reference` in units of `hLength`, clamped to [-1, 1]; an axis is out
      only when clamping was needed. */
  function AxisIntensity(reference: real, ctrl: real, hLength: real): (r: AxisSample)
    requires hLength != 0.0
    ensures -1.0 <= r.value <= 1.0
  {
    var i := (ctrl - reference) / hLength;
    if i > 1.0 then AxisSample(1.0, true)
    else if i < -1.0 then AxisSample(-1.0, true)
    else AxisSample(i, false)
  }

  /** Dividing by a positive half length compares with it. */
  lemma QuotientBounds(d: real, h: real)
    requires h > 0.0
    ensures (d / h) * h == d
    ensures d / h > 1.0 <==> d > h
    ensures d / h < -1.0 <==> d < -h
  {
    var i := d / h;
    assert i * h == d;
    assert (i - 1.0) * h == d - h;
    assert (i + 1.0) * h == d + h;
  }

  /** With a positive half length, an axis is in exactly when the point is
      within one half length of the reference; inside, the intensity is
      the proportional offset; outside, it is the sign of the offset. */
  lemma AxisInsideIffWithin(reference: real, ctrl: real, hLength: real)
    requires hLength > 0.0
    ensures var r := AxisIntensity(reference, ctrl, hLength);
      && (!r.out <==> Abs(ctrl - reference) <= hLength)
      && (!r.out ==> r.value * hLength == ctrl - reference)
      && (r.out ==> r.value == if ctrl > reference then 1.0 else -1.0)
  {
    QuotientBounds(ctrl - reference, hLength);
  }

  /** The intensity is 0 at the centre and exactly +1 / -1, still in, on
      the two edges. */
  lemma AxisCentreAndEdges(reference: real, hLength: real)
    requires hLength > 0.0
    ensures AxisIntensity(reference, reference, hLength) == AxisSample(0.0, false)
    ensures AxisIntensity(reference, reference + hLength, hLength) == AxisSample(1.0, false)
    ensures AxisIntensity(reference, reference - hLength, hLength) == AxisSample(-1.0, false)
  {
    assert (reference + hLength - reference) / hLength == 1.0;
    assert (reference - hLength - reference) / hLength == -1.0;
  }

  /** The intensity never decreases as the point moves in the positive
      direction. */
  lemma AxisMonotone(reference: real, c1: real, c2: real, hLength: real)
    requires hLength > 0.0 && c1 <= c2
    ensures AxisIntensity(reference, c1, hLength).value <= AxisIntensity(reference, c2, hLength).value
  {
    var i1 := (c1 - reference) / hLength;
    var i2 := (c2 - reference) / hLength;
    assert i2 - i1 == (c2 - c1) / hLength;
  }

  // ---------------------------------------------------------------------
  // A whole reading
  // ---------------------------------------------------------------------

  /** What setControlPoint computes for a control point in local
      coordinates: per-axis intensities about the centre of `bounds`, the
      out flags and isOut from the clamped values, then fx applied to
      (x, y) and fy to (y, new x). */
  function Read(ctrl: Vec, bounds: Box, fx: IntensityFunction, fy: IntensityFunction): Reading
    requires bounds.width != 0.0 && bounds.height != 0.0
  {
    var ix := AxisIntensity(bounds.x + bounds.width / 2.0, ctrl.x, bounds.width / 2.0);
    var iy := AxisIntensity(bounds.y + bounds.height / 2.0, ctrl.y, bounds.height / 2.0);
    var nx := fx(ix.value, iy.value);
    Reading(nx, fy(iy.value, nx), Flags(ix.out, iy.out), ix.out || iy.out)
  }

  /** A point is in exactly when it lies inside the (closed) bounding box,
      whatever the intensity functions are. */
  lemma InsideIffWithinBounds(ctrl: Vec, bounds: Box, fx: IntensityFunction, fy: IntensityFunction)
    requires bounds.width > 0.0 && bounds.height > 0.0
    ensures !Read(ctrl, bounds, fx, fy).isOut <==>
      bounds.x <= ctrl.x <= bounds.x + bounds.width && bounds.y <= ctrl.y <= bounds.y + bounds.height
  {
    AxisInsideIffWithin(bounds.x + bounds.width / 2.0, ctrl.x, bounds.width / 2.0);
    AxisInsideIffWithin(bounds.y + bounds.height / 2.0, ctrl.y, bounds.height / 2.0);
  }

  /** With the default functions the reading is the clamped intensities,
      each in [-1, 1]. */
  lemma DefaultReadingInRange(ctrl: Vec, bounds: Box)
    requires bounds.width != 0.0 && bounds.height != 0.0
    ensures var r := Read(ctrl, bounds, IdentityX, IdentityY);
      -1.0 <= r.x <= 1.0 && -1.0 <= r.y <= 1.0
  {
  }

  // ---------------------------------------------------------------------
  // Events
  // ---------------------------------------------------------------------

  /** The events one reading fires, given whether the previous one was
      out: leaving fires leave; entering fires enter, then an update;
      staying in fires an update; staying out fires nothing. */
  function Dispatch(wasOut: bool, r: Reading): (es: seq<SensorEvent>)
    ensures Leave in es <==> r.isOut && !wasOut
    ensures Enter in es <==> !r.isOut && wasOut
    ensures IntensityUpdate(r.x, r.y) in es <==> !r.isOut
    ensures |es| <= 2
  {
    if r.isOut then
      (if !wasOut then [Leave] else [])
    else
      (if wasOut then [Enter] else []) + [IntensityUpdate(r.x, r.y)]
  }

  /** The previous state after a history of readings; before any, it is
      out with zero intensities. */
  function PreviousOf(rs: seq<Reading>): Previous {
    if rs == [] then Previous(0.0, 0.0, true)
    else Previous(rs[|rs| - 1].x, rs[|rs| - 1].y, rs[|rs| - 1].isOut)
  }

  /** All events fired by a history of readings, in order. */
  function Run(rs: seq<Reading>): seq<SensorEvent>
    decreases |rs|
  {
    if rs == [] then []
    else
      var init := rs[..|rs| - 1];
      Run(init) + Dispatch(PreviousOf(init).isOut, rs[|rs| - 1])
  }

  /** One more reading appends the events it dispatches against the
      previous state and becomes the new previous state. */
  lemma RunSnoc(rs: seq<Reading>, r: Reading)
    ensures Run(rs + [r]) == Run(rs) + Dispatch(PreviousOf(rs).isOut, r)
    ensures PreviousOf(rs + [r]) == Previous(r.x, r.y, r.isOut)
  {
    assert (rs + [r])[..|rs|] == rs;
  }

  /** The enter and leave events of a log, in order. */
  function Crossings(es: seq<SensorEvent>): seq<SensorEvent>
    decreases |es|
  {
    if es == [] then []
    else Crossings(es[..|es| - 1]) + (if es[|es| - 1].IntensityUpdate? then [] else [es[|es| - 1]])
  }

  /** The intensities carried by the update events of a log, in order. */
  function Updates(es: seq<SensorEvent>): seq<Vec>
    decreases |es|
  {
    if es == [] then []
    else
      var e := es[|es| - 1];
      Updates(es[..|es| - 1]) + (if e.IntensityUpdate? then [Vec(e.x, e.y)] else [])
  }

  /** The intensities of the readings that were in, in order. */
  function InsideValues(rs: seq<Reading>): seq<Vec>
    decreases |rs|
  {
    if rs == [] then []
    else
      var r := rs[|rs| - 1];
      InsideValues(rs[..|rs| - 1]) + (if r.isOut then [] else [Vec(r.x, r.y)])
  }

  predicate AlternatesFromEnter(cs: seq<SensorEvent>) {
    forall i :: 0 <= i < |cs| ==> cs[i] == if i % 2 == 0 then Enter else Leave
  }

  lemma {:induction false} CrossingsAppend(a: seq<SensorEvent>, b: seq<SensorEvent>)
    ensures Crossings(a + b) == Crossings(a) + Crossings(b)
    decreases |b|
  {
    if b == [] {
      assert a + b == a;
    } else {
      var b' := b[..|b| - 1];
      assert (a + b)[..|a + b| - 1] == a + b';
      CrossingsAppend(a, b');
    }
  }

  lemma {:induction false} UpdatesAppend(a: seq<SensorEvent>, b: seq<SensorEvent>)
    ensures Updates(a + b) == Updates(a) + Updates(b)
    decreases |b|
  {
    if b == [] {
      assert a + b == a;
    } else {
      var b' := b[..|b| - 1];
      assert (a + b)[..|a + b| - 1] == a + b';
      UpdatesAppend(a, b');
    }
  }

  /** The enter or leave event one reading fires, if any. */
  lemma DispatchCrossings(wasOut: bool, r: Reading)
    ensures Crossings(Dispatch(wasOut, r)) ==
      if r.isOut && !wasOut then [Leave] else if !r.isOut && wasOut then [Enter] else []
  {
    assert [Leave][..0] == [] && [Enter][..0] == [];
    assert [Enter, IntensityUpdate(r.x, r.y)][..1] == [Enter];
    assert [IntensityUpdate(r.x, r.y)][..0] == [];
  }

  lemma AlternatesExtend(cs: seq<SensorEvent>, e: SensorEvent)
    requires AlternatesFromEnter(cs)
    requires e == if |cs| % 2 == 0 then Enter else Leave
    ensures AlternatesFromEnter(cs + [e])
  {
  }

  /** Enter and leave strictly alternate, starting with enter, and an odd
      number of them have been fired exactly when the point is now in. */
  lemma {:induction false} RunAlternates(rs: seq<Reading>)
    ensures AlternatesFromEnter(Crossings(Run(rs)))
    ensures |Crossings(Run(rs))| % 2 == 1 <==> !PreviousOf(rs).isOut
    decreases |rs|
  {
    if rs != [] {
      var init := rs[..|rs| - 1];
      var r := rs[|rs| - 1];
      var w := PreviousOf(init).isOut;
      var cs := Crossings(Run(init));
      RunAlternates(init);
      assert Run(rs) == Run(init) + Dispatch(w, r);
      CrossingsAppend(Run(init), Dispatch(w, r));
      DispatchCrossings(w, r);
      if r.isOut && !w {
        AlternatesExtend(cs, Leave);
      } else if !r.isOut && w {
        AlternatesExtend(cs, Enter);
      } else {
        assert cs + [] == cs;
      }
    }
  }

  /** An update is fired for exactly the readings that were in, carrying
      their intensities, in order. */
  lemma {:induction false} RunUpdates(rs: seq<Reading>)
    ensures Updates(Run(rs)) == InsideValues(rs)
    decreases |rs|
  {
    if rs != [] {
      var init := rs[..|rs| - 1];
      var r := rs[|rs| - 1];
      var w := PreviousOf(init).isOut;
      RunUpdates(init);
      assert Run(rs) == Run(init) + Dispatch(w, r);
      UpdatesAppend(Run(init), Dispatch(w, r));
      DispatchUpdates(w, r);
    }
  }

  /** One reading's events carry its intensities exactly when it is in. */
  lemma DispatchUpdates(wasOut: bool, r: Reading)
    ensures Updates(Dispatch(wasOut, r)) == if r.isOut then [] else [Vec(r.x, r.y)]
  {
    var u := IntensityUpdate(r.x, r.y);
    assert [u][..0] == [] && [Enter][..0] == [] && [Leave][..0] == [];
    if !r.isOut {
      var pre: seq<SensorEvent> := if wasOut then [Enter] else [];
      UpdatesAppend(pre, [u]);
    }
  }

  /** The first reading that is in fires enter, then its update. */
  lemma FirstEntry(r: Reading)
    requires !r.isOut
    ensures Run([r]) == [Enter, IntensityUpdate(r.x, r.y)]
  {
    assert [r][..0] == [];
  }

  // ---------------------------------------------------------------------
  // The sensor object
  // ---------------------------------------------------------------------

  class Sensor {
    const fx: IntensityFunction
    const fy: IntensityFunction
    var cur: Reading
    var previous: Previous
    /** Every reading taken, oldest first. */
    ghost var readings: seq<Reading>
    /** Every event fired, oldest first. */
    ghost var events: seq<SensorEvent>

    /** The fired events and the previous state follow from the readings. */
    ghost predicate Valid()
      reads this
    {
      events == Run(readings) && previous == PreviousOf(readings)
    }

    /** initialize: nothing read yet, everything out; an intensity function
        replaces a default only when given. */
    constructor (functions: Option<FunctionsArg>)
      ensures Valid() && readings == [] && events == []
      ensures cur == Reading(0.0, 0.0, Flags(true, true), true)
      ensures fx == if functions.Some? && functions.value.x.Some? then functions.value.x.value else IdentityX
      ensures fy == if functions.Some? && functions.value.y.Some? then functions.value.y.value else IdentityY
    {
      var fx := IdentityX;
      var fy := IdentityY;
      if functions.Some? {
        if functions.value.x.Some? {
          fx := functions.value.x.value;
        }
        if functions.value.y.Some? {
          fy := functions.value.y.value;
        }
      }
      this.fx := fx;
      this.fy := fy;
      cur := Reading(0.0, 0.0, Flags(true, true), true);
      previous := Previous(0.0, 0.0, true);
      readings := [];
      events := [];
    }

    /** computeAxisIntensity: writes one axis' intensity and out flag. */
    method ComputeAxisIntensity(a: Axis, reference: real, ctrl: real, hLength: real)
      requires hLength != 0.0
      modifies this`cur
      ensures cur == old(cur).WithAxis(a, AxisIntensity(reference, ctrl, hLength))
    {
      var i := (ctrl - reference) / hLength;
      var out: bool;
      if i > 1.0 {
        i := 1.0;
        out := true;
      } else if i < -1.0 {
        i := -1.0;
        out := true;
      } else {
        out := false;
      }
      cur := cur.WithAxis(a, AxisSample(i, out));
    }

    /** The reading half of setControlPoint: both axes' intensities and
        out flags, the overall out flag, then the intensity functions. */
    method TakeReading(ctrl: Vec, bounds: Box)
      requires bounds.width != 0.0 && bounds.height != 0.0
      modifies this`cur
      ensures cur == Read(ctrl, bounds, fx, fy)
    {
      ghost var ix := AxisIntensity(bounds.x + bounds.width / 2.0, ctrl.x, bounds.width / 2.0);
      ghost var iy := AxisIntensity(bounds.y + bounds.height / 2.0, ctrl.y, bounds.height / 2.0);
      var reference := Vec(bounds.x + bounds.width / 2.0, bounds.y + bounds.height / 2.0);
      ComputeAxisIntensity(X, reference.x, ctrl.x, bounds.width / 2.0);
      ComputeAxisIntensity(Y, reference.y, ctrl.y, bounds.height / 2.0);
      assert cur.x == ix.value && cur.out.x == ix.out;
      assert cur.y == iy.value && cur.out.y == iy.out;
      cur := cur.(isOut := cur.out.x || cur.out.y);
      cur := cur.(x := fx(cur.x, cur.y));
      cur := cur.(y := fy(cur.y, cur.x));
    }

    /** The event half of setControlPoint: leave on going out, enter on
        coming in, and an intensity update for every reading inside. */
    method FireEvents()
      modifies this`events
      ensures events == old(events) + Dispatch(previous.isOut, cur)
    {
      if cur.isOut {
        if !previous.isOut {
          events := events + [Leave];
        }
      } else {
        if previous.isOut {
          events := events + [Enter];
        }
        events := events + [IntensityUpdate(cur.x, cur.y)];
      }
    }

    /** setControlPoint for a point already in the sensor's coordinates:
        take a reading, fire the events it calls for and remember it. */
    method SetControlPoint(ctrl: Vec, bounds: Box)
      requires Valid() && bounds.width != 0.0 && bounds.height != 0.0
      modifies this`cur, this`previous, this`readings, this`events
      ensures Valid()
      ensures cur == Read(ctrl, bounds, fx, fy)
      ensures readings == old(readings) + [cur]
      ensures events == old(events) + Dispatch(old(previous).isOut, cur)
    {
      TakeReading(ctrl, bounds);
      FireEvents();
      RunSnoc(readings, cur);
      readings := readings + [cur];
      previous := Previous(cur.x, cur.y, cur.isOut);
    }
  }

  /** A client run: a 100 by 100 sensor at the origin sees the point come
      in at its centre, move to its right edge, then leave. */
  method CrossTheSensor() {
    var s := new Sensor(None);
    var bounds := Box(0.0, 0.0, 100.0, 100.0);
    s.SetControlPoint(Vec(50.0, 50.0), bounds);
    assert s.cur.x == 0.0 && s.cur.y == 0.0 && !s.cur.isOut;
    s.SetControlPoint(Vec(100.0, 50.0), bounds);
    assert s.cur.x == 1.0 && !s.cur.isOut;
    s.SetControlPoint(Vec(150.0, 50.0), bounds);
    assert s.cur.isOut;
    assert s.events == [Enter, IntensityUpdate(0.0, 0.0), IntensityUpdate(1.0, 0.0), Leave];
  }
}
