/** The Scroller widget: a per-axis integrator that moves a normalised scroll
    position in [0, 1] at a requested speed, dampens the speed near the limit
    it heads for, eases it towards a target speed when an acceleration ramp is
    set, and keeps a repeating timer alive exactly while some effective speed
    is non-zero.

    The closure state of `initialize` becomes the fields of class `Scroller`;
    what happens to one axis on a speed computation or a tick is stated once,
    as the pure functions `ComputeAxisSpeed` and `AxisTick` over an
    `AxisState`, and every method is proved against them through `AxisOf`. */
module Scroller {
  import opened Wrappers
  import opened Geometry

  // ---------------------------------------------------------------------
  // Configuration
  // ---------------------------------------------------------------------

  /** The configuration once defaults and overrides have been merged. */
  datatype Config = Config(
    damper: Vec,
    scrollUnit: Vec,
    disableScroll: Flags,
    initialScroll: Vec,
    maxAcceleration: Vec,
    hasSensor: bool)
  {
    function ForAxis(a: Axis): AxisConfig {
      AxisConfig(damper.At(a), scrollUnit.At(a), disableScroll.At(a))
    }
  }

  const Defaults: Config := Config(
    Vec(0.1, 0.1), Vec(40.0, 40.0), Flags(false, false),
    Vec(0.5, 0.5), Vec(0.01, 0.01), false)

  /** An override group such as `damper: {x, y}`: not an object at all, the
      value `null` (whose `typeof` is also "object"), or an object whose
      members are taken only when they have the right type. */
  datatype Group<T> = NotAnObject | NullObject | Object(x: Option<T>, y: Option<T>)

  /** The `events` member of a `sensor` override. */
  datatype EventsArg = NoEvents | NullEvents | EventsObject(hasIntensityUpdate: bool, hasLeave: bool)

  /** The `sensor` override. */
  datatype SensorArg = NoSensor | NullSensor | SensorObject(events: EventsArg)

  /** The caller's configuration object, member by member. */
  datatype Overrides = Overrides(
    damper: Group<real>,
    sensor: SensorArg,
    scrollUnit: Group<real>,
    disableScroll: Group<bool>,
    initialScroll: Group<real>,
    maxAcceleration: Group<real>)

  /** The TypeErrors that `initialize` can throw while reading its configuration. */
  datatype ConfigError =
    | NullMember(name: string)       // a member of a null group is read
    | UndefinedMaxAccelleration      // assignment into the misspelled `config.maxAccelleration`
    | MissingOnLeave                 // the sensor has onIntensityUpdate but no onLeave to subscribe to

  function MergeReal(d: Vec, g: Group<real>): Vec {
    if g.Object? then Vec(g.x.GetOr(d.x), g.y.GetOr(d.y)) else d
  }

  function MergeBool(d: Flags, g: Group<bool>): Flags {
    if g.Object? then Flags(g.x.GetOr(d.x), g.y.GetOr(d.y)) else d
  }

  /** The first member read on `null`, in the order `initialize` reads them. */
  function NullRead(o: Overrides): Option<ConfigError> {
    if o.damper.NullObject? then Some(NullMember("damper"))
    else if o.sensor.NullSensor? then Some(NullMember("sensor"))
    else if o.sensor.SensorObject? && o.sensor.events.NullEvents? then Some(NullMember("sensor.events"))
    else if o.scrollUnit.NullObject? then Some(NullMember("scrollUnit"))
    else if o.disableScroll.NullObject? then Some(NullMember("disableScroll"))
    else if o.initialScroll.NullObject? then Some(NullMember("initialScroll"))
    else if o.maxAcceleration.NullObject? then Some(NullMember("maxAcceleration"))
    else None
  }

  /** A sensor is accepted when it has an events object with onIntensityUpdate. */
  predicate AcceptsSensor(o: Overrides) {
    o.sensor.SensorObject? && o.sensor.events.EventsObject? && o.sensor.events.hasIntensityUpdate
  }

  predicate GivesMaxAccelerationY(o: Overrides) {
    o.maxAcceleration.Object? && o.maxAcceleration.y.Some?
  }

  /** Every override of the right type replaces its default; the rest keep it. */
  function Merge(o: Overrides): Config {
    Config(
      MergeReal(Defaults.damper, o.damper),
      MergeReal(Defaults.scrollUnit, o.scrollUnit),
      MergeBool(Defaults.disableScroll, o.disableScroll),
      MergeReal(Defaults.initialScroll, o.initialScroll),
      MergeReal(Defaults.maxAcceleration, o.maxAcceleration),
      AcceptsSensor(o))
  }

  /** Configuration as `initialize` reads it, including the assignment of a
      numeric `maxAcceleration.y` into `config.maxAccelleration`, which is
      undefined, so that the constructor throws. */
  function ParseConfig(o: Option<Overrides>): (r: Result<Config, ConfigError>)
    ensures o.None? ==> r == Success(Defaults)
    ensures o.Some? && GivesMaxAccelerationY(o.value) ==> r.Failure?
    ensures r.Success? ==> r.value.maxAcceleration.y == Defaults.maxAcceleration.y
    ensures r.Failure? <==>
      o.Some? && (NullRead(o.value).Some? || GivesMaxAccelerationY(o.value)
                  || (AcceptsSensor(o.value) && !o.value.sensor.events.hasLeave))
    ensures r.Success? && o.Some? ==> r.value == Merge(o.value)
  {
    if o.None? then Success(Defaults)
    else
      var ov := o.value;
      if NullRead(ov).Some? then Failure(NullRead(ov).value)
      else if GivesMaxAccelerationY(ov) then Failure(UndefinedMaxAccelleration)
      else if AcceptsSensor(ov) && !ov.sensor.events.hasLeave then Failure(MissingOnLeave)
      else Success(Merge(ov))
  }

  /** Configuration as evidently intended: the `maxAcceleration.y` override
      is stored like every other override. */
  function ParseConfigIntended(o: Option<Overrides>): (r: Result<Config, ConfigError>)
    ensures o.None? ==> r == Success(Defaults)
    ensures r.Failure? <==>
      o.Some? && (NullRead(o.value).Some? || (AcceptsSensor(o.value) && !o.value.sensor.events.hasLeave))
    ensures r.Success? && o.Some? && GivesMaxAccelerationY(o.value) ==>
      r.value.maxAcceleration.y == o.value.maxAcceleration.y.value
    ensures r.Success? && o.Some? ==> r.value == Merge(o.value)
  {
    if o.None? then Success(Defaults)
    else
      var ov := o.value;
      if NullRead(ov).Some? then Failure(NullRead(ov).value)
      else if AcceptsSensor(ov) && !ov.sensor.events.hasLeave then Failure(MissingOnLeave)
      else Success(Merge(ov))
  }

  /** The discrepancy: a well-formed configuration that only overrides
      `maxAcceleration.y` makes the constructor throw, where the intended
      reading stores 0.02. */
  lemma MaxAccelerationYOverrideThrows()
    ensures var o := Overrides(NotAnObject, NoSensor, NotAnObject, NotAnObject, NotAnObject,
                               Object(None, Some(0.02)));
      && ParseConfig(Some(o)) == Failure(UndefinedMaxAccelleration)
      && ParseConfigIntended(Some(o)).Success?
      && ParseConfigIntended(Some(o)).value.maxAcceleration == Vec(0.01, 0.02)
  {
  }

  // ---------------------------------------------------------------------
  // One axis, as pure functions
  // ---------------------------------------------------------------------

  /** The configuration values that concern one axis. */
  datatype AxisConfig = AxisConfig(damper: real, scrollUnit: real, disabled: bool)

  /** Everything the scroller keeps about one axis: the normalised position,
      the requested, effective and previous effective speeds, the ramp rate
      (None when no acceleration is under way) and the ramp's target speed. */
  datatype AxisState = AxisState(
    cur: real, requested: real, actual: real, previous: real,
    ramp: Option<real>, target: real)

  /** Distance from the position to the limit the requested speed heads for. */
  function ScrollLeft(requested: real, cur: real): real {
    if requested < 0.0 then cur else 1.0 - cur
  }

  /** The damper factor: scrollLeft / damper inside the damper zone, else 1. */
  function DamperFactor(requested: real, cur: real, damper: real): (f: real)
    requires 0.0 <= cur <= 1.0
    ensures 0.0 <= f <= 1.0
    ensures f < 1.0 <==> ScrollLeft(requested, cur) < damper
    ensures ScrollLeft(requested, cur) == 0.0 && damper > 0.0 ==> f == 0.0
  {
    var left := ScrollLeft(requested, cur);
    if left < damper then left / damper else 1.0
  }

  /** One step of the acceleration ramp: previous speed moved towards the
      target by `rate`, never past it. */
  function RampStep(previous: real, target: real, rate: real): (s: real)
    ensures previous > target ==> target <= s && (s == target || s == previous - rate)
    ensures previous <= target ==> s <= target && (s == target || s == previous + rate)
    ensures s == target <==> rate >= Abs(previous - target)
    ensures rate <= Abs(previous - target) ==> Abs(s - target) == Abs(previous - target) - rate
    ensures 0.0 <= rate ==> Abs(s - previous) <= rate
  {
    if previous > target then
      (if previous - rate < target then target else previous - rate)
    else
      (if previous + rate > target then target else previous + rate)
  }

  /** The sign of a product of two non-negative reals. */
  lemma ProductSign(a: real, b: real)
    ensures a >= 0.0 && b >= 0.0 ==> a * b >= 0.0
    ensures a > 0.0 && b > 0.0 ==> a * b > 0.0
    ensures a <= 0.0 && b >= 0.0 ==> a * b <= 0.0
  {
  }

  /** Scaling by a factor in [0, 1] never increases a magnitude, and strictly
      decreases a non-zero one when the factor is below 1. */
  lemma ScaleShrinks(v: real, f: real)
    requires 0.0 <= f <= 1.0
    ensures Abs(v * f) <= Abs(v)
    ensures f < 1.0 && v != 0.0 ==> Abs(v * f) < Abs(v)
    ensures f == 1.0 ==> v * f == v
  {
    assert v - v * f == v * (1.0 - f);
    ProductSign(v, f);
    if v >= 0.0 {
      ProductSign(v, 1.0 - f);
    } else {
      ProductSign(-v, 1.0 - f);
      assert -v * (1.0 - f) == -(v - v * f);
    }
  }

  /** computeActualAxisSpeed: the effective speed of one axis, from the
      ramp (when set on an enabled axis) or from the requested speed,
      multiplied by the damper factor. */
  function ComputeAxisSpeed(s: AxisState, c: AxisConfig): (r: AxisState)
    requires 0.0 <= s.cur <= 1.0
    ensures r.cur == s.cur && r.previous == s.previous && r.target == s.target
  {
    var f := DamperFactor(s.requested, s.cur, c.damper);
    if s.ramp.Some? && !c.disabled then
      var ramped := RampStep(s.previous, s.target, s.ramp.value);
      if ramped == s.target then
        s.(requested := s.target, actual := ramped * f, ramp := None)
      else
        s.(actual := ramped * f)
    else
      s.(actual := s.requested * f)
  }

  /** The effective speed is computed afresh: the one already stored
      does not matter. */
  lemma IgnoresActual(s: AxisState, c: AxisConfig, v: real)
    requires 0.0 <= s.cur <= 1.0
    ensures ComputeAxisSpeed(s.(actual := v), c) == ComputeAxisSpeed(s, c)
  {
  }

  /** Without a ramp (or on a disabled axis) the effective speed is the
      requested speed damped: never larger in magnitude, strictly smaller
      inside the damper zone, equal outside it, zero at the limit. */
  lemma DampedSpeed(s: AxisState, c: AxisConfig)
    requires 0.0 <= s.cur <= 1.0 && (s.ramp.None? || c.disabled)
    ensures var r := ComputeAxisSpeed(s, c);
      && r.requested == s.requested && r.ramp == s.ramp
      && Abs(r.actual) <= Abs(s.requested)
      && (ScrollLeft(s.requested, s.cur) < c.damper && s.requested != 0.0 ==> Abs(r.actual) < Abs(s.requested))
      && (ScrollLeft(s.requested, s.cur) >= c.damper ==> r.actual == s.requested)
      && (ScrollLeft(s.requested, s.cur) == 0.0 && c.damper > 0.0 ==> r.actual == 0.0)
  {
    ScaleShrinks(s.requested, DamperFactor(s.requested, s.cur, c.damper));
  }

  /** With a ramp on an enabled axis the effective speed is the ramped
      speed damped; the ramp is dropped, and the requested speed pinned to
      the target, exactly when the ramped speed reaches the target. */
  lemma RampedSpeed(s: AxisState, c: AxisConfig)
    requires 0.0 <= s.cur <= 1.0 && s.ramp.Some? && !c.disabled
    ensures var r := ComputeAxisSpeed(s, c);
      var ramped := RampStep(s.previous, s.target, s.ramp.value);
      && (r.ramp.None? <==> ramped == s.target)
      && (r.ramp.None? ==> r.requested == s.target)
      && (r.ramp.Some? ==> r.ramp == s.ramp && r.requested == s.requested)
      && Abs(r.actual) <= Abs(ramped)
      && (ScrollLeft(s.requested, s.cur) >= c.damper ==> r.actual == ramped)
      && (ScrollLeft(s.requested, s.cur) == 0.0 && c.damper > 0.0 ==> r.actual == 0.0)
  {
    ScaleShrinks(RampStep(s.previous, s.target, s.ramp.value), DamperFactor(s.requested, s.cur, c.damper));
  }

  /** Clip to the allowed range [0, 1]. */
  function Clamp01(v: real): (r: real)
    ensures 0.0 <= r <= 1.0
    ensures 0.0 <= v <= 1.0 ==> r == v
    ensures v > 1.0 ==> r == 1.0
    ensures v < 0.0 ==> r == 0.0
  {
    if v > 1.0 then 1.0 else if v < 0.0 then 0.0 else v
  }

  /** The unclipped position after moving at `speed` for one frame:
      speed * scrollUnit pixels, normalised by the content's extent. */
  function Advance(cur: real, speed: real, scrollUnit: real, extent: real): real
    requires extent > 0.0
  {
    cur + speed * scrollUnit / extent
  }

  /** One tick of updateScroll on one axis: compute the effective speed,
      remember it as the previous speed, advance the position and clip it. */
  function AxisTick(s: AxisState, c: AxisConfig, extent: real): (r: AxisState)
    requires 0.0 <= s.cur <= 1.0 && extent > 0.0
    ensures 0.0 <= r.cur <= 1.0
    ensures r.previous == r.actual
  {
    var u := ComputeAxisSpeed(s, c);
    u.(previous := u.actual, cur := Clamp01(Advance(u.cur, u.actual, c.scrollUnit, extent)))
  }

  /** A tick keeps the speeds computeActualAxisSpeed gives and moves the
      position by the effective speed, clipped to [0, 1]. */
  lemma TickMovesPosition(s: AxisState, c: AxisConfig, extent: real)
    requires 0.0 <= s.cur <= 1.0 && extent > 0.0
    ensures var r := AxisTick(s, c, extent);
      var u := ComputeAxisSpeed(s, c);
      var moved := Advance(s.cur, r.actual, c.scrollUnit, extent);
      && r.requested == u.requested && r.actual == u.actual && r.ramp == u.ramp && r.target == u.target
      && (0.0 <= moved <= 1.0 ==> r.cur == moved)
      && (moved > 1.0 ==> r.cur == 1.0)
      && (moved < 0.0 ==> r.cur == 0.0)
  {
  }

  /** The content offset along one axis for scroll fraction `c`. */
  function Placement(contentOrigin: real, contentExtent: real,
                     areaOrigin: real, areaExtent: real, c: real): real
  {
    var minScroll := -contentExtent + areaExtent / 2.0;
    var maxScroll := areaExtent / 2.0;
    -contentOrigin + areaOrigin + c * maxScroll + (1.0 - c) * minScroll
  }

  /** After the move, the content point at fraction 1 - c of its extent
      lies on the centre of the scroll area: fraction 0 puts the content's
      far edge there, fraction 1 its near edge. */
  lemma PlacementCentres(contentOrigin: real, contentExtent: real,
                         areaOrigin: real, areaExtent: real, c: real)
    ensures contentOrigin + (1.0 - c) * contentExtent
            + Placement(contentOrigin, contentExtent, areaOrigin, areaExtent, c)
            == areaOrigin + areaExtent / 2.0
    ensures c == 1.0 ==>
      Placement(contentOrigin, contentExtent, areaOrigin, areaExtent, c) == -contentOrigin + areaOrigin + areaExtent / 2.0
  {
    var minScroll := -contentExtent + areaExtent / 2.0;
    var maxScroll := areaExtent / 2.0;
    calc {
      c * maxScroll + (1.0 - c) * minScroll;
      c * maxScroll + minScroll - c * minScroll;
      c * (maxScroll - minScroll) + minScroll;
      c * contentExtent + minScroll;
    }
  }

  /** The two scenarios worked by hand: from 0.5 at full speed the position
      moves by 40/1000; from 0.95 the damper halves the speed. */
  lemma TickScenarios()
    ensures AxisTick(AxisState(0.5, 1.0, 1.0, 0.0, None, 0.0), AxisConfig(0.1, 40.0, false), 1000.0).cur == 0.54
    ensures AxisTick(AxisState(0.95, 1.0, 0.0, 0.0, None, 0.0), AxisConfig(0.1, 40.0, false), 1000.0).actual == 0.5
    ensures AxisTick(AxisState(0.95, 1.0, 0.0, 0.0, None, 0.0), AxisConfig(0.1, 40.0, false), 1000.0).cur == 0.97
  {
  }

  // ---------------------------------------------------------------------
  // Iterated ramp steps and iterated ticks
  // ---------------------------------------------------------------------

  /** Ramp steps taken alone, each from the last: the speed a ramp would
      reach without the damper. A real tick feeds the damped speed back as
      the previous speed, so near a limit ticks can stall short of the
      target; `RampBringsAxisToRest` is the tick-level statement. */
  function RampIterate(previous: real, target: real, rate: real, n: nat): real
    decreases n
  {
    if n == 0 then previous else RampIterate(RampStep(previous, target, rate), target, rate, n - 1)
  }

  /** Once at its target, further ramp steps taken alone stay there. */
  lemma {:induction false} RampStaysAtTarget(target: real, rate: real, n: nat)
    requires rate >= 0.0
    ensures RampIterate(target, target, rate, n) == target
    decreases n
  {
    if n > 0 {
      assert RampStep(target, target, rate) == target;
      RampStaysAtTarget(target, rate, n - 1);
    }
  }

  /** Ramp steps taken alone, without the damper: starting at S with target
      T and rate R > 0, any n with n * R >= |S - T| (so ceil(|S - T| / R) in
      particular) reaches T exactly. */
  lemma {:induction false} RampReachesTarget(previous: real, target: real, rate: real, n: nat)
    requires rate > 0.0 && n as real * rate >= Abs(previous - target)
    ensures RampIterate(previous, target, rate, n) == target
    decreases n
  {
    if n > 0 {
      var s := RampStep(previous, target, rate);
      if s == target {
        RampStaysAtTarget(target, rate, n - 1);
      } else {
        assert (n - 1) as real * rate == n as real * rate - rate;
        RampReachesTarget(s, target, rate, n - 1);
      }
    }
  }

  function AxisTicks(s: AxisState, c: AxisConfig, extent: real, n: nat): AxisState
    requires 0.0 <= s.cur <= 1.0 && extent > 0.0
    decreases n
  {
    if n == 0 then s else AxisTicks(AxisTick(s, c, extent), c, extent, n - 1)
  }

  /** An axis without a ramp and with requested speed 0 stays at rest. */
  lemma {:induction false} RestStaysAtRest(s: AxisState, c: AxisConfig, extent: real, n: nat)
    requires 0.0 <= s.cur <= 1.0 && extent > 0.0
    requires s.ramp.None? && s.requested == 0.0
    ensures var r := AxisTicks(s, c, extent, n);
      r.ramp.None? && r.requested == 0.0 && (n > 0 ==> r.actual == 0.0 && r.previous == 0.0)
    decreases n
  {
    if n > 0 {
      RestStaysAtRest(AxisTick(s, c, extent), c, extent, n - 1);
    }
  }

  /** A tick leaves an axis at rest (no ramp, every speed 0) unchanged. */
  lemma RestTick(s: AxisState, c: AxisConfig, extent: real)
    requires 0.0 <= s.cur <= 1.0 && extent > 0.0
    requires s.ramp.None? && s.requested == 0.0 && s.actual == 0.0 && s.previous == 0.0
    ensures AxisTick(s, c, extent) == s
  {
    DampedSpeed(s, c);
    var u := ComputeAxisSpeed(s, c);
    assert u == s;
    assert 0.0 * c.scrollUnit == 0.0;
    assert Advance(u.cur, u.actual, c.scrollUnit, extent) == s.cur;
  }

  /** What the sensor's leave handler relies on: a ramp of rate R > 0 towards
      0 brings an enabled axis to rest, ramp cleared and requested speed 0,
      within n ticks whenever n * R covers the previous speed, whatever the
      damper does on the way. */
  lemma {:induction false} RampBringsAxisToRest(s: AxisState, c: AxisConfig, extent: real, n: nat)
    requires 0.0 <= s.cur <= 1.0 && extent > 0.0 && !c.disabled
    requires s.ramp.Some? && s.ramp.value > 0.0 && s.target == 0.0
    requires n >= 1 && Abs(s.previous) <= n as real * s.ramp.value
    ensures var r := AxisTicks(s, c, extent, n);
      r.ramp.None? && r.requested == 0.0 && r.actual == 0.0 && r.previous == 0.0
    decreases n
  {
    var rate := s.ramp.value;
    var t := AxisTick(s, c, extent);
    RampTowardsRest(s, c, extent);
    if rate >= Abs(s.previous) {
      RestStaysAtRest(t, c, extent, n - 1);
    } else {
      assert (n - 1) as real * rate == n as real * rate - rate;
      RampBringsAxisToRest(t, c, extent, n - 1);
    }
  }

  /** One tick of a ramp towards 0: a rate covering the previous speed
      stops the axis and clears the ramp; a smaller one keeps the ramp and
      takes at least the rate off the speed. */
  lemma RampTowardsRest(s: AxisState, c: AxisConfig, extent: real)
    requires 0.0 <= s.cur <= 1.0 && extent > 0.0 && !c.disabled
    requires s.ramp.Some? && s.ramp.value > 0.0 && s.target == 0.0
    ensures var t := AxisTick(s, c, extent);
      && (s.ramp.value >= Abs(s.previous) ==> t.ramp.None? && t.requested == 0.0 && t.actual == 0.0)
      && (s.ramp.value < Abs(s.previous) ==>
            t.ramp == s.ramp && t.target == 0.0 && Abs(t.previous) <= Abs(s.previous) - s.ramp.value)
  {
    var ramped := RampStep(s.previous, 0.0, s.ramp.value);
    RampedSpeed(s, c);
    TickMovesPosition(s, c, extent);
    if s.ramp.value < Abs(s.previous) {
      assert Abs(ramped) == Abs(s.previous) - s.ramp.value;
    }
  }

  // ---------------------------------------------------------------------
  // The scroller object
  // ---------------------------------------------------------------------

  /** The acceleration record: a rate per axis (undefined once reached) and
      the common target speed. */
  datatype Acceleration = Acceleration(x: Option<real>, y: Option<real>, targetSpeed: Vec) {
    function Rate(a: Axis): Option<real> {
      if a.X? then x else y
    }

    function WithRate(a: Axis, r: Option<real>): (acc: Acceleration)
      ensures acc.Rate(a) == r && acc.Rate(a.Other()) == Rate(a.Other())
      ensures acc.targetSpeed == targetSpeed
    {
      if a.X? then this.(x := r) else this.(y := r)
    }
  }

  /** setInterval and clearInterval, as the scroller calls them. */
  datatype TimerCall = SetInterval | ClearInterval

  /** The timer calls checkScrollState makes when it finds `moving`. */
  function TimerChange(wasRunning: bool, moving: bool): seq<TimerCall> {
    if moving && !wasRunning then [SetInterval]
    else if !moving && wasRunning then [ClearInterval]
    else []
  }

  /** A content box that updateScroll acts on: present with positive size. */
  predicate Usable(b: Option<Box>) {
    b.Some? && b.value.width > 0.0 && b.value.height > 0.0
  }

  class Scroller {
    const config: Config
    var curScroll: Vec
    var scrollSpeed: Vec
    var actualScrollSpeed: Vec
    var previousScrollSpeed: Vec
    var acceleration: Acceleration
    /** scrollingRunningId !== undefined */
    var running: bool
    var contentBox: Option<Box>
    /** The positions fired with onScrollUpdate, oldest first. */
    ghost var scrollUpdates: seq<Vec>
    /** The setInterval / clearInterval calls made, oldest first. */
    ghost var timerCalls: seq<TimerCall>

    function AxisOf(a: Axis): AxisState
      reads this`curScroll, this`scrollSpeed, this`actualScrollSpeed, this`previousScrollSpeed, this`acceleration
    {
      AxisState(curScroll.At(a), scrollSpeed.At(a), actualScrollSpeed.At(a),
                previousScrollSpeed.At(a), acceleration.Rate(a), acceleration.targetSpeed.At(a))
    }

    predicate Moving()
      reads this`actualScrollSpeed
    {
      actualScrollSpeed.x != 0.0 || actualScrollSpeed.y != 0.0
    }

    /** Positions stay in [0, 1], and a disabled axis never gets a speed. */
    ghost predicate Bounded()
      reads this`curScroll, this`scrollSpeed, this`actualScrollSpeed, this`previousScrollSpeed
    {
      && 0.0 <= curScroll.x <= 1.0 && 0.0 <= curScroll.y <= 1.0
      && (config.disableScroll.x ==>
            scrollSpeed.x == 0.0 && actualScrollSpeed.x == 0.0 && previousScrollSpeed.x == 0.0)
      && (config.disableScroll.y ==>
            scrollSpeed.y == 0.0 && actualScrollSpeed.y == 0.0 && previousScrollSpeed.y == 0.0)
    }

    /** Between public calls the timer runs exactly while some speed is non-zero. */
    ghost predicate Valid()
      reads this
    {
      Bounded() && running == Moving()
    }

    /** initialize: takes the merged configuration, the content's bounding
        box and the scroll area's box, sets the initial scroll and runs
        updateContentBox (which ticks once) and one more tick. */
    constructor (config: Config, content: Option<Box>, scrollBox: Box)
      requires 0.0 <= config.initialScroll.x <= 1.0 && 0.0 <= config.initialScroll.y <= 1.0
      ensures Valid()
      ensures this.config == config && contentBox == content
      ensures curScroll == config.initialScroll
      ensures scrollSpeed == Vec(0.0, 0.0) && actualScrollSpeed == Vec(0.0, 0.0) && previousScrollSpeed == Vec(0.0, 0.0)
      ensures acceleration == Acceleration(None, None, Vec(0.0, 0.0))
      ensures !running && timerCalls == []
      ensures scrollUpdates == if Usable(content) then [curScroll, curScroll] else []
    {
      this.config := config;
      curScroll := config.initialScroll;
      scrollSpeed := Vec(0.0, 0.0);
      actualScrollSpeed := Vec(0.0, 0.0);
      previousScrollSpeed := Vec(0.0, 0.0);
      acceleration := Acceleration(None, None, Vec(0.0, 0.0));
      running := false;
      contentBox := None;
      scrollUpdates := [];
      timerCalls := [];
      new;
      ghost var startX, startY := AxisOf(X), AxisOf(Y);
      if Usable(content) {
        RestTick(startX, config.ForAxis(X), content.value.width);
        RestTick(startY, config.ForAxis(Y), content.value.height);
      }
      var _ := UpdateContentBox(content, scrollBox);
      assert AxisOf(X) == startX && AxisOf(Y) == startY;
      var _ := UpdateScroll(scrollBox);
      assert AxisOf(X) == startX && AxisOf(Y) == startY;
    }

    /** checkScrollState: start the timer when some speed is non-zero and
        none runs, stop it when both are zero and one runs. */
    method CheckScrollState()
      modifies this`running, this`timerCalls
      ensures running == Moving()
      ensures timerCalls == old(timerCalls) + TimerChange(old(running), Moving())
    {
      var isRunning := actualScrollSpeed.x != 0.0 || actualScrollSpeed.y != 0.0;
      if isRunning {
        if !running {
          running := true;
          timerCalls := timerCalls + [SetInterval];
        }
      } else {
        if running {
          running := false;
          timerCalls := timerCalls + [ClearInterval];
        }
      }
    }

    /** The damper factor of one axis, the first half of computeActualAxisSpeed. */
    method AxisDamper(a: Axis) returns (damper: real)
      requires Bounded()
      ensures damper == DamperFactor(scrollSpeed.At(a), curScroll.At(a), config.damper.At(a))
    {
      var scrollLeft: real;
      damper := 1.0;
      if scrollSpeed.At(a) < 0.0 {
        scrollLeft := curScroll.At(a);
      } else {
        scrollLeft := 1.0 - curScroll.At(a);
      }
      if scrollLeft < config.damper.At(a) {
        damper := scrollLeft / config.damper.At(a);
      }
    }

    /** computeActualAxisSpeed for one axis. */
    method ComputeActualAxisSpeed(a: Axis)
      requires Bounded()
      modifies this`scrollSpeed, this`actualScrollSpeed, this`acceleration
      ensures Bounded()
      ensures AxisOf(a) == ComputeAxisSpeed(old(AxisOf(a)), config.ForAxis(a))
      ensures AxisOf(a.Other()) == old(AxisOf(a.Other()))
    {
      ghost var s0 := AxisOf(a);
      var requested := scrollSpeed.At(a);
      var previous := previousScrollSpeed.At(a);
      var rate := acceleration.Rate(a);
      var target := acceleration.targetSpeed.At(a);
      var actual: real;
      var damper := AxisDamper(a);

      if rate.Some? && !config.disableScroll.At(a) {
        if previous > target {
          actual := previous - rate.value;
          if actual < target {
            actual := target;
          }
        } else {
          actual := previous + rate.value;
          if actual > target {
            actual := target;
          }
        }
        assert actual == RampStep(previous, target, rate.value);
        if actual == target {
          rate := None;
          requested := target;
        }
        actual := actual * damper;
      } else {
        actual := requested * damper;
      }
      assert s0.(requested := requested, actual := actual, ramp := rate) == ComputeAxisSpeed(s0, config.ForAxis(a));
      scrollSpeed := scrollSpeed.With(a, requested);
      actualScrollSpeed := actualScrollSpeed.With(a, actual);
      acceleration := acceleration.WithRate(a, rate);
    }

    /** computeActualSpeed: x, then y. */
    method ComputeActualSpeed()
      requires Bounded()
      modifies this`scrollSpeed, this`actualScrollSpeed, this`acceleration
      ensures Bounded()
      ensures forall a: Axis :: AxisOf(a) == ComputeAxisSpeed(old(AxisOf(a)), config.ForAxis(a))
    {
      ComputeActualAxisSpeed(X);
      ComputeActualAxisSpeed(Y);
      forall a: Axis
        ensures AxisOf(a) == ComputeAxisSpeed(old(AxisOf(a)), config.ForAxis(a))
      {
        match a
        case X =>
        case Y =>
      }
    }

    /** The writes at the head of updateScrollSpeed: an enabled axis takes
        the new requested speed, the effective speeds are reset to the
        requested ones and both ramps are dropped. */
    method RequestSpeeds(xSpeed: real, ySpeed: real)
      requires Bounded()
      modifies this`scrollSpeed, this`actualScrollSpeed, this`acceleration
      ensures Bounded()
      ensures forall a: Axis :: AxisOf(a) == old(AxisOf(a)).(
        requested := if config.disableScroll.At(a) then old(scrollSpeed.At(a)) else Vec(xSpeed, ySpeed).At(a),
        actual := scrollSpeed.At(a),
        ramp := None)
    {
      if !config.disableScroll.x {
        scrollSpeed := scrollSpeed.(x := xSpeed);
      }
      if !config.disableScroll.y {
        scrollSpeed := scrollSpeed.(y := ySpeed);
      }
      actualScrollSpeed := scrollSpeed;
      acceleration := acceleration.(x := None, y := None);
    }

    /** updateScrollSpeed: a disabled axis keeps its requested speed; both
        ramps are dropped; the speeds and the timer are recomputed. */
    method UpdateScrollSpeed(xSpeed: real, ySpeed: real)
      requires Valid()
      modifies this`scrollSpeed, this`actualScrollSpeed, this`acceleration, this`running, this`timerCalls
      ensures Valid()
      ensures forall a: Axis :: AxisOf(a) == ComputeAxisSpeed(
        old(AxisOf(a)).(requested := if config.disableScroll.At(a) then old(scrollSpeed.At(a)) else Vec(xSpeed, ySpeed).At(a),
                        ramp := None),
        config.ForAxis(a))
      ensures timerCalls == old(timerCalls) + TimerChange(old(running), Moving())
    {
      RequestSpeeds(xSpeed, ySpeed);
      label Requested:
      ComputeActualSpeed();
      CheckScrollState();
      forall a: Axis
        ensures AxisOf(a) == ComputeAxisSpeed(
          old(AxisOf(a)).(requested := if config.disableScroll.At(a) then old(scrollSpeed.At(a)) else Vec(xSpeed, ySpeed).At(a),
                          ramp := None),
          config.ForAxis(a))
      {
        ghost var want := old(AxisOf(a)).(
          requested := if config.disableScroll.At(a) then old(scrollSpeed.At(a)) else Vec(xSpeed, ySpeed).At(a),
          ramp := None);
        assert old@Requested(AxisOf(a)) == want.(actual := old@Requested(scrollSpeed.At(a)));
        IgnoresActual(want, config.ForAxis(a), old@Requested(scrollSpeed.At(a)));
      }
    }

    /** setAcceleration: install a ramp of the given rates towards `target`,
        then recompute the speeds and the timer. */
    method SetAcceleration(xRate: real, yRate: real, target: Vec)
      requires Valid()
      modifies this`scrollSpeed, this`actualScrollSpeed, this`acceleration, this`running, this`timerCalls
      ensures Valid()
      ensures forall a: Axis :: AxisOf(a) == ComputeAxisSpeed(
        old(AxisOf(a)).(ramp := Some(Vec(xRate, yRate).At(a)), target := target.At(a)),
        config.ForAxis(a))
      ensures timerCalls == old(timerCalls) + TimerChange(old(running), Moving())
    {
      acceleration := Acceleration(Some(xRate), Some(yRate), target);
      ComputeActualSpeed();
      CheckScrollState();
      forall a: Axis
        ensures AxisOf(a) == ComputeAxisSpeed(
          old(AxisOf(a)).(ramp := Some(Vec(xRate, yRate).At(a)), target := target.At(a)),
          config.ForAxis(a))
      {
        match a
        case X =>
        case Y =>
      }
    }

    /** updateScroll, the timer's callback. With a usable content box it
        advances both axes by one tick, returns the new content offset
        (what content.moveTo receives), fires the new position and
        re-checks the timer; otherwise it changes nothing. */
    method UpdateScroll(scrollBox: Box) returns (moved: Option<Vec>)
      requires Valid()
      modifies this`scrollSpeed, this`actualScrollSpeed, this`previousScrollSpeed, this`acceleration,
               this`curScroll, this`running, this`timerCalls, this`scrollUpdates
      ensures Valid()
      ensures !Usable(contentBox) ==> moved == None && unchanged(this)
      ensures Usable(contentBox) ==>
        && (forall a: Axis :: AxisOf(a) == AxisTick(old(AxisOf(a)), config.ForAxis(a), contentBox.value.Extent(a)))
        && moved == Some(Vec(
             Placement(contentBox.value.x, contentBox.value.width, scrollBox.x, scrollBox.width, curScroll.x),
             Placement(contentBox.value.y, contentBox.value.height, scrollBox.y, scrollBox.height, curScroll.y)))
        && scrollUpdates == old(scrollUpdates) + [curScroll]
        && timerCalls == old(timerCalls) + TimerChange(old(running), Moving())
    {
      if contentBox.Some? && contentBox.value.width > 0.0 && contentBox.value.height > 0.0 {
        var cb := contentBox.value;
        ghost var x0, y0 := AxisOf(X), AxisOf(Y);
        ComputeActualSpeed();
        assert AxisOf(X) == ComputeAxisSpeed(x0, config.ForAxis(X));
        assert AxisOf(Y) == ComputeAxisSpeed(y0, config.ForAxis(Y));
        MoveBySpeed(cb);
        assert AxisOf(X) == AxisTick(x0, config.ForAxis(X), cb.width);
        assert AxisOf(Y) == AxisTick(y0, config.ForAxis(Y), cb.height);
        moved := Some(Vec(Placement(cb.x, cb.width, scrollBox.x, scrollBox.width, curScroll.x),
                          Placement(cb.y, cb.height, scrollBox.y, scrollBox.height, curScroll.y)));

        scrollUpdates := scrollUpdates + [curScroll];
        CheckScrollState();
        forall a: Axis
          ensures AxisOf(a) == AxisTick(old(AxisOf(a)), config.ForAxis(a), cb.Extent(a))
        {
          match a
          case X =>
          case Y =>
        }
      } else {
        moved := None;
      }
    }

    /** The second half of updateScroll's tick: remember the effective speed
        and move each axis by it, in units of the content's extent, clipped
        to [0, 1]. */
    method MoveBySpeed(cb: Box)
      requires 0.0 <= curScroll.x <= 1.0 && 0.0 <= curScroll.y <= 1.0
      requires cb.width > 0.0 && cb.height > 0.0
      modifies this`previousScrollSpeed, this`curScroll
      ensures previousScrollSpeed == actualScrollSpeed
      ensures curScroll.x == Clamp01(Advance(old(curScroll.x), actualScrollSpeed.x, config.scrollUnit.x, cb.width))
      ensures curScroll.y == Clamp01(Advance(old(curScroll.y), actualScrollSpeed.y, config.scrollUnit.y, cb.height))
    {
      previousScrollSpeed := actualScrollSpeed;
      var scrollRange := Vec(cb.width, cb.height);
      var scrollBy := Vec(actualScrollSpeed.x * config.scrollUnit.x, actualScrollSpeed.y * config.scrollUnit.y);
      var nx := curScroll.x + scrollBy.x / scrollRange.x;
      var ny := curScroll.y + scrollBy.y / scrollRange.y;
      assert nx == Advance(curScroll.x, actualScrollSpeed.x, config.scrollUnit.x, cb.width);
      assert ny == Advance(curScroll.y, actualScrollSpeed.y, config.scrollUnit.y, cb.height);
      if nx > 1.0 {
        nx := 1.0;
      } else if nx < 0.0 {
        nx := 0.0;
      }
      if ny > 1.0 {
        ny := 1.0;
      } else if ny < 0.0 {
        ny := 0.0;
      }
      curScroll := Vec(nx, ny);
    }

    /** updateContentBox: take a new content bounding box and tick once. */
    method UpdateContentBox(content: Option<Box>, scrollBox: Box) returns (moved: Option<Vec>)
      requires Valid()
      modifies this
      ensures Valid()
      ensures contentBox == content
      ensures !Usable(content) ==>
        && moved == None && AxisOf(X) == old(AxisOf(X)) && AxisOf(Y) == old(AxisOf(Y))
        && running == old(running) && scrollUpdates == old(scrollUpdates) && timerCalls == old(timerCalls)
      ensures Usable(content) ==>
        && (forall a: Axis :: AxisOf(a) == AxisTick(old(AxisOf(a)), config.ForAxis(a), content.value.Extent(a)))
        && moved == Some(Vec(
             Placement(content.value.x, content.value.width, scrollBox.x, scrollBox.width, curScroll.x),
             Placement(content.value.y, content.value.height, scrollBox.y, scrollBox.height, curScroll.y)))
        && scrollUpdates == old(scrollUpdates) + [curScroll]
        && timerCalls == old(timerCalls) + TimerChange(old(running), Moving())
    {
      contentBox := content;
      moved := UpdateScroll(scrollBox);
    }

    /** The sensor's onIntensityUpdate subscription: the speed is the
        intensity inverted on both axes. */
    method OnIntensityUpdate(intensity: Vec)
      requires Valid() && config.hasSensor
      modifies this`scrollSpeed, this`actualScrollSpeed, this`acceleration, this`running, this`timerCalls
      ensures Valid()
      ensures forall a: Axis :: AxisOf(a) == ComputeAxisSpeed(
        old(AxisOf(a)).(requested := if config.disableScroll.At(a) then old(scrollSpeed.At(a)) else -intensity.At(a),
                        ramp := None),
        config.ForAxis(a))
      ensures timerCalls == old(timerCalls) + TimerChange(old(running), Moving())
    {
      UpdateScrollSpeed(-intensity.x, -intensity.y);
      assert forall a: Axis :: Vec(-intensity.x, -intensity.y).At(a) == -intensity.At(a);
    }

    /** The sensor's onLeave subscription: ramp both axes down to rest at the
        configured maximum acceleration. */
    method OnLeave()
      requires Valid() && config.hasSensor
      modifies this`scrollSpeed, this`actualScrollSpeed, this`acceleration, this`running, this`timerCalls
      ensures Valid()
      ensures forall a: Axis :: AxisOf(a) == ComputeAxisSpeed(
        old(AxisOf(a)).(ramp := Some(config.maxAcceleration.At(a)), target := 0.0),
        config.ForAxis(a))
      ensures timerCalls == old(timerCalls) + TimerChange(old(running), Moving())
    {
      SetAcceleration(config.maxAcceleration.x, config.maxAcceleration.y, Vec(0.0, 0.0));
      assert forall a: Axis :: Vec(config.maxAcceleration.x, config.maxAcceleration.y).At(a) == config.maxAcceleration.At(a);
    }
  }

  /** A client run of the first scenario, part one: a centred scroller over
      content 1000 wide is set to speed 1 along x, which starts the timer. */
  method StartFromCentre() returns (s: Scroller)
    ensures s.Valid() && s.config == Defaults && s.contentBox == Some(Box(0.0, 0.0, 1000.0, 1000.0))
    ensures s.AxisOf(X) == AxisState(0.5, 1.0, 1.0, 0.0, None, 0.0)
    ensures s.running && s.timerCalls == [SetInterval]
    ensures fresh(s)
  {
    var content := Box(0.0, 0.0, 1000.0, 1000.0);
    s := new Scroller(Defaults, Some(content), Box(0.0, 0.0, 500.0, 500.0));
    assert s.AxisOf(X) == AxisState(0.5, 0.0, 0.0, 0.0, None, 0.0);
    s.UpdateScrollSpeed(1.0, 0.0);
    ghost var requested := AxisState(0.5, 1.0, 0.0, 0.0, None, 0.0);
    assert s.AxisOf(X) == ComputeAxisSpeed(requested, Defaults.ForAxis(X));
    DampedSpeed(requested, Defaults.ForAxis(X));
  }

  /** Part two: one timer tick moves the position from 0.5 to 0.54. */
  method ScenarioFromCentre() {
    var s := StartFromCentre();
    ghost var before := s.AxisOf(X);
    var moved := s.UpdateScroll(Box(0.0, 0.0, 500.0, 500.0));
    assert s.AxisOf(X) == AxisTick(before, s.config.ForAxis(X), s.contentBox.value.Extent(X));
    TickScenarios();
    assert s.curScroll.x == 0.54;
  }
}
