# SVG widgets: scroller, sensor and transform animation

This project models three pieces of an SVG demo toolkit in Dafny and proves
properties of them.

- **Scroller** (`res/2.0/scripts/widgets/scroller.js`). A per-axis
  integrator with these parts:
  - a scroll position normalised to [0, 1];
  - a requested speed, an effective speed and the previous effective speed;
  - an optional acceleration ramp towards a target speed;
  - a repeating timer that runs exactly while some effective speed is
    non-zero.

  Each tick computes a damper factor from the distance to the limit the
  axis heads for and moves the previous speed towards the target by at most
  the ramp rate. It then advances the position by `speed * scrollUnit /
  contentExtent`, clips it to [0, 1] and places the content with a linear
  formula. The configuration merge with its `typeof` checks is modelled
  too, including the TypeErrors it can throw.
- **Sensor** (`res/2.0/scripts/widgets/sensor.js`). It maps a control point
  and the sensor's bounding box to an intensity in [-1, 1] per axis, with
  per-axis "out" flags. It then applies the intensity functions and fires
  leave, enter and intensity-update events as the point crosses the box.
- **Transform animation** (`res/2.0/scripts/animation/animate.js`). This
  covers:
  - the "txf" attribute handler: `getAttribute`, `interpolate`,
    `setAttribute`, and `applyTransform`, which fills the five
    pseudo-attributes `tx`, `ty`, `sx`, `sy`, `r` into a transform
    template;
  - the `onEnd` / `onBegin` registration lists and their dispatch loops;
  - the memoised start handler.

The closure state of the scroller and the sensor becomes the fields of a
class. Each method is proved against pure functions of one axis
(`ComputeAxisSpeed`, `AxisTick`) or of the reading history (`Read`, `Run`).
Events and timer calls are recorded in ghost logs. DOM geometry comes in as
parameters (`Box`, a point already in local coordinates). What the DOM would
receive comes out as results: the content offset, and the element's
transform string.

## Model

| member | source | states |
|---|---|---|
| Scroller.ParseConfig | res/2.0/scripts/widgets/scroller.js:191-259 | No configuration gives the defaults. The result is a failure exactly when a member of a `null` group is read, when a numeric `maxAcceleration.y` is given (the write into the undefined `config.maxAccelleration`), or when an accepted sensor has no `onLeave`. On success every override of the right type replaces its default, and `maxAcceleration.y` is always the default. |
| Scroller.ParseConfigIntended | res/2.0/scripts/widgets/scroller.js:230-237 | The corrected reading: a `maxAcceleration.y` override is stored like every other override. Failures come only from `null` reads and a missing `onLeave`. |
| Scroller.MaxAccelerationYOverrideThrows | res/2.0/scripts/widgets/scroller.js:234-236 | The configuration `{maxAcceleration: {y: 0.02}}` throws as written. As intended it yields maximum acceleration (0.01, 0.02). |
| Scroller.Merge | res/2.0/scripts/widgets/scroller.js:191-237 | Each group that is an object replaces the default of every member it gives with the right type. A group that is not an object keeps the defaults. The sensor is taken when it has an events object with `onIntensityUpdate`. |
| Scroller.NullRead | res/2.0/scripts/widgets/scroller.js:191-237 | The first group read while it is `null`, in the order the configuration is read: damper, sensor, sensor.events, scrollUnit, disableScroll, initialScroll, maxAcceleration. |
| Scroller.TimerChange | res/2.0/scripts/widgets/scroller.js:287-301 | `setInterval` when moving without a timer, `clearInterval` when still with one, no call otherwise. |
| Scroller.Advance | res/2.0/scripts/widgets/scroller.js:470-474 | The unclipped position after one frame: `cur + speed * scrollUnit / extent`. |
| Scroller.Placement | res/2.0/scripts/widgets/scroller.js:451-494 | The content offset `-cb.x + sb.x + c * (sb.width / 2) + (1 - c) * (-cb.width + sb.width / 2)` along one axis. Its meaning is stated by `PlacementCentres`. |
| Scroller.DamperFactor | res/2.0/scripts/widgets/scroller.js:368-382 | With the position in [0, 1] the factor lies in [0, 1]. It is below 1 exactly when the distance left to the limit is below the damper. It is 0 at the limit when the damper is positive. |
| Scroller.RampStep | res/2.0/scripts/widgets/scroller.js:389-406 | The ramp moves down when previous > target and up otherwise. It moves by exactly the rate, or to the target, never past it. It lands on the target exactly when the rate covers the gap, and never moves further than the rate. |
| Scroller.ComputeAxisSpeed | res/2.0/scripts/widgets/scroller.js:367-419 | Leaves the position, the previous speed and the ramp target untouched. Its speeds are stated by `DampedSpeed` and `RampedSpeed`. |
| Scroller.IgnoresActual | res/2.0/scripts/widgets/scroller.js:385-419 | The effective speed is recomputed from scratch: the value already stored for it makes no difference. |
| Scroller.DampedSpeed | res/2.0/scripts/widgets/scroller.js:416-418 | Without a ramp, or on a disabled axis, the requested speed and the ramp are kept. The effective speed is no larger than the requested speed in magnitude, strictly smaller inside the damper zone, equal outside it, and 0 at the limit. |
| Scroller.RampedSpeed | res/2.0/scripts/widgets/scroller.js:385-414 | With a ramp on an enabled axis, the ramp is cleared exactly when the ramped speed reaches the target, and the requested speed is then pinned to the target. Otherwise both are kept. The effective speed is the ramped speed damped: never larger in magnitude, equal outside the damper zone, 0 at the limit. |
| Scroller.Clamp01 | res/2.0/scripts/widgets/scroller.js:476-487 | The clipped value lies in [0, 1]. A value inside the range is kept; one above becomes 1 and one below becomes 0. |
| Scroller.AxisTick | res/2.0/scripts/widgets/scroller.js:465-487 | After any tick that runs, the position lies in [0, 1], whatever the speed or scroll unit. The previous speed becomes the new effective speed. |
| Scroller.TickMovesPosition | res/2.0/scripts/widgets/scroller.js:465-487 | A tick keeps the speeds and the ramp that `computeActualSpeed` produced. It moves the position by `actual * scrollUnit / extent`, clipped at 0 and 1. |
| Scroller.PlacementCentres | res/2.0/scripts/widgets/scroller.js:451-494 | After the move, the content point at fraction 1 - c of its extent sits at the centre of the scroll area. At c = 1 the offset is `-cb.x + sb.x + sb.width / 2`. |
| Scroller.TickScenarios | res/2.0/scripts/widgets/scroller.js:465-487 | Two ticks worked by hand, with unit 40 and width 1000. From 0.5 at speed 1 the position becomes 0.54. From 0.95 the damper halves the speed and the position becomes 0.97. |
| Scroller.RampStaysAtTarget | res/2.0/scripts/widgets/scroller.js:389-406 | Ramp steps taken alone, without the damper: once the ramped speed is at the target, further steps keep it there. |
| Scroller.RampReachesTarget | res/2.0/scripts/widgets/scroller.js:389-406 | Ramp steps taken alone, without the damper: with rate R > 0, any n with n * R >= the distance to the target reaches the target exactly in n steps. A real tick feeds the damped speed back, so this is not a statement about ticks; `RampBringsAxisToRest` is. |
| Scroller.RestStaysAtRest | res/2.0/scripts/widgets/scroller.js:416-418 | An axis with no ramp and requested speed 0 stays at rest over any number of ticks. |
| Scroller.RestTick | res/2.0/scripts/widgets/scroller.js:465-487 | A tick leaves an axis at rest (no ramp, every speed 0) unchanged. |
| Scroller.RampTowardsRest | res/2.0/scripts/widgets/scroller.js:385-414 | One tick of a ramp towards 0: a rate covering the previous speed stops the axis and clears the ramp. A smaller rate keeps the ramp and takes at least the rate off the speed. |
| Scroller.RampBringsAxisToRest | res/2.0/scripts/widgets/scroller.js:252-257 | The leave handler's ramp towards 0 brings an enabled axis to rest within n ticks, whatever the damper does, whenever n * rate covers the previous speed. At rest the ramp is cleared and every speed is 0. |
| Scroller.Scroller.constructor | res/2.0/scripts/widgets/scroller.js:276-281 | The initial scroll is the configured one, every speed is 0 and no ramp is set. No timer is started. With a usable content box, the two ticks leave the state as it was and fire the position twice. |
| Scroller.Scroller.CheckScrollState | res/2.0/scripts/widgets/scroller.js:287-301 | The timer runs exactly when some effective speed is non-zero. It is created only if none existed and cleared only if one did. |
| Scroller.Scroller.AxisDamper | res/2.0/scripts/widgets/scroller.js:368-382 | Returns the damper factor of the axis. |
| Scroller.Scroller.ComputeActualAxisSpeed | res/2.0/scripts/widgets/scroller.js:367-419 | The axis' new state is `ComputeAxisSpeed` of its old state. The other axis is unchanged. |
| Scroller.Scroller.ComputeActualSpeed | res/2.0/scripts/widgets/scroller.js:354-357 | Both axes are advanced by `ComputeAxisSpeed`. |
| Scroller.Scroller.RequestSpeeds | res/2.0/scripts/widgets/scroller.js:310-323 | An enabled axis takes the new requested speed and a disabled one keeps its own. Effective speeds are reset to the requested ones, and both ramps are cleared. |
| Scroller.Scroller.UpdateScrollSpeed | res/2.0/scripts/widgets/scroller.js:309-327 | Each axis becomes `ComputeAxisSpeed` of its old state with the ramp cleared. Its requested speed is the new one, or the old one when the axis is disabled. The timer follows, and the running-iff-moving invariant is kept. |
| Scroller.Scroller.SetAcceleration | res/2.0/scripts/widgets/scroller.js:336-348 | Each axis becomes `ComputeAxisSpeed` of its old state with the given ramp rate and target. The timer follows. |
| Scroller.Scroller.UpdateScroll | res/2.0/scripts/widgets/scroller.js:438-502 | With a usable content box, each axis advances by `AxisTick`. The method returns the content offset given by the placement formula, fires the new position and updates the timer. Otherwise nothing changes and no offset is produced. |
| Scroller.Scroller.MoveBySpeed | res/2.0/scripts/widgets/scroller.js:467-487 | The previous speed becomes the effective speed. Each position advances by `actual * scrollUnit / extent` and is clipped to [0, 1]. |
| Scroller.Scroller.UpdateContentBox | res/2.0/scripts/widgets/scroller.js:428-432 | Stores the new content box, then ticks once as `UpdateScroll` does. |
| Scroller.Scroller.OnIntensityUpdate | res/2.0/scripts/widgets/scroller.js:242-251 | The requested speed is the sensor intensity negated on each enabled axis, and the speeds are recomputed as in `UpdateScrollSpeed`. |
| Scroller.Scroller.OnLeave | res/2.0/scripts/widgets/scroller.js:252-258 | Both axes ramp towards speed 0 at the configured maximum acceleration. |
| Scroller.StartFromCentre | res/2.0/scripts/widgets/scroller.js:309-327 | A default scroller, centred over content 1000 wide and given speed (1, 0), has effective speed 1 along x and has started its timer. |
| Sensor.AxisIntensity | res/2.0/scripts/widgets/sensor.js:99-112 | The clamped intensity lies in [-1, 1]. |
| Sensor.AxisInsideIffWithin | res/2.0/scripts/widgets/sensor.js:99-112 | An axis is in exactly when the point lies within one half length of the reference, so exactly ±1 is not out. Inside, the intensity is the proportional offset; outside, it is the sign of the offset. |
| Sensor.AxisCentreAndEdges | res/2.0/scripts/widgets/sensor.js:99-112 | The intensity is 0 at the centre. It is +1 and -1 at the two edges, which are still in. |
| Sensor.AxisMonotone | res/2.0/scripts/widgets/sensor.js:99-112 | The intensity never decreases as the control point moves in the positive direction. |
| Sensor.InsideIffWithinBounds | res/2.0/scripts/widgets/sensor.js:127-140 | Measured about the box centre with half extents, a reading is in exactly when the point lies inside the closed bounding box. This holds whatever the intensity functions, because `isOut` is taken before they apply. |
| Sensor.DefaultReadingInRange | res/2.0/scripts/widgets/sensor.js:67-70 | With the default intensity functions, both intensities of a reading lie in [-1, 1]. |
| Sensor.Read | res/2.0/scripts/widgets/sensor.js:127-140 | Both axes measured about the box centre in half extents, `isOut` from the clamped axes, then `fx(x, y)` and `fy(y, new x)`. |
| Sensor.PreviousOf | res/2.0/scripts/widgets/sensor.js:157-159 | The previous state after a history of readings: the last reading's intensities and out flag, or out with zero intensities before any. |
| Sensor.Run | res/2.0/scripts/widgets/sensor.js:142-159 | All events a history of readings fires, in order: each reading dispatched against the state the one before it left. |
| Sensor.Dispatch | res/2.0/scripts/widgets/sensor.js:142-155 | Leave is fired exactly when the point goes out from in, and enter exactly when it comes in from out. An update carrying the intensities is fired exactly when the point is in. At most two events are fired. |
| Sensor.RunSnoc | res/2.0/scripts/widgets/sensor.js:142-159 | A new reading appends its dispatched events, judged against the previous state, and then becomes the previous state. |
| Sensor.DispatchCrossings | res/2.0/scripts/widgets/sensor.js:142-152 | One reading fires leave, enter or no crossing, according to the previous and new out states. |
| Sensor.DispatchUpdates | res/2.0/scripts/widgets/sensor.js:148-155 | One reading fires an update carrying its intensities exactly when it is in. |
| Sensor.RunAlternates | res/2.0/scripts/widgets/sensor.js:142-159 | Over any history, enter and leave strictly alternate, starting with enter. An odd number of them has been fired exactly when the point is now in. |
| Sensor.RunUpdates | res/2.0/scripts/widgets/sensor.js:142-159 | The updates fired are exactly the intensities of the readings that were in, in order. |
| Sensor.FirstEntry | res/2.0/scripts/widgets/sensor.js:60-64 | The initial previous state is out, so a first reading inside fires enter and then an update. |
| Sensor.Sensor.constructor | res/2.0/scripts/widgets/sensor.js:46-80 | Starts with nothing read and everything out. Each intensity function is the one given, or the identity on its own axis. |
| Sensor.Sensor.ComputeAxisIntensity | res/2.0/scripts/widgets/sensor.js:99-112 | Writes the axis' clamped intensity and out flag, and nothing else. |
| Sensor.Sensor.TakeReading | res/2.0/scripts/widgets/sensor.js:127-140 | The current reading becomes `Read` of the control point and bounds under the sensor's intensity functions. |
| Sensor.Sensor.FireEvents | res/2.0/scripts/widgets/sensor.js:142-155 | Appends the events `Dispatch` gives for the previous out state and the current reading. |
| Sensor.Sensor.SetControlPoint | res/2.0/scripts/widgets/sensor.js:121-161 | Takes the reading, fires its events against the old previous state and remembers the reading. The fired log keeps equal to `Run` of the readings, and the previous state to the last reading. |
| Animate.WithDefaults | res/2.0/scripts/animation/animate.js:270-287 | What `getAttribute` returns: each pseudo-attribute's value on the element, or its default (0, 0, 1, 1, 0). |
| Animate.CompleteOver | res/2.0/scripts/animation/animate.js:278-285 | The element's properties after the default of each missing attribute of a list has been written, in order. |
| Animate.Complete | res/2.0/scripts/animation/animate.js:278-285 | The element's properties after `getAttribute`: `CompleteOver` all five pseudo-attributes. |
| Animate.CompleteOverSpec | res/2.0/scripts/animation/animate.js:278-285 | Writing missing defaults never overwrites a property. Afterwards every visited pseudo-attribute has a value, its default when it had none, and no other name is added. |
| Animate.CompleteHoldsResult | res/2.0/scripts/animation/animate.js:270-287 | After `getAttribute` the element holds every pseudo-attribute, with the value that was returned, and every other property is unchanged. |
| Animate.GetAttributeIdempotent | res/2.0/scripts/animation/animate.js:270-287 | A second `getAttribute` returns the same values and writes nothing more. |
| Animate.GetAttribute | res/2.0/scripts/animation/animate.js:270-287 | Returns the element's value for each pseudo-attribute, or the default (0, 0, 1, 1, 0). The element is left holding `Complete` of its old properties. |
| Animate.Lerp | res/2.0/scripts/animation/animate.js:309 | `p * e + (1 - p) * s`. |
| Animate.FillStart | res/2.0/scripts/animation/animate.js:293-306 | The five start values after back-filling: the given one, else the element's, else the default. |
| Animate.Blend | res/2.0/scripts/animation/animate.js:308-312 | Each attribute interpolated towards its end value when it has one, else kept at its start value. |
| Animate.LerpBetween | res/2.0/scripts/animation/animate.js:308-309 | Progress 0 gives the start and progress 1 gives the end. Progress in [0, 1] gives a value between the two. |
| Animate.FillStartSpec | res/2.0/scripts/animation/animate.js:293-306 | A start value that is given is kept. A missing one is what `getAttribute` would return: the element's value, else the default. |
| Animate.BlendEndpoints | res/2.0/scripts/animation/animate.js:289-315 | Progress 0 yields the start values. Progress 1 yields the end value of every attribute that has one, and the start value of the others. In between, each attribute lies between its start and end. |
| Animate.StartValue | res/2.0/scripts/animation/animate.js:293-306 | Gives the back-filled start value of one attribute, and writes it into the start object. |
| Animate.Interpolate | res/2.0/scripts/animation/animate.js:289-315 | The start object ends up holding every attribute, each back-filled. The result is `Blend` of the back-filled start values towards the end values. |
| Animate.IndexOf | res/2.0/scripts/animation/animate.js:261 | Finds the first occurrence of the pattern, or reports that there is none. |
| Animate.ReplaceFirst | res/2.0/scripts/animation/animate.js:172 | `replace` with a string pattern: the first occurrence replaced, or the string unchanged when there is none. |
| Animate.Substitute | res/2.0/scripts/animation/animate.js:170-173 | Each (pattern, replacement) pair applied with `replace` in turn, first pair first. |
| Animate.ReplaceFirstAt | res/2.0/scripts/animation/animate.js:261 | In `a + pat + b`, when no occurrence starts inside `a`, `replace` yields `a + rep + b`. |
| Animate.FillPlaceholder | res/2.0/scripts/animation/animate.js:261 | A '#' placeholder preceded by text free of '#' is replaced in place. |
| Animate.TemplateFilled | res/2.0/scripts/animation/animate.js:170-173 | Any template with the five placeholders in order, and fixed text free of '#', gets each placeholder replaced in place by its value. |
| Animate.DocumentedTemplateFilled | res/2.0/scripts/animation/animate.js:46-49 | The documented template `translate(#tx,#ty) scale(#sx,#sy) rotate(#r)` fills into `translate(tx,ty) scale(sx,sy) rotate(r)`. |
| Animate.Record | res/2.0/scripts/animation/animate.js:262 | The properties `e[p] = val` writes for a sequence of entries, a later entry for the same name winning. |
| Animate.RecordLastWins | res/2.0/scripts/animation/animate.js:258-263 | A name recorded on the element holds the value of its last entry. |
| Animate.RecordStep | res/2.0/scripts/animation/animate.js:258-263 | Recording one more entry updates that one property. |
| Animate.SetThenGet | res/2.0/scripts/animation/animate.js:255-287 | Setting the five values that `interpolate` produces, then getting them back, returns the same values. |
| Animate.SetAttribute | res/2.0/scripts/animation/animate.js:255-268 | A falsy template (undefined or "") changes nothing. Otherwise every given value is recorded on the element, and the transform becomes the template with each placeholder substituted in turn. |
| Animate.ApplyTransform | res/2.0/scripts/animation/animate.js:162-176 | An undefined template throws a TypeError and writes nothing. Otherwise the transform becomes the template with each placeholder replaced by the element's value, or by "undefined" when the element has none. |
| Animate.DocumentedTransform | res/2.0/scripts/animation/animate.js:162-176 | Once the element holds all five values, `applyTransform` on the documented template writes them in place. |
| Animate.Functions | res/2.0/scripts/animation/animate.js:198-222 | The callback list a sequence of registrations builds: the functions, in order. |
| Animate.Animatables | res/2.0/scripts/animation/animate.js:198-222 | The animation list a sequence of registrations builds: the objects with `animate`, in order. |
| Animate.RegistrationsPartition | res/2.0/scripts/animation/animate.js:198-222 | Every registration lands in exactly one list, or in none when it is neither a function nor an object with `animate`. |
| Animate.RegisteredAreListed | res/2.0/scripts/animation/animate.js:198-222 | A function is in the callback list exactly when it was registered, and likewise for animations. |
| Animate.Notify | res/2.0/scripts/animation/animate.js:73-91 | Calls every callback in order, then plays every animation in order. |
| Animate.Animation.constructor | res/2.0/scripts/animation/animate.js:63-71 | All four lists start empty and there is no start handler yet. |
| Animate.Animation.OnEnd | res/2.0/scripts/animation/animate.js:198-206 | A function is appended to the end callbacks, and an object with `animate` to the end animations. Anything else leaves both lists unchanged. |
| Animate.Animation.OnBegin | res/2.0/scripts/animation/animate.js:214-222 | As `OnEnd`, for the begin lists. |
| Animate.Animation.OnComplete | res/2.0/scripts/animation/animate.js:73-81 | Calls the end callbacks in registration order, then plays the end animations. |
| Animate.Animation.OnStart | res/2.0/scripts/animation/animate.js:83-91 | Calls the begin callbacks in registration order, then plays the begin animations. |
| Animate.Animation.GetStartHandler | res/2.0/scripts/animation/animate.js:181-190 | The first call makes a new handler for this animation. Every later call returns that same handler. |
| Animate.StartHandler.Invoke | res/2.0/scripts/animation/animate.js:184-186 | Invoking the handler plays its animation. |

## Left out

- DOM geometry: `getBBox`, `getScreenCTM().inverse().transformPoint`, `appendChild`, `content.moveTo` and `setAttribute("transform", …)` are not called. Boxes and the already transformed control point are parameters. The content offset and the transform string are results.
- Timers: `setInterval` / `clearInterval` become the `running` flag and a ghost log of calls. Scheduling and the 40 ms period are not modelled.
- YUI: `CustomEvent` subscription and firing become ghost event logs. The `Anim` base class, the easing method used by `doMethod`, the attribute-handler routing and `yui.lang.extend` are foreign code.
- Floating point: numbers are reals. Infinity, NaN and rounding are not modelled. The exact `===` test against the target speed holds in reals, because the value was assigned from the target.
- Number-to-string conversion in the templates is a parameter, `format`.
- `$` patterns in the replacement string of `String.prototype.replace` are not modelled. A replacement is inserted literally.
- Scroller.Scroller.constructor: requires the configured initial scroll to lie in [0, 1], the range the configuration documents. The damper factor and the position invariant depend on it.
- Sensor.Sensor.SetControlPoint: requires a bounding box of non-zero width and height. A zero extent divides by zero, which gives Infinity or NaN in JavaScript.
- `updateContentBox` also sets a `contentBox` property that nothing reads. It lands on the scroller when the function is called as the public method, and on the global object from the constructor's bare call. The model omits that property.
- When the sensor lacks `onLeave`, the constructor throws after it has already subscribed the `onIntensityUpdate` listener. That listener stays on the sensor; the model records only the failure.
- A sensor whose `onIntensityUpdate` is not a subscribable event is taken to have one, so the model does not throw there.
- A callback or animation that throws inside the onComplete / onStart loops stops the rest of that dispatch, and an intensity function that throws stops `setControlPoint` before any event fires. The model assumes no callback throws: `Notify` promises every call, and `Read` applies the functions as total.
- Callbacks that register more callbacks or animations during a dispatch loop, and listeners that keep the live intensity object, are not modelled.
- `for … in` over the value object in `setAttribute` follows the order of the given entries. Inherited enumerable properties are not modelled.
- The leaked global `a` in `getAttribute` is not modelled.
- The sensor's doc comment puts intensity 1 at the centre and 0 at the edges. The code, which the model follows, gives 0 at the centre and ±1 at the edges.
- The animation's doc comment names a default template, but no code sets one, and nothing in the file sets `transformTemplate`. `ApplyTransform` therefore takes the template as an optional parameter, and an undefined template throws.
- `res/2.0/scripts/utils/ez-transform.js` and `res/2.0/scripts/utils/simple_drag.js` are DOM and mouse glue and are not part of this model.

## Findings

| source | as written | input that shows it | evidently intended | confidence | as-written member | corrected member |
|---|---|---|---|---|---|---|
| res/2.0/scripts/widgets/scroller.js:235 | A numeric `maxAcceleration.y` override is assigned into `config.maxAccelleration.y`. That misspelled member is undefined, so the constructor throws a TypeError. | configuration `{maxAcceleration: {y: 0.02}}` | `config.maxAcceleration.y = 0.02`, as for the x member | not executed | Scroller.ParseConfig, Scroller.MaxAccelerationYOverrideThrows | Scroller.ParseConfigIntended |
