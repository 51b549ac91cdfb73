# Compass tracker session, modelled in Dafny

The web page of this repository points an arrow from the user's live
position toward a target latitude/longitude. It keeps six module-level
variables (`tracking`, `currentPosition`, `targetLat`, `targetLon`,
`compassHeading`, `targetBearing`). Three kinds of event update them:

- clicks on the control button;
- device-orientation readings;
- position fixes.

Each handler checks its guard, overwrites some of the variables and
recomputes what it can: the great-circle bearing and the haversine distance
to the target, and the arrow rotation `bearing − heading`.

The project has three modules:

- `JsValues` (`js_values.dfy`) holds JavaScript numbers as the page sees
  them: NaN, the two infinities, and finite values as exact reals. It gives
  the `<`, `-`, `/` and `% 360` the page uses. Its `Option` stands for `null`
  or `undefined` versus a value.
- `Geo` (`geo.dfy`) holds the arithmetic of `calculateBearingAndDistance`,
  `updateCompass` and `formatDistance`. `Math.sin`, `Math.cos`, `Math.atan2`
  and `Math.sqrt` are a parameter, a `MathLib` record of functions. The
  predicate `MathValid` lists the only facts used about them: the range of
  `atan2`, and a handful of exact values such as `sin(0) = 0`. These facts
  hold of JavaScript's implementations. `MathValidSatisfiable` shows that some
  `MathLib` meets them.
- `Tracker` (`tracker.dfy`) holds class `Session`. Its fields are the six
  variables, and its methods are the handlers. Each handler that changes
  state has `modifies this` and states the whole new state. `Valid()` (the bearing is NaN or
  in [0, 360)) is kept by every handler. `TrackingHasTarget()` (while
  tracking, the stored target passed validation) is established by every
  click.

Behaviour of the code that the model reproduces:

- `startTracking` stores the parsed target before checking it. A rejected
  start therefore still overwrites `targetLat`/`targetLon`.
- `updatePosition` has no `tracking` guard. Position watchers are never
  removed, so fixes keep arriving after a stop.
- The guard of `calculateBearingAndDistance` tests for `null` only. A NaN
  target left by a rejected start reaches the formulas and makes the
  bearing NaN. After a later valid start, the first compass reading then
  turns the arrow by NaN. `RejectedRestartLeavesNaNBearing` walks through
  this sequence.

Where a reader might expect otherwise, the model follows the code:

- Position fixes are applied whether or not tracking is on.
- A rejected target is stored, not discarded.
- The bearing is recomputed for any non-`null` target, not only for a
  validated one.

## Model

| member | source | states |
|---|---|---|
| `JsValues.LessMeaning` | web/app.js:67 | JavaScript `<` never holds with NaN on either side, is the order of the reals on finite values, and is asymmetric |
| `JsValues.Sub` | web/app.js:183 | NaN on either side gives NaN; on finite values `r + b == a` |
| `JsValues.DivPositive` | web/app.js:191 | Division by a positive constant is NaN exactly for NaN, and on finite values `r * d == a` |
| `JsValues.Remainder360` | web/app.js:161 | JavaScript `x % 360`: the remainder has the sign of `x`, is under 360 in magnitude and is congruent to `x` modulo 360; it is `x` on [0, 360) and `x − 360` on [360, 720) |
| `Geo.InitialBearing` | web/app.js:151-160 | The initial great-circle bearing in degrees lies in [−180, 180] for every pair of points |
| `Geo.NormalizeBearing` | web/app.js:161 | `(bearing + 360) % 360` lies in [0, 360) for every bearing from −360 on, is congruent to the bearing modulo 360, and leaves a bearing in [0, 360) unchanged |
| `Geo.TargetBearing` | web/app.js:148-161 | The stored bearing is in [0, 360) when both target coordinates are finite and NaN otherwise |
| `Geo.Haversine` | web/app.js:164-169 | The haversine distance is NaN (a negative `Math.sqrt` argument) or lies in [0, 6371000·π] metres |
| `Geo.TargetDistance` | web/app.js:151-169 | The displayed distance is NaN or in [0, 6371000·π]; it is NaN whenever a target coordinate is not finite |
| `Geo.SamePoint` | web/app.js:151-169 | From a point to itself the distance is exactly 0 and the bearing is 0 |
| `Geo.Rotation` | web/app.js:183 | The rotation is NaN exactly when the bearing is; otherwise `heading + rotation == bearing`, unnormalised |
| `Geo.RotationWithinOneTurn` | web/app.js:183 | For a bearing in [0, 360) and a heading in [0, 360] the rotation lies in [−360, 360) |
| `Geo.FormatDistance` | web/app.js:187-193 | Metres exactly when a finite distance is below 1000, kilometres from 1000 on; the label converts back to the same number of metres; NaN is shown in km |
| `Tracker.CheckTarget` | web/app.js:62-70 | A target is accepted exactly when both coordinates are finite, latitude in [−90, 90] and longitude in [−180, 180]; the not-a-number alert is chosen exactly when one coordinate is NaN |
| `Tracker.Session.constructor` | web/app.js:2-7 | The initial state: not tracking, no position, no target, no heading, bearing 0 |
| `Tracker.Session.StartTracking` | web/app.js:58-72 | The parsed target is always stored; tracking becomes true exactly when the target is valid and is otherwise unchanged; position, heading and bearing are unchanged |
| `Tracker.Session.StopTracking` | web/app.js:97-104 | Tracking becomes false; position, target, heading and bearing are all kept |
| `Tracker.Session.Click` | web/app.js:50-56 | When tracking, a click stops and keeps the target; otherwise it starts on the entered target; afterwards tracking implies a valid stored target |
| `Tracker.Session.UpdateCompass` | web/app.js:177-185 | A rotation is produced exactly when a heading exists and tracking is on, and it equals `targetBearing − compassHeading` |
| `Tracker.Session.HandleOrientation` | web/app.js:115-132 | Nothing changes unless tracking; `webkitCompassHeading` wins over `360 − alpha`; with neither the heading is kept; in-range readings give a heading in [0, 360]; only the heading changes |
| `Tracker.Session.CalculateBearingAndDistance` | web/app.js:148-175 | The bearing is recomputed exactly when a fix and a non-null target exist, and is kept otherwise; while tracking with a fix it is finite |
| `Tracker.Session.UpdatePosition` | web/app.js:134-141 | The fix is stored whatever `tracking` is; the bearing and the shown distance label are recomputed from the fix when the target is non-null; the arrow is refreshed as `updateCompass` decides |
| `Tracker.RejectedRestartLeavesNaNBearing` | web/app.js:134-161 | Start, stop, a start rejected for a NaN latitude, then a fix: the bearing is NaN, and after a valid restart the next compass reading rotates the arrow by NaN |
| `Tracker.StartThenClickStops` | web/app.js:50-56 | A valid start followed by a click leaves tracking false and keeps the started target |

The helpers `Geo.Radians` (`deg * Math.PI / 180`), `JsValues.IsNaN`
(`isNaN`) and `JsValues.Less` (JavaScript `<`) have no rows of their own:
the rows of `Geo.InitialBearing`, `Tracker.CheckTarget` and
`JsValues.LessMeaning` cover them.

## Left out

- server.py: a static HTTPS file server, pure I/O.
- DOM effects are not modelled: `textContent`, `classList` and `style` writes, and `alert`. The handlers return which rejection, distance label or rotation the page would show.
- The `getElementById` lookups (web/app.js:10-24) and the console logging (web/app.js:196-198) are not modelled.
- `parseFloat` itself: `StartTracking` and `Click` take its results as `Num` values.
- The digit rendering by `toFixed` (web/app.js:136-137, 172, 180, 189, 191): only the unit and the scaled value are modelled.
- Platform detection and the iOS permission flow (web/app.js:26-48): an external asynchronous API.
- Listener registration by `watchPosition` and `startCompass` (web/app.js:81-94, 106-113): this is event wiring. Every start registers further watchers; the model only assumes that fixes and readings may arrive at any time.
- `handleGeoError` (web/app.js:143-146): it only logs and sets a status message.
- The unavailable-sensor status messages (web/app.js:88, 111): messages only.
- Floating point: finite numbers are exact reals, so rounding, overflow of huge finite inputs to Infinity, and signed zeros are not modelled.
- `Math.sin`, `Math.cos`, `Math.atan2` and `Math.sqrt` are parameters, constrained only by `MathValid`.
- For a NaN or infinite target, `TargetBearing` and `TargetDistance` give NaN directly. They do not compute it through the formulas; `Math.sin`/`Math.cos` of NaN or ±Infinity is NaN, and NaN propagates through every later step.
- Geodesic facts that depend on real trigonometry or float numerics are not stated: distance symmetry, the antipodal bearing, and worked examples such as (0,0)→(0,1).
- Haversine: the contract states the range [0, 6371000·π] and the exact zero for one point, not the value of the formula.
- A `webkitCompassHeading` that is present but `null` is not modelled: the event has either a number or nothing there.
