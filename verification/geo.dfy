/** The arithmetic the tracker runs on each position fix and each compass
    reading: the initial great-circle bearing, the haversine distance, the
    arrow rotation and the choice of distance unit (web/app.js:148-193).

    `Math.sin`, `Math.cos`, `Math.atan2` and `Math.sqrt` are not defined
    here: they arrive as a `MathLib` value, and `MathValid` lists the only
    facts about them the model relies on. */
module Geo {
  import opened JsValues

  /** `Math.PI` */
  const PI: real := 3.141592653589793

  /** The Earth radius of the haversine formula, in metres. */
  const EARTH_RADIUS: real := 6371000.0

  /** A position fix: the coordinates of a `GeolocationPosition`. */
  datatype Position = Position(latitude: real, longitude: real)

  /** The browser's trigonometry, supplied from outside the model. */
  datatype MathLib = MathLib(
    sin: real -> real,
    cos: real -> real,
    atan2: (real, real) -> real,
    sqrt: real -> real)

  /** The facts about `Math` the model uses. Each holds of JavaScript's
      implementations, whose `atan2` stays within [-Math.PI, Math.PI]. */
  ghost predicate MathValid(m: MathLib) {
    && (forall y, x :: -PI <= m.atan2(y, x) <= PI)
    && (forall y, x :: 0.0 <= y && 0.0 <= x ==> 0.0 <= m.atan2(y, x) <= PI / 2.0)
    && (forall x :: 0.0 < x ==> m.atan2(0.0, x) == 0.0)
    && m.atan2(0.0, 0.0) == 0.0
    && (forall x :: 0.0 <= x ==> 0.0 <= m.sqrt(x))
    && m.sqrt(0.0) == 0.0
    && m.sqrt(1.0) == 1.0
    && m.sin(0.0) == 0.0
    && m.cos(0.0) == 1.0
  }

  /** Some `MathLib` meets `MathValid`, so no contract below is vacuous. */
  lemma MathValidSatisfiable()
    ensures exists m :: MathValid(m)
  {
    var m := MathLib(x => 0.0, x => 1.0, (y, x) => 0.0, x => x);
    assert MathValid(m);
  }

  /** `deg * Math.PI / 180` */
  function Radians(deg: real): real {
    deg * PI / 180.0
  }

  /** The initial great-circle bearing from (lat1, lon1) to (lat2, lon2), in
      degrees, as `Math.atan2(y, x) * 180 / Math.PI` yields it
      (web/app.js:151-160). */
  function InitialBearing(m: MathLib, lat1: real, lon1: real, lat2: real, lon2: real): (deg: real)
    requires MathValid(m)
    ensures -180.0 <= deg <= 180.0
  {
    var phi1 := Radians(lat1);
    var phi2 := Radians(lat2);
    var dLambda := Radians(lon2) - Radians(lon1);
    var y := m.sin(dLambda) * m.cos(phi2);
    var x := m.cos(phi1) * m.sin(phi2) - m.sin(phi1) * m.cos(phi2) * m.cos(dLambda);
    m.atan2(y, x) * 180.0 / PI
  }

  /** `(bearing + 360) % 360` (web/app.js:161): for every bearing that
      `Math.atan2` can give, the one angle in [0, 360) congruent to it,
      which is the bearing itself when it is not negative. */
  function NormalizeBearing(deg: real): (r: real)
    ensures -360.0 <= deg ==> 0.0 <= r < 360.0
    ensures CongruentMod360(deg, r)
    ensures 0.0 <= deg < 360.0 ==> r == deg
  {
    var r := Remainder360(deg + 360.0);
    CongruentLessOneTurn(deg + 360.0, r);
    r
  }

  /** A stored bearing is NaN or an angle in [0, 360). */
  predicate BearingInRange(b: Num) {
    b.NaN? || (b.Finite? && 0.0 <= b.value < 360.0)
  }

  /** The value `calculateBearingAndDistance` stores in `targetBearing` for a
      fix `pos` and the stored target (web/app.js:151-161). The target is
      whatever `parseFloat` gave; a NaN or infinite coordinate makes
      `Math.sin`/`Math.cos` return NaN, which every later step propagates. */
  function TargetBearing(m: MathLib, pos: Position, lat: Num, lon: Num): (b: Num)
    requires MathValid(m)
    ensures BearingInRange(b)
    ensures b.Finite? <==> lat.Finite? && lon.Finite?
  {
    if lat.Finite? && lon.Finite? then
      Finite(NormalizeBearing(InitialBearing(m, pos.latitude, pos.longitude, lat.value, lon.value)))
    else
      NaN
  }

  /** The haversine distance in metres (web/app.js:164-169). A negative
      argument of `Math.sqrt` gives NaN, which `Math.atan2` and the product
      propagate. */
  function Haversine(m: MathLib, lat1: real, lon1: real, lat2: real, lon2: real): (d: Num)
    requires MathValid(m)
    ensures d.NaN? || (d.Finite? && 0.0 <= d.value <= EARTH_RADIUS * PI)
  {
    var phi1 := Radians(lat1);
    var phi2 := Radians(lat2);
    var dPhi := phi2 - phi1;
    var dLambda := Radians(lon2) - Radians(lon1);
    var a := m.sin(dPhi / 2.0) * m.sin(dPhi / 2.0)
      + m.cos(phi1) * m.cos(phi2) * m.sin(dLambda / 2.0) * m.sin(dLambda / 2.0);
    if a < 0.0 || 1.0 - a < 0.0 then
      NaN
    else
      var c := 2.0 * m.atan2(m.sqrt(a), m.sqrt(1.0 - a));
      assert 0.0 <= c <= PI;
      Finite(EARTH_RADIUS * c)
  }

  /** The distance `calculateBearingAndDistance` displays for a fix `pos` and
      the stored target (web/app.js:151-169). */
  function TargetDistance(m: MathLib, pos: Position, lat: Num, lon: Num): (d: Num)
    requires MathValid(m)
    ensures d.NaN? || (d.Finite? && 0.0 <= d.value <= EARTH_RADIUS * PI)
    ensures !(lat.Finite? && lon.Finite?) ==> d.NaN?
  {
    if lat.Finite? && lon.Finite? then
      Haversine(m, pos.latitude, pos.longitude, lat.value, lon.value)
    else
      NaN
  }

  /** From a point to itself the distance is exactly zero and the bearing
      is 0 by convention. */
  lemma SamePoint(m: MathLib, lat: real, lon: real)
    requires MathValid(m)
    ensures Haversine(m, lat, lon, lat, lon) == Finite(0.0)
    ensures NormalizeBearing(InitialBearing(m, lat, lon, lat, lon)) == 0.0
  {
  }

  /** `targetBearing - compassHeading` (web/app.js:183), left unnormalised. */
  function Rotation(bearing: Num, heading: real): (r: Num)
    ensures r.NaN? <==> bearing.NaN?
    ensures bearing.Finite? ==> r.Finite? && heading + r.value == bearing.value
  {
    Sub(bearing, Finite(heading))
  }

  /** Turning the arrow by `Rotation` from a heading in [0, 360] toward a
      bearing in [0, 360) is less than a full turn either way. */
  lemma RotationWithinOneTurn(bearing: Num, heading: real)
    requires BearingInRange(bearing) && bearing.Finite?
    requires 0.0 <= heading <= 360.0
    ensures -360.0 <= Rotation(bearing, heading).value < 360.0
  {
  }

  /** A displayed distance: `N m` or `N km` (the digits are not modelled). */
  datatype DistanceLabel = Metres(m: Num) | Kilometres(km: Num)

  /** The distance in metres that a label stands for. */
  function LabelMetres(l: DistanceLabel): Num {
    match l
    case Metres(v) => v
    case Kilometres(v) => if v.Finite? then Finite(v.value * 1000.0) else v
  }

  /** `formatDistance` (web/app.js:187-193): metres strictly below 1000,
      kilometres from 1000 on; NaN fails `meters < 1000` and shows in km. */
  function FormatDistance(meters: Num): (l: DistanceLabel)
    ensures meters.Finite? ==> (l.Metres? <==> meters.value < 1000.0)
    ensures meters.NaN? ==> l == Kilometres(NaN)
    ensures LabelMetres(l) == meters
  {
    if Less(meters, Finite(1000.0)) then Metres(meters) else Kilometres(DivPositive(meters, 1000.0))
  }
}
