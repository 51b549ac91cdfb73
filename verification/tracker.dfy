/** The tracking session of web/app.js: the six module-level variables
    (web/app.js:2-7) as the fields of one `Session` object, and the event
    handlers that overwrite them behind their early-return guards.

    DOM writes, alerts and listener registration are not modelled; where a
    handler decides what the page shows, the method returns that choice. */
module Tracker {
  import opened JsValues
  import opened Geo

  /** Why `startTracking` refused the entered target: the first alert
      (web/app.js:62-65) or the second (web/app.js:67-70). */
  datatype Rejection = NotANumber | OutOfRange

  /** A target inside the ranges `startTracking` accepts. */
  predicate ValidTarget(lat: Num, lon: Num) {
    && lat.Finite? && -90.0 <= lat.value <= 90.0
    && lon.Finite? && -180.0 <= lon.value <= 180.0
  }

  /** The two guards of `startTracking` (web/app.js:62-70), written with
      JavaScript's `isNaN` and `<`/`>`: the target is accepted exactly when
      both coordinates are finite and within their inclusive ranges. */
  function CheckTarget(lat: Num, lon: Num): (r: Option<Rejection>)
    ensures r.None? <==> ValidTarget(lat, lon)
    ensures r == Some(NotANumber) <==> lat.NaN? || lon.NaN?
  {
    if IsNaN(lat) || IsNaN(lon) then
      Some(NotANumber)
    else if Less(lat, Finite(-90.0)) || Less(Finite(90.0), lat)
         || Less(lon, Finite(-180.0)) || Less(Finite(180.0), lon) then
      Some(OutOfRange)
    else
      None
  }

  /** A device-orientation event: `webkitCompassHeading` (None when
      undefined) and `alpha` (None when null). */
  datatype OrientationEvent = OrientationEvent(webkitCompassHeading: Option<real>, alpha: Option<real>)

  /** Both readings, when present, lie in [0, 360), the range the sensors
      report them in. */
  predicate ReadingsInRange(e: OrientationEvent) {
    && (e.webkitCompassHeading.Some? ==> 0.0 <= e.webkitCompassHeading.value < 360.0)
    && (e.alpha.Some? ==> 0.0 <= e.alpha.value < 360.0)
  }

  class Session {
    /** The page's `Math`. */
    const math: MathLib

    var tracking: bool
    var currentPosition: Option<Position>
    var targetLat: Option<Num>
    var targetLon: Option<Num>
    var compassHeading: Option<real>
    var targetBearing: Num

    /** What holds in every state: the stored bearing is NaN or in [0, 360). */
    ghost predicate Valid()
      reads this
    {
      MathValid(math) && BearingInRange(targetBearing)
    }

    /** While tracking, the stored target passed validation. */
    ghost predicate TrackingHasTarget()
      reads this
    {
      tracking ==> targetLat.Some? && targetLon.Some? && ValidTarget(targetLat.value, targetLon.value)
    }

    /** The initial values of web/app.js:2-7. */
    constructor(m: MathLib)
      requires MathValid(m)
      ensures Valid() && TrackingHasTarget()
      ensures math == m
      ensures !tracking && currentPosition.None? && targetLat.None? && targetLon.None?
      ensures compassHeading.None? && targetBearing == Finite(0.0)
    {
      math := m;
      tracking := false;
      currentPosition := None;
      targetLat := None;
      targetLon := None;
      compassHeading := None;
      targetBearing := Finite(0.0);
    }

    /** `startTracking` (web/app.js:58-72) on the `parseFloat` results of
        the two inputs. The target is stored before it is checked, so a
        rejected start still overwrites it; nothing else changes then. */
    method StartTracking(lat: Num, lon: Num) returns (rejection: Option<Rejection>)
      requires Valid()
      modifies this
      ensures Valid()
      ensures rejection == CheckTarget(lat, lon)
      ensures targetLat == Some(lat) && targetLon == Some(lon)
      ensures tracking == (old(tracking) || ValidTarget(lat, lon))
      ensures currentPosition == old(currentPosition)
      ensures compassHeading == old(compassHeading)
      ensures targetBearing == old(targetBearing)
    {
      targetLat := Some(lat);
      targetLon := Some(lon);
      rejection := CheckTarget(lat, lon);
      if rejection.Some? {
        return;
      }
      tracking := true;
    }

    /** `stopTracking` (web/app.js:97-104): only the flag changes. */
    method StopTracking()
      requires Valid()
      modifies this
      ensures Valid()
      ensures !tracking
      ensures currentPosition == old(currentPosition)
      ensures targetLat == old(targetLat) && targetLon == old(targetLon)
      ensures compassHeading == old(compassHeading)
      ensures targetBearing == old(targetBearing)
    {
      tracking := false;
    }

    /** The control button's click handler (web/app.js:50-56), given the
        `parseFloat` results of the two inputs at the time of the click. */
    method Click(lat: Num, lon: Num) returns (rejection: Option<Rejection>)
      requires Valid()
      modifies this
      ensures Valid() && TrackingHasTarget()
      ensures old(tracking) ==> !tracking && rejection.None?
      ensures old(tracking) ==> targetLat == old(targetLat) && targetLon == old(targetLon)
      ensures !old(tracking) ==> rejection == CheckTarget(lat, lon)
      ensures !old(tracking) ==> tracking == ValidTarget(lat, lon)
      ensures !old(tracking) ==> targetLat == Some(lat) && targetLon == Some(lon)
      ensures currentPosition == old(currentPosition)
      ensures compassHeading == old(compassHeading)
      ensures targetBearing == old(targetBearing)
    {
      if !tracking {
        rejection := StartTracking(lat, lon);
      } else {
        StopTracking();
        rejection := None;
      }
    }

    /** `updateCompass` (web/app.js:177-185): the rotation given to the
        arrow, or None when the guard returns early. It changes no field. */
    method UpdateCompass() returns (rotation: Option<Num>)
      ensures rotation.Some? <==> compassHeading.Some? && tracking
      ensures rotation.Some? ==> rotation.value == Rotation(targetBearing, compassHeading.value)
    {
      if compassHeading.None? || !tracking {
        return None;
      }
      rotation := Some(Rotation(targetBearing, compassHeading.value));
    }

    /** `handleOrientation` (web/app.js:115-132): ignored unless tracking;
        otherwise `webkitCompassHeading` wins over `360 - alpha`, and an
        event with neither leaves the heading as it was. */
    method HandleOrientation(e: OrientationEvent) returns (rotation: Option<Num>)
      requires Valid()
      modifies this
      ensures Valid()
      ensures !old(tracking) ==> compassHeading == old(compassHeading) && rotation.None?
      ensures old(tracking) && e.webkitCompassHeading.Some? ==>
        compassHeading == e.webkitCompassHeading
      ensures old(tracking) && e.webkitCompassHeading.None? && e.alpha.Some? ==>
        compassHeading == Some(360.0 - e.alpha.value)
      ensures e.webkitCompassHeading.None? && e.alpha.None? ==>
        compassHeading == old(compassHeading) && rotation.None?
      ensures old(tracking) && ReadingsInRange(e) && (e.webkitCompassHeading.Some? || e.alpha.Some?) ==>
        compassHeading.Some? && 0.0 <= compassHeading.value <= 360.0
      ensures rotation.Some? <==> old(tracking) && (e.webkitCompassHeading.Some? || e.alpha.Some?)
      ensures rotation.Some? ==> rotation.value == Rotation(targetBearing, compassHeading.value)
      ensures tracking == old(tracking) && currentPosition == old(currentPosition)
      ensures targetLat == old(targetLat) && targetLon == old(targetLon)
      ensures targetBearing == old(targetBearing)
    {
      if !tracking {
        return None;
      }
      var heading: Option<real> := None;
      if e.webkitCompassHeading.Some? {
        heading := e.webkitCompassHeading;
      } else if e.alpha.Some? {
        heading := Some(360.0 - e.alpha.value);
      }
      rotation := None;
      if heading.Some? {
        compassHeading := heading;
        rotation := UpdateCompass();
      }
    }

    /** `calculateBearingAndDistance` (web/app.js:148-175): recomputes the
        bearing only when a fix exists and neither target coordinate is
        `null`; a NaN target left by a rejected start passes that guard.
        Returns the distance shown, or None when the guard returns early. */
    method CalculateBearingAndDistance() returns (distance: Option<DistanceLabel>)
      requires Valid()
      modifies this
      ensures Valid()
      ensures tracking == old(tracking) && currentPosition == old(currentPosition)
      ensures targetLat == old(targetLat) && targetLon == old(targetLon)
      ensures compassHeading == old(compassHeading)
      ensures distance.Some? <==> currentPosition.Some? && targetLat.Some? && targetLon.Some?
      ensures distance.Some? ==>
        targetBearing == TargetBearing(math, currentPosition.value, targetLat.value, targetLon.value)
        && distance.value == FormatDistance(TargetDistance(math, currentPosition.value, targetLat.value, targetLon.value))
      ensures distance.None? ==> targetBearing == old(targetBearing)
      ensures TrackingHasTarget() && tracking && currentPosition.Some? ==> targetBearing.Finite?
    {
      if currentPosition.None? || targetLat.None? || targetLon.None? {
        return None;
      }
      var pos, lat, lon := currentPosition.value, targetLat.value, targetLon.value;
      targetBearing := TargetBearing(math, pos, lat, lon);
      distance := Some(FormatDistance(TargetDistance(math, pos, lat, lon)));
    }

    /** `updatePosition` (web/app.js:134-141): stores every fix, tracking or
        not, then recomputes the bearing and refreshes the arrow. */
    method UpdatePosition(pos: Position) returns (distance: Option<DistanceLabel>, rotation: Option<Num>)
      requires Valid()
      modifies this
      ensures Valid()
      ensures currentPosition == Some(pos)
      ensures distance.Some? <==> targetLat.Some? && targetLon.Some?
      ensures distance.Some? ==> targetBearing == TargetBearing(math, pos, targetLat.value, targetLon.value)
      ensures distance.Some? ==>
        distance.value == FormatDistance(TargetDistance(math, pos, targetLat.value, targetLon.value))
      ensures distance.None? ==> targetBearing == old(targetBearing)
      ensures TrackingHasTarget() && tracking ==> targetBearing.Finite?
      ensures rotation.Some? <==> compassHeading.Some? && tracking
      ensures rotation.Some? ==> rotation.value == Rotation(targetBearing, compassHeading.value)
      ensures tracking == old(tracking) && compassHeading == old(compassHeading)
      ensures targetLat == old(targetLat) && targetLon == old(targetLon)
    {
      currentPosition := Some(pos);
      distance := CalculateBearingAndDistance();
      rotation := UpdateCompass();
    }
  }

  /** A session started on a valid target and stopped, whose next start is
      rejected because the latitude is not a number: a position fix still
      arrives (updatePosition has no tracking guard and the watcher of the
      first start is never cleared), so the bearing becomes NaN, and after
      a valid restart the first compass reading turns the arrow by NaN. */
  method RejectedRestartLeavesNaNBearing(
    m: MathLib, lat: real, lon: real, badLon: Num, fix: Position, heading: real)
    returns (bearing: Num, rotation: Option<Num>)
    requires MathValid(m)
    requires ValidTarget(Finite(lat), Finite(lon))
    ensures bearing == NaN
    ensures rotation == Some(NaN)
  {
    var s := new Session(m);
    var started := s.Click(Finite(lat), Finite(lon));
    assert s.tracking;
    var stopped := s.Click(Finite(lat), Finite(lon));
    var rejected := s.Click(NaN, badLon);
    assert rejected == Some(NotANumber) && !s.tracking;
    var shown, turned := s.UpdatePosition(fix);
    bearing := s.targetBearing;
    var restarted := s.Click(Finite(lat), Finite(lon));
    rotation := s.HandleOrientation(OrientationEvent(Some(heading), None));
  }

  /** A valid start followed by a second click leaves the session stopped
      with the target and bearing of the first start kept. */
  method StartThenClickStops(m: MathLib, lat: Num, lon: Num, next: Num)
    returns (trackingAfter: bool, keptLat: Option<Num>)
    requires MathValid(m)
    requires ValidTarget(lat, lon)
    ensures !trackingAfter
    ensures keptLat == Some(lat)
  {
    var s := new Session(m);
    var started := s.Click(lat, lon);
    var stopped := s.Click(next, next);
    trackingAfter := s.tracking;
    keptLat := s.targetLat;
  }
}
