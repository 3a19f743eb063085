/** The GPS distance-tracking session of the scorecard front end: a manager
    that follows the device position, publishes the distance walked from a
    start point, keeps per-shot distances and notifies subscribers. The
    browser's geolocation service is outside the model: its answers are
    parameters of the methods, and great-circle distance is a function the
    manager is built with. */
module Gps {
  import opened Wrappers
  import opened Text

  // ---------------------------------------------------------------------
  // Values
  // ---------------------------------------------------------------------

  /** A distance in metres. */
  type Meters = r: real | 0.0 <= r

  /** A stored location. `accuracy` is present only on locations taken
      straight from a position update; copies leave it out. */
  datatype Location = Location(latitude: real, longitude: real, timestamp: int, accuracy: Option<real>)

  /** What the device reports. */
  datatype Position = Position(latitude: real, longitude: real, accuracy: real, timestamp: int)

  /** A geolocation error carries one of the codes below; any other thrown
      error has neither a code nor the code constants. */
  datatype PositionError = PositionError(code: int) | OtherError

  const PERMISSION_DENIED := 1
  const POSITION_UNAVAILABLE := 2
  const TIMEOUT := 3

  /** The tracking entry of one shot. */
  datatype ShotTracking = ShotTracking(startLocation: Location, currentDistance: int)

  /** A value handed to `onDistanceUpdate`: a function (named by its identity) or anything else. */
  datatype Callback = Function(id: nat) | NotAFunction

  /** One call `callback(distance)`. */
  datatype Notification = Notification(callback: nat, distance: int)

  datatype AccuracyStatus = AccuracyStatus(status: string, color: string)

  /** The manager's whole observable state, for stating what a method changes. */
  datatype GpsState = GpsState(
    watchId: Option<int>,
    startLocation: Option<Location>,
    currentLocation: Option<Location>,
    isTracking: bool,
    distanceUpdateCallbacks: seq<nat>,
    activeTrackings: map<string, ShotTracking>,
    gpsLocation: Option<Location>,
    gpsError: Option<string>,
    gpsDistance: int,
    gpsTracking: bool,
    clearedWatches: seq<int>,
    notifications: seq<Notification>)

  // ---------------------------------------------------------------------
  // Pure helpers
  // ---------------------------------------------------------------------

  /** `Math.round`: the nearest integer, halves rounded up. */
  function RoundHalfUp(x: real): (r: int)
    ensures x - 0.5 < r as real <= x + 0.5
    ensures x >= 0.0 ==> r >= 0
  {
    (x + 0.5).Floor
  }

  /** A copy of a location's coordinates and time, without its accuracy. */
  function Copy(l: Location): (c: Location)
    ensures c.latitude == l.latitude && c.longitude == l.longitude && c.timestamp == l.timestamp
    ensures c.accuracy.None?
  {
    Location(l.latitude, l.longitude, l.timestamp, None)
  }

  /** The location a position update stores. */
  function FromPosition(p: Position): (l: Location)
    ensures l.latitude == p.latitude && l.longitude == p.longitude && l.timestamp == p.timestamp
    ensures l.accuracy == Some(p.accuracy)
  {
    Location(p.latitude, p.longitude, p.timestamp, Some(p.accuracy))
  }

  /** The message the error handler publishes. `switch` compares with `===`:
      an error without a code matches the first case, whose constant it lacks too. */
  function ErrorMessage(e: PositionError): (m: string)
    ensures e == PositionError(PERMISSION_DENIED) ==> m == "Location access denied by user"
    ensures e == PositionError(POSITION_UNAVAILABLE) ==> m == "Location information unavailable"
    ensures e == PositionError(TIMEOUT) ==> m == "Location request timed out"
    ensures e.PositionError? && e.code !in {PERMISSION_DENIED, POSITION_UNAVAILABLE, TIMEOUT} ==> m == "Unknown GPS error"
    ensures e.OtherError? ==> m == "Location access denied by user"
  {
    match e
    case OtherError => "Location access denied by user"
    case PositionError(code) =>
      if code == PERMISSION_DENIED then "Location access denied by user"
      else if code == POSITION_UNAVAILABLE then "Location information unavailable"
      else if code == TIMEOUT then "Location request timed out"
      else "Unknown GPS error"
  }

  /** The accuracy classification of a location (none, or an accuracy of 0, is unknown). */
  function AccuracyStatusOf(l: Option<Location>): AccuracyStatus {
    if l.None? || l.value.accuracy.None? || l.value.accuracy.value == 0.0 then AccuracyStatus("unknown", "gray")
    else
      var a := l.value.accuracy.value;
      if a <= 5.0 then AccuracyStatus("excellent", "green")
      else if a <= 10.0 then AccuracyStatus("good", "blue")
      else if a <= 20.0 then AccuracyStatus("fair", "orange")
      else AccuracyStatus("poor", "red")
  }

  /** How good a known status is: excellent 3, good 2, fair 1, poor 0. */
  function Rank(s: AccuracyStatus): int {
    if s.status == "excellent" then 3 else if s.status == "good" then 2 else if s.status == "fair" then 1 else 0
  }

  /** The classification by thresholds 5, 10 and 20 metres, both ways. */
  lemma AccuracyThresholds(l: Location, a: real)
    requires l.accuracy == Some(a) && a != 0.0
    ensures AccuracyStatusOf(Some(l)).status == "excellent" <==> a <= 5.0
    ensures AccuracyStatusOf(Some(l)).status == "good" <==> 5.0 < a <= 10.0
    ensures AccuracyStatusOf(Some(l)).status == "fair" <==> 10.0 < a <= 20.0
    ensures AccuracyStatusOf(Some(l)).status == "poor" <==> 20.0 < a
  {
  }

  /** A location without accuracy, or with accuracy 0, is of unknown accuracy. */
  lemma AccuracyUnknown(l: Option<Location>)
    ensures AccuracyStatusOf(l).status == "unknown" <==> (l.None? || l.value.accuracy.None? || l.value.accuracy.value == 0.0)
  {
  }

  /** A smaller (non-zero) error radius never gives a worse status. */
  lemma AccuracyMonotone(l: Location, m: Location)
    requires l.accuracy.Some? && m.accuracy.Some? && l.accuracy.value != 0.0 && m.accuracy.value != 0.0
    requires l.accuracy.value <= m.accuracy.value
    ensures Rank(AccuracyStatusOf(Some(l))) >= Rank(AccuracyStatusOf(Some(m)))
  {
  }

  /** The CSS colour class of a distance: under 50, under 100, under 200, beyond. */
  function DistanceColor(distance: real): string {
    if distance < 50.0 then "text-green-600"
    else if distance < 100.0 then "text-blue-600"
    else if distance < 200.0 then "text-orange-600"
    else "text-red-600"
  }

  lemma DistanceColorCuts(distance: real)
    ensures DistanceColor(distance) == "text-green-600" <==> distance < 50.0
    ensures DistanceColor(distance) == "text-blue-600" <==> 50.0 <= distance < 100.0
    ensures DistanceColor(distance) == "text-orange-600" <==> 100.0 <= distance < 200.0
    ensures DistanceColor(distance) == "text-red-600" <==> 200.0 <= distance
  {
  }

  /** A distance in whole metres as shown: `<n>m` below 1000. The kilometre
      form (one decimal of a float division) is not modelled: `None`. */
  function FormatDistance(distance: int): (s: Option<string>)
    ensures distance < 1000 <==> s.Some?
    ensures s.Some? ==> s.value == IntToDecimal(distance) + "m"
  {
    if distance >= 1000 then None else Some(IntToDecimal(distance) + "m")
  }

  /** Metres below 1000 are shown as their decimal digits and an `m`, read back exactly. */
  lemma FormatDistanceRoundTrip(distance: nat)
    requires distance < 1000
    ensures var s := FormatDistance(distance).value;
      |s| >= 2 && s[|s| - 1] == 'm' && AllDigits(s[..|s| - 1]) && DecimalValue(s[..|s| - 1]) == distance
  {
    var s := FormatDistance(distance).value;
    assert s[..|s| - 1] == NatToDecimal(distance);
    DecimalRoundTrip(distance);
  }

  // ---------------------------------------------------------------------
  // The callback list
  // ---------------------------------------------------------------------

  /** `Array.prototype.indexOf`: the first position of `x`, or -1. */
  function IndexOf(xs: seq<nat>, x: nat): (i: int)
    ensures -1 <= i < |xs|
    ensures i == -1 <==> x !in xs
    ensures i >= 0 ==> xs[i] == x && x !in xs[..i]
  {
    if xs == [] then -1
    else if xs[0] == x then 0
    else
      var j := IndexOf(xs[1..], x);
      assert xs[1..][..(if j >= 0 then j else 0)] == xs[1..(if j >= 0 then j + 1 else 1)];
      if j == -1 then -1 else j + 1
  }

  /** The list after `unsubscribe()`: the first occurrence of `x` spliced out. */
  function RemoveFirst(xs: seq<nat>, x: nat): seq<nat> {
    var i := IndexOf(xs, x);
    if i > -1 then xs[..i] + xs[i + 1..] else xs
  }

  /** Unsubscribing removes exactly one occurrence, keeps the other callbacks
      in their order, and changes nothing for a callback not subscribed. */
  lemma RemoveFirstSpec(xs: seq<nat>, x: nat)
    ensures x in xs ==> multiset(RemoveFirst(xs, x)) == multiset(xs) - multiset{x}
    ensures x in xs ==> exists i :: 0 <= i < |xs| && RemoveFirst(xs, x) == xs[..i] + xs[i + 1..] && x !in xs[..i]
    ensures x !in xs ==> RemoveFirst(xs, x) == xs
  {
    if x in xs {
      var i := IndexOf(xs, x);
      assert xs == xs[..i] + [xs[i]] + xs[i + 1..];
    }
  }

  /** Calling the same unsubscribe twice: once the only occurrence is gone,
      the second call changes nothing. */
  lemma UnsubscribeTwice(xs: seq<nat>, x: nat)
    requires multiset(xs)[x] <= 1
    ensures RemoveFirst(RemoveFirst(xs, x), x) == RemoveFirst(xs, x)
  {
    RemoveFirstSpec(xs, x);
    var r := RemoveFirst(xs, x);
    var m: multiset<nat> := multiset(r);
    assert m[x] == 0;
    assert x !in r;
    RemoveFirstSpec(r, x);
  }

  /** Subscribing a new callback and then unsubscribing it restores the list. */
  lemma SubscribeUnsubscribe(xs: seq<nat>, x: nat)
    requires x !in xs
    ensures RemoveFirst(xs + [x], x) == xs
  {
    var i := IndexOf(xs + [x], x);
    assert (xs + [x])[..|xs|] == xs;
  }

  /** The calls of one forEach over the callbacks, all with the same distance, in order. */
  function Broadcast(callbacks: seq<nat>, distance: int): (ns: seq<Notification>)
    ensures |ns| == |callbacks|
    ensures forall i :: 0 <= i < |ns| ==> ns[i] == Notification(callbacks[i], distance)
  {
    if callbacks == [] then []
    else Broadcast(callbacks[..|callbacks| - 1], distance) + [Notification(callbacks[|callbacks| - 1], distance)]
  }

  // ---------------------------------------------------------------------
  // The manager
  // ---------------------------------------------------------------------

  class GpsManager {
    /** The great-circle distance in metres between two (latitude, longitude) points. */
    const distance: (real, real, real, real) -> Meters

    var watchId: Option<int>
    var startLocation: Option<Location>
    var currentLocation: Option<Location>
    var isTracking: bool
    var distanceUpdateCallbacks: seq<nat>
    var activeTrackings: map<string, ShotTracking>

    // The published stores.
    var gpsLocation: Option<Location>
    var gpsError: Option<string>
    var gpsDistance: int
    var gpsTracking: bool

    // What the manager asked of the outside world: watches cleared, callbacks called.
    var clearedWatches: seq<int>
    var notifications: seq<Notification>

    /** The session invariant every method keeps: tracking needs a start, a
        start needs a current location, the stores mirror the fields, start
        points are bare copies, distances are non-negative. */
    ghost predicate Valid()
      reads this
    {
      && (isTracking ==> startLocation.Some?)
      && (startLocation.Some? ==> currentLocation.Some? && startLocation.value.accuracy.None?)
      && gpsLocation == currentLocation
      && gpsTracking == isTracking
      && gpsDistance >= 0
      && (forall k :: k in activeTrackings ==>
            activeTrackings[k].currentDistance >= 0 && activeTrackings[k].startLocation.accuracy.None?)
    }

    ghost function State(): GpsState
      reads this
    {
      GpsState(watchId, startLocation, currentLocation, isTracking, distanceUpdateCallbacks, activeTrackings,
               gpsLocation, gpsError, gpsDistance, gpsTracking, clearedWatches, notifications)
    }

    function Between(from: Location, to: Location): Meters {
      distance(from.latitude, from.longitude, to.latitude, to.longitude)
    }

    /** A shot's entry after the position moved to `here`. */
    function Retrack(t: ShotTracking, here: Location): (u: ShotTracking)
      ensures u.startLocation == t.startLocation && u.currentDistance >= 0
    {
      t.(currentDistance := RoundHalfUp(Between(t.startLocation, here)))
    }

    function Retracked(m: map<string, ShotTracking>, here: Location): (r: map<string, ShotTracking>)
      ensures r.Keys == m.Keys
      ensures forall k :: k in m ==> r[k] == Retrack(m[k], here)
    {
      map k | k in m :: Retrack(m[k], here)
    }

    constructor(distance: (real, real, real, real) -> Meters)
      ensures Valid()
      ensures this.distance == distance
      ensures State() == GpsState(None, None, None, false, [], map[], None, None, 0, false, [], [])
    {
      this.distance := distance;
      watchId := None;
      startLocation := None;
      currentLocation := None;
      isTracking := false;
      distanceUpdateCallbacks := [];
      activeTrackings := map[];
      gpsLocation := None;
      gpsError := None;
      gpsDistance := 0;
      gpsTracking := false;
      clearedWatches := [];
      notifications := [];
    }

    /** `startTracking()`. Without geolocation support, or when the first
        position cannot be had, only the error store changes. Otherwise the
        first position becomes both start and current location, the stores
        are reset, the new watch is recorded and tracking is on. */
    method StartTracking(geolocationAvailable: bool, initial: Result<Position, PositionError>, newWatchId: int)
      returns (started: bool)
      requires Valid()
      modifies this
      ensures Valid()
      ensures started <==> geolocationAvailable && initial.Success?
      ensures !geolocationAvailable ==>
        State() == old(State()).(gpsError := Some("Geolocation is not supported by this browser"))
      ensures geolocationAvailable && initial.Failure? ==>
        State() == old(State()).(gpsError := Some(ErrorMessage(initial.error)))
      ensures started ==>
        var here := Copy(FromPosition(initial.value));
        State() == old(State()).(
          watchId := Some(newWatchId), startLocation := Some(here), currentLocation := Some(here),
          isTracking := true, gpsLocation := Some(here), gpsError := None, gpsDistance := 0, gpsTracking := true)
    {
      if !geolocationAvailable {
        gpsError := Some("Geolocation is not supported by this browser");
        return false;
      }
      if initial.Failure? {
        HandlePositionError(initial.error);
        return false;
      }
      Begin(Copy(FromPosition(initial.value)), newWatchId);
      return true;
    }

    /** The success path of `startTracking`: the first fix becomes the start
        and the current location, the stores are reset and the watch is recorded. */
    method Begin(here: Location, newWatchId: int)
      requires Valid() && here.accuracy.None?
      modifies this
      ensures Valid()
      ensures State() == old(State()).(
          watchId := Some(newWatchId), startLocation := Some(here), currentLocation := Some(here),
          isTracking := true, gpsLocation := Some(here), gpsError := None, gpsDistance := 0, gpsTracking := true)
    {
      startLocation, currentLocation := Some(here), Some(here);
      gpsLocation, gpsError, gpsDistance, gpsTracking := Some(here), None, 0, true;
      watchId, isTracking := Some(newWatchId), true;
    }

    /** `stopTracking()`: the watch is cleared only when its id is truthy
        (present and not 0); everything else returns to the initial state. */
    method StopTracking()
      requires Valid()
      modifies this
      ensures Valid()
      ensures old(watchId).Some? && old(watchId).value != 0 ==>
        clearedWatches == old(clearedWatches) + [old(watchId).value] && watchId.None?
      ensures !(old(watchId).Some? && old(watchId).value != 0) ==>
        clearedWatches == old(clearedWatches) && watchId == old(watchId)
      ensures !isTracking && startLocation.None? && currentLocation.None?
      ensures distanceUpdateCallbacks == [] && activeTrackings == map[]
      ensures !gpsTracking && gpsLocation.None? && gpsDistance == 0
      ensures gpsError == old(gpsError) && notifications == old(notifications)
    {
      if watchId.Some? && watchId.value != 0 {
        ClearWatch();
      }
      Reset();
    }

    /** `clearWatch(watchId)`, after which the id is forgotten. */
    method ClearWatch()
      requires Valid() && watchId.Some?
      modifies this
      ensures Valid()
      ensures State() == old(State()).(watchId := None, clearedWatches := old(clearedWatches) + [old(watchId).value])
    {
      clearedWatches, watchId := clearedWatches + [watchId.value], None;
    }

    /** The rest of `stopTracking`: no locations, subscribers or shot entries, stores reset. */
    method Reset()
      modifies this
      ensures Valid()
      ensures !isTracking && startLocation.None? && currentLocation.None?
      ensures distanceUpdateCallbacks == [] && activeTrackings == map[]
      ensures !gpsTracking && gpsLocation.None? && gpsDistance == 0
      ensures watchId == old(watchId) && gpsError == old(gpsError)
      ensures clearedWatches == old(clearedWatches) && notifications == old(notifications)
    {
      isTracking, startLocation, currentLocation := false, None, None;
      distanceUpdateCallbacks, activeTrackings := [], map[];
      gpsTracking, gpsLocation, gpsDistance := false, None, 0;
    }

    /** `startShotTracking(id)`: without a current location nothing changes
        and the answer is false; otherwise `id` gets a fresh entry starting at
        a copy of the current location, replacing any earlier one. */
    method StartShotTracking(shotId: string) returns (started: bool)
      requires Valid()
      modifies this
      ensures Valid()
      ensures started <==> old(currentLocation).Some?
      ensures !started ==> State() == old(State())
      ensures started ==> State() == old(State()).(activeTrackings :=
        old(activeTrackings)[shotId := ShotTracking(Copy(old(currentLocation).value), 0)])
    {
      if currentLocation.None? {
        return false;
      }
      activeTrackings := activeTrackings[shotId := ShotTracking(Copy(currentLocation.value), 0)];
      return true;
    }

    /** `stopShotTracking(id)`: only the entry of `id` goes; absent, nothing changes. */
    method StopShotTracking(shotId: string)
      requires Valid()
      modifies this
      ensures Valid()
      ensures State() == old(State()).(activeTrackings := old(activeTrackings) - {shotId})
      ensures shotId !in old(activeTrackings) ==> State() == old(State())
    {
      activeTrackings := activeTrackings - {shotId};
    }

    /** `getShotDistance(id)`: 0 for an untracked shot or without a current
        location, otherwise the unrounded distance from the shot's start. */
    function GetShotDistance(shotId: string): (d: real)
      reads this
      ensures d >= 0.0
      ensures shotId !in activeTrackings || currentLocation.None? ==> d == 0.0
      ensures shotId in activeTrackings && currentLocation.Some? ==>
        d == distance(activeTrackings[shotId].startLocation.latitude, activeTrackings[shotId].startLocation.longitude,
                      currentLocation.value.latitude, currentLocation.value.longitude)
    {
      if shotId !in activeTrackings || currentLocation.None? then 0.0
      else Between(activeTrackings[shotId].startLocation, currentLocation.value)
    }

    /** `getCurrentDistance()`: 0 without a start or a current location,
        otherwise the unrounded distance between them. */
    function GetCurrentDistance(): (d: real)
      reads this
      ensures d >= 0.0
      ensures startLocation.None? || currentLocation.None? ==> d == 0.0
      ensures startLocation.Some? && currentLocation.Some? ==>
        d == distance(startLocation.value.latitude, startLocation.value.longitude,
                      currentLocation.value.latitude, currentLocation.value.longitude)
    {
      if startLocation.None? || currentLocation.None? then 0.0
      else Between(startLocation.value, currentLocation.value)
    }

    /** Calls every callback, in subscription order, with `d`. */
    method NotifyAll(d: int)
      modifies this
      ensures State() == old(State()).(notifications := old(notifications) + Broadcast(distanceUpdateCallbacks, d))
    {
      var i := 0;
      while i < |distanceUpdateCallbacks|
        invariant 0 <= i <= |distanceUpdateCallbacks|
        invariant State() == old(State()).(notifications := old(notifications) + Broadcast(distanceUpdateCallbacks[..i], d))
      {
        PrefixBroadcast(distanceUpdateCallbacks, i, d);
        notifications := notifications + [Notification(distanceUpdateCallbacks[i], d)];
        i := i + 1;
      }
      assert distanceUpdateCallbacks[..i] == distanceUpdateCallbacks;
    }

    /** `handlePositionUpdate(position)`: the position becomes the current
        location; with a start location the rounded distance from it is
        published and sent to every callback in order; every shot entry gets
        its distance recomputed from the new location. */
    method HandlePositionUpdate(p: Position)
      requires Valid()
      modifies this
      ensures Valid()
      ensures var here := FromPosition(p);
        && currentLocation == Some(here)
        && gpsLocation == Some(here)
        && activeTrackings == Retracked(old(activeTrackings), here)
        && (old(startLocation).Some? ==>
              var d := RoundHalfUp(Between(old(startLocation).value, here));
              && gpsDistance == d
              && notifications == old(notifications) + Broadcast(old(distanceUpdateCallbacks), d))
        && (old(startLocation).None? ==> gpsDistance == old(gpsDistance) && notifications == old(notifications))
        && State() == old(State()).(currentLocation := currentLocation, gpsLocation := gpsLocation,
                                    gpsDistance := gpsDistance, notifications := notifications,
                                    activeTrackings := activeTrackings)
    {
      var here := FromPosition(p);
      currentLocation := Some(here);
      gpsLocation := currentLocation;
      if startLocation.Some? {
        var d := RoundHalfUp(Between(startLocation.value, here));
        gpsDistance := d;
        NotifyAll(d);
      }
      var retracked := RetrackAll(activeTrackings, here);
      activeTrackings := retracked;
    }

    /** The `forEach` over the shot entries, on a copy of the map. */
    method RetrackAll(m: map<string, ShotTracking>, here: Location) returns (r: map<string, ShotTracking>)
      ensures r == Retracked(m, here)
    {
      r := m;
      var pending := m.Keys;
      while pending != {}
        invariant pending <= m.Keys && r.Keys == m.Keys
        invariant forall k :: k in m && k !in pending ==> r[k] == Retrack(m[k], here)
        invariant forall k :: k in pending ==> r[k] == m[k]
        decreases pending
      {
        var k :| k in pending;
        r := r[k := Retrack(r[k], here)];
        pending := pending - {k};
      }
    }

    /** `handlePositionError(error)`: only the error store changes. */
    method HandlePositionError(e: PositionError)
      modifies this
      ensures State() == old(State()).(gpsError := Some(ErrorMessage(e)))
    {
      gpsError := Some(ErrorMessage(e));
    }

    /** `resetDistance()`: with a current location, a copy of it becomes the
        start, the published distance is 0 and every callback gets 0; without
        one nothing changes. */
    method ResetDistance()
      requires Valid()
      modifies this
      ensures Valid()
      ensures old(currentLocation).None? ==> State() == old(State())
      ensures old(currentLocation).Some? ==> State() == old(State()).(
        startLocation := Some(Copy(old(currentLocation).value)), gpsDistance := 0,
        notifications := old(notifications) + Broadcast(old(distanceUpdateCallbacks), 0))
    {
      if currentLocation.Some? {
        startLocation := Some(Copy(currentLocation.value));
        gpsDistance := 0;
        NotifyAll(0);
      }
    }

    /** `onDistanceUpdate(callback)`: anything but a function is refused with
        an error and nothing changes; a function is appended to the list and
        the answer names it for `Unsubscribe`. */
    method OnDistanceUpdate(callback: Callback) returns (r: Result<nat, string>)
      requires Valid()
      modifies this
      ensures Valid()
      ensures callback.NotAFunction? ==> r == Failure("Callback must be a function") && State() == old(State())
      ensures callback.Function? ==> r == Success(callback.id) && State() == old(State()).(
        distanceUpdateCallbacks := old(distanceUpdateCallbacks) + [callback.id])
    {
      if callback.NotAFunction? {
        return Failure("Callback must be a function");
      }
      distanceUpdateCallbacks := distanceUpdateCallbacks + [callback.id];
      return Success(callback.id);
    }

    /** The unsubscribe function `onDistanceUpdate` returns for `callback`:
        its first occurrence in the list, if any, is spliced out. */
    method Unsubscribe(callback: nat)
      requires Valid()
      modifies this
      ensures Valid()
      ensures State() == old(State()).(distanceUpdateCallbacks := RemoveFirst(old(distanceUpdateCallbacks), callback))
    {
      var index := IndexOf(distanceUpdateCallbacks, callback);
      if index > -1 {
        distanceUpdateCallbacks := distanceUpdateCallbacks[..index] + distanceUpdateCallbacks[index + 1..];
      }
    }

    /** `getAccuracyStatus()`: the classification of the current location. */
    function GetAccuracyStatus(): (s: AccuracyStatus)
      reads this
      ensures s == AccuracyStatusOf(currentLocation)
      ensures currentLocation.None? ==> s == AccuracyStatus("unknown", "gray")
    {
      AccuracyStatusOf(currentLocation)
    }
  }

  lemma PrefixBroadcast(callbacks: seq<nat>, i: nat, d: int)
    requires i < |callbacks|
    ensures Broadcast(callbacks[..i + 1], d) == Broadcast(callbacks[..i], d) + [Notification(callbacks[i], d)]
  {
    assert callbacks[..i + 1][..i] == callbacks[..i];
  }
}
