/** The distance accumulator (LocationRepository.kt): every non-mock fix goes through the
    Kalman filter; a step from the previous filtered fix is rejected as an outlier, counted
    as travel, or counted as stationary time, which drives the tracking status. */
module Repository {
  import opened Locations
  import opened Kalman

  /** The three tracking states the accumulator uses. */
  datatype TrackingStatus = Stationary | Moving | Paused

  const SPEED_THRESHOLD_M_S: real := 1.0
  const OUTLIER_DISTANCE_M: real := 1000.0
  const MAX_SPEED_KMH: real := 200.0
  const STATIONARY_THRESHOLD_MS: int := 300000
  /** The two literals of `shouldAccumulate`. */
  const MIN_STEP_M: real := 0.5
  const MAX_ACCURACY_M: real := 50.0

  /** The accumulator's own fields (the Kalman filter is kept apart). */
  datatype Tracker = Tracker(
    lastFiltered: Option<Location>,
    total: real,
    status: TrackingStatus,
    stationaryTime: int)

  /** The state after construction, with the distance loaded from storage. */
  function Loaded(storedDistance: real): Tracker {
    Tracker(None, storedDistance, Stationary, 0)
  }

  /** Seconds between two fixes; negative when the fixes arrive out of order. */
  function TimeDeltaSeconds(current: Location, last: Location): real {
    (current.time - last.time) as real / 1000.0
  }

  /** Speed over a step; zero unless time moved forward. */
  function Speed(distance: real, timeDelta: real): (speed: real)
    ensures timeDelta <= 0.0 ==> speed == 0.0
    ensures timeDelta > 0.0 ==> speed * timeDelta == distance
  {
    if timeDelta > 0.0 then distance / timeDelta else 0.0
  }

  /** Conversion of a real to Long: truncation toward zero (64-bit saturation aside). */
  function ToLong(x: real): int {
    if x >= 0.0 then x.Floor else -((-x).Floor)
  }

  /** The milliseconds a stationary step adds: `(timeDelta * 1000).toLong()`. */
  function StationaryIncrement(current: Location, last: Location): int {
    ToLong(TimeDeltaSeconds(current, last) * 1000.0)
  }

  /** The outlier gate: a step is plausible when it is shorter than 1000 m and no faster
      than 200 km/h. */
  predicate IsPlausible(distance: real, speed: real) {
    distance < OUTLIER_DISTANCE_M && speed <= MAX_SPEED_KMH / 3.6
  }

  /** `shouldAccumulate`: the step is long enough, fast enough and well measured. */
  predicate ShouldAccumulate(distance: real, speed: real, location: Location) {
    && distance > MIN_STEP_M
    && speed >= SPEED_THRESHOLD_M_S
    && location.hasAccuracy
    && location.accuracy <= MAX_ACCURACY_M
  }

  /** The step from the previous filtered fix to `filtered` adds distance. */
  predicate Counts(t: Tracker, filtered: Location, distanceTo: DistanceFn) {
    && t.lastFiltered.Some?
    && var last := t.lastFiltered.value;
    var distance := distanceTo(filtered, last);
    var speed := Speed(distance, TimeDeltaSeconds(filtered, last));
    IsPlausible(distance, speed) && ShouldAccumulate(distance, speed, filtered)
  }

  /** The accumulator's part of `processLocation` for an already filtered fix. */
  function Accumulate(t: Tracker, filtered: Location, distanceTo: DistanceFn): Tracker {
    match t.lastFiltered
    case None => t.(lastFiltered := Some(filtered))
    case Some(last) =>
      var distance := distanceTo(filtered, last);
      var speed := Speed(distance, TimeDeltaSeconds(filtered, last));
      var t' :=
        if !IsPlausible(distance, speed) then t
        else if ShouldAccumulate(distance, speed, filtered) then
          t.(total := t.total + distance, status := Moving, stationaryTime := 0)
        else
          var still := t.stationaryTime + StationaryIncrement(filtered, last);
          t.(status := if still > STATIONARY_THRESHOLD_MS then Paused else Stationary,
             stationaryTime := still);
      t'.(lastFiltered := Some(filtered))
  }

  /** The whole of `processLocation`: the new accumulator, the new filter state and the
      returned fix (None for a mock fix). The returned total is always the new total. */
  function ProcessLocationSpec(t: Tracker, k: FilterState, raw: Location, distanceTo: DistanceFn,
                               sqrt: real -> real): (Tracker, FilterState, Option<Location>)
    requires AtDefaultNoise(k)
  {
    if raw.isMock then (t, k, None)
    else
      GainAlwaysDefinedAtDefaultNoise(k, raw);
      var (k', filtered) := Step(k, raw, sqrt);
      (Accumulate(t, filtered, distanceTo), k', Some(filtered))
  }

  /** `resetDailyData` on the accumulator's fields. */
  function ResetDaily(t: Tracker): (r: Tracker)
    ensures r.total == 0.0 && r.lastFiltered == None
    ensures r.status == Stationary && r.stationaryTime == 0
  {
    Tracker(None, 0.0, Stationary, 0)
  }

  /** A mock fix changes nothing, neither the accumulator nor the filter. */
  lemma MockFixIgnored(t: Tracker, k: FilterState, raw: Location, distanceTo: DistanceFn,
                       sqrt: real -> real)
    requires raw.isMock && AtDefaultNoise(k)
    ensures ProcessLocationSpec(t, k, raw, distanceTo, sqrt) == (t, k, None)
  {
  }

  /** The fixes the filter returns always carry an accuracy, so that clause of
      `shouldAccumulate` never rejects a step in `processLocation`. */
  lemma FilteredFixHasAccuracy(t: Tracker, k: FilterState, raw: Location, distanceTo: DistanceFn,
                               sqrt: real -> real)
    requires !raw.isMock && AtDefaultNoise(k)
    ensures var (t', _, out) := ProcessLocationSpec(t, k, raw, distanceTo, sqrt);
      out.Some? && out.value.hasAccuracy && t'.lastFiltered == out
  {
  }

  /** The first fix only establishes the baseline. */
  lemma FirstFixIsBaseline(t: Tracker, filtered: Location, distanceTo: DistanceFn)
    requires t.lastFiltered == None
    ensures Accumulate(t, filtered, distanceTo) == t.(lastFiltered := Some(filtered))
  {
  }

  /** An outlier changes neither the total, the status nor the stationary time, but it
      still becomes the previous fix. */
  lemma OutlierKeepsProgress(t: Tracker, filtered: Location, distanceTo: DistanceFn)
    requires t.lastFiltered.Some?
    requires var last := t.lastFiltered.value;
      var distance := distanceTo(filtered, last);
      !IsPlausible(distance, Speed(distance, TimeDeltaSeconds(filtered, last)))
    ensures Accumulate(t, filtered, distanceTo) == t.(lastFiltered := Some(filtered))
  {
  }

  /** The total grows by exactly the step distance when the step counts and is unchanged
      otherwise; in particular it never decreases, and it grows iff the step counts. */
  lemma TotalGrowsIffStepCounts(t: Tracker, filtered: Location, distanceTo: DistanceFn)
    ensures var r := Accumulate(t, filtered, distanceTo);
      && r.total == (if Counts(t, filtered, distanceTo)
                     then t.total + distanceTo(filtered, t.lastFiltered.value) else t.total)
      && r.total >= t.total
      && (r.total > t.total <==> Counts(t, filtered, distanceTo))
      && r.lastFiltered == Some(filtered)
  {
  }

  /** A counted step sets the status to Moving and clears the stationary time. */
  lemma CountedStepIsMoving(t: Tracker, filtered: Location, distanceTo: DistanceFn)
    requires Counts(t, filtered, distanceTo)
    ensures var r := Accumulate(t, filtered, distanceTo);
      r.status == Moving && r.stationaryTime == 0
  {
  }

  /** Over the reals, `(timeDelta * 1000).toLong()` recovers the elapsed milliseconds
      exactly; in Double arithmetic it can come out one millisecond short. */
  lemma StationaryIncrementIsElapsed(current: Location, last: Location)
    ensures StationaryIncrement(current, last) == current.time - last.time
  {
    var d := current.time - last.time;
    assert TimeDeltaSeconds(current, last) * 1000.0 == d as real;
    if d < 0 {
      assert -(d as real) == (-d) as real;
    }
  }

  /** A plausible step that does not count adds the elapsed milliseconds (negative for an
      out-of-order fix) to the stationary time; the status is Paused iff the result
      exceeds five minutes, Stationary otherwise. */
  lemma StillStepAddsElapsed(t: Tracker, filtered: Location, distanceTo: DistanceFn)
    requires t.lastFiltered.Some?
    requires var last := t.lastFiltered.value;
      var distance := distanceTo(filtered, last);
      IsPlausible(distance, Speed(distance, TimeDeltaSeconds(filtered, last)))
    requires !Counts(t, filtered, distanceTo)
    ensures var r := Accumulate(t, filtered, distanceTo);
      && r.total == t.total
      && r.stationaryTime == t.stationaryTime + (filtered.time - t.lastFiltered.value.time)
      && (r.status == Paused <==> r.stationaryTime > STATIONARY_THRESHOLD_MS)
      && (r.status == Stationary <==> r.stationaryTime <= STATIONARY_THRESHOLD_MS)
  {
    StationaryIncrementIsElapsed(filtered, t.lastFiltered.value);
  }

  /** A fix that is not later than the previous one has speed 0 and never adds distance. */
  lemma NoElapsedTimeNoDistance(t: Tracker, filtered: Location, distanceTo: DistanceFn)
    requires t.lastFiltered.Some? && filtered.time <= t.lastFiltered.value.time
    ensures !Counts(t, filtered, distanceTo)
    ensures Accumulate(t, filtered, distanceTo).total == t.total
  {
    var last := t.lastFiltered.value;
    assert TimeDeltaSeconds(filtered, last) <= 0.0;
  }

  /** `processLocation` never decreases the total, mock or not. */
  lemma ProcessNeverDecreasesTotal(t: Tracker, k: FilterState, raw: Location,
                                   distanceTo: DistanceFn, sqrt: real -> real)
    requires AtDefaultNoise(k)
    ensures ProcessLocationSpec(t, k, raw, distanceTo, sqrt).0.total >= t.total
  {
    if !raw.isMock {
      GainAlwaysDefinedAtDefaultNoise(k, raw);
      TotalGrowsIffStepCounts(t, Step(k, raw, sqrt).1, distanceTo);
    }
  }

  /** After `resetDailyData` the next real fix is handled exactly as by a freshly loaded
      repository with nothing stored: nothing of the earlier day survives. */
  lemma ResetThenProcessIsFresh(t: Tracker, k: FilterState, raw: Location,
                                distanceTo: DistanceFn, sqrt: real -> real)
    requires !raw.isMock && AtDefaultNoise(k)
    ensures AtDefaultNoise(ResetState(k)) && AtDefaultNoise(Initial(k.processNoise))
    ensures ProcessLocationSpec(ResetDaily(t), ResetState(k), raw, distanceTo, sqrt)
         == ProcessLocationSpec(Loaded(0.0), Initial(k.processNoise), raw, distanceTo, sqrt)
  {
    ResetForgetsHistory(k, raw, sqrt);
    var step := Step(ResetState(k), raw, sqrt);
    assert ProcessLocationSpec(ResetDaily(t), ResetState(k), raw, distanceTo, sqrt)
        == (Accumulate(Loaded(0.0), step.1, distanceTo), step.0, Some(step.1));
  }

  /** Feeding filtered fixes one after another. */
  function AccumulateAll(t: Tracker, fixes: seq<Location>, distanceTo: DistanceFn): Tracker
    decreases |fixes|
  {
    if fixes == [] then t else AccumulateAll(Accumulate(t, fixes[0], distanceTo), fixes[1..], distanceTo)
  }

  /** Over any run of fixes the total never decreases. */
  lemma {:induction false} TotalNeverDecreasesOverRun(t: Tracker, fixes: seq<Location>,
                                                       distanceTo: DistanceFn)
    ensures AccumulateAll(t, fixes, distanceTo).total >= t.total
    decreases |fixes|
  {
    if fixes != [] {
      TotalGrowsIffStepCounts(t, fixes[0], distanceTo);
      TotalNeverDecreasesOverRun(Accumulate(t, fixes[0], distanceTo), fixes[1..], distanceTo);
    }
  }

  /** The fix before `fixes[i]` in a run that starts after `first`. */
  function Previous(first: Location, fixes: seq<Location>, i: nat): Location
    requires i < |fixes|
  {
    if i == 0 then first else fixes[i - 1]
  }

  /** Standing still: when every fix of a run is at the same place as the one before,
      the total is untouched, the stationary time grows (over the reals) by the whole time
      the run spans,
      and the run ends Paused iff that time exceeds five minutes. */
  lemma {:induction false} StandingStillPauses(t: Tracker, first: Location, fixes: seq<Location>,
                                              distanceTo: DistanceFn)
    requires t.lastFiltered == Some(first)
    requires forall i :: 0 <= i < |fixes| ==> distanceTo(fixes[i], Previous(first, fixes, i)) == 0.0
    ensures var r := AccumulateAll(t, fixes, distanceTo);
      var lastFix := if fixes == [] then first else fixes[|fixes| - 1];
      && r.total == t.total
      && r.lastFiltered == Some(lastFix)
      && r.stationaryTime == t.stationaryTime + (lastFix.time - first.time)
      && (fixes != [] ==> (r.status == Paused <==> r.stationaryTime > STATIONARY_THRESHOLD_MS))
    decreases |fixes|
  {
    if fixes != [] {
      var t1 := Accumulate(t, fixes[0], distanceTo);
      assert distanceTo(fixes[0], first) == 0.0 by {
        assert Previous(first, fixes, 0) == first;
      }
      StationaryIncrementIsElapsed(fixes[0], first);
      assert t1.stationaryTime == t.stationaryTime + (fixes[0].time - first.time);
      forall i | 0 <= i < |fixes[1..]|
        ensures distanceTo(fixes[1..][i], Previous(fixes[0], fixes[1..], i)) == 0.0
      {
        assert Previous(first, fixes, i + 1) == Previous(fixes[0], fixes[1..], i);
        assert fixes[1..][i] == fixes[i + 1];
      }
      StandingStillPauses(t1, fixes[0], fixes[1..], distanceTo);
    }
  }

  /** One repository instance (`LocationRepository`) and the Kalman filter it owns. */
  class LocationRepository {
    const kalmanFilter: KalmanFilter
    var lastFilteredLocation: Option<Location>
    var totalDistanceToday: real
    var trackingStatus: TrackingStatus
    var stationaryTime: int

    ghost function Snapshot(): Tracker
      reads this
    {
      Tracker(lastFilteredLocation, totalDistanceToday, trackingStatus, stationaryTime)
    }

    ghost predicate Valid()
      reads this, kalmanFilter
    {
      kalmanFilter.Valid() && kalmanFilter.processNoise == DEFAULT_PROCESS_NOISE
    }

    /** The repository after construction: `storedDistance` is what the platform
        storage reports for today (0 when loading fails). */
    constructor (storedDistance: real, sqrt: real -> real)
      requires IsSquareRoot(sqrt)
      ensures Valid() && fresh(kalmanFilter) && kalmanFilter.sqrt == sqrt
      ensures Snapshot() == Loaded(storedDistance)
      ensures kalmanFilter.State() == Initial(DEFAULT_PROCESS_NOISE)
    {
      kalmanFilter := new KalmanFilter(DEFAULT_PROCESS_NOISE, sqrt);
      lastFilteredLocation := None;
      totalDistanceToday := storedDistance;
      trackingStatus := Stationary;
      stationaryTime := 0;
    }

    method ProcessLocation(rawLocation: Location, distanceTo: DistanceFn)
      returns (filtered: Option<Location>, total: real)
      requires Valid()
      modifies this, kalmanFilter
      ensures Valid()
      ensures (Snapshot(), kalmanFilter.State(), filtered)
           == ProcessLocationSpec(old(Snapshot()), old(kalmanFilter.State()), rawLocation,
                                  distanceTo, kalmanFilter.sqrt)
      ensures total == totalDistanceToday
    {
      if rawLocation.isMock {
        return None, totalDistanceToday;
      }
      GainAlwaysDefinedAtDefaultNoise(kalmanFilter.State(), rawLocation);
      var f := kalmanFilter.Process(rawLocation);
      match lastFilteredLocation {
        case Some(lastLoc) =>
          var distance := distanceTo(f, lastLoc);
          var timeDelta := (f.time - lastLoc.time) as real / 1000.0;
          var speed := Speed(distance, timeDelta);
          if distance < OUTLIER_DISTANCE_M && speed <= MAX_SPEED_KMH / 3.6 {
            if ShouldAccumulate(distance, speed, f) {
              totalDistanceToday := totalDistanceToday + distance;
              trackingStatus := Moving;
              stationaryTime := 0;
            } else {
              trackingStatus := Stationary;
              stationaryTime := stationaryTime + ToLong(timeDelta * 1000.0);
              if stationaryTime > STATIONARY_THRESHOLD_MS {
                trackingStatus := Paused;
              }
            }
          }
        case None =>
      }
      lastFilteredLocation := Some(f);
      return Some(f), totalDistanceToday;
    }

    method ResetDailyData()
      requires Valid()
      modifies this, kalmanFilter
      ensures Valid()
      ensures Snapshot() == ResetDaily(old(Snapshot()))
      ensures kalmanFilter.State() == ResetState(old(kalmanFilter.State()))
    {
      totalDistanceToday := 0.0;
      lastFilteredLocation := None;
      kalmanFilter.Reset();
      trackingStatus := Stationary;
      stationaryTime := 0;
    }

    /** Overwrite the total (the database sync path); the only way besides the daily
        reset in which the total may go down. */
    method UpdateTotalDistance(distance: real)
      modifies this
      ensures Snapshot() == old(Snapshot()).(total := distance)
    {
      totalDistanceToday := distance;
    }

    function GetTotalDistanceToday(): real
      reads this
    {
      totalDistanceToday
    }

    function GetTrackingStatus(): TrackingStatus
      reads this
    {
      trackingStatus
    }

    function IsMoving(): bool
      reads this
    {
      trackingStatus == Moving
    }

    function IsPaused(): bool
      reads this
    {
      trackingStatus == Paused
    }
  }
}
