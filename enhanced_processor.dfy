/** The accuracy-gated smoother (`EnhancedLocationProcessor` in localDatabase.kt): a fix
    is classified as indoor or outdoor by its accuracy, rejected when its accuracy is
    worse than the class's threshold, smoothed towards the newest remembered fix,
    rejected again when the step from that fix looks like drift, and otherwise
    remembered in a history of the five newest accepted fixes. */
module EnhancedProcessor {
  import opened Locations
  import opened BoundedFifo

  const HISTORY_SIZE: nat := 5
  const INDOOR_ACCURACY_M: real := 50.0
  const INDOOR_ACCURACY_THRESHOLD_M: real := 30.0
  const OUTDOOR_ACCURACY_THRESHOLD_M: real := 15.0
  const INDOOR_DRIFT_SPEED_M_S: real := 10.0
  const OUTDOOR_DRIFT_SPEED_M_S: real := 35.0
  /** Weight of the remembered fix in the smoothing. */
  const SMOOTHING_WEIGHT: real := 0.7
  /** A jump longer than this within less than `JUMP_WINDOW_S` is drift. */
  const JUMP_DISTANCE_M: real := 100.0
  const JUMP_WINDOW_S: real := 5.0

  /** `ProcessedLocation`: an accepted fix and whether it was classified as indoor. */
  datatype ProcessedLocation = ProcessedLocation(location: Location, isIndoor: bool)

  /** The processor's fields: the time of the last fix seen and the accepted history,
      oldest first. */
  datatype ProcessorState = ProcessorState(lastGpsTime: int, recent: seq<Location>)

  /** The processor right after construction. */
  const Fresh: ProcessorState := ProcessorState(0, [])

  /** What every reachable state satisfies: a short history of well-measured fixes. */
  predicate WellFormed(s: ProcessorState) {
    && |s.recent| <= HISTORY_SIZE
    && forall i :: 0 <= i < |s.recent| ==> s.recent[i].accuracy <= OUTDOOR_ACCURACY_THRESHOLD_M
  }

  predicate IsIndoor(raw: Location) {
    raw.accuracy > INDOOR_ACCURACY_M
  }

  function AccuracyThreshold(indoor: bool): real {
    if indoor then INDOOR_ACCURACY_THRESHOLD_M else OUTDOOR_ACCURACY_THRESHOLD_M
  }

  function DriftThreshold(indoor: bool): real {
    if indoor then INDOOR_DRIFT_SPEED_M_S else OUTDOOR_DRIFT_SPEED_M_S
  }

  /** `weight * remembered + (1 - weight) * measured`. */
  function Smooth(remembered: real, measured: real): real {
    SMOOTHING_WEIGHT * remembered + (1.0 - SMOOTHING_WEIGHT) * measured
  }

  /** `applySimpleFilter`: a copy of the fix whose coordinates are pulled towards the
      newest remembered fix, when there is one. */
  function SimpleFilter(recent: seq<Location>, location: Location): Location {
    if recent == [] then location
    else
      var last := recent[|recent| - 1];
      WithCoordinates(location, Smooth(last.latitude, location.latitude),
                      Smooth(last.longitude, location.longitude))
  }

  /** Seconds from `prev` to `location`. */
  function SecondsBetween(prev: Location, location: Location): real {
    (location.time - prev.time) as real / 1000.0
  }

  /** Speed over a step; zero unless time moved forward. */
  function StepSpeed(distance: real, timeDelta: real): real {
    if timeDelta > 0.0 then distance / timeDelta else 0.0
  }

  /** `isDriftDetected`: the step from the newest remembered fix is too fast, or a jump
      of over 100 m in under five seconds. Never drift without a history. */
  predicate DriftDetected(recent: seq<Location>, location: Location, threshold: real,
                          distanceTo: DistanceFn) {
    && recent != []
    && var prev := recent[|recent| - 1];
    var distance := distanceTo(prev, location);
    var timeDelta := SecondsBetween(prev, location);
    StepSpeed(distance, timeDelta) > threshold
      || (distance > JUMP_DISTANCE_M && timeDelta < JUMP_WINDOW_S)
  }

  /** `processLocation`: the new state and the result (None for a rejected fix). */
  function ProcessSpec(s: ProcessorState, raw: Location, distanceTo: DistanceFn)
    : (ProcessorState, Option<ProcessedLocation>)
  {
    var seen := s.(lastGpsTime := raw.time);
    var indoor := IsIndoor(raw);
    if raw.accuracy > AccuracyThreshold(indoor) then (seen, None)
    else
      var filtered := SimpleFilter(s.recent, raw);
      if DriftDetected(s.recent, filtered, DriftThreshold(indoor), distanceTo) then (seen, None)
      else (seen.(recent := PushBounded(s.recent, filtered, HISTORY_SIZE)),
            Some(ProcessedLocation(filtered, indoor)))
  }

  /** Feeding raw fixes one after another; the states passed through. */
  function ProcessAll(s: ProcessorState, raws: seq<Location>, distanceTo: DistanceFn): ProcessorState
    decreases |raws|
  {
    if raws == [] then s else ProcessAll(ProcessSpec(s, raws[0], distanceTo).0, raws[1..], distanceTo)
  }

  /** The indoor class can never produce a result: an indoor fix has accuracy above 50 m,
      which is always above its 30 m threshold. Every accepted fix is outdoor with an
      accuracy of at most 15 m, and every worse fix is rejected. */
  lemma IndoorNeverReported(s: ProcessorState, raw: Location, distanceTo: DistanceFn)
    ensures var out := ProcessSpec(s, raw, distanceTo).1;
      && (out.Some? ==> !out.value.isIndoor && raw.accuracy <= OUTDOOR_ACCURACY_THRESHOLD_M)
      && (raw.accuracy > OUTDOOR_ACCURACY_THRESHOLD_M ==> out == None)
  {
  }

  /** Every fix updates the last-seen time; a rejected fix leaves the history alone, and an
      accepted one is appended to it and is exactly the fix returned. */
  lemma ResultMatchesHistory(s: ProcessorState, raw: Location, distanceTo: DistanceFn)
    ensures var (s', out) := ProcessSpec(s, raw, distanceTo);
      && s'.lastGpsTime == raw.time
      && (out == None ==> s'.recent == s.recent)
      && (out.Some? ==> s'.recent == PushBounded(s.recent, out.value.location, HISTORY_SIZE)
                        && s'.recent[|s'.recent| - 1] == out.value.location)
  {
  }

  /** Smoothing keeps everything but the coordinates, leaves the first fix as it is and
      otherwise puts each coordinate between the remembered and the measured value. */
  lemma SmoothingStaysBetween(recent: seq<Location>, location: Location)
    ensures var f := SimpleFilter(recent, location);
      && f == WithCoordinates(location, f.latitude, f.longitude)
      && (recent == [] ==> f == location)
      && (recent != [] ==>
            var last := recent[|recent| - 1];
            && Min(last.latitude, location.latitude) <= f.latitude
                 <= Max(last.latitude, location.latitude)
            && Min(last.longitude, location.longitude) <= f.longitude
                 <= Max(last.longitude, location.longitude)
            && (last.latitude == location.latitude ==> f.latitude == location.latitude)
            && (last.longitude == location.longitude ==> f.longitude == location.longitude))
  {
  }

  /** A fix at the same place as the newest remembered fix is never drift, and neither is
      a short step taken slower than the threshold; a long jump with no time elapsed
      always is. */
  lemma DriftNeedsSpeedOrJump(recent: seq<Location>, location: Location, threshold: real,
                              distanceTo: DistanceFn)
    requires recent != [] && threshold >= 0.0
    ensures var prev := recent[|recent| - 1];
      var distance := distanceTo(prev, location);
      && (distance == 0.0 ==> !DriftDetected(recent, location, threshold, distanceTo))
      && (distance <= JUMP_DISTANCE_M
            && StepSpeed(distance, SecondsBetween(prev, location)) <= threshold
          ==> !DriftDetected(recent, location, threshold, distanceTo))
      && (distance > JUMP_DISTANCE_M && location.time <= prev.time
          ==> DriftDetected(recent, location, threshold, distanceTo))
  {
  }

  /** One fix keeps the state well formed. */
  lemma ProcessKeepsWellFormed(s: ProcessorState, raw: Location, distanceTo: DistanceFn)
    requires WellFormed(s)
    ensures WellFormed(ProcessSpec(s, raw, distanceTo).0)
  {
    var (s', out) := ProcessSpec(s, raw, distanceTo);
    if out.Some? {
      IndoorNeverReported(s, raw, distanceTo);
      var f := out.value.location;
      assert f.accuracy == raw.accuracy;
      var pushed := s.recent + [f];
      assert forall i :: 0 <= i < |pushed| ==> pushed[i].accuracy <= OUTDOOR_ACCURACY_THRESHOLD_M;
    }
  }

  /** Over any run of fixes from a well-formed state (the fresh processor is one), the
      history holds at most five fixes, each with an accuracy of at most 15 m. */
  lemma {:induction false} RunKeepsWellFormed(s: ProcessorState, raws: seq<Location>,
                                              distanceTo: DistanceFn)
    requires WellFormed(s)
    ensures WellFormed(ProcessAll(s, raws, distanceTo))
    decreases |raws|
  {
    if raws != [] {
      ProcessKeepsWellFormed(s, raws[0], distanceTo);
      RunKeepsWellFormed(ProcessSpec(s, raws[0], distanceTo).0, raws[1..], distanceTo);
    }
  }

  /** One processor instance, updated in place. */
  class EnhancedLocationProcessor {
    var lastGpsTime: int
    var recentLocations: seq<Location>

    ghost function State(): ProcessorState
      reads this
    {
      ProcessorState(lastGpsTime, recentLocations)
    }

    ghost predicate Valid()
      reads this
    {
      WellFormed(State())
    }

    constructor ()
      ensures Valid() && State() == Fresh
    {
      lastGpsTime := 0;
      recentLocations := [];
    }

    method ProcessLocation(rawLocation: Location, distanceTo: DistanceFn)
      returns (result: Option<ProcessedLocation>)
      requires Valid()
      modifies this
      ensures Valid()
      ensures (State(), result) == ProcessSpec(old(State()), rawLocation, distanceTo)
    {
      ghost var before := State();
      ProcessKeepsWellFormed(before, rawLocation, distanceTo);
      lastGpsTime := rawLocation.time;
      var isIndoor := rawLocation.accuracy > INDOOR_ACCURACY_M;
      var accuracyThreshold := if isIndoor then INDOOR_ACCURACY_THRESHOLD_M
                               else OUTDOOR_ACCURACY_THRESHOLD_M;
      var driftThreshold := if isIndoor then INDOOR_DRIFT_SPEED_M_S else OUTDOOR_DRIFT_SPEED_M_S;
      if rawLocation.accuracy > accuracyThreshold {
        return None;
      }
      var filteredLocation := SimpleFilter(recentLocations, rawLocation);
      if DriftDetected(recentLocations, filteredLocation, driftThreshold, distanceTo) {
        return None;
      }
      AddToRecentLocations(filteredLocation);
      return Some(ProcessedLocation(filteredLocation, isIndoor));
    }

    /** `addToRecentLocations`: append, then drop the oldest beyond five. */
    method AddToRecentLocations(location: Location)
      modifies this
      ensures lastGpsTime == old(lastGpsTime)
      ensures recentLocations == PushBounded(old(recentLocations), location, HISTORY_SIZE)
    {
      recentLocations := recentLocations + [location];
      if |recentLocations| > HISTORY_SIZE {
        recentLocations := recentLocations[1..];
      }
    }
  }
}
