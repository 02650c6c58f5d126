/** The scalar Kalman filter applied to every raw fix before distance accounting
    (KalmanFilter.kt). One variance is shared by latitude and longitude; a negative
    variance marks the filter as not yet initialised. */
module Kalman {
  import opened Locations

  /** The filter's fields: the tunable process noise and the five estimate fields. */
  datatype FilterState = FilterState(
    processNoise: real,
    timestamp: int,
    lat: real,
    lng: real,
    accuracy: real,
    variance: real)

  const DEFAULT_PROCESS_NOISE: real := 3.0
  /** The sentinel stored in `variance` while the filter is uninitialised. */
  const UNINITIALISED: real := -1.0

  /** The state of a freshly constructed filter. */
  function Initial(processNoise: real): FilterState {
    FilterState(processNoise, 0, 0.0, 0.0, 1.0, UNINITIALISED)
  }

  predicate Initialised(s: FilterState) {
    s.variance >= 0.0
  }

  /** `sqrt` returns the non-negative square root of every non-negative real. */
  ghost predicate IsSquareRoot(sqrt: real -> real) {
    forall x: real :: 0.0 <= x ==> 0.0 <= sqrt(x) && sqrt(x) * sqrt(x) == x
  }

  /** The platform square root applied to `x`. */
  function Root(sqrt: real -> real, x: real): real {
    sqrt(x)
  }

  /** The invariant every reachable filter state keeps: the variance is either the
      sentinel or non-negative, and once initialised the stored accuracy is the
      square root of the stored variance. */
  predicate Consistent(s: FilterState) {
    && (s.variance < 0.0 ==> s.variance == UNINITIALISED)
    && (Initialised(s) ==> s.accuracy * s.accuracy == s.variance)
  }

  /** Seconds since the last fix, with the elapsed milliseconds floored at 1. */
  function ElapsedSeconds(now: int, last: int): (dt: real)
    ensures dt >= 0.001
    ensures now - last >= 1 ==> dt * 1000.0 == (now - last) as real
    ensures now - last < 1 ==> dt == 0.001
  {
    (if now - last >= 1 then now - last else 1) as real / 1000.0
  }

  /** The prediction step: uncertainty grows with the elapsed seconds `dt`. */
  function Predict(variance: real, dt: real, processNoise: real): real {
    variance + dt * processNoise * processNoise
  }

  /** The variance after the prediction step to time `now`. */
  function Predicted(s: FilterState, now: int): real {
    Predict(s.variance, ElapsedSeconds(now, s.timestamp), s.processNoise)
  }

  /** The gain's denominator is non-zero, so the update is defined over the reals. */
  predicate GainDefined(s: FilterState, loc: Location) {
    s.variance < 0.0 || Predicted(s, loc.time) + loc.accuracy * loc.accuracy != 0.0
  }

  function Gain(v: real, measurementAccuracy: real): real
    requires v + measurementAccuracy * measurementAccuracy != 0.0
  {
    v / (v + measurementAccuracy * measurementAccuracy)
  }

  /** The corrected variance (1 - k) * v after an update with gain `k`. */
  function Corrected(v: real, k: real): real {
    (1.0 - k) * v
  }

  /** Move the estimate `x` towards the measurement `m` by the fraction `k`. */
  function Blend(x: real, m: real, k: real): real {
    x + k * (m - x)
  }

  /** One call of `process`: the new filter state and the returned fix. */
  function Step(s: FilterState, loc: Location, sqrt: real -> real): (r: (FilterState, Location))
    requires GainDefined(s, loc)
    ensures r.1 == WithEstimate(loc, r.0.lat, r.0.lng, r.0.accuracy)
    ensures r.0.timestamp == loc.time && r.0.processNoise == s.processNoise
  {
    if s.variance < 0.0 then
      var s' := s.(lat := loc.latitude, lng := loc.longitude, accuracy := loc.accuracy,
                   variance := loc.accuracy * loc.accuracy, timestamp := loc.time);
      (s', WithEstimate(loc, s'.lat, s'.lng, s'.accuracy))
    else
      var v := Predicted(s, loc.time);
      var k := Gain(v, loc.accuracy);
      var corrected := Corrected(v, k);
      var s' := s.(timestamp := loc.time,
                   lat := Blend(s.lat, loc.latitude, k),
                   lng := Blend(s.lng, loc.longitude, k),
                   accuracy := Root(sqrt, corrected),
                   variance := corrected);
      (s', WithEstimate(loc, s'.lat, s'.lng, s'.accuracy))
  }

  /** `reset`: only the variance changes, back to the sentinel. */
  function ResetState(s: FilterState): (r: FilterState)
    ensures !Initialised(r) && Consistent(r)
    ensures r.processNoise == s.processNoise && r.timestamp == s.timestamp
    ensures r.lat == s.lat && r.lng == s.lng && r.accuracy == s.accuracy
  {
    s.(variance := UNINITIALISED)
  }

  /** `setProcessNoise`: only the process noise changes. */
  function WithProcessNoise(s: FilterState, q: real): (r: FilterState)
    ensures r.processNoise == q && r.timestamp == s.timestamp && r.variance == s.variance
    ensures r.lat == s.lat && r.lng == s.lng && r.accuracy == s.accuracy
  {
    s.(processNoise := q)
  }

  /** The first measurement (and the first after a reset) passes through unchanged and
      seeds the variance with the squared accuracy. */
  lemma FirstFixPassesThrough(s: FilterState, loc: Location, sqrt: real -> real)
    requires !Initialised(s)
    ensures GainDefined(s, loc)
    ensures var (s', out) := Step(s, loc, sqrt);
      && out.latitude == loc.latitude && out.longitude == loc.longitude
      && out.accuracy == loc.accuracy
      && s'.variance == loc.accuracy * loc.accuracy && s'.timestamp == loc.time
      && s'.processNoise == s.processNoise && Initialised(s')
  {
  }

  /** The elapsed time is at least 1 ms, so prediction adds at least
      0.001 * processNoise^2 to the variance. */
  lemma PredictionGrowsVariance(s: FilterState, now: int)
    ensures Predicted(s, now) >= s.variance + 0.001 * s.processNoise * s.processNoise
  {
    var dt := ElapsedSeconds(now, s.timestamp);
    var q2 := s.processNoise * s.processNoise;
    assert q2 >= 0.0;
    assert (dt - 0.001) * q2 >= 0.0;
    assert dt * s.processNoise * s.processNoise == dt * q2;
  }

  /** With a non-negative predicted variance the gain is a convex weight. */
  lemma GainIsConvexWeight(v: real, measurementAccuracy: real)
    requires v >= 0.0 && v + measurementAccuracy * measurementAccuracy != 0.0
    ensures 0.0 <= Gain(v, measurementAccuracy) <= 1.0
  {
    var d := v + measurementAccuracy * measurementAccuracy;
    assert measurementAccuracy * measurementAccuracy >= 0.0;
    assert d > 0.0 && v <= d;
  }

  lemma ProductNonNegative(a: real, b: real)
    requires 0.0 <= a && 0.0 <= b
    ensures 0.0 <= a * b
  {
  }

  /** x + k * (y - x) lies between x and y for every k in [0, 1]. */
  lemma ConvexCombinationBetween(x: real, y: real, k: real)
    requires 0.0 <= k <= 1.0
    ensures Min(x, y) <= x + k * (y - x) <= Max(x, y)
  {
    var d := if x <= y then y - x else x - y;
    ProductNonNegative(k, d);
    ProductNonNegative(1.0 - k, d);
    assert (1.0 - k) * d == d - k * d;
    if x <= y {
      assert k * (y - x) == k * d;
    } else {
      assert k * (y - x) == -(k * d);
    }
  }

  /** After an update the estimate lies between the previous estimate and the
      measurement, coordinate by coordinate. */
  lemma EstimateLiesBetween(s: FilterState, loc: Location, sqrt: real -> real)
    requires Initialised(s) && GainDefined(s, loc)
    ensures var s' := Step(s, loc, sqrt).0;
      && Min(s.lat, loc.latitude) <= s'.lat <= Max(s.lat, loc.latitude)
      && Min(s.lng, loc.longitude) <= s'.lng <= Max(s.lng, loc.longitude)
  {
    var v := Predicted(s, loc.time);
    PredictionGrowsVariance(s, loc.time);
    GainIsConvexWeight(v, loc.accuracy);
    var k := Gain(v, loc.accuracy);
    ConvexCombinationBetween(s.lat, loc.latitude, k);
    ConvexCombinationBetween(s.lng, loc.longitude, k);
    assert Blend(s.lat, loc.latitude, k) == s.lat + k * (loc.latitude - s.lat);
  }

  /** The corrected variance is non-negative and never exceeds the predicted one. */
  lemma VarianceShrinksToPrediction(s: FilterState, loc: Location, sqrt: real -> real)
    requires Initialised(s) && GainDefined(s, loc)
    ensures var s' := Step(s, loc, sqrt).0;
      0.0 <= s'.variance <= Predicted(s, loc.time)
  {
    var v := Predicted(s, loc.time);
    PredictionGrowsVariance(s, loc.time);
    GainIsConvexWeight(v, loc.accuracy);
    var k := Gain(v, loc.accuracy);
    assert Corrected(v, k) == v - v * k;
    assert v * k >= 0.0 && Corrected(v, k) >= 0.0;
  }

  /** With a true square root, the returned accuracy squared is the stored variance,
      on the first fix and on every later one. */
  lemma AccuracySquaredIsVariance(s: FilterState, loc: Location, sqrt: real -> real)
    requires IsSquareRoot(sqrt) && GainDefined(s, loc)
    ensures var (s', out) := Step(s, loc, sqrt);
      Initialised(s') && out.accuracy * out.accuracy == s'.variance
  {
    if Initialised(s) {
      var v := Predicted(s, loc.time);
      PredictionGrowsVariance(s, loc.time);
      GainIsConvexWeight(v, loc.accuracy);
      var k := Gain(v, loc.accuracy);
      assert Corrected(v, k) >= 0.0;
      var a := Root(sqrt, Corrected(v, k));
      assert a * a == Corrected(v, k);
    }
  }

  /** `process` keeps the filter invariant. */
  lemma StepKeepsConsistent(s: FilterState, loc: Location, sqrt: real -> real)
    requires IsSquareRoot(sqrt) && GainDefined(s, loc)
    ensures Consistent(Step(s, loc, sqrt).0)
  {
    AccuracySquaredIsVariance(s, loc, sqrt);
  }

  /** After a reset the next fix is handled exactly as by a new filter with the same
      process noise: nothing of the earlier estimate survives. */
  lemma ResetForgetsHistory(s: FilterState, loc: Location, sqrt: real -> real)
    ensures GainDefined(ResetState(s), loc) && GainDefined(Initial(s.processNoise), loc)
    ensures Step(ResetState(s), loc, sqrt) == Step(Initial(s.processNoise), loc, sqrt)
  {
  }

  /** The filter as the distance accumulator owns it: consistent, and at the default
      process noise, which nothing in the accumulator changes. */
  predicate AtDefaultNoise(s: FilterState) {
    Consistent(s) && s.processNoise == DEFAULT_PROCESS_NOISE
  }

  /** At the default process noise the gain's denominator is never zero: the predicted
      variance is at least 0.001 * 3.0 * 3.0 above a non-negative variance. */
  lemma GainAlwaysDefinedAtDefaultNoise(s: FilterState, loc: Location)
    requires AtDefaultNoise(s)
    ensures GainDefined(s, loc)
  {
    if Initialised(s) {
      PredictionGrowsVariance(s, loc.time);
      assert loc.accuracy * loc.accuracy >= 0.0;
    }
  }

  /** One filter instance (`KalmanFilter`), updated in place. The square root is a
      parameter of the instance: the platform's `sqrt` is outside the model. */
  class KalmanFilter {
    var processNoise: real
    var timestamp: int
    var lat: real
    var lng: real
    var accuracy: real
    var variance: real
    const sqrt: real -> real

    ghost function State(): FilterState
      reads this
    {
      FilterState(processNoise, timestamp, lat, lng, accuracy, variance)
    }

    ghost predicate Valid()
      reads this
    {
      IsSquareRoot(sqrt) && Consistent(State())
    }

    constructor (processNoise: real, sqrt: real -> real)
      requires IsSquareRoot(sqrt)
      ensures Valid() && State() == Initial(processNoise) && this.sqrt == sqrt
    {
      this.processNoise := processNoise;
      this.sqrt := sqrt;
      timestamp := 0;
      lat := 0.0;
      lng := 0.0;
      accuracy := 1.0;
      variance := UNINITIALISED;
    }

    method Process(location: Location) returns (filtered: Location)
      requires Valid() && GainDefined(State(), location)
      modifies this
      ensures Valid()
      ensures (State(), filtered) == Step(old(State()), location, sqrt)
    {
      ghost var before := State();
      var now := location.time;
      if variance < 0.0 {
        lat := location.latitude;
        lng := location.longitude;
        accuracy := location.accuracy;
        variance := accuracy * accuracy;
        timestamp := now;
      } else {
        var elapsed := now - timestamp;
        if elapsed < 1 {
          elapsed := 1;
        }
        var dt := elapsed as real / 1000.0;
        assert dt == ElapsedSeconds(now, before.timestamp);
        timestamp := now;
        // predict to now
        variance := Predict(variance, dt, processNoise);
        assert variance == Predicted(before, now);
        // Kalman gain
        var k := Gain(variance, location.accuracy);
        // update the estimate
        lat := Blend(lat, location.latitude, k);
        lng := Blend(lng, location.longitude, k);
        accuracy := Root(sqrt, Corrected(variance, k));
        // update the variance
        variance := Corrected(variance, k);
      }
      assert State() == Step(before, location, sqrt).0;
      filtered := WithEstimate(location, lat, lng, accuracy);
      StepKeepsConsistent(before, location, sqrt);
    }

    method Reset()
      modifies this
      ensures State() == ResetState(old(State()))
      ensures old(Valid()) ==> Valid()
    {
      variance := UNINITIALISED;
    }

    method SetProcessNoise(newQ: real)
      modifies this
      ensures State() == WithProcessNoise(old(State()), newQ)
      ensures old(Valid()) ==> Valid()
    {
      processNoise := newQ;
    }
  }
}
