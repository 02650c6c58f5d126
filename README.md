# Location tracker core in Dafny

This project models the decision-making core of an Android distance tracker. The tracker receives a stream of location fixes from the platform and does five things with them.

1. **Kalman filter** (`module Kalman`). A scalar filter smooths each raw fix. One variance is shared by latitude and longitude, and a negative variance marks the filter as not yet initialised. The first fix passes through with its coordinates and accuracy unchanged. Every later fix goes through two steps: a prediction step, which adds `dt * q * q` with the elapsed time floored at 1 ms, and a gain-weighted update.
2. **Distance accumulator** (`module Repository`). `LocationRepository.processLocation` works in this order:
   - it ignores mock fixes;
   - it filters each other fix;
   - it rejects outlier steps (1000 m or more, or faster than 200 km/h);
   - it adds a step's distance only when the step is longer than 0.5 m, at least 1 m/s, and its accuracy is present and at most 50 m.

   Each step also drives the STATIONARY / MOVING / PAUSED status from the accumulated stationary milliseconds.
3. **Enhanced location processor** (`module EnhancedProcessor`). This is an accuracy gate with an indoor and an outdoor threshold, followed by:
   - exponential smoothing towards the newest accepted fix;
   - a drift test;
   - a history of the five newest accepted fixes.

   The two thresholds interact so that an indoor fix is always rejected.
4. **Diagnostic log** (`module Logging`). This is an in-memory list of formatted entries that keeps the newest 1000. The rule it shares with the processor's history (append, then drop the front when over capacity) lives in `module BoundedFifo`.
5. **Tracking service state machine** (`module Service`). It covers:
   - the counters for first-fix acquisition and consecutive signal loss, and the reaction each event chooses (search, network fallback, error path, recovery);
   - the case-insensitive classification of the provider;
   - the update intervals of foreground and background mode;
   - the wake-lock held flag.

   Each handler returns, in order, the platform actions it would trigger (notifications, broadcasts, timeouts, request changes).

`module Locations` holds the fix record shared by all of them.

Each part that updates state in place is a class. Its fields are the source's fields, and its methods have `modifies` clauses. Each method is proved equal to a pure step function of the old state. The properties are lemmas about those step functions.

Modelling choices that apply throughout:
- Float and Double values are modelled as mathematical reals.
- The geodesic `Location.distanceTo` is a function parameter (`DistanceFn`).
- The platform square root is a parameter of the filter, assumed only to return the non-negative root of non-negative reals.

Three behaviours of the code worth noting:
- An outlier step is not dropped entirely. The rejected fix still becomes the previous fix for the next step (LocationRepository.kt:96).
- `processLocation` returns the filtered fix, or none for a mock fix, together with the total. It returns no separate "accepted" flag.
- A fix with the same timestamp as the previous one has speed 0, so it never adds distance.

## Model

| member | source | states |
|---|---|---|
| Locations.WithEstimate | android/src/main/kotlin/com/harmonyloop/location_tracker/KalmanFilter.kt:48-53 | the returned fix is the input fix with only latitude, longitude and accuracy replaced, and its accuracy is marked present |
| Locations.WithCoordinates | android/src/main/kotlin/com/harmonyloop/location_tracker/localDatabase.kt:645-651 | the smoothed copy differs from the input fix in latitude and longitude only |
| BoundedFifo.PushBounded | android/src/main/kotlin/com/harmonyloop/location_tracker/LogHelper.kt:22-26 | appending within capacity keeps the length at most the capacity; below capacity nothing is dropped; at capacity exactly the front element goes; the new element is always last |
| BoundedFifo.PushAllIsWindow | android/src/main/kotlin/com/harmonyloop/location_tracker/LogHelper.kt:17-27 | any run of appends leaves exactly the newest `cap` elements of everything seen, in arrival order, and never more than `cap` |
| Kalman.ElapsedSeconds | android/src/main/kotlin/com/harmonyloop/location_tracker/KalmanFilter.kt:30 | the elapsed time is the true elapsed time when that is at least 1 ms, and exactly 1 ms otherwise (including a clock that went backwards) |
| Kalman.Step | android/src/main/kotlin/com/harmonyloop/location_tracker/KalmanFilter.kt:19-54 | the returned fix is the input fix carrying the new estimate; the stored timestamp becomes the fix time and the process noise is untouched |
| Kalman.ResetState | android/src/main/kotlin/com/harmonyloop/location_tracker/KalmanFilter.kt:59-61 | reset only puts the variance back to the uninitialised sentinel; all other fields are untouched and the state is consistent |
| Kalman.WithProcessNoise | android/src/main/kotlin/com/harmonyloop/location_tracker/KalmanFilter.kt:66-68 | only the process noise changes |
| Kalman.FirstFixPassesThrough | android/src/main/kotlin/com/harmonyloop/location_tracker/KalmanFilter.kt:22-28 | an uninitialised filter returns the measurement unchanged, stores variance = accuracy squared and the fix time, and is initialised afterwards |
| Kalman.PredictionGrowsVariance | android/src/main/kotlin/com/harmonyloop/location_tracker/KalmanFilter.kt:30-34 | prediction adds at least 0.001 times the squared process noise to the variance |
| Kalman.GainAlwaysDefinedAtDefaultNoise | android/src/main/kotlin/com/harmonyloop/location_tracker/KalmanFilter.kt:6-7 | at the default process noise 3.0 the gain's denominator is never zero, for any consistent state and any fix |
| Kalman.GainIsConvexWeight | android/src/main/kotlin/com/harmonyloop/location_tracker/KalmanFilter.kt:37 | for a non-negative predicted variance the gain lies in [0, 1] |
| Kalman.ConvexCombinationBetween | android/src/main/kotlin/com/harmonyloop/location_tracker/KalmanFilter.kt:40-41 | moving an estimate towards a measurement by a fraction in [0, 1] lands between the two |
| Kalman.EstimateLiesBetween | android/src/main/kotlin/com/harmonyloop/location_tracker/KalmanFilter.kt:37-41 | after an update each coordinate lies between the previous estimate and the measurement |
| Kalman.VarianceShrinksToPrediction | android/src/main/kotlin/com/harmonyloop/location_tracker/KalmanFilter.kt:34-45 | after an update the variance is non-negative and at most the predicted variance |
| Kalman.AccuracySquaredIsVariance | android/src/main/kotlin/com/harmonyloop/location_tracker/KalmanFilter.kt:42-45 | the returned accuracy squared equals the stored variance, on the first fix and on every later one |
| Kalman.StepKeepsConsistent | android/src/main/kotlin/com/harmonyloop/location_tracker/KalmanFilter.kt:13-46 | `process` keeps the invariant: variance is the sentinel or non-negative, and accuracy squared is the variance once initialised |
| Kalman.ResetForgetsHistory | android/src/main/kotlin/com/harmonyloop/location_tracker/KalmanFilter.kt:59-61 | after a reset the next fix is handled exactly as by a new filter with the same process noise |
| Kalman.KalmanFilter.constructor | android/src/main/kotlin/com/harmonyloop/location_tracker/KalmanFilter.kt:6-13 | a new filter has process noise as given (3.0 by default), estimate (0, 0), accuracy 1 and the uninitialised sentinel |
| Kalman.KalmanFilter.Process | android/src/main/kotlin/com/harmonyloop/location_tracker/KalmanFilter.kt:19-54 | updates the fields in place and returns the fix exactly as the filter step prescribes, keeping the invariant |
| Kalman.KalmanFilter.Reset | android/src/main/kotlin/com/harmonyloop/location_tracker/KalmanFilter.kt:59-61 | only the variance is reset, and the invariant is kept |
| Kalman.KalmanFilter.SetProcessNoise | android/src/main/kotlin/com/harmonyloop/location_tracker/KalmanFilter.kt:66-68 | only the process noise changes, and the invariant is kept |
| Repository.Speed | android/src/main/kotlin/com/harmonyloop/location_tracker/LocationRepository.kt:65 | speed is 0 unless time moved forward, and then speed times elapsed seconds is the distance |
| Repository.ResetDaily | android/src/main/kotlin/com/harmonyloop/location_tracker/LocationRepository.kt:141-146 | the daily reset leaves total 0, no previous fix, status STATIONARY and no stationary time |
| Repository.MockFixIgnored | android/src/main/kotlin/com/harmonyloop/location_tracker/LocationRepository.kt:53-58 | a mock fix returns no fix and changes neither the accumulator nor the Kalman filter |
| Repository.FilteredFixHasAccuracy | android/src/main/kotlin/com/harmonyloop/location_tracker/LocationRepository.kt:60-70 | every non-mock fix is returned filtered, carries an accuracy and becomes the previous fix |
| Repository.FirstFixIsBaseline | android/src/main/kotlin/com/harmonyloop/location_tracker/LocationRepository.kt:62-96 | without a previous fix only the previous fix changes |
| Repository.OutlierKeepsProgress | android/src/main/kotlin/com/harmonyloop/location_tracker/LocationRepository.kt:68-93 | an outlier (1000 m or more, or faster than 200 km/h) changes neither total, status nor stationary time, but still replaces the previous fix |
| Repository.TotalGrowsIffStepCounts | android/src/main/kotlin/com/harmonyloop/location_tracker/LocationRepository.kt:68-73 | the total grows by exactly the step distance iff the outlier gate and `shouldAccumulate` both pass, and never decreases |
| Repository.CountedStepIsMoving | android/src/main/kotlin/com/harmonyloop/location_tracker/LocationRepository.kt:70-73 | a counted step sets MOVING and clears the stationary time |
| Repository.StationaryIncrementIsElapsed | android/src/main/kotlin/com/harmonyloop/location_tracker/LocationRepository.kt:83 | over the reals, converting the elapsed seconds back to Long gives exactly the elapsed milliseconds, negative ones included |
| Repository.StillStepAddsElapsed | android/src/main/kotlin/com/harmonyloop/location_tracker/LocationRepository.kt:81-89 | a plausible step that does not count adds the elapsed milliseconds to the stationary time, and the status is PAUSED iff that exceeds 300000 ms, STATIONARY otherwise |
| Repository.NoElapsedTimeNoDistance | android/src/main/kotlin/com/harmonyloop/location_tracker/LocationRepository.kt:64-65 | a fix not later than the previous one never adds distance |
| Repository.ProcessNeverDecreasesTotal | android/src/main/kotlin/com/harmonyloop/location_tracker/LocationRepository.kt:53-98 | `processLocation` never decreases the total, mock or not |
| Repository.ResetThenProcessIsFresh | android/src/main/kotlin/com/harmonyloop/location_tracker/LocationRepository.kt:141-146 | after the daily reset the next real fix is handled as by a fresh repository with nothing stored |
| Repository.TotalNeverDecreasesOverRun | android/src/main/kotlin/com/harmonyloop/location_tracker/LocationRepository.kt:62-94 | over any run of fixes the total never decreases |
| Repository.StandingStillPauses | android/src/main/kotlin/com/harmonyloop/location_tracker/LocationRepository.kt:81-89 | a run of fixes at one place keeps the total, adds (over the reals) the whole time span to the stationary time and ends PAUSED iff that exceeds five minutes |
| Repository.LocationRepository.constructor | android/src/main/kotlin/com/harmonyloop/location_tracker/LocationRepository.kt:13-18 | a new repository starts STATIONARY with no previous fix, no stationary time, the stored distance and a new filter |
| Repository.LocationRepository.ProcessLocation | android/src/main/kotlin/com/harmonyloop/location_tracker/LocationRepository.kt:53-98 | for every fix, mock or not, updates the accumulator and the owned filter exactly as the accumulator step prescribes and returns the new total; the filter stays at the default process noise, so its gain is always defined |
| Repository.LocationRepository.ResetDailyData | android/src/main/kotlin/com/harmonyloop/location_tracker/LocationRepository.kt:141-146 | clears the accumulator and resets the owned filter |
| Repository.LocationRepository.UpdateTotalDistance | android/src/main/kotlin/com/harmonyloop/location_tracker/LocationRepository.kt:163-166 | only the total changes, to the given value |
| EnhancedProcessor.IndoorNeverReported | android/src/main/kotlin/com/harmonyloop/location_tracker/localDatabase.kt:622-629 | every fix with accuracy above 15 m is rejected; an accepted fix is never indoor, since an indoor fix (above 50 m) always fails its 30 m threshold |
| EnhancedProcessor.ResultMatchesHistory | android/src/main/kotlin/com/harmonyloop/location_tracker/localDatabase.kt:617-640 | every fix sets the last-seen time; a rejection leaves the history unchanged; an accepted fix is appended to the history and is the one returned |
| EnhancedProcessor.SmoothingStaysBetween | android/src/main/kotlin/com/harmonyloop/location_tracker/localDatabase.kt:643-653 | smoothing changes only the coordinates, leaves the fix as it is with no history, and otherwise puts each coordinate between the remembered and the measured one |
| EnhancedProcessor.DriftNeedsSpeedOrJump | android/src/main/kotlin/com/harmonyloop/location_tracker/localDatabase.kt:655-664 | a fix at the remembered place, or a short step no faster than the threshold, is not drift; a jump over 100 m with no time elapsed is |
| EnhancedProcessor.ProcessKeepsWellFormed | android/src/main/kotlin/com/harmonyloop/location_tracker/localDatabase.kt:616-641 | one fix keeps the history at most five entries, each with accuracy at most 15 m |
| EnhancedProcessor.RunKeepsWellFormed | android/src/main/kotlin/com/harmonyloop/location_tracker/localDatabase.kt:666-671 | over any run of fixes the history holds at most five entries, each with accuracy at most 15 m |
| EnhancedProcessor.EnhancedLocationProcessor.constructor | android/src/main/kotlin/com/harmonyloop/location_tracker/localDatabase.kt:612-614 | a new processor has last-seen time 0 and an empty history |
| EnhancedProcessor.EnhancedLocationProcessor.ProcessLocation | android/src/main/kotlin/com/harmonyloop/location_tracker/localDatabase.kt:616-641 | updates the fields in place and returns the result exactly as the processor step prescribes, keeping the history well formed |
| EnhancedProcessor.EnhancedLocationProcessor.AddToRecentLocations | android/src/main/kotlin/com/harmonyloop/location_tracker/localDatabase.kt:666-671 | appends the fix and drops the oldest beyond five |
| Logging.EntryReadsBack | android/src/main/kotlin/com/harmonyloop/location_tracker/LogHelper.kt:19 | an entry is the bracketed timestamp, a space and the message, so both read back from it |
| Logging.EntriesDistinguishMessages | android/src/main/kotlin/com/harmonyloop/location_tracker/LogHelper.kt:31 | same-timestamp entries are equal iff the messages are; an error entry equals a plain entry only for the marked message |
| Logging.PushAtCapacityShifts | android/src/main/kotlin/com/harmonyloop/location_tracker/LogHelper.kt:22-26 | below capacity nothing is removed; at capacity exactly index 0 is removed, the rest move up in order and the new entry is last |
| Logging.LogHelper.constructor | android/src/main/kotlin/com/harmonyloop/location_tracker/LogHelper.kt:14 | the log starts empty |
| Logging.LogHelper.Log | android/src/main/kotlin/com/harmonyloop/location_tracker/LogHelper.kt:17-27 | appends `"[ts] message"` under the 1000-entry trimming rule, keeping at most 1000 entries |
| Logging.LogHelper.LogError | android/src/main/kotlin/com/harmonyloop/location_tracker/LogHelper.kt:29-39 | appends `"[ts] ❌ ERROR: message"` under the same trimming rule |
| Logging.LogHelper.GetLogs | android/src/main/kotlin/com/harmonyloop/location_tracker/LogHelper.kt:41-43 | returns the current entries and changes nothing |
| Logging.LogHelper.ClearLogs | android/src/main/kotlin/com/harmonyloop/location_tracker/LogHelper.kt:45-47 | the log is empty afterwards |
| Service.ContainsIffOccursAt | android/src/main/kotlin/com/harmonyloop/location_tracker/LocationService.kt:264-269 | the case-insensitive substring test holds iff the pattern occurs, ignoring case, at some offset |
| Service.ClassifyIsFirstMatch | android/src/main/kotlin/com/harmonyloop/location_tracker/LocationService.kt:264-269 | the provider is the first of gps, network, fused the name contains, ignoring case, and UNKNOWN otherwise or with no name; PASSIVE is never produced |
| Service.ContainsRespectsFolding | android/src/main/kotlin/com/harmonyloop/location_tracker/LocationService.kt:265-267 | two names whose letters agree up to case contain the same patterns, ignoring case |
| Service.ClassifyIgnoresCase | android/src/main/kotlin/com/harmonyloop/location_tracker/LocationService.kt:264-269 | any two provider names that differ only in the case of their letters are classified alike |
| Service.StartClearsCounters | android/src/main/kotlin/com/harmonyloop/location_tracker/LocationService.kt:474-478 | starting sets waiting and clears both counters |
| Service.StartTrackingWaitsAndHolds | android/src/main/kotlin/com/harmonyloop/location_tracker/LocationService.kt:474-494 | a start clears the counters whatever happens next, and leaves the wake lock held iff the update request was accepted or it was already held |
| Service.SuccessClearsFailures | android/src/main/kotlin/com/harmonyloop/location_tracker/LocationService.kt:259-295 | a success clears the failures and ends the wait with the attempts cleared; the fix is handed on iff its accuracy is at most 50 m; the connected notice iff it was waiting |
| Service.OnlyAccurateFixesReachAccumulator | android/src/main/kotlin/com/harmonyloop/location_tracker/LocationService.kt:288-294 | a fix reaches distance processing iff it carries an accuracy of at most 50 m |
| Service.LossCountsOneFailure | android/src/main/kotlin/com/harmonyloop/location_tracker/LocationService.kt:301-336 | a loss adds exactly one failure; while waiting one attempt and the attempt's reaction; otherwise recovery iff failures reach 3; always broadcast unavailable |
| Service.WaitingReactionByAttempt | android/src/main/kotlin/com/harmonyloop/location_tracker/LocationService.kt:310-322 | attempts 1-2 search, 3-5 try the network, 6 and later take the error path |
| Service.RestoreClearsFailures | android/src/main/kotlin/com/harmonyloop/location_tracker/LocationService.kt:337-350 | restored availability clears the failures and nothing else; the restored notice iff there were failures and tracking had started |
| Service.EventsKeepSane | android/src/main/kotlin/com/harmonyloop/location_tracker/LocationService.kt:300-352 | start, success and availability keep the counters non-negative with attempts 0 unless waiting |
| Service.LossesWhileWaiting | android/src/main/kotlin/com/harmonyloop/location_tracker/LocationService.kt:301-306 | n losses after a start leave exactly n attempts and n failures |
| Service.NthLossAfterStart | android/src/main/kotlin/com/harmonyloop/location_tracker/LocationService.kt:310-322 | after a start the n-th consecutive loss reacts by n's range |
| Service.LossesWhileTracking | android/src/main/kotlin/com/harmonyloop/location_tracker/LocationService.kt:301-303 | n losses after the first fix leave n failures and no attempts |
| Service.RecoveryFromThirdLoss | android/src/main/kotlin/com/harmonyloop/location_tracker/LocationService.kt:324-334 | after a success the n-th consecutive loss starts recovery iff n is at least 3 |
| Service.RequestFollowsMode | android/src/main/kotlin/com/harmonyloop/location_tracker/LocationService.kt:216-224 | background requests 30000/15000 ms, foreground 8000/4000 ms, the maximum delay is twice the interval |
| Service.AcquireIsIdempotent | android/src/main/kotlin/com/harmonyloop/location_tracker/LocationService.kt:741-755 | acquiring creates the lock, sets the held flag, and calls the platform only when the flag was clear |
| Service.ReleaseUndoesAcquire | android/src/main/kotlin/com/harmonyloop/location_tracker/LocationService.kt:757-769 | a release after an acquire clears the flag iff the platform still holds the lock, and then the next acquire calls the platform again |
| Service.StartedUpdatesHoldLock | android/src/main/kotlin/com/harmonyloop/location_tracker/LocationService.kt:499-543 | only an accepted update request acquires the wake lock (calling the platform only when the flag was clear); every refusal shows one notice and leaves the lock alone |
| Service.ExpiredLockNeverRetaken | android/src/main/kotlin/com/harmonyloop/location_tracker/LocationService.kt:741-769 | a lock the service believes held but the platform let expire after its ten-minute timeout is neither released nor acquired again |
| Service.BackgroundModeSwitches | android/src/main/kotlin/com/harmonyloop/location_tracker/LocationService.kt:716-728 | an unchanged mode does nothing; a change records the mode and, once updates are set up, removes the updates, installs the new mode's request and restarts; the lock is held afterwards iff the restart was accepted or the lock could not be released, and an expired lock stays flagged held without being taken again |
| Service.LocationService.constructor | android/src/main/kotlin/com/harmonyloop/location_tracker/LocationService.kt:28-41 | a new service waits for its first fix with both counters 0, foreground mode, no client and no wake lock |
| Service.LocationService.StartLocationTracking | android/src/main/kotlin/com/harmonyloop/location_tracker/LocationService.kt:474-494 | updates the counters and the wake lock exactly as a start with the given outcome prescribes, and nothing else |
| Service.LocationService.StartLocationUpdates | android/src/main/kotlin/com/harmonyloop/location_tracker/LocationService.kt:499-543 | changes only the wake-lock fields, exactly as starting updates with the given outcome prescribes |
| Service.LocationService.HandleLocationSuccess | android/src/main/kotlin/com/harmonyloop/location_tracker/LocationService.kt:259-295 | updates the counters and provider as the success event prescribes and nothing else |
| Service.LocationService.HandleLocationAvailability | android/src/main/kotlin/com/harmonyloop/location_tracker/LocationService.kt:300-352 | updates the counters as the availability event prescribes and nothing else, keeping them sane |
| Service.LocationService.SetupLocationUpdates | android/src/main/kotlin/com/harmonyloop/location_tracker/LocationService.kt:213-231 | marks the client ready and installs the request for the current mode |
| Service.LocationService.SetBackgroundMode | android/src/main/kotlin/com/harmonyloop/location_tracker/LocationService.kt:716-728 | changes the service exactly as the mode switch prescribes |
| Service.LocationService.AcquireWakeLock | android/src/main/kotlin/com/harmonyloop/location_tracker/LocationService.kt:741-755 | changes the wake-lock fields exactly as acquiring prescribes and nothing else |
| Service.LocationService.ReleaseWakeLock | android/src/main/kotlin/com/harmonyloop/location_tracker/LocationService.kt:757-769 | changes the wake-lock fields exactly as releasing prescribes and nothing else |

These simple readers carry no contract of their own and have no row. Each returns its field or compares the status.
- `Repository.LocationRepository.GetTotalDistanceToday`, `GetTrackingStatus`, `IsMoving` and `IsPaused` (LocationRepository.kt:154-160).
- The step functions the methods are proved against: `Repository.Accumulate`, `Repository.ProcessLocationSpec`, `EnhancedProcessor.ProcessSpec`, `Service.OnStart`, `Service.StartUpdates`, `Service.StartTracking`, `Service.OnSuccess`, `Service.OnAvailability`, `Service.SetBackground`, `Service.Acquire` and `Service.Release`.

## Left out

- Arithmetic is over reals, not IEEE Float or Double. Rounding, NaN and infinities are not modelled. In particular, `0.7` and `1 - 0.7` in the smoothing are exact here.
- Kalman.KalmanFilter.Process: requires the gain's denominator to be non-zero (`GainDefined`). That denominator is the predicted variance plus the squared accuracy, and it is zero only when the variance, the process noise and the accuracy are all zero. In that case the source divides 0 by 0 and stores NaN, which the model does not represent. The repository's own filter always has process noise 3.0, so this case never arises there (`Kalman.GainAlwaysDefinedAtDefaultNoise`).
- The platform `sqrt` is a parameter. The model only knows that it returns the non-negative square root of a non-negative argument.
- `Location.distanceTo` (the ellipsoidal geodesic distance) is a parameter of the accumulator and the processor. It is not re-derived.
- Long arithmetic is not bounded. 64-bit overflow of times and of `stationaryTime`, and the saturation of `Double.toLong()`, are not modelled.
- Service.ContainsIgnoreCase: case folding is ASCII-only. Kotlin's `ignoreCase` also matches some non-ASCII characters (for example U+017F LATIN SMALL LETTER LONG S against `s`), so a provider name containing such characters may be classified differently.
- Persistence is not modelled:
  - the `DistanceStorage` load and save calls and `saveLocationToDatabase`. The constructor takes the stored distance as a parameter. DistanceStorage is not part of this model.
  - `loadLastKnownLocation`, which only logs.
- `getStatistics` is not modelled, because its `isTracking` entry is process-wide static state. Its other entries are the fields the getters read.
- The repository singleton (`instance`, `getInstance` and the static `isTracking`) and the thread safety of the log's copy-on-write list are not modelled. The model is one sequential instance of each class.
- Logging side effects are not modelled:
  - `Log.d`/`Log.w`/`Log.e` output;
  - every `LogHelper.log` call made from the other classes;
  - the stale-signal warning of the enhanced processor (a fix more than 30 s after the previous one), which only logs.
- `SimpleDateFormat` timestamps are a parameter of `Log` and `LogError`.
- `exportLogsToFile` is not modelled (file I/O).
- The clock is not modelled. `System.currentTimeMillis()`, `gpsAcquisitionStartTime` and `lastLocationTime` in the service only feed log messages.
- Repository.StationaryIncrementIsElapsed: exact only over the reals. In Double arithmetic `(timeDelta * 1000).toLong()` can lose a millisecond per step (an elapsed 1001 ms gives 1000.9999999999999, truncated to 1000), so the real stationary time can fall short of the elapsed time by up to 1 ms per still step. `Repository.StandingStillPauses` inherits this.
- Exceptions are not modelled, except those of the update request in `startLocationUpdates` (`Service.StartOutcome`). In particular, a platform wake-lock call that throws is not represented: the held flag changes as if the call succeeded.
- Platform calls whose branching lies outside the state machine are emitted as actions, not modelled: `handleLocationError` (permission and settings checks), `tryNetworkLocationFallback`, `tryGetLastKnownLocation`, `attemptLocationRecovery`, the acquisition timeout runnable and the broadcasts.
- `startLocationUpdates` is modelled through the platform's answer (`Service.StartOutcome`): missing permissions, location disabled, a request that throws, or an accepted request. Its "No location providers available" branch is not modelled: it can never run, because `isLocationEnabled` has already required GPS or network to be enabled. The diagnostics it collects only feed a log message.
- `handleNewLocation` is not modelled as one member. Its accuracy gate is `Service.PassesNewLocationGate`, and the repository call it makes is `Repository.LocationRepository.ProcessLocation`. These are two separate members, and the call from one to the other is not modelled. Two of its parts are not modelled: the status text built from the incremental distance, and the `lastLocation` update.
- Notifications, channels, pending intents, permissions, the settings client and the `onCreate`/`onStartCommand`/`onDestroy` lifecycle are not modelled.
