/** The foreground tracking service's own state machine (LocationService.kt): the counters
    that follow GPS acquisition and signal loss, the reaction each event chooses, the
    classification of a fix's provider, the update intervals of the two modes and the
    wake-lock flag. Notifications, broadcasts, timeouts and platform requests are not
    performed here: each handler returns the platform actions it would trigger, in order. */
module Service {
  import opened Locations

  datatype LocationProvider = Gps | Network | Passive | Fused | Unknown

  const MAX_LOCATION_ACCURACY_M: real := 50.0
  const FOREGROUND_UPDATE_INTERVAL_MS: int := 8000
  const FOREGROUND_MIN_UPDATE_INTERVAL_MS: int := 4000
  const BACKGROUND_UPDATE_INTERVAL_MS: int := 30000
  const BACKGROUND_MIN_UPDATE_INTERVAL_MS: int := 15000
  /** `setMinUpdateDistanceMeters(0.5f)`. */
  const MIN_UPDATE_DISTANCE_M: real := 0.5
  const MAX_INITIAL_ATTEMPTS: int := 5
  /** While waiting for the first fix, losses up to this many only report the search. */
  const SEARCH_ATTEMPTS: int := 2
  const MAX_CONSECUTIVE_FAILURES: int := 3

  /** The status lines the service shows. */
  datatype Notice =
    | StartingAcquisition      // "Starting GPS acquisition..."
    | GpsConnected             // "GPS connected - tracking active"
    | ImprovingAccuracy        // "Improving GPS accuracy..."
    | SearchingSignal          // "Searching for GPS signal..."
    | WeakTryingNetwork        // "GPS signal weak - trying network location..."
    | LostAttemptingRecovery   // "GPS connection lost - attempting recovery..."
    | WeakReconnecting         // "GPS signal weak - reconnecting..."
    | SignalRestored           // "GPS signal restored"
    | PermissionsRequired      // "Location permissions required"
    | EnableLocationServices   // "Enable location services"
    | PermissionDenied         // "Location permission denied"
    | ServiceError             // "Location service error"

  /** The platform work a handler triggers. */
  datatype Action =
    | Notify(notice: Notice)
    | ScheduleAcquisitionTimeout
    | CancelAcquisitionTimeout
    | RequestLocationUpdates
    | RemoveLocationUpdates
    | HandleNewLocation(location: Location)
    | TryLastKnownLocation
    | TryNetworkLocationFallback
    | HandleLocationError
    | AttemptLocationRecovery
    | BroadcastAvailability(isAvailable: bool)
    | AcquirePlatformWakeLock
    | ReleasePlatformWakeLock

  /** ASCII case folding: upper-case letters map to lower case, everything else to itself. */
  function Fold(c: char): char {
    if 'A' <= c <= 'Z' then (c as int + 32) as char else c
  }

  /** `s` begins with `p`, ignoring case. */
  predicate StartsWithIgnoreCase(s: string, p: string) {
    |p| <= |s| && forall i :: 0 <= i < |p| ==> Fold(s[i]) == Fold(p[i])
  }

  /** `s.contains(p, ignoreCase = true)`, scanning from the front. */
  predicate ContainsIgnoreCase(s: string, p: string)
    decreases |s|
  {
    StartsWithIgnoreCase(s, p) || (|s| > 0 && ContainsIgnoreCase(s[1..], p))
  }

  /** The scan finds `p` iff it occurs at some offset. */
  lemma {:induction false} ContainsIffOccursAt(s: string, p: string)
    ensures ContainsIgnoreCase(s, p) <==>
            exists k :: 0 <= k <= |s| - |p| && StartsWithIgnoreCase(s[k..], p)
    decreases |s|
  {
    assert s[0..] == s;
    if |s| > 0 {
      ContainsIffOccursAt(s[1..], p);
      if ContainsIgnoreCase(s[1..], p) {
        var k :| 0 <= k <= |s[1..]| - |p| && StartsWithIgnoreCase(s[1..][k..], p);
        assert s[1..][k..] == s[k + 1..];
      }
      if k :| 0 <= k <= |s| - |p| && StartsWithIgnoreCase(s[k..], p) {
        if k > 0 {
          assert s[1..][k - 1..] == s[k..];
        }
      }
    } else {
      if k :| 0 <= k <= |s| - |p| && StartsWithIgnoreCase(s[k..], p) {
        assert s[k..] == s;
      }
    }
  }

  /** The provider of a fix: the first of "gps", "network", "fused" its name contains,
      ignoring case; Unknown for a missing or any other name. */
  function Classify(provider: Option<string>): LocationProvider {
    if provider.Some? && ContainsIgnoreCase(provider.value, "gps") then Gps
    else if provider.Some? && ContainsIgnoreCase(provider.value, "network") then Network
    else if provider.Some? && ContainsIgnoreCase(provider.value, "fused") then Fused
    else Unknown
  }

  /** Classification is a first match in the order gps, network, fused, and it never
      yields Passive, whatever the provider's name. */
  lemma ClassifyIsFirstMatch(provider: Option<string>)
    ensures Classify(provider) != Passive
    ensures provider == None ==> Classify(provider) == Unknown
    ensures provider.Some? ==> var name := provider.value;
      && (Classify(provider) == Gps <==> ContainsIgnoreCase(name, "gps"))
      && (Classify(provider) == Network <==>
            !ContainsIgnoreCase(name, "gps") && ContainsIgnoreCase(name, "network"))
      && (Classify(provider) == Fused <==>
            !ContainsIgnoreCase(name, "gps") && !ContainsIgnoreCase(name, "network")
            && ContainsIgnoreCase(name, "fused"))
      && (Classify(provider) == Unknown <==>
            !ContainsIgnoreCase(name, "gps") && !ContainsIgnoreCase(name, "network")
            && !ContainsIgnoreCase(name, "fused"))
  {
  }

  /** Two names that fold to the same letters contain the same patterns. */
  lemma {:induction false} ContainsRespectsFolding(a: string, b: string, p: string)
    requires |a| == |b| && forall i :: 0 <= i < |a| ==> Fold(a[i]) == Fold(b[i])
    ensures ContainsIgnoreCase(a, p) <==> ContainsIgnoreCase(b, p)
    decreases |a|
  {
    assert StartsWithIgnoreCase(a, p) <==> StartsWithIgnoreCase(b, p);
    if |a| > 0 {
      ContainsRespectsFolding(a[1..], b[1..], p);
    }
  }

  /** Case does not matter: names that differ only in the case of their letters are
      classified alike. */
  lemma ClassifyIgnoresCase(a: string, b: string)
    requires |a| == |b| && forall i :: 0 <= i < |a| ==> Fold(a[i]) == Fold(b[i])
    ensures Classify(Some(a)) == Classify(Some(b))
  {
    ContainsRespectsFolding(a, b, "gps");
    ContainsRespectsFolding(a, b, "network");
    ContainsRespectsFolding(a, b, "fused");
  }

  /** The acquisition counters and the provider of the newest fix. */
  datatype AcquisitionState = AcquisitionState(
    waiting: bool,
    attempts: int,
    failures: int,
    provider: LocationProvider)

  /** The counters are never negative, and attempts are only counted while waiting for
      the first fix. */
  predicate Sane(a: AcquisitionState) {
    a.attempts >= 0 && a.failures >= 0 && (!a.waiting ==> a.attempts == 0)
  }

  /** `startLocationTracking` up to its call of `startLocationUpdates`: wait for a first
      fix with both counters cleared. */
  function OnStart(a: AcquisitionState): (AcquisitionState, seq<Action>) {
    (a.(waiting := true, attempts := 0, failures := 0),
     [Notify(StartingAcquisition), ScheduleAcquisitionTimeout])
  }

  /** `handleLocationSuccess`. */
  function OnSuccess(a: AcquisitionState, location: Location): (AcquisitionState, seq<Action>) {
    var a1 := a.(failures := 0, provider := Classify(location.provider));
    var a2 := if a.waiting then a1.(waiting := false, attempts := 0) else a1;
    var connected := if a.waiting then [CancelAcquisitionTimeout, Notify(GpsConnected)] else [];
    var quality :=
      if location.accuracy <= MAX_LOCATION_ACCURACY_M then [HandleNewLocation(location)]
      else [Notify(ImprovingAccuracy)];
    (a2, connected + quality)
  }

  /** What a loss does while still waiting for the first fix, by attempt number. */
  function ReactionWhileWaiting(attempts: int): seq<Action> {
    if attempts <= SEARCH_ATTEMPTS then [Notify(SearchingSignal)]
    else if attempts <= MAX_INITIAL_ATTEMPTS then
      [Notify(WeakTryingNetwork), TryNetworkLocationFallback]
    else [HandleLocationError]
  }

  /** What a loss does once tracking has started, by the number of consecutive failures. */
  function ReactionWhileTracking(failures: int): seq<Action> {
    if failures >= MAX_CONSECUTIVE_FAILURES then
      [Notify(LostAttemptingRecovery), AttemptLocationRecovery]
    else [Notify(WeakReconnecting)]
  }

  /** `handleLocationAvailability`. */
  function OnAvailability(a: AcquisitionState, available: bool): (AcquisitionState, seq<Action>) {
    if !available then
      var failed := a.(failures := a.failures + 1);
      if a.waiting then
        var attempted := failed.(attempts := a.attempts + 1);
        (attempted, ReactionWhileWaiting(attempted.attempts) + [BroadcastAvailability(false)])
      else (failed, ReactionWhileTracking(failed.failures) + [BroadcastAvailability(false)])
    else if a.failures > 0 then
      (a.(failures := 0),
       (if !a.waiting then [Notify(SignalRestored)] else []) + [BroadcastAvailability(true)])
    else (a, [BroadcastAvailability(true)])
  }

  /** After a start the service waits for a first fix with both counters at zero. */
  lemma StartClearsCounters(a: AcquisitionState)
    ensures var a' := OnStart(a).0;
      a'.waiting && a'.attempts == 0 && a'.failures == 0 && Sane(a') && a'.provider == a.provider
  {
  }

  /** A successful fix clears the failures and ends the wait (clearing the attempts), and
      it is handed on for processing iff its accuracy is at most 50 m. */
  lemma SuccessClearsFailures(a: AcquisitionState, location: Location)
    ensures var (a', actions) := OnSuccess(a, location);
      && a'.failures == 0 && !a'.waiting
      && a'.attempts == (if a.waiting then 0 else a.attempts)
      && a'.provider == Classify(location.provider)
      && (HandleNewLocation(location) in actions <==> location.accuracy <= MAX_LOCATION_ACCURACY_M)
      && (Notify(GpsConnected) in actions <==> a.waiting)
  {
  }

  /** `handleNewLocation`'s own gate: a fix without an accuracy or with one above 50 m
      returns before reaching the distance accumulator. */
  predicate PassesNewLocationGate(location: Location) {
    location.hasAccuracy && location.accuracy <= MAX_LOCATION_ACCURACY_M
  }

  /** Only fixes that carry an accuracy of at most 50 m reach the distance accumulator. */
  lemma OnlyAccurateFixesReachAccumulator(a: AcquisitionState, location: Location)
    ensures (HandleNewLocation(location) in OnSuccess(a, location).1
             && PassesNewLocationGate(location))
        <==> (location.hasAccuracy && location.accuracy <= MAX_LOCATION_ACCURACY_M)
  {
  }

  /** A loss counts exactly one more failure; while waiting it counts one more attempt and
      reacts by the attempt number, otherwise the attempts stay and recovery starts only
      at the third consecutive failure. Availability is always broadcast as false. */
  lemma LossCountsOneFailure(a: AcquisitionState)
    ensures var (a', actions) := OnAvailability(a, false);
      && a'.failures == a.failures + 1 && a'.waiting == a.waiting
      && actions[|actions| - 1] == BroadcastAvailability(false)
      && (a.waiting ==> a'.attempts == a.attempts + 1
                        && actions == ReactionWhileWaiting(a'.attempts) + [BroadcastAvailability(false)])
      && (!a.waiting ==> a'.attempts == a.attempts
                         && (AttemptLocationRecovery in actions <==> a'.failures >= MAX_CONSECUTIVE_FAILURES))
  {
  }

  /** While waiting: the first two attempts only search, the third to fifth also try the
      network, and from the sixth on the error path runs; the three never overlap. */
  lemma WaitingReactionByAttempt(attempts: int)
    ensures Notify(SearchingSignal) in ReactionWhileWaiting(attempts) <==> attempts <= 2
    ensures (TryNetworkLocationFallback in ReactionWhileWaiting(attempts)) <==> 3 <= attempts <= 5
    ensures HandleLocationError in ReactionWhileWaiting(attempts) <==> attempts > 5
  {
  }

  /** Restored availability clears the failures and touches nothing else; the restored
      notice is shown iff there were failures and the first fix was already in. */
  lemma RestoreClearsFailures(a: AcquisitionState)
    requires a.failures >= 0
    ensures var (a', actions) := OnAvailability(a, true);
      && a' == a.(failures := 0)
      && (Notify(SignalRestored) in actions <==> a.failures > 0 && !a.waiting)
      && actions[|actions| - 1] == BroadcastAvailability(true)
  {
  }

  /** Every event keeps the counters sane. */
  lemma EventsKeepSane(a: AcquisitionState, location: Location, available: bool)
    requires Sane(a)
    ensures Sane(OnStart(a).0)
    ensures Sane(OnSuccess(a, location).0)
    ensures Sane(OnAvailability(a, available).0)
  {
  }

  /** `n` losses in a row. */
  function Losses(a: AcquisitionState, n: nat): AcquisitionState {
    if n == 0 then a else OnAvailability(Losses(a, n - 1), false).0
  }

  /** From a waiting state with both counters cleared, `n` losses in a row leave exactly
      `n` attempts and `n` failures. */
  lemma {:induction false} LossesWhileWaiting(a: AcquisitionState, n: nat)
    requires a.waiting && a.attempts == 0 && a.failures == 0
    ensures Losses(a, n) == a.(attempts := n, failures := n)
  {
    if n > 0 {
      LossesWhileWaiting(a, n - 1);
    }
  }

  /** After a start, the n-th consecutive loss searches for n <= 2, tries the network for
      3 <= n <= 5 and takes the error path from n = 6 on. */
  lemma NthLossAfterStart(a: AcquisitionState, n: nat)
    requires 1 <= n
    ensures var started := OnStart(a).0;
      OnAvailability(Losses(started, n - 1), false).1
        == ReactionWhileWaiting(n) + [BroadcastAvailability(false)]
  {
    var started := OnStart(a).0;
    LossesWhileWaiting(started, n - 1);
    var before := Losses(started, n - 1);
    assert before.waiting && before.attempts == n - 1;
  }

  /** Once the first fix is in and failures are cleared, `n` losses in a row leave
      exactly `n` failures and no attempts. */
  lemma {:induction false} LossesWhileTracking(a: AcquisitionState, n: nat)
    requires !a.waiting && a.failures == 0
    ensures Losses(a, n) == a.(failures := n)
  {
    if n > 0 {
      LossesWhileTracking(a, n - 1);
    }
  }

  /** After a successful fix, the n-th consecutive loss starts recovery iff n >= 3. */
  lemma RecoveryFromThirdLoss(a: AcquisitionState, location: Location, n: nat)
    requires 1 <= n
    ensures var tracking := OnSuccess(a, location).0;
      (AttemptLocationRecovery in OnAvailability(Losses(tracking, n - 1), false).1)
        <==> n >= MAX_CONSECUTIVE_FAILURES
  {
    var tracking := OnSuccess(a, location).0;
    LossesWhileTracking(tracking, n - 1);
    var before := Losses(tracking, n - 1);
    assert before.failures == n - 1 && !before.waiting;
    assert OnAvailability(before, false).1
        == ReactionWhileTracking(n) + [BroadcastAvailability(false)];
  }

  /** The request `setupLocationUpdates` builds (the fields the core chooses). */
  datatype LocationRequest = LocationRequest(
    intervalMs: int, minUpdateIntervalMs: int, maxUpdateDelayMs: int, minUpdateDistanceM: real)

  function UpdateInterval(background: bool): int {
    if background then BACKGROUND_UPDATE_INTERVAL_MS else FOREGROUND_UPDATE_INTERVAL_MS
  }

  function MinUpdateInterval(background: bool): int {
    if background then BACKGROUND_MIN_UPDATE_INTERVAL_MS else FOREGROUND_MIN_UPDATE_INTERVAL_MS
  }

  function RequestFor(background: bool): LocationRequest {
    var interval := UpdateInterval(background);
    LocationRequest(interval, MinUpdateInterval(background), interval * 2, MIN_UPDATE_DISTANCE_M)
  }

  /** Background updates are less frequent than foreground ones; in both modes the
      fastest rate is twice the requested one and the longest batching delay twice the
      interval. */
  lemma RequestFollowsMode(background: bool)
    ensures var r := RequestFor(background);
      && r.intervalMs == (if background then 30000 else 8000)
      && r.minUpdateIntervalMs == (if background then 15000 else 4000)
      && r.minUpdateIntervalMs * 2 == r.intervalMs
      && r.maxUpdateDelayMs == 2 * r.intervalMs
      && RequestFor(true).intervalMs > RequestFor(false).intervalMs
  {
  }

  /** The wake lock: whether it has been created and whether the service holds it. */
  datatype WakeLockState = WakeLockState(created: bool, held: bool)

  /** `acquireWakeLock`: create the lock when missing; acquire only when not held. */
  function Acquire(w: WakeLockState): (WakeLockState, seq<Action>) {
    if !w.held then (WakeLockState(true, true), [AcquirePlatformWakeLock])
    else (w.(created := true), [])
  }

  /** `releaseWakeLock`: release only when the service holds the lock and the platform
      still reports it held. */
  function Release(w: WakeLockState, platformHeld: bool): (WakeLockState, seq<Action>) {
    if w.created && w.held && platformHeld then (w.(held := false), [ReleasePlatformWakeLock])
    else (w, [])
  }

  /** How a call of `startLocationUpdates` goes, as the platform decides it: a permission
      is missing, location is switched off, the update request throws a security or
      another exception, or the request is accepted. */
  datatype StartOutcome =
    | MissingPermissions
    | LocationDisabled
    | RequestDenied
    | RequestFailed
    | Started

  /** `startLocationUpdates`: only an accepted request goes on to acquire the wake lock
      and to ask for the last known fix; every other outcome only shows a notice. */
  function StartUpdates(w: WakeLockState, outcome: StartOutcome): (WakeLockState, seq<Action>) {
    match outcome
    case MissingPermissions => (w, [Notify(PermissionsRequired)])
    case LocationDisabled => (w, [Notify(EnableLocationServices)])
    case RequestDenied => (w, [Notify(PermissionDenied)])
    case RequestFailed => (w, [Notify(ServiceError)])
    case Started =>
      var (w', acquired) := Acquire(w);
      (w', [RequestLocationUpdates] + acquired + [TryLastKnownLocation])
  }

  /** Acquiring is idempotent: a second acquire does not call the platform again. */
  lemma AcquireIsIdempotent(w: WakeLockState)
    ensures var (w1, first) := Acquire(w);
      && w1.created && w1.held
      && (first == [AcquirePlatformWakeLock] <==> !w.held)
      && Acquire(w1) == (w1, [])
  {
  }

  /** A release after an acquire gives the lock back iff the platform still holds it, and
      a released lock is acquired again by the next acquire. */
  lemma ReleaseUndoesAcquire(w: WakeLockState, platformHeld: bool)
    ensures var w1 := Acquire(w).0;
      var (w2, released) := Release(w1, platformHeld);
      && (w2.held <==> !platformHeld)
      && (released == [ReleasePlatformWakeLock] <==> platformHeld)
      && (platformHeld ==> Acquire(w2).1 == [AcquirePlatformWakeLock])
  {
  }

  /** A lock the service believes held but the platform let expire (it is acquired with a
      ten-minute timeout) is neither released nor acquired again: the flag stays set. */
  lemma ExpiredLockNeverRetaken(w: WakeLockState)
    requires w.created && w.held
    ensures Release(w, false) == (w, [])
    ensures Acquire(Release(w, false).0) == (Release(w, false).0, [])
  {
  }

  /** After updates are started the service holds the lock iff the request was accepted
      or it already held it; the platform lock is taken only on an accepted request when
      the service did not hold it. */
  lemma StartedUpdatesHoldLock(w: WakeLockState, outcome: StartOutcome)
    ensures var (w', actions) := StartUpdates(w, outcome);
      && (w'.held <==> outcome == Started || w.held)
      && (outcome != Started ==> w' == w && |actions| == 1 && actions[0].Notify?)
      && (RequestLocationUpdates in actions <==> outcome == Started)
      && (AcquirePlatformWakeLock in actions <==> outcome == Started && !w.held)
  {
  }

  /** The fields of the service this model follows. */
  datatype ServiceState = ServiceState(
    acquisition: AcquisitionState,
    background: bool,
    clientReady: bool,
    request: Option<LocationRequest>,
    wakeLock: WakeLockState)

  /** `setupLocationUpdates`: create the client and build the request for the mode. */
  function Setup(st: ServiceState): ServiceState {
    st.(clientReady := true, request := Some(RequestFor(st.background)))
  }

  /** `startLocationTracking`: the counters are cleared, then updates are started. */
  function StartTracking(st: ServiceState, outcome: StartOutcome): (ServiceState, seq<Action>) {
    var (a, starting) := OnStart(st.acquisition);
    var (w, updates) := StartUpdates(st.wakeLock, outcome);
    (st.(acquisition := a, wakeLock := w), starting + updates)
  }

  /** A start waits for the first fix with cleared counters whatever the outcome, and
      leaves the service holding the wake lock iff the request was accepted or the lock
      was already held. */
  lemma StartTrackingWaitsAndHolds(st: ServiceState, outcome: StartOutcome)
    ensures var (st', actions) := StartTracking(st, outcome);
      && st'.acquisition == OnStart(st.acquisition).0
      && st'.background == st.background && st'.clientReady == st.clientReady
      && st'.request == st.request
      && (st'.wakeLock.held <==> outcome == Started || st.wakeLock.held)
      && actions[..2] == [Notify(StartingAcquisition), ScheduleAcquisitionTimeout]
      && (RequestLocationUpdates in actions <==> outcome == Started)
  {
    StartedUpdatesHoldLock(st.wakeLock, outcome);
  }

  /** `setBackgroundMode`: a change of mode, once the client exists, removes the updates,
      releases the wake lock, builds the request of the new mode and starts updates again;
      no change does nothing. */
  function SetBackground(st: ServiceState, isBackground: bool, platformHeld: bool,
                         outcome: StartOutcome): (ServiceState, seq<Action>)
  {
    if st.background == isBackground then (st, [])
    else
      var switched := st.(background := isBackground);
      if !switched.clientReady then (switched, [])
      else
        var (w, released) := Release(switched.wakeLock, platformHeld);
        var (w', started) := StartUpdates(w, outcome);
        (Setup(switched.(wakeLock := w')), [RemoveLocationUpdates] + released + started)
  }

  /** Setting the mode it already has changes nothing; a change always records the mode,
      and once updates are set up it installs the request of the new mode and holds the
      wake lock afterwards iff the restart was accepted or the lock could not be released.
      A held lock is released and taken again around an accepted restart, but one the
      platform let expire is kept as held without being taken again. */
  lemma BackgroundModeSwitches(st: ServiceState, isBackground: bool, platformHeld: bool,
                               outcome: StartOutcome)
    ensures var (st', actions) := SetBackground(st, isBackground, platformHeld, outcome);
      && (st.background == isBackground ==> st' == st && actions == [])
      && st'.background == isBackground
      && st'.acquisition == st.acquisition
      && (st.background != isBackground && st.clientReady ==>
            && st'.request == Some(RequestFor(isBackground))
            && actions[0] == RemoveLocationUpdates
            && (st'.wakeLock.held <==>
                  outcome == Started
                  || (st.wakeLock.held && !(st.wakeLock.created && platformHeld)))
            && (outcome == Started && st.wakeLock.created && st.wakeLock.held && platformHeld ==>
                  actions == [RemoveLocationUpdates, ReleasePlatformWakeLock,
                              RequestLocationUpdates, AcquirePlatformWakeLock,
                              TryLastKnownLocation])
            && (st.wakeLock.created && st.wakeLock.held && !platformHeld ==>
                  st'.wakeLock.held && AcquirePlatformWakeLock !in actions))
      && (!st.clientReady ==> st'.request == st.request && st'.wakeLock == st.wakeLock
                              && actions == [])
  {
    if st.background != isBackground && st.clientReady {
      var (w, released) := Release(st.wakeLock, platformHeld);
      StartedUpdatesHoldLock(w, outcome);
    }
  }

  /** One service instance. */
  class LocationService {
    var isWaitingForInitialFix: bool
    var initialLocationAttempts: int
    var consecutiveLocationFailures: int
    var currentLocationProvider: LocationProvider
    var isBackgroundMode: bool
    var clientInitialized: bool
    var locationRequest: Option<LocationRequest>
    var hasWakeLock: bool
    var isWakeLockHeld: bool

    ghost function Acquisition(): AcquisitionState
      reads this
    {
      AcquisitionState(isWaitingForInitialFix, initialLocationAttempts,
                       consecutiveLocationFailures, currentLocationProvider)
    }

    ghost function WakeLock(): WakeLockState
      reads this
    {
      WakeLockState(hasWakeLock, isWakeLockHeld)
    }

    ghost function State(): ServiceState
      reads this
    {
      ServiceState(Acquisition(), isBackgroundMode, clientInitialized, locationRequest, WakeLock())
    }

    ghost predicate Valid()
      reads this
    {
      Sane(Acquisition())
    }

    constructor ()
      ensures Valid()
      ensures State() == ServiceState(AcquisitionState(true, 0, 0, Unknown), false, false, None,
                                      WakeLockState(false, false))
    {
      isWaitingForInitialFix := true;
      initialLocationAttempts := 0;
      consecutiveLocationFailures := 0;
      currentLocationProvider := Unknown;
      isBackgroundMode := false;
      clientInitialized := false;
      locationRequest := None;
      hasWakeLock := false;
      isWakeLockHeld := false;
    }

    /** `outcome` is how the platform answers the start of updates. */
    method StartLocationTracking(outcome: StartOutcome) returns (actions: seq<Action>)
      requires Valid()
      modifies this
      ensures Valid()
      ensures (State(), actions) == StartTracking(old(State()), outcome)
    {
      isWaitingForInitialFix := true;
      initialLocationAttempts := 0;
      consecutiveLocationFailures := 0;
      actions := [Notify(StartingAcquisition), ScheduleAcquisitionTimeout];
      var updates := StartLocationUpdates(outcome);
      actions := actions + updates;
    }

    method StartLocationUpdates(outcome: StartOutcome) returns (actions: seq<Action>)
      modifies this
      ensures (WakeLock(), actions) == StartUpdates(old(WakeLock()), outcome)
      ensures State() == old(State()).(wakeLock := WakeLock())
    {
      match outcome {
        case MissingPermissions =>
          actions := [Notify(PermissionsRequired)];
        case LocationDisabled =>
          actions := [Notify(EnableLocationServices)];
        case RequestDenied =>
          actions := [Notify(PermissionDenied)];
        case RequestFailed =>
          actions := [Notify(ServiceError)];
        case Started =>
          var acquired := AcquireWakeLock();
          actions := [RequestLocationUpdates] + acquired + [TryLastKnownLocation];
      }
    }

    method HandleLocationSuccess(location: Location) returns (actions: seq<Action>)
      requires Valid()
      modifies this
      ensures Valid()
      ensures (Acquisition(), actions) == OnSuccess(old(Acquisition()), location)
      ensures State() == old(State()).(acquisition := Acquisition())
    {
      ghost var before := Acquisition();
      consecutiveLocationFailures := 0;
      currentLocationProvider := Classify(location.provider);
      actions := [];
      if isWaitingForInitialFix {
        isWaitingForInitialFix := false;
        initialLocationAttempts := 0;
        actions := actions + [CancelAcquisitionTimeout, Notify(GpsConnected)];
      }
      if location.accuracy <= MAX_LOCATION_ACCURACY_M {
        actions := actions + [HandleNewLocation(location)];
      } else {
        actions := actions + [Notify(ImprovingAccuracy)];
      }
      assert Acquisition() == OnSuccess(before, location).0;
      assert actions == OnSuccess(before, location).1;
    }

    method HandleLocationAvailability(isLocationAvailable: bool) returns (actions: seq<Action>)
      requires Valid()
      modifies this
      ensures Valid()
      ensures (Acquisition(), actions) == OnAvailability(old(Acquisition()), isLocationAvailable)
      ensures State() == old(State()).(acquisition := Acquisition())
    {
      ghost var before := Acquisition();
      actions := [];
      if !isLocationAvailable {
        consecutiveLocationFailures := consecutiveLocationFailures + 1;
        if isWaitingForInitialFix {
          initialLocationAttempts := initialLocationAttempts + 1;
          if initialLocationAttempts <= SEARCH_ATTEMPTS {
            actions := [Notify(SearchingSignal)];
          } else if initialLocationAttempts <= MAX_INITIAL_ATTEMPTS {
            actions := [Notify(WeakTryingNetwork), TryNetworkLocationFallback];
          } else {
            actions := [HandleLocationError];
          }
        } else {
          if consecutiveLocationFailures >= MAX_CONSECUTIVE_FAILURES {
            actions := [Notify(LostAttemptingRecovery), AttemptLocationRecovery];
          } else {
            actions := [Notify(WeakReconnecting)];
          }
        }
        actions := actions + [BroadcastAvailability(false)];
      } else {
        if consecutiveLocationFailures > 0 {
          consecutiveLocationFailures := 0;
          if !isWaitingForInitialFix {
            actions := [Notify(SignalRestored)];
          }
        }
        actions := actions + [BroadcastAvailability(true)];
      }
      assert Acquisition() == OnAvailability(before, isLocationAvailable).0;
      assert actions == OnAvailability(before, isLocationAvailable).1;
    }

    method SetupLocationUpdates()
      modifies this
      ensures State() == Setup(old(State()))
    {
      clientInitialized := true;
      var updateInterval := if isBackgroundMode then BACKGROUND_UPDATE_INTERVAL_MS
                            else FOREGROUND_UPDATE_INTERVAL_MS;
      var minUpdateInterval := if isBackgroundMode then BACKGROUND_MIN_UPDATE_INTERVAL_MS
                               else FOREGROUND_MIN_UPDATE_INTERVAL_MS;
      locationRequest := Some(LocationRequest(updateInterval, minUpdateInterval,
                                              updateInterval * 2, MIN_UPDATE_DISTANCE_M));
    }

    /** `platformHeld` is the platform's own `isHeld` for the lock at the time of the call,
        `outcome` how the platform answers the restart of updates. */
    method SetBackgroundMode(isBackground: bool, platformHeld: bool, outcome: StartOutcome)
      returns (actions: seq<Action>)
      modifies this
      ensures (State(), actions) == SetBackground(old(State()), isBackground, platformHeld, outcome)
    {
      actions := [];
      if isBackgroundMode != isBackground {
        isBackgroundMode := isBackground;
        if clientInitialized {
          var released := ReleaseWakeLock(platformHeld);
          SetupLocationUpdates();
          var started := StartLocationUpdates(outcome);
          actions := [RemoveLocationUpdates] + released + started;
        }
      }
    }

    method AcquireWakeLock() returns (actions: seq<Action>)
      modifies this
      ensures (WakeLock(), actions) == Acquire(old(WakeLock()))
      ensures State() == old(State()).(wakeLock := WakeLock())
    {
      if !hasWakeLock {
        hasWakeLock := true;
      }
      actions := [];
      if !isWakeLockHeld {
        isWakeLockHeld := true;
        actions := [AcquirePlatformWakeLock];
      }
    }

    method ReleaseWakeLock(platformHeld: bool) returns (actions: seq<Action>)
      modifies this
      ensures (WakeLock(), actions) == Release(old(WakeLock()), platformHeld)
      ensures State() == old(State()).(wakeLock := WakeLock())
    {
      actions := [];
      if hasWakeLock && isWakeLockHeld && platformHeld {
        isWakeLockHeld := false;
        actions := [ReleasePlatformWakeLock];
      }
    }
  }
}
