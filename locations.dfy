/** Values shared by the location-filtering core: an optional value and a location fix. */
module Locations {

  datatype Option<T> = None | Some(value: T)

  /** An android.location.Location as the core reads it: the fix time in milliseconds,
      the coordinates in degrees, the horizontal accuracy in metres (the getter's value,
      0 when the fix carries none) with its presence bit, the speed with its presence bit,
      the provider name and the mock flag. Float and Double fields are modelled as reals. */
  datatype Location = Location(
    time: int,
    latitude: real,
    longitude: real,
    accuracy: real,
    hasAccuracy: bool,
    speed: real,
    hasSpeed: bool,
    provider: Option<string>,
    isMock: bool)

  /** The geodesic distance `a.distanceTo(b)` is a platform computation; the core
      receives it as a function. */
  type DistanceFn = (Location, Location) -> real

  /** `Location(loc)` followed by setLatitude, setLongitude and setAccuracy: a copy in
      which only the coordinates and the accuracy are replaced. The platform's
      setAccuracy also marks the accuracy as present. */
  function WithEstimate(loc: Location, lat: real, lng: real, acc: real): (r: Location)
    ensures r.latitude == lat && r.longitude == lng && r.accuracy == acc && r.hasAccuracy
    ensures r.time == loc.time && r.speed == loc.speed && r.hasSpeed == loc.hasSpeed
    ensures r.provider == loc.provider && r.isMock == loc.isMock
  {
    loc.(latitude := lat, longitude := lng, accuracy := acc, hasAccuracy := true)
  }

  function Min(x: real, y: real): real { if x <= y then x else y }
  function Max(x: real, y: real): real { if x <= y then y else x }

  /** `Location(loc)` followed by setLatitude and setLongitude only. */
  function WithCoordinates(loc: Location, lat: real, lng: real): (r: Location)
    ensures r.latitude == lat && r.longitude == lng
    ensures r.time == loc.time && r.accuracy == loc.accuracy && r.hasAccuracy == loc.hasAccuracy
    ensures r.speed == loc.speed && r.hasSpeed == loc.hasSpeed
    ensures r.provider == loc.provider && r.isMock == loc.isMock
  {
    loc.(latitude := lat, longitude := lng)
  }
}
