/** `getLocation` of the location page (app/location/page.tsx): request the
    position, then either store it (with a reverse-geocoded address when
    one comes back) or report why it failed. The request and its two
    callbacks are three steps. */
module LocationPage {
  import opened Wrappers

  const NotSupported: string := "Your browser doesn't support geolocation"
  const PermissionDeniedMessage: string := "Location permission denied. Please enable location access."
  const UnavailableMessage: string := "Location information unavailable."
  const TimeoutMessage: string := "Location request timed out."
  const FailedMessage: string := "Failed to get location"

  /** The error codes of the W3C Geolocation API. */
  const PERMISSION_DENIED: int := 1
  const POSITION_UNAVAILABLE: int := 2
  const TIMEOUT: int := 3

  /** `GeolocationPosition`: the coordinates and the instant of the fix. */
  datatype Position = Position(latitude: real, longitude: real, accuracy: real, timestamp: int)

  datatype LocationData = LocationData(
    latitude: real, longitude: real, accuracy: real, timestamp: int, address: Option<string>)

  /** What the reverse-geocoding request did: threw (network failure or a
      body that is not JSON), or gave a JSON body with or without
      `display_name`. */
  datatype GeocodeOutcome = GeocodeThrew | GeocodeJson(displayName: Option<string>)

  /** The error callback's message for a `GeolocationPositionError` code. */
  function ErrorMessage(code: int): (m: string)
    ensures code == PERMISSION_DENIED ==> m == PermissionDeniedMessage
    ensures code == POSITION_UNAVAILABLE ==> m == UnavailableMessage
    ensures code == TIMEOUT ==> m == TimeoutMessage
    ensures code !in {PERMISSION_DENIED, POSITION_UNAVAILABLE, TIMEOUT} <==> m == FailedMessage
  {
    if code == PERMISSION_DENIED then PermissionDeniedMessage
    else if code == POSITION_UNAVAILABLE then UnavailableMessage
    else if code == TIMEOUT then TimeoutMessage
    else FailedMessage
  }

  class LocationPage {
    var location: Option<LocationData>
    var loading: bool

    constructor ()
      ensures location.None? && !loading
    {
      location := None;
      loading := false;
    }

    /** The button handler: without geolocation support it reports and
      returns, touching nothing; otherwise loading starts and the position
      is requested. The toast text is returned. */
    method GetLocation(supported: bool) returns (requested: bool, toast: Option<string>)
      modifies this
      ensures requested == supported
      ensures !supported ==> toast == Some(NotSupported) && loading == old(loading) && location == old(location)
      ensures supported ==> toast.None? && loading && location == old(location)
    {
      if !supported {
        return false, Some(NotSupported);
      }
      loading := true;
      return true, None;
    }

    /** The success callback: the fix's coordinates, accuracy and time are
      copied, the address is added only when the geocoder named one, and the
      location is stored even when geocoding failed. */
    method OnPosition(position: Position, geocode: GeocodeOutcome)
      modifies this
      ensures !loading
      ensures location == Some(LocationData(position.latitude, position.longitude, position.accuracy,
                                            position.timestamp,
                                            if geocode.GeocodeJson? then geocode.displayName else None))
    {
      var data := LocationData(position.latitude, position.longitude, position.accuracy, position.timestamp, None);
      match geocode {
        case GeocodeThrew =>
        case GeocodeJson(name) =>
          data := data.(address := name);
      }
      location := Some(data);
      loading := false;
    }

    /** The error callback: loading ends, the location is left as it was, and
      the message for the code is returned. */
    method OnError(code: int) returns (message: string)
      modifies this
      ensures !loading && location == old(location)
      ensures message == ErrorMessage(code)
    {
      loading := false;
      message := ErrorMessage(code);
    }
  }
}
