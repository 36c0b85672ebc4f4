/**
 * The WeatherDashboard component of src/components/weather-dashboard.tsx as an object: its state
 * hooks are fields, and each handler updates them step by step, as the `set...` calls do. Each
 * external call enters as its outcome; each method is proved to leave exactly the state the
 * matching `Session` function describes, and to keep the component invariant `Session.Valid`.
 */
module Dashboard {
  import opened Wrappers
  import opened Session
  import SessionProperties

  class WeatherDashboard {
    var location: Option<Coords>
    var locationData: Option<LocationData>
    var weatherData: Option<WeatherData>
    var aiAlert: Option<string>
    var locationDetails: Option<LocationDetails>
    var error: Option<string>
    var loading: bool
    var loadingLocationDetails: bool
    var date: Option<int>

    /** The fields as one value. */
    function Snapshot(): State
      reads this
    {
      State(location, locationData, weatherData, aiAlert, locationDetails, error, loading,
            loadingLocationDetails, date)
    }

    predicate Valid()
      reads this
    {
      Session.Valid(Snapshot())
    }

    /** The `useState` initial values. */
    constructor ()
      ensures Snapshot() == Initial() && Valid()
    {
      location := None;
      locationData := None;
      weatherData := None;
      aiAlert := None;
      locationDetails := None;
      error := None;
      loading := true;
      loadingLocationDetails := false;
      date := None;
    }

    /** The mount effect that records the current date. */
    method MountDate(now: int)
      requires Valid()
      modifies this
      ensures Snapshot() == AfterMount(old(Snapshot()), now) && Valid()
    {
      date := Some(now);
    }

    /** handleGeoError */
    method HandleGeoError(code: int)
      requires Valid()
      modifies this
      ensures Snapshot() == AfterGeoError(old(Snapshot()), code) && Valid()
    {
      if code == PERMISSION_DENIED {
        error := Some(DeniedMessage);
      } else if code == POSITION_UNAVAILABLE {
        error := Some(UnavailableMessage);
      } else if code == TIMEOUT {
        error := Some(TimeoutMessage);
      } else {
        error := Some(UnknownGeoMessage);
      }
      loading := false;
    }

    /** requestGeolocation up to the browser's callback, given whether the browser has geolocation. */
    method StartGeolocation(supported: bool)
      requires Valid()
      modifies this
      ensures Snapshot() == GeolocationStart(old(Snapshot()), supported) && Valid()
    {
      loading := true;
      error := None;
      if !supported {
        error := Some(UnsupportedMessage);
        loading := false;
      }
    }

    /** The success callback of `getCurrentPosition`. */
    method ReceivePosition(c: Coords)
      requires Valid()
      modifies this
      ensures Snapshot() == AfterPosition(old(Snapshot()), c) && Valid()
    {
      location := Some(c);
      error := None;
    }

    /** requestGeolocation, with what the browser's geolocation delivers. */
    method RequestGeolocation(geo: GeoOutcome)
      requires Valid()
      modifies this
      ensures Snapshot() == AfterRequestGeolocation(old(Snapshot()), geo) && Valid()
    {
      StartGeolocation(!geo.Unsupported?);
      match geo {
        case Unsupported =>
        case PositionError(code) =>
          HandleGeoError(code);
        case Position(c) =>
          ReceivePosition(c);
      }
    }

    /** handleSearch up to its await: an early return on an empty query, else the reset. */
    method StartSearch(query: string)
      requires Valid()
      modifies this
      ensures Snapshot() == SearchStart(old(Snapshot()), query) && Valid()
    {
      if query == "" {
        return;
      }
      loading := true;
      error := None;
      weatherData := None;
      locationData := None;
      aiAlert := None;
      locationDetails := None;
    }

    /** handleSearch after its await, with what the geocoding search answered. */
    method ReceiveSearchAnswer(query: string, search: SearchOutcome)
      requires Valid()
      modifies this
      ensures Snapshot() == SearchAnswer(old(Snapshot()), query, search) && Valid()
    {
      ghost var before := Snapshot();
      if query == "" {
        return;
      }
      match search {
        case SearchFailed =>
          error := Some(SearchFailedMessage);
          loading := false;
        case NoResults =>
          error := Some(NotFoundMessage(query));
          loading := false;
        case FirstResult(c) =>
          location := Some(c);
      }
      SessionProperties.StepPreservesValid(before, SearchAnswered(query, search));
    }

    /** handleSearch, with the submitted query and what the geocoding search answered. */
    method HandleSearch(query: string, search: SearchOutcome)
      requires Valid()
      modifies this
      ensures Snapshot() == AfterSearch(old(Snapshot()), query, search) && Valid()
    {
      StartSearch(query);
      ReceiveSearchAnswer(query, search);
    }

    /** The `fetchData` effect up to its first await: nothing without a location, else a reset. */
    method BeginFetch()
      requires Valid()
      modifies this
      ensures Snapshot() == AfterFetchStart(old(Snapshot())) && Valid()
    {
      if location.None? {
        return;
      }
      loading := true;
      error := None;
      weatherData := None;
      locationData := None;
      aiAlert := None;
      locationDetails := None;
    }

    /**
     * The `fetchData` effect once reverse geocode and forecast have answered. Returns the alert
     * request it then sends to the AI, or None when it stops with an error and asks nothing.
     */
    method ReceiveCoreResponses(core: CoreOutcome) returns (request: Option<AlertRequest>)
      requires Valid()
      modifies this
      ensures Snapshot() == AfterCoreResponses(old(Snapshot()), core) && Valid()
      ensures request.Some? <==> core.Responses?
      ensures core.Responses? ==> request.value == AlertRequestFor(locationData.value, weatherData.value)
    {
      match core {
        case NotOk =>
          error := Some(FetchFailedMessage);
          loading := false;
          loadingLocationDetails := false;
          request := None;
        case Responses(p, c) =>
          var fetched := LocationFrom(p);
          locationData := Some(fetched);
          var current := WeatherFrom(c);
          weatherData := Some(current);
          loading := false;
          loadingLocationDetails := true;
          request := Some(AlertRequestFor(fetched, current));
      }
    }

    /** The `fetchData` effect once both AI flows have answered, with its `catch` and `finally`. */
    method ReceiveEnrichment(ai: AiOutcome)
      requires Valid()
      modifies this
      ensures Snapshot() == AfterEnrichment(old(Snapshot()), ai) && Valid()
    {
      match ai {
        case AiFailed =>
          error := Some(FetchFailedMessage);
          loading := false;
        case AiResults(alert, details) =>
          aiAlert := Some(alert);
          locationDetails := Some(details);
      }
      loadingLocationDetails := false;
    }

    /** The whole `fetchData` effect run without other handlers between its awaits. */
    method FetchData(core: CoreOutcome, ai: AiOutcome)
      requires Valid()
      modifies this
      ensures Snapshot() == AfterFetch(old(Snapshot()), core, ai) && Valid()
      ensures location.Some? ==> !loading && !loadingLocationDetails
    {
      if location.None? {
        return;
      }
      BeginFetch();
      var request := ReceiveCoreResponses(core);
      if request.Some? {
        ReceiveEnrichment(ai);
      }
    }
  }
}
