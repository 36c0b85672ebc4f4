/**
 * The state of the WeatherDashboard component (src/components/weather-dashboard.tsx) as a value,
 * with one function per handler step giving the state that step leaves, and the view selection
 * of `renderContent`. These functions are the specification the `Dashboard` class is proved
 * against; every external call (geolocation, the three HTTP services, the two AI flows) enters
 * as its outcome.
 */
module Session {
  import opened Wrappers
  import opened WeatherCodes

  // ---------------------------------------------------------------------------------------------
  // Records

  datatype Coords = Coords(lat: real, lon: real)

  /** `LocationData` of src/lib/types.ts. */
  datatype LocationData = LocationData(city: string, countryName: string)

  /** `WeatherData` of src/lib/types.ts: temperature and wind speed already rounded. */
  datatype WeatherData = WeatherData(temperature: int, weatherCode: int, windSpeed: int, humidity: int, isDay: int)

  /** The output of the location-details AI flow. */
  datatype LocationDetails = LocationDetails(description: string, imageUrl: string)

  /** The component's state hooks; `date` is the mount-time `Date`, as a timestamp. */
  datatype State = State(
    location: Option<Coords>,
    locationData: Option<LocationData>,
    weatherData: Option<WeatherData>,
    aiAlert: Option<string>,
    locationDetails: Option<LocationDetails>,
    error: Option<string>,
    loading: bool,
    loadingLocationDetails: bool,
    date: Option<int>)

  /** The state on the first render: loading, nothing known yet. */
  function Initial(): State {
    State(None, None, None, None, None, None, true, false, None)
  }

  /** JavaScript truthiness of a nullable string: `null` and `""` are both false. */
  predicate Truthy(s: Option<string>) {
    s.Some? && s.value != ""
  }

  // ---------------------------------------------------------------------------------------------
  // Outcomes of the external calls

  /** What `navigator.geolocation.getCurrentPosition` delivers, or that the API is missing. */
  datatype GeoOutcome =
    | Unsupported
    | PositionError(code: int)
    | Position(coords: Coords)

  /** The `code` values of a GeolocationPositionError (W3C Geolocation API). */
  const PERMISSION_DENIED := 1
  const POSITION_UNAVAILABLE := 2
  const TIMEOUT := 3

  /**
   * The geocoding search: the request threw or answered not-ok (or its body did not parse),
   * the answer held no results, or the first result's coordinates.
   */
  datatype SearchOutcome =
    | SearchFailed
    | NoResults
    | FirstResult(coords: Coords)

  /** The reverse-geocoding answer; an absent `city` or `locality` is the empty string. */
  datatype Place = Place(city: string, locality: string, countryName: string)

  /** The forecast's `current` block, before rounding. */
  datatype Current = Current(temperature: real, weatherCode: int, windSpeed: real, humidity: int, isDay: int)

  /** The joined reverse-geocode and forecast requests: one of them not ok, or both bodies. */
  datatype CoreOutcome =
    | NotOk
    | Responses(place: Place, current: Current)

  /** The joined AI requests: one of them rejected, or the alert message and the location details. */
  datatype AiOutcome =
    | AiFailed
    | AiResults(alertMessage: string, details: LocationDetails)

  // ---------------------------------------------------------------------------------------------
  // Messages

  const DeniedMessage := "Location access was denied. Please enable it in your browser settings or use the search bar."
  const UnavailableMessage := "Your location information is currently unavailable."
  const TimeoutMessage := "The request to get your location timed out."
  const UnknownGeoMessage := "An unknown error occurred while trying to get your location."
  const UnsupportedMessage := "Geolocation is not supported by your browser. Please use the search bar."
  const SearchFailedMessage := "Failed to search for location. Please try again."
  const FetchFailedMessage := "Could not fetch weather data. Please check your connection and try again."

  const NotFoundPrefix := "Could not find a location named \""
  const NotFoundSuffix := "\". Please try another search."

  function GeoErrorMessage(code: int): string {
    if code == PERMISSION_DENIED then DeniedMessage
    else if code == POSITION_UNAVAILABLE then UnavailableMessage
    else if code == TIMEOUT then TimeoutMessage
    else UnknownGeoMessage
  }

  function NotFoundMessage(query: string): string {
    NotFoundPrefix + query + NotFoundSuffix
  }

  // ---------------------------------------------------------------------------------------------
  // Derived values

  /** `Math.round`: the nearest integer, halves rounded up (towards +infinity). */
  function JsRound(x: real): (r: int)
    ensures x - 0.5 < r as real <= x + 0.5
  {
    (x + 0.5).Floor
  }

  /** `{ city: locData.city || locData.locality, countryName: locData.countryName }` */
  function LocationFrom(p: Place): LocationData {
    LocationData(if p.city != "" then p.city else p.locality, p.countryName)
  }

  function WeatherFrom(c: Current): WeatherData {
    WeatherData(JsRound(c.temperature), c.weatherCode, JsRound(c.windSpeed), c.humidity, c.isDay)
  }

  /** `${city}, ${countryName}`, the location both AI flows are asked about. */
  function LocationString(l: LocationData): string {
    l.city + ", " + l.countryName
  }

  /**
   * The alert request sent to the AI (its historical-average text, which carries random jitter,
   * is not modelled).
   */
  datatype AlertRequest = AlertRequest(currentWeather: string, temperature: int, location: string)

  function AlertRequestFor(l: LocationData, w: WeatherData): AlertRequest {
    AlertRequest(GetWeatherInfo(w.weatherCode, w.isDay).description, w.temperature, LocationString(l))
  }

  // ---------------------------------------------------------------------------------------------
  // Transitions: the state each handler step leaves

  /** handleGeoError */
  function AfterGeoError(s: State, code: int): State {
    s.(error := Some(GeoErrorMessage(code)), loading := false)
  }

  /**
   * requestGeolocation up to the browser's callback: loading with no error, or, when the browser
   * has no geolocation, the not-supported error at once.
   */
  function GeolocationStart(s: State, supported: bool): State {
    var started := s.(loading := true, error := None);
    if supported then started else started.(error := Some(UnsupportedMessage), loading := false)
  }

  /** The success callback of `getCurrentPosition`. */
  function AfterPosition(s: State, c: Coords): State {
    s.(location := Some(c), error := None)
  }

  /** requestGeolocation followed by the provider's answer, with nothing in between. */
  function AfterRequestGeolocation(s: State, o: GeoOutcome): State {
    match o
    case Unsupported => GeolocationStart(s, false)
    case PositionError(code) => AfterGeoError(GeolocationStart(s, true), code)
    case Position(c) => AfterPosition(GeolocationStart(s, true), c)
  }

  /** Clears the previous results and starts loading (handleSearch and fetchData both do this). */
  function Reset(s: State): State {
    s.(loading := true, error := None, weatherData := None, locationData := None,
       aiAlert := None, locationDetails := None)
  }

  /** handleSearch up to its await: nothing for an empty query, else a reset. */
  function SearchStart(s: State, query: string): State {
    if query == "" then s else Reset(s)
  }

  /**
   * handleSearch after its await, with the search service's answer (a handler that returned
   * early on an empty query has no answer to deliver).
   */
  function SearchAnswer(s: State, query: string, o: SearchOutcome): State {
    if query == "" then s
    else
      match o
      case SearchFailed => s.(error := Some(SearchFailedMessage), loading := false)
      case NoResults => s.(error := Some(NotFoundMessage(query)), loading := false)
      case FirstResult(c) => s.(location := Some(c))
  }

  /** handleSearch followed by the search service's answer, with nothing in between. */
  function AfterSearch(s: State, query: string, o: SearchOutcome): State {
    SearchAnswer(SearchStart(s, query), query, o)
  }

  /** The `fetchData` effect up to its first await (it does nothing without a location). */
  function AfterFetchStart(s: State): State {
    if s.location.None? then s else Reset(s)
  }

  /** The `fetchData` effect once reverse-geocode and forecast have both answered. */
  function AfterCoreResponses(s: State, o: CoreOutcome): State {
    match o
    case NotOk => s.(error := Some(FetchFailedMessage), loading := false, loadingLocationDetails := false)
    case Responses(p, c) =>
      s.(locationData := Some(LocationFrom(p)), weatherData := Some(WeatherFrom(c)),
         loading := false, loadingLocationDetails := true)
  }

  /** The `fetchData` effect once both AI flows have answered, including its `finally`. */
  function AfterEnrichment(s: State, o: AiOutcome): State {
    match o
    case AiFailed => s.(error := Some(FetchFailedMessage), loading := false, loadingLocationDetails := false)
    case AiResults(alert, details) =>
      s.(aiAlert := Some(alert), locationDetails := Some(details), loadingLocationDetails := false)
  }

  /** The whole `fetchData` effect when no other handler runs between its awaits. */
  function AfterFetch(s: State, core: CoreOutcome, ai: AiOutcome): State {
    if s.location.None? then s
    else
      var fetched := AfterCoreResponses(AfterFetchStart(s), core);
      if core.NotOk? then fetched else AfterEnrichment(fetched, ai)
  }

  /** The mount effect `setDate(new Date())`. */
  function AfterMount(s: State, now: int): State {
    s.(date := Some(now))
  }

  // ---------------------------------------------------------------------------------------------
  // View selection

  /** The card footer: the details skeleton, the image and description, or nothing. */
  datatype Footer = DetailsLoading | DetailsShown(details: LocationDetails) | NoDetails

  /** What `renderContent` draws. */
  datatype View =
    | Skeleton
    | ErrorPanel(message: string)
    | Spinner
    | WeatherView(place: LocationData, weather: WeatherData, info: WeatherInfo,
                  alert: Option<string>, banner: Option<string>, footer: Footer)

  /** renderContent */
  function Render(s: State): View {
    if s.loading then Skeleton
    else if Truthy(s.error) && s.weatherData.None? then ErrorPanel(s.error.value)
    else if s.weatherData.None? || s.locationData.None? || s.date.None? then Spinner
    else
      var w := s.weatherData.value;
      WeatherView(
        s.locationData.value, w, GetWeatherInfo(w.weatherCode, w.isDay),
        if Truthy(s.aiAlert) then s.aiAlert else None,
        if Truthy(s.error) && !s.loading then s.error else None,
        if s.loadingLocationDetails then DetailsLoading
        else if s.locationDetails.Some? then DetailsShown(s.locationDetails.value)
        else NoDetails)
  }

  // ---------------------------------------------------------------------------------------------
  // The component as an event system

  /**
   * Everything that changes the state: a handler call up to its first await or callback, or the
   * completion of an awaited call or callback. There is no request counter in the component, so
   * completions may arrive in any order and between any other handler's halves.
   */
  datatype Event =
    | Mounted(now: int)
    | GeolocationStarted(supported: bool)
    | PositionArrived(coords: Coords)
    | GeoFailed(code: int)
    | SearchStarted(query: string)
    | SearchAnswered(query: string, search: SearchOutcome)
    | FetchStarted
    | CoreArrived(core: CoreOutcome)
    | EnrichmentArrived(ai: AiOutcome)

  function Step(s: State, e: Event): State {
    match e
    case Mounted(now) => AfterMount(s, now)
    case GeolocationStarted(supported) => GeolocationStart(s, supported)
    case PositionArrived(c) => AfterPosition(s, c)
    case GeoFailed(code) => AfterGeoError(s, code)
    case SearchStarted(q) => SearchStart(s, q)
    case SearchAnswered(q, o) => SearchAnswer(s, q, o)
    case FetchStarted => AfterFetchStart(s)
    case CoreArrived(o) => AfterCoreResponses(s, o)
    case EnrichmentArrived(o) => AfterEnrichment(s, o)
  }

  function Run(s: State, es: seq<Event>): State
    decreases |es|
  {
    if es == [] then s else Run(Step(s, es[0]), es[1..])
  }

  /**
   * The invariant every reachable state keeps: weather is only shown beside a location, every
   * error is a non-empty message, an error is never hidden behind the loading skeleton, and the
   * AI alert and the location details arrive and are cleared together.
   */
  predicate Valid(s: State) {
    && (s.weatherData.Some? ==> s.locationData.Some?)
    && (s.error.Some? ==> s.error.value != "")
    && (s.loading ==> s.error.None?)
    && (s.aiAlert.Some? <==> s.locationDetails.Some?)
  }

  /** An error the component itself wrote: one of its fixed messages, or the not-found message. */
  ghost predicate KnownError(s: State) {
    s.error.Some? ==>
      || s.error.value in {DeniedMessage, UnavailableMessage, TimeoutMessage, UnknownGeoMessage,
                           UnsupportedMessage, SearchFailedMessage, FetchFailedMessage}
      || exists q: string :: q != "" && s.error.value == NotFoundMessage(q)
  }
}
