/**
 * What the dashboard's handlers promise, stated over the `Session` specification: which fields
 * each step sets, clears and keeps, which view the user then sees, and the invariant that every
 * order of handler halves and late responses keeps.
 */
module SessionProperties {
  import opened Wrappers
  import opened WeatherCodes
  import opened Session

  // ---------------------------------------------------------------------------------------------
  // Messages

  /** The three geolocation error codes get three distinct messages; every other code the fourth. */
  lemma GeoErrorMessages(code: int)
    ensures GeoErrorMessage(code) == DeniedMessage <==> code == PERMISSION_DENIED
    ensures GeoErrorMessage(code) == UnavailableMessage <==> code == POSITION_UNAVAILABLE
    ensures GeoErrorMessage(code) == TimeoutMessage <==> code == TIMEOUT
    ensures GeoErrorMessage(code) == UnknownGeoMessage <==> code !in {PERMISSION_DENIED, POSITION_UNAVAILABLE, TIMEOUT}
  {
  }

  /** The not-found message quotes the query verbatim, so different queries give different messages. */
  lemma NotFoundMessageQuotesQuery(q1: string, q2: string)
    ensures var m := NotFoundMessage(q1);
      |NotFoundPrefix| + |q1| <= |m| && m[|NotFoundPrefix|..|NotFoundPrefix| + |q1|] == q1
    ensures NotFoundMessage(q1) == NotFoundMessage(q2) ==> q1 == q2
    ensures NotFoundMessage(q1) != SearchFailedMessage && NotFoundMessage(q1) != FetchFailedMessage
  {
    var m1, m2 := NotFoundMessage(q1), NotFoundMessage(q2);
    var n := |NotFoundPrefix|;
    assert m1[n..n + |q1|] == q1;
    if m1 == m2 {
      assert |q1| == |q2|;
      assert m2[n..n + |q2|] == q2;
    }
    assert m1[|m1| - 2] == NotFoundSuffix[27] == 'h' && FetchFailedMessage[71] == 'n';
  }

  // ---------------------------------------------------------------------------------------------
  // Geolocation

  /** handleGeoError sets the error for the code, stops loading, and changes nothing else. */
  lemma GeoErrorOnlyStopsLoading(s: State, code: int)
    ensures var t := AfterGeoError(s, code);
      && t.error == Some(GeoErrorMessage(code)) && !t.loading
      && t.(error := s.error, loading := s.loading) == s
  {
  }

  /**
   * After a geolocation error the user sees the error panel when no weather is shown yet, and
   * otherwise the weather they had with the error as a banner.
   */
  lemma GeoErrorView(s: State, code: int)
    requires Valid(s)
    ensures var v := Render(AfterGeoError(s, code));
      && (s.weatherData.None? ==> v == ErrorPanel(GeoErrorMessage(code)))
      && (s.weatherData.Some? && s.date.Some? ==> v.WeatherView? && v.banner == Some(GeoErrorMessage(code)))
  {
  }

  /**
   * Until the browser calls back, requestGeolocation shows the loading skeleton with no error and
   * keeps every result; without geolocation support it shows the not-supported error at once.
   */
  lemma GeolocationStartShowsSkeleton(s: State, supported: bool)
    ensures var t := GeolocationStart(s, supported);
      && t.(loading := s.loading, error := s.error) == s
      && (supported ==> t.loading && t.error.None? && Render(t) == Skeleton)
      && (!supported ==> !t.loading && t.error == Some(UnsupportedMessage))
  {
  }

  /** The events a requestGeolocation call and its callback produce for each provider answer. */
  function GeoEvents(o: GeoOutcome): seq<Event> {
    match o
    case Unsupported => [GeolocationStarted(false)]
    case PositionError(code) => [GeolocationStarted(true), GeoFailed(code)]
    case Position(c) => [GeolocationStarted(true), PositionArrived(c)]
  }

  /** Running the start and the callback as two events is the whole handler. */
  lemma GeolocationHalvesComposeHandler(s: State, o: GeoOutcome)
    ensures Run(s, GeoEvents(o)) == AfterRequestGeolocation(s, o)
  {
    var es := GeoEvents(o);
    var started := Step(s, es[0]);
    assert Run(s, es) == Run(started, es[1..]);
    if |es| == 2 {
      assert Run(started, es[1..]) == Run(Step(started, es[1]), []) by {
        assert es[1..][1..] == [];
      }
    }
  }

  /**
   * requestGeolocation starts loading with no error and never clears the results already shown;
   * without geolocation support it ends with the not-supported error and not loading.
   */
  lemma RequestGeolocationKeepsResults(s: State, o: GeoOutcome)
    ensures var t := AfterRequestGeolocation(s, o);
      && t.weatherData == s.weatherData && t.locationData == s.locationData
      && t.aiAlert == s.aiAlert && t.locationDetails == s.locationDetails
      && t.loadingLocationDetails == s.loadingLocationDetails && t.date == s.date
      && (o.Unsupported? ==> t.error == Some(UnsupportedMessage) && !t.loading && t.location == s.location)
      && (o.PositionError? ==> t.error == Some(GeoErrorMessage(o.code)) && !t.loading && t.location == s.location)
      && (o.Position? ==> t.error.None? && t.loading && t.location == Some(o.coords))
  {
  }

  // ---------------------------------------------------------------------------------------------
  // Search

  /** An empty query changes nothing. */
  lemma EmptySearchIsNoOp(s: State, o: SearchOutcome)
    ensures AfterSearch(s, "", o) == s
    ensures SearchStart(s, "") == s && SearchAnswer(s, "", o) == s
  {
  }

  /**
   * While the search service has not answered, the user sees the loading skeleton: every result
   * is cleared, no error is set, and the coordinates are kept.
   */
  lemma SearchStartShowsSkeleton(s: State, query: string)
    requires query != ""
    ensures var t := SearchStart(s, query);
      && t.loading && t.error.None? && Render(t) == Skeleton
      && t.weatherData.None? && t.locationData.None? && t.aiAlert.None? && t.locationDetails.None?
      && t.location == s.location && t.loadingLocationDetails == s.loadingLocationDetails
      && t.date == s.date
  {
  }

  /** Running the search's start and its answer as two events is the whole handler. */
  lemma SearchHalvesComposeHandler(s: State, query: string, o: SearchOutcome)
    ensures Run(s, [SearchStarted(query), SearchAnswered(query, o)]) == AfterSearch(s, query, o)
  {
    var es := [SearchStarted(query), SearchAnswered(query, o)];
    var started := SearchStart(s, query);
    assert Run(s, es) == Run(started, es[1..]);
    assert Run(started, es[1..]) == Run(SearchAnswer(started, query, o), []) by {
      assert es[1..][1..] == [];
    }
  }

  /**
   * A non-empty search clears every result; no results names the query, an HTTP failure gives
   * the generic message, both stop loading and keep the old location; a hit stores the first
   * result's coordinates and keeps loading for the fetch it triggers.
   */
  lemma SearchOutcomes(s: State, query: string, o: SearchOutcome)
    requires query != ""
    ensures var t := AfterSearch(s, query, o);
      && t.weatherData.None? && t.locationData.None? && t.aiAlert.None? && t.locationDetails.None?
      && (o.NoResults? ==> t.error == Some(NotFoundMessage(query)) && !t.loading && t.location == s.location)
      && (o.SearchFailed? ==> t.error == Some(SearchFailedMessage) && !t.loading && t.location == s.location)
      && (o.FirstResult? ==> t.error.None? && t.loading && t.location == Some(o.coords))
      && (!o.FirstResult? ==> Render(t) == ErrorPanel(t.error.value))
  {
  }

  // ---------------------------------------------------------------------------------------------
  // fetchData

  /** Without a location the effect does nothing; with one it always ends settled. */
  lemma FetchEndsSettled(s: State, core: CoreOutcome, ai: AiOutcome)
    ensures s.location.None? ==> AfterFetch(s, core, ai) == s
    ensures s.location.Some? ==> !AfterFetch(s, core, ai).loading && !AfterFetch(s, core, ai).loadingLocationDetails
  {
  }

  /**
   * If the reverse geocode or the forecast is not ok, the effect ends in the error panel with
   * the fetch message, nothing left from before, and no AI call.
   */
  lemma FailedFetchShowsErrorPanel(s: State, ai: AiOutcome)
    requires s.location.Some?
    ensures var t := AfterFetch(s, NotOk, ai);
      && t.error == Some(FetchFailedMessage) && !t.loading && !t.loadingLocationDetails
      && t.weatherData.None? && t.locationData.None? && t.aiAlert.None? && t.locationDetails.None?
      && Render(t) == ErrorPanel(FetchFailedMessage)
  {
  }

  /**
   * When both answers are ok, the weather is committed before any AI call: location (city, else
   * locality) and rounded weather are set, loading is over, the details skeleton is up, and the
   * user already sees the weather with no banner.
   */
  lemma CoreSuccessCommitsWeather(s: State, p: Place, c: Current)
    requires s.location.Some?
    ensures var t := AfterCoreResponses(AfterFetchStart(s), Responses(p, c));
      && t.locationData.Some? && t.weatherData.Some?
      && (p.city != "" ==> t.locationData.value.city == p.city)
      && (p.city == "" ==> t.locationData.value.city == p.locality)
      && t.locationData.value.countryName == p.countryName
      && var w := t.weatherData.value;
      && c.temperature - 0.5 < w.temperature as real <= c.temperature + 0.5
      && c.windSpeed - 0.5 < w.windSpeed as real <= c.windSpeed + 0.5
      && w.weatherCode == c.weatherCode && w.humidity == c.humidity && w.isDay == c.isDay
      && !t.loading && t.loadingLocationDetails && t.error.None? && t.aiAlert.None?
      && (s.date.Some? ==> Render(t) == WeatherView(t.locationData.value, w,
            GetWeatherInfo(c.weatherCode, c.isDay), None, None, DetailsLoading))
  {
  }

  /**
   * An AI failure reaches the effect's `catch`: the error is set, yet the weather stays, so the
   * user sees the weather with the fetch message as a banner and no details.
   */
  lemma AiFailureShowsBannerOverWeather(s: State, p: Place, c: Current)
    requires s.location.Some? && s.date.Some?
    ensures var t := AfterFetch(s, Responses(p, c), AiFailed);
      && t.weatherData == Some(WeatherFrom(c)) && t.error == Some(FetchFailedMessage)
      && t.aiAlert.None? && t.locationDetails.None?
      && Render(t) == WeatherView(LocationFrom(p), WeatherFrom(c),
           GetWeatherInfo(c.weatherCode, c.isDay), None, Some(FetchFailedMessage), NoDetails)
  {
  }

  /** Both AI answers: the alert (when non-empty) and the details appear, with no banner. */
  lemma AiSuccessEnrichesWeather(s: State, p: Place, c: Current, alert: string, details: LocationDetails)
    requires s.location.Some? && s.date.Some?
    ensures var t := AfterFetch(s, Responses(p, c), AiResults(alert, details));
      && t.error.None? && t.aiAlert == Some(alert)
      && Render(t) == WeatherView(LocationFrom(p), WeatherFrom(c),
           GetWeatherInfo(c.weatherCode, c.isDay), if alert == "" then None else Some(alert), None,
           DetailsShown(details))
  {
  }

  /** The alert request describes the weather the user sees and names the place. */
  lemma AlertRequestDescribesShownWeather(l: LocationData, w: WeatherData)
    ensures var r := AlertRequestFor(l, w);
      && r.currentWeather != "" && r.temperature == w.temperature
      && (w.weatherCode !in ListedCodes() ==> r.currentWeather == "Clear sky")
      && r.location[..|l.city|] == l.city
  {
    DescriptionNeverEmpty(w.weatherCode, w.isDay);
    if w.weatherCode !in ListedCodes() {
      UnlistedTakesDefault(w.weatherCode, w.isDay);
    }
  }

  // ---------------------------------------------------------------------------------------------
  // renderContent

  /**
   * View precedence: loading gives the skeleton; else an error with no weather gives the error
   * panel; else missing weather, location or date give the spinner; else the weather, with the
   * error banner exactly when an error is set.
   */
  lemma ViewPrecedence(s: State)
    ensures Render(s) == Skeleton <==> s.loading
    ensures Render(s).ErrorPanel? <==> !s.loading && Truthy(s.error) && s.weatherData.None?
    ensures Render(s) == Spinner <==>
      && !s.loading && !(Truthy(s.error) && s.weatherData.None?)
      && (s.weatherData.None? || s.locationData.None? || s.date.None?)
    ensures Render(s).WeatherView? ==>
      && Render(s).weather == s.weatherData.value && Render(s).place == s.locationData.value
      && (Render(s).banner.Some? <==> Truthy(s.error))
      && (Render(s).alert.Some? <==> Truthy(s.aiAlert))
      && (Render(s).footer == DetailsLoading <==> s.loadingLocationDetails)
  {
  }

  /**
   * In a reachable state the skeleton never hides an error, and once settled with a date the
   * user sees either the error panel or the weather, or waits with no error for a result.
   */
  lemma ValidViews(s: State)
    requires Valid(s)
    ensures Render(s) == Skeleton ==> s.error.None?
    ensures Render(s).ErrorPanel? ==> Render(s).message != ""
    ensures !s.loading && s.weatherData.Some? && s.date.Some? ==> Render(s).WeatherView?
    ensures Render(s) == Spinner ==> s.date.None? || (s.weatherData.None? && s.error.None?)
  {
  }

  // ---------------------------------------------------------------------------------------------
  // The invariant over every order of events

  lemma InitialIsValid()
    ensures Valid(Initial()) && KnownError(Initial()) && Render(Initial()) == Skeleton
  {
  }

  lemma StepPreservesValid(s: State, e: Event)
    requires Valid(s)
    ensures Valid(Step(s, e))
  {
    match e
    case SearchAnswered(q, o) =>
      if q != "" && o.NoResults? {
        assert NotFoundMessage(q)[0] == 'C';
      }
    case _ =>
  }

  /** Any sequence of handler calls and completions, in any order, keeps the invariant. */
  lemma {:induction false} RunPreservesValid(s: State, es: seq<Event>)
    requires Valid(s)
    ensures Valid(Run(s, es))
    decreases |es|
  {
    if es != [] {
      StepPreservesValid(s, es[0]);
      RunPreservesValid(Step(s, es[0]), es[1..]);
    }
  }

  /** Running two event sequences one after the other is running their concatenation. */
  lemma {:induction false} RunAppend(s: State, a: seq<Event>, b: seq<Event>)
    ensures Run(s, a + b) == Run(Run(s, a), b)
    decreases |a|
  {
    if a == [] {
      assert a + b == b;
    } else {
      assert (a + b)[0] == a[0];
      assert (a + b)[1..] == a[1..] + b;
      RunAppend(Step(s, a[0]), a[1..], b);
    }
  }

  /**
   * Nothing discards a late answer: whatever was requested or answered before, and whichever
   * coordinates are current, the last reverse-geocode and forecast answer to arrive fills in the
   * location and the weather and stops loading.
   */
  lemma LastAnswerWins(s: State, before: seq<Event>, p: Place, c: Current)
    ensures var t := Run(s, before + [CoreArrived(Responses(p, c))]);
      && t.location == Run(s, before).location
      && t.locationData == Some(LocationFrom(p)) && t.weatherData == Some(WeatherFrom(c))
      && !t.loading && t.loadingLocationDetails
  {
    RunAppend(s, before, [CoreArrived(Responses(p, c))]);
  }

  /**
   * A newer search stores other coordinates, yet the older fetch's answer still fills in the
   * weather. (The rendered page disables the search button while loading, so only a caller of
   * the handlers, not a click, can order events this way.)
   */
  lemma LateAnswerIsNotDiscarded(s: State, query: string, newer: Coords, p: Place, c: Current)
    requires s.location.Some? && query != ""
    ensures var t := Run(s, [FetchStarted, SearchStarted(query), SearchAnswered(query, FirstResult(newer)),
                             CoreArrived(Responses(p, c))]);
      && t.location == Some(newer) && t.weatherData == Some(WeatherFrom(c)) && !t.loading
  {
    var before := [FetchStarted, SearchStarted(query), SearchAnswered(query, FirstResult(newer))];
    assert before + [CoreArrived(Responses(p, c))]
      == [FetchStarted, SearchStarted(query), SearchAnswered(query, FirstResult(newer)),
          CoreArrived(Responses(p, c))];
    LastAnswerWins(s, before, p, c);
    var s1 := Step(s, before[0]);
    var s2 := Step(s1, before[1]);
    assert Run(s, before) == Run(s1, before[1..]);
    assert Run(s1, before[1..]) == Run(s2, before[1..][1..]);
    assert Run(s2, before[1..][1..]) == Run(Step(s2, before[2]), []) by {
      assert before[1..][1..][1..] == [];
    }
  }

  /**
   * A fetch that completes while a search is awaiting its answer: the weather arrives, the AI
   * fails, then the search finds nothing. The user sees that weather with the not-found message
   * as a banner and no details.
   */
  lemma FetchDuringSearchAwait(s: State, query: string, p: Place, c: Current)
    requires query != "" && s.date.Some?
    ensures var t := Run(s, [SearchStarted(query), CoreArrived(Responses(p, c)), EnrichmentArrived(AiFailed),
                             SearchAnswered(query, NoResults)]);
      && Render(t) == WeatherView(LocationFrom(p), WeatherFrom(c), GetWeatherInfo(c.weatherCode, c.isDay),
                                  None, Some(NotFoundMessage(query)), NoDetails)
  {
    var es := [SearchStarted(query), CoreArrived(Responses(p, c)), EnrichmentArrived(AiFailed),
               SearchAnswered(query, NoResults)];
    var s1 := Reset(s);
    var s2 := AfterCoreResponses(s1, Responses(p, c));
    var s3 := AfterEnrichment(s2, AiFailed);
    assert Run(s, es) == Run(s1, es[1..]);
    assert Run(s1, es[1..]) == Run(s2, es[1..][1..]);
    assert Run(s2, es[1..][1..]) == Run(s3, es[1..][1..][1..]);
    assert Run(s3, es[1..][1..][1..]) == Run(SearchAnswer(s3, query, NoResults), []) by {
      assert es[1..][1..][1..][1..] == [];
    }
    assert NotFoundMessage(query)[0] == 'C';
  }

  lemma StepKeepsKnownErrors(s: State, e: Event)
    requires KnownError(s)
    ensures KnownError(Step(s, e))
  {
    match e
    case SearchAnswered(q, o) =>
      if q != "" && o.NoResults? {
        assert Step(s, e).error.value == NotFoundMessage(q);
      }
    case _ =>
  }

  /** Every error the user can ever see is one the component wrote itself. */
  lemma {:induction false} RunKeepsKnownErrors(s: State, es: seq<Event>)
    requires KnownError(s)
    ensures KnownError(Run(s, es))
    decreases |es|
  {
    if es != [] {
      StepKeepsKnownErrors(s, es[0]);
      RunKeepsKnownErrors(Step(s, es[0]), es[1..]);
    }
  }

  /**
   * Mount, a fix at Paris, a clear answer from both services (18.4 degrees, code 2, 11.7 km/h,
   * 60 % humidity, day): the weather shows 18 degrees, 12 km/h, partly cloudy, while the AI
   * details are still loading.
   */
  lemma ParisScenario()
    ensures var t := Run(Initial(), [
        Mounted(0), GeolocationStarted(true), PositionArrived(Coords(48.8566, 2.3522)), FetchStarted,
        CoreArrived(Responses(Place("Paris", "Paris", "France"), Current(18.4, 2, 11.7, 60, 1)))]);
      Render(t) == WeatherView(LocationData("Paris", "France"), WeatherData(18, 2, 12, 60, 1),
        WeatherInfo("Partly cloudy", Cloud, "animate-float"), None, None, DetailsLoading)
  {
    var es := [
        Mounted(0), GeolocationStarted(true), PositionArrived(Coords(48.8566, 2.3522)), FetchStarted,
        CoreArrived(Responses(Place("Paris", "Paris", "France"), Current(18.4, 2, 11.7, 60, 1)))];
    assert es[1..][1..][1..][1..][1..] == [];
    assert JsRound(18.4) == 18;
    assert JsRound(11.7) == 12;
  }
}
