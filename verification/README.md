# Weather dashboard: classifier and session state, in Dafny

This project models the two parts of the weather dashboard web app that have behaviour worth stating:

- **The weather-code classifier** (`getWeatherInfo`, src/lib/weather-utils.ts). It maps an Open-Meteo WMO weather interpretation code (WMO code table 4677) and the forecast's `is_day` number to a description, an icon and an animation class. Module `WeatherCodes` defines it as a total function. The lemmas prove the fallback to the code-0 result, the grouping laws, that only codes 0 and 1 depend on the day flag, and which animations occur. `Condition`, `Codes`, `Description` and `ResultOf` state the table a second time, independently, as groups of codes.
- **The dashboard's session state** (`WeatherDashboard`, src/components/weather-dashboard.tsx). The model holds nine of the component's ten state hooks (all but `searchQuery`), the mount date among them. It updates them from `handleGeoError`, `requestGeolocation`, `handleSearch` and the `fetchData` effect, and `renderContent` picks a view from them.
  - `Session` gives the state as a value. It has one function per handler step, each giving the state that step leaves, and `Render` for `renderContent`.
  - `Dashboard.WeatherDashboard` is a class with the state fields. Its methods update the fields step by step and are proved to leave exactly the state the `Session` function describes.
  - `SessionProperties` proves the handlers' promises and the view each outcome leads to. It also proves an invariant, and that every error shown is one the component wrote, for every order of handler starts, callbacks and late responses.

Every external call enters as its outcome:
- what the browser geolocation returns (`GeoOutcome`);
- the geocoding search answer (`SearchOutcome`);
- the joined reverse-geocode and forecast answers (`CoreOutcome`);
- the joined AI answers (`AiOutcome`).

Every handler is split where other code can run before it continues:
- `requestGeolocation` into its synchronous start (`StartGeolocation`, event `GeolocationStarted`) and the browser's callbacks (`ReceivePosition`, event `PositionArrived`; `HandleGeoError`, event `GeoFailed`);
- `handleSearch` at its await into `StartSearch` (event `SearchStarted`) and `ReceiveSearchAnswer` (event `SearchAnswered`);
- `fetchData` at its awaits into `BeginFetch`, `ReceiveCoreResponses` and `ReceiveEnrichment`.

`RequestGeolocation`, `HandleSearch` and `FetchData` run the halves back to back. In `Session.Run` any other event may arrive between them.

Four behaviours of the code are modelled as written:
- When an AI flow fails, the effect's `catch` sets `error` even though `weatherData` is already shown. The user sees the weather under a "Search Error" banner with the fetch message. The failure is not silently absorbed (`AiFailureShowsBannerOverWeather`).
- Nothing discards a late response: no request counter or location check exists. A reverse-geocode/forecast answer that arrives after a newer search still fills in the state (`LastAnswerWins`, `LateAnswerIsNotDiscarded`). The page disables the search and location buttons while `loading || loadingLocationDetails` (src/components/weather-dashboard.tsx:301-305). A user click therefore cannot start that newer search; the scenario exists only in the event model, which ignores the disabled buttons.
- The city name falls back only from `city` to `locality`. A failure of either the reverse geocode or the forecast gives the same message.
- An HTTP failure of the search gives the generic "Failed to search" message. Only an empty result list names the query.

## Model

| member | source | states |
|---|---|---|
| WeatherCodes.DescriptionNeverEmpty | src/lib/weather-utils.ts:5-48 | every code and day flag give a non-empty description |
| WeatherCodes.KnownResults | src/lib/weather-utils.ts:6-11 | code 0 by day is ("Clear sky", Sun, "animate-spin-slow") and by night is (Moon, ""); code 2 is ("Partly cloudy", Cloud, "animate-float") for any flag |
| WeatherCodes.TableAgreesWithConditions | src/lib/weather-utils.ts:5-45 | every code of a condition's group is described by that condition's description |
| WeatherCodes.GroupsDisjoint | src/lib/weather-utils.ts:14-45 | no code belongs to two groups |
| WeatherCodes.DescriptionsDistinct | src/lib/weather-utils.ts:5-45 | distinct conditions have distinct descriptions |
| WeatherCodes.GroupResult | src/lib/weather-utils.ts:5-45 | every code of a group gives the result the reference table `ResultOf` lists for that condition |
| WeatherCodes.SameGroupSameResult | src/lib/weather-utils.ts:14-45 | grouping law: 45/48, 51/53/55, 61/63/65, 66/67, 71/73/75, 80/81/82, 85/86 and 96/99 each give one identical result |
| WeatherCodes.DistinctGroupsDiffer | src/lib/weather-utils.ts:5-45 | codes of different groups never give equal results, whatever the day flags |
| WeatherCodes.GroupedCodesAreListed | src/lib/weather-utils.ts:6-45 | every grouped code has a `case` of its own |
| WeatherCodes.UnlistedTakesDefault | src/lib/weather-utils.ts:46-47 | a code with no `case` takes the default arm: "Clear sky" with the day-dependent icon and animation |
| WeatherCodes.FallbackIsClearSky | src/lib/weather-utils.ts:46-47 | a code gives the code-0 result for the same flag if and only if it is 0 or unlisted |
| WeatherCodes.SunOnlyByDay | src/lib/weather-utils.ts:4-47 | Sun if and only if `isDay == 1` and the code is 0, 1 or unlisted; Moon if and only if any other flag with such a code; spinning exactly with the Sun, no animation with the Moon |
| WeatherCodes.GroupIcons | src/lib/weather-utils.ts:6-45 | per group: 0 and 1 depend on the day flag; every other group has neither Sun, Moon nor spinning, and pulses exactly for snow fall, snow grains and both thunderstorms |
| WeatherCodes.DayFlagIndependence | src/lib/weather-utils.ts:10-45 | every listed code other than 0 and 1 ignores the day flag; `isDay` 1 and 0 give the same result exactly for those codes |
| WeatherCodes.Animations | src/lib/weather-utils.ts:28-45 | "animate-pulse" exactly for 71/73/75/77/95/96/99; every animation is "animate-float", "animate-spin-slow", "" or "animate-pulse" |
| Session.JsRound | src/components/weather-dashboard.tsx:144-146 | `Math.round` gives the integer within half a unit, halves rounded up |
| SessionProperties.GeoErrorMessages | src/components/weather-dashboard.tsx:42-56 | PERMISSION_DENIED, POSITION_UNAVAILABLE and TIMEOUT each get their own message, and every other code gets the unknown-error message |
| SessionProperties.NotFoundMessageQuotesQuery | src/components/weather-dashboard.tsx:102 | the not-found message contains the query verbatim, is injective in the query, and differs from the other two failure messages |
| SessionProperties.GeoErrorOnlyStopsLoading | src/components/weather-dashboard.tsx:42-58 | handleGeoError sets the code's message and `loading` false and changes no other field |
| SessionProperties.GeoErrorView | src/components/weather-dashboard.tsx:42-58 | after a geolocation error: the error panel when no weather is shown, otherwise the weather with the message as banner |
| SessionProperties.GeolocationStartShowsSkeleton | src/components/weather-dashboard.tsx:60-78 | before the callback only `loading` and `error` change: loading with no error and the skeleton when geolocation exists, otherwise the not-supported message and not loading |
| SessionProperties.GeolocationHalvesComposeHandler | src/components/weather-dashboard.tsx:60-79 | the start followed by the success or error callback, as two events, gives the whole requestGeolocation outcome |
| SessionProperties.RequestGeolocationKeepsResults | src/components/weather-dashboard.tsx:60-79 | never touches weather, location data, alert or details; unsupported ends with its message and not loading; an error goes through handleGeoError; a fix stores the coordinates, still loading, with no error |
| SessionProperties.EmptySearchIsNoOp | src/components/weather-dashboard.tsx:87 | an empty query leaves the state unchanged, in the whole handler and in each half |
| SessionProperties.SearchStartShowsSkeleton | src/components/weather-dashboard.tsx:85-93 | while the search awaits its answer: loading, no error, the skeleton, every result cleared, the coordinates kept |
| SessionProperties.SearchHalvesComposeHandler | src/components/weather-dashboard.tsx:85-113 | the start followed by the answer, as two events, gives the whole handleSearch outcome |
| SessionProperties.SearchOutcomes | src/components/weather-dashboard.tsx:88-112 | a non-empty search clears all results; no results gives the query's message; HTTP failure gives the generic one; both keep the old location and stop loading, and the error panel shows; a hit stores the first coordinates and keeps loading |
| SessionProperties.FetchEndsSettled | src/components/weather-dashboard.tsx:115-179 | without a location the effect does nothing; with one it always ends with `loading` and `loadingLocationDetails` false |
| SessionProperties.FailedFetchShowsErrorPanel | src/components/weather-dashboard.tsx:119-175 | a not-ok reverse geocode or forecast ends with the fetch message, everything cleared, no AI call, and the error panel |
| SessionProperties.CoreSuccessCommitsWeather | src/components/weather-dashboard.tsx:139-153 | before any AI call, city (else locality) and country are set; temperature and wind are rounded to nearest; code, humidity and day flag pass through; loading is over, the details skeleton is up, and the weather shows with no banner |
| SessionProperties.AiFailureShowsBannerOverWeather | src/components/weather-dashboard.tsx:156-175 | an AI failure sets the error but keeps the weather: the weather view with the fetch message as banner and no details |
| SessionProperties.AiSuccessEnrichesWeather | src/components/weather-dashboard.tsx:156-175 | both AI answers: no error, the alert is shown when non-empty, and the details are shown |
| SessionProperties.AlertRequestDescribesShownWeather | src/components/weather-dashboard.tsx:154-163 | the alert request carries the classifier's non-empty description (Clear sky for unlisted codes), the rounded temperature, and a location string starting with the city |
| SessionProperties.ViewPrecedence | src/components/weather-dashboard.tsx:181-288 | skeleton if and only if loading; else error panel if and only if an error and no weather; else spinner if and only if weather, location or date is missing; else weather with banner, alert and details skeleton exactly when error, alert and loadingLocationDetails are set |
| SessionProperties.ValidViews | src/components/weather-dashboard.tsx:181-211 | in a reachable state the skeleton hides no error, the error panel's message is non-empty, and settled weather with a date is always shown |
| SessionProperties.InitialIsValid | src/components/weather-dashboard.tsx:27-36 | the initial state keeps the invariant, holds no error and shows the skeleton |
| SessionProperties.StepPreservesValid | src/components/weather-dashboard.tsx:42-179 | every handler step and completion keeps the invariant (weather implies location data, errors non-empty, loading implies no error, AI alert and location details set and cleared together) |
| SessionProperties.RunPreservesValid | src/components/weather-dashboard.tsx:42-179 | any sequence of handler starts, callbacks and completions, in any order and interleaved with each other's awaits, keeps the invariant |
| SessionProperties.RunAppend | src/components/weather-dashboard.tsx:42-179 | running two sequences of handler calls and completions one after the other is running their concatenation |
| SessionProperties.LastAnswerWins | src/components/weather-dashboard.tsx:126-153 | whatever came before, the last reverse-geocode and forecast answer to arrive sets the location data (city, else locality) and the rounded weather, stops loading and starts the details skeleton, leaving the coordinates alone |
| SessionProperties.StepKeepsKnownErrors | src/components/weather-dashboard.tsx:42-179 | every handler step and completion writes only one of the component's own error messages |
| SessionProperties.RunKeepsKnownErrors | src/components/weather-dashboard.tsx:42-179 | after any sequence of handler calls and completions the error is absent, one of the seven fixed messages, or the not-found message for a non-empty query |
| SessionProperties.LateAnswerIsNotDiscarded | src/components/weather-dashboard.tsx:106-151 | a forecast answering after a newer search stored other coordinates still fills in the weather and stops loading (reachable only through the handlers, since the buttons are disabled while loading) |
| SessionProperties.FetchDuringSearchAwait | src/components/weather-dashboard.tsx:95-175 | weather and an AI failure arriving while a search awaits, then no results: the weather view with the not-found message as banner and no details |
| SessionProperties.ParisScenario | src/components/weather-dashboard.tsx:60-153 | mount, a fix in Paris, 18.4 degrees, code 2, 11.7 km/h, 60 %, day: the weather view shows 18 degrees, 12 km/h and partly cloudy while details load |
| Dashboard.WeatherDashboard.constructor | src/components/weather-dashboard.tsx:27-36 | the initial hook values, which keep the invariant |
| Dashboard.WeatherDashboard.MountDate | src/components/weather-dashboard.tsx:38-40 | records the date and changes nothing else |
| Dashboard.WeatherDashboard.HandleGeoError | src/components/weather-dashboard.tsx:42-58 | the fields after handleGeoError are `AfterGeoError` of the old ones; keeps the invariant |
| Dashboard.WeatherDashboard.StartGeolocation | src/components/weather-dashboard.tsx:60-78 | the fields are `GeolocationStart` of the old ones; keeps the invariant |
| Dashboard.WeatherDashboard.ReceivePosition | src/components/weather-dashboard.tsx:65-71 | stores the coordinates and clears the error (`AfterPosition`); keeps the invariant |
| Dashboard.WeatherDashboard.RequestGeolocation | src/components/weather-dashboard.tsx:60-79 | the fields after requestGeolocation and its callback are `AfterRequestGeolocation` of the old ones; keeps the invariant |
| Dashboard.WeatherDashboard.StartSearch | src/components/weather-dashboard.tsx:85-93 | the fields are `SearchStart` of the old ones: unchanged for an empty query, else reset; keeps the invariant |
| Dashboard.WeatherDashboard.ReceiveSearchAnswer | src/components/weather-dashboard.tsx:95-112 | the fields are `SearchAnswer` of the old ones; keeps the invariant |
| Dashboard.WeatherDashboard.HandleSearch | src/components/weather-dashboard.tsx:85-113 | the fields after handleSearch are `AfterSearch` of the old ones; keeps the invariant |
| Dashboard.WeatherDashboard.BeginFetch | src/components/weather-dashboard.tsx:116-124 | nothing without a location, otherwise loading with every result cleared |
| Dashboard.WeatherDashboard.ReceiveCoreResponses | src/components/weather-dashboard.tsx:127-175 | the fields are `AfterCoreResponses` of the old ones; returns the alert request, sent only when both answers are ok, describing the stored weather and location |
| Dashboard.WeatherDashboard.ReceiveEnrichment | src/components/weather-dashboard.tsx:156-175 | the fields are `AfterEnrichment` of the old ones; keeps the invariant |
| Dashboard.WeatherDashboard.FetchData | src/components/weather-dashboard.tsx:115-179 | the fields are `AfterFetch` of the old ones; with a location it ends not loading and not loading details |

## Left out

- Network I/O and JSON parsing of the geocoding, reverse-geocoding and forecast answers (src/components/weather-dashboard.tsx:96-107,127-137). Their results are parameters. A thrown fetch or an unparsable search body is the same outcome as a not-ok answer.
- A forecast body without a `current` block. The source then throws after `setLocationData`, leaving location data without weather. Outcomes here are either not-ok or well-formed, so this case is not modelled.
- `Promise.all` concurrency (lines 127-130, 156-164). Each join enters as one outcome. The order of everything else is left free in `Session.Run`.
- The `Math.random` jitter in the historical-average text sent to the alert flow (line 160). `AlertRequest` leaves that text out.
- Rounding of NaN or infinite temperatures and wind speeds. `JsRound` works on reals.
- The AI flows themselves (src/ai/flows/*), the hotels and points-of-interest sections, the hero and team sections, the page layout and the team data. They are prompt templates, foreign model calls or layout.
- JSX markup, styling, date formatting, the "Try Again" button of the error panel, and the buttons' disabled state. The event model lets any event happen at any time, so it also covers clicks that the disabled buttons would block.
- The `searchQuery` input hook. `HandleSearch` takes the submitted query as a parameter. The query is interpolated into the search URL unencoded; that is I/O and not modelled.
