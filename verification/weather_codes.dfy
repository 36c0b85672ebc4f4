/**
 * The weather-code classifier of src/lib/weather-utils.ts: a total, table-driven map from an
 * Open-Meteo WMO weather interpretation code (derived from WMO code table 4677) and the forecast's
 * `is_day` number to a description, an icon and an animation class.
 */
module WeatherCodes {

  /** The icons the classifier hands out (the lucide-react components it returns). */
  datatype Icon = Sun | Moon | Cloud | CloudFog | CloudRain | CloudSnow | Snowflake | Zap

  datatype WeatherInfo = WeatherInfo(description: string, icon: Icon, animation: string)

  /** Only `isDay === 1` counts as daytime; 0, 2, -1 and every other number are night. */
  predicate IsDaytime(isDay: int) {
    isDay == 1
  }

  /** The day-dependent result shared by codes 0 and 1 and by the fallback arm. */
  function SkyInfo(description: string, isDay: int): WeatherInfo {
    if IsDaytime(isDay) then WeatherInfo(description, Sun, "animate-spin-slow")
    else WeatherInfo(description, Moon, "")
  }

  /** getWeatherInfo(code, isDay) */
  function GetWeatherInfo(code: int, isDay: int): WeatherInfo {
    match code
    case 0 => SkyInfo("Clear sky", isDay)
    case 1 => SkyInfo("Mainly clear", isDay)
    case 2 => WeatherInfo("Partly cloudy", Cloud, "animate-float")
    case 3 => WeatherInfo("Overcast", Cloud, "animate-float")
    case 45 | 48 => WeatherInfo("Fog", CloudFog, "animate-float")
    case 51 | 53 | 55 => WeatherInfo("Drizzle", CloudRain, "animate-float")
    case 61 | 63 | 65 => WeatherInfo("Rain", CloudRain, "animate-float")
    case 66 | 67 => WeatherInfo("Freezing Rain", CloudSnow, "animate-float")
    case 71 | 73 | 75 => WeatherInfo("Snow fall", Snowflake, "animate-pulse")
    case 77 => WeatherInfo("Snow grains", Snowflake, "animate-pulse")
    case 80 | 81 | 82 => WeatherInfo("Rain showers", CloudRain, "animate-float")
    case 85 | 86 => WeatherInfo("Snow showers", CloudSnow, "animate-float")
    case 95 => WeatherInfo("Thunderstorm", Zap, "animate-pulse")
    case 96 | 99 => WeatherInfo("Thunderstorm with hail", Zap, "animate-pulse")
    case _ => SkyInfo("Clear sky", isDay)
  }

  /**
   * An independent statement of the table: the weather conditions the classifier names, the
   * WMO codes grouped under each, and the description it gives them.
   */
  datatype Condition =
    | ClearSky | MainlyClear | PartlyCloudy | Overcast | Fog | Drizzle | Rain | FreezingRain
    | SnowFall | SnowGrains | RainShowers | SnowShowers | Thunderstorm | ThunderstormWithHail

  function Codes(k: Condition): set<int> {
    match k
    case ClearSky => {0}
    case MainlyClear => {1}
    case PartlyCloudy => {2}
    case Overcast => {3}
    case Fog => {45, 48}
    case Drizzle => {51, 53, 55}
    case Rain => {61, 63, 65}
    case FreezingRain => {66, 67}
    case SnowFall => {71, 73, 75}
    case SnowGrains => {77}
    case RainShowers => {80, 81, 82}
    case SnowShowers => {85, 86}
    case Thunderstorm => {95}
    case ThunderstormWithHail => {96, 99}
  }

  function Description(k: Condition): string {
    match k
    case ClearSky => "Clear sky"
    case MainlyClear => "Mainly clear"
    case PartlyCloudy => "Partly cloudy"
    case Overcast => "Overcast"
    case Fog => "Fog"
    case Drizzle => "Drizzle"
    case Rain => "Rain"
    case FreezingRain => "Freezing Rain"
    case SnowFall => "Snow fall"
    case SnowGrains => "Snow grains"
    case RainShowers => "Rain showers"
    case SnowShowers => "Snow showers"
    case Thunderstorm => "Thunderstorm"
    case ThunderstormWithHail => "Thunderstorm with hail"
  }

  /** The result the classifier gives a condition's codes. */
  function ResultOf(k: Condition, isDay: int): WeatherInfo {
    match k
    case ClearSky | MainlyClear => SkyInfo(Description(k), isDay)
    case PartlyCloudy | Overcast => WeatherInfo(Description(k), Cloud, "animate-float")
    case Fog => WeatherInfo(Description(k), CloudFog, "animate-float")
    case Drizzle | Rain | RainShowers => WeatherInfo(Description(k), CloudRain, "animate-float")
    case FreezingRain | SnowShowers => WeatherInfo(Description(k), CloudSnow, "animate-float")
    case SnowFall | SnowGrains => WeatherInfo(Description(k), Snowflake, "animate-pulse")
    case Thunderstorm | ThunderstormWithHail => WeatherInfo(Description(k), Zap, "animate-pulse")
  }

  /** Every code that has a `case` of its own. */
  function ListedCodes(): set<int> {
    {0, 1, 2, 3, 45, 48, 51, 53, 55, 61, 63, 65, 66, 67, 71, 73, 75, 77, 80, 81, 82, 85, 86, 95, 96, 99}
  }

  /** The codes whose result depends on `isDay`: clear sky and mainly clear. */
  function DayDependentCodes(): set<int> {
    {0, 1}
  }

  /** The codes shown with the pulsing animation: snow fall, snow grains and both thunderstorms. */
  function PulsingCodes(): set<int> {
    {71, 73, 75, 77, 95, 96, 99}
  }

  // ---------------------------------------------------------------------------------------------
  // Properties of the table

  /** The description is never empty, whatever the code and the day flag. */
  lemma DescriptionNeverEmpty(code: int, isDay: int)
    ensures GetWeatherInfo(code, isDay).description != ""
  {
  }

  /** Code 0 by day is the spinning sun, by night the still moon; code 2 ignores the day flag. */
  lemma KnownResults(isDay: int)
    ensures GetWeatherInfo(0, 1) == WeatherInfo("Clear sky", Sun, "animate-spin-slow")
    ensures !IsDaytime(isDay) ==> GetWeatherInfo(0, isDay) == WeatherInfo("Clear sky", Moon, "")
    ensures GetWeatherInfo(2, isDay) == WeatherInfo("Partly cloudy", Cloud, "animate-float")
  {
  }

  /** Each listed code is described by the condition whose group holds it. */
  lemma TableAgreesWithConditions(k: Condition, code: int, isDay: int)
    requires code in Codes(k)
    ensures GetWeatherInfo(code, isDay).description == Description(k)
  {
    GroupResult(k, code, isDay);
  }

  /** No code belongs to two groups. */
  lemma GroupsDisjoint(k1: Condition, k2: Condition)
    requires k1 != k2
    ensures Codes(k1) !! Codes(k2)
  {
  }

  /** Two conditions never share a description. */
  lemma DescriptionsDistinct(k1: Condition, k2: Condition)
    requires k1 != k2
    ensures Description(k1) != Description(k2)
  {
  }

  /** Grouping law: codes of one group give identical results (61, 63 and 65 are all "Rain"). */
  lemma SameGroupSameResult(k: Condition, c1: int, c2: int, isDay: int)
    requires c1 in Codes(k) && c2 in Codes(k)
    ensures GetWeatherInfo(c1, isDay) == GetWeatherInfo(c2, isDay)
  {
    GroupResult(k, c1, isDay);
    GroupResult(k, c2, isDay);
  }

  /** The result every code of a group gives. */
  lemma GroupResult(k: Condition, code: int, isDay: int)
    requires code in Codes(k)
    ensures GetWeatherInfo(code, isDay) == ResultOf(k, isDay)
  {
  }

  /** ... and codes of different groups give different results, whatever the day flags. */
  lemma DistinctGroupsDiffer(k1: Condition, k2: Condition, c1: int, c2: int, d1: int, d2: int)
    requires k1 != k2 && c1 in Codes(k1) && c2 in Codes(k2)
    ensures GetWeatherInfo(c1, d1) != GetWeatherInfo(c2, d2)
  {
    TableAgreesWithConditions(k1, c1, d1);
    TableAgreesWithConditions(k2, c2, d2);
    DescriptionsDistinct(k1, k2);
  }

  /** The group a listed code belongs to. */
  lemma GroupOf(code: int) returns (k: Condition)
    requires code in ListedCodes()
    ensures code in Codes(k)
  {
    if code in Codes(ClearSky) { k := ClearSky; }
    else if code in Codes(MainlyClear) { k := MainlyClear; }
    else if code in Codes(PartlyCloudy) { k := PartlyCloudy; }
    else if code in Codes(Overcast) { k := Overcast; }
    else if code in Codes(Fog) { k := Fog; }
    else if code in Codes(Drizzle) { k := Drizzle; }
    else if code in Codes(Rain) { k := Rain; }
    else if code in Codes(FreezingRain) { k := FreezingRain; }
    else if code in Codes(SnowFall) { k := SnowFall; }
    else if code in Codes(SnowGrains) { k := SnowGrains; }
    else if code in Codes(RainShowers) { k := RainShowers; }
    else if code in Codes(SnowShowers) { k := SnowShowers; }
    else if code in Codes(Thunderstorm) { k := Thunderstorm; }
    else { k := ThunderstormWithHail; }
  }

  /** The listed codes are exactly the codes of the groups. */
  lemma GroupedCodesAreListed(k: Condition, code: int)
    requires code in Codes(k)
    ensures code in ListedCodes()
  {
  }

  /** A code without a `case` of its own takes the `default` arm. */
  lemma UnlistedTakesDefault(code: int, isDay: int)
    requires code !in ListedCodes()
    ensures GetWeatherInfo(code, isDay) == SkyInfo("Clear sky", isDay)
  {
  }

  /**
   * Totality and fallback: a code gives the code-0 result for the same day flag exactly when it
   * is 0 or has no `case` of its own.
   */
  lemma FallbackIsClearSky(code: int, isDay: int)
    ensures GetWeatherInfo(code, isDay) == GetWeatherInfo(0, isDay) <==> code == 0 || code !in ListedCodes()
  {
    if code !in ListedCodes() {
      UnlistedTakesDefault(code, isDay);
    } else if code != 0 {
      var k := GroupOf(code);
      DistinctGroupsDiffer(k, ClearSky, code, 0, isDay, isDay);
    }
  }

  /**
   * Daytime holds only for `isDay == 1`: the sun (and the spinning animation) appears exactly for
   * a day-dependent or unlisted code by day, the moon (and no animation) for one by night.
   */
  lemma SunOnlyByDay(code: int, isDay: int)
    ensures var r := GetWeatherInfo(code, isDay);
      && (r.icon == Sun <==> IsDaytime(isDay) && (code in DayDependentCodes() || code !in ListedCodes()))
      && (r.icon == Moon <==> !IsDaytime(isDay) && (code in DayDependentCodes() || code !in ListedCodes()))
      && (r.animation == "animate-spin-slow" <==> r.icon == Sun)
      && (r.icon == Moon ==> r.animation == "")
  {
    if code !in ListedCodes() {
      UnlistedTakesDefault(code, isDay);
    } else {
      var k := GroupOf(code);
      GroupIcons(k, code, isDay);
    }
  }

  /** Icon and animation of one group. */
  lemma GroupIcons(k: Condition, code: int, isDay: int)
    requires code in Codes(k)
    ensures var r := GetWeatherInfo(code, isDay);
      && (k == ClearSky || k == MainlyClear ==> r == SkyInfo(Description(k), isDay))
      && (k != ClearSky && k != MainlyClear ==> r.icon != Sun && r.icon != Moon && r.animation != "animate-spin-slow")
      && (r.animation == "animate-pulse" <==> k in {SnowFall, SnowGrains, Thunderstorm, ThunderstormWithHail})
      && r.animation in {"animate-float", "animate-spin-slow", "", "animate-pulse"}
  {
    GroupResult(k, code, isDay);
  }

  /** Every listed code other than 0 and 1 ignores the day flag; codes 0, 1 and unlisted ones do not. */
  lemma DayFlagIndependence(code: int, d1: int, d2: int)
    ensures code in ListedCodes() - DayDependentCodes() ==> GetWeatherInfo(code, d1) == GetWeatherInfo(code, d2)
    ensures GetWeatherInfo(code, 1) == GetWeatherInfo(code, 0) <==> code in ListedCodes() - DayDependentCodes()
  {
    if code !in ListedCodes() {
      UnlistedTakesDefault(code, 1);
      UnlistedTakesDefault(code, 0);
    } else {
      var k := GroupOf(code);
      GroupIcons(k, code, d1);
      GroupIcons(k, code, d2);
      GroupIcons(k, code, 1);
      GroupIcons(k, code, 0);
    }
  }

  /**
   * Snow fall, snow grains and both thunderstorms pulse; the only other animations are floating,
   * slow spinning and none.
   */
  lemma Animations(code: int, isDay: int)
    ensures var a := GetWeatherInfo(code, isDay).animation;
      && (a == "animate-pulse" <==> code in PulsingCodes())
      && a in {"animate-float", "animate-spin-slow", "", "animate-pulse"}
  {
    if code !in ListedCodes() {
      UnlistedTakesDefault(code, isDay);
    } else {
      var k := GroupOf(code);
      GroupIcons(k, code, isDay);
    }
  }
}
