/**
 The weather server action (src/app/actions/weatherActions.ts): a clothing recommendation
 from a rounded temperature, the unit and the condition text, and the classification of the
 weather provider's reply into the record the dashboard shows. The API key, the provider's
 reply and the rounding of its temperature come in as parameters.
 */
module WeatherAction {
  import opened Wrappers
  import opened Text
  import opened Schemas

  // ---------------------------------------------------------------------------
  // Clothing recommendation

  const RainAdvice := "Water-resistant jacket is a good idea. "
  const SnowAdvice := "Warm, waterproof layers are essential. "
  const LayersAdvice := "Dress in layers."

  /** The opening of the advice: rain wins over snow, and plain layering has no trailing space. */
  function ConditionPrefix(condition: string): (r: string)
    ensures Contains(ToLower(condition), "rain") ==> r == RainAdvice
    ensures !Contains(ToLower(condition), "rain") && Contains(ToLower(condition), "snow") ==> r == SnowAdvice
    ensures !Contains(ToLower(condition), "rain") && !Contains(ToLower(condition), "snow") ==> r == LayersAdvice
  {
    if Contains(ToLower(condition), "rain") then RainAdvice
    else if Contains(ToLower(condition), "snow") then SnowAdvice
    else LayersAdvice
  }

  /** The four temperature bands, warmest first. */
  datatype Band = Hot | Mild | Cool | Cold

  /** Warmer bands rank higher. */
  function Rank(b: Band): nat {
    match b
    case Cold => 0
    case Cool => 1
    case Mild => 2
    case Hot => 3
  }

  /** The strict lower bounds of the Hot, Mild and Cool bands in the given unit. */
  function HotAbove(unit: Unit): int { if unit == F then 75 else 24 }
  function MildAbove(unit: Unit): int { if unit == F then 60 else 15 }
  function CoolAbove(unit: Unit): int { if unit == F then 45 else 7 }

  function BandOf(temp: int, unit: Unit): (b: Band)
    ensures b == Hot <==> temp > HotAbove(unit)
    ensures b == Cold <==> temp <= CoolAbove(unit)
    ensures b == Mild <==> MildAbove(unit) < temp <= HotAbove(unit)
  {
    if temp > HotAbove(unit) then Hot
    else if temp > MildAbove(unit) then Mild
    else if temp > CoolAbove(unit) then Cool
    else Cold
  }

  /** The band's sentence; the four have different lengths. */
  function BandSentence(b: Band): string {
    match b
    case Hot => "Light t-shirt and shorts. Don't forget sunscreen!"
    case Mild => "Long-sleeve shirt and running tights or pants."
    case Cool => "Warm jacket, hat, and gloves might be needed."
    case Cold => "Very cold! Multiple layers, hat, gloves, and consider indoor options."
  }

  /** `generateClothingRecommendation`: the condition's opening followed by exactly one band sentence. */
  function ClothingRecommendation(temp: int, unit: Unit, condition: string): (r: string)
    ensures StartsWith(r, ConditionPrefix(condition))
    ensures r[|ConditionPrefix(condition)|..] == BandSentence(BandOf(temp, unit))
  {
    var prefix := ConditionPrefix(condition);
    var r := prefix + BandSentence(BandOf(temp, unit));
    assert r[..|prefix|] == prefix;
    r
  }

  /** A warmer reading never gets advice for a colder band. */
  lemma BandMonotone(t1: int, t2: int, unit: Unit)
    requires t1 <= t2
    ensures Rank(BandOf(t1, unit)) <= Rank(BandOf(t2, unit))
  {
  }

  /** Different bands give different sentences, so the advice names its band. */
  lemma BandSentenceInjective(a: Band, b: Band)
    requires BandSentence(a) == BandSentence(b)
    ensures a == b
  {
    assert |BandSentence(a)| == |BandSentence(b)|;
  }

  // ---------------------------------------------------------------------------
  // Provider reply

  /** The reply's `cod`: a number on success, sometimes a string on errors. */
  datatype Cod = CodNum(n: int) | CodStr(s: string)

  /** What the provider call produced. `description` is the first condition's description
      ("" when there is none) and `temp` the main temperature after `Math.round`. */
  datatype WeatherReply =
    | Threw
    | Reply(cod: Cod, message: string, description: string, temp: int, name: string)

  /** The record the dashboard shows. */
  datatype WeatherResult = WeatherResult(forecast: string, clothingRecommendation: string,
                                         locationCity: string, weatherUnit: Unit)

  /** The path `fetchWeatherFromAPI` takes. */
  datatype WeatherCase = NoApiKey | NoLocation | ProviderError | Unreachable | Reported

  function CaseOf(apiKey: string, locationCity: string, reply: WeatherReply): (r: WeatherCase)
    ensures r == NoApiKey <==> |apiKey| == 0
    ensures r == NoLocation <==> |apiKey| > 0 && |locationCity| == 0
    ensures r == Reported <==> |apiKey| > 0 && |locationCity| > 0 && reply.Reply? && reply.cod == CodNum(200)
    ensures r == Unreachable <==> |apiKey| > 0 && |locationCity| > 0 && reply.Threw?
  {
    if |apiKey| == 0 then NoApiKey
    else if |locationCity| == 0 then NoLocation
    else match reply
      case Threw => Unreachable
      case Reply(cod, _, _, _, _) => if cod == CodNum(200) then Reported else ProviderError
  }

  /** "°" as the source file spells it: the bytes of the degree sign read a second time as
      Latin-1, giving the two characters U+00C2 U+00B0. */
  const DegreeSign := "\U{00C2}\U{00B0}"

  /** `s.charAt(0).toUpperCase() + s.slice(1)`. */
  function Capitalize(s: string): (r: string)
    ensures |r| == |s|
    ensures |s| > 0 ==> r[0] == Upper(s[0]) && r[1..] == s[1..]
  {
    if |s| == 0 then s else [Upper(s[0])] + s[1..]
  }

  /** The condition text the success path uses. */
  function Condition(description: string): string {
    OrDefault(description, "N/A")
  }

  function ReportedForecast(description: string, temp: int, unit: Unit, name: string): string {
    Capitalize(Condition(description)) + ", " + IntToString(temp) + DegreeSign + UnitName(unit) + " in " + name + "."
  }

  const NoKeyForecast := "Weather service unavailable (no API key)."
  const NoLocationForecast := "Please set a location in your profile for weather updates."
  const UnreachableForecast := "Could not connect to weather service."
  const NoKeyAdvice := "Could not retrieve weather-based clothing advice."
  const NoLocationAdvice := "Set location for clothing advice."
  const ProviderErrorAdvice := "Unable to provide clothing advice."
  const UnreachableAdvice := "Unable to provide clothing advice due to connection error."

  /** `fetchWeatherFromAPI(locationCity, weatherUnit)`. `unit` is `None` when the caller leaves
      the unit out; `apiKey` is "" when the key is not configured. */
  function FetchWeather(apiKey: string, locationCity: string, unit: Option<Unit>, reply: WeatherReply): (r: WeatherResult)
    ensures r.weatherUnit == unit.GetOr(C)
    ensures CaseOf(apiKey, locationCity, reply) != Reported ==> r.locationCity == locationCity
    ensures CaseOf(apiKey, locationCity, reply) == NoApiKey ==>
              r == WeatherResult(NoKeyForecast, NoKeyAdvice, locationCity, unit.GetOr(C))
    ensures CaseOf(apiKey, locationCity, reply) == NoLocation ==>
              r == WeatherResult(NoLocationForecast, NoLocationAdvice,
                                 locationCity, unit.GetOr(C))
    ensures CaseOf(apiKey, locationCity, reply) == ProviderError ==>
              r.forecast == "Could not fetch weather for " + locationCity + ": " + OrDefault(reply.message, "Unknown error")
              && r.clothingRecommendation == ProviderErrorAdvice
    ensures CaseOf(apiKey, locationCity, reply) == Unreachable ==>
              r == WeatherResult(UnreachableForecast, UnreachableAdvice, locationCity, unit.GetOr(C))
    ensures CaseOf(apiKey, locationCity, reply) == Reported ==>
              && r.locationCity == reply.name
              && r.forecast == ReportedForecast(reply.description, reply.temp, unit.GetOr(C), reply.name)
              && r.clothingRecommendation == ClothingRecommendation(reply.temp, unit.GetOr(C), Condition(reply.description))
  {
    var u := unit.GetOr(C);
    if |apiKey| == 0 then
      WeatherResult(NoKeyForecast, NoKeyAdvice, locationCity, u)
    else if |locationCity| == 0 then
      WeatherResult(NoLocationForecast, NoLocationAdvice, locationCity, u)
    else match reply
      case Threw =>
        WeatherResult(UnreachableForecast, UnreachableAdvice, locationCity, u)
      case Reply(cod, message, description, temp, name) =>
        if cod != CodNum(200) then
          WeatherResult("Could not fetch weather for " + locationCity + ": " + OrDefault(message, "Unknown error"),
                        ProviderErrorAdvice, locationCity, u)
        else
          WeatherResult(ReportedForecast(description, temp, u, name),
                        ClothingRecommendation(temp, u, Condition(description)), name, u)
  }
}
