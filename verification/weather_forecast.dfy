/**
 The dashboard's weather card (src/components/dashboard/WeatherForecast.tsx): which icon it
 shows for a summary, whether the icon is drawn in the destructive colour, and when the card
 shows a loading skeleton instead of the text.
 */
module WeatherForecast {
  import opened Wrappers
  import opened Text
  import DashboardFlow

  datatype Icon = Thermometer | AlertTriangle | Sun | CloudRain | Snowflake | Wind | Cloud

  /** `lower.includes(w)` for some word `w` of `words`. */
  predicate MentionsAny(lower: string, words: seq<string>) {
    exists k :: 0 <= k < |words| && Contains(lower, words[k])
  }

  const AlertWords: seq<string> := ["unavailable", "error"]
  const SunWords: seq<string> := ["sun", "clear"]
  const RainWords: seq<string> := ["rain", "drizzle", "shower"]
  const SnowWords: seq<string> := ["snow"]
  const WindWords: seq<string> := ["wind"]
  const CloudWords: seq<string> := ["cloud", "overcast"]

  /** `getIconForForecast`: the tests run in a fixed order on the lower-cased summary and the
      first that matches decides; nothing, or no match, gives the thermometer. */
  function IconFor(summary: Option<string>): (r: Icon)
    ensures summary.None? || |summary.value| == 0 ==> r == Thermometer
    ensures r == AlertTriangle <==>
              summary.Some? && |summary.value| > 0 && MentionsAny(ToLower(summary.value), AlertWords)
  {
    if summary.None? || |summary.value| == 0 then Thermometer
    else
      var lower := ToLower(summary.value);
      if MentionsAny(lower, AlertWords) then AlertTriangle
      else if MentionsAny(lower, SunWords) then Sun
      else if MentionsAny(lower, RainWords) then CloudRain
      else if MentionsAny(lower, SnowWords) then Snowflake
      else if MentionsAny(lower, WindWords) then Wind
      else if MentionsAny(lower, CloudWords) then Cloud
      else Thermometer
  }

  /** A rule of the icon table: the words that select an icon. */
  datatype Rule = Rule(words: seq<string>, icon: Icon)

  /** The icon rules in priority order. */
  const Rules: seq<Rule> := [
    Rule(AlertWords, AlertTriangle), Rule(SunWords, Sun), Rule(RainWords, CloudRain),
    Rule(SnowWords, Snowflake), Rule(WindWords, Wind), Rule(CloudWords, Cloud)]

  /** The icon of the first rule in `rules` whose words `lower` mentions, if any. */
  function FirstMatch(rules: seq<Rule>, lower: string): Option<Icon>
    decreases |rules|
  {
    if |rules| == 0 then None
    else if MentionsAny(lower, rules[0].words) then Some(rules[0].icon)
    else FirstMatch(rules[1..], lower)
  }

  /** `FirstMatch` finds the earliest applicable rule, and finds none only when none applies. */
  lemma {:induction false} FirstMatchIsEarliest(rules: seq<Rule>, lower: string)
    ensures FirstMatch(rules, lower).None? <==> forall k :: 0 <= k < |rules| ==> !MentionsAny(lower, rules[k].words)
    ensures FirstMatch(rules, lower).Some? ==>
              exists k :: 0 <= k < |rules| && FirstMatch(rules, lower).value == rules[k].icon
                          && MentionsAny(lower, rules[k].words)
                          && forall j :: 0 <= j < k ==> !MentionsAny(lower, rules[j].words)
    decreases |rules|
  {
    if |rules| > 0 && !MentionsAny(lower, rules[0].words) {
      var tail := rules[1..];
      FirstMatchIsEarliest(tail, lower);
      assert forall k :: 1 <= k < |rules| ==> rules[k] == tail[k - 1];
      if FirstMatch(tail, lower).Some? {
        var k :| 0 <= k < |tail| && FirstMatch(tail, lower).value == tail[k].icon
                 && MentionsAny(lower, tail[k].words)
                 && forall j :: 0 <= j < k ==> !MentionsAny(lower, tail[j].words);
        assert forall j :: 0 <= j < k + 1 ==> !MentionsAny(lower, rules[j].words);
      }
    }
  }

  /** The icon is the first rule the lower-cased summary mentions, the thermometer when there is
      no summary or no rule applies. */
  lemma IconFollowsRuleTable(summary: Option<string>)
    ensures IconFor(summary) == if summary.None? || |summary.value| == 0 then Thermometer
                                else FirstMatch(Rules, ToLower(summary.value)).GetOr(Thermometer)
  {
    if summary.Some? && |summary.value| > 0 {
      var lower := ToLower(summary.value);
      var r1 := Rules[1..];
      var r2 := r1[1..];
      var r3 := r2[1..];
      var r4 := r3[1..];
      var r5 := r4[1..];
      assert r5 == [Rule(CloudWords, Cloud)];
      assert FirstMatch(r5[1..], lower) == None;
      assert FirstMatch(r5, lower) == if MentionsAny(lower, CloudWords) then Some(Cloud) else None;
      assert FirstMatch(r4, lower) == if MentionsAny(lower, WindWords) then Some(Wind) else FirstMatch(r5, lower);
      assert FirstMatch(r3, lower) == if MentionsAny(lower, SnowWords) then Some(Snowflake) else FirstMatch(r4, lower);
      assert FirstMatch(r2, lower) == if MentionsAny(lower, RainWords) then Some(CloudRain) else FirstMatch(r3, lower);
      assert FirstMatch(r1, lower) == if MentionsAny(lower, SunWords) then Some(Sun) else FirstMatch(r2, lower);
    }
  }

  /** The icon is drawn in the destructive colour when the summary mentions "unavailable". */
  predicate Destructive(summary: Option<string>)
    ensures Destructive(summary) ==> summary.Some? && |summary.value| >= |"unavailable"|
    ensures Destructive(summary) <==>
              summary.Some? && exists k: nat :: OccursAt(ToLower(summary.value), "unavailable", k)
  {
    summary.Some? && (ContainsIsLonger(ToLower(summary.value), "unavailable");
                      ContainsOccurs(ToLower(summary.value), "unavailable");
                      Contains(ToLower(summary.value), "unavailable"))
  }

  /** A destructive icon is always the warning triangle. */
  lemma DestructiveIsAlert(summary: Option<string>)
    requires Destructive(summary)
    ensures IconFor(summary) == AlertTriangle
  {
    var lower := ToLower(summary.value);
    assert |summary.value| > 0 by {
      var i :| 0 <= i <= |lower| && StartsWith(lower[i..], "unavailable");
    }
    assert Contains(lower, AlertWords[0]);
  }

  /** What the card shows. `text` is `None` while the skeleton is shown. */
  datatype CardView = CardView(icon: Icon, destructive: bool, text: Option<string>)

  function Card(summary: Option<string>): (r: CardView)
    ensures r.text.None? <==> summary.None? || |summary.value| == 0
    ensures r.text.Some? ==> r.text == summary
    ensures r.text.None? ==> r.icon == Thermometer && !r.destructive
  {
    var loading := summary.None? || |summary.value| == 0;
    if loading then
      assert !Destructive(summary) by {
        if summary.Some? {
          assert ToLower(summary.value) == "";
          assert !StartsWith(""[0..], "unavailable");
        }
      }
      CardView(IconFor(summary), Destructive(summary), None)
    else CardView(IconFor(summary), Destructive(summary), summary)
  }

  /** "unavailable" sits inside the fallback's weather-error summary. */
  lemma UnavailableInSummary(city: string, error: string)
    ensures Contains(ToLower(DashboardFlow.UnavailableSummary(city, error)), "unavailable")
  {
    var s := DashboardFlow.UnavailableSummary(city, error);
    var p := |DashboardFlow.UnavailableHead| + |OrDefault(city, DashboardFlow.UnavailableLocation)| + 14;
    var word := "unavailable";
    assert s == DashboardFlow.UnavailableHead + OrDefault(city, DashboardFlow.UnavailableLocation)
                + DashboardFlow.UnavailableMiddle + error;
    assert DashboardFlow.UnavailableMiddle[14..25] == word;
    assert s[p..p + 11] == word;
    assert forall j :: 0 <= j < 11 ==> 'a' <= word[j] <= 'z';
    forall j | 0 <= j < 11
      ensures ToLower(s)[p + j] == word[j]
    {
      assert s[p + j] == word[j];
    }
    assert ToLower(s)[p..p + 11] == word;
    ContainsAt(ToLower(s), word, p);
  }

  /** Handed the summary the dashboard fallback writes on a weather error, the card shows the
      warning triangle in the destructive colour. The dashboard page itself renders the card
      without a summary, so this is a statement about the card alone. */
  lemma FallbackWeatherErrorAlerts(city: string, weather: DashboardFlow.DetailedWeather)
    requires DashboardFlow.WeatherHasError(weather)
    ensures var summary := Some(DashboardFlow.FallbackSummary(city, weather));
            Destructive(summary) && Card(summary).icon == AlertTriangle && Card(summary).destructive
  {
    var summary := Some(DashboardFlow.FallbackSummary(city, weather));
    UnavailableInSummary(city, DashboardFlow.WeatherErrorText(weather));
    DestructiveIsAlert(summary);
  }
}
