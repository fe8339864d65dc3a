/**
 The dashboard content flow (src/ai/flows/generate-dashboard-content.ts). The language model
 is an oracle: `generated` is `Some(raw)` when the prompt produced an output and `None`
 when it produced none or threw. A produced output is sanitised field by field; otherwise a
 fallback record is assembled from the input and two further oracles, the greeting tool and
 the news tool. Either way the flow returns a complete record.
 */
module DashboardFlow {
  import opened Wrappers
  import opened Text
  import opened Seqs
  import opened Json
  import opened NewsCategories
  import opened Schemas
  import opened NewsTool

  /** The forecast handed to the flow, or the error object that replaces it. Only the
      fields the flow itself reads are kept; the rest only feed the prompt. */
  datatype DetailedWeather =
    | Forecast(locationName: string, date: string, overallDescription: string, forecastError: Option<string>)
    | Unavailable(error: string, errorLocation: Option<string>)

  datatype DashboardInput = DashboardInput(
    userId: string,
    userName: string,
    locationCity: string,
    runningLevel: string,
    goal: string,
    todaysWorkout: string,
    detailedWeather: DetailedWeather,
    weatherUnit: Unit,
    newsSearchCategories: Option<seq<NewsCategory>>)

  /** The generator's output before sanitising: the three list-like fields are untrusted JSON. */
  datatype RawOutput = RawOutput(
    greeting: string,
    weatherSummary: string,
    workoutForDisplay: string,
    topStories: Value,
    planEndNotification: Value,
    dressMyRunSuggestion: Value)

  datatype Story = Story(title: string, summary: string, url: string, source: Option<string>)

  datatype ClothingItem = ClothingItem(item: string, category: string)

  /** The flow's result. `planEndNotification` is a JSON value that is never `Undefined`. */
  datatype DashboardOutput = DashboardOutput(
    greeting: string,
    weatherSummary: string,
    workoutForDisplay: string,
    topStories: seq<Story>,
    planEndNotification: Value,
    dressMyRunSuggestion: seq<ClothingItem>)

  const MaxStories := 5

  // ---------------------------------------------------------------------------
  // The weather error test

  /** The error string the weather input carries, "" when there is none. */
  function WeatherErrorText(w: DetailedWeather): string {
    match w
    case Forecast(_, _, _, error) => error.GetOr("")
    case Unavailable(error, _) => error
  }

  /** The input carries an `error` member that is a non-empty string. */
  predicate WeatherHasError(w: DetailedWeather) {
    |WeatherErrorText(w)| > 0
  }

  // ---------------------------------------------------------------------------
  // Sanitising a produced output

  /** A story entry worth keeping: an object with a non-blank title, string summary, a url
      that `isUrl` accepts (standing for `new URL(url)` not throwing) and a string or absent source. */
  predicate ValidStory(v: Value, isUrl: string -> bool) {
    && v.Obj?
    && Get(v.fields, "title").Str? && !IsBlank(Get(v.fields, "title").s)
    && Get(v.fields, "summary").Str?
    && Get(v.fields, "url").Str? && isUrl(Get(v.fields, "url").s)
    && (Get(v.fields, "source").Str? || Get(v.fields, "source").Undefined?)
  }

  function ValidStoryWith(isUrl: string -> bool): Value -> bool {
    v => ValidStory(v, isUrl)
  }

  /** The typed reading of a story entry; meaningful for valid entries. */
  function StoryOf(v: Value): Story {
    if v.Obj? then
      var source := Get(v.fields, "source");
      Story(StrOr(Get(v.fields, "title")), StrOr(Get(v.fields, "summary")), StrOr(Get(v.fields, "url")),
            if source.Str? then Some(source.s) else None)
    else Story("", "", "", None)
  }

  function StrOr(v: Value): string {
    if v.Str? then v.s else ""
  }

  /** A clothing entry worth keeping: an object whose `item` and `category` are non-blank strings. */
  predicate ValidItem(v: Value) {
    && v.Obj?
    && "item" in v.fields && v.fields["item"].Str? && !IsBlank(v.fields["item"].s)
    && "category" in v.fields && v.fields["category"].Str? && !IsBlank(v.fields["category"].s)
  }

  function ItemOf(v: Value): ClothingItem {
    if v.Obj? then ClothingItem(StrOr(Get(v.fields, "item")), StrOr(Get(v.fields, "category")))
    else ClothingItem("", "")
  }

  /** `s.slice(0, n)`. */
  function Take<T>(s: seq<T>, n: nat): (r: seq<T>)
    ensures |r| == if |s| < n then |s| else n
    ensures r == s[..|r|]
  {
    if |s| < n then s else s[..n]
  }

  /** The valid story entries, in order, as stories. */
  function ValidStories(v: Value, isUrl: string -> bool): seq<Story> {
    if v.Arr? then Map(StoryOf, Filter(ValidStoryWith(isUrl), v.items)) else []
  }

  function SanitizeStories(v: Value, isUrl: string -> bool): (r: seq<Story>)
    ensures |r| <= MaxStories
    ensures !v.Arr? ==> r == []
    ensures forall i :: 0 <= i < |r| ==> !IsBlank(r[i].title) && isUrl(r[i].url)
  {
    ValidStoriesAreValid(v, isUrl);
    Take(ValidStories(v, isUrl), MaxStories)
  }

  /** Every story read from a valid entry has a non-blank title and an accepted url. */
  lemma ValidStoriesAreValid(v: Value, isUrl: string -> bool)
    ensures forall i :: 0 <= i < |ValidStories(v, isUrl)| ==>
      !IsBlank(ValidStories(v, isUrl)[i].title) && isUrl(ValidStories(v, isUrl)[i].url)
  {
    if v.Arr? {
      var kept := Filter(ValidStoryWith(isUrl), v.items);
      var stories := Map(StoryOf, kept);
      forall i | 0 <= i < |stories|
        ensures !IsBlank(stories[i].title) && isUrl(stories[i].url)
      {
        assert ValidStoryWith(isUrl)(kept[i]);
        assert stories[i] == StoryOf(kept[i]);
      }
    }
  }

  function SanitizeClothing(v: Value, weather: DetailedWeather): (r: seq<ClothingItem>)
    ensures WeatherHasError(weather) || !v.Arr? ==> r == []
    ensures forall i :: 0 <= i < |r| ==> !IsBlank(r[i].item) && !IsBlank(r[i].category)
  {
    if !v.Arr? || WeatherHasError(weather) then []
    else
      var kept := Filter(ValidItem, v.items);
      assert forall i :: 0 <= i < |kept| ==> ValidItem(kept[i]);
      Map(ItemOf, kept)
  }

  /** An absent or whitespace-only notice becomes `null`; anything else is kept. */
  function NormalizePlanEnd(v: Value): (r: Value)
    ensures r.Null? <==> v.Undefined? || v.Null? || (v.Str? && IsBlank(v.s))
    ensures !r.Null? ==> r == v
    ensures !r.Undefined?
  {
    if v.Undefined? || (v.Str? && IsBlank(v.s)) then Null else v
  }

  /** The sanitiser applied to a produced output. */
  function Sanitize(raw: RawOutput, weather: DetailedWeather, isUrl: string -> bool): (r: DashboardOutput)
    ensures r.greeting == raw.greeting
    ensures r.weatherSummary == raw.weatherSummary
    ensures r.workoutForDisplay == raw.workoutForDisplay
    ensures r.topStories == SanitizeStories(raw.topStories, isUrl)
    ensures |r.topStories| <= MaxStories
    ensures forall i :: 0 <= i < |r.topStories| ==>
      !IsBlank(r.topStories[i].title) && isUrl(r.topStories[i].url)
    ensures r.dressMyRunSuggestion == SanitizeClothing(raw.dressMyRunSuggestion, weather)
    ensures WeatherHasError(weather) ==> r.dressMyRunSuggestion == []
    ensures forall i :: 0 <= i < |r.dressMyRunSuggestion| ==>
      !IsBlank(r.dressMyRunSuggestion[i].item) && !IsBlank(r.dressMyRunSuggestion[i].category)
    ensures r.planEndNotification == NormalizePlanEnd(raw.planEndNotification)
    ensures r.planEndNotification.Null? <==>
      var v := raw.planEndNotification; v.Undefined? || v.Null? || (v.Str? && IsBlank(v.s))
    ensures !r.planEndNotification.Null? ==> r.planEndNotification == raw.planEndNotification
  {
    DashboardOutput(
      raw.greeting,
      raw.weatherSummary,
      raw.workoutForDisplay,
      SanitizeStories(raw.topStories, isUrl),
      NormalizePlanEnd(raw.planEndNotification),
      SanitizeClothing(raw.dressMyRunSuggestion, weather))
  }

  /** The kept stories are the first valid entries: all of them when there are at most five,
      otherwise the first five, in their original order. */
  lemma StoriesAreFirstValid(v: Value, isUrl: string -> bool)
    requires v.Arr?
    ensures var valid := Map(StoryOf, Filter(ValidStoryWith(isUrl), v.items));
            SanitizeStories(v, isUrl) == valid[..|SanitizeStories(v, isUrl)|]
    ensures |SanitizeStories(v, isUrl)| ==
            if Count(ValidStoryWith(isUrl), v.items) < MaxStories then Count(ValidStoryWith(isUrl), v.items) else MaxStories
  {
    FilterLength(ValidStoryWith(isUrl), v.items);
  }

  /** Without a weather error the clothing list keeps exactly the valid entries, in order. */
  lemma ClothingKeepsValidItems(v: Value, weather: DetailedWeather)
    requires v.Arr? && !WeatherHasError(weather)
    ensures SanitizeClothing(v, weather) == Map(ItemOf, Filter(ValidItem, v.items))
    ensures |SanitizeClothing(v, weather)| == Count(ValidItem, v.items)
  {
    FilterLength(ValidItem, v.items);
  }

  // ---------------------------------------------------------------------------
  // Sanitising is idempotent

  /** A story written back as a JSON object; an absent source leaves the key out. */
  function StoryValue(s: Story): Value {
    var base := map["title" := Str(s.title), "summary" := Str(s.summary), "url" := Str(s.url)];
    if s.source.Some? then Obj(base["source" := Str(s.source.value)]) else Obj(base)
  }

  function ItemValue(c: ClothingItem): Value {
    Obj(map["item" := Str(c.item), "category" := Str(c.category)])
  }

  /** A sanitised output written back as a generator output. */
  function OutputValue(r: DashboardOutput): RawOutput {
    RawOutput(r.greeting, r.weatherSummary, r.workoutForDisplay,
              Arr(Map(StoryValue, r.topStories)), r.planEndNotification,
              Arr(Map(ItemValue, r.dressMyRunSuggestion)))
  }

  lemma StoryKeysDistinct()
    ensures "title" != "summary" && "title" != "url" && "title" != "source"
    ensures "summary" != "url" && "summary" != "source" && "url" != "source"
  {
    assert "title"[0] == 't' && "summary"[0] == 's' && "url"[0] == 'u' && "source"[0] == 's';
    assert "summary"[1] == 'u' && "source"[1] == 'o';
  }

  lemma StoryValueRoundTrip(s: Story, isUrl: string -> bool)
    requires !IsBlank(s.title) && isUrl(s.url)
    ensures ValidStory(StoryValue(s), isUrl)
    ensures StoryOf(StoryValue(s)) == s
  {
    StoryValueFields(s);
  }

  /** Reading the keys of a written story gives back its fields. */
  lemma StoryValueFields(s: Story)
    ensures StoryValue(s).Obj?
    ensures Get(StoryValue(s).fields, "title") == Str(s.title)
    ensures Get(StoryValue(s).fields, "summary") == Str(s.summary)
    ensures Get(StoryValue(s).fields, "url") == Str(s.url)
    ensures Get(StoryValue(s).fields, "source") == if s.source.Some? then Str(s.source.value) else Undefined
  {
    StoryKeysDistinct();
  }

  lemma ItemValueRoundTrip(c: ClothingItem)
    requires !IsBlank(c.item) && !IsBlank(c.category)
    ensures ValidItem(ItemValue(c))
    ensures ItemOf(ItemValue(c)) == c
  {
  }

  /** Stories that passed the sanitiser pass it again unchanged. */
  lemma StoriesIdempotent(stories: seq<Story>, isUrl: string -> bool)
    requires |stories| <= MaxStories
    requires forall i :: 0 <= i < |stories| ==> !IsBlank(stories[i].title) && isUrl(stories[i].url)
    ensures SanitizeStories(Arr(Map(StoryValue, stories)), isUrl) == stories
  {
    forall i | 0 <= i < |stories|
      ensures ValidStoryWith(isUrl)(StoryValue(stories[i])) && StoryOf(StoryValue(stories[i])) == stories[i]
    {
      StoryValueRoundTrip(stories[i], isUrl);
    }
    ReadBack(StoryValue, ValidStoryWith(isUrl), StoryOf, stories);
    calc {
      SanitizeStories(Arr(Map(StoryValue, stories)), isUrl);
      Take(ValidStories(Arr(Map(StoryValue, stories)), isUrl), MaxStories);
      Take(stories, MaxStories);
      stories;
    }
  }

  /** Clothing items that passed the sanitiser pass it again unchanged. */
  lemma ClothingIdempotent(items: seq<ClothingItem>, weather: DetailedWeather)
    requires !WeatherHasError(weather)
    requires forall i :: 0 <= i < |items| ==> !IsBlank(items[i].item) && !IsBlank(items[i].category)
    ensures SanitizeClothing(Arr(Map(ItemValue, items)), weather) == items
  {
    forall i | 0 <= i < |items|
      ensures ValidItem(ItemValue(items[i])) && ItemOf(ItemValue(items[i])) == items[i]
    {
      ItemValueRoundTrip(items[i]);
    }
    ReadBack(ItemValue, ValidItem, ItemOf, items);
  }

  /** Sanitising an already sanitised output changes nothing. */
  lemma SanitizeIdempotent(raw: RawOutput, weather: DetailedWeather, isUrl: string -> bool)
    ensures Sanitize(OutputValue(Sanitize(raw, weather, isUrl)), weather, isUrl) == Sanitize(raw, weather, isUrl)
  {
    var r := Sanitize(raw, weather, isUrl);
    StoriesIdempotent(r.topStories, isUrl);
    if !WeatherHasError(weather) {
      ClothingIdempotent(r.dressMyRunSuggestion, weather);
    }
  }

  // ---------------------------------------------------------------------------
  // The fallback record

  const UnavailableLocation := "your location"
  const NoWorkoutText := "No workout information available."
  const UnavailableHead := "Weather forecast for "
  const UnavailableMiddle := " is currently unavailable: "
  const NoSummaryHead := "Could not generate weather summary and running recommendation for "
  const NoSummaryTail := " at this time due to an AI processing issue. Please check back later."
  const GreetingTail := ", your personalized dashboard content could not be generated by the AI at this time."

  /** The summary that reports a weather error; it ends with the error, with no period added. */
  function UnavailableSummary(city: string, error: string): string {
    UnavailableHead + OrDefault(city, UnavailableLocation) + UnavailableMiddle + error
  }

  function NoSummaryText(city: string): string {
    NoSummaryHead + OrDefault(city, UnavailableLocation) + NoSummaryTail
  }

  function DefaultGreeting(userName: string): string {
    "Hello " + userName + GreetingTail
  }

  /** A news article as a story: the snippet becomes the summary and the link the url. */
  function ArticleStory(a: Article): (s: Story)
    ensures s.title == a.title && s.summary == a.snippet && s.url == a.link && s.source == Some(a.source)
  {
    Story(a.title, a.snippet, a.link, Some(a.source))
  }

  function FallbackGreeting(userName: string, greetingTool: Option<string>): (g: string)
    ensures greetingTool.Some? && |greetingTool.value| > 0 ==> g == greetingTool.value
    ensures greetingTool.None? || |greetingTool.value| == 0 ==> g == DefaultGreeting(userName)
  {
    if greetingTool.Some? && |greetingTool.value| > 0 then greetingTool.value else DefaultGreeting(userName)
  }

  function FallbackSummary(city: string, weather: DetailedWeather): (s: string)
    ensures WeatherHasError(weather) ==> s == UnavailableSummary(city, WeatherErrorText(weather))
    ensures !WeatherHasError(weather) ==> s == NoSummaryText(city)
  {
    if WeatherHasError(weather) then UnavailableSummary(city, WeatherErrorText(weather)) else NoSummaryText(city)
  }

  /** The fallback's stories: the news tool's articles one for one, none when the tool threw. */
  function FallbackStories(newsTool: Option<NewsOutput>): (r: seq<Story>)
    ensures newsTool.None? ==> r == []
    ensures newsTool.Some? ==> |r| == |newsTool.value.articles|
    ensures newsTool.Some? ==> forall i :: 0 <= i < |r| ==> r[i] == ArticleStory(newsTool.value.articles[i])
  {
    if newsTool.Some? then Map(ArticleStory, newsTool.value.articles) else []
  }

  /** The record built when the generator fails. `greetingTool` is the greeting tool's
      greeting (`None` when it throws); `newsTool` is the news tool's output (`None` when it throws). */
  function Fallback(input: DashboardInput, greetingTool: Option<string>, newsTool: Option<NewsOutput>): (r: DashboardOutput)
    ensures r.planEndNotification == Null && r.dressMyRunSuggestion == []
    ensures newsTool.None? ==> r.topStories == []
    ensures newsTool.Some? ==> |r.topStories| == |newsTool.value.articles|
    ensures newsTool.Some? ==> forall i :: 0 <= i < |r.topStories| ==>
              r.topStories[i] == ArticleStory(newsTool.value.articles[i])
    ensures r.topStories == FallbackStories(newsTool)
  {
    DashboardOutput(
      FallbackGreeting(input.userName, greetingTool),
      FallbackSummary(input.locationCity, input.detailedWeather),
      OrDefault(input.todaysWorkout, NoWorkoutText),
      FallbackStories(newsTool),
      Null,
      [])
  }

  /** The fallback greeting is the tool's greeting when it gave a non-empty one, the fixed
      apology otherwise; the weather summary reports the weather error when there is one; the
      workout is the day's workout, or a fixed notice when there is none. */
  lemma FallbackMessages(input: DashboardInput, greetingTool: Option<string>, newsTool: Option<NewsOutput>)
    ensures var r := Fallback(input, greetingTool, newsTool);
            && (greetingTool.Some? && |greetingTool.value| > 0 ==> r.greeting == greetingTool.value)
            && (greetingTool.None? || |greetingTool.value| == 0 ==> r.greeting == DefaultGreeting(input.userName))
            && (WeatherHasError(input.detailedWeather) ==>
                  r.weatherSummary == UnavailableSummary(input.locationCity, WeatherErrorText(input.detailedWeather)))
            && (!WeatherHasError(input.detailedWeather) ==> r.weatherSummary == NoSummaryText(input.locationCity))
            && (|input.todaysWorkout| > 0 ==> r.workoutForDisplay == input.todaysWorkout)
            && (|input.todaysWorkout| == 0 ==> r.workoutForDisplay == NoWorkoutText)
  {
  }

  /** With the news tool itself behind the fallback, no fallback story carries the "#"
      placeholder or an empty url, and a failed search gives no stories. */
  lemma FallbackStoriesFromTool(input: DashboardInput, news: NewsOutput, configured: bool,
                                search: string -> SearchResponse, hostOf: string -> Option<string>)
    requires news == FetchNews(configured, Some(input.locationCity), input.newsSearchCategories, search, hostOf)
    ensures forall i :: 0 <= i < |FallbackStories(Some(news))| ==> FallbackStories(Some(news))[i].url !in {"#", ""}
    ensures news.error.Some? ==> FallbackStories(Some(news)) == []
  {
    assert forall i :: 0 <= i < |news.articles| ==> news.articles[i].link !in {"#", ""} by {
      forall i | 0 <= i < |news.articles|
        ensures news.articles[i].link !in {"#", ""}
      {
        assert news.articles[i] in news.articles;
      }
    }
  }

  /** Through the framework's schema check, every fallback story's url passes `isUrl`; and one
      linked hit whose link is not a URL makes the tool call throw, leaving the fallback with no
      stories at all. */
  lemma FallbackStoriesFromCall(input: DashboardInput, configured: bool, search: string -> SearchResponse,
                                hostOf: string -> Option<string>, isUrl: string -> bool, i: nat)
    ensures var stories := FallbackStories(CallNews(configured, Some(input.locationCity), input.newsSearchCategories,
                                                    search, hostOf, isUrl));
            forall k :: 0 <= k < |stories| ==> isUrl(stories[k].url) && stories[k].url != "#"
    ensures var response := search(BuildQuery(Some(input.locationCity), input.newsSearchCategories));
            configured && response.Items? && i < |response.items| && HasLink(response.items[i])
              && !isUrl(response.items[i].link) ==>
            FallbackStories(CallNews(configured, Some(input.locationCity), input.newsSearchCategories,
                                     search, hostOf, isUrl)) == []
  {
    var call := CallNews(configured, Some(input.locationCity), input.newsSearchCategories, search, hostOf, isUrl);
    if call.Some? {
      forall k | 0 <= k < |call.value.articles|
        ensures isUrl(call.value.articles[k].link) && call.value.articles[k].link != "#"
      {
        assert call.value.articles[k] in call.value.articles;
      }
    }
    var response := search(BuildQuery(Some(input.locationCity), input.newsSearchCategories));
    if configured && response.Items? && i < |response.items| && HasLink(response.items[i])
       && !isUrl(response.items[i].link) {
      NonUrlLinkThrows(Some(input.locationCity), input.newsSearchCategories, search, hostOf, isUrl, i);
    }
  }

  /** When the search answered with items and the handler's answer passes the output-schema
      check, the fallback has one story per linked item, in the items' order, and no cap of
      five applies. */
  lemma FallbackStoriesFromItems(items: seq<SearchItem>, hostOf: string -> Option<string>)
    ensures FallbackStories(Some(Outcome(Items(items), hostOf))) == Map(ArticleStory, Map(ArticleOf(hostOf), Filter(HasLink, items)))
    ensures |FallbackStories(Some(Outcome(Items(items), hostOf)))| == Count(HasLink, items)
  {
    ArticlesAreLinkedItems(items, hostOf);
    if items == [] {
      assert Filter(HasLink, items) == [];
    }
  }

  // ---------------------------------------------------------------------------
  // The flow

  /** `generateDashboardContentFlow`: sanitise a produced output, otherwise fall back. */
  function GenerateDashboard(input: DashboardInput, generated: Option<RawOutput>, isUrl: string -> bool,
                             greetingTool: Option<string>, newsTool: Option<NewsOutput>): (r: DashboardOutput)
    ensures generated.None? ==> r == Fallback(input, greetingTool, newsTool)
    ensures generated.Some? ==> r == Sanitize(generated.value, input.detailedWeather, isUrl)
    ensures WeatherHasError(input.detailedWeather) ==> r.dressMyRunSuggestion == []
    ensures !r.planEndNotification.Undefined?
    ensures generated.Some? ==> |r.topStories| <= MaxStories
  {
    match generated
    case None => Fallback(input, greetingTool, newsTool)
    case Some(raw) => Sanitize(raw, input.detailedWeather, isUrl)
  }
}
