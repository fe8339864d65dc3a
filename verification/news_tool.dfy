/**
 The running-news tool (src/ai/tools/fetch-google-running-news-tool.ts): a search
 query built from the user's location and news categories, the search itself as an
 oracle `search` from query to response, and the mapping of the response's items to
 articles or to an error outcome. The handler never throws: every failure becomes an
 output with no articles and an error message. Called as a Genkit tool, its answer is
 checked against the output schema, and that check can throw.
 */
module NewsTool {
  import opened Wrappers
  import opened Text
  import opened Seqs
  import opened NewsCategories

  datatype Article = Article(title: string, link: string, snippet: string, source: string)

  /** What the tool returns: `{ articles, error? }`. */
  datatype NewsOutput = NewsOutput(articles: seq<Article>, error: Option<string>)

  /** One search hit. Every field is "" when the provider left it out or empty;
      `siteName` is the first metatag set's `og:site_name`. */
  datatype SearchItem = SearchItem(title: string, link: string, snippet: string, siteName: string, displayLink: string)

  /** A thrown value: an `Error` carries a message, anything else does not. */
  datatype Thrown = ErrorObject(message: string) | OtherThrown

  /** The provider's answer to one query ("" again stands for an absent message). */
  datatype SearchResponse =
    | HttpError(status: nat, apiMessage: string)   // response.ok is false
    | PayloadError(message: string)                // an `error` member in an OK payload
    | Items(items: seq<SearchItem>)                // no `items` member reads as []
    | Threw(thrown: Thrown)                        // fetch or JSON decoding threw

  const NotConfiguredMessage := "News service is not configured. API Key or Search Engine ID missing."
  const HttpErrorPrefix := "Error fetching news from Google: "
  const PayloadErrorPrefix := "Google Search API error: "
  const ProcessingErrorPrefix := "Error processing news request: "

  // ---------------------------------------------------------------------------
  // Query construction

  /** A location the query may be scoped to: present, not blank, and not the profile's "not set". */
  predicate UsableLocation(location: Option<string>)
    ensures UsableLocation(location) <==>
              location.Some? && !AllSpace(location.value) && ToLower(location.value) != "not set"
  {
    location.Some? && location.value != "" && !IsBlank(location.value) && ToLower(location.value) != "not set"
  }

  const GeoKeyword := "geographic area"

  /** A category's search keyword: its stored spelling with every "_" read as a space. */
  function CategoryKeyword(c: NewsCategory): (k: string)
    ensures '_' !in k
    ensures |k| == |Key(c)|
    ensures k == GeoKeyword <==> c == GeographicArea
    ensures NotGeoKeyword(k) <==> c != GeographicArea
  {
    var k := ReplaceAll(Key(c), '_', ' ');
    assert forall i :: 0 <= i < |k| ==> k[i] != '_';
    if c == GeographicArea then
      assert k == GeoKeyword;
      GeoKeywordIsLower();
      k
    else
      OtherKeysInitial(c);
      assert ToLower(k)[0] != GeoKeyword[0];
      k
  }

  /** No other category's spelling starts with the letter "geographic_area" starts with. */
  lemma OtherKeysInitial(c: NewsCategory)
    requires c != GeographicArea
    ensures |Key(c)| > 0 && Key(c)[0] != 'g' && Key(c)[0] != 'G'
  {
  }

  lemma GeoKeywordIsLower()
    ensures ToLower(GeoKeyword) == GeoKeyword
  {
  }

  /** The geographic category is standing in for the location. */
  predicate GeoScoped(location: Option<string>, categories: seq<NewsCategory>) {
    GeographicArea in categories && UsableLocation(location)
  }

  predicate NotGeoKeyword(keyword: string) {
    ToLower(keyword) != GeoKeyword
  }

  /** The keywords OR-combined into the query. */
  function QueryKeywords(location: Option<string>, categories: seq<NewsCategory>): (r: seq<string>)
    ensures |r| <= |categories|
    ensures GeoScoped(location, categories) ==> GeoKeyword !in r
    ensures !GeoScoped(location, categories) ==> r == Map(CategoryKeyword, categories)
  {
    var keywords := Map(CategoryKeyword, categories);
    GeoKeywordMarksGeoCategory(categories);
    GeoKeywordFiltered(keywords);
    if GeoScoped(location, categories) && (|keywords| > 1 || (|keywords| == 1 && keywords[0] == GeoKeyword))
    then Filter(NotGeoKeyword, keywords)
    else keywords
  }

  /** `" in " + location` when the location is to scope the query, nothing otherwise. */
  function LocationSuffix(applies: bool, location: Option<string>): (r: string)
    requires applies ==> location.Some?
    ensures !applies ==> r == ""
    ensures applies ==> r == " in " + location.value
  {
    if applies then " in " + location.value else ""
  }

  /** The keywords OR-combined in parentheses, or the bare topic when there are none. */
  function KeywordPhrase(keywords: seq<string>): (r: string)
    ensures keywords == [] ==> r == "running news"
    ensures keywords != [] ==> r == "running (" + Join(keywords, " OR ") + ") news"
  {
    if |keywords| > 0 then "running (" + Join(keywords, " OR ") + ") news" else "running news"
  }

  /** The search query sent to the provider (the date-window suffix is left out). Without
      categories the query is the general one, scoped by any usable location; with categories
      it names their keywords, and is scoped only when the location replaced the geographic one. */
  function BuildQuery(location: Option<string>, categories: Option<seq<NewsCategory>>): (q: string)
    ensures (categories.None? || categories.value == []) ==>
      q == "recent notable running news" + LocationSuffix(UsableLocation(location), location)
    ensures categories.Some? && categories.value != [] ==>
      q == KeywordPhrase(QueryKeywords(location, categories.value))
           + LocationSuffix(GeoScoped(location, categories.value), location)
  {
    if categories.Some? && |categories.value| > 0 then
      KeywordPhrase(QueryKeywords(location, categories.value))
        + LocationSuffix(GeoScoped(location, categories.value), location)
    else
      "recent notable running news" + LocationSuffix(UsableLocation(location), location)
  }

  /** "geographic area" is a query keyword exactly when the category is selected but no usable
      location is there to replace it. */
  lemma GeographicKeywordDropped(location: Option<string>, categories: seq<NewsCategory>)
    ensures GeoKeyword in QueryKeywords(location, categories) <==>
            GeographicArea in categories && !UsableLocation(location)
  {
    var keywords := Map(CategoryKeyword, categories);
    GeoKeywordMarksGeoCategory(categories);
    if GeoScoped(location, categories) {
      assert |keywords| >= 1;
      if |keywords| == 1 {
        assert categories[0] == GeographicArea;
        assert keywords[0] == GeoKeyword;
      }
      assert QueryKeywords(location, categories) == Filter(NotGeoKeyword, keywords);
      GeoKeywordFiltered(keywords);
    } else {
      assert QueryKeywords(location, categories) == keywords;
    }
  }

  /** No query keyword keeps an underscore of the stored category spelling. */
  lemma KeywordsHaveNoUnderscore(location: Option<string>, categories: seq<NewsCategory>)
    ensures forall i :: 0 <= i < |QueryKeywords(location, categories)| ==> '_' !in QueryKeywords(location, categories)[i]
  {
    var keywords := Map(CategoryKeyword, categories);
    var ks := QueryKeywords(location, categories);
    forall i | 0 <= i < |ks|
      ensures '_' !in ks[i]
    {
      assert ks[i] in keywords;
      var j :| 0 <= j < |keywords| && keywords[j] == ks[i];
      assert keywords[j] == CategoryKeyword(categories[j]);
    }
  }

  lemma GeoKeywordMarksGeoCategory(categories: seq<NewsCategory>)
    ensures GeoKeyword in Map(CategoryKeyword, categories) <==> GeographicArea in categories
  {
    var keywords := Map(CategoryKeyword, categories);
    if GeographicArea in categories {
      var i :| 0 <= i < |categories| && categories[i] == GeographicArea;
      assert keywords[i] == GeoKeyword;
    }
    if GeoKeyword in keywords {
      var i :| 0 <= i < |keywords| && keywords[i] == GeoKeyword;
      assert categories[i] == GeographicArea;
    }
  }

  lemma GeoKeywordFiltered(keywords: seq<string>)
    ensures GeoKeyword !in Filter(NotGeoKeyword, keywords)
  {
    GeoKeywordIsLower();
  }

  predicate NotGeographic(c: NewsCategory) {
    c != GeographicArea
  }

  /** When the location stands in for the geographic category, the keywords are exactly those of
      the other selected categories, in the order selected; otherwise every category contributes. */
  lemma KeywordsOfOtherCategories(location: Option<string>, categories: seq<NewsCategory>)
    ensures GeoScoped(location, categories) ==>
              QueryKeywords(location, categories) == Map(CategoryKeyword, Filter(NotGeographic, categories))
    ensures !GeoScoped(location, categories) ==> QueryKeywords(location, categories) == Map(CategoryKeyword, categories)
  {
    if GeoScoped(location, categories) {
      GeoScopedFilters(location, categories);
      OtherCategoryKeywords(categories);
    }
  }

  /** With a usable location and the geographic category selected, the keyword filter runs. */
  lemma GeoScopedFilters(location: Option<string>, categories: seq<NewsCategory>)
    requires GeoScoped(location, categories)
    ensures QueryKeywords(location, categories) == Filter(NotGeoKeyword, Map(CategoryKeyword, categories))
  {
    var keywords := Map(CategoryKeyword, categories);
    GeoKeywordMarksGeoCategory(categories);
    if |keywords| == 1 {
      assert categories[0] == GeographicArea;
      assert keywords[0] == GeoKeyword;
    }
  }

  /** Filtering "geographic area" out of the keywords is filtering the category out first. */
  lemma OtherCategoryKeywords(categories: seq<NewsCategory>)
    ensures Filter(NotGeoKeyword, Map(CategoryKeyword, categories)) == Map(CategoryKeyword, Filter(NotGeographic, categories))
  {
    forall c ensures NotGeographic(c) == NotGeoKeyword(CategoryKeyword(c)) {
    }
    FilterMap(NotGeoKeyword, CategoryKeyword, NotGeographic, categories);
  }

  // ---------------------------------------------------------------------------
  // Items to articles

  /** A hostname with one leading "www." removed. */
  function StripWww(host: string): (r: string)
    ensures StartsWith(host, "www.") ==> host == "www." + r
    ensures !StartsWith(host, "www.") ==> r == host
  {
    if StartsWith(host, "www.") then host[4..] else host
  }

  /** The article's source: site name, then display link, then the link's hostname without
      "www.", then "Unknown Source". `hostOf` stands for `new URL(link).hostname`, `None` when it throws. */
  function SourceOf(item: SearchItem, hostOf: string -> Option<string>): (r: string)
    ensures item.siteName != "" ==> r == item.siteName
    ensures item.siteName == "" && item.displayLink != "" ==> r == item.displayLink
    ensures item.siteName == "" && item.displayLink == "" && (item.link == "" || hostOf(item.link).None?) ==>
              r == "Unknown Source"
    ensures item.siteName == "" && item.displayLink == "" && item.link != "" && hostOf(item.link).Some? ==>
              hostOf(item.link).value in {r, "www." + r}
  {
    if item.siteName != "" then item.siteName
    else if item.displayLink != "" then item.displayLink
    else if item.link != "" && hostOf(item.link).Some? then StripWww(hostOf(item.link).value)
    else "Unknown Source"
  }

  function ToArticle(item: SearchItem, hostOf: string -> Option<string>): (a: Article)
    ensures a.title == (if item.title != "" then item.title else "No title")
    ensures a.snippet == (if item.snippet != "" then item.snippet else "No snippet available.")
    ensures a.link == "#" <==> item.link == "" || item.link == "#"
    ensures a.link != "#" ==> a.link == item.link
  {
    Article(
      if item.title != "" then item.title else "No title",
      if item.link != "" then item.link else "#",
      if item.snippet != "" then item.snippet else "No snippet available.",
      SourceOf(item, hostOf))
  }

  /** An item that keeps its article: it has a link, and the link is not the "#" placeholder. */
  predicate HasLink(item: SearchItem) {
    item.link != "" && item.link != "#"
  }

  predicate IsLinked(a: Article) {
    a.link != "#"
  }

  function ArticleOf(hostOf: string -> Option<string>): SearchItem -> Article {
    item => ToArticle(item, hostOf)
  }

  /** `items.map(toArticle).filter(a => a.link !== "#")`. */
  function ArticlesFrom(items: seq<SearchItem>, hostOf: string -> Option<string>): (r: seq<Article>)
    ensures |r| <= |items|
    ensures forall a :: a in r ==> a.link != "#"
    ensures forall i :: 0 <= i < |items| && HasLink(items[i]) ==> ToArticle(items[i], hostOf) in r
  {
    var articles := Map(ArticleOf(hostOf), items);
    assert forall i :: 0 <= i < |items| ==> articles[i] == ToArticle(items[i], hostOf);
    Filter(IsLinked, articles)
  }

  /** The articles are exactly the linked items' articles, in the items' order: an
      order-preserving selection never longer than the items. */
  lemma ArticlesAreLinkedItems(items: seq<SearchItem>, hostOf: string -> Option<string>)
    ensures ArticlesFrom(items, hostOf) == Map(ArticleOf(hostOf), Filter(HasLink, items))
    ensures |ArticlesFrom(items, hostOf)| == Count(HasLink, items) <= |items|
  {
    FilterMap(IsLinked, ArticleOf(hostOf), HasLink, items);
    FilterLength(HasLink, items);
  }

  // ---------------------------------------------------------------------------
  // The tool

  /** The tool's answer once a query has been sent and `response` came back. */
  function Outcome(response: SearchResponse, hostOf: string -> Option<string>): (r: NewsOutput)
    ensures r.error.Some? ==> r.articles == []
    ensures r.error.None? <==> response.Items?
    ensures response.HttpError? ==> r.error.Some? && StartsWith(r.error.value, HttpErrorPrefix)
    ensures response.PayloadError? ==> r.error.Some? && StartsWith(r.error.value, PayloadErrorPrefix)
    ensures response.Threw? ==> r.error.Some? && StartsWith(r.error.value, ProcessingErrorPrefix)
    ensures response.Items? && response.items == [] ==> r == NewsOutput([], None)
  {
    match response
    case HttpError(status, message) =>
      var detail := if message != "" then message else "HTTP error! status: " + NatToString(status);
      NewsOutput([], Some(HttpErrorPrefix + detail))
    case PayloadError(message) =>
      var detail := if message != "" then message else "Unknown error from API.";
      NewsOutput([], Some(PayloadErrorPrefix + detail))
    case Items(items) =>
      if |items| == 0 then NewsOutput([], None) else NewsOutput(ArticlesFrom(items, hostOf), None)
    case Threw(thrown) =>
      var detail := match thrown
        case ErrorObject(message) => message
        case OtherThrown => "An unexpected error occurred";
      NewsOutput([], Some(ProcessingErrorPrefix + detail))
  }

  /** `fetchGoogleRunningNewsTool`: `configured` says both the API key and the engine id are set. */
  function FetchNews(configured: bool, location: Option<string>, categories: Option<seq<NewsCategory>>,
                     search: string -> SearchResponse, hostOf: string -> Option<string>): (r: NewsOutput)
    ensures !configured ==> r == NewsOutput([], Some(NotConfiguredMessage))
    ensures configured ==> r == Outcome(search(BuildQuery(location, categories)), hostOf)
    ensures r.error.Some? ==> r.articles == []
    ensures forall a :: a in r.articles ==> a.link != "#" && a.link != ""
  {
    if !configured then NewsOutput([], Some(NotConfiguredMessage))
    else
      var response := search(BuildQuery(location, categories));
      if response.Items? then
        ArticlesAreLinkedItems(response.items, hostOf);
        Outcome(response, hostOf)
      else Outcome(response, hostOf)
  }

  // ---------------------------------------------------------------------------
  // Calling the tool through the framework

  /** Every article's link passes the output schema's `z.string().url()` check, for which
      `isUrl` stands. */
  predicate LinksAreUrls(output: NewsOutput, isUrl: string -> bool) {
    forall a :: a in output.articles ==> isUrl(a.link)
  }

  /** Calling `fetchGoogleRunningNewsTool` as a Genkit tool: the framework checks the handler's
      answer against the output schema, and an answer with a link that is not a URL makes the
      call throw (`None`). */
  function CallNews(configured: bool, location: Option<string>, categories: Option<seq<NewsCategory>>,
                    search: string -> SearchResponse, hostOf: string -> Option<string>,
                    isUrl: string -> bool): (r: Option<NewsOutput>)
    ensures r.Some? ==> r.value == FetchNews(configured, location, categories, search, hostOf)
    ensures r.Some? ==> forall a :: a in r.value.articles ==> isUrl(a.link) && a.link != "#"
    ensures FetchNews(configured, location, categories, search, hostOf).articles == [] ==>
              r == Some(FetchNews(configured, location, categories, search, hostOf))
    ensures (forall a :: a in FetchNews(configured, location, categories, search, hostOf).articles ==> isUrl(a.link)) ==>
              r.Some?
  {
    var output := FetchNews(configured, location, categories, search, hostOf);
    if LinksAreUrls(output, isUrl) then Some(output) else None
  }

  /** One linked search hit whose link is not a URL is enough to make the whole call throw,
      whatever the other hits are. */
  lemma NonUrlLinkThrows(location: Option<string>, categories: Option<seq<NewsCategory>>,
                         search: string -> SearchResponse, hostOf: string -> Option<string>,
                         isUrl: string -> bool, i: nat)
    requires search(BuildQuery(location, categories)).Items?
    requires i < |search(BuildQuery(location, categories)).items|
    requires HasLink(search(BuildQuery(location, categories)).items[i])
    requires !isUrl(search(BuildQuery(location, categories)).items[i].link)
    ensures CallNews(true, location, categories, search, hostOf, isUrl).None?
  {
    var items := search(BuildQuery(location, categories)).items;
    var output := FetchNews(true, location, categories, search, hostOf);
    assert output.articles == ArticlesFrom(items, hostOf);
    assert ToArticle(items[i], hostOf).link == items[i].link;
    assert !LinksAreUrls(output, isUrl);
  }
}
