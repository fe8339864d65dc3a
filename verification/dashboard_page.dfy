/**
 The dashboard page's cache rules (src/app/dashboard/page.tsx). The page shows five pieces of
 content; each comes from the per-user cache document or from the component that generates it.
 The model covers when the cache is reused, when the content is reset, and when a cache write
 fires. React state becomes an explicit `Content` value, each effect or callback a function
 from the old content to the new one, and a Firestore write a returned record.
 */
module DashboardPage {
  import opened Wrappers
  import opened Json
  import opened Schemas
  import WeatherAction

  /** The cache document as the page reads it: the schema's record plus the stored
      clothing suggestion, which the schema does not describe. */
  datatype StoredCache = StoredCache(record: DashboardCache, dress: Option<Value>)

  /** The page's content state; `None` is a field still `undefined`. */
  datatype Content = Content(
    greeting: Option<string>,
    weather: Option<WeatherInfo>,
    workout: Option<string>,
    news: Option<seq<string>>,
    dress: Option<Value>)

  /** All five fields undefined, as the reset writes them and as the page starts. */
  const Unset := Content(None, None, None, None, None)

  function ContentOf(c: StoredCache): Content {
    Content(Some(c.record.motivationalGreeting), Some(c.record.weatherInfo), Some(c.record.dailyWorkout),
            Some(c.record.runningNews), c.dress)
  }

  /** What the page knows when an effect or callback runs. `authUid` is the signed-in user's
      id (`None` when nobody is signed in), `user` the user document, `cache` the cache
      document, and `today` the page's `yyyy-MM-dd` date, fixed when the page mounts. */
  datatype Session = Session(
    authUid: Option<string>,
    user: Option<User>,
    cache: Option<StoredCache>,
    cacheLoading: bool,
    cacheError: bool,
    today: string)

  // ---------------------------------------------------------------------------
  // Freshness

  /** `profileSettingsChanged`: both documents are there and the cached weather's city or unit
      differs from the profile's; a missing cached city or unit counts as a difference. The
      documents are taken as records that meet the schema, so the user always has a profile
      and the profile always has a city. */
  predicate SettingsChanged(user: Option<User>, cache: Option<StoredCache>)
    ensures user.None? || cache.None? ==> !SettingsChanged(user, cache)
    ensures user.Some? && cache.Some? ==>
              (!SettingsChanged(user, cache) <==>
                 && cache.value.record.weatherInfo.locationCity == Some(user.value.profile.locationCity)
                 && cache.value.record.weatherInfo.weatherUnit == Some(user.value.profile.weatherUnit))
  {
    && user.Some? && cache.Some?
    && (|| cache.value.record.weatherInfo.locationCity != Some(user.value.profile.locationCity)
        || cache.value.record.weatherInfo.weatherUnit != Some(user.value.profile.weatherUnit))
  }

  /** The cached content may be shown as it is. */
  predicate CacheHit(s: Session)
    ensures CacheHit(s) ==> s.cache.Some? && s.cache.value.record.cacheDate == s.today
    ensures s.user.None? && s.cache.Some? ==> (CacheHit(s) <==> s.cache.value.record.cacheDate == s.today)
  {
    s.cache.Some? && s.cache.value.record.cacheDate == s.today && !SettingsChanged(s.user, s.cache)
  }

  /** The cache calls for a new write once the content is complete. */
  predicate Stale(s: Session)
    ensures s.cache.None? ==> Stale(s)
    ensures s.cache.Some? && s.cache.value.record.cacheDate != s.today ==> Stale(s)
  {
    s.cache.None? || s.cache.value.record.cacheDate != s.today || SettingsChanged(s.user, s.cache)
  }

  /** A cache that is there is either a hit or stale, never both. */
  lemma HitOrStale(s: Session)
    requires s.cache.Some?
    ensures CacheHit(s) != Stale(s)
  {
  }

  /** Only the profile's city and unit take part in the decision: news categories, the training
      plan and every other profile field do not. */
  lemma FreshnessIgnoresOtherSettings(s: Session, other: User)
    requires s.user.Some?
    requires other.profile.locationCity == s.user.value.profile.locationCity
    requires other.profile.weatherUnit == s.user.value.profile.weatherUnit
    ensures CacheHit(s.(user := Some(other))) == CacheHit(s)
    ensures Stale(s.(user := Some(other))) == Stale(s)
  {
  }

  // ---------------------------------------------------------------------------
  // The load effect

  /** The effect that runs when the documents or the loading flags change. */
  function LoadEffect(s: Session, content: Content): (r: Content)
    ensures CacheHit(s) ==> r == ContentOf(s.cache.value)
    ensures !CacheHit(s) && !s.cacheLoading && s.authUid.Some? && s.user.Some? && !s.cacheError ==> r == Unset
    ensures s.cacheError && !CacheHit(s) ==> r == content
    ensures s.user.None? && s.cache.Some? && s.cache.value.record.cacheDate == s.today ==> r == ContentOf(s.cache.value)
  {
    if CacheHit(s) then ContentOf(s.cache.value)
    else if !s.cacheLoading && s.authUid.Some? && s.user.Some? && !s.cacheError then Unset
    else content
  }

  // ---------------------------------------------------------------------------
  // Recording generated content

  datatype Field = GreetingField | WeatherField | WorkoutField | NewsField | DressField

  const AllFields: set<Field> := {GreetingField, WeatherField, WorkoutField, NewsField, DressField}

  /** A component reporting what it generated. */
  datatype Generated =
    | GreetingDone(greeting: string)
    | WeatherDone(weather: WeatherInfo)
    | WorkoutDone(workout: string)
    | NewsDone(news: seq<string>)
    | DressDone(dress: Value)

  function FieldOf(g: Generated): Field {
    match g
    case GreetingDone(_) => GreetingField
    case WeatherDone(_) => WeatherField
    case WorkoutDone(_) => WorkoutField
    case NewsDone(_) => NewsField
    case DressDone(_) => DressField
  }

  /** Field `f` of `c` is defined. */
  predicate Has(c: Content, f: Field) {
    match f
    case GreetingField => c.greeting.Some?
    case WeatherField => c.weather.Some?
    case WorkoutField => c.workout.Some?
    case NewsField => c.news.Some?
    case DressField => c.dress.Some?
  }

  /** The fields that are defined. */
  function Defined(c: Content): (r: set<Field>)
    ensures r <= AllFields
    ensures forall f :: f in r <==> Has(c, f)
  {
    set f | f in AllFields && Has(c, f)
  }

  predicate Complete(c: Content) {
    c.greeting.Some? && c.weather.Some? && c.workout.Some? && c.news.Some? && c.dress.Some?
  }

  lemma CompleteIsAllDefined(c: Content)
    ensures Complete(c) <==> Defined(c) == AllFields
  {
    if Defined(c) == AllFields {
      assert GreetingField in Defined(c) && WeatherField in Defined(c) && WorkoutField in Defined(c);
      assert NewsField in Defined(c) && DressField in Defined(c);
    }
  }

  /** `{...prev, [type]: value}`. */
  function Apply(c: Content, g: Generated): (r: Content)
    ensures Defined(r) == Defined(c) + {FieldOf(g)}
    ensures g.GreetingDone? ==> r.greeting == Some(g.greeting)
    ensures g.WeatherDone? ==> r.weather == Some(g.weather)
    ensures g.WorkoutDone? ==> r.workout == Some(g.workout)
    ensures g.NewsDone? ==> r.news == Some(g.news)
    ensures g.DressDone? ==> r.dress == Some(g.dress)
    ensures FieldOf(g) != GreetingField ==> r.greeting == c.greeting
    ensures FieldOf(g) != WeatherField ==> r.weather == c.weather
    ensures FieldOf(g) != WorkoutField ==> r.workout == c.workout
    ensures FieldOf(g) != NewsField ==> r.news == c.news
    ensures FieldOf(g) != DressField ==> r.dress == c.dress
  {
    match g
    case GreetingDone(x) => c.(greeting := Some(x))
    case WeatherDone(x) => c.(weather := Some(x))
    case WorkoutDone(x) => c.(workout := Some(x))
    case NewsDone(x) => c.(news := Some(x))
    case DressDone(x) => c.(dress := Some(x))
  }

  /** Recording one field leaves the other four as they were: reports for different fields
      commute, and a field's report replaces that field's earlier one. */
  lemma ApplyTouchesOneField(c: Content, g: Generated, h: Generated)
    ensures FieldOf(g) != FieldOf(h) ==> Apply(Apply(c, g), h) == Apply(Apply(c, h), g)
    ensures FieldOf(g) == FieldOf(h) ==> Apply(Apply(c, g), h) == Apply(c, h)
  {
  }

  /** The outcome of recording: the new content and the cache document written, if any. */
  datatype Recorded = Recorded(content: Content, write: Option<StoredCache>)

  /** The record `generateAndCacheDashboard` builds, keyed by the signed-in user. */
  function NewCache(uid: string, today: string, c: Content): (r: StoredCache)
    requires Complete(c)
    ensures r.record.id == uid && r.record.userId == uid && r.record.cacheDate == today
    ensures ContentOf(r) == c
  {
    StoredCache(DashboardCache(uid, uid, today, c.greeting.value, c.weather.value, c.workout.value, c.news.value),
                c.dress)
  }

  /** The page can write: a signed-in user with a non-empty id. */
  predicate CanWrite(s: Session) {
    s.authUid.Some? && |s.authUid.value| > 0
  }

  /** `handleComponentGenerated`: record the report, and write the cache when the content is
      complete and the cache is missing, dated another day or out of date with the profile. */
  function Record(s: Session, c: Content, g: Generated): (r: Recorded)
    ensures r.content == Apply(c, g)
    ensures r.write.Some? <==> Complete(Apply(c, g)) && Stale(s) && CanWrite(s)
    ensures r.write.Some? ==> r.write.value.record.id == s.authUid.value == r.write.value.record.userId
    ensures r.write.Some? ==> r.write.value.record.cacheDate == s.today
    ensures r.write.Some? ==> ContentOf(r.write.value) == r.content
  {
    var next := Apply(c, g);
    if Complete(next) && Stale(s) && CanWrite(s) then
      var written := NewCache(s.authUid.value, s.today, next);
      Recorded(ContentOf(written), Some(written))
    else Recorded(next, None)
  }

  /** After a write the cache is no longer stale for the same profile exactly when the cached
      weather carries the profile's own city and unit. */
  lemma WrittenCacheIsHit(s: Session, c: Content, g: Generated)
    requires s.user.Some?
    requires Record(s, c, g).write.Some?
    ensures var w := Record(s, c, g).write.value;
            CacheHit(s.(cache := Some(w))) <==>
              w.record.weatherInfo.locationCity == Some(s.user.value.profile.locationCity)
              && w.record.weatherInfo.weatherUnit == Some(s.user.value.profile.weatherUnit)
  {
  }

  /** The cached weather record made from what the weather action returned. */
  function CachedWeather(w: WeatherAction.WeatherResult): WeatherInfo {
    WeatherInfo(w.forecast, w.clothingRecommendation, Some(w.locationCity), Some(w.weatherUnit))
  }

  /** The weather action stores the provider's spelling of the city; when it differs from the
      profile's, a cache written with that weather is never a hit for the same profile. */
  lemma ProviderCityDefeatsCache(s: Session, c: Content, apiKey: string, reply: WeatherAction.WeatherReply)
    requires s.user.Some?
    requires WeatherAction.CaseOf(apiKey, s.user.value.profile.locationCity, reply) == WeatherAction.Reported
    requires reply.name != s.user.value.profile.locationCity
    requires Record(s, c, WeatherDone(CachedWeather(WeatherAction.FetchWeather(
               apiKey, s.user.value.profile.locationCity, Some(s.user.value.profile.weatherUnit), reply)))).write.Some?
    ensures !CacheHit(s.(cache := Record(s, c, WeatherDone(CachedWeather(WeatherAction.FetchWeather(
               apiKey, s.user.value.profile.locationCity, Some(s.user.value.profile.weatherUnit), reply)))).write))
  {
  }

  // ---------------------------------------------------------------------------
  // A sequence of reports

  /** The reports in order, with the content after them and the writes they caused. */
  function Run(s: Session, c: Content, reports: seq<Generated>): (r: (Content, seq<StoredCache>))
    ensures Defined(r.0) == Defined(c) + FieldsOf(reports)
    ensures |r.1| <= |reports|
    decreases |reports|
  {
    if |reports| == 0 then (c, [])
    else
      var step := Record(s, c, reports[0]);
      var rest := Run(s, step.content, reports[1..]);
      (rest.0, (if step.write.Some? then [step.write.value] else []) + rest.1)
  }

  /** The page hands `on...Generated` props to the greeting, weather, workout and news cards
      only, and none of those cards declares or calls such a prop, so in the page as shipped no
      report arrives at all (the empty sequence). Even were those four cards to report, with the
      clothing suggestion undefined no sequence of their reports ever writes. */
  lemma {:induction false} PageNeverWritesWithoutDress(s: Session, c: Content, reports: seq<Generated>)
    requires c.dress.None?
    requires forall i :: 0 <= i < |reports| ==> !reports[i].DressDone?
    ensures Run(s, c, reports).1 == []
    ensures Run(s, c, reports).0.dress.None?
    decreases |reports|
  {
    if |reports| > 0 {
      PageNeverWritesWithoutDress(s, Apply(c, reports[0]), reports[1..]);
    }
  }

  /** After the load effect has reset the content, neither the shipped page (no reports) nor any
      sequence of reports without the clothing field writes the cache. */
  lemma ResetPageNeverWrites(s: Session, c: Content, reports: seq<Generated>)
    requires !CacheHit(s) && !s.cacheLoading && s.authUid.Some? && s.user.Some? && !s.cacheError
    requires forall i :: 0 <= i < |reports| ==> !reports[i].DressDone?
    ensures Run(s, LoadEffect(s, c), reports).1 == []
  {
    PageNeverWritesWithoutDress(s, LoadEffect(s, c), reports);
  }

  function FieldsOf(reports: seq<Generated>): set<Field>
    decreases |reports|
  {
    if |reports| == 0 then {} else {FieldOf(reports[0])} + FieldsOf(reports[1..])
  }

  /** Reports for distinct fields none of which is defined yet. */
  predicate FreshReports(c: Content, reports: seq<Generated>) {
    && (forall i :: 0 <= i < |reports| ==> FieldOf(reports[i]) !in Defined(c))
    && (forall i, j :: 0 <= i < j < |reports| ==> FieldOf(reports[i]) != FieldOf(reports[j]))
  }

  /** After the first report, the rest are still fresh for the updated content. */
  lemma FreshReportsTail(c: Content, reports: seq<Generated>)
    requires |reports| > 0 && FreshReports(c, reports)
    ensures FreshReports(Apply(c, reports[0]), reports[1..])
  {
    var rest := reports[1..];
    forall i | 0 <= i < |rest|
      ensures FieldOf(rest[i]) !in Defined(Apply(c, reports[0]))
    {
      assert rest[i] == reports[i + 1];
    }
  }

  /** With every card reporting its field, as the cache write evidently intends, reports of
      distinct fields write the cache once, and only when the last missing field arrives. */
  lemma {:induction false} OneWritePerCompletion(s: Session, c: Content, reports: seq<Generated>)
    requires Stale(s) && CanWrite(s)
    requires FreshReports(c, reports)
    ensures |Run(s, c, reports).1| == if |reports| > 0 && Defined(c) + FieldsOf(reports) == AllFields then 1 else 0
    ensures |Run(s, c, reports).1| == 1 ==> ContentOf(Run(s, c, reports).1[0]) == Run(s, c, reports).0
    decreases |reports|
  {
    if |reports| > 0 {
      var next := Apply(c, reports[0]);
      var rest := reports[1..];
      FreshReportsTail(c, reports);
      OneWritePerCompletion(s, next, rest);
      CompleteIsAllDefined(next);
      assert Defined(next) + FieldsOf(rest) == Defined(c) + FieldsOf(reports);
      if Complete(next) && |rest| > 0 {
        assert false;
      }
    }
  }
}
