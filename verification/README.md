# shut-up-and-run, modelled in Dafny

A model of the core of *shut-up-and-run*, a Next.js running companion. The app has these parts:

- A daily dashboard. An AI flow writes it from the weather, the training plan and a news search. The flow sanitises what the generator returns, or falls back to fixed messages.
- A per-user cache of that dashboard, and the page's rule for when the cache is fresh.
- The weather action and its clothing advice.
- The news-search tool that builds the query and filters the hits.
- The training-plan setup form and the plan calendar parser.
- The "Dress my run" card.
- The profile form.
- The header's initials.
- The sidebar's active entry.
- The Firestore document schemas that all of these read and write.

Each source file of the core is one Dafny module. Shared pieces have modules of their own:

- `Wrappers`: `Option`.
- `Text`: JavaScript's trim, case mapping, split, join and number printing.
- `Seqs`: order-preserving filter and map.
- `Json`: untyped values as the store or the generator hands them over.
- `NewsCategories`: the seven news categories.

Everything outside the program is a parameter of the operation that uses it:

- The AI generator's output, the greeting tool and the news tool.
- The search provider's response and the weather provider's reply.
- The date parser and formatter (`parseISO` and `format` of date-fns).
- URL validation, hostname extraction and e-mail validation.
- The environment's API keys.

Strings are `seq<char>` and numbers are `int` or `real`. A stored document that the source parses with a schema is a `Json.Value` read by the modelled parser. The dashboard page reads its user and cache documents without parsing them; the model takes those as records that already meet the schema (see Left out).

## Model

| member | source | states |
|---|---|---|
| DashboardFlow.SanitizeStories | src/ai/flows/generate-dashboard-content.ts:201-224 | At most five stories; each has a non-blank title and a valid URL; a non-array gives none |
| DashboardFlow.StoriesAreFirstValid | src/ai/flows/generate-dashboard-content.ts:204-223 | The stories are exactly the first min(5, #valid) valid entries, in their original order |
| DashboardFlow.SanitizeClothing | src/ai/flows/generate-dashboard-content.ts:226-240 | A weather error or a non-array gives an empty list; every kept item has a non-blank item and category |
| DashboardFlow.ClothingKeepsValidItems | src/ai/flows/generate-dashboard-content.ts:229-233 | Without a weather error, the clothing list is every valid entry in order, and only those |
| DashboardFlow.NormalizePlanEnd | src/ai/flows/generate-dashboard-content.ts:242-244 | The plan-end notice becomes null exactly when it is missing, null or a blank string; otherwise it is kept; it is never undefined |
| DashboardFlow.Sanitize | src/ai/flows/generate-dashboard-content.ts:197-246 | Greeting, summary and workout pass through; the stories are the story sanitiser's (at most five, each with a non-blank title and a valid URL); the clothing list is the clothing sanitiser's (empty on a weather error, every item and category non-blank); the plan-end notice is `null` exactly when it was absent, `null` or blank, and is kept unchanged otherwise |
| DashboardFlow.StoryValueRoundTrip | src/ai/flows/generate-dashboard-content.ts:81-91 | A story with a non-blank title and a valid URL, written as an object, passes the filter and reads back as itself |
| DashboardFlow.ItemValueRoundTrip | src/ai/flows/generate-dashboard-content.ts:70-73 | A clothing item with a non-blank item and category, written as an object, passes the filter and reads back as itself |
| DashboardFlow.StoriesIdempotent | src/ai/flows/generate-dashboard-content.ts:204-223 | Sanitising a list of at most five valid stories returns the same list |
| DashboardFlow.ClothingIdempotent | src/ai/flows/generate-dashboard-content.ts:229-233 | Sanitising a list of valid clothing items returns the same list |
| DashboardFlow.SanitizeIdempotent | src/ai/flows/generate-dashboard-content.ts:197-246 | Sanitising an already-sanitised output changes nothing |
| DashboardFlow.FallbackGreeting | src/ai/flows/generate-dashboard-content.ts:249-257 | The greeting tool's greeting when it gave a non-empty one; the fixed apology naming the user when it threw or gave none |
| DashboardFlow.FallbackMessages | src/ai/flows/generate-dashboard-content.ts:249-269 | The fallback greeting is the greeting tool's text when it is non-empty, else the default greeting; the workout says none is available |
| DashboardFlow.FallbackSummary | src/ai/flows/generate-dashboard-content.ts:259-267 | A weather error gives the "unavailable" sentence quoting the error; otherwise the "could not generate" sentence for the city |
| DashboardFlow.FallbackStories | src/ai/flows/generate-dashboard-content.ts:271-287 | One story per news-tool article, in order, with title, snippet, link and source carried over; no tool answer gives none |
| DashboardFlow.Fallback | src/ai/flows/generate-dashboard-content.ts:289-297 | The fallback output has no clothing, a null plan-end notice and one story per news article |
| DashboardFlow.FallbackStoriesFromTool | src/ai/flows/generate-dashboard-content.ts:271-287 | The news tool never hands the fallback a story whose URL is "#" or empty, and a tool error yields no stories |
| DashboardFlow.FallbackStoriesFromItems | src/ai/flows/generate-dashboard-content.ts:277-284 | Given the handler's answer to a list of hits, the fallback's stories are the linked hits in order, one per hit with a link |
| DashboardFlow.FallbackStoriesFromCall | src/ai/flows/generate-dashboard-content.ts:271-287 | Through the tool's output-schema check every fallback story's url is a URL; one linked hit whose link is not a URL leaves the fallback with no stories |
| DashboardFlow.GenerateDashboard | src/ai/flows/generate-dashboard-content.ts:185-299 | Generator output is sanitised and a generator failure takes the fallback; in both, no clothing on a weather error and a defined plan-end notice |
| NewsTool.UsableLocation | src/ai/tools/fetch-google-running-news-tool.ts:60 | A location scopes the query exactly when it is present, not all white space, and not "not set" in any letter case |
| NewsTool.CategoryKeyword | src/ai/tools/fetch-google-running-news-tool.ts:63 | The keyword is the category's stored spelling with no underscore left; it is "geographic area" exactly for that category |
| NewsTool.QueryKeywords | src/ai/tools/fetch-google-running-news-tool.ts:62-73 | At most one keyword per category; when the location stands in for the geographic category, "geographic area" is not among them; otherwise every category's keyword, in the order selected |
| NewsTool.BuildQuery | src/ai/tools/fetch-google-running-news-tool.ts:55-90 | With no categories, "recent notable running news" plus the usable location; otherwise "running (k1 OR …) news" or "running news", then the location when the geographic category scopes it |
| NewsTool.GeographicKeywordDropped | src/ai/tools/fetch-google-running-news-tool.ts:66-73 | "geographic area" is a query keyword exactly when the category is selected and no usable location replaces it |
| NewsTool.KeywordsHaveNoUnderscore | src/ai/tools/fetch-google-running-news-tool.ts:63 | No query keyword keeps an underscore |
| NewsTool.KeywordsOfOtherCategories | src/ai/tools/fetch-google-running-news-tool.ts:62-73 | With a location standing in, the keywords are those of the other selected categories, in order; otherwise those of all of them |
| NewsTool.OtherCategoryKeywords | src/ai/tools/fetch-google-running-news-tool.ts:71 | Filtering the keyword out after spelling is the same as filtering the category out before |
| NewsTool.StripWww | src/ai/tools/fetch-google-running-news-tool.ts:133 | A leading "www." is removed once; any other host is unchanged |
| NewsTool.SourceOf | src/ai/tools/fetch-google-running-news-tool.ts:126-135 | The site name first, then the display link, then the link's hostname with at most a leading "www." removed, and "Unknown Source" when the link is empty or cannot be parsed as a URL (a link that parses with an empty hostname gives "") |
| NewsTool.ToArticle | src/ai/tools/fetch-google-running-news-tool.ts:137-142 | Missing title or snippet get their placeholder texts; the link is "#" exactly when the hit has none |
| NewsTool.ArticlesFrom | src/ai/tools/fetch-google-running-news-tool.ts:125-143 | Never more articles than hits; no article keeps the "#" link; every hit with a link has its article among them |
| NewsTool.ArticlesAreLinkedItems | src/ai/tools/fetch-google-running-news-tool.ts:125-143 | The articles are exactly the hits that have a link, in order; there are never more articles than hits |
| NewsTool.Outcome | src/ai/tools/fetch-google-running-news-tool.ts:101-150 | Each failure (HTTP, payload, thrown) gives its own error prefix and no articles; there is no error exactly when items came back |
| NewsTool.FetchNews | src/ai/tools/fetch-google-running-news-tool.ts:46-151 | Unconfigured gives the fixed error; otherwise the query's outcome; no returned article has link "#" or "" |
| NewsTool.CallNews | src/ai/tools/fetch-google-running-news-tool.ts:24-35 | Called through the framework, the tool's answer comes back only when every link is a URL, and then unchanged; an answer without articles, every failure included, always comes back |
| NewsTool.NonUrlLinkThrows | src/ai/tools/fetch-google-running-news-tool.ts:24-143 | One linked hit whose link is not a URL makes the whole call throw, whatever the other hits are |
| NewsCategories.KeysIdentifyCategories | src/lib/types.ts:4-11 | The category list is complete, and no two categories share a stored spelling |
| WeatherAction.ConditionPrefix | src/app/actions/weatherActions.ts:34-41 | Rain advice when the condition mentions rain; snow advice when it mentions snow but not rain; otherwise plain layering |
| WeatherAction.BandOf | src/app/actions/weatherActions.ts:43-53 | Hot above 75°F / 24°C, cold at or below 45°F / 7°C, mild in between the upper two bounds |
| WeatherAction.ClothingRecommendation | src/app/actions/weatherActions.ts:33-55 | The advice is the condition's opening followed by exactly the sentence of the temperature's band |
| WeatherAction.BandMonotone | src/app/actions/weatherActions.ts:43-53 | A warmer temperature never falls into a colder band |
| WeatherAction.BandSentenceInjective | src/app/actions/weatherActions.ts:44-52 | Different bands have different sentences, so the advice identifies its band |
| WeatherAction.Capitalize | src/app/actions/weatherActions.ts:102 | Only the first character is upper-cased; the rest are kept |
| WeatherAction.CaseOf | src/app/actions/weatherActions.ts:63-111 | A missing key comes first, then a missing city; a reply is reported exactly when its `cod` is the number 200, and a thrown fetch is its own case |
| WeatherAction.FetchWeather | src/app/actions/weatherActions.ts:57-120 | The unit defaults to C; each failure path gives its fixed texts and the requested city; success reports the provider's city and the band advice for the rounded temperature |
| WeatherForecast.IconFor | src/components/dashboard/WeatherForecast.tsx:15-25 | No or an empty summary gives the thermometer; the warning triangle is drawn exactly for a summary mentioning "unavailable" or "error" |
| WeatherForecast.Destructive | src/components/dashboard/WeatherForecast.tsx:33 | The destructive colour is used exactly when "unavailable" occurs at some position of the lower-cased summary, so the summary is at least that long |
| WeatherForecast.FirstMatchIsEarliest | src/components/dashboard/WeatherForecast.tsx:15-25 | The rule search returns the earliest rule whose words the text mentions, and none only when no rule applies |
| WeatherForecast.IconFollowsRuleTable | src/components/dashboard/WeatherForecast.tsx:15-25 | The icon is the thermometer for no summary, else the first rule in priority order the lower-cased summary mentions, else the thermometer |
| WeatherForecast.DestructiveIsAlert | src/components/dashboard/WeatherForecast.tsx:18-33 | Whenever the icon is drawn in the destructive colour it is the warning triangle |
| WeatherForecast.Card | src/components/dashboard/WeatherForecast.tsx:12-46 | The skeleton shows exactly when there is no summary or it is empty; otherwise the summary text is shown |
| WeatherForecast.UnavailableInSummary | src/ai/flows/generate-dashboard-content.ts:264 | The fallback's weather-error summary contains "unavailable" once lower-cased |
| WeatherForecast.FallbackWeatherErrorAlerts | src/components/dashboard/WeatherForecast.tsx:18-33 | Given the fallback's weather-error summary, the weather card draws the warning triangle in the destructive colour (the page itself does not pass the summary to the card) |
| DashboardPage.SettingsChanged | src/app/dashboard/page.tsx:75-77 | Without the user or the cache document the settings never count as changed; with both, they are unchanged exactly when the cached city and unit equal the profile's |
| DashboardPage.CacheHit | src/app/dashboard/page.tsx:79 | A hit needs a cache dated today; without a user document, a cache dated today is always a hit |
| DashboardPage.Stale | src/app/dashboard/page.tsx:105 | A missing cache, or one dated another day, is stale |
| DashboardPage.Run | src/app/dashboard/page.tsx:92-117 | After a sequence of reports the defined fields are those defined before plus the reported ones, and there are at most as many writes as reports |
| DashboardPage.HitOrStale | src/app/dashboard/page.tsx:75-105 | A cache that exists is either shown as it is or marked for rewriting, never both |
| DashboardPage.FreshnessIgnoresOtherSettings | src/app/dashboard/page.tsx:75-77 | Only the profile's city and unit decide freshness; changing anything else leaves the decision alone |
| DashboardPage.LoadEffect | src/app/dashboard/page.tsx:74-90 | A cache hit shows the cached content; a signed-in miss with no error resets all five fields; a read error keeps the content |
| DashboardPage.Apply | src/app/dashboard/page.tsx:94 | Recording a report sets its field to the reported value and leaves the other four fields unchanged, so the defined fields grow by exactly that one |
| DashboardPage.ApplyTouchesOneField | src/app/dashboard/page.tsx:94 | Reports for different fields commute; a later report for the same field replaces the earlier one |
| DashboardPage.NewCache | src/app/dashboard/page.tsx:58-67 | The written cache is keyed by the user, dated today, and holds exactly the page's content |
| DashboardPage.Record | src/app/dashboard/page.tsx:92-117 | The cache is written exactly when the content becomes complete, the cache is stale and a user is signed in; the document holds the content |
| DashboardPage.WrittenCacheIsHit | src/app/dashboard/page.tsx:58-79 | A freshly written cache is a hit for the same profile exactly when the cached weather's city and unit match the profile |
| DashboardPage.ProviderCityDefeatsCache | src/app/actions/weatherActions.ts:105-110 | When the provider spells the city differently from the profile, the cache just written is never a hit |
| DashboardPage.PageNeverWritesWithoutDress | src/app/dashboard/page.tsx:99-114 | With the clothing field never reported, no sequence of reports, the empty one the shipped cards send included, ever writes the cache (see Findings) |
| DashboardPage.ResetPageNeverWrites | src/app/dashboard/page.tsx:81-89 | After the load effect resets the content, no sequence of reports without the clothing field writes the cache |
| DashboardPage.OneWritePerCompletion | src/app/dashboard/page.tsx:99-114 | With every card reporting its field, fresh reports write the cache exactly once, when the fifth field arrives, holding the final content |
| PlanDisplay.UpToLineEnd | src/components/training-plan/TrainingPlanDisplay.tsx:46 | The description is the longest prefix with no line terminator |
| PlanDisplay.DescriptionAfterDate | src/components/training-plan/TrainingPlanDisplay.tsx:46-53 | The description after the date has no surrounding white space and no line terminator, and is empty for a blank remainder |
| PlanDisplay.Classify | src/components/training-plan/TrainingPlanDisplay.tsx:45-70 | A line is dated exactly when it opens with `dddd-dd-dd`, and then carries that date text and the description after it; every line carries its trimmed text and whether it is a week heading |
| PlanDisplay.Step | src/components/training-plan/TrainingPlanDisplay.tsx:49-73 | A dated line inside the plan moves the cursor to its date and is placed as a primary workout with the text after its date; no other line moves the cursor; a dated line outside the plan attaches to the current date exactly when its description is non-empty, an undated line exactly when it is non-empty and not a week heading, each as a secondary holding the whole trimmed line; before any date nothing is placed |
| PlanDisplay.Walk | src/components/training-plan/TrainingPlanDisplay.tsx:49-73 | Each line places at most one workout |
| PlanDisplay.WalkWithinPlan | src/components/training-plan/TrainingPlanDisplay.tsx:56 | Every placed workout's date lies between the plan's start and end |
| PlanDisplay.PrimariesAreDatedLines | src/components/training-plan/TrainingPlanDisplay.tsx:50-58 | The primary workouts are exactly the dated in-plan lines' descriptions, in order |
| PlanDisplay.NothingBeforeFirstDate | src/components/training-plan/TrainingPlanDisplay.tsx:61-72 | Lines before the first dated in-plan line place nothing |
| PlanDisplay.Insert | src/components/training-plan/TrainingPlanDisplay.tsx:75 | Inserting into a date-sorted list keeps it sorted and adds exactly the one workout |
| PlanDisplay.SortByDate | src/components/training-plan/TrainingPlanDisplay.tsx:75 | The result is sorted by date and is a permutation of the input |
| PlanDisplay.SortStable | src/components/training-plan/TrainingPlanDisplay.tsx:75 | The sort is stable: the workouts of any one day keep their original order |
| PlanDisplay.Calendar | src/components/training-plan/TrainingPlanDisplay.tsx:34-76 | The calendar's workouts all lie within the plan, are sorted by date, are a permutation of the placed workouts, and keep the text order of each day's workouts |
| PlanDisplay.ParseCalendarWorkouts | src/components/training-plan/TrainingPlanDisplay.tsx:34-76 | An unparsable start or end date gives no workouts; otherwise the calendar of the plan text's non-blank lines between the two dates, so all workouts lie in the plan and are sorted by date |
| PlanDisplay.PlanLinesSkipBlank | src/components/training-plan/TrainingPlanDisplay.tsx:36 | Inserting a blank line into the plan text does not change the lines the parser sees |
| PlanDisplay.BlankLineIrrelevant | src/components/training-plan/TrainingPlanDisplay.tsx:36 | Inserting a blank line does not change the calendar |
| PlanDisplay.ScheduleListItems | src/components/training-plan/TrainingPlanDisplay.tsx:80-90 | Every list item is non-empty, carries its position as its id, and is highlighted exactly when it starts with a date or weekday |
| PlanDisplay.ListShowsPlanLines | src/components/training-plan/TrainingPlanDisplay.tsx:82-84 | The list shows exactly the non-blank plan lines, trimmed, in order |
| PlanDisplay.ItemIdsDistinct | src/components/training-plan/TrainingPlanDisplay.tsx:86 | No two list items share an id |
| PlanDisplay.TrimKeepsDatePrefix | src/components/training-plan/TrainingPlanDisplay.tsx:83 | Trimming a line that starts with a date keeps the date at its start |
| PlanDisplay.IsDateLine | src/components/training-plan/TrainingPlanDisplay.tsx:87 | A line opening with a date, or with an English weekday name ("monday" stated) in any letter case, is highlighted; any other highlighted line is at least as long as the shortest weekday name |
| PlanDisplay.DatedLineIsDateLine | src/components/training-plan/TrainingPlanDisplay.tsx:81-88 | A line the calendar treats as dated is highlighted in the list |
| PlanSetup.Errors | src/components/training-plan/TrainingPlanSetup.tsx:34-51 | Each complaint is raised exactly when its condition fails: a missing start date, missing experience, days outside 1 to 7, a duration outside 1 to 52 weeks, and a target before a present start date (the refinement does not run without a start date) |
| PlanSetup.WeeksBetween | src/components/training-plan/TrainingPlanSetup.tsx:88-89 | The fewest whole weeks, at least one, that cover the days from start to target inclusive |
| PlanSetup.DerivedWeeks | src/components/training-plan/TrainingPlanSetup.tsx:85-95 | With both dates present and the target not before the start, the duration is recomputed to the fewest covering weeks; otherwise it is kept |
| PlanSetup.WeeksMonotone | src/components/training-plan/TrainingPlanSetup.tsx:88-89 | A later target never gives fewer weeks |
| PlanSetup.EndDay | src/components/training-plan/TrainingPlanSetup.tsx:119-124 | The end is the target race day, or else the day that ends exactly the chosen number of weeks |
| PlanSetup.WeeksRoundTrip | src/components/training-plan/TrainingPlanSetup.tsx:88-123 | The weeks recomputed from the end that a duration gives are that duration |
| PlanSetup.ValidPlanEndsAfterStart | src/components/training-plan/TrainingPlanSetup.tsx:119-124 | A valid setup never ends before its start |
| PlanSetup.DerivedWeeksCoverPlan | src/components/training-plan/TrainingPlanSetup.tsx:85-95 | After the duration effect, the weeks exactly cover the days from start to target |
| PlanSetup.InputOf | src/components/training-plan/TrainingPlanSetup.tsx:127-136 | The generator receives the profile fields unchanged, the formatted start, the formatted target as the end when one is set and otherwise the last day of the chosen weeks, the formatted target exactly when one is set, and the notes or an empty string |
| PlanSetup.Submit | src/components/training-plan/TrainingPlanSetup.tsx:112-173 | Invalid values are rejected with their errors; a missing sign-in stops; a plan is saved exactly when valid, signed in and the generator answers |
| PlanSetup.SavedPlanReadsBack | src/components/training-plan/TrainingPlanSetup.tsx:143-155 | The saved plan meets the plan schema and reads back as itself |
| PlanSetup.SavedPlanCalendarSpan | src/components/training-plan/TrainingPlanSetup.tsx:123-147 | Read back by the calendar, a plan saved without a target places workouts only within its chosen weeks |
| Schemas.ParseFitness | src/lib/firebase-schemas.ts:5 | Absent gives Beginner; each enum name parses to its level; nothing else parses |
| Schemas.ParseRunningExperience | src/lib/firebase-schemas.ts:6 | Absent gives "Not set"; a non-empty string is kept; anything else fails |
| Schemas.ParseGoal | src/lib/firebase-schemas.ts:7 | Absent gives 5K; each enum name parses to its goal; nothing else parses |
| Schemas.ParseDaysPerWeek | src/lib/firebase-schemas.ts:8 | Absent gives 3; any number in [1, 7], fractions included, is kept; anything else fails |
| Schemas.ParseOptionalText | src/lib/firebase-schemas.ts:9 | Absent gives ""; a string is kept; anything else fails |
| Schemas.ParseTextList | src/lib/firebase-schemas.ts:12 | Absent gives []; an array of strings is kept element by element; anything else fails |
| Schemas.TextArrayRoundTrip | src/lib/firebase-schemas.ts:12 | A stored list of strings parses back to the same list |
| Schemas.ParseUnit | src/lib/firebase-schemas.ts:14 | Absent gives C; "C" and "F" parse to their unit; nothing else parses |
| Schemas.ParseProfile | src/lib/firebase-schemas.ts:4-15 | A parsed profile always meets the field constraints; a non-object never parses |
| Schemas.EmptyProfileDefaults | src/lib/firebase-schemas.ts:4-15 | An empty object parses to every field's default |
| Schemas.ProfileRoundTrip | src/lib/firebase-schemas.ts:4-15 | A stored profile parses back to itself exactly when it meets the constraints |
| Schemas.UserDefaultMatchesProfileDefaults | src/lib/firebase-schemas.ts:23-34 | The user schema's literal default profile equals what the profile schema's defaults produce |
| Schemas.ParsePlanRef | src/lib/firebase-schemas.ts:35 | Absent, null and string plan references are told apart; nothing else parses |
| Schemas.ParseUser | src/lib/firebase-schemas.ts:18-36 | A parsed user has a valid e-mail, non-empty names and a constrained profile; a missing profile becomes the default |
| Schemas.UserRoundTrip | src/lib/firebase-schemas.ts:18-36 | A stored user, its plan reference absent, null or an id, parses back to itself exactly when its e-mail is valid, both names are non-empty and its profile meets the constraints |
| Schemas.ParsePlan | src/lib/firebase-schemas.ts:47-57 | A parsed plan's profile fields meet the profile constraints; a missing fitness level becomes Beginner |
| Schemas.PlanRoundTrip | src/lib/firebase-schemas.ts:47-57 | A stored plan parses back to itself exactly when its profile fields meet the constraints |
| Schemas.ParseWeatherInfo | src/lib/firebase-schemas.ts:65-70 | City and unit are absent exactly when the stored fields are; a unit other than C or F fails the parse |
| Schemas.WeatherInfoRoundTrip | src/lib/firebase-schemas.ts:65-70 | Every stored weather record, with or without its city and unit, parses back to itself |
| Schemas.ParseDashboardCache | src/lib/firebase-schemas.ts:60-73 | A parsed cache has a parsed weather record and as many news articles as the stored array |
| Schemas.CacheRoundTrip | src/lib/firebase-schemas.ts:60-73 | Every stored cache document parses back to itself |
| Text.Trim | src/ai/flows/generate-dashboard-content.ts:207 | The result has no leading or trailing white space, and is empty exactly when the input is all white space |
| Text.TrimPadding | src/ai/flows/generate-dashboard-content.ts:207 | The trimmed text is a slice of the input with only white space before and after it |
| Text.JoinSplit | src/components/training-plan/TrainingPlanDisplay.tsx:36 | Joining the pieces of a split with the separator gives back the string |
| Text.SplitJoin | src/components/training-plan/TrainingPlanDisplay.tsx:36 | Splitting a join of separator-free pieces gives back the pieces |
| Text.NatToStringRoundTrip | src/components/training-plan/TrainingPlanDisplay.tsx:86 | The decimal digits of a number read back as the number |
| Text.NatToStringInjective | src/components/training-plan/TrainingPlanDisplay.tsx:86 | Different numbers print differently |
| Text.ReplaceFirst | src/components/dashboard/DressMyRun.tsx:51 | The length is kept; a string without the character is unchanged; otherwise exactly its first occurrence becomes the replacement and every other character is kept |
| Text.IntToString | src/app/actions/weatherActions.ts:102 | The result starts with "-" exactly for a negative number; the rest is one or more decimal digits without a leading zero whose value is the number's magnitude |
| Seqs.Filter | src/ai/flows/generate-dashboard-content.ts:204 | The kept elements satisfy the predicate, come from the input in order, and include every element that satisfies it |
| Seqs.FilterMap | src/ai/tools/fetch-google-running-news-tool.ts:71 | Filtering after mapping is mapping after filtering with the pulled-back predicate |
| DressMyRun.TableMatchesPrompt | src/components/dashboard/DressMyRun.tsx:23-48 | The icon table has a key for exactly the categories the generator's prompt permits |
| DressMyRun.PromptListsEachOnce | src/ai/flows/generate-dashboard-content.ts:170 | The prompt names each permitted category once |
| DressMyRun.KeysAreShaped | src/components/dashboard/DressMyRun.tsx:23-48 | Every table key is lower-case letters and hyphens |
| DressMyRun.KeyIsNormal | src/components/dashboard/DressMyRun.tsx:23-48 | A key is unchanged by lower-casing and by trimming |
| DressMyRun.IconForCategoryAsWritten | src/components/dashboard/DressMyRun.tsx:50-58 | As written, the category is lower-cased and trimmed and its first hyphen becomes a space; the result's icon when it is a table key, the help icon otherwise |
| DressMyRun.HyphenatedCategoriesMiss | src/components/dashboard/DressMyRun.tsx:51-57 | As written, any category with a hyphen after normalising gets the help icon |
| DressMyRun.HyphenatedKeysMiss | src/components/dashboard/DressMyRun.tsx:51-57 | As written, every hyphenated key of the table misses its own icon |
| DressMyRun.TankTopMissesAsWritten | src/components/dashboard/DressMyRun.tsx:29-57 | "tank-top" maps to the shirt in the table, yet the lookup as written returns the help icon |
| DressMyRun.IconForCategory | src/components/dashboard/DressMyRun.tsx:50-58 | The corrected lookup gives the table's icon for the lower-cased, trimmed category when that is a key, and the help icon otherwise |
| DressMyRun.KeysFindTheirIcon | src/components/dashboard/DressMyRun.tsx:50-58 | Every key, in any letter case and padded with white space, finds its own icon in the corrected lookup |
| DressMyRun.AsWrittenAgreesWithoutHyphens | src/components/dashboard/DressMyRun.tsx:51 | Without a hyphen the written and the corrected lookups agree |
| DressMyRun.ListIcon | src/components/dashboard/DressMyRun.tsx:86 | A list entry shows the table's icon for the lower-cased (untrimmed) category when it is a key, and the shirt otherwise |
| DressMyRun.ListAgreesWithLookup | src/components/dashboard/DressMyRun.tsx:86 | For a trimmed category, the card's direct lookup agrees with the corrected lookup on table keys, and shows the shirt otherwise |
| DressMyRun.TrimLower | src/components/dashboard/DressMyRun.tsx:51 | Trimming and lower-casing commute |
| DressMyRun.Render | src/components/dashboard/DressMyRun.tsx:65-97 | Pending, unexpected-format, empty and list states are told apart; each list entry shows its item, its category and the category's icon |
| DressMyRun.PermittedCategoriesShowTheirIcon | src/components/dashboard/DressMyRun.tsx:86 | An item whose lower-cased category is a table key is drawn with that key's icon |
| DressMyRun.RenderAppends | src/components/dashboard/DressMyRun.tsx:85-93 | The entries of two lists together are the entries of each, in order |
| Header.ShownName | src/components/layout/Header.tsx:47 | The display name when it is non-empty, else the e-mail |
| Header.InitialsAsWritten | src/components/layout/Header.tsx:36-43 | As written, "U" for no name; the upper-cased first letter for a name without a space; otherwise the upper-cased first character of the first and of the last space-separated piece, with "undefined" for an empty piece |
| Header.TrailingSpaceSpellsUndefined | src/components/layout/Header.tsx:38-40 | As written, a word followed by a space is drawn as its initial followed by "UNDEFINED" |
| Header.TrailingSpaceExample | src/components/layout/Header.tsx:36-43 | As written, "Ada " is drawn as "AUNDEFINED" |
| Header.Initials | src/components/layout/Header.tsx:36-43 | The corrected initials are "U" for a name without words, the upper-cased first letter of a one-word name, and otherwise the upper-cased first letters of the first and the last word |
| Header.InitialsComeFromTheName | src/components/layout/Header.tsx:36-43 | By position: a name of spaces only gives "U"; otherwise the initials are the upper-cased first non-space character and, when it does not also start the last word, the upper-cased first character of the last word, and both positions exist |
| Header.PiecesNonEmpty | src/components/layout/Header.tsx:38 | Without doubled, leading or trailing spaces, no piece of the split is empty |
| Header.InitialsAgreeWhenWellSpaced | src/components/layout/Header.tsx:36-43 | On a well-spaced name the written and corrected initials agree |
| Header.WordsOfWellSpaced | src/components/layout/Header.tsx:38 | A well-spaced name's words are exactly its split pieces |
| AppSidebar.IsActive | src/components/layout/AppSidebar.tsx:72-76 | An active entry's path is a prefix of the pathname, and the dashboard entry is active only on its own path |
| AppSidebar.DashboardIsExact | src/components/layout/AppSidebar.tsx:72 | The dashboard entry is active only on its own path |
| AppSidebar.OthersMatchPrefixes | src/components/layout/AppSidebar.tsx:72 | Any other entry is active for its path followed by anything, with no "/" boundary |
| AppSidebar.ProfileXIsProfile | src/components/layout/AppSidebar.tsx:72 | "/profileX" lights up the Profile entry |
| AppSidebar.HrefsDiffer | src/components/layout/AppSidebar.tsx:30-35 | The four paths differ in their second character |
| AppSidebar.AtMostOneActive | src/components/layout/AppSidebar.tsx:72-76 | No pathname activates two entries |
| AppSidebar.ActiveItems | src/components/layout/AppSidebar.tsx:68-76 | The highlighted entries are exactly the active ones, and there is at most one |
| ProfileForm.OverlayProfile | src/components/profile/ProfileForm.tsx:76-85 | The starting profile always meets the schema; a failed parse falls back to the defaults |
| ProfileForm.OtherKeysIgnored | src/components/profile/ProfileForm.tsx:79-81 | A key outside the ten schema keys, such as the category list, does not affect the parsed profile |
| ProfileForm.StoredProfileKept | src/components/profile/ProfileForm.tsx:76-85 | A stored profile that meets the schema is shown unchanged |
| ProfileForm.BrokenProfileFallsBack | src/components/profile/ProfileForm.tsx:76-85 | A stored profile that breaks the schema is replaced whole by the defaults |
| ProfileForm.CityOnlyProfile | src/components/profile/ProfileForm.tsx:76-85 | A stored profile holding only a city keeps every other default |
| ProfileForm.MissingProfileGivesDefaults | src/components/profile/ProfileForm.tsx:76-85 | Without a stored profile object the form starts from the defaults |
| ProfileForm.NamesFromDisplayName | src/components/profile/ProfileForm.tsx:96-97 | No display name gives empty names; a one-word name becomes the first name with an empty last name; otherwise the first name is the text before the first space (it holds no space) and the last name the text after it |
| ProfileForm.NamesRejoin | src/components/profile/ProfileForm.tsx:96-97 | When the display name has a space, first name, space and last name give it back |
| ProfileForm.ResetValues | src/components/profile/ProfileForm.tsx:71-103 | The form is reset when a document exists or a signed-in user has none; the profile always meets the schema; from a document each name and the email is the stored text or empty, and the profile is the overlay; from the account the names come from the display name, the email is the account's or empty, and the profile is the default |
| ProfileForm.Errors | src/components/profile/ProfileForm.tsx:31-36 | Each complaint is raised exactly when its condition fails |
| ProfileForm.OneWordNameNeedsLastName | src/components/profile/ProfileForm.tsx:96-97 | A new account with a one-word display name starts with a missing last name, so the form cannot be saved as it is |
| ProfileForm.Save | src/components/profile/ProfileForm.tsx:106-123 | Errors stop the save; a missing document or user stops it; a write holds names and profile, and the e-mail exactly when the account has one |
| ProfileForm.SavedProfileReadsBack | src/components/profile/ProfileForm.tsx:113-123 | A written profile reads back as the profile the form held |
| ProfileForm.IsChecked | src/components/profile/ProfileForm.tsx:413 | An unset list checks no box |
| ProfileForm.Toggle | src/components/profile/ProfileForm.tsx:414-422 | Checking appends the value to the (possibly unset) list and keeps the rest; unchecking removes every copy of the value, keeps every other entry and their order |
| ProfileForm.ToggleShowsChoice | src/components/profile/ProfileForm.tsx:413-422 | After a change the box shows the choice made |
| ProfileForm.CheckAddsACopy | src/components/profile/ProfileForm.tsx:413-422 | Checking adds one more copy of the value, even one already present, and nothing else |
| ProfileForm.UncheckKeepsOthers | src/components/profile/ProfileForm.tsx:413-422 | Unchecking keeps every other value with all its copies, in order |
| ProfileForm.CheckThenUncheck | src/components/profile/ProfileForm.tsx:413-422 | Checking and then unchecking is the same as unchecking |
| ProfileForm.CapitalizeWords | src/components/profile/ProfileForm.tsx:427 | Same length; every word character that starts a word is upper-cased and every other character is unchanged |
| ProfileForm.Label | src/components/profile/ProfileForm.tsx:427 | A label has the value's length and no underscore; each underscore becomes a space, each word-starting character is upper-cased, and every other character is unchanged |
| ProfileForm.LabelRoundTrip | src/components/profile/ProfileForm.tsx:427 | A snake-case value is recovered from its label |
| ProfileForm.LabelCapitalizesWords | src/components/profile/ProfileForm.tsx:427 | Each word of a label starts with a capital letter |
| ProfileForm.LabelsIdentifyCategories | src/components/profile/ProfileForm.tsx:427 | The seven categories have seven different labels |
| ProfileForm.KeysAreSnakeCase | src/components/profile/ProfileForm.tsx:427 | Every category's stored spelling is snake case |
| ProfileForm.TrackRoadTrailLabel | src/components/profile/ProfileForm.tsx:427 | "track_road_trail" is labelled "Track Road Trail" |

## Left out

- I/O is not modelled: React rendering, toasts, logging, Firestore reads and writes, and the network calls. Their results are parameters, or `Option` values for failures.
- The parameters are oracles with no behaviour of their own: date-fns `parseISO`, `format`, `differenceInCalendarDays` and `isWithinInterval`, `new URL(...).hostname`, zod's `.url()` and `.email()`, and `Math.round`. Calendar dates are whole day numbers; the plan setup's picked dates are an `Instant` of a day number and a time of day in milliseconds, so that `<` on `Date`s can be modelled.
- Case mapping and `\w` cover ASCII only. JavaScript's Unicode case tables are not modelled.
- Strings are sequences of Unicode scalar values, while JavaScript strings are UTF-16 code units. `name[0]` in `getInitials` and `charAt(0)` in `Capitalize` take one code unit, so for a name or text starting with a character outside the Basic Multilingual Plane (an emoji) the source keeps a lone surrogate where the model keeps the whole character. Lengths and slices differ the same way for such text.
- White space is the ECMAScript WhiteSpace and LineTerminator set.
- The object-prototype keys (`constructor`, `toString`, …) are not modelled. In `categoryIcons[...]` they would give a non-icon value.
- The dashboard flow's own `outputSchema` validation throw and the prompt's wording are not modelled (the news tool's output check is, as NewsTool.CallNews). The generator is an `Option` of its raw output, and only the permitted-category list from the prompt is modelled.
- The news query omits its ` after:YYYY-MM-DD` suffix and the URL encoding. The date comes from the clock.
- NewsTool.FetchNews: the `og:site_name` metatag lookup is a single optional field of the search hit.
- The dashboard page's freshness compares the cache date, the city and the unit only, following the code. Categories and the plan id play no part. The `isGeneratingCache` flag is never read, so no single-flight latch is modelled.
- DashboardPage.SettingsChanged: the page reads the user and cache documents through an unchecked type assertion, and the model takes them as records that meet the schema. Two behaviours are lost. A user document without `profile` makes the source throw a TypeError in the freshness effect and in `handleComponentGenerated`, while the model always has a profile. A stored profile without `locationCity`, beside a cached weather record without a city, compares `undefined` with `undefined` in the source and counts as unchanged, while the model compares `None` with `Some("")` and counts it as changed.
- DashboardFlow.FallbackSummary: the "could not generate" sentence ends with the source's text, with no extra period.
- PlanDisplay.Calendar: an interval whose start is after its end places nothing. date-fns 2 throws there, and the error is caught.
- ProfileForm.OverlayProfile: a stored profile that is not an object and not missing is treated as `{}`. Spreading a string would copy its characters as keys.
- ProfileForm.OverlayProfile: only undefined and null count as an absent category list. It makes no difference, because the schema strips that key (OtherKeysIgnored).
- WeatherAction.FetchWeather: the reply's `cod` is compared with the number 200 only. A string "200" counts as an error, as in the source.
- The feedback form, the sign-up and training-plan pages, the other AI flows and the layout are not part of this model. Nor are the greeting, workout and news cards, beyond the values the dashboard hands them.

## Findings

| source | as written | input that shows it | evidently intended | confidence | as-written member | corrected member |
|---|---|---|---|---|---|---|
| src/app/dashboard/page.tsx:99-114 | The cache is written only once all five fields are defined, and only from `handleComponentGenerated`. The page passes that handler to four cards as `on...Generated` props, but none of the cards (MotivationalGreeting, WeatherForecast, DailyWorkout, RunningNews) declares or calls such a prop, and `DressMyRun` is not given one, so the content stays undefined after the reset | Any cache miss of a signed-in user: the page resets the content, no report ever arrives, and nothing is written; even if the four wired cards reported, the clothing field would stay undefined | Every card, the clothing card included, reports what it shows, so the cache is written once the content is complete | not executed | DashboardPage.PageNeverWritesWithoutDress | DashboardPage.OneWritePerCompletion |
| src/components/dashboard/DressMyRun.tsx:51-57 | `getIconForCategory` replaces the first `-` with a space before the lookup, so every hyphenated key misses | The category "tank-top" gets the help icon, though the table maps it to the shirt | The normalised category is looked up as it is | not executed | DressMyRun.TankTopMissesAsWritten | DressMyRun.KeysFindTheirIcon |
| src/components/layout/Header.tsx:36-43 | `getInitials` takes `[0]` of empty pieces, and the template prints `undefined` | The name "Ada " is drawn as "AUNDEFINED" | Initials from the non-empty words only | not executed | Header.TrailingSpaceExample | Header.InitialsComeFromTheName |

`getIconForCategory` is not called by the card's list, which looks categories up directly (DressMyRun.ListIcon, DressMyRun.ListAgreesWithLookup). The second finding is therefore latent in the shipped card.
