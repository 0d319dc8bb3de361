# iform: trend aggregation, prompt building and reply extraction, in Dafny

iform is a running coach. It reads a runner's Strava activities, asks a
language model for a coaching summary and suggestions, and charts the six
most recent months. This project models the sequential logic inside it:

- **`calculateTrendData`** (page script). This part is imperative. It seeds
  six monthly buckets keyed `${year}-${month + 1}`, with `new Date` rolling
  the year over. It folds every activity into the bucket of its own month
  and drops activities outside the window. It then walks the months oldest
  first and pushes one label, one average pace and one total distance per
  month. In the model these are the methods `Trend.SeedWindow`,
  `Trend.AccumulateActivities`, `Trend.EmitSeries` and
  `Trend.CalculateTrendData`. Each works over a local map or sequence and
  is proved against its own reference definition: `SeedWindow` against
  `Trend.WindowKeys`, `AccumulateActivities` against `Trend.MonthTotals`,
  `EmitSeries` against `Trend.LabelSeries`, `Trend.BucketPaces` and
  `Trend.BucketDistances`, and `CalculateTrendData` against `Trend.TrendOf`,
  which is built from those.
- **The fallback of `displayAnalysis`** (page script). The page shows the
  reply's summary, or "No summary available." when that value is falsy. It
  shows the reply's suggestions when they are an array, and a one-item
  fallback list otherwise.
- **`POST /api/analyze/activities`** (server). The handler refuses a
  missing or empty activity list with 400. Otherwise it builds the prompt,
  calls the model, cuts the first `` ```json\n … \n``` `` block out of the
  reply, parses it and sends it. Every failure inside the `try` (the model
  call, the reply text, the fence, the parse: backend/server.js:126-138)
  becomes one 500 reply. `Fence.ExtractJsonBlock` follows the regular expression
  `` /```json\n([\s\S]*?)\n```/ ``: the match starts leftmost and the lazy
  group takes the shortest text. The empty group counts as a failure,
  because an empty string is falsy. The declarative description is
  `Fence.IsRegexMatch`.
- **`generateAnalysisPrompt`** (server). It maps each activity to a
  summary: kilometres, minutes, km/h, and the date before the first `T`.
  It resolves the localised field names, falling back to `"summary"` and
  `"suggestions"`. It then assembles the prompt: the introduction, the
  special-considerations clause only when that text is non-empty, the
  serialised summaries, and the required JSON schema with three
  suggestion slots.

Modules:

- `Wrappers`: Option and Result.
- `JsValues`: JSON values, truthiness, and the `table[key] || fallback`
  lookup.
- `Calendar`: months, the key and its injectivity.
- `Activities`: the activity record.
- `Trend`, `AnalysisDisplay`, `Fence` and `AnalyzeEndpoint`: the four
  parts described above.
- `Strings`: occurrence helpers.
- `PromptWording`: the fixed text of the prompt.
- `PromptLayout`: where each part lands in the text.
- `Prompt`: normalisation, key resolution and `generateAnalysisPrompt`.

Things outside the core are parameters of the model:

- the clock (`now`);
- the locale tables (`translations`);
- the display locale's month names;
- the browser's parse of `start_date_local` (`localMonth`);
- `JSON.stringify` of the summaries (`stringify`);
- the model call (`generate`);
- `JSON.parse` (`parseJson`).

Behaviour of the source that is easy to misread:

- The fences are `` ```json `` followed by a line break, and a line break
  followed by `` ``` ``.
- An empty fenced block is rejected like a missing one.
- A month with activities but zero total distance plots a non-finite pace
  (`Trend.ChartValue.NonFinite`), as JavaScript's `Infinity`/`NaN` would.
  It is not clamped.
- The page looks up the summary and suggestions member names with no
  fallback. A missing locale entry makes the page read the property
  `"undefined"` (`AnalysisDisplay.ReplyKey`).

## Model

| member | source | states |
|---|---|---|
| Calendar.MonthsBefore | frontend/script.js:118 | `new Date(y, m - i, 1)` is exactly `i` months before `now`. It stays in the same year while `i <= m` and rolls into the previous year, with month `m - i + 12`, when `m < i <= m + 12`. |
| Calendar.InWindowIffMonthsBefore | frontend/script.js:117-118 | A month is among the six seeded months (0 to 5 months before `now`) if and only if it is one of `MonthsBefore(now, 0..5)`. |
| Calendar.IntToString | frontend/script.js:119 | `${year}` renders a negative year as '-' followed by the digits of its magnitude, and a non-negative year as its digits. |
| Calendar.NatToStringRoundTrip | frontend/script.js:119 | Reading back the decimal digits that `${n}` writes gives `n`. |
| Calendar.MonthKeyInjective | frontend/script.js:119 | The bucket key `${year}-${month + 1}` is injective over (year, month), for negative years too: distinct months never share a bucket. |
| Calendar.MonthKeyIsNotInvalidDateKey | frontend/script.js:124-125 | No real month's key equals "NaN-NaN", the key of an unparseable date. So an Invalid Date never lands in a bucket. |
| JsValues.EntryOr | frontend/script.js:159 | A lookup with a fallback gives the entry when it is present and non-empty, and the fallback otherwise. It is never empty when the fallback is non-empty. |
| Trend.ActivityKeyMatches | frontend/script.js:124-127 | An activity's key is the key of month `ym` if and only if the activity started in `ym`. |
| Trend.MonthTotals | frontend/script.js:123-131 | A month's reference bucket counts at most as many activities as there are, and is all zeros when it counts none. |
| Trend.WindowKeyDetermines | frontend/script.js:117-119 | Two seeded months with the same key are the same month. |
| Trend.KeysBeforeStep | frontend/script.js:117-120 | Each seeding step adds one key that was not there before. |
| Trend.SeedStep | frontend/script.js:117-120 | One seeding step keeps the seeding invariant: keys of the first `i + 1` months, `i + 1` entries, all empty. |
| Trend.SeedWindow | frontend/script.js:117-121 | The seeding loop creates exactly six buckets. They are keyed by the current month and the five before it, and each starts with zero totals and count 0. |
| Trend.Accumulate | frontend/script.js:125-131 | An activity whose key has a bucket adds 1 to that bucket's count, distance/1000 to its kilometres and moving_time/60 to its minutes. It changes no other bucket and adds no key. An activity without a bucket changes nothing. |
| Trend.AccumulateStep | frontend/script.js:123-132 | Folding in activity `k` carries every window bucket from the totals of the first `k` activities to those of the first `k + 1`. |
| Trend.AccumulateActivities | frontend/script.js:123-132 | After the `forEach`, the keys are still the six window keys, and each window bucket holds exactly the reference totals of the activities that started in its month. |
| Trend.SeriesMonth | frontend/script.js:138-139 | Chart position `j` (0 = oldest) shows the month `5 - j` months before `now`. |
| Trend.LabelSeries | frontend/script.js:141-142 | There are six labels, and label `j` is the short name of the month at position `j`. |
| Trend.PaceSeries | frontend/script.js:144-151 | There are six pace points, and point `j` is the pace of the reference bucket of the month at position `j`. |
| Trend.DistanceSeries | frontend/script.js:144-151 | There are six distance points, and point `j` is the distance of the reference bucket of the month at position `j`. |
| Trend.EmitSeries | frontend/script.js:138-153 | The descending loop produces the six labels, and the pace and distance points read from the buckets, oldest month first. |
| Trend.CalculateTrendData | frontend/script.js:112-168 | The whole procedure returns the reference chart `TrendOf`: six labels, then the pace and distance series of the activities, under the localised or fallback series labels. |
| Trend.SeriesIsChronological | frontend/script.js:138-139 | The six positions are consecutive months, oldest first, and the last one is the current month. |
| Trend.SeriesCoversWindow | frontend/script.js:138-139 | A month is shown on the chart if and only if it is in the six-month window. |
| Trend.MonthWithoutActivitiesIsEmpty | frontend/script.js:123-131 | A month in which no activity started has an empty bucket. |
| Trend.QuietMonthPlotsZero | frontend/script.js:149-151 | A chart month without activities plots 0 for both pace and distance. |
| Trend.ActiveMonthPoints | frontend/script.js:145-148 | A chart month with activities plots its total kilometres. Its pace is total minutes over total kilometres, or non-finite when the kilometres sum to 0. |
| Trend.InWindowCount | frontend/script.js:127 | The number of activities that started in the window is at most the number of activities. |
| Trend.CountsUpToStep | frontend/script.js:127-130 | The last activity adds 1 to the summed counts of the `n` most recent months exactly when it started in one of them. |
| Trend.BucketCountsAreInWindowCount | frontend/script.js:127-130 | The six bucket counts add up to the number of activities that started in the window, which is at most the input length. No activity is counted twice. |
| Trend.OutOfWindowActivityIgnored | frontend/script.js:127 | Appending an activity that did not start in the window leaves the whole chart unchanged. |
| Trend.ActivityAddsToItsOwnMonth | frontend/script.js:127-130 | Appending an activity adds its kilometres, its minutes and 1 to the bucket of its own month, and leaves every other month's bucket unchanged. |
| Trend.SingleRunThisMonth | frontend/script.js:112-168 | One 5 km, 25-minute run this month gives five zeros and then 5 in both series. |
| AnalysisDisplay.SummaryKeyAgreesWithServer | frontend/script.js:209 | The page looks up the member the prompt asked for (backend/server.js:170) if and only if the summary entry is present and non-empty; otherwise it looks under "undefined" or "" instead of "summary". |
| AnalysisDisplay.SuggestionsKeyAgreesWithServer | frontend/script.js:210 | The same for the suggestions entry against backend/server.js:171. |
| AnalysisDisplay.SchemaReplyShown | frontend/script.js:209-217 | With both entries present and non-empty, a reply that follows the prompt's schema is shown with its own summary and suggestions. |
| AnalysisDisplay.SchemaReplyLosesSummary | frontend/script.js:209-216 | With the summary entry missing or empty, a reply that follows the prompt's schema is shown with "No summary available.". |
| AnalysisDisplay.SchemaReplyLosesSuggestions | frontend/script.js:210-217 | With the suggestions entry missing or empty, a reply that follows the prompt's schema is shown with the one-item fallback list. |
| AnalysisDisplay.DisplayAnalysis | frontend/script.js:216-217 | The shown summary is always truthy. It is the reply's summary when that is truthy, else "No summary available.". The suggestions are the reply's array when it is one, else the one-item fallback list. An empty list is shown only when the reply holds an empty array. |
| Fence.RegexMatchUnique | backend/server.js:132 | The leftmost-then-shortest match is unique. |
| Fence.FindFrom | backend/server.js:132 | The scan returns the first occurrence at or after `from`, or `None` when there is none. |
| Fence.MatchFence | backend/server.js:132 | The scanner finds exactly the leftmost-then-shortest match, and reports none only when no opener is followed by a closer. |
| Fence.ExtractJsonBlock | backend/server.js:132-133 | A result is the non-empty group of the regex match. No result means there is no match, or the match's group is empty. |
| Fence.MatchFenceAt | backend/server.js:132 | The match is determined by the first opener and the first closer after it. |
| Fence.ExtractRoundTrip | backend/server.js:132-134 | Let `c` be non-empty, free of the closing fence, and placed after a prefix with no opening fence. Then extraction from `prefix + "```json\n" + c + "\n```" + suffix` returns `c`. |
| Fence.EmptyFenceFails | backend/server.js:132-133 | When the first fence is empty, there is no result. |
| Fence.NoOpenerFails | backend/server.js:132-133 | A reply without an opening fence yields no result. |
| Strings.BeforeFirst | backend/server.js:153 | `split('T')[0]` is a prefix of the input with no 'T'. When it is shorter than the input, the next character is 'T'. |
| Prompt.Summarize | backend/server.js:148-154 | The summary keeps the name. Its kilometres times 1000 are the metres, its minutes times 60 are the seconds, and its speed is m/s times 3.6. Its date is the text before the first 'T'. |
| Prompt.Normalize | backend/server.js:148-154 | There is one summary per activity, in input order. |
| Prompt.SummaryKey | backend/server.js:170 | The summary field name is the locale's non-empty entry, else "summary". It is never empty. |
| Prompt.SuggestionsKey | backend/server.js:171 | The suggestions field name is the locale's non-empty entry, else "suggestions". It is never empty. |
| Prompt.GenerateAnalysisPrompt | backend/server.js:147-216 | The prompt starts with the introduction in the requested language and ends with the schema spelled with the resolved field names. |
| Prompt.PromptMentionsConsiderationsIffGiven | backend/server.js:177-179 | The "IMPORTANT" clause follows the introduction if and only if the special considerations are non-empty. |
| Prompt.PromptQuotesConsiderations | backend/server.js:178 | Non-empty special considerations appear verbatim right after the clause's lead. |
| Prompt.PromptEmbedsSummaries | backend/server.js:181-184 | The serialised summaries of all the activities follow the introduction and the optional clause. |
| Prompt.PromptSchemaUsesResolvedKeys | backend/server.js:186-193 | The prompt declares the summary member, and the three-slot suggestions array, under the resolved field names. |
| PromptLayout.StartsWithIntroduction | backend/server.js:173-175 | The prompt text begins with the introduction. |
| PromptLayout.ConsiderationsWhenGiven | backend/server.js:177-179 | With non-empty considerations, the clause marker follows the introduction. |
| PromptLayout.NoConsiderationsWhenEmpty | backend/server.js:177-183 | With empty considerations, the text after the introduction is not the clause marker. |
| PromptLayout.ConsiderationsQuotedVerbatim | backend/server.js:178 | Non-empty considerations occur verbatim inside the clause. |
| PromptLayout.DataFollowsConsiderations | backend/server.js:181-184 | The data section follows the introduction and the optional clause. |
| PromptLayout.EndsWithSchema | backend/server.js:186-213 | The prompt text ends with the schema section. |
| PromptLayout.QuotedLinesQuotesEach | backend/server.js:189-193 | Every item of a quoted JSON list appears quoted, in order, at the start of its own line. |
| PromptLayout.ThreeSuggestionSlots | backend/server.js:189-193 | The schema's suggestions array quotes exactly three placeholder suggestions, one per line. |
| PromptLayout.SchemaNamesSummary | backend/server.js:187-188 | The schema object opens with the summary member, named by the resolved key. |
| PromptLayout.SchemaNamesSuggestions | backend/server.js:189-193 | The suggestions member, named by the resolved key and holding the slot array, follows the summary member. |
| PromptLayout.SectionNamesSummary | backend/server.js:186-188 | The schema section declares the summary member under the resolved key. |
| PromptLayout.SectionNamesSuggestions | backend/server.js:186-193 | The schema section declares the suggestions array under the resolved key. |
| AnalyzeEndpoint.InterpretReply | backend/server.js:126-138 | The reply's outcome is exactly one of four: a failed model call; no non-empty fenced block; a block that does not parse; or success with the parsed block. |
| AnalyzeEndpoint.Analyze | backend/server.js:120-124 | A request is refused as having no activities if and only if its activity list is missing or empty. |
| AnalyzeEndpoint.Respond | backend/server.js:120-142 | 200 with the parsed analysis on success. 400 with the no-activities message exactly for the guard. 500 with "Failed to analyze activities." for every other failure. |
| AnalyzeEndpoint.MissingActivitiesRejected | backend/server.js:120-122 | A request without activities gets 400 whatever the model and the parser would do. |
| AnalyzeEndpoint.FencedReplyAccepted | backend/server.js:132-135 | A reply whose first fenced block holds parseable content yields that parsed content. |
| AnalyzeEndpoint.EmptyFenceRejected | backend/server.js:132-137 | A reply whose first fenced block is empty counts as a missing block. |
| AnalyzeEndpoint.FencedReplyAnswered | backend/server.js:124-135 | When the model answers the request's prompt with such a block, the client gets 200 and the parsed content. |
| AnalyzeEndpoint.ModelFailuresLookAlike | backend/server.js:126-142 | Every failure inside the `try` (model call, reply text, fence, parse) reaches the client as the same 500 reply; a corollary of `Respond` and `Analyze`. |

## Left out

- The Express app, the session, static files and the `/api/lang` route. These are framework wiring and file I/O.
- The Strava OAuth flow and the activities fetch through Axios. These are network clients.
- The Gemini call. It is the parameter `generate`. `None` stands for a call, or a read of its text, that throws.
- `JSON.parse`. It is the parameter `parseJson`. `None` stands for a parse that throws.
- `JSON.stringify(summaries, null, 2)`. It is the parameter `stringify`.
- Loading the locale file from disk, and its English fallback. The resolved table is the parameter `translations`.
- Prompt.Summarize: it does not model `toFixed(2)`. The summary values are exact reals, not two-decimal strings, because floating-point rounding and formatting are out of scope.
- Trend.EmitSeries: it does not model `toFixed(2)` either. Non-empty months carry exact reals where the page pushes two-decimal strings, and empty months carry 0.
- `toLocaleString` month names. The twelve short names are the parameter `monthNames`.
- The browser's `Date` parse of `start_date_local`. It is given as `localMonth`, with `None` for an Invalid Date.
- The clock. The current month is the parameter `now`.
- Two-digit years: `new Date(y, …)` maps years 0–99 to 1900–1999. The model treats every year as itself.
- `JsValues.Property` does not model array indices or `length` on non-object values. Every non-object is taken to have no members.
- Request fields of the wrong JSON type (a non-array `activities`, a non-string `lang`). Exceptions thrown while building the prompt, before the `try` (backend/server.js:124, for example a `start_date_local` that is not a string at :153), are not modelled either: the model's prompt always exists.
- AnalyzeEndpoint.Respond: Express's handling of a body that is not an object is not modelled. A parsed string, `null` or bare number is taken as a JSON body sent with 200, whereas `res.send` sends a string as text and Express 4 treats a bare number as a status code.
- The HTML rendering of the analysis, the chart drawing, and all other DOM, theme and event code on the page.
- `calculateTrendData` keeps its three loops in one function. The model splits them into the methods `SeedWindow`, `AccumulateActivities` and `EmitSeries`, and `CalculateTrendData` calls them in order.
