# Travel planner core, modelled in Dafny

This project models the logic of an AI travel planner and proves properties about it. The planner turns a trip request (destination, dates, budget, travelers, preference tags, special requirements) into a day-by-day itinerary.

The backend's `AIService` does four things:

- It counts the trip's days.
- It builds a Chinese-language prompt and sends it to a hosted language model (the DashScope `qwen-max` endpoint).
- It cuts the JSON object out of the model's reply and stamps the request's own fields over it.
- When the reply has no usable JSON, it synthesises a deterministic fallback itinerary instead.

Two smaller pieces come from elsewhere:

- The planner page fills its form from a spoken Chinese sentence, toggles preference tags, and checks the form before it sends a request.
- The expense routes summarise a plan's expenses into a total and per-category totals.

Files:

- `basics.dfy` holds the `Option` and `Result` wrappers.
- `text.dfy` models the JavaScript string built-ins the code relies on: `includes`, `trim`, `join`, integer-to-text and `parseInt` on digit runs. It also holds the first and last occurrence of a character, which locate the span the greedy regex `/\{[\s\S]*\}/` matches, and a one-character `split` used as the inverse of `join`.
- `calendar.dfy` holds proleptic Gregorian day numbers and the `YYYY-MM-DD` text that `toISOString().split('T')[0]` prints.
- `travel_types.dfy` holds the request and plan records and JSON values.
- `ai_service.dfy` models `AIService`: the duration, the prompt, the fallback plan, the reply normaliser and `generateTravelPlan`.
- `planner_page.dfy` models the planner page's form as a class `PlannerForm`.
- `expense_summary.dfy` models the summary fold.

How each part is modelled:

- **Regular expressions.** The three voice-input patterns are each modelled in two ways. The first is a scan for the leftmost position where the search succeeds, which is what `text.match` returns. The second is a declarative "the pattern fits here with this capture" predicate. Lemmas show that the fit is unique, so regex backtracking and laziness cannot change the capture.
- **State.** The form's React state becomes the fields of a class. One `parseVoiceInput` call queues several `setState` updates that React applies together. The model therefore computes the new values in locals and assigns them in one step.
- **The fallback loop.** The loop that builds the fallback itinerary stays a loop, proved against a function that describes the plan.
- **The expense summary.** The two `reduce` folds become two loops, proved against sum functions.

`generateTravelPlan` falls back only when the reply reaches `parseAIResponse`. Network failures and malformed reply envelopes are rethrown as `Failed to generate travel plan` (`backend/src/services/aiService.ts:57-60`). A reply that does reach `parseAIResponse` falls back in three cases: its content is not text (`undefined`, `null`, a number), so `content.match` throws inside that function's `try`; it has no `{...}` region; or the region is invalid JSON. `AiService.AIService.GenerateTravelPlan` states exactly when each path is taken.

## Model

| member | source | states |
|---|---|---|
| Text.NatToString | frontend/src/pages/PlannerPage.tsx:64 | the decimal text of a number is a non-empty digit run that reads back as the number and starts with `0` only when it is the single digit `0` of the number 0 |
| Text.NatToStringOfCanonical | frontend/src/pages/PlannerPage.tsx:64 | every digit run without a leading zero, other than `0` itself, is the decimal text of the number it denotes, so those clauses fix the text completely |
| Text.NatToStringInjective | backend/src/services/aiService.ts:170 | distinct numbers are written as distinct texts |
| Text.IntToString | backend/src/services/aiService.ts:70-71 | a rendered integer starts with `-` exactly when it is negative, the digits after the optional sign are a non-empty run that reads back as the integer's magnitude, and they start with `0` only when the text is the single digit `0` of the integer 0 |
| Text.IndexOf | backend/src/services/aiService.ts:132 | the first position of a character, or nothing exactly when it does not occur |
| Text.LastIndexOf | backend/src/services/aiService.ts:132 | the last position of a character, or nothing exactly when it does not occur |
| Text.ContainsChar | frontend/src/pages/PlannerPage.tsx:61-63 | `includes` of a one-character word is membership of that character |
| Text.Trim | frontend/src/pages/PlannerPage.tsx:55 | `trim` yields a slice of the text, everything cut from either end is JavaScript whitespace, and the slice neither starts nor ends with whitespace |
| Text.SplitOn | backend/src/services/aiService.ts:72 | one-character `split`, the inverse of this line's `join` that reads the prompt back: at least one piece, and no piece holds the separator |
| Text.JoinSplit | backend/src/services/aiService.ts:72 | joining the pieces of a split restores the text |
| Text.SplitJoin | backend/src/services/aiService.ts:72 | splitting a join of separator-free pieces gives the pieces back |
| Text.SplitAfterJoin | backend/src/services/aiService.ts:66-75 | a join of separator-free lines, a separator and more text split into those lines followed by the split of the text |
| Calendar.FromDayNumber | backend/src/services/aiService.ts:162-163 | every day number is the day number of a valid calendar date |
| Calendar.DayNumberInjective | backend/src/services/aiService.ts:123-125 | distinct valid dates have distinct day numbers |
| Calendar.FromDayNumberOfDate | backend/src/services/aiService.ts:162-163 | converting a date to its day number and back gives the date |
| Calendar.ParseFormatIsoDate | backend/src/services/aiService.ts:162-167 | a day before year 10000, written `YYYY-MM-DD`, reads back as the same day |
| Calendar.FormatParseIsoDate | backend/src/services/aiService.ts:162-167 | a valid `YYYY-MM-DD` text is exactly what writing its day number gives, and it lies before year 10000 |
| AiService.Ceil | backend/src/services/aiService.ts:126 | `Math.ceil` is the least integer not below its argument |
| AiService.InclusiveDays | backend/src/services/aiService.ts:122-127 | the rounded-up millisecond difference plus one is the absolute difference of the day numbers plus one |
| AiService.CalculateDuration | backend/src/services/aiService.ts:122-127 | the duration counts both end dates and does not depend on their order |
| AiService.DurationExamples | backend/src/services/aiService.ts:122-127 | 2024-01-01 to 2024-01-05 is 5 days in either order, and a same-day trip is 1 day |
| AiService.SpecialRequirementsLine | backend/src/services/aiService.ts:73 | the special-requirements line is empty unless a non-empty requirement was given, and then it is `特殊要求：` followed by it |
| AiService.RequestLinesSingle | backend/src/services/aiService.ts:66-74 | with single-line request fields, no request line of the prompt holds a line break |
| AiService.BuildPromptLines | backend/src/services/aiService.ts:63-120 | with single-line request fields, the prompt read back line by line is the nine request lines for the computed duration, the fourth of them stating both dates and that duration, followed by the lines of the fixed instructions |
| AiService.PromptLayout | backend/src/services/aiService.ts:63-120 | read back line by line, the prompt is the nine request lines followed by the lines of the fixed instructions |
| AiService.PreferencesRecoverable | backend/src/services/aiService.ts:72 | the preference line splits back on `、` into the request's preferences when there is at least one and none holds `、` |
| AiService.DailyBudget | backend/src/services/aiService.ts:158 | the daily share is the largest integer that, taken once per day, stays within the budget |
| AiService.ActivityIdInjective | backend/src/services/aiService.ts:170 | different days get different activity identifiers `act_<i>_1` |
| AiService.FallbackDay | backend/src/services/aiService.ts:165-235 | a fallback day spends its whole share on activity, stay and meals, or 60% of it on the last day, and its subway leg costs 20 |
| AiService.FallbackDaySplit | backend/src/services/aiService.ts:165-235 | a fallback day has one activity, with id `act_<i>_1`, at 30% of the share; a stay at 40% on every day but the last; a lunch and a dinner at 15% each; and a single subway leg costing 20 |
| AiService.CreateFallbackPlan | backend/src/services/aiService.ts:156-249 | the loop builds exactly the fallback plan, one day per turn |
| AiService.FallbackItinerary | backend/src/services/aiService.ts:160-197 | one entry per trip day: day `i + 1`, dated `i` days after the start, with a stay except on the last day, carrying the same daily share and activity id `act_<i>_1` |
| AiService.FallbackStartDate | backend/src/services/aiService.ts:161-167 | the first fallback day carries the request's start date text |
| AiService.FallbackEndDate | backend/src/services/aiService.ts:161-167 | when the start does not follow the end, the last fallback day carries the end date text |
| AiService.FallbackTitle | backend/src/services/aiService.ts:239 | the fallback title is the destination, a space, the trip's day count in decimal without leading zero, and `日游` |
| AiService.FallbackShares | backend/src/services/aiService.ts:158-247 | the shares fit the budget, the last day spends 60% of a share, and the estimated total is 90% of the budget |
| AiService.FallbackWithinBudget | backend/src/services/aiService.ts:158-234 | a fallback plan never spends more than a non-negative budget on activities, stays and meals |
| AiService.ExtractJsonRegion | backend/src/services/aiService.ts:132-133 | a region is found exactly when some `{` precedes some `}`, and it runs from the first `{` to the last `}` |
| AiService.ExtractIsGreedy | backend/src/services/aiService.ts:132 | the match spans from the first object to the last one, across the text between them |
| AiService.MergeMetadata | backend/src/services/aiService.ts:137-145 | the merged object has the model's members plus the six request members, with the request's values winning and every other member kept |
| AiService.MergeMetadataIdempotent | backend/src/services/aiService.ts:137-145 | stamping the request metadata twice is the same as once |
| AiService.ParseAIResponse | backend/src/services/aiService.ts:129-154 | the result always echoes the request; it is the fallback plan exactly when there is no `{...}` region or the region is not valid JSON, and otherwise the parsed object with the metadata stamped over it |
| AiService.ReplyContentShape | backend/src/services/aiService.ts:53 | reading `output.choices[0].message.content` succeeds only on an object with an `output` object holding `choices`; an empty `choices` or a first choice without `message` throws; otherwise it yields the content, or `undefined` when the message has none |
| AiService.WellFormedEnvelope | backend/src/services/aiService.ts:53 | a well-formed reply envelope yields its message text |
| AiService.MalformedEnvelopeThrows | backend/src/services/aiService.ts:53 | a reply without `output`, or with an empty `choices`, makes the envelope read throw |
| AiService.DashScopeCallFields | backend/src/services/aiService.ts:25-51 | the posted request has the fixed endpoint, `qwen-max`, the fixed system message and the `message` result format, the prompt as the user message, and the header `Bearer ` followed by exactly the key |
| AiService.DashScopeCallInjective | backend/src/services/aiService.ts:25-51 | different keys or prompts give different requests |
| AiService.AIService.constructor | backend/src/services/aiService.ts:16-18 | the service keeps the key it is given, unchecked |
| AiService.AIService.GenerateTravelPlan | backend/src/services/aiService.ts:20-61 | it fails with the one generic message exactly when the call fails or the envelope read throws; text content goes through the normaliser; non-text content falls back; every plan echoes the request |
| PlannerPage.Leftmost | frontend/src/pages/PlannerPage.tsx:54-68 | the search reports the least position where the pattern succeeds, and nothing exactly when it succeeds nowhere |
| PlannerPage.DigitRunIsMaximal | frontend/src/pages/PlannerPage.tsx:58-68 | a digit run ends no later than the maximal run, and exactly there when a non-digit or the end follows it |
| PlannerPage.DestinationFitIsUnique | frontend/src/pages/PlannerPage.tsx:54 | `去([^，,。、]+?)(?:[，,。、]\|$)` fits at a position exactly when a non-separator follows `去`, and then only with the group ending at the next separator or the end |
| PlannerPage.SeparatorRunIsMaximal | frontend/src/pages/PlannerPage.tsx:54 | a separator-free stretch ends no later than the next separator, and exactly there when a separator or the end follows it |
| PlannerPage.DestinationMatch | frontend/src/pages/PlannerPage.tsx:54 | the destination search succeeds at the first `去` followed by a non-separator |
| PlannerPage.DestinationGroupIsCapture | frontend/src/pages/PlannerPage.tsx:54-55 | a destination is captured exactly when the search succeeds, and it is the one capture the pattern fits with there |
| PlannerPage.SpokenDestination | frontend/src/pages/PlannerPage.tsx:54-55 | a destination is found exactly when some `去` is followed by a non-separator, and it is the trimmed group the pattern fits with at the first such `去` |
| PlannerPage.ExtractDestination | frontend/src/pages/PlannerPage.tsx:54-55 | the destination block yields the trimmed capture when the search succeeds and nothing otherwise |
| PlannerPage.BudgetFitIsUnique | frontend/src/pages/PlannerPage.tsx:58 | `预算[：:]?(\d+)[万千百]?[元块]` fits at a position exactly when the search succeeds there, and then only with the maximal digit run after the optional colon |
| PlannerPage.BudgetMatch | frontend/src/pages/PlannerPage.tsx:58 | the budget search succeeds at the first position where the budget phrase starts |
| PlannerPage.BudgetGroup | frontend/src/pages/PlannerPage.tsx:58-60 | the captured budget is a non-empty run of ASCII digits |
| PlannerPage.BudgetGroupIsCapture | frontend/src/pages/PlannerPage.tsx:58-60 | budget digits are captured exactly when the search succeeds, and they are the one capture the pattern fits with there |
| PlannerPage.MagnitudeIsLargestUnit | frontend/src/pages/PlannerPage.tsx:61-63 | the multiplier is 10000 exactly when `万` occurs, at least 1000 exactly when `万` or `千` occurs, at least 100 exactly when one of `万`, `千`, `百` occurs, and 1 otherwise |
| PlannerPage.MagnitudeFromWholeText | frontend/src/pages/PlannerPage.tsx:58-65 | the multiplier comes from anywhere in the text: `预算8元去千岛湖` sets the budget to `8000` |
| PlannerPage.BudgetOfCapture | frontend/src/pages/PlannerPage.tsx:58-65 | when digits are captured, the budget phrase occurs, and the captured amount equals that of the digits the pattern fits with at the first phrase |
| PlannerPage.SpokenBudget | frontend/src/pages/PlannerPage.tsx:58-65 | a budget is found exactly when the budget phrase occurs, and it is the decimal text, without leading zeros, of the digits the pattern fits with at the first phrase times the magnitude the text names |
| PlannerPage.ExtractBudget | frontend/src/pages/PlannerPage.tsx:58-65 | the budget block yields exactly the spoken budget: the decimal text, without leading zeros, of the captured digits times the magnitude the text names, and nothing when the phrase is absent |
| PlannerPage.TravelersFitIsUnique | frontend/src/pages/PlannerPage.tsx:68 | `(\d+)[人个]` fits at a position exactly when the digit run from there ends at `人` or `个`, and then only with that whole run |
| PlannerPage.TravelersMatch | frontend/src/pages/PlannerPage.tsx:68 | the travelers search succeeds at the first digit followed, through its run, by `人` or `个` |
| PlannerPage.TravelersGroupIsCapture | frontend/src/pages/PlannerPage.tsx:68-69 | the captured traveler count is a whole digit run, not the tail of a longer one, followed by `人` or `个` |
| PlannerPage.TravelersAtRunStart | frontend/src/pages/PlannerPage.tsx:68 | a match inside a digit run also holds one position earlier |
| PlannerPage.TagsMentionedMembers | frontend/src/pages/PlannerPage.tsx:72-78 | a tag is collected exactly when one of its trigger words occurs in the transcript |
| PlannerPage.TagsMentionedOrder | frontend/src/pages/PlannerPage.tsx:72-78 | the collected tags keep the table's order |
| PlannerPage.TagsMentionedDistinct | frontend/src/pages/PlannerPage.tsx:72-78 | a table with distinct tags yields no tag twice |
| PlannerPage.ExtractedPreferencesShape | frontend/src/pages/PlannerPage.tsx:72-78 | the extracted tags are a duplicate-free subsequence of 美食, 历史文化, 自然风光, 购物, 动漫, 亲子, each present exactly when a trigger word occurs |
| PlannerPage.CollectPreferences | frontend/src/pages/PlannerPage.tsx:72-78 | the six tests collect the tags of the trigger table |
| PlannerPage.Without | frontend/src/pages/PlannerPage.tsx:121 | `filter` removes every copy of the value, keeps every other value's count, and keeps their order |
| PlannerPage.WithoutAbsent | frontend/src/pages/PlannerPage.tsx:121 | filtering out an absent value changes nothing |
| PlannerPage.Toggled | frontend/src/pages/PlannerPage.tsx:119-123 | after a toggle the tag is selected exactly when it was not; an unselected tag is appended at the end; removing a selected tag keeps the others in their order; no other tag's count changes |
| PlannerPage.ToggleTwiceRestores | frontend/src/pages/PlannerPage.tsx:119-123 | toggling an unselected tag twice restores the list |
| PlannerPage.ToggleTwiceMovesToEnd | frontend/src/pages/PlannerPage.tsx:119-123 | toggling a selected tag twice moves it, as one copy, to the end |
| PlannerPage.CheckSubmission | frontend/src/pages/PlannerPage.tsx:86-104 | a missing key is reported before missing fields; a request is built exactly when the key and the four required fields are non-empty, and it carries the fields with the transcript as special requirements |
| PlannerPage.VoiceInputFields | frontend/src/pages/PlannerPage.tsx:54-78 | each field takes what its pattern finds in the transcript and otherwise keeps its value; preferences change only when some tag was found |
| PlannerPage.PlannerForm.constructor | frontend/src/pages/PlannerPage.tsx:10-18 | the form starts empty, with one traveler |
| PlannerPage.PlannerForm.ParseVoiceInput | frontend/src/pages/PlannerPage.tsx:49-80 | the transcript is kept; each field the text yields is replaced and the others are kept; preferences are replaced only when some tag was found; dates and error are untouched |
| PlannerPage.PlannerForm.TogglePreference | frontend/src/pages/PlannerPage.tsx:119-123 | the preferences become the toggled list and nothing else changes |
| PlannerPage.PlannerForm.HandleSubmit | frontend/src/pages/PlannerPage.tsx:84-104 | the error is cleared, then set to the first failed check's message with no request, or stays empty and the request is built |
| ExpenseSummary.Summarize | backend/src/routes/expenseRoutes.ts:68-73 | the total is the sum of all amounts; the map's keys are exactly the categories that occur, each mapped to the sum of its amounts; no rows, and missing query data in particular, give 0 and an empty map |
| ExpenseSummary.CategoryTotalStep | backend/src/routes/expenseRoutes.ts:70-73 | one more expense adds its amount to its own category only, and a new category starts from 0 |
| ExpenseSummary.AbsentCategoryTotal | backend/src/routes/expenseRoutes.ts:71 | a category that does not occur totals 0 |
| ExpenseSummary.SumAppend | backend/src/routes/expenseRoutes.ts:69 | the sum over two lists put together is the sum of their sums |
| ExpenseSummary.SumRemove | backend/src/routes/expenseRoutes.ts:69-73 | taking one expense out removes exactly its contribution |
| ExpenseSummary.SumPermutation | backend/src/routes/expenseRoutes.ts:69-73 | sums do not depend on the order of the expenses |
| ExpenseSummary.SummaryIgnoresOrder | backend/src/routes/expenseRoutes.ts:60-73 | reordering the rows changes neither the total nor the categories nor any category total |
| ExpenseSummary.CategoryTotalsAddUpToTotal | backend/src/routes/expenseRoutes.ts:69-73 | the category totals of any listing of the categories, each once, add up to the total |

## Left out

- The HTTP call to the language model is the parameter `remote` of `GenerateTravelPlan`. The model does not cover transport, timeouts, headers beyond the bearer token, or `console.error` logging.
- `JSON.parse` is the parameter `parseJson`, which yields an object or nothing. A reply region that parses to a non-object JSON value counts as nothing.
- Floating point is not modelled. Costs, shares and sums are exact reals, and budget and travelers are integers. The fallback's `0.3`, `0.4`, `0.15` and `0.9` products and the expense sums are therefore exact, not IEEE-rounded.
- AiService.CalculateDuration: requires both dates to be valid `YYYY-MM-DD` texts. Other texts are not modelled. JavaScript's `Date` reads many of them anyway: V8 reads `2024/01/05` as local midnight and rolls `2024-02-30` over to 1 March. Others give `NaN`. `BuildPrompt`, `Fallback`, `CreateFallbackPlan`, `ParseAIResponse` and `AiService.AIService.GenerateTravelPlan` inherit this requirement.
- AiService.AIService.GenerateTravelPlan: the request always carries a preference list. The route's schema lets `preferences` be absent; then `buildPrompt`'s `join` (`backend/src/services/aiService.ts:72`) throws a `TypeError` before the `try` of line 23. The call then rejects with that `TypeError`, not with `Failed to generate travel plan`, and the contract's claim that every failure is the generic error does not cover that case.
- Text is a sequence of Unicode code points, while JavaScript strings are sequences of UTF-16 code units. The two agree here because every pattern and literal the model uses lies in the Basic Multilingual Plane; lengths and positions in text with characters outside it (emoji, rare CJK) differ.
- Time zones are not modelled. `new Date("YYYY-MM-DD")` is UTC midnight, but `setDate` works in the server's local time, so the fallback dates are those of a server running in UTC. Elsewhere a daylight-saving change could shift a date by one.
- Dates past year 275760 are not modelled: there `toISOString` throws. Years above 9999 are written in JavaScript's `+YYYYYY` form.
- Text forms of non-integer budgets are not modelled, nor are numbers of 10^21 and above, which JavaScript writes in exponent form. `parseInt` beyond 2^53, where it loses precision, is not modelled either.
- The planner page's voice capture (`handleVoiceInput`, the speech service and its error callback) is browser I/O and is not modelled.
- The asynchronous tail of `handleSubmit` is not modelled: the loading flag, `planService.generatePlan`/`savePlan`, navigation, and the `生成行程失败,请重试` error. PlannerPage.PlannerForm.HandleSubmit stops where the request is built.
- PlannerPage.FormRequest: budget and travelers keep the field texts. Their conversion by `parseFloat` and `parseInt` is not modelled.
- React's state updates are modelled as one assignment per handler. The model does not cover re-rendering or the interleaving of updates from other handlers.
- The Supabase query behind the expense summary, its error path and the HTTP response are not modelled. The rows are the parameter `data`.
- ExpenseSummary.Summarize: does not model category names that clash with `Object.prototype` members such as `constructor` or `__proto__`. For those, `acc[category] || 0` would read an inherited member of the plain `{}` accumulator.
