# Mental fitness assessment: verified model

This project models the logic of a small web application for mental fitness self-assessment. The model has five parts.

- **Questionnaire** (`Assessment`, `Catalog`). The questionnaire has eight questions with four tagged options each. A `Questionnaire` object holds the current question index and the answers given so far. Previous, Next and option selection change it. The Next button is enabled only when the current question has an answer. On the last question, Next sends the browser to the results page with one `q<k>=<tag>` query parameter per answer.
- **Results page** (`Results`). It reads `q0` .. `q7` back into an answer map keyed `question_<i>`, skipping missing and empty values. With no answers it redirects to the questionnaire; otherwise it asks the gateway for an analysis. It picks the level badge from the level. A score-colour function is also defined there, though nothing calls it: the score is always shown in white.
- **Heuristic analysis** (`Scoring`).
  - The score starts at a base of 70 and each slot adjusts it by a fixed table. The result is clamped to [0, 100].
  - The score maps to one of four tiers at 85 / 70 / 50, and to a summary sentence chosen with the same thresholds.
  - Four narrative lists are filled by per-slot rules: strengths, areas for improvement, risk factors and recommendations. Every area and every risk comes with exactly one recommendation. Two default recommendations are used only when no rule pushed any.
  - `MockAnalysis` is a table-driven reference definition. `MockAnalyze` is the step-by-step computation of the source, with its if/else chains and pushes, proved equal to it.
- **Analysis gateway** (`Gateway`).
  - Without a stored key it uses the heuristic analysis and sends no request.
  - With a key it sends a request. It takes the span from the first `{` to the last `}` of the generated text and returns that span as parsed. Every failure on the way falls back to the heuristic.
  - The network exchange is an `Outcome` value; `JSON.parse` is a function parameter `string -> Option<J>`.
- **Key settings dialog** (`ApiKeySettings`). A `Settings` object holds the single storage slot the gateway reads, the text in the key field, the connected flag and the open flag. Saving refuses keys shorter than ten characters. Removing clears the slot. On mount the key-field state holds a stored key masked, as its first 8 and last 4 characters around `...`. While a key is connected the disabled field renders empty (src/components/ApiKeySettings.tsx:96), so the mask is never displayed.

Two behaviours are worth stating plainly:

- **Empty answer map.** The empty map does not get the default recommendations. The `else` branches at src/lib/gemini.ts:69-72 and 77-80 push a sleep and an exercise area and their advice (`Scoring.EmptyAnswers`).
- **JSON span.** The span is not a balanced match. The greedy `\{[\s\S]*\}` runs from the first `{` to the last `}` (`Gateway.SpanIsGreedy`).

## Model

| member | source | states |
|---|---|---|
| Keys.QuestionKeyInjective | src/pages/Results.tsx:36 | the map keys `question_<i>` of two slots are equal exactly when the slots are |
| Keys.ParamNameInjective | src/pages/Assessment.tsx:107 | the parameter names `q<i>` of two slots are equal exactly when the slots are |
| Keys.QuestionKey | src/pages/Results.tsx:36 | `question_<i>` is ten characters and ends in the digit of i |
| Keys.ParamName | src/pages/Assessment.tsx:107 | `q<i>` is two characters and ends in the digit of i |
| Keys.Lookup | src/pages/Results.tsx:34 | `get` finds nothing exactly when no pair has the name; otherwise it finds the value of the first pair with that name |
| Keys.LookupAppend | src/pages/Assessment.tsx:105-108 | appending pairs never changes what `get` finds among the earlier pairs; otherwise it finds what it finds in the appended part |
| Catalog.Tags | src/pages/Assessment.tsx:15-96 | a question offers exactly four distinct tags, the values of its four options |
| Catalog.CatalogShape | src/pages/Assessment.tsx:15-96 | there are eight questions, each question's id is its index, and each offers four options with distinct tags |
| Scoring.Clamp | src/lib/gemini.ts:51 | the result lies in [0, 100]; it is the input when the input is inside, 0 below, 100 above |
| Scoring.SummaryOf | src/lib/gemini.ts:120-126 | the excellent sentence iff score >= 85, the good one iff 70 <= score < 85, the fair one iff 50 <= score < 70, the support one iff score < 50 |
| Scoring.TierOf | src/lib/gemini.ts:54-58 | Excellent iff score >= 85, Good iff 70 <= score < 85, Fair iff 50 <= score < 70, Needs Attention iff score < 50 |
| Scoring.Findings | src/lib/gemini.ts:66-112 | exactly one finding per narrative slot, six in all |
| Scoring.DeltaIsRow | src/lib/gemini.ts:16-48 | the per-slot delta table agrees with the source's comparison chain for every slot and every answer, absent ones included |
| Scoring.ComputeRawScore | src/lib/gemini.ts:14-48 | the running score after the eight if/else chains is 70 plus the table delta of every slot |
| Scoring.SleepAnalysis | src/lib/gemini.ts:66-72 | the sleep rule appends exactly the entries of the sleep finding to the four lists |
| Scoring.ExerciseAnalysis | src/lib/gemini.ts:74-80 | the exercise rule appends exactly the entries of the exercise finding |
| Scoring.StressAnalysis | src/lib/gemini.ts:82-88 | the stress rule appends exactly the entries of the stress finding |
| Scoring.SocialAnalysis | src/lib/gemini.ts:90-96 | the social rule appends exactly the entries of the social finding |
| Scoring.AnxietyAnalysis | src/lib/gemini.ts:98-104 | the anxiety rule appends exactly the entries of the anxiety finding |
| Scoring.MoodAnalysis | src/lib/gemini.ts:106-112 | the mood rule appends exactly the entries of the mood finding |
| Scoring.ComputeLists | src/lib/gemini.ts:60-112 | the four lists after all pushes are the concatenated entries of the six findings, in slot order 0, 1, 2, 3, 4, 7 |
| Scoring.MockAnalysis | src/lib/gemini.ts:12-137 | the reference definition: the clamped raw score, its tier and summary, and the four lists of the six findings, with the defaults when no advice was pushed; its properties are the lemmas below |
| Scoring.MockAnalyze | src/lib/gemini.ts:12-137 | the imperative analysis equals the reference definition `MockAnalysis` for every answer map |
| Scoring.ScoreBounded | src/lib/gemini.ts:14-51 | the raw score lies in [-35, 140]; the reported score is its clamp and lies in [0, 100] |
| Scoring.UnlistedTagIsNeutral | src/lib/gemini.ts:16-48 | an answer that no comparison of its slot matches changes the raw score no more than a missing answer |
| Scoring.OnlyQuestionKeysMatter | src/lib/gemini.ts:12-137 | maps that agree on `question_0` .. `question_7` get the same analysis; other keys are ignored |
| Scoring.SummaryMatchesTier | src/lib/gemini.ts:120-126 | the summary chosen by its own comparisons is always the sentence of the tier of the same score |
| Scoring.TierAndSummaryAgree | src/lib/gemini.ts:54-126 | a result's summary is its tier's sentence, and two results share a tier exactly when they share a summary |
| Scoring.AdviceCount | src/lib/gemini.ts:66-112 | the rules push exactly as many recommendations as areas and risks together |
| Scoring.RecommendationsPaired | src/lib/gemini.ts:66-118 | with any area or risk, one recommendation each; with none, exactly the two defaults; never empty |
| Scoring.NarrativeIgnoresSlots5And6 | src/lib/gemini.ts:38-113 | answers that agree on slots 0-4 and 7 give the same four lists, whatever slots 5 and 6 hold |
| Scoring.EmptyAnswers | src/lib/gemini.ts:14-126 | the empty map scores 70, is Good, and has the sleep and exercise areas and advice (not the defaults), no strengths and no risks |
| Scoring.BestAnswers | src/lib/gemini.ts:14-126 | the best answer to every narrative slot scores 130 before clamping, reports 100 and Excellent, six strengths in slot order, and the two defaults |
| Scoring.AlarmingAnswers | src/lib/gemini.ts:14-126 | the four alarming answers score 0: Needs Attention, two areas, four risks, and six recommendations in push order |
| Scoring.ScoredTagsOffered | src/lib/gemini.ts:16-48 | every tag the score rules compare against is an option the catalog offers for that slot |
| Scoring.NarrativeTagsScored | src/lib/gemini.ts:66-112 | a tag that changes a slot's narrative entry always has a non-zero score delta in that slot |
| Gateway.HasKey | src/lib/gemini.ts:143 | definition: a key is present exactly when the slot holds a non-empty string, as `!apiKey` is false |
| Gateway.ExtractSpan | src/lib/gemini.ts:193-196 | a span exists iff some `{` precedes some `}`; it runs from the first `{` to the last `}` inclusive |
| Gateway.Analyze | src/lib/gemini.ts:139-206 | a request is sent iff a non-empty key is stored; the remote value is returned iff the text was generated, has a span and the span parses, and it is then the parse result unchanged; otherwise the result is the heuristic analysis |
| Gateway.NoKeyMeansHeuristic | src/lib/gemini.ts:141-147 | a missing or empty key gives exactly the heuristic analysis and no request |
| Gateway.FailuresFallBack | src/lib/gemini.ts:185-205 | a transport failure, a failed status, a text without a span, or a parse failure gives the heuristic analysis |
| Gateway.SpanIsGreedy | src/lib/gemini.ts:193 | the span of `x{a}y{b}z` is `{a}y{b}`, and `}{` has none |
| Assessment.Serialized | src/pages/Assessment.tsx:105-108 | definition: one `q<k>` pair per answered question below n, in ascending order; at most n pairs |
| Assessment.SerializedLookup | src/pages/Assessment.tsx:105-108 | in the submitted query, `q<i>` finds the answer to question i when there is one, and nothing otherwise |
| Assessment.SerializedEntries | src/pages/Assessment.tsx:105-108 | every pair of the submitted query is `q<k>` with the answer to an answered question k |
| Assessment.SerializedNamesDistinct | src/pages/Assessment.tsx:105-108 | no parameter name occurs twice in the query, so each answered question gives exactly one pair |
| Assessment.Questionnaire.constructor | src/pages/Assessment.tsx:12-13 | the questionnaire starts on question 0 with no answers |
| Assessment.Questionnaire.IsLastQuestion | src/pages/Assessment.tsx:99 | definition: the index is the last of the eight questions |
| Assessment.Questionnaire.CanProceed | src/pages/Assessment.tsx:100 | definition: the current question has an answer; `Next` requires it, as the button is disabled otherwise |
| Assessment.Questionnaire.AnswerChange | src/pages/Assessment.tsx:121-126 | records the value for the current question, keeps every other answer and the index, and enables Next |
| Assessment.Questionnaire.Previous | src/pages/Assessment.tsx:115-119 | steps back one question except on the first, where it stays; answers are unchanged |
| Assessment.Questionnaire.Next | src/pages/Assessment.tsx:102-113 | when enabled: on the last question all eight are answered and the results query carries them; otherwise the index grows by exactly one; the invariant (index on the catalog, every earlier question answered) is kept |
| Assessment.Questionnaire.SearchParams | src/pages/Assessment.tsx:105-108 | the `forEach`/`append` loop yields the query in which `q<i>` finds exactly the answer to question i, and no name occurs twice |
| Results.Extracted | src/pages/Results.tsx:32-38 | definition: slots 0 .. n-1 in order, each non-empty `q<i>` stored under `question_<i>` |
| Results.ExtractedSpec | src/pages/Results.tsx:32-38 | the map has `question_i` iff `q<i>` is present and non-empty, with that value, and no other keys |
| Results.OtherParamsIgnored | src/pages/Results.tsx:33-37 | queries that agree on `q0` .. `q7` give the same answer map |
| Results.ExtractAnswers | src/pages/Results.tsx:32-38 | the loop's map has `question_i` exactly when `q<i>` is present and non-empty, holds its value, and has no other keys |
| Results.AnalyzeResponses | src/pages/Results.tsx:30-46 | the page redirects to the questionnaire iff no answer was extracted, and then sends no request; otherwise it shows the gateway's analysis of the extracted map, and a request is sent iff a key is stored |
| Results.RoundTrip | src/pages/Results.tsx:33-37 | the non-empty answers the questionnaire submits come back under `question_<k>` with the same values and nothing else |
| Results.ScoreColorOf | src/pages/Results.tsx:58-62 | success iff score >= 80, warning iff 60 <= score < 80, destructive iff score < 60 (the source defines this function but never calls it) |
| Results.LevelBadgeVariant | src/pages/Results.tsx:64-72 | default iff the level is `Excellent`, secondary iff `Good`, destructive iff `Needs Attention`, and outline for `Fair` and every other string |
| Results.BadgeOfTiers | src/pages/Results.tsx:64-72 | the four tier names get default, secondary, outline and destructive; any other string gets outline |
| Results.ColorIsNotTier | src/pages/Results.tsx:58-62 | the colour thresholds differ from the tier thresholds: a Good 80 is coloured success, a Fair 50 destructive |
| ApiKeySettings.Mask | src/components/ApiKeySettings.tsx:20 | the mask is the key's first up-to-8 characters, `...`, and its last up-to-4 characters |
| ApiKeySettings.MaskOfSavedKey | src/components/ApiKeySettings.tsx:20 | the mask of any key long enough to be saved is 15 characters: its first 8, `...`, its last 4 |
| ApiKeySettings.Settings.Load | src/components/ApiKeySettings.tsx:16-22 | on mount the connected flag holds iff the stored key is non-empty, and the key-field state holds that key masked (the disabled field renders empty while connected, so the mask is not displayed) |
| ApiKeySettings.Settings.SetOpen | src/components/ApiKeySettings.tsx:55 | opening or closing changes only the open flag and keeps the connected flag matching the slot |
| ApiKeySettings.Settings.Edit | src/components/ApiKeySettings.tsx:97 | typing changes only the field text and keeps the connected flag matching the slot |
| ApiKeySettings.Settings.SaveApiKey | src/components/ApiKeySettings.tsx:24-41 | a key that is empty or shorter than 10 characters changes nothing; any other is stored verbatim, flags the dialog connected and closes it; the flag keeps matching the slot |
| ApiKeySettings.Settings.RemoveApiKey | src/components/ApiKeySettings.tsx:43-52 | clears the slot and the field, disconnects and closes; the gateway then has no key, so `Gateway.NoKeyMeansHeuristic` applies |

## Left out

- The request to the remote service is not modelled: its URL, its body, `fetch`, `response.json()` and the `candidates[0]` access. Their effect on the gateway is the `Outcome` value, and any exception among them is `Failed`.
- `JSON.parse` is a function parameter of the gateway. The model does not say what it accepts, and it does not validate or clamp the remote result, as the source does not.
- The prompt text sent to the service is not modelled. It is free text without effect on the decision.
- Browser storage is the `storage` field of `Settings` and a parameter of `Gateway.Analyze`. That the two are the same slot is stated in prose only, because the two components share no code path.
- Console logging, toasts, JSX rendering, CSS classes, icons and the dialog's rendering are not modelled. The open flag is the only modelled dialog state.
- Router navigation is a returned value (`Navigation`, `Screen`) rather than an effect.
- The progress percentage and its `Math.round` (src/pages/Assessment.tsx:98, 152) are floating point and are left out.
- The async/await suspension is left out. The results effect and the gateway run to completion in order, with the outcome of the request given up front.
- The `catch` of the results effect (src/pages/Results.tsx:47-49) is left out. In the source it is reachable only through the storage read at src/lib/gemini.ts:141, which comes before the gateway's `try` and can throw in a browser that refuses storage. The model takes the stored key as a value, so that failure does not arise in it. The request, the parsing and the heuristic analysis cannot reach that `catch`.
- The loading and error screens of the results page are left out.
- URL encoding and decoding of query values is treated as the identity.
- ApiKeySettings.Mask: JavaScript's `slice` and `.length` (src/components/ApiKeySettings.tsx:20, 25) count UTF-16 code units. `Mask` and `MinKeyLength` count Dafny characters, so a key with characters outside the Basic Multilingual Plane is measured and cut differently.
- src/pages/Index.tsx is not part of this model. It is page layout with a hover flag.
- Keys.QuestionKey: slot numbers are limited to single digits, which covers the eight questions.
- Keys.ParamName: slot numbers are limited to single digits, which covers the eight questions.
- Gateway.Analyze: the remote value is of an arbitrary type `J`. Its fields, such as a score outside [0, 100] or an unknown level string, are not modelled. `Results.LevelBadgeVariant` does handle any level string.
- Assessment.Questionnaire.Next: requires `CanProceed()`, because its only caller is the Next button, which is disabled otherwise (src/pages/Assessment.tsx:198).
- Results.RoundTrip: requires non-empty answers. The option tags are all non-empty, and the results page drops empty values.
