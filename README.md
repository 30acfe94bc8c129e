# ReviewPulse review analyzer — a Dafny model of its deterministic core

ReviewPulse is a browser dashboard. It collects free-form customer review text
and sends it, cut to 30,000 characters, to a language model that classifies
each review as POSITIVE, NEGATIVE or NEUTRAL and summarises it. It then shows
the structured reply: counts, percentages, a distribution chart, the top
complaints and praises, and a filterable review list.

This project models the deterministic logic around that model call:

- `wrappers.dfy` (`Wrappers`): `Option` and `Result`, the stand-ins for `null`/`undefined` and for thrown errors.
- `js_text.dfy` (`JsText`): the JavaScript string operations the code relies on. `trim` serves as the blank-input test and `toLowerCase` turns a sentiment tag into a counter name.
- `types.dfy` (`Types`): the closed `Sentiment` enumeration, the `ReviewAnalysis` and `AnalysisResult` records, and the per-sentiment count `CountOf`. It also defines the invariant `Consistent`: each counter equals its number of reviews, and positive + negative + neutral = `totalReviews` = the number of reviews.
- `analysis_client.dfy` (`AnalysisClient`): the prompt truncation and the validating decode of the model's reply. The reply is an abstract input: transport error, or reply text plus what `JSON.parse` made of it. The decode fills in the defaults and tallies sentiments locally with a left fold (the `reduce` and its accumulator). Every failure collapses to the one fixed message.
- `app.dfy` (`App`): the application shell. `App.Shell` is a class with the three state fields `isAnalyzing`, `result` and `error`. The in-flight call is split into a start (`Analyze`) and a completion event (`Resolve` / `Reject`, or `Complete` for a model reply). An object invariant rules out analysing while a result is held, and an error while a result is held. From it, exactly one of the input, loading and dashboard screens is shown.
- `input_section.dfy` (`InputSection`): the draft text as a class (`DraftInput`) changed by the edit, load-sample, clear and file-loaded handlers. It also holds the sample text, the submit, clear and error-box gates, and what a click on the submit button hands on.
- `review_list.dfy` (`ReviewList`): the sentiment filter, the filtered list and its display gates. It also holds the filter state as a class (`ReviewListView`).
- `dashboard.dfy` (`Dashboard`): the percentages, the KPI cards, the plural of "review", the 1-based ranks and the list placeholders.
- `charts.dfy` (`Charts`): the chart's slice triple and its zero filter.

## Model

| member | source | states |
|---|---|---|
| `JsText.TrimStart` | components/InputSection.tsx:109 | the result is a suffix of the input; every dropped character is whitespace; the result is empty or starts with a non-whitespace character |
| `JsText.TrimEnd` | components/InputSection.tsx:109 | the result is a prefix of the input; every dropped character is whitespace; the result is empty or ends with a non-whitespace character |
| `JsText.TrimEmptyIffBlank` | App.tsx:15 | `text.trim()` is empty exactly when every character of the text is whitespace |
| `JsText.LowerChar` | services/geminiService.ts:83 | an ASCII capital becomes its own lower-case letter (same offset from 'a' as from 'A'); any other character is unchanged |
| `JsText.ToLower` | services/geminiService.ts:83 | lower-casing keeps the length and lower-cases each character in place |
| `Types.Sentiment.Tag` | types.ts:1-5 | each sentiment's string value is one of "POSITIVE", "NEGATIVE", "NEUTRAL" |
| `Types.Sentiment.CountKey` | types.ts:16-19 | each sentiment names one of the counter fields "positive", "negative", "neutral" |
| `Types.ParseTag` | services/geminiService.ts:77-83 | a string reads as a sentiment exactly when it is that sentiment's tag; otherwise it matches no sentiment |
| `Types.TagRoundTrip` | types.ts:1-5 | every tag reads back as its own sentiment, and distinct sentiments have distinct tags |
| `Types.LowerTagIsCountKey` | types.ts:1-19 | lower-casing a sentiment's tag gives that sentiment's counter name, and counter names are one-to-one with sentiments |
| `Types.CountsPartition` | services/geminiService.ts:82-89 | the positive, negative and neutral counts of any review list add up to its length |
| `AnalysisClient.PromptText` | services/geminiService.ts:22 | the embedded text is a prefix of the input of length at most 30000; it is the whole input when that is short enough, else exactly 30000 characters |
| `AnalysisClient.NormalizeReview` | services/geminiService.ts:75-80 | text, summary and sentiment are copied; an absent keyword list becomes `[]` and a present one is kept as it is |
| `AnalysisClient.NormalizeReviews` | services/geminiService.ts:75-80 | the processed list has the same length and order as the reply's list, each element normalised |
| `AnalysisClient.IncrementBySentiment` | services/geminiService.ts:84 | bumping by a sentiment's counter name raises that counter by one and leaves the other two unchanged |
| `AnalysisClient.TallyFromCounts` | services/geminiService.ts:82-86 | the fold adds to each counter of the accumulator the number of reviews with that sentiment |
| `AnalysisClient.Tally` | services/geminiService.ts:82-86 | from zero, each counter equals the number of reviews with that sentiment, and the counters sum to the list length |
| `AnalysisClient.Decode` | services/geminiService.ts:67-98 | it succeeds exactly on a non-empty, parsed reply with a review list of valid sentiments. Every failure carries exactly "Failed to analyze reviews. Please try again.". A success is `Consistent`, its reviews are the normalised reply reviews in order, and absent complaint or praise lists become `[]` while present ones pass through |
| `App.ErrorMessage` | App.tsx:30 | a thrown `Error` yields its own message; anything else yields the fixed fallback message |
| `App.ExactlyOneScreen` | App.tsx:46-71 | exactly one screen is rendered iff it is not the case that an analysis runs while a result is held; then the screen is loading, dashboard or input, in that priority |
| `App.Shell.VisibleScreens` | App.tsx:46-71 | in every state satisfying the shell invariant exactly one screen is rendered |
| `App.Shell.constructor` | App.tsx:10-12 | the shell starts not analysing, with no result and no error, and satisfies its invariant |
| `App.Shell.Analyze` | App.tsx:14-22 | the call starts iff the text is not blank. Blank text sets the validation message and leaves `isAnalyzing` and `result` unchanged. Otherwise the shell is analysing with no error and no result. The invariant is kept |
| `App.Shell.Resolve` | App.tsx:24-33 | after success the result is held, the error is cleared and analysing stops; the invariant is kept |
| `App.Shell.Reject` | App.tsx:28-33 | after failure there is no result, the error is the thrown message (or the fallback) and analysing stops; the invariant is kept |
| `App.Shell.Complete` | App.tsx:24-33 | a decodable reply ends with its decoded result and no error; any other reply ends with no result and the client's fixed failure message; analysing stops |
| `App.Shell.Reset` | App.tsx:36-39 | result and error are cleared and `isAnalyzing` is unchanged; the invariant is kept |
| `InputSection.SplitJoinRoundTrip` | components/InputSection.tsx:9-16 | splitting newline-joined lines that contain no newline gives back the same lines |
| `InputSection.SampleData` | components/InputSection.tsx:9-16 | the sample text splits into exactly the eight sample reviews and is not blank after trimming |
| `InputSection.SubmitEnabled` | components/InputSection.tsx:109 | the submit button is enabled exactly when the draft has a non-whitespace character |
| `InputSection.ClearShown` | components/InputSection.tsx:89 | the clear button is shown exactly when the draft is non-empty |
| `InputSection.ErrorShown` | components/InputSection.tsx:100 | the error box is shown exactly when an error is present and non-empty |
| `InputSection.DraftInput.constructor` | components/InputSection.tsx:19 | the draft starts empty |
| `InputSection.DraftInput.Edit` | components/InputSection.tsx:22-24 | the draft becomes the edited value |
| `InputSection.DraftInput.LoadSample` | components/InputSection.tsx:39-41 | the draft becomes the sample text, and submitting it is enabled |
| `InputSection.DraftInput.Clear` | components/InputSection.tsx:43-48 | the draft becomes empty; submit is disabled and the clear button hidden |
| `InputSection.DraftInput.FileLoaded` | components/InputSection.tsx:31-35 | a present, non-empty read result replaces the draft; otherwise the draft is unchanged |
| `InputSection.DraftInput.Submit` | components/InputSection.tsx:107-109 | something is handed on iff submit is enabled, and what is handed on is the draft verbatim, untrimmed |
| `ReviewList.Filtered` | components/ReviewList.tsx:12-14 | the filtered list is no longer than the input and holds exactly the input reviews that match the filter |
| `ReviewList.FilteredAppend` | components/ReviewList.tsx:12-14 | filtering distributes over concatenation, so kept reviews keep their relative order |
| `ReviewList.FilteredSingle` | components/ReviewList.tsx:12-14 | a single review is kept exactly when it matches |
| `ReviewList.FilterAllIsIdentity` | components/ReviewList.tsx:12-14 | the All filter returns the input list unchanged |
| `ReviewList.FilteredCount` | components/ReviewList.tsx:12-14 | a sentiment filter keeps as many reviews as there are reviews of that sentiment |
| `ReviewList.FilteredPartition` | components/ReviewList.tsx:12-14 | the lengths under the three sentiment filters add up to the length of the list |
| `ReviewList.FilterIdempotent` | components/ReviewList.tsx:12-14 | applying a filter to its own output changes nothing |
| `ReviewList.PlaceholderShown` | components/ReviewList.tsx:84-88 | the "no reviews found" placeholder is shown exactly when no review matches the filter |
| `ReviewList.KeywordChipsShown` | components/ReviewList.tsx:105 | keyword chips are shown exactly when the review has a keyword |
| `ReviewList.ReviewListView.constructor` | components/ReviewList.tsx:10 | the filter starts at All and the whole list is shown |
| `ReviewList.ReviewListView.AllCount` | components/ReviewList.tsx:48 | the All button's count is the unfiltered total and bounds the shown rows |
| `ReviewList.ReviewListView.SetFilter` | components/ReviewList.tsx:40-79 | the filter becomes the chosen one and the shown rows are the reviews it lets through |
| `Dashboard.Percent` | components/Dashboard.tsx:14-16 | it is 0 for a zero total. Otherwise it is the integer nearest to 100·count/total, halves rounded up. It lies in 0..100 when count ≤ total |
| `Dashboard.KpiCards` | components/Dashboard.tsx:36-69 | three cards titled Positive, Negative and Neutral with their counts. The positive and negative cards carry `Percent` of their count over `totalReviews`. The neutral card shows the fixed caption "Balanced views" |
| `Dashboard.KpiCardsOfConsistent` | components/Dashboard.tsx:14-66 | for a consistent result both percentages are at most 100 and the three card counts add up to the total |
| `Dashboard.ReviewNoun` | components/Dashboard.tsx:31 | the noun is "reviews" exactly when the total is not 1, and "review" exactly when it is 1 |
| `Dashboard.Ranked` | components/Dashboard.tsx:83-90 | every item is listed, in order, the item at position i with rank i + 1 |
| `Dashboard.PlaceholderShown` | components/Dashboard.tsx:81-115 | the complaints (praises) placeholder is shown exactly when there is nothing to rank |
| `Charts.Data` | components/Charts.tsx:13-17 | three slices in order positive, negative, neutral, each with its fixed name and colour and valued by its count |
| `Charts.NonZero` | components/Charts.tsx:20 | every kept slice comes from the input and has a positive value, and every positive-valued input slice is kept |
| `Charts.ActiveData` | components/Charts.tsx:20 | at most three slices are drawn, all with positive values, and every non-zero slice of the data is drawn |
| `Charts.ActiveDataInOrder` | components/Charts.tsx:13-20 | the drawn slices are positive, negative, neutral in that order, each present exactly when its count is non-zero |
| `Charts.AllSlicesWhenAllNonZero` | components/Charts.tsx:13-20 | with all three counts positive, exactly three slices are drawn |

## Left out

- The call to the language model is not modelled: client set-up, prompt wording, response schema, model choice and temperature (services/geminiService.ts:1-21, 26-65). It is an external service behind a foreign library. Its outcome is the input `ModelReply`.
- `JSON.parse` is not modelled. Its result is the `json` field of a reply, with `None` for text that is not JSON.
- Decode: a sentiment string outside the three enum values makes the model fail, but the source keeps going (services/geminiService.ts:77, 83).
  - A case variant such as "Positive" or "neutral" lower-cases to an existing counter name. The source then succeeds with correct counts, but that review's sentiment matches no sentiment filter (components/ReviewList.tsx:13).
  - Any other string becomes an extra counter key. The three counters then no longer add up to the total.
  - An absent sentiment makes the source throw, so it fails in the model too.
- Decode: an absent `originalText` or `summary` would be carried as `undefined` by the source. The model takes both as strings.
- Decode: a `null` element of the reviews array throws in the source. The model cannot express it.
- Decode: `x || []` keeps any truthy value, so a `keywords`, complaint or praise field that is present but not an array passes through unchanged in the source (services/geminiService.ts:79, 91-92). The model takes these fields as optional string lists, where `None` is the falsy case.
- An absent `response.text` is folded into the empty reply text. Both take the same error path.
- `async`/`await`, promises and `console.error` logging are not modelled. The in-flight call is the pair of events `Analyze` then `Resolve`/`Reject`/`Complete`, not concurrency.
- App.Shell.Analyze: requires that the input form is shown (no result, not analysing). The handler is reachable only from that form (App.tsx:46, 55). A blank submission in any other state is outside the model.
- App.Shell.Resolve: requires a `Consistent` result, which is what the analysis client returns on success (see `Decode`).
- The file picker and `FileReader` (components/InputSection.tsx:26-30, 36) are browser I/O. Only the `onload` callback is modelled, as `FileLoaded` taking the read result. Resetting the file input's DOM value on clear is not modelled.
- Dashboard.Percent: uses exact integer arithmetic, `(200·count + total) / (2·total)`. The source computes `Math.round(count / total * 100)` in floating point, which can differ from the exact value when the quotient lands within rounding error of a half.
- AnalysisClient.PromptText: counts Unicode characters. JavaScript's `slice` counts UTF-16 code units, so text with characters outside the Basic Multilingual Plane is cut at a different place.
- JsText.ToLower: lower-cases ASCII letters only. That covers the three sentiment tags, the only strings the source lower-cases.
- All JSX, styling, icons and chart drawing are not modelled (components/Charts.tsx:22-51). Neither are the static header (components/Header.tsx) and the footer's current year.
- The sentiment badge's icon and colour class (components/ReviewList.tsx:16-30) are presentation only.
- InputSection.DraftInput: modelled as one long-lived draft, not linked to `App.Shell`. In the source, the input form unmounts when an analysis starts (App.tsx:20, 46). It mounts again after a failure or a reset (App.tsx:30-32, 36-39) with a fresh empty draft (components/InputSection.tsx:19). So the draft never survives an analysis, and after a failure the error shows over an empty text area. The model does not capture this re-creation.
