# Posture telemetry pipeline, modelled in Dafny

Two IMU sensors post pitch samples and button events to a Node server. The
server validates each body, keeps a bounded history per sensor, and files
every sample in a 15-second window keyed by its time stamp. When the sensors
move on to a new window, the server closes the previous one. It computes
per-sensor pitch statistics, cross-sensor alignment and a data-quality class
for that window. It then turns them into an insight: the model's JSON reply
when a language model is configured, otherwise a deterministic fallback. A
SwiftUI app receives the insight, validates it and keeps a deduplicated,
capped and newest-first insight history.

The model follows the code file by file:

| file | module | models |
|---|---|---|
| `js_values.dfy` | `JsValues` | the JavaScript values a parsed JSON body holds, and property access |
| `windows.dfy` | `Windows` | `backend/windowManager.js`: window ids, the window table, and the `WindowManager` class with its current and last-closed pointers |
| `ordered_ids.dfy` | `OrderedIds` | ordering window ids by start, as `trimHistory` sorts them |
| `features.dfy` | `Features` | `backend/featureExtraction.js`: sensor statistics, alignment, data quality |
| `ingress.dfy` | `Ingress` | `toNum`, `normalizeSample`, `normalizeEvent` of `backend/server.js` |
| `vocabulary.dfy` | `Vocabulary` | the rating and confidence raw-value enums of `Insight.swift` |
| `fallback.dfy` | `FallbackInsight` | `createFallbackInsight` of `backend/server.js` |
| `gemini.dfy` | `Gemini` | the fallback inside `generateInsight`, `buildTelemetrySummary` and `buildFeatureSummary` of `backend/gemini.js` |
| `server.dfy` | `Server` | the server state, `processClosedWindow` and `handleIncoming` |
| `insight.dfy` | `AppInsight` | `TelemetryMessage` and `Insight.from(message:)` |
| `posture_view_model.dfy` | `PostureView` | `PostureViewModel.handle` |
| `end_to_end.dfy` | `EndToEnd` | a server insight as the app decodes it |

Modelling choices:

- Window ids are the integer millisecond instants of the window starts. In the source they are ISO-8601 texts of the same instants, and the texts name instants one-to-one.
- `new Date(ts)` truncates a fractional time value toward zero; `Windows.TimeValue` writes that out.
- The state the source mutates is held in classes whose methods are proved against specification functions:
  - `WindowManager` holds `currentWindowId`, `lastClosedWindowId` and `windows`;
  - `TelemetryServer` holds the histories, the latest samples, the insight state and `processedWindows` (a `Set` iterated in insertion order, so a sequence of distinct ids);
  - `PostureViewModel` holds the published fields.
- Instants from outside the model are parameters:
  - `Date.now()` and `Date()` become `now`;
  - `ISO8601DateFormatter` becomes `parseIso`;
  - `toISOString` becomes `isoText`.
- The language-model call is a parameter. `GeminiCall` says whether a key was configured, whether the call threw, and, when it returned, the JSON object its text parsed to, if any.

Things the proofs show about the code:

- `ingestSample` reports a window as closed every time the samples leave it. Its second guard, `currentWindowId !== lastClosedWindowId`, can never fail under the class invariant. So time stamps that go back report a window a second time (`Windows.OutOfOrderReportsTwice`). `processedWindows` is what keeps such a window from being processed twice (`Server.ProcessedOnce`).
- A window skipped for having fewer than ten samples is added to `processedWindows` without the trim to 500. So the 500 bound holds only right after a processed window, and the contracts claim no more.
- The fallback in `generateInsight` is not the same as `createFallbackInsight`. Its phrase tables differ at given variations (`Gemini.FallbacksAgree`).
- A model reply is stored and broadcast unchecked. A rating outside the app's vocabulary makes the app drop the insight (`EndToEnd.UncheckedReplyDroppedByApp`).
- With twenty samples on one sensor only, `computeDataQuality` tests the sample counts first and returns `low`, not `partial` (backend/featureExtraction.js:72-87; `Features.OneQuietSensor`, `FallbackInsight.QuietWindowFallback`).

## Model

| member | source | states |
|---|---|---|
| Windows.WindowIdOf | backend/windowManager.js:10-18 | the id is the 15 s boundary at or below the instant, and a multiple of 15000 |
| Windows.SameBucketSameId | backend/windowManager.js:10-32 | two instants share an id exactly when the second lies in the first's [start, end) |
| Windows.RealignIsIdempotent | backend/windowManager.js:10-32 | every instant of a window maps back to it; re-aligning a start changes nothing |
| Windows.WindowsDoNotOverlap | backend/windowManager.js:23-32 | windows are half-open and adjacent: an earlier window ends no later than a later one starts |
| Windows.MultiplesApart | backend/windowManager.js:4-18 | distinct window ids are at least one window length apart |
| Windows.WindowIdMonotone | backend/windowManager.js:10-18 | a later instant never gets an earlier window |
| Windows.TimeValue | backend/windowManager.js:11 | the time value `new Date` keeps is the number truncated toward zero |
| Windows.SampleTime | backend/windowManager.js:51 | a numeric `ts` gives its time value, a missing one the current time |
| Windows.NewWindow | backend/windowManager.js:70-77 | a new bucket is empty with start = id and end = start + 15000 |
| Windows.FileSample | backend/windowManager.js:69-84 | the table gains the id if absent, other entries are untouched, and the sample is appended to its sensor's list |
| Windows.Step | backend/windowManager.js:54-67 | the new window becomes current; a close is reported only on a change of window, and then the closed id is the old current one; pointer consistency is kept |
| Windows.OneCloseAPerCrossing | backend/windowManager.js:56-67 | along any run of samples, exactly one close is reported per change of window |
| Windows.RunEndsInLastWindow | backend/windowManager.js:67 | after a run, the current window is the last sample's |
| Windows.ClosedAfter | backend/windowManager.js:56-65 | with ordered time stamps, no reported window precedes the window current at the start |
| Windows.OrderedClosesAreDistinct | backend/windowManager.js:56-65 | with ordered time stamps, the reported closes are strictly increasing, so no window is reported twice |
| Windows.OrderedTimestampsCloseEachWindowOnce | backend/windowManager.js:50-87 | from a fresh manager, ordered time stamps report each window left once, in order |
| Windows.OutOfOrderReportsTwice | backend/windowManager.js:58-64 | time stamps that go back and forth report window 0 twice |
| Windows.WindowManager.constructor | backend/windowManager.js:38-42 | both pointers null, empty table |
| Windows.WindowManager.IngestSample | backend/windowManager.js:50-87 | pointers and reported close follow `Step`; the table follows `FileSample`; the invariant is kept |
| Windows.WindowManager.GetWindow | backend/windowManager.js:92-94 | the entry for the id, or none exactly when the table lacks it |
| Windows.WindowManager.RemoveWindow | backend/windowManager.js:99-101 | the table loses that key only; the pointers are unchanged |
| Windows.WindowManager.GetCurrentWindowId | backend/windowManager.js:106-108 | returns the current window id |
| Windows.WindowManager.IdsByStart | backend/windowManager.js:117-118 | all table ids, each once, in increasing start order |
| Windows.WindowManager.TrimHistory | backend/windowManager.js:113-124 | no-op within the cap; otherwise exactly the cap is kept, survivors unchanged, every removed window older than every kept one |
| OrderedIds.MinOf | backend/windowManager.js:117-118 | the least element of a non-empty set of ids |
| OrderedIds.DistinctCount | backend/windowManager.js:117-120 | an increasing enumeration of a key set has as many elements as the set |
| JsValues.Get | backend/server.js:75 | a missing property reads as undefined |
| JsValues.FinitePitch | backend/featureExtraction.js:10-12 | a pitch counts exactly when it is a finite number |
| Features.Pitches | backend/featureExtraction.js:10-12 | the finite numeric pitches, never more than the samples |
| Features.PitchesOfAppend | backend/featureExtraction.js:10-12 | a new sample adds its pitch at the end if finite, nothing otherwise |
| Features.NoPitchesIff | backend/featureExtraction.js:10-14 | there are no pitches exactly when no sample has a finite numeric pitch |
| Features.Min | backend/featureExtraction.js:30 | the minimum is a pitch and below all pitches |
| Features.Max | backend/featureExtraction.js:31 | the maximum is a pitch and above all pitches |
| Features.CountAtLeast | backend/featureExtraction.js:32 | the slouch count is at most the pitch count |
| Features.SumBetween | backend/featureExtraction.js:27 | a sum of bounded terms lies between n times the bounds |
| Features.SquaredDeviationsNonNegative | backend/featureExtraction.js:28 | the variance numerator is non-negative |
| Features.CountAtLeastExtremes | backend/featureExtraction.js:32 | no slouch counted when all pitches are below, all when all reach the threshold |
| Features.SlouchPercent | backend/featureExtraction.js:32-33 | the slouch share is a percentage, 0 with no slouching and 100 with all slouching |
| Features.MeanBetweenMinAndMax | backend/featureExtraction.js:27-31 | min <= mean <= max |
| Features.MeanBetween | backend/featureExtraction.js:27 | the mean of terms in [lo, hi] lies in [lo, hi] |
| Features.ComputeSensorStats | backend/featureExtraction.js:9-44 | data exactly when a finite pitch exists; otherwise all-null and 0 %; otherwise the count, minimum, maximum and mean of the finite pitches (min <= mean <= max), variance >= 0, and the slouch share as the percentage of pitches at or above 15 degrees |
| Features.IgnoresSamplesWithoutPitch | backend/featureExtraction.js:10-12 | a sample without a finite pitch does not change the statistics |
| Features.SlouchExtremes | backend/featureExtraction.js:32-33 | all pitches below 15 degrees give 0 %, all at or above give 100 % |
| Features.ComputeAlignment | backend/featureExtraction.js:49-67 | scored exactly when both sensors have data; the difference is the distance between the means; the score is 100 less 5 per degree of difference, floored at 0, so in [0, 100], 100 iff equal means, 0 iff the means are 20 or more apart |
| Features.AlignmentScoreMonotone | backend/featureExtraction.js:58-60 | a smaller pitch difference never gives a lower score |
| Features.ComputeDataQuality | backend/featureExtraction.js:72-87 | low iff both counts are under 50; else partial iff exactly one sensor has data; else good; the missing flags mirror the data flags |
| Features.ComputeWindowFeatures | backend/featureExtraction.js:92-107 | each sensor's statistics come from its own samples; alignment and quality come from those statistics; the bounds are the window's |
| Features.EmptyWindowIsLow | backend/featureExtraction.js:75-85 | a window without samples is low quality with no alignment |
| Features.GoodWindowHasBothSensors | backend/featureExtraction.js:75-85 | a good window has data on both sensors, 50 or more pitches on one, and an alignment score |
| Features.OneQuietSensor | backend/featureExtraction.js:72-87 | twenty samples at 5 degrees on one sensor give 0 % slouching, no alignment and low quality |
| Ingress.TrimStart | backend/server.js:65 | the result is the input less a leading run of white space, and does not start with white space |
| Ingress.TrimEnd | backend/server.js:65 | the result is the input less a trailing run of white space, and does not end with white space |
| Ingress.Trim | backend/server.js:65 | `trim()`: empty exactly when the input is all white space; a non-empty result neither starts nor ends with white space |
| Ingress.IndexOf | backend/server.js:65-66 | the first position of the character, or the length when it is absent |
| Ingress.ToNum | backend/server.js:63-68 | finite numbers pass; blank strings and non-number, non-string values give undefined; other strings give their decimal value if they have one |
| Ingress.NatTextValue | backend/server.js:65-66 | the decimal text of n reads back as n, digit by digit |
| Ingress.ToNumOfNatText | backend/server.js:63-68 | `toNum` of the decimal text of n below 2^53 is n |
| Ingress.ToNumOfNegatedNatText | backend/server.js:63-68 | `toNum` of "-" followed by the text of n below 2^53 is -n |
| Ingress.ToNumIgnoresLeadingSpace | backend/server.js:65-66 | leading white space does not change the result |
| Ingress.ToNumOfFraction | backend/server.js:65-66 | "2.5" converts to 2.5 |
| Ingress.ToNumRejectsBlank | backend/server.js:65 | a blank string converts to undefined, not 0 |
| Ingress.ToNumRejectsTwoPoints | backend/server.js:65 | "1.2.3" converts to undefined |
| Ingress.ConvertFields | backend/server.js:83-93 | exactly the listed fields, each the `toNum` conversion of the body's |
| Ingress.ConvertFieldsIdempotent | backend/server.js:83-93 | converting already-converted fields changes nothing |
| Ingress.NormalizeSample | backend/server.js:74-98 | accepted iff the pitch converts; otherwise the error "pitch must be a number"; an accepted sample has exactly kind "sample", the converted pitch, `ts` from the body or the current time, and the converted optional fields |
| Ingress.AcceptedSampleIsUsable | backend/server.js:74-98 | an accepted sample has the body's finite pitch and a usable time stamp that gives the window instant |
| Ingress.NormalizeSampleIdempotent | backend/server.js:74-98 | normalising an accepted sample again, at any time, gives it back |
| Ingress.NormalizeEvent | backend/server.js:100-108 | accepted iff `event` is a non-empty string; otherwise "event must be a string"; an accepted event keeps every field and gets kind "event" and `ts` |
| Ingress.NormalizeEventIdempotent | backend/server.js:100-108 | normalising an accepted event again gives it back |
| Vocabulary.RatingOf | frontend/UpperTorso3D.swiftpm/Insight.swift:14-19 | `Rating(rawValue:)` gives the case with that raw value, and nothing for the other strings |
| Vocabulary.ConfidenceOf | frontend/UpperTorso3D.swiftpm/Insight.swift:21-25 | `Confidence(rawValue:)` likewise |
| Vocabulary.RatingRoundTrip | frontend/UpperTorso3D.swiftpm/Insight.swift:14-19 | every rating survives its raw value, and only raw values parse |
| Vocabulary.ConfidenceRoundTrip | frontend/UpperTorso3D.swiftpm/Insight.swift:21-25 | every confidence survives its raw value, and only raw values parse |
| Vocabulary.RatingRawValuesDistinct | frontend/UpperTorso3D.swiftpm/Insight.swift:14-19 | distinct ratings have distinct raw values |
| FallbackInsight.AsReply | backend/server.js:338-345 | a fallback seen as a reply: every field present, the enums as raw values |
| FallbackInsight.AvgSlouch | backend/server.js:227-233 | the mean of both shares, the one active share, or 0 |
| FallbackInsight.RatingFor | backend/server.js:236 | poor iff >= 60, not so good iff in [40, 60), fair iff in [15, 40), good iff < 15 |
| FallbackInsight.Variation | backend/server.js:235-239 | the variation is below 4 and congruent to the total count mod 4 |
| FallbackInsight.ConfidenceFor | backend/server.js:344 | high iff quality good, medium iff partial, low iff low |
| FallbackInsight.RatingMonotone | backend/server.js:236 | more slouching never gives a better rating |
| FallbackInsight.AvgSlouchIsPercentage | backend/server.js:227-233 | for computed features the average share lies in [0, 100] |
| FallbackInsight.SuggestionNeighboursDiffer | backend/server.js:289-308 | cyclically neighbouring suggestions differ |
| FallbackInsight.CreateFallbackInsight | backend/server.js:226-346 | rating by average share and confidence by quality; summary and tip picked by the variation; good means no issues and the one stock suggestion; otherwise one issue and two different suggestions, the rating's table entries at the variation and the next one round |
| FallbackInsight.QuietWindowFallback | backend/server.js:226-346 | twenty calm samples on one sensor give a good rating, no issues and low confidence |
| Gemini.GeminiFallback | backend/gemini.js:150-267 | the same list shapes as the server fallback, and confidence iff quality, both directions |
| Gemini.IssueTablesAgreeOnlyAtTwo | backend/gemini.js:191-209 | its issue tables match the server's only at variation 2 |
| Gemini.SuggestionTablesDiffer | backend/gemini.js:211-230 | its fair suggestions match except at 2, the others except at 1 |
| Gemini.TipTablesDiffer | backend/gemini.js:232-258 | its tips match the server's except fair at variation 2 |
| Gemini.FallbacksAgree | backend/gemini.js:150-267 | rating, confidence, summary and list lengths are equal to the server fallback's; each text differs exactly where the tables do |
| Gemini.GenerateInsight | backend/gemini.js:140-148 | the parsed reply when there is one, else the local fallback |
| Gemini.GenerateInsightChecksNothing | backend/gemini.js:269 | the fallback is complete and in the app's vocabulary, while a parsed rating such as "excellent" passes unchecked |
| Gemini.BuildTelemetrySummary | backend/gemini.js:21-49 | the no-samples text iff empty; the no-pitch text iff none numeric; otherwise count, min <= avg <= max, slouch share in [0, 100], and the last sample's pitch and ts |
| Gemini.TelemetrySummaryAgreesWithStats | backend/gemini.js:24-38 | the summary's figures are the extractor's for the same samples |
| Gemini.SensorLineOf | backend/gemini.js:61-68 | "No data" iff the sensor has none; otherwise its count, mean, minimum, maximum and slouch share |
| Gemini.QualityLine | backend/gemini.js:75 | the line starts with "Data quality: " and the quality class, and ends with the low-sample note iff the samples are low |
| Gemini.BuildFeatureSummary | backend/gemini.js:54-80 | each line reflects the features: sensor lines as `SensorLineOf` gives them, the single-sensor line or the features' difference and score, the quality class and low-sample note, bounds, threshold |
| Gemini.EmptyWindowSummary | backend/gemini.js:54-80 | an empty window summarises as no data on both sensors, one active sensor and low quality |
| Server.PushBounded | backend/server.js:357-358 | the new message is last; below the cap nothing is lost; at the cap the oldest goes; the cap holds |
| Server.PushBoundedDropsOldest | backend/server.js:204-207 | at the cap, exactly the oldest entry is dropped |
| Server.KeepLatest | backend/server.js:160-164 | a suffix of the ids, exactly 500 when over, distinct ids stay distinct |
| Server.ChooseInsight | backend/server.js:169-181 | no key or a throwing call gives the server fallback; otherwise whatever `generateInsight` returned |
| Server.InsightObject | backend/server.js:184-200 | the window bounds, the reply's fields, missing lists as empty, the features |
| Server.GateOf | backend/server.js:135-155 | already processed, else no window, else under ten samples, else process; each iff its condition |
| Server.ProcessedOnce | backend/server.js:135-164 | a processed window is recognised as already processed afterwards |
| Server.TelemetryServer.constructor | backend/server.js:33-48 | empty histories, placeholder latest samples, no insight, nothing processed |
| Server.TelemetryServer.ProcessClosedWindow | backend/server.js:132-220 | per gate: no change; marked only; or marked, trimmed to 500, insight recorded, table trimmed to 240 and the window removed; samples and pointers untouched |
| Server.TelemetryServer.RecordInsight | backend/server.js:203-207 | the insight becomes latest and joins the history bounded at 240 |
| Server.TelemetryServer.AppendToHistory | backend/server.js:357-358 | the message joins the source's history bounded at 2000; the other history is untouched |
| Server.TelemetryServer.HandleSample | backend/server.js:366-381 | the sample becomes the source's latest and joins its history; its window becomes current; without a close only the table changes; a closed window the table held ends up processed |
| Server.TelemetryServer.HandleIncoming | backend/server.js:348-383 | 400 iff normalisation rejects, and then nothing changes; an event only joins the history; a sample is handled as above |
| AppInsight.From | frontend/UpperTorso3D.swiftpm/Insight.swift:27-55 | an insight iff typed `insight_update` with bounds, summary, tip and in-vocabulary rating and confidence; the id is the start text; texts are kept, lists default to empty, and bounds parse or fall back to now |
| AppInsight.FromAsMessage | frontend/UpperTorso3D.swiftpm/Insight.swift:27-55 | an insight written out with its id as start text reads back as itself |
| EndToEnd.Wire | backend/server.js:184-200 | the broadcast insight as the app decodes it |
| EndToEnd.FallbackReachesApp | frontend/UpperTorso3D.swiftpm/Insight.swift:27-55 | without a key, or on a throw, the app accepts the insight with the fallback's rating, confidence, texts and lists, named by the window start text |
| EndToEnd.SameRatingRawValue | frontend/UpperTorso3D.swiftpm/Insight.swift:14-19 | equal raw values mean equal ratings |
| EndToEnd.SameConfidenceRawValue | frontend/UpperTorso3D.swiftpm/Insight.swift:21-25 | equal raw values mean equal confidences |
| EndToEnd.UncheckedReplyDroppedByApp | frontend/UpperTorso3D.swiftpm/Insight.swift:28-36 | a model reply rated "excellent" is stored as such and refused by the app |
| PostureView.InsertIsPermutation | frontend/UpperTorso3D.swiftpm/PostureViewModel.swift:48 | insertion adds exactly the new entry |
| PostureView.InsertKeepsOrder | frontend/UpperTorso3D.swiftpm/PostureViewModel.swift:48 | insertion keeps a newest-first list newest first |
| PostureView.InsertKeepsIdsUnique | frontend/UpperTorso3D.swiftpm/PostureViewModel.swift:41-48 | inserting a new id keeps the ids unique |
| PostureView.SortIsOrderedPermutation | frontend/UpperTorso3D.swiftpm/PostureViewModel.swift:48 | the sort is newest first and a permutation |
| PostureView.PermutationKeepsIdsUnique | frontend/UpperTorso3D.swiftpm/PostureViewModel.swift:41-48 | rearranging keeps the ids unique |
| PostureView.MultiplicityOfUnique | frontend/UpperTorso3D.swiftpm/PostureViewModel.swift:41-42 | an entry of a list with unique ids occurs once |
| PostureView.AddAsWritten | frontend/UpperTorso3D.swiftpm/PostureViewModel.swift:42-48 | the history stays within 48 and newest first; below the cap it gains the insight; at the cap index 0 is lost |
| PostureView.AddAsWrittenKeepsIdsUnique | frontend/UpperTorso3D.swiftpm/PostureViewModel.swift:41-48 | a new id keeps the history's ids unique |
| PostureView.AddAsWrittenDropsNewest | frontend/UpperTorso3D.swiftpm/PostureViewModel.swift:44-48 | at the cap the newest earlier insight is lost while the oldest stays |
| PostureView.AddKeepingNewest | frontend/UpperTorso3D.swiftpm/PostureViewModel.swift:43-48 | newest first, a prefix of the sorted whole with one more entry below 48 and exactly 48 at the cap, and nothing dropped is newer than anything kept |
| PostureView.AddKeepingNewestKeepsNewest | frontend/UpperTorso3D.swiftpm/PostureViewModel.swift:43-48 | at the cap the newest earlier insight stays |
| PostureView.DisplayedPitch | frontend/UpperTorso3D.swiftpm/PostureViewModel.swift:82 | the smoothed pitch, else the raw pitch, else 0 |
| PostureView.SampleInstant | frontend/UpperTorso3D.swiftpm/PostureViewModel.swift:68-73 | `ts` in seconds (ts / 1000), else now |
| PostureView.InsightMessagesStayInsights | frontend/UpperTorso3D.swiftpm/PostureViewModel.swift:35-36 | any message `from` accepts is taken by the insight branch |
| PostureView.PostureViewModel.constructor | frontend/UpperTorso3D.swiftpm/PostureViewModel.swift:7-16 | zero pitches, no event, no insight, empty history |
| PostureView.PostureViewModel.Handle | frontend/UpperTorso3D.swiftpm/PostureViewModel.swift:33-91 | insight messages are consumed: a valid insight with a new id becomes latest and, if its id is new, joins the history; events set the last event only; samples clear a latest insight that ended before them and set the source's pitch; everything else is ignored; the history invariant is kept |

## Left out

- HTTP routes, the WebSocket server and `broadcast`, the NDJSON append, the other endpoints of `backend/server.js`, and `TelemetryWebSocket`, `start` and `stop` in the app: transport and file I/O.
- The prompt text, `runGemini` and the model client: an external service. Its outcome is the `GeminiCall` parameter.
- `processClosedWindow` runs asynchronously and is not awaited, and the app dispatches to the main queue. The model runs each call to completion with no interleaving.
- The `try`/`catch` around `processClosedWindow`: the modelled steps do not throw.
- `toNum` covers decimal text only, with an optional sign and fraction. Exponents, hexadecimal, octal and binary literals, `Infinity` text, and white space outside the listed characters are not modelled.
- Time values beyond the range JavaScript dates accept, which make `toISOString` throw, are not modelled.
- Window ids take for granted a time-zone offset that is a whole number of minutes. `getSeconds` is local time.
- `toFixed` rounding, `Math.sqrt` and `toLocaleString` formatting: the statistics are exact reals, the variance is carried in place of the standard deviation, and the summaries hold values rather than text.
- The environment overrides `SLOUCH_DEG`, `MAX_BUFFER` and `GEMINI_API_KEY`: the model uses the defaults, and the key becomes a parameter.
- Bodies that are not JSON objects.
- Ingress.ToNum: decimal text is read as an exact real. `Number` rounds it to a double, so integers above 2^53 lose precision, and text beyond about 1.8e308 overflows to `Infinity` and gives undefined; the model keeps the exact value in both cases.
- Model replies are limited to JSON objects whose fields are strings and lists of strings. A reply that is an array or a string, a numeric rating, or a non-list `issues` or `suggestions` (where `insight.issues || []` turns a falsy value into `[]` and passes a truthy one on) is not represented.
- The `TelemetryMessage` fields `handle` and `from` do not read: `ax`, `ay`, `az`, `a_mag`, `dpitch`, `baseline_pitch`, `button`, `button_click` and `features`.
- Swift's `sort` is not guaranteed stable. The model orders insights with equal starts stably.
- Features.ComputeAlignment: it uses the exact means, not the means rounded to two decimals.
- Gemini.GeminiFallback: its own contract states only the list shapes and the confidence; `Gemini.FallbacksAgree` pins every field against the server fallback.
- Server.TelemetryServer.ProcessClosedWindow: in the processing path, the window table is stated only to lose the window, keep at most 240 entries and keep the survivors unchanged. `Windows.WindowManager.TrimHistory` states which windows go.
- Server.TelemetryServer.HandleSample: when a window closes, it states only that the window ends up processed if the table held it. `ProcessClosedWindow` states the rest.
- Server.TelemetryServer.HandleIncoming: the same, for the sample path.

## Findings

| source | as written | input that shows it | evidently intended | confidence | as-written member | corrected member |
|---|---|---|---|---|---|---|
| frontend/UpperTorso3D.swiftpm/PostureViewModel.swift:44-48 | beyond 48 insights, `removeFirst()` drops index 0 of a history kept newest first, which is the newest earlier insight | a full history of 48 insights whose first starts after its last, followed by an insight with a new id | keep the 48 most recent windows and drop the oldest | high, not executed | PostureView.AddAsWrittenDropsNewest | PostureView.AddKeepingNewestKeepsNewest |

`PostureView.PostureViewModel.Handle` models the code as written, through `AddAsWritten`. `AddKeepingNewest` is the corrected insertion, and its contract proves that nothing dropped is newer than anything kept.
