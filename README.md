# A verified model of the screening app's decision logic

The app is a Next.js site for early screening of learning and perception
difficulties in children. It has an eye-movement assessment, an eye-coordination
test, handwriting and speech analysis by a generative model, and two colour-vision
tests. Route handlers score the telemetry the pages send, or they clean up and
forward the model's reply. A middleware guards the dashboard. This project models
the deterministic core of all of these in Dafny and proves what each piece promises:

- **Telemetry classifiers** (`EyeFeedback`, `EyeTestRoute`, and `ComputeResults` in
  `EyeTestPage`):
  - accuracy, mean reaction time and the five-rule, first-match-wins level chain;
  - the two-way recommendation;
  - the tracking and fixation summary, with its exact, strict or inclusive, boundaries.
- **The eye assessment page** (`EyePage`):
  - the rejection-sampling target generator, as a `while` loop over a supplied
    sequence of random draws. It is proved to produce eight in-bounds targets,
    pairwise more than 18 apart, with ids equal to their positions;
  - the click session, as a class.
- **The eye-coordination page** (`EyeTestPage.EyeTestSession`): the phase cycle, the
  distance sampling, the restart, and the fixation rounds both as written (they never
  reach the result screen) and as intended.
- **Reply repair** (`HandwritingRoute`, `SpeechRoute`):
  - the handwriting route's trim and brace slicing is an imperative method, proved
    equal to a brace-span function. That function is shown to keep a contiguous
    piece from the first `{` to the last `}`, and to be idempotent;
  - the speech route's fence stripping is proved to leave no fence and to be
    idempotent;
  - the response shapes of both routes, where parsed fields override the literal keys.
- **Colour vision** (`ColorPlates`, `ColorPage`, `ColorRoute`, `ColorBlindnessPage`):
  - the two plate sessions, as classes whose invariant ties each results entry to the
    grading of what was submitted;
  - the summary thresholds;
  - the fetched-plate test, with its `forEach` tally as a loop and its deficiency-type
    rules.
- **Small predicates** (`SpeechPage`, `Middleware`): the first-name cut, the first
  truthy identifier of a token, and the protected-prefix test with the pass or
  redirect decision.

Shared modules model what the code borrows from JavaScript:

- `JsStrings` gives `trim`, `indexOf`, `lastIndexOf`, `slice` with negative and
  out-of-range arguments, `startsWith`, `endsWith`, `includes`, and a global
  `replace` of a literal by the empty string;
- `JsNumbers` gives `reduce` sums, means and `Math.round`;
- `Web` gives JSON values, object spread and `NextResponse.json`.

JavaScript numbers are exact reals. `Math.round(x)` is `floor(x + 0.5)`.

These are inputs or oracles, passed as parameters: the generative model's reply,
`JSON.parse`, `jwt.verify`, `Math.random`, `Date.now` and `localStorage`. React state
updates are field assignments of a class. A `setTimeout` countdown is a `Tick` method:
one second passes, or at 0 the answer is submitted.

## Model

| member | source | states |
|---|---|---|
| JsStrings.TrimStart | src/app/api/handwriting/route.ts:59 | the leading whitespace is gone and nothing is added |
| JsStrings.TrimEnd | src/app/api/handwriting/route.ts:59 | the trailing whitespace is gone and nothing is added |
| JsStrings.TrimStartIsSuffix | src/app/api/handwriting/route.ts:59 | what trimming the start keeps is a suffix of the input |
| JsStrings.TrimEndIsPrefix | src/app/api/handwriting/route.ts:59 | what trimming the end keeps is a prefix of the input |
| JsStrings.TrimStartDropsWhitespace | src/app/api/handwriting/route.ts:59 | every character dropped is whitespace |
| JsStrings.TrimEndDropsWhitespace | src/app/api/handwriting/route.ts:59 | every character dropped is whitespace |
| JsStrings.Trim | src/app/api/handwriting/route.ts:59 | `trim()` leaves no whitespace at either end, and leaves such a string unchanged |
| JsStrings.TrimIsInfix | src/app/api/speech/route.ts:47-50 | the trimmed text is a contiguous piece of the input with only whitespace around it |
| JsStrings.TrimIdempotent | src/app/color/page.tsx:35 | trimming twice is trimming once |
| JsStrings.IndexOf | src/app/api/handwriting/route.ts:63 | `indexOf` is -1 exactly when the character is absent, and otherwise a position holding it |
| JsStrings.IndexOfIsFirst | src/app/speech/page.tsx:28-29 | no earlier position holds the character (the first occurrence) |
| JsStrings.LastIndexOf | src/app/api/handwriting/route.ts:65 | `lastIndexOf` is -1 exactly when the character is absent, and otherwise a position holding it |
| JsStrings.LastIndexOfIsLast | src/app/api/handwriting/route.ts:65 | no later position holds the character (the last occurrence) |
| JsStrings.LastIndexOfSuffix | src/app/api/handwriting/route.ts:63-65 | the last occurrence in a suffix is the last occurrence in the whole string, shifted, or -1 when that lies before the suffix |
| JsStrings.RelativeIndex | src/app/api/handwriting/route.ts:63-65 | `slice` counts negative arguments from the end and clamps both ends to the string |
| JsStrings.SliceFromIndex | src/app/api/handwriting/route.ts:63 | `slice(k)` with an in-range `k` is the suffix from `k` |
| JsStrings.SliceFromLast | src/app/api/handwriting/route.ts:63 | `slice(-1)` is the last character, or nothing for the empty string |
| JsStrings.SlicePrefix | src/app/api/handwriting/route.ts:65 | `slice(0, n)` with an in-range `n` is the prefix of length `n` |
| JsStrings.SliceOfSuffix | src/app/api/handwriting/route.ts:63-65 | slicing a prefix of a suffix is slicing the infix |
| JsStrings.IndexOfLeading | src/app/api/handwriting/route.ts:62-63 | a string starting with `c` finds `c` at 0 |
| JsStrings.RemoveAll | src/app/api/speech/route.ts:48-49 | `replace(/p/g, "")` never lengthens the text |
| JsStrings.RemoveAllAbsent | src/app/api/speech/route.ts:48-49 | removing an absent pattern changes nothing |
| JsStrings.TrimKeepsAbsence | src/app/api/speech/route.ts:50 | trimming cannot create an occurrence of a pattern |
| JsStrings.ContainsChar | src/app/color/page.tsx:55 | `includes` of a one-character pattern is membership of that character |
| JsStrings.NoLongerPattern | src/app/api/speech/route.ts:48-49 | a text without a pattern contains no pattern that starts with it |
| JsNumbers.Mean | src/app/api/eye/route.ts:9-13 | the mean times the count is the `reduce` sum; 0 for an empty list |
| JsNumbers.Round | src/app/api/eye/route.ts:8 | `Math.round` is the integer within half of the value, halves going up |
| JsNumbers.RoundMonotone | src/app/eye-test/page.tsx:80 | rounding preserves order |
| JsNumbers.RoundWhole | src/app/eye-test/page.tsx:80 | whole numbers round to themselves |
| JsNumbers.SumWithin | src/app/eye-test/page.tsx:66-68 | a sum of terms within bounds is within the count times those bounds |
| JsNumbers.MeanWithin | src/app/eye-test/page.tsx:66-68 | the mean of a non-empty list lies within any bounds of its elements |
| JsNumbers.DivBelow | src/app/color-blindness/page.tsx:58-63 | a quotient by a positive divisor is below a bound exactly when the dividend is below the scaled bound |
| Web.WithSpread | src/app/api/handwriting/route.ts:69 | `{ ...base, ...parsed }` has the keys of both; the spread fields win over the literal keys; the other literal keys stay |
| EyeFeedback.Accuracy | src/app/api/eye/route.ts:7-8 | 0 when there are no attempts; between 0 and 100 for non-negative counts |
| EyeFeedback.AccuracyExamples | src/app/api/eye/route.ts:8 | 9 hits and 1 miss give 90; no attempts give 0 |
| EyeFeedback.FirstMatch | src/app/api/eye/route.ts:19-38 | the first rule whose condition holds, with every earlier rule failing; the last rule always holds |
| EyeFeedback.ClassifyIsFirstMatch | src/app/api/eye/route.ts:19-38 | the if / else-if chain gives exactly the level of the first rule that holds |
| EyeFeedback.LevelNamesDistinct | src/app/api/eye/route.ts:21-37 | the five level strings are pairwise distinct, so a level string names exactly one level |
| EyeFeedback.GoodBeforeImpulsive | src/app/api/eye/route.ts:22-29 | a reading meeting both the good and the impulsive rule is good, because of rule order |
| EyeFeedback.ExcellentBoundary | src/app/api/eye/route.ts:19-25 | accuracy 90, time 3 and 2 drift clicks are excellent; 3 drift clicks fall to good |
| EyeFeedback.Report | src/app/api/eye/route.ts:40-47 | the success body has exactly the six fields |
| EyeFeedback.ReportScores | src/app/api/eye/route.ts:40-42 | `accuracy` and `averageTime` are the computed accuracy and mean |
| EyeFeedback.ReportEchoes | src/app/api/eye/route.ts:45-46 | `driftClicks` and `score` are returned unchanged |
| EyeFeedback.ReportLevel | src/app/api/eye/route.ts:16-44 | `level` and `feedback` are the name and the one message of the same level, the one the chain picks |
| EyeFeedback.Post | src/app/api/eye/route.ts:3-55 | an unreadable body answers 500 with the fixed message; otherwise 200 with the report |
| EyeFeedback.SampleScores | src/app/api/eye/route.ts:7-25 | 8 hits and 2 misses with times 2, 2.5 and 3 give accuracy 80, mean 2.5 and level good |
| EyeFeedback.SampleSession | src/app/api/eye/route.ts:7-47 | the response for that sample carries accuracy 80, averageTime 2.5 and level "good" |
| EyeTestRoute.Recommendation | src/app/api/eye-test/route.ts:15-17 | the recommendation is one of the two texts |
| EyeTestRoute.Post | src/app/api/eye-test/route.ts:3-22 | status 200 exactly for a readable body; success true with "Result received"; the warning exactly when accuracy is below 70 or fixation is above 1200, else the normal text; a thrown error gives 500 and success false |
| EyeTestRoute.ThresholdsAreStrict | src/app/api/eye-test/route.ts:15 | 70 and 1200 exactly are normal; crossing either one is flagged; missing fields are normal |
| EyeTestPage.ComputeResults | src/app/eye-test/page.tsx:65-84 | fixationSpeed is the mean fixation time; the warning summary exactly when the mean distance is above 150 or the mean fixation above 1200 |
| EyeTestPage.TrackingAccuracyOfDistance | src/app/eye-test/page.tsx:80 | trackingAccuracy is `round(100 - meanDist / 10)`, and 100 with no samples |
| EyeTestPage.TrackingAccuracyAntitone | src/app/eye-test/page.tsx:80 | a larger mean distance never gives a higher tracking score |
| EyeTestPage.TrackingAccuracyBound | src/app/eye-test/page.tsx:66-80 | samples all within `d` give a score of at least `round(100 - d / 10)` |
| EyeTestPage.EyeTestSession.constructor | src/app/eye-test/page.tsx:11-16 | the page starts in the menu with empty lists and no results |
| EyeTestPage.EyeTestSession.HandleMouseMove | src/app/eye-test/page.tsx:31-38 | one distance is appended in the tracking phase, and nothing changes in any other phase |
| EyeTestPage.EyeTestSession.StartTest | src/app/eye-test/page.tsx:100 | menu leads to tracking, and nothing else changes |
| EyeTestPage.EyeTestSession.Continue | src/app/eye-test/page.tsx:116 | tracking leads to fixation, and nothing else changes |
| EyeTestPage.EyeTestSession.StartFixationAsWritten | src/app/eye-test/page.tsx:41-63 | the button shows the drawn letter, but the timeout reads the null `target` of the render whose button was pressed: no time is recorded and the phase stays fixation |
| EyeTestPage.EyeTestSession.PressLetter | src/app/eye-test/page.tsx:127-133 | the letter button clears the letter and changes nothing else |
| EyeTestPage.EyeTestSession.FixationAsWritten | src/app/eye-test/page.tsx:124-144 | after any sequence of fixation-phase actions the page is still in the fixation phase with no fixation time recorded |
| EyeTestPage.EyeTestSession.RecordFixation | src/app/eye-test/page.tsx:53-57 | one intended round appends its response time and clears the letter |
| EyeTestPage.EyeTestSession.FixationIntended | src/app/eye-test/page.tsx:44-58 | five intended rounds append their five times and reach the result phase, with the results of the lists as they then stand |
| EyeTestPage.EyeTestSession.ShowResults | src/app/eye-test/page.tsx:86-88 | fixation leads to the result phase, whose results are those of the current lists |
| EyeTestPage.EyeTestSession.Restart | src/app/eye-test/page.tsx:154-158 | back to the menu with both lists emptied |
| EyePage.ConsiderKeepsLayout | src/app/eye/page.tsx:26-35 | one iteration keeps the layout valid, and it either leaves the array unchanged or appends exactly one target |
| EyePage.SampleValid | src/app/eye/page.tsx:25-36 | a finished run has exactly 8 targets, in bounds, with ids equal to positions and pairwise more than 18 apart |
| EyePage.GenerateTargets | src/app/eye/page.tsx:23-38 | the loop computes the sampling function, and what it returns has 8 targets in a valid layout |
| EyePage.AverageReactionIsMean | src/app/eye/page.tsx:62-64 | the `\|\| 1` divisor makes the average the mean, and 0 with no clicks |
| EyePage.EyeAssessment.constructor | src/app/eye/page.tsx:13-17 | nothing is placed, started or recorded |
| EyePage.EyeAssessment.StartAssessment | src/app/eye/page.tsx:40-47 | new targets, index 0, no reaction times, started and not completed |
| EyePage.EyeAssessment.HandleTargetClick | src/app/eye/page.tsx:49-60 | one reaction time is appended; the eighth click completes and stops, and earlier clicks advance the index |
| HandwritingRoute.BraceSpan | src/app/api/handwriting/route.ts:62-65 | the result is empty, a lone "}", or starts with "{" and ends with "}" |
| HandwritingRoute.RepairReply | src/app/api/handwriting/route.ts:59-65 | the step-by-step trim and two conditional slices compute the brace span of the trimmed reply |
| HandwritingRoute.FirstSlice | src/app/api/handwriting/route.ts:62-63 | the first slice is the suffix from the first "{", or `slice(-1)` when there is none |
| HandwritingRoute.SliceMatchesSpan | src/app/api/handwriting/route.ts:64-65 | the second slice, applied after the first, gives the brace span |
| HandwritingRoute.SpanFromOpenBrace | src/app/api/handwriting/route.ts:64-65 | after a "{", the second slice gives the span |
| HandwritingRoute.SuffixEndingInBrace | src/app/api/handwriting/route.ts:64 | a suffix from the first "{" that ends in "}" is the whole span |
| HandwritingRoute.SuffixCutAtLastBrace | src/app/api/handwriting/route.ts:65 | cutting after the last "}" gives the span |
| HandwritingRoute.CutAfterClosingBrace | src/app/api/handwriting/route.ts:65 | with a "}" after the first "{", the cut keeps everything up to the last "}" |
| HandwritingRoute.SpanBetween | src/app/api/handwriting/route.ts:62-65 | the span then runs from the first "{" to the last "}" |
| HandwritingRoute.CutWithoutClosingBrace | src/app/api/handwriting/route.ts:65 | with no "}" after the first "{", nothing is kept, since lastIndexOf gives -1 |
| HandwritingRoute.SpanOfLastChar | src/app/api/handwriting/route.ts:62-65 | without a "{", the last character is kept only when it is "}" |
| HandwritingRoute.CleanObjectPassesThrough | src/app/api/handwriting/route.ts:59-65 | a reply already delimited by "{" and "}" passes through unchanged |
| HandwritingRoute.SpanIsSlice | src/app/api/handwriting/route.ts:62-65 | the result is always a contiguous piece of the trimmed reply |
| HandwritingRoute.NoOpeningBrace | src/app/api/handwriting/route.ts:62-65 | without any "{", the result is empty or "}", and it is "}" exactly when the text ends with "}" |
| HandwritingRoute.SpanHasNoEdgeWhitespace | src/app/api/handwriting/route.ts:59-65 | the span has no whitespace at either end |
| HandwritingRoute.SpanIsFixed | src/app/api/handwriting/route.ts:62-65 | the span of a possible span is itself |
| HandwritingRoute.RepairIdempotent | src/app/api/handwriting/route.ts:59-65 | repairing a repaired reply changes nothing |
| HandwritingRoute.SurroundingProseRemoved | src/app/api/handwriting/route.ts:62-65 | prose without "{" before the object, and prose without "}" after it, are cut away |
| HandwritingRoute.FencedReplyExample | src/app/api/handwriting/route.ts:62-65 | a ```json fence around an object is removed |
| HandwritingRoute.Post | src/app/api/handwriting/route.ts:6-77 | no file gives 400 "No file uploaded"; a model or parse error gives 500 with its message or the default; success gives 200 with `success: true` followed by the parsed fields of the repaired reply |
| HandwritingRoute.ParsedFieldsOverride | src/app/api/handwriting/route.ts:69 | parsed fields are copied and win over `success: true` |
| SpeechRoute.KeepsLeadingChar | src/app/api/speech/route.ts:48-49 | a first character that does not start the pattern survives the removal |
| SpeechRoute.FenceAt | src/app/api/speech/route.ts:49 | a fence prefix is three backticks |
| SpeechRoute.TicksAt | src/app/api/speech/route.ts:49 | a double-backtick prefix is two backticks |
| SpeechRoute.NoDoubleTickCreated | src/app/api/speech/route.ts:49 | removal does not create two backticks at the front |
| SpeechRoute.NoFenceAfterRemoval | src/app/api/speech/route.ts:49 | deleting every "```" leaves no "```" |
| SpeechRoute.Clean | src/app/api/speech/route.ts:47-50 | the cleaned reply holds no fence and has no edge whitespace |
| SpeechRoute.CleanUnchanged | src/app/api/speech/route.ts:47-50 | a fence-free reply without edge whitespace is unchanged |
| SpeechRoute.CleanIdempotent | src/app/api/speech/route.ts:47-50 | cleaning twice is cleaning once |
| SpeechRoute.DefaultReplyUnchanged | src/app/api/speech/route.ts:44-50 | the "{}" default passes through cleaning unchanged |
| SpeechRoute.ReplyText | src/app/api/speech/route.ts:44 | a missing or empty reply becomes "{}", and any other reply is kept |
| SpeechRoute.Post | src/app/api/speech/route.ts:8-77 | no file gives success false and "No audio file uploaded", with no explicit status; a thrown error gives 500; a parse failure gives the invalid-JSON body with the fence-free raw text; success gives `success` and `model` overridden by the parsed fields |
| SpeechRoute.MissingReplyIsEmptyObject | src/app/api/speech/route.ts:44 | a missing reply is handled exactly like an empty one, as "{}" |
| ColorPlates.MatchIgnoresEdgeWhitespace | src/app/color/page.tsx:35 | whitespace around the typed answer never changes the verdict |
| ColorPlates.ExactAnswerMatches | src/app/color/page.tsx:35 | an answer without edge whitespace matches exactly the plate's number |
| ColorPlates.PlateNumberIsCorrect | src/app/color/page.tsx:7-35 | typing a plate's own number is correct |
| ColorPlates.ResultText | src/app/color/page.tsx:36 | the entry holds "❌" exactly when the answer is wrong |
| ColorPlates.Grades | src/app/color/page.tsx:35-37 | one verdict per submitted answer |
| ColorPlates.GradesPointwise | src/app/color/page.tsx:35 | the verdict at each position grades that answer against that plate |
| ColorPlates.EntriesAppend | src/app/color/page.tsx:37 | appending a verdict text keeps results in step with the verdicts |
| ColorPlates.GradedAppend | src/app/api/color/route.ts:40-41 | grading the next answer keeps the verdicts in step with the answers |
| ColorPage.Summary | src/app/color/page.tsx:54-59 | no wrong entries give Excellent, one or two give slight, three or more give multiple mistakes |
| ColorPage.Misses | src/app/color/page.tsx:55 | the count of wrong verdicts is at most their number |
| ColorPage.WrongCountIsMisses | src/app/color/page.tsx:55 | counting "❌" entries counts the wrong verdicts |
| ColorPage.ColorTest.constructor | src/app/color/page.tsx:16-21 | plate 0, empty input and results, no feedback, 7 seconds |
| ColorPage.ColorTest.HandleNext | src/app/color/page.tsx:34-52 | appends one verdict entry and sets the matching feedback; clears the input; advances with 7 seconds, or finishes on the last plate |
| ColorPage.ColorTest.Tick | src/app/color/page.tsx:24-52 | at 0 the whole of `handleNext` runs: one graded entry, the matching feedback, an empty input, and the next plate with 7 seconds or, on the last plate, finished with the clock left at 0; otherwise one second passes and nothing else changes |
| ColorPage.ColorTest.PressNext | src/app/color/page.tsx:100-102 | the enabled button runs `handleNext` with its full new state, and an empty answer is only submitted once time is up |
| ColorPage.ColorTest.SetInput | src/app/color/page.tsx:94 | typing changes only the input |
| ColorPage.ColorTest.Restart | src/app/color/page.tsx:137-144 | back to plate 0 with empty input, results and feedback, not finished, 7 seconds |
| ColorPage.ColorTest.SummaryOfFinished | src/app/color/page.tsx:54-59 | the summary of a finished test follows the number of plates answered wrongly |
| ColorRoute.PlateSession.constructor | src/app/api/color/route.ts:20-24 | plate 0, empty input and results, 7 seconds |
| ColorRoute.PlateSession.HandleNext | src/app/api/color/route.ts:39-50 | appends one verdict entry, clears the input, and advances with 7 seconds or finishes |
| ColorRoute.PlateSession.Tick | src/app/api/color/route.ts:27-50 | at 0 the whole of `handleNext` runs: one graded entry, an empty input, and the next plate with 7 seconds or, on the last plate, finished; otherwise one second passes and nothing else changes |
| ColorRoute.PlateSession.PressNext | src/app/api/color/route.ts:90-92 | the enabled button runs `handleNext` with its full new state, and an empty answer is only submitted once time is up |
| ColorRoute.PlateSession.SetInput | src/app/api/color/route.ts:84 | typing changes only the input |
| ColorBlindnessPage.StepTotal | src/app/color-blindness/page.tsx:49-55 | a response adds one to exactly one counter when it is right or on a detecting plate, and nothing otherwise |
| ColorBlindnessPage.TallyBound | src/app/color-blindness/page.tsx:48-56 | correct plus all failure counts never exceed the number of responses |
| ColorBlindnessPage.ChooseTypeRules | src/app/color-blindness/page.tsx:64-66 | protan and deutan need a strict maximum; tritan needs one failure once neither has one; no type exactly when protan and deutan tie with no tritan failures |
| ColorBlindnessPage.TieIsTritan | src/app/color-blindness/page.tsx:64-66 | a three-way tie is reported as tritan |
| ColorBlindnessPage.RawScoreScaled | src/app/color-blindness/page.tsx:58 | the score divides by the plate count |
| ColorBlindnessPage.RawScoreThreshold | src/app/color-blindness/page.tsx:58-63 | the score is below 80 exactly when `100 * correct < 80 * plateCount` |
| ColorBlindnessPage.RawScoreRange | src/app/color-blindness/page.tsx:58 | with no more right answers than plates the score is between 0 and 100 |
| ColorBlindnessPage.EvaluateRules | src/app/color-blindness/page.tsx:58-70 | normal vision with type "None" exactly when at least 80% are right; below that the chosen type, and the result is "Possible <type> Color Vision Deficiency" (which reads "Possible None …" when no type is chosen); the score reported is the rounded percentage |
| ColorBlindnessPage.ServedPlatesThreshold | src/app/api/color-blindness/route.ts:4-10 | with the five served plates, vision is normal exactly when four or five answers are right |
| ColorBlindnessPage.UnroundedThreshold | src/app/color-blindness/page.tsx:63-70 | a score of 79.6 is reported as 80 and still flagged |
| ColorBlindnessPage.ColorBlindnessTest.constructor | src/app/color-blindness/page.tsx:5-17 | the fetched plates, plate 0, no answer or responses, 7 seconds |
| ColorBlindnessPage.ColorBlindnessTest.HandleNext | src/app/color-blindness/page.tsx:29-39 | appends exactly one response of the current plate and answer, clears the answer, resets the countdown, and advances or finishes |
| ColorBlindnessPage.ColorBlindnessTest.Tick | src/app/color-blindness/page.tsx:20-39 | at 0 the whole of `handleNext` runs: the response appended, the answer cleared, 7 seconds, and the next plate or finished; otherwise one second passes and nothing else changes |
| ColorBlindnessPage.ColorBlindnessTest.SetAnswer | src/app/color-blindness/page.tsx:94-100 | typing changes only the answer |
| ColorBlindnessPage.ColorBlindnessTest.Restart | src/app/color-blindness/page.tsx:120-126 | the responses are emptied and the countdown restarts on plate 0 |
| ColorBlindnessPage.ColorBlindnessTest.GetResult | src/app/color-blindness/page.tsx:42-71 | the `forEach` loop computes the tally of the responses, and the result is its evaluation over the plate count |
| ColorBlindnessPage.FinishedTallyBound | src/app/color-blindness/page.tsx:48-56 | a finished test counts at most one per plate |
| SpeechPage.GetFirstName | src/app/speech/page.tsx:26-30 | "User" for the empty identifier; otherwise a prefix without "@", cut at the first "@", or without "@" cut at the first space |
| SpeechPage.FirstNameCutsAtFirstAt | src/app/speech/page.tsx:28 | "a@b@c" gives "a" and "@x" gives the empty name, not "User" |
| SpeechPage.FirstNameBeforeAt | src/app/speech/page.tsx:28 | an identifier `name@rest` gives `name` whenever `name` has no "@" |
| SpeechPage.FirstNameBeforeSpace | src/app/speech/page.tsx:29 | an identifier without "@" gives its first word |
| SpeechPage.FirstNameIsPrefixBeforeSeparator | src/app/speech/page.tsx:27-29 | the name is free of the separator it was cut at |
| SpeechPage.FirstTruthy | src/app/speech/page.tsx:19 | the `\|\|` chain gives the first truthy field, or "" when none is truthy |
| SpeechPage.Identifier | src/app/speech/page.tsx:17-23 | an unparseable token, or one parsing to null, is used as is; otherwise the identifier is the token, "", or a string field |
| SpeechPage.Greet | src/app/speech/page.tsx:9-24 | a redirect exactly when there is no token or it is empty; otherwise the first name of the identifier |
| SpeechPage.UnparseableTokenUsedAsIs | src/app/speech/page.tsx:21-22 | a token that is not JSON greets by its own first name |
| SpeechPage.NoIdentifierGreetsUser | src/app/speech/page.tsx:19-27 | an object without a truthy identifier greets "User" |
| SpeechPage.IdentifierOrder | src/app/speech/page.tsx:19 | email wins over user, and a falsy email gives way to user |
| SpeechPage.EmailTokenGreets | src/app/speech/page.tsx:18-20 | a token with a string email greets by the email's first name |
| SpeechPage.NonStringIdentifierFallsBack | src/app/speech/page.tsx:20-22 | a truthy identifier that is not a string makes the cut throw, and the raw token is used |
| Middleware.AnyPrefix | middleware.ts:14 | `some(startsWith)` holds exactly when one route is a prefix of the path |
| Middleware.IsProtectedIff | middleware.ts:8-14 | a path is protected exactly when it starts with "/dashboard" or "/chat" |
| Middleware.ProtectedExamples | middleware.ts:8-14 | "/chatroom", "/dashboard2" and "/dashboard/reports" are protected; "/" and "/login" are not |
| Middleware.Decide | middleware.ts:10-28 | unprotected paths pass; protected paths pass exactly when the token verifies, and otherwise redirect to "/login" |
| Middleware.UnprotectedIgnoresToken | middleware.ts:14-27 | on an unprotected path neither the cookie nor the verifier matters |
| Middleware.MissingCookieIsEmptyToken | middleware.ts:15 | a missing cookie is verified as the empty token |

## Left out

- The generative-model calls are not modelled. This covers model construction, the
  pro-to-flash fallback, and building the prompt, the base64 payload and the form
  data: they are network or library calls. The reply text, or the message of what
  they threw, is an input of each `Post`.
- `JSON.parse` is an oracle `string -> Result<Json>`. Its grammar is not modelled.
- `SpreadFields`: only the fields of a parsed object are spread. Spreading a parsed
  array or string, which copies index keys, is not modelled. Key order of the response
  objects is not modelled either: bodies are maps.
- `EyeFeedback.Post`: the body fields are typed (`hits`, `misses`, `driftClicks` and
  `score` are integers, `reactionTimes` is a list of numbers). JavaScript coercion of
  fields of other types is not modelled. A body that cannot be read or destructured
  is `None`.
- `EyeTestRoute.Post`: a missing field compares as false, and other coercions are not
  modelled. A thrown error's absent message is modelled as the message given.
- `EyePage.GenerateTargets`: `Math.random` is a finite supplied sequence of draws. The
  result is `None` when the draws run out before eight targets are accepted. The
  source instead keeps drawing, with no bound.
- `Math.hypot` and `Math.sqrt`: distances are compared squared (`> 324`). The pointer
  distance of the eye-coordination page is an input.
- Floating point is exact real arithmetic. Rounding errors and NaN are not modelled.
- Strings are sequences of Unicode code points, while JavaScript strings are UTF-16 code
  units. Every pattern and index the modelled code uses is an ASCII or single-unit
  character, so that choice does not change any modelled result.
- `Date.now` and `startTime` are not modelled: reaction and fixation times are inputs.
- The fixation rounds of the eye-coordination page are modelled twice, because the code as
  written never leaves the fixation phase (see "## Findings"). The timers and the random
  letter are inputs of each round.
- The moving dot's random position is not modelled.
- Effects and timers are not modelled: `useEffect`, `setTimeout` and `setInterval`.
  The countdowns are the `Tick` methods. The effect that computes the eye-coordination
  results is folded into `ShowResults`.
- React's batching of state updates is not modelled. Each handler is one atomic method.
- `ColorBlindnessPage.ColorBlindnessTest.GetResult`: requires a non-empty plate list.
  The page renders only "Loading plates..." until plates arrive, so `getResult` is
  never reached without plates.
- The plate fetch is the constructor's argument. The served list is the
  `ServedPlates` fixture.
- `localStorage`, the router and rendering are left out. The token is a parameter of
  `SpeechPage.Greet`, and the result is a redirect or the name shown.
- `jwt.verify` is a boolean oracle, and the secret is not modelled.
- The login and register routes, the dashboard, layout, landing and handwriting upload
  pages, and the styling are not part of this model. They are persistence, I/O or UI.

The model records three behaviours of the code that may surprise a reader:

- the colour-blindness threshold uses the unrounded score (`UnroundedThreshold`);
- the colour page does not reset `timeLeft` when the last plate is submitted
  (`HandleNext` keeps it);
- the eye-coordination restart keeps the old `results` object (`Restart`).

## Findings

| source | as written | input that shows it | evidently intended | confidence | as-written member | corrected member |
|---|---|---|---|---|---|---|
| src/app/eye-test/page.tsx:41-63 | the round's timeout tests `target` from the closure of the render whose "Start Fixation Test" button was clicked; that button is shown only while `target` is null (lines 135-137), so the test at line 54 is always false | enter the fixation phase, click "Start Fixation Test", wait past 1200 ms, take any further action | each round records its response time and clears the letter; after five rounds the page shows the results | high (not executed) | EyeTestPage.EyeTestSession.FixationAsWritten | EyeTestPage.EyeTestSession.FixationIntended |
