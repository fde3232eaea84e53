# Quiz session engine, modelled and proved in Dafny

The application runs a timed multiple-choice quiz. A quiz has a title, an
optional description, an optional time limit in minutes, and questions. Each
question has option texts, the index of the correct option and an optional
explanation. A session goes through these steps:

- It starts with every answer null and every per-question time 0.
- It records answers and moves between questions.
- It counts down one second per tick.
- It finishes by classifying every question as correct, incorrect or
  unattempted and deriving percentage, accuracy, total and average time.

Results are also shown on a review page, a history page and a results page. A
quiz can be shared as a link whose `quiz` parameter is
`btoa(encodeURIComponent(JSON.stringify(quiz)))`.

The engine exists twice:

- **The store** (`src/store/quizStore.js`). One state record is updated by
  actions. It is modelled as the value `QuizStore.StoreState`, with one
  transition function per action and lemmas about those functions. The
  `QuizStore.Store` class has the record's fields, and each of its methods is
  proved to make exactly the transition of its action.
- **The vanilla script** (`script.js`). The same engine runs on module-level
  variables, with the answers and times in arrays written in place. It is
  modelled as `VanillaScript.Script`, a class with `array` fields.

The React pages add pure helpers, modelled as functions:

- scoring and answering on the typed quiz page (a class, `QuizPageTsx.QuizAttempt`)
- the clock display, the timer badge, the tick guard and answer handling on
  the untyped quiz page
- option and question status and the bounded review cursor on the solutions page
- the two upload validators and their sample quizzes
- the history aggregates and bands
- the results page's performance levels

Modules:

- `Common`: JavaScript numbers after `Math.round` (`Num`, with NaN and
  infinities), exact round-half-up and sums.
- `QuizModel`: the quiz data.
- `Scoring`: the classification loop shared by every version.
- `Json`: parsed JSON values with JavaScript truthiness.
- `ShareToken`: percent-encoding as in section 2.1 of RFC 3986, base64 as in
  section 4 of RFC 4648 with the forgiving `atob` decoder, and the
  `application/x-www-form-urlencoded` reading of a query by `URLSearchParams`.

Modelling conventions:

- `Date.now()` is an integer argument `now` in milliseconds.
- `Math.floor(ms / 1000)` is Dafny's `/`, which rounds down for a positive divisor.
- `Math.round(a / b)` is the exact integer `(2a + b) / (2b)`.
- A `setInterval` or `setTimeout` callback is an explicit method call.

Three behaviours of the code are easy to miss. The model follows the code in
each:

- **Finishing twice.** `completeQuiz` has no phase guard
  (src/store/quizStore.js:85-137), so a second call pushes a second history
  entry. See `QuizStore.CompleteTwiceAppendsTwice`.
- **Time at expiry.** The tick at zero calls `completeQuiz`
  (src/store/quizStore.js:156-157). That totals `timePerQuestion` as it stands
  (line 106). Only `nextQuestion` writes the time of the question on screen
  (lines 60-62), so that time is not recorded. See `QuizStore.ExpiryKeepsTimes`.
- **Expiry on the untyped quiz page.** The page schedules a tick only while
  `timeLeft !== 0` (src/pages/QuizPage.jsx:44-52). The store's completion
  branch at src/store/quizStore.js:156-157 is therefore never reached from that
  page, and a timed quiz there never ends by itself. See Findings.

## Model

| member | source | states |
|---|---|---|
| Common.RoundHalfUp | src/store/quizStore.js:104-107 | the integer r with 2·den·r ≤ 2·num + den < 2·den·r + 2·den, i.e. `Math.round(num/den)` for den > 0 |
| Common.RoundHalfUpUnique | src/store/quizStore.js:104 | that bracket determines the rounded value uniquely |
| Common.PercentInRange | src/store/quizStore.js:104-105 | a rounded percentage of a part of a whole lies in [0, 100] |
| Common.JsRound | src/store/quizStore.js:107 | `Math.round(num/den)` including den = 0: finite iff den > 0, NaN iff 0/0, otherwise an infinity of the numerator's sign |
| Common.RoundDiv | src/pages/HistoryPage.jsx:33 | dividing a JavaScript number by a positive count and rounding: finite exactly when the number is, NaN and infinities pass through |
| Common.SumUpdate | src/store/quizStore.js:106 | overwriting one slot of a list changes its sum by the difference in that slot |
| Common.Sum | src/store/quizStore.js:106 | `reduce((a, b) => a + b, 0)` over a time list; `Common.SumNonNegative`, `Common.SumUpdate` and `Common.SumOfZeros` state its properties |
| Common.SumOfZeros | src/store/quizStore.js:41 | a freshly zero-filled time list sums to 0 |
| QuizModel.TimeLimitSeconds | src/store/quizStore.js:34 | a truthy limit gives limit·60 seconds, an absent or zero limit 0, and 0 exactly for an untimed quiz |
| Scoring.Classify | src/store/quizStore.js:93-101 | correct iff the answer equals the correct index, incorrect iff non-null and different, unattempted iff null |
| Scoring.TallyOf | src/store/quizStore.js:89-101 | the three counters after the `forEach` over the quiz's questions; `Scoring.TallyPartition` proves they add up to the question count, and `Scoring.CountOutcomes` proves the loop computes them |
| Scoring.CountUpTo | src/store/quizStore.js:89-101 | the number of the first k questions in one class is at most k |
| Scoring.CountsPartition | src/store/quizStore.js:89-101 | over any prefix the three class counts add up to its length |
| Scoring.TallyPartition | src/store/quizStore.js:89-103 | correct + incorrect + unattempted = the number of questions |
| Scoring.CountMonotone | script.js:446-451 | a longer prefix never has a smaller count |
| Scoring.CountPrefix | src/store/quizStore.js:93-101 | counts over a prefix depend only on the answers in that prefix |
| Scoring.UnansweredTally | src/store/quizStore.js:38 | all-null answers: every question unattempted, none correct or incorrect |
| Scoring.CountOutcomes | script.js:384-396 | the `forEach` loop with three counters computes exactly the three class counts |
| Scoring.RunningScore | script.js:446-451 | the review loop counts the correct answers at indices 0..cursor, at most cursor + 1 |
| Scoring.Accuracy | src/store/quizStore.js:105 | 0 when nothing was attempted, otherwise round(100·correct/(correct+incorrect)), always in [0, 100] |
| QuizStore.Score | src/store/quizStore.js:103-119 | the results record built from the tally, the time list and the clock; `QuizStore.ScoreProperties` states what it promises |
| QuizStore.SetQuiz | src/store/quizStore.js:29 | the current quiz replaced and every other field kept; `QuizStore.Store.SetCurrentQuiz` performs it |
| QuizStore.Start | src/store/quizStore.js:33-47 | the fresh session of `startQuiz`; `QuizStore.StartFreshSession` states its fields and that the history is kept |
| QuizStore.Record | src/store/quizStore.js:49-54 | the copy-write of one answer slot; `QuizStore.AnswerTouchesOneSlot` and `QuizStore.AnswerLastWriteWins` state its effect |
| QuizStore.Next | src/store/quizStore.js:56-73 | the time of the question left recorded and the index moved on, or completion on the last question; `QuizStore.NextEffect` states both branches |
| QuizStore.Previous | src/store/quizStore.js:75-83 | one step back above index 0 with the clock restarted; `QuizStore.PreviousEffect` states it |
| QuizStore.Complete | src/store/quizStore.js:85-138 | the results, the flags and the capped history push of `completeQuiz`; `QuizStore.CompleteEffect` states them |
| QuizStore.Reset | src/store/quizStore.js:140-150 | the session cleared, the history kept; `QuizStore.ResetKeepsHistory` states it |
| QuizStore.Tick | src/store/quizStore.js:152-159 | the three branches of `updateTimer`; `QuizStore.TickEffect` states them |
| QuizStore.ScoreProperties | src/store/quizStore.js:89-119 | counts partition the questions; percentage in [0, 100] (NaN for no questions); accuracy 0 when nothing attempted; totalTime is the sum of the times; avgTime is that over the count, rounded |
| QuizStore.PushCapped | src/store/quizStore.js:136 | the new history has min(old + 1, 10) entries, the new one first, then the old head entries in order |
| QuizStore.FullHistoryEvictsOldest | src/store/quizStore.js:136 | a full history drops exactly its oldest entry and stays at 10 |
| QuizStore.StartFreshSession | src/store/quizStore.js:33-47 | start sizes both lists to the quiz, all null and all 0, index 0, active, not completed, no results, countdown TimeLimitSeconds, history untouched |
| QuizStore.CompleteRightAfterStart | src/store/quizStore.js:85-119 | finishing at once scores every question unattempted, accuracy 0, total time 0 |
| QuizStore.AnswerTouchesOneSlot | src/store/quizStore.js:49-54 | answering changes slot q only; the length, the other slots and every other field stay |
| QuizStore.AnswerLastWriteWins | src/store/quizStore.js:49-54 | answering one question twice keeps the second answer |
| QuizStore.NextEffect | src/store/quizStore.js:56-73 | before the last question: index + 1, current slot overwritten with floor of the elapsed seconds, other slots kept, clock restarted; on the last: exactly `completeQuiz` with the slot not updated |
| QuizStore.PreviousEffect | src/store/quizStore.js:75-83 | decrements only above 0 and restarts the clock; at 0 nothing changes; answers and times never change |
| QuizStore.NavigationKeepsShape | src/store/quizStore.js:56-83 | next and previous keep the index in [0, n − 1] |
| QuizStore.CompleteEffect | src/store/quizStore.js:85-138 | results are the score of the current answers and times, active false, completed true, and the history is the capped push of the new entry |
| QuizStore.CompleteTwiceAppendsTwice | src/store/quizStore.js:85-137 | two completions push two entries with the same score |
| QuizStore.ResetKeepsHistory | src/store/quizStore.js:140-150 | reset clears the session and leaves the history exactly as it was |
| QuizStore.TickEffect | src/store/quizStore.js:152-159 | active with time left: exactly one second less; active at 0: completes; inactive or negative: nothing |
| QuizStore.UntimedLooksExpired | src/store/quizStore.js:152-157 | an untimed quiz starts at timeLeft 0 (line 34), so one tick completes it |
| QuizStore.ExpiryKeepsTimes | src/store/quizStore.js:156-157 | completion by the timer keeps the time list unchanged, and totalTime is its sum |
| QuizStore.ActionsPreserveValid | src/store/quizStore.js:33-159 | every action keeps the history at most 10 entries and every stored result consistent |
| QuizStore.CompleteValid | src/store/quizStore.js:85-138 | completion keeps that invariant |
| QuizStore.SampleQuiz | src/store/quizStore.js:166-239 | the sample has 8 questions of 4 options, each correct index among them, and a 5-minute limit |
| QuizStore.Store.constructor | src/store/quizStore.js:8-21 | the initial record |
| QuizStore.Store.SetCurrentQuiz | src/store/quizStore.js:29 | replaces the current quiz only |
| QuizStore.Store.StartQuiz | src/store/quizStore.js:33-47 | the new record is `Start` of the old one |
| QuizStore.Store.AnswerQuestion | src/store/quizStore.js:49-54 | the new record is `Record` of the old one |
| QuizStore.Store.NextQuestion | src/store/quizStore.js:56-73 | the new record is `Next` of the old one |
| QuizStore.Store.PreviousQuestion | src/store/quizStore.js:75-83 | the new record is `Previous` of the old one |
| QuizStore.Store.CompleteQuiz | src/store/quizStore.js:85-138 | the counting loop and the statistics give `Complete` of the old record |
| QuizStore.Store.ResetQuiz | src/store/quizStore.js:140-150 | the new record is `Reset` of the old one |
| QuizStore.Store.UpdateTimer | src/store/quizStore.js:152-159 | the new record is `Tick` of the old one |
| OptionView.OptionVariant | src/pages/QuizPage.tsx:105-119 | without feedback exactly the selected option is 'selected' and the rest 'default'; with feedback the correct option is 'correct', a wrong selection 'incorrect', the rest 'default' |
| OptionView.SelectionMarksOneOption | src/pages/QuizPage.jsx:84-98 | at most one option is 'selected' and at most one 'incorrect' |
| OptionView.FeedbackMarksChoice | src/pages/QuizPage.tsx:105-119 | a correct choice shows no 'incorrect'; a wrong one shows itself 'incorrect' and the right one 'correct' |
| SolutionsPage.GetOptionStatus | src/pages/SolutionsPage.jsx:54-62 | 'correct' iff the correct option regardless of the answer, 'incorrect' iff the chosen wrong option; the same as the quiz page's rule with feedback on |
| SolutionsPage.AtMostOneIncorrect | src/pages/SolutionsPage.jsx:58-61 | at most one option is 'incorrect', and none for a null answer |
| SolutionsPage.HeaderStatus | src/pages/SolutionsPage.jsx:89-111 | exactly one of Correct, Incorrect, Skipped, each iff the scoring class agrees |
| SolutionsPage.DotColor | src/pages/SolutionsPage.jsx:253-262 | current first, then correct, incorrect, skipped as the header would say |
| SolutionsPage.DotsAgreeWithScore | src/pages/SolutionsPage.jsx:253-262 | the dots coloured correct before the cursor are as many as the correct answers there |
| SolutionsPage.Review.constructor | src/pages/SolutionsPage.jsx:25 | the review opens on question 0 of the store it reads |
| SolutionsPage.Review.NextQuestion | src/pages/SolutionsPage.jsx:42-46 | forward by one but not past n − 1; the store is not changed |
| SolutionsPage.Review.PreviousQuestion | src/pages/SolutionsPage.jsx:48-52 | back by one but not below 0; the store is not changed |
| SolutionsPage.Review.Jump | src/pages/SolutionsPage.jsx:253 | a dot click moves to that question; the store is not changed |
| SolutionsPage.Review.CurrentStatus | src/pages/SolutionsPage.jsx:89-111 | the header status of the question under the cursor |
| QuizPageJsx.Digits | src/pages/QuizPage.jsx:78-82 | decimal digits of a number, one digit iff below 10, two iff 10 to 99 |
| QuizPageJsx.PadStart2 | src/pages/QuizPage.jsx:80-81 | `padStart(2, '0')`: at least two characters, ending with the input |
| QuizPageJsx.DigitsRoundTrip | src/pages/QuizPage.jsx:78-82 | reading the digits back gives the number |
| QuizPageJsx.PaddedDigits | src/pages/QuizPage.jsx:80-81 | padding does not change the value read back |
| QuizPageJsx.FormatTime | src/pages/QuizPage.jsx:78-82 | `formatTime`: floor minutes and truncating remainder, each padded to two places; `QuizPageJsx.FormatTimeRoundTrip`, `QuizPageJsx.FormatTimeWidth` and `QuizPageJsx.FormatTimeNegative` state what it shows |
| QuizPageJsx.ParseClock | src/pages/QuizPage.jsx:81 | a reader of the `mm:ss` display, written independently of `formatTime` so that `QuizPageJsx.FormatTimeRoundTrip` can read the display back |
| QuizPageJsx.FormatTimeRoundTrip | src/pages/QuizPage.jsx:78-82 | for s ≥ 0 the clock reads back as (s div 60, s mod 60), with 60·mins + secs = s and secs < 60 |
| QuizPageJsx.FormatTimeWidth | src/pages/QuizPage.jsx:78-82 | the clock is 5 characters for 0 ≤ s < 6000 |
| QuizPageJsx.FormatTimeNegative | src/pages/QuizPage.jsx:78-82 | JavaScript's truncating `%` and no padding of a signed value give "-1:-5" for −5 |
| QuizPageJsx.TimerBadge | src/pages/QuizPage.jsx:116-121 | error iff under 60 seconds, warning iff 60 to 299, primary iff 300 or more |
| QuizPageJsx.BadgeMonotone | src/pages/QuizPage.jsx:116-121 | less time never gives a calmer badge |
| QuizPageJsx.TickScheduled | src/pages/QuizPage.jsx:44-52 | the effect's guard: a tick is scheduled iff the quiz is active and `timeLeft !== 0`; `QuizPageJsx.NoTickAtZero` and `QuizPageJsx.TimedQuizNeverExpires` state its consequence |
| QuizPageJsx.UntimedNeverTicks | src/pages/QuizPage.jsx:44-52 | no tick is scheduled for an untimed quiz |
| QuizPageJsx.NoTickAtZero | src/pages/QuizPage.jsx:44-52 | the tick from 1 reaches 0 and leaves the quiz active, and then no tick is scheduled |
| QuizPageJsx.RunCountdownAsWritten | src/pages/QuizPage.jsx:44-52 | as written: the countdown stops at 0 after timeLeft seconds with the quiz still active and nothing else changed |
| QuizPageJsx.TimedQuizNeverExpires | src/pages/QuizPage.jsx:44-52 | as written: a started timed quiz counts down to an active, uncompleted state |
| QuizPageJsx.RunCountdown | src/pages/QuizPage.jsx:44-52 | corrected guard: a timed active quiz completes after timeLeft + 1 seconds, with exactly the store's completion |
| QuizPageJsx.ExpiryCompletesOnce | src/pages/QuizPage.jsx:44-52 | under the corrected guard expiry completes once: completed, inactive, no further tick scheduled, the score of the answers given, one history entry pushed |
| QuizPageJsx.OnQuestion | src/pages/QuizPage.jsx:58 | the index the page reads `currentQuiz.questions[currentQuestionIndex]` at is a question of the quiz; the answer handlers require it |
| QuizPageJsx.HandleAnswerSelect | src/pages/QuizPage.jsx:62-76 | records the answer at the current index, then completes on the last question and moves on otherwise |
| QuizPageJsx.AnswerThenAdvance | src/pages/QuizPage.jsx:62-76 | the answer stays recorded for its question; before the last question the page is on the next one, on the last the quiz is completed |
| QuizPageJsx.PressNext | src/pages/QuizPage.jsx:261-263 | with an answer selected the button performs the store's `nextQuestion` |
| QuizPageJsx.FinishIsNextOnLast | src/store/quizStore.js:64-72 | next on the last question is completion |
| QuizPageTsx.TsxScoreProperties | src/pages/QuizPage.tsx:74-103 | counts partition the questions, percentage in [0, 100] and equal to the store's for the same answers, totalTime the wall time given |
| QuizPageTsx.TsxScore | src/pages/QuizPage.tsx:74-103 | the typed page's results record; `QuizPageTsx.TsxScoreProperties` states what it promises |
| QuizPageTsx.WallSeconds | src/pages/QuizPage.tsx:75-76 | the whole-attempt time is the elapsed milliseconds over 1000, rounded |
| QuizPageTsx.QuizAttempt.constructor | src/pages/QuizPage.tsx:26-30 | index 0, answers all null and as many as questions, nothing selected, clock started |
| QuizPageTsx.QuizAttempt.CompleteQuiz | src/pages/QuizPage.tsx:74-103 | the counting loop hands on exactly the score of the given answers |
| QuizPageTsx.QuizAttempt.HandleAnswerSelect | src/pages/QuizPage.tsx:56-72 | only the current slot of a copy is written; the step captured for the delay completes on the last question and advances otherwise |
| QuizPageTsx.QuizAttempt.FeedbackElapsed | src/pages/QuizPage.tsx:62-71 | after the delay: completes with the captured answers on the last question, else index + 1 |
| QuizPageTsx.QuizAttempt.Previous | src/pages/QuizPage.tsx:246 | max(0, i − 1): never negative, answers kept |
| QuizPageTsx.QuizAttempt.Next | src/pages/QuizPage.tsx:263-276 | enabled only with a selection; completes on the last question, else index + 1 |
| QuizPageTsx.QuizAttempt.Submit | src/pages/QuizPage.tsx:257 | completes with the current answers from any index |
| QuizPageTsx.AnswerEveryQuestion | src/pages/QuizPage.tsx:56-72 | answering every question in turn scores exactly those answers, none unattempted |
| QuizPageTsx.NoneUnattempted | src/pages/QuizPage.tsx:78-90 | with every answer non-null nothing counts as unattempted |
| Json.Member | src/pages/UploadPage.jsx:65-75 | reading a property throws on null and undefined, gives the field or undefined on an object, undefined otherwise |
| Json.Truthy | src/pages/UploadPage.jsx:65 | JavaScript truthiness, which the validators' `!x` tests use: false, 0, the empty string, null and undefined are falsy |
| UploadPageJsx.ValidateQuestions | src/pages/UploadPage.jsx:70-75 | the loop with its early throw accepts iff every question has truthy text, an options array and a numeric correct answer |
| UploadPageJsx.QuizShapeOk | src/pages/UploadPage.jsx:65-67 | the quiz-level test: a truthy title and an array of questions |
| UploadPageJsx.QuestionOk | src/pages/UploadPage.jsx:70-75 | the per-question test: truthy question text, an array of options and a numeric correct answer |
| UploadPageJsx.ValidJsx | src/pages/UploadPage.jsx:65-75 | both tests; `UploadPageJsx.ValidateQuestions` proves the loop decides it, `UploadPageJsx.ValidJsxIsLoose` and `UploadPageJsx.QuizValueValid` state what passes |
| UploadPageJsx.ValidJsxIsLoose | src/pages/UploadPage.jsx:65-75 | an empty question list passes, and so does a correct answer outside the options |
| UploadPageJsx.QuizValueValid | src/pages/UploadPage.jsx:65-75 | any quiz with a title and question texts passes |
| UploadPageJsx.UploadPage.GenerateShareLink | src/pages/UploadPage.jsx:91-99 | the token is btoa(encodeURIComponent(JSON.stringify(quiz))) |
| UploadPageJsx.UploadPage.HandleFile | src/pages/UploadPage.jsx:52-89 | a non-`.json` name is refused first; unparsable or invalid content changes nothing; a valid object goes unchanged to preview, store and share token |
| UploadPageJsx.UploadPage.HandleTrySample | src/pages/UploadPage.jsx:101-107 | the JSON value of the store's typed sample goes to preview, store and token, and would pass validation; the display-only fields it lacks are listed under Left out |
| UploadPageTsx.HandleFile | src/pages/UploadPage.tsx:42-68 | refused by name iff not `.json`, by the parse iff it fails, started iff a truthy title and a questions array, with the object unchanged |
| UploadPageTsx.ValidTsx | src/pages/UploadPage.tsx:55 | the typed page's only test: a truthy title and an array of questions; `UploadPageTsx.JsxStricterThanTsx` and `UploadPageTsx.TsxAcceptsWhatJsxRejects` compare it with the untyped page's |
| UploadPageTsx.JsxStricterThanTsx | src/pages/UploadPage.tsx:55 | everything the untyped page accepts the typed page accepts |
| UploadPageTsx.TsxAcceptsWhatJsxRejects | src/pages/UploadPage.tsx:55 | a question list holding a null passes the typed test only |
| UploadPageTsx.TrySample | src/pages/UploadPage.tsx:70-93 | two questions, each correct index among its 4 options, untimed, passing the test |
| HistoryPage.AverageScore | src/pages/HistoryPage.jsx:32-34 | 0 for an empty history, otherwise the rounded mean of the percentages |
| HistoryPage.PercentSum | src/pages/HistoryPage.jsx:33 | the `reduce` of the percentages from the left, in JavaScript number addition; `HistoryPage.PercentSumBounds` and `HistoryPage.NaNPoisonsAverage` state its properties |
| HistoryPage.TotalQuestions | src/pages/HistoryPage.jsx:37 | the `reduce` of the question counts; `HistoryPage.CorrectAtMostQuestions` bounds the correct count by it |
| HistoryPage.TotalCorrect | src/pages/HistoryPage.jsx:38 | the `reduce` of the correct counts; `HistoryPage.CorrectAtMostQuestions` and `HistoryPage.HistoryTotals` bound it |
| HistoryPage.AverageInRange | src/pages/HistoryPage.jsx:32-34 | finite and in [0, 100] when every percentage is |
| HistoryPage.NaNPoisonsAverage | src/pages/HistoryPage.jsx:32-34 | one NaN percentage (a quiz without questions) makes the average NaN |
| HistoryPage.CorrectAtMostQuestions | src/pages/HistoryPage.jsx:37-38 | the total correct is at most the total questions when each entry's is |
| HistoryPage.HistoryTotals | src/pages/HistoryPage.jsx:37-38 | that holds for every history the store can hold |
| HistoryPage.PerformanceColor | src/pages/HistoryPage.jsx:20-24 | success iff ≥ 80, warning iff ≥ 60 and below 80, error otherwise (NaN included) |
| HistoryPage.PerformanceIcon | src/pages/HistoryPage.jsx:26-30 | trophy iff ≥ 80, target iff ≥ 60 and below 80, trending-up otherwise |
| HistoryPage.IconMatchesColor | src/pages/HistoryPage.jsx:20-30 | icon band and colour band always agree |
| ResultsPage.PerformanceLevel | src/pages/ResultsPage.tsx:39-45 | Excellent iff ≥ 90, Very Good iff 80 to 89, Good iff 70 to 79, Fair iff 60 to 69, Needs Improvement iff below 60 |
| ResultsPage.LevelMonotone | src/pages/ResultsPage.tsx:39-45 | a higher percentage never gives a lower level |
| ResultsPage.ToneAgreesWithHistory | src/pages/ResultsPage.tsx:39-45 | the level's colour is the history page's colour for the same percentage |
| ResultsPage.AvgTime | src/pages/ResultsPage.tsx:48 | finite and round(totalTime/totalQuestions) when there are questions, NaN or infinite otherwise |
| ResultsPage.ResultsView | src/pages/ResultsPage.tsx:23-48 | the fallback iff results or quiz is missing, otherwise level and average time |
| ResultsPage.AttemptAverageFinite | src/pages/ResultsPage.tsx:48 | results from the quiz page always give a finite average |
| ShareToken.B64Value | script.js:659 | a base64 character's alphabet index, below 64, naming that character |
| ShareToken.Group | script.js:154 | three bytes as four 6-bit values |
| ShareToken.Ungroup | script.js:659 | four 6-bit values as three bytes |
| ShareToken.Base64Encode | script.js:154 | `btoa` output, padded with '=' to a multiple of four characters |
| ShareToken.StripWhitespace | script.js:659 | no ASCII whitespace is left in the decoder's input, and the result is no longer than the input |
| ShareToken.StripWhitespaceAppend | script.js:659 | stripping works piecewise, so the characters that are not whitespace are kept in order |
| ShareToken.Atob | script.js:659 | forgiving `atob`: whitespace skipped, padding optional, None for a length of 1 modulo 4 or a character outside the alphabet; `ShareToken.Base64RoundTrip` inverts `ShareToken.Base64Encode` with it |
| ShareToken.Base64RoundTrip | script.js:659 | `atob(btoa(b)) == b` for every byte string |
| ShareToken.PercentEncode | script.js:154 | `encodeURIComponent` of the UTF-8 bytes gives ASCII only |
| ShareToken.PercentRoundTrip | script.js:659 | `decodeURIComponent(encodeURIComponent(t)) == t` |
| ShareToken.PercentDecode | script.js:659 | `decodeURIComponent` as bytes, None for a `%` without two hex digits; `ShareToken.PercentRoundTrip` inverts `ShareToken.PercentEncode` with it |
| ShareToken.PercentDecodeOffUtf8 | script.js:659 | the two inputs where it parts from `decodeURIComponent`: a lone `%FF` is taken as the byte 255, and an unescaped `é` is refused |
| ShareToken.HandMadeTokenDecodes | script.js:659 | the token `JUZG`, which `atob` reads as `%FF`, decodes to the byte 255 here, where the source's `decodeURIComponent` throws and the error is caught |
| ShareToken.EncodeToken | script.js:152-153 | `btoa(encodeURIComponent(json))`; `ShareToken.TokenRoundTrip` states that `ShareToken.DecodeToken` inverts it |
| ShareToken.DecodeToken | script.js:659 | `decodeURIComponent(atob(token))`, None where either throws |
| ShareToken.TokenRoundTrip | script.js:659-660 | decoding a token gives back exactly the JSON text it was made from |
| ShareToken.RawTokenInLinkLosesData | src/App.jsx:17-22 | as written: the text `~~~` gives token `fn5+`, and the link reads back `~~` |
| ShareToken.PlusReadsAsSpace | script.js:654-655 | `URLSearchParams` reads the query value `fn5+` as `fn5 ` |
| ShareToken.FormDecode | script.js:654-655 | how `URLSearchParams` reads a query value: `+` is a space and `%XX` below 0x80 its character; `ShareToken.PlusReadsAsSpace` and `ShareToken.EncodedTokenInLinkRoundTrip` use it |
| ShareToken.LinkValue | script.js:154 | the query value with the token percent-encoded, which the link evidently needs; `ShareToken.EncodedTokenInLinkRoundTrip` reads it back |
| ShareToken.EncodedTokenInLinkRoundTrip | script.js:153-155 | corrected: with the token percent-encoded in the link the JSON text comes back exactly |
| VanillaScript.ReportProperties | script.js:380-403 | counts partition the questions, percentage in [0, 100], accuracy in [0, 100] and 0 when nothing was attempted, avgTime the rounded mean of the times |
| VanillaScript.ScriptReport | script.js:380-403 | the figures the results screen shows, the store's `Score` without its timestamp; `VanillaScript.ReportProperties` states what they promise |
| VanillaScript.SecondsSince | script.js:298 | floor of the elapsed milliseconds over 1000 |
| VanillaScript.Charged | script.js:296-302 | after a redisplay at i > 0 slot i − 1 holds the seconds since the last redisplay and every other slot is kept; at 0 nothing is written |
| VanillaScript.ChargedSum | script.js:296-302 | a redisplay changes the total time by the difference in the one slot written |
| VanillaScript.Script.constructor | script.js:40-49 | the variables as the page loads |
| VanillaScript.Script.GenerateShareLink | script.js:148-158 | nothing without a quiz, otherwise only the token changes |
| VanillaScript.Script.HandleFileUpload | script.js:116-138 | a parsed file becomes the quiz with its token and preview; a failed parse changes nothing |
| VanillaScript.Script.CheckForSharedQuiz | script.js:653-667 | a parameter that decodes and parses becomes the quiz and opens the preview; otherwise nothing changes |
| VanillaScript.Script.ShowResults | script.js:380-424 | the counting loop and the summing loop show exactly the report of the arrays, and the interval is cleared |
| VanillaScript.Script.UpdateTimer | script.js:283-294 | at or below 0 the results are shown and the interval cleared, otherwise exactly one second less |
| VanillaScript.Script.ShowQuestion | script.js:296-302 | charges the previous slot as `Charged` says and restarts the clock, nothing else |
| VanillaScript.Script.BeginSession | script.js:258-263 | the preview is closed, both arrays are new and of the quiz's length, all null answers and all 0 times, index 0 and the clock at `now`; nothing else changes |
| VanillaScript.Script.StartTimer | script.js:267-270 | countdown limit·60, ticked at once: limit·60 − 1 left, or the results at once for a limit of 0 seconds or less; then the interval runs |
| VanillaScript.Script.StartQuiz | script.js:258-281 | answers all null and times all 0 in new arrays of the quiz's length, index 0, the countdown as `StartTimer` says when the limit is truthy and untouched otherwise |
| VanillaScript.Script.SelectOption | script.js:352-355 | writes the current slot, then the redisplay charges the slot before it |
| VanillaScript.Script.ShowNextQuestion | script.js:357-368 | before the last question index + 1 and the question left is charged; on the last, its slot is charged and the results shown |
| VanillaScript.Script.ShowPreviousQuestion | script.js:370-378 | index − 1 only above 0, and the redisplay charges the slot two before the question left |
| VanillaScript.Script.ShowSolution | script.js:426-452 | the running score is the correct count over 0..cursor, at most cursor + 1, and the final correct count on the last question |
| VanillaScript.Script.ShowSolutions | script.js:426-430 | the review opens at question 0 with its running score |
| VanillaScript.Script.ShowNextSolution | script.js:506-515 | the cursor moves forward but stays in [0, n − 1]; on the last question the results page returns |
| VanillaScript.Script.ShowPreviousSolution | script.js:517-524 | the cursor moves back only above 0 |
| VanillaScript.Script.UseSampleQuiz | script.js:208-256 | the sample becomes the quiz with its token and starts with 179 seconds left |
| VanillaScript.RunClock | script.js:283-294 | a running countdown takes exactly timeLeft + 1 ticks and ends with the results of the arrays, whose contents it never changes |
| VanillaScript.SampleRunsOut | script.js:214-294 | an untouched sample session ends after 180 ticks with all 5 questions unattempted and accuracy 0 |
| VanillaScript.ShareThenOpen | script.js:653-667 | a quiz shared through a percent-encoded link opens as the same quiz whenever its JSON text parses back to it |
| VanillaScript.SampleQuiz | script.js:214-250 | five questions of 4 options, each correct index among them, a 3-minute limit |

## Left out

- Rendering, animation, charts, printing, clipboard, social sharing and page
  switching. The model keeps only the state these read or write, and the
  vanilla script's shown page as a `Page` value.
- `setInterval` and `setTimeout`. Each tick or delayed step is an explicit
  method call.
- Concurrency. Another event between a tick and its successor, or between
  an answer and its delayed step, is not modelled.
- `JSON.parse` and `JSON.stringify`. They are parameters: a parse result or a
  parse function, and a function to bytes. Parse results without the quiz's
  shape are not modelled, so neither is the `TypeError` they would cause later:
  `VanillaScript.Script.HandleFileUpload` takes an already typed quiz.
- JSON numbers are whole numbers. A fractional `correctAnswer` is not modelled.
- The upload pages hold the parsed JSON value. The engine works on the typed
  `Quiz`, and the conversion between the two is not modelled.
- UploadPageJsx.UploadPage.HandleTrySample: the typed `Quiz` keeps only the
  title, description and time limit, and for each question its text, options,
  correct answer and explanation. The object `getSampleQuiz` returns also has
  `id`, `difficulty` and `category` (src/store/quizStore.js:166-171), and each
  of its questions an `id` and a `difficulty` (lines 174-179 for the first).
  These fields are only displayed, never read by the engine. The sample's JSON
  value here, and so the text its share token is made from, lacks them.
- Common.RoundHalfUp: `Math.round` of a floating-point ratio is the exact
  integer rounding; IEEE arithmetic can differ at exact half-way ratios, such
  as `(c/t)*100` on the typed quiz page.
- Common.JsRound: the same exact rounding, with NaN and the infinities for a
  zero divisor.
- ShareToken.PercentEncode: JSON text is taken as the bytes of its UTF-8
  encoding, which is not modelled.
- ShareToken.PercentDecode: works on bytes, so it does not check that the
  escapes form UTF-8. It takes every `%XX` as its byte, so the lone `%FF` gives
  the byte 255 where `decodeURIComponent` throws, and the hand-made token `JUZG`
  (which `atob` reads as `%FF`) decodes here where the source catches an error.
  It refuses an unescaped character above 0x7F, which `decodeURIComponent`
  keeps, so a token whose `atob` output holds such a Latin-1 character fails
  here where the source passes it on to `JSON.parse`. Tokens made by
  `ShareToken.EncodeToken` hold neither case. `ShareToken.PercentDecodeOffUtf8`
  and `ShareToken.HandMadeTokenDecodes` state the differences.
- ShareToken.FormDecode: decodes only escapes below 0x80.
- The zustand `persist` layer and `localStorage`.
- The store's `completedAt` is the clock value, not an ISO string.
- Writes outside a JavaScript array's length, which extend it, are excluded
  by the preconditions on indices.
- `VanillaScript.Script.StartQuiz` requires a quiz with questions. With none,
  `showQuestion` throws after the interval has already started.
- Only one interval is modelled, as a flag. A second `startQuiz` while an
  interval runs leaks the first one in the script. The leaked interval is not
  modelled.
- Replacing the quiz during a running session (an upload while the interval
  runs) is not modelled. The session methods require arrays sized to the
  current quiz.
- The solutions page with a quiz of no questions. It indexes question 0 and
  throws; the review requires a question under the cursor.
- The typed quiz page hook calls before its guard for a missing quiz.
- Navigation on the quiz pages after completion.
- A negative time limit in the store: the countdown neither ticks nor
  completes. `QuizStore.TickEffect` states this as "nothing".
- `totalQuizzes` on the history page is the history's length.

## Findings

| source | as written | input that shows it | evidently intended | confidence | as-written member | corrected member |
|---|---|---|---|---|---|---|
| src/pages/QuizPage.jsx:44-52 | the tick interval is scheduled only while `isQuizActive && timeLeft !== 0`, so it stops at 0 and the store's `updateTimer` never reaches its completion branch | a quiz with `timeLimit: 1` left alone: timeLeft falls 60, 59, …, 0 and the quiz stays active and uncompleted forever | the tick scheduled while a timed quiz is active, so the tick at 0 completes it | not executed | QuizPageJsx.RunCountdownAsWritten | QuizPageJsx.RunCountdown |
| script.js:153-154 | the base64 token goes raw into the `?quiz=` query, and `URLSearchParams` reads its '+' as a space | JSON text `~~~` gives token `fn5+`; the link reads back as `fn5 `, which decodes to `~~` | the token percent-encoded in the link, so it reads back exactly | not executed | ShareToken.RawTokenInLinkLosesData | ShareToken.EncodedTokenInLinkRoundTrip |
