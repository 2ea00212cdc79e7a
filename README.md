# Mock-interview backend: session handlers and accuracy analytics

This project models the backend core of an AI-assisted mock technical interview
application, written in Dafny and verified.

- **Session handlers.** Users start an interview on one of nine topics, answer
  AI-generated questions, and have those answers AI-graded.
- **Rollup update.** Every graded answer updates a per-(user, topic) Analytics
  rollup: counters, accuracy, and three difficulty buckets.
- **Read side.** The read side sums the rollups into a summary. It also buckets
  the user's interviews of the last 30 days by week label into a progress trend.

Modules:

- `Records`: the Interview, Question, Answer and Analytics documents, their
  schema defaults and enumerations, and the rollup invariant.
- `AnalyticsUpdate`: the rollup update rule of `updateAnalytics`, a replay of a
  sequence of graded answers, and the rollup collection with one rollup per
  (user, topic).
- `InterviewController`: the record store (class `Store`) and the handlers
  `startInterview`, `submitAnswer`, `getNextQuestion`, `endInterview`,
  `getInterviewDetails` and `updateAnalytics`. It also holds the catch-block
  error classifier and the question/answer join.
- `AnalyticsController`: `getUserAnalytics` and `getProgressTrends`, including
  the week label and the label sort.
- `Calendar`: proleptic Gregorian days, `getFullYear`, and the ISO 8601 week
  number that `getISOWeek` follows. A timestamp is in milliseconds; day 0 is
  1 January 1970.
- `Text`: substring search (`includes`), number formatting, `padStart`, and
  the code-unit order that `sort()` uses.
- `Wrappers`: `Option` and `Result`.

The question generator and the answer evaluator are parameters. Each is a function that
returns either a parsed reply or the error message it failed with. Percentages
are exact rationals (`real`).

Behaviour of the code that the model keeps:

- Progress trends are week buckets keyed `YYYY-Www`, not one point per
  interview.
- Labels are sorted as strings, and the year in a label is the calendar year,
  not the ISO week-year. So 1 January 2021 is labelled "2021-W53" and sorts
  after "2021-W01" (`AnalyticsController.CalendarYearLabel`).
- No handler checks an interview's owner (except the details view) or its
  status. A completed interview still accepts questions and answers.
- `totalQuestions` starts at 1 when an interview starts. It then grows by one
  per issued follow-up question and by one per graded answer.

## Model

| member | source | states |
|---|---|---|
| Records.ParseDifficulty | backend/models/Interview.js:6 | The difficulty enum accepts exactly "Easy", "Medium" and "Hard" |
| Records.ParseDifficultyRoundTrip | backend/models/Interview.js:6 | A string parses to difficulty d exactly when it is d's stored name |
| Records.NewInterview | backend/models/Interview.js:4-9 | A new interview is active with both counters zero and keeps its owner, topic, difficulty and creation time |
| Records.NewRollup | backend/models/Analytics.js:3-14 | A new rollup belongs to its (user, topic), with zero counters, zero accuracy and three empty buckets |
| Records.NewRollupInv | backend/models/Analytics.js:5-12 | A new rollup already satisfies the rollup invariant |
| Records.AsciiLower | backend/controllers/interviewController.js:250 | `toLowerCase` on ASCII letters keeps the length. What it gives on the stored names is stated by `LowerCaseNameIsBucket` |
| Records.LowerCaseNameIsBucket | backend/controllers/interviewController.js:250-252 | `toLowerCase()` of each stored difficulty is one of the three bucket keys, and different difficulties pick different buckets |
| Records.AccuracyBounds | backend/controllers/interviewController.js:248 | A part's percentage of its whole is in [0, 100], and times the whole it gives 100 times the part |
| Records.RollupAccuracyBounds | backend/controllers/interviewController.js:246-248 | A valid rollup's accuracy is a percentage, and times the total it gives 100 times the correct count |
| AnalyticsUpdate.RecordAnswerEffect | backend/controllers/interviewController.js:246-254 | One graded answer adds 1 to the total, adds 1 to the correct count iff correct, and moves only its own difficulty's bucket. Accuracy stays in [0, 100] and the invariant holds |
| AnalyticsUpdate.BumpDifficultyEffect | backend/controllers/interviewController.js:250-252 | Bumping a difficulty adds the answer to its own bucket only, so the bucket totals grow by 1 and the bucket correct counts by 1 iff correct |
| AnalyticsUpdate.ReplayFromFresh | backend/controllers/interviewController.js:238-259 | After N answers with K correct, a fresh rollup holds total N, correct K, accuracy K/N*100 (0 if N = 0), and per-bucket counts of each difficulty's answers |
| AnalyticsUpdate.FindRollup | backend/controllers/interviewController.js:240 | `findOne` returns the first rollup of the (user, topic) pair, or none exactly when no rollup has that pair |
| AnalyticsUpdate.RecordAnswer | backend/controllers/interviewController.js:246-254 | The rollup after one graded answer. What it changes is stated by `RecordAnswerEffect` |
| AnalyticsUpdate.RecordInStore | backend/controllers/interviewController.js:240-255 | The rollups after one graded answer is saved: the pair's rollup updated in place, or a new one appended. What it changes is stated by `RecordInStoreEffect` |
| AnalyticsUpdate.RecordInStoreEffect | backend/controllers/interviewController.js:240-255 | Recording keeps every rollup valid and pairs unique. An existing pair's rollup is updated by one answer where it stands. A new pair gets a fresh rollup, counted once, appended at the end. Every other rollup is unchanged and in place |
| InterviewController.ClassifyError | backend/controllers/interviewController.js:46-55 | The catch block answers 401, 429 or 500, and only the generic 500 carries the raw error text |
| InterviewController.ClassifierPriority | backend/controllers/interviewController.js:46-55 | 401 iff the message mentions "API key", "401" or "400". 429 iff it mentions "429" and not those. Parse failure iff it mentions bad JSON and neither of the others. Otherwise the generic 500 |
| InterviewController.ContextNeverDemotes | backend/controllers/interviewController.js:95-104 | Surrounding an error message with more text never lowers its classification |
| InterviewController.IsValidTopic | backend/controllers/interviewController.js:11-12 | A topic is accepted when it is one of the nine listed names. Its properties are stated by `TopicWhitelist` |
| InterviewController.TopicWhitelist | backend/controllers/interviewController.js:11-14 | Nine distinct topics are accepted by exact match. "Ruby" and "javascript" are refused |
| InterviewController.DifficultyNamedLikeStatusIsAuth | backend/controllers/interviewController.js:16-47 | A difficulty "400" fails enum validation, and its validation message is classified as an invalid API key (401) |
| InterviewController.QuestionsOf | backend/controllers/interviewController.js:199 | `Question.find({ interview_id })` keeps exactly the interview's questions, each as often as it is stored |
| InterviewController.FirstAnswerBy | backend/controllers/interviewController.js:200-206 | The requester's earliest answer to a question, or none exactly when the requester never answered it |
| InterviewController.FindInQuery | backend/controllers/interviewController.js:200-206 | Filtering by question ids and requester, then taking the first match, gives the requester's earliest answer |
| InterviewController.DetailOf | backend/controllers/interviewController.js:207-217 | A details entry copies the question fields. Its four answer fields are null exactly when there is no answer, and otherwise come from the answer |
| InterviewController.JoinDetails | backend/controllers/interviewController.js:205-218 | One entry per question in question order, each joined with the requester's earliest answer to it |
| InterviewController.ApplyAnswer | backend/controllers/interviewController.js:246-254 | The field-by-field edit of a fetched or new rollup yields exactly the rollup after one graded answer (`RecordAnswer`) |
| InterviewController.Store.StartInterview | backend/controllers/interviewController.js:7-57 | 400 for an unlisted topic. A bad difficulty goes through the classifier with nothing saved: an empty one with the schema's "required" message, any other with its "not a valid enum value" message. Otherwise the interview (totalQuestions 1) is saved first; then a generator failure or empty text is classified, or the question is saved and its ids and text returned |
| InterviewController.Store.SubmitAnswer | backend/controllers/interviewController.js:59-106 | 404 for an unknown question. An evaluator failure is classified. Otherwise the answer is stored and the interview's counters are bumped (correct only if correct), the rollup is recorded (unless its save fails) and the grade returned. A missing interview gives a classified TypeError after the answer is stored |
| InterviewController.Store.UpdateAnalytics | backend/controllers/interviewController.js:238-259 | The rollups become the recorded collection when the save succeeds and stay unchanged when it fails. The store stays valid |
| InterviewController.Store.GetNextQuestion | backend/controllers/interviewController.js:108-151 | 404 for an unknown interview. A generator failure or empty text is classified with nothing saved. Otherwise the question is appended, totalQuestions grows by one, and its ids and text are returned |
| InterviewController.Store.EndInterview | backend/controllers/interviewController.js:153-172 | 404 for an unknown interview. Otherwise only its status becomes completed and the updated interview is returned. Ending twice changes nothing |
| InterviewController.Store.GetInterviewDetails | backend/controllers/interviewController.js:187-236 | 404 "not found or not authorized" exactly when the interview is absent or owned by someone else. Otherwise the interview with one entry per question, each with the requester's earliest answer |
| Text.Contains | backend/controllers/interviewController.js:46-54 | `includes`: the pattern occurs at some position. Its properties are stated by `ContainsAppend` and `ContainsPrepend` |
| Text.ContainsAppend | backend/controllers/interviewController.js:46 | A substring of s is a substring of s followed by more text |
| Text.ContainsPrepend | backend/controllers/interviewController.js:46 | A substring of s is a substring of more text followed by s |
| Text.TwoDigits | backend/controllers/analyticsController.js:79 | Every week number 1..99, zero-padded, is exactly two digits |
| Text.LexLessIrreflexive | backend/controllers/analyticsController.js:90 | The string order of `sort()` is irreflexive |
| Text.LexLessTransitive | backend/controllers/analyticsController.js:90 | The string order of `sort()` is transitive |
| Text.LexLessTotal | backend/controllers/analyticsController.js:90 | Any two different strings are ordered one way or the other |
| Calendar.DayNumber | backend/controllers/analyticsController.js:6-7 | The day a timestamp falls on: the day's first millisecond is at or before it, and the next day's first millisecond after it |
| Calendar.YearLength | backend/controllers/analyticsController.js:77 | A year has 366 days if it is a leap year and 365 otherwise |
| Calendar.LeapStep | backend/controllers/analyticsController.js:77 | Moving from year y-1 to y adds one to the leap-year count exactly when y is a leap year |
| Calendar.YearStartMonotone | backend/controllers/analyticsController.js:77 | Each later year starts at least 365 days per year later |
| Calendar.YearOf | backend/controllers/analyticsController.js:77 | `getFullYear`: the year whose span holds the day |
| Calendar.YearOfUnique | backend/controllers/analyticsController.js:77 | That year is the only one whose span holds the day |
| Calendar.YearSpansDisjoint | backend/controllers/analyticsController.js:77 | No day lies in the spans of two different years |
| Calendar.ThursdayOf | backend/controllers/analyticsController.js:8 | The day `getISOWeek` moves to is the Thursday of its Monday-to-Sunday week |
| Calendar.WeeksBetween | backend/controllers/analyticsController.js:10 | The rounded week count equals the exact number of weeks between Thursdays plus one, in 1..53 |
| Calendar.IsoWeek | backend/controllers/analyticsController.js:5-11 | The week number: the weeks from the first Thursday of the year the day's Thursday falls in. Its properties are stated by `IsoWeekIn`, `IsoWeekInRange`, `Jan4InWeekOne` and `SameWeekSameNumber` |
| Calendar.IsoWeekIn | backend/controllers/analyticsController.js:5-11 | The week number of a day is counted from its week's Thursday and from the year that Thursday falls in |
| Calendar.WeeksInYear | backend/controllers/analyticsController.js:8-10 | Within its own year, a Thursday's week count is in 1..53 and is one more than the weeks since the year's first Thursday |
| Calendar.IsoWeekInRange | backend/controllers/analyticsController.js:5-11 | `getISOWeek` returns a week number from 1 to 53 |
| Calendar.FirstThursday | backend/controllers/analyticsController.js:8-10 | The first Thursday on or after 1 January lies in the same year |
| Calendar.Jan4InWeekOne | backend/controllers/analyticsController.js:5-11 | 4 January of every year is in week 1 |
| Calendar.SameWeekSameNumber | backend/controllers/analyticsController.js:5-11 | Days of one Monday-to-Sunday week share their week number |
| AnalyticsController.UserRollups | backend/controllers/analyticsController.js:15 | `Analytics.find({ user_id })` keeps exactly the user's rollups, each as often as it is stored |
| AnalyticsController.CountInterviews | backend/controllers/analyticsController.js:18 | `countDocuments({ user_id })`: the number of the user's interviews. `GetUserAnalytics` reports it |
| AnalyticsController.GetUserAnalytics | backend/controllers/analyticsController.js:13-62 | The interview count is the user's. The overall accuracy is summed correct over summed total (0 when empty). One topic entry per rollup, in order. Each difficulty aggregate holds its bucket sums and their accuracy |
| AnalyticsController.SumRollups | backend/controllers/analyticsController.js:31-46 | The loop over the rollups yields the summed totals, one topic entry per rollup in order, and the bucket-wise sums |
| AnalyticsController.AddStats | backend/controllers/analyticsController.js:43-46 | Each bucket of the sum holds the two buckets' totals and correct counts added |
| AnalyticsController.WeightedSum | backend/controllers/analyticsController.js:31-50 | Over valid rollups, summed correct is at most summed total, and the accuracies weighted by totals sum to 100 times summed correct |
| AnalyticsController.ValidIsWeighted | backend/controllers/interviewController.js:246-248 | Every valid rollup has no more correct answers than answers, and its accuracy times its total is 100 times its correct count |
| AnalyticsController.WeightedMean | backend/controllers/analyticsController.js:50 | For such rollups, the overall accuracy times the summed total equals the sum of the accuracies weighted by their totals |
| AnalyticsController.BucketSums | backend/controllers/analyticsController.js:43-46 | Over valid rollups, the three difficulty aggregates add up to the summed total and the summed correct |
| AnalyticsController.BucketCorrectAtMostTotal | backend/controllers/analyticsController.js:43-46 | Over valid rollups, each difficulty aggregate has no more correct answers than answers |
| AnalyticsController.OverallIsWeightedMean | backend/controllers/analyticsController.js:50 | The overall accuracy is the per-topic accuracies' mean weighted by question counts, and lies in [0, 100] |
| AnalyticsController.DifficultyAggregatesSplitTotals | backend/controllers/analyticsController.js:43-56 | The difficulty aggregates split the overall counts, and each has an accuracy in [0, 100] |
| AnalyticsController.OverallIsNotMeanOfTopics | backend/controllers/analyticsController.js:31-50 | 7/10 and 1/5 give an overall 160/3 %, not the 45 % mean of the topic accuracies |
| AnalyticsController.WeekKey | backend/controllers/analyticsController.js:76-79 | An instant's label: its calendar year, "-W" and its zero-padded week number. Its form is stated by `WeekKeyShape` |
| AnalyticsController.WeekKeyShape | backend/controllers/analyticsController.js:76-79 | A label is the year, "-W", and exactly two digits, with the week in 1..53 |
| AnalyticsController.NewYearsDay2021 | backend/controllers/analyticsController.js:77-78 | 1 January 2021 has calendar year 2021 and ISO week 53 |
| AnalyticsController.FourthOfJanuary2021 | backend/controllers/analyticsController.js:77-78 | 4 January 2021 has calendar year 2021 and ISO week 1 |
| AnalyticsController.NewYearsDayLabel | backend/controllers/analyticsController.js:76-79 | Every instant of 1 January 2021 is labelled "2021-W53" |
| AnalyticsController.FourthOfJanuaryLabel | backend/controllers/analyticsController.js:76-79 | Every instant of 4 January 2021 is labelled "2021-W01" |
| AnalyticsController.CalendarYearLabel | backend/controllers/analyticsController.js:76-90 | An instant t of 1 January 2021 is labelled "2021-W53". An instant u of the following Monday is labelled "2021-W01". So t comes before u, yet t's label sorts after u's |
| AnalyticsController.RecentInterviews | backend/controllers/analyticsController.js:68-71 | Keeps exactly the user's interviews created at or after the window start, each as often as it is stored |
| AnalyticsController.Observations | backend/controllers/analyticsController.js:75-79 | One (label, correct, total) entry per interview, in order |
| AnalyticsController.ObservedFrom | backend/controllers/analyticsController.js:75-79 | Every observed label is the label of some interview |
| AnalyticsController.ObservedAs | backend/controllers/analyticsController.js:75-79 | Every interview is observed under its own label |
| AnalyticsController.AddTo | backend/controllers/analyticsController.js:81-86 | One interview added to `trendsMap`. Its effect is stated by `AddToKeys`, `AddToDistinct` and `AddToCounts` |
| AnalyticsController.Tally | backend/controllers/analyticsController.js:73-87 | The `forEach` over the interviews' observations. Its result is stated by `TallySpec` |
| AnalyticsController.AddToKeys | backend/controllers/analyticsController.js:81-83 | Adding to the tally creates the label if absent and keeps every other label |
| AnalyticsController.AddToDistinct | backend/controllers/analyticsController.js:81-83 | Adding to the tally never duplicates a label |
| AnalyticsController.AddToCounts | backend/controllers/analyticsController.js:81-86 | Adding to the tally adds both counters to its label and changes no other label's counts |
| AnalyticsController.CountsOfMember | backend/controllers/analyticsController.js:85-86 | In a tally with distinct labels, each entry holds the counts stored under its label |
| AnalyticsController.TallySpec | backend/controllers/analyticsController.js:73-87 | After the loop, labels are distinct. A label is present iff some interview carries it. Its counts are the sums over those interviews |
| AnalyticsController.TallyInterviews | backend/controllers/analyticsController.js:73-87 | The loop builds exactly the tally of the interviews' observations |
| AnalyticsController.SortByKey | backend/controllers/analyticsController.js:89-90 | `Object.keys(trendsMap).sort()`. Its result is stated by `SortByKeySpec` |
| AnalyticsController.InsertSorted | backend/controllers/analyticsController.js:89-90 | Inserting a new label into a strictly sorted tally keeps it strictly sorted and adds exactly that entry |
| AnalyticsController.SortByKeySpec | backend/controllers/analyticsController.js:89-90 | Sorting a tally with distinct labels gives a permutation of it in strictly increasing label order |
| AnalyticsController.SortedEntries | backend/controllers/analyticsController.js:89-93 | Every sorted entry is an observed label holding that label's summed counts |
| AnalyticsController.SortedCovers | backend/controllers/analyticsController.js:89-90 | Every observed label has a sorted entry |
| AnalyticsController.KeyAbsentAfterSort | backend/controllers/analyticsController.js:89-90 | A label missing from the tally is missing from the sorted tally |
| AnalyticsController.Points | backend/controllers/analyticsController.js:91-94 | One point per sorted entry, in order, with its label and accuracy |
| AnalyticsController.TrendsSorted | backend/controllers/analyticsController.js:89-94 | The points come in strictly increasing label order |
| AnalyticsController.TrendsAccurate | backend/controllers/analyticsController.js:75-94 | Each point is an observed label, with the accuracy of that label's summed counts |
| AnalyticsController.TrendsComplete | backend/controllers/analyticsController.js:75-94 | Every observed label has a point |
| AnalyticsController.TrendsSpec | backend/controllers/analyticsController.js:89-94 | The series keeps every promise of `IsTrendsOf`: strictly increasing labels, only and all observed labels, and each point's accuracy is its label's summed correct over summed total |
| AnalyticsController.UnderPermutation | backend/controllers/analyticsController.js:75-86 | A label's summed counts do not depend on the order of the observations |
| AnalyticsController.SortedPointsEqual | backend/controllers/analyticsController.js:89-94 | Two series that are both strictly ordered by label and hold the same points are equal |
| AnalyticsController.TrendsOfUnique | backend/controllers/analyticsController.js:73-94 | At most one series meets `IsTrendsOf` for given observations |
| AnalyticsController.TrendsOfPermutation | backend/controllers/analyticsController.js:73-94 | A series meeting `IsTrendsOf` for some observations meets it for them in any order |
| AnalyticsController.ObservationsPermutation | backend/controllers/analyticsController.js:75-79 | Interviews in another order give the same observations in another order |
| AnalyticsController.TrendsIgnoreOrder | backend/controllers/analyticsController.js:68-94 | The series is the same for the interviews in any order, so the fetch's `createdAt` sort does not affect it |
| AnalyticsController.TrendsPoints | backend/controllers/analyticsController.js:75-94 | Each point is the label of some recent interview, with the accuracy of that label's sums |
| AnalyticsController.TrendsCover | backend/controllers/analyticsController.js:75-94 | Every recent interview's label has a point |
| AnalyticsController.GetProgressTrends | backend/controllers/analyticsController.js:64-100 | The result is the series of the observations of the user's interviews of the last 30 days, and `IsTrendsOf` holds of it. So labels strictly increase, there is one point per observed label, and each point's accuracy is that label's summed correct over summed total (0 when empty) |

## Left out

- The question generator and answer evaluator (backend/utils/gemini.js) are not part of
  this model. They are parameters that return a parsed reply or an error
  message. Replies with a non-boolean `is_correct`, a non-numeric score or a
  missing ideal answer are not modelled.
- backend/models/Answer.js is not part of this model. The Answer record
  carries the fields that `submitAnswer` writes.
- `getInterviewHistory` (the ten newest interviews) is left out. It is a
  plain store query with no logic of its own.
- Authentication, routing, the frontend and the HTTP layer are left out. The
  requester is a `UserId` parameter, and a response is a `Result` value.
- Concurrency is left out. Each handler runs to completion before the next
  one starts. Lost updates to one rollup between interleaved requests are
  therefore not modelled.
- Floating point is left out. Accuracy is an exact rational, so rounding in
  `correct / total * 100` is not modelled.
- Time zones are left out. Local time is read as UTC.
- Calendar.IsoWeek: for the years 0 to 99, `new Date(year, 0, 4)` reads the
  year as 1900 + year, which the model does not copy. Timestamps beyond the
  range of a JavaScript `Date` (8.64e15 ms either side of 1970) are not
  excluded either.
- The current time is a parameter `now`, not a clock read.
- Failures of the store itself are left out (a lost connection, a write
  that is refused). The failures the handlers meet in the code are modelled:
  the schema's refusal of a difficulty, the refusal of an empty question
  text, the TypeError on an answer whose interview no longer exists, and the
  rollup save, which is the `saved` parameter of `Store.UpdateAnalytics` and
  is logged and swallowed.
- Document ids are positions in the store's sequences. The `timestamps`
  option's `updatedAt` is not kept.
- `.sort({ createdAt: 1 })` in `getProgressTrends` is not modelled. The
  series does not depend on the interviews' order (`TrendsIgnoreOrder`).
- Strings are sequences of `char`. `toLowerCase` is modelled on ASCII only,
  which covers the three stored difficulty names.
- AnalyticsController.GetProgressTrends: the week part of its contract is
  stated over `Observations` of the recent interviews. The link to each
  interview's `WeekKey` is proved separately, by `TrendsPoints`,
  `TrendsCover`, `ObservedFrom` and `ObservedAs`.
