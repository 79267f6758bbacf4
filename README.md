# Activity tracker scoring engine, modelled in Dafny

This project models the scoring and weekly-aggregation engine of a personal
daily-activity tracker, and proves properties of the model. The modelled source is `src/lib/domain/` of the tracker.

- **Activity catalog** (`activities.dfy`, module `Activities`).
  - The twenty activities, each with its category, point value and repeatable flag.
  - The training cap (63) and the lifestyle cap (45).
  - Keys and categories are enum datatypes. Points, category and repeatability are total functions on keys.
- **Day scorer** (`scoring.dfy`, module `Scoring`).
  - Two loops compute per-category sums. The first goes over the completion flags and the second over the stored counts. Both are methods proved equal to a specification function: a sum over the catalog's keys.
  - The minimum-effective-dose (MED) gate has separate normal and deload rules.
  - The training and lifestyle ratings use fixed band thresholds.
  - `ComputeDayScores` assembles the `DayScores` record: raw sums, capped totals, total points, MED, daily win and the two ratings.
- **Weekly aggregator** (`weekly.dfy`, module `Weekly`).
  - The win streak and the consistency streak are backward loops over sorted inputs.
  - The deload decision is computed from a week's days and its resolved earlier weeks. Its reasons are scheduled, fatigued days and high average.
  - The weekly summary and the weekly rating. Deload halves the thresholds.
  - The oldest-to-newest fold feeds each resolved week into the next week's deload decision. Its result is returned newest first.
- **Sequence helpers** (`seqs.dfy`, module `Seqs`).
  - The comparator sort, modelled as a stable insertion sort.
  - The trailing-run count behind both streaks and the scheduled-deload counter.
  - A fold that keeps its history.
  - Sums and the arithmetic mean.

Modelling choices:

- An ISO date or week start is an `int`. Only its order is used.
- A day log holds two maps: `completed` (key to boolean) and `counts` (key to integer).
- A count is sanitised to `max(0, count)`.
- Weekly thresholds and the mean are exact `real` values. Lemmas restate the halved thresholds as doubling the points, and the three-week mean above 350 as a sum above 1050.

## Model

| member | source | states |
|---|---|---|
| Activities.Definition | src/lib/domain/activities.ts:6-153 | the catalog entry found for a key is the entry for that key |
| Activities.AllKeys | src/lib/domain/types.ts:12-32 | the key list has twenty elements, in the order of the key union |
| Activities.Catalog | src/lib/domain/activities.ts:6-153 | the catalog has one entry per key, in key order, each the definition of its key |
| Activities.Points | src/lib/domain/activities.ts:6-153 | every activity is worth a positive number of points |
| Activities.CatalogIsOneToOne | src/lib/domain/activities.ts:6-153 | the catalog has 20 entries with pairwise distinct keys, and every key of the union occurs in it |
| Activities.RepeatableKeys | src/lib/domain/activities.ts:35-61 | the repeatable flag (IsRepeatable): a key is repeatable exactly when it is easy, medium or hard conditioning; every repeatable key is in category conditioning |
| Activities.MedKeysCategories | src/lib/domain/activities.ts:7-82 | the keys read by the MED rules are in the mobility, strength and conditioning categories |
| Activities.LifestyleNotRepeatable | src/lib/domain/activities.ts:97-152 | no nutrition or miscellaneous activity is repeatable |
| Activities.LifestylePointsEqualCap | src/lib/domain/activities.ts:97-152 | the nutrition and miscellaneous points of the catalog add up to exactly the lifestyle cap, 45 |
| Activities.KeyAtColumns | src/lib/domain/activities.ts:6-153 | the category (CategoryOf) and points (Points) looked up for the key at each catalog position are the values written at that position |
| Activities.CatalogPointsAgree | src/lib/domain/activities.ts:6-153 | summing a category's points over the catalog keys equals summing the catalog's category and points columns |
| Activities.CatalogTrainingPrefix | src/lib/domain/activities.ts:7-96 | the first twelve entries carry no nutrition or miscellaneous points |
| Activities.CatalogLifestylePoints | src/lib/domain/activities.ts:97-152 | nutrition is worth 28 points over the catalog and miscellaneous 17 |
| Seqs.Insert | src/lib/domain/weekly.ts:18 | inserting adds exactly the one element: one more element and the same multiset plus it |
| Seqs.ConsSorted | src/lib/domain/weekly.ts:18 | a head no larger than the first element of a sorted tail gives a sorted sequence |
| Seqs.InsertSorted | src/lib/domain/weekly.ts:18 | inserting into a key-ordered sequence keeps it key-ordered |
| Seqs.SortBy | src/lib/domain/weekly.ts:18 | sorting permutes its input: same length and same multiset |
| Seqs.SortByIsSorted | src/lib/domain/weekly.ts:18 | the sort's result is in non-decreasing key order |
| Seqs.SortBySorted | src/lib/domain/weekly.ts:18 | sorting an already ordered sequence returns it unchanged |
| Seqs.TrailingRunTo | src/lib/domain/weekly.ts:20-24 | the backward count over a prefix is at most the prefix length |
| Seqs.TrailingRun | src/lib/domain/weekly.ts:20-24 | the backward count is at most the length of the sequence |
| Seqs.TrailingRunToIsLongest | src/lib/domain/weekly.ts:20-24 | within a prefix, every counted element satisfies the test and the first uncounted one fails it |
| Seqs.TrailingRunIsLongestSuffix | src/lib/domain/weekly.ts:20-24 | the count is the length of the longest suffix satisfying the test: all of it satisfies the test, and the element before it fails |
| Seqs.TrailingRunToAtLeast | src/lib/domain/weekly.ts:20-24 | if the last k elements of a prefix satisfy the test, the count is at least k |
| Seqs.TrailingRunAtLeast | src/lib/domain/weekly.ts:20-24 | if the last k elements satisfy the test, the count is at least k |
| Seqs.TrailingRunLastThree | src/lib/domain/weekly.ts:68-78 | three trailing elements that satisfy the test give a count of at least three |
| Seqs.TrailingRunToStep | src/lib/domain/weekly.ts:20-24 | one backward step of the count: an element that fails the test ends the run, and one that passes extends it by one |
| Seqs.FoldWithHistory | src/lib/domain/weekly.ts:97-114 | the fold yields one result per input element |
| Seqs.FoldWithHistoryPrefix | src/lib/domain/weekly.ts:97-114 | later elements never change earlier results |
| Seqs.FoldWithHistoryAt | src/lib/domain/weekly.ts:97-114 | each result is the step applied to its element and to all earlier results |
| Seqs.FoldWithHistorySnoc | src/lib/domain/weekly.ts:97-114 | one more element appends exactly the step's result for it |
| Seqs.LastNotInPrefix | src/lib/domain/scoring.ts:41-69 | helper of Scoring.KeySumPointwise over the per-key sums: in a sequence without repeats (the catalog keys), no element occurs before its own position |
| Seqs.CountTo | src/lib/domain/scoring.ts:41-69 | helper of Scoring.KeySumPointwise over the per-key sums: a value occurs at most n times among n elements |
| Seqs.CountToDistinct | src/lib/domain/scoring.ts:41-69 | helper of Scoring.KeySumPointwise over the per-key sums: in a sequence without repeats, a key occurs once in a prefix that holds it and never otherwise |
| Seqs.Average | src/lib/domain/weekly.ts:49-52 | the mean of an empty list is 0; otherwise the mean times the length is the sum |
| Seqs.AverageOfThreeExceeds | src/lib/domain/weekly.ts:87 | for three numbers, the mean exceeds b exactly when the sum exceeds 3b |
| Scoring.SanitizedCountClamps | src/lib/domain/scoring.ts:64 | sanitising keeps a non-negative count unchanged and turns a negative one into 0 |
| Scoring.CategoryTotals.Add | src/lib/domain/scoring.ts:45 | adding to one category changes that category by exactly the amount and leaves the others alone |
| Scoring.CategoryTotals.Plus | src/lib/domain/scoring.ts:122-128 | each category of the combined record is the sum of that category in both records |
| Scoring.KeyPoints | src/lib/domain/scoring.ts:41-69 | an entry is never worth negative points, because counts are sanitised |
| Scoring.KeySumTo | src/lib/domain/scoring.ts:41-69 | a category's points over a key prefix are never negative |
| Scoring.KeySum | src/lib/domain/scoring.ts:41-69 | a category's points over the keys are never negative |
| Scoring.KeySumToPointwise | src/lib/domain/scoring.ts:41-69 | when two days differ only at key k, and k occurs at most once in the prefix, their category sums differ by k's difference, or by 0 |
| Scoring.KeySumPointwise | src/lib/domain/scoring.ts:41-69 | over keys without repeats, two days that differ only at k have sums that differ by exactly k's difference in k's category, and by nothing elsewhere |
| Scoring.EntryTotalsPointwise | src/lib/domain/scoring.ts:41-69 | two days' tallies, when they differ only at k, differ by k's difference added to k's category |
| Scoring.KeySumToOfNothing | src/lib/domain/scoring.ts:30-36 | a category none of whose entries is worth anything sums to 0 over a prefix |
| Scoring.KeySumOfNothing | src/lib/domain/scoring.ts:30-36 | a category none of whose entries is worth anything sums to 0 |
| Scoring.EmptyEntriesTotalZero | src/lib/domain/scoring.ts:30-36 | an empty map gives the all-zero record the loops start from |
| Scoring.CompletedEntryContribution | src/lib/domain/scoring.ts:41-46 | a completion flag contributes its activity's points to its category when true, and 0 when false or absent |
| Scoring.CountEntryContribution | src/lib/domain/scoring.ts:63-69 | a stored count contributes points times count to its category when positive, and 0 when it is not positive or absent |
| Scoring.KeyPointsWithEntries | src/lib/domain/scoring.ts:41-69 | restricting a map to a key set keeps the worth of keys inside it and zeroes the others |
| Scoring.WithEntriesStep | src/lib/domain/scoring.ts:41-69 | visiting one more entry adds exactly that entry's worth to its category: this is the loops' invariant step |
| Scoring.SumNonRepeatables | src/lib/domain/scoring.ts:29-49 | the loop over the flags, in any map order, returns NonRepeatableTotals: the catalog sum of the completed activities' points per category |
| Scoring.SumRepeatables | src/lib/domain/scoring.ts:51-72 | the loop over the counts, in any map order, returns RepeatableTotals: the catalog sum of points times sanitised count per category |
| Scoring.MedMetPillars | src/lib/domain/scoring.ts:78-99 | MED (ComputeMedMet) in a normal week holds exactly when limber 11 or simple 6, push or pull, legs, and some easy, medium or hard conditioning are all present; under deload exactly when limber 11 or simple 6, any one of push, pull or legs, and easy conditioning are present. Each pillar is needed in its mode, and the full normal dose meets MED in either mode |
| Scoring.MedNeedsMobility | src/lib/domain/scoring.ts:81-98 | without limber 11 or simple 6 completed, MED is not met, whatever the deload setting |
| Scoring.DeloadRelaxesStrength | src/lib/domain/scoring.ts:85-90 | the normal strength rule implies the deload one; legs alone meets strength under deload only |
| Scoring.DeloadTightensConditioning | src/lib/domain/scoring.ts:92-96 | the deload conditioning rule implies the normal one; medium or hard without easy meets it only in a normal week |
| Scoring.BoundsReachedMonotone | src/lib/domain/scoring.ts:101-116 | a larger value reaches at least as many band bounds |
| Scoring.ComputeTrainingRating | src/lib/domain/scoring.ts:101-109 | the training rating is missed exactly when MED is not met; with MED met, its rank is one plus the number of the bounds 37, 47, 53 and 60 that the points reach |
| Scoring.TrainingRatingMonotone | src/lib/domain/scoring.ts:101-109 | with MED met, more capped training points never give a lower rating |
| Scoring.ComputeLifestyleRating | src/lib/domain/scoring.ts:111-116 | the lifestyle rating reads only the points; its rank is the number of the bounds 12, 22 and 32 that the points reach |
| Scoring.LifestyleRatingMonotone | src/lib/domain/scoring.ts:111-116 | more capped lifestyle points never give a lower lifestyle rating |
| Scoring.ComputeDayScores | src/lib/domain/scoring.ts:118-154 | each raw category is its flag sum plus its count sum, and each capped value lies between 0 and its cap. A capped value is at most its raw sum, equals it when the sum is within the cap, and equals the cap when the sum reaches the cap. Total points are the two capped values added. MED is the MED rule, and a daily win is MED. The training rating is missed exactly when MED fails. The lifestyle rating depends only on capped lifestyle points. |
| Scoring.DeloadChangesOnlyMed | src/lib/domain/scoring.ts:118-154 | the deload option changes no point total and not the lifestyle rating |
| Scoring.CompletedSumToAtMostCatalog | src/lib/domain/scoring.ts:41-46 | over a key prefix, completion flags never earn a category more than the catalog's points for it |
| Scoring.CompletedSumAtMostCatalog | src/lib/domain/scoring.ts:41-46 | completion flags never earn a category more than the catalog's points for it |
| Scoring.RawLifestyleAtMostCap | src/lib/domain/scoring.ts:130-135 | for a log holding only keys of its declared types, raw lifestyle points are at most 45 |
| Scoring.LifestyleCapNeverBinds | src/lib/domain/scoring.ts:135 | for such a log the lifestyle cap never lowers the score: capped equals raw |
| Scoring.ExampleFlagTotals | src/lib/domain/scoring.ts:41-46 | the example day's flags (limber 11, push, legs) give mobility 3 and strength 17 |
| Scoring.PushAndLimberTotals | src/lib/domain/scoring.ts:41-46 | limber 11 and push give mobility 3 and strength 7 |
| Scoring.LimberOnlyTotals | src/lib/domain/scoring.ts:41-46 | limber 11 alone gives mobility 3 |
| Scoring.ExampleCountTotals | src/lib/domain/scoring.ts:63-69 | one easy conditioning session gives conditioning 5 |
| Scoring.ExampleRawTotals | src/lib/domain/scoring.ts:122-128 | the example day's raw record is mobility 3, conditioning 5 and strength 17 |
| Scoring.ExampleMedMet | src/lib/domain/scoring.ts:78-99 | the example day meets MED in a normal week |
| Scoring.ExampleDayScores | src/lib/domain/scoring.ts:118-154 | the example day scores 25 training points, uncapped, with MED met and the training rating okay |
| Weekly.ComputeWinStreakDays | src/lib/domain/weekly.ts:17-26 | the streak is the trailing run of win days in date order, scored without deload. It is at most the number of days, so 0 for no days. |
| Weekly.ComputeConsistencyStreakWeeks | src/lib/domain/weekly.ts:28-39 | the streak is the trailing run, in week order, of weeks with at least 175 training points and fewer than two missed days. It is at most the number of weeks. |
| Weekly.FatiguedCount | src/lib/domain/weekly.ts:80 | the number of fatigued days is at most the number of days |
| Weekly.TrainingPointsOf | src/lib/domain/weekly.ts:87 | the list of the weeks' training points, element by element |
| Weekly.LastThree | src/lib/domain/weekly.ts:83-86 | a suffix of the input: the last three elements, or all of them when there are fewer |
| Weekly.AddReason | src/lib/domain/weekly.ts:66-88 | the reasons after adding are the old ones plus the new one; no duplicate appears, and the result is non-empty |
| Weekly.CollectReasons | src/lib/domain/weekly.ts:66-90 | each reason is present exactly when its condition holds; the reasons are non-empty exactly when some condition holds, and have no duplicates |
| Weekly.WeekDeload | src/lib/domain/weekly.ts:54-91 | scheduled: the run of non-deload earlier weeks in ascending order, reset at each deload week, is at least 3. fatigued days: at least 4 of the week's days are fatigued. high average: there are at least 3 earlier weeks, and the latest three average more than 350. Deload holds exactly when some reason is present, and no reason repeats. |
| Weekly.ComputeWeekDeload | src/lib/domain/weekly.ts:54-91 | the method, with its reset-at-deload loop and its set of reasons, computes exactly the deload decision above |
| Weekly.HighRecentAverage | src/lib/domain/weekly.ts:83-88 | the high-average test holds exactly when there are at least 3 earlier weeks and the latest three have more than 1050 training points together, so a mean above 350 |
| Weekly.HighAverageBySum | src/lib/domain/weekly.ts:83-88 | high average is present exactly when there are at least 3 earlier weeks and the latest three sum to more than 1050 |
| Weekly.ComputeWeeklyRating | src/lib/domain/weekly.ts:134-153 | the weekly rating's rank is the number of the bounds 175, 259, 329, 371 and 420 that the points reach, or twice the points in a deload week, where the thresholds are halved |
| Weekly.WeeklyRatingMonotone | src/lib/domain/weekly.ts:136-153 | more training points never give a lower weekly rating, in either mode |
| Weekly.DeloadHalvesThresholds | src/lib/domain/weekly.ts:137-145 | a deload week rates like a normal week with twice the points: every threshold is exactly halved |
| Weekly.DeloadRatesAtLeastNormal | src/lib/domain/weekly.ts:136-153 | for the same points a deload week never rates lower than a normal week |
| Weekly.NinetyPointsExample | src/lib/domain/weekly.ts:136-153 | 90 points reach at least minimum under deload and rate as needs improvement in a normal week |
| Weekly.ScoreDays | src/lib/domain/weekly.ts:162 | each day is paired with its own scores under the week's deload option, in input order |
| Weekly.CountWins | src/lib/domain/weekly.ts:165 | the number of wins is at most the number of days |
| Weekly.CountMissed | src/lib/domain/weekly.ts:166-169 | the number of missed days is at most the number of days |
| Weekly.SumCappedBounds | src/lib/domain/weekly.ts:164 | the weekly training points lie between 0 and 63 times the number of days |
| Weekly.WinsPlusMissed | src/lib/domain/weekly.ts:165-169 | when a missed rating means no win, wins plus missed days is the number of days |
| Weekly.ScoredUnderFacts | src/lib/domain/weekly.ts:162-169 | days scored by the day scorer have capped training points and are missed exactly when not won |
| Weekly.ScoredUnderPermuted | src/lib/domain/weekly.ts:184 | reordering the scored days keeps them scored by the day scorer |
| Weekly.ComputeWeeklySummary | src/lib/domain/weekly.ts:155-186 | the week start and deload inputs are kept. Training points lie between 0 and 63 per day. Training points are exactly the sum of the days' capped points, wins the number of daily wins and missed days the number of missed training ratings. Each count is at most the number of days, and wins plus missed days is the number of days. Fatigued days is the fatigued count. The rating is the weekly rating of the points. The output days are a newest-first permutation of the days, each paired with its scores. |
| Weekly.EmptyWeekNeedsImprovement | src/lib/domain/weekly.ts:155-186 | a week without days has 0 training points and rates as needs improvement |
| Weekly.PriorWeeksOf | src/lib/domain/weekly.ts:100-105 | each evaluated week becomes the view of it that the deload decision sees, keeping its start, days, deload flag and training points |
| Weekly.SummariesOf | src/lib/domain/weekly.ts:116 | one summary per evaluated week, in the same order |
| Weekly.EvaluateWeeks | src/lib/domain/weekly.ts:97-114 | the fold yields one evaluated week per input week |
| Weekly.ComputeWeeklySummaries | src/lib/domain/weekly.ts:93-117 | the loop computes the fold over the weeks in ascending order, and returns its summaries newest first: one per input week, in non-increasing week-start order |
| Weekly.EachWeekSeesEarlierWeeks | src/lib/domain/weekly.ts:99-113 | each week is evaluated from exactly the weeks before it |
| Weekly.EvaluateWeeksPrefix | src/lib/domain/weekly.ts:99-114 | evaluating a prefix of the weeks gives the prefix of the evaluation: later weeks never change earlier results |
| Weekly.EvaluateWeekRecordsDeload | src/lib/domain/weekly.ts:100-113 | one step of the fold (EvaluateWeek): a week's summary records the deload flag and reasons decided from the summaries of the earlier weeks |
| Weekly.EvaluatedWeekStarts | src/lib/domain/weekly.ts:113 | the evaluated weeks keep the input week starts, position by position |
| Weekly.PriorWeekDeload | src/lib/domain/weekly.ts:100-105 | the earlier-week view is non-deload exactly when that week's summary is not a deload |
| Weekly.ThreeNonDeloadPriors | src/lib/domain/weekly.ts:68-78 | three non-deload weeks just before a week give a non-deload run of at least three |
| Weekly.PriorWeekStarts | src/lib/domain/weekly.ts:100-105 | the views of the first i evaluated weeks are i, one per week, each with that input week's start |
| Weekly.PriorWeeksInOrder | src/lib/domain/weekly.ts:96-105 | over weeks in ascending order, each week's earlier-week views are in ascending order too |
| Weekly.ScheduledDeloadAfterThreeWeeks | src/lib/domain/weekly.ts:93-117 | after three consecutive non-deload weeks, the next week is a deload week with the scheduled reason, whatever its own points or fatigue |
| Weekly.NoFourNonDeloadWeeksInARow | src/lib/domain/weekly.ts:93-117 | among any four chronologically consecutive weeks, at least one is a deload week |

## Left out

- Unknown activity keys are not modelled. The source skips a stored key missing from the catalog; in the model every key is a catalog key, so that branch cannot arise.
- Fractional and non-finite counts are not modelled. Counts are integers, so the floor and the finiteness test reduce to `max(0, count)`. A fractional count in (0, 1) would meet the MED conditioning rule while earning no points, and that case is not representable here.
- Dates and week starts are integers, not ISO strings, because only their order matters. The comparators of the source never answer "equal". The model sorts with a stable insertion sort, so ties keep their input order, while the source's order for equal keys is left to the engine's sort. Weekly.ScheduledDeloadAfterThreeWeeks and Weekly.NoFourNonDeloadWeeksInARow take weeks in non-decreasing week-start order and rely on sorting the earlier weeks again leaving them unchanged. That holds for the model's stable sort even with equal week starts. For the source's comparator, which never answers "equal", it holds only when the week starts are distinct, so these two properties carry over to the source for distinct week starts only.
- Labels, groups and the optional duration minutes of the catalog are left out, because scoring never reads them. So are the notes and the created and updated timestamps of a day log.
- Persistence (the IndexedDB repositories), week bucketing by calendar date, rating labels, theming, the installable-app packaging and the build scripts are outside this model.
- Optional scoring and summary options are explicit parameters. An absent deload option is passed as false, and absent deload reasons as the empty list.
- Weekly.ComputeWeekDeload: takes the week start like the source, and like the source never reads it.
- Scoring.RawLifestyleAtMostCap: stated only for logs whose flag map holds non-repeatable keys and whose count map holds repeatable keys, as the TypeScript types declare. The runtime does not enforce those types, so a count stored under a lifestyle key would add lifestyle points beyond the catalog's total.
- The per-call rebuilding of the key-to-points and key-to-category lookup maps is not modelled, because it affects performance only. The model reads the catalog directly.
