/** The weekly aggregator: streaks over days and weeks, the per-week deload
    decision, the weekly summary and rating, and the oldest-to-newest fold that
    feeds each week's resolved result into the next week's deload decision. */
module Weekly {
  import opened Activities
  import opened Scoring
  import opened Seqs

  datatype WeeklyRating = NeedsImprovement | Minimum | Solid | Great | Amazing | AboveAndBeyond
  {
    /** Position in the order needs improvement < minimum < solid < great < amazing < above and beyond. */
    function Rank(): nat
    {
      match this
      case NeedsImprovement => 0
      case Minimum => 1
      case Solid => 2
      case Great => 3
      case Amazing => 4
      case AboveAndBeyond => 5
    }
  }

  datatype DeloadReason = Scheduled | FatiguedDays | HighAverage

  /** A day together with its scores. */
  datatype ScoredDay = ScoredDay(day: DayLog, scores: DayScores)

  datatype WeeklySummary = WeeklySummary(
    weekStart: int,
    deload: bool,
    deloadReasons: seq<DeloadReason>,
    trainingPoints: int,
    weeklyRating: WeeklyRating,
    wins: int,
    missedDays: int,
    fatiguedDays: int,
    days: seq<ScoredDay>)

  // ---------------------------------------------------------------------------
  // Streaks

  function DateOf(d: DayLog): int
  {
    d.date
  }

  /** A win on the day's own scoring, with no deload option. */
  predicate IsWinDay(d: DayLog)
  {
    ComputeDayScores(d, false).dailyWin
  }

  function SummaryWeekStart(w: WeeklySummary): int
  {
    w.weekStart
  }

  /** A week that keeps the consistency streak going. */
  predicate MeetsConsistency(w: WeeklySummary)
  {
    w.trainingPoints >= 175 && w.missedDays < 2
  }

  /** Sorts the days by date and counts the wins from the newest day back to the
      first day that is not a win. */
  method ComputeWinStreakDays(days: seq<DayLog>) returns (streak: nat)
    ensures streak == TrailingRun(SortBy(days, DateOf), IsWinDay)
    ensures streak <= |days|
  {
    var sorted := SortBy(days, DateOf);
    streak := 0;
    var i := |sorted| - 1;
    while i >= 0
      invariant -1 <= i < |sorted|
      invariant streak == |sorted| - 1 - i
      invariant TrailingRun(sorted, IsWinDay) == streak + TrailingRunTo(sorted, IsWinDay, i + 1)
    {
      var scores := ComputeDayScores(sorted[i], false);
      assert IsWinDay(sorted[i]) == scores.dailyWin;
      TrailingRunToStep(sorted, IsWinDay, i + 1);
      if !scores.dailyWin {
        break;
      }
      streak := streak + 1;
      i := i - 1;
    }
  }

  /** Sorts the summaries by week start and counts the weeks, from the newest back,
      that reach 175 training points with fewer than two missed days. */
  method ComputeConsistencyStreakWeeks(weeks: seq<WeeklySummary>) returns (streak: nat)
    ensures streak == TrailingRun(SortBy(weeks, SummaryWeekStart), MeetsConsistency)
    ensures streak <= |weeks|
  {
    var sorted := SortBy(weeks, SummaryWeekStart);
    streak := 0;
    var i := |sorted| - 1;
    while i >= 0
      invariant -1 <= i < |sorted|
      invariant streak == |sorted| - 1 - i
      invariant TrailingRun(sorted, MeetsConsistency) == streak + TrailingRunTo(sorted, MeetsConsistency, i + 1)
    {
      var w := sorted[i];
      var meetsWeeklyMinimum := w.trainingPoints >= 175;
      var meetsMissedConstraint := w.missedDays < 2;
      assert MeetsConsistency(w) == (meetsWeeklyMinimum && meetsMissedConstraint);
      TrailingRunToStep(sorted, MeetsConsistency, i + 1);
      if !meetsWeeklyMinimum || !meetsMissedConstraint {
        break;
      }
      streak := streak + 1;
      i := i - 1;
    }
  }

  // ---------------------------------------------------------------------------
  // Deload

  /** What the deload decision reads of an earlier, already resolved week. */
  datatype PriorWeek = PriorWeek(weekStart: int, days: seq<DayLog>, deload: bool, trainingPoints: int)

  datatype DeloadDecision = DeloadDecision(deload: bool, reasons: seq<DeloadReason>)

  function PriorWeekStart(w: PriorWeek): int
  {
    w.weekStart
  }

  predicate IsNonDeload(w: PriorWeek)
  {
    !w.deload
  }

  /** The number of days logged with fatigued readiness. */
  function FatiguedCount(days: seq<DayLog>): (n: nat)
    ensures n <= |days|
  {
    if days == [] then 0
    else FatiguedCount(days[..|days| - 1]) + (if days[|days| - 1].readiness == Fatigued then 1 else 0)
  }

  function TrainingPointsOf(weeks: seq<PriorWeek>): (points: seq<int>)
    ensures |points| == |weeks|
    ensures forall i :: 0 <= i < |weeks| ==> points[i] == weeks[i].trainingPoints
  {
    seq(|weeks|, i requires 0 <= i < |weeks| => weeks[i].trainingPoints)
  }

  /** The last three elements, or all of them when there are fewer. */
  function LastThree<T>(s: seq<T>): (r: seq<T>)
    ensures |r| == if |s| < 3 then |s| else 3
    ensures r == s[|s| - |r|..]
  {
    if |s| <= 3 then s else s[|s| - 3..]
  }

  /** Adds a reason to an insertion-ordered set of reasons: appended when new, otherwise unchanged. */
  function AddReason(reasons: seq<DeloadReason>, r: DeloadReason): (added: seq<DeloadReason>)
    ensures forall x :: x in added <==> x == r || x in reasons
    ensures DistinctReasons(reasons) ==> DistinctReasons(added)
    ensures |added| > 0
  {
    if r in reasons then reasons else reasons + [r]
  }

  /** No reason is listed twice. */
  predicate DistinctReasons(reasons: seq<DeloadReason>)
  {
    forall i, j :: 0 <= i < j < |reasons| ==> reasons[i] != reasons[j]
  }

  /** The reasons, added in the order scheduled, fatigued, high average. */
  function CollectReasons(scheduled: bool, fatigued: bool, highAverage: bool): (reasons: seq<DeloadReason>)
    ensures Scheduled in reasons <==> scheduled
    ensures FatiguedDays in reasons <==> fatigued
    ensures HighAverage in reasons <==> highAverage
    ensures |reasons| > 0 <==> scheduled || fatigued || highAverage
    ensures DistinctReasons(reasons)
  {
    var r1 := if scheduled then AddReason([], Scheduled) else [];
    var r2 := if fatigued then AddReason(r1, FatiguedDays) else r1;
    if highAverage then AddReason(r2, HighAverage) else r2
  }

  /** Three earlier weeks whose mean training points exceed 350: there are at least
      three, and the latest three sum to more than 1050. */
  function HighRecentAverage(sortedPriorWeeks: seq<PriorWeek>): (high: bool)
    ensures high <==> |sortedPriorWeeks| >= 3
                      && Sum(TrainingPointsOf(LastThree(sortedPriorWeeks))) > 1050
  {
    var last3 := LastThree(sortedPriorWeeks);
    if |last3| >= 3 then
      AverageOfThreeExceeds(TrainingPointsOf(last3), 350);
      Average(TrainingPointsOf(last3)) > 350.0
    else
      false
  }

  /** The deload decision of a week, from its own days and the resolved earlier weeks. */
  function WeekDeload(days: seq<DayLog>, priorWeeks: seq<PriorWeek>): (d: DeloadDecision)
    ensures Scheduled in d.reasons
            <==> TrailingRun(SortBy(priorWeeks, PriorWeekStart), IsNonDeload) >= 3
    ensures FatiguedDays in d.reasons <==> FatiguedCount(days) >= 4
    ensures HighAverage in d.reasons
            <==> |priorWeeks| >= 3
                 && Average(TrainingPointsOf(LastThree(SortBy(priorWeeks, PriorWeekStart)))) > 350.0
    ensures d.deload <==> |d.reasons| > 0
    ensures DistinctReasons(d.reasons)
  {
    var sorted := SortBy(priorWeeks, PriorWeekStart);
    var reasons := CollectReasons(
      TrailingRun(sorted, IsNonDeload) >= 3,
      FatiguedCount(days) >= 4,
      HighRecentAverage(sorted));
    DeloadDecision(|reasons| > 0, reasons)
  }

  /** The deload evaluation: a reset-at-deload count over the sorted earlier weeks,
      the fatigue count and the three-week average, collected in a set of reasons.
      `weekStart` is not read. */
  method ComputeWeekDeload(weekStart: int, days: seq<DayLog>, priorWeeks: seq<PriorWeek>)
    returns (d: DeloadDecision)
    ensures d == WeekDeload(days, priorWeeks)
  {
    var reasons: seq<DeloadReason> := [];
    var sorted := SortBy(priorWeeks, PriorWeekStart);
    var nonDeloadStreak := 0;
    for i := 0 to |sorted|
      invariant nonDeloadStreak == TrailingRunTo(sorted, IsNonDeload, i)
    {
      if sorted[i].deload {
        nonDeloadStreak := 0;
      } else {
        nonDeloadStreak := nonDeloadStreak + 1;
      }
    }
    if nonDeloadStreak >= 3 {
      reasons := AddReason(reasons, Scheduled);
    }
    var fatiguedDays := FatiguedCount(days);
    if fatiguedDays >= 4 {
      reasons := AddReason(reasons, FatiguedDays);
    }
    var last3 := LastThree(SortBy(priorWeeks, PriorWeekStart));
    if |last3| >= 3 && Average(TrainingPointsOf(last3)) > 350.0 {
      reasons := AddReason(reasons, HighAverage);
    }
    assert reasons == CollectReasons(nonDeloadStreak >= 3, fatiguedDays >= 4, HighRecentAverage(sorted));
    d := DeloadDecision(|reasons| > 0, reasons);
  }

  /** The three-week average exceeds 350 exactly when the three weeks sum to more than 1050. */
  lemma {:induction false} HighAverageBySum(days: seq<DayLog>, priorWeeks: seq<PriorWeek>)
    ensures HighAverage in WeekDeload(days, priorWeeks).reasons
            <==> |priorWeeks| >= 3
                 && Sum(TrainingPointsOf(LastThree(SortBy(priorWeeks, PriorWeekStart)))) > 1050
  {
    if |priorWeeks| >= 3 {
      AverageOfThreeExceeds(TrainingPointsOf(LastThree(SortBy(priorWeeks, PriorWeekStart))), 350);
    }
  }

  // ---------------------------------------------------------------------------
  // Weekly rating

  datatype Thresholds = Thresholds(minimum: real, solid: real, great: real, amazing: real, above: real)

  const WeeklyThresholds: Thresholds := Thresholds(175.0, 259.0, 329.0, 371.0, 420.0)

  /** Every threshold times 0.5. */
  function Halved(t: Thresholds): Thresholds
  {
    Thresholds(t.minimum * 0.5, t.solid * 0.5, t.great * 0.5, t.amazing * 0.5, t.above * 0.5)
  }

  /** The normal lower bounds of the bands minimum, solid, great, amazing and above and beyond. */
  const WeeklyBandBounds: seq<int> := [175, 259, 329, 371, 420]

  /** The weekly rating counts the band bounds the points reach; under deload every
      threshold is halved, which is to count the bounds that twice the points reach. */
  function ComputeWeeklyRating(trainingPoints: int, deload: bool): (r: WeeklyRating)
    ensures r.Rank() == BoundsReached(if deload then 2 * trainingPoints else trainingPoints, WeeklyBandBounds)
  {
    var y := if deload then 2 * trainingPoints else trainingPoints;
    assert BoundsReached(y, [420]) == (if y >= 420 then 1 else 0) + BoundsReached(y, []);
    assert BoundsReached(y, [371, 420]) == (if y >= 371 then 1 else 0) + BoundsReached(y, [420]);
    assert BoundsReached(y, [329, 371, 420]) == (if y >= 329 then 1 else 0) + BoundsReached(y, [371, 420]);
    assert BoundsReached(y, [259, 329, 371, 420]) == (if y >= 259 then 1 else 0) + BoundsReached(y, [329, 371, 420]);
    assert BoundsReached(y, [175, 259, 329, 371, 420]) == (if y >= 175 then 1 else 0) + BoundsReached(y, [259, 329, 371, 420]);
    var t := if deload then Halved(WeeklyThresholds) else WeeklyThresholds;
    var x := trainingPoints as real;
    if x >= t.above then WeeklyRating.AboveAndBeyond
    else if x >= t.amazing then WeeklyRating.Amazing
    else if x >= t.great then WeeklyRating.Great
    else if x >= t.solid then WeeklyRating.Solid
    else if x >= t.minimum then WeeklyRating.Minimum
    else WeeklyRating.NeedsImprovement
  }

  /** More training points never give a lower weekly rating. */
  lemma {:induction false} WeeklyRatingMonotone(x: int, y: int, deload: bool)
    requires x <= y
    ensures ComputeWeeklyRating(x, deload).Rank() <= ComputeWeeklyRating(y, deload).Rank()
  {
  }

  /** The deload thresholds are exactly half the normal ones: a deload week rates
      as a normal week with twice the points. */
  lemma {:induction false} DeloadHalvesThresholds(trainingPoints: int)
    ensures ComputeWeeklyRating(trainingPoints, true) == ComputeWeeklyRating(2 * trainingPoints, false)
  {
  }

  /** For the same points a deload week never rates lower than a normal week. */
  lemma {:induction false} DeloadRatesAtLeastNormal(trainingPoints: int)
    ensures ComputeWeeklyRating(trainingPoints, true).Rank()
            >= ComputeWeeklyRating(trainingPoints, false).Rank()
  {
    DeloadHalvesThresholds(trainingPoints);
    if trainingPoints >= 0 {
      WeeklyRatingMonotone(trainingPoints, 2 * trainingPoints, false);
    }
  }

  /** 90 points reach "minimum" in a deload week and not in a normal one. */
  lemma {:induction false} NinetyPointsExample()
    ensures ComputeWeeklyRating(90, true).Rank() >= WeeklyRating.Minimum.Rank()
    ensures ComputeWeeklyRating(90, false) == WeeklyRating.NeedsImprovement
  {
  }

  // ---------------------------------------------------------------------------
  // Weekly summary

  /** Each day paired with its scores under the week's deload option. */
  function ScoreDays(days: seq<DayLog>, deload: bool): (derived: seq<ScoredDay>)
    ensures |derived| == |days|
    ensures forall i :: 0 <= i < |days| ==> derived[i] == ScoredDay(days[i], ComputeDayScores(days[i], deload))
  {
    seq(|days|, i requires 0 <= i < |days| => ScoredDay(days[i], ComputeDayScores(days[i], deload)))
  }

  /** Sum of the days' capped training points. */
  function SumCapped(derived: seq<ScoredDay>): int
  {
    if derived == [] then 0
    else SumCapped(derived[..|derived| - 1]) + derived[|derived| - 1].scores.cappedTrainingPoints
  }

  function CountWins(derived: seq<ScoredDay>): (n: nat)
    ensures n <= |derived|
  {
    if derived == [] then 0
    else CountWins(derived[..|derived| - 1]) + (if derived[|derived| - 1].scores.dailyWin then 1 else 0)
  }

  function CountMissed(derived: seq<ScoredDay>): (n: nat)
    ensures n <= |derived|
  {
    if derived == [] then 0
    else CountMissed(derived[..|derived| - 1])
         + (if derived[|derived| - 1].scores.trainingRating == TrainingRating.Missed then 1 else 0)
  }

  /** A newest-first sort key. */
  function NewestDayFirst(d: ScoredDay): int
  {
    -d.day.date
  }

  /** Scores whose capped training points lie within the daily cap. */
  predicate CappedScores(derived: seq<ScoredDay>)
  {
    forall i :: 0 <= i < |derived| ==>
      0 <= derived[i].scores.cappedTrainingPoints <= TrainingCapPoints
  }

  /** Scores where a missed training rating is exactly a day without a win. */
  predicate MissedIsNoWin(derived: seq<ScoredDay>)
  {
    forall i :: 0 <= i < |derived| ==>
      (derived[i].scores.trainingRating == TrainingRating.Missed <==> !derived[i].scores.dailyWin)
  }

  lemma {:induction false} SumCappedBounds(derived: seq<ScoredDay>)
    requires CappedScores(derived)
    ensures 0 <= SumCapped(derived) <= TrainingCapPoints * |derived|
  {
    if derived != [] {
      var init := derived[..|derived| - 1];
      assert CappedScores(init) by {
        forall i | 0 <= i < |init| ensures 0 <= init[i].scores.cappedTrainingPoints <= TrainingCapPoints {
          assert init[i] == derived[i];
        }
      }
      SumCappedBounds(init);
    }
  }

  lemma {:induction false} WinsPlusMissed(derived: seq<ScoredDay>)
    requires MissedIsNoWin(derived)
    ensures CountWins(derived) + CountMissed(derived) == |derived|
  {
    if derived != [] {
      var init := derived[..|derived| - 1];
      assert MissedIsNoWin(init) by {
        forall i | 0 <= i < |init|
          ensures init[i].scores.trainingRating == TrainingRating.Missed <==> !init[i].scores.dailyWin
        {
          assert init[i] == derived[i];
        }
      }
      WinsPlusMissed(init);
    }
  }

  /** Every scored day carries its own day's scores under the deload option. */
  predicate ScoredUnder(derived: seq<ScoredDay>, deload: bool)
  {
    forall i :: 0 <= i < |derived| ==> derived[i].scores == ComputeDayScores(derived[i].day, deload)
  }

  lemma {:induction false} ScoredUnderFacts(derived: seq<ScoredDay>, deload: bool)
    requires ScoredUnder(derived, deload)
    ensures CappedScores(derived) && MissedIsNoWin(derived)
  {
    forall i | 0 <= i < |derived|
      ensures 0 <= derived[i].scores.cappedTrainingPoints <= TrainingCapPoints
      ensures derived[i].scores.trainingRating == TrainingRating.Missed <==> !derived[i].scores.dailyWin
    {
      var s := ComputeDayScores(derived[i].day, deload);
      assert derived[i].scores == s;
    }
  }

  /** Reordering scored days keeps each one's scores its own. */
  lemma {:induction false} ScoredUnderPermuted(a: seq<ScoredDay>, b: seq<ScoredDay>, deload: bool)
    requires multiset(a) == multiset(b)
    requires ScoredUnder(b, deload)
    ensures ScoredUnder(a, deload)
  {
    forall i | 0 <= i < |a| ensures a[i].scores == ComputeDayScores(a[i].day, deload) {
      assert a[i] in multiset(b);
      var j :| 0 <= j < |b| && b[j] == a[i];
    }
  }

  /** One week's totals, counts and rating, with its days scored under the given
      deload option and listed newest first. */
  function ComputeWeeklySummary(weekStart: int, days: seq<DayLog>, deload: bool, deloadReasons: seq<DeloadReason>)
    : (w: WeeklySummary)
    ensures w.weekStart == weekStart && w.deload == deload && w.deloadReasons == deloadReasons
    ensures 0 <= w.trainingPoints <= TrainingCapPoints * |days|
    ensures 0 <= w.wins <= |days| && 0 <= w.missedDays <= |days| && 0 <= w.fatiguedDays <= |days|
    ensures w.trainingPoints == SumCapped(ScoreDays(days, deload))
    ensures w.wins == CountWins(ScoreDays(days, deload))
    ensures w.missedDays == CountMissed(ScoreDays(days, deload))
    ensures w.wins + w.missedDays == |days|
    ensures w.fatiguedDays == FatiguedCount(days)
    ensures w.weeklyRating == ComputeWeeklyRating(w.trainingPoints, deload)
    ensures |w.days| == |days|
    ensures multiset(w.days) == multiset(ScoreDays(days, deload))
    ensures SortedBy(w.days, NewestDayFirst)
    ensures ScoredUnder(w.days, deload)
  {
    var derived := ScoreDays(days, deload);
    assert ScoredUnder(derived, deload);
    ScoredUnderFacts(derived, deload);
    var trainingPoints := SumCapped(derived);
    var wins := CountWins(derived);
    var missedDays := CountMissed(derived);
    var fatiguedDays := FatiguedCount(days);
    SumCappedBounds(derived);
    WinsPlusMissed(derived);
    var sortedDays := SortBy(derived, NewestDayFirst);
    SortByIsSorted(derived, NewestDayFirst);
    ScoredUnderPermuted(sortedDays, derived, deload);
    WeeklySummary(
      weekStart,
      deload,
      deloadReasons,
      trainingPoints,
      ComputeWeeklyRating(trainingPoints, deload),
      wins,
      missedDays,
      fatiguedDays,
      sortedDays)
  }

  /** A week with no days has no points and needs improvement, deload or not. */
  lemma {:induction false} EmptyWeekNeedsImprovement(weekStart: int, deload: bool, deloadReasons: seq<DeloadReason>)
    ensures ComputeWeeklySummary(weekStart, [], deload, deloadReasons).trainingPoints == 0
    ensures ComputeWeeklySummary(weekStart, [], deload, deloadReasons).weeklyRating
            == WeeklyRating.NeedsImprovement
  {
  }

  // ---------------------------------------------------------------------------
  // The fold over weeks

  /** One week bucket as the caller supplies it. */
  datatype WeekInput = WeekInput(weekStart: int, days: seq<DayLog>)

  datatype EvaluatedWeek = EvaluatedWeek(weekStart: int, days: seq<DayLog>, summary: WeeklySummary)

  function WeekInputStart(w: WeekInput): int
  {
    w.weekStart
  }

  function NewestWeekFirst(w: WeeklySummary): int
  {
    -w.weekStart
  }

  /** What the deload decision sees of the weeks evaluated so far. */
  function PriorWeeksOf(evaluated: seq<EvaluatedWeek>): (prior: seq<PriorWeek>)
    ensures |prior| == |evaluated|
    ensures forall i :: 0 <= i < |evaluated| ==>
      prior[i] == PriorWeek(evaluated[i].weekStart, evaluated[i].days,
                            evaluated[i].summary.deload, evaluated[i].summary.trainingPoints)
  {
    seq(|evaluated|, i requires 0 <= i < |evaluated| =>
      PriorWeek(evaluated[i].weekStart, evaluated[i].days,
                evaluated[i].summary.deload, evaluated[i].summary.trainingPoints))
  }

  function SummariesOf(evaluated: seq<EvaluatedWeek>): (summaries: seq<WeeklySummary>)
    ensures |summaries| == |evaluated|
    ensures forall i :: 0 <= i < |evaluated| ==> summaries[i] == evaluated[i].summary
  {
    seq(|evaluated|, i requires 0 <= i < |evaluated| => evaluated[i].summary)
  }

  /** One step of the fold: decide the week's deload from the weeks already
      evaluated, then summarise it under that decision. */
  function EvaluateWeek(w: WeekInput, evaluated: seq<EvaluatedWeek>): EvaluatedWeek
  {
    var deloadEval := WeekDeload(w.days, PriorWeeksOf(evaluated));
    EvaluatedWeek(w.weekStart, w.days,
      ComputeWeeklySummary(w.weekStart, w.days, deloadEval.deload, deloadEval.reasons))
  }

  /** The fold over weeks in the given order. */
  function EvaluateWeeks(weeks: seq<WeekInput>): (evaluated: seq<EvaluatedWeek>)
    ensures |evaluated| == |weeks|
  {
    FoldWithHistory(weeks, EvaluateWeek)
  }

  /** Sorts the weeks oldest first, evaluates them in that order, each seeing the
      resolved summaries of all earlier weeks, and returns the summaries newest first. */
  method ComputeWeeklySummaries(weeks: seq<WeekInput>) returns (summaries: seq<WeeklySummary>)
    ensures summaries
            == SortBy(SummariesOf(EvaluateWeeks(SortBy(weeks, WeekInputStart))), NewestWeekFirst)
    ensures |summaries| == |weeks|
    ensures SortedBy(summaries, NewestWeekFirst)
  {
    var sortedWeeks := SortBy(weeks, WeekInputStart);
    var evaluated: seq<EvaluatedWeek> := [];
    for i := 0 to |sortedWeeks|
      invariant evaluated == EvaluateWeeks(sortedWeeks[..i])
    {
      FoldWithHistorySnoc(sortedWeeks, EvaluateWeek, i);
      var w := sortedWeeks[i];
      var priorWeeks := PriorWeeksOf(evaluated);
      var deloadEval := ComputeWeekDeload(w.weekStart, w.days, priorWeeks);
      var summary := ComputeWeeklySummary(w.weekStart, w.days, deloadEval.deload, deloadEval.reasons);
      assert EvaluatedWeek(w.weekStart, w.days, summary) == EvaluateWeek(w, evaluated);
      evaluated := evaluated + [EvaluatedWeek(w.weekStart, w.days, summary)];
    }
    assert sortedWeeks[..|sortedWeeks|] == sortedWeeks;
    summaries := SortBy(SummariesOf(evaluated), NewestWeekFirst);
    SortByIsSorted(SummariesOf(evaluated), NewestWeekFirst);
  }

  /** Every week is evaluated from exactly the weeks before it: its deload decision
      is the one computed from the summaries of the strictly earlier weeks. */
  lemma {:induction false} EachWeekSeesEarlierWeeks(weeks: seq<WeekInput>, i: nat)
    requires i < |weeks|
    ensures EvaluateWeeks(weeks)[i] == EvaluateWeek(weeks[i], EvaluateWeeks(weeks)[..i])
  {
    FoldWithHistoryAt(weeks, EvaluateWeek, i);
  }

  /** Later weeks never change the evaluation of earlier ones. */
  lemma {:induction false} EvaluateWeeksPrefix(weeks: seq<WeekInput>, i: nat)
    requires i <= |weeks|
    ensures EvaluateWeeks(weeks)[..i] == EvaluateWeeks(weeks[..i])
  {
    FoldWithHistoryPrefix(weeks, EvaluateWeek, i);
  }

  /** One step of the fold keeps the week and records the deload decision made
      from the earlier weeks. */
  lemma {:induction false} EvaluateWeekRecordsDeload(w: WeekInput, before: seq<EvaluatedWeek>)
    ensures EvaluateWeek(w, before).weekStart == w.weekStart
    ensures EvaluateWeek(w, before).days == w.days
    ensures EvaluateWeek(w, before).summary.deload == WeekDeload(w.days, PriorWeeksOf(before)).deload
    ensures EvaluateWeek(w, before).summary.deloadReasons == WeekDeload(w.days, PriorWeeksOf(before)).reasons
  {
  }

  /** Evaluated weeks keep the week starts of their inputs. */
  lemma {:induction false} EvaluatedWeekStarts(weeks: seq<WeekInput>, i: nat)
    requires i < |weeks|
    ensures EvaluateWeeks(weeks)[i].weekStart == weeks[i].weekStart
  {
    EachWeekSeesEarlierWeeks(weeks, i);
    EvaluateWeekRecordsDeload(weeks[i], EvaluateWeeks(weeks)[..i]);
  }

  lemma {:induction false} PriorWeekDeload(evaluated: seq<EvaluatedWeek>, i: nat, k: nat)
    requires k < i <= |evaluated|
    ensures IsNonDeload(PriorWeeksOf(evaluated[..i])[k]) <==> !evaluated[k].summary.deload
  {
    assert evaluated[..i][k] == evaluated[k];
  }

  /** Three non-deload weeks just before week `i` make a non-deload run of at least three. */
  lemma {:induction false} ThreeNonDeloadPriors(evaluated: seq<EvaluatedWeek>, i: nat)
    requires 3 <= i <= |evaluated|
    requires !evaluated[i - 3].summary.deload
    requires !evaluated[i - 2].summary.deload
    requires !evaluated[i - 1].summary.deload
    ensures TrailingRun(PriorWeeksOf(evaluated[..i]), IsNonDeload) >= 3
  {
    var prior := PriorWeeksOf(evaluated[..i]);
    PriorWeekDeload(evaluated, i, i - 3);
    PriorWeekDeload(evaluated, i, i - 2);
    PriorWeekDeload(evaluated, i, i - 1);
    TrailingRunLastThree(prior, IsNonDeload);
  }

  /** The earlier-week views keep the input week starts, position by position. */
  lemma {:induction false} PriorWeekStarts(weeks: seq<WeekInput>, i: nat)
    requires i <= |weeks|
    ensures |PriorWeeksOf(EvaluateWeeks(weeks)[..i])| == i
    ensures forall j :: 0 <= j < i ==> PriorWeeksOf(EvaluateWeeks(weeks)[..i])[j].weekStart == weeks[j].weekStart
  {
    forall j | 0 <= j < i ensures PriorWeeksOf(EvaluateWeeks(weeks)[..i])[j].weekStart == weeks[j].weekStart {
      EvaluatedWeekStarts(weeks, j);
    }
  }

  /** Weeks evaluated in week-start order hand the deload decision their
      predecessors in the same order. */
  lemma {:induction false} PriorWeeksInOrder(weeks: seq<WeekInput>, i: nat)
    requires SortedBy(weeks, WeekInputStart)
    requires i <= |weeks|
    ensures SortedBy(PriorWeeksOf(EvaluateWeeks(weeks)[..i]), PriorWeekStart)
  {
    var prior := PriorWeeksOf(EvaluateWeeks(weeks)[..i]);
    PriorWeekStarts(weeks, i);
    forall j, k | 0 <= j < k < |prior| ensures PriorWeekStart(prior[j]) <= PriorWeekStart(prior[k]) {
      assert WeekInputStart(weeks[j]) <= WeekInputStart(weeks[k]);
    }
  }

  /** In chronological order, a week that follows three non-deload weeks is a
      scheduled deload week; so no four consecutive weeks are all non-deload. */
  lemma {:induction false} ScheduledDeloadAfterThreeWeeks(weeks: seq<WeekInput>, i: nat)
    requires SortedBy(weeks, WeekInputStart)
    requires 3 <= i < |weeks|
    requires !EvaluateWeeks(weeks)[i - 3].summary.deload
    requires !EvaluateWeeks(weeks)[i - 2].summary.deload
    requires !EvaluateWeeks(weeks)[i - 1].summary.deload
    ensures Scheduled in EvaluateWeeks(weeks)[i].summary.deloadReasons
    ensures EvaluateWeeks(weeks)[i].summary.deload
  {
    var evaluated := EvaluateWeeks(weeks);
    var prior := PriorWeeksOf(evaluated[..i]);
    PriorWeeksInOrder(weeks, i);
    SortBySorted(prior, PriorWeekStart);
    ThreeNonDeloadPriors(evaluated, i);
    var d := WeekDeload(weeks[i].days, prior);
    assert Scheduled in d.reasons && d.deload;
    EachWeekSeesEarlierWeeks(weeks, i);
    EvaluateWeekRecordsDeload(weeks[i], evaluated[..i]);
  }

  /** The fold as the aggregator runs it never yields four chronologically
      consecutive non-deload weeks. */
  lemma {:induction false} NoFourNonDeloadWeeksInARow(weeks: seq<WeekInput>, i: nat)
    requires 3 <= i < |weeks|
    ensures var evaluated := EvaluateWeeks(SortBy(weeks, WeekInputStart));
            evaluated[i - 3].summary.deload || evaluated[i - 2].summary.deload
            || evaluated[i - 1].summary.deload || evaluated[i].summary.deload
  {
    var sortedWeeks := SortBy(weeks, WeekInputStart);
    SortByIsSorted(weeks, WeekInputStart);
    var evaluated := EvaluateWeeks(sortedWeeks);
    if !evaluated[i - 3].summary.deload && !evaluated[i - 2].summary.deload
       && !evaluated[i - 1].summary.deload {
      ScheduledDeloadAfterThreeWeeks(sortedWeeks, i);
    }
  }
}
