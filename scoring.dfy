/** The day scorer: one day's log becomes per-category point sums, capped
    training and lifestyle totals, the minimum-effective-dose (MED) gate and two
    qualitative ratings. */
module Scoring {
  import opened Activities
  import opened Seqs

  datatype Readiness = Fatigued | Normal | Good

  /** One logged day. `date` stands for the ISO date string: only its order is
      used. `completed` holds the one-time flags and `counts` the stored counts;
      a key that is absent was not done. */
  datatype DayLog = DayLog(
    date: int,
    readiness: Readiness,
    completed: map<ActivityKey, bool>,
    counts: map<ActivityKey, int>)

  /** A log whose maps only hold the keys their declared types allow: flags for
      one-time activities and counts for repeatable ones. */
  predicate WellTyped(day: DayLog)
  {
    (forall k :: k in day.completed ==> !IsRepeatable(k)) &&
    (forall k :: k in day.counts ==> IsRepeatable(k))
  }

  /** Points per category. */
  datatype CategoryTotals = CategoryTotals(
    mobility: int,
    conditioning: int,
    strength: int,
    nutrition: int,
    miscellaneous: int)
  {
    function Get(c: ActivityCategory): int
    {
      match c
      case Mobility => mobility
      case Conditioning => conditioning
      case Strength => strength
      case Nutrition => nutrition
      case Miscellaneous => miscellaneous
    }

    /** Adds `n` points to category `c`. */
    function Add(c: ActivityCategory, n: int): (t: CategoryTotals)
      ensures t.Get(c) == Get(c) + n
      ensures forall d :: d != c ==> t.Get(d) == Get(d)
    {
      match c
      case Mobility => this.(mobility := mobility + n)
      case Conditioning => this.(conditioning := conditioning + n)
      case Strength => this.(strength := strength + n)
      case Nutrition => this.(nutrition := nutrition + n)
      case Miscellaneous => this.(miscellaneous := miscellaneous + n)
    }

    /** The category-wise sum of two tallies. */
    function Plus(other: CategoryTotals): (t: CategoryTotals)
      ensures forall c :: t.Get(c) == Get(c) + other.Get(c)
    {
      CategoryTotals(
        mobility + other.mobility,
        conditioning + other.conditioning,
        strength + other.strength,
        nutrition + other.nutrition,
        miscellaneous + other.miscellaneous)
    }

    function TrainingSum(): int
    {
      mobility + conditioning + strength
    }

    function LifestyleSum(): int
    {
      nutrition + miscellaneous
    }
  }

  const ZeroTotals: CategoryTotals := CategoryTotals(0, 0, 0, 0, 0)

  /** Which of the two maps of a day a sum reads. */
  datatype EntrySource = CompletedFlags | RepeatCounts

  /** A stored count made a non-negative whole number (counts are already whole here). */
  function SanitizedCount(raw: int): nat
  {
    if raw > 0 then raw else 0
  }

  /** Sanitising keeps a non-negative count and turns a negative one into 0. */
  lemma SanitizedCountClamps(raw: int)
    ensures raw >= 0 ==> SanitizedCount(raw) == raw
    ensures raw < 0 ==> SanitizedCount(raw) == 0
  {
  }

  /** The points that the entry for `k` in the chosen map is worth: a flag that is
      true is worth the key's points, a count is worth points times the count. */
  function KeyPoints(day: DayLog, src: EntrySource, k: ActivityKey): (n: int)
    ensures n >= 0
  {
    match src
    case CompletedFlags =>
      if k in day.completed && day.completed[k] then Points(k) else 0
    case RepeatCounts =>
      if k in day.counts then Points(k) * SanitizedCount(day.counts[k]) else 0
  }

  /** The points of category `c` over the first `n` of `keys`, each key counted once. */
  function KeySumTo(keys: seq<ActivityKey>, day: DayLog, src: EntrySource, c: ActivityCategory, n: nat): (r: int)
    requires n <= |keys|
    ensures r >= 0
  {
    if n == 0 then 0
    else KeySumTo(keys, day, src, c, n - 1)
         + (if CategoryOf(keys[n - 1]) == c then KeyPoints(day, src, keys[n - 1]) else 0)
  }

  /** The points of category `c` over `keys`, each key counted once. */
  function KeySum(keys: seq<ActivityKey>, day: DayLog, src: EntrySource, c: ActivityCategory): (r: int)
    ensures r >= 0
  {
    KeySumTo(keys, day, src, c, |keys|)
  }

  /** The per-category sums of one map of a day, taken over the catalog's keys. */
  function EntryTotals(day: DayLog, src: EntrySource): CategoryTotals
  {
    CategoryTotals(
      KeySum(AllKeys(), day, src, Mobility),
      KeySum(AllKeys(), day, src, Conditioning),
      KeySum(AllKeys(), day, src, Strength),
      KeySum(AllKeys(), day, src, Nutrition),
      KeySum(AllKeys(), day, src, Miscellaneous))
  }

  /** What the loop over the completion flags computes. */
  function NonRepeatableTotals(day: DayLog): CategoryTotals
  {
    EntryTotals(day, CompletedFlags)
  }

  /** What the loop over the counts computes. */
  function RepeatableTotals(day: DayLog): CategoryTotals
  {
    EntryTotals(day, RepeatCounts)
  }

  /** The day with the chosen map cut down to the keys in `keep`. */
  function WithEntries(day: DayLog, src: EntrySource, keep: set<ActivityKey>): DayLog
  {
    match src
    case CompletedFlags =>
      day.(completed := map k | k in day.completed && k in keep :: day.completed[k])
    case RepeatCounts =>
      day.(counts := map k | k in day.counts && k in keep :: day.counts[k])
  }

  /** The day with the entry for `k` removed from the chosen map. */
  function WithoutEntry(day: DayLog, src: EntrySource, k: ActivityKey): DayLog
  {
    match src
    case CompletedFlags => day.(completed := day.completed - {k})
    case RepeatCounts => day.(counts := day.counts - {k})
  }

  /** Two days whose entries are worth the same except at `k` have sums that
      differ by what `k` is worth. */
  lemma {:induction false} KeySumToPointwise(
    keys: seq<ActivityKey>, d1: DayLog, d2: DayLog, src: EntrySource, c: ActivityCategory, k: ActivityKey, n: nat)
    requires n <= |keys|
    requires CountTo(keys, k, n) <= 1
    requires forall j :: j != k ==> KeyPoints(d1, src, j) == KeyPoints(d2, src, j)
    ensures KeySumTo(keys, d1, src, c, n) == KeySumTo(keys, d2, src, c, n)
      + (if CountTo(keys, k, n) == 1 && CategoryOf(k) == c then KeyPoints(d1, src, k) - KeyPoints(d2, src, k) else 0)
  {
    if n > 0 {
      KeySumToPointwise(keys, d1, d2, src, c, k, n - 1);
    }
  }

  lemma KeySumPointwise(
    keys: seq<ActivityKey>, d1: DayLog, d2: DayLog, src: EntrySource, c: ActivityCategory, k: ActivityKey)
    requires Distinct(keys)
    requires forall j :: j != k ==> KeyPoints(d1, src, j) == KeyPoints(d2, src, j)
    ensures KeySum(keys, d1, src, c) == KeySum(keys, d2, src, c)
      + (if k in keys && CategoryOf(k) == c then KeyPoints(d1, src, k) - KeyPoints(d2, src, k) else 0)
  {
    CountToDistinct(keys, k, |keys|);
    assert keys[..|keys|] == keys;
    KeySumToPointwise(keys, d1, d2, src, c, k, |keys|);
  }

  lemma EntryTotalsPointwise(d1: DayLog, d2: DayLog, src: EntrySource, k: ActivityKey)
    requires forall j :: j != k ==> KeyPoints(d1, src, j) == KeyPoints(d2, src, j)
    ensures EntryTotals(d1, src)
      == EntryTotals(d2, src).Add(CategoryOf(k), KeyPoints(d1, src, k) - KeyPoints(d2, src, k))
  {
    CatalogIsOneToOne();
    KeySumPointwise(AllKeys(), d1, d2, src, Mobility, k);
    KeySumPointwise(AllKeys(), d1, d2, src, Conditioning, k);
    KeySumPointwise(AllKeys(), d1, d2, src, Strength, k);
    KeySumPointwise(AllKeys(), d1, d2, src, Nutrition, k);
    KeySumPointwise(AllKeys(), d1, d2, src, Miscellaneous, k);
  }

  lemma {:induction false} KeySumToOfNothing(
    keys: seq<ActivityKey>, day: DayLog, src: EntrySource, c: ActivityCategory, n: nat)
    requires n <= |keys|
    requires forall j :: CategoryOf(j) == c ==> KeyPoints(day, src, j) == 0
    ensures KeySumTo(keys, day, src, c, n) == 0
  {
    if n > 0 {
      KeySumToOfNothing(keys, day, src, c, n - 1);
    }
  }

  lemma KeySumOfNothing(keys: seq<ActivityKey>, day: DayLog, src: EntrySource, c: ActivityCategory)
    requires forall j :: CategoryOf(j) == c ==> KeyPoints(day, src, j) == 0
    ensures KeySum(keys, day, src, c) == 0
  {
    KeySumToOfNothing(keys, day, src, c, |keys|);
  }

  /** A map with no entries contributes nothing. */
  lemma EmptyEntriesTotalZero(day: DayLog, src: EntrySource)
    requires src == CompletedFlags ==> day.completed == map[]
    requires src == RepeatCounts ==> day.counts == map[]
    ensures EntryTotals(day, src) == ZeroTotals
  {
    KeySumOfNothing(AllKeys(), day, src, Mobility);
    KeySumOfNothing(AllKeys(), day, src, Conditioning);
    KeySumOfNothing(AllKeys(), day, src, Strength);
    KeySumOfNothing(AllKeys(), day, src, Nutrition);
    KeySumOfNothing(AllKeys(), day, src, Miscellaneous);
  }

  /** What one completion flag contributes: its key's points to its key's
      category when the flag is true, nothing when it is false or absent. */
  lemma CompletedEntryContribution(day: DayLog, k: ActivityKey)
    ensures NonRepeatableTotals(day)
      == NonRepeatableTotals(WithoutEntry(day, CompletedFlags, k)).Add(
           CategoryOf(k), if k in day.completed && day.completed[k] then Points(k) else 0)
  {
    EntryTotalsPointwise(day, WithoutEntry(day, CompletedFlags, k), CompletedFlags, k);
  }

  /** What one stored count contributes: points times the count to its key's
      category when the count is positive, nothing otherwise. */
  lemma CountEntryContribution(day: DayLog, k: ActivityKey)
    ensures RepeatableTotals(day)
      == RepeatableTotals(WithoutEntry(day, RepeatCounts, k)).Add(
           CategoryOf(k), if k in day.counts && day.counts[k] > 0 then Points(k) * day.counts[k] else 0)
  {
    EntryTotalsPointwise(day, WithoutEntry(day, RepeatCounts, k), RepeatCounts, k);
  }

  /** A key of the chosen map is worth its full value once kept and nothing before. */
  lemma KeyPointsWithEntries(day: DayLog, src: EntrySource, keep: set<ActivityKey>, j: ActivityKey)
    ensures KeyPoints(WithEntries(day, src, keep), src, j) == if j in keep then KeyPoints(day, src, j) else 0
  {
  }

  /** Keeping one more key of the chosen map adds what that key is worth. */
  lemma WithEntriesStep(day: DayLog, src: EntrySource, keep: set<ActivityKey>, k: ActivityKey)
    requires k !in keep
    ensures EntryTotals(WithEntries(day, src, keep + {k}), src)
      == EntryTotals(WithEntries(day, src, keep), src).Add(CategoryOf(k), KeyPoints(day, src, k))
  {
    var after := WithEntries(day, src, keep + {k});
    var before := WithEntries(day, src, keep);
    forall j | j != k ensures KeyPoints(after, src, j) == KeyPoints(before, src, j) {
      KeyPointsWithEntries(day, src, keep + {k}, j);
      KeyPointsWithEntries(day, src, keep, j);
    }
    KeyPointsWithEntries(day, src, keep + {k}, k);
    KeyPointsWithEntries(day, src, keep, k);
    EntryTotalsPointwise(after, before, src, k);
  }

  /** The loop over the completion flags, in whatever order the map yields them. */
  method SumNonRepeatables(day: DayLog) returns (byCategory: CategoryTotals)
    ensures byCategory == NonRepeatableTotals(day)
  {
    byCategory := ZeroTotals;
    var entries := day.completed.Keys;
    ghost var visited: set<ActivityKey> := {};
    EmptyEntriesTotalZero(WithEntries(day, CompletedFlags, {}), CompletedFlags);
    while entries != {}
      invariant entries !! visited && entries + visited == day.completed.Keys
      invariant byCategory == NonRepeatableTotals(WithEntries(day, CompletedFlags, visited))
      decreases entries
    {
      var key :| key in entries;
      var done := day.completed[key];
      entries := entries - {key};
      WithEntriesStep(day, CompletedFlags, visited, key);
      visited := visited + {key};
      if !done {
        continue;
      }
      // every key of the model has a catalog entry, so the category and points lookups succeed
      var category := CategoryOf(key);
      byCategory := byCategory.Add(category, Points(key));
    }
    assert WithEntries(day, CompletedFlags, visited) == day;
  }

  /** The loop over the stored counts; a count that is not positive is skipped. */
  method SumRepeatables(day: DayLog) returns (byCategory: CategoryTotals)
    ensures byCategory == RepeatableTotals(day)
  {
    byCategory := ZeroTotals;
    var entries := day.counts.Keys;
    ghost var visited: set<ActivityKey> := {};
    EmptyEntriesTotalZero(WithEntries(day, RepeatCounts, {}), RepeatCounts);
    while entries != {}
      invariant entries !! visited && entries + visited == day.counts.Keys
      invariant byCategory == RepeatableTotals(WithEntries(day, RepeatCounts, visited))
      decreases entries
    {
      var key :| key in entries;
      var count := SanitizedCount(day.counts[key]);
      entries := entries - {key};
      WithEntriesStep(day, RepeatCounts, visited, key);
      visited := visited + {key};
      if count <= 0 {
        continue;
      }
      var category := CategoryOf(key);
      byCategory := byCategory.Add(category, Points(key) * count);
    }
    assert WithEntries(day, RepeatCounts, visited) == day;
  }

  // ---------------------------------------------------------------------------
  // The minimum effective dose

  /** The completion flag for `k` is present and set. */
  predicate Done(day: DayLog, k: ActivityKey)
  {
    k in day.completed && day.completed[k]
  }

  /** The stored count for `k`, 0 when absent; not sanitised. */
  function RawCount(day: DayLog, k: ActivityKey): int
  {
    if k in day.counts then day.counts[k] else 0
  }

  predicate MobilityMet(day: DayLog)
  {
    Done(day, MobilityLowerBodyLimber11) || Done(day, MobilityUpperBodySimple6)
  }

  predicate StrengthMet(day: DayLog, deload: bool)
  {
    if deload then Done(day, StrengthPush) || Done(day, StrengthPull) || Done(day, StrengthLegs)
    else (Done(day, StrengthPush) || Done(day, StrengthPull)) && Done(day, StrengthLegs)
  }

  predicate ConditioningMet(day: DayLog, deload: bool)
  {
    if deload then RawCount(day, ConditioningEasy) > 0
    else RawCount(day, ConditioningEasy) > 0 || RawCount(day, ConditioningMedium) > 0
         || RawCount(day, ConditioningHard) > 0
  }

  /** MED: each of the mobility, strength and conditioning rules holds. */
  predicate ComputeMedMet(day: DayLog, deload: bool)
  {
    MobilityMet(day) && StrengthMet(day, deload) && ConditioningMet(day, deload)
  }

  /** MED in each mode, spelled out over the day's entries. A normal week needs a
      named mobility activity, push or pull together with legs, and any
      conditioning session. A deload week needs a named mobility activity, any one
      strength activity and an easy conditioning session. The full normal dose
      meets it in either mode. */
  lemma MedMetPillars(day: DayLog, deload: bool)
    ensures ComputeMedMet(day, false)
            <==> (Done(day, MobilityLowerBodyLimber11) || Done(day, MobilityUpperBodySimple6))
                 && (Done(day, StrengthPush) || Done(day, StrengthPull)) && Done(day, StrengthLegs)
                 && (RawCount(day, ConditioningEasy) > 0 || RawCount(day, ConditioningMedium) > 0
                     || RawCount(day, ConditioningHard) > 0)
    ensures ComputeMedMet(day, true)
            <==> (Done(day, MobilityLowerBodyLimber11) || Done(day, MobilityUpperBodySimple6))
                 && (Done(day, StrengthPush) || Done(day, StrengthPull) || Done(day, StrengthLegs))
                 && RawCount(day, ConditioningEasy) > 0
    ensures ComputeMedMet(day, deload)
            ==> Done(day, MobilityLowerBodyLimber11) || Done(day, MobilityUpperBodySimple6)
    ensures ComputeMedMet(day, deload)
            ==> Done(day, StrengthPush) || Done(day, StrengthPull) || Done(day, StrengthLegs)
    ensures ComputeMedMet(day, deload) && !deload ==> Done(day, StrengthLegs)
    ensures ComputeMedMet(day, deload)
            ==> RawCount(day, ConditioningEasy) > 0 || RawCount(day, ConditioningMedium) > 0
                || RawCount(day, ConditioningHard) > 0
    ensures ComputeMedMet(day, deload) && deload ==> RawCount(day, ConditioningEasy) > 0
    ensures (Done(day, MobilityLowerBodyLimber11) || Done(day, MobilityUpperBodySimple6))
            && (Done(day, StrengthPush) || Done(day, StrengthPull)) && Done(day, StrengthLegs)
            && RawCount(day, ConditioningEasy) > 0
            ==> ComputeMedMet(day, deload)
  {
  }

  /** Without one of the two named mobility activities MED fails, in either mode. */
  lemma MedNeedsMobility(day: DayLog, deload: bool)
    ensures !Done(day, MobilityLowerBodyLimber11) && !Done(day, MobilityUpperBodySimple6)
            ==> !ComputeMedMet(day, deload)
  {
  }

  /** Deload relaxes the strength rule from "(push or pull) and legs" to "any of the
      three", and legs alone meets it only under deload. */
  lemma DeloadRelaxesStrength(day: DayLog)
    ensures StrengthMet(day, false) ==> StrengthMet(day, true)
    ensures Done(day, StrengthLegs) && !Done(day, StrengthPush) && !Done(day, StrengthPull)
            ==> StrengthMet(day, true) && !StrengthMet(day, false)
  {
  }

  /** Deload tightens the conditioning rule to easy conditioning only, so medium or
      hard conditioning alone meets it only in a normal week. */
  lemma DeloadTightensConditioning(day: DayLog)
    ensures ConditioningMet(day, true) ==> ConditioningMet(day, false)
    ensures RawCount(day, ConditioningEasy) <= 0
            && (RawCount(day, ConditioningMedium) > 0 || RawCount(day, ConditioningHard) > 0)
            ==> !ConditioningMet(day, true) && ConditioningMet(day, false)
  {
  }

  // ---------------------------------------------------------------------------
  // Ratings

  datatype TrainingRating = Missed | Okay | Solid | Great | Amazing | AboveAndBeyond
  {
    /** Position in the order missed < okay < solid < great < amazing < above and beyond. */
    function Rank(): nat
    {
      match this
      case Missed => 0
      case Okay => 1
      case Solid => 2
      case Great => 3
      case Amazing => 4
      case AboveAndBeyond => 5
    }
  }

  datatype LifestyleRating = Missed | Okay | Solid | Great
  {
    function Rank(): nat
    {
      match this
      case Missed => 0
      case Okay => 1
      case Solid => 2
      case Great => 3
    }
  }

  /** The lower bounds of the training bands okay-to-solid, solid-to-great,
      great-to-amazing and amazing-to-above-and-beyond. */
  const TrainingBandBounds: seq<int> := [37, 47, 53, 60]
  /** The lower bounds of the lifestyle bands okay, solid and great. */
  const LifestyleBandBounds: seq<int> := [12, 22, 32]

  /** How many of `bounds` the value `x` reaches. */
  function BoundsReached(x: int, bounds: seq<int>): nat
  {
    if bounds == [] then 0
    else (if x >= bounds[0] then 1 else 0) + BoundsReached(x, bounds[1..])
  }

  lemma {:induction false} BoundsReachedMonotone(x: int, y: int, bounds: seq<int>)
    requires x <= y
    ensures BoundsReached(x, bounds) <= BoundsReached(y, bounds)
  {
    if bounds != [] {
      BoundsReachedMonotone(x, y, bounds[1..]);
    }
  }

  /** "missed" without MED; otherwise one band above "missed" for every band bound
      the points reach: 37, 47, 53 and 60 are the lower bounds. */
  function ComputeTrainingRating(trainingPoints: int, medMet: bool): (r: TrainingRating)
    ensures r == TrainingRating.Missed <==> !medMet
    ensures medMet ==> r.Rank() == 1 + BoundsReached(trainingPoints, TrainingBandBounds)
  {
    var x := trainingPoints;
    assert BoundsReached(x, [60]) == (if x >= 60 then 1 else 0) + BoundsReached(x, []);
    assert BoundsReached(x, [53, 60]) == (if x >= 53 then 1 else 0) + BoundsReached(x, [60]);
    assert BoundsReached(x, [47, 53, 60]) == (if x >= 47 then 1 else 0) + BoundsReached(x, [53, 60]);
    assert BoundsReached(x, [37, 47, 53, 60]) == (if x >= 37 then 1 else 0) + BoundsReached(x, [47, 53, 60]);
    if !medMet then TrainingRating.Missed
    else if trainingPoints < 37 then TrainingRating.Okay
    else if trainingPoints < 47 then TrainingRating.Solid
    else if trainingPoints < 53 then TrainingRating.Great
    else if trainingPoints < 60 then TrainingRating.Amazing
    else TrainingRating.AboveAndBeyond
  }

  /** The lifestyle rating counts the band bounds 12, 22 and 32 that the points reach;
      it reads nothing but the points. */
  function ComputeLifestyleRating(lifestylePoints: int): (r: LifestyleRating)
    ensures r.Rank() == BoundsReached(lifestylePoints, LifestyleBandBounds)
  {
    var x := lifestylePoints;
    assert BoundsReached(x, [32]) == (if x >= 32 then 1 else 0) + BoundsReached(x, []);
    assert BoundsReached(x, [22, 32]) == (if x >= 22 then 1 else 0) + BoundsReached(x, [32]);
    assert BoundsReached(x, [12, 22, 32]) == (if x >= 12 then 1 else 0) + BoundsReached(x, [22, 32]);
    if lifestylePoints < 12 then LifestyleRating.Missed
    else if lifestylePoints < 22 then LifestyleRating.Okay
    else if lifestylePoints < 32 then LifestyleRating.Solid
    else LifestyleRating.Great
  }

  /** With MED met, more training points never give a lower rating. */
  lemma TrainingRatingMonotone(x: int, y: int)
    requires x <= y
    ensures ComputeTrainingRating(x, true).Rank() <= ComputeTrainingRating(y, true).Rank()
  {
    BoundsReachedMonotone(x, y, TrainingBandBounds);
  }

  lemma LifestyleRatingMonotone(x: int, y: int)
    requires x <= y
    ensures ComputeLifestyleRating(x).Rank() <= ComputeLifestyleRating(y).Rank()
  {
    BoundsReachedMonotone(x, y, LifestyleBandBounds);
  }

  // ---------------------------------------------------------------------------
  // Day scores

  datatype DayScores = DayScores(
    rawByCategory: CategoryTotals,
    cappedTrainingPoints: int,
    cappedLifestylePoints: int,
    totalPoints: int,
    medMet: bool,
    dailyWin: bool,
    trainingRating: TrainingRating,
    lifestyleRating: LifestyleRating)

  function Min(a: int, b: int): int
  {
    if a <= b then a else b
  }

  /** Scores one day; `deload` is the scoring option (absent means false). */
  function ComputeDayScores(day: DayLog, deload: bool): (s: DayScores)
    ensures forall c :: s.rawByCategory.Get(c)
                        == NonRepeatableTotals(day).Get(c) + RepeatableTotals(day).Get(c)
    ensures 0 <= s.cappedTrainingPoints <= TrainingCapPoints
    ensures s.cappedTrainingPoints <= s.rawByCategory.TrainingSum()
    ensures s.rawByCategory.TrainingSum() <= TrainingCapPoints
            ==> s.cappedTrainingPoints == s.rawByCategory.TrainingSum()
    ensures s.rawByCategory.TrainingSum() >= TrainingCapPoints ==> s.cappedTrainingPoints == TrainingCapPoints
    ensures 0 <= s.cappedLifestylePoints <= LifestyleCapPoints
    ensures s.cappedLifestylePoints <= s.rawByCategory.LifestyleSum()
    ensures s.rawByCategory.LifestyleSum() <= LifestyleCapPoints
            ==> s.cappedLifestylePoints == s.rawByCategory.LifestyleSum()
    ensures s.rawByCategory.LifestyleSum() >= LifestyleCapPoints ==> s.cappedLifestylePoints == LifestyleCapPoints
    ensures s.totalPoints == s.cappedTrainingPoints + s.cappedLifestylePoints
    ensures s.medMet == ComputeMedMet(day, deload)
    ensures s.dailyWin == s.medMet
    ensures s.trainingRating == TrainingRating.Missed <==> !s.medMet
    ensures s.trainingRating == ComputeTrainingRating(s.cappedTrainingPoints, s.medMet)
    ensures s.lifestyleRating == ComputeLifestyleRating(s.cappedLifestylePoints)
  {
    var nonRepeatable := NonRepeatableTotals(day);
    var repeatable := RepeatableTotals(day);
    var rawByCategory := nonRepeatable.Plus(repeatable);
    var rawTrainingPoints := rawByCategory.mobility + rawByCategory.conditioning + rawByCategory.strength;
    var rawLifestylePoints := rawByCategory.nutrition + rawByCategory.miscellaneous;
    var cappedTrainingPoints := Min(rawTrainingPoints, TrainingCapPoints);
    var cappedLifestylePoints := Min(rawLifestylePoints, LifestyleCapPoints);
    var medMet := ComputeMedMet(day, deload);
    var dailyWin := medMet;
    DayScores(
      rawByCategory,
      cappedTrainingPoints,
      cappedLifestylePoints,
      cappedTrainingPoints + cappedLifestylePoints,
      medMet,
      dailyWin,
      ComputeTrainingRating(cappedTrainingPoints, medMet),
      ComputeLifestyleRating(cappedLifestylePoints))
  }

  /** The deload option changes the MED gate (and so the training rating) and
      nothing else: every point total is the same in both modes. */
  lemma DeloadChangesOnlyMed(day: DayLog)
    ensures ComputeDayScores(day, true).rawByCategory == ComputeDayScores(day, false).rawByCategory
    ensures ComputeDayScores(day, true).cappedTrainingPoints == ComputeDayScores(day, false).cappedTrainingPoints
    ensures ComputeDayScores(day, true).totalPoints == ComputeDayScores(day, false).totalPoints
    ensures ComputeDayScores(day, true).lifestyleRating == ComputeDayScores(day, false).lifestyleRating
  {
  }

  lemma {:induction false} CompletedSumToAtMostCatalog(keys: seq<ActivityKey>, day: DayLog, c: ActivityCategory, n: nat)
    requires n <= |keys|
    ensures KeySumTo(keys, day, CompletedFlags, c, n) <= CategoryPointsTo(keys, c, n)
  {
    if n > 0 {
      CompletedSumToAtMostCatalog(keys, day, c, n - 1);
    }
  }

  lemma CompletedSumAtMostCatalog(keys: seq<ActivityKey>, day: DayLog, c: ActivityCategory)
    ensures KeySum(keys, day, CompletedFlags, c) <= CategoryPointsTotal(keys, c)
  {
    CompletedSumToAtMostCatalog(keys, day, c, |keys|);
  }

  /** For a well-typed log the lifestyle categories get nothing from counts and at
      most the catalog's lifestyle points from flags. */
  lemma RawLifestyleAtMostCap(day: DayLog)
    requires WellTyped(day)
    ensures NonRepeatableTotals(day).LifestyleSum() + RepeatableTotals(day).LifestyleSum()
            <= LifestyleCapPoints
  {
    forall j | !IsTrainingCategory(CategoryOf(j))
      ensures KeyPoints(day, RepeatCounts, j) == 0
    {
      LifestyleNotRepeatable(j);
    }
    KeySumOfNothing(AllKeys(), day, RepeatCounts, Nutrition);
    KeySumOfNothing(AllKeys(), day, RepeatCounts, Miscellaneous);
    CompletedSumAtMostCatalog(AllKeys(), day, Nutrition);
    CompletedSumAtMostCatalog(AllKeys(), day, Miscellaneous);
    LifestylePointsEqualCap();
  }

  /** For a well-typed log the raw lifestyle points never exceed the lifestyle cap,
      so that cap never lowers the score. */
  lemma LifestyleCapNeverBinds(day: DayLog, deload: bool)
    requires WellTyped(day)
    ensures ComputeDayScores(day, deload).rawByCategory.LifestyleSum() <= LifestyleCapPoints
    ensures ComputeDayScores(day, deload).cappedLifestylePoints
            == ComputeDayScores(day, deload).rawByCategory.LifestyleSum()
  {
    var s := ComputeDayScores(day, deload);
    RawLifestyleAtMostCap(day);
    assert s.rawByCategory.Get(Nutrition) == NonRepeatableTotals(day).Get(Nutrition) + RepeatableTotals(day).Get(Nutrition);
    assert s.rawByCategory.Get(Miscellaneous) == NonRepeatableTotals(day).Get(Miscellaneous) + RepeatableTotals(day).Get(Miscellaneous);
  }

  /** The example day: limber 11, push and legs done and one easy conditioning session. */
  predicate IsExampleDay(day: DayLog)
  {
    day.completed == map[MobilityLowerBodyLimber11 := true, StrengthPush := true, StrengthLegs := true] &&
    day.counts == map[ConditioningEasy := 1]
  }

  lemma ExampleFlagTotals(day: DayLog)
    requires IsExampleDay(day)
    ensures NonRepeatableTotals(day) == CategoryTotals(3, 0, 17, 0, 0)
  {
    var rest := WithoutEntry(day, CompletedFlags, StrengthLegs);
    assert rest.completed == map[MobilityLowerBodyLimber11 := true, StrengthPush := true];
    PushAndLimberTotals(rest);
    CompletedEntryContribution(day, StrengthLegs);
  }

  lemma PushAndLimberTotals(day: DayLog)
    requires day.completed == map[MobilityLowerBodyLimber11 := true, StrengthPush := true]
    ensures NonRepeatableTotals(day) == CategoryTotals(3, 0, 7, 0, 0)
  {
    var rest := WithoutEntry(day, CompletedFlags, StrengthPush);
    assert rest.completed == map[MobilityLowerBodyLimber11 := true];
    LimberOnlyTotals(rest);
    CompletedEntryContribution(day, StrengthPush);
  }

  lemma LimberOnlyTotals(day: DayLog)
    requires day.completed == map[MobilityLowerBodyLimber11 := true]
    ensures NonRepeatableTotals(day) == CategoryTotals(3, 0, 0, 0, 0)
  {
    var rest := WithoutEntry(day, CompletedFlags, MobilityLowerBodyLimber11);
    assert rest.completed == map[];
    EmptyEntriesTotalZero(rest, CompletedFlags);
    CompletedEntryContribution(day, MobilityLowerBodyLimber11);
  }

  lemma ExampleCountTotals(day: DayLog)
    requires IsExampleDay(day)
    ensures RepeatableTotals(day) == CategoryTotals(0, 5, 0, 0, 0)
  {
    var e1 := WithoutEntry(day, RepeatCounts, ConditioningEasy);
    assert e1.counts == map[];
    EmptyEntriesTotalZero(e1, RepeatCounts);
    CountEntryContribution(day, ConditioningEasy);
  }

  /** That day scores mobility 3, strength 17 and conditioning 5: 25 training
      points, under the cap, with MED met in a normal week and the rating "okay". */
  lemma ExampleDayScores(day: DayLog)
    requires IsExampleDay(day)
    ensures ComputeDayScores(day, false).rawByCategory == CategoryTotals(3, 5, 17, 0, 0)
    ensures ComputeDayScores(day, false).cappedTrainingPoints == 25
    ensures ComputeDayScores(day, false).medMet
    ensures ComputeDayScores(day, false).trainingRating == TrainingRating.Okay
  {
    ExampleRawTotals(day);
    ExampleMedMet(day);
    assert ComputeDayScores(day, false).rawByCategory.TrainingSum() == 25;
  }

  lemma ExampleRawTotals(day: DayLog)
    requires IsExampleDay(day)
    ensures NonRepeatableTotals(day).Plus(RepeatableTotals(day)) == CategoryTotals(3, 5, 17, 0, 0)
  {
    ExampleFlagTotals(day);
    ExampleCountTotals(day);
  }

  lemma ExampleMedMet(day: DayLog)
    requires IsExampleDay(day)
    ensures ComputeMedMet(day, false)
  {
    assert Done(day, MobilityLowerBodyLimber11);
    assert Done(day, StrengthPush) && Done(day, StrengthLegs);
    assert RawCount(day, ConditioningEasy) == 1;
  }
}
