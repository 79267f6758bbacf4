/** The activity catalog: the fixed set of scoreable activities, each with a
    category, a point value and a repeatable flag, and the two daily caps. */
module Activities {
  import opened Seqs

  /** The per-day cap on mobility + conditioning + strength points. */
  const TrainingCapPoints: int := 63
  /** The per-day cap on nutrition + miscellaneous points. */
  const LifestyleCapPoints: int := 45

  datatype ActivityCategory = Mobility | Conditioning | Strength | Nutrition | Miscellaneous

  datatype ActivityKey =
    | MobilityLowerBodyLimber11
    | MobilityUpperBodySimple6
    | MobilityLowerBackStretches
    | ConditioningJumpsThrows
    | ConditioningEasy
    | ConditioningMedium
    | ConditioningHard
    | StrengthPush
    | StrengthPull
    | StrengthLegs
    | StrengthAbs
    | StrengthCompression
    | NutritionOmad
    | NutritionNoCarbs
    | NutritionProteinGoal
    | NutritionFatGoal
    | NutritionWaterGoal
    | MiscWakeUpEarly
    | MiscExerciseImmediately
    | MiscColdShower

  /** One catalog entry (labels, display groups and durations are presentation only). */
  datatype ActivityDefinition = ActivityDefinition(
    key: ActivityKey,
    category: ActivityCategory,
    points: int,
    repeatable: bool)

  /** The catalog entry of a key. The position columns below (KeyAt, CategoryAt,
      PointsAt) repeat the key order, categories and points for the catalog sums,
      and KeyAtColumns ties them to this table. */
  function Definition(k: ActivityKey): (d: ActivityDefinition)
    ensures d.key == k
  {
    match k
    case MobilityLowerBodyLimber11 => ActivityDefinition(k, Mobility, 3, false)
    case MobilityUpperBodySimple6 => ActivityDefinition(k, Mobility, 3, false)
    case MobilityLowerBackStretches => ActivityDefinition(k, Mobility, 2, false)
    case ConditioningJumpsThrows => ActivityDefinition(k, Conditioning, 3, false)
    case ConditioningEasy => ActivityDefinition(k, Conditioning, 5, true)
    case ConditioningMedium => ActivityDefinition(k, Conditioning, 7, true)
    case ConditioningHard => ActivityDefinition(k, Conditioning, 8, true)
    case StrengthPush => ActivityDefinition(k, Strength, 7, false)
    case StrengthPull => ActivityDefinition(k, Strength, 7, false)
    case StrengthLegs => ActivityDefinition(k, Strength, 10, false)
    case StrengthAbs => ActivityDefinition(k, Strength, 5, false)
    case StrengthCompression => ActivityDefinition(k, Strength, 3, false)
    case NutritionOmad => ActivityDefinition(k, Nutrition, 8, false)
    case NutritionNoCarbs => ActivityDefinition(k, Nutrition, 10, false)
    case NutritionProteinGoal => ActivityDefinition(k, Nutrition, 3, false)
    case NutritionFatGoal => ActivityDefinition(k, Nutrition, 5, false)
    case NutritionWaterGoal => ActivityDefinition(k, Nutrition, 2, false)
    case MiscWakeUpEarly => ActivityDefinition(k, Miscellaneous, 8, false)
    case MiscExerciseImmediately => ActivityDefinition(k, Miscellaneous, 6, false)
    case MiscColdShower => ActivityDefinition(k, Miscellaneous, 3, false)
  }

  /** The key at position `i` of the catalog. */
  function KeyAt(i: nat): ActivityKey
    requires i < 20
  {
    if i < 10 then
      if i < 5 then
        if i < 2 then
          if i < 1 then MobilityLowerBodyLimber11 else MobilityUpperBodySimple6
        else
          if i < 3 then
            MobilityLowerBackStretches
          else
            if i < 4 then ConditioningJumpsThrows else ConditioningEasy
      else
        if i < 7 then
          if i < 6 then ConditioningMedium else ConditioningHard
        else
          if i < 8 then
            StrengthPush
          else
            if i < 9 then StrengthPull else StrengthLegs
    else
      if i < 15 then
        if i < 12 then
          if i < 11 then StrengthAbs else StrengthCompression
        else
          if i < 13 then
            NutritionOmad
          else
            if i < 14 then NutritionNoCarbs else NutritionProteinGoal
      else
        if i < 17 then
          if i < 16 then NutritionFatGoal else NutritionWaterGoal
        else
          if i < 18 then
            MiscWakeUpEarly
          else
            if i < 19 then MiscExerciseImmediately else MiscColdShower
  }

  /** Every key in the order of the catalog (and of the key union). */
  function AllKeys(): (keys: seq<ActivityKey>)
    ensures |keys| == 20
    ensures forall i :: 0 <= i < 20 ==> keys[i] == KeyAt(i)
  {
    seq(20, i requires 0 <= i < 20 => KeyAt(i))
  }

  /** The catalog as the ordered list of definitions. */
  function Catalog(): (defs: seq<ActivityDefinition>)
    ensures |defs| == |AllKeys()|
    ensures forall i :: 0 <= i < |defs| ==> defs[i] == Definition(AllKeys()[i])
  {
    seq(|AllKeys()|, i requires 0 <= i < |AllKeys()| => Definition(AllKeys()[i]))
  }

  /** Points of a key: a positive integer for every key. */
  function Points(k: ActivityKey): (p: int)
    ensures p > 0
  {
    Definition(k).points
  }

  function CategoryOf(k: ActivityKey): ActivityCategory
  {
    Definition(k).category
  }

  function IsRepeatable(k: ActivityKey): bool
  {
    Definition(k).repeatable
  }

  predicate IsTrainingCategory(c: ActivityCategory)
  {
    c == Mobility || c == Conditioning || c == Strength
  }

  /** Sum of the points of the keys of category `c` among the first `n` of `keys`. */
  function CategoryPointsTo(keys: seq<ActivityKey>, c: ActivityCategory, n: nat): int
    requires n <= |keys|
  {
    if n == 0 then 0
    else CategoryPointsTo(keys, c, n - 1) + (if CategoryOf(keys[n - 1]) == c then Points(keys[n - 1]) else 0)
  }

  /** Sum of the points of the keys of category `c` in `keys`. */
  function CategoryPointsTotal(keys: seq<ActivityKey>, c: ActivityCategory): int
  {
    CategoryPointsTo(keys, c, |keys|)
  }

  /** The catalog has twenty entries with pairwise-distinct keys, and every key of
      the key union has exactly one entry. */
  lemma CatalogIsOneToOne()
    ensures |Catalog()| == 20
    ensures Distinct(AllKeys())
    ensures forall k: ActivityKey :: k in AllKeys()
    ensures forall i, j :: 0 <= i < j < |Catalog()| ==> Catalog()[i].key != Catalog()[j].key
  {
    forall k: ActivityKey ensures k in AllKeys() {
      match k
      case MobilityLowerBodyLimber11 => assert AllKeys()[0] == k;
      case MobilityUpperBodySimple6 => assert AllKeys()[1] == k;
      case MobilityLowerBackStretches => assert AllKeys()[2] == k;
      case ConditioningJumpsThrows => assert AllKeys()[3] == k;
      case ConditioningEasy => assert AllKeys()[4] == k;
      case ConditioningMedium => assert AllKeys()[5] == k;
      case ConditioningHard => assert AllKeys()[6] == k;
      case StrengthPush => assert AllKeys()[7] == k;
      case StrengthPull => assert AllKeys()[8] == k;
      case StrengthLegs => assert AllKeys()[9] == k;
      case StrengthAbs => assert AllKeys()[10] == k;
      case StrengthCompression => assert AllKeys()[11] == k;
      case NutritionOmad => assert AllKeys()[12] == k;
      case NutritionNoCarbs => assert AllKeys()[13] == k;
      case NutritionProteinGoal => assert AllKeys()[14] == k;
      case NutritionFatGoal => assert AllKeys()[15] == k;
      case NutritionWaterGoal => assert AllKeys()[16] == k;
      case MiscWakeUpEarly => assert AllKeys()[17] == k;
      case MiscExerciseImmediately => assert AllKeys()[18] == k;
      case MiscColdShower => assert AllKeys()[19] == k;
    }
  }

  /** Exactly the three conditioning tiers are repeatable, and they are all
      conditioning activities. */
  lemma RepeatableKeys(k: ActivityKey)
    ensures IsRepeatable(k) <==> k in {ConditioningEasy, ConditioningMedium, ConditioningHard}
    ensures IsRepeatable(k) ==> CategoryOf(k) == Conditioning
  {
  }

  /** The keys read by the minimum-effective-dose rules have the expected categories. */
  lemma MedKeysCategories()
    ensures CategoryOf(MobilityLowerBodyLimber11) == Mobility
    ensures CategoryOf(MobilityUpperBodySimple6) == Mobility
    ensures CategoryOf(StrengthPush) == Strength
    ensures CategoryOf(StrengthPull) == Strength
    ensures CategoryOf(StrengthLegs) == Strength
    ensures CategoryOf(ConditioningEasy) == Conditioning
    ensures CategoryOf(ConditioningMedium) == Conditioning
    ensures CategoryOf(ConditioningHard) == Conditioning
  {
  }

  /** The nutrition and miscellaneous activities are all one-time completions,
      and together they are worth exactly the lifestyle cap. */
  lemma LifestyleNotRepeatable(k: ActivityKey)
    ensures !IsTrainingCategory(CategoryOf(k)) ==> !IsRepeatable(k)
  {
  }

  /** The nutrition and miscellaneous activities together are worth exactly the lifestyle cap. */
  lemma LifestylePointsEqualCap()
    ensures CategoryPointsTotal(AllKeys(), Nutrition) + CategoryPointsTotal(AllKeys(), Miscellaneous)
            == LifestyleCapPoints
  {
    CatalogPointsAgree(Nutrition, 20);
    CatalogPointsAgree(Miscellaneous, 20);
    CatalogLifestylePoints();
  }

  /** The category column of the catalog, by position. */
  function CategoryAt(i: nat): ActivityCategory
    requires i < 20
  {
    if i < 3 then Mobility
    else if i < 7 then Conditioning
    else if i < 12 then Strength
    else if i < 17 then Nutrition
    else Miscellaneous
  }

  /** The points column of the catalog, by position. */
  function PointsAt(i: nat): int
    requires i < 20
  {
    if i < 10 then
      if i < 5 then
        if i < 2 then
          if i < 1 then 3 else 3
        else
          if i < 3 then
            2
          else
            if i < 4 then 3 else 5
      else
        if i < 7 then
          if i < 6 then 7 else 8
        else
          if i < 8 then
            7
          else
            if i < 9 then 7 else 10
    else
      if i < 15 then
        if i < 12 then
          if i < 11 then 5 else 3
        else
          if i < 13 then
            8
          else
            if i < 14 then 10 else 3
      else
        if i < 17 then
          if i < 16 then 5 else 2
        else
          if i < 18 then
            8
          else
            if i < 19 then 6 else 3
  }

  /** The columns agree with the definitions of the keys at each position. */
  lemma KeyAtColumns(i: nat)
    requires i < 20
    ensures CategoryOf(KeyAt(i)) == CategoryAt(i)
    ensures Points(KeyAt(i)) == PointsAt(i)
  {
  }

  /** The points of category `c` among the first `n` positions of the catalog. */
  function CatalogPointsTo(c: ActivityCategory, n: nat): int
    requires n <= 20
  {
    if n == 0 then 0
    else CatalogPointsTo(c, n - 1) + (if CategoryAt(n - 1) == c then PointsAt(n - 1) else 0)
  }

  lemma {:induction false} CatalogPointsAgree(c: ActivityCategory, n: nat)
    requires n <= 20
    ensures CategoryPointsTo(AllKeys(), c, n) == CatalogPointsTo(c, n)
  {
    if n > 0 {
      CatalogPointsAgree(c, n - 1);
      KeyAtColumns(n - 1);
    }
  }

  /** The first twelve positions hold training keys only. */
  lemma {:induction false} CatalogTrainingPrefix(c: ActivityCategory, n: nat)
    requires n <= 12
    requires c == Nutrition || c == Miscellaneous
    ensures CatalogPointsTo(c, n) == 0
  {
    if n > 0 {
      CatalogTrainingPrefix(c, n - 1);
    }
  }

  /** Nutrition is worth 28 points over the catalog and miscellaneous 17. */
  lemma CatalogLifestylePoints()
    ensures CatalogPointsTo(Nutrition, 20) == 28
    ensures CatalogPointsTo(Miscellaneous, 20) == 17
  {
    CatalogTrainingPrefix(Nutrition, 12);
    CatalogTrainingPrefix(Miscellaneous, 12);
    assert CatalogPointsTo(Nutrition, 17) == 28;
    assert CatalogPointsTo(Miscellaneous, 17) == 0;
  }
}
