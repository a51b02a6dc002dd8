/** Sequences kept in a fixed rule order, and the fact that such a
    sequence is fully determined by which elements it holds. */
module Ranked {

  /** Every element comes strictly after the ones before it in rank. */
  ghost predicate StrictlyAscending<T>(s: seq<T>, rank: T -> int)
  {
    forall i, j :: 0 <= i < j < |s| ==> rank(s[i]) < rank(s[j])
  }

  /** Two rule-ordered lists with the same members are the same list: the
      rule order leaves no freedom in how the fired rules are listed. */
  lemma {:induction false} AscendingUnique<T>(a: seq<T>, b: seq<T>, rank: T -> int)
    requires StrictlyAscending(a, rank) && StrictlyAscending(b, rank)
    requires forall x :: x in a <==> x in b
    ensures a == b
    decreases |a|
  {
    assert |b| > 0 ==> b[0] in a;
    if |a| == 0 {
      assert b == [];
    } else {
      assert a[0] in b;
      var j :| 0 <= j < |b| && b[j] == a[0];
      assert b[0] in a;
      var i :| 0 <= i < |a| && a[i] == b[0];
      assert rank(a[0]) <= rank(a[i]) == rank(b[0]);
      assert j == 0;
      forall x
        ensures x in a[1..] <==> x in b[1..]
      {
        if x in a[1..] {
          var k :| 1 <= k < |a| && a[k] == x;
          assert rank(a[0]) < rank(x);
          assert x in b && x != b[0];
        }
        if x in b[1..] {
          var k :| 1 <= k < |b| && b[k] == x;
          assert rank(b[0]) < rank(x);
          assert x in a && x != a[0];
        }
      }
      AscendingUnique(a[1..], b[1..], rank);
      assert a == [a[0]] + a[1..];
      assert b == [b[0]] + b[1..];
    }
  }

  /** `list.push(item)` when `cond` holds, the list unchanged otherwise. */
  function Push<T(!new)>(list: seq<T>, cond: bool, item: T): (r: seq<T>)
    ensures forall v :: v in r <==> v in list || (cond && v == item)
    ensures |r| <= |list| + 1
  {
    if cond then list + [item] else list
  }

  /** Pushing an item that ranks above everything already listed keeps the
      list in order. */
  lemma PushAscending<T(!new)>(list: seq<T>, cond: bool, item: T, rank: T -> int)
    requires StrictlyAscending(list, rank)
    requires forall v | v in list :: rank(v) < rank(item)
    ensures StrictlyAscending(Push(list, cond, item), rank)
  {
    if cond {
      var r := list + [item];
      forall i, j | 0 <= i < j < |r|
        ensures rank(r[i]) < rank(r[j])
      {
        if j == |list| {
          assert r[i] in list;
        } else {
          assert r[i] == list[i] && r[j] == list[j];
        }
      }
    }
  }
}

/** The threshold rules of calculateObesityRisk (risk and protective
    factors) and of generateRecommendations. Each rule adds at most one
    entry, and entries appear in rule order. */
module Rules {
  import opened Features
  import opened Ranked

  /** The factor labels, listed in the order the rules are evaluated. */
  datatype FactorKind =
    | FamilyHistory
    | LowPhysicalActivity
    | RegularExercise
    | HighCaloricFood
    | HighVegetableIntake
    | AgeRelated

  datatype Impact = HighImpact | ModerateImpact | LowImpact

  /** The impact label each factor carries. */
  function ImpactOf(k: FactorKind): (i: Impact)
    ensures i == HighImpact <==> k == FamilyHistory || k == RegularExercise
    ensures i == ModerateImpact <==> k == LowPhysicalActivity || k == HighCaloricFood || k == HighVegetableIntake
    ensures i == LowImpact <==> k == AgeRelated
  {
    match k
    case FamilyHistory => HighImpact
    case LowPhysicalActivity => ModerateImpact
    case RegularExercise => HighImpact
    case HighCaloricFood => ModerateImpact
    case HighVegetableIntake => ModerateImpact
    case AgeRelated => LowImpact
  }

  /** Position of the rule that emits the factor. */
  function FactorRank(k: FactorKind): int
  {
    match k
    case FamilyHistory => 0
    case LowPhysicalActivity => 1
    case RegularExercise => 2
    case HighCaloricFood => 3
    case HighVegetableIntake => 4
    case AgeRelated => 5
  }

  predicate IsProtective(k: FactorKind)
  {
    k == RegularExercise || k == HighVegetableIntake
  }

  /** Family history, low activity, high-calorie food and age > 35, pushed
      in that order. */
  function RiskFactors(x: Inputs): (r: seq<FactorKind>)
    ensures |r| <= 4
    ensures forall k :: k in r ==> !IsProtective(k)
    ensures FamilyHistory in r <==> x.familyHistory == "yes"
    ensures LowPhysicalActivity in r <==> x.FAF < 2.0
    ensures HighCaloricFood in r <==> x.FAVC == "yes"
    ensures AgeRelated in r <==> x.age > 35.0
  {
    var r1 := Push([], x.familyHistory == "yes", FamilyHistory);
    var r2 := Push(r1, x.FAF < 2.0, LowPhysicalActivity);
    var r3 := Push(r2, x.FAVC == "yes", HighCaloricFood);
    Push(r3, x.age > 35.0, AgeRelated)
  }

  /** Regular exercise (only on the else-branch of the low-activity test)
      and high vegetable intake, pushed in that order. */
  function ProtectiveFactors(x: Inputs): (r: seq<FactorKind>)
    ensures |r| <= 2
    ensures forall k :: k in r ==> IsProtective(k)
    ensures RegularExercise in r <==> x.FAF >= 3.0
    ensures HighVegetableIntake in r <==> x.FCVC >= 2.5
  {
    var r1 := Push([], !(x.FAF < 2.0) && x.FAF >= 3.0, RegularExercise);
    Push(r1, x.FCVC >= 2.5, HighVegetableIntake)
  }

  /** Both factor lists come out in rule order. */
  lemma FactorsInRuleOrder(x: Inputs)
    ensures StrictlyAscending(RiskFactors(x), FactorRank)
    ensures StrictlyAscending(ProtectiveFactors(x), FactorRank)
  {
    var r1 := Push([], x.familyHistory == "yes", FamilyHistory);
    var r2 := Push(r1, x.FAF < 2.0, LowPhysicalActivity);
    var r3 := Push(r2, x.FAVC == "yes", HighCaloricFood);
    PushAscending([], x.familyHistory == "yes", FamilyHistory, FactorRank);
    PushAscending(r1, x.FAF < 2.0, LowPhysicalActivity, FactorRank);
    PushAscending(r2, x.FAVC == "yes", HighCaloricFood, FactorRank);
    PushAscending(r3, x.age > 35.0, AgeRelated, FactorRank);
    var p1 := Push([], !(x.FAF < 2.0) && x.FAF >= 3.0, RegularExercise);
    PushAscending([], !(x.FAF < 2.0) && x.FAF >= 3.0, RegularExercise, FactorRank);
    PushAscending(p1, x.FCVC >= 2.5, HighVegetableIntake, FactorRank);
  }

  /** Low activity and regular exercise are never both reported, and an
      activity level in [2,3) reports neither. */
  lemma ActivityFactorsExclusive(x: Inputs)
    ensures !(LowPhysicalActivity in RiskFactors(x) && RegularExercise in ProtectiveFactors(x))
    ensures 2.0 <= x.FAF < 3.0 ==>
      LowPhysicalActivity !in RiskFactors(x) && RegularExercise !in ProtectiveFactors(x)
  {
  }

  datatype Recommendation =
    | MoreActivity
    | MoreVegetables
    | FewerHighCalorieFoods
    | MoreWater
    | TrackCalories

  datatype Category = PhysicalActivity | Diet | Hydration | Monitoring

  /** The category each recommendation is filed under. */
  function CategoryOf(rec: Recommendation): (c: Category)
    ensures c == PhysicalActivity <==> rec == MoreActivity
    ensures c == Diet <==> rec == MoreVegetables || rec == FewerHighCalorieFoods
    ensures c == Hydration <==> rec == MoreWater
    ensures c == Monitoring <==> rec == TrackCalories
  {
    match rec
    case MoreActivity => PhysicalActivity
    case MoreVegetables => Diet
    case FewerHighCalorieFoods => Diet
    case MoreWater => Hydration
    case TrackCalories => Monitoring
  }

  /** Position of the rule that emits the recommendation. */
  function RecommendationRank(rec: Recommendation): int
  {
    match rec
    case MoreActivity => 0
    case MoreVegetables => 1
    case FewerHighCalorieFoods => 2
    case MoreWater => 3
    case TrackCalories => 4
  }

  /** Whether the rule for `rec` fires on these answers. */
  predicate Recommended(x: Inputs, rec: Recommendation)
  {
    match rec
    case MoreActivity => x.FAF < 2.0
    case MoreVegetables => x.FCVC < 2.0
    case FewerHighCalorieFoods => x.FAVC == "yes"
    case MoreWater => x.CH2O < 2.0
    case TrackCalories => x.SCC == "no"
  }

  /** generateRecommendations: the five threshold rules tried in order, each
      pushing its recommendation when it fires. */
  function Recommendations(x: Inputs): (r: seq<Recommendation>)
    ensures |r| <= 5
    ensures forall rec :: rec in r <==> Recommended(x, rec)
  {
    var r1 := Push([], x.FAF < 2.0, MoreActivity);
    var r2 := Push(r1, x.FCVC < 2.0, MoreVegetables);
    var r3 := Push(r2, x.FAVC == "yes", FewerHighCalorieFoods);
    var r4 := Push(r3, x.CH2O < 2.0, MoreWater);
    Push(r4, x.SCC == "no", TrackCalories)
  }

  /** The recommendations come out in rule order. */
  lemma RecommendationsInRuleOrder(x: Inputs)
    ensures StrictlyAscending(Recommendations(x), RecommendationRank)
  {
    var r1 := Push([], x.FAF < 2.0, MoreActivity);
    var r2 := Push(r1, x.FCVC < 2.0, MoreVegetables);
    var r3 := Push(r2, x.FAVC == "yes", FewerHighCalorieFoods);
    var r4 := Push(r3, x.CH2O < 2.0, MoreWater);
    PushAscending([], x.FAF < 2.0, MoreActivity, RecommendationRank);
    PushAscending(r1, x.FCVC < 2.0, MoreVegetables, RecommendationRank);
    PushAscending(r2, x.FAVC == "yes", FewerHighCalorieFoods, RecommendationRank);
    PushAscending(r3, x.CH2O < 2.0, MoreWater, RecommendationRank);
    PushAscending(r4, x.SCC == "no", TrackCalories, RecommendationRank);
  }

  /** The full rule order, every rule fired. */
  const AllRecommendations: seq<Recommendation> :=
    [MoreActivity, MoreVegetables, FewerHighCalorieFoods, MoreWater, TrackCalories]

  /** The recommendation list is the ONLY rule-ordered list of the fired
      rules. */
  lemma RecommendationsCharacterized(x: Inputs, s: seq<Recommendation>)
    requires forall rec :: rec in s <==> Recommended(x, rec)
    requires StrictlyAscending(s, RecommendationRank)
    ensures s == Recommendations(x)
  {
    RecommendationsInRuleOrder(x);
    AscendingUnique(s, Recommendations(x), RecommendationRank);
  }

  /** When every rule fires the list is all five, with categories Physical
      Activity, Diet, Diet, Hydration, Monitoring. */
  lemma AllRulesFire(x: Inputs)
    requires x.FAF < 2.0 && x.FCVC < 2.0 && x.FAVC == "yes" && x.CH2O < 2.0 && x.SCC == "no"
    ensures Recommendations(x) == AllRecommendations
    ensures seq(5, i requires 0 <= i < 5 => CategoryOf(Recommendations(x)[i]))
      == [PhysicalActivity, Diet, Diet, Hydration, Monitoring]
  {
  }
}
