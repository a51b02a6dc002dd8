/** The feature builder and the fixed linear BMI predictor. */
module Features {
  import opened Numeric
  import opened Encoding

  /** One survey submission after parsing: numeric answers are reals,
      categorical answers stay the strings the form produced. */
  datatype Inputs = Inputs(
    gender: string,
    age: real,
    height: real,
    weight: real,
    familyHistory: string,
    FAVC: string,
    FCVC: real,
    NCP: real,
    CAEC: string,
    SMOKE: string,
    CH2O: real,
    SCC: string,
    FAF: real,
    TUE: real,
    CALC: string,
    MTRANS: string)

  /** The fifteen feature keys shared by the feature map and the
      coefficient table. */
  datatype FeatureName =
    | Age | Fcvc | Ncp | Ch2o | Faf | Tue
    | GenderMale | FamilyHistoryYes | FavcYes | SmokeYes | SccYes
    | CaecEncoded | CalcEncoded | MtransEncoded
    | HealthyLifestyleScore

  type FeatureMap = map<FeatureName, real>

  /** The regression weights, in the order the source lists them (the order
      in which the predictor visits them). */
  const ModelCoefficients: seq<(FeatureName, real)> := [
    (FamilyHistoryYes, 2.928),
    (Age, 1.838),
    (CaecEncoded, 1.817),
    (Fcvc, 1.684),
    (MtransEncoded, 1.652),
    (Faf, -0.977),
    (CalcEncoded, -0.912),
    (FavcYes, 0.798),
    (SccYes, -0.486),
    (Ncp, 0.390),
    (Ch2o, 0.375),
    (Tue, -0.295),
    (HealthyLifestyleScore, 0.375),
    (GenderMale, 0.162),
    (SmokeYes, 0.123)
  ]

  /** Composite lifestyle score: vegetables (FCVC/3), activity (FAF/3) and
      hydration ((CH2O-1)/2), each clamped into [0,1], averaged, times 100. */
  function HealthyLifestyleScoreOf(fcvc: real, faf: real, ch2o: real): (r: real)
    ensures 0.0 <= r <= 100.0
    ensures r == 100.0 <==> fcvc >= 3.0 && faf >= 3.0 && ch2o >= 3.0
    ensures r == 0.0 <==> fcvc <= 0.0 && faf <= 0.0 && ch2o <= 1.0
  {
    var fcvcNorm := Clamp01((fcvc - 0.0) / (3.0 - 0.0));
    var fafNorm := Clamp01((faf - 0.0) / (3.0 - 0.0));
    var ch2oNorm := Clamp01((ch2o - 1.0) / (3.0 - 1.0));
    ((fcvcNorm + fafNorm + ch2oNorm) / 3.0) * 100.0
  }

  /** More vegetables, more activity or more water never lowers the score. */
  lemma HealthyLifestyleScoreMonotone(fcvc: real, faf: real, ch2o: real, fcvc': real, faf': real, ch2o': real)
    requires fcvc <= fcvc' && faf <= faf' && ch2o <= ch2o'
    ensures HealthyLifestyleScoreOf(fcvc, faf, ch2o) <= HealthyLifestyleScoreOf(fcvc', faf', ch2o')
  {
    Clamp01Monotone(fcvc / 3.0, fcvc' / 3.0);
    Clamp01Monotone(faf / 3.0, faf' / 3.0);
    Clamp01Monotone((ch2o - 1.0) / 2.0, (ch2o' - 1.0) / 2.0);
  }

  /** 1 when the condition holds, 0 otherwise (`cond ? 1 : 0`). */
  function Indicator(b: bool): (r: real)
    ensures r == 0.0 || r == 1.0
    ensures r == 1.0 <==> b
  {
    if b then 1.0 else 0.0
  }

  /** Every feature key, as a finite set. */
  const AllFeatureNames: set<FeatureName> := {
    Age, Fcvc, Ncp, Ch2o, Faf, Tue,
    GenderMale, FamilyHistoryYes, FavcYes, SmokeYes, SccYes,
    CaecEncoded, CalcEncoded, MtransEncoded,
    HealthyLifestyleScore
  }

  lemma AllFeatureNamesComplete(k: FeatureName)
    ensures k in AllFeatureNames
  {
  }

  /** The value buildFeatures stores under key k. */
  function FeatureValue(x: Inputs, k: FeatureName): real
  {
    match k
    case Age => x.age
    case Fcvc => x.FCVC
    case Ncp => x.NCP
    case Ch2o => x.CH2O
    case Faf => x.FAF
    case Tue => x.TUE
    case GenderMale => Indicator(x.gender == "Male")
    case FamilyHistoryYes => Indicator(x.familyHistory == "yes")
    case FavcYes => Indicator(x.FAVC == "yes")
    case SmokeYes => Indicator(x.SMOKE == "yes")
    case SccYes => Indicator(x.SCC == "yes")
    case CaecEncoded => EncodeFrequency(x.CAEC) as real
    case CalcEncoded => EncodeFrequency(x.CALC) as real
    case MtransEncoded => EncodeTransport(x.MTRANS) as real
    case HealthyLifestyleScore => HealthyLifestyleScoreOf(x.FCVC, x.FAF, x.CH2O)
  }

  /** buildFeatures: the fifteen-key feature map. */
  function BuildFeatures(x: Inputs): (f: FeatureMap)
    ensures forall k: FeatureName :: k in f && f[k] == FeatureValue(x, k)
  {
    var f := map k | k in AllFeatureNames :: FeatureValue(x, k);
    assert forall k: FeatureName :: k in f by {
      forall k: FeatureName ensures k in f {
        AllFeatureNamesComplete(k);
      }
    }
    f
  }

  /** The five yes/no style features are 0/1 flags that are set exactly
      when the answer is "Male" or "yes"; the encoded and score features
      stay inside their ranges. */
  lemma FeatureRanges(x: Inputs)
    ensures var f := BuildFeatures(x);
      && (f[GenderMale] == 1.0 <==> x.gender == "Male")
      && (f[FamilyHistoryYes] == 1.0 <==> x.familyHistory == "yes")
      && (f[FavcYes] == 1.0 <==> x.FAVC == "yes")
      && (f[SmokeYes] == 1.0 <==> x.SMOKE == "yes")
      && (f[SccYes] == 1.0 <==> x.SCC == "yes")
      && (forall k | k in {GenderMale, FamilyHistoryYes, FavcYes, SmokeYes, SccYes} :: f[k] == 0.0 || f[k] == 1.0)
      && 0.0 <= f[CaecEncoded] <= 3.0
      && 0.0 <= f[CalcEncoded] <= 3.0
      && 0.0 <= f[MtransEncoded] <= 4.0
      && 0.0 <= f[HealthyLifestyleScore] <= 100.0
  {
  }

  /** One term of the prediction: the feature times its weight, or nothing
      when the feature map lacks the key (`if (feature in features)`). */
  function Term(entry: (FeatureName, real), f: FeatureMap): real
  {
    if entry.0 in f then f[entry.0] * entry.1 else 0.0
  }

  /** The running total of the predictor's loop after visiting `entries`. */
  function WeightedSum(entries: seq<(FeatureName, real)>, f: FeatureMap): real
    decreases |entries|
  {
    if |entries| == 0 then 0.0
    else WeightedSum(entries[..|entries| - 1], f) + Term(entries[|entries| - 1], f)
  }

  /** The predictor: the coefficient table folded over the feature map.
      Every key of the table is present, so no coefficient is skipped and
      the prediction is the full fifteen-term weighted sum. */
  function PredictedBMI(x: Inputs): (r: real)
    ensures r ==
      2.928 * FeatureValue(x, FamilyHistoryYes) + 1.838 * FeatureValue(x, Age)
      + 1.817 * FeatureValue(x, CaecEncoded) + 1.684 * FeatureValue(x, Fcvc)
      + 1.652 * FeatureValue(x, MtransEncoded) - 0.977 * FeatureValue(x, Faf)
      - 0.912 * FeatureValue(x, CalcEncoded) + 0.798 * FeatureValue(x, FavcYes)
      - 0.486 * FeatureValue(x, SccYes) + 0.390 * FeatureValue(x, Ncp)
      + 0.375 * FeatureValue(x, Ch2o) - 0.295 * FeatureValue(x, Tue)
      + 0.375 * FeatureValue(x, HealthyLifestyleScore) + 0.162 * FeatureValue(x, GenderMale)
      + 0.123 * FeatureValue(x, SmokeYes)
  {
    var f := BuildFeatures(x);
    WeightedSumOfFifteen(ModelCoefficients, f);
    WeightedSum(ModelCoefficients, f)
  }

  /** predictBMIUsingModel: builds the features and runs the accumulation
      loop over the coefficient table. */
  method PredictBMIUsingModel(x: Inputs) returns (predicted: real)
    ensures predicted == PredictedBMI(x)
  {
    var features := BuildFeatures(x);
    predicted := Accumulate(ModelCoefficients, features);
  }

  /** The `for (const [feature, coefficient] of ...)` loop: adds each
      feature times its weight, skipping keys the feature map lacks. */
  method Accumulate(table: seq<(FeatureName, real)>, features: FeatureMap) returns (total: real)
    ensures total == WeightedSum(table, features)
  {
    total := 0.0;
    var i := 0;
    while i < |table|
      invariant 0 <= i <= |table|
      invariant total == WeightedSum(table[..i], features)
    {
      var (feature, coefficient) := table[i];
      if feature in features {
        total := total + features[feature] * coefficient;
      }
      WeightedSumSnoc(table, i + 1, features);
      i := i + 1;
    }
    assert table[..i] == table;
  }

  /** The same sum written over the answers themselves: neither height nor
      weight takes part in the prediction. */
  lemma PredictedBMIClosedForm(x: Inputs)
    ensures PredictedBMI(x) ==
      2.928 * Indicator(x.familyHistory == "yes")
      + 1.838 * x.age
      + 1.817 * (EncodeFrequency(x.CAEC) as real)
      + 1.684 * x.FCVC
      + 1.652 * (EncodeTransport(x.MTRANS) as real)
      - 0.977 * x.FAF
      - 0.912 * (EncodeFrequency(x.CALC) as real)
      + 0.798 * Indicator(x.FAVC == "yes")
      - 0.486 * Indicator(x.SCC == "yes")
      + 0.390 * x.NCP
      + 0.375 * x.CH2O
      - 0.295 * x.TUE
      + 0.375 * HealthyLifestyleScoreOf(x.FCVC, x.FAF, x.CH2O)
      + 0.162 * Indicator(x.gender == "Male")
      + 0.123 * Indicator(x.SMOKE == "yes")
  {
  }

  /** Changing height or weight never changes the prediction. */
  lemma PredictedBMIIgnoresBody(x: Inputs, height: real, weight: real)
    ensures PredictedBMI(x.(height := height, weight := weight)) == PredictedBMI(x)
  {
  }

  /** A fifteen-entry table sums to its fifteen terms. */
  lemma WeightedSumOfFifteen(c: seq<(FeatureName, real)>, f: FeatureMap)
    requires |c| == 15
    ensures WeightedSum(c, f) ==
      Term(c[0], f) + Term(c[1], f) + Term(c[2], f) + Term(c[3], f) + Term(c[4], f)
      + Term(c[5], f) + Term(c[6], f) + Term(c[7], f) + Term(c[8], f) + Term(c[9], f)
      + Term(c[10], f) + Term(c[11], f) + Term(c[12], f) + Term(c[13], f) + Term(c[14], f)
  {
    assert c[..15] == c;
    WeightedSumSnoc(c, 15, f);
    WeightedSumSnoc(c, 14, f);
    WeightedSumSnoc(c, 13, f);
    WeightedSumSnoc(c, 12, f);
    WeightedSumSnoc(c, 11, f);
    WeightedSumSnoc(c, 10, f);
    WeightedSumSnoc(c, 9, f);
    WeightedSumSnoc(c, 8, f);
    WeightedSumSnoc(c, 7, f);
    WeightedSumSnoc(c, 6, f);
    WeightedSumSnoc(c, 5, f);
    WeightedSumSnoc(c, 4, f);
    WeightedSumSnoc(c, 3, f);
    WeightedSumSnoc(c, 2, f);
    WeightedSumSnoc(c, 1, f);
    assert c[..0] == [];
  }

  /** Peeling the last visited entry off a prefix of the table. */
  lemma WeightedSumSnoc(entries: seq<(FeatureName, real)>, k: nat, f: FeatureMap)
    requires 0 < k <= |entries|
    ensures WeightedSum(entries[..k], f) == WeightedSum(entries[..k - 1], f) + Term(entries[k - 1], f)
  {
    assert entries[..k][..k - 1] == entries[..k - 1];
  }
}
