/** calculateObesityRisk: prediction, factor lists, decision table and
    recommendations assembled into one result record. */
module RiskModel {
  import opened Numeric
  import opened Encoding
  import opened Features
  import opened Classifier
  import opened Rules

  datatype RiskResult = RiskResult(
    predictedBMI: real,
    risk: Risk,
    likelihood: int,
    riskFactors: seq<FactorKind>,
    protectiveFactors: seq<FactorKind>,
    recommendations: seq<Recommendation>)

  /** The label is chosen on the unrounded prediction; only the reported
      prediction is rounded to one decimal. */
  function CalculateObesityRisk(x: Inputs, currentBMI: real): (r: RiskResult)
    ensures 0 <= r.likelihood <= 100
    ensures currentBMI >= 30.0 ==> r.risk == AlreadyObese && r.likelihood == 100
    ensures r.risk == AlreadyObese <==> currentBMI >= 30.0
    ensures r.risk == High ==> r.likelihood <= 85
    ensures r.risk == Moderate ==> 30 <= r.likelihood <= 60
    ensures r.risk == Low ==> 5 <= r.likelihood <= 25
    ensures r.risk == Classify(currentBMI, PredictedBMI(x)).risk
    ensures PredictedBMI(x) >= 0.0 ==> PredictedBMI(x) - 0.05 < r.predictedBMI <= PredictedBMI(x) + 0.05
    ensures PredictedBMI(x) <= 0.0 ==> PredictedBMI(x) - 0.05 <= r.predictedBMI < PredictedBMI(x) + 0.05
    ensures |r.recommendations| <= 5 && |r.riskFactors| <= 4 && |r.protectiveFactors| <= 2
  {
    var predicted := PredictedBMI(x);
    var c := Classify(currentBMI, predicted);
    LikelihoodBounds(currentBMI, predicted);
    RiskResult(
      ToFixed1(predicted),
      c.risk,
      FinalLikelihood(c.rawLikelihood),
      RiskFactors(x),
      ProtectiveFactors(x),
      Recommendations(x))
  }

  /** An obese current BMI decides the outcome whatever the answers. */
  lemma AlreadyObeseIgnoresAnswers(x: Inputs, y: Inputs, currentBMI: real)
    requires currentBMI >= 30.0
    ensures CalculateObesityRisk(x, currentBMI).risk == CalculateObesityRisk(y, currentBMI).risk == AlreadyObese
    ensures CalculateObesityRisk(x, currentBMI).likelihood == CalculateObesityRisk(y, currentBMI).likelihood == 100
  {
  }

  /** The decision uses the unrounded prediction. A 14-year-old woman with
      no flagged answers, no vegetables, no activity, one meal, half a
      litre of water and 4.5 hours of screen time (all within the form's
      limits) is predicted 24.982: reported as 25.0, yet with a current BMI
      of 23.0 the Moderate test (prediction >= 25 or a gap above 2) fails
      and the label is Low. */
  lemma UnroundedPredictionDecides(x: Inputs)
    requires x.gender != "Male" && x.familyHistory != "yes" && x.FAVC != "yes"
    requires x.SMOKE != "yes" && x.SCC != "yes"
    requires x.CAEC == "no" && x.CALC == "no" && x.MTRANS == "Walking"
    requires x.age == 14.0 && x.FCVC == 0.0 && x.NCP == 1.0 && x.CH2O == 0.5
    requires x.FAF == 0.0 && x.TUE == 4.5
    ensures PredictedBMI(x) == 24.982
    ensures CalculateObesityRisk(x, 23.0).predictedBMI == 25.0
    ensures CalculateObesityRisk(x, 23.0).risk == Low
  {
    QuietTeenPrediction(x);
    assert ToFixed1(24.982) == 25.0 by {
      RoundUnique(249.82, 250);
    }
  }

  /** The prediction for the answers above: only age (14), meals (1),
      water (0.5) and screen time (4.5) contribute. */
  lemma QuietTeenPrediction(x: Inputs)
    requires x.gender != "Male" && x.familyHistory != "yes" && x.FAVC != "yes"
    requires x.SMOKE != "yes" && x.SCC != "yes"
    requires x.CAEC == "no" && x.CALC == "no" && x.MTRANS == "Walking"
    requires x.age == 14.0 && x.FCVC == 0.0 && x.NCP == 1.0 && x.CH2O == 0.5
    requires x.FAF == 0.0 && x.TUE == 4.5
    ensures PredictedBMI(x) == 24.982
  {
    NoFlagsNoCodes(x);
    assert FeatureValue(x, HealthyLifestyleScore) == 0.0;
  }

  /** Answers that flag nothing and name the first level of every
      categorical question zero every flag and code. */
  lemma NoFlagsNoCodes(x: Inputs)
    requires x.gender != "Male" && x.familyHistory != "yes" && x.FAVC != "yes"
    requires x.SMOKE != "yes" && x.SCC != "yes"
    requires x.CAEC == "no" && x.CALC == "no" && x.MTRANS == "Walking"
    ensures FeatureValue(x, FamilyHistoryYes) == 0.0 && FeatureValue(x, FavcYes) == 0.0
    ensures FeatureValue(x, SccYes) == 0.0 && FeatureValue(x, GenderMale) == 0.0
    ensures FeatureValue(x, SmokeYes) == 0.0
    ensures FeatureValue(x, CaecEncoded) == 0.0 && FeatureValue(x, CalcEncoded) == 0.0
    ensures FeatureValue(x, MtransEncoded) == 0.0
  {
    FrequencyRoundTrip(0);
    TransportRoundTrip(0);
  }

  /** A 25-year-old man, 180 cm and 75 kg, with healthy habits: the fixed
      weights predict a BMI of 82.439, so the Moderate branch fires at its
      60% cap although the current BMI is 23.1. */
  const HealthyYoungMan: Inputs := Inputs(
    gender := "Male", age := 25.0, height := 180.0, weight := 75.0,
    familyHistory := "no", FAVC := "no", FCVC := 3.0, NCP := 3.0, CAEC := "Sometimes",
    SMOKE := "no", CH2O := 2.0, SCC := "yes", FAF := 3.0, TUE := 1.0, CALC := "no",
    MTRANS := "Walking")

  lemma HealthyYoungManResult(x: Inputs)
    requires x == HealthyYoungMan
    ensures PredictedBMI(x) == 82.439
    ensures CalculateObesityRisk(x, 23.1).risk == Moderate
    ensures CalculateObesityRisk(x, 23.1).likelihood == 60
    ensures CalculateObesityRisk(x, 23.1).riskFactors == []
    ensures CalculateObesityRisk(x, 23.1).protectiveFactors == [RegularExercise, HighVegetableIntake]
    ensures CalculateObesityRisk(x, 23.1).recommendations == []
  {
    PredictedBMIClosedForm(x);
    FrequencyRoundTrip(0);
    FrequencyRoundTrip(1);
    TransportRoundTrip(0);
    assert HealthyLifestyleScoreOf(3.0, 3.0, 2.0) == 250.0 / 3.0;
    RoundUnique(60.0, 60);
  }
}
