/** The first-match-wins risk decision table of calculateObesityRisk. */
module Classifier {
  import opened Numeric

  datatype Risk = Low | Moderate | High | AlreadyObese

  /** Severity order of the risk labels. */
  function Severity(r: Risk): nat
  {
    match r
    case Low => 0
    case Moderate => 1
    case High => 2
    case AlreadyObese => 3
  }

  /** A risk label with its likelihood before the final clamp and rounding. */
  datatype Classification = Classification(risk: Risk, rawLikelihood: real)

  /** The decision table, branches tried in order:
        1. current BMI >= 30                        -> Already Obese, 100
        2. current BMI >= 25                        -> High, min(85, 60 + 10 diff)
        3. predicted >= 25 or diff > 2              -> Moderate, min(60, 30 + 8 diff)
        4. otherwise                                -> Low, max(5, min(30, 15 + 5 diff))
      where diff = predicted - current, with the UNROUNDED prediction. */
  function Classify(current: real, predicted: real): (c: Classification)
    ensures c.risk == AlreadyObese <==> current >= 30.0
    ensures c.risk == High <==> 25.0 <= current < 30.0
    ensures c.risk == Moderate <==> current < 25.0 && (predicted >= 25.0 || predicted - current > 2.0)
    ensures c.risk == AlreadyObese ==> c.rawLikelihood == 100.0
    ensures c.risk == High ==> c.rawLikelihood <= 85.0
    ensures c.risk == Moderate ==> 30.0 < c.rawLikelihood <= 60.0
    ensures c.risk == Low ==> 5.0 <= c.rawLikelihood <= 25.0
  {
    var diff := predicted - current;
    if current >= 30.0 then Classification(AlreadyObese, 100.0)
    else if current >= 25.0 then Classification(High, Min(85.0, 60.0 + diff * 10.0))
    else if predicted >= 25.0 || diff > 2.0 then Classification(Moderate, Min(60.0, 30.0 + diff * 8.0))
    else Classification(Low, Max(5.0, Min(30.0, 15.0 + diff * 5.0)))
  }

  /** Math.round(Math.max(0, likelihood)): the reported percentage. */
  function FinalLikelihood(raw: real): (l: int)
    ensures l >= 0
    ensures raw >= 0.0 ==> raw - 0.5 < l as real <= raw + 0.5
    ensures raw < 0.0 ==> l == 0
  {
    Round(Max(0.0, raw))
  }

  lemma FinalLikelihoodWithin(raw: real, lo: int, hi: int)
    requires 0 <= lo && lo as real <= raw <= hi as real
    ensures lo <= FinalLikelihood(raw) <= hi
  {
    RoundWithin(raw, lo, hi);
  }

  lemma FinalLikelihoodMonotone(a: real, b: real)
    requires a <= b
    ensures FinalLikelihood(a) <= FinalLikelihood(b)
  {
    RoundMonotone(Max(0.0, a), Max(0.0, b));
  }

  /** Reported likelihood per label: Already Obese 100, High at most 85,
      Moderate within [30,60], Low within [5,25]; always within [0,100]. */
  lemma LikelihoodBounds(current: real, predicted: real)
    ensures var c := Classify(current, predicted);
      var l := FinalLikelihood(c.rawLikelihood);
      && 0 <= l <= 100
      && (c.risk == AlreadyObese ==> l == 100)
      && (c.risk == High ==> l <= 85)
      && (c.risk == Moderate ==> 30 <= l <= 60)
      && (c.risk == Low ==> 5 <= l <= 25)
  {
    var c := Classify(current, predicted);
    match c.risk
    case AlreadyObese => FinalLikelihoodWithin(c.rawLikelihood, 100, 100);
    case High =>
      if c.rawLikelihood >= 0.0 {
        FinalLikelihoodWithin(c.rawLikelihood, 0, 85);
      }
    case Moderate => FinalLikelihoodWithin(c.rawLikelihood, 30, 60);
    case Low => FinalLikelihoodWithin(c.rawLikelihood, 5, 25);
  }

  /** For a fixed current BMI, a higher prediction never lowers the risk
      label nor the reported likelihood. */
  lemma ClassifyMonotoneInPrediction(current: real, p: real, q: real)
    requires p <= q
    ensures Severity(Classify(current, p).risk) <= Severity(Classify(current, q).risk)
    ensures FinalLikelihood(Classify(current, p).rawLikelihood) <= FinalLikelihood(Classify(current, q).rawLikelihood)
  {
    FinalLikelihoodMonotone(Classify(current, p).rawLikelihood, Classify(current, q).rawLikelihood);
  }

  /** Only the current BMI decides the first two branches: once it reaches
      25 the prediction cannot change the label. */
  lemma CurrentBMIDominates(current: real, p: real, q: real)
    requires current >= 25.0
    ensures Classify(current, p).risk == Classify(current, q).risk
  {
  }
}
