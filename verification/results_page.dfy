/** The logic of the results page: the stored-history update rule and the
    choice of status badges. */
module ResultsPage {
  import opened Classifier
  import opened Features
  import opened RiskModel
  import opened InputPage

  /** Most entries the stored history keeps (`slice(0, 50)`). */
  const MaxHistory: nat := 50

  /** One stored run: its deduplication key (the serialised BMI and
      answers) and everything else it carries (id, timestamp, inputs,
      result), which the update rule never inspects. */
  datatype Entry<K, P> = Entry(runKey: K, payload: P)

  /** `existing.some((e) => e.runKey === runKey)`: a front-to-back scan
      that stops at the first entry with the key. */
  function AlreadySaved<K(==), P>(history: seq<Entry<K, P>>, key: K): (found: bool)
    ensures found <==> exists i | 0 <= i < |history| :: history[i].runKey == key
    decreases |history|
  {
    if |history| == 0 then false
    else history[0].runKey == key || AlreadySaved(history[1..], key)
  }

  function MinNat(a: nat, b: nat): nat
  {
    if a <= b then a else b
  }

  /** The effect on the stored list: nothing when the run is already saved,
      otherwise `[entry, ...existing].slice(0, 50)`. */
  function RecordRun<K(==), P>(existing: seq<Entry<K, P>>, entry: Entry<K, P>): (r: seq<Entry<K, P>>)
    ensures AlreadySaved(existing, entry.runKey) ==> r == existing
    ensures !AlreadySaved(existing, entry.runKey) ==>
      && |r| == MinNat(|existing| + 1, MaxHistory)
      && r[0] == entry
      && r[1..] == existing[..|r| - 1]
    ensures AlreadySaved(r, entry.runKey)
    ensures |existing| <= MaxHistory ==> |r| <= MaxHistory
    ensures forall i | 0 <= i < |r| :: r[i] == entry || r[i] in existing
  {
    if AlreadySaved(existing, entry.runKey) then existing
    else
      var n := MinNat(|existing| + 1, MaxHistory);
      var r := ([entry] + existing)[..n];
      assert r[0] == entry;
      assert r[1..] == existing[..n - 1];
      r
  }

  /** Recording the same run twice leaves the list as recording it once. */
  lemma RecordRunIdempotent<K, P>(existing: seq<Entry<K, P>>, entry: Entry<K, P>)
    ensures RecordRun(RecordRun(existing, entry), entry) == RecordRun(existing, entry)
  {
  }

  /** No two entries share a key. */
  predicate KeysDistinct<K(==), P>(history: seq<Entry<K, P>>)
  {
    forall i, j | 0 <= i < j < |history| :: history[i].runKey != history[j].runKey
  }

  /** Deduplication on the key keeps the stored keys pairwise distinct. */
  lemma RecordRunKeepsKeysDistinct<K, P>(existing: seq<Entry<K, P>>, entry: Entry<K, P>)
    requires KeysDistinct(existing)
    ensures KeysDistinct(RecordRun(existing, entry))
  {
    var r := RecordRun(existing, entry);
    if !AlreadySaved(existing, entry.runKey) {
      forall i, j | 0 <= i < j < |r|
        ensures r[i].runKey != r[j].runKey
      {
        if i == 0 {
          assert r[j] == existing[j - 1];
        } else {
          assert r[i] == existing[i - 1] && r[j] == existing[j - 1];
        }
      }
    }
  }

  /** A capped history stays capped over any sequence of runs. */
  lemma {:induction false} RecordRunsStayCapped<K, P>(existing: seq<Entry<K, P>>, runs: seq<Entry<K, P>>)
    requires |existing| <= MaxHistory
    ensures |RecordAll(existing, runs)| <= MaxHistory
    decreases |runs|
  {
    if |runs| > 0 {
      RecordRunsStayCapped(RecordRun(existing, runs[0]), runs[1..]);
    }
  }

  /** The list after recording `runs` in order. */
  function RecordAll<K(==), P>(existing: seq<Entry<K, P>>, runs: seq<Entry<K, P>>): seq<Entry<K, P>>
    decreases |runs|
  {
    if |runs| == 0 then existing else RecordAll(RecordRun(existing, runs[0]), runs[1..])
  }

  /** CSS class of a badge: risk-low, risk-moderate, risk-high. */
  datatype Band = RiskLowBand | RiskModerateBand | RiskHighBand

  /** Likelihood badge: above 60 high, above 30 moderate, otherwise low. */
  function LikelihoodBand(likelihood: int): (b: Band)
    ensures b == RiskHighBand <==> likelihood > 60
    ensures b == RiskModerateBand <==> 30 < likelihood <= 60
    ensures b == RiskLowBand <==> likelihood <= 30
  {
    if likelihood > 60 then RiskHighBand
    else if likelihood > 30 then RiskModerateBand
    else RiskLowBand
  }

  /** A larger likelihood never gets a milder badge. */
  lemma LikelihoodBandMonotone(a: int, b: int)
    requires a <= b
    ensures BandRank(LikelihoodBand(a)) <= BandRank(LikelihoodBand(b))
  {
  }

  function BandRank(b: Band): nat
  {
    match b
    case RiskLowBand => 0
    case RiskModerateBand => 1
    case RiskHighBand => 2
  }

  /** Risk-level badge: High and Moderate get their own class, anything
      else (Low, and also Already Obese) gets risk-low. */
  function RiskLevelBand(risk: Risk): (b: Band)
    ensures b == RiskHighBand <==> risk == High
    ensures b == RiskModerateBand <==> risk == Moderate
    ensures b == RiskLowBand <==> risk == Low || risk == AlreadyObese
  {
    match risk
    case High => RiskHighBand
    case Moderate => RiskModerateBand
    case _ => RiskLowBand
  }

  /** What the assessment section shows. */
  datatype View =
    | NoData
    | ObeseStatus
    | RiskBadges(level: Band, likelihood: Band)

  /** The results page for a submission: nothing when the BMI is falsy (0),
      the obese status when the stored category is Obese, otherwise the
      risk-level and likelihood badges of calculateObesityRisk. */
  function ResultsView(x: Inputs, bmi: real): (v: View)
    ensures v == NoData <==> bmi == 0.0
    ensures v == ObeseStatus <==> bmi >= 30.0
    ensures v.RiskBadges? <==> bmi != 0.0 && bmi < 30.0
  {
    if bmi == 0.0 then NoData
    else if GetBMICategory(bmi) == Obese then ObeseStatus
    else
      var result := CalculateObesityRisk(x, bmi);
      RiskBadges(RiskLevelBand(result.risk), LikelihoodBand(result.likelihood))
  }

  /** Only a zero BMI leaves the page empty. The risk-level badge never has to colour the Already Obese label
      (its class mapping would call it risk-low): that label occurs exactly
      when the obese status is shown instead. The badges agree with the
      label: High is red, Moderate amber, Low green; a Low label never
      carries a likelihood badge above risk-low and a Moderate label never
      one above risk-moderate. */
  lemma BadgesMatchRisk(x: Inputs, bmi: real)
    ensures ResultsView(x, bmi) == NoData <==> bmi == 0.0
    ensures bmi != 0.0 ==>
      (ResultsView(x, bmi) == ObeseStatus <==> CalculateObesityRisk(x, bmi).risk == AlreadyObese)
    ensures ResultsView(x, bmi).RiskBadges? ==>
      var r := CalculateObesityRisk(x, bmi);
      && BandRank(ResultsView(x, bmi).level) == Severity(r.risk)
      && (r.risk == Low ==> ResultsView(x, bmi).likelihood == RiskLowBand)
      && (r.risk == Moderate ==> ResultsView(x, bmi).likelihood != RiskHighBand)
  {
    ObeseCategoryIffAlreadyObese(x, bmi);
  }
}
