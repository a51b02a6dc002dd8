# Obesity risk engine — Dafny model

This project models the decision core of the Obesity Prediction web app:

- the rule-based risk engine in `src/utils/riskModel.js`: the fixed linear
  BMI predictor, its categorical encoders and healthy-lifestyle score, the
  risk and protective factor rules, the recommendation rules, and the
  first-match-wins risk/likelihood decision table;
- the pure helpers of the input form (`calculateBMI`, `getBMICategory`,
  `isFormValid`);
- the logic of the results page: the "save once per run" history update
  (deduplicate on the run key, prepend, keep at most 50), and the choice of
  the status badges.

Survey answers are modelled as an `Inputs` record. Numeric answers are
`real` (what `parseFloat` yields on a well-formed field) and categorical
answers stay `string`, because the engine compares them with `===` or looks
them up with a fallback to 0, so every answer the form can send is a legal
input. JavaScript's
`Math.round` is modelled as round-half-up (`(x + 0.5).Floor`) and
`Number(x.toFixed(1))` as rounding half away from zero at one decimal, both
on exact reals.

Modules, one per file:

| file | module | models |
|---|---|---|
| `numeric.dfy` | `Numeric` | Math.min/max, the [0,1] clamp, Math.round, toFixed(1) |
| `encoding.dfy` | `Encoding` | encodeCAEC, encodeCALC, encodeMTRANS |
| `features.dfy` | `Features` | the coefficient table, the lifestyle score, buildFeatures, predictBMIUsingModel |
| `rules.dfy` | `Ranked`, `Rules` | the risk/protective factor rules and generateRecommendations |
| `classifier.dfy` | `Classifier` | the risk decision table and the likelihood rounding |
| `risk_model.dfy` | `RiskModel` | calculateObesityRisk as a whole |
| `input_page.dfy` | `InputPage` | calculateBMI, getBMICategory, isFormValid |
| `results_page.dfy` | `ResultsPage` | the history update and the badge choice |

The model follows the code: the family-history answer is read from the field
`family_history_with_overweight`; the lifestyle score stays within [0,100]
for every real input (the clamp makes no assumption about the sign of the
answers); no input is ever rejected by the engine (there is no validation
error path in `calculateObesityRisk`, so the model has none either).

Two properties of the page that the model states as they are: a Moderate
label whose likelihood rounds to 30 gets the risk-low likelihood badge
(`ResultsPage.BadgesMatchRisk` only rules out risk-high for it), and a
High label can carry any likelihood badge, since its likelihood is capped
at 85 but has no lower bound other than 0. The fixed coefficients multiply
raw answers (age in years, for instance), so predictions are typically far
above any real BMI; `RiskModel.HealthyYoungManResult` shows a healthy
25-year-old predicted at 82.439.

## Model

| member | source | states |
|---|---|---|
| Numeric.Clamp01 | Obesity_Prediction/src/utils/riskModel.js:47-49 | the clamp lands in [0,1], is the identity inside it, and sends values below 0 to 0 and above 1 to 1 |
| Numeric.Round | Obesity_Prediction/src/utils/riskModel.js:165 | Math.round's result is an integer within half a unit of its argument (x - 0.5 < r <= x + 0.5) |
| Numeric.ToFixed1 | Obesity_Prediction/src/utils/riskModel.js:163 | the reported prediction has one decimal and keeps its sign; it lies within 0.05 of the exact value, a tie going away from zero (x - 0.05 < r <= x + 0.05 for x >= 0, x - 0.05 <= r < x + 0.05 for x <= 0) |
| Encoding.EncodeFrequency | Obesity_Prediction/src/utils/riskModel.js:21-29 | the CAEC/CALC code is a position of the table ["no","Sometimes","Frequently","Always"]: the position of the answer when it is in the table, 0 for any other answer the form can send |
| Encoding.EncodeTransport | Obesity_Prediction/src/utils/riskModel.js:31-40 | the MTRANS code is the position of the answer in the five-entry transport table, 0 for any other answer the form can send |
| Encoding.FrequencyRoundTrip | Obesity_Prediction/src/utils/riskModel.js:21-29 | encoding the label at position i gives back i |
| Encoding.TransportRoundTrip | Obesity_Prediction/src/utils/riskModel.js:31-40 | encoding the transport label at position i gives back i |
| Encoding.FrequencyInjectiveOnLabels | Obesity_Prediction/src/utils/riskModel.js:21-29 | two recognised frequency answers share a code exactly when they are the same answer |
| Encoding.TransportInjectiveOnLabels | Obesity_Prediction/src/utils/riskModel.js:31-40 | two recognised transport answers share a code exactly when they are the same answer |
| Features.HealthyLifestyleScoreOf | Obesity_Prediction/src/utils/riskModel.js:42-52 | the score lies in [0,100]; it is 100 exactly when FCVC, FAF and CH2O all reach 3, and 0 exactly when FCVC <= 0, FAF <= 0 and CH2O <= 1 |
| Features.HealthyLifestyleScoreMonotone | Obesity_Prediction/src/utils/riskModel.js:42-52 | raising any of the three answers never lowers the score |
| Features.Indicator | Obesity_Prediction/src/utils/riskModel.js:61-65 | a flag feature is 0 or 1, and 1 exactly when its condition holds |
| Features.BuildFeatures | Obesity_Prediction/src/utils/riskModel.js:54-70 | the feature map holds every one of the fifteen keys, each bound to the value its rule gives |
| Features.FeatureRanges | Obesity_Prediction/src/utils/riskModel.js:54-70 | the five flags are set exactly for "Male"/"yes", the encoded features stay within 0..3, 0..3 and 0..4, and the score within [0,100] |
| Features.Accumulate | Obesity_Prediction/src/utils/riskModel.js:74-79 | the accumulation loop ends with the weighted sum of every table entry whose key the feature map holds |
| Features.PredictBMIUsingModel | Obesity_Prediction/src/utils/riskModel.js:72-81 | the method's result is the fixed linear predictor applied to the built features |
| Features.PredictedBMI | Obesity_Prediction/src/utils/riskModel.js:72-81 | the fold of the coefficient table over the feature map is the full fifteen-term weighted sum; no coefficient is skipped, because every key is present |
| Features.PredictedBMIClosedForm | Obesity_Prediction/src/utils/riskModel.js:3-19 | the prediction written over the answers, with the fifteen published coefficients |
| Features.PredictedBMIIgnoresBody | Obesity_Prediction/src/utils/riskModel.js:54-70 | height and weight take no part in the prediction |
| Classifier.Classify | Obesity_Prediction/src/utils/riskModel.js:146-160 | Already Obese iff current >= 30; High iff 25 <= current < 30; Moderate iff current < 25 and (prediction >= 25 or the gap exceeds 2); and the raw likelihood bounds of each label |
| Classifier.FinalLikelihood | Obesity_Prediction/src/utils/riskModel.js:165 | the reported likelihood is never negative, is within half a unit of a non-negative raw value, and is 0 for a negative one |
| Classifier.LikelihoodBounds | Obesity_Prediction/src/utils/riskModel.js:149-165 | after rounding: Already Obese 100, High at most 85, Moderate in [30,60], Low in [5,25], always in [0,100] |
| Classifier.ClassifyMonotoneInPrediction | Obesity_Prediction/src/utils/riskModel.js:152-160 | for a fixed current BMI, a higher prediction never lowers the label's severity nor the reported likelihood |
| Classifier.CurrentBMIDominates | Obesity_Prediction/src/utils/riskModel.js:149-154 | once the current BMI reaches 25 the prediction cannot change the label |
| Rules.RiskFactors | Obesity_Prediction/src/utils/riskModel.js:128-144 | Family History iff the answer is "yes", Low Physical Activity iff FAF < 2, High Caloric Food iff FAVC is "yes", Age iff age > 35; nothing protective; at most four |
| Rules.ProtectiveFactors | Obesity_Prediction/src/utils/riskModel.js:131-141 | Regular Exercise iff FAF >= 3, High Vegetable Intake iff FCVC >= 2.5; only protective kinds; at most two |
| Rules.FactorsInRuleOrder | Obesity_Prediction/src/utils/riskModel.js:128-144 | both factor lists list their entries in the order the rules are evaluated |
| Rules.ActivityFactorsExclusive | Obesity_Prediction/src/utils/riskModel.js:131-135 | low activity and regular exercise are never both reported, and FAF in [2,3) reports neither |
| Rules.ImpactOf | Obesity_Prediction/src/utils/riskModel.js:129-143 | the impact label of each factor: High for Family History and Regular Exercise, Low for Age, Moderate for the other three |
| Rules.Recommendations | Obesity_Prediction/src/utils/riskModel.js:83-121 | a recommendation is present exactly when its threshold rule fires (FAF < 2, FCVC < 2, FAVC "yes", CH2O < 2, SCC "no"); at most five |
| Rules.CategoryOf | Obesity_Prediction/src/utils/riskModel.js:85-119 | the category of each recommendation: Physical Activity for more activity, Diet for vegetables and high-calorie food, Hydration for water, Monitoring for calorie tracking |
| Rules.RecommendationsInRuleOrder | Obesity_Prediction/src/utils/riskModel.js:83-121 | the recommendations are listed in the order the rules are evaluated |
| Rules.RecommendationsCharacterized | Obesity_Prediction/src/utils/riskModel.js:83-121 | any rule-ordered list holding exactly the fired recommendations is the list the function returns |
| Rules.AllRulesFire | Obesity_Prediction/src/utils/riskModel.js:83-121 | when every rule fires the list has all five, with categories Physical Activity, Diet, Diet, Hydration, Monitoring |
| RiskModel.CalculateObesityRisk | Obesity_Prediction/src/utils/riskModel.js:123-170 | the label is the decision table's on the unrounded prediction; likelihood in [0,100] with the per-label bounds; Already Obese iff current BMI >= 30; the reported prediction is within 0.05 of the exact one |
| RiskModel.AlreadyObeseIgnoresAnswers | Obesity_Prediction/src/utils/riskModel.js:149-151 | with a current BMI of 30 or more, any two sets of answers get Already Obese at 100 |
| RiskModel.UnroundedPredictionDecides | Obesity_Prediction/src/utils/riskModel.js:155-163 | answers within the form's limits (female, 14, one meal, half a litre of water, 4.5 h of screen time, nothing else) are predicted 24.982, reported as 25.0, yet labelled Low at a current BMI of 23.0, because the label is decided on the unrounded value |
| RiskModel.QuietTeenPrediction | Obesity_Prediction/src/utils/riskModel.js:72-81 | those answers are predicted 24.982: only age, meals, water and screen time contribute |
| RiskModel.NoFlagsNoCodes | Obesity_Prediction/src/utils/riskModel.js:61-68 | answers that flag nothing and name the first level of every categorical question give 0 for every flag and code |
| RiskModel.HealthyYoungManResult | Obesity_Prediction/src/utils/riskModel.js:123-170 | a healthy 25-year-old male with BMI 23.1 is predicted 82.439, labelled Moderate at 60, with no risk factors, both protective factors and no recommendations |
| InputPage.RawBMI | Obesity_Prediction/src/components/InputPage.jsx:34-36 | BMI times the squared height in metres gives back the weight; it is positive or zero exactly when the weight is |
| InputPage.CalculateBMI | Obesity_Prediction/src/components/InputPage.jsx:34-37 | the submitted BMI has one decimal and is within 0.05 of weight / height², a tie going away from zero; it is non-negative for a non-negative weight, and positive once weight / height² reaches 0.05 |
| InputPage.GetBMICategory | Obesity_Prediction/src/components/InputPage.jsx:39-44 | Underweight iff < 18.5, Normal Weight iff in [18.5,25), Overweight iff in [25,30), Obese iff >= 30 |
| InputPage.CategoryMonotone | Obesity_Prediction/src/components/InputPage.jsx:39-44 | a larger BMI never falls in a lower band |
| InputPage.CategoryRankCountsCutPoints | Obesity_Prediction/src/components/InputPage.jsx:39-44 | the band's rank is the number of cut points 18.5, 25, 30 the BMI has reached |
| InputPage.ObeseCategoryIffAlreadyObese | Obesity_Prediction/src/components/InputPage.jsx:49-51 | the category shown is Obese exactly when the engine, given the same BMI, answers Already Obese |
| InputPage.OverweightIffHighRisk | Obesity_Prediction/src/components/InputPage.jsx:49-51 | the category is Overweight exactly when the engine answers High |
| InputPage.IsFormValid | Obesity_Prediction/src/components/InputPage.jsx:66-70 | the form is valid iff none of the sixteen fields is the empty string |
| InputPage.ValidFormHasNoEmptyField | Obesity_Prediction/src/components/InputPage.jsx:66-70 | the required list covers every field, so a valid form has no empty field |
| ResultsPage.AlreadySaved | Obesity_Prediction/src/components/ResultsPage.jsx:42 | the front-to-back scan finds the key exactly when some stored entry carries it |
| ResultsPage.RecordRun | Obesity_Prediction/src/components/ResultsPage.jsx:42-57 | an already-saved run key leaves the list unchanged; otherwise the new entry is first, the old entries follow in order, and only the oldest beyond 50 are dropped |
| ResultsPage.RecordRunIdempotent | Obesity_Prediction/src/components/ResultsPage.jsx:16-60 | re-rendering with the same run records nothing more |
| ResultsPage.RecordRunKeepsKeysDistinct | Obesity_Prediction/src/components/ResultsPage.jsx:42-57 | if the stored keys are pairwise distinct they stay so |
| ResultsPage.RecordRunsStayCapped | Obesity_Prediction/src/components/ResultsPage.jsx:57 | a history of at most 50 entries stays within 50 over any sequence of runs |
| ResultsPage.LikelihoodBand | Obesity_Prediction/src/components/ResultsPage.jsx:98-101 | risk-high iff likelihood > 60, risk-moderate iff in (30,60], risk-low iff <= 30 |
| ResultsPage.LikelihoodBandMonotone | Obesity_Prediction/src/components/ResultsPage.jsx:98-101 | a larger likelihood never gets a milder badge |
| ResultsPage.RiskLevelBand | Obesity_Prediction/src/components/ResultsPage.jsx:92-95 | risk-high iff the label is High, risk-moderate iff Moderate, risk-low iff Low or Already Obese |
| ResultsPage.ResultsView | Obesity_Prediction/src/components/ResultsPage.jsx:5-12 | the page shows no data exactly for BMI 0, the obese status exactly for BMI >= 30, and the two badges otherwise |
| ResultsPage.BadgesMatchRisk | Obesity_Prediction/src/components/ResultsPage.jsx:83-101 | the page is empty only for BMI 0; the obese status shows exactly when the label is Already Obese; the level badge's colour follows the label, a Low label never gets a likelihood badge above risk-low and a Moderate label never one above risk-moderate |

## Left out

- React rendering, state hooks, routing and navigation (`App.jsx`, `Navigation.jsx`), and the analysis and past-results pages: they display values and do not decide anything.
- `localStorage`, `JSON.parse`/`JSON.stringify` and the surrounding `try/catch`: the history is a sequence passed in and returned.
- The run key's construction by JSON serialisation: the key is an abstract type compared by equality, which is all the deduplication uses.
- `Date.now()` and `new Date().toISOString()` (entry id and timestamp): the part of an entry other than the run key is an opaque payload.
- Encoding.EncodeFrequency, Encoding.EncodeTransport: the lookup tables are plain JavaScript objects, so an answer naming an inherited `Object.prototype` property (`"constructor"`, `"toString"`, ...) yields a function rather than a number, and the prediction and likelihood become `NaN`; the model gives 0 for every string outside the table. The form's `<select>`s never send such names.
- `parseFloat` on malformed text and the resulting `NaN`: numeric answers are reals. A `NaN` would fail every comparison, which the model does not represent.
- IEEE-754 double rounding: arithmetic is exact over the reals, so `toFixed(1)` on a value lying exactly on a binary-inexact half may round differently in JavaScript.
- The suggestion, impact and description texts of recommendations and factors: each is represented by its enum tag, with its category and impact level.
- Native form constraints (`min`/`max`/`step` attributes on the inputs) are not modelled, except that `InputPage.RawBMI` and `InputPage.CalculateBMI` require a positive height (the height field's minimum is 140 cm); a zero height would give `Infinity` in JavaScript.
- `ResultsPage.BadgesMatchRisk`: the `!userInputs` half of the empty-page guard is not modelled; the inputs are always present.
- `ResultsPage.RecordRunIdempotent`: the effect's re-run on dependency changes is modelled only as recording the same entry twice.
