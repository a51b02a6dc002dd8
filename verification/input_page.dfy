/** The pure helpers of the input form: BMI, its WHO-style band, and the
    completeness test that enables the submit button. */
module InputPage {
  import opened Numeric
  import opened Classifier
  import opened Features
  import opened RiskModel

  /** weight (kg) / height (m)^2, the form's height being in centimetres. */
  function RawBMI(weight: real, height: real): (bmi: real)
    requires height > 0.0
    ensures bmi * Square(height / 100.0) == weight
    ensures bmi > 0.0 <==> weight > 0.0
    ensures bmi == 0.0 <==> weight == 0.0
  {
    var heightInMeters := height / 100.0;
    SquarePositive(heightInMeters);
    QuotientSign(weight, Square(heightInMeters));
    weight / Square(heightInMeters)
  }

  /** calculateBMI followed by parseFloat: the BMI to one decimal. */
  function CalculateBMI(weight: real, height: real): (bmi: real)
    requires height > 0.0
    ensures weight >= 0.0 ==> RawBMI(weight, height) - 0.05 < bmi <= RawBMI(weight, height) + 0.05
    ensures weight <= 0.0 ==> RawBMI(weight, height) - 0.05 <= bmi < RawBMI(weight, height) + 0.05
    ensures (bmi * 10.0).Floor as real == bmi * 10.0
    ensures weight >= 0.0 ==> bmi >= 0.0
    ensures RawBMI(weight, height) >= 0.05 ==> bmi > 0.0
  {
    ToFixed1(RawBMI(weight, height))
  }

  datatype BmiCategory = Underweight | NormalWeight | Overweight | Obese

  function CategoryRank(c: BmiCategory): nat
  {
    match c
    case Underweight => 0
    case NormalWeight => 1
    case Overweight => 2
    case Obese => 3
  }

  /** getBMICategory: cut points 18.5, 25 and 30, lower bound inclusive. */
  function GetBMICategory(bmi: real): (c: BmiCategory)
    ensures c == Underweight <==> bmi < 18.5
    ensures c == NormalWeight <==> 18.5 <= bmi < 25.0
    ensures c == Overweight <==> 25.0 <= bmi < 30.0
    ensures c == Obese <==> bmi >= 30.0
  {
    if bmi < 18.5 then Underweight
    else if bmi < 25.0 then NormalWeight
    else if bmi < 30.0 then Overweight
    else Obese
  }

  /** A larger BMI never falls in a lower band. */
  lemma CategoryMonotone(a: real, b: real)
    requires a <= b
    ensures CategoryRank(GetBMICategory(a)) <= CategoryRank(GetBMICategory(b))
  {
  }

  /** The band of a BMI depends only on which cut points it has passed. */
  lemma CategoryRankCountsCutPoints(bmi: real)
    ensures CategoryRank(GetBMICategory(bmi)) ==
      (if bmi >= 18.5 then 1 else 0) + (if bmi >= 25.0 then 1 else 0) + (if bmi >= 30.0 then 1 else 0)
  {
  }

  /** The value handleSubmit computes once and hands on twice: as the
      category shown on the results page and as the current BMI given to
      calculateObesityRisk. The category is Obese exactly when the engine
      answers Already Obese. */
  lemma ObeseCategoryIffAlreadyObese(x: Inputs, bmi: real)
    ensures GetBMICategory(bmi) == Obese <==> CalculateObesityRisk(x, bmi).risk == AlreadyObese
  {
  }

  /** The two bands of the engine above Normal Weight line up with the
      category: High risk is reported exactly for Overweight. */
  lemma OverweightIffHighRisk(x: Inputs, bmi: real)
    ensures GetBMICategory(bmi) == Overweight <==> CalculateObesityRisk(x, bmi).risk == High
  {
  }

  /** The sixteen form fields, all required. */
  datatype FormData = FormData(
    gender: string, age: string, height: string, weight: string,
    familyHistory: string, FAVC: string, FCVC: string, NCP: string,
    CAEC: string, SMOKE: string, CH2O: string, SCC: string,
    FAF: string, TUE: string, CALC: string, MTRANS: string)

  datatype FieldName =
    | GenderField | AgeField | HeightField | WeightField
    | FamilyHistoryField | FavcField | FcvcField | NcpField
    | CaecField | SmokeField | Ch2oField | SccField
    | FafField | TueField | CalcField | MtransField

  /** `formData[field]`. */
  function FieldValue(form: FormData, name: FieldName): string
  {
    match name
    case GenderField => form.gender
    case AgeField => form.age
    case HeightField => form.height
    case WeightField => form.weight
    case FamilyHistoryField => form.familyHistory
    case FavcField => form.FAVC
    case FcvcField => form.FCVC
    case NcpField => form.NCP
    case CaecField => form.CAEC
    case SmokeField => form.SMOKE
    case Ch2oField => form.CH2O
    case SccField => form.SCC
    case FafField => form.FAF
    case TueField => form.TUE
    case CalcField => form.CALC
    case MtransField => form.MTRANS
  }

  const RequiredFields: seq<FieldName> := [
    GenderField, AgeField, HeightField, WeightField, FamilyHistoryField,
    FavcField, FcvcField, NcpField, CaecField, SmokeField, Ch2oField,
    SccField, FafField, TueField, CalcField, MtransField
  ]

  /** isFormValid: `requiredFields.every(field => formData[field] !== '')`. */
  function IsFormValid(form: FormData): (valid: bool)
    ensures valid <==>
      && form.gender != "" && form.age != "" && form.height != "" && form.weight != ""
      && form.familyHistory != "" && form.FAVC != "" && form.FCVC != "" && form.NCP != ""
      && form.CAEC != "" && form.SMOKE != "" && form.CH2O != "" && form.SCC != ""
      && form.FAF != "" && form.TUE != "" && form.CALC != "" && form.MTRANS != ""
  {
    var valid := forall i | 0 <= i < |RequiredFields| :: FieldValue(form, RequiredFields[i]) != "";
    assert valid <== FieldValue(form, RequiredFields[0]) != "" && FieldValue(form, RequiredFields[1]) != ""
      && FieldValue(form, RequiredFields[2]) != "" && FieldValue(form, RequiredFields[3]) != ""
      && FieldValue(form, RequiredFields[4]) != "" && FieldValue(form, RequiredFields[5]) != ""
      && FieldValue(form, RequiredFields[6]) != "" && FieldValue(form, RequiredFields[7]) != ""
      && FieldValue(form, RequiredFields[8]) != "" && FieldValue(form, RequiredFields[9]) != ""
      && FieldValue(form, RequiredFields[10]) != "" && FieldValue(form, RequiredFields[11]) != ""
      && FieldValue(form, RequiredFields[12]) != "" && FieldValue(form, RequiredFields[13]) != ""
      && FieldValue(form, RequiredFields[14]) != "" && FieldValue(form, RequiredFields[15]) != "";
    valid
  }

  /** The required list names every field, so a valid form has no empty
      field at all. */
  lemma ValidFormHasNoEmptyField(form: FormData, name: FieldName)
    requires IsFormValid(form)
    ensures FieldValue(form, name) != ""
  {
  }
}
