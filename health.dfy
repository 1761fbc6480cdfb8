/**
 The raw health details the sidebar collects (app.py, lines 28-37): five
 numbers and five choices from fixed option lists. The choices are closed
 datatypes here; the option lists and the widget bounds are kept as
 constants so that the encoder can be related to them.
 */
module Health {

  datatype Gender = Male | Female
  datatype Activity = Low | Moderate | High
  /** The answer of the three yes/no select boxes (smoking, alcohol, family history). */
  datatype YesNo = No | Yes

  /** One submission of the sidebar form. BMI is the only fractional input. */
  datatype HealthMetrics = HealthMetrics(
    age: int,
    gender: Gender,
    bmi: real,
    bloodPressure: int,
    cholesterol: int,
    glucose: int,
    activity: Activity,
    smoking: YesNo,
    alcohol: YesNo,
    familyHistory: YesNo)

  // The option lists of the select boxes, in the order the widgets show them.
  const GenderOptions: seq<string> := ["Male", "Female"]
  const ActivityOptions: seq<string> := ["Low", "Moderate", "High"]
  const YesNoOptions: seq<string> := ["No", "Yes"]

  // The bounds of the slider and the number inputs.
  const MinAge := 18
  const MaxAge := 100
  const MinBmi: real := 10.0
  const MaxBmi: real := 50.0
  const MinBloodPressure := 80
  const MaxBloodPressure := 200
  const MinCholesterol := 100
  const MaxCholesterol := 400
  const MinGlucose := 70
  const MaxGlucose := 300

  /** The values the sidebar widgets can produce. */
  predicate Valid(m: HealthMetrics)
  {
    && MinAge <= m.age <= MaxAge
    && MinBmi <= m.bmi <= MaxBmi
    && MinBloodPressure <= m.bloodPressure <= MaxBloodPressure
    && MinCholesterol <= m.cholesterol <= MaxCholesterol
    && MinGlucose <= m.glucose <= MaxGlucose
  }

  /** The text the select box returns for each choice. */
  function GenderLabel(g: Gender): (s: string)
    ensures s in GenderOptions
  {
    match g
    case Male => "Male"
    case Female => "Female"
  }

  function ActivityLabel(a: Activity): (s: string)
    ensures s in ActivityOptions
  {
    match a
    case Low => "Low"
    case Moderate => "Moderate"
    case High => "High"
  }

  function YesNoLabel(b: YesNo): (s: string)
    ensures s in YesNoOptions
  {
    match b
    case No => "No"
    case Yes => "Yes"
  }

  /** Each option of a select box is the label of exactly one choice, so the
      datatypes are exactly the option lists. */
  lemma LabelsAreOptions()
    ensures forall o :: o in GenderOptions <==> exists g :: GenderLabel(g) == o
    ensures forall o :: o in ActivityOptions <==> exists a :: ActivityLabel(a) == o
    ensures forall o :: o in YesNoOptions <==> exists b :: YesNoLabel(b) == o
    ensures forall g, g' :: GenderLabel(g) == GenderLabel(g') ==> g == g'
    ensures forall a, a' :: ActivityLabel(a) == ActivityLabel(a') ==> a == a'
    ensures forall b, b' :: YesNoLabel(b) == YesNoLabel(b') ==> b == b'
  {
    assert GenderLabel(Male) == GenderOptions[0] && GenderLabel(Female) == GenderOptions[1];
    assert ActivityLabel(Low) == ActivityOptions[0] && ActivityLabel(Moderate) == ActivityOptions[1];
    assert ActivityLabel(High) == ActivityOptions[2];
    assert YesNoLabel(No) == YesNoOptions[0] && YesNoLabel(Yes) == YesNoOptions[1];
  }
}
