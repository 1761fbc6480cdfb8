/**
 The feature encoder (app.py, lines 40-55): the three lookup tables that turn
 the select-box texts into integers, and the ten-column record handed to the
 classifier. Numeric inputs are copied through unchanged.
 */
module Encoder {
  import opened Wrappers
  import opened Health

  // The lookup tables, keyed by the select-box texts.
  const ActivityMap: map<string, int> := map["Low" := 0, "Moderate" := 1, "High" := 2]
  const YesNoMap: map<string, int> := map["No" := 0, "Yes" := 1]
  const GenderMap: map<string, int> := map["Male" := 0, "Female" := 1]

  /** Every option a select box offers is a key of its table: the lookups never
      raise a missing-key error for input coming from the widgets, and the
      tables have no other keys. */
  lemma TablesCoverOptions()
    ensures GenderMap.Keys == set o | o in GenderOptions
    ensures ActivityMap.Keys == set o | o in ActivityOptions
    ensures YesNoMap.Keys == set o | o in YesNoOptions
  {
    assert forall o :: o in GenderOptions <==> o == "Male" || o == "Female";
    assert forall o :: o in ActivityOptions <==> o == "Low" || o == "Moderate" || o == "High";
    assert forall o :: o in YesNoOptions <==> o == "No" || o == "Yes";
  }

  /** gender_map[gender]: Male gives 0, Female gives 1. */
  function GenderCode(g: Gender): (c: int)
    ensures 0 <= c <= 1
    ensures c == 0 <==> g == Male
  {
    GenderMap[GenderLabel(g)]
  }

  /** activity_map[activity]: Low gives 0, Moderate 1, High 2. */
  function ActivityCode(a: Activity): (c: int)
    ensures 0 <= c <= 2
    ensures c == 0 <==> a == Low
    ensures c == 1 <==> a == Moderate
    ensures c == 2 <==> a == High
  {
    ActivityMap[ActivityLabel(a)]
  }

  /** yes_no_map[answer]: No gives 0, Yes gives 1. */
  function YesNoCode(b: YesNo): (c: int)
    ensures 0 <= c <= 1
    ensures c == 1 <==> b == Yes
  {
    YesNoMap[YesNoLabel(b)]
  }

  /** The three tables are injective, so no two choices share a code. */
  lemma CodesInjective()
    ensures forall g, g' :: GenderCode(g) == GenderCode(g') ==> g == g'
    ensures forall a, a' :: ActivityCode(a) == ActivityCode(a') ==> a == a'
    ensures forall b, b' :: YesNoCode(b) == YesNoCode(b') ==> b == b'
  {
  }

  /** The record input_data: ten fields, in the order the classifier was trained on. */
  datatype FeatureVector = FeatureVector(
    age: int,
    gender: int,
    bmi: real,
    bloodPressure: int,
    cholesterolLevel: int,
    glucoseLevel: int,
    physicalActivity: int,
    smokingStatus: int,
    alcoholIntake: int,
    familyHistory: int)

  /** The column names of the single-row table, in order. */
  const Columns: seq<string> := [
    "age", "gender", "bmi", "blood_pressure", "cholesterol_level",
    "glucose_level", "physical_activity", "smoking_status", "alcohol_intake",
    "family_history"]

  /** Builds input_data from one form submission. */
  function Encode(m: HealthMetrics): (fv: FeatureVector)
    ensures fv.age == m.age && fv.bmi == m.bmi && fv.bloodPressure == m.bloodPressure
    ensures fv.cholesterolLevel == m.cholesterol && fv.glucoseLevel == m.glucose
    ensures fv.gender in {0, 1} && fv.physicalActivity in {0, 1, 2}
    ensures fv.smokingStatus in {0, 1} && fv.alcoholIntake in {0, 1} && fv.familyHistory in {0, 1}
    ensures fv.gender == GenderCode(m.gender) && fv.physicalActivity == ActivityCode(m.activity)
    ensures fv.smokingStatus == YesNoCode(m.smoking) && fv.alcoholIntake == YesNoCode(m.alcohol)
    ensures fv.familyHistory == YesNoCode(m.familyHistory)
  {
    FeatureVector(
      m.age,
      GenderCode(m.gender),
      m.bmi,
      m.bloodPressure,
      m.cholesterol,
      m.glucose,
      ActivityCode(m.activity),
      YesNoCode(m.smoking),
      YesNoCode(m.alcohol),
      YesNoCode(m.familyHistory))
  }

  /** input_data as the dictionary the page builds, keyed by column name.
      Every value is written as a real number here; the table itself keeps
      the nine integer columns as integers and only bmi as floating point. */
  function Fields(fv: FeatureVector): map<string, real>
  {
    map[
      "age" := fv.age as real,
      "gender" := fv.gender as real,
      "bmi" := fv.bmi,
      "blood_pressure" := fv.bloodPressure as real,
      "cholesterol_level" := fv.cholesterolLevel as real,
      "glucose_level" := fv.glucoseLevel as real,
      "physical_activity" := fv.physicalActivity as real,
      "smoking_status" := fv.smokingStatus as real,
      "alcohol_intake" := fv.alcoholIntake as real,
      "family_history" := fv.familyHistory as real]
  }

  /** The values of the table's one row, column by column as in Columns. */
  function Row(fv: FeatureVector): (row: seq<real>)
    ensures |row| == |Columns| == 10
  {
    [fv.age as real, fv.gender as real, fv.bmi, fv.bloodPressure as real,
     fv.cholesterolLevel as real, fv.glucoseLevel as real, fv.physicalActivity as real,
     fv.smokingStatus as real, fv.alcoholIntake as real, fv.familyHistory as real]
  }

  /** The table takes its column order from the dictionary's insertion order:
      the dictionary's keys are exactly the column names, and the row holds,
      at each position, the dictionary's value under that position's name. */
  lemma RowFollowsFields(fv: FeatureVector)
    ensures Fields(fv).Keys == set c | c in Columns
    ensures forall i :: 0 <= i < |Columns| ==> Columns[i] in Fields(fv) && Row(fv)[i] == Fields(fv)[Columns[i]]
  {
  }

  // Inverse lookups, the partners of the three tables.

  function DecodeGender(x: real): Option<Gender>
  {
    if x == 0.0 then Some(Male) else if x == 1.0 then Some(Female) else None
  }

  function DecodeActivity(x: real): Option<Activity>
  {
    if x == 0.0 then Some(Low) else if x == 1.0 then Some(Moderate)
    else if x == 2.0 then Some(High) else None
  }

  function DecodeYesNo(x: real): Option<YesNo>
  {
    if x == 0.0 then Some(No) else if x == 1.0 then Some(Yes) else None
  }

  function DecodeInt(x: real): Option<int>
  {
    if x.Floor as real == x then Some(x.Floor) else None
  }

  /** Recovers the form submission from a classifier row; None when the row
      has the wrong width, a non-integral integer column or a code outside
      its table's range. */
  function DecodeRow(row: seq<real>): Option<HealthMetrics>
  {
    if |row| != |Columns| then None
    else
      match (DecodeInt(row[0]), DecodeGender(row[1]), DecodeInt(row[3]), DecodeInt(row[4]),
             DecodeInt(row[5]), DecodeActivity(row[6]), DecodeYesNo(row[7]),
             DecodeYesNo(row[8]), DecodeYesNo(row[9]))
      case (Some(age), Some(g), Some(bp), Some(chol), Some(glu), Some(act), Some(smk), Some(alc), Some(fam)) =>
        Some(HealthMetrics(age, g, row[2], bp, chol, glu, act, smk, alc, fam))
      case _ => None
  }

  /** Decoding the encoded row gives back the submission. */
  lemma DecodeEncode(m: HealthMetrics)
    ensures DecodeRow(Row(Encode(m))) == Some(m)
  {
    var row := Row(Encode(m));
    assert DecodeGender(row[1]) == Some(m.gender);
    assert DecodeActivity(row[6]) == Some(m.activity);
    assert DecodeYesNo(row[7]) == Some(m.smoking);
    assert DecodeYesNo(row[8]) == Some(m.alcohol);
    assert DecodeYesNo(row[9]) == Some(m.familyHistory);
  }

  /** Every row that decodes is exactly the encoding of what it decodes to. */
  lemma EncodeDecode(row: seq<real>, m: HealthMetrics)
    requires DecodeRow(row) == Some(m)
    ensures Row(Encode(m)) == row
  {
    var r := Row(Encode(m));
    assert r[1] == row[1] && r[6] == row[6];
    assert r[7] == row[7] && r[8] == row[8] && r[9] == row[9];
  }

  /** Distinct submissions give distinct records. */
  lemma EncodeInjective(m: HealthMetrics, m': HealthMetrics)
    requires Encode(m) == Encode(m')
    ensures m == m'
  {
    DecodeEncode(m);
    DecodeEncode(m');
  }

  /** The records the sidebar widgets can produce. This restates Health.Valid
      over the record's field names, with the code ranges Encode already
      guarantees; EncodeInDomain below is a consistency remark that the
      encoding moves the widget bounds onto the record unchanged. */
  predicate InDomain(fv: FeatureVector)
  {
    && MinAge <= fv.age <= MaxAge
    && MinBmi <= fv.bmi <= MaxBmi
    && MinBloodPressure <= fv.bloodPressure <= MaxBloodPressure
    && MinCholesterol <= fv.cholesterolLevel <= MaxCholesterol
    && MinGlucose <= fv.glucoseLevel <= MaxGlucose
    && 0 <= fv.gender <= 1 && 0 <= fv.physicalActivity <= 2
    && 0 <= fv.smokingStatus <= 1 && 0 <= fv.alcoholIntake <= 1 && 0 <= fv.familyHistory <= 1
  }

  /** The record lies in the classifier's input domain exactly when the
      submission respects the widget bounds. */
  lemma EncodeInDomain(m: HealthMetrics)
    ensures InDomain(Encode(m)) <==> Valid(m)
  {
  }
}
