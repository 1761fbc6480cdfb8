# Chronic disease fitness chart: encoder, risk label and fitness tips

The application is a single Streamlit page (`app.py`). A sidebar collects ten
health details: age, gender, BMI, blood pressure, cholesterol, glucose,
physical activity, smoking, alcohol and family history. The page turns them
into the ten-column record a pre-trained classifier expects. When the predict
button is clicked, it labels the classifier's prediction as high or low risk
and writes a list of fitness tips derived from the same details by fixed
threshold rules.

This project models the deterministic parts of that page in Dafny:

- `Health` (`health.dfy`): the form submission as a record with closed
  datatypes for the choices, the select-box option texts, and the widget
  bounds as the predicate `Valid`.
- `Encoder` (`encoder.dfy`): the three lookup tables, kept as `map<string, int>`
  constants keyed by the option texts; the encoded record `FeatureVector`; its
  row of column values in the fixed column order; and a decoder that inverts
  it. The decoder exists to state that the encoding loses nothing.
- `Risk` (`risk.dfy`): the label of a prediction.
- `Advisor` (`advisor.dfy`): the tip rules. `Advise` is a pure function giving
  the ordered list of tip tags. `Fires` states each rule's condition
  independently. `ShowFitnessTips` is the step-by-step append of page lines,
  as the source does it with `st.write`, and is proved equal to `TipsPage`.
- `App` (`app.py`'s predict branch, `app.dfy`): the composition, with the
  classifier as a function parameter.

BMI is a `real`; it is only compared against constants. The classifier's
output is an `int`.

## Model

| member | source | states |
|---|---|---|
| `Health.GenderLabel` | app.py:29 | the gender text is one of the select box's options |
| `Health.ActivityLabel` | app.py:34 | the activity text is one of the select box's options |
| `Health.YesNoLabel` | app.py:35-37 | the yes/no text is one of the select box's options |
| `Health.LabelsAreOptions` | app.py:29-37 | every option of each select box is the text of exactly one choice, so the datatypes are exactly the option lists |
| `Encoder.TablesCoverOptions` | app.py:29-42 | the keys of each lookup table are exactly the options of its select box, so the lookups never miss for widget input |
| `Encoder.GenderCode` | app.py:42 | Male gives 0 and Female gives 1; the code is in {0,1} |
| `Encoder.ActivityCode` | app.py:40 | Low gives 0, Moderate 1 and High 2; the code is in {0,1,2} |
| `Encoder.YesNoCode` | app.py:41 | No gives 0 and Yes gives 1; the code is in {0,1} |
| `Encoder.CodesInjective` | app.py:40-42 | no two choices share a code in any of the three tables |
| `Encoder.Encode` | app.py:44-55 | age, BMI, blood pressure, cholesterol and glucose are copied unchanged; gender, activity, smoking, alcohol and family history each hold their own input's table code, within that table's range |
| `Encoder.Row` | app.py:44-57 | the classifier's row has exactly one value per column, ten in all |
| `Encoder.RowFollowsFields` | app.py:44-57 | the dictionary's keys are exactly the ten column names, and the row holds, at each position, the dictionary's value under that position's column name |
| `Encoder.DecodeEncode` | app.py:44-55 | decoding the encoded row gives back the submission |
| `Encoder.EncodeDecode` | app.py:44-55 | every row that decodes is the encoding of what it decodes to |
| `Encoder.EncodeInjective` | app.py:44-55 | distinct submissions give distinct records |
| `Encoder.EncodeInDomain` | app.py:28-55 | a consistency remark: the record is within the widget bounds and code ranges exactly when the submission satisfies the widget bounds |
| `Risk.RiskLabel` | app.py:67 | the label is "High Risk" exactly when the prediction is 1, and "Low Risk" exactly when it is not |
| `Risk.OutOfRangeReadsAsLow` | app.py:67 | a prediction other than 0 or 1 is not rejected and reads as low risk |
| `Advisor.BmiTier` | app.py:101-106 | exactly one BMI tier: Obese iff bmi > 30, Overweight iff 25 < bmi <= 30, healthy iff bmi <= 25 |
| `Advisor.Advise` | app.py:101-117 | between one and six tips, the BMI tier first |
| `Advisor.AdviseRanked` | app.py:101-117 | the tips follow the rule order BMI, cholesterol, glucose, smoking, alcohol, activity, a BMI tip appears only at the head, and no tip appears twice |
| `Advisor.AdviseMembers` | app.py:101-117 | each tip appears exactly when its own rule fires: cholesterol > 240, glucose > 126, smoking is Yes, alcohol is Yes, activity is Low, and the BMI tier's condition |
| `Advisor.RankedHasNoDuplicates` | app.py:101-117 | a list in strict rule order, such as the tips, has no repeated tip |
| `Advisor.RankedUnique` | app.py:101-117 | two lists in strict rule order with the same members are equal |
| `Advisor.AdviseCharacterised` | app.py:101-117 | a list is the page's tip list if and only if it is in strict rule order and holds exactly the tips whose rules fire |
| `Advisor.Boundaries` | app.py:101-111 | BMI exactly 25 gives the healthy tip and exactly 30 gives Overweight; cholesterol 240 and glucose 126 give no tip |
| `Advisor.TipsPageShape` | app.py:101-119 | the section writes one line per tip in order, then the success banner last; it has 2 to 7 lines |
| `Advisor.RenderInjective` | app.py:102-119 | two page lines with the same text are the same line: the eight tip texts and the banner are pairwise distinct, so order and membership of tips carry over to the written text |
| `Advisor.ShowFitnessTips` | app.py:101-119 | appending each firing rule's line in turn, then the banner, produces exactly `TipsPage` |
| `App.OnPredict` | app.py:64-119 | the classifier receives exactly the encoded record, which decodes back to the submission; the label is the risk label of the classifier's answer ("High Risk" iff it returns 1, "Low Risk" otherwise); the page lines are exactly the tips section, ending with the banner |
| `App.TipsIgnorePrediction` | app.py:66-119 | the tips are the same whatever the classifier returns |

## Left out

- The Streamlit widgets, sidebar layout, button state, subheaders and the
  rendering of `st.write`, `st.success` and `st.info` (app.py:20-37, 62,
  69-70, 99, 121-122): this is presentation. The model keeps what is written,
  as `Advisor.Line` values with their texts (`Advisor.Render`), not how it is
  displayed.
- Loading the classifier with `joblib` from a fixed file path, and its
  caching (app.py:11-15): file I/O and framework caching.
- `model.predict` (app.py:66): an opaque trained classifier. It is the
  parameter `classify` of `App.OnPredict`, and any function is allowed.
- The pandas DataFrame around the record (app.py:57): the record and its
  row of column values (`Encoder.Columns`, `Encoder.Row`) are modelled directly.
- The Age-vs-BMI scatter plot (app.py:77-94): plotting with floating-point
  band constants, which are not related to the tip thresholds.
- The sentiment-analysis variant of the page: its source is not part of this
  model.
- Widget bounds are not enforced by the encoder or the tips, because the code
  does not check them; `Health.Valid` states them, and `Encoder.EncodeInDomain`
  relates them to the record.
- `Risk.RiskLabel`: the code does not reject a prediction outside {0, 1};
  every value other than 1 reads as "Low Risk", and the model does the same
  (`Risk.OutOfRangeReadsAsLow`). The model takes the prediction as an
  integer; a floating-point 1.0 is not modelled.
- A lookup of a text that is not in a table would raise a missing-key error.
  The choices here are closed datatypes, and `Encoder.TablesCoverOptions`
  shows that the widgets only produce texts the tables hold, so that error
  path cannot be reached and is not modelled.
- `Encoder.Row`: every column value is a real number. The table built from
  the dictionary keeps the nine integer columns as integers and only `bmi` as
  floating point; the column types are not modelled.
