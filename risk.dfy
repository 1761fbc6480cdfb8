/**
 The risk label (app.py, line 67): the classifier's first prediction is
 compared with 1; every other value, in range or not, reads as low risk.
 */
module Risk {

  const HighRiskLabel := "⚠️ High Risk"
  const LowRiskLabel := "✅ Low Risk"

  /** The label shown for a prediction of the classifier. */
  function RiskLabel(prediction: int): (shown: string)
    ensures shown == HighRiskLabel <==> prediction == 1
    ensures shown == LowRiskLabel <==> prediction != 1
  {
    if prediction == 1 then HighRiskLabel else LowRiskLabel
  }

  /** A prediction outside {0, 1} is not rejected: it gets the label of 0. */
  lemma OutOfRangeReadsAsLow(prediction: int)
    requires prediction != 0 && prediction != 1
    ensures RiskLabel(prediction) == RiskLabel(0) == LowRiskLabel
  {
  }
}
