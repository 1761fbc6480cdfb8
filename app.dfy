/**
 The predict branch of the page (app.py, lines 64-119) with the widgets and
 the chart left out: the record is encoded, the classifier is asked for a
 prediction of that record, the prediction is labelled, and the tips are
 derived from the submission.
 */
module App {
  import opened Wrappers
  import opened Health
  import Encoder
  import Risk
  import Advisor

  /** What one click of the predict button produces. */
  datatype Report = Report(features: Encoder.FeatureVector, riskLabel: string, tips: seq<Advisor.Line>)

  /** The classifier is a parameter: any function from records to a prediction. */
  function OnPredict(m: HealthMetrics, classify: Encoder.FeatureVector -> int): (r: Report)
    ensures Encoder.DecodeRow(Encoder.Row(r.features)) == Some(m)
    ensures r.riskLabel == Risk.HighRiskLabel <==> classify(r.features) == 1
    ensures |r.tips| >= 2 && r.tips[|r.tips| - 1] == Advisor.Banner
    ensures r.features == Encoder.Encode(m)
    ensures r.riskLabel == Risk.RiskLabel(classify(r.features))
    ensures r.tips == Advisor.TipsPage(m)
  {
    Encoder.DecodeEncode(m);
    Advisor.TipsPageShape(m);
    var features := Encoder.Encode(m);
    Report(features, Risk.RiskLabel(classify(features)), Advisor.TipsPage(m))
  }

  /** The tips never consult the classifier: two classifiers give the same tips,
      even when their labels differ. */
  lemma TipsIgnorePrediction(m: HealthMetrics, c: Encoder.FeatureVector -> int, c': Encoder.FeatureVector -> int)
    ensures OnPredict(m, c).tips == OnPredict(m, c').tips == Advisor.TipsPage(m)
  {
  }
}
