/**
 * The classifier's post-processing (ml/risk_classifier.py): a predicted
 * class and a probability vector become a risk level, a weighted score, a
 * confidence and, when the alert configuration shows that level, an alert
 * message and a recommendation list. `AlertEngine` keeps the alerts it shows.
 */
module Classifier {
  import opened Common
  import opened Clinical
  import opened CdssConfig

  // ---------------------------------------------------------------------
  // Classification
  // ---------------------------------------------------------------------

  /** `RiskLevel(c)` raises for a class outside 0..2; indexing raises for fewer than three probabilities. */
  datatype ClassifyError = InvalidClass(predicted: int) | MissingProbabilities(count: nat)

  datatype RiskAssessment = RiskAssessment(
    level: Level,
    riskLabel: string,
    score: real,
    confidence: real,
    probabilities: (real, real, real),
    shouldAlert: bool,
    alertMessage: Option<string>,
    recommendations: Option<seq<string>>)

  /** `_should_show_alert`: the configuration flag for the level. */
  function ShowAlert(cfg: AlertConfig, l: Level): (show: bool)
    ensures show <==>
      ((l == Low && cfg.showLowRisk) || (l == Medium && cfg.showMediumRisk) || (l == High && cfg.showHighRisk))
  {
    match l
    case Low => cfg.showLowRisk
    case Medium => cfg.showMediumRisk
    case High => cfg.showHighRisk
  }

  /** With the shipped ALERT_CONFIG only Medium and High alert. */
  lemma DefaultAlertLevels()
    ensures !ShowAlert(DefaultAlertConfig, Low)
    ensures ShowAlert(DefaultAlertConfig, Medium) && ShowAlert(DefaultAlertConfig, High)
  {
  }

  function IntText(i: int): string
  {
    if i >= 0 then DecimalDigits(i) else "-" + DecimalDigits(-i)
  }

  /** The fixed text after the percentage, one per level. */
  function MessageTail(l: Level): string
  {
    match l
    case Low => "% confidence). " + "Standard care protocol recommended."
    case Medium => "% confidence). " + "Review patient symptoms " + "and consider additional monitoring."
    case High =>
      "% confidence). " + "Immediate clinical review recommended. "
      + "Verify symptoms " + "and consider specialist consultation."
  }

  /** The fixed text before the percentage: it opens with the level's name. */
  function MessageHead(l: Level): (head: string)
    ensures l == Low ==> "Low" <= head
    ensures l == Medium ==> "MEDIUM" <= head
    ensures l == High ==> "HIGH" <= head
  {
    match l
    case Low => "Low risk detected ("
    case Medium => "MEDIUM RISK DETECTED ("
    case High => "HIGH RISK ALERT ("
  }

  /** `_generate_alert_message`, with the confidence shown as a truncated percentage. */
  function AlertMessage(l: Level, confidence: real): (m: string)
    ensures MessageHead(l) <= m
  {
    var head := MessageHead(l);
    var rest := PercentText(confidence) + MessageTail(l);
    assert (head + rest)[..|head|] == head;
    head + rest
  }

  /** `int(confidence * 100)` rendered in decimal. */
  function PercentText(confidence: real): (pct: string)
    ensures |pct| > 0
  {
    IntText(Truncate(confidence * 100.0))
  }

  /** The High message names the level in capitals, at its start. */
  lemma HighMessageSaysHigh(confidence: real)
    ensures IsInfix("HIGH", AlertMessage(High, confidence))
  {
    var m := AlertMessage(High, confidence);
    var head := MessageHead(High);
    assert head <= m;
    assert m[..4] == head[..4] == "HIGH";
    assert OccursAt("HIGH", m, 0);
  }

  /** `_generate_recommendations`. */
  function LevelRecommendations(l: Level): (rs: seq<string>)
    ensures |rs| > 0
  {
    match l
    case Low => [
      "Continue standard monitoring",
      "Document patient symptoms",
      "Schedule follow-up as per protocol"]
    case Medium => [
      "Review all patient symptoms carefully",
      "Consider additional diagnostic tests",
      "Increase monitoring frequency",
      "Document findings and rationale",
      "Consider second opinion if uncertain"]
    case High => [
      "Perform immediate clinical review",
      "Verify all vital signs and symptoms",
      "Consider urgent diagnostic tests",
      "Consult with senior clinician or specialist",
      "Document all observations in detail",
      "Prepare for potential escalation of care",
      "Ensure patient monitoring is continuous"]
  }

  /** `0.0 * p[0] + 0.5 * p[1] + 1.0 * p[2]`. */
  function RiskScore(probs: seq<real>): real
    requires |probs| >= 3
  {
    probs[0] * 0.0 + probs[1] * 0.5 + probs[2] * 1.0
  }

  predicate IsDistribution(probs: seq<real>)
  {
    |probs| == 3 && probs[0] >= 0.0 && probs[1] >= 0.0 && probs[2] >= 0.0
    && probs[0] + probs[1] + probs[2] == 1.0
  }

  /** For a probability vector the score lies in [0, 1]; a certain High is 1 and a certain Low is 0. */
  lemma RiskScoreBounds(probs: seq<real>)
    requires IsDistribution(probs)
    ensures 0.0 <= RiskScore(probs) <= 1.0
    ensures probs == [0.0, 0.0, 1.0] ==> RiskScore(probs) == 1.0
    ensures probs == [1.0, 0.0, 0.0] ==> RiskScore(probs) == 0.0
  {
  }

  /** `RiskClassifier.classify`. */
  function Classify(cfg: AlertConfig, predicted: int, probs: seq<real>): (r: Result<RiskAssessment, ClassifyError>)
    ensures r == Err(InvalidClass(predicted)) <==> !(0 <= predicted <= 2)
    ensures r == Err(MissingProbabilities(|probs|)) <==> 0 <= predicted <= 2 && |probs| < 3
    ensures r.Ok? ==>
      var a := r.value;
      Rank(a.level) == predicted && a.riskLabel == LevelName(a.level)
      && a.score == 0.5 * probs[1] + probs[2]
      && a.confidence == probs[predicted]
      && a.probabilities == (probs[0], probs[1], probs[2])
      && a.shouldAlert == ShowAlert(cfg, a.level)
      && (a.alertMessage.Some? <==> a.shouldAlert)
      && (a.recommendations.Some? <==> a.shouldAlert)
    ensures r.Ok? && r.value.shouldAlert ==>
      r.value.alertMessage == Some(AlertMessage(r.value.level, r.value.confidence))
      && r.value.recommendations == Some(LevelRecommendations(r.value.level))
  {
    match LevelOfIndex(predicted)
    case None => Err(InvalidClass(predicted))
    case Some(level) =>
      if |probs| < 3 then Err(MissingProbabilities(|probs|))
      else
        var confidence := probs[predicted];
        var show := ShowAlert(cfg, level);
        Ok(RiskAssessment(
          level, LevelName(level), RiskScore(probs), confidence, (probs[0], probs[1], probs[2]), show,
          if show then Some(AlertMessage(level, confidence)) else None,
          if show then Some(LevelRecommendations(level)) else None))
  }
  /** A shown High classification carries the message that names the level in capitals. */
  lemma HighClassificationSaysHigh(cfg: AlertConfig, probs: seq<real>)
    requires |probs| >= 3 && cfg.showHighRisk
    ensures var r := Classify(cfg, 2, probs);
      r.Ok? && r.value.alertMessage.Some? && IsInfix("HIGH", r.value.alertMessage.value)
  {
    HighMessageSaysHigh(probs[2]);
  }


  // ---------------------------------------------------------------------
  // The alert engine
  // ---------------------------------------------------------------------

  /** One shown alert: patient, riskLabel, confidence and message. */
  datatype AlertRecord = AlertRecord(patientId: Option<string>, riskLabel: string, confidence: real, message: Option<string>)

  /** The history after one prediction: it grows exactly when the prediction is shown. */
  function Logged(h: seq<AlertRecord>, r: Result<RiskAssessment, ClassifyError>, patientId: Option<string>)
    : (h': seq<AlertRecord>)
    ensures r.Ok? && r.value.shouldAlert ==>
      h' == h + [AlertRecord(patientId, r.value.riskLabel, r.value.confidence, r.value.alertMessage)]
    ensures !(r.Ok? && r.value.shouldAlert) ==> h' == h
  {
    if r.Ok? && r.value.shouldAlert then
      h + [AlertRecord(patientId, r.value.riskLabel, r.value.confidence, r.value.alertMessage)]
    else h
  }

  datatype AlertStatistics = NoAlerts | AlertCounts(total: nat, highRisk: nat, mediumRisk: nat)

  function CountLabel(h: seq<AlertRecord>, riskLabel: string): (n: nat)
    ensures n <= |h|
  {
    if |h| == 0 then 0
    else CountLabel(h[..|h| - 1], riskLabel) + (if h[|h| - 1].riskLabel == riskLabel then 1 else 0)
  }

  /** High and Medium records never outnumber the history. */
  lemma {:induction false} CountLabelsBounded(h: seq<AlertRecord>)
    ensures CountLabel(h, "High") + CountLabel(h, "Medium") <= |h|
  {
    if |h| > 0 {
      CountLabelsBounded(h[..|h| - 1]);
    }
  }

  /** `get_alert_statistics`: only a total of 0 for an empty history. */
  function Statistics(h: seq<AlertRecord>): (s: AlertStatistics)
    ensures s == NoAlerts <==> |h| == 0
    ensures s.AlertCounts? ==> s.total == |h| && s.highRisk + s.mediumRisk <= s.total
    ensures s.AlertCounts? ==> s.highRisk == CountLabel(h, "High") && s.mediumRisk == CountLabel(h, "Medium")
  {
    CountLabelsBounded(h);
    if |h| == 0 then NoAlerts else AlertCounts(|h|, CountLabel(h, "High"), CountLabel(h, "Medium"))
  }

  /** A result that is logged, under the given label. */
  predicate ShownAs(r: Result<RiskAssessment, ClassifyError>, riskLabel: string)
  {
    r.Ok? && r.value.shouldAlert && r.value.riskLabel == riskLabel
  }

  /** Under the shipped configuration a valid High or Medium prediction is logged under its level's name, and a Low one is not. */
  lemma DefaultLogging(predicted: int, probs: seq<real>)
    requires 0 <= predicted <= 2 && |probs| >= 3
    ensures var r := Classify(DefaultAlertConfig, predicted, probs);
      r.Ok? && (predicted == 0 <==> !r.value.shouldAlert)
      && (predicted == 1 ==> ShownAs(r, "Medium")) && (predicted == 2 ==> ShownAs(r, "High"))
  {
    var r := Classify(DefaultAlertConfig, predicted, probs);
    DefaultAlertLevels();
    assert LevelOfIndex(predicted).Some?;
    LevelIndexRoundTrip(r.value.level);
  }

  /** Logging one result adds one to the count of its label exactly when it is shown. */
  lemma LoggedCounts(h: seq<AlertRecord>, r: Result<RiskAssessment, ClassifyError>, patientId: Option<string>, riskLabel: string)
    ensures CountLabel(Logged(h, r, patientId), riskLabel) == CountLabel(h, riskLabel) + (if ShownAs(r, riskLabel) then 1 else 0)
  {
    var h' := Logged(h, r, patientId);
    if r.Ok? && r.value.shouldAlert {
      assert h'[..|h'| - 1] == h;
    }
  }

  /**
   * A High, a Low and a Medium prediction that the shipped configuration
   * logs as DefaultLogging states give two alerts, one of each shown level.
   */
  lemma ThreePredictions(
    r1: Result<RiskAssessment, ClassifyError>, r2: Result<RiskAssessment, ClassifyError>, r3: Result<RiskAssessment, ClassifyError>,
    id1: Option<string>, id2: Option<string>, id3: Option<string>)
    requires ShownAs(r1, "High") && r2.Ok? && !r2.value.shouldAlert && ShownAs(r3, "Medium")
    ensures Statistics(Logged(Logged(Logged([], r1, id1), r2, id2), r3, id3)) == AlertCounts(2, 1, 1)
  {
    var h1 := Logged([], r1, id1);
    var h2 := Logged(h1, r2, id2);
    LoggedCounts([], r1, id1, "High");
    LoggedCounts([], r1, id1, "Medium");
    LoggedCounts(h1, r2, id2, "High");
    LoggedCounts(h1, r2, id2, "Medium");
    LoggedCounts(h2, r3, id3, "High");
    LoggedCounts(h2, r3, id3, "Medium");
  }

  class AlertEngine {
    const alertConfig: AlertConfig
    var history: seq<AlertRecord>

    constructor(alertConfig: AlertConfig)
      ensures this.alertConfig == alertConfig && history == []
    {
      this.alertConfig := alertConfig;
      history := [];
    }

    /** `process_prediction`: classify, and log the alert when it is shown. */
    method ProcessPrediction(predicted: int, probs: seq<real>, patientId: Option<string>)
      returns (r: Result<RiskAssessment, ClassifyError>)
      modifies this
      ensures r == Classify(alertConfig, predicted, probs)
      ensures history == Logged(old(history), r, patientId)
    {
      r := Classify(alertConfig, predicted, probs);
      if r.Ok? && r.value.shouldAlert {
        history := history + [AlertRecord(patientId, r.value.riskLabel, r.value.confidence, r.value.alertMessage)];
      }
    }

    function GetAlertStatistics(): (s: AlertStatistics)
      reads this
      ensures s == NoAlerts <==> |history| == 0
      ensures s.AlertCounts? ==> s.total == |history|
      ensures s.AlertCounts? ==>
        s.highRisk == CountLabel(history, "High") && s.mediumRisk == CountLabel(history, "Medium")
    {
      Statistics(history)
    }
  }
}
