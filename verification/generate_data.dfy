/**
 * The labelling rule of the synthetic training data (data/generate_data.py):
 * the per-row risk score and its three-way categorisation. The random
 * sampling of the rows and the noise term are inputs.
 */
module GenerateData {
  import opened Common
  import opened Clinical
  import CdssConfig
  import MultiRisk

  /**
   * One generated row, restricted to the columns the score reads. The 0/1
   * symptom and history columns are booleans.
   */
  datatype Row = Row(
    age: int,
    chestPain: bool, shortnessOfBreath: bool, confusion: bool,
    fever: bool, cough: bool, fatigue: bool, nausea: bool, vomiting: bool, dizziness: bool,
    heartRate: int, systolic: int, temperature: real, oxygenSaturation: int, respiratoryRate: int,
    diabetes: bool, hypertension: bool, heartDisease: bool, copd: bool, kidneyDisease: bool)

  /** `np.where(cond, w, 0)` and `column * w` for a 0/1 column. */
  function If(b: bool, w: real): real
  {
    if b then w else 0.0
  }

  function AgeTerm(r: Row): real
  {
    If(r.age > 65, 0.15) + If(r.age > 75, 0.1)
  }

  function CriticalTerm(r: Row): real
  {
    If(r.chestPain, 0.2) + If(r.shortnessOfBreath, 0.18) + If(r.confusion, 0.22)
  }

  function CommonTerm(r: Row): real
  {
    If(r.fever, 0.08) + If(r.cough, 0.05) + If(r.fatigue, 0.04)
    + If(r.nausea, 0.05) + If(r.vomiting, 0.08) + If(r.dizziness, 0.07)
  }

  function VitalTerm(r: Row): real
  {
    If(r.heartRate < 50 || r.heartRate > 110, 0.12)
    + If(r.systolic < 90 || r.systolic > 160, 0.1)
    + If(r.temperature > 38.5, 0.1)
    + If(r.oxygenSaturation < 92, 0.2)
    + If(r.respiratoryRate > 24, 0.12)
  }

  function HistoryTerm(r: Row): real
  {
    If(r.diabetes, 0.08) + If(r.hypertension, 0.07) + If(r.heartDisease, 0.15)
    + If(r.copd, 0.12) + If(r.kidneyDisease, 0.1)
  }

  /** The score before noise and clipping. */
  function RawScore(r: Row): real
  {
    AgeTerm(r) + CriticalTerm(r) + CommonTerm(r) + VitalTerm(r) + HistoryTerm(r)
  }

  /** `calculate_risk_score` for one row, with the sampled noise as a parameter. */
  function RiskScore(r: Row, noise: real): (s: real)
    ensures 0.0 <= s <= 1.0
    ensures 0.0 <= RawScore(r) + noise <= 1.0 ==> s == RawScore(r) + noise
    ensures RawScore(r) + noise < 0.0 ==> s == 0.0
    ensures RawScore(r) + noise > 1.0 ==> s == 1.0
  {
    Clip(RawScore(r) + noise, 0.0, 1.0)
  }

  /** Every term is a sum of non-negative weights, bounded by the sum of all of them. */
  lemma RawScoreBounds(r: Row)
    ensures 0.0 <= RawScore(r) <= 2.38
    ensures RawScore(r) == 0.0 <==>
      r.age <= 65 && !r.chestPain && !r.shortnessOfBreath && !r.confusion
      && !r.fever && !r.cough && !r.fatigue && !r.nausea && !r.vomiting && !r.dizziness
      && 50 <= r.heartRate <= 110 && 90 <= r.systolic <= 160 && r.temperature <= 38.5
      && r.oxygenSaturation >= 92 && r.respiratoryRate <= 24
      && !r.diabetes && !r.hypertension && !r.heartDisease && !r.copd && !r.kidneyDisease
  {
  }

  /** `categorize_risk`: 0 (Low), 1 (Medium) or 2 (High). */
  function CategorizeRisk(score: real): (c: nat)
    ensures c <= 2
    ensures c == 0 <==> score < 0.3
    ensures c == 1 <==> 0.3 <= score < 0.6
    ensures c == 2 <==> score >= 0.6
  {
    if score < 0.3 then 0
    else if score < 0.6 then 1
    else 2
  }

  /** A higher score never gets a lower label. */
  lemma CategorizeRiskMonotone(a: real, b: real)
    requires a <= b
    ensures CategorizeRisk(a) <= CategorizeRisk(b)
  {
  }

  /**
   * The training labels agree with the multi-risk engine's score-to-level
   * mapping under its default thresholds, reading 0/1/2 as Low/Medium/High.
   */
  lemma LabelsAgreeWithEngine(score: real)
    ensures LevelOfIndex(CategorizeRisk(score))
      == Some(MultiRisk.ScoreToLevel(score, CdssConfig.DefaultMultiRisk.thresholds))
  {
    var l := MultiRisk.ScoreToLevel(score, CdssConfig.DefaultMultiRisk.thresholds);
    LevelIndexRoundTrip(l);
  }

  /**
   * Chest pain, shortness of breath and confusion together weigh 0.6, so a
   * row with all three is labelled High unless the noise is negative.
   */
  lemma CriticalTriadIsHigh(r: Row, noise: real)
    requires r.chestPain && r.shortnessOfBreath && r.confusion && noise >= 0.0
    ensures CategorizeRisk(RiskScore(r, noise)) == 2
  {
    RawScoreBounds(r);
  }

  /** A row with no finding at all, and no noise, is labelled Low. */
  lemma UnremarkableRowIsLow(r: Row)
    requires RawScore(r) == 0.0
    ensures RiskScore(r, 0.0) == 0.0 && CategorizeRisk(RiskScore(r, 0.0)) == 0
  {
  }
}
