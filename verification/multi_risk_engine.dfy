/**
 * Per-category risk scoring and aggregation (ml/multi_risk_engine.py).
 *
 * Each scorer adds fixed non-negative contributions read from the patient
 * snapshot, caps the sum at 1.0 and maps it to a level with two thresholds.
 * The aggregator combines the category scores under the configured policy.
 * Contributing factors are kept as structured values; their wording is not
 * modelled.
 */
module MultiRisk {
  import opened Common
  import opened Clinical
  import opened CdssConfig

  // ---------------------------------------------------------------------
  // Score to level
  // ---------------------------------------------------------------------

  function ScoreToLevel(score: real, t: Thresholds): (l: Level)
    ensures l == High <==> score >= t.medium
    ensures l == Medium <==> t.low <= score < t.medium
    ensures l == Low <==> score < t.low && score < t.medium
  {
    if score >= t.medium then High
    else if score >= t.low then Medium
    else Low
  }

  /** With ordered thresholds a higher score never maps to a lower level. */
  lemma ScoreToLevelMonotone(a: real, b: real, t: Thresholds)
    requires t.low <= t.medium && a <= b
    ensures Rank(ScoreToLevel(a, t)) <= Rank(ScoreToLevel(b, t))
  {
  }

  // ---------------------------------------------------------------------
  // Drug interactions (_check_drug_interactions)
  // ---------------------------------------------------------------------

  /** Both drug names occur as substrings of some (lower-cased) medication. */
  predicate BothPresent(medsLower: seq<string>, x: Interaction)
  {
    AnyContains(medsLower, x.drug1) && AnyContains(medsLower, x.drug2)
  }

  /** The table entries whose two drugs are present, in table order. */
  function Matching(table: seq<Interaction>, medsLower: seq<string>): (r: seq<Interaction>)
    ensures |r| <= |table|
  {
    if |table| == 0 then []
    else
      Matching(table[..|table| - 1], medsLower)
        + (if BothPresent(medsLower, table[|table| - 1]) then [table[|table| - 1]] else [])
  }

  lemma {:induction false} MatchingMembers(table: seq<Interaction>, medsLower: seq<string>, x: Interaction)
    ensures x in Matching(table, medsLower) <==> x in table && BothPresent(medsLower, x)
  {
    if |table| > 0 {
      var init := table[..|table| - 1];
      MatchingMembers(init, medsLower, x);
      assert table == init + [table[|table| - 1]];
    }
  }

  datatype InteractionReport = InteractionReport(
    severe: seq<Interaction>,
    moderate: seq<Interaction>,
    minor: seq<Interaction>)

  function InteractionsIn(t: InteractionTable, meds: seq<string>): InteractionReport
  {
    if |meds| == 0 then InteractionReport([], [], [])
    else
      var ml := LowerAll(meds);
      InteractionReport(Matching(t.severe, ml), Matching(t.moderate, ml), Matching(t.minor, ml))
  }

  /**
   * An interaction is reported under its severity iff both of its drug names
   * occur in some lower-cased medication; with no medications nothing is reported.
   */
  lemma InteractionReportedIff(t: InteractionTable, meds: seq<string>, x: Interaction)
    ensures x in InteractionsIn(t, meds).severe <==> x in t.severe && BothPresent(LowerAll(meds), x)
    ensures x in InteractionsIn(t, meds).moderate <==> x in t.moderate && BothPresent(LowerAll(meds), x)
    ensures x in InteractionsIn(t, meds).minor <==> x in t.minor && BothPresent(LowerAll(meds), x)
    ensures |meds| == 0 ==> InteractionsIn(t, meds) == InteractionReport([], [], [])
  {
    var ml := LowerAll(meds);
    MatchingMembers(t.severe, ml, x);
    MatchingMembers(t.moderate, ml, x);
    MatchingMembers(t.minor, ml, x);
  }

  method ScanInteractions(table: seq<Interaction>, medsLower: seq<string>) returns (found: seq<Interaction>)
    ensures found == Matching(table, medsLower)
  {
    found := [];
    for i := 0 to |table|
      invariant found == Matching(table[..i], medsLower)
    {
      assert table[..i + 1][..i] == table[..i];
      if BothPresent(medsLower, table[i]) {
        found := found + [table[i]];
      }
    }
    assert table[..|table|] == table;
  }

  method CheckDrugInteractions(t: InteractionTable, meds: seq<string>) returns (r: InteractionReport)
    ensures r == InteractionsIn(t, meds)
  {
    if |meds| == 0 {
      return InteractionReport([], [], []);
    }
    var ml := LowerAll(meds);
    var severe := ScanInteractions(t.severe, ml);
    var moderate := ScanInteractions(t.moderate, ml);
    var minor := ScanInteractions(t.minor, ml);
    r := InteractionReport(severe, moderate, minor);
  }

  // ---------------------------------------------------------------------
  // Contributing factors and contributions
  // ---------------------------------------------------------------------

  datatype Factor =
    // medication error
    | HighPolypharmacy(count: int)
    | ModeratePolypharmacy(count: int)
    | MultipleMedications(count: int)
    | SevereInteractionFactor(effect: string)
    | ModerateInteractionFactor(effect: string)
    | AdvancedAgeMedication
    | ElderlyMedication
    | HighRiskMedications(meds: seq<string>)
    // disease progression
    | LowVital(vital: Vital, value: real)
    | ElevatedVital(vital: Vital, value: real)
    | MultipleSymptoms(count: int)
    | SeveralSymptoms(count: int)
    | CriticalSymptomFactor(symptom: Symptom)
    | ExistingCondition(condition: Condition)
    | AdvancedAgeProgression
    // adverse event
    | MultipleAllergies(allergyCount: nat)
    | KnownAllergies(first: seq<string>)
    | CriticalVitalLow(vital: Vital, value: real, bound: real)
    | CriticalVitalHigh(vital: Vital, value: real, bound: real)
    | SevereInteractionsPresent
    | MultipleAdverseIndicators(indicatorCount: nat)
    // readmission
    | MultipleChronic(chronicCount: nat)
    | TwoChronic
    | OneChronic
    | Age80Readmission
    | Age70Readmission
    | ReadmissionPolypharmacy(count: int)
    | RecentHospitalizationFactor
    | HeartDiseaseReadmission
    | LimitedMobilityFactor

  /** What one step adds to the running score, and the factors it appends. */
  datatype Contribution = Contribution(amount: real, factors: seq<Factor>)

  const Nothing: Contribution := Contribution(0.0, [])

  function Add(a: Contribution, b: Contribution): Contribution
  {
    Contribution(a.amount + b.amount, a.factors + b.factors)
  }

  function Step(amount: real, factors: seq<Factor>): Contribution
  {
    Contribution(amount, factors)
  }

  datatype RiskResult = RiskResult(
    category: RiskCategory,
    score: real,
    level: Level,
    confidence: real,
    factors: seq<Factor>,
    recommendations: seq<string>)

  /** Cap the summed contributions at 1.0 and attach level and recommendations. */
  function Finish(cat: RiskCategory, raw: Contribution, confidence: real, t: Thresholds): (r: RiskResult)
    requires raw.amount >= 0.0
    ensures 0.0 <= r.score <= 1.0
    ensures raw.amount <= 1.0 ==> r.score == raw.amount
    ensures raw.amount >= 1.0 ==> r.score == 1.0
    ensures r.level == ScoreToLevel(r.score, t)
    ensures r.category == cat && r.confidence == confidence && r.factors == raw.factors
    ensures r.recommendations == CategoryRecommendations(cat, r.level)
  {
    var score := Min(raw.amount, 1.0);
    var level := ScoreToLevel(score, t);
    RiskResult(cat, score, level, confidence, raw.factors, CategoryRecommendations(cat, level))
  }

  // ---------------------------------------------------------------------
  // Medication error risk
  // ---------------------------------------------------------------------

  const HighRiskMedicationNames: seq<string> := ["warfarin", "insulin", "opioids", "digoxin", "methotrexate"]

  /** The medications (original spelling) whose lower-cased name contains a high-risk drug name. */
  function HighRiskMeds(meds: seq<string>): (r: seq<string>)
    ensures |r| <= |meds|
    ensures forall i | 0 <= i < |r| :: r[i] in meds && SomeItemIn(HighRiskMedicationNames, Lower(r[i]))
    ensures forall m | m in meds && SomeItemIn(HighRiskMedicationNames, Lower(m)) :: m in r
  {
    if |meds| == 0 then []
    else
      var m := meds[|meds| - 1];
      HighRiskMeds(meds[..|meds| - 1]) + (if SomeItemIn(HighRiskMedicationNames, Lower(m)) then [m] else [])
  }

  function PolypharmacyStep(n: int): (c: Contribution)
    ensures c.amount >= 0.0
  {
    if n >= 10 then Step(0.35, [HighPolypharmacy(n)])
    else if n >= 5 then Step(0.20, [ModeratePolypharmacy(n)])
    else if n >= 3 then Step(0.10, [MultipleMedications(n)])
    else Nothing
  }

  function InteractionFactors(xs: seq<Interaction>, severe: bool): (r: seq<Factor>)
    ensures |r| == |xs|
  {
    seq(|xs|, i requires 0 <= i < |xs| =>
      if severe then SevereInteractionFactor(xs[i].effect) else ModerateInteractionFactor(xs[i].effect))
  }

  function InteractionStep(rep: InteractionReport): (c: Contribution)
    ensures c.amount >= 0.0
  {
    Add(if |rep.severe| > 0 then Step(0.40, InteractionFactors(rep.severe, true)) else Nothing,
        if |rep.moderate| > 0 then Step(0.20, InteractionFactors(rep.moderate, false)) else Nothing)
  }

  function MedicationAgeStep(age: real): (c: Contribution)
    ensures c.amount >= 0.0
  {
    if age >= 75.0 then Step(0.15, [AdvancedAgeMedication])
    else if age >= 65.0 then Step(0.10, [ElderlyMedication])
    else Nothing
  }

  function HighRiskStep(meds: seq<string>): (c: Contribution)
    ensures c.amount >= 0.0
  {
    var hr := HighRiskMeds(meds);
    if |hr| > 0 then Step(0.15, [HighRiskMedications(hr)]) else Nothing
  }

  /** The sum of the medication-error contributions, before the cap. */
  function MedicationErrorRaw(p: Snapshot, table: InteractionTable): (c: Contribution)
    ensures 0.0 <= c.amount
  {
    var n := GetOr(p.numMedications, |p.medications|);
    Add(Add(Add(PolypharmacyStep(n), InteractionStep(InteractionsIn(table, p.medications))),
            MedicationAgeStep(GetOr(p.age, 50.0))),
        HighRiskStep(p.medications))
  }

  function MedicationErrorRisk(p: Snapshot, table: InteractionTable, t: Thresholds): (r: RiskResult)
    ensures r.category == MedicationError && r.confidence == 0.75
    ensures 0.0 <= r.score <= 1.0 && r.level == ScoreToLevel(r.score, t)
  {
    Finish(MedicationError, MedicationErrorRaw(p, table), 0.75, t)
  }

  // ---------------------------------------------------------------------
  // Disease progression risk
  // ---------------------------------------------------------------------

  datatype NormalRange = NormalRange(vital: Vital, low: real, high: real)

  /** `vitals_to_check` of `_assess_vitals`. */
  const VitalsToCheck: seq<NormalRange> := [
    NormalRange(HeartRate, 60.0, 100.0),
    NormalRange(Systolic, 90.0, 140.0),
    NormalRange(Diastolic, 60.0, 90.0),
    NormalRange(Temperature, 36.1, 37.5),
    NormalRange(RespiratoryRate, 12.0, 20.0),
    NormalRange(OxygenSaturation, 95.0, 100.0)
  ]

  function Deviation(p: Snapshot, r: NormalRange): seq<Factor>
  {
    match VitalOf(p, r.vital)
    case None => []
    case Some(v) =>
      if v < r.low then [LowVital(r.vital, v)]
      else if v > r.high then [ElevatedVital(r.vital, v)]
      else []
  }

  /** Each present vital outside its range adds 0.10 and one factor. */
  function VitalDeviations(p: Snapshot, ranges: seq<NormalRange>): (c: Contribution)
    ensures c.amount == 0.10 * |c.factors| as real
    ensures |c.factors| <= |ranges|
    ensures forall f | f in c.factors :: f.LowVital? || f.ElevatedVital?
  {
    if |ranges| == 0 then Nothing
    else
      var d := Deviation(p, ranges[|ranges| - 1]);
      Add(VitalDeviations(p, ranges[..|ranges| - 1]), Step(0.10 * |d| as real, d))
  }

  lemma DeviationLowIff(p: Snapshot, r: NormalRange, v: Vital, x: real)
    ensures LowVital(v, x) in Deviation(p, r) <==> r.vital == v && VitalOf(p, v) == Some(x) && x < r.low
  {
  }

  lemma DeviationHighIff(p: Snapshot, r: NormalRange, v: Vital, x: real)
    ensures ElevatedVital(v, x) in Deviation(p, r) <==>
              r.vital == v && VitalOf(p, v) == Some(x) && r.low <= x && x > r.high
  {
  }

  /** A low factor is listed iff some range's vital is present and below that range. */
  lemma {:induction false} DeviationsLowIff(p: Snapshot, ranges: seq<NormalRange>, v: Vital, x: real)
    ensures LowVital(v, x) in VitalDeviations(p, ranges).factors <==>
              exists i | 0 <= i < |ranges| :: ranges[i].vital == v && VitalOf(p, v) == Some(x) && x < ranges[i].low
  {
    if |ranges| > 0 {
      var init := ranges[..|ranges| - 1];
      var last := ranges[|ranges| - 1];
      DeviationsLowIff(p, init, v, x);
      DeviationLowIff(p, last, v, x);
      assert VitalDeviations(p, ranges).factors == VitalDeviations(p, init).factors + Deviation(p, last);
      if exists i | 0 <= i < |ranges| :: ranges[i].vital == v && VitalOf(p, v) == Some(x) && x < ranges[i].low {
        var i :| 0 <= i < |ranges| && ranges[i].vital == v && VitalOf(p, v) == Some(x) && x < ranges[i].low;
        if i < |init| {
          assert init[i] == ranges[i];
        }
      }
      if LowVital(v, x) in VitalDeviations(p, init).factors {
        var i :| 0 <= i < |init| && init[i].vital == v && VitalOf(p, v) == Some(x) && x < init[i].low;
        assert ranges[i] == init[i];
      }
    }
  }

  /** An elevated factor is listed iff some range's vital is present, not below it and above it. */
  lemma {:induction false} DeviationsHighIff(p: Snapshot, ranges: seq<NormalRange>, v: Vital, x: real)
    ensures ElevatedVital(v, x) in VitalDeviations(p, ranges).factors <==>
              exists i | 0 <= i < |ranges| ::
                ranges[i].vital == v && VitalOf(p, v) == Some(x) && ranges[i].low <= x && x > ranges[i].high
  {
    if |ranges| > 0 {
      var init := ranges[..|ranges| - 1];
      var last := ranges[|ranges| - 1];
      DeviationsHighIff(p, init, v, x);
      DeviationHighIff(p, last, v, x);
      assert VitalDeviations(p, ranges).factors == VitalDeviations(p, init).factors + Deviation(p, last);
      assert forall i | 0 <= i < |init| :: init[i] == ranges[i];
      assert ranges == init + [last];
    }
  }

  /** Every checked range is ordered, so a reading above it is never also below it. */
  lemma CheckedRangesOrdered()
    ensures forall i | 0 <= i < |VitalsToCheck| :: VitalsToCheck[i].low <= VitalsToCheck[i].high
  {
  }

  /** A checked vital has a low factor iff it is present and below its normal range. */
  lemma CheckedLowDeviations(p: Snapshot)
    ensures forall v, x :: LowVital(v, x) in VitalDeviations(p, VitalsToCheck).factors <==>
              exists i | 0 <= i < |VitalsToCheck| ::
                VitalsToCheck[i].vital == v && VitalOf(p, v) == Some(x) && x < VitalsToCheck[i].low
  {
    forall v, x
      ensures LowVital(v, x) in VitalDeviations(p, VitalsToCheck).factors <==>
                exists i | 0 <= i < |VitalsToCheck| ::
                  VitalsToCheck[i].vital == v && VitalOf(p, v) == Some(x) && x < VitalsToCheck[i].low
    {
      DeviationsLowIff(p, VitalsToCheck, v, x);
    }
  }

  /** A checked vital has an elevated factor iff it is present and above its normal range. */
  lemma CheckedHighDeviations(p: Snapshot)
    ensures forall v, x :: ElevatedVital(v, x) in VitalDeviations(p, VitalsToCheck).factors <==>
              exists i | 0 <= i < |VitalsToCheck| ::
                VitalsToCheck[i].vital == v && VitalOf(p, v) == Some(x) && x > VitalsToCheck[i].high
  {
    var ranges := VitalsToCheck;
    CheckedRangesOrdered();
    forall v, x
      ensures ElevatedVital(v, x) in VitalDeviations(p, ranges).factors <==>
                exists i | 0 <= i < |ranges| :: ranges[i].vital == v && VitalOf(p, v) == Some(x) && x > ranges[i].high
    {
      DeviationsHighIff(p, ranges, v, x);
      if exists i | 0 <= i < |ranges| :: ranges[i].vital == v && VitalOf(p, v) == Some(x) && x > ranges[i].high {
        var i :| 0 <= i < |ranges| && ranges[i].vital == v && VitalOf(p, v) == Some(x) && x > ranges[i].high;
        assert ranges[i].low <= x;
      }
    }
  }

  /** `_assess_vitals`: the deviations plus 0.15 (without a factor) when SpO2 < 92. */
  function AssessVitals(p: Snapshot): (c: Contribution)
    ensures VitalOf(p, OxygenSaturation).Some? && VitalOf(p, OxygenSaturation).value < 92.0 ==>
              c.amount == 0.10 * |c.factors| as real + 0.15
    ensures !(VitalOf(p, OxygenSaturation).Some? && VitalOf(p, OxygenSaturation).value < 92.0) ==>
              c.amount == 0.10 * |c.factors| as real
    ensures |c.factors| <= 6 && 0.0 <= c.amount <= 0.75
    ensures forall f | f in c.factors :: f.LowVital? || f.ElevatedVital?
    ensures forall v, x :: LowVital(v, x) in c.factors <==>
              exists i | 0 <= i < |VitalsToCheck| ::
                VitalsToCheck[i].vital == v && VitalOf(p, v) == Some(x) && x < VitalsToCheck[i].low
    ensures forall v, x :: ElevatedVital(v, x) in c.factors <==>
              exists i | 0 <= i < |VitalsToCheck| ::
                VitalsToCheck[i].vital == v && VitalOf(p, v) == Some(x) && x > VitalsToCheck[i].high
  {
    var dev := VitalDeviations(p, VitalsToCheck);
    var spo2 := VitalOf(p, OxygenSaturation);
    CheckedLowDeviations(p);
    CheckedHighDeviations(p);
    if spo2.Some? && spo2.value < 92.0 then Add(dev, Step(0.15, [])) else dev
  }

  function SymptomCountStep(count: int): (c: Contribution)
    ensures c.amount >= 0.0
  {
    if count >= 5 then Step(0.25, [MultipleSymptoms(count)])
    else if count >= 3 then Step(0.15, [SeveralSymptoms(count)])
    else Nothing
  }

  /** +0.15 and a factor for each critical symptom flagged exactly 1. */
  function CriticalSymptomSteps(p: Snapshot, ss: seq<Symptom>): (c: Contribution)
    ensures c.amount == 0.15 * |c.factors| as real
    ensures |c.factors| == CountSymptoms(p, ss)
  {
    if |ss| == 0 then Nothing
    else
      var s := ss[|ss| - 1];
      Add(CriticalSymptomSteps(p, ss[..|ss| - 1]),
          if HasSymptom(p, s) then Step(0.15, [CriticalSymptomFactor(s)]) else Nothing)
  }

  function ConditionFactors(p: Snapshot, cs: seq<Condition>): (r: seq<Factor>)
    ensures |r| == CountConditionFlags(p, cs)
  {
    if |cs| == 0 then []
    else
      var c := cs[|cs| - 1];
      ConditionFactors(p, cs[..|cs| - 1]) + (if HasConditionFlag(p, c) then [ExistingCondition(c)] else [])
  }

  /** 0.08 per flagged condition, the total capped at 0.30; every flagged condition is still listed. */
  function ConditionsStep(p: Snapshot): (c: Contribution)
    ensures |c.factors| == CountConditionFlags(p, AllConditions)
    ensures c.amount == Min(0.08 * |c.factors| as real, 0.30)
    ensures 0.0 <= c.amount <= 0.30
  {
    var fs := ConditionFactors(p, AllConditions);
    Step(Min(0.08 * |fs| as real, 0.30), fs)
  }

  function ProgressionAgeStep(age: real): (c: Contribution)
    ensures c.amount >= 0.0
  {
    if age >= 75.0 then Step(0.15, [AdvancedAgeProgression])
    else if age >= 65.0 then Step(0.10, [])
    else Nothing
  }

  function DiseaseProgressionRaw(p: Snapshot): (c: Contribution)
    ensures c.amount >= 0.0
  {
    Add(Add(Add(Add(AssessVitals(p), SymptomCountStep(GetOr(p.symptomCount, 0))),
                CriticalSymptomSteps(p, CriticalSymptoms)),
            ConditionsStep(p)),
        ProgressionAgeStep(GetOr(p.age, 50.0)))
  }

  function DiseaseProgressionRisk(p: Snapshot, t: Thresholds): (r: RiskResult)
    ensures r.category == DiseaseProgression && r.confidence == 0.80
    ensures 0.0 <= r.score <= 1.0 && r.level == ScoreToLevel(r.score, t)
  {
    Finish(DiseaseProgression, DiseaseProgressionRaw(p), 0.80, t)
  }

  // ---------------------------------------------------------------------
  // Adverse event risk
  // ---------------------------------------------------------------------

  predicate BelowCritical(rule: VitalRule, v: real)
  {
    rule.criticalLow.Some? && v < rule.criticalLow.value
  }

  predicate AboveCritical(rule: VitalRule, v: real)
  {
    rule.criticalHigh.Some? && v > rule.criticalHigh.value
  }

  function CriticalFindings(p: Snapshot, rule: VitalRule): seq<Factor>
  {
    match VitalOf(p, rule.vital)
    case None => []
    case Some(v) =>
      (if BelowCritical(rule, v) then [CriticalVitalLow(rule.vital, v, rule.criticalLow.value)] else [])
      + (if AboveCritical(rule, v) then [CriticalVitalHigh(rule.vital, v, rule.criticalHigh.value)] else [])
  }

  /** `_check_critical_vitals`: one entry per strictly-exceeded critical bound, in table order. */
  function CriticalVitals(p: Snapshot, rules: seq<VitalRule>): seq<Factor>
  {
    if |rules| == 0 then []
    else CriticalVitals(p, rules[..|rules| - 1]) + CriticalFindings(p, rules[|rules| - 1])
  }

  /** A critical-low entry is reported exactly for a present vital strictly below its bound. */
  lemma {:induction false} CriticalVitalsLowIff(p: Snapshot, rules: seq<VitalRule>, rule: VitalRule)
    requires rule in rules && VitalOf(p, rule.vital).Some? && rule.criticalLow.Some?
    requires forall i, j | 0 <= i < j < |rules| :: rules[i].vital != rules[j].vital
    ensures BelowCritical(rule, p.vitals[rule.vital]) <==>
              CriticalVitalLow(rule.vital, p.vitals[rule.vital], rule.criticalLow.value) in CriticalVitals(p, rules)
  {
    var last := rules[|rules| - 1];
    var init := rules[..|rules| - 1];
    assert rules == init + [last];
    if rule == last {
      assert rule !in init;
      NoLowFromOtherVitals(p, init, rule);
    } else {
      assert rule in init;
      CriticalVitalsLowIff(p, init, rule);
    }
  }

  lemma {:induction false} NoLowFromOtherVitals(p: Snapshot, rules: seq<VitalRule>, rule: VitalRule)
    requires forall i | 0 <= i < |rules| :: rules[i].vital != rule.vital
    ensures forall v, b :: CriticalVitalLow(rule.vital, v, b) !in CriticalVitals(p, rules)
  {
    if |rules| > 0 {
      NoLowFromOtherVitals(p, rules[..|rules| - 1], rule);
    }
  }

  function AllergyStep(allergies: seq<string>): (c: Contribution)
    ensures c.amount >= 0.0
  {
    if |allergies| >= 3 then Step(0.20, [MultipleAllergies(|allergies|)])
    else if |allergies| > 0 then Step(0.10, [KnownAllergies(PyPrefix(allergies, 3))])
    else Nothing
  }

  const AdverseSymptoms: seq<Symptom> := [Nausea, Vomiting, Dizziness, Confusion]

  function AdverseSymptomStep(count: nat): (c: Contribution)
    ensures c.amount >= 0.0
  {
    if count >= 2 then Step(0.20, [MultipleAdverseIndicators(count)])
    else if count >= 1 then Step(0.10, [])
    else Nothing
  }

  function AdverseEventRaw(p: Snapshot, table: InteractionTable, rules: seq<VitalRule>): (c: Contribution)
    ensures c.amount >= 0.0
  {
    var critical := CriticalVitals(p, rules);
    var rep := InteractionsIn(table, p.medications);
    Add(Add(Add(AllergyStep(p.allergies),
                if |critical| > 0 then Step(0.35, critical) else Nothing),
            if |rep.severe| > 0 then Step(0.30, [SevereInteractionsPresent]) else Nothing),
        AdverseSymptomStep(CountSymptoms(p, AdverseSymptoms)))
  }

  function AdverseEventRisk(p: Snapshot, table: InteractionTable, rules: seq<VitalRule>, t: Thresholds): (r: RiskResult)
    ensures r.category == AdverseEvent && r.confidence == 0.70
    ensures 0.0 <= r.score <= 1.0 && r.level == ScoreToLevel(r.score, t)
  {
    Finish(AdverseEvent, AdverseEventRaw(p, table, rules), 0.70, t)
  }

  // ---------------------------------------------------------------------
  // Hospital readmission risk
  // ---------------------------------------------------------------------

  const ChronicConditions: seq<Condition> := [Diabetes, HeartDisease, Copd, KidneyDisease]

  function ChronicStep(count: nat): (c: Contribution)
    ensures c.amount >= 0.0
  {
    if count >= 3 then Step(0.35, [MultipleChronic(count)])
    else if count >= 2 then Step(0.25, [TwoChronic])
    else if count >= 1 then Step(0.15, [OneChronic])
    else Nothing
  }

  function ReadmissionAgeStep(age: real): (c: Contribution)
    ensures c.amount >= 0.0
  {
    if age >= 80.0 then Step(0.20, [Age80Readmission])
    else if age >= 70.0 then Step(0.15, [Age70Readmission])
    else if age >= 65.0 then Step(0.10, [])
    else Nothing
  }

  function ReadmissionMedsStep(n: int): (c: Contribution)
    ensures c.amount >= 0.0
  {
    if n >= 8 then Step(0.15, [ReadmissionPolypharmacy(n)])
    else if n >= 5 then Step(0.10, [])
    else Nothing
  }

  function ReadmissionRaw(p: Snapshot): (c: Contribution)
    ensures c.amount >= 0.0
  {
    Add(Add(Add(Add(Add(ChronicStep(CountConditionFlags(p, ChronicConditions)),
                        ReadmissionAgeStep(GetOr(p.age, 50.0))),
                    ReadmissionMedsStep(GetOr(p.numMedications, 0))),
                if p.recentHospitalization then Step(0.25, [RecentHospitalizationFactor]) else Nothing),
            if HasConditionFlag(p, HeartDisease) then Step(0.10, [HeartDiseaseReadmission]) else Nothing),
        if p.limitedMobility then Step(0.15, [LimitedMobilityFactor]) else Nothing)
  }

  function ReadmissionRisk(p: Snapshot, t: Thresholds): (r: RiskResult)
    ensures r.category == HospitalReadmission && r.confidence == 0.75
    ensures 0.0 <= r.score <= 1.0 && r.level == ScoreToLevel(r.score, t)
  {
    Finish(HospitalReadmission, ReadmissionRaw(p), 0.75, t)
  }

  // ---------------------------------------------------------------------
  // Worked examples
  // ---------------------------------------------------------------------

  /**
   * Age 80 with diabetes, heart disease and COPD flagged and 12 medications:
   * 0.35 + 0.20 + 0.15 + 0.10 = 0.80, hence High.
   */
  lemma ReadmissionWorkedExample(p: Snapshot)
    requires p.age == Some(80.0) && p.numMedications == Some(12)
    requires HasConditionFlag(p, Diabetes) && HasConditionFlag(p, HeartDisease) && HasConditionFlag(p, Copd)
    requires !HasConditionFlag(p, KidneyDisease)
    requires !p.recentHospitalization && !p.limitedMobility
    ensures ReadmissionRisk(p, DefaultMultiRisk.thresholds).score == 0.80
    ensures ReadmissionRisk(p, DefaultMultiRisk.thresholds).level == High
  {
    var cc := ChronicConditions;
    assert cc[..3][..2][..1][..0] == [];
    assert CountConditionFlags(p, cc[..3][..2][..1]) == 1;
    assert CountConditionFlags(p, cc[..3][..2]) == 2;
    assert CountConditionFlags(p, cc[..3]) == 3;
    assert CountConditionFlags(p, cc) == 3;
  }

  /**
   * Age 80 with 12 medications but no medication names: only polypharmacy
   * (0.35) and age (0.15) contribute, so the medication-error risk is 0.50,
   * Medium under the default thresholds.
   */
  lemma MedicationErrorScenario(p: Snapshot, table: InteractionTable)
    requires p.age == Some(80.0) && p.numMedications == Some(12) && p.medications == []
    ensures MedicationErrorRisk(p, table, DefaultMultiRisk.thresholds).score == 0.50
    ensures MedicationErrorRisk(p, table, DefaultMultiRisk.thresholds).level == Medium
  {
    assert InteractionsIn(table, p.medications) == InteractionReport([], [], []);
    assert HighRiskMeds(p.medications) == [];
    assert MedicationErrorRaw(p, table).amount == 0.50;
  }

  // ---------------------------------------------------------------------
  // Recommendation tables
  // ---------------------------------------------------------------------

  function CategoryRecommendations(cat: RiskCategory, level: Level): seq<string>
  {
    match cat
    case MedicationError =>
      (match level
       case High => ["Perform comprehensive medication reconciliation",
                     "Review for potential drug-drug interactions",
                     "Consider clinical pharmacist consultation",
                     "Implement enhanced medication monitoring",
                     "Verify dosing for renal/hepatic function"]
       case Medium => ["Review current medication list for accuracy",
                       "Check for common drug interactions",
                       "Verify patient understanding of medications",
                       "Document any medication changes"]
       case Low => ["Continue standard medication monitoring",
                    "Ensure medication list is up to date"])
    case DiseaseProgression =>
      (match level
       case High => ["Increase monitoring frequency",
                     "Consider additional diagnostic tests",
                     "Review and optimize treatment plan",
                     "Consult with specialist if needed",
                     "Document all clinical findings"]
       case Medium => ["Monitor vital signs more frequently",
                       "Review symptom progression",
                       "Ensure treatment compliance",
                       "Schedule follow-up assessment"]
       case Low => ["Continue current treatment plan",
                    "Standard monitoring protocol"])
    case AdverseEvent =>
      (match level
       case High => ["Immediate review of current medications",
                     "Check for drug-allergy interactions",
                     "Monitor for adverse event symptoms",
                     "Consider alternative medications",
                     "Prepare for potential intervention"]
       case Medium => ["Review allergy and medication lists",
                       "Monitor for adverse reactions",
                       "Document any new symptoms",
                       "Consider dose adjustments"]
       case Low => ["Maintain allergy awareness",
                    "Standard adverse event monitoring"])
    case HospitalReadmission =>
      (match level
       case High => ["Develop comprehensive discharge plan",
                     "Arrange early follow-up appointment (within 7 days)",
                     "Consider home health services",
                     "Ensure medication reconciliation at discharge",
                     "Provide detailed patient education",
                     "Coordinate with primary care provider"]
       case Medium => ["Schedule follow-up within 14 days",
                       "Review discharge instructions thoroughly",
                       "Provide contact information for questions",
                       "Consider transitional care coordination"]
       case Low => ["Standard discharge planning",
                    "Routine follow-up scheduling"])
  }

  // ---------------------------------------------------------------------
  // Aggregation (_aggregate_risks)
  // ---------------------------------------------------------------------

  predicate ScoresInUnit(rs: seq<RiskResult>)
  {
    forall i | 0 <= i < |rs| :: 0.0 <= rs[i].score <= 1.0
  }

  function WeightOf(cfg: MultiRiskConfig, r: RiskResult): real
    requires cfg.WellFormed()
  {
    cfg.categories[r.category].weight
  }

  function TotalWeight(rs: seq<RiskResult>, cfg: MultiRiskConfig): (w: real)
    requires cfg.WellFormed()
    ensures w >= 0.0
  {
    if |rs| == 0 then 0.0 else TotalWeight(rs[..|rs| - 1], cfg) + WeightOf(cfg, rs[|rs| - 1])
  }

  function WeightedSum(rs: seq<RiskResult>, cfg: MultiRiskConfig): real
    requires cfg.WellFormed()
  {
    if |rs| == 0 then 0.0
    else WeightedSum(rs[..|rs| - 1], cfg) + rs[|rs| - 1].score * WeightOf(cfg, rs[|rs| - 1])
  }

  function Boosted(r: RiskResult, cfg: MultiRiskConfig): real
    requires cfg.WellFormed()
  {
    r.score * (1.0 + WeightOf(cfg, r) * 0.5)
  }

  /** The running maximum of boosted scores, starting from 0. */
  function MaxBoosted(rs: seq<RiskResult>, cfg: MultiRiskConfig): real
    requires cfg.WellFormed()
  {
    if |rs| == 0 then 0.0 else Max(MaxBoosted(rs[..|rs| - 1], cfg), Boosted(rs[|rs| - 1], cfg))
  }

  /** Python's `max(r.risk_score for r in ...)`. */
  function MaxScore(rs: seq<RiskResult>): real
    requires |rs| > 0
  {
    if |rs| == 1 then rs[0].score else Max(MaxScore(rs[..|rs| - 1]), rs[|rs| - 1].score)
  }

  function Aggregate(rs: seq<RiskResult>, cfg: MultiRiskConfig): (r: (real, Level))
    requires cfg.WellFormed()
    ensures |rs| == 0 ==> r == (0.0, Low)
    ensures |rs| > 0 ==> r.1 == ScoreToLevel(r.0, cfg.thresholds)
  {
    if |rs| == 0 then (0.0, Low)
    else
      var overall :=
        match cfg.aggregation
        case WeightedAvg =>
          var total := TotalWeight(rs, cfg);
          if total > 0.0 then WeightedSum(rs, cfg) / total else 0.0
        case WeightedMax => Min(MaxBoosted(rs, cfg), 1.0)
        case Highest => MaxScore(rs);
      (overall, ScoreToLevel(overall, cfg.thresholds))
  }

  method AggregateRisks(rs: seq<RiskResult>, cfg: MultiRiskConfig) returns (overall: real, level: Level)
    requires cfg.WellFormed()
    ensures (overall, level) == Aggregate(rs, cfg)
  {
    if |rs| == 0 {
      return 0.0, Low;
    }
    match cfg.aggregation {
      case WeightedAvg =>
        var total, sum := SumWeights(rs, cfg);
        overall := if total > 0.0 then sum / total else 0.0;
      case WeightedMax =>
        var best := LargestBoosted(rs, cfg);
        overall := Min(best, 1.0);
      case Highest =>
        overall := LargestScore(rs);
    }
    level := ScoreToLevel(overall, cfg.thresholds);
  }

  /** The `weighted_avg` loop: total weight and weighted sum. */
  method SumWeights(rs: seq<RiskResult>, cfg: MultiRiskConfig) returns (total: real, sum: real)
    requires cfg.WellFormed()
    ensures total == TotalWeight(rs, cfg) && sum == WeightedSum(rs, cfg)
  {
    total, sum := 0.0, 0.0;
    for i := 0 to |rs|
      invariant total == TotalWeight(rs[..i], cfg) && sum == WeightedSum(rs[..i], cfg)
    {
      assert rs[..i + 1][..i] == rs[..i];
      var w := cfg.categories[rs[i].category].weight;
      sum := sum + rs[i].score * w;
      total := total + w;
    }
    assert rs[..|rs|] == rs;
  }

  /** The `weighted_max` loop. */
  method LargestBoosted(rs: seq<RiskResult>, cfg: MultiRiskConfig) returns (best: real)
    requires cfg.WellFormed()
    ensures best == MaxBoosted(rs, cfg)
  {
    best := 0.0;
    for i := 0 to |rs|
      invariant best == MaxBoosted(rs[..i], cfg)
    {
      assert rs[..i + 1][..i] == rs[..i];
      var w := cfg.categories[rs[i].category].weight;
      var boosted := rs[i].score * (1.0 + w * 0.5);
      best := Max(best, boosted);
    }
    assert rs[..|rs|] == rs;
  }

  /** The `highest` policy: `max` of the scores. */
  method LargestScore(rs: seq<RiskResult>) returns (best: real)
    requires |rs| > 0
    ensures best == MaxScore(rs)
  {
    best := rs[0].score;
    for i := 1 to |rs|
      invariant best == MaxScore(rs[..i])
    {
      assert rs[..i + 1][..i] == rs[..i];
      best := Max(best, rs[i].score);
    }
    assert rs[..|rs|] == rs;
  }

  // ----- properties of the aggregation policies -----

  lemma {:induction false} MaxBoostedBounds(rs: seq<RiskResult>, cfg: MultiRiskConfig)
    requires cfg.WellFormed() && ScoresInUnit(rs)
    ensures MaxBoosted(rs, cfg) >= 0.0
    ensures forall i | 0 <= i < |rs| :: MaxBoosted(rs, cfg) >= rs[i].score
  {
    if |rs| > 0 {
      var init := rs[..|rs| - 1];
      MaxBoostedBounds(init, cfg);
      var last := rs[|rs| - 1];
      var w := WeightOf(cfg, last);
      assert last.score * (w * 0.5) >= 0.0;
      assert Boosted(last, cfg) >= last.score;
      assert forall i | 0 <= i < |rs| - 1 :: rs[i] == init[i];
    }
  }

  /** `weighted_max` stays within 1.0 and is at least every category score. */
  lemma WeightedMaxBounds(rs: seq<RiskResult>, cfg: MultiRiskConfig)
    requires cfg.WellFormed() && cfg.aggregation == WeightedMax && ScoresInUnit(rs)
    ensures 0.0 <= Aggregate(rs, cfg).0 <= 1.0
    ensures forall i | 0 <= i < |rs| :: Aggregate(rs, cfg).0 >= rs[i].score
  {
    MaxBoostedBounds(rs, cfg);
  }

  lemma {:induction false} MaxScoreIsMax(rs: seq<RiskResult>)
    requires |rs| > 0
    ensures forall i | 0 <= i < |rs| :: MaxScore(rs) >= rs[i].score
    ensures exists i | 0 <= i < |rs| :: MaxScore(rs) == rs[i].score
  {
    if |rs| == 1 {
      assert MaxScore(rs) == rs[0].score;
    } else {
      var init := rs[..|rs| - 1];
      var last := rs[|rs| - 1];
      MaxScoreIsMax(init);
      assert MaxScore(rs) == Max(MaxScore(init), last.score);
      forall i | 0 <= i < |rs|
        ensures MaxScore(rs) >= rs[i].score
      {
        if i < |rs| - 1 {
          assert rs[i] == init[i];
        }
      }
      var k :| 0 <= k < |init| && MaxScore(init) == init[k].score;
      assert init[k] == rs[k];
      if MaxScore(init) >= last.score {
        assert MaxScore(rs) == rs[k].score;
      } else {
        assert MaxScore(rs) == rs[|rs| - 1].score;
      }
    }
  }

  /** `highest` returns the largest category score. */
  lemma HighestIsMaximum(rs: seq<RiskResult>, cfg: MultiRiskConfig)
    requires cfg.WellFormed() && cfg.aggregation == Highest && |rs| > 0
    ensures forall i | 0 <= i < |rs| :: Aggregate(rs, cfg).0 >= rs[i].score
    ensures exists i | 0 <= i < |rs| :: Aggregate(rs, cfg).0 == rs[i].score
  {
    MaxScoreIsMax(rs);
  }

  lemma {:induction false} WeightedSumBounds(rs: seq<RiskResult>, cfg: MultiRiskConfig, lo: real, hi: real)
    requires cfg.WellFormed()
    requires forall i | 0 <= i < |rs| :: lo <= rs[i].score <= hi
    ensures lo * TotalWeight(rs, cfg) <= WeightedSum(rs, cfg) <= hi * TotalWeight(rs, cfg)
  {
    if |rs| > 0 {
      var init := rs[..|rs| - 1];
      assert forall i | 0 <= i < |rs| - 1 :: rs[i] == init[i];
      WeightedSumBounds(init, cfg, lo, hi);
      var last := rs[|rs| - 1];
      var w := WeightOf(cfg, last);
      assert w >= 0.0;
      ProductNonNegative(last.score - lo, w);
      ProductNonNegative(hi - last.score, w);
    }
  }

  lemma ProductNonNegative(a: real, b: real)
    requires a >= 0.0 && b >= 0.0
    ensures a * b >= 0.0
  {
  }

  /** With positive total weight, `weighted_avg` lies within any bounds that hold for every score. */
  lemma WeightedAvgBetween(rs: seq<RiskResult>, cfg: MultiRiskConfig, lo: real, hi: real)
    requires cfg.WellFormed() && cfg.aggregation == WeightedAvg && |rs| > 0
    requires TotalWeight(rs, cfg) > 0.0
    requires forall i | 0 <= i < |rs| :: lo <= rs[i].score <= hi
    ensures lo <= Aggregate(rs, cfg).0 <= hi
  {
    WeightedSumBounds(rs, cfg, lo, hi);
    var total := TotalWeight(rs, cfg);
    var sum := WeightedSum(rs, cfg);
    assert lo * total <= sum <= hi * total;
    DivBounds(sum, total, lo, hi);
  }

  lemma DivBounds(s: real, t: real, lo: real, hi: real)
    requires t > 0.0 && lo * t <= s <= hi * t
    ensures lo <= s / t <= hi
  {
    assert s / t * t == s;
  }

  /** Whatever the policy, the overall score of unit-interval scores lies in [0, 1]. */
  lemma AggregateInUnit(rs: seq<RiskResult>, cfg: MultiRiskConfig)
    requires cfg.WellFormed() && ScoresInUnit(rs)
    ensures 0.0 <= Aggregate(rs, cfg).0 <= 1.0
  {
    if |rs| > 0 {
      match cfg.aggregation
      case WeightedAvg =>
        if TotalWeight(rs, cfg) > 0.0 {
          WeightedAvgBetween(rs, cfg, 0.0, 1.0);
        }
      case WeightedMax => WeightedMaxBounds(rs, cfg);
      case Highest => HighestIsMaximum(rs, cfg);
    }
  }

  // ---------------------------------------------------------------------
  // Highest risk, summary and the full assessment
  // ---------------------------------------------------------------------

  /** Python's `max(results, key=score)`: the first result with the largest score. */
  function HighestIndex(rs: seq<RiskResult>): (k: nat)
    requires |rs| > 0
    ensures k < |rs|
    ensures forall i | 0 <= i < |rs| :: rs[i].score <= rs[k].score
    ensures forall i | 0 <= i < k :: rs[i].score < rs[k].score
  {
    if |rs| == 1 then 0
    else
      var k := HighestIndex(rs[..|rs| - 1]);
      if rs[|rs| - 1].score > rs[k].score then |rs| - 1 else k
  }

  datatype Summary =
    | HighRiskSummary(names: seq<string>)
    | ModerateRiskSummary(names: seq<string>)
    | LowRiskSummary

  function NamesAt(rs: seq<RiskResult>, cfg: MultiRiskConfig, level: Level): (names: seq<string>)
    requires cfg.WellFormed()
    ensures |names| <= |rs|
    ensures |names| == 0 <==> forall i | 0 <= i < |rs| :: rs[i].level != level
    ensures forall n :: n in names <==>
              exists i | 0 <= i < |rs| :: rs[i].level == level && cfg.categories[rs[i].category].displayName == n
  {
    if |rs| == 0 then []
    else
      var last := rs[|rs| - 1];
      var init := rs[..|rs| - 1];
      assert forall i | 0 <= i < |rs| - 1 :: rs[i] == init[i];
      NamesAt(init, cfg, level)
        + (if last.level == level then [cfg.categories[last.category].displayName] else [])
  }

  /** High categories take precedence over Medium ones; otherwise all are low. */
  function GenerateSummary(rs: seq<RiskResult>, cfg: MultiRiskConfig): (s: Summary)
    requires cfg.WellFormed()
    ensures s.HighRiskSummary? <==> exists i | 0 <= i < |rs| :: rs[i].level == High
    ensures s.ModerateRiskSummary? <==>
              (forall i | 0 <= i < |rs| :: rs[i].level != High) && exists i | 0 <= i < |rs| :: rs[i].level == Medium
    ensures !s.LowRiskSummary? ==> |s.names| > 0
  {
    var high := NamesAt(rs, cfg, High);
    var medium := NamesAt(rs, cfg, Medium);
    if |high| > 0 then HighRiskSummary(high)
    else if |medium| > 0 then ModerateRiskSummary(medium)
    else LowRiskSummary
  }

  datatype Assessment = Assessment(
    patientId: Option<string>,
    overallScore: real,
    overallLevel: Level,
    results: seq<RiskResult>,
    highest: RiskResult,
    summary: Summary,
    requiresImmediateAttention: bool)

  datatype PredictError = NoCategoryEnabled

  predicate Enabled(cfg: MultiRiskConfig, c: RiskCategory)
    requires cfg.WellFormed()
  {
    cfg.categories[c].enabled
  }

  /** The enabled categories, in the fixed evaluation order. */
  function EnabledCategories(cfg: MultiRiskConfig): (cs: seq<RiskCategory>)
    requires cfg.WellFormed()
    ensures NoDup(cs) && |cs| <= 4
  {
    (if Enabled(cfg, MedicationError) then [MedicationError] else [])
    + (if Enabled(cfg, DiseaseProgression) then [DiseaseProgression] else [])
    + (if Enabled(cfg, AdverseEvent) then [AdverseEvent] else [])
    + (if Enabled(cfg, HospitalReadmission) then [HospitalReadmission] else [])
  }

  function ScoreCategory(p: Snapshot, c: RiskCategory, table: InteractionTable,
                         rules: seq<VitalRule>, t: Thresholds): (r: RiskResult)
    ensures r.category == c
    ensures 0.0 <= r.score <= 1.0 && r.level == ScoreToLevel(r.score, t)
  {
    match c
    case MedicationError => MedicationErrorRisk(p, table, t)
    case DiseaseProgression => DiseaseProgressionRisk(p, t)
    case AdverseEvent => AdverseEventRisk(p, table, rules, t)
    case HospitalReadmission => ReadmissionRisk(p, t)
  }

  /** The results of the enabled scorers, one per enabled category, in evaluation order. */
  function EnabledResults(p: Snapshot, cfg: MultiRiskConfig, table: InteractionTable, rules: seq<VitalRule>): (rs: seq<RiskResult>)
    requires cfg.WellFormed()
    ensures ScoresInUnit(rs)
    ensures |rs| == |EnabledCategories(cfg)|
    ensures forall i | 0 <= i < |rs| :: rs[i].category == EnabledCategories(cfg)[i]
    ensures forall i | 0 <= i < |rs| :: rs[i] == ScoreCategory(p, EnabledCategories(cfg)[i], table, rules, cfg.thresholds)
  {
    var cs := EnabledCategories(cfg);
    seq(|cs|, i requires 0 <= i < |cs| => ScoreCategory(p, cs[i], table, rules, cfg.thresholds))
  }

  /** A category is evaluated exactly when it is enabled. */
  lemma EnabledCategoriesMembers(cfg: MultiRiskConfig)
    requires cfg.WellFormed()
    ensures forall c: RiskCategory :: c in EnabledCategories(cfg) <==> Enabled(cfg, c)
  {
    var cs := EnabledCategories(cfg);
    forall c: RiskCategory ensures c in cs <==> Enabled(cfg, c) {
      match c
      case MedicationError =>
      case DiseaseProgression =>
      case AdverseEvent =>
      case HospitalReadmission =>
    }
  }

  lemma NoneEnabled(cfg: MultiRiskConfig)
    requires cfg.WellFormed()
    ensures |EnabledCategories(cfg)| == 0 <==> forall c: RiskCategory :: !Enabled(cfg, c)
  {
    EnabledCategoriesMembers(cfg);
    if |EnabledCategories(cfg)| > 0 {
      assert EnabledCategories(cfg)[0] in EnabledCategories(cfg);
    }
  }

  /** The assessment of a non-empty list of category results: aggregate, highest, summary and attention flag. */
  function Assess(rs: seq<RiskResult>, patientId: Option<string>, cfg: MultiRiskConfig): (a: Assessment)
    requires cfg.WellFormed() && ScoresInUnit(rs) && |rs| > 0
    ensures a.results == rs && a.patientId == patientId
    ensures 0.0 <= a.overallScore <= 1.0
    ensures a.overallLevel == ScoreToLevel(a.overallScore, cfg.thresholds)
    ensures a.requiresImmediateAttention <==> exists i | 0 <= i < |rs| :: rs[i].level == High
    ensures a.highest in rs && forall i | 0 <= i < |rs| :: rs[i].score <= a.highest.score
    ensures a.highest == rs[HighestIndex(rs)]
    ensures (a.overallScore, a.overallLevel) == Aggregate(rs, cfg)
    ensures a.summary == GenerateSummary(rs, cfg)
  {
    AggregateInUnit(rs, cfg);
    var (overall, level) := Aggregate(rs, cfg);
    var highest := rs[HighestIndex(rs)];
    var attention := exists i | 0 <= i < |rs| :: rs[i].level == High;
    Assessment(patientId, overall, level, rs, highest, GenerateSummary(rs, cfg), attention)
  }

  /**
   * `predict_all_risks`. With no category enabled the source raises (the
   * `max` over an empty collection); the model returns an error instead.
   */
  function PredictAllRisks(p: Snapshot, patientId: Option<string>, cfg: MultiRiskConfig,
                           table: InteractionTable, rules: seq<VitalRule>): (r: Result<Assessment, PredictError>)
    requires cfg.WellFormed()
    ensures r.Err? <==> forall c: RiskCategory :: !Enabled(cfg, c)
    ensures r.Ok? ==> r.value.results == EnabledResults(p, cfg, table, rules)
    ensures r.Ok? ==> 0.0 <= r.value.overallScore <= 1.0
    ensures r.Ok? ==> r.value.overallLevel == ScoreToLevel(r.value.overallScore, cfg.thresholds)
    ensures r.Ok? ==> (r.value.requiresImmediateAttention <==>
                         exists i | 0 <= i < |r.value.results| :: r.value.results[i].level == High)
    ensures r.Ok? ==> r.value.highest in r.value.results &&
                        forall i | 0 <= i < |r.value.results| :: r.value.results[i].score <= r.value.highest.score
    ensures r.Ok? ==> r.value.highest == r.value.results[HighestIndex(r.value.results)]
    ensures r.Ok? ==> (r.value.overallScore, r.value.overallLevel) == Aggregate(r.value.results, cfg)
    ensures r.Ok? ==> r.value.summary == GenerateSummary(r.value.results, cfg)
    ensures r.Ok? ==> r.value.patientId == patientId
  {
    var rs := EnabledResults(p, cfg, table, rules);
    NoneEnabled(cfg);
    if |rs| == 0 then Err(NoCategoryEnabled) else Ok(Assess(rs, patientId, cfg))
  }

}
