/**
 * Configuration tables of the decision layer, with their shipped values
 * (cdss_config.py). The engines take these as immutable parameters.
 */
module CdssConfig {
  import opened Common
  import opened Clinical

  // ---------------------------------------------------------------------
  // DRUG_INTERACTIONS
  // ---------------------------------------------------------------------

  datatype Interaction = Interaction(drug1: string, drug2: string, effect: string)

  datatype InteractionTable = InteractionTable(
    severe: seq<Interaction>,
    moderate: seq<Interaction>,
    minor: seq<Interaction>)

  /** `sum(len(v) for v in DRUG_INTERACTIONS.values())`. */
  function TableSize(t: InteractionTable): nat
  {
    |t.severe| + |t.moderate| + |t.minor|
  }

  const DrugInteractions: InteractionTable := InteractionTable(
    [ Interaction("warfarin", "aspirin", "Increased bleeding risk"),
      Interaction("metformin", "contrast_dye", "Lactic acidosis risk"),
      Interaction("ssri", "maoi", "Serotonin syndrome risk"),
      Interaction("digoxin", "amiodarone", "Digoxin toxicity"),
      Interaction("ace_inhibitor", "potassium", "Hyperkalemia risk") ],
    [ Interaction("nsaid", "ace_inhibitor", "Reduced antihypertensive effect"),
      Interaction("statin", "grapefruit", "Increased statin levels"),
      Interaction("metformin", "alcohol", "Hypoglycemia risk"),
      Interaction("antibiotic", "antacid", "Reduced antibiotic absorption") ],
    [ Interaction("caffeine", "antibiotic", "Increased caffeine effect") ])

  // ---------------------------------------------------------------------
  // VITAL_CRITICAL_RULES
  // ---------------------------------------------------------------------

  /** A vital with optional strict critical bounds (`critical_low`, `critical_high`). */
  datatype VitalRule = VitalRule(vital: Vital, criticalLow: Option<real>, criticalHigh: Option<real>)

  const VitalCriticalRules: seq<VitalRule> := [
    VitalRule(HeartRate, Some(40.0), Some(150.0)),
    VitalRule(Systolic, Some(70.0), Some(200.0)),
    VitalRule(Diastolic, Some(40.0), Some(120.0)),
    VitalRule(Temperature, Some(35.0), Some(40.0)),
    VitalRule(RespiratoryRate, Some(8.0), Some(30.0)),
    VitalRule(OxygenSaturation, Some(88.0), Some(100.0)),
    VitalRule(BloodSugar, Some(50.0), Some(400.0))
  ]

  // ---------------------------------------------------------------------
  // AGE_SAFETY_RULES
  // ---------------------------------------------------------------------

  /** An age band: a bound on age, the medications to flag inside it, and the reason shown. */
  datatype AgeBand = AgeBand(bound: real, medications: seq<string>, reason: string)

  /** `elderly` applies when age >= its bound, `pediatric` when age <= its bound. */
  datatype AgeSafetyRules = AgeSafetyRules(elderly: AgeBand, pediatric: AgeBand)

  const AgeRules: AgeSafetyRules := AgeSafetyRules(
    AgeBand(65.0, ["benzodiazepines", "anticholinergics", "nsaid_long_term"],
            "Increased risk of falls, confusion, and adverse effects in elderly"),
    AgeBand(12.0, ["aspirin", "fluoroquinolones"],
            "Not recommended for pediatric patients"))

  // ---------------------------------------------------------------------
  // MULTI_RISK_CONFIG
  // ---------------------------------------------------------------------

  datatype RiskCategory = MedicationError | DiseaseProgression | AdverseEvent | HospitalReadmission

  /** The four categories in the order `predict_all_risks` evaluates them. */
  const AllCategories: seq<RiskCategory> :=
    [MedicationError, DiseaseProgression, AdverseEvent, HospitalReadmission]

  datatype CategoryConfig = CategoryConfig(enabled: bool, weight: real, displayName: string)

  datatype Aggregation = WeightedAvg | WeightedMax | Highest

  /** The configured method name; any name other than the two weighted ones behaves as "highest". */
  function ParseAggregation(name: string): (r: Aggregation)
    ensures r == WeightedAvg <==> name == "weighted_avg"
    ensures r == WeightedMax <==> name == "weighted_max"
  {
    if name == "weighted_avg" then WeightedAvg
    else if name == "weighted_max" then WeightedMax
    else Highest
  }

  datatype Thresholds = Thresholds(low: real, medium: real)

  datatype MultiRiskConfig = MultiRiskConfig(
    categories: map<RiskCategory, CategoryConfig>,
    aggregation: Aggregation,
    thresholds: Thresholds)
  {
    /** Every category is configured, with a non-negative weight. */
    predicate WellFormed()
    {
      (forall c: RiskCategory :: c in categories) &&
      (forall c | c in categories :: categories[c].weight >= 0.0)
    }
  }

  const DefaultMultiRisk: MultiRiskConfig := MultiRiskConfig(
    map[
      MedicationError := CategoryConfig(true, 0.30, "Medication Error Risk"),
      DiseaseProgression := CategoryConfig(true, 0.25, "Disease Progression Risk"),
      AdverseEvent := CategoryConfig(true, 0.25, "Adverse Event Risk"),
      HospitalReadmission := CategoryConfig(true, 0.20, "Hospital Readmission Risk")],
    ParseAggregation("weighted_max"),
    Thresholds(0.3, 0.6))

  lemma DefaultMultiRiskWellFormed()
    ensures DefaultMultiRisk.WellFormed()
    ensures DefaultMultiRisk.aggregation == WeightedMax
  {
    forall c: RiskCategory ensures c in DefaultMultiRisk.categories {
      match c
      case MedicationError =>
      case DiseaseProgression =>
      case AdverseEvent =>
      case HospitalReadmission =>
    }
  }

  // ---------------------------------------------------------------------
  // RULES_ENGINE_CONFIG
  // ---------------------------------------------------------------------

  datatype RuleCategories = RuleCategories(
    drugInteractions: bool, vitalSignAlerts: bool, ageSafety: bool,
    contraindications: bool, allergyChecks: bool)

  datatype RulesEngineConfig = RulesEngineConfig(combineMethod: string, categories: RuleCategories)

  const DefaultRulesEngine: RulesEngineConfig :=
    RulesEngineConfig("conservative", RuleCategories(true, true, true, true, true))

  // ---------------------------------------------------------------------
  // ALERT_CONFIG and ALERT_PRIORITY_CONFIG
  // ---------------------------------------------------------------------

  datatype AlertConfig = AlertConfig(showLowRisk: bool, showMediumRisk: bool, showHighRisk: bool)

  const DefaultAlertConfig: AlertConfig := AlertConfig(false, true, true)

  datatype AlertPriorityConfig = AlertPriorityConfig(
    minIntervalMinutes: nat,
    maxLowAlertsPerHour: nat,
    consecutiveThreshold: nat,
    historySize: nat,
    fatigueThreshold: nat)

  const DefaultAlertPriority: AlertPriorityConfig := AlertPriorityConfig(15, 5, 3, 100, 20)

  // ---------------------------------------------------------------------
  // FHIR observation codes (LOINC)
  // ---------------------------------------------------------------------

  /** `observation_codes`: vital name to LOINC code, in table order. */
  const ObservationCodes: seq<(Vital, string)> := [
    (HeartRate, "8867-4"),
    (Systolic, "8480-6"),
    (Diastolic, "8462-4"),
    (Temperature, "8310-5"),
    (RespiratoryRate, "9279-1"),
    (OxygenSaturation, "2708-6"),
    (BloodSugar, "2339-0")
  ]

  const TemperatureCode: string := "8310-5"
}
