/**
 * The clinical vocabulary shared by every component: risk levels, vital
 * signs, symptoms, pre-existing conditions, and the patient snapshot that the
 * scorers, rule checks and validators read.
 *
 * The snapshot replaces the free-form patient dictionary. A key that may be
 * absent becomes an `Option` or a map without that key; a list that defaults to
 * empty becomes a plain sequence. Each reader states its own default, as the
 * `.get(key, default)` calls in the source do.
 */
module Clinical {
  import opened Common

  // ---------------------------------------------------------------------
  // Risk levels (RISK_LEVELS = {0: "Low", 1: "Medium", 2: "High"})
  // ---------------------------------------------------------------------

  datatype Level = Low | Medium | High

  function Rank(l: Level): nat
  {
    match l
    case Low => 0
    case Medium => 1
    case High => 2
  }

  function LevelName(l: Level): string
  {
    match l
    case Low => "Low"
    case Medium => "Medium"
    case High => "High"
  }

  /** `RiskLevel(i)` / `RISK_LEVELS[i]`: defined only for 0, 1 and 2. */
  function LevelOfIndex(i: int): (r: Option<Level>)
    ensures r.Some? <==> 0 <= i <= 2
    ensures r.Some? ==> Rank(r.value) == i
  {
    if i == 0 then Some(Low)
    else if i == 1 then Some(Medium)
    else if i == 2 then Some(High)
    else None
  }

  /** The enum value of a level is its class index, and the names are distinct. */
  lemma LevelIndexRoundTrip(l: Level)
    ensures LevelOfIndex(Rank(l)) == Some(l)
    ensures forall m: Level :: LevelName(m) == LevelName(l) ==> m == l
  {
  }

  // ---------------------------------------------------------------------
  // Vital signs (VITAL_SIGNS and EXTENDED_VITAL_SIGNS keys)
  // ---------------------------------------------------------------------

  datatype Vital =
    | HeartRate | Systolic | Diastolic | Temperature | RespiratoryRate | OxygenSaturation
    | BloodSugar | Bmi | PainScore | ConsciousnessGcs

  function VitalKey(v: Vital): string
  {
    match v
    case HeartRate => "heart_rate"
    case Systolic => "blood_pressure_systolic"
    case Diastolic => "blood_pressure_diastolic"
    case Temperature => "temperature"
    case RespiratoryRate => "respiratory_rate"
    case OxygenSaturation => "oxygen_saturation"
    case BloodSugar => "blood_sugar"
    case Bmi => "bmi"
    case PainScore => "pain_score"
    case ConsciousnessGcs => "consciousness_gcs"
  }

  /** The six core vitals, in the key order of VITAL_SIGNS. */
  const CoreVitals: seq<Vital> :=
    [HeartRate, Systolic, Diastolic, Temperature, RespiratoryRate, OxygenSaturation]

  // ---------------------------------------------------------------------
  // Symptoms (SYMPTOMS_LIST) and conditions (EXISTING_CONDITIONS without "none")
  // ---------------------------------------------------------------------

  datatype Symptom =
    | Fever | Cough | Fatigue | Headache | ChestPain | ShortnessOfBreath
    | Nausea | Vomiting | Dizziness | MusclePain | LossOfAppetite | Confusion

  const AllSymptoms: seq<Symptom> :=
    [Fever, Cough, Fatigue, Headache, ChestPain, ShortnessOfBreath,
     Nausea, Vomiting, Dizziness, MusclePain, LossOfAppetite, Confusion]

  function SymptomKey(s: Symptom): string
  {
    match s
    case Fever => "fever"
    case Cough => "cough"
    case Fatigue => "fatigue"
    case Headache => "headache"
    case ChestPain => "chest_pain"
    case ShortnessOfBreath => "shortness_of_breath"
    case Nausea => "nausea"
    case Vomiting => "vomiting"
    case Dizziness => "dizziness"
    case MusclePain => "muscle_pain"
    case LossOfAppetite => "loss_of_appetite"
    case Confusion => "confusion"
  }

  /** The three symptoms that several components treat as critical. */
  const CriticalSymptoms: seq<Symptom> := [ChestPain, ShortnessOfBreath, Confusion]

  datatype Condition =
    | Diabetes | Hypertension | HeartDisease | Asthma | Copd
    | KidneyDisease | LiverDisease | Cancer | AutoimmuneDisorder

  const AllConditions: seq<Condition> :=
    [Diabetes, Hypertension, HeartDisease, Asthma, Copd,
     KidneyDisease, LiverDisease, Cancer, AutoimmuneDisorder]

  function ConditionKey(c: Condition): string
  {
    match c
    case Diabetes => "diabetes"
    case Hypertension => "hypertension"
    case HeartDisease => "heart_disease"
    case Asthma => "asthma"
    case Copd => "copd"
    case KidneyDisease => "kidney_disease"
    case LiverDisease => "liver_disease"
    case Cancer => "cancer"
    case AutoimmuneDisorder => "autoimmune_disorder"
  }

  /** The tables list every symptom and condition exactly once. */
  lemma VocabularyComplete()
    ensures |AllSymptoms| == 12 && NoDup(AllSymptoms) && forall s: Symptom :: s in AllSymptoms
    ensures |AllConditions| == 9 && NoDup(AllConditions) && forall c: Condition :: c in AllConditions
    ensures NoDup(CoreVitals)
  {
    forall s: Symptom ensures s in AllSymptoms {
      match s
      case Fever => assert AllSymptoms[0] == s;
      case Cough => assert AllSymptoms[1] == s;
      case Fatigue => assert AllSymptoms[2] == s;
      case Headache => assert AllSymptoms[3] == s;
      case ChestPain => assert AllSymptoms[4] == s;
      case ShortnessOfBreath => assert AllSymptoms[5] == s;
      case Nausea => assert AllSymptoms[6] == s;
      case Vomiting => assert AllSymptoms[7] == s;
      case Dizziness => assert AllSymptoms[8] == s;
      case MusclePain => assert AllSymptoms[9] == s;
      case LossOfAppetite => assert AllSymptoms[10] == s;
      case Confusion => assert AllSymptoms[11] == s;
    }
    forall c: Condition ensures c in AllConditions {
      match c
      case Diabetes => assert AllConditions[0] == c;
      case Hypertension => assert AllConditions[1] == c;
      case HeartDisease => assert AllConditions[2] == c;
      case Asthma => assert AllConditions[3] == c;
      case Copd => assert AllConditions[4] == c;
      case KidneyDisease => assert AllConditions[5] == c;
      case LiverDisease => assert AllConditions[6] == c;
      case Cancer => assert AllConditions[7] == c;
      case AutoimmuneDisorder => assert AllConditions[8] == c;
    }
  }

  // ---------------------------------------------------------------------
  // The patient snapshot
  // ---------------------------------------------------------------------

  /**
   * `conditionFlags` holds the `condition_<name>` keys (read by the risk
   * scorers, the rules engine and produced by the FHIR converter);
   * `historyFlags` holds the bare `<name>` keys (read by the data summary, the
   * feature encoder, preprocessing and the synthetic-data scorer).
   */
  datatype Snapshot = Snapshot(
    age: Option<real>,
    gender: Option<string>,
    medications: seq<string>,
    numMedications: Option<int>,
    allergies: seq<string>,
    symptomCount: Option<int>,
    recentHospitalization: bool,
    limitedMobility: bool,
    vitals: map<Vital, real>,
    symptoms: map<Symptom, real>,
    conditionFlags: map<Condition, real>,
    historyFlags: map<Condition, real>)

  const EmptySnapshot: Snapshot :=
    Snapshot(None, None, [], None, [], None, false, false, map[], map[], map[], map[])

  function VitalOf(p: Snapshot, v: Vital): Option<real>
  {
    if v in p.vitals then Some(p.vitals[v]) else None
  }

  /** `data.get(symptom, 0)`. */
  function SymptomValue(p: Snapshot, s: Symptom): real
  {
    if s in p.symptoms then p.symptoms[s] else 0.0
  }

  /** `data.get(symptom, 0) == 1`. */
  predicate HasSymptom(p: Snapshot, s: Symptom)
  {
    SymptomValue(p, s) == 1.0
  }

  /** `data.get(f'condition_{c}', 0) == 1`. */
  predicate HasConditionFlag(p: Snapshot, c: Condition)
  {
    c in p.conditionFlags && p.conditionFlags[c] == 1.0
  }

  /** `data.get(c, 0)` for a bare condition key. */
  function HistoryValue(p: Snapshot, c: Condition): real
  {
    if c in p.historyFlags then p.historyFlags[c] else 0.0
  }

  /** `sum(1 for s in ss if data.get(s, 0) == 1)`. */
  function CountSymptoms(p: Snapshot, ss: seq<Symptom>): (r: nat)
    ensures r <= |ss|
  {
    if |ss| == 0 then 0
    else CountSymptoms(p, ss[..|ss| - 1]) + (if HasSymptom(p, ss[|ss| - 1]) then 1 else 0)
  }

  /** `sum(1 for c in cs if data.get(f'condition_{c}', 0) == 1)`. */
  function CountConditionFlags(p: Snapshot, cs: seq<Condition>): (r: nat)
    ensures r <= |cs|
  {
    if |cs| == 0 then 0
    else CountConditionFlags(p, cs[..|cs| - 1]) + (if HasConditionFlag(p, cs[|cs| - 1]) then 1 else 0)
  }

  /** The count is zero exactly when no listed symptom is present. */
  lemma {:induction false} CountSymptomsZero(p: Snapshot, ss: seq<Symptom>)
    ensures CountSymptoms(p, ss) == 0 <==> forall k | 0 <= k < |ss| :: !HasSymptom(p, ss[k])
  {
    if |ss| > 0 {
      CountSymptomsZero(p, ss[..|ss| - 1]);
      assert forall k | 0 <= k < |ss| - 1 :: ss[..|ss| - 1][k] == ss[k];
    }
  }
}
