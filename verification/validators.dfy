/**
 * Input validation of the patient form (app/utils/validators.py): age and
 * hard vital ranges that reject the input, soft ranges that only warn, the
 * symptom context notes, and the display summary of a record.
 *
 * Messages are structured values; the wording and number formatting of the
 * source's f-strings are not modelled.
 */
module Validators {
  import opened Common
  import opened Clinical

  datatype Message =
    // errors
    | AgeNegative
    | AgeAbove120
    | InvalidGender
    | HeartRateOutOfRange
    | SystolicBelowDiastolic
    | TemperatureOutOfRange
    | OxygenOutOfRange
    | RespiratoryRateOutOfRange
    // warnings
    | HeartRateAbnormal(heartRate: real)
    | SystolicAbnormal(systolic: real)
    | DiastolicAbnormal(diastolic: real)
    | FeverWarning(temperature: real)
    | Hypothermia(temperature: real)
    | CriticalLowOxygen(saturation: real)
    | LowOxygen(saturation: real)
    | HighRespiratoryRate(rate: real)
    | LowRespiratoryRate(rate: real)
    | MultipleSymptoms(count: nat)
    | MultipleCriticalSymptoms

  /** The messages `validate_vital_signs` returns alone when a hard range fails. */
  predicate IsVitalError(m: Message)
  {
    m.HeartRateOutOfRange? || m.SystolicBelowDiastolic? || m.TemperatureOutOfRange?
    || m.OxygenOutOfRange? || m.RespiratoryRateOutOfRange?
  }

  /** `validate_age`: valid iff 0 <= age <= 120; the negative case is reported first. */
  function ValidateAge(age: real): (r: Option<Message>)
    ensures r.None? <==> 0.0 <= age <= 120.0
    ensures r == Some(AgeNegative) <==> age < 0.0
    ensures r == Some(AgeAbove120) <==> age > 120.0
  {
    if age < 0.0 then Some(AgeNegative)
    else if age > 120.0 then Some(AgeAbove120)
    else None
  }

  /** `vitals.get(key, default)`. */
  function VitalOr(vitals: map<Vital, real>, v: Vital, default: real): real
  {
    if v in vitals then vitals[v] else default
  }

  /** The six readings `validate_vital_signs` looks at, each `vitals.get(key, default)`. */
  datatype Readings = Readings(hr: real, sys: real, dia: real, t: real, s: real, rr: real)

  function ReadingsOf(vitals: map<Vital, real>): Readings
  {
    Readings(
      VitalOr(vitals, HeartRate, 75.0), VitalOr(vitals, Systolic, 120.0), VitalOr(vitals, Diastolic, 80.0),
      VitalOr(vitals, Temperature, 37.0), VitalOr(vitals, OxygenSaturation, 98.0), VitalOr(vitals, RespiratoryRate, 16.0))
  }

  /** The hard ranges: heart rate 30..220, systolic not below diastolic, temperature 34..42, oxygen 70..100, respiratory rate 6..50. */
  predicate WithinHardRanges(r: Readings)
  {
    30.0 <= r.hr <= 220.0 && r.sys >= r.dia && 34.0 <= r.t <= 42.0 && 70.0 <= r.s <= 100.0 && 6.0 <= r.rr <= 50.0
  }

  /** The error reported for the first failing hard range, in checking order. */
  function FirstBreach(r: Readings): (m: Message)
    ensures IsVitalError(m)
  {
    if r.hr < 30.0 || r.hr > 220.0 then HeartRateOutOfRange
    else if r.sys < r.dia then SystolicBelowDiastolic
    else if r.t < 34.0 || r.t > 42.0 then TemperatureOutOfRange
    else if r.s < 70.0 || r.s > 100.0 then OxygenOutOfRange
    else RespiratoryRateOutOfRange
  }

  /** A breach names a range that fails, and every range checked before it holds. */
  lemma FirstBreachFails(r: Readings)
    requires !WithinHardRanges(r)
    ensures FirstBreach(r) == HeartRateOutOfRange <==> r.hr < 30.0 || r.hr > 220.0
    ensures FirstBreach(r) == SystolicBelowDiastolic ==> 30.0 <= r.hr <= 220.0 && r.sys < r.dia
    ensures FirstBreach(r) == TemperatureOutOfRange ==> 30.0 <= r.hr <= 220.0 && r.sys >= r.dia && (r.t < 34.0 || r.t > 42.0)
    ensures FirstBreach(r) == OxygenOutOfRange ==> 34.0 <= r.t <= 42.0 && (r.s < 70.0 || r.s > 100.0)
    ensures FirstBreach(r) == RespiratoryRateOutOfRange ==> WithinHardRanges(r.(rr := 16.0))
  {
  }

  /** The warnings `validate_vital_signs` may add. */
  predicate IsVitalWarning(m: Message)
  {
    m.HeartRateAbnormal? || m.SystolicAbnormal? || m.DiastolicAbnormal? || m.FeverWarning?
    || m.Hypothermia? || m.CriticalLowOxygen? || m.LowOxygen? || m.HighRespiratoryRate?
    || m.LowRespiratoryRate?
  }

  function If(c: bool, m: Message): seq<Message>
  {
    if c then [m] else []
  }

  function HeartRateWarnings(hr: real): seq<Message>
  {
    If(hr < 50.0 || hr > 120.0, HeartRateAbnormal(hr))
  }

  function PressureWarnings(sys: real, dia: real): seq<Message>
  {
    If(sys > 180.0 || sys < 80.0, SystolicAbnormal(sys)) + If(dia > 120.0 || dia < 50.0, DiastolicAbnormal(dia))
  }

  function TemperatureWarnings(t: real): seq<Message>
  {
    If(t > 38.0, FeverWarning(t)) + If(t < 36.0, Hypothermia(t))
  }

  function OxygenWarnings(s: real): seq<Message>
  {
    if s < 92.0 then [CriticalLowOxygen(s)] else If(s < 95.0, LowOxygen(s))
  }

  function RespirationWarnings(rr: real): seq<Message>
  {
    If(rr > 25.0, HighRespiratoryRate(rr)) + If(rr < 10.0, LowRespiratoryRate(rr))
  }

  /** The soft-range warnings of readings that pass the hard ranges, in checking order. */
  function SoftWarnings(r: Readings): seq<Message>
  {
    HeartRateWarnings(r.hr) + PressureWarnings(r.sys, r.dia) + TemperatureWarnings(r.t)
    + OxygenWarnings(r.s) + RespirationWarnings(r.rr)
  }

  lemma InSoftWarnings(r: Readings, m: Message)
    ensures m in SoftWarnings(r) <==>
      m in HeartRateWarnings(r.hr) || m in PressureWarnings(r.sys, r.dia) || m in TemperatureWarnings(r.t)
      || m in OxygenWarnings(r.s) || m in RespirationWarnings(r.rr)
  {
  }

  /** Only vital warnings, at most six of them: the two temperature and the two oxygen warnings exclude each other. */
  lemma SoftWarningsKinds(r: Readings)
    ensures |SoftWarnings(r)| <= 6
    ensures forall m | m in SoftWarnings(r) :: IsVitalWarning(m)
  {
    assert |HeartRateWarnings(r.hr)| <= 1 && |PressureWarnings(r.sys, r.dia)| <= 2;
    assert |TemperatureWarnings(r.t)| <= 1 && |OxygenWarnings(r.s)| <= 1 && |RespirationWarnings(r.rr)| <= 1;
    forall m | m in SoftWarnings(r)
      ensures IsVitalWarning(m)
    {
      InSoftWarnings(r, m);
    }
  }

  /** The heart-rate warning appears exactly when 50..120 is left. */
  lemma SoftWarningsHeartRate(r: Readings)
    ensures HeartRateAbnormal(r.hr) in SoftWarnings(r) <==> r.hr < 50.0 || r.hr > 120.0
  {
    InSoftWarnings(r, HeartRateAbnormal(r.hr));
  }

  /** The blood-pressure warnings appear exactly when systolic 80..180 or diastolic 50..120 is left. */
  lemma SoftWarningsPressure(r: Readings)
    ensures SystolicAbnormal(r.sys) in SoftWarnings(r) <==> r.sys > 180.0 || r.sys < 80.0
    ensures DiastolicAbnormal(r.dia) in SoftWarnings(r) <==> r.dia > 120.0 || r.dia < 50.0
  {
    InSoftWarnings(r, SystolicAbnormal(r.sys));
    InSoftWarnings(r, DiastolicAbnormal(r.dia));
  }

  /** Fever above 38 and hypothermia below 36. */
  lemma SoftWarningsTemperature(r: Readings)
    ensures FeverWarning(r.t) in SoftWarnings(r) <==> r.t > 38.0
    ensures Hypothermia(r.t) in SoftWarnings(r) <==> r.t < 36.0
  {
    InSoftWarnings(r, FeverWarning(r.t));
    InSoftWarnings(r, Hypothermia(r.t));
  }

  /** Oxygen below 92 is critical and 92 up to 95 low, never both. */
  lemma SoftWarningsOxygen(r: Readings)
    ensures CriticalLowOxygen(r.s) in SoftWarnings(r) <==> r.s < 92.0
    ensures LowOxygen(r.s) in SoftWarnings(r) <==> 92.0 <= r.s < 95.0
  {
    InSoftWarnings(r, CriticalLowOxygen(r.s));
    InSoftWarnings(r, LowOxygen(r.s));
  }

  /** Respiratory rate above 25 or below 10. */
  lemma SoftWarningsRespiration(r: Readings)
    ensures HighRespiratoryRate(r.rr) in SoftWarnings(r) <==> r.rr > 25.0
    ensures LowRespiratoryRate(r.rr) in SoftWarnings(r) <==> r.rr < 10.0
  {
    InSoftWarnings(r, HighRespiratoryRate(r.rr));
    InSoftWarnings(r, LowRespiratoryRate(r.rr));
  }

  /**
   * `validate_vital_signs`: on the first hard-range breach, false and that one
   * error; otherwise true and the soft-range warnings.
   */
  method ValidateVitalSigns(vitals: map<Vital, real>) returns (ok: bool, msgs: seq<Message>)
    ensures ok <==> WithinHardRanges(ReadingsOf(vitals))
    ensures !ok ==> msgs == [FirstBreach(ReadingsOf(vitals))]
    ensures ok ==> msgs == SoftWarnings(ReadingsOf(vitals))
  {
    ok, msgs := CheckReadings(ReadingsOf(vitals));
  }

  /** The checks of `validate_vital_signs` on the readings it has looked up. */
  method CheckReadings(r: Readings) returns (ok: bool, msgs: seq<Message>)
    ensures ok <==> WithinHardRanges(r)
    ensures !ok ==> msgs == [FirstBreach(r)]
    ensures ok ==> msgs == SoftWarnings(r)
  {
    if r.hr < 30.0 || r.hr > 220.0 {
      return false, [HeartRateOutOfRange];
    }
    var warnings := HeartRateWarnings(r.hr);
    if r.sys < r.dia {
      return false, [SystolicBelowDiastolic];
    }
    warnings := warnings + PressureWarnings(r.sys, r.dia);
    if r.t < 34.0 || r.t > 42.0 {
      return false, [TemperatureOutOfRange];
    }
    warnings := warnings + TemperatureWarnings(r.t);
    if r.s < 70.0 || r.s > 100.0 {
      return false, [OxygenOutOfRange];
    }
    warnings := warnings + OxygenWarnings(r.s);
    if r.rr < 6.0 || r.rr > 50.0 {
      return false, [RespiratoryRateOutOfRange];
    }
    warnings := warnings + RespirationWarnings(r.rr);
    return true, warnings;
  }

  predicate ValidGender(g: Option<string>)
  {
    g == Some("male") || g == Some("female") || g == Some("other")
  }

  /** The age and gender errors, in checking order. */
  function PersonalErrors(p: Snapshot): seq<Message>
  {
    (match ValidateAge(GetOr(p.age, 0.0)) case Some(m) => [m] case None => [])
    + If(!ValidGender(p.gender), InvalidGender)
  }

  /** The context notes on the symptoms present. */
  function SymptomNotes(p: Snapshot): seq<Message>
  {
    var n := CountSymptoms(p, AllSymptoms);
    If(n >= 6, MultipleSymptoms(n)) + If(CountSymptoms(p, CriticalSymptoms) >= 2, MultipleCriticalSymptoms)
  }

  /**
   * `validate_patient_data`: the age and gender errors, then the vital-sign
   * error if a hard range fails, else the vital warnings; the symptom notes
   * always go to the warnings; valid iff there is no error.
   */
  method ValidatePatientData(p: Snapshot) returns (valid: bool, errors: seq<Message>, warnings: seq<Message>)
    ensures valid <==> |errors| == 0
    ensures valid <==> 0.0 <= GetOr(p.age, 0.0) <= 120.0 && ValidGender(p.gender) && WithinHardRanges(ReadingsOf(p.vitals))
    ensures var r := ReadingsOf(p.vitals);
      if WithinHardRanges(r) then errors == PersonalErrors(p) && warnings == SoftWarnings(r) + SymptomNotes(p)
      else errors == PersonalErrors(p) + [FirstBreach(r)] && warnings == SymptomNotes(p)
  {
    errors := CheckPersonal(p);
    PersonalErrorsCases(p);
    warnings := [];
    var vitalsOk, vitalMessages := ValidateVitalSigns(p.vitals);
    if !vitalsOk {
      errors := errors + vitalMessages;
    } else {
      warnings := vitalMessages;
    }
    warnings := AppendSymptomNotes(p, warnings);
    valid := |errors| == 0;
  }

  /** The age check, then the gender check. */
  method CheckPersonal(p: Snapshot) returns (errors: seq<Message>)
    ensures errors == PersonalErrors(p)
  {
    errors := [];
    var ageCheck := ValidateAge(GetOr(p.age, 0.0));
    if ageCheck.Some? {
      errors := errors + [ageCheck.value];
    }
    if !ValidGender(p.gender) {
      errors := errors + [InvalidGender];
    }
  }

  /** The symptom-count note, then the critical-symptom note. */
  method AppendSymptomNotes(p: Snapshot, warnings: seq<Message>) returns (r: seq<Message>)
    ensures r == warnings + SymptomNotes(p)
  {
    r := warnings;
    var symptomCount := CountSymptoms(p, AllSymptoms);
    if symptomCount >= 6 {
      r := r + [MultipleSymptoms(symptomCount)];
    }
    var criticalCount := CountSymptoms(p, CriticalSymptoms);
    if criticalCount >= 2 {
      r := r + [MultipleCriticalSymptoms];
    }
  }

  /** Valid exactly when the age is in 0..120, the gender is known and the vitals pass the hard ranges. */
  lemma PersonalErrorsCases(p: Snapshot)
    ensures |PersonalErrors(p)| == 0 <==> 0.0 <= GetOr(p.age, 0.0) <= 120.0 && ValidGender(p.gender)
    ensures InvalidGender in PersonalErrors(p) <==> !ValidGender(p.gender)
    ensures (AgeNegative in PersonalErrors(p) || AgeAbove120 in PersonalErrors(p)) <==> ValidateAge(GetOr(p.age, 0.0)).Some?
    ensures forall m | m in PersonalErrors(p) :: !IsVitalError(m)
  {
  }

  /** A note on six or more symptoms and one on two or more of chest pain, shortness of breath and confusion. */
  lemma SymptomNotesCases(p: Snapshot)
    ensures MultipleSymptoms(CountSymptoms(p, AllSymptoms)) in SymptomNotes(p) <==> CountSymptoms(p, AllSymptoms) >= 6
    ensures MultipleCriticalSymptoms in SymptomNotes(p) <==> CountSymptoms(p, CriticalSymptoms) >= 2
    ensures forall m | m in SymptomNotes(p) :: !IsVitalError(m) && !IsVitalWarning(m)
  {
  }

  // ---------------------------------------------------------------------
  // Display summary
  // ---------------------------------------------------------------------

  /** The symptoms marked present, in list order. */
  function PresentSymptoms(p: Snapshot, ss: seq<Symptom>): (r: seq<Symptom>)
    ensures |r| == CountSymptoms(p, ss)
    ensures forall s :: s in r <==> s in ss && HasSymptom(p, s)
  {
    if |ss| == 0 then []
    else
      var last := ss[|ss| - 1];
      assert forall s :: s in ss <==> s in ss[..|ss| - 1] || s == last;
      PresentSymptoms(p, ss[..|ss| - 1]) + (if HasSymptom(p, last) then [last] else [])
  }

  /** `data.get(c, 0) == 1` for a bare condition key. */
  predicate HasHistory(p: Snapshot, c: Condition)
  {
    HistoryValue(p, c) == 1.0
  }

  /** The conditions marked present under their bare keys, in list order. */
  function PresentHistory(p: Snapshot, cs: seq<Condition>): (r: seq<Condition>)
    ensures |r| <= |cs|
    ensures forall c :: c in r <==> c in cs && HasHistory(p, c)
  {
    if |cs| == 0 then []
    else
      var last := cs[|cs| - 1];
      assert forall c :: c in cs <==> c in cs[..|cs| - 1] || c == last;
      PresentHistory(p, cs[..|cs| - 1]) + (if HasHistory(p, last) then [last] else [])
  }

  datatype DataSummary = DataSummary(
    age: Option<real>,
    gender: string,
    symptomCount: nat,
    symptoms: seq<string>,
    conditionCount: nat,
    conditions: seq<string>,
    heartRate: Option<real>,
    bloodPressure: (Option<real>, Option<real>),
    temperature: Option<real>,
    oxygenSaturation: Option<real>)

  function SymptomNames(ss: seq<Symptom>): (names: seq<string>)
    ensures |names| == |ss|
    ensures forall i | 0 <= i < |ss| :: names[i] == Humanize(SymptomKey(ss[i]))
  {
    seq(|ss|, i requires 0 <= i < |ss| => Humanize(SymptomKey(ss[i])))
  }

  function ConditionNames(cs: seq<Condition>): (names: seq<string>)
    ensures |names| == |cs|
    ensures forall i | 0 <= i < |cs| :: names[i] == Humanize(ConditionKey(cs[i]))
  {
    seq(|cs|, i requires 0 <= i < |cs| => Humanize(ConditionKey(cs[i])))
  }

  /** `get_data_summary`; an absent value is `None` where the source shows "N/A". */
  function DataSummaryOf(p: Snapshot): (d: DataSummary)
    ensures d.symptomCount == |d.symptoms| == CountSymptoms(p, AllSymptoms)
    ensures d.conditionCount == 0 ==> d.conditions == ["None reported"]
    ensures d.conditionCount > 0 ==> |d.conditions| == d.conditionCount
    ensures d.gender == if p.gender.Some? then Title(p.gender.value) else "N/A"
    ensures d.heartRate == VitalOf(p, HeartRate) && d.temperature == VitalOf(p, Temperature)
  {
    var ss := PresentSymptoms(p, AllSymptoms);
    var cs := PresentHistory(p, AllConditions);
    DataSummary(
      p.age, if p.gender.Some? then Title(p.gender.value) else "N/A",
      |ss|, SymptomNames(ss), |cs|,
      if |cs| > 0 then ConditionNames(cs) else ["None reported"],
      VitalOf(p, HeartRate), (VitalOf(p, Systolic), VitalOf(p, Diastolic)),
      VitalOf(p, Temperature), VitalOf(p, OxygenSaturation))
  }

  /** Every symptom marked present is listed by its display name. */
  lemma DataSummaryListsSymptoms(p: Snapshot, s: Symptom)
    requires HasSymptom(p, s)
    ensures Humanize(SymptomKey(s)) in DataSummaryOf(p).symptoms
  {
    VocabularyComplete();
    var ss := PresentSymptoms(p, AllSymptoms);
    assert s in ss;
    var i :| 0 <= i < |ss| && ss[i] == s;
    assert DataSummaryOf(p).symptoms[i] == Humanize(SymptomKey(s));
  }

  /** The condition count is zero exactly when no condition is marked present. */
  lemma DataSummaryNoConditions(p: Snapshot)
    ensures DataSummaryOf(p).conditionCount == 0 <==> forall c: Condition :: !HasHistory(p, c)
  {
    VocabularyComplete();
    var cs := PresentHistory(p, AllConditions);
    if |cs| > 0 {
      assert cs[0] in cs;
    }
  }
}
