/**
 * The two non-widget functions of the patient input form
 * (app/components/input_form.py): the status of one reading against its
 * configured thresholds, and the form's pre-prediction check, whose messages
 * keep their emoji prefixes because validity is decided by them.
 */
module InputForm {
  import opened Common
  import opened Clinical

  // ---------------------------------------------------------------------
  // Vital status
  // ---------------------------------------------------------------------

  /** The threshold keys of one EXTENDED_VITAL_SIGNS entry; an absent key is `None`. */
  datatype VitalRange = VitalRange(
    criticalLow: Option<real>,
    criticalHigh: Option<real>,
    warningLow: Option<real>,
    warningHigh: Option<real>,
    normalMin: Option<real>,
    normalMax: Option<real>)

  const BloodSugarRange: VitalRange := VitalRange(Some(50.0), Some(200.0), Some(60.0), Some(125.0), Some(70.0), Some(100.0))
  const BmiRange: VitalRange := VitalRange(Some(15.0), Some(40.0), Some(16.0), Some(30.0), Some(18.5), Some(24.9))
  const PainRange: VitalRange := VitalRange(None, Some(8.0), None, Some(6.0), Some(0.0), Some(3.0))
  const GcsRange: VitalRange := VitalRange(Some(8.0), None, Some(13.0), None, Some(15.0), Some(15.0))

  datatype VitalStatus = CriticalLow | CriticalHigh | WarningLow | WarningHigh | Normal | Abnormal

  /** `key in config and value <= config[key]`. */
  predicate AtOrBelow(bound: Option<real>, x: real)
  {
    bound.Some? && x <= bound.value
  }

  /** `key in config and value >= config[key]`. */
  predicate AtOrAbove(bound: Option<real>, x: real)
  {
    bound.Some? && x >= bound.value
  }

  /** Within the normal range, an absent bound being unbounded. */
  predicate InNormalRange(cfg: VitalRange, x: real)
  {
    (cfg.normalMin.None? || cfg.normalMin.value <= x) && (cfg.normalMax.None? || x <= cfg.normalMax.value)
  }

  /** No critical or warning threshold is reached. */
  predicate NoThresholdReached(cfg: VitalRange, x: real)
  {
    !AtOrBelow(cfg.criticalLow, x) && !AtOrAbove(cfg.criticalHigh, x)
    && !AtOrBelow(cfg.warningLow, x) && !AtOrAbove(cfg.warningHigh, x)
  }

  /**
   * `get_vital_status`: the first check that fires in the order critical low,
   * critical high, warning low, warning high; then Normal inside the
   * (inclusive) normal range and Abnormal outside it.
   */
  function GetVitalStatus(value: real, cfg: VitalRange): (st: VitalStatus)
    ensures st == CriticalLow <==> AtOrBelow(cfg.criticalLow, value)
    ensures st == CriticalHigh <==> !AtOrBelow(cfg.criticalLow, value) && AtOrAbove(cfg.criticalHigh, value)
    ensures st == WarningLow <==>
      !AtOrBelow(cfg.criticalLow, value) && !AtOrAbove(cfg.criticalHigh, value) && AtOrBelow(cfg.warningLow, value)
    ensures st == WarningHigh <==>
      !AtOrBelow(cfg.criticalLow, value) && !AtOrAbove(cfg.criticalHigh, value)
      && !AtOrBelow(cfg.warningLow, value) && AtOrAbove(cfg.warningHigh, value)
    ensures st == Normal <==> NoThresholdReached(cfg, value) && InNormalRange(cfg, value)
    ensures st == Abnormal <==> NoThresholdReached(cfg, value) && !InNormalRange(cfg, value)
  {
    if AtOrBelow(cfg.criticalLow, value) then CriticalLow
    else if AtOrAbove(cfg.criticalHigh, value) then CriticalHigh
    else if AtOrBelow(cfg.warningLow, value) then WarningLow
    else if AtOrAbove(cfg.warningHigh, value) then WarningHigh
    else if InNormalRange(cfg, value) then Normal
    else Abnormal
  }

  /** The (emoji, text, colour) triple returned for a status. */
  function StatusDisplay(st: VitalStatus): (d: (string, string, string))
    ensures d.2 == "red" <==> st == CriticalLow || st == CriticalHigh
    ensures d.2 == "green" <==> st == Normal
    ensures d.2 == "orange" <==> st == WarningLow || st == WarningHigh || st == Abnormal
  {
    match st
    case CriticalLow => ("🔴", "Critical (Low)", "red")
    case CriticalHigh => ("🔴", "Critical (High)", "red")
    case WarningLow => ("🟡", "Warning (Low)", "orange")
    case WarningHigh => ("🟡", "Warning (High)", "orange")
    case Normal => ("🟢", "Normal", "green")
    case Abnormal => ("🟡", "Abnormal", "orange")
  }

  /** 0 for Normal, 1 for a warning or Abnormal, 2 for a critical status. */
  function Severity(st: VitalStatus): nat
  {
    match st
    case CriticalLow => 2
    case CriticalHigh => 2
    case Normal => 0
    case _ => 1
  }

  /** Every threshold is present and they nest: critical outside warning outside normal. */
  predicate Nested(cfg: VitalRange)
  {
    cfg.criticalLow.Some? && cfg.criticalHigh.Some? && cfg.warningLow.Some? && cfg.warningHigh.Some?
    && cfg.normalMin.Some? && cfg.normalMax.Some?
    && cfg.criticalLow.value < cfg.warningLow.value < cfg.normalMin.value
    && cfg.normalMin.value <= cfg.normalMax.value < cfg.warningHigh.value < cfg.criticalHigh.value
  }

  /**
   * For nested thresholds the status only gets more severe moving away from
   * the normal range, on either side.
   */
  lemma SeverityMonotone(cfg: VitalRange, x: real, y: real)
    requires Nested(cfg)
    ensures cfg.normalMax.value <= x <= y ==> Severity(GetVitalStatus(x, cfg)) <= Severity(GetVitalStatus(y, cfg))
    ensures y <= x <= cfg.normalMin.value ==> Severity(GetVitalStatus(x, cfg)) <= Severity(GetVitalStatus(y, cfg))
  {
  }

  /** Blood sugar: the bands of EXTENDED_VITAL_SIGNS, including the Abnormal gaps between the warning and normal ranges. */
  lemma BloodSugarBands()
    ensures Nested(BloodSugarRange)
    ensures GetVitalStatus(45.0, BloodSugarRange) == CriticalLow
    ensures GetVitalStatus(50.0, BloodSugarRange) == CriticalLow
    ensures GetVitalStatus(60.0, BloodSugarRange) == WarningLow
    ensures GetVitalStatus(65.0, BloodSugarRange) == Abnormal
    ensures GetVitalStatus(90.0, BloodSugarRange) == Normal
    ensures GetVitalStatus(110.0, BloodSugarRange) == Abnormal
    ensures GetVitalStatus(125.0, BloodSugarRange) == WarningHigh
    ensures GetVitalStatus(200.0, BloodSugarRange) == CriticalHigh
  {
  }

  /** Missing keys skip their checks: pain has no low thresholds and GCS no high ones. */
  lemma MissingKeysSkip()
    ensures GetVitalStatus(0.0, PainRange) == Normal
    ensures GetVitalStatus(5.0, PainRange) == Abnormal
    ensures GetVitalStatus(15.0, GcsRange) == Normal
    ensures GetVitalStatus(3.0, GcsRange) == CriticalLow
    ensures forall x: real :: GetVitalStatus(x, PainRange) != CriticalLow && GetVitalStatus(x, PainRange) != WarningLow
    ensures forall x: real :: GetVitalStatus(x, GcsRange) != CriticalHigh && GetVitalStatus(x, GcsRange) != WarningHigh
  {
  }

  // ---------------------------------------------------------------------
  // Pre-prediction check
  // ---------------------------------------------------------------------

  const WarningMark: string := "⚠️"
  const CriticalMark: string := "🔴"

  const AgeMessage: string := "Age must be between 0 and 120"
  const LowOxygenMessage: string := WarningMark + " Warning: Very low oxygen saturation detected"
  const HeartRateMessage: string := WarningMark + " Warning: Abnormal heart rate detected"
  const HypoglycemiaMessage: string := CriticalMark + " Critical: Dangerously low blood sugar (hypoglycemia)"
  const HyperglycemiaMessage: string := CriticalMark + " Critical: Very high blood sugar detected"
  const BloodSugarMessage: string := WarningMark + " Warning: Abnormal blood sugar level"
  const BmiMessage: string := WarningMark + " Warning: BMI in critical range"
  const SeverePainMessage: string := CriticalMark + " Critical: Severe pain reported"
  const PainMessage: string := WarningMark + " Warning: Significant pain reported"
  const SevereGcsMessage: string := CriticalMark + " Critical: Severe consciousness impairment (GCS ≤ 8)"
  const GcsMessage: string := WarningMark + " Warning: Consciousness impairment detected"

  /** A message that does not block: it starts with the warning or the critical mark. */
  predicate Advisory(m: string)
  {
    WarningMark <= m || CriticalMark <= m
  }

  lemma PrefixOfConcat(a: string, b: string)
    ensures a <= a + b
  {
    assert (a + b)[..|a|] == a;
  }

  /** Every message but the age message starts with a mark. */
  lemma AdvisoryMessages()
    ensures Advisory(LowOxygenMessage) && Advisory(HeartRateMessage) && Advisory(BloodSugarMessage)
    ensures Advisory(BmiMessage) && Advisory(PainMessage) && Advisory(GcsMessage)
    ensures Advisory(HypoglycemiaMessage) && Advisory(HyperglycemiaMessage)
    ensures Advisory(SeverePainMessage) && Advisory(SevereGcsMessage)
    ensures !Advisory(AgeMessage)
  {
    PrefixOfConcat(WarningMark, " Warning: Very low oxygen saturation detected");
    PrefixOfConcat(WarningMark, " Warning: Abnormal heart rate detected");
    PrefixOfConcat(WarningMark, " Warning: Abnormal blood sugar level");
    PrefixOfConcat(WarningMark, " Warning: BMI in critical range");
    PrefixOfConcat(WarningMark, " Warning: Significant pain reported");
    PrefixOfConcat(WarningMark, " Warning: Consciousness impairment detected");
    PrefixOfConcat(CriticalMark, " Critical: Dangerously low blood sugar (hypoglycemia)");
    PrefixOfConcat(CriticalMark, " Critical: Very high blood sugar detected");
    PrefixOfConcat(CriticalMark, " Critical: Severe pain reported");
    PrefixOfConcat(CriticalMark, " Critical: Severe consciousness impairment (GCS ≤ 8)");
    assert AgeMessage[0] == 'A';
  }

  function Note(c: bool, m: string): seq<string>
  {
    if c then [m] else []
  }

  /** `data.get(key, default)` for a reading. */
  function ReadingOr(p: Snapshot, v: Vital, default: real): real
  {
    if v in p.vitals then p.vitals[v] else default
  }

  /** The values the check reads, each over its default. */
  datatype FormReadings = FormReadings(age: real, saturation: real, heartRate: real, bloodSugar: real, bmi: real, pain: real, gcs: real)

  function FormReadingsOf(p: Snapshot): FormReadings
  {
    FormReadings(
      GetOr(p.age, 0.0), ReadingOr(p, OxygenSaturation, 100.0), ReadingOr(p, HeartRate, 75.0),
      ReadingOr(p, BloodSugar, 90.0), ReadingOr(p, Bmi, 22.0), ReadingOr(p, PainScore, 0.0),
      ReadingOr(p, ConsciousnessGcs, 15.0))
  }

  /** One blood-sugar message at most: below 50 or above 200 critical, else outside 70..125 a warning. */
  function BloodSugarNotes(bs: real): (r: seq<string>)
    ensures |r| <= 1
    ensures r == [HypoglycemiaMessage] <==> bs < 50.0
    ensures r == [HyperglycemiaMessage] <==> bs > 200.0
    ensures r == [BloodSugarMessage] <==> (50.0 <= bs < 70.0 || 125.0 < bs <= 200.0)
  {
    if bs < 50.0 then [HypoglycemiaMessage]
    else if bs > 200.0 then [HyperglycemiaMessage]
    else Note(bs < 70.0 || bs > 125.0, BloodSugarMessage)
  }

  /** Pain 8 or more is critical, else 6 or more a warning. */
  function PainNotes(pain: real): (r: seq<string>)
    ensures |r| <= 1
    ensures r == [SeverePainMessage] <==> pain >= 8.0
    ensures r == [PainMessage] <==> 6.0 <= pain < 8.0
  {
    if pain >= 8.0 then [SeverePainMessage] else Note(pain >= 6.0, PainMessage)
  }

  /** GCS 8 or less is critical, else 12 or less a warning. */
  function GcsNotes(gcs: real): (r: seq<string>)
    ensures |r| <= 1
    ensures r == [SevereGcsMessage] <==> gcs <= 8.0
    ensures r == [GcsMessage] <==> 8.0 < gcs <= 12.0
  {
    if gcs <= 8.0 then [SevereGcsMessage] else Note(gcs <= 12.0, GcsMessage)
  }

  /** The messages of the pre-prediction check, in checking order. */
  function FormMessages(r: FormReadings): seq<string>
  {
    Note(r.age < 0.0 || r.age > 120.0, AgeMessage)
    + Note(r.saturation < 85.0, LowOxygenMessage)
    + Note(r.heartRate < 40.0 || r.heartRate > 180.0, HeartRateMessage)
    + BloodSugarNotes(r.bloodSugar)
    + Note(r.bmi < 15.0 || r.bmi > 40.0, BmiMessage)
    + PainNotes(r.pain)
    + GcsNotes(r.gcs)
  }

  /** `if c: errors.append(m)`. */
  method AppendIf(errors: seq<string>, c: bool, m: string) returns (errors': seq<string>)
    ensures errors' == errors + Note(c, m)
  {
    errors' := errors;
    if c {
      errors' := errors' + [m];
    }
  }

  /** The blood-sugar `if`/`elif` chain. */
  method AppendBloodSugar(errors: seq<string>, bloodSugar: real) returns (errors': seq<string>)
    ensures errors' == errors + BloodSugarNotes(bloodSugar)
  {
    errors' := errors;
    if bloodSugar < 50.0 {
      errors' := errors' + [HypoglycemiaMessage];
    } else if bloodSugar > 200.0 {
      errors' := errors' + [HyperglycemiaMessage];
    } else if bloodSugar < 70.0 || bloodSugar > 125.0 {
      errors' := errors' + [BloodSugarMessage];
    }
  }

  /** The pain `if`/`elif` chain. */
  method AppendPain(errors: seq<string>, pain: real) returns (errors': seq<string>)
    ensures errors' == errors + PainNotes(pain)
  {
    errors' := errors;
    if pain >= 8.0 {
      errors' := errors' + [SeverePainMessage];
    } else if pain >= 6.0 {
      errors' := errors' + [PainMessage];
    }
  }

  /** The GCS `if`/`elif` chain. */
  method AppendGcs(errors: seq<string>, gcs: real) returns (errors': seq<string>)
    ensures errors' == errors + GcsNotes(gcs)
  {
    errors' := errors;
    if gcs <= 8.0 {
      errors' := errors' + [SevereGcsMessage];
    } else if gcs <= 12.0 {
      errors' := errors' + [GcsMessage];
    }
  }

  /**
   * `validate_patient_data` of the form: collect the messages; the record is
   * valid when every message is advisory.
   */
  method ValidateForm(p: Snapshot) returns (valid: bool, errors: seq<string>)
    ensures errors == FormMessages(FormReadingsOf(p))
    ensures valid <==> forall m | m in errors :: Advisory(m)
  {
    var r := FormReadingsOf(p);
    errors := Note(r.age < 0.0 || r.age > 120.0, AgeMessage);
    errors := AppendIf(errors, r.saturation < 85.0, LowOxygenMessage);
    errors := AppendIf(errors, r.heartRate < 40.0 || r.heartRate > 180.0, HeartRateMessage);
    errors := AppendBloodSugar(errors, r.bloodSugar);
    errors := AppendIf(errors, r.bmi < 15.0 || r.bmi > 40.0, BmiMessage);
    errors := AppendPain(errors, r.pain);
    errors := AppendGcs(errors, r.gcs);
    valid := forall m | m in errors :: Advisory(m);
  }

  /** Only the age message blocks: every other message carries a mark. */
  lemma FormValidity(p: Snapshot)
    ensures (forall m | m in FormMessages(FormReadingsOf(p)) :: Advisory(m)) <==> 0.0 <= GetOr(p.age, 0.0) <= 120.0
  {
    var r := FormReadingsOf(p);
    var ms := FormMessages(r);
    AdvisoryMessages();
    assert forall m | m in ms :: m == AgeMessage || Advisory(m);
    assert AgeMessage in ms <==> r.age < 0.0 || r.age > 120.0;
  }

  /** A record with no readings and no age passes without a message. */
  lemma EmptyRecordPasses()
    ensures FormMessages(FormReadingsOf(EmptySnapshot)) == []
  {
  }
}
