/**
 * The preprocessor's record-level rules (ml/preprocessing.py): input
 * validation, and the encodings `prepare_features` derives for a single
 * record (gender code, age scaled to [0, 1], vitals normalised and clipped,
 * symptom and condition counts).
 */
module Preprocessing {
  import opened Common
  import opened Clinical
  import Encoder

  // ---------------------------------------------------------------------
  // Input validation
  // ---------------------------------------------------------------------

  /** The `age` entry as `validate_input` sees it: absent, numeric, or of another type. */
  datatype AgeEntry = NoAge | NumericAge(years: real) | NonNumericAge

  /** The entries `validate_input` looks at. */
  datatype InputRecord = InputRecord(age: AgeEntry, gender: Option<string>, vitals: map<Vital, real>)

  datatype InputError =
    | AgeRequired | AgeOutOfRange | GenderRequired | GenderInvalid
    | HeartRateInvalid | OxygenInvalid | TemperatureInvalid

  function ErrorText(e: InputError): string
  {
    match e
    case AgeRequired => "Age is required"
    case AgeOutOfRange => "Age must be between 0 and 120"
    case GenderRequired => "Gender is required"
    case GenderInvalid => "Gender must be 'male', 'female', or 'other'"
    case HeartRateInvalid => "Heart rate must be between 20 and 250 bpm"
    case OxygenInvalid => "Oxygen saturation must be between 50 and 100%"
    case TemperatureInvalid => "Temperature must be between 30 and 45°C"
  }

  /** Both age errors mention "age" once lower-cased. */
  lemma AgeErrorsMentionAge()
    ensures IsInfix("age", Lower(ErrorText(AgeRequired)))
    ensures IsInfix("age", Lower(ErrorText(AgeOutOfRange)))
  {
    var a := Lower(ErrorText(AgeRequired));
    var b := Lower(ErrorText(AgeOutOfRange));
    assert a[0..3] == "age";
    assert b[0..3] == "age";
    assert OccursAt("age", a, 0) && OccursAt("age", b, 0);
  }

  function AgeErrors(age: AgeEntry): (r: seq<InputError>)
    ensures |r| <= 1
  {
    match age
    case NoAge => [AgeRequired]
    case NonNumericAge => [AgeOutOfRange]
    case NumericAge(a) => if a < 0.0 || a > 120.0 then [AgeOutOfRange] else []
  }

  predicate KnownGender(g: string)
  {
    g == "male" || g == "female" || g == "other"
  }

  function GenderErrors(g: Option<string>): (r: seq<InputError>)
    ensures |r| <= 1
  {
    if g.None? then [GenderRequired] else if !KnownGender(g.value) then [GenderInvalid] else []
  }

  /** The error one present vital raises, if any; only three vitals are checked. */
  function VitalError(v: Vital, x: real): Option<InputError>
  {
    if v == HeartRate && (x < 20.0 || x > 250.0) then Some(HeartRateInvalid)
    else if v == OxygenSaturation && (x < 50.0 || x > 100.0) then Some(OxygenInvalid)
    else if v == Temperature && (x < 30.0 || x > 45.0) then Some(TemperatureInvalid)
    else None
  }

  /** The vital errors in the order of the vital table. */
  function VitalErrors(vitals: map<Vital, real>, vs: seq<Vital>): seq<InputError>
  {
    if |vs| == 0 then []
    else
      var v := vs[|vs| - 1];
      var e := if v in vitals then VitalError(v, vitals[v]) else None;
      VitalErrors(vitals, vs[..|vs| - 1]) + (if e.Some? then [e.value] else [])
  }

  function InputErrors(d: InputRecord): seq<InputError>
  {
    AgeErrors(d.age) + GenderErrors(d.gender) + VitalErrors(d.vitals, CoreVitals)
  }

  method CheckAge(errors: seq<InputError>, age: AgeEntry) returns (r: seq<InputError>)
    ensures r == errors + AgeErrors(age)
  {
    r := errors;
    match age {
      case NoAge => r := r + [AgeRequired];
      case NonNumericAge => r := r + [AgeOutOfRange];
      case NumericAge(a) =>
        if a < 0.0 || a > 120.0 {
          r := r + [AgeOutOfRange];
        }
    }
  }

  method CheckGender(errors: seq<InputError>, g: Option<string>) returns (r: seq<InputError>)
    ensures r == errors + GenderErrors(g)
  {
    r := errors;
    if g.None? {
      r := r + [GenderRequired];
    } else if !KnownGender(g.value) {
      r := r + [GenderInvalid];
    }
  }

  /** The loop over the vital table. */
  method CheckVitals(errors: seq<InputError>, vitals: map<Vital, real>) returns (r: seq<InputError>)
    ensures r == errors + VitalErrors(vitals, CoreVitals)
  {
    r := errors;
    for i := 0 to |CoreVitals|
      invariant r == errors + VitalErrors(vitals, CoreVitals[..i])
    {
      var v := CoreVitals[i];
      assert CoreVitals[..i + 1][..i] == CoreVitals[..i];
      if v in vitals {
        var x := vitals[v];
        if v == HeartRate && (x < 20.0 || x > 250.0) {
          r := r + [HeartRateInvalid];
        } else if v == OxygenSaturation && (x < 50.0 || x > 100.0) {
          r := r + [OxygenInvalid];
        } else if v == Temperature && (x < 30.0 || x > 45.0) {
          r := r + [TemperatureInvalid];
        }
      }
    }
    assert CoreVitals[..|CoreVitals|] == CoreVitals;
  }

  /** `validate_input`: age, gender, then each vital of the table in turn. */
  method ValidateInput(d: InputRecord) returns (valid: bool, errors: seq<InputError>)
    ensures errors == InputErrors(d)
    ensures valid <==> |errors| == 0
  {
    errors := CheckAge([], d.age);
    assert errors == AgeErrors(d.age);
    errors := CheckGender(errors, d.gender);
    errors := CheckVitals(errors, d.vitals);
    valid := |errors| == 0;
  }

  /** A present vital passes its check. */
  predicate VitalAcceptable(vitals: map<Vital, real>, v: Vital)
  {
    v in vitals ==> VitalError(v, vitals[v]).None?
  }

  lemma {:induction false} VitalErrorsEmpty(vitals: map<Vital, real>, vs: seq<Vital>)
    ensures VitalErrors(vitals, vs) == [] <==> forall k | 0 <= k < |vs| :: VitalAcceptable(vitals, vs[k])
  {
    if |vs| > 0 {
      VitalErrorsEmpty(vitals, vs[..|vs| - 1]);
      assert forall k | 0 <= k < |vs| - 1 :: vs[..|vs| - 1][k] == vs[k];
    }
  }

  /**
   * A record is valid exactly when its age is a number in [0, 120], its
   * gender is male, female or other, and each present heart rate, oxygen
   * saturation and temperature lies in [20, 250], [50, 100] and [30, 45].
   */
  lemma InputValidity(d: InputRecord)
    ensures InputErrors(d) == [] <==>
      d.age.NumericAge? && 0.0 <= d.age.years <= 120.0
      && d.gender.Some? && KnownGender(d.gender.value)
      && (HeartRate in d.vitals ==> 20.0 <= d.vitals[HeartRate] <= 250.0)
      && (OxygenSaturation in d.vitals ==> 50.0 <= d.vitals[OxygenSaturation] <= 100.0)
      && (Temperature in d.vitals ==> 30.0 <= d.vitals[Temperature] <= 45.0)
  {
    VitalErrorsEmpty(d.vitals, CoreVitals);
    assert CoreVitals[0] == HeartRate && CoreVitals[3] == Temperature && CoreVitals[5] == OxygenSaturation;
  }

  /** Age 150, and a missing age, are each rejected with an age error. */
  lemma AgeRejections(gender: Option<string>, vitals: map<Vital, real>)
    ensures InputErrors(InputRecord(NumericAge(150.0), gender, vitals))[0] == AgeOutOfRange
    ensures InputErrors(InputRecord(NoAge, gender, vitals))[0] == AgeRequired
  {
  }

  /** The fixture record: age 45, male, and vitals 85, 125/82, 37.5, 18, 97. */
  const SampleRecord: InputRecord := InputRecord(
    NumericAge(45.0), Some("male"),
    map[HeartRate := 85.0, Systolic := 125.0, Diastolic := 82.0, Temperature := 37.5,
        RespiratoryRate := 18.0, OxygenSaturation := 97.0])

  lemma SampleRecordValid()
    ensures InputErrors(SampleRecord) == []
  {
    InputValidity(SampleRecord);
  }

  // ---------------------------------------------------------------------
  // Single-record feature preparation
  // ---------------------------------------------------------------------

  /**
   * The gender column mapped through {male: 0, female: 1, other: 0.5}; an
   * absent column is 0.5 and any other value maps to a missing number (None).
   */
  function GenderEncoded(g: Option<string>): (r: Option<real>)
    ensures r == Some(0.0) <==> g == Some("male")
    ensures r == Some(1.0) <==> g == Some("female")
    ensures r == Some(0.5) <==> g.None? || g == Some("other")
    ensures r.None? <==> g.Some? && !KnownGender(g.value)
  {
    match g
    case None => Some(0.5)
    case Some(s) =>
      if s == "male" then Some(0.0) else if s == "female" then Some(1.0)
      else if s == "other" then Some(0.5) else None
  }

  /** The age clipped to [0, 120] by cleaning, then divided by 120; 0.5 without an age. */
  function AgeNormalized(age: Option<real>): (r: real)
    ensures 0.0 <= r <= 1.0
    ensures age.Some? && 0.0 <= age.value <= 120.0 ==> r * 120.0 == age.value
  {
    if age.Some? then Clip(age.value, 0.0, 120.0) / 120.0 else 0.5
  }

  /** Age 60 scales to 0.5; scaling never decreases with age. */
  lemma AgeNormalizedExamples(a: real, b: real)
    ensures AgeNormalized(Some(60.0)) == 0.5
    ensures a <= b ==> AgeNormalized(Some(a)) <= AgeNormalized(Some(b))
  {
  }

  /** `normalization_ranges`: the same (min, max) table the encoder uses. */
  function NormalizedVital(v: Vital, x: real): (r: real)
    ensures 0.0 <= r <= 1.0
  {
    var (lo, hi) := Encoder.VitalScale(v);
    Clip((x - lo) / (hi - lo), 0.0, 1.0)
  }

  /** `normalize_vitals`: a `<vital>_normalized` value for each core vital present. */
  function NormalizeVitals(vitals: map<Vital, real>): (m: map<Vital, real>)
    ensures forall v :: v in m <==> v in vitals && v in CoreVitals
    ensures forall v | v in m :: 0.0 <= m[v] <= 1.0
  {
    map v | v in vitals && v in CoreVitals :: NormalizedVital(v, vitals[v])
  }

  /** The preprocessor and the encoder normalise a present core vital to the same value. */
  lemma NormalizationAgrees(p: Snapshot, v: Vital)
    requires v in p.vitals && v in CoreVitals
    ensures NormalizeVitals(p.vitals)[v] == Encoder.VitalFeature(p, v)
  {
  }

  /** `fillna(0).astype(int)` on a flag, then the row sum over the listed columns present. */
  function SymptomCount(p: Snapshot, ss: seq<Symptom>): int
  {
    if |ss| == 0 then 0
    else
      var s := ss[|ss| - 1];
      SymptomCount(p, ss[..|ss| - 1]) + (if s in p.symptoms then Truncate(p.symptoms[s]) else 0)
  }

  function ConditionCount(p: Snapshot, cs: seq<Condition>): int
  {
    if |cs| == 0 then 0
    else
      var c := cs[|cs| - 1];
      ConditionCount(p, cs[..|cs| - 1]) + (if c in p.historyFlags then Truncate(p.historyFlags[c]) else 0)
  }

  datatype PreparedFeatures = PreparedFeatures(
    genderEncoded: Option<real>,
    ageNormalized: real,
    vitalsNormalized: map<Vital, real>,
    symptomCount: int,
    symptomCountNormalized: real,
    conditionCount: int)

  /** `prepare_features` on one record. */
  function PrepareFeatures(p: Snapshot): (f: PreparedFeatures)
    ensures f.genderEncoded.None? <==> p.gender.Some? && !KnownGender(p.gender.value)
    ensures 0.0 <= f.ageNormalized <= 1.0
    ensures forall v :: v in f.vitalsNormalized <==> v in p.vitals && v in CoreVitals
    ensures f.symptomCountNormalized * 12.0 == f.symptomCount as real
  {
    var count := SymptomCount(p, AllSymptoms);
    PreparedFeatures(
      GenderEncoded(p.gender), AgeNormalized(p.age), NormalizeVitals(p.vitals),
      count, count as real / (|AllSymptoms| as real), ConditionCount(p, AllConditions))
  }

  /** A flag in [0, 1] truncates to 0 or 1, so 0/1 flags count at most one each. */
  lemma {:induction false} SymptomCountBounds(p: Snapshot, ss: seq<Symptom>)
    requires forall s | s in p.symptoms :: 0.0 <= p.symptoms[s] <= 1.0
    ensures 0 <= SymptomCount(p, ss) <= |ss|
  {
    if |ss| > 0 {
      SymptomCountBounds(p, ss[..|ss| - 1]);
    }
  }

  /** With 0/1 symptom flags the normalised symptom count lies in [0, 1]. */
  lemma PreparedFeaturesBounded(p: Snapshot)
    requires forall s | s in p.symptoms :: 0.0 <= p.symptoms[s] <= 1.0
    ensures var f := PrepareFeatures(p);
      0.0 <= f.ageNormalized <= 1.0 && 0.0 <= f.symptomCountNormalized <= 1.0
      && forall v | v in f.vitalsNormalized :: 0.0 <= f.vitalsNormalized[v] <= 1.0
  {
    SymptomCountBounds(p, AllSymptoms);
  }
}
