/**
 * The feature encoder (ml/feature_encoder.py): the fixed feature layout
 * (four summary features, the symptoms, the normalised core vitals, the
 * conditions), its display labels, and the encoding of one patient record
 * into a vector of that layout.
 */
module Encoder {
  import opened Common
  import opened Clinical

  // ---------------------------------------------------------------------
  // Layout
  // ---------------------------------------------------------------------

  const SummaryNames: seq<string> := ["age_normalized", "gender_encoded", "symptom_count_normalized", "condition_count"]
  const SummaryLabels: seq<string> := ["Age", "Gender", "Total Symptoms", "Pre-existing Conditions"]

  function SymptomNames(ss: seq<Symptom>): (r: seq<string>)
    ensures |r| == |ss| && forall i | 0 <= i < |ss| :: r[i] == SymptomKey(ss[i])
  {
    seq(|ss|, i requires 0 <= i < |ss| => SymptomKey(ss[i]))
  }

  function VitalNames(vs: seq<Vital>): (r: seq<string>)
    ensures |r| == |vs| && forall i | 0 <= i < |vs| :: r[i] == VitalKey(vs[i]) + "_normalized"
  {
    seq(|vs|, i requires 0 <= i < |vs| => VitalKey(vs[i]) + "_normalized")
  }

  function ConditionNames(cs: seq<Condition>): (r: seq<string>)
    ensures |r| == |cs| && forall i | 0 <= i < |cs| :: r[i] == ConditionKey(cs[i])
  {
    seq(|cs|, i requires 0 <= i < |cs| => ConditionKey(cs[i]))
  }

  /** `_build_feature_names`. */
  function FeatureNames(): (names: seq<string>)
    ensures |names| == FeatureCount
    ensures names[..SymptomBase] == SummaryNames
  {
    SummaryNames + SymptomNames(AllSymptoms) + VitalNames(CoreVitals) + ConditionNames(AllConditions)
  }

  /** `get_feature_importance_labels`: the summary labels, then each key humanised. */
  function FeatureLabels(): (labels: seq<string>)
    ensures |labels| == FeatureCount
  {
    SummaryLabels
    + seq(|AllSymptoms|, i requires 0 <= i < |AllSymptoms| => Humanize(SymptomKey(AllSymptoms[i])))
    + seq(|CoreVitals|, i requires 0 <= i < |CoreVitals| => Humanize(VitalKey(CoreVitals[i])))
    + seq(|AllConditions|, i requires 0 <= i < |AllConditions| => Humanize(ConditionKey(AllConditions[i])))
  }

  /** Offsets of the three groups in the layout. */
  const SymptomBase: nat := 4
  const VitalBase: nat := 16
  const ConditionBase: nat := 22
  const FeatureCount: nat := 31

  /**
   * The layout has 31 names: 4 summary names, then each symptom key, each
   * core vital key with `_normalized`, each condition key; the labels run
   * parallel to it, each the humanised form of the underlying key.
   */
  lemma LayoutShape()
    ensures |FeatureNames()| == FeatureCount && |FeatureLabels()| == FeatureCount
    ensures FeatureNames()[..SymptomBase] == SummaryNames
    ensures forall i | 0 <= i < |AllSymptoms| ::
      FeatureNames()[SymptomBase + i] == SymptomKey(AllSymptoms[i])
      && FeatureLabels()[SymptomBase + i] == Humanize(SymptomKey(AllSymptoms[i]))
    ensures forall k | 0 <= k < |CoreVitals| ::
      FeatureNames()[VitalBase + k] == VitalKey(CoreVitals[k]) + "_normalized"
      && FeatureLabels()[VitalBase + k] == Humanize(VitalKey(CoreVitals[k]))
    ensures forall j | 0 <= j < |AllConditions| ::
      FeatureNames()[ConditionBase + j] == ConditionKey(AllConditions[j])
      && FeatureLabels()[ConditionBase + j] == Humanize(ConditionKey(AllConditions[j]))
  {
  }

  // ---------------------------------------------------------------------
  // Encoding one record
  // ---------------------------------------------------------------------

  /** `vital_ranges`: the (min, max) each vital is scaled over; (0, 100) for any other vital. */
  function VitalScale(v: Vital): (real, real)
  {
    match v
    case HeartRate => (40.0, 180.0)
    case Systolic => (70.0, 200.0)
    case Diastolic => (40.0, 130.0)
    case Temperature => (35.0, 41.0)
    case RespiratoryRate => (8.0, 35.0)
    case OxygenSaturation => (80.0, 100.0)
    case _ => (0.0, 100.0)
  }

  /** A present vital scaled into its range and clamped to [0, 1]; a missing one is 0.5. */
  function VitalFeature(p: Snapshot, v: Vital): (r: real)
    ensures 0.0 <= r <= 1.0
    ensures v !in p.vitals ==> r == 0.5
    ensures v in p.vitals && VitalScale(v).0 <= p.vitals[v] <= VitalScale(v).1 ==>
      r * (VitalScale(v).1 - VitalScale(v).0) == p.vitals[v] - VitalScale(v).0
  {
    if v in p.vitals then
      var (lo, hi) := VitalScale(v);
      Max(0.0, Min(1.0, (p.vitals[v] - lo) / (hi - lo)))
    else 0.5
  }

  /** `gender_map.get(gender, 0.5)`, with a missing gender read as 'other'. */
  function GenderCode(g: Option<string>): (r: real)
    ensures r == 0.0 <==> g == Some("male")
    ensures r == 1.0 <==> g == Some("female")
    ensures r == 0.5 <==> g != Some("male") && g != Some("female")
  {
    if g == Some("male") then 0.0 else if g == Some("female") then 1.0 else 0.5
  }

  /** `patient_data.get('age', 40) / 120`. */
  function AgeFeature(p: Snapshot): real
  {
    GetOr(p.age, 40.0) / 120.0
  }

  function Total(xs: seq<real>): real
  {
    if |xs| == 0 then 0.0 else Total(xs[..|xs| - 1]) + xs[|xs| - 1]
  }

  lemma TotalSnoc(xs: seq<real>, x: real)
    ensures Total(xs + [x]) == Total(xs) + x
  {
    assert (xs + [x])[..|xs|] == xs;
  }

  /** Values in [0, 1] add up to at most their number. */
  lemma {:induction false} TotalBounds(xs: seq<real>)
    requires forall i | 0 <= i < |xs| :: 0.0 <= xs[i] <= 1.0
    ensures 0.0 <= Total(xs) <= |xs| as real
  {
    if |xs| > 0 {
      TotalBounds(xs[..|xs| - 1]);
    }
  }

  function SymptomValues(p: Snapshot, ss: seq<Symptom>): (r: seq<real>)
    ensures |r| == |ss| && forall i | 0 <= i < |ss| :: r[i] == SymptomValue(p, ss[i])
  {
    seq(|ss|, i requires 0 <= i < |ss| => SymptomValue(p, ss[i]))
  }

  function VitalFeatures(p: Snapshot, vs: seq<Vital>): (r: seq<real>)
    ensures |r| == |vs| && forall i | 0 <= i < |vs| :: r[i] == VitalFeature(p, vs[i])
  {
    seq(|vs|, i requires 0 <= i < |vs| => VitalFeature(p, vs[i]))
  }

  function ConditionValues(p: Snapshot, cs: seq<Condition>): (r: seq<real>)
    ensures |r| == |cs| && forall i | 0 <= i < |cs| :: r[i] == HistoryValue(p, cs[i])
  {
    seq(|cs|, i requires 0 <= i < |cs| => HistoryValue(p, cs[i]))
  }

  /** The vector `encode_patient` builds. */
  function Encoding(p: Snapshot): (features: seq<real>)
    ensures |features| == FeatureCount
    ensures features[1] == GenderCode(p.gender) && 0.0 <= features[1] <= 1.0
    ensures features[0] == AgeFeature(p)
    ensures features[2] == Total(SymptomValues(p, AllSymptoms)) / 12.0
    ensures features[3] == Total(ConditionValues(p, AllConditions))
  {
    var symptoms := SymptomValues(p, AllSymptoms);
    var conditions := ConditionValues(p, AllConditions);
    [AgeFeature(p), GenderCode(p.gender), Total(symptoms) / (|AllSymptoms| as real), Total(conditions)]
    + symptoms + VitalFeatures(p, CoreVitals) + conditions
  }

  /** The symptom values in table order, and their sum. */
  method CollectSymptoms(p: Snapshot) returns (values: seq<real>, total: real)
    ensures values == SymptomValues(p, AllSymptoms) && total == Total(values)
  {
    values, total := [], 0.0;
    for i := 0 to |AllSymptoms|
      invariant values == SymptomValues(p, AllSymptoms[..i])
      invariant total == Total(values)
    {
      var x := SymptomValue(p, AllSymptoms[i]);
      TotalSnoc(values, x);
      values := values + [x];
      total := total + x;
    }
    assert AllSymptoms[..|AllSymptoms|] == AllSymptoms;
  }

  /** The condition values in table order, and their sum. */
  method CollectConditions(p: Snapshot) returns (values: seq<real>, total: real)
    ensures values == ConditionValues(p, AllConditions) && total == Total(values)
  {
    values, total := [], 0.0;
    for j := 0 to |AllConditions|
      invariant values == ConditionValues(p, AllConditions[..j])
      invariant total == Total(values)
    {
      var x := HistoryValue(p, AllConditions[j]);
      TotalSnoc(values, x);
      values := values + [x];
      total := total + x;
    }
    assert AllConditions[..|AllConditions|] == AllConditions;
  }

  /** The normalised core vitals in table order. */
  method CollectVitals(p: Snapshot) returns (values: seq<real>)
    ensures values == VitalFeatures(p, CoreVitals)
  {
    values := [];
    for k := 0 to |CoreVitals|
      invariant values == VitalFeatures(p, CoreVitals[..k])
    {
      var v := CoreVitals[k];
      var x := 0.5;
      if v in p.vitals {
        var (lo, hi) := VitalScale(v);
        var normalized := (p.vitals[v] - lo) / (hi - lo);
        x := Max(0.0, Min(1.0, normalized));
      }
      values := values + [x];
    }
    assert CoreVitals[..|CoreVitals|] == CoreVitals;
  }

  /** `encode_patient`: the features appended in layout order. */
  method EncodePatient(p: Snapshot) returns (features: seq<real>)
    ensures features == Encoding(p)
    ensures |features| == |FeatureNames()|
  {
    features := [GetOr(p.age, 40.0) / 120.0, GenderCode(p.gender)];
    var symptomValues, symptomCount := CollectSymptoms(p);
    features := features + [symptomCount / (|AllSymptoms| as real)];
    var conditionValues, conditionCount := CollectConditions(p);
    features := features + [conditionCount];
    assert features == [AgeFeature(p), GenderCode(p.gender), symptomCount / (|AllSymptoms| as real), conditionCount];
    features := features + symptomValues;
    var vitals := CollectVitals(p);
    features := features + vitals;
    features := features + conditionValues;
    LayoutShape();
  }

  /**
   * Each position of the encoding holds the feature its name in the layout
   * announces.
   */
  lemma EncodingMatchesNames(p: Snapshot)
    ensures |Encoding(p)| == |FeatureNames()|
    ensures Encoding(p)[0] == AgeFeature(p) && Encoding(p)[1] == GenderCode(p.gender)
    ensures forall i | 0 <= i < |AllSymptoms| :: Encoding(p)[SymptomBase + i] == SymptomValue(p, AllSymptoms[i])
    ensures forall k | 0 <= k < |CoreVitals| :: Encoding(p)[VitalBase + k] == VitalFeature(p, CoreVitals[k])
    ensures forall j | 0 <= j < |AllConditions| :: Encoding(p)[ConditionBase + j] == HistoryValue(p, AllConditions[j])
  {
    LayoutShape();
    var e := Encoding(p);
    var symptoms := SymptomValues(p, AllSymptoms);
    var vitals := VitalFeatures(p, CoreVitals);
    var conditions := ConditionValues(p, AllConditions);
    assert e[SymptomBase..VitalBase] == symptoms;
    assert e[VitalBase..ConditionBase] == vitals;
    assert e[ConditionBase..] == conditions;
  }

  /** Every normalised vital lies in [0, 1], and a missing one is 0.5. */
  lemma VitalFeaturesBounded(p: Snapshot)
    ensures forall k | VitalBase <= k < ConditionBase :: 0.0 <= Encoding(p)[k] <= 1.0
    ensures forall k | 0 <= k < |CoreVitals| && CoreVitals[k] !in p.vitals :: Encoding(p)[VitalBase + k] == 0.5
  {
    EncodingMatchesNames(p);
    forall k | VitalBase <= k < ConditionBase ensures 0.0 <= Encoding(p)[k] <= 1.0 {
      assert Encoding(p)[VitalBase + (k - VitalBase)] == VitalFeature(p, CoreVitals[k - VitalBase]);
    }
  }

  /** With 0/1 symptom flags the symptom feature lies in [0, 1]; with none set it is 0. */
  lemma SymptomFeatureBounded(p: Snapshot)
    requires forall s | s in p.symptoms :: 0.0 <= p.symptoms[s] <= 1.0
    ensures 0.0 <= Encoding(p)[2] <= 1.0
    ensures p.symptoms == map[] ==> Encoding(p)[2] == 0.0
  {
    var xs := SymptomValues(p, AllSymptoms);
    TotalBounds(xs);
    if p.symptoms == map[] {
      TotalZero(xs);
    }
  }

  lemma {:induction false} TotalZero(xs: seq<real>)
    requires forall i | 0 <= i < |xs| :: xs[i] == 0.0
    ensures Total(xs) == 0.0
  {
    if |xs| > 0 {
      TotalZero(xs[..|xs| - 1]);
    }
  }

  /** The empty record encodes as age 40/120, gender 0.5, no symptoms or conditions and every vital at 0.5. */
  lemma EmptyRecordEncoding()
    ensures Encoding(EmptySnapshot)[0] == 40.0 / 120.0 && Encoding(EmptySnapshot)[1] == 0.5
    ensures Encoding(EmptySnapshot)[2] == 0.0 && Encoding(EmptySnapshot)[3] == 0.0
    ensures forall k | VitalBase <= k < ConditionBase :: Encoding(EmptySnapshot)[k] == 0.5
  {
    SymptomFeatureBounded(EmptySnapshot);
    TotalZero(ConditionValues(EmptySnapshot, AllConditions));
    EncodingMatchesNames(EmptySnapshot);
    forall k | VitalBase <= k < ConditionBase ensures Encoding(EmptySnapshot)[k] == 0.5 {
      assert Encoding(EmptySnapshot)[VitalBase + (k - VitalBase)] == VitalFeature(EmptySnapshot, CoreVitals[k - VitalBase]);
    }
  }
}
