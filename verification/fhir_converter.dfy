/**
 * The FHIR R4 converter (app/fhir/fhir_converter.py) over already-extracted
 * values: resources arrive as typed entries, a coded concept as its text and
 * its coding displays, an observation as its code and numeric value, a birth
 * date as a parsed date. Modelled: sorting a bundle's entries, the age on a
 * given day, condition keyword mapping, the observation-code reverse map,
 * symptom inference, and the flattening into the CDSS input record.
 */
module Fhir {
  import opened Common
  import opened Clinical
  import opened CdssConfig

  // ---------------------------------------------------------------------
  // Resources
  // ---------------------------------------------------------------------

  datatype Date = Date(year: int, month: int, day: int)

  /** A CodeableConcept: its `text` and the `display` of each coding, in order. */
  datatype Concept = Concept(text: Option<string>, displays: seq<Option<string>>)

  /** An Observation: its code (LOINC first, else the first coding) and its `valueQuantity.value`. */
  datatype Observation = Observation(code: Option<string>, value: Option<real>)

  datatype PatientResource = PatientResource(id: Option<string>, birthDate: Option<Date>, gender: Option<string>)

  /** A bundle entry, by its `resourceType`; any other type is ignored. */
  datatype Resource =
    | PatientEntry(patient: PatientResource)
    | ObservationEntry(observation: Observation)
    | ConditionEntry(condition: Concept)
    | MedicationEntry(medication: Concept)
    | AllergyEntry(allergy: Concept)
    | OtherEntry(resourceType: Option<string>)

  datatype Bundle = Bundle(resourceType: Option<string>, entries: seq<Resource>)

  // ---------------------------------------------------------------------
  // Sorting the entries of a bundle
  // ---------------------------------------------------------------------

  /** The Patient that sorting keeps: the last one. */
  function LastPatient(es: seq<Resource>): Option<PatientResource>
  {
    if |es| == 0 then None
    else if es[|es| - 1].PatientEntry? then Some(es[|es| - 1].patient)
    else LastPatient(es[..|es| - 1])
  }

  function ObservationsIn(es: seq<Resource>): (r: seq<Observation>)
    ensures |r| <= |es|
  {
    if |es| == 0 then []
    else ObservationsIn(es[..|es| - 1]) + (if es[|es| - 1].ObservationEntry? then [es[|es| - 1].observation] else [])
  }

  function ConditionsIn(es: seq<Resource>): (r: seq<Concept>)
    ensures |r| <= |es|
  {
    if |es| == 0 then []
    else ConditionsIn(es[..|es| - 1]) + (if es[|es| - 1].ConditionEntry? then [es[|es| - 1].condition] else [])
  }

  function MedicationsIn(es: seq<Resource>): (r: seq<Concept>)
    ensures |r| <= |es|
  {
    if |es| == 0 then []
    else MedicationsIn(es[..|es| - 1]) + (if es[|es| - 1].MedicationEntry? then [es[|es| - 1].medication] else [])
  }

  function AllergiesIn(es: seq<Resource>): (r: seq<Concept>)
    ensures |r| <= |es|
  {
    if |es| == 0 then []
    else AllergiesIn(es[..|es| - 1]) + (if es[|es| - 1].AllergyEntry? then [es[|es| - 1].allergy] else [])
  }

  /** A Patient entry with no Patient after it is the one kept; with no Patient entry at all, none is. */
  lemma {:induction false} LastPatientWins(es: seq<Resource>, k: nat)
    requires k < |es| && es[k].PatientEntry?
    requires forall j | k < j < |es| :: !es[j].PatientEntry?
    ensures LastPatient(es) == Some(es[k].patient)
  {
    if k < |es| - 1 {
      var init := es[..|es| - 1];
      assert forall j | k < j < |init| :: init[j] == es[j];
      LastPatientWins(init, k);
    }
  }

  lemma {:induction false} NoPatient(es: seq<Resource>)
    requires forall j | 0 <= j < |es| :: !es[j].PatientEntry?
    ensures LastPatient(es) == None
  {
    if |es| > 0 {
      var init := es[..|es| - 1];
      assert forall j | 0 <= j < |init| :: init[j] == es[j];
      NoPatient(init);
    }
  }

  /** The sorting loop of `from_bundle`: one pass, each entry to the list of its type. */
  method SortEntries(es: seq<Resource>)
    returns (patient: Option<PatientResource>, observations: seq<Observation>, conditions: seq<Concept>,
             medications: seq<Concept>, allergies: seq<Concept>)
    ensures patient == LastPatient(es)
    ensures observations == ObservationsIn(es) && conditions == ConditionsIn(es)
    ensures medications == MedicationsIn(es) && allergies == AllergiesIn(es)
  {
    patient, observations, conditions, medications, allergies := None, [], [], [], [];
    var i := 0;
    while i < |es|
      invariant 0 <= i <= |es|
      invariant patient == LastPatient(es[..i])
      invariant observations == ObservationsIn(es[..i]) && conditions == ConditionsIn(es[..i])
      invariant medications == MedicationsIn(es[..i]) && allergies == AllergiesIn(es[..i])
    {
      assert es[..i + 1][..i] == es[..i];
      match es[i] {
        case PatientEntry(p) => patient := Some(p);
        case ObservationEntry(o) => observations := observations + [o];
        case ConditionEntry(c) => conditions := conditions + [c];
        case MedicationEntry(m) => medications := medications + [m];
        case AllergyEntry(a) => allergies := allergies + [a];
        case OtherEntry(_) =>
      }
      i := i + 1;
    }
    assert es[..|es|] == es;
  }

  // ---------------------------------------------------------------------
  // Patient demographics
  // ---------------------------------------------------------------------

  /** `(today.month, today.day) < (birth.month, birth.day)`. */
  predicate BeforeBirthdayInYear(today: Date, birth: Date)
  {
    today.month < birth.month || (today.month == birth.month && today.day < birth.day)
  }

  /** The age on `today`: the year difference, less one before this year's birthday. */
  function AgeOn(birth: Date, today: Date): (age: int)
    ensures today.year - birth.year - 1 <= age <= today.year - birth.year
    ensures age == today.year - birth.year <==> !BeforeBirthdayInYear(today, birth)
  {
    today.year - birth.year - (if BeforeBirthdayInYear(today, birth) then 1 else 0)
  }

  predicate NotAfter(a: Date, b: Date)
  {
    a.year < b.year || (a.year == b.year && !BeforeBirthdayInYear(b, a))
  }

  /**
   * The age counts whole years: it is n on the n-th birthday and n - 1 on any
   * earlier day of that year; it never decreases as `today` advances, and is
   * never negative from the birth date on.
   */
  lemma AgeCountsYears(birth: Date, n: int, earlier: Date)
    requires earlier.year == birth.year + n && BeforeBirthdayInYear(earlier, birth)
    ensures AgeOn(birth, Date(birth.year + n, birth.month, birth.day)) == n
    ensures AgeOn(birth, earlier) == n - 1
  {
  }

  lemma AgeMonotone(birth: Date, t1: Date, t2: Date)
    requires NotAfter(t1, t2)
    ensures AgeOn(birth, t1) <= AgeOn(birth, t2)
    ensures NotAfter(birth, t1) ==> AgeOn(birth, t1) >= 0
  {
  }

  /** The fields `_parse_patient` fills; a missing Patient gives an empty result. */
  datatype PatientInfo = PatientInfo(id: string, age: Option<int>, gender: Option<string>)

  function ParsePatient(p: Option<PatientResource>, today: Date): (info: PatientInfo)
    ensures p.None? ==> info == PatientInfo("unknown", None, None)
    ensures p.Some? && p.value.birthDate.Some? ==> info.age == Some(AgeOn(p.value.birthDate.value, today))
    ensures p.Some? && p.value.birthDate.None? ==> info.age.None?
  {
    match p
    case None => PatientInfo("unknown", None, None)
    case Some(r) =>
      PatientInfo(
        GetOr(r.id, "unknown"),
        if r.birthDate.Some? then Some(AgeOn(r.birthDate.value, today)) else None,
        r.gender)
  }

  // ---------------------------------------------------------------------
  // Coded concepts
  // ---------------------------------------------------------------------

  /** The first display that is a non-empty string. */
  function FirstDisplay(ds: seq<Option<string>>): (r: Option<string>)
    ensures r.Some? ==> r.value != "" && Some(r.value) in ds
    ensures r.None? <==> forall k | 0 <= k < |ds| :: ds[k].None? || ds[k].value == ""
  {
    if |ds| == 0 then None
    else if ds[0].Some? && ds[0].value != "" then ds[0]
    else
      var r := FirstDisplay(ds[1..]);
      assert forall k | 1 <= k < |ds| :: ds[k] == ds[1..][k - 1];
      r
  }

  /** The name a concept is read by: its text when non-empty, else its first non-empty display. */
  function ConceptName(c: Concept): Option<string>
  {
    if c.text.Some? && c.text.value != "" then c.text else FirstDisplay(c.displays)
  }

  /** The keyword table of `_map_condition`, in its order. */
  const ConditionKeywords: seq<(Condition, seq<string>)> := [
    (Diabetes, ["diabetes", "diabetic", "dm", "type 2 diabetes", "type 1 diabetes"]),
    (Hypertension, ["hypertension", "high blood pressure", "htn", "elevated blood pressure"]),
    (HeartDisease, ["heart disease", "cardiac", "coronary", "heart failure", "cad", "chf"]),
    (Asthma, ["asthma", "reactive airway"]),
    (Copd, ["copd", "chronic obstructive", "emphysema", "chronic bronchitis"]),
    (KidneyDisease, ["kidney", "renal", "ckd", "chronic kidney"]),
    (LiverDisease, ["liver", "hepatic", "cirrhosis", "hepatitis"]),
    (Cancer, ["cancer", "malignancy", "neoplasm", "carcinoma", "tumor"]),
    (AutoimmuneDisorder, ["autoimmune", "lupus", "rheumatoid", "multiple sclerosis"])
  ]

  /** The position of the first table row with a keyword inside `hay`, or the table length. */
  function FirstMatch(table: seq<(Condition, seq<string>)>, hay: string): (k: nat)
    ensures k <= |table|
    ensures k < |table| ==> SomeItemIn(table[k].1, hay)
    ensures forall j | 0 <= j < k :: !SomeItemIn(table[j].1, hay)
  {
    if |table| == 0 then 0
    else if SomeItemIn(table[0].1, hay) then 0
    else
      var k := FirstMatch(table[1..], hay);
      assert forall j | 1 <= j < k + 1 :: table[j] == table[1..][j - 1];
      k + 1
  }

  /** `_map_condition`: the first condition in table order with a keyword in the lower-cased text. */
  function MapCondition(text: string): (r: Option<Condition>)
    ensures r.None? <==> forall j | 0 <= j < |ConditionKeywords| :: !SomeItemIn(ConditionKeywords[j].1, Lower(text))
    ensures r.Some? ==>
      exists j | 0 <= j < |ConditionKeywords| :: ConditionKeywords[j].0 == r.value && SomeItemIn(ConditionKeywords[j].1, Lower(text))
  {
    var k := FirstMatch(ConditionKeywords, Lower(text));
    if k < |ConditionKeywords| then Some(ConditionKeywords[k].0) else None
  }

  /** The mapping's result has a matching keyword and no earlier row matches; no result means no row matches. */
  lemma MapConditionFirst(text: string)
    ensures var r := MapCondition(text);
      (r.None? <==> forall j | 0 <= j < |ConditionKeywords| :: !SomeItemIn(ConditionKeywords[j].1, Lower(text)))
      && (r.Some? ==>
        var k := FirstMatch(ConditionKeywords, Lower(text));
        k < |ConditionKeywords| && ConditionKeywords[k].0 == r.value && SomeItemIn(ConditionKeywords[k].1, Lower(text)))
  {
  }

  /** "Type 2 Diabetes" is found by the first row. */
  lemma MapsDiabetes()
    ensures MapCondition("Type 2 Diabetes") == Some(Diabetes)
  {
    var hay := Lower("Type 2 Diabetes");
    assert hay == "type 2 diabetes";
    assert OccursAt("diabetes", hay, 7);
    assert IsInfix(ConditionKeywords[0].1[0], hay);
    assert SomeItemIn(ConditionKeywords[0].1, hay);
  }

  /** The first matching row is the one where a keyword matches and no earlier one does. */
  lemma {:induction false} FirstMatchAt(table: seq<(Condition, seq<string>)>, hay: string, k: nat)
    requires k < |table| && SomeItemIn(table[k].1, hay)
    requires forall j | 0 <= j < k :: !SomeItemIn(table[j].1, hay)
    ensures FirstMatch(table, hay) == k
  {
    if k > 0 {
      assert forall j | 0 <= j < k - 1 :: table[1..][j] == table[j + 1];
      FirstMatchAt(table[1..], hay, k - 1);
    }
  }

  const ChronicHeartFailure: string := "chronic heart failure"

  lemma NoDiabetesKeyword()
    ensures !SomeItemIn(ConditionKeywords[0].1, ChronicHeartFailure)
  {
    var diabetes := ConditionKeywords[0].1;
    NotInfixByChar(diabetes[0], ChronicHeartFailure, 0);
    NotInfixByChar(diabetes[1], ChronicHeartFailure, 0);
    NotInfixByChar(diabetes[2], ChronicHeartFailure, 0);
    NotInfixByChar(diabetes[3], ChronicHeartFailure, 1);
    NotInfixByChar(diabetes[4], ChronicHeartFailure, 1);
  }

  lemma OccursAtStarts(needle: string, hay: string, j: int)
    requires |needle| >= 2
    ensures OccursAt(needle, hay, j) ==> hay[j] == needle[0] && hay[j + 1] == needle[1]
  {
    if OccursAt(needle, hay, j) {
      assert hay[j..j + |needle|][1] == hay[j + 1];
    }
  }

  /** The only 't' of "chronic heart failure" follows an 'r', so "htn" is not in it. */
  lemma NoHtn()
    ensures !IsInfix("htn", ChronicHeartFailure)
  {
    var c := ChronicHeartFailure;
    assert c == c[..12] + [c[12]] + c[13..];
    assert c[..12] == "chronic hear" && c[11] == 'r' && c[12] == 't' && c[13..] == " failure";
    forall j | 0 <= j <= |c| ensures !OccursAt("htn", c, j) {
      OccursAtStarts("htn", c, j);
    }
  }

  lemma NoHypertensionKeyword()
    ensures !SomeItemIn(ConditionKeywords[1].1, ChronicHeartFailure)
  {
    var hypertension := ConditionKeywords[1].1;
    NotInfixByChar(hypertension[0], ChronicHeartFailure, 1);
    NotInfixByChar(hypertension[1], ChronicHeartFailure, 2);
    NoHtn();
    NotInfixByChar(hypertension[3], ChronicHeartFailure, 3);
  }

  /** "Chronic Heart Failure" skips the diabetes and hypertension rows and maps to heart disease. */
  lemma MapsChronicHeartFailure()
    ensures MapCondition("Chronic Heart Failure") == Some(HeartDisease)
  {
    LowerChronicHeartFailure();
    NoDiabetesKeyword();
    NoHypertensionKeyword();
    HeartFailureKeyword();
    FirstMatchAt(ConditionKeywords, ChronicHeartFailure, 2);
  }

  lemma LowerChronicHeartFailure()
    ensures Lower("Chronic Heart Failure") == ChronicHeartFailure
  {
    var hay := Lower("Chronic Heart Failure");
    assert forall i | 0 <= i < |hay| :: hay[i] == ChronicHeartFailure[i];
  }

  lemma HeartFailureKeyword()
    ensures SomeItemIn(ConditionKeywords[2].1, ChronicHeartFailure)
  {
    var c := ChronicHeartFailure;
    var keyword := ConditionKeywords[2].1[3];
    assert keyword == "heart failure";
    assert c[8..21] == keyword;
    assert OccursAt(keyword, c, 8);
  }

  // ---------------------------------------------------------------------
  // Conditions, medications and allergies
  // ---------------------------------------------------------------------

  /** The mapped condition of each concept that has a name and maps. */
  function MappedConditions(cs: seq<Concept>): seq<Condition>
  {
    if |cs| == 0 then []
    else
      var name := ConceptName(cs[|cs| - 1]);
      var mapped := if name.Some? then MapCondition(name.value) else None;
      MappedConditions(cs[..|cs| - 1]) + (if mapped.Some? then [mapped.value] else [])
  }

  /** `_parse_conditions`: the mapped conditions without duplicates. */
  function ParseConditions(cs: seq<Concept>): (r: seq<Condition>)
    ensures NoDup(r)
    ensures forall c :: c in r <==> c in MappedConditions(cs)
  {
    var m := MappedConditions(cs);
    var r := Dedup(m);
    assert forall c | c in m :: c in r by {
      forall c | c in m ensures c in r {
        var i :| 0 <= i < |m| && m[i] == c;
      }
    }
    r
  }

  /** The lower-cased name of each concept that has one. */
  function LoweredNames(cs: seq<Concept>): (r: seq<string>)
    ensures forall n | n in r :: NoUpper(n)
    ensures forall n :: n in r <==> exists i | 0 <= i < |cs| :: ConceptName(cs[i]).Some? && Lower(ConceptName(cs[i]).value) == n
  {
    if |cs| == 0 then []
    else
      var name := ConceptName(cs[|cs| - 1]);
      LowerIdempotent(GetOr(name, ""));
      LoweredNames(cs[..|cs| - 1]) + (if name.Some? then [Lower(name.value)] else [])
  }

  /** `_parse_medications` and `_parse_allergies`: lower-cased names without duplicates. */
  function ParseNames(cs: seq<Concept>): (r: seq<string>)
    ensures NoDup(r)
    ensures forall n | n in r :: NoUpper(n)
    ensures forall n :: n in r <==> n in LoweredNames(cs)
    ensures forall n :: n in r <==> exists i | 0 <= i < |cs| :: ConceptName(cs[i]).Some? && Lower(ConceptName(cs[i]).value) == n
  {
    var names := LoweredNames(cs);
    var r := Dedup(names);
    assert forall i | 0 <= i < |r| :: r[i] in names;
    r
  }

  // ---------------------------------------------------------------------
  // Observations and the LOINC reverse map
  // ---------------------------------------------------------------------

  /** `{code: name for name, code in observation_codes.items()}`: a later row wins. */
  function ReverseCodes(tbl: seq<(Vital, string)>): map<string, Vital>
  {
    if |tbl| == 0 then map[]
    else ReverseCodes(tbl[..|tbl| - 1])[tbl[|tbl| - 1].1 := tbl[|tbl| - 1].0]
  }

  predicate DistinctCodes(tbl: seq<(Vital, string)>)
  {
    forall i, j | 0 <= i < j < |tbl| :: tbl[i].1 != tbl[j].1
  }

  predicate DistinctVitals(tbl: seq<(Vital, string)>)
  {
    forall i, j | 0 <= i < j < |tbl| :: tbl[i].0 != tbl[j].0
  }

  /** With distinct codes the reverse map sends each row's code back to its vital. */
  lemma {:induction false} ReverseCodesInverts(tbl: seq<(Vital, string)>, k: nat)
    requires DistinctCodes(tbl) && k < |tbl|
    ensures tbl[k].1 in ReverseCodes(tbl) && ReverseCodes(tbl)[tbl[k].1] == tbl[k].0
  {
    if k < |tbl| - 1 {
      ReverseCodesInverts(tbl[..|tbl| - 1], k);
    }
  }

  /** The vitals `_parse_observations` reads: a known code with a value sets that vital; a later observation wins. */
  function ObservedVitals(rev: map<string, Vital>, obs: seq<Observation>): map<Vital, real>
  {
    if |obs| == 0 then map[]
    else
      var m := ObservedVitals(rev, obs[..|obs| - 1]);
      var o := obs[|obs| - 1];
      if o.code.Some? && o.code.value in rev && o.value.Some? then m[rev[o.code.value] := o.value.value] else m
  }

  /** The value of every observation with a non-empty code, by code; a later observation wins. */
  function ObservedValues(obs: seq<Observation>): map<string, Option<real>>
  {
    if |obs| == 0 then map[]
    else
      var m := ObservedValues(obs[..|obs| - 1]);
      var o := obs[|obs| - 1];
      if o.code.Some? && o.code.value != "" then m[o.code.value := o.value] else m
  }

  /** The observations `to_fhir_bundle` emits: one per table row whose vital is in the record. */
  function EmitObservations(tbl: seq<(Vital, string)>, data: map<Vital, real>): (r: seq<Observation>)
    ensures forall o | o in r :: o.code.Some? && o.value.Some?
  {
    if |tbl| == 0 then []
    else
      var row := tbl[|tbl| - 1];
      EmitObservations(tbl[..|tbl| - 1], data) + (if row.0 in data then [Observation(Some(row.1), Some(data[row.0]))] else [])
  }

  lemma {:induction false} EmitAvoids(tbl: seq<(Vital, string)>, data: map<Vital, real>, c: string)
    requires forall j | 0 <= j < |tbl| :: tbl[j].1 != c
    ensures forall o | o in EmitObservations(tbl, data) :: o.code != Some(c)
  {
    if |tbl| > 0 {
      EmitAvoids(tbl[..|tbl| - 1], data, c);
    }
  }

  /** Adding a code no observation carries does not change what is read. */
  lemma {:induction false} UnusedCode(rev: map<string, Vital>, obs: seq<Observation>, c: string, v: Vital)
    requires forall o | o in obs :: o.code != Some(c)
    ensures ObservedVitals(rev[c := v], obs) == ObservedVitals(rev, obs)
  {
    if |obs| > 0 {
      assert obs[|obs| - 1] in obs;
      UnusedCode(rev, obs[..|obs| - 1], c, v);
    }
  }

  function TableVitals(tbl: seq<(Vital, string)>): set<Vital>
  {
    set k | 0 <= k < |tbl| :: tbl[k].0
  }

  /** The vitals of a table grow by the last row's vital, which distinct vitals keep new. */
  lemma TableVitalsSnoc(tbl: seq<(Vital, string)>)
    requires |tbl| > 0
    ensures TableVitals(tbl) == TableVitals(tbl[..|tbl| - 1]) + {tbl[|tbl| - 1].0}
    ensures DistinctVitals(tbl) ==> tbl[|tbl| - 1].0 !in TableVitals(tbl[..|tbl| - 1])
  {
    var init := tbl[..|tbl| - 1];
    forall v | v in TableVitals(tbl) ensures v in TableVitals(init) + {tbl[|tbl| - 1].0} {
      var k :| 0 <= k < |tbl| && tbl[k].0 == v;
      if k < |tbl| - 1 {
        assert init[k].0 == v;
      }
    }
    forall v | v in TableVitals(init) ensures v in TableVitals(tbl) {
      var k :| 0 <= k < |init| && init[k].0 == v;
      assert tbl[k].0 == v;
    }
  }

  /** Reading one more observation with a known code and a value sets its vital. */
  lemma ObservedSnoc(rev: map<string, Vital>, prev: seq<Observation>, o: Observation)
    requires o.code.Some? && o.code.value in rev && o.value.Some?
    ensures ObservedVitals(rev, prev + [o]) == ObservedVitals(rev, prev)[rev[o.code.value] := o.value.value]
  {
    assert (prev + [o])[..|prev|] == prev;
  }

  /** The part of `data` inside `vs`. */
  function Restrict(data: map<Vital, real>, vs: set<Vital>): map<Vital, real>
  {
    map v | v in data && v in vs :: data[v]
  }

  lemma RestrictGrow(data: map<Vital, real>, vs: set<Vital>, w: Vital)
    ensures w in data ==> Restrict(data, vs + {w}) == Restrict(data, vs)[w := data[w]]
    ensures w !in data ==> Restrict(data, vs + {w}) == Restrict(data, vs)
  {
  }

  /**
   * Emitting a record's vitals under their codes and reading them back through
   * the reverse map gives the record's vitals that the table covers.
   */
  lemma {:induction false} ObservationRoundTrip(tbl: seq<(Vital, string)>, data: map<Vital, real>)
    requires DistinctCodes(tbl) && DistinctVitals(tbl)
    ensures ObservedVitals(ReverseCodes(tbl), EmitObservations(tbl, data))
      == Restrict(data, TableVitals(tbl))
  {
    if |tbl| > 0 {
      var init := tbl[..|tbl| - 1];
      var row := tbl[|tbl| - 1];
      var rev := ReverseCodes(init);
      var prev := EmitObservations(init, data);
      ObservationRoundTrip(init, data);
      var before := Restrict(data, TableVitals(init));
      assert ObservedVitals(rev, prev) == before;
      EmitAvoids(init, data, row.1);
      UnusedCode(rev, prev, row.1, row.0);
      assert ObservedVitals(rev[row.1 := row.0], prev) == before;
      TableVitalsSnoc(tbl);
      RestrictGrow(data, TableVitals(init), row.0);
      if row.0 in data {
        ObservedSnoc(rev[row.1 := row.0], prev, Observation(Some(row.1), Some(data[row.0])));
      } else {
        assert EmitObservations(tbl, data) == prev + [] == prev;
      }
    }
  }

  /** The shipped LOINC table has distinct vitals and distinct codes. */
  lemma ObservationCodesDistinct()
    ensures DistinctCodes(ObservationCodes) && DistinctVitals(ObservationCodes)
  {
  }

  /** A vital emitted by `to_fhir_bundle` is read back under the same name with the same value. */
  lemma ShippedCodesRoundTrip(data: map<Vital, real>, v: Vital)
    requires v in data && v in TableVitals(ObservationCodes)
    ensures var back := ObservedVitals(ReverseCodes(ObservationCodes), EmitObservations(ObservationCodes, data));
      v in back && back[v] == data[v]
  {
    ObservationCodesDistinct();
    ObservationRoundTrip(ObservationCodes, data);
  }

  // ---------------------------------------------------------------------
  // Symptom inference
  // ---------------------------------------------------------------------

  /** `condition_symptom_map`. */
  function ConditionSymptoms(c: Condition): seq<Symptom>
  {
    match c
    case Asthma => [ShortnessOfBreath, Cough]
    case Copd => [ShortnessOfBreath, Cough, Fatigue]
    case HeartDisease => [ChestPain, ShortnessOfBreath, Fatigue]
    case _ => []
  }

  function ConditionSymptomsOf(cs: seq<Condition>): (r: seq<Symptom>)
    ensures forall s :: s in r <==> exists c | c in cs :: s in ConditionSymptoms(c)
  {
    if |cs| == 0 then []
    else
      var init := cs[..|cs| - 1];
      assert forall c :: c in cs <==> c in init || c == cs[|cs| - 1];
      ConditionSymptomsOf(init) + ConditionSymptoms(cs[|cs| - 1])
  }

  /** A body temperature (LOINC 8310-5) with a non-zero value above 37.5. */
  predicate Febrile(obs: map<string, Option<real>>)
  {
    TemperatureCode in obs && obs[TemperatureCode].Some?
    && obs[TemperatureCode].value != 0.0 && obs[TemperatureCode].value > 37.5
  }

  /** `_infer_symptoms`: fever from the temperature, then the symptoms of the conditions, without duplicates. */
  function InferSymptoms(obs: map<string, Option<real>>, cs: seq<Condition>): (r: seq<Symptom>)
    ensures NoDup(r)
    ensures forall s :: s in r <==> (s == Fever && Febrile(obs)) || exists c | c in cs :: s in ConditionSymptoms(c)
  {
    var all := (if Febrile(obs) then [Fever] else []) + ConditionSymptomsOf(cs);
    var r := Dedup(all);
    assert forall s | s in all :: s in r by {
      forall s | s in all ensures s in r {
        var i :| 0 <= i < |all| && all[i] == s;
      }
    }
    assert forall i | 0 <= i < |r| :: r[i] in all;
    r
  }

  /** Fever is inferred exactly from the temperature: no condition implies it. */
  lemma FeverOnlyFromTemperature(obs: map<string, Option<real>>, cs: seq<Condition>)
    ensures Fever in InferSymptoms(obs, cs) <==> TemperatureCode in obs && obs[TemperatureCode].Some? && obs[TemperatureCode].value > 37.5
  {
    assert forall c :: Fever !in ConditionSymptoms(c);
  }

  // ---------------------------------------------------------------------
  // The extracted record and its flattening
  // ---------------------------------------------------------------------

  datatype PatientData = PatientData(
    patientId: string,
    age: Option<int>,
    gender: Option<string>,
    vitals: map<Vital, real>,
    symptoms: seq<Symptom>,
    conditions: seq<Condition>,
    medications: seq<string>,
    allergies: seq<string>,
    observations: map<string, Option<real>>)

  /** Everything `from_bundle` extracts from sorted entries. */
  function PatientDataOf(es: seq<Resource>, today: Date): PatientData
  {
    var info := ParsePatient(LastPatient(es), today);
    var obs := ObservationsIn(es);
    var conditions := ParseConditions(ConditionsIn(es));
    var values := ObservedValues(obs);
    PatientData(
      info.id, info.age, info.gender,
      ObservedVitals(ReverseCodes(ObservationCodes), obs),
      InferSymptoms(values, conditions),
      conditions,
      ParseNames(MedicationsIn(es)),
      ParseNames(AllergiesIn(es)),
      values)
  }

  /** `from_bundle`: anything but a Bundle is rejected; otherwise the entries are sorted and parsed. */
  method FromBundle(bundle: Bundle, today: Date) returns (r: Result<PatientData, string>)
    ensures r.Err? <==> bundle.resourceType != Some("Bundle")
    ensures r.Ok? ==> r.value == PatientDataOf(bundle.entries, today)
  {
    if bundle.resourceType != Some("Bundle") {
      return Err("Input must be a FHIR Bundle resource");
    }
    var patient, observations, conditions, medications, allergies := SortEntries(bundle.entries);
    var info := ParsePatient(patient, today);
    var conditionList := ParseConditions(conditions);
    var values := ObservedValues(observations);
    r := Ok(PatientData(
      info.id, info.age, info.gender,
      ObservedVitals(ReverseCodes(ObservationCodes), observations),
      InferSymptoms(values, conditionList),
      conditionList,
      ParseNames(medications),
      ParseNames(allergies),
      values));
  }

  /** The extracted lists carry no duplicates, and medication and allergy names are lower-case. */
  lemma PatientDataClean(es: seq<Resource>, today: Date)
    ensures var d := PatientDataOf(es, today);
      NoDup(d.conditions) && NoDup(d.medications) && NoDup(d.allergies) && NoDup(d.symptoms)
      && (forall n | n in d.medications :: NoUpper(n)) && (forall n | n in d.allergies :: NoUpper(n))
  {
  }

  /** The default of each core vital in the flattened record. */
  function VitalDefault(v: Vital): real
  {
    match v
    case HeartRate => 75.0
    case Systolic => 120.0
    case Diastolic => 80.0
    case Temperature => 37.0
    case RespiratoryRate => 16.0
    case OxygenSaturation => 98.0
    case _ => 0.0
  }

  /** `fhir_data.age or 50`: a missing or zero age becomes 50. */
  function AgeOr50(age: Option<int>): real
  {
    if age.None? || age.value == 0 then 50.0 else age.value as real
  }

  function CoreVitalsOrDefault(vitals: map<Vital, real>): (m: map<Vital, real>)
    ensures forall v :: v in m <==> v in CoreVitals
    ensures forall v | v in m :: m[v] == if v in vitals then vitals[v] else VitalDefault(v)
  {
    map v | v in CoreVitals :: if v in vitals then vitals[v] else VitalDefault(v)
  }

  /**
   * `to_cdss_input`: the age or 50, each core vital or its default, a 0/1
   * flag for every symptom and every condition, and the list lengths.
   */
  function ToCdssInput(d: PatientData): (s: Snapshot)
    ensures s.age == Some(AgeOr50(d.age))
    ensures forall v :: v in s.vitals <==> v in CoreVitals
    ensures forall v | v in s.vitals :: s.vitals[v] == if v in d.vitals then d.vitals[v] else VitalDefault(v)
    ensures forall x: Symptom :: x in s.symptoms && (HasSymptom(s, x) <==> x in d.symptoms)
    ensures forall c: Condition :: c in s.conditionFlags && (HasConditionFlag(s, c) <==> c in d.conditions)
    ensures s.numMedications == Some(|d.medications|) && s.symptomCount == Some(|d.symptoms|)
  {
    VocabularyComplete();
    Snapshot(
      Some(AgeOr50(d.age)), None, [], Some(|d.medications|), [], Some(|d.symptoms|), false, false,
      CoreVitalsOrDefault(d.vitals),
      map x | x in AllSymptoms :: if x in d.symptoms then 1.0 else 0.0,
      map c | c in AllConditions :: if c in d.conditions then 1.0 else 0.0,
      map[])
  }

  /**
   * `to_prediction_dict`: as the CDSS input for age and vitals, plus the
   * medication and allergy lists; a condition flag only for each present
   * condition, and no symptom flags.
   */
  function ToPredictionDict(d: PatientData): (s: Snapshot)
    ensures s.age == Some(AgeOr50(d.age))
    ensures s.vitals == ToCdssInput(d).vitals
    ensures s.medications == d.medications && s.allergies == d.allergies
    ensures forall c :: c in s.conditionFlags <==> c in d.conditions
    ensures forall c :: HasConditionFlag(s, c) <==> c in d.conditions
    ensures s.symptoms == map[]
    ensures s.numMedications == Some(|d.medications|) && s.symptomCount == Some(|d.symptoms|)
  {
    Snapshot(
      Some(AgeOr50(d.age)), None, d.medications, Some(|d.medications|), d.allergies, Some(|d.symptoms|),
      false, false,
      CoreVitalsOrDefault(d.vitals),
      map[],
      map c | c in d.conditions :: 1.0,
      map[])
  }
}
