/**
 * Deterministic clinical safety rules and the hybrid ML + rules decision
 * (ml/rules_engine.py).
 *
 * `ClinicalRulesEngine` keeps a counter that numbers every violation it
 * reports, across calls. Each check is a method whose violations are proved
 * to carry exactly the findings of a specification function and consecutive
 * identifiers; the properties of the rules are lemmas about those functions.
 */
module Rules {
  import opened Common
  import opened Clinical
  import opened CdssConfig
  import MultiRisk

  // ---------------------------------------------------------------------
  // Violations
  // ---------------------------------------------------------------------

  datatype Severity = Critical | Warning | Caution | Info

  datatype AgeGroup = Elderly | Pediatric

  /** What a rule found; the rule's name, message and data follow from it. */
  datatype Finding =
    | SevereInteraction(drug1: string, drug2: string, effect: string)
    | ModerateInteraction(drug1: string, drug2: string, effect: string)
    | CriticalLow(vital: Vital, value: real, threshold: real)
    | CriticalHigh(vital: Vital, value: real, threshold: real)
    | AgeCaution(group: AgeGroup, age: real, medication: string, reason: string)
    | Contraindicated(condition: Condition, drug: string, reason: string)
    | DirectAllergy(allergy: string, medication: string)
    | CrossReactivity(allergyClass: string, drug: string)

  function SeverityOf(f: Finding): Severity
  {
    match f
    case SevereInteraction(_, _, _) => Critical
    case ModerateInteraction(_, _, _) => Warning
    case CriticalLow(_, _, _) => Critical
    case CriticalHigh(_, _, _) => Critical
    case AgeCaution(_, _, _, _) => Warning
    case Contraindicated(_, _, _) => Warning
    case DirectAllergy(_, _) => Critical
    case CrossReactivity(_, _) => Warning
  }

  /** The category argument of `_generate_rule_id`, whose first three letters upper-cased prefix the id. */
  function PrefixOf(f: Finding): string
  {
    match f
    case SevereInteraction(_, _, _) => "DRG"
    case ModerateInteraction(_, _, _) => "DRG"
    case CriticalLow(_, _, _) => "VIT"
    case CriticalHigh(_, _, _) => "VIT"
    case AgeCaution(_, _, _, _) => "AGE"
    case Contraindicated(_, _, _) => "CON"
    case DirectAllergy(_, _) => "ALG"
    case CrossReactivity(_, _) => "ALG"
  }

  function Recommendation(f: Finding): string
  {
    match f
    case SevereInteraction(d1, d2, _) =>
      "Review necessity of concurrent " + d1 + " and " + d2 + ". Consider alternatives or close monitoring."
    case ModerateInteraction(_, _, effect) => "Monitor for " + effect + ". Consider timing adjustments."
    case CriticalLow(_, _, _) => VitalRecommendation
    case CriticalHigh(_, _, _) => VitalRecommendation
    case AgeCaution(_, _, _, reason) => reason
    case Contraindicated(_, _, reason) => reason
    case DirectAllergy(_, _) => "Verify allergy history. Consider alternative medication immediately."
    case CrossReactivity(cls, drug) => "Patient has " + cls + " allergy. " + drug + " may cause cross-reaction."
  }

  const VitalRecommendation: string :=
    "Immediate assessment required. Verify measurement and initiate appropriate intervention."

  function Icon(s: Severity): string
  {
    match s
    case Critical => "🚨"
    case Warning => "⚠️"
    case Caution => "📋"
    case Info => "ℹ️"
  }

  /** A rule id: the category prefix and the counter value, rendered as `PRE-0007`. */
  datatype RuleId = RuleId(prefix: string, number: nat)

  function RuleIdText(id: RuleId): (r: string)
    ensures |r| >= |id.prefix| + 5
    ensures r[..|id.prefix| + 1] == id.prefix + "-"
    ensures AllDigits(r[|id.prefix| + 1..]) && DigitsValue(r[|id.prefix| + 1..]) == id.number
  {
    var digits := DecimalDigits(id.number);
    var padded := ZeroPad(digits, 4);
    DecimalDigitsRoundTrip(id.number);
    LeadingZeros(|padded| - |digits|, digits);
    assert (id.prefix + "-" + padded)[|id.prefix| + 1..] == padded;
    id.prefix + "-" + padded
  }

  datatype Violation = Violation(id: RuleId, finding: Finding)

  function FindingsOf(vs: seq<Violation>): (fs: seq<Finding>)
    ensures |fs| == |vs|
  {
    seq(|vs|, i requires 0 <= i < |vs| => vs[i].finding)
  }

  lemma FindingsOfAppend(a: seq<Violation>, b: seq<Violation>)
    ensures FindingsOf(a + b) == FindingsOf(a) + FindingsOf(b)
  {
  }

  /** Ids are numbered consecutively from `start`, each prefixed by its finding's category. */
  predicate WellNumbered(vs: seq<Violation>, start: int)
  {
    forall i | 0 <= i < |vs| :: vs[i].id.number == start + i && vs[i].id.prefix == PrefixOf(vs[i].finding)
  }

  lemma WellNumberedAppend(a: seq<Violation>, b: seq<Violation>, start: int)
    requires WellNumbered(a, start) && WellNumbered(b, start + |a|)
    ensures WellNumbered(a + b, start)
  {
  }

  // ---------------------------------------------------------------------
  // Specification of each check
  // ---------------------------------------------------------------------

  function InteractionFinding(x: Interaction, severe: bool): Finding
  {
    if severe then SevereInteraction(x.drug1, x.drug2, x.effect)
    else ModerateInteraction(x.drug1, x.drug2, x.effect)
  }

  /** One finding per table entry whose two drugs both occur in the medications, in table order. */
  function InteractionFindings(xs: seq<Interaction>, medsLower: seq<string>, severe: bool): seq<Finding>
  {
    if |xs| == 0 then []
    else
      var x := xs[|xs| - 1];
      InteractionFindings(xs[..|xs| - 1], medsLower, severe)
        + (if MultiRisk.BothPresent(medsLower, x) then [InteractionFinding(x, severe)] else [])
  }

  /** `check_drug_interactions`: severe pairs (critical) then moderate pairs (warning); minor pairs are counted but never reported. */
  function DrugFindings(t: InteractionTable, meds: seq<string>): seq<Finding>
  {
    var ml := LowerAll(meds);
    InteractionFindings(t.severe, ml, true) + InteractionFindings(t.moderate, ml, false)
  }

  lemma {:induction false} InteractionFindingsIff(xs: seq<Interaction>, ml: seq<string>, severe: bool, x: Interaction)
    ensures InteractionFinding(x, severe) in InteractionFindings(xs, ml, severe) <==>
              x in xs && MultiRisk.BothPresent(ml, x)
  {
    if |xs| > 0 {
      var init := xs[..|xs| - 1];
      InteractionFindingsIff(init, ml, severe, x);
      assert xs == init + [xs[|xs| - 1]];
    }
  }

  lemma {:induction false} InteractionFindingsKind(xs: seq<Interaction>, ml: seq<string>, severe: bool)
    ensures forall f | f in InteractionFindings(xs, ml, severe) ::
              if severe then f.SevereInteraction? else f.ModerateInteraction?
  {
    if |xs| > 0 {
      InteractionFindingsKind(xs[..|xs| - 1], ml, severe);
    }
  }

  /**
   * The rules engine reports a severe (moderate) interaction exactly when the
   * multi-risk engine's interaction check lists it under that severity.
   */
  lemma DrugFindingsAgreeWithRiskEngine(t: InteractionTable, meds: seq<string>, x: Interaction)
    ensures SevereInteraction(x.drug1, x.drug2, x.effect) in DrugFindings(t, meds) <==>
              x in MultiRisk.InteractionsIn(t, meds).severe
    ensures ModerateInteraction(x.drug1, x.drug2, x.effect) in DrugFindings(t, meds) <==>
              x in MultiRisk.InteractionsIn(t, meds).moderate
  {
    var ml := LowerAll(meds);
    InteractionFindingsIff(t.severe, ml, true, x);
    InteractionFindingsIff(t.moderate, ml, false, x);
    InteractionFindingsKind(t.severe, ml, true);
    InteractionFindingsKind(t.moderate, ml, false);
    MultiRisk.InteractionReportedIff(t, meds, x);
    if |meds| == 0 {
      assert !AnyContains(ml, x.drug1);
    }
  }

  /** With no pair present, no interaction is reported. */
  lemma {:induction false} NoInteractionFindings(xs: seq<Interaction>, ml: seq<string>, severe: bool)
    requires forall i | 0 <= i < |xs| :: !MultiRisk.BothPresent(ml, xs[i])
    ensures InteractionFindings(xs, ml, severe) == []
  {
    if |xs| > 0 {
      NoInteractionFindings(xs[..|xs| - 1], ml, severe);
    }
  }

  /** When only the first entry's pair is present, exactly that entry is reported. */
  lemma {:induction false} OnlyFirstInteraction(xs: seq<Interaction>, ml: seq<string>, severe: bool)
    requires |xs| > 0 && MultiRisk.BothPresent(ml, xs[0])
    requires forall i | 1 <= i < |xs| :: !MultiRisk.BothPresent(ml, xs[i])
    ensures InteractionFindings(xs, ml, severe) == [InteractionFinding(xs[0], severe)]
  {
    if |xs| == 1 {
      assert xs[..0] == [];
    } else {
      OnlyFirstInteraction(xs[..|xs| - 1], ml, severe);
    }
  }

  function RuleVitalFindings(p: Snapshot, rule: VitalRule): seq<Finding>
  {
    match VitalOf(p, rule.vital)
    case None => []
    case Some(v) =>
      (if MultiRisk.BelowCritical(rule, v) then [CriticalLow(rule.vital, v, rule.criticalLow.value)] else [])
      + (if MultiRisk.AboveCritical(rule, v) then [CriticalHigh(rule.vital, v, rule.criticalHigh.value)] else [])
  }

  /** `check_vital_alerts`: absent vitals are skipped; strict comparisons against each bound. */
  function VitalFindings(p: Snapshot, rules: seq<VitalRule>): (fs: seq<Finding>)
    ensures |fs| <= 2 * |rules|
    ensures forall f | f in fs :: f.CriticalLow? || f.CriticalHigh?
  {
    if |rules| == 0 then []
    else VitalFindings(p, rules[..|rules| - 1]) + RuleVitalFindings(p, rules[|rules| - 1])
  }

  /** One rule reports a critical-low finding iff the present reading is strictly below its low bound. */
  lemma RuleFindingsLowIff(p: Snapshot, rule: VitalRule, v: Vital, x: real, t: real)
    ensures CriticalLow(v, x, t) in RuleVitalFindings(p, rule) <==>
              rule.vital == v && VitalOf(p, v) == Some(x) && rule.criticalLow == Some(t) && x < t
  {
  }

  /** One rule reports a critical-high finding iff the present reading is strictly above its high bound. */
  lemma RuleFindingsHighIff(p: Snapshot, rule: VitalRule, v: Vital, x: real, t: real)
    ensures CriticalHigh(v, x, t) in RuleVitalFindings(p, rule) <==>
              rule.vital == v && VitalOf(p, v) == Some(x) && rule.criticalHigh == Some(t) && x > t
  {
  }

  /**
   * A critical-low finding is reported iff some rule for that vital has a low
   * bound that the present reading is strictly below.
   */
  lemma {:induction false} VitalFindingsLowIff(p: Snapshot, rules: seq<VitalRule>, v: Vital, x: real, t: real)
    ensures CriticalLow(v, x, t) in VitalFindings(p, rules) <==>
              exists i | 0 <= i < |rules| ::
                rules[i].vital == v && VitalOf(p, v) == Some(x) && rules[i].criticalLow == Some(t) && x < t
  {
    if |rules| > 0 {
      var init := rules[..|rules| - 1];
      var last := rules[|rules| - 1];
      VitalFindingsLowIff(p, init, v, x, t);
      RuleFindingsLowIff(p, last, v, x, t);
      assert forall i | 0 <= i < |init| :: init[i] == rules[i];
      assert rules == init + [last];
    }
  }

  /**
   * A critical-high finding is reported iff some rule for that vital has a
   * high bound that the present reading is strictly above.
   */
  lemma {:induction false} VitalFindingsHighIff(p: Snapshot, rules: seq<VitalRule>, v: Vital, x: real, t: real)
    ensures CriticalHigh(v, x, t) in VitalFindings(p, rules) <==>
              exists i | 0 <= i < |rules| ::
                rules[i].vital == v && VitalOf(p, v) == Some(x) && rules[i].criticalHigh == Some(t) && x > t
  {
    if |rules| > 0 {
      var init := rules[..|rules| - 1];
      var last := rules[|rules| - 1];
      VitalFindingsHighIff(p, init, v, x, t);
      RuleFindingsHighIff(p, last, v, x, t);
      assert forall i | 0 <= i < |init| :: init[i] == rules[i];
      assert rules == init + [last];
    }
  }

  /** An absent vital yields no finding. */
  lemma {:induction false} AbsentVitalSilent(p: Snapshot, rules: seq<VitalRule>, v: Vital)
    requires VitalOf(p, v).None?
    ensures forall f | f in VitalFindings(p, rules) :: f.vital != v
  {
    if |rules| > 0 {
      AbsentVitalSilent(p, rules[..|rules| - 1], v);
    }
  }

  /**
   * With bounds that cannot both be exceeded, a vital produces at most one
   * finding, so the check reports at most one finding per rule.
   */
  lemma {:induction false} VitalFindingsAtMostOnePerRule(p: Snapshot, rules: seq<VitalRule>)
    requires forall i | 0 <= i < |rules| :: rules[i].criticalLow.Some? && rules[i].criticalHigh.Some? &&
                                            rules[i].criticalLow.value <= rules[i].criticalHigh.value
    ensures |VitalFindings(p, rules)| <= |rules|
  {
    if |rules| > 0 {
      VitalFindingsAtMostOnePerRule(p, rules[..|rules| - 1]);
    }
  }

  /** An oxygen saturation of 85 is below the critical 88 and is reported as one critical finding. */
  lemma LowOxygenIsCritical(p: Snapshot)
    requires p.vitals == map[OxygenSaturation := 85.0]
    ensures VitalFindings(p, VitalCriticalRules) == [CriticalLow(OxygenSaturation, 85.0, 88.0)]
  {
    var r := VitalCriticalRules;
    assert r[..1][..0] == [] && VitalFindings(p, r[..1]) == [];
    assert r[..2][..1] == r[..1] && VitalFindings(p, r[..2]) == [];
    assert r[..3][..2] == r[..2] && VitalFindings(p, r[..3]) == [];
    assert r[..4][..3] == r[..3] && VitalFindings(p, r[..4]) == [];
    assert r[..5][..4] == r[..4] && VitalFindings(p, r[..5]) == [];
    assert r[..6][..5] == r[..5] && VitalFindings(p, r[..6]) == [CriticalLow(OxygenSaturation, 85.0, 88.0)];
    assert r[..7][..6] == r[..6] && r[..7] == r;
  }

  /** The names from `names` that occur in some lower-cased medication, in list order. */
  function Present(names: seq<string>, medsLower: seq<string>): (r: seq<string>)
    ensures |r| <= |names|
    ensures forall i | 0 <= i < |r| :: r[i] in names && AnyContains(medsLower, r[i])
  {
    if |names| == 0 then []
    else
      var n := names[|names| - 1];
      Present(names[..|names| - 1], medsLower) + (if AnyContains(medsLower, n) then [n] else [])
  }

  lemma {:induction false} PresentIff(names: seq<string>, ml: seq<string>, n: string)
    ensures n in Present(names, ml) <==> n in names && AnyContains(ml, n)
  {
    if |names| > 0 {
      var init := names[..|names| - 1];
      PresentIff(init, ml, n);
      assert names == init + [names[|names| - 1]];
    }
  }

  lemma {:induction false} OnlyFirstPresent(names: seq<string>, ml: seq<string>)
    requires |names| > 0 && AnyContains(ml, names[0])
    requires forall i | 1 <= i < |names| :: !AnyContains(ml, names[i])
    ensures Present(names, ml) == [names[0]]
  {
    if |names| == 1 {
      assert names[..0] == [];
    } else {
      OnlyFirstPresent(names[..|names| - 1], ml);
    }
  }

  /** The finding reported for a listed name found among the medications. */
  datatype Template =
    | AgeTemplate(group: AgeGroup, age: real, reason: string)
    | ContraTemplate(condition: Condition, reason: string)
    | CrossTemplate(allergyClass: string)

  function Instantiate(t: Template, name: string): Finding
  {
    match t
    case AgeTemplate(g, age, reason) => AgeCaution(g, age, name, reason)
    case ContraTemplate(c, reason) => Contraindicated(c, name, reason)
    case CrossTemplate(cls) => CrossReactivity(cls, name)
  }

  function FindingsFor(names: seq<string>, t: Template): (fs: seq<Finding>)
    ensures |fs| == |names|
  {
    seq(|names|, i requires 0 <= i < |names| => Instantiate(t, names[i]))
  }

  function InElderlyBand(rules: AgeSafetyRules, age: real): bool { age >= rules.elderly.bound }
  function InPediatricBand(rules: AgeSafetyRules, age: real): bool { age <= rules.pediatric.bound }

  /** `check_age_safety`: nothing without an age or without medications. */
  function AgeFindings(p: Snapshot, rules: AgeSafetyRules): seq<Finding>
  {
    if p.age.None? || |p.medications| == 0 then []
    else
      var age := p.age.value;
      var ml := LowerAll(p.medications);
      (if InElderlyBand(rules, age)
       then FindingsFor(Present(rules.elderly.medications, ml), AgeTemplate(Elderly, age, rules.elderly.reason))
       else [])
      + (if InPediatricBand(rules, age)
         then FindingsFor(Present(rules.pediatric.medications, ml), AgeTemplate(Pediatric, age, rules.pediatric.reason))
         else [])
  }

  /** Rules counted by the age check: the listed medications of each applicable band, at least 1. */
  function AgeRuleCount(p: Snapshot, rules: AgeSafetyRules): nat
  {
    if p.age.None? || |p.medications| == 0 then 0
    else
      var age := p.age.value;
      var n := (if InElderlyBand(rules, age) then |rules.elderly.medications| else 0)
             + (if InPediatricBand(rules, age) then |rules.pediatric.medications| else 0);
      if n >= 1 then n else 1
  }

  lemma FindingsForMembers(names: seq<string>, t: Template, x: Finding)
    ensures x in FindingsFor(names, t) <==> exists n | n in names :: x == Instantiate(t, n)
  {
    if x in FindingsFor(names, t) {
      var k :| 0 <= k < |names| && FindingsFor(names, t)[k] == x;
      assert names[k] in names;
    }
    if exists n | n in names :: x == Instantiate(t, n) {
      var n :| n in names && x == Instantiate(t, n);
      var k :| 0 <= k < |names| && names[k] == n;
      assert FindingsFor(names, t)[k] == x;
    }
  }

  function Band(rules: AgeSafetyRules, g: AgeGroup): AgeBand
  {
    if g == Elderly then rules.elderly else rules.pediatric
  }

  function Applies(rules: AgeSafetyRules, g: AgeGroup, age: real): bool
  {
    if g == Elderly then InElderlyBand(rules, age) else InPediatricBand(rules, age)
  }

  /**
   * An age caution is raised exactly for a medication listed in a band that
   * applies to the patient's known age, when some medication contains it.
   */
  lemma AgeCautionIff(p: Snapshot, rules: AgeSafetyRules, g: AgeGroup, age: real, med: string, reason: string)
    ensures AgeCaution(g, age, med, reason) in AgeFindings(p, rules) <==>
              p.age == Some(age) && |p.medications| > 0 && Applies(rules, g, age) &&
              Band(rules, g).reason == reason && med in Band(rules, g).medications &&
              AnyContains(LowerAll(p.medications), med)
  {
    var x := AgeCaution(g, age, med, reason);
    if p.age.Some? && |p.medications| > 0 {
      var ml := LowerAll(p.medications);
      var a := p.age.value;
      PresentIff(rules.elderly.medications, ml, med);
      PresentIff(rules.pediatric.medications, ml, med);
      FindingsForMembers(Present(rules.elderly.medications, ml), AgeTemplate(Elderly, a, rules.elderly.reason), x);
      FindingsForMembers(Present(rules.pediatric.medications, ml), AgeTemplate(Pediatric, a, rules.pediatric.reason), x);
    }
  }

  datatype Contra = Contra(condition: Condition, drugs: seq<string>, reason: string)

  const Contraindications: seq<Contra> := [
    Contra(KidneyDisease, ["nsaid", "ibuprofen", "naproxen", "metformin"],
           "May worsen kidney function or cause toxicity"),
    Contra(LiverDisease, ["acetaminophen", "statin"], "Liver metabolism may be impaired"),
    Contra(HeartDisease, ["nsaid", "ibuprofen"], "May increase cardiovascular risk"),
    Contra(Asthma, ["beta_blocker", "metoprolol", "propranolol", "aspirin"], "May trigger bronchospasm")
  ]

  function ContraBlock(p: Snapshot, ml: seq<string>, c: Contra): seq<Finding>
  {
    if HasConditionFlag(p, c.condition) then FindingsFor(Present(c.drugs, ml), ContraTemplate(c.condition, c.reason))
    else []
  }

  /** `check_contraindications`: for each flagged condition, each of its listed drugs that is present. */
  function ContraFindings(p: Snapshot, ml: seq<string>, cs: seq<Contra>): seq<Finding>
  {
    if |cs| == 0 then []
    else ContraFindings(p, ml, cs[..|cs| - 1]) + ContraBlock(p, ml, cs[|cs| - 1])
  }

  /** Without any flagged condition there is no contraindication finding. */
  lemma {:induction false} NoConditionNoContraindication(p: Snapshot, ml: seq<string>, cs: seq<Contra>)
    requires forall i | 0 <= i < |cs| :: !HasConditionFlag(p, cs[i].condition)
    ensures ContraFindings(p, ml, cs) == []
  {
    if |cs| > 0 {
      NoConditionNoContraindication(p, ml, cs[..|cs| - 1]);
    }
  }

  /** One condition's block reports a drug iff the condition is flagged and the drug is listed for it and present. */
  lemma ContraBlockIff(p: Snapshot, ml: seq<string>, c: Contra, cond: Condition, d: string, reason: string)
    ensures Contraindicated(cond, d, reason) in ContraBlock(p, ml, c) <==>
              HasConditionFlag(p, c.condition) && c.condition == cond && c.reason == reason
              && d in c.drugs && AnyContains(ml, d)
  {
    if HasConditionFlag(p, c.condition) {
      FindingsForMembers(Present(c.drugs, ml), ContraTemplate(c.condition, c.reason), Contraindicated(cond, d, reason));
      PresentIff(c.drugs, ml, d);
    }
  }

  /**
   * A contraindication is reported iff some table row for a flagged condition
   * lists the drug and the drug occurs in some lower-cased medication.
   */
  lemma {:induction false} ContraFindingsIff(p: Snapshot, ml: seq<string>, cs: seq<Contra>,
                                             cond: Condition, d: string, reason: string)
    ensures Contraindicated(cond, d, reason) in ContraFindings(p, ml, cs) <==>
              exists i | 0 <= i < |cs| ::
                cs[i].condition == cond && cs[i].reason == reason && HasConditionFlag(p, cond)
                && d in cs[i].drugs && AnyContains(ml, d)
  {
    if |cs| > 0 {
      var init := cs[..|cs| - 1];
      var last := cs[|cs| - 1];
      var f := Contraindicated(cond, d, reason);
      ContraFindingsIff(p, ml, init, cond, d, reason);
      ContraBlockIff(p, ml, last, cond, d, reason);
      assert ContraFindings(p, ml, cs) == ContraFindings(p, ml, init) + ContraBlock(p, ml, last);
      if f in ContraFindings(p, ml, init) {
        var i :| 0 <= i < |init| && init[i].condition == cond && init[i].reason == reason
                 && HasConditionFlag(p, cond) && d in init[i].drugs && AnyContains(ml, d);
        assert cs[i] == init[i];
      }
      if exists i | 0 <= i < |cs| :: cs[i].condition == cond && cs[i].reason == reason
           && HasConditionFlag(p, cond) && d in cs[i].drugs && AnyContains(ml, d) {
        var i :| 0 <= i < |cs| && cs[i].condition == cond && cs[i].reason == reason
                 && HasConditionFlag(p, cond) && d in cs[i].drugs && AnyContains(ml, d);
        if i < |init| {
          assert init[i] == cs[i];
        }
      }
    }
  }

  datatype Cross = Cross(allergyClass: string, drugs: seq<string>)

  const CrossReactions: seq<Cross> := [
    Cross("penicillin", ["amoxicillin", "ampicillin", "cephalosporin"]),
    Cross("sulfa", ["sulfamethoxazole", "sulfasalazine"]),
    Cross("aspirin", ["nsaid", "ibuprofen", "naproxen"])
  ]

  /** An allergy matches a medication when either contains the other. */
  predicate AllergyMatches(allergy: string, med: string)
  {
    IsInfix(allergy, med) || IsInfix(med, allergy)
  }

  function DirectRow(a: string, ml: seq<string>): seq<Finding>
  {
    if |ml| == 0 then []
    else
      var m := ml[|ml| - 1];
      DirectRow(a, ml[..|ml| - 1]) + (if AllergyMatches(a, m) then [DirectAllergy(a, m)] else [])
  }

  /** One critical finding per (allergy, medication) pair that matches, allergy-major order. */
  function DirectFindings(al: seq<string>, ml: seq<string>): seq<Finding>
  {
    if |al| == 0 then []
    else DirectFindings(al[..|al| - 1], ml) + DirectRow(al[|al| - 1], ml)
  }

  function CrossBlock(al: seq<string>, ml: seq<string>, c: Cross): seq<Finding>
  {
    if AnyContains(al, c.allergyClass) then FindingsFor(Present(c.drugs, ml), CrossTemplate(c.allergyClass)) else []
  }

  function CrossFindings(al: seq<string>, ml: seq<string>, cs: seq<Cross>): seq<Finding>
  {
    if |cs| == 0 then []
    else CrossFindings(al, ml, cs[..|cs| - 1]) + CrossBlock(al, ml, cs[|cs| - 1])
  }

  /** One class's block reports a drug iff some allergy names the class and the drug is listed for it and present. */
  lemma CrossBlockIff(al: seq<string>, ml: seq<string>, c: Cross, cls: string, d: string)
    ensures CrossReactivity(cls, d) in CrossBlock(al, ml, c) <==>
              AnyContains(al, c.allergyClass) && c.allergyClass == cls && d in c.drugs && AnyContains(ml, d)
  {
    if AnyContains(al, c.allergyClass) {
      FindingsForMembers(Present(c.drugs, ml), CrossTemplate(c.allergyClass), CrossReactivity(cls, d));
      PresentIff(c.drugs, ml, d);
    }
  }

  /**
   * A cross-reactivity warning is reported iff some lower-cased allergy
   * contains a table row's class and that row's drug occurs in some
   * lower-cased medication.
   */
  lemma {:induction false} CrossFindingsIff(al: seq<string>, ml: seq<string>, cs: seq<Cross>, cls: string, d: string)
    ensures CrossReactivity(cls, d) in CrossFindings(al, ml, cs) <==>
              exists i | 0 <= i < |cs| ::
                cs[i].allergyClass == cls && AnyContains(al, cls) && d in cs[i].drugs && AnyContains(ml, d)
  {
    if |cs| > 0 {
      var init := cs[..|cs| - 1];
      var last := cs[|cs| - 1];
      var f := CrossReactivity(cls, d);
      CrossFindingsIff(al, ml, init, cls, d);
      CrossBlockIff(al, ml, last, cls, d);
      assert CrossFindings(al, ml, cs) == CrossFindings(al, ml, init) + CrossBlock(al, ml, last);
      if f in CrossFindings(al, ml, init) {
        var i :| 0 <= i < |init| && init[i].allergyClass == cls && AnyContains(al, cls)
                 && d in init[i].drugs && AnyContains(ml, d);
        assert cs[i] == init[i];
      }
      if exists i | 0 <= i < |cs| :: cs[i].allergyClass == cls && AnyContains(al, cls) && d in cs[i].drugs && AnyContains(ml, d) {
        var i :| 0 <= i < |cs| && cs[i].allergyClass == cls && AnyContains(al, cls) && d in cs[i].drugs && AnyContains(ml, d);
        if i < |init| {
          assert init[i] == cs[i];
        }
      }
    }
  }

  /** `check_allergy_risks`: nothing when either list is empty; direct matches, then cross-reactions. */
  function AllergyFindings(p: Snapshot, cs: seq<Cross>): seq<Finding>
  {
    if |p.allergies| == 0 || |p.medications| == 0 then []
    else
      var al := LowerAll(p.allergies);
      var ml := LowerAll(p.medications);
      DirectFindings(al, ml) + CrossFindings(al, ml, cs)
  }

  function AllergyRuleCount(p: Snapshot, cs: seq<Cross>): nat
  {
    if |p.allergies| == 0 || |p.medications| == 0 then 1 else |cs| + |p.allergies|
  }

  lemma {:induction false} DirectRowIff(a: string, ml: seq<string>, m: string)
    ensures DirectAllergy(a, m) in DirectRow(a, ml) <==> m in ml && AllergyMatches(a, m)
  {
    if |ml| > 0 {
      var init := ml[..|ml| - 1];
      DirectRowIff(a, init, m);
      assert ml == init + [ml[|ml| - 1]];
    }
  }

  lemma {:induction false} DirectRowOnly(a: string, ml: seq<string>)
    ensures forall f | f in DirectRow(a, ml) :: f.DirectAllergy? && f.allergy == a
  {
    if |ml| > 0 {
      DirectRowOnly(a, ml[..|ml| - 1]);
    }
  }

  /** A direct allergy alert is raised for a pair exactly when the allergy and the medication contain one another. */
  lemma {:induction false} DirectFindingsIff(al: seq<string>, ml: seq<string>, a: string, m: string)
    ensures DirectAllergy(a, m) in DirectFindings(al, ml) <==> a in al && m in ml && AllergyMatches(a, m)
  {
    if |al| > 0 {
      var init := al[..|al| - 1];
      var last := al[|al| - 1];
      DirectFindingsIff(init, ml, a, m);
      DirectRowIff(last, ml, m);
      DirectRowOnly(last, ml);
      assert al == init + [last];
    }
  }

  lemma PenicillinAmoxicillinNoDirect(al: seq<string>, ml: seq<string>)
    requires al == ["penicillin"] && ml == ["amoxicillin 500mg"]
    ensures DirectFindings(al, ml) == []
  {
    NotInfixByChar("penicillin", "amoxicillin 500mg", 0);
    NotInfixByChar("amoxicillin 500mg", "penicillin", 0);
    assert ml[..0] == [] && al[..0] == [];
    assert DirectRow("penicillin", ml) == [];
  }

  lemma PenicillinClassPresent(al: seq<string>, ml: seq<string>)
    requires al == ["penicillin"] && ml == ["amoxicillin 500mg"]
    ensures AnyContains(al, CrossReactions[0].allergyClass)
    ensures !AnyContains(al, CrossReactions[1].allergyClass) && !AnyContains(al, CrossReactions[2].allergyClass)
    ensures Present(CrossReactions[0].drugs, ml) == ["amoxicillin"]
  {
    assert OccursAt("penicillin", al[0], 0);
    assert OccursAt("amoxicillin", ml[0], 0);
    PenicillinAbsent(al, ml);
    var cr := CrossReactions;
    assert cr[1].allergyClass == "sulfa" && cr[2].allergyClass == "aspirin";
    OnlyFirstPresent(cr[0].drugs, ml);
  }

  /** The other cross-reaction names occur in neither list. */
  lemma PenicillinAbsent(al: seq<string>, ml: seq<string>)
    requires al == ["penicillin"] && ml == ["amoxicillin 500mg"]
    ensures !AnyContains(ml, "ampicillin") && !AnyContains(ml, "cephalosporin")
    ensures !AnyContains(al, "sulfa") && !AnyContains(al, "aspirin")
  {
    NoneContainsByChar(ml, "ampicillin", 2);
    NoneContainsByChar(ml, "cephalosporin", 1);
    NoneContainsByChar(al, "sulfa", 0);
    NoneContainsByChar(al, "aspirin", 0);
  }

  /** A penicillin allergy with amoxicillin prescribed raises one cross-reactivity warning and no direct alert. */
  lemma PenicillinAmoxicillinCrossReacts()
    ensures DirectFindings(["penicillin"], ["amoxicillin 500mg"]) == []
    ensures CrossFindings(["penicillin"], ["amoxicillin 500mg"], CrossReactions) ==
              [CrossReactivity("penicillin", "amoxicillin")]
  {
    var al: seq<string> := ["penicillin"];
    var ml: seq<string> := ["amoxicillin 500mg"];
    PenicillinAmoxicillinNoDirect(al, ml);
    PenicillinClassPresent(al, ml);
    var cs := CrossReactions;
    assert CrossBlock(al, ml, cs[0]) == [CrossReactivity("penicillin", "amoxicillin")];
    assert CrossBlock(al, ml, cs[1]) == [] && CrossBlock(al, ml, cs[2]) == [];
    assert cs[..1][..0] == [];
    assert CrossFindings(al, ml, cs[..1]) == [CrossReactivity("penicillin", "amoxicillin")];
    assert cs[..2][..1] == cs[..1];
    assert CrossFindings(al, ml, cs[..2]) == [CrossReactivity("penicillin", "amoxicillin")];
    assert cs[..3][..2] == cs[..2] && cs[..3] == cs;
  }

  lemma WarfarinAspirinLower()
    ensures LowerAll(["warfarin 5mg", "aspirin 81mg"]) == ["warfarin 5mg", "aspirin 81mg"]
  {
    LowerId("warfarin 5mg");
    LowerId("aspirin 81mg");
  }

  /** Neither medication contains a drug name of the other table entries. */
  lemma WarfarinAspirinAbsent(meds: seq<string>)
    requires meds == ["warfarin 5mg", "aspirin 81mg"]
    ensures !AnyContains(meds, "metformin") && !AnyContains(meds, "maoi") && !AnyContains(meds, "digoxin")
  {
    NoneContainsByChar(meds, "metformin", 1);
    NoneContainsByChar(meds, "maoi", 2);
    NoneContainsByChar(meds, "digoxin", 0);
  }

  lemma WarfarinAspirinAbsentModerate(meds: seq<string>)
    requires meds == ["warfarin 5mg", "aspirin 81mg"]
    ensures !AnyContains(meds, "ace_inhibitor") && !AnyContains(meds, "statin") && !AnyContains(meds, "antibiotic")
  {
    NoneContainsByChar(meds, "ace_inhibitor", 1);
    NoneContainsByChar(meds, "statin", 1);
    NoneContainsByChar(meds, "antibiotic", 2);
  }

  lemma WarfarinAspirinSevereEntries(meds: seq<string>)
    requires meds == ["warfarin 5mg", "aspirin 81mg"]
    ensures MultiRisk.BothPresent(meds, DrugInteractions.severe[0])
    ensures forall i | 1 <= i < |DrugInteractions.severe| :: !MultiRisk.BothPresent(meds, DrugInteractions.severe[i])
  {
    assert OccursAt("warfarin", meds[0], 0);
    assert OccursAt("aspirin", meds[1], 0);
    WarfarinAspirinAbsent(meds);
    WarfarinAspirinAbsentModerate(meds);
    var sev := DrugInteractions.severe;
    assert sev[1].drug1 == "metformin" && sev[2].drug2 == "maoi";
    assert sev[3].drug1 == "digoxin" && sev[4].drug1 == "ace_inhibitor";
  }

  lemma WarfarinAspirinModerateEntries(meds: seq<string>)
    requires meds == ["warfarin 5mg", "aspirin 81mg"]
    ensures forall i | 0 <= i < |DrugInteractions.moderate| :: !MultiRisk.BothPresent(meds, DrugInteractions.moderate[i])
  {
    WarfarinAspirinAbsent(meds);
    WarfarinAspirinAbsentModerate(meds);
    var mod := DrugInteractions.moderate;
    assert mod[0].drug2 == "ace_inhibitor" && mod[1].drug1 == "statin";
    assert mod[2].drug1 == "metformin" && mod[3].drug1 == "antibiotic";
  }

  /** Warfarin with aspirin raises exactly the one severe (critical) interaction. */
  lemma WarfarinAspirinIsSevere()
    ensures DrugFindings(DrugInteractions, ["warfarin 5mg", "aspirin 81mg"]) ==
              [SevereInteraction("warfarin", "aspirin", "Increased bleeding risk")]
  {
    var meds: seq<string> := ["warfarin 5mg", "aspirin 81mg"];
    WarfarinAspirinLower();
    WarfarinAspirinSevereEntries(meds);
    WarfarinAspirinModerateEntries(meds);
    OnlyFirstInteraction(DrugInteractions.severe, meds, true);
    NoInteractionFindings(DrugInteractions.moderate, meds, false);
  }

  /** Minor pairs are counted among the rules but never reported, whatever they are. */
  lemma MinorNeverFires(t: InteractionTable, meds: seq<string>, extra: seq<Interaction>)
    ensures DrugFindings(t.(minor := t.minor + extra), meds) == DrugFindings(t, meds)
    ensures TableSize(t.(minor := t.minor + extra)) == TableSize(t) + |extra|
  {
  }

  /**
   * The fallback totals: the age check counts nothing without an age or
   * without medications and at least one rule otherwise; the allergy check
   * counts one rule and reports nothing when either list is empty.
   */
  lemma FallbackTotals(p: Snapshot, rules: AgeSafetyRules, cs: seq<Cross>)
    ensures AgeRuleCount(p, rules) == 0 <==> p.age.None? || |p.medications| == 0
    ensures p.age.None? || |p.medications| == 0 ==> AgeFindings(p, rules) == []
    ensures |p.allergies| == 0 || |p.medications| == 0 ==>
              AllergyFindings(p, cs) == [] && AllergyRuleCount(p, cs) == 1
    ensures AllergyRuleCount(p, cs) >= 1
  {
  }

  // ---------------------------------------------------------------------
  // Totals and the result of a run
  // ---------------------------------------------------------------------

  function CountSeverity(vs: seq<Violation>, s: Severity): (n: nat)
    ensures n <= |vs|
    ensures n == 0 <==> forall i | 0 <= i < |vs| :: SeverityOf(vs[i].finding) != s
  {
    if |vs| == 0 then 0
    else
      var init := vs[..|vs| - 1];
      assert forall i | 0 <= i < |vs| - 1 :: vs[i] == init[i];
      CountSeverity(init, s) + (if SeverityOf(vs[|vs| - 1].finding) == s then 1 else 0)
  }

  /** The headline of a run: critical issues first, then warnings, then minor issues. */
  datatype RulesSummary =
    | CriticalIssues(count: int)
    | WarningIssues(count: int)
    | MinorIssues(count: int)
    | AllPassed

  datatype RulesResult = RulesResult(
    violations: seq<Violation>,
    passedRules: int,
    totalRules: nat,
    hasCritical: bool,
    hasWarnings: bool,
    summary: RulesSummary)

  /** The result of a run from its violations and its rule total. */
  function MakeResult(vs: seq<Violation>, total: nat): (r: RulesResult)
    ensures r.violations == vs && r.totalRules == total
    ensures r.passedRules == total - |vs|
    ensures r.hasCritical <==> exists i | 0 <= i < |vs| :: SeverityOf(vs[i].finding) == Critical
    ensures r.hasWarnings <==> exists i | 0 <= i < |vs| :: SeverityOf(vs[i].finding) == Warning
    ensures r.summary == AllPassed <==> |vs| == 0
    ensures r.summary.CriticalIssues? <==> r.hasCritical
    ensures r.summary.WarningIssues? <==> !r.hasCritical && r.hasWarnings
    ensures r.summary.CriticalIssues? ==> r.summary.count == CountSeverity(vs, Critical) > 0
    ensures r.summary.WarningIssues? ==> r.summary.count == CountSeverity(vs, Warning) > 0
  {
    var critical := CountSeverity(vs, Critical);
    var warnings := CountSeverity(vs, Warning);
    var summary :=
      if critical > 0 then CriticalIssues(critical)
      else if warnings > 0 then WarningIssues(warnings)
      else if |vs| > 0 then MinorIssues(|vs|)
      else AllPassed;
    RulesResult(vs, total - |vs|, total, critical > 0, warnings > 0, summary)
  }

  /** `pass_rate`: passed over total, or 1.0 when no rule was counted. */
  function PassRate(r: RulesResult): real
  {
    if r.totalRules > 0 then r.passedRules as real / r.totalRules as real else 1.0
  }

  /**
   * A run with no counted rule passes at the full rate; otherwise the rate is
   * full exactly when every counted rule passed, and it is a fraction
   * whenever the passed count lies between 0 and the total.
   */
  lemma PassRateBounds(r: RulesResult)
    ensures r.totalRules == 0 ==> PassRate(r) == 1.0
    ensures r.totalRules > 0 ==> (PassRate(r) == 1.0 <==> r.passedRules == r.totalRules)
    ensures 0 <= r.passedRules <= r.totalRules ==> 0.0 <= PassRate(r) <= 1.0
  {
    if r.totalRules > 0 {
      var t := r.totalRules as real;
      var p := r.passedRules as real;
      assert PassRate(r) * t == p;
    }
  }

  /** Every finding of the five checks is critical or a warning, so "minor issues" never headlines a run. */
  lemma NoMinorSummary(vs: seq<Violation>, total: nat)
    ensures !MakeResult(vs, total).summary.MinorIssues?
  {
    if |vs| > 0 {
      assert SeverityOf(vs[0].finding) == Critical || SeverityOf(vs[0].finding) == Warning;
    }
  }

  /** The tables the checks read. */
  datatype RuleTables = RuleTables(
    interactions: InteractionTable,
    vitalRules: seq<VitalRule>,
    ageRules: AgeSafetyRules,
    contraindications: seq<Contra>,
    crossReactions: seq<Cross>)

  const DefaultRuleTables: RuleTables :=
    RuleTables(DrugInteractions, VitalCriticalRules, AgeRules, Contraindications, CrossReactions)

  /** The five checks, in the order `run_all_checks` runs them. */
  datatype CheckKind = DrugCheck | VitalCheck | AgeCheck | ContraCheck | AllergyCheck

  function IsEnabled(c: RuleCategories, k: CheckKind): bool
  {
    match k
    case DrugCheck => c.drugInteractions
    case VitalCheck => c.vitalSignAlerts
    case AgeCheck => c.ageSafety
    case ContraCheck => c.contraindications
    case AllergyCheck => c.allergyChecks
  }

  function CheckFindings(tb: RuleTables, k: CheckKind, p: Snapshot): seq<Finding>
  {
    match k
    case DrugCheck => DrugFindings(tb.interactions, p.medications)
    case VitalCheck => VitalFindings(p, tb.vitalRules)
    case AgeCheck => AgeFindings(p, tb.ageRules)
    case ContraCheck => ContraFindings(p, LowerAll(p.medications), tb.contraindications)
    case AllergyCheck => AllergyFindings(p, tb.crossReactions)
  }

  function CheckRuleCount(tb: RuleTables, k: CheckKind, p: Snapshot): nat
  {
    match k
    case DrugCheck => TableSize(tb.interactions)
    case VitalCheck => 2 * |tb.vitalRules|
    case AgeCheck => AgeRuleCount(p, tb.ageRules)
    case ContraCheck => |tb.contraindications|
    case AllergyCheck => AllergyRuleCount(p, tb.crossReactions)
  }

  function Part(tb: RuleTables, c: RuleCategories, k: CheckKind, p: Snapshot): seq<Finding>
  {
    if IsEnabled(c, k) then CheckFindings(tb, k, p) else []
  }

  function PartCount(tb: RuleTables, c: RuleCategories, k: CheckKind, p: Snapshot): nat
  {
    if IsEnabled(c, k) then CheckRuleCount(tb, k, p) else 0
  }

  /** The findings of one full run, in check order, over the enabled categories. */
  function AllFindings(tb: RuleTables, c: RuleCategories, p: Snapshot): seq<Finding>
  {
    Part(tb, c, DrugCheck, p) + Part(tb, c, VitalCheck, p) + Part(tb, c, AgeCheck, p)
      + Part(tb, c, ContraCheck, p) + Part(tb, c, AllergyCheck, p)
  }

  function TotalRules(tb: RuleTables, c: RuleCategories, p: Snapshot): nat
  {
    PartCount(tb, c, DrugCheck, p) + PartCount(tb, c, VitalCheck, p) + PartCount(tb, c, AgeCheck, p)
      + PartCount(tb, c, ContraCheck, p) + PartCount(tb, c, AllergyCheck, p)
  }

  /** Appending a block numbered after `a` keeps the whole list well numbered. */
  lemma Chain(a: seq<Violation>, b: seq<Violation>, start: int)
    requires WellNumbered(a, start) && WellNumbered(b, start + |a|)
    ensures WellNumbered(a + b, start)
    ensures FindingsOf(a + b) == FindingsOf(a) + FindingsOf(b)
  {
  }

  // ---------------------------------------------------------------------
  // The engine
  // ---------------------------------------------------------------------

  class ClinicalRulesEngine {
    const config: RulesEngineConfig
    const tables: RuleTables
    var ruleCounter: nat

    constructor(config: RulesEngineConfig)
      ensures this.config == config && tables == DefaultRuleTables && ruleCounter == 0
    {
      this.config := config;
      tables := DefaultRuleTables;
      ruleCounter := 0;
    }

    /** `_generate_rule_id`: advance the counter and use its new value. */
    method GenerateRuleId(prefix: string) returns (id: RuleId)
      modifies this
      ensures ruleCounter == old(ruleCounter) + 1
      ensures id == RuleId(prefix, ruleCounter)
    {
      ruleCounter := ruleCounter + 1;
      id := RuleId(prefix, ruleCounter);
    }

    /** Append a violation with a fresh id for finding `f`. */
    method Report(vs: seq<Violation>, f: Finding) returns (vs': seq<Violation>)
      modifies this
      requires WellNumbered(vs, ruleCounter + 1 - |vs|)
      ensures ruleCounter == old(ruleCounter) + 1
      ensures FindingsOf(vs') == FindingsOf(vs) + [f]
      ensures |vs'| == |vs| + 1 && WellNumbered(vs', ruleCounter + 1 - |vs'|)
    {
      var id := GenerateRuleId(PrefixOf(f));
      vs' := vs + [Violation(id, f)];
    }

    method ScanInteractions(xs: seq<Interaction>, ml: seq<string>, severe: bool) returns (vs: seq<Violation>)
      modifies this
      ensures FindingsOf(vs) == InteractionFindings(xs, ml, severe)
      ensures WellNumbered(vs, old(ruleCounter) + 1) && ruleCounter == old(ruleCounter) + |vs|
    {
      vs := [];
      for i := 0 to |xs|
        invariant FindingsOf(vs) == InteractionFindings(xs[..i], ml, severe)
        invariant WellNumbered(vs, old(ruleCounter) + 1) && ruleCounter == old(ruleCounter) + |vs|
      {
        assert xs[..i + 1][..i] == xs[..i];
        if MultiRisk.BothPresent(ml, xs[i]) {
          vs := Report(vs, InteractionFinding(xs[i], severe));
        }
      }
      assert xs[..|xs|] == xs;
    }

    /** Report `Instantiate(t, name)` for each listed name that some medication contains. */
    method ScanNames(names: seq<string>, ml: seq<string>, t: Template) returns (vs: seq<Violation>)
      modifies this
      ensures FindingsOf(vs) == FindingsFor(Present(names, ml), t)
      ensures WellNumbered(vs, old(ruleCounter) + 1) && ruleCounter == old(ruleCounter) + |vs|
    {
      vs := [];
      for i := 0 to |names|
        invariant FindingsOf(vs) == FindingsFor(Present(names[..i], ml), t)
        invariant WellNumbered(vs, old(ruleCounter) + 1) && ruleCounter == old(ruleCounter) + |vs|
      {
        assert names[..i + 1][..i] == names[..i];
        if AnyContains(ml, names[i]) {
          vs := Report(vs, Instantiate(t, names[i]));
        }
      }
      assert names[..|names|] == names;
    }

    /** The (at most two) violations of one vital rule. */
    method ReportVital(p: Snapshot, rule: VitalRule, vs: seq<Violation>) returns (vs': seq<Violation>)
      modifies this
      requires WellNumbered(vs, ruleCounter + 1 - |vs|)
      ensures FindingsOf(vs') == FindingsOf(vs) + RuleVitalFindings(p, rule)
      ensures WellNumbered(vs', ruleCounter + 1 - |vs'|)
      ensures ruleCounter - old(ruleCounter) == |vs'| - |vs|
    {
      vs' := vs;
      if rule.vital in p.vitals {
        var value := p.vitals[rule.vital];
        if MultiRisk.BelowCritical(rule, value) {
          vs' := Report(vs', CriticalLow(rule.vital, value, rule.criticalLow.value));
        }
        if MultiRisk.AboveCritical(rule, value) {
          vs' := Report(vs', CriticalHigh(rule.vital, value, rule.criticalHigh.value));
        }
      }
    }

    method ScanVitals(p: Snapshot, rules: seq<VitalRule>) returns (vs: seq<Violation>)
      modifies this
      ensures FindingsOf(vs) == VitalFindings(p, rules)
      ensures WellNumbered(vs, old(ruleCounter) + 1) && ruleCounter == old(ruleCounter) + |vs|
    {
      vs := [];
      for i := 0 to |rules|
        invariant FindingsOf(vs) == VitalFindings(p, rules[..i])
        invariant WellNumbered(vs, old(ruleCounter) + 1) && ruleCounter == old(ruleCounter) + |vs|
      {
        assert rules[..i + 1][..i] == rules[..i];
        vs := ReportVital(p, rules[i], vs);
      }
      assert rules[..|rules|] == rules;
    }

    method ScanContraindications(p: Snapshot, ml: seq<string>, cs: seq<Contra>) returns (vs: seq<Violation>)
      modifies this
      ensures FindingsOf(vs) == ContraFindings(p, ml, cs)
      ensures WellNumbered(vs, old(ruleCounter) + 1) && ruleCounter == old(ruleCounter) + |vs|
    {
      vs := [];
      for i := 0 to |cs|
        invariant FindingsOf(vs) == ContraFindings(p, ml, cs[..i])
        invariant WellNumbered(vs, old(ruleCounter) + 1) && ruleCounter == old(ruleCounter) + |vs|
      {
        assert cs[..i + 1][..i] == cs[..i];
        var c := cs[i];
        if c.condition in p.conditionFlags && p.conditionFlags[c.condition] == 1.0 {
          var w := ScanNames(c.drugs, ml, ContraTemplate(c.condition, c.reason));
          Chain(vs, w, old(ruleCounter) + 1);
          vs := vs + w;
        }
      }
      assert cs[..|cs|] == cs;
    }

    method ScanDirectRow(a: string, ml: seq<string>) returns (vs: seq<Violation>)
      modifies this
      ensures FindingsOf(vs) == DirectRow(a, ml)
      ensures WellNumbered(vs, old(ruleCounter) + 1) && ruleCounter == old(ruleCounter) + |vs|
    {
      vs := [];
      for j := 0 to |ml|
        invariant FindingsOf(vs) == DirectRow(a, ml[..j])
        invariant WellNumbered(vs, old(ruleCounter) + 1) && ruleCounter == old(ruleCounter) + |vs|
      {
        assert ml[..j + 1][..j] == ml[..j];
        if AllergyMatches(a, ml[j]) {
          vs := Report(vs, DirectAllergy(a, ml[j]));
        }
      }
      assert ml[..|ml|] == ml;
    }

    method ScanDirect(al: seq<string>, ml: seq<string>) returns (vs: seq<Violation>)
      modifies this
      ensures FindingsOf(vs) == DirectFindings(al, ml)
      ensures WellNumbered(vs, old(ruleCounter) + 1) && ruleCounter == old(ruleCounter) + |vs|
    {
      vs := [];
      for i := 0 to |al|
        invariant FindingsOf(vs) == DirectFindings(al[..i], ml)
        invariant WellNumbered(vs, old(ruleCounter) + 1) && ruleCounter == old(ruleCounter) + |vs|
      {
        assert al[..i + 1][..i] == al[..i];
        var w := ScanDirectRow(al[i], ml);
        Chain(vs, w, old(ruleCounter) + 1);
        vs := vs + w;
      }
      assert al[..|al|] == al;
    }

    method ScanCross(al: seq<string>, ml: seq<string>, cs: seq<Cross>) returns (vs: seq<Violation>)
      modifies this
      ensures FindingsOf(vs) == CrossFindings(al, ml, cs)
      ensures WellNumbered(vs, old(ruleCounter) + 1) && ruleCounter == old(ruleCounter) + |vs|
    {
      vs := [];
      for i := 0 to |cs|
        invariant FindingsOf(vs) == CrossFindings(al, ml, cs[..i])
        invariant WellNumbered(vs, old(ruleCounter) + 1) && ruleCounter == old(ruleCounter) + |vs|
      {
        assert cs[..i + 1][..i] == cs[..i];
        var c := cs[i];
        if AnyContains(al, c.allergyClass) {
          var w := ScanNames(c.drugs, ml, CrossTemplate(c.allergyClass));
          Chain(vs, w, old(ruleCounter) + 1);
          vs := vs + w;
        }
      }
      assert cs[..|cs|] == cs;
    }

    method CheckDrugInteractions(p: Snapshot) returns (vs: seq<Violation>, total: nat)
      modifies this
      ensures FindingsOf(vs) == DrugFindings(tables.interactions, p.medications)
      ensures WellNumbered(vs, old(ruleCounter) + 1) && ruleCounter == old(ruleCounter) + |vs|
      ensures total == TableSize(tables.interactions)
    {
      var ml := LowerAll(p.medications);
      total := TableSize(tables.interactions);
      var severe := ScanInteractions(tables.interactions.severe, ml, true);
      var moderate := ScanInteractions(tables.interactions.moderate, ml, false);
      Chain(severe, moderate, old(ruleCounter) + 1);
      vs := severe + moderate;
    }

    method CheckVitalAlerts(p: Snapshot) returns (vs: seq<Violation>, total: nat)
      modifies this
      ensures FindingsOf(vs) == VitalFindings(p, tables.vitalRules)
      ensures WellNumbered(vs, old(ruleCounter) + 1) && ruleCounter == old(ruleCounter) + |vs|
      ensures total == 2 * |tables.vitalRules|
    {
      total := 2 * |tables.vitalRules|;
      vs := ScanVitals(p, tables.vitalRules);
    }

    method CheckAgeSafety(p: Snapshot) returns (vs: seq<Violation>, total: nat)
      modifies this
      ensures FindingsOf(vs) == AgeFindings(p, tables.ageRules)
      ensures WellNumbered(vs, old(ruleCounter) + 1) && ruleCounter == old(ruleCounter) + |vs|
      ensures total == AgeRuleCount(p, tables.ageRules)
    {
      if p.age.None? || |p.medications| == 0 {
        return [], 0;
      }
      var age := p.age.value;
      var ml := LowerAll(p.medications);
      var rules := tables.ageRules;
      var n := 0;
      var elderly: seq<Violation> := [];
      if age >= rules.elderly.bound {
        n := n + |rules.elderly.medications|;
        elderly := ScanNames(rules.elderly.medications, ml, AgeTemplate(Elderly, age, rules.elderly.reason));
      }
      var pediatric: seq<Violation> := [];
      if age <= rules.pediatric.bound {
        n := n + |rules.pediatric.medications|;
        pediatric := ScanNames(rules.pediatric.medications, ml, AgeTemplate(Pediatric, age, rules.pediatric.reason));
      }
      Chain(elderly, pediatric, old(ruleCounter) + 1);
      vs := elderly + pediatric;
      total := if n >= 1 then n else 1;
    }

    method CheckContraindications(p: Snapshot) returns (vs: seq<Violation>, total: nat)
      modifies this
      ensures FindingsOf(vs) == ContraFindings(p, LowerAll(p.medications), tables.contraindications)
      ensures WellNumbered(vs, old(ruleCounter) + 1) && ruleCounter == old(ruleCounter) + |vs|
      ensures total == |tables.contraindications|
    {
      total := |tables.contraindications|;
      vs := ScanContraindications(p, LowerAll(p.medications), tables.contraindications);
    }

    method CheckAllergyRisks(p: Snapshot) returns (vs: seq<Violation>, total: nat)
      modifies this
      ensures FindingsOf(vs) == AllergyFindings(p, tables.crossReactions)
      ensures WellNumbered(vs, old(ruleCounter) + 1) && ruleCounter == old(ruleCounter) + |vs|
      ensures total == AllergyRuleCount(p, tables.crossReactions)
    {
      if |p.allergies| == 0 || |p.medications| == 0 {
        return [], 1;
      }
      var al := LowerAll(p.allergies);
      var ml := LowerAll(p.medications);
      total := |tables.crossReactions| + |p.allergies|;
      var direct := ScanDirect(al, ml);
      var cross := ScanCross(al, ml, tables.crossReactions);
      Chain(direct, cross, old(ruleCounter) + 1);
      vs := direct + cross;
    }

    method RunCheck(k: CheckKind, p: Snapshot) returns (vs: seq<Violation>, total: nat)
      modifies this
      ensures FindingsOf(vs) == CheckFindings(tables, k, p) && total == CheckRuleCount(tables, k, p)
      ensures WellNumbered(vs, old(ruleCounter) + 1) && ruleCounter == old(ruleCounter) + |vs|
    {
      match k {
        case DrugCheck => vs, total := CheckDrugInteractions(p);
        case VitalCheck => vs, total := CheckVitalAlerts(p);
        case AgeCheck => vs, total := CheckAgeSafety(p);
        case ContraCheck => vs, total := CheckContraindications(p);
        case AllergyCheck => vs, total := CheckAllergyRisks(p);
      }
    }

    /** Run check `k` if it is enabled and append its violations and its rule count. */
    method RunIfEnabled(k: CheckKind, p: Snapshot, vs: seq<Violation>, total: nat, start: int)
      returns (vs': seq<Violation>, total': nat)
      modifies this
      requires WellNumbered(vs, start) && ruleCounter == start - 1 + |vs|
      ensures FindingsOf(vs') == FindingsOf(vs) + Part(tables, config.categories, k, p)
      ensures total' == total + PartCount(tables, config.categories, k, p)
      ensures WellNumbered(vs', start) && ruleCounter == start - 1 + |vs'|
    {
      vs', total' := vs, total;
      if IsEnabled(config.categories, k) {
        var v, n := RunCheck(k, p);
        Chain(vs, v, start);
        vs', total' := vs + v, total + n;
      }
    }

    /**
     * `run_all_checks`: the enabled checks in fixed order. The violations
     * carry exactly the findings of the specification, their ids continue the
     * counter without gaps, and the flags and headline follow from them.
     */
    /** The five checks in order; their violations and rule total, before the summary is formed. */
    method RunChecks(p: Snapshot) returns (vs: seq<Violation>, total: nat)
      modifies this
      ensures FindingsOf(vs) == AllFindings(tables, config.categories, p)
      ensures total == TotalRules(tables, config.categories, p)
      ensures WellNumbered(vs, old(ruleCounter) + 1)
      ensures ruleCounter == old(ruleCounter) + |vs|
    {
      var start := ruleCounter + 1;
      ghost var tb, c := tables, config.categories;
      var v1, t1 := RunIfEnabled(DrugCheck, p, [], 0, start);
      assert FindingsOf(v1) == Part(tb, c, DrugCheck, p);
      var v2, t2 := RunIfEnabled(VitalCheck, p, v1, t1, start);
      var v3, t3 := RunIfEnabled(AgeCheck, p, v2, t2, start);
      var v4, t4 := RunIfEnabled(ContraCheck, p, v3, t3, start);
      vs, total := RunIfEnabled(AllergyCheck, p, v4, t4, start);
    }

    /**
     * `run_all_checks`: the enabled checks in fixed order. The violations
     * carry exactly the findings of the specification, their ids continue the
     * counter without gaps, and the flags and headline follow from them.
     */
    method RunAllChecks(p: Snapshot) returns (r: RulesResult)
      modifies this
      ensures FindingsOf(r.violations) == AllFindings(tables, config.categories, p)
      ensures WellNumbered(r.violations, old(ruleCounter) + 1)
      ensures ruleCounter == old(ruleCounter) + |r.violations|
      ensures r == MakeResult(r.violations, TotalRules(tables, config.categories, p))
    {
      var vs, total := RunChecks(p);
      r := MakeResult(vs, total);
    }
  }

  // ---------------------------------------------------------------------
  // Hybrid decision
  // ---------------------------------------------------------------------

  datatype CombineMethod = Conservative | Liberal | MlPriority

  /** Any method name other than the first two behaves as `ml_priority`. */
  function ParseCombineMethod(name: string): (m: CombineMethod)
    ensures m == Conservative <==> name == "conservative"
    ensures m == Liberal <==> name == "liberal"
  {
    if name == "conservative" then Conservative
    else if name == "liberal" then Liberal
    else MlPriority
  }

  datatype Conflict = LowButCriticalViolations | HighButNoViolations

  datatype Rationale =
    | ElevatedForCritical
    | ElevatedForWarnings
    | MlWithRuleAdjustments
    | ElevatedForCriticalOnly
    | MlWithoutCritical
    | MlWithAdvisoryFindings(count: nat)
    | MlRulesPassed

  datatype Combined = Combined(level: Level, score: real, rationale: Rationale, conflicts: seq<Conflict>)

  /** `rules_adjustment`: graded by the worst severity found, 0 when nothing was found. */
  function Adjustment(r: RulesResult): (a: real)
    ensures 0.0 <= a <= 0.4
    ensures r.hasCritical ==> a == 0.4
    ensures !r.hasCritical && r.hasWarnings ==> a == 0.2
    ensures !r.hasCritical && !r.hasWarnings && |r.violations| > 0 ==> a == 0.1
    ensures a == 0.0 <==> !r.hasCritical && !r.hasWarnings && |r.violations| == 0
  {
    if r.hasCritical then 0.4
    else if r.hasWarnings then 0.2
    else if |r.violations| > 0 then 0.1
    else 0.0
  }

  function Conflicts(ml: Level, r: RulesResult): (cs: seq<Conflict>)
    ensures LowButCriticalViolations in cs <==> ml == Low && r.hasCritical
    ensures HighButNoViolations in cs <==> ml == High && |r.violations| == 0
  {
    (if ml == Low && r.hasCritical then [LowButCriticalViolations] else [])
    + (if ml == High && |r.violations| == 0 then [HighButNoViolations] else [])
  }

  function MaxLevel(a: Level, b: Level): Level
  {
    if Rank(a) >= Rank(b) then a else b
  }

  /**
   * `_combine_decisions`. Neither the level nor (for a score in [0, 1]) the
   * score is ever lowered; under the conservative and liberal methods a
   * critical violation forces High, and `ml_priority` passes the ML decision
   * through unchanged.
   */
  function CombineDecisions(ml: Level, mlScore: real, r: RulesResult, m: CombineMethod): (c: Combined)
    ensures Rank(c.level) >= Rank(ml)
    ensures 0.0 <= mlScore <= 1.0 ==> c.score >= mlScore
    ensures m != MlPriority && r.hasCritical ==> c.level == High
    ensures m == Conservative && r.hasCritical ==> c.score >= 0.8
    ensures m == Conservative && !r.hasCritical && r.hasWarnings && ml == Low ==> c.level == Medium && c.score >= 0.4
    ensures m == Liberal && r.hasCritical ==> c.score >= 0.7
    ensures m == Liberal && !r.hasCritical ==> c.level == ml && c.score == mlScore
    ensures m == MlPriority ==> c.level == ml && c.score == mlScore
    ensures m == Conservative && r.hasCritical ==> c.score == Max(mlScore, 0.8)
    ensures m == Conservative && !r.hasCritical && r.hasWarnings && ml == Low ==> c.score == Max(mlScore + 0.2, 0.4)
    ensures m == Conservative && !r.hasCritical && !(r.hasWarnings && ml == Low) ==>
              c.level == ml && c.score == Min(mlScore + Adjustment(r), 1.0)
    ensures m == Liberal && r.hasCritical ==> c.score == Max(mlScore, 0.7)
    ensures c.conflicts == Conflicts(ml, r)
  {
    var adj := Adjustment(r);
    var conflicts := Conflicts(ml, r);
    match m
    case Conservative =>
      if r.hasCritical then Combined(High, Max(mlScore, 0.8), ElevatedForCritical, conflicts)
      else if r.hasWarnings && ml == Low then Combined(Medium, Max(mlScore + adj, 0.4), ElevatedForWarnings, conflicts)
      else Combined(ml, Min(mlScore + adj, 1.0), MlWithRuleAdjustments, conflicts)
    case Liberal =>
      if r.hasCritical then Combined(MaxLevel(ml, High), Max(mlScore, 0.7), ElevatedForCriticalOnly, conflicts)
      else Combined(ml, mlScore, MlWithoutCritical, conflicts)
    case MlPriority =>
      Combined(ml, mlScore,
               if |r.violations| > 0 then MlWithAdvisoryFindings(|r.violations|) else MlRulesPassed,
               conflicts)
  }

  const ConflictNote: string := "⚖️ Review discrepancy between ML prediction and clinical rules"
  const HighRiskNote: string := "🔍 Perform comprehensive clinical review"

  function Rendered(v: Violation): string
  {
    Icon(SeverityOf(v.finding)) + " " + Recommendation(v.finding)
  }

  predicate Actionable(v: Violation)
  {
    SeverityOf(v.finding) == Critical || SeverityOf(v.finding) == Warning
  }

  /** The violations `keep` selects, each rendered by `render`, in order. */
  function Kept(vs: seq<Violation>, keep: Violation -> bool, render: Violation -> string): (rs: seq<string>)
    ensures |rs| <= |vs|
  {
    if |vs| == 0 then []
    else
      var v := vs[|vs| - 1];
      Kept(vs[..|vs| - 1], keep, render) + (if keep(v) then [render(v)] else [])
  }

  /** Every selected violation is rendered, and everything rendered comes from some violation. */
  lemma {:induction false} KeptIff(vs: seq<Violation>, keep: Violation -> bool, render: Violation -> string)
    ensures forall i | 0 <= i < |vs| :: keep(vs[i]) ==> render(vs[i]) in Kept(vs, keep, render)
    ensures forall x | x in Kept(vs, keep, render) :: exists i | 0 <= i < |vs| :: x == render(vs[i])
  {
    if |vs| > 0 {
      var init := vs[..|vs| - 1];
      KeptIff(init, keep, render);
      assert forall i | 0 <= i < |vs| - 1 :: vs[i] == init[i];
      var rest := Kept(init, keep, render);
      var v := vs[|vs| - 1];
      assert Kept(vs, keep, render) == rest + (if keep(v) then [render(v)] else []);
      forall x | x in Kept(vs, keep, render) ensures exists i | 0 <= i < |vs| :: x == render(vs[i]) {
        if x in rest {
          var i :| 0 <= i < |init| && x == render(init[i]);
          assert x == render(vs[i]);
        } else {
          assert x == render(vs[|vs| - 1]);
        }
      }
    }
  }

  /** The icon-prefixed recommendations of the critical and warning violations, in order. */
  function ViolationRecommendations(vs: seq<Violation>): (rs: seq<string>)
    ensures |rs| <= |vs|
  {
    Kept(vs, Actionable, Rendered)
  }

  /** `_generate_recommendations` before de-duplication. */
  function RecommendationList(ml: Level, r: RulesResult, conflicts: seq<Conflict>): seq<string>
  {
    ViolationRecommendations(r.violations)
      + (if |conflicts| > 0 then [ConflictNote] else [])
      + (if ml == High then [HighRiskNote] else [])
  }

  /** `_generate_recommendations`, de-duplicated keeping first occurrences. */
  function HybridRecommendations(ml: Level, r: RulesResult, conflicts: seq<Conflict>): (rs: seq<string>)
    ensures NoDup(rs)
  {
    Dedup(RecommendationList(ml, r, conflicts))
  }

  /** A recommendation is kept by de-duplication exactly when the list has it. */
  lemma HybridRecommendationsMembers(ml: Level, r: RulesResult, conflicts: seq<Conflict>, x: string)
    ensures x in HybridRecommendations(ml, r, conflicts) <==>
      x in ViolationRecommendations(r.violations) || (|conflicts| > 0 && x == ConflictNote) || (ml == High && x == HighRiskNote)
  {
    var all := RecommendationList(ml, r, conflicts);
    DedupMembers(all, x);
  }

  /**
   * Every critical or warning recommendation, the conflict note when there is
   * a conflict and the review note for an ML High appear, once each.
   */
  lemma HybridRecommendationsComplete(ml: Level, r: RulesResult, conflicts: seq<Conflict>)
    ensures forall i | 0 <= i < |r.violations| ::
              Actionable(r.violations[i]) ==> Rendered(r.violations[i]) in HybridRecommendations(ml, r, conflicts)
    ensures |conflicts| > 0 ==> ConflictNote in HybridRecommendations(ml, r, conflicts)
    ensures ml == High ==> HighRiskNote in HybridRecommendations(ml, r, conflicts)
  {
    var vs := r.violations;
    KeptIff(vs, Actionable, Rendered);
    forall i | 0 <= i < |vs| && Actionable(vs[i])
      ensures Rendered(vs[i]) in HybridRecommendations(ml, r, conflicts)
    {
      HybridRecommendationsMembers(ml, r, conflicts, Rendered(vs[i]));
    }
    HybridRecommendationsMembers(ml, r, conflicts, ConflictNote);
    HybridRecommendationsMembers(ml, r, conflicts, HighRiskNote);
  }

  /** Nothing but the rendered violations and the two notes is recommended. */
  lemma HybridRecommendationsSound(ml: Level, r: RulesResult, conflicts: seq<Conflict>)
    ensures forall x | x in HybridRecommendations(ml, r, conflicts) ::
              x == ConflictNote || x == HighRiskNote ||
              exists i | 0 <= i < |r.violations| :: x == Rendered(r.violations[i])
  {
    KeptIff(r.violations, Actionable, Rendered);
    forall x | x in HybridRecommendations(ml, r, conflicts)
      ensures x == ConflictNote || x == HighRiskNote || exists i | 0 <= i < |r.violations| :: x == Rendered(r.violations[i])
    {
      HybridRecommendationsMembers(ml, r, conflicts, x);
    }
  }

  datatype HybridDecision = HybridDecision(
    mlLevel: Level,
    mlScore: real,
    rules: RulesResult,
    finalLevel: Level,
    finalScore: real,
    rationale: Rationale,
    conflicts: seq<Conflict>,
    recommendations: seq<string>)

  class HybridDecisionEngine {
    const rulesEngine: ClinicalRulesEngine
    const combine: CombineMethod

    constructor(rulesEngine: ClinicalRulesEngine)
      ensures this.rulesEngine == rulesEngine
      ensures combine == ParseCombineMethod(rulesEngine.config.combineMethod)
    {
      this.rulesEngine := rulesEngine;
      combine := ParseCombineMethod(rulesEngine.config.combineMethod);
    }

    /** `make_decision`: run the rules, combine with the ML prediction, and collect the recommendations. */
    method MakeDecision(p: Snapshot, ml: Level, mlScore: real) returns (d: HybridDecision)
      modifies rulesEngine
      ensures FindingsOf(d.rules.violations) == AllFindings(rulesEngine.tables, rulesEngine.config.categories, p)
      ensures rulesEngine.ruleCounter == old(rulesEngine.ruleCounter) + |d.rules.violations|
      ensures var c := CombineDecisions(ml, mlScore, d.rules, combine);
              d.finalLevel == c.level && d.finalScore == c.score &&
              d.rationale == c.rationale && d.conflicts == c.conflicts
      ensures d.recommendations == HybridRecommendations(ml, d.rules, d.conflicts)
      ensures d.mlLevel == ml && d.mlScore == mlScore
    {
      var rr := rulesEngine.RunAllChecks(p);
      var c := CombineDecisions(ml, mlScore, rr, combine);
      d := HybridDecision(ml, mlScore, rr, c.level, c.score, c.rationale, c.conflicts,
                          HybridRecommendations(ml, rr, c.conflicts));
    }
  }
}
