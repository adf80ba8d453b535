/**
 * The explainer's post-processing (ml/explainer.py): choosing the top
 * factors of a contribution table by absolute contribution, the narrative
 * built from them, and the chart data. The contributions themselves (SHAP
 * or LIME) are inputs.
 */
module Explainer {
  import opened Common
  import Ranking

  function Abs(x: real): (r: real)
    ensures r >= 0.0 && (r == x || r == -x)
  {
    if x < 0.0 then -x else x
  }

  // ---------------------------------------------------------------------
  // Factors
  // ---------------------------------------------------------------------

  datatype Direction = IncreasesRisk | DecreasesRisk

  datatype FeatureContribution = FeatureContribution(
    featureName: string, displayName: string, value: real, contribution: real, direction: Direction)

  /** FEATURE_DISPLAY_NAMES. */
  const FeatureDisplayNames: map<string, string> := map[
    "age" := "Patient Age",
    "heart_rate" := "Heart Rate",
    "blood_pressure_systolic" := "Systolic Blood Pressure",
    "blood_pressure_diastolic" := "Diastolic Blood Pressure",
    "temperature" := "Body Temperature",
    "respiratory_rate" := "Respiratory Rate",
    "oxygen_saturation" := "Oxygen Saturation (SpO2)",
    "symptom_count" := "Number of Symptoms",
    "num_medications" := "Number of Medications",
    "fever" := "Fever Present",
    "cough" := "Cough Present",
    "fatigue" := "Fatigue Present",
    "chest_pain" := "Chest Pain",
    "shortness_of_breath" := "Difficulty Breathing",
    "confusion" := "Confusion/Altered Mental State",
    "blood_sugar" := "Blood Sugar Level",
    "pain_score" := "Pain Score",
    "consciousness_gcs" := "Glasgow Coma Scale"
  ]

  /** The table's display name, else the humanised feature name. */
  function DisplayName(name: string): string
  {
    if name in FeatureDisplayNames then FeatureDisplayNames[name] else Humanize(name)
  }

  /** One factor: display name, the feature's value (0 when unknown), and its direction. */
  function MakeFactor(item: (string, real), values: map<string, real>): (f: FeatureContribution)
    ensures f.featureName == item.0 && f.contribution == item.1
    ensures f.direction == IncreasesRisk <==> item.1 > 0.0
    ensures f.value == if item.0 in values then values[item.0] else 0.0
    ensures item.0 in FeatureDisplayNames ==> f.displayName == FeatureDisplayNames[item.0]
    ensures item.0 !in FeatureDisplayNames ==> f.displayName == Humanize(item.0)
  {
    FeatureContribution(
      item.0, DisplayName(item.0), if item.0 in values then values[item.0] else 0.0, item.1,
      if item.1 > 0.0 then IncreasesRisk else DecreasesRisk)
  }

  /** The sort key: the absolute contribution (a constant second component). */
  function AbsKeys(contributions: seq<(string, real)>): (keys: seq<Ranking.Key>)
    ensures |keys| == |contributions|
    ensures forall i | 0 <= i < |contributions| :: keys[i] == (Abs(contributions[i].1), 0.0)
  {
    seq(|contributions|, i requires 0 <= i < |contributions| => (Abs(contributions[i].1), 0.0))
  }

  /** The positions `sorted(..., key=abs, reverse=True)[:n]` keeps, in output order. */
  function TopOrder(contributions: seq<(string, real)>, n: nat): (order: seq<nat>)
    ensures |order| == if n < |contributions| then n else |contributions|
    ensures forall p | 0 <= p < |order| :: order[p] < |contributions|
  {
    var all := Ranking.Rank(AbsKeys(contributions), |contributions|);
    assert forall p | 0 <= p < |all| :: all[p] in all;
    all[..if n < |all| then n else |all|]
  }

  /** `_get_top_factors`. */
  function TopFactors(contributions: seq<(string, real)>, values: map<string, real>, n: nat): (r: seq<FeatureContribution>)
    ensures |r| == |TopOrder(contributions, n)|
    ensures forall p | 0 <= p < |r| :: r[p] == MakeFactor(contributions[TopOrder(contributions, n)[p]], values)
  {
    var order := TopOrder(contributions, n);
    seq(|order|, p requires 0 <= p < |order| => MakeFactor(contributions[order[p]], values))
  }

  /** `_get_top_factors` as written: sort once, then append one factor per kept position. */
  method GetTopFactors(contributions: seq<(string, real)>, values: map<string, real>, n: nat)
    returns (factors: seq<FeatureContribution>)
    ensures factors == TopFactors(contributions, values, n)
  {
    var order := TopOrder(contributions, n);
    factors := [];
    for p := 0 to |order|
      invariant |factors| == p
      invariant forall q | 0 <= q < p :: factors[q] == MakeFactor(contributions[order[q]], values)
    {
      factors := factors + [MakeFactor(contributions[order[p]], values)];
    }
  }

  /**
   * At most n factors come out, each kept position once; they are ordered by
   * non-increasing absolute contribution with equal ones in input order, and
   * no left-out contribution is larger in absolute value than a kept one.
   */
  lemma TopFactorsSelect(contributions: seq<(string, real)>, values: map<string, real>, n: nat)
    ensures var r := TopFactors(contributions, values, n);
      |r| <= n && |r| <= |contributions| && (|r| < n ==> |r| == |contributions|)
    ensures var order := TopOrder(contributions, n);
      forall p, q | 0 <= p < q < |order| :: order[p] != order[q]
        && Abs(contributions[order[p]].1) >= Abs(contributions[order[q]].1)
        && (Abs(contributions[order[p]].1) == Abs(contributions[order[q]].1) ==> order[p] < order[q])
    ensures var order := TopOrder(contributions, n);
      forall x, p | 0 <= x < |contributions| && x !in order && 0 <= p < |order| ::
        Abs(contributions[x].1) <= Abs(contributions[order[p]].1)
  {
    var keys := AbsKeys(contributions);
    var all := Ranking.Rank(keys, |contributions|);
    var order := TopOrder(contributions, n);
    assert order == all[..|order|];
    Ranking.RankedNoDup(keys, all);
    forall p, q | 0 <= p < q < |order|
      ensures Abs(contributions[order[p]].1) >= Abs(contributions[order[q]].1)
      ensures Abs(contributions[order[p]].1) == Abs(contributions[order[q]].1) ==> order[p] < order[q]
    {
      Ranking.RankedDescending(keys, all, p, q);
    }
    forall x, p | 0 <= x < |contributions| && x !in order && 0 <= p < |order|
      ensures Abs(contributions[x].1) <= Abs(contributions[order[p]].1)
    {
      assert x in all;
      var q :| 0 <= q < |all| && all[q] == x;
      Ranking.RankedDescending(keys, all, p, q);
    }
  }

  // ---------------------------------------------------------------------
  // Narrative
  // ---------------------------------------------------------------------

  /** The narrative's parts; the `.1f` rendering of a factor's value is not modelled. */
  datatype Part =
    | Opening(riskLevel: string)
    | IncreasingHeader
    | DecreasingHeader
    | FactorLine(displayName: string, value: real)
    | MethodNote(technique: string)

  datatype Narrative = Unable(sentence: string) | Parts(parts: seq<Part>)

  /** The factors with direction `d`, in order. */
  function WithDirection(fs: seq<FeatureContribution>, d: Direction): seq<FeatureContribution>
  {
    if |fs| == 0 then []
    else WithDirection(fs[..|fs| - 1], d) + (if fs[|fs| - 1].direction == d then [fs[|fs| - 1]] else [])
  }

  lemma WithDirectionSnoc(init: seq<FeatureContribution>, last: FeatureContribution, d: Direction)
    ensures WithDirection(init + [last], d) == WithDirection(init, d) + (if last.direction == d then [last] else [])
  {
    assert (init + [last])[..|init|] == init;
  }

  /** Splitting by direction loses and adds no factor. */
  lemma {:induction false} DirectionsPartition(fs: seq<FeatureContribution>)
    ensures multiset(WithDirection(fs, IncreasesRisk)) + multiset(WithDirection(fs, DecreasesRisk)) == multiset(fs)
  {
    if |fs| > 0 {
      var init := fs[..|fs| - 1];
      var last := fs[|fs| - 1];
      assert fs == init + [last];
      DirectionsPartition(init);
      WithDirectionSnoc(init, last, IncreasesRisk);
      WithDirectionSnoc(init, last, DecreasesRisk);
      var up := WithDirection(init, IncreasesRisk);
      var down := WithDirection(init, DecreasesRisk);
      assert multiset(fs) == multiset(init) + multiset{last};
      if last.direction == IncreasesRisk {
        assert WithDirection(fs, DecreasesRisk) == down + [] == down;
        assert multiset(up + [last]) == multiset(up) + multiset{last};
      } else {
        assert WithDirection(fs, IncreasesRisk) == up + [] == up;
        assert multiset(down + [last]) == multiset(down) + multiset{last};
      }
    }
  }

  function Lines(fs: seq<FeatureContribution>): (r: seq<Part>)
    ensures |r| == |fs|
    ensures forall i | 0 <= i < |fs| :: r[i] == FactorLine(fs[i].displayName, fs[i].value)
  {
    seq(|fs|, i requires 0 <= i < |fs| => FactorLine(fs[i].displayName, fs[i].value))
  }

  /** A headed section, or nothing for no factors. */
  function Section(header: Part, fs: seq<FeatureContribution>): seq<Part>
  {
    if |fs| == 0 then [] else [header] + Lines(fs)
  }

  function UnableSentence(riskLevel: string): string
  {
    "Unable to determine the specific factors contributing to the " + riskLevel + " risk classification."
  }

  /** The factor lines of a part list, in order. */
  function FactorLines(ps: seq<Part>): seq<Part>
  {
    if |ps| == 0 then []
    else FactorLines(ps[..|ps| - 1]) + (if ps[|ps| - 1].FactorLine? then [ps[|ps| - 1]] else [])
  }

  lemma {:induction false} FactorLinesConcat(a: seq<Part>, b: seq<Part>)
    ensures FactorLines(a + b) == FactorLines(a) + FactorLines(b)
    decreases |b|
  {
    if |b| > 0 {
      var ab := a + b;
      assert ab[..|ab| - 1] == a + b[..|b| - 1];
      assert ab[|ab| - 1] == b[|b| - 1];
      FactorLinesConcat(a, b[..|b| - 1]);
    } else {
      assert a + b == a;
    }
  }

  lemma {:induction false} FactorLinesOfLines(fs: seq<FeatureContribution>)
    ensures FactorLines(Lines(fs)) == Lines(fs)
  {
    if |fs| > 0 {
      assert Lines(fs)[..|fs| - 1] == Lines(fs[..|fs| - 1]);
      FactorLinesOfLines(fs[..|fs| - 1]);
    }
  }

  lemma FactorLinesOfSection(header: Part, fs: seq<FeatureContribution>)
    requires !header.FactorLine?
    ensures FactorLines(Section(header, fs)) == Lines(fs)
  {
    if |fs| > 0 {
      FactorLinesConcat([header], Lines(fs));
      FactorLinesOfLines(fs);
      assert FactorLines([header]) == FactorLines([]) + [];
    }
  }

  lemma LinesConcat(a: seq<FeatureContribution>, b: seq<FeatureContribution>)
    ensures Lines(a + b) == Lines(a) + Lines(b)
  {
  }

  /** The part list with its two sections. */
  function NarrativeParts(fs: seq<FeatureContribution>, riskLevel: string, technique: string): seq<Part>
  {
    [Opening(riskLevel)]
    + Section(IncreasingHeader, WithDirection(fs, IncreasesRisk))
    + Section(DecreasingHeader, WithDirection(fs, DecreasesRisk))
    + [MethodNote(technique)]
  }

  /** `_generate_narrative`. */
  function NarrativeOf(fs: seq<FeatureContribution>, riskLevel: string, technique: string): (n: Narrative)
    ensures n.Unable? <==> |fs| == 0
    ensures n.Unable? ==> n.sentence == UnableSentence(riskLevel)
  {
    if |fs| == 0 then Unable(UnableSentence(riskLevel)) else Parts(NarrativeParts(fs, riskLevel, technique))
  }

  /** Without factors the narrative is the fixed sentence; otherwise it opens with the risk level and closes with the method. */
  lemma NarrativeEnds(fs: seq<FeatureContribution>, riskLevel: string, technique: string)
    ensures NarrativeOf(fs, riskLevel, technique).Unable? <==> |fs| == 0
    ensures |fs| == 0 ==> NarrativeOf(fs, riskLevel, technique).sentence == UnableSentence(riskLevel)
    ensures var ps := NarrativeParts(fs, riskLevel, technique);
      ps[0] == Opening(riskLevel) && ps[|ps| - 1] == MethodNote(technique)
  {
  }

  /**
   * The narrative has a line for every increasing factor, then one for every
   * decreasing factor, each group in input order.
   */
  lemma NarrativeFactorOrder(fs: seq<FeatureContribution>, riskLevel: string, technique: string)
    ensures FactorLines(NarrativeParts(fs, riskLevel, technique))
      == Lines(WithDirection(fs, IncreasesRisk) + WithDirection(fs, DecreasesRisk))
  {
    var up := WithDirection(fs, IncreasesRisk);
    var down := WithDirection(fs, DecreasesRisk);
    var opening := [Opening(riskLevel)];
    var x := opening + Section(IncreasingHeader, up);
    var y := x + Section(DecreasingHeader, down);
    var z := y + [MethodNote(technique)];
    assert NarrativeParts(fs, riskLevel, technique) == z;
    FactorLinesConcat(opening, Section(IncreasingHeader, up));
    FactorLinesConcat(x, Section(DecreasingHeader, down));
    FactorLinesConcat(y, [MethodNote(technique)]);
    FactorLinesOfSection(IncreasingHeader, up);
    FactorLinesOfSection(DecreasingHeader, down);
    assert FactorLines(opening) == [];
    assert FactorLines([MethodNote(technique)]) == [];
    assert FactorLines(x) == Lines(up);
    assert FactorLines(y) == Lines(up) + Lines(down);
    LinesConcat(up, down);
  }

  /** `_generate_narrative` as written: the opening, each section by append, the method note. */
  method GenerateNarrative(fs: seq<FeatureContribution>, riskLevel: string, technique: string) returns (n: Narrative)
    ensures n == NarrativeOf(fs, riskLevel, technique)
  {
    if |fs| == 0 {
      return Unable(UnableSentence(riskLevel));
    }
    var parts := [Opening(riskLevel)];
    parts := AppendSection(parts, IncreasingHeader, WithDirection(fs, IncreasesRisk));
    parts := AppendSection(parts, DecreasingHeader, WithDirection(fs, DecreasesRisk));
    parts := parts + [MethodNote(technique)];
    n := Parts(parts);
  }

  /** A header and one line per factor, or nothing for no factors. */
  method AppendSection(parts: seq<Part>, header: Part, fs: seq<FeatureContribution>) returns (r: seq<Part>)
    ensures r == parts + Section(header, fs)
  {
    r := parts;
    if |fs| > 0 {
      r := r + [header];
      for i := 0 to |fs|
        invariant r == parts + [header] + Lines(fs[..i])
      {
        assert Lines(fs[..i + 1]) == Lines(fs[..i]) + [FactorLine(fs[i].displayName, fs[i].value)];
        r := r + [FactorLine(fs[i].displayName, fs[i].value)];
      }
      assert fs[..|fs|] == fs;
    }
  }

  // ---------------------------------------------------------------------
  // Chart data
  // ---------------------------------------------------------------------

  datatype Explanation = Explanation(riskLevel: string, topFactors: seq<FeatureContribution>)

  datatype ChartData =
    | NoChart
    | Chart(labels: seq<string>, values: seq<real>, colors: seq<string>, title: string)

  const Red: string := "#dc3545"
  const Green: string := "#28a745"

  /** `get_feature_importance_chart_data`. */
  function ChartDataOf(e: Option<Explanation>): (c: ChartData)
    ensures c.NoChart? <==> e.None? || |e.value.topFactors| == 0
    ensures c.Chart? ==>
      var fs := e.value.topFactors;
      |c.labels| == |fs| && |c.values| == |fs| && |c.colors| == |fs|
      && forall i | 0 <= i < |fs| ::
        c.labels[i] == fs[i].displayName && c.values[i] == fs[i].contribution
        && (c.colors[i] == Red <==> c.values[i] > 0.0) && (c.colors[i] == Red || c.colors[i] == Green)
  {
    if e.None? || |e.value.topFactors| == 0 then NoChart
    else
      var fs := e.value.topFactors;
      var values := seq(|fs|, i requires 0 <= i < |fs| => fs[i].contribution);
      Chart(
        seq(|fs|, i requires 0 <= i < |fs| => fs[i].displayName),
        values,
        seq(|values|, i requires 0 <= i < |values| => if values[i] > 0.0 then Red else Green),
        "Top Factors Contributing to " + e.value.riskLevel + " Risk")
  }

  /** Charting the top factors colours a bar red exactly for a factor that increases risk. */
  lemma ChartColoursFollowDirection(contributions: seq<(string, real)>, values: map<string, real>, n: nat, riskLevel: string)
    ensures var fs := TopFactors(contributions, values, n);
      var c := ChartDataOf(Some(Explanation(riskLevel, fs)));
      c.Chart? ==> forall i | 0 <= i < |fs| :: c.colors[i] == Red <==> fs[i].direction == IncreasesRisk
  {
  }
}
