# CDSS decision layer in Dafny

This project models the decision layer of a clinical decision support system
(CDSS): the deterministic code that sits between an opaque risk classifier
and the user interface, and turns a patient record plus a predicted risk
class into scores, levels, safety findings, prioritised alerts and
explanations. Each source file of that layer is one Dafny module:

- `MultiRisk` (`multi_risk_engine.dfy`): the four per-category scorers
  (medication error, disease progression, adverse event, readmission), the
  drug-interaction scan, the vital-sign assessment, score-to-level mapping,
  the three aggregation policies, the summary and `predict_all_risks`.
- `Rules` (`rules_engine.dfy`): the clinical rules engine as a class whose
  rule-id counter advances once per finding; the five rule families (drug
  interactions, critical vitals, age bands, contraindications,
  allergy/cross-reactivity), the result record with its summary precedence,
  and the hybrid engine that combines the ML verdict with the findings under
  the `conservative`, `liberal` and `ml_priority` policies.
- `Alerts` (`alert_prioritization.dfy`): the smart alert engine as a class
  with a bounded alert history, a per-key last-seen cache, per-key
  consecutive counts and a feedback log; base priority, fatigue and ICU
  adjustment, suppression, acknowledgement, feedback, fatigue metrics,
  active alerts and clearing old alerts.
- `Classifier` (`risk_classifier.dfy`): the probability vector to risk
  assessment mapping and the history-keeping alert engine.
- `Validators`, `InputForm`, `Preprocessing`: the three input validators and
  the vital-status classifier of the input form.
- `Fhir` (`fhir_converter.dfy`): bundle sorting, the FHIR R4 condition
  keyword mapping, age in whole years, symptom inference, the LOINC
  observation-code round trip and the flattening to the CDSS input record.
- `Encoder` (`feature_encoder.dfy`): feature names, labels and the clamped
  feature vector.
- `Explainer` (`explainer.dfy`): top-k factor selection by absolute
  contribution, the narrative and the chart data.
- `GenerateData` (`generate_data.dfy`): the clipped synthetic risk score and
  its three-way label.
- Shared modules: `Common` (Option/Result, ASCII lower-casing, substring,
  order-preserving de-duplication), `Clinical` (levels, vitals, symptoms,
  conditions, the patient snapshot), `CdssConfig` (the default tables of
  `cdss_config.py`) and `Ranking` (the stable descending sort that Python's
  `sorted(..., reverse=True)` performs).

Scores, weights and vitals are exact `real`s. A patient record is a
`Snapshot` datatype whose optional fields carry each `.get(key, default)`
default explicitly. Time is an explicit `now: int` (seconds) or `today: Date`
parameter, and alert ids come from a counter.

## Model

| member | source | states |
|---|---|---|
| Clinical.LevelOfIndex | cdss_config.py:37-41 | a class index names a level iff it is 0, 1 or 2, and the level's rank is that index |
| Clinical.LevelIndexRoundTrip | ml/risk_classifier.py:58-59 | the enum value of a level maps back to the same level, and distinct levels have distinct labels |
| Clinical.VocabularyComplete | cdss_config.py:51-64 | the symptom list has the 12 symptoms and the condition list the 9 conditions other than 'none', each exactly once |
| Clinical.CountSymptomsZero | app/utils/validators.py:117 | the symptom count is 0 iff none of the listed symptoms is present |
| CdssConfig.ParseAggregation | ml/multi_risk_engine.py:518-541 | "weighted_avg" and "weighted_max" select their policy, and every other name falls back to the highest-score policy |
| CdssConfig.DefaultMultiRiskWellFormed | cdss_config.py:296-335 | the shipped configuration has an entry for every category, non-negative weights and the weighted_max policy |
| Common.Dedup | ml/rules_engine.py:577 | the result has no duplicates and the same members as the input, and is no longer |
| Common.DedupKeepsOrder | ml/rules_engine.py:577 | the first occurrences keep their relative order |
| Common.DedupNoDup | ml/rules_engine.py:577 | a list without duplicates is returned unchanged |
| Common.LowerIdempotent | ml/multi_risk_engine.py:442 | lower-casing leaves no upper-case letter and is idempotent |
| Common.Humanize | ml/explainer.py:329 | the length is kept; an underscore becomes a space; other non-letters are kept; a letter that starts a word is upper-case and any other letter lower-case (`replace('_', ' ').title()`) |
| Common.TitleCases | ml/explainer.py:329 | title-casing keeps the length and the non-letters, upper-cases each word's first letter and lower-cases the rest |
| Common.DecimalDigitsRoundTrip | ml/rules_engine.py:110 | the decimal rendering of a number is all digits and reads back as that number |
| Common.LeadingZeros | ml/rules_engine.py:110 | zero padding keeps a digit string's value |
| Ranking.Rank | ml/explainer.py:320-325 | the sort order of the first n keys lists each index below n exactly once and is ranked: descending keys, ties in input order |
| Ranking.RankedDescending | ml/explainer.py:320-325 | in a ranked order no later key is greater, and equal keys keep input order (a stable sort) |
| Ranking.RankedNoDup | ml/explainer.py:320-325 | a ranked order lists no index twice |
| Classifier.DefaultAlertLevels | config.py:179-183 | with the shipped alert settings Low does not alert and Medium and High do |
| Classifier.ShowAlert | ml/risk_classifier.py:100-107 | an alert is shown iff the level's show flag (low, medium or high) is set |
| Classifier.MessageHead | ml/risk_classifier.py:114-116 | each level's message opens with the level's name: "Low", "MEDIUM", "HIGH" |
| Classifier.AlertMessage | ml/risk_classifier.py:109-119 | the message starts with its level's fixed head, before the percentage |
| Classifier.HighMessageSaysHigh | ml/risk_classifier.py:116 | the High alert message contains "HIGH" |
| Classifier.RiskScoreBounds | ml/risk_classifier.py:62-66 | for a probability vector the score lies in [0,1]; [0,0,1] gives 1 and [1,0,0] gives 0 |
| Classifier.Classify | ml/risk_classifier.py:46-99 | an out-of-range class or a short vector is an error (as Python's lookups raise); otherwise the level's rank is the class, the label its name, the score 0.5·p1 + p2, the confidence p[class], and message and recommendations are present iff the alert is shown, and are then the level's message and recommendations |
| Classifier.HighClassificationSaysHigh | ml/risk_classifier.py:75-83 | a High classification under settings that show High carries a message containing "HIGH" |
| Classifier.LevelRecommendations | ml/risk_classifier.py:122-148 | every level has at least one recommendation |
| Classifier.Logged | ml/risk_classifier.py:195-201 | the history grows by exactly one record iff the assessment is shown, and is unchanged otherwise |
| Classifier.CountLabelsBounded | ml/risk_classifier.py:210-214 | the High and Medium counts together never exceed the total |
| Classifier.Statistics | ml/risk_classifier.py:205-214 | the empty-history answer is given iff the history is empty; otherwise the total is the history length, the High and Medium counts are the numbers of records with those labels, and together they never exceed the total |
| Classifier.AlertEngine.GetAlertStatistics | ml/risk_classifier.py:205-214 | the engine's answer: empty iff no alert was logged; otherwise the history length and the per-label counts of its history |
| Classifier.DefaultLogging | ml/risk_classifier.py:101-108 | with the shipped settings class 0 is never logged and classes 1 and 2 are logged as Medium and High |
| Classifier.LoggedCounts | ml/risk_classifier.py:195-214 | logging one assessment raises the count of its label by one iff it is shown |
| Classifier.ThreePredictions | ml/risk_classifier.py:179-214 | after a High, an unshown Low and a Medium prediction the statistics are total 2, high 1, medium 1 |
| Classifier.AlertEngine.constructor | ml/risk_classifier.py:175-177 | a new engine has an empty history |
| Classifier.AlertEngine.ProcessPrediction | ml/risk_classifier.py:179-203 | returns the classification and appends to the history exactly as Logged says |
| MultiRisk.ScoreToLevel | ml/multi_risk_engine.py:500-507 | High iff score ≥ medium, Medium iff low ≤ score < medium, Low otherwise |
| MultiRisk.ScoreToLevelMonotone | ml/multi_risk_engine.py:500-507 | a higher score never gets a lower level when low ≤ medium |
| MultiRisk.MatchingMembers | ml/multi_risk_engine.py:444-451 | an entry is kept iff it is in the table and both its drugs occur in some lower-cased medication |
| MultiRisk.InteractionReportedIff | ml/multi_risk_engine.py:435-453 | an interaction is reported under its severity iff both drugs occur as substrings of lower-cased medications; no medications give an empty report |
| MultiRisk.ScanInteractions | ml/multi_risk_engine.py:444-451 | the loop collects exactly the matching table entries, in table order |
| MultiRisk.CheckDrugInteractions | ml/multi_risk_engine.py:435-453 | the report equals the specification InteractionsIn |
| MultiRisk.Finish | ml/multi_risk_engine.py:215-218 | the capped score lies in [0,1], equals the sum when it is at most 1, and its level is ScoreToLevel of the capped score; the recommendations are the category's list for that level |
| MultiRisk.HighRiskMeds | ml/multi_risk_engine.py:207-212 | a medication is kept iff it is one of the patient's and its lower-cased name contains a high-risk name; no more than the medications |
| MultiRisk.MedicationErrorRisk | ml/multi_risk_engine.py:161-230 | score in [0,1], level from the thresholds, confidence 0.75 |
| MultiRisk.VitalDeviations | ml/multi_risk_engine.py:469-477 | 0.10 per factor, at most one factor per range, and every factor is a low or elevated reading |
| MultiRisk.DeviationsLowIff | ml/multi_risk_engine.py:469-477 | a low factor for a vital and reading is listed iff some range for that vital has the reading present and strictly below its low end |
| MultiRisk.DeviationsHighIff | ml/multi_risk_engine.py:469-477 | an elevated factor is listed iff some range for that vital has the reading present, not below its low end and strictly above its high end |
| MultiRisk.CheckedLowDeviations | ml/multi_risk_engine.py:459-477 | for the six checked ranges, a low factor is listed iff the vital is present and below its normal range |
| MultiRisk.CheckedHighDeviations | ml/multi_risk_engine.py:459-477 | for the six checked ranges, an elevated factor is listed iff the vital is present and above its normal range |
| MultiRisk.CheckedRangesOrdered | ml/multi_risk_engine.py:460-467 | every checked normal range has its low end at or below its high end |
| MultiRisk.AssessVitals | ml/multi_risk_engine.py:455-484 | 0.10 per factor plus 0.15 iff SpO2 < 92, at most 0.75 in all; a low (elevated) factor is listed iff that vital is present and below (above) its normal range, and there are no other factors |
| MultiRisk.CriticalSymptomSteps | ml/multi_risk_engine.py:261-266 | 0.15 per critical symptom present |
| MultiRisk.ConditionsStep | ml/multi_risk_engine.py:268-274 | 0.08 per condition flag, capped at 0.30 |
| MultiRisk.DiseaseProgressionRisk | ml/multi_risk_engine.py:232-294 | score in [0,1], level from the thresholds, confidence 0.80 |
| MultiRisk.CriticalVitalsLowIff | ml/multi_risk_engine.py:486-498 | a present vital yields a critical-low entry iff it is strictly below its critical_low |
| MultiRisk.NoLowFromOtherVitals | ml/multi_risk_engine.py:486-498 | a vital without a rule never yields a critical entry |
| MultiRisk.AdverseEventRisk | ml/multi_risk_engine.py:296-354 | score in [0,1], level from the thresholds, confidence 0.70 |
| MultiRisk.ReadmissionRisk | ml/multi_risk_engine.py:356-433 | score in [0,1], level from the thresholds, confidence 0.75 |
| MultiRisk.ReadmissionWorkedExample | ml/multi_risk_engine.py:379-424 | age 80, three chronic conditions with heart disease and 12 medications score 0.35 + 0.20 + 0.15 + 0.10 = 0.80, High |
| MultiRisk.MedicationErrorScenario | ml/multi_risk_engine.py:179-215 | age 80 with 12 medications and no medication list scores 0.35 + 0.15 = 0.50, Medium |
| MultiRisk.Aggregate | ml/multi_risk_engine.py:509-544 | no results give (0.0, Low); otherwise the level is ScoreToLevel of the overall score |
| MultiRisk.AggregateRisks | ml/multi_risk_engine.py:509-544 | the loops compute Aggregate |
| MultiRisk.SumWeights | ml/multi_risk_engine.py:522-527 | the loop computes the total weight and the weighted sum |
| MultiRisk.LargestBoosted | ml/multi_risk_engine.py:532-536 | the loop computes the largest weight-boosted score |
| MultiRisk.LargestScore | ml/multi_risk_engine.py:541 | the loop computes the largest score |
| MultiRisk.MaxBoostedBounds | ml/multi_risk_engine.py:530-537 | the boosted maximum is non-negative and at least every score when scores are in [0,1] |
| MultiRisk.MaxScoreIsMax | ml/multi_risk_engine.py:541 | the maximum score is at least every score and is one of them |
| MultiRisk.WeightedSumBounds | ml/multi_risk_engine.py:520-528 | scores within [lo,hi] give a weighted sum between lo and hi times the total weight |
| MultiRisk.WeightedMaxBounds | ml/multi_risk_engine.py:530-537 | weighted_max lies in [0,1] and is at least every score |
| MultiRisk.HighestIsMaximum | ml/multi_risk_engine.py:539-541 | highest equals some score and is at least every score |
| MultiRisk.WeightedAvgBetween | ml/multi_risk_engine.py:520-528 | with positive total weight, weighted_avg lies between any bounds of the scores |
| MultiRisk.AggregateInUnit | ml/multi_risk_engine.py:509-544 | every policy keeps the overall score in [0,1] |
| MultiRisk.HighestIndex | ml/multi_risk_engine.py:140 | the chosen result has a maximal score and is the first such |
| MultiRisk.NamesAt | ml/multi_risk_engine.py:549-557 | a display name is listed iff some result at that level belongs to a category with that name; empty iff no result has the level |
| MultiRisk.ScoreCategory | ml/multi_risk_engine.py:124-134 | the result is for the requested category, with its score in [0,1] and the level of that score |
| MultiRisk.GenerateSummary | ml/multi_risk_engine.py:546-559 | HIGH iff some category is High; MODERATE iff none is High and some is Medium; otherwise LOW; a non-LOW summary names at least one category |
| MultiRisk.EnabledCategoriesMembers | ml/multi_risk_engine.py:124-134 | a category is scored iff it is enabled |
| MultiRisk.NoneEnabled | ml/multi_risk_engine.py:124-134 | the result map is empty iff no category is enabled |
| MultiRisk.EnabledResults | ml/multi_risk_engine.py:124-134 | one result per enabled category, in configuration order, each the scorer's result for that category, with its score in [0,1] |
| MultiRisk.Assess | ml/multi_risk_engine.py:137-159 | overall score and level are the aggregate, in [0,1]; the summary is the generated one; attention iff some category is High; the highest result is the first with the maximal score |
| MultiRisk.PredictAllRisks | ml/multi_risk_engine.py:105-159 | an error iff no category is enabled (max over an empty map raises); otherwise the results are the enabled scorers' results, with overall score and level the aggregate, the generated summary, the first maximal result as highest, attention iff some result is High, and the given patient id |
| Rules.RuleIdText | ml/rules_engine.py:107-110 | a rule id is the category prefix, a dash and a digit string zero-padded to at least four characters whose decimal value is the counter |
| Rules.FindingsOfAppend | ml/rules_engine.py:131-157 | the findings of concatenated violation lists concatenate |
| Rules.WellNumberedAppend | ml/rules_engine.py:107-110 | consecutively numbered lists concatenate to a consecutively numbered list |
| Rules.InteractionFindingsIff | ml/rules_engine.py:198-229 | a table entry yields a finding iff both its drugs are present |
| Rules.InteractionFindingsKind | ml/rules_engine.py:198-229 | severe entries give critical findings and moderate entries warnings |
| Rules.DrugFindingsAgreeWithRiskEngine | ml/rules_engine.py:183-231 | the rules engine reports an interaction iff the multi-risk engine's scan does |
| Rules.OnlyFirstInteraction | ml/rules_engine.py:198-212 | when only the first entry matches, exactly one finding results |
| Rules.NoInteractionFindings | ml/rules_engine.py:198-229 | when no entry has both drugs present there is no finding |
| Rules.MinorNeverFires | ml/rules_engine.py:195 | minor entries count toward the total but never change the findings |
| Rules.WarfarinAspirinIsSevere | ml/rules_engine.py:183-231 | ["warfarin 5mg", "aspirin 81mg"] yields exactly one finding, the severe warfarin/aspirin interaction |
| Rules.VitalFindings | ml/rules_engine.py:244-273 | at most two findings per rule, each a critical-low or critical-high finding |
| Rules.RuleFindingsLowIff | ml/rules_engine.py:251-261 | one rule reports a critical-low finding iff the reading is present and strictly below its low bound |
| Rules.RuleFindingsHighIff | ml/rules_engine.py:263-273 | one rule reports a critical-high finding iff the reading is present and strictly above its high bound |
| Rules.VitalFindingsLowIff | ml/rules_engine.py:244-273 | a critical-low finding is reported iff some rule for that vital has a low bound that the present reading is strictly below |
| Rules.VitalFindingsHighIff | ml/rules_engine.py:244-273 | a critical-high finding is reported iff some rule for that vital has a high bound that the present reading is strictly above |
| Rules.AbsentVitalSilent | ml/rules_engine.py:244-247 | an absent vital yields no finding |
| Rules.VitalFindingsAtMostOnePerRule | ml/rules_engine.py:244-273 | with critical_low ≤ critical_high, at most one finding per rule |
| Rules.LowOxygenIsCritical | ml/rules_engine.py:252-261 | SpO2 85 alone yields exactly the critical-low finding against 88 |
| Rules.PresentIff | ml/rules_engine.py:295-328 | a listed name is reported iff it occurs in some lower-cased medication |
| Rules.OnlyFirstPresent | ml/rules_engine.py:295-328 | when only the first listed name occurs, only it is reported |
| Rules.FindingsForMembers | ml/rules_engine.py:295-328 | each reported name gives one finding of its template |
| Rules.AgeCautionIff | ml/rules_engine.py:277-330 | an age caution is raised iff the age is known, there are medications, the band applies, and the listed medication is present |
| Rules.FallbackTotals | ml/rules_engine.py:288-289 | the age check counts 0 rules iff age or medications are missing, and the allergy check reports nothing and counts 1 when either list is empty |
| Rules.NoConditionNoContraindication | ml/rules_engine.py:332-374 | no flagged condition means no contraindication finding |
| Rules.ContraBlockIff | ml/rules_engine.py:340-373 | one condition's block reports a drug iff the condition is flagged and the drug is listed for it and present |
| Rules.ContraFindingsIff | ml/rules_engine.py:332-374 | a contraindication is reported iff some row for a flagged condition lists the drug and the drug occurs in some lower-cased medication |
| Rules.DirectFindingsIff | ml/rules_engine.py:403-414 | a direct allergy finding is raised iff allergy and medication contain one another |
| Rules.DirectRowIff | ml/rules_engine.py:405-414 | for one allergy, a medication gives a direct finding iff it is listed and matches the allergy |
| Rules.DirectRowOnly | ml/rules_engine.py:403-414 | a row raises only direct findings for its own allergy |
| Rules.PenicillinAmoxicillinCrossReacts | ml/rules_engine.py:394-429 | a penicillin allergy with "amoxicillin 500mg" raises no direct finding and exactly one cross-reactivity warning |
| Rules.CrossBlockIff | ml/rules_engine.py:416-429 | one class's block reports a drug iff some allergy contains the class and the drug is listed for it and present |
| Rules.CrossFindingsIff | ml/rules_engine.py:416-429 | a cross-reactivity warning is reported iff some lower-cased allergy contains a row's class and that row's drug occurs in some lower-cased medication |
| Rules.CountSeverity | ml/rules_engine.py:166-168 | the count is zero iff no violation has that severity |
| Rules.MakeResult | ml/rules_engine.py:159-181 | passed = total − violations; the flags hold iff a violation of that severity exists; the summary is all-clear iff there are no violations, critical first, then warnings, with the matching counts |
| Rules.PassRateBounds | ml/rules_engine.py:73-75 | pass rate is 1.0 with no rules, 1.0 iff all passed otherwise, and lies in [0,1] when 0 ≤ passed ≤ total |
| Rules.NoMinorSummary | ml/rules_engine.py:169-170 | every finding is critical or a warning, so the minor-issues summary never occurs |
| Rules.ClinicalRulesEngine.constructor | ml/rules_engine.py:103-105 | the engine takes its configuration and the default tables, and the counter starts at 0 |
| Rules.ClinicalRulesEngine.GenerateRuleId | ml/rules_engine.py:107-110 | the counter rises by one and the id carries the new value |
| Rules.ClinicalRulesEngine.Report | ml/rules_engine.py:107-110 | appending one violation consumes exactly one id and keeps the list consecutively numbered |
| Rules.ClinicalRulesEngine.ReportVital | ml/rules_engine.py:252-273 | one rule's critical-low and critical-high findings are appended, one id each |
| Rules.ClinicalRulesEngine.ScanInteractions | ml/rules_engine.py:198-229 | the loop reports exactly InteractionFindings, one id per finding |
| Rules.ClinicalRulesEngine.ScanNames | ml/rules_engine.py:295-328 | the loop reports one finding per present name, one id each |
| Rules.ClinicalRulesEngine.ScanVitals | ml/rules_engine.py:244-273 | the loop reports exactly VitalFindings, one id each |
| Rules.ClinicalRulesEngine.ScanContraindications | ml/rules_engine.py:344-372 | the loop reports exactly ContraFindings, one id each |
| Rules.ClinicalRulesEngine.ScanDirectRow | ml/rules_engine.py:405-414 | the inner loop reports exactly one allergy's direct findings, one id each |
| Rules.ClinicalRulesEngine.ScanDirect | ml/rules_engine.py:403-414 | the nested loops report exactly DirectFindings, one id each |
| Rules.ClinicalRulesEngine.ScanCross | ml/rules_engine.py:417-429 | the loops report exactly CrossFindings, one id each |
| Rules.ClinicalRulesEngine.CheckDrugInteractions | ml/rules_engine.py:183-231 | findings are DrugFindings, the total is the whole table size |
| Rules.ClinicalRulesEngine.CheckVitalAlerts | ml/rules_engine.py:233-275 | findings are VitalFindings, the total is twice the number of rules |
| Rules.ClinicalRulesEngine.CheckAgeSafety | ml/rules_engine.py:277-330 | findings are AgeFindings, with the fallback total |
| Rules.ClinicalRulesEngine.CheckContraindications | ml/rules_engine.py:332-374 | findings are ContraFindings over the inline table, the total its size |
| Rules.ClinicalRulesEngine.CheckAllergyRisks | ml/rules_engine.py:376-431 | findings are direct then cross-reactivity findings, with the fallback total |
| Rules.ClinicalRulesEngine.RunCheck | ml/rules_engine.py:127-157 | runs the chosen category's check: its findings and rule total |
| Rules.ClinicalRulesEngine.RunIfEnabled | ml/rules_engine.py:130-157 | a disabled category adds nothing; an enabled one adds its findings and total |
| Rules.ClinicalRulesEngine.RunChecks | ml/rules_engine.py:124-157 | the five enabled categories run in order, numbered consecutively |
| Rules.ClinicalRulesEngine.RunAllChecks | ml/rules_engine.py:114-181 | the result is MakeResult of all enabled findings and the summed total; the counter rises by the number of violations |
| Rules.ParseCombineMethod | ml/rules_engine.py:520-546 | "conservative" and "liberal" select their policy; every other name behaves as ml_priority |
| Rules.Adjustment | ml/rules_engine.py:505-511 | 0.4 with a critical finding, else 0.2 with a warning, else 0.1 with any finding, and 0 iff there is none |
| Rules.Conflicts | ml/rules_engine.py:513-517 | low-vs-critical iff ML says Low and a critical violation exists; high-vs-none iff ML says High and there are no violations |
| Rules.CombineDecisions | ml/rules_engine.py:493-555 | never lowers the ML level, nor the score when it is in [0,1]; critical findings give High except under ml_priority; conservative: critical gives max(score, 0.8), warnings with ML Low give Medium and max(score + 0.2, 0.4), otherwise the ML level and min(score + adjustment, 1.0); liberal: critical gives max(score, 0.7), otherwise pass-through; ml_priority passes through; conflicts are independent of the policy |
| Rules.KeptIff | ml/rules_engine.py:564-566 | every kept violation is rendered, and everything rendered comes from a violation |
| Rules.HybridRecommendations | ml/rules_engine.py:557-577 | the recommendations have no duplicates |
| Rules.HybridRecommendationsMembers | ml/rules_engine.py:557-577 | a recommendation appears iff it renders a critical or warning violation, is the conflict note when there are conflicts, or is the High note when ML says High |
| Rules.HybridRecommendationsComplete | ml/rules_engine.py:563-574 | every critical or warning violation is recommended, and so are the conflict and High notes when they apply |
| Rules.HybridRecommendationsSound | ml/rules_engine.py:557-577 | nothing else is recommended |
| Rules.HybridDecisionEngine.constructor | ml/rules_engine.py:443-451 | the policy is parsed from the engine's configuration |
| Rules.HybridDecisionEngine.MakeDecision | ml/rules_engine.py:453-491 | runs all checks, then level, score, rationale and conflicts are CombineDecisions and the recommendations HybridRecommendations |
| Alerts.PriorityOfValue | ml/alert_prioritization.py:21-27 | each value 1 to 4 names the priority of that value |
| Alerts.BasePriority | ml/alert_prioritization.py:166-189 | CRITICAL iff High with score ≥ 0.85; HIGH iff High below that or Medium ≥ 0.55; MEDIUM iff Medium below 0.55; LOW otherwise |
| Alerts.BasePriorityMonotone | ml/alert_prioritization.py:166-189 | a higher score or a higher risk level never lowers the base priority |
| Alerts.FatigueLevelOf | ml/alert_prioritization.py:354-362 | high iff per-hour ≥ threshold, elevated iff between 0.7×threshold and threshold, else normal |
| Alerts.FatigueLevelMonotone | ml/alert_prioritization.py:354-362 | more alerts per hour never lower the fatigue level |
| Alerts.AdjustPriority | ml/alert_prioritization.py:191-235 | CRITICAL iff the base is CRITICAL; in an ICU, CRITICAL stays and everything else becomes HIGH; otherwise never above the base; high fatigue sends MEDIUM and below to LOW; reaching the consecutive threshold lowers the post-fatigue priority by one step (HIGH under high fatigue becomes MEDIUM; without high fatigue a non-critical alert drops exactly one step, floor LOW); below the threshold and without that fatigue rule it is unchanged |
| Alerts.SuppressionKey | ml/alert_prioritization.py:106-109 | the key ends with ':' followed by the risk level |
| Alerts.SuppressionKeySeparatesLevels | ml/alert_prioritization.py:106-109 | two risk levels of one patient never share a key |
| Alerts.SuppressionKeyUnknown | ml/alert_prioritization.py:106-109 | a missing or empty patient id keys as "unknown" |
| Alerts.RecentByPriority | ml/alert_prioritization.py:342-346 | the four per-priority counts of the last hour sum to the alerts of the last hour |
| Alerts.Push | ml/alert_prioritization.py:92-94 | appending to the bounded history keeps at most the capacity, ends with the new alert and drops the oldest first |
| Alerts.NewerThan | ml/alert_prioritization.py:453-457 | exactly the alerts newer than the cutoff are kept |
| Alerts.NewerThanKeepsIds | ml/alert_prioritization.py:453-457 | clearing keeps ids increasing and below the next id |
| Alerts.Unsuppressed | ml/alert_prioritization.py:439-442 | exactly the alerts without a suppression reason are kept |
| Alerts.Suppression | ml/alert_prioritization.py:237-272 | a CRITICAL alert is never suppressed; suppressed for the interval iff the key was seen less than min_interval minutes ago; a LOW alert outside the interval is suppressed iff the last hour holds at least the allowed LOW alerts |
| Alerts.SuppressionCases | ml/alert_prioritization.py:253-259 | the first alert for a key is never time-suppressed, and a non-LOW first alert is not suppressed at all |
| Alerts.Metrics | ml/alert_prioritization.py:323-375 | the total is the history length; the per-hour count and each per-priority count are the numbers of alerts of the last hour (of that priority); suppressed and acknowledged are the numbers of such alerts; the per-priority counts sum to the per-hour count, which is at most the total; fatigue level thresholds as in FatigueLevelOf |
| Alerts.SmartAlertEngine.GetFatigueMetrics | ml/alert_prioritization.py:323-375 | the engine's metrics: total is its history length, the per-hour count its alerts of the last hour, and the level the fatigue level of that count |
| Alerts.SuppressionStatistics | ml/alert_prioritization.py:391-401 | suppressed is the number of suppressed alerts; suppressed + effective = total; the rate is suppressed/total, in [0,1], and 0 for an empty history |
| Alerts.SmartAlertEngine.GetSuppressionStatistics | ml/alert_prioritization.py:391-401 | the engine's statistics: total is its history length, suppressed its suppressed alerts, suppressed + effective = total, rate in [0,1] |
| Alerts.FirstWithIdUnique | ml/alert_prioritization.py:289-292 | the searched position is the first alert with that id |
| Alerts.Acknowledged | ml/alert_prioritization.py:287-292 | only the first alert with the id is flagged |
| Alerts.AcknowledgedTargets | ml/alert_prioritization.py:287-292 | an unknown id changes nothing; with increasing ids the alert with the id is flagged and every other is unchanged |
| Alerts.WithFeedback | ml/alert_prioritization.py:309-321 | an unknown id changes nothing; otherwise the first matching alert records the feedback and "not useful" adds 2 to its key's count |
| Alerts.ActiveAlerts | ml/alert_prioritization.py:428-447 | the result is a permutation of the (unsuppressed) history in the stable descending order of (priority, timestamp) |
| Alerts.ActiveAlertsOrdered | ml/alert_prioritization.py:444-445 | earlier active alerts have higher or equal priority, and among equal priorities a later or equal timestamp |
| Alerts.ActiveAlertsMembers | ml/alert_prioritization.py:439-442 | an alert is active iff it is in the history and unsuppressed |
| Alerts.SeenAfter | ml/alert_prioritization.py:459-463 | the cache keeps exactly the keys seen after the cutoff, with their times |
| Alerts.SmartAlertEngine.constructor | ml/alert_prioritization.py:90-97 | empty history, cache, counts and feedback log |
| Alerts.SmartAlertEngine.PrioritizeAlert | ml/alert_prioritization.py:111-164 | the alert has the adjusted priority and the suppression decision at one instant; it is pushed on the history, its key's cache entry set to now and its count raised by 1; nothing else changes |
| Alerts.SmartAlertEngine.NewAlert | ml/alert_prioritization.py:111-160 | the alert is built from base priority, fatigue, consecutive count and suppression of the current state |
| Alerts.SmartAlertEngine.RecordAlert | ml/alert_prioritization.py:274-285 | the alert is pushed, its key's cache entry set to its timestamp and its count raised by 1 |
| Alerts.SmartAlertEngine.AcknowledgeAlert | ml/alert_prioritization.py:287-292 | the history becomes Acknowledged and nothing else changes |
| Alerts.SmartAlertEngine.RegisterFeedback | ml/alert_prioritization.py:294-321 | the log always grows by the entry; history and counts become WithFeedback |
| Alerts.SmartAlertEngine.ClearOldAlerts | ml/alert_prioritization.py:449-463 | history and cache keep only entries newer than the cutoff; counts are untouched |
| Validators.ValidateAge | app/utils/validators.py:15-21 | valid iff 0 ≤ age ≤ 120, with the negative and above-120 messages |
| Validators.FirstBreachFails | app/utils/validators.py:33-74 | the single error names the first hard-range breach in the order heart rate, systolic < diastolic, temperature, SpO2, respiratory rate |
| Validators.InSoftWarnings | app/utils/validators.py:37-78 | a warning is issued iff one of the five vital groups issues it |
| Validators.SoftWarningsKinds | app/utils/validators.py:37-78 | at most six warnings, all vital warnings |
| Validators.SoftWarningsHeartRate | app/utils/validators.py:37-38 | heart-rate warning iff below 50 or above 120 |
| Validators.SoftWarningsPressure | app/utils/validators.py:47-51 | systolic warning iff > 180 or < 80; diastolic iff > 120 or < 50 |
| Validators.SoftWarningsTemperature | app/utils/validators.py:57-60 | fever iff > 38, hypothermia iff < 36 |
| Validators.SoftWarningsOxygen | app/utils/validators.py:66-69 | critical warning iff SpO2 < 92, plain warning iff 92 ≤ SpO2 < 95 |
| Validators.SoftWarningsRespiration | app/utils/validators.py:75-78 | high iff > 25, low iff < 10 |
| Validators.ValidateVitalSigns | app/utils/validators.py:24-80 | valid iff every reading (missing ones defaulted) is within the hard ranges; invalid returns the one first breach, valid returns the warnings |
| Validators.CheckReadings | app/utils/validators.py:33-80 | the same over explicit readings |
| Validators.ValidatePatientData | app/utils/validators.py:83-127 | valid iff no errors iff age in [0,120], gender known and vitals within hard ranges; vital messages go to errors when invalid and to warnings otherwise |
| Validators.CheckPersonal | app/utils/validators.py:96-103 | produces exactly the age and gender errors |
| Validators.AppendSymptomNotes | app/utils/validators.py:116-125 | the symptom notes are appended to the warnings |
| Validators.PersonalErrorsCases | app/utils/validators.py:96-103 | age and gender errors arise exactly on their conditions and are never vital errors |
| Validators.SymptomNotesCases | app/utils/validators.py:116-125 | six or more symptoms add the info note; two or more critical symptoms add the critical note |
| Validators.PresentSymptoms | app/utils/validators.py:144-145 | exactly the present symptoms, as many as the symptom count |
| Validators.PresentHistory | app/utils/validators.py:141-148 | exactly the conditions present in the history |
| Validators.DataSummaryOf | app/utils/validators.py:130-161 | symptom count equals the symptom list length; no conditions give ["None reported"] |
| Validators.DataSummaryListsSymptoms | app/utils/validators.py:144-145 | every present symptom is listed by its display name |
| Validators.DataSummaryNoConditions | app/utils/validators.py:141-142 | the condition count is 0 iff no condition is present |
| InputForm.GetVitalStatus | app/components/input_form.py:155-182 | the status follows the fixed precedence critical low, critical high, warning low, warning high, normal range, abnormal; absent keys skip their check |
| InputForm.StatusDisplay | app/components/input_form.py:164-182 | red iff critical, green iff normal, orange otherwise |
| InputForm.SeverityMonotone | app/components/input_form.py:155-182 | with nested thresholds, moving further from the normal range never lowers the severity |
| InputForm.BloodSugarBands | cdss_config.py:77-144 | blood-sugar readings fall in the expected bands of the shipped table |
| InputForm.MissingKeysSkip | app/components/input_form.py:164-177 | pain and GCS, which lack some thresholds, never reach those statuses |
| InputForm.BloodSugarNotes | app/components/input_form.py:375-381 | at most one blood-sugar message: < 50 and > 200 critical, otherwise outside [70,125] a warning |
| InputForm.PainNotes | app/components/input_form.py:387-391 | pain ≥ 8 critical, else ≥ 6 a warning |
| InputForm.GcsNotes | app/components/input_form.py:393-397 | GCS ≤ 8 critical, else ≤ 12 a warning |
| InputForm.AdvisoryMessages | app/components/input_form.py:364-399 | every message except the age message is advisory and does not make the form invalid |
| InputForm.AppendBloodSugar | app/components/input_form.py:375-381 | appends the blood-sugar notes |
| InputForm.AppendPain | app/components/input_form.py:387-391 | appends the pain notes |
| InputForm.AppendGcs | app/components/input_form.py:393-397 | appends the GCS notes |
| InputForm.ValidateForm | app/components/input_form.py:354-399 | the messages are FormMessages, and valid iff every message is advisory |
| InputForm.FormValidity | app/components/input_form.py:364-399 | valid iff age lies in [0,120] |
| InputForm.EmptyRecordPasses | app/components/input_form.py:364-397 | an empty record yields no message at all |
| Fhir.LastPatientWins | app/fhir/fhir_converter.py:110-111 | the last Patient entry is the one kept |
| Fhir.NoPatient | app/fhir/fhir_converter.py:99-122 | without a Patient entry there is none |
| Fhir.SortEntries | app/fhir/fhir_converter.py:106-119 | the loop sorts the entries into the five resource lists in order |
| Fhir.AgeOn | app/fhir/fhir_converter.py:177-181 | the age is the year difference, or one less exactly when the birthday is still ahead in the year |
| Fhir.AgeCountsYears | app/fhir/fhir_converter.py:177-181 | on a birthday the age is the year difference; before it in that year one less |
| Fhir.AgeMonotone | app/fhir/fhir_converter.py:177-181 | age never decreases with time and is non-negative after birth |
| Fhir.ParsePatient | app/fhir/fhir_converter.py:157-188 | a missing patient gives id "unknown"; a birth date gives the age on today |
| Fhir.FirstDisplay | app/fhir/fhir_converter.py:252-268 | the first non-empty display text, or none iff all are empty |
| Fhir.FirstMatch | app/fhir/fhir_converter.py:286-293 | the first table row with a keyword in the text |
| Fhir.FirstMatchAt | app/fhir/fhir_converter.py:286-293 | the row found is the unique first row whose keywords match |
| Fhir.MapCondition | app/fhir/fhir_converter.py:272-293 | no condition iff no table row has a keyword in the lower-cased text; a condition found is one whose row has such a keyword |
| Fhir.MapConditionFirst | app/fhir/fhir_converter.py:272-293 | no condition iff no keyword occurs; otherwise the first condition in table order with a keyword in the lower-cased text |
| Fhir.MapsChronicHeartFailure | app/fhir/fhir_converter.py:272-293 | "Chronic Heart Failure" maps to heart disease |
| Fhir.MapsDiabetes | app/fhir/fhir_converter.py:272-293 | "Type 2 Diabetes" maps to diabetes |
| Fhir.ParseConditions | app/fhir/fhir_converter.py:246-270 | no duplicates, and exactly the mapped conditions |
| Fhir.ParseNames | app/fhir/fhir_converter.py:295-313 | lower-cased and without duplicates; a name is listed iff some concept has a name whose lower-cased form it is |
| Fhir.ReverseCodesInverts | app/fhir/fhir_converter.py:79-81 | with distinct codes each code maps back to its vital |
| Fhir.EmitObservations | app/fhir/fhir_converter.py:433-438 | every emitted observation has a code and a value |
| Fhir.ObservationRoundTrip | app/fhir/fhir_converter.py:433-438 | reading back the emitted observations gives exactly the tabled vitals with their values |
| Fhir.ObservationCodesDistinct | cdss_config.py:284-292 | the shipped LOINC table has distinct codes and vitals |
| Fhir.ShippedCodesRoundTrip | app/fhir/fhir_converter.py:207-232 | every tabled vital survives the round trip with its value |
| Fhir.ConditionSymptomsOf | app/fhir/fhir_converter.py:352-360 | a symptom is listed iff some listed condition implies it |
| Fhir.InferSymptoms | app/fhir/fhir_converter.py:335-362 | no duplicates; a symptom is inferred iff it is fever with a febrile temperature or some listed condition implies it |
| Fhir.FeverOnlyFromTemperature | app/fhir/fhir_converter.py:346-350 | fever is inferred iff LOINC 8310-5 is above 37.5 |
| Fhir.FromBundle | app/fhir/fhir_converter.py:83-150 | an error iff resourceType is not "Bundle"; otherwise the extracted patient data |
| Fhir.PatientDataClean | app/fhir/fhir_converter.py:246-362 | the four lists have no duplicates and medications and allergies are lower-cased |
| Fhir.CoreVitalsOrDefault | app/fhir/fhir_converter.py:379-388 | every core vital is present, missing ones at their default |
| Fhir.ToCdssInput | app/fhir/fhir_converter.py:364-407 | age defaults to 50, vitals default, one flag per symptom and condition set iff listed, counts are list lengths |
| Fhir.ToPredictionDict | app/fhir/fhir_converter.py:35-61 | same age and vitals, the lists, condition flags set iff listed, no symptom flags |
| Encoder.FeatureNames | ml/feature_encoder.py:29-40 | one name per feature, opening with the four summary names |
| Encoder.FeatureLabels | ml/feature_encoder.py:141-152 | one label per feature |
| Encoder.Encoding | ml/feature_encoder.py:84-139 | one value per feature; slot 0 is the age feature, slot 1 the gender code in [0,1], slot 2 the symptom sum over 12 and slot 3 the condition sum |
| Encoder.LayoutShape | ml/feature_encoder.py:29-40 | names and labels have the same length; names list the four summaries, symptoms, normalised vitals and conditions in order |
| Encoder.VitalFeature | ml/feature_encoder.py:127-134 | in [0,1]; 0.5 when missing; the linear rescale within the range |
| Encoder.GenderCode | ml/feature_encoder.py:101-103 | male 0, female 1, anything else 0.5 |
| Encoder.TotalBounds | ml/feature_encoder.py:107 | a sum of values in [0,1] lies between 0 and the count |
| Encoder.CollectSymptoms | ml/feature_encoder.py:106-108 | the loop collects the symptom values and their sum |
| Encoder.CollectConditions | ml/feature_encoder.py:111-112 | the loop collects the condition values and their sum |
| Encoder.CollectVitals | ml/feature_encoder.py:127-134 | the loop collects the vital features |
| Encoder.EncodePatient | ml/feature_encoder.py:84-139 | the vector is Encoding, exactly as long as the feature names |
| Encoder.EncodingMatchesNames | ml/feature_encoder.py:94-139 | each position holds the feature its name says |
| Encoder.VitalFeaturesBounded | ml/feature_encoder.py:127-134 | every vital feature lies in [0,1], and a missing vital is 0.5 |
| Encoder.TotalZero | ml/feature_encoder.py:106-112 | a list of zero values sums to zero |
| Encoder.SymptomFeatureBounded | ml/feature_encoder.py:106-108 | the symptom feature lies in [0,1], and is 0 with no symptoms |
| Encoder.EmptyRecordEncoding | ml/feature_encoder.py:97-134 | an empty record encodes age 40/120, gender 0.5, counts 0 and vitals 0.5 |
| Preprocessing.AgeErrorsMentionAge | ml/preprocessing.py:40-43 | both age errors mention age |
| Preprocessing.CheckAge | ml/preprocessing.py:40-43 | appends the age error, if any |
| Preprocessing.CheckGender | ml/preprocessing.py:46-49 | appends the gender error, if any |
| Preprocessing.CheckVitals | ml/preprocessing.py:52-62 | appends one error per unacceptable present core vital |
| Preprocessing.ValidateInput | ml/preprocessing.py:27-64 | the errors are InputErrors, and valid iff there are none |
| Preprocessing.VitalErrorsEmpty | ml/preprocessing.py:52-62 | no vital error iff each present vital is acceptable |
| Preprocessing.InputValidity | ml/preprocessing.py:27-64 | valid iff a numeric age in [0,120], a known gender and heart rate in [20,250], SpO2 in [50,100], temperature in [30,45] where present |
| Preprocessing.AgeRejections | ml/preprocessing.py:40-43 | age 150 and a missing age are both rejected |
| Preprocessing.SampleRecordValid | ml/preprocessing.py:27-64 | a typical complete record is valid |
| Preprocessing.GenderEncoded | ml/preprocessing.py:147-150 | male 0, female 1, other or absent 0.5, anything else unmapped |
| Preprocessing.AgeNormalized | ml/preprocessing.py:152-156 | age/120 for an age in [0,120], within [0,1] |
| Preprocessing.AgeNormalizedExamples | ml/preprocessing.py:152-156 | age 60 gives 0.5, and the encoding is monotone |
| Preprocessing.NormalizeVitals | ml/preprocessing.py:102-128 | exactly the present core vitals, each clipped to [0,1] |
| Preprocessing.NormalizationAgrees | ml/preprocessing.py:123-126 | the normalisation agrees with the feature encoder's |
| Preprocessing.SymptomCountBounds | ml/preprocessing.py:162-164 | the symptom count lies between 0 and the number of symptoms |
| Preprocessing.PrepareFeatures | ml/preprocessing.py:130-173 | gender is unmapped iff present and unknown; age normalised into [0,1]; exactly the present core vitals are normalised; the symptom count normalised by 12 |
| Preprocessing.PreparedFeaturesBounded | ml/preprocessing.py:130-173 | age, symptom count and vitals are normalised into [0,1] |
| Explainer.MakeFactor | ml/explainer.py:328-339 | increases risk iff contribution > 0; value defaults to 0; display name from the table, else humanised |
| Explainer.TopOrder | ml/explainer.py:320-325 | the top order has min(n, count) positions, all valid |
| Explainer.TopFactors | ml/explainer.py:327-341 | one factor per selected position, in order |
| Explainer.GetTopFactors | ml/explainer.py:306-341 | the loop builds TopFactors |
| Explainer.TopFactorsSelect | ml/explainer.py:320-325 | at most n factors, distinct, by non-increasing absolute contribution with ties in input order, and none left out is larger |
| Explainer.DirectionsPartition | ml/explainer.py:370-371 | the increasing and decreasing lists partition the factors |
| Explainer.NarrativeEnds | ml/explainer.py:366-401 | no factors give the fixed unable sentence; otherwise the narrative opens with the level and closes with the method note |
| Explainer.NarrativeFactorOrder | ml/explainer.py:380-398 | increasing factors are listed before decreasing ones, each in order |
| Explainer.NarrativeOf | ml/explainer.py:353-403 | the unable narrative iff there are no factors, and then its fixed sentence for the level |
| Explainer.GenerateNarrative | ml/explainer.py:353-403 | the loops build NarrativeOf |
| Explainer.AppendSection | ml/explainer.py:381-388 | a section is its header followed by one line per factor |
| Explainer.ChartDataOf | ml/explainer.py:405-428 | no chart iff no explanation or no factors; otherwise equal-length labels, values and colours, red iff the value > 0 |
| Explainer.ChartColoursFollowDirection | ml/explainer.py:421 | a bar is red iff its factor increases risk |
| GenerateData.RiskScore | data/generate_data.py:120 | the clipped score lies in [0,1] and equals the raw sum when that does |
| GenerateData.RawScoreBounds | data/generate_data.py:73-120 | the raw score lies in [0, 2.38] and is 0 iff no finding is present |
| GenerateData.CategorizeRisk | data/generate_data.py:123-130 | 0 iff < 0.3, 1 iff in [0.3, 0.6), 2 iff ≥ 0.6 |
| GenerateData.CategorizeRiskMonotone | data/generate_data.py:123-130 | a higher score never gets a lower label |
| GenerateData.LabelsAgreeWithEngine | data/generate_data.py:123-130 | the labels agree with the multi-risk engine's levels under the default thresholds |
| GenerateData.CriticalTriadIsHigh | data/generate_data.py:86-88 | chest pain, shortness of breath and confusion together are labelled High without negative noise |
| GenerateData.UnremarkableRowIsLow | data/generate_data.py:117-130 | a row without any finding and without noise scores 0 and is labelled Low |

## Left out

- The classifier itself, SHAP and LIME: the predicted class and the contribution map are inputs.
- The Streamlit user interface, the other components of `input_form.py`, persistence (`app/database`, `excel_storage.py`), `logger.py` and `auth.py`.
- Rendering of messages: emoji and `.1f` formatting. Messages with numbers other than the classifier's alert message and the rule ids are structured datatypes. Rule ids keep the counter as a number; `RuleIdText` renders it with the `{:04d}` layout.
- Presentation attributes: icons, colours, sounds, display times, `get_risk_radar_data`, `get_decision_visualization_data`, `format_alert_for_display`, `get_priority_distribution` and `get_risk_summary`.
- md5 alert ids: a counter gives fresh ids instead. `datetime.now()` and `date.today()` are parameters. `prioritize_alert` reads the clock twice; the model uses one instant per call.
- FHIR JSON navigation, `strptime` date parsing, file loading and saving, and resource creation beyond the observation codes. The model works on already-extracted values.
- Observation values other than numeric `valueQuantity` (`valueString`, `valueBoolean`) are dropped: vitals are numbers only.
- DataFrame plumbing, `clean_data` and median imputation in `preprocessing.py`; `FeatureEncoder.transform`. Records stand in for one-row frames.
- Random sampling in `generate_data.py`: the noise term is a parameter.
- A non-numeric age is modelled only in `validate_input` (`AgeEntry`). Elsewhere ages are numbers.
- A `gender` or `age` key present with the value `None` is modelled as an absent key, so `validate_input` reports it as required rather than as out of range or unknown.
- TopFactors and GetTopFactors take a natural `n`; the slicing behaviour of a negative `n` is not modelled.
- Floating-point rounding: all arithmetic is exact.
- Lower-casing, upper-casing and `str.title()` are ASCII-only; there is no Unicode case mapping, and only ASCII letters count as letters for title-casing.
- Python set ordering in `_infer_symptoms` and the parsed lists is modelled as first-occurrence order.
- `ml/rules_engine.py` and `ml/alert_prioritization.py` import their tables from `config.py`, which does not define them. The model passes the `cdss_config.py` tables as parameters instead. Likewise `app/fhir/fhir_converter.py:16` imports `FHIR_CONFIG` from `config.py`, which does not define it; the observation codes are taken from `cdss_config.py:270-293`.
- `rules_override_ml` is never read by the source and has no meaning here.
- MultiRisk.PolypharmacyStep, MultiRisk.InteractionStep, MultiRisk.MedicationAgeStep, MultiRisk.HighRiskStep, MultiRisk.SymptomCountStep, MultiRisk.ProgressionAgeStep, MultiRisk.AllergyStep, MultiRisk.AdverseSymptomStep, MultiRisk.ChronicStep, MultiRisk.ReadmissionAgeStep, MultiRisk.ReadmissionMedsStep: each states only that its contribution is non-negative; the amounts are the source's literals and are checked by the worked examples.
- MultiRisk.CategoryRecommendations: the recommendation tables are copied as data without a contract of their own.
- Rules.MakeResult: `passed_rules` is not proved non-negative, because `total_rules` is an approximate count in the source and can be smaller than the number of violations.
- Classifier.ThreePredictions: stated over results that already have the shown/unshown shapes that `Classifier.DefaultLogging` establishes for the shipped settings.
- Alerts: consecutive counts are never decremented or reset, not even by `clear_old_alerts`, as in the source.
- Rules.CombineDecisions: the conservative warning branch is not capped at 1.0, as in the source, so the score bound is stated only for an ML score in [0,1].

## Notes on the source

- With age 80, 12 medications and no medication list, the medication-error score is 0.35 + 0.15 = 0.50, which is Medium, not High (`MultiRisk.MedicationErrorScenario`).
- The hybrid recommendations contain the rendered critical and warning violations, and also the conflict note and the High-level note (`Rules.HybridRecommendationsMembers`).
- Under the liberal policy a critical finding always yields High: `max(ml_level, "High")` is High for every ML level.
