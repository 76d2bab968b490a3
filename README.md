# Evidence-weighted pattern scoring, in Dafny

This project models the scoring engine of a legal-document analysis server for
guardianship and NDIS cases. Every analysis tool of the server works the same
way. It takes the matches of a fixed catalogue of indicator patterns over a
document's text. It cuts a clipped context window around each match and finds
the page the match is on. It turns the match counts into a bounded score (0 to
10, or a relevance between 0 and 1). Finally it classifies the result on a
fixed ladder of thresholds.

The tools modelled, one Dafny module each:

- `HumanRights`: human-rights breach detection. One breach per match. The
  risk score is `min(10, 0.5 total + 1.5 high)`. Includes the page lookup over
  running page lengths.
- `GuardianshipRisk`: the guardianship risk assessment. Each of five factors
  gets a positive/negative ratio score, neutral 5.0 without evidence. Factors
  are split into protective, risk and compliance-issue lists. Also the overall
  score, the compliance rating and the recommendations.
- `StateBias`: state-guardianship bias detection, with weighted match counts,
  a cap of 10 and a three-level ladder.
- `ProfessionalLanguage`: the professional-compliance check. The score drops
  with high- and medium-severity issues. Also the level and one piece of
  advice per category found.
- `NdisGoals`: the NDIS goals alignment. Each goal is scored on two axes, a
  family axis and a Public Guardian axis whose negatives weigh 1.5. Then come
  the overall means and the differential, and the recommendation, verdict,
  argument and summary ladders.
- `BiasDetection`: the bias and racism detectors and the per-category risk
  scores. Also the confidence, the top-five evidence, the overall-severity
  ladder and the mapping of segments to pages.
- `EvidenceExtraction`: family-support evidence in six themes and Public
  Guardian limitations in six categories. Both carry relevance scores from
  specificity markers.
- `DocumentAnalysis`: context omission, the behaviour-contradiction rule over
  document pairs, non-evidence-based statements with the justification score,
  and the template-reuse percentage.
- `Timeline`: date parsing, and the timeline of dated events. The timeline is
  sorted by date and de-duplicated on (date, first 50 characters). Also event
  categorisation and significance.
- `Comparison`: document comparison. Covers sentence-level unique content,
  the key differences, the comparison report, the comparison with bias
  analysis, and the contradiction matrix.
- `Models`: the field bounds of the result records (`RiskScore`,
  `EvidenceItem`, `PageText`, `AlignmentScore`).

Shared modules:

- `Text`: strings, `strip`, lower-casing, substring search, context windows
  and whole-word search.
- `Numeric`: Python's `round(x, n)` as exact decimal round-half-even on reals,
  with bounds lemmas.
- `Pages`: the first page whose text contains a phrase.
- `Seqs`: counting, flattening, taking and sorting.

The regular-expression engine is not modelled. The matches of a catalogue
are given to each tool as one list of match records
`(start, end, matched text)` per pattern. The lists are in catalogue order,
and each list is in text order. Where a tool runs a regular-expression
*search* whose rules hold for any search, the model takes a function-valued
parameter: the `Text.Search` of `DocumentAnalysis` (behaviour descriptors and
context categories) and of the `Comparison` contradiction matrix, and the
`markerIn` of `DocumentAnalysis.HasEvidenceMarkers`. The evidence-relevance
markers are searched concretely, with `Text.HasWord` and
`EvidenceExtraction.HasDate`.

Loops of the source are methods with loop invariants. Each method is proved
equal to a specification function, and the properties are lemmas about those
functions.

## Model

| member | source | states |
|---|---|---|
| HumanRights.FirstReaching | app/services/legal_framework_service.py:167-174 | the index of the first page whose running text length reaches the position; every earlier page falls short; the page count when no page reaches it |
| HumanRights.FindPageNumber | app/services/legal_framework_service.py:162-174 | no page number exactly when there are no pages; otherwise the number of the first page whose running length reaches the position, or the page count |
| HumanRights.FirstReachingLeast | app/services/legal_framework_service.py:167-172 | a page that reaches the position, with no earlier page reaching it, is the page chosen |
| HumanRights.FirstReachingMono | app/services/legal_framework_service.py:167-174 | a later position is never placed on an earlier page |
| HumanRights.PageNumberValid | app/services/legal_framework_service.py:162-174 | with page numbers of at least 1, a reported page number is at least 1 |
| HumanRights.CategoryBreachList | app/services/legal_framework_service.py:126-144 | one breach per match of a category, in match order |
| HumanRights.RiskScore | app/services/legal_framework_service.py:147-149 | the unrounded risk score lies in [0, 10] |
| HumanRights.BreachForMatch | app/services/legal_framework_service.py:128-143 | the breach of one match: the stripped ±150 window, the page of the match start, and the category's section and severity |
| HumanRights.CategoryBreaches | app/services/legal_framework_service.py:123-144 | the loop over a category's matches builds exactly its breach list |
| HumanRights.CountHigh | app/services/legal_framework_service.py:148 | the number of high-severity breaches |
| HumanRights.AnalyzeHumanRightsBreaches | app/services/legal_framework_service.py:110-159 | the breaches are those of the specification; their number is the number of matches; the reported score is the rounded risk score and lies in [0, 10] |
| HumanRights.BreachCount | app/services/legal_framework_service.py:122-147 | exactly one breach per match of the categories scanned |
| HumanRights.BreachesPrefix | app/services/legal_framework_service.py:122-144 | the breaches of fewer categories are a prefix of the breaches of more |
| HumanRights.BreachAt | app/services/legal_framework_service.py:122-144 | match j of category k gives the breach right after the breaches of the earlier categories, at offset j |
| HumanRights.BreachFrom | app/services/legal_framework_service.py:122-144 | every breach is the breach of some match of some category |
| HumanRights.BreachSeverity | app/services/legal_framework_service.py:140 | a breach is high exactly when its category weighs at least 0.9, else medium |
| HumanRights.BreachContext | app/services/legal_framework_service.py:128-130 | for matches inside the text, a breach's context is a piece of the text at most 150 characters wider than the match on each side |
| HumanRights.RiskScoreMonotone | app/services/legal_framework_service.py:147-149 | adding a breach never lowers the risk score |
| HumanRights.RiskScoreEnds | app/services/legal_framework_service.py:147-149 | no breaches give 0; twenty breaches or more give the cap of 10 |
| StateBias.CategoryIndicators | app/services/legal_framework_service.py:533-549 | one indicator per match of a category |
| StateBias.CategoryIndicatorAt | app/services/legal_framework_service.py:536-549 | the j-th indicator of a category is the one made from its j-th match |
| StateBias.IndicatorForMatch | app/services/legal_framework_service.py:540-549 | the indicator of one match: the stripped ±100 window and the category's concern level |
| StateBias.ScanCategory | app/services/legal_framework_service.py:531-549 | the loop over a category's matches counts them and records exactly one indicator for each |
| StateBias.AddCategory | app/services/legal_framework_service.py:530-555 | one category appends its indicators and adds its weighted count to the score |
| StateBias.ScanCategories | app/services/legal_framework_service.py:530-555 | the loop over the categories yields the indicators and the weighted count of the specification |
| StateBias.DetectStateGuardianshipBias | app/services/legal_framework_service.py:517-577 | the indicators of the specification, one per match; the rounded capped score; the level of the unrounded score |
| StateBias.IndicatorCount | app/services/legal_framework_service.py:530-549 | exactly one indicator per match of the categories scanned |
| StateBias.ConcernLevels | app/services/legal_framework_service.py:548 | an indicator's concern is high exactly when its category is state preference or family dismissal, else medium |
| StateBias.WeightedCountClosedForm | app/services/legal_framework_service.py:551-555 | the weighted count is 0.8 per match of the two primary categories plus 0.5 per match of the other two |
| StateBias.BiasScoreInRange | app/services/legal_framework_service.py:558-573 | the score lies in [0, 10] before and after rounding |
| StateBias.WeightedCountNonNegative | app/services/legal_framework_service.py:551-555 | the weighted count is never negative |
| StateBias.WeightedCountMonotone | app/services/legal_framework_service.py:551-555 | more matches in any category never lower the weighted count |
| StateBias.BiasScoreMonotone | app/services/legal_framework_service.py:551-566 | more matches never lower the score or the level |
| StateBias.BiasLevelBands | app/services/legal_framework_service.py:561-566 | high exactly at 7 or more, moderate exactly in [4, 7), low exactly below 4; a higher score never gets a lower level |
| StateBias.NoMatchesNoBias | app/services/legal_framework_service.py:527-566 | without matches the score is 0 and the level low |
| StateBias.IndicatorContexts | app/services/legal_framework_service.py:540-542 | for matches inside the text, an indicator's context is a piece of the text at most 100 characters wider than its match on each side |
| GuardianshipRisk.FactorIndex | app/services/legal_framework_service.py:229-308 | each factor sits at its own position of the catalogue |
| GuardianshipRisk.RatioScore | app/services/legal_framework_service.py:348-352 | the factor score lies in [0, 10]; it is 5.0 without indicators, 10 with only positive ones and 0 with only negative ones |
| GuardianshipRisk.RatioScoreMonotone | app/services/legal_framework_service.py:352 | more positive indicators never lower the score and more negative ones never raise it |
| GuardianshipRisk.Totals | app/services/legal_framework_service.py:335-346 | each factor's totals are the sums of its per-pattern match counts |
| GuardianshipRisk.RawScores | app/services/legal_framework_service.py:348-352 | one unrounded score per factor |
| GuardianshipRisk.RawScoresAt | app/services/legal_framework_service.py:348-352 | the unrounded score of factor k is the ratio score of its totals |
| GuardianshipRisk.ProtectiveSound | app/services/legal_framework_service.py:359-362 | every protective entry is a factor scoring at least 6.0 on its unrounded score, with its positive total, in catalogue order |
| GuardianshipRisk.RiskSound | app/services/legal_framework_service.py:363-366 | every risk entry is a factor scoring below 6.0 on its unrounded score, with its negative total, in catalogue order |
| GuardianshipRisk.FactorsPartitioned | app/services/legal_framework_service.py:358-366 | every factor lands in exactly one of the two lists: protective exactly when its unrounded score is at least 6.0, risk exactly when below |
| GuardianshipRisk.IssuesAreRisks | app/services/legal_framework_service.py:368-372 | every compliance issue records its factor's unrounded score, which is below 5.0, and that factor is also a risk factor |
| GuardianshipRisk.Assessment.constructor | app/services/legal_framework_service.py:320-331 | a fresh assessment has every score 0.0 and every list empty |
| GuardianshipRisk.Assessment.Scores | app/models/legal.py:50-54 | the five factor scores of the record, in catalogue order |
| GuardianshipRisk.Assessment.SetScore | app/services/legal_framework_service.py:355-356 | a factor's score goes to that factor's field; nothing else changes |
| GuardianshipRisk.Assessment.SetAttr | app/services/legal_framework_service.py:355-356 | setting a score field by name succeeds exactly for the record's score fields; an unknown name raises and changes nothing |
| GuardianshipRisk.CountIndicators | app/services/legal_framework_service.py:339-346 | the loop total is the sum of the per-pattern match counts |
| GuardianshipRisk.RoundedUpTo | app/services/legal_framework_service.py:356 | one stored score per factor scanned |
| GuardianshipRisk.RoundedUpToAt | app/services/legal_framework_service.py:356 | the stored score of a factor is its unrounded score rounded to one decimal |
| GuardianshipRisk.ScoreFactor | app/services/legal_framework_service.py:334-352 | the totals are the sums of the pattern counts and the score is their ratio score |
| GuardianshipRisk.RecordFactor | app/services/legal_framework_service.py:354-372 | one factor's rounded score is stored in its field, and the factor is filed on its unrounded score |
| GuardianshipRisk.ScoreFactors | app/services/legal_framework_service.py:334-372 | after the loop the scores, protective list, risk list and compliance issues are those of the specification, and nothing else changed |
| GuardianshipRisk.AnalyzeGuardianshipRisk | app/services/legal_framework_service.py:311-397 | the stored scores and lists are those of the specification; the overall score is the rounded mean of the five stored scores; the recommendations and rating are those of that record |
| GuardianshipRisk.ScoresInRange | app/services/legal_framework_service.py:356-385 | every stored factor score and the overall score lie in [0, 10] (also app/models/legal.py:50-55) |
| GuardianshipRisk.RoundedInRange | app/services/legal_framework_service.py:375-385 | scores in [0, 10] keep their rounded values and their rounded mean in [0, 10] |
| GuardianshipRisk.RatingMonotone | app/services/legal_framework_service.py:400-409 | a higher overall score never gets a lower rating; high compliance exactly at 8 or more, non-compliant exactly below 4 |
| GuardianshipRisk.GenerateRecommendations | app/services/legal_framework_service.py:412-444 | the recommendations checked factor by factor are those of the specification |
| GuardianshipRisk.RecommendationsExact | app/services/legal_framework_service.py:416-439 | a factor is recommended for improvement exactly when its score is below 6.0; the good-compliance note is never among them |
| GuardianshipRisk.NoLowScores | app/services/legal_framework_service.py:416-441 | no recommendation for improvement exactly when every factor scores at least 6.0 |
| GuardianshipRisk.GoodComplianceIff | app/services/legal_framework_service.py:441-442 | the good-compliance note appears exactly when every factor scores at least 6.0; a factor is recommended exactly when below 6.0 |
| GuardianshipRisk.RiskFactorWithoutRecommendation | app/services/legal_framework_service.py:352-366 | 299 positive and 202 negative indicators make a risk factor whose rounded score 6.0 draws no recommendation (also app/services/legal_framework_service.py:416) |
| GuardianshipRisk.AsWrittenFieldNames | app/services/legal_framework_service.py:355-356 | the derived field name is a field of the record for four factors, but names no field for will and preferences (also app/services/legal_framework_service.py:247, app/models/legal.py:50-59) |
| GuardianshipRisk.AnalyzeAsWritten | app/services/legal_framework_service.py:334-356 | as written, the first factor's score is stored and setting the second factor's score always raises |
| ProfessionalLanguage.CategoryIndex | app/services/legal_framework_service.py:619-672 | each category sits at its own position of the catalogue |
| ProfessionalLanguage.CategoryIssues | app/services/legal_framework_service.py:690-707 | one issue per match of a category |
| ProfessionalLanguage.CategoryIssueAt | app/services/legal_framework_service.py:693-707 | the j-th issue of a category is the one made from its j-th match |
| ProfessionalLanguage.GroupByCategory | app/services/legal_framework_service.py:748-754 | the one-pass grouping is the grouping of the specification |
| ProfessionalLanguage.GenerateRecommendations | app/services/legal_framework_service.py:744-784 | the recommendations checked category by category are those of the specification |
| ProfessionalLanguage.IssueForMatch | app/services/legal_framework_service.py:697-707 | the issue of one match: the stripped ±100 window and the category's severity |
| ProfessionalLanguage.ScanCategory | app/services/legal_framework_service.py:688-707 | the loop over a category's matches counts them and records exactly one issue for each |
| ProfessionalLanguage.AddCategory | app/services/legal_framework_service.py:687-713 | one category appends its issues and adds its weighted count to the penalty |
| ProfessionalLanguage.ScanCategories | app/services/legal_framework_service.py:687-713 | the loop over the categories yields the issues and the penalty of the specification |
| ProfessionalLanguage.AnalyzeProfessionalCompliance | app/services/legal_framework_service.py:674-741 | the issues of the specification, one per match; the rounded score; the level of the unrounded score; the recommendations of those issues |
| ProfessionalLanguage.IssueCount | app/services/legal_framework_service.py:687-707 | exactly one issue per match of the categories scanned |
| ProfessionalLanguage.PenaltyClosedForm | app/services/legal_framework_service.py:709-713 | the penalty is 0.8 per issue of the two medium categories plus 1.5 per issue of the three high ones |
| ProfessionalLanguage.PenaltyNonNegative | app/services/legal_framework_service.py:709-713 | the penalty is never negative |
| ProfessionalLanguage.ScoreFromPenaltyValue | app/services/legal_framework_service.py:716 | the score is 10 less a tenth of the penalty, and 0 from a penalty of 100 on; it lies in [0, 10] |
| ProfessionalLanguage.ComplianceScoreInRange | app/services/legal_framework_service.py:716-736 | the score lies in [0, 10] before and after rounding |
| ProfessionalLanguage.PenaltyMonotone | app/services/legal_framework_service.py:709-713 | more matches in any category never lower the penalty |
| ProfessionalLanguage.ComplianceScoreAntitone | app/services/legal_framework_service.py:709-724 | more matches never raise the score or the level |
| ProfessionalLanguage.ComplianceLevelBands | app/services/legal_framework_service.py:719-724 | high exactly at 8 or more, moderate exactly in [5, 8), low exactly below 5; a higher score never gets a lower level |
| ProfessionalLanguage.IssueSeverities | app/services/legal_framework_service.py:705 | every issue carries its category's severity |
| ProfessionalLanguage.IssueContexts | app/services/legal_framework_service.py:697-699 | for matches inside the text, an issue's context is a piece of the text at most 100 characters wider than its match on each side |
| ProfessionalLanguage.InIssuesOf | app/services/legal_framework_service.py:750-754 | a category's group holds exactly the issues of that category |
| ProfessionalLanguage.GroupedExact | app/services/legal_framework_service.py:748-754 | a category is a key exactly when some issue has it, and its list is its issues in their original order |
| ProfessionalLanguage.AdviceExact | app/services/legal_framework_service.py:756-779 | a category's advice appears exactly when it is a key; the compliance note is never among them |
| ProfessionalLanguage.RecommendationsExact | app/services/legal_framework_service.py:756-782 | a category's advice appears exactly when some issue has that category; the compliance note exactly when there is no issue; at most five recommendations |
| ProfessionalLanguage.AdviceLength | app/services/legal_framework_service.py:756-779 | at most one piece of advice per category checked |
| ProfessionalLanguage.OneCategoryIssues | app/services/legal_framework_service.py:690-707 | a category's issues have category c exactly when c is that category and it has a match |
| ProfessionalLanguage.IssueCategories | app/services/legal_framework_service.py:687-707 | some issue has category c exactly when c is scanned and has a match |
| ProfessionalLanguage.AnalyzerRecommendations | app/services/legal_framework_service.py:687-782 | the analyzer gives a category's advice exactly when one of its patterns matched |
| ProfessionalLanguage.NoIssuesFullCompliance | app/services/legal_framework_service.py:716-727 | with no match the score is 10, the level high and the only recommendation the compliance note (also app/services/legal_framework_service.py:781-782) |
| NdisGoals.GoalIndex | app/services/ndis_goals_service.py:28-209 | each goal sits at its own position of the catalogue |
| NdisGoals.EvidenceLines | app/services/ndis_goals_service.py:296-315 | one evidence line per match, in match order |
| NdisGoals.EvidenceLineAt | app/services/ndis_goals_service.py:282-285 | the j-th line is the quoted j-th match, a dash and the first 80 characters of its stripped ±100 context |
| NdisGoals.PgScore | app/services/ndis_goals_service.py:323-330 | the Public Guardian score lies in [0, 10]; it is 5.0 without indicators, 10 with only positive ones and 0 with only negative ones |
| NdisGoals.GoalResultsUpTo | app/services/ndis_goals_service.py:229-233 | one result per goal scanned |
| NdisGoals.GoalResultAt | app/services/ndis_goals_service.py:229-233 | the i-th result is the analysis of the i-th goal |
| NdisGoals.CollectEvidence | app/services/ndis_goals_service.py:274-315 | the loop over a group's matches counts them and makes one evidence line for each |
| NdisGoals.FamilyAlignment | app/services/ndis_goals_service.py:317-321 | the family score is 5.0 without indicators, else the positive share on a 0-10 scale |
| NdisGoals.PgAlignment | app/services/ndis_goals_service.py:323-330 | the Public Guardian score, with negatives weighted 1.5 |
| NdisGoals.AnalyzeSingleGoal | app/services/ndis_goals_service.py:269-353 | the goal's record is the one of the specification |
| NdisGoals.AnalyzeGoals | app/services/ndis_goals_service.py:224-235 | one result per goal, in goal order, and the running totals of their rounded scores |
| NdisGoals.AnalyzeGoalsAlignment | app/services/ndis_goals_service.py:211-262 | the goal results; the overall scores as rounded means of the rounded goal scores; the rounded differential; the recommendation and argument of that differential |
| NdisGoals.PgBelowFamily | app/services/ndis_goals_service.py:321-330 | with the same positive and negative counts on both axes, at least one of each, the Public Guardian score is strictly below the family score |
| NdisGoals.TwoAndTwo | app/services/ndis_goals_service.py:321-330 | two positive and two negative indicators score 5.0 for the family and 4.0 for the Public Guardian |
| NdisGoals.PgScoreMonotone | app/services/ndis_goals_service.py:325-330 | more positive indicators never lower the PG score and more negative ones never raise it |
| NdisGoals.GoalResultValid | app/services/ndis_goals_service.py:317-353 | the rounded scores lie in [0, 10]; the evidence is the lines of the first five matches (all when fewer), in order; the verdict is the ladder on the unrounded differential (also app/services/ndis_goals_service.py:368-401) |
| NdisGoals.GoalVerdictBands | app/services/ndis_goals_service.py:377-401 | strong family advantage exactly at 3 or more, family advantage in [1, 3), neutral in (-1, 1), PG advantage in (-3, -1], strong PG advantage at -3 or less; a larger differential never moves the verdict towards the Public Guardian |
| NdisGoals.TotalsWithin | app/services/ndis_goals_service.py:234-235 | the totals of scores in [0, 10] lie between 0 and 10 per goal |
| NdisGoals.AllGoalsInRange | app/services/ndis_goals_service.py:348-349 | every goal's rounded scores lie in [0, 10] (also app/models/base.py:92-98) |
| NdisGoals.OverallWithin | app/services/ndis_goals_service.py:238-240 | a rounded mean over the seven goals of scores in [0, 10] lies in [0, 10] |
| NdisGoals.DifferentialExact | app/services/ndis_goals_service.py:241 | rounding the difference of two one-decimal scores changes nothing |
| NdisGoals.AlignmentInRange | app/services/ndis_goals_service.py:238-241 | both overall scores lie in [0, 10]; the differential is exactly their difference, in [-10, 10] |
| NdisGoals.OverallScoresWithin | app/services/ndis_goals_service.py:238-241 | the same bounds for any seven goal results whose scores lie in [0, 10] |
| NdisGoals.RecommendationBands | app/services/ndis_goals_service.py:411-439 | strong family exactly at 2 or more, family in [0.5, 2), no clear preference in (-0.5, 0.5), PG in (-2, -0.5], strong PG at -2 or less; monotone in the differential (also app/services/ndis_goals_service.py:541-564) |
| NdisGoals.QcatBranches | app/services/ndis_goals_service.py:442-520 | the family argument exactly when the differential is at least 1.0, the Public Guardian argument exactly when at most -1.0, else the neutral one |
| NdisGoals.FamilyAdvantagedExact | app/services/ndis_goals_service.py:465-466 | a goal is listed exactly when its rounded family score exceeds its rounded PG score |
| NdisGoals.QcatListsAdvantagedGoals | app/services/ndis_goals_service.py:450-476 | the family argument lists exactly the goals where the family scores higher |
| BiasDetection.DetectorIndex | app/services/nlp_service.py:102-232 | each detector sits at its own position in the order the analysis runs them (also app/services/nlp_service.py:361-367) |
| BiasDetection.DetectorSegments | app/services/nlp_service.py:106-120 | one segment per match, in match order |
| BiasDetection.DetectorSegmentAt | app/services/nlp_service.py:107-120 | the j-th segment is the j-th match with its window of w characters each side, clamped to the text, page 0, and the detector's severity and category |
| BiasDetection.Detect | app/services/nlp_service.py:102-122 | the loop over a detector's patterns and matches flags exactly the detector's segments |
| BiasDetection.DetectAll | app/services/nlp_service.py:358-367 | the six detectors' segments, concatenated in detector order |
| BiasDetection.SegmentCount | app/services/nlp_service.py:358-367 | the segment count is the total number of matches of the detectors run |
| BiasDetection.SegmentFields | app/services/nlp_service.py:114-116 | every detected segment carries its detector's severity and page 0 (also app/services/nlp_service.py:136-138, app/services/nlp_service.py:158-160, app/services/nlp_service.py:180-182, app/services/nlp_service.py:202-204, app/services/nlp_service.py:224-226) |
| BiasDetection.SegmentContext | app/services/nlp_service.py:108-111 | a match's context is a piece of the text that holds the match and is at most 2w characters longer |
| BiasDetection.OfDetector | app/services/nlp_service.py:116-117 | a detector's segments all have its category and no other (also app/services/nlp_service.py:138-139, app/services/nlp_service.py:160-161, app/services/nlp_service.py:182-183, app/services/nlp_service.py:204-205, app/services/nlp_service.py:226-227) |
| BiasDetection.CategorySegments | app/services/nlp_service.py:358-367 | the detected segments of a category are exactly those its detector made |
| BiasDetection.DetectedOfCategory | app/services/nlp_service.py:358-367 | a category has one detected segment per match of its detector |
| BiasDetection.Locate | app/services/nlp_service.py:371-374 | the scan over the pages sets the page number of the first page whose lower-cased text holds the lower-cased segment text, and stops there |
| BiasDetection.MapPages | app/services/nlp_service.py:369-374 | every segment is updated in place to its located version |
| BiasDetection.LocatedSpec | app/services/nlp_service.py:369-374 | the page mapping changes only the page number: to that of the first page holding the text, or not at all when no page does |
| BiasDetection.OfCategory | app/services/nlp_service.py:262 | a category's segments are drawn from the list |
| BiasDetection.InOfCategory | app/services/nlp_service.py:262 | a segment is in a category's list exactly when it is in the list and has that category |
| BiasDetection.WeightsOf | app/services/nlp_service.py:246-248 | one weight per segment |
| BiasDetection.QuotesOf | app/services/nlp_service.py:262 | one quoted text per segment |
| BiasDetection.Tally | app/services/nlp_service.py:246-248 | one more segment counted and its weight appended under its category keeps the counting invariant |
| BiasDetection.CountSegments | app/services/nlp_service.py:236-248 | per category, the count of its segments and their weights in order |
| BiasDetection.ScoreCategory | app/services/nlp_service.py:251-263 | the record of one counted category is its risk score |
| BiasDetection.CalculateRiskScores | app/services/nlp_service.py:234-265 | one risk score per category with segments, as specified |
| BiasDetection.CategoriesOfExact | app/services/nlp_service.py:397 | a category is detected exactly when it has a segment |
| BiasDetection.WeightSumAtLeastCount | app/services/nlp_service.py:239-244 | every weight is at least 1, so the weights sum to at least their count |
| BiasDetection.UniformWeightSum | app/services/nlp_service.py:239-248 | segments of one severity sum to count times its weight |
| BiasDetection.RawRiskBounds | app/services/nlp_service.py:252-256 | a category with segments scores in [1.5, 10] with a confidence in [0.1, 1], which is 1 from ten segments on |
| BiasDetection.RiskBounds | app/services/nlp_service.py:258-263 | after rounding to two decimals the score and confidence keep those bounds and the record is valid (also app/models/base.py:82-83) |
| BiasDetection.RiskScoresValid | app/services/nlp_service.py:250-265 | risk scores exist for exactly the detected categories; each is valid and scores at least 1.5 |
| BiasDetection.EvidenceFirstFive | app/services/nlp_service.py:262 | the evidence is the quoted texts of the category's first five segments (all when fewer), in segment order |
| BiasDetection.SingleSeverityScore | app/services/nlp_service.py:252-255 | when segments carry their detector's severity, the score is half a point per segment plus that severity's weight, capped at 10 |
| BiasDetection.ScoreNeverDrops | app/services/nlp_service.py:252-255 | adding a segment never lowers a category's score |
| BiasDetection.DetectorRiskPresent | app/services/nlp_service.py:250-265 | a category has a risk score exactly when its detector has a match (also app/services/nlp_service.py:358-367) |
| BiasDetection.DetectorRisk | app/services/nlp_service.py:252-255 | that score is half a point per match plus the detector's severity weight, capped at 10 (also app/services/nlp_service.py:358-367) |
| BiasDetection.OverallSeverityMonotone | app/services/nlp_service.py:380-387 | more segments never lower the overall severity |
| BiasDetection.NoSegmentsLow | app/services/nlp_service.py:386-387 | without segments the overall severity is low |
| BiasDetection.CriticalIffExplicitRacism | app/services/nlp_service.py:380-387 | the analysis is critical exactly when the explicit-racism detector has a match (also app/services/nlp_service.py:116) |
| BiasDetection.CriticalOnlyFromExplicitRacism | app/services/nlp_service.py:380-387 | a critical result comes from an explicit-racism match (also app/services/nlp_service.py:116) |
| BiasDetection.ExplicitRacismIsCritical | app/services/nlp_service.py:380-387 | an explicit-racism match makes the result critical (also app/services/nlp_service.py:116) |
| BiasDetection.SameFindingsRisk | app/services/nlp_service.py:369-376 | segment lists that differ only in page numbers get the same risk scores |
| BiasDetection.SameFindingsSeverity | app/services/nlp_service.py:379-397 | ... and the same overall severity and detected categories |
| BiasDetection.MappingKeepsScores | app/services/nlp_service.py:369-397 | the page mapping changes no risk score, no overall severity and no detected category |
| BiasDetection.AnalyzeForBias | app/services/nlp_service.py:341-410 | the detected segments after page mapping, their risk scores, the overall severity ladder (critical, more than three high, more than five medium, low) and the set of categories found |
| EvidenceExtraction.FoundCount | app/services/evidence_extraction_service.py:103-112 | at most one step per indicator examined |
| EvidenceExtraction.ScoreFamilyRelevance | app/services/evidence_extraction_service.py:103-114 | the loop over the three indicators computes the family relevance |
| EvidenceExtraction.FamilyRelevanceValues | app/services/evidence_extraction_service.py:103-120 | the family relevance is 0.5, 0.65, 0.8 or 0.95, one step per indicator found; 0.5 exactly when none is found and 0.95 exactly when all three are; rounding to two places keeps it |
| EvidenceExtraction.GuardianRelevanceValues | app/services/evidence_extraction_service.py:294-305 | the Public Guardian relevance is 0.7, 0.8, 0.9 or 1.0, as decided by the example marker and the date; rounding to two places keeps it |
| EvidenceExtraction.ItemsFor | app/services/evidence_extraction_service.py:89-122 | one item per match, in match order (also app/services/evidence_extraction_service.py:280-307) |
| EvidenceExtraction.ItemAt | app/services/evidence_extraction_service.py:89-122 | the j-th item is the item of the j-th match (also app/services/evidence_extraction_service.py:280-307) |
| EvidenceExtraction.MakeItem | app/services/evidence_extraction_service.py:90-122 | the context of the window, the page scan that stops at the first page holding the match, and the relevance build the specified item (also app/services/evidence_extraction_service.py:281-307) |
| EvidenceExtraction.ExtractByTheme | app/services/evidence_extraction_service.py:85-124 | the family extractor's loop emits exactly the theme's items |
| EvidenceExtraction.ExtractLimitations | app/services/evidence_extraction_service.py:276-309 | the Public Guardian extractor's loop emits exactly the category's items |
| EvidenceExtraction.PageOrZeroSpec | app/services/evidence_extraction_service.py:95-101 | the page number is 0 when no page holds the match, else the number of the first page holding it; with valid pages it is 0 exactly when no page holds it (also app/services/evidence_extraction_service.py:286-292) |
| EvidenceExtraction.ItemSpec | app/services/evidence_extraction_service.py:90-122 | an item carries the matched text and its category, a context from the text at most the match plus the window on each side, and a relevance in its extractor's range (also app/services/evidence_extraction_service.py:281-307) |
| EvidenceExtraction.ItemValid | app/services/evidence_extraction_service.py:116-122 | an item is a valid evidence item of its category, with a page number not below 0 when the pages are valid (also app/models/base.py:74) |
| EvidenceExtraction.ThemeLists | app/services/evidence_extraction_service.py:172-180 | a response has six lists (also app/services/evidence_extraction_service.py:362-370) |
| EvidenceExtraction.ThemesOf | app/services/evidence_extraction_service.py:172-180 | six lists placed in the fields read back in field order (also app/services/evidence_extraction_service.py:362-370) |
| EvidenceExtraction.NonEmptyCount | app/services/evidence_extraction_service.py:192 | at most one per list (also app/services/evidence_extraction_service.py:382) |
| EvidenceExtraction.NonEmptyCountLengths | app/services/evidence_extraction_service.py:182-192 | lists of the same lengths have the same count of non-empty lists (also app/services/evidence_extraction_service.py:372-382) |
| EvidenceExtraction.NonEmptyCountZero | app/services/evidence_extraction_service.py:192 | no list is counted exactly when all are empty (also app/services/evidence_extraction_service.py:382) |
| EvidenceExtraction.ListsUpTo | app/services/evidence_extraction_service.py:144-166 | one list per theme run (also app/services/evidence_extraction_service.py:329-355) |
| EvidenceExtraction.ListAt | app/services/evidence_extraction_service.py:144-166 | list i holds the items of theme i's matches (also app/services/evidence_extraction_service.py:329-355) |
| EvidenceExtraction.ListsUpToSix | app/services/evidence_extraction_service.py:144-166 | the six lists written out in theme order (also app/services/evidence_extraction_service.py:329-355) |
| EvidenceExtraction.ExtractFamilySupportEvidence | app/services/evidence_extraction_service.py:127-213 | the family response: the six themes' items, concatenated, the count and the number of themes found |
| EvidenceExtraction.ExtractPublicGuardianLimitations | app/services/evidence_extraction_service.py:312-404 | the Public Guardian response, built the same way from its six categories |
| EvidenceExtraction.ResponseOfSpec | app/services/evidence_extraction_service.py:168-209 | the instances are the six lists concatenated in field order; their number is the total count; the count of lists found is at most 6 and 0 exactly when there is no instance (also app/services/evidence_extraction_service.py:357-400) |
| EvidenceExtraction.ListLengths | app/services/evidence_extraction_service.py:144-166 | each list has one item per match of its patterns (also app/services/evidence_extraction_service.py:329-355) |
| EvidenceExtraction.ResponseCounts | app/services/evidence_extraction_service.py:168-209 | the instance count is the number of matches; the count of lists found is the number of lists with a match, 0 exactly when there is no instance (also app/services/evidence_extraction_service.py:357-400) |
| EvidenceExtraction.ResponseOrder | app/services/evidence_extraction_service.py:168-169 | the item of match j of list k sits after the items of the earlier lists and carries list k's name (also app/services/evidence_extraction_service.py:357-358) |
| EvidenceExtraction.ResponseValid | app/services/evidence_extraction_service.py:116-122 | every instance is valid and belongs to one of the six categories; with valid pages its page number is not negative (also app/services/evidence_extraction_service.py:301-307, app/models/base.py:74) |
| DocumentAnalysis.ContradictionsUpTo | app/services/document_analysis_service.py:78-114 | at most one contradiction per descriptor examined |
| DocumentAnalysis.CompareBehavior | app/services/document_analysis_service.py:79-114 | the four searches and the check in which the first document affirming wins give the descriptor's contradiction, if any |
| DocumentAnalysis.CompareOn | app/services/document_analysis_service.py:78-116 | the loop over the descriptors collects their contradictions in order |
| DocumentAnalysis.CompareDescriptions | app/services/document_analysis_service.py:67-116 | the comparison of two documents over the fourteen fixed descriptors |
| DocumentAnalysis.ContradictionForSpec | app/services/document_analysis_service.py:90-114 | a descriptor yields a contradiction exactly when one document affirms it and the other negates it; the first document is reported as affirming whenever it affirms and the second negates |
| DocumentAnalysis.ContradictionsSpec | app/services/document_analysis_service.py:78-116 | at most one item per descriptor; every conflicting descriptor has its item in the list and every item is that of a conflicting descriptor |
| DocumentAnalysis.InconsistencySeverityLadder | app/services/document_analysis_service.py:155-161 | the flag is high above 10 contradictions, medium from 6 to 10, low up to 5, and more contradictions never lower it |
| DocumentAnalysis.CompareWithLater | app/services/document_analysis_service.py:141-153 | the inner loop collects document i's contradictions with every later document |
| DocumentAnalysis.CompareAllPairs | app/services/document_analysis_service.py:140-153 | the contradictions of all pairs (i, j), i < j, in loop order |
| DocumentAnalysis.DetectInconsistentStatements | app/services/document_analysis_service.py:119-178 | the contradictions of all pairs and the severity flag of their count |
| DocumentAnalysis.PairContradictionsBound | app/services/document_analysis_service.py:141-153 | document i contributes at most one contradiction per descriptor and later document |
| DocumentAnalysis.PairsBeforeValue | app/services/document_analysis_service.py:140-141 | n documents make n (n - 1) / 2 pairs |
| DocumentAnalysis.AllContradictionsBound | app/services/document_analysis_service.py:140-153 | at most one contradiction per descriptor and pair |
| DocumentAnalysis.InconsistencyBound | app/services/document_analysis_service.py:140-153 | m descriptors over n documents give at most m n (n - 1) / 2 contradictions (also app/services/document_analysis_service.py:72-77) |
| DocumentAnalysis.TwoDocuments | app/services/document_analysis_service.py:140-153 | with two documents only the pair (0, 1) is compared |
| DocumentAnalysis.Excerpt | app/services/document_analysis_service.py:219 | a reported block text has at most 203 characters |
| DocumentAnalysis.StripShorter | app/services/document_analysis_service.py:215 | stripping never lengthens a string |
| DocumentAnalysis.PairBlocks | app/services/document_analysis_service.py:210-224 | a pair keeps at most the matcher's blocks |
| DocumentAnalysis.CollectPairBlocks | app/services/document_analysis_service.py:210-224 | the loop over the matcher's blocks keeps exactly the significant ones, as records |
| DocumentAnalysis.BlocksWithLater | app/services/document_analysis_service.py:203-224 | the inner loop collects document i's blocks with every later document |
| DocumentAnalysis.SumSimilarities | app/services/document_analysis_service.py:228 | the loop sums the blocks' similarities |
| DocumentAnalysis.DetectTemplateReuse | app/services/document_analysis_service.py:181-260 | the template-reuse response of the specification |
| DocumentAnalysis.MakeBlockShape | app/services/document_analysis_service.py:211-224 | a reported block is over 100 characters long, reports at most 203 characters and names both documents |
| DocumentAnalysis.MakeBlockSimilarity | app/services/document_analysis_service.py:216-223 | a block's similarity is not negative |
| DocumentAnalysis.MakeBlockSimilarityAtMostOne | app/services/document_analysis_service.py:216-223 | it is at most 1 when the block lies inside the first text |
| DocumentAnalysis.SimilaritySumNonNegative | app/services/document_analysis_service.py:228 | non-negative similarities sum to a non-negative total |
| DocumentAnalysis.PairBlocksNonNegative | app/services/document_analysis_service.py:210-224 | every block of a pair has a non-negative similarity |
| DocumentAnalysis.AllBlocksNonNegative | app/services/document_analysis_service.py:202-224 | every block of every pair has a non-negative similarity |
| DocumentAnalysis.PercentageBounds | app/services/document_analysis_service.py:227-231 | the percentage lies in [0, 100] for a non-negative total |
| DocumentAnalysis.TemplateReuseSpec | app/services/document_analysis_service.py:227-253 | the reported percentage lies in [0, 100]; reuse exactly above 75 percent unrounded; severity high exactly above 80, medium exactly in (75, 80], low exactly without reuse; fewer than two documents report 0 and no reuse |
| DocumentAnalysis.CheckContextPresence | app/services/document_analysis_service.py:294-302 | the presence map records, for every category, whether one of its words occurs |
| DocumentAnalysis.CategoryIndex | app/services/document_analysis_service.py:268-291 | each category sits at its own position |
| DocumentAnalysis.OmittedUpTo | app/services/document_analysis_service.py:321-365 | at most one item per category examined |
| DocumentAnalysis.ItemCategories | app/services/document_analysis_service.py:370 | one category name per item |
| DocumentAnalysis.NoteIfMissing | app/services/document_analysis_service.py:322-365 | an item is appended exactly when its category is absent |
| DocumentAnalysis.CollectOmitted | app/services/document_analysis_service.py:321-365 | the five checks in category order yield the items read off the presence map |
| DocumentAnalysis.DetectOmittedContext | app/services/document_analysis_service.py:305-389 | the omitted-context response of the specification |
| DocumentAnalysis.PresenceDecides | app/services/document_analysis_service.py:316-365 | a presence map holding the search's answers yields the specified items |
| DocumentAnalysis.OmittedSpec | app/services/document_analysis_service.py:321-365 | a category's item is listed exactly when the category is absent, and every item is that of an absent category, with severity medium exactly for environmental factors |
| DocumentAnalysis.OmittedContextScore | app/services/document_analysis_service.py:367-380 | at most five items; the score is twice their number, in [0, 10], and rounding keeps it; one category name per item |
| DocumentAnalysis.ItemCategoriesAt | app/services/document_analysis_service.py:370 | the category names follow the items, in order |
| DocumentAnalysis.ClaimsFor | app/services/document_analysis_service.py:455-485 | at most one claim per match |
| DocumentAnalysis.SentenceCount | app/services/document_analysis_service.py:488 | at most one sentence per character |
| DocumentAnalysis.CheckEvidenceMarkers | app/services/document_analysis_service.py:415-438 | the check of one statement computes the specified marker test |
| DocumentAnalysis.CollectClaims | app/services/document_analysis_service.py:455-485 | the loop over a group's matches appends exactly the group's claims |
| DocumentAnalysis.DetectNonEvidenceBasedStatements | app/services/document_analysis_service.py:441-506 | the non-evidence-based response of the specification |
| DocumentAnalysis.EvidenceMarkersSpec | app/services/document_analysis_service.py:429-438 | a statement absent from the text has no marker; for a matched statement the window examined is the one around its first occurrence, at or before the match |
| DocumentAnalysis.JustificationBounds | app/services/document_analysis_service.py:489 | the score lies in [0, 10]; it is 10 exactly without claims, and more claims never raise it |
| DocumentAnalysis.NonEvidenceBasedSpec | app/services/document_analysis_service.py:487-500 | the reported claims are the first of all claims, at most 20; the score lies in [0, 10] and is 10 without claims |
| DocumentAnalysis.ClaimsFrom | app/services/document_analysis_service.py:455-485 | every claim is the statement of a match of its group with no marker near it, with the group's severity and page 0 |
| DocumentAnalysis.NoSentenceEnds | app/services/document_analysis_service.py:488 | a text without a terminator counts no sentence |
| Timeline.DaysInMonth | app/services/comparison_timeline_service.py:288-303 | every month has 28 to 31 days |
| Timeline.MakeDate | app/services/comparison_timeline_service.py:288-305 | the constructor gives the date exactly when the year, month and day form a calendar date, and nothing where it raises |
| Timeline.DateOrder | app/services/comparison_timeline_service.py:347 | dates are totally ordered |
| Timeline.DigitChar | app/services/comparison_timeline_service.py:288 | a digit of the right value |
| Timeline.Numeral | app/services/comparison_timeline_service.py:288 | a numeral is a non-empty string of digits |
| Timeline.NumeralValue | app/services/comparison_timeline_service.py:288-291 | reading a numeral back gives the number |
| Timeline.NumeralLength | app/services/comparison_timeline_service.py:271-272 | four-digit years have four-digit numerals |
| Timeline.MonthNumberSpec | app/services/comparison_timeline_service.py:277-301 | a month name is recognised exactly when its first three letters, lower-cased, are one of the twelve abbreviations, and then it gives that abbreviation's place in the year |
| Timeline.SplitDate | app/services/comparison_timeline_service.py:287-290 | a split has at least one piece |
| Timeline.SplitDateFront | app/services/comparison_timeline_service.py:287-290 | a piece without separators followed by a separator splits off first |
| Timeline.SplitDateWhole | app/services/comparison_timeline_service.py:287-290 | text without separators is one piece |
| Timeline.RunEnd | app/services/comparison_timeline_service.py:293-299 | the end of the longest run of a character class |
| Timeline.RunEndAt | app/services/comparison_timeline_service.py:293-299 | a run stopped by the end or another class is that longest run |
| Timeline.ParseDate | app/services/comparison_timeline_service.py:283-306 | every parsed date is a calendar date |
| Timeline.NumericDateSpec | app/services/comparison_timeline_service.py:286-291 | three numbers are read day-month-year or year-month-day and give a date exactly when the calendar has it |
| Timeline.NumericRoundTrip | app/services/comparison_timeline_service.py:271-291 | writing a calendar date day/month/year or year/month/day and parsing it in that format gives it back |
| Timeline.MonthFirstSpec | app/services/comparison_timeline_service.py:273-297 | "Month DD, YYYY" reads the month from the name's first three letters and gives nothing for an unknown month or a day the month lacks |
| Timeline.MonthFirstLocated | app/services/comparison_timeline_service.py:293 | the three groups of such a text are the name, the day and the year |
| Timeline.MonthFirstGroups | app/services/comparison_timeline_service.py:293 | the groups of a month-first date located by their offsets |
| Timeline.DayFirstSpec | app/services/comparison_timeline_service.py:274-303 | "DD Month YYYY" reads the same groups in the other order |
| Timeline.CategorySpec | app/services/comparison_timeline_service.py:361-376 | the category is rule k's exactly when one of its words occurs and no earlier rule's does; Other exactly when none occurs |
| Timeline.SignificanceOf | app/services/comparison_timeline_service.py:379-393 | never critical; high exactly on a keyword, medium exactly without one above 100 characters, low exactly otherwise |
| Timeline.SharedWords | app/services/comparison_timeline_service.py:365-388 | an appointment sentence is an appointment of high significance; a decision or determination is highly significant |
| Timeline.SentenceStart | app/services/comparison_timeline_service.py:325 | the sentence starts just after the last '.' before the match, or at the start of the text |
| Timeline.SentenceEnd | app/services/comparison_timeline_service.py:326-328 | it ends at the first '.' after the match, or at the end of the text |
| Timeline.SentenceText | app/services/comparison_timeline_service.py:330 | the sentence is the stripped text between those bounds |
| Timeline.EventsUpTo | app/services/comparison_timeline_service.py:313-344 | at most one event per match |
| Timeline.CollectEvents | app/services/comparison_timeline_service.py:313-344 | the loop over the matches collects their events in match order |
| Timeline.EventForSpec | app/services/comparison_timeline_service.py:315-344 | a match gives an event exactly when its text parses; the event has that valid date, the match's offset, at most 200 characters of the sentence, and the sentence's category and significance |
| Timeline.EventsSpec | app/services/comparison_timeline_service.py:313-344 | each event comes from one match, and each match that has an event has it in the list |
| Timeline.InsertionPointSpec | app/services/comparison_timeline_service.py:347 | a stable insertion goes after every event dated no later than x and before the later ones |
| Timeline.InsertSorted | app/services/comparison_timeline_service.py:347 | inserting keeps a sorted list sorted |
| Timeline.InsertContents | app/services/comparison_timeline_service.py:347 | inserting adds exactly one event |
| Timeline.InsertWithDate | app/services/comparison_timeline_service.py:347 | x goes after every event of its date; other dates' events are untouched |
| Timeline.SortSpec | app/services/comparison_timeline_service.py:347 | the sort is in date order, is a permutation and is stable |
| Timeline.StableSortUnique | app/services/comparison_timeline_service.py:347 | every sorted list that keeps each date's events in input order is this sort |
| Timeline.SameDateListsEqual | app/services/comparison_timeline_service.py:347 | two sorted lists with the same events of each date are equal |
| Timeline.SameLastDate | app/services/comparison_timeline_service.py:347 | such lists end with events of the same date |
| Timeline.InsertEvent | app/services/comparison_timeline_service.py:347 | the walk back from the end inserts x stably |
| Timeline.SortEvents | app/services/comparison_timeline_service.py:347 | the insertion loop computes the stable sort |
| Timeline.InKeys | app/services/comparison_timeline_service.py:353 | a key is seen exactly when some event has it |
| Timeline.DeduplicateEvents | app/services/comparison_timeline_service.py:349-356 | the pass with the set of seen keys keeps the specified events |
| Timeline.DedupeSnoc | app/services/comparison_timeline_service.py:352-356 | one more event is kept exactly when its key is new |
| Timeline.DedupeKeys | app/services/comparison_timeline_service.py:349-356 | the kept events have the same keys as all the events |
| Timeline.DedupeSubset | app/services/comparison_timeline_service.py:349-356 | each kept event is one of the events |
| Timeline.DedupeDistinct | app/services/comparison_timeline_service.py:349-356 | no two kept events share a key |
| Timeline.DedupeFirst | app/services/comparison_timeline_service.py:349-356 | the first event is always kept |
| Timeline.DedupeKeepsFirst | app/services/comparison_timeline_service.py:349-356 | every event has a kept event with its key at or before it |
| Timeline.DedupeSorted | app/services/comparison_timeline_service.py:349-356 | deduplicating a sorted list leaves it sorted |
| Timeline.ExtractTimeline | app/services/comparison_timeline_service.py:309-358 | collect, sort, deduplicate |
| Timeline.TimelineOrdered | app/services/comparison_timeline_service.py:346-358 | the timeline is in date order and no two events share a key |
| Timeline.TimelineFromMatches | app/services/comparison_timeline_service.py:313-358 | every timeline event is the event of a match |
| Timeline.TimelineCoversMatches | app/services/comparison_timeline_service.py:313-358 | every match that gives an event has an event with its key in the timeline |
| Timeline.ExtractTimelineEvents | app/services/comparison_timeline_service.py:396-423 | the response of the timeline |
| Timeline.ResponseSpec | app/services/comparison_timeline_service.py:410-422 | the response counts the events; its date range is empty exactly for an empty timeline; on a sorted timeline both ends are event dates and every event lies between them |
| Comparison.SimilarityBounds | app/services/comparison_timeline_service.py:37-40 | a ratio in [0, 1] gives a reported similarity in [0, 100] (also app/services/comparison_timeline_service.py:135, app/services/comparison_timeline_service.py:187) |
| Comparison.SplitSentences | app/services/comparison_timeline_service.py:48 | a split has at least one piece |
| Comparison.SplitRun | app/services/comparison_timeline_service.py:48 | a run of terminators before a piece splits off one empty piece |
| Comparison.SplitSentencesFront | app/services/comparison_timeline_service.py:48 | a sentence, a run of terminators and the rest: the sentence is the first piece |
| Comparison.SplitAtTerminator | app/services/comparison_timeline_service.py:48 | a text opening with a terminator opens with an empty piece |
| Comparison.SentencePieces | app/services/comparison_timeline_service.py:48 | every piece is free of terminators and occurs in the text; the first is a prefix |
| Comparison.UniqueUpTo | app/services/comparison_timeline_service.py:51-56 | at most one sentence per piece |
| Comparison.FindUniqueContent | app/services/comparison_timeline_service.py:43-58 | the loop over the sentences of text1 keeps the specified ones |
| Comparison.UniqueUpToSpec | app/services/comparison_timeline_service.py:51-56 | the list holds exactly the stripped unique pieces, in order |
| Comparison.UniqueContentSpec | app/services/comparison_timeline_service.py:43-58 | at most ten sentences, the first of all unique ones; each is longer than the minimum, has no terminator, occurs in text1 and not in text2 ignoring case; all are reported when there are at most ten |
| Comparison.StrippedPiece | app/services/comparison_timeline_service.py:52 | a stripped piece is still a piece of the text |
| Comparison.NothingUniqueToItself | app/services/comparison_timeline_service.py:43-58 | no sentence of a document is unique against the document itself |
| Comparison.UniqueUpToNone | app/services/comparison_timeline_service.py:51-56 | without a unique piece nothing is collected |
| Comparison.InsideWholeWord | app/services/comparison_timeline_service.py:84 | a position inside a whole-word match has a word character before it |
| Comparison.WholeWordsDisjoint | app/services/comparison_timeline_service.py:84 | whole-word matches never overlap, so the scan counts each |
| Comparison.WholeWordCountUpToPositive | app/services/comparison_timeline_service.py:84 | the count is positive exactly when some position matches |
| Comparison.WholeWordCountPositive | app/services/comparison_timeline_service.py:84 | some whole-word match exists exactly when the count is positive |
| Comparison.TotalMentionsPositive | app/services/comparison_timeline_service.py:84-101 | the keyword total is positive exactly when a keyword occurs as a whole word |
| Comparison.SwapAll | app/services/comparison_timeline_service.py:61-114 | one swapped difference per difference |
| Comparison.RecommendationPart | app/services/comparison_timeline_service.py:70-80 | a recommendation difference exactly when both texts recommend and the first recommendations differ ignoring case |
| Comparison.DifferencesFromKinds | app/services/comparison_timeline_service.py:61-114 | at most three differences, in the order recommendation, risk, family; each exactly when its condition holds |
| Comparison.DifferencesFromValues | app/services/comparison_timeline_service.py:72-112 | each difference carries the first recommendations cut to 200 characters or the two term counts |
| Comparison.DifferencesFromSwap | app/services/comparison_timeline_service.py:61-114 | comparing B with A gives the same differences with the sides exchanged |
| Comparison.NoDifferencesWithItself | app/services/comparison_timeline_service.py:61-114 | a document has no key differences with itself |
| Comparison.KeyDifferencesSpec | app/services/comparison_timeline_service.py:61-114 | the key differences of two texts, each exactly when its condition on the texts holds |
| Comparison.KeyDifferencesSwap | app/services/comparison_timeline_service.py:61-114 | swapping the texts swaps the differences |
| Comparison.MentionsDiffer | app/services/comparison_timeline_service.py:87-103 | totals that differ by more than five mean one text uses a keyword |
| Comparison.CompareDocuments | app/services/comparison_timeline_service.py:117-193 | the comparison report of the specification |
| Comparison.ComparisonSpec | app/services/comparison_timeline_service.py:135-190 | the report has a similarity in [0, 100], at most three differences and at most ten unique sentences per side |
| Comparison.SelfComparison | app/services/comparison_timeline_service.py:117-193 | a document against itself is 100% similar with no differences and nothing unique |
| Comparison.AnalyzeAndCompareSpec | app/services/comparison_timeline_service.py:204-256 | only the differences change; one bias difference is appended exactly when both analyses succeed, high exactly when the overall severities differ |
| Comparison.RowsUpTo | app/services/comparison_timeline_service.py:466-481 | at most one row per pair |
| Comparison.Paths | app/services/comparison_timeline_service.py:488 | the documents are the requested paths, in order |
| Comparison.MatrixRowFor | app/services/comparison_timeline_service.py:467-481 | the four searches give a row exactly for a conflicting pair |
| Comparison.GenerateContradictionMatrix | app/services/comparison_timeline_service.py:434-492 | the matrix response of the specification |
| Comparison.RowsFromConflicts | app/services/comparison_timeline_service.py:466-481 | every row is the row of a conflicting pair |
| Comparison.RowsCoverConflicts | app/services/comparison_timeline_service.py:466-481 | every conflicting pair has its row |
| Comparison.RowForContradicts | app/services/comparison_timeline_service.py:472-481 | a reported row describes the two documents with the two different words of the pair, each used by its document |
| Comparison.MatrixSpec | app/services/comparison_timeline_service.py:451-490 | at most one row per pair; none for fewer than two documents; only the first two documents matter; the total is the number of rows |
| Comparison.RowsSwap | app/services/comparison_timeline_service.py:466-481 | exchanging the documents reports the same pairs, in the same order |
| Comparison.AsWrittenRowRepeats | app/services/comparison_timeline_service.py:475-476 | as written, a document saying "non-compliant" against one saying "compliant" conflicts, and both are described as "compliant" |
| Comparison.NoLongerWord | app/services/comparison_timeline_service.py:467-470 | a word longer than the text does not occur in it |
| Comparison.NonCompliantWords | app/services/comparison_timeline_service.py:461-468 | "non-compliant" uses both words of its pair as whole words |
| Comparison.CompliantWords | app/services/comparison_timeline_service.py:461-470 | "compliant" uses the positive word only |
| Pages.FirstHolding | app/services/nlp_service.py:371-374 | the index of the first page holding the text, or the page count |
| Pages.FirstHoldingSpec | app/services/nlp_service.py:371-374 | no page before that index holds the text, and the page at it does |
| Pages.LookUpPage | app/services/nlp_service.py:371-374 | the scan that stops at the first page holding the text finds that page's number (also app/services/evidence_extraction_service.py:97-101) |
| Pages.PageContainingSpec | app/services/nlp_service.py:371-374 | no page is found exactly when no page holds the text; a found page holds it, no earlier page does, and its number is at least 1 for valid pages (also app/services/evidence_extraction_service.py:97-101, app/models/base.py:51) |
| Text.StripIsTrimmedInfix | app/services/evidence_extraction_service.py:93 | stripping leaves a piece of the input with no whitespace at either end, and is empty exactly for all-whitespace input (also app/services/comparison_timeline_service.py:330) |
| Text.StripTrimmed | app/services/comparison_timeline_service.py:52 | text without whitespace at either end is unchanged by stripping |
| Text.Lower | app/services/nlp_service.py:372 | lower-casing maps every character and keeps the length (also app/services/comparison_timeline_service.py:55, app/services/comparison_timeline_service.py:363) |
| Text.Find | app/services/document_analysis_service.py:430-432 | the first occurrence, or -1 exactly when there is none |
| Text.IndexOfFrom | app/services/comparison_timeline_service.py:326 | the first index from a position holding a character, or -1 when none does |
| Text.LastIndexBefore | app/services/comparison_timeline_service.py:325 | the last index below a bound holding a character, or -1 when none does |
| Text.WindowAroundMatch | app/services/nlp_service.py:108-111 | the window around a match holds the match at its offset, is a piece of the text and extends at most w characters each side (also app/services/evidence_extraction_service.py:91-93) |
| Text.StrippedWindowBounded | app/services/evidence_extraction_service.py:91-93 | the stripped window is a piece of the text no longer than the match plus 2w |
| Numeric.RoundHalfEven | app/services/legal_framework_service.py:157 | an integer within one of the floor: the floor below a half, the next integer above a half, and the even one of the two exactly at a half |
| Numeric.RoundWithin | app/services/legal_framework_service.py:157 | rounding never leaves an interval whose ends lie on the rounding grid (also app/services/nlp_service.py:260-261) |
| Numeric.RoundOnGrid | app/services/document_analysis_service.py:380 | a value already on the grid is unchanged by rounding |
| Numeric.MeanWithin | app/services/ndis_goals_service.py:238-239 | a mean of values in [lo, hi] lies in [lo, hi] |

## Left out

- Regular expressions: Python's `re` engine is not modelled. The matches of each pattern catalogue, and the `findall` counts in the guardianship and state-bias scorers, are inputs. Three searches are function-valued parameters: the `Text.Search` of the behaviour descriptors and context categories in `DocumentAnalysis`, the `Text.Search` of the `Comparison` contradiction matrix, and the `markerIn` marker search of `DocumentAnalysis.HasEvidenceMarkers`. The lemmas about those rules hold for every search; the analyzers' own whole-word search is `Text.HasWord`. Evidence relevance is modelled concretely: the example and frequency words are searched with `Text.HasWord`, and the date marker `\b\d{1,2}[/-]\d{1,2}[/-]\d{2,4}\b` is `EvidenceExtraction.HasDate`, which covers every way the regex can split the digits among its three groups. `HasDate` differs from the regex only in its digit and word classes, which are ASCII (next lines).
- Pattern catalogues: the pattern texts (for example app/services/legal_framework_service.py:34-107) are not modelled. Only their grouping and their fixed weights, severities and categories are kept, because the regex semantics is not modelled.
- Lower-casing and `\w`: `Text.Lower` lower-cases only the ASCII letters. `Text.IsWordChar` is the ASCII word class. Unicode case folding and Unicode word characters are not modelled.
- Text.IsDigit: it accepts only the ASCII digits `0`-`9`. Python's `\d` on str patterns and `int()` accept every Unicode decimal digit, so the source parses a date written in, say, Arabic-Indic digits, and `Timeline.ParseDate` and `EvidenceExtraction.HasDate` do not. The Unicode decimal-digit set and its digit values are not modelled.
- Floating point: scores are exact reals. Python's `round(x, n)` is `Numeric.Round`, exact decimal round-half-even. Binary-float representation effects (a value like 2.675 stored below its decimal) are not modelled.
- Sequence matcher: `difflib.SequenceMatcher` is not modelled. Its `ratio()` and its matching blocks are inputs (`Comparison.ComparisonFor`, `DocumentAnalysis.TemplateReuse`).
- Report text: narrative reports, summaries, descriptions, explanations, title-casing and the legal-basis texts (app/services/legal_framework_service.py:177) are not modelled. The items keep the values those texts are rendered from. The narrative's own overall-severity ladder in app/services/nlp_service.py:288-297 repeats the one modelled for the response.
- Unused values: the context computed at app/services/comparison_timeline_service.py:320-322 and the dates from `extract_dates` (app/services/document_analysis_service.py:47-64, 145-147) are never used by the source, so they are not modelled. Likewise `pg_positive_evidence` (app/services/ndis_goals_service.py:294-303) is collected and then not returned.
- Timeline.SortEvents: Python's in-place Timsort is modelled as a stable insertion sort on a `seq`, not in place. Update in place and aliasing of the list are not captured. Stability, order and permutation are proved, and `Timeline.StableSortUnique` shows that every stable sort by date gives this result.
- I/O: PDF text extraction, spaCy, logging, settings and the HTTP/MCP layer are not modelled. A document is its path and its extracted text, and pages are `PageText` values. The reuse threshold is the configured 0.75.
- Exceptions: an exception re-raised by a tool is not modelled. In `Comparison.AnalyzeAndCompare`, each bias analysis is an input `Option<BiasOutcome>`; `None` stands for one that raised, which the source catches at app/services/comparison_timeline_service.py:252-253.
- Severities and category names are enumerations. The model does not keep the lower-case text the source stores.
- Dictionaries: `risk_scores` and the presence map are Dafny maps. Python's insertion order of their keys is not modelled.
- HumanRights.FindPageNumber: a position beyond the running length of every page gets `len(pages)` (app/services/legal_framework_service.py:172-174). That is the page count, not the `page_number` of the last page, and the two differ when the page numbers do not run 1 to n; the model returns the count.
- NdisGoals.PgScore: negatives weigh 1.5 (app/services/ndis_goals_service.py:323-330), so two positive and two negative indicators give 2 / (2 + 3) · 10 = 4.0 (`NdisGoals.TwoAndTwo`).
- GuardianshipRisk: the protective/risk split uses the unrounded score and the recommendations use the rounded score. So a factor can be a risk factor and still get no recommendation (`GuardianshipRisk.RiskFactorWithoutRecommendation`). This follows the code and is not claimed as a defect.

## Findings

| source | as written | input that shows it | evidently intended | confidence | as-written member | corrected member |
|---|---|---|---|---|---|---|
| app/services/legal_framework_service.py:355-356 | the score of each factor is stored through the attribute `f"{factor_name}_score"`; for the factor `will_and_preferences` that is `will_and_preferences_score`, which is not a field of `GuardianshipRiskAssessment` (app/models/legal.py:51 names it `will_preferences_score`), so the model's `setattr` raises at the second factor | any document: the second factor always raises, whatever its counts | each factor's rounded score is stored in its own field | not executed | GuardianshipRisk.AnalyzeAsWritten, GuardianshipRisk.AsWrittenFieldNames | GuardianshipRisk.AnalyzeGuardianshipRisk |
| app/services/comparison_timeline_service.py:472-481 | the row describes each document by the positive word whenever that document uses it, whichever branch of the test found the conflict | document 1 "non-compliant", document 2 "compliant": "compliant" occurs as a whole word in both (the hyphen is a word boundary), the pair conflicts, and both versions read "Described as compliant" | the row reports the two opposing words that make the conflict | not executed | Comparison.RowAsWritten, Comparison.AsWrittenRowRepeats | Comparison.RowFor, Comparison.RowForContradicts |

