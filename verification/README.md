# Risk-score classifier of the content-moderation dashboard

The dashboard shows each piece of content with a numeric risk score and sorts
it into one of three action tiers: 保留 (retain), 评审 (review) and 预警
(alert). The content-analysis view does this with a constant table of score
levels, each a half-open range `[min, max)`, and a classifier that takes the
first level whose range contains the score and otherwise falls back to the
table's first level. The scoring-rule configuration view holds a second
encoding of the same three buckets as its initial rule set.

This project models that logic in Dafny and proves its properties:

- `wrappers.dfy` — `Option`, standing for the `undefined` that `find` returns.
- `bands.dfy` — the generic machinery: a half-open `Band` and `FirstMatch`,
  which is `Array.prototype.find` with the containment test. `ClassifyIndex`
  is `find(...) || table[0]`. The coverage invariant `Contiguous` says the
  table starts at 0, ends at 100, has non-empty ranges, and each range starts
  where the previous one ends. Under it, the first match is the unique match
  for every score in [0, 100), and there is no match outside that interval.
- `actions.dfy` — the three actions and their labels.
- `analysis.dfy` — the level table, the classifier `GetScoreLevel`, the
  action-to-icon mapping and the demo contents as worked examples.
- `rules.dfy` — the scoring-rule record, the initial rule set, its consistency
  properties, and its agreement with the level table.

Scores are only compared, never computed, so they are modelled as `int`. The
rule slider also moves in whole points.

Score 100 falls back to retain. Every range is half-open, so the top level
`[60, 100)` does not contain 100. No level matches, and the classifier returns
the first level, 保留. The model keeps this behaviour (`Analysis.Boundaries`).
The same holds for negative scores and scores above 100.

## Model

| member | source | states |
|---|---|---|
| `Bands.FirstMatch` | src/components/analysis/ContentAnalysis.tsx:42 | returns the index of the first range containing the score; it returns none exactly when no range contains the score |
| `Bands.ClassifyIndex` | src/components/analysis/ContentAnalysis.tsx:42 | the result is a valid index; it is the first containing range, or index 0 when no range contains the score (the `|| scoreLevels[0]` fallback) |
| `Bands.BandBefore` | src/components/analysis/ContentAnalysis.tsx:8-12 | in a contiguous table, an earlier range ends no later than any later range starts |
| `Bands.ContiguousIsAscending` | src/components/analysis/ContentAnalysis.tsx:8-12 | a contiguous table is sorted and pairwise disjoint |
| `Bands.ContiguousIsWithinScale` | src/components/analysis/ContentAnalysis.tsx:8-12 | every range of a contiguous table lies within [0, 100] and is non-empty |
| `Bands.CoveredFrom` | src/components/analysis/ContentAnalysis.tsx:8-12 | a score below 100 that is at or above some range's start is contained in that range or a later one |
| `Bands.Coverage` | src/components/analysis/ContentAnalysis.tsx:8-12 | a contiguous table has a range containing the score if and only if the score is in [0, 100) |
| `Bands.AtMostOneMatch` | src/components/analysis/ContentAnalysis.tsx:8-12 | two ranges of a contiguous table that contain the same score are the same range |
| `Bands.UniqueMatch` | src/components/analysis/ContentAnalysis.tsx:41-43 | under the coverage invariant, `find` succeeds if and only if the score is in [0, 100); when it succeeds, its range is the only one containing the score |
| `Bands.ClassifyContiguous` | src/components/analysis/ContentAnalysis.tsx:42 | under the coverage invariant, the classifier picks index k if and only if range k contains the score (for scores in [0, 100)) or k is 0 (for all other scores) |
| `Actions.Label` | src/types/analysis.ts:28 | retain is spelled 保留, review 评审 and alert 预警, and each of these labels names exactly one action |
| `Actions.LabelInjective` | src/types/analysis.ts:28 | the three action labels are pairwise distinct |
| `Analysis.GetScoreLevel` | src/components/analysis/ContentAnalysis.tsx:41-43 | the result is always a level of the table. When some level's range contains the score, so does the result's; otherwise the result is the first level |
| `Analysis.ScoreLevelsContiguous` | src/components/analysis/ContentAnalysis.tsx:8-12 | the level ranges [0,40), [40,60), [60,100) satisfy the coverage invariant, so they are sorted, disjoint and within [0, 100] |
| `Analysis.GetScoreLevelBuckets` | src/components/analysis/ContentAnalysis.tsx:41-43 | the classifier agrees, for every score, with the reference buckets: [60,100) alert, [40,60) review, everything else retain. Outside [0,100) the result is the first level; inside, the level's range contains the score |
| `Analysis.Boundaries` | src/components/analysis/ContentAnalysis.tsx:42 | 0 and 39 give retain, 40 and 59 give review, 60 and 99 give alert. 100 and -1 fall back to the first level |
| `Analysis.IconForLabel` | src/components/analysis/ContentAnalysis.tsx:45-54 | 预警 gives the warning triangle and 评审 gives the shield. Every other label, and only those, gives the check mark |
| `Analysis.ScoreIcon` | src/components/analysis/ContentAnalysis.tsx:45-54 | a level's icon is the triangle if and only if its action is alert, the shield if and only if review, and the check mark if and only if retain |
| `Analysis.MockDataLevels` | src/components/analysis/ContentAnalysis.tsx:14-39 | the demo scores 45, 75 and 20 classify as review, alert and retain, with the shield, triangle and check-mark icons |
| `Rules.ContiguousRulesAreOrdered` | src/components/scoring/ScoringRules.tsx:13-30 | a rule set whose ranges satisfy the coverage invariant is sorted by `minScore`. Each of its rules has `minScore < maxScore`, with both bounds in [0, 100] |
| `Rules.InitialRulesWellFormed` | src/components/scoring/ScoringRules.tsx:9-34 | in the initial rules, the ids are distinct and each name equals its action. Each action is one of the three labels. The ranges satisfy the coverage invariant, so they are sorted and on the slider's 0-100 scale |
| `Rules.RuleFor` | src/components/analysis/ContentAnalysis.tsx:42 | reads a rule set with the classifier's first-match-else-first rule. The result is a rule of the set. When some rule's range contains the score, so does the result's; otherwise the result is the first rule |
| `Rules.RulesAgreeWithLevels` | src/components/scoring/ScoringRules.tsx:10-33 | the initial rules have the same ranges as the level table. For every score, the rule set and the level table give the same action, and that action is the reference bucket's |

## Left out

- Presentation is not modelled: card layout, CSS colour strings (kept only as data), badges, and the React state wrapper around the constant demo list.
- Rule editing is not modelled, because the source has none. The rule set is never updated, the slider and description input only set default values, and the "add rule" button has no handler.
- The rule store's write operations are not modelled: validated insert/update, guarded removal and revision counter. The source has no such code. The coverage invariant is instead proved of the constant tables, and `Rules.ContiguousRulesAreOrdered` is proved of any rule set.
- Aggregation of agent scores, collection from scoring agents, the audit history and tag attachment are not modelled, because the source does not implement them. The history view renders one literal record, and its aggregate 35 is not computed from the agent scores. `Rules.AgentScore` is declared as data only. The history and configuration record types are not part of this model.
- Inclusive top bucket: no level includes 100, and no error is raised when no level matches. The code uses half-open ranges everywhere and falls back to the first level; the model follows it, so 100, negative scores and scores above 100 all classify as 保留.
- Fractional scores are not modelled. The source's `number` scores are modelled as integers; the only operations on them are comparisons with integer bounds. `NaN` and ±Infinity fail every comparison at src/components/analysis/ContentAnalysis.tsx:42, so they fall back to the first level, as out-of-range integers do in the model.
- `Analysis.ScoreIcon` takes the level's action from the closed three-value type that the source declares for score levels. The `default` branch of the source's `switch` therefore covers only 保留 here. `Analysis.IconForLabel` keeps the switch over arbitrary strings.
- Authentication, profile pages, charts and routing are not part of this model; they are I/O and rendering only.
