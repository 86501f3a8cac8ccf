# Financial-health rules engine

A Dafny model of the per-row rules engine of the Health_scoring dashboards.
Each row is one (company, quarter) record. It holds four indicator families
(profitability, liquidity, solvency, leverage_adjusted), each with a local and
a global score, plus `revenue_growth`. From one row the engine derives five
values:

- the local alert summary (`get_local_alerts`);
- the global alert summary (`get_global_alerts`);
- the local status (`get_local_status`), with its plain-language grouping
  (`get_friendly_status`);
- the overall status (`get_status`);
- the recommendation (`get_recommendation`).

Six pages carry copies of this engine that differ in three places. The model
holds one engine and takes the differences as a `Pages.Page` value:

- **Revenue alert bound:** ±0.1, except ±0.01 in `Health_scoring/app.py`.
- **Profitability global column:** `score_profitabilty_global` (misspelled),
  except `3_Financial_view.py`, which reads `score_profitability_global`.
- **Mixed Risk rule shape:** `Nested` in `simplified.py`, `simplified_view.py`,
  `financial_quarter_view.py` and `app.py`. There an inner `if` with no `else`
  sends a row with solvency low in both views, but leverage high in neither,
  straight to `"Neutral"`. `Flat` in `2_Simplified_view.py`: a single
  conjunction, so such a row goes on to the later rules.

Modules, one file each:

- `Text`: `sep.join` and ASCII `str.title`.
- `Rows`: families, column keys, rows and thresholds. A row is a
  `map<string, real>`. An absent key stands for both a missing column and a NaN
  cell, because every read is guarded by `pd.notna` or fails the NaN comparison.
- `Indicators`: the four indicator sets and the two loops that build them.
- `Alerts`: both alert summaries.
- `LocalStatus`: local status and friendly status.
- `OverallStatus`: the status chain.
- `Recommendation`: the recommendation text.
- `Pages`: the page instances, the per-row derivation, recomputation, and the
  summary counts.
- `Scenarios`: concrete rows.

Every accumulating loop is a method whose postcondition ties it to a
specification function: appending tags, adding to the sets, counting red and
green, appending phrases. The `elif` chains are functions. The properties are
lemmas about those functions.

The order of family names inside a recommendation phrase is Python's set
iteration order. The model keeps each phrase as a (kind, set of families) pair.
Rendering takes the iteration order as a parameter
`iterate: set<Family> -> seq<Family>`.

Two behaviours of the code worth noting:

- A row with no local score at all is graded `Stable`, because `all()` over no
  values is true.
- Under the nested Mixed Risk shape, a row with solvency as the only common-low
  family and leverage high in neither view is `Neutral`, even when a later rule
  (Strong Performer, Global Improvement, Global Risk) would match.

## Model

| member | source | states |
|---|---|---|
| Text.JoinEmptyIff | Health_scoring/app_streamlit/pages/simplified.py:37 | a join of non-empty tags is empty exactly when there are no tags |
| Text.TitleOfCommaJoin | Health_scoring/app_streamlit/pages/simplified.py:167 | `", ".join(names).title()` equals the join of the individually title-cased names |
| Rows.LeverageLabel | Health_scoring/app_streamlit/pages/simplified.py:29 | `"leverage_adjusted".title()` is `Leverage_Adjusted`: the underscore starts a new word |
| Rows.FamilyLabels | Health_scoring/app_streamlit/pages/simplified.py:25-31 | the four displayed family labels are Profitability, Liquidity, Solvency, Leverage_Adjusted |
| Rows.KeysDistinct | Health_scoring/app_streamlit/pages/simplified.py:108-110 | the nine columns read are pairwise different: local keys, global keys and `revenue_growth` never collide |
| Rows.SpellingsDiffer | Health_scoring/app_streamlit/pages/3_Financial_view.py:31 | the correctly spelled profitability global key is a different column from `score_profitabilty_global` |
| Indicators.Partition | Health_scoring/app_streamlit/pages/simplified_view.py:112-122 | no family is both low and high in one view; a missing score, or one at exactly 0.2 or 0.8 or in between, joins no set |
| Indicators.BuildStatusSets | Health_scoring/app_streamlit/pages/simplified.py:103-122 | the `if`/`elif` loop of `get_status` builds exactly the four threshold sets of the row |
| Indicators.BuildRecommendationSets | Health_scoring/app_streamlit/pages/simplified_view.py:148-159 | the four independent `if`s of `get_recommendation` build the same four sets as `get_status` |
| Indicators.RedGreenBound | Health_scoring/app_streamlit/pages/simplified.py:69-74 | no local score is both red and green, and red + green is at most the number of present local scores, itself at most 4 |
| Alerts.GetLocalAlerts | Health_scoring/app_streamlit/pages/simplified.py:23-37 | the loop builds the family tags in family order, then the revenue tag, and returns their join |
| Alerts.LocalAlertsRanked | Health_scoring/app_streamlit/pages/simplified.py:23-37 | local tags come in family order, at most one per family, and a revenue tag is always last |
| Alerts.LocalAlertsMembership | Health_scoring/app_streamlit/pages/simplified.py:25-36 | `↑ F` exactly when the local score is present and > 0.8; `↓ F` exactly when < 0.2; `Rev ↑` exactly when growth > bound; `Rev ↓` exactly when growth < -bound |
| Alerts.RevenueAlone | Health_scoring/app_streamlit/pages/simplified.py:32-36 | with every local score in [0.2, 0.8] or missing, the revenue tag is the only tag |
| Alerts.LocalSummaryEmptyIff | Health_scoring/app_streamlit/pages/financial_quarter_view.py:15-29 | the local summary is `""` exactly when every present local score is in [0.2, 0.8] and growth is absent or within ±bound |
| Alerts.GetGlobalAlerts | Health_scoring/app_streamlit/pages/simplified.py:39-48 | the loop builds the global tags in family order and returns their join |
| Alerts.GlobalAlerts | Health_scoring/app_streamlit/pages/simplified.py:39-48 | at most four global tags, and by their type none is a revenue tag |
| Alerts.GlobalAlertsMembership | Health_scoring/app_streamlit/pages/financial_quarter_view.py:31-40 | global tags in family order; `High F` exactly when the global score is > 0.8; `Low F` exactly when < 0.2 |
| Alerts.GlobalSummaryEmptyIff | Health_scoring/app_streamlit/pages/simplified.py:39-48 | the global summary is `""` exactly when no present global score is outside [0.2, 0.8] |
| LocalStatus.CountSignals | Health_scoring/app_streamlit/pages/simplified.py:69-74 | the counting loop returns the sizes of the red and the green local sets |
| LocalStatus.AllLocalInBand | Health_scoring/app_streamlit/pages/simplified.py:95 | the `all(...)` test is true exactly when every present local score is in [0.2, 0.8] |
| LocalStatus.Grade | Health_scoring/app_streamlit/pages/simplified.py:79-98 | the first-match chain: Leveraged Risk exactly when leverage is present and < 0.2; Critical Risk or Danger exactly when red ≥ 2 and leverage not low; Excellent Health needs red = 0, leverage > 0.8 and growth > 0.1; Strong and Good signal need red = 0 and a green; Watch needs a score out of band, red ≤ 1 and not (red = 1, green = 0) |
| LocalStatus.GetLocalStatus | Health_scoring/app_streamlit/pages/simplified.py:60-98 | returns the label the ten-way chain assigns to the row |
| LocalStatus.LocalLabelsDistinct | Health_scoring/app_streamlit/pages/3_Financial_view.py:63-82 | the ten labels are pairwise distinct, and each reads back as its own status |
| LocalStatus.InBandIffNoSignal | Health_scoring/app_streamlit/pages/simplified.py:95-96 | all present scores in [0.2, 0.8] exactly when red = 0 and green = 0 |
| LocalStatus.LeverageCounted | Health_scoring/app_streamlit/pages/simplified.py:69-81 | leverage below 0.2 is counted red and above 0.8 green |
| LocalStatus.LeveragedRiskIff | Health_scoring/app_streamlit/pages/simplified.py:79-80 | Leveraged Risk exactly when local leverage is present and < 0.2, whatever else the row holds |
| LocalStatus.ExcellentHealthIff | Health_scoring/app_streamlit/pages/3_Financial_view.py:65-66 | Excellent Health exactly when leverage > 0.8, red = 0 and growth > 0.1; it implies green ≥ 1 |
| LocalStatus.CriticalRiskImplies | Health_scoring/app_streamlit/pages/financial_quarter_view.py:71-76 | Critical Risk implies red = 3 exactly and leverage not low |
| LocalStatus.DangerIff | Health_scoring/app_streamlit/pages/financial_quarter_view.py:71-78 | Danger exactly when red = 2 and local leverage is not < 0.2 |
| LocalStatus.GoodSignalImplies | Health_scoring/app_streamlit/pages/3_Financial_view.py:71-74 | Good signal implies red = 0 and green = 1 |
| LocalStatus.MixedRiskImplies | Health_scoring/app_streamlit/pages/3_Financial_view.py:67-76 | local Mixed Risk implies red = green = 1 |
| LocalStatus.CautionIff | Health_scoring/app_streamlit/pages/3_Financial_view.py:63-78 | Caution exactly when red = 1, green = 0 and leverage is not < 0.2 |
| LocalStatus.StableIff | Health_scoring/app_streamlit/pages/simplified.py:83-96 | Stable exactly when red = 0 and green = 0, which includes a row with no local score |
| LocalStatus.WatchImplies | Health_scoring/app_streamlit/pages/simplified.py:83-98 | Watch only with red = 1 and green ≥ 2 |
| LocalStatus.FriendlyStatus | Health_scoring/app_streamlit/pages/simplified.py:257-265 | a label maps to a group other than Unknown exactly when it is one of the ten local-status labels; Healthy exactly for Excellent Health, Strong, Good signal; At Risk exactly for Danger, Critical Risk, Leveraged Risk |
| LocalStatus.FriendlyStatusTotal | Health_scoring/app_streamlit/pages/simplified.py:257-265 | every local-status label maps to Healthy, stable or At Risk, never Unknown; Healthy and At Risk exactly for their three labels |
| OverallStatus.Classify | Health_scoring/app_streamlit/pages/simplified.py:128-141 | the first-match chain: Structural Risk exactly when ≥ 2 families are common-low; Mixed Risk needs solvency common-low and leverage high; Strong Performer needs common-high ≥ 2; Global Improvement needs global-high ≥ 2; Global Risk needs global-low ≥ 2; under the flat shape Neutral means none of the global counts reached 2 |
| OverallStatus.GetStatus | Health_scoring/app_streamlit/pages/simplified.py:102-141 | builds the sets with the status loop and returns the label the chain assigns, for either Mixed Risk shape |
| OverallStatus.StructuralRiskIff | Health_scoring/app_streamlit/pages/2_Simplified_view.py:37-38 | Structural Risk exactly when at least two families are low in both views |
| OverallStatus.MixedRiskIff | Health_scoring/app_streamlit/pages/simplified_view.py:128-132 | Mixed Risk exactly when the common-low set is {solvency} and leverage is high in some view |
| OverallStatus.NestedSolvencyExit | Health_scoring/app.py:64-77 | nested shape: common-low = {solvency} and leverage high in neither view gives Neutral |
| OverallStatus.ShapesDiffer | Health_scoring/app_streamlit/pages/simplified.py:128-141 | the two shapes disagree only when solvency is the sole common-low family and leverage is not high; there the nested one says Neutral |
| OverallStatus.LocalWeaknessIff | Health_scoring/app_streamlit/pages/2_Simplified_view.py:41-42 | Local Weakness exactly when ≥ 2 families are low locally and none globally; so never with solvency common-low |
| OverallStatus.NestedStrongPerformer | Health_scoring/app_streamlit/pages/financial_quarter_view.py:120-128 | Strong Performer implies common-low ≤ 1 and without solvency, not (local-low ≥ 2 and global-low empty), common-high ≥ 2 |
| OverallStatus.GlobalImprovementImplies | Health_scoring/app_streamlit/pages/2_Simplified_view.py:43-46 | Global Improvement implies global-high ≥ 2 and common-high < 2 |
| OverallStatus.NestedGlobalRisk | Health_scoring/app.py:64-76 | nested shape: Global Risk implies solvency is not common-low and global-low ≥ 2 |
| OverallStatus.EmptyRowNeutral | Health_scoring/app_streamlit/pages/financial_quarter_view.py:94-133 | a row with no scores is Neutral |
| OverallStatus.StatusLabelsDistinct | Health_scoring/app_streamlit/pages/financial_quarter_view.py:120-133 | the seven status labels are pairwise distinct |
| Recommendation.GetRecommendation | Health_scoring/app_streamlit/pages/simplified.py:142-179 | builds the sets and the phrases and returns the default sentence or the phrases joined with `". "` plus `"."` |
| Recommendation.AppendPhrases | Health_scoring/app_streamlit/pages/simplified.py:164-174 | the four conditional appends produce the texts of the row's phrases, in order |
| Recommendation.AppendIf | Health_scoring/app_streamlit/pages/simplified.py:166-167 | one conditional append adds a phrase text exactly when its set is non-empty |
| Recommendation.PhrasesShape | Health_scoring/app_streamlit/pages/simplified_view.py:164-179 | at most four phrases, in the order both-weak, local-only, global-only, strong, each at most once and never empty; none exactly when the four derived sets are empty |
| Recommendation.LowPhrasesPartition | Health_scoring/app_streamlit/pages/simplified_view.py:166-171 | the local-only and global-only phrases share no family with the both-weak phrase; each low family is named by exactly one low phrase |
| Recommendation.PhraseCoverage | Health_scoring/app_streamlit/pages/simplified_view.py:173-174 | a family is named in some phrase exactly when it is low in some view or high in both; a family high in one view only and low in neither is named nowhere |
| Recommendation.DefaultIff | Health_scoring/app_streamlit/pages/simplified_view.py:164-177 | the result is the default sentence exactly when there is no phrase |
| Recommendation.EndsWithPeriod | Health_scoring/app_streamlit/pages/2_Simplified_view.py:126-139 | every recommendation is non-empty and ends with `"."` |
| Recommendation.PhraseTextHead | Health_scoring/app_streamlit/pages/simplified.py:166-174 | every phrase starts with one of W, I, G, S, never with the default sentence's N |
| Recommendation.PhraseTextLabels | Health_scoring/app_streamlit/pages/simplified.py:167-174 | a phrase is its prefix followed by the title-cased family labels joined with `", "` |
| Recommendation.StrengthOnly | Health_scoring/app_streamlit/pages/simplified.py:173-179 | with nothing low, the result is the strength phrase alone, or the default sentence when nothing is high in both views |
| Recommendation.SingletonPhrase | Health_scoring/app_streamlit/pages/simplified.py:167 | a phrase naming one family reads the same whatever the set iteration order |
| Pages.DeriveRow | Health_scoring/app_streamlit/pages/financial_quarter_view.py:194-201 | the column assignments compute the five derived values of the row |
| Pages.DeriveDependsOnInputsOnly | Health_scoring/app_streamlit/pages/financial_quarter_view.py:194-201 | two rows that agree on the nine input columns derive the same five values |
| Pages.SecondPassSameValues | Health_scoring/app_streamlit/pages/financial_quarter_view.py:227-233 | recomputing after the first pass wrote its derived columns gives the same values as the first pass |
| Pages.CountIn | Health_scoring/app_streamlit/pages/2_Simplified_view.py:155-157 | an `isin(...).sum()` count never exceeds the number of rows |
| Pages.StatusBucket | Health_scoring/app_streamlit/pages/2_Simplified_view.py:155-161 | each status is exactly one of a risk label, a strong label, or Neutral |
| Pages.BucketCounts | Health_scoring/app_streamlit/pages/2_Simplified_view.py:155-161 | risk count + strong count + Neutral count equals the number of quarters, so risk + strong never exceeds it |
| Scenarios.AppRevenueBound | Health_scoring/app.py:18-22 | growth 0.05 is tagged `Rev ↑` under ±0.01 but not under ±0.1; growth of exactly 0.01 gives no tag |
| Scenarios.FinancialViewSpelling | Health_scoring/app_streamlit/pages/3_Financial_view.py:28-37 | a row holding only `score_profitabilty_global` gets no global tag from the correctly spelled page |
| Scenarios.MisspelledPagesSeeProfitability | Health_scoring/app.py:25-34 | the pages reading the misspelled key tag the same row `High Profitability` |
| Scenarios.MixedRiskShapesDisagree | Health_scoring/app_streamlit/pages/2_Simplified_view.py:37-49 | solvency low in both views plus liquidity low globally is Global Risk under the flat shape and Neutral under the nested one |
| Scenarios.AllMissingRow | Health_scoring/app_streamlit/pages/financial_quarter_view.py:94-171 | an empty row derives empty alerts, local status Stable, Neutral and the default recommendation, on every page |
| Scenarios.NestedExitHidesStrongPerformer | Health_scoring/app_streamlit/pages/simplified.py:130-136 | solvency low in both views and two families high in both: Neutral under the nested shape, Strong Performer under the flat one |
| Scenarios.SolvencyCommonLowSplitLiquidity | Health_scoring/app_streamlit/pages/simplified.py:128-141 | solvency low in both views, liquidity low locally and high globally: Neutral under either shape |
| Scenarios.AllScoresHigh | Health_scoring/app_streamlit/pages/simplified.py:135-136 | every score at 0.9 gives Strong Performer |
| Scenarios.AllScoresHighRecommendation | Health_scoring/app_streamlit/pages/simplified.py:173-179 | every score at 0.9 gives a single strength phrase: the strength prefix, then the labels of `iterate(AllFamilies)` joined with ", ", for any `iterate` |
| Scenarios.AllScoresHighInPageOrder | Health_scoring/app_streamlit/pages/simplified.py:173-179 | iterated in page order, that phrase lists the four labels in page order |
| Scenarios.DisplayedLabels | Health_scoring/app_streamlit/pages/simplified.py:174 | the four families in page order display as Profitability, Liquidity, Solvency, Leverage_Adjusted |
| Scenarios.LowLeverageAlone | Health_scoring/app_streamlit/pages/simplified.py:79-80 | local leverage 0.1 alone gives Leveraged Risk |
| Scenarios.OneRedRestMid | Health_scoring/app_streamlit/pages/simplified.py:93-94 | one red local score and the others mid-range give Caution |

## Left out

- CSV loading, `sort_values`, the company filter and every `st.*` widget, expander and HTML/markdown block: input/output and UI.
- `Health_scoring/app_streamlit/pages/4_Score_explorer.py`, `score_explorer.py` and `Health_scoring/app_streamlit/app.py`: they only load data, chart it, or show a landing page.
- `to_percentage`, `format_percentage`, the `Rev Growth` lambda and `revenue_trend`: these format floats with printf rounding.
- `style_status`, `color_local_status` and `color_overall_status`: presentation only. `style_status` maps any unlisted value to "⚪ Neutral".
- IEEE rounding of the literals 0.2, 0.8, 0.1 and 0.01: thresholds are exact reals.
- Title-casing of characters outside ASCII: only ASCII letters are cased.
- The iteration order of a Python set of strings, which is hash-randomised. It is a parameter of the recommendation.
- Recommendation.GetRecommendation, Pages.DeriveRow: `iterate` may be any function from sets to sequences, including one that drops or repeats families. No page iterates that way; every recommendation lemma holds for all such functions, and `Recommendation.Enumerates` states what a real set iteration satisfies.
- Pages.Derive: computes all five values for every page. `Health_scoring/app.py` and `2_Simplified_view.py` do not compute a local status. `3_Financial_view.py` computes neither the overall status nor the recommendation.
- Pages.SecondPassSameValues: the row model holds only numeric cells. The derived string columns are represented by their names, and the lemma shows none of them is read.
- Alerts.GetLocalAlerts, Alerts.GetGlobalAlerts: tags are accumulated as structured alerts and rendered to text when joined. The string equals the one built by appending rendered tags.
- Scenarios.AllScoresHighInPageOrder: states the text with `Join(Labels(Families), ", ")`. Scenarios.DisplayedLabels gives those labels as literals.
