# Bank customer churn: the rule-based scoring tables

A Dafny model of the rule engine of the churn-scoring Streamlit application.
Once a classifier has produced a churn probability for a customer, three rule
tables turn that probability and the customer's six-field record into what
the page shows:

- `calculate_risk_level` buckets the probability into `bajo` / `medio` /
  `alto`, each with an indicator. The buckets are closed below and open above
  at 0.3 and 0.6.
- `get_customer_insights` gives exactly three profile observations: credit,
  then tenure, then products. Each is picked from three tiers.
- `get_smart_analysis` writes a three-section markdown narrative. The first
  section is a risk-framing sentence in four probability tiers. The second is
  the key factors: each field adds at most one factor, and only the first four
  are listed. The third is the recommendations for one of three tiers, some of
  them conditional.

Modules:

- `ChurnData` (`churn_data.dfy`): the customer record, the language, and how
  a language code selects a language.
- `RiskLevel` (`risk_level.dfy`): the risk bucket.
- `CustomerInsights` (`customer_insights.dfy`): the tiers, the observation
  keys, their texts, one method per threshold chain, and the method that
  runs the three chains.
- `Narrative` (`narrative.dfy`): the narrative as message keys. It holds the
  framing tier, the factor rules, the truncation to four, the recommendations
  and the sequence of narrative lines, each as a specification function, with
  the lemmas about them.
- `NarrativeText` (`narrative_text.dfy`): the wording of every key in each
  language, and the markdown of a whole narrative.
- `SmartAnalysis` (`smart_analysis.dfy`): `get_smart_analysis` as a method.
  It appends lines step by step, collects the factors per language branch and
  loops over the first four factors. Its postcondition equates the result with
  `Narrative.Analysis`.
- `Consistency` (`consistency.dfy`): how the bucket, the insights and the
  narrative tiers relate, and the two reference records (strongest and
  weakest profile).

Modelling choices:

- Probabilities and record fields are `real`. The application converts every
  field with `float(...)`, and the model keeps only the comparisons, which are
  exact over the reals.
- Only the code `"es"` selects Spanish. Every other code takes the English
  branch (`ChurnData.LangOf`). The code does this; there is no
  unsupported-language error.
- The two language branches of `get_smart_analysis` differ. The Spanish one
  has the age rule (under 30 or over 60). The English one has none, so English
  has no age factor at all, and `NarrativeText.FactorText` has no English age
  wording.
- The narrative is a sequence of `Narrative.Line` keys. `NarrativeText.Markdown`
  renders it, and `NarrativeText.MarkdownAppend` shows that rendering a
  concatenation is the concatenation of the renderings, so building the
  string with `+=` and building the line list are the same.
- The wording tables split each literal of the code at a fixed point: a
  factor is its kind's mark, a space and its phrase (`NarrativeText.FactorText`),
  an observation is its icon, a space and its phrase
  (`CustomerInsights.InsightText`), a recommendation is its bold name, a colon
  and its advice (`NarrativeText.RecText`). The concatenations are exactly the
  code's literals.
- The formatted percentage `{probability*100:.1f}` is an opaque `percent`
  string argument of the rendering.
- The `prediction` argument of `get_smart_analysis` is accepted and never
  read. `Narrative.Analysis` has no such parameter, and
  `SmartAnalysis.GetSmartAnalysis` is proved equal to it.
- The insight thresholds are written out once per language in the code, and
  the two copies are identical. The model writes them once over the selected
  language. `CustomerInsights.InsightKeys` is the language-independent choice
  of tier, so both languages pick the same tier for every record.
- The products insight tier is `>= 3`, `== 2`, else. A non-integral count
  below 3, other than 2, therefore lands in "low usage", as in the code.

## Model

| member | source | states |
|---|---|---|
| `ChurnData.LangOf` | app_streamlit/app.py:95 | Spanish exactly for the code `"es"`, English for every other code |
| `RiskLevel.CalculateRiskLevel` | app_streamlit/app.py:224-231 | `("bajo","🟢")` iff p < 0.3, `("medio","🟡")` iff 0.3 <= p < 0.6, `("alto","🔴")` iff p >= 0.6: every probability is in exactly one bucket |
| `RiskLevel.RiskLevelMonotone` | app_streamlit/app.py:224-231 | a higher probability never gives a lower bucket |
| `RiskLevel.RiskLevelBoundaries` | app_streamlit/app.py:226-231 | 0.29 is low, 0.3 and 0.59 are medium, 0.6 is high |
| `CustomerInsights.CreditTier` | app_streamlit/app.py:239-244 | excellent iff score >= 750, good iff 650 <= score < 750, needs improvement iff score < 650 |
| `CustomerInsights.TenureTier` | app_streamlit/app.py:246-251 | long-term iff tenure >= 5, established iff 2 <= tenure < 5, new iff tenure < 2 |
| `CustomerInsights.ProductsTier` | app_streamlit/app.py:253-258 | high iff products >= 3, moderate iff products == 2, low otherwise |
| `CustomerInsights.InsightKeys` | app_streamlit/app.py:234-281 | exactly three observations, in the order credit, tenure, products, each with its own field's tier |
| `CustomerInsights.InsightText` | app_streamlit/app.py:239-279 | the literals at app.py:240-258 (Spanish) and 261-279 (English): the observation's icon, a space and its phrase |
| `CustomerInsights.InsightMarkInjective` | app_streamlit/app.py:239-279 | the nine observations open with nine different icons |
| `CustomerInsights.InsightTextInjective` | app_streamlit/app.py:260-279 | within one language no two observations share a text, so the text tells the field and the tier |
| `CustomerInsights.Rendered` | app_streamlit/app.py:236-281 | one text per observation, the k-th text that of the k-th observation |
| `CustomerInsights.RenderedTriple` | app_streamlit/app.py:236-281 | three observations render as their three texts in order |
| `CustomerInsights.AddCreditInsight` | app_streamlit/app.py:239-244 | the credit chain appends exactly the text of the record's credit tier |
| `CustomerInsights.AddTenureInsight` | app_streamlit/app.py:246-251 | the tenure chain appends exactly the text of the record's tenure tier |
| `CustomerInsights.AddProductsInsight` | app_streamlit/app.py:253-258 | the products chain appends exactly the text of the record's products tier |
| `CustomerInsights.GetCustomerInsights` | app_streamlit/app.py:234-281 | returns exactly three texts, namely the language-independent observation keys rendered in the selected language |
| `Narrative.FramingTier` | app_streamlit/app.py:99-106 | very high iff p > 0.7, moderate-high iff 0.5 < p <= 0.7, moderate iff 0.3 < p <= 0.5, low iff p <= 0.3 |
| `Narrative.Fires` | app_streamlit/app.py:111-134 | the condition of each factor as the if/elif tests write it; an age factor fires only in Spanish |
| `Narrative.Factors` | app_streamlit/app.py:109-134 | the shared fields' factors come first, and at most one more follows, the Spanish age factor |
| `Narrative.FactorsSpec` | app_streamlit/app.py:109-134 | a factor is collected iff its condition holds, and the collected factors run strictly in field priority order, so no field adds two |
| `Narrative.FactorMembership` | app_streamlit/app.py:111-134 | each field's if/elif adds its warning or its positive factor exactly when that condition holds |
| `Narrative.FactorsByLanguage` | app_streamlit/app.py:175-195 | English collects the four shared fields' factors; Spanish collects the same and then its age factor; at most four shared factors |
| `Narrative.Prefix` | app_streamlit/app.py:137 | the slice `[:n]`: min(length, n) elements, a prefix of the list |
| `Narrative.KeyFactors` | app_streamlit/app.py:136-138 | `factors[:4]`: the first min(4, n) collected factors |
| `Narrative.KeyFactorsShape` | app_streamlit/app.py:136-138 | the listed factors number at most four, are a prefix of the collected ones, keep their priority order and hold at most one factor per field |
| `Narrative.SharedKeyFactor` | app_streamlit/app.py:109-138 | a credit, tenure, products or balance factor is listed iff its condition holds: truncation never drops one of them |
| `Narrative.AgeKeyFactor` | app_streamlit/app.py:131-138 | an age factor is listed iff the language is Spanish, its condition holds and at most three shared fields fired; English never lists one |
| `Narrative.SharedFactorMembership` | app_streamlit/app.py:177-195 | a shared-field factor is collected iff its condition holds |
| `Narrative.RecTierOf` | app_streamlit/app.py:143-159 | urgent iff p > 0.6, retention iff 0.3 < p <= 0.6, growth iff p <= 0.3 |
| `Narrative.Recommendations` | app_streamlit/app.py:143-159 | three or four recommendations, all from the probability's tier |
| `Narrative.RecommendationsConditional` | app_streamlit/app.py:143-154 | cross-selling iff urgent and products <= 1, advisory iff retention and balance > 50000, either one in third place; four items iff a conditional item fires or the tier is growth |
| `Narrative.RecommendationsFixed` | app_streamlit/app.py:203-219 | the fixed items of each tier in their fixed places; growth is exactly its four items |
| `Narrative.FactorLines` | app_streamlit/app.py:137-138 | one factor line per factor, in list order |
| `Narrative.RecLines` | app_streamlit/app.py:143-159 | one recommendation line per recommendation, in list order |
| `Narrative.Analysis` | app_streamlit/app.py:96-159 | four heading or framing lines plus one line per listed factor and per recommendation; risk heading, framing of the probability's tier and key-factors heading first, recommendations heading after the factor lines |
| `Narrative.AnalysisSections` | app_streamlit/app.py:96-159 | risk header first, framing second, key-factors header third, recommendations header right after the at most four factor lines, each header exactly once |
| `NarrativeText.RiskHeaderText` | app_streamlit/app.py:96 | the literal at app.py:96 (Spanish) and app.py:164 (English) |
| `NarrativeText.FramingText` | app_streamlit/app.py:99-106 | the literals at app.py:100-106 (Spanish) and 167-173 (English), with the percentage inserted |
| `NarrativeText.FactorsHeaderText` | app_streamlit/app.py:136 | the literal at app.py:136 (Spanish) and app.py:197 (English) |
| `NarrativeText.RecsHeaderText` | app_streamlit/app.py:141 | the literal at app.py:141 (Spanish) and app.py:201 (English) |
| `NarrativeText.FactorText` | app_streamlit/app.py:111-134 | the literals at app.py:111-134 (Spanish) and 177-195 (English): the kind's mark, a space and the phrase |
| `NarrativeText.RecText` | app_streamlit/app.py:143-159 | the literals at app.py:144-159 (Spanish) and 204-219 (English) without the bullet: bold name, colon, advice |
| `NarrativeText.LineText` | app_streamlit/app.py:137-138 | every line adds text; a factor or recommendation line is a bullet `• …` ending in a newline, as the f-string `f"• {factor}\n"` writes it |
| `NarrativeText.Markdown` | app_streamlit/app.py:96-159 | the lines written one after another with `+=`; no lines give the empty text |
| `NarrativeText.MarkdownAppend` | app_streamlit/app.py:96-159 | the markdown of two line lists written one after the other is the concatenation of their markdowns |
| `NarrativeText.AnalysisWritable` | app_streamlit/app.py:175-199 | every line of a narrative has a wording in its language: the English narrative never holds an age factor |
| `NarrativeText.KeyFactorLinesWritable` | app_streamlit/app.py:136-138 | every listed factor line has a wording in its language |
| `NarrativeText.SectionsWritable` | app_streamlit/app.py:96-159 | headings and framing can always be written, so a narrative is writable when its factor and recommendation lines are |
| `NarrativeText.MarkdownSnoc` | app_streamlit/app.py:137-159 | one more `+=` adds that line's text at the end |
| `NarrativeText.OneLineMarkdown` | app_streamlit/app.py:96 | a single line is written as its own text |
| `NarrativeText.HeadingLines` | app_streamlit/app.py:96-141 | headings and the framing sentence are written without a bullet |
| `NarrativeText.HeadMarkdown` | app_streamlit/app.py:96-136 | the opening text is the risk heading, the framing sentence and the key-factors heading |
| `NarrativeText.SectionsMarkdown` | app_streamlit/app.py:96-159 | the narrative's text is its headings, framing sentence, factor bullets and recommendation bullets in that order |
| `NarrativeText.AnalysisMarkdownSections` | app_streamlit/app.py:96-159 | a record's narrative text splits into those sections |
| `NarrativeText.AnalysisMarkdown` | app_streamlit/app.py:91-221 | the returned markdown is the risk heading, the framing sentence of the probability's tier, the key-factors heading, the bullets of the first four factors, the recommendations heading and the bullets of the tier's recommendations |
| `NarrativeText.AgeFreeEnglish` | app_streamlit/app.py:175-199 | no listed English factor is about age |
| `SmartAnalysis.WriteFraming` | app_streamlit/app.py:99-106 | appends exactly the framing line of the probability's tier |
| `SmartAnalysis.CollectFactorsEs` | app_streamlit/app.py:109-134 | the Spanish if/elif chains collect exactly the specified Spanish factor list |
| `SmartAnalysis.CollectFactorsEn` | app_streamlit/app.py:175-195 | the English if/elif chains collect exactly the specified English factor list, with no age rule |
| `SmartAnalysis.WriteKeyFactors` | app_streamlit/app.py:136-138 | the loop over `factors[:4]` appends exactly the lines of the first four factors, in order |
| `SmartAnalysis.WriteRecommendations` | app_streamlit/app.py:141-159 | appends exactly the recommendation lines of the tier, the conditional one in third place |
| `SmartAnalysis.GetSmartAnalysis` | app_streamlit/app.py:91-221 | the whole narrative equals the specified one for the selected language; it does not depend on the prediction argument |
| `Consistency.BucketAndRecommendationTiers` | app_streamlit/app.py:224-231 | the bucket agrees with the recommendation tier except at exactly p = 0.3 and p = 0.6 |
| `Consistency.BucketEdges` | app_streamlit/app.py:226-229 | at 0.6 the bucket is high but the recommendations are retention; at 0.3 the bucket is medium but the recommendations are growth |
| `Consistency.BucketAndFraming` | app_streamlit/app.py:224-231 | a high bucket comes with an at least moderate-high framing, a low bucket with the low framing, a very-high framing with a high bucket |
| `Consistency.FactorsAgreeWithInsights` | app_streamlit/app.py:239-258 | each narrative factor for credit, tenure or products agrees with the observation tier for the same field |
| `Consistency.StrongestRecord` | app_streamlit/app.py:109-138 | the record (850, 20, 92, 300000, 4) lists exactly the four positive factors, and all its observations are top tier |
| `Consistency.WeakestRecord` | app_streamlit/app.py:109-138 | the record (300, 1, 25, 0, 0) lists exactly the four warnings; its young-customer factor fires in Spanish but is dropped |

## Left out

- The gradient-boosting classifier (fit, `predict`, `predict_proba`, feature
  importances, app_streamlit/app.py:445-465): a foreign library call with
  floating-point internals. The probability is an input.
- CSV loading (`load_data`) and the numpy feature row: I/O and library
  plumbing.
- The formatting of the percentage to one decimal: float-to-string
  formatting. It is an opaque `percent` string in `NarrativeText.FramingText`.
- The Streamlit page (configuration, CSS, sidebar, widgets, session state,
  metrics, chart), the embedded HTML reports and the `TEXTS` label dictionary:
  presentation with no decision logic.
- Record validation against the form's ranges: the rules do not validate, the
  form widgets bound the inputs, so the model takes any real values.
- The per-language duplication of the insight threshold chains: the model
  writes the chains once over the selected language, because the two copies
  in the code differ only in their texts.
- The per-language duplication of the framing and recommendation chains of
  `get_smart_analysis` (app_streamlit/app.py:99-106 against 166-173, and
  143-159 against 203-219): `SmartAnalysis.WriteFraming` and
  `SmartAnalysis.WriteRecommendations` write each once over the key, and the
  language only selects the wording, because the two copies test the same
  thresholds in the same order.
