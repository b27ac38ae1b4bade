# MacroCycle AI decision procedures in Dafny

MacroCycle AI is a demo macro-trading dashboard. Nearly all of it is React
rendering and fixtures. This project models the small decision procedures
scattered through it and proves what they promise:

- **Market-state classifiers.** There are four independently written rule
  tables that turn index moves into labels:
  - the vote-counting `getMarketSentiment` and the regime ladder
    `getMacroRegime` of the market snapshot;
  - `generateInsights` and the regime-indicator expressions of the
    insights panel;
  - `generateMarketAnalysis` of the enhanced-AI function;
  - `generateAIInsights` of the insights function.

  Module `Agreement` states where these tables agree and where they
  differ.
- **Recommendation re-pricing.** `drift`, `calculateKelly`, the
  per-record clamps, the signal strength, the confidence band, the max
  loss, the risk level, and the occasional in-place shuffle of the live
  recommendations endpoint.
- **Keyword routers.** The chat route's canned answers, the two edge
  functions' chat responders, and their request-validation branches
  (400, 405 and 500). Each if-chain is proved equal to a first-match
  router over a keyword table (module `Routing`).
- **Shape-producing generators.**
  - the 3 × 3 shock grid, built by a chunking loop;
  - the 30-day regime timeseries, built by a loop that counts down;
  - the synthetic market snapshot, whose derived fields are tied to its
    draws.
- **Utility mappers.** Intensity bands, the colour switch maps, `clamp`,
  the bucketing of `formatRelativeTime`, and the 32-bit channel arithmetic
  of `interpolateColor`.

Conventions:

- JavaScript numbers are Dafny `real`s, so every threshold comparison is
  exact.
- `Math.floor` is `Numbers.Floor`. `Math.round` is
  `Numbers.Round(x) = Floor(x + 0.5)`.
- Every `Math.random()` draw is a parameter with a precondition on its
  range. Draws come in the order the source evaluates them.
- The time of a call is a parameter, or is left out.
- Requests are modelled by their parsed fields:
  - `Requests.Field` is a JSON field that may be absent, a string, or
    another truthy or falsy value;
  - `Requests.Body` is a parsed body, or `Malformed` when the handler's
    first statement throws: `req.json()` throws, or the body is JSON
    `null`, whose destructuring `const { message } = …` throws a
    TypeError. Either way the catch answers 500.

Files:

| file | models |
|---|---|
| `numbers.dfy` | Math.floor, Math.round, Math.min, Math.max and Math.abs |
| `text.dfy` | `toLowerCase` and `includes` |
| `requests.dfy` | parsed request bodies |
| `routing.dfy` | the first-match keyword router |
| `real_market_data.dfy` | `src/data/realMarketData.ts` |
| `market_insights.dfy` | `src/components/dashboard/MarketInsights.tsx` |
| `ai_enhanced.dfy` | `supabase/functions/ai-enhanced/index.ts` |
| `ai_insights.dfy` | `supabase/functions/ai-insights/index.ts` |
| `recommendations.dfy` | `src/app/api/recommendations/route.ts` |
| `chat_route.dfy` | `src/app/api/chat/route.ts`, with the canned answers of `src/data/mockChatResponses.ts` |
| `quick_prompts.dfy` | the literal facts about the four quick prompts of `src/components/dashboard/ChatAgent.tsx` |
| `ai_chat.dfy` | `supabase/functions/ai-chat/index.ts` |
| `utils.dfy` | `src/utils/index.ts`, except `interpolateColor` |
| `color.dfy` | `interpolateColor` |
| `shock_analysis.dfy` | `supabase/functions/shock-analysis/index.ts` |
| `regime_analysis.dfy` | `supabase/functions/regime-analysis/index.ts` |
| `market_data_feed.dfy` | `supabase/functions/real-market-data/index.ts` |
| `agreement.dfy` | lemmas relating the classifiers to each other |

`calculateKelly` (src/app/api/recommendations/route.ts:11-14) returns
`Math.max(0, edge)`. The Kelly fraction is therefore 0 whenever the
market price reaches the model probability.
`Recommendations.Kelly` and `Recommendations.RepriceBounds` prove
`kelly_fraction >= 0`.

## Model

| member | source | states |
|---|---|---|
| RealMarketData.VixSignal | src/data/realMarketData.ts:197-203 | The VIX vote is bullish iff the level is low and bearish iff it is high. |
| RealMarketData.Sp500Signal | src/data/realMarketData.ts:206-212 | The S&P vote is bullish iff the change is above 0.5, bearish iff below -0.5, and neutral iff it lies in [-0.5, 0.5]: both thresholds are strict. |
| RealMarketData.YieldSignal | src/data/realMarketData.ts:215-219 | At most one treasury vote. There is none iff the change lies in [-0.5, 0.5]. It is [bullish] iff the change is below -0.5, and [bearish] iff above 0.5. |
| RealMarketData.CollectSignals | src/data/realMarketData.ts:194-219 | The pushes give 2 or 3 signals: the VIX vote, the S&P vote, then the optional treasury vote. |
| RealMarketData.CountDifference | src/data/realMarketData.ts:222-223 | Bullish count minus bearish count is the net vote, so neutral signals count for neither side. |
| RealMarketData.TallySignals | src/data/realMarketData.ts:222-227 | The counting loop gives bullish iff bullish votes strictly outnumber bearish ones, bearish on the converse, and neutral on a tie. |
| RealMarketData.GetMarketSentiment | src/data/realMarketData.ts:193-228 | The whole procedure equals the sign of the score read directly off the three indicators. |
| RealMarketData.AgreeingVotesDecide | src/data/realMarketData.ts:197-226 | A low VIX with an S&P move above 0.5 is always bullish, and a high VIX with a move below -0.5 always bearish. Neutral means a zero score. |
| RealMarketData.Snapshot | src/data/realMarketData.ts:90-191 | The fixed snapshot is consistent with itself: a low VIX level with a price below 20, the S&P price within its day's range, and every percent change carrying the sign of its change. |
| RealMarketData.MacroRegimeOf | src/data/realMarketData.ts:236-244 | Risk-On iff the Risk-On condition holds. Risk-Off only with vix > 25 or S&P < -1. Tightening only with treasury > 0.5 once both earlier rungs fail. |
| RealMarketData.GetMacroRegime | src/data/realMarketData.ts:230-245 | The regime reads the VIX price, the S&P change percent and the treasury change percent: Risk-On iff vix < 20, S&P > 0 and treasury < 0. Tightening only with treasury > 0.5. |
| RealMarketData.MacroRegimeRungs | src/data/realMarketData.ts:236-244 | Each of the four regimes as an iff on the inputs: Risk-On iff vix < 20, S&P > 0 and treasury < 0; Risk-Off iff Risk-On fails and (vix > 25 or S&P < -1); Tightening iff both fail and treasury > 0.5; otherwise Neutral. |
| RealMarketData.LabelsDistinct | src/data/realMarketData.ts:237-243 | The four regime labels are pairwise distinct. |
| RealMarketData.SnapshotReading | src/data/realMarketData.ts:90-191 | The fixed snapshot reads as bullish and Risk-On. |
| MarketInsights.VixInsights | src/components/dashboard/MarketInsights.tsx:59-75 | The VIX rule contributes at most one insight, and only about volatility. |
| MarketInsights.Sp500Insights | src/components/dashboard/MarketInsights.tsx:78-94 | The S&P rule contributes at most one insight, and only about equities. |
| MarketInsights.OilInsights | src/components/dashboard/MarketInsights.tsx:97-113 | The oil rule contributes at most one insight, and only about oil. |
| MarketInsights.YieldInsights | src/components/dashboard/MarketInsights.tsx:116-132 | The treasury rule contributes at most one insight, and only about yields. |
| MarketInsights.InsightTriggers | src/components/dashboard/MarketInsights.tsx:58-132 | When each rule fires and with which tone. VIX gives none iff medium. The thresholds are strict: ±1 for S&P, ±2 for oil, ±0.5 for yields. Falling oil is bullish and rising oil bearish. |
| MarketInsights.Candidates | src/components/dashboard/MarketInsights.tsx:58-132 | The rules push at most 4 cards, each bullish or bearish. No card is pushed iff the VIX level is medium, and the S&P, oil and treasury moves stay within ±1, ±2 and ±0.5. |
| MarketInsights.CandidatesOrdered | src/components/dashboard/MarketInsights.tsx:58-132 | The pushed list holds at most 4 insights, in strictly increasing rule order. |
| MarketInsights.GenerateInsights | src/components/dashboard/MarketInsights.tsx:55-135 | The push sequence gives at most 3 insights: the first three of the ordered candidate list. |
| MarketInsights.AllFourFire | src/components/dashboard/MarketInsights.tsx:134 | When all four rules fire, the slice removes exactly the treasury insight. |
| MarketInsights.VolatilityRegimeOf | src/components/dashboard/MarketInsights.tsx:235 | Low iff price < 20 and High iff price > 25; otherwise Medium. |
| MarketInsights.MonetaryStanceOf | src/components/dashboard/MarketInsights.tsx:241 | Easing iff the treasury change is below 0; otherwise Tightening. |
| MarketInsights.RiskText | src/components/dashboard/MarketInsights.tsx:258-259 | The overall-risk text is one of 'Low Risk', 'Moderate Risk' and 'High Risk'. |
| MarketInsights.RiskTextNamesLevel | src/components/dashboard/MarketInsights.tsx:258-259 | Each risk text belongs to exactly one VIX level: low, medium, and anything else. |
| AiEnhanced.AnalysisSentiment | supabase/functions/ai-enhanced/index.ts:50-65 | Bullish iff the S&P change is above 1, bearish iff below -1, and neutral iff in [-1, 1]. |
| AiEnhanced.GenerateMarketAnalysis | supabase/functions/ai-enhanced/index.ts:25-110 | Confidence is high iff the sentiment is not neutral. There are 2 or 3 key insights, each chosen as the source chooses, with 3 iff the yield moved beyond ±0.5. Risk is elevated iff vix > 25 or \|S&P\| > 2, and low only when that fails with vix < 15 and S&P > 0. The outlook is positive iff bullish with vix < 20, and cautious iff bearish with vix > 25. |
| AiEnhanced.OutlookNeedsAgreement | supabase/functions/ai-enhanced/index.ts:94-101 | For an analysis of given numbers: the outlook is positive iff S&P > 1 and vix < 20, and cautious iff S&P < -1 and vix > 25. A positive outlook comes with high confidence and the strong-performance and low-VIX insights. A cautious one comes with high confidence, the decline and high-VIX insights, and an elevated risk. |
| AiEnhanced.ContextSentiment | supabase/functions/ai-enhanced/index.ts:116 | `sentiment \|\| 'neutral'` is the context's sentiment when that is non-empty, and 'neutral' otherwise. |
| AiEnhanced.ChatTopicOf | supabase/functions/ai-enhanced/index.ts:113-148 | The buying group wins whenever one of its keywords occurs. The general reply is chosen iff none of the fifteen keywords occurs. |
| AiEnhanced.ChatTopicIsFirstMatch | supabase/functions/ai-enhanced/index.ts:121-148 | The chat if-chain equals the first-match router over the table (buy/invest/long, sell/short/exit, market/outlook, fed/rates/interest, inflation/cpi, recession/risk). The default applies otherwise. |
| AiEnhanced.StanceOf | supabase/functions/ai-enhanced/index.ts:122 | Selectively bullish iff 'bullish', and defensive iff 'bearish'. |
| AiEnhanced.SellingBand | supabase/functions/ai-enhanced/index.ts:118-126 | The selling reply's VIX band reads `price \|\| 'unknown'`: high iff the price is above 25, low iff it is non-zero and below 15. |
| AiEnhanced.RecessionBand | supabase/functions/ai-enhanced/index.ts:143 | The recession reply's band: high iff the price is above 25, low iff below 15. A missing price is moderate. |
| AiEnhanced.BandsDifferOnlyAtZero | supabase/functions/ai-enhanced/index.ts:118-143 | The two VIX readings disagree exactly on a zero price. |
| AiEnhanced.RatesReplyOf | supabase/functions/ai-enhanced/index.ts:134-135 | Yields read as rising iff the change is missing or at least 0. Easing iff below -0.5, and tight iff above 0.5. |
| AiEnhanced.ChatReplyOf | supabase/functions/ai-enhanced/index.ts:104-148 | The default reply is given iff no keyword group matches the lowercased message, and it quotes the message as given with the context sentiment and its stance. The buying reply takes the context sentiment and its stance, and notes positive momentum iff the S&P change percent is present and non-negative. The outlook reply takes the context sentiment. The rates reply is `RatesReplyOf` of the treasury change percent. The inflation reply reads declining iff the treasury change is present and negative. The selling reply's band reads the VIX price, and it confirms a bearish view iff the context sentiment is 'bearish'. The recession reply's band reads the VIX price. |
| AiEnhanced.ChatReplyKind | supabase/functions/ai-enhanced/index.ts:112-148 | The reply's kind is exactly the first matching group of the lowercased message. |
| AiEnhanced.ChatReplyIgnoresCase | supabase/functions/ai-enhanced/index.ts:113 | Routing ignores case. Lowercasing the message first changes only the question the default reply quotes. |
| AiEnhanced.SellLongIsBuying | supabase/functions/ai-enhanced/index.ts:121-127 | The buying group is tried first, so "sell long" gets the buying reply. |
| AiEnhanced.AnalysisInputOf | supabase/functions/ai-enhanced/index.ts:29-31 | The analysis runs iff the five numbers the prompt formats are present, and reads three of them. |
| AiEnhanced.EffectiveAction | supabase/functions/ai-enhanced/index.ts:166 | `action \|\| 'analysis'` is the given action when non-empty, and 'analysis' otherwise. |
| AiEnhanced.ActionDefaultsToAnalysis | supabase/functions/ai-enhanced/index.ts:166-168 | A missing or empty action is 'analysis'. The chat branch runs iff the action is exactly 'chat'. |
| AiEnhanced.Handle | supabase/functions/ai-enhanced/index.ts:151-229 | OPTIONS gets the preflight. A malformed body gets 500. 400 iff a chat request has a falsy message or an analysis request has no market data. A chat answer uses the given context or the default, and its reply is `ChatReplyOf`. An analysis answer satisfies everything `GenerateMarketAnalysis` promises (`AnalysisFits`: sentiment, confidence, each key insight, risk and outlook). Answers carry the request time. A truthy non-string chat message, or market data missing one of the five numbers the prompt formats, gets 500. |
| AiEnhanced.DefaultContextIsNeutral | supabase/functions/ai-enhanced/index.ts:180-185 | The default context reads as neutral sentiment, balanced stance, moderate VIX and steady rates. |
| AiInsights.VixDraw | supabase/functions/ai-insights/index.ts:13 | The drawn VIX lies in [12, 32). |
| AiInsights.Sp500Draw | supabase/functions/ai-insights/index.ts:33 | The drawn S&P change lies in [-2.5, 2.5). |
| AiInsights.VixInsight | supabase/functions/ai-insights/index.ts:14-30 | A VIX insight appears iff vix < 20 or vix > 25. It is bullish iff vix < 20, has high confidence, and is not the macro title. |
| AiInsights.Sp500Insight | supabase/functions/ai-insights/index.ts:34-50 | An S&P insight appears iff the change is above 1 or below -1. It is bullish iff above 1 and has medium confidence. |
| AiInsights.InsightsRegime | supabase/functions/ai-insights/index.ts:53-54 | Risk-On iff vix < 20 and change > 0. Otherwise Risk-Off iff vix > 25 or change < -1. Otherwise Neutral. |
| AiInsights.MacroInsight | supabase/functions/ai-insights/index.ts:56-62 | The closing insight carries the 'Macro Regime Analysis' title with medium confidence. |
| AiInsights.MacroInsightKind | supabase/functions/ai-insights/index.ts:57-60 | The closing insight is bullish, bearish or neutral exactly as the regime is Risk-On, Risk-Off or Neutral, read through `includes` on the label. |
| AiInsights.GenerateAIInsights | supabase/functions/ai-insights/index.ts:9-65 | The list has 1 to 3 insights: the VIX insight, the S&P insight, then the macro insight. Exactly one insight carries the macro title, and it comes last. |
| AiInsights.Handle | supabase/functions/ai-insights/index.ts:76-89 | OPTIONS gets the preflight. Anything else gets, stamped with the request time, exactly the generated list: the VIX insight, the S&P 500 insight, then the macro insight. That makes 1 to 3 insights, and only the last has the macro title. |
| Recommendations.Drift | src/app/api/recommendations/route.ts:5-8 | `drift` moves a value by at most half the volatility either way. |
| Recommendations.Kelly | src/app/api/recommendations/route.ts:11-14 | `calculateKelly` is never negative, is at least the edge, and is either 0 or the edge. |
| Recommendations.Fixed3 | src/app/api/recommendations/route.ts:52-56 | `Number(x.toFixed(3))` lies within 0.0005 of x and keeps its sign (or is 0). |
| Recommendations.Fixed3Within | src/app/api/recommendations/route.ts:52-56 | Rounding to three decimals keeps a number between bounds that have three decimals. |
| Recommendations.DecimalRoundTrip | src/app/api/recommendations/route.ts:55 | Reading back the decimal text of an integer gives the integer. |
| Recommendations.BandTextReadsBack | src/app/api/recommendations/route.ts:55 | The band text is "lower-upper%": the digits before the dash read as the lower bound, and those before '%' as the upper bound. |
| Recommendations.CurrentModelProb | src/app/api/recommendations/route.ts:25 | The current model probability lies in [0.51, 0.99]. |
| Recommendations.CurrentMarketPrice | src/app/api/recommendations/route.ts:26-27 | The current market price lies in [0.02, 0.98]. |
| Recommendations.SignalStrength | src/app/api/recommendations/route.ts:34 | The signal strength is an integer in [1, 10]. |
| Recommendations.BandVariance | src/app/api/recommendations/route.ts:39 | The band variance is 3, 4 or 5. |
| Recommendations.Band | src/app/api/recommendations/route.ts:38-41 | The band runs 46 <= lower < rounded model percentage < upper <= 100. The lower bound is the percentage minus the variance. The upper bound is the percentage plus the variance, cut to 100, and is 100 exactly when that sum reaches 100. |
| Recommendations.UpperClampActs | src/app/api/recommendations/route.ts:38-41 | The upper clamp acts: a model probability of 0.99 with variance 5 gives the band (94, 100) rather than 104. |
| Recommendations.FinalMaxLoss | src/app/api/recommendations/route.ts:45-48 | The clamped max loss lies in [0.05, 0.20]. |
| Recommendations.RiskLevel | src/app/api/recommendations/route.ts:59 | High iff the edge is below 0.05, low iff above 0.15, and medium iff in [0.05, 0.15]. |
| Recommendations.Reprice | src/app/api/recommendations/route.ts:20-60 | The re-priced record keeps id, name, position, horizon and reasoning. Its signal lies in [1, 10]. Its risk level is high iff the unrounded edge is below 0.05, and low iff it is above 0.15. |
| Recommendations.RepriceBounds | src/app/api/recommendations/route.ts:20-60 | Re-pricing keeps id, name, position, horizon and reasoning. The signal lies in [1, 10] and the max loss in [0.05, 0.20]. The Kelly fraction is the non-negative part of the reported expected value. |
| Recommendations.MaxLossClampIdle | src/app/api/recommendations/route.ts:45-48 | The clamp on the max loss never acts, and the rounded max loss lies in [0.100, 0.140]. |
| Recommendations.SignalStrengthStable | src/app/api/recommendations/route.ts:22-34 | For a signal strength in 1..10, re-pricing gives the same signal strength back. |
| Recommendations.FixtureRiskLevels | src/app/api/recommendations/route.ts:26-59 | For expected values in [0.10, 0.2], the new edge stays within 0.0075 of the old one, so the risk is never high. |
| Recommendations.FixtureOutcomes | src/app/api/recommendations/route.ts:20-60 | On the four fixtures, each signal strength is kept. rec-001 is always medium risk and the others always low. |
| Recommendations.Repriced | src/app/api/recommendations/route.ts:20-61 | The mapped list has one re-priced record per fixture, in order. |
| Recommendations.ShuffleInPlace | src/app/api/recommendations/route.ts:64-66 | The in-place sort only permutes the array (same multiset). |
| Recommendations.Get | src/app/api/recommendations/route.ts:16-72 | GET returns a permutation of the re-priced fixtures. It returns exactly that list when the shuffle draw is at most 0.8. |
| Recommendations.GetRecordsComeFromFixtures | src/app/api/recommendations/route.ts:20-66 | Every returned record is the re-pricing of a fixture, with its id and a signal strength in [1, 10]. |
| ChatRoute.SelectKey | src/app/api/chat/route.ts:26-34 | Every table key the router reads exists in the canned-response table. |
| ChatRoute.SelectKeyIsFirstMatch | src/app/api/chat/route.ts:26-34 | The if-chain equals the first-match router over the table ('fed cuts'/'fed rate', 'mispriced'/'opportunity', 'regime'/'current', 'energy'/'oil'). Nothing matched gives the default. |
| ChatRoute.Select | src/app/api/chat/route.ts:22-34 | No match gives `defaultResponse`. Otherwise the answer is the table entry of the first matching group. |
| ChatRoute.SelectIgnoresCase | src/app/api/chat/route.ts:22 | A message and its lowercase form get the same answer. |
| ChatRoute.Post | src/app/api/chat/route.ts:4-49 | 500 iff the body does not parse, and 400 iff the message is missing, empty or not a string. A non-empty string message is always answered with `Select` of the message, stamped with the request time. |
| ChatRoute.SelectsGroup | src/app/api/chat/route.ts:26-34 | A message whose lowercase form contains either keyword of a group, and no keyword of an earlier group, gets that group's answer. A message with no keyword of any group gets the default. |
| ChatRoute.CurrentOilSelectsRegime | src/app/api/chat/route.ts:30-33 | "current oil" gets the regime answer, because the first match wins. |
| ChatRoute.FedPromptSelectsFedCuts | src/components/dashboard/ChatAgent.tsx:34 | The first quick prompt gets the Fed-cuts answer. |
| ChatRoute.MispricedPromptSelectsMispriced | src/components/dashboard/ChatAgent.tsx:35 | The second quick prompt gets the mispriced-markets answer. |
| ChatRoute.RegimePromptSelectsRegime | src/components/dashboard/ChatAgent.tsx:36 | The third quick prompt gets the current-regime answer. |
| ChatRoute.EnergyPromptSelectsEnergy | src/components/dashboard/ChatAgent.tsx:37 | The fourth quick prompt gets the energy-shock answer. |
| AiChat.TopicOf | supabase/functions/ai-chat/index.ts:7-27 | The market group wins whenever 'market' or 'stock' occurs. The fallback reply is chosen iff none of the ten keywords occurs. |
| AiChat.TopicIsFirstMatch | supabase/functions/ai-chat/index.ts:7-27 | The if-chain equals the first-match router over market/stock, fed/rate/interest, inflation/cpi, recession/growth/gdp. The default applies otherwise. |
| AiChat.AIResponse | supabase/functions/ai-chat/index.ts:6-28 | The drawn VIX number lies in [15, 30) (its one-decimal text can read 30.0), and the recession probability is an integer in [0, 30]. |
| AiChat.ReplyKind | supabase/functions/ai-chat/index.ts:7-27 | The reply's kind is exactly the first matching group of the lowercased message. The draws only choose the wording. |
| AiChat.RecessionProbabilityRange | supabase/functions/ai-chat/index.ts:23 | `Math.round(r * 30)` lies in [0, 30], and reaches both ends. |
| AiChat.InflationRateIsFed | supabase/functions/ai-chat/index.ts:14-18 | "inflation rate" takes the Fed branch, because 'rate' is a plain substring test tried first. |
| AiChat.Handle | supabase/functions/ai-chat/index.ts:30-86 | OPTIONS gets the preflight. 405 iff the method is neither OPTIONS nor POST. 400 iff the message is falsy, and 500 iff the body is malformed or the message is a non-string. Otherwise the answer is the generated reply, its history is exactly [user message, reply], and it carries the request time. |
| Utils.IntensityColor | src/utils/index.ts:55-60 | Critical iff score >= 80, high iff in [60, 80), medium iff in [40, 60), low iff below 40. |
| Utils.IntensityMonotone | src/utils/index.ts:55-60 | A higher score never gets a lower intensity. |
| Utils.IntensityStyles | src/utils/index.ts:62-73 | Any intensity other than critical, high or medium gets the default style. |
| Utils.IntensityStyleOfScore | src/utils/index.ts:55-73 | A score gets the default style iff it is below 40. Two scores share a style iff they share an intensity. |
| Utils.ToneColor | src/utils/index.ts:75-84 | Green iff 'positive', red iff 'negative', and grey for every other string. |
| Utils.ConfidenceColor | src/utils/index.ts:86-95 | Green iff 'high', amber iff 'medium', and red for every other string. |
| Utils.RiskColor | src/utils/index.ts:97-106 | Green iff 'low', amber iff 'medium', and red for every other string. |
| Utils.RiskMirrorsConfidence | src/utils/index.ts:86-106 | The risk colours are the confidence colours read backwards. |
| Utils.Clamp | src/utils/index.ts:137-139 | The result lies in [min, max] when min <= max, and equals the value when it is already in range. It is max when min > max. |
| Utils.ClampIdempotent | src/utils/index.ts:137-139 | Clamping twice is clamping once, for every value and every pair of bounds, including min > max. |
| Utils.RelativeTimeOf | src/utils/index.ts:39-53 | Minutes iff the difference is under an hour, with the floored minute count. Hours iff it is under a day, with the floored hour count in [1, 24). Otherwise the absolute date. |
| Utils.RelativeTimeCoarsens | src/utils/index.ts:43-52 | A later difference never gets a finer unit. |
| ColorInterpolation.ParseHex | src/utils/index.ts:143 | parseInt of a string made only of hex digits is its hex value. |
| ColorInterpolation.ToInt32 | src/utils/index.ts:144-156 | ToInt32 wraps into [-2^31, 2^31) and keeps values already in range. |
| ColorInterpolation.BitOrDisjoint | src/utils/index.ts:156 | Or-ing a value shifted left by k with one below 2^k adds them. |
| ColorInterpolation.PackChannels | src/utils/index.ts:156 | For channels in [0, 255], `r << 16 \| g << 8 \| b` is r·2^16 + g·2^8 + b. |
| ColorInterpolation.PadStartIsFixedHex | src/utils/index.ts:156 | `toString(16).padStart(w, '0')` of a number below 16^w is its w-digit hex form. |
| ColorInterpolation.FixedHexOfValue | src/utils/index.ts:143-156 | Reading a lowercase hex string and writing it back at its width gives the string back. |
| ColorInterpolation.ChannelsOfValid | src/utils/index.ts:143-150 | For a '#RRGGBB' colour, the extracted channels are the three digit pairs, each in [0, 255]. |
| ColorInterpolation.BlendBetween | src/utils/index.ts:152-154 | For a factor in [0, 1], a blended channel lies between the two inputs. Factor 0 gives the first and factor 1 the second. |
| ColorInterpolation.InterpolateColor | src/utils/index.ts:141-156 | For any inputs, invalid colours included, the result starts with '#' and has at least 7 characters. For valid colours and a factor in [0, 1] it has exactly 7 (`InterpolateValid`). Outside [0, 1] a channel can leave [0, 255] and the result grows longer. |
| ColorInterpolation.InterpolateValid | src/utils/index.ts:141-156 | For valid colours and a factor in [0, 1], the result is '#' followed by exactly six lowercase hex digits: the packed blended channels, each between its inputs. |
| ColorInterpolation.InterpolateEnds | src/utils/index.ts:141-156 | Factor 0 reproduces the first colour and factor 1 the second, when they are written in lowercase. |
| ShockAnalysis.Score | supabase/functions/shock-analysis/index.ts:19 | Every score is an integer in [0, 99]. |
| ShockAnalysis.IntensityOf | supabase/functions/shock-analysis/index.ts:20 | The chained draws give critical iff the first is below 0.25. Then high iff the second is below 0.5, then medium iff the third is below 0.75, and low otherwise. |
| ShockAnalysis.Domains | supabase/functions/shock-analysis/index.ts:15-197 | There are nine domains in catalogue order, each with its fixed name, headlines and description, a score in [0, 99] and its drawn intensity. |
| ShockAnalysis.JsSlice | supabase/functions/shock-analysis/index.ts:202 | `slice(a, b)` within bounds is the subsequence [a, b). |
| ShockAnalysis.BuildGrid | supabase/functions/shock-analysis/index.ts:199-205 | The loop gives exactly 3 rows, row i being `slice(3i, 3i + 3)`. The rows laid end to end are the first nine items in order, and each row has 3 items when there are nine. |
| ShockAnalysis.GenerateShockDomains | supabase/functions/shock-analysis/index.ts:15-206 | The grid is 3 × 3. Cell (i, j) is domain 3i + j, and flattening gives the domain list back. |
| ShockAnalysis.Handle | supabase/functions/shock-analysis/index.ts:208-240 | OPTIONS gets the preflight. An exception gives 500 with the error text. Otherwise the answer is the 3 × 3 grid of the domains. |
| RegimeAnalysis.BaseProbability | supabase/functions/regime-analysis/index.ts:17 | The drawn base probability lies in [70, 95). |
| RegimeAnalysis.StepProbability | supabase/functions/regime-analysis/index.ts:28-33 | Every point is clamped into [0, 100], and is unchanged when already in range. |
| RegimeAnalysis.Timeseries | supabase/functions/regime-analysis/index.ts:23-35 | There are 30 entries, oldest first, one per day, from 29 days ago to today. Each has the primary regime and a probability in [0, 100]. |
| RegimeAnalysis.StepProbabilityRange | supabase/functions/regime-analysis/index.ts:17-33 | The clamp at 0 never acts: every point lies in [60, 100]. |
| RegimeAnalysis.GenerateRegimeData | supabase/functions/regime-analysis/index.ts:14-45 | The counting-down loop builds exactly `Timeseries`. The current regime is 'Disinflationary' over '90d', with a rounded probability in [70, 95]. |
| RegimeAnalysis.Handle | supabase/functions/regime-analysis/index.ts:47-79 | OPTIONS gets the preflight. An exception gives 500 with the error text. Otherwise `current` is the primary regime with the rounded base probability (in [70, 95]) and the horizon, and the timeseries is the 30 clamped daily points. |
| MarketDataFeed.VixLevel | supabase/functions/real-market-data/index.ts:52-53 | Low iff price < 20, high iff price > 25, and medium otherwise. |
| MarketDataFeed.Interpretation | supabase/functions/real-market-data/index.ts:79 | The 'Declining…' text iff the change is negative. |
| MarketDataFeed.ChangePercentBound | supabase/functions/real-market-data/index.ts:62-78 | change / price × 100 has the sign of the change, and is bounded by the largest change over the smallest price. |
| MarketDataFeed.GenerateMarketData | supabase/functions/real-market-data/index.ts:47-103 | Each drawn field lies in its range: S&P price in [6800, 7000), change in [-25, 25), VIX in [12, 32), treasury price in [3.5, 5.5), change in [-0.1, 0.1), AAPL in [280, 300), GOOGL in [310, 340), oil in [55, 75). The VIX level is the level of the price. The oil unit is 'per barrel'. |
| MarketDataFeed.FeedRelations | supabase/functions/real-market-data/index.ts:47-103 | The VIX level follows the price bands. The S&P price lies in [low, high]. The percent changes carry the signs of the changes, and the S&P one stays within ±0.37%. The interpretation follows the treasury change. The volume is an integer in [2·10^9, 7·10^9). |
| MarketDataFeed.Handle | supabase/functions/real-market-data/index.ts:105-137 | OPTIONS gets the preflight. An exception gives 500 with the error text. Otherwise the generated snapshot. |
| Agreement.RiskOnRulesDiffer | supabase/functions/ai-insights/index.ts:53 | getMacroRegime's Risk-On holds iff the insights function's Risk-On holds with falling yields: the rules differ only in the treasury condition. |
| Agreement.RiskOffRulesAgree | src/data/realMarketData.ts:236-239 | The Risk-Off rules of getMacroRegime and of the insights function agree exactly. |
| Agreement.NeutralRegimesAgree | src/data/realMarketData.ts:236-244 | A neutral call of the insights function, or its Risk-On with flat or rising yields, is tightening or neutral for getMacroRegime. |
| Agreement.VixBandsAgree | supabase/functions/real-market-data/index.ts:52-53 | The feed's VIX level, the panel's volatility regime and both insight rules use the same bands, tones and titles. |
| Agreement.Sp500RulesAgree | supabase/functions/ai-insights/index.ts:34-50 | The panel's S&P rule and the insights function's share thresholds, tones, titles and confidences. |
| Agreement.AnalysisSentimentStricter | supabase/functions/ai-enhanced/index.ts:55-65 | A non-neutral analysis sentiment always equals the S&P vote of getMarketSentiment. A move in (0.5, 1] votes bullish while the analysis stays neutral. |
| Agreement.InterpretationMatchesStance | supabase/functions/real-market-data/index.ts:78-79 | The 'Declining…' interpretation holds iff the panel shows an easing stance. |
| Agreement.FeedNeverMovesSp500 | supabase/functions/real-market-data/index.ts:49-62 | On the feed's snapshots no S&P rule ever fires: the vote is neutral, there are no S&P insights, and the analysis is neutral. |
| Agreement.FeedSentimentIgnoresSp500 | src/data/realMarketData.ts:193-228 | On a feed snapshot, getMarketSentiment is decided by the VIX and treasury votes alone. |

## Left out

- Rendering: the JSX, icons and every formatted sentence. Replies and insights are modelled by the choices they make, not by their characters.
- Descriptions and timestamps of insights, headlines and responses: these are formatted text or the time of the call. The time is a parameter where a response carries it.
- Floating point: numbers are exact reals. `toFixed(3)` rounds the decimal value half away from zero, not the binary double.
- `toLowerCase`: modelled on ASCII capitals only. Other Unicode case mappings are not modelled.
- ColorInterpolation.ParseHex: models `parseInt(s, 16)` on a string of hex digits followed by anything. Leading whitespace, a sign and a `0x` prefix are not modelled, nor the precision lost beyond 2^53.
- Dates: `formatDate`, `toISOString` and `setDate` are not modelled. The regime timeseries numbers its days as integers. `formatRelativeTime` takes the millisecond difference as an integer.
- Recommendations.ShuffleInPlace: the random comparator is replaced by the swaps the sort performs, so only "some permutation" is modelled, not the distribution.
- ShockAnalysis.IntensityOf: every domain is given all three intensity draws, so the interleaving of lazily consumed draws across domains is not modelled.
- ShockAnalysis.Handle, RegimeAnalysis.Handle, MarketDataFeed.Handle: their generators cannot throw, so an exception raised by the runtime is a parameter.
- AiInsights.Handle: its generator cannot throw, so its 500 branch is not modelled.
- AiEnhanced.ChatContext: context fields are numbers or absent. A context field holding a non-numeric value is not modelled.
- AiEnhanced.Handle: an action other than 'chat' that is not 'analysis' runs the analysis, as in the source. The two calls to an external model are not part of this code.
- The unused `regimes` list of the regime-analysis function is not modelled.
- CORS headers, `Deno.serve`, `req.json`, and the 1500 ms and 200 ms delays are not modelled: they are runtime plumbing.
- src/services, the React hooks, the fixture-returning routes and the canvas background are not part of this model.
