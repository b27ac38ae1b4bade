/** Where the independently written classifiers agree and where they
    differ: the sentiment and regime rules of src/data/realMarketData.ts,
    the insights panel, the enhanced-AI and AI-insights edge functions and
    the synthetic market feed. */
module Agreement {
  import opened Numbers
  import opened RealMarketData
  import MarketInsights
  import AiInsights
  import AiEnhanced
  import MarketDataFeed

  /** The two Risk-On rules differ only in the treasury condition:
      getMacroRegime also asks for falling yields. */
  lemma RiskOnRulesDiffer(vix: real, sp500Change: real, treasuryChange: real)
    ensures MacroRegimeOf(vix, sp500Change, treasuryChange) == RiskOn
            <==> AiInsights.InsightsRegime(vix, sp500Change) == RiskOn && treasuryChange < 0.0
  {
    MacroRegimeRungs(vix, sp500Change, treasuryChange);
  }

  /** The two Risk-Off rules agree exactly: the treasury condition cannot
      rescue a VIX above 25 or a fall below -1%. */
  lemma RiskOffRulesAgree(vix: real, sp500Change: real, treasuryChange: real)
    ensures MacroRegimeOf(vix, sp500Change, treasuryChange) == RiskOff
            <==> AiInsights.InsightsRegime(vix, sp500Change) == RiskOff
  {
    MacroRegimeRungs(vix, sp500Change, treasuryChange);
  }

  /** A neutral call of the insights function is, for getMacroRegime,
      either the tightening rung or neutral; a Risk-On call of the
      insights function with rising or flat yields is neutral or
      tightening for getMacroRegime. */
  lemma NeutralRegimesAgree(vix: real, sp500Change: real, treasuryChange: real)
    ensures AiInsights.InsightsRegime(vix, sp500Change) == NeutralRegime
            ==> MacroRegimeOf(vix, sp500Change, treasuryChange) in {TighteningCycle, NeutralRegime}
    ensures AiInsights.InsightsRegime(vix, sp500Change) == RiskOn && treasuryChange >= 0.0
            ==> MacroRegimeOf(vix, sp500Change, treasuryChange) in {TighteningCycle, NeutralRegime}
  {
    MacroRegimeRungs(vix, sp500Change, treasuryChange);
    RiskOffRulesAgree(vix, sp500Change, treasuryChange);
  }

  /** The feed's VIX level, the panel's volatility regime and the VIX
      rules of both edge functions use the same bands: below 20, above 25,
      and [20, 25] between. */
  lemma VixBandsAgree(vixPrice: real)
    ensures MarketDataFeed.VixLevel(vixPrice) == Low
            <==> MarketInsights.VolatilityRegimeOf(vixPrice) == MarketInsights.LowVolatility
    ensures MarketDataFeed.VixLevel(vixPrice) == High
            <==> MarketInsights.VolatilityRegimeOf(vixPrice) == MarketInsights.HighVolatility
    ensures |AiInsights.VixInsight(vixPrice)| == |MarketInsights.VixInsights(MarketDataFeed.VixLevel(vixPrice))|
    ensures |AiInsights.VixInsight(vixPrice)| == 1 ==>
              AiInsights.VixInsight(vixPrice)[0].kind
                == MarketInsights.VixInsights(MarketDataFeed.VixLevel(vixPrice))[0].kind
              && AiInsights.VixInsight(vixPrice)[0].title
                == MarketInsights.VixInsights(MarketDataFeed.VixLevel(vixPrice))[0].title
  {
  }

  /** The panel's S&P rule and the insights function's share thresholds,
      tones, titles and confidences. */
  lemma Sp500RulesAgree(change: real)
    ensures |AiInsights.Sp500Insight(change)| == |MarketInsights.Sp500Insights(change)|
    ensures |AiInsights.Sp500Insight(change)| == 1 ==>
              AiInsights.Sp500Insight(change)[0].kind == MarketInsights.Sp500Insights(change)[0].kind
              && AiInsights.Sp500Insight(change)[0].title == MarketInsights.Sp500Insights(change)[0].title
              && AiInsights.Sp500Insight(change)[0].confidence
                == MarketInsights.Sp500Insights(change)[0].confidence
  {
  }

  /** The enhanced-AI sentiment is the stricter one: a bullish or bearish
      analysis always comes with the same S&P vote in getMarketSentiment,
      but a move in (0.5, 1] or [-1, -0.5) votes while the analysis stays
      neutral. */
  lemma AnalysisSentimentStricter(change: real)
    ensures AiEnhanced.AnalysisSentiment(change) != Neutral
            ==> Sp500Signal(change) == AiEnhanced.AnalysisSentiment(change)
    ensures Sp500Signal(change) == Neutral ==> AiEnhanced.AnalysisSentiment(change) == Neutral
    ensures 0.5 < change <= 1.0 ==>
              Sp500Signal(change) == Bullish && AiEnhanced.AnalysisSentiment(change) == Neutral
  {
  }

  /** The feed's interpretation text and the panel's monetary stance
      agree: declining yields are read as easing. */
  lemma InterpretationMatchesStance(change: real, price: real)
    requires price > 0.0
    ensures MarketDataFeed.Interpretation(change) == MarketDataFeed.DecliningText
            <==> MarketInsights.MonetaryStanceOf(MarketDataFeed.ChangePercent(change, price))
                 == MarketInsights.Easing
  {
    MarketDataFeed.ChangePercentBound(change, price, Abs(change), price);
  }

  /** On the feed's own snapshots the S&P move stays below 0.37% either
      way, so none of the S&P rules ever fires on them: the vote of
      getMarketSentiment is neutral, the panel and the insights function
      add no S&P insight, and the enhanced-AI analysis is neutral. */
  lemma FeedNeverMovesSp500(r: seq<real>)
    requires MarketDataFeed.ValidDraws(r)
    ensures var c := MarketDataFeed.GenerateMarketData(r).sp500.changePercent;
            Sp500Signal(c) == Neutral
            && MarketInsights.Sp500Insights(c) == []
            && AiInsights.Sp500Insight(c) == []
            && AiEnhanced.AnalysisSentiment(c) == Neutral
  {
    MarketDataFeed.FeedRelations(r);
  }

  /** Hence on a feed snapshot getMarketSentiment is decided by the VIX
      and treasury votes alone. */
  lemma FeedSentimentIgnoresSp500(r: seq<real>)
    requires MarketDataFeed.ValidDraws(r)
    ensures var m := MarketDataFeed.GenerateMarketData(r);
            MarketSentiment(m) == Verdict(Weight(VixSignal(m.vix.level))
                                          + NetVotes(YieldSignal(m.treasuryYield.changePercent)))
  {
    var m := MarketDataFeed.GenerateMarketData(r);
    FeedNeverMovesSp500(r);
    var y := YieldSignal(m.treasuryYield.changePercent);
    if y != [] {
      assert y[..0] == [];
    }
  }
}
