/** The non-rendering logic of the dashboard's insights panel
    (src/components/dashboard/MarketInsights.tsx): the insight list built
    by generateInsights and the three regime-indicator expressions. */
module MarketInsights {
  import opened Numbers
  import opened RealMarketData

  /** Which rule produced an insight; rules fire in this order. */
  datatype Topic = Volatility | Equities | Oil | Yields

  /** One insight card: its tone, the rule behind it, its title and its
      confidence (the icon and the formatted description are presentation). */
  datatype Insight = Insight(kind: Sentiment, topic: Topic, title: string, confidence: Level)

  function Rank(t: Topic): nat
  {
    match t
    case Volatility => 0
    case Equities => 1
    case Oil => 2
    case Yields => 3
  }

  const LowVolatilityInsight := Insight(Bullish, Volatility, "Low Volatility Environment", High)
  const ElevatedVolatilityInsight := Insight(Bearish, Volatility, "Elevated Volatility Alert", High)
  const StrongMarketInsight := Insight(Bullish, Equities, "Strong Market Performance", Medium)
  const MarketWeaknessInsight := Insight(Bearish, Equities, "Market Weakness Detected", Medium)
  const OilWeaknessInsight := Insight(Bullish, Oil, "Oil Price Weakness", Medium)
  const OilStrengthInsight := Insight(Bearish, Oil, "Oil Price Strength", Medium)
  const DecliningYieldsInsight := Insight(Bullish, Yields, "Declining Yields Support Risk Assets", High)
  const RisingYieldsInsight := Insight(Bearish, Yields, "Rising Yields Increase Competition", High)

  /** The VIX rule's contribution: nothing for a medium level. */
  function VixInsights(level: Level): (r: seq<Insight>)
    ensures |r| <= 1 && forall k :: 0 <= k < |r| ==> r[k].topic == Volatility
  {
    match level
    case Low => [LowVolatilityInsight]
    case High => [ElevatedVolatilityInsight]
    case Medium => []
  }

  /** The S&P 500 rule's contribution (strict thresholds of +-1%). */
  function Sp500Insights(changePercent: real): (r: seq<Insight>)
    ensures |r| <= 1 && forall k :: 0 <= k < |r| ==> r[k].topic == Equities
  {
    if changePercent > 1.0 then [StrongMarketInsight]
    else if changePercent < -1.0 then [MarketWeaknessInsight]
    else []
  }

  /** The oil rule's contribution (strict thresholds of +-2%): falling oil
      is the bullish case. */
  function OilInsights(changePercent: real): (r: seq<Insight>)
    ensures |r| <= 1 && forall k :: 0 <= k < |r| ==> r[k].topic == Oil
  {
    if changePercent < -2.0 then [OilWeaknessInsight]
    else if changePercent > 2.0 then [OilStrengthInsight]
    else []
  }

  /** The treasury rule's contribution (strict thresholds of +-0.5%). */
  function YieldInsights(changePercent: real): (r: seq<Insight>)
    ensures |r| <= 1 && forall k :: 0 <= k < |r| ==> r[k].topic == Yields
  {
    if changePercent < -0.5 then [DecliningYieldsInsight]
    else if changePercent > 0.5 then [RisingYieldsInsight]
    else []
  }

  /** Everything the four rules push, in push order, before the slice. */
  function Candidates(data: MarketData): (c: seq<Insight>)
    ensures |c| <= 4
    ensures forall k :: 0 <= k < |c| ==> c[k].kind != Neutral
    ensures c == [] <==> data.vix.level == Medium && -1.0 <= data.sp500.changePercent <= 1.0
                         && -2.0 <= data.oil.changePercent <= 2.0
                         && -0.5 <= data.treasuryYield.changePercent <= 0.5
  {
    VixInsights(data.vix.level) + Sp500Insights(data.sp500.changePercent)
    + OilInsights(data.oil.changePercent) + YieldInsights(data.treasuryYield.changePercent)
  }

  /** Insights appear in strictly increasing rule order, so each rule
      contributes at most one. */
  predicate OrderedByTopic(insights: seq<Insight>)
  {
    forall i, j :: 0 <= i < j < |insights| ==> Rank(insights[i].topic) < Rank(insights[j].topic)
  }

  /** generateInsights: push one insight per rule that fires, in rule
      order, then keep the first three (insights.slice(0, 3)). */
  method GenerateInsights(data: MarketData) returns (insights: seq<Insight>)
    ensures |insights| <= 3
    ensures insights == Candidates(data)[..MinInt(3, |Candidates(data)|)]
    ensures OrderedByTopic(insights)
  {
    var all: seq<Insight> := [];
    if data.vix.level == Low {
      all := all + [LowVolatilityInsight];
    } else if data.vix.level == High {
      all := all + [ElevatedVolatilityInsight];
    }
    assert all == VixInsights(data.vix.level);
    if data.sp500.changePercent > 1.0 {
      all := all + [StrongMarketInsight];
    } else if data.sp500.changePercent < -1.0 {
      all := all + [MarketWeaknessInsight];
    }
    assert all == VixInsights(data.vix.level) + Sp500Insights(data.sp500.changePercent);
    if data.oil.changePercent < -2.0 {
      all := all + [OilWeaknessInsight];
    } else if data.oil.changePercent > 2.0 {
      all := all + [OilStrengthInsight];
    }
    assert all == VixInsights(data.vix.level) + Sp500Insights(data.sp500.changePercent)
                  + OilInsights(data.oil.changePercent);
    if data.treasuryYield.changePercent < -0.5 {
      all := all + [DecliningYieldsInsight];
    } else if data.treasuryYield.changePercent > 0.5 {
      all := all + [RisingYieldsInsight];
    }
    assert all == Candidates(data);
    CandidatesOrdered(data);
    OrderedPrefix(all, MinInt(3, |all|));
    insights := all[..MinInt(3, |all|)];
  }

  /** A prefix of an ordered list is ordered. */
  lemma OrderedPrefix(insights: seq<Insight>, k: nat)
    requires k <= |insights| && OrderedByTopic(insights)
    ensures OrderedByTopic(insights[..k])
  {
    forall i, j | 0 <= i < j < k
      ensures Rank(insights[..k][i].topic) < Rank(insights[..k][j].topic)
    {
      assert insights[..k][i] == insights[i] && insights[..k][j] == insights[j];
    }
  }

  /** Every insight of the list comes from a rule ranked in [lo, hi]. */
  predicate RanksWithin(insights: seq<Insight>, lo: nat, hi: nat)
  {
    forall k :: 0 <= k < |insights| ==> lo <= Rank(insights[k].topic) <= hi
  }

  /** Two ordered lists, every rule of the first ranked before every rule
      of the second, concatenate to an ordered list. */
  lemma OrderedAppend(a: seq<Insight>, b: seq<Insight>, m: nat, n: nat)
    requires m < n
    requires OrderedByTopic(a) && RanksWithin(a, 0, m)
    requires OrderedByTopic(b) && RanksWithin(b, m + 1, n)
    ensures OrderedByTopic(a + b) && RanksWithin(a + b, 0, n)
  {
    forall i, j | 0 <= i < j < |a + b|
      ensures Rank((a + b)[i].topic) < Rank((a + b)[j].topic)
    {
      if j < |a| {
      } else if i < |a| {
        assert (a + b)[j] == b[j - |a|];
      } else {
        assert (a + b)[i] == b[i - |a|] && (a + b)[j] == b[j - |a|];
      }
    }
    forall k | 0 <= k < |a + b|
      ensures 0 <= Rank((a + b)[k].topic) <= n
    {
      if k >= |a| {
        assert (a + b)[k] == b[k - |a|];
      } else {
        assert (a + b)[k] == a[k];
      }
    }
  }

  /** The candidate list holds at most one insight per rule, in rule order. */
  lemma CandidatesOrdered(data: MarketData)
    ensures |Candidates(data)| <= 4
    ensures OrderedByTopic(Candidates(data))
  {
    var v, s := VixInsights(data.vix.level), Sp500Insights(data.sp500.changePercent);
    var o, y := OilInsights(data.oil.changePercent), YieldInsights(data.treasuryYield.changePercent);
    OrderedAppend(v, s, 0, 1);
    OrderedAppend(v + s, o, 1, 2);
    OrderedAppend(v + s + o, y, 2, 3);
  }

  /** When each rule fires and with which tone: the thresholds are strict,
      and falling oil is the bullish case. */
  lemma InsightTriggers(level: Level, sp500Change: real, oilChange: real, yieldChange: real)
    ensures VixInsights(level) == [] <==> level == Medium
    ensures Sp500Insights(sp500Change) == [StrongMarketInsight] <==> sp500Change > 1.0
    ensures Sp500Insights(sp500Change) == [MarketWeaknessInsight] <==> sp500Change < -1.0
    ensures Sp500Insights(sp500Change) == [] <==> -1.0 <= sp500Change <= 1.0
    ensures OilInsights(oilChange) == [OilWeaknessInsight] <==> oilChange < -2.0
    ensures OilInsights(oilChange) == [OilStrengthInsight] <==> oilChange > 2.0
    ensures OilInsights(oilChange) == [] <==> -2.0 <= oilChange <= 2.0
    ensures YieldInsights(yieldChange) == [DecliningYieldsInsight] <==> yieldChange < -0.5
    ensures YieldInsights(yieldChange) == [RisingYieldsInsight] <==> yieldChange > 0.5
    ensures YieldInsights(yieldChange) == [] <==> -0.5 <= yieldChange <= 0.5
  {
  }

  /** When all four rules fire, the slice drops the treasury insight. */
  lemma {:induction false} AllFourFire(data: MarketData)
    requires |Candidates(data)| == 4
    ensures Candidates(data)[..MinInt(3, |Candidates(data)|)] == Candidates(data)[..3]
    ensures forall x :: x in Candidates(data)[..3] ==> x.topic != Yields
    ensures Candidates(data)[3].topic == Yields
  {
    var v, s := VixInsights(data.vix.level), Sp500Insights(data.sp500.changePercent);
    var o, y := OilInsights(data.oil.changePercent), YieldInsights(data.treasuryYield.changePercent);
    assert |v| <= 1 && |s| <= 1 && |o| <= 1 && |y| <= 1;
    assert |v| == 1 && |s| == 1 && |o| == 1 && |y| == 1;
    assert Candidates(data) == [v[0], s[0], o[0], y[0]];
  }

  // ---------------------------------------------------------------------
  // The regime-indicator expressions of the panel.

  datatype VolatilityRegime = LowVolatility | MediumVolatility | HighVolatility
  {
    function Label(): string
    {
      match this
      case LowVolatility => "Low"
      case MediumVolatility => "Medium"
      case HighVolatility => "High"
    }
  }

  /** The volatility regime shown for a VIX price: below 20 low, above 25
      high, medium on [20, 25]. */
  function VolatilityRegimeOf(vixPrice: real): (r: VolatilityRegime)
    ensures r == LowVolatility <==> vixPrice < 20.0
    ensures r == HighVolatility <==> vixPrice > 25.0
  {
    if vixPrice < 20.0 then LowVolatility
    else if vixPrice > 25.0 then HighVolatility
    else MediumVolatility
  }

  datatype MonetaryStance = Easing | Tightening
  {
    function Label(): string
    {
      match this
      case Easing => "Easing"
      case Tightening => "Tightening"
    }
  }

  /** The monetary stance shown for a treasury move: easing exactly when
      yields fell, tightening otherwise (an unchanged yield included). */
  function MonetaryStanceOf(treasuryChangePercent: real): (s: MonetaryStance)
    ensures s == Easing <==> treasuryChangePercent < 0.0
  {
    if treasuryChangePercent < 0.0 then Easing else Tightening
  }

  /** The overall-risk text for a VIX level. */
  function RiskText(level: Level): (s: string)
    ensures s == "Low Risk" || s == "Moderate Risk" || s == "High Risk"
  {
    if level == Low then "Low Risk"
    else if level == Medium then "Moderate Risk"
    else "High Risk"
  }

  /** The risk text names the level and nothing else: each text is
      produced by exactly one level. */
  lemma {:induction false} RiskTextNamesLevel(level: Level)
    ensures RiskText(level) == "Low Risk" <==> level == Low
    ensures RiskText(level) == "Moderate Risk" <==> level == Medium
    ensures RiskText(level) == "High Risk" <==> level == High
  {
    assert "Low Risk"[0] != "Moderate Risk"[0] && "Low Risk"[0] != "High Risk"[0];
    assert "Moderate Risk"[0] != "High Risk"[0];
  }
}
