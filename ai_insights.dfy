/** The AI-insights edge function (supabase/functions/ai-insights/index.ts):
    generateAIInsights draws a VIX price and an S&P 500 move, pushes an
    insight for each that crosses its thresholds, and always closes with a
    macro-regime insight. The two draws are parameters. */
module AiInsights {
  import opened Text
  import opened RealMarketData

  /** One insight (icon and description are presentation). */
  datatype AIInsight = AIInsight(kind: Sentiment, title: string, confidence: Level)

  const MacroTitle := "Macro Regime Analysis"

  /** 12 + Math.random() * 20. */
  function VixDraw(r: real): (v: real)
    requires 0.0 <= r < 1.0
    ensures 12.0 <= v < 32.0
  {
    12.0 + r * 20.0
  }

  /** (Math.random() - 0.5) * 5. */
  function Sp500Draw(r: real): (c: real)
    requires 0.0 <= r < 1.0
    ensures -2.5 <= c < 2.5
  {
    (r - 0.5) * 5.0
  }

  /** The VIX insight: bullish below 20, bearish above 25, none between. */
  function VixInsight(vixPrice: real): (r: seq<AIInsight>)
    ensures |r| <= 1
    ensures |r| == 1 <==> vixPrice < 20.0 || vixPrice > 25.0
    ensures |r| == 1 ==> r[0].confidence == High && r[0].title != MacroTitle
    ensures |r| == 1 ==> (r[0].kind == Bullish <==> vixPrice < 20.0)
  {
    if vixPrice < 20.0 then [AIInsight(Bullish, "Low Volatility Environment", High)]
    else if vixPrice > 25.0 then [AIInsight(Bearish, "Elevated Volatility Alert", High)]
    else []
  }

  /** The S&P 500 insight: bullish above +1%, bearish below -1%. */
  function Sp500Insight(sp500Change: real): (r: seq<AIInsight>)
    ensures |r| <= 1
    ensures |r| == 1 <==> sp500Change > 1.0 || sp500Change < -1.0
    ensures |r| == 1 ==> r[0].confidence == Medium && r[0].title != MacroTitle
    ensures |r| == 1 ==> (r[0].kind == Bullish <==> sp500Change > 1.0)
  {
    if sp500Change > 1.0 then [AIInsight(Bullish, "Strong Market Performance", Medium)]
    else if sp500Change < -1.0 then [AIInsight(Bearish, "Market Weakness Detected", Medium)]
    else []
  }

  /** The macroRegime expression: a three-way ladder, with no tightening
      rung and no treasury condition. */
  function InsightsRegime(vixPrice: real, sp500Change: real): (m: MacroRegime)
    ensures m == RiskOn <==> vixPrice < 20.0 && sp500Change > 0.0
    ensures m == RiskOff <==> !(vixPrice < 20.0 && sp500Change > 0.0) && (vixPrice > 25.0 || sp500Change < -1.0)
    ensures m == NeutralRegime <==> !(vixPrice < 20.0 && sp500Change > 0.0) && !(vixPrice > 25.0 || sp500Change < -1.0)
  {
    if vixPrice < 20.0 && sp500Change > 0.0 then RiskOn
    else if vixPrice > 25.0 || sp500Change < -1.0 then RiskOff
    else NeutralRegime
  }

  /** The insight type read off the regime regimeLabel with includes. */
  function KindOfLabel(regimeLabel: string): Sentiment
  {
    if Contains(regimeLabel, "Risk-On") then Bullish
    else if Contains(regimeLabel, "Risk-Off") then Bearish
    else Neutral
  }

  /** The closing insight. */
  function MacroInsight(regime: MacroRegime): (i: AIInsight)
    ensures i.title == MacroTitle && i.confidence == Medium
  {
    AIInsight(KindOfLabel(regime.Label()), MacroTitle, Medium)
  }

  lemma RiskOnLabelKind(regimeLabel: string)
    requires regimeLabel == "Risk-On Environment"
    ensures KindOfLabel(regimeLabel) == Bullish
  {
    assert regimeLabel == "" + "Risk-On" + " Environment";
    OccursBetween("", "Risk-On", " Environment");
  }

  /** "Risk-Off Environment" split into words, with and without its first
      letter. */
  lemma RiskOffLabelWords(regimeLabel: string)
    requires regimeLabel == "Risk-Off Environment"
    ensures regimeLabel == "" + "Risk-Off" + " Environment"
    ensures regimeLabel[1..] == "isk-Off" + " " + "Environment"
  {
  }

  lemma RiskOffLabelNotRiskOn(regimeLabel: string)
    requires regimeLabel == "Risk-Off Environment"
    ensures !Contains(regimeLabel, "Risk-On")
  {
    RiskOffLabelWords(regimeLabel);
    AbsentFromWords('R', "isk-Off", " ", "Environment");
    assert regimeLabel[6] == 'f';
    assert !OccursAt(regimeLabel, "Risk-On", 0);
    HeadAbsentAfter(regimeLabel, "Risk-On", 1);
  }

  lemma RiskOffLabelKind(regimeLabel: string)
    requires regimeLabel == "Risk-Off Environment"
    ensures KindOfLabel(regimeLabel) == Bearish
  {
    RiskOffLabelNotRiskOn(regimeLabel);
    RiskOffLabelWords(regimeLabel);
    OccursBetween("", "Risk-Off", " Environment");
  }

  lemma NeutralLabelKind(regimeLabel: string)
    requires regimeLabel == "Neutral Environment"
    ensures KindOfLabel(regimeLabel) == Neutral
  {
    assert regimeLabel == "Neutral" + " " + "Environment";
    AbsentFromWords('R', "Neutral", " ", "Environment");
    AbsentChar(regimeLabel, "Risk-On", 0);
    AbsentChar(regimeLabel, "Risk-Off", 0);
  }

  /** The closing insight is bullish, bearish or neutral exactly as the
      regime is Risk-On, Risk-Off or neutral. */
  lemma MacroInsightKind(vixPrice: real, sp500Change: real)
    ensures (MacroInsight(InsightsRegime(vixPrice, sp500Change)).kind == Bullish)
              <==> (InsightsRegime(vixPrice, sp500Change) == RiskOn)
    ensures (MacroInsight(InsightsRegime(vixPrice, sp500Change)).kind == Bearish)
              <==> (InsightsRegime(vixPrice, sp500Change) == RiskOff)
    ensures (MacroInsight(InsightsRegime(vixPrice, sp500Change)).kind == Neutral)
              <==> (InsightsRegime(vixPrice, sp500Change) == NeutralRegime)
  {
    match InsightsRegime(vixPrice, sp500Change)
    case RiskOn => RiskOnLabelKind(RiskOn.Label());
    case RiskOff => RiskOffLabelKind(RiskOff.Label());
    case NeutralRegime => NeutralLabelKind(NeutralRegime.Label());
  }

  /** Neither threshold insight carries the closing insight's title. */
  lemma NoMacroTitleBefore(vixPrice: real, sp500Change: real)
    ensures forall i :: 0 <= i < |VixInsight(vixPrice) + Sp500Insight(sp500Change)| ==>
              (VixInsight(vixPrice) + Sp500Insight(sp500Change))[i].title != MacroTitle
  {
    var v: seq<AIInsight>, s: seq<AIInsight> := VixInsight(vixPrice), Sp500Insight(sp500Change);
    forall i | 0 <= i < |v + s|
      ensures (v + s)[i].title != MacroTitle
    {
      if i < |v| {
        assert (v + s)[i] == v[0];
      } else {
        assert (v + s)[i] == s[0];
      }
    }
  }

  /** generateAIInsights, the two Math.random() draws passed in order. */
  method GenerateAIInsights(vixDraw: real, sp500Draw: real) returns (insights: seq<AIInsight>)
    requires 0.0 <= vixDraw < 1.0 && 0.0 <= sp500Draw < 1.0
    ensures 1 <= |insights| <= 3
    ensures insights == VixInsight(VixDraw(vixDraw)) + Sp500Insight(Sp500Draw(sp500Draw))
                        + [MacroInsight(InsightsRegime(VixDraw(vixDraw), Sp500Draw(sp500Draw)))]
    ensures insights[|insights| - 1].title == MacroTitle
    ensures forall i :: 0 <= i < |insights| - 1 ==> insights[i].title != MacroTitle
  {
    insights := [];
    var vixPrice := 12.0 + vixDraw * 20.0;
    if vixPrice < 20.0 {
      insights := insights + [AIInsight(Bullish, "Low Volatility Environment", High)];
    } else if vixPrice > 25.0 {
      insights := insights + [AIInsight(Bearish, "Elevated Volatility Alert", High)];
    }
    assert insights == VixInsight(VixDraw(vixDraw));
    var sp500Change := (sp500Draw - 0.5) * 5.0;
    if sp500Change > 1.0 {
      insights := insights + [AIInsight(Bullish, "Strong Market Performance", Medium)];
    } else if sp500Change < -1.0 {
      insights := insights + [AIInsight(Bearish, "Market Weakness Detected", Medium)];
    }
    assert insights == VixInsight(VixDraw(vixDraw)) + Sp500Insight(Sp500Draw(sp500Draw));
    NoMacroTitleBefore(vixPrice, sp500Change);
    var macroRegime := if vixPrice < 20.0 && sp500Change > 0.0 then RiskOn
                       else if vixPrice > 25.0 || sp500Change < -1.0 then RiskOff
                       else NeutralRegime;
    ClosingInsightLast(insights, MacroInsight(macroRegime));
    insights := insights + [MacroInsight(macroRegime)];
  }

  /** Appending the closing insight to a list without its title leaves
      exactly one insight with that title, the last. */
  lemma ClosingInsightLast(before: seq<AIInsight>, closing: AIInsight)
    requires forall i :: 0 <= i < |before| ==> before[i].title != MacroTitle
    requires closing.title == MacroTitle
    ensures (before + [closing])[|before + [closing]| - 1].title == MacroTitle
    ensures forall i :: 0 <= i < |before + [closing]| - 1 ==> (before + [closing])[i].title != MacroTitle
  {
    forall i | 0 <= i < |before + [closing]| - 1
      ensures (before + [closing])[i].title != MacroTitle
    {
      assert (before + [closing])[i] == before[i];
    }
  }

  /** The handler's answer: the insights, or nothing on a preflight. */
  datatype InsightsResponse = Preflight | Insights(data: seq<AIInsight>, timestamp: string)

  /** The handler: OPTIONS gets 200 with no body, anything else the
      generated insights (generateAIInsights cannot throw). */
  method Handle(httpMethod: string, vixDraw: real, sp500Draw: real, now: string)
    returns (r: InsightsResponse)
    requires 0.0 <= vixDraw < 1.0 && 0.0 <= sp500Draw < 1.0
    ensures r.Preflight? <==> httpMethod == "OPTIONS"
    ensures r.Insights? ==> r.timestamp == now
    ensures r.Insights? ==> r.data == VixInsight(VixDraw(vixDraw)) + Sp500Insight(Sp500Draw(sp500Draw))
                                      + [MacroInsight(InsightsRegime(VixDraw(vixDraw), Sp500Draw(sp500Draw)))]
    ensures r.Insights? ==> 1 <= |r.data| <= 3 && r.data[|r.data| - 1].title == MacroTitle
    ensures r.Insights? ==> forall i :: 0 <= i < |r.data| - 1 ==> r.data[i].title != MacroTitle
  {
    if httpMethod == "OPTIONS" {
      return Preflight;
    }
    var insights := GenerateAIInsights(vixDraw, sp500Draw);
    return Insights(insights, now);
  }
}
