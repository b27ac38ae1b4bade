/** The market snapshot the dashboard reads (src/data/realMarketData.ts):
    its record shape, the vote-counting sentiment classifier and the
    four-way macro-regime ladder. */
module RealMarketData {

  /** The string union 'low' | 'medium' | 'high', used for the VIX level,
      for confidences and for risk levels. */
  datatype Level = Low | Medium | High

  /** The string union 'bullish' | 'bearish' | 'neutral'. */
  datatype Sentiment = Bullish | Bearish | Neutral

  datatype Sp500Quote = Sp500Quote(price: real, change: real, changePercent: real,
                                   high: real, low: real, volume: int)
  datatype VixQuote = VixQuote(price: real, change: real, changePercent: real, level: Level)
  datatype YieldQuote = YieldQuote(price: real, change: real, changePercent: real,
                                   interpretation: string)
  datatype StockQuote = StockQuote(price: real, change: real, changePercent: real, volume: int)
  datatype CommodityQuote = CommodityQuote(price: real, change: real, changePercent: real,
                                           unit: string)

  /** The quotes of a snapshot that the classifiers read. */
  datatype MarketData = MarketData(sp500: Sp500Quote, vix: VixQuote, treasuryYield: YieldQuote,
                                   aapl: StockQuote, googl: StockQuote, oil: CommodityQuote)

  /** The fixed snapshot returned by createRealMarketData. */
  function Snapshot(): (m: MarketData)
    ensures m.vix.level == Low <==> m.vix.price < 20.0
    ensures m.sp500.low <= m.sp500.price <= m.sp500.high
    ensures m.sp500.changePercent < 0.0 <==> m.sp500.change < 0.0
    ensures m.vix.changePercent < 0.0 <==> m.vix.change < 0.0
    ensures m.treasuryYield.changePercent < 0.0 <==> m.treasuryYield.change < 0.0
    ensures m.oil.changePercent < 0.0 <==> m.oil.change < 0.0
  {
    MarketData(
      Sp500Quote(6849.72, 37.35, 0.55, 6862.42, 6810.43, 4736780000),
      VixQuote(16.08, -1.16, -6.72, Low),
      YieldQuote(4.057, -0.029, -0.71, "Declining yields suggest lower inflation expectations"),
      StockQuote(284.15, -1.95, -0.68, 43538700),
      StockQuote(319.63, 4.74, 1.50, 41838300),
      CommodityQuote(57.37, -1.03, -1.76, "per barrel"))
  }

  // ---------------------------------------------------------------------
  // getMarketSentiment: one vote per indicator, then a majority count.

  /** The VIX vote: a calm VIX is bullish, a stressed one bearish. */
  function VixSignal(level: Level): (s: Sentiment)
    ensures s == Bullish <==> level == Low
    ensures s == Bearish <==> level == High
  {
    match level
    case Low => Bullish
    case High => Bearish
    case Medium => Neutral
  }

  /** The S&P 500 vote; both thresholds are strict, so a move of exactly
      0.5% either way votes neutral. */
  function Sp500Signal(changePercent: real): (s: Sentiment)
    ensures s == Bullish <==> changePercent > 0.5
    ensures s == Bearish <==> changePercent < -0.5
    ensures s == Neutral <==> -0.5 <= changePercent <= 0.5
  {
    if changePercent > 0.5 then Bullish
    else if changePercent < -0.5 then Bearish
    else Neutral
  }

  /** The treasury vote, cast only outside [-0.5, 0.5]: falling yields are
      bullish (risk-on), rising yields bearish. */
  function YieldSignal(changePercent: real): (votes: seq<Sentiment>)
    ensures |votes| <= 1
    ensures votes == [] <==> -0.5 <= changePercent <= 0.5
    ensures votes == [Bullish] <==> changePercent < -0.5
    ensures votes == [Bearish] <==> changePercent > 0.5
  {
    if changePercent < -0.5 then [Bullish]
    else if changePercent > 0.5 then [Bearish]
    else []
  }

  /** How many of the signals equal v (signals.filter(s => s === v).length). */
  function Count(signals: seq<Sentiment>, v: Sentiment): nat
  {
    if signals == [] then 0
    else Count(signals[..|signals| - 1], v) + (if signals[|signals| - 1] == v then 1 else 0)
  }

  /** A bullish signal counts +1, a bearish one -1, a neutral one 0. */
  function Weight(s: Sentiment): int
  {
    match s
    case Bullish => 1
    case Bearish => -1
    case Neutral => 0
  }

  /** The sum of the weights of the signals. */
  function NetVotes(signals: seq<Sentiment>): int
  {
    if signals == [] then 0
    else NetVotes(signals[..|signals| - 1]) + Weight(signals[|signals| - 1])
  }

  /** The sign of a net vote as a sentiment. */
  function Verdict(net: int): Sentiment
  {
    if net > 0 then Bullish else if net < 0 then Bearish else Neutral
  }

  /** The net vote read off the three indicators directly: the reference
      definition the counting procedure is proved against. */
  function Score(data: MarketData): int
  {
    Weight(VixSignal(data.vix.level))
    + Weight(Sp500Signal(data.sp500.changePercent))
    + (if data.treasuryYield.changePercent < -0.5 then 1
       else if data.treasuryYield.changePercent > 0.5 then -1
       else 0)
  }

  /** The sentiment getMarketSentiment reports, as a function of the data. */
  function MarketSentiment(data: MarketData): Sentiment
  {
    Verdict(Score(data))
  }

  /** Bullish minus bearish counts is the net vote; neutral signals add
      to neither count. */
  lemma {:induction false} CountDifference(signals: seq<Sentiment>)
    ensures Count(signals, Bullish) - Count(signals, Bearish) == NetVotes(signals)
  {
    if signals != [] {
      CountDifference(signals[..|signals| - 1]);
    }
  }

  /** Net votes add up over concatenation. */
  lemma {:induction false} NetVotesAppend(a: seq<Sentiment>, b: seq<Sentiment>)
    ensures NetVotes(a + b) == NetVotes(a) + NetVotes(b)
  {
    if b != [] {
      assert (a + b)[..|a + b| - 1] == a + b[..|b| - 1];
      assert (a + b)[|a + b| - 1] == b[|b| - 1];
      NetVotesAppend(a, b[..|b| - 1]);
    } else {
      assert a + b == a;
    }
  }

  /** The pushes of getMarketSentiment: exactly one VIX vote and one S&P
      vote, then at most one yield vote. */
  method CollectSignals(data: MarketData) returns (signals: seq<Sentiment>)
    ensures 2 <= |signals| <= 3
    ensures signals[0] == VixSignal(data.vix.level)
    ensures signals[1] == Sp500Signal(data.sp500.changePercent)
    ensures signals[2..] == YieldSignal(data.treasuryYield.changePercent)
  {
    signals := [];
    if data.vix.level == Low {
      signals := signals + [Bullish];
    } else if data.vix.level == High {
      signals := signals + [Bearish];
    } else {
      signals := signals + [Neutral];
    }
    if data.sp500.changePercent > 0.5 {
      signals := signals + [Bullish];
    } else if data.sp500.changePercent < -0.5 {
      signals := signals + [Bearish];
    } else {
      signals := signals + [Neutral];
    }
    if data.treasuryYield.changePercent < -0.5 {
      signals := signals + [Bullish];
    } else if data.treasuryYield.changePercent > 0.5 {
      signals := signals + [Bearish];
    }
  }

  /** The counting half of getMarketSentiment: bullish wins on a strict
      majority of bullish over bearish votes, bearish on the converse, and
      a tie is neutral whatever the number of neutral votes. */
  method TallySignals(signals: seq<Sentiment>) returns (s: Sentiment)
    ensures s == Bullish <==> Count(signals, Bullish) > Count(signals, Bearish)
    ensures s == Bearish <==> Count(signals, Bearish) > Count(signals, Bullish)
    ensures s == Verdict(NetVotes(signals))
  {
    var bullish, bearish := 0, 0;
    var i := 0;
    while i < |signals|
      invariant 0 <= i <= |signals|
      invariant bullish == Count(signals[..i], Bullish)
      invariant bearish == Count(signals[..i], Bearish)
    {
      assert signals[..i + 1][..i] == signals[..i];
      if signals[i] == Bullish {
        bullish := bullish + 1;
      } else if signals[i] == Bearish {
        bearish := bearish + 1;
      }
      i := i + 1;
    }
    assert signals[..i] == signals;
    CountDifference(signals);
    if bullish > bearish {
      s := Bullish;
    } else if bearish > bullish {
      s := Bearish;
    } else {
      s := Neutral;
    }
  }

  /** getMarketSentiment. */
  method GetMarketSentiment(data: MarketData) returns (s: Sentiment)
    ensures s == MarketSentiment(data)
  {
    var signals := CollectSignals(data);
    s := TallySignals(signals);
    assert signals == [signals[0]] + [signals[1]] + signals[2..];
    NetVotesAppend([signals[0]] + [signals[1]], signals[2..]);
    NetVotesAppend([signals[0]], [signals[1]]);
    assert NetVotes([signals[0]]) == Weight(signals[0]);
    assert NetVotes([signals[1]]) == Weight(signals[1]);
  }

  /** A calm VIX together with an S&P rally above 0.5% is always bullish,
      a stressed VIX with a fall below -0.5% always bearish: the yield
      vote alone cannot outweigh two agreeing votes. */
  lemma {:induction false} AgreeingVotesDecide(data: MarketData)
    ensures data.vix.level == Low && data.sp500.changePercent > 0.5 ==>
              MarketSentiment(data) == Bullish
    ensures data.vix.level == High && data.sp500.changePercent < -0.5 ==>
              MarketSentiment(data) == Bearish
    ensures MarketSentiment(data) == Neutral <==> Score(data) == 0
  {
  }

  // ---------------------------------------------------------------------
  // getMacroRegime: a first-match ladder of four rungs.

  datatype MacroRegime = RiskOn | RiskOff | TighteningCycle | NeutralRegime
  {
    function Label(): string
    {
      match this
      case RiskOn => "Risk-On Environment"
      case RiskOff => "Risk-Off Environment"
      case TighteningCycle => "Tightening Cycle"
      case NeutralRegime => "Neutral Environment"
    }
  }

  /** The Risk-On rung: calm VIX, rising S&P and falling yields. */
  predicate RiskOnCondition(vix: real, sp500Change: real, treasuryChange: real)
  {
    vix < 20.0 && sp500Change > 0.0 && treasuryChange < 0.0
  }

  /** getMacroRegime on the three numbers it reads. */
  function MacroRegimeOf(vix: real, sp500Change: real, treasuryChange: real): (m: MacroRegime)
    ensures m == RiskOn <==> RiskOnCondition(vix, sp500Change, treasuryChange)
    ensures m == RiskOff ==> vix > 25.0 || sp500Change < -1.0
    ensures m == TighteningCycle ==> treasuryChange > 0.5 && vix <= 25.0 && sp500Change >= -1.0
  {
    if RiskOnCondition(vix, sp500Change, treasuryChange) then RiskOn
    else if vix > 25.0 || sp500Change < -1.0 then RiskOff
    else if treasuryChange > 0.5 then TighteningCycle
    else NeutralRegime
  }

  /** getMacroRegime. */
  function GetMacroRegime(data: MarketData): (m: MacroRegime)
    ensures m == RiskOn <==> data.vix.price < 20.0 && data.sp500.changePercent > 0.0
                             && data.treasuryYield.changePercent < 0.0
    ensures m == TighteningCycle ==> data.treasuryYield.changePercent > 0.5
  {
    MacroRegimeOf(data.vix.price, data.sp500.changePercent, data.treasuryYield.changePercent)
  }

  /** Each rung of the ladder as a condition on the inputs alone, the
      earlier rungs' failure written out. */
  lemma MacroRegimeRungs(vix: real, sp500Change: real, treasuryChange: real)
    ensures MacroRegimeOf(vix, sp500Change, treasuryChange) == RiskOn <==>
              vix < 20.0 && sp500Change > 0.0 && treasuryChange < 0.0
    ensures MacroRegimeOf(vix, sp500Change, treasuryChange) == RiskOff <==>
              !RiskOnCondition(vix, sp500Change, treasuryChange) && (vix > 25.0 || sp500Change < -1.0)
    ensures MacroRegimeOf(vix, sp500Change, treasuryChange) == TighteningCycle <==>
              !RiskOnCondition(vix, sp500Change, treasuryChange) && vix <= 25.0
              && sp500Change >= -1.0 && treasuryChange > 0.5
    ensures MacroRegimeOf(vix, sp500Change, treasuryChange) == NeutralRegime <==>
              !RiskOnCondition(vix, sp500Change, treasuryChange) && vix <= 25.0
              && sp500Change >= -1.0 && treasuryChange <= 0.5
  {
  }

  /** The four labels are distinct, so the label alone tells the rung. */
  lemma {:induction false} LabelsDistinct(a: MacroRegime, b: MacroRegime)
    ensures a.Label() == b.Label() <==> a == b
  {
    if a != b {
      assert a.Label()[0] != b.Label()[0] || a.Label()[6] != b.Label()[6];
    }
  }

  /** The fixed snapshot reads as a bullish, Risk-On market. */
  lemma SnapshotReading()
    ensures MarketSentiment(Snapshot()) == Bullish
    ensures GetMacroRegime(Snapshot()) == RiskOn
  {
  }
}
