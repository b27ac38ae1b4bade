/** The real-market-data edge function (supabase/functions/real-market-
    data/index.ts): a synthetic snapshot computed from 21 Math.random()
    draws, whose derived fields (VIX level, change percents, the treasury
    interpretation, the S&P range and volume) are tied to the drawn ones. */
module MarketDataFeed {
  import opened Numbers
  import opened RealMarketData

  const DecliningText := "Declining yields suggest lower inflation expectations"
  const RisingText := "Rising yields suggest higher inflation expectations"

  /** The 21 draws, in the order the object literal evaluates them: S&P
      price and change, VIX price, treasury price and change (the local
      constants), then S&P high, low and volume, VIX change and change
      percent, four for AAPL, four for GOOGL, three for oil. */
  predicate ValidDraws(r: seq<real>)
  {
    |r| == 21 && forall k :: 0 <= k < |r| ==> 0.0 <= r[k] < 1.0
  }

  /** (Math.random() - 0.5) * width: a move in [-width/2, width/2). */
  function Move(r: real, width: real): real
  {
    (r - 0.5) * width
  }

  /** vixPrice < 20 ? 'low' : vixPrice > 25 ? 'high' : 'medium'. */
  function VixLevel(price: real): (l: Level)
    ensures l == Low <==> price < 20.0
    ensures l == High <==> price > 25.0
  {
    if price < 20.0 then Low else if price > 25.0 then High else Medium
  }

  /** The interpretation text: the declining one exactly when the change
      is negative. */
  function Interpretation(change: real): (s: string)
    ensures s == DecliningText <==> change < 0.0
    ensures s == RisingText <==> change >= 0.0
  {
    assert |DecliningText| != |RisingText|;
    if change < 0.0 then DecliningText else RisingText
  }

  /** change / price * 100. */
  function ChangePercent(change: real, price: real): real
    requires price > 0.0
  {
    (change / price) * 100.0
  }

  /** generateMarketData. */
  function GenerateMarketData(r: seq<real>): (m: MarketData)
    requires ValidDraws(r)
    ensures 6800.0 <= m.sp500.price < 7000.0 && -25.0 <= m.sp500.change < 25.0
    ensures 12.0 <= m.vix.price < 32.0 && m.vix.level == VixLevel(m.vix.price)
    ensures 3.5 <= m.treasuryYield.price < 5.5 && -0.1 <= m.treasuryYield.change < 0.1
    ensures 280.0 <= m.aapl.price < 300.0 && 310.0 <= m.googl.price < 340.0
    ensures 55.0 <= m.oil.price < 75.0 && m.oil.unit == "per barrel"
  {
    var sp500Price := 6800.0 + r[0] * 200.0;
    var sp500Change := Move(r[1], 50.0);
    var vixPrice := 12.0 + r[2] * 20.0;
    var treasuryPrice := 3.5 + r[3] * 2.0;
    var treasuryChange := Move(r[4], 0.2);
    MarketData(
      Sp500Quote(sp500Price, sp500Change, ChangePercent(sp500Change, sp500Price),
                 sp500Price + r[5] * 10.0, sp500Price - r[6] * 10.0,
                 Floor(r[7] * 5000000000.0) + 2000000000),
      VixQuote(vixPrice, Move(r[8], 2.0), Move(r[9], 10.0), VixLevel(vixPrice)),
      YieldQuote(treasuryPrice, treasuryChange, ChangePercent(treasuryChange, treasuryPrice),
                 Interpretation(treasuryChange)),
      StockQuote(280.0 + r[10] * 20.0, Move(r[11], 5.0), Move(r[12], 3.0),
                 Floor(r[13] * 50000000.0) + 30000000),
      StockQuote(310.0 + r[14] * 30.0, Move(r[15], 8.0), Move(r[16], 4.0),
                 Floor(r[17] * 50000000.0) + 25000000),
      CommodityQuote(55.0 + r[18] * 20.0, Move(r[19], 3.0), Move(r[20], 5.0), "per barrel"))
  }

  /** A percent change has the sign of the change, and is bounded by the
      largest change over the smallest price. */
  lemma ChangePercentBound(change: real, price: real, maxChange: real, minPrice: real)
    requires 0.0 < minPrice <= price && -maxChange <= change <= maxChange
    ensures ChangePercent(change, price) < 0.0 <==> change < 0.0
    ensures -maxChange * 100.0 / minPrice <= ChangePercent(change, price) <= maxChange * 100.0 / minPrice
  {
    var q := change / price;
    assert q * price == change;
    var m := maxChange / minPrice;
    assert m * minPrice == maxChange;
    if q > m {
      ScaleMonotone(minPrice, price, q);
      assert m * minPrice < q * minPrice;
    }
    if q < -m {
      ScaleMonotone(minPrice, price, -q);
      assert -m * minPrice > q * minPrice;
    }
    assert maxChange * 100.0 / minPrice == m * 100.0;
  }

  /** The relations between the snapshot's fields: the VIX level follows
      the price bands, the S&P price lies between its low and high, the
      percent changes carry the sign of the changes (the S&P one staying
      below 0.37% either way), the interpretation follows the treasury
      change, and the volume is an integer in [2e9, 7e9). */
  lemma FeedRelations(r: seq<real>)
    requires ValidDraws(r)
    ensures var m := GenerateMarketData(r);
            (m.vix.level == Low <==> m.vix.price < 20.0)
            && (m.vix.level == High <==> m.vix.price > 25.0)
            && 12.0 <= m.vix.price < 32.0
            && m.sp500.low <= m.sp500.price <= m.sp500.high
            && (m.sp500.changePercent < 0.0 <==> m.sp500.change < 0.0)
            && -0.37 < m.sp500.changePercent < 0.37
            && (m.treasuryYield.changePercent < 0.0 <==> m.treasuryYield.change < 0.0)
            && (m.treasuryYield.interpretation == DecliningText <==> m.treasuryYield.change < 0.0)
            && 2000000000 <= m.sp500.volume < 7000000000
  {
    var m := GenerateMarketData(r);
    assert r[5] * 10.0 >= 0.0 && r[6] * 10.0 >= 0.0;
    ChangePercentBound(m.sp500.change, m.sp500.price, 25.0, 6800.0);
    ChangePercentBound(m.treasuryYield.change, m.treasuryYield.price, 0.1, 3.5);
    assert r[7] * 5000000000.0 < 5000000000.0;
  }

  datatype FeedResponse =
    | Preflight
    | Success(data: MarketData)
    | Failure(status: int, error: string)

  /** The Deno.serve handler; raised stands for an exception thrown by
      the runtime, the only way into the catch branch. */
  function Handle(httpMethod: string, r: seq<real>, raised: bool): (resp: FeedResponse)
    requires ValidDraws(r)
    ensures resp.Preflight? <==> httpMethod == "OPTIONS"
    ensures resp.Failure? <==> httpMethod != "OPTIONS" && raised
    ensures resp.Failure? ==> resp.status == 500 && resp.error == "Failed to fetch real market data"
    ensures resp.Success? ==> resp.data == GenerateMarketData(r)
  {
    if httpMethod == "OPTIONS" then Preflight
    else if raised then Failure(500, "Failed to fetch real market data")
    else Success(GenerateMarketData(r))
  }
}
