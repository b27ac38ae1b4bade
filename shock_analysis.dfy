/** The shock-analysis edge function (supabase/functions/shock-analysis/
    index.ts): nine fixed shock domains, each given a random score and a
    random intensity, chunked into a 3 x 3 grid by a loop. */
module ShockAnalysis {
  import opened Numbers

  datatype Intensity = Low | Medium | High | Critical

  datatype Tone = Positive | Negative | NeutralTone

  /** A headline card (its timestamp, the time of the call, is left out). */
  datatype Headline = Headline(headline: string, tone: Tone, source: string)

  datatype ShockDomain = ShockDomain(domain: string, score: int, intensity: Intensity,
                                     topHeadlines: seq<Headline>, description: string)

  /** The fixed part of a domain: everything but the score and the
      intensity. */
  datatype Template = Template(domain: string, topHeadlines: seq<Headline>, description: string)

  /** The nine domains, in the order of the source's array literal. */
  const Catalogue: seq<Template> := [
    Template("Geopolitical",
      [Headline("Rising tensions in Eastern Europe affect global markets", Negative, "Reuters"),
       Headline("Trade negotiations show signs of progress", Positive, "Bloomberg")],
      "Geopolitical events and international relations impacting market stability."),
    Template("Monetary Policy",
      [Headline("Central bank signals potential rate changes", NeutralTone, "Financial Times"),
       Headline("Inflation data shows unexpected trends", Negative, "Wall Street Journal")],
      "Central bank policies and monetary decisions affecting financial markets."),
    Template("Technology",
      [Headline("AI breakthroughs drive tech sector volatility", Positive, "TechCrunch"),
       Headline("Regulatory concerns affect major tech companies", Negative, "The Verge")],
      "Technological disruptions and innovations impacting market dynamics."),
    Template("Energy",
      [Headline("Oil supply disruptions create price volatility", Negative, "Energy Information Administration"),
       Headline("Renewable energy investments reach new highs", Positive, "GreenTech Media")],
      "Energy markets and supply chain disruptions affecting global economy."),
    Template("Financial Stability",
      [Headline("Banking sector shows signs of stress", Negative, "Financial Stability Council"),
       Headline("Credit markets remain stable", Positive, "Federal Reserve")],
      "Financial system stability and credit market conditions."),
    Template("Supply Chain",
      [Headline("Global shipping costs increase significantly", Negative, "Supply Chain Digest"),
       Headline("Port efficiency improvements reduce delays", Positive, "Logistics Weekly")],
      "Global supply chain disruptions and logistics challenges."),
    Template("Commodities",
      [Headline("Agricultural commodity prices surge due to weather", Negative, "Commodity Research Bureau"),
       Headline("Precious metals demand increases amid uncertainty", Positive, "Kitco Metals")],
      "Raw material and agricultural commodity market volatility."),
    Template("Currency",
      [Headline("Dollar strengthens against major currencies", NeutralTone, "CurrencyWatch"),
       Headline("Emerging market currencies show resilience", Positive, "FXStreet")],
      "Foreign exchange market dynamics and currency volatility."),
    Template("Consumer Sentiment",
      [Headline("Consumer confidence drops amid economic uncertainty", Negative, "Conference Board"),
       Headline("Retail sales exceed expectations", Positive, "Department of Commerce")],
      "Consumer confidence and spending patterns affecting economic growth.")
  ]

  /** The Math.random() draws one domain reads: one for the score, then up
      to three for the intensity chain (a later one only matters when the
      earlier ones fail their test). */
  datatype DomainDraws = DomainDraws(score: real, first: real, second: real, third: real)

  predicate ValidDraws(d: DomainDraws)
  {
    0.0 <= d.score < 1.0 && 0.0 <= d.first < 1.0 && 0.0 <= d.second < 1.0 && 0.0 <= d.third < 1.0
  }

  /** Math.floor(Math.random() * 100): an integer in [0, 99]. */
  function Score(r: real): (s: int)
    requires 0.0 <= r < 1.0
    ensures 0 <= s <= 99
    ensures s as real <= r * 100.0 < s as real + 1.0
  {
    Floor(r * 100.0)
  }

  /** The chained conditional of the intensity: each draw is compared only
      when every earlier one failed its threshold. */
  function IntensityOf(d: DomainDraws): (i: Intensity)
    ensures i == Critical <==> d.first < 0.25
    ensures i == High <==> d.first >= 0.25 && d.second < 0.5
    ensures i == Medium <==> d.first >= 0.25 && d.second >= 0.5 && d.third < 0.75
    ensures i == Low <==> d.first >= 0.25 && d.second >= 0.5 && d.third >= 0.75
  {
    if d.first < 0.25 then Critical
    else if d.second < 0.5 then High
    else if d.third < 0.75 then Medium
    else Low
  }

  /** One domain of the array literal, its random fields drawn. */
  function MakeDomain(t: Template, d: DomainDraws): (s: ShockDomain)
    requires ValidDraws(d)
    ensures 0 <= s.score <= 99
  {
    ShockDomain(t.domain, Score(d.score), IntensityOf(d), t.topHeadlines, t.description)
  }

  /** The nine-domain array of generateShockDomains. */
  function Domains(draws: seq<DomainDraws>): (ds: seq<ShockDomain>)
    requires |draws| == |Catalogue|
    requires forall k :: 0 <= k < |draws| ==> ValidDraws(draws[k])
    ensures |ds| == 9
    ensures forall k :: 0 <= k < 9 ==>
              ds[k].domain == Catalogue[k].domain && ds[k].description == Catalogue[k].description
              && ds[k].topHeadlines == Catalogue[k].topHeadlines
              && 0 <= ds[k].score <= 99 && ds[k].intensity == IntensityOf(draws[k])
  {
    seq(9, k requires 0 <= k < 9 => MakeDomain(Catalogue[k], draws[k]))
  }

  // ---------------------------------------------------------------------
  // The grid-building loop.

  /** Array.prototype.slice(start, end) for non-negative indices: both are
      cut down to the length, and an end before the start gives []. */
  function JsSlice<T>(s: seq<T>, start: nat, end: nat): (r: seq<T>)
    ensures start <= end <= |s| ==> r == s[start..end]
    ensures |r| <= |s|
  {
    var lo := MinInt(start, |s|);
    var hi := MaxInt(lo, MinInt(end, |s|));
    s[lo..hi]
  }

  /** The rows laid end to end. */
  function Flatten<T>(rows: seq<seq<T>>): seq<T>
  {
    if rows == [] then [] else Flatten(rows[..|rows| - 1]) + rows[|rows| - 1]
  }

  /** Consecutive slices join up: the prefix up to min(m, n) followed by
      the slice [m, m + 3) is the prefix up to min(m + 3, n). */
  lemma SliceJoin<T>(s: seq<T>, m: nat)
    ensures s[..MinInt(m, |s|)] + JsSlice(s, m, m + 3) == s[..MinInt(m + 3, |s|)]
  {
  }

  /** The loop of generateShockDomains: three pushes of
      domains.slice(i * 3, (i + 1) * 3). The rows hold the first nine
      domains in order, each row three of them when there are nine. */
  method BuildGrid<T>(domains: seq<T>) returns (grid: seq<seq<T>>)
    ensures |grid| == 3
    ensures forall i :: 0 <= i < 3 ==> grid[i] == JsSlice(domains, i * 3, (i + 1) * 3)
    ensures Flatten(grid) == domains[..MinInt(9, |domains|)]
    ensures |domains| == 9 ==> forall i :: 0 <= i < 3 ==> |grid[i]| == 3
  {
    grid := [];
    var i := 0;
    while i < 3
      invariant 0 <= i <= 3 && |grid| == i
      invariant forall k :: 0 <= k < i ==> grid[k] == JsSlice(domains, k * 3, (k + 1) * 3)
      invariant Flatten(grid) == domains[..MinInt(i * 3, |domains|)]
    {
      var row := JsSlice(domains, i * 3, (i + 1) * 3);
      assert (grid + [row])[..|grid|] == grid;
      SliceJoin(domains, i * 3);
      grid := grid + [row];
      i := i + 1;
    }
  }

  /** generateShockDomains: the nine domains chunked into three rows of
      three, which read back in order give the domain list. */
  method GenerateShockDomains(draws: seq<DomainDraws>) returns (grid: seq<seq<ShockDomain>>)
    requires |draws| == |Catalogue|
    requires forall k :: 0 <= k < |draws| ==> ValidDraws(draws[k])
    ensures |grid| == 3 && forall i :: 0 <= i < 3 ==> |grid[i]| == 3
    ensures Flatten(grid) == Domains(draws)
    ensures forall i, j :: 0 <= i < 3 && 0 <= j < 3 ==> grid[i][j] == Domains(draws)[i * 3 + j]
  {
    var domains := Domains(draws);
    grid := BuildGrid(domains);
    assert domains[..MinInt(9, |domains|)] == domains;
  }

  // ---------------------------------------------------------------------
  // The handler.

  datatype ShockResponse =
    | Preflight
    | Success(data: seq<seq<ShockDomain>>)
    | Failure(status: int, error: string)

  /** The Deno.serve handler. An OPTIONS request is answered before any
      work; any other method gets the grid. The catch branch can only be
      reached through an exception the runtime raises, which the model
      takes as the parameter raised. */
  method Handle(httpMethod: string, draws: seq<DomainDraws>, raised: bool) returns (r: ShockResponse)
    requires |draws| == |Catalogue|
    requires forall k :: 0 <= k < |draws| ==> ValidDraws(draws[k])
    ensures r.Preflight? <==> httpMethod == "OPTIONS"
    ensures r.Failure? <==> httpMethod != "OPTIONS" && raised
    ensures r.Failure? ==> r.status == 500 && r.error == "Failed to generate shock analysis"
    ensures r.Success? ==> |r.data| == 3 && Flatten(r.data) == Domains(draws)
                           && forall i :: 0 <= i < 3 ==> |r.data[i]| == 3
  {
    if httpMethod == "OPTIONS" {
      return Preflight;
    }
    if raised {
      return Failure(500, "Failed to generate shock analysis");
    }
    var grid := GenerateShockDomains(draws);
    r := Success(grid);
  }
}
