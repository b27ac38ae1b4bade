/** The live recommendations endpoint (src/app/api/recommendations/route.ts):
    every fixture recommendation is re-priced by a small random walk, its
    metrics are recomputed and clamped, and the list is occasionally
    shuffled in place. Every Math.random() draw is a parameter. */
module Recommendations {
  import opened Numbers
  import opened RealMarketData

  // ---------------------------------------------------------------------
  // The helpers.

  /** drift: value + (Math.random() - 0.5) * volatility. */
  function Drift(value: real, volatility: real, r: real): (v: real)
    requires 0.0 <= r < 1.0 && volatility >= 0.0
    ensures value - volatility / 2.0 <= v <= value + volatility / 2.0
    ensures volatility > 0.0 ==> v < value + volatility / 2.0
  {
    assert -0.5 * volatility <= (r - 0.5) * volatility <= 0.5 * volatility by {
      ScaleMonotone(-0.5, r - 0.5, volatility);
      ScaleMonotone(r - 0.5, 0.5, volatility);
    }
    value + (r - 0.5) * volatility
  }

  /** calculateKelly: the edge of the model over the market, never
      negative. */
  function Kelly(modelProb: real, marketPrice: real): (k: real)
    ensures k >= 0.0
    ensures k >= modelProb - marketPrice
    ensures k == 0.0 || k == modelProb - marketPrice
  {
    Max(0.0, (modelProb - marketPrice) * 1.0)
  }

  /** Number(x.toFixed(3)) on a non-negative x: the nearest multiple of
      0.001, a half rounded up. */
  function Fixed3NonNegative(x: real): (y: real)
    requires x >= 0.0
    ensures y >= 0.0
  {
    Floor(x * 1000.0 + 0.5) as real / 1000.0
  }

  /** Number(x.toFixed(3)): toFixed rounds the magnitude half away from
      zero and keeps the sign; a result of -0 is the number 0. The
      decimal value is rounded, not the binary double (see README). */
  function Fixed3(x: real): (y: real)
    ensures -0.0005 <= y - x <= 0.0005
    ensures (y >= 0.0) == (x >= 0.0) || y == 0.0
  {
    if x >= 0.0 then Fixed3NonNegative(x) else -Fixed3NonNegative(-x)
  }

  /** Rounding to three decimals never reverses an order. */
  lemma Fixed3Monotone(x: real, y: real)
    requires x <= y
    ensures Fixed3(x) <= Fixed3(y)
  {
    if 0.0 <= x {
      assert Floor(x * 1000.0 + 0.5) <= Floor(y * 1000.0 + 0.5);
    } else if y < 0.0 {
      assert Floor(-y * 1000.0 + 0.5) <= Floor(-x * 1000.0 + 0.5);
    }
  }

  /** A number that already has at most three decimals is kept. */
  lemma Fixed3OfThousandths(n: int)
    ensures Fixed3(n as real / 1000.0) == n as real / 1000.0
  {
    var x := n as real / 1000.0;
    if n >= 0 {
      Fixed3OfNonNegativeThousandths(n);
    } else {
      assert -x == (-n) as real / 1000.0;
      Fixed3OfNonNegativeThousandths(-n);
    }
  }

  lemma Fixed3OfNonNegativeThousandths(n: nat)
    ensures Fixed3NonNegative(n as real / 1000.0) == n as real / 1000.0
  {
    var x := n as real / 1000.0;
    assert x * 1000.0 == n as real;
    var f := Floor(x * 1000.0 + 0.5);
    assert f as real <= n as real + 0.5 < f as real + 1.0;
    assert f == n;
  }

  /** Rounding keeps a number between two bounds with three decimals
      between them. */
  lemma Fixed3Within(x: real, lo: int, hi: int)
    requires lo as real / 1000.0 <= x <= hi as real / 1000.0
    ensures lo as real / 1000.0 <= Fixed3(x) <= hi as real / 1000.0
  {
    Fixed3Monotone(lo as real / 1000.0, x);
    Fixed3Monotone(x, hi as real / 1000.0);
    Fixed3OfThousandths(lo);
    Fixed3OfThousandths(hi);
  }

  // ---------------------------------------------------------------------
  // The decimal text of the confidence band.

  function DigitChar(d: int): (c: char)
    requires 0 <= d < 10
    ensures '0' <= c <= '9' && c as int - '0' as int == d
  {
    ('0' as int + d) as char
  }

  predicate AllDigits(s: string)
  {
    forall i :: 0 <= i < |s| ==> '0' <= s[i] <= '9'
  }

  /** The decimal form of a non-negative integer, as a template literal
      prints it. */
  function Decimal(n: nat): (s: string)
    ensures |s| >= 1 && AllDigits(s)
  {
    if n < 10 then [DigitChar(n)] else Decimal(n / 10) + [DigitChar(n % 10)]
  }

  /** The value of a string of decimal digits. */
  function DigitsValue(s: string): nat
    requires AllDigits(s)
  {
    if s == [] then 0
    else DigitsValue(s[..|s| - 1]) * 10 + (s[|s| - 1] as int - '0' as int)
  }

  /** Reading the decimal form gives the number back. */
  lemma {:induction false} DecimalRoundTrip(n: nat)
    ensures DigitsValue(Decimal(n)) == n
  {
    if n >= 10 {
      var s := Decimal(n);
      assert s[..|s| - 1] == Decimal(n / 10);
      DecimalRoundTrip(n / 10);
    }
  }

  /** `${bandLower}-${bandUpper}%`. */
  function BandText(lower: nat, upper: nat): (s: string)
    ensures |s| == |Decimal(lower)| + |Decimal(upper)| + 2
  {
    Decimal(lower) + "-" + Decimal(upper) + "%"
  }

  /** The band text is "XX-YY%": the digits before the dash read as the
      lower bound, the digits between dash and percent sign as the upper
      bound. */
  lemma BandTextReadsBack(lower: nat, upper: nat)
    ensures var s, k := BandText(lower, upper), |Decimal(lower)|;
            AllDigits(s[..k]) && DigitsValue(s[..k]) == lower
            && s[k] == '-' && s[|s| - 1] == '%'
            && AllDigits(s[k + 1..|s| - 1]) && DigitsValue(s[k + 1..|s| - 1]) == upper
  {
    var s, k := BandText(lower, upper), |Decimal(lower)|;
    assert s[..k] == Decimal(lower);
    assert s[k + 1..|s| - 1] == Decimal(upper);
    DecimalRoundTrip(lower);
    DecimalRoundTrip(upper);
  }

  // ---------------------------------------------------------------------
  // The per-record recomputation.

  datatype Position = Yes | No

  /** A RecommendedTrade. */
  datatype Recommendation = Recommendation(
    id: string, marketName: string, position: Position, kellyFraction: real,
    confidenceBand: string, timeHorizon: string, riskLevel: Level,
    expectedValue: real, maxLoss: real, reasoning: string, signalStrength: int)

  /** The four draws one record consumes, in evaluation order: the model
      drift, the market drift, the band variance and the max-loss drift. */
  datatype RecordDraws = RecordDraws(model: real, market: real, band: real, loss: real)

  predicate ValidDraws(d: RecordDraws)
  {
    0.0 <= d.model < 1.0 && 0.0 <= d.market < 1.0 && 0.0 <= d.band < 1.0 && 0.0 <= d.loss < 1.0
  }

  /** Math.min(hi, Math.max(lo, x)). */
  function ClampReal(x: real, lo: real, hi: real): (y: real)
    requires lo <= hi
    ensures lo <= y <= hi
    ensures lo <= x <= hi ==> y == x
  {
    Min(hi, Max(lo, x))
  }

  function CurrentModelProb(rec: Recommendation, d: RecordDraws): (p: real)
    requires ValidDraws(d)
    ensures 0.51 <= p <= 0.99
  {
    ClampReal(Drift(0.5 + rec.signalStrength as real / 20.0, 0.02, d.model), 0.51, 0.99)
  }

  function CurrentMarketPrice(rec: Recommendation, d: RecordDraws): (p: real)
    requires ValidDraws(d)
    ensures 0.02 <= p <= 0.98
  {
    ClampReal(Drift(CurrentModelProb(rec, d) - rec.expectedValue, 0.015, d.market), 0.02, 0.98)
  }

  function Edge(rec: Recommendation, d: RecordDraws): real
    requires ValidDraws(d)
  {
    CurrentModelProb(rec, d) - CurrentMarketPrice(rec, d)
  }

  /** Math.min(10, Math.max(1, Math.round((currentModelProb - 0.5) * 20))). */
  function SignalStrength(modelProb: real): (s: int)
    ensures 1 <= s <= 10
  {
    MinInt(10, MaxInt(1, Round((modelProb - 0.5) * 20.0)))
  }

  /** Math.floor(Math.random() * 3) + 3. */
  function BandVariance(r: real): (v: int)
    requires 0.0 <= r < 1.0
    ensures 3 <= v <= 5
  {
    Floor(r * 3.0) + 3
  }

  /** The band bounds around the rounded model percentage. */
  function Band(modelProb: real, r: real): (b: (int, int))
    requires 0.51 <= modelProb <= 0.99 && 0.0 <= r < 1.0
    ensures 46 <= b.0 < Round(modelProb * 100.0) < b.1 <= 100
    ensures b.0 == Round(modelProb * 100.0) - BandVariance(r)
    ensures b.1 == MinInt(100, Round(modelProb * 100.0) + BandVariance(r))
    ensures b.1 == 100 <==> Round(modelProb * 100.0) + BandVariance(r) >= 100
  {
    var probPercent := Round(modelProb * 100.0);
    RoundWithin(modelProb * 100.0, 51, 99);
    (MaxInt(0, probPercent - BandVariance(r)), MinInt(100, probPercent + BandVariance(r)))
  }

  /** The upper clamp acts: a model probability of 0.99 with the widest
      variance would reach 104 and is cut to 100. */
  lemma UpperClampActs()
    ensures BandVariance(0.9) == 5
    ensures Band(0.99, 0.9) == (94, 100)
  {
    RoundOfInteger(99);
    assert 0.99 * 100.0 == 99 as real;
    assert Floor(0.9 * 3.0) == 2;
  }

  /** The clamped max-loss drift, before rounding. */
  function FinalMaxLoss(r: real): (m: real)
    requires 0.0 <= r < 1.0
    ensures 0.05 <= m <= 0.20
  {
    ClampReal(Drift(0.12, 0.04, r), 0.05, 0.20)
  }

  /** The risk level of an edge: high below 0.05, low above 0.15. */
  function RiskLevel(edge: real): (l: Level)
    ensures l == High <==> edge < 0.05
    ensures l == Low <==> edge > 0.15
    ensures l == Medium <==> 0.05 <= edge <= 0.15
  {
    if edge < 0.05 then High else if edge > 0.15 then Low else Medium
  }

  /** The object the map callback returns for one record. */
  function Reprice(rec: Recommendation, d: RecordDraws): (r: Recommendation)
    requires ValidDraws(d)
    ensures r.id == rec.id && r.marketName == rec.marketName && r.position == rec.position
            && r.timeHorizon == rec.timeHorizon && r.reasoning == rec.reasoning
    ensures 1 <= r.signalStrength <= 10
    ensures r.riskLevel == High <==> Edge(rec, d) < 0.05
    ensures r.riskLevel == Low <==> Edge(rec, d) > 0.15
  {
    var model := CurrentModelProb(rec, d);
    var edge := Edge(rec, d);
    var band := Band(model, d.band);
    rec.(kellyFraction := Fixed3(Kelly(model, CurrentMarketPrice(rec, d))),
         expectedValue := Fixed3(edge),
         signalStrength := SignalStrength(model),
         confidenceBand := BandText(band.0, band.1),
         maxLoss := Fixed3(FinalMaxLoss(d.loss)),
         riskLevel := RiskLevel(edge))
  }

  /** What re-pricing keeps and what it bounds: the descriptive fields are
      carried over, the signal is an integer in [1, 10], the max loss stays
      in [0.05, 0.20], and the Kelly fraction is the non-negative part of
      the reported expected value. */
  lemma RepriceBounds(rec: Recommendation, d: RecordDraws)
    requires ValidDraws(d)
    ensures var r := Reprice(rec, d);
            r.id == rec.id && r.marketName == rec.marketName && r.position == rec.position
            && r.timeHorizon == rec.timeHorizon && r.reasoning == rec.reasoning
            && 1 <= r.signalStrength <= 10
            && 0.05 <= r.maxLoss <= 0.20
            && r.kellyFraction == Max(0.0, r.expectedValue)
            && r.kellyFraction >= 0.0
  {
    var model, market := CurrentModelProb(rec, d), CurrentMarketPrice(rec, d);
    var edge := model - market;
    Fixed3Within(FinalMaxLoss(d.loss), 50, 200);
    if edge >= 0.0 {
      assert Kelly(model, market) == edge;
    } else {
      assert Kelly(model, market) == 0.0;
      Fixed3OfThousandths(0);
      Fixed3Monotone(edge, 0.0);
    }
  }

  /** The max-loss drift moves 0.12 by less than 0.02, so the clamp to
      [0.05, 0.20] never acts and the rounded max loss lies in
      [0.100, 0.140]. */
  lemma MaxLossClampIdle(r: real)
    requires 0.0 <= r < 1.0
    ensures FinalMaxLoss(r) == Drift(0.12, 0.04, r)
    ensures 0.1 <= Fixed3(FinalMaxLoss(r)) <= 0.14
  {
    Fixed3Within(FinalMaxLoss(r), 100, 140);
  }

  /** For an integer signal strength in [1, 10], the drift of 0.02 moves
      the model probability by less than 0.01, which the rounding of
      (p - 0.5) * 20 absorbs: the recomputed signal strength is the old
      one. */
  lemma SignalStrengthStable(rec: Recommendation, d: RecordDraws)
    requires ValidDraws(d) && 1 <= rec.signalStrength <= 10
    ensures SignalStrength(CurrentModelProb(rec, d)) == rec.signalStrength
  {
    var s := rec.signalStrength;
    var base := 0.5 + s as real / 20.0;
    var drifted := Drift(base, 0.02, d.model);
    var p := CurrentModelProb(rec, d);
    var x := (p - 0.5) * 20.0;
    if s < 10 {
      assert 0.54 <= drifted < 0.97;
      assert p == drifted;
      assert s as real - 0.5 < x < s as real + 0.5;
    } else {
      assert p == 0.99;
    }
  }

  // ---------------------------------------------------------------------
  // The fixtures and GET.

  /** mockRecommendations (src/data/mockRecommendations.ts). */
  const Fixtures: seq<Recommendation> := [
    Recommendation("rec-001", "Fed cuts rates by March 2026", Yes, 0.08, "65-78%", "90 days",
                   Medium, 0.14, 0.08,
                   "Strong disinflationary regime signal with 74% probability. Fed minutes show patience despite market expectations.",
                   8),
    Recommendation("rec-002", "ECB begins tapering by January 2026", Yes, 0.09, "78-85%", "45 days",
                   Low, 0.17, 0.06,
                   "ECB shock at critical level with explicit policy guidance from leadership. High confidence setup.",
                   9),
    Recommendation("rec-003", "Oil above $100 by Q2 2026", Yes, 0.07, "35-55%", "180 days",
                   High, 0.18, 0.12,
                   "Energy shock domain at critical level (89/100) with multiple supply constraints. Higher risk due to geopolitical factors.",
                   7),
    Recommendation("rec-004", "China announces major stimulus by Q1 2026", Yes, 0.06, "55-68%", "120 days",
                   Medium, 0.16, 0.09,
                   "Mixed economic data and political pressure creating favorable setup for fiscal intervention.",
                   6)
  ]

  /** For a fixture whose expected value is at least 0.10, the market
      drift keeps the edge within 0.0075 of it, so the risk level can
      never be high; with 0.14 it is always medium, and from 0.16 on
      always low. */
  lemma FixtureRiskLevels(rec: Recommendation, d: RecordDraws)
    requires ValidDraws(d) && 1 <= rec.signalStrength <= 9
    requires 0.10 <= rec.expectedValue <= 0.2
    ensures rec.expectedValue - 0.0075 <= Edge(rec, d) <= rec.expectedValue + 0.0075
    ensures RiskLevel(Edge(rec, d)) != High
    ensures rec.expectedValue == 0.14 ==> RiskLevel(Edge(rec, d)) == Medium
    ensures rec.expectedValue >= 0.16 ==> RiskLevel(Edge(rec, d)) == Low
  {
    var model := CurrentModelProb(rec, d);
    assert 0.54 <= model <= 0.96;
    var drifted := Drift(model - rec.expectedValue, 0.015, d.market);
    assert 0.02 <= drifted <= 0.98;
  }

  /** On the four fixtures re-pricing keeps each signal strength and
      gives rec-001 a medium risk level and the other three a low one,
      whatever the draws (rec-003's fixture says high). */
  lemma FixtureOutcomes(i: nat, d: RecordDraws)
    requires i < |Fixtures| && ValidDraws(d)
    ensures Reprice(Fixtures[i], d).signalStrength == Fixtures[i].signalStrength
    ensures Reprice(Fixtures[i], d).riskLevel == if i == 0 then Medium else Low
  {
    var rec := Fixtures[i];
    assert 6 <= rec.signalStrength <= 9;
    assert rec.expectedValue == [0.14, 0.17, 0.18, 0.16][i];
    SignalStrengthStable(rec, d);
    FixtureRiskLevels(rec, d);
  }

  /** The draws of one call of GET: four per record, the shuffle draw,
      and the swaps the random comparator's sort amounts to. */
  datatype GetDraws = GetDraws(records: seq<RecordDraws>, shuffle: real, swaps: seq<(nat, nat)>)

  predicate ValidGetDraws(g: GetDraws, n: nat)
  {
    |g.records| == n && 0.0 <= g.shuffle < 1.0
    && (forall i :: 0 <= i < n ==> ValidDraws(g.records[i]))
    && (forall k :: 0 <= k < |g.swaps| ==> g.swaps[k].0 < n && g.swaps[k].1 < n)
  }

  /** The re-priced list before any shuffle. */
  function Repriced(fixtures: seq<Recommendation>, draws: seq<RecordDraws>): (r: seq<Recommendation>)
    requires |draws| == |fixtures| && forall i :: 0 <= i < |draws| ==> ValidDraws(draws[i])
    ensures |r| == |fixtures|
    ensures forall i :: 0 <= i < |r| ==> r[i] == Reprice(fixtures[i], draws[i])
  {
    seq(|fixtures|, i requires 0 <= i < |fixtures| => Reprice(fixtures[i], draws[i]))
  }

  /** data.sort(() => Math.random() - 0.5), in place: the comparator's
      answers are not modelled, only the exchanges the sort makes. */
  method ShuffleInPlace(a: array<Recommendation>, swaps: seq<(nat, nat)>)
    requires forall k :: 0 <= k < |swaps| ==> swaps[k].0 < a.Length && swaps[k].1 < a.Length
    modifies a
    ensures multiset(a[..]) == multiset(old(a[..]))
  {
    var k := 0;
    while k < |swaps|
      invariant 0 <= k <= |swaps|
      invariant multiset(a[..]) == multiset(old(a[..]))
    {
      var i, j := swaps[k].0, swaps[k].1;
      a[i], a[j] := a[j], a[i];
      k := k + 1;
    }
  }

  /** GET: re-price every fixture, then shuffle when the shuffle draw
      exceeds 0.8. The result is a permutation of the re-priced list, and
      is that list itself when no shuffle happens. */
  method Get(fixtures: seq<Recommendation>, g: GetDraws) returns (data: seq<Recommendation>)
    requires ValidGetDraws(g, |fixtures|)
    ensures |data| == |fixtures|
    ensures multiset(data) == multiset(Repriced(fixtures, g.records))
    ensures g.shuffle <= 0.8 ==> data == Repriced(fixtures, g.records)
  {
    var repriced := Repriced(fixtures, g.records);
    var a := new Recommendation[|fixtures|](i requires 0 <= i < |fixtures| => repriced[i]);
    assert a[..] == repriced;
    if g.shuffle > 0.8 {
      ShuffleInPlace(a, g.swaps);
    }
    data := a[..];
  }

  /** Every record GET returns is the re-pricing of some fixture with that
      fixture's draws, so it carries that fixture's descriptive fields. */
  lemma GetRecordsComeFromFixtures(fixtures: seq<Recommendation>, draws: seq<RecordDraws>,
                                   data: seq<Recommendation>)
    requires |draws| == |fixtures| && forall i :: 0 <= i < |draws| ==> ValidDraws(draws[i])
    requires multiset(data) == multiset(Repriced(fixtures, draws))
    ensures forall r :: r in data ==> exists i :: 0 <= i < |fixtures| && r == Reprice(fixtures[i], draws[i])
                                                 && r.id == fixtures[i].id && 1 <= r.signalStrength <= 10
  {
    forall r | r in data
      ensures exists i :: 0 <= i < |fixtures| && r == Reprice(fixtures[i], draws[i])
                          && r.id == fixtures[i].id && 1 <= r.signalStrength <= 10
    {
      assert r in multiset(data);
      assert r in Repriced(fixtures, draws);
      var i :| 0 <= i < |fixtures| && Repriced(fixtures, draws)[i] == r;
      RepriceBounds(fixtures[i], draws[i]);
    }
  }
}
