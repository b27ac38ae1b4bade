/** The regime-analysis edge function (supabase/functions/regime-analysis/
    index.ts): a current regime call with a random probability, and a
    30-day timeseries built by a loop counting down from 29. Dates are
    day numbers; their ISO text is left out. */
module RegimeAnalysis {
  import opened Numbers

  const PrimaryRegime := "Disinflationary"
  const Horizon := "90d"

  datatype Current = Current(primary: string, probability: int, horizon: string)

  /** One timeseries point: its day, its regime and its probability. */
  datatype Entry = Entry(day: int, regime: string, probability: real)

  datatype RegimeData = RegimeData(current: Current, timeseries: seq<Entry>)

  /** The draws: one for the base probability, then one per loop step,
      oldest day first. */
  predicate ValidDraws(base: real, steps: seq<real>)
  {
    0.0 <= base < 1.0 && |steps| == 30 && forall k :: 0 <= k < |steps| ==> 0.0 <= steps[k] < 1.0
  }

  /** 70 + Math.random() * 25. */
  function BaseProbability(base: real): (p: real)
    requires 0.0 <= base < 1.0
    ensures 70.0 <= p < 95.0
  {
    70.0 + base * 25.0
  }

  /** Math.max(0, Math.min(100, probability + (Math.random() - 0.5) * 20)). */
  function StepProbability(p: real, step: real): (q: real)
    ensures 0.0 <= q <= 100.0
    ensures 0.0 <= p + (step - 0.5) * 20.0 <= 100.0 ==> q == p + (step - 0.5) * 20.0
  {
    Max(0.0, Min(100.0, p + (step - 0.5) * 20.0))
  }

  /** The entry pushed for day today - i; k = 29 - i counts the steps. */
  function EntryAt(today: int, p: real, steps: seq<real>, k: nat): Entry
    requires k < |steps|
  {
    Entry(today - (29 - k), PrimaryRegime, StepProbability(p, steps[k]))
  }

  /** The timeseries: thirty entries, one per day from 29 days ago up to
      today, oldest first, each on the primary regime and clamped into
      [0, 100]. */
  function Timeseries(today: int, p: real, steps: seq<real>): (ts: seq<Entry>)
    requires |steps| == 30
    ensures |ts| == 30
    ensures ts[0].day == today - 29 && ts[29].day == today
    ensures forall k :: 0 <= k < 29 ==> ts[k + 1].day == ts[k].day + 1
    ensures forall k :: 0 <= k < 30 ==> ts[k].regime == PrimaryRegime
    ensures forall k :: 0 <= k < 30 ==> 0.0 <= ts[k].probability <= 100.0
  {
    seq(30, k requires 0 <= k < 30 => EntryAt(today, p, steps, k))
  }

  /** With the base probability in [70, 95) a step moves it by less than
      10 either way, so the clamp at 0 never acts and every point lies in
      [60, 100]. */
  lemma StepProbabilityRange(base: real, step: real)
    requires 0.0 <= base < 1.0 && 0.0 <= step < 1.0
    ensures StepProbability(BaseProbability(base), step)
            == Min(100.0, BaseProbability(base) + (step - 0.5) * 20.0)
    ensures 60.0 <= StepProbability(BaseProbability(base), step) <= 100.0
  {
  }

  /** generateRegimeData. */
  method GenerateRegimeData(today: int, base: real, steps: seq<real>) returns (data: RegimeData)
    requires ValidDraws(base, steps)
    ensures data.current == Current(PrimaryRegime, Round(BaseProbability(base)), Horizon)
    ensures 70 <= data.current.probability <= 95
    ensures data.timeseries == Timeseries(today, BaseProbability(base), steps)
  {
    var probability := BaseProbability(base);
    var timeseries: seq<Entry> := [];
    var i := 29;
    while i >= 0
      invariant -1 <= i <= 29
      invariant |timeseries| == 29 - i
      invariant forall k :: 0 <= k < |timeseries| ==> timeseries[k] == EntryAt(today, probability, steps, k)
    {
      var day := today - i;
      var regimeProb := probability + (steps[29 - i] - 0.5) * 20.0;
      timeseries := timeseries + [Entry(day, PrimaryRegime, Max(0.0, Min(100.0, regimeProb)))];
      i := i - 1;
    }
    RoundWithin(probability, 70, 95);
    data := RegimeData(Current(PrimaryRegime, Round(probability), Horizon), timeseries);
  }

  datatype RegimeResponse =
    | Preflight
    | Success(data: RegimeData)
    | Failure(status: int, error: string)

  /** The Deno.serve handler; raised stands for an exception thrown by
      the runtime, the only way into the catch branch. */
  method Handle(httpMethod: string, today: int, base: real, steps: seq<real>, raised: bool)
    returns (r: RegimeResponse)
    requires ValidDraws(base, steps)
    ensures r.Preflight? <==> httpMethod == "OPTIONS"
    ensures r.Failure? <==> httpMethod != "OPTIONS" && raised
    ensures r.Failure? ==> r.status == 500 && r.error == "Failed to fetch regime analysis"
    ensures r.Success? ==> r.data.current == Current(PrimaryRegime, Round(BaseProbability(base)), Horizon)
    ensures r.Success? ==> |r.data.timeseries| == 30 && 70 <= r.data.current.probability <= 95
                           && r.data.timeseries == Timeseries(today, BaseProbability(base), steps)
  {
    if httpMethod == "OPTIONS" {
      return Preflight;
    }
    if raised {
      return Failure(500, "Failed to fetch regime analysis");
    }
    var data := GenerateRegimeData(today, base, steps);
    r := Success(data);
  }
}
