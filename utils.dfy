/** The value mappers of src/utils/index.ts: score bands, the class-name
    switch maps, clamp and the bucketing of formatRelativeTime. The
    channel arithmetic of interpolateColor is module ColorInterpolation. */
module Utils {
  import opened Numbers

  // ---------------------------------------------------------------------
  // getIntensityColor and the switch maps.

  /** getIntensityColor: the intensity band of a shock score. */
  function IntensityColor(score: real): (s: string)
    ensures s == "critical" <==> score >= 80.0
    ensures s == "high" <==> 60.0 <= score < 80.0
    ensures s == "medium" <==> 40.0 <= score < 60.0
    ensures s == "low" <==> score < 40.0
  {
    if score >= 80.0 then "critical"
    else if score >= 60.0 then "high"
    else if score >= 40.0 then "medium"
    else "low"
  }

  /** The order of the four intensities. */
  function IntensityRank(intensity: string): nat
  {
    if intensity == "critical" then 3
    else if intensity == "high" then 2
    else if intensity == "medium" then 1
    else 0
  }

  /** A higher score never gets a lower intensity. */
  lemma IntensityMonotone(x: real, y: real)
    requires x <= y
    ensures IntensityRank(IntensityColor(x)) <= IntensityRank(IntensityColor(y))
  {
  }

  const DefaultIntensityStyle := "bg-[#18181B] border-[#27272A]"

  /** getIntensityStyles: a switch with a default branch. */
  function IntensityStyles(intensity: string): (s: string)
    ensures (intensity != "critical" && intensity != "high" && intensity != "medium")
              ==> s == DefaultIntensityStyle
  {
    if intensity == "critical" then "bg-[#FFA500] shadow-glow animate-pulse-glow"
    else if intensity == "high" then "bg-[#7C2D12] border-[#FFA500]/30"
    else if intensity == "medium" then "bg-[#3F2F1A] border-[#FFA500]/20"
    else DefaultIntensityStyle
  }

  /** The switch has no 'low' case: a score gets the default style exactly
      when it is below 40, and each higher band its own style. */
  lemma IntensityStyleOfScore(x: real, y: real)
    ensures IntensityStyles(IntensityColor(x)) == DefaultIntensityStyle <==> x < 40.0
    ensures (IntensityStyles(IntensityColor(x)) == IntensityStyles(IntensityColor(y)))
              <==> (IntensityColor(x) == IntensityColor(y))
  {
  }

  const Green := "text-[#10B981]"
  const Red := "text-[#F43F5E]"
  const Amber := "text-[#FFA500]"
  const Grey := "text-[#A1A1AA]"

  /** getToneColor. */
  function ToneColor(tone: string): (c: string)
    ensures c == Green <==> tone == "positive"
    ensures c == Red <==> tone == "negative"
    ensures c == Grey <==> tone != "positive" && tone != "negative"
  {
    if tone == "positive" then Green
    else if tone == "negative" then Red
    else Grey
  }

  /** getConfidenceColor: any string but 'high' and 'medium' is red. */
  function ConfidenceColor(confidence: string): (c: string)
    ensures c == Green <==> confidence == "high"
    ensures c == Amber <==> confidence == "medium"
    ensures c == Red <==> confidence != "high" && confidence != "medium"
  {
    if confidence == "high" then Green
    else if confidence == "medium" then Amber
    else Red
  }

  /** getRiskColor: any string but 'low' and 'medium' is red. */
  function RiskColor(risk: string): (c: string)
    ensures c == Green <==> risk == "low"
    ensures c == Amber <==> risk == "medium"
    ensures c == Red <==> risk != "low" && risk != "medium"
  {
    if risk == "low" then Green
    else if risk == "medium" then Amber
    else Red
  }

  /** High confidence and low risk share a colour, and so do low
      confidence and high risk: the risk scale is the confidence scale
      read backwards. */
  lemma RiskMirrorsConfidence()
    ensures ConfidenceColor("high") == RiskColor("low")
    ensures ConfidenceColor("medium") == RiskColor("medium")
    ensures ConfidenceColor("low") == RiskColor("high")
  {
  }

  // ---------------------------------------------------------------------
  // clamp

  /** clamp: Math.min(Math.max(value, min), max). */
  function Clamp(value: real, min: real, max: real): (c: real)
    ensures min <= max ==> min <= c <= max
    ensures min <= value <= max ==> c == value
    ensures min > max ==> c == max
  {
    Min(Max(value, min), max)
  }

  /** Clamping twice is clamping once, even for bounds given the wrong way
      round, where both give max. */
  lemma ClampIdempotent(value: real, min: real, max: real)
    ensures Clamp(Clamp(value, min, max), min, max) == Clamp(value, min, max)
  {
  }

  // ---------------------------------------------------------------------
  // formatRelativeTime

  /** The three shapes of the text: "Nm ago", "Nh ago", or formatDate. */
  datatype RelativeTime = MinutesAgo(minutes: int) | HoursAgo(hours: int) | AbsoluteDate

  /** formatRelativeTime on the difference between now and the date, in
      whole milliseconds (both come from getTime). */
  function RelativeTimeOf(diffInMs: int): (t: RelativeTime)
    ensures t.MinutesAgo? <==> diffInMs < 3600000
    ensures t.HoursAgo? <==> 3600000 <= diffInMs < 86400000
    ensures t.MinutesAgo? ==> t.minutes < 60
                              && t.minutes * 60000 <= diffInMs < (t.minutes + 1) * 60000
    ensures t.HoursAgo? ==> 1 <= t.hours < 24
                            && t.hours * 3600000 <= diffInMs < (t.hours + 1) * 3600000
  {
    var diffInHours := Floor(diffInMs as real / (1000.0 * 60.0 * 60.0));
    var diffInMinutes := Floor(diffInMs as real / (1000.0 * 60.0));
    if diffInMinutes < 60 then MinutesAgo(diffInMinutes)
    else if diffInHours < 24 then HoursAgo(diffInHours)
    else AbsoluteDate
  }

  /** Going further back never moves the text to a finer unit. */
  lemma RelativeTimeCoarsens(d1: int, d2: int)
    requires d1 <= d2
    ensures RelativeTimeOf(d1).AbsoluteDate? ==> RelativeTimeOf(d2).AbsoluteDate?
    ensures RelativeTimeOf(d1).HoursAgo? ==> !RelativeTimeOf(d2).MinutesAgo?
  {
  }
}
