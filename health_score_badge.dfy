/** The health-score presentation of src/components/HealthScoreBadge.tsx:
 *  scores run from 0 to 10 and fall into three bands at 7 and 4; the badge,
 *  its label, the meter and the radial gauge each spell the thresholds out
 *  on their own, and every one of them is shown here to agree with `BandOf`. */
module HealthScoreBadge {
  import opened Common

  datatype Band = Good | Fair | Poor

  /** The band of a score. */
  function BandOf(s: real): (b: Band)
    ensures b == Good <==> s >= 7.0
    ensures b == Fair <==> 4.0 <= s < 7.0
    ensures b == Poor <==> s < 4.0
  {
    if s >= 7.0 then Good else if s >= 4.0 then Fair else Poor
  }

  /** A higher score never falls into a lower band. */
  lemma BandIsMonotone(s: real, t: real)
    requires s <= t
    ensures BandOf(s) == Good ==> BandOf(t) == Good
    ensures BandOf(s) == Fair ==> BandOf(t) != Poor
  {
  }

  /** `getScoreColor`. */
  function ScoreColor(s: real): (c: string)
    ensures c == match BandOf(s)
                 case Good => "score-badge-good"
                 case Fair => "score-badge-warning"
                 case Poor => "score-badge-danger"
  {
    if s >= 7.0 then "score-badge-good" else if s >= 4.0 then "score-badge-warning" else "score-badge-danger"
  }

  /** `getScoreLabel` of the badge. */
  function ScoreLabel(s: real): (l: string)
    ensures l == match BandOf(s) case Good => "Good" case Fair => "Fair" case Poor => "Poor"
  {
    if s >= 7.0 then "Good" else if s >= 4.0 then "Fair" else "Poor"
  }

  /** The text colour of the badge's label. */
  function LabelTone(s: real): (t: string)
    ensures t == match BandOf(s) case Good => "text-safe" case Fair => "text-warning" case Poor => "text-danger"
  {
    if s >= 7.0 then "text-safe" else if s >= 4.0 then "text-warning" else "text-danger"
  }

  /** `getGradient` of the meter. */
  function Gradient(s: real): (g: string)
    ensures g == match BandOf(s)
                 case Good => "from-safe to-safe/70"
                 case Fair => "from-warning to-warning/70"
                 case Poor => "from-danger to-danger/70"
  {
    if s >= 7.0 then "from-safe to-safe/70" else if s >= 4.0 then "from-warning to-warning/70" else "from-danger to-danger/70"
  }

  /** `getColor` of the radial gauge. */
  function RadialColor(s: real): (c: string)
    ensures c == match BandOf(s)
                 case Good => "hsl(var(--safe))"
                 case Fair => "hsl(var(--warning))"
                 case Poor => "hsl(var(--danger))"
  {
    if s >= 7.0 then "hsl(var(--safe))" else if s >= 4.0 then "hsl(var(--warning))" else "hsl(var(--danger))"
  }

  /** `getLabel` of the radial gauge: the same words as the badge. */
  function RadialLabel(s: real): (l: string)
    ensures l == ScoreLabel(s)
  {
    if s >= 7.0 then "Good" else if s >= 4.0 then "Fair" else "Poor"
  }

  /** The meter's width in percent. */
  function MeterPercentage(s: real): (p: real)
    ensures p == s * 10.0
    ensures 0.0 <= s <= 10.0 ==> 0.0 <= p <= 100.0
  {
    (s / 10.0) * 100.0
  }
}
