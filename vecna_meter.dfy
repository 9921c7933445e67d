/** The threat meter: a fixed level, its tier and its bar. */
module VecnaMeter {
  import opened Numeric

  /** The level the component hard-codes. */
  const VecnaLevel: real := 67.0

  datatype Tier = Minimal | Moderate | High | Critical

  /** Position of a tier on the scale, lowest first. */
  function Rank(t: Tier): nat
  {
    match t
    case Minimal => 0
    case Moderate => 1
    case High => 2
    case Critical => 3
  }

  /** `getVecnaStatus`: each upper bound of 25, 50 and 75 belongs to the lower tier. */
  function VecnaStatus(level: real): (t: Tier)
    ensures t == Minimal <==> level <= 25.0
    ensures t == Moderate <==> 25.0 < level <= 50.0
    ensures t == High <==> 50.0 < level <= 75.0
    ensures t == Critical <==> level > 75.0
  {
    if level <= 25.0 then Minimal
    else if level <= 50.0 then Moderate
    else if level <= 75.0 then High
    else Critical
  }

  /** Raising the level never lowers the tier. */
  lemma TierMonotone(a: real, b: real)
    requires a <= b
    ensures Rank(VecnaStatus(a)) <= Rank(VecnaStatus(b))
  {
  }

  /** The fixed level shows HIGH. */
  lemma FixedLevelIsHigh()
    ensures VecnaStatus(VecnaLevel) == High
  {
  }

  /** The bar: `Math.min(level, 100)` percent. */
  function BarWidth(level: real): (w: real)
    ensures w <= 100.0 && w <= level
    ensures level <= 100.0 ==> w == level
    ensures level >= 100.0 ==> w == 100.0
  {
    Min(level, 100.0)
  }

  /** A higher level never has a shorter bar. */
  lemma BarWidthMonotone(l1: real, l2: real)
    requires l1 <= l2
    ensures BarWidth(l1) <= BarWidth(l2)
  {
  }
}
