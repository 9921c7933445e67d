/**
 * What the three sensor cards share: a three-level status with a badge that is
 * shown only off NORMAL, and the clamped random-walk step of the simulated
 * readings (`Math.random` is passed in as `random`, a draw from [0, 1)).
 */
module SensorCommon {
  import opened Numeric

  /** The `label` of a sensor card's status object. */
  datatype Status = Normal | Warning | Critical

  /** The status badge is rendered only when the label is not NORMAL. */
  predicate ShowsBadge(s: Status)
  {
    s != Normal
  }

  /** A draw of `Math.random()`. */
  predicate IsRandomDraw(random: real)
  {
    0.0 <= random < 1.0
  }

  /**
   * One tick of a simulated sensor: `Math.max(lo, Math.min(hi, prev + change))`
   * with `change = (random - 0.5) * spread`, so change lies in [-spread/2, spread/2).
   */
  function DriftStep(prev: real, random: real, spread: real, lo: real, hi: real): (r: real)
    requires IsRandomDraw(random) && spread > 0.0 && lo <= hi
    ensures lo <= r <= hi
    ensures lo <= prev <= hi ==> prev - spread / 2.0 <= r < prev + spread / 2.0
    ensures prev < lo ==> r == lo || prev < r < prev + spread / 2.0
  {
    var change := (random - 0.5) * spread;
    assert -spread / 2.0 <= change < spread / 2.0 by {
      assert random * spread < 1.0 * spread;
      assert 0.0 <= random * spread;
    }
    Clamp(prev + change, lo, hi)
  }

  /** A larger draw never gives a lower next reading. */
  lemma DriftStepMonotone(prev: real, r1: real, r2: real, spread: real, lo: real, hi: real)
    requires IsRandomDraw(r1) && IsRandomDraw(r2) && r1 <= r2
    requires spread > 0.0 && lo <= hi
    ensures DriftStep(prev, r1, spread, lo, hi) <= DriftStep(prev, r2, spread, lo, hi)
  {
    assert (r1 - 0.5) * spread <= (r2 - 0.5) * spread;
    ClampMonotone(prev + (r1 - 0.5) * spread, prev + (r2 - 0.5) * spread, lo, hi);
  }

  /** A run of ticks, one random draw per tick. */
  function Walk(start: real, draws: seq<real>, spread: real, lo: real, hi: real): (r: real)
    requires forall i :: 0 <= i < |draws| ==> IsRandomDraw(draws[i])
    requires spread > 0.0 && lo <= hi
    ensures draws == [] ==> r == start
    ensures draws != [] ==> lo <= r <= hi
  {
    if draws == [] then start
    else DriftStep(Walk(start, draws[..|draws| - 1], spread, lo, hi), draws[|draws| - 1], spread, lo, hi)
  }

  /** From a reading inside the range, any run of ticks stays inside the range. */
  lemma {:induction false} WalkInRange(start: real, draws: seq<real>, spread: real, lo: real, hi: real)
    requires forall i :: 0 <= i < |draws| ==> IsRandomDraw(draws[i])
    requires spread > 0.0 && lo <= start <= hi
    ensures lo <= Walk(start, draws, spread, lo, hi) <= hi
  {
    if draws != [] {
      WalkInRange(start, draws[..|draws| - 1], spread, lo, hi);
    }
  }

  /** n half-spreads: the furthest n ticks can carry a reading. */
  function MaxShift(n: nat, spread: real): real
  {
    if n == 0 then 0.0 else MaxShift(n - 1, spread) + spread / 2.0
  }

  /** MaxShift is what its name says: n times half the spread. */
  lemma {:induction false} MaxShiftIsProduct(n: nat, spread: real)
    ensures MaxShift(n, spread) == n as real * (spread / 2.0)
  {
    if n > 0 {
      MaxShiftIsProduct(n - 1, spread);
      assert n as real * (spread / 2.0) == (n - 1) as real * (spread / 2.0) + spread / 2.0;
    }
  }

  /** The displacement bound counted tick by tick. */
  lemma {:induction false} WalkShift(start: real, draws: seq<real>, spread: real, lo: real, hi: real)
    requires forall i :: 0 <= i < |draws| ==> IsRandomDraw(draws[i])
    requires spread > 0.0 && lo <= start <= hi
    ensures start - MaxShift(|draws|, spread) <= Walk(start, draws, spread, lo, hi) <= start + MaxShift(|draws|, spread)
  {
    if draws != [] {
      var earlier := draws[..|draws| - 1];
      WalkShift(start, earlier, spread, lo, hi);
      WalkInRange(start, earlier, spread, lo, hi);
    }
  }

  /** A run of n ticks from a reading inside the range moves it by at most n half-spreads. */
  lemma WalkDisplacement(start: real, draws: seq<real>, spread: real, lo: real, hi: real)
    requires forall i :: 0 <= i < |draws| ==> IsRandomDraw(draws[i])
    requires spread > 0.0 && lo <= start <= hi
    ensures var shift := |draws| as real * (spread / 2.0);
      start - shift <= Walk(start, draws, spread, lo, hi) <= start + shift
  {
    WalkShift(start, draws, spread, lo, hi);
    MaxShiftIsProduct(|draws|, spread);
  }
}
