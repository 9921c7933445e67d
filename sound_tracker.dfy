/** The sound card: a simulated level in decibels, its status and its bar. */
module SoundTracker {
  import opened Numeric
  import opened SensorCommon

  const InitialSoundLevel: real := 72.0
  const MinSoundLevel: real := 30.0
  const MaxSoundLevel: real := 130.0

  /** `getSoundStatus`: above 110 dB is critical, above 95 dB a warning. */
  function SoundStatus(level: real): (s: Status)
    ensures s == Critical <==> level > 110.0
    ensures s == Warning <==> 95.0 < level <= 110.0
    ensures s == Normal <==> level <= 95.0
  {
    if level > 110.0 then Critical else if level > 95.0 then Warning else Normal
  }

  /** The first level is NORMAL. */
  lemma InitialIsNormal()
    ensures SoundStatus(InitialSoundLevel) == Normal
  {
  }

  /** One interval tick: a change in [-5, 5) added to the level, kept within [30, 130]. */
  function Drift(prev: real, random: real): (r: real)
    requires IsRandomDraw(random)
    ensures MinSoundLevel <= r <= MaxSoundLevel
    ensures MinSoundLevel <= prev <= MaxSoundLevel ==> prev - 5.0 <= r < prev + 5.0
  {
    DriftStep(prev, random, 10.0, MinSoundLevel, MaxSoundLevel)
  }

  /** The bar: `level / 130 * 100` percent, capped at 100 but not floored. */
  function BarWidth(level: real): (w: real)
    ensures w <= 100.0
    ensures w == 100.0 <==> level >= MaxSoundLevel
    ensures level > 0.0 ==> w > 0.0
    ensures level < 0.0 ==> w < 0.0
  {
    Min((level / 130.0) * 100.0, 100.0)
  }

  /** A louder level never has a shorter bar, and below the cap a louder level has a strictly longer one. */
  lemma BarWidthMonotone(l1: real, l2: real)
    requires l1 <= l2
    ensures BarWidth(l1) <= BarWidth(l2)
    ensures l1 < l2 && l1 < MaxSoundLevel ==> BarWidth(l1) < BarWidth(l2)
  {
  }

  /** Every level the simulation can reach fills at least 23% of the bar. */
  lemma BarVisibleInRange(level: real)
    requires MinSoundLevel <= level
    ensures BarWidth(level) >= 23.0
  {
  }

  /** The card's state: the simulated level. */
  class Tracker {
    var soundLevel: real

    constructor ()
      ensures soundLevel == InitialSoundLevel
    {
      soundLevel := InitialSoundLevel;
    }

    /** The `setInterval` callback, with `Math.random()` passed in. */
    method Tick(random: real)
      requires IsRandomDraw(random)
      modifies this
      ensures soundLevel == Drift(old(soundLevel), random)
      ensures MinSoundLevel <= soundLevel <= MaxSoundLevel
    {
      soundLevel := Drift(soundLevel, random);
    }
  }
}
