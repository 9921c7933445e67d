/** The temperature card: a simulated reading in degrees Celsius, its status and its bar. */
module TemperatureSensor {
  import opened Numeric
  import opened SensorCommon

  const InitialTemperature: real := 18.5
  const MinTemperature: real := -10.0
  const MaxTemperature: real := 35.0

  /** `getTemperatureStatus`: below freezing is critical, below 15 degrees a warning. */
  function TemperatureStatus(t: real): (s: Status)
    ensures s == Critical <==> t < 0.0
    ensures s == Warning <==> 0.0 <= t < 15.0
    ensures s == Normal <==> t >= 15.0
  {
    if t < 0.0 then Critical else if t < 15.0 then Warning else Normal
  }

  /** The badge appears exactly for readings below the 15-degree safe line. */
  lemma BadgeBelowSafeLine(t: real)
    ensures ShowsBadge(TemperatureStatus(t)) <==> t < 15.0
  {
  }

  /** The first reading is NORMAL. */
  lemma InitialIsNormal()
    ensures TemperatureStatus(InitialTemperature) == Normal
  {
  }

  /** One interval tick: a change in [-1, 1) added to the reading, kept within [-10, 35]. */
  function Drift(prev: real, random: real): (r: real)
    requires IsRandomDraw(random)
    ensures MinTemperature <= r <= MaxTemperature
    ensures MinTemperature <= prev <= MaxTemperature ==> prev - 1.0 <= r < prev + 1.0
  {
    DriftStep(prev, random, 2.0, MinTemperature, MaxTemperature)
  }

  /** The bar: `((t + 10) / 45) * 100` percent, clamped to [0, 100]. */
  function BarWidth(t: real): (w: real)
    ensures 0.0 <= w <= 100.0
    ensures t <= MinTemperature ==> w == 0.0
    ensures t >= MaxTemperature ==> w == 100.0
    ensures MinTemperature < t < MaxTemperature ==> 0.0 < w < 100.0
  {
    Min(Max(((t + 10.0) / 45.0) * 100.0, 0.0), 100.0)
  }

  /** A warmer reading never gives a shorter bar. */
  lemma BarWidthMonotone(t1: real, t2: real)
    requires t1 <= t2
    ensures BarWidth(t1) <= BarWidth(t2)
  {
  }

  /** The card's state: the simulated temperature. */
  class Sensor {
    var temperature: real

    constructor ()
      ensures temperature == InitialTemperature
    {
      temperature := InitialTemperature;
    }

    /** The `setInterval` callback, with `Math.random()` passed in. */
    method Tick(random: real)
      requires IsRandomDraw(random)
      modifies this
      ensures temperature == Drift(old(temperature), random)
      ensures MinTemperature <= temperature <= MaxTemperature
    {
      temperature := Drift(temperature, random);
    }
  }
}
