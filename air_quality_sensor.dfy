/** The air quality card: status and bar of the shared AQI, and its polling guard. */
module AirQualitySensor {
  import opened Numeric
  import opened Wrappers
  import opened SensorCommon
  import opened SensorContext

  /** `getAQIStatus`: above 400 is critical, above 250 a warning. */
  function AqiStatus(aqi: real): (s: Status)
    ensures s == Critical <==> aqi > 400.0
    ensures s == Warning <==> 250.0 < aqi <= 400.0
    ensures s == Normal <==> aqi <= 250.0
  {
    if aqi > 400.0 then Critical else if aqi > 250.0 then Warning else Normal
  }

  /** The provider's first AQI of 145 is NORMAL. */
  lemma InitialIsNormal()
    ensures AqiStatus(InitialSensorData.aqi) == Normal
  {
  }

  /** The bar: `aqi / 500 * 100` percent, capped at 100 but not floored at 0. */
  function BarWidth(aqi: real): (w: real)
    ensures w <= 100.0
    ensures w == 100.0 <==> aqi >= 500.0
    ensures aqi < 0.0 ==> w < 0.0
    ensures 0.0 <= aqi ==> 0.0 <= w
  {
    Min((aqi / 500.0) * 100.0, 100.0)
  }

  /** A worse AQI never has a shorter bar, and below the cap a worse AQI has a strictly longer one. */
  lemma BarWidthMonotone(a1: real, a2: real)
    requires a1 <= a2
    ensures BarWidth(a1) <= BarWidth(a2)
    ensures a1 < a2 && a1 < 500.0 ==> BarWidth(a1) < BarWidth(a2)
  {
  }

  /** The number on the card: `Math.round(aqi)`. */
  function DisplayedAqi(aqi: real): (n: int)
    ensures aqi - 1.0 / 2.0 < n as real <= aqi + 1.0 / 2.0
  {
    Round(aqi)
  }

  /** A higher stored AQI never shows a lower number. */
  lemma DisplayedAqiMonotone(a1: real, a2: real)
    requires a1 <= a2
    ensures DisplayedAqi(a1) <= DisplayedAqi(a2)
  {
    RoundMonotone(a1, a2);
  }

  /**
   * The `liveMode` the component destructures from the context. The context value
   * has no such member, so it is always `undefined`.
   */
  const ContextLiveMode: Option<bool> := None

  /** `if (!liveMode) return;`: polling starts only for a truthy flag. */
  predicate PollingStarts(liveMode: Option<bool>)
  {
    liveMode == Some(true)
  }

  /** With the context as written, polling never starts. */
  lemma PollingNeverStarts()
    ensures !PollingStarts(ContextLiveMode)
  {
  }

  /**
   * One run of `fetchAQIData` under the effect. `fetched` is what
   * `getCurrentWeatherData` resolved to; it never rejects, since it falls back to
   * a fixed record on failure. With a falsy flag nothing is fetched or written.
   */
  method Poll(provider: SensorProvider, liveMode: Option<bool>, fetched: real)
    modifies provider
    ensures PollingStarts(liveMode) ==> provider.sensorData == WithAqi(old(provider.sensorData), fetched)
    ensures !PollingStarts(liveMode) ==> provider.sensorData == old(provider.sensorData)
  {
    if !PollingStarts(liveMode) {
      return;
    }
    provider.UpdateAqi(fetched);
  }
}
