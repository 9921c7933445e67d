/** The shared sensor reading and the hook that hands it out. */
module SensorContext {
  import opened Wrappers

  /** `SensorData`: one reading of each channel. */
  datatype SensorData = SensorData(temperature: real, soundLevel: real, aqi: real)

  /** The provider's first reading. */
  const InitialSensorData: SensorData := SensorData(18.5, 0.0, 145.0)

  /** The updater `updateTemperature` hands to the state setter. */
  function WithTemperature(d: SensorData, temp: real): (r: SensorData)
    ensures r.temperature == temp
    ensures r.soundLevel == d.soundLevel && r.aqi == d.aqi
  {
    d.(temperature := temp)
  }

  /** The updater `updateSoundLevel` hands to the state setter. */
  function WithSoundLevel(d: SensorData, level: real): (r: SensorData)
    ensures r.soundLevel == level
    ensures r.temperature == d.temperature && r.aqi == d.aqi
  {
    d.(soundLevel := level)
  }

  /** The updater `updateAQI` hands to the state setter. */
  function WithAqi(d: SensorData, aqi: real): (r: SensorData)
    ensures r.aqi == aqi
    ensures r.temperature == d.temperature && r.soundLevel == d.soundLevel
  {
    d.(aqi := aqi)
  }

  /** Updates of different fields commute. */
  lemma UpdatesCommute(d: SensorData, temp: real, level: real, aqi: real)
    ensures WithSoundLevel(WithTemperature(d, temp), level) == WithTemperature(WithSoundLevel(d, level), temp)
    ensures WithAqi(WithTemperature(d, temp), aqi) == WithTemperature(WithAqi(d, aqi), temp)
    ensures WithAqi(WithSoundLevel(d, level), aqi) == WithSoundLevel(WithAqi(d, aqi), level)
  {
  }

  /** Repeating an update changes nothing more, and a later update of the same field wins. */
  lemma UpdatesIdempotent(d: SensorData, x: real, y: real)
    ensures WithTemperature(WithTemperature(d, x), y) == WithTemperature(d, y)
    ensures WithSoundLevel(WithSoundLevel(d, x), y) == WithSoundLevel(d, y)
    ensures WithAqi(WithAqi(d, x), y) == WithAqi(d, y)
  {
  }

  /** `SensorProvider`: holds the reading; each update replaces one field. */
  class SensorProvider {
    var sensorData: SensorData

    constructor ()
      ensures sensorData == InitialSensorData
    {
      sensorData := InitialSensorData;
    }

    method UpdateTemperature(temp: real)
      modifies this
      ensures sensorData == WithTemperature(old(sensorData), temp)
    {
      sensorData := WithTemperature(sensorData, temp);
    }

    method UpdateSoundLevel(level: real)
      modifies this
      ensures sensorData == WithSoundLevel(old(sensorData), level)
    {
      sensorData := WithSoundLevel(sensorData, level);
    }

    method UpdateAqi(aqi: real)
      modifies this
      ensures sensorData == WithAqi(old(sensorData), aqi)
    {
      sensorData := WithAqi(sensorData, aqi);
    }
  }

  const OutsideProviderMessage: string := "useSensorContext must be used within a SensorProvider"

  /**
   * `useSensorContext`: the nearest provider's value, or the error it throws when
   * there is no provider above the caller (the context default is `undefined`).
   */
  function UseSensorContext<T>(context: Option<T>): (r: Result<T, string>)
    ensures r.Ok? <==> context.Some?
    ensures r.Ok? ==> r.value == context.value
    ensures r.Err? ==> r.error == OutsideProviderMessage
  {
    match context
    case Some(value) => Ok(value)
    case None => Err(OutsideProviderMessage)
  }
}
