/**
 * The manual override panel: three local fields seeded from the shared reading,
 * re-seeded whenever that reading changes, and written back on "Apply & Close".
 */
module ManualOverrideModal {
  import opened SensorContext

  /** The calls the panel makes through the context and its `onClose` prop, in order. */
  datatype Call = TemperatureUpdated(temp: real) | SoundLevelUpdated(level: real) | AqiUpdated(aqi: real) | Closed

  class Modal {
    const provider: SensorProvider
    var temp: real
    var sound: real
    var aqi: real
    /** Every call made so far, oldest first. */
    var calls: seq<Call>

    /** Opening the panel: the local fields start as the context reading. */
    constructor (provider: SensorProvider)
      ensures this.provider == provider
      ensures temp == provider.sensorData.temperature
      ensures sound == provider.sensorData.soundLevel
      ensures aqi == provider.sensorData.aqi
      ensures calls == []
    {
      this.provider := provider;
      temp := provider.sensorData.temperature;
      sound := provider.sensorData.soundLevel;
      aqi := provider.sensorData.aqi;
      calls := [];
    }

    /** Typing in the temperature input. */
    method SetTemp(value: real)
      modifies this
      ensures temp == value && sound == old(sound) && aqi == old(aqi) && calls == old(calls)
    {
      temp := value;
    }

    /** Typing in the sound input. */
    method SetSound(value: real)
      modifies this
      ensures sound == value && temp == old(temp) && aqi == old(aqi) && calls == old(calls)
    {
      sound := value;
    }

    /** Typing in the AQI input. */
    method SetAqi(value: real)
      modifies this
      ensures aqi == value && temp == old(temp) && sound == old(sound) && calls == old(calls)
    {
      aqi := value;
    }

    /** The effect that runs after the context reading changed: local edits are discarded. */
    method Resync()
      modifies this
      ensures temp == provider.sensorData.temperature
      ensures sound == provider.sensorData.soundLevel
      ensures aqi == provider.sensorData.aqi
      ensures calls == old(calls)
    {
      temp := provider.sensorData.temperature;
      sound := provider.sensorData.soundLevel;
      aqi := provider.sensorData.aqi;
    }

    /**
     * `applyManual`: the three context updates, then `onClose`, exactly once each
     * and in that order. Afterwards the shared reading is the local triple.
     */
    method ApplyManual()
      modifies this, provider
      ensures provider.sensorData == SensorData(temp, sound, aqi)
      ensures temp == old(temp) && sound == old(sound) && aqi == old(aqi)
      ensures calls == old(calls) + [TemperatureUpdated(temp), SoundLevelUpdated(sound), AqiUpdated(aqi), Closed]
    {
      provider.UpdateTemperature(temp);
      calls := calls + [TemperatureUpdated(temp)];
      provider.UpdateSoundLevel(sound);
      calls := calls + [SoundLevelUpdated(sound)];
      provider.UpdateAqi(aqi);
      calls := calls + [AqiUpdated(aqi)];
      calls := calls + [Closed];
    }
  }
}
