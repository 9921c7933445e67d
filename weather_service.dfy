/**
 * The arithmetic of the weather service: OpenWeather pollutant concentrations
 * (micrograms per cubic metre) turned into a US AQI value by the piecewise-linear
 * breakpoint equation of the US EPA, and the final clamp of the microphone level.
 * Concentrations are used as given: they are not truncated before the band lookup.
 */
module WeatherService {
  import opened Numeric
  import opened Wrappers

  /** One row of a breakpoint table: concentrations [cLo, cHi] map linearly onto indices [iLo, iHi]. */
  datatype Band = Band(cLo: real, cHi: real, iLo: real, iHi: real)

  /** The pollutant concentrations of one OpenWeather air-pollution record. */
  datatype Pollution = Pollution(pm2_5: real, pm10: real, no2: real, o3: real)

  /** The PM2.5 rows the source uses (the EPA table in force before 2024). */
  const Pm25Bands: seq<Band> := [
    Band(0.0, 12.0, 0.0, 50.0),
    Band(12.1, 35.4, 51.0, 100.0),
    Band(35.5, 55.4, 101.0, 150.0),
    Band(55.5, 150.4, 151.0, 200.0),
    Band(150.5, 250.4, 201.0, 300.0),
    Band(250.5, 350.4, 301.0, 400.0),
    Band(350.5, 500.4, 401.0, 500.0)
  ]

  /** The PM10 rows the source uses. */
  const Pm10Bands: seq<Band> := [
    Band(0.0, 54.0, 0.0, 50.0),
    Band(55.0, 154.0, 51.0, 100.0),
    Band(155.0, 254.0, 101.0, 150.0),
    Band(255.0, 354.0, 151.0, 200.0),
    Band(355.0, 424.0, 201.0, 300.0),
    Band(425.0, 504.0, 301.0, 400.0),
    Band(505.0, 604.0, 401.0, 500.0)
  ]

  /** `linearInterpolation`: the line through (inMin, outMin) and (inMax, outMax), evaluated at value. */
  function LinearInterpolation(value: real, inMin: real, inMax: real, outMin: real, outMax: real): (r: real)
    requires inMax != inMin
    ensures (r - outMin) * (inMax - inMin) == (value - inMin) * (outMax - outMin)
  {
    ((value - inMin) * (outMax - outMin)) / (inMax - inMin) + outMin
  }

  /** The interpolation hits both end points of its band exactly. */
  lemma InterpolationEndpoints(inMin: real, inMax: real, outMin: real, outMax: real)
    requires inMax != inMin
    ensures LinearInterpolation(inMin, inMin, inMax, outMin, outMax) == outMin
    ensures LinearInterpolation(inMax, inMin, inMax, outMin, outMax) == outMax
  {
    var w := inMax - inMin;
    assert (w * (outMax - outMin)) / w == outMax - outMin;
  }

  /** On a band that rises in both directions, a larger concentration never gives a smaller index. */
  lemma InterpolationMonotone(v1: real, v2: real, inMin: real, inMax: real, outMin: real, outMax: real)
    requires inMax > inMin && outMax >= outMin && v1 <= v2
    ensures LinearInterpolation(v1, inMin, inMax, outMin, outMax) <= LinearInterpolation(v2, inMin, inMax, outMin, outMax)
  {
    var w, h := inMax - inMin, outMax - outMin;
    assert (v2 - inMin) * h - (v1 - inMin) * h == (v2 - v1) * h;
    assert (v2 - v1) * h >= 0.0;
    assert (v1 - inMin) * h <= (v2 - inMin) * h;
  }

  /** `calculatePM25AQI`, branch by branch. */
  function Pm25Aqi(pm25: real): (r: real)
    ensures 0.0 <= pm25 <= 500.4 ==> 0.0 <= r <= 500.0
    ensures pm25 <= 12.0 ==> r <= 50.0
  {
    if pm25 <= 12.0 then LinearInterpolation(pm25, 0.0, 12.0, 0.0, 50.0)
    else if pm25 <= 35.4 then LinearInterpolation(pm25, 12.1, 35.4, 51.0, 100.0)
    else if pm25 <= 55.4 then LinearInterpolation(pm25, 35.5, 55.4, 101.0, 150.0)
    else if pm25 <= 150.4 then LinearInterpolation(pm25, 55.5, 150.4, 151.0, 200.0)
    else if pm25 <= 250.4 then LinearInterpolation(pm25, 150.5, 250.4, 201.0, 300.0)
    else if pm25 <= 350.4 then LinearInterpolation(pm25, 250.5, 350.4, 301.0, 400.0)
    else LinearInterpolation(pm25, 350.5, 500.4, 401.0, 500.0)
  }

  /** `calculatePM10AQI`, branch by branch. */
  function Pm10Aqi(pm10: real): (r: real)
    ensures 0.0 <= pm10 <= 604.0 ==> 0.0 <= r <= 500.0
    ensures pm10 <= 54.0 ==> r <= 50.0
  {
    if pm10 <= 54.0 then LinearInterpolation(pm10, 0.0, 54.0, 0.0, 50.0)
    else if pm10 <= 154.0 then LinearInterpolation(pm10, 55.0, 154.0, 51.0, 100.0)
    else if pm10 <= 254.0 then LinearInterpolation(pm10, 155.0, 254.0, 101.0, 150.0)
    else if pm10 <= 354.0 then LinearInterpolation(pm10, 255.0, 354.0, 151.0, 200.0)
    else if pm10 <= 424.0 then LinearInterpolation(pm10, 355.0, 424.0, 201.0, 300.0)
    else if pm10 <= 504.0 then LinearInterpolation(pm10, 425.0, 504.0, 301.0, 400.0)
    else LinearInterpolation(pm10, 505.0, 604.0, 401.0, 500.0)
  }

  /** Every row of a table spans a proper interval. */
  ghost predicate WellFormed(bands: seq<Band>)
  {
    |bands| > 0 && forall k :: 0 <= k < |bands| ==> bands[k].cLo < bands[k].cHi
  }

  /**
   * The reference reading of a breakpoint table: the first row whose upper
   * concentration is at least c, or the last row when there is none.
   */
  function SelectBand(bands: seq<Band>, c: real, from: nat): (k: nat)
    requires from < |bands|
    ensures from <= k < |bands|
    ensures forall j :: from <= j < k ==> c > bands[j].cHi
    ensures k < |bands| - 1 ==> c <= bands[k].cHi
    decreases |bands| - from
  {
    if from == |bands| - 1 || c <= bands[from].cHi then from else SelectBand(bands, c, from + 1)
  }

  /** The index of c read off a table through the row SelectBand picks. */
  function TableAqi(bands: seq<Band>, c: real): real
    requires WellFormed(bands)
  {
    var b := bands[SelectBand(bands, c, 0)];
    LinearInterpolation(c, b.cLo, b.cHi, b.iLo, b.iHi)
  }

  /** The PM2.5 if-chain is exactly "first band whose upper breakpoint is at least c, else the last". */
  lemma Pm25IsTableLookup(c: real)
    ensures WellFormed(Pm25Bands) && Pm25Aqi(c) == TableAqi(Pm25Bands, c)
  {
    var k := SelectBand(Pm25Bands, c, 0);
    if k > 0 { assert c > Pm25Bands[0].cHi; }
    if k > 1 { assert c > Pm25Bands[1].cHi; }
    if k > 2 { assert c > Pm25Bands[2].cHi; }
    if k > 3 { assert c > Pm25Bands[3].cHi; }
    if k > 4 { assert c > Pm25Bands[4].cHi; }
    if k > 5 { assert c > Pm25Bands[5].cHi; }
  }

  /** The PM10 if-chain is exactly "first band whose upper breakpoint is at least c, else the last". */
  lemma Pm10IsTableLookup(c: real)
    ensures WellFormed(Pm10Bands) && Pm10Aqi(c) == TableAqi(Pm10Bands, c)
  {
    var k := SelectBand(Pm10Bands, c, 0);
    if k > 0 { assert c > Pm10Bands[0].cHi; }
    if k > 1 { assert c > Pm10Bands[1].cHi; }
    if k > 2 { assert c > Pm10Bands[2].cHi; }
    if k > 3 { assert c > Pm10Bands[3].cHi; }
    if k > 4 { assert c > Pm10Bands[4].cHi; }
    if k > 5 { assert c > Pm10Bands[5].cHi; }
  }

  /** Each upper breakpoint lands exactly on its band's top index, and zero on zero. */
  lemma Pm25Breakpoints()
    ensures Pm25Aqi(0.0) == 0.0
    ensures Pm25Aqi(12.0) == 50.0 && Pm25Aqi(35.4) == 100.0 && Pm25Aqi(55.4) == 150.0
    ensures Pm25Aqi(150.4) == 200.0 && Pm25Aqi(250.4) == 300.0 && Pm25Aqi(350.4) == 400.0
  {
  }

  /** Each upper breakpoint lands exactly on its band's top index, and zero on zero. */
  lemma Pm10Breakpoints()
    ensures Pm10Aqi(0.0) == 0.0
    ensures Pm10Aqi(54.0) == 50.0 && Pm10Aqi(154.0) == 100.0 && Pm10Aqi(254.0) == 150.0
    ensures Pm10Aqi(354.0) == 200.0 && Pm10Aqi(424.0) == 300.0 && Pm10Aqi(504.0) == 400.0
  {
  }

  /**
   * A PM2.5 concentration in the 0.1-wide gap after band k is read with band k+1's
   * line, and lands strictly between band k's top index and band k+1's bottom index.
   */
  lemma Pm25Gap(c: real, k: nat)
    requires k < |Pm25Bands| - 1
    requires Pm25Bands[k].cHi < c < Pm25Bands[k + 1].cLo
    ensures Pm25Bands[k].iHi < Pm25Aqi(c) < Pm25Bands[k + 1].iLo
  {
  }

  /** Because every PM2.5 gap is narrow enough, the PM2.5 sub-index never decreases as the concentration rises. */
  lemma Pm25Monotone(a: real, b: real)
    requires a <= b
    ensures Pm25Aqi(a) <= Pm25Aqi(b)
  {
  }

  /**
   * PM10 gaps are 1.0 wide, and the bands after 354 and 424 are steeper than one
   * index point per microgram, so the sub-index dips below the previous band's top.
   */
  lemma Pm10GapDips()
    ensures Pm10Aqi(354.1) < Pm10Aqi(354.0)
    ensures Pm10Aqi(424.1) < Pm10Aqi(424.0)
  {
  }

  /** The dip stays within half a point, so after `Math.round` the PM10 result never drops in those gaps. */
  lemma Pm10GapDipRoundsAway(c: real)
    requires 354.0 < c < 355.0 || 424.0 < c < 425.0
    ensures 354.0 < c < 355.0 ==> Round(Pm10Aqi(c)) >= Round(Pm10Aqi(354.0)) == 200
    ensures 424.0 < c < 425.0 ==> Round(Pm10Aqi(c)) >= Round(Pm10Aqi(424.0)) == 300
  {
  }

  /** Above the top breakpoint the last band is extrapolated: nothing caps the index at 500. */
  lemma Unclamped(c: real)
    ensures c > 500.4 ==> Pm25Aqi(c) > 500.0
    ensures c > 604.0 ==> Pm10Aqi(c) > 500.0
  {
  }

  /**
   * `convertToUSAQI`: the larger of the two sub-indices, rounded. The result is
   * the rounding of one of the sub-indices and no smaller than the rounding of either.
   */
  function ConvertToUsAqi(p: Pollution): (r: int)
    ensures r == Round(Pm25Aqi(p.pm2_5)) || r == Round(Pm10Aqi(p.pm10))
    ensures r >= Round(Pm25Aqi(p.pm2_5)) && r >= Round(Pm10Aqi(p.pm10))
  {
    Round(Max(Pm25Aqi(p.pm2_5), Pm10Aqi(p.pm10)))
  }

  /** Only the particulate readings matter: NO2 and O3 never change the result. */
  lemma GasesIgnored(p: Pollution, no2: real, o3: real)
    ensures ConvertToUsAqi(p.(no2 := no2, o3 := o3)) == ConvertToUsAqi(p)
  {
  }

  /** The byte values `getByteFrequencyData` writes into its `Uint8Array`. */
  type Byte = x: int | 0 <= x < 256

  /** Sum of the squares of the spectrum bins. */
  function SumOfSquares(s: seq<Byte>): nat
  {
    if s == [] then 0 else var x := s[|s| - 1] as int; SumOfSquares(s[..|s| - 1]) + x * x
  }

  /** The mean square of the bins never exceeds that of a full-scale spectrum. */
  lemma {:induction false} SumOfSquaresBound(s: seq<Byte>)
    ensures SumOfSquares(s) <= 255 * 255 * |s|
  {
    if s != [] {
      SumOfSquaresBound(s[..|s| - 1]);
      ByteSquareBound(s[|s| - 1]);
    }
  }

  /** One bin contributes at most a full-scale square. */
  lemma ByteSquareBound(x: Byte)
    ensures x * x <= 255 * 255
  {
    assert x * x <= x * 255;
  }

  /** The final step of `getSoundLevel`: `Math.max(30, Math.min(130, Math.round(db)))`. */
  function ClampDecibels(db: real): (r: int)
    ensures 30 <= r <= 130
    ensures 30 <= Round(db) <= 130 ==> r == Round(db)
    ensures Round(db) < 30 ==> r == 30
    ensures Round(db) > 130 ==> r == 130
  {
    var n := Round(db);
    if n > 130 then 130 else if n < 30 then 30 else n
  }

  /** A louder spectrum never reads lower after rounding and clamping. */
  lemma ClampDecibelsMonotone(d1: real, d2: real)
    requires d1 <= d2
    ensures ClampDecibels(d1) <= ClampDecibels(d2)
  {
    RoundMonotone(d1, d2);
  }

  /**
   * `getSoundLevel`. With no analyser (the microphone was never started, or was
   * stopped) it is 0. Otherwise it sums the squared bins of the spectrum, takes the
   * mean, and turns that into decibels (`decibels` stands for the square root and
   * logarithm the source applies), then clamps the rounded value to [30, 130].
   */
  method GetSoundLevel(spectrum: Option<array<Byte>>, decibels: real -> real) returns (level: int)
    requires spectrum.Some? ==> spectrum.value.Length > 0
    ensures spectrum.None? ==> level == 0
    ensures spectrum.Some? ==> 30 <= level <= 130
    ensures spectrum.Some? ==>
      var data := spectrum.value[..];
      level == ClampDecibels(decibels(SumOfSquares(data) as real / |data| as real))
  {
    if spectrum.None? {
      return 0;
    }
    var data := spectrum.value;
    var sum: nat := 0;
    var i := 0;
    while i < data.Length
      invariant 0 <= i <= data.Length
      invariant sum == SumOfSquares(data[..i])
    {
      assert data[..i + 1][..i] == data[..i];
      var x := data[i] as int;
      sum := sum + x * x;
      i := i + 1;
    }
    assert data[..i] == data[..];
    level := ClampDecibels(decibels(sum as real / data.Length as real));
  }
}
