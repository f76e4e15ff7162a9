/**
 * The weather-station profile: temperature, humidity, wind speed and a
 * description derived from them, published under `weather/<city>`.
 */
module WeatherProfile {
  import opened Values
  import opened Clock
  import opened Text
  import opened ProfileBase

  datatype Weather = Weather(config: Params, city: string, baseTemp: real, baseHumidity: real, baseWind: real)

  /** Every description a weather reading may carry. */
  const WeatherDescriptions: seq<string> :=
    ["Clear Sky", "Partly Cloudy", "Cloudy", "Light Rain",
     "Heavy Rain", "Thunderstorm", "Snow", "Fog", "Mist"]

  /** The descriptions drawn at random when the air is humid. */
  const WetDescriptions: seq<string> := ["Light Rain", "Heavy Rain", "Fog"]

  /** The descriptions drawn at random when nothing more specific applies. */
  const FairDescriptions: seq<string> := ["Clear Sky", "Partly Cloudy", "Cloudy"]

  /**
   * `WeatherProfile(**kwargs)`: keeps the keywords as its configuration and
   * reads city, base temperature, humidity and wind from them, defaulting to
   * Milano, 20.0, 60.0 and 10.0.
   */
  function NewWeather(kwargs: Params): (p: Weather)
    ensures p.config == kwargs
    ensures "city" !in kwargs ==> p.city == "Milano"
    ensures "base_temp" !in kwargs ==> p.baseTemp == 20.0
    ensures "base_humidity" !in kwargs ==> p.baseHumidity == 60.0
    ensures "base_wind" !in kwargs ==> p.baseWind == 10.0
    ensures "city" in kwargs && kwargs["city"].Str? ==> p.city == kwargs["city"].s
    ensures "base_temp" in kwargs && kwargs["base_temp"].Num? ==> p.baseTemp == kwargs["base_temp"].x
    ensures "base_humidity" in kwargs && kwargs["base_humidity"].Num? ==> p.baseHumidity == kwargs["base_humidity"].x
    ensures "base_wind" in kwargs && kwargs["base_wind"].Num? ==> p.baseWind == kwargs["base_wind"].x
  {
    Weather(kwargs,
            StrParam(kwargs, "city", "Milano"),
            NumParam(kwargs, "base_temp", 20.0),
            NumParam(kwargs, "base_humidity", 60.0),
            NumParam(kwargs, "base_wind", 10.0))
  }

  /** The random numbers one `generate_data()` call draws. */
  datatype WeatherDraws = WeatherDraws(tempShift: real, tempNoise: real, humidityNoise: real,
                                       windNoise: real, pick: nat)

  predicate ValidDraws(d: WeatherDraws) {
    IsUnit(d.tempShift) && IsUnit(d.tempNoise) && IsUnit(d.humidityNoise) && IsUnit(d.windNoise) && d.pick < 3
  }

  /**
   * The humidity correction for temperature: hot air (above 25) loses 10
   * points but not below 30, cold air (below 10) gains 10 points but not
   * above 90, and mild air keeps its humidity.
   */
  function AdjustHumidity(temperature: real, humidity: real): (h: real)
    ensures temperature > 25.0 && humidity - 10.0 >= 30.0 ==> h == humidity - 10.0
    ensures temperature > 25.0 && humidity - 10.0 < 30.0 ==> h == 30.0
    ensures temperature < 10.0 && humidity + 10.0 <= 90.0 ==> h == humidity + 10.0
    ensures temperature < 10.0 && humidity + 10.0 > 90.0 ==> h == 90.0
    ensures 10.0 <= temperature <= 25.0 ==> h == humidity
  {
    if temperature > 25.0 then Max(30.0, humidity - 10.0)
    else if temperature < 10.0 then Min(90.0, humidity + 10.0)
    else humidity
  }

  /** The correction never takes a percentage out of [0, 100]. */
  lemma AdjustHumidityKeepsPercent(temperature: real, humidity: real)
    requires 0.0 <= humidity <= 100.0
    ensures 0.0 <= AdjustHumidity(temperature, humidity) <= 100.0
  {
  }

  /**
   * The description, first matching rule wins: snow when freezing and humid,
   * a thunderstorm when very humid and windy, rain or fog when humid, a clear
   * sky when windy, and otherwise a fair-weather description. `pick` is the
   * index `random.choice` drew.
   */
  function Describe(temperature: real, humidity: real, wind: real, pick: nat): (desc: string)
    requires pick < 3
    ensures desc in WeatherDescriptions && desc != "Mist"
    ensures desc == "Snow" <==> temperature < 0.0 && humidity > 70.0
    ensures desc == "Thunderstorm" <==> !(temperature < 0.0 && humidity > 70.0) && humidity > 80.0 && wind > 20.0
    ensures desc in WetDescriptions <==>
              !(temperature < 0.0 && humidity > 70.0) && !(humidity > 80.0 && wind > 20.0) && humidity > 70.0
    ensures humidity <= 70.0 && wind > 30.0 ==> desc == "Clear Sky"
    ensures desc in FairDescriptions ==> humidity <= 70.0
  {
    if temperature < 0.0 && humidity > 70.0 then "Snow"
    else if humidity > 80.0 && wind > 20.0 then "Thunderstorm"
    else if humidity > 70.0 then WetDescriptions[pick]
    else if wind > 30.0 then "Clear Sky"
    else FairDescriptions[pick]
  }

  /** The numeric part of one reading, before it is put into a dictionary. */
  datatype WeatherSample = WeatherSample(temperature: real, humidity: real, windSpeed: real, description: string)

  /**
   * The values of one `generate_data()` call: the temperature is the base
   * shifted by up to 5 degrees and perturbed by 15%, the humidity is the base
   * perturbed by 20% then corrected for temperature, the wind is the base
   * perturbed by 30% and capped to [0, 50].
   */
  function Sample(p: Weather, d: WeatherDraws): (s: WeatherSample)
    requires ValidDraws(d)
    ensures p.baseTemp - 5.0 >= 0.0 ==> 0.85 * (p.baseTemp - 5.0) <= s.temperature
    ensures p.baseTemp + 5.0 >= 0.0 ==> s.temperature <= 1.15 * (p.baseTemp + 5.0)
    ensures p.baseTemp + 5.0 <= 0.0 ==> s.temperature <= 0.85 * (p.baseTemp + 5.0)
    ensures p.baseTemp - 5.0 <= 0.0 ==> 1.15 * (p.baseTemp - 5.0) <= s.temperature
    ensures 0.0 <= s.windSpeed <= 50.0
    ensures s.temperature == AddRandomness(p.baseTemp + Uniform(-5.0, 5.0, d.tempShift), 0.15, d.tempNoise)
    ensures s.humidity == AdjustHumidity(s.temperature, AddRandomness(p.baseHumidity, 0.2, d.humidityNoise))
    ensures s.windSpeed == Clamp(0.0, 50.0, AddRandomness(p.baseWind, 0.3, d.windNoise))
    ensures p.baseHumidity >= 0.0 ==>
              0.8 * p.baseHumidity <= AddRandomness(p.baseHumidity, 0.2, d.humidityNoise) <= 1.2 * p.baseHumidity
    ensures s.description == Describe(s.temperature, s.humidity, s.windSpeed, d.pick)
  {
    var shifted := p.baseTemp + Uniform(-5.0, 5.0, d.tempShift);
    var temperature := AddRandomness(shifted, 0.15, d.tempNoise);
    var humidity := AdjustHumidity(temperature, AddRandomness(p.baseHumidity, 0.2, d.humidityNoise));
    var wind := Clamp(0.0, 50.0, AddRandomness(p.baseWind, 0.3, d.windNoise));
    WeatherSample(temperature, humidity, wind, Describe(temperature, humidity, wind, d.pick))
  }

  /** `generate_data()`: the sample as a reading, stamped with `now`. */
  function GenerateData(p: Weather, d: WeatherDraws, now: DateTime): (r: Reading)
    requires ValidDraws(d)
    ensures r.Keys == {"city", "temperature", "humidity", "wind_speed", "description", "timestamp"}
    ensures r["city"] == Str(p.city)
    ensures r["temperature"] == Num(Sample(p, d).temperature)
    ensures r["humidity"] == Num(Sample(p, d).humidity)
    ensures r["wind_speed"] == Num(Sample(p, d).windSpeed)
    ensures r["description"] == Str(Sample(p, d).description)
    ensures r["timestamp"] == Str(IsoFormat(now) + "Z")
  {
    var s := Sample(p, d);
    var data := map["city" := Str(p.city),
                    "temperature" := Num(s.temperature),
                    "humidity" := Num(s.humidity),
                    "wind_speed" := Num(s.windSpeed),
                    "description" := Str(s.description)];
    assert data.Keys == {"city", "temperature", "humidity", "wind_speed", "description"};
    AddTimestamp(data, now)
  }

  /** The ranges `WeatherData` accepts. */
  predicate InWeatherDataBounds(s: WeatherSample) {
    && -50.0 <= s.temperature <= 60.0
    && 0.0 <= s.humidity <= 100.0
    && 0.0 <= s.windSpeed <= 200.0
  }

  /**
   * Every sample lies within the `WeatherData` ranges whenever the base
   * temperature is in [-38, 47] and the base humidity in [0, 250/3], for
   * every draw.
   */
  lemma SampleInBounds(p: Weather, d: WeatherDraws)
    requires ValidDraws(d)
    requires -38.0 <= p.baseTemp <= 47.0
    requires 0.0 <= p.baseHumidity && 3.0 * p.baseHumidity <= 250.0
    ensures InWeatherDataBounds(Sample(p, d))
  {
    var s := Sample(p, d);
    var h0 := AddRandomness(p.baseHumidity, 0.2, d.humidityNoise);
    AdjustHumidityKeepsPercent(s.temperature, h0);
  }

  /** With the default bases every reading lies within the `WeatherData` ranges. */
  lemma DefaultSampleInBounds(d: WeatherDraws)
    requires ValidDraws(d)
    ensures InWeatherDataBounds(Sample(NewWeather(map[]), d))
  {
    SampleInBounds(NewWeather(map[]), d);
  }

  /** `get_topic()`: `weather/` followed by the city in lower case with spaces as underscores. */
  function GetTopic(p: Weather): (topic: string)
    ensures |topic| == 8 + |p.city| && topic[..8] == "weather/"
    ensures forall i :: 8 <= i < |topic| ==> topic[i] != ' ' && !IsUpper(topic[i])
    ensures forall i :: 0 <= i < |p.city| && p.city[i] != ' ' ==> topic[8 + i] == LowerChar(p.city[i])
    ensures forall i :: 0 <= i < |p.city| && p.city[i] == ' ' ==> topic[8 + i] == '_'
  {
    "weather/" + ReplaceChar(Lower(p.city), ' ', '_')
  }

  lemma LowerNewYork()
    ensures Lower("New York") == "new york"
  {
    var lower := Lower("New York");
    assert lower[0] == LowerChar('N') == 'n';
    assert lower[4] == LowerChar('Y') == 'y';
    forall i | 0 <= i < 8 && i != 0 && i != 4
      ensures lower[i] == "new york"[i]
    {
      assert lower[i] == LowerChar("New York"[i]);
    }
  }

  lemma ReplaceNewYork()
    ensures ReplaceChar("new york", ' ', '_') == "new_york"
  {
    var replaced := ReplaceChar("new york", ' ', '_');
    forall i | 0 <= i < 8
      ensures replaced[i] == "new_york"[i]
    {
    }
  }

  /** The topic of a city with a space in its name. */
  lemma NewYorkTopic()
    ensures GetTopic(NewWeather(map["city" := Str("New York")])) == "weather/" + "new_york"
  {
    var p := NewWeather(map["city" := Str("New York")]);
    assert p.city == "New York";
    LowerNewYork();
    ReplaceNewYork();
  }
}
