/**
 * The soil-sensor profile: moisture, soil temperature and pH, published
 * under `agriculture/soil/<sensor_id>`.
 */
module AgricultureProfile {
  import opened Values
  import opened Clock
  import opened ProfileBase

  datatype Agriculture = Agriculture(config: Params, sensorId: string, baseMoisture: real,
                                     baseTemp: real, basePh: real, soilType: string)

  /** How strongly moisture varies for each known soil type. */
  const MoistureVarianceTable: map<string, real> := map["sandy" := 0.4, "clay" := 0.1, "loam" := 0.2]

  /**
   * `AgricultureProfile(**kwargs)`: keeps the keywords as its configuration,
   * defaulting to sensor `soil-001`, moisture 40.0, temperature 18.0, pH 6.5
   * and soil `loam`.
   */
  function NewAgriculture(kwargs: Params): (p: Agriculture)
    ensures p.config == kwargs
    ensures "sensor_id" !in kwargs ==> p.sensorId == "soil-001"
    ensures "base_moisture" !in kwargs ==> p.baseMoisture == 40.0
    ensures "base_temp" !in kwargs ==> p.baseTemp == 18.0
    ensures "base_ph" !in kwargs ==> p.basePh == 6.5
    ensures "soil_type" !in kwargs ==> p.soilType == "loam"
    ensures "sensor_id" in kwargs && kwargs["sensor_id"].Str? ==> p.sensorId == kwargs["sensor_id"].s
    ensures "base_moisture" in kwargs && kwargs["base_moisture"].Num? ==> p.baseMoisture == kwargs["base_moisture"].x
    ensures "base_temp" in kwargs && kwargs["base_temp"].Num? ==> p.baseTemp == kwargs["base_temp"].x
    ensures "base_ph" in kwargs && kwargs["base_ph"].Num? ==> p.basePh == kwargs["base_ph"].x
    ensures "soil_type" in kwargs && kwargs["soil_type"].Str? ==> p.soilType == kwargs["soil_type"].s
  {
    Agriculture(kwargs,
                StrParam(kwargs, "sensor_id", "soil-001"),
                NumParam(kwargs, "base_moisture", 40.0),
                NumParam(kwargs, "base_temp", 18.0),
                NumParam(kwargs, "base_ph", 6.5),
                StrParam(kwargs, "soil_type", "loam"))
  }

  /** The moisture variance of a soil type: sandy 0.4, clay 0.1, loam 0.2, and 0.2 for any other. */
  function MoistureVariance(soilType: string): (v: real)
    ensures soilType == "sandy" ==> v == 0.4
    ensures soilType == "clay" ==> v == 0.1
    ensures soilType !in {"sandy", "clay"} ==> v == 0.2
    ensures 0.1 <= v <= 0.4
  {
    if soilType in MoistureVarianceTable then MoistureVarianceTable[soilType] else 0.2
  }

  /** The random numbers one `generate_data()` call draws. */
  datatype AgricultureDraws = AgricultureDraws(moistureNoise: real, tempShift: real, tempNoise: real,
                                               phShift: real, phNoise: real)

  predicate ValidDraws(d: AgricultureDraws) {
    IsUnit(d.moistureNoise) && IsUnit(d.tempShift) && IsUnit(d.tempNoise) && IsUnit(d.phShift) && IsUnit(d.phNoise)
  }

  datatype AgricultureSample = AgricultureSample(moisture: real, temperature: real, phLevel: real)

  /**
   * The values of one `generate_data()` call: moisture perturbed by its soil's
   * variance and capped to [5, 95]; temperature shifted by -3..2, perturbed by
   * 10% and capped to [-5, 35]; pH shifted by 0.2 either way, perturbed by 5%
   * and capped to [5.0, 8.5].
   */
  function Sample(p: Agriculture, d: AgricultureDraws): (s: AgricultureSample)
    requires ValidDraws(d)
    ensures 5.0 <= s.moisture <= 95.0
    ensures -5.0 <= s.temperature <= 35.0
    ensures 5.0 <= s.phLevel <= 8.5
    ensures s.moisture == Clamp(5.0, 95.0, AddRandomness(p.baseMoisture, MoistureVariance(p.soilType), d.moistureNoise))
    ensures s.temperature == Clamp(-5.0, 35.0, AddRandomness(p.baseTemp + Uniform(-3.0, 2.0, d.tempShift), 0.1, d.tempNoise))
    ensures s.phLevel == Clamp(5.0, 8.5, AddRandomness(p.basePh + Uniform(-0.2, 0.2, d.phShift), 0.05, d.phNoise))
  {
    var moisture := AddRandomness(p.baseMoisture, MoistureVariance(p.soilType), d.moistureNoise);
    var temperature := AddRandomness(p.baseTemp + Uniform(-3.0, 2.0, d.tempShift), 0.1, d.tempNoise);
    var ph := AddRandomness(p.basePh + Uniform(-0.2, 0.2, d.phShift), 0.05, d.phNoise);
    AgricultureSample(Clamp(5.0, 95.0, moisture), Clamp(-5.0, 35.0, temperature), Clamp(5.0, 8.5, ph))
  }

  /** The ranges `SoilMoistureData` accepts. */
  predicate InSoilMoistureDataBounds(s: AgricultureSample) {
    && 0.0 <= s.moisture <= 100.0
    && -10.0 <= s.temperature <= 50.0
    && 0.0 <= s.phLevel <= 14.0
  }

  /** The clamps lie inside the `SoilMoistureData` ranges, so every sample is accepted, whatever the bases. */
  lemma SampleInBounds(p: Agriculture, d: AgricultureDraws)
    requires ValidDraws(d)
    ensures InSoilMoistureDataBounds(Sample(p, d))
  {
  }

  /** `generate_data()`: the sample as a reading, stamped with `now`. */
  function GenerateData(p: Agriculture, d: AgricultureDraws, now: DateTime): (r: Reading)
    requires ValidDraws(d)
    ensures r.Keys == {"sensor_id", "moisture", "temperature", "ph_level", "timestamp"}
    ensures r["sensor_id"] == Str(p.sensorId)
    ensures r["moisture"] == Num(Sample(p, d).moisture)
    ensures r["temperature"] == Num(Sample(p, d).temperature)
    ensures r["ph_level"] == Num(Sample(p, d).phLevel)
    ensures r["timestamp"] == Str(IsoFormat(now) + "Z")
  {
    var s := Sample(p, d);
    var data := map["sensor_id" := Str(p.sensorId),
                    "moisture" := Num(s.moisture),
                    "temperature" := Num(s.temperature),
                    "ph_level" := Num(s.phLevel)];
    assert data.Keys == {"sensor_id", "moisture", "temperature", "ph_level"};
    AddTimestamp(data, now)
  }

  /** `get_topic()`: `agriculture/soil/` followed by the sensor id. */
  function GetTopic(p: Agriculture): (topic: string)
    ensures |topic| == 17 + |p.sensorId|
    ensures topic[..17] == "agriculture/soil/" && topic[17..] == p.sensorId
  {
    var topic := "agriculture/soil/" + p.sensorId;
    assert topic[17..] == p.sensorId;
    topic
  }
}
