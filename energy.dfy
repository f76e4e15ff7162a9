/**
 * The energy-meter profile: power, voltage, the current they imply, and
 * grid frequency, published under `energy/meter/<meter_id>`.
 */
module EnergyProfile {
  import opened Values
  import opened Clock
  import opened ProfileBase

  datatype Energy = Energy(config: Params, meterId: string, basePower: real, baseVoltage: real,
                           baseCurrent: real, baseFrequency: real, loadPattern: string)

  /** The power range and variance of one kind of load. */
  datatype LoadPattern = LoadPattern(min: real, max: real, variance: real)

  const LoadPatterns: map<string, LoadPattern> := map[
    "residential" := LoadPattern(0.5, 8.0, 0.3),
    "commercial" := LoadPattern(2.0, 25.0, 0.2),
    "industrial" := LoadPattern(10.0, 100.0, 0.1)]

  /**
   * `EnergyProfile(**kwargs)`: keeps the keywords as its configuration,
   * defaulting to meter `energy-01`, 3.5 kW, 230 V, 15 A, 50 Hz and the
   * `residential` load pattern.
   */
  function NewEnergy(kwargs: Params): (p: Energy)
    ensures p.config == kwargs
    ensures "meter_id" !in kwargs ==> p.meterId == "energy-01"
    ensures "base_power" !in kwargs ==> p.basePower == 3.5
    ensures "base_voltage" !in kwargs ==> p.baseVoltage == 230.0
    ensures "base_current" !in kwargs ==> p.baseCurrent == 15.0
    ensures "base_frequency" !in kwargs ==> p.baseFrequency == 50.0
    ensures "load_pattern" !in kwargs ==> p.loadPattern == "residential"
    ensures "meter_id" in kwargs && kwargs["meter_id"].Str? ==> p.meterId == kwargs["meter_id"].s
    ensures "base_power" in kwargs && kwargs["base_power"].Num? ==> p.basePower == kwargs["base_power"].x
    ensures "base_voltage" in kwargs && kwargs["base_voltage"].Num? ==> p.baseVoltage == kwargs["base_voltage"].x
    ensures "base_current" in kwargs && kwargs["base_current"].Num? ==> p.baseCurrent == kwargs["base_current"].x
    ensures "base_frequency" in kwargs && kwargs["base_frequency"].Num? ==> p.baseFrequency == kwargs["base_frequency"].x
    ensures "load_pattern" in kwargs && kwargs["load_pattern"].Str? ==> p.loadPattern == kwargs["load_pattern"].s
  {
    Energy(kwargs,
           StrParam(kwargs, "meter_id", "energy-01"),
           NumParam(kwargs, "base_power", 3.5),
           NumParam(kwargs, "base_voltage", 230.0),
           NumParam(kwargs, "base_current", 15.0),
           NumParam(kwargs, "base_frequency", 50.0),
           StrParam(kwargs, "load_pattern", "residential"))
  }

  /**
   * The load pattern of a name; an unknown name gets the residential one.
   * Every pattern's power range lies within [0.5, 100].
   */
  function PatternFor(name: string): (pat: LoadPattern)
    ensures name in LoadPatterns ==> pat == LoadPatterns[name]
    ensures name !in LoadPatterns ==> pat == LoadPattern(0.5, 8.0, 0.3)
    ensures 0.5 <= pat.min <= pat.max <= 100.0 && 0.0 <= pat.variance
  {
    if name in LoadPatterns then LoadPatterns[name] else LoadPatterns["residential"]
  }

  /** The random numbers one `generate_data()` call draws. */
  datatype EnergyDraws = EnergyDraws(powerNoise: real, voltageNoise: real, currentNoise: real, frequencyNoise: real)

  predicate ValidDraws(d: EnergyDraws) {
    IsUnit(d.powerNoise) && IsUnit(d.voltageNoise) && IsUnit(d.currentNoise) && IsUnit(d.frequencyNoise)
  }

  /** The current that power (kW) and voltage (V) imply: power * 1000 / voltage. */
  function NominalCurrent(power: real, voltage: real): (c: real)
    requires voltage > 0.0
    ensures c * voltage == power * 1000.0
    ensures power >= 0.0 ==> c >= 0.0
  {
    (power * 1000.0) / voltage
  }

  /** The implied current perturbed by 5%, before it is capped. */
  function CurrentBeforeClamp(power: real, voltage: real, t: real): (c: real)
    requires voltage > 0.0 && power >= 0.0 && IsUnit(t)
    ensures 0.95 * NominalCurrent(power, voltage) <= c <= 1.05 * NominalCurrent(power, voltage)
  {
    var nominal := NominalCurrent(power, voltage);
    AddRandomness(nominal, 0.05, t)
  }

  datatype EnergySample = EnergySample(power: real, voltage: real, current: real, frequency: real)

  /**
   * The values of one `generate_data()` call: power perturbed by the
   * pattern's variance and capped to the pattern's range; voltage perturbed
   * by 2% and capped to [220, 240]; current derived from them, perturbed by
   * 5% and capped to [0, 50]; frequency perturbed by 1% and capped to
   * [49.8, 50.2].
   */
  function Sample(p: Energy, d: EnergyDraws): (s: EnergySample)
    requires ValidDraws(d)
    ensures PatternFor(p.loadPattern).min <= s.power <= PatternFor(p.loadPattern).max
    ensures 220.0 <= s.voltage <= 240.0
    ensures 0.0 <= s.current <= 50.0
    ensures 49.8 <= s.frequency <= 50.2
    ensures s.power == Power(p, d.powerNoise) && s.voltage == Voltage(p, d.voltageNoise)
    ensures s.current == Clamp(0.0, 50.0, CurrentBeforeClamp(s.power, s.voltage, d.currentNoise))
    ensures s.frequency == Clamp(49.8, 50.2, AddRandomness(p.baseFrequency, 0.01, d.frequencyNoise))
  {
    var power := Power(p, d.powerNoise);
    var voltage := Voltage(p, d.voltageNoise);
    var current := Clamp(0.0, 50.0, CurrentBeforeClamp(power, voltage, d.currentNoise));
    var frequency := Clamp(49.8, 50.2, AddRandomness(p.baseFrequency, 0.01, d.frequencyNoise));
    EnergySample(power, voltage, current, frequency)
  }

  /** The power: the base perturbed by the pattern's variance, capped to the pattern's range. */
  function Power(p: Energy, t: real): (power: real)
    requires IsUnit(t)
    ensures PatternFor(p.loadPattern).min <= power <= PatternFor(p.loadPattern).max
    ensures power == Clamp(PatternFor(p.loadPattern).min, PatternFor(p.loadPattern).max,
                           AddRandomness(p.basePower, PatternFor(p.loadPattern).variance, t))
  {
    var pat := PatternFor(p.loadPattern);
    Clamp(pat.min, pat.max, AddRandomness(p.basePower, pat.variance, t))
  }

  /** The voltage: the base perturbed by 2%, capped to [220, 240]. */
  function Voltage(p: Energy, t: real): (voltage: real)
    requires IsUnit(t)
    ensures 220.0 <= voltage <= 240.0
    ensures voltage == Clamp(220.0, 240.0, AddRandomness(p.baseVoltage, 0.02, t))
  {
    Clamp(220.0, 240.0, AddRandomness(p.baseVoltage, 0.02, t))
  }

  /** The ranges `EnergyData` accepts. */
  predicate InEnergyDataBounds(s: EnergySample) {
    && 0.0 <= s.power <= 100.0
    && 200.0 <= s.voltage <= 250.0
    && 0.0 <= s.current <= 50.0
    && 49.0 <= s.frequency <= 51.0
  }

  /** The clamps lie inside the `EnergyData` ranges, so every sample is accepted, whatever the bases. */
  lemma SampleInBounds(p: Energy, d: EnergyDraws)
    requires ValidDraws(d)
    ensures InEnergyDataBounds(Sample(p, d))
  {
  }

  /**
   * Under the residential pattern (the default, and the fallback for unknown
   * names) the cap on current never bites: the reported current stays within
   * 5% of power * 1000 / voltage.
   */
  lemma ResidentialCurrentConsistent(p: Energy, d: EnergyDraws)
    requires ValidDraws(d)
    requires PatternFor(p.loadPattern) == LoadPatterns["residential"]
    ensures var s := Sample(p, d);
            0.95 * NominalCurrent(s.power, s.voltage) <= s.current <= 1.05 * NominalCurrent(s.power, s.voltage)
  {
    var s := Sample(p, d);
    var nominal := NominalCurrent(s.power, s.voltage);
    var raw := CurrentBeforeClamp(s.power, s.voltage, d.currentNoise);
    assert s.power <= 8.0;
    assert nominal * s.voltage <= 8000.0;
    assert nominal * 220.0 <= nominal * s.voltage;
    assert nominal <= 40.0;
    assert 0.0 <= raw <= 50.0;
  }

  /**
   * Under a high-power pattern the cap on current does bite: an industrial
   * meter drawing 50 kW at 230 V implies about 217 A, yet reports 50 A.
   */
  lemma IndustrialCurrentCapped()
    ensures var p := NewEnergy(map["load_pattern" := Str("industrial"), "base_power" := Num(50.0)]);
            var s := Sample(p, EnergyDraws(0.5, 0.5, 0.5, 0.5));
            s.current == 50.0 && s.current < 0.95 * NominalCurrent(s.power, s.voltage)
  {
    var p := NewEnergy(map["load_pattern" := Str("industrial"), "base_power" := Num(50.0)]);
    IndustrialMeter(p);
    var s := Sample(p, EnergyDraws(0.5, 0.5, 0.5, 0.5));
    assert s.power == 50.0 && s.voltage == 230.0;
    CurrentCappedAt50kW();
  }

  /** 50 kW at 230 V implies over 200 A, which the cap brings down to 50 A. */
  lemma CurrentCappedAt50kW()
    ensures Clamp(0.0, 50.0, CurrentBeforeClamp(50.0, 230.0, 0.5)) == 50.0
    ensures 50.0 < 0.95 * NominalCurrent(50.0, 230.0)
  {
    var nominal := NominalCurrent(50.0, 230.0);
    assert nominal * 230.0 == 50000.0;
    assert nominal > 200.0;
    assert CurrentBeforeClamp(50.0, 230.0, 0.5) >= 0.95 * nominal;
  }

  /** The industrial 50 kW meter at middle draws: exactly 50 kW at exactly 230 V. */
  lemma IndustrialMeter(p: Energy)
    requires p == NewEnergy(map["load_pattern" := Str("industrial"), "base_power" := Num(50.0)])
    ensures Power(p, 0.5) == 50.0 && Voltage(p, 0.5) == 230.0
  {
    assert p.loadPattern == "industrial" && p.basePower == 50.0 && p.baseVoltage == 230.0;
    assert PatternFor(p.loadPattern) == LoadPattern(10.0, 100.0, 0.1);
    assert AddRandomness(50.0, 0.1, 0.5) == 50.0;
    assert AddRandomness(230.0, 0.02, 0.5) == 230.0;
  }

  /** `generate_data()`: the sample as a reading, stamped with `now`. */
  function GenerateData(p: Energy, d: EnergyDraws, now: DateTime): (r: Reading)
    requires ValidDraws(d)
    ensures r.Keys == {"meter_id", "power_kw", "voltage_v", "current_a", "frequency_hz", "timestamp"}
    ensures r["meter_id"] == Str(p.meterId)
    ensures r["power_kw"] == Num(Sample(p, d).power)
    ensures r["voltage_v"] == Num(Sample(p, d).voltage)
    ensures r["current_a"] == Num(Sample(p, d).current)
    ensures r["frequency_hz"] == Num(Sample(p, d).frequency)
    ensures r["timestamp"] == Str(IsoFormat(now) + "Z")
  {
    var s := Sample(p, d);
    var data := map["meter_id" := Str(p.meterId),
                    "power_kw" := Num(s.power),
                    "voltage_v" := Num(s.voltage),
                    "current_a" := Num(s.current),
                    "frequency_hz" := Num(s.frequency)];
    assert data.Keys == {"meter_id", "power_kw", "voltage_v", "current_a", "frequency_hz"};
    AddTimestamp(data, now)
  }

  /** `get_topic()`: `energy/meter/` followed by the meter id. */
  function GetTopic(p: Energy): (topic: string)
    ensures |topic| == 13 + |p.meterId|
    ensures topic[..13] == "energy/meter/" && topic[13..] == p.meterId
  {
    var topic := "energy/meter/" + p.meterId;
    assert topic[13..] == p.meterId;
    topic
  }
}
