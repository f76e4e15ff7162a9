/**
 * What every profile shares: its keyword configuration, the timestamp it
 * stamps on each reading, bounded random perturbation, and its interval.
 *
 * A call to `random.uniform(a, b)` is modelled by the unit fraction `t` that
 * the generator drew, `0 <= t <= 1`; the value is `a + (b - a) * t`.
 */
module ProfileBase {
  import opened Values
  import opened Clock
  import opened Text

  /** The publishing interval a profile reports when its configuration names none. */
  const DefaultInterval: Value := Num(5.0)

  /** A unit fraction: one random draw. */
  predicate IsUnit(t: real) { 0.0 <= t <= 1.0 }

  function Min(a: real, b: real): real { if a <= b then a else b }

  function Max(a: real, b: real): real { if a <= b then b else a }

  /** Scaling a non-negative amount by a unit fraction keeps it between 0 and itself. */
  lemma ScaleByUnit(k: real, t: real)
    requires k >= 0.0 && IsUnit(t)
    ensures 0.0 <= k * t <= k
  {
    assert k * t <= k * 1.0;
    assert k * t >= k * 0.0;
  }

  /** Moving up from `a` by the part `p` of the gap `k` to a larger `b` stays between them. */
  lemma StepUp(a: real, b: real, k: real, t: real, p: real, r: real)
    requires a <= b && k == b - a && IsUnit(t) && p == k * t && r == a + p
    ensures Min(a, b) <= r <= Max(a, b)
  {
    ScaleByUnit(k, t);
    assert 0.0 <= p <= k;
    assert Min(a, b) == a && Max(a, b) == b;
  }

  /** Moving down from `a` by the part `p` of the gap `k` to a smaller `b` stays between them. */
  lemma StepDown(a: real, b: real, k: real, t: real, p: real, r: real)
    requires b < a && k == a - b && IsUnit(t) && p == k * t && r == a - p
    ensures Min(a, b) <= r <= Max(a, b)
  {
    ScaleByUnit(k, t);
    assert 0.0 <= p <= k;
    assert Min(a, b) == b && Max(a, b) == a;
  }

  /** `random.uniform(a, b)` for the draw `t`: a value between the two ends, in either order. */
  function Uniform(a: real, b: real, t: real): (r: real)
    requires IsUnit(t)
    ensures Min(a, b) <= r <= Max(a, b)
    ensures t == 0.0 ==> r == a
    ensures t == 1.0 ==> r == b
  {
    var r := a + (b - a) * t;
    if a <= b then StepUp(a, b, b - a, t, (b - a) * t, r); r
    else StepDown(a, b, a - b, t, (a - b) * t, r); r
  }

  /**
   * `add_randomness(value, variance)`: `value` moved by at most `variance`
   * times its own size, so a non-negative value lands in
   * [value * (1 - variance), value * (1 + variance)] and a negative one in the
   * mirror-image interval.
   */
  function AddRandomness(value: real, variance: real, t: real): (r: real)
    requires IsUnit(t)
    ensures variance >= 0.0 && value >= 0.0 ==> value * (1.0 - variance) <= r <= value * (1.0 + variance)
    ensures variance >= 0.0 && value <= 0.0 ==> value * (1.0 + variance) <= r <= value * (1.0 - variance)
    ensures variance == 0.0 ==> r == value
  {
    value + Uniform(-variance * value, variance * value, t)
  }

  /** `max(lo, min(hi, x))`: the clamp every generator applies to its fields. */
  function Clamp(lo: real, hi: real, x: real): (r: real)
    requires lo <= hi
    ensures lo <= r <= hi
    ensures lo <= x <= hi ==> r == x
    ensures x < lo ==> r == lo
    ensures x > hi ==> r == hi
  {
    Max(lo, Min(hi, x))
  }

  /**
   * `add_timestamp(data)`: the reading with a `timestamp` entry holding
   * `now.isoformat() + "Z"`; every other entry is kept as it was.
   */
  function AddTimestamp(data: Reading, now: DateTime): (r: Reading)
    ensures r.Keys == data.Keys + {"timestamp"}
    ensures r["timestamp"] == Str(IsoFormat(now) + "Z")
    ensures forall k :: k in data && k != "timestamp" ==> r[k] == data[k]
  {
    data["timestamp" := Str(IsoFormat(now) + "Z")]
  }

  /** The stamped time is an ISO date-time: it has the `T` separator and ends with `Z`. */
  lemma TimestampShape(data: Reading, now: DateTime)
    ensures var ts := AddTimestamp(data, now)["timestamp"].s;
            Contains(ts, "T") && ts[|ts| - 1] == 'Z' && ts[..|ts| - 1] == IsoFormat(now)
  {
    var iso := IsoFormat(now);
    var ts := iso + "Z";
    assert ts == iso[..10] + "T" + (iso[11..] + "Z");
    ContainsConcat(iso[..10], "T", iso[11..] + "Z");
    assert ts[..|ts| - 1] == iso;
  }

  /** `get_interval()`: the `interval` keyword when given, otherwise 5. */
  function GetInterval(config: Params): (v: Value)
    ensures "interval" in config ==> v == config["interval"]
    ensures "interval" !in config ==> v == Num(5.0)
  {
    if "interval" in config then config["interval"] else DefaultInterval
  }
}
