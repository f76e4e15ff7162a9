/**
 * The configuration and status records of the control API, with the field
 * bounds and defaults the API layer enforces before the controller sees them.
 */
module Models {
  import opened Wrappers
  import opened Values

  /** MQTT quality-of-service levels. */
  datatype QoSLevel = AtMostOnce | AtLeastOnce | ExactlyOnce {
    function Level(): (n: int)
      ensures 0 <= n <= 2
    {
      match this
      case AtMostOnce => 0
      case AtLeastOnce => 1
      case ExactlyOnce => 2
    }
  }

  /** `QoSLevel(n)`: the level with that number, if there is one. */
  function QoSFromInt(n: int): (q: Option<QoSLevel>)
    ensures q.Some? <==> 0 <= n <= 2
    ensures q.Some? ==> q.value.Level() == n
  {
    if n == 0 then Some(AtMostOnce)
    else if n == 1 then Some(AtLeastOnce)
    else if n == 2 then Some(ExactlyOnce)
    else None
  }

  /** Every level is recovered from its number. */
  lemma QoSRoundTrip(q: QoSLevel)
    ensures QoSFromInt(q.Level()) == Some(q)
  {
  }

  datatype MQTTConfig = MQTTConfig(
    host: string,
    port: int,
    username: Option<string>,
    password: Option<string>,
    keepalive: int,
    cleanSession: bool,
    qos: QoSLevel,
    retained: bool,
    lastWillTopic: Option<string>,
    lastWillMessage: Option<string>,
    lastWillQos: QoSLevel)

  predicate ValidMQTTConfig(c: MQTTConfig) {
    1 <= c.port <= 65535 && c.keepalive >= 1
  }

  datatype ProfileConfig = ProfileConfig(name: string, parameters: Params, topic: Option<string>)

  datatype SimulationConfig = SimulationConfig(
    mqtt: MQTTConfig,
    profile: ProfileConfig,
    interval: int,
    duration: Option<int>)

  predicate ValidSimulationConfig(c: SimulationConfig) {
    && ValidMQTTConfig(c.mqtt)
    && 1 <= c.interval <= 3600
    && (c.duration.Some? ==> c.duration.value >= 1)
  }

  /** The field that failed validation. */
  datatype ValidationError = PortOutOfRange | KeepaliveTooSmall | IntervalOutOfRange | DurationTooSmall

  /**
   * Building an `MQTTConfig` from the fields a request gives: absent fields take
   * their defaults (port 1883, keepalive 60, qos 1, last-will qos 0, clean
   * session, not retained), and an out-of-range port or keepalive is refused.
   */
  function MakeMQTTConfig(host: Option<string>, port: Option<int>, username: Option<string>,
                          password: Option<string>, keepalive: Option<int>,
                          qos: Option<QoSLevel>): (r: Result<MQTTConfig, ValidationError>)
    ensures r.Ok? <==> (1 <= port.GetOr(1883) <= 65535 && keepalive.GetOr(60) >= 1)
    ensures r.Ok? ==> ValidMQTTConfig(r.value)
    ensures r.Ok? ==> r.value.host == host.GetOr("localhost") && r.value.port == port.GetOr(1883)
    ensures r.Ok? ==> r.value.keepalive == keepalive.GetOr(60) && r.value.qos == qos.GetOr(AtLeastOnce)
    ensures r.Ok? ==> r.value.lastWillQos == AtMostOnce && r.value.cleanSession && !r.value.retained
    ensures r.Ok? ==> r.value.username == username && r.value.password == password
  {
    var p := port.GetOr(1883);
    var k := keepalive.GetOr(60);
    if !(1 <= p <= 65535) then Err(PortOutOfRange)
    else if k < 1 then Err(KeepaliveTooSmall)
    else Ok(MQTTConfig(host.GetOr("localhost"), p, username, password, k, true,
                       qos.GetOr(AtLeastOnce), false, None, None, AtMostOnce))
  }

  /** A `ProfileConfig` with only its name given: no parameters, no topic override. */
  function MakeProfileConfig(name: string): (c: ProfileConfig)
    ensures c.name == name && c.parameters == map[] && c.topic.None?
  {
    ProfileConfig(name, map[], None)
  }

  /**
   * Building a `SimulationConfig`: the interval defaults to 5 and must lie in
   * [1, 3600]; the duration is absent or at least 1.
   */
  function MakeSimulationConfig(mqtt: MQTTConfig, profile: ProfileConfig,
                                interval: Option<int>, duration: Option<int>): (r: Result<SimulationConfig, ValidationError>)
    requires ValidMQTTConfig(mqtt)
    ensures r.Ok? <==> (1 <= interval.GetOr(5) <= 3600 && (duration.Some? ==> duration.value >= 1))
    ensures r.Ok? ==> ValidSimulationConfig(r.value)
    ensures r.Ok? ==> r.value == SimulationConfig(mqtt, profile, interval.GetOr(5), duration)
  {
    var i := interval.GetOr(5);
    if !(1 <= i <= 3600) then Err(IntervalOutOfRange)
    else if duration.Some? && duration.value < 1 then Err(DurationTooSmall)
    else Ok(SimulationConfig(mqtt, profile, i, duration))
  }

  /** The status snapshot the controller reports. */
  datatype SimulationStatus = SimulationStatus(
    isRunning: bool,
    isConnected: bool,
    profileName: Option<string>,
    topic: Option<string>,
    interval: Option<int>,
    messagesSent: int,
    startTime: Option<string>,
    lastMessage: Option<Reading>)

  /** A status given only the two required flags: every other field at its default. */
  function MakeSimulationStatus(isRunning: bool, isConnected: bool): (s: SimulationStatus)
    ensures s.isRunning == isRunning && s.isConnected == isConnected
    ensures s.messagesSent == 0
    ensures s.profileName.None? && s.topic.None? && s.interval.None?
    ensures s.startTime.None? && s.lastMessage.None?
  {
    SimulationStatus(isRunning, isConnected, None, None, None, 0, None, None)
  }

  /** Information about one profile, as the profile listing reports it. */
  datatype ProfileInfo = ProfileInfo(
    name: string,
    description: string,
    parameters: Params,
    exampleTopic: string,
    examplePayload: Reading)

  /** The reply to a history query. */
  datatype SimulationData<T> = SimulationData(messages: seq<T>, totalCount: int)
}
