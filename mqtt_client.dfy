/**
 * The MQTT client of the simulator: its connection and running flags, the
 * profile it publishes from, and the broker calls it makes. The broker is
 * outside the model: every return code it would give is a parameter.
 */
module Client {
  import opened Wrappers
  import opened Values
  import opened Clock
  import opened Text
  import ProfileBase
  import opened Profiles

  /** The broker's success return code. */
  const MQTT_ERR_SUCCESS: int := 0

  /** The quality of service every simulated reading is published with. */
  const PublishQos: int := 1

  /** One `publish(topic, payload, qos)` call made to the broker. */
  datatype Publication = Publication(topic: string, payload: Reading, qos: int)

  /** The error `start_simulation` raises without a profile. */
  datatype NoProfileSet = NoProfileSet

  /**
   * The client id a new client uses: the one given when it is a non-empty
   * string, otherwise `mqtt_simulator_` followed by the current Unix time in
   * whole seconds.
   */
  function ChooseClientId(clientId: Option<string>, now: nat): (id: string)
    ensures clientId.Some? && clientId.value != "" ==> id == clientId.value
    ensures !(clientId.Some? && clientId.value != "") ==>
              |id| > 15 && id[..15] == "mqtt_simulator_" && AllDigits(id[15..]) && DigitsValue(id[15..]) == now
  {
    if clientId.Some? && clientId.value != "" then clientId.value
    else
      var id := "mqtt_simulator_" + NatToString(now);
      NatToStringRoundTrip(now);
      assert id[15..] == NatToString(now);
      id
  }

  /** `publish_data()`'s broker call: none without a connection or a profile. */
  function PublishCall(connected: bool, profile: Option<Profile>, d: Draws, now: DateTime): (call: Option<Publication>)
    ensures call.Some? <==> connected && profile.Some?
    ensures call.Some? ==> call.value.topic == GetTopic(profile.value) && call.value.qos == 1
    ensures call.Some? ==> call.value.payload == Profiles.GenerateData(profile.value, d, now)
  {
    if !connected || profile.None? then None
    else Some(Publication(GetTopic(profile.value), Profiles.GenerateData(profile.value, d, now), PublishQos))
  }

  /**
   * The state `start_simulation`'s loop sees at the top of one iteration:
   * whether a `stop_simulation()` has cleared the running flag, the seconds
   * elapsed since the loop began, the connection flag as the broker's
   * `_on_connect`/`_on_disconnect` callbacks have left it, the broker's
   * return code for this iteration's publish, the random draws and the clock.
   */
  datatype Tick = Tick(stopRequested: bool, elapsed: real, connected: bool, rc: int, draws: Draws, now: DateTime)

  /**
   * Whether `connect()` succeeds for a client that is not yet connected: the
   * broker call does not raise and one of the `_on_connect` callbacks that
   * arrive within the timeout carries return code 0.
   */
  predicate Connects(raised: bool, callbacks: seq<int>) {
    !raised && exists i :: 0 <= i < |callbacks| && callbacks[i] == 0
  }

  /**
   * `duration and elapsed > duration`: the run is over. An absent duration and
   * a duration of 0 never end it.
   */
  predicate Expired(duration: Option<int>, elapsed: real) {
    duration.Some? && duration.value != 0 && elapsed > duration.value as real
  }

  /** The readings the profile generates for the iterations' draws and clock readings. */
  function Payloads(p: Profile, ticks: seq<Tick>): (r: seq<Reading>)
    ensures |r| == |ticks|
    ensures forall i :: 0 <= i < |ticks| ==> r[i] == Profiles.GenerateData(p, ticks[i].draws, ticks[i].now)
  {
    seq(|ticks|, i requires 0 <= i < |ticks| => Profiles.GenerateData(p, ticks[i].draws, ticks[i].now))
  }

  lemma AppendAssoc<T>(a: seq<T>, b: seq<T>, c: seq<T>)
    ensures a + b + c == a + (b + c)
  {
  }

  /** Publications all made to `topic` with qos 1. */
  predicate AllOnTopic(sent: seq<Publication>, topic: string) {
    forall j :: 0 <= j < |sent| ==> sent[j].topic == topic && sent[j].qos == PublishQos
  }

  /** The successful publication one iteration makes, if any. */
  function TickSent(connected: bool, topic: string, t: Tick, payload: Reading): (sent: seq<Publication>)
    ensures |sent| <= 1 && (|sent| == 1 <==> connected && t.rc == MQTT_ERR_SUCCESS)
    ensures |sent| == 1 ==> sent[0].payload == payload
    ensures AllOnTopic(sent, topic)
  {
    if connected && t.rc == MQTT_ERR_SUCCESS then [Publication(topic, payload, PublishQos)] else []
  }

  /**
   * The publications `start_simulation`'s loop makes that the broker accepts,
   * given the iterations it runs through and the reading each iteration
   * publishes: one per iteration until a stop request or the end of the
   * duration.
   */
  function RunPublications(topic: string, duration: Option<int>,
                           ticks: seq<Tick>, payloads: seq<Reading>): seq<Publication>
    requires |payloads| == |ticks|
  {
    if ticks == [] || ticks[0].stopRequested || Expired(duration, ticks[0].elapsed) then []
    else TickSent(ticks[0].connected, topic, ticks[0], payloads[0])
         + RunPublications(topic, duration, ticks[1..], payloads[1..])
  }

  /**
   * The connection flag a run leaves behind: that of the last iteration it
   * went through, or `connected` when it went through none.
   */
  function ConnectedAfter(connected: bool, duration: Option<int>, ticks: seq<Tick>): bool
    decreases |ticks|
  {
    if ticks == [] || ticks[0].stopRequested || Expired(duration, ticks[0].elapsed) then connected
    else ConnectedAfter(ticks[0].connected, duration, ticks[1..])
  }

  lemma ConnectedAfterFrom(connected: bool, duration: Option<int>, ticks: seq<Tick>, i: nat)
    requires i < |ticks| && !ticks[i].stopRequested && !Expired(duration, ticks[i].elapsed)
    ensures ConnectedAfter(connected, duration, ticks[i..]) == ConnectedAfter(ticks[i].connected, duration, ticks[i + 1..])
  {
    assert ticks[i..][0] == ticks[i] && ticks[i..][1..] == ticks[i + 1..];
  }

  lemma RunPublicationsFrom(topic: string, duration: Option<int>,
                            ticks: seq<Tick>, payloads: seq<Reading>, i: nat)
    requires |payloads| == |ticks| && i < |ticks|
    ensures ticks[i].stopRequested || Expired(duration, ticks[i].elapsed) ==>
              RunPublications(topic, duration, ticks[i..], payloads[i..]) == []
    ensures !(ticks[i].stopRequested || Expired(duration, ticks[i].elapsed)) ==>
              RunPublications(topic, duration, ticks[i..], payloads[i..])
              == TickSent(ticks[i].connected, topic, ticks[i], payloads[i])
                 + RunPublications(topic, duration, ticks[i + 1..], payloads[i + 1..])
  {
    assert ticks[i..][0] == ticks[i] && payloads[i..][0] == payloads[i];
    assert ticks[i..][1..] == ticks[i + 1..] && payloads[i..][1..] == payloads[i + 1..];
  }

  /** Every successful publication of a run goes to the run's topic with qos 1. */
  lemma {:induction false} RunPublicationsTopic(topic: string, duration: Option<int>,
                                                ticks: seq<Tick>, payloads: seq<Reading>)
    requires |payloads| == |ticks|
    ensures AllOnTopic(RunPublications(topic, duration, ticks, payloads), topic)
  {
    if ticks != [] && !ticks[0].stopRequested && !Expired(duration, ticks[0].elapsed) {
      RunPublicationsTopic(topic, duration, ticks[1..], payloads[1..]);
      var head: seq<Publication> := TickSent(ticks[0].connected, topic, ticks[0], payloads[0]);
      var rest: seq<Publication> := RunPublications(topic, duration, ticks[1..], payloads[1..]);
      forall j | |head| <= j < |head + rest|
        ensures (head + rest)[j] == rest[j - |head|]
      {
      }
    }
  }

  /** A run publishes at most once per iteration, and nothing while the connection is down throughout. */
  lemma {:induction false} RunPublicationsCount(topic: string, duration: Option<int>,
                                                ticks: seq<Tick>, payloads: seq<Reading>)
    requires |payloads| == |ticks|
    ensures |RunPublications(topic, duration, ticks, payloads)| <= |ticks|
    ensures (forall i :: 0 <= i < |ticks| ==> !ticks[i].connected) ==> RunPublications(topic, duration, ticks, payloads) == []
  {
    if ticks != [] && !ticks[0].stopRequested && !Expired(duration, ticks[0].elapsed) {
      RunPublicationsCount(topic, duration, ticks[1..], payloads[1..]);
    }
  }

  /**
   * Nothing is published at or after an iteration that finds the duration
   * exceeded: a run is a function of the iterations before the first such one.
   */
  lemma {:induction false} RunStopsAtExpiry(topic: string, duration: Option<int>,
                                            ticks: seq<Tick>, payloads: seq<Reading>, k: nat)
    requires |payloads| == |ticks|
    requires k < |ticks| && Expired(duration, ticks[k].elapsed)
    ensures RunPublications(topic, duration, ticks, payloads)
            == RunPublications(topic, duration, ticks[..k], payloads[..k])
  {
    if k > 0 && !ticks[0].stopRequested && !Expired(duration, ticks[0].elapsed) {
      RunStopsAtExpiry(topic, duration, ticks[1..], payloads[1..], k - 1);
      assert ticks[..k][1..] == ticks[1..][..k - 1];
      assert payloads[..k][1..] == payloads[1..][..k - 1];
    }
  }

  /**
   * With no duration, or a duration of 0, a run that stays connected and
   * whose broker always accepts publishes every iteration's reading, in
   * order, when no stop is requested.
   */
  lemma {:induction false} UnboundedRunPublishesEveryTick(topic: string, duration: Option<int>,
                                                          ticks: seq<Tick>, payloads: seq<Reading>)
    requires |payloads| == |ticks|
    requires duration.None? || duration.value == 0
    requires forall i :: 0 <= i < |ticks| ==> !ticks[i].stopRequested && ticks[i].connected && ticks[i].rc == MQTT_ERR_SUCCESS
    ensures var sent := RunPublications(topic, duration, ticks, payloads);
            |sent| == |ticks| && forall i :: 0 <= i < |sent| ==> sent[i].payload == payloads[i]
  {
    if ticks != [] {
      UnboundedRunPublishesEveryTick(topic, duration, ticks[1..], payloads[1..]);
      var rest := RunPublications(topic, duration, ticks[1..], payloads[1..]);
      var sent := RunPublications(topic, duration, ticks, payloads);
      assert sent == TickSent(ticks[0].connected, topic, ticks[0], payloads[0]) + rest;
      forall i | 1 <= i < |sent|
        ensures sent[i] == rest[i - 1]
      {
      }
    }
  }

  class MQTTClient {
    var brokerHost: string
    var brokerPort: int
    var clientId: string
    var username: Option<string>
    var password: Option<string>
    var keepalive: int
    /** Whether `username_pw_set` was called on the broker client. */
    var credentialsSet: bool
    var isConnected: bool
    var isRunning: bool
    var profile: Option<Profile>
    var publishInterval: Value

    /**
     * A new client: not connected, not running, no profile, and the
     * `interval` keyword (or 5) as its publish interval. Credentials are
     * handed to the broker client only when both are non-empty.
     */
    constructor (brokerHost: string, brokerPort: int, clientId: Option<string>,
                 username: Option<string>, password: Option<string>, keepalive: int,
                 kwargs: Params, now: nat)
      ensures this.brokerHost == brokerHost && this.brokerPort == brokerPort
      ensures this.clientId == ChooseClientId(clientId, now)
      ensures this.username == username && this.password == password && this.keepalive == keepalive
      ensures credentialsSet <==> username.Some? && username.value != "" && password.Some? && password.value != ""
      ensures !isConnected && !isRunning && profile.None?
      ensures "interval" in kwargs ==> publishInterval == kwargs["interval"]
      ensures "interval" !in kwargs ==> publishInterval == Num(5.0)
    {
      this.brokerHost := brokerHost;
      this.brokerPort := brokerPort;
      this.clientId := ChooseClientId(clientId, now);
      this.username := username;
      this.password := password;
      this.keepalive := keepalive;
      credentialsSet := username.Some? && username.value != "" && password.Some? && password.value != "";
      isConnected := false;
      isRunning := false;
      profile := None;
      publishInterval := ProfileBase.GetInterval(kwargs);
    }

    /** `_on_connect`: return code 0 marks the client connected; any other leaves the flag alone. */
    method OnConnect(rc: int)
      modifies this`isConnected
      ensures isConnected == (old(isConnected) || rc == 0)
    {
      if rc == 0 {
        isConnected := true;
      }
    }

    /** `_on_disconnect`: whatever the return code, the client is no longer connected. */
    method OnDisconnect(rc: int)
      modifies this`isConnected
      ensures !isConnected
    {
      isConnected := false;
    }

    /**
     * `connect()`. When the broker call raises, the result is false. Otherwise
     * the client waits for `_on_connect` callbacks, given here in the order
     * the network thread delivers them within the timeout, and stops waiting
     * at the first one that connects. The result is the connected flag.
     */
    method Connect(raised: bool, callbacks: seq<int>) returns (ok: bool)
      modifies this`isConnected
      ensures raised ==> !ok && isConnected == old(isConnected)
      ensures !raised ==> ok == isConnected
      ensures !raised ==> (ok <==> old(isConnected) || Connects(raised, callbacks))
    {
      if raised {
        return false;
      }
      var i := 0;
      while !isConnected && i < |callbacks|
        invariant 0 <= i <= |callbacks|
        invariant isConnected <==> old(isConnected) || exists j :: 0 <= j < i && callbacks[j] == 0
      {
        OnConnect(callbacks[i]);
        i := i + 1;
      }
      ok := isConnected;
    }

    /**
     * `disconnect()`: only a connected client does anything, and what it does
     * to its own flags is to stop running. The connected flag falls when the
     * broker's `_on_disconnect` callback arrives.
     */
    method Disconnect()
      modifies this`isRunning
      ensures old(isConnected) ==> !isRunning
      ensures !old(isConnected) ==> isRunning == old(isRunning)
    {
      if isConnected {
        isRunning := false;
      }
    }

    /**
     * `set_profile(name, **config)`: an instance of the registered class built
     * from `config`, whose interval becomes the publish interval. An unknown
     * name raises and changes nothing.
     */
    method SetProfile(name: string, config: Params, registry: ProfileRegistry) returns (r: Outcome<ProfileNotFound>)
      modifies this`profile, this`publishInterval
      ensures r.Fail? <==> name !in registry.classes
      ensures r.Fail? ==> r.error == ProfileNotFound(name, registry.names)
      ensures r.Fail? ==> profile == old(profile) && publishInterval == old(publishInterval)
      ensures r.Pass? ==> profile == Some(Instantiate(registry.classes[name], config))
      ensures r.Pass? ==> publishInterval == ProfileBase.GetInterval(config)
    {
      var cls := registry.GetProfile(name);
      if cls.Err? {
        return Fail(cls.error);
      }
      var instance := Instantiate(cls.value, config);
      profile := Some(instance);
      publishInterval := GetInterval(instance);
      InstanceInterval(cls.value, config);
      r := Pass;
    }

    /**
     * `publish_data()`: without a connection or a profile the broker is not
     * called and the result is false; otherwise one reading is published to
     * the profile's topic with qos 1 and the result is whether the broker
     * accepted it.
     */
    method PublishData(rc: int, d: Draws, now: DateTime) returns (ok: bool, call: Option<Publication>)
      ensures call == PublishCall(isConnected, profile, d, now)
      ensures ok <==> isConnected && profile.Some? && rc == MQTT_ERR_SUCCESS
    {
      if !isConnected || profile.None? {
        return false, None;
      }
      var p := profile.value;
      call := Some(Publication(GetTopic(p), Profiles.GenerateData(p, d, now), PublishQos));
      ok := rc == MQTT_ERR_SUCCESS;
    }

    /**
     * `start_simulation(duration)`: without a profile it raises before
     * anything changes. Otherwise it runs the publish loop over `ticks` and
     * leaves the client not running. The broker's callbacks, which run beside
     * the loop, set the connection flag each iteration sees. When the ticks
     * run out before a stop request or the end of the duration, the loop is
     * taken to have been interrupted there.
     */
    method StartSimulation(duration: Option<int>, ticks: seq<Tick>) returns (r: Outcome<NoProfileSet>, sent: seq<Publication>)
      modifies this`isRunning, this`isConnected
      ensures old(profile).None? ==> r == Fail(NoProfileSet) && sent == [] && isRunning == old(isRunning)
      ensures old(profile).None? ==> isConnected == old(isConnected)
      ensures old(profile).Some? ==> r == Pass && !isRunning
      ensures old(profile).Some? ==> isConnected == ConnectedAfter(old(isConnected), duration, ticks)
      ensures old(profile).Some? ==>
                sent == RunPublications(GetTopic(profile.value), duration, ticks, Payloads(profile.value, ticks))
    {
      if profile.None? {
        return Fail(NoProfileSet), [];
      }
      isRunning := true;
      sent := RunLoop(duration, ticks);
      isRunning := false;
      r := Pass;
    }

    /** The publish loop of `start_simulation(duration)` over `ticks`. */
    method RunLoop(duration: Option<int>, ticks: seq<Tick>) returns (sent: seq<Publication>)
      requires profile.Some?
      modifies this`isConnected
      ensures isConnected == ConnectedAfter(old(isConnected), duration, ticks)
      ensures sent == RunPublications(GetTopic(profile.value), duration, ticks, Payloads(profile.value, ticks))
    {
      var p := profile.value;
      ghost var topic := GetTopic(p);
      ghost var payloads := Payloads(p, ticks);
      ghost var connected0 := isConnected;
      sent := [];
      var i := 0;
      while i < |ticks|
        invariant 0 <= i <= |ticks|
        invariant sent + RunPublications(topic, duration, ticks[i..], payloads[i..])
                  == RunPublications(topic, duration, ticks, payloads)
        invariant ConnectedAfter(isConnected, duration, ticks[i..]) == ConnectedAfter(connected0, duration, ticks)
      {
        var t := ticks[i];
        RunPublicationsFrom(topic, duration, ticks, payloads, i);
        if t.stopRequested || Expired(duration, t.elapsed) {
          break;
        }
        ConnectedAfterFrom(isConnected, duration, ticks, i);
        var out := PublishTick(t);
        AppendAssoc(sent, out, RunPublications(topic, duration, ticks[i + 1..], payloads[i + 1..]));
        sent := sent + out;
        i := i + 1;
      }
    }

    /**
     * One iteration: the connection flag as the callbacks left it, then
     * `publish_data()`, as the publications the broker accepts.
     */
    method PublishTick(t: Tick) returns (sent: seq<Publication>)
      requires profile.Some?
      modifies this`isConnected
      ensures isConnected == t.connected
      ensures sent == TickSent(t.connected, GetTopic(profile.value), t,
                               Profiles.GenerateData(profile.value, t.draws, t.now))
    {
      isConnected := t.connected;
      var ok, call := PublishData(t.rc, t.draws, t.now);
      sent := if ok then [call.value] else [];
    }

    /** `stop_simulation()`: the loop stops at its next check. */
    method StopSimulation()
      modifies this`isRunning
      ensures !isRunning
    {
      isRunning := false;
    }

    /**
     * `subscribe(topic, qos)`: without a connection the broker is not called
     * and the result is false; otherwise the result is whether the broker
     * accepted the subscription.
     */
    method Subscribe(topic: string, qos: int, rc: int) returns (ok: bool, call: Option<(string, int)>)
      ensures call.Some? <==> isConnected
      ensures call.Some? ==> call.value == (topic, qos)
      ensures ok <==> isConnected && rc == MQTT_ERR_SUCCESS
    {
      if !isConnected {
        return false, None;
      }
      call := Some((topic, qos));
      ok := rc == MQTT_ERR_SUCCESS;
    }
  }
}
