/**
 * The simulation controller as a state machine over values: the state record
 * (flags, client, configuration, start time, counter, last message, thread,
 * stop flag) and the message history, and the transitions `start`, `stop`,
 * one iteration of the publishing thread, and cleanup. The controller's
 * classes are proved to follow these transitions; the properties of the
 * controller are proved here, about the transitions.
 */
module Lifecycle {
  import opened Wrappers
  import opened Values
  import opened Clock
  import opened Text
  import opened Models
  import opened Profiles
  import opened Client
  import opened History

  /** The fields of an `MQTTClient` object. */
  datatype ClientView = ClientView(
    brokerHost: string,
    brokerPort: int,
    clientId: string,
    username: Option<string>,
    password: Option<string>,
    keepalive: int,
    credentialsSet: bool,
    isConnected: bool,
    isRunning: bool,
    profile: Option<Profile>,
    publishInterval: Value)

  /** The controller's state record and its message history. */
  datatype ServiceView = ServiceView(
    isRunning: bool,
    isConnected: bool,
    client: Option<ClientView>,
    config: Option<SimulationConfig>,
    startTime: Option<DateTime>,
    messagesSent: int,
    lastMessage: Option<Reading>,
    hasThread: bool,
    stopSet: bool,
    history: seq<HistoryRecord>)

  /** The controller as it is created: idle, nothing stored, empty history. */
  const Initial: ServiceView :=
    ServiceView(false, false, None, None, None, 0, None, false, false, [])

  /**
   * The invariant every transition keeps: the history within its capacity,
   * a counter that never goes negative, a stop flag that is set only while
   * a stop is under way, and an idle controller holds no client and no
   * thread while a running one holds a client with a profile, a
   * configuration and a start time.
   */
  predicate Consistent(v: ServiceView) {
    && |v.history| <= MaxHistory
    && v.messagesSent >= 0
    && (v.stopSet ==> v.isRunning)
    && (!v.isRunning ==> v.client.None? && !v.isConnected && !v.hasThread)
    && (v.isRunning ==> v.client.Some? && v.client.value.profile.Some? && v.hasThread
                        && v.config.Some? && v.startTime.Some?)
  }

  lemma InitialConsistent()
    ensures Consistent(Initial) && !Initial.isRunning && Initial.history == []
  {
  }

  /** `_cleanup_simulation()`: drops the flags, the client, the thread and the stop flag. */
  function Cleanup(v: ServiceView): (w: ServiceView)
    ensures !w.isRunning && !w.isConnected && w.client.None? && !w.hasThread && !w.stopSet
    ensures w.config == v.config && w.startTime == v.startTime && w.messagesSent == v.messagesSent
    ensures w.lastMessage == v.lastMessage && w.history == v.history
  {
    v.(isRunning := false, isConnected := false, client := None, hasThread := false, stopSet := false)
  }

  /** Cleanup keeps the invariant, and on an idle controller it changes nothing. */
  lemma CleanupProperties(v: ServiceView)
    requires Consistent(v)
    ensures Consistent(Cleanup(v))
    ensures !v.isRunning ==> Cleanup(v) == v
  {
  }

  /** The fields of the client `start_simulation` builds from a configuration. */
  function NewClient(config: SimulationConfig, now: nat): (c: ClientView)
    ensures c.brokerHost == config.mqtt.host && c.brokerPort == config.mqtt.port
    ensures c.keepalive == config.mqtt.keepalive && c.publishInterval == Num(config.interval as real)
    ensures !c.isConnected && !c.isRunning && c.profile.None?
  {
    var u := config.mqtt.username;
    var p := config.mqtt.password;
    ClientView(config.mqtt.host, config.mqtt.port, ChooseClientId(None, now), u, p,
               config.mqtt.keepalive, u.Some? && u.value != "" && p.Some? && p.value != "",
               false, false, None, Num(config.interval as real))
  }

  /**
   * The profile instance a start installs: the registered class built from
   * the configured parameters, whose topic is the configured one when that
   * is a non-empty string.
   */
  function StartProfile(cls: ProfileClass, pc: ProfileConfig): (p: Profile)
    ensures ClassOf(p) == cls && Config(p) == pc.parameters
    ensures pc.topic.Some? && pc.topic.value != "" ==> GetTopic(p) == pc.topic.value
    ensures !(pc.topic.Some? && pc.topic.value != "") ==> p == Instantiate(cls, pc.parameters)
  {
    var instance := Instantiate(cls, pc.parameters);
    if pc.topic.Some? && pc.topic.value != "" then WithTopic(instance, pc.topic.value) else instance
  }

  datatype StartResult = Started | AlreadyRunning | UnknownProfile(error: ProfileNotFound) | ConnectFailed

  /**
   * `start_simulation(config)`. `classes`/`names` are the registry, `now` the
   * Unix time the new client takes its id from, `startTime` the clock reading
   * stored as the start time, and `connected` what `connect()` returned.
   * The profile is resolved before the connection is attempted.
   */
  function Start(v: ServiceView, config: SimulationConfig, classes: map<string, ProfileClass>, names: seq<string>,
                 now: nat, startTime: DateTime, connected: bool): (r: (ServiceView, StartResult))
    ensures v.isRunning ==> r == (v, AlreadyRunning)
    ensures r.1 == Started <==> !v.isRunning && config.profile.name in classes && connected
    ensures r.1.UnknownProfile? <==> !v.isRunning && config.profile.name !in classes
    ensures r.1.UnknownProfile? ==> r == (Cleanup(v), UnknownProfile(ProfileNotFound(config.profile.name, names)))
    ensures r.1 == ConnectFailed ==> r.0 == v
  {
    if v.isRunning then (v, AlreadyRunning)
    else if config.profile.name !in classes then
      (Cleanup(v), UnknownProfile(ProfileNotFound(config.profile.name, names)))
    else if !connected then (v, ConnectFailed)
    else
      var p := StartProfile(classes[config.profile.name], config.profile);
      var c := NewClient(config, now).(isConnected := true, profile := Some(p));
      (v.(client := Some(c), config := Some(config), isConnected := true, isRunning := true,
          startTime := Some(startTime), messagesSent := 0, stopSet := false, hasThread := true),
       Started)
  }

  /**
   * The first half of `stop_simulation()` on a running controller: the stop
   * event is set, and a stored client is told to stop and to disconnect,
   * which leaves it not running.
   */
  function SignalStop(v: ServiceView): (w: ServiceView)
    ensures w.stopSet && w.client.Some? == v.client.Some?
    ensures w == v.(stopSet := true, client := w.client)
    ensures w.client.Some? ==> w.client.value == v.client.value.(isRunning := false)
  {
    v.(stopSet := true, client := if v.client.Some? then Some(v.client.value.(isRunning := false)) else None)
  }

  /**
   * `stop_simulation()`: false on an idle controller, which it leaves as it
   * is; otherwise true, and once the stop is signalled (and the thread has
   * been joined) the controller is cleaned up.
   */
  function Stop(v: ServiceView): (r: (ServiceView, bool))
    ensures r.1 <==> v.isRunning
    ensures !v.isRunning ==> r.0 == v
    ensures v.isRunning ==> r.0 == Cleanup(v)
  {
    if !v.isRunning then (v, false) else (Cleanup(SignalStop(v)), true)
  }

  /**
   * What one iteration of the publishing thread sees: the seconds since the
   * thread began, the broker's return code for the publish, the second
   * reading the thread draws from the profile after a successful publish
   * (the controller's class ties it to the profile's `generate_data()`), and
   * the clock reading for the record's time stamp.
   */
  datatype TickInput = TickInput(elapsed: real, rc: int, sample: Reading, recordNow: DateTime)

  /** Whether the iteration's publish succeeds: a connected client with a profile and an accepting broker. */
  predicate Publishes(v: ServiceView, t: TickInput) {
    v.client.Some? && v.client.value.isConnected && v.client.value.profile.Some? && t.rc == MQTT_ERR_SUCCESS
  }

  /** The record a successful iteration adds to the history. */
  function RecordOf(p: Profile, t: TickInput): (rec: HistoryRecord)
    ensures rec.topic == GetTopic(p) && rec.timestamp == IsoFormat(t.recordNow) && rec.payload == t.sample
  {
    HistoryRecord(IsoFormat(t.recordNow), GetTopic(p), t.sample)
  }

  /**
   * The publishing part of one iteration: a successful publish counts one
   * message, stores the recorded reading as the last message and appends
   * its record to the history, dropping the oldest record past 100. Nothing
   * else changes, and nothing changes at all when the publish fails.
   */
  function AfterPublish(v: ServiceView, t: TickInput): (w: ServiceView)
    ensures Publishes(v, t) ==>
              && w.messagesSent == v.messagesSent + 1
              && w.history == Pushed(v.history, RecordOf(v.client.value.profile.value, t), MaxHistory)
              && w.lastMessage == Some(t.sample)
    ensures !Publishes(v, t) ==> w == v
    ensures w == v.(messagesSent := w.messagesSent, lastMessage := w.lastMessage, history := w.history)
  {
    if Publishes(v, t) then
      var rec := RecordOf(v.client.value.profile.value, t);
      v.(messagesSent := v.messagesSent + 1, lastMessage := Some(rec.payload),
         history := Pushed(v.history, rec, MaxHistory))
    else v
  }

  /**
   * One iteration of `_run_simulation(duration)`. A set stop flag or an
   * exceeded duration ends the thread, which cleans up (the second result is
   * false). Otherwise the iteration publishes and the thread goes on.
   */
  function Tick(v: ServiceView, duration: Option<int>, t: TickInput): (r: (ServiceView, bool))
    ensures !r.1 <==> v.stopSet || Expired(duration, t.elapsed)
    ensures !r.1 ==> r.0 == Cleanup(v)
    ensures r.1 ==> r.0 == AfterPublish(v, t)
  {
    if v.stopSet || Expired(duration, t.elapsed) then (Cleanup(v), false)
    else (AfterPublish(v, t), true)
  }

  /**
   * The thread's next look at the stop event after a stop was signalled,
   * while `stop_simulation()` waits in the join: the thread ends and cleans
   * up, leaving what the stop itself leaves, and the stop's own cleanup
   * afterwards changes nothing more.
   */
  lemma {:induction false} SignalledStopEndsThread(v: ServiceView, duration: Option<int>, t: TickInput)
    requires Consistent(v) && v.isRunning
    ensures var (w, goOn) := Tick(SignalStop(v), duration, t);
            && Consistent(SignalStop(v))
            && !goOn && w == Stop(v).0 && Cleanup(w) == w
  {
    var s := SignalStop(v);
    assert Cleanup(s) == Cleanup(v);
  }

  /**
   * A thread that outlives its run (one not joined within the stop's
   * timeout, which cleared the stop event again) keeps iterating on an idle
   * controller, and its iterations change nothing: there is no client to
   * publish with.
   */
  lemma IdleTickChangesNothing(v: ServiceView, duration: Option<int>, t: TickInput)
    requires Consistent(v) && !v.isRunning
    ensures Tick(v, duration, t).0 == v
  {
    CleanupProperties(v);
  }

  /** `get_simulation_status()`. */
  function StatusOf(v: ServiceView): (s: SimulationStatus)
    ensures s.isRunning == v.isRunning && s.isConnected == v.isConnected
    ensures s.messagesSent == v.messagesSent && s.lastMessage == v.lastMessage
    ensures s.profileName.Some? <==> v.config.Some?
    ensures v.config.Some? ==> s.profileName == Some(v.config.value.profile.name) && s.interval == Some(v.config.value.interval)
    ensures s.topic.Some? <==> v.client.Some? && v.client.value.profile.Some?
    ensures s.topic.Some? ==> s.topic.value == GetTopic(v.client.value.profile.value)
    ensures s.startTime.Some? <==> v.startTime.Some?
    ensures v.startTime.Some? ==> s.startTime == Some(IsoFormat(v.startTime.value))
  {
    SimulationStatus(
      v.isRunning,
      v.isConnected,
      if v.config.Some? then Some(v.config.value.profile.name) else None,
      if v.client.Some? && v.client.value.profile.Some? then Some(GetTopic(v.client.value.profile.value)) else None,
      if v.config.Some? then Some(v.config.value.interval) else None,
      v.messagesSent,
      if v.startTime.Some? then Some(IsoFormat(v.startTime.value)) else None,
      v.lastMessage)
  }

  /** `get_simulation_data(limit)`. */
  function DataOf(v: ServiceView, limit: int): (d: SimulationData<HistoryRecord>)
    ensures d.totalCount == v.messagesSent
    ensures limit >= 1 ==> |d.messages| == (if |v.history| <= limit then |v.history| else limit)
    ensures limit >= 1 ==> forall i :: 0 <= i < |d.messages| ==> d.messages[i] == v.history[|v.history| - |d.messages| + i]
  {
    SimulationData(Recent(v.history, limit), v.messagesSent)
  }

  // ---- Properties of the controller ----

  /** Every transition keeps the invariant. */
  lemma StartConsistent(v: ServiceView, config: SimulationConfig, classes: map<string, ProfileClass>, names: seq<string>,
                        now: nat, startTime: DateTime, connected: bool)
    requires Consistent(v)
    ensures Consistent(Start(v, config, classes, names, now, startTime, connected).0)
  {
  }

  lemma StopConsistent(v: ServiceView)
    requires Consistent(v)
    ensures Consistent(Stop(v).0)
  {
  }

  lemma TickConsistent(v: ServiceView, duration: Option<int>, t: TickInput)
    requires Consistent(v)
    ensures Consistent(Tick(v, duration, t).0)
  {
  }

  /**
   * A start while running changes nothing. A start that cannot resolve its
   * profile or connect leaves the controller idle, with no client stored,
   * and keeps the stored configuration, counter and history.
   */
  lemma FailedStartLeavesIdle(v: ServiceView, config: SimulationConfig, classes: map<string, ProfileClass>, names: seq<string>,
                              now: nat, startTime: DateTime, connected: bool)
    requires Consistent(v)
    ensures var (w, res) := Start(v, config, classes, names, now, startTime, connected);
            res != Started && !v.isRunning ==>
              && !w.isRunning && w.client.None? && !w.isConnected
              && w.config == v.config && w.messagesSent == v.messagesSent && w.history == v.history
  {
  }

  /**
   * A successful start: running and connected, the counter at 0, the client
   * and configuration stored, the stop flag clear, and the history untouched.
   * The status then reports the configured profile, interval and start time,
   * and the configured topic when one was given.
   */
  lemma StartedState(v: ServiceView, config: SimulationConfig, classes: map<string, ProfileClass>, names: seq<string>,
                     now: nat, startTime: DateTime)
    requires Consistent(v) && !v.isRunning && config.profile.name in classes
    ensures var (w, res) := Start(v, config, classes, names, now, startTime, true);
            && res == Started
            && w.isRunning && w.isConnected && w.messagesSent == 0 && !w.stopSet && w.hasThread
            && w.config == Some(config) && w.history == v.history
            && w.client.Some? && w.client.value.brokerHost == config.mqtt.host
            && w.client.value.brokerPort == config.mqtt.port
            && w.client.value.profile.Some?
            && ClassOf(w.client.value.profile.value) == classes[config.profile.name]
            && StatusOf(w).profileName == Some(config.profile.name)
            && StatusOf(w).interval == Some(config.interval)
            && StatusOf(w).startTime == Some(IsoFormat(startTime))
            && (config.profile.topic.Some? && config.profile.topic.value != "" ==>
                  StatusOf(w).topic == config.profile.topic)
  {
  }

  /**
   * After a stop the status reports an idle, disconnected controller with no
   * topic, while the configuration, start time, counter and last message of
   * the run survive.
   */
  lemma StatusAfterStop(v: ServiceView)
    requires Consistent(v) && v.isRunning
    ensures var s := StatusOf(Stop(v).0);
            && !s.isRunning && !s.isConnected && s.topic.None?
            && s.profileName == Some(v.config.value.profile.name)
            && s.interval == Some(v.config.value.interval)
            && s.startTime == Some(IsoFormat(v.startTime.value))
            && s.messagesSent == v.messagesSent
            && s.lastMessage == v.lastMessage
  {
  }

  /** A run of iterations, for as long as the thread keeps going. */
  function Run(v: ServiceView, duration: Option<int>, ts: seq<TickInput>): ServiceView
    decreases ts
  {
    if ts == [] then v
    else
      var (w, goOn) := Tick(v, duration, ts[0]);
      if goOn then Run(w, duration, ts[1..]) else w
  }

  /** The records a run of successful iterations adds, one per iteration. */
  function Records(p: Profile, ts: seq<TickInput>): (recs: seq<HistoryRecord>)
    ensures |recs| == |ts|
    ensures forall i :: 0 <= i < |ts| ==> recs[i] == RecordOf(p, ts[i])
  {
    if ts == [] then []
    else
      [RecordOf(p, ts[0])] + Records(p, ts[1..])
  }

  /**
   * With no stop signalled, N iterations that each publish successfully,
   * within the duration, count exactly N messages. The history is then the
   * last 100 of the old history followed by one record per iteration, each
   * on the profile's topic, and the client and configuration are unchanged.
   */
  lemma {:induction false} SuccessfulRun(v: ServiceView, duration: Option<int>, ts: seq<TickInput>)
    requires Consistent(v) && v.isRunning && !v.stopSet && v.client.value.isConnected
    requires forall i :: 0 <= i < |ts| ==> ts[i].rc == MQTT_ERR_SUCCESS && !Expired(duration, ts[i].elapsed)
    ensures var w := Run(v, duration, ts);
            && w.messagesSent == v.messagesSent + |ts|
            && w.history == LastN(v.history + Records(v.client.value.profile.value, ts), MaxHistory)
            && w.client == v.client && w.config == v.config && w.isRunning
            && Consistent(w)
    decreases ts
  {
    var p := v.client.value.profile.value;
    if ts == [] {
      assert v.history + Records(p, ts) == v.history;
      PushAllKeepsLast(v.history, [], MaxHistory);
    } else {
      var w := Tick(v, duration, ts[0]).0;
      assert Publishes(v, ts[0]);
      TickConsistent(v, duration, ts[0]);
      SuccessfulRun(w, duration, ts[1..]);
      var rest := Records(p, ts[1..]);
      assert Records(p, ts) == [RecordOf(p, ts[0])] + rest;
      PushAllKeepsLast(v.history, Records(p, ts), MaxHistory);
      PushAllKeepsLast(w.history, rest, MaxHistory);
      assert w.history == Pushed(v.history, RecordOf(p, ts[0]), MaxHistory);
      assert PushAll(v.history, Records(p, ts), MaxHistory) == PushAll(w.history, rest, MaxHistory);
    }
  }

  /**
   * Every record a run adds to the history is on the running profile's
   * topic, which is the configured topic when one was given: any record in
   * the history afterwards either was there before or carries that topic.
   */
  lemma {:induction false} RunRecordsTopic(v: ServiceView, duration: Option<int>, ts: seq<TickInput>)
    requires Consistent(v) && v.isRunning
    ensures var w := Run(v, duration, ts);
            forall r :: r in w.history ==> r in v.history || r.topic == GetTopic(v.client.value.profile.value)
    decreases ts
  {
    if ts != [] {
      var (w, goOn) := Tick(v, duration, ts[0]);
      TickConsistent(v, duration, ts[0]);
      if goOn {
        assert w.client == v.client && w.isRunning;
        RunRecordsTopic(w, duration, ts[1..]);
      }
    }
  }

  /**
   * Starting with a topic override and running: the status reports the
   * configured topic, and every record the run adds carries it.
   */
  lemma OverriddenTopicRun(v: ServiceView, config: SimulationConfig, classes: map<string, ProfileClass>, names: seq<string>,
                           now: nat, startTime: DateTime, duration: Option<int>, ts: seq<TickInput>)
    requires Consistent(v) && !v.isRunning && config.profile.name in classes
    requires config.profile.topic.Some? && config.profile.topic.value != ""
    ensures var w := Start(v, config, classes, names, now, startTime, true).0;
            var u := Run(w, duration, ts);
            && StatusOf(w).topic == config.profile.topic
            && (u.isRunning ==> StatusOf(u).topic == config.profile.topic)
            && forall r :: r in u.history ==> r in v.history || r.topic == config.profile.topic.value
  {
    var w := Start(v, config, classes, names, now, startTime, true).0;
    StartConsistent(v, config, classes, names, now, startTime, true);
    RunRecordsTopic(w, duration, ts);
    RunKeepsClient(w, duration, ts);
  }

  /** A run that is still going holds the client it started with. */
  lemma {:induction false} RunKeepsClient(v: ServiceView, duration: Option<int>, ts: seq<TickInput>)
    requires Consistent(v)
    ensures var w := Run(v, duration, ts);
            Consistent(w) && (w.isRunning ==> w.client == v.client && w.config == v.config)
    decreases ts
  {
    if ts != [] {
      var (w, goOn) := Tick(v, duration, ts[0]);
      TickConsistent(v, duration, ts[0]);
      if goOn {
        RunKeepsClient(w, duration, ts[1..]);
      }
    }
  }
}
