/**
 * The API's simulation service: the state record, the message history and
 * the operations the HTTP routes call. Each operation that changes the
 * service is proved to follow the matching transition of `Lifecycle`, where
 * the controller's properties are proved.
 */
module Service {
  import opened Wrappers
  import opened Values
  import opened Clock
  import opened Text
  import opened Models
  import opened Profiles
  import opened Client
  import opened History
  import opened Lifecycle

  /** The fields of a client object, as a value. */
  function ClientOf(c: MQTTClient): ClientView
    reads c
  {
    ClientView(c.brokerHost, c.brokerPort, c.clientId, c.username, c.password, c.keepalive,
               c.credentialsSet, c.isConnected, c.isRunning, c.profile, c.publishInterval)
  }

  /**
   * `SimulationState`. `hasThread` stands for a thread being stored and
   * `stopSet` for the stop event being set.
   */
  class SimulationState {
    var isRunning: bool
    var isConnected: bool
    var client: MQTTClient?
    var config: Option<SimulationConfig>
    var startTime: Option<DateTime>
    var messagesSent: int
    var lastMessage: Option<Reading>
    var hasThread: bool
    var stopSet: bool

    /** The dataclass defaults. */
    constructor ()
      ensures !isRunning && !isConnected && client == null && config.None? && startTime.None?
      ensures messagesSent == 0 && lastMessage.None? && !hasThread && !stopSet
    {
      isRunning := false;
      isConnected := false;
      client := null;
      config := None;
      startTime := None;
      messagesSent := 0;
      lastMessage := None;
      hasThread := false;
      stopSet := false;
    }
  }

  /**
   * What the publishing thread stores after a successful publish: a second
   * reading drawn from the client's profile. Without a profile nothing is
   * drawn, and the empty reading stands in (it is never stored).
   */
  function SampleOf(client: Option<ClientView>, d: Draws, now: DateTime): Reading {
    if client.Some? && client.value.profile.Some? then GenerateData(client.value.profile.value, d, now) else map[]
  }

  /** The listing entry of a profile whose default instance produced an example. */
  function ExampleInfo(name: string, cls: ProfileClass, d: Draws, now: DateTime): ProfileInfo {
    var instance := Instantiate(cls, map[]);
    ProfileInfo(name, DocString(cls), Config(instance), GetTopic(instance), GenerateData(instance, d, now))
  }

  /** The listing entry of a profile whose example raised. */
  function FallbackInfo(name: string): ProfileInfo {
    ProfileInfo(name, Title(name) + " data simulation profile", map[], name + "/example",
                map["error" := Str("Could not generate example")])
  }

  /** The listing entry of one registered profile. */
  function EntryInfo(entry: (string, ProfileClass), example: (Draws, DateTime), failing: set<string>): (info: ProfileInfo)
    ensures info.name == entry.0
  {
    if entry.0 in failing then FallbackInfo(entry.0) else ExampleInfo(entry.0, entry.1, example.0, example.1)
  }

  /**
   * The first `n` entries of the listing of the registry's entries, each
   * made with its example's draws and clock reading.
   */
  function Listing(entries: seq<(string, ProfileClass)>, examples: seq<(Draws, DateTime)>, failing: set<string>,
                   n: nat): (infos: seq<ProfileInfo>)
    requires n <= |entries| && |examples| == |entries|
    ensures |infos| == n
  {
    if n == 0 then [] else Listing(entries, examples, failing, n - 1) + [EntryInfo(entries[n - 1], examples[n - 1], failing)]
  }

  /** Appending an element leaves the earlier positions as they were. */
  lemma SnocAt<T>(s: seq<T>, x: T, i: nat)
    requires i < |s|
    ensures (s + [x])[i] == s[i]
  {
  }

  /** Entry `i` of the listing is the entry of the `i`-th registered profile. */
  lemma {:induction false} ListingAt(entries: seq<(string, ProfileClass)>, examples: seq<(Draws, DateTime)>,
                                     failing: set<string>, n: nat, i: nat)
    requires n <= |entries| && |examples| == |entries| && i < n
    ensures Listing(entries, examples, failing, n)[i] == EntryInfo(entries[i], examples[i], failing)
  {
    if i < n - 1 {
      ListingAt(entries, examples, failing, n - 1, i);
      SnocAt(Listing(entries, examples, failing, n - 1), EntryInfo(entries[n - 1], examples[n - 1], failing), i);
    }
  }

  class MQTTService {
    const state: SimulationState
    /** The profile registry the service looks profiles up in. */
    const registry: ProfileRegistry
    /** `_message_history` */
    var history: seq<HistoryRecord>

    /** The service's state record and history as a value. */
    function View(): ServiceView
      reads this, state, state.client
    {
      ServiceView(state.isRunning, state.isConnected,
                  if state.client == null then None else Some(ClientOf(state.client)),
                  state.config, state.startTime, state.messagesSent, state.lastMessage,
                  state.hasThread, state.stopSet, history)
    }

    /** A new service: the initial controller state and an empty history. */
    constructor (registry: ProfileRegistry)
      ensures this.registry == registry
      ensures View() == Initial && fresh(state)
    {
      state := new SimulationState();
      this.registry := registry;
      history := [];
    }

    /** `_cleanup_simulation()` */
    method Cleanup()
      modifies state
      ensures View() == Lifecycle.Cleanup(old(View()))
    {
      state.isRunning := false;
      state.isConnected := false;
      state.client := null;
      state.hasThread := false;
      state.stopSet := false;
    }

    /**
     * `start_simulation(config)`: `now` is the Unix time the new client's id
     * is made from, `startTime` the clock reading stored as the start time,
     * and `raised`/`callbacks` the broker's answer to `connect()`. Starting
     * the thread is recorded in `hasThread`; its iterations are `RunTick`.
     */
    method StartSimulation(config: SimulationConfig, now: nat, startTime: DateTime,
                           raised: bool, callbacks: seq<int>) returns (ok: bool)
      modifies state
      ensures var (w, res) := Start(old(View()), config, registry.classes, registry.names, now, startTime,
                                    Connects(raised, callbacks));
              View() == w && (ok <==> res == Started)
    {
      if state.isRunning {
        return false;
      }
      var client := new MQTTClient(config.mqtt.host, config.mqtt.port, None, config.mqtt.username,
                                   config.mqtt.password, config.mqtt.keepalive,
                                   map["interval" := Num(config.interval as real)], now);
      var cls := registry.GetProfile(config.profile.name);
      if cls.Err? {
        Cleanup();
        return false;
      }
      var instance := Instantiate(cls.value, config.profile.parameters);
      if config.profile.topic.Some? && config.profile.topic.value != "" {
        instance := WithTopic(instance, config.profile.topic.value);
      }
      ok := ConnectAndInstall(client, instance, config, startTime, raised, callbacks);
    }

    /**
     * The rest of a start once the profile is resolved: connect, and on
     * success hand the profile to the client and store the run.
     */
    method ConnectAndInstall(client: MQTTClient, instance: Profile, config: SimulationConfig, startTime: DateTime,
                             raised: bool, callbacks: seq<int>) returns (ok: bool)
      requires !client.isConnected
      modifies client, state
      ensures ok == Connects(raised, callbacks)
      ensures !ok ==> View() == old(View())
      ensures ok ==> View() == old(View()).(client := Some(old(ClientOf(client)).(isConnected := true, profile := Some(instance))),
                                            config := Some(config), isConnected := true, isRunning := true,
                                            startTime := Some(startTime), messagesSent := 0,
                                            stopSet := false, hasThread := true)
    {
      ok := client.Connect(raised, callbacks);
      if !ok {
        return;
      }
      client.profile := Some(instance);
      Install(client, config, startTime);
    }

    /** The state updates of a successful start. */
    method Install(client: MQTTClient, config: SimulationConfig, startTime: DateTime)
      modifies state
      ensures View() == old(View()).(client := Some(ClientOf(client)), config := Some(config),
                                     isConnected := client.isConnected, isRunning := true,
                                     startTime := Some(startTime), messagesSent := 0,
                                     stopSet := false, hasThread := true)
    {
      state.client := client;
      state.config := Some(config);
      state.isConnected := client.isConnected;
      state.isRunning := true;
      state.startTime := Some(startTime);
      state.messagesSent := 0;
      state.stopSet := false;
      state.hasThread := true;
    }

    /**
     * `stop_simulation()`: signals the stop, waits for the thread, and cleans
     * up. `threadResponds` says whether the thread looks at the stop event
     * while the join waits (it does unless it is stuck past the timeout);
     * `threadElapsed` is the seconds its run has lasted by then. A thread
     * that looks ends, and `threadEnded` reports it.
     */
    method StopSimulation(threadResponds: bool, threadElapsed: real) returns (ok: bool, threadEnded: bool)
      modifies state, state.client
      ensures View() == Stop(old(View())).0 && ok == Stop(old(View())).1
      ensures threadEnded <==> old(state.isRunning) && old(state.hasThread) && threadResponds
    {
      if !state.isRunning {
        return false, false;
      }
      SignalStop();
      threadEnded := false;
      if threadResponds && state.hasThread {
        var duration := if state.config.Some? then state.config.value.duration else None;
        var goOn := ThreadCheck(duration, threadElapsed);
        threadEnded := !goOn;
      }
      Cleanup();
      ok := true;
    }

    /**
     * The first half of `stop_simulation()`: the stop event is set, and a
     * stored client is told to stop and to disconnect.
     */
    method SignalStop()
      modifies state, state.client
      ensures View() == Lifecycle.SignalStop(old(View()))
    {
      state.stopSet := true;
      if state.client != null {
        state.client.StopSimulation();
        state.client.Disconnect();
      }
    }

    /**
     * The check at the top of each iteration of `_run_simulation(duration)`:
     * a set stop event or an exceeded duration ends the thread, which cleans
     * up; otherwise nothing changes and the thread goes on.
     */
    method ThreadCheck(duration: Option<int>, elapsed: real) returns (goOn: bool)
      modifies state
      ensures goOn <==> !old(state.stopSet) && !Expired(duration, elapsed)
      ensures !goOn ==> View() == Lifecycle.Cleanup(old(View()))
      ensures goOn ==> View() == old(View())
    {
      if state.stopSet || Expired(duration, elapsed) {
        Cleanup();
        return false;
      }
      goOn := true;
    }

    /**
     * One iteration of `_run_simulation(duration)`: `elapsed` is the seconds
     * since the thread began, `rc` the broker's answer to the publish,
     * `publishDraws`/`publishNow` what the publish's reading is made from,
     * `sampleDraws`/`sampleNow` what the second reading the thread stores is
     * made from, and `recordNow` the record's clock reading. The result says
     * whether the thread goes on; `call` is the publish the broker saw.
     */
    method RunTick(duration: Option<int>, elapsed: real, rc: int, publishDraws: Draws, publishNow: DateTime,
                   sampleDraws: Draws, sampleNow: DateTime, recordNow: DateTime)
      returns (goOn: bool, call: Option<Publication>)
      modifies this, state
      ensures var t := TickInput(elapsed, rc, SampleOf(old(View()).client, sampleDraws, sampleNow), recordNow);
              View() == Lifecycle.Tick(old(View()), duration, t).0 && goOn == Lifecycle.Tick(old(View()), duration, t).1
      ensures goOn && old(state.client) != null && old(state.client.isConnected) ==>
                call == PublishCall(true, old(state.client.profile), publishDraws, publishNow)
      ensures !(goOn && old(state.client) != null && old(state.client.isConnected)) ==> call.None?
    {
      goOn := ThreadCheck(duration, elapsed);
      if !goOn {
        return false, None;
      }
      call := PublishStep(elapsed, rc, publishDraws, publishNow, sampleDraws, sampleNow, recordNow);
    }

    /** The publishing part of one iteration of the thread. */
    method PublishStep(elapsed: real, rc: int, publishDraws: Draws, publishNow: DateTime,
                       sampleDraws: Draws, sampleNow: DateTime, recordNow: DateTime)
      returns (call: Option<Publication>)
      modifies this, state
      ensures View() == AfterPublish(old(View()), TickInput(elapsed, rc, SampleOf(old(View()).client, sampleDraws, sampleNow), recordNow))
      ensures old(state.client) != null && old(state.client.isConnected) ==>
                call == PublishCall(true, old(state.client.profile), publishDraws, publishNow)
      ensures !(old(state.client) != null && old(state.client.isConnected)) ==> call.None?
    {
      call := None;
      var client := state.client;
      if client != null && client.isConnected {
        var success;
        success, call := client.PublishData(rc, publishDraws, publishNow);
        if success {
          if client.profile.Some? {
            var data := GenerateData(client.profile.value, sampleDraws, sampleNow);
            Record(client.profile.value, data, recordNow);
          }
        }
      }
    }

    /**
     * What a successful publish leaves behind: one more message counted, the
     * reading stored as the last message, and its record appended to the
     * history, whose oldest record is dropped past the capacity.
     */
    method Record(profile: Profile, data: Reading, recordNow: DateTime)
      modifies this, state
      ensures View() == old(View()).(messagesSent := old(state.messagesSent) + 1, lastMessage := Some(data),
                                     history := Pushed(old(history), HistoryRecord(IsoFormat(recordNow), GetTopic(profile), data), MaxHistory))
    {
      state.messagesSent := state.messagesSent + 1;
      state.lastMessage := Some(data);
      var rec := HistoryRecord(IsoFormat(recordNow), GetTopic(profile), data);
      history := history + [rec];
      if |history| > MaxHistory {
        history := history[1..];
      }
    }

    /** `get_simulation_status()` */
    method GetSimulationStatus() returns (s: SimulationStatus)
      ensures s == StatusOf(View())
    {
      var profileName := if state.config.Some? then Some(state.config.value.profile.name) else None;
      var topic := if state.client != null && state.client.profile.Some?
                   then Some(GetTopic(state.client.profile.value)) else None;
      var interval := if state.config.Some? then Some(state.config.value.interval) else None;
      var start := if state.startTime.Some? then Some(IsoFormat(state.startTime.value)) else None;
      s := SimulationStatus(state.isRunning, state.isConnected, profileName, topic, interval,
                            state.messagesSent, start, state.lastMessage);
    }

    /** `get_simulation_data(limit)` */
    method GetSimulationData(limit: int) returns (d: SimulationData<HistoryRecord>)
      ensures d == DataOf(View(), limit)
    {
      var messages := if |history| > 0 then PyTail(history, limit) else [];
      d := SimulationData(messages, state.messagesSent);
    }

    /**
     * `test_mqtt_connection(host, port, username, password)`: a throw-away
     * client that connects and disconnects; the result is whether it connected.
     */
    method TestMqttConnection(host: string, port: int, username: Option<string>, password: Option<string>,
                              now: nat, raised: bool, callbacks: seq<int>) returns (connected: bool)
      ensures connected == Connects(raised, callbacks)
    {
      var client := new MQTTClient(host, port, None, username, password, 60, map[], now);
      connected := client.Connect(raised, callbacks);
      client.Disconnect();
    }

    /**
     * `get_available_profiles()`: one entry per registered profile, in
     * registration order. `examples` holds the draws and clock reading each
     * default instance's example is made from; `failing` names the profiles
     * whose example raised, which get the fallback entry.
     */
    method GetAvailableProfiles(examples: seq<(Draws, DateTime)>, failing: set<string>) returns (infos: seq<ProfileInfo>)
      requires registry.Valid() && |examples| == |registry.names|
      ensures var entries := registry.GetAvailableProfiles();
              infos == Listing(entries, examples, failing, |entries|)
    {
      var entries := registry.GetAvailableProfiles();
      infos := [];
      var i := 0;
      while i < |entries|
        invariant 0 <= i <= |entries|
        invariant infos == Listing(entries, examples, failing, i)
      {
        var info := EntryInfo(entries[i], examples[i], failing);
        infos := infos + [info];
        i := i + 1;
      }
    }

    /**
     * `get_profile_info(name)`: the entry of a registered profile, made from
     * its default instance; `None` for an unknown name.
     */
    method GetProfileInfo(name: string, d: Draws, now: DateTime) returns (info: Option<ProfileInfo>)
      ensures info.None? <==> name !in registry.classes
      ensures info.Some? ==> info.value == ExampleInfo(name, registry.classes[name], d, now)
    {
      var cls := registry.GetProfile(name);
      if cls.Err? {
        return None;
      }
      var instance := Instantiate(cls.value, map[]);
      var example := GenerateData(instance, d, now);
      info := Some(ProfileInfo(name, DocString(cls.value), Config(instance), GetTopic(instance), example));
    }

    /**
     * `generate_profile_preview(name, parameters)`: one reading of an
     * instance built from `parameters`; `None` for an unknown name.
     */
    method GenerateProfilePreview(name: string, parameters: Params, d: Draws, now: DateTime)
      returns (preview: Option<Reading>)
      ensures preview.None? <==> name !in registry.classes
      ensures preview.Some? ==> preview.value == GenerateData(Instantiate(registry.classes[name], parameters), d, now)
    {
      var cls := registry.GetProfile(name);
      if cls.Err? {
        return None;
      }
      preview := Some(GenerateData(Instantiate(cls.value, parameters), d, now));
    }
  }
}
