# mqttSimulator core in Dafny

This project models the core of mqttSimulator, an MQTT data simulator. It covers four pieces:

- **Profiles.** Three data generators: a weather station, a soil sensor and an energy meter. Each keeps its keyword configuration, draws perturbed readings, clamps them to fixed ranges and stamps them with an ISO time. Each names the MQTT topic it publishes on.
- **The profile registry.** A name-to-class dictionary that can be extended at run time.
- **The MQTT client.** It tracks its connection and running flags, and publishes one reading per iteration of its loop.
- **The simulation service behind the HTTP API.** It has a single state record, a bounded message history of 100 records, and the start, stop, status, history, listing, preview and connection-test operations. One background thread publishes, counts, and records every successful message.

## Modules and files

| file | module | models |
|---|---|---|
| `wrappers.dfy` | `Wrappers` | `Option`, `Result`, `Outcome` |
| `values.dfy` | `Values` | dictionary values, keyword arguments, readings |
| `text.dfy` | `Text` | ASCII `lower`, `replace`, `title`, and decimal rendering of integers |
| `clock.dfy` | `Clock` | `datetime.isoformat()` |
| `models.py` → `models.dfy` | `Models` | the API's configuration and status records |
| `base.py` → `profile_base.dfy` | `ProfileBase` | the behaviour every profile shares |
| `weather.dfy`, `agriculture.dfy`, `energy.dfy` | `WeatherProfile`, `AgricultureProfile`, `EnergyProfile` | the three generators |
| `profiles/__init__.py` → `profiles.dfy` | `Profiles` | the registry, as a `class`, and dispatch over profile instances |
| `core.py` → `mqtt_client.dfy` | `Client` | `MQTTClient`, as a `class` |
| `message_history.dfy` | `History` | the bounded history list |
| `lifecycle.dfy` | `Lifecycle` | the controller's transitions as functions over a value view of its state; the controller's properties are proved here |
| `mqtt_service.py` → `mqtt_service.dfy` | `Service` | `SimulationState` and `MQTTService` as classes |

Every method that changes a service object is proved to leave the object in the state given by the matching `Lifecycle` transition. For example, `MQTTService.StartSimulation` ensures that `View()` equals `Start(old(View()), …)`.

## How things outside the program enter the model

Randomness, the clock and the broker become parameters:

- **Random draws.** Each `random.uniform(a, b)` is given by the unit fraction `t` it drew and yields `a + (b - a) * t`. Each `random.choice` is given by the index it drew.
- **The clock.** `datetime.utcnow()` is a `DateTime` value. `time.time()` is a natural number of seconds, or the seconds elapsed in a loop.
- **The broker.** Its return codes are parameters. `connect()` is given by whether the broker call raised, together with the list of `_on_connect` return codes that arrive before the 10-second timeout.

## Model

| member | source | states |
|---|---|---|
| Values.StrParam | mqtt_simulator/profiles/weather.py:30 | `kwargs.get(key, default)` returns the given string, or the default when the key is absent |
| Values.NumParam | mqtt_simulator/profiles/weather.py:31-33 | `kwargs.get(key, default)` returns the given number, or the default when the key is absent |
| Text.Lower | mqtt_simulator/profiles/weather.py:82 | same length; every character is lower-cased; no upper-case letter remains |
| Text.ReplaceChar | mqtt_simulator/profiles/weather.py:82 | same length; exactly the occurrences of `a` become `b`; none of `a` remains |
| Text.Title | api/services/mqtt_service.py:65 | `str.title()` keeps the length; a cased letter at the start or after an uncased character becomes upper-case, one after a cased character becomes lower-case, and every other character is kept |
| Text.TitleAfter | api/services/mqtt_service.py:65 | each position is the title-cased character given whether the character before it (or, at the start, the carried flag) is cased |
| Text.TitleIdempotent | api/services/mqtt_service.py:65 | title-casing a title-cased string changes nothing |
| Text.NatToString | mqtt_simulator/core.py:33 | a non-empty string of digits with no leading zero |
| Text.NatToStringRoundTrip | mqtt_simulator/core.py:33 | reading the digits of `str(n)` back gives `n` |
| Text.PaddedDigits | mqtt_simulator/profiles/base.py:38 | a zero-padded field of exactly `width` digits |
| Text.PaddedDigitsRoundTrip | mqtt_simulator/profiles/base.py:38 | reading the padded field back gives the number |
| Clock.IsoFormat | mqtt_simulator/profiles/base.py:38 | `isoformat()` is 19 characters long, or 26 when there are microseconds; `T` is at position 10 |
| Clock.IsoFormatParts | mqtt_simulator/profiles/base.py:38 | `isoformat()` is date, `T`, time, then the microsecond part; each part sits at its fixed slice |
| Clock.DatePartDigits | mqtt_simulator/profiles/base.py:38 | the date part spells out the year, month and day as 4, 2 and 2 digits |
| Clock.TimePartDigits | mqtt_simulator/profiles/base.py:38 | the time part spells out the hour, minute and second as two digits each |
| Clock.MicroPartDigits | mqtt_simulator/profiles/base.py:38 | a non-zero microsecond count appears as 6 digits after the dot |
| Clock.IsoFormatInjective | mqtt_simulator/profiles/base.py:38 | two different times never format the same |
| Models.QoSLevel.Level | api/models.py:12-17 | each level's number is 0, 1 or 2 |
| Models.QoSFromInt | api/models.py:12-17 | `QoSLevel(n)` exists exactly for 0..2 and has number `n` |
| Models.QoSRoundTrip | api/models.py:12-17 | every level is recovered from its number |
| Models.MakeMQTTConfig | api/models.py:20-53 | the defaults are localhost, 1883, keepalive 60, qos 1, last-will qos 0, clean session and not retained; accepted exactly when the port is in 1..65535 and the keepalive is at least 1 |
| Models.MakeProfileConfig | api/models.py:56-67 | no parameters and no topic override by default |
| Models.MakeSimulationConfig | api/models.py:70-80 | the interval defaults to 5; accepted exactly when the interval is in 1..3600 and the duration is absent or at least 1 |
| Models.MakeSimulationStatus | api/models.py:83-109 | every optional field defaults to None, and the count to 0 |
| ProfileBase.Uniform | mqtt_simulator/profiles/base.py:43 | `random.uniform(a, b)` lies between the two ends in either order; a draw of 0 gives `a` and a draw of 1 gives `b` |
| ProfileBase.AddRandomness | mqtt_simulator/profiles/base.py:41-43 | the value moves by at most `variance` times its size, in both signs; a variance of 0 leaves it unchanged |
| ProfileBase.Clamp | mqtt_simulator/profiles/weather.py:56 | `max(lo, min(hi, x))` lies in `[lo, hi]`, is `x` inside the range, and is the nearer end outside it |
| ProfileBase.AddTimestamp | mqtt_simulator/profiles/base.py:36-39 | adds exactly the `timestamp` key, set to `isoformat() + "Z"`, and keeps every other entry |
| ProfileBase.TimestampShape | mqtt_simulator/profiles/base.py:36-39 | the stamp contains `T` and is the ISO time followed by `Z` |
| ProfileBase.GetInterval | mqtt_simulator/profiles/base.py:45-47 | the `interval` keyword, or 5 |
| WeatherProfile.NewWeather | mqtt_simulator/profiles/weather.py:28-39 | keeps the keywords as its configuration; a given `city` or number is used as is; the defaults are Milano, 20.0, 60.0 and 10.0 |
| WeatherProfile.AdjustHumidity | mqtt_simulator/profiles/weather.py:47-52 | above 25 °C humidity drops 10 points but not below 30; below 10 °C it rises 10 points but not above 90; otherwise it is unchanged |
| WeatherProfile.AdjustHumidityKeepsPercent | mqtt_simulator/profiles/weather.py:47-52 | the correction keeps a percentage within [0, 100] |
| WeatherProfile.Describe | mqtt_simulator/profiles/weather.py:58-68 | the first matching rule decides: snow, thunderstorm, rain or fog, clear sky, or a fair sky; each rule holds in both directions; the result is never "Mist" |
| WeatherProfile.Sample | mqtt_simulator/profiles/weather.py:43-68 | the temperature is the base shifted by `uniform(-5, 5)` and perturbed by 15%; the humidity is the base perturbed by 20% and then corrected for that temperature; the wind is the base perturbed by 30% and clamped to [0, 50] |
| WeatherProfile.GenerateData | mqtt_simulator/profiles/weather.py:41-78 | exactly the six keys, with the city, the sampled values and the timestamp |
| WeatherProfile.SampleInBounds | mqtt_simulator/profiles/weather.py:15-22 | every reading passes the `WeatherData` ranges when the base temperature is in [-38, 47] and the base humidity is in [0, 250/3] |
| WeatherProfile.DefaultSampleInBounds | mqtt_simulator/profiles/weather.py:15-33 | the default profile always passes the `WeatherData` ranges |
| WeatherProfile.GetTopic | mqtt_simulator/profiles/weather.py:80-82 | `weather/` followed by the city, position by position: lower-cased, with spaces as `_` |
| WeatherProfile.NewYorkTopic | mqtt_simulator/profiles/weather.py:80-82 | New York publishes to `weather/new_york` |
| AgricultureProfile.NewAgriculture | mqtt_simulator/profiles/agriculture.py:26-39 | keeps the keywords; a given `sensor_id`, `soil_type` or number is used as is; the defaults are soil-001, 40.0, 18.0, 6.5 and loam |
| AgricultureProfile.MoistureVariance | mqtt_simulator/profiles/agriculture.py:35-44 | sandy 0.4, clay 0.1, and 0.2 for loam or any other soil |
| AgricultureProfile.Sample | mqtt_simulator/profiles/agriculture.py:43-56 | moisture is the base perturbed by the soil's variance and clamped to [5, 95]; temperature is the base shifted by `uniform(-3, 2)`, perturbed by 10% and clamped to [-5, 35]; pH is the base shifted by `uniform(-0.2, 0.2)`, perturbed by 5% and clamped to [5, 8.5] |
| AgricultureProfile.SampleInBounds | mqtt_simulator/profiles/agriculture.py:14-20 | every reading passes the `SoilMoistureData` ranges, whatever the bases |
| AgricultureProfile.GenerateData | mqtt_simulator/profiles/agriculture.py:41-65 | exactly the five keys, with the sensor id, the sampled values and the timestamp |
| AgricultureProfile.GetTopic | mqtt_simulator/profiles/agriculture.py:67-69 | `agriculture/soil/` followed by the sensor id |
| EnergyProfile.NewEnergy | mqtt_simulator/profiles/energy.py:35-49 | keeps the keywords; a given `meter_id`, `load_pattern` or number is used as is; the defaults are energy-01, 3.5 kW, 230 V, 15 A, 50 Hz and residential |
| EnergyProfile.PatternFor | mqtt_simulator/profiles/energy.py:53-55 | the named pattern, or residential for an unknown name; every power range lies within [0.5, 100] |
| EnergyProfile.NominalCurrent | mqtt_simulator/profiles/energy.py:67 | current times voltage equals power times 1000 |
| EnergyProfile.CurrentBeforeClamp | mqtt_simulator/profiles/energy.py:66-68 | within 5% of the nominal current |
| EnergyProfile.Power | mqtt_simulator/profiles/energy.py:58-60 | the base power perturbed by the pattern's variance and clamped to the pattern's power range |
| EnergyProfile.Voltage | mqtt_simulator/profiles/energy.py:62-64 | the base voltage perturbed by 2% and clamped to [220, 240] |
| EnergyProfile.Sample | mqtt_simulator/profiles/energy.py:51-73 | power and voltage are `Power` and `Voltage` of their draws; the current is the capped, perturbed `power * 1000 / voltage`; the frequency is the base perturbed by 1% and clamped to [49.8, 50.2] |
| EnergyProfile.SampleInBounds | mqtt_simulator/profiles/energy.py:13-29 | every reading passes the `EnergyData` ranges, whatever the bases |
| EnergyProfile.ResidentialCurrentConsistent | mqtt_simulator/profiles/energy.py:66-69 | for a residential meter the 50 A cap never applies: the current stays within 5% of `P*1000/V` |
| EnergyProfile.IndustrialCurrentCapped | mqtt_simulator/profiles/energy.py:66-69 | for an industrial 50 kW meter the cap does apply: it reports 50 A, below 95% of `P*1000/V` |
| EnergyProfile.GenerateData | mqtt_simulator/profiles/energy.py:51-83 | exactly the six keys, with the meter id, the sampled values and the timestamp |
| EnergyProfile.GetTopic | mqtt_simulator/profiles/energy.py:85-87 | `energy/meter/` followed by the meter id |
| Profiles.Instantiate | mqtt_simulator/profiles/base.py:17-19 | `cls(**kwargs)` is an instance of `cls` whose configuration is `kwargs`, with no topic override |
| Profiles.InstanceInterval | mqtt_simulator/profiles/base.py:45-47 | an instance's interval is its `interval` keyword, or 5 |
| Profiles.GenerateData | mqtt_simulator/profiles/base.py:21-24 | an instance produces its own class's reading from its own draws; every reading carries `timestamp` = `isoformat() + "Z"` |
| Profiles.GetTopic | mqtt_simulator/profiles/base.py:26-29 | the override when one is present, otherwise the generator's own topic |
| Profiles.WithTopic | api/services/mqtt_service.py:141-143 | replacing `get_topic` yields the given topic and keeps the class and configuration |
| Profiles.WithTopicKeepsReadings | api/services/mqtt_service.py:141-143 | replacing `get_topic` leaves the generated readings unchanged |
| Profiles.QuotedItemsContains | mqtt_simulator/profiles/__init__.py:32 | every listed name appears quoted in the rendered list |
| Profiles.Message | mqtt_simulator/profiles/__init__.py:30-33 | the not-found message quotes the missing name and every available name |
| Profiles.ProfileRegistry.constructor | mqtt_simulator/profiles/__init__.py:15-19 | the registry starts with weather, agriculture and energy, in that order |
| Profiles.ProfileRegistry.GetAvailableProfiles | mqtt_simulator/profiles/__init__.py:22-24 | the copy holds exactly the registered entries, in key order |
| Profiles.ProfileRegistry.GetProfile | mqtt_simulator/profiles/__init__.py:27-34 | the registered class exactly when the name is registered; otherwise the error naming it and every registered name |
| Profiles.ProfileRegistry.RegisterProfile | mqtt_simulator/profiles/__init__.py:37-39 | the last write wins; every other name resolves as before; a new name is appended to the key order; the registry stays valid |
| Profiles.InitialRegistry | mqtt_simulator/profiles/__init__.py:15-34 | the initial registry resolves exactly the three built-in names |
| Client.ChooseClientId | mqtt_simulator/core.py:33 | the given id when it is non-empty, otherwise `mqtt_simulator_` followed by the Unix time in digits |
| Client.PublishCall | mqtt_simulator/core.py:131-140 | the broker is called exactly when connected with a profile: on the profile's topic, with a fresh reading, at qos 1 |
| Client.Payloads | mqtt_simulator/core.py:138 | one fresh reading per loop iteration |
| Client.TickSent | mqtt_simulator/core.py:164-170 | one iteration delivers at most one publication, exactly when connected and accepted |
| Client.RunPublicationsTopic | mqtt_simulator/core.py:137-140 | every publication of a run goes to the profile's topic at qos 1 |
| Client.RunPublicationsCount | mqtt_simulator/core.py:164-170 | at most one publication per iteration, and none from a run whose every iteration finds the client disconnected |
| Client.RunStopsAtExpiry | mqtt_simulator/core.py:165-167 | nothing is published at or after the first iteration past the duration |
| Client.UnboundedRunPublishesEveryTick | mqtt_simulator/core.py:164-170 | with no duration (or a duration of 0), a run whose every iteration is connected and accepted publishes every reading, in order |
| Client.RunPublicationsFrom | mqtt_simulator/core.py:164-170 | a run from iteration `i` is that iteration's publication followed by the run from `i + 1`, or nothing when it stops there |
| Client.MQTTClient.constructor | mqtt_simulator/core.py:20-65 | starts not connected, not running, with no profile; sets credentials only when both are non-empty; the interval keyword defaults to 5 |
| Client.MQTTClient.OnConnect | mqtt_simulator/core.py:67-73 | return code 0 connects the client; any other code leaves the flag alone |
| Client.MQTTClient.OnDisconnect | mqtt_simulator/core.py:75-81 | any return code disconnects the client |
| Client.MQTTClient.Connect | mqtt_simulator/core.py:95-110 | false when the broker call raises; otherwise true exactly when the client was already connected or some callback before the timeout carried 0 |
| Client.MQTTClient.Disconnect | mqtt_simulator/core.py:112-118 | only a connected client stops running |
| Client.MQTTClient.SetProfile | mqtt_simulator/core.py:120-129 | an unknown name fails with the registry's error and changes nothing; otherwise it installs the instance and its interval |
| Client.MQTTClient.PublishData | mqtt_simulator/core.py:131-149 | calls the broker exactly as `PublishCall` describes; true exactly when connected, with a profile, and accepted |
| Client.MQTTClient.PublishTick | mqtt_simulator/core.py:169 | one iteration takes the connection flag it observes and delivers `TickSent` for it |
| Client.MQTTClient.StartSimulation | mqtt_simulator/core.py:151-175 | fails without a profile and changes nothing; otherwise the loop's publications equal `RunPublications` over the iterations, the connection flag is the one the last iteration observed, and the client ends not running |
| Client.MQTTClient.RunLoop | mqtt_simulator/core.py:164-170 | the loop publishes exactly `RunPublications` over the iterations and leaves the connection flag the last iteration run observed |
| Client.MQTTClient.StopSimulation | mqtt_simulator/core.py:177-180 | clears the running flag |
| Client.MQTTClient.Subscribe | mqtt_simulator/core.py:182-194 | the broker is called only when connected; the result is true exactly when connected and accepted |
| History.LastN | api/services/mqtt_service.py:274-276 | the last `n` elements, or all of them |
| History.Pushed | api/services/mqtt_service.py:272-276 | the new record is last; the list never grows past the capacity; it is a tail of the old list plus the record |
| History.PushAllKeepsLast | api/services/mqtt_service.py:272-276 | pushing any number of records leaves exactly the last 100 of the old history followed by the records |
| History.PyTail | api/services/mqtt_service.py:220 | `s[-limit:]`: the last `limit` elements; the whole list for 0; the list without its first `-limit` elements for a negative limit |
| History.Recent | api/services/mqtt_service.py:220 | for a limit of at least 1, the last `min(limit, len)` records, oldest first |
| Lifecycle.InitialConsistent | api/services/mqtt_service.py:22-44 | the new controller is idle, with an empty history, and satisfies the invariant |
| Lifecycle.Cleanup | api/services/mqtt_service.py:288-294 | drops the flags, the client, the thread and the stop flag; keeps the configuration, start time, count, last message and history |
| Lifecycle.CleanupProperties | api/services/mqtt_service.py:288-294 | cleanup keeps the invariant and changes nothing on an idle controller |
| Lifecycle.NewClient | api/services/mqtt_service.py:127-134 | the client takes its host, port, keepalive and interval from the configuration |
| Lifecycle.StartProfile | api/services/mqtt_service.py:137-143 | builds the registered class from the parameters; a non-empty configured topic replaces the profile's own |
| Lifecycle.Start | api/services/mqtt_service.py:119-176 | refused while running, with no change; an unknown profile cleans up; a failed connect leaves the state as it was; starts exactly when idle, known and connected |
| Lifecycle.Stop | api/services/mqtt_service.py:178-203 | false and no change when idle; otherwise true, and the result is the signalled state cleaned up |
| Lifecycle.SignalStop | api/services/mqtt_service.py:185-191 | sets the stop flag and clears the client's running flag, changing nothing else |
| Lifecycle.SignalledStopEndsThread | api/services/mqtt_service.py:185-203 | once a stop is signalled, the thread's next check sees the flag and ends, reaching the same state the stop does; the stop's own cleanup then changes nothing |
| Lifecycle.RecordOf | api/services/mqtt_service.py:267-271 | the record holds the ISO time, the profile's topic and the stored reading |
| Lifecycle.AfterPublish | api/services/mqtt_service.py:255-276 | a successful publish adds one to the count, stores the reading and pushes its record; a failed publish changes nothing; no other field changes |
| Lifecycle.Tick | api/services/mqtt_service.py:249-286 | the thread stops, with cleanup, exactly when the stop flag is set or the duration is exceeded; otherwise it publishes |
| Lifecycle.IdleTickChangesNothing | api/services/mqtt_service.py:256 | an iteration of a leftover thread (one not joined within the timeout) on an idle controller changes nothing |
| Lifecycle.StatusOf | api/services/mqtt_service.py:205-216 | every status field mirrors the state; the topic is the profile's; the start time is given in ISO form |
| Lifecycle.DataOf | api/services/mqtt_service.py:218-224 | the total is the count; the messages are the last `min(limit, len)` records, in order |
| Lifecycle.StartConsistent | api/services/mqtt_service.py:119-176 | a start keeps the invariant |
| Lifecycle.StopConsistent | api/services/mqtt_service.py:178-203 | a stop keeps the invariant |
| Lifecycle.TickConsistent | api/services/mqtt_service.py:244-294 | an iteration keeps the invariant; in particular the history never exceeds 100 |
| Lifecycle.FailedStartLeavesIdle | api/services/mqtt_service.py:119-176 | a failed start from an idle controller leaves it idle and disconnected with no client, and keeps the configuration, count and history |
| Lifecycle.StartedState | api/services/mqtt_service.py:151-168 | a successful start is running and connected, with the count at 0, the history untouched, and the status reporting the profile, interval, start time and topic override |
| Lifecycle.StatusAfterStop | api/services/mqtt_service.py:178-216 | after a stop the status is idle and disconnected with no topic, while the configuration, start time, count and last message survive |
| Lifecycle.Records | api/services/mqtt_service.py:267-272 | one record per iteration, in order |
| Lifecycle.SuccessfulRun | api/services/mqtt_service.py:249-276 | with no stop signalled and a connected client, N successful iterations add N to the count; the history becomes the last 100 of the old history plus the records; the client and configuration are kept |
| Lifecycle.RunRecordsTopic | api/services/mqtt_service.py:267-272 | every record a run adds carries the running profile's topic |
| Lifecycle.OverriddenTopicRun | api/services/mqtt_service.py:141-143 | with a topic override, the status and every added record carry the configured topic |
| Lifecycle.RunKeepsClient | api/services/mqtt_service.py:249-286 | a run that is still going keeps its client and configuration and the invariant |
| Service.EntryInfo | api/services/mqtt_service.py:51-82 | every listing entry carries its profile's name |
| Service.Listing | api/services/mqtt_service.py:51-82 | one entry per registered profile |
| Service.ListingAt | api/services/mqtt_service.py:51-82 | entry `i` of the listing is the `i`-th registered profile's entry: the example, or the fallback when that profile's example failed |
| Service.SimulationState.constructor | api/services/mqtt_service.py:22-33 | the dataclass defaults |
| Service.MQTTService.constructor | api/services/mqtt_service.py:39-44 | the initial controller state with an empty history |
| Service.MQTTService.Cleanup | api/services/mqtt_service.py:288-294 | the new state is `Lifecycle.Cleanup` of the old one |
| Service.MQTTService.StartSimulation | api/services/mqtt_service.py:119-176 | the new state and the result are `Lifecycle.Start` over the registry and the connection outcome |
| Service.MQTTService.ConnectAndInstall | api/services/mqtt_service.py:145-168 | a failed connect changes no service state; a successful one stores the connected client with its profile, plus the configuration, start time, a zero count and the thread |
| Service.MQTTService.Install | api/services/mqtt_service.py:150-168 | the state updates of a successful start |
| Service.MQTTService.StopSimulation | api/services/mqtt_service.py:178-203 | the new state and the result are `Lifecycle.Stop`; the thread observes the stop and ends exactly when the controller was running with a thread that answers within the join |
| Service.MQTTService.SignalStop | api/services/mqtt_service.py:185-191 | the new state is `Lifecycle.SignalStop` of the old one |
| Service.MQTTService.ThreadCheck | api/services/mqtt_service.py:249-253 | the thread goes on exactly when no stop is signalled and the duration has not run out; when it stops, the state is cleaned up, and otherwise nothing changes |
| Service.MQTTService.RunTick | api/services/mqtt_service.py:244-286 | the new state and "go on" are `Lifecycle.Tick`; the broker sees `PublishCall` exactly when the thread goes on with a connected client |
| Service.MQTTService.PublishStep | api/services/mqtt_service.py:255-276 | the new state is `AfterPublish` |
| Service.MQTTService.Record | api/services/mqtt_service.py:258-276 | counts the message, stores the reading, and pushes its record, dropping the oldest record past 100 |
| Service.MQTTService.GetSimulationStatus | api/services/mqtt_service.py:205-216 | `StatusOf` the state |
| Service.MQTTService.GetSimulationData | api/services/mqtt_service.py:218-224 | `DataOf` the state |
| Service.MQTTService.TestMqttConnection | api/services/mqtt_service.py:226-242 | true exactly when the connection succeeds |
| Service.MQTTService.GetAvailableProfiles | api/services/mqtt_service.py:46-84 | the listing of the registry's entries, in registration order |
| Service.MQTTService.GetProfileInfo | api/services/mqtt_service.py:86-107 | None exactly for an unknown name; otherwise the default instance's docstring, configuration, topic and example |
| Service.MQTTService.GenerateProfilePreview | api/services/mqtt_service.py:109-117 | None exactly for an unknown name; otherwise one reading of the class built from the parameters |

## Behaviour of the code worth noting

- **The stored reading is a second draw.** After a successful publish, the thread calls `generate_data()` again (api/services/mqtt_service.py:263). It stores that second reading as the last message and in the history, not the payload it published. The model keeps the two draws apart, as `TickInput.sample`.
- **The profile is resolved before connecting.** An unknown profile raises before any connect attempt. The handler then runs `_cleanup_simulation()`.
- **Cleanup keeps some fields.** `_cleanup_simulation()` leaves the configuration, start time, count and last message in place. The status after a stop still reports them (`Lifecycle.StatusAfterStop`).
- **Only a non-empty topic overrides.** An empty topic override is ignored, because an empty string is falsy.
- **Zero durations never expire.** A duration of 0 is falsy, so the run never expires.
- **A limit of 0 returns everything.** `get_simulation_data(0)` returns the whole history, because `history[-0:]` is the full list.

## Left out

- **Threads.** The background thread is modelled as one `RunTick` call per iteration, and a thread's existence as `hasThread`. The model does not cover:
  - the interleaving with API calls;
  - the exact timing of `join(timeout=5)`: whether the thread answers within it is the `threadResponds` input of `StopSimulation`;
  - the race in which the thread's own final cleanup runs after a new start.
- **The interruptible wait.** `stop_event.wait(interval)` is not modelled as a wait. A stop is split into signalling (`SignalStop`) and the join: a thread that answers within the join sees the flag at its check and ends (`Lifecycle.SignalledStopEndsThread`). An iteration of a thread that was not joined in time, on the now idle controller, changes nothing (`Lifecycle.IdleTickChangesNothing`).
- **Broker I/O.** paho-mqtt's network calls, `loop_start`/`loop_stop`, `username_pw_set` (recorded only as `credentialsSet`), the `_on_publish`/`_on_message` logging callbacks and the JSON decoding of received messages are not modelled.
- **Timing.** The 0.1-second polling in `connect()` is modelled as the list of callbacks that arrive before the timeout. `time.sleep` in the client's loop is left out, and so is the `KeyboardInterrupt` that ends the loop, which is taken to be the end of the given iterations.
- **Serialisation and rounding.** `json.dumps` in `get_payload()` is left out: payloads are the readings themselves. `round(x, n)` on published values is left out too, so readings hold the unrounded reals and the range lemmas are stated on those.
- **Validators.** `validate_data` (the pydantic check) is represented by the range predicates (`InWeatherDataBounds` and the others) and the `SampleInBounds` lemmas.
- **Exceptions.** These are not modelled:
  - exceptions inside `stop_simulation`, inside the thread, and from an ill-typed keyword argument (such a value is treated as absent, as `StrParam`/`NumParam` show);
  - which profiles' example generation raises. That is the `failing` parameter of the listing.
- **Profile classes.** Only the three built-in profile classes exist. `register_profile` can map any name to one of them, but it cannot add a class with new behaviour.
- **Text.** `str.lower()` and `str.title()` are modelled for ASCII letters only. The repr quoting in the not-found message does not escape quotes inside names.
- **Logging.** Logging is not modelled.
- Client.MQTTClient.StartSimulation: the running flag is specified only at the end of the run. A `stop_simulation()` from another thread is an input (`Tick.stopRequested`) rather than a concurrent write. A disconnect from the broker's callback thread is an input too (`Tick.connected`, the flag each iteration observes).
- Lifecycle.SuccessfulRun: the value-level run lemmas (`Run` and the lemmas about it) hold the client's connection flag fixed across the iterations. `Service.MQTTService.RunTick` reads the live flag at each iteration.
- **Default arguments.** The defaults `limit=50` of `get_simulation_data` (api/services/mqtt_service.py:218) and `qos=0` of `subscribe` (mqtt_simulator/core.py:182) are not modelled. Callers of `GetSimulationData` and `Subscribe` always pass the value.
- **Service.EntryInfo:** its contract states only the entry's name. The full content of an entry is given by its definition, through `ExampleInfo` and `FallbackInfo`, which `ListingAt` ties to each position.
