/**
 * The profile registry (a name-to-class dictionary that new profiles may be
 * registered into) and the profile instances the registry's classes make.
 */
module Profiles {
  import opened Wrappers
  import opened Values
  import opened Clock
  import opened Text
  import ProfileBase
  import W = WeatherProfile
  import A = AgricultureProfile
  import E = EnergyProfile

  /** The profile classes the registry can hold: the three built-in ones. */
  datatype ProfileClass = WeatherClass | AgricultureClass | EnergyClass

  /** The generator state of one profile instance. */
  datatype Generator = Weather(w: W.Weather) | Agriculture(a: A.Agriculture) | Energy(e: E.Energy)

  /**
   * A profile instance. `topicOverride`, when present, is the topic the
   * controller substituted for the instance's own `get_topic()`.
   */
  datatype Profile = Profile(gen: Generator, topicOverride: Option<string>)

  /** The class docstring, which the listing reports as the profile's description. */
  function DocString(cls: ProfileClass): string {
    match cls
    case WeatherClass => "Weather data simulation profile."
    case AgricultureClass => "Agriculture data simulation profile."
    case EnergyClass => "Energy data simulation profile."
  }

  function ClassOf(p: Profile): ProfileClass {
    match p.gen
    case Weather(_) => WeatherClass
    case Agriculture(_) => AgricultureClass
    case Energy(_) => EnergyClass
  }

  /** `instance.config`: the keyword arguments the instance was built from. */
  function Config(p: Profile): Params {
    match p.gen
    case Weather(w) => w.config
    case Agriculture(a) => a.config
    case Energy(e) => e.config
  }

  /** `profile_class(**kwargs)`: an instance of the class that keeps `kwargs` as its configuration. */
  function Instantiate(cls: ProfileClass, kwargs: Params): (p: Profile)
    ensures ClassOf(p) == cls && Config(p) == kwargs && p.topicOverride.None?
  {
    match cls
    case WeatherClass => Profile(Weather(W.NewWeather(kwargs)), None)
    case AgricultureClass => Profile(Agriculture(A.NewAgriculture(kwargs)), None)
    case EnergyClass => Profile(Energy(E.NewEnergy(kwargs)), None)
  }

  /** `get_interval()` of an instance: its `interval` keyword, or 5. */
  function GetInterval(p: Profile): Value {
    ProfileBase.GetInterval(Config(p))
  }

  /** An instance's interval is the `interval` keyword it was built with, or 5 without one. */
  lemma InstanceInterval(cls: ProfileClass, kwargs: Params)
    ensures "interval" in kwargs ==> GetInterval(Instantiate(cls, kwargs)) == kwargs["interval"]
    ensures "interval" !in kwargs ==> GetInterval(Instantiate(cls, kwargs)) == Num(5.0)
  {
  }

  /** The random numbers one `generate_data()` call may draw, for whichever generator runs. */
  datatype RawDraws = Draws(weather: W.WeatherDraws, agriculture: A.AgricultureDraws, energy: E.EnergyDraws)

  predicate ValidDraws(d: RawDraws) {
    W.ValidDraws(d.weather) && A.ValidDraws(d.agriculture) && E.ValidDraws(d.energy)
  }

  /** Draws within the ranges `random.uniform` and `random.choice` produce. */
  type Draws = d: RawDraws | ValidDraws(d)
    witness Draws(W.WeatherDraws(0.0, 0.0, 0.0, 0.0, 0),
                  A.AgricultureDraws(0.0, 0.0, 0.0, 0.0, 0.0),
                  E.EnergyDraws(0.0, 0.0, 0.0, 0.0))

  /** `generate_data()`: a fresh reading, always stamped with `now`. */
  function GenerateData(p: Profile, d: Draws, now: DateTime): (r: Reading)
    ensures "timestamp" in r && r["timestamp"] == Str(IsoFormat(now) + "Z")
    ensures p.gen.Weather? ==> r == W.GenerateData(p.gen.w, d.weather, now)
    ensures p.gen.Agriculture? ==> r == A.GenerateData(p.gen.a, d.agriculture, now)
    ensures p.gen.Energy? ==> r == E.GenerateData(p.gen.e, d.energy, now)
  {
    match p.gen
    case Weather(w) => W.GenerateData(w, d.weather, now)
    case Agriculture(a) => A.GenerateData(a, d.agriculture, now)
    case Energy(e) => E.GenerateData(e, d.energy, now)
  }

  /** `get_topic()`: the override when there is one, otherwise the generator's own topic. */
  function GetTopic(p: Profile): (topic: string)
    ensures p.topicOverride.Some? ==> topic == p.topicOverride.value
    ensures p.topicOverride.None? && p.gen.Weather? ==> topic == W.GetTopic(p.gen.w)
    ensures p.topicOverride.None? && p.gen.Agriculture? ==> topic == A.GetTopic(p.gen.a)
    ensures p.topicOverride.None? && p.gen.Energy? ==> topic == E.GetTopic(p.gen.e)
  {
    if p.topicOverride.Some? then p.topicOverride.value
    else match p.gen
      case Weather(w) => W.GetTopic(w)
      case Agriculture(a) => A.GetTopic(a)
      case Energy(e) => E.GetTopic(e)
  }

  /**
   * Replacing an instance's `get_topic`: the new topic is `topic`, and the
   * readings, class and configuration are those of the original instance.
   */
  function WithTopic(p: Profile, topic: string): (q: Profile)
    ensures GetTopic(q) == topic
    ensures ClassOf(q) == ClassOf(p) && Config(q) == Config(p)
  {
    p.(topicOverride := Some(topic))
  }

  /** The replaced topic leaves the instance's readings as they were. */
  lemma WithTopicKeepsReadings(p: Profile, topic: string, d: Draws, now: DateTime)
    ensures GenerateData(WithTopic(p, topic), d, now) == GenerateData(p, d, now)
  {
  }

  /** The error `get_profile` raises for an unknown name: the name and the names available. */
  datatype ProfileNotFound = ProfileNotFound(name: string, available: seq<string>)

  function Quote(s: string): string { "'" + s + "'" }

  /** The elements of a Python list of strings as `repr` writes them, without the brackets. */
  function QuotedItems(names: seq<string>): string {
    if names == [] then ""
    else if |names| == 1 then Quote(names[0])
    else Quote(names[0]) + ", " + QuotedItems(names[1..])
  }

  /** Every name of the list appears, quoted, in its rendering. */
  lemma {:induction false} QuotedItemsContains(names: seq<string>, k: string)
    requires k in names
    ensures Contains(QuotedItems(names), Quote(k))
  {
    if |names| == 1 {
      assert QuotedItems(names) == "" + Quote(k) + "";
      ContainsConcat("", Quote(k), "");
    } else if names[0] == k {
      ContainsConcat("", Quote(k), ", " + QuotedItems(names[1..]));
      assert QuotedItems(names) == "" + Quote(k) + (", " + QuotedItems(names[1..]));
    } else {
      QuotedItemsContains(names[1..], k);
      ContainsPrefixed(Quote(names[0]) + ", ", QuotedItems(names[1..]), Quote(k));
    }
  }

  /** The text of the error: `Profile '<name>' not found. Available: [<names>]`. */
  function Message(e: ProfileNotFound): (m: string)
    ensures Contains(m, Quote(e.name))
    ensures forall k :: k in e.available ==> Contains(m, Quote(k))
  {
    var head := "Profile " + Quote(e.name) + " not found. Available: [";
    var m := head + QuotedItems(e.available) + "]";
    ContainsConcat("Profile ", Quote(e.name), " not found. Available: [" + QuotedItems(e.available) + "]");
    assert m == "Profile " + Quote(e.name) + (" not found. Available: [" + QuotedItems(e.available) + "]");
    forall k | k in e.available
      ensures Contains(m, Quote(k))
    {
      QuotedItemsContains(e.available, k);
      ContainsPrefixed(head, QuotedItems(e.available), Quote(k));
      ContainsPrefixed("]", head + QuotedItems(e.available), Quote(k));
    }
    m
  }

  predicate NoDuplicates(s: seq<string>) {
    forall i, j :: 0 <= i < j < |s| ==> s[i] != s[j]
  }

  /**
   * The process-wide registry `_PROFILES`. A Python dictionary keeps its keys
   * in insertion order, so the model keeps the key order in `names` beside
   * the mapping itself.
   */
  class ProfileRegistry {
    var names: seq<string>
    var classes: map<string, ProfileClass>

    ghost predicate Valid()
      reads this
    {
      NoDuplicates(names) && (forall n :: n in classes <==> n in names)
    }

    /** The registry as the module starts: weather, agriculture, energy. */
    constructor ()
      ensures Valid()
      ensures names == ["weather", "agriculture", "energy"]
      ensures classes == map["weather" := WeatherClass, "agriculture" := AgricultureClass, "energy" := EnergyClass]
    {
      names := ["weather", "agriculture", "energy"];
      classes := map["weather" := WeatherClass, "agriculture" := AgricultureClass, "energy" := EnergyClass];
    }

    /**
     * `get_available_profiles()`: a copy of the registry, as its entries in
     * key order. The copy is a value: later registrations do not change it.
     */
    function GetAvailableProfiles(): (entries: seq<(string, ProfileClass)>)
      reads this
      requires Valid()
      ensures |entries| == |names|
      ensures forall i :: 0 <= i < |entries| ==> entries[i].0 == names[i] && entries[i].0 in classes
      ensures forall i :: 0 <= i < |entries| ==> entries[i].1 == classes[entries[i].0]
      ensures forall n :: n in classes <==> exists i :: 0 <= i < |entries| && entries[i].0 == n
    {
      var entries := seq(|names|, i requires 0 <= i < |names| && names[i] in classes reads this => (names[i], classes[names[i]]));
      assert forall n :: n in classes ==> exists i :: 0 <= i < |entries| && entries[i].0 == n by {
        forall n | n in classes
          ensures exists i :: 0 <= i < |entries| && entries[i].0 == n
        {
          var i :| 0 <= i < |names| && names[i] == n;
          assert entries[i].0 == n;
        }
      }
      entries
    }

    /**
     * `get_profile(name)`: the class registered under `name`, or the error
     * naming `name` and every registered name.
     */
    function GetProfile(name: string): (r: Result<ProfileClass, ProfileNotFound>)
      reads this
      ensures r.Ok? <==> name in classes
      ensures r.Ok? ==> r.value == classes[name]
      ensures r.Err? ==> r.error == ProfileNotFound(name, names)
    {
      if name in classes then Ok(classes[name]) else Err(ProfileNotFound(name, names))
    }

    /**
     * `register_profile(name, cls)`: last write wins. `name` now resolves to
     * `cls`, every other name resolves as before, and a new name is appended
     * to the key order while an existing one keeps its place.
     */
    method RegisterProfile(name: string, cls: ProfileClass)
      requires Valid()
      modifies this
      ensures Valid()
      ensures classes == old(classes)[name := cls]
      ensures names == if name in old(classes) then old(names) else old(names) + [name]
      ensures GetProfile(name) == Ok(cls)
      ensures forall n :: n != name ==> GetProfile(n).Ok? == old(GetProfile(n)).Ok?
      ensures forall n :: n != name && n in classes ==> GetProfile(n) == old(GetProfile(n))
    {
      if name !in classes {
        names := names + [name];
      }
      classes := classes[name := cls];
    }
  }

  /** The registry as the module starts resolves exactly the three built-in names. */
  lemma InitialRegistry(r: ProfileRegistry)
    requires r.names == ["weather", "agriculture", "energy"]
    requires r.classes == map["weather" := WeatherClass, "agriculture" := AgricultureClass, "energy" := EnergyClass]
    ensures forall n :: r.GetProfile(n).Ok? <==> n in {"weather", "agriculture", "energy"}
    ensures r.GetProfile("weather") == Ok(WeatherClass)
    ensures r.GetProfile("agriculture") == Ok(AgricultureClass)
    ensures r.GetProfile("energy") == Ok(EnergyClass)
  {
  }
}
