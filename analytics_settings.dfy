// The analytics configuration manager of src/config/analytics.ts.
//
// The configuration is loaded once from local storage and from the runtime
// configuration object of the window, and every later change goes through
// updateConfig, which merges, persists the result to local storage under
// "analytics-config" and announces it with an "analytics-config-changed"
// event.  Local storage is the `persisted` field (a storage that refuses the
// write leaves it alone); the announcements are the `announced` field.

module AnalyticsSettings {
  import opened Common

  datatype Config = Config(enabled: bool, measurementId: Option<string>, privacyMode: bool, debug: bool)

  /** A Partial<AnalyticsConfig>: None is a key the object does not carry.
    * measurementId is `Some(None)` when the object sets it to null. */
  datatype Update = Update(
    enabled: Option<bool>, measurementId: Option<Option<string>>, privacyMode: Option<bool>, debug: Option<bool>)

  /** What local storage holds under "analytics-config" when the page loads. */
  datatype Stored = Absent | Unparsable | Json(update: Update)

  function DefaultConfig(): (c: Config)
    ensures !c.enabled && c.measurementId.None? && c.privacyMode && !c.debug
  {
    Config(false, None, true, false)
  }

  /** `{ ...config, ...updates }`. */
  function Merge(c: Config, u: Update): (r: Config)
    ensures r.enabled == (if u.enabled.Some? then u.enabled.value else c.enabled)
    ensures r.measurementId == (if u.measurementId.Some? then u.measurementId.value else c.measurementId)
    ensures r.privacyMode == (if u.privacyMode.Some? then u.privacyMode.value else c.privacyMode)
    ensures r.debug == (if u.debug.Some? then u.debug.value else c.debug)
  {
    Config(
      if u.enabled.Some? then u.enabled.value else c.enabled,
      if u.measurementId.Some? then u.measurementId.value else c.measurementId,
      if u.privacyMode.Some? then u.privacyMode.value else c.privacyMode,
      if u.debug.Some? then u.debug.value else c.debug)
  }

  const NoChange: Update := Update(None, None, None, None)

  /** `{ ...a, ...b }` on two partial objects. */
  function Combine(a: Update, b: Update): Update
  {
    Update(
      if b.enabled.Some? then b.enabled else a.enabled,
      if b.measurementId.Some? then b.measurementId else a.measurementId,
      if b.privacyMode.Some? then b.privacyMode else a.privacyMode,
      if b.debug.Some? then b.debug else a.debug)
  }

  /** Two merges in a row are one merge of the combined update; merging the
    * same update twice is merging it once; an empty update changes nothing. */
  lemma MergeLaws(c: Config, a: Update, b: Update)
    ensures Merge(Merge(c, a), b) == Merge(c, Combine(a, b))
    ensures Merge(Merge(c, a), a) == Merge(c, a)
    ensures Merge(c, NoChange) == c
  {
  }

  /** The object JSON.stringify writes for a whole configuration. */
  function Whole(c: Config): (u: Update)
    ensures u.enabled.Some? && u.measurementId.Some? && u.privacyMode.Some? && u.debug.Some?
  {
    Update(Some(c.enabled), Some(c.measurementId), Some(c.privacyMode), Some(c.debug))
  }

  /** Loading: the defaults, then the stored object if it parses, then the
    * runtime object if there is one. */
  function Load(stored: Stored, runtime: Option<Update>): (c: Config)
  {
    var fromStorage := if stored.Json? then Merge(DefaultConfig(), stored.update) else DefaultConfig();
    if runtime.Some? then Merge(fromStorage, runtime.value) else fromStorage
  }

  /** Storage that is missing or does not parse leaves the defaults; the
    * runtime object wins over storage on every key it carries. */
  lemma LoadFacts(stored: Stored, runtime: Option<Update>)
    ensures !stored.Json? && runtime.None? ==> Load(stored, runtime) == DefaultConfig()
    ensures Load(Unparsable, runtime) == Load(Absent, runtime)
    ensures runtime.Some? && runtime.value.enabled.Some? ==> Load(stored, runtime).enabled == runtime.value.enabled.value
    ensures runtime.Some? && runtime.value.measurementId.Some? ==>
              Load(stored, runtime).measurementId == runtime.value.measurementId.value
    ensures stored.Json? && stored.update.privacyMode.Some? && (runtime.None? || runtime.value.privacyMode.None?) ==>
              Load(stored, runtime).privacyMode == stored.update.privacyMode.value
  {
  }

  /** What updateConfig persists is what the next page load reads back, when
    * the window carries no runtime configuration. */
  lemma PersistReloads(c: Config)
    ensures Load(Json(Whole(c)), None) == c
  {
  }

  /** `!!measurementId` and `if (this.config.measurementId)`. */
  predicate HasId(id: Option<string>)
  {
    id.Some? && id.value != ""
  }

  /** Analytics is only on while a measurement id is set. */
  predicate Consistent(c: Config)
  {
    c.enabled ==> HasId(c.measurementId)
  }

  function SetIdUpdate(id: string): Update
  {
    Update(Some(id != ""), Some(Some(id)), None, None)
  }

  /** setMeasurementId stores the id and turns analytics on exactly when the id is not empty. */
  lemma SetIdFacts(c: Config, id: string)
    ensures Merge(c, SetIdUpdate(id)).measurementId == Some(id)
    ensures Merge(c, SetIdUpdate(id)).enabled <==> id != ""
    ensures Consistent(Merge(c, SetIdUpdate(id)))
    ensures Merge(c, SetIdUpdate(id)).privacyMode == c.privacyMode && Merge(c, SetIdUpdate(id)).debug == c.debug
  {
  }

  /** The setters keep analytics off while no id is set: from the defaults,
    * every sequence of setMeasurementId, enable, disable, togglePrivacyMode
    * and setDebugMode ends in a consistent configuration. */
  lemma SettersKeepConsistent(c: Config, id: string, flag: bool)
    requires Consistent(c)
    ensures Consistent(Merge(c, SetIdUpdate(id)))
    ensures HasId(c.measurementId) ==> Consistent(Merge(c, Update(Some(true), None, None, None)))
    ensures Consistent(Merge(c, Update(Some(false), None, None, None)))
    ensures Consistent(Merge(c, Update(None, None, Some(flag), None)))
    ensures Consistent(Merge(c, Update(None, None, None, Some(flag))))
  {
  }

  lemma DefaultConsistent()
    ensures Consistent(DefaultConfig())
  {
  }

  class ConfigManager {
    var config: Config
    /** Local storage under "analytics-config". */
    var persisted: Stored
    /** Whether local storage accepts writes. */
    const storageWritable: bool
    /** The details of the "analytics-config-changed" events, oldest first. */
    var announced: seq<Config>

    constructor (stored: Stored, runtime: Option<Update>, storageWritable: bool)
      ensures config == Load(stored, runtime)
      ensures persisted == stored && announced == [] && this.storageWritable == storageWritable
    {
      config := Load(stored, runtime);
      persisted := stored;
      announced := [];
      this.storageWritable := storageWritable;
    }

    method GetConfig() returns (c: Config)
      ensures c == config
    {
      c := config;
    }

    method UpdateConfig(updates: Update)
      modifies this
      ensures config == Merge(old(config), updates)
      ensures persisted == (if storageWritable then Json(Whole(config)) else old(persisted))
      ensures announced == old(announced) + [config]
    {
      config := Merge(config, updates);
      if storageWritable {
        persisted := Json(Whole(config));
      }
      announced := announced + [config];
    }

    method SetMeasurementId(id: string)
      modifies this
      ensures config == Merge(old(config), SetIdUpdate(id))
      ensures persisted == (if storageWritable then Json(Whole(config)) else old(persisted))
      ensures announced == old(announced) + [config]
    {
      UpdateConfig(SetIdUpdate(id));
    }

    /** Without a measurement id nothing happens: no merge, no write, no event. */
    method Enable()
      modifies this
      ensures HasId(old(config.measurementId)) ==>
                config == old(config).(enabled := true)
                && persisted == (if storageWritable then Json(Whole(config)) else old(persisted))
                && announced == old(announced) + [config]
      ensures !HasId(old(config.measurementId)) ==>
                config == old(config) && persisted == old(persisted) && announced == old(announced)
    {
      if config.measurementId.Some? && config.measurementId.value != "" {
        UpdateConfig(Update(Some(true), None, None, None));
      }
    }

    method Disable()
      modifies this
      ensures config == old(config).(enabled := false)
      ensures persisted == (if storageWritable then Json(Whole(config)) else old(persisted))
      ensures announced == old(announced) + [config]
    {
      UpdateConfig(Update(Some(false), None, None, None));
    }

    method TogglePrivacyMode(enabled: bool)
      modifies this
      ensures config == old(config).(privacyMode := enabled)
      ensures persisted == (if storageWritable then Json(Whole(config)) else old(persisted))
      ensures announced == old(announced) + [config]
    {
      UpdateConfig(Update(None, None, Some(enabled), None));
    }

    method SetDebugMode(enabled: bool)
      modifies this
      ensures config == old(config).(debug := enabled)
      ensures persisted == (if storageWritable then Json(Whole(config)) else old(persisted))
      ensures announced == old(announced) + [config]
    {
      UpdateConfig(Update(None, None, None, Some(enabled)));
    }
  }
}
