/**
 * The UnifiedSettings module: its Config object with mutable attributes, the
 * memoised `config`, `configure` (which builds the shared Settings instance)
 * and the module-level `get` and `defined?`, which use the shared instance
 * or a fresh one built from a per-call handler list.
 */
module UnifiedSettings {
  import opened Values
  import Coercer
  import Settings

  /** The configuration a fresh Config object holds. */
  const DefaultConfiguration: Settings.Configuration := Settings.Configuration(
    [Settings.HandlerSpec(Settings.ByClass(Settings.EnvClass), map[]),
     Settings.HandlerSpec(Settings.ByClass(Settings.CredentialsClass), map[]),
     Settings.HandlerSpec(Settings.ByClass(Settings.ConstantsClass), map[])],
    Nil,
    false,
    List([Sym("log_error")]),
    Coercer.AllKinds,
    true,
    ",")

  /** UnifiedSettings::Config: seven attributes anyone holding the object may reassign. */
  class Config {
    var handlers: seq<Settings.HandlerSpec>
    var defaultValue: Value
    var caseSensitive: bool
    var onMissingKey: Value
    var coercions: seq<Coercer.Kind>
    var coerceArrays: bool
    var coerceArraySeparator: string

    /** `Config.new`: Env, Credentials and Constants; nil default; case-insensitive; log an error on a miss; all coercions; split on commas. */
    constructor ()
      ensures Snapshot() == DefaultConfiguration
    {
      handlers := DefaultConfiguration.handlers;
      defaultValue := Nil;
      caseSensitive := false;
      onMissingKey := List([Sym("log_error")]);
      coercions := Coercer.AllKinds;
      coerceArrays := true;
      coerceArraySeparator := ",";
    }

    /** The attributes' current values. */
    function Snapshot(): Settings.Configuration
      reads this
    {
      Settings.Configuration(handlers, defaultValue, caseSensitive, onMissingKey,
                             coercions, coerceArrays, coerceArraySeparator)
    }

    /** The attribute writers, all at once: what a `configure` block does to the object. */
    method Assign(c: Settings.Configuration)
      modifies this
      ensures Snapshot() == c
    {
      handlers := c.handlers;
      defaultValue := c.defaultValue;
      caseSensitive := c.caseSensitive;
      onMissingKey := c.onMissingKey;
      coercions := c.coercions;
      coerceArrays := c.coerceArrays;
      coerceArraySeparator := c.coerceArraySeparator;
    }
  }

  /** The module's own state: `@config` (nil until first asked for) and `@settings` (nil until `configure`). */
  class Registry {
    var config: Config?
    var settings: Option<Settings.Settings>

    /** A shared Settings instance exists only once `configure` has created the config. */
    predicate Valid()
      reads this
    {
      settings.Some? ==> config != null
    }

    /** The module as loaded: neither instance variable is set. */
    constructor ()
      ensures Valid() && config == null && settings.None?
    {
      config := null;
      settings := None;
    }

    /** `UnifiedSettings.config`: `@config ||= Config.new`; the first call creates it, later calls return the same object. */
    method GetConfig() returns (c: Config)
      requires Valid()
      modifies this
      ensures Valid()
      ensures config == c && settings == old(settings)
      ensures old(config) != null ==> c == old(config) && c.Snapshot() == old(config.Snapshot())
      ensures old(config) == null ==> fresh(c) && c.Snapshot() == DefaultConfiguration
    {
      if config == null {
        config := new Config();
      }
      c := config;
    }

    /**
     * `UnifiedSettings.configure`: the block (if any) rewrites the config's
     * attributes, then a Settings instance is built from the config and
     * becomes the shared one. If building it raises, the config keeps the
     * block's changes and the shared instance stays as it was.
     */
    method Configure(world: Settings.World, block: Option<Settings.Configuration -> Settings.Configuration>)
      returns (r: Outcome<()>)
      requires Valid()
      modifies this, config
      ensures Valid() && config != null
      ensures old(config) != null ==> config == old(config)
      ensures old(config) == null ==> fresh(config)
      ensures var before := if old(config) != null then old(config.Snapshot()) else DefaultConfiguration;
        config.Snapshot() == if block.Some? then block.value(before) else before
      ensures var built := Settings.New(world, config.Snapshot(), None);
        && (r.Ok? <==> built.Ok?)
        && (built.Ok? ==> settings == Some(built.value))
        && (built.Raised? ==> r == Raised(built.error) && settings == old(settings))
    {
      var c := GetConfig();
      if block.Some? {
        c.Assign(block.value(c.Snapshot()));
      }
      var built := Settings.New(world, c.Snapshot(), None);
      if built.Raised? {
        return Raised(built.error);
      }
      settings := Some(built.value);
      return Ok(());
    }

    /**
     * Module-level `defined?`: without `handlers:` the shared instance
     * answers (and there is none before `configure`: NoMethodError on nil);
     * with `handlers:` a fresh Settings built from that list answers.
     */
    method Defined(world: Settings.World, key: Value, caseSensitive: Option<bool>, handlers: Option<seq<Settings.HandlerSpec>>)
      returns (r: Outcome<bool>)
      requires Valid()
      modifies this
      ensures Valid() && settings == old(settings)
      ensures old(config) != null ==> config == old(config) && config.Snapshot() == old(config.Snapshot())
      ensures handlers.None? && old(settings).None? ==> r == Raised(NoMethod) && config == old(config)
      ensures handlers.None? && old(settings).Some? ==>
        r == Settings.Defined(old(settings).value, config.Snapshot(), world, key, caseSensitive)
      ensures handlers.Some? ==> config != null && (old(config) == null ==> config.Snapshot() == DefaultConfiguration)
      ensures handlers.Some? ==> var built := Settings.New(world, config.Snapshot(), handlers);
        r == if built.Raised? then Raised(built.error) else Settings.Defined(built.value, config.Snapshot(), world, key, caseSensitive)
    {
      var shared: Settings.Settings;
      if handlers.None? {
        if settings.None? {
          return Raised(NoMethod);
        }
        shared := settings.value;
      } else {
        var c := GetConfig();
        var built := Settings.New(world, c.Snapshot(), handlers);
        if built.Raised? {
          return Raised(built.error);
        }
        shared := built.value;
      }
      r := Settings.Defined(shared, config.Snapshot(), world, key, caseSensitive);
    }

    /**
     * Module-level `get`: the same choice of Settings instance as
     * `defined?`; key, default, case_sensitive, coerce and on_missing_key
     * are passed on unchanged.
     */
    method Get(world: Settings.World, call: (nat, Value) -> Value, key: Value, default: Value, caseSensitive: Option<bool>,
               handlers: Option<seq<Settings.HandlerSpec>>, coerce: bool, onMissingKey: Value)
      returns (r: Settings.Response)
      requires Valid()
      modifies this
      ensures Valid() && settings == old(settings)
      ensures old(config) != null ==> config == old(config) && config.Snapshot() == old(config.Snapshot())
      ensures handlers.None? && old(settings).None? ==> r == Settings.Response([], Raised(NoMethod)) && config == old(config)
      ensures handlers.None? && old(settings).Some? ==>
        r == Settings.GetSpec(old(settings).value, config.Snapshot(), world, call, key, default, caseSensitive, coerce, onMissingKey)
      ensures handlers.Some? ==> config != null && (old(config) == null ==> config.Snapshot() == DefaultConfiguration)
      ensures handlers.Some? ==> var built := Settings.New(world, config.Snapshot(), handlers);
        r == if built.Raised? then Settings.Response([], Raised(built.error))
             else Settings.GetSpec(built.value, config.Snapshot(), world, call, key, default, caseSensitive, coerce, onMissingKey)
    {
      var shared: Settings.Settings;
      if handlers.None? {
        if settings.None? {
          return Settings.Response([], Raised(NoMethod));
        }
        shared := settings.value;
      } else {
        var c := GetConfig();
        var built := Settings.New(world, c.Snapshot(), handlers);
        if built.Raised? {
          return Settings.Response([], Raised(built.error));
        }
        shared := built.value;
      }
      r := Settings.Get(shared, config.Snapshot(), world, call, key, default, caseSensitive, coerce, onMissingKey);
    }
  }

  // ---------------------------------------------------------------------
  // Properties of the default configuration.

  /** The default handler list builds the Env, Credentials and Constants handlers, in that order, with the default coercer. */
  lemma DefaultSettings(world: Settings.World)
    ensures Settings.New(world, DefaultConfiguration, None)
      == Ok(Settings.Settings([Settings.EnvHandler, Settings.CredentialsHandler, Settings.ConstantsHandler], Coercer.Default))
  {
    var specs := DefaultConfiguration.handlers;
    var empty: map<string, Value> := map[];
    assert |empty| == 0;
    var last := [Settings.HandlerSpec(Settings.ByClass(Settings.ConstantsClass), empty)];
    assert last[1..] == [];
    assert Settings.InitializeHandlers(world, last[1..]) == Ok([]);
    assert Settings.InitializeHandler(world, last[0]) == Ok(Settings.ConstantsHandler);
    assert [Settings.ConstantsHandler] + [] == [Settings.ConstantsHandler];
    assert Settings.InitializeHandlers(world, last) == Ok([Settings.ConstantsHandler]);
    var two := [Settings.HandlerSpec(Settings.ByClass(Settings.CredentialsClass), empty)] + last;
    assert two[1..] == last;
    assert Settings.InitializeHandler(world, two[0]) == Ok(Settings.CredentialsHandler);
    assert [Settings.CredentialsHandler] + [Settings.ConstantsHandler] == [Settings.CredentialsHandler, Settings.ConstantsHandler];
    assert Settings.InitializeHandlers(world, two) == Ok([Settings.CredentialsHandler, Settings.ConstantsHandler]);
    assert specs[1..] == two;
    assert Settings.InitializeHandler(world, specs[0]) == Ok(Settings.EnvHandler);
    assert [Settings.EnvHandler] + [Settings.CredentialsHandler, Settings.ConstantsHandler]
      == [Settings.EnvHandler, Settings.CredentialsHandler, Settings.ConstantsHandler];
  }

  /**
   * With the default configuration, a key no handler knows is logged once
   * at ERROR and read as nil when the call gives no default.
   */
  lemma DefaultMissLogsErrorAndReadsNil(call: (nat, Value) -> Value, key: Value)
    ensures Settings.MissingKey(DefaultConfiguration, call, key, Settings.NoDefault, Nil)
      == Settings.Response([Settings.Logged(Settings.ERROR, key)], Ok(Nil))
  {
    Settings.DefaultActionLogsError(DefaultConfiguration, call, key, Settings.NoDefault);
  }
}
