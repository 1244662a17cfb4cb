/**
 * UnifiedSettings::Settings: asks an ordered list of handlers for a key; the
 * first non-nil answer wins and is optionally coerced; when every handler
 * misses, the missing-key actions run and then a default is returned.
 */
module Settings {
  import opened Values
  import opened Base
  import Coercer
  import Env
  import Credentials
  import Constants
  import ConfigGem

  /** UnifiedSettings::NO_DEFAULT: the symbol that means "no default was given". */
  const NoDefault: Value := Sym("no_default")

  // ---------------------------------------------------------------------
  // Handlers and how they are built.

  /** The handler classes the gem ships. */
  datatype HandlerClass = EnvClass | CredentialsClass | ConstantsClass | ConfigGemClass | BaseClass

  /** A handler instance. */
  datatype Handler =
    | EnvHandler
    | CredentialsHandler
    | ConstantsHandler
    | ConfigGemHandler(gem: ConfigGem.ConfigGem)
    | BaseHandler

  /** What a handler entry names: a class by name, a class, an instance, or some other value. */
  datatype HandlerRef =
    | ByName(name: string)
    | ByClass(klass: HandlerClass)
    | ByInstance(handler: Handler)
    | NotAHandler(value: Value)

  /**
   * One entry of a handler list: either the reference itself (no params) or
   * a Hash `{ handler:, params: }`; an absent or empty params Hash is blank.
   */
  datatype HandlerSpec = HandlerSpec(ref: HandlerRef, params: map<string, Value>)

  /**
   * What the running program can see: the environment, the credentials,
   * the constants (the Config gem's object among them) and the handler
   * classes that `safe_constantize` can find by name.
   */
  datatype World = World(
    env: map<string, string>,
    credentials: Value,
    constants: ConstantTable,
    classes: map<string, HandlerClass>)

  /** `klass.new` or `klass.new(**params)`: only ConfigGem takes a keyword, `const_name`. */
  function Instantiate(klass: HandlerClass, params: map<string, Value>): (r: Outcome<Handler>)
    ensures |params| == 0 ==> r.Ok?
    ensures |params| > 0 ==> (r.Ok? <==> klass == ConfigGemClass && params.Keys == {"const_name"})
    ensures r.Raised? ==> r.error == WrongArguments
    ensures |params| == 0 && klass == EnvClass ==> r == Ok(EnvHandler)
    ensures |params| == 0 && klass == CredentialsClass ==> r == Ok(CredentialsHandler)
    ensures |params| == 0 && klass == ConstantsClass ==> r == Ok(ConstantsHandler)
    ensures |params| == 0 && klass == ConfigGemClass ==> r == Ok(ConfigGemHandler(ConfigGem.New(Nil)))
    ensures |params| == 0 && klass == BaseClass ==> r == Ok(BaseHandler)
    ensures klass == ConfigGemClass && params.Keys == {"const_name"}
      ==> r == Ok(ConfigGemHandler(ConfigGem.New(params["const_name"])))
  {
    if |params| == 0 then
      Ok(match klass
        case EnvClass => EnvHandler
        case CredentialsClass => CredentialsHandler
        case ConstantsClass => ConstantsHandler
        case ConfigGemClass => ConfigGemHandler(ConfigGem.New(Nil))
        case BaseClass => BaseHandler)
    else if klass == ConfigGemClass && params.Keys == {"const_name"} then
      Ok(ConfigGemHandler(ConfigGem.New(params["const_name"])))
    else Raised(WrongArguments)
  }

  /**
   * `initialize_handler`: a name is resolved first (an unknown name is nil,
   * and `nil.new` raises NoMethodError), a class is instantiated, an
   * instance is used as it is, anything else is unsupported.
   */
  function InitializeHandler(world: World, spec: HandlerSpec): (r: Outcome<Handler>)
    ensures spec.ref.ByClass? ==> r == Instantiate(spec.ref.klass, spec.params)
    ensures spec.ref.ByInstance? ==> r == Ok(spec.ref.handler)
    ensures spec.ref.NotAHandler? ==> r == Raised(UnsupportedHandler)
    ensures spec.ref.ByName? && spec.ref.name !in world.classes ==> r == Raised(NoMethod)
    ensures spec.ref.ByName? && spec.ref.name in world.classes
      ==> r == Instantiate(world.classes[spec.ref.name], spec.params)
  {
    match spec.ref
    case ByName(name) => if name in world.classes then Instantiate(world.classes[name], spec.params) else Raised(NoMethod)
    case ByClass(klass) => Instantiate(klass, spec.params)
    case ByInstance(handler) => Ok(handler)
    case NotAHandler(_) => Raised(UnsupportedHandler)
  }

  /** `handlers_config.map { initialize_handler }`: every entry in order, or the first raise. */
  function InitializeHandlers(world: World, specs: seq<HandlerSpec>): (r: Outcome<seq<Handler>>)
    ensures r.Ok? <==> forall i :: 0 <= i < |specs| ==> InitializeHandler(world, specs[i]).Ok?
    ensures r.Ok? ==> |r.value| == |specs|
    ensures r.Ok? ==> forall i :: 0 <= i < |specs| ==> r.value[i] == InitializeHandler(world, specs[i]).value
  {
    if |specs| == 0 then Ok([])
    else
      var first :- InitializeHandler(world, specs[0]);
      var rest :- InitializeHandlers(world, specs[1..]);
      assert forall i :: 1 <= i < |specs| ==> specs[i] == specs[1..][i - 1];
      Ok([first] + rest)
  }

  // ---------------------------------------------------------------------
  // The configuration the resolver reads, and the resolver itself.

  /** The values of UnifiedSettings' Config object at the time of a call. */
  datatype Configuration = Configuration(
    handlers: seq<HandlerSpec>,
    defaultValue: Value,
    caseSensitive: bool,
    onMissingKey: Value,
    coercions: seq<Coercer.Kind>,
    coerceArrays: bool,
    coerceArraySeparator: string)

  /** A Settings instance: its handlers and its coercer. */
  datatype Settings = Settings(handlers: seq<Handler>, coercer: Coercer.Coercer)

  /**
   * `Settings.new(handlers:)`: the given handler list, or the configured one
   * when none is given, each entry initialized; the coercer is built from
   * the configuration.
   */
  function New(world: World, config: Configuration, handlers: Option<seq<HandlerSpec>>): (r: Outcome<Settings>)
    ensures var specs := if handlers.Some? then handlers.value else config.handlers;
      && (r.Ok? <==> InitializeHandlers(world, specs).Ok?)
      && (r.Ok? ==> r.value.handlers == InitializeHandlers(world, specs).value)
    ensures r.Ok? ==> r.value.coercer == Coercer.Coercer(config.coercions, config.coerceArrays, config.coerceArraySeparator)
  {
    var specs := if handlers.Some? then handlers.value else config.handlers;
    var built :- InitializeHandlers(world, specs);
    Ok(Settings(built, Coercer.Coercer(config.coercions, config.coerceArrays, config.coerceArraySeparator)))
  }

  /** `handler.defined?(key, case_sensitive:)`; the Base handler has no such method. */
  function HandlerDefined(handler: Handler, world: World, key: Value, caseSensitive: Option<bool>, configured: bool): Outcome<bool> {
    match handler
    case EnvHandler => Env.Defined(world.env, key, caseSensitive, configured)
    case CredentialsHandler => Credentials.Defined(world.credentials, key, caseSensitive, configured)
    case ConstantsHandler => Constants.Defined(world.constants, key, caseSensitive, configured)
    case ConfigGemHandler(gem) => ConfigGem.Defined(gem, world.constants, key, caseSensitive, configured)
    case BaseHandler => Raised(NoMethod)
  }

  /** `handler.get(key, case_sensitive:)`. */
  function HandlerGet(handler: Handler, world: World, key: Value, caseSensitive: Option<bool>, configured: bool): Outcome<Value> {
    match handler
    case EnvHandler => Env.Get(world.env, key, caseSensitive, configured)
    case CredentialsHandler => Credentials.Get(world.credentials, key, caseSensitive, configured)
    case ConstantsHandler => Constants.Get(world.constants, key, caseSensitive, configured)
    case ConfigGemHandler(gem) => ConfigGem.Get(gem, world.constants, key, caseSensitive, configured)
    case BaseHandler => AbstractGet(key, caseSensitive)
  }

  /** Each handler's answer to `defined?`, in list order. */
  function DefinedAnswers(handlers: seq<Handler>, world: World, key: Value, caseSensitive: Option<bool>, configured: bool): seq<Outcome<bool>> {
    seq(|handlers|, i requires 0 <= i < |handlers| => HandlerDefined(handlers[i], world, key, caseSensitive, configured))
  }

  /** Each handler's answer to `get`, in list order. */
  function GetAnswers(handlers: seq<Handler>, world: World, key: Value, caseSensitive: Option<bool>, configured: bool): seq<Outcome<Value>> {
    seq(|handlers|, i requires 0 <= i < |handlers| => HandlerGet(handlers[i], world, key, caseSensitive, configured))
  }

  /**
   * The scan of `defined?` over the handlers' answers: true at the first
   * true, false when all are false; a raise before any true ends the scan.
   */
  function FirstTrue(answers: seq<Outcome<bool>>): (r: Outcome<bool>)
    ensures r == Ok(false) <==> forall i :: 0 <= i < |answers| ==> answers[i] == Ok(false)
    ensures r == Ok(true) <==>
      exists i :: 0 <= i < |answers| && answers[i] == Ok(true) && forall j :: 0 <= j < i ==> answers[j] == Ok(false)
    ensures r.Raised? ==>
      exists i :: 0 <= i < |answers| && answers[i] == r && forall j :: 0 <= j < i ==> answers[j] == Ok(false)
  {
    if |answers| == 0 then Ok(false)
    else
      var here :- answers[0];
      if here then Ok(true)
      else
        var rest := FirstTrue(answers[1..]);
        assert forall i :: 1 <= i < |answers| ==> answers[i] == answers[1..][i - 1];
        assert rest == Ok(true) ==> exists i :: 0 <= i < |answers| && answers[i] == Ok(true)
          && forall j :: 0 <= j < i ==> answers[j] == Ok(false) by {
          if rest == Ok(true) {
            var k :| 0 <= k < |answers[1..]| && answers[1..][k] == Ok(true)
              && forall j :: 0 <= j < k ==> answers[1..][j] == Ok(false);
            assert answers[k + 1] == Ok(true);
          }
        }
        assert rest.Raised? ==> exists i :: 0 <= i < |answers| && answers[i] == rest
          && forall j :: 0 <= j < i ==> answers[j] == Ok(false) by {
          if rest.Raised? {
            var k :| 0 <= k < |answers[1..]| && answers[1..][k] == rest
              && forall j :: 0 <= j < k ==> answers[1..][j] == Ok(false);
            assert answers[k + 1] == rest;
          }
        }
        rest
  }

  /** `Settings#defined?`: false for a nil or false key, otherwise the scan over the handlers. */
  function Defined(settings: Settings, config: Configuration, world: World, key: Value, caseSensitive: Option<bool>): (r: Outcome<bool>)
    ensures !Truthy(key) ==> r == Ok(false)
    ensures r == Ok(true) ==> Truthy(key)
    ensures r == Ok(true) ==>
      exists i :: 0 <= i < |settings.handlers| && HandlerDefined(settings.handlers[i], world, key, caseSensitive, config.caseSensitive) == Ok(true)
  {
    if !Truthy(key) then Ok(false)
    else FirstTrue(DefinedAnswers(settings.handlers, world, key, caseSensitive, config.caseSensitive))
  }

  /**
   * The scan of `get` over the handlers' answers: the first non-nil one
   * (`false` counts as found), None when all are nil; a raise before any
   * non-nil answer ends the scan.
   */
  function FirstNonNil(answers: seq<Outcome<Value>>): (r: Outcome<Option<Value>>)
    ensures r == Ok(None) <==> forall i :: 0 <= i < |answers| ==> answers[i] == Ok(Nil)
    ensures r.Ok? && r.value.Some? ==> r.value.value != Nil
    ensures forall i ::
              (0 <= i < |answers| && answers[i].Ok? && answers[i].value != Nil
               && forall j :: 0 <= j < i ==> answers[j] == Ok(Nil))
              ==> r == Ok(Some(answers[i].value))
    ensures forall i ::
              (0 <= i < |answers| && answers[i].Raised? && forall j :: 0 <= j < i ==> answers[j] == Ok(Nil))
              ==> r == Raised(answers[i].error)
  {
    if |answers| == 0 then Ok(None)
    else
      var here :- answers[0];
      if here != Nil then Ok(Some(here))
      else
        var rest := FirstNonNil(answers[1..]);
        assert forall i :: 1 <= i < |answers| ==> answers[i] == answers[1..][i - 1];
        rest
  }

  // ---------------------------------------------------------------------
  // Missing keys: the actions, the message, the default.

  /** Logger severities, in increasing order. */
  datatype Level = DEBUG | INFO | WARN | ERROR | FATAL

  /** The integer value of each Logger severity constant. */
  function Severity(level: Level): (n: nat)
    ensures n <= 4
  {
    match level
    case DEBUG => 0
    case INFO => 1
    case WARN => 2
    case ERROR => 3
    case FATAL => 4
  }

  /** What a missing-key action did: a log entry about the key, or a callable called with it. */
  datatype Event = Logged(level: Level, key: Value) | Called(action: nat, key: Value)

  /** The events the actions produced and, if one raised, what it raised. */
  datatype Effects = Effects(events: seq<Event>, failure: Option<Error>)

  /** What `get` did: the missing-key events, then a value or an exception. */
  datatype Response = Response(events: seq<Event>, result: Outcome<Value>)

  /**
   * The actions to run: the per-call `on_missing_key` unless it is nil or
   * false, else the configured one; a lone action becomes a one-element list.
   */
  function ActionList(config: Configuration, onMissingKey: Value): (r: seq<Value>)
    ensures var chosen := if Truthy(onMissingKey) then onMissingKey else config.onMissingKey;
      (chosen.List? ==> r == chosen.items) && (!chosen.List? ==> r == [chosen])
  {
    var chosen := if Truthy(onMissingKey) then onMissingKey else config.onMissingKey;
    if chosen.List? then chosen.items else [chosen]
  }

  /**
   * One action: a callable is called with the key, `:raise` raises the
   * missing-key error, `:log_<level>` logs the message at that level, and
   * anything else raises "Unknown on_missing_key handler".
   */
  function ActionEffect(action: Value, key: Value): (r: Outcome<Event>)
    ensures action.Proc? ==> r == Ok(Called(action.id, key))
    ensures r.Raised? <==> !action.Proc? && action !in LogActions().Keys
    ensures r.Raised? && action == Sym("raise") ==> r.error == MissingKeyRaised(key)
    ensures r.Raised? && action != Sym("raise") ==> r.error == UnknownAction(action)
    ensures action in LogActions().Keys ==> r == Ok(Logged(LogActions()[action], key))
  {
    if action.Proc? then Ok(Called(action.id, key))
    else if action == Sym("raise") then Raised(MissingKeyRaised(key))
    else if action == Sym("log_debug") then Ok(Logged(DEBUG, key))
    else if action == Sym("log_info") then Ok(Logged(INFO, key))
    else if action == Sym("log_warn") then Ok(Logged(WARN, key))
    else if action == Sym("log_error") then Ok(Logged(ERROR, key))
    else if action == Sym("log_fatal") then Ok(Logged(FATAL, key))
    else Raised(UnknownAction(action))
  }

  /** The logging actions and their levels: a reference table for the `case` in `handle_on_missing_key`. */
  function LogActions(): map<Value, Level> {
    map[Sym("log_debug") := DEBUG, Sym("log_info") := INFO, Sym("log_warn") := WARN,
        Sym("log_error") := ERROR, Sym("log_fatal") := FATAL]
  }

  /** The actions in order, up to and including the first that raises. */
  function RunActions(actions: seq<Value>, key: Value): (r: Effects)
    ensures |r.events| <= |actions|
    ensures r.failure.None? <==> forall i :: 0 <= i < |actions| ==> ActionEffect(actions[i], key).Ok?
    ensures r.failure.None? ==> |r.events| == |actions|
    ensures forall i :: 0 <= i < |r.events| ==> ActionEffect(actions[i], key) == Ok(r.events[i])
  {
    if |actions| == 0 then Effects([], None)
    else match ActionEffect(actions[0], key)
      case Raised(e) => Effects([], Some(e))
      case Ok(event) =>
        var rest := RunActions(actions[1..], key);
        assert forall i :: 1 <= i < |actions| ==> actions[i] == actions[1..][i - 1];
        Effects([event] + rest.events, rest.failure)
  }

  /** One step of the action list: the action at `i`, then the rest unless it raised. */
  lemma RunActionsStep(actions: seq<Value>, i: nat, key: Value)
    requires i < |actions|
    ensures var rest := RunActions(actions[i + 1..], key);
      RunActions(actions[i..], key) == match ActionEffect(actions[i], key)
        case Raised(e) => Effects([], Some(e))
        case Ok(event) => Effects([event] + rest.events, rest.failure)
  {
    assert actions[i..][1..] == actions[i + 1..];
    assert actions[i..][0] == actions[i];
  }

  /** `handle_on_missing_key`: run each action in order; a raise stops the loop. */
  method HandleOnMissingKey(config: Configuration, key: Value, onMissingKey: Value) returns (effects: Effects)
    ensures effects == RunActions(ActionList(config, onMissingKey), key)
  {
    var actions := ActionList(config, onMissingKey);
    var events: seq<Event> := [];
    var i := 0;
    while i < |actions|
      invariant 0 <= i <= |actions|
      invariant RunActions(actions, key)
        == Effects(events + RunActions(actions[i..], key).events, RunActions(actions[i..], key).failure)
    {
      RunActionsStep(actions, i, key);
      var outcome := ActionEffect(actions[i], key);
      if outcome.Raised? {
        assert RunActions(actions[i..], key) == Effects([], Some(outcome.error));
        assert events + [] == events;
        return Effects(events, Some(outcome.error));
      }
      ghost var rest := RunActions(actions[i + 1..], key);
      assert RunActions(actions[i..], key) == Effects([outcome.value] + rest.events, rest.failure);
      assert events + ([outcome.value] + rest.events) == (events + [outcome.value]) + rest.events;
      events := events + [outcome.value];
      i := i + 1;
    }
    assert actions[i..] == [];
    return Effects(events, None);
  }

  /** The value `handle_missing_key` returns: the given default unless it is NO_DEFAULT; a callable is called with the key. */
  function DefaultFor(config: Configuration, call: (nat, Value) -> Value, key: Value, default: Value): (r: Value)
    ensures default != NoDefault && !default.Proc? ==> r == default
    ensures default != NoDefault && default.Proc? ==> r == call(default.id, key)
    ensures default == NoDefault && !config.defaultValue.Proc? ==> r == config.defaultValue
    ensures default == NoDefault && config.defaultValue.Proc? ==> r == call(config.defaultValue.id, key)
  {
    var chosen := if default == NoDefault then config.defaultValue else default;
    if chosen.Proc? then call(chosen.id, key) else chosen
  }

  /** `handle_missing_key`: the actions first; the default only if none of them raised. */
  function MissingKey(config: Configuration, call: (nat, Value) -> Value, key: Value, default: Value, onMissingKey: Value): (r: Response)
    ensures var effects := RunActions(ActionList(config, onMissingKey), key);
      && r.events == effects.events
      && (r.result.Raised? <==> effects.failure.Some?)
      && (effects.failure.Some? ==> r.result.error == effects.failure.value)
      && (r.result.Ok? ==> r.result.value == DefaultFor(config, call, key, default))
  {
    var effects := RunActions(ActionList(config, onMissingKey), key);
    match effects.failure
    case Some(e) => Response(effects.events, Raised(e))
    case None => Response(effects.events, Ok(DefaultFor(config, call, key, default)))
  }

  /**
   * What `get` does once the handler scan is over: a raise propagates, a
   * found value is returned (coerced when asked), and a miss goes to
   * `handle_missing_key`.
   */
  function Respond(settings: Settings, config: Configuration, call: (nat, Value) -> Value,
                   key: Value, default: Value, coerce: bool, onMissingKey: Value, found: Outcome<Option<Value>>): Response
  {
    match found
    case Raised(e) => Response([], Raised(e))
    case Ok(Some(v)) => Response([], Ok(if coerce then Coercer.Coerce(settings.coercer, v) else v))
    case Ok(None) => MissingKey(config, call, key, default, onMissingKey)
  }

  /** `Settings#get`, as a function of the configuration, the stores and the call's arguments. */
  function GetSpec(settings: Settings, config: Configuration, world: World, call: (nat, Value) -> Value,
                   key: Value, default: Value, caseSensitive: Option<bool>, coerce: bool, onMissingKey: Value): (r: Response)
    ensures !Truthy(key) ==> r == Response([], Ok(Nil))
    ensures var answers := GetAnswers(settings.handlers, world, key, caseSensitive, config.caseSensitive);
      Truthy(key) && (forall i :: 0 <= i < |answers| ==> answers[i] == Ok(Nil))
      ==> r == MissingKey(config, call, key, default, onMissingKey)
    ensures var answers := GetAnswers(settings.handlers, world, key, caseSensitive, config.caseSensitive);
      |r.events| > 0 ==> Truthy(key) && forall i :: 0 <= i < |answers| ==> answers[i] == Ok(Nil)
  {
    if !Truthy(key) then Response([], Ok(Nil))
    else Respond(settings, config, call, key, default, coerce, onMissingKey,
                 FirstNonNil(GetAnswers(settings.handlers, world, key, caseSensitive, config.caseSensitive)))
  }

  /**
   * `Settings#get`: a nil or false key is nil; otherwise the handler scan,
   * then the found value or the missing-key path.
   */
  method Get(settings: Settings, config: Configuration, world: World, call: (nat, Value) -> Value,
             key: Value, default: Value, caseSensitive: Option<bool>, coerce: bool, onMissingKey: Value)
    returns (r: Response)
    ensures r == GetSpec(settings, config, world, call, key, default, caseSensitive, coerce, onMissingKey)
  {
    if !Truthy(key) {
      return Response([], Ok(Nil));
    }
    var found := FirstAnswer(settings.handlers, world, key, caseSensitive, config.caseSensitive);
    r := Finish(settings, config, call, key, default, coerce, onMissingKey, found);
  }

  /** The tail of `Settings#get`: return what was found, coerced when asked, or handle the miss. */
  method Finish(settings: Settings, config: Configuration, call: (nat, Value) -> Value,
                key: Value, default: Value, coerce: bool, onMissingKey: Value, found: Outcome<Option<Value>>)
    returns (r: Response)
    ensures r == Respond(settings, config, call, key, default, coerce, onMissingKey, found)
  {
    match found
    case Raised(e) =>
      r := Response([], Raised(e));
    case Ok(Some(v)) =>
      r := Found(settings, config, call, key, default, coerce, onMissingKey, v);
    case Ok(None) =>
      r := HandleMissingKey(config, call, key, default, onMissingKey);
  }

  /** A value was found: it is returned, coerced when asked. */
  method Found(settings: Settings, config: Configuration, call: (nat, Value) -> Value,
               key: Value, default: Value, coerce: bool, onMissingKey: Value, v: Value)
    returns (r: Response)
    ensures r == Respond(settings, config, call, key, default, coerce, onMissingKey, Ok(Some(v)))
  {
    var value := if coerce then Coercer.Coerce(settings.coercer, v) else v;
    r := Response([], Ok(value));
  }

  /** `handle_missing_key`: the actions first; the default only if none of them raised. */
  method HandleMissingKey(config: Configuration, call: (nat, Value) -> Value, key: Value, default: Value, onMissingKey: Value)
    returns (r: Response)
    ensures r == MissingKey(config, call, key, default, onMissingKey)
  {
    var effects := HandleOnMissingKey(config, key, onMissingKey);
    if effects.failure.Some? {
      r := Response(effects.events, Raised(effects.failure.value));
    } else {
      r := Response(effects.events, Ok(DefaultFor(config, call, key, default)));
    }
  }

  /**
   * The `each` loop of `Settings#get`: ask the handlers in order and stop at
   * the first non-nil answer or the first raise.
   */
  method FirstAnswer(handlers: seq<Handler>, world: World, key: Value, caseSensitive: Option<bool>, configured: bool)
    returns (found: Outcome<Option<Value>>)
    ensures found == FirstNonNil(GetAnswers(handlers, world, key, caseSensitive, configured))
  {
    ghost var answers := GetAnswers(handlers, world, key, caseSensitive, configured);
    var i := 0;
    while i < |handlers|
      invariant 0 <= i <= |handlers|
      invariant FirstNonNil(answers) == FirstNonNil(answers[i..])
    {
      assert answers[i..][1..] == answers[i + 1..];
      assert answers[i..][0] == answers[i];
      var answer := HandlerGet(handlers[i], world, key, caseSensitive, configured);
      if answer.Raised? {
        return Raised(answer.error);
      }
      if answer.value != Nil {
        return Ok(Some(answer.value));
      }
      i := i + 1;
    }
    assert answers[i..] == [];
    return Ok(None);
  }

  // ---------------------------------------------------------------------
  // Properties of the resolver.

  /** A nil or false key is answered without consulting any handler. */
  lemma FalsyKeyShortCircuits(settings: Settings, config: Configuration, world: World, call: (nat, Value) -> Value,
                              key: Value, default: Value, caseSensitive: Option<bool>, coerce: bool, onMissingKey: Value)
    requires !Truthy(key)
    ensures Defined(settings, config, world, key, caseSensitive) == Ok(false)
    ensures GetSpec(settings, config, world, call, key, default, caseSensitive, coerce, onMissingKey) == Response([], Ok(Nil))
  {
  }

  /**
   * First match wins: once a handler answers non-nil (or raises), handlers
   * after it are never consulted, so appending handlers changes nothing.
   */
  lemma LaterHandlersIrrelevant(handlers: seq<Handler>, more: seq<Handler>, world: World, key: Value,
                                caseSensitive: Option<bool>, configured: bool)
    requires FirstNonNil(GetAnswers(handlers, world, key, caseSensitive, configured)) != Ok(None)
    ensures FirstNonNil(GetAnswers(handlers + more, world, key, caseSensitive, configured))
      == FirstNonNil(GetAnswers(handlers, world, key, caseSensitive, configured))
  {
    var a := GetAnswers(handlers, world, key, caseSensitive, configured);
    var b := GetAnswers(more, world, key, caseSensitive, configured);
    var all := GetAnswers(handlers + more, world, key, caseSensitive, configured);
    forall k | 0 <= k < |all|
      ensures all[k] == (a + b)[k]
    {
      if k < |handlers| {
        assert (handlers + more)[k] == handlers[k];
      } else {
        assert (handlers + more)[k] == more[k - |handlers|];
      }
    }
    assert all == a + b;
    FirstNonNilIgnoresSuffix(a, b);
  }

  /** The scan of `get` never looks past the answer it stops at. */
  lemma {:induction false} FirstNonNilIgnoresSuffix(a: seq<Outcome<Value>>, b: seq<Outcome<Value>>)
    requires FirstNonNil(a) != Ok(None)
    ensures FirstNonNil(a + b) == FirstNonNil(a)
  {
    assert |a| > 0;
    assert (a + b)[0] == a[0];
    assert (a + b)[1..] == a[1..] + b;
    if a[0] == Ok(Nil) {
      FirstNonNilIgnoresSuffix(a[1..], b);
    }
  }

  /**
   * A found value is the whole answer: no missing-key action runs and the
   * default is not consulted, whatever the default and actions are.
   */
  lemma FoundValueSkipsMissingKey(settings: Settings, config: Configuration, world: World, call: (nat, Value) -> Value,
                                  key: Value, caseSensitive: Option<bool>, coerce: bool,
                                  default1: Value, onMissingKey1: Value, default2: Value, onMissingKey2: Value)
    requires Truthy(key)
    requires FirstNonNil(GetAnswers(settings.handlers, world, key, caseSensitive, config.caseSensitive)).Ok?
    requires FirstNonNil(GetAnswers(settings.handlers, world, key, caseSensitive, config.caseSensitive)).value.Some?
    ensures var r := GetSpec(settings, config, world, call, key, default1, caseSensitive, coerce, onMissingKey1);
      && r.events == []
      && r == GetSpec(settings, config, world, call, key, default2, caseSensitive, coerce, onMissingKey2)
  {
  }

  /**
   * With `coerce: false` the first non-nil answer is returned exactly as the
   * handler gave it; with `coerce: true` it goes through the coercer.
   */
  lemma UncoercedValueIsRaw(settings: Settings, config: Configuration, world: World, call: (nat, Value) -> Value,
                            key: Value, default: Value, caseSensitive: Option<bool>, onMissingKey: Value, i: nat)
    requires Truthy(key)
    requires var answers := GetAnswers(settings.handlers, world, key, caseSensitive, config.caseSensitive);
      && i < |answers| && answers[i].Ok? && answers[i].value != Nil
      && forall j :: 0 <= j < i ==> answers[j] == Ok(Nil)
    ensures var answers := GetAnswers(settings.handlers, world, key, caseSensitive, config.caseSensitive);
      && GetSpec(settings, config, world, call, key, default, caseSensitive, false, onMissingKey) == Response([], answers[i])
      && GetSpec(settings, config, world, call, key, default, caseSensitive, true, onMissingKey)
        == Response([], Ok(Coercer.Coerce(settings.coercer, answers[i].value)))
  {
  }

  /**
   * On a miss, `:raise` ends the actions: the earlier actions' events are
   * kept, the later actions do not run, and the default is never evaluated.
   */
  lemma RaiseSkipsDefault(config: Configuration, call: (nat, Value) -> Value, key: Value, default: Value,
                          onMissingKey: Value, i: nat)
    requires var actions := ActionList(config, onMissingKey);
      && i < |actions| && actions[i] == Sym("raise")
      && forall j :: 0 <= j < i ==> ActionEffect(actions[j], key).Ok?
    ensures var r := MissingKey(config, call, key, default, onMissingKey);
      && r.result == Raised(MissingKeyRaised(key))
      && |r.events| == i
  {
    var actions := ActionList(config, onMissingKey);
    FirstFailureStops(actions, key, i);
  }

  /** The action list fails exactly at its first failing action, after that many events. */
  lemma {:induction false} FirstFailureStops(actions: seq<Value>, key: Value, i: nat)
    requires i < |actions| && ActionEffect(actions[i], key).Raised?
    requires forall j :: 0 <= j < i ==> ActionEffect(actions[j], key).Ok?
    ensures RunActions(actions, key).failure == Some(ActionEffect(actions[i], key).error)
    ensures |RunActions(actions, key).events| == i
  {
    if i > 0 {
      assert forall j :: 0 <= j < i - 1 ==> actions[1..][j] == actions[j + 1];
      FirstFailureStops(actions[1..], key, i - 1);
    }
  }

  /**
   * When no action raises, the default is chosen: the call's default
   * whenever it is not NO_DEFAULT (nil and false included), otherwise the
   * configured default; a callable is called with the key.
   */
  lemma DefaultPrecedence(config: Configuration, call: (nat, Value) -> Value, key: Value, default: Value, onMissingKey: Value)
    requires forall a :: a in ActionList(config, onMissingKey) ==> ActionEffect(a, key).Ok?
    ensures var chosen := if default == NoDefault then config.defaultValue else default;
      MissingKey(config, call, key, default, onMissingKey).result
        == Ok(if chosen.Proc? then call(chosen.id, key) else chosen)
    ensures default != NoDefault && !default.Proc? ==> MissingKey(config, call, key, default, onMissingKey).result == Ok(default)
    ensures |MissingKey(config, call, key, default, onMissingKey).events| == |ActionList(config, onMissingKey)|
  {
    var actions := ActionList(config, onMissingKey);
    assert forall i :: 0 <= i < |actions| ==> ActionEffect(actions[i], key).Ok? by {
      forall i | 0 <= i < |actions| ensures ActionEffect(actions[i], key).Ok? {
        assert actions[i] in actions;
      }
    }
  }

  /** NO_DEFAULT is not nil: an explicit nil default wins over a configured default. */
  lemma NilDefaultIsNotNoDefault(config: Configuration, call: (nat, Value) -> Value, key: Value, onMissingKey: Value)
    requires forall a :: a in ActionList(config, onMissingKey) ==> ActionEffect(a, key).Ok?
    ensures NoDefault != Nil
    ensures MissingKey(config, call, key, Nil, onMissingKey).result == Ok(Nil)
  {
    DefaultPrecedence(config, call, key, Nil, onMissingKey);
  }

  /** A per-call action list overrides the configured one; a lone action is wrapped in a list. */
  lemma PerCallActionsOverride(config: Configuration, onMissingKey: Value)
    requires Truthy(onMissingKey)
    ensures ActionList(config, onMissingKey) == if onMissingKey.List? then onMissingKey.items else [onMissingKey]
  {
  }

  /** A symbol that names no action raises "Unknown on_missing_key handler", and the default is not evaluated. */
  lemma UnknownActionRaises(config: Configuration, call: (nat, Value) -> Value, key: Value, default: Value, name: string)
    requires name != "raise" && Sym(name) !in LogActions().Keys
    ensures MissingKey(config, call, key, default, Sym(name)) == Response([], Raised(UnknownAction(Sym(name))))
  {
  }

  /** The configured actions `[:log_error]` log one ERROR entry naming the key, then the default follows. */
  lemma DefaultActionLogsError(config: Configuration, call: (nat, Value) -> Value, key: Value, default: Value)
    requires config.onMissingKey == List([Sym("log_error")])
    ensures MissingKey(config, call, key, default, Nil)
      == Response([Logged(ERROR, key)], Ok(DefaultFor(config, call, key, default)))
  {
    assert ActionList(config, Nil) == [Sym("log_error")];
    assert [Sym("log_error")][1..] == [];
  }

  /**
   * When no handler raises, `defined?` is true exactly when some handler
   * says so; a nil or false key is never defined.
   */
  lemma DefinedIffSomeHandler(settings: Settings, config: Configuration, world: World, key: Value, caseSensitive: Option<bool>)
    requires forall i :: 0 <= i < |settings.handlers| ==>
      HandlerDefined(settings.handlers[i], world, key, caseSensitive, config.caseSensitive).Ok?
    ensures Defined(settings, config, world, key, caseSensitive).Ok?
    ensures Defined(settings, config, world, key, caseSensitive).value <==>
      (Truthy(key)
       && exists i :: 0 <= i < |settings.handlers|
            && HandlerDefined(settings.handlers[i], world, key, caseSensitive, config.caseSensitive) == Ok(true))
  {
    var hs := settings.handlers;
    var answers := DefinedAnswers(hs, world, key, caseSensitive, config.caseSensitive);
    forall i | 0 <= i < |hs|
      ensures answers[i] == HandlerDefined(hs[i], world, key, caseSensitive, config.caseSensitive)
    {
    }
    FirstTrueOfAnswers(answers);
  }

  /** A scan over answers none of which raised: true exactly when one of them is true. */
  lemma FirstTrueOfAnswers(answers: seq<Outcome<bool>>)
    requires forall i :: 0 <= i < |answers| ==> answers[i].Ok?
    ensures FirstTrue(answers).Ok?
    ensures FirstTrue(answers).value <==> exists i :: 0 <= i < |answers| && answers[i] == Ok(true)
  {
    var r := FirstTrue(answers);
    if r == Ok(false) {
      assert forall i :: 0 <= i < |answers| ==> answers[i] == Ok(false);
    }
  }

  /** A handler named by a class name behaves as the class itself; an unknown name raises. */
  lemma NamedHandlerIsClassHandler(world: World, name: string, params: map<string, Value>)
    ensures name in world.classes ==>
      InitializeHandler(world, HandlerSpec(ByName(name), params)) == Instantiate(world.classes[name], params)
    ensures name !in world.classes ==> InitializeHandler(world, HandlerSpec(ByName(name), params)) == Raised(NoMethod)
  {
  }

  /** `{ handler: ConfigGem, params: { const_name: n } }` builds a ConfigGem handler reading the constant `n`. */
  lemma ConfigGemParams(world: World, name: string)
    ensures InitializeHandler(world, HandlerSpec(ByClass(ConfigGemClass), map["const_name" := Str(name)]))
      == Ok(ConfigGemHandler(ConfigGem.ConfigGem(Str(name))))
  {
    assert map["const_name" := Str(name)].Keys == {"const_name"};
  }

  /**
   * `Settings.new(handlers: [ConfigGem])` builds a resolver whose only
   * handler reads the `Settings` constant, so `get` consults neither the
   * environment nor the credentials.
   */
  lemma ConfigGemOnlyList(world: World, config: Configuration, key: Value, caseSensitive: Option<bool>)
    ensures var gem := ConfigGem.ConfigGem(Str(ConfigGem.DefaultConstName));
      && New(world, config, Some([HandlerSpec(ByClass(ConfigGemClass), map[])])).Ok?
      && New(world, config, Some([HandlerSpec(ByClass(ConfigGemClass), map[])])).value.handlers == [ConfigGemHandler(gem)]
      && GetAnswers([ConfigGemHandler(gem)], world, key, caseSensitive, config.caseSensitive)
         == [ConfigGem.Get(gem, world.constants, key, caseSensitive, config.caseSensitive)]
  {
    var specs := [HandlerSpec(ByClass(ConfigGemClass), map[])];
    var empty: map<string, Value> := map[];
    assert |empty| == 0;
    assert specs[1..] == [];
    assert InitializeHandlers(world, specs[1..]) == Ok([]);
    assert [ConfigGemHandler(ConfigGem.New(Nil))] + [] == [ConfigGemHandler(ConfigGem.New(Nil))];
  }
}
