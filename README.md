# unified_settings: key resolution, in Dafny

This project models how the Ruby gem `unified_settings` resolves a setting
key. It proves properties of that model.

A key such as `"foo.bar"`, `:foo` or `["foo", "bar"]` is given to an ordered
list of handlers. The default list is Env, Credentials and Constants; the
ConfigGem handler and any handler instance can be added.

- Each handler looks the key up in its own store, first as given and then,
  unless case-sensitive, upcased and downcased.
- The first non-nil answer wins. When asked, it is coerced: `"true"` becomes
  `true`, `"1"` becomes `1`, and `"a,b"` becomes `["a", "b"]`.
- When every handler misses, the missing-key actions run in order. They log,
  call a callable, or raise. Then the default is returned.
- `defined?` asks the same handlers whether they know the key.

The model has one module per Ruby file:

| module | Ruby file | form |
|---|---|---|
| `Values`, `Text`, `Numbers` | (Ruby built-ins) | Ruby values, raised errors, `strip`, ASCII `upcase`/`downcase`/`casecmp`, `String#split`, `Integer()`, `Float()` |
| `Coercer` | `lib/unified_settings/coercer.rb` | pure functions and lemmas |
| `Base` | `lib/unified_settings/handlers/base.rb` | functions, plus the loop method `NestedKeyExists` |
| `Env`, `Credentials`, `ConfigGem`, `Constants` | `lib/unified_settings/handlers/*.rb` | pure functions, reference definitions and lemmas |
| `Settings` | `lib/unified_settings/settings.rb` | `Settings.new` and `defined?` as functions; `get` as a method proved against `GetSpec`; `handle_on_missing_key` as a loop method producing an event trace |
| `UnifiedSettings` | `lib/unified_settings/unified_settings.rb` | the mutable `Config` class, and a `Registry` class holding the module's `@config` and `@settings` |

The stores are parameters gathered in `Settings.World`:

- the environment, as a map of strings;
- the credentials, as a nested Hash value;
- the Ruby constants, as a `ConstantTable` of top-level constants, namespaces and their members;
- the handler classes reachable by name.

A Ruby exception is an `Outcome` that is `Raised`.

## Model

| member | source | states |
|---|---|---|
| Base.Split | lib/unified_settings/handlers/base.rb:20-31 | a String or Symbol key becomes its `split` fields as strings, an Array key passes through unchanged, and any other key raises |
| Base.CaseSensitive | lib/unified_settings/handlers/base.rb:33-39 | an unspecified mode means the configured one; an explicit true or false is kept |
| Base.ToSymbolArray | lib/unified_settings/handlers/base.rb:41-43 | a String or Symbol key always succeeds; an Array key succeeds exactly when every element is text; any other key raises InvalidKeyKind |
| Base.ToSymbols | lib/unified_settings/handlers/base.rb:42 | `to_sym` succeeds exactly when every element is text, keeping count and order; otherwise NoMethodError |
| Base.ToSymbolArrayOfText | lib/unified_settings/handlers/base.rb:41-43 | a String or Symbol key becomes exactly the fields of Ruby's `split` |
| Base.ToSymbolArrayOfList | lib/unified_settings/handlers/base.rb:41-43 | an Array key keeps its elements' count and order, or raises NoMethodError if one is not text |
| Base.ToSymbolArrayRejects | lib/unified_settings/handlers/base.rb:28-29 | nil, false, numbers and other non-key values raise "key must either be a string or an array" |
| Base.NestedKeyExists | lib/unified_settings/handlers/base.rb:45-57 | the loop returns what `FirstSegmentPresent` says |
| Base.FirstSegmentPresent | lib/unified_settings/handlers/base.rb:45-57 | true exactly when the store is a Hash and holds the first key; it raises NoMethodError exactly when the store is neither nil nor a Hash and there is a key; false otherwise (nil store, no keys) |
| Base.NestedKeyExistsIgnoresDeeperKeys | lib/unified_settings/handlers/base.rb:48-54 | two key lists with the same first key get the same answer, so deeper segments are never examined |
| Base.Dig | lib/unified_settings/handlers/credentials.rb:31 | `dig` with no keys raises; a non-nil result is the value stored at the end of that path, level by level |
| Base.DigFindsStoredValue | lib/unified_settings/handlers/credentials.rb:31 | digging a path that exists level by level returns the value stored at its end |
| Base.AbstractGet | lib/unified_settings/handlers/base.rb:13-15 | the abstract `get` always raises |
| Coercer.Coerce | lib/unified_settings/coercer.rb:19-24 | nil, false and every non-String value come back unchanged |
| Coercer.CoerceValue | lib/unified_settings/coercer.rb:43-59 | a coerced scalar is nil, a boolean, an integer or a float, of a kind enabled in `coercions` |
| Coercer.CoerceValueSound | lib/unified_settings/coercer.rb:43-59 | a coerced scalar comes from an enabled kind that recognises the string, and no enabled kind earlier in the order nil, boolean, integer, float recognises it |
| Coercer.CoerceValueComplete | lib/unified_settings/coercer.rb:43-59 | when some enabled kind recognises the string, coercion applies, with a kind no later than that one |
| Coercer.DisabledKindSkipped | lib/unified_settings/coercer.rb:68-103 | a kind missing from `coercions` never produces the result |
| Coercer.ScalarWhenNotSplit | lib/unified_settings/coercer.rb:28-37 | with splitting off, or no separator in the stripped string, the result is one scalar and never a list; an unrecognised string comes back stripped |
| Coercer.ListWhenSplit | lib/unified_settings/coercer.rb:28-34 | with splitting on and the separator present, the result is a list with one coerced, stripped element per split part |
| Coercer.CoerceIgnoresSurroundingBlanks | lib/unified_settings/coercer.rb:26-37 | surrounding blanks never change the result |
| Coercer.DisabledCoercerStrips | lib/unified_settings/coercer.rb:26-37 | with no coercions and no splitting, coercion is `strip` |
| Coercer.BooleanKeywordRoundTrip | lib/unified_settings/coercer.rb:75-81 | `true` or `false` in any letter case coerces to that boolean under the default coercer |
| Coercer.IntegerRoundTrip | lib/unified_settings/coercer.rb:83-92 | every integer, printed in decimal, coerces back to itself |
| Coercer.WordStaysString | lib/unified_settings/coercer.rb:36-37 | a plain word without a separator character stays the same string |
| Coercer.TwoWordsSplit | lib/unified_settings/coercer.rb:29-34 | two plain words joined by the separator become a list of the two strings |
| Coercer.PlainWordUncoerced | lib/unified_settings/coercer.rb:43-58 | no coercion applies to a plain word, so it is kept as given |
| Coercer.PipeSeparatorKeepsCommas | test/coercer_test.rb:53-58 | with separator `\|`, `string1,string2` stays one string |
| Coercer.CommaSeparatorSplits | test/coercer_test.rb:45-49 | with the default separator, `string1,string2` becomes `["string1", "string2"]` |
| Numbers.ParseIntegerRoundTrip | lib/unified_settings/coercer.rb:87 | `Integer()` reads back every integer printed in decimal |
| Numbers.NoNumberWithoutLeadingDigit | lib/unified_settings/coercer.rb:83-103 | a string starting with neither a digit, a sign nor a point is neither an Integer nor a Float |
| Numbers.LeadingPointFloat | lib/unified_settings/coercer.rb:83-103 | `.5` is the Float 0.5 (no digit is needed before the point) but not an Integer |
| Numbers.LeadingZeroOctal | lib/unified_settings/coercer.rb:83-92 | a leading 0 makes `Integer()` read octal, with the 0 as a digit: `0_7` is 7, `017` is 15, and `08` is rejected |
| Env.ProbesAreCaseVariants | lib/unified_settings/handlers/env.rb:15-22 | the second and third probed names are the first one upcased and downcased |
| Env.Defined | lib/unified_settings/handlers/env.rb:11-26 | raises only for a bad key; true when the exact name is set; case-sensitive, it is exactly whether the exact name is set |
| Env.Get | lib/unified_settings/handlers/env.rb:28-44 | raises only for a bad key; a non-nil result is the string value of some environment variable |
| Env.DefinedIffSomeProbeSet | lib/unified_settings/handlers/env.rb:11-26 | `defined?` is true exactly when one of the probed names is set |
| Env.GetIsFirstSetProbe | lib/unified_settings/handlers/env.rb:28-44 | `get` returns the value of the first probed name that is set, and nil when none is |
| Env.GetAgreesWithDefined | lib/unified_settings/handlers/env.rb:11-44 | `get` and `defined?` raise for the same keys, and `get` is non-nil exactly when `defined?` is true |
| Env.CaseSensitiveProbesExactName | lib/unified_settings/handlers/env.rb:15-34 | in case-sensitive mode only the exact joined name is consulted |
| Env.UpperCaseVariableFound | lib/unified_settings/handlers/env.rb:32-39 | with FOO__BAR set, `foo.bar` finds it case-insensitively and misses case-sensitively |
| Credentials.GetIsFirstTruthyDig | lib/unified_settings/handlers/credentials.rb:27-39 | `get` is the first truthy dig among exact, downcased and upcased paths, or else the last dig's result; case-sensitive it is nil |
| Credentials.Defined | lib/unified_settings/handlers/credentials.rb:9-25 | a bad key raises; with Hash or nil credentials it never raises, and nil credentials define nothing |
| Credentials.Get | lib/unified_settings/handlers/credentials.rb:27-39 | a bad key raises; a non-nil result is stored at the exact path or, case-insensitively, at the downcased or upcased path |
| Credentials.DefinedIsFirstSegmentInAnyCase | lib/unified_settings/handlers/credentials.rb:9-25 | for every key and store: nil credentials or an empty key give false; credentials that are neither nil nor a Hash raise NoMethodError; otherwise `defined?` is whether the first segment is at the top level, as given or, when case-insensitive, upcased or downcased |
| Credentials.GetFindsStoredValue | lib/unified_settings/handlers/credentials.rb:31-32 | a truthy credential at the exact path is returned in either mode |
| Credentials.StoredFalseReadsAsNil | lib/unified_settings/handlers/credentials.rb:31-33 | a stored `false` is defined but reads back as nil when case-sensitive |
| Credentials.DowncasedFalseReadsAsNil | lib/unified_settings/handlers/credentials.rb:34-38 | when case-insensitive, a `false` stored only under the downcased path is defined but reads back as nil |
| Credentials.DowncasedPathFound | lib/unified_settings/handlers/credentials.rb:35-36 | when case-insensitive, a key whose exact path misses finds a truthy credential under its downcased path |
| ConfigGem.New | lib/unified_settings/handlers/config_gem.rb:12-15 | a nil or false `const_name` falls back to `Settings`; any other name is kept |
| ConfigGem.SettingObject | lib/unified_settings/handlers/config_gem.rb:46-48 | the top-level constant of that name, or NameError when there is none |
| ConfigGem.Defined | lib/unified_settings/handlers/config_gem.rb:17-28 | a bad key raises, then a missing setting object raises its NameError |
| ConfigGem.Get | lib/unified_settings/handlers/config_gem.rb:30-42 | the same raises as `defined?`; a non-nil result is stored in the setting object at the exact path or, case-insensitively, at the downcased or upcased path |
| ConfigGem.DefinedIsFirstSegmentInAnyCase | lib/unified_settings/handlers/config_gem.rb:17-28 | for every key and setting object: `defined?` is whether a Hash object holds the first segment as given or, case-insensitively, upcased or downcased; false for a nil object or an empty key; NoMethodError for any other object |
| ConfigGem.GetIsFirstNonNilDig | lib/unified_settings/handlers/config_gem.rb:30-42 | `get` is the first non-nil dig among exact, downcased and upcased paths, or only the exact path when case-sensitive |
| ConfigGem.MissingSettingObjectRaises | lib/unified_settings/handlers/config_gem.rb:17-48 | with no setting object under the configured name, both `get` and `defined?` raise |
| ConfigGem.StoredFalseIsFound | lib/unified_settings/handlers/config_gem.rb:34-35 | a stored `false` is returned and reported as defined, in either mode |
| ConfigGem.OtherCaseKeyFoundOnlyWhenInsensitive | lib/unified_settings/handlers/config_gem.rb:17-42 | a setting stored under the key's downcased name is found case-insensitively and missed case-sensitively |
| Constants.KeyToClassAndVariable | lib/unified_settings/handlers/constants.rb:47-71 | a bad key raises; no segments raises (NoMethodError, or TypeError case-sensitively); one segment has no namespace; more segments give `safe_constantize` of the joined prefix; the names are the last segment, or it, its upcase and its downcase when case-insensitive |
| Constants.FirstResolved | lib/unified_settings/handlers/constants.rb:34-42 | the value of the first candidate that resolves, whatever it is, and nil when none does; a non-nil result is some candidate's constant |
| Constants.AnyTruthy | lib/unified_settings/handlers/constants.rb:16-26 | true exactly when some candidate resolves to a truthy constant |
| Constants.Defined | lib/unified_settings/handlers/constants.rb:11-27 | a bad key raises; otherwise true exactly when some candidate name resolves to a truthy constant |
| Constants.Get | lib/unified_settings/handlers/constants.rb:29-43 | a bad key raises; a non-nil result is the constant one of the candidate names resolves to |
| Constants.UnresolvedNamespaceFallsBackToGlobal | lib/unified_settings/handlers/constants.rb:53-61 | a namespace prefix that names no module makes both methods look the member up among the top-level constants |
| Constants.UnresolvableNameMisses | lib/unified_settings/handlers/constants.rb:22-42 | a key no candidate resolves is not an error: `get` gives nil and `defined?` gives false |
| Constants.FalseConstantReadButNotDefined | lib/unified_settings/handlers/constants.rb:16-37 | a constant whose value is `false` is returned by `get` but not reported by `defined?` |
| Constants.GetIsFirstResolvedCandidate | lib/unified_settings/handlers/constants.rb:29-43 | `get` returns the value of the first candidate that resolves |
| Constants.NamespacedTarget | lib/unified_settings/handlers/constants.rb:53-68 | a two-segment key whose prefix names a module targets that module with the last segment's case variants |
| Constants.OtherCaseMemberFound | lib/unified_settings/handlers/constants.rb:63-68 | a mixed-case member name finds the upcased member only when case-insensitive |
| Constants.MixedCaseNameNeedsCaseInsensitivity | test/handlers/constants_test.rb:21-29 | `ConstantsTest::Test_Const` reaches `TEST_CONST` case-insensitively and misses it case-sensitively |
| Settings.Instantiate | lib/unified_settings/settings.rb:58-60 | with no params each class builds its own handler (ConfigGem reading `Settings`); with params only ConfigGem with exactly `const_name` builds, reading that name; anything else raises ArgumentError |
| Settings.InitializeHandler | lib/unified_settings/settings.rb:48-68 | a class is instantiated with the entry's params, an instance is used as is, an unknown class name raises NoMethodError, a known name is built like its class, and anything else is unsupported |
| Settings.InitializeHandlers | lib/unified_settings/settings.rb:12 | building succeeds exactly when every entry does, giving one handler per entry in order |
| Settings.New | lib/unified_settings/settings.rb:10-18 | the given handler list, or the configured one when none is given, and a coercer built from the configuration |
| Settings.FirstTrue | lib/unified_settings/settings.rb:20-28 | true exactly when some answer is true after only false answers, and false exactly when all are false; a raise before that is reported |
| Settings.Defined | lib/unified_settings/settings.rb:20-28 | a nil or false key is never defined; a true answer means some handler said the key is defined |
| Settings.DefinedIffSomeHandler | lib/unified_settings/settings.rb:20-28 | when no handler raises, `defined?` is true exactly when the key is truthy and some handler says it is defined |
| Settings.FirstTrueOfAnswers | lib/unified_settings/settings.rb:23-27 | a scan of answers that did not raise is true exactly when one of them is true |
| Settings.FirstNonNil | lib/unified_settings/settings.rb:36-41 | the scan finds nothing exactly when every answer is nil; otherwise it finds the first non-nil answer, or the first raise before it |
| Settings.FirstAnswer | lib/unified_settings/settings.rb:36-41 | the loop over the handlers returns what `FirstNonNil` says of their answers |
| Settings.Get | lib/unified_settings/settings.rb:30-44 | the method returns what `GetSpec` says for the same configuration, stores and arguments |
| Settings.GetSpec | lib/unified_settings/settings.rb:30-44 | a nil or false key reads nil with no events; when every handler answers nil the missing-key path runs; events occur only in that case |
| Settings.HandleMissingKey | lib/unified_settings/settings.rb:70-81 | the actions run first, and the default is evaluated only when none of them raised |
| Settings.MissingKey | lib/unified_settings/settings.rb:70-81 | the events are those of the action list; the result raises exactly when an action raised, with its error; otherwise it is the default |
| Settings.DefaultFor | lib/unified_settings/settings.rb:73-80 | the call's default unless it is NO_DEFAULT, else the configured one; a callable is called with the key |
| Settings.ActionList | lib/unified_settings/settings.rb:85-86 | a truthy per-call `on_missing_key` replaces the configured one, and a lone action becomes a one-element list |
| Settings.ActionEffect | lib/unified_settings/settings.rb:88-109 | a callable is called with the key; `:raise` raises the missing-key error; each log action logs at its level; anything else raises "Unknown on_missing_key handler" |
| Settings.RunActions | lib/unified_settings/settings.rb:88-110 | the events are those of the actions before the first failure, in order; there is no failure exactly when every action succeeds |
| Settings.HandleOnMissingKey | lib/unified_settings/settings.rb:84-111 | the loop produces what `RunActions` says of the chosen action list |
| Settings.FalsyKeyShortCircuits | lib/unified_settings/settings.rb:20-34 | a nil or false key gives `defined?` false and `get` nil, with no events |
| Settings.LaterHandlersIrrelevant | lib/unified_settings/settings.rb:36-41 | once some handler answers non-nil or raises, appending handlers changes nothing |
| Settings.FirstNonNilIgnoresSuffix | lib/unified_settings/settings.rb:36-41 | a scan that stops early is unaffected by answers after it |
| Settings.FoundValueSkipsMissingKey | lib/unified_settings/settings.rb:38-43 | a found value produces no events, and the default and actions do not change the result |
| Settings.UncoercedValueIsRaw | lib/unified_settings/settings.rb:36-40 | the first non-nil answer is returned as given with `coerce: false` and through the coercer with `coerce: true` |
| Settings.RaiseSkipsDefault | lib/unified_settings/settings.rb:70-116 | `:raise` ends the actions with the missing-key error, after the events of the actions before it |
| Settings.FirstFailureStops | lib/unified_settings/settings.rb:88-110 | the action list fails at its first failing action, after exactly that many events |
| Settings.DefaultPrecedence | lib/unified_settings/settings.rb:73-80 | the call's default wins unless it is NO_DEFAULT, else the configured default; a callable is called with the key; every action left one event |
| Settings.NilDefaultIsNotNoDefault | lib/unified_settings/settings.rb:73-77 | NO_DEFAULT is not nil, so an explicit nil default is returned even when a default is configured |
| Settings.PerCallActionsOverride | lib/unified_settings/settings.rb:85-86 | a truthy per-call action, or list of actions, is exactly what runs |
| Settings.UnknownActionRaises | lib/unified_settings/settings.rb:107-108 | a symbol naming no action raises "Unknown on_missing_key handler" before any default |
| Settings.DefaultActionLogsError | lib/unified_settings/settings.rb:103-104 | the configured `[:log_error]` logs one ERROR entry naming the key, then the default is returned |
| Settings.NamedHandlerIsClassHandler | lib/unified_settings/settings.rb:56-58 | a handler given by class name is built like the class itself; an unknown name raises NoMethodError |
| Settings.ConfigGemParams | lib/unified_settings/settings.rb:59-60 | `{ handler: ConfigGem, params: { const_name: n } }` builds a ConfigGem handler that reads constant `n`, for every string `n` |
| Settings.ConfigGemOnlyList | test/rails/test/lib/unified_settings/settings_test.rb:242-254 | `Settings.new(handlers: [ConfigGem])` has the single ConfigGem handler reading `Settings`, so `get` asks only that handler |
| UnifiedSettings.Config.constructor | lib/unified_settings/unified_settings.rb:13-23 | a new Config holds Env, Credentials and Constants, a nil default, case-insensitivity, `[:log_error]`, all coercions, and array splitting on `,` |
| UnifiedSettings.Config.Assign | lib/unified_settings/unified_settings.rb:10-11 | after the attribute writers the config holds exactly the new values |
| UnifiedSettings.Registry.constructor | lib/unified_settings/unified_settings.rb:28-37 | before anything runs there is no config and no shared Settings instance |
| UnifiedSettings.Registry.GetConfig | lib/unified_settings/unified_settings.rb:28-30 | the first call creates a default Config; later calls return the same object, unchanged |
| UnifiedSettings.Registry.Configure | lib/unified_settings/unified_settings.rb:32-37 | the block rewrites the config, then the shared instance is built from it; if building raises, the shared instance stays as it was and the block's changes remain |
| UnifiedSettings.Registry.Defined | lib/unified_settings/unified_settings.rb:39-42 | without `handlers:`, the shared instance answers, or NoMethodError before `configure`; with `handlers:`, a fresh Settings built from that list answers |
| UnifiedSettings.Registry.Get | lib/unified_settings/unified_settings.rb:44-57 | the same choice of instance as `defined?`; the key, default, case_sensitive, coerce and on_missing_key arguments are passed on unchanged |
| UnifiedSettings.DefaultSettings | lib/unified_settings/unified_settings.rb:14-16 | the default handler list builds the Env, Credentials and Constants handlers, in that order, with the default coercer |
| UnifiedSettings.DefaultMissLogsErrorAndReadsNil | lib/unified_settings/unified_settings.rb:17-19 | with the default configuration and no default given, a miss logs one ERROR entry and reads as nil |

## Code and tests disagree

The model follows the code in each of these cases.

- **Credentials and `false`.** `Credentials#get` treats a falsy dig as a miss (lib/unified_settings/handlers/credentials.rb:32). So a credential stored as `false` reads back as nil. In case-sensitive mode the exact dig finds `false`, which is skipped, and nil is returned; see `Credentials.StoredFalseReadsAsNil`. In case-insensitive mode an upcased key misses at the exact path, the downcased dig finds `false` and skips it, and the upcased dig returns nil; see `Credentials.DowncasedFalseReadsAsNil`. The test at test/rails/test/lib/unified_settings/handlers/credentials_test.rb:74-88 expects `false` from both calls.
- **Constants and `false`.** `Constants#defined?` needs a truthy constant (lib/unified_settings/handlers/constants.rb:18-19). So a constant whose value is `false` is not defined; see `Constants.FalseConstantReadButNotDefined`. test/handlers/constants_test.rb:69-84 expects it to be defined.
- **Only the first key is checked.** `nested_key_exists?` returns true as soon as a level holds its key (lib/unified_settings/handlers/base.rb:51). Its answer is therefore whether the top level holds the first segment, and `defined?` for Credentials and ConfigGem is true for `a.missing` whenever `a` exists; see `Base.NestedKeyExistsIgnoresDeeperKeys`.

## Left out

- Case mapping is ASCII only. Ruby's `upcase`, `downcase` and `casecmp` also fold some non-ASCII letters; `casecmp` itself is ASCII-only.
- `Float()` is modelled as the exact decimal value of a literal: an optional sign, digits (which may be absent before a fraction, as in `.5`), an optional fraction and an optional exponent, with single underscores between digits. IEEE rounding, hexadecimal floats and `Infinity`/`NaN` are not modelled.
- `Integer()` accepts an optional sign, a `0x`/`0b`/`0o`/`0d` prefix or a leading `0` for octal (that `0` counts as a digit, so `0_7` is 7), and single underscores between digits. Its other edge cases, such as surrounding whitespace (which the coercer strips anyway), are not modelled.
- Errors are kinds, not Ruby exception classes with messages. The missing-key error and log entries carry the key itself; the message text `error_message` renders from it (lib/unified_settings/settings.rb:125-127) is not modelled.
- Logging is an event in the result trace and can never fail. The logger's level filtering, the Rails logger and the stdout fallback are I/O (lib/unified_settings/settings.rb:118-123).
- Callables (`Proc` defaults and actions) are a total function `call` from a callable's identity and the key to a value. A callable that raises, or that has side effects, is not modelled, and a callable action's return value is ignored, as in the source.
- Ruby reflection is replaced by tables. `Object.const_get` and `klass.const_get` read a `ConstantTable`, and `safe_constantize` finds a namespace in the same table or a handler class in `World.classes`. Instantiating a class is `Settings.Instantiate`.
- Settings.InitializeHandler: the instance branch tests `when SettingHandler`, a constant that no file of the gem defines, so as written that `case` raises NameError for any handler that is not a String or Class. The model accepts a handler instance, as the error message and documentation describe.
- Settings.InitializeHandler: `params` is a map from keyword to value. A `params` that is not a Hash, and a `handler:` Hash without a `:handler` entry, are not modelled. A Hash entry whose `:params` is blank is the same as a bare entry.
- UnifiedSettings.Registry.Get: `handlers:` is either nil or a list of entries. `handlers: false`, which Ruby treats as "use the configured list", is not modelled.
- The `attr_accessor :handlers` of Settings, which lets a caller replace a built instance's handler list, is not modelled: a Settings value is immutable.
- The `configure` block is a function from the old attribute values to the new ones. A block that keeps the Config object and mutates it later is modelled only through `Config.Assign`.
- Thread safety of the module-level `@config` and `@settings` is not modelled.
- The Settings handler scans (`defined?`, `get`) are evaluated over the list of every handler's answer. Each answer is a pure function of the stores, so asking a handler the scan never reaches has no effect. What the model captures is the early exit: later answers never change the result.
- The loader (lib/unified_settings.rb), the ActiveRecord hook and the Rails version check are packaging, not behaviour.
