/**
 * UnifiedSettings::Handlers::ConfigGem: settings from the object the Config
 * gem publishes as a top-level constant (by default `Settings`).
 */
module ConfigGem {
  import opened Values
  import opened Text
  import opened Base

  /** DEFAULT_CONST_NAME. */
  const DefaultConstName: string := "Settings"

  /** A handler instance: `@const_name`, as the constructor stored it. */
  datatype ConfigGem = ConfigGem(constName: Value)

  /** `ConfigGem.new(const_name:)`: a nil or false name falls back to `Settings`. */
  function New(constName: Value): (r: ConfigGem)
    ensures Truthy(constName) ==> r.constName == constName
    ensures !Truthy(constName) ==> r.constName == Str(DefaultConstName)
  {
    ConfigGem(if Truthy(constName) then constName else Str(DefaultConstName))
  }

  /**
   * `setting_obj`: `Object.const_get("::#{@const_name}")`. A String or
   * Symbol name is looked up among the top-level constants; a name of any
   * other kind renders as text that is not a constant name.
   */
  function SettingObject(gem: ConfigGem, constants: ConstantTable): (r: Outcome<Value>)
    ensures HasSymbol(gem.constName) && SymbolText(gem.constName) in constants.globals
      ==> r == Ok(constants.globals[SymbolText(gem.constName)])
    ensures !(HasSymbol(gem.constName) && SymbolText(gem.constName) in constants.globals) ==> r.Raised?
  {
    if !HasSymbol(gem.constName) then Raised(UninitializedConstant(""))
    else
      var name := SymbolText(gem.constName);
      match constants.Global(name)
      case Some(v) => Ok(v)
      case None => Raised(UninitializedConstant(name))
  }

  /** `ConfigGem#defined?`: exact path, then (case-insensitive only) upcased, then downcased. */
  function Defined(gem: ConfigGem, constants: ConstantTable, key: Value, caseSensitive: Option<bool>, configured: bool): (r: Outcome<bool>)
    ensures ToSymbolArray(key).Raised? ==> r == Raised(ToSymbolArray(key).error)
    ensures ToSymbolArray(key).Ok? && SettingObject(gem, constants).Raised?
      ==> r == Raised(SettingObject(gem, constants).error)
  {
    var segments :- ToSymbolArray(key);
    var sensitive := CaseSensitive(caseSensitive, configured);
    var settings :- SettingObject(gem, constants);
    var exact :- FirstSegmentPresent(settings, segments);
    if exact then Ok(true)
    else if sensitive then Ok(false)
    else
      var upper :- FirstSegmentPresent(settings, UpcaseAll(segments));
      if upper then Ok(true)
      else FirstSegmentPresent(settings, DowncaseAll(segments))
  }

  /** `ConfigGem#get`: exact path, then (case-insensitive only) downcased, then upcased; only nil is a miss. */
  function Get(gem: ConfigGem, constants: ConstantTable, key: Value, caseSensitive: Option<bool>, configured: bool): (r: Outcome<Value>)
    ensures ToSymbolArray(key).Raised? ==> r == Raised(ToSymbolArray(key).error)
    ensures ToSymbolArray(key).Ok? && SettingObject(gem, constants).Raised?
      ==> r == Raised(SettingObject(gem, constants).error)
    ensures r.Ok? && !r.value.Nil? ==>
      var settings := SettingObject(gem, constants).value;
      var segments := ToSymbolArray(key).value;
      || PathLeadsTo(settings, segments, r.value)
      || (!CaseSensitive(caseSensitive, configured)
          && (PathLeadsTo(settings, DowncaseAll(segments), r.value)
              || PathLeadsTo(settings, UpcaseAll(segments), r.value)))
  {
    var segments :- ToSymbolArray(key);
    var sensitive := CaseSensitive(caseSensitive, configured);
    var settings :- SettingObject(gem, constants);
    var exact :- Dig(settings, segments);
    if !exact.Nil? then Ok(exact)
    else if sensitive then Ok(Nil)
    else
      var lower :- Dig(settings, DowncaseAll(segments));
      if !lower.Nil? then Ok(lower)
      else Dig(settings, UpcaseAll(segments))
  }

  // ---------------------------------------------------------------------
  // A reference definition for `get`: the first non-nil result among the
  // paths it digs.

  /** The paths `get` digs: as given; then, unless case-sensitive, downcased and upcased. */
  function GetPaths(segments: seq<string>, sensitive: bool): seq<seq<string>> {
    if sensitive then [segments] else [segments, DowncaseAll(segments), UpcaseAll(segments)]
  }

  /** Dig each path in turn and stop at the first non-nil value; a raise stops the search. */
  function FirstNonNilDig(store: Value, paths: seq<seq<string>>): Outcome<Value>
    decreases |paths|
  {
    if |paths| == 0 then Ok(Nil)
    else
      var v :- Dig(store, paths[0]);
      if !v.Nil? then Ok(v) else FirstNonNilDig(store, paths[1..])
  }

  /** `get` is exactly the first non-nil result of digging its paths in order in the setting object. */
  lemma GetIsFirstNonNilDig(gem: ConfigGem, constants: ConstantTable, key: Value, caseSensitive: Option<bool>, configured: bool)
    requires ToSymbolArray(key).Ok? && SettingObject(gem, constants).Ok?
    ensures Get(gem, constants, key, caseSensitive, configured)
      == FirstNonNilDig(SettingObject(gem, constants).value,
                        GetPaths(ToSymbolArray(key).value, CaseSensitive(caseSensitive, configured)))
  {
    var segments := ToSymbolArray(key).value;
    var sensitive := CaseSensitive(caseSensitive, configured);
    var settings := SettingObject(gem, constants).value;
    var paths := GetPaths(segments, sensitive);
    var exact := Dig(settings, segments);
    if exact.Ok? && exact.value.Nil? && !sensitive {
      assert paths[1..] == [DowncaseAll(segments), UpcaseAll(segments)];
      assert paths[1..][1..] == [UpcaseAll(segments)];
      var last := Dig(settings, UpcaseAll(segments));
      assert FirstNonNilDig(settings, [UpcaseAll(segments)]) == last by {
        assert [UpcaseAll(segments)][1..] == [];
      }
      var lower := Dig(settings, DowncaseAll(segments));
      assert FirstNonNilDig(settings, paths) == FirstNonNilDig(settings, paths[1..]);
      assert FirstNonNilDig(settings, paths[1..]) ==
        if lower.Raised? then lower else if !lower.value.Nil? then lower else last;
    } else if exact.Ok? && exact.value.Nil? {
      assert paths[1..] == [];
    }
  }

  /**
   * `defined?` looks only at the top level of the setting object: it is the
   * presence of the first segment, as given or (case-insensitive) upcased or
   * downcased. A nil object or an empty key gives false, and an object that
   * is neither nil nor a Hash has no `key?`.
   */
  lemma DefinedIsFirstSegmentInAnyCase(gem: ConfigGem, constants: ConstantTable, key: Value, caseSensitive: Option<bool>, configured: bool)
    requires ToSymbolArray(key).Ok? && SettingObject(gem, constants).Ok?
    ensures var settings := SettingObject(gem, constants).value;
      var segments := ToSymbolArray(key).value;
      && (settings.Nil? || |segments| == 0 ==> Defined(gem, constants, key, caseSensitive, configured) == Ok(false))
      && (!settings.Nil? && !settings.Hash? && |segments| > 0 ==>
            Defined(gem, constants, key, caseSensitive, configured) == Raised(NoMethod))
      && (settings.Hash? && |segments| > 0 ==>
            var first := segments[0];
            Defined(gem, constants, key, caseSensitive, configured) == Ok(
              first in settings.entries
              || (!CaseSensitive(caseSensitive, configured)
                  && (Upcase(first) in settings.entries || Downcase(first) in settings.entries))))
  {
    var segments := ToSymbolArray(key).value;
    if |segments| > 0 {
      assert UpcaseAll(segments)[0] == Upcase(segments[0]);
      assert DowncaseAll(segments)[0] == Downcase(segments[0]);
    }
  }

  /** Without a setting object under the configured name, both methods raise NameError. */
  lemma MissingSettingObjectRaises(gem: ConfigGem, constants: ConstantTable, key: Value, caseSensitive: Option<bool>, configured: bool)
    requires ToSymbolArray(key).Ok?
    requires !(HasSymbol(gem.constName) && SymbolText(gem.constName) in constants.globals)
    ensures Get(gem, constants, key, caseSensitive, configured).Raised?
    ensures Defined(gem, constants, key, caseSensitive, configured).Raised?
  {
  }

  /**
   * A setting stored as `false` counts as found: it is returned and reported
   * as defined, in either mode.
   */
  lemma StoredFalseIsFound(gem: ConfigGem, constants: ConstantTable, key: Value, caseSensitive: Option<bool>, configured: bool)
    requires ToSymbolArray(key).Ok? && |ToSymbolArray(key).value| > 0
    requires SettingObject(gem, constants).Ok?
    requires PathLeadsTo(SettingObject(gem, constants).value, ToSymbolArray(key).value, Bool(false))
    ensures Get(gem, constants, key, caseSensitive, configured) == Ok(Bool(false))
    ensures Defined(gem, constants, key, caseSensitive, configured) == Ok(true)
  {
    DigFindsStoredValue(SettingObject(gem, constants).value, ToSymbolArray(key).value, Bool(false));
  }

  /**
   * A one-segment key whose text is not a setting name but whose downcased
   * text is: case-insensitive lookups find the setting (even `false`), and
   * case-sensitive lookups miss.
   */
  lemma OtherCaseKeyFoundOnlyWhenInsensitive(gem: ConfigGem, constants: ConstantTable, key: Value, configured: bool, v: Value)
    requires ToSymbolArray(key).Ok? && |ToSymbolArray(key).value| == 1
    requires SettingObject(gem, constants).Ok? && SettingObject(gem, constants).value.Hash?
    requires var entries := SettingObject(gem, constants).value.entries;
      var name := ToSymbolArray(key).value[0];
      name !in entries && Downcase(name) in entries && entries[Downcase(name)] == v && !v.Nil?
    ensures Get(gem, constants, key, Some(false), configured) == Ok(v)
    ensures Defined(gem, constants, key, Some(false), configured) == Ok(true)
    ensures Get(gem, constants, key, Some(true), configured) == Ok(Nil)
    ensures Defined(gem, constants, key, Some(true), configured) == Ok(false)
  {
    var segments := ToSymbolArray(key).value;
    assert DowncaseAll(segments) == [Downcase(segments[0])];
  }
}
