/**
 * UnifiedSettings::Handlers::Env: settings from environment variables, the
 * key's segments joined with `__` (so `foo.bar` is FOO__BAR, foo__bar, ...).
 */
module Env {
  import opened Values
  import opened Text
  import opened Base

  /** ENV_KEY_NESTING_SEPARATOR. */
  const EnvKeyNestingSeparator: string := "__"

  /** `ENV.fetch(name, nil)`: environment values are always strings. */
  function Fetch(env: map<string, string>, name: string): Value {
    if name in env then Str(env[name]) else Nil
  }

  /** `Env#defined?`: the exact name, then (case-insensitive only) the upcased and downcased names. */
  function Defined(env: map<string, string>, key: Value, caseSensitive: Option<bool>, configured: bool): (r: Outcome<bool>)
    ensures ToSymbolArray(key).Raised? ==> r == Raised(ToSymbolArray(key).error)
    ensures ToSymbolArray(key).Ok? ==> r.Ok?
    ensures ToSymbolArray(key).Ok? && Join(ToSymbolArray(key).value, EnvKeyNestingSeparator) in env ==> r == Ok(true)
    ensures ToSymbolArray(key).Ok? && CaseSensitive(caseSensitive, configured)
      ==> r == Ok(Join(ToSymbolArray(key).value, EnvKeyNestingSeparator) in env)
  {
    var segments :- ToSymbolArray(key);
    var sensitive := CaseSensitive(caseSensitive, configured);
    if Join(segments, EnvKeyNestingSeparator) in env then Ok(true)
    else if sensitive then Ok(false)
    else if Join(UpcaseAll(segments), EnvKeyNestingSeparator) in env then Ok(true)
    else if Join(DowncaseAll(segments), EnvKeyNestingSeparator) in env then Ok(true)
    else Ok(false)
  }

  /** `Env#get`: the first truthy probe; otherwise what the last probe gave. */
  function Get(env: map<string, string>, key: Value, caseSensitive: Option<bool>, configured: bool): (r: Outcome<Value>)
    ensures ToSymbolArray(key).Raised? ==> r == Raised(ToSymbolArray(key).error)
    ensures ToSymbolArray(key).Ok? ==> r.Ok?
    ensures r.Ok? && !r.value.Nil? ==> r.value.Str? && r.value.s in env.Values
  {
    var segments :- ToSymbolArray(key);
    var sensitive := CaseSensitive(caseSensitive, configured);
    var exact := Fetch(env, Join(segments, EnvKeyNestingSeparator));
    if Truthy(exact) then Ok(exact)
    else if sensitive then Ok(Nil)
    else
      var upper := Fetch(env, Join(UpcaseAll(segments), EnvKeyNestingSeparator));
      if Truthy(upper) then Ok(upper)
      else Ok(Fetch(env, Join(DowncaseAll(segments), EnvKeyNestingSeparator)))
  }

  // ---------------------------------------------------------------------
  // A reference definition: the variable names probed, in order, and the
  // first of them that is set.

  /** The names probed for a key: as given; then, unless case-sensitive, upcased and downcased. */
  function Probes(segments: seq<string>, sensitive: bool): seq<string> {
    var exact := Join(segments, EnvKeyNestingSeparator);
    if sensitive then [exact]
    else [exact, Join(UpcaseAll(segments), EnvKeyNestingSeparator), Join(DowncaseAll(segments), EnvKeyNestingSeparator)]
  }

  /** The value of the first name that is set, or nil. */
  function FirstSet(env: map<string, string>, names: seq<string>): Value {
    if |names| == 0 then Nil
    else if names[0] in env then Str(env[names[0]])
    else FirstSet(env, names[1..])
  }

  /** The upcased and downcased probes are the exact probe in upper and lower case. */
  lemma ProbesAreCaseVariants(segments: seq<string>)
    ensures var p := Probes(segments, false);
      p[1] == Upcase(p[0]) && p[2] == Downcase(p[0])
  {
    UpcaseJoin(segments, EnvKeyNestingSeparator);
    DowncaseJoin(segments, EnvKeyNestingSeparator);
  }

  /** `defined?` is true exactly when one of the probed names is set. */
  lemma DefinedIffSomeProbeSet(env: map<string, string>, key: Value, caseSensitive: Option<bool>, configured: bool)
    requires ToSymbolArray(key).Ok?
    ensures var probes := Probes(ToSymbolArray(key).value, CaseSensitive(caseSensitive, configured));
      Defined(env, key, caseSensitive, configured) == Ok(exists i :: 0 <= i < |probes| && probes[i] in env)
  {
    var probes := Probes(ToSymbolArray(key).value, CaseSensitive(caseSensitive, configured));
    if |probes| == 1 {
      assert (exists i :: 0 <= i < |probes| && probes[i] in env) <==> probes[0] in env;
    } else {
      assert (exists i :: 0 <= i < |probes| && probes[i] in env)
        <==> probes[0] in env || probes[1] in env || probes[2] in env;
    }
  }

  /** `get` returns the value of the first probed name that is set, and nil when none is. */
  lemma GetIsFirstSetProbe(env: map<string, string>, key: Value, caseSensitive: Option<bool>, configured: bool)
    requires ToSymbolArray(key).Ok?
    ensures Get(env, key, caseSensitive, configured)
      == Ok(FirstSet(env, Probes(ToSymbolArray(key).value, CaseSensitive(caseSensitive, configured))))
  {
    var segments := ToSymbolArray(key).value;
    var sensitive := CaseSensitive(caseSensitive, configured);
    var probes := Probes(segments, sensitive);
    var exact := Join(segments, EnvKeyNestingSeparator);
    assert Get(env, key, caseSensitive, configured) == Ok(
      if exact in env then Str(env[exact])
      else if sensitive then Nil
      else if probes[1] in env then Str(env[probes[1]])
      else Fetch(env, probes[2]));
    if sensitive {
      assert probes[1..] == [];
    } else {
      assert probes[1..] == [probes[1], probes[2]];
      assert probes[1..][1..] == [probes[2]];
      assert [probes[2]][1..] == [];
      assert FirstSet(env, [probes[2]]) == Fetch(env, probes[2]);
    }
  }

  /** `get` finds a value exactly when `defined?` is true, and both raise for the same keys. */
  lemma GetAgreesWithDefined(env: map<string, string>, key: Value, caseSensitive: Option<bool>, configured: bool)
    ensures Get(env, key, caseSensitive, configured).Raised? == Defined(env, key, caseSensitive, configured).Raised?
    ensures Get(env, key, caseSensitive, configured).Ok? ==>
      (Get(env, key, caseSensitive, configured).value != Nil <==> Defined(env, key, caseSensitive, configured).value)
  {
  }

  /** In case-sensitive mode only the exact name is consulted. */
  lemma CaseSensitiveProbesExactName(env: map<string, string>, key: Value, configured: bool)
    requires ToSymbolArray(key).Ok?
    ensures var exact := Join(ToSymbolArray(key).value, EnvKeyNestingSeparator);
      && Get(env, key, Some(true), configured) == Ok(Fetch(env, exact))
      && Defined(env, key, Some(true), configured) == Ok(exact in env)
  {
  }

  /**
   * A variable set under an upper-case name is found from a lower-case dotted
   * key when case-insensitive: FOO__BAR=1 answers `foo.bar`.
   */
  lemma UpperCaseVariableFound(v: string)
    ensures Get(map["FOO__BAR" := v], Str("foo.bar"), None, false) == Ok(Str(v))
    ensures Get(map["FOO__BAR" := v], Str("foo.bar"), Some(true), false) == Ok(Nil)
  {
    var env := map["FOO__BAR" := v];
    var segments := ["foo", "bar"];
    SplitIntoTwo("foo", "bar", ".");
    assert "foo" + "." + "bar" == "foo.bar";
    ToSymbolArrayOfText(Str("foo.bar"), ".");
    assert ToSymbolArray(Str("foo.bar")) == Ok(segments);
    GetIsFirstSetProbe(env, Str("foo.bar"), None, false);
    GetIsFirstSetProbe(env, Str("foo.bar"), Some(true), false);
    FooBarProbes();
    assert "foo__bar" != "FOO__BAR";
  }

  lemma FooBarProbes()
    ensures Probes(["foo", "bar"], false) == ["foo__bar", "FOO__BAR", "foo__bar"]
    ensures Probes(["foo", "bar"], true) == ["foo__bar"]
  {
    assert Upcase("foo") == "FOO";
    assert Upcase("bar") == "BAR";
    assert Downcase("foo") == "foo";
    assert Downcase("bar") == "bar";
    assert UpcaseAll(["foo", "bar"]) == ["FOO", "BAR"];
    assert DowncaseAll(["foo", "bar"]) == ["foo", "bar"];
    assert Join(["FOO", "BAR"], "__") == "FOO__BAR";
    assert Join(["foo", "bar"], "__") == "foo__bar";
  }
}
