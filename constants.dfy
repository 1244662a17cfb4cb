/**
 * UnifiedSettings::Handlers::Constants: settings from Ruby constants, the key
 * naming a constant as `Outer::Inner::NAME` or just `NAME`.
 */
module Constants {
  import opened Values
  import opened Text
  import opened Base

  /** CONSTANT_KEY_NESTING_SEPARATOR. */
  const ConstantKeyNestingSeparator: string := "::"

  /** What `key_to_class_and_variable` gives: the namespace module, if resolved, and the candidate names. */
  datatype Target = Target(klass: Option<nat>, names: seq<string>)

  /**
   * `key_to_class_and_variable`: with more than one segment the prefix is
   * resolved as a namespace (nil when it names none) and the last segment
   * is the variable; with one segment there is no namespace. Unless
   * case-sensitive the variable is tried as given, upcased and downcased.
   * A key with no segments has a nil variable: `nil.upcase` raises
   * NoMethodError, and in case-sensitive mode the later
   * `Object.const_get(nil)` raises TypeError, which nothing rescues.
   */
  function KeyToClassAndVariable(constants: ConstantTable, key: Value, caseSensitive: Option<bool>, configured: bool): (r: Outcome<Target>)
    ensures ToSymbolArray(key, ConstantKeyNestingSeparator).Raised?
      ==> r == Raised(ToSymbolArray(key, ConstantKeyNestingSeparator).error)
    ensures ToSymbolArray(key, ConstantKeyNestingSeparator).Ok? ==>
      var segments := ToSymbolArray(key, ConstantKeyNestingSeparator).value;
      var sensitive := CaseSensitive(caseSensitive, configured);
      && (|segments| == 0 ==> r == Raised(if sensitive then NotAName else NoMethod))
      && (|segments| == 1 ==> r.Ok? && r.value.klass.None?)
      && (|segments| > 1 ==>
            r.Ok? && r.value.klass == constants.Constantize(Join(segments[..|segments| - 1], ConstantKeyNestingSeparator)))
      && (|segments| > 0 && sensitive ==> r.Ok? && r.value.names == [segments[|segments| - 1]])
      && (|segments| > 0 && !sensitive ==>
            var v := segments[|segments| - 1];
            r.Ok? && r.value.names == [v, Upcase(v), Downcase(v)])
    ensures r.Ok? ==> |r.value.names| == (if CaseSensitive(caseSensitive, configured) then 1 else 3)
  {
    var segments :- ToSymbolArray(key, ConstantKeyNestingSeparator);
    var sensitive := CaseSensitive(caseSensitive, configured);
    if |segments| == 0 then Raised(if sensitive then NotAName else NoMethod)
    else
      var klass := if |segments| > 1 then constants.Constantize(Join(segments[..|segments| - 1], ConstantKeyNestingSeparator)) else None;
      var variable := segments[|segments| - 1];
      Ok(Target(klass, if sensitive then [variable] else [variable, Upcase(variable), Downcase(variable)]))
  }

  /** `klass.const_get(name)`, or `Object.const_get(name)` without a namespace; None for NameError. */
  function Lookup(constants: ConstantTable, klass: Option<nat>, name: string): Option<Value> {
    match klass
    case Some(k) => constants.Member(k, name)
    case None => constants.Global(name)
  }

  /** The `each` loop of `get`: the value of the first name that resolves, whatever it is; nil if none does. */
  function FirstResolved(constants: ConstantTable, klass: Option<nat>, names: seq<string>): (r: Value)
    ensures (forall i :: 0 <= i < |names| ==> Lookup(constants, klass, names[i]).None?) ==> r == Nil
    ensures r != Nil ==> exists i :: 0 <= i < |names| && Lookup(constants, klass, names[i]) == Some(r)
    ensures forall i ::
              0 <= i < |names| && Lookup(constants, klass, names[i]).Some?
              && (forall j :: 0 <= j < i ==> Lookup(constants, klass, names[j]).None?)
              ==> r == Lookup(constants, klass, names[i]).value
  {
    if |names| == 0 then Nil
    else match Lookup(constants, klass, names[0])
      case Some(v) => v
      case None =>
        var rest := FirstResolved(constants, klass, names[1..]);
        assert forall i :: 1 <= i < |names| ==> names[i] == names[1..][i - 1];
        rest
  }

  /** A name resolves to a truthy constant. */
  predicate ResolvesTruthy(constants: ConstantTable, klass: Option<nat>, name: string) {
    var found := Lookup(constants, klass, name);
    found.Some? && Truthy(found.value)
  }

  /** The `each` loop of `defined?`: some name resolves to a truthy value. */
  function AnyTruthy(constants: ConstantTable, klass: Option<nat>, names: seq<string>): (r: bool)
    ensures r <==> exists i :: 0 <= i < |names| && ResolvesTruthy(constants, klass, names[i])
  {
    if |names| == 0 then false
    else if ResolvesTruthy(constants, klass, names[0]) then true
    else
      var rest := AnyTruthy(constants, klass, names[1..]);
      assert forall i :: 1 <= i < |names| ==> names[i] == names[1..][i - 1];
      rest
  }

  /** `Constants#defined?`. */
  function Defined(constants: ConstantTable, key: Value, caseSensitive: Option<bool>, configured: bool): (r: Outcome<bool>)
    ensures KeyToClassAndVariable(constants, key, caseSensitive, configured).Raised?
      ==> r == Raised(KeyToClassAndVariable(constants, key, caseSensitive, configured).error)
    ensures KeyToClassAndVariable(constants, key, caseSensitive, configured).Ok? ==>
      var target := KeyToClassAndVariable(constants, key, caseSensitive, configured).value;
      r == Ok(exists i :: 0 <= i < |target.names| && ResolvesTruthy(constants, target.klass, target.names[i]))
  {
    var target :- KeyToClassAndVariable(constants, key, caseSensitive, configured);
    Ok(AnyTruthy(constants, target.klass, target.names))
  }

  /** `Constants#get`. */
  function Get(constants: ConstantTable, key: Value, caseSensitive: Option<bool>, configured: bool): (r: Outcome<Value>)
    ensures KeyToClassAndVariable(constants, key, caseSensitive, configured).Raised?
      ==> r == Raised(KeyToClassAndVariable(constants, key, caseSensitive, configured).error)
    ensures r.Ok? && r.value != Nil ==>
      var target := KeyToClassAndVariable(constants, key, caseSensitive, configured).value;
      exists i :: 0 <= i < |target.names| && Lookup(constants, target.klass, target.names[i]) == Some(r.value)
  {
    var target :- KeyToClassAndVariable(constants, key, caseSensitive, configured);
    Ok(FirstResolved(constants, target.klass, target.names))
  }

  // ---------------------------------------------------------------------
  // Properties.

  /**
   * A namespace prefix that names no module is not an error: the last
   * segment is then looked up among the top-level constants.
   */
  lemma UnresolvedNamespaceFallsBackToGlobal(constants: ConstantTable, key: Value, caseSensitive: Option<bool>, configured: bool)
    requires ToSymbolArray(key, ConstantKeyNestingSeparator).Ok?
    requires var segments := ToSymbolArray(key, ConstantKeyNestingSeparator).value;
      |segments| > 1 && constants.Constantize(Join(segments[..|segments| - 1], ConstantKeyNestingSeparator)).None?
    ensures KeyToClassAndVariable(constants, key, caseSensitive, configured).Ok?
    ensures var names := KeyToClassAndVariable(constants, key, caseSensitive, configured).value.names;
      && Get(constants, key, caseSensitive, configured) == Ok(FirstResolved(constants, None, names))
      && Defined(constants, key, caseSensitive, configured) == Ok(AnyTruthy(constants, None, names))
  {
  }

  /** A name nothing resolves is not an error: `get` gives nil and `defined?` gives false. */
  lemma UnresolvableNameMisses(constants: ConstantTable, key: Value, caseSensitive: Option<bool>, configured: bool)
    requires KeyToClassAndVariable(constants, key, caseSensitive, configured).Ok?
    requires var t := KeyToClassAndVariable(constants, key, caseSensitive, configured).value;
      forall i :: 0 <= i < |t.names| ==> Lookup(constants, t.klass, t.names[i]).None?
    ensures Get(constants, key, caseSensitive, configured) == Ok(Nil)
    ensures Defined(constants, key, caseSensitive, configured) == Ok(false)
  {
  }

  /**
   * A constant whose value is `false` (or nil) is returned by `get` but is
   * not reported by `defined?`, when no other candidate name resolves to a
   * truthy constant.
   */
  lemma FalseConstantReadButNotDefined(constants: ConstantTable, key: Value, caseSensitive: Option<bool>, configured: bool, v: Value)
    requires KeyToClassAndVariable(constants, key, caseSensitive, configured).Ok?
    requires !Truthy(v)
    requires var t := KeyToClassAndVariable(constants, key, caseSensitive, configured).value;
      && Lookup(constants, t.klass, t.names[0]) == Some(v)
      && forall i :: 0 <= i < |t.names| ==> !ResolvesTruthy(constants, t.klass, t.names[i])
    ensures Get(constants, key, caseSensitive, configured) == Ok(v)
    ensures Defined(constants, key, caseSensitive, configured) == Ok(false)
  {
  }

  /** `get` finds something exactly when some candidate name resolves, and then it is the first one's value. */
  lemma GetIsFirstResolvedCandidate(constants: ConstantTable, key: Value, caseSensitive: Option<bool>, configured: bool, i: nat)
    requires KeyToClassAndVariable(constants, key, caseSensitive, configured).Ok?
    requires var t := KeyToClassAndVariable(constants, key, caseSensitive, configured).value;
      && i < |t.names| && Lookup(constants, t.klass, t.names[i]).Some?
      && forall j :: 0 <= j < i ==> Lookup(constants, t.klass, t.names[j]).None?
    ensures var t := KeyToClassAndVariable(constants, key, caseSensitive, configured).value;
      Get(constants, key, caseSensitive, configured) == Ok(Lookup(constants, t.klass, t.names[i]).value)
  {
  }

  /** A two-segment key whose prefix names a module: that module, and the last segment in its case variants. */
  lemma NamespacedTarget(constants: ConstantTable, key: Value, namespace: string, name: string, id: nat, configured: bool)
    requires ToSymbolArray(key, ConstantKeyNestingSeparator) == Ok([namespace, name])
    requires constants.Constantize(namespace) == Some(id)
    ensures KeyToClassAndVariable(constants, key, Some(false), configured)
      == Ok(Target(Some(id), [name, Upcase(name), Downcase(name)]))
    ensures KeyToClassAndVariable(constants, key, Some(true), configured) == Ok(Target(Some(id), [name]))
  {
    assert [namespace, name][..1] == [namespace];
  }

  /**
   * `Test_Const` in namespace `ConstantsTest` reaches the constant
   * `TEST_CONST` only when case-insensitive.
   */
  lemma MixedCaseNameNeedsCaseInsensitivity(constants: ConstantTable, key: Value, id: nat, v: Value)
    requires constants == ConstantTable(map[], map["ConstantsTest" := id], map[id := map["TEST_CONST" := v]])
    requires key == Str("ConstantsTest::Test_Const")
    requires Truthy(v)
    ensures Get(constants, key, Some(false), false) == Ok(v)
    ensures Defined(constants, key, Some(false), false) == Ok(true)
    ensures Get(constants, key, Some(true), false) == Ok(Nil)
    ensures Defined(constants, key, Some(true), false) == Ok(false)
  {
    TestConstSegments();
    TestConstUpcased();
    assert constants.Constantize("ConstantsTest") == Some(id);
    assert constants.members == map[id := map[Upcase("Test_Const") := v]];
    OtherCaseMemberFound(constants, key, "ConstantsTest", "Test_Const", id, v);
  }

  lemma TestConstUpcased()
    ensures Upcase("Test_Const") == "TEST_CONST"
    ensures "Test_Const" != "TEST_CONST"
  {
    assert "Test_Const"[1] != "TEST_CONST"[1];
  }

  /** The scenario above for any namespace and mixed-case name whose upcased form is the member's name. */
  lemma OtherCaseMemberFound(constants: ConstantTable, key: Value, namespace: string, name: string, id: nat, v: Value)
    requires ToSymbolArray(key, ConstantKeyNestingSeparator) == Ok([namespace, name])
    requires constants.Constantize(namespace) == Some(id)
    requires Truthy(v) && name != Upcase(name)
    requires constants.members == map[id := map[Upcase(name) := v]]
    ensures && Get(constants, key, Some(false), false) == Ok(v)
            && Defined(constants, key, Some(false), false) == Ok(true)
            && Get(constants, key, Some(true), false) == Ok(Nil)
            && Defined(constants, key, Some(true), false) == Ok(false)
  {
    assert [namespace, name][..1] == [namespace];
    assert Join([namespace], ConstantKeyNestingSeparator) == namespace;
    var names := [name, Upcase(name), Downcase(name)];
    assert KeyToClassAndVariable(constants, key, Some(false), false) == Ok(Target(Some(id), names));
    assert KeyToClassAndVariable(constants, key, Some(true), false) == Ok(Target(Some(id), [name]));
    UpcasedMemberResolves(constants, id, name, v);
  }

  /** Among the candidates for a mixed-case name, only the upcased one names the member. */
  lemma UpcasedMemberResolves(constants: ConstantTable, id: nat, name: string, v: Value)
    requires Truthy(v) && name != Upcase(name)
    requires constants.members == map[id := map[Upcase(name) := v]]
    ensures FirstResolved(constants, Some(id), [name, Upcase(name), Downcase(name)]) == v
    ensures AnyTruthy(constants, Some(id), [name, Upcase(name), Downcase(name)])
    ensures FirstResolved(constants, Some(id), [name]) == Nil
    ensures !AnyTruthy(constants, Some(id), [name])
  {
    var names := [name, Upcase(name), Downcase(name)];
    assert Lookup(constants, Some(id), names[1]) == Some(v);
    assert Lookup(constants, Some(id), names[0]).None?;
    assert ResolvesTruthy(constants, Some(id), names[1]);
    assert !ResolvesTruthy(constants, Some(id), [name][0]);
  }

  lemma TestConstSegments()
    ensures ToSymbolArray(Str("ConstantsTest::Test_Const"), ConstantKeyNestingSeparator) == Ok(["ConstantsTest", "Test_Const"])
  {
    SplitIntoTwo("ConstantsTest", "Test_Const", ConstantKeyNestingSeparator);
    assert "ConstantsTest" + "::" + "Test_Const" == "ConstantsTest::Test_Const";
    ToSymbolArrayOfText(Str("ConstantsTest::Test_Const"), ConstantKeyNestingSeparator);
  }
}
