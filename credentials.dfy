/**
 * UnifiedSettings::Handlers::Credentials: settings from the application's
 * encrypted credentials, a nested Hash keyed by symbols.
 */
module Credentials {
  import opened Values
  import opened Text
  import opened Base

  /** `Credentials#defined?`: `nested_key_exists?` on the exact path, then (case-insensitive only) upcased, then downcased. */
  function Defined(credentials: Value, key: Value, caseSensitive: Option<bool>, configured: bool): (r: Outcome<bool>)
    ensures ToSymbolArray(key).Raised? ==> r == Raised(ToSymbolArray(key).error)
    ensures ToSymbolArray(key).Ok? && (credentials.Hash? || credentials.Nil?) ==> r.Ok?
    ensures credentials.Nil? && ToSymbolArray(key).Ok? ==> r == Ok(false)
  {
    var segments :- ToSymbolArray(key);
    var sensitive := CaseSensitive(caseSensitive, configured);
    var exact :- FirstSegmentPresent(credentials, segments);
    if exact then Ok(true)
    else if sensitive then Ok(false)
    else
      var upper :- FirstSegmentPresent(credentials, UpcaseAll(segments));
      if upper then Ok(true)
      else FirstSegmentPresent(credentials, DowncaseAll(segments))
  }

  /**
   * `Credentials#get`: `dig` on the exact path, then (case-insensitive only)
   * downcased, then upcased; a falsy result counts as a miss except at the
   * last probe, whose result is returned as it is.
   */
  function Get(credentials: Value, key: Value, caseSensitive: Option<bool>, configured: bool): (r: Outcome<Value>)
    ensures ToSymbolArray(key).Raised? ==> r == Raised(ToSymbolArray(key).error)
    ensures r.Ok? && !r.value.Nil? ==>
      var segments := ToSymbolArray(key).value;
      || PathLeadsTo(credentials, segments, r.value)
      || (!CaseSensitive(caseSensitive, configured)
          && (PathLeadsTo(credentials, DowncaseAll(segments), r.value)
              || PathLeadsTo(credentials, UpcaseAll(segments), r.value)))
  {
    var segments :- ToSymbolArray(key);
    var sensitive := CaseSensitive(caseSensitive, configured);
    var exact :- Dig(credentials, segments);
    if Truthy(exact) then Ok(exact)
    else if sensitive then Ok(Nil)
    else
      var lower :- Dig(credentials, DowncaseAll(segments));
      if Truthy(lower) then Ok(lower)
      else Dig(credentials, UpcaseAll(segments))
  }

  // ---------------------------------------------------------------------
  // A reference definition for `get`: the paths dug, in order, and the first
  // truthy result among them.

  /** The paths `get` digs: as given; then, unless case-sensitive, downcased and upcased. */
  function GetPaths(segments: seq<string>, sensitive: bool): seq<seq<string>> {
    if sensitive then [segments] else [segments, DowncaseAll(segments), UpcaseAll(segments)]
  }

  /** Dig each path in turn and stop at the first truthy value; a raise stops the search. */
  function FirstTruthyDig(store: Value, paths: seq<seq<string>>): Outcome<Value>
    decreases |paths|
  {
    if |paths| == 0 then Ok(Nil)
    else
      var v :- Dig(store, paths[0]);
      if Truthy(v) || |paths| == 1 then Ok(v)
      else FirstTruthyDig(store, paths[1..])
  }

  /**
   * `get` is the first truthy result of digging its paths in order; when
   * none is truthy, the last path's result (nil in case-sensitive mode).
   */
  lemma GetIsFirstTruthyDig(credentials: Value, key: Value, caseSensitive: Option<bool>, configured: bool)
    requires ToSymbolArray(key).Ok?
    ensures var sensitive := CaseSensitive(caseSensitive, configured);
      var found := FirstTruthyDig(credentials, GetPaths(ToSymbolArray(key).value, sensitive));
      Get(credentials, key, caseSensitive, configured)
        == if sensitive && found.Ok? && !Truthy(found.value) then Ok(Nil) else found
  {
    var segments := ToSymbolArray(key).value;
    var sensitive := CaseSensitive(caseSensitive, configured);
    var paths := GetPaths(segments, sensitive);
    var exact := Dig(credentials, segments);
    if exact.Ok? && !Truthy(exact.value) && !sensitive {
      assert paths[1..] == [DowncaseAll(segments), UpcaseAll(segments)];
      assert paths[1..][1..] == [UpcaseAll(segments)];
      var last := Dig(credentials, UpcaseAll(segments));
      assert FirstTruthyDig(credentials, [UpcaseAll(segments)]) == last;
      var lower := Dig(credentials, DowncaseAll(segments));
      assert FirstTruthyDig(credentials, paths) == FirstTruthyDig(credentials, paths[1..]);
      assert FirstTruthyDig(credentials, paths[1..]) ==
        if lower.Raised? then lower else if Truthy(lower.value) then lower else last;
    }
  }

  /**
   * `defined?` looks only at the top level: it is the presence of the first
   * segment, as given or (case-insensitive) upcased or downcased. Nil
   * credentials or an empty key define nothing, and credentials that are
   * neither nil nor a Hash raise NoMethodError.
   */
  lemma DefinedIsFirstSegmentInAnyCase(credentials: Value, key: Value, caseSensitive: Option<bool>, configured: bool)
    requires ToSymbolArray(key).Ok?
    ensures var segments := ToSymbolArray(key).value;
      && (credentials.Nil? || |segments| == 0 ==> Defined(credentials, key, caseSensitive, configured) == Ok(false))
      && (!credentials.Nil? && !credentials.Hash? && |segments| > 0 ==>
            Defined(credentials, key, caseSensitive, configured) == Raised(NoMethod))
      && (credentials.Hash? && |segments| > 0 ==>
            var first := segments[0];
            Defined(credentials, key, caseSensitive, configured) == Ok(
              first in credentials.entries
              || (!CaseSensitive(caseSensitive, configured)
                  && (Upcase(first) in credentials.entries || Downcase(first) in credentials.entries))))
  {
    var segments := ToSymbolArray(key).value;
    if |segments| > 0 {
      assert UpcaseAll(segments)[0] == Upcase(segments[0]);
      assert DowncaseAll(segments)[0] == Downcase(segments[0]);
    }
  }

  /** A truthy value stored at the exact path is returned in either mode. */
  lemma GetFindsStoredValue(credentials: Value, key: Value, caseSensitive: Option<bool>, configured: bool, v: Value)
    requires ToSymbolArray(key).Ok? && |ToSymbolArray(key).value| > 0
    requires PathLeadsTo(credentials, ToSymbolArray(key).value, v) && Truthy(v)
    ensures Get(credentials, key, caseSensitive, configured) == Ok(v)
  {
    DigFindsStoredValue(credentials, ToSymbolArray(key).value, v);
  }

  /**
   * A stored `false` is reported as defined, yet reads back as nil in
   * case-sensitive mode, because `get` treats a falsy dig as a miss.
   */
  lemma StoredFalseReadsAsNil(credentials: Value, key: Value, configured: bool)
    requires ToSymbolArray(key).Ok? && |ToSymbolArray(key).value| > 0
    requires PathLeadsTo(credentials, ToSymbolArray(key).value, Bool(false))
    ensures Defined(credentials, key, Some(true), configured) == Ok(true)
    ensures Get(credentials, key, Some(true), configured) == Ok(Nil)
  {
    DigFindsStoredValue(credentials, ToSymbolArray(key).value, Bool(false));
  }

  /**
   * The case-insensitive counterpart: a `false` stored only under the
   * downcased path is defined, yet reads back as nil, because the falsy
   * downcased dig is skipped and the upcased dig finds nothing.
   */
  lemma DowncasedFalseReadsAsNil(credentials: Value, key: Value, configured: bool)
    requires ToSymbolArray(key).Ok? && |ToSymbolArray(key).value| > 0
    requires Dig(credentials, ToSymbolArray(key).value) == Ok(Nil)
    requires Dig(credentials, UpcaseAll(ToSymbolArray(key).value)) == Ok(Nil)
    requires PathLeadsTo(credentials, DowncaseAll(ToSymbolArray(key).value), Bool(false))
    ensures Defined(credentials, key, Some(false), configured) == Ok(true)
    ensures Get(credentials, key, Some(false), configured) == Ok(Nil)
  {
    var segments := ToSymbolArray(key).value;
    DigFindsStoredValue(credentials, DowncaseAll(segments), Bool(false));
    DefinedIsFirstSegmentInAnyCase(credentials, key, Some(false), configured);
    assert DowncaseAll(segments)[0] == Downcase(segments[0]);
  }

  /**
   * When case-insensitive, a key whose exact path misses still finds a
   * truthy credential stored under its downcased path (`SECRET_KEY` finds
   * `secret_key`).
   */
  lemma DowncasedPathFound(credentials: Value, key: Value, configured: bool, v: Value)
    requires ToSymbolArray(key).Ok? && |ToSymbolArray(key).value| > 0
    requires Dig(credentials, ToSymbolArray(key).value) == Ok(Nil)
    requires PathLeadsTo(credentials, DowncaseAll(ToSymbolArray(key).value), v) && Truthy(v)
    ensures Get(credentials, key, Some(false), configured) == Ok(v)
    ensures Get(credentials, key, None, false) == Ok(v)
  {
    DigFindsStoredValue(credentials, DowncaseAll(ToSymbolArray(key).value), v);
  }
}
