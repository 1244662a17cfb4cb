/**
 * UnifiedSettings::Handlers::Base: the key handling every handler shares.
 */
module Base {
  import opened Values
  import opened Text

  /** KEY_NESTING_SEPARATOR. */
  const KeyNestingSeparator: string := "."

  /** `split(val, separator)`: a String or Symbol is split, an Array passes through, anything else raises. */
  function Split(key: Value, separator: string): (r: Outcome<seq<Value>>)
    ensures key.Str? ==> r == Ok(AsStrings(RubySplit(key.s, separator)))
    ensures key.Sym? ==> r == Ok(AsStrings(RubySplit(key.name, separator)))
    ensures key.List? ==> r == Ok(key.items)
    ensures !(key.Str? || key.Sym? || key.List?) ==> r == Raised(InvalidKeyKind)
  {
    match key
    case Str(s) => Ok(AsStrings(RubySplit(s, separator)))
    case Sym(name) => Ok(AsStrings(RubySplit(name, separator)))
    case List(items) => Ok(items)
    case _ => Raised(InvalidKeyKind)
  }

  function AsStrings(parts: seq<string>): (r: seq<Value>)
    ensures |r| == |parts| && forall i :: 0 <= i < |parts| ==> r[i] == Str(parts[i])
  {
    seq(|parts|, i requires 0 <= i < |parts| => Str(parts[i]))
  }

  /** `case_sensitive?`: nil selects the configured default, an explicit answer is kept. */
  function CaseSensitive(explicit: Option<bool>, configured: bool): (r: bool)
    ensures explicit.None? ==> r == configured
    ensures explicit.Some? ==> r == explicit.value
  {
    match explicit
    case None => configured
    case Some(b) => b
  }

  /** The text `to_sym` turns into a symbol: Strings and Symbols only. */
  predicate HasSymbol(v: Value) {
    v.Str? || v.Sym?
  }

  function SymbolText(v: Value): string
    requires HasSymbol(v)
  {
    if v.Str? then v.s else v.name
  }

  /** `map(&:to_sym)`: every element's text, or NoMethodError for the first that has none. */
  function ToSymbols(items: seq<Value>): (r: Outcome<seq<string>>)
    ensures r.Ok? <==> forall i :: 0 <= i < |items| ==> HasSymbol(items[i])
    ensures r.Ok? ==> |r.value| == |items| && forall i :: 0 <= i < |items| ==> r.value[i] == SymbolText(items[i])
    ensures r.Raised? ==> r.error == NoMethod
  {
    if |items| == 0 then Ok([])
    else if !HasSymbol(items[0]) then Raised(NoMethod)
    else
      var rest :- ToSymbols(items[1..]);
      Ok([SymbolText(items[0])] + rest)
  }

  /** `to_symbol_array`: the segments of `split`, as symbols, in the same number and order. */
  function ToSymbolArray(key: Value, separator: string := KeyNestingSeparator): (r: Outcome<seq<string>>)
    ensures key.Str? || key.Sym? ==> r.Ok?
    ensures key.List? ==> (r.Ok? <==> forall i :: 0 <= i < |key.items| ==> HasSymbol(key.items[i]))
    ensures !(key.Str? || key.Sym? || key.List?) ==> r == Raised(InvalidKeyKind)
  {
    var parts :- Split(key, separator);
    ToSymbols(parts)
  }

  /** A String or Symbol key becomes exactly the fields Ruby's `split` gives. */
  lemma ToSymbolArrayOfText(key: Value, separator: string)
    requires key.Str? || key.Sym?
    ensures ToSymbolArray(key, separator) == Ok(RubySplit(if key.Str? then key.s else key.name, separator))
  {
    var text := if key.Str? then key.s else key.name;
    var fields := RubySplit(text, separator);
    var parts := AsStrings(fields);
    assert Split(key, separator) == Ok(parts);
    assert ToSymbols(parts).value == fields;
  }

  /** An Array key keeps its elements' count and order, or raises if one is not text. */
  lemma ToSymbolArrayOfList(items: seq<Value>, separator: string)
    ensures var r := ToSymbolArray(List(items), separator);
      && (r.Ok? <==> forall i :: 0 <= i < |items| ==> HasSymbol(items[i]))
      && (r.Ok? ==> |r.value| == |items| && forall i :: 0 <= i < |items| ==> r.value[i] == SymbolText(items[i]))
      && (r.Raised? ==> r.error == NoMethod)
  {
  }

  /** Any key that is not a String, Symbol or Array raises; nil and false included. */
  lemma ToSymbolArrayRejects(key: Value, separator: string)
    requires !(key.Str? || key.Sym? || key.List?)
    ensures ToSymbolArray(key, separator) == Raised(InvalidKeyKind)
  {
  }

  /**
   * What `nested_key_exists?(hash, keys)` answers, as written: false for a nil
   * store or no keys; otherwise whether the top level has the FIRST key, since
   * the loop returns true as soon as a level contains its key and a missing
   * key leads to a nil level, which ends the loop with false. A store that is
   * neither nil nor a Hash has no `key?`.
   */
  function FirstSegmentPresent(store: Value, keys: seq<string>): (r: Outcome<bool>)
    ensures r == Ok(true) <==> store.Hash? && |keys| > 0 && keys[0] in store.entries
    ensures r.Raised? <==> !store.Nil? && !store.Hash? && |keys| > 0
    ensures r.Raised? ==> r.error == NoMethod
  {
    if store.Nil? || |keys| == 0 then Ok(false)
    else if store.Hash? then Ok(keys[0] in store.entries)
    else Raised(NoMethod)
  }

  /** `nested_key_exists?`, the loop that descends one level per key. */
  method NestedKeyExists(store: Value, keys: seq<string>) returns (r: Outcome<bool>)
    ensures r == FirstSegmentPresent(store, keys)
  {
    if store.Nil? {
      return Ok(false);
    }
    var current := store;
    var i := 0;
    while i < |keys|
      invariant 0 <= i <= |keys|
      invariant i == 0 ==> current == store
      invariant i > 0 ==> current.Nil? && store.Hash? && keys[0] !in store.entries
    {
      if current.Nil? {
        return Ok(false);
      }
      if !current.Hash? {
        return Raised(NoMethod);
      }
      if keys[i] in current.entries {
        return Ok(true);
      }
      current := At(current, keys[i]);
      i := i + 1;
    }
    return Ok(false);
  }

  /** `level[key]` on a Hash: the entry, or nil when the key is missing. */
  function At(level: Value, key: string): Value
    requires level.Hash?
  {
    if key in level.entries then level.entries[key] else Nil
  }

  /** The answer depends only on the first key: deeper segments are never examined. */
  lemma NestedKeyExistsIgnoresDeeperKeys(store: Value, keys: seq<string>, deeper: seq<string>)
    requires |keys| > 0 && |deeper| > 0 && deeper[0] == keys[0]
    ensures FirstSegmentPresent(store, keys) == FirstSegmentPresent(store, deeper)
  {
  }

  /**
   * `obj.dig(*keys)` on a store keyed by symbols: a missing key or a nil level
   * gives nil; a level with no `dig` of its own, or no keys at all, raises.
   */
  function Dig(obj: Value, keys: seq<string>): (r: Outcome<Value>)
    ensures |keys| == 0 ==> r.Raised?
    ensures r.Ok? && !r.value.Nil? ==> PathLeadsTo(obj, keys, r.value)
    decreases |keys|
  {
    if |keys| == 0 then Raised(NotDiggable)
    else if !obj.Hash? then Raised(if obj.List? then NotDiggable else NoMethod)
    else
      var next := At(obj, keys[0]);
      if |keys| == 1 || next.Nil? then Ok(next)
      else if next.Hash? then Dig(next, keys[1..])
      else Raised(NotDiggable)
  }

  /** Digging a path that exists level by level yields the value stored at its end. */
  lemma {:induction false} DigFindsStoredValue(obj: Value, keys: seq<string>, v: Value)
    requires |keys| > 0
    requires PathLeadsTo(obj, keys, v)
    ensures Dig(obj, keys) == Ok(v)
    decreases |keys|
  {
    if |keys| > 1 {
      var next := obj.entries[keys[0]];
      DigFindsStoredValue(next, keys[1..], v);
    }
  }

  /** `keys` names nested Hash entries of `obj`, the last of which holds `v`. */
  ghost predicate PathLeadsTo(obj: Value, keys: seq<string>, v: Value)
    decreases |keys|
  {
    && |keys| > 0
    && obj.Hash? && keys[0] in obj.entries
    && (if |keys| == 1 then obj.entries[keys[0]] == v
        else PathLeadsTo(obj.entries[keys[0]], keys[1..], v))
  }

  /** The abstract `Base#get`: every handler must override it, so it always raises. */
  function AbstractGet(key: Value, caseSensitive: Option<bool>): (r: Outcome<Value>)
    ensures r.Raised?
  {
    Raised(NotImplemented)
  }
}
