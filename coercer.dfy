/**
 * UnifiedSettings::Coercer: turns a string setting into nil, a boolean, an
 * integer, a float, or an array of those, and leaves every other value alone.
 */
module Coercer {
  import opened Values
  import opened Text
  import Numbers

  /** The coercions that can be switched on: the symbols :nil, :boolean, :integer and :float. */
  datatype Kind = NilKind | BooleanKind | IntegerKind | FloatKind

  /** A coercer: the enabled coercions, whether to split arrays, and the array separator. */
  datatype Coercer = Coercer(coercions: seq<Kind>, coerceArrays: bool, arraySeparator: string)

  /** The keyword defaults of `Coercer.new`. */
  const AllKinds: seq<Kind> := [NilKind, BooleanKind, IntegerKind, FloatKind]
  const Default: Coercer := Coercer(AllKinds, true, ",")

  /** `coerce_to_nil`: Some when the coercion applies. */
  function CoerceToNil(c: Coercer, s: string): Option<Value> {
    if NilKind !in c.coercions then None
    else if EqualsIgnoringCase(s, "nil") then Some(Nil)
    else None
  }

  /** `coerce_to_boolean`. */
  function CoerceToBoolean(c: Coercer, s: string): Option<Value> {
    if BooleanKind !in c.coercions then None
    else if EqualsIgnoringCase(s, "true") then Some(Bool(true))
    else if EqualsIgnoringCase(s, "false") then Some(Bool(false))
    else None
  }

  /** `coerce_to_integer`: `Integer(value)`, with ArgumentError meaning "does not apply". */
  function CoerceToInteger(c: Coercer, s: string): Option<Value> {
    if IntegerKind !in c.coercions then None
    else match Numbers.ParseInteger(s)
      case None => None
      case Some(n) => Some(Int(n))
  }

  /** `coerce_to_float`: `Float(value)`, with ArgumentError meaning "does not apply". */
  function CoerceToFloat(c: Coercer, s: string): Option<Value> {
    if FloatKind !in c.coercions then None
    else match Numbers.ParseFloat(s)
      case None => None
      case Some(d) => Some(Flt(d))
  }

  /** `coerce_value`: nil, then boolean, then integer, then float; the first that applies wins. */
  function CoerceValue(c: Coercer, s: string): (r: Option<Value>)
    ensures r.Some? ==> r.value.Nil? || r.value.Bool? || r.value.Int? || r.value.Flt?
    ensures r.Some? ==> KindOf(r.value) in c.coercions
  {
    var asNil := CoerceToNil(c, s);
    if asNil.Some? then asNil
    else
      var asBool := CoerceToBoolean(c, s);
      if asBool.Some? then asBool
      else
        var asInt := CoerceToInteger(c, s);
        if asInt.Some? then asInt
        else CoerceToFloat(c, s)
  }

  /** `coerce_to_array`: the split parts when splitting is on and the separator occurs. */
  function CoerceToArray(c: Coercer, s: string): Option<seq<string>> {
    if !c.coerceArrays then None
    else if !Contains(s, c.arraySeparator) then None
    else Some(RubySplit(s, c.arraySeparator))
  }

  /** One stripped string: its coerced value, or the string itself when nothing applies. */
  function CoerceScalar(c: Coercer, s: string): Value {
    match CoerceValue(c, s)
    case Some(v) => v
    case None => Str(s)
  }

  /** `Coercer#coerce`. */
  function Coerce(c: Coercer, value: Value): (r: Value)
    ensures !value.Str? ==> r == value
  {
    if !value.Str? then value
    else
      var stripped := Strip(value.s);
      match CoerceToArray(c, stripped)
      case Some(parts) => List(seq(|parts|, i requires 0 <= i < |parts| => CoerceScalar(c, Strip(parts[i]))))
      case None => CoerceScalar(c, stripped)
  }

  // ---------------------------------------------------------------------
  // The priority chain, stated against an independent reference: each kind
  // on its own, tried in the fixed order nil, boolean, integer, float.

  /** What a kind accepts, whether or not it is enabled. */
  function Recognize(k: Kind, s: string): Option<Value> {
    match k
    case NilKind => if EqualsIgnoringCase(s, "nil") then Some(Nil) else None
    case BooleanKind =>
      if EqualsIgnoringCase(s, "true") then Some(Bool(true))
      else if EqualsIgnoringCase(s, "false") then Some(Bool(false))
      else None
    case IntegerKind => (match Numbers.ParseInteger(s) case None => None case Some(n) => Some(Int(n)))
    case FloatKind => (match Numbers.ParseFloat(s) case None => None case Some(d) => Some(Flt(d)))
  }

  /** The kind a coerced value came from. */
  function KindOf(v: Value): Kind {
    match v
    case Nil => NilKind
    case Bool(_) => BooleanKind
    case Int(_) => IntegerKind
    case _ => FloatKind
  }

  /** Position of a kind in the fixed priority order. */
  function Rank(k: Kind): nat {
    match k
    case NilKind => 0
    case BooleanKind => 1
    case IntegerKind => 2
    case FloatKind => 3
  }

  /**
   * A scalar coerces to `v` exactly when `v`'s kind is enabled, recognises the
   * string as `v`, and no enabled kind of higher priority recognises it.
   */
  lemma CoerceValueSound(c: Coercer, s: string)
    ensures CoerceValue(c, s).Some? ==>
      var v := CoerceValue(c, s).value;
      && KindOf(v) in c.coercions
      && Recognize(KindOf(v), s) == Some(v)
      && forall k :: k in c.coercions && Rank(k) < Rank(KindOf(v)) ==> Recognize(k, s).None?
  {
    if CoerceValue(c, s).Some? {
      var v := CoerceValue(c, s).value;
      forall k | k in c.coercions && Rank(k) < Rank(KindOf(v))
        ensures Recognize(k, s).None?
      {
        assert k.NilKind? || k.BooleanKind? || k.IntegerKind?;
      }
    }
  }

  /** If some enabled kind recognises the string, coercion applies. */
  lemma CoerceValueComplete(c: Coercer, s: string, k: Kind)
    requires k in c.coercions && Recognize(k, s).Some?
    ensures CoerceValue(c, s).Some?
    ensures Rank(KindOf(CoerceValue(c, s).value)) <= Rank(k)
  {
  }

  /** A kind left out of `coercions` never produces a value. */
  lemma DisabledKindSkipped(c: Coercer, s: string, k: Kind)
    requires k !in c.coercions
    ensures CoerceValue(c, s).Some? ==> KindOf(CoerceValue(c, s).value) != k
  {
    CoerceValueSound(c, s);
  }

  // ---------------------------------------------------------------------
  // Properties of Coercer#coerce.

  /** Without splitting, or without the separator, the result is one scalar and never a list. */
  lemma ScalarWhenNotSplit(c: Coercer, raw: string)
    requires !c.coerceArrays || !Contains(Strip(raw), c.arraySeparator)
    ensures Coerce(c, Str(raw)) == CoerceScalar(c, Strip(raw))
    ensures !Coerce(c, Str(raw)).List?
    ensures CoerceValue(c, Strip(raw)).None? ==> Coerce(c, Str(raw)) == Str(Strip(raw))
  {
    var s := Strip(raw);
    assert CoerceToArray(c, s).None?;
    assert Coerce(c, Str(raw)) == CoerceScalar(c, s);
    if CoerceValue(c, s).Some? {
      assert CoerceToNil(c, s).Some? || CoerceToBoolean(c, s).Some? || CoerceToInteger(c, s).Some? || CoerceToFloat(c, s).Some?;
    }
  }

  /** With splitting on and the separator present, the result is the list of coerced parts. */
  lemma ListWhenSplit(c: Coercer, raw: string)
    requires c.coerceArrays && Contains(Strip(raw), c.arraySeparator)
    ensures var parts := RubySplit(Strip(raw), c.arraySeparator);
      && Coerce(c, Str(raw)).List?
      && |Coerce(c, Str(raw)).items| == |parts|
      && forall i :: 0 <= i < |parts| ==> Coerce(c, Str(raw)).items[i] == CoerceScalar(c, Strip(parts[i]))
  {
  }

  /** Surrounding blanks never change the result. */
  lemma CoerceIgnoresSurroundingBlanks(c: Coercer, raw: string)
    ensures Coerce(c, Str(raw)) == Coerce(c, Str(Strip(raw)))
  {
    StripIdempotent(raw);
  }

  /** With no coercions and no array splitting, coercion is `strip`. */
  lemma DisabledCoercerStrips(sep: string, raw: string)
    ensures Coerce(Coercer([], false, sep), Str(raw)) == Str(Strip(raw))
  {
  }

  /** A string that is the word true or false in any letter case coerces to that boolean. */
  lemma BooleanKeywordRoundTrip(b: bool, t: string)
    requires EqualsIgnoringCase(t, if b then "true" else "false")
    ensures Coerce(Default, Str(t)) == Bool(b)
  {
    var word := if b then "true" else "false";
    assert Downcase(t) == word;
    assert forall i :: 0 <= i < |t| ==> !IsStripSpace(t[i]) && t[i] != ',' by {
      forall i | 0 <= i < |t| ensures !IsStripSpace(t[i]) && t[i] != ',' {
        assert Downcase(t)[i] == DownChar(t[i]);
      }
    }
    NoBlanksStripped(t);
    NoCommaNotContained(t);
    assert !EqualsIgnoringCase(t, "nil") by {
      assert Downcase(t)[0] != 'n';
    }
    if b {
      assert EqualsIgnoringCase(t, "true");
    } else {
      assert !EqualsIgnoringCase(t, "true") by {
        assert |Downcase(t)| == 5;
      }
      assert EqualsIgnoringCase(t, "false");
    }
  }

  /** A decimal integer, as Ruby prints it, coerces back to that integer. */
  lemma IntegerRoundTrip(n: int)
    ensures Coerce(Default, Str(Numbers.IntToString(n))) == Int(n)
  {
    var t := Numbers.IntToString(n);
    PrintedIntegerShape(n);
    NoBlanksStripped(t);
    NoCommaNotContained(t);
    ScalarWhenNotSplit(Default, t);
    Numbers.ParseIntegerRoundTrip(n);
    assert Downcase(t)[0] == t[0];
    assert !EqualsIgnoringCase(t, "nil") && !EqualsIgnoringCase(t, "true") && !EqualsIgnoringCase(t, "false");
    assert CoerceToNil(Default, t).None? && CoerceToBoolean(Default, t).None?;
    assert CoerceToInteger(Default, t) == Some(Int(n));
    assert CoerceValue(Default, t) == Some(Int(n));
  }

  /**
   * A plain word (no blanks, not a number, not a keyword) stays the string
   * it is when it holds no separator character.
   */
  lemma WordStaysString(c: Coercer, t: string)
    requires IsPlainWord(t)
    requires |c.arraySeparator| > 0 && forall i :: 0 <= i < |t| ==> t[i] != c.arraySeparator[0]
    ensures Coerce(c, Str(t)) == Str(t)
  {
    PlainWordUncoerced(c, t);
    NotContainedByFirstChar(t, c.arraySeparator);
  }

  /** Two plain words joined by the separator come back as a list of the two strings. */
  lemma TwoWordsSplit(c: Coercer, a: string, b: string)
    requires c.coerceArrays && |c.arraySeparator| > 0 && c.arraySeparator != " "
    requires forall i :: 0 <= i < |c.arraySeparator| ==> !IsStripSpace(c.arraySeparator[i])
    requires IsPlainWord(a) && IsPlainWord(b)
    requires forall i :: 0 <= i < |a| ==> a[i] != c.arraySeparator[0]
    requires forall i :: 0 <= i < |b| ==> b[i] != c.arraySeparator[0]
    ensures Coerce(c, Str(a + c.arraySeparator + b)) == List([Str(a), Str(b)])
  {
    TwoWordsFound(c, a, b);
    PlainWordUncoerced(c, a);
    PlainWordUncoerced(c, b);
    var t := a + c.arraySeparator + b;
    var parts := [a, b];
    var items := seq(|parts|, i requires 0 <= i < |parts| => CoerceScalar(c, Strip(parts[i])));
    assert Coerce(c, Str(t)) == List(items);
    assert items[0] == Str(a) && items[1] == Str(b);
    assert items == [Str(a), Str(b)];
  }

  /** The joined string needs no stripping, and the array step finds exactly the two words. */
  lemma TwoWordsFound(c: Coercer, a: string, b: string)
    requires c.coerceArrays && |c.arraySeparator| > 0 && c.arraySeparator != " "
    requires forall i :: 0 <= i < |c.arraySeparator| ==> !IsStripSpace(c.arraySeparator[i])
    requires IsPlainWord(a) && IsPlainWord(b)
    requires forall i :: 0 <= i < |a| ==> a[i] != c.arraySeparator[0]
    requires forall i :: 0 <= i < |b| ==> b[i] != c.arraySeparator[0]
    ensures Strip(a + c.arraySeparator + b) == a + c.arraySeparator + b
    ensures CoerceToArray(c, a + c.arraySeparator + b) == Some([a, b])
  {
    var sep := c.arraySeparator;
    var t := a + sep + b;
    NoBlanksInJoin(a, sep, b);
    NoBlanksStripped(t);
    SplitIntoTwo(a, b, sep);
    IndexOfAfterFreePart(a, sep, b);
    assert OccursAt(t, sep, |a|);
  }

  lemma NoBlanksInJoin(a: string, sep: string, b: string)
    requires forall i :: 0 <= i < |a| ==> !IsStripSpace(a[i])
    requires forall i :: 0 <= i < |sep| ==> !IsStripSpace(sep[i])
    requires forall i :: 0 <= i < |b| ==> !IsStripSpace(b[i])
    ensures forall i :: 0 <= i < |a + sep + b| ==> !IsStripSpace((a + sep + b)[i])
  {
  }

  /** Non-empty, without blanks, starting with a character that begins no number and no keyword. */
  predicate IsPlainWord(t: string) {
    && |t| > 0
    && (forall i :: 0 <= i < |t| ==> !IsStripSpace(t[i]))
    && !Numbers.IsDecimalDigit(t[0]) && t[0] != '+' && t[0] != '-' && t[0] != '.'
    && DownChar(t[0]) != 'n' && DownChar(t[0]) != 't' && DownChar(t[0]) != 'f'
  }

  /** No coercion applies to a plain word, and stripping leaves it as it is. */
  lemma PlainWordUncoerced(c: Coercer, t: string)
    requires IsPlainWord(t)
    ensures Strip(t) == t && CoerceValue(c, t).None? && CoerceScalar(c, t) == Str(t)
  {
    NoBlanksStripped(t);
    Numbers.NoNumberWithoutLeadingDigit(t);
    assert Downcase(t)[0] == DownChar(t[0]);
    assert !EqualsIgnoringCase(t, "nil") && !EqualsIgnoringCase(t, "true") && !EqualsIgnoringCase(t, "false");
  }

  /** With `|` as the separator, `string1,string2` stays one string. */
  lemma PipeSeparatorKeepsCommas(t: string)
    requires t == "string1,string2"
    ensures Coerce(Coercer(AllKinds, true, "|"), Str(t)) == Str(t)
  {
    assert IsPlainWord(t);
    WordStaysString(Coercer(AllKinds, true, "|"), t);
  }

  /** With the default `,` separator, `string1,string2` becomes two strings. */
  lemma CommaSeparatorSplits(a: string, b: string)
    requires a == "string1" && b == "string2"
    ensures Coerce(Default, Str(a + "," + b)) == List([Str(a), Str(b)])
  {
    assert IsPlainWord(a) && IsPlainWord(b);
    TwoWordsSplit(Default, a, b);
  }

  lemma PrintedIntegerShape(n: int)
    ensures var t := Numbers.IntToString(n);
      |t| > 0 && forall i :: 0 <= i < |t| ==> t[i] == '-' || Numbers.IsDecimalDigit(t[i])
  {
    var t := Numbers.IntToString(n);
    if n < 0 {
      var digits := Numbers.NatToString(-n);
      forall i | 0 <= i < |t| ensures t[i] == '-' || Numbers.IsDecimalDigit(t[i]) {
        if i > 0 {
          assert t[i] == digits[i - 1];
        }
      }
    }
  }

  lemma NoBlanksStripped(t: string)
    requires forall i :: 0 <= i < |t| ==> !IsStripSpace(t[i])
    ensures Strip(t) == t
  {
    assert TrimStart(t) == t;
  }

  lemma NoCommaNotContained(t: string)
    requires forall i :: 0 <= i < |t| ==> t[i] != ','
    ensures !Contains(t, ",")
  {
    forall j | 0 <= j
      ensures !OccursAt(t, ",", j)
    {
      if j + 1 <= |t| {
        assert t[j..j + 1] == [t[j]];
      }
    }
  }
}
