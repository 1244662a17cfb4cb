/**
 * The Ruby String operations the pipeline relies on: `strip`, ASCII
 * `upcase`/`downcase`/`casecmp`, `include?`, `split` with a string
 * separator, and `Array#join`.
 */
module Text {
  import opened Values

  /** The characters `String#strip` removes: null, \t, \n, \v, \f, \r and space. */
  predicate IsStripSpace(c: char) {
    c == '\0' || c == '\t' || c == '\n' || c == '\U{B}' || c == '\U{C}' || c == '\r' || c == ' '
  }

  /** The characters awk-style `split(" ")` treats as blanks (no null). */
  predicate IsAwkSpace(c: char) {
    c == '\t' || c == '\n' || c == '\U{B}' || c == '\U{C}' || c == '\r' || c == ' '
  }

  /** `lstrip`: the longest suffix of `s` that does not start with a strip space. */
  function TrimStart(s: string): (r: string)
    ensures |r| <= |s| && r == s[|s| - |r|..]
    ensures forall i :: 0 <= i < |s| - |r| ==> IsStripSpace(s[i])
    ensures r == [] || !IsStripSpace(r[0])
  {
    if |s| > 0 && IsStripSpace(s[0]) then TrimStart(s[1..]) else s
  }

  /** `rstrip`: the longest prefix of `s` that does not end with a strip space. */
  function TrimEnd(s: string): (r: string)
    ensures |r| <= |s| && r == s[..|r|]
    ensures forall i :: |r| <= i < |s| ==> IsStripSpace(s[i])
    ensures r == [] || !IsStripSpace(r[|r| - 1])
  {
    if |s| > 0 && IsStripSpace(s[|s| - 1]) then TrimEnd(s[..|s| - 1]) else s
  }

  function Strip(s: string): string {
    TrimEnd(TrimStart(s))
  }

  /** `strip` leaves a string with no strip space at either end, cut out of `s`. */
  lemma StripShape(s: string)
    ensures var k := |s| - |TrimStart(s)|;
      && k + |Strip(s)| <= |s| && Strip(s) == s[k..k + |Strip(s)|]
      && (forall i :: 0 <= i < k ==> IsStripSpace(s[i]))
      && (forall i :: k + |Strip(s)| <= i < |s| ==> IsStripSpace(s[i]))
    ensures Strip(s) == [] || (!IsStripSpace(Strip(s)[0]) && !IsStripSpace(Strip(s)[|Strip(s)| - 1]))
  {
    var t := TrimStart(s);
    var r := TrimEnd(t);
    var k := |s| - |t|;
    assert t == s[k..];
    assert r == t[..|r|];
    assert r == s[k..k + |r|];
    forall i | k + |r| <= i < |s|
      ensures IsStripSpace(s[i])
    {
      assert s[i] == t[i - k];
    }
    if r != [] {
      assert r[0] == t[0];
    }
  }

  /** Stripping twice is stripping once. */
  lemma StripIdempotent(s: string)
    ensures Strip(Strip(s)) == Strip(s)
  {
    var r := Strip(s);
    StripShape(s);
    if r != [] {
      assert TrimStart(r) == r;
      assert TrimEnd(r) == r;
    }
  }

  function UpChar(c: char): char {
    if 'a' <= c <= 'z' then (c as int - 32) as char else c
  }

  function DownChar(c: char): char {
    if 'A' <= c <= 'Z' then (c as int + 32) as char else c
  }

  /** `upcase`, for the ASCII letters. */
  function Upcase(s: string): string {
    seq(|s|, i requires 0 <= i < |s| => UpChar(s[i]))
  }

  /** `downcase`, for the ASCII letters. */
  function Downcase(s: string): string {
    seq(|s|, i requires 0 <= i < |s| => DownChar(s[i]))
  }

  /** `a.casecmp(b).zero?`: equal once ASCII letters are folded to lower case. */
  predicate EqualsIgnoringCase(a: string, b: string) {
    Downcase(a) == Downcase(b)
  }

  /** `map(&:upcase)` over a list of segments. */
  function UpcaseAll(parts: seq<string>): (r: seq<string>)
    ensures |r| == |parts|
  {
    seq(|parts|, i requires 0 <= i < |parts| => Upcase(parts[i]))
  }

  /** `map(&:downcase)` over a list of segments. */
  function DowncaseAll(parts: seq<string>): (r: seq<string>)
    ensures |r| == |parts|
  {
    seq(|parts|, i requires 0 <= i < |parts| => Downcase(parts[i]))
  }

  predicate OccursAt(s: string, sub: string, j: int) {
    0 <= j && j + |sub| <= |s| && s[j..j + |sub|] == sub
  }

  /** `index`: the first position at which `sub` occurs in `s`. */
  function IndexOf(s: string, sub: string): (r: Option<nat>)
    ensures r.Some? ==> OccursAt(s, sub, r.value)
    ensures r.Some? ==> forall j :: 0 <= j < r.value ==> !OccursAt(s, sub, j)
    ensures r.None? ==> forall j :: 0 <= j ==> !OccursAt(s, sub, j)
    decreases |s|
  {
    if |s| < |sub| then None
    else if s[..|sub|] == sub then
      assert s[0..|sub|] == s[..|sub|];
      Some(0)
    else
      assert s[0..|sub|] == s[..|sub|];
      assert !OccursAt(s, sub, 0);
      var rest := IndexOf(s[1..], sub);
      assert forall j :: 0 <= j ==> (OccursAt(s, sub, j + 1) <==> OccursAt(s[1..], sub, j)) by {
        forall j | 0 <= j
          ensures OccursAt(s, sub, j + 1) == OccursAt(s[1..], sub, j)
        {
          if j + 1 + |sub| <= |s| {
            assert s[j + 1..j + 1 + |sub|] == s[1..][j..j + |sub|];
          }
        }
      }
      match rest
      case None =>
        assert forall j :: 0 <= j ==> !OccursAt(s, sub, j) by {
          forall j | 0 <= j ensures !OccursAt(s, sub, j) {
            if j > 0 {
              assert !OccursAt(s[1..], sub, j - 1);
            }
          }
        }
        None
      case Some(k) =>
        assert forall j :: 0 <= j < k + 1 ==> !OccursAt(s, sub, j) by {
          forall j | 0 <= j < k + 1 ensures !OccursAt(s, sub, j) {
            if j > 0 {
              assert !OccursAt(s[1..], sub, j - 1);
            }
          }
        }
        Some(k + 1)
  }

  /** `include?`. */
  predicate Contains(s: string, sub: string) {
    IndexOf(s, sub).Some?
  }

  /** Every field between two occurrences of a non-empty `sep`, trailing empty fields kept. */
  function SplitAll(s: string, sep: string): (parts: seq<string>)
    requires |sep| > 0
    ensures |parts| >= 1
    decreases |s|
  {
    match IndexOf(s, sep)
    case None => [s]
    case Some(i) => [s[..i]] + SplitAll(s[i + |sep|..], sep)
  }

  /** `Array#join(sep)`. */
  function Join(parts: seq<string>, sep: string): string {
    if |parts| == 0 then ""
    else if |parts| == 1 then parts[0]
    else parts[0] + sep + Join(parts[1..], sep)
  }

  /** Splitting on a separator and joining with it again gives back the string. */
  lemma {:induction false} JoinSplitAll(s: string, sep: string)
    requires |sep| > 0
    ensures Join(SplitAll(s, sep), sep) == s
    decreases |s|
  {
    match IndexOf(s, sep)
    case None =>
    case Some(i) =>
      var rest := s[i + |sep|..];
      var tail := SplitAll(rest, sep);
      JoinSplitAll(rest, sep);
      JoinCons(s[..i], tail, sep);
      assert s[i..i + |sep|] == sep;
      assert s == s[..i] + s[i..i + |sep|] + rest;
  }

  lemma JoinCons(head: string, tail: seq<string>, sep: string)
    requires |tail| > 0
    ensures Join([head] + tail, sep) == head + sep + Join(tail, sep)
  {
    assert ([head] + tail)[1..] == tail;
  }

  /** No field produced by SplitAll contains the separator. */
  lemma {:induction false} SplitAllFieldsFree(s: string, sep: string)
    requires |sep| > 0
    ensures forall k :: 0 <= k < |SplitAll(s, sep)| ==> !Contains(SplitAll(s, sep)[k], sep)
    decreases |s|
  {
    match IndexOf(s, sep)
    case None =>
      assert SplitAll(s, sep) == [s];
    case Some(i) =>
      var rest := s[i + |sep|..];
      SplitAllFieldsFree(rest, sep);
      var head := s[..i];
      forall j | 0 <= j
        ensures !OccursAt(head, sep, j)
      {
        if OccursAt(head, sep, j) {
          assert head[j..j + |sep|] == s[j..j + |sep|];
          assert OccursAt(s, sep, j);
        }
      }
      assert !Contains(head, sep);
  }

  /** The fields of a list up to the last non-empty one: Ruby drops trailing empty fields. */
  function DropTrailingEmpty(parts: seq<string>): (r: seq<string>)
    ensures |r| <= |parts| && r == parts[..|r|]
    ensures forall k :: |r| <= k < |parts| ==> parts[k] == ""
    ensures r == [] || r[|r| - 1] != ""
  {
    if |parts| > 0 && parts[|parts| - 1] == "" then DropTrailingEmpty(parts[..|parts| - 1]) else parts
  }

  /** Awk-style splitting, which Ruby uses when the separator is a single space. */
  function AwkSplit(s: string): (r: seq<string>)
    decreases |s|
  {
    if |s| == 0 then []
    else if IsAwkSpace(s[0]) then AwkSplit(s[1..])
    else
      var w := AwkWord(s);
      [w] + AwkSplit(s[|w|..])
  }

  /** The longest prefix of `s` free of awk blanks. */
  function AwkWord(s: string): (w: string)
    ensures |w| <= |s| && w == s[..|w|]
    ensures |s| > 0 && !IsAwkSpace(s[0]) ==> |w| > 0
    ensures forall i :: 0 <= i < |w| ==> !IsAwkSpace(w[i])
  {
    if |s| == 0 || IsAwkSpace(s[0]) then [] else [s[0]] + AwkWord(s[1..])
  }

  /** `String#split(sep)` for a string separator. */
  function RubySplit(s: string, sep: string): seq<string> {
    if sep == "" then seq(|s|, i requires 0 <= i < |s| => [s[i]])
    else if sep == " " then AwkSplit(s)
    else DropTrailingEmpty(SplitAll(s, sep))
  }

  /** For any separator but a single space, split then join loses only trailing separators. */
  lemma SplitJoinPrefix(s: string, sep: string)
    requires |sep| > 0 && sep != " "
    ensures exists tail :: s == Join(RubySplit(s, sep), sep) + tail
  {
    var all := SplitAll(s, sep);
    var kept := DropTrailingEmpty(all);
    JoinSplitAll(s, sep);
    JoinDroppedEmpty(all, sep, |kept|);
  }

  /** Joining a prefix of a list leaves a suffix made of separators and empty fields. */
  lemma {:induction false} JoinDroppedEmpty(parts: seq<string>, sep: string, n: nat)
    requires n <= |parts|
    ensures exists tail :: Join(parts, sep) == Join(parts[..n], sep) + tail
    decreases |parts|
  {
    if n == 0 {
      assert Join(parts, sep) == Join(parts[..0], sep) + Join(parts, sep);
    } else if |parts| == 1 {
      assert parts[..n] == parts;
      assert Join(parts, sep) == Join(parts[..n], sep) + "";
    } else {
      JoinDroppedEmpty(parts[1..], sep, n - 1);
      var tail :| Join(parts[1..], sep) == Join(parts[1..][..n - 1], sep) + tail;
      assert parts[1..][..n - 1] == parts[..n][1..];
      if n == 1 {
        assert parts[..n] == [parts[0]];
        assert Join(parts, sep) == Join(parts[..n], sep) + (sep + Join(parts[1..], sep));
      } else {
        assert Join(parts, sep) == Join(parts[..n], sep) + tail;
      }
    }
  }

  /** Upper-casing a joined key is joining the upper-cased segments (for a caseless separator). */
  lemma {:induction false} UpcaseJoin(parts: seq<string>, sep: string)
    requires Upcase(sep) == sep
    ensures Upcase(Join(parts, sep)) == Join(UpcaseAll(parts), sep)
    decreases |parts|
  {
    if |parts| >= 2 {
      UpcaseJoin(parts[1..], sep);
      assert UpcaseAll(parts)[1..] == UpcaseAll(parts[1..]);
      UpcaseConcat(parts[0] + sep, Join(parts[1..], sep));
      UpcaseConcat(parts[0], sep);
    }
  }

  /** Lower-casing a joined key is joining the lower-cased segments (for a caseless separator). */
  lemma {:induction false} DowncaseJoin(parts: seq<string>, sep: string)
    requires Downcase(sep) == sep
    ensures Downcase(Join(parts, sep)) == Join(DowncaseAll(parts), sep)
    decreases |parts|
  {
    if |parts| >= 2 {
      DowncaseJoin(parts[1..], sep);
      assert DowncaseAll(parts)[1..] == DowncaseAll(parts[1..]);
      DowncaseConcat(parts[0] + sep, Join(parts[1..], sep));
      DowncaseConcat(parts[0], sep);
    }
  }

  lemma UpcaseConcat(a: string, b: string)
    ensures Upcase(a + b) == Upcase(a) + Upcase(b)
  {
    assert Upcase(a + b) == Upcase(a) + Upcase(b);
  }

  lemma DowncaseConcat(a: string, b: string)
    ensures Downcase(a + b) == Downcase(a) + Downcase(b)
  {
    assert Downcase(a + b) == Downcase(a) + Downcase(b);
  }

  // ---------------------------------------------------------------------
  // Splitting strings whose separator's first character occurs nowhere else.

  /** A string none of whose characters starts the separator does not contain it. */
  lemma NotContainedByFirstChar(s: string, sep: string)
    requires |sep| > 0
    requires forall i :: 0 <= i < |s| ==> s[i] != sep[0]
    ensures !Contains(s, sep)
  {
    forall j | 0 <= j
      ensures !OccursAt(s, sep, j)
    {
      if j + |sep| <= |s| {
        assert s[j..j + |sep|][0] == s[j];
      }
    }
  }

  /** The first occurrence of the separator is right after a part free of its first character. */
  lemma IndexOfAfterFreePart(a: string, sep: string, rest: string)
    requires |sep| > 0
    requires forall i :: 0 <= i < |a| ==> a[i] != sep[0]
    ensures IndexOf(a + sep + rest, sep) == Some(|a|)
  {
    var s := a + sep + rest;
    assert s[|a|..|a| + |sep|] == sep;
    assert OccursAt(s, sep, |a|);
    forall j | 0 <= j < |a|
      ensures !OccursAt(s, sep, j)
    {
      if j + |sep| <= |s| {
        assert s[j..j + |sep|][0] == a[j];
      }
    }
  }

  /** A non-empty string without the separator splits into itself. */
  lemma SplitIntoOne(s: string, sep: string)
    requires |sep| > 0 && sep != " " && s != ""
    requires forall i :: 0 <= i < |s| ==> s[i] != sep[0]
    ensures RubySplit(s, sep) == [s]
  {
    NotContainedByFirstChar(s, sep);
    assert SplitAll(s, sep) == [s];
  }

  /** `a + sep + b` splits into `a` and `b` when neither holds the separator's first character. */
  lemma SplitIntoTwo(a: string, b: string, sep: string)
    requires |sep| > 0 && sep != " " && b != ""
    requires forall i :: 0 <= i < |a| ==> a[i] != sep[0]
    requires forall i :: 0 <= i < |b| ==> b[i] != sep[0]
    ensures RubySplit(a + sep + b, sep) == [a, b]
  {
    var s := a + sep + b;
    IndexOfAfterFreePart(a, sep, b);
    assert s[..|a|] == a;
    assert s[|a| + |sep|..] == b;
    NotContainedByFirstChar(b, sep);
    assert SplitAll(b, sep) == [b];
    assert SplitAll(s, sep) == [a, b];
  }

  /** Folding to lower case after upper case is folding to lower case. */
  lemma DowncaseUpcase(s: string)
    ensures Downcase(Upcase(s)) == Downcase(s)
    ensures Upcase(Upcase(s)) == Upcase(s)
  {
  }
}
