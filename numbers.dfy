/**
 * The strict number parsers the coercer calls: Ruby's `Integer(str)` and
 * `Float(str)`, which either accept the whole string or raise ArgumentError
 * (here: None).
 */
module Numbers {
  import opened Values
  import Text

  predicate IsDecimalDigit(c: char) {
    '0' <= c <= '9'
  }

  function DigitValue(c: char): nat {
    if '0' <= c <= '9' then c as int - '0' as int
    else if 'a' <= c <= 'z' then c as int - 'a' as int + 10
    else if 'A' <= c <= 'Z' then c as int - 'A' as int + 10
    else 36
  }

  /** A digit of the given base: 0-1, 0-7, 0-9 or 0-9a-fA-F. */
  predicate IsDigitOf(c: char, base: nat) {
    (IsDecimalDigit(c) || ('a' <= c <= 'z') || ('A' <= c <= 'Z')) && DigitValue(c) < base
  }

  /** A run of digits where single underscores may separate two digits. */
  predicate ValidDigits(s: string, base: nat) {
    && |s| > 0
    && IsDigitOf(s[0], base)
    && IsDigitOf(s[|s| - 1], base)
    && (forall i :: 0 <= i < |s| ==> IsDigitOf(s[i], base) || s[i] == '_')
    && (forall i :: 0 <= i < |s| - 1 ==> !(s[i] == '_' && s[i + 1] == '_'))
  }

  /** The value of a digit run, underscores ignored. */
  function DigitsValue(s: string, base: nat): nat {
    if |s| == 0 then 0
    else if s[|s| - 1] == '_' then DigitsValue(s[..|s| - 1], base)
    else DigitsValue(s[..|s| - 1], base) * base + DigitValue(s[|s| - 1])
  }

  /** The number of digits in a run, underscores not counted. */
  function DigitCount(s: string): nat {
    if |s| == 0 then 0 else DigitCount(s[1..]) + (if s[0] == '_' then 0 else 1)
  }

  function ParseDigits(s: string, base: nat): (r: Option<nat>)
    ensures r.Some? <==> ValidDigits(s, base)
  {
    if ValidDigits(s, base) then Some(DigitsValue(s, base)) else None
  }

  /**
   * An unsigned integer literal as `Integer()` reads it: a 0x/0b/0o/0d radix
   * prefix, or a leading 0 for octal, or else plain decimal. The leading 0
   * of an octal literal is itself a digit, so an underscore may follow it
   * (`0_7` is 7).
   */
  function ParseUnsigned(s: string): Option<nat> {
    if |s| >= 2 && s[0] == '0' && (s[1] == 'x' || s[1] == 'X') then ParseDigits(s[2..], 16)
    else if |s| >= 2 && s[0] == '0' && (s[1] == 'b' || s[1] == 'B') then ParseDigits(s[2..], 2)
    else if |s| >= 2 && s[0] == '0' && (s[1] == 'o' || s[1] == 'O') then ParseDigits(s[2..], 8)
    else if |s| >= 2 && s[0] == '0' && (s[1] == 'd' || s[1] == 'D') then ParseDigits(s[2..], 10)
    else if |s| >= 2 && s[0] == '0' then ParseDigits(s, 8)
    else ParseDigits(s, 10)
  }

  /** `Integer(str)` on an already stripped string: an optional sign, then an unsigned literal. */
  function ParseInteger(s: string): Option<int> {
    if |s| > 0 && (s[0] == '+' || s[0] == '-') then
      match ParseUnsigned(s[1..])
      case None => None
      case Some(n) => var k: int := n; Some(if s[0] == '-' then -k else k)
    else
      match ParseUnsigned(s)
      case None => None
      case Some(n) => Some(n)
  }

  /** The first position of an exponent marker `e` or `E`. */
  function ExponentMark(s: string): (r: Option<nat>)
    ensures r.Some? ==> r.value < |s| && (s[r.value] == 'e' || s[r.value] == 'E')
  {
    if |s| == 0 then None
    else if s[0] == 'e' || s[0] == 'E' then Some(0)
    else match ExponentMark(s[1..])
      case None => None
      case Some(k) => Some(k + 1)
  }

  /** A decimal exponent: an optional sign and a digit run. */
  function ParseExponent(s: string): Option<int> {
    if |s| > 0 && (s[0] == '+' || s[0] == '-') then
      match ParseDigits(s[1..], 10)
      case None => None
      case Some(n) => var k: int := n; Some(if s[0] == '-' then -k else k)
    else
      match ParseDigits(s, 10)
      case None => None
      case Some(n) => Some(n)
  }

  /**
   * Digits, optionally a point and more digits: the exact decimal they
   * denote. As in Ruby's `strtod`, the digits before the point may be
   * absent (`.5`) but those after it may not (`1.` is rejected).
   */
  function ParseMantissa(s: string): Option<Decimal> {
    var dot := Text.IndexOf(s, ".");
    if dot.None? then
      if ValidDigits(s, 10) then Some(Decimal(DigitsValue(s, 10), 0)) else None
    else
      var p := dot.value;
      assert Text.OccursAt(s, ".", p);
      var whole, frac := s[..p], s[p + 1..];
      if (|whole| == 0 || ValidDigits(whole, 10)) && ValidDigits(frac, 10) then
        var scale := Pow10(DigitCount(frac));
        Some(Decimal(DigitsValue(whole, 10) * scale + DigitsValue(frac, 10), -(DigitCount(frac) as int)))
      else None
  }

  /**
   * `Float(str)` on an already stripped string, for decimal notation: an
   * optional sign, digits, an optional fraction and an optional exponent.
   * The result is the exact decimal written, not the nearest double.
   */
  function ParseFloat(s: string): Option<Decimal> {
    var negative := |s| > 0 && s[0] == '-';
    var body := if |s| > 0 && (s[0] == '+' || s[0] == '-') then s[1..] else s;
    var mark := ExponentMark(body);
    var mantissa := if mark.Some? then ParseMantissa(body[..mark.value]) else ParseMantissa(body);
    var exponent := if mark.Some? then ParseExponent(body[mark.value + 1..]) else Some(0);
    if mantissa.Some? && exponent.Some? then
      var m := mantissa.value;
      Some(Decimal(if negative then -m.mantissa else m.mantissa, m.exponent + exponent.value))
    else None
  }

  function Pow10(n: nat): nat {
    if n == 0 then 1 else 10 * Pow10(n - 1)
  }

  function DigitChar(d: nat): char
    requires d < 10
  {
    "0123456789"[d]
  }

  /** `Integer#to_s` for a natural number. */
  function NatToString(n: nat): (s: string)
    ensures |s| > 0
    ensures forall i :: 0 <= i < |s| ==> IsDecimalDigit(s[i])
  {
    if n < 10 then [DigitChar(n)] else NatToString(n / 10) + [DigitChar(n % 10)]
  }

  /** `Integer#to_s`. */
  function IntToString(n: int): string {
    if n < 0 then "-" + NatToString(-n) else NatToString(n)
  }

  lemma {:induction false} NatToStringValue(n: nat)
    ensures DigitsValue(NatToString(n), 10) == n
    decreases n
  {
    var s := NatToString(n);
    if n < 10 {
      assert s[..0] == [];
    } else {
      NatToStringValue(n / 10);
      assert s[..|s| - 1] == NatToString(n / 10);
    }
  }

  lemma {:induction false} NatToStringLeading(n: nat)
    ensures (NatToString(n)[0] == '0') == (n == 0)
    decreases n
  {
    if n >= 10 {
      NatToStringLeading(n / 10);
    }
  }

  /** Printing an integer in decimal and reading it back with `Integer()` gives the integer. */
  lemma ParseIntegerRoundTrip(n: int)
    ensures ParseInteger(IntToString(n)) == Some(n)
  {
    var m: nat := if n < 0 then -n else n;
    var digits := NatToString(m);
    NatToStringValue(m);
    NatToStringLeading(m);
    assert ValidDigits(digits, 10) by {
      assert forall i :: 0 <= i < |digits| ==> IsDigitOf(digits[i], 10);
    }
    assert ParseUnsigned(digits) == Some(m);
    if n < 0 {
      assert IntToString(n)[1..] == digits;
    }
  }

  /** A mantissa must start with a decimal digit or the point. */
  lemma MantissaNeedsLeadingDigit(x: string)
    requires |x| == 0 || (!IsDecimalDigit(x[0]) && x[0] != '.')
    ensures ParseMantissa(x).None?
  {
    var dot := Text.IndexOf(x, ".");
    if dot.Some? && dot.value > 0 {
      assert x[..dot.value][0] == x[0];
    }
  }

  /** A string that starts with neither a digit, a sign nor a point is neither an integer nor a float. */
  lemma NoNumberWithoutLeadingDigit(s: string)
    requires |s| > 0 && !IsDecimalDigit(s[0]) && s[0] != '+' && s[0] != '-' && s[0] != '.'
    ensures ParseInteger(s).None? && ParseFloat(s).None?
  {
    var mark := ExponentMark(s);
    if mark.Some? {
      if mark.value > 0 {
        assert s[..mark.value][0] == s[0];
      }
      MantissaNeedsLeadingDigit(s[..mark.value]);
    } else {
      MantissaNeedsLeadingDigit(s);
    }
  }

  /** A fraction without digits before the point, such as `.5`, is a Float and not an Integer. */
  lemma LeadingPointFloat(s: string)
    requires s == ".5"
    ensures ParseFloat(s) == Some(Decimal(5, -1))
    ensures ParseInteger(s).None?
  {
    assert ExponentMark(s[1..]) == None;
    assert ExponentMark(s) == None;
    assert Text.OccursAt(s, ".", 0);
    assert Text.IndexOf(s, ".") == Some(0);
    assert s[..0] == [] && s[1..] == "5";
    assert ValidDigits("5", 10) && DigitsValue("5", 10) == 5;
    assert DigitCount("5") == 1 by {
      assert "5"[1..] == [];
    }
    assert ParseMantissa(s) == Some(Decimal(5, -1));
  }

  /**
   * A leading 0 makes the literal octal, and the 0 is one of its digits: an
   * underscore may follow it, while a digit 8 is rejected.
   */
  lemma LeadingZeroOctal()
    ensures ParseInteger("0_7") == Some(7)
    ensures ParseInteger("017") == Some(15)
    ensures ParseInteger("08").None?
  {
    assert ValidDigits("0_7", 8);
    assert DigitsValue("0_7", 8) == 7 by {
      assert "0_7"[..2] == "0_" && "0_"[..1] == "0" && "0"[..0] == [];
    }
    assert DigitsValue("017", 8) == 15 by {
      assert "017"[..2] == "01" && "01"[..1] == "0" && "0"[..0] == [];
    }
    assert !IsDigitOf("08"[1], 8);
  }
}
