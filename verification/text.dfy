/**
 * The java.lang string operations the portal layer relies on: case-insensitive
 * comparison (String.equalsIgnoreCase), decimal rendering (Long.toString,
 * Integer.toString), decimal parsing (Integer.parseInt), strict boolean parsing and
 * case-insensitive enum lookup.
 */
module Text {
  import opened Optional

  /** Case folding of one character, restricted to ASCII letters. */
  function FoldCase(c: char): char {
    if 'A' <= c <= 'Z' then (c as int + 32) as char else c
  }

  /** Every character folded to lower case. */
  function ToLowerCase(s: string): (r: string)
    ensures |r| == |s|
    ensures forall i :: 0 <= i < |s| ==> r[i] == FoldCase(s[i])
  {
    seq(|s|, i requires 0 <= i < |s| => FoldCase(s[i]))
  }

  /** String.equalsIgnoreCase: same length, and the characters agree pairwise after folding. */
  predicate EqualsIgnoreCase(a: string, b: string) {
    |a| == |b| && forall i :: 0 <= i < |a| ==> FoldCase(a[i]) == FoldCase(b[i])
  }

  /** The pairwise comparison is the same as comparing the lower-cased strings. */
  lemma EqualsIgnoreCaseIffLowerEqual(a: string, b: string)
    ensures EqualsIgnoreCase(a, b) <==> ToLowerCase(a) == ToLowerCase(b)
  {
    if ToLowerCase(a) == ToLowerCase(b) {
      forall i | 0 <= i < |a|
        ensures FoldCase(a[i]) == FoldCase(b[i])
      {
        assert ToLowerCase(a)[i] == ToLowerCase(b)[i];
      }
    }
  }

  /** Case-insensitive equality is an equivalence relation that contains plain equality. */
  lemma EqualsIgnoreCaseIsEquivalence(a: string, b: string, c: string)
    ensures a == b ==> EqualsIgnoreCase(a, b)
    ensures EqualsIgnoreCase(a, b) ==> EqualsIgnoreCase(b, a)
    ensures EqualsIgnoreCase(a, b) && EqualsIgnoreCase(b, c) ==> EqualsIgnoreCase(a, c)
  {
    EqualsIgnoreCaseIffLowerEqual(a, b);
    EqualsIgnoreCaseIffLowerEqual(b, c);
    EqualsIgnoreCaseIffLowerEqual(a, c);
    EqualsIgnoreCaseIffLowerEqual(b, a);
  }

  // ---------------------------------------------------------------------------
  // Decimal rendering and parsing

  predicate IsDigit(c: char) {
    '0' <= c <= '9'
  }

  predicate AllDigits(s: string) {
    forall i :: 0 <= i < |s| ==> IsDigit(s[i])
  }

  function DigitChar(d: nat): (c: char)
    requires d < 10
    ensures IsDigit(c)
  {
    ('0' as int + d) as char
  }

  function DigitValue(c: char): (d: nat)
    requires IsDigit(c)
    ensures d < 10 && DigitChar(d) == c
  {
    c as int - '0' as int
  }

  /** The decimal digits of n, most significant first, without leading zeros. */
  function NatToDecimal(n: nat): (s: string)
    ensures |s| > 0 && AllDigits(s)
    decreases n
  {
    if n < 10 then [DigitChar(n)] else NatToDecimal(n / 10) + [DigitChar(n % 10)]
  }

  /** Long.toString and Integer.toString: decimal digits, preceded by '-' for a negative value. */
  function IntToDecimal(n: int): (s: string)
    ensures |s| > 0
    ensures s[0] == '-' <==> n < 0
  {
    if n < 0 then "-" + NatToDecimal(-n) else NatToDecimal(n)
  }

  /** The value of a string of decimal digits (0 for the empty string). */
  function DigitsValue(s: string): nat
    requires AllDigits(s)
  {
    if |s| == 0 then 0 else DigitsValue(s[..|s| - 1]) * 10 + DigitValue(s[|s| - 1])
  }

  /**
   * The grammar Integer.parseInt accepts, without its range check: an optional
   * '+' or '-' followed by one or more decimal digits; anything else fails.
   */
  function ParseDecimal(s: string): (r: Option<int>)
  {
    if |s| > 0 && (s[0] == '-' || s[0] == '+') then
      if |s| > 1 && AllDigits(s[1..]) then
        Some(if s[0] == '-' then 0 - DigitsValue(s[1..]) as int else DigitsValue(s[1..]) as int)
      else None
    else if |s| > 0 && AllDigits(s) then Some(DigitsValue(s))
    else None
  }

  const IntMin: int := -0x8000_0000
  const IntMax: int := 0x7FFF_FFFF

  /**
   * Integer.parseInt: a value exactly for the texts ParseDecimal reads (an optional
   * sign, then digits, leading zeros allowed) whose value fits 32 bits; None where
   * Java throws.
   */
  function ParseInt(s: string): (r: Option<int>)
    ensures r.Some? ==> IntMin <= r.value <= IntMax
    ensures r.Some? ==> ParseDecimal(s) == r
    ensures ParseDecimal(s).Some? && IntMin <= ParseDecimal(s).value <= IntMax ==> r == ParseDecimal(s)
  {
    match ParseDecimal(s)
    case Some(v) => if IntMin <= v <= IntMax then Some(v) else None
    case None => None
  }

  /** Integer.parseInt accepts a leading '+' and leading zeros, and rejects a value beyond 32 bits. */
  lemma ParseIntExamples()
    ensures ParseInt("+42") == Some(42) && ParseInt("042") == Some(42) && ParseInt("-7") == Some(-7)
    ensures ParseInt("2147483648") == None && ParseInt("") == None && ParseInt("-") == None
  {
    assert "+42"[1..] == "42" && "42"[..1] == "4";
    assert DigitsValue("42") == 42;
    assert "042"[..2] == "04" && "04"[..1] == "0";
    assert DigitsValue("042") == 42;
    assert "-7"[1..] == "7";
    assert AllDigits("2147483648");
    assert "21"[..1] == "2";
    assert "214"[..2] == "21";
    assert "2147"[..3] == "214";
    assert "21474"[..4] == "2147";
    assert "214748"[..5] == "21474";
    assert "2147483"[..6] == "214748";
    assert "21474836"[..7] == "2147483";
    assert "214748364"[..8] == "21474836";
    assert "2147483648"[..9] == "214748364";
    assert DigitsValue("2147483648") == 2147483648;
  }

  lemma {:induction false} NatToDecimalValue(n: nat)
    ensures DigitsValue(NatToDecimal(n)) == n
    decreases n
  {
    if n >= 10 {
      NatToDecimalValue(n / 10);
      var s := NatToDecimal(n);
      assert s[..|s| - 1] == NatToDecimal(n / 10);
    }
  }

  /** Parsing the decimal rendering of any integer gives the integer back. */
  lemma DecimalRoundTrip(n: int)
    ensures ParseDecimal(IntToDecimal(n)) == Some(n)
  {
    var s := IntToDecimal(n);
    if n < 0 {
      NatToDecimalValue(-n);
      assert s[1..] == NatToDecimal(-n);
    } else {
      NatToDecimalValue(n);
      assert IsDigit(s[0]);
    }
  }

  /** Integer.parseInt(Integer.toString(n)) == n for every 32-bit n. */
  lemma IntRoundTrip(n: int)
    requires IntMin <= n <= IntMax
    ensures ParseInt(IntToDecimal(n)) == Some(n)
  {
    DecimalRoundTrip(n);
  }

  /** Distinct integers have distinct decimal renderings. */
  lemma IntToDecimalInjective(a: int, b: int)
    ensures IntToDecimal(a) == IntToDecimal(b) ==> a == b
  {
    DecimalRoundTrip(a);
    DecimalRoundTrip(b);
  }

  // ---------------------------------------------------------------------------
  // Booleans and enumerations

  /** Boolean.toString. */
  function BooleanToString(b: bool): string {
    if b then "true" else "false"
  }

  /** Strict boolean parsing: exactly "true" or "false", case-sensitive; anything else has no value. */
  function ParseBoolean(s: string): (r: Option<bool>)
    ensures r.Some? <==> s == BooleanToString(true) || s == BooleanToString(false)
    ensures r.Some? ==> BooleanToString(r.value) == s
  {
    if s == "true" then Some(true) else if s == "false" then Some(false) else None
  }

  /** Parsing the rendering of a boolean gives it back. */
  lemma BooleanRoundTrip(b: bool)
    ensures ParseBoolean(BooleanToString(b)) == Some(b)
  {
  }

  /**
   * Case-insensitive lookup of an enum constant by its symbol name: the first
   * entry of the symbol table whose name equals s ignoring case; None if none does.
   */
  function ParseEnum<E>(s: string, symbols: seq<(string, E)>): (r: Option<E>)
    ensures r.None? <==> forall i :: 0 <= i < |symbols| ==> !EqualsIgnoreCase(s, symbols[i].0)
    ensures r.Some? ==> exists i :: 0 <= i < |symbols| && EqualsIgnoreCase(s, symbols[i].0) && symbols[i].1 == r.value
  {
    if |symbols| == 0 then None
    else if EqualsIgnoreCase(s, symbols[0].0) then Some(symbols[0].1)
    else
      var r := ParseEnum(s, symbols[1..]);
      assert forall i :: 1 <= i < |symbols| ==> symbols[i] == symbols[1..][i - 1];
      r
  }
}
