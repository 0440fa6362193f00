/**
  The three pieces of the Java runtime the handle relies on for its results:
  string concatenation with a possibly-null operand, `Boolean.parseBoolean`
  and `Long.parseLong`.
 */
module JavaLang {
  import opened StorageTypes

  /** What `"" + s` yields in Java: the text of `s`, or "null" for a null reference. */
  function JavaString(s: Option<string>): (r: string)
    ensures s.Some? ==> r == s.value
    ensures s.None? ==> r == "null"
  {
    match s
    case None => "null"
    case Some(v) => v
  }

  function LowerAscii(c: char): char
  {
    if 'A' <= c <= 'Z' then (c as int - 'A' as int + 'a' as int) as char else c
  }

  /** The word "true" spelled in any mix of upper- and lower-case letters. */
  predicate TrueIgnoringCase(t: string)
  {
    && |t| == 4
    && t[0] in "tT" && t[1] in "rR" && t[2] in "uU" && t[3] in "eE"
  }

  /**
    `Boolean.parseBoolean`: true exactly for "true" in any mix of letter case,
    false for null and for every other string.
   */
  function ParseBoolean(s: Option<string>): (b: bool)
    ensures b <==> s.Some? && TrueIgnoringCase(s.value)
  {
    s.Some? && |s.value| == 4 && forall i :: 0 <= i < 4 ==> LowerAscii(s.value[i]) == "true"[i]
  }

  lemma ParseBooleanExamples()
    ensures ParseBoolean(Some("True")) && ParseBoolean(Some("tRuE"))
    ensures !ParseBoolean(None) && !ParseBoolean(Some("yes")) && !ParseBoolean(Some("1"))
    ensures !ParseBoolean(Some("")) && !ParseBoolean(Some("true "))
  {
  }

  predicate IsDigit(c: char)
  {
    '0' <= c <= '9'
  }

  predicate AllDigits(s: string)
  {
    forall i :: 0 <= i < |s| ==> IsDigit(s[i])
  }

  /** The value of a run of decimal digits, most significant first. */
  function DigitsValue(s: string): nat
    requires AllDigits(s)
  {
    if |s| == 0 then 0
    else DigitsValue(s[..|s| - 1]) * 10 + (s[|s| - 1] as int - '0' as int)
  }

  /** An optional leading sign followed by at least one decimal digit. */
  predicate WellFormedLong(s: string)
  {
    && |s| > 0
    && var start := if s[0] == '-' || s[0] == '+' then 1 else 0;
       start < |s| && forall i :: start <= i < |s| ==> IsDigit(s[i])
  }

  /** The value a well-formed text denotes, whatever its size. */
  function SignedValue(s: string): int
    requires WellFormedLong(s)
  {
    var digits := if s[0] == '-' || s[0] == '+' then s[1..] else s;
    assert AllDigits(digits) by {
      forall i | 0 <= i < |digits| ensures IsDigit(digits[i]) {
        if s[0] == '-' || s[0] == '+' { assert digits[i] == s[i + 1]; }
      }
    }
    if s[0] == '-' then -(DigitsValue(digits) as int) else DigitsValue(digits)
  }

  /**
    `Long.parseLong(s)` in radix 10: an optional sign followed by at least one
    digit, whose value fits in a `long`; anything else is a
    NumberFormatException, here `None`.
   */
  function ParseLong(s: string): (r: Option<Long>)
    ensures r.Some? <==> WellFormedLong(s) && MinLong <= SignedValue(s) <= MaxLong
    ensures r.Some? ==> r.value == SignedValue(s)
    ensures r.Some? && s[0] == '-' ==> r.value <= 0
    ensures r.Some? && s[0] != '-' ==> r.value >= 0
  {
    if |s| == 0 then None
    else
      var negative := s[0] == '-';
      var digits := if s[0] == '-' || s[0] == '+' then s[1..] else s;
      if |digits| == 0 || !AllDigits(digits) then None
      else
        var magnitude: int := DigitsValue(digits);
        var v := if negative then -magnitude else magnitude;
        if MinLong <= v <= MaxLong then Some(v) else None
  }

  /** The decimal digits of `n`, without leading zeros. */
  function NatToDigits(n: nat): (s: string)
    ensures |s| > 0 && AllDigits(s)
  {
    if n < 10 then [('0' as int + n) as char]
    else NatToDigits(n / 10) + [('0' as int + n % 10) as char]
  }

  /** `Long.toString(n)`. */
  function LongToString(n: Long): (s: string)
  {
    if n < 0 then "-" + NatToDigits(-(n as int)) else NatToDigits(n)
  }

  lemma {:induction false} DigitsValueOfNatToDigits(n: nat)
    ensures DigitsValue(NatToDigits(n)) == n
  {
    if n >= 10 {
      var s := NatToDigits(n);
      assert s[..|s| - 1] == NatToDigits(n / 10);
      DigitsValueOfNatToDigits(n / 10);
    }
  }

  /** Parsing the decimal text of any `long` gives back that `long`. */
  lemma ParseLongToString(n: Long)
    ensures ParseLong(LongToString(n)) == Some(n)
  {
    DigitsValueOfNatToDigits(if n < 0 then -(n as int) else n);
    if n < 0 {
      assert LongToString(n)[1..] == NatToDigits(-(n as int));
    }
  }

  /** The default ingest size limit, "-1", parses to -1. */
  lemma ParseMinusOne()
    ensures ParseLong("-1") == Some(-1)
  {
    ParseLongToString(-1);
    assert LongToString(-1) == "-1";
  }
}
