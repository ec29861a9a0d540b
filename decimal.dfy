/** Base-10 integers as Go reads them with `strconv.Atoi` and
    `strconv.ParseInt(s, 10, 0)` on a 64-bit platform: an optional `+` or `-`,
    then one or more ASCII digits, and a value inside the int64 range. Also
    the decimal rendering (`strconv.Itoa`) used to state round trips, and the
    two's-complement wrap of int64 arithmetic. */
module Decimal {
  import opened Metadata

  const MinInt64: int := -0x8000_0000_0000_0000
  const MaxInt64: int := 0x7FFF_FFFF_FFFF_FFFF
  const TwoPow64: int := 0x1_0000_0000_0000_0000

  predicate InInt64(n: int) {
    MinInt64 <= n <= MaxInt64
  }

  /** The int64 value that Go's wrapping arithmetic leaves for the exact
      result `n`. */
  function Wrap64(n: int): (r: int)
    ensures InInt64(r)
    ensures InInt64(n) ==> r == n
    ensures (r - n) % TwoPow64 == 0
  {
    (n - MinInt64) % TwoPow64 + MinInt64
  }

  predicate IsDigit(c: char) {
    '0' <= c <= '9'
  }

  predicate AllDigits(s: string) {
    forall i :: 0 <= i < |s| ==> IsDigit(s[i])
  }

  function DigitValue(c: char): nat
    requires IsDigit(c)
  {
    (c as int) - ('0' as int)
  }

  function DigitChar(d: nat): (c: char)
    requires d < 10
    ensures IsDigit(c) && DigitValue(c) == d
  {
    (('0' as int) + d) as char
  }

  /** The value of a digit string, most significant digit first. */
  function DigitsValue(s: string): nat
    requires AllDigits(s)
  {
    if |s| == 0 then 0 else DigitsValue(s[..|s| - 1]) * 10 + DigitValue(s[|s| - 1])
  }

  /** `strconv.ParseInt(s, 10, 64)`; None stands for its syntax and range
      errors. */
  function ParseInt(s: string): (r: Option<int>)
    ensures r.Some? ==> InInt64(r.value)
    ensures r.Some? ==> |s| > 0 && (IsDigit(s[0]) || ((s[0] == '-' || s[0] == '+') && |s| > 1))
    ensures r.Some? ==> forall i :: 0 < i < |s| ==> IsDigit(s[i])
  {
    if |s| == 0 then None
    else
      var digits := if s[0] == '-' || s[0] == '+' then s[1..] else s;
      if |digits| == 0 || !AllDigits(digits) then None
      else
        var v: int := if s[0] == '-' then -(DigitsValue(digits) as int) else DigitsValue(digits);
        if InInt64(v) then Some(v) else None
  }

  /** The shortest digit string of `n`. */
  function Digits(n: nat): (s: string)
    ensures 0 < |s| && AllDigits(s)
    ensures DigitsValue(s) == n
  {
    if n < 10 then [DigitChar(n)]
    else
      var prefix := Digits(n / 10);
      var s := prefix + [DigitChar(n % 10)];
      assert s[..|s| - 1] == prefix;
      s
  }

  /** `strconv.Itoa`: a leading `-` for negative values, no `+`, no leading
      zeros. */
  function FormatInt(n: int): (s: string)
    ensures 0 < |s|
  {
    if n < 0 then "-" + Digits(-n) else Digits(n)
  }

  /** Rendering an int64 in decimal and reading it back gives the same value. */
  lemma {:induction false} ParseFormatInt(n: int)
    requires InInt64(n)
    ensures ParseInt(FormatInt(n)) == Some(n)
  {
    var d := Digits(if n < 0 then -n else n);
    if n < 0 {
      assert FormatInt(n)[1..] == d;
    } else {
      assert FormatInt(n) == d;
    }
  }

  /** Every optional sign followed by one or more digits is read as the
      signed value of the digits, leading zeros and a `+` included, and is
      accepted exactly when that value lies in the int64 range. */
  lemma {:induction false} ParseSignedDigits(sign: string, d: string)
    requires sign == "" || sign == "+" || sign == "-"
    requires |d| > 0 && AllDigits(d)
    ensures var v: int := if sign == "-" then -(DigitsValue(d) as int) else DigitsValue(d);
      ParseInt(sign + d) == if InInt64(v) then Some(v) else None
  {
    var s := sign + d;
    if sign == "" {
      assert s == d;
    } else {
      assert s[0] == sign[0] && s[1..] == d;
    }
  }

  /** Non-canonical spellings: an explicit plus, leading zeros, minus zero. */
  lemma {:induction false} ParseIntExamples()
    ensures ParseInt("+5") == Some(5)
    ensures ParseInt("007") == Some(7)
    ensures ParseInt("-0") == Some(0)
  {
    assert DigitsValue("5") == 5;
    assert "+5" == "+" + "5";
    ParseSignedDigits("+", "5");
    assert "007"[..2] == "00" && "00"[..1] == "0";
    assert DigitsValue("007") == 7;
    assert "007" == "" + "007";
    ParseSignedDigits("", "007");
    assert DigitsValue("0") == 0;
    assert "-0" == "-" + "0";
    ParseSignedDigits("-", "0");
  }

  /** Any character that is neither a digit nor a leading sign makes the
      whole string unreadable: no decimal point, no unit suffix, no
      surrounding space, no digit group separator. */
  lemma ForeignCharRejected(s: string, i: nat)
    requires i < |s| && !IsDigit(s[i])
    requires i > 0 || (s[i] != '-' && s[i] != '+')
    ensures ParseInt(s) == None
  {
  }

  /** The empty string and a lone sign are not integers. */
  lemma NoDigitsRejected(s: string)
    requires s == "" || s == "-" || s == "+"
    ensures ParseInt(s) == None
  {
  }
}
