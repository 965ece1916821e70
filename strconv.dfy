/**
 * Go's `strconv.Atoi` on a 64-bit platform, as the bulk loader uses it:
 * the text of one CSV field becomes an `int`, and the loader keeps the value
 * while throwing the error away. Strings are `seq<char>` in which every
 * element stands for one byte of the Go string.
 */
module Strconv {
  import opened Wrappers

  const MaxInt64: int := 0x7fff_ffff_ffff_ffff
  const MinInt64: int := -0x8000_0000_0000_0000

  /** The two kinds of `*strconv.NumError`. */
  datatype NumError = ErrSyntax | ErrRange

  /** Go's `(int, error)` pair returned by `Atoi`. */
  datatype AtoiResult = AtoiResult(n: int, err: Option<NumError>)

  predicate IsDigit(c: char) { '0' <= c <= '9' }

  predicate IsSign(c: char) { c == '+' || c == '-' }

  predicate AllDigits(s: string) { forall i :: 0 <= i < |s| ==> IsDigit(s[i]) }

  function DigitValue(c: char): (d: nat)
    requires IsDigit(c)
    ensures d < 10
  {
    (c as int) - ('0' as int)
  }

  function DigitChar(d: nat): (c: char)
    requires d < 10
    ensures IsDigit(c) && DigitValue(c) == d
  {
    ('0' as int + d) as char
  }

  /** The value of a digit string, accumulated left to right as `n*10 + d`. */
  function DigitsValue(ds: string): nat
    requires AllDigits(ds)
  {
    if ds == [] then 0 else DigitsValue(ds[..|ds| - 1]) * 10 + DigitValue(ds[|ds| - 1])
  }

  /**
   * The mathematical value of `s` when it is an optional `+` or `-` followed by
   * one or more ASCII digits; `None` for everything else (empty, a lone sign,
   * spaces, a decimal point, ...).
   */
  function ParseDecimal(s: string): Option<int>
  {
    if |s| > 0 && IsSign(s[0]) then
      var body := s[1..];
      if body != [] && AllDigits(body) then
        Some(if s[0] == '-' then -(DigitsValue(body) as int) else DigitsValue(body))
      else None
    else if s != [] && AllDigits(s) then Some(DigitsValue(s))
    else None
  }

  /**
   * `strconv.Atoi(s)`: a syntax error comes with the value 0, a value outside
   * the 64-bit range comes with the nearest bound and a range error.
   */
  function Atoi(s: string): (r: AtoiResult)
    ensures MinInt64 <= r.n <= MaxInt64
    ensures r.err == Some(ErrSyntax) <==> ParseDecimal(s).None?
    ensures r.err == Some(ErrSyntax) ==> r.n == 0
    ensures r.err.None? ==> ParseDecimal(s) == Some(r.n)
    ensures r.err == Some(ErrRange) <==>
      ParseDecimal(s).Some? && !(MinInt64 <= ParseDecimal(s).value <= MaxInt64)
    ensures r.err == Some(ErrRange) ==>
      ParseDecimal(s).Some? && (if ParseDecimal(s).value > MaxInt64 then r.n == MaxInt64 else r.n == MinInt64)
  {
    match ParseDecimal(s)
    case None => AtoiResult(0, Some(ErrSyntax))
    case Some(v) =>
      if v > MaxInt64 then AtoiResult(MaxInt64, Some(ErrRange))
      else if v < MinInt64 then AtoiResult(MinInt64, Some(ErrRange))
      else AtoiResult(v, None)
  }

  /** `n, _ := strconv.Atoi(s)`: the value, with the error discarded. */
  function AtoiOrZero(s: string): int
  {
    Atoi(s).n
  }

  /** Decimal digits of `n` without leading zeros (the digits `strconv.Itoa` writes). */
  function NatDigits(n: nat): (ds: string)
    ensures ds != [] && AllDigits(ds)
    ensures n >= 10 ==> ds[0] != '0'
  {
    if n < 10 then [DigitChar(n)] else NatDigits(n / 10) + [DigitChar(n % 10)]
  }

  /** `strconv.Itoa(n)`: the inverse of `Atoi` on the 64-bit range. */
  function FormatInt(n: int): string
  {
    if n < 0 then "-" + NatDigits(-n) else NatDigits(n)
  }

  lemma {:induction false} DigitsValueOfNatDigits(n: nat)
    ensures DigitsValue(NatDigits(n)) == n
  {
    if n >= 10 {
      DigitsValueOfNatDigits(n / 10);
      var ds := NatDigits(n);
      assert ds[..|ds| - 1] == NatDigits(n / 10);
    }
  }

  /** Every 64-bit integer written in decimal is read back by `Atoi` without error. */
  lemma AtoiFormatRoundTrip(n: int)
    requires MinInt64 <= n <= MaxInt64
    ensures Atoi(FormatInt(n)) == AtoiResult(n, None)
    ensures AtoiOrZero(FormatInt(n)) == n
  {
    if n < 0 {
      DigitsValueOfNatDigits(-n);
      assert ("-" + NatDigits(-n))[1..] == NatDigits(-n);
    } else {
      DigitsValueOfNatDigits(n);
    }
  }

  /** A sign (or none) followed by digits is read as its signed decimal value. */
  lemma AtoiOfSignedDigits(sign: string, ds: string)
    requires sign == "" || sign == "+" || sign == "-"
    requires ds != [] && AllDigits(ds)
    ensures ParseDecimal(sign + ds) == Some(if sign == "-" then -(DigitsValue(ds) as int) else DigitsValue(ds))
    ensures MinInt64 <= ParseDecimal(sign + ds).value <= MaxInt64 ==>
      AtoiOrZero(sign + ds) == ParseDecimal(sign + ds).value
  {
    if sign != "" {
      assert (sign + ds)[1..] == ds;
    } else {
      assert sign + ds == ds;
    }
  }

  /**
   * A field holding a byte that is neither a digit nor a leading sign with
   * something after it is a syntax error, and the loader stores 0.
   */
  lemma AtoiRejectsBadByte(s: string, i: nat)
    requires i < |s| && !IsDigit(s[i])
    requires !(i == 0 && |s| > 1 && IsSign(s[0]))
    ensures Atoi(s) == AtoiResult(0, Some(ErrSyntax))
    ensures AtoiOrZero(s) == 0
  {
    if IsSign(s[0]) && i > 0 {
      assert !IsDigit(s[1..][i - 1]);
    }
  }

  /** The empty field and a lone sign are syntax errors too. */
  lemma AtoiRejectsEmptyOrSign(s: string)
    requires s == "" || s == "+" || s == "-"
    ensures Atoi(s) == AtoiResult(0, Some(ErrSyntax))
  {
  }

  /** The integer fields of the loader's fixture. */
  lemma AtoiExamples()
    ensures AtoiOrZero("1") == 1
    ensures AtoiOrZero("10") == 10
    ensures AtoiOrZero("2000") == 2000
  {
    AtoiFormatRoundTrip(1);
    AtoiFormatRoundTrip(10);
    AtoiFormatRoundTrip(2000);
    assert FormatInt(1) == "1";
    assert FormatInt(10) == "10";
    assert FormatInt(2000) == "2000";
  }

  /** A leading sign is read as the sign of the value. */
  lemma AtoiSignedExamples()
    ensures AtoiOrZero("-42") == -42
    ensures AtoiOrZero("+7") == 7
  {
    AtoiFormatRoundTrip(-42);
    assert FormatInt(-42) == "-42";
    AtoiOfSignedDigits("+", "7");
  }

  /** A decimal point, a leading space and the empty field all read as 0. */
  lemma AtoiJunkExamples()
    ensures AtoiOrZero("1.5") == 0
    ensures AtoiOrZero(" 1") == 0
    ensures AtoiOrZero("") == 0
  {
    AtoiRejectsBadByte("1.5", 1);
    AtoiRejectsBadByte(" 1", 0);
  }
}
