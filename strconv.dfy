/**
 * Go's `strconv.Atoi` for a 64-bit `int`: an optional '+' or '-' followed
 * by one or more decimal digits, whose value must lie in the int64 range.
 * The digit loop is the one of `strconv.ParseUint` (base 10, 64 bits): it
 * stops with a range error as soon as the unsigned value exceeds 2^64 - 1,
 * even when a non-digit follows; the sign is then checked against int64.
 */
module Strconv {
  import opened Wrappers

  const MAX_INT64: int := 0x7FFF_FFFF_FFFF_FFFF
  const MIN_INT64: int := -0x8000_0000_0000_0000
  const MAX_UINT64: int := 0xFFFF_FFFF_FFFF_FFFF

  /** Go's `int` on a 64-bit platform. */
  type Int64 = i: int | MIN_INT64 <= i <= MAX_INT64

  /** The two kinds of `strconv.NumError`: `ErrSyntax` and `ErrRange`. */
  datatype NumReason = Syntax | Range

  predicate IsDigit(c: char) { '0' <= c <= '9' }

  function DigitValue(c: char): nat
    requires IsDigit(c)
  {
    c as int - '0' as int
  }

  predicate AllDigits(s: string) {
    forall i :: 0 <= i < |s| ==> IsDigit(s[i])
  }

  /** How the digit loop ends. */
  datatype Scan = Digits(value: nat) | BadDigit | Overflow

  /** The digit loop, left to right, from the accumulated value `acc`. */
  function ScanDigits(s: string, acc: nat): (r: Scan)
    requires acc <= MAX_UINT64
    ensures r.Digits? ==> acc <= r.value <= MAX_UINT64
    decreases |s|
  {
    if s == [] then Digits(acc)
    else if !IsDigit(s[0]) then BadDigit
    else
      var n := acc * 10 + DigitValue(s[0]);
      if n > MAX_UINT64 then Overflow else ScanDigits(s[1..], n)
  }

  /** `s` without its sign character, if it has one. */
  function Unsigned(s: string): string {
    if s != [] && (s[0] == '+' || s[0] == '-') then s[1..] else s
  }

  /** `strconv.Atoi(s)`. */
  function Atoi(s: string): Result<Int64, NumReason> {
    var neg := s != [] && s[0] == '-';
    var body := Unsigned(s);
    if body == [] then Failure(Syntax)
    else
      match ScanDigits(body, 0)
      case BadDigit => Failure(Syntax)
      case Overflow => Failure(Range)
      case Digits(u) =>
        if !neg && u > MAX_INT64 then Failure(Range)
        else if neg && u > -MIN_INT64 then Failure(Range)
        else Success(if neg then -(u as int) else u)
  }

  // ---------------------------------------------------------------------
  // Reference definition: the decimal numerals and their values.

  /** The value of a string of digits, read as a decimal numeral. */
  function DigitsValue(s: string): nat
    requires AllDigits(s)
  {
    if s == [] then 0 else DigitsValue(s[..|s| - 1]) * 10 + DigitValue(s[|s| - 1])
  }

  /** An optional sign followed by at least one decimal digit. */
  predicate IsDecimal(s: string) {
    Unsigned(s) != [] && AllDigits(Unsigned(s))
  }

  function DecimalValue(s: string): int
    requires IsDecimal(s)
  {
    if s[0] == '-' then -(DigitsValue(Unsigned(s)) as int) else DigitsValue(Unsigned(s))
  }

  /** Decimal digits of `n`, most significant first, without leading zeros. */
  function FormatNat(n: nat): (r: string)
    ensures r != [] && AllDigits(r)
  {
    if n < 10 then [(n + '0' as int) as char]
    else FormatNat(n / 10) + [(n % 10 + '0' as int) as char]
  }

  /** `strconv.Itoa`: a '-' for negative numbers, then the digits. */
  function FormatInt(n: int): string {
    if n < 0 then "-" + FormatNat(-n) else FormatNat(n)
  }

  // ---------------------------------------------------------------------
  // Atoi accepts exactly the in-range decimal numerals, with their value.

  /** Scanning one more character continues from where the prefix ended. */
  lemma {:induction false} ScanDigitsAppend(s: string, c: char, acc: nat)
    requires acc <= MAX_UINT64
    ensures ScanDigits(s + [c], acc) ==
      match ScanDigits(s, acc)
      case Digits(m) => ScanDigits([c], m)
      case other => other
  {
    if s != [] && IsDigit(s[0]) {
      var n := acc * 10 + DigitValue(s[0]);
      if n <= MAX_UINT64 {
        assert (s + [c])[1..] == s[1..] + [c];
        ScanDigitsAppend(s[1..], c, n);
      }
    }
  }

  /** On digits, the loop overflows exactly when the value exceeds 2^64 - 1. */
  lemma {:induction false} ScanDigitsValue(s: string)
    requires AllDigits(s)
    ensures ScanDigits(s, 0) ==
      if DigitsValue(s) <= MAX_UINT64 then Digits(DigitsValue(s)) else Overflow
  {
    if s != [] {
      var p, c := s[..|s| - 1], s[|s| - 1];
      assert s == p + [c];
      ScanDigitsValue(p);
      ScanDigitsAppend(p, c, 0);
    }
  }

  /** The loop reaches the end only on a string of digits. */
  lemma {:induction false} ScanDigitsOnlyDigits(s: string, acc: nat)
    requires acc <= MAX_UINT64
    requires ScanDigits(s, acc).Digits?
    ensures AllDigits(s)
  {
    if s != [] {
      ScanDigitsOnlyDigits(s[1..], acc * 10 + DigitValue(s[0]));
    }
  }

  /**
   * Atoi succeeds exactly on the decimal numerals whose value fits in an
   * int64, and then returns that value; an in-range-syntax numeral outside
   * the int64 range is a range error.
   */
  lemma AtoiCorrect(s: string)
    ensures Atoi(s).Success? <==> IsDecimal(s) && MIN_INT64 <= DecimalValue(s) <= MAX_INT64
    ensures Atoi(s).Success? ==> Atoi(s).value == DecimalValue(s)
    ensures IsDecimal(s) && !(MIN_INT64 <= DecimalValue(s) <= MAX_INT64) ==> Atoi(s) == Failure(Range)
  {
    var body := Unsigned(s);
    if body != [] {
      if ScanDigits(body, 0).Digits? {
        ScanDigitsOnlyDigits(body, 0);
      }
      if AllDigits(body) {
        ScanDigitsValue(body);
      }
    }
  }

  /** A result of FormatNat is read back as the number formatted. */
  lemma {:induction false} FormatNatValue(n: nat)
    ensures DigitsValue(FormatNat(n)) == n
  {
    if n >= 10 {
      var r := FormatNat(n);
      assert r[..|r| - 1] == FormatNat(n / 10);
      FormatNatValue(n / 10);
    }
  }

  /** Round trip: parsing the decimal form of any int64 gives it back. */
  lemma AtoiFormatInt(n: Int64)
    ensures Atoi(FormatInt(n)) == Success(n)
  {
    var s := FormatInt(n);
    var m: nat := if n < 0 then -(n as int) else n;
    FormatNatValue(m);
    if n < 0 {
      assert Unsigned(s) == FormatNat(m);
    } else {
      assert Unsigned(s) == FormatNat(n);
    }
    AtoiCorrect(s);
  }

  /** Non-numerals short enough never to overflow are syntax errors. */
  lemma AtoiSyntaxError(s: string)
    requires !IsDecimal(s)
    requires |Unsigned(s)| <= 19
    ensures Atoi(s) == Failure(Syntax)
  {
    var body := Unsigned(s);
    if body != [] {
      ScanDigitsBounded(body, 0, 0);
      if ScanDigits(body, 0).Digits? {
        ScanDigitsOnlyDigits(body, 0);
      }
    }
  }

  function Pow10(k: nat): nat {
    if k == 0 then 1 else 10 * Pow10(k - 1)
  }

  /** At most 19 digits scanned from a small accumulator never overflow. */
  lemma {:induction false} ScanDigitsBounded(s: string, acc: nat, k: nat)
    requires acc < Pow10(k) && k + |s| <= 19
    ensures acc <= MAX_UINT64 && !ScanDigits(s, acc).Overflow?
  {
    Pow10Monotone(k, 19);
    Pow10Of19();
    if s != [] && IsDigit(s[0]) {
      ScanDigitsBounded(s[1..], acc * 10 + DigitValue(s[0]), k + 1);
    }
  }

  lemma Pow10Of19()
    ensures Pow10(19) == 10_000_000_000_000_000_000
  {
    assert Pow10(4) == 10_000;
    assert Pow10(8) == 10_000 * Pow10(4);
    assert Pow10(12) == 10_000 * Pow10(8);
    assert Pow10(16) == 10_000 * Pow10(12);
    assert Pow10(19) == 1_000 * Pow10(16);
  }

  lemma {:induction false} Pow10Monotone(k: nat, m: nat)
    requires k <= m
    ensures Pow10(k) <= Pow10(m)
  {
    if k < m {
      Pow10Monotone(k, m - 1);
    }
  }
}
