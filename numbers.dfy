/**
 * Decimal integers as the Go standard library reads and writes them:
 * `strconv.Atoi` (an optional sign and at least one decimal digit, the value in
 * the 64-bit `int` range) and `strconv.Itoa` / `fmt`'s `%v` for an `int`.
 */
module Numbers {
  import opened Wrappers

  const MinInt64: int := -0x8000_0000_0000_0000
  const MaxInt64: int := 0x7fff_ffff_ffff_ffff

  /** Go's `int` on the 64-bit platforms the service runs on. */
  newtype Int64 = x: int | MinInt64 <= x <= MaxInt64

  /** Go's `int8`, the type of a tee-shirt size. */
  newtype Int8 = x: int | -128 <= x < 128

  predicate IsDigit(c: char) {
    '0' <= c <= '9'
  }

  predicate AllDigits(s: string) {
    forall i :: 0 <= i < |s| ==> IsDigit(s[i])
  }

  /** The value of a string of decimal digits, most significant first. */
  function DigitsValue(s: string): nat
    requires AllDigits(s)
  {
    if s == [] then 0 else 10 * DigitsValue(s[..|s| - 1]) + (s[|s| - 1] as int - '0' as int)
  }

  /** The text of `strconv.Atoi`'s error about `s`, for a malformed string or an out-of-range value. */
  function AtoiErrorText(s: string, outOfRange: bool): string {
    "strconv.Atoi: parsing \"" + s + "\": " + (if outOfRange then "value out of range" else "invalid syntax")
  }

  /**
   * `strconv.Atoi`: an optional sign and at least one decimal digit, the value in
   * the 64-bit range; otherwise the syntax error or the range error.
   */
  function Atoi(s: string): (r: Result<int, string>)
    ensures r.Success? ==> MinInt64 <= r.value <= MaxInt64
    ensures r.Success? ==> |s| >= 1 && (IsDigit(s[0]) || s[0] == '+' || s[0] == '-')
    ensures r.Failure? ==> r.error == AtoiErrorText(s, false) || r.error == AtoiErrorText(s, true)
  {
    var signed := |s| > 0 && (s[0] == '+' || s[0] == '-');
    var digits := if signed then s[1..] else s;
    if |digits| == 0 || !AllDigits(digits) then Failure(AtoiErrorText(s, false))
    else
      var v: int := if signed && s[0] == '-' then -(DigitsValue(digits) as int) else DigitsValue(digits);
      if MinInt64 <= v <= MaxInt64 then Success(v) else Failure(AtoiErrorText(s, true))
  }

  function DigitChar(d: nat): (c: char)
    requires d < 10
    ensures IsDigit(c)
  {
    ('0' as int + d) as char
  }

  /** Decimal digits of a natural number, without leading zeros. */
  function NatToString(n: nat): (s: string)
    ensures |s| >= 1 && AllDigits(s)
  {
    if n < 10 then [DigitChar(n)] else NatToString(n / 10) + [DigitChar(n % 10)]
  }

  /** `strconv.Itoa`, also what `%v` prints for an `int`. */
  function Itoa(n: int): (s: string)
    ensures |s| >= 1
  {
    if n < 0 then "-" + NatToString(-n) else NatToString(n)
  }

  lemma {:induction false} DigitsOfNat(n: nat)
    ensures DigitsValue(NatToString(n)) == n
  {
    if n >= 10 {
      var s := NatToString(n);
      DigitsOfNat(n / 10);
      assert s[..|s| - 1] == NatToString(n / 10);
    }
  }

  /** Reading back what Itoa wrote gives the number again, for every 64-bit value. */
  lemma AtoiItoa(n: int)
    requires MinInt64 <= n <= MaxInt64
    ensures Atoi(Itoa(n)) == Success(n)
  {
    var s := Itoa(n);
    if n < 0 {
      DigitsOfNat(-n);
      assert s[1..] == NatToString(-n);
    } else {
      DigitsOfNat(n);
    }
  }

  /** Atoi rejects, as a syntax error, any string holding a character that is neither a digit nor a leading sign. */
  lemma AtoiRejectsNonDigits(s: string, i: nat)
    requires i < |s| && !IsDigit(s[i]) && !(i == 0 && (s[0] == '+' || s[0] == '-'))
    ensures Atoi(s) == Failure(AtoiErrorText(s, false))
  {
    if |s| > 0 && (s[0] == '+' || s[0] == '-') {
      assert s[1..][i - 1] == s[i];
    }
  }
}
