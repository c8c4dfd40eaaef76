/** Decimal digits, int64 arithmetic and strconv.Itoa/Atoi, shared by the other modules. */
module Digits {

  datatype Option<+T> = None | Some(value: T)

  predicate IsDigit(c: char) {
    '0' <= c <= '9'
  }

  predicate AllDigits(s: string) {
    forall i :: 0 <= i < |s| ==> IsDigit(s[i])
  }

  function DigitOf(c: char): (d: int)
    requires IsDigit(c)
    ensures 0 <= d <= 9
  {
    c as int - '0' as int
  }

  function DigitChar(d: int): (c: char)
    requires 0 <= d <= 9
    ensures IsDigit(c) && DigitOf(c) == d
  {
    ('0' as int + d) as char
  }

  // --------------------------------------------------------------------- int64

  const INT64_MAX: int := 0x7fff_ffff_ffff_ffff
  const INT64_MIN: int := -0x8000_0000_0000_0000

  predicate FitsInt64(n: int) {
    INT64_MIN <= n <= INT64_MAX
  }

  /** Two's-complement wrap-around of Go's int arithmetic on 64-bit platforms. */
  function Wrap64(n: int): (w: int)
    ensures FitsInt64(w)
    ensures FitsInt64(n) ==> w == n
  {
    (n + 0x8000_0000_0000_0000) % 0x1_0000_0000_0000_0000 - 0x8000_0000_0000_0000
  }

  // ------------------------------------------------------- values of digit strings

  function Pow10(k: nat): (p: nat)
    ensures p >= 1
  {
    if k == 0 then 1 else 10 * Pow10(k - 1)
  }

  function Value(s: string): (v: int)
    requires AllDigits(s)
    ensures v >= 0
  {
    if s == "" then 0 else 10 * Value(s[..|s| - 1]) + DigitOf(s[|s| - 1])
  }

  lemma {:induction false} ValueOfConcatenation(a: string, b: string)
    requires AllDigits(a) && AllDigits(b)
    ensures AllDigits(a + b)
    ensures Value(a + b) == Value(a) * Pow10(|b|) + Value(b)
  {
    if b == "" {
      assert a + b == a;
    } else {
      var init, last := b[..|b| - 1], DigitOf(b[|b| - 1]);
      ValueOfConcatenation(a, init);
      assert (a + b)[..|a + b| - 1] == a + init;
      ShiftByOne(Value(a), Pow10(|init|), Value(init), last);
    }
  }

  lemma ShiftByOne(x: int, p: int, v: int, last: int)
    ensures 10 * (x * p + v) + last == x * (10 * p) + (10 * v + last)
  {
  }

  lemma {:induction false} ValueIsBounded(s: string)
    requires AllDigits(s)
    ensures Value(s) < Pow10(|s|)
  {
    if s != "" {
      ValueIsBounded(s[..|s| - 1]);
    }
  }

  // -------------------------------------------------------------------- strconv

  function ItoaNat(n: nat): (s: string)
    ensures s != "" && AllDigits(s) && Value(s) == n
    ensures |s| > 1 ==> s[0] != '0'
  {
    if n < 10 then [DigitChar(n)] else ItoaNat(n / 10) + [DigitChar(n % 10)]
  }

  function Itoa(n: int): string {
    if n < 0 then "-" + ItoaNat(-n) else ItoaNat(n)
  }

  /** strconv.Atoi: an optional sign and at least one decimal digit, in the int64 range. */
  function Atoi(s: string): (r: Option<int>)
    ensures r.Some? ==> FitsInt64(r.value)
  {
    var signed := s != "" && (s[0] == '-' || s[0] == '+');
    var digits := if signed then s[1..] else s;
    if digits == "" || !AllDigits(digits) then None
    else
      var n := if signed && s[0] == '-' then -Value(digits) else Value(digits);
      if FitsInt64(n) then Some(n) else None
  }

  /** The texts that strconv.Atoi reads, and what it makes of them. */
  lemma AtoiOfDigits(digits: string)
    requires digits != "" && AllDigits(digits)
    ensures Atoi(digits) == Atoi("+" + digits) == if FitsInt64(Value(digits)) then Some(Value(digits)) else None
    ensures Atoi("-" + digits) == if FitsInt64(-Value(digits)) then Some(-Value(digits)) else None
  {
    assert ("+" + digits)[1..] == digits && ("-" + digits)[1..] == digits;
    assert IsDigit(digits[0]);
  }

  /** Everything else is refused. */
  lemma AtoiRefuses(s: string)
    requires !AllDigits(s) || s == ""
    requires s != "" && (s[0] == '+' || s[0] == '-') ==> s[1..] == "" || !AllDigits(s[1..])
    ensures Atoi(s) == None
  {
  }
}
