/** The Luhn check of order numbers (internal/services/alg/lunh.go).

    The specification is the right-to-left definition of ISO/IEC 7812-1, Annex B:
    starting next to the check digit, every second digit is doubled and the decimal
    digits of all the products are added up. The method is the program's
    left-to-right loop, which picks the digits to double by the parity of the length. */
module Luhn {
  import opened Digits

  // ---------------------------------------------------------------- definition

  /** Contribution of one digit: the sum of the decimal digits of the digit or of its double. */
  function Weight(d: int, doubled: bool): (w: int)
    requires 0 <= d <= 9
    ensures 0 <= w <= 9
  {
    if doubled then (2 * d) / 10 + (2 * d) % 10 else d
  }

  /** The Luhn sum of a digit string read from its right end; `doubled` says whether the
      rightmost digit is one of the doubled ones. */
  function LuhnSum(s: string, doubled: bool): nat
    requires AllDigits(s)
  {
    if s == "" then 0
    else LuhnSum(s[..|s| - 1], !doubled) + Weight(DigitOf(s[|s| - 1]), doubled)
  }

  predicate ValidDigits(s: string)
    requires AllDigits(s)
  {
    LuhnSum(s, false) % 10 == 0
  }

  /** The characters of `s` other than spaces and hyphens, in order. */
  function Stripped(s: string): string {
    if s == "" then ""
    else if s[0] == ' ' || s[0] == '-' then Stripped(s[1..])
    else [s[0]] + Stripped(s[1..])
  }

  predicate ValidNumber(s: string) {
    AllDigits(Stripped(s)) && ValidDigits(Stripped(s))
  }

  // ------------------------------------------------------------- the program

  /** strings.ReplaceAll(s, [c], "") */
  function Without(s: string, c: char): string {
    if s == "" then ""
    else if s[0] == c then Without(s[1..], c)
    else [s[0]] + Without(s[1..], c)
  }

  lemma {:induction false} StrippingTwiceIsStripping(s: string)
    ensures Without(Without(s, ' '), '-') == Stripped(s)
  {
    if s != "" {
      StrippingTwiceIsStripping(s[1..]);
      if s[0] != ' ' {
        assert Without(s, ' ') == [s[0]] + Without(s[1..], ' ');
        assert Without(s, ' ')[1..] == Without(s[1..], ' ');
      }
    }
  }

  /** Doubling a digit changes its weight by the digit, less 9 from the digit 5 on. */
  lemma DoublingAdds(d: int)
    requires 0 <= d <= 9
    ensures Weight(d, true) == d + if d < 5 then d else d - 9
  {
    assert d < 5 ==> (2 * d) / 10 == 0;
    assert d >= 5 ==> (2 * d) / 10 == 1;
  }

  lemma SumExtends(s: string, i: nat, doubled: bool)
    requires i < |s| && AllDigits(s)
    ensures LuhnSum(s[..i + 1], doubled) == LuhnSum(s[..i], !doubled) + Weight(DigitOf(s[i]), doubled)
  {
    assert s[..i + 1][..i] == s[..i];
  }

  lemma ParityAlternates(i: nat)
    ensures (i + 1) % 2 == 1 - i % 2
  {
  }

  method IsValidLuhn(text: string) returns (ok: bool)
    ensures ok <==> ValidNumber(text)
  {
    var number := Without(text, ' ');
    number := Without(number, '-');
    StrippingTwiceIsStripping(text);

    for i := 0 to |number|
      invariant AllDigits(number[..i])
    {
      if number[i] < '0' || number[i] > '9' {
        assert !IsDigit(number[i]);
        return false;
      }
    }
    assert number[..|number|] == number;

    var sum := 0;
    var parity := |number| % 2;
    for i := 0 to |number|
      invariant sum == LuhnSum(number[..i], i % 2 != parity)
    {
      var digit := DigitOf(number[i]);
      if i % 2 == parity {
        digit := digit * 2;
        if digit > 9 {
          digit := digit - 9;
        }
        DoublingAdds(DigitOf(number[i]));
      }
      SumExtends(number, i, (i + 1) % 2 != parity);
      ParityAlternates(i);
      sum := sum + digit;
    }
    ok := sum % 10 == 0;
  }

  /** Which digit is doubled, on the shortest numbers: of two digits it is the first. */
  lemma TwoDigitNumbers(a: int, b: int)
    requires 0 <= a <= 9 && 0 <= b <= 9
    ensures ValidNumber([DigitChar(a), DigitChar(b)]) <==> (2 * a / 10 + 2 * a % 10 + b) % 10 == 0
  {
    var s := [DigitChar(a), DigitChar(b)];
    DigitsAreKept(s);
    assert s[..1] == [DigitChar(a)] && s[..1][..0] == "";
    assert LuhnSum(s[..1], true) == Weight(a, true);
    assert LuhnSum(s, false) == LuhnSum(s[..1], true) + b;
  }

  /** A character that is no digit and no separator spoils any text. */
  lemma {:induction false} OthersAreRefused(s: string, i: nat)
    requires i < |s| && !IsDigit(s[i]) && s[i] != ' ' && s[i] != '-'
    ensures !ValidNumber(s)
  {
    var a, b := s[..i], s[i + 1..];
    assert s == a + ([s[i]] + b);
    StrippedAppend(a, [s[i]] + b);
    StrippedFirst(s[i], b);
    assert Stripped(s)[|Stripped(a)|] == s[i];
  }

  lemma TwoDigits(s: string)
    requires |s| == 2 && AllDigits(s)
    ensures ValidNumber(s) <==> (Weight(DigitOf(s[0]), true) + DigitOf(s[1])) % 10 == 0
  {
    DigitsAreKept(s);
    assert s[..1][..0] == "" && s[..1][0] == s[0];
    assert LuhnSum(s[..1], true) == Weight(DigitOf(s[0]), true);
  }

  // -------------------------------------------------------------- properties

  /** What stripping leaves of one character. */
  function Kept(c: char): string {
    if c == ' ' || c == '-' then "" else [c]
  }

  lemma StrippedFirst(c: char, s: string)
    ensures Stripped([c] + s) == Kept(c) + Stripped(s)
  {
    assert ([c] + s)[1..] == s;
  }

  lemma {:induction false} DigitsAreKept(s: string)
    requires AllDigits(s)
    ensures Stripped(s) == s
  {
    if s != "" {
      assert IsDigit(s[0]) && s == [s[0]] + s[1..];
      DigitsAreKept(s[1..]);
    }
  }

  lemma {:induction false} StrippedAppend(a: string, b: string)
    ensures Stripped(a + b) == Stripped(a) + Stripped(b)
  {
    if a == "" {
      assert a + b == b;
    } else {
      var first, tail := a[0], a[1..];
      StrippedAppend(tail, b);
      StrippedFirst(first, tail);
      StrippedFirst(first, tail + b);
      assert a == [first] + tail && a + b == [first] + (tail + b);
    }
  }

  /** A space or a hyphen inserted anywhere does not change the verdict. */
  lemma SeparatorsAreIgnored(a: string, separator: char, b: string)
    requires separator == ' ' || separator == '-'
    ensures ValidNumber(a + [separator] + b) <==> ValidNumber(a + b)
  {
    StrippedAppend(a + [separator], b);
    StrippedAppend(a, [separator]);
    StrippedAppend(a, b);
    assert Stripped([separator]) == "";
    assert Stripped(a) + "" == Stripped(a);
  }

  /** Whether the digit `distance` places left of a digit is doubled, given whether that one is. */
  ghost predicate DoubledAt(distance: nat, doubled: bool) {
    if distance == 0 then doubled else DoubledAt(distance - 1, !doubled)
  }

  lemma {:induction false} NeighboursDiffer(distance: nat, doubled: bool)
    ensures DoubledAt(distance + 1, doubled) == !DoubledAt(distance, doubled)
  {
    if distance > 0 {
      NeighboursDiffer(distance - 1, !doubled);
    }
  }

  /** Replacing one digit moves the sum by the difference of the two weights. */
  lemma {:induction false} SumAfterSubstitution(s: string, i: nat, c: char, doubled: bool)
    requires AllDigits(s) && i < |s| && IsDigit(c)
    ensures var at := DoubledAt(|s| - 1 - i, doubled);
            LuhnSum(s[i := c], doubled)
            == LuhnSum(s, doubled) - Weight(DigitOf(s[i]), at) + Weight(DigitOf(c), at)
  {
    var n := |s| - 1;
    if i == n {
      assert s[i := c][..n] == s[..n];
    } else {
      assert s[i := c][..n] == s[..n][i := c];
      SumAfterSubstitution(s[..n], i, c, !doubled);
    }
  }

  lemma WeightsAreDistinct(a: int, b: int, doubled: bool)
    requires 0 <= a <= 9 && 0 <= b <= 9 && a != b
    ensures Weight(a, doubled) != Weight(b, doubled)
  {
  }

  lemma MultiplesOfTen(x: int, y: int)
    requires x % 10 == 0
    ensures y % 10 == 0 <==> (y - x) % 10 == 0
  {
  }

  /** Every single-digit error in a valid number is detected. */
  lemma SubstitutionIsRejected(s: string, i: nat, c: char)
    requires AllDigits(s) && ValidDigits(s)
    requires i < |s| && IsDigit(c) && c != s[i]
    ensures AllDigits(s[i := c]) && !ValidDigits(s[i := c])
  {
    var at := DoubledAt(|s| - 1 - i, false);
    SumAfterSubstitution(s, i, c, false);
    var before, after := Weight(DigitOf(s[i]), at), Weight(DigitOf(c), at);
    assert before != after by {
      WeightsAreDistinct(DigitOf(s[i]), DigitOf(c), at);
    }
    ShiftWithinTen(LuhnSum(s, false), LuhnSum(s[i := c], false), before, after);
  }

  lemma ShiftWithinTen(x: int, y: int, before: int, after: int)
    requires x % 10 == 0 && y == x - before + after
    requires 0 <= before <= 9 && 0 <= after <= 9 && before != after
    ensures y % 10 != 0
  {
    MultiplesOfTen(x, y);
  }

  /** A swap of two adjacent, distinct digits of a valid number goes undetected
      exactly when the two digits are 0 and 9. */
  lemma AdjacentSwapIsRejectedUnlessZeroNine(s: string, i: nat)
    requires AllDigits(s) && ValidDigits(s)
    requires i + 1 < |s| && s[i] != s[i + 1]
    ensures var t := s[i := s[i + 1]][i + 1 := s[i]];
            AllDigits(t) && (ValidDigits(t) <==> {s[i], s[i + 1]} == {'0', '9'})
  {
    var a, b := DigitOf(s[i]), DigitOf(s[i + 1]);
    SumAfterSubstitution(s, i, s[i + 1], false);
    SumAfterSubstitution(s[i := s[i + 1]], i + 1, s[i], false);
    var left := DoubledAt(|s| - 1 - i, false);
    NeighboursDiffer(|s| - 2 - i, false);
    SwapDifference(a, b, left);
    MultiplesOfTen(LuhnSum(s, false), LuhnSum(s[i := s[i + 1]][i + 1 := s[i]], false));
    assert {s[i], s[i + 1]} == {'0', '9'} <==> (a == 0 && b == 9) || (a == 9 && b == 0) by {
      if {s[i], s[i + 1]} == {'0', '9'} {
        assert s[i] in {'0', '9'} && s[i + 1] in {'0', '9'};
      }
    }
  }

  /** The change of the sum under a swap, modulo 10. */
  lemma SwapDifference(a: int, b: int, left: bool)
    requires 0 <= a <= 9 && 0 <= b <= 9 && a != b
    ensures (Weight(b, left) - Weight(a, left) + Weight(a, !left) - Weight(b, !left)) % 10 == 0
            <==> (a == 0 && b == 9) || (a == 9 && b == 0)
  {
    DoublingAdds(a);
    DoublingAdds(b);
  }

  /** Every digit prefix is completed to a valid number by exactly one check digit. */
  lemma CheckDigitExistsAndIsUnique(prefix: string) returns (check: char)
    requires AllDigits(prefix)
    ensures IsDigit(check) && ValidDigits(prefix + [check])
    ensures forall c :: IsDigit(c) && ValidDigits(prefix + [c]) ==> c == check
  {
    var sum := LuhnSum(prefix, true);
    var d := TensComplement(sum);
    check := ('0' as int + d) as char;
    forall c | IsDigit(c)
      ensures ValidDigits(prefix + [c]) <==> c == check
    {
      assert (prefix + [c])[..|prefix|] == prefix;
      assert LuhnSum(prefix + [c], false) == sum + DigitOf(c);
      assert Completes(sum, DigitOf(c)) <==> DigitOf(c) == d;
    }
  }

  ghost predicate Completes(sum: nat, d: int) {
    (sum + d) % 10 == 0
  }

  lemma TensComplement(sum: nat) returns (d: int)
    ensures 0 <= d <= 9
    ensures forall e :: 0 <= e <= 9 ==> (Completes(sum, e) <==> e == d)
  {
    d := (10 - sum % 10) % 10;
  }
}
