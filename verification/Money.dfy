/** Text form of money amounts (internal/models/order.go): an amount is kept as a whole
    number of kopecks in an int64; it is printed as roubles with two decimals and parsed
    from the decimal text of the accrual system's replies. */
module Money {
  import opened Digits

  // ------------------------------------------------------------------ the parser

  /** strings.Split(s, "."). */
  function SplitDots(s: string): (parts: seq<string>)
    ensures |parts| >= 1
  {
    if s == "" then [""]
    else
      var rest := SplitDots(s[1..]);
      if s[0] == '.' then [""] + rest else [[s[0]] + rest[0]] + rest[1..]
  }

  /** `Panics` is the slice of an empty fraction. */
  datatype Parsed = Amount(kopecks: int) | Malformed | Panics

  /** One decimal is completed by a zero; more than two are cut off. */
  function TwoPlaces(frac: string): string
    requires frac != ""
  {
    if |frac| == 1 then frac + "0" else frac[..2]
  }

  function ParseParts(parts: seq<string>): (r: Parsed)
    requires |parts| >= 1
    ensures r.Amount? ==> FitsInt64(r.kopecks)
  {
    if |parts| > 2 then Malformed
    else
      match Atoi(parts[0])
      case None => Malformed
      case Some(intPart) =>
        var result := Wrap64(intPart * 100);
        if |parts| != 2 then Amount(result)
        else if parts[1] == "" then Panics
        else
          match Atoi(TwoPlaces(parts[1]))
          case None => Malformed
          case Some(fracPart) =>
            Amount(Wrap64(if intPart < 0 then result - fracPart else result + fracPart))
  }

  function ParseAccrual(s: string): (r: Parsed)
    ensures r.Amount? ==> FitsInt64(r.kopecks)
  {
    ParseParts(SplitDots(s))
  }

  // ----------------------------------------------------------------- the printer

  function Zeros(n: nat): (s: string)
    ensures |s| == n
  {
    if n == 0 then "" else "0" + Zeros(n - 1)
  }

  /** At least three characters, padded with zeros on the left. */
  function Padded(s: string): (t: string)
    ensures |t| >= 3
  {
    if |s| < 3 then Zeros(3 - |s|) + s else s
  }

  function PrintAccrual(a: int): string
    requires FitsInt64(a)
  {
    if a == 0 then "0"
    else
      var val := if a < 0 then Wrap64(-a) else a;
      WithPoint(a < 0, Padded(Itoa(val)))
  }

  /** The last two characters become the decimals. */
  function WithPoint(neg: bool, s: string): string
    requires |s| >= 2
  {
    var intPart, fracPart := s[..|s| - 2], s[|s| - 2..];
    (if neg then "-" + intPart else intPart) + "." + fracPart
  }

  // ------------------------------------------- decimals of RFC 8259, section 6

  /** A number of the JSON grammar without an exponent; an empty `frac` means no fraction. */
  datatype Decimal = Decimal(neg: bool, whole: string, frac: string)
  {
    predicate WellFormed() {
      && whole != "" && AllDigits(whole) && (|whole| > 1 ==> whole[0] != '0')
      && AllDigits(frac)
    }

    function Whole(): string {
      if neg then "-" + whole else whole
    }

    function Text(): string {
      if frac == "" then Whole() else Whole() + "." + frac
    }

    /** 100 times the absolute value, rounded down: the digits before and after the
        point form one integer, which the fraction's length scales back. */
    function Magnitude(): int
      requires WellFormed()
    {
      Value(whole + frac) * 100 / Pow10(|frac|)
    }

    /** 100 times the value, truncated toward zero. */
    function Kopecks(): int
      requires WellFormed()
    {
      if neg then -Magnitude() else Magnitude()
    }
  }

  // ------------------------------------------------------------ lemmas on splitting

  ghost predicate NoDots(s: string) {
    '.' !in s
  }

  lemma {:induction false} SplitWithoutDots(s: string)
    requires NoDots(s)
    ensures SplitDots(s) == [s]
  {
    if s != "" {
      assert forall c :: c in s[1..] ==> c in s;
      SplitWithoutDots(s[1..]);
      assert [s[0]] + s[1..] == s;
    }
  }

  lemma {:induction false} SplitAtOneDot(a: string, b: string)
    requires NoDots(a) && NoDots(b)
    ensures SplitDots(a + "." + b) == [a, b]
  {
    var s := a + "." + b;
    if a == "" {
      assert s[1..] == b;
      SplitWithoutDots(b);
    } else {
      assert forall c :: c in a[1..] ==> c in a;
      SplitAtOneDot(a[1..], b);
      assert s[1..] == a[1..] + "." + b;
      assert [a[0]] + a[1..] == a;
    }
  }

  lemma DigitsHaveNoDots(s: string)
    requires AllDigits(s)
    ensures NoDots(s) && NoDots("-" + s)
  {
  }

  lemma WholeHasNoDots(d: Decimal)
    requires d.WellFormed()
    ensures NoDots(d.Whole()) && NoDots(d.frac)
  {
    DigitsHaveNoDots(d.whole);
    DigitsHaveNoDots(d.frac);
  }

  /** The parts the parser sees of a plain number. */
  lemma PartsOfText(d: Decimal)
    requires d.WellFormed()
    ensures SplitDots(d.Text()) == if d.frac == "" then [d.Whole()] else [d.Whole(), d.frac]
  {
    WholeHasNoDots(d);
    if d.frac == "" {
      SplitWithoutDots(d.Whole());
    } else {
      SplitAtOneDot(d.Whole(), d.frac);
    }
  }

  /** The parts the parser sees of a number followed by more text. */
  lemma PartsOfTextAndTail(d: Decimal, tail: string)
    requires d.WellFormed() && NoDots(tail)
    ensures SplitDots(d.Text() + tail)
            == if d.frac == "" then [d.Whole() + tail] else [d.Whole(), d.frac + tail]
  {
    WholeHasNoDots(d);
    if d.frac == "" {
      SplitWithoutDots(d.Whole() + tail);
    } else {
      assert d.Text() + tail == d.Whole() + "." + (d.frac + tail);
      SplitAtOneDot(d.Whole(), d.frac + tail);
    }
  }

  lemma AtoiOfWhole(d: Decimal)
    requires d.WellFormed()
    ensures Atoi(d.Whole()) == if FitsInt64(SignedWhole(d)) then Some(SignedWhole(d)) else None
  {
    if d.neg {
      assert d.Whole()[1..] == d.whole;
    } else {
      assert d.Whole() == d.whole && IsDigit(d.whole[0]);
    }
  }

  // ------------------------------------------------- what the digits after the point give

  /** The two digits the parser keeps of a fraction, as a number. */
  function Hundredths(frac: string): (h: int)
    requires AllDigits(frac)
    ensures 0 <= h <= 99
  {
    if frac == "" then 0
    else if |frac| == 1 then 10 * DigitOf(frac[0])
    else 10 * DigitOf(frac[0]) + DigitOf(frac[1])
  }

  lemma AtoiOfHundredths(frac: string)
    requires AllDigits(frac) && frac != ""
    ensures Atoi(TwoPlaces(frac)) == Some(Hundredths(frac))
  {
    var kept := TwoPlaces(frac);
    assert kept == [kept[0], kept[1]] && IsDigit(kept[0]) && IsDigit(kept[1]);
    assert kept[..1] == [kept[0]] && kept[..1][..0] == "";
    assert Value(kept[..1]) == DigitOf(kept[0]);
    assert Value(kept) == 10 * DigitOf(kept[0]) + DigitOf(kept[1]);
  }

  /** Dropping the digits after the second decimal is rounding down. */
  lemma MagnitudeFromParts(d: Decimal)
    requires d.WellFormed()
    ensures d.Magnitude() == 100 * Value(d.whole) + Hundredths(d.frac)
  {
    var k := |d.frac|;
    ValueOfConcatenation(d.whole, d.frac);
    if k == 0 {
    } else if k == 1 {
      assert d.frac[..0] == "";
      assert Pow10(1) == 10 * Pow10(0);
    } else {
      var kept, rest := d.frac[..2], d.frac[2..];
      assert kept[..1][..0] == "" && kept[..1] == [d.frac[0]];
      assert Value(kept[..1]) == DigitOf(d.frac[0]);
      assert d.frac == kept + rest;
      ValueOfConcatenation(kept, rest);
      ValueIsBounded(rest);
      assert Pow10(k) == 100 * Pow10(k - 2) by {
        assert Pow10(k - 1) == 10 * Pow10(k - 2);
      }
      RoundsDown(Value(d.whole), Value(kept), Value(rest), Pow10(k - 2));
    }
  }

  lemma RoundsDown(w: nat, h: nat, r: nat, p: nat)
    requires p >= 1 && r < p
    ensures (w * (100 * p) + (h * p + r)) * 100 / (100 * p) == 100 * w + h
  {
    var n := (w * (100 * p) + (h * p + r)) * 100;
    var q := 100 * w + h;
    assert n == q * (100 * p) + 100 * r by {
      assert w * (100 * p) * 100 == (100 * w) * (100 * p);
      assert h * p * 100 == h * (100 * p);
      assert q * (100 * p) == (100 * w) * (100 * p) + h * (100 * p);
    }
    QuotientIs(n, q, 100 * p, 100 * r);
  }

  lemma QuotientIs(n: nat, q: nat, m: nat, r: nat)
    requires m > 0 && r < m && n == q * m + r
    ensures n / m == q
  {
    assert n == (n / m) * m + n % m;
    if n / m > q {
      ProductsGrow(q + 1, n / m, m);
      assert false;
    }
    if n / m < q {
      ProductsGrow(n / m + 1, q, m);
      assert false;
    }
  }

  lemma ProductsGrow(a: nat, b: nat, m: nat)
    requires a <= b
    ensures a * m <= b * m
  {
  }

  // ------------------------------------------------------------------ main results

  /** The parser's arithmetic on an integer part `w` and two decimals `h`. */
  function Assembled(w: int, h: int): Parsed {
    if !FitsInt64(w) then Malformed
    else Amount(Wrap64(if w < 0 then Wrap64(w * 100) - h else Wrap64(w * 100) + h))
  }

  function SignedWhole(d: Decimal): int
    requires d.WellFormed()
  {
    if d.neg then -Value(d.whole) else Value(d.whole)
  }

  lemma ParseOfOnePart(whole: string, w: int)
    requires Atoi(whole) == if FitsInt64(w) then Some(w) else None
    ensures ParseParts([whole]) == Assembled(w, 0)
  {
  }

  lemma ParseOfTwoParts(whole: string, w: int, frac: string, h: int)
    requires Atoi(whole) == if FitsInt64(w) then Some(w) else None
    requires frac != "" && Atoi(TwoPlaces(frac)) == Some(h)
    ensures ParseParts([whole, frac]) == Assembled(w, h)
  {
  }

  /** The parser's value in terms of the two parts of the number. */
  lemma ParseFromParts(d: Decimal)
    requires d.WellFormed()
    ensures ParseAccrual(d.Text()) == Assembled(SignedWhole(d), Hundredths(d.frac))
  {
    PartsOfText(d);
    AtoiOfWhole(d);
    if d.frac == "" {
      ParseOfOnePart(d.Whole(), SignedWhole(d));
    } else {
      AtoiOfHundredths(d.frac);
      ParseOfTwoParts(d.Whole(), SignedWhole(d), d.frac, Hundredths(d.frac));
    }
  }

  lemma AssembledIsExact(neg: bool, n: int, h: int)
    requires n >= 0 && 0 <= h <= 99
    ensures var w := if neg then -n else n;
            var k := if neg then -(100 * n + h) else 100 * n + h;
            Assembled(w, h) == Amount(k) <==> FitsInt64(k) && !(neg && n == 0 && k != 0)
  {
  }

  /** For every JSON decimal without an exponent, the parser returns 100 times the value
      truncated toward zero exactly when that fits an int64 and the number is not one
      whose minus sign is lost with a zero integer part. */
  lemma ParseIsExact(d: Decimal)
    requires d.WellFormed()
    ensures ParseAccrual(d.Text()) == Amount(d.Kopecks())
            <==> FitsInt64(d.Kopecks()) && !(d.neg && d.whole == "0" && d.Kopecks() != 0)
  {
    ParseFromParts(d);
    MagnitudeFromParts(d);
    ZeroIsTheOnlyZero(d.whole);
    AssembledIsExact(d.neg, Value(d.whole), Hundredths(d.frac));
  }

  /** In the exact case no intermediate product overflows. */
  lemma NoIntermediateOverflow(d: Decimal)
    requires d.WellFormed() && FitsInt64(d.Kopecks())
    ensures Atoi(d.Whole()) == Some(SignedWhole(d)) && FitsInt64(SignedWhole(d) * 100)
  {
    AtoiOfWhole(d);
    MagnitudeFromParts(d);
  }

  lemma ZeroIsTheOnlyZero(whole: string)
    requires whole != "" && AllDigits(whole) && (|whole| > 1 ==> whole[0] != '0')
    ensures Value(whole) == 0 <==> whole == "0"
  {
    var first, rest := whole[..1], whole[1..];
    assert first == [whole[0]] && first[..0] == "";
    assert Value(first) == DigitOf(whole[0]);
    assert whole == first + rest;
    ValueOfConcatenation(first, rest);
    if rest == "" {
      assert whole == first;
    } else {
      ProductsGrow(1, Value(first), Pow10(|rest|));
    }
  }

  lemma AtoiRejects(s: string, i: nat)
    requires 1 <= i < |s| && !IsDigit(s[i])
    ensures Atoi(s).None?
  {
    assert s[1..][i - 1] == s[i];
  }

  /** An exponent is never honoured: with fewer than two decimals it makes the number
      malformed, with two or more it is ignored. */
  lemma ExponentIsNotHonoured(d: Decimal, exponent: string)
    requires d.WellFormed()
    requires |exponent| >= 2 && (exponent[0] == 'e' || exponent[0] == 'E') && NoDots(exponent)
    ensures ParseAccrual(d.Text() + exponent)
            == if |d.frac| >= 2 then ParseAccrual(d.Text()) else Malformed
  {
    PartsOfTextAndTail(d, exponent);
    var whole, frac := d.Whole(), d.frac;
    if frac == "" {
      AtoiRejects(whole + exponent, |whole|);
      assert ParseParts([whole + exponent]) == Malformed;
    } else if |frac| == 1 {
      AtoiRejects(TwoPlaces(frac + exponent), 1);
      assert ParseParts([whole, frac + exponent]) == Malformed;
    } else {
      assert TwoPlaces(frac + exponent) == TwoPlaces(frac);
      PartsWithSamePlaces(whole, frac + exponent, frac);
      PartsOfText(d);
    }
  }

  lemma PartsWithSamePlaces(whole: string, f: string, g: string)
    requires f != "" && g != "" && TwoPlaces(f) == TwoPlaces(g)
    ensures ParseParts([whole, f]) == ParseParts([whole, g])
  {
  }

  // ----------------------------------------------------------- texts that are no numbers

  /** A point with nothing behind it makes the parser slice an empty text, if it gets there. */
  lemma EmptyFractionPanics(d: Decimal)
    requires d.WellFormed()
    ensures ParseAccrual(d.Whole() + ".") == if FitsInt64(SignedWhole(d)) then Panics else Malformed
  {
    WholeHasNoDots(d);
    SplitAtOneDot(d.Whole(), "");
    assert d.Whole() + "." + "" == d.Whole() + ".";
    AtoiOfWhole(d);
  }

  lemma TwoPointsAreMalformed(a: string, b: string, c: string)
    requires NoDots(a) && NoDots(b)
    ensures ParseAccrual(a + "." + (b + "." + c)) == Malformed
  {
    SplitAfterDot(a, b + "." + c);
    SplitAfterDot(b, c);
  }

  lemma {:induction false} SplitAfterDot(a: string, b: string)
    requires NoDots(a)
    ensures SplitDots(a + "." + b) == [a] + SplitDots(b)
  {
    var s := a + "." + b;
    if a == "" {
      assert s[1..] == b;
    } else {
      assert forall c :: c in a[1..] ==> c in a;
      SplitAfterDot(a[1..], b);
      assert s[1..] == a[1..] + "." + b;
      assert [a[0]] + a[1..] == a;
    }
  }

  // ----------------------------------------------------------------- round trip

  /** The printed form of an amount, as a decimal of the JSON grammar. */
  function Printed(a: int): (d: Decimal)
    requires INT64_MIN < a <= INT64_MAX
  {
    var m := if a < 0 then -a else a;
    if a == 0 then Decimal(false, "0", "")
    else Decimal(a < 0, ItoaNat(m / 100), [DigitChar(m / 10 % 10), DigitChar(m % 10)])
  }

  /** What is printed is a JSON number whose value is the amount. */
  lemma PrintIsJson(a: int)
    requires INT64_MIN < a <= INT64_MAX
    ensures Printed(a).WellFormed() && PrintAccrual(a) == Printed(a).Text()
    ensures Printed(a).Kopecks() == a
  {
    PrintedText(a);
    var m := if a < 0 then -a else a;
    PrintedParts(m);
    MagnitudeFromParts(Printed(a));
  }

  lemma PrintedIsWellFormed(a: int)
    requires INT64_MIN < a <= INT64_MAX
    ensures Printed(a).WellFormed()
  {
  }

  lemma PrintedText(a: int)
    requires INT64_MIN < a <= INT64_MAX
    ensures Printed(a).WellFormed() && PrintAccrual(a) == Printed(a).Text()
  {
    PrintedIsWellFormed(a);
    if a != 0 {
      var m := if a < 0 then -a else a;
      NegationFits(a);
      PrintedMagnitude(a, m);
      TextOfMagnitude(a < 0, m);
    }
  }

  lemma TextOfMagnitude(neg: bool, m: nat)
    requires m >= 1
    ensures WithPoint(neg, Padded(ItoaNat(m)))
            == Decimal(neg, ItoaNat(m / 100), [DigitChar(m / 10 % 10), DigitChar(m % 10)]).Text()
  {
    PaddedDigits(m);
    PointedText(neg, ItoaNat(m / 100), [DigitChar(m / 10 % 10), DigitChar(m % 10)]);
  }

  lemma NegationFits(a: int)
    requires INT64_MIN < a <= INT64_MAX
    ensures (if a < 0 then Wrap64(-a) else a) == if a < 0 then -a else a
  {
  }

  lemma PrintedMagnitude(a: int, m: nat)
    requires FitsInt64(a) && a != 0 && m == if a < 0 then Wrap64(-a) else a
    ensures PrintAccrual(a) == WithPoint(a < 0, Padded(ItoaNat(m)))
  {
    assert Itoa(m) == ItoaNat(m);
  }

  lemma PointedText(neg: bool, whole: string, frac: string)
    requires |frac| == 2
    ensures WithPoint(neg, whole + frac) == Decimal(neg, whole, frac).Text()
  {
    var s := whole + frac;
    assert s[..|s| - 2] == whole && s[|s| - 2..] == frac;
  }

  lemma PrintedParts(m: nat)
    ensures Value("0") == 0
    ensures 100 * Value(ItoaNat(m / 100)) + Hundredths([DigitChar(m / 10 % 10), DigitChar(m % 10)]) == m
  {
    assert "0"[..0] == "";
    TwoDigitsAreHundredths(m);
  }

  lemma ItoaOfTwoParts(m: nat)
    requires m >= 100
    ensures ItoaNat(m) == ItoaNat(m / 100) + [DigitChar(m / 10 % 10), DigitChar(m % 10)]
    ensures |ItoaNat(m)| >= 3
  {
    assert m / 10 / 10 == m / 100;
    assert ItoaNat(m) == ItoaNat(m / 10) + [DigitChar(m % 10)];
    assert ItoaNat(m / 10) == ItoaNat(m / 100) + [DigitChar(m / 10 % 10)];
  }

  lemma PaddedDigits(m: nat)
    requires m >= 1
    ensures Padded(ItoaNat(m)) == ItoaNat(m / 100) + [DigitChar(m / 10 % 10), DigitChar(m % 10)]
  {
    if m >= 100 {
      ItoaOfTwoParts(m);
    } else {
      assert ItoaNat(0) == "0";
      assert Zeros(1) == "0" + Zeros(0);
      if m < 10 {
        assert Zeros(2) == "0" + Zeros(1);
      } else {
        assert ItoaNat(m) == ItoaNat(m / 10) + [DigitChar(m % 10)];
        assert ItoaNat(m / 10) == [DigitChar(m / 10)];
      }
    }
  }

  lemma TwoDigitsAreHundredths(m: nat)
    ensures 100 * (m / 100) + (10 * (m / 10 % 10) + m % 10) == m
  {
  }

  /** The smallest int64 is its own negation: its text carries two signs. */
  lemma PrintOfSelfNegating(m: int)
    requires m >= 100 && FitsInt64(-m) && Wrap64(m) == -m
    ensures ParseAccrual(PrintAccrual(-m)) == Malformed
  {
    var s := "-" + ItoaNat(m);
    PaddedDigits(m);
    assert |ItoaNat(m)| >= 3 by {
      assert ItoaNat(m) == ItoaNat(m / 10) + [DigitChar(m % 10)];
      assert ItoaNat(m / 10) == ItoaNat(m / 10 / 10) + [DigitChar(m / 10 % 10)];
    }
    assert Padded(s) == s && s[1..] == ItoaNat(m);
    TwoSigns(s);
  }

  lemma TwoSigns(s: string)
    requires |s| >= 3 && s[0] == '-' && AllDigits(s[1..])
    ensures ParseAccrual("-" + s[..|s| - 2] + "." + s[|s| - 2..]) == Malformed
  {
    var whole, frac := "-" + s[..|s| - 2], s[|s| - 2..];
    assert forall i :: 1 <= i < |s| ==> s[i] == s[1..][i - 1];
    SplitAtOneDot(whole, frac);
    assert whole[1..] == s[..|s| - 2] && !IsDigit(whole[1..][0]);
  }

  lemma AssembledAmount(neg: bool, n: int, h: int)
    requires n >= 0 && 0 <= h <= 99 && 100 * n + h <= INT64_MAX
    ensures Assembled(if neg then -n else n, h)
            == Amount(if neg && n > 0 then -(100 * n + h) else 100 * n + h)
  {
  }

  /** Printing an amount and parsing it back, for every int64 value. */
  lemma PrintThenParse(a: int)
    requires FitsInt64(a)
    ensures ParseAccrual(PrintAccrual(a))
            == if a == INT64_MIN then Malformed else if -100 < a < 0 then Amount(-a) else Amount(a)
  {
    if a == INT64_MIN {
      assert Wrap64(-a) == a;
      PrintOfSelfNegating(-a);
    } else {
      PrintIsJson(a);
      var d := Printed(a);
      ParseFromParts(d);
      MagnitudeFromParts(d);
      AssembledAmount(d.neg, Value(d.whole), Hundredths(d.frac));
    }
  }
}
