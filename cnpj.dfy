/** The CNPJ (Brazilian company tax identifier) check: 14 digits, the last
    two of which are weighted mod-11 check digits of the ones before. */
module Cnpj {
  import opened Text

  /** The weight at position `i` of the cycle that starts at `first`: each
      step moves it from 2 to 9 and otherwise down by one. From a start in
      2..9 it never leaves 2..9. */
  function Weight(first: int, i: nat): (w: int)
    ensures 2 <= first <= 9 ==> 2 <= w <= 9
  {
    if i == 0 then first
    else if Weight(first, i - 1) == 2 then 9 else Weight(first, i - 1) - 1
  }

  /** The sum over the first `n` digits of digit times weight. */
  function WeightedSum(d: string, first: int, n: nat): int
    requires n <= |d| && AllDigits(d)
  {
    if n == 0 then 0 else WeightedSum(d, first, n - 1) + DigitValue(d[n - 1]) * Weight(first, n - 1)
  }

  /** The sum looks only at the first `n` digits. */
  lemma {:induction false} WeightedSumPrefix(d: string, e: string, first: int, n: nat)
    requires n <= |d| && n <= |e| && AllDigits(d) && AllDigits(e)
    requires d[..n] == e[..n]
    ensures WeightedSum(d, first, n) == WeightedSum(e, first, n)
  {
    if n > 0 {
      assert d[n - 1] == d[..n][n - 1] == e[..n][n - 1] == e[n - 1];
      assert d[..n - 1] == d[..n][..n - 1];
      assert e[..n - 1] == e[..n][..n - 1];
      WeightedSumPrefix(d, e, first, n - 1);
    }
  }

  /** The value of digit `i`. */
  function Digit(d: string, i: nat): int
    requires i < |d| && AllDigits(d)
  {
    DigitValue(d[i])
  }

  /** One more digit adds that digit times its weight `w`. */
  lemma SumStep(d: string, first: int, n: nat, w: int)
    requires n < |d| && AllDigits(d) && Weight(first, n) == w
    ensures WeightedSum(d, first, n + 1) == WeightedSum(d, first, n) + w * Digit(d, n)
  {
  }

  /** The first check digit weighs the twelve base digits by 5,4,3,2,9,…,2. */
  lemma FirstSumWeights(d: string)
    requires |d| >= 12 && AllDigits(d)
    ensures WeightedSum(d, 5, 12) ==
      5 * Digit(d, 0) + 4 * Digit(d, 1) + 3 * Digit(d, 2) + 2 * Digit(d, 3)
      + 9 * Digit(d, 4) + 8 * Digit(d, 5) + 7 * Digit(d, 6) + 6 * Digit(d, 7)
      + 5 * Digit(d, 8) + 4 * Digit(d, 9) + 3 * Digit(d, 10) + 2 * Digit(d, 11)
  {
    SumStep(d, 5, 0, 5);
    SumStep(d, 5, 1, 4);
    SumStep(d, 5, 2, 3);
    SumStep(d, 5, 3, 2);
    SumStep(d, 5, 4, 9);
    SumStep(d, 5, 5, 8);
    SumStep(d, 5, 6, 7);
    SumStep(d, 5, 7, 6);
    SumStep(d, 5, 8, 5);
    SumStep(d, 5, 9, 4);
    SumStep(d, 5, 10, 3);
    SumStep(d, 5, 11, 2);
  }

  /** The second check digit weighs the first thirteen digits by 6,5,4,3,2,9,…,2. */
  lemma SecondSumWeights(d: string)
    requires |d| >= 13 && AllDigits(d)
    ensures WeightedSum(d, 6, 13) ==
      6 * Digit(d, 0) + 5 * Digit(d, 1) + 4 * Digit(d, 2) + 3 * Digit(d, 3) + 2 * Digit(d, 4)
      + 9 * Digit(d, 5) + 8 * Digit(d, 6) + 7 * Digit(d, 7) + 6 * Digit(d, 8)
      + 5 * Digit(d, 9) + 4 * Digit(d, 10) + 3 * Digit(d, 11) + 2 * Digit(d, 12)
  {
    SumStep(d, 6, 0, 6);
    SumStep(d, 6, 1, 5);
    SumStep(d, 6, 2, 4);
    SumStep(d, 6, 3, 3);
    SumStep(d, 6, 4, 2);
    SumStep(d, 6, 5, 9);
    SumStep(d, 6, 6, 8);
    SumStep(d, 6, 7, 7);
    SumStep(d, 6, 8, 6);
    SumStep(d, 6, 9, 5);
    SumStep(d, 6, 10, 4);
    SumStep(d, 6, 11, 3);
    SumStep(d, 6, 12, 2);
  }

  /** The digit that completes `sum` to a multiple of 11; remainders 0 and 1
      both give 0. */
  function CheckDigit(sum: int): (r: int)
    ensures 0 <= r <= 9
    ensures sum % 11 >= 2 ==> (sum + r) % 11 == 0
    ensures sum % 11 < 2 ==> r == 0
  {
    if sum % 11 < 2 then 0 else 11 - sum % 11
  }

  /** `/^(\d)\1+$/` on a string of digits: two or more copies of one digit. */
  predicate Repeated(d: string)
  {
    |d| >= 2 && forall i :: 0 <= i < |d| ==> d[i] == d[0]
  }

  /** What the validator accepts, stated on the digits that remain once
      everything else is stripped. */
  predicate ValidDigits(d: string)
    requires AllDigits(d)
  {
    && |d| == 14
    && !Repeated(d)
    && DigitValue(d[12]) == CheckDigit(WeightedSum(d, 5, 12))
    && DigitValue(d[13]) == CheckDigit(WeightedSum(d, 6, 13))
  }

  predicate IsValidCnpj(cnpj: string)
  {
    ValidDigits(DigitsOf(cnpj))
  }

  /** `validateCNPJ`: strips the non-digits, rejects a wrong length and a
      repeated digit, then recomputes both check digits with a weight that
      counts down and wraps from 2 to 9. */
  method ValidateCnpj(cnpj: string) returns (ok: bool)
    ensures ok == IsValidCnpj(cnpj)
  {
    var d := DigitsOf(cnpj);
    if |d| != 14 {
      return false;
    }
    if Repeated(d) {
      return false;
    }

    var sum := 0;
    var weight := 5;
    for i := 0 to 12
      invariant sum == WeightedSum(d, 5, i)
      invariant weight == Weight(5, i)
    {
      sum := sum + DigitValue(d[i]) * weight;
      weight := if weight == 2 then 9 else weight - 1;
    }
    var digit := if sum % 11 < 2 then 0 else 11 - sum % 11;
    if DigitValue(d[12]) != digit {
      return false;
    }

    sum := 0;
    weight := 6;
    for i := 0 to 13
      invariant sum == WeightedSum(d, 6, i)
      invariant weight == Weight(6, i)
    {
      sum := sum + DigitValue(d[i]) * weight;
      weight := if weight == 2 then 9 else weight - 1;
    }
    digit := if sum % 11 < 2 then 0 else 11 - sum % 11;
    ok := DigitValue(d[13]) == digit;
  }

  /** The first twelve digits decide the two check digits: two valid CNPJs
      that share them have the same digits throughout. */
  lemma CheckDigitsDetermined(s: string, t: string)
    requires IsValidCnpj(s) && IsValidCnpj(t)
    requires DigitsOf(s)[..12] == DigitsOf(t)[..12]
    ensures DigitsOf(s) == DigitsOf(t)
  {
    var d, e := DigitsOf(s), DigitsOf(t);
    WeightedSumPrefix(d, e, 5, 12);
    assert d[12] == e[12];
    assert d[..13] == d[..12] + [d[12]];
    assert e[..13] == e[..12] + [e[12]];
    WeightedSumPrefix(d, e, 6, 13);
    assert d[13] == e[13];
    assert d == d[..13] + [d[13]];
    assert e == e[..13] + [e[13]];
  }

  lemma {:induction false} ZeroSum(d: string, first: int, n: nat)
    requires n <= |d| && AllDigits(d)
    requires forall i :: 0 <= i < |d| ==> d[i] == '0'
    ensures WeightedSum(d, first, n) == 0
  {
    if n > 0 {
      ZeroSum(d, first, n - 1);
    }
  }

  /** Fourteen zeros carry correct check digits, so only the repeated-digit
      rule rejects them. */
  lemma ZerosPassTheChecksum()
    ensures CheckDigit(WeightedSum("00000000000000", 5, 12)) == 0
    ensures CheckDigit(WeightedSum("00000000000000", 6, 13)) == 0
    ensures !IsValidCnpj("00000000000000")
  {
    DigitsOfDigits("00000000000000");
    ZeroSum("00000000000000", 5, 12);
    ZeroSum("00000000000000", 6, 13);
    assert Repeated("00000000000000");
  }

  /** The punctuation of the dd.ddd.ddd/dddd-dd layout contributes no
      digit: stripping it gives back the fourteen digits. */
  /** The punctuation of the dd.ddd.ddd/dddd-dd layout contributes no
      digit: stripping it gives back the fourteen digits. */
  lemma DigitsOfMask(a: string, b: string, c: string, e: string, g: string)
    requires AllDigits(a) && AllDigits(b) && AllDigits(c) && AllDigits(e) && AllDigits(g)
    ensures DigitsOf(a + "." + b + "." + c + "/" + e + "-" + g) == a + b + c + e + g
  {
    DigitsOfAround(a + "." + b + "." + c + "/" + e, '-', g);
    DigitsOfAround(a + "." + b + "." + c, '/', e);
    DigitsOfAround(a + "." + b, '.', c);
    DigitsOfAround(a, '.', b);
    DigitsOfDigits(a);
    DigitsOfDigits(b);
    DigitsOfDigits(c);
    DigitsOfDigits(e);
    DigitsOfDigits(g);
  }

  lemma KnownValidFirstSum()
    ensures WeightedSum("11222333000181", 5, 12) == 102
  {
    FirstSumWeights("11222333000181");
  }

  lemma KnownValidSecondSum()
    ensures WeightedSum("11222333000181", 6, 13) == 120
  {
    SecondSumWeights("11222333000181");
  }

  lemma KnownValidDigits()
    ensures ValidDigits("11222333000181")
  {
    KnownValidFirstSum();
    KnownValidSecondSum();
    assert "11222333000181"[2] != "11222333000181"[0];
  }

  /** A correct identifier is accepted whatever its punctuation. */
  lemma AcceptsKnownValid()
    ensures DigitsOf("11.222.333/0001-81") == "11222333000181"
    ensures IsValidCnpj("11.222.333/0001-81")
  {
    assert DigitsOf("11.222.333/0001-81") == "11222333000181" by {
      DigitsOfMask("11", "222", "333", "0001", "81");
      assert "11.222.333/0001-81" == "11" + "." + "222" + "." + "333" + "/" + "0001" + "-" + "81";
    }
    KnownValidDigits();
  }

  /** The same identifier typed without punctuation is accepted too. */
  lemma AcceptsKnownValidDigits()
    ensures DigitsOf("11222333000181") == "11222333000181"
    ensures IsValidCnpj("11222333000181")
  {
    DigitsOfDigits("11222333000181");
    KnownValidDigits();
  }

  /** The seeded digits: the first check digit matches, the second computes
      to 5 where the identifier has 0. */
  lemma SeededFirstSum()
    ensures WeightedSum("12345678000190", 5, 12) == 222
  {
    FirstSumWeights("12345678000190");
  }

  lemma SeededSecondSum()
    ensures WeightedSum("12345678000190", 6, 13) == 237
  {
    SecondSumWeights("12345678000190");
  }

  lemma SeededDigits()
    ensures CheckDigit(WeightedSum("12345678000190", 5, 12)) == 9
    ensures CheckDigit(WeightedSum("12345678000190", 6, 13)) == 5
    ensures !ValidDigits("12345678000190")
  {
    SeededFirstSum();
    SeededSecondSum();
  }

  /** The identifier the register page seeds its first company with fails
      its own check. */
  lemma RejectsSeededCnpj()
    ensures DigitsOf("12.345.678/0001-90") == "12345678000190"
    ensures !IsValidCnpj("12.345.678/0001-90")
  {
    assert DigitsOf("12.345.678/0001-90") == "12345678000190" by {
      DigitsOfMask("12", "345", "678", "0001", "90");
      assert "12.345.678/0001-90" == "12" + "." + "345" + "." + "678" + "/" + "0001" + "-" + "90";
    }
    SeededDigits();
  }
}
