/** The input masks of the registration forms: each keeps the digits of
    what was typed, inserts separators by how many digits there are, and
    cuts the result to the length of a complete value. The regular
    expressions are modelled by the layout they produce on a string of
    digits, case by case on its length. */
module Masks {
  import opened Common
  import opened Text
  import opened Cnpj

  /** Cutting `x + y` inside `y` keeps all of `x`. */
  lemma TakeAppend(x: string, y: string, k: nat)
    requires k <= |y|
    ensures (x + y)[..|x| + k] == x + y[..k]
  {
  }

  /** Appending a separator and the next slice of digits extends the digits
      read so far by that slice. */
  lemma DigitsOfJoin(p: string, c: char, d: string, i: nat, j: nat)
    requires AllDigits(d) && i <= j <= |d| && !IsDigit(c)
    requires DigitsOf(p) == d[..i]
    ensures DigitsOf(p + [c] + d[i..j]) == d[..j]
  {
    DigitsOfAround(p, c, d[i..j]);
    DigitsOfDigits(d[i..j]);
    assert d[..i] + d[i..j] == d[..j];
  }

  // ---------------------------------------------------------------- CNPJ

  /** The four replacements of `formatCNPJ` on digits alone: `.` after two
      digits once there is a third, `.` after five once there is a sixth,
      `/` after eight once there is a ninth, `-` after twelve once there
      is a thirteenth. */
  function CnpjLayout(d: string): string
  {
    if |d| <= 2 then d
    else if |d| <= 5 then d[..2] + ['.'] + d[2..]
    else if |d| <= 8 then d[..2] + ['.'] + d[2..5] + ['.'] + d[5..]
    else if |d| <= 12 then d[..2] + ['.'] + d[2..5] + ['.'] + d[5..8] + ['/'] + d[8..]
    else d[..2] + ['.'] + d[2..5] + ['.'] + d[5..8] + ['/'] + d[8..12] + ['-'] + d[12..]
  }

  /** `formatCNPJ(value)`. */
  function FormatCnpj(value: string): (r: string)
    ensures |r| <= 18
  {
    Truncate(CnpjLayout(DigitsOf(value)), 18)
  }

  /** The separators are the only characters the layout adds. */
  lemma CnpjLayoutDigits(d: string)
    requires AllDigits(d)
    ensures DigitsOf(CnpjLayout(d)) == d
  {
    var n := |d|;
    DigitsOfDigits(d[..Min(n, 2)]);
    if n > 2 {
      var p := d[..2] + ['.'] + d[2..Min(n, 5)];
      DigitsOfJoin(d[..2], '.', d, 2, Min(n, 5));
      if n > 5 {
        var q := p + ['.'] + d[5..Min(n, 8)];
        DigitsOfJoin(p, '.', d, 5, Min(n, 8));
        if n > 8 {
          var r := q + ['/'] + d[8..Min(n, 12)];
          DigitsOfJoin(q, '/', d, 8, Min(n, 12));
          if n > 12 {
            DigitsOfJoin(r, '-', d, 12, n);
          }
        }
      }
    }
    assert d[..n] == d;
  }

  /** Cutting the layout at 18 characters is the layout of the first 14
      digits, which fits. */
  lemma CnpjLayoutTruncated(d: string)
    ensures Truncate(CnpjLayout(d), 18) == CnpjLayout(d[..Min(|d|, 14)])
    ensures |d| <= 14 ==> |CnpjLayout(d)| <= 18
  {
    if |d| > 14 {
      CnpjLayoutCut(d);
    } else {
      assert d[..|d|] == d;
    }
  }

  lemma CnpjLayoutCut(d: string)
    requires |d| > 14
    ensures CnpjLayout(d)[..18] == CnpjLayout(d[..14])
  {
    var e := d[..14];
    var head := d[..2] + ['.'] + d[2..5] + ['.'] + d[5..8] + ['/'] + d[8..12] + ['-'];
    assert e[..2] == d[..2] && e[2..5] == d[2..5];
    assert e[5..8] == d[5..8] && e[8..12] == d[8..12];
    assert CnpjLayout(e) == head + e[12..];
    TakeAppend(head, d[12..], 2);
    assert d[12..][..2] == e[12..];
  }

  /** The digits of the masked value are the first 14 digits typed. */
  lemma FormatCnpjDigits(value: string)
    ensures var d := DigitsOf(value); DigitsOf(FormatCnpj(value)) == d[..Min(|d|, 14)]
  {
    var d := DigitsOf(value);
    CnpjLayoutTruncated(d);
    CnpjLayoutDigits(d[..Min(|d|, 14)]);
  }

  /** A complete identifier is laid out as `dd.ddd.ddd/dddd-dd`. */
  lemma FormatCnpjComplete(value: string)
    requires |DigitsOf(value)| == 14
    ensures var d := DigitsOf(value);
      FormatCnpj(value) == d[..2] + "." + d[2..5] + "." + d[5..8] + "/" + d[8..12] + "-" + d[12..]
  {
    CnpjLayoutTruncated(DigitsOf(value));
  }

  /** Masking does not change whether an identifier of at most 14 digits
      passes the check. */
  lemma FormatCnpjKeepsValidity(value: string)
    requires |DigitsOf(value)| <= 14
    ensures IsValidCnpj(FormatCnpj(value)) == IsValidCnpj(value)
  {
    FormatCnpjDigits(value);
    var d := DigitsOf(value);
    assert d[..|d|] == d;
  }

  /** Masking an already masked value changes nothing, so re-running the
      mask on every keystroke is harmless. */
  lemma FormatCnpjIdempotent(value: string)
    ensures FormatCnpj(FormatCnpj(value)) == FormatCnpj(value)
  {
    var d := DigitsOf(value);
    var e := d[..Min(|d|, 14)];
    FormatCnpjDigits(value);
    CnpjLayoutTruncated(d);
    CnpjLayoutTruncated(e);
    assert e[..Min(|e|, 14)] == e;
  }

  // --------------------------------------------------------------- Phone

  /** The two replacements of `formatPhone` on digits alone: `(dd) ` once
      there is a third digit, and `-` after the seventh once there is an
      eighth. */
  function PhoneLayout(d: string): string
  {
    if |d| <= 2 then d
    else if |d| <= 7 then ['('] + d[..2] + [')', ' '] + d[2..]
    else ['('] + d[..2] + [')', ' '] + d[2..7] + ['-'] + d[7..]
  }

  /** `formatPhone(value)`. */
  function FormatPhone(value: string): (r: string)
    ensures |r| <= 15
  {
    Truncate(PhoneLayout(DigitsOf(value)), 15)
  }

  lemma PhoneLayoutDigits(d: string)
    requires AllDigits(d)
    ensures DigitsOf(PhoneLayout(d)) == d
  {
    var n := |d|;
    if n <= 2 {
      DigitsOfDigits(d);
    } else {
      DigitsOfJoin([], '(', d, 0, 2);
      assert [] + ['('] + d[0..2] == ['('] + d[..2];
      var p := ['('] + d[..2] + [')'];
      DigitsOfAround(['('] + d[..2], ')', []);
      assert ['('] + d[..2] + [')'] + [] == p;
      DigitsOfJoin(p, ' ', d, 2, Min(n, 7));
      assert p + [' '] + d[2..Min(n, 7)] == ['('] + d[..2] + [')', ' '] + d[2..Min(n, 7)];
      if n > 7 {
        DigitsOfJoin(p + [' '] + d[2..7], '-', d, 7, n);
      }
      assert d[..n] == d;
    }
  }

  /** Cutting the layout at 15 characters is the layout of the first 11
      digits, which fits. */
  lemma PhoneLayoutTruncated(d: string)
    ensures Truncate(PhoneLayout(d), 15) == PhoneLayout(d[..Min(|d|, 11)])
    ensures |d| <= 11 ==> |PhoneLayout(d)| <= 15
  {
    if |d| > 11 {
      var e := d[..11];
      var head := ['('] + d[..2] + [')', ' '] + d[2..7] + ['-'];
      assert e[..2] == d[..2] && e[2..7] == d[2..7];
      assert PhoneLayout(e) == head + e[7..];
      TakeAppend(head, d[7..], 4);
      assert d[7..][..4] == e[7..];
    }
  }

  /** The digits of the masked number are the first 11 digits typed. */
  lemma FormatPhoneDigits(value: string)
    ensures var d := DigitsOf(value); DigitsOf(FormatPhone(value)) == d[..Min(|d|, 11)]
  {
    var d := DigitsOf(value);
    PhoneLayoutTruncated(d);
    PhoneLayoutDigits(d[..Min(|d|, 11)]);
  }

  /** A mobile number of 11 digits is laid out as `(dd) ddddd-dddd`. */
  lemma FormatPhoneComplete(value: string)
    requires |DigitsOf(value)| == 11
    ensures var d := DigitsOf(value);
      FormatPhone(value) == "(" + d[..2] + ") " + d[2..7] + "-" + d[7..]
  {
    PhoneLayoutTruncated(DigitsOf(value));
  }

  lemma FormatPhoneIdempotent(value: string)
    ensures FormatPhone(FormatPhone(value)) == FormatPhone(value)
  {
    var d := DigitsOf(value);
    var e := d[..Min(|d|, 11)];
    FormatPhoneDigits(value);
    PhoneLayoutTruncated(d);
    PhoneLayoutTruncated(e);
    assert e[..Min(|e|, 11)] == e;
  }

  // ----------------------------------------------------------------- CEP

  /** The replacement of `formatCEP` on digits alone: `-` after the fifth
      digit once there is a sixth. */
  function CepLayout(d: string): string
  {
    if |d| <= 5 then d else d[..5] + ['-'] + d[5..]
  }

  /** `formatCEP(value)`: a Brazilian postal code. */
  function FormatCep(value: string): (r: string)
    ensures |r| <= 9
  {
    Truncate(CepLayout(DigitsOf(value)), 9)
  }

  lemma CepLayoutDigits(d: string)
    requires AllDigits(d)
    ensures DigitsOf(CepLayout(d)) == d
  {
    if |d| <= 5 {
      DigitsOfDigits(d);
    } else {
      DigitsOfDigits(d[..5]);
      DigitsOfJoin(d[..5], '-', d, 5, |d|);
      assert d[..|d|] == d;
    }
  }

  lemma CepLayoutTruncated(d: string)
    ensures Truncate(CepLayout(d), 9) == CepLayout(d[..Min(|d|, 8)])
    ensures |d| <= 8 ==> |CepLayout(d)| <= 9
  {
    if |d| > 8 {
      var e := d[..8];
      assert e[..5] == d[..5] && e[5..] == d[5..8];
      assert CepLayout(d)[..9] == CepLayout(e);
    }
  }

  /** The digits of the masked code are the first 8 digits typed. */
  lemma FormatCepDigits(value: string)
    ensures var d := DigitsOf(value); DigitsOf(FormatCep(value)) == d[..Min(|d|, 8)]
  {
    var d := DigitsOf(value);
    CepLayoutTruncated(d);
    CepLayoutDigits(d[..Min(|d|, 8)]);
  }

  /** Eight digits become `ddddd-ddd`. */
  lemma FormatCepComplete(value: string)
    requires |DigitsOf(value)| == 8
    ensures var d := DigitsOf(value); FormatCep(value) == d[..5] + "-" + d[5..]
  {
    CepLayoutTruncated(DigitsOf(value));
  }

  lemma FormatCepIdempotent(value: string)
    ensures FormatCep(FormatCep(value)) == FormatCep(value)
  {
    var d := DigitsOf(value);
    var e := d[..Min(|d|, 8)];
    FormatCepDigits(value);
    CepLayoutTruncated(d);
    CepLayoutTruncated(e);
    assert e[..Min(|e|, 8)] == e;
  }
}
