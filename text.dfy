/** The string built-ins the pages call: `replace(/\D/g, '')`, `trim()`,
    `toLowerCase()`, `includes`, `substring(0, n)`, `parseInt` and
    `Number`. A string is a sequence of characters. */
module Text {
  import opened Common
  import opened Seqs

  /** `\d` in a JavaScript regular expression: an ASCII decimal digit. */
  predicate IsDigit(c: char) { '0' <= c <= '9' }

  predicate AllDigits(s: string) { forall i :: 0 <= i < |s| ==> IsDigit(s[i]) }

  /** `parseInt` of a one-digit string. */
  function DigitValue(c: char): (v: int)
    requires IsDigit(c)
    ensures 0 <= v <= 9
  {
    c as int - '0' as int
  }

  /** The digits among the first `n` characters of `s`, in order. */
  function DigitsUpTo(s: string, n: nat): (r: string)
    requires n <= |s|
  {
    if n == 0 then []
    else if IsDigit(s[n - 1]) then DigitsUpTo(s, n - 1) + [s[n - 1]]
    else DigitsUpTo(s, n - 1)
  }

  lemma {:induction false} DigitsUpToBounds(s: string, n: nat)
    requires n <= |s|
    ensures AllDigits(DigitsUpTo(s, n)) && |DigitsUpTo(s, n)| <= n
  {
    if n > 0 {
      DigitsUpToBounds(s, n - 1);
    }
  }

  /** `s.replace(/\D/g, '')`: the digits of `s`, in order. */
  function DigitsOf(s: string): (r: string)
    ensures AllDigits(r) && |r| <= |s|
  {
    DigitsUpToBounds(s, |s|);
    DigitsUpTo(s, |s|)
  }

  lemma {:induction false} DigitsUpToPrefix(a: string, b: string, n: nat)
    requires n <= |a|
    ensures DigitsUpTo(a + b, n) == DigitsUpTo(a, n)
  {
    if n > 0 {
      assert (a + b)[n - 1] == a[n - 1];
      DigitsUpToPrefix(a, b, n - 1);
    }
  }

  lemma {:induction false} DigitsUpToAppend(a: string, b: string, k: nat)
    requires k <= |b|
    ensures DigitsUpTo(a + b, |a| + k) == DigitsOf(a) + DigitsUpTo(b, k)
  {
    if k == 0 {
      DigitsUpToPrefix(a, b, |a|);
    } else {
      assert (a + b)[|a| + k - 1] == b[k - 1];
      DigitsUpToAppend(a, b, k - 1);
    }
  }

  lemma DigitsOfAppend(a: string, b: string)
    ensures DigitsOf(a + b) == DigitsOf(a) + DigitsOf(b)
  {
    DigitsUpToAppend(a, b, |b|);
  }

  lemma {:induction false} DigitsUpToDigits(s: string, n: nat)
    requires n <= |s| && AllDigits(s)
    ensures DigitsUpTo(s, n) == s[..n]
  {
    if n > 0 {
      DigitsUpToDigits(s, n - 1);
      assert s[..n] == s[..n - 1] + [s[n - 1]];
    }
  }

  lemma DigitsOfDigits(s: string)
    requires AllDigits(s)
    ensures DigitsOf(s) == s
  {
    DigitsUpToDigits(s, |s|);
  }

  lemma {:induction false} DigitsUpToSeparator(s: string, n: nat)
    requires n <= |s|
    requires forall i :: 0 <= i < |s| ==> !IsDigit(s[i])
    ensures DigitsUpTo(s, n) == ""
  {
    if n > 0 {
      DigitsUpToSeparator(s, n - 1);
    }
  }

  /** A separator between two strings contributes no digit. */
  lemma DigitsOfAround(a: string, c: char, b: string)
    requires !IsDigit(c)
    ensures DigitsOf(a + [c] + b) == DigitsOf(a) + DigitsOf(b)
  {
    DigitsOfAppend(a + [c], b);
    DigitsOfAppend(a, [c]);
    assert DigitsUpTo([c], 1) == [];
  }

  /** The characters `trim()` removes: ECMAScript WhiteSpace and LineTerminator. */
  predicate IsSpace(c: char)
  {
    c == '\t' || c == '\n' || c == '\U{000B}' || c == '\U{000C}' || c == '\r' || c == ' '
    || c == '\U{00A0}' || c == '\U{1680}' || ('\U{2000}' <= c <= '\U{200A}')
    || c == '\U{2028}' || c == '\U{2029}' || c == '\U{202F}' || c == '\U{205F}'
    || c == '\U{3000}' || c == '\U{FEFF}'
  }

  /** `!s.trim()`: the string is empty once surrounding white space is removed. */
  predicate IsBlank(s: string) { forall i :: 0 <= i < |s| ==> IsSpace(s[i]) }

  /** `toLowerCase()` of one code unit, for the Basic Latin and Latin-1 letters. */
  function LowerChar(c: char): char
  {
    if 'A' <= c <= 'Z' || ('\U{00C0}' <= c <= '\U{00DE}' && c != '\U{00D7}') then
      (c as int + 32) as char
    else c
  }

  function Lower(s: string): (r: string)
    ensures |r| == |s|
  {
    Map(s, LowerChar)
  }

  /** `t` occurs in `s` starting at position `i`. */
  predicate OccursAt(s: string, t: string, i: int)
  {
    0 <= i && i + |t| <= |s| && s[i..i + |t|] == t
  }

  /** `s.includes(t)`. */
  predicate Contains(s: string, t: string)
  {
    exists i | 0 <= i <= |s| - |t| :: OccursAt(s, t, i)
  }

  lemma ContainsItself(s: string)
    ensures Contains(s, s)
  {
    assert OccursAt(s, s, 0);
  }

  /** `s.substring(0, n)`. */
  function Truncate(s: string, n: nat): (r: string)
    ensures |r| == Min(n, |s|)
    ensures r == s[..|r|]
  {
    s[..Min(n, |s|)]
  }

  function TrimStart(s: string): (r: string)
    ensures |r| <= |s| && r == s[|s| - |r|..]
  {
    if s != [] && IsSpace(s[0]) then TrimStart(s[1..]) else s
  }

  function TrimEnd(s: string): (r: string)
    ensures |r| <= |s| && r == s[..|r|]
  {
    if s != [] && IsSpace(s[|s| - 1]) then TrimEnd(s[..|s| - 1]) else s
  }

  /** The longest prefix of `s` made of digits. */
  function LeadingDigits(s: string): (r: string)
    ensures AllDigits(r) && |r| <= |s| && r == s[..|r|]
  {
    if s != [] && IsDigit(s[0]) then [s[0]] + LeadingDigits(s[1..]) else []
  }

  /** The value of a decimal numeral. */
  function DecimalValue(ds: string): nat
    requires AllDigits(ds)
  {
    if ds == [] then 0 else DecimalValue(ds[..|ds| - 1]) * 10 + DigitValue(ds[|ds| - 1])
  }

  /** `String(n)` for a non-negative integer: its decimal numeral. */
  function DecimalString(n: nat): (r: string)
    ensures AllDigits(r) && |r| > 0
  {
    var last := [('0' as int + n % 10) as char];
    if n < 10 then last else DecimalString(n / 10) + last
  }

  /** Reading back the numeral gives the number. */
  lemma {:induction false} DecimalRoundTrip(n: nat)
    ensures DecimalValue(DecimalString(n)) == n
  {
    var s := DecimalString(n);
    if n >= 10 {
      DecimalRoundTrip(n / 10);
      assert s[..|s| - 1] == DecimalString(n / 10);
    }
  }

  /** Different numbers have different numerals. */
  lemma DecimalStringInjective(m: nat, n: nat)
    requires DecimalString(m) == DecimalString(n)
    ensures m == n
  {
    DecimalRoundTrip(m);
    DecimalRoundTrip(n);
  }

  /** `parseInt(s)` in base 10: leading white space, an optional sign, then
      the longest run of digits; no digit at all is NaN (`None`). */
  function ParseInt(s: string): Option<int>
  {
    var t := TrimStart(s);
    var negative := t != [] && t[0] == '-';
    var body := if t != [] && (t[0] == '-' || t[0] == '+') then t[1..] else t;
    var ds := LeadingDigits(body);
    if ds == [] then None
    else Some(if negative then -(DecimalValue(ds) as int) else DecimalValue(ds) as int)
  }

  lemma {:induction false} LeadingDigitsAll(ds: string)
    requires AllDigits(ds)
    ensures LeadingDigits(ds) == ds
  {
    if ds != [] {
      LeadingDigitsAll(ds[1..]);
      assert ds == [ds[0]] + ds[1..];
    }
  }

  /** `parseInt` reads a numeral back as its value. */
  lemma ParseIntDigits(ds: string)
    requires AllDigits(ds) && ds != []
    ensures ParseInt(ds) == Some(DecimalValue(ds) as int)
  {
    assert !IsSpace(ds[0]);
    assert TrimStart(ds) == ds;
    LeadingDigitsAll(ds);
  }

  /** `parseInt` reads a minus sign followed by a numeral as the negated
      value. */
  lemma ParseIntNegative(s: string)
    requires |s| >= 2 && s[0] == '-' && AllDigits(s[1..])
    ensures ParseInt(s) == Some(-(DecimalValue(s[1..]) as int))
  {
    assert !IsSpace(s[0]);
    assert TrimStart(s) == s;
    LeadingDigitsAll(s[1..]);
  }

  /** `Number(s)` for decimal integer numerals: surrounding white space is
      ignored, the empty string is 0, anything else that is not a numeral
      is NaN (`None`). */
  function ToNumber(s: string): Option<int>
  {
    var t := TrimEnd(TrimStart(s));
    if t == [] then Some(0)
    else if AllDigits(t) then Some(DecimalValue(t))
    else None
  }

  /** A numeral reads back as its number under `Number`. */
  lemma ToNumberDecimal(n: nat)
    ensures ToNumber(DecimalString(n)) == Some(n)
  {
    var s := DecimalString(n);
    assert !IsSpace(s[0]) && !IsSpace(s[|s| - 1]);
    DecimalRoundTrip(n);
  }

  /** `s.split(c)` for a one-character separator: the pieces between the
      separators, the empty ones included. */
  function Split(s: string, c: char): (r: seq<string>)
    ensures |r| >= 1
    ensures forall i :: 0 <= i < |r| ==> c !in r[i]
  {
    if s == [] then [[]]
    else
      var rest := Split(s[1..], c);
      if s[0] == c then [[]] + rest else [[s[0]] + rest[0]] + rest[1..]
  }

  /** `parts.join(c)`. */
  function Join(parts: seq<string>, c: char): string
    requires |parts| >= 1
  {
    if |parts| == 1 then parts[0] else parts[0] + [c] + Join(parts[1..], c)
  }

  /** Joining the pieces back with the separator restores the string. */
  lemma {:induction false} JoinSplit(s: string, c: char)
    ensures Join(Split(s, c), c) == s
  {
    if s != [] {
      var rest := Split(s[1..], c);
      JoinSplit(s[1..], c);
      if s[0] == c {
        assert Join([[]] + rest, c) == [] + [c] + Join(rest, c) by {
          assert ([[]] + rest)[1..] == rest;
        }
      } else {
        var r := [[s[0]] + rest[0]] + rest[1..];
        if |rest| == 1 {
          assert r == [[s[0]] + rest[0]];
        } else {
          assert r[1..] == rest[1..];
          assert Join(rest, c) == rest[0] + [c] + Join(rest[1..], c);
        }
        assert s == [s[0]] + s[1..];
      }
    }
  }

  /** A first piece without separator stays whole in front of what follows. */
  lemma {:induction false} SplitPrefix(a: string, t: string, c: char)
    requires c !in a
    ensures Split(a + t, c) == [a + Split(t, c)[0]] + Split(t, c)[1..]
  {
    var st := Split(t, c);
    if a == [] {
      assert a + t == t && a + st[0] == st[0];
      assert st == [st[0]] + st[1..];
    } else {
      SplitPrefix(a[1..], t, c);
      var rest := Split(a[1..] + t, c);
      assert rest == [a[1..] + st[0]] + st[1..];
      assert (a + t)[0] == a[0] && (a + t)[1..] == a[1..] + t;
      assert Split(a + t, c) == [[a[0]] + rest[0]] + rest[1..];
      assert [a[0]] + (a[1..] + st[0]) == a + st[0];
    }
  }

  /** Splitting pieces joined by a separator they lack gives them back. */
  lemma {:induction false} SplitJoin(parts: seq<string>, c: char)
    requires |parts| >= 1 && forall i :: 0 <= i < |parts| ==> c !in parts[i]
    ensures Split(Join(parts, c), c) == parts
  {
    if |parts| == 1 {
      SplitPrefix(parts[0], [], c);
      assert parts[0] + [] == parts[0];
    } else {
      var j := Join(parts[1..], c);
      SplitJoin(parts[1..], c);
      assert Split([c] + j, c) == [[]] + Split(j, c) by {
        assert ([c] + j)[1..] == j;
      }
      assert parts[0] + [c] + j == parts[0] + ([c] + j);
      SplitPrefix(parts[0], [c] + j, c);
      assert parts[0] + [] == parts[0];
      assert parts == [parts[0]] + parts[1..];
    }
  }
}
