/** `Math.round` and the rounded averages the statistics panels show. */
module Numbers {

  /** `Math.round(x)`: the nearest integer, halves rounded upwards. */
  function RoundHalfUp(x: real): (r: int)
    ensures x - 0.5 < r as real <= x + 0.5
  {
    (x + 0.5).Floor
  }

  function SumInt(xs: seq<int>): int
  {
    if xs == [] then 0 else xs[0] + SumInt(xs[1..])
  }

  /** `xs.length > 0 ? Math.round(sum / xs.length) : 0`. */
  function RoundedMean(xs: seq<int>): int
  {
    if |xs| == 0 then 0 else RoundHalfUp(SumInt(xs) as real / |xs| as real)
  }

  lemma {:induction false} SumIntBounds(xs: seq<int>, lo: int, hi: int)
    requires forall i :: 0 <= i < |xs| ==> lo <= xs[i] <= hi
    ensures |xs| * lo <= SumInt(xs) <= |xs| * hi
  {
    if xs != [] {
      SumIntBounds(xs[1..], lo, hi);
    }
  }

  lemma DivBounds(a: real, n: real, lo: real, hi: real)
    requires n > 0.0 && lo * n <= a <= hi * n
    ensures lo <= a / n <= hi
  {
    var m := a / n;
    assert a == m * n;
    assert (m - lo) * n == a - lo * n;
    assert (hi - m) * n == hi * n - a;
  }

  lemma CastProduct(a: int, b: int)
    ensures (a * b) as real == a as real * b as real
  {
  }

  /** Rounding a value that lies between two integers stays between them. */
  lemma RoundWithin(x: real, lo: int, hi: int)
    requires lo as real <= x <= hi as real
    ensures lo <= RoundHalfUp(x) <= hi
  {
  }

  /** The rounded mean of values that lie in a range lies in that range. */
  lemma MeanWithinBounds(xs: seq<int>, lo: int, hi: int)
    requires |xs| > 0
    requires forall i :: 0 <= i < |xs| ==> lo <= xs[i] <= hi
    ensures lo <= RoundedMean(xs) <= hi
  {
    SumIntBounds(xs, lo, hi);
    CastProduct(|xs|, lo);
    CastProduct(|xs|, hi);
    var n := |xs| as real;
    var m := SumInt(xs) as real / n;
    DivBounds(SumInt(xs) as real, n, lo as real, hi as real);
    RoundWithin(m, lo, hi);
  }

  lemma MeanExamples()
    ensures RoundedMean([]) == 0
    ensures RoundedMean([10, 20, 30]) == 20
    ensures RoundedMean([1, 2]) == 2
  {
    assert SumInt([10, 20, 30]) == 60;
    assert SumInt([1, 2]) == 3;
  }
}
