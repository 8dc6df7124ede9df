/** Small helpers shared by every module. */
module Prelude {

  datatype Option<+T> = None | Some(value: T)

  /** A computed value, or the reason the source raises instead. */
  datatype Result<+T> = Success(value: T) | Failure(error: string) {
    predicate IsFailure() {
      Failure?
    }

    function PropagateFailure<U>(): Result<U>
      requires Failure?
    {
      Failure(error)
    }

    function Extract(): T
      requires Success?
    {
      value
    }
  }

  function Min(a: real, b: real): real {
    if b < a then b else a
  }

  function Max(a: real, b: real): real {
    if b > a then b else a
  }

  /** The last `n` elements of `s`, or all of it when it is shorter. */
  function LastN<T>(s: seq<T>, n: nat): seq<T> {
    if |s| <= n then s else s[|s| - n..]
  }

  function Sum(s: seq<real>): real {
    if s == [] then 0.0 else Sum(s[..|s| - 1]) + s[|s| - 1]
  }

  function Mean(s: seq<real>): real
    requires s != []
  {
    Sum(s) / (|s| as real)
  }

  lemma SumSnoc(s: seq<real>, x: real)
    ensures Sum(s + [x]) == Sum(s) + x
  {
    assert (s + [x])[..|s|] == s;
  }

  /** A mean is what one thinks: its element, and a running average. */
  lemma MeanIsAverage(s: seq<real>, x: real)
    ensures Mean([x]) == x
    ensures s != [] ==> Mean(s + [x]) * ((|s| + 1) as real) == Mean(s) * (|s| as real) + x
  {
    assert [] + [x] == [x];
    SumSnoc([], x);
    SumSnoc(s, x);
    if s != [] {
      MeanTimesCount(s);
      MeanTimesCount(s + [x]);
    }
  }

  lemma MeanTimesCount(s: seq<real>)
    requires s != []
    ensures Mean(s) * (|s| as real) == Sum(s)
  {
  }

  /** `window` holds the last elements of `s`, as many as there are up to `n`. */
  predicate HoldsLast(window: seq<real>, s: seq<real>, n: nat) {
    && |window| == (if |s| < n then |s| else n)
    && forall i :: 0 <= i < |window| ==> window[i] == s[|s| - |window| + i]
  }

  lemma LastNHoldsLast(s: seq<real>, n: nat)
    ensures HoldsLast(LastN(s, n), s, n)
  {
  }

  /** An affine map of the elements carries over to their mean. */
  lemma {:induction false} SumAffine(s: seq<real>, t: seq<real>, a: real, b: real)
    requires |s| == |t|
    requires forall i :: 0 <= i < |s| ==> t[i] == a * s[i] + b
    ensures Sum(t) == a * Sum(s) + b * (|s| as real)
  {
    if s != [] {
      var n := |s| - 1;
      SumAffine(s[..n], t[..n], a, b);
      assert t[n] == a * s[n] + b;
    }
  }

  lemma DividedAffine(sum: real, n: real, a: real, b: real)
    requires n > 0.0
    ensures (a * sum + b * n) / n == a * (sum / n) + b
  {
    var q := sum / n;
    assert a * sum == a * q * n;
    assert a * sum + b * n == (a * q + b) * n;
  }

  lemma MeanAffine(s: seq<real>, t: seq<real>, a: real, b: real)
    requires |s| == |t| && s != []
    requires forall i :: 0 <= i < |s| ==> t[i] == a * s[i] + b
    ensures Mean(t) == a * Mean(s) + b
  {
    SumAffine(s, t, a, b);
    DividedAffine(Sum(s), |s| as real, a, b);
  }

  lemma {:induction false} SumBounded(s: seq<real>, lo: real, hi: real)
    requires forall i :: 0 <= i < |s| ==> lo <= s[i] <= hi
    ensures lo * (|s| as real) <= Sum(s) <= hi * (|s| as real)
  {
    if s != [] {
      SumBounded(s[..|s| - 1], lo, hi);
    }
  }

  /** A mean never leaves the range of its elements. */
  lemma MeanBounded(s: seq<real>, lo: real, hi: real)
    requires s != []
    requires forall i :: 0 <= i < |s| ==> lo <= s[i] <= hi
    ensures lo <= Mean(s) <= hi
  {
    SumBounded(s, lo, hi);
    var n := |s| as real;
    assert Mean(s) * n == Sum(s);
  }

  lemma ScaleMonotone(a: real, b: real, f: real)
    requires a <= b && f >= 0.0
    ensures a * f <= b * f
  {
  }

  lemma ScaleStrict(a: real, b: real, f: real)
    requires f > 0.0
    ensures a < b <==> a * f < b * f
  {
  }

  /** A fraction of an interval is no longer than the interval. */
  lemma FractionOfDifference(a: real, b: real, f: real)
    requires a <= b && 0.0 <= f <= 1.0
    ensures b * f - a * f <= b - a
  {
    var p, q := a * f, b * f;
    var x, y := a * (1.0 - f), b * (1.0 - f);
    assert x == a - p && y == b - q;
    assert x <= y by { ScaleMonotone(a, b, 1.0 - f); }
  }
}
