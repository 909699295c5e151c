/** Shared vocabulary of the model: optional values (pandas' missing values),
    results (Python exceptions), and the arithmetic helpers numpy supplies
    (sum, mean, clip) stated over reals. */
module Common {

  datatype Option<+T> = None | Some(value: T)

  /** The exceptions the modelled code raises, named by their cause. */
  datatype Error =
    | BoundsInverted          // scipy: the lower bound exceeds the upper bound
    | ZeroReferencePrice      // a price divided by a zero reference price
    | NotTrained              // predict_demand before train
    | MissingColumn(name: string)
    | EmptyInput              // sklearn: an array with 0 samples
    | LengthMismatch          // pandas: all arrays must be of the same length
    | TooFewSamples           // TimeSeriesSplit: more folds than samples
    | FileNotFound(path: string)
    | TypeError               // aggregation over a non-numeric column
    | NotANumber(text: string) // float() of an unparseable string

  datatype Result<+T> = Success(value: T) | Failure(error: Error)

  function Sum(s: seq<real>): real
  {
    if s == [] then 0.0 else Sum(s[..|s| - 1]) + s[|s| - 1]
  }

  /** numpy's mean of a non-empty sequence. */
  function Mean(s: seq<real>): real
    requires |s| > 0
  {
    Sum(s) / (|s| as real)
  }

  function MaxOf(s: seq<real>): (m: real)
    requires |s| > 0
    ensures forall i :: 0 <= i < |s| ==> s[i] <= m
    ensures exists i :: 0 <= i < |s| && s[i] == m
  {
    if |s| == 1 then s[0]
    else
      var m' := MaxOf(s[..|s| - 1]);
      assert forall i :: 0 <= i < |s| - 1 ==> s[..|s| - 1][i] == s[i];
      if s[|s| - 1] > m' then s[|s| - 1] else m'
  }

  function MinOf(s: seq<real>): (m: real)
    requires |s| > 0
    ensures forall i :: 0 <= i < |s| ==> m <= s[i]
    ensures exists i :: 0 <= i < |s| && s[i] == m
  {
    if |s| == 1 then s[0]
    else
      var m' := MinOf(s[..|s| - 1]);
      assert forall i :: 0 <= i < |s| - 1 ==> s[..|s| - 1][i] == s[i];
      if s[|s| - 1] < m' then s[|s| - 1] else m'
  }

  /** The sum of values that all lie in [lo, hi] lies in [n·lo, n·hi]. */
  lemma {:induction false} SumBounds(s: seq<real>, lo: real, hi: real)
    requires forall i :: 0 <= i < |s| ==> lo <= s[i] <= hi
    ensures (|s| as real) * lo <= Sum(s) <= (|s| as real) * hi
  {
    if s != [] {
      var init := s[..|s| - 1];
      assert forall i :: 0 <= i < |init| ==> init[i] == s[i];
      SumBounds(init, lo, hi);
      assert (|s| as real) * lo == (|init| as real) * lo + lo;
      assert (|s| as real) * hi == (|init| as real) * hi + hi;
    }
  }

  /** Dividing by a positive count keeps a scaled bound. */
  lemma {:induction false} DivideBound(a: real, b: real, n: real)
    requires n > 0.0
    ensures n * b <= a ==> b <= a / n
    ensures a <= n * b ==> a / n <= b
  {
    assert a == (a / n) * n;
  }

  /** A factor between lo and hi scales x to between lo·x and hi·x, in an
      order that depends on the sign of x. */
  lemma {:induction false} ScaleBounds(x: real, d: real, lo: real, hi: real)
    requires lo <= d <= hi
    ensures x >= 0.0 ==> lo * x <= x * d
    ensures x >= 0.0 ==> x * d <= hi * x
    ensures x <= 0.0 ==> hi * x <= x * d
    ensures x <= 0.0 ==> x * d <= lo * x
  {
    assert x * d - lo * x == x * (d - lo);
    assert hi * x - x * d == x * (hi - d);
  }

  /** Bounds on every value bound the mean. */
  lemma {:induction false} MeanBounds(s: seq<real>, lo: real, hi: real)
    requires |s| > 0
    requires forall i :: 0 <= i < |s| ==> lo <= s[i] <= hi
    ensures lo <= Mean(s) <= hi
  {
    SumBounds(s, lo, hi);
    DivideBound(Sum(s), lo, |s| as real);
    DivideBound(Sum(s), hi, |s| as real);
  }

  /** The mean of a non-empty sequence lies between its minimum and maximum. */
  lemma {:induction false} MeanBetweenMinAndMax(s: seq<real>)
    requires |s| > 0
    ensures MinOf(s) <= Mean(s) <= MaxOf(s)
  {
    MeanBounds(s, MinOf(s), MaxOf(s));
  }

  /** The mean of non-negative values is non-negative. */
  lemma {:induction false} MeanNonNegative(s: seq<real>)
    requires |s| > 0
    requires forall i :: 0 <= i < |s| ==> s[i] >= 0.0
    ensures Mean(s) >= 0.0
  {
    MeanBounds(s, 0.0, MaxOf(s));
  }

  /** numpy's clip of one value into [lo, hi]. */
  function Clip(x: real, lo: real, hi: real): (r: real)
    requires lo <= hi
    ensures lo <= r <= hi
    ensures lo <= x <= hi ==> r == x
    ensures x < lo ==> r == lo
    ensures x > hi ==> r == hi
  {
    if x < lo then lo else if x > hi then hi else x
  }

  /** Clipping never reverses the order of two values. */
  lemma {:induction false} ClipMonotone(x: real, y: real, lo: real, hi: real)
    requires lo <= hi && x <= y
    ensures Clip(x, lo, hi) <= Clip(y, lo, hi)
  {
  }

  function Max(a: real, b: real): real { if a >= b then a else b }

  function Min(a: real, b: real): real { if a <= b then a else b }
}
