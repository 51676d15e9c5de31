/** Finite sums of reals, taken from the front of a sequence to its back,
    in the order the plugin's accumulation loops add them. */
module Sums {

  function Sum(xs: seq<real>): (r: real)
  {
    if xs == [] then 0.0 else Sum(xs[..|xs| - 1]) + xs[|xs| - 1]
  }

  /** Pointwise sum of two sequences of the same length. */
  function Add(xs: seq<real>, ys: seq<real>): (r: seq<real>)
    requires |xs| == |ys|
    ensures |r| == |xs|
    ensures forall i :: 0 <= i < |r| ==> r[i] == xs[i] + ys[i]
  {
    seq(|xs|, i requires 0 <= i < |xs| => xs[i] + ys[i])
  }

  /** Every element divided by the same non-zero divisor. */
  function DividedBy(xs: seq<real>, t: real): (r: seq<real>)
    requires t != 0.0
    ensures |r| == |xs|
    ensures forall i :: 0 <= i < |r| ==> r[i] == xs[i] / t
  {
    seq(|xs|, i requires 0 <= i < |xs| => xs[i] / t)
  }

  lemma {:induction false} SumOfZeros(xs: seq<real>)
    requires forall i :: 0 <= i < |xs| ==> xs[i] == 0.0
    ensures Sum(xs) == 0.0
  {
    if xs != [] {
      SumOfZeros(xs[..|xs| - 1]);
    }
  }

  lemma {:induction false} SumNonNegative(xs: seq<real>)
    requires forall i :: 0 <= i < |xs| ==> 0.0 <= xs[i]
    ensures 0.0 <= Sum(xs)
  {
    if xs != [] {
      SumNonNegative(xs[..|xs| - 1]);
    }
  }

  /** A sequence that is 1.0 at one position and 0.0 everywhere else sums to 1.0. */
  lemma {:induction false} SumOfUnit(xs: seq<real>, b: int)
    requires 0 <= b < |xs| && xs[b] == 1.0
    requires forall i :: 0 <= i < |xs| && i != b ==> xs[i] == 0.0
    ensures Sum(xs) == 1.0
  {
    var init := xs[..|xs| - 1];
    if b == |xs| - 1 {
      SumOfZeros(init);
    } else {
      SumOfUnit(init, b);
    }
  }

  lemma {:induction false} SumOfAdd(xs: seq<real>, ys: seq<real>)
    requires |xs| == |ys|
    ensures Sum(Add(xs, ys)) == Sum(xs) + Sum(ys)
  {
    if xs != [] {
      var n := |xs|;
      assert Add(xs, ys)[..n - 1] == Add(xs[..n - 1], ys[..n - 1]);
      SumOfAdd(xs[..n - 1], ys[..n - 1]);
    }
  }

  lemma {:induction false} SumOfDividedBy(xs: seq<real>, t: real)
    requires t != 0.0
    ensures Sum(DividedBy(xs, t)) == Sum(xs) / t
  {
    if xs != [] {
      var n := |xs|;
      assert DividedBy(xs, t)[..n - 1] == DividedBy(xs[..n - 1], t);
      SumOfDividedBy(xs[..n - 1], t);
      assert Sum(xs[..n - 1]) / t + xs[n - 1] / t == (Sum(xs[..n - 1]) + xs[n - 1]) / t;
    }
  }

  /** Extending a slice by one element adds that element to its sum. */
  lemma SumOfSliceStep(xs: seq<real>, lo: int, hi: int)
    requires 0 <= lo <= hi < |xs|
    ensures Sum(xs[lo..hi + 1]) == Sum(xs[lo..hi]) + xs[hi]
  {
    assert xs[lo..hi + 1][..hi - lo] == xs[lo..hi];
  }
}
