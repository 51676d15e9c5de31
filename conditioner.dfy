/** The four conditioning steps applied in place to the count array:
    clipping, round-BTC smoothing, normalisation and clamping. */
module Conditioner {
  import opened Results
  import opened Sums
  import opened BinSpace

  /** Counts below index 401 (under 10k sats) and from 1601 on (above 10 BTC) are dropped. */
  const ClipLow: int := 401
  const ClipHigh: int := 1601
  /** The window that is normalised, and that the slides read from. */
  const WindowLow: int := 201
  const WindowHigh: int := 1601
  /** No normalised count may exceed this. */
  const Ceiling: real := 0.008

  /** Bins of round BTC amounts, from 1k sats to 1 BTC, in the order they are smoothed. */
  const RoundBins: seq<int> :=
    [201, 401, 461, 496, 540, 601, 661, 696, 740, 801, 861, 896, 940, 1001, 1061, 1096, 1140, 1201]

  function Clipped(s: seq<real>): (r: seq<real>)
    ensures |r| == |s|
  {
    seq(|s|, i requires 0 <= i < |s| => if i < ClipLow || ClipHigh <= i then 0.0 else s[i])
  }

  /** Zeroes [0, 401) and [1601, len), leaving 401..1600 as they were. */
  method Clip(counts: array<real>)
    requires counts.Length == NumBins
    modifies counts
    ensures counts[..] == Clipped(old(counts[..]))
  {
    for n := 0 to ClipLow
      invariant forall i :: 0 <= i < counts.Length ==> counts[i] == if i < n then 0.0 else old(counts[i])
    {
      counts[n] := 0.0;
    }
    for n := ClipHigh to counts.Length
      invariant forall i :: 0 <= i < counts.Length ==>
        counts[i] == if i < ClipLow || ClipHigh <= i < n then 0.0 else old(counts[i])
    {
      counts[n] := 0.0;
    }
  }

  /** No two round bins are neighbours, and each has both neighbours inside the histogram. */
  lemma RoundBinsApart()
    ensures forall r :: r in RoundBins ==> WindowLow <= r <= 1201 && r - 1 !in RoundBins && r + 1 !in RoundBins
  {
  }

  /** Bins whose two neighbours both lie inside the histogram. */
  predicate Smoothable(bins: seq<int>)
  {
    forall b :: b in bins ==> 0 < b < NumBins - 1
  }

  /** The listed bins replaced at once by the average of their two neighbours. */
  function SmoothedAt(s: seq<real>, bins: seq<int>): (r: seq<real>)
    requires |s| == NumBins && Smoothable(bins)
    ensures |r| == |s|
  {
    seq(|s|, i requires 0 <= i < |s| => if i in bins then 0.5 * (s[i + 1] + s[i - 1]) else s[i])
  }

  /** All round bins replaced at once by the average of their two neighbours. */
  function Smoothed(s: seq<real>): (r: seq<real>)
    requires |s| == NumBins
    ensures |r| == |s|
    ensures forall i :: 0 <= i < |s| && i !in RoundBins ==> r[i] == s[i]
  {
    RoundBinsApart();
    SmoothedAt(s, RoundBins)
  }

  /** Bins that are smoothable and of which no two are neighbours. */
  predicate Apart(bins: seq<int>)
  {
    Smoothable(bins) && forall b :: b in bins ==> b + 1 !in bins && b - 1 !in bins
  }

  /** Smoothing one more bin whose neighbours are not yet smoothed reads them unchanged,
      so the simultaneous update grows by one in-place step. */
  lemma SmoothStep(s: seq<real>, done: seq<int>, r: int)
    requires |s| == NumBins && Smoothable(done) && 0 < r < NumBins - 1
    requires r + 1 !in done && r - 1 !in done
    ensures Smoothable(done + [r])
    ensures var t := SmoothedAt(s, done);
      SmoothedAt(s, done + [r]) == t[r := 0.5 * (t[r + 1] + t[r - 1])]
  {
  }

  /** Replaces the listed bins one after the other by the average of their neighbours.
      Because no two of them are neighbours, the result is the simultaneous update. */
  method SmoothBins(counts: array<real>, bins: seq<int>)
    requires counts.Length == NumBins && Apart(bins)
    modifies counts
    ensures counts[..] == SmoothedAt(old(counts[..]), bins)
  {
    ghost var s := counts[..];
    assert bins[..0] == [];
    for k := 0 to |bins|
      invariant Smoothable(bins[..k]) && counts[..] == SmoothedAt(s, bins[..k])
    {
      var r := bins[k];
      assert bins[..k + 1] == bins[..k] + [r];
      assert r in bins && forall i :: i in bins[..k] ==> i in bins;
      SmoothStep(s, bins[..k], r);
      counts[r] := 0.5 * (counts[r + 1] + counts[r - 1]);
    }
    assert bins[..|bins|] == bins;
  }

  /** Smooths the round bins one after the other, as the plugin does. Because no two
      round bins are neighbours, the result is the simultaneous update `Smoothed`. */
  method SmoothRoundBins(counts: array<real>)
    requires counts.Length == NumBins
    modifies counts
    ensures counts[..] == Smoothed(old(counts[..]))
  {
    RoundBinsApart();
    SmoothBins(counts, RoundBins);
  }

  /** Bin 201 is a round bin inside the clipped region, so it ends up 0.0. */
  lemma FirstRoundBinVanishes(s: seq<real>)
    requires |s| == NumBins
    ensures Smoothed(Clipped(s))[201] == 0.0
  {
  }

  /** The sum of the informative window [201, 1601). */
  function CurveTotal(s: seq<real>): (r: real)
    requires |s| == NumBins
  {
    Sum(s[WindowLow..WindowHigh])
  }

  /** The running sum the plugin keeps over the window; reads the counts only. */
  method CurveSum(counts: array<real>) returns (total: real)
    requires counts.Length == NumBins
    ensures total == Sum(counts[WindowLow..WindowHigh])
  {
    total := 0.0;
    for n := WindowLow to WindowHigh
      invariant total == Sum(counts[WindowLow..n])
    {
      SumOfSliceStep(counts[..], WindowLow, n);
      assert counts[..][WindowLow..n] == counts[WindowLow..n];
      assert counts[..][WindowLow..n + 1] == counts[WindowLow..n + 1];
      total := total + counts[n];
    }
  }

  /** The window divided by its total, before clamping. */
  function Scaled(s: seq<real>, total: real): (r: seq<real>)
    requires total != 0.0
    ensures |r| == |s|
  {
    seq(|s|, i requires 0 <= i < |s| => if WindowLow <= i < WindowHigh then s[i] / total else s[i])
  }

  function Clamp(x: real): (r: real)
    ensures r <= Ceiling
    ensures r == x || (x > Ceiling && r == Ceiling)
  {
    if x > Ceiling then Ceiling else x
  }

  /** The window divided by its total, each value then clamped to the ceiling. */
  function Normalised(s: seq<real>): (r: seq<real>)
    requires |s| == NumBins && CurveTotal(s) != 0.0
    ensures |r| == |s|
  {
    var scaled := Scaled(s, CurveTotal(s));
    seq(|s|, i requires 0 <= i < |s| => if WindowLow <= i < WindowHigh then Clamp(scaled[i]) else s[i])
  }

  /** Divides the window by its sum and clamps each value. A zero sum is the
      plugin's division by zero: the counts are left alone and the run fails. */
  method NormaliseAndClamp(counts: array<real>) returns (outcome: Outcome)
    requires counts.Length == NumBins
    modifies counts
    ensures outcome.Fail? <==> CurveTotal(old(counts[..])) == 0.0
    ensures outcome.Fail? ==> outcome.error == InsufficientData && counts[..] == old(counts[..])
    ensures outcome.Pass? ==> counts[..] == Normalised(old(counts[..]))
  {
    var curveSum := CurveSum(counts);
    assert counts[..][WindowLow..WindowHigh] == counts[WindowLow..WindowHigh];
    if curveSum == 0.0 {
      return Fail(InsufficientData);
    }
    for n := WindowLow to WindowHigh
      invariant forall i :: 0 <= i < counts.Length ==>
        counts[i] == if WindowLow <= i < n then Clamp(old(counts[i]) / curveSum) else old(counts[i])
    {
      counts[n] := counts[n] / curveSum;
      if counts[n] > Ceiling {
        counts[n] := Ceiling;
      }
    }
    return Pass;
  }

  /** Before clamping, the normalised window sums to one. */
  lemma ScaledSumsToOne(s: seq<real>)
    requires |s| == NumBins && CurveTotal(s) != 0.0
    ensures Sum(Scaled(s, CurveTotal(s))[WindowLow..WindowHigh]) == 1.0
  {
    var t := CurveTotal(s);
    assert Scaled(s, t)[WindowLow..WindowHigh] == DividedBy(s[WindowLow..WindowHigh], t);
    SumOfDividedBy(s[WindowLow..WindowHigh], t);
    assert Sum(s[WindowLow..WindowHigh]) == t;
    assert t / t == 1.0;
  }

  /** From non-negative counts, every normalised window value lies in [0, 0.008],
      and nothing outside the window changes. */
  lemma NormalisedBounds(s: seq<real>)
    requires |s| == NumBins && CurveTotal(s) != 0.0
    requires forall i :: 0 <= i < |s| ==> 0.0 <= s[i]
    ensures forall i :: WindowLow <= i < WindowHigh ==> 0.0 <= Normalised(s)[i] <= Ceiling
    ensures forall i :: 0 <= i < |s| && !(WindowLow <= i < WindowHigh) ==> Normalised(s)[i] == s[i]
  {
    SumNonNegative(s[WindowLow..WindowHigh]);
    var t := CurveTotal(s);
    forall i | WindowLow <= i < WindowHigh
      ensures 0.0 <= Normalised(s)[i]
    {
      assert 0.0 <= s[i] / t;
    }
  }

  /** Clipping and smoothing keep counts non-negative. */
  lemma ConditioningNonNegative(s: seq<real>)
    requires |s| == NumBins
    requires forall i :: 0 <= i < |s| ==> 0.0 <= s[i]
    ensures forall i :: 0 <= i < |s| ==> 0.0 <= Smoothed(Clipped(s))[i]
  {
  }
}
