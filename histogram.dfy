/** Accumulation of output amounts into the bins of the edge list. */
module Histogram {
  import opened Results
  import opened Sums
  import opened BinSpace

  /** Amounts outside the open interval (1e-6, 1e6) BTC are not counted. */
  const MinAmount: real := 0.000001
  const MaxAmount: real := 1000000.0

  predicate Accepted(amount: real)
  {
    MinAmount < amount < MaxAmount
  }

  /** Bin `i` is the half-open interval [edges[i], edges[i+1]). */
  predicate InBin(edges: seq<real>, i: int, amount: real)
  {
    0 <= i < |edges| - 1 && edges[i] <= amount < edges[i + 1]
  }

  /** What the plugin relies on of the estimated starting index that the
      log10 projection yields: it lies inside the list and is not past the true bin. */
  predicate SoundEstimate(edges: seq<real>, amount: real, est: int)
  {
    0 <= est < |edges| && (est == 0 || edges[est - 1] <= amount)
  }

  /** Every accepted amount lies below the last edge, so that the forward scan stops inside the list. */
  predicate BelowLastEdge(edges: seq<real>, amounts: seq<real>)
    requires |edges| > 0
  {
    forall a :: a in amounts && Accepted(a) ==> a < edges[|edges| - 1]
  }

  lemma BinUnique(edges: seq<real>, i: int, j: int, amount: real)
    requires ValidEdges(edges)
    requires InBin(edges, i, amount) && InBin(edges, j, amount)
    ensures i == j
  {
    if i + 1 < j {
      EdgesIncreasing(edges, i + 1, j);
    } else if j + 1 < i {
      EdgesIncreasing(edges, j + 1, i);
    }
  }

  /** Every amount from the zero edge up to (not including) the last edge has a bin. */
  lemma BinExists(edges: seq<real>, amount: real) returns (b: int)
    requires ValidEdges(edges)
    requires 0.0 <= amount < edges[|edges| - 1]
    ensures InBin(edges, b, amount)
  {
    b := 0;
    while edges[b + 1] <= amount
      invariant 0 <= b < |edges| - 1 && edges[b] <= amount
      decreases |edges| - b
    {
      b := b + 1;
    }
  }

  /** The forward-only correction of the estimated bin: step up while the edge
      at the estimate is at or below the amount; the bin is one below where it stops.
      Scanning past the last edge is the plugin's index error. */
  method FindBin(edges: seq<real>, amount: real, estimate: int) returns (result: Result<int>)
    requires ValidEdges(edges) && Accepted(amount)
    requires SoundEstimate(edges, amount, estimate)
    ensures result.Ok? <==> amount < edges[|edges| - 1]
    ensures result.Err? ==> result.error == AmountBeyondLastEdge
    ensures result.Ok? ==> InBin(edges, result.value, amount) && estimate <= result.value + 1
  {
    var est := estimate;
    while est < |edges| && edges[est] <= amount
      invariant estimate <= est <= |edges|
      invariant est == 0 || edges[est - 1] <= amount
      decreases |edges| - est
    {
      est := est + 1;
    }
    if est == |edges| {
      return Err(AmountBeyondLastEdge);
    }
    if est < |edges| - 1 {
      EdgesIncreasing(edges, est, |edges| - 1);
    }
    return Ok(est - 1);
  }

  /** 1.0 when the amount is accepted and falls in bin `i`, else 0.0. */
  function Indicator(edges: seq<real>, amount: real, i: int): (r: real)
  {
    if Accepted(amount) && InBin(edges, i, amount) then 1.0 else 0.0
  }

  function AcceptedCount(amounts: seq<real>): (n: nat)
    ensures n <= |amounts|
  {
    if amounts == [] then 0
    else AcceptedCount(amounts[..|amounts| - 1]) + (if Accepted(amounts[|amounts| - 1]) then 1 else 0)
  }

  /** The number of accepted amounts that fall in bin `i`. */
  function Tally(edges: seq<real>, amounts: seq<real>, i: int): (n: real)
    ensures 0.0 <= n <= AcceptedCount(amounts) as real
  {
    if amounts == [] then 0.0
    else Tally(edges, amounts[..|amounts| - 1], i) + Indicator(edges, amounts[|amounts| - 1], i)
  }

  /** The histogram the plugin intends: one tally per bin. */
  function Tallies(edges: seq<real>, amounts: seq<real>): (counts: seq<real>)
    ensures |counts| == |edges|
    ensures forall i :: 0 <= i < |counts| ==> counts[i] == Tally(edges, amounts, i)
  {
    seq(|edges|, i requires 0 <= i < |edges| => Tally(edges, amounts, i))
  }

  /** The count list of the plugin: one 0.0 per bin. */
  method NewCounts(n: nat) returns (counts: array<real>)
    ensures fresh(counts) && counts.Length == n
    ensures forall i :: 0 <= i < n ==> counts[i] == 0.0
  {
    counts := new real[n];
    for i := 0 to n
      invariant forall k :: 0 <= k < i ==> counts[k] == 0.0
    {
      counts[i] := 0.0;
    }
  }

  /** Adds every accepted amount to its bin, in order; stops with a failure at the
      first accepted amount at or beyond the last edge. `estimate` stands for the
      log10 projection of an amount onto the bin indices. */
  method Accumulate(edges: seq<real>, counts: array<real>, amounts: seq<real>, estimate: real -> int)
    returns (outcome: Outcome)
    requires ValidEdges(edges) && counts.Length == |edges|
    requires forall a :: a in amounts && Accepted(a) ==> SoundEstimate(edges, a, estimate(a))
    modifies counts
    ensures outcome.Pass? <==> BelowLastEdge(edges, amounts)
    ensures outcome.Fail? ==> outcome.error == AmountBeyondLastEdge
    ensures outcome.Pass? ==>
      forall i :: 0 <= i < counts.Length ==> counts[i] == old(counts[i]) + Tally(edges, amounts, i)
  {
    for k := 0 to |amounts|
      invariant BelowLastEdge(edges, amounts[..k])
      invariant forall i :: 0 <= i < counts.Length ==> counts[i] == old(counts[i]) + Tally(edges, amounts[..k], i)
    {
      var amount := amounts[k];
      assert amounts[..k + 1][..k] == amounts[..k];
      assert amount in amounts;
      if Accepted(amount) {
        var bin := FindBin(edges, amount, estimate(amount));
        if bin.Err? {
          return Fail(AmountBeyondLastEdge);
        }
        forall i | 0 <= i < counts.Length && i != bin.value
          ensures !InBin(edges, i, amount)
        {
          if InBin(edges, i, amount) {
            BinUnique(edges, i, bin.value, amount);
          }
        }
        counts[bin.value] := counts[bin.value] + 1.0;
      }
    }
    assert amounts[..|amounts|] == amounts;
    return Pass;
  }

  /** Adding one amount adds its indicator vector to the tallies. */
  lemma TalliesStep(edges: seq<real>, amounts: seq<real>, amount: real)
    ensures Tallies(edges, amounts + [amount])
         == Add(Tallies(edges, amounts), seq(|edges|, i requires 0 <= i < |edges| => Indicator(edges, amount, i)))
  {
    assert (amounts + [amount])[..|amounts|] == amounts;
  }

  /** The indicator vector of an amount sums to 1.0 when it is counted and to 0.0 otherwise. */
  lemma IndicatorTotal(edges: seq<real>, amount: real)
    requires ValidEdges(edges)
    requires Accepted(amount) ==> amount < edges[|edges| - 1]
    ensures Sum(seq(|edges|, i requires 0 <= i < |edges| => Indicator(edges, amount, i)))
         == if Accepted(amount) then 1.0 else 0.0
  {
    var v := seq(|edges|, i requires 0 <= i < |edges| => Indicator(edges, amount, i));
    if Accepted(amount) {
      var b := BinExists(edges, amount);
      forall i | 0 <= i < |v| && i != b
        ensures v[i] == 0.0
      {
        if InBin(edges, i, amount) {
          BinUnique(edges, i, b, amount);
        }
      }
      SumOfUnit(v, b);
    } else {
      SumOfZeros(v);
    }
  }

  /** The histogram holds exactly one count per accepted amount. */
  lemma {:induction false} HistogramTotal(edges: seq<real>, amounts: seq<real>)
    requires ValidEdges(edges)
    requires BelowLastEdge(edges, amounts)
    ensures Sum(Tallies(edges, amounts)) == AcceptedCount(amounts) as real
  {
    if amounts == [] {
      SumOfZeros(Tallies(edges, amounts));
    } else {
      var init, last := amounts[..|amounts| - 1], amounts[|amounts| - 1];
      assert amounts == init + [last];
      assert last in amounts;
      assert BelowLastEdge(edges, init) by {
        forall a | a in init && Accepted(a) ensures a < edges[|edges| - 1] {
          assert a in amounts;
        }
      }
      HistogramTotal(edges, init);
      TalliesStep(edges, init, last);
      SumOfAdd(Tallies(edges, init), seq(|edges|, i requires 0 <= i < |edges| => Indicator(edges, last, i)));
      IndicatorTotal(edges, last);
    }
  }

  /** With no accepted amount every bin is empty. */
  lemma NoAcceptedAmountsEmptyBins(edges: seq<real>, amounts: seq<real>)
    requires AcceptedCount(amounts) == 0
    ensures forall i :: 0 <= i < |edges| ==> Tallies(edges, amounts)[i] == 0.0
  {
  }
}
