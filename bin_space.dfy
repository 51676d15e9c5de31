/** The bin edges of the output-amount histogram: 0.0 first, then 200
    log-spaced values in each of the twelve decades from 1e-6 to 1e6 BTC. */
module BinSpace {

  const FirstExponent: int := -6
  const LastExponent: int := 6
  const BinsPerDecade: int := 200
  /** 1 zero bin + 12 decades x 200 subdivisions. */
  const NumBins: int := 1 + (LastExponent - FirstExponent) * BinsPerDecade

  /** The edges the rest of the pipeline relies on: the right length,
      0.0 first, and each edge strictly below the next. */
  predicate ValidEdges(edges: seq<real>)
  {
    |edges| == NumBins && edges[0] == 0.0 &&
    forall k :: 0 <= k < |edges| - 1 ==> edges[k] < edges[k + 1]
  }

  /** The k-th log-spaced value, `10 ** (exponent + b/200)`, where `pow(exponent, b)`
      stands for the floating-point power the plugin computes. */
  function Grid(pow: (int, int) -> real, k: int): (r: real)
  {
    pow(k / BinsPerDecade + FirstExponent, k % BinsPerDecade)
  }

  /** What the edges need of the power function: positive and increasing along the grid. */
  predicate LogSpaced(pow: (int, int) -> real)
  {
    0.0 < Grid(pow, 0) &&
    forall k :: 0 <= k < NumBins - 2 ==> Grid(pow, k) < Grid(pow, k + 1)
  }

  lemma GridIndex(pow: (int, int) -> real, exponent: int, b: int)
    requires FirstExponent <= exponent && 0 <= b < BinsPerDecade
    ensures Grid(pow, (exponent - FirstExponent) * BinsPerDecade + b) == pow(exponent, b)
  {
    var k := (exponent - FirstExponent) * BinsPerDecade + b;
    assert k / BinsPerDecade == exponent - FirstExponent && k % BinsPerDecade == b;
  }

  /** Builds the edge list by appending, decade by decade. */
  method BuildEdges(pow: (int, int) -> real) returns (edges: seq<real>)
    ensures |edges| == NumBins && edges[0] == 0.0
    ensures forall k :: 0 <= k < NumBins - 1 ==> edges[k + 1] == Grid(pow, k)
    ensures LogSpaced(pow) ==> ValidEdges(edges)
  {
    edges := [0.0];
    for exponent := FirstExponent to LastExponent
      invariant |edges| == 1 + (exponent - FirstExponent) * BinsPerDecade
      invariant edges[0] == 0.0
      invariant forall k :: 0 <= k < |edges| - 1 ==> edges[k + 1] == Grid(pow, k)
    {
      for b := 0 to BinsPerDecade
        invariant |edges| == 1 + (exponent - FirstExponent) * BinsPerDecade + b
        invariant edges[0] == 0.0
        invariant forall k :: 0 <= k < |edges| - 1 ==> edges[k + 1] == Grid(pow, k)
      {
        GridIndex(pow, exponent, b);
        edges := edges + [pow(exponent, b)];
      }
    }
    if LogSpaced(pow) {
      forall k | 0 <= k < |edges| - 1
        ensures edges[k] < edges[k + 1]
      {
        assert edges[k + 1] == Grid(pow, k);
        if k > 0 {
          assert edges[k] == Grid(pow, k - 1) < Grid(pow, k);
        }
      }
    }
  }

  /** Strictly increasing between neighbours means strictly increasing between any two edges. */
  lemma {:induction false} EdgesIncreasing(edges: seq<real>, i: int, j: int)
    requires ValidEdges(edges)
    requires 0 <= i < j < |edges|
    ensures edges[i] < edges[j]
    decreases j - i
  {
    if i + 1 < j {
      EdgesIncreasing(edges, i, j - 1);
    }
  }

  /** Every edge after the zero edge is positive. */
  lemma EdgesPositive(edges: seq<real>, i: int)
    requires ValidEdges(edges)
    requires 0 < i < |edges|
    ensures 0.0 < edges[i]
  {
    EdgesIncreasing(edges, 0, i);
  }
}
