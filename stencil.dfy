/** The calibrated signature of round-USD amounts: a weight at each of 40 bins,
    zero at every other bin. Kept sparse, as offset to weight. */
module ReferenceStencil {
  import opened BinSpace

  const Weights: map<int, real> := map[
    401 := 0.0005957955691168063,    // $1
    402 := 0.0004454790662303128,
    429 := 0.0001763099393598914,    // $1.50
    430 := 0.0001851801497144573,
    461 := 0.0006205616481885794,    // $2
    462 := 0.0005985696860584984,
    496 := 0.0006919505728046619,    // $3
    497 := 0.0008912933078342840,
    540 := 0.0009372916238804205,    // $5
    541 := 0.0017125522985034724,
    600 := 0.0021702347223143030,
    601 := 0.0037018622326411380,    // $10
    602 := 0.0027322168706743802,
    603 := 0.0016268322583097678,
    604 := 0.0012601953416497664,
    661 := 0.0041425242880295460,    // $20
    662 := 0.0039247767475640830,
    696 := 0.0032399441632017228,    // $30
    697 := 0.0037112959007355585,
    740 := 0.0049921908828370000,    // $50
    741 := 0.0070636869018197105,
    801 := 0.0080000000000000000,    // $100
    802 := 0.0065431388282424440,
    803 := 0.0044279509203361735,
    861 := 0.0046132440551747015,    // $200
    862 := 0.0043647851395531140,
    896 := 0.0031980892880846567,    // $300
    897 := 0.0034237641632481910,
    939 := 0.0025995335505435034,    // $500
    940 := 0.0032631930982226645,
    941 := 0.0042753262790881080,
    1001 := 0.0037699501474772350,   // $1,000
    1002 := 0.0030872891064215764,
    1003 := 0.0023237040836798163,
    1061 := 0.0023671764210889895,   // $2,000
    1062 := 0.0020106877104798474,
    1140 := 0.0009099214128654502,   // $3,000
    1141 := 0.0012008546799361498,
    1201 := 0.0007862586076341524,   // $10,000
    1202 := 0.0006900048077192579
  ]

  /** The stencil as one weight per bin, the form the slide score multiplies in. */
  function RoundUsdStencil(): (st: seq<real>)
    ensures |st| == NumBins
    ensures forall i :: i in Weights ==> 0 <= i < NumBins && st[i] == Weights[i]
    ensures forall i :: 0 <= i < NumBins && i !in Weights ==> st[i] == 0.0
  {
    seq(NumBins, i requires 0 <= i < NumBins => if i in Weights then Weights[i] else 0.0)
  }

  /** The weights are positive and sit between bins 401 and 1202, inside the
      scored range 201..1400; every other entry of the stencil is zero. */
  lemma StencilSupport()
    ensures forall i :: i in Weights ==> 401 <= i <= 1202 && 0.0 < Weights[i]
    ensures forall i :: 0 <= i < NumBins ==> 0.0 <= RoundUsdStencil()[i]
    ensures forall i :: 0 <= i < NumBins && RoundUsdStencil()[i] != 0.0 ==> 401 <= i <= 1202
  {
  }

  /** The stencil has 40 weights, at 40 distinct bins. */
  lemma WeightCount()
    ensures |Weights| == 40
  {
    var bins := [401, 402, 429, 430, 461, 462, 496, 497, 540, 541, 600, 601, 602, 603, 604, 661, 662, 696, 697, 740, 741, 801, 802, 803, 861, 862, 896, 897, 939, 940, 941, 1001, 1002, 1003, 1061, 1062, 1140, 1141, 1201, 1202];
    DistinctCount(bins);
    assert Weights.Keys == set x | x in bins;
  }

  /** A strictly increasing list has as many distinct elements as entries. */
  lemma {:induction false} DistinctCount(xs: seq<int>)
    requires forall i :: 0 < i < |xs| ==> xs[i-1] < xs[i]
    ensures |set x | x in xs| == |xs|
  {
    if xs != [] {
      var init, last := xs[..|xs|-1], xs[|xs|-1];
      DistinctCount(init);
      LastIsNew(xs);
      assert xs == init + [last];
      assert (set x | x in xs) == (set x | x in init) + {last};
    }
  }

  /** The last entry of a non-empty strictly increasing list occurs nowhere before it. */
  lemma LastIsNew(xs: seq<int>)
    requires forall i :: 0 < i < |xs| ==> xs[i-1] < xs[i]
    requires xs != []
    ensures xs[|xs|-1] !in xs[..|xs|-1]
  {
    forall i | 0 <= i < |xs| - 1
      ensures xs[i] < xs[|xs|-1]
    {
      Below(xs, i, |xs|-1);
    }
  }

  /** Entries of a strictly increasing list increase over any distance. */
  lemma {:induction false} Below(xs: seq<int>, i: int, j: int)
    requires forall k :: 0 < k < |xs| ==> xs[k-1] < xs[k]
    requires 0 <= i < j < |xs|
    ensures xs[i] < xs[j]
    decreases j - i
  {
    if i + 1 < j { Below(xs, i + 1, j); }
  }
}
