/** Sliding the stencil over the conditioned counts, choosing the best slide
    and its better neighbour, and blending their implied prices. */
module Aligner {
  import opened Results
  import opened BinSpace
  import opened ReferenceStencil

  const MinSlide: int := -200
  const MaxSlide: int := 200
  const NumSlides: int := MaxSlide - MinSlide
  /** A slide reads the counts [201 + slide, 1401 + slide) against stencil entries 201..1400. */
  const WindowStart: int := 201
  const WindowWidth: int := 1200
  /** Bin of $100 in BTC in the unshifted stencil. */
  const AnchorBin: int := 801
  const AnchorUsd: real := 100.0

  /** The window of `slide` lies inside the counts. */
  predicate WindowInside(c: seq<real>, slide: int)
  {
    0 <= WindowStart + slide && WindowStart + slide + WindowWidth <= |c|
  }

  /** The first `n` products of a slide's window with the stencil, summed in index order. */
  function Dot(c: seq<real>, st: seq<real>, slide: int, n: int): (r: real)
    requires |st| == NumBins && WindowInside(c, slide) && 0 <= n <= WindowWidth
  {
    if n == 0 then 0.0
    else Dot(c, st, slide, n - 1) + c[WindowStart + slide + n - 1] * st[WindowStart + n - 1]
  }

  /** The score of a slide: sum over n < 1200 of c[201 + slide + n] * st[201 + n]. */
  function Score(c: seq<real>, st: seq<real>, slide: int): (r: real)
    requires |st| == NumBins && WindowInside(c, slide)
  {
    Dot(c, st, slide, WindowWidth)
  }

  /** Copies the window of `slide` and multiplies it into the stencil; reads the counts only. */
  method ScoreSlide(counts: array<real>, stencil: seq<real>, slide: int) returns (score: real)
    requires |stencil| == NumBins && WindowInside(counts[..], slide)
    ensures score == Score(counts[..], stencil, slide)
  {
    var shifted := counts[WindowStart + slide..WindowStart + WindowWidth + slide];
    score := 0.0;
    for n := 0 to |shifted|
      invariant score == Dot(counts[..], stencil, slide, n)
    {
      score := score + shifted[n] * stencil[n + WindowStart];
    }
  }

  /** Every window the plugin scores, the 400 slides and the neighbours of any of them, lies inside the counts. */
  lemma SlideWindowsInside(c: seq<real>)
    requires |c| == NumBins
    ensures forall slide :: MinSlide - 1 <= slide <= MaxSlide ==> WindowInside(c, slide)
  {
  }

  /** Counts under a zero stencil entry do not affect the partial dot product. */
  lemma {:induction false} DotOnSupport(c1: seq<real>, c2: seq<real>, st: seq<real>, slide: int, n: int)
    requires |st| == NumBins && WindowInside(c1, slide) && WindowInside(c2, slide) && 0 <= n <= WindowWidth
    requires forall k :: WindowStart <= k < WindowStart + n && st[k] != 0.0 ==> c1[k + slide] == c2[k + slide]
    ensures Dot(c1, st, slide, n) == Dot(c2, st, slide, n)
  {
    if n > 0 {
      DotOnSupport(c1, c2, st, slide, n - 1);
      var k := WindowStart + n - 1;
      assert st[k] != 0.0 ==> c1[k + slide] == c2[k + slide];
    }
  }

  /** A slide's score reads only the counts at the 40 stencil bins shifted by the slide. */
  lemma ScoreReadsStencilBinsOnly(c1: seq<real>, c2: seq<real>, slide: int)
    requires WindowInside(c1, slide) && WindowInside(c2, slide)
    requires forall k :: k in Weights ==> c1[k + slide] == c2[k + slide]
    ensures Score(c1, RoundUsdStencil(), slide) == Score(c2, RoundUsdStencil(), slide)
  {
    StencilSupport();
    DotOnSupport(c1, c2, RoundUsdStencil(), slide, WindowWidth);
  }

  /** The scores of the slides [-200, hi), summed in slide order. */
  function TotalScore(c: seq<real>, st: seq<real>, hi: int): (r: real)
    requires |c| == NumBins && |st| == NumBins && MinSlide <= hi <= MaxSlide
    decreases hi - MinSlide
  {
    if hi == MinSlide then 0.0 else TotalScore(c, st, hi - 1) + Score(c, st, hi - 1)
  }

  function Max(x: real, y: real): (r: real)
    ensures r >= x && r >= y && (r == x || r == y)
  {
    if x >= y then x else y
  }

  function Min(x: real, y: real): (r: real)
    ensures r <= x && r <= y && (r == x || r == y)
  {
    if x <= y then x else y
  }

  function Abs(x: real): (r: real)
    ensures r >= 0.0 && (r == x || r == -x)
  {
    if x < 0.0 then -x else x
  }

  /** The score the search ends with for `best`: its score when that is positive, else 0.0. */
  function Peak(c: seq<real>, st: seq<real>, best: int): (r: real)
    requires |c| == NumBins && |st| == NumBins && MinSlide <= best < MaxSlide
  {
    Max(0.0, Score(c, st, best))
  }

  /** `best` is the first slide whose score is strictly greater than every earlier score
      and than 0.0, and no later score beats it; when no score exceeds 0.0 it is slide 0. */
  predicate IsFirstBest(c: seq<real>, st: seq<real>, best: int)
    requires |c| == NumBins && |st| == NumBins
  {
    MinSlide <= best < MaxSlide &&
    (forall s :: MinSlide <= s < MaxSlide ==> Score(c, st, s) <= Peak(c, st, best)) &&
    (0.0 < Score(c, st, best) ==> forall s :: MinSlide <= s < best ==> Score(c, st, s) < Score(c, st, best)) &&
    (Score(c, st, best) <= 0.0 ==> best == 0)
  }

  /** At most one slide is the first best. */
  lemma FirstBestUnique(c: seq<real>, st: seq<real>, b1: int, b2: int)
    requires |c| == NumBins && |st| == NumBins
    requires IsFirstBest(c, st, b1) && IsFirstBest(c, st, b2)
    ensures b1 == b2
  {
    var s1, s2 := Score(c, st, b1), Score(c, st, b2);
    assert s1 <= Peak(c, st, b2) && s2 <= Peak(c, st, b1);
    if s1 > 0.0 && s2 > 0.0 {
      assert s1 == s2;
    }
  }

  /** The slide loop: scores every slide in [-200, 200), keeps the first strict
      maximum above 0.0, and sums the scores. Reads the counts only. */
  method BestSlide(counts: array<real>, stencil: seq<real>)
    returns (best: int, bestScore: real, total: real, numberOfScores: int)
    requires counts.Length == NumBins && |stencil| == NumBins
    ensures IsFirstBest(counts[..], stencil, best)
    ensures bestScore == Peak(counts[..], stencil, best)
    ensures total == TotalScore(counts[..], stencil, MaxSlide)
    ensures numberOfScores == NumSlides
  {
    ghost var c := counts[..];
    best, bestScore, total, numberOfScores := 0, 0.0, 0.0, 0;
    for slide := MinSlide to MaxSlide
      invariant numberOfScores == slide - MinSlide
      invariant total == TotalScore(c, stencil, slide)
      invariant 0.0 <= bestScore
      invariant forall s :: MinSlide <= s < slide ==> Score(c, stencil, s) <= bestScore
      invariant 0.0 < bestScore ==>
        MinSlide <= best < slide && Score(c, stencil, best) == bestScore &&
        forall s :: MinSlide <= s < best ==> Score(c, stencil, s) < bestScore
      invariant bestScore == 0.0 ==> best == 0
    {
      var slideScore := ScoreSlide(counts, stencil, slide);
      total := total + slideScore;
      numberOfScores := numberOfScores + 1;
      if slideScore > bestScore {
        bestScore := slideScore;
        best := slide;
      }
    }
  }

  /** A sum of scores that are each at most `m` is at most `m` times their number. */
  lemma {:induction false} TotalScoreBound(c: seq<real>, st: seq<real>, hi: int, m: real)
    requires |c| == NumBins && |st| == NumBins && MinSlide <= hi <= MaxSlide
    requires forall s :: MinSlide <= s < hi ==> Score(c, st, s) <= m
    ensures TotalScore(c, st, hi) <= (hi - MinSlide) as real * m
    decreases hi - MinSlide
  {
    if hi > MinSlide {
      TotalScoreBound(c, st, hi - 1, m);
    }
  }

  /** The mean score never exceeds the best score, so the best slide's weight is never negative. */
  lemma MeanAtMostPeak(c: seq<real>, st: seq<real>, best: int)
    requires |c| == NumBins && |st| == NumBins && IsFirstBest(c, st, best)
    ensures TotalScore(c, st, MaxSlide) / NumSlides as real <= Peak(c, st, best)
  {
    TotalScoreBound(c, st, MaxSlide, Peak(c, st, best));
  }

  datatype Neighbour = Neighbour(offset: int, score: real)

  /** The better of the two slides next to the best: up (+1) unless the down score is strictly greater. */
  function ChooseNeighbour(upScore: real, downScore: real): (n: Neighbour)
    ensures n.offset == -1 <==> downScore > upScore
    ensures n.offset == 1 || n.offset == -1
    ensures n.score == Max(upScore, downScore)
  {
    if downScore > upScore then Neighbour(-1, downScore) else Neighbour(1, upScore)
  }

  /** USD per BTC implied by a slide: $100 over the BTC amount at the shifted anchor bin. */
  function Rate(edges: seq<real>, slide: int): (r: real)
    requires ValidEdges(edges) && 0 < AnchorBin + slide < |edges|
    ensures 0.0 < r
  {
    EdgesPositive(edges, AnchorBin + slide);
    AnchorUsd / edges[AnchorBin + slide]
  }

  /** A higher slide reads a larger edge and so implies a lower price. */
  lemma RateDecreasing(edges: seq<real>, s: int, t: int)
    requires ValidEdges(edges) && 0 < AnchorBin + s < AnchorBin + t < |edges|
    ensures Rate(edges, t) < Rate(edges, s)
  {
    EdgesIncreasing(edges, AnchorBin + s, AnchorBin + t);
    var x, y := edges[AnchorBin + s], edges[AnchorBin + t];
    EdgesPositive(edges, AnchorBin + s);
    assert AnchorUsd / y * y == AnchorUsd == AnchorUsd / x * x;
    assert AnchorUsd / y * y < AnchorUsd / x * y;
  }

  /** Python's `int()`: truncation toward zero. */
  function Trunc(x: real): (r: int)
    ensures 0.0 <= x ==> r as real <= x < r as real + 1.0
    ensures x < 0.0 ==> r as real - 1.0 < x <= r as real
  {
    if 0.0 <= x then x.Floor else -((-x).Floor)
  }

  lemma TruncMonotone(x: real, y: real)
    requires x <= y
    ensures Trunc(x) <= Trunc(y)
  {
  }

  lemma ProductNonPositive(w: real, d: real)
    requires 0.0 <= w && d <= 0.0
    ensures w * d <= 0.0
  {
  }

  /** Non-negative deviations with a non-zero sum give weights in [0, 1] that sum to one. */
  lemma WeightsSumToOne(a1: real, a2: real)
    requires 0.0 <= a1 && 0.0 <= a2 && a1 + a2 != 0.0
    ensures 0.0 <= a1 / (a1 + a2) <= 1.0 && 0.0 <= a2 / (a1 + a2) <= 1.0
    ensures a1 / (a1 + a2) + a2 / (a1 + a2) == 1.0
  {
    var t := a1 + a2;
    assert a1 / t + a2 / t == t / t;
  }

  /** A blend with such weights lies between the two rates. */
  lemma BlendBetween(a1: real, a2: real, x: real, y: real)
    requires 0.0 <= a1 && 0.0 <= a2 && a1 + a2 != 0.0
    ensures Min(x, y) <= a1 / (a1 + a2) * x + a2 / (a1 + a2) * y <= Max(x, y)
  {
    var w1, w2 := a1 / (a1 + a2), a2 / (a1 + a2);
    WeightsSumToOne(a1, a2);
    assert w1 * x + w2 * y == y + w1 * (x - y) == x - w2 * (x - y);
    if x <= y {
      ProductNonPositive(w1, x - y);
      ProductNonPositive(w2, x - y);
    } else {
      ProductNonPositive(w1, y - x);
      ProductNonPositive(w2, y - x);
    }
  }

  /** Weights each slide's price by how far its score stands from the mean, and truncates.
      A zero denominator is the plugin's division by zero. */
  function Interpolate(bestScore: real, neighbourScore: real, avgScore: real, rateBest: real, rateNeighbour: real)
    : (r: Result<int>)
    ensures r.Err? <==> (bestScore - avgScore) + Abs(neighbourScore - avgScore) == 0.0
    ensures r.Err? ==> r.error == DegenerateAlignment
    ensures r.Ok? && avgScore <= bestScore ==>
      Trunc(Min(rateBest, rateNeighbour)) <= r.value <= Trunc(Max(rateBest, rateNeighbour))
  {
    var a1 := bestScore - avgScore;
    var a2 := Abs(neighbourScore - avgScore);
    if a1 + a2 == 0.0 then Err(DegenerateAlignment)
    else
      var w1 := a1 / (a1 + a2);
      var w2 := a2 / (a1 + a2);
      var blend := w1 * rateBest + w2 * rateNeighbour;
      assert 0.0 <= a1 ==>
        Trunc(Min(rateBest, rateNeighbour)) <= Trunc(blend) <= Trunc(Max(rateBest, rateNeighbour)) by {
        if 0.0 <= a1 {
          BlendBetween(a1, a2, rateBest, rateNeighbour);
          TruncMonotone(Min(rateBest, rateNeighbour), blend);
          TruncMonotone(blend, Max(rateBest, rateNeighbour));
        }
      }
      Ok(Trunc(blend))
  }

  /** The slide next to `best` that the plugin interpolates towards. */
  function NeighbourOf(c: seq<real>, st: seq<real>, best: int): (n: int)
    requires |c| == NumBins && |st| == NumBins && MinSlide <= best < MaxSlide
    ensures n == best + 1 || n == best - 1
    ensures n == best - 1 <==> Score(c, st, best - 1) > Score(c, st, best + 1)
  {
    SlideWindowsInside(c);
    best + ChooseNeighbour(Score(c, st, best + 1), Score(c, st, best - 1)).offset
  }

  /** The price the alignment step yields for the counts `c` once `best` is the chosen slide:
      the interpolation between `best` and its neighbour, weighted by their distance from
      the mean of the 400 scores. */
  function PriceAt(edges: seq<real>, c: seq<real>, best: int): (r: Result<int>)
    requires ValidEdges(edges) && |c| == NumBins && MinSlide <= best < MaxSlide
    ensures r.Err? ==> r.error == DegenerateAlignment
    ensures IsFirstBest(c, RoundUsdStencil(), best) ==>
      (r.Err? <==>
        Peak(c, RoundUsdStencil(), best) == TotalScore(c, RoundUsdStencil(), MaxSlide) / NumSlides as real &&
        Score(c, RoundUsdStencil(), NeighbourOf(c, RoundUsdStencil(), best)) == TotalScore(c, RoundUsdStencil(), MaxSlide) / NumSlides as real)
    ensures IsFirstBest(c, RoundUsdStencil(), best) && r.Ok? ==>
      Trunc(Min(Rate(edges, best), Rate(edges, NeighbourOf(c, RoundUsdStencil(), best)))) <= r.value <=
      Trunc(Max(Rate(edges, best), Rate(edges, NeighbourOf(c, RoundUsdStencil(), best))))
  {
    var st := RoundUsdStencil();
    var nb := NeighbourOf(c, st, best);
    SlideWindowsInside(c);
    var avg := TotalScore(c, st, MaxSlide) / NumSlides as real;
    assert IsFirstBest(c, st, best) ==> avg <= Peak(c, st, best) by {
      if IsFirstBest(c, st, best) {
        MeanAtMostPeak(c, st, best);
      }
    }
    Interpolate(Peak(c, st, best), Score(c, st, nb), avg, Rate(edges, best), Rate(edges, nb))
  }

  /** The whole alignment step over the conditioned counts and the calibrated stencil. */
  method EstimatePrice(edges: seq<real>, counts: array<real>) returns (best: int, neighbour: int, price: Result<int>)
    requires ValidEdges(edges) && counts.Length == NumBins
    ensures IsFirstBest(counts[..], RoundUsdStencil(), best)
    ensures neighbour == best + ChooseNeighbour(Score(counts[..], RoundUsdStencil(), best + 1), Score(counts[..], RoundUsdStencil(), best - 1)).offset
    ensures neighbour == NeighbourOf(counts[..], RoundUsdStencil(), best)
    ensures price == PriceAt(edges, counts[..], best)
    ensures price.Ok? ==>
      Trunc(Min(Rate(edges, best), Rate(edges, neighbour))) <= price.value <= Trunc(Max(Rate(edges, best), Rate(edges, neighbour)))
  {
    var stencil := RoundUsdStencil();
    var bestScore, totalScore, numberOfScores;
    best, bestScore, totalScore, numberOfScores := BestSlide(counts, stencil);
    var rateBest := Rate(edges, best);

    var upScore := ScoreSlide(counts, stencil, best + 1);
    var downScore := ScoreSlide(counts, stencil, best - 1);
    var pick := ChooseNeighbour(upScore, downScore);
    neighbour := best + pick.offset;
    var rateNeighbour := Rate(edges, neighbour);

    var avgScore := totalScore / numberOfScores as real;
    MeanAtMostPeak(counts[..], stencil, best);
    price := Interpolate(bestScore, pick.score, avgScore, rateBest, rateNeighbour);
  }
}
