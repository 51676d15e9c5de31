/** One run of the price oracle over the outputs of the last 144 blocks:
    histogram, conditioning, alignment, and the reported record. */
module Oracle {
  import opened Results
  import opened Sums
  import opened BinSpace
  import opened Histogram
  import opened Conditioner
  import opened ReferenceStencil
  import opened Aligner

  /** One day of blocks, at about ten minutes a block. */
  const WindowBlocks: int := 144

  datatype PriceReport = PriceReport(lastXBlocks: int, estimatedPrice: int, startingBlock: int, endingBlock: int)

  /** The record returned to the caller: the price and the 144-block range ending at the chain tip. */
  function Report(latestBlock: int, price: int): (r: PriceReport)
    ensures r.lastXBlocks == WindowBlocks && r.estimatedPrice == price
    ensures r.endingBlock == latestBlock && r.endingBlock - r.startingBlock + 1 == WindowBlocks
  {
    PriceReport(WindowBlocks, price, latestBlock - (WindowBlocks - 1), latestBlock)
  }

  /** The histogram of the amounts after clipping and round-bin smoothing. */
  function Prepared(edges: seq<real>, amounts: seq<real>): (s: seq<real>)
    requires ValidEdges(edges)
    ensures |s| == NumBins
  {
    Smoothed(Clipped(Tallies(edges, amounts)))
  }

  /** With no accepted amount there is nothing to normalise by. */
  lemma NoAcceptedAmountsInsufficient(edges: seq<real>, amounts: seq<real>)
    requires ValidEdges(edges) && AcceptedCount(amounts) == 0
    ensures CurveTotal(Prepared(edges, amounts)) == 0.0
  {
    NoAcceptedAmountsEmptyBins(edges, amounts);
    SumOfZeros(Prepared(edges, amounts)[WindowLow..WindowHigh]);
  }

  /** The whole pipeline for the amounts of one block window. `estimate` stands for the
      log10 projection of an amount onto the bin indices. */
  method Run(edges: seq<real>, amounts: seq<real>, estimate: real -> int, latestBlock: int)
    returns (result: Result<PriceReport>)
    requires ValidEdges(edges)
    requires forall a :: a in amounts && Accepted(a) ==> SoundEstimate(edges, a, estimate(a))
    ensures result == Err(AmountBeyondLastEdge) <==> !BelowLastEdge(edges, amounts)
    ensures result == Err(InsufficientData) <==>
      BelowLastEdge(edges, amounts) && CurveTotal(Prepared(edges, amounts)) == 0.0
    ensures BelowLastEdge(edges, amounts) && AcceptedCount(amounts) == 0 ==> result == Err(InsufficientData)
    ensures BelowLastEdge(edges, amounts) && CurveTotal(Prepared(edges, amounts)) != 0.0 ==>
      exists best :: IsFirstBest(Normalised(Prepared(edges, amounts)), RoundUsdStencil(), best) &&
        PriceAt(edges, Normalised(Prepared(edges, amounts)), best) ==
          (if result.Ok? then Ok(result.value.estimatedPrice) else Err(result.error))
    ensures result.Ok? ==>
      result.value == Report(latestBlock, result.value.estimatedPrice) && 0 <= result.value.estimatedPrice
  {
    var counts := NewCounts(|edges|);
    var accumulated := Accumulate(edges, counts, amounts, estimate);
    if accumulated.Fail? {
      return Err(accumulated.error);
    }
    assert counts[..] == Tallies(edges, amounts);
    Clip(counts);
    SmoothRoundBins(counts);
    assert counts[..] == Prepared(edges, amounts);
    if AcceptedCount(amounts) == 0 {
      NoAcceptedAmountsInsufficient(edges, amounts);
    }
    var normalised := NormaliseAndClamp(counts);
    if normalised.Fail? {
      return Err(normalised.error);
    }
    var best, neighbour, price := EstimatePrice(edges, counts);
    assert PriceAt(edges, counts[..], best) == price;
    if price.Err? {
      return Err(price.error);
    }
    result := Ok(Report(latestBlock, price.value));
  }
}
