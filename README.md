# UTXOracle price estimation, modelled in Dafny

This project models the price-estimation core of the `utxoracle` Core Lightning
plugin (`utxoracle/utxoracle.py`). The plugin estimates the USD price of bitcoin
from the amounts of the transaction outputs in the last 144 blocks, without any
price feed. It works in five steps:

1. **Bin edges** (`BinSpace`). The plugin builds 2401 bin edges: `0.0`, then 200
   log-spaced values per decade from 1e-6 to 1e6 BTC.
2. **Histogram** (`Histogram`). Each output amount in (1e-6, 1e6) BTC is assigned
   to its bin. The plugin starts from an estimated index and scans forward only,
   then adds 1.0 to that bin.
3. **Conditioning** (`Conditioner`). The count array is changed in place:
   - bins below 401 and from 1601 on are zeroed;
   - the 18 round-BTC bins are each replaced by the average of their two neighbours;
   - the window [201, 1601) is divided by its sum;
   - every value in the window is clamped to at most 0.008.
4. **Alignment** (`ReferenceStencil`, `Aligner`). A calibrated stencil of 40 weights
   at round-USD bins is slid over the counts, for 400 slides from -200 to 199.
   The first strictly best slide above 0.0 is kept. Its better neighbour is
   chosen, up unless the down score is strictly greater. The two implied prices,
   `100 / edges[801 + slide]`, are blended with weights taken from each score's
   distance to the mean score, and the blend is truncated toward zero.
5. **Run** (`Oracle`). This chains the steps above and returns the 144-block report.

The form of the model follows the plugin's own code:
- The count array is an `array<real>`, changed in place by methods whose
  postconditions tie the new contents to a specification function of the old
  contents (`Clipped`, `Smoothed`, `Normalised`).
- The edge list is built by appending to a sequence.
- Each loop of the plugin is a loop here, with its invariants: the bin scan, the
  window sum, the slide loop and the score products.
- Scores, tallies and sums are functions.
- Numbers are mathematical reals. The stencil weights are copied as exact decimals
  and kept as a sparse map from bin to weight.

Three points where the plugin raises an exception are modelled as explicit failures
(`Results.Failure`):
- **`AmountBeyondLastEdge`.** The forward scan runs past the end of the edge list
  (an `IndexError` at line 84). The last edge is 10^5.995 ≈ 988,553 BTC, but amounts
  up to 1e6 are accepted at line 75, so an accepted amount in between reaches this
  error.
- **`InsufficientData`.** The window sum `curve_sum` is zero (a `ZeroDivisionError`
  at line 139). The counts are left unchanged.
- **`DegenerateAlignment`.** `a1 + a2` is zero (a `ZeroDivisionError` at lines 263-264).

The model follows what the code does at these points:
- The estimate is truncated toward zero (Python's `int()`), not floored.
- The two division-by-zero sites fail exactly where the code divides.
- The neighbour windows of the extreme slides need no special case:
  `Aligner.SlideWindowsInside` shows that every window from slide -201 to slide 200
  fits inside the 2401 counts.

Two floating-point computations are taken as parameters:
- **`pow(exponent, b)`** stands for `10 ** (exponent + b/200)`. `BuildEdges` shows that
  the edges are valid (start at 0.0, strictly increasing) whenever `pow` is positive and
  increasing along the grid (`LogSpaced`).
- **`estimate(amount)`** stands for the log10 projection `int((log10(amount) + 6) / 12 * 2401)`
  of lines 77-81. It must be a sound starting point (`SoundEstimate`): inside the list,
  and either 0 or with `edges[est - 1] <= amount`. In exact arithmetic this holds.
  Let the true bin be k, so (k-1)/200 <= log10(amount) + 6 < k/200. Then the estimate,
  `floor(2401/12 * (log10(amount) + 6))`, is k-1 or k, so `edges[est - 1]` is at most
  `edges[k] <= amount`.

## Model

| member | source | states |
|---|---|---|
| `BinSpace.BuildEdges` | utxoracle/utxoracle.py:20-35 | The edge list has 1 + 12·200 = 2401 entries. It starts with 0.0. Entry k+1 is the k-th grid power. If the powers are positive and increasing, the edges are valid (strictly increasing). |
| `BinSpace.EdgesIncreasing` | utxoracle/utxoracle.py:26-35 | On valid edges, any earlier edge is strictly below any later one. The forward scan relies on this. |
| `BinSpace.EdgesPositive` | utxoracle/utxoracle.py:26-35 | Every edge after the zero edge is positive, so each slide's implied price is defined. |
| `Histogram.NewCounts` | utxoracle/utxoracle.py:37-42 | The count array is fresh, as long as the edge list, and all 0.0. |
| `Histogram.BinUnique` | utxoracle/utxoracle.py:83-87 | On valid edges an amount lies in at most one bin [edges[i], edges[i+1]). |
| `Histogram.BinExists` | utxoracle/utxoracle.py:83-87 | Every amount from 0.0 up to, but not including, the last edge lies in some bin. |
| `Histogram.FindBin` | utxoracle/utxoracle.py:76-87 | From a sound estimate, the forward scan only moves up (result + 1 >= estimate). It fails exactly when the amount is at or above the last edge. Otherwise it returns the bin with edges[b] <= amount < edges[b+1], so an amount equal to an edge lands in that edge's bin. |
| `Histogram.Tally` | utxoracle/utxoracle.py:75-90 | A bin's count is non-negative and at most the number of accepted amounts. |
| `Histogram.Accumulate` | utxoracle/utxoracle.py:68-90 | It succeeds exactly when every accepted amount is below the last edge, and otherwise fails with AmountBeyondLastEdge. On success, each count grows by the number of accepted amounts in its bin. Amounts outside (1e-6, 1e6) change nothing. |
| `Histogram.IndicatorTotal` | utxoracle/utxoracle.py:84-90 | One amount adds exactly 1.0 in total over all bins when it is accepted, and 0.0 when it is not. |
| `Histogram.HistogramTotal` | utxoracle/utxoracle.py:75-90 | The counts sum to the number of accepted amounts. |
| `Conditioner.Clip` | utxoracle/utxoracle.py:94-102 | Indices [0, 401) and [1601, 2401) become 0.0. Indices 401..1600 are unchanged. |
| `Conditioner.RoundBinsApart` | utxoracle/utxoracle.py:104-124 | Every round bin lies in 201..1201, and neither neighbour of a round bin is itself a round bin. |
| `Conditioner.SmoothBins` | utxoracle/utxoracle.py:126-130 | For any list of bins, no two of them neighbours, replacing them one after the other by the average of their neighbours gives the simultaneous update `SmoothedAt`. |
| `Conditioner.Smoothed` | utxoracle/utxoracle.py:104-130 | Smoothing has the histogram's length and leaves every bin that is not a round bin unchanged. |
| `Conditioner.SmoothRoundBins` | utxoracle/utxoracle.py:126-130 | Smoothing the round bins one by one gives the same result as replacing them all at once by the average of their neighbours. Every other index is unchanged. |
| `Conditioner.FirstRoundBinVanishes` | utxoracle/utxoracle.py:96-130 | After clipping and smoothing, round bin 201 is 0.0. |
| `Conditioner.ConditioningNonNegative` | utxoracle/utxoracle.py:94-130 | Clipping and smoothing keep non-negative counts non-negative. |
| `Conditioner.CurveSum` | utxoracle/utxoracle.py:132-135 | The running sum equals the sum of the counts over [201, 1601). The counts are not changed. |
| `Conditioner.Clamp` | utxoracle/utxoracle.py:141-143 | The result is at most 0.008. It is the input itself when the input is at most 0.008, and 0.008 otherwise. |
| `Conditioner.NormaliseAndClamp` | utxoracle/utxoracle.py:137-143 | It fails with InsufficientData, leaving the counts unchanged, exactly when the window sum is 0.0. Otherwise each value in [201, 1601) is divided by the sum and clamped to 0.008, and nothing outside the window changes. |
| `Conditioner.ScaledSumsToOne` | utxoracle/utxoracle.py:133-139 | Before clamping, the divided window sums to 1. |
| `Conditioner.NormalisedBounds` | utxoracle/utxoracle.py:137-143 | From non-negative counts with a non-zero sum, every normalised window value lies in [0, 0.008]. Indices outside the window keep their values. |
| `ReferenceStencil.RoundUsdStencil` | utxoracle/utxoracle.py:146-190 | The stencil has one entry per bin: the calibrated weight at each of the 40 assigned bins and 0.0 everywhere else. |
| `ReferenceStencil.WeightCount` | utxoracle/utxoracle.py:150-190 | The 40 assignments write 40 distinct bins, so the stencil has exactly 40 weights. |
| `ReferenceStencil.StencilSupport` | utxoracle/utxoracle.py:145-190 | All 40 weights are positive. Every non-zero stencil entry lies in 401..1202, inside the scored range 201..1400. |
| `Aligner.SlideWindowsInside` | utxoracle/utxoracle.py:213-246 | For every slide from -201 to 200, the window [201 + slide, 1401 + slide) lies inside the 2401 counts. This covers the 400 slides and their ±1 neighbours. |
| `Aligner.ScoreSlide` | utxoracle/utxoracle.py:215-221 | The slide's score is the sum over n < 1200 of counts[201 + slide + n] * stencil[201 + n]. |
| `Aligner.DotOnSupport` | utxoracle/utxoracle.py:219-221 | Counts under zero stencil entries do not affect a partial score. |
| `Aligner.ScoreReadsStencilBinsOnly` | utxoracle/utxoracle.py:216-221 | Two count arrays that agree at the 40 stencil bins, shifted by the slide, give the same score. |
| `Aligner.BestSlide` | utxoracle/utxoracle.py:202-230 | `best` is the first slide whose score is strictly greater than all earlier scores and than 0.0, and no score exceeds it. It stays 0, with best score 0.0, when no score exceeds 0.0. It also returns the sum of the 400 scores and their number, 400. |
| `Aligner.FirstBestUnique` | utxoracle/utxoracle.py:227-230 | The best-slide characterisation picks exactly one slide. |
| `Aligner.TotalScoreBound` | utxoracle/utxoracle.py:223-225 | A sum of scores that are each at most m is at most m times their number. |
| `Aligner.MeanAtMostPeak` | utxoracle/utxoracle.py:259-261 | The mean score is at most the best score, so `a1 >= 0`. |
| `Aligner.ChooseNeighbour` | utxoracle/utxoracle.py:248-253 | The neighbour is -1 exactly when the down score is strictly greater, and +1 otherwise. Its score is the larger of the two. |
| `Aligner.Rate` | utxoracle/utxoracle.py:232-234 | The implied price 100 / edges[801 + slide] is positive. |
| `Aligner.RateDecreasing` | utxoracle/utxoracle.py:232-234 | A higher slide implies a strictly lower price. |
| `Aligner.Trunc` | utxoracle/utxoracle.py:265 | Truncation toward zero: for x >= 0, r <= x < r + 1; for x < 0, r - 1 < x <= r. |
| `Aligner.WeightsSumToOne` | utxoracle/utxoracle.py:262-264 | With a1, a2 >= 0 and a1 + a2 != 0, w1 and w2 lie in [0, 1] and w1 + w2 == 1. |
| `Aligner.BlendBetween` | utxoracle/utxoracle.py:262-265 | The weighted blend of two prices lies between them. |
| `Aligner.Interpolate` | utxoracle/utxoracle.py:259-265 | It fails with DegenerateAlignment exactly when a1 + a2 == 0. When the best score is at least the mean, the truncated estimate lies between the truncations of the two prices. |
| `Aligner.NeighbourOf` | utxoracle/utxoracle.py:236-253 | The neighbour is one slide above or below the best. It is the slide below exactly when the score there is strictly greater than the score above. |
| `Aligner.PriceAt` | utxoracle/utxoracle.py:232-265 | For the first best slide, the price fails with DegenerateAlignment exactly when the best score and the neighbour's score both equal the mean score, and fails with no other error. A successful price lies between the truncated prices implied by the best slide and its neighbour. |
| `Aligner.EstimatePrice` | utxoracle/utxoracle.py:232-265 | `best` is the first best slide and the neighbour is `NeighbourOf` it. The result is `PriceAt` for that slide. When it succeeds, it lies between the two truncated prices. |
| `Oracle.Report` | utxoracle/utxoracle.py:267-278 | The report covers 144 blocks ending at the chain tip, so the starting block is the tip minus 143, and it carries the price. |
| `Oracle.NoAcceptedAmountsInsufficient` | utxoracle/utxoracle.py:132-139 | With no accepted amount, the clipped and smoothed window sums to 0.0. |
| `Oracle.Run` | utxoracle/utxoracle.py:20-278 | The run fails with AmountBeyondLastEdge exactly when some accepted amount is at or above the last edge. It fails with InsufficientData exactly when the clipped and smoothed histogram has a zero window sum, and always when no amount is accepted. Otherwise its outcome is `PriceAt` of the first best slide over the normalised and clamped histogram: a failure there is DegenerateAlignment, and a success is the report's price. A successful report covers the 144 blocks ending at the tip, with a non-negative price. |

## Left out

- Node access (`getchaininfo`, `getrawblockbyheight`) and block deserialisation with `CBlock` (utxoracle/utxoracle.py:18, 45-65). These are external I/O and a foreign library. The outputs of the 144 blocks reach the model as one sequence of BTC amounts, and the chain tip as a parameter of `Run`.
- The satoshi-to-BTC conversion `nValue / 100000000` (line 72) is left out: amounts are given in BTC.
- Floating point is not modelled: counts, edges, weights and prices are exact reals, and `1e-6`, `1e6`, `0.008` and the weights are exact decimals.
- `log10` and `10 **` are not modelled. They are the parameters `estimate` and `pow`, with the preconditions described above.
- The progress `print`s, the JSON packaging and the plugin registration (lines 53-61, 98, 269-282) are left out.
- The stencil is not built by the plugin's append-then-assign sequence (lines 146-190). It is the constant sparse map `Weights`, with `RoundUsdStencil` as its dense view.
- Accumulate (`Histogram.Accumulate`): on failure the model says nothing about the partly updated counts, because the plugin's exception discards them.
- `prometheus/prometheus.py` is not part of this model. It is a separate metrics exporter built on node RPC calls and an HTTP server.
