/** The ways one price-estimation run can fail. Each aborts the run; none is retried. */
module Results {

  datatype Failure =
    | AmountBeyondLastEdge   // the forward bin scan runs off the end of the edge list
    | InsufficientData       // the informative window of the histogram sums to zero
    | DegenerateAlignment    // both interpolation weights have a zero denominator

  datatype Result<T> = Ok(value: T) | Err(error: Failure)

  datatype Outcome = Pass | Fail(error: Failure)
}
