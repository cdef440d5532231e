/** Failures of the analysis core. Each one stands for an exception (or a
    non-finite value) the Python program would produce on that input. */
module Outcomes {

  datatype Error =
    | EmptyContainer     // `users[0]` on an empty record list: IndexError
    | UnknownLabel       // no branch of the label dispatch ran: UnboundLocalError
    | ZeroSamplingRate   // division by a sampling rate of zero: ZeroDivisionError
    | InvalidFilterBand  // normalised band edges outside (0, 1): the filter design refuses them
    | InsufficientPeaks  // fewer than two peaks: the mean of no intervals is undefined

  datatype Result<T> = Ok(value: T) | Err(error: Error)

  datatype Option<T> = None | Some(value: T)
}
