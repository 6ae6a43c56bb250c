/** The exceptions the mangling engine can raise, and the datatypes that carry
    either a value or the exception that stopped the computation. */
module Results {

  /** Python exceptions raised by the core, one constructor per cause. */
  datatype Error =
    | EmptyRange        // random.randint(a, b) with b < a (ValueError)
    | IndexOutOfRange   // a list index or random.choice on an empty list (IndexError)
    | ZeroDivision      // Stutter with zero cuts (ZeroDivisionError)
    | ArgumentMismatch  // a constructor called with arguments it cannot bind (TypeError)
    | RaggedChannels    // numpy.array over channels of different lengths (ValueError)

  datatype Option<+T> = None | Some(value: T)

  datatype Result<+T> = Ok(value: T) | Err(error: Error)
}
