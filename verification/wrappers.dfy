/** Results of the relay's operations. The source signals failure by throwing
    .NET exceptions; here each exception it can raise is a value of `Exception`
    and an operation that can throw returns a `Result` or an `Outcome`. */
module Wrappers {

  /** The exceptions the modelled code can raise. */
  datatype Exception =
    | ArgumentOutOfRange       // `new List<T>(capacity)` with a negative capacity
    | IndexOutOfRange          // indexing past the end of a `Split` result
    | Format                   // `decimal.Parse` on text that is not a number
    | UriFormat                // `new Uri(text, UriKind.Absolute)` on text that is not an absolute URI
    | InvalidOperation(message: string)  // thrown explicitly by the optimize stage
    | HttpRequest              // the image download failed
    | StorageRead              // a blob existence check or download failed
    | StorageWrite             // a blob upload failed
    | QueueWrite               // an enqueue on a queue collector failed

  datatype Option<+T> = None | Some(value: T)

  datatype Result<+T> = Ok(value: T) | Err(error: Exception)

  /** The result of an operation that returns nothing (a `Task`). */
  datatype Outcome = Pass | Fail(error: Exception)
}
