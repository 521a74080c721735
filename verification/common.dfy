/** Shared vocabulary of the configuration fetcher: optional values, results,
    bytes, and the fatal conditions the script reports before exiting. */
module Common {

  /** A value that may be absent (Python's `None`). */
  datatype Option<+T> = None | Some(value: T)

  /** Either a value or the fatal error that ended the run. */
  datatype Result<+T> = Success(value: T) | Failure(error: Error)

  /** One byte of a raw file body. */
  newtype byte = x: int | 0 <= x < 256

  /** Which listing a data-shape error refers to: the repository root, or
      the folder the user picked from it. */
  datatype Stage = Root | Folder(dir: string)

  /** The conditions under which the script calls its error-exit helper,
      restricted to the ones this model covers. */
  datatype Error =
    | EmptyToken                 // the access token read from the terminal is empty
    | ParseFailure(url: string)  // a structured response was not UTF-8 JSON
    | EmptyResponse(at: Stage)   // the listing is null or empty
    | NothingFound(at: Stage)    // no entry of the wanted type in the listing
}
