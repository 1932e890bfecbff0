/** Python exceptions that the modelled code raises or lets through, and a
    Result type standing for "returns a value or raises". */
module Errors {

  datatype PyError =
    | KeyError            // a missing dictionary key
    | ValueError          // a failed check, or networkx refusing None as a node
    | JSONDecodeError     // model output that is not JSON
    | TypeError           // a wrong-typed or unhashable value
    | ZeroDivisionError   // division by a maximum edge weight of zero
    | RequestFailed       // make_request exhausting its own retries, or any other exception
    | UnicodeDecodeError  // reading a file that is not UTF-8 text as JSON

  /** The exceptions that process_text catches and answers with another
      attempt; UnicodeDecodeError is a subclass of ValueError. */
  predicate Retried(e: PyError) {
    e.KeyError? || e.ValueError? || e.JSONDecodeError? || e.UnicodeDecodeError?
  }

  datatype Result<+T> = Ok(value: T) | Err(error: PyError) {
    predicate IsFailure() { Err? }

    function PropagateFailure<U>(): Result<U>
      requires Err?
    {
      Err(error)
    }

    function Extract(): T
      requires Ok?
    {
      value
    }
  }

  datatype Option<+T> = None | Some(value: T)
}
