/** Optional values and the error-carrying result every hook returns. */
module Results {

  /** A Go pointer field: nil or pointing at a value. */
  datatype Option<+T> = None | Some(value: T) {
    function GetOr(default: T): T {
      match this
      case Some(v) => v
      case None => default
    }
  }

  /** Why strconv.ParseUint refused its text. */
  datatype NumErrorKind = Syntax | Range

  /** The errors the codecs return (the generic engine's own errors are not modelled). */
  datatype Error =
    | Missing(message: string)                    // a mandatory discriminator is absent
    | NumError(num: string, kind: NumErrorKind)   // *strconv.NumError from ParseUint
    | ExpectedText(child: string)                 // a CCW child not followed by character data
    | UnexpectedEnd                               // the token stream ended inside an element
    | NotConsumed(element: string)                // the engine's "did not consume entire <element> element"

  /** Success with a value, or the error the Go function returns. */
  datatype Result<+T> = Ok(value: T) | Err(error: Error) {
    predicate IsFailure() {
      Err?
    }

    function PropagateFailure<U>(): Result<U>
      requires Err?
    {
      Err(error)
    }

    function Extract(): T
      requires Ok?
    {
      value
    }
  }
}
