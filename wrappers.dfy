/** Option and Result, the failure-carrying values used throughout the model. */
module Wrappers {

  datatype Option<+T> = None | Some(value: T) {
    function GetOr(default: T): T {
      match this
      case Some(v) => v
      case None => default
    }
  }

  datatype Result<+R, +E> = Success(value: R) | Failure(error: E) {
    predicate IsFailure() {
      Failure?
    }

    function PropagateFailure<U>(): Result<U, E>
      requires Failure?
    {
      Failure(error)
    }

    function Extract(): R
      requires Success?
    {
      value
    }
  }
}

/**
 * The exceptions the pipeline raises, by Python exception class.  Where the
 * source builds a message from fixed text and a value, the value is kept.
 */
module Errors {

  datatype Error =
      /** `ValueError` carrying the message the source builds. */
    | ValueError(message: string)
      /** `_parse_date`'s `ValueError`; its message quotes the normalised date string. */
    | DateParseError(normalized: string)
      /** `KeyError` on a missing dictionary key, e.g. a missing CSV column. */
    | KeyError(key: string)
      /** `AttributeError` on an attribute that was never assigned, or on a method of `None`. */
    | AttributeError(name: string)
      /** `IndexError`, e.g. `data[0]` on an empty list. */
    | IndexError
      /** `TypeError`, e.g. item assignment into a JSON value that is not an object. */
    | TypeError
      /** The plain `Exception` raised for a model response that is not valid JSON; its message ends with the cleaned response. */
    | InvalidJson(cleaned: string)
}
