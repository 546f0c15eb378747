/** Python-level values the model needs: `None` and the outcome of a call,
    which either returns a value or raises one of the errors this code can raise. */
module Python {

  /** A value that may be Python's `None`. */
  datatype Option<+T> = None | Some(value: T) {
    function GetOr(default: T): T {
      match this
      case Some(v) => v
      case None => default
    }
  }

  /** The exceptions the modelled code can raise as written. */
  datatype PyError =
    | NotIterable      // TypeError: iterating over `None`
    | TooManyArguments // TypeError: more positional arguments than the callee declares
    | UnboundLocal     // UnboundLocalError: a local name read before it is assigned
    | NoAttribute      // AttributeError: attribute access on an object without that attribute

  /** What a Python call does: return a value or raise. */
  datatype Outcome<+T> = Returned(value: T) | Raised(error: PyError)
}
