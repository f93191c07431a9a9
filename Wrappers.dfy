/**
 * Option and Result, the failure-carrying wrappers used throughout the
 * model, and the keys of a dictionary kept as a list of pairs.
 */
module Wrappers {

  datatype Option<+T> = None | Some(value: T)

  datatype Result<+R, +E> = Success(value: R) | Failure(error: E)

  /** The keys of an insertion-ordered dictionary held as a list of pairs: `list(d.keys())`. */
  function Keys<V>(pairs: seq<(string, V)>): seq<string> {
    seq(|pairs|, i requires 0 <= i < |pairs| => pairs[i].0)
  }

  /** The Python exceptions the modelled code raises, with the text `str(e)` gives. */
  datatype PyError =
    | ValueError(message: string)
    | KeyError(key: string)
    | IndexError(message: string)
  {
    /** `str(e)`: a KeyError renders its key in quotes, the others their message. */
    function Str(): string {
      match this
      case ValueError(m) => m
      case KeyError(k) => "'" + k + "'"
      case IndexError(m) => m
    }
  }
}
