/** Optional values, used wherever the original reads a key that may be
    absent or calls a service that may return nothing. */
module Wrappers {

  datatype Option<+T> = None | Some(value: T) {

    /** The wrapped value, or `default` when there is none (Python's `d.get(k, default)`). */
    function GetOr(default: T): T {
      match this
      case Some(v) => v
      case None => default
    }
  }

  /** A value under a key of a JSON object: the key is left out, it holds
      `null`, or it holds a string. `d.get(key, default)` gives the default
      only for a missing key; a `null` comes back as `None`. */
  datatype Field = Missing | Null | Text(value: string)
}
