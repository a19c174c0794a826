/** Small value types shared by the other modules. */
module Wrappers {

  /** A value that may be absent: JavaScript's `null`, Python's `None`. */
  datatype Option<T> = None | Some(value: T) {

    /** The value, or `default` when absent. */
    function GetOr(default: T): T {
      match this
      case Some(v) => v
      case None => default
    }
  }

  /** Raw bytes of an HTTP body or of a blob. */
  type Bytes = seq<bv8>
}
