/** Small result types shared by the other modules. Go signals absence with
    nil: `Option` carries a pointer or an `error` that may be nil, and
    `Outcome` the single `error` a checking function returns. */
module Wrappers {

  /** Either nothing (Go's nil) or one value. */
  datatype Option<+T> = None | Some(value: T) {

    /** The carried value; `fallback` stands in for nil. */
    function GetOr(fallback: T): T {
      if Some? then value else fallback
    }
  }

  /** Either success, or failure with the one error the check reported. */
  datatype Outcome<+E> = Pass | Fail(error: E)
}
