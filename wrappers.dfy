// Optional values: JavaScript's `undefined` / missing fields.
module Wrappers {

  datatype Option<+T> = None | Some(value: T) {

    /** The value, or `default` when absent (JavaScript's `x || default` on a maybe-missing array). */
    function GetOr(default: T): T
    {
      match this
      case Some(v) => v
      case None => default
    }
  }
}

// HTTP-shaped replies of the two Express back ends.
module Http {

  /** A reply: a success status with a JSON body, or an error status with its `message`. */
  datatype Response<+T> = Reply(code: nat, body: T) | Fail(code: nat, message: string)
}
