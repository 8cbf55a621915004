/**
 * What a handler sends back: a status code with either the `message` of a
 * failure envelope or the `data` of a success envelope. Also the JavaScript
 * truthiness test the handlers apply to request body fields.
 */
module Http {

  import opened Wrappers

  /** A record id (a MongoDB ObjectId); the store issues them in creation order. */
  type Id = nat

  newtype byte = x: int | 0 <= x < 256

  datatype Reply<+T> = Fail(code: nat, message: string) | Success(code: nat, data: T) {

    function Map<U>(f: T -> U): (r: Reply<U>)
      ensures r.code == code && r.Fail? == Fail?
      ensures Fail? ==> r == Fail(code, message)
      ensures Success? ==> r == Success(code, f(data))
    {
      match this
      case Fail(c, m) => Fail(c, m)
      case Success(c, d) => Success(c, f(d))
    }
  }

  /** `!!v` for a body field that is a string or absent: `undefined` and `""` are falsy. */
  predicate Truthy(v: Option<string>) {
    v.Some? && v.value != ""
  }

  /**
   * The status the framework's default error handler answers with when a
   * middleware throws or passes an error on without a status of its own.
   */
  const ErrorHandlerCode: nat := 500
}
