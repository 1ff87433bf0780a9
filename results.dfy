/** Optional values and the outcome kinds that the request surface distinguishes. */
module Results {

  datatype Option<+T> = None | Some(value: T)

  /** The failure kinds a client can tell apart; the HTTP status is in the comment. */
  datatype Error =
    | Unauthenticated  // 401: token undecodable, expired, without subject, or subject unknown
    | Inactive         // 400 "Inactive user"
    | Forbidden        // 403: role gate or tenancy check refused
    | NotFound         // 404: the referenced company or farmer does not exist
    | Conflict         // 400 "... already registered"
    | Internal         // 500: an exception the endpoint does not catch

  /** The result of an endpoint or of one of its checks; usable with `:-`. */
  datatype Outcome<+T> = Ok(value: T) | Err(error: Error) {

    predicate IsFailure() {
      Err?
    }

    function PropagateFailure<U>(): Outcome<U>
      requires Err?
    {
      Err(error)
    }

    function Extract(): T
      requires Ok?
    {
      value
    }
  }
}
