/** Small value types shared by the route handlers and the slug helper. */
module Common {

  /** A value that may be absent: a missing query parameter or JSON field. */
  datatype Option<T> = None | Some(value: T)

  /** The outcome of a route handler: a JSON body with a status code, or a `{ error }` body. */
  datatype Reply<T> = Success(status: nat, value: T) | Failure(status: nat, error: string)

  const OK: nat := 200
  const CREATED: nat := 201
  const BAD_REQUEST: nat := 400
  const UNAUTHORIZED: nat := 401
  const SERVER_ERROR: nat := 500

  /** JavaScript truthiness of a value that is a string, `null` or `undefined`. */
  predicate Truthy(o: Option<string>)
  {
    o.Some? && o.value != ""
  }

  function Min(a: int, b: int): int
  {
    if a <= b then a else b
  }
}
