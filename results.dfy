/** Optional values, the client's closed error taxonomy, and the result type
    that every operation of the client returns. */
module Results {

  datatype Option<+T> = None | Some(value: T)

  /** Why an operation failed. The Rust client (`api.rs`) folds all of these
      into one `anyhow::Error`; here each kind is a variant of its own. */
  datatype Error =
    | InvalidHeader              // the authorization value is not a valid header value
    | TransportFailure           // the request could not be delivered
    | HttpStatus(status: int)    // a 4xx or 5xx status
    | Undecodable                // the body does not have the expected shape
    | GraphQLFailure(message: string)  // the first entry of a GraphQL `errors` list
    | MissingGraphQLData         // a GraphQL envelope with neither errors nor data
    | MalformedLink              // a `Link` header that does not parse

  /** `Ok` or `Err`, usable with `:-` the way `api.rs` uses `?`. */
  datatype Result<+T> = Ok(value: T) | Err(error: Error) {

    predicate IsFailure() {
      Err?
    }

    function PropagateFailure<U>(): Result<U>
      requires Err?
    {
      Err(error)
    }

    function Extract(): T
      requires Ok?
    {
      value
    }
  }

  /** Decoding a body into the expected shape: `None` becomes `Undecodable`. */
  function Decoded<T>(o: Option<T>): (r: Result<T>)
    ensures r.Ok? <==> o.Some?
    ensures r.Ok? ==> r.value == o.value
    ensures r.Err? ==> r.error == Undecodable
  {
    match o
    case Some(v) => Ok(v)
    case None => Err(Undecodable)
  }
}
