/**
 * What an outgoing HTTP call can come back with, as seen by the code that makes it: an
 * exception (a network error, a timeout, a body that is not the expected JSON), or a
 * response with a status code and a decoded JSON body.
 */
module Http {
  datatype Outcome<Body> = Raised | Responded(status: int, body: Body)

  /** The one status the adapters treat as success. */
  const Ok: int := 200

  predicate IsOk<Body>(o: Outcome<Body>) {
    o.Responded? && o.status == Ok
  }
}
