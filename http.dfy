/**
 * What a `fetch` (or an axios call) hands back, as far as the callers look at
 * it: a status, and the body already parsed from JSON, or nothing when it
 * does not parse. A request that never gets a reply is a network error.
 */
module Http {
  import opened Wrappers

  datatype Response<B> = Response(status: int, body: Option<B>) {
    /** `response.ok`: a status from 200 to 299. */
    predicate Ok() {
      200 <= status <= 299
    }
  }

  /** The oracle that stands for the network: the reply one call receives. */
  datatype Reply<B> = Answer(response: Response<B>) | NetworkError

  /** The status every caller here singles out: the session is no longer authorised. */
  const Unauthorized := 401
}
