/** What the Fetch API hands back, reduced to what the core inspects. */
module Http {

  /** A response: its status code and an opaque body. */
  datatype Response = Response(status: int, body: string) {

    /** `response.ok`: the status lies in the range 200 to 299. */
    predicate Ok() {
      200 <= status <= 299
    }
  }

  /** The outcome of one `fetch`: it resolves with a response of any status, or rejects with a network error. */
  datatype Fetch = Responded(response: Response) | NetworkError
}
