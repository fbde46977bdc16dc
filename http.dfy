/** What the client sees of an HTTP exchange. The network is not modelled:
    the server's reply is an input. */
module Http {
  import opened Wrappers
  import opened Json

  /** A reply: its status code, its body as decoded JSON (`None` when the
      body is not JSON, where `response.json()` raises a decode error), and
      the response object's attributes (`response.__dict__`). */
  datatype Reply = Reply(status: int, body: Option<map<string, Json>>, attributes: map<string, Json>)

  /** A request the client issues: verb, URI, JSON payload or query. */
  datatype Outgoing = Outgoing(verb: string, uri: string, payload: map<string, Json>)

  /** The statuses both response revisions count as success. */
  predicate IsSuccessStatus(code: int)
  {
    code in {200, 201, 204, 304}
  }
}
