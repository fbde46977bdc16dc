/** The older `DirectusResponse` revision in the repository's root
    directus_response.py: the same envelope, with `item` and `items` handing
    back `data` untouched, a constructor that never raises, and `errors`
    wrapped together with the raw response. */
module LegacyResponses {
  import opened Wrappers
  import opened Json
  import opened Python
  import opened Http
  import Responses

  datatype Response = Response(reply: Reply, json: map<string, Json>)

  /** The constructor: the decoded body, or `{}` when it is not JSON; an
      error status is only recorded, never raised. */
  function New(reply: Reply): (r: Response)
    ensures r.reply == reply
    ensures r.json == (if reply.body.Some? then reply.body.value else map[])
  {
    Response(reply, match reply.body case Some(body) => body case None => map[])
  }

  /** `item`: `data` as it is. */
  function Item(r: Response): (j: Json)
    ensures j != JNull ==> "data" in r.json && j == r.json["data"]
    ensures "data" in r.json ==> j == r.json["data"]
  {
    if "data" !in r.json then JNull else r.json["data"]
  }

  /** `items`: the same value as `item`. */
  function Items(r: Response): (j: Json)
    ensures "data" in r.json ==> j == r.json["data"]
    ensures "data" !in r.json ==> j == JNull
  {
    if "data" !in r.json then JNull else r.json["data"]
  }

  /** The counts read `meta` exactly as the current revision does. */
  function TotalCount(r: Response): Result<Json, PyError>
  {
    Responses.MetaCount(Current(r), "total_count")
  }

  function FilteredCount(r: Response): Result<Json, PyError>
  {
    Responses.MetaCount(Current(r), "filter_count")
  }

  predicate IsSuccess(r: Response)
  {
    IsSuccessStatus(r.reply.status)
  }

  predicate IsError(r: Response)
  {
    !IsSuccess(r)
  }

  /** `errors`: `{"errors": ..., "response": response.__dict__}` on an error
      status whose body has `errors`. */
  function Errors(r: Response): Json
  {
    if IsError(r) && "errors" in r.json then
      JObject(map["errors" := r.json["errors"], "response" := JObject(r.reply.attributes)])
    else JNull
  }

  // ---------------------------------------------------------------- lemmas

  /** `items` is `item`: no list wrapping, no empty-list normalisation. */
  lemma ItemsIsItem(r: Response)
    ensures Items(r) == Item(r)
  {
  }

  /** The constructor is total: every reply, whatever its status, makes a
      response, and an undecodable body leaves every projection empty. */
  lemma ConstructorNeverRaises(reply: Reply)
    ensures New(reply).reply.status == reply.status
    ensures reply.body.None? ==> Item(New(reply)) == JNull && TotalCount(New(reply)) == Ok(JNull) && Errors(New(reply)) == JNull
  {
    Responses.MetaCountCases(Current(New(reply)), "total_count");
  }

  /** `errors` is a two-key object holding the body's errors and the raw
      response, present exactly on an error status with an `errors` key. */
  lemma ErrorsShape(r: Response)
    ensures Errors(r) != JNull <==> IsError(r) && "errors" in r.json
    ensures Errors(r) != JNull ==>
      Errors(r).JObject? && Errors(r).fields.Keys == {"errors", "response"}
      && Errors(r).fields["errors"] == r.json["errors"]
      && Errors(r).fields["response"] == JObject(r.reply.attributes)
  {
  }

  /** The current revision on the same body. */
  function Current(r: Response): Responses.Response
  {
    Responses.Response(r.reply, r.json)
  }

  /** Where the two revisions agree: status classification and
      `item` whenever `data` is not a list. */
  lemma RevisionsAgree(r: Response)
    ensures IsSuccess(r) <==> Responses.IsSuccess(Current(r))
    ensures IsError(r) <==> Responses.IsError(Current(r))
    ensures "data" in r.json && !r.json["data"].JList? ==> Responses.Item(Current(r)) == Item(r)
    ensures Errors(r) != JNull ==> Responses.Errors(Current(r)) == Errors(r).fields["errors"]
    ensures Responses.Errors(Current(r)) != JNull ==> Errors(r) != JNull
  {
  }

  /** Where they differ: for a non-empty list `data` the old `item` is the
      whole list and the new one its first element; an empty list is kept
      by the old revision and dropped to `None` by the new one; an object
      `data` is wrapped in a list only by the new `items`; and only the new
      constructor raises. */
  lemma RevisionsDiffer(r: Response, reply: Reply)
    ensures "data" in r.json && r.json["data"].JList? && r.json["data"].items != [] ==>
      Item(r) == r.json["data"] && Responses.Item(Current(r)) == r.json["data"].items[0]
    ensures "data" in r.json && r.json["data"] == JList([]) ==>
      Items(r) == JList([]) && Responses.Items(Current(r)) == JNull
    ensures "data" in r.json && r.json["data"].JObject? ==>
      Items(r) == r.json["data"] && Responses.Items(Current(r)) == JList([r.json["data"]])
    ensures Responses.New(reply).Err? <==> reply.body.Some? && IsError(New(reply))
  {
  }
}
