/** `DirectusResponse` and `DirectusException` as in
    DirectusPyWrapper/directus_response.py: a decoded reply body with
    projections onto Directus's `{data, meta, errors}` envelope. A missing
    value (Python's `None`) is `JNull`. */
module Responses {
  import opened Wrappers
  import opened Json
  import opened Python
  import opened Http

  /** A reply and the JSON the response holds (`{}` after a decode failure). */
  datatype Response = Response(reply: Reply, json: map<string, Json>)

  /** The exception raised on an error status, with the response's `errors`. */
  datatype DirectusException = DirectusException(response: Response, messages: Json)

  /** The constructor: a body that is not JSON leaves `{}` and never raises;
      a decoded body with an error status raises. */
  function New(reply: Reply): (r: Result<Response, DirectusException>)
    ensures reply.body.None? ==> r == Ok(Response(reply, map[]))
    ensures reply.body.Some? && IsSuccessStatus(reply.status) ==> r == Ok(Response(reply, reply.body.value))
    ensures reply.body.Some? && !IsSuccessStatus(reply.status) ==>
      r.Err? && r.error.response == Response(reply, reply.body.value)
      && r.error.messages == Errors(r.error.response)
  {
    match reply.body
    case None => Ok(Response(reply, map[]))
    case Some(body) =>
      var response := Response(reply, body);
      if IsError(response) then Err(DirectusException(response, Errors(response))) else Ok(response)
  }

  /** `item`: the object under `data`, or the first element when `data` is
      a non-empty list. */
  function Item(r: Response): Json
  {
    if "data" !in r.json then JNull
    else match r.json["data"]
      case JList(xs) => if |xs| == 0 then JNull else xs[0]
      case data => data
  }

  /** `first`. */
  function First(r: Response): (j: Json)
    ensures j == Item(r)
  {
    Item(r)
  }

  /** `items`: the list under `data` when it is non-empty, a one-element
      list around an object. */
  function Items(r: Response): Json
  {
    if "data" !in r.json then JNull
    else match r.json["data"]
      case JList(xs) => if |xs| == 0 then JNull else JList(xs)
      case data => JList([data])
  }

  /** `meta[key]` when `'meta' in json and key in json['meta']`. */
  function MetaCount(r: Response, key: string): Result<Json, PyError>
  {
    if "meta" !in r.json then Ok(JNull)
    else
      var meta := r.json["meta"];
      var present :- In(key, meta);
      if present then Subscript(meta, key) else Ok(JNull)
  }

  function TotalCount(r: Response): Result<Json, PyError>
  {
    MetaCount(r, "total_count")
  }

  function FilteredCount(r: Response): Result<Json, PyError>
  {
    MetaCount(r, "filter_count")
  }

  predicate IsSuccess(r: Response)
  {
    IsSuccessStatus(r.reply.status)
  }

  predicate IsError(r: Response)
  {
    !IsSuccess(r)
  }

  /** `errors`: the body's `errors` on an error status. */
  function Errors(r: Response): Json
  {
    if IsError(r) && "errors" in r.json then r.json["errors"] else JNull
  }

  /** One line of the exception text: `code:\nmessage\n `. */
  function ErrorLine(error: Json): Result<string, PyError>
  {
    var extensions :- Subscript(error, "extensions");
    var code :- Subscript(extensions, "code");
    var codeText :- Str(code);
    var message :- Subscript(error, "message");
    var messageText :- Str(message);
    Ok(codeText + ":\n" + messageText + "\n ")
  }

  /** `''.join(...)` over a generator of lines, each of which may raise:
      the first line that raises ends the join. */
  function JoinLines(lines: seq<Result<string, PyError>>): Result<string, PyError>
    decreases |lines|
  {
    if lines == [] then Ok("")
    else
      var init :- JoinLines(lines[..|lines| - 1]);
      var last :- lines[|lines| - 1];
      Ok(init + last)
  }

  /** The lines of a list of errors, in list order. */
  function ErrorLines(errors: seq<Json>): Result<string, PyError>
  {
    JoinLines(seq(|errors|, i requires 0 <= i < |errors| => ErrorLine(errors[i])))
  }

  /** `str(DirectusException)`: the lines of all errors joined in order.
      Iterating `None` or a number raises; an empty dict or string iterates
      nothing; a non-empty dict or string yields strings, and indexing a
      string by `'extensions'` raises. */
  function ExceptionText(messages: Json): Result<string, PyError>
  {
    match messages
    case JList(errors) => ErrorLines(errors)
    case JObject(fields) => if fields == map[] then Ok("") else Err(TypeError)
    case JStr(s) => if s == [] then Ok("") else Err(TypeError)
    case _ => Err(TypeError)
  }

  // ---------------------------------------------------------------- lemmas

  /** `item` and `items` agree: `items` is present exactly when `data` is
      present and not the empty list, it is then a non-empty list whose
      first element is `item`, and whenever `item` is present so is `items`. */
  lemma ItemsAgreeWithItem(r: Response)
    ensures Items(r) != JNull <==> "data" in r.json && r.json["data"] != JList([])
    ensures Items(r) != JNull ==> Items(r).JList? && |Items(r).items| > 0 && Items(r).items[0] == Item(r)
    ensures Item(r) != JNull ==> Items(r) != JNull
  {
  }

  /** `items` wraps an object and passes a non-empty list through. */
  lemma ItemsShape(r: Response)
    requires "data" in r.json
    ensures !r.json["data"].JList? ==> Items(r) == JList([r.json["data"]]) && Item(r) == r.json["data"]
    ensures r.json["data"].JList? && r.json["data"].items != [] ==>
      Items(r) == r.json["data"] && Item(r) == r.json["data"].items[0]
  {
  }

  /** The two statuses are exact complements; the success set is 200, 201,
      204 and 304. */
  lemma StatusClassification(r: Response)
    ensures IsError(r) <==> !IsSuccess(r)
    ensures IsSuccess(r) <==> r.reply.status == 200 || r.reply.status == 201 || r.reply.status == 204 || r.reply.status == 304
  {
  }

  /** A count is the value under `meta` when `meta` is an object holding
      it, `None` when there is no `meta` or `meta` lacks it, and it raises
      only when `meta` holds a value `in` cannot search or the key occurs
      in a list or string `meta`, which cannot be indexed by it. */
  lemma MetaCountCases(r: Response, key: string)
    ensures "meta" !in r.json ==> MetaCount(r, key) == Ok(JNull)
    ensures "meta" in r.json && r.json["meta"].JObject? ==>
      MetaCount(r, key) == Ok(if key in r.json["meta"].fields then r.json["meta"].fields[key] else JNull)
    ensures MetaCount(r, key).Ok? && MetaCount(r, key).value != JNull ==>
      "meta" in r.json && r.json["meta"].JObject? && key in r.json["meta"].fields
  {
  }

  /** `errors` is present only for an error status with an `errors` key. */
  lemma ErrorsOnlyOnError(r: Response)
    ensures Errors(r) != JNull ==> IsError(r) && "errors" in r.json && Errors(r) == r.json["errors"]
    ensures IsSuccess(r) ==> Errors(r) == JNull
  {
  }

  /** The constructor raises exactly when the body decoded and the status is
      an error; an undecodable body is never an exception, whatever the
      status, and leaves every projection empty. */
  lemma ConstructorRaisesIff(reply: Reply)
    ensures New(reply).Err? <==> reply.body.Some? && !IsSuccessStatus(reply.status)
    ensures reply.body.None? ==>
      Item(New(reply).value) == JNull && Items(New(reply).value) == JNull
      && TotalCount(New(reply).value) == Ok(JNull) && Errors(New(reply).value) == JNull
  {
  }

  /** Joining a concatenation of generators gives the concatenation of
      their joins. */
  lemma {:induction false} JoinLinesAppend(a: seq<Result<string, PyError>>, b: seq<Result<string, PyError>>)
    requires JoinLines(a).Ok? && JoinLines(b).Ok?
    ensures JoinLines(a + b) == Ok(JoinLines(a).value + JoinLines(b).value)
    decreases |b|
  {
    if b == [] {
      assert a + b == a;
      assert JoinLines(a).value + "" == JoinLines(a).value;
    } else {
      var n := |b| - 1;
      var init := b[..n];
      assert (a + b)[..|a + b| - 1] == a + init;
      assert (a + b)[|a + b| - 1] == b[n];
      JoinLinesAppend(a, init);
      var x, y, z := JoinLines(a).value, JoinLines(init).value, b[n].value;
      assert JoinLines(b).value == y + z;
      assert (x + y) + z == x + (y + z);
    }
  }

  /** The exception text of a concatenation of error lists is the
      concatenation of their texts: lines come out in list order. */
  lemma ErrorLinesAppend(a: seq<Json>, b: seq<Json>)
    requires ErrorLines(a).Ok? && ErrorLines(b).Ok?
    ensures ErrorLines(a + b) == Ok(ErrorLines(a).value + ErrorLines(b).value)
  {
    var la := seq(|a|, i requires 0 <= i < |a| => ErrorLine(a[i]));
    var lb := seq(|b|, i requires 0 <= i < |b| => ErrorLine(b[i]));
    var ab := a + b;
    assert seq(|ab|, i requires 0 <= i < |ab| => ErrorLine(ab[i])) == la + lb;
    JoinLinesAppend(la, lb);
  }

  /** A single error `{message: m, extensions: {code: c}}` with string code
      and message reads `c:\nm\n `. */
  lemma SingleErrorText(code: string, message: string)
    ensures ExceptionText(JList([JObject(map["message" := JStr(message), "extensions" := Single("code", JStr(code))])]))
      == Ok(code + ":\n" + message + "\n ")
  {
    var e := JObject(map["message" := JStr(message), "extensions" := Single("code", JStr(code))]);
    var text := code + ":\n" + message + "\n ";
    assert "message" != "extensions";
    assert ErrorLine(e) == Ok(text);
    var lines := seq(1, i requires 0 <= i < 1 => ErrorLine([e][i]));
    assert lines == [Ok(text)] && lines[..0] == [];
    assert JoinLines(lines[..0]) == Ok("");
    assert "" + text == text;
    assert JoinLines(lines) == Ok(text);
    assert ErrorLines([e]) == JoinLines(lines);
  }

  /** A 404 reply carrying Directus's error envelope raises, and the
      exception's text names the code and the message. */
  lemma NotFoundRaises(code: string, message: string, attributes: map<string, Json>)
    ensures
      var error := JObject(map["message" := JStr(message), "extensions" := Single("code", JStr(code))]);
      var reply := Reply(404, Some(map["errors" := JList([error])]), attributes);
      New(reply).Err?
      && New(reply).error.response.reply.status == 404
      && ExceptionText(New(reply).error.messages) == Ok(code + ":\n" + message + "\n ")
  {
    var error := JObject(map["message" := JStr(message), "extensions" := Single("code", JStr(code))]);
    var reply := Reply(404, Some(map["errors" := JList([error])]), attributes);
    assert !IsSuccessStatus(404);
    assert New(reply).error.messages == JList([error]);
    SingleErrorText(code, message);
  }

  /** A missing `errors` key makes the exception's text itself raise:
      iterating `None`. */
  lemma ErrorWithoutEnvelope(status: int, body: map<string, Json>, attributes: map<string, Json>)
    requires !IsSuccessStatus(status) && "errors" !in body
    ensures New(Reply(status, Some(body), attributes)).Err?
    ensures ExceptionText(New(Reply(status, Some(body), attributes)).error.messages) == Err(TypeError)
  {
    assert New(Reply(status, Some(body), attributes)).error.messages == JNull;
  }
}
