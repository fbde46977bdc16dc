# DirectusPyWrapper, modelled in Dafny

DirectusPyWrapper is a Python client for the Directus headless CMS. This
project models the client's core and proves properties of it:

- **The filter language.**
  - Comparison operators (`Operators`) and aggregation operators
    (`AggregationOperators`) are enumerations with their wire suffixes.
  - A leaf `Filter` applies one operator to several fields under one
    logical operator. Its `__json__` rewrites Equals/NotEqual to
    Null/NotNull on meeting a `None` value, and it *keeps* that rewrite in
    the object.
  - `Logical` / `_and` / `_or` composites group filters under `_and` /
    `_or`.
- **The `DirectusRequest` builder.**
  - A parameter bag is filled by `fields`, `filter`, `filters`, `sort`,
    `search`, `page`, `limit`, `offset`, `include_count`, `aggregate` and
    `group_by`.
  - It resolves the collection's URI.
  - `read_many` serialises the bag, sends it, and wraps the server's
    reply.
- **Both `DirectusResponse` revisions.**
  - The current one (`DirectusPyWrapper/directus_response.py`) projects
    `item`, `items`, the counts and `errors` out of Directus's
    `{data, meta, errors}` envelope. It raises `DirectusException` on an
    error status, and the exception has its own text.
  - The older one (`directus_response.py` at the repository root) never
    raises and hands `data` back untouched.
- **The session side of the `Directus` client.**
  - The bearer-token header, and `parse_translations`.
  - The token state that construction, the `token` setter, `login`,
    `refresh` and `logout` keep.

Layout, one module per file:

| file | module | models |
|---|---|---|
| `wrappers.dfy` | `Wrappers` | `Option` and `Result` |
| `json.dfy` | `Json` | JSON values; Python `None` is `JNull` |
| `text.dfy` | `Text` | `str.join`, `str.split`, the `in` test on strings, `str.replace(p, '')` |
| `python.dfy` | `Python` | the Python behaviour the client relies on: `in` and `[]` on decoded JSON with their `KeyError`/`TypeError`, and `str` |
| `http.dfy` | `Http` | a server reply (status, decoded body, attributes), an outgoing request, and the success statuses |
| `operators.dfy` | `Operators` | `Operators` |
| `aggregation_operators.dfy` | `AggregationOperators` | `AggregationOperators` |
| `logical_operators.dfy` | `LogicalOperators` | the two connectives and their keys |
| `filter.dfy` | `Filters` | `Filter`, as a class whose `operator` field `ToJson` updates in place |
| `logical.dfy` | `Logical` | `Logical`/`_and`/`_or` trees, and the serialisation of a whole tree |
| `directus_request.dfy` | `Request` | `DirectusRequest`, as a class whose `params` its methods update |
| `directus_response.dfy` | `Responses` | the current `DirectusResponse` and `DirectusException` |
| `legacy_response.dfy` | `LegacyResponses` | the older `DirectusResponse` |
| `directus.dfy` | `Client` | `BearerAuth`, `parse_translations` and the `Directus` session state, as a class |

How the model is specified:

- **Filters.** A serialisation is specified by `Filters.Walk`, a function
  over the keyword arguments in order.
- **Filter trees.** A whole tree is specified by `Logical.Eval`.
  - It threads a map from each `Filter` object to its current operator
    through the tree, left to right.
  - A Filter that appears twice in one tree is serialised twice, and the
    second copy sees the rewrite the first one made.
- **Methods.** The in-place methods (`Filter.ToJson`, `Logical.Serialise`,
  the builder's methods, `ReadMany`, and the client's `Login`, `Refresh`
  and `Logout`) are proved to leave exactly the state these functions
  describe.
- **Default arguments.** The builder's defaults are default parameter
  values: `filter` uses Equals and AND, `sort` ascending, `search=1`,
  `page=1`, `limit=-1`, `offset=0`, `aggregate` Count over `'*'`, and
  `read_many` the `search` method.
- **Error paths.** Python exceptions are modelled as `Err` values:
  - `KeyError` and `TypeError` raised by `in` and subscripting on decoded
    JSON;
  - `AttributeError` raised by `filters` when the bag holds a lone
    `Filter`, whose keyword dict has no `extend`;
  - `NotImplementedError` for a filter key nested too deep;
  - `DirectusException`;
  - `ValueError` for an unknown method name.

## Model

| member | source | states |
|---|---|---|
| `Operators.Suffix` | DirectusPyWrapper/operators.py:4-28 | every operator's value starts with `_` and is at least three characters long |
| `Operators.FromSuffix` | DirectusPyWrapper/operators.py:4-28 | looking up a value gives back an operator with that value, and nothing else |
| `Operators.SuffixRoundTrip` | DirectusPyWrapper/operators.py:4-28 | looking up an operator's value gives back that operator |
| `Operators.SuffixInjective` | DirectusPyWrapper/operators.py:4-28 | the 24 values are pairwise distinct |
| `Operators.Negation` | DirectusPyWrapper/operators.py:5-28 | the base operators that have a counterpart map to a different, negated member |
| `Operators.NegationSuffix` | DirectusPyWrapper/operators.py:5-28 | a counterpart's value is the base value with `_` replaced by `_n` (`_eq`/`_neq` … `_intersects_bbox`/`_nintersects_bbox`) |
| `Operators.NegationCovers` | DirectusPyWrapper/operators.py:5-28 | every operator is a base, a negation of a base, or one of the four order comparisons |
| `AggregationOperators.Name` | DirectusPyWrapper/aggregation_operators.py:4-13 | every name is non-empty |
| `AggregationOperators.FromName` | DirectusPyWrapper/aggregation_operators.py:4-13 | looking up a name gives back an operator with that name |
| `AggregationOperators.NameRoundTrip` | DirectusPyWrapper/aggregation_operators.py:4-13 | looking up an operator's name gives back the operator |
| `AggregationOperators.NameInjective` | DirectusPyWrapper/aggregation_operators.py:4-13 | the nine names are pairwise distinct |
| `AggregationOperators.DistinctVariant` | DirectusPyWrapper/aggregation_operators.py:5-11 | exactly count, sum and avg have a `Distinct` variant, named with `Distinct` after the base name |
| `LogicalOperators.Key` | DirectusPyWrapper/logical.py:11 | a connective's key is `_`-prefixed |
| `LogicalOperators.KeyInjective` | DirectusPyWrapper/logical.py:11 | AND and OR combine under different keys |
| `Filters.Filter.constructor` | DirectusPyWrapper/filter.py:7-12 | a Filter holds the operator, the logical operator and the keyword arguments it was given |
| `Filters.Filter.ToJson` | DirectusPyWrapper/filter.py:14-35 | the loop leaves the operator and returns the JSON that `Walk`/`LeafJson` describe |
| `Filters.Walk` | DirectusPyWrapper/filter.py:17-29 | the loop over the keyword arguments, as a function: its result and the operator it leaves are stated by `Filters.WalkOk`, `Filters.WalkFailsIff`, `Filters.WalkStopsAtError` and `Filters.OperatorAfterSnoc` |
| `Filters.LeafJson` | DirectusPyWrapper/filter.py:31-35 | the final flattening step: one fragment is returned alone, any other number stays under the logical operator's key, as `Filters.SingleFieldFlattened` and `Filters.ManyFieldsWrapped` state |
| `Filters.WalkStopsAtError` | DirectusPyWrapper/filter.py:23-26 | once a key is too deep, later keys change neither the result nor the operator |
| `Filters.RewriteSettles` | DirectusPyWrapper/filter.py:18-22 | only Equals and NotEqual are rewritten, only on `None`, and a rewritten operator stays rewritten |
| `Filters.OperatorAfterSnoc` | DirectusPyWrapper/filter.py:17-22 | the operator after one more argument is the rewrite of the operator before it |
| `Filters.WalkOk` | DirectusPyWrapper/filter.py:17-29 | a successful loop gives one fragment per argument in order; argument i is written with the operator in force after i+1 arguments (`None` seen so far ⇒ rewritten); the operator left is the final one |
| `Filters.FragmentFailsIff` | DirectusPyWrapper/filter.py:23-29 | one argument fails exactly when its key holds two or more dots |
| `Filters.WalkFailsIff` | DirectusPyWrapper/filter.py:17-29 | serialisation fails exactly when some key holds two or more dots, whatever the operator |
| `Filters.TooDeepSnoc` | DirectusPyWrapper/filter.py:23-26 | the arguments hold a too-deep key exactly when the earlier ones do or the last key has two or more dots |
| `Filters.WalkOnePlain` | DirectusPyWrapper/filter.py:17-29 | one undotted argument is written `{key: {op: value}}` with the operator rewritten for that value, which is also the operator left |
| `Filters.WalkTwoPlain` | DirectusPyWrapper/filter.py:17-29 | two undotted arguments are written in order, the second with the operator the first one left |
| `Filters.SingleFieldFlattened` | DirectusPyWrapper/filter.py:31-33 | a single argument is returned as its own fragment, without the logical-operator wrapper |
| `Filters.ManyFieldsWrapped` | DirectusPyWrapper/filter.py:15-35 | zero or several arguments stay under the logical operator's key, one fragment per argument, in order |
| `Filters.DottedKeyNests` | DirectusPyWrapper/filter.py:23-27 | a key `a.b` nests as `{a: {b: {op: value}}}` |
| `Filters.SettledOperatorInForce` | DirectusPyWrapper/filter.py:18-22 | the operator left by a serialisation is in force at every key of the next one |
| `Filters.ReserialiseUniform` | DirectusPyWrapper/filter.py:14-35 | serialising a Filter again succeeds, writes every key with the operator the first serialisation left, and leaves it unchanged |
| `Logical.Eval` | DirectusPyWrapper/logical.py:10-14 | serialising a tree changes the operators of its leaves only (a Filter outside the tree keeps its operator), never adding or dropping one |
| `Logical.EvalList` | DirectusPyWrapper/logical.py:12-13 | the same for the children of a composite, serialised in order: a Filter in none of the children keeps its operator |
| `Logical.Serialise` | DirectusPyWrapper/logical.py:10-14 | the recursive serialisation returns the JSON and leaves the leaf operators that `Eval` describes, for every Filter in the universe |
| `Logical.EvalListStopsAtError` | DirectusPyWrapper/logical.py:12-13 | once a child fails, later children are not serialised |
| `Logical.EvalListOkLength` | DirectusPyWrapper/logical.py:12-13 | a successful composite lists one entry per child |
| `Logical.EvalListOkAt` | DirectusPyWrapper/logical.py:12-13 | child i is serialised from the operators the first i children left |
| `Logical.EvalListPrefix` | DirectusPyWrapper/logical.py:12-13 | serialising the first k children of a successful composite gives the first k entries of its list |
| `Logical.EvalListSnoc` | DirectusPyWrapper/logical.py:12-13 | a successful list is the list of all children but the last, followed by the last child serialised from the operators those left |
| `Logical.CompositeShape` | DirectusPyWrapper/logical.py:10-14 | a composite is `{key: [children]}` with one entry per child in order, and is never flattened |
| `Logical.EmptyComposite` | DirectusPyWrapper/logical.py:10-14 | `_and()`/`_or()` serialise to `{key: []}` and change nothing |
| `Logical.AndOrKeys` | DirectusPyWrapper/_and.py:6-8 | `_and(...)` serialises under the AND key and `_or(...)` under the OR key, one entry per argument |
| `Logical.EvalPair` | DirectusPyWrapper/logical.py:12-13 | two children are serialised in sequence, the second seeing the first one's rewrites |
| `Logical.NoNullsKeepOperators` | DirectusPyWrapper/filter.py:18-22 | a tree without `None` values leaves every leaf operator unchanged |
| `Logical.NoNullsListKeepOperators` | DirectusPyWrapper/logical.py:12-13 | the same for a composite's children |
| `Logical.NoNullWalkKeepsOperator` | DirectusPyWrapper/filter.py:17-22 | a Filter without `None` values keeps its operator, even when it fails |
| `Logical.SharedLeafSeesRewrite` | DirectusPyWrapper/filter.py:18-20 | one Filter `{k1: v1, k2: None}` placed twice in a tree: the first copy writes k1 with `_eq`, the second writes k1 with `_null` as well, and the Filter is left at Null |
| `Request.DirectusRequest.constructor` | DirectusPyWrapper/directus_request.py:16-20 | a new request has an empty parameter bag |
| `Request.ResolveUri` | DirectusPyWrapper/directus_request.py:22-26 | the `uri` property; `Request.SystemCollectionUri`, `Request.ItemCollectionUri` and `Request.UriNamesCollection` state its two branches and what the `replace` leaves |
| `Request.ContainsOwnPrefix` | DirectusPyWrapper/directus_request.py:24 | a name that starts with `directus_` holds `directus_` |
| `Request.SystemCollectionUri` | DirectusPyWrapper/directus_request.py:22-25 | `directus_<name>` is served at `url/<name>` |
| `Request.ItemCollectionUri` | DirectusPyWrapper/directus_request.py:22-26 | any other collection is served at `url/items/<collection>` |
| `Request.UriNamesCollection` | DirectusPyWrapper/directus_request.py:22-26 | the URI always names the collection with every `directus_` removed, which is the collection itself exactly when it holds none |
| `Request.DirectusRequest.Fields` | DirectusPyWrapper/directus_request.py:28-30 | `fields` stores the comma-joined names and changes no other parameter |
| `Request.FieldListRoundTrip` | DirectusPyWrapper/directus_request.py:29 | the comma-joined list splits back into the field names |
| `Request.DirectusRequest.Filter` | DirectusPyWrapper/directus_request.py:32-54 | `filter` makes a fresh Filter and merges it into the stored filter; nothing else changes |
| `Request.Merge` | DirectusPyWrapper/directus_request.py:46-53 | the three branches of `filter` (no filter yet, a composite, a lone Filter); `Request.MergeAddsLeaf` states that each adds exactly the new leaf, in order |
| `Request.LeavesOfAppend` | DirectusPyWrapper/directus_request.py:49 | appending children adds exactly their Filters |
| `Request.MergeAddsLeaf` | DirectusPyWrapper/directus_request.py:46-53 | a merge adds exactly the new Filter: stored alone at first, appended last to a composite keeping its operator and children, or paired after a lone Filter under AND |
| `Request.Leaves` | DirectusPyWrapper/directus_request.py:46-53 | one leaf per Filter, in order |
| `Request.SuccessiveFilters` | DirectusPyWrapper/directus_request.py:46-53 | one `filter` call stores the Filter itself; two or more give one AND of all of them in call order |
| `Request.DirectusRequest.Filters` | DirectusPyWrapper/directus_request.py:56-61 | `filters` extends a stored composite or stores an AND of the list; on a lone Filter it raises AttributeError and changes nothing |
| `Request.MergeMany` | DirectusPyWrapper/directus_request.py:56-61 | the outcomes of `filters`: extend a composite, wrap the list in a fresh AND, or raise AttributeError on a lone Filter, as `Request.MergeManyCases` states both ways |
| `Request.MergeManyCases` | DirectusPyWrapper/directus_request.py:56-61 | `filters` fails exactly on a lone Filter, keeps a composite's operator and appends the list in order |
| `Request.DirectusRequest.Sort` | DirectusPyWrapper/directus_request.py:63-67 | `sort` appends `field` or `-field` after the earlier sort keys |
| `Request.SortKeyRoundTrip` | DirectusPyWrapper/directus_request.py:66 | a sort key reads back as its field and direction |
| `Request.DirectusRequest.Search` | DirectusPyWrapper/directus_request.py:69-71 | `search` sets `search` only |
| `Request.DirectusRequest.Page` | DirectusPyWrapper/directus_request.py:73-75 | `page` sets `page` only |
| `Request.DirectusRequest.Limit` | DirectusPyWrapper/directus_request.py:77-79 | `limit` sets `limit` only |
| `Request.DirectusRequest.Offset` | DirectusPyWrapper/directus_request.py:81-83 | `offset` sets `offset` only |
| `Request.DirectusRequest.IncludeCount` | DirectusPyWrapper/directus_request.py:85-87 | `include_count` sets `meta` to `*` only |
| `Request.DirectusRequest.Aggregate` | DirectusPyWrapper/directus_request.py:89-91 | `aggregate` sets `aggregate` to `{operator name: field}` only |
| `Request.DirectusRequest.GroupBy` | DirectusPyWrapper/directus_request.py:93-95 | `group_by` stores the comma-joined names only |
| `Request.ParamsJson` | DirectusPyWrapper/directus_request.py:103-106 | the query sent has exactly the bag's keys |
| `Request.DirectusRequest.ReadMany` | DirectusPyWrapper/directus_request.py:101-109 | an unknown method raises before anything is serialised or sent; otherwise a SEARCH with `{"query": params}` or a GET with the parameters goes to the resolved URI, the filter's leaves end with the operators `Eval` describes, a too-deep key stops everything before sending, and the reply becomes a response or its exception |
| `Request.DocstringChain` | DirectusPyWrapper/directus_request.py:42-44 | the docstring's two-call chain leaves one AND of the two Filters, in call order |
| `Request.DocstringChainJson` | DirectusPyWrapper/directus_request.py:42-44 | the chain serialises to `{_and: [{_or: [{f1: {_eq: v1}}, {f2: {_null: None}}]}, {f3: {_eq: v3}}]}`, and the first Filter is left at Null |
| `Responses.New` | DirectusPyWrapper/directus_response.py:10-18 | an undecodable body gives `{}` and never raises; a decoded body raises `DirectusException` with the response's `errors` exactly on an error status |
| `Responses.ConstructorRaisesIff` | DirectusPyWrapper/directus_response.py:13-18 | the constructor raises exactly for a decoded body with an error status; after a decode failure every projection is `None` |
| `Responses.Item` | DirectusPyWrapper/directus_response.py:20-26 | `item` (and `first`, which returns it); `Responses.ItemsAgreeWithItem` and `Responses.ItemsShape` state what it is for every `data` |
| `Responses.Items` | DirectusPyWrapper/directus_response.py:32-41 | `items`; `Responses.ItemsAgreeWithItem` and `Responses.ItemsShape` state when it is present and how it relates to `item` |
| `Responses.TotalCount` | DirectusPyWrapper/directus_response.py:43-46 | `total_count`, the `MetaCount` of `total_count`, whose cases `Responses.MetaCountCases` states |
| `Responses.FilteredCount` | DirectusPyWrapper/directus_response.py:48-51 | `filtered_count`, the `MetaCount` of `filter_count`, whose cases `Responses.MetaCountCases` states |
| `Responses.Errors` | DirectusPyWrapper/directus_response.py:65-68 | `errors`, stated by `Responses.ErrorsOnlyOnError` |
| `Responses.ExceptionText` | DirectusPyWrapper/directus_response.py:76-77 | `str(DirectusException)`; `Responses.SingleErrorText`, `Responses.ErrorLinesAppend` and `Responses.ErrorWithoutEnvelope` state its text and its TypeError |
| `Responses.ItemsAgreeWithItem` | DirectusPyWrapper/directus_response.py:20-41 | `items` is present exactly when `data` is present and not `[]`; it is then a non-empty list whose first element is `item` |
| `Responses.ItemsShape` | DirectusPyWrapper/directus_response.py:20-41 | a non-list `data` is `item` itself and `items` wraps it; a non-empty list is `items` itself and `item` is its head |
| `Responses.MetaCountCases` | DirectusPyWrapper/directus_response.py:43-51 | a count is `meta[key]` for an object `meta` holding it, `None` when either is missing, and non-`None` only when both are present |
| `Responses.StatusClassification` | DirectusPyWrapper/directus_response.py:57-63 | success means status 200, 201, 204 or 304, and error is its complement |
| `Responses.ErrorsOnlyOnError` | DirectusPyWrapper/directus_response.py:65-68 | `errors` is the body's `errors`, present only on an error status |
| `Responses.JoinLinesAppend` | DirectusPyWrapper/directus_response.py:76-77 | `''.join` over two generators run one after the other is the concatenation of the two joins |
| `Responses.ErrorLinesAppend` | DirectusPyWrapper/directus_response.py:76-77 | the text of two concatenated error lists is the concatenation of their texts |
| `Responses.SingleErrorText` | DirectusPyWrapper/directus_response.py:76-77 | one error `{message: m, extensions: {code: c}}` reads `c:\nm\n ` |
| `Responses.NotFoundRaises` | DirectusPyWrapper/directus_response.py:13-77 | a 404 carrying one error with code c and message m (such as `ROUTE_NOT_FOUND`) raises, and the exception text is `c:\nm\n ` |
| `Responses.ErrorWithoutEnvelope` | DirectusPyWrapper/directus_response.py:65-77 | an error body without `errors` raises, and rendering that exception raises TypeError in turn |
| `LegacyResponses.ConstructorNeverRaises` | directus_response.py:7-12 | every reply makes a response; an undecodable body leaves `item`, the counts and `errors` empty |
| `LegacyResponses.ItemsIsItem` | directus_response.py:14-20 | `items` equals `item` |
| `LegacyResponses.ErrorsShape` | directus_response.py:44-49 | `errors` is present exactly on an error status with an `errors` key, and is then the two-key object `{errors, response}` |
| `LegacyResponses.TotalCount` | directus_response.py:22-25 | `total_count`, read as the current revision reads it; `LegacyResponses.ConstructorNeverRaises` states it is `None` after a decode failure |
| `LegacyResponses.FilteredCount` | directus_response.py:27-30 | `filtered_count`, read as the current revision reads it (`Responses.MetaCountCases`) |
| `LegacyResponses.Errors` | directus_response.py:44-49 | `errors`, stated by `LegacyResponses.ErrorsShape` and related to the current revision by `LegacyResponses.RevisionsAgree` |
| `LegacyResponses.RevisionsAgree` | directus_response.py:22-49 | both revisions classify statuses alike, agree on `item` for non-list `data`, and the old `errors` holds the new one |
| `LegacyResponses.RevisionsDiffer` | DirectusPyWrapper/directus_response.py:10-41 | on list `data` the new `item` is the head where the old one is the list; `[]` survives only in the old `items`; only the new `items` wraps an object; only the new constructor raises |
| `Client.BearerAuth.Apply` | DirectusPyWrapper/directus.py:17-20 | `BearerAuth.__call__`, writing into requests' case-insensitive headers; stated by `Client.BearerHeaderRoundTrip` |
| `Client.BearerHeaderRoundTrip` | DirectusPyWrapper/directus.py:17-20 | with a token the request carries exactly one authorization header, whatever its case before, holding `Bearer <token>`; without one the request is unchanged; no header with another name is touched |
| `Client.ToMapKeys` | DirectusPyWrapper/directus.py:27-29 | a dict comprehension has exactly the keys listed |
| `Client.ToMapLastWins` | DirectusPyWrapper/directus.py:27-29 | a key's value is the one its last occurrence carries |
| `Client.ParseTranslations` | DirectusPyWrapper/directus.py:23-29 | `parse_translations`; `Client.ParseTranslationsSpec` and `Client.ParseTranslationsLastWins` state when it is `None`, its keys and its values |
| `Client.ParseTranslationsSpec` | DirectusPyWrapper/directus.py:23-29 | `None` exactly for a missing or empty list, else one key per entry key |
| `Client.ParseTranslationsLastWins` | DirectusPyWrapper/directus.py:27-29 | a key's language maps to the translation of the last entry and row that carry them |
| `Client.Directus.constructor` | DirectusPyWrapper/directus.py:33-46 | a new client has no expiry and the given refresh token; a non-empty static token is set as both token and header |
| `Client.Directus.SetToken` | DirectusPyWrapper/directus.py:84-87 | the setter stores the token and rebuilds the header with it |
| `Client.Directus.LoginWithPassword` | DirectusPyWrapper/directus.py:101-114 | the e-mail/password branch leaves the state `PasswordLogin` describes, including what a failure part-way keeps |
| `Client.PasswordLoginSucceeds` | DirectusPyWrapper/directus.py:107-114 | a successful password login stores the item's token, refresh token and `expires`; the expiry is now + `expires`, and the header follows the token |
| `Client.PasswordLoginRejected` | DirectusPyWrapper/directus.py:107-108 | a reply with an error status raises and changes nothing |
| `Client.Directus.LoginAsWritten` | DirectusPyWrapper/directus.py:95-114 | `login` as written: a static token goes into `_token` only |
| `Client.LoginAsWrittenLeavesStaleHeader` | DirectusPyWrapper/directus.py:97-99 | after a token change, a static-token login makes the getter report the static token while the header keeps the changed one |
| `Client.LoginAsWrittenAgreesAtStart` | DirectusPyWrapper/directus.py:97-99 | while the token is the static one as `__init__` stores it (`token or None`) and the header holds it, the as-written and the corrected `login` coincide |
| `Client.StaleHeaderExample` | DirectusPyWrapper/directus.py:97-99 | `Directus(url, token="S")`, `token = "T"`, `login()`: the getter says S, the header `Bearer T` |
| `Client.Directus.Login` | DirectusPyWrapper/directus.py:95-114 | corrected `login`: the static token goes through the setter |
| `Client.LoginKeepsAuthInStep` | DirectusPyWrapper/directus.py:95-114 | a successful corrected login always leaves the header in step with the token |
| `Client.Directus.Refresh` | DirectusPyWrapper/directus.py:116-126 | `refresh` leaves the state `Refreshed` describes |
| `Client.RefreshKeepsAuthInStep` | DirectusPyWrapper/directus.py:123-126 | the header stays in step with the token after `refresh`, failed or not |
| `Client.RefreshSucceeds` | DirectusPyWrapper/directus.py:123-126 | a successful refresh stores the item's three values and leaves the expiry time as it was |
| `Client.Directus.Logout` | DirectusPyWrapper/directus.py:128-132 | `logout` clears only the session's auth and reports whether the status was 200 |
| `Client.Open` | DirectusPyWrapper/directus.py:33-48 | construction logs in (with `login` as written) exactly when both e-mail and password are non-empty, a raising login means no client, and a client always has its header in step with its token |
| `Text.CountPositiveIff` | DirectusPyWrapper/filter.py:23 | a string holds a character exactly when the character occurs in it at least once |
| `Text.SplitOn` | DirectusPyWrapper/filter.py:24 | `split` gives one more part than there are separators, and no part holds the separator |
| `Text.JoinSplit` | DirectusPyWrapper/filter.py:24 | joining the parts of a split gives back the string |
| `Text.SplitJoin` | DirectusPyWrapper/directus_request.py:29 | splitting a join of separator-free parts gives back the parts |
| `Text.SplitAfterFirst` | DirectusPyWrapper/filter.py:24 | splitting `a.t` with no dot in `a` gives `a` followed by the parts of `t` |
| `Text.RemoveAll` | DirectusPyWrapper/directus_request.py:25 | removing a pattern never lengthens the string |
| `Text.RemoveAllIsIdentityIff` | DirectusPyWrapper/directus_request.py:24-25 | removing a pattern changes nothing exactly when the string does not hold it |
| `Text.RemoveAllPrefix` | DirectusPyWrapper/directus_request.py:25 | removing `p` from `p + t`, where `t` does not hold `p`, gives `t` |
| `Python.In` | DirectusPyWrapper/directus_response.py:45 | `key in x` is key membership for a dict, and raises TypeError exactly for values that are not a dict, list or string |
| `Python.Subscript` | DirectusPyWrapper/directus.py:109-111 | `x[key]` succeeds exactly for a dict holding the key and gives its value; a dict without it raises KeyError |
| `Python.Str` | DirectusPyWrapper/directus_response.py:77 | `str` of a string is the string itself; only lists and dicts are not rendered |
| `Python.DigitsRoundTrip` | DirectusPyWrapper/directus_response.py:77 | `str` of a natural number reads back as that number |

## Left out

- **HTTP.**
  - The network, `requests.Session` and the clock are not modelled.
  - A server's reply is an input, as a status, a decoded body and the
    response's attributes.
  - The time is an input `now` in milliseconds.
- **Client operations that only pass a request to the server.**
  - On `DirectusRequest`: `read_one`, `create_one`/`create_many`,
    `update_one`/`update_many` and `delete_one`/`delete_many`.
  - On `Directus`: `read_me`, `read_settings`, `update_settings`,
    `read_translations`, `create_translations`, `download_file`,
    `close_session`, `collection`, `items`, `user`, `__enter__` and
    `__exit__`.
  - Each builds a URI (which `ResolveUri` covers) and a payload, sends
    the request, and wraps the reply. Their own logic is not modelled:
    `update_one` choosing between the collection URI and the item URI on
    `id is None`, the `{"keys", "data"}` payload of `update_many`,
    `read_translations` passing the reply's `items` to
    `parse_translations` (modelled as `Client.ParseTranslations`), `user`
    caching the current user, and `__exit__` logging out and closing the
    session.
- **Request encoding.**
  - The JSON text `json.dumps` produces is not modelled: objects are maps,
    so key order is not kept.
  - For GET, requests' query-string encoding is not modelled: the
    outgoing payload is the parameters as JSON.
- **Bodies.** A decoded response body is a JSON object. A body that is
  valid JSON but not an object (a bare list or number) is not modelled.
- **Floats.** Numbers are integers: floating-point values in filters,
  bodies or `expires` are not modelled.
- **`Logical` identity.** Composites are values. A program that keeps a
  reference to a `Logical` after handing it to `filter`/`filters`, and
  mutates it, or that places one composite in two trees, is not modelled.
  The aliasing of `Filter` leaves is modelled.
- **Response query.** `DirectusResponse.query` (the parameters that
  `read_many` passes along) is not kept in the model's response.
- **Logical operators.** The `LogicalOperators` enumeration is not part of
  this model. Its keys are taken to be `_and` and `_or`, and a `Filter`
  keys its group by the enumeration member, which serialises the same
  way.
- `Client.BearerAuth.Apply`: header names are compared by ASCII lower
  case; `str.lower` on other letters is not modelled.
- **Readers.** `Client.ParseBearer` and `Request.ParseSortKey` read a
  header value or a sort entry back, the way a server would. They model
  nothing in the client; they state what the client writes.
- `Client.ParseTranslations` takes well-formed entries. An entry lacking
  `key` or `translations`, or a row lacking `languages_code` or
  `translation`, raises in the source; that is not modelled.
- `Client.TokenOf`: an `access_token` that is neither a string nor `null`
  is reported as `UnsupportedToken`. The source would store it and format
  it into the header.
- `Python.Str`: `str` of a list or dict is reported as `Unrendered`
  rather than rendered. It is used only for the exception text of
  malformed error envelopes.
- `Responses.ExceptionText`: the text is modelled for a list of errors.
  - An empty dict or string iterates nothing.
  - Any other non-list raises TypeError, as in the source.
  - For a non-empty dict or string, the source raises while indexing a
    string; the model raises TypeError without distinguishing the step.

## Findings

| source | as written | input that shows it | evidently intended | confidence | as-written member | corrected member |
|---|---|---|---|---|---|---|
| DirectusPyWrapper/directus.py:97-99 | with a static token, `login` assigns `self._token` directly, so the `auth` header object keeps whatever token it had | `d = Directus(url, token="S")`; `d.token = "T"`; `d.login()`: `d.token` is `"S"` but requests are sent with `Bearer T` | the static token set through the `token` setter (as `__init__` does), so that the header follows it | medium, not executed | `Client.LoginAsWrittenLeavesStaleHeader` | `Client.LoginKeepsAuthInStep` |
