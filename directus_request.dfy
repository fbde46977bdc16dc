/** `DirectusRequest` (DirectusPyWrapper/directus_request.py): a query
    builder over one collection whose methods fill a parameter bag, and
    `read_many`, which serialises the bag and turns the server's reply into
    a response. */
module Request {
  import opened Wrappers
  import opened Json
  import opened Text
  import opened Python
  import opened Http
  import opened Operators
  import opened LogicalOperators
  import opened AggregationOperators
  import opened Filters
  import opened Logical
  import Responses

  /** A value in the parameter bag. */
  datatype Param =
    | PText(text: string)                  // `fields`, `groupBy`, `meta`
    | PSort(keys: seq<string>)             // `sort`
    | PValue(value: Json)                  // `search`, `page`, `limit`, `offset`
    | PAggregate(spec: map<string, Json>)  // `aggregate`
    | PFilter(expr: Expr)                  // `filter`

  /** Why `read_many` gave no response. */
  datatype ReadError =
    | Unsupported(error: PyError)                // an unknown method name
    | Serialisation(cause: FilterError)          // a filter key nested too deep
    | Server(exception: Responses.DirectusException)

  // ------------------------------------------------------------------ URIs

  const SystemPrefix: string := "directus_"

  /** `uri`: system collections (any name holding `directus_`) live at the
      root with every `directus_` removed, the rest under `/items/`. */
  function ResolveUri(url: string, collection: string): string
  {
    if Text.Contains(collection, SystemPrefix) then url + "/" + RemoveAll(collection, SystemPrefix)
    else url + "/items/" + collection
  }

  lemma ContainsOwnPrefix(pat: string, t: string)
    ensures Text.Contains(pat + t, pat)
  {
    assert (pat + t)[..|pat|] == pat;
  }

  /** `directus_users` is served at `url/users`. */
  lemma SystemCollectionUri(url: string, name: string)
    requires !Text.Contains(name, SystemPrefix)
    ensures ResolveUri(url, SystemPrefix + name) == url + "/" + name
  {
    ContainsOwnPrefix(SystemPrefix, name);
    RemoveAllPrefix(SystemPrefix, name);
  }

  /** Any other collection is served under `url/items/`. */
  lemma ItemCollectionUri(url: string, collection: string)
    requires !Text.Contains(collection, SystemPrefix)
    ensures ResolveUri(url, collection) == url + "/items/" + collection
  {
  }

  /** Either way the path names the collection with `directus_` removed,
      and names it unchanged exactly when it holds no `directus_`. */
  lemma UriNamesCollection(url: string, collection: string)
    ensures ResolveUri(url, collection) == url + "/" + RemoveAll(collection, SystemPrefix)
         || ResolveUri(url, collection) == url + "/items/" + RemoveAll(collection, SystemPrefix)
    ensures RemoveAll(collection, SystemPrefix) == collection <==> !Text.Contains(collection, SystemPrefix)
  {
    RemoveAllIsIdentityIff(collection, SystemPrefix);
  }

  // --------------------------------------------------------- sort and lists

  /** One `sort` entry: the field, prefixed by `-` when descending. */
  function SortKey(field: string, asc: bool): string
  {
    if asc then field else "-" + field
  }

  /** How the server reads a `sort` entry back. This reader is not part
      of the client; it states what a sort entry carries. */
  function ParseSortKey(key: string): (string, bool)
  {
    if key != [] && key[0] == '-' then (key[1..], false) else (key, true)
  }

  /** A sort entry reads back as the field and direction it was built from,
      provided an ascending field does not itself start with `-`. */
  lemma SortKeyRoundTrip(field: string, asc: bool)
    requires asc && field != [] ==> field[0] != '-'
    ensures ParseSortKey(SortKey(field, asc)) == (field, asc)
  {
    if !asc {
      assert ("-" + field)[1..] == field;
    }
  }

  /** `','.join(fields)` splits back into the fields when none holds a comma. */
  lemma FieldListRoundTrip(fields: seq<string>)
    requires |fields| >= 1
    requires forall i :: 0 <= i < |fields| ==> ',' !in fields[i]
    ensures SplitOn(Join(fields, ","), ',') == fields
  {
    SplitJoin(fields, ',');
  }

  // ------------------------------------------------------------ filter merge

  /** The filter in a bag, if any. */
  function CurrentFilter(params: map<string, Param>): Option<Expr>
  {
    if "filter" in params && params["filter"].PFilter? then Some(params["filter"].expr) else None
  }

  /** The Filter objects the bag's filter holds. */
  function FilterLeaves(params: map<string, Param>): set<Filters.Filter>
  {
    match CurrentFilter(params)
    case Some(e) => LeavesOf(e)
    case None => {}
  }

  /** `filter(...)`: the first Filter is stored as it is, a later one is
      appended to a composite, or paired with a lone Filter under AND. */
  function Merge(current: Option<Expr>, f: Filters.Filter): Expr
  {
    match current
    case None => Leaf(f)
    case Some(Composite(op, cs)) => Composite(op, cs + [Leaf(f)])
    case Some(Leaf(g)) => AndOf([Leaf(g), Leaf(f)])
  }

  /** `filters([...])`: an AND of the list when there is no filter yet, the
      composite extended otherwise; a lone Filter has no list to extend. */
  function MergeMany(current: Option<Expr>, es: seq<Expr>): Result<Expr, PyError>
  {
    match current
    case None => Ok(AndOf(es))
    case Some(Composite(op, cs)) => Ok(Composite(op, cs + es))
    case Some(Leaf(_)) => Err(AttributeError("extend"))
  }

  /** The leaves of a composite whose children are concatenated. */
  lemma LeavesOfAppend(op: LogicalOperator, cs: seq<Expr>, ds: seq<Expr>)
    ensures LeavesOf(Composite(op, cs + ds)) == LeavesOf(Composite(op, cs)) + LeavesOf(Composite(op, ds))
  {
    var all := cs + ds;
    forall f | f in LeavesOf(Composite(op, all))
      ensures f in LeavesOf(Composite(op, cs)) + LeavesOf(Composite(op, ds))
    {
      var i :| 0 <= i < |all| && f in LeavesOf(all[i]);
      if i < |cs| {
        assert all[i] == cs[i];
      } else {
        assert all[i] == ds[i - |cs|];
      }
    }
    forall f | f in LeavesOf(Composite(op, cs)) + LeavesOf(Composite(op, ds))
      ensures f in LeavesOf(Composite(op, all))
    {
      if f in LeavesOf(Composite(op, cs)) {
        var i :| 0 <= i < |cs| && f in LeavesOf(cs[i]);
        assert all[i] == cs[i];
      } else {
        var i :| 0 <= i < |ds| && f in LeavesOf(ds[i]);
        assert all[|cs| + i] == ds[i];
      }
    }
  }

  /** A merge adds exactly the new Filter to the tree's leaves, and what was
      there stays: a composite keeps its operator and its children, gaining
      the new leaf last; a lone Filter becomes the first of two AND children. */
  lemma MergeAddsLeaf(current: Option<Expr>, f: Filters.Filter)
    ensures LeavesOf(Merge(current, f)) == (if current.Some? then LeavesOf(current.value) else {}) + {f}
    ensures current.Some? && current.value.Composite? ==>
      var m := Merge(current, f);
      m.Composite? && m.op == current.value.op && |m.children| == |current.value.children| + 1
      && m.children[..|current.value.children|] == current.value.children && m.children[|current.value.children|] == Leaf(f)
    ensures current.Some? && current.value.Leaf? ==> Merge(current, f) == AndOf([current.value, Leaf(f)])
    ensures current.None? ==> Merge(current, f) == Leaf(f)
  {
    match current
    case None =>
    case Some(Composite(op, cs)) =>
      LeavesOfAppend(op, cs, [Leaf(f)]);
      assert LeavesOf(Composite(op, [Leaf(f)])) == {f} by {
        assert LeavesOf([Leaf(f)][0]) == {f};
      }
      assert (cs + [Leaf(f)])[..|cs|] == cs;
    case Some(Leaf(g)) =>
      LeavesOfAppend(And, [Leaf(g)], [Leaf(f)]);
      assert [Leaf(g)] + [Leaf(f)] == [Leaf(g), Leaf(f)];
      assert LeavesOf(Composite(And, [Leaf(f)])) == {f} by {
        assert LeavesOf([Leaf(f)][0]) == {f};
      }
      assert LeavesOf(Composite(And, [Leaf(g)])) == {g} by {
        assert LeavesOf([Leaf(g)][0]) == {g};
      }
  }

  /** `filters` keeps the list in order after what was there, and fails only
      on a lone Filter. */
  lemma MergeManyCases(current: Option<Expr>, es: seq<Expr>)
    ensures MergeMany(current, es).Err? <==> current.Some? && current.value.Leaf?
    ensures current.None? ==> MergeMany(current, es) == Ok(Composite(And, es))
    ensures current.Some? && current.value.Composite? ==>
      MergeMany(current, es).value.op == current.value.op
      && MergeMany(current, es).value.children == current.value.children + es
  {
  }

  /** The filter after a run of `filter(...)` calls on a fresh bag. */
  function MergeAll(fs: seq<Filters.Filter>): Option<Expr>
    decreases |fs|
  {
    if fs == [] then None else Some(Merge(MergeAll(fs[..|fs| - 1]), fs[|fs| - 1]))
  }

  function Leaves(fs: seq<Filters.Filter>): (r: seq<Expr>)
    ensures |r| == |fs| && forall i :: 0 <= i < |fs| ==> r[i] == Leaf(fs[i])
    decreases |fs|
  {
    if fs == [] then [] else Leaves(fs[..|fs| - 1]) + [Leaf(fs[|fs| - 1])]
  }

  /** Successive `filter(...)` calls: one call stores the Filter itself,
      two or more give a single AND over all of them in call order. */
  lemma {:induction false} SuccessiveFilters(fs: seq<Filters.Filter>)
    ensures |fs| == 1 ==> MergeAll(fs) == Some(Leaf(fs[0]))
    ensures |fs| >= 2 ==> MergeAll(fs) == Some(AndOf(Leaves(fs)))
    decreases |fs|
  {
    if |fs| >= 2 {
      var init := fs[..|fs| - 1];
      SuccessiveFilters(init);
      if |fs| == 2 {
        assert init[..0] == [];
        assert Leaves(fs) == [Leaf(fs[0]), Leaf(fs[1])];
      }
    } else if |fs| == 1 {
      assert fs[..0] == [];
    }
  }

  // ------------------------------------------------------------ the builder

  /** The bag as JSON, with `filterJson` standing for the serialised filter. */
  function ParamJson(p: Param, filterJson: Json): Json
  {
    match p
    case PText(t) => JStr(t)
    case PSort(keys) => JList(seq(|keys|, i requires 0 <= i < |keys| => JStr(keys[i])))
    case PValue(v) => v
    case PAggregate(spec) => JObject(spec)
    case PFilter(_) => filterJson
  }

  function ParamsJson(params: map<string, Param>, filterJson: Json): (r: map<string, Json>)
    ensures r.Keys == params.Keys
  {
    map k | k in params :: ParamJson(params[k], filterJson)
  }

  /** What `read_many` sends: SEARCH with `{"query": params}` as its body,
      or GET with the parameters as its query. */
  function Payload(verb: string, params: map<string, Json>): map<string, Json>
  {
    if verb == "search" then map["query" := JObject(params)] else params
  }

  class DirectusRequest {
    /** The client's base URL and the collection this request is for. */
    const url: string
    const collection: string
    var params: map<string, Param>

    /** Only `filter`/`filters` write `filter`, only `sort` writes `sort`. */
    ghost predicate Valid()
      reads this
    {
      && ("filter" in params ==> params["filter"].PFilter?)
      && ("sort" in params ==> params["sort"].PSort?)
    }

    constructor(url: string, collection: string)
      ensures this.url == url && this.collection == collection
      ensures params == map[]
      ensures Valid()
    {
      this.url := url;
      this.collection := collection;
      params := map[];
    }

    /** `fields(*fields)`. */
    method Fields(fields: seq<string>) returns (r: DirectusRequest)
      requires Valid()
      modifies this
      ensures Valid() && r == this
      ensures params == old(params)["fields" := PText(Join(fields, ","))]
    {
      params := params["fields" := PText(Join(fields, ","))];
      r := this;
    }

    /** `filter(operator=Equals, logical_operator=And, **filters)`; `added` is the new
        Filter object. */
    method Filter(operator: Operator := Equals, logical: LogicalOperator := And, kwargs: seq<(string, Json)>)
      returns (r: DirectusRequest, ghost added: Filters.Filter)
      requires Valid()
      modifies this
      ensures Valid() && r == this
      ensures fresh(added)
      ensures added.operator == operator && added.logicalOperator == logical && added.filters == kwargs
      ensures params == old(params)["filter" := PFilter(Merge(CurrentFilter(old(params)), added))]
    {
      var f := new Filters.Filter(operator, logical, kwargs);
      added := f;
      if "filter" in params {
        var current := params["filter"].expr;
        if current.Composite? {
          params := params["filter" := PFilter(Composite(current.op, current.children + [Leaf(f)]))];
        } else {
          params := params["filter" := PFilter(AndOf([current, Leaf(f)]))];
        }
      } else {
        params := params["filter" := PFilter(Leaf(f))];
      }
      r := this;
    }

    /** `filters([...])`: raises AttributeError when the bag holds a lone
        Filter, and then changes nothing. */
    method Filters(es: seq<Expr>) returns (r: Result<DirectusRequest, PyError>)
      requires Valid()
      modifies this
      ensures Valid()
      ensures MergeMany(CurrentFilter(old(params)), es).Err? ==>
        r == Err(MergeMany(CurrentFilter(old(params)), es).error) && params == old(params)
      ensures MergeMany(CurrentFilter(old(params)), es).Ok? ==>
        r == Ok(this) && params == old(params)["filter" := PFilter(MergeMany(CurrentFilter(old(params)), es).value)]
    {
      if "filter" in params {
        var current := params["filter"].expr;
        if current.Leaf? {
          return Err(AttributeError("extend"));
        }
        params := params["filter" := PFilter(Composite(current.op, current.children + es))];
      } else {
        params := params["filter" := PFilter(AndOf(es))];
      }
      r := Ok(this);
    }

    /** `sort(field, asc=True)`: appended after the earlier sort keys. */
    method Sort(field: string, asc: bool := true) returns (r: DirectusRequest)
      requires Valid()
      modifies this
      ensures Valid() && r == this
      ensures params == old(params)["sort" := PSort(
        (if "sort" in old(params) then old(params)["sort"].keys else []) + [SortKey(field, asc)])]
    {
      if "sort" !in params {
        params := params["sort" := PSort([])];
      }
      var key := if asc then field else "-" + field;
      params := params["sort" := PSort(params["sort"].keys + [key])];
      r := this;
    }

    /** `search(search=1)`. */
    method Search(search: Json := JInt(1)) returns (r: DirectusRequest)
      requires Valid()
      modifies this
      ensures Valid() && r == this
      ensures params == old(params)["search" := PValue(search)]
    {
      params := params["search" := PValue(search)];
      r := this;
    }

    /** `page(page=1)`. */
    method Page(page: Json := JInt(1)) returns (r: DirectusRequest)
      requires Valid()
      modifies this
      ensures Valid() && r == this
      ensures params == old(params)["page" := PValue(page)]
    {
      params := params["page" := PValue(page)];
      r := this;
    }

    /** `limit(limit=-1)`. */
    method Limit(limit: Json := JInt(-1)) returns (r: DirectusRequest)
      requires Valid()
      modifies this
      ensures Valid() && r == this
      ensures params == old(params)["limit" := PValue(limit)]
    {
      params := params["limit" := PValue(limit)];
      r := this;
    }

    /** `offset(offset=0)`. */
    method Offset(offset: Json := JInt(0)) returns (r: DirectusRequest)
      requires Valid()
      modifies this
      ensures Valid() && r == this
      ensures params == old(params)["offset" := PValue(offset)]
    {
      params := params["offset" := PValue(offset)];
      r := this;
    }

    /** `include_count()`: `meta = '*'`. */
    method IncludeCount() returns (r: DirectusRequest)
      requires Valid()
      modifies this
      ensures Valid() && r == this
      ensures params == old(params)["meta" := PText("*")]
    {
      params := params["meta" := PText("*")];
      r := this;
    }

    /** `aggregate(operator=Count, field='*')`: `{operator.value: field}`. */
    method Aggregate(operator: AggregationOperator := Count, field: Json := JStr("*")) returns (r: DirectusRequest)
      requires Valid()
      modifies this
      ensures Valid() && r == this
      ensures params == old(params)["aggregate" := PAggregate(map[Name(operator) := field])]
    {
      params := params["aggregate" := PAggregate(map[Name(operator) := field])];
      r := this;
    }

    /** `group_by(*fields)`. */
    method GroupBy(fields: seq<string>) returns (r: DirectusRequest)
      requires Valid()
      modifies this
      ensures Valid() && r == this
      ensures params == old(params)["groupBy" := PText(Join(fields, ","))]
    {
      params := params["groupBy" := PText(Join(fields, ","))];
      r := this;
    }

    /** `read_many(method="search")`: only `search` and `get` are known, and any other
        name is refused before anything is serialised or sent. Otherwise the
        filter is serialised (which may rewrite and keep leaf operators, or
        fail on a too-deep key before anything is sent), the request goes
        out, and `reply` is what the server answers. */
    method ReadMany(verb: string := "search", reply: Reply) returns (sent: Option<Outgoing>, r: Result<Responses.Response, ReadError>)
      requires Valid()
      modifies FilterLeaves(params)
      ensures verb != "search" && verb != "get" ==>
        sent == None && r == Err(Unsupported(ValueError("Method '" + verb + "' not supported")))
        && OperatorsOf(FilterLeaves(params)) == old(OperatorsOf(FilterLeaves(params)))
      ensures (verb == "search" || verb == "get") && CurrentFilter(params).None? ==>
        && sent == Some(Outgoing(if verb == "search" then "SEARCH" else "GET", ResolveUri(url, collection),
                                 Payload(verb, ParamsJson(params, JNull))))
        && r == (match Responses.New(reply) case Ok(resp) => Ok(resp) case Err(e) => Err(Server(e)))
      ensures (verb == "search" || verb == "get") && CurrentFilter(params).Some? ==>
        var s := Eval(CurrentFilter(params).value, old(OperatorsOf(FilterLeaves(params))));
        && OperatorsOf(FilterLeaves(params)) == s.store
        && (s.json.Err? ==> sent == None && r == Err(Serialisation(s.json.error)))
        && (s.json.Ok? ==>
              && sent == Some(Outgoing(if verb == "search" then "SEARCH" else "GET", ResolveUri(url, collection),
                                       Payload(verb, ParamsJson(params, s.json.value))))
              && r == (match Responses.New(reply) case Ok(resp) => Ok(resp) case Err(e) => Err(Server(e))))
    {
      if verb != "search" && verb != "get" {
        return None, Err(Unsupported(ValueError("Method '" + verb + "' not supported")));
      }
      var filterJson := JNull;
      if "filter" in params {
        var serialised := Serialise(params["filter"].expr, FilterLeaves(params));
        if serialised.Err? {
          return None, Err(Serialisation(serialised.error));
        }
        filterJson := serialised.value;
      }
      var query := ParamsJson(params, filterJson);
      if verb == "search" {
        sent := Some(Outgoing("SEARCH", ResolveUri(url, collection), map["query" := JObject(query)]));
      } else {
        sent := Some(Outgoing("GET", ResolveUri(url, collection), query));
      }
      var response := Responses.New(reply);
      match response
      case Ok(resp) => r := Ok(resp);
      case Err(e) => r := Err(Server(e));
    }
  }

  /** The docstring's chain: `.filter(Equals, Or, first_name="Panos",
      location=None).filter(Equals, last_name="Stavrianos")` on a fresh
      request leaves one AND of the two Filters, in call order. */
  method DocstringChain(url: string, collection: string) returns (req: DirectusRequest)
    ensures req.Valid() && req.params.Keys == {"filter"}
    ensures req.params["filter"].PFilter?
    ensures
      var e := req.params["filter"].expr;
      && e.Composite? && e.op == And && |e.children| == 2
      && e.children[0].Leaf? && e.children[1].Leaf?
      && e.children[0].filter.filters == [("first_name", JStr("Panos")), ("location", JNull)]
      && e.children[0].filter.logicalOperator == Or
      && e.children[1].filter.filters == [("last_name", JStr("Stavrianos"))]
      && e.children[0].filter.operator == Equals && e.children[1].filter.operator == Equals
  {
    req := new DirectusRequest(url, collection);
    var _, first := req.Filter(Equals, Or, [("first_name", JStr("Panos")), ("location", JNull)]);
    var _, second := req.Filter(Equals, kwargs := [("last_name", JStr("Stavrianos"))]);
  }

  /** What that chain sends, for any field names without dots and any
      values (the docstring's `first_name="Panos"`, `location=None`,
      `last_name="Stavrianos"`): the OR Filter has two fields and is kept
      under its key, `None` switches it from Equals to Null for its second
      field (and for good), and the lone `last_name` Filter is flattened to
      its single fragment; the outer AND lists both in call order. */
  lemma DocstringChainJson(first: Filters.Filter, second: Filters.Filter,
                           k1: string, v1: Json, k2: string, k3: string, v3: Json)
    requires first != second
    requires '.' !in k1 && '.' !in k2 && '.' !in k3 && v1 != JNull && v3 != JNull
    requires first.filters == [(k1, v1), (k2, JNull)] && first.logicalOperator == Or
    requires second.filters == [(k3, v3)]
    ensures Eval(AndOf([Leaf(first), Leaf(second)]), map[first := Equals, second := Equals]) == Logical.Serialised(
      map[first := Null, second := Equals],
      Ok(Single(Key(And), JList([
        Single(Key(Or), JList([Single(k1, Comparison(Equals, v1)), Single(k2, Comparison(Null, JNull))])),
        Single(k3, Comparison(Equals, v3))]))))
  {
    WalkTwoPlain(Equals, k1, v1, k2, JNull);
    WalkOnePlain(Equals, k3, v3);
    var s0 := map[first := Equals, second := Equals];
    var s1 := map[first := Null, second := Equals];
    assert s0[first := Null] == s1 && s1[second := Equals] == s1;
    EvalPair(And, Leaf(first), Leaf(second), s0);
  }
}
