/** Filter expressions: leaves (`Filter` objects) grouped under AND/OR
    (`Logical`, `_and`, `_or` in DirectusPyWrapper/logical.py, _and.py and
    _or.py), and the serialisation of a whole tree, which walks the leaves
    left to right and lets each leaf keep its operator rewrite. */
module Logical {
  import opened Wrappers
  import opened Json
  import opened Operators
  import opened LogicalOperators
  import opened Filters

  datatype Expr =
    | Leaf(filter: Filter)
    | Composite(op: LogicalOperator, children: seq<Expr>)

  /** `_and(*filters)`. */
  function AndOf(children: seq<Expr>): Expr
  {
    Composite(And, children)
  }

  /** `_or(*filters)`. */
  function OrOf(children: seq<Expr>): Expr
  {
    Composite(Or, children)
  }

  /** The Filter objects of a tree; one object may sit at several places. */
  function LeavesOf(e: Expr): set<Filter>
    decreases e
  {
    match e
    case Leaf(f) => {f}
    case Composite(_, cs) => set i, f | 0 <= i < |cs| && f in LeavesOf(cs[i]) :: f
  }

  /** The current operator of every Filter in `fs`. */
  ghost function OperatorsOf(fs: set<Filter>): map<Filter, Operator>
    reads fs
  {
    map f | f in fs :: f.operator
  }

  /** Result of serialising a tree, and the leaf operators afterwards. */
  datatype Serialised = Serialised(store: map<Filter, Operator>, json: Result<Json, FilterError>)
  datatype SerialisedList = SerialisedList(store: map<Filter, Operator>, jsons: Result<seq<Json>, FilterError>)

  /** Serialisation of a tree from a given assignment of leaf operators: a
      leaf as `Filter.__json__`, a composite as `{op: [children]}` with the
      children serialised left to right and the first failure ending it all. */
  function Eval(e: Expr, store: map<Filter, Operator>): (r: Serialised)
    requires LeavesOf(e) <= store.Keys
    ensures r.store.Keys == store.Keys
    ensures forall f :: f in store && f !in LeavesOf(e) ==> r.store[f] == store[f]
    decreases e
  {
    match e
    case Leaf(f) =>
      var w := Walk(store[f], f.filters);
      Serialised(store[f := w.op], LeafJson(w, f.logicalOperator))
    case Composite(op, cs) =>
      var l := EvalList(cs, store);
      match l.jsons
      case Err(err) => Serialised(l.store, Err(err))
      case Ok(js) => Serialised(l.store, Ok(Single(Key(op), JList(js))))
  }

  function EvalList(cs: seq<Expr>, store: map<Filter, Operator>): (r: SerialisedList)
    requires forall i :: 0 <= i < |cs| ==> LeavesOf(cs[i]) <= store.Keys
    ensures r.store.Keys == store.Keys
    ensures forall f :: f in store && (forall i :: 0 <= i < |cs| ==> f !in LeavesOf(cs[i])) ==> r.store[f] == store[f]
    decreases cs
  {
    if cs == [] then SerialisedList(store, Ok([]))
    else
      var before := EvalList(cs[..|cs| - 1], store);
      if before.jsons.Err? then before
      else
        var last := Eval(cs[|cs| - 1], before.store);
        match last.json
        case Err(err) => SerialisedList(last.store, Err(err))
        case Ok(j) => SerialisedList(last.store, Ok(before.jsons.value + [j]))
  }

  /** Serialise a tree (what `json.dumps` does through `__json__`), updating
      the operators of its leaves. `universe` is any set of Filters holding
      the tree's leaves; those outside the tree keep their operators. */
  method Serialise(e: Expr, ghost universe: set<Filter>) returns (r: Result<Json, FilterError>)
    requires LeavesOf(e) <= universe
    modifies LeavesOf(e)
    ensures Eval(e, old(OperatorsOf(universe))) == Serialised(OperatorsOf(universe), r)
    decreases e
  {
    match e
    case Leaf(f) =>
      r := f.ToJson();
      assert OperatorsOf(universe) == old(OperatorsOf(universe))[f := f.operator];
    case Composite(op, cs) =>
      var children: seq<Json> := [];
      for i := 0 to |cs|
        invariant EvalList(cs[..i], old(OperatorsOf(universe))) == SerialisedList(OperatorsOf(universe), Ok(children))
      {
        assert cs[..i + 1][..i] == cs[..i];
        assert LeavesOf(cs[i]) <= LeavesOf(e);
        var child := Serialise(cs[i], universe);
        if child.Err? {
          EvalListStopsAtError(cs, old(OperatorsOf(universe)), i + 1);
          return Err(child.error);
        }
        children := children + [child.value];
      }
      assert cs[..|cs|] == cs;
      r := Ok(Single(Key(op), JList(children)));
  }

  /** Once a child has failed, later children are not serialised. */
  lemma {:induction false} EvalListStopsAtError(cs: seq<Expr>, store: map<Filter, Operator>, k: nat)
    requires k <= |cs|
    requires forall i :: 0 <= i < |cs| ==> LeavesOf(cs[i]) <= store.Keys
    requires EvalList(cs[..k], store).jsons.Err?
    ensures EvalList(cs, store) == EvalList(cs[..k], store)
    decreases |cs|
  {
    if k < |cs| {
      var init := cs[..|cs| - 1];
      assert init[..k] == cs[..k];
      EvalListStopsAtError(init, store, k);
    } else {
      assert cs[..k] == cs;
    }
  }

  /** A successful list serialisation has one result per child. */
  lemma {:induction false} EvalListOkLength(cs: seq<Expr>, store: map<Filter, Operator>)
    requires forall i :: 0 <= i < |cs| ==> LeavesOf(cs[i]) <= store.Keys
    requires EvalList(cs, store).jsons.Ok?
    ensures |EvalList(cs, store).jsons.value| == |cs|
    decreases |cs|
  {
    if cs != [] {
      EvalListOkLength(cs[..|cs| - 1], store);
    }
  }

  /** A prefix of a successful list serialisation is the serialisation of
      that prefix of the children. */
  lemma {:induction false} EvalListPrefix(cs: seq<Expr>, store: map<Filter, Operator>, k: nat)
    requires forall j :: 0 <= j < |cs| ==> LeavesOf(cs[j]) <= store.Keys
    requires EvalList(cs, store).jsons.Ok? && k <= |cs|
    ensures EvalList(cs[..k], store).jsons.Ok?
    ensures |EvalList(cs, store).jsons.value| == |cs|
    ensures EvalList(cs[..k], store).jsons.value == EvalList(cs, store).jsons.value[..k]
    decreases |cs|
  {
    EvalListOkLength(cs, store);
    if k == |cs| {
      assert cs[..k] == cs;
    } else {
      var n := |cs| - 1;
      var init := cs[..n];
      EvalListSnoc(cs, store);
      forall j | 0 <= j < |init| ensures LeavesOf(init[j]) <= store.Keys {
        assert init[j] == cs[j];
      }
      EvalListPrefix(init, store, k);
      assert init[..k] == cs[..k];
    }
  }

  /** In a successful list serialisation, child i is serialised from the
      operators the first i children left behind. */
  lemma EvalListOkAt(cs: seq<Expr>, store: map<Filter, Operator>, i: nat)
    requires forall j :: 0 <= j < |cs| ==> LeavesOf(cs[j]) <= store.Keys
    requires EvalList(cs, store).jsons.Ok?
    requires i < |cs|
    ensures |EvalList(cs, store).jsons.value| == |cs|
    ensures Eval(cs[i], EvalList(cs[..i], store).store).json == Ok(EvalList(cs, store).jsons.value[i])
  {
    EvalListPrefix(cs, store, i + 1);
    var p := cs[..i + 1];
    forall j | 0 <= j < |p| ensures LeavesOf(p[j]) <= store.Keys {
      assert p[j] == cs[j];
    }
    EvalListSnoc(p, store);
    assert p[..i] == cs[..i] && p[i] == cs[i];
  }

  /** The last step of a successful list serialisation. */
  lemma EvalListSnoc(cs: seq<Expr>, store: map<Filter, Operator>)
    requires forall j :: 0 <= j < |cs| ==> LeavesOf(cs[j]) <= store.Keys
    requires cs != [] && EvalList(cs, store).jsons.Ok?
    ensures EvalList(cs[..|cs| - 1], store).jsons.Ok?
    ensures Eval(cs[|cs| - 1], EvalList(cs[..|cs| - 1], store).store).json.Ok?
    ensures EvalList(cs, store).store == Eval(cs[|cs| - 1], EvalList(cs[..|cs| - 1], store).store).store
    ensures EvalList(cs, store).jsons.value
      == EvalList(cs[..|cs| - 1], store).jsons.value + [Eval(cs[|cs| - 1], EvalList(cs[..|cs| - 1], store).store).json.value]
  {
  }

  /** A composite serialises to a single key, its logical operator's, over
      a list with exactly one entry per child in child order; it is never
      flattened, not even with a single child. */
  lemma CompositeShape(op: LogicalOperator, cs: seq<Expr>, store: map<Filter, Operator>)
    requires LeavesOf(Composite(op, cs)) <= store.Keys
    requires Eval(Composite(op, cs), store).json.Ok?
    ensures forall i :: 0 <= i < |cs| ==> LeavesOf(cs[i]) <= store.Keys
    ensures EvalList(cs, store).jsons.Ok?
    ensures Eval(Composite(op, cs), store).json == Ok(Single(Key(op), JList(EvalList(cs, store).jsons.value)))
    ensures |EvalList(cs, store).jsons.value| == |cs|
    ensures forall i :: 0 <= i < |cs| ==>
      Eval(cs[i], EvalList(cs[..i], store).store).json == Ok(EvalList(cs, store).jsons.value[i])
  {
    forall i | 0 <= i < |cs| ensures LeavesOf(cs[i]) <= store.Keys {
      assert LeavesOf(cs[i]) <= LeavesOf(Composite(op, cs));
    }
    EvalListOkLength(cs, store);
    forall i | 0 <= i < |cs|
      ensures Eval(cs[i], EvalList(cs[..i], store).store).json == Ok(EvalList(cs, store).jsons.value[i])
    {
      EvalListOkAt(cs, store, i);
    }
  }

  /** `_and()` and `_or()` with no children serialise to `{op: []}` and
      change no operator. */
  lemma EmptyComposite(op: LogicalOperator, store: map<Filter, Operator>)
    ensures Eval(Composite(op, []), store) == Serialised(store, Ok(Single(Key(op), JList([]))))
  {
  }

  /** `_and(...)` serialises under the AND key, `_or(...)` under the OR key,
      each with one entry per argument. */
  lemma AndOrKeys(cs: seq<Expr>, store: map<Filter, Operator>)
    requires LeavesOf(AndOf(cs)) <= store.Keys
    ensures LeavesOf(OrOf(cs)) == LeavesOf(AndOf(cs))
    ensures Eval(AndOf(cs), store).json.Ok? ==>
      Eval(AndOf(cs), store).json.value.fields.Keys == {Key(And)}
      && |Eval(AndOf(cs), store).json.value.fields[Key(And)].items| == |cs|
    ensures Eval(OrOf(cs), store).json.Ok? ==>
      Eval(OrOf(cs), store).json.value.fields.Keys == {Key(Or)}
      && |Eval(OrOf(cs), store).json.value.fields[Key(Or)].items| == |cs|
  {
    if Eval(AndOf(cs), store).json.Ok? {
      CompositeShape(And, cs, store);
    }
    if Eval(OrOf(cs), store).json.Ok? {
      CompositeShape(Or, cs, store);
    }
  }

  /** Two children are serialised one after the other: the second sees the
      operators the first left behind. */
  lemma EvalPair(op: LogicalOperator, x: Expr, y: Expr, store: map<Filter, Operator>)
    requires LeavesOf(x) <= store.Keys && LeavesOf(y) <= store.Keys
    requires Eval(x, store).json.Ok? && Eval(y, Eval(x, store).store).json.Ok?
    ensures LeavesOf(Composite(op, [x, y])) <= store.Keys
    ensures Eval(Composite(op, [x, y]), store) == Serialised(
      Eval(y, Eval(x, store).store).store,
      Ok(Single(Key(op), JList([Eval(x, store).json.value, Eval(y, Eval(x, store).store).json.value]))))
  {
    var cs := [x, y];
    forall f | f in LeavesOf(Composite(op, cs)) ensures f in store.Keys {
      var i :| 0 <= i < |cs| && f in LeavesOf(cs[i]);
    }
    assert cs[..1] == [x] && [x][..0] == [];
    var j1 := Eval(x, store).json.value;
    var j2 := Eval(y, Eval(x, store).store).json.value;
    assert [] + [j1] == [j1] && [j1] + [j2] == [j1, j2];
    assert EvalList([x], store) == SerialisedList(Eval(x, store).store, Ok([j1]));
    assert EvalList(cs, store) == SerialisedList(Eval(y, Eval(x, store).store).store, Ok([j1, j2]));
  }

  /** No leaf holds a `None` value. */
  predicate NoNulls(e: Expr)
  {
    forall f :: f in LeavesOf(e) ==> !HasNull(f.filters)
  }

  /** Without `None` values serialisation rewrites nothing: every leaf keeps
      its operator. */
  lemma {:induction false} NoNullsKeepOperators(e: Expr, store: map<Filter, Operator>)
    requires LeavesOf(e) <= store.Keys
    requires NoNulls(e)
    ensures Eval(e, store).store == store
    decreases e
  {
    match e
    case Leaf(f) =>
      var w := Walk(store[f], f.filters);
      if w.fragments.Ok? {
        WalkOk(store[f], f.filters);
      } else {
        NoNullWalkKeepsOperator(store[f], f.filters);
      }
      assert store[f := w.op] == store;
    case Composite(op, cs) =>
      forall i | 0 <= i < |cs| ensures LeavesOf(cs[i]) <= LeavesOf(e) { }
      NoNullsListKeepOperators(cs, store, e);
  }

  lemma {:induction false} NoNullsListKeepOperators(cs: seq<Expr>, store: map<Filter, Operator>, parent: Expr)
    requires parent.Composite? && cs <= parent.children
    requires LeavesOf(parent) <= store.Keys && NoNulls(parent)
    ensures forall i :: 0 <= i < |cs| ==> LeavesOf(cs[i]) <= store.Keys
    ensures EvalList(cs, store).store == store
    decreases parent, |cs|
  {
    forall i | 0 <= i < |cs| ensures LeavesOf(cs[i]) <= LeavesOf(parent) {
      assert cs[i] == parent.children[i];
    }
    if cs != [] {
      var n := |cs| - 1;
      NoNullsListKeepOperators(cs[..n], store, parent);
      if EvalList(cs[..n], store).jsons.Ok? {
        assert cs[n] == parent.children[n];
        NoNullsKeepOperators(cs[n], store);
      }
    }
  }

  lemma {:induction false} NoNullWalkKeepsOperator(op: Operator, fields: seq<(string, Json)>)
    requires !HasNull(fields)
    ensures Walk(op, fields).op == op
    decreases |fields|
  {
    if fields != [] {
      var n := |fields| - 1;
      assert !HasNull(fields[..n]) by {
        forall j | 0 <= j < n ensures fields[..n][j].1 != JNull {
          assert fields[..n][j] == fields[j];
        }
      }
      NoNullWalkKeepsOperator(op, fields[..n]);
      assert fields[n].1 != JNull;
    }
  }

  /** One Filter shared by two places of a tree is serialised twice, and the
      second time it already carries the rewrite the first time made: with
      `k1=v1, k2=None` under Equals the first copy writes `k1` with Equals,
      the second with Null. */
  lemma SharedLeafSeesRewrite(f: Filter, op: LogicalOperator, k1: string, v1: Json, k2: string)
    requires f.filters == [(k1, v1), (k2, JNull)] && '.' !in k1 && '.' !in k2 && v1 != JNull
    ensures
      var key := Key(f.logicalOperator);
      var b := Single(k2, Comparison(Null, JNull));
      Eval(Composite(op, [Leaf(f), Leaf(f)]), map[f := Equals]) == Serialised(
        map[f := Null],
        Ok(Single(Key(op), JList([
          Single(key, JList([Single(k1, Comparison(Equals, v1)), b])),
          Single(key, JList([Single(k1, Comparison(Null, v1)), b]))]))))
  {
    var key := Key(f.logicalOperator);
    var b := Single(k2, Comparison(Null, JNull));
    var j1 := Single(key, JList([Single(k1, Comparison(Equals, v1)), b]));
    var j2 := Single(key, JList([Single(k1, Comparison(Null, v1)), b]));
    var s0, s1 := map[f := Equals], map[f := Null];
    assert s0[f := Null] == s1 && s1[f := Null] == s1;
    assert Eval(Leaf(f), s0) == Serialised(s1, Ok(j1)) by {
      WalkTwoPlain(Equals, k1, v1, k2, JNull);
    }
    assert Eval(Leaf(f), s1) == Serialised(s1, Ok(j2)) by {
      WalkTwoPlain(Null, k1, v1, k2, JNull);
    }
    EvalPair(op, Leaf(f), Leaf(f), s0);
  }
}
