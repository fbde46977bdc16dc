/** A leaf filter (`Filter` in DirectusPyWrapper/filter.py): one comparison
    operator applied to several fields, combined under one logical operator.
    Serialisation rewrites the operator when it meets a `None` value and keeps
    the rewritten operator in the object. */
module Filters {
  import opened Wrappers
  import opened Json
  import opened Text
  import opened Operators
  import opened LogicalOperators

  /** `NotImplementedError("Filtering depth is limited to 2")`: a field path
      with two or more dots. */
  datatype FilterError = DepthExceeded(key: string)

  /** The operator after meeting `value`: `None` turns Equals into Null and
      NotEqual into NotNull; every other case keeps the operator. */
  function Rewrite(op: Operator, value: Json): Operator
  {
    if value == JNull && op == Equals then Null
    else if value == JNull && op == NotEqual then NotNull
    else op
  }

  /** `{op: value}`: the comparison written under a field. */
  function Comparison(op: Operator, value: Json): Json
  {
    Single(Suffix(op), value)
  }

  /** The fragment one keyword argument contributes: `{key: {op: value}}`,
      or `{a: {b: {op: value}}}` for a key `a.b`; deeper paths fail. */
  function Fragment(key: string, op: Operator, value: Json): Result<Json, FilterError>
  {
    if '.' in key then
      CountPositiveIff(key, '.');
      var fields := SplitOn(key, '.');
      if |fields| > 2 then Err(DepthExceeded(key))
      else Ok(Single(fields[0], Single(fields[1], Comparison(op, value))))
    else Ok(Single(key, Comparison(op, value)))
  }

  /** State of the serialisation loop: the operator so far and the fragments
      collected so far, or the error that ended the loop. */
  datatype Walked = Walked(op: Operator, fragments: Result<seq<Json>, FilterError>)

  /** The serialisation loop over the keyword arguments, in order. */
  function Walk(op: Operator, fields: seq<(string, Json)>): Walked
    decreases |fields|
  {
    if fields == [] then Walked(op, Ok([]))
    else
      var before := Walk(op, fields[..|fields| - 1]);
      if before.fragments.Err? then before
      else
        var key := fields[|fields| - 1].0;
        var value := fields[|fields| - 1].1;
        var op' := Rewrite(before.op, value);
        match Fragment(key, op', value)
        case Ok(f) => Walked(op', Ok(before.fragments.value + [f]))
        case Err(e) => Walked(op', Err(e))
  }

  /** The value `__json__` returns after the loop: a single fragment on its
      own, otherwise all fragments under the logical operator's key. */
  function LeafJson(w: Walked, logical: LogicalOperator): Result<Json, FilterError>
  {
    match w.fragments
    case Err(e) => Err(e)
    case Ok(fs) => if |fs| == 1 then Ok(fs[0]) else Ok(Single(Key(logical), JList(fs)))
  }

  class Filter {
    var operator: Operator
    const logicalOperator: LogicalOperator
    /** The keyword arguments, in the order they were given. */
    const filters: seq<(string, Json)>

    constructor(operator: Operator, logicalOperator: LogicalOperator, filters: seq<(string, Json)>)
      ensures this.operator == operator
      ensures this.logicalOperator == logicalOperator
      ensures this.filters == filters
    {
      this.operator := operator;
      this.logicalOperator := logicalOperator;
      this.filters := filters;
    }

    /** `__json__`: serialise, keeping any `None` rewrite of the operator. */
    method ToJson() returns (r: Result<Json, FilterError>)
      modifies this
      ensures operator == Walk(old(operator), filters).op
      ensures r == LeafJson(Walk(old(operator), filters), logicalOperator)
    {
      var fragments: seq<Json> := [];
      for i := 0 to |filters|
        invariant Walk(old(operator), filters[..i]) == Walked(operator, Ok(fragments))
      {
        assert filters[..i + 1][..i] == filters[..i];
        var key := filters[i].0;
        var value := filters[i].1;
        if value == JNull {
          if operator == Equals {
            operator := Null;
          } else if operator == NotEqual {
            operator := NotNull;
          }
        }
        if '.' in key {
          CountPositiveIff(key, '.');
          var fields := SplitOn(key, '.');
          if |fields| > 2 {
            WalkStopsAtError(old(operator), filters, i + 1);
            return Err(DepthExceeded(key));
          }
          fragments := fragments + [Single(fields[0], Single(fields[1], Single(Suffix(operator), value)))];
        } else {
          fragments := fragments + [Single(key, Single(Suffix(operator), value))];
        }
      }
      assert filters[..|filters|] == filters;
      if |fragments| == 1 {
        r := Ok(fragments[0]);
      } else {
        r := Ok(Single(Key(logicalOperator), JList(fragments)));
      }
    }
  }

  /** Once the loop has failed, later keys change nothing. */
  lemma {:induction false} WalkStopsAtError(op: Operator, fields: seq<(string, Json)>, k: nat)
    requires k <= |fields|
    requires Walk(op, fields[..k]).fragments.Err?
    ensures Walk(op, fields) == Walk(op, fields[..k])
    decreases |fields|
  {
    if k < |fields| {
      var init := fields[..|fields| - 1];
      assert init[..k] == fields[..k];
      WalkStopsAtError(op, init, k);
    } else {
      assert fields[..k] == fields;
    }
  }

  /** Some keyword argument is `None`. */
  predicate HasNull(fields: seq<(string, Json)>)
  {
    exists j :: 0 <= j < |fields| && fields[j].1 == JNull
  }

  /** The operator in force once `fields` have been met: rewritten as soon as
      one `None` value has been seen, and never changed back. */
  function OperatorAfter(op: Operator, fields: seq<(string, Json)>): Operator
  {
    if HasNull(fields) then Rewrite(op, JNull) else op
  }

  /** The rewrite only touches Equals and NotEqual, and a rewritten operator
      is not rewritten again. */
  lemma RewriteSettles(op: Operator, value: Json)
    ensures op != Equals && op != NotEqual ==> Rewrite(op, value) == op
    ensures Rewrite(Rewrite(op, JNull), value) == Rewrite(op, JNull)
    ensures value != JNull ==> Rewrite(op, value) == op
  {
  }

  lemma {:induction false} OperatorAfterSnoc(op: Operator, init: seq<(string, Json)>, last: (string, Json))
    ensures OperatorAfter(op, init + [last]) == Rewrite(OperatorAfter(op, init), last.1)
  {
    var fields := init + [last];
    if HasNull(init) {
      var j :| 0 <= j < |init| && init[j].1 == JNull;
      assert fields[j] == init[j];
    }
    if last.1 == JNull {
      assert fields[|init|] == last;
    }
  }

  /** A successful loop produces one fragment per keyword argument, in order;
      argument i is written with the operator in force after the first i+1
      arguments, and the operator left behind is the one in force at the end. */
  lemma {:induction false} WalkOk(op: Operator, fields: seq<(string, Json)>)
    requires Walk(op, fields).fragments.Ok?
    ensures Walk(op, fields).op == OperatorAfter(op, fields)
    ensures |Walk(op, fields).fragments.value| == |fields|
    ensures forall i :: 0 <= i < |fields| ==>
      Fragment(fields[i].0, OperatorAfter(op, fields[..i + 1]), fields[i].1)
        == Ok(Walk(op, fields).fragments.value[i])
    decreases |fields|
  {
    if fields == [] {
      assert !HasNull(fields);
    } else {
      var n := |fields| - 1;
      var init := fields[..n];
      assert init + [fields[n]] == fields;
      WalkOk(op, init);
      OperatorAfterSnoc(op, init, fields[n]);
      var frags := Walk(op, fields).fragments.value;
      forall i | 0 <= i < |fields|
        ensures Fragment(fields[i].0, OperatorAfter(op, fields[..i + 1]), fields[i].1) == Ok(frags[i])
      {
        if i < n {
          assert init[..i + 1] == fields[..i + 1];
        } else {
          assert fields[..i + 1] == fields;
        }
      }
    }
  }

  /** A fragment fails exactly for a key with two or more dots. */
  lemma FragmentFailsIff(key: string, op: Operator, value: Json)
    ensures Fragment(key, op, value).Err? <==> Count(key, '.') >= 2
  {
    CountPositiveIff(key, '.');
  }

  /** Some key has two or more dots. */
  predicate TooDeep(fields: seq<(string, Json)>)
  {
    exists i :: 0 <= i < |fields| && Count(fields[i].0, '.') >= 2
  }

  lemma TooDeepSnoc(init: seq<(string, Json)>, last: (string, Json))
    ensures TooDeep(init + [last]) <==> TooDeep(init) || Count(last.0, '.') >= 2
  {
    var fields := init + [last];
    if TooDeep(fields) {
      var i :| 0 <= i < |fields| && Count(fields[i].0, '.') >= 2;
      if i < |init| {
        assert fields[i] == init[i];
      }
    }
    if TooDeep(init) {
      var i :| 0 <= i < |init| && Count(init[i].0, '.') >= 2;
      assert fields[i] == init[i];
    }
    assert fields[|init|] == last;
  }

  /** The loop fails exactly when some key has two or more dots, whatever
      the operator it starts with. */
  lemma {:induction false} WalkFailsIff(op: Operator, fields: seq<(string, Json)>)
    ensures Walk(op, fields).fragments.Err? <==> TooDeep(fields)
    decreases |fields|
  {
    if fields != [] {
      var n := |fields| - 1;
      var init := fields[..n];
      WalkFailsIff(op, init);
      assert init + [fields[n]] == fields;
      TooDeepSnoc(init, fields[n]);
      var before := Walk(op, init);
      if before.fragments.Ok? {
        FragmentFailsIff(fields[n].0, Rewrite(before.op, fields[n].1), fields[n].1);
      }
    }
  }

  /** With one keyword argument the result is that argument's fragment on
      its own, with no logical-operator wrapper. */
  lemma SingleFieldFlattened(op: Operator, logical: LogicalOperator, key: string, value: Json)
    ensures LeafJson(Walk(op, [(key, value)]), logical) == Fragment(key, Rewrite(op, value), value)
    ensures Walk(op, [(key, value)]).op == Rewrite(op, value)
  {
    assert [(key, value)][..0] == [];
  }

  /** With zero or at least two keyword arguments the fragments stay under
      the logical operator's key, one per argument, in argument order. */
  lemma {:induction false} ManyFieldsWrapped(op: Operator, logical: LogicalOperator, fields: seq<(string, Json)>)
    requires |fields| != 1
    requires LeafJson(Walk(op, fields), logical).Ok?
    ensures exists frags: seq<Json> ::
      && LeafJson(Walk(op, fields), logical) == Ok(Single(Key(logical), JList(frags)))
      && |frags| == |fields|
      && forall i :: 0 <= i < |fields| ==>
           Fragment(fields[i].0, OperatorAfter(op, fields[..i + 1]), fields[i].1) == Ok(frags[i])
  {
    WalkOk(op, fields);
    var frags := Walk(op, fields).fragments.value;
    assert LeafJson(Walk(op, fields), logical) == Ok(Single(Key(logical), JList(frags)));
  }

  /** A key `a.b` (one dot) nests one level: `{a: {b: {op: value}}}`. */
  lemma DottedKeyNests(a: string, b: string, op: Operator, value: Json)
    requires '.' !in a && '.' !in b
    ensures Fragment(a + "." + b, op, value) == Ok(Single(a, Single(b, Comparison(op, value))))
  {
    var key := a + "." + b;
    assert key[|a|] == '.';
    SplitAfterFirst(a, '.', b);
    SplitWithoutSeparator(b, '.');
  }

  /** One key without a dot: its fragment, written with the operator its
      value leaves in force. */
  lemma WalkOnePlain(op: Operator, key: string, value: Json)
    requires '.' !in key
    ensures Walk(op, [(key, value)]) == Walked(Rewrite(op, value), Ok([Single(key, Comparison(Rewrite(op, value), value))]))
  {
    var x := Single(key, Comparison(Rewrite(op, value), value));
    assert [(key, value)][..0] == [] && [(key, value)][0] == (key, value);
    assert Fragment(key, Rewrite(op, value), value) == Ok(x);
    assert [] + [x] == [x];
  }

  /** Two keys without dots: the second is written with the operator the
      first left behind, rewritten by its own value. */
  lemma WalkTwoPlain(op: Operator, k1: string, v1: Json, k2: string, v2: Json)
    requires '.' !in k1 && '.' !in k2
    ensures
      var op1 := Rewrite(op, v1);
      var op2 := Rewrite(op1, v2);
      Walk(op, [(k1, v1), (k2, v2)])
        == Walked(op2, Ok([Single(k1, Comparison(op1, v1)), Single(k2, Comparison(op2, v2))]))
  {
    var fs := [(k1, v1), (k2, v2)];
    var op1 := Rewrite(op, v1);
    var op2 := Rewrite(op1, v2);
    var a := Single(k1, Comparison(op1, v1));
    var b := Single(k2, Comparison(op2, v2));
    assert fs[..|fs| - 1] == [(k1, v1)] && fs[|fs| - 1] == (k2, v2);
    WalkOnePlain(op, k1, v1);
    assert Fragment(k2, op2, v2) == Ok(b);
    assert [a] + [b] == [a, b];
  }

  /** An operator left behind by a successful serialisation is in force
      at every key of the next one. */
  lemma {:induction false} SettledOperatorInForce(op: Operator, fields: seq<(string, Json)>, i: nat)
    requires i < |fields|
    ensures OperatorAfter(OperatorAfter(op, fields), fields[..i + 1]) == OperatorAfter(op, fields)
  {
    if HasNull(fields[..i + 1]) {
      var j :| 0 <= j < i + 1 && fields[..i + 1][j].1 == JNull;
      assert fields[j].1 == JNull;
    }
  }

  /** Serialising a Filter a second time writes every key with the operator
      the first serialisation left behind, and leaves it unchanged. */
  lemma ReserialiseUniform(op: Operator, fields: seq<(string, Json)>)
    requires Walk(op, fields).fragments.Ok?
    ensures Walk(Walk(op, fields).op, fields).fragments.Ok?
    ensures Walk(Walk(op, fields).op, fields).op == Walk(op, fields).op
    ensures |Walk(Walk(op, fields).op, fields).fragments.value| == |fields|
    ensures forall i :: 0 <= i < |fields| ==>
      Fragment(fields[i].0, Walk(op, fields).op, fields[i].1)
        == Ok(Walk(Walk(op, fields).op, fields).fragments.value[i])
  {
    var op1 := Walk(op, fields).op;
    WalkOk(op, fields);
    WalkFailsIff(op, fields);
    WalkFailsIff(op1, fields);
    WalkOk(op1, fields);
    var frags := Walk(op1, fields).fragments.value;
    forall i | 0 <= i < |fields|
      ensures Fragment(fields[i].0, op1, fields[i].1) == Ok(frags[i])
    {
      SettledOperatorInForce(op, fields, i);
    }
  }
}
