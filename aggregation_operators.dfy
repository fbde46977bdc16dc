/** The aggregation functions of a Directus query
    (`AggregationOperators` in DirectusPyWrapper/aggregation_operators.py). */
module AggregationOperators {
  import opened Wrappers

  datatype AggregationOperator =
    | Count | CountDistinct | CountAll
    | Sum | SumDistinct
    | Average | AverageDistinct
    | Minimum | Maximum

  /** The enum member's value: the key of the `aggregate` parameter. */
  function Name(op: AggregationOperator): (s: string)
    ensures |s| >= 3
  {
    match op
    case Count => "count"
    case CountDistinct => "countDistinct"
    case CountAll => "countAll"
    case Sum => "sum"
    case SumDistinct => "sumDistinct"
    case Average => "avg"
    case AverageDistinct => "avgDistinct"
    case Minimum => "min"
    case Maximum => "max"
  }

  /** `AggregationOperators(s)`: the member whose value is `s`, if any. */
  function FromName(s: string): (r: Option<AggregationOperator>)
    ensures r.Some? ==> Name(r.value) == s
  {
    if s == "count" then Some(Count)
    else if s == "countDistinct" then Some(CountDistinct)
    else if s == "countAll" then Some(CountAll)
    else if s == "sum" then Some(Sum)
    else if s == "sumDistinct" then Some(SumDistinct)
    else if s == "avg" then Some(Average)
    else if s == "avgDistinct" then Some(AverageDistinct)
    else if s == "min" then Some(Minimum)
    else if s == "max" then Some(Maximum)
    else None
  }

  lemma NameRoundTrip(op: AggregationOperator)
    ensures FromName(Name(op)) == Some(op)
  {
  }

  /** The nine names are pairwise distinct. */
  lemma NameInjective(a: AggregationOperator, b: AggregationOperator)
    requires Name(a) == Name(b)
    ensures a == b
  {
    NameRoundTrip(a);
    NameRoundTrip(b);
  }

  /** The `Distinct` variant of count, sum and average: the base name
      followed by `Distinct`. */
  function DistinctVariant(op: AggregationOperator): (r: Option<AggregationOperator>)
    ensures r.Some? ==> Name(r.value) == Name(op) + "Distinct"
    ensures r.Some? <==> op in {Count, Sum, Average}
  {
    match op
    case Count => Some(CountDistinct)
    case Sum => Some(SumDistinct)
    case Average => Some(AverageDistinct)
    case _ => None
  }
}
