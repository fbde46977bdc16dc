/** The logical connectives of the filter language (`LogicalOperators`).
    The module that defines them in the client is not part of this model;
    their keys are taken to be Directus's `_and` and `_or`. */
module LogicalOperators {

  datatype LogicalOperator = And | Or

  /** The key under which a group of filters is combined. */
  function Key(op: LogicalOperator): (k: string)
    ensures |k| >= 3 && k[0] == '_'
  {
    match op
    case And => "_and"
    case Or => "_or"
  }

  /** The two connectives combine under different keys. */
  lemma KeyInjective(a: LogicalOperator, b: LogicalOperator)
    requires Key(a) == Key(b)
    ensures a == b
  {
  }
}
