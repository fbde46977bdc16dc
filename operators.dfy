/** The comparison operators of the Directus filter language
    (`Operators` in DirectusPyWrapper/operators.py) and their wire suffixes. */
module Operators {
  import opened Wrappers

  datatype Operator =
    | Equals | NotEqual
    | LessThan | LessThanOrEqual | GreaterThan | GreaterThanOrEqual
    | In | NotIn
    | Null | NotNull
    | Contains | NotContains
    | StartsWith | NotStartsWith
    | EndsWith | NotEndsWith
    | Between | NotBetween
    | Empty | NotEmpty
    | Intersects | NotIntersects
    | IntersectsBBox | NotIntersectsBBox
  {
    /** The negated members, named `Not...` and written `_n...`. */
    predicate IsNegated() {
      this in {NotEqual, NotIn, NotNull, NotContains, NotStartsWith, NotEndsWith,
               NotBetween, NotEmpty, NotIntersects, NotIntersectsBBox}
    }
  }

  /** The enum member's value: the operator key written into a filter. */
  function Suffix(op: Operator): (s: string)
    ensures |s| >= 3 && s[0] == '_'
  {
    match op
    case Equals => "_eq"
    case NotEqual => "_neq"
    case LessThan => "_lt"
    case LessThanOrEqual => "_lte"
    case GreaterThan => "_gt"
    case GreaterThanOrEqual => "_gte"
    case In => "_in"
    case NotIn => "_nin"
    case Null => "_null"
    case NotNull => "_nnull"
    case Contains => "_contains"
    case NotContains => "_ncontains"
    case StartsWith => "_starts_with"
    case NotStartsWith => "_nstarts_with"
    case EndsWith => "_ends_with"
    case NotEndsWith => "_nends_with"
    case Between => "_between"
    case NotBetween => "_nbetween"
    case Empty => "_empty"
    case NotEmpty => "_nempty"
    case Intersects => "_intersects"
    case NotIntersects => "_nintersects"
    case IntersectsBBox => "_intersects_bbox"
    case NotIntersectsBBox => "_nintersects_bbox"
  }

  /** `Operators(s)`: the member whose value is `s`, if any. The table is
      looked up by length first, then by value within that length. */
  function FromSuffix(s: string): (r: Option<Operator>)
    ensures r.Some? ==> Suffix(r.value) == s
  {
    match |s|
    case 3 =>
      if s == Suffix(Equals) then Some(Equals)
      else if s == Suffix(LessThan) then Some(LessThan)
      else if s == Suffix(GreaterThan) then Some(GreaterThan)
      else if s == Suffix(In) then Some(In)
      else None
    case 4 =>
      if s == Suffix(NotEqual) then Some(NotEqual)
      else if s == Suffix(LessThanOrEqual) then Some(LessThanOrEqual)
      else if s == Suffix(GreaterThanOrEqual) then Some(GreaterThanOrEqual)
      else if s == Suffix(NotIn) then Some(NotIn)
      else None
    case 5 => if s == Suffix(Null) then Some(Null) else None
    case 6 =>
      if s == Suffix(NotNull) then Some(NotNull)
      else if s == Suffix(Empty) then Some(Empty)
      else None
    case 7 => if s == Suffix(NotEmpty) then Some(NotEmpty) else None
    case 8 => if s == Suffix(Between) then Some(Between) else None
    case 9 =>
      if s == Suffix(Contains) then Some(Contains)
      else if s == Suffix(NotBetween) then Some(NotBetween)
      else None
    case 10 =>
      if s == Suffix(NotContains) then Some(NotContains)
      else if s == Suffix(EndsWith) then Some(EndsWith)
      else None
    case 11 =>
      if s == Suffix(NotEndsWith) then Some(NotEndsWith)
      else if s == Suffix(Intersects) then Some(Intersects)
      else None
    case 12 =>
      if s == Suffix(StartsWith) then Some(StartsWith)
      else if s == Suffix(NotIntersects) then Some(NotIntersects)
      else None
    case 13 => if s == Suffix(NotStartsWith) then Some(NotStartsWith) else None
    case 16 => if s == Suffix(IntersectsBBox) then Some(IntersectsBBox) else None
    case 17 => if s == Suffix(NotIntersectsBBox) then Some(NotIntersectsBBox) else None
    case _ => None
  }

  /** Decoding a suffix gives back its operator. */
  lemma SuffixRoundTrip(op: Operator)
    ensures FromSuffix(Suffix(op)) == Some(op)
  {
    match op
    case Equals =>
    case LessThan =>
    case GreaterThan =>
    case In =>
    case NotEqual =>
    case LessThanOrEqual =>
    case GreaterThanOrEqual =>
    case NotIn =>
    case Null =>
    case NotNull =>
    case Empty =>
    case NotEmpty =>
    case Between =>
    case Contains =>
    case NotBetween =>
    case NotContains =>
    case EndsWith =>
    case NotEndsWith =>
    case Intersects =>
    case StartsWith =>
    case NotIntersects =>
    case NotStartsWith =>
    case IntersectsBBox =>
    case NotIntersectsBBox =>
  }

  /** The 24 suffixes are pairwise distinct. */
  lemma SuffixInjective(a: Operator, b: Operator)
    requires Suffix(a) == Suffix(b)
    ensures a == b
  {
    SuffixRoundTrip(a);
    SuffixRoundTrip(b);
  }

  /** The negated counterpart of a base operator, whose suffix is the base
      suffix with `_n` in place of `_`. */
  function Negation(op: Operator): (r: Option<Operator>)
    ensures r.Some? ==> r.value != op && r.value.IsNegated() && !op.IsNegated()
  {
    match op
    case Equals => Some(NotEqual)
    case In => Some(NotIn)
    case Null => Some(NotNull)
    case Contains => Some(NotContains)
    case StartsWith => Some(NotStartsWith)
    case EndsWith => Some(NotEndsWith)
    case Between => Some(NotBetween)
    case Empty => Some(NotEmpty)
    case Intersects => Some(NotIntersects)
    case IntersectsBBox => Some(NotIntersectsBBox)
    case _ => None
  }

  /** The `_n` naming rule: a negation's suffix is the base suffix with
      its leading `_` replaced by `_n`. */
  lemma NegationSuffix(op: Operator)
    requires Negation(op).Some?
    ensures Suffix(Negation(op).value) == "_n" + Suffix(op)[1..]
  {
    match op
    case Equals | In | Null | Empty | Between => NegationSuffixShort(op);
    case Contains | StartsWith | EndsWith => NegationSuffixText(op);
    case Intersects | IntersectsBBox => NegationSuffixGeometry(op);
  }

  /** The naming rule for the short suffixes. */
  lemma NegationSuffixShort(op: Operator)
    requires op in {Equals, In, Null, Empty, Between}
    ensures Suffix(Negation(op).value) == "_n" + Suffix(op)[1..]
  {
    match op
    case Equals => assert Suffix(NotEqual) == "_n" + Suffix(Equals)[1..];
    case In => assert Suffix(NotIn) == "_n" + Suffix(In)[1..];
    case Null => assert Suffix(NotNull) == "_n" + Suffix(Null)[1..];
    case Empty => assert Suffix(NotEmpty) == "_n" + Suffix(Empty)[1..];
    case Between => assert Suffix(NotBetween) == "_n" + Suffix(Between)[1..];
  }

  /** The naming rule for the text matches. */
  lemma NegationSuffixText(op: Operator)
    requires op in {Contains, StartsWith, EndsWith}
    ensures Suffix(Negation(op).value) == "_n" + Suffix(op)[1..]
  {
    match op
    case Contains => assert Suffix(NotContains) == "_n" + Suffix(Contains)[1..];
    case StartsWith => assert Suffix(NotStartsWith) == "_n" + Suffix(StartsWith)[1..];
    case EndsWith => assert Suffix(NotEndsWith) == "_n" + Suffix(EndsWith)[1..];
  }

  /** The naming rule for the geometry tests. */
  lemma NegationSuffixGeometry(op: Operator)
    requires op in {Intersects, IntersectsBBox}
    ensures Suffix(Negation(op).value) == "_n" + Suffix(op)[1..]
  {
    match op
    case Intersects => assert Suffix(NotIntersects) == "_n" + Suffix(Intersects)[1..];
    case IntersectsBBox => assert Suffix(NotIntersectsBBox) == "_n" + Suffix(IntersectsBBox)[1..];
  }

  /** Every operator is either a base with a negation, or the negation of
      exactly one base, or one of the four order comparisons. */
  lemma NegationCovers(op: Operator)
    ensures Negation(op).Some?
        || (exists b :: Negation(b) == Some(op))
        || op in {LessThan, LessThanOrEqual, GreaterThan, GreaterThanOrEqual}
  {
    match op
    case NotEqual => assert Negation(Equals) == Some(op);
    case NotIn => assert Negation(In) == Some(op);
    case NotNull => assert Negation(Null) == Some(op);
    case NotContains => assert Negation(Contains) == Some(op);
    case NotStartsWith => assert Negation(StartsWith) == Some(op);
    case NotEndsWith => assert Negation(EndsWith) == Some(op);
    case NotBetween => assert Negation(Between) == Some(op);
    case NotEmpty => assert Negation(Empty) == Some(op);
    case NotIntersects => assert Negation(Intersects) == Some(op);
    case NotIntersectsBBox => assert Negation(IntersectsBBox) == Some(op);
    case _ =>
  }
}
