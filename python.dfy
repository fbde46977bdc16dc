/** The few Python operations the client applies to decoded JSON: the `in`
    test, subscription by a string key and `str()` as an
    f-string uses it. Each raises where Python raises; the exception is an
    `Err` value. */
module Python {
  import opened Wrappers
  import opened Json
  import opened Text

  datatype PyError =
    | KeyError(key: string)
    | TypeError
    | AttributeError(name: string)
    | ValueError(message: string)
    /** `str()` of a list or a dict, whose rendering is not modelled. */
    | Unrendered

  /** `key in c`: membership of a key in a dict, of an element in a list,
      of a substring in a string; any other value cannot be searched. */
  function In(key: string, c: Json): (r: Result<bool, PyError>)
    ensures c.JObject? ==> r == Ok(key in c.fields)
    ensures r.Err? <==> !(c.JObject? || c.JList? || c.JStr?)
  {
    match c
    case JObject(fields) => Ok(key in fields)
    case JList(items) => Ok(JStr(key) in items)
    case JStr(s) => Ok(Contains(s, key))
    case _ => Err(TypeError)
  }

  /** `c[key]`: a dict gives the value or raises KeyError; a list or a
      string cannot be indexed by a string, `None` and numbers not at all. */
  function Subscript(c: Json, key: string): (r: Result<Json, PyError>)
    ensures r.Ok? <==> c.JObject? && key in c.fields
    ensures r.Ok? ==> r.value == c.fields[key]
    ensures r == Err(KeyError(key)) <==> c.JObject? && key !in c.fields
  {
    match c
    case JObject(fields) => if key in fields then Ok(fields[key]) else Err(KeyError(key))
    case _ => Err(TypeError)
  }

  /** The decimal digits of a natural number. */
  function Digits(n: nat): (r: string)
    ensures r != [] && forall k :: 0 <= k < |r| ==> '0' <= r[k] <= '9'
    decreases n
  {
    var d := [(('0' as int) + n % 10) as char];
    if n < 10 then d else Digits(n / 10) + d
  }

  /** `str(j)` for the scalar values. */
  function Str(j: Json): (r: Result<string, PyError>)
    ensures r.Err? <==> j.JList? || j.JObject?
    ensures j.JStr? ==> r == Ok(j.s)
  {
    match j
    case JNull => Ok("None")
    case JBool(b) => Ok(if b then "True" else "False")
    case JInt(i) => Ok(if i < 0 then "-" + Digits(-i) else Digits(i))
    case JStr(s) => Ok(s)
    case _ => Err(Unrendered)
  }

  /** `str` of an integer reads back as the integer: the digits are the
      number's base-10 expansion. */
  function DigitsValue(s: string): int
  {
    if s == [] then 0 else DigitsValue(s[..|s| - 1]) * 10 + (s[|s| - 1] as int - '0' as int)
  }

  lemma {:induction false} DigitsRoundTrip(n: nat)
    ensures DigitsValue(Digits(n)) == n
    decreases n
  {
    var d := [(('0' as int) + n % 10) as char];
    if n >= 10 {
      DigitsRoundTrip(n / 10);
      var s := Digits(n / 10) + d;
      assert s[..|s| - 1] == Digits(n / 10);
    }
  }
}
