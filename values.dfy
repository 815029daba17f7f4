/** Python values as they appear in the option mappings of the config flow,
    with the pieces of Python semantics the flow relies on: truthiness,
    `==` between values, and `dict.get`. */
module PyValues {

  datatype Option<T> = None | Some(value: T)

  /** A value stored under an option key. Python floats are modelled as exact
      reals: the flow never computes with them, it only stores and compares. */
  datatype Value = Bool(b: bool) | Int(i: int) | Real(r: real) | Str(s: string)

  /** A string-keyed mapping such as `user_input` or `config_entry.options`. */
  type Options = map<string, Value>

  /** Python's `bool(v)`. */
  predicate Truthy(v: Value) {
    match v
    case Bool(b) => b
    case Int(i) => i != 0
    case Real(r) => r != 0.0
    case Str(s) => s != ""
  }

  /** The numeric reading Python gives a bool, int or float when it compares
      numbers (`True == 1 == 1.0`). */
  function Numeric(v: Value): (r: Option<real>)
    ensures r.None? <==> v.Str?
  {
    match v
    case Bool(b) => Some(if b then 1.0 else 0.0)
    case Int(i) => Some(i as real)
    case Real(x) => Some(x)
    case Str(_) => None
  }

  /** Python's `a == b` on option values: numbers compare by value across
      bool, int and float; a string equals only the same string. */
  predicate Equal(a: Value, b: Value) {
    if Numeric(a).Some? && Numeric(b).Some? then Numeric(a).value == Numeric(b).value
    else a == b
  }

  /** Comparing with a string literal is plain equality. */
  lemma EqualString(v: Value, s: string)
    ensures Equal(v, Str(s)) <==> v == Str(s)
  {
  }

  /** `m.get(k)`: `None` stands for Python's `None` returned for a missing key. */
  function Get(m: Options, k: string): (r: Option<Value>)
    ensures r.Some? <==> k in m
    ensures r.Some? ==> r.value == m[k]
  {
    if k in m then Some(m[k]) else None
  }

  /** `m.get(k, d)`. */
  function GetOr(m: Options, k: string, d: Value): (r: Value)
    ensures k in m ==> r == m[k]
    ensures k !in m ==> r == d
  {
    if k in m then m[k] else d
  }

  /** `bool(m.get(k))`: a missing key reads as `None`, which is falsy. */
  predicate GetTruthy(m: Options, k: string) {
    match Get(m, k)
    case None => false
    case Some(v) => Truthy(v)
  }
}
