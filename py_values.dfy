/**
 * The slice of Python's runtime the endpoint's reply handling touches: values as
 * `response.json()` decodes them, `dict.get(key, default)`, indexing with `[0]`,
 * truthiness (`if not x`) and the builtin exceptions those operations raise.
 */
module PyValues {

  /** A decoded JSON value. Numbers are kept as reals: nothing here does arithmetic on them. */
  datatype Json =
    | Null
    | Bool(b: bool)
    | Number(n: real)
    | Str(s: string)
    | Array(items: seq<Json>)
    | Object(fields: map<string, Json>)

  /** Python's truth value of a decoded value: `not v` is `!Truthy(v)`. */
  predicate Truthy(v: Json) {
    match v
    case Null => false
    case Bool(b) => b
    case Number(n) => n != 0.0
    case Str(s) => s != []
    case Array(xs) => xs != []
    case Object(m) => m != map[]
  }

  /** The falsy values are exactly `None`, `False`, zero, `""`, `[]` and `{}`. */
  lemma FalsyValues(v: Json)
    ensures !Truthy(v) <==> v in {Null, Bool(false), Number(0.0), Str(""), Array([]), Object(map[])}
  {
  }

  /** The builtin exceptions the reply handling can raise. */
  datatype PyError =
    | AttributeError   // `.get` or `.split` on a value that has no such method
    | IndexError       // `[0]` on an empty list or an empty string
    | KeyError         // `[0]` on a dict (JSON object keys are never the integer 0)
    | TypeError        // `[0]` on None, a bool or a number
    | JsonDecodeError  // `response.json()` on a body that is not JSON

  /** An exception raised inside the endpoint's `try` block once a reply has arrived. */
  datatype Exc =
    | Builtin(error: PyError)
    | HttpRaised(status: int, detail: string)   // an HTTPException the endpoint raises itself

  /** The outcome of a Python expression: a value, or a raised exception. */
  datatype Py<+T> = Value(value: T) | Raise(exc: Exc) {

    predicate IsFailure() {
      Raise?
    }

    function PropagateFailure<U>(): Py<U>
      requires Raise?
    {
      Raise(exc)
    }

    function Extract(): T
      requires Value?
    {
      value
    }
  }

  /** `v.get(key, default)`: the entry, the default when the key is absent, AttributeError unless `v` is a dict. */
  function Get(v: Json, key: string, default: Json): Py<Json> {
    match v
    case Object(m) => Value(if key in m then m[key] else default)
    case _ => Raise(Builtin(AttributeError))
  }

  /** `v[0]`: the first element of a list, the first character of a string, or the exception Python raises. */
  function First(v: Json): Py<Json> {
    match v
    case Array(xs) => if xs == [] then Raise(Builtin(IndexError)) else Value(xs[0])
    case Str(s) => if s == [] then Raise(Builtin(IndexError)) else Value(Str([s[0]]))
    case Object(_) => Raise(Builtin(KeyError))
    case _ => Raise(Builtin(TypeError))
  }
}
