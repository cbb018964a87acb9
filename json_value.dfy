/**
 * The value `json.loads` produces, and the three Python operations the
 * flattening transform applies to it: `d.get(key, default)`, iteration in a
 * `for` loop, and subscription `v[i]`. `.get` raises `AttributeError` on
 * anything but a dict; iteration and subscription raise on a value of the
 * wrong shape, and the raised exception becomes an `Err` carrying its class.
 */
module JsonValue {

  /** A decoded JSON document. Floating-point numbers are kept as their
      literal text: the transform only copies them. */
  datatype Json =
    | JNull
    | JBool(b: bool)
    | JInt(i: int)
    | JNum(literal: string)
    | JStr(s: string)
    | JArr(items: seq<Json>)
    | JObj(fields: map<string, Json>)

  /** The Python exception classes the transform can run into. */
  datatype Error =
    | JsonDecodeError  // the line is not JSON
    | AttributeError   // `.get` on something that is not a dict
    | TypeError        // iterating or subscripting None, a number or a bool
    | IndexError       // `pos[0]` / `pos[1]` past the end of a list or str
    | KeyError         // `pos[0]` on a dict

  datatype Option<+T> = None | Some(value: T)

  datatype Result<+T> = Ok(value: T) | Err(error: Error) {
    predicate IsFailure() { Err? }

    function PropagateFailure<U>(): Result<U>
      requires Err?
    {
      Err(error)
    }

    function Extract(): T
      requires Ok?
    {
      value
    }
  }

  /** `v` is what `d.get(key, default)` returns on a dict `d` whose members
      are `fields`: the stored value whenever the key is present (a stored
      null included), the default only when the key is absent. */
  predicate GetGives(fields: map<string, Json>, key: string, default: Json, v: Json) {
    (key in fields ==> v == fields[key]) && (key !in fields ==> v == default)
  }

  /** `d.get(key, default)` on a dict `d` whose members are `fields`. */
  function Member(fields: map<string, Json>, key: string, default: Json): Json {
    if key in fields then fields[key] else default
  }

  /** The elements a `for` loop visits in `v`. A str yields its characters
      as one-character strs. A dict yields its keys; every loop of the
      transform starts its body with `.get` on the element, which raises on
      a key string, so a non-empty dict raises that `AttributeError` here. */
  function Elements(v: Json): Result<seq<Json>> {
    match v
    case JArr(items) => Ok(items)
    case JStr(s) => Ok(seq(|s|, n requires 0 <= n < |s| => JStr([s[n]])))
    case JObj(fields) => if |fields| == 0 then Ok([]) else Err(AttributeError)
    case _ => Err(TypeError)
  }

  /** `v[i]` for a non-negative integer literal `i`. */
  function Index(v: Json, i: nat): Result<Json> {
    match v
    case JArr(items) => if i < |items| then Ok(items[i]) else Err(IndexError)
    case JStr(s) => if i < |s| then Ok(JStr([s[i]])) else Err(IndexError)
    case JObj(_) => Err(KeyError)
    case _ => Err(TypeError)
  }

  /** A `for` loop over `v` runs without raising before its body does. */
  predicate Iterable(v: Json) {
    v.JArr? || v.JStr? || (v.JObj? && |v.fields| == 0)
  }

  /** `v[i]` succeeds. */
  predicate Indexable(v: Json, i: nat) {
    (v.JArr? && i < |v.items|) || (v.JStr? && i < |v.s|)
  }
}
