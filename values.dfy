/** JavaScript values as the extension stores them and sends them between contexts. */
module Values {

  datatype Option<+T> = None | Some(value: T)

  /** Outcome of an awaited call that either settles or rejects with an error message. */
  datatype Outcome = Pass | Fail(error: string)

  /** A value produced by a call that may reject with an error message. */
  datatype Result<+T> = Ok(value: T) | Err(error: string)

  /**
   * A JSON-like JavaScript value. Numbers are integers: nothing in this
   * system computes with fractions, and NaN never arises.
   */
  datatype Json =
    | JNull
    | JBool(b: bool)
    | JNum(n: int)
    | JStr(s: string)
    | JArr(items: seq<Json>)
    | JObj(fields: map<string, Json>)

  /** JavaScript truthiness, `!!v`. */
  predicate Truthy(v: Json)
  {
    match v
    case JNull => false
    case JBool(b) => b
    case JNum(n) => n != 0
    case JStr(s) => s != ""
    case JArr(_) => true
    case JObj(_) => true
  }

  /** Truthiness of a value that may be `undefined` (None). */
  predicate Present(v: Option<Json>)
  {
    v.Some? && Truthy(v.value)
  }

  /** `o[key]` on a plain object: `undefined` when the key is absent. */
  function Get(o: map<string, Json>, key: string): Option<Json>
  {
    if key in o then Some(o[key]) else None
  }

  /** `v?.[key]`: a property read through optional chaining. */
  function Prop(v: Option<Json>, key: string): Option<Json>
  {
    match v
    case Some(JObj(fields)) => Get(fields, key)
    case Some(JArr(items)) => if key == "length" then Some(JNum(|items|)) else None
    case Some(JStr(s)) => if key == "length" then Some(JNum(|s|)) else None
    case _ => None
  }

  /** `v?.[0]`: the first element of an array or string, key "0" of an object. */
  function First(v: Option<Json>): Option<Json>
  {
    match v
    case Some(JArr(items)) => if |items| > 0 then Some(items[0]) else None
    case Some(JStr(s)) => if |s| > 0 then Some(JStr([s[0]])) else None
    case Some(JObj(fields)) => Get(fields, "0")
    case _ => None
  }

  /** `v || fallback`: the definition of JS `||` on a possibly missing value, used as a primitive. */
  function OrElse(v: Option<Json>, fallback: Json): (r: Json)
    ensures Present(v) ==> r == v.value
    ensures !Present(v) ==> r == fallback
  {
    if Present(v) then v.value else fallback
  }

  /**
   * Object spread `{...base, ...top}`: every key of `top` takes `top`'s value,
   * every other key of `base` keeps its value, and no other key appears.
   */
  function Spread(base: map<string, Json>, top: map<string, Json>): (r: map<string, Json>)
    ensures r.Keys == base.Keys + top.Keys
    ensures forall k :: k in top ==> r[k] == top[k]
    ensures forall k :: k in base && k !in top ==> r[k] == base[k]
  {
    base + top
  }
}
