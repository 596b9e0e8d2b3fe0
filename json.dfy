/**
 * JSON values as JavaScript sees them once `express.json()` or `JSON.parse`
 * has produced them, with the JavaScript operators the handlers apply to
 * them: truthiness, `typeof`, `Array.isArray`, `||` and `??`.
 */
module Json {
  import opened Wrappers

  datatype Json =
    | JNull
    | JBool(b: bool)
    | JNum(n: real)
    | JStr(s: string)
    | JArr(elems: seq<Json>)
    | JObj(fields: map<string, Json>)

  /** A JavaScript object with JSON values; a key that is absent reads as `undefined`. */
  type Object = map<string, Json>

  /** `o[k]`: `None` stands for `undefined`. */
  function Get(o: Object, k: string): Option<Json>
  {
    if k in o then Some(o[k]) else None
  }

  /** JavaScript truthiness. JSON has no `NaN`, so a number is falsy only when it is zero. */
  predicate Truthy(v: Option<Json>)
  {
    match v
    case None => false
    case Some(JNull) => false
    case Some(JBool(b)) => b
    case Some(JNum(n)) => n != 0.0
    case Some(JStr(s)) => s != ""
    case Some(_) => true
  }

  /** `typeof v === 'object'`: objects, arrays and `null`. */
  predicate IsObjectType(v: Json)
  {
    v.JNull? || v.JArr? || v.JObj?
  }

  /** `a || b`. */
  function OrElse(a: Option<Json>, b: Json): (r: Json)
    ensures Truthy(a) ==> Some(r) == a
    ensures !Truthy(a) ==> r == b
  {
    if Truthy(a) then a.value else b
  }

  /** `undefined` or `null`. */
  predicate Nullish(v: Option<Json>)
  {
    v.None? || v == Some(JNull)
  }

  /** `a ?? b`: only `undefined` and `null` fall back. */
  function Coalesce(a: Option<Json>, b: Json): (r: Json)
    ensures Nullish(a) ==> r == b
    ensures !Nullish(a) ==> r == a.value
  {
    match a
    case Some(v) => if v.JNull? then b else v
    case None => b
  }
}
