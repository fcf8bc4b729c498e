/** JavaScript values as the request handlers see them: parsed JSON bodies,
    `undefined`, truthiness, `typeof`, property reads and thrown errors. */
module Js {

  datatype Option<+T> = None | Some(value: T)

  /** The outcome of an operation that either returns a value or throws
      (a rejected promise, a TypeError, a JSON.parse error). */
  datatype Settled<+T> = Fulfilled(value: T) | Rejected

  /** A value that JSON.parse can produce. JSON numbers are finite, so
      `real` covers them (no NaN, no infinities). */
  datatype Json =
    | JNull
    | JBool(b: bool)
    | JNum(n: real)
    | JStr(s: string)
    | JArr(items: seq<Json>)
    | JObj(fields: map<string, Json>)

  /** A JavaScript value read out of a parsed body: `undefined` is None. */
  type Value = Option<Json>

  /** JavaScript truthiness: `undefined`, `null`, `false`, `0` and `""` are
      falsy; every array and object, even an empty one, is truthy. */
  predicate Truthy(v: Value) {
    match v
    case None => false
    case Some(JNull) => false
    case Some(JBool(b)) => b
    case Some(JNum(n)) => n != 0.0
    case Some(JStr(s)) => s != ""
    case Some(_) => true
  }

  /** The `typeof` operator; note that `typeof null` is "object". */
  function TypeOf(v: Value): string {
    match v
    case None => "undefined"
    case Some(JBool(_)) => "boolean"
    case Some(JNum(_)) => "number"
    case Some(JStr(_)) => "string"
    case Some(_) => "object"
  }

  /** `obj.key` on a parsed body. Reading a property of `null` throws a
      TypeError; a key the object does not hold reads as `undefined`, and so
      does any key of a boolean, number, string or array (none of the keys
      the handlers read names a built-in property). */
  function GetProperty(obj: Json, key: string): (r: Settled<Value>)
    ensures r.Rejected? <==> obj == JNull
    ensures r.Fulfilled? && r.value.Some? ==> obj.JObj? && key in obj.fields && obj.fields[key] == r.value.value
    ensures obj.JObj? && key in obj.fields ==> r == Fulfilled(Some(obj.fields[key]))
  {
    match obj
    case JNull => Rejected
    case JObj(fields) => Fulfilled(if key in fields then Some(fields[key]) else None)
    case _ => Fulfilled(None)
  }

  /** `event.body` before parsing: absent or empty (falsy), or text that
      JSON.parse either accepts (giving `parsed`) or rejects. */
  datatype RawBody = NoBody | Malformed | Text(parsed: Json)

  /** `event.body ? JSON.parse(event.body) : {}` */
  function ParseBody(b: RawBody): (r: Settled<Json>)
    ensures r.Rejected? <==> b.Malformed?
    ensures b.NoBody? ==> r == Fulfilled(JObj(map[]))
    ensures b.Text? ==> r == Fulfilled(b.parsed)
  {
    match b
    case NoBody => Fulfilled(JObj(map[]))
    case Malformed => Rejected
    case Text(j) => Fulfilled(j)
  }
}
