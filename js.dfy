/**
 * JavaScript values as the modelled code sees them: JSON data (what request
 * bodies, store rows and API responses carry), thrown values, and the two
 * coercions the code applies to them, truthiness and string interpolation.
 * Numbers are integers here; fractional numbers are not modelled.
 */
module Js {
  import opened Wrappers
  import Strings

  datatype Json =
    | JNull
    | JBool(b: bool)
    | JNum(n: int)
    | JStr(s: string)
    | JArr(items: seq<Json>)
    | JObj(fields: map<string, Json>)

  /** A value of TypeScript's `unknown`: `undefined`, data, or something thrown. */
  datatype Value = Undefined | Data(json: Json) | Raised(thrown: Thrown)

  /**
   * What a `throw` or a rejected promise hands to a `catch` clause. A
   * `ServiceError` is an instance of the `ChatServiceError` class, which extends
   * `Error`; a `PlainError` is any other `Error`; `NonError` is a thrown value
   * that is not an `Error` at all.
   */
  datatype Thrown =
    | ServiceError(name: string, message: string, code: Option<string>, details: Value, stack: Option<string>)
    | PlainError(name: string, message: string, stack: Option<string>)
    | NonError(value: Json)

  /** `x instanceof Error`: true of every subclass instance as well. */
  predicate IsInstanceOfError(t: Thrown) {
    t.ServiceError? || t.PlainError?
  }

  /** JavaScript truthiness of a property value; `None` is `undefined`. */
  predicate Truthy(v: Option<Json>) {
    match v
    case None => false
    case Some(JNull) => false
    case Some(JBool(b)) => b
    case Some(JNum(n)) => n != 0
    case Some(JStr(s)) => s != ""
    case Some(_) => true
  }

  /** The property `key` of a value, as `v[key]` reads it (`undefined` when absent). */
  function Prop(v: Json, key: string): Option<Json> {
    if v.JObj? && key in v.fields then Some(v.fields[key]) else None
  }

  /** `String(x)`, the text a template literal inserts for a JSON value. */
  function ToText(v: Json): string {
    match v
    case JNull => "null"
    case JBool(b) => if b then "true" else "false"
    case JNum(n) => Strings.IntToString(n)
    case JStr(s) => s
    case JArr(items) =>
      // Array.prototype.toString joins the elements with ",", null and undefined as "".
      Strings.Join(seq(|items|, i requires 0 <= i < |items| =>
                       if items[i].JNull? then "" else ToText(items[i])), ",")
    case JObj(_) => "[object Object]"
  }

  /** `${x}` for a property that may be `undefined`. */
  function Interpolate(v: Option<Json>): string {
    match v
    case None => "undefined"
    case Some(j) => ToText(j)
  }

  /** An HTTP response: the status code and the JSON body. */
  datatype Response = Response(status: nat, body: Json)

  /** `{ error: message }` with the given status. */
  function ErrorResponse(status: nat, message: string): (r: Response)
    ensures r.status == status && r.body.JObj? && r.body.fields.Keys == {"error"}
    ensures r.body.fields["error"] == JStr(message)
  {
    Response(status, JObj(map["error" := JStr(message)]))
  }
}
