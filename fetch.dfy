/** What a `fetch` call hands back to the login and signup handlers, reduced to the parts
    they look at, and the values their `error` state can end up holding. The transport
    itself is not modelled: its outcome is an input. */
module Fetch {
  import opened JsRuntime

  /** One element of a `detail` array: JSON null, a bare string, or an object whose
      `msg` property is a string or missing (`None` covers undefined and null). */
  datatype Item = NullItem | TextItem(text: string) | Record(msg: Option<string>)

  /** The `detail` property of a parsed body. `Absent` is undefined or null; `Other` is a
      number, boolean or object, recorded only by its JavaScript truthiness. A parsed body
      that is a primitive other than null has no `detail`, so it is `Json(Absent)`. */
  datatype Detail = Absent | Str(s: string) | List(items: seq<Item>) | Other(truthy: bool)

  /** The result of `res.json()`: a rejected promise, the JSON value null, or a value. */
  datatype Body = Unparseable | JsonNull | Json(detail: Detail)

  /** An exception thrown by `fetch`, or a response with its status and body. */
  datatype Outcome = Threw | Responded(status: int, body: Body)

  /** Where both the login and the signup page navigate after a successful request. */
  const BookingRoute := "/booking"

  /** `res.ok`: the status lies in the range 200 to 299, so the 0 of an opaque response
      and the 422 of a rejected payload are failures. */
  predicate IsOk(status: int)
    ensures IsOk(status) ==> status != 0 && status != 422
  {
    200 <= status <= 299
  }

  /** `data?.detail` as seen through optional chaining: null and unparseable bodies have none. */
  function DetailOf(body: Body): (d: Detail)
    ensures !body.Json? ==> !DetailTruthy(d) && !d.List?
  {
    if body.Json? then body.detail else Absent
  }

  /** JavaScript truthiness of a `detail` value: a non-empty string, any array (even an
      empty one), or a truthy other value. */
  predicate DetailTruthy(d: Detail)
    ensures d.List? ==> DetailTruthy(d)
    ensures d == Absent || d == Str("") ==> !DetailTruthy(d)
  {
    match d
    case Absent => false
    case Str(s) => Truthy(s)
    case List(_) => true
    case Other(t) => t
  }

  /** The value held by a page's `error` state: a string, an array stored as it came, or
      some other truthy JSON value stored as it came. */
  datatype ErrorValue = Message(text: string) | ItemList(items: seq<Item>) | OtherValue

  /** `detail || fallback`: a truthy detail is kept verbatim, anything else gives the
      fallback message. */
  function DetailOr(d: Detail, fallback: string): (r: ErrorValue)
    ensures !DetailTruthy(d) ==> r == Message(fallback)
    ensures d.Str? && d.s != "" ==> r == Message(d.s)
    ensures d.List? <==> r.ItemList?
    ensures r.ItemList? ==> d == List(r.items)
    ensures r.OtherValue? <==> d.Other? && d.truthy
  {
    match d
    case Str(s) => if s != "" then Message(s) else Message(fallback)
    case List(xs) => ItemList(xs)
    case Other(t) => if t then OtherValue else Message(fallback)
    case Absent => Message(fallback)
  }
}
