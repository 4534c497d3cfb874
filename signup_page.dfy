/** The signup page's form controller. It has the same shape as the login page, but its
    `res.json()` is not guarded and its error path never unpacks an array `detail`. */
module SignupPage {
  import opened JsRuntime
  import opened Fetch
  import opened Components

  const NetworkMessage := "Network error. Please try again."
  const SignupFailed := "Signup failed"

  datatype Registration = Registration(name: string, email: string, password: string)

  /** The `name` attributes of the page's three inputs. */
  datatype Field = Name | Email | Password

  function Get(r: Registration, f: Field): string {
    match f
    case Name => r.name
    case Email => r.email
    case Password => r.password
  }

  /** `{ ...form, [name]: value }`. */
  function With(r: Registration, f: Field, v: string): (s: Registration)
    ensures Get(s, f) == v
    ensures forall g :: g != f ==> Get(s, g) == Get(r, g)
  {
    match f
    case Name => r.(name := v)
    case Email => r.(email := v)
    case Password => r.(password := v)
  }

  /** The error state once a submission has finished. A body that does not parse makes
      `await res.json()` throw, whatever the status; so does reading `detail` of a JSON
      null on a non-ok response; every throw ends in the network message. A non-ok
      response otherwise shows `data.detail || 'Signup failed'`. */
  function SignupError(o: Outcome): (r: Option<ErrorValue>)
    ensures r.None? <==> o.Responded? && IsOk(o.status) && o.body != Unparseable
    ensures o.Threw? || (o.Responded? && o.body == Unparseable) ==> r == Some(Message(NetworkMessage))
    ensures o.Responded? && !IsOk(o.status) && o.body == JsonNull ==> r == Some(Message(NetworkMessage))
  {
    match o
    case Threw => Some(Message(NetworkMessage))
    case Responded(status, body) =>
      match body
      case Unparseable => Some(Message(NetworkMessage))
      case JsonNull => if IsOk(status) then None else Some(Message(NetworkMessage))
      case Json(d) => if IsOk(status) then None else Some(DetailOr(d, SignupFailed))
  }

  /** Where the page navigates once a submission has finished. */
  function SignupTarget(o: Outcome): (r: Option<string>)
    ensures r.Some? ==> r.value == BookingRoute
    ensures r.Some? <==> SignupError(o).None?
  {
    if o.Responded? && o.body != Unparseable && IsOk(o.status) then Some(BookingRoute) else None
  }

  /** The banner: `{error && <div>{error}</div>}`; whatever is truthy is handed to React. */
  function SignupBanner(e: Option<ErrorValue>): (r: Banner)
    ensures r == Hidden <==> e.None? || e == Some(Message(""))
    ensures !r.Rows?
    ensures e.Some? && e.value.ItemList? ==> r == Child(e.value)
    ensures e.Some? && e.value.Message? && e.value.text != "" ==> r == Line(e.value.text)
  {
    match e
    case None => Hidden
    case Some(Message(s)) => if Truthy(s) then Line(s) else Hidden
    case Some(v) => Child(v)
  }

  class Signup {
    var form: Registration
    var error: Option<ErrorValue>
    var loading: bool

    /** While a request is in flight no error is shown. */
    ghost predicate Valid()
      reads this
    {
      loading ==> error.None?
    }

    constructor ()
      ensures Valid()
      ensures form == Registration("", "", "") && error == None && !loading
    {
      form := Registration("", "", "");
      error := None;
      loading := false;
    }

    /** The submit button: `loading={loading}` disables it. */
    function SubmitDisabled(): bool
      reads this
    {
      ButtonDisabled(false, loading)
    }

    /** `handleChange`: the named field takes the typed value and the error is cleared. */
    method HandleChange(f: Field, v: string)
      requires Valid()
      modifies this
      ensures Valid()
      ensures Get(form, f) == v
      ensures forall g :: g != f ==> Get(form, g) == Get(old(form), g)
      ensures error == None && loading == old(loading)
      ensures loading ==> SignupBanner(error) == Hidden
    {
      form := With(form, f, v);
      error := None;
    }

    /** `handleSubmit` up to its `await`: the request body is `{name, email, password}`
        taken from the current form. */
    method HandleSubmit() returns (body: Registration)
      requires Valid() && !SubmitDisabled()
      modifies this
      ensures Valid()
      ensures body == form && form == old(form)
      ensures loading && SubmitDisabled() && error == None
      ensures SignupBanner(error) == Hidden
    {
      loading := true;
      error := None;
      body := form;
    }

    /** `handleSubmit` after its `await`, given what the request produced. */
    method Settle(o: Outcome) returns (target: Option<string>)
      requires Valid() && loading
      modifies this
      ensures Valid()
      ensures error == SignupError(o) && target == SignupTarget(o)
      ensures !loading && form == old(form)
    {
      target := None;
      match o {
        case Threw =>
          error := Some(Message(NetworkMessage));
        case Responded(status, body) =>
          if body == Unparseable {
            error := Some(Message(NetworkMessage));
          } else if !IsOk(status) {
            if body == JsonNull {
              error := Some(Message(NetworkMessage));
            } else {
              error := Some(DetailOr(body.detail, SignupFailed));
            }
            loading := false;
            return;
          } else {
            target := Some(BookingRoute);
          }
      }
      loading := false;
    }
  }

  // ---------------------------------------------------------------------------
  // Properties of the error derivation

  /** A parsed non-ok body shows a truthy `detail` verbatim and "Signup failed" otherwise;
      an array `detail` is stored as an array for every status, 422 and 0 included. */
  lemma NonOkParsedBody(status: int, d: Detail)
    requires !IsOk(status)
    ensures !DetailTruthy(d) ==> SignupError(Responded(status, Json(d))) == Some(Message(SignupFailed))
    ensures d.Str? && d.s != "" ==> SignupError(Responded(status, Json(d))) == Some(Message(d.s))
    ensures d.List? ==> SignupError(Responded(status, Json(d))) == Some(ItemList(d.items))
  {
  }

  /** The error never holds text made by joining array messages: whenever it is a list, it
      is the `detail` array exactly as the response carried it. */
  lemma ListNeverUnpacked(o: Outcome, xs: seq<Item>)
    ensures SignupError(o) == Some(ItemList(xs)) <==>
      o.Responded? && !IsOk(o.status) && o.body == Json(List(xs))
  {
  }

  /** A body that does not parse gives the network message and no navigation, for ok and
      non-ok statuses alike. */
  lemma UnparseableBody(status: int)
    ensures SignupError(Responded(status, Unparseable)) == Some(Message(NetworkMessage))
    ensures SignupTarget(Responded(status, Unparseable)) == None
  {
  }

  /** An ok response with a parsed body navigates to the booking page with no error. */
  lemma OkNavigates(status: int, body: Body)
    requires IsOk(status) && body != Unparseable
    ensures SignupTarget(Responded(status, body)) == Some(BookingRoute)
    ensures SignupError(Responded(status, body)) == None
  {
  }

  /** No banner is shown while a request is in flight, whatever has happened before: the
      page's invariant keeps the error null while loading. */
  lemma NoBannerWhileLoading(page: Signup)
    requires page.Valid() && page.loading
    ensures SignupBanner(page.error) == Hidden
  {
  }

  /** A submission round leaves the form as it was, sends exactly that form, clears the
      spinner, and leaves the error and the navigation the outcome calls for. */
  method SubmitRound(page: Signup, o: Outcome) returns (body: Registration, target: Option<string>)
    requires page.Valid() && !page.loading
    modifies page
    ensures page.Valid()
    ensures body == old(page.form) && page.form == old(page.form)
    ensures !page.loading
    ensures target.Some? <==> page.error.None?
    ensures page.error == SignupError(o) && target == SignupTarget(o)
  {
    body := page.HandleSubmit();
    target := page.Settle(o);
  }
}
