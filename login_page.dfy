/** The login page's form controller: the `form`, `error` and `loading` state, the change
    handler, and the submit handler split at its `await` into the part that starts the
    request and the part that runs once the request has an outcome. */
module LoginPage {
  import opened JsRuntime
  import opened Fetch
  import opened Components

  const CorsMessage := "Network or CORS error. Please check backend CORS settings."
  const LoginFailed := "Login failed"

  datatype Credentials = Credentials(email: string, password: string)

  /** The `name` attributes of the page's two inputs. */
  datatype Field = Email | Password

  function Get(c: Credentials, f: Field): string {
    match f
    case Email => c.email
    case Password => c.password
  }

  /** `{ ...form, [name]: value }`. */
  function With(c: Credentials, f: Field, v: string): (r: Credentials)
    ensures Get(r, f) == v
    ensures forall g :: g != f ==> Get(r, g) == Get(c, g)
  {
    match f
    case Email => c.(email := v)
    case Password => c.(password := v)
  }

  /** The text `d.msg` contributes to `join(' ')`: a string `msg` as it is; a missing or
      null `msg`, and the `msg` of a bare string, are undefined and join as "". */
  function MsgText(it: Item): (r: string)
    requires it != NullItem
    ensures r != "" ==> it.Record? && it.msg == Some(r)
    ensures it.Record? && it.msg.Some? ==> r == it.msg.value
  {
    match it
    case Record(m) => if m.Some? then m.value else ""
    case TextItem(_) => ""
  }

  /** `detail.map(d => d.msg)`; reading `msg` of a null element throws, which is `None`. */
  function Msgs(items: seq<Item>): (r: Option<seq<string>>)
    ensures r.Some? <==> forall i :: 0 <= i < |items| ==> items[i] != NullItem
    ensures r.Some? ==> |r.value| == |items|
    ensures r.Some? ==> forall i :: 0 <= i < |items| ==> r.value[i] == MsgText(items[i])
  {
    if items == [] then Some([])
    else if items[0] == NullItem then None
    else match Msgs(items[1..])
      case None => None
      case Some(rest) => Some([MsgText(items[0])] + rest)
  }

  /** The error a non-ok response leaves: the CORS message for status 0; for a 422 whose
      `detail` is an array, the `msg` values joined by single spaces (a null element makes
      the mapping throw, and the outer `catch` shows the CORS message); otherwise
      `(data && data.detail) || 'Login failed'`. */
  function FailureError(status: int, body: Body): (r: ErrorValue)
    requires !IsOk(status)
    ensures status == 0 ==> r == Message(CorsMessage)
    ensures status == 422 && DetailOf(body).List? ==> r.Message?
    ensures r.ItemList? <==> status != 0 && status != 422 && DetailOf(body).List?
    ensures status != 0 && !DetailTruthy(DetailOf(body)) ==> r == Message(LoginFailed)
  {
    if status == 0 then Message(CorsMessage)
    else if status == 422 && DetailOf(body).List? then
      match Msgs(DetailOf(body).items)
      case None => Message(CorsMessage)
      case Some(texts) => Message(JoinSpace(texts))
    else DetailOr(DetailOf(body), LoginFailed)
  }

  /** The error state once a submission has finished: null exactly after an ok response. */
  function LoginError(o: Outcome): (r: Option<ErrorValue>)
    ensures r.None? <==> o.Responded? && IsOk(o.status)
    ensures o.Threw? ==> r == Some(Message(CorsMessage))
  {
    match o
    case Threw => Some(Message(CorsMessage))
    case Responded(status, body) => if IsOk(status) then None else Some(FailureError(status, body))
  }

  /** Where the page navigates once a submission has finished. */
  function LoginTarget(o: Outcome): (r: Option<string>)
    ensures r.Some? ==> r.value == BookingRoute
    ensures r.Some? <==> LoginError(o).None?
  {
    if o.Responded? && IsOk(o.status) then Some(BookingRoute) else None
  }

  /** The banner rendered from the error state: nothing for null or "", one row per
      element for an array, the text for a string, the value itself otherwise. */
  function LoginBanner(e: Option<ErrorValue>): (r: Banner)
    ensures r == Hidden <==> e.None? || e == Some(Message(""))
    ensures r.Rows? <==> e.Some? && e.value.ItemList?
    ensures e.Some? && e.value.ItemList? ==> r == Rows(e.value.items)
    ensures e.Some? && e.value.Message? && e.value.text != "" ==> r == Line(e.value.text)
  {
    match e
    case None => Hidden
    case Some(Message(s)) => if Truthy(s) then Line(s) else Hidden
    case Some(ItemList(xs)) => Rows(xs)
    case Some(OtherValue) => Child(OtherValue)
  }

  class Login {
    var form: Credentials
    var error: Option<ErrorValue>
    var loading: bool

    /** While a request is in flight no error is shown: submitting clears it and so does
        every edit. */
    ghost predicate Valid()
      reads this
    {
      loading ==> error.None?
    }

    constructor ()
      ensures Valid()
      ensures form == Credentials("", "") && error == None && !loading
    {
      form := Credentials("", "");
      error := None;
      loading := false;
    }

    /** The submit button: `loading={loading}` disables it. */
    function SubmitDisabled(): bool
      reads this
    {
      ButtonDisabled(false, loading)
    }

    /** `handleChange`: the named field takes the typed value and the error is cleared.
        The inputs stay enabled while a request is in flight. */
    method HandleChange(f: Field, v: string)
      requires Valid()
      modifies this
      ensures Valid()
      ensures Get(form, f) == v
      ensures forall g :: g != f ==> Get(form, g) == Get(old(form), g)
      ensures error == None && loading == old(loading)
      ensures loading ==> LoginBanner(error) == Hidden
    {
      form := With(form, f, v);
      error := None;
    }

    /** `handleSubmit` up to its `await`: the spinner starts, the error is cleared and the
        request body is the current form. Reached only while the button is enabled. */
    method HandleSubmit() returns (body: Credentials)
      requires Valid() && !SubmitDisabled()
      modifies this
      ensures Valid()
      ensures body == form && form == old(form)
      ensures loading && SubmitDisabled() && error == None
      ensures LoginBanner(error) == Hidden
    {
      loading := true;
      error := None;
      body := form;
    }

    /** `handleSubmit` after its `await`, given what the request produced. */
    method Settle(o: Outcome) returns (target: Option<string>)
      requires Valid() && loading
      modifies this
      ensures Valid()
      ensures error == LoginError(o) && target == LoginTarget(o)
      ensures !loading && form == old(form)
    {
      target := None;
      match o {
        case Threw =>
          error := Some(Message(CorsMessage));
        case Responded(status, body) =>
          if !IsOk(status) {
            error := Some(FailureError(status, body));
            loading := false;
            return;
          }
          target := Some(BookingRoute);
      }
      loading := false;
    }
  }

  // ---------------------------------------------------------------------------
  // Properties of the error derivation

  /** Status 0 always reports the CORS message, whatever the body. */
  lemma StatusZeroIsCors(body: Body)
    ensures LoginError(Responded(0, body)) == Some(Message(CorsMessage))
    ensures LoginTarget(Responded(0, body)) == None
  {
  }

  /** A 422 whose `detail` is an array of `{msg}` objects reports the messages, in order,
      joined by single spaces. */
  lemma {:induction false} UnprocessableJoinsMessages(items: seq<Item>, texts: seq<string>)
    requires |items| == |texts|
    requires forall i :: 0 <= i < |items| ==> items[i] == Record(Some(texts[i]))
    ensures LoginError(Responded(422, Json(List(items)))) == Some(Message(JoinSpace(texts)))
  {
    var r := Msgs(items);
    assert r.Some?;
    assert r.value == texts;
  }

  /** Two validation errors from the backend come out as one line. */
  lemma UnprocessableExample()
    ensures LoginError(Responded(422, Json(List([Record(Some("field required")), Record(Some("invalid email"))]))))
         == Some(Message("field required invalid email"))
  {
    var texts := ["field required", "invalid email"];
    UnprocessableJoinsMessages([Record(Some("field required")), Record(Some("invalid email"))], texts);
    assert JoinSpace(texts) == texts[0] + " " + JoinSpace(texts[1..]);
    assert texts[1..] == ["invalid email"];
    assert "field required" + " " + "invalid email" == "field required invalid email";
  }

  /** An empty 422 array gives the empty string, which shows no banner at all. */
  lemma UnprocessableEmptyList()
    ensures LoginError(Responded(422, Json(List([])))) == Some(Message(""))
    ensures LoginBanner(LoginError(Responded(422, Json(List([]))))) == Hidden
  {
  }

  /** A null element in a 422 array makes the mapping throw: the CORS message is shown. */
  lemma UnprocessableNullElement(items: seq<Item>, k: nat)
    requires k < |items| && items[k] == NullItem
    ensures LoginError(Responded(422, Json(List(items)))) == Some(Message(CorsMessage))
  {
  }

  /** Every other failure shows `detail` verbatim when it is truthy and "Login failed"
      otherwise, including bodies that did not parse. */
  lemma OtherFailures(status: int, body: Body)
    requires !IsOk(status) && status != 0
    requires !(status == 422 && DetailOf(body).List?)
    ensures !DetailTruthy(DetailOf(body)) ==> LoginError(Responded(status, body)) == Some(Message(LoginFailed))
    ensures DetailOf(body).Str? && DetailOf(body).s != "" ==>
      LoginError(Responded(status, body)) == Some(Message(DetailOf(body).s))
    ensures body == Unparseable ==> LoginError(Responded(status, body)) == Some(Message(LoginFailed))
  {
  }

  /** The error state ends up an array exactly when a non-ok response with status other
      than 0 and 422 carries an array `detail`; the banner then has one row per element. */
  lemma ListErrorExactly(o: Outcome, xs: seq<Item>)
    ensures LoginError(o) == Some(ItemList(xs)) <==>
      o.Responded? && !IsOk(o.status) && o.status != 0 && o.status != 422 && DetailOf(o.body) == List(xs)
    ensures LoginError(o) == Some(ItemList(xs)) ==> LoginBanner(LoginError(o)) == Rows(xs)
  {
    if o.Responded? && !IsOk(o.status) && o.status == 422 && DetailOf(o.body).List? {
      assert FailureError(o.status, o.body).Message?;
    }
  }

  /** JavaScript truthiness: an empty-string `detail` falls back to "Login failed", an
      empty-array `detail` is kept as it is. */
  lemma EmptyDetails(status: int)
    requires !IsOk(status) && status != 0 && status != 422
    ensures LoginError(Responded(status, Json(Str("")))) == Some(Message(LoginFailed))
    ensures LoginError(Responded(status, Json(List([])))) == Some(ItemList([]))
  {
  }

  /** No banner is shown while a request is in flight, whatever has happened before: the
      page's invariant keeps the error null while loading. */
  lemma NoBannerWhileLoading(page: Login)
    requires page.Valid() && page.loading
    ensures LoginBanner(page.error) == Hidden
  {
  }

  /** A submission round leaves the form as it was, sends exactly that form, clears the
      spinner, leaves the error the outcome calls for, and either navigates to the booking
      page with no error or stays with one. */
  method SubmitRound(page: Login, o: Outcome) returns (body: Credentials, target: Option<string>)
    requires page.Valid() && !page.loading
    modifies page
    ensures page.Valid()
    ensures body == old(page.form) && page.form == old(page.form)
    ensures !page.loading
    ensures target == Some(BookingRoute) <==> o.Responded? && IsOk(o.status)
    ensures target.Some? <==> page.error.None?
    ensures page.error == LoginError(o) && target == LoginTarget(o)
  {
    body := page.HandleSubmit();
    target := page.Settle(o);
  }
}
