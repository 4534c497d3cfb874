/** The booking page's form controller: the ordered validator, the change handler, and the
    submit handler split at its `await` into the part that validates and starts the
    (simulated) request and the part that runs when the request's timer fires. */
module BookingPage {
  import opened JsRuntime

  const DepartureMessage := "Please enter departure city"
  const DestinationMessage := "Please enter destination city"
  const DateMessage := "Please select a date"
  const PassengersMessage := "Please enter a valid number of passengers"

  /** `formData`: every field holds the string its input or select reported. */
  datatype BookingForm = BookingForm(from: string, to: string, date: string, passengers: string)

  /** The form the page starts with and returns to after a booking. */
  const Defaults := BookingForm("", "", "", "1")

  /** The `name` attributes of the form's controls. */
  datatype Field = From | To | Date | Passengers

  function Get(f: BookingForm, field: Field): string {
    match field
    case From => f.from
    case To => f.to
    case Date => f.date
    case Passengers => f.passengers
  }

  /** `{ ...prev, [name]: value }`. */
  function With(f: BookingForm, field: Field, v: string): (r: BookingForm)
    ensures Get(r, field) == v
    ensures forall g :: g != field ==> Get(r, g) == Get(f, g)
  {
    match field
    case From => f.(from := v)
    case To => f.(to := v)
    case Date => f.(date := v)
    case Passengers => f.(passengers := v)
  }

  /** `!passengers || parseInt(passengers) < 1`. A NaN parse is not below 1. */
  predicate PassengersRejected(p: string)
  {
    p == "" || (ParseInt(p).Some? && ParseInt(p).value < 1)
  }

  /** Besides the empty string, only text whose first character after white space and a
      sign is a decimal digit can be rejected: everything else parses to NaN. */
  lemma RejectedNeedsDigit(p: string)
    requires PassengersRejected(p) && p != ""
    ensures var u := AfterSign(TrimStart(p)); u != [] && IsDecimalDigit(u[0])
  {
  }

  /** `validateForm`: the message of the first failing check, or null. */
  function ValidateForm(f: BookingForm): (r: Option<string>)
    ensures r.None? <==>
      f.from != "" && f.to != "" && f.date != "" && !PassengersRejected(f.passengers)
    ensures r == Some(DepartureMessage) <==> f.from == ""
  {
    if f.from == "" then Some(DepartureMessage)
    else if f.to == "" then Some(DestinationMessage)
    else if f.date == "" then Some(DateMessage)
    else if PassengersRejected(f.passengers) then Some(PassengersMessage)
    else None
  }

  // ---------------------------------------------------------------------------
  // An independent reading of the validator: a list of checks tried in order

  /** The order in which the validator looks at the fields. */
  const CheckOrder := [From, To, Date, Passengers]

  predicate Fails(f: BookingForm, field: Field) {
    if field == Passengers then PassengersRejected(f.passengers) else Get(f, field) == ""
  }

  function MessageFor(field: Field): string {
    match field
    case From => DepartureMessage
    case To => DestinationMessage
    case Date => DateMessage
    case Passengers => PassengersMessage
  }

  /** The message of the first field in `fields` that fails its check. */
  function FirstFailure(f: BookingForm, fields: seq<Field>): Option<string> {
    if fields == [] then None
    else if Fails(f, fields[0]) then Some(MessageFor(fields[0]))
    else FirstFailure(f, fields[1..])
  }

  /** `FirstFailure` reports field `k`'s message when `k` fails and every field before it
      passes. */
  lemma {:induction false} FirstFailureIsFirst(f: BookingForm, fields: seq<Field>, k: nat)
    requires k < |fields|
    requires Fails(f, fields[k])
    requires forall j :: 0 <= j < k ==> !Fails(f, fields[j])
    ensures FirstFailure(f, fields) == Some(MessageFor(fields[k]))
  {
    if k > 0 {
      assert !Fails(f, fields[0]);
      FirstFailureIsFirst(f, fields[1..], k - 1);
    }
  }

  /** `FirstFailure` reports nothing exactly when every field passes. */
  lemma {:induction false} FirstFailureNone(f: BookingForm, fields: seq<Field>)
    ensures FirstFailure(f, fields).None? <==> forall j :: 0 <= j < |fields| ==> !Fails(f, fields[j])
  {
    if fields != [] {
      FirstFailureNone(f, fields[1..]);
      if !Fails(f, fields[0]) {
        assert forall j :: 1 <= j < |fields| ==> fields[j] == fields[1..][j - 1];
      }
    }
  }

  /** The validator is the ordered list of checks: from, to, date, passengers. */
  lemma ValidateIsFirstFailure(f: BookingForm)
    ensures ValidateForm(f) == FirstFailure(f, CheckOrder)
  {
    var tail3: seq<Field> := [Passengers];
    var tail2: seq<Field> := [Date, Passengers];
    var tail1: seq<Field> := [To, Date, Passengers];
    assert tail3[1..] == [];
    assert FirstFailure(f, tail3) ==
      if Fails(f, Passengers) then Some(PassengersMessage) else None;
    assert tail2[1..] == tail3;
    assert FirstFailure(f, tail2) ==
      if Fails(f, Date) then Some(DateMessage) else FirstFailure(f, tail3);
    assert tail1[1..] == tail2;
    assert FirstFailure(f, tail1) ==
      if Fails(f, To) then Some(DestinationMessage) else FirstFailure(f, tail2);
    assert CheckOrder[1..] == tail1;
    assert FirstFailure(f, CheckOrder) ==
      if Fails(f, From) then Some(DepartureMessage) else FirstFailure(f, tail1);
  }

  /** An empty departure city is reported whatever the other fields hold. */
  lemma EmptyFromWins(to: string, date: string, passengers: string)
    ensures ValidateForm(BookingForm("", to, date, passengers)) == Some(DepartureMessage)
  {
  }

  /** The page as first shown fails with the departure message. */
  lemma DefaultsFail()
    ensures ValidateForm(Defaults) == Some(DepartureMessage)
  {
  }

  /** Every choice the passengers select offers (1 to 6) passes the passenger check. */
  lemma SelectChoicesAccepted(n: nat)
    requires 1 <= n <= 6
    ensures !PassengersRejected(NatToString(n))
  {
    ParseIntRoundTrip(n);
  }

  /** A count of zero, or a negative one, is rejected. */
  lemma NonPositiveRejected(n: nat)
    ensures PassengersRejected(NatToString(n)) <==> n == 0
    ensures n > 0 ==> PassengersRejected("-" + NatToString(n))
  {
    var a := NatToString(n);
    ParseIntRoundTrip(n);
    assert |a| >= 2 ==> IsDecimalDigit(a[1]);
    assert a + "" == a;
    ParseIntNumeral("-", a, "");
    ValueOfNumeral(n);
  }

  /** Whatever parses to NaN and is not empty passes: NaN is not below 1. */
  lemma NaNPassengersAccepted(p: string)
    requires p != "" && ParseInt(p) == None
    ensures !PassengersRejected(p)
  {
  }

  /** Text after a positive count is ignored: "3 adults" passes as 3. */
  lemma TrailingTextIgnored(n: nat, rest: string)
    requires n >= 1
    requires rest == [] || !IsDecimalDigit(rest[0])
    ensures !PassengersRejected(NatToString(n) + rest)
  {
    var a := NatToString(n);
    NumeralLeadingDigit(n);
    assert (a + rest)[0] == a[0];
    ParseIntNumeralPrefix(a, rest);
    ValueOfNumeral(n);
  }

  /** A form whose passenger count is "0" reports the passenger message once the other
      fields are filled in. */
  lemma ZeroPassengers(from: string, to: string, date: string)
    requires from != "" && to != "" && date != ""
    ensures ValidateForm(BookingForm(from, to, date, "0")) == Some(PassengersMessage)
  {
    NonPositiveRejected(0);
    assert NatToString(0) == "0";
  }

  /** A word in the passengers field lets the whole form through. */
  lemma WordPassengersPass(from: string, to: string, date: string)
    requires from != "" && to != "" && date != ""
    ensures ValidateForm(BookingForm(from, to, date, "abc")) == None
  {
    ParseIntNoDigits("", "", "abc");
    assert "" + "" + "abc" == "abc";
    NaNPassengersAccepted("abc");
  }

  // ---------------------------------------------------------------------------
  // The page's state and its transitions

  datatype PageState = PageState(form: BookingForm, error: Option<string>, isLoading: bool)

  const Initial := PageState(Defaults, None, false)

  /** `handleInputChange`. */
  function Edit(s: PageState, field: Field, v: string): (r: PageState)
    ensures Get(r.form, field) == v
    ensures forall g :: g != field ==> Get(r.form, g) == Get(s.form, g)
    ensures r.error == None && r.isLoading == s.isLoading
  {
    PageState(With(s.form, field, v), None, s.isLoading)
  }

  /** `handleSubmit` up to its `await`: a failed validation only sets the error; a passing
      one starts loading and clears the error. */
  function Submit(s: PageState): (r: PageState)
    ensures r.form == s.form
    ensures r.error == ValidateForm(s.form)
    ensures r.isLoading <==> s.isLoading || ValidateForm(s.form).None?
  {
    var verdict := ValidateForm(s.form);
    if verdict.Some? then s.(error := verdict)
    else s.(isLoading := true, error := None)
  }

  /** `handleSubmit` after its `await`: the form is reset and, in `finally`, loading ends. */
  function Complete(s: PageState): (r: PageState)
    ensures r.form == Defaults && !r.isLoading && r.error == s.error
  {
    PageState(Defaults, s.error, false)
  }

  /** What can happen to the page: an edit, a submit, or the timer of a pending booking. */
  datatype Event = Change(field: Field, value: string) | SubmitForm | TimerFired

  /** The browser's own check before it fires `onSubmit`: the from, to and date inputs
      carry `required`, and an empty required control stops the submission. */
  predicate RequiredFilled(f: BookingForm)
  {
    f.from != "" && f.to != "" && f.date != ""
  }

  /** Everything the browser's `required` check stops, the validator would have reported
      with one of its first three messages, never the passengers message. */
  lemma RequiredCheckSubsumed(f: BookingForm)
    requires !RequiredFilled(f)
    ensures ValidateForm(f).Some? && ValidateForm(f) != Some(PassengersMessage)
  {
  }

  /** A value the passengers select can report: one of its options, whose `value={num}`
      is the decimal numeral of a number from 1 to 6. */
  predicate SelectOption(v: string) {
    exists n: nat :: 1 <= n <= 6 && v == NatToString(n)
  }

  /** The inputs, the select and the submit button are disabled while loading; the timer
      exists only while a booking is pending; the select reports one of its options; and
      the browser submits only when every required input is filled in. */
  predicate Enabled(s: PageState, e: Event)
    ensures Enabled(s, e) ==> (e.TimerFired? <==> s.isLoading)
  {
    match e
    case TimerFired => s.isLoading
    case Change(field, v) => !s.isLoading && (field == Passengers ==> SelectOption(v))
    case SubmitForm => !s.isLoading && RequiredFilled(s.form)
  }

  /** An event on a disabled control, or one the browser does not deliver, has no effect.
      While a booking is pending only its timer does anything, and only edits and the timer
      change the form. */
  function Step(s: PageState, e: Event): (r: PageState)
    ensures s.isLoading && !e.TimerFired? ==> r == s
    ensures r.form != s.form ==> e.Change? || e.TimerFired?
  {
    if !Enabled(s, e) then s
    else match e
      case Change(field, v) => Edit(s, field, v)
      case SubmitForm => Submit(s)
      case TimerFired => Complete(s)
  }

  function Run(s: PageState, events: seq<Event>): PageState
    decreases |events|
  {
    if events == [] then s else Run(Step(s, events[0]), events[1..])
  }

  /** While a booking is pending, the form it was made from passed validation and no error
      is shown. */
  predicate Consistent(s: PageState) {
    s.isLoading ==> s.error.None? && ValidateForm(s.form).None?
  }

  lemma StepKeepsConsistent(s: PageState, e: Event)
    requires Consistent(s)
    ensures Consistent(Step(s, e))
  {
  }

  lemma {:induction false} RunKeepsConsistent(s: PageState, events: seq<Event>)
    requires Consistent(s)
    ensures Consistent(Run(s, events))
    decreases |events|
  {
    if events != [] {
      StepKeepsConsistent(s, events[0]);
      RunKeepsConsistent(Step(s, events[0]), events[1..]);
    }
  }

  /** Every state the page can reach from its first render is consistent. */
  lemma ReachableConsistent(events: seq<Event>)
    ensures Consistent(Run(Initial, events))
  {
    RunKeepsConsistent(Initial, events);
  }

  /** The passengers field always holds one of the select's options. */
  lemma {:induction false} RunKeepsSelectOption(s: PageState, events: seq<Event>)
    requires SelectOption(s.form.passengers)
    ensures SelectOption(Run(s, events).form.passengers)
    decreases |events|
  {
    if events != [] {
      var t := Step(s, events[0]);
      assert SelectOption(t.form.passengers) by {
        if t.form == Defaults {
          assert NatToString(1) == "1";
        }
      }
      RunKeepsSelectOption(t, events[1..]);
    }
  }

  /** Every option of the select passes the passenger check. */
  lemma SelectOptionAccepted(v: string)
    requires SelectOption(v)
    ensures !PassengersRejected(v)
  {
    var n: nat :| 1 <= n <= 6 && v == NatToString(n);
    SelectChoicesAccepted(n);
  }

  /** On the rendered page the validator never reports anything: whenever the browser lets
      a submission through, the booking starts and no message is shown. */
  lemma SubmissionOnPageStarts(events: seq<Event>)
    ensures var s := Run(Initial, events);
      Enabled(s, SubmitForm) ==> Step(s, SubmitForm).isLoading && Step(s, SubmitForm).error == None
  {
    assert NatToString(1) == "1";
    RunKeepsSelectOption(Initial, events);
    SelectOptionAccepted(Run(Initial, events).form.passengers);
  }

  /** The handler on a form that fails validation changes nothing but the error, and
      loading stays off. */
  lemma FailedSubmit(s: PageState)
    requires !s.isLoading && ValidateForm(s.form).Some?
    ensures Submit(s) == s.(error := ValidateForm(s.form))
    ensures !Submit(s).isLoading
  {
  }

  /** An empty required input stops the submission before the handler runs. */
  lemma RequiredBlocksSubmit(s: PageState)
    requires !RequiredFilled(s.form)
    ensures Step(s, SubmitForm) == s
  {
  }

  /** A submit that passes validation, followed by its timer, brings the page back to its
      first state: default form, no error, not loading. */
  lemma SuccessfulBooking(s: PageState)
    requires !s.isLoading && ValidateForm(s.form).None?
    ensures Step(s, SubmitForm).isLoading
    ensures Step(Step(s, SubmitForm), TimerFired) == Initial
  {
  }

  /** Edits while a booking is pending are ignored: the disabled controls do not fire. */
  lemma NoEditsWhileLoading(s: PageState, field: Field, v: string)
    requires s.isLoading
    ensures Step(s, Change(field, v)) == s
    ensures Step(s, SubmitForm) == s
  {
  }

  class Booking {
    var formData: BookingForm
    var error: Option<string>
    var isLoading: bool

    function State(): PageState
      reads this
    {
      PageState(formData, error, isLoading)
    }

    ghost predicate Valid()
      reads this
    {
      Consistent(State())
    }

    constructor ()
      ensures Valid() && State() == Initial
    {
      formData := Defaults;
      error := None;
      isLoading := false;
    }

    /** `handleInputChange`: the named field takes the value and the error is cleared. */
    method HandleInputChange(field: Field, v: string)
      requires Valid() && !isLoading
      modifies this
      ensures Valid() && State() == Edit(old(State()), field, v)
      ensures Get(formData, field) == v
      ensures forall g :: g != field ==> Get(formData, g) == Get(old(formData), g)
      ensures error == None && !isLoading
    {
      formData := With(formData, field, v);
      error := None;
    }

    /** `handleSubmit` up to its `await`; `started` tells whether the booking is pending. */
    method HandleSubmit() returns (started: bool)
      requires Valid() && !isLoading
      modifies this
      ensures Valid() && State() == Submit(old(State()))
      ensures started <==> ValidateForm(formData).None?
      ensures formData == old(formData) && error == ValidateForm(formData)
      ensures isLoading == started
    {
      var validationError := ValidateForm(formData);
      if validationError.Some? {
        error := validationError;
        return false;
      }
      isLoading := true;
      error := None;
      started := true;
    }

    /** The pending booking's timer fires: the form is reset, then `finally` ends loading. */
    method CompleteBooking()
      requires Valid() && isLoading
      modifies this
      ensures Valid() && State() == Complete(old(State()))
      ensures formData == Defaults && error == None && !isLoading
    {
      formData := Defaults;
      isLoading := false;
    }
  }
}
