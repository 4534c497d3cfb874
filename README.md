# SkyBooker form controllers and theme toggle, in Dafny

This project models the small piece of behaviour in the SkyBooker flight-booking front end
that is more than markup:

- the booking page's ordered form validator (`validateForm`) and its change and submit
  handlers over `formData`, `error` and `isLoading`;
- the login page's submit handler, which turns the outcome of `POST /login` into an error
  message (or an array of validation errors), clears the spinner and maybe navigates to
  `/booking`;
- the signup page's submit handler, which does the same for `POST /signup`, with an
  unguarded `res.json()` and no unpacking of array `detail` values;
- the theme toggle's click rule (`dark` goes to `light`, anything else to `dark`) and its
  dark/light drawing.

Modules:

| file | module | contents |
|---|---|---|
| `js_runtime.dfy` | `JsRuntime` | `parseInt` without a radix (white space, sign, `0x` prefix, digit prefix, NaN as `None`), `join(' ')`, string truthiness |
| `fetch.dfy` | `Fetch` | the outcome of a `fetch` call as an input value (`Threw`, or a status and a parsed body), the shapes `detail` can take, the values `error` can hold, `detail \|\| fallback` |
| `components.dfy` | `Components` | what the pages render from their state: the error banner and the shared `Button`'s disabled rule |
| `booking_page.dfy` | `BookingPage` | the validator, an ordered-checks reference for it, the page state machine, and the `Booking` class |
| `login_page.dfy` | `LoginPage` | the pure error and navigation derivation and the `Login` class |
| `signup_page.dfy` | `SignupPage` | the same for signup, and the `Signup` class |
| `theme_toggle.dfy` | `ThemeToggle` | the next-theme rule and the control's appearance |

Each submit handler is `async` and is modelled as two steps: the part before the first
`await` (`HandleSubmit`) and the continuation once the request has an outcome (`Settle`, or
`CompleteBooking` when the booking page's timer fires). The booking handler awaits once
(src/pages/BookingPage.tsx:48). The login and signup handlers await twice, first `fetch` and
then `res.json()` (src/pages/LoginPage.tsx:25 and 32, src/pages/SignupPage.tsx:25 and 30).
Their two awaits are folded into one `Settle` step. That is sound because only `handleChange`
can run between the awaits, and the code after the second one reads neither `form` nor `error`. Nothing else runs
between the two halves except events the page leaves enabled: the login and signup inputs
stay enabled while a request is in flight, the booking page's controls do not. The submit
button is disabled while loading (`Button` sets `disabled={disabled || loading}`, and the
booking page passes `disabled={isLoading}`), so `HandleSubmit` is only called on an idle page.

The booking page is also modelled as the browser drives it (`BookingPage.Enabled` and
`BookingPage.Step`): the from, to and date inputs carry `required`, so the browser fires
`onSubmit` only when all three are filled in, and the passengers select only ever reports one
of its six options. On that page the validator never has anything to report
(`BookingPage.SubmissionOnPageStarts`); its messages appear only when the handler runs on a
form the browser would have stopped, which the handler-level members (`ValidateForm`,
`Submit`, `FailedSubmit`, the `Booking` class) describe.

Three facts about the code that a reader might not expect:

- the passenger count is a string and `parseInt("abc") < 1` is false, so a non-numeric count
  passes validation;
- the booking submit never contacts a server: it waits on a timer and always succeeds;
- a successful login or signup does not clear the form.

## Model

| member | source | states |
|---|---|---|
| `JsRuntime.TrimStart` | src/pages/BookingPage.tsx:22 | `parseInt` drops exactly the leading JavaScript white space: the result is a suffix starting with a non-space, and everything dropped was white space |
| `JsRuntime.ParseInt` | src/pages/BookingPage.tsx:22 | `parseInt` gives a number only when, after white space and one sign, the text starts with a decimal digit; text made only of white space, the empty string included, is NaN |
| `JsRuntime.ParseTrimmed` | src/pages/BookingPage.tsx:22 | after white space: a number only when a decimal digit follows the optional sign, negative only after `-`, never negative after `+` or no sign |
| `JsRuntime.ParseMagnitude` | src/pages/BookingPage.tsx:22 | the unsigned part is a number exactly when it starts with a decimal digit, except that after `0x`/`0X` it needs a hexadecimal digit |
| `JsRuntime.ParseIntNumeral` | src/pages/BookingPage.tsx:22 | `parseInt` of an optionally signed run of decimal digits, leading zeros included, followed by any non-digit text is the digits' value, negated after `-` ("007" is 7, "-01" is -1); the `0x` prefix is the one exception |
| `JsRuntime.ParseIntNumeralPrefix` | src/pages/BookingPage.tsx:22 | `parseInt` of a run of decimal digits followed by text that cannot continue it is the digits' value ("3 adults" is 3, "01 adult" is 1) |
| `JsRuntime.ValueOfLeadingZero` | src/pages/BookingPage.tsx:22 | a leading zero does not change the value of a digit run |
| `JsRuntime.ParseIntHex` | src/pages/BookingPage.tsx:22 | after `0x` or `0X`, with an optional sign in front, `parseInt` reads the hexadecimal digits up to the first non-hex character and gives their value, negated after `-` ("-0x1F" is -31) |
| `JsRuntime.ParseIntRoundTrip` | src/pages/BookingPage.tsx:22 | `parseInt` of the decimal numeral of a non-negative integer (`NatToString`, which is what the select's `value={num}` gives for its options) gives that integer back |
| `JsRuntime.ParseIntSkipsWhiteSpace` | src/pages/BookingPage.tsx:22 | leading white space never changes what `parseInt` returns |
| `JsRuntime.ParseIntNoDigits` | src/pages/BookingPage.tsx:22 | white space, then at most one sign, then anything but a decimal digit parses to NaN: "", "+", "-abc", " two" |
| `JsRuntime.ValueOfNumeral` | src/pages/BookingPage.tsx:22 | the digit value of a decimal numeral (`NatToString`) is the number it was written from |
| `JsRuntime.NumeralLeadingDigit` | src/pages/BookingPage.tsx:22 | a numeral starts with `0` only when it is zero, so no numeral of a positive number looks like a `0x` prefix |
| `JsRuntime.JoinSpaceAppend` | src/pages/LoginPage.tsx:42 | `join(' ')` of two non-empty lists put together is the two joined texts with one space between |
| `JsRuntime.JoinSpace` | src/pages/LoginPage.tsx:42 | `join(' ')` of no parts is ""; otherwise the text is as long as all the parts plus one character per gap between neighbours, and starts with the first part (what the separators are and where the later parts sit is stated by `JoinSpaceSnoc` and `JoinSpaceAppend`) |
| `JsRuntime.JoinSpaceSnoc` | src/pages/LoginPage.tsx:42 | appending one more part to a non-empty list appends a single space and then that part to the joined text |
| `Fetch.IsOk` | src/pages/LoginPage.tsx:37 | `res.ok` is false for status 0 and for 422, so both special cases sit on the failure path |
| `Fetch.DetailOf` | src/pages/LoginPage.tsx:44 | a null or unparseable body has a falsy, non-array `detail` |
| `Fetch.DetailTruthy` | src/pages/LoginPage.tsx:44 | every array is truthy, the empty one included; a missing detail and "" are falsy |
| `Components.ButtonDisabled` | src/components/Button.tsx:74 | a button showing its spinner is disabled; one not asked to be disabled is disabled exactly while loading |
| `Fetch.DetailOr` | src/pages/LoginPage.tsx:44 | `detail \|\| fallback`: a falsy detail (missing, null, "", false, 0) gives the fallback; a non-empty string is kept; an array, even empty, is kept as an array; another truthy value is kept |
| `BookingPage.With` | src/pages/BookingPage.tsx:28-30 | the spread update sets the named field and leaves every other field as it was |
| `BookingPage.RejectedNeedsDigit` | src/pages/BookingPage.tsx:22 | besides the empty string, only text whose first character after white space and a sign is a decimal digit can be rejected |
| `BookingPage.ValidateForm` | src/pages/BookingPage.tsx:18-26 | null exactly when from, to and date are non-empty and `PassengersRejected` (line 22: rejected for "" or a parse below 1, and a NaN parse is not below 1) does not hold of passengers; the departure message exactly when from is empty |
| `BookingPage.FirstFailureIsFirst` | src/pages/BookingPage.tsx:18-24 | an ordered list of checks reports field k's message when k fails and every earlier field passes |
| `BookingPage.FirstFailureNone` | src/pages/BookingPage.tsx:18-25 | the ordered list of checks reports nothing exactly when every check passes |
| `BookingPage.ValidateIsFirstFailure` | src/pages/BookingPage.tsx:18-25 | the validator equals the ordered checks from, to, date, passengers, returning only the first failing message |
| `BookingPage.EmptyFromWins` | src/pages/BookingPage.tsx:19 | an empty departure city gives "Please enter departure city" whatever the other fields hold |
| `BookingPage.DefaultsFail` | src/pages/BookingPage.tsx:11-16 | the initial form fails with the departure message |
| `BookingPage.SelectChoicesAccepted` | src/pages/BookingPage.tsx:316-318 | every passenger count the select offers (1 to 6) passes the passenger check |
| `BookingPage.NonPositiveRejected` | src/pages/BookingPage.tsx:22-23 | a count numeral is rejected exactly when it is 0, and every negative count is rejected |
| `BookingPage.NaNPassengersAccepted` | src/pages/BookingPage.tsx:22 | every non-empty count that parses to NaN ("abc", "-abc", "+x", " abc") passes the passenger check |
| `BookingPage.TrailingTextIgnored` | src/pages/BookingPage.tsx:22 | a positive count followed by non-digit text passes |
| `BookingPage.ZeroPassengers` | src/pages/BookingPage.tsx:22-23 | with the other fields filled in, a count of "0" gives "Please enter a valid number of passengers" |
| `BookingPage.WordPassengersPass` | src/pages/BookingPage.tsx:18-25 | with the other fields filled in, a count of "abc" lets the whole form through |
| `BookingPage.Edit` | src/pages/BookingPage.tsx:28-32 | a change sets only the named field, clears the error and leaves loading alone |
| `BookingPage.Submit` | src/pages/BookingPage.tsx:34-44 | a submit leaves the form as it is, shows exactly the validator's verdict as the error, and starts loading exactly when validation passes |
| `BookingPage.Complete` | src/pages/BookingPage.tsx:55-65 | when the timer fires the form returns to the defaults, loading ends and the error is kept |
| `BookingPage.Enabled` | src/pages/BookingPage.tsx:244-336 | an event can happen only in its phase: the timer only while loading, edits and submits only while idle |
| `BookingPage.Step` | src/pages/BookingPage.tsx:213-336 | while a booking is pending only the timer does anything, and only edits and the timer change the form |
| `BookingPage.StepKeepsConsistent` | src/pages/BookingPage.tsx:28-65 | every enabled event keeps "while loading, no error is shown and the form passed validation" |
| `BookingPage.RunKeepsConsistent` | src/pages/BookingPage.tsx:28-65 | any sequence of events keeps that property |
| `BookingPage.ReachableConsistent` | src/pages/BookingPage.tsx:9-16 | every state reachable from the first render has that property |
| `BookingPage.RunKeepsSelectOption` | src/pages/BookingPage.tsx:300-319 | through any sequence of events the passenger count stays one of the select's options "1" to "6" (`SelectOption`) |
| `BookingPage.SelectOptionAccepted` | src/pages/BookingPage.tsx:316-318 | every value the select can report (`SelectOption`: the numeral of 1 to 6) passes the passenger check |
| `BookingPage.SubmissionOnPageStarts` | src/pages/BookingPage.tsx:213-319 | on every state reachable from the first render, a submission the browser lets through starts the booking with no message: the validator never reports anything on the rendered page |
| `BookingPage.RequiredCheckSubsumed` | src/pages/BookingPage.tsx:244-284 | the browser's `required` check on from, to and date; every form it stops is one the validator would have reported with one of its first three messages, never the passengers message |
| `BookingPage.RequiredBlocksSubmit` | src/pages/BookingPage.tsx:244-284 | an empty from, to or date input stops the submission before the handler runs, leaving the page unchanged |
| `BookingPage.FailedSubmit` | src/pages/BookingPage.tsx:37-41 | the handler on a form that fails validation only sets the error; the form is unchanged and loading stays off |
| `BookingPage.SuccessfulBooking` | src/pages/BookingPage.tsx:43-65 | a submit that passes starts loading, and once the timer fires the page is back at its first state: default form, no error, not loading |
| `BookingPage.NoEditsWhileLoading` | src/pages/BookingPage.tsx:245 | while loading, the disabled controls ignore edits and submits |
| `BookingPage.Booking.constructor` | src/pages/BookingPage.tsx:9-16 | the page starts with the default form, no error, not loading |
| `BookingPage.Booking.HandleInputChange` | src/pages/BookingPage.tsx:28-32 | the new state is `Edit` of the old: the named field takes the value, the other fields keep theirs, the error is cleared, and the consistency invariant is kept |
| `BookingPage.Booking.HandleSubmit` | src/pages/BookingPage.tsx:34-44 | the new state is `Submit` of the old: the booking starts exactly when validation passes, otherwise the error is the validation message; the form is never touched |
| `BookingPage.Booking.CompleteBooking` | src/pages/BookingPage.tsx:55-65 | the new state is `Complete` of the old: the form is reset to the defaults, the error stays null and loading ends |
| `LoginPage.With` | src/pages/LoginPage.tsx:16 | the spread update sets the named field and keeps the other |
| `LoginPage.MsgText` | src/pages/LoginPage.tsx:42 | an element with a string `msg` contributes exactly that string, and text comes only from a string `msg`: a bare string or a missing `msg` contributes "" |
| `LoginPage.Msgs` | src/pages/LoginPage.tsx:42 | mapping `d.msg` succeeds exactly when no element is null, and then gives one text per element, in order |
| `LoginPage.FailureError` | src/pages/LoginPage.tsx:37-45 | for a non-ok response: status 0 gives the CORS message; a 422 array is always turned into text; the error stays an array exactly for an array detail with another status; a falsy detail gives "Login failed" |
| `LoginPage.LoginBanner` | src/pages/LoginPage.tsx:83-90 | no banner exactly for a null or empty error; an array error is shown as one row per element, in order, and only an array is split into rows; a non-empty string is shown as that line of text |
| `LoginPage.NoBannerWhileLoading` | src/pages/LoginPage.tsx:22-23 | while a request is in flight no banner is shown, whatever happened before: the page invariant keeps the error null while loading |
| `LoginPage.LoginError` | src/pages/LoginPage.tsx:20-56 | the error is null exactly after an ok response; a thrown request gives the CORS message |
| `LoginPage.LoginTarget` | src/pages/LoginPage.tsx:37-50 | the page navigates only to `/booking`, and exactly when it ends with no error |
| `LoginPage.Login.constructor` | src/pages/LoginPage.tsx:10-12 | the page starts with an empty form, no error, not loading |
| `LoginPage.Login.HandleChange` | src/pages/LoginPage.tsx:15-18 | the named field takes the value, the other keeps its value, the error is cleared |
| `LoginPage.Login.HandleSubmit` | src/pages/LoginPage.tsx:20-29 | the spinner starts (`SubmitDisabled`: the `loading={loading}` button at line 122 is disabled), the error is cleared so no banner shows, and the request body is exactly the current form |
| `LoginPage.Login.Settle` | src/pages/LoginPage.tsx:30-55 | the error and navigation are those derived from the outcome, loading ends on every path and the form is untouched |
| `LoginPage.StatusZeroIsCors` | src/pages/LoginPage.tsx:38-39 | a non-ok status 0 gives "Network or CORS error. Please check backend CORS settings." and no navigation |
| `LoginPage.UnprocessableJoinsMessages` | src/pages/LoginPage.tsx:40-42 | a 422 whose detail is an array of `{msg}` objects gives the messages, in order, joined by single spaces |
| `LoginPage.UnprocessableExample` | src/pages/LoginPage.tsx:40-42 | the messages "field required" and "invalid email" come out as "field required invalid email" |
| `LoginPage.UnprocessableEmptyList` | src/pages/LoginPage.tsx:40-42 | an empty 422 array gives "", which shows no banner |
| `LoginPage.UnprocessableNullElement` | src/pages/LoginPage.tsx:42 | a null element in a 422 array makes the mapping throw and the CORS message is shown |
| `LoginPage.OtherFailures` | src/pages/LoginPage.tsx:30-44 | any other failure shows a non-empty string detail verbatim and "Login failed" for a falsy one, including an unparseable body |
| `LoginPage.ListErrorExactly` | src/pages/LoginPage.tsx:40-44 | the error is an array exactly when a non-ok response with status other than 0 and 422 carries an array detail; the banner is then given one row per element |
| `LoginPage.EmptyDetails` | src/pages/LoginPage.tsx:44 | an empty-string detail falls back to "Login failed", an empty-array detail is kept |
| `LoginPage.SubmitRound` | src/pages/LoginPage.tsx:20-56 | a full submission sends the form, leaves it unchanged, ends with loading off, leaves exactly the error `LoginError` derives from the outcome, and navigates to `/booking` exactly on an ok response |
| `SignupPage.With` | src/pages/SignupPage.tsx:16 | the spread update sets the named field and keeps the others |
| `SignupPage.SignupError` | src/pages/SignupPage.tsx:20-43 | the error is null exactly after an ok response with a parseable body; a thrown request, an unparseable body, or a non-ok body that parsed to JSON `null` (reading `data.detail` throws, line 32) gives "Network error. Please try again." |
| `SignupPage.SignupTarget` | src/pages/SignupPage.tsx:31-37 | the page navigates only to `/booking`, and exactly when it ends with no error |
| `SignupPage.SignupBanner` | src/pages/SignupPage.tsx:70 | no banner exactly for a null or empty error; an array is never split into rows but handed over as one child; a non-empty string is shown as that line of text |
| `SignupPage.NoBannerWhileLoading` | src/pages/SignupPage.tsx:22-23 | while a request is in flight no banner is shown, whatever happened before: the page invariant keeps the error null while loading |
| `SignupPage.Signup.constructor` | src/pages/SignupPage.tsx:10-12 | the page starts with an empty form, no error, not loading |
| `SignupPage.Signup.HandleChange` | src/pages/SignupPage.tsx:15-18 | the named field takes the value, the others keep theirs, the error is cleared |
| `SignupPage.Signup.HandleSubmit` | src/pages/SignupPage.tsx:20-29 | the spinner starts (`SubmitDisabled`: the `loading={loading}` button at line 116 is disabled), the error is cleared so no banner shows, and the body is exactly `{name, email, password}` of the current form |
| `SignupPage.Signup.Settle` | src/pages/SignupPage.tsx:30-42 | the error and navigation are those derived from the outcome, loading ends on every path and the form is untouched |
| `SignupPage.NonOkParsedBody` | src/pages/SignupPage.tsx:31-32 | a non-ok body that parsed to a non-null value shows a non-empty string detail verbatim, "Signup failed" for a falsy one, and an array detail as the array itself for every status |
| `SignupPage.ListNeverUnpacked` | src/pages/SignupPage.tsx:31-32 | the error is an array exactly when a non-ok response carries that array as its detail; it is never joined |
| `SignupPage.UnparseableBody` | src/pages/SignupPage.tsx:30 | an unparseable body gives the network message and no navigation for ok and non-ok statuses alike |
| `SignupPage.OkNavigates` | src/pages/SignupPage.tsx:30-37 | an ok response with a parseable body navigates to `/booking` with no error |
| `SignupPage.SubmitRound` | src/pages/SignupPage.tsx:20-43 | a full submission sends the form, leaves it unchanged, ends with loading off, leaves exactly the error `SignupError` derives from the outcome and the navigation `SignupTarget` derives, and navigates exactly when no error is left |
| `ThemeToggle.NextTheme` | src/components/ThemeToggle.tsx:17 | a click never requests "system", and requests "light" exactly when the setting is "dark" |
| `ThemeToggle.Appearance` | src/components/ThemeToggle.tsx:12-48 | the track is dark exactly for "dark", the knob shows the moon exactly for "dark", and the two slots always show different icons |
| `ThemeToggle.NeverRequestsSystem` | src/components/ThemeToggle.tsx:17 | no click requests "system"; every setting but "dark", "system" included, requests "dark" |
| `ThemeToggle.TwoClicks` | src/components/ThemeToggle.tsx:17 | two clicks return to "light" or "dark", and take "system" to "light" |
| `ThemeToggle.AppearanceOnlyDependsOnDark` | src/components/ThemeToggle.tsx:12-48 | two settings look alike exactly when both or neither are "dark"; "system" looks like "light" |
| `ThemeToggle.KnobShowsRequestedTheme` | src/components/ThemeToggle.tsx:17-48 | after a click the knob shows the icon of the requested setting, which is the icon the other slot showed before |
| `ThemeToggle.ClickChangesLook` | src/components/ThemeToggle.tsx:12-48 | every click, from any setting, changes what the control shows |

## Left out

- The `fetch` transport, CORS and JSON decoding: the outcome of a request is an input value
  (`Fetch.Outcome`), with `res.ok` taken as a status from 200 to 299.
- `msg` values that are numbers, booleans or objects: `join` would print them as text; the
  model's `msg` is a string or missing. An array element that is a number or a boolean has
  no `msg` and joins as "", exactly like the bare strings the model has (`TextItem`).
- What React does with the error it is handed: a number is printed, but an object is refused
  ("Objects are not valid as a React child"). That covers a truthy `detail` that is neither
  a string nor an array, and also the elements of an array `detail` that are `{msg}`
  objects, rendered one per row at src/pages/LoginPage.tsx:86 and as a single child at
  src/pages/SignupPage.tsx:70. The model only records what is handed over (`Rows`, `Child`).
- The browser's constraint validation on the login and signup forms (`required` on every
  input, `type="email"` at src/pages/LoginPage.tsx:97 and src/pages/SignupPage.tsx:91): it
  decides only which forms get sent, and the handlers treat every form alike. On the booking
  page `required` on the from, to and date inputs is modelled as an emptiness check; the
  date input's value is taken to be any string, not only a well-formed date.
- The booking page's simulated request: the 1.5 second timer becomes an event, and the
  `console.log` and `alert` calls are not modelled. Its `catch` branch
  (src/pages/BookingPage.tsx:61-62) cannot be reached, because nothing in the `try` can throw.
- React's scheduling and state batching: each half of a handler is one sequential step, and
  a handler reads the state left by the previous step.
- `handleInputChange` and `handleChange` with a `name` that none of the page's inputs has:
  the field names are the inputs the pages render.
- JavaScript number precision: `parseInt` values are unbounded integers, and `-0` is 0 (the
  only comparison made, `< 1`, treats them alike).
- The theme provider (`useTheme`, persistence to local storage, resolving "system" against
  the colour-scheme preference): the `ThemeProvider` module imported at
  src/components/ThemeToggle.tsx:2 is not part of this model, so the setting's three values
  are taken as given.
- The markup, Tailwind classes (including where the toggle's slots slide to), icons'
  colours and animations of every page, the landing
  page, the booking page's menu toggle, the route table, and `Card` and `Input`. Of `Button`
  only the rule `disabled || loading` is kept (`Components.ButtonDisabled`).
