/** The contact form (src/components/ContactSection.tsx): field editing,
    validation and the submission status machine with its one fallback.

    The network is an oracle: the caller supplies the configured endpoint
    ("" when unset), how the primary request ended, and whether the fallback
    request threw. */
module ContactSection {
  import opened Wrappers

  datatype Status = Idle | Submitting | Success | Error

  datatype FormData = FormData(name: string, email: string, message: string)

  const EmptyForm: FormData := FormData("", "", "")

  /** The `name` attribute of the input that changed. */
  datatype Field = NameField | EmailField | MessageField

  /** The JSON body of an answer: unparsable, an object whose `ok` is `false`
      (with its `error` text, "" when absent or empty), or anything else. */
  datatype ResponseBody = Unparsable | OkFalse(error: string) | OtherJson

  /** How the primary `fetch` ended: it threw (network failure, the 15 s abort)
      with an error message, or it answered. */
  datatype FetchOutcome =
    | Threw(message: string)
    | Responded(ok: bool, statusCode: nat, text: string, body: ResponseBody)

  /** The two kinds of request the form sends. */
  datatype RequestMode = Cors | NoCors

  /** A POST of the form's fields to the endpoint. */
  datatype Request = Request(mode: RequestMode, payload: FormData)

  /** The number a string of decimal digits spells, most significant first. */
  function DigitsValue(s: string): nat
    requires forall i :: 0 <= i < |s| ==> '0' <= s[i] <= '9'
  {
    if s == [] then 0
    else DigitsValue(s[..|s| - 1]) * 10 + (s[|s| - 1] - '0') as nat
  }

  /** The decimal digits of `n` (`String(n)` for a status code). */
  function DecimalString(n: nat): (s: string)
    ensures |s| >= 1
    ensures forall i :: 0 <= i < |s| ==> '0' <= s[i] <= '9'
    ensures DigitsValue(s) == n
  {
    var digit := ['0' + (n % 10) as char];
    if n < 10 then digit else DecimalString(n / 10) + digit
  }

  /** All three fields are non-empty (whitespace counts as content). */
  predicate IsComplete(f: FormData)
  {
    f.name != "" && f.email != "" && f.message != ""
  }

  /** Why the primary attempt failed, or `None` when it succeeded: a missing
      endpoint, a thrown `fetch`, a non-ok status, or a body whose `ok` is
      `false`. An unparsable body stands for `{ok: res.ok}`. */
  function PrimaryFailure(endpoint: string, outcome: FetchOutcome): (failure: Option<string>)
    ensures failure.None? <==>
              endpoint != "" && outcome.Responded? && outcome.ok && !outcome.body.OkFalse?
    ensures endpoint == "" ==> failure == Some("Missing VITE_GAS_ENDPOINT")
    ensures endpoint != "" && outcome.Threw? ==> failure == Some(outcome.message)
    ensures failure.Some? && (endpoint == "" || outcome.Responded?) ==> failure.value != ""
  {
    if endpoint == "" then Some("Missing VITE_GAS_ENDPOINT")
    else match outcome
      case Threw(m) => Some(m)
      case Responded(ok, code, text, body) =>
        if !ok then Some("GAS returned " + DecimalString(code) + ": " + text)
        else if body.OkFalse? then Some(if body.error == "" then "Unknown error" else body.error)
        else None
  }

  /** The part of the component's state a submission touches. */
  datatype ContactState = ContactState(formData: FormData, status: Status, errorMsg: string)

  /** The state once a submission settles: success clears the form; when the
      primary attempt fails, a fallback that does not throw also counts as
      success; otherwise the status is `Error`, the message is the primary's and
      the form is kept. */
  function Settled(st: ContactState, endpoint: string, primary: FetchOutcome, fallbackThrows: bool): (r: ContactState)
  {
    match PrimaryFailure(endpoint, primary)
    case None => st.(status := Success, formData := EmptyForm)
    case Some(msg) =>
      if !fallbackThrows then st.(status := Success, formData := EmptyForm)
      else st.(status := Error, errorMsg := msg)
  }

  /** The requests a settled submission has issued: the CORS POST when an
      endpoint is configured, then the no-cors POST when the first one failed. */
  function Attempts(submitted: FormData, endpoint: string, primary: FetchOutcome): (rs: seq<Request>)
    ensures |rs| <= 2
    ensures forall i :: 0 <= i < |rs| ==> rs[i].payload == submitted
  {
    (if endpoint != "" then [Request(Cors, submitted)] else [])
    + (if PrimaryFailure(endpoint, primary).Some? then [Request(NoCors, submitted)] else [])
  }

  /** A settled submission ends in `Success` with an empty form, or in `Error`
      with the form and every other field as they were and the primary error's
      message; it is never left `Submitting`. */
  lemma SettledOutcome(st: ContactState, endpoint: string, primary: FetchOutcome, fallbackThrows: bool)
    ensures var r := Settled(st, endpoint, primary, fallbackThrows);
            (r.status == Success && r.formData == EmptyForm && r.errorMsg == st.errorMsg)
            || (r.status == Error && r.formData == st.formData
                && Some(r.errorMsg) == PrimaryFailure(endpoint, primary))
    ensures Settled(st, endpoint, primary, fallbackThrows).status == Error
            <==> PrimaryFailure(endpoint, primary).Some? && fallbackThrows
  {
  }

  /** At least one request goes out for every settled submission: the CORS
      request alone when it succeeds, the CORS request and then one no-cors
      fallback when it fails, and the fallback alone without an endpoint. */
  lemma AttemptsOutcome(submitted: FormData, endpoint: string, primary: FetchOutcome)
    ensures 1 <= |Attempts(submitted, endpoint, primary)|
    ensures PrimaryFailure(endpoint, primary).None? ==>
              Attempts(submitted, endpoint, primary) == [Request(Cors, submitted)]
    ensures endpoint == "" ==> Attempts(submitted, endpoint, primary) == [Request(NoCors, submitted)]
    ensures endpoint != "" && PrimaryFailure(endpoint, primary).Some? ==>
              Attempts(submitted, endpoint, primary) == [Request(Cors, submitted), Request(NoCors, submitted)]
  {
  }

  /** The submit button is disabled exactly while a submission is in flight. */
  predicate SubmitDisabled(status: Status)
  {
    status == Submitting
  }

  /** The button is disabled while a submission is in flight and enabled
      again once it settles, whatever the outcome. */
  lemma SubmitButtonState(st: ContactState, endpoint: string, primary: FetchOutcome, fallbackThrows: bool)
    ensures SubmitDisabled(Submitting)
    ensures !SubmitDisabled(Settled(st, endpoint, primary, fallbackThrows).status)
  {
  }

  /** The form with one field replaced. */
  function WithField(f: FormData, field: Field, value: string): (g: FormData)
    ensures field == NameField ==> g == FormData(value, f.email, f.message)
    ensures field == EmailField ==> g == FormData(f.name, value, f.message)
    ensures field == MessageField ==> g == FormData(f.name, f.email, value)
  {
    match field
    case NameField => f.(name := value)
    case EmailField => f.(email := value)
    case MessageField => f.(message := value)
  }

  /** The component's state. */
  class ContactForm {
    var formData: FormData
    var status: Status
    var errorMsg: string

    function State(): ContactState
      reads this
    {
      ContactState(formData, status, errorMsg)
    }

    constructor ()
      ensures formData == EmptyForm && status == Idle && errorMsg == ""
    {
      formData, status, errorMsg := EmptyForm, Idle, "";
    }

    /** `handleInputChange`: only the named field changes. */
    method HandleInputChange(field: Field, value: string)
      modifies this
      ensures formData == WithField(old(formData), field, value)
      ensures status == old(status) && errorMsg == old(errorMsg)
    {
      formData := WithField(formData, field, value);
    }

    /** The synchronous start of `handleSubmit`: an incomplete form is left
      alone and nothing is sent; a complete one moves to `Submitting`. */
    method BeginSubmit() returns (proceed: bool)
      modifies this
      ensures proceed == IsComplete(old(formData))
      ensures proceed ==> status == Submitting && SubmitDisabled(status)
      ensures !proceed ==> status == old(status)
      ensures formData == old(formData) && errorMsg == old(errorMsg)
    {
      if formData.name == "" || formData.email == "" || formData.message == "" {
        return false;
      }
      status := Submitting;
      return true;
    }

    /** The asynchronous rest of `handleSubmit` for the form captured as
      `submitted`: the primary attempt, then the fallback if it failed. */
    method SettleSubmit(submitted: FormData, endpoint: string, primary: FetchOutcome, fallbackThrows: bool)
      returns (sent: seq<Request>)
      modifies this
      ensures State() == Settled(old(State()), endpoint, primary, fallbackThrows)
      ensures sent == Attempts(submitted, endpoint, primary)
    {
      sent := [];
      var failure: Option<string> := None;
      if endpoint == "" {
        failure := Some("Missing VITE_GAS_ENDPOINT");
      } else {
        sent := sent + [Request(Cors, submitted)];
        failure := PrimaryFailure(endpoint, primary);
      }
      if failure.None? {
        status := Success;
        formData := EmptyForm;
      } else {
        sent := sent + [Request(NoCors, submitted)];
        if !fallbackThrows {
          status := Success;
          formData := EmptyForm;
        } else {
          errorMsg := failure.value;
          status := Error;
        }
      }
    }

    /** A whole submission with no edits while it is in flight. */
    method HandleSubmit(endpoint: string, primary: FetchOutcome, fallbackThrows: bool)
      returns (sent: seq<Request>)
      modifies this
      ensures !IsComplete(old(formData)) ==> sent == [] && State() == old(State())
      ensures IsComplete(old(formData)) ==>
                sent == Attempts(old(formData), endpoint, primary)
                && State() == Settled(old(State()).(status := Submitting), endpoint, primary, fallbackThrows)
    {
      var submitted := formData;
      var proceed := BeginSubmit();
      if !proceed {
        return [];
      }
      sent := SettleSubmit(submitted, endpoint, primary, fallbackThrows);
    }
  }
}
