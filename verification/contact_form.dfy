/**
 * The contact section's form as a state machine: the form fields, the pending
 * flag, the confirmation flag and the error line, with one transition per
 * handler and the events the rendered UI lets through in each state.
 */
module ContactForm {
  import opened Js

  datatype Field = Name | Email | Subject | Message

  datatype Form = Form(name: string, email: string, subject: string, message: string)

  const BlankForm := Form("", "", "", "")

  /** The value of one named input. */
  function Get(form: Form, f: Field): string {
    match f
    case Name => form.name
    case Email => form.email
    case Subject => form.subject
    case Message => form.message
  }

  datatype State = State(form: Form, isSubmitting: bool, submitted: bool, error: string)

  const Initial := State(BlankForm, false, false, "")

  /**
   * How a request ended, as far as the component can tell: `fetch` rejected,
   * the content type was not JSON, the JSON did not parse, or JSON arrived
   * (`message` is the body's `message` property, if any).
   */
  datatype Reply =
    | NetworkError(reason: Option<string>)
    | NonJson(status: int)
    | BadJson(status: int)
    | Json(status: int, message: Option<string>)

  const NonJsonError := "Received non-JSON response from server"
  const BadJsonError := "Unable to parse server response"
  const GenericError := "Something went wrong"
  const FallbackError := "Failed to send message"

  /** `response.ok`: a 2xx status. */
  predicate Ok(status: int) {
    200 <= status <= 299
  }

  /** The request succeeded exactly when JSON arrived with a 2xx status. */
  predicate Succeeded(reply: Reply) {
    reply.Json? && Ok(reply.status)
  }

  /** The message of the error the `try` block throws for a failed reply. */
  function Thrown(reply: Reply): Option<string>
    requires !Succeeded(reply)
  {
    match reply
    case NetworkError(reason) => reason
    case NonJson(_) => Some(NonJsonError)
    case BadJson(_) => Some(BadJsonError)
    case Json(_, message) => Some(OrElse(message, GenericError))
  }

  /** `handleChange`: one input's new value. */
  function HandleChange(s: State, f: Field, v: string): (t: State)
    ensures Get(t.form, f) == v
    ensures forall g :: g != f ==> Get(t.form, g) == Get(s.form, g)
    ensures t.isSubmitting == s.isSubmitting && t.submitted == s.submitted && t.error == s.error
  {
    var form :=
      match f
      case Name => s.form.(name := v)
      case Email => s.form.(email := v)
      case Subject => s.form.(subject := v)
      case Message => s.form.(message := v);
    s.(form := form)
  }

  /** The synchronous start of `handleSubmit`, before the request is awaited. */
  function BeginSubmit(s: State): (t: State)
    ensures t.isSubmitting && t.error == ""
    ensures t.form == s.form && t.submitted == s.submitted
  {
    s.(isSubmitting := true, error := "")
  }

  /** The rest of `handleSubmit` once the request has ended, including its `finally`. */
  function Complete(s: State, reply: Reply): (t: State)
    ensures !t.isSubmitting
    ensures Succeeded(reply) ==> t.submitted && t.form == BlankForm && t.error == s.error
    ensures !Succeeded(reply) ==> t.submitted == s.submitted && t.form == s.form && t.error != ""
    ensures reply.NonJson? ==> t.error == NonJsonError
    ensures reply.BadJson? ==> t.error == BadJsonError
    ensures reply.Json? && !Ok(reply.status) ==>
      t.error == if Truthy(reply.message) then reply.message.value else GenericError
    ensures reply.NetworkError? ==>
      t.error == if Truthy(reply.reason) then reply.reason.value else FallbackError
  {
    if Succeeded(reply) then
      s.(form := BlankForm, submitted := true, isSubmitting := false)
    else
      s.(error := OrElse(Thrown(reply), FallbackError), isSubmitting := false)
  }

  /** The "Send Another Message" button. */
  function SendAnother(s: State): (t: State)
    ensures !t.submitted
    ensures t.form == s.form && t.isSubmitting == s.isSubmitting && t.error == s.error
  {
    s.(submitted := false)
  }

  // ---------------------------------------------------------------------------
  // Events and the UI that gates them
  // ---------------------------------------------------------------------------

  datatype Event = Change(field: Field, value: string) | Submit | Respond(reply: Reply) | SendAnotherClick

  /**
   * The inputs and the submit button exist only while the confirmation is not
   * shown; the button is disabled while a request is pending; a reply arrives
   * only for a pending request; the "Send Another Message" button exists only
   * on the confirmation.
   */
  predicate Enabled(s: State, e: Event) {
    match e
    case Change(_, _) => !s.submitted
    case Submit => !s.submitted && !s.isSubmitting
    case Respond(_) => s.isSubmitting
    case SendAnotherClick => s.submitted
  }

  function Step(s: State, e: Event): (r: Option<State>)
    ensures r.Some? <==> Enabled(s, e)
    ensures r.Some? && e.Respond? ==> !r.value.isSubmitting
    ensures r.Some? && e.Submit? ==> r.value.isSubmitting && r.value.error == "" && r.value.form == s.form
    ensures r.Some? && e.Change? ==> !r.value.submitted && Get(r.value.form, e.field) == e.value
    ensures r.Some? && e.SendAnotherClick? ==> !r.value.submitted && r.value.form == s.form
  {
    if !Enabled(s, e) then None
    else
      match e
      case Change(f, v) => Some(HandleChange(s, f, v))
      case Submit => Some(BeginSubmit(s))
      case Respond(reply) => Some(Complete(s, reply))
      case SendAnotherClick => Some(SendAnother(s))
  }

  /**
   * The form and the confirmation are never on screen together, and a submit
   * is never possible while a reply is awaited.
   */
  lemma ScreensExclusive(s: State, f: Field, v: string, reply: Reply)
    ensures Enabled(s, SendAnotherClick) ==> !Enabled(s, Change(f, v)) && !Enabled(s, Submit)
    ensures Enabled(s, Submit) ==> !Enabled(s, Respond(reply))
  {
  }

  /** Runs the events in order; `None` when one of them is not enabled. */
  function Run(s: State, es: seq<Event>): Option<State>
    decreases |es|
  {
    if es == [] then Some(s)
    else
      match Step(s, es[0])
      case None => None
      case Some(t) => Run(t, es[1..])
  }

  /**
   * What holds in every state the UI can reach: a pending request has a clear
   * error line and no confirmation, and the confirmation shows only over a
   * blank form with no error and nothing pending.
   */
  predicate Inv(s: State) {
    && (s.isSubmitting ==> s.error == "" && !s.submitted)
    && (s.submitted ==> s.form == BlankForm && s.error == "" && !s.isSubmitting)
  }

  lemma StepPreservesInv(s: State, e: Event)
    requires Inv(s)
    ensures Step(s, e).Some? ==> Inv(Step(s, e).value)
  {
  }

  lemma {:induction false} RunPreservesInv(s: State, es: seq<Event>)
    requires Inv(s)
    ensures Run(s, es).Some? ==> Inv(Run(s, es).value)
    decreases |es|
  {
    if es != [] {
      StepPreservesInv(s, es[0]);
      if Step(s, es[0]).Some? {
        RunPreservesInv(Step(s, es[0]).value, es[1..]);
      }
    }
  }

  /** Every state reached from the initial one satisfies the invariant. */
  lemma ReachableInv(es: seq<Event>)
    ensures Run(Initial, es).Some? ==> Inv(Run(Initial, es).value)
  {
    RunPreservesInv(Initial, es);
  }

  /** In a reachable state, a successful reply leaves a blank form, the confirmation and no error. */
  lemma SuccessLeavesNoError(s: State, reply: Reply)
    requires Inv(s) && s.isSubmitting && Succeeded(reply)
    ensures Step(s, Respond(reply)) == Some(State(BlankForm, false, true, ""))
  {
  }

  /** In a reachable state, "Send Another Message" returns exactly to the initial state. */
  lemma SendAnotherRestoresInitial(s: State)
    requires Inv(s) && s.submitted
    ensures Step(s, SendAnotherClick) == Some(Initial)
  {
  }

  /** Every reply, whatever it is, ends the pending state; the submit button is back unless the reply succeeded. */
  lemma ReplyReenablesSubmit(s: State, reply: Reply)
    requires Inv(s) && s.isSubmitting
    ensures Step(s, Respond(reply)).Some?
    ensures var t := Step(s, Respond(reply)).value;
      !t.isSubmitting && (Enabled(t, Submit) <==> !Succeeded(reply))
  {
  }
}
