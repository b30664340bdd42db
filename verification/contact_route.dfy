/**
 * The `POST /api/contact` handler as a pure function from the parsed request,
 * the environment configuration and the email provider's outcome to the HTTP
 * response and what, if anything, was dispatched.
 */
module ContactRoute {
  import opened Js

  /** The four fields destructured from the JSON body; `None` is a missing key. */
  datatype Fields = Fields(name: Option<string>, email: Option<string>, subject: Option<string>, message: Option<string>)

  /** The outcome of `await request.json()` and the destructuring that follows it. */
  datatype RequestBody = Unparsable(reason: Option<string>) | Parsed(fields: Fields)

  /** The environment variables the handler reads. */
  datatype Env = Env(
    sendgridApiKey: Option<string>,
    useDummyEmail: Option<string>,
    emailRecipient: Option<string>,
    emailFrom: Option<string>)

  /** The module-level development switch together with the environment. */
  datatype Config = Config(forceDevMode: bool, env: Env)

  /** The value the module-level development switch has as shipped. */
  const ShippedForceDevMode: bool := true

  /** What the email provider does when asked; `ModuleUnavailable` is a failed SDK import. */
  datatype ProviderOutcome = Delivered | Rejected(message: Option<string>) | ModuleUnavailable

  /** A validated submission: every field is a non-empty string. */
  datatype Submission = Submission(name: string, email: string, subject: string, message: string)

  /** The JSON body of a response; `devMode` is present only on the simulated path. */
  datatype Body = Body(message: string, devMode: Option<bool>)

  datatype Response = Response(status: int, body: Body)

  /** The would-be envelope the simulated path writes to the log instead of sending. */
  datatype DevLog = DevLog(to: string, from: string, subject: string, name: string, email: string, preview: string)

  /**
   * The envelope handed to the provider. The text and HTML bodies are templates
   * over `name`, `email`, `subject` and `message`, kept here as their inputs.
   */
  datatype Envelope = Envelope(
    to: Option<string>,
    from: Option<string>,
    replyTo: string,
    subject: string,
    name: string,
    email: string,
    message: string)

  /** What the request caused outside the response: nothing, a log line, or one provider call. */
  datatype Dispatch = NoDispatch | Simulated(log: DevLog) | Attempted(envelope: Envelope)

  datatype Outcome = Outcome(response: Response, dispatch: Dispatch)

  datatype Mode = Dev | Send

  const RequiredMessage := "All fields are required"
  const DevMessage := "Message received! Thank you for contacting me."
  const SentMessage := "Message sent successfully! You will receive a response soon."
  const SendFailurePrefix := "Failed to send email: "
  const UnknownError := "Unknown error"
  const ModuleMissingError := "Email module not available"
  const KeyMissingError := "SendGrid API key is missing from environment variables"
  const ProcessFailureMessage := "Failed to process your message. Please try again later."
  const SubjectPrefix := "Portfolio Contact: "
  const DefaultLogRecipient := "recipient@example.com"
  const DefaultLogSender := "sender@example.com"
  const PreviewLimit: nat := 100
  const Ellipsis := "..."

  /** All four fields are truthy. */
  predicate AllFieldsPresent(f: Fields) {
    Truthy(f.name) && Truthy(f.email) && Truthy(f.subject) && Truthy(f.message)
  }

  /** The required-field check: a submission exactly when no field is absent or empty. */
  function Validate(f: Fields): (r: Option<Submission>)
    ensures r.Some? <==> AllFieldsPresent(f)
    ensures r.Some? ==> r.value.name != "" && r.value.email != "" && r.value.subject != "" && r.value.message != ""
    ensures r.Some? ==>
      && Some(r.value.name) == f.name && Some(r.value.email) == f.email
      && Some(r.value.subject) == f.subject && Some(r.value.message) == f.message
  {
    if !Truthy(f.name) || !Truthy(f.email) || !Truthy(f.subject) || !Truthy(f.message) then None
    else Some(Submission(f.name.value, f.email.value, f.subject.value, f.message.value))
  }

  /** The logged form of a message: its first hundred characters, marked when cut. */
  function Preview(message: string): (r: string)
    ensures |message| <= PreviewLimit ==> r == message
    ensures |message| > PreviewLimit ==> r == message[..PreviewLimit] + Ellipsis
    ensures |r| <= PreviewLimit + |Ellipsis|
    ensures r[..if |message| < PreviewLimit then |message| else PreviewLimit] <= message
  {
    Substring(message, PreviewLimit) + (if |message| > PreviewLimit then Ellipsis else "")
  }

  /** The three-way choice between the simulated and the real path. */
  function ChooseMode(c: Config): (m: Mode)
    ensures c.forceDevMode ==> m == Dev
    ensures m == Send ==> Truthy(c.env.sendgridApiKey) && c.env.useDummyEmail != Some("true")
  {
    if c.forceDevMode || !Truthy(c.env.sendgridApiKey) || c.env.useDummyEmail == Some("true") then Dev else Send
  }

  /** The simulated path: log the would-be envelope and acknowledge. */
  function DevPath(c: Config, s: Submission): (r: Outcome)
    ensures r.response.status == 200 && r.response.body.devMode == Some(true)
    ensures r.dispatch.Simulated? && r.dispatch.log.to != "" && r.dispatch.log.from != ""
    ensures Truthy(c.env.emailRecipient) ==> r.dispatch.log.to == c.env.emailRecipient.value
    ensures Truthy(c.env.emailFrom) ==> r.dispatch.log.from == c.env.emailFrom.value
    ensures |r.dispatch.log.preview| <= PreviewLimit + |Ellipsis|
  {
    var log := DevLog(
      OrElse(c.env.emailRecipient, DefaultLogRecipient),
      OrElse(c.env.emailFrom, DefaultLogSender),
      SubjectPrefix + s.subject,
      s.name,
      s.email,
      Preview(s.message));
    Outcome(Response(200, Body(DevMessage, Some(true))), Simulated(log))
  }

  /** The envelope of the real path. */
  function BuildEnvelope(env: Env, s: Submission): (e: Envelope)
    ensures Truthy(e.to) <==> Truthy(env.emailRecipient) || Truthy(env.emailFrom)
    ensures Truthy(env.emailRecipient) ==> e.to == env.emailRecipient
    ensures e.from == env.emailFrom && e.replyTo == s.email
    ensures |e.subject| >= |SubjectPrefix| && e.subject[..|SubjectPrefix|] == SubjectPrefix
    ensures e.subject[|SubjectPrefix|..] == s.subject
  {
    Envelope(Or(env.emailRecipient, env.emailFrom), env.emailFrom, s.email, SubjectPrefix + s.subject,
             s.name, s.email, s.message)
  }

  /** The checks before the provider is called; the message of the error thrown, if any. */
  function SendPrecheck(env: Env, p: ProviderOutcome): (r: Option<string>)
    ensures r == Some(ModuleMissingError) <==> p.ModuleUnavailable?
    ensures r == Some(KeyMissingError) <==> !p.ModuleUnavailable? && !Truthy(env.sendgridApiKey)
    ensures r == None <==> !p.ModuleUnavailable? && Truthy(env.sendgridApiKey)
  {
    if p.ModuleUnavailable? then Some(ModuleMissingError)
    else if !Truthy(env.sendgridApiKey) then Some(KeyMissingError)
    else None
  }

  /** The message the inner catch rethrows for an error whose message is `inner`. */
  function SendFailure(inner: Option<string>): string {
    SendFailurePrefix + OrElse(inner, UnknownError)
  }

  /** The outer catch: status 500 carrying the error's message, or a fallback when it has none. */
  function Failure(message: Option<string>): Response {
    Response(500, Body(OrElse(message, ProcessFailureMessage), None))
  }

  /** The real path: prechecks, one provider call, and the mapping of its outcome. */
  function SendPath(c: Config, s: Submission, p: ProviderOutcome): (r: Outcome)
    ensures r.response.status in {200, 500} && r.response.body.devMode == None
    ensures r.response.status == 200 <==> p.Delivered? && Truthy(c.env.sendgridApiKey)
    ensures r.dispatch.Attempted? <==> !p.ModuleUnavailable? && Truthy(c.env.sendgridApiKey)
    ensures r.dispatch.Attempted? ==> r.dispatch.envelope.replyTo == s.email
    ensures r.response.status == 500 ==>
      |r.response.body.message| > |SendFailurePrefix| && r.response.body.message[..|SendFailurePrefix|] == SendFailurePrefix
  {
    match SendPrecheck(c.env, p)
    case Some(e) => Outcome(Failure(Some(SendFailure(Some(e)))), NoDispatch)
    case None =>
      // the precheck has ruled out a missing module, so the provider either rejects or delivers
      var envelope := BuildEnvelope(c.env, s);
      if p.Rejected? then Outcome(Failure(Some(SendFailure(p.message))), Attempted(envelope))
      else Outcome(Response(200, Body(SentMessage, None)), Attempted(envelope))
  }

  /** The whole handler. */
  function Handle(c: Config, b: RequestBody, p: ProviderOutcome): (r: Outcome)
    ensures r.response.status in {200, 400, 500}
    ensures r.response.body.message != ""
    ensures r.response.body.devMode.Some? <==> r.dispatch.Simulated?
    ensures r.dispatch.Attempted? ==> b.Parsed? && AllFieldsPresent(b.fields) && Truthy(c.env.sendgridApiKey)
  {
    match b
    case Unparsable(reason) => Outcome(Failure(reason), NoDispatch)
    case Parsed(f) =>
      match Validate(f)
      case None => Outcome(Response(400, Body(RequiredMessage, None)), NoDispatch)
      case Some(s) =>
        if ChooseMode(c) == Dev then DevPath(c, s) else SendPath(c, s, p)
  }

  // ---------------------------------------------------------------------------
  // Properties of the handler
  // ---------------------------------------------------------------------------

  /** Status 400 exactly when some field is absent or empty; then the fixed message and no dispatch. */
  lemma MissingFieldRejected(c: Config, f: Fields, p: ProviderOutcome)
    ensures Handle(c, Parsed(f), p).response.status == 400 <==> !AllFieldsPresent(f)
    ensures !AllFieldsPresent(f) ==> Handle(c, Parsed(f), p) == Outcome(Response(400, Body(RequiredMessage, None)), NoDispatch)
  {
  }

  /** Which field is missing, the configuration and the provider make no difference to a rejection. */
  lemma RejectionIgnoresWhichField(c1: Config, f1: Fields, p1: ProviderOutcome,
                                   c2: Config, f2: Fields, p2: ProviderOutcome)
    requires !AllFieldsPresent(f1) && !AllFieldsPresent(f2)
    ensures Handle(c1, Parsed(f1), p1) == Handle(c2, Parsed(f2), p2)
  {
  }

  /** A complete request is answered with `devMode` exactly when a dev condition holds. */
  lemma DevPathIff(c: Config, f: Fields, p: ProviderOutcome)
    requires AllFieldsPresent(f)
    ensures Handle(c, Parsed(f), p).response.body.devMode.Some?
        <==> c.forceDevMode || !Truthy(c.env.sendgridApiKey) || c.env.useDummyEmail == Some("true")
  {
  }

  /**
   * On the simulated path the answer is the fixed acknowledgement with `devMode: true`,
   * the provider is not consulted, and the log carries the defaulted addresses and the preview.
   */
  lemma DevPathOutcome(c: Config, f: Fields, p: ProviderOutcome, q: ProviderOutcome)
    requires AllFieldsPresent(f)
    requires c.forceDevMode || !Truthy(c.env.sendgridApiKey) || c.env.useDummyEmail == Some("true")
    ensures Handle(c, Parsed(f), p).response == Response(200, Body(DevMessage, Some(true)))
    ensures Handle(c, Parsed(f), p) == Handle(c, Parsed(f), q)
    ensures Handle(c, Parsed(f), p).dispatch.Simulated?
    ensures var log := Handle(c, Parsed(f), p).dispatch.log;
      && log.to == (if Truthy(c.env.emailRecipient) then c.env.emailRecipient.value else DefaultLogRecipient)
      && log.from == (if Truthy(c.env.emailFrom) then c.env.emailFrom.value else DefaultLogSender)
      && log.subject == SubjectPrefix + f.subject.value
      && log.preview == Preview(f.message.value)
  {
  }

  /** With the switch as shipped, every complete request is simulated and succeeds. */
  lemma ShippedAlwaysSimulates(env: Env, f: Fields, p: ProviderOutcome)
    requires AllFieldsPresent(f)
    ensures var r := Handle(Config(ShippedForceDevMode, env), Parsed(f), p);
      r.response == Response(200, Body(DevMessage, Some(true))) && !r.dispatch.Attempted?
  {
  }

  /** The provider is called exactly once for a complete request on the real path with the SDK loaded, and never otherwise. */
  lemma ProviderInvokedIff(c: Config, b: RequestBody, p: ProviderOutcome)
    ensures Handle(c, b, p).dispatch.Attempted?
        <==> b.Parsed? && AllFieldsPresent(b.fields) && ChooseMode(c) == Send && !p.ModuleUnavailable?
  {
  }

  /** The envelope handed to the provider. */
  lemma SendEnvelope(c: Config, f: Fields, p: ProviderOutcome)
    requires AllFieldsPresent(f) && ChooseMode(c) == Send && !p.ModuleUnavailable?
    ensures var e := Handle(c, Parsed(f), p).dispatch.envelope;
      && e.to == (if Truthy(c.env.emailRecipient) then c.env.emailRecipient else c.env.emailFrom)
      && e.from == c.env.emailFrom
      && e.replyTo == f.email.value
      && e.subject == SubjectPrefix + f.subject.value
      && e.message == f.message.value
  {
  }

  /** A delivered email is answered with 200 and the sent message, without `devMode`. */
  lemma DeliveredResponse(c: Config, f: Fields)
    requires AllFieldsPresent(f) && ChooseMode(c) == Send
    ensures Handle(c, Parsed(f), Delivered).response == Response(200, Body(SentMessage, None))
  {
  }

  /** A rejected send is answered with 500 and a message that ends with the provider's own text. */
  lemma RejectedResponse(c: Config, f: Fields, m: Option<string>)
    requires AllFieldsPresent(f) && ChooseMode(c) == Send
    ensures var r := Handle(c, Parsed(f), Rejected(m)).response;
      && r.status == 500
      && r.body == Body(SendFailurePrefix + (if Truthy(m) then m.value else UnknownError), None)
      && (Truthy(m) ==> r.body.message[|r.body.message| - |m.value|..] == m.value)
  {
    var r := Handle(c, Parsed(f), Rejected(m)).response;
    if Truthy(m) {
      assert r.body.message == SendFailurePrefix + m.value;
    }
  }

  /** A failed SDK import is answered with 500 and nothing is sent. */
  lemma ModuleUnavailableResponse(c: Config, f: Fields)
    requires AllFieldsPresent(f) && ChooseMode(c) == Send
    ensures Handle(c, Parsed(f), ModuleUnavailable)
         == Outcome(Response(500, Body(SendFailurePrefix + ModuleMissingError, None)), NoDispatch)
  {
  }

  /** The real path is only chosen with an API key present, so the missing-key throw never fires. */
  lemma KeyCheckUnreachable(c: Config, p: ProviderOutcome)
    requires ChooseMode(c) == Send
    ensures SendPrecheck(c.env, p) != Some(KeyMissingError)
  {
  }

  /** A body that cannot be read is answered with 500 carrying the parser's message, and nothing is sent. */
  lemma UnparsableResponse(c: Config, reason: Option<string>, p: ProviderOutcome)
    ensures Handle(c, Unparsable(reason), p)
         == Outcome(Response(500, Body(if Truthy(reason) then reason.value else ProcessFailureMessage, None)), NoDispatch)
  {
  }

  /** Status 200 exactly for a complete request that is simulated or delivered. */
  lemma SuccessIff(c: Config, b: RequestBody, p: ProviderOutcome)
    ensures Handle(c, b, p).response.status == 200
        <==> b.Parsed? && AllFieldsPresent(b.fields) && (ChooseMode(c) == Dev || p.Delivered?)
  {
  }

  /** Previewing a preview changes nothing. */
  lemma PreviewIdempotent(message: string)
    ensures Preview(Preview(message)) == Preview(message)
  {
    if |message| > PreviewLimit {
      var r := Preview(message);
      assert |r| == PreviewLimit + |Ellipsis|;
      assert r[..PreviewLimit] == message[..PreviewLimit];
    }
  }
}
