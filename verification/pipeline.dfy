/**
 * The contact form and the endpoint together: the form's fields travel as the
 * JSON body, and the endpoint's JSON response comes back as the form's reply.
 */
module Pipeline {
  import opened Js
  import ContactRoute
  import ContactForm

  /** `JSON.stringify(formData)` as the endpoint reads it back: every key present. */
  function ToRequest(form: ContactForm.Form): ContactRoute.RequestBody {
    ContactRoute.Parsed(ContactRoute.Fields(Some(form.name), Some(form.email), Some(form.subject), Some(form.message)))
  }

  /** `NextResponse.json` always answers with a JSON content type and a `message` property. */
  function ToReply(r: ContactRoute.Response): ContactForm.Reply {
    ContactForm.Json(r.status, Some(r.body.message))
  }

  /** One full submission from a state whose submit button is enabled. */
  function SubmitRoundTrip(s: ContactForm.State, c: ContactRoute.Config, p: ContactRoute.ProviderOutcome): ContactForm.State
  {
    var pending := ContactForm.BeginSubmit(s);
    ContactForm.Complete(pending, ToReply(ContactRoute.Handle(c, ToRequest(pending.form), p).response))
  }

  predicate Filled(form: ContactForm.Form) {
    form.name != "" && form.email != "" && form.subject != "" && form.message != ""
  }

  /** The endpoint accepts the form exactly when every input is filled. */
  lemma FilledIffPresent(form: ContactForm.Form)
    ensures ContactRoute.AllFieldsPresent(ToRequest(form).fields) <==> Filled(form)
  {
  }

  /**
   * With the development switch as shipped, a filled form always ends on the
   * confirmation with a blank form and no error.
   */
  lemma ShippedFilledFormConfirms(s: ContactForm.State, env: ContactRoute.Env, p: ContactRoute.ProviderOutcome)
    requires ContactForm.Inv(s) && ContactForm.Enabled(s, ContactForm.Submit)
    requires Filled(s.form)
    ensures SubmitRoundTrip(s, ContactRoute.Config(ContactRoute.ShippedForceDevMode, env), p)
         == ContactForm.State(ContactForm.BlankForm, false, true, "")
  {
    var pending := ContactForm.BeginSubmit(s);
    ContactRoute.ShippedAlwaysSimulates(env, ToRequest(pending.form).fields, p);
  }

  /**
   * A form with an empty input that reaches the endpoint stays as it is, off the
   * confirmation, and shows the endpoint's required-field message.
   */
  lemma EmptyFieldShowsRequired(s: ContactForm.State, c: ContactRoute.Config, p: ContactRoute.ProviderOutcome)
    requires ContactForm.Inv(s) && ContactForm.Enabled(s, ContactForm.Submit)
    requires !Filled(s.form)
    ensures SubmitRoundTrip(s, c, p) == ContactForm.State(s.form, false, false, ContactRoute.RequiredMessage)
  {
    var pending := ContactForm.BeginSubmit(s);
    ContactRoute.MissingFieldRejected(c, ToRequest(pending.form).fields, p);
  }

  /** On the real path a rejected send shows the provider's own text on the form. */
  lemma ProviderErrorShownToUser(s: ContactForm.State, c: ContactRoute.Config, m: string)
    requires ContactForm.Inv(s) && ContactForm.Enabled(s, ContactForm.Submit)
    requires Filled(s.form) && ContactRoute.ChooseMode(c) == ContactRoute.Send && m != ""
    ensures SubmitRoundTrip(s, c, ContactRoute.Rejected(Some(m)))
         == ContactForm.State(s.form, false, false, ContactRoute.SendFailurePrefix + m)
  {
    var pending := ContactForm.BeginSubmit(s);
    ContactRoute.RejectedResponse(c, ToRequest(pending.form).fields, Some(m));
  }

  /** The end-to-end scenario: Ada's message with the development switch on. */
  lemma AdaScenario(env: ContactRoute.Env, p: ContactRoute.ProviderOutcome)
    ensures var form := ContactForm.Form("Ada", "ada@example.com", "Hi", "Hello there");
      && ContactRoute.Handle(ContactRoute.Config(true, env), ToRequest(form), p).response
         == ContactRoute.Response(200, ContactRoute.Body("Message received! Thank you for contacting me.", Some(true)))
      && SubmitRoundTrip(ContactForm.Initial.(form := form), ContactRoute.Config(true, env), p)
         == ContactForm.Initial.(submitted := true)
  {
  }
}
