# Portfolio contact pipeline, project filter and sitemap — a Dafny model

This project models the parts of a personal portfolio site that have behaviour
beyond layout and animation:

- the `POST /api/contact` endpoint (`ContactRoute`, `contact_route.dfy`): a
  required-field check, a choice between a simulated "development" path and a
  real send through the email provider, a 100-character message preview, the
  envelope handed to the provider, and the mapping of every outcome to an HTTP
  status and a JSON body;
- the contact form (`ContactForm`, `contact_form.dfy`): the form fields, the
  pending flag, the confirmation flag and the error line, with one transition
  per handler and the events the rendered UI lets through in each state;
- the two together (`Pipeline`, `pipeline.dfy`): the form's fields sent as the
  request body, the endpoint's JSON response read back by the form;
- the projects section's category filter (`Projects`, `projects.dfy`);
- the server-side sitemap route (`Sitemap`, `sitemap.dfy`);
- a small module of JavaScript value semantics (`Js`, `js.dfy`): optional
  strings, truthiness, `||` and `substring`.

Every operation is a pure function. Everything the code reads from outside
becomes a parameter: the environment variables, the module-level
`FORCE_DEV_MODE` switch (`Config.forceDevMode`; `ShippedForceDevMode` is its
shipped value, `true`), the result of parsing the request body, what the email
provider does (`Delivered`, `Rejected(message)`, or `ModuleUnavailable` when
the SDK import fails), and how the browser's request ended (`Reply`).

A JSON field or environment variable that is missing is `None`. A present one
is `Some(s)`. JavaScript treats both `undefined` and `""` as falsy, and `Truthy`
captures that. The handler's `!x` and `a || b` are written with `Truthy`, `Or`
and `OrElse`.

A failed send is not hidden from the caller. The inner catch (route.js lines
117-121) rethrows `Failed to send email: ` followed by the provider error's own
message, and the outer catch (route.js lines 124-129) returns that text in the
500 body. `RejectedResponse` proves that the body ends with the provider's
text, and `Pipeline.ProviderErrorShownToUser` proves that the form displays it.

## Model

| member | source | states |
|---|---|---|
| ContactRoute.Validate | src/app/api/contact/route.js:18-25 | a submission is produced exactly when all four fields are truthy, and it carries the four values unchanged and non-empty |
| ContactRoute.Preview | src/app/api/contact/route.js:31 | a message of at most 100 characters is kept whole; a longer one becomes its first 100 characters followed by "..."; the preview is never longer than 103 characters and starts with a prefix of the message |
| ContactRoute.PreviewIdempotent | src/app/api/contact/route.js:45 | previewing a preview gives the same preview |
| ContactRoute.SendPrecheck | src/app/api/contact/route.js:55-62 | the module check runs first; the missing-key error is thrown exactly when the SDK loaded and the API key is falsy; nothing is thrown exactly when the SDK loaded and the key is truthy |
| ContactRoute.Handle | src/app/api/contact/route.js:15-132 | every response has status 200, 400 or 500 and a non-empty message; `devMode` is present exactly on the simulated path; the provider is only called for a complete request with an API key present |
| ContactRoute.ChooseMode | src/app/api/contact/route.js:34 | FORCE_DEV_MODE alone forces the simulated path, and the real path implies a truthy SENDGRID_API_KEY and USE_DUMMY_EMAIL other than "true"; DevPathIff shows the simulated path is taken exactly when one of the three conditions holds |
| ContactRoute.DevPath | src/app/api/contact/route.js:34-51 | the simulated path answers 200 with `devMode: true` and only logs; the logged `to` and `from` are never empty, take EMAIL_RECIPIENT and EMAIL_FROM when truthy, and the preview is at most 103 characters; DevPathOutcome gives the defaults "recipient@example.com" and "sender@example.com" |
| ContactRoute.BuildEnvelope | src/app/api/contact/route.js:72-76 | `to` is EMAIL_RECIPIENT when truthy, and is truthy exactly when EMAIL_RECIPIENT or EMAIL_FROM is; `from` is EMAIL_FROM; `replyTo` is the submitter's email; the subject is "Portfolio Contact: " followed by the submitted subject; SendEnvelope shows this is the envelope the provider receives |
| ContactRoute.SendPath | src/app/api/contact/route.js:54-122 | the real path answers 200 or 500 and never sets `devMode`; 200 exactly when the provider delivers and the key is truthy; the provider is called exactly when the SDK loaded and the key is truthy, with the submitter's email as `replyTo`; every 500 message starts with "Failed to send email: " |
| ContactRoute.MissingFieldRejected | src/app/api/contact/route.js:20-25 | status is 400 exactly when some field is absent or empty, and then the body is "All fields are required" and nothing is dispatched |
| ContactRoute.RejectionIgnoresWhichField | src/app/api/contact/route.js:20-25 | any two requests that each miss some field get the same outcome, whatever the configuration and the provider |
| ContactRoute.DevPathIff | src/app/api/contact/route.js:34 | a complete request gets `devMode` exactly when FORCE_DEV_MODE is on, or SENDGRID_API_KEY is falsy, or USE_DUMMY_EMAIL is the string "true" |
| ContactRoute.DevPathOutcome | src/app/api/contact/route.js:34-51 | on the simulated path the response is 200 with the fixed acknowledgement and `devMode: true`, the provider's behaviour makes no difference, and the log shows EMAIL_RECIPIENT or "recipient@example.com", EMAIL_FROM or "sender@example.com", the prefixed subject and the message preview |
| ContactRoute.ShippedAlwaysSimulates | src/app/api/contact/route.js:13-51 | with FORCE_DEV_MODE as shipped, every complete request is answered 200 with `devMode: true` and the provider is never called |
| ContactRoute.ProviderInvokedIff | src/app/api/contact/route.js:34-99 | the provider is called exactly when the request is complete, the real path is chosen and the SDK loaded |
| ContactRoute.SendEnvelope | src/app/api/contact/route.js:72-76 | the envelope's `to` is EMAIL_RECIPIENT when truthy and EMAIL_FROM otherwise, `from` is EMAIL_FROM, `replyTo` is the submitter's email, and the subject is "Portfolio Contact: " followed by the submitted subject |
| ContactRoute.DeliveredResponse | src/app/api/contact/route.js:98-115 | a delivered email is answered 200 with "Message sent successfully! You will receive a response soon." and no `devMode` |
| ContactRoute.RejectedResponse | src/app/api/contact/route.js:103-129 | a rejected send is answered 500 with "Failed to send email: " followed by the provider's message, or "Unknown error" when it has none; the provider's text ends the body verbatim |
| ContactRoute.ModuleUnavailableResponse | src/app/api/contact/route.js:55-58 | a failed SDK import is answered 500 with "Failed to send email: Email module not available" and nothing is sent |
| ContactRoute.KeyCheckUnreachable | src/app/api/contact/route.js:60-62 | whenever the real path is chosen, the missing-key error cannot be thrown |
| ContactRoute.UnparsableResponse | src/app/api/contact/route.js:124-130 | a body that cannot be read is answered 500 with the parser's message, or the fallback text when it has none, and nothing is dispatched |
| ContactRoute.SuccessIff | src/app/api/contact/route.js:34-115 | status is 200 exactly for a complete request that is either simulated or delivered |
| ContactForm.HandleChange | src/components/sections/Contact.jsx:31-37 | the named input takes the new value; the other three inputs and the three flags are unchanged |
| ContactForm.BeginSubmit | src/components/sections/Contact.jsx:39-42 | the pending flag is set and the error line cleared; form and confirmation flag are unchanged |
| ContactForm.Complete | src/components/sections/Contact.jsx:53-97 | every reply clears the pending flag; a 2xx JSON reply shows the confirmation over a blank form and keeps the error line; any other reply keeps the form and the confirmation flag and sets a non-empty error: the non-JSON error (even for a 2xx status), the parse error, the body's message or "Something went wrong", or the network error's message or "Failed to send message" |
| ContactForm.SendAnother | src/components/sections/Contact.jsx:219-220 | the confirmation is hidden and nothing else changes |
| ContactForm.ScreensExclusive | src/components/sections/Contact.jsx:205-302 | the form and the confirmation are never usable together, and a submit is never possible while a reply is awaited |
| ContactForm.Step | src/components/sections/Contact.jsx:205-302 | an event takes effect exactly when the UI enables it (`Enabled`: typing and submitting only while the form is on screen, submitting only while nothing is pending, "Send Another Message" only on the confirmation, a reply only while pending); a reply always clears the pending flag; a submit sets it, clears the error and keeps the form; typing sets the named input; "Send Another Message" hides the confirmation and keeps the form |
| ContactForm.RunPreservesInv | src/components/sections/Contact.jsx:39-98 | along any run of enabled events, a pending request keeps a clear error line and no confirmation, and the confirmation only shows over a blank form with no error and nothing pending |
| ContactForm.StepPreservesInv | src/components/sections/Contact.jsx:205-302 | each enabled event (typing, submitting, a reply, "Send Another Message") preserves that invariant |
| ContactForm.ReachableInv | src/components/sections/Contact.jsx:10-19 | every state reachable from the initial one satisfies the invariant |
| ContactForm.SuccessLeavesNoError | src/components/sections/Contact.jsx:41-78 | in a reachable pending state, a successful reply leads to a blank form, the confirmation, no error and nothing pending |
| ContactForm.SendAnotherRestoresInitial | src/components/sections/Contact.jsx:219-220 | in a reachable state showing the confirmation, "Send Another Message" returns exactly to the initial state |
| ContactForm.ReplyReenablesSubmit | src/components/sections/Contact.jsx:95-97 | every reply ends the pending state, and the submit button is enabled afterwards exactly when the reply was not a success |
| Pipeline.FilledIffPresent | src/app/api/contact/route.js:18-20 | the endpoint finds the serialized form complete exactly when all four inputs are non-empty |
| Pipeline.ShippedFilledFormConfirms | src/components/sections/Contact.jsx:45-78 | with FORCE_DEV_MODE as shipped, submitting a filled form always ends on the confirmation with a blank form and no error |
| Pipeline.EmptyFieldShowsRequired | src/components/sections/Contact.jsx:68-89 | a form with an empty input that reaches the endpoint stays as it is, off the confirmation, showing "All fields are required" |
| Pipeline.ProviderErrorShownToUser | src/app/api/contact/route.js:117-128 | on the real path a rejected send shows "Failed to send email: " followed by the provider's own text on the form |
| Pipeline.AdaScenario | src/app/api/contact/route.js:48-51 | Ada's message with FORCE_DEV_MODE on is answered 200 with the acknowledgement and `devMode: true`, and the form moves to the confirmation |
| Projects.ByCategory | src/components/sections/Projects.jsx:57 | every result has the chosen category, every matching project is kept, and nothing outside the list appears |
| Projects.ByCategoryCounts | src/components/sections/Projects.jsx:57 | each project occurs in the result as often as in the list when its category matches, and not at all otherwise |
| Projects.FilteredProjects | src/components/sections/Projects.jsx:55-57 | "All" shows the list unchanged; any other filter shows the category filter of the list |
| Projects.ByCategoryIsSubsequence | src/components/sections/Projects.jsx:57 | the filtered list is an order-preserving subsequence of the project list |
| Projects.FilteredIsSubsequence | src/components/sections/Projects.jsx:55-57 | the shown list, for any filter including "All", is an order-preserving subsequence of the project list |
| Projects.ByCategoryIdempotent | src/components/sections/Projects.jsx:57 | filtering a filtered list by the same category changes nothing |
| Projects.FilteredIdempotent | src/components/sections/Projects.jsx:55-57 | applying the shown-list computation twice with the same filter changes nothing |
| Projects.HandleFilterChange | src/components/sections/Projects.jsx:146-147 | the clicked tab becomes the active filter; FilterChangeShows says which cards are shown afterwards |
| Projects.InitialViewShowsAll | src/components/sections/Projects.jsx:51-56 | the initial tab is "All", one of the declared tabs, and it shows every declared project in declared order |
| Projects.FilterChangeShows | src/components/sections/Projects.jsx:146-147 | clicking a tab makes it the active filter, after which a project is shown exactly when it is declared and either the tab is "All" or its category equals the tab |
| Projects.DeclaredFilterResults | src/components/sections/Projects.jsx:16-57 | with the declared projects, "All" shows all three, "Web App" the first two, "UI/UX" the third, and "Backend" none |
| Projects.EveryProjectHasATab | src/components/sections/Projects.jsx:16-53 | every declared project's category is one of the tabs other than "All" |
| Sitemap.BaseUrl | src/app/api/sitemap/route.js:5 | the base URL is SITE_URL when truthy and "https://ebongng.site" otherwise |
| Sitemap.Entries | src/app/api/sitemap/route.js:18-23 | one entry per page, in order; each location is the base URL followed by the path; every change frequency is "weekly"; the priority is 1.0 exactly for the empty path and 0.7 otherwise |
| Sitemap.Get | src/app/api/sitemap/route.js:3-23 | one entry per static page, each located at the base URL followed by its path; the first is at SITE_URL when truthy and "https://ebongng.site" otherwise; SingleHomepage shows exactly one entry has priority 1.0 |
| Sitemap.LocRecoversPath | src/app/api/sitemap/route.js:19 | each entry's location starts with the base URL and the rest of it is the page's path |
| Sitemap.TopPriorityCount | src/app/api/sitemap/route.js:22 | the number of priority-1.0 entries equals the number of empty paths in the page list |
| Sitemap.SingleHomepage | src/app/api/sitemap/route.js:8-23 | the served sitemap has six entries, exactly one with priority 1.0, and that one is the homepage at the base URL |

## Left out

- The email provider's SDK, its lazy import and `setApiKey` are not modelled. The provider is the parameter `ProviderOutcome`.
- The 800 ms delay on the simulated path, all `console` output other than the would-be envelope, `fetch` itself, toast notifications and the confetti hook are side effects without logical content.
- The "Contact form submission received" log at route.js line 27 is not modelled. Its preview is the same `Preview` as the simulated path's.
- The text and HTML bodies of the email are not modelled as strings. `Envelope` keeps the four values they interpolate. The templates do no escaping, and the model claims none.
- `ContactRoute.Fields` holds optional strings only. A field that is a JSON number, boolean or object is not modelled. Such a message would make `substring` throw, and the request would get a 500.
- `RequestBody.Unparsable` stands for every throw before validation: invalid JSON and a body of `null`. The text of the parser's error is a parameter.
- `Pipeline.ToRequest` takes `JSON.stringify` followed by `request.json()` to return the same four strings.
- Message lengths count Dafny characters. JavaScript counts UTF-16 code units. The two agree for text in the Basic Multilingual Plane.
- The browser's native constraint validation is not modelled. The inputs are `required` and the email input is `type="email"`. `ContactForm.Enabled` allows a submit with empty inputs; the endpoint's check then applies.
- A second submit while a request is pending is not modelled. The disabled button blocks it, and the model follows the UI in this.
- The project filter's GSAP animations, and every animation, canvas, tilt, sparkle, navbar and static-markup component, are presentation only.
- Each project's `icon` element is presentation only.
- Sitemap `lastmod` timestamps depend on the clock and are not modelled.
- `getServerSideSitemap`'s XML rendering is library code and is not modelled.
- `next-sitemap.config.js` is declarative library configuration and is not part of this model.
- Non-idempotence of sending is not stated as a property. Apart from the SDK import it caches (route.js lines 4-10), the handler keeps no state between requests, so two identical calls on the real path are two independent provider calls.
- `ContactRoute.Handle` takes the provider outcome afresh for each request. The code caches the SDK import in a module-level promise, and a failed import stays cached as `null`, so after one `ModuleUnavailable` every later request on the real path of that server instance is `ModuleUnavailable` too. The model allows `ModuleUnavailable` on one call and `Delivered` on the next, which the code cannot do; the caching across requests is not modelled.
