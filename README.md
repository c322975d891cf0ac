# Lead intake of the Lake Legacy Estates site, in Dafny

This project models the two pieces of logic in the site that handle leads.

- **The lead route** `/api/lead` (`app/api/lead/route.ts`):
  - `GET` answers a readiness constant.
  - `OPTIONS` answers the CORS preflight constant.
  - `POST` checks that `form_kind`, `name` and `email` are truthy. It forwards a five-field projection of the body to the notification worker in exactly one upstream call, then maps the worker's answer, or any thrown error, to a JSON reply with status 200, 400, 500 or 502.
- **The two structured intake pages**, private match and private sell (`app/private-match/page.tsx`, `app/private-sell/page.tsx`):
  - the required-field check `canSubmit`;
  - the priority toggle (private match only);
  - the multi-line `message` and the payload built from the answers;
  - `onSubmit`, which runs its gates in order (honeypot, endpoint configured, required fields), posts once, and records the outcome in `error` and `success`.

## Layout

- `wrappers.dfy`, module `Wrappers`: `Option`, standing for JavaScript's `undefined` versus a present value.
- `json.dfy`, module `Json`:
  - parsed JSON values, with objects as maps;
  - JavaScript truthiness (`null`, `false`, `0` and `""` are falsy);
  - property reads.
- `text.dfy`, module `Text`:
  - `String.prototype.trim` with the ECMAScript white-space set;
  - `join`;
  - `split` at a separator, and its lines;
  - the decimal rendering of a number in a template literal.
- `http.dfy`, module `Http`:
  - the "ok status" range (`response.ok`);
  - the browser's CORS-preflight check from the WHATWG Fetch Standard (section 3.2, "CORS protocol", and section 4.8, "CORS-preflight fetch").
- `lead_route.dfy`, module `LeadRoute`: the route, as pure functions, and its properties. The runtime is abstracted into inputs:
  - the parsed request body, or the error `req.json()` threw;
  - the `Origin` header;
  - the `WORKER_LEAD_URL` setting;
  - the upstream outcome.

  The handler returns the reply and the upstream call it makes, if any.
- `intake.dfy`, module `Intake`, shared by both pages:
  - the order of the gates;
  - how the send's outcome becomes `success` and `error`;
  - the posted payload;
  - what the route makes of that payload.
- `private_match.dfy` and `private_sell.dfy`: the pages. In each, the pure helpers are functions. The page state (`form`, `submitting`, `error`, `success`, and the requests sent) is a class whose `OnSubmit` method follows the source step by step.

## Model

| member | source | states |
|---|---|---|
| LeadRoute.HandleGet | app/api/lead/route.ts:8-10 | `GET` answers 200 with `ok: true` and the message "Lead API ready (Phase 2)" |
| LeadRoute.HandleOptions | app/api/lead/route.ts:13-22 | `OPTIONS` answers 204 with a null body and exactly the three headers Allow-Origin, Allow-Methods and Allow-Headers |
| LeadRoute.HasRequired | app/api/lead/route.ts:35-38 | validation passes only for an object body with the keys form_kind, name and email (whose values must also be truthy) |
| LeadRoute.ForwardedBody | app/api/lead/route.ts:58 | the forwarded body is an object with exactly the keys form_kind, name, email, phone and message |
| LeadRoute.WorkerUrl | app/api/lead/route.ts:46-48 | the worker URL is the setting when that is non-empty, otherwise the hard-coded default; it is never empty |
| LeadRoute.ForwardedOrigin | app/api/lead/route.ts:55-56 | the request's `Origin` header is passed through whenever it is present, even when it is empty; the default origin is used exactly when the header is absent or is that origin itself |
| LeadRoute.UpstreamData | app/api/lead/route.ts:62-64 | the worker's data is its parsed body when the text is JSON; otherwise it is an object whose only key `raw` holds the text |
| LeadRoute.CaughtReply | app/api/lead/route.ts:74-79 | the catch-all answers 500 and never `ok: true` |
| LeadRoute.UpstreamReply | app/api/lead/route.ts:62-73 | once the worker is called, the status is 200, 500 or 502, and `ok: true` appears exactly when it is 200 |
| LeadRoute.HandlePost | app/api/lead/route.ts:32-80 | status is 200, 400, 500 or 502; an upstream call is made exactly when the body parsed and has truthy form_kind, name and email; `ok: true` exactly on 200; every reply has a JSON body and no CORS header |
| LeadRoute.MissingFieldRejected | app/api/lead/route.ts:38-43 | a parsed body with a falsy or absent form_kind, name or email gets 400 with the fixed error and no upstream call, whatever the setting and the worker |
| LeadRoute.ReferralShapeRejected | app/api/lead/route.ts:35-43 | a body that spells the kind `formKind` (as the referral form sends it) and has no `form_kind` is always rejected with 400 and never forwarded |
| LeadRoute.ForwardedProjection | app/api/lead/route.ts:50-59 | a valid body is forwarded once, to the worker URL, with the request's origin or the default. The body has exactly the five keys: the required values are unchanged; phone and message are unchanged, or "" when absent; every other key is dropped |
| LeadRoute.NoTrimming | app/api/lead/route.ts:35-58 | any non-empty strings pass validation, white space included, and are forwarded exactly as received |
| LeadRoute.UpstreamAnswerMapping | app/api/lead/route.ts:62-73 | a non-ok worker status gives 502 with `ok: false`, the worker's status and data; an ok status gives 200 with `ok: true` and the data. The data is the parsed body text, or `{raw: text}` when the text is not JSON |
| LeadRoute.ThrownGives500 | app/api/lead/route.ts:74-79 | an unparsable request body or a failed upstream call gives 500 with `ok: false` and the thrown message (kept even when empty) or "Unknown error"; the unparsable body makes no upstream call |
| LeadRoute.AlwaysConfigured | app/api/lead/route.ts:46-48 | a 500 comes only from a thrown error, never from missing configuration, and every upstream call has a non-empty URL |
| LeadRoute.OptionsMethods | app/api/lead/route.ts:18 | the browser reads the allowed methods as POST and OPTIONS |
| LeadRoute.OptionsHeaders | app/api/lead/route.ts:19 | the browser reads the allowed request headers as Content-Type |
| LeadRoute.PassesGiven | app/api/lead/route.ts:13-22 | for any 204 reply with origin `*`, no credentials header and those lists, the Fetch preflight check passes exactly for credential-less requests using POST, OPTIONS or a safelisted method whose unsafe headers are all Content-Type, ignoring case |
| LeadRoute.PreflightAdmits | app/api/lead/route.ts:13-22 | the route's own preflight reply admits exactly those requests, from any origin |
| LeadRoute.FormPostPassesPreflight | app/private-match/page.tsx:109-113 | the pages' JSON POST with a Content-Type header passes the preflight from any origin |
| Text.TrimEmptyIffBlank | app/private-match/page.tsx:77 | `s.trim()` is empty exactly when every character of `s` is ECMAScript white space or a line terminator |
| Text.DecimalRoundTrip | app/private-match/page.tsx:117 | the digits of `${status}` read back as the status |
| Text.JoinInjective | app/private-match/page.tsx:96 | with a non-empty separator, two non-empty lists whose elements are pairwise either equal or not prefixes of one another join to the same text only if they are the same list |
| Intake.LeadEndpoint | app/private-match/page.tsx:41 | the endpoint is empty exactly when the setting is absent or empty; otherwise it is the setting |
| Intake.OrDash | app/private-match/page.tsx:97 | `answer \|\| "—"` is never empty |
| Intake.CheckGates | app/private-match/page.tsx:74-87 | the gates in order. Honeypot exactly when the honeypot is not all white space. Not configured exactly when it is blank and the endpoint is empty. Incomplete exactly when both earlier gates pass and the form fails `canSubmit`. The request proceeds otherwise |
| Intake.Settle | app/private-match/page.tsx:115-125 | success exactly when a response came back with an ok status, and exactly when the error is empty. A rejected fetch shows its message, or the fallback when that is empty. A failed response shows its body text, or "Request failed (status)" when that is empty |
| Intake.FailedStatusShown | app/private-match/page.tsx:115-117 | a failed response with no body text produces "Request failed (" + digits + ")", and the digits read back as the status |
| Intake.RequestFailed | app/private-match/page.tsx:117 | the message for a failed empty response is "Request failed (" + digits + ")", and the digits read back as the status |
| Intake.SourceOf | app/private-match/page.tsx:105 | the source is the page location when there is a window, and "" otherwise |
| Intake.PayloadJson | app/private-match/page.tsx:99-107 | the posted object has exactly the keys form_kind, name, email, phone, message, source and website |
| Intake.PayloadThroughRoute | app/api/lead/route.ts:35-59 | the route accepts a page's payload exactly when kind, name and email are non-empty, and then forwards only the five canonical fields: source and the honeypot never reach the worker |
| PrivateMatch.CanSubmit | app/private-match/page.tsx:59-63 | the form can be submitted exactly when none of name, email, phone, situation, timeline and budget is empty |
| PrivateMatch.CanSubmitIgnoresOptional | app/private-match/page.tsx:59-63 | `canSubmit` does not depend on the notes, the priorities or the honeypot |
| PrivateMatch.Without | app/private-match/page.tsx:68 | filtering removes every `p` and keeps every other element, and the result is never longer |
| PrivateMatch.Toggle | app/private-match/page.tsx:65-70 | the toggle flips the membership of `p`, keeps the membership of every other value, and changes nothing besides `p` (both lists agree once `p` is filtered out) |
| PrivateMatch.WithoutKeepsDistinct | app/private-match/page.tsx:68 | filtering keeps a list free of duplicates |
| PrivateMatch.ToggleKeepsDistinct | app/private-match/page.tsx:65-70 | the toggle keeps the priorities free of duplicates |
| PrivateMatch.ToggleKeepsOffered | app/private-match/page.tsx:65-70 | toggling an offered check box keeps every selected priority one of the offered options (lines 29-38) |
| PrivateMatch.ToggleAbsentTwice | app/private-match/page.tsx:65-70 | toggling an absent priority twice gives the list back |
| PrivateMatch.TogglePresentTwice | app/private-match/page.tsx:65-70 | toggling a present priority twice moves it to the end |
| PrivateMatch.MoveToEnd | app/private-match/page.tsx:68 | in a duplicate-free list, moving `p` to the end changes the list exactly when `p` is not last |
| PrivateMatch.ToggleTwice | app/private-match/page.tsx:65-70 | toggling twice keeps the same elements. It restores the list exactly when `p` was absent or last, and otherwise moves `p` to the end |
| PrivateMatch.ToggleTwiceReorders | app/private-match/page.tsx:65-70 | a concrete case: toggling "a" twice in ["a", "b"] gives ["b", "a"] |
| PrivateMatch.PrioritiesText | app/private-match/page.tsx:96 | no priorities read as the dash; a single priority reads as itself; otherwise the text starts with the first priority |
| PrivateMatch.OptionKey | app/private-match/page.tsx:29-38 | every offered priority has at least three characters and no line break, and its first and third characters tell which option it is |
| PrivateMatch.OptionsPrefixFree | app/private-match/page.tsx:29-38 | no offered priority is a prefix of another one, or of the dash |
| PrivateMatch.PrioritiesTextInjective | app/private-match/page.tsx:96 | two lists of offered priorities, either possibly empty, with the same priorities text are the same list in the same order |
| PrivateMatch.OfferedSingleLine | app/private-match/page.tsx:29-38 | a list of offered priorities has no line break in any element |
| PrivateMatch.Message | app/private-match/page.tsx:91-97 | the message template: the header, then Situation, Timeline, Budget and Lake Priorities (joined with ", ", or the dash), then the notes or the dash. Its line structure is stated by `PrivateMatch.MessageLines` |
| PrivateMatch.MessageLines | app/private-match/page.tsx:91-97 | the message's lines: the header, a blank line, the Situation, Timeline, Budget and Lake Priorities lines in order, a blank line, "Notes:", then the notes or the dash |
| PrivateMatch.LayoutLines | app/private-match/page.tsx:91-97 | the line structure of the message's layout for any single-line header, labels and answers |
| PrivateMatch.MessageDeterminesAnswers | app/private-match/page.tsx:91-97 | the message loses no answer. For forms whose priorities are offered options (none included) and whose situation, timeline and budget hold no line break, equal messages imply equal situation, timeline, budget, priorities (in order) and notes (up to the dash) |
| PrivateMatch.MakePayload | app/private-match/page.tsx:99-107 | `form_kind` is "private_match"; `message` is the message; name, email, phone and website are copied verbatim; source is the page location or "" |
| PrivateMatch.SubmittedFormForwarded | app/private-match/page.tsx:99-113 | a form that passes `canSubmit` is accepted by the route, which forwards kind, name, email, phone and message |
| PrivateMatch.WithAnswer | app/private-match/page.tsx:165-283 | after an `onChange` the input shows the new value; every other input keeps its answer and the priorities are untouched |
| PrivateMatch.PrivateMatchPage.constructor | app/private-match/page.tsx:41-57 | the first render: empty form, no error, no success, the endpoint from the setting or "" |
| PrivateMatch.PrivateMatchPage.SetAnswer | app/private-match/page.tsx:165-283 | an input's `onChange` replaces that one answer and changes nothing else |
| PrivateMatch.PrivateMatchPage.TogglePriority | app/private-match/page.tsx:257-268 | an offered option's check box toggles that priority; the list stays duplicate-free and made of offered options; nothing else changes |
| PrivateMatch.PrivateMatchPage.OnSubmit | app/private-match/page.tsx:72-126 | see the note after this table |
| PrivateSell.CanSubmit | app/private-sell/page.tsx:43-48 | the form can be submitted exactly when none of name, email, phone, property address, lake area, timeline, price expectation and privacy level is empty |
| PrivateSell.CanSubmitIgnoresOptional | app/private-sell/page.tsx:43-48 | `canSubmit` does not depend on the notes or the honeypot |
| PrivateSell.Message | app/private-sell/page.tsx:68-75 | the message template: the header, then Property, Lake/Area, Timeline, Price Expectation and Privacy Level, then the notes or the dash. Its line structure is stated by `PrivateSell.MessageLines` |
| PrivateSell.MessageLines | app/private-sell/page.tsx:68-75 | the message's lines: the header, a blank line, the Property, Lake/Area, Timeline, Price Expectation and Privacy Level lines in order, a blank line, "Notes:", then the notes or the dash |
| PrivateSell.LayoutLines | app/private-sell/page.tsx:68-75 | the line structure of the message's layout for any single-line header, labels and answers |
| PrivateSell.MessageDeterminesAnswers | app/private-sell/page.tsx:68-75 | equal messages imply equal property, lake, timeline, price expectation, privacy level and notes (up to the dash) |
| PrivateSell.MakePayload | app/private-sell/page.tsx:77-85 | `form_kind` is "private_sell"; `message` is the message; name, email, phone and website are copied verbatim; source is the page location or "" |
| PrivateSell.SubmittedFormForwarded | app/private-sell/page.tsx:77-91 | a form that passes `canSubmit` is accepted by the route, which forwards kind, name, email, phone and message |
| PrivateSell.WithAnswer | app/private-sell/page.tsx:140-251 | after an `onChange` the input shows the new value and every other input keeps its answer |
| PrivateSell.PrivateSellPage.constructor | app/private-sell/page.tsx:24-41 | the first render: empty form, no error, no success, the endpoint from the setting or "" |
| PrivateSell.PrivateSellPage.SetAnswer | app/private-sell/page.tsx:140-251 | an input's `onChange` replaces that one answer and changes nothing else |
| PrivateSell.PrivateSellPage.OnSubmit | app/private-sell/page.tsx:50-104 | see the note after this table |

What `OnSubmit` guarantees, on both pages:

- The form is unchanged, and `submitting` is false again afterwards.
- At every gate before sending, nothing is sent and `success` is unchanged.
  - Honeypot: the error is empty.
  - Endpoint not configured: the error is the configuration error.
  - Form incomplete: the error is "Please complete the required fields."
- Past the gates, exactly one submission of the page's payload to the endpoint is added. The error and the success are what `Intake.Settle` gives for the outcome.

## Left out

- JSON parsing and serialisation. The request body arrives already parsed, or as the error `req.json()` threw. The worker's body arrives as its text together with what `JSON.parse` made of it, or nothing.
- The order of keys in a JSON object: objects are maps.
- JSON numbers are exact reals. Floating-point rounding is not modelled.
- `fetch`, `NextResponse` and `Response` objects, `process.env`, and `window.location`. Their results are parameters: the upstream outcome, the settings and the page location. The `Content-Type: application/json` header that the route and the pages send, and that `NextResponse.json` sets, is absent from `LeadRoute.UpstreamCall`, `Intake.Submission` and `LeadRoute.Reply`. It appears only as the non-safelisted request header of the pages' post in the preflight check (`Http.PreflightQuery`, `LeadRoute.FormPostPassesPreflight`).
- React semantics:
  - `useState` batching and re-rendering;
  - `useMemo`;
  - `e.preventDefault()`;
  - the asynchronous interleaving of `onSubmit`.

  The model runs `onSubmit` to completion as one step. The intermediate state with `submitting` true is visible only inside the method.
- JSX markup, styling and the option lists of the selects. The priority check boxes are modelled by `PrivateMatch.Priorities`, the only values `TogglePriority` accepts. The selects' options are not modelled: the message lemmas only need their answers to hold no line break.
- `app/api/health/route.ts`, which reads the clock, and the other pages. The buyers, sellers, partners and off-market pages post straight to the worker. The referral page enters only through `LeadRoute.ReferralShapeRejected`.
- PrivateMatch.ToggleTwice: toggling twice restores the original list only when the priority was absent or was the last one; otherwise it moves to the end, so the lemma states that exact condition rather than an unconditional restore.
- What the route does not do:
  - it does not trim;
  - it does not fall back to `kind` or `leadType`;
  - it ignores the honeypot;
  - it never answers 500 for missing configuration;
  - it answers 500, not 400, for an unparsable body;
  - it answers 500, not 502, when the worker cannot be reached;
  - it sets CORS headers only on the preflight reply.
- Text.Split: only the behaviour of `split` for a non-empty separator is modelled, the only kind the code uses.
