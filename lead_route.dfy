/**
 * The lead route (`/api/lead`): `GET` is a readiness constant, `OPTIONS` the
 * CORS preflight constant, and `POST` checks the three required fields,
 * forwards a five-field projection of the body to the notification worker in
 * one upstream call, and maps the worker's answer (or any thrown error) to a
 * JSON reply.
 *
 * The runtime is abstracted: the parsed request body (or the error
 * `req.json()` threw), the request's `Origin` header, the `WORKER_LEAD_URL`
 * setting and the upstream outcome are inputs, and the handler returns the
 * reply together with the upstream call it makes, if any.
 */
module LeadRoute {
  import opened Wrappers
  import opened Json
  import Http
  import Text

  const DefaultWorkerUrl := "https://ai4u-concierge-mail.leehanna8.workers.dev/lead"
  const DefaultOrigin := "https://lakelegacy-estates-new.vercel.app"
  const MissingFieldsError := "Missing required fields (form_kind, name, email)"
  const UnknownError := "Unknown error"
  const ReadyMessage := "Lead API ready (Phase 2)"
  const AllowedMethodsValue := "POST, OPTIONS"
  const AllowedHeadersValue := "Content-Type"

  /** The keys of the body forwarded upstream. */
  const ForwardedKeys: set<string> := {"form_kind", "name", "email", "phone", "message"}

  /** A thrown error, seen through `err?.message`: `None` when the thrown
      value has no message. */
  datatype Thrown = Thrown(message: Option<string>)

  /** What `await req.json()` gives: a parsed value, or the error it threw. */
  datatype RequestBody = Unparsable(err: Thrown) | Parsed(value: Json)

  /** An inbound request: its body and its `Origin` header, if any. */
  datatype LeadRequest = LeadRequest(body: RequestBody, origin: Option<string>)

  /** The upstream call: either it threw (the fetch or reading its body
      failed), or the worker answered with a status and a body text, which
      `JSON.parse` either turns into a value or rejects (`None`). */
  datatype UpstreamOutcome =
    | Failed(err: Thrown)
    | Answered(status: int, text: string, parsed: Option<Json>)

  /** The POST the route sends to the worker (with content type
      `application/json`). */
  datatype UpstreamCall = UpstreamCall(url: string, origin: string, body: Json)

  /** A reply: status, JSON body (`None` for a null body) and the headers the
      route sets itself. */
  datatype Reply = Reply(status: int, body: Option<Json>, headers: map<Http.CorsHeader, string>)

  /** The reply and the upstream call made while producing it. */
  datatype Handled = Handled(reply: Reply, call: Option<UpstreamCall>)

  /** `NextResponse.json(fields, { status })`. */
  function JsonReply(status: int, fields: map<string, Json>): (r: Reply)
    ensures r.status == status && r.body == Some(JObject(fields)) && r.headers == map[]
  {
    Reply(status, Some(JObject(fields)), map[])
  }

  /** Whether the reply's JSON body says `ok: true`. */
  predicate OkFlag(r: Reply)
  {
    r.body.Some? && Property(r.body.value, "ok") == Some(JBool(true))
  }

  /** `GET`: the readiness probe. */
  function HandleGet(): (r: Reply)
    ensures r.status == 200 && OkFlag(r)
    ensures r.body.Some? && Property(r.body.value, "message") == Some(JString(ReadyMessage))
  {
    JsonReply(200, map["ok" := JBool(true), "message" := JString(ReadyMessage)])
  }

  /** `OPTIONS`: the preflight reply, 204 with a null body and three fixed
      CORS headers. */
  function HandleOptions(): (r: Reply)
    ensures r.status == 204 && r.body.None?
    ensures r.headers.Keys == {Http.AllowOrigin, Http.AllowMethods, Http.AllowHeaders}
  {
    Reply(204, None, map[
      Http.AllowOrigin := "*",
      Http.AllowMethods := AllowedMethodsValue,
      Http.AllowHeaders := AllowedHeadersValue])
  }

  /** `!form_kind || !name || !email` is false. */
  predicate HasRequired(body: Json)
    ensures HasRequired(body) ==> body.JObject? && {"form_kind", "name", "email"} <= body.fields.Keys
  {
    Present(Property(body, "form_kind")) && Present(Property(body, "name")) && Present(Property(body, "email"))
  }

  /** `{ form_kind, name, email, phone, message }` read from `body ?? {}`
      (a null body has no keys), with `phone` and `message` defaulting to
      the empty string. A destructuring default replaces `undefined` only,
      so an explicit `null` is kept. */
  function ForwardedBody(body: Json): (fwd: Json)
    requires HasRequired(body)
    ensures fwd.JObject? && fwd.fields.Keys == ForwardedKeys
  {
    JObject(map[
      "form_kind" := Property(body, "form_kind").value,
      "name" := Property(body, "name").value,
      "email" := Property(body, "email").value,
      "phone" := Property(body, "phone").GetOr(JString("")),
      "message" := Property(body, "message").GetOr(JString(""))])
  }

  /** `process.env.WORKER_LEAD_URL || DefaultWorkerUrl`. */
  function WorkerUrl(setting: Option<string>): (url: string)
    ensures url != ""
    ensures setting.Some? && setting.value != "" ==> url == setting.value
    ensures setting.None? || setting.value == "" ==> url == DefaultWorkerUrl
  {
    if setting.Some? && setting.value != "" then setting.value else DefaultWorkerUrl
  }

  /** `req.headers.get("origin") ?? DefaultOrigin`. */
  function ForwardedOrigin(origin: Option<string>): (r: string)
    ensures origin.Some? ==> r == origin.value
    ensures r == DefaultOrigin <==> origin.None? || origin.value == DefaultOrigin
  {
    origin.GetOr(DefaultOrigin)
  }

  /** The `data` of a worker answer: its parsed body, or `{ raw: text }`
      when the text is not JSON. */
  function UpstreamData(text: string, parsed: Option<Json>): (data: Json)
    ensures parsed.Some? ==> data == parsed.value
    ensures parsed.None? ==> data.JObject? && data.fields.Keys == {"raw"} && data.fields["raw"] == JString(text)
  {
    match parsed
    case Some(v) => v
    case None => JObject(map["raw" := JString(text)])
  }

  /** The catch-all: 500 with the error's message, or "Unknown error". */
  function CaughtReply(err: Thrown): (r: Reply)
    ensures r.status == 500 && !OkFlag(r)
  {
    JsonReply(500, map["ok" := JBool(false), "error" := JString(err.message.GetOr(UnknownError))])
  }

  /** The reply once the worker has been called. */
  function UpstreamReply(outcome: UpstreamOutcome): (r: Reply)
    ensures r.status in {200, 500, 502}
    ensures OkFlag(r) <==> r.status == 200
  {
    match outcome
    case Failed(err) => CaughtReply(err)
    case Answered(status, text, parsed) =>
      var data := UpstreamData(text, parsed);
      if !Http.IsOk(status) then
        JsonReply(502, map["ok" := JBool(false), "status" := JNumber(status as real), "data" := data])
      else
        JsonReply(200, map["ok" := JBool(true), "data" := data])
  }

  /** `POST`. The upstream outcome is used only when the call is made. */
  function HandlePost(req: LeadRequest, setting: Option<string>, outcome: UpstreamOutcome): (h: Handled)
    ensures h.reply.status in {200, 400, 500, 502}
    ensures h.call.Some? <==> req.body.Parsed? && HasRequired(req.body.value)
    ensures OkFlag(h.reply) <==> h.reply.status == 200
    ensures h.reply.body.Some? && h.reply.headers == map[]
  {
    match req.body
    case Unparsable(err) => Handled(CaughtReply(err), None)
    case Parsed(body) =>
      if !HasRequired(body) then
        Handled(JsonReply(400, map["ok" := JBool(false), "error" := JString(MissingFieldsError)]), None)
      else
        var call := UpstreamCall(WorkerUrl(setting), ForwardedOrigin(req.origin), ForwardedBody(body));
        Handled(UpstreamReply(outcome), Some(call))
  }

  // ---------------------------------------------------------------------
  // Properties of POST
  // ---------------------------------------------------------------------

  /** A parsed body that lacks `form_kind`, `name` or `email`, or has one of
      them falsy, is answered 400 with the fixed error, without any upstream
      call, whatever the configuration and the worker would do. */
  lemma MissingFieldRejected(req: LeadRequest, setting: Option<string>, outcome: UpstreamOutcome,
                             setting': Option<string>, outcome': UpstreamOutcome)
    requires req.body.Parsed?
    requires !Present(Property(req.body.value, "form_kind")) || !Present(Property(req.body.value, "name"))
          || !Present(Property(req.body.value, "email"))
    ensures var h := HandlePost(req, setting, outcome);
      && h.call.None?
      && h.reply == JsonReply(400, map["ok" := JBool(false), "error" := JString(MissingFieldsError)])
      && h == HandlePost(req, setting', outcome')
  {
  }

  /** The body the referral form sends spells the kind `formKind`; with no
      `form_kind` key it is always rejected with 400 and never forwarded. */
  lemma ReferralShapeRejected(fields: map<string, Json>, origin: Option<string>,
                              setting: Option<string>, outcome: UpstreamOutcome)
    requires "form_kind" !in fields
    ensures var body := JObject(fields["formKind" := JString("referral")]);
      var h := HandlePost(LeadRequest(Parsed(body), origin), setting, outcome);
      h.reply.status == 400 && h.call.None? && !OkFlag(h.reply)
  {
    var body := JObject(fields["formKind" := JString("referral")]);
    assert Property(body, "form_kind").None?;
  }

  /** A body that passes the check is forwarded once: to the configured (or
      default) worker URL, with the request's origin (or the default one),
      and with exactly the five keys; the three required values are
      forwarded unchanged, `phone` and `message` likewise or "" when absent.
      Any other key (`website`, `kind`, `leadType`, `source`, ...) is
      dropped. */
  lemma ForwardedProjection(body: Json, origin: Option<string>, setting: Option<string>, outcome: UpstreamOutcome)
    requires HasRequired(body)
    ensures var h := HandlePost(LeadRequest(Parsed(body), origin), setting, outcome);
      && h.call.Some?
      && var call := h.call.value;
      && call.url == WorkerUrl(setting)
      && call.origin == (if origin.Some? then origin.value else DefaultOrigin)
      && call.body.JObject? && call.body.fields.Keys == ForwardedKeys
      && (forall k | k in {"form_kind", "name", "email"} :: Some(call.body.fields[k]) == Property(body, k))
      && (forall k | k in {"phone", "message"} ::
            call.body.fields[k] == (if Property(body, k).Some? then Property(body, k).value else JString("")))
      && (forall k | k !in ForwardedKeys :: k !in call.body.fields)
  {
  }

  /** No trimming: any non-empty strings pass, white space included, and
      are forwarded exactly as sent. */
  lemma NoTrimming(kind: string, name: string, email: string, rest: map<string, Json>,
                   origin: Option<string>, setting: Option<string>, outcome: UpstreamOutcome)
    requires kind != "" && name != "" && email != ""
    ensures var body := JObject(rest["form_kind" := JString(kind)]["name" := JString(name)]["email" := JString(email)]);
      var h := HandlePost(LeadRequest(Parsed(body), origin), setting, outcome);
      && h.call.Some?
      && h.call.value.body.fields["form_kind"] == JString(kind)
      && h.call.value.body.fields["name"] == JString(name)
      && h.call.value.body.fields["email"] == JString(email)
  {
    var body := JObject(rest["form_kind" := JString(kind)]["name" := JString(name)]["email" := JString(email)]);
    assert HasRequired(body);
  }

  /** The worker's answer, once called: a non-ok status gives 502 with
      `ok: false`, the worker's status and its data; an ok status gives 200
      with `ok: true` and the same data. The data is the parsed body text, or
      `{ raw: text }` when the text is not JSON. */
  lemma UpstreamAnswerMapping(req: LeadRequest, setting: Option<string>, status: int, text: string, parsed: Option<Json>)
    requires req.body.Parsed? && HasRequired(req.body.value)
    ensures var r := HandlePost(req, setting, Answered(status, text, parsed)).reply;
      var data := if parsed.Some? then parsed.value else JObject(map["raw" := JString(text)]);
      && (!Http.IsOk(status) ==>
            r == JsonReply(502, map["ok" := JBool(false), "status" := JNumber(status as real), "data" := data]))
      && (Http.IsOk(status) ==> r == JsonReply(200, map["ok" := JBool(true), "data" := data]))
  {
  }

  /** Every thrown error ends in 500 with `ok: false`: an unparsable request
      body (before any upstream call) or a failure of the upstream call. The
      error is the thrown message, kept even when empty, or "Unknown error"
      when there is none. */
  lemma ThrownGives500(req: LeadRequest, setting: Option<string>, outcome: UpstreamOutcome)
    requires req.body.Unparsable? || (HasRequired(req.body.value) && outcome.Failed?)
    ensures var h := HandlePost(req, setting, outcome);
      var err := if req.body.Unparsable? then req.body.err else outcome.err;
      && h.reply.status == 500
      && h.reply == JsonReply(500, map["ok" := JBool(false), "error" := JString(
           if err.message.Some? then err.message.value else UnknownError)])
      && (h.call.None? <==> req.body.Unparsable?)
  {
  }

  /** POST never fails for want of configuration: every forwarded call
      has a non-empty URL. */
  lemma AlwaysConfigured(req: LeadRequest, setting: Option<string>, outcome: UpstreamOutcome)
    ensures var h := HandlePost(req, setting, outcome);
      h.reply.status != 500 || outcome.Failed? || req.body.Unparsable?
    ensures var h := HandlePost(req, setting, outcome);
      h.call.Some? ==> h.call.value.url != ""
  {
  }

  // ---------------------------------------------------------------------
  // The preflight against the Fetch Standard's check
  // ---------------------------------------------------------------------

  // The two list-valued headers, parsed one step per lemma: each step is
  // small, while asking for the whole parse at once is not.

  lemma MethodsSplit()
    ensures Text.Split("POST, OPTIONS", ",") == ["POST", " OPTIONS"]
  {
    assert "POST, OPTIONS" == "POST" + "," + " OPTIONS";
    Text.SplitAfter("POST", ",", " OPTIONS");
    Text.SplitWhole(" OPTIONS", ",");
  }

  lemma MethodsStripped()
    ensures Http.Strip("POST") == "POST" && Http.Strip(" OPTIONS") == "OPTIONS"
  {
    assert " OPTIONS"[1..] == "OPTIONS";
  }

  lemma MethodsValues()
    ensures Http.HeaderValues("POST, OPTIONS") == ["POST", "OPTIONS"]
  {
    MethodsSplit();
    MethodsStripped();
  }

  lemma HeadersValues()
    ensures Http.HeaderValues("Content-Type") == ["Content-Type"]
  {
    Text.SplitWhole("Content-Type", ",");
    HeadersStripped();
  }

  lemma HeadersStripped()
    ensures Http.Strip("Content-Type") == "Content-Type"
  {
  }

  /** The methods the preflight reply lists, as the browser reads them. */
  lemma OptionsMethods(r: Reply)
    requires r == HandleOptions()
    ensures Http.AllowedMethods(r.headers) == ["POST", "OPTIONS"]
  {
    MethodsValues();
  }

  /** The header names the preflight reply lists, as the browser reads them. */
  lemma OptionsHeaders(r: Reply)
    requires r == HandleOptions()
    ensures Http.AllowedHeaders(r.headers) == ["Content-Type"]
  {
    HeadersValues();
  }

  /** What the preflight check comes to for any reply that lists what the
      route's preflight reply lists. */
  lemma {:induction false} PassesGiven(status: int, headers: map<Http.CorsHeader, string>, q: Http.PreflightQuery)
    requires status == 204
    requires Http.AllowOrigin in headers && headers[Http.AllowOrigin] == "*"
    requires Http.AllowCredentials !in headers
    requires Http.AllowedMethods(headers) == ["POST", "OPTIONS"]
    requires Http.AllowedHeaders(headers) == ["Content-Type"]
    ensures Http.PreflightPasses(status, headers, q) <==>
        && !q.credentials
        && (q.verb == "POST" || q.verb == "OPTIONS" || Http.IsSafelistedMethod(q.verb))
        && (forall i | 0 <= i < |q.unsafeHeaders| :: Http.SameIgnoringCase(q.unsafeHeaders[i], "Content-Type"))
  {
    var names := ["Content-Type"];
    forall h: string ensures Http.ListedIgnoringCase(h, names) <==> Http.SameIgnoringCase(h, "Content-Type") {
      if Http.SameIgnoringCase(h, "Content-Type") {
        assert Http.SameIgnoringCase(h, names[0]);
      }
    }
    assert "*" !in ["POST", "OPTIONS"];
    assert "*" !in names by { assert "*"[0] != names[0][0]; }
    var ok := forall i | 0 <= i < |q.unsafeHeaders| :: Http.SameIgnoringCase(q.unsafeHeaders[i], "Content-Type");
    assert ok <==> forall i | 0 <= i < |q.unsafeHeaders| :: Http.ListedIgnoringCase(q.unsafeHeaders[i], names);
  }

  /** The preflight reply admits exactly: requests without credentials, from
      any origin, using POST, OPTIONS or a safelisted method, whose unsafe
      headers are all `Content-Type` up to case. */
  lemma PreflightAdmits(r: Reply, q: Http.PreflightQuery)
    requires r == HandleOptions()
    ensures Http.PreflightPasses(r.status, r.headers, q) <==>
        && !q.credentials
        && (q.verb == "POST" || q.verb == "OPTIONS" || Http.IsSafelistedMethod(q.verb))
        && (forall i | 0 <= i < |q.unsafeHeaders| :: Http.SameIgnoringCase(q.unsafeHeaders[i], "Content-Type"))
  {
    OptionsMethods(r);
    OptionsHeaders(r);
    PassesGiven(r.status, r.headers, q);
  }

  /** The forms' cross-origin JSON POST, which carries a `Content-Type:
      application/json` header, passes the preflight from any origin. */
  lemma FormPostPassesPreflight(r: Reply, origin: string)
    requires r == HandleOptions()
    ensures Http.PreflightPasses(r.status, r.headers, Http.PreflightQuery(origin, "POST", ["Content-Type"], false))
  {
    PreflightAdmits(r, Http.PreflightQuery(origin, "POST", ["Content-Type"], false));
  }
}
