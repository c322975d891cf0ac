/**
 * What the two structured intake pages (private match, private sell) share:
 * the order of the gates `onSubmit` runs before sending, how the outcome of
 * the send becomes the page's `success` and `error`, and the payload record
 * they post.
 */
module Intake {
  import opened Wrappers
  import opened Json
  import Text
  import Http
  import LeadRoute

  const NotConfiguredError := "Lead endpoint is not configured. Please set NEXT_PUBLIC_LEAD_ENDPOINT in Vercel."
  const IncompleteError := "Please complete the required fields."
  const FallbackError := "Something went wrong. Please try again."
  /** The em dash shown for an unanswered optional question. */
  const Dash := "\U{2014}"

  /** `process.env.NEXT_PUBLIC_LEAD_ENDPOINT || ""`. */
  function LeadEndpoint(setting: Option<string>): (r: string)
    ensures r == "" <==> setting.None? || setting.value == ""
    ensures r != "" ==> setting == Some(r)
  {
    setting.GetOr("")
  }

  /** `answer || "—"`. */
  function OrDash(answer: string): (r: string)
    ensures r != ""
  {
    if answer != "" then answer else Dash
  }

  /** Where `onSubmit` stops: the honeypot, the missing endpoint, the
      incomplete form, or nowhere (the request is sent). */
  datatype Gate = Honeypot | NotConfigured | Incomplete | Proceed

  /** The gates in their order: a honeypot that is non-empty after trimming,
      then an empty endpoint, then a form that fails its required-field
      check. Each gate applies only when the earlier ones did not. */
  function CheckGates(website: string, endpoint: string, complete: bool): (g: Gate)
    ensures g == Honeypot <==> !Text.Blank(website)
    ensures g == NotConfigured <==> Text.Blank(website) && endpoint == ""
    ensures g == Incomplete <==> Text.Blank(website) && endpoint != "" && !complete
    ensures g == Proceed <==> Text.Blank(website) && endpoint != "" && complete
  {
    Text.TrimEmptyIffBlank(website);
    if Text.Trim(website) != "" then Honeypot
    else if endpoint == "" then NotConfigured
    else if !complete then Incomplete
    else Proceed
  }

  /** How the send ended: the fetch rejected (with the error's message, if
      any), or a response came back with a status and a body text (`None`
      when reading the text failed, which the page reads as ""). */
  datatype FetchOutcome =
    | Rejected(message: Option<string>)
    | Completed(status: nat, text: Option<string>)

  /** The page state a send leaves behind. */
  datatype Settlement = Settlement(success: bool, error: string)

  /** The message thrown for a failed response with an empty body. */
  function RequestFailed(status: nat): (r: string)
    ensures var prefix := "Request failed (";
      && |r| > |prefix| + 1
      && r[..|prefix|] == prefix && r[|r| - 1] == ')'
      && Text.AllDigits(r[|prefix|..|r| - 1])
      && Text.DigitsValue(r[|prefix|..|r| - 1]) == status
  {
    var digits := Text.Decimal(status);
    var r := "Request failed (" + digits + ")";
    assert r[|"Request failed ("|..|r| - 1] == digits;
    Text.DecimalRoundTrip(status);
    r
  }

  /** The try/catch of `onSubmit` after the request is sent: an ok response
      is a success and leaves the error empty; a failed response throws its
      body text, or "Request failed (status)" when that is empty; the catch
      shows the thrown message, or the fallback when it is empty. */
  function Settle(outcome: FetchOutcome): (s: Settlement)
    ensures s.success <==> outcome.Completed? && Http.IsOk(outcome.status)
    ensures s.success <==> s.error == ""
    ensures outcome.Rejected? ==>
      s.error == (if outcome.message.Some? && outcome.message.value != "" then outcome.message.value else FallbackError)
    ensures outcome.Completed? && !Http.IsOk(outcome.status) ==>
      s.error == (if outcome.text.Some? && outcome.text.value != "" then outcome.text.value else RequestFailed(outcome.status))
  {
    match outcome
    case Rejected(message) =>
      var m := message.GetOr("");
      Settlement(false, if m != "" then m else FallbackError)
    case Completed(status, text) =>
      if !Http.IsOk(status) then
        var t := text.GetOr("");
        var thrown := if t != "" then t else RequestFailed(status);
        Settlement(false, if thrown != "" then thrown else FallbackError)
      else
        Settlement(true, "")
  }

  /** A failed response with no body text tells the visitor its status: the
      digits between the parentheses read back as the status. */
  lemma FailedStatusShown(status: nat, text: Option<string>)
    requires !Http.IsOk(status) && (text.None? || text.value == "")
    ensures var e := Settle(Completed(status, text)).error;
      var prefix := "Request failed (";
      && |e| > |prefix| + 1
      && e[..|prefix|] == prefix && e[|e| - 1] == ')'
      && Text.AllDigits(e[|prefix|..|e| - 1])
      && Text.DigitsValue(e[|prefix|..|e| - 1]) == status
  {
  }

  /** The body the pages post (`JSON.stringify(payload)`). */
  datatype Payload = Payload(formKind: string, name: string, email: string, phone: string,
                             message: string, source: string, website: string)

  /** `typeof window !== "undefined" ? window.location.href : ""`. */
  function SourceOf(href: Option<string>): (r: string)
    ensures href.Some? ==> r == href.value
    ensures href.None? ==> r == ""
  {
    href.GetOr("")
  }

  /** The payload as the JSON object that is sent. */
  function PayloadJson(p: Payload): (v: Json)
    ensures v.JObject? && v.fields.Keys == {"form_kind", "name", "email", "phone", "message", "source", "website"}
  {
    JObject(map[
      "form_kind" := JString(p.formKind),
      "name" := JString(p.name),
      "email" := JString(p.email),
      "phone" := JString(p.phone),
      "message" := JString(p.message),
      "source" := JString(p.source),
      "website" := JString(p.website)])
  }

  /** A request the page sent: a JSON POST of the payload to the endpoint. */
  datatype Submission = Submission(url: string, payload: Payload)

  /** When a page's payload reaches the lead route, the route accepts it
      exactly when kind, name and email are non-empty, and then forwards
      only the five canonical fields: the honeypot `website` and the `source`
      URL never reach the worker. */
  lemma PayloadThroughRoute(p: Payload, origin: Option<string>, setting: Option<string>, outcome: LeadRoute.UpstreamOutcome)
    ensures var h := LeadRoute.HandlePost(LeadRoute.LeadRequest(LeadRoute.Parsed(PayloadJson(p)), origin), setting, outcome);
      && (h.call.Some? <==> p.formKind != "" && p.name != "" && p.email != "")
      && (h.call.Some? ==> h.call.value.body == JObject(map[
            "form_kind" := JString(p.formKind),
            "name" := JString(p.name),
            "email" := JString(p.email),
            "phone" := JString(p.phone),
            "message" := JString(p.message)]))
  {
    var body := PayloadJson(p);
    assert Property(body, "form_kind") == Some(JString(p.formKind));
    assert Property(body, "name") == Some(JString(p.name));
    assert Property(body, "email") == Some(JString(p.email));
  }
}
