/**
 * The private-sell intake page: a seller's answers (contact details, the
 * property's address and lake, timeline, price expectation, privacy level,
 * notes and the hidden honeypot), the required-field check, the multi-line
 * message built from the answers, and `onSubmit`, which runs the same gates
 * as the private-match page, posts the payload and records the outcome.
 */
module PrivateSell {
  import opened Wrappers
  import opened Json
  import Text
  import LeadRoute
  import opened Intake

  /** The form's state. `website` is the honeypot field, hidden from
      visitors. */
  datatype Form = Form(
    name: string, email: string, phone: string,
    propertyAddress: string, lakeArea: string, timeline: string,
    priceExpectation: string, privacyLevel: string, notes: string, website: string)

  const EmptyForm := Form("", "", "", "", "", "", "", "", "", "")

  /** `canSubmit`: the eight required answers are non-empty. */
  predicate CanSubmit(f: Form)
    ensures CanSubmit(f) <==> "" !in [f.name, f.email, f.phone, f.propertyAddress, f.lakeArea,
                                      f.timeline, f.priceExpectation, f.privacyLevel]
  {
    && f.name != "" && f.email != "" && f.phone != ""
    && f.propertyAddress != "" && f.lakeArea != ""
    && f.timeline != "" && f.priceExpectation != "" && f.privacyLevel != ""
  }

  /** The notes and the honeypot play no part in `canSubmit`. */
  lemma CanSubmitIgnoresOptional(f: Form, notes: string, website: string)
    ensures CanSubmit(f) == CanSubmit(f.(notes := notes, website := website))
    ensures CanSubmit(f) <==> CanSubmit(f.(notes := "", website := ""))
  {
  }

  // ---------------------------------------------------------------------
  // The message and the payload
  // ---------------------------------------------------------------------

  /** The first line of the message. */
  const Header := "PRIVATE SELL REQUEST"

  /** The multi-line `message`. */
  function Message(f: Form): string
  {
    Header + "\n\n"
    + "Property: " + f.propertyAddress + "\n"
    + "Lake/Area: " + f.lakeArea + "\n"
    + "Timeline: " + f.timeline + "\n"
    + "Price Expectation: " + f.priceExpectation + "\n"
    + "Privacy Level: " + f.privacyLevel + "\n\n"
    + "Notes:" + "\n" + OrDash(f.notes)
  }

  /** The answers that go on one line of the message hold no line break. */
  predicate SingleLineAnswers(f: Form)
  {
    && '\n' !in f.propertyAddress && '\n' !in f.lakeArea && '\n' !in f.timeline
    && '\n' !in f.priceExpectation && '\n' !in f.privacyLevel
  }

  /** The message's lines: the header, a blank line, one line per answer,
      a blank line, "Notes:" and then the notes (or the dash). */
  lemma MessageLines(f: Form)
    requires SingleLineAnswers(f)
    ensures Text.Lines(Message(f)) ==
      [Header, "",
       "Property: " + f.propertyAddress,
       "Lake/Area: " + f.lakeArea,
       "Timeline: " + f.timeline,
       "Price Expectation: " + f.priceExpectation,
       "Privacy Level: " + f.privacyLevel,
       "", "Notes:"] + Text.Lines(OrDash(f.notes))
  {
    LayoutLines(Header, "Property: ", f.propertyAddress, "Lake/Area: ", f.lakeArea, "Timeline: ", f.timeline,
                "Price Expectation: ", f.priceExpectation, "Privacy Level: ", f.privacyLevel,
                "Notes:", OrDash(f.notes));
  }

  /** The layout of the message, for any header, labels and answers that
      hold no line break. */
  lemma LayoutLines(h: string, k1: string, v1: string, k2: string, v2: string, k3: string, v3: string,
                    k4: string, v4: string, k5: string, v5: string, n: string, notes: string)
    requires '\n' !in h && '\n' !in n
    requires '\n' !in k1 && '\n' !in k2 && '\n' !in k3 && '\n' !in k4 && '\n' !in k5
    requires '\n' !in v1 && '\n' !in v2 && '\n' !in v3 && '\n' !in v4 && '\n' !in v5
    ensures Text.Lines(h + "\n\n" + k1 + v1 + "\n" + k2 + v2 + "\n" + k3 + v3 + "\n" + k4 + v4 + "\n"
                       + k5 + v5 + "\n\n" + n + "\n" + notes)
      == [h, "", k1 + v1, k2 + v2, k3 + v3, k4 + v4, k5 + v5, "", n] + Text.Lines(notes)
  {
    var l1 := h + "\n\n" + k1 + v1;
    var l2 := l1 + "\n" + k2 + v2;
    var l3 := l2 + "\n" + k3 + v3;
    var l4 := l3 + "\n" + k4 + v4;
    var l5 := l4 + "\n" + k5 + v5;
    var l6 := l5 + "\n\n" + n;
    Text.OneLine(h);
    Text.AppendBlankField(h, k1, v1);
    Text.AppendField(l1, k2, v2);
    Text.AppendField(l2, k3, v3);
    Text.AppendField(l3, k4, v4);
    Text.AppendField(l4, k5, v5);
    Text.AppendBlankLine(l5, n);
    Text.LinesConcat(l6, notes);
  }

  /** The message loses no answer: two forms with single-line answers give
      the same message only if they agree on property, lake, timeline,
      price expectation, privacy level and notes (an empty note reads as
      the dash). */
  lemma MessageDeterminesAnswers(f: Form, g: Form)
    requires SingleLineAnswers(f) && SingleLineAnswers(g)
    requires Message(f) == Message(g)
    ensures f.propertyAddress == g.propertyAddress && f.lakeArea == g.lakeArea && f.timeline == g.timeline
    ensures f.priceExpectation == g.priceExpectation && f.privacyLevel == g.privacyLevel
    ensures OrDash(f.notes) == OrDash(g.notes)
  {
    MessageLines(f);
    MessageLines(g);
    var lf := Text.Lines(Message(f));
    assert lf[2] == "Property: " + f.propertyAddress == "Property: " + g.propertyAddress;
    assert f.propertyAddress == lf[2][|"Property: "|..] == g.propertyAddress;
    assert lf[3] == "Lake/Area: " + f.lakeArea == "Lake/Area: " + g.lakeArea;
    assert f.lakeArea == lf[3][|"Lake/Area: "|..] == g.lakeArea;
    assert lf[4] == "Timeline: " + f.timeline == "Timeline: " + g.timeline;
    assert f.timeline == lf[4][|"Timeline: "|..] == g.timeline;
    assert lf[5] == "Price Expectation: " + f.priceExpectation == "Price Expectation: " + g.priceExpectation;
    assert f.priceExpectation == lf[5][|"Price Expectation: "|..] == g.priceExpectation;
    assert lf[6] == "Privacy Level: " + f.privacyLevel == "Privacy Level: " + g.privacyLevel;
    assert f.privacyLevel == lf[6][|"Privacy Level: "|..] == g.privacyLevel;
    var head := Header + "\n\n"
      + "Property: " + f.propertyAddress + "\n"
      + "Lake/Area: " + f.lakeArea + "\n"
      + "Timeline: " + f.timeline + "\n"
      + "Price Expectation: " + f.priceExpectation + "\n"
      + "Privacy Level: " + f.privacyLevel + "\n\n"
      + "Notes:" + "\n";
    assert Message(f) == head + OrDash(f.notes);
    assert Message(g) == head + OrDash(g.notes);
    assert OrDash(f.notes) == Message(f)[|head|..];
  }

  /** The payload posted for the form. */
  function MakePayload(f: Form, href: Option<string>): (p: Payload)
    ensures p.formKind == "private_sell" && p.message == Message(f) && p.source == SourceOf(href)
    ensures p.name == f.name && p.email == f.email && p.phone == f.phone && p.website == f.website
  {
    Payload("private_sell", f.name, f.email, f.phone, Message(f), SourceOf(href), f.website)
  }

  /** A form that passes `canSubmit` is accepted by the lead route, which
      forwards the kind, contact details and message and drops the honeypot
      and the source. */
  lemma SubmittedFormForwarded(f: Form, href: Option<string>, origin: Option<string>,
                               setting: Option<string>, outcome: LeadRoute.UpstreamOutcome)
    requires CanSubmit(f)
    ensures var h := LeadRoute.HandlePost(
        LeadRoute.LeadRequest(LeadRoute.Parsed(PayloadJson(MakePayload(f, href))), origin), setting, outcome);
      && h.call.Some?
      && h.call.value.body == JObject(map[
           "form_kind" := JString("private_sell"),
           "name" := JString(f.name),
           "email" := JString(f.email),
           "phone" := JString(f.phone),
           "message" := JString(Message(f))])
  {
    PayloadThroughRoute(MakePayload(f, href), origin, setting, outcome);
  }

  // ---------------------------------------------------------------------
  // The page
  // ---------------------------------------------------------------------

  /** The text inputs and selects of the form. */
  datatype TextField =
    | Name | Email | Phone | PropertyAddress | LakeArea | Timeline
    | PriceExpectation | PrivacyLevel | Notes | Website

  /** The answer a text input or select shows (its `value`). */
  function Answer(f: Form, field: TextField): string
  {
    match field
    case Name => f.name
    case Email => f.email
    case Phone => f.phone
    case PropertyAddress => f.propertyAddress
    case LakeArea => f.lakeArea
    case Timeline => f.timeline
    case PriceExpectation => f.priceExpectation
    case PrivacyLevel => f.privacyLevel
    case Notes => f.notes
    case Website => f.website
  }

  /** The form with one answer replaced, as each `onChange` does: the input
      then shows the new value and every other input keeps its answer. */
  function WithAnswer(f: Form, field: TextField, value: string): (r: Form)
    ensures Answer(r, field) == value
    ensures forall other | other != field :: Answer(r, other) == Answer(f, other)
  {
    match field
    case Name => f.(name := value)
    case Email => f.(email := value)
    case Phone => f.(phone := value)
    case PropertyAddress => f.(propertyAddress := value)
    case LakeArea => f.(lakeArea := value)
    case Timeline => f.(timeline := value)
    case PriceExpectation => f.(priceExpectation := value)
    case PrivacyLevel => f.(privacyLevel := value)
    case Notes => f.(notes := value)
    case Website => f.(website := value)
  }

  /** The page's state: the form, the three status flags, and the requests
      sent so far. */
  class PrivateSellPage {
    const endpoint: string
    var form: Form
    var submitting: bool
    var error: string
    var success: bool
    var sent: seq<Submission>

    /** Between events nothing is being submitted. */
    ghost predicate Valid()
      reads this
    {
      !submitting
    }

    /** The page as first rendered, with the endpoint read from the
        environment. */
    constructor (setting: Option<string>)
      ensures Valid()
      ensures endpoint == LeadEndpoint(setting)
      ensures form == EmptyForm && error == "" && !success && sent == []
    {
      endpoint := LeadEndpoint(setting);
      form := EmptyForm;
      submitting := false;
      error := "";
      success := false;
      sent := [];
    }

    /** An `onChange` of a text input or select. */
    method SetAnswer(field: TextField, value: string)
      requires Valid()
      modifies this
      ensures Valid()
      ensures form == WithAnswer(old(form), field, value)
      ensures error == old(error) && success == old(success) && sent == old(sent)
    {
      form := WithAnswer(form, field, value);
    }

    /** `onSubmit`: clear the error; stop silently on the honeypot; stop
        with an error when no endpoint is configured or the form is
        incomplete; otherwise post the payload once and record how it ended.
        `href` is the page's location, `outcome` how the post ends. */
    method OnSubmit(href: Option<string>, outcome: FetchOutcome)
      requires Valid()
      modifies this
      ensures Valid() && form == old(form)
      ensures var g := CheckGates(form.website, endpoint, CanSubmit(form));
        && (g != Proceed ==> sent == old(sent) && success == old(success))
        && (g == Honeypot ==> error == "")
        && (g == NotConfigured ==> error == NotConfiguredError)
        && (g == Incomplete ==> error == IncompleteError)
        && (g == Proceed ==>
              && sent == old(sent) + [Submission(endpoint, MakePayload(form, href))]
              && error == Settle(outcome).error
              && success == (old(success) || Settle(outcome).success))
    {
      error := "";
      if Text.Trim(form.website) != "" {
        return;
      }
      if endpoint == "" {
        error := NotConfiguredError;
        return;
      }
      if !CanSubmit(form) {
        error := IncompleteError;
        return;
      }
      submitting := true;
      var payload := MakePayload(form, href);
      sent := sent + [Submission(endpoint, payload)];
      var settled := Settle(outcome);
      if settled.success {
        success := true;
      } else {
        error := settled.error;
      }
      submitting := false;
    }
  }
}
