/**
 * The private-match intake page: a buyer's answers (contact details,
 * situation, timeline, budget, a set of lake priorities, notes and the
 * hidden honeypot), the required-field check, the priority toggle, the
 * multi-line message built from the answers, and `onSubmit`, which runs the
 * gates, posts the payload and records the outcome in the page's state.
 */
module PrivateMatch {
  import opened Wrappers
  import opened Json
  import Text
  import LeadRoute
  import opened Intake

  /** The form's state. `website` is the honeypot field, hidden from
      visitors. */
  datatype Form = Form(
    name: string, email: string, phone: string,
    situation: string, timeline: string, budget: string,
    priorities: seq<string>, notes: string, website: string)

  const EmptyForm := Form("", "", "", "", "", "", [], "", "")

  /** The priorities offered as check boxes. */
  const Priorities: seq<string> := [
    "Large, recreational lake",
    "Quiet / private water",
    "Privacy / seclusion",
    "Fishing / hunting access",
    "Maximum waterfront footage",
    "Dock / boating infrastructure",
    "Proximity to cities",
    "Year-round accessibility"]

  /** Every priority in the list is one of the offered check boxes, the
      only values `togglePriority` is called with. */
  predicate Offered(priorities: seq<string>)
  {
    forall i | 0 <= i < |priorities| :: priorities[i] in Priorities
  }

  /** `canSubmit`: the six required answers are non-empty. */
  predicate CanSubmit(f: Form)
    ensures CanSubmit(f) <==> "" !in [f.name, f.email, f.phone, f.situation, f.timeline, f.budget]
  {
    f.name != "" && f.email != "" && f.phone != "" && f.situation != "" && f.timeline != "" && f.budget != ""
  }

  /** The notes, the priorities and the honeypot play no part in
      `canSubmit`. */
  lemma CanSubmitIgnoresOptional(f: Form, priorities: seq<string>, notes: string, website: string)
    ensures CanSubmit(f) == CanSubmit(f.(priorities := priorities, notes := notes, website := website))
    ensures CanSubmit(f) <==> CanSubmit(f.(priorities := [], notes := "", website := ""))
  {
  }

  // ---------------------------------------------------------------------
  // The priority toggle
  // ---------------------------------------------------------------------

  /** No element occurs twice. */
  predicate NoDuplicates(s: seq<string>)
  {
    forall i, j | 0 <= i < j < |s| :: s[i] != s[j]
  }

  /** `s.filter((x) => x !== p)`. */
  function Without(s: seq<string>, p: string): (r: seq<string>)
    ensures p !in r
    ensures forall x | x != p :: x in r <==> x in s
    ensures |r| <= |s|
  {
    if s == [] then []
    else if s[0] == p then Without(s[1..], p)
    else [s[0]] + Without(s[1..], p)
  }

  /** `togglePriority(p)`: remove `p` when present, append it when absent. */
  function Toggle(priorities: seq<string>, p: string): (r: seq<string>)
    ensures p in r <==> p !in priorities
    ensures forall x | x != p :: x in r <==> x in priorities
    ensures Without(r, p) == Without(priorities, p)
  {
    if p in priorities then
      WithoutIdempotent(priorities, p);
      Without(priorities, p)
    else
      WithoutAbsent(priorities, p);
      WithoutAppend(priorities, p);
      priorities + [p]
  }

  /** Filtering out a value that is not there changes nothing. */
  lemma {:induction false} WithoutAbsent(s: seq<string>, p: string)
    requires p !in s
    ensures Without(s, p) == s
  {
    if s != [] {
      WithoutAbsent(s[1..], p);
    }
  }

  /** Filtering twice is filtering once. */
  lemma {:induction false} WithoutIdempotent(s: seq<string>, p: string)
    ensures Without(Without(s, p), p) == Without(s, p)
  {
    WithoutAbsent(Without(s, p), p);
  }

  /** An appended `p` is filtered out again. */
  lemma {:induction false} WithoutAppend(s: seq<string>, p: string)
    ensures Without(s + [p], p) == Without(s, p)
  {
    if s == [] {
      assert [] + [p] == [p];
      assert [p][1..] == [];
    } else {
      assert (s + [p])[1..] == s[1..] + [p];
      WithoutAppend(s[1..], p);
    }
  }

  /** Filtering keeps a list free of duplicates. */
  lemma {:induction false} WithoutKeepsDistinct(s: seq<string>, p: string)
    requires NoDuplicates(s)
    ensures NoDuplicates(Without(s, p))
  {
    if s != [] {
      WithoutKeepsDistinct(s[1..], p);
      if s[0] != p {
        assert s[0] !in s[1..];
        assert s[0] !in Without(s[1..], p);
      }
    }
  }

  /** The toggle never creates a duplicate. */
  lemma ToggleKeepsDistinct(priorities: seq<string>, p: string)
    requires NoDuplicates(priorities)
    ensures NoDuplicates(Toggle(priorities, p))
  {
    if p in priorities {
      WithoutKeepsDistinct(priorities, p);
    }
  }

  /** Toggling an offered check box keeps every priority an offered one. */
  lemma ToggleKeepsOffered(priorities: seq<string>, p: string)
    requires Offered(priorities) && p in Priorities
    ensures Offered(Toggle(priorities, p))
  {
    var r := Toggle(priorities, p);
    forall i | 0 <= i < |r| ensures r[i] in Priorities {
      if r[i] != p {
        assert r[i] in priorities;
        var j :| 0 <= j < |priorities| && priorities[j] == r[i];
      }
    }
  }

  /** Toggling an absent `p` twice gives the list back. */
  lemma ToggleAbsentTwice(priorities: seq<string>, p: string)
    requires p !in priorities
    ensures Toggle(Toggle(priorities, p), p) == priorities
  {
    WithoutAbsent(priorities, p);
    WithoutAppend(priorities, p);
  }

  /** Toggling a present `p` twice moves it to the end. */
  lemma TogglePresentTwice(priorities: seq<string>, p: string)
    requires p in priorities
    ensures Toggle(Toggle(priorities, p), p) == Without(priorities, p) + [p]
  {
    assert p !in Without(priorities, p);
  }

  /** In a duplicate-free list ending in `p`, moving `p` to the end changes
      nothing, and in one not ending in `p` it changes the list. */
  lemma MoveToEnd(priorities: seq<string>, p: string)
    requires NoDuplicates(priorities) && p in priorities
    ensures Without(priorities, p) + [p] == priorities <==> priorities[|priorities| - 1] == p
  {
    var n := |priorities|;
    if priorities[n - 1] == p {
      assert p !in priorities[..n - 1];
      WithoutAbsent(priorities[..n - 1], p);
      WithoutAppend(priorities[..n - 1], p);
      assert priorities[..n - 1] + [p] == priorities;
    }
  }

  /** Toggling twice gives back the same elements; it gives back the very
      same list when `p` was absent, or present as the last element, and
      otherwise moves `p` to the end. */
  lemma ToggleTwice(priorities: seq<string>, p: string)
    requires NoDuplicates(priorities)
    ensures var r := Toggle(Toggle(priorities, p), p);
      && (forall x :: x in r <==> x in priorities)
      && (p !in priorities ==> r == priorities)
      && (p in priorities ==> r == Without(priorities, p) + [p])
      && (r == priorities <==> p !in priorities || priorities[|priorities| - 1] == p)
  {
    if p in priorities {
      TogglePresentTwice(priorities, p);
      MoveToEnd(priorities, p);
    } else {
      ToggleAbsentTwice(priorities, p);
    }
  }

  /** Toggling a present priority that is not last reorders the list. */
  lemma ToggleTwiceReorders()
    ensures Toggle(Toggle(["a", "b"], "a"), "a") == ["b", "a"]
  {
    assert "a" in ["a", "b"];
    assert Without(["a", "b"], "a") == ["b"];
  }

  // ---------------------------------------------------------------------
  // The message and the payload
  // ---------------------------------------------------------------------

  /** The priorities joined with ", ", or the dash when there are none. */
  function PrioritiesText(priorities: seq<string>): (r: string)
    ensures priorities == [] ==> r == Dash
    ensures |priorities| == 1 ==> r == priorities[0]
    ensures |priorities| > 0 ==> priorities[0] <= r
  {
    if |priorities| > 0 then
      Text.JoinStart(priorities, ", ");
      Text.Join(priorities, ", ")
    else Dash
  }

  /** Where an offered priority stands in the list, read off its first
      and third characters. */
  function OptionIndex(first: char, third: char): (i: nat)
    ensures i < |Priorities|
  {
    match first
    case 'L' => 0
    case 'Q' => 1
    case 'P' => if third == 'i' then 2 else 6
    case 'F' => 3
    case 'M' => 4
    case 'D' => 5
    case _ => 7
  }

  /** Every offered priority has at least three characters, holds no line
      break, and is found again from its first and third characters. */
  lemma OptionKey(a: string)
    requires a in Priorities
    ensures |a| >= 3 && '\n' !in a
    ensures a == Priorities[OptionIndex(a[0], a[2])]
  {
    var k :| 0 <= k < |Priorities| && Priorities[k] == a;
    OptionSingleLine(k);
    OptionFound(k);
  }

  /** The option at `k` holds no line break (checked four options at a
      time). */
  lemma OptionSingleLine(k: nat)
    requires k < |Priorities|
    ensures '\n' !in Priorities[k]
  {
    if k < 4 {
      FirstOptionsSingleLine(k);
    } else {
      LastOptionsSingleLine(k);
    }
  }

  lemma FirstOptionsSingleLine(k: nat)
    requires k < 4
    ensures '\n' !in Priorities[k]
  {
  }

  lemma LastOptionsSingleLine(k: nat)
    requires 4 <= k < |Priorities|
    ensures '\n' !in Priorities[k]
  {
  }

  /** The option at `k` is found again from its first and third characters. */
  lemma OptionFound(k: nat)
    requires k < |Priorities|
    ensures |Priorities[k]| >= 3
    ensures OptionIndex(Priorities[k][0], Priorities[k][2]) == k
  {
  }

  /** No offered priority is a proper prefix of another, nor of the dash. */
  lemma OptionsPrefixFree(a: string, b: string)
    requires a in Priorities && b in Priorities
    ensures a <= b || b <= a ==> a == b
    ensures !(a <= Dash)
  {
    OptionKey(a);
    OptionKey(b);
    if a <= b || b <= a {
      assert a[0] == b[0] && a[2] == b[2];
    }
  }

  /** The priorities line loses nothing: lists of offered priorities with
      the same text are the same list, in the same order. The empty list
      shows the dash, which no non-empty list shows. */
  lemma PrioritiesTextInjective(xs: seq<string>, ys: seq<string>)
    requires Offered(xs) && Offered(ys)
    requires PrioritiesText(xs) == PrioritiesText(ys)
    ensures xs == ys
  {
    if |xs| > 0 && |ys| > 0 {
      forall i, j | 0 <= i < |xs| && 0 <= j < |ys|
        ensures (xs[i] <= ys[j] || ys[j] <= xs[i]) ==> xs[i] == ys[j]
      {
        OptionsPrefixFree(xs[i], ys[j]);
      }
      Text.JoinInjective(xs, ys, ", ");
    } else if |xs| > 0 {
      Text.JoinStart(xs, ", ");
      OptionsPrefixFree(xs[0], xs[0]);
    } else if |ys| > 0 {
      Text.JoinStart(ys, ", ");
      OptionsPrefixFree(ys[0], ys[0]);
    }
  }

  /** Offered priorities hold no line break. */
  lemma OfferedSingleLine(priorities: seq<string>)
    requires Offered(priorities)
    ensures forall i | 0 <= i < |priorities| :: '\n' !in priorities[i]
  {
    forall i | 0 <= i < |priorities| ensures '\n' !in priorities[i] {
      OptionKey(priorities[i]);
    }
  }

  /** The first line of the message. */
  const Header := "PRIVATE MATCH REQUEST"

  /** The multi-line `message`. */
  function Message(f: Form): string
  {
    Header + "\n\n"
    + "Situation: " + f.situation + "\n"
    + "Timeline: " + f.timeline + "\n"
    + "Budget: " + f.budget + "\n"
    + "Lake Priorities: " + PrioritiesText(f.priorities) + "\n\n"
    + "Notes:" + "\n" + OrDash(f.notes)
  }

  /** The answers that go on one line of the message hold no line break. */
  predicate SingleLineAnswers(f: Form)
  {
    && '\n' !in f.situation && '\n' !in f.timeline && '\n' !in f.budget
    && forall i | 0 <= i < |f.priorities| :: '\n' !in f.priorities[i]
  }

  /** The message's lines: the header, a blank line, one line per answer,
      a blank line, "Notes:" and then the notes (or the dash). */
  lemma MessageLines(f: Form)
    requires SingleLineAnswers(f)
    ensures Text.Lines(Message(f)) ==
      [Header, "",
       "Situation: " + f.situation,
       "Timeline: " + f.timeline,
       "Budget: " + f.budget,
       "Lake Priorities: " + PrioritiesText(f.priorities),
       "", "Notes:"] + Text.Lines(OrDash(f.notes))
  {
    if |f.priorities| > 0 {
      Text.JoinAvoids(f.priorities, ", ", '\n');
    }
    LayoutLines(Header, "Situation: ", f.situation, "Timeline: ", f.timeline, "Budget: ", f.budget,
                "Lake Priorities: ", PrioritiesText(f.priorities), "Notes:", OrDash(f.notes));
  }

  /** The layout of the message, for any header, labels and answers that
      hold no line break. */
  lemma LayoutLines(h: string, k1: string, v1: string, k2: string, v2: string, k3: string, v3: string,
                    k4: string, v4: string, n: string, notes: string)
    requires '\n' !in h && '\n' !in n
    requires '\n' !in k1 && '\n' !in k2 && '\n' !in k3 && '\n' !in k4
    requires '\n' !in v1 && '\n' !in v2 && '\n' !in v3 && '\n' !in v4
    ensures Text.Lines(h + "\n\n" + k1 + v1 + "\n" + k2 + v2 + "\n" + k3 + v3 + "\n" + k4 + v4 + "\n\n" + n + "\n" + notes)
      == [h, "", k1 + v1, k2 + v2, k3 + v3, k4 + v4, "", n] + Text.Lines(notes)
  {
    var l1 := h + "\n\n" + k1 + v1;
    var l2 := l1 + "\n" + k2 + v2;
    var l3 := l2 + "\n" + k3 + v3;
    var l4 := l3 + "\n" + k4 + v4;
    var l5 := l4 + "\n\n" + n;
    Text.OneLine(h);
    Text.AppendBlankField(h, k1, v1);
    Text.AppendField(l1, k2, v2);
    Text.AppendField(l2, k3, v3);
    Text.AppendField(l3, k4, v4);
    Text.AppendBlankLine(l4, n);
    Text.LinesConcat(l5, notes);
  }

  /** The message loses no answer: two forms whose priorities are offered
      check boxes (possibly none) and whose other one-line answers hold no
      line break (the selects offer none) give the same message only if
      they agree on situation, timeline, budget, priorities (in order) and
      notes (an empty note reads as the dash). */
  lemma MessageDeterminesAnswers(f: Form, g: Form)
    requires Offered(f.priorities) && Offered(g.priorities)
    requires '\n' !in f.situation && '\n' !in f.timeline && '\n' !in f.budget
    requires '\n' !in g.situation && '\n' !in g.timeline && '\n' !in g.budget
    requires Message(f) == Message(g)
    ensures f.situation == g.situation && f.timeline == g.timeline && f.budget == g.budget
    ensures f.priorities == g.priorities
    ensures OrDash(f.notes) == OrDash(g.notes)
  {
    OfferedSingleLine(f.priorities);
    OfferedSingleLine(g.priorities);
    MessageLines(f);
    MessageLines(g);
    var lf := Text.Lines(Message(f));
    assert lf[2] == "Situation: " + f.situation == "Situation: " + g.situation;
    assert f.situation == lf[2][|"Situation: "|..] == g.situation;
    assert lf[3] == "Timeline: " + f.timeline == "Timeline: " + g.timeline;
    assert f.timeline == lf[3][|"Timeline: "|..] == g.timeline;
    assert lf[4] == "Budget: " + f.budget == "Budget: " + g.budget;
    assert f.budget == lf[4][|"Budget: "|..] == g.budget;
    var pf := PrioritiesText(f.priorities);
    var pg := PrioritiesText(g.priorities);
    assert lf[5] == "Lake Priorities: " + pf == "Lake Priorities: " + pg;
    assert pf == lf[5][|"Lake Priorities: "|..] == pg;
    PrioritiesTextInjective(f.priorities, g.priorities);
    var head := Header + "\n\n"
      + "Situation: " + f.situation + "\n"
      + "Timeline: " + f.timeline + "\n"
      + "Budget: " + f.budget + "\n"
      + "Lake Priorities: " + pf + "\n\n"
      + "Notes:" + "\n";
    assert Message(f) == head + OrDash(f.notes);
    assert Message(g) == head + OrDash(g.notes);
    assert OrDash(f.notes) == Message(f)[|head|..];
  }

  /** The payload posted for the form. */
  function MakePayload(f: Form, href: Option<string>): (p: Payload)
    ensures p.formKind == "private_match" && p.message == Message(f) && p.source == SourceOf(href)
    ensures p.name == f.name && p.email == f.email && p.phone == f.phone && p.website == f.website
  {
    Payload("private_match", f.name, f.email, f.phone, Message(f), SourceOf(href), f.website)
  }

  /** A form that passes `canSubmit` is accepted by the lead route, which
      forwards the kind, contact details and message and drops the honeypot
      and the source. */
  lemma SubmittedFormForwarded(f: Form, href: Option<string>, origin: Option<string>,
                               setting: Option<string>, outcome: LeadRoute.UpstreamOutcome)
    requires CanSubmit(f)
    ensures var h := LeadRoute.HandlePost(
        LeadRoute.LeadRequest(LeadRoute.Parsed(PayloadJson(MakePayload(f, href))), origin), setting, outcome);
      && h.call.Some?
      && h.call.value.body == JObject(map[
           "form_kind" := JString("private_match"),
           "name" := JString(f.name),
           "email" := JString(f.email),
           "phone" := JString(f.phone),
           "message" := JString(Message(f))])
  {
    PayloadThroughRoute(MakePayload(f, href), origin, setting, outcome);
  }

  // ---------------------------------------------------------------------
  // The page
  // ---------------------------------------------------------------------

  /** The text inputs and selects of the form. */
  datatype TextField = Name | Email | Phone | Situation | Timeline | Budget | Notes | Website

  /** The answer a text input or select shows (its `value`). */
  function Answer(f: Form, field: TextField): string
  {
    match field
    case Name => f.name
    case Email => f.email
    case Phone => f.phone
    case Situation => f.situation
    case Timeline => f.timeline
    case Budget => f.budget
    case Notes => f.notes
    case Website => f.website
  }

  /** The form with one text answer replaced, as each `onChange` does: the
      input then shows the new value, every other input keeps its answer and
      the priorities are untouched. */
  function WithAnswer(f: Form, field: TextField, value: string): (r: Form)
    ensures Answer(r, field) == value
    ensures forall other | other != field :: Answer(r, other) == Answer(f, other)
    ensures r.priorities == f.priorities
  {
    match field
    case Name => f.(name := value)
    case Email => f.(email := value)
    case Phone => f.(phone := value)
    case Situation => f.(situation := value)
    case Timeline => f.(timeline := value)
    case Budget => f.(budget := value)
    case Notes => f.(notes := value)
    case Website => f.(website := value)
  }

  /** The page's state: the form, the three status flags, and the requests
      sent so far. */
  class PrivateMatchPage {
    const endpoint: string
    var form: Form
    var submitting: bool
    var error: string
    var success: bool
    var sent: seq<Submission>

    /** Between events nothing is being submitted, and the priorities are
        offered check boxes without duplicates. */
    ghost predicate Valid()
      reads this
    {
      !submitting && NoDuplicates(form.priorities) && Offered(form.priorities)
    }

    /** The page as first rendered, with the endpoint read from the
        environment. */
    constructor (setting: Option<string>)
      ensures Valid()
      ensures endpoint == LeadEndpoint(setting)
      ensures form == EmptyForm && error == "" && !success && sent == []
    {
      endpoint := LeadEndpoint(setting);
      form := EmptyForm;
      submitting := false;
      error := "";
      success := false;
      sent := [];
    }

    /** An `onChange` of a text input or select. */
    method SetAnswer(field: TextField, value: string)
      requires Valid()
      modifies this
      ensures Valid()
      ensures form == WithAnswer(old(form), field, value)
      ensures error == old(error) && success == old(success) && sent == old(sent)
    {
      form := WithAnswer(form, field, value);
    }

    /** `togglePriority(p)`, called by the check box of the offered
        priority `p`. */
    method TogglePriority(p: string)
      requires Valid() && p in Priorities
      modifies this
      ensures Valid()
      ensures form == old(form).(priorities := Toggle(old(form.priorities), p))
      ensures error == old(error) && success == old(success) && sent == old(sent)
    {
      ToggleKeepsDistinct(form.priorities, p);
      ToggleKeepsOffered(form.priorities, p);
      form := form.(priorities := Toggle(form.priorities, p));
    }

    /** `onSubmit`: clear the error; stop silently on the honeypot; stop
        with an error when no endpoint is configured or the form is
        incomplete; otherwise post the payload once and record how it ended.
        `href` is the page's location, `outcome` how the post ends. */
    method OnSubmit(href: Option<string>, outcome: FetchOutcome)
      requires Valid()
      modifies this
      ensures Valid() && form == old(form)
      ensures var g := CheckGates(form.website, endpoint, CanSubmit(form));
        && (g != Proceed ==> sent == old(sent) && success == old(success))
        && (g == Honeypot ==> error == "")
        && (g == NotConfigured ==> error == NotConfiguredError)
        && (g == Incomplete ==> error == IncompleteError)
        && (g == Proceed ==>
              && sent == old(sent) + [Submission(endpoint, MakePayload(form, href))]
              && error == Settle(outcome).error
              && success == (old(success) || Settle(outcome).success))
    {
      error := "";
      if Text.Trim(form.website) != "" {
        return;
      }
      if endpoint == "" {
        error := NotConfiguredError;
        return;
      }
      if !CanSubmit(form) {
        error := IncompleteError;
        return;
      }
      submitting := true;
      var payload := MakePayload(form, href);
      sent := sent + [Submission(endpoint, payload)];
      var settled := Settle(outcome);
      if settled.success {
        success := true;
      } else {
        error := settled.error;
      }
      submitting := false;
    }
  }
}
