/**
 * The contact section (src/components/sections/Contact.jsx): the form state
 * and its two timers, the submit button's state, and the rule that opens a
 * contact link in a new tab.
 */
module Contact {
  import opened Wrappers
  import opened Strings

  const Fields: set<string> := {"name", "email", "subject", "message"}

  /** `{ name: '', email: '', subject: '', message: '' }`. */
  function EmptyForm(): (f: map<string, string>)
    ensures f.Keys == Fields && forall k :: k in f ==> f[k] == ""
  {
    map["name" := "", "email" := "", "subject" := "", "message" := ""]
  }

  /** `{ ...prev, [name]: value }`. */
  function WithField(prev: map<string, string>, name: string, value: string): (f: map<string, string>)
    ensures name in f && f[name] == value
    ensures f.Keys == prev.Keys + {name}
    ensures forall k :: k in prev && k != name ==> f[k] == prev[k]
  {
    prev[name := value]
  }

  /** What the submit button says. */
  datatype Label = Sending | MessageSent | SendMessage

  /** `disabled={isSubmitting || isSubmitted}`. */
  predicate Disabled(isSubmitting: bool, isSubmitted: bool)
  {
    isSubmitting || isSubmitted
  }

  /** Sending while submitting, then sent, else the invitation to send. */
  function ButtonLabel(isSubmitting: bool, isSubmitted: bool): Label
  {
    if isSubmitting then Sending else if isSubmitted then MessageSent else SendMessage
  }

  /** The button can be pressed exactly when it offers to send, and "sending" wins over "sent". */
  lemma ButtonState(isSubmitting: bool, isSubmitted: bool)
    ensures !Disabled(isSubmitting, isSubmitted) <==> ButtonLabel(isSubmitting, isSubmitted) == SendMessage
    ensures ButtonLabel(isSubmitting, isSubmitted) == MessageSent <==> !isSubmitting && isSubmitted
    ensures ButtonLabel(isSubmitting, isSubmitted) == Sending <==> isSubmitting
  {
  }

  /**
   * The form. `pendingSubmissions` counts the 2000 ms waits started by
   * `handleSubmit` and not yet over; `pendingResets` counts the 5000 ms
   * timers that will clear the success message.
   */
  class ContactForm {
    var formState: map<string, string>
    var isSubmitting: bool
    var isSubmitted: bool
    var pendingSubmissions: nat
    var pendingResets: nat

    /** Neither flag can stay up for ever: each is backed by a pending timer that will lower it. */
    ghost predicate Valid()
      reads this
    {
      (isSubmitting ==> pendingSubmissions > 0) && (isSubmitted ==> pendingResets > 0)
    }

    constructor ()
      ensures Valid()
      ensures formState == EmptyForm() && !isSubmitting && !isSubmitted
      ensures pendingSubmissions == 0 && pendingResets == 0
    {
      formState := EmptyForm();
      isSubmitting := false;
      isSubmitted := false;
      pendingSubmissions := 0;
      pendingResets := 0;
    }

    /** `handleChange`: only the input's own field changes. */
    method HandleChange(name: string, value: string)
      requires Valid()
      modifies this
      ensures Valid()
      ensures formState == WithField(old(formState), name, value)
      ensures isSubmitting == old(isSubmitting) && isSubmitted == old(isSubmitted)
      ensures pendingSubmissions == old(pendingSubmissions) && pendingResets == old(pendingResets)
    {
      formState := WithField(formState, name, value);
    }

    /** `handleSubmit` up to its `await`: submitting, with one more 2000 ms wait pending. */
    method HandleSubmit()
      requires Valid()
      modifies this
      ensures Valid()
      ensures isSubmitting && pendingSubmissions == old(pendingSubmissions) + 1
      ensures formState == old(formState) && isSubmitted == old(isSubmitted)
      ensures pendingResets == old(pendingResets)
    {
      isSubmitting := true;
      pendingSubmissions := pendingSubmissions + 1;
    }

    /** The 2000 ms wait is over: not submitting, submitted, fields cleared, and a 5000 ms reset scheduled. */
    method CompleteSubmission()
      requires Valid() && pendingSubmissions > 0
      modifies this
      ensures Valid()
      ensures !isSubmitting && isSubmitted && formState == EmptyForm()
      ensures pendingSubmissions == old(pendingSubmissions) - 1
      ensures pendingResets == old(pendingResets) + 1
    {
      pendingSubmissions := pendingSubmissions - 1;
      isSubmitting := false;
      isSubmitted := true;
      formState := EmptyForm();
      pendingResets := pendingResets + 1;
    }

    /** The 5000 ms timer fires: the success message goes away; nothing else changes. */
    method ClearSubmitted()
      requires Valid() && pendingResets > 0
      modifies this
      ensures Valid()
      ensures !isSubmitted && pendingResets == old(pendingResets) - 1
      ensures formState == old(formState) && isSubmitting == old(isSubmitting)
      ensures pendingSubmissions == old(pendingSubmissions)
    {
      pendingResets := pendingResets - 1;
      isSubmitted := false;
    }
  }

  /** One full submission from a fresh form: sending, then sent with empty fields, then back to the start. */
  method SubmissionCycle(name: string, value: string) returns (during: Label, after: Label, final: Label, disabledAfter: bool)
    ensures during == Sending && after == MessageSent && final == SendMessage
    ensures disabledAfter
  {
    var form := new ContactForm();
    form.HandleChange(name, value);
    form.HandleSubmit();
    during := ButtonLabel(form.isSubmitting, form.isSubmitted);
    form.CompleteSubmission();
    after := ButtonLabel(form.isSubmitting, form.isSubmitted);
    disabledAfter := Disabled(form.isSubmitting, form.isSubmitted);
    form.ClearSubmitted();
    final := ButtonLabel(form.isSubmitting, form.isSubmitted);
  }

  /** `target` and `rel` of a contact link. */
  datatype LinkAttrs = LinkAttrs(target: Option<string>, rel: Option<string>)

  /**
   * The rule as written: `href.startsWith('http')` decides both attributes,
   * and an `undefined` href makes the call throw a TypeError.
   */
  function LinkAttrsAsWritten(href: Option<string>): (r: Result<LinkAttrs, string>)
    ensures r.Err? <==> href.None?
    ensures r.Ok? ==> (r.value.target == Some("_blank") <==> StartsWith(href.value, "http"))
    ensures r.Ok? ==> (r.value.target.Some? <==> r.value.rel == Some("noopener noreferrer"))
  {
    match href
    case None => Err("TypeError: Cannot read properties of undefined (reading 'startsWith')")
    case Some(h) =>
      if StartsWith(h, "http") then Ok(LinkAttrs(Some("_blank"), Some("noopener noreferrer")))
      else Ok(LinkAttrs(None, None))
  }

  /** The rule with a missing href treated as a same-tab link. */
  function LinkAttrsFor(href: Option<string>): (r: LinkAttrs)
    ensures r.target == Some("_blank") <==> href.Some? && StartsWith(href.value, "http")
    ensures r.target.Some? <==> r.rel == Some("noopener noreferrer")
    ensures href.Some? ==> LinkAttrsAsWritten(href) == Ok(r)
  {
    if href.Some? && StartsWith(href.value, "http") then LinkAttrs(Some("_blank"), Some("noopener noreferrer"))
    else LinkAttrs(None, None)
  }

  /** `personalInfo` has a `linkedin` entry and no `github` entry (src/data/portfolio.js). */
  const LinkedIn := "https://www.linkedin.com/in/amine-chennaoui/"

  /** The hrefs of the three contact methods: LinkedIn, GitHub (`personalInfo.github`, undefined) and the location (`'#'`). */
  function ContactHrefs(): seq<Option<string>>
  {
    [Some(LinkedIn), None, Some("#")]
  }

  /** Rendering the links as written: the first href that throws aborts the whole render. */
  function RenderLinksAsWritten(hrefs: seq<Option<string>>): (r: Result<seq<LinkAttrs>, string>)
    ensures r.Ok? <==> forall k :: 0 <= k < |hrefs| ==> hrefs[k].Some?
    ensures r.Ok? ==> |r.value| == |hrefs|
  {
    if hrefs == [] then Ok([])
    else match LinkAttrsAsWritten(hrefs[0])
      case Err(e) => Err(e)
      case Ok(a) =>
        match RenderLinksAsWritten(hrefs[1..])
        case Err(e) => Err(e)
        case Ok(rest) => Ok([a] + rest)
  }

  /** The contact section as shipped throws while rendering, because the GitHub href is undefined. */
  lemma ContactRenderThrows()
    ensures RenderLinksAsWritten(ContactHrefs()).Err?
  {
    assert ContactHrefs()[1].None?;
  }

  /** With a missing href tolerated, LinkedIn opens in a new tab and the other two stay in the page. */
  lemma ContactLinksCorrected()
    ensures LinkAttrsFor(ContactHrefs()[0]) == LinkAttrs(Some("_blank"), Some("noopener noreferrer"))
    ensures LinkAttrsFor(ContactHrefs()[1]) == LinkAttrs(None, None)
    ensures LinkAttrsFor(ContactHrefs()[2]) == LinkAttrs(None, None)
  {
    assert StartsWith(LinkedIn, "http") by {
      assert LinkedIn[0] == 'h' && LinkedIn[1] == 't' && LinkedIn[2] == 't' && LinkedIn[3] == 'p';
      assert LinkedIn[..4] == "http";
    }
    assert !StartsWith("#", "http");
  }
}
