/** The `App` component of static/app.js: one bundle of view state and the
    event handlers that change it. Each `useState` variable is a field of
    `ContactAssistant`; each handler is a method. The two asynchronous
    collaborators, `fetch` of `/api/analyze` and `navigator.clipboard`, are
    given to the handlers as functions from what they are sent to what they
    returned, and events are handled one after another. */
module ContactView {
  import opened Wrappers
  import opened Text

  /** The contact form's three inputs. */
  datatype FormData = FormData(name: string, email: string, message: string)

  /** The `name` attribute of the input that fired `onChange`. */
  datatype Field = Name | Email | Message

  /** The reply tones of the `templates` catalog, in its key order. */
  datatype Template = Friendly | Direct | Sales

  /** What the `fetch` of `/api/analyze` came to: an OK response with its JSON body's
      `summary` and `reply`, a non-OK response with its body's `error` (absent or null
      is `None`), or an exception (network failure, or a body that is not JSON). */
  datatype FetchOutcome =
    | Ok(summary: string, reply: string)
    | HttpError(error: Option<string>)
    | Thrown(message: string)

  /** What `navigator.clipboard.writeText` came to. */
  datatype ClipboardResult = Written | Rejected

  /** All of the component's state, as one value. */
  datatype ViewState = ViewState(
    formData: FormData,
    summary: string,
    reply: string,
    status: string,
    isLoading: bool,
    toast: string,
    activeTemplate: Template,
    isDark: bool)

  // The longer texts are written in short pieces: the verifier reasons about a
  // short string literal character by character, and about a long one poorly.
  const WaitingSummary := "Waiting for a message."
  const WaitingReply := "Send a message " + "to generate " + "a reply."
  const WorkingStatus := "Working on " + "your " + "response..."
  const GeneratingSummary := "Generating summary..."
  const GeneratingReply := "Generating reply..."
  const DoneStatus := "Done! You " + "can copy or " + "edit the " + "reply."
  const ReadyToast := "AI response " + "ready. Copy or " + "adjust before " + "sending."
  const NoSummary := "No summary yet."
  const NoReply := "No reply yet."
  const GenericError := "Something " + "went wrong."
  const CopiedToast := "Copied to clipboard."
  const CopyFailedToast := "Unable to copy. " + "Please copy " + "manually."
  const TemplateToastPrefix := "Template applied: "

  /** The state the component mounts with. */
  const Initial := ViewState(FormData("", "", ""), WaitingSummary, WaitingReply, "", false, "", Friendly, false)

  /** The catalog's keys, in the order its buttons are rendered. */
  const TemplateOrder: seq<Template> := [Friendly, Direct, Sales]

  function TemplateName(t: Template): string {
    match t
    case Friendly => "Friendly"
    case Direct => "Direct"
    case Sales => "Sales"
  }

  /** The canned reply of each template (in pieces, as the constants above). */
  function TemplateText(t: Template): string {
    match t
    case Friendly =>
      "Thanks for " + "reaching out! " + "I can help " + "with that. " + "Here are the " + "next steps..."
    case Direct =>
      "Thanks for " + "your message. " + "Here is the " + "information " + "you requested."
    case Sales =>
      "Great timing! " + "I'd love to " + "walk you " + "through our " + "packages and " + "pricing."
  }

  /** `templates[name]` as a lookup by key. */
  function TemplateNamed(name: string): (t: Option<Template>)
    ensures t.Some? ==> TemplateName(t.value) == name
    ensures forall u :: TemplateName(u) == name ==> t == Some(u)
  {
    if name == "Friendly" then Some(Friendly)
    else if name == "Direct" then Some(Direct)
    else if name == "Sales" then Some(Sales)
    else None
  }

  /** The catalog lists every template once, under its own name. */
  lemma CatalogComplete()
    ensures forall t :: t in TemplateOrder
    ensures forall i, j :: 0 <= i < j < |TemplateOrder| ==> TemplateOrder[i] != TemplateOrder[j]
    ensures forall t :: TemplateNamed(TemplateName(t)) == Some(t)
  {
    forall t ensures t in TemplateOrder {
      match t
      case Friendly => assert TemplateOrder[0] == t;
      case Direct => assert TemplateOrder[1] == t;
      case Sales => assert TemplateOrder[2] == t;
    }
  }

  function FieldValue(form: FormData, field: Field): string {
    match field
    case Name => form.name
    case Email => form.email
    case Message => form.message
  }

  /** The `setFormData` updater of `updateField`: `{ ...prev, [name]: value }`. */
  function WithField(prev: FormData, field: Field, value: string): (r: FormData)
    ensures FieldValue(r, field) == value
    ensures forall other :: other != field ==> FieldValue(r, other) == FieldValue(prev, other)
  {
    match field
    case Name => prev.(name := value)
    case Email => prev.(email := value)
    case Message => prev.(message := value)
  }

  /** Two edits of the same input: only the last one counts. */
  lemma WithFieldOverwrites(prev: FormData, field: Field, first: string, second: string)
    ensures WithField(WithField(prev, field, first), field, second) == WithField(prev, field, second)
  {
  }

  /** Edits of different inputs do not interfere, whatever their order. */
  lemma WithFieldCommutes(prev: FormData, f: Field, a: string, g: Field, b: string)
    requires f != g
    ensures WithField(WithField(prev, f, a), g, b) == WithField(WithField(prev, g, b), f, a)
  {
  }

  /** The `setIsDark` updater of the theme button: `prev => !prev`. */
  function Flip(prev: bool): (r: bool)
    ensures r != prev
  {
    !prev
  }

  lemma FlipTwice(prev: bool)
    ensures Flip(Flip(prev)) == prev
  {
  }

  /** `data.error || "Something went wrong."`: the message of the `Error` thrown for a
      non-OK response; a thrown error's own message otherwise. */
  function FailureMessage(outcome: FetchOutcome): (m: string)
    requires !outcome.Ok?
    ensures outcome.Thrown? ==> m == outcome.message
    ensures outcome.HttpError? && outcome.error.Some? && outcome.error.value != "" ==> m == outcome.error.value
    ensures outcome.HttpError? && (outcome.error.None? || outcome.error.value == "") ==> m == GenericError
    ensures outcome.HttpError? ==> m != ""
  {
    match outcome
    case HttpError(error) => if error.Some? && error.value != "" then error.value else GenericError
    case Thrown(message) => message
  }

  /** `status.toLowerCase().includes("error")`: the status line is shown in red. */
  predicate IsErrorStatus(status: string) {
    Includes(Lower(status), "error")
  }

  /** The five characters of `status` from `i` spell "error" in some mix of cases. */
  ghost predicate ErrorWordAt(status: string, i: int) {
    0 <= i && i + 5 <= |status| && Lower(status[i..i + 5]) == "error"
  }

  /** A status is shown in red exactly when it holds the word "error" in any case. */
  lemma ErrorStatusIff(status: string)
    ensures IsErrorStatus(status) <==> exists i :: ErrorWordAt(status, i)
  {
    var low := Lower(status);
    IncludesIff(low, "error");
    if IsErrorStatus(status) {
      var i :| OccursAt(low, "error", i);
      LowerSlice(status, i, i + 5);
      assert ErrorWordAt(status, i);
    }
    if exists i :: ErrorWordAt(status, i) {
      var i :| ErrorWordAt(status, i);
      LowerSlice(status, i, i + 5);
      assert OccursAt(low, "error", i);
    }
  }

  predicate IsLetterR(c: char) {
    c == 'r' || c == 'R'
  }

  /** No two neighbouring characters of `s` are both the letter r, in either case. */
  ghost predicate NoDoubleR(s: string) {
    forall k :: 0 <= k < |s| - 1 ==> !(IsLetterR(s[k]) && IsLetterR(s[k + 1]))
  }

  /** Joining two texts without a double r, where the seam is not "rr", makes none. */
  lemma NoDoubleRJoin(a: string, b: string)
    requires NoDoubleR(a) && NoDoubleR(b)
    requires a == [] || b == [] || !(IsLetterR(a[|a| - 1]) && IsLetterR(b[0]))
    ensures NoDoubleR(a + b)
  {
    forall k | 0 <= k < |a + b| - 1 ensures !(IsLetterR((a + b)[k]) && IsLetterR((a + b)[k + 1])) {
      if k + 1 < |a| {
        assert (a + b)[k] == a[k] && (a + b)[k + 1] == a[k + 1];
      } else if k + 1 == |a| {
        assert (a + b)[k] == a[|a| - 1] && (a + b)[k + 1] == b[0];
      } else {
        assert (a + b)[k] == b[k - |a|] && (a + b)[k + 1] == b[k - |a| + 1];
      }
    }
  }

  /** "error" holds a double r, so a status without one stays neutral. */
  lemma NeutralWithoutDoubleR(status: string)
    requires NoDoubleR(status)
    ensures !IsErrorStatus(status)
  {
    if IsErrorStatus(status) {
      ErrorStatusIff(status);
      var i :| ErrorWordAt(status, i);
      assert Lower(status[i..i + 5])[1] == 'r' && Lower(status[i..i + 5])[2] == 'r';
      assert IsLetterR(status[i + 1]) && IsLetterR(status[i + 2]);
      assert false;
    }
  }

  /** The fixed statuses the client itself sets are never shown in red. */
  lemma GenericErrorNeutral()
    ensures !IsErrorStatus(GenericError)
  {
    NoDoubleRJoin("Something ", "went wrong.");
    NeutralWithoutDoubleR(GenericError);
  }

  lemma DoneStatusNeutral()
    ensures !IsErrorStatus(DoneStatus)
  {
    NoDoubleRJoin("Done! You ", "can copy or ");
    NoDoubleRJoin("Done! You " + "can copy or ", "edit the ");
    NoDoubleRJoin("Done! You " + "can copy or " + "edit the ", "reply.");
    NeutralWithoutDoubleR(DoneStatus);
  }

  lemma WorkingStatusNeutral()
    ensures !IsErrorStatus(WorkingStatus)
  {
    NoDoubleRJoin("Working on ", "your ");
    NoDoubleRJoin("Working on " + "your ", "response...");
    NeutralWithoutDoubleR(WorkingStatus);
  }

  class ContactAssistant {
    var formData: FormData
    var summary: string
    var reply: string
    var status: string
    var isLoading: bool
    var toast: string
    var activeTemplate: Template
    var isDark: bool

    /** The whole state, as one value. */
    ghost function View(): ViewState
      reads this
    {
      ViewState(formData, summary, reply, status, isLoading, toast, activeTemplate, isDark)
    }

    /** The `useState` initial values. */
    constructor ()
      ensures View() == Initial
    {
      formData := FormData("", "", "");
      summary := WaitingSummary;
      reply := WaitingReply;
      status := "";
      isLoading := false;
      toast := "";
      activeTemplate := Friendly;
      isDark := false;
    }

    /** `updateField`: one input changes, nothing else does. */
    method UpdateField(field: Field, value: string)
      modifies this
      ensures FieldValue(formData, field) == value
      ensures forall other :: other != field ==> FieldValue(formData, other) == FieldValue(old(formData), other)
      ensures View() == old(View()).(formData := WithField(old(formData), field, value))
    {
      formData := WithField(formData, field, value);
    }

    /** The first half of `handleSubmit`, up to the `await`: the loading flag and the
        three placeholders are set, and the form is what will be sent. */
    method BeginSubmit() returns (request: FormData)
      modifies this
      ensures request == formData
      ensures View() == old(View()).(isLoading := true, status := WorkingStatus,
                                     summary := GeneratingSummary, reply := GeneratingReply)
    {
      isLoading := true;
      status := WorkingStatus;
      summary := GeneratingSummary;
      reply := GeneratingReply;
      request := formData;
    }

    /** The second half of `handleSubmit`: the `try`, `catch` and `finally` once the
        request has settled. */
    method CompleteSubmit(outcome: FetchOutcome)
      modifies this
      ensures !isLoading
      ensures outcome.Ok? ==> View() == old(View()).(summary := outcome.summary, reply := outcome.reply,
                                                     status := DoneStatus, toast := ReadyToast,
                                                     isLoading := false)
      ensures !outcome.Ok? ==> View() == old(View()).(summary := NoSummary, reply := NoReply,
                                                      status := FailureMessage(outcome),
                                                      isLoading := false)
    {
      if outcome.Ok? {
        summary := outcome.summary;
        reply := outcome.reply;
        status := DoneStatus;
        toast := ReadyToast;
      } else {
        summary := NoSummary;
        reply := NoReply;
        status := FailureMessage(outcome);
      }
      isLoading := false;
    }

    /** `handleSubmit` with no other event arriving while the request is out: the form
        is sent as it was, it is left as it was, and loading is over. */
    method HandleSubmit(server: FormData -> FetchOutcome)
      modifies this
      ensures formData == old(formData) && !isLoading
      ensures activeTemplate == old(activeTemplate) && isDark == old(isDark)
      ensures var outcome := server(old(formData));
              if outcome.Ok? then
                summary == outcome.summary && reply == outcome.reply
                && status == DoneStatus && toast == ReadyToast
              else
                summary == NoSummary && reply == NoReply
                && status == FailureMessage(outcome) && toast == old(toast)
    {
      var request := BeginSubmit();
      var outcome := server(request);
      CompleteSubmit(outcome);
    }

    /** A template button's `onClick`: its canned reply replaces the reply. */
    method SelectTemplate(t: Template)
      modifies this
      ensures reply == TemplateText(t) && activeTemplate == t
      ensures toast == TemplateToastPrefix + TemplateName(t)
      ensures View() == old(View()).(activeTemplate := t, reply := TemplateText(t),
                                     toast := TemplateToastPrefix + TemplateName(t))
    {
      activeTemplate := t;
      reply := TemplateText(t);
      toast := TemplateToastPrefix + TemplateName(t);
    }

    /** `copyText(value)`: the toast says whether the clipboard took the text; no error
        leaves the handler and nothing else changes. */
    method CopyText(value: string, clipboard: string -> ClipboardResult)
      modifies this
      ensures toast == (if clipboard(value) == Written then CopiedToast else CopyFailedToast)
      ensures View() == old(View()).(toast := toast)
    {
      var result := clipboard(value);
      if result == Written {
        toast := CopiedToast;
      } else {
        toast := CopyFailedToast;
      }
    }

    /** The theme button: `isDark` flips and nothing else changes. */
    method ToggleTheme()
      modifies this
      ensures isDark == Flip(old(isDark))
      ensures View() == old(View()).(isDark := Flip(old(isDark)))
    {
      isDark := Flip(isDark);
    }
  }

  /** Pressing the theme button twice gives back the state it started from. */
  method ToggleThemeTwice(app: ContactAssistant)
    modifies app
    ensures app.View() == old(app.View())
  {
    app.ToggleTheme();
    app.ToggleTheme();
    FlipTwice(old(app.isDark));
  }
}
