/** The HTTP exchange between the two halves: the client posts its form as
    JSON to `/api/analyze`, and each answer of the endpoint reaches
    `handleSubmit` as one of its three outcomes. */
module Exchange {
  import opened Wrappers
  import opened Text
  import A = AnalyzeApi
  import V = ContactView

  /** `JSON.stringify(formData)`, as the server decodes it. */
  function RequestBody(form: V.FormData): A.Json {
    A.StringFieldsBody(form.name, form.email, form.message)
  }

  /** What `fetch` and `response.json()` make of an answer of the endpoint. Flask's own
      error page is not JSON, so parsing it throws; `parseError` is that exception's message. */
  function Delivered(r: A.Response, parseError: string): (o: V.FetchOutcome)
    ensures o.Ok? <==> A.StatusCode(r) == 200
    ensures r.Analyzed? ==> o == V.Ok(r.summary, r.reply)
    ensures (r.BadRequest? || r.AiFailure?) ==> o == V.HttpError(Some(r.error))
    ensures r.InternalError? ==> o == V.Thrown(parseError)
  {
    match r
    case BadRequest(e) => V.HttpError(Some(e))
    case AiFailure(e) => V.HttpError(Some(e))
    case Analyzed(summary, reply) => V.Ok(summary, reply)
    case InternalError => V.Thrown(parseError)
  }

  /** The whole round trip for a form as it stands. */
  function Answer(form: V.FormData, keys: A.ApiKeys, ai: (A.Provider, string) -> A.AiResult,
                  parseError: string): V.FetchOutcome
  {
    Delivered(A.AnalyzeMessage(Some(RequestBody(form)), keys, ai).response, parseError)
  }

  /** The validation message reads as neutral, not as an error. */
  lemma RequiredMessageNeutral()
    ensures !V.IsErrorStatus(A.RequiredMessage)
  {
    V.NoDoubleRJoin("Name, email, ", "and message ");
    V.NoDoubleRJoin("Name, email, " + "and message ", "are required.");
    V.NeutralWithoutDoubleR(A.RequiredMessage);
  }

  /** Every AI failure message reads as an error. */
  lemma AiFailureRed(detail: string)
    ensures V.IsErrorStatus(A.AiErrorPrefix + detail)
  {
    var message := A.AiErrorPrefix + detail;
    assert message[3..8] == A.AiErrorPrefix[3..8] == "error";
    assert Lower("error") == "error";
    assert V.ErrorWordAt(message, 3);
    V.ErrorStatusIff(message);
  }

  /** Every message that starts like an AI failure reads as an error. */
  lemma AiFailureMessageRed(message: string)
    requires |message| >= |A.AiErrorPrefix| && message[..|A.AiErrorPrefix|] == A.AiErrorPrefix
    ensures V.IsErrorStatus(message)
  {
    var detail := message[|A.AiErrorPrefix|..];
    assert message == A.AiErrorPrefix + detail;
    AiFailureRed(detail);
  }

  /** A form with a blank field comes back as the validation message, with no AI request,
      and the client shows that message in the neutral colour. */
  lemma BlankFormRejected(form: V.FormData, keys: A.ApiKeys, ai: (A.Provider, string) -> A.AiResult,
                          parseError: string)
    requires AllSpace(form.name) || AllSpace(form.email) || AllSpace(form.message)
    ensures A.AnalyzeMessage(Some(RequestBody(form)), keys, ai).aiRequests == []
    ensures Answer(form, keys, ai, parseError) == V.HttpError(Some(A.RequiredMessage))
    ensures V.FailureMessage(Answer(form, keys, ai, parseError)) == A.RequiredMessage
    ensures !V.IsErrorStatus(V.FailureMessage(Answer(form, keys, ai, parseError)))
  {
    A.RejectsIffBlank(form.name, form.email, form.message, keys, ai);
    RequiredMessageNeutral();
  }

  /** When the endpoint fails on the AI side, the client's status is the server's message,
      shown in red. */
  lemma AiFailureShownRed(form: V.FormData, keys: A.ApiKeys, ai: (A.Provider, string) -> A.AiResult,
                          parseError: string)
    requires A.AnalyzeMessage(Some(RequestBody(form)), keys, ai).response.AiFailure?
    ensures var outcome := Answer(form, keys, ai, parseError);
            outcome.HttpError? && V.IsErrorStatus(V.FailureMessage(outcome))
  {
    var h := A.AnalyzeMessage(Some(RequestBody(form)), keys, ai);
    AiFailureMessageRed(h.response.error);
  }

  /** Submitting the form to the endpoint, with no other event in between. */
  method SubmitToEndpoint(app: V.ContactAssistant, keys: A.ApiKeys,
                          ai: (A.Provider, string) -> A.AiResult, parseError: string)
    modifies app
    ensures app.formData == old(app.formData) && !app.isLoading
    ensures var h := A.AnalyzeMessage(Some(RequestBody(old(app.formData))), keys, ai);
            (h.response.Analyzed? ==> app.summary == h.response.summary && app.reply == h.response.reply)
            && (h.response.BadRequest? ==> app.status == A.RequiredMessage && app.summary == V.NoSummary
                                           && app.reply == V.NoReply)
            && (h.response.AiFailure? ==> app.status == h.response.error && V.IsErrorStatus(app.status))
            && (h.response.InternalError? ==> app.status == parseError)
  {
    ghost var form := app.formData;
    app.HandleSubmit(f => Answer(f, keys, ai, parseError));
    if A.AnalyzeMessage(Some(RequestBody(form)), keys, ai).response.AiFailure? {
      AiFailureShownRed(form, keys, ai, parseError);
    }
  }
}
