/** The `/api/analyze` endpoint of app.py: reading the three contact fields
    from the JSON body, rejecting the request when one is blank, building
    the summary and reply prompts, and asking the configured AI provider
    for both. The provider itself (an HTTP client for an external service)
    is a function parameter that may answer or raise. */
module AnalyzeApi {
  import opened Wrappers
  import opened Text

  /** A decoded JSON value, as Python sees it after `request.get_json()`. */
  datatype Json =
    | JNull
    | JBool(b: bool)
    | JNumber(n: real)
    | JString(s: string)
    | JArray(items: seq<Json>)
    | JObject(fields: map<string, Json>)

  /** Python truthiness of the decoded value (what `x or y` tests). */
  predicate Truthy(j: Json) {
    match j
    case JNull => false
    case JBool(b) => b
    case JNumber(n) => n != 0.0
    case JString(s) => s != ""
    case JArray(items) => items != []
    case JObject(fields) => fields != map[]
  }

  /** The three stripped contact fields. */
  datatype Customer = Customer(name: string, email: string, message: string)

  /** What the endpoint answers. `InternalError` is Flask's own 500 page for an
      exception the handler does not catch (not a JSON body). */
  datatype Response =
    | BadRequest(error: string)
    | AiFailure(error: string)
    | Analyzed(summary: string, reply: string)
    | InternalError

  function StatusCode(r: Response): (code: int)
    ensures code == 200 <==> r.Analyzed?
    ensures code == 400 <==> r.BadRequest?
    ensures code == 500 <==> r.AiFailure? || r.InternalError?
  {
    match r
    case BadRequest(_) => 400
    case AiFailure(_) => 500
    case Analyzed(_, _) => 200
    case InternalError => 500
  }

  /** The two external AI services, and the API keys read from the environment. */
  datatype Provider = Groq | OpenAI
  datatype ApiKeys = ApiKeys(groq: Option<string>, openai: Option<string>)

  /** One prompt sent to one provider. */
  datatype AiRequest = AiRequest(provider: Provider, prompt: string)

  /** A provider call either returns the completion text or raises; `message` is `str(exc)`. */
  datatype AiResult = Completed(text: string) | Raised(message: string)

  /** The endpoint's answer together with the AI requests made while producing it, in order. */
  datatype Handled = Handled(response: Response, aiRequests: seq<AiRequest>)

  const RequiredMessage := "Name, email, " + "and message " + "are required."
  const MissingKeysMessage := "Missing GROQ_API_KEY " + "or OPENAI_API_KEY"
  const AiErrorPrefix := "AI error: "
  // The instructions are written in short pieces, as the source writes them,
  // so that the verifier can see their characters.
  const SummaryInstruction :=
    "Summarize the customer " + "message in 2-3 bullet " + "points. Use simple, "
    + "business-friendly " + "language."
  const ReplyInstruction :=
    "Write a short, " + "professional reply in " + "a friendly tone. " + "Keep it under 6 "
    + "sentences, and include " + "a clear next step."

  /** `if KEY:` on an environment variable: set and not empty. */
  predicate KeySet(key: Option<string>) {
    key.Some? && key.value != ""
  }

  /** The provider `run_ai` uses: Groq first, then OpenAI, else none. */
  function ChooseProvider(keys: ApiKeys): (p: Option<Provider>)
    ensures p == Some(Groq) <==> KeySet(keys.groq)
    ensures p == Some(OpenAI) <==> !KeySet(keys.groq) && KeySet(keys.openai)
    ensures p == None <==> !KeySet(keys.groq) && !KeySet(keys.openai)
  {
    if KeySet(keys.groq) then Some(Groq)
    else if KeySet(keys.openai) then Some(OpenAI)
    else None
  }

  /** The provider requests `run_ai(prompt)` makes: one, or none when no key is set. */
  function RunAiRequests(keys: ApiKeys, prompt: string): (calls: seq<AiRequest>)
    ensures |calls| <= 1
    ensures calls == [] <==> ChooseProvider(keys) == None
    ensures forall c :: c in calls ==> c.prompt == prompt && Some(c.provider) == ChooseProvider(keys)
  {
    match ChooseProvider(keys)
    case Some(p) => [AiRequest(p, prompt)]
    case None => []
  }

  /** `run_ai(prompt)`: the chosen provider's answer, or the missing-keys error. */
  function RunAi(keys: ApiKeys, ai: (Provider, string) -> AiResult, prompt: string): (r: AiResult)
    ensures ChooseProvider(keys) == None ==> r == Raised(MissingKeysMessage)
    ensures ChooseProvider(keys).Some? ==> r == ai(ChooseProvider(keys).value, prompt)
  {
    match ChooseProvider(keys)
    case Some(p) => ai(p, prompt)
    case None => Raised(MissingKeysMessage)
  }

  /** `request.get_json(silent=True) or {}`: a body that is not JSON, or a falsy
      JSON value, becomes the empty object. */
  function Payload(body: Option<Json>): (p: Json)
    ensures body.Some? && Truthy(body.value) ==> p == body.value
    ensures body.None? || !Truthy(body.value) ==> p == JObject(map[])
  {
    if body.Some? && Truthy(body.value) then body.value else JObject(map[])
  }

  /** `(payload.get(key) or "").strip()`. `None` is the AttributeError raised when the
      payload is not an object or the field is a truthy value that is not a string. */
  function FieldText(payload: Json, key: string): (t: Option<string>)
    ensures (payload.JObject? && (key !in payload.fields || !Truthy(payload.fields[key])))
              ==> t == Some("")
    ensures (payload.JObject? && key in payload.fields && payload.fields[key].JString?)
              ==> t.Some? && IsStripOf(payload.fields[key].s, t.value)
    ensures t.None? <==> (!payload.JObject? ||
              (key in payload.fields && Truthy(payload.fields[key]) && !payload.fields[key].JString?))
  {
    match payload
    case JObject(fields) =>
      var v := if key in fields then fields[key] else JNull;
      if !Truthy(v) then
        assert v.JString? ==> IsStripOf(v.s, "") by {
          if v.JString? { assert v.s[0..0] == v.s[..0] == v.s[0..] == ""; }
        }
        Some("")
      else if v.JString? then Some(Strip(v.s))
      else None
    case _ => None
  }

  /** Lines 68-71 of the handler: the three stripped fields, or `None` when reading
      them raised. */
  function ReadCustomer(body: Option<Json>): (c: Option<Customer>)
    ensures c.Some? <==> FieldText(Payload(body), "name").Some? && FieldText(Payload(body), "email").Some?
                         && FieldText(Payload(body), "message").Some?
    ensures c.Some? ==> c.value == Customer(FieldText(Payload(body), "name").value,
                                            FieldText(Payload(body), "email").value,
                                            FieldText(Payload(body), "message").value)
    ensures c.Some? ==> Trimmed(c.value.name) && Trimmed(c.value.email) && Trimmed(c.value.message)
  {
    var payload := Payload(body);
    var name := FieldText(payload, "name");
    var email := FieldText(payload, "email");
    var message := FieldText(payload, "message");
    if name.Some? && email.Some? && message.Some? then
      Some(Customer(name.value, email.value, message.value))
    else
      None
  }

  /** `not name or not email or not message`. */
  predicate Incomplete(c: Customer) {
    c.name == "" || c.email == "" || c.message == ""
  }

  function NameLine(c: Customer): string {
    "Customer name: " + c.name
  }

  function EmailLine(c: Customer): string {
    "Customer email: " + c.email
  }

  function MessageLine(c: Customer): string {
    "Message: " + c.message
  }

  /** The three lines every prompt ends with. */
  function CustomerBlock(c: Customer): string {
    NameLine(c) + "\n" + EmailLine(c) + "\n" + MessageLine(c)
  }

  function SummaryPrompt(c: Customer): string {
    SummaryInstruction + "\n\n" + CustomerBlock(c)
  }

  function ReplyPrompt(c: Customer): string {
    ReplyInstruction + "\n\n" + CustomerBlock(c)
  }

  /** `analyze_message()`: the response and the provider requests, in order. */
  function AnalyzeMessage(body: Option<Json>, keys: ApiKeys, ai: (Provider, string) -> AiResult): (h: Handled)
    ensures h.response.BadRequest? ==> h.response.error == RequiredMessage && h.aiRequests == []
    ensures h.response.InternalError? <==> ReadCustomer(body).None?
    ensures h.response.AiFailure? ==> (|h.response.error| >= |AiErrorPrefix|
                                      && h.response.error[..|AiErrorPrefix|] == AiErrorPrefix)
  {
    match ReadCustomer(body)
    case None => Handled(InternalError, [])
    case Some(c) =>
      if Incomplete(c) then Handled(BadRequest(RequiredMessage), [])
      else
        var summaryPrompt := SummaryPrompt(c);
        var replyPrompt := ReplyPrompt(c);
        var summaryCalls := RunAiRequests(keys, summaryPrompt);
        match RunAi(keys, ai, summaryPrompt)
        case Raised(e) => Handled(AiFailure(AiErrorPrefix + e), summaryCalls)
        case Completed(summary) =>
          var calls := summaryCalls + RunAiRequests(keys, replyPrompt);
          match RunAi(keys, ai, replyPrompt)
          case Raised(e) => Handled(AiFailure(AiErrorPrefix + e), calls)
          case Completed(reply) => Handled(Analyzed(summary, reply), calls)
  }

  // ---------------------------------------------------------------------------
  // Properties of the endpoint.

  /** A readable request in which one of the three fields is missing, null or otherwise
      falsy is answered with the required-fields message, and no AI request is made. */
  lemma AbsentFieldRejected(fields: map<string, Json>, key: string, keys: ApiKeys,
                              ai: (Provider, string) -> AiResult)
    requires key == "name" || key == "email" || key == "message"
    requires key !in fields || !Truthy(fields[key])
    requires ReadCustomer(Some(JObject(fields))).Some?
    ensures var h := AnalyzeMessage(Some(JObject(fields)), keys, ai);
            h.response == BadRequest(RequiredMessage) && h.aiRequests == []
  {
    var body := Some(JObject(fields));
    var c := ReadCustomer(body).value;
    assert FieldText(Payload(body), key) == Some("") by {
      if fields != map[] { assert Payload(body) == JObject(fields); }
    }
    assert Incomplete(c);
  }

  /** The JSON object a client sends with the three fields as strings. */
  function StringFieldsBody(name: string, email: string, message: string): Json {
    JObject(map["name" := JString(name), "email" := JString(email), "message" := JString(message)])
  }

  /** A string field is read as its stripped value. */
  lemma ReadStringField(fields: map<string, Json>, key: string, text: string)
    requires key in fields && fields[key] == JString(text)
    ensures FieldText(JObject(fields), key) == Some(Strip(text))
  {
    if text == "" {
      StripEmptyIff(text);
    }
  }

  /** Three string fields are read as their stripped values. */
  lemma ReadStringFields(name: string, email: string, message: string)
    ensures ReadCustomer(Some(StringFieldsBody(name, email, message)))
            == Some(Customer(Strip(name), Strip(email), Strip(message)))
  {
    var body := StringFieldsBody(name, email, message);
    var fields := body.fields;
    assert fields["name"] == JString(name);
    assert fields["email"] == JString(email);
    assert fields["message"] == JString(message);
    assert Payload(Some(body)) == body;
    ReadStringField(fields, "name", name);
    ReadStringField(fields, "email", email);
    ReadStringField(fields, "message", message);
  }

  /** A readable request is rejected exactly when a stripped field is empty, and a rejected
      request makes no AI request. */
  lemma RejectsIffIncomplete(body: Option<Json>, keys: ApiKeys, ai: (Provider, string) -> AiResult)
    requires ReadCustomer(body).Some?
    ensures var h := AnalyzeMessage(body, keys, ai);
            (h.response == BadRequest(RequiredMessage) <==> Incomplete(ReadCustomer(body).value))
            && (h.response.BadRequest? ==> h.aiRequests == [])
  {
  }

  /** For string fields, the request is rejected exactly when one of them is all whitespace. */
  lemma RejectsIffBlank(name: string, email: string, message: string,
                        keys: ApiKeys, ai: (Provider, string) -> AiResult)
    ensures AnalyzeMessage(Some(StringFieldsBody(name, email, message)), keys, ai).response
              == BadRequest(RequiredMessage)
            <==> AllSpace(name) || AllSpace(email) || AllSpace(message)
  {
    ReadStringFields(name, email, message);
    StripEmptyIff(name);
    StripEmptyIff(email);
    StripEmptyIff(message);
    RejectsIffIncomplete(Some(StringFieldsBody(name, email, message)), keys, ai);
  }

  /** A readable, complete request first asks for the summary; the reply is asked for only when
      the summary came back; the answer is 200 exactly when both came back, holding those two texts. */
  lemma AiCallsInOrder(body: Option<Json>, keys: ApiKeys, ai: (Provider, string) -> AiResult)
    requires ReadCustomer(body).Some? && !Incomplete(ReadCustomer(body).value)
    ensures var c := ReadCustomer(body).value;
            var h := AnalyzeMessage(body, keys, ai);
            var summary := RunAi(keys, ai, SummaryPrompt(c));
            var reply := RunAi(keys, ai, ReplyPrompt(c));
            && (forall k :: 0 <= k < |h.aiRequests| ==>
                  h.aiRequests[k].prompt == (if k == 0 then SummaryPrompt(c) else ReplyPrompt(c)))
            && |h.aiRequests| <= 2
            && (ChooseProvider(keys).None? ==> h.aiRequests == [])
            && (ChooseProvider(keys).Some? ==>
                  var p := ChooseProvider(keys).value;
                  h.aiRequests == [AiRequest(p, SummaryPrompt(c))]
                                  + (if summary.Completed? then [AiRequest(p, ReplyPrompt(c))] else []))
            && (summary.Raised? ==> h.response == AiFailure(AiErrorPrefix + summary.message)
                                    && |h.aiRequests| <= 1)
            && (summary.Completed? && reply.Raised? ==> h.response == AiFailure(AiErrorPrefix + reply.message))
            && (h.response.Analyzed? <==> summary.Completed? && reply.Completed?)
            && (h.response.Analyzed? ==> h.response == Analyzed(summary.text, reply.text))
  {
  }

  /** Without either key no provider is contacted and the answer names the missing keys. */
  lemma NoKeysNoCalls(body: Option<Json>, ai: (Provider, string) -> AiResult)
    requires ReadCustomer(body).Some? && !Incomplete(ReadCustomer(body).value)
    ensures var h := AnalyzeMessage(body, ApiKeys(None, None), ai);
            h.response == AiFailure(AiErrorPrefix + MissingKeysMessage) && h.aiRequests == []
  {
  }

  /** The customer block is three lines when name and email are single lines. */
  lemma BlockLines(c: Customer)
    requires '\n' !in c.name && '\n' !in c.email
    ensures Lines(CustomerBlock(c)) == [NameLine(c), EmailLine(c)] + Lines(MessageLine(c))
  {
    assert '\n' !in "Customer name: ";
    assert '\n' !in "Customer email: ";
    var tail := EmailLine(c) + "\n" + MessageLine(c);
    assert CustomerBlock(c) == NameLine(c) + "\n" + tail;
    LinesJoin(EmailLine(c), MessageLine(c));
    LinesJoin(NameLine(c), tail);
  }

  /** An instruction line, an empty line, then the text. */
  lemma InstructionLines(instruction: string, text: string)
    requires '\n' !in instruction
    ensures Lines(instruction + "\n\n" + text) == [instruction, ""] + Lines(text)
  {
    assert instruction + "\n\n" + text == instruction + "\n" + ("\n" + text);
    LinesJoin(instruction, "\n" + text);
    assert "" + "\n" + text == "\n" + text;
    LinesJoin("", text);
  }

  lemma SummaryInstructionOneLine()
    ensures '\n' !in SummaryInstruction
  {
  }

  lemma ReplyInstructionOneLine()
    ensures '\n' !in ReplyInstruction
  {
  }

  /** A prompt with a single-line instruction: that line, an empty line, the customer lines. */
  lemma PromptShape(instruction: string, c: Customer)
    requires '\n' !in instruction && '\n' !in c.name && '\n' !in c.email
    ensures Lines(instruction + "\n\n" + CustomerBlock(c))
            == [instruction, "", NameLine(c), EmailLine(c)] + Lines(MessageLine(c))
  {
    BlockLines(c);
    InstructionLines(instruction, CustomerBlock(c));
  }

  /** Both prompts are their instruction, an empty line, then the three customer lines in order:
      `Customer name: {name}`, `Customer email: {email}`, and `Message: {message}` (which goes on
      over further lines when the message has line breaks). */
  lemma PromptLines(c: Customer)
    requires '\n' !in c.name && '\n' !in c.email
    ensures Lines(SummaryPrompt(c)) ==
              [SummaryInstruction, "", NameLine(c), EmailLine(c)] + Lines(MessageLine(c))
    ensures Lines(ReplyPrompt(c)) ==
              [ReplyInstruction, "", NameLine(c), EmailLine(c)] + Lines(MessageLine(c))
  {
    SummaryInstructionOneLine();
    ReplyInstructionOneLine();
    PromptShape(SummaryInstruction, c);
    PromptShape(ReplyInstruction, c);
  }

  /** The two prompts share everything after their instruction, and the instructions differ. */
  lemma PromptsDifferOnlyInInstruction(c: Customer)
    ensures SummaryPrompt(c)[|SummaryInstruction|..] == ReplyPrompt(c)[|ReplyInstruction|..]
            == "\n\n" + CustomerBlock(c)
    ensures SummaryInstruction != ReplyInstruction
  {
    assert SummaryPrompt(c) == SummaryInstruction + ("\n\n" + CustomerBlock(c));
    assert ReplyPrompt(c) == ReplyInstruction + ("\n\n" + CustomerBlock(c));
    assert SummaryInstruction[0] != ReplyInstruction[0];
  }
}
