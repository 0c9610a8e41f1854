# AI contact assistant — a verified model

The application is a one-page contact desk. A customer's name, email and
message are typed into a form (`static/app.js`). The form is posted to the
Flask endpoint `/api/analyze` (`app.py`), which asks an AI provider for a
summary and a suggested reply. This project models both halves in Dafny and
proves what each promises.

- `text.dfy`, module `Text`: the string primitives the code relies on.
  These are Python's `str.strip()`, JavaScript's `toLowerCase()` and
  `includes()`, and splitting text into lines.
- `analyze_api.dfy`, module `AnalyzeApi` (`app.py`, pure functions). It
  covers reading the JSON body with Python truthiness (`x or ""`,
  `get_json() or {}`), stripping and validating the three fields, the two
  prompts, provider selection in `run_ai`, and the mapping of outcomes to
  HTTP answers. The AI provider is a function parameter that either answers
  or raises. `AnalyzeMessage` returns the response together with the list of
  provider requests it made, in order.
- `contact_view.dfy`, module `ContactView` (`static/app.js`). The `App`
  component's `useState` variables are the fields of the class
  `ContactAssistant`, and each event handler is a method. The updater
  passed to `setFormData` is the function `WithField`, and the one passed to
  `setIsDark` is `Flip`. The status-colour rule is the predicate
  `IsErrorStatus`. `handleSubmit` is split at its `await` into
  `BeginSubmit` and `CompleteSubmit`, and `HandleSubmit` runs both with the
  server's answer in between. The placeholders are therefore visible
  between the two halves, and the final state is visible after both.
- `exchange.dfy`, module `Exchange`: the HTTP exchange between the two. It
  maps each endpoint answer to the `fetch` outcome the client sees, and
  proves end-to-end facts. One is that a form with a whitespace-only field
  comes back as the validation message without any AI request.
- `wrappers.dfy`, module `Wrappers`: `Option`.

What the proofs show, beyond each handler's exact effect:

- The validation message "Name, email, and message are required." is shown
  in the neutral colour. The colour rule looks for "error", and the message
  does not contain it.
- Every "AI error: …" message is shown in red.
- A whitespace-only name or message passes the browser's `required` check.
  The server still rejects it (`Exchange.BlankFormRejected`).

## Model

| member | source | states |
|---|---|---|
| `Text.TrimStart` | app.py:69-71 | the result is a suffix of the input; everything cut off is whitespace; it does not start with whitespace |
| `Text.TrimEnd` | app.py:69-71 | the result is a prefix of the input; everything cut off is whitespace; it does not end with whitespace |
| `Text.Strip` | app.py:69-71 | `str.strip()`: the result is a slice of the input with only whitespace outside it and no whitespace at either end |
| `Text.StripUnique` | app.py:69-71 | any slice with that property equals `Strip(s)`, so the property defines stripping completely |
| `Text.StripEmptyIff` | app.py:69-73 | a field strips to the empty string exactly when it is all whitespace |
| `Text.StripIdempotent` | app.py:69-71 | stripping an already stripped field changes nothing |
| `Text.Lower` | static/app.js:275 | same length as the input, each letter A–Z lowered; `ErrorStatusIff` uses it to read the colour rule position by position |
| `Text.Includes` | static/app.js:275 | the left-to-right search of `includes`; `IncludesIff` proves it holds exactly when the pattern occurs somewhere |
| `Text.IncludesIff` | static/app.js:275 | `includes(pat)` holds exactly when `pat` occurs at some position of the string |
| `AnalyzeApi.StatusCode` | app.py:73-98 | the answer is 200 exactly for a successful analysis, 400 exactly for a rejected request, and 500 exactly for an AI failure or an unhandled error |
| `AnalyzeApi.ChooseProvider` | app.py:53-58 | Groq whenever its key is set, whatever the OpenAI key; OpenAI exactly when only the OpenAI key is set; none when neither is set (an empty key counts as unset) |
| `AnalyzeApi.RunAiRequests` | app.py:53-58 | `run_ai` sends the prompt to the chosen provider exactly once, and sends nothing when no key is set |
| `AnalyzeApi.RunAi` | app.py:53-58 | the chosen provider's answer is returned as is; with no key set the call raises "Missing GROQ_API_KEY or OPENAI_API_KEY" |
| `AnalyzeApi.Payload` | app.py:68 | a body that is not JSON, or a falsy JSON value, is read as the empty object; any other JSON value is used as it is |
| `AnalyzeApi.FieldText` | app.py:69-71 | a missing, null or falsy field reads as ""; a string field reads as its stripped value; reading fails (AttributeError) exactly when the payload is not an object or the field is a truthy non-string |
| `AnalyzeApi.ReadCustomer` | app.py:68-71 | reading succeeds exactly when each of the three fields of the payload can be read; the customer then holds the three values `FieldText` gives, none with whitespace at either end |
| `AnalyzeApi.AnalyzeMessage` | app.py:66-98 | a 400 carries exactly the required-fields message and makes no AI request; an unhandled error happens exactly when a field cannot be read; every AI failure message starts with "AI error: " |
| `AnalyzeApi.AbsentFieldRejected` | app.py:68-74 | a readable request in which one field is missing, null or falsy gets the required-fields message, with no AI request |
| `AnalyzeApi.ReadStringFields` | app.py:68-71 | a JSON object with three string fields is read as their three stripped values |
| `AnalyzeApi.RejectsIffIncomplete` | app.py:73-74 | a readable request is rejected with the required-fields message exactly when a stripped field is empty, and then no AI request is made |
| `AnalyzeApi.RejectsIffBlank` | app.py:69-74 | with string fields, the request is rejected exactly when at least one field is all whitespace |
| `AnalyzeApi.AiCallsInOrder` | app.py:92-98 | with a key set, the chosen provider gets the summary prompt and then, only if the summary came back, the reply prompt; with no key nothing is sent; the summary is requested before the reply; no reply is requested if the summary call raised; any failure is a 500 with "AI error: " and the exception text, with no partial result; 200 exactly when both calls answered, holding exactly those two answers |
| `AnalyzeApi.NoKeysNoCalls` | app.py:53-58 | with neither key set no provider is contacted, and the answer is "AI error: Missing GROQ_API_KEY or OPENAI_API_KEY" |
| `AnalyzeApi.Incomplete` | app.py:73 | a stripped field is empty; `RejectsIffIncomplete` proves it is exactly the condition for the 400 |
| `AnalyzeApi.CustomerBlock` | app.py:79-81 | the three customer lines; `BlockLines` proves their line structure |
| `AnalyzeApi.SummaryPrompt` | app.py:76-82 | the summary instruction, an empty line, then the customer lines, as `PromptLines` proves |
| `AnalyzeApi.ReplyPrompt` | app.py:84-90 | the reply instruction, an empty line, then the customer lines, as `PromptLines` proves; `PromptsDifferOnlyInInstruction` relates it to the summary prompt |
| `AnalyzeApi.BlockLines` | app.py:79-81 | the customer block is the lines `Customer name: {name}`, `Customer email: {email}`, then `Message: {message}` |
| `AnalyzeApi.PromptLines` | app.py:76-90 | each prompt is its instruction line, an empty line, then the three customer lines in order, using the stripped values |
| `AnalyzeApi.PromptsDifferOnlyInInstruction` | app.py:76-90 | after their instructions the two prompts are identical, and the two instructions differ |
| `ContactView.TemplateNamed` | static/app.js:17-21 | looking up a template by its key finds the template with that name and nothing else |
| `ContactView.TemplateText` | static/app.js:17-21 | the canned reply of each template; `SelectTemplate` puts it in the reply box |
| `ContactView.CatalogComplete` | static/app.js:17-21 | the catalog has exactly the three templates, each once, each found under its own name |
| `ContactView.WithField` | static/app.js:41-44 | the edited input takes the new value; the other two keep theirs |
| `ContactView.WithFieldOverwrites` | static/app.js:41-44 | two edits of the same input leave only the last value |
| `ContactView.WithFieldCommutes` | static/app.js:41-44 | edits of different inputs give the same form in either order |
| `ContactView.Flip` | static/app.js:130 | the theme updater always changes `isDark` |
| `ContactView.FlipTwice` | static/app.js:130 | toggling twice gives back the original `isDark` |
| `ContactView.FailureMessage` | static/app.js:61-72 | a thrown error's status is its own message; for a non-OK response it is the body's `error` when that is present and non-empty, else "Something went wrong." (never empty) |
| `ContactView.IsErrorStatus` | static/app.js:275 | the status-colour rule `status.toLowerCase().includes("error")`; `ErrorStatusIff` states what it means |
| `ContactView.ErrorStatusIff` | static/app.js:275 | the status is red exactly when some five of its characters spell "error" in any mix of cases |
| `ContactView.NeutralWithoutDoubleR` | static/app.js:275 | a status with no two neighbouring letters r is never red |
| `ContactView.GenericErrorNeutral` | static/app.js:62 | the generic failure status "Something went wrong." is not shown in red |
| `ContactView.DoneStatusNeutral` | static/app.js:67 | the success status is not shown in red |
| `ContactView.WorkingStatusNeutral` | static/app.js:49 | the in-progress status is not shown in red |
| `ContactView.ContactAssistant.constructor` | static/app.js:4-15 | the component starts with an empty form, the waiting placeholders, an empty status and toast, not loading, the Friendly template and the light theme |
| `ContactView.ContactAssistant.UpdateField` | static/app.js:41-44 | only the named input changes; the other inputs and all other state stay as they were |
| `ContactView.ContactAssistant.BeginSubmit` | static/app.js:46-57 | loading starts, the status reads "Working on your response...", summary and reply show the generating placeholders, and the form that is sent is the current form; nothing else changes |
| `ContactView.ContactAssistant.CompleteSubmit` | static/app.js:59-75 | on success: the server's summary and reply, the done status and the ready toast. On failure: the "No summary yet." / "No reply yet." placeholders, the failure message as status, and an untouched toast. Loading is over in every case, and nothing else changes |
| `ContactView.ContactAssistant.HandleSubmit` | static/app.js:46-76 | the form is sent as it was and never modified; loading ends whatever the outcome; the template and theme are untouched; the final summary, reply, status and toast are those of the outcome |
| `ContactView.ContactAssistant.SelectTemplate` | static/app.js:245-249 | reply becomes the template's canned text, the active template is the chosen one, and the toast is "Template applied: " and its name; nothing else changes |
| `ContactView.ContactAssistant.CopyText` | static/app.js:78-85 | the toast is "Copied to clipboard." if the clipboard accepted the text, else "Unable to copy. Please copy manually."; no error leaves the handler and nothing else changes |
| `ContactView.ContactAssistant.ToggleTheme` | static/app.js:130 | `isDark` flips and nothing else changes |
| `ContactView.ToggleThemeTwice` | static/app.js:130 | pressing the theme button twice restores the whole state |
| `Exchange.Delivered` | static/app.js:54-63 | the client sees an OK response exactly for a 200; a JSON error body's `error` reaches the client; Flask's non-JSON error page makes `response.json()` throw |
| `Exchange.RequiredMessageNeutral` | app.py:74 | the validation message is shown in the neutral colour, not in red |
| `Exchange.AiFailureRed` | app.py:96 | every "AI error: …" message is shown in red |
| `Exchange.BlankFormRejected` | app.py:73-74 | a form with a whitespace-only field gets the validation message without any AI request, and the client shows that message as its status in the neutral colour |
| `Exchange.AiFailureShownRed` | app.py:92-96 | when the endpoint fails on the AI side, the client's status is the server's message, shown in red |
| `Exchange.SubmitToEndpoint` | static/app.js:46-76 | submitting to the modelled endpoint: the summary and reply on success; the validation message and the reset placeholders for a blank field; a red status for an AI failure; the parse error's message for Flask's error page |

## Left out

- Rendering: the JSX tree, the `theme` class strings, and the `inboxPreview`
  data have no behaviour to state.
- `fetch`, `response.json()` and `navigator.clipboard.writeText` are
  asynchronous browser I/O. Their results are inputs to the handlers: a
  function from the form sent to a `FetchOutcome`, and a function from the
  copied text to a `ClipboardResult`.
- Interleaving: an event arriving while a submit awaits the server is not
  modelled as a race. The two halves of `handleSubmit` are separate methods,
  so such a sequence can be written out, but `HandleSubmit` assumes nothing
  happens in between. The lack of a guard against a double submit (only the
  `disabled` attribute) is left out for the same reason.
- `call_groq` and `call_openai` are HTTP clients for external services,
  with a model name, a float temperature and a timeout. They are the
  abstract `ai` parameter, which answers or raises. The model treats it as
  a fixed function of the provider and the prompt.
- Flask routing, `render_template`, `load_dotenv`, reading the environment
  and parsing the port are framework plumbing. The API keys are an
  `ApiKeys` input.
- `ContactView.FetchOutcome`: an OK response whose body lacks `summary` or
  `reply` is not modelled. The component would store `undefined` there. A
  non-string `error` is not modelled either. The endpoint always sends
  strings in both places.
- `ContactView.Field`: `updateField` writes whatever key the firing input
  names. Only the three inputs of the form call it, so the model allows
  only those three.
- `ContactView.ContactAssistant.activeTemplate`: the source stores the
  template's name as a string. It is only ever one of the three keys, so
  the model stores the `Template` itself.
- `Text.Lower`: lowers `A`–`Z` only, where JavaScript lowers all of
  Unicode. For the test `includes("error")` this gives the same answer:
  outside ASCII, only U+0130 and U+212A lowercase to ASCII letters, and
  those letters (i and k) are not in "error".
- `Text.IsSpace`: the whitespace of `str.strip()` is the fixed list of
  characters Python's `str.isspace()` accepts. It is not derived from the
  Unicode database.
- `AnalyzeApi.Json`: JSON numbers are reals, and duplicate keys are not
  represented. The endpoint only tests a number's truthiness.
- `data.error || "Something went wrong."` also falls back when `error` is
  the empty string (static/app.js:62). `ContactView.FailureMessage` follows
  that.
