# Chat widget model

A Dafny model of the decision logic of a two-version browser chat widget.

- **Version 1** (`script.js`) answers locally. It lowercases the user's
  message and runs an ordered chain of keyword tests, and the first group
  that matches gives a fixed reply. The groups are greeting, farewell,
  thanks, name question and web technologies. When nothing matches, the
  reply is drawn from a pool of ten filler replies.
- **Version 2** (`v2/script.js`) posts the message to a remote endpoint
  while a typing indicator is shown. It takes the reply from the answer's
  `response` field, else its `output` field, else a fixed "no reply" text.
  When the exchange fails, it shows one of three fallback replies instead.

In both versions a submission is trimmed first. Empty input only raises an
alert. Otherwise the transcript gains the user's message and then exactly
one AI message, each stamped `HH:MM`.

Modules:

- `Wrappers`: `Option` and `Result`.
- `JsText`: the JavaScript string operations the widget uses: `trim`,
  `toLowerCase`, `includes`, `padStart` and integer `toString`.
- `Clock`: `getCurrentTime`.
- `Transcript`: the message record and the page state. The page state is
  the transcript, the text field and the typing indicator flag. The module
  also holds `addMessage`, the validation that opens `handleFormSubmit` in
  both versions, and the indicator operations.
- `ChatV1`: the keyword resolver and the version 1 turn.
- `ChatV2`: the request, the reply extraction with JavaScript `||`
  truthiness, the fallback and the version 2 turn.

Inputs stand in for everything that is not logic:

- The clock reading is a `Time` parameter.
- `Math.floor(Math.random() * n)` is an injected index below `n`.
- How `fetch` and `response.json()` settled is a `NetOutcome`. It is one of:
  transport error; a status with a body that is not JSON; a `null` body; or
  any other JSON value, summarised by its two fields.

The v1 `setTimeout` callback is treated as running right after the user's
message is shown.

Two consequences of the code are worth stating:

- The user message that is shown and sent is the **trimmed** input
  (script.js:52, 61; v2/script.js:55, 64, 74).
- A JSON body that is `null` makes reading `data.response` throw, so the
  turn shows a fallback reply (v2/script.js:158-167, 82-90). So does an
  answer whose `response` is an object without a usable string conversion:
  the template literal in `addMessage` throws before anything is appended
  (v2/script.js:113-118), and the `catch` shows a fallback reply.

## Model

| member | source | states |
|---|---|---|
| JsText.Trim | script.js:52 | the trimmed text is a contiguous block of the input framed only by whitespace; it is empty exactly when the input is all whitespace, and otherwise starts and ends with a non-whitespace character |
| JsText.TrimIdempotent | v2/script.js:55 | trimming an already trimmed message changes nothing |
| JsText.LeadingWhitespace | script.js:52 | the leading run it measures is all whitespace and is followed by a non-whitespace character or the end |
| JsText.ToLower | script.js:112 | lowering keeps the length and lowers every character independently (Latin-1 capitals) |
| JsText.IncludesIff | script.js:115-131 | the `includes` scan succeeds exactly when the keyword occurs at some position of the message |
| JsText.ToDecimal | script.js:143-144 | `toString` of a non-negative integer is a digit string without leading zero that reads back as the number |
| JsText.PadStart | script.js:143-144 | `padStart` gives the requested width (or keeps a longer string), the original as suffix, and only fill characters before it |
| Clock.TwoDigits | script.js:143-144 | every value below 100 becomes exactly two digits that read back as the value |
| Clock.GetCurrentTime | script.js:141-146 | for hours below 24 and minutes below 60 the stamp has length 5, a colon at position 2 and digits elsewhere |
| Clock.ParseGetCurrentTime | v2/script.js:201-206 | reading the stamp back gives the same hour and minute, so each field is zero-padded to two digits |
| Transcript.AddMessage | script.js:74-107 | one message with the given author and text joins the end of the transcript, earlier messages unchanged; its stamp reads back as the clock reading |
| Transcript.SubmitUserMessage | script.js:52-64 | empty-after-trim input is rejected with the alert and nothing else; otherwise the trimmed, non-empty text is appended as a user message and the field is cleared |
| Transcript.ShowTypingIndicator | v2/script.js:172-184 | the indicator is on and neither the transcript nor the field changes |
| Transcript.HideTypingIndicator | v2/script.js:187-192 | afterwards no indicator is present, the transcript is untouched, and with no indicator present the call is a no-op |
| ChatV1.FirstMatchWins | script.js:115-133 | the chain picks a group exactly when that group is mentioned and no earlier group is, and picks none exactly when no group is mentioned |
| ChatV1.Resolve | script.js:110-137 | a keyword reply is chosen exactly when some keyword group is mentioned, and the chosen group is mentioned; otherwise the filler at the injected index |
| ChatV1.GenerateAIResponse | script.js:110-138 | a matched message gets the fixed reply of its first group; an unmatched one gets `aiResponses[i]`, one of the ten literals |
| ChatV1.GreetingAlwaysWins | script.js:112-117 | a message containing "hola" or "hi" in any case gets the greeting, whatever else it contains and whatever the pool index |
| ChatV1.AnswerImpliesPriority | script.js:119-133 | a group's reply is given only if the group is mentioned and no group tested before it is |
| ChatV1.CaseInsensitive | script.js:112 | the reply for a message equals the reply for its lowercased form with the same pool index |
| ChatV1.KeywordReplyIgnoresPool | script.js:115-133 | when some keyword group is mentioned the reply is the same for every pool index |
| ChatV1.HandleFormSubmit | script.js:47-71 | empty-after-trim input leaves the page unchanged and raises the alert; otherwise exactly two messages are appended, the trimmed user text and then the reply resolved from that same text, and the field is cleared |
| ChatV1.TurnKeepsTranscriptShape | script.js:55-70 | a turn only appends, adds two messages exactly when accepted, and keeps the transcript alternating user/AI |
| ChatV1.OpensWithHola | script.js:112-116 | a message opening with "hola" in any capitalisation is matched as a greeting |
| ChatV1.HolaScenario | script.js:52-69 | submitting "Hola, ¿cómo estás?" shows that exact text and then the greeting |
| ChatV2.ShippedConfigRequest | v2/script.js:23-28 | with the shipped `API_CONFIG` the request goes to `https://api.ejemplo.com/chat` and carries `tu-api-key-aqui` as its bearer token |
| ChatV2.BuildRequest | v2/script.js:134-150 | the request is a JSON POST to the configured endpoint with body `{message}`, the `session` header "2", and an authorization value that yields the configured key back as a bearer token |
| ChatV2.GetAIResponse | v2/script.js:131-169 | it fails exactly on a transport error, a status outside 200..299, a non-JSON body or a `null` body; otherwise it returns a truthy `response`, else a truthy `output`, else the no-reply text, and always a truthy value |
| ChatV2.StringFieldPreference | v2/script.js:163 | with string fields: a non-empty `response`, else a non-empty `output`, else "Lo siento, no pude generar una respuesta." |
| ChatV2.GetFallbackResponse | v2/script.js:195-198 | the fallback is `fallbackResponses[i]` for the injected index, so always one of the three literals |
| ChatV2.Render | v2/script.js:113-118 | the template literal throws exactly for an object without a usable string conversion; a printable object gives its carried text; a boolean gives "true" or "false"; a string is inserted unchanged; a number is written in canonical decimal (an optional minus sign, then digits with no leading zero, never "-0") that reads back as the number |
| ChatV2.ReplyText | v2/script.js:72-91 | a failed exchange, or an answer whose rendering throws, shows `fallbackResponses[i]`; otherwise the message is the rendered value `getAIResponse` returned |
| ChatV2.HandleFormSubmit | v2/script.js:50-92 | empty-after-trim input raises the alert and sends nothing; otherwise the trimmed text is shown and sent, the indicator is on while awaiting, it is cleared with the transcript unchanged before exactly one AI message is appended, and afterwards it is absent |
| ChatV2.FailureShowsFallback | v2/script.js:82-90 | when the exchange fails, the message after the user's is `fallbackResponses[i]` and no indicator remains |
| ChatV2.UnprintableAnswerShowsFallback | v2/script.js:72-90 | a successful answer whose `response` cannot be converted to a string ends with `fallbackResponses[i]` as the AI message and no indicator |
| ChatV2.TurnKeepsTranscriptShape | v2/script.js:55-91 | a settled turn only appends, adds two messages exactly when accepted, keeps user/AI alternation and leaves no indicator |
| ChatV2.RunKeepsTranscriptShape | v2/script.js:50-92 | over any sequence of settled turns the transcript only grows, by two per accepted submission, stays alternating, and ends with no indicator |

## Left out

- DOM work is left out, because the model keeps the transcript as data
  rather than as a document. This covers element creation, the `innerHTML`
  markup (which does not escape the text), sender labels, scrolling, focus,
  the alert dialog and `console` logging. The alert is modelled only as the
  text it shows.
- ChatV2.HandleFormSubmit: a message whose markup carries
  `id="typing-indicator"` is not modelled. For example,
  `<b id="typing-indicator">hola</b>` is inserted unescaped into the user's
  bubble before the indicator is shown. `getElementById` then finds that
  element first, so `hideTypingIndicator` removes it and the real indicator
  stays on screen, in this and every later turn. The "no indicator remains"
  clauses of this member, `ChatV2.TurnKeepsTranscriptShape` and
  `ChatV2.RunKeepsTranscriptShape` hold only for messages without such
  markup, since the document is not modelled.
- `fetch`, HTTP transport and JSON parsing are left out. Their result is the
  `NetOutcome` input. The `statusText` in the thrown error's message is not
  kept, and neither is any logging.
- Objects and arrays carry the text a template literal makes of them, or its
  absence when that conversion throws, as given data, because JavaScript's
  object-to-string conversion is outside this model.
- `setTimeout` and its one-second delay are left out. In version 1 the reply
  follows the user's message with nothing in between.
- `Date` and `Math.random` are parameters. The indices are required to be
  below the pool size, which `Math.floor(Math.random() * n)` always gives.
- Overlapping submissions while a request is in flight are left out. So is
  the single shared `typing-indicator` element id. The indicator is one
  flag, and turns are modelled as settling one after another.
- The Enter-key handler and the input-length log handler are left out as
  browser event wiring.
- DOM failures inside the `try` are left out. The one non-DOM exception
  there, a value whose string conversion throws in `addMessage`, is
  modelled.
- ChatV2.Render, ChatV2.GetAIResponse, ChatV2.ReplyText: JSON numbers are safe integers only (magnitude at most
  2^53 - 1). Fractions, values of 10^21 and above, which `${n}` prints in
  exponent form such as `1e+21`, and integers that `JSON.parse` rounds to a
  neighbouring double are left out.
- JsText.ToLower: covers ASCII and Latin-1 capitals only, not the full
  Unicode case mapping of `toLowerCase`. The "ó" of "adiós" is covered.
  Capitals outside Latin-1 whose lowercase contains a keyword letter do not
  match in the model although they do in the source. For example, U+0130
  lowers to "i" followed by U+0307, so "Hİ" gets the greeting in the source
  and a filler reply in the model.
- JsText.Trim: whitespace is the ECMAScript WhiteSpace and LineTerminator
  set with the Unicode 15 space separators. A later Unicode version could
  add separators.
