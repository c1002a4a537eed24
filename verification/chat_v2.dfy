/** Version 2 of the widget (`v2/script.js`): each turn posts the trimmed
    message to a remote endpoint while a typing indicator is shown, then shows
    the reply extracted from the answer or, when the exchange fails, one of
    three fallback replies. The network's answer and `Math.random()` are
    inputs; `fetch` and `response.json()` are summarised by `NetOutcome`. */
module ChatV2 {
  import opened Wrappers
  import opened JsText
  import opened Clock
  import opened Transcript

  /** `API_CONFIG`: where requests go and the credential they carry. */
  datatype Config = Config(endpoint: string, apiKey: string)

  /** The placeholder configuration the page ships with. */
  const ApiConfig: Config := Config("https://api.ejemplo.com/chat", "tu-api-key-aqui")

  /** `fallbackResponses`: what the page says when the exchange fails. */
  const FallbackResponses: seq<string> := [
    "Lo siento, no pude conectarme al servidor. ¿Podrías intentar de nuevo?",
    "Parece que hay un problema de conexión. Inténtalo más tarde.",
    "No pude procesar tu mensaje en este momento. ¿Puedes repetirlo?"
  ]

  /** The reply used when the answer carries neither usable field. */
  const NoReplyText: string := "Lo siento, no pude generar una respuesta."

  /** The three headers of the request; the numeric `session: 2` travels as
      the text "2". */
  datatype Headers = Headers(contentType: string, authorization: string, session: string)

  /** The JSON body `{message: ...}`. */
  datatype Payload = Payload(message: string)

  /** The options `fetch` is called with, plus the target URL. */
  datatype Request = Request(httpMethod: string, url: string, headers: Headers, body: Payload)

  /** The credential carried by a bearer authorization value, if it is one. */
  function BearerToken(authorization: string): Option<string> {
    if "Bearer " <= authorization then Some(authorization[|"Bearer "|..]) else None
  }

  /** The request `getAIResponse` sends: a JSON POST to the configured
      endpoint whose body carries the message and whose authorization value
      yields exactly the configured key back. */
  function BuildRequest(config: Config, userMessage: string): (req: Request)
    ensures req.httpMethod == "POST" && req.url == config.endpoint
    ensures req.headers.contentType == "application/json"
    ensures BearerToken(req.headers.authorization) == Some(config.apiKey)
    ensures req.headers.session == "2"
    ensures req.body == Payload(userMessage)
  {
    var authorization := "Bearer " + config.apiKey;
    assert authorization[|"Bearer "|..] == config.apiKey;
    Request("POST", config.endpoint, Headers("application/json", authorization, "2"), Payload(userMessage))
  }

  /** The integers `JSON.parse` yields exactly: magnitude at most 2^53 - 1
      (`Number.MAX_SAFE_INTEGER`). */
  type SafeInteger = n: int | -0x1F_FFFF_FFFF_FFFF <= n <= 0x1F_FFFF_FFFF_FFFF

  /** The JavaScript values a field of the parsed answer can hold. Numbers
      are safe integers. Objects and arrays are `Composite`, carrying the text
      a template literal makes of them, or `None` when that conversion throws
      (an object whose `toString` and `valueOf` give no primitive, such as
      `{"toString": 0}`). */
  datatype JsValue =
    | Undefined
    | Null
    | Bool(b: bool)
    | Number(n: SafeInteger)
    | Str(s: string)
    | Composite(rendering: Option<string>)

  /** JavaScript truthiness: `undefined`, `null`, `false`, `0` and `""` are
      falsy, everything else is truthy. */
  predicate Truthy(v: JsValue) {
    match v
    case Undefined => false
    case Null => false
    case Bool(b) => b
    case Number(n) => n != 0
    case Str(s) => s != []
    case Composite(_) => true
  }

  /** `a || b`: the left operand when it is truthy, else the right one. */
  function Or(a: JsValue, b: JsValue): JsValue {
    if Truthy(a) then a else b
  }

  /** `${v}`: the text a template literal makes of a value, or `None` when
      the conversion throws a `TypeError`. Only an object without a usable
      string conversion throws; a string is inserted as it is; a number is
      written in plain decimal and reads back as itself. */
  function Render(v: JsValue): (r: Option<string>)
    ensures r.None? <==> v.Composite? && v.rendering.None?
    ensures v.Str? ==> r == Some(v.s)
    ensures v.Composite? ==> r == v.rendering
    ensures v.Bool? ==> r == Some(if v.b then "true" else "false")
    ensures v.Number? ==> r.Some? && ReadInteger(r.value) == Some(v.n as int)
    ensures v.Number? && v.n >= 0 ==> AllDigits(r.value) && (|r.value| > 1 ==> r.value[0] != '0')
    ensures v.Number? && v.n < 0 ==> |r.value| >= 2 && r.value[0] == '-' && r.value[1] != '0'
  {
    match v
    case Undefined => Some("undefined")
    case Null => Some("null")
    case Bool(b) => Some(if b then "true" else "false")
    case Number(n) =>
      if n < 0 then
        var d := ToDecimal(-n);
        assert ("-" + d)[1..] == d;
        Some("-" + d)
      else
        Some(ToDecimal(n))
    case Str(s) => Some(s)
    case Composite(rendering) => rendering
  }

  /** What `response.json()` makes of a body: no JSON at all; the JSON value
      `null`, on which reading a field throws; or any other JSON value,
      summarised by its `response` and `output` fields (`Undefined` when
      absent, as for a number or a string). */
  datatype Body = Malformed | JsonNull | JsonData(response: JsValue, output: JsValue)

  /** How the single `fetch` settled: it rejected, or a response arrived. */
  datatype NetOutcome = NetworkError | HttpResponse(status: int, body: Body)

  /** Why `getAIResponse` threw. */
  datatype Thrown = FetchRejected | HttpError(status: int) | BadJson | NullData

  /** `response.ok`. */
  predicate StatusOk(status: int) {
    200 <= status <= 299
  }

  /** The exchange fails: transport error, a status outside 200..299, a body
      that is not JSON, or a `null` body. */
  predicate Fails(outcome: NetOutcome) {
    || outcome.NetworkError?
    || !StatusOk(outcome.status)
    || outcome.body.Malformed?
    || outcome.body.JsonNull?
  }

  /** `getAIResponse(userMessage)` once its request has settled. It throws
      exactly when the exchange fails. Otherwise it returns a truthy
      `response` field, else a truthy `output` field, else the no-reply
      text; whatever it returns is truthy. */
  function GetAIResponse(outcome: NetOutcome): (r: Result<JsValue, Thrown>)
    ensures r.Failure? <==> Fails(outcome)
    ensures r.Success? ==> Truthy(r.value)
    ensures r.Success? && Truthy(outcome.body.response) ==> r.value == outcome.body.response
    ensures r.Success? && !Truthy(outcome.body.response) && Truthy(outcome.body.output) ==>
              r.value == outcome.body.output
    ensures r.Success? && !Truthy(outcome.body.response) && !Truthy(outcome.body.output) ==>
              r.value == Str(NoReplyText)
  {
    match outcome
    case NetworkError => Failure(FetchRejected)
    case HttpResponse(status, body) =>
      if !StatusOk(status) then Failure(HttpError(status))
      else
        match body
        case Malformed => Failure(BadJson)
        case JsonNull => Failure(NullData)
        case JsonData(response, output) => Success(Or(response, Or(output, Str(NoReplyText))))
  }

  /** A JSON field that is either a string or absent. */
  function StringField(field: Option<string>): JsValue {
    match field
    case Some(s) => Str(s)
    case None => Undefined
  }

  /** With string fields, a successful answer yields its non-empty
      `response`, else its non-empty `output`, else the no-reply text. */
  lemma StringFieldPreference(status: int, response: Option<string>, output: Option<string>)
    requires StatusOk(status)
    ensures GetAIResponse(HttpResponse(status, JsonData(StringField(response), StringField(output))))
            == Success(Str(
                 if response.Some? && response.value != [] then response.value
                 else if output.Some? && output.value != [] then output.value
                 else NoReplyText))
  {
  }

  /** `getFallbackResponse()` with the random index injected: always one of
      the three fallback literals. */
  function GetFallbackResponse(fallbackIndex: nat): (r: string)
    requires fallbackIndex < |FallbackResponses|
    ensures r == FallbackResponses[fallbackIndex] && r in FallbackResponses
  {
    FallbackResponses[fallbackIndex]
  }

  /** With the shipped configuration the request goes to the placeholder
      endpoint and carries the placeholder key as its bearer token. */
  lemma ShippedConfigRequest(userMessage: string)
    ensures BuildRequest(ApiConfig, userMessage).url == "https://api.ejemplo.com/chat"
    ensures BearerToken(BuildRequest(ApiConfig, userMessage).headers.authorization) == Some("tu-api-key-aqui")
  {
  }

  /** How a `handleFormSubmit` call ends: the alert with nothing sent and
      nothing changed, or a completed exchange given by the request sent and
      the page at three moments: while awaiting the answer, right after the
      indicator is hidden, and once the reply is shown. */
  datatype TurnResult =
    | Alerted(alert: string)
    | Completed(request: Request, awaiting: ChatState, cleared: ChatState, final: ChatState)

  /** The turn ends in the `catch` branch: `getAIResponse` threw, or it
      returned a value whose string conversion throws inside `addMessage`,
      before that call appends anything. */
  predicate ShowsFallback(outcome: NetOutcome) {
    Fails(outcome) || Render(GetAIResponse(outcome).value).None?
  }

  /** The text of the AI message a settled exchange leaves on screen: the
      rendered answer, or the fallback at the injected index when the turn
      ends in the `catch` branch. */
  function ReplyText(outcome: NetOutcome, fallbackIndex: nat): (text: string)
    requires fallbackIndex < |FallbackResponses|
    ensures ShowsFallback(outcome) ==> text == FallbackResponses[fallbackIndex]
    ensures !ShowsFallback(outcome) ==> Render(GetAIResponse(outcome).value) == Some(text)
  {
    match GetAIResponse(outcome)
    case Success(v) =>
      (match Render(v)
       case Some(text) => text
       case None => GetFallbackResponse(fallbackIndex))
    case Failure(_) => GetFallbackResponse(fallbackIndex)
  }

  /** `handleFormSubmit` from submit until the request settles. An input
      that trims to nothing raises the alert and sends nothing. Otherwise the
      trimmed text is shown as a user message, the field is cleared, the
      indicator appears and the request carrying that text is sent; once the
      answer is in, the indicator is hidden first, leaving the transcript as
      it was, and only then is exactly one AI message appended. */
  function HandleFormSubmit(st: ChatState, config: Config, outcome: NetOutcome, fallbackIndex: nat,
                            sentAt: Time, repliedAt: Time): (r: TurnResult)
    requires fallbackIndex < |FallbackResponses|
    ensures r.Alerted? <==> AllWhitespace(st.input)
    ensures r.Alerted? ==> r.alert == EmptyInputAlert
    ensures r.Completed? ==>
              && r.request.body.message == Trim(st.input)
              && r.request == BuildRequest(config, Trim(st.input))
              && r.awaiting.typing
              && r.awaiting.input == []
              && |r.awaiting.messages| == |st.messages| + 1
              && st.messages <= r.awaiting.messages
              && r.awaiting.messages[|st.messages|].sender == User
              && r.awaiting.messages[|st.messages|].text == Trim(st.input)
    ensures r.Completed? ==>
              && !r.cleared.typing
              && r.cleared.messages == r.awaiting.messages
              && r.cleared.input == r.awaiting.input
    ensures r.Completed? ==>
              && !r.final.typing
              && r.final.input == []
              && |r.final.messages| == |st.messages| + 2
              && r.cleared.messages <= r.final.messages
              && r.final.messages[|st.messages| + 1].sender == Ai
              && r.final.messages[|st.messages| + 1].text == ReplyText(outcome, fallbackIndex)
  {
    match SubmitUserMessage(st, sentAt)
    case Rejected(alert) => Alerted(alert)
    case Accepted(shown, userMessage) =>
      var request := BuildRequest(config, userMessage);
      var awaiting := ShowTypingIndicator(shown);
      var cleared := HideTypingIndicator(awaiting);
      var final := AddMessage(cleared, ReplyText(outcome, fallbackIndex), Ai, repliedAt);
      Completed(request, awaiting, cleared, final)
  }

  /** A failed exchange ends with one fallback reply after the user's
      message, and the indicator gone. */
  lemma FailureShowsFallback(st: ChatState, config: Config, outcome: NetOutcome, fallbackIndex: nat,
                             sentAt: Time, repliedAt: Time)
    requires fallbackIndex < |FallbackResponses|
    requires !AllWhitespace(st.input) && Fails(outcome)
    ensures var r := HandleFormSubmit(st, config, outcome, fallbackIndex, sentAt, repliedAt);
            && r.Completed?
            && r.final.messages[|st.messages| + 1].text == FallbackResponses[fallbackIndex]
            && !r.final.typing
  {
  }

  /** An answer whose `response` is an object without a usable string
      conversion makes `addMessage` throw inside the `try`; the `catch`
      then shows a fallback reply in its place, and no indicator remains. */
  lemma UnprintableAnswerShowsFallback(st: ChatState, config: Config, status: int, output: JsValue,
                                       fallbackIndex: nat, sentAt: Time, repliedAt: Time)
    requires fallbackIndex < |FallbackResponses|
    requires !AllWhitespace(st.input) && StatusOk(status)
    ensures var r := HandleFormSubmit(st, config, HttpResponse(status, JsonData(Composite(None), output)),
                                      fallbackIndex, sentAt, repliedAt);
            && r.Completed?
            && r.final.messages[|st.messages| + 1].text == FallbackResponses[fallbackIndex]
            && !r.final.typing
  {
    var outcome := HttpResponse(status, JsonData(Composite(None), output));
    assert GetAIResponse(outcome) == Success(Composite(None));
    assert ShowsFallback(outcome);
  }

  /** The page after a call: unchanged when alerted, the final page otherwise. */
  function After(st: ChatState, r: TurnResult): ChatState {
    if r.Alerted? then st else r.final
  }

  /** One user action: type `typed` into the field and submit; the answer
      that comes back, the random fallback index and the clock readings are
      part of the action. */
  datatype Exchange = Exchange(typed: string, outcome: NetOutcome, fallbackIndex: nat,
                               sentAt: Time, repliedAt: Time)

  predicate ValidExchanges(xs: seq<Exchange>) {
    forall k | 0 <= k < |xs| :: xs[k].fallbackIndex < |FallbackResponses|
  }

  /** A session of turns, each one settling before the next starts. */
  function Run(st: ChatState, config: Config, xs: seq<Exchange>): ChatState
    requires ValidExchanges(xs)
    decreases |xs|
  {
    if xs == [] then st
    else
      var x := xs[0];
      var typed := st.(input := x.typed);
      var next := After(typed, HandleFormSubmit(typed, config, x.outcome, x.fallbackIndex, x.sentAt, x.repliedAt));
      Run(next, config, xs[1..])
  }

  /** How many of the actions submit something other than whitespace. */
  function AcceptedCount(xs: seq<Exchange>): nat {
    if xs == [] then 0
    else (if AllWhitespace(xs[0].typed) then 0 else 1) + AcceptedCount(xs[1..])
  }

  /** One settled turn keeps the transcript's shape: it only grows, by two
      messages exactly when the submission is accepted, it still alternates,
      and no indicator is left on screen. */
  lemma TurnKeepsTranscriptShape(st: ChatState, config: Config, outcome: NetOutcome, fallbackIndex: nat,
                                 sentAt: Time, repliedAt: Time)
    requires fallbackIndex < |FallbackResponses|
    requires Alternates(st.messages) && !st.typing
    ensures var next := After(st, HandleFormSubmit(st, config, outcome, fallbackIndex, sentAt, repliedAt));
            && st.messages <= next.messages
            && |next.messages| == |st.messages| + (if AllWhitespace(st.input) then 0 else 2)
            && Alternates(next.messages)
            && !next.typing
  {
    var r := HandleFormSubmit(st, config, outcome, fallbackIndex, sentAt, repliedAt);
    if r.Completed? {
      var n := |st.messages|;
      assert r.final.messages[n] == r.awaiting.messages[n];
      AlternatesExtend(st.messages, r.final.messages);
    }
  }

  /** Over a whole session of settled turns the transcript only grows, by two
      messages per accepted submission, keeps alternating user and AI, and no
      indicator is left on screen. */
  lemma {:induction false} RunKeepsTranscriptShape(st: ChatState, config: Config, xs: seq<Exchange>)
    requires ValidExchanges(xs)
    requires Alternates(st.messages) && !st.typing
    ensures var end := Run(st, config, xs);
            && st.messages <= end.messages
            && |end.messages| == |st.messages| + 2 * AcceptedCount(xs)
            && Alternates(end.messages)
            && !end.typing
    decreases |xs|
  {
    if xs != [] {
      var x := xs[0];
      var typed := st.(input := x.typed);
      TurnKeepsTranscriptShape(typed, config, x.outcome, x.fallbackIndex, x.sentAt, x.repliedAt);
      var next := After(typed, HandleFormSubmit(typed, config, x.outcome, x.fallbackIndex, x.sentAt, x.repliedAt));
      assert ValidExchanges(xs[1..]);
      RunKeepsTranscriptShape(next, config, xs[1..]);
      var end := Run(next, config, xs[1..]);
      assert end == Run(st, config, xs);
      PrefixTransitive(st.messages, next.messages, end.messages);
      assert AcceptedCount(xs) == (if AllWhitespace(x.typed) then 0 else 1) + AcceptedCount(xs[1..]);
    }
  }
}
