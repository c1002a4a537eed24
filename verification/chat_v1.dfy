/** Version 1 of the widget (`script.js`): a local resolver that answers from
    an ordered chain of keyword tests or, failing those, from a pool of ten
    canned replies; and the turn that shows the user's message and then the
    reply. `Math.random()` becomes the injected pool index. */
module ChatV1 {
  import opened Wrappers
  import opened JsText
  import opened Clock
  import opened Transcript

  /** `aiResponses`: the filler pool used when no keyword matches. */
  const AiResponses: seq<string> := [
    "¡Interesante! Cuéntame más sobre eso.",
    "Entiendo tu punto de vista. ¿Qué opinas sobre...?",
    "Esa es una buena pregunta. Déjame pensar...",
    "¡Excelente! Me gusta cómo piensas.",
    "Hmm, eso es algo en lo que no había pensado antes.",
    "¿Podrías explicarme un poco más?",
    "¡Qué fascinante! Sigue contándome.",
    "Creo que tienes razón en ese punto.",
    "Esa es una perspectiva muy interesante.",
    "¡Me encanta aprender cosas nuevas contigo!"
  ]

  /** The keyword groups, in the order `generateAIResponse` tests them. */
  datatype Topic = Greeting | Farewell | Thanks | AskName | WebTech

  /** Position of a group in the chain; a lower rank is tested earlier. */
  function Rank(t: Topic): nat {
    match t
    case Greeting => 0
    case Farewell => 1
    case Thanks => 2
    case AskName => 3
    case WebTech => 4
  }

  /** The fixed reply of each group. */
  function Reply(t: Topic): string {
    match t
    case Greeting => "¡Hola! ¿Cómo estás hoy? 😊"
    case Farewell => "¡Hasta luego! Fue un placer charlar contigo. 👋"
    case Thanks => "¡De nada! Siempre es un placer ayudar. 😊"
    case AskName => "Soy un asistente virtual creado para esta práctica de programación. ¡Puedes llamarme ChatBot! 🤖"
    case WebTech => "¡Excelente! Estás aprendiendo tecnologías web muy importantes. ¿Te está gustando la programación? 💻"
  }

  /** The `includes` tests of group `t` on the lowered message `m`. */
  predicate Mentions(m: string, t: Topic) {
    match t
    case Greeting => Includes(m, "hola") || Includes(m, "hi")
    case Farewell => Includes(m, "adiós") || Includes(m, "bye")
    case Thanks => Includes(m, "gracias")
    case AskName => Includes(m, "nombre")
    case WebTech => Includes(m, "html") || Includes(m, "css") || Includes(m, "javascript")
  }

  /** The `if` chain of `generateAIResponse`: the first group tested that
      the message mentions, or none. */
  function MatchTopic(m: string): Option<Topic> {
    if Mentions(m, Greeting) then Some(Greeting)
    else if Mentions(m, Farewell) then Some(Farewell)
    else if Mentions(m, Thanks) then Some(Thanks)
    else if Mentions(m, AskName) then Some(AskName)
    else if Mentions(m, WebTech) then Some(WebTech)
    else None
  }

  /** First match wins: the chain picks `t` exactly when `t` is mentioned and
      no group ranked before it is; it picks nothing exactly when no group is
      mentioned. */
  lemma FirstMatchWins(m: string, t: Topic)
    ensures MatchTopic(m) == Some(t) <==>
              Mentions(m, t) && forall u: Topic :: Rank(u) < Rank(t) ==> !Mentions(m, u)
    ensures MatchTopic(m) == None <==> forall u: Topic :: !Mentions(m, u)
  {
  }

  /** Which branch of `generateAIResponse` produced a reply: a keyword
      group, or the filler pool at some index. */
  datatype Answer = Keyword(topic: Topic) | Filler(index: nat)

  /** The branch taken for `userMessage`: lower it, take the first group it
      mentions, and otherwise the filler at the injected index. The branch is
      a keyword group exactly when some group is mentioned. */
  function Resolve(userMessage: string, poolIndex: nat): (a: Answer)
    ensures a.Keyword? <==> exists t: Topic :: Mentions(ToLower(userMessage), t)
    ensures a.Keyword? ==> Mentions(ToLower(userMessage), a.topic)
    ensures a.Filler? ==> a.index == poolIndex
  {
    match MatchTopic(ToLower(userMessage))
    case Some(t) =>
      FirstMatchWins(ToLower(userMessage), t);
      assert Mentions(ToLower(userMessage), t);
      Keyword(t)
    case None =>
      FirstMatchWins(ToLower(userMessage), Greeting);
      Filler(poolIndex)
  }

  /** The text a branch puts on screen. */
  function AnswerText(a: Answer): string
    requires a.Filler? ==> a.index < |AiResponses|
  {
    match a
    case Keyword(t) => Reply(t)
    case Filler(i) => AiResponses[i]
  }

  /** `generateAIResponse(userMessage)`: the reply of the first group the
      lowered message mentions, and otherwise the filler at the injected
      index, which is then one of the ten pool entries. */
  function GenerateAIResponse(userMessage: string, poolIndex: nat): (r: string)
    requires poolIndex < |AiResponses|
    ensures MatchTopic(ToLower(userMessage)).Some? ==> r == Reply(MatchTopic(ToLower(userMessage)).value)
    ensures MatchTopic(ToLower(userMessage)).None? ==> r == AiResponses[poolIndex] && r in AiResponses
  {
    AnswerText(Resolve(userMessage, poolIndex))
  }

  /** The message contains `w` once lowered: a case-insensitive search. */
  ghost predicate ContainsWord(userMessage: string, w: string) {
    exists i :: OccursAt(ToLower(userMessage), w, i)
  }

  /** A message containing "hola" or "hi" in any case is greeted, whatever
      other keywords it holds and whatever the pool index. */
  lemma GreetingAlwaysWins(userMessage: string, poolIndex: nat)
    requires poolIndex < |AiResponses|
    requires ContainsWord(userMessage, "hola") || ContainsWord(userMessage, "hi")
    ensures GenerateAIResponse(userMessage, poolIndex) == Reply(Greeting)
  {
    var m := ToLower(userMessage);
    IncludesIff(m, "hola");
    IncludesIff(m, "hi");
  }

  /** The farewell needs a farewell keyword and no greeting keyword; thanks
      needs neither group; the name question needs none of the first three
      groups; the web reply needs none of the first four. */
  lemma AnswerImpliesPriority(userMessage: string, poolIndex: nat, t: Topic)
    requires Resolve(userMessage, poolIndex) == Keyword(t)
    ensures Mentions(ToLower(userMessage), t)
    ensures forall u: Topic :: Rank(u) < Rank(t) ==> !Mentions(ToLower(userMessage), u)
  {
    FirstMatchWins(ToLower(userMessage), t);
  }

  /** Lowering first changes nothing: the resolver is case-insensitive. */
  lemma CaseInsensitive(userMessage: string, poolIndex: nat)
    requires poolIndex < |AiResponses|
    ensures GenerateAIResponse(userMessage, poolIndex) == GenerateAIResponse(ToLower(userMessage), poolIndex)
  {
    ToLowerIdempotent(userMessage);
  }

  /** A keyword-matched message gets the same reply for every pool index. */
  lemma KeywordReplyIgnoresPool(userMessage: string, i: nat, j: nat)
    requires i < |AiResponses| && j < |AiResponses|
    requires exists t: Topic :: Mentions(ToLower(userMessage), t)
    ensures GenerateAIResponse(userMessage, i) == GenerateAIResponse(userMessage, j)
  {
    var t: Topic :| Mentions(ToLower(userMessage), t);
    FirstMatchWins(ToLower(userMessage), t);
  }

  /** The outcome of one `handleFormSubmit`: the page state afterwards and
      the alert, if one was raised. */
  datatype TurnResult = TurnResult(state: ChatState, alert: Option<string>)

  /** `handleFormSubmit` with its delayed callback run to completion. An
      input that trims to nothing raises the alert and changes nothing.
      Otherwise the transcript grows by the trimmed user message and then by
      exactly one reply resolved from that same text; the field is cleared. */
  function HandleFormSubmit(st: ChatState, poolIndex: nat, sentAt: Time, repliedAt: Time): (r: TurnResult)
    requires poolIndex < |AiResponses|
    ensures AllWhitespace(st.input) ==> r.state == st && r.alert == Some(EmptyInputAlert)
    ensures !AllWhitespace(st.input) ==>
              && r.alert == None
              && |r.state.messages| == |st.messages| + 2
              && st.messages <= r.state.messages
              && r.state.messages[|st.messages|].sender == User
              && r.state.messages[|st.messages|].text == Trim(st.input)
              && r.state.messages[|st.messages| + 1].sender == Ai
              && r.state.messages[|st.messages| + 1].text == GenerateAIResponse(Trim(st.input), poolIndex)
              && r.state.input == []
              && r.state.typing == st.typing
  {
    var submitted := SubmitUserMessage(st, sentAt);
    if submitted.Rejected? then
      TurnResult(st, Some(submitted.alert))
    else
      TurnResult(AddMessage(submitted.state, GenerateAIResponse(submitted.userMessage, poolIndex), Ai, repliedAt), None)
  }

  /** A turn keeps the transcript's shape: it only grows, by two messages
      exactly when the submission is accepted, and it still alternates user
      and AI. */
  lemma TurnKeepsTranscriptShape(st: ChatState, poolIndex: nat, sentAt: Time, repliedAt: Time)
    requires poolIndex < |AiResponses|
    requires Alternates(st.messages)
    ensures var next := HandleFormSubmit(st, poolIndex, sentAt, repliedAt).state;
            && st.messages <= next.messages
            && |next.messages| == |st.messages| + (if AllWhitespace(st.input) then 0 else 2)
            && Alternates(next.messages)
  {
    if !AllWhitespace(st.input) {
      AlternatesExtend(st.messages, HandleFormSubmit(st, poolIndex, sentAt, repliedAt).state.messages);
    }
  }

  /** The greeting scenario: "Hola, ¿cómo estás?" is shown exactly as typed
      and answered with the greeting. */
  lemma HolaScenario(st: ChatState, poolIndex: nat, sentAt: Time, repliedAt: Time)
    requires poolIndex < |AiResponses|
    requires st.input == HolaInput
    ensures var r := HandleFormSubmit(st, poolIndex, sentAt, repliedAt);
            && r.alert == None
            && r.state.messages[|st.messages|].text == HolaInput
            && r.state.messages[|st.messages| + 1].text == Reply(Greeting)
  {
    HolaIsTrimmed();
    OpensWithHola(st.input);
  }

  const HolaInput: string := "Hola, ¿cómo estás?"

  lemma HolaIsTrimmed()
    ensures Trim(HolaInput) == HolaInput
  {
    var s := HolaInput;
    assert !IsWhitespace(s[0]) && !IsWhitespace(s[|s| - 1]);
    assert LeadingWhitespace(s) == 0;
    assert TrailingWhitespaceStart(s) == |s|;
    assert s[0..|s|] == s;
  }

  /** A message opening with "hola" in any case is matched as a greeting. */
  lemma OpensWithHola(s: string)
    requires |s| >= 4
    requires ToLowerChar(s[0]) == 'h' && ToLowerChar(s[1]) == 'o'
    requires ToLowerChar(s[2]) == 'l' && ToLowerChar(s[3]) == 'a'
    ensures MatchTopic(ToLower(s)) == Some(Greeting)
  {
    var m := ToLower(s);
    assert m[..4] == "hola";
    assert Mentions(m, Greeting);
  }
}
