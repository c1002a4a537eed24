/** What both versions of the widget share: the message record, the page
    state a turn works on (the transcript, the text field and the typing
    indicator), `addMessage`, and the validation at the head of
    `handleFormSubmit`. */
module Transcript {
  import opened Wrappers
  import opened JsText
  import opened Clock

  /** Who wrote a message: the `'user'` or `'ai'` argument of `addMessage`. */
  datatype Sender = User | Ai

  /** One rendered chat bubble: author, text and `HH:MM` stamp. */
  datatype Message = Message(sender: Sender, text: string, time: string)

  /** The page as a turn sees it: the messages shown so far, in order, the
      current value of the text field, and whether the "Escribiendo..."
      placeholder is on screen. */
  datatype ChatState = ChatState(messages: seq<Message>, input: string, typing: bool)

  /** The notice raised when the trimmed input is empty. */
  const EmptyInputAlert: string := "Por favor, escribe un mensaje antes de enviar."

  /** `addMessage(text, sender)`: one message stamped with the clock reading
      `now` joins the end of the transcript; nothing else changes. */
  function AddMessage(st: ChatState, text: string, sender: Sender, now: Time): (r: ChatState)
    ensures |r.messages| == |st.messages| + 1
    ensures st.messages <= r.messages
    ensures r.messages[|st.messages|].sender == sender && r.messages[|st.messages|].text == text
    ensures ValidTime(now) ==> ParseTime(r.messages[|st.messages|].time) == Some(now)
    ensures r.input == st.input && r.typing == st.typing
  {
    ParseGetCurrentTime(now);
    st.(messages := st.messages + [Message(sender, text, GetCurrentTime(now))])
  }

  /** How the opening of `handleFormSubmit` ends: the alert, or the state
      after the user's message was shown and the field cleared, together with
      the trimmed text that goes on to the reply. */
  datatype Submission =
    | Rejected(alert: string)
    | Accepted(state: ChatState, userMessage: string)

  /** Trim the field; refuse an empty result with the alert and no change,
      otherwise show the trimmed text as a user message and clear the field. */
  function SubmitUserMessage(st: ChatState, now: Time): (r: Submission)
    ensures r.Rejected? <==> AllWhitespace(st.input)
    ensures r.Rejected? ==> r.alert == EmptyInputAlert
    ensures r.Accepted? ==> r.userMessage == Trim(st.input) && r.userMessage != []
    ensures r.Accepted? ==>
              && |r.state.messages| == |st.messages| + 1
              && st.messages <= r.state.messages
              && r.state.messages[|st.messages|].sender == User
              && r.state.messages[|st.messages|].text == r.userMessage
              && r.state.input == []
              && r.state.typing == st.typing
  {
    var userMessage := Trim(st.input);
    if userMessage == [] then
      Rejected(EmptyInputAlert)
    else
      Accepted(AddMessage(st, userMessage, User, now).(input := []), userMessage)
  }

  /** `showTypingIndicator()`: the placeholder appears; it is not a message. */
  function ShowTypingIndicator(st: ChatState): (r: ChatState)
    ensures r.typing
    ensures r.messages == st.messages && r.input == st.input
  {
    st.(typing := true)
  }

  /** `hideTypingIndicator()`: the placeholder is gone afterwards, the
      transcript and field are untouched, and with no placeholder on screen
      the call changes nothing at all. */
  function HideTypingIndicator(st: ChatState): (r: ChatState)
    ensures !r.typing
    ensures r.messages == st.messages && r.input == st.input
    ensures !st.typing ==> r == st
  {
    if st.typing then st.(typing := false) else st
  }

  /** The transcript reads user, AI, user, AI, ... */
  predicate Alternates(messages: seq<Message>) {
    && |messages| % 2 == 0
    && forall i | 0 <= i < |messages| :: messages[i].sender == (if i % 2 == 0 then User else Ai)
  }

  /** A user message followed by an AI message keeps a transcript alternating. */
  lemma AlternatesExtend(before: seq<Message>, after: seq<Message>)
    requires Alternates(before)
    requires |after| == |before| + 2 && before <= after
    requires after[|before|].sender == User && after[|before| + 1].sender == Ai
    ensures Alternates(after)
  {
    var n := |before|;
    forall i | 0 <= i < |after|
      ensures after[i].sender == (if i % 2 == 0 then User else Ai)
    {
      if i < n {
        assert after[i] == before[i];
      }
    }
  }

  /** Being a prefix is transitive. */
  lemma PrefixTransitive(a: seq<Message>, b: seq<Message>, c: seq<Message>)
    requires a <= b && b <= c
    ensures a <= c
  {
    assert c[..|a|] == b[..|a|];
  }
}
