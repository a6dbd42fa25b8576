/** The chat component on the submitter's side: a visible message log that
    opens with a greeting, the text being typed, a busy flag and the round
    counter. Each asynchronous operation is split at its await into the
    part that runs before the call and the part that runs on its result. */
module ChatInterface {
  import opened Base
  import opened Text
  import opened Messages
  import AiChat

  /** The component's `suggestion` prop: the fields of a stored suggestion
      its logic reads (its declared `department` prop is only printed in the
      header, and the dashboard's rows have no such field). It is a type of
      its own, apart from the dashboard's table row, because the component
      declares its own narrower prop type; `Dashboard.ChatFor` projects a
      row onto it. */
  datatype Suggestion = Suggestion(
    id: string,
    title: string,
    description: string,
    aiConversation: seq<Message>)

  datatype ChatState = ChatState(
    messages: seq<Message>,
    input: string,
    loading: bool,
    round: nat,
    isComplete: bool)

  /** A write to the suggestion's row: the conversation column and, when
      present, the status column. */
  datatype Write = Write(aiConversation: seq<Message>, status: Option<string>)

  /** The state after an operation settles, and the row update it issued. */
  datatype Step = Step(state: ChatState, write: Option<Write>)

  /** The opening assistant message, addressed to the suggestion. */
  function Greeting(title: string, description: string): (m: Message)
    ensures m.role == Assistant
  {
    Message(Assistant, GreetingOpening + title + "\". " + description + GreetingClosing)
  }

  const GreetingOpening := "Hej! Jeg kan se, at du gerne vil arbejde med: \""

  const GreetingClosing :=
    "\n\nLad os sammen udvikle idéen uden svære fagudtryk. Husk, næsten alt kan lade sig gøre. Hvilket problem vil du gerne løse?"

  /** The state the component mounts with: the greeting, then the stored
      conversation; the round is the number of stored submitter messages,
      so the greeting never counts. */
  function Init(sg: Suggestion): (s: ChatState)
    ensures s.messages == [Greeting(sg.title, sg.description)] + sg.aiConversation
    ensures s.round == CountUser(sg.aiConversation) == CountUser(s.messages)
    ensures s.input == "" && !s.loading && !s.isComplete
  {
    CountUserAfterAssistant(Greeting(sg.title, sg.description), sg.aiConversation);
    ChatState([Greeting(sg.title, sg.description)] + sg.aiConversation, "", false,
      CountUser(sg.aiConversation), false)
  }

  /** Typing into the input field. */
  function Edit(s: ChatState, text: string): ChatState {
    s.(input := text)
  }

  /** The conversation as stored: the visible log without its first entry,
      the greeting. */
  function Persisted(messages: seq<Message>): (r: seq<Message>)
    ensures |messages| > 0 ==> [messages[0]] + r == messages
    ensures |messages| == 0 ==> r == []
  {
    if |messages| == 0 then [] else messages[1..]
  }

  /** The guard of `sendMessage`: something other than whitespace typed,
      no call in flight, and the round below the cap. */
  predicate Accepts(s: ChatState) {
    Trim(s.input) != "" && !s.loading && s.round < AiChat.MaxRounds
  }

  /** `sendMessage` up to its await: either nothing happens, or the trimmed
      input is appended as a submitter message, the input is cleared, the
      component turns busy, and the whole log is posted. */
  datatype Begin = Ignored | Started(state: ChatState, body: AiChat.Body)

  function BeginSend(s: ChatState, suggestionId: string): (b: Begin)
    ensures b.Ignored? <==> !Accepts(s)
    ensures b.Started? ==>
      && b.state.messages == s.messages + [Message(User, Trim(s.input))]
      && b.state.input == "" && b.state.loading
      && b.state.round == s.round && b.state.isComplete == s.isComplete
      && b.body == AiChat.Body(AiChat.Present(b.state.messages), Some(suggestionId))
    ensures b.Started? ==> CountUser(b.state.messages) == CountUser(s.messages) + 1
  {
    if !Accepts(s) then Ignored
    else
      var log := s.messages + [Message(User, Trim(s.input))];
      CountUserSnoc(s.messages, Message(User, Trim(s.input)));
      Started(s.(messages := log, input := "", loading := true), AiChat.Body(AiChat.Present(log), Some(suggestionId)))
  }

  /** `sendMessage` after its await, applied to the state `BeginSend` left.
      On an answer the reply is appended, the round becomes the reported
      one (or one more when the report is falsy), and the log is stored.
      Anything else is a failed call: the submitter's message stays, the
      round stays, nothing is stored. Either way the component is idle. */
  function Receive(s: ChatState, resp: AiChat.Response): (st: Step)
    ensures resp.Answer? ==>
      && st.state.messages == s.messages + [Message(Assistant, resp.message)]
      && st.state.round == (if resp.conversationRound != 0 then resp.conversationRound else s.round + 1)
      && st.write == Some(Write(Persisted(st.state.messages), None))
      && CountUser(st.state.messages) == CountUser(s.messages)
    ensures !resp.Answer? ==> st == Step(s.(loading := false), None)
    ensures !st.state.loading && st.state.input == s.input && st.state.isComplete == s.isComplete
  {
    match resp
    case Answer(text, _, reported) =>
      var log := s.messages + [Message(Assistant, text)];
      CountUserSnoc(s.messages, Message(Assistant, text));
      var round := if reported != 0 then reported else s.round + 1;
      Step(s.(messages := log, round := round, loading := false), Some(Write(Persisted(log), None)))
    case _ =>
      Step(s.(loading := false), None)
  }

  /** How the awaited update of `markAsComplete` ends: it returns, with or
      without an error in its result, or it throws. */
  datatype Delivery = Returned(failed: bool) | Threw

  /** `markAsComplete`: stores the conversation with status `pending`
      whatever the round. The confirmation follows unless the awaited write
      throws: the result's error is never read, so a write that fails
      without throwing still completes. */
  function MarkAsComplete(s: ChatState, delivery: Delivery): (st: Step)
    ensures st.write == Some(Write(Persisted(s.messages), Some("pending")))
    ensures st.state.isComplete <==> delivery.Returned? || s.isComplete
    ensures delivery == Returned(true) ==> st.state.isComplete
    ensures st.state.messages == s.messages && st.state.round == s.round && !st.state.loading
    ensures st.state.input == s.input
  {
    var completed := match delivery case Returned(_) => true case Threw => s.isComplete;
    Step(s.(loading := false, isComplete := completed), Some(Write(Persisted(s.messages), Some("pending"))))
  }

  /** The complete button is enabled. */
  predicate CanComplete(s: ChatState) {
    !s.loading && s.round >= 2
  }

  /** The cap is reached: the badge reads ready, and input and send are
      disabled. */
  predicate IsConversationComplete(round: nat) {
    round >= AiChat.MaxRounds
  }

  /** The input row's field is disabled. The input row is shown only while
      the chat is not complete; once `isComplete` is set the completion
      card replaces it, so this and `SendDisabled` describe the row while
      it is on screen. */
  predicate InputDisabled(s: ChatState) {
    s.loading || IsConversationComplete(s.round)
  }

  /** The input row's send button is disabled (while the row is shown). */
  predicate SendDisabled(s: ChatState) {
    s.loading || Trim(s.input) == "" || IsConversationComplete(s.round)
  }

  /** The progress bar in percent: `round / 5 * 100`, capped at 100. */
  function Progress(round: nat): (p: nat)
    ensures p <= 100
    ensures p == 100 <==> IsConversationComplete(round)
    ensures round < AiChat.MaxRounds ==> p * AiChat.MaxRounds == round * 100
  {
    if round * 20 < 100 then round * 20 else 100
  }

  /** The send button is enabled exactly when `sendMessage` would act, for
      as long as the input row is shown (until the chat is complete). */
  lemma SendButtonMatchesGuard(s: ChatState, suggestionId: string)
    ensures !SendDisabled(s) <==> BeginSend(s, suggestionId).Started?
  {
  }

  /** Once the cap is reached nothing can be typed or sent. */
  lemma CapDisablesSending(s: ChatState, suggestionId: string)
    requires IsConversationComplete(s.round)
    ensures InputDisabled(s) && SendDisabled(s)
    ensures BeginSend(s, suggestionId) == Ignored
    ensures Progress(s.round) == 100
  {
  }

  /** Reloading the stored conversation and putting the greeting back in
      front reproduces the visible log; the reloaded round is the number of
      submitter messages in it. */
  lemma ReloadRestoresLog(sg: Suggestion, s: ChatState)
    requires |s.messages| > 0 && s.messages[0] == Greeting(sg.title, sg.description)
    ensures Init(sg.(aiConversation := Persisted(s.messages))).messages == s.messages
    ensures Init(sg.(aiConversation := Persisted(s.messages))).round == CountUser(s.messages)
  {
    CountUserAfterAssistant(s.messages[0], Persisted(s.messages));
  }

  /** `markAsComplete` writes the same update whatever the round: only the
      button guards the two-round floor. */
  lemma CompletionIgnoresRound(s: ChatState, round: nat, delivery: Delivery)
    ensures MarkAsComplete(s.(round := round), delivery).write == MarkAsComplete(s, delivery).write
  {
  }
}
