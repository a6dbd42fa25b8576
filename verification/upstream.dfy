/** The chat-completions service both edge functions call: the request
    they build and the reply they read. The service itself is an oracle;
    the model only fixes what is sent and how the answer is read. */
module Upstream {
  import opened Base
  import opened Messages

  /** Who speaks in a model request: the fixed system framing, or one side
      of the chat. */
  datatype Speaker = System | Chat(role: Role)

  datatype PromptMessage = PromptMessage(speaker: Speaker, content: string)

  /** The JSON body posted to the service. Sampling temperature is kept in
      tenths so that it stays an integer. */
  datatype ModelRequest = ModelRequest(
    model: string,
    messages: seq<PromptMessage>,
    temperatureTenths: nat,
    maxTokens: nat)

  /** What the service answered: an OK response with the content of each
      choice, or a non-OK response whose error body may carry a message. */
  datatype Reply = Completed(choices: seq<string>) | Rejected(message: Option<string>)

  const Model := "gpt-4o-mini"

  /** The error `data.choices[0].message` raises when there is no choice. */
  const NoChoiceText := "Cannot read properties of undefined (reading 'message')"

  /** CORS preflight requests are answered before anything else. */
  predicate IsPreflight(verb: string) {
    verb == "OPTIONS"
  }

  /** The client's messages spread into a model request (`...messages`). */
  function AsPrompt(log: seq<Message>): (r: seq<PromptMessage>)
    ensures |r| == |log|
    ensures forall i :: 0 <= i < |r| ==> r[i].speaker != System
  {
    if |log| == 0 then []
    else [PromptMessage(Chat(log[0].role), log[0].content)] + AsPrompt(log[1..])
  }

  /** Reads chat messages back out of a model request; fails on a system
      message. */
  function FromPrompt(ps: seq<PromptMessage>): Option<seq<Message>> {
    if |ps| == 0 then Some([])
    else if ps[0].speaker == System then None
    else match FromPrompt(ps[1..])
      case None => None
      case Some(rest) => Some([Message(ps[0].speaker.role, ps[0].content)] + rest)
  }

  /** Spreading the client's messages into a request loses nothing and
      reorders nothing. */
  lemma {:induction false} FromAsPrompt(log: seq<Message>)
    ensures FromPrompt(AsPrompt(log)) == Some(log)
  {
    if |log| > 0 {
      FromAsPrompt(log[1..]);
      assert AsPrompt(log)[1..] == AsPrompt(log[1..]);
      assert [log[0]] + log[1..] == log;
    }
  }

  /** How a handler reads the reply: the content of the first choice; for a
      non-OK response the error body's message, or `fallback` when it has
      none (an empty message counts as none). */
  function ReplyText(reply: Reply, fallback: string): (r: Result<string, string>)
    ensures r.Ok? <==> reply.Completed? && |reply.choices| > 0
    ensures r.Ok? ==> r.value == reply.choices[0]
    ensures reply.Completed? && |reply.choices| == 0 ==> r == Err(NoChoiceText)
    ensures reply.Rejected? ==>
      && r.Err? && r.error != ""
      && (r.error == fallback || Some(r.error) == reply.message)
    ensures reply.Rejected? && reply.message.None? ==> r == Err(fallback)
    ensures reply.Rejected? && reply.message.Some? && reply.message.value != "" ==> r == Err(reply.message.value)
    requires fallback != ""
  {
    match reply
    case Completed(choices) =>
      if |choices| == 0 then Err(NoChoiceText) else Ok(choices[0])
    case Rejected(message) =>
      if message.Some? && message.value != "" then Err(message.value) else Err(fallback)
  }
}
