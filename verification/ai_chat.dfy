/** The `ai-chat` edge function: validates the posted conversation, counts
    the submitter's messages, frames them with a system prompt, asks the
    model and reports the reply together with the round number. */
module AiChat {
  import opened Base
  import opened Messages
  import opened Decimal
  import opened Upstream

  /** The `messages` field of the posted JSON. `Missing` is every falsy
      value (absent, `null`, `false`, `0`, `""`); `NotAnArray` every other
      non-array. */
  datatype MessagesField = Missing | NotAnArray | Present(log: seq<Message>)

  datatype Body = Body(messages: MessagesField, suggestionId: Option<string>)

  /** An HTTP request: its method and its body, which either parses as JSON
      or fails with the parser's message. */
  datatype Request = Request(verb: string, body: Result<Body, string>)

  /** The JSON the function answers with. `Preflight` is the empty CORS
      response. */
  datatype Response =
    | Preflight
    | Answer(message: string, suggestionId: Option<string>, conversationRound: nat)
    | Failure(error: string)
  {
    function Status(): nat {
      if Failure? then 500 else 200
    }
  }

  /** The model request the function issued, if any, and its response. */
  datatype Outcome = Outcome(call: Option<ModelRequest>, response: Response)

  /** The number of submitter turns the dialogue is meant to last. */
  const MaxRounds: nat := 5

  const MissingMessagesText := "Messages array is required"
  const FallbackErrorText := "Failed to get AI response"

  /** The system text before the round number. */
  const PromptHead: string :=
    "Du er en venlig AI-assistent der hjælper brugere med at forbedre deres forretningsforslag. Dit mål er at holde samtalen kort og fokuseret - maksimalt 3-5 spørgsmål.\n"
    + "\n"
    + "            Nuværende samtale runde: "

  /** The system text after the round number: the cap, `/5`, then the guidance. */
  const PromptTail: string :=
    "/5" + PromptGuidance

  /** Round-dependent guidance and the rules of the dialogue. */
  const PromptGuidance: string :=
    "\n"
    + "\n"
    + "            Retningslinjer baseret på samtale runde:\n"
    + "            \n"
    + "            Runde 1-2: Stil 1-2 korte, fokuserede spørgsmål for at forstå kerneidéen bedre\n"
    + "            - Hvad er hovedproblemet der skal løses?\n"
    + "            - Hvem vil have gavn af dette?\n"
    + "            \n"
    + "            Runde 3-4: Hjælp med at forfine og uddybe idéen\n"
    + "            - Hvordan kan idéen implementeres?\n"
    + "            - Hvilke ressourcer skal der til?\n"
    + "            \n"
    + "            Runde 5: Opsummer og afslut samtalen\n"
    + "            - Giv en kort opsummering af den forbedrede idé\n"
    + "            - Foreslå at idéen er klar til indsendelse\n"
    + "\n"
    + "            VIGTIGE REGLER:\n"
    + "            - Hold svar korte (max 2-3 sætninger)\n"
    + "            - Stil kun ÉT spørgsmål ad gangen\n"
    + "            - Undgå tekniske termer\n"
    + "            - Vær opmuntrende og konstruktiv\n"
    + "            - Efter runde 5: Opsummer altid og foreslå indsendelse"

  /** The system framing for a given round: `round/5` between the fixed
      head and tail. */
  function SystemPrompt(round: nat): string {
    PromptHead + NatToString(round) + PromptTail
  }

  /** The round number a system prompt announces: the numeral right after
      the fixed head. */
  function RoundInPrompt(p: string): nat {
    if |p| < |PromptHead| then 0
    else ParseNat(LeadingDigits(p[|PromptHead|..]))
  }

  /** The system prompt states the round it was built for. */
  lemma PromptAnnouncesRound(round: nat)
    ensures RoundInPrompt(SystemPrompt(round)) == round
  {
    var p := SystemPrompt(round);
    assert p[|PromptHead|..] == NatToString(round) + PromptTail;
    assert PromptTail[0] == '/';
    LeadingDigitsOfNumeral(NatToString(round), PromptTail);
    ParseNatToString(round);
  }

  /** The model request for a conversation: the system framing for its
      round, then the client's messages as they came. */
  function ChatCall(log: seq<Message>): ModelRequest {
    ModelRequest(
      Model,
      [PromptMessage(System, SystemPrompt(CountUser(log)))] + AsPrompt(log),
      7, 300)
  }

  /** The conversation a model request carries after its system message. */
  function CarriedLog(call: ModelRequest): Option<seq<Message>> {
    if |call.messages| == 0 || call.messages[0].speaker != System then None
    else FromPrompt(call.messages[1..])
  }

  /** The round a model request's first message announces; 0 when it has
      no messages. */
  function PromptRound(call: ModelRequest): nat {
    if |call.messages| == 0 then 0 else RoundInPrompt(call.messages[0].content)
  }

  /** The model request carries the system framing for the conversation's
      own round, followed by exactly the client's messages in their order. */
  lemma CallCarriesLog(log: seq<Message>)
    ensures CarriedLog(ChatCall(log)) == Some(log)
    ensures RoundInPrompt(ChatCall(log).messages[0].content) == CountUser(log)
    ensures PromptRound(ChatCall(log)) == CountUser(log)
  {
    var ms := ChatCall(log).messages;
    assert ms[1..] == AsPrompt(log);
    FromAsPrompt(log);
    PromptAnnouncesRound(CountUser(log));
  }

  /** The request handler, parameterised by what it adds to the user count
      when reporting the round (`offset`). */
  function Serve(req: Request, reply: Reply, offset: nat): (out: Outcome)
    ensures IsPreflight(req.verb) ==> out == Outcome(None, Preflight)
    ensures out.call.Some? <==>
      !IsPreflight(req.verb) && req.body.Ok? && req.body.value.messages.Present?
    ensures out.call.Some? ==> out.call.value == ChatCall(req.body.value.messages.log)
    ensures out.response.Preflight? ==> IsPreflight(req.verb)
    ensures out.response.Answer? ==>
      && out.call.Some?
      && var log := req.body.value.messages.log;
      && ReplyText(reply, FallbackErrorText) == Ok(out.response.message)
      && out.response.suggestionId == req.body.value.suggestionId
      && out.response.conversationRound == CountUser(log) + offset
    ensures !IsPreflight(req.verb) && req.body.Err? ==> out == Outcome(None, Failure(req.body.error))
    ensures !IsPreflight(req.verb) && req.body.Ok? && !req.body.value.messages.Present? ==>
      out == Outcome(None, Failure(MissingMessagesText))
    ensures out.response.Status() == 500 <==>
      !IsPreflight(req.verb) && (out.call.None? || ReplyText(reply, FallbackErrorText).Err?)
    ensures out.response.Failure? && out.call.Some? ==>
      ReplyText(reply, FallbackErrorText) == Err(out.response.error)
  {
    if IsPreflight(req.verb) then Outcome(None, Preflight)
    else match req.body
      case Err(parseError) => Outcome(None, Failure(parseError))
      case Ok(body) =>
        if !body.messages.Present? then Outcome(None, Failure(MissingMessagesText))
        else
          var log := body.messages.log;
          var call := ChatCall(log);
          match ReplyText(reply, FallbackErrorText)
          case Err(e) => Outcome(Some(call), Failure(e))
          case Ok(text) => Outcome(Some(call), Answer(text, body.suggestionId, CountUser(log) + offset))
  }

  /** The handler as written: it reports the user count plus one, although
      the count already includes the message just sent. */
  function Handle(req: Request, reply: Reply): (out: Outcome)
    ensures out.response.Answer? ==>
      && req.body.Ok? && req.body.value.messages.Present?
      && out.response.conversationRound == CountUser(req.body.value.messages.log) + 1
  {
    Serve(req, reply, 1)
  }

  /** The handler with the round it reports equal to the number of
      submitter messages in the conversation it answered. */
  function HandleCorrected(req: Request, reply: Reply): (out: Outcome)
    ensures out.response.Answer? ==>
      && req.body.Ok? && req.body.value.messages.Present?
      && out.response.conversationRound == CountUser(req.body.value.messages.log)
  {
    Serve(req, reply, 0)
  }
}
