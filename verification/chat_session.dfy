/** The chat component and the `ai-chat` function together: one exchange is
    the client's send, the function's handling of the posted body, and the
    client's handling of the answer. `corrected` selects the function that
    reports the plain user count instead of the one as written. */
module ChatSession {
  import opened Base
  import opened Text
  import opened Messages
  import opened Upstream
  import AiChat
  import opened ChatInterface

  /** The chat-completions service answered with at least one choice. */
  predicate Succeeds(reply: Reply) {
    reply.Completed? && |reply.choices| > 0
  }

  /** The response of the chat function to a posted body. */
  function Respond(body: AiChat.Body, reply: Reply, corrected: bool): AiChat.Response {
    var req := AiChat.Request("POST", Ok(body));
    if corrected then AiChat.HandleCorrected(req, reply).response
    else AiChat.Handle(req, reply).response
  }

  /** One press of the send button, carried through to its end. */
  function Exchange(s: ChatState, sg: Suggestion, reply: Reply, corrected: bool): Step {
    match BeginSend(s, sg.id)
    case Ignored => Step(s, None)
    case Started(sent, body) => Receive(sent, Respond(body, reply, corrected))
  }

  /** How far the round may run ahead of the submitter messages in the log. */
  function Offset(corrected: bool): nat {
    if corrected then 0 else 1
  }

  /** The function answers a posted log exactly when the service does, with
      the first choice and the log's user count plus the offset. */
  lemma RespondTo(log: seq<Message>, id: string, reply: Reply, corrected: bool)
    ensures var resp := Respond(AiChat.Body(AiChat.Present(log), Some(id)), reply, corrected);
      && (Succeeds(reply) ==> resp == AiChat.Answer(reply.choices[0], Some(id), CountUser(log) + Offset(corrected)))
      && (!Succeeds(reply) ==> !resp.Answer?)
  {
    var req := AiChat.Request("POST", Ok(AiChat.Body(AiChat.Present(log), Some(id))));
    var out := AiChat.Serve(req, reply, Offset(corrected));
    assert Respond(req.body.value, reply, corrected) == out.response;
  }

  /** What one accepted exchange does. On success the log grows by the
      submitter's message and the reply, the round becomes the user count
      of the new log plus the offset, and the log is stored. On failure only
      the submitter's message is added and the round stays. */
  lemma ExchangeEffect(s: ChatState, sg: Suggestion, reply: Reply, corrected: bool)
    requires Accepts(s)
    ensures var st := Exchange(s, sg, reply, corrected);
      && !st.state.loading
      && CountUser(st.state.messages) == CountUser(s.messages) + 1
      && (Succeeds(reply) ==>
        && st.state.messages == s.messages + [Message(User, Trim(s.input)), Message(Assistant, reply.choices[0])]
        && st.state.round == CountUser(st.state.messages) + Offset(corrected)
        && st.write == Some(Write(Persisted(st.state.messages), None)))
      && (!Succeeds(reply) ==>
        && st.state.messages == s.messages + [Message(User, Trim(s.input))]
        && st.state.round == s.round
        && st.write == None)
  {
    var b := BeginSend(s, sg.id);
    RespondTo(b.state.messages, sg.id, reply, corrected);
    if Succeeds(reply) {
      assert s.messages + [Message(User, Trim(s.input))] + [Message(Assistant, reply.choices[0])]
        == s.messages + [Message(User, Trim(s.input)), Message(Assistant, reply.choices[0])];
    }
  }

  /** A refused send changes nothing. */
  lemma ExchangeIgnored(s: ChatState, sg: Suggestion, reply: Reply, corrected: bool)
    requires !Accepts(s)
    ensures Exchange(s, sg, reply, corrected) == Step(s, None)
  {
  }

  /** The round never falls behind the log: it stays within the offset of
      the user count, and an exchange never lowers it. */
  predicate Settled(s: ChatState, corrected: bool) {
    !s.loading && s.round <= CountUser(s.messages) + Offset(corrected)
  }

  lemma ExchangeKeepsSettled(s: ChatState, sg: Suggestion, reply: Reply, corrected: bool)
    requires Settled(s, corrected)
    ensures var st := Exchange(s, sg, reply, corrected);
      && Settled(st.state, corrected)
      && st.state.round >= s.round
      && (Accepts(s) && Succeeds(reply) ==> st.state.round > s.round)
  {
    if Accepts(s) {
      ExchangeEffect(s, sg, reply, corrected);
    }
  }

  /** Typing `input` and pressing send. */
  function Next(s: ChatState, sg: Suggestion, input: string, reply: Reply, corrected: bool): ChatState {
    Exchange(Edit(s, input), sg, reply, corrected).state
  }

  /** One press of the send button in a session: what was typed, and how
      the chat-completions service answers that press's call. */
  datatype Send = Send(input: string, reply: Reply)

  /** The session after each send in turn. */
  function Run(s: ChatState, sg: Suggestion, sends: seq<Send>, corrected: bool): ChatState
    decreases |sends|
  {
    if |sends| == 0 then s
    else Run(Next(s, sg, sends[0].input, sends[0].reply, corrected), sg, sends[1..], corrected)
  }

  predicate AllNonBlank(sends: seq<Send>) {
    forall i :: 0 <= i < |sends| ==> Trim(sends[i].input) != ""
  }

  predicate AllAnswered(sends: seq<Send>) {
    forall i :: 0 <= i < |sends| ==> Succeeds(sends[i].reply)
  }

  predicate AllFailing(sends: seq<Send>) {
    forall i :: 0 <= i < |sends| ==> !Succeeds(sends[i].reply)
  }

  /** Any mix of answered and failed sends keeps the round settled, never
      lowers it, and adds at most one submitter message per send. */
  lemma {:induction false} RunKeepsSettled(s: ChatState, sg: Suggestion, sends: seq<Send>, corrected: bool)
    requires Settled(s, corrected)
    ensures var f := Run(s, sg, sends, corrected);
      && Settled(f, corrected) && f.round >= s.round
      && CountUser(f.messages) <= CountUser(s.messages) + |sends|
    decreases |sends|
  {
    if |sends| > 0 {
      var e := Edit(s, sends[0].input);
      ExchangeKeepsSettled(e, sg, sends[0].reply, corrected);
      if Accepts(e) {
        ExchangeEffect(e, sg, sends[0].reply, corrected);
      } else {
        ExchangeIgnored(e, sg, sends[0].reply, corrected);
      }
      var st := Next(s, sg, sends[0].input, sends[0].reply, corrected);
      RunKeepsSettled(st, sg, sends[1..], corrected);
      assert Run(s, sg, sends, corrected) == Run(st, sg, sends[1..], corrected);
    }
  }

  function Min(a: nat, b: nat): nat {
    if a <= b then a else b
  }

  /** One successful send of a non-blank input: accepted below the cap,
      refused at it; the round keeps its distance from the user count. */
  lemma NextSucceeding(s: ChatState, sg: Suggestion, input: string, reply: Reply, corrected: bool)
    requires Succeeds(reply) && Trim(input) != "" && !s.loading
    ensures var st := Next(s, sg, input, reply, corrected);
      && !st.loading
      && (s.round < AiChat.MaxRounds ==>
        && CountUser(st.messages) == CountUser(s.messages) + 1
        && st.round == CountUser(st.messages) + Offset(corrected))
      && (s.round >= AiChat.MaxRounds ==> st == Edit(s, input))
  {
    var e := Edit(s, input);
    if Accepts(e) {
      ExchangeEffect(e, sg, reply, corrected);
    } else {
      ExchangeIgnored(e, sg, reply, corrected);
    }
  }

  /** One failing send of a non-blank input below the cap. */
  lemma NextFailing(s: ChatState, sg: Suggestion, input: string, reply: Reply, corrected: bool)
    requires !Succeeds(reply) && Trim(input) != "" && !s.loading && s.round < AiChat.MaxRounds
    ensures var st := Next(s, sg, input, reply, corrected);
      && !st.loading && st.round == s.round
      && CountUser(st.messages) == CountUser(s.messages) + 1
      && (|s.messages| > 0 ==> |st.messages| > 0 && st.messages[0] == s.messages[0])
  {
    ExchangeEffect(Edit(s, input), sg, reply, corrected);
  }

  /** With the corrected function and no failures, every send is accepted
      until the log holds five submitter messages, and none after. */
  lemma {:induction false} RunCorrected(s: ChatState, sg: Suggestion, sends: seq<Send>)
    requires AllAnswered(sends) && AllNonBlank(sends)
    requires !s.loading && s.round == CountUser(s.messages) <= AiChat.MaxRounds
    ensures var f := Run(s, sg, sends, true);
      && CountUser(f.messages) == Min(CountUser(s.messages) + |sends|, AiChat.MaxRounds)
      && f.round == CountUser(f.messages) && !f.loading
    decreases |sends|
  {
    if |sends| > 0 {
      var st := Next(s, sg, sends[0].input, sends[0].reply, true);
      assert Trim(sends[0].input) != "" && Succeeds(sends[0].reply);
      NextSucceeding(s, sg, sends[0].input, sends[0].reply, true);
      assert AllNonBlank(sends[1..]) && AllAnswered(sends[1..]);
      RunCorrected(st, sg, sends[1..]);
      assert Run(s, sg, sends, true) == Run(st, sg, sends[1..], true);
    }
  }

  /** With the function as written and no failures, the round runs one
      ahead of the log after the first answer, so the log stops at four
      submitter messages. */
  lemma {:induction false} RunAsWritten(s: ChatState, sg: Suggestion, sends: seq<Send>)
    requires AllAnswered(sends) && AllNonBlank(sends)
    requires !s.loading && CountUser(s.messages) <= 4
    requires (s.round == 0 && CountUser(s.messages) == 0) || s.round == CountUser(s.messages) + 1
    ensures var f := Run(s, sg, sends, false);
      CountUser(f.messages) == Min(CountUser(s.messages) + |sends|, 4)
    decreases |sends|
  {
    if |sends| > 0 {
      var st := Next(s, sg, sends[0].input, sends[0].reply, false);
      assert Trim(sends[0].input) != "" && Succeeds(sends[0].reply);
      NextSucceeding(s, sg, sends[0].input, sends[0].reply, false);
      assert AllNonBlank(sends[1..]) && AllAnswered(sends[1..]);
      RunAsWritten(st, sg, sends[1..]);
      assert Run(s, sg, sends, false) == Run(st, sg, sends[1..], false);
    }
  }

  /** Failed calls leave the round where it is, so every failed send is
      accepted again and leaves its submitter message in the log: the log
      can hold any number of submitter messages. */
  lemma {:induction false} RunFailing(s: ChatState, sg: Suggestion, sends: seq<Send>, corrected: bool)
    requires AllFailing(sends) && AllNonBlank(sends)
    requires !s.loading && s.round < AiChat.MaxRounds
    ensures var f := Run(s, sg, sends, corrected);
      && CountUser(f.messages) == CountUser(s.messages) + |sends|
      && f.round == s.round && !f.loading
      && (|s.messages| > 0 ==> |f.messages| > 0 && f.messages[0] == s.messages[0])
    decreases |sends|
  {
    if |sends| > 0 {
      var st := Next(s, sg, sends[0].input, sends[0].reply, corrected);
      assert Trim(sends[0].input) != "" && !Succeeds(sends[0].reply);
      NextFailing(s, sg, sends[0].input, sends[0].reply, corrected);
      assert AllNonBlank(sends[1..]) && AllFailing(sends[1..]);
      RunFailing(st, sg, sends[1..], corrected);
      assert Run(s, sg, sends, corrected) == Run(st, sg, sends[1..], corrected);
    }
  }

  /** Failed sends pile up in the visible log, and the next answered send
      stores all of them: starting from a fresh suggestion, `k` failed sends
      followed by one success write a conversation holding `k + 1`
      submitter messages, whatever the function reports as the round. */
  lemma FailuresThenAnswer(sg: Suggestion, failures: seq<Send>, text: string, ok: Reply, corrected: bool)
    requires sg.aiConversation == [] && AllNonBlank(failures) && AllFailing(failures) && Trim(text) != ""
    requires Succeeds(ok)
    ensures var s := Run(Init(sg), sg, failures, corrected);
      var st := Exchange(Edit(s, text), sg, ok, corrected);
      && st.write.Some?
      && CountUser(st.write.value.aiConversation) == |failures| + 1
  {
    var s := Run(Init(sg), sg, failures, corrected);
    RunFailing(Init(sg), sg, failures, corrected);
    var e := Edit(s, text);
    assert Accepts(e);
    ExchangeEffect(e, sg, ok, corrected);
    var st := Exchange(e, sg, ok, corrected);
    assert st.state.messages[0] == Greeting(sg.title, sg.description);
    CountUserAfterAssistant(st.state.messages[0], Persisted(st.state.messages));
  }

  /** The relation between round and log that answered sends keep with the
      function as written: nothing sent yet, or the round one ahead of the
      submitter count. */
  predicate AheadByOne(s: ChatState) {
    (s.round == 0 && CountUser(s.messages) == 0) || s.round == CountUser(s.messages) + 1
  }

  lemma {:induction false} RunStaysAhead(s: ChatState, sg: Suggestion, sends: seq<Send>)
    requires AllAnswered(sends) && AllNonBlank(sends)
    requires !s.loading && AheadByOne(s)
    ensures var f := Run(s, sg, sends, false);
      !f.loading && AheadByOne(f)
    decreases |sends|
  {
    if |sends| > 0 {
      var st := Next(s, sg, sends[0].input, sends[0].reply, false);
      assert Trim(sends[0].input) != "" && Succeeds(sends[0].reply);
      NextSucceeding(s, sg, sends[0].input, sends[0].reply, false);
      assert AllNonBlank(sends[1..]) && AllAnswered(sends[1..]);
      RunStaysAhead(st, sg, sends[1..]);
      assert Run(s, sg, sends, false) == Run(st, sg, sends[1..], false);
    }
  }

  /** The round the system prompt of a send's request announces; 0 when
      nothing is sent. */
  function AnnouncedRound(b: Begin): nat {
    if b.Started? && b.body.messages.Present? then AiChat.PromptRound(AiChat.ChatCall(b.body.messages.log))
    else 0
  }

  /** A send's prompt announces the submitter count of the log it posts. */
  lemma AnnouncesPosted(b: Begin)
    requires b.Started? && b.body.messages.Present?
    ensures AnnouncedRound(b) == CountUser(b.body.messages.log)
  {
    AiChat.CallCarriesLog(b.body.messages.log);
  }

  /** An accepted send announces the submitter count including itself. */
  lemma AnnouncesCount(s: ChatState, id: string)
    requires Accepts(s)
    ensures BeginSend(s, id).Started?
    ensures AnnouncedRound(BeginSend(s, id)) == CountUser(s.messages) + 1
  {
    AnnouncesPosted(BeginSend(s, id));
  }

  /** With the function as written, a session whose sends are all answered
      never reaches the prompt's fifth round: every request it makes, from
      the first to the last accepted one, announces a round below 5. */
  lemma AsWrittenNeverAnnouncesFifth(sg: Suggestion, sends: seq<Send>, input: string)
    requires sg.aiConversation == [] && AllAnswered(sends) && AllNonBlank(sends)
    ensures var s := Run(Init(sg), sg, sends, false);
      AnnouncedRound(BeginSend(Edit(s, input), sg.id)) < AiChat.MaxRounds
  {
    var s := Run(Init(sg), sg, sends, false);
    RunStaysAhead(Init(sg), sg, sends);
    var e := Edit(s, input);
    if Accepts(e) {
      AnnouncesCount(e, sg.id);
    }
  }

  /** With the corrected function the fifth send of an answered session is
      accepted and its prompt announces round 5. */
  lemma CorrectedAnnouncesFifth(sg: Suggestion, sends: seq<Send>, input: string)
    requires sg.aiConversation == [] && |sends| == 4
    requires AllAnswered(sends) && AllNonBlank(sends) && Trim(input) != ""
    ensures var s := Run(Init(sg), sg, sends, true);
      var b := BeginSend(Edit(s, input), sg.id);
      b.Started? && AnnouncedRound(b) == AiChat.MaxRounds
  {
    RunCorrected(Init(sg), sg, sends);
    FifthSendAnnouncesFive(Run(Init(sg), sg, sends, true), sg.id, input);
  }

  lemma FifthSendAnnouncesFive(s: ChatState, id: string, input: string)
    requires !s.loading && s.round == CountUser(s.messages) == 4 && Trim(input) != ""
    ensures var b := BeginSend(Edit(s, input), id);
      b.Started? && AnnouncedRound(b) == AiChat.MaxRounds
  {
    AnnouncesCount(Edit(s, input), id);
  }

  /** A fresh suggestion with the function as written: five non-blank sends
      that all succeed leave four submitter messages; the fifth is refused. */
  lemma FreshSessionAsWritten(sg: Suggestion, sends: seq<Send>)
    requires sg.aiConversation == [] && |sends| == 5
    requires AllAnswered(sends) && AllNonBlank(sends)
    ensures CountUser(Run(Init(sg), sg, sends, false).messages) == 4
  {
    RunAsWritten(Init(sg), sg, sends);
  }

  /** The same session with the corrected function keeps all five. */
  lemma FreshSessionCorrected(sg: Suggestion, sends: seq<Send>)
    requires sg.aiConversation == [] && |sends| == 5
    requires AllAnswered(sends) && AllNonBlank(sends)
    ensures CountUser(Run(Init(sg), sg, sends, true).messages) == 5
  {
    RunCorrected(Init(sg), sg, sends);
  }

  /** With the function as written, one answered message already enables
      completion, and reloading the page then shows a round one lower than
      the session did. */
  lemma FirstAnswerAsWritten(sg: Suggestion, text: string, reply: Reply)
    requires sg.aiConversation == [] && Trim(text) != "" && Succeeds(reply)
    ensures var st := Exchange(Edit(Init(sg), text), sg, reply, false);
      && CountUser(st.state.messages) == 1
      && st.state.round == 2
      && CanComplete(st.state)
      && Init(sg.(aiConversation := Persisted(st.state.messages))).round == 1
  {
    var e := Edit(Init(sg), text);
    assert Accepts(e);
    ExchangeEffect(e, sg, reply, false);
    var st := Exchange(e, sg, reply, false);
    ReloadRestoresLog(sg, st.state);
  }

  /** With the corrected function the session round always survives a
      reload, and completion needs two answered messages. */
  lemma AnswerSurvivesReload(s: ChatState, sg: Suggestion, reply: Reply)
    requires Accepts(s) && Succeeds(reply)
    requires |s.messages| > 0 && s.messages[0] == Greeting(sg.title, sg.description)
    ensures var st := Exchange(s, sg, reply, true);
      && Init(sg.(aiConversation := Persisted(st.state.messages))).round == st.state.round
      && (CanComplete(st.state) <==> CountUser(st.state.messages) >= 2)
  {
    ExchangeEffect(s, sg, reply, true);
    var st := Exchange(s, sg, reply, true);
    ReloadRestoresLog(sg, st.state);
  }
}
