/** The `generate-prd` edge function: flattens a finished conversation to a
    transcript, embeds it with the suggestion's title and description in a
    fixed two-message prompt, and returns the model's document. */
module GeneratePrd {
  import opened Base
  import opened Text
  import opened Messages
  import opened Upstream

  /** The posted JSON; `aiConversation` is `None` when absent or `null`. */
  datatype Body = Body(title: string, description: string, aiConversation: Option<seq<Message>>)

  datatype Request = Request(verb: string, body: Result<Body, string>)

  datatype Response = Preflight | Document(prd: string) | Failure(error: string) {
    function Status(): nat {
      if Failure? then 500 else 200
    }
  }

  datatype Outcome = Outcome(call: Option<ModelRequest>, response: Response)

  const SystemInstruction :=
    "You are an expert product manager writing a concise product requirements document (PRD)."

  const FallbackErrorText := "Failed to generate PRD"

  /** One message of the transcript: `role: content`. */
  function Line(m: Message): string {
    RoleName(m.role) + ": " + m.content
  }

  function Lines(conv: seq<Message>): (r: seq<string>)
    ensures |r| == |conv|
    ensures forall i :: 0 <= i < |conv| ==> r[i] == Line(conv[i])
  {
    if |conv| == 0 then [] else [Line(conv[0])] + Lines(conv[1..])
  }

  /** `(aiConversation || []).map(...).join('\n')`. */
  function Transcript(conv: Option<seq<Message>>): (r: string)
    ensures conv.None? ==> r == ""
    ensures conv.Some? && |conv.value| == 1 ==> r == Line(conv.value[0])
  {
    Join(Lines(conv.GetOr([])), '\n')
  }

  /** One more message adds one more line after a line break. */
  lemma TranscriptSnoc(conv: seq<Message>, m: Message)
    requires |conv| > 0
    ensures Transcript(Some(conv + [m])) == Transcript(Some(conv)) + "\n" + Line(m)
  {
    assert Lines(conv + [m]) == Lines(conv) + [Line(m)];
    JoinSnoc(Lines(conv), Line(m), '\n');
  }

  /** Reads one transcript line back into a message. */
  function ParseLine(line: string): Option<Message> {
    if StartsWith(line, "user: ") then Some(Message(User, line[6..]))
    else if StartsWith(line, "assistant: ") then Some(Message(Assistant, line[11..]))
    else None
  }

  /** Reads a whole transcript back, line by line. */
  function ParseLines(lines: seq<string>): Option<seq<Message>> {
    if |lines| == 0 then Some([])
    else match (ParseLine(lines[0]), ParseLines(lines[1..]))
      case (Some(m), Some(rest)) => Some([m] + rest)
      case _ => None
  }

  /** Reads the lines of a transcript back: the single empty line that an
      empty conversation joins to is no messages, anything else is read
      line by line. */
  function ReadLines(lines: seq<string>): Option<seq<Message>> {
    if lines == [""] then Some([]) else ParseLines(lines)
  }

  function ParseTranscript(t: string): Option<seq<Message>> {
    ReadLines(Split(t, '\n'))
  }

  predicate SingleLine(s: string) {
    '\n' !in s
  }

  lemma ParseLineOf(m: Message)
    ensures ParseLine(Line(m)) == Some(m)
  {
    var l := Line(m);
    match m.role
    case User =>
      assert l == "user: " + m.content;
      assert l[..6] == "user: ";
      assert l[6..] == m.content;
    case Assistant =>
      assert l == "assistant: " + m.content;
      assert !StartsWith(l, "user: ") by { assert l[0] == 'a'; }
      assert l[..11] == "assistant: ";
      assert l[11..] == m.content;
  }

  lemma {:induction false} ParseLinesOf(conv: seq<Message>)
    ensures ParseLines(Lines(conv)) == Some(conv)
  {
    if |conv| > 0 {
      ParseLineOf(conv[0]);
      assert Lines(conv)[1..] == Lines(conv[1..]);
      ParseLinesOf(conv[1..]);
      assert [conv[0]] + conv[1..] == conv;
    }
  }

  /** When no message spans several lines, the transcript determines the
      conversation: roles, contents and order can all be read back. */
  lemma TranscriptRoundTrip(conv: Option<seq<Message>>)
    requires var c := conv.GetOr([]);
      forall i :: 0 <= i < |c| ==> SingleLine(c[i].content)
    ensures ParseTranscript(Transcript(conv)) == Some(conv.GetOr([]))
  {
    assert Transcript(conv) == Transcript(Some(conv.GetOr([])));
    TranscriptBack(conv.GetOr([]));
  }

  /** Single-line messages give one transcript line each. */
  lemma TranscriptLines(conv: seq<Message>)
    requires |conv| > 0
    requires forall i :: 0 <= i < |conv| ==> SingleLine(conv[i].content)
    ensures Split(Transcript(Some(conv)), '\n') == Lines(conv)
  {
    LinesAreSingle(conv);
    SplitJoin(Lines(conv), '\n');
  }

  lemma LinesAreSingle(conv: seq<Message>)
    requires forall i :: 0 <= i < |conv| ==> SingleLine(conv[i].content)
    ensures forall i :: 0 <= i < |conv| ==> '\n' !in Lines(conv)[i]
  {
    forall i | 0 <= i < |conv|
      ensures '\n' !in Lines(conv)[i]
    {
      LineIsSingle(conv[i]);
    }
  }

  lemma LineIsSingle(m: Message)
    requires SingleLine(m.content)
    ensures SingleLine(Line(m))
  {
    var prefix := RoleName(m.role) + ": ";
    assert SingleLine(prefix) by {
      if m.role == User { assert prefix == "user: "; } else { assert prefix == "assistant: "; }
    }
    assert Line(m) == prefix + m.content;
  }

  /** A transcript line starts with a role name, so it is neither empty nor
      the summary header. */
  lemma LineIsNoHeader(m: Message)
    ensures Line(m) != "" && Line(m) != SummaryLine
  {
    assert Line(m)[0] == RoleName(m.role)[0];
    assert SummaryLine[0] == 'C';
  }

  /** The fixed lines of the second prompt message. */
  const PrdRequestLine := "Create a PRD for the following idea."
  const TitleLabel := "Title: "
  const DescriptionLabel := "Description: "
  const SummaryLine := "Conversation summary:"

  /** The second prompt message: the instruction, then title, description
      and transcript in that order. */
  function UserPrompt(title: string, description: string, transcript: string): string {
    PrdRequestLine + "\n" + (
      (TitleLabel + title) + "\n" + (
        (DescriptionLabel + description) + "\n" + (
          SummaryLine + "\n" + transcript)))
  }

  lemma FixedLinesAreSingle()
    ensures SingleLine(PrdRequestLine) && SingleLine(TitleLabel)
    ensures SingleLine(DescriptionLabel) && SingleLine(SummaryLine)
  {
  }

  /** The prompt breaks into the request line, the lines of the titled
      title, the lines of the labelled description, the summary header and
      the transcript's lines, in that order. Title and description may span
      several lines (the description comes from a multi-line text area). */
  lemma UserPromptLines(title: string, description: string, transcript: string)
    ensures Split(UserPrompt(title, description, transcript), '\n')
      == [PrdRequestLine] + (Split(TitleLabel + title, '\n') + (Split(DescriptionLabel + description, '\n')
         + ([SummaryLine] + Split(transcript, '\n'))))
  {
    FixedLinesAreSingle();
    SplitFivePieces(PrdRequestLine, TitleLabel + title, DescriptionLabel + description, SummaryLine, transcript);
  }

  /** Five pieces separated by line breaks split into the lines of each. */
  lemma SplitFivePieces(l0: string, l1: string, l2: string, l3: string, rest: string)
    ensures Split(l0 + "\n" + (l1 + "\n" + (l2 + "\n" + (l3 + "\n" + rest))), '\n')
      == Split(l0, '\n') + (Split(l1, '\n') + (Split(l2, '\n') + (Split(l3, '\n') + Split(rest, '\n'))))
  {
    var x3 := l3 + "\n" + rest;
    var x2 := l2 + "\n" + x3;
    var x1 := l1 + "\n" + x2;
    SplitAppend(l3, '\n', rest);
    SplitAppend(l2, '\n', x3);
    SplitAppend(l1, '\n', x2);
    SplitAppend(l0, '\n', x1);
  }

  /** The model request: always the fixed system instruction, then the user
      prompt. */
  function PrdCall(body: Body): (r: ModelRequest)
    ensures |r.messages| == 2
    ensures r.messages[0] == PromptMessage(System, SystemInstruction)
    ensures r.messages[1].speaker == Chat(User)
    ensures r.messages[1].content == UserPrompt(body.title, body.description, Transcript(body.aiConversation))
  {
    ModelRequest(Model, [
      PromptMessage(System, SystemInstruction),
      PromptMessage(Chat(User), UserPrompt(body.title, body.description, Transcript(body.aiConversation)))
    ], 6, 800)
  }

  /** The lines after the last line equal to `marker`, if there is one. */
  function LinesAfterLast(ls: seq<string>, marker: string): Option<seq<string>>
    decreases |ls|
  {
    if |ls| == 0 then None
    else if ls[|ls| - 1] == marker then Some([])
    else match LinesAfterLast(ls[..|ls| - 1], marker)
      case None => None
      case Some(after) => Some(after + [ls[|ls| - 1]])
  }

  lemma {:induction false} AfterMarker(front: seq<string>, marker: string, back: seq<string>)
    requires forall i :: 0 <= i < |back| ==> back[i] != marker
    ensures LinesAfterLast(front + [marker] + back, marker) == Some(back)
    decreases |back|
  {
    var ls := front + [marker] + back;
    if |back| > 0 {
      var init := back[..|back| - 1];
      assert ls[..|ls| - 1] == front + [marker] + init;
      AfterMarker(front, marker, init);
      assert back == init + [back[|back| - 1]];
    }
  }

  /** The conversation a PRD request carries: the transcript after the
      summary header of its second message, read back line by line. */
  function CarriedConversation(call: ModelRequest): Option<seq<Message>> {
    if |call.messages| < 2 then None
    else match LinesAfterLast(Split(call.messages[1].content, '\n'), SummaryLine)
      case None => None
      case Some(lines) => ReadLines(lines)
  }

  /** The request carries the conversation it was built from, whatever the
      title and description, as long as no message spans several lines. */
  lemma PrdCallCarriesConversation(body: Body)
    requires var conv := body.aiConversation.GetOr([]);
      forall i :: 0 <= i < |conv| ==> SingleLine(conv[i].content)
    ensures CarriedConversation(PrdCall(body)) == Some(body.aiConversation.GetOr([]))
  {
    var conv := body.aiConversation.GetOr([]);
    var tr := Transcript(body.aiConversation);
    var front := [PrdRequestLine] + Split(TitleLabel + body.title, '\n') + Split(DescriptionLabel + body.description, '\n');
    var back := Split(tr, '\n');
    UserPromptLines(body.title, body.description, tr);
    Reassociate([PrdRequestLine], Split(TitleLabel + body.title, '\n'), Split(DescriptionLabel + body.description, '\n'), [SummaryLine], back);
    assert Split(PrdCall(body).messages[1].content, '\n') == front + [SummaryLine] + back;
    TranscriptBack(conv);
    AfterMarker(front, SummaryLine, back);
  }

  /** The transcript's own lines: one empty line for no messages, otherwise
      the messages read back, and never the summary header. */
  lemma TranscriptBack(conv: seq<Message>)
    requires forall i :: 0 <= i < |conv| ==> SingleLine(conv[i].content)
    ensures var back := Split(Transcript(Some(conv)), '\n');
      && (forall i :: 0 <= i < |back| ==> back[i] != SummaryLine)
      && (|conv| == 0 ==> back == [""])
      && (|conv| > 0 ==> back != [""] && ParseLines(back) == Some(conv))
  {
    if |conv| > 0 {
      TranscriptLines(conv);
      var back := Lines(conv);
      forall i | 0 <= i < |back|
        ensures back[i] != SummaryLine
      {
        LineIsNoHeader(conv[i]);
      }
      LineIsNoHeader(conv[0]);
      ParseLinesOf(conv);
    }
  }

  lemma Reassociate<T>(p: seq<T>, a: seq<T>, b: seq<T>, m: seq<T>, t: seq<T>)
    ensures p + (a + (b + (m + t))) == p + a + b + m + t
  {
  }

  /** The request handler. Nothing is validated: any parsed body is sent. */
  function Handle(req: Request, reply: Reply): (out: Outcome)
    ensures IsPreflight(req.verb) ==> out == Outcome(None, Preflight)
    ensures out.call.Some? <==> !IsPreflight(req.verb) && req.body.Ok?
    ensures out.call.Some? ==> out.call.value == PrdCall(req.body.value)
    ensures out.response.Document? <==>
      !IsPreflight(req.verb) && req.body.Ok? && ReplyText(reply, FallbackErrorText).Ok?
    ensures out.response.Document? ==> out.response.prd == reply.choices[0]
    ensures out.response.Status() == 500 <==> !IsPreflight(req.verb) && !out.response.Document?
    ensures !IsPreflight(req.verb) && req.body.Err? ==> out.response == Failure(req.body.error)
    ensures out.call.Some? && out.response.Failure? ==>
      Err(out.response.error) == ReplyText(reply, FallbackErrorText)
  {
    if IsPreflight(req.verb) then Outcome(None, Preflight)
    else match req.body
      case Err(parseError) => Outcome(None, Failure(parseError))
      case Ok(body) =>
        var call := PrdCall(body);
        match ReplyText(reply, FallbackErrorText)
        case Ok(text) => Outcome(Some(call), Document(text))
        case Err(e) => Outcome(Some(call), Failure(e))
  }
}
