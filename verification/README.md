# suggest-ai-flow: the AI-refinement chat and its neighbours, in Dafny

suggest-ai-flow lets an employee submit an improvement idea (a title and a
description). The app then refines the idea in a short, round-counted chat
with a language model, and stores the conversation for an admin to review.
This project models that flow's logic as pure Dafny functions over immutable
data, and proves what the code promises.

- **The chat on the client** (`ChatInterface`). The component's state is:
  - the visible log, which opens with a greeting;
  - the typed input;
  - the busy flag;
  - the round counter;
  - the completed flag.

  `sendMessage` is split at its `await`. The part before it is `BeginSend` and the part after it is `Receive`. `markAsComplete` is a single function, `MarkAsComplete`, that takes how the awaited write ended (`Delivery`: returned, with or without an error, or threw) as an argument. `Receive` and `MarkAsComplete` return the row update they issue alongside the new state; `BeginSend` returns the new state with the body it posts, or that it did nothing; `Init` and `Edit` return only a state.
- **The `ai-chat` edge function** (`AiChat`):
  - it validates the body;
  - it counts the submitter's messages;
  - it puts the system prompt announcing `round/5` in front of the client's messages;
  - it reports the model's answer with a round number.

  `Serve` is the handler with the reported offset as a parameter. `Handle` is the function as written (offset 1). `HandleCorrected` reports the plain count.
- **Client and server together** (`ChatSession`). One exchange is a send, the function's answer and the client's update. `Run` plays a sequence of sends, each with what was typed and how the service answers that call. The lemmas about it compare the function as written with the corrected one.
- **The `generate-prd` edge function** (`GeneratePrd`):
  - the conversation is flattened to `role: content` lines;
  - those lines are embedded in the fixed two-message prompt;
  - the answer is read back.
- **Attachments** (`FileUpload`). The steps are:
  - the size check, then the exact MIME allow-list;
  - the extension and the storage path;
  - the upload/link outcome;
  - the preview icon.
- **The idea form** (`SuggestionForm`): trim, require both fields, then clear them.
- **The dashboard** (`Dashboard`):
  - creating a pending suggestion;
  - the status icon and colour, each with a default branch;
  - which suggestions can go back into the chat;
  - the user's own list, newest first;
  - when admin notes and the admin button show.

Shared pieces:
- `Base`: `Option` and `Result`.
- `Text`: JavaScript's `trim` (ECMAScript WhiteSpace and LineTerminator), plus `split`, `join` and `startsWith` with a one-character separator.
- `Decimal`: how a template literal prints a whole number, and the parse back.
- `Messages`: roles, messages and the submitter count.
- `Upstream`: the chat-completions request and reply that both edge functions share.

Some inputs become parameters or oracles:
- the language model's reply;
- the storage service;
- the database's answers;
- the signed-in user;
- the clock.

Each step function takes them as arguments.

## Model

| member | source | states |
|---|---|---|
| Messages.UserMessages | supabase/functions/ai-chat/index.ts:28 | the filter keeps only submitter messages, each exactly as often as the log holds it, and drops every other message; it is never longer than the log |
| Messages.UserMessagesAppend | supabase/functions/ai-chat/index.ts:28 | the filter keeps the order: filtering two logs joined is filtering each and joining the results |
| Messages.CountUserAppend | src/components/ChatInterface.tsx:41-42 | the submitter count of two logs joined is the sum of their counts |
| Text.TrimSpec | src/components/SuggestionForm.tsx:20 | `trim` leaves neither leading nor trailing whitespace, never lengthens, and yields the empty string exactly when the input is all whitespace |
| Text.TrimSlice | src/components/SuggestionForm.tsx:21 | what `trim` removes is a whitespace run at each end; what it keeps is the contiguous text between them |
| Text.TrimIdempotent | src/components/SuggestionForm.tsx:21 | trimming twice is trimming once |
| Text.Split | src/components/FileUpload.tsx:52 | `split` yields at least one piece, none containing the separator; a string without the separator is its own single piece, one with it gives two or more |
| Text.JoinSplit | supabase/functions/generate-prd/index.ts:19-21 | joining the pieces of a split with the same separator gives the string back |
| Text.SplitAppend | supabase/functions/generate-prd/index.ts:39 | splitting two texts joined by one separator gives the pieces of the first followed by the pieces of the second |
| Text.SplitJoin | supabase/functions/generate-prd/index.ts:19-21 | splitting a join gives the pieces back when no piece contains the separator |
| Decimal.NatToString | supabase/functions/ai-chat/index.ts:44 | a number prints as a non-empty run of digits with no leading zero |
| Decimal.ParseNatToString | supabase/functions/ai-chat/index.ts:44 | reading a printed number gives the number back |
| Decimal.NatToStringInjective | src/components/FileUpload.tsx:53 | different numbers print differently |
| Decimal.LeadingDigitsOfNumeral | supabase/functions/ai-chat/index.ts:44 | a numeral followed by a non-digit (the `/` of `/5`) is read back as exactly that numeral |
| Upstream.AsPrompt | supabase/functions/ai-chat/index.ts:67 | spreading the client's messages into the request adds one entry per message and never a system entry |
| Upstream.FromAsPrompt | supabase/functions/ai-chat/index.ts:67 | the spread messages can be read back unchanged and in order |
| Upstream.ReplyText | supabase/functions/ai-chat/index.ts:74-81 | an OK reply with a choice yields the first choice's content. With no choice the result is the `undefined` property error. A non-OK reply with a non-empty error message fails with exactly that message; without one it fails with the handler's fallback text |
| AiChat.PromptAnnouncesRound | supabase/functions/ai-chat/index.ts:42-44 | the number after the fixed head of the system prompt is exactly the round it was built for |
| AiChat.CallCarriesLog | supabase/functions/ai-chat/index.ts:39-67 | the model request is one system message announcing the conversation's submitter count, then exactly the client's messages in order |
| AiChat.Serve | supabase/functions/ai-chat/index.ts:11-101 | the effects of each kind of request. `OPTIONS` gets an empty answer and no processing. A body that is not valid JSON fails with the parser's own message and makes no model call. A missing or non-array `messages` fails with "Messages array is required" and makes no model call. Otherwise the model is called with that conversation. An answer carries the first choice, echoes `suggestionId`, and reports the count plus the offset. Status 500 comes exactly from validation, parse or upstream failures |
| AiChat.Handle | supabase/functions/ai-chat/index.ts:85-89 | as written: the reported round is the submitter count of the posted log plus one |
| AiChat.HandleCorrected | supabase/functions/ai-chat/index.ts:28-29 | corrected: the reported round equals the submitter count of the posted log |
| ChatInterface.Greeting | src/components/ChatInterface.tsx:31-33 | the opening message is the assistant's |
| ChatInterface.Init | src/components/ChatInterface.tsx:30-43 | the visible log is the greeting followed by the stored conversation. The round is the stored submitter count, the same as the visible log's, since the greeting is not counted. The component starts idle |
| ChatInterface.Persisted | src/components/ChatInterface.tsx:77-80 | the stored conversation is the visible log without its first entry; putting that entry back restores the log |
| ChatInterface.BeginSend | src/components/ChatInterface.tsx:53-67 | the send is refused exactly when the trimmed input is empty, a call is in flight, or the round has reached 5. An accepted send appends one submitter message holding the trimmed input, clears the input and turns busy. The posted body is the whole new log with the suggestion id. The submitter count rises by one |
| ChatInterface.Receive | src/components/ChatInterface.tsx:69-99 | on an answer, one assistant message is appended. The round becomes the reported one, or one more when that is zero, and the log minus the greeting is stored. On any failure the optimistic message stays, the round stays and nothing is stored. Either way the component ends idle |
| ChatInterface.MarkAsComplete | src/components/ChatInterface.tsx:109-140 | stores the log minus the greeting with status `pending` whatever the round, completes unless the awaited write throws, so a write that returns an error still completes, ends idle, and changes neither the log, the round nor the typed input |
| ChatInterface.Progress | src/components/ChatInterface.tsx:157-158 | progress never exceeds 100, is 100 exactly at the cap, and below it is `round / 5 * 100` |
| ChatInterface.SendButtonMatchesGuard | src/components/ChatInterface.tsx:271 | the send button is enabled exactly when `sendMessage` would act |
| ChatInterface.CapDisablesSending | src/components/ChatInterface.tsx:158-271 | at the cap the input and send button are disabled, a send is refused and progress is full |
| ChatInterface.ReloadRestoresLog | src/components/ChatInterface.tsx:30-43 | mounting the component on a stored conversation (which the dashboard never does for a row that has one) reproduces the visible log, with the round equal to its submitter count |
| ChatInterface.CompletionIgnoresRound | src/components/ChatInterface.tsx:119-125 | `markAsComplete` writes the same update whatever the round; only the button enforces the two-round floor |
| ChatSession.ExchangeEffect | src/components/ChatInterface.tsx:52-100 | an accepted exchange adds one submitter message. On success it also adds the reply, sets the round to the new submitter count plus the function's offset, and stores the log. On failure the round stays and nothing is stored |
| ChatSession.ExchangeIgnored | src/components/ChatInterface.tsx:53 | a refused send changes no state and stores nothing |
| ChatSession.ExchangeKeepsSettled | src/components/ChatInterface.tsx:74 | the round never drops and never runs further ahead of the submitter count than the function's offset; a successful exchange raises it |
| ChatSession.RunKeepsSettled | src/components/ChatInterface.tsx:52-100 | any mix of answered and failed sends keeps the round within the function's offset of the submitter count and never lowers it, and each send adds at most one submitter message |
| ChatSession.RunCorrected | src/components/ChatInterface.tsx:53 | with the corrected function and answered sends, the log gains submitter messages up to exactly five and then no more, and the round always equals the count |
| ChatSession.RunAsWritten | supabase/functions/ai-chat/index.ts:88 | with the function as written and answered sends, the log stops at four submitter messages |
| ChatSession.RunFailing | src/components/ChatInterface.tsx:94-99 | failed sends leave the round where it was, so each is accepted and each adds a submitter message: the count grows without bound |
| ChatSession.FailuresThenAnswer | src/components/ChatInterface.tsx:77-85 | after `k` failed sends from a fresh suggestion, the next answered send stores `k + 1` submitter messages |
| ChatSession.FreshSessionAsWritten | supabase/functions/ai-chat/index.ts:88 | five answered sends on a fresh suggestion leave four submitter messages |
| ChatSession.FreshSessionCorrected | supabase/functions/ai-chat/index.ts:28-29 | the same five sends with the corrected function leave five |
| ChatSession.FirstAnswerAsWritten | supabase/functions/ai-chat/index.ts:88 | as written, one answered message sets the round to 2 and enables completion, while mounting the component on the stored log would start it at round 1 |
| ChatSession.AnswerSurvivesReload | src/components/ChatInterface.tsx:41-42 | with the corrected function, mounting the component on the stored log starts it at the session's round, and completion needs two submitter messages |
| ChatSession.RunStaysAhead | supabase/functions/ai-chat/index.ts:88 | as written, answered sends keep the round either at 0 with nothing sent or one ahead of the submitter count |
| ChatSession.AnnouncesPosted | supabase/functions/ai-chat/index.ts:29-44 | the system prompt of a send's request announces the submitter count of the log it posts |
| ChatSession.AnnouncesCount | src/components/ChatInterface.tsx:53-67 | an accepted send goes out, and its prompt announces the count of submitter messages including the new one |
| ChatSession.AsWrittenNeverAnnouncesFifth | supabase/functions/ai-chat/index.ts:56 | as written, in a fresh session whose sends are all answered, no request ever announces round 5, so the prompt's round-5 guidance to summarise is never reached |
| ChatSession.FifthSendAnnouncesFive | supabase/functions/ai-chat/index.ts:44-56 | after four answered sends with the round equal to the count, a non-blank fifth send goes out announcing round 5 |
| ChatSession.CorrectedAnnouncesFifth | supabase/functions/ai-chat/index.ts:28-29 | with the corrected function, the fifth send of a fresh answered session goes out announcing round 5 |
| GeneratePrd.Lines | supabase/functions/generate-prd/index.ts:20 | one `role: content` line per message, in order |
| GeneratePrd.Transcript | supabase/functions/generate-prd/index.ts:19-21 | a missing conversation gives the empty transcript; a single message gives its line alone |
| GeneratePrd.TranscriptSnoc | supabase/functions/generate-prd/index.ts:21 | one more message adds a line break and its line |
| GeneratePrd.TranscriptRoundTrip | supabase/functions/generate-prd/index.ts:19-21 | when no message spans lines, the transcript can be parsed back to the same roles, contents and order; a missing or empty conversation, whose transcript is empty, reads back as no messages |
| GeneratePrd.UserPromptLines | supabase/functions/generate-prd/index.ts:39 | for any title, description and transcript, the user prompt's lines are the request line, the lines of `Title: ` and the title, the lines of `Description: ` and the description, the summary header, then the transcript's lines |
| GeneratePrd.PrdCall | supabase/functions/generate-prd/index.ts:29-44 | the request has exactly two messages: the fixed product-manager instruction, then a submitter message whose content is the user prompt built from the body's title, description and transcript |
| GeneratePrd.PrdCallCarriesConversation | supabase/functions/generate-prd/index.ts:19-39 | reading the lines after the last summary header of the request's second message gives back the body's conversation (none when it is missing), whatever the title and description, when no message spans lines |
| GeneratePrd.Handle | supabase/functions/generate-prd/index.ts:11-65 | the effects of each kind of request. `OPTIONS` gets an empty answer. A body that fails to parse fails with the parser's message and makes no call. Every parsed body is sent unvalidated. A document is returned exactly when the reply has a choice, and it is that choice's content. Every other outcome is a 500 carrying the reply's error or "Failed to generate PRD" |
| FileUpload.Validate | src/components/FileUpload.tsx:26-44 | size is checked before type: over 10 MiB is rejected as too large whatever the type; otherwise a type outside the ten allowed strings is rejected as unsupported; otherwise there is no rejection |
| FileUpload.Extension | src/components/FileUpload.tsx:52 | the extension is the dot-free text after the last dot, or the whole name when there is no dot |
| FileUpload.StoragePathKeepsExtension | src/components/FileUpload.tsx:52-53 | the storage path ends in the file's own extension |
| FileUpload.StoragePathInjective | src/components/FileUpload.tsx:53 | for one user and file name, paths from different moments differ |
| FileUpload.HandleFileChange | src/components/FileUpload.tsx:22-83 | no file does nothing. A failed check shows that rejection, returns before upload and leaves the input. Otherwise the input is cleared whatever happens, and the outcome is not-signed-in exactly when there is no user, an upload failure exactly when the upload was attempted and failed. The upload goes to `user/time.ext` only with a user. A 24-hour link is requested exactly when the upload succeeded. The callback gets the link, name and type exactly when a non-empty link comes back; a successful upload without one ends in the no-link outcome |
| FileUpload.SizeLimitInclusive | src/components/FileUpload.tsx:27 | exactly 10 MiB passes the size check and one byte more fails it |
| FileUpload.ImageIconOnAllowedTypes | src/components/FileUpload.tsx:125-130 | among the allowed types, the picture icon marks exactly the four image formats |
| SuggestionForm.Submit | src/components/SuggestionForm.tsx:18-25 | `onSubmit` is called exactly when neither field is all whitespace. It gets the trimmed fields and both fields are cleared; otherwise the fields stay as typed |
| SuggestionForm.SubmitButtonMatchesGuard | src/components/SuggestionForm.tsx:61 | the button is enabled exactly when not busy and a submit would go through |
| SuggestionForm.SubmittedEntryIsClean | src/components/SuggestionForm.tsx:20-21 | what `onSubmit` receives is non-empty, has no surrounding whitespace, and would pass through unchanged if typed again |
| Dashboard.StatusIconFor | src/pages/Dashboard.tsx:101-110 | the check icon is for `approved` only, the cross for `rejected` only |
| Dashboard.StatusStylesAgree | src/pages/Dashboard.tsx:101-121 | two statuses share an icon exactly when they share a colour |
| Dashboard.DefaultStatusStyle | src/pages/Dashboard.tsx:101-121 | every status other than approved and rejected is styled like `pending` |
| Dashboard.Click | src/pages/Dashboard.tsx:206-208 | clicking opens the chat exactly for a pending suggestion with no conversation and then changes only the active suggestion; otherwise it changes nothing |
| Dashboard.ResumedChatStartsFresh | src/pages/Dashboard.tsx:136-140 | a suggestion that can be clicked open mounts the chat with only the greeting, at round 0, with completion not yet allowed |
| Dashboard.BackKeepsStaleRow | src/pages/Dashboard.tsx:140 | the back button clears the active suggestion without reloading the list, so the same row can be clicked open again |
| Dashboard.Create | src/pages/Dashboard.tsx:72-99 | without a user nothing happens. Otherwise a row owned by the user is inserted with the given title and description and status `pending`. The returned row becomes active; on an error the active suggestion stays. Loading ends, and the list, user and profile are untouched |
| Dashboard.CreatedSuggestionIsResumable | src/pages/Dashboard.tsx:77-91 | a created suggestion returned as inserted is active, could also be clicked open from the list, and opens a chat holding only the greeting for the typed title and description, at round 0 |
| Dashboard.OwnedBy | src/pages/Dashboard.tsx:58 | the selection keeps only the user's rows, each as often as the table has it |
| Dashboard.SortNewestFirst | src/pages/Dashboard.tsx:59 | the order is newest first and a permutation of its input |
| Dashboard.ListFor | src/pages/Dashboard.tsx:55-59 | the list holds exactly the user's rows, each as often as the table has it, newest first |
| Dashboard.Fetch | src/pages/Dashboard.tsx:40-70 | without a user nothing happens. When both queries succeed, the profile and the user's list are shown. A successful profile query always shows its profile; a failed one keeps the old profile and list, and a failed list query keeps the old list. Loading ends, and the user and the active suggestion are untouched |

These definitions model source lines but carry no contract of their own. The members in the table above state what they do:
- `Messages.CountUser`: the number of submitter messages, which the function computes at `supabase/functions/ai-chat/index.ts:28-29` and the component at `src/components/ChatInterface.tsx:41-42`. Its contract is in `Messages.UserMessages` (it is the length of that filter) and `Messages.CountUserAppend`, and every round fact about it is in the `ChatSession` rows.
- `Messages.RoleName` and `GeneratePrd.Line`: the `${msg.role}: ${msg.content}` line of a message (`supabase/functions/generate-prd/index.ts:20`). Their contract is in `GeneratePrd.Lines` and `GeneratePrd.TranscriptRoundTrip`.
- `Upstream.IsPreflight`: the `OPTIONS` check (`supabase/functions/ai-chat/index.ts:13-15`, `supabase/functions/generate-prd/index.ts:12-14`). Its contract is in `AiChat.Serve` and `GeneratePrd.Handle`.
- `Text.Trim`: `String.prototype.trim` (`src/components/SuggestionForm.tsx:20`, `src/components/ChatInterface.tsx:53`). Its contract is in `Text.TrimSpec`, `Text.TrimSlice` and `Text.TrimIdempotent`.
- `Text.StartsWith`: `String.prototype.startsWith` (`src/components/FileUpload.tsx:126`). Its contract is in `FileUpload.ImageIconOnAllowedTypes`.
- `Text.Join`: `join('\n')` (`supabase/functions/generate-prd/index.ts:21`). Its contract is in `Text.JoinSplit` and `Text.SplitJoin`.
- `AiChat.SystemPrompt`: the system message template (`supabase/functions/ai-chat/index.ts:42-65`). Its contract is in `AiChat.PromptAnnouncesRound`.
- `AiChat.ChatCall`: the body posted to the chat-completions service (`supabase/functions/ai-chat/index.ts:37-71`). Its contract is in `AiChat.CallCarriesLog`.
- `GeneratePrd.UserPrompt`: the second prompt message (`supabase/functions/generate-prd/index.ts:39`). Its contract is in `GeneratePrd.UserPromptLines` and `GeneratePrd.PrdCallCarriesConversation`.
- `FileUpload.StoragePath`: `${user.id}/${Date.now()}.${fileExt}` (`src/components/FileUpload.tsx:53`). Its contract is in `FileUpload.StoragePathKeepsExtension` and `FileUpload.StoragePathInjective`.
- `FileUpload.ShowsImageIcon`: the picture icon for `image/` types (`src/components/FileUpload.tsx:126`). Its contract is in `FileUpload.ImageIconOnAllowedTypes`.
- `ChatInterface.Accepts`: the guard of `sendMessage` (`src/components/ChatInterface.tsx:53`). Its contract is in `ChatInterface.BeginSend` and `ChatInterface.SendButtonMatchesGuard`.
- `ChatInterface.Edit`: typing into the input field (`src/components/ChatInterface.tsx:265`). It appears in the `ChatSession` rows, where every send starts with it.
- `ChatInterface.IsConversationComplete`: the cap of five rounds (`src/components/ChatInterface.tsx:158`). Its contract is in `ChatInterface.Progress` and `ChatInterface.CapDisablesSending`.
- `ChatInterface.CanComplete`: the complete button is enabled when idle and at round 2 or more (`src/components/ChatInterface.tsx:289`).
- `ChatInterface.InputDisabled`: the input field is disabled when busy or at the cap (`src/components/ChatInterface.tsx:267`). Its contract is in `ChatInterface.CapDisablesSending`.
- `ChatInterface.SendDisabled`: the send button is disabled when busy, with blank input, or at the cap (`src/components/ChatInterface.tsx:271`). Its contract is in `ChatInterface.SendButtonMatchesGuard`.
- `ChatSession.Exchange` and `ChatSession.Run`: one send carried through the chat function and back, and a sequence of them (`src/components/ChatInterface.tsx:52-100`). Their contracts are in the `ChatSession` lemmas.
- `SuggestionForm.SubmitEnabled`: the submit button's enabled state (`src/components/SuggestionForm.tsx:61`). Its contract is in `SuggestionForm.SubmitButtonMatchesGuard`.
- `Dashboard.ChatFor`: the row passed to the chat component as its prop (`src/pages/Dashboard.tsx:138-139`). Its contract is in `Dashboard.ResumedChatStartsFresh` and `Dashboard.CreatedSuggestionIsResumable`.
- `Dashboard.StatusColor`: the badge colour per status (`src/pages/Dashboard.tsx:112-121`). Its contract is in `Dashboard.StatusStylesAgree` and `Dashboard.DefaultStatusStyle`.
- `Dashboard.CanResume`: a row can be clicked open, and shows its "Continue with AI" button, when pending with an empty conversation (`src/pages/Dashboard.tsx:206` and `:236`). Its contract is in `Dashboard.Click`.
- `Dashboard.CloseChat`: the back and completion callbacks clear the active suggestion (`src/pages/Dashboard.tsx:140-142`). Its contract is in `Dashboard.BackKeepsStaleRow`.
- `Dashboard.ShowsAdminNotes`: notes show only when present and non-empty (`src/pages/Dashboard.tsx:226`).
- `Dashboard.ShowsAdminButton`: the admin button shows only to the admin role (`src/pages/Dashboard.tsx:163`).

Four behaviours of the code that the model keeps:
- No department is collected when a suggestion is created (`src/pages/Dashboard.tsx:77-86`).
- `markAsComplete` writes status `pending` without checking the round (`src/components/ChatInterface.tsx:119-125`).
- The opening greeting is a fixed template, not an answer from the language model (`src/components/ChatInterface.tsx:31-33`).
- A failed send keeps its submitter message. The next successful send stores it, so the stored conversation can hold more than five submitter messages (`ChatSession.RunFailing`, `ChatSession.FailuresThenAnswer`).

## Left out

- Calls to Supabase and OpenAI, `fetch`, the API key and the CORS header contents: these are not modelled. The model's reply, the database answers, the storage service and the signed-in user are arguments of the step functions.
- `AiChat.Serve`:
  - the posted `messages` are taken to be well-formed `{role, content}` pairs with one of the two roles;
  - elements of any other shape are not modelled, and neither are non-string titles in the other handlers (JavaScript would print them as `undefined` or `[object Object]`).
- `GeneratePrd.Body`: `aiConversation` is either missing or a list of messages. A truthy value that is not an array is not modelled; in the code `.map` then throws, and the handler answers 500 without calling the model (`supabase/functions/generate-prd/index.ts:19-20`).
- `AiChat.Serve` and `GeneratePrd.Handle`: an error body from the service that is not JSON is not modelled. A reply is either OK with its choices, or not OK with an optional message.
- `Upstream.ReplyText`: a choice without `message.content` is not modelled. A present choice is taken to be its content string.
- Rendering, toasts, `setTimeout` and scrolling are not modelled. This includes the toast after round 5 and the delay before `onComplete`. Only the predicates that decide what is shown are kept.
- Concurrency is not modelled. The busy flag is a plain boolean in sequential state, and an interleaving of two sends or of a send with `markAsComplete` is not modelled.
- The `department` prop of the chat component is not modelled. It is only printed in the chat's header, and the dashboard's rows have no such field.
- The dashboard mounts the chat only for a new row or a clicked row with an empty conversation (`src/pages/Dashboard.tsx:136-140` and `:206-208`). So a stored conversation is never reloaded into the component. `ChatInterface.ReloadRestoresLog` and `ChatSession.AnswerSurvivesReload` describe that mounting as the component would do it.
- `ChatInterface.Greeting`: the contract fixes only the role. The Danish text and where the title and description are placed are given by the definition alone.
- `ChatInterface.MarkAsComplete`: when the awaited write throws is not modelled further; `Delivery.Threw` stands for it. The database client reports a failed write in its result without throwing, which is `Returned(true)`.
- `ChatInterface.Receive`: a reported round of zero is the falsy case of `data.conversationRound ||`. A missing or non-numeric report is not modelled.
- `ChatInterface.Progress`: computed on integers as `round * 20` capped at 100. The floating-point `round / 5 * 100` is not modelled.
- `handleKeyPress` (Enter sends) is not modelled separately: it calls the same `sendMessage`.
- The clock is not modelled: `Date.now()` is a parameter of `FileUpload.HandleFileChange`.
- The creation timestamp is an integer ordered as the database orders it. Ties in the newest-first order are not modelled; the list's contract says only sorted and permutation.
- `FileUpload.HandleFileChange`: the path the storage service returns is taken to be the one requested. The `uploading` flag and the button it disables are not modelled.
- `src/pages/Auth.tsx`, `src/pages/Index.tsx`, `src/pages/Admin.tsx` and `src/pages/CreateIdea.tsx` are not part of this model. They are sign-in, navigation, and fetch-and-render code.
- The admin review workflow is not part of this model: approve/reject/more-info, archiving, PRD on approval, departments, metadata editing and chat attachments in the conversation. None of them exists in the component code modelled here.
- The end-to-end browser scripts under `cypress/` are not part of this model.

## Findings

| source | as written | input that shows it | evidently intended | confidence | as-written member | corrected member |
|---|---|---|---|---|---|---|
| supabase/functions/ai-chat/index.ts:88 | the function reports `conversationRound + 1`, but the client posted the log with its new message, so the count already includes it | a fresh suggestion and one answered send: the log holds 1 submitter message but the round becomes 2, and completion is enabled. Five answered sends keep only four submitter messages, and no request of an answered session ever announces round 5, so the prompt's round-5 step (summarise and suggest submitting) is never reached. The component mounted on the stored log would compute round 1, though the dashboard mounts it only for rows with no conversation | the reported round equals the number of submitter messages in the posted log, as src/components/ChatInterface.tsx:41-42 computes it from a stored log | not executed | AiChat.Handle (shown by ChatSession.FirstAnswerAsWritten, ChatSession.FreshSessionAsWritten, ChatSession.AsWrittenNeverAnnouncesFifth) | AiChat.HandleCorrected (proved in ChatSession.FreshSessionCorrected, ChatSession.CorrectedAnnouncesFifth, ChatSession.AnswerSurvivesReload) |
