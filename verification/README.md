# Chat reply resolution of the prompt-design tutor, in Dafny

This project models the decision logic of the AIStudentChat tutor's chat
widget. The widget answers a student's message in one of two ways. It can
ask a hosted language model, through the server's `handleChatRequest`. Or it
can pick a canned reply from a small keyword table, through
`getPredefinedResponse`. Three layers are modelled:

- **Canned-reply lookup** (`Canned`, with string helpers in `Text`). There is
  one ordered keyword/reply table per language, and only the tag `"es"`
  selects Spanish. The message is lower-cased. The first declared keyword that
  occurs anywhere in it decides the reply; otherwise the `"default"` entry is
  used. The `"default"` key is itself visited last, as `Object.entries` does.
  Reply texts are named by a `Reply` kind and spelled out by `ReplyText`,
  because several keywords share one text.
- **Server resolver** (`Resolver`). It is "remote first, canned fallback".
  The API key is an `Option<string>` and counts as absent when unset or empty.
  The model call is an input `RemoteOutcome`: either it throws, or it returns
  a list of choices whose content may be null. The result records the reply
  and the request that was sent, if any.
- **Client send step** (`Chat`). The widget state is the transcript, the text
  box, the "use AI" switch, the key status and the remaining-interactions
  counter. A step function exists for each user event: typing, toggling, the
  key check, sending. `Run` folds a sequence of events. The `/api/chat` round
  trip is an input `ApiOutcome`. `EndToEnd` joins that round trip to the
  server resolver.

`CannedExamples` proves the worked instances of the lookup on literal
messages.

## Model

| member | source | states |
|---|---|---|
| `Text.ContainsIffOccurs` | client/src/lib/openai.ts:41 | the executable substring scan returns true exactly when the keyword occurs at some offset of the message (unanchored `includes`) |
| `Text.LowerIsLower` | client/src/lib/openai.ts:37 | lowering leaves no upper-case letter, fixes already lower-case text and is idempotent |
| `Text.TrimEmptyIffBlank` | client/src/components/chat/ChatInterface.tsx:66 | `trim()` yields the empty string exactly for inputs made only of ECMAScript whitespace |
| `Canned.LangOf` | client/src/lib/openai.ts:36 | the Spanish table is selected iff the tag is exactly "es"; every other tag selects English |
| `Canned.ReplyText` | client/src/lib/openai.ts:15-32 | every reply text of both tables is non-empty |
| `Canned.DefaultReply` | client/src/lib/openai.ts:47 | the reply under "default" exists and is the last entry the walk visits |
| `Canned.FindKeyword` | client/src/lib/openai.ts:40-44 | the index found holds an occurring keyword with no occurring keyword before it; none found means no keyword occurs |
| `Canned.ReplyOf` | client/src/lib/openai.ts:35-48 | the reply chosen is always one of the selected table's values |
| `Canned.PredefinedResponse` | client/src/lib/openai.ts:35-48 | the text returned is one of the selected table's values and never empty |
| `Canned.PredefinedResponseDefaultLanguage` | client/src/lib/openai.ts:35 | with the language omitted, the reply is exactly the one for the tag "es", so it comes from the Spanish table |
| `Canned.GetPredefinedResponse` | client/src/lib/openai.ts:35-48 | the early-return loop over the entries computes the same reply as the first-match definition |
| `Canned.FirstDeclaredMatchWins` | client/src/lib/openai.ts:40-43 | if keyword i occurs and no earlier one does, the scan stops at entry i and keyword i's reply is returned whatever later keywords occur |
| `Canned.NoKeywordGivesDefault` | client/src/lib/openai.ts:40-47 | if no real keyword occurs, the reply is the "default" entry, even though the "default" key is itself matched in the loop |
| `Canned.NonSpanishIsEnglish` | client/src/lib/openai.ts:36 | every language tag other than exactly "es" gets the same reply as "en" |
| `Canned.MatchingIgnoresCase` | client/src/lib/openai.ts:37-41 | a message and its lower-cased form get the same reply |
| `CannedExamples.HolaBeforeAyuda` | client/src/lib/openai.ts:40-43 | "hola, necesito ayuda" contains "ayuda" (entry 4) yet the scan stops at the "hola" entry (3), giving its greeting |
| `CannedExamples.UpperCaseExercise` | client/src/lib/openai.ts:37-41 | "EXERCISE please" gets the "exercise" reply |
| `CannedExamples.PromptBeforeHelp` | client/src/lib/openai.ts:40-43 | "help with a prompt" gets the "prompt" reply, which is declared before "help" |
| `CannedExamples.KeywordInsideWord` | client/src/lib/openai.ts:41 | "practicar" matches the keyword "practica" inside a longer word |
| `CannedExamples.NoKeywordInXyzzy` | client/src/lib/openai.ts:47 | "xyzzy" gets the Spanish "default" reply exactly |
| `CannedExamples.FrenchIsEnglish` | client/src/lib/openai.ts:36 | the tag "fr" is answered exactly as "en" |
| `Resolver.SystemPrompt` | server/services/openai.ts:22-24 | the Spanish instruction is used iff the language is "es", the English one otherwise |
| `Resolver.BuildRequest` | server/services/openai.ts:5-35 | the request names model gpt-4o with max_tokens 250 and holds exactly two messages: the instruction, then the user's message verbatim |
| `Resolver.FirstContent` | server/services/openai.ts:37 | reading `choices[0]` fails exactly when there is no choice, and otherwise yields the first choice's content |
| `Resolver.RemoteText` | server/services/openai.ts:37-38 | the model's text is used iff the call returned a first choice with non-null, non-empty content |
| `Resolver.HandleChatRequest` | server/services/openai.ts:8-45 | with no key, the reply is the canned one and nothing is sent; with a key, the two-message request is sent; usable content is returned unchanged; every other outcome gives the canned reply; the reply is never empty |
| `Resolver.FailureLooksLikeNoKey` | server/services/openai.ts:40-44 | a throwing, choice-less, null or empty remote answer yields the same reply as having no key |
| `Resolver.ReplyIsRemoteOrCanned` | server/services/openai.ts:37-43 | every reply is either the first choice's content from a request that was sent, or the canned reply |
| `Resolver.RemoteSuccessVerbatim` | server/services/openai.ts:37 | a key plus a non-empty answer returns exactly that answer, with the request recorded |
| `Chat.Initial` | client/src/components/chat/ChatInterface.tsx:19-26 | the widget starts with the welcome line only, an empty box, the switch on, no key status and 2 interactions |
| `Chat.ReplyLine` | client/src/components/chat/ChatInterface.tsx:73-103 | the remote branch runs iff the switch is on and interactions remain; a served answer costs one interaction; a failed request shows the error text at no cost; the canned branch shows the canned reply at no cost |
| `Chat.Send` | client/src/components/chat/ChatInterface.tsx:65-107 | a blank input changes nothing and calls nothing; otherwise exactly the untrimmed user line and the reply line of the branch taken (canned reply, served answer, or error text) are appended, the counter becomes that branch's value, and the box is cleared; a call carrying the untrimmed input is made iff the remote branch runs; the counter falls by exactly one iff that call is answered |
| `Chat.Validate` | client/src/components/chat/ChatInterface.tsx:30-52 | an invalid report or a throw records the key as invalid and turns the switch off; a valid report leaves the switch as it was |
| `Chat.Toggle` | client/src/components/chat/ChatInterface.tsx:189-193 | the switch follows the user only while interactions remain, and nothing else changes |
| `Chat.Type` | client/src/components/chat/ChatInterface.tsx:172-173 | typing replaces the box's text and nothing else |
| `Chat.SendPreserves` | client/src/components/chat/ChatInterface.tsx:66-103 | a send keeps the counter within 0..2, keeps the transcript as the welcome line plus (user, reply) pairs, and only appends to it |
| `Chat.StepPreserves` | client/src/components/chat/ChatInterface.tsx:26-107 | every event keeps the counter in range and the transcript well formed, never shrinks the transcript and never raises the counter |
| `Chat.RunPreserves` | client/src/components/chat/ChatInterface.tsx:26-107 | over any event sequence the counter stays in 0..2 and never rises, and the transcript only grows and stays well formed |
| `Chat.InitialIsWellFormed` | client/src/components/chat/ChatInterface.tsx:19-26 | the initial state satisfies the counter and transcript invariants |
| `Chat.CounterNeverNegative` | client/src/components/chat/ChatInterface.tsx:26-87 | starting from 2, no sequence of events drives the counter below zero |
| `Chat.SwitchStaysOff` | client/src/components/chat/ChatInterface.tsx:37-38 | once the switch is off, it stays off unless the user turns it back on |
| `Chat.CannedBranchSendsCanned` | client/src/components/chat/ChatInterface.tsx:88-92 | with the switch off or no interactions left, a send makes no call, appends the canned reply for the untrimmed input and leaves the counter alone |
| `Chat.AnsweredShownVerbatim` | client/src/components/chat/ChatInterface.tsx:76-87 | on the remote branch, a served answer is appended verbatim after the user line, the call carries the untrimmed input and the language, and one interaction is spent |
| `Chat.FailedRequestAppendsError` | client/src/components/chat/ChatInterface.tsx:95-103 | a failed request appends exactly the user line and then the error text, and leaves the counter alone |
| `EndToEnd.RouteLanguage` | server/routes.ts:36 | the route passes a non-empty tag through and replaces the empty tag by "es" |
| `EndToEnd.Served` | server/routes.ts:36-37 | the route answers the widget's call with the resolver's reply for the defaulted tag, which is never empty |
| `EndToEnd.ServedReplyNonEmpty` | client/src/components/chat/ChatInterface.tsx:78-94 | when the server resolves the call, the reply line shown is never empty |
| `EndToEnd.ServerFallbackMatchesLocal` | server/services/openai.ts:13-15 | for a non-empty tag, with no server key or a failed model call, the remote branch shows the same transcript as the canned branch but still spends one interaction |
| `EndToEnd.EmptyTagFallbackIsSpanish` | server/routes.ts:36 | for the empty tag the two paths differ: the route's fallback answers from the Spanish table, the widget's canned path from the English one |

## Left out

- Network and SDK calls (`apiRequest`, `openai.chat.completions.create`, `response.json()`, `checkOpenAIAPIKey`'s fetch) are not modelled. Their outcomes are inputs (`RemoteOutcome`, `ApiOutcome`, `Validation`), because their behaviour is not visible in this code.
- `Text.Lower`: lowers only the ASCII letters A-Z. JavaScript's `toLowerCase` also lowers other scripts, and a few non-ASCII capitals lower to ASCII letters (U+0130 gives "i" plus a combining dot; the Kelvin sign gives "k"). A message that reaches a keyword only through such a character is not matched by the model.
- The sampling temperature 0.7 is a floating-point value. It is kept as the opaque constant `Temperature0_7`.
- Logging (`console.log`, `console.error`) and the toast shown on an invalid key are not modelled. Neither affects any state.
- Of the route in server/routes.ts only the `language || 'es'` default is modelled (`EndToEnd.RouteLanguage`). Express wiring, the 500 answer and the 400 answer to a falsy message are not: the widget never posts a blank message, and `HandleChatRequest` catches its own failures.
- The validate endpoint and placeholder-file creation in server/routes.ts are not modelled. They are I/O glue.
- React rendering, `isLoading`, scrolling and the `useEffect` dependencies are not modelled. Each event is one atomic step, so the asynchronous interleaving of `setState` calls is not modelled either. In particular, the stale-closure read of `interactionsLeft` is absent: two sends in flight at once could both see the same counter.
- `Chat.Initial`: starts the counter at 2. The source reads the counter from localStorage under `interactions-left`, with 2 as the default, so a stored value from an earlier session is not modelled. `RunPreserves` holds from any state whose counter is within 0..2.
- The widget's translated strings (welcome line, error text) come from a language context that is not part of this model. They are the parameter `Texts`.
- client/src/lib/queryClient.ts is not part of this model. `apiRequest` is assumed to throw on a non-2xx status, so such a response is `RequestFailed`, not an `Answered` message.
- `Chat.Validate` treats `result.valid` as a boolean. A malformed JSON body is folded into `ValidationThrew`.
- Purity of `getPredefinedResponse` holds by construction. The tables are constants and every function here is pure, so no lemma states it.
- The module and resource content tables in client/src/lib/openai.ts, and the view components and pages, are not modelled. They are static data and view code.
- The widget tags its own replies with role `'system'` (client/src/components/chat/ChatInterface.tsx:84), modelled as `Bot`. The language tag is any string, not only "es" or "en".
- `Chat.Run`: fixes one language and one `Texts` for the whole session. In the widget a language change re-runs the key check (client/src/components/chat/ChatInterface.tsx:55) and later sends use the new tag; only the key check itself is modelled, as the `Validated` event.
