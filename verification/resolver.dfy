/** The server's reply resolver, `handleChatRequest` in
    server/services/openai.ts: ask the hosted model first and fall back to the
    canned reply when there is no API key, when the call throws, or when it
    answers with empty content. The remote call is an input: the outcome it
    would have, given as a `RemoteOutcome`. */
module Resolver {
  import opened Wrappers
  import opened Canned

  /** The model identifier sent with every request. */
  const Model: string := "gpt-4o"

  /** The `max_tokens` bound sent with every request. */
  const MaxTokens: nat := 250

  /** The sampling temperature; the source sends the float 0.7, kept opaque here. */
  datatype Temperature = Temperature0_7

  datatype Role = SystemTurn | UserTurn

  datatype Message = Message(role: Role, content: string)

  /** The body of `openai.chat.completions.create`. */
  datatype Request = Request(model: string, messages: seq<Message>, maxTokens: nat, temperature: Temperature)

  /** One element of `response.choices`: its `message.content`, possibly null. */
  datatype Choice = Choice(content: Option<string>)

  /** How the remote call ends: it throws (network, authentication, timeout), or
      it resolves to a response with a list of choices. */
  datatype RemoteOutcome = Threw | Returned(choices: seq<Choice>)

  /** The resolver's result, and the request it sent to the model, if any. */
  datatype Resolution = Resolution(reply: string, sent: Option<Request>)

  const SpanishSystemPrompt: string :=
    "Eres un asistente " + "educativo " + "especializado en "
    + "enseñar diseño de " + "prompts para IA. " + "Proporciona "
    + "respuestas " + "concisas y " + "educativas sobre "
    + "cómo crear buenos " + "prompts. Las " + "respuestas deben "
    + "ser de máximo 150 " + "palabras y " + "apropiadas para "
    + "estudiantes."

  const EnglishSystemPrompt: string :=
    "You are an " + "educational " + "assistant "
    + "specialized in " + "teaching AI prompt " + "design. Provide "
    + "concise, " + "educational " + "responses about "
    + "how to create good " + "prompts. Responses " + "should be maximum "
    + "150 words and " + "appropriate for " + "students."

  /** `!apiKey`: an unset or empty `OPENAI_API_KEY` counts as absent. */
  predicate KeyPresent(apiKey: Option<string>) {
    apiKey.Some? && apiKey.value != ""
  }

  /** The Spanish instruction is chosen exactly for the tag "es", the English one otherwise. */
  function SystemPrompt(language: string): (p: string)
    ensures p == SpanishSystemPrompt <==> language == "es"
    ensures p == EnglishSystemPrompt <==> language != "es"
  {
    assert SpanishSystemPrompt[0] != EnglishSystemPrompt[0];
    if language == "es" then SpanishSystemPrompt else EnglishSystemPrompt
  }

  /** The single-turn request: instruction first, then the user's message verbatim. */
  function BuildRequest(message: string, language: string): (r: Request)
    ensures r.model == "gpt-4o" && r.maxTokens == 250
    ensures |r.messages| == 2
    ensures r.messages[0].role == SystemTurn && r.messages[0].content == SystemPrompt(language)
    ensures r.messages[1].role == UserTurn && r.messages[1].content == message
  {
    Request(Model, [Message(SystemTurn, SystemPrompt(language)), Message(UserTurn, message)], MaxTokens, Temperature0_7)
  }

  /** `response.choices[0].message.content`: `None` models the TypeError a
      missing first choice raises, which the `catch` handles like a thrown call. */
  function FirstContent(choices: seq<Choice>): (c: Option<Option<string>>)
    ensures c.None? <==> |choices| == 0
    ensures c.Some? ==> c.value == choices[0].content
  {
    if |choices| == 0 then None else Some(choices[0].content)
  }

  /** The text the remote call contributes, if it is usable: present, non-null, non-empty. */
  function RemoteText(remote: RemoteOutcome): (t: Option<string>)
    ensures t.Some? ==> |t.value| > 0
    ensures t.Some? <==> remote.Returned? && |remote.choices| > 0
                         && remote.choices[0].content.Some? && remote.choices[0].content.value != ""
  {
    match remote
    case Threw => None
    case Returned(choices) =>
      match FirstContent(choices)
      case None => None
      case Some(content) =>
        if content.Some? && content.value != "" then content else None
  }

  /** `handleChatRequest(message, language)` with the key read from the environment
      and the remote call's outcome given. */
  function HandleChatRequest(message: string, language: string, apiKey: Option<string>, remote: RemoteOutcome): (r: Resolution)
    ensures |r.reply| > 0
    ensures !KeyPresent(apiKey) ==> r == Resolution(PredefinedResponse(message, language), None)
    ensures KeyPresent(apiKey) ==> r.sent == Some(BuildRequest(message, language))
    ensures KeyPresent(apiKey) && RemoteText(remote).Some? ==> r.reply == RemoteText(remote).value
    ensures RemoteText(remote).None? ==> r.reply == PredefinedResponse(message, language)
  {
    if !KeyPresent(apiKey) then
      Resolution(PredefinedResponse(message, language), None)
    else
      var request := BuildRequest(message, language);
      match RemoteText(remote)
      case Some(text) => Resolution(text, Some(request))
      case None => Resolution(PredefinedResponse(message, language), Some(request))
  }

  /** A failed call, whether it threw, returned no choice, or returned null or
      empty content, answers exactly as if no key were configured. */
  lemma FailureLooksLikeNoKey(message: string, language: string, key: string, remote: RemoteOutcome)
    requires key != ""
    requires RemoteText(remote).None?
    ensures HandleChatRequest(message, language, Some(key), remote).reply
         == HandleChatRequest(message, language, None, remote).reply
  {
  }

  /** Every reply is either the model's own non-empty text, unchanged, or the canned reply. */
  lemma ReplyIsRemoteOrCanned(message: string, language: string, apiKey: Option<string>, remote: RemoteOutcome)
    ensures var r := HandleChatRequest(message, language, apiKey, remote);
            (remote.Returned? && |remote.choices| > 0 && remote.choices[0].content == Some(r.reply) && r.sent.Some?)
            || r.reply == PredefinedResponse(message, language)
  {
  }

  /** With a key, the call is made, and when it yields content that content is the reply. */
  lemma RemoteSuccessVerbatim(message: string, language: string, key: string, text: string)
    requires key != "" && text != ""
    ensures HandleChatRequest(message, language, Some(key), Returned([Choice(Some(text))]))
         == Resolution(text, Some(BuildRequest(message, language)))
  {
  }
}
