/** The widget's remote path joined to the server's resolver: what the
    transcript shows when the `/api/chat` answer is `handleChatRequest`'s reply
    for the text the widget sent. */
module EndToEnd {
  import opened Wrappers
  import opened Text
  import opened Canned
  import opened Resolver
  import opened Chat

  /** The tag the `/api/chat` route hands to the resolver: `language || 'es'`. */
  function RouteLanguage(language: string): (l: string)
    ensures l != ""
    ensures language != "" ==> l == language
    ensures language == "" ==> l == "es"
  {
    if language == "" then "es" else language
  }

  /** The outcome the widget sees when the route resolves its call; the route's
      400 answer to a falsy message is left out, since the widget never sends one. */
  function Served(call: ChatCall, apiKey: Option<string>, remote: RemoteOutcome): (o: ApiOutcome)
    ensures o.Answered? && |o.message| > 0
    ensures o.message == HandleChatRequest(call.message, RouteLanguage(call.language), apiKey, remote).reply
  {
    Answered(HandleChatRequest(call.message, RouteLanguage(call.language), apiKey, remote).reply)
  }

  /** A served send never shows an empty reply line. */
  lemma ServedReplyNonEmpty(s: State, language: string, texts: Texts, apiKey: Option<string>, remote: RemoteOutcome)
    requires !IsBlank(s.input)
    ensures var r := Send(s, language, texts, Served(ChatCall(s.input, language), apiKey, remote));
            |r.next.transcript[|s.transcript| + 1].content| > 0
  {
  }

  /** When the server has no key or its model call fails, the remote path shows the
      same reply line the canned path would have shown, yet still spends an interaction. */
  lemma ServerFallbackMatchesLocal(s: State, language: string, texts: Texts, apiKey: Option<string>, remote: RemoteOutcome)
    requires ApiBranch(s) && !IsBlank(s.input) && language != ""
    requires !KeyPresent(apiKey) || RemoteText(remote).None?
    ensures var remotePath := Send(s, language, texts, Served(ChatCall(s.input, language), apiKey, remote)).next;
            var localPath := Send(s.(useApi := false), language, texts, RequestFailed).next;
            && remotePath.transcript == localPath.transcript
            && remotePath.interactionsLeft == localPath.interactionsLeft - 1
  {
    var served := Served(ChatCall(s.input, language), apiKey, remote);
    assert served.message == PredefinedResponse(s.input, language);
  }

  /** With the empty tag the two paths part ways: the route's default answers a
      failed remote call from the Spanish table, while the widget's canned path
      answers the same text from the English one. */
  lemma EmptyTagFallbackIsSpanish(s: State, texts: Texts, apiKey: Option<string>, remote: RemoteOutcome)
    requires ApiBranch(s) && !IsBlank(s.input)
    requires !KeyPresent(apiKey) || RemoteText(remote).None?
    ensures var remotePath := Send(s, "", texts, Served(ChatCall(s.input, ""), apiKey, remote)).next;
            var localPath := Send(s.(useApi := false), "", texts, RequestFailed).next;
            && remotePath.transcript[|s.transcript| + 1].content == PredefinedResponse(s.input, "es")
            && localPath.transcript[|s.transcript| + 1].content == PredefinedResponse(s.input, "en")
  {
    NonSpanishIsEnglish(s.input, "");
  }
}
