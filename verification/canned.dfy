/** The canned-reply lookup of the chat client (client/src/lib/openai.ts):
    a per-language table of keyword/reply pairs, walked in declaration order,
    whose first keyword found inside the lower-cased message decides the reply. */
module Canned {
  import opened Wrappers
  import opened Text

  /** One `keyword: reply` property of a language's response object; the
      reply is named by its kind and spelled out by `ReplyText`. */
  datatype Entry = Entry(keyword: string, reply: Reply)

  /** The two reply tables; every language tag selects one of them. */
  datatype Lang = Es | En

  /** The key of the fall-through reply, present in both tables. */
  const DefaultKey: string := "default"

  /** The language used when the caller passes none. */
  const DefaultLanguage: string := "es"

  /** The distinct reply texts; several keywords share one. */
  datatype Reply = Advice | Exercises | Greeting | NoAnswer

  /** The text of a reply in a language's table. */
  function ReplyText(l: Lang, r: Reply): (s: string)
    ensures |s| > 0
  {
    match l
    case Es => (
      match r
      case Advice =>
        "Un buen prompt " + "debe ser " + "específico, claro "
        + "y proporcionar " + "contexto. Intenta " + "formular preguntas "
        + "precisas y " + "proporcionar " + "detalles "
        + "relevantes para " + "obtener mejores " + "respuestas."
      case Exercises =>
        "Te sugiero revisar " + "los ejercicios en " + "el Módulo 1.3. "
        + "Allí encontrarás " + "actividades " + "prácticas para "
        + "mejorar tu " + "habilidad de " + "diseño de prompts."
      case Greeting =>
        "¡Hola! Estoy aquí " + "para ayudarte con " + "el diseño de "
        + "prompts y el uso " + "de inteligencia " + "artificial. ¿En "
        + "qué puedo " + "asistirte hoy?"
      case NoAnswer =>
        "Lo siento, no " + "tengo una " + "respuesta "
        + "predefinida para " + "esa pregunta. Te " + "recomiendo revisar "
        + "el material en los " + "módulos de " + "aprendizaje para "
        + "encontrar " + "información " + "relacionada.")
    case En => (
      match r
      case Advice =>
        "A good prompt " + "should be " + "specific, clear, "
        + "and provide " + "context. Try to " + "formulate precise "
        + "questions and " + "provide relevant " + "details to get "
        + "better answers."
      case Exercises =>
        "I suggest " + "reviewing the " + "exercises in "
        + "Module 1.3. There " + "you'll find " + "practical "
        + "activities to " + "improve your " + "prompt design "
        + "skills."
      case Greeting =>
        "Hello! I'm here to " + "help you with " + "prompt design and "
        + "the use of " + "artificial " + "intelligence. How "
        + "can I assist you " + "today?"
      case NoAnswer =>
        "I'm sorry, I don't " + "have a predefined " + "response for that "
        + "question. I " + "recommend " + "reviewing the "
        + "material in the " + "learning modules " + "to find related "
        + "information.")
  }

  /** The Spanish response object, in declaration order. */
  const SpanishTable: seq<Entry> := [
    Entry("prompt", Advice),
    Entry("ejercicio", Exercises),
    Entry("practica", Exercises),
    Entry("hola", Greeting),
    Entry("ayuda", Greeting),
    Entry("default", NoAnswer)
  ]

  /** The English response object, in declaration order. */
  const EnglishTable: seq<Entry> := [
    Entry("prompt", Advice),
    Entry("exercise", Exercises),
    Entry("practice", Exercises),
    Entry("hello", Greeting),
    Entry("help", Greeting),
    Entry("default", NoAnswer)
  ]

  /** The table of a language, in the order `Object.entries` visits it. */
  function Table(l: Lang): seq<Entry> {
    match l
    case Es => SpanishTable
    case En => EnglishTable
  }

  /** Only the exact tag "es" selects Spanish; every other tag selects English. */
  function LangOf(language: string): (l: Lang)
    ensures l == Es <==> language == "es"
    ensures l == En <==> language != "es"
  {
    if language == "es" then Es else En
  }

  /** Property access `table[key]`: the reply stored under `key`, if any. */
  function Get(entries: seq<Entry>, key: string): (r: Option<Reply>)
    ensures r.Some? <==> exists k :: 0 <= k < |entries| && entries[k].keyword == key
    ensures r.Some? ==> exists k :: 0 <= k < |entries| && entries[k] == Entry(key, r.value)
  {
    if |entries| == 0 then None
    else if entries[0].keyword == key then Some(entries[0].reply)
    else
      var r := Get(entries[1..], key);
      assert forall k :: 1 <= k < |entries| ==> entries[k] == entries[1..][k - 1];
      r
  }

  /** The reply stored under "default", which is the table's last entry. */
  function DefaultReply(l: Lang): (r: Reply)
    ensures Get(Table(l), DefaultKey) == Some(r)
    ensures Table(l)[|Table(l)| - 1] == Entry(DefaultKey, r)
  {
    match l
    case Es => SpanishTable[5].reply
    case En => EnglishTable[5].reply
  }

  /** The replies a language's table can give. */
  ghost function Replies(l: Lang): set<Reply> {
    set k | 0 <= k < |Table(l)| :: Table(l)[k].reply
  }

  /** Index `i` holds the first keyword of `entries` occurring in `text`. */
  ghost predicate FirstMatchAt(entries: seq<Entry>, text: string, i: nat) {
    && i < |entries|
    && Occurs(text, entries[i].keyword)
    && forall k :: 0 <= k < i ==> !Occurs(text, entries[k].keyword)
  }

  /** No keyword of `entries` occurs in `text`. */
  ghost predicate NoMatch(entries: seq<Entry>, text: string) {
    forall k :: 0 <= k < |entries| ==> !Occurs(text, entries[k].keyword)
  }

  /** The index of the first entry whose keyword occurs in `text`, if any. */
  function FindKeyword(entries: seq<Entry>, text: string): (r: Option<nat>)
    ensures r.Some? ==> FirstMatchAt(entries, text, r.value)
    ensures r.None? ==> NoMatch(entries, text)
  {
    if |entries| == 0 then None
    else
      ContainsIffOccurs(text, entries[0].keyword);
      if Contains(text, entries[0].keyword) then Some(0)
      else
        match FindKeyword(entries[1..], text)
        case Some(i) =>
          assert forall k :: 1 <= k <= i + 1 ==> entries[k] == entries[1..][k - 1];
          Some(i + 1)
        case None =>
          assert forall k :: 1 <= k < |entries| ==> entries[k] == entries[1..][k - 1];
          None
  }

  /** Which reply `getPredefinedResponse(message, language)` gives: that of the
      first keyword found in the lower-cased message, else the "default" one. */
  function ReplyOf(message: string, language: string): (r: Reply)
    ensures r in Replies(LangOf(language))
  {
    var t := Table(LangOf(language));
    match FindKeyword(t, Lower(message))
    case Some(i) => t[i].reply
    case None => DefaultReply(LangOf(language))
  }

  /** `getPredefinedResponse(message, language)`: the text of one of the
      selected table's values, never empty. */
  function PredefinedResponse(message: string, language: string): (r: string)
    ensures |r| > 0
    ensures exists k :: 0 <= k < |Table(LangOf(language))| && r == ReplyText(LangOf(language), Table(LangOf(language))[k].reply)
  {
    ReplyText(LangOf(language), ReplyOf(message, language))
  }

  /** The call with the language argument omitted answers from the Spanish table. */
  function PredefinedResponseDefaultLanguage(message: string): (r: string)
    ensures r == PredefinedResponse(message, "es")
    ensures exists k :: 0 <= k < |Table(Es)| && r == ReplyText(Es, Table(Es)[k].reply)
  {
    PredefinedResponse(message, DefaultLanguage)
  }

  /** The loop of `getPredefinedResponse`: walk the entries, return on the first
      keyword the lower-cased message includes, otherwise the "default" reply. */
  method GetPredefinedResponse(message: string, language: string) returns (response: string)
    ensures response == PredefinedResponse(message, language)
  {
    var l := LangOf(language);
    var entries := Table(l);
    var messageLC := Lower(message);
    var i := 0;
    while i < |entries|
      invariant 0 <= i <= |entries|
      invariant forall k :: 0 <= k < i ==> !Occurs(messageLC, entries[k].keyword)
    {
      ContainsIffOccurs(messageLC, entries[i].keyword);
      if Contains(messageLC, entries[i].keyword) {
        assert FirstMatchAt(entries, messageLC, i);
        return ReplyText(l, entries[i].reply);
      }
      i := i + 1;
    }
    response := ReplyText(l, DefaultReply(l));
  }

  /** The first declared keyword that occurs decides the reply, whatever later
      keywords also occur. */
  lemma FirstDeclaredMatchWins(message: string, language: string, i: nat)
    requires FirstMatchAt(Table(LangOf(language)), Lower(message), i)
    ensures FindKeyword(Table(LangOf(language)), Lower(message)) == Some(i)
    ensures ReplyOf(message, language) == Table(LangOf(language))[i].reply
    ensures PredefinedResponse(message, language) == ReplyText(LangOf(language), Table(LangOf(language))[i].reply)
  {
    var t := Table(LangOf(language));
    var r := FindKeyword(t, Lower(message));
    assert r.Some?;
    assert !(r.value < i) && !(i < r.value);
  }

  /** When none of the real keywords occurs, the reply is the "default" entry:
      the "default" key itself, visited last, can only give the same reply. */
  lemma NoKeywordGivesDefault(message: string, language: string)
    requires NoMatch(Table(LangOf(language))[..|Table(LangOf(language))| - 1], Lower(message))
    ensures ReplyOf(message, language) == DefaultReply(LangOf(language))
    ensures PredefinedResponse(message, language) == ReplyText(LangOf(language), NoAnswer)
  {
    var l := LangOf(language);
    var t := Table(l);
    forall k | 0 <= k < |t| - 1
      ensures !Occurs(Lower(message), t[k].keyword)
    {
      assert t[..|t| - 1][k] == t[k];
    }
  }

  /** Any tag other than exactly "es" is answered as "en" would be. */
  lemma NonSpanishIsEnglish(message: string, language: string)
    requires language != "es"
    ensures ReplyOf(message, language) == ReplyOf(message, "en")
    ensures PredefinedResponse(message, language) == PredefinedResponse(message, "en")
  {
  }

  /** Matching ignores case: a message and its lower-cased form get the same reply. */
  lemma MatchingIgnoresCase(message: string, language: string)
    ensures ReplyOf(message, language) == ReplyOf(Lower(message), language)
    ensures PredefinedResponse(message, language) == PredefinedResponse(Lower(message), language)
  {
    LowerIsLower(message);
  }
}
