/** Worked instances of the canned-reply lookup: the tie-break, case
    folding, unanchored matching and the fall-through of
    `getPredefinedResponse`. Each fact about one literal message is proved
    in a lemma of its own, which keeps every proof obligation small. */
module CannedExamples {
  import opened Wrappers
  import opened Text
  import opened Canned

  /** `keyword` does not occur in `text`, shown by a character of it that `text` lacks. */
  lemma Absent(text: string, keyword: string, c: char)
    requires c in keyword && c !in text
    ensures !Occurs(text, keyword)
  {
    MissingCharNotContained(text, keyword, c);
    ContainsIffOccurs(text, keyword);
  }

  // "hola, necesito ayuda" (Spanish): both "hola" and "ayuda" occur; "hola" is declared first.

  lemma HolaMessageIsLower()
    ensures Lower("hola, necesito ayuda") == "hola, necesito ayuda"
  {
  }

  lemma HolaMessageLacksPrompt()
    ensures !Occurs("hola, necesito ayuda", "prompt")
  {
    Absent("hola, necesito ayuda", "prompt", 'p');
  }

  lemma HolaMessageLacksEjercicio()
    ensures !Occurs("hola, necesito ayuda", "ejercicio")
  {
    Absent("hola, necesito ayuda", "ejercicio", 'j');
  }

  lemma HolaMessageLacksPractica()
    ensures !Occurs("hola, necesito ayuda", "practica")
  {
    Absent("hola, necesito ayuda", "practica", 'p');
  }

  /** The later keyword "ayuda" occurs in that message too. */
  lemma AyudaOccurs()
    ensures Occurs(Lower("hola, necesito ayuda"), "ayuda")
  {
    var m := "hola, necesito ayuda";
    HolaMessageIsLower();
    assert m[15..20] == "ayuda";
    assert OccursAt(m, "ayuda", 15);
  }

  /** "hola, necesito ayuda" is decided by the "hola" entry (index 3), not by the
      later "ayuda" entry (index 4), although both occur. */
  lemma HolaBeforeAyuda()
    ensures FindKeyword(SpanishTable, Lower("hola, necesito ayuda")) == Some(3)
    ensures SpanishTable[3].keyword == "hola" && SpanishTable[4].keyword == "ayuda"
    ensures ReplyOf("hola, necesito ayuda", "es") == Greeting
    ensures Occurs(Lower("hola, necesito ayuda"), "ayuda")
  {
    var m := "hola, necesito ayuda";
    HolaMessageLacksPrompt();
    HolaMessageLacksEjercicio();
    HolaMessageLacksPractica();
    assert OccursAt(m, "hola", 0);
    assert FirstMatchAt(SpanishTable, m, 3);
    HolaMessageIsLower();
    FirstDeclaredMatchWins(m, "es", 3);
    AyudaOccurs();
  }

  // "EXERCISE please" (English): upper case in the message still matches "exercise".

  lemma ExerciseMessageLowered()
    ensures Lower("EXERCISE please") == "exercise please"
  {
  }

  lemma ExerciseMessageLacksPrompt()
    ensures !Occurs("exercise please", "prompt")
  {
    Absent("exercise please", "prompt", 'o');
  }

  /** "EXERCISE please" gets the "exercise" reply. */
  lemma UpperCaseExercise()
    ensures ReplyOf("EXERCISE please", "en") == Exercises
  {
    var lc := "exercise please";
    ExerciseMessageLacksPrompt();
    assert OccursAt(lc, "exercise", 0);
    assert FirstMatchAt(EnglishTable, lc, 1);
    ExerciseMessageLowered();
    FirstDeclaredMatchWins("EXERCISE please", "en", 1);
  }

  // "help with a prompt" (English): "prompt" is declared before "help".

  lemma HelpMessageIsLower()
    ensures Lower("help with a prompt") == "help with a prompt"
  {
  }

  /** "help with a prompt" gets the "prompt" reply. */
  lemma PromptBeforeHelp()
    ensures ReplyOf("help with a prompt", "en") == Advice
  {
    var m := "help with a prompt";
    assert OccursAt(m, "prompt", 12);
    assert FirstMatchAt(EnglishTable, m, 0);
    HelpMessageIsLower();
    FirstDeclaredMatchWins(m, "en", 0);
  }

  // "practicar" (Spanish): the keyword "practica" sits inside a longer word.

  lemma PracticarIsLower()
    ensures Lower("practicar") == "practicar"
  {
  }

  lemma PracticarLacksPrompt()
    ensures !Occurs("practicar", "prompt")
  {
    Absent("practicar", "prompt", 'o');
  }

  lemma PracticarLacksEjercicio()
    ensures !Occurs("practicar", "ejercicio")
  {
    Absent("practicar", "ejercicio", 'j');
  }

  /** "practicar" gets the "practica" reply: matching is not anchored at word ends. */
  lemma KeywordInsideWord()
    ensures ReplyOf("practicar", "es") == Exercises
  {
    var m := "practicar";
    PracticarLacksPrompt();
    PracticarLacksEjercicio();
    assert OccursAt(m, "practica", 0);
    assert FirstMatchAt(SpanishTable, m, 2);
    PracticarIsLower();
    FirstDeclaredMatchWins(m, "es", 2);
  }

  // "xyzzy" (Spanish): no keyword occurs.

  lemma XyzzyIsLower()
    ensures Lower("xyzzy") == "xyzzy"
  {
  }

  lemma XyzzyLacksKeywords()
    ensures NoMatch(SpanishTable[..5], "xyzzy")
  {
    Absent("xyzzy", "prompt", 'p');
    Absent("xyzzy", "ejercicio", 'e');
    Absent("xyzzy", "practica", 'p');
    Absent("xyzzy", "hola", 'h');
    Absent("xyzzy", "ayuda", 'a');
    assert SpanishTable[..5] == [SpanishTable[0], SpanishTable[1], SpanishTable[2], SpanishTable[3], SpanishTable[4]];
  }

  /** "xyzzy" gets the Spanish "default" reply exactly. */
  lemma NoKeywordInXyzzy()
    ensures ReplyOf("xyzzy", "es") == NoAnswer
  {
    XyzzyLacksKeywords();
    XyzzyIsLower();
    NoKeywordGivesDefault("xyzzy", "es");
  }

  /** An unsupported tag such as "fr" is answered from the English table. */
  lemma FrenchIsEnglish(message: string)
    ensures PredefinedResponse(message, "fr") == PredefinedResponse(message, "en")
  {
  }
}
