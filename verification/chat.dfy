/** The chat widget's send step (`handleSendMessage` in
    client/src/components/chat/ChatInterface.tsx) and the state it keeps: the
    transcript, the text box, the "use AI" switch, the API-key status and the
    remaining remote interactions. Each user action is one atomic step; the
    server round trip is an input, given as an `ApiOutcome`. */
module Chat {
  import opened Wrappers
  import opened Text
  import opened Canned

  /** Who wrote a transcript line; the widget tags its own replies `'system'`. */
  datatype Sender = User | Bot

  datatype ChatMessage = ChatMessage(role: Sender, content: string)

  /** The two translated strings the step uses, from the language context. */
  datatype Texts = Texts(welcome: string, chatError: string)

  datatype State = State(
    transcript: seq<ChatMessage>,
    input: string,
    useApi: bool,
    apiKeyValid: Option<bool>,
    interactionsLeft: int)

  /** The stored counter's initial value. */
  const InitialInteractions: int := 2

  /** The body the widget posts to `/api/chat`. */
  datatype ChatCall = ChatCall(message: string, language: string)

  /** How the POST to `/api/chat` ends: a JSON body with a `message`, or a throw
      (network error, non-2xx status, unreadable body). */
  datatype ApiOutcome = Answered(message: string) | RequestFailed

  /** What `checkOpenAIAPIKey` resolves to, or a throw from it. */
  datatype Validation = Reported(valid: bool) | ValidationThrew

  /** The state after a send, and the call it made to the server, if any. */
  datatype SendResult = SendResult(next: State, call: Option<ChatCall>)

  /** The state a freshly mounted widget starts in. */
  function Initial(texts: Texts): (s: State)
    ensures s.transcript == [ChatMessage(Bot, texts.welcome)]
    ensures s.input == "" && s.useApi && s.apiKeyValid.None?
    ensures s.interactionsLeft == 2
  {
    State([ChatMessage(Bot, texts.welcome)], "", true, None, InitialInteractions)
  }

  /** The remote path is taken exactly when the switch is on and interactions remain. */
  predicate ApiBranch(s: State) {
    s.useApi && s.interactionsLeft > 0
  }

  /** The reply line a non-blank send appends, and the counter after it. */
  function ReplyLine(s: State, language: string, texts: Texts, outcome: ApiOutcome): (r: (string, int))
    ensures !ApiBranch(s) ==> r == (PredefinedResponse(s.input, language), s.interactionsLeft)
    ensures ApiBranch(s) && outcome.Answered? ==> r == (outcome.message, s.interactionsLeft - 1)
    ensures ApiBranch(s) && outcome.RequestFailed? ==> r == (texts.chatError, s.interactionsLeft)
  {
    if ApiBranch(s) then
      match outcome
      case Answered(message) => (message, s.interactionsLeft - 1)
      case RequestFailed => (texts.chatError, s.interactionsLeft)
    else
      (PredefinedResponse(s.input, language), s.interactionsLeft)
  }

  /** `handleSendMessage`: ignore a blank input; otherwise append the user's line
      and exactly one reply line, clear the box, and count a successful remote call. */
  function Send(s: State, language: string, texts: Texts, outcome: ApiOutcome): (r: SendResult)
    ensures IsBlank(s.input) ==> r == SendResult(s, None)
    ensures !IsBlank(s.input) ==>
              && |r.next.transcript| == |s.transcript| + 2
              && r.next.transcript[..|s.transcript|] == s.transcript
              && r.next.transcript[|s.transcript|] == ChatMessage(User, s.input)
              && r.next.transcript[|s.transcript| + 1].role == Bot
              && r.next.transcript[|s.transcript| + 1].content == ReplyLine(s, language, texts, outcome).0
              && r.next.interactionsLeft == ReplyLine(s, language, texts, outcome).1
              && r.next.input == ""
    ensures r.next.useApi == s.useApi && r.next.apiKeyValid == s.apiKeyValid
    ensures r.call.Some? <==> !IsBlank(s.input) && ApiBranch(s)
    ensures r.call.Some? ==> r.call.value == ChatCall(s.input, language)
    ensures r.next.interactionsLeft == s.interactionsLeft - 1 <==> r.call.Some? && outcome.Answered?
    ensures r.next.interactionsLeft != s.interactionsLeft ==> r.next.interactionsLeft == s.interactionsLeft - 1
  {
    TrimEmptyIffBlank(s.input);
    if Trim(s.input) == "" then SendResult(s, None)
    else
      var (reply, left) := ReplyLine(s, language, texts, outcome);
      var next := s.(transcript := s.transcript + [ChatMessage(User, s.input), ChatMessage(Bot, reply)],
                     input := "",
                     interactionsLeft := left);
      SendResult(next, if ApiBranch(s) then Some(ChatCall(s.input, language)) else None)
  }

  /** The effect of the key check on mount: an invalid report or a throw turns the
      switch off; a valid report leaves the switch as it was. */
  function Validate(s: State, v: Validation): (r: State)
    ensures r.transcript == s.transcript && r.input == s.input && r.interactionsLeft == s.interactionsLeft
    ensures r.apiKeyValid == Some(v.Reported? && v.valid)
    ensures r.useApi == (s.useApi && v.Reported? && v.valid)
  {
    match v
    case Reported(valid) => s.(apiKeyValid := Some(valid), useApi := s.useApi && valid)
    case ValidationThrew => s.(apiKeyValid := Some(false), useApi := false)
  }

  /** The "use AI" switch; it is disabled, so ignores the user, once no interactions remain. */
  function Toggle(s: State, on: bool): (r: State)
    ensures r.useApi == (if s.interactionsLeft <= 0 then s.useApi else on)
    ensures r.(useApi := s.useApi) == s
  {
    if s.interactionsLeft <= 0 then s else s.(useApi := on)
  }

  /** The text box's `onChange`. */
  function Type(s: State, text: string): (r: State)
    ensures r.input == text && r.(input := s.input) == s
  {
    s.(input := text)
  }

  /** One user-visible event of the widget. */
  datatype Event =
    | Typed(text: string)
    | Toggled(on: bool)
    | Validated(v: Validation)
    | Sent(outcome: ApiOutcome)

  function Step(s: State, e: Event, language: string, texts: Texts): State {
    match e
    case Typed(text) => Type(s, text)
    case Toggled(on) => Toggle(s, on)
    case Validated(v) => Validate(s, v)
    case Sent(outcome) => Send(s, language, texts, outcome).next
  }

  /** The state after a sequence of events, applied in order. */
  function Run(s: State, events: seq<Event>, language: string, texts: Texts): State
    decreases |events|
  {
    if |events| == 0 then s else Run(Step(s, events[0], language, texts), events[1..], language, texts)
  }

  /** The counter stays within `0..2`. */
  predicate CounterInRange(s: State) {
    0 <= s.interactionsLeft <= InitialInteractions
  }

  /** The transcript is the welcome line followed by (user line, reply line) pairs. */
  predicate WellFormedTranscript(t: seq<ChatMessage>)
    decreases |t|
  {
    if |t| <= 1 then |t| == 1 && t[0].role == Bot
    else
      && |t| >= 3
      && t[|t| - 2].role == User
      && t[|t| - 1].role == Bot
      && WellFormedTranscript(t[..|t| - 2])
  }

  /** Every event keeps the counter in range and the transcript well formed,
      and never shrinks the transcript or raises the counter. */
  lemma StepPreserves(s: State, e: Event, language: string, texts: Texts)
    requires CounterInRange(s) && WellFormedTranscript(s.transcript)
    ensures var r := Step(s, e, language, texts);
            && CounterInRange(r)
            && WellFormedTranscript(r.transcript)
            && r.transcript[..|s.transcript|] == s.transcript
            && r.interactionsLeft <= s.interactionsLeft
  {
    if e.Sent? {
      SendPreserves(s, language, texts, e.outcome);
    }
  }

  /** The send step keeps the counter in range and the transcript well formed. */
  lemma SendPreserves(s: State, language: string, texts: Texts, outcome: ApiOutcome)
    requires CounterInRange(s) && WellFormedTranscript(s.transcript)
    ensures var r := Send(s, language, texts, outcome).next;
            && CounterInRange(r)
            && WellFormedTranscript(r.transcript)
            && r.transcript[..|s.transcript|] == s.transcript
  {
    var t := Send(s, language, texts, outcome).next.transcript;
    if !IsBlank(s.input) {
      assert t[..|t| - 2] == s.transcript;
    }
  }

  /** From any reachable state, the counter never goes negative nor above 2,
      the transcript only grows, and the counter only falls. */
  lemma {:induction false} RunPreserves(s: State, events: seq<Event>, language: string, texts: Texts)
    requires CounterInRange(s) && WellFormedTranscript(s.transcript)
    ensures var r := Run(s, events, language, texts);
            && CounterInRange(r)
            && WellFormedTranscript(r.transcript)
            && |r.transcript| >= |s.transcript|
            && r.transcript[..|s.transcript|] == s.transcript
            && r.interactionsLeft <= s.interactionsLeft
    decreases |events|
  {
    if |events| > 0 {
      var s' := Step(s, events[0], language, texts);
      StepPreserves(s, events[0], language, texts);
      RunPreserves(s', events[1..], language, texts);
      var r := Run(s', events[1..], language, texts);
      assert r.transcript[..|s.transcript|] == r.transcript[..|s'.transcript|][..|s.transcript|];
    }
  }

  /** The widget's initial state satisfies the invariants. */
  lemma InitialIsWellFormed(texts: Texts)
    ensures CounterInRange(Initial(texts)) && WellFormedTranscript(Initial(texts).transcript)
  {
  }

  /** No event sequence from the initial state drives the counter negative. */
  lemma CounterNeverNegative(events: seq<Event>, language: string, texts: Texts)
    ensures Run(Initial(texts), events, language, texts).interactionsLeft >= 0
  {
    InitialIsWellFormed(texts);
    RunPreserves(Initial(texts), events, language, texts);
  }

  /** No event turns the switch back on by itself: only the user's `Toggled(true)` does. */
  predicate NoReenable(events: seq<Event>) {
    forall k :: 0 <= k < |events| ==> events[k] != Toggled(true)
  }

  /** Once the switch is off (an invalid key report, say), and the user does not
      turn it back on, it stays off, and every later send takes the canned path. */
  lemma {:induction false} SwitchStaysOff(s: State, events: seq<Event>, language: string, texts: Texts)
    requires !s.useApi && NoReenable(events)
    ensures !Run(s, events, language, texts).useApi
    decreases |events|
  {
    if |events| > 0 {
      var s' := Step(s, events[0], language, texts);
      assert !s'.useApi;
      assert NoReenable(events[1..]) by {
        forall k | 0 <= k < |events[1..]| ensures events[1..][k] != Toggled(true) {
          assert events[1..][k] == events[k + 1];
        }
      }
      SwitchStaysOff(s', events[1..], language, texts);
    }
  }

  /** Off the remote branch (switch off, or no interactions left), a non-blank send
      calls nothing, appends the canned reply and leaves the counter alone. */
  lemma CannedBranchSendsCanned(s: State, language: string, texts: Texts, outcome: ApiOutcome)
    requires !ApiBranch(s) && !IsBlank(s.input)
    ensures var r := Send(s, language, texts, outcome);
            && r.call.None?
            && r.next.transcript == s.transcript + [ChatMessage(User, s.input), ChatMessage(Bot, PredefinedResponse(s.input, language))]
            && r.next.interactionsLeft == s.interactionsLeft
  {
  }

  /** On the remote branch, a served answer is shown verbatim and costs one interaction. */
  lemma AnsweredShownVerbatim(s: State, language: string, texts: Texts, message: string)
    requires ApiBranch(s) && !IsBlank(s.input)
    ensures var r := Send(s, language, texts, Answered(message));
            && r.call == Some(ChatCall(s.input, language))
            && r.next.transcript == s.transcript + [ChatMessage(User, s.input), ChatMessage(Bot, message)]
            && r.next.interactionsLeft == s.interactionsLeft - 1
  {
  }

  /** A failed request appends exactly the error line after the user's line. */
  lemma FailedRequestAppendsError(s: State, language: string, texts: Texts)
    requires ApiBranch(s) && !IsBlank(s.input)
    ensures var r := Send(s, language, texts, RequestFailed);
            && r.next.transcript == s.transcript + [ChatMessage(User, s.input), ChatMessage(Bot, texts.chatError)]
            && r.next.interactionsLeft == s.interactionsLeft
  {
  }
}
