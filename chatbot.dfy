/** The conversation state of the Chatbot component
    (frontend/src/components/chatbot.tsx): the input buffer, the transcript
    and the two busy flags, the transitions that change them, and the
    expressions the view derives from them.

    `handleSendMessage` is split at its `await`: `Send` is the part that runs
    when the user submits, `Complete` the part that runs once the request to
    the answering endpoint has settled. The request itself is not modelled;
    its result reaches `Complete` as an `Outcome`. Message ids (drawn with
    Math.random) and timestamps (read from the clock) are parameters. */
module ChatbotComponent {
  import opened EcmaScript

  datatype Option<T> = None | Some(value: T)

  datatype Role = User | Bot

  /** One entry of the transcript. */
  datatype Message = Message(id: string, role: Role, content: string, timestamp: int)

  /** How the request to the answering endpoint settled: a successful
      response carrying an answer, or any failure (network error, non-2xx
      status, a body that is not JSON). */
  datatype Outcome = Success(answer: string) | Failure

  /** The bot message shown in place of an answer when the request fails. */
  const FallbackReply: string := "Sorry, I encountered an error connecting to AI. Please try again."

  /** The content of the bot message a settled request produces. */
  function ReplyText(o: Outcome): string
  {
    match o
    case Success(answer) => answer
    case Failure => FallbackReply
  }

  /** The component's state: the input box's `message`, `chatHistory`,
      `isLoading` and `isTyping`. */
  datatype ChatState = ChatState(history: seq<Message>, input: string, isLoading: bool, isTyping: bool)

  /** The state the component mounts with. */
  const Initial: ChatState := ChatState([], "", false, false)

  /** Everything that changes the state: typing in the input box, a submit
      (button click or form submit), a key release in the input box, and the
      settling of the pending request. */
  datatype Event =
    | Edit(text: string)
    | Submit(id: string, at: int)
    | KeyUp(key: string, shift: bool, id: string, at: int)
    | Reply(outcome: Outcome, id: string, at: int)

  /** The early return at the top of handleSendMessage: the input is empty
      after trimming, or a request is already pending. */
  predicate SendRejected(input: string, isLoading: bool)
    ensures SendRejected(input, isLoading) <==> isLoading || AllTrimmable(input)
  {
    Trim(input) == "" || isLoading
  }

  /** The `disabled` expression of the send button. */
  predicate SendButtonDisabled(isLoading: bool, input: string)
    ensures SendButtonDisabled(isLoading, input) <==> isLoading || AllTrimmable(input)
  {
    isLoading || Trim(input) == ""
  }

  /** The key test of handleKeyPress: Enter without Shift submits. */
  predicate TriggersSend(key: string, shift: bool)
  {
    key == "Enter" && !shift
  }

  /** The welcome panel is shown while the transcript is empty. */
  predicate ShowWelcome(s: ChatState)
  {
    |s.history| == 0
  }

  /** The message-count line under the input box: absent for an empty
      transcript, otherwise the count in decimal followed by " message",
      pluralised for every count but one. Reading the label back yields the
      count and the right noun. */
  function CountLabel(n: nat): (r: Option<string>)
    ensures r.None? <==> n == 0
    ensures r.Some? ==>
      var digits := LeadingDigits(r.value);
      DigitsValue(digits) == n && digits != [] && digits[0] != '0' &&
      r.value[|digits|..] == (if n == 1 then " message" else " messages")
  {
    if n > 0 then
      var digits := NumberToString(n);
      var noun := " message" + (if n != 1 then "s" else "");
      LeadingDigitsOfConcat(digits, noun);
      NumberToStringRoundTrip(n);
      Some(digits + noun)
    else
      None
  }

  /** handleSendMessage up to its `await`, on a state value. */
  function AfterSubmit(s: ChatState, id: string, at: int): ChatState
  {
    if SendRejected(s.input, s.isLoading) then s
    else ChatState(s.history + [Message(id, User, s.input, at)], "", true, true)
  }

  /** One transition of the component. A Reply only arrives while its
      request is pending: the code after the `await` runs only in a call
      that got past the guard. */
  function Step(s: ChatState, e: Event): ChatState
    requires e.Reply? ==> s.isLoading
  {
    match e
    case Edit(text) => s.(input := text)
    case Submit(id, at) => AfterSubmit(s, id, at)
    case KeyUp(key, shift, id, at) =>
      if TriggersSend(key, shift) then AfterSubmit(s, id, at) else s
    case Reply(o, id, at) =>
      s.(history := s.history + [Message(id, Bot, ReplyText(o), at)], isLoading := false, isTyping := false)
  }

  /** The transcript alternates user and bot messages, starting with a user
      message: every reply sits right after the message it answers. */
  predicate Alternating(h: seq<Message>)
  {
    forall i :: 0 <= i < |h| ==> h[i].role == (if i % 2 == 0 then User else Bot)
  }

  /** What holds of every state the component can reach: the two flags are
      equal, the transcript alternates, and a request is pending exactly
      when the last message is an unanswered user message. */
  predicate Consistent(s: ChatState)
  {
    s.isTyping == s.isLoading &&
    Alternating(s.history) &&
    (s.isLoading <==> |s.history| % 2 == 1)
  }

  /* ---------------- Properties of one transition ---------------- */

  /** A rejected submit changes nothing: not the transcript, the input box
      or either flag. In particular every submit while a request is pending
      is ignored, whatever the input. */
  lemma RejectedSendIsNoOp(s: ChatState, id: string, at: int)
    requires SendRejected(s.input, s.isLoading)
    ensures Step(s, Submit(id, at)) == s
  {
  }

  /** An accepted submit appends one user message holding the input exactly
      as typed (untrimmed), empties the input box and raises both flags. */
  lemma AcceptedSendEffects(s: ChatState, id: string, at: int)
    requires !SendRejected(s.input, s.isLoading)
    ensures var t := Step(s, Submit(id, at));
      t.history == s.history + [Message(id, User, s.input, at)] &&
      t.history[|s.history|].content == s.input &&
      t.input == "" && t.isLoading && t.isTyping
  {
  }

  /** A settled request appends one bot message, carrying the answer on
      success and the fixed fallback text on failure, and lowers both
      flags. */
  lemma ReplyEffects(s: ChatState, o: Outcome, id: string, at: int)
    requires s.isLoading
    ensures var t := Step(s, Reply(o, id, at));
      |t.history| == |s.history| + 1 &&
      t.history[..|s.history|] == s.history &&
      t.history[|s.history|].role == Bot &&
      t.history[|s.history|].content == (if o.Success? then o.answer else FallbackReply) &&
      !t.isLoading && !t.isTyping && t.input == s.input
  {
    var t := Step(s, Reply(o, id, at));
    assert t.history[..|s.history|] == s.history;
  }

  /** No transition edits or removes a message: the old transcript is a
      prefix of the new one, which is at most one message longer. */
  lemma StepAppendsOnly(s: ChatState, e: Event)
    requires e.Reply? ==> s.isLoading
    ensures s.history <= Step(s, e).history
    ensures |Step(s, e).history| <= |s.history| + 1
  {
  }

  /** Appending the message whose role is next in turn keeps the
      transcript alternating. */
  lemma AppendKeepsAlternating(h: seq<Message>, m: Message)
    requires Alternating(h)
    requires m.role == (if |h| % 2 == 0 then User else Bot)
    ensures Alternating(h + [m])
  {
    forall i | 0 <= i < |h + [m]|
      ensures (h + [m])[i].role == (if i % 2 == 0 then User else Bot)
    {
      if i < |h| {
        assert (h + [m])[i] == h[i];
      }
    }
  }

  /** An accepted or rejected submit keeps the state consistent. */
  lemma SubmitKeepsConsistent(s: ChatState, id: string, at: int)
    requires Consistent(s)
    ensures Consistent(AfterSubmit(s, id, at))
  {
    if !SendRejected(s.input, s.isLoading) {
      AppendKeepsAlternating(s.history, Message(id, User, s.input, at));
    }
  }

  /** Every transition keeps the state consistent. */
  lemma StepKeepsConsistent(s: ChatState, e: Event)
    requires Consistent(s)
    requires e.Reply? ==> s.isLoading
    ensures Consistent(Step(s, e))
  {
    match e
    case Edit(_) =>
    case Submit(id, at) =>
      SubmitKeepsConsistent(s, id, at);
    case KeyUp(key, shift, id, at) =>
      SubmitKeepsConsistent(s, id, at);
    case Reply(o, id, at) =>
      AppendKeepsAlternating(s.history, Message(id, Bot, ReplyText(o), at));
  }

  /** The send button is enabled exactly when a submit would not be
      ignored: the button's `disabled` expression and the handler's guard
      agree. */
  lemma SendButtonMatchesGuard(s: ChatState, id: string, at: int)
    ensures !SendButtonDisabled(s.isLoading, s.input) <==> Step(s, Submit(id, at)) != s
  {
    if !SendButtonDisabled(s.isLoading, s.input) {
      assert |Step(s, Submit(id, at)).history| == |s.history| + 1;
    }
  }

  /** A key release in the input box changes the state exactly when it is
      a plain Enter and the send button is enabled. */
  lemma KeyUpActsIffPlainEnterAndButtonEnabled(s: ChatState, key: string, shift: bool, id: string, at: int)
    ensures Step(s, KeyUp(key, shift, id, at)) != s <==>
      TriggersSend(key, shift) && !SendButtonDisabled(s.isLoading, s.input)
  {
    if TriggersSend(key, shift) {
      SendButtonMatchesGuard(s, id, at);
    }
  }

  /** Exactly one of the welcome panel and the message-count line is on
      screen. */
  lemma WelcomeXorCount(s: ChatState)
    ensures ShowWelcome(s) <==> CountLabel(|s.history|).None?
  {
  }

  /* ---------------- The component ---------------- */

  class Chatbot {
    var history: seq<Message>
    var input: string
    var isLoading: bool
    var isTyping: bool

    /** The component's fields as a value. */
    function State(): ChatState
      reads this
    {
      ChatState(history, input, isLoading, isTyping)
    }

    predicate Valid()
      reads this
    {
      Consistent(State())
    }

    constructor ()
      ensures Valid() && State() == Initial
    {
      history := [];
      input := "";
      isLoading := false;
      isTyping := false;
    }

    /** The input box's onChange handler. */
    method Edit(text: string)
      requires Valid()
      modifies this
      ensures Valid()
      ensures State() == Step(old(State()), Event.Edit(text))
      ensures history == old(history) && input == text
    {
      input := text;
    }

    /** handleSendMessage up to its `await`. Returns the question it posts
      to the answering endpoint (the untrimmed input), or None when the
      guard sends it back. */
    method Send(id: string, at: int) returns (question: Option<string>)
      requires Valid()
      modifies this
      ensures Valid()
      ensures State() == Step(old(State()), Submit(id, at))
      ensures question == if SendRejected(old(input), old(isLoading)) then None else Some(old(input))
      ensures question.None? ==> unchanged(this)
      ensures question.Some? ==> history == old(history) + [Message(id, User, old(input), at)]
    {
      if Trim(input) == "" || isLoading {
        return None;
      }
      var userMessage := Message(id, User, input, at);
      history := history + [userMessage];
      var current := input;
      input := "";
      isLoading := true;
      isTyping := true;
      StepKeepsConsistent(old(State()), Submit(id, at));
      question := Some(current);
    }

    /** handleSendMessage after its `await`: appends the answer, or the
      fallback text on any failure, then lowers both flags. */
    method Complete(o: Outcome, id: string, at: int)
      requires Valid() && isLoading
      modifies this
      ensures Valid()
      ensures State() == Step(old(State()), Reply(o, id, at))
      ensures history == old(history) + [Message(id, Bot, ReplyText(o), at)]
      ensures !isLoading && !isTyping
    {
      match o {
        case Success(answer) =>
          var botResponse := Message(id, Bot, answer, at);
          history := history + [botResponse];
        case Failure =>
          var errorResponse := Message(id, Bot, FallbackReply, at);
          history := history + [errorResponse];
      }
      isLoading := false;
      isTyping := false;
      StepKeepsConsistent(old(State()), Reply(o, id, at));
    }

    /** handleKeyPress: Enter without Shift runs Send. */
    method KeyUp(key: string, shift: bool, id: string, at: int) returns (question: Option<string>)
      requires Valid()
      modifies this
      ensures Valid()
      ensures State() == Step(old(State()), Event.KeyUp(key, shift, id, at))
      ensures !TriggersSend(key, shift) ==> question.None? && unchanged(this)
      ensures TriggersSend(key, shift) ==>
        question == if SendRejected(old(input), old(isLoading)) then None else Some(old(input))
    {
      if key == "Enter" && !shift {
        question := Send(id, at);
      } else {
        question := None;
      }
    }
  }
}
