/** Whole conversations: the Chatbot component driven by a sequence of
    events from the moment it mounts. These lemmas state what holds of every
    session, not only of one transition. */
module Conversation {
  import opened EcmaScript
  import opened ChatbotComponent

  /** A sequence of events that can happen from s: a Reply only ever
      arrives while a request is pending. */
  predicate Feasible(s: ChatState, events: seq<Event>)
    decreases |events|
  {
    events == [] ||
    ((events[0].Reply? ==> s.isLoading) && Feasible(Step(s, events[0]), events[1..]))
  }

  /** The state after the events, applied in order. */
  function Run(s: ChatState, events: seq<Event>): ChatState
    requires Feasible(s, events)
    decreases |events|
  {
    if events == [] then s else Run(Step(s, events[0]), events[1..])
  }

  /** How many messages of the given role the transcript holds. */
  function CountRole(h: seq<Message>, role: Role): nat
  {
    if h == [] then 0
    else CountRole(h[..|h| - 1], role) + (if h[|h| - 1].role == role then 1 else 0)
  }

  /** The transcript is append-only over any run: messages are never edited,
      removed or reordered. */
  lemma {:induction false} RunKeepsHistoryPrefix(s: ChatState, events: seq<Event>)
    requires Feasible(s, events)
    ensures s.history <= Run(s, events).history
    decreases |events|
  {
    if events != [] {
      StepAppendsOnly(s, events[0]);
      RunKeepsHistoryPrefix(Step(s, events[0]), events[1..]);
    }
  }

  /** Consistency survives any run. */
  lemma {:induction false} RunKeepsConsistent(s: ChatState, events: seq<Event>)
    requires Consistent(s) && Feasible(s, events)
    ensures Consistent(Run(s, events))
    decreases |events|
  {
    if events != [] {
      StepKeepsConsistent(s, events[0]);
      RunKeepsConsistent(Step(s, events[0]), events[1..]);
    }
  }

  /** Every state reachable from mount has isTyping == isLoading and an
      alternating transcript. */
  lemma ReachableIsConsistent(events: seq<Event>)
    requires Feasible(Initial, events)
    ensures Consistent(Run(Initial, events))
    ensures Run(Initial, events).isTyping == Run(Initial, events).isLoading
  {
    RunKeepsConsistent(Initial, events);
  }

  /** The typing indicator is on exactly while the last message of the
      transcript is a user message that has no reply yet. */
  lemma TypingShownWhileAwaitingReply(events: seq<Event>)
    requires Feasible(Initial, events)
    ensures var s := Run(Initial, events);
      s.isTyping <==> |s.history| > 0 && s.history[|s.history| - 1].role == User
  {
    RunKeepsConsistent(Initial, events);
    var h := Run(Initial, events).history;
    assert |h| > 0 ==> h[|h| - 1].role == (if (|h| - 1) % 2 == 0 then User else Bot);
  }

  /** In an alternating transcript the user messages outnumber the bot
      messages by one exactly when the last one is still unanswered. */
  lemma {:induction false} AlternatingCounts(h: seq<Message>)
    requires Alternating(h)
    ensures CountRole(h, User) == CountRole(h, Bot) + |h| % 2
  {
    if h != [] {
      var p := h[..|h| - 1];
      assert Alternating(p) by {
        forall i | 0 <= i < |p|
          ensures p[i].role == (if i % 2 == 0 then User else Bot)
        {
          assert p[i] == h[i];
        }
      }
      AlternatingCounts(p);
    }
  }

  /** Exactly one reply per accepted message: in every reachable state the
      user messages equal the bot messages, plus one while a request is
      pending. */
  lemma EveryMessageGetsOneReply(events: seq<Event>)
    requires Feasible(Initial, events)
    ensures var s := Run(Initial, events);
      CountRole(s.history, User) == CountRole(s.history, Bot) + (if s.isLoading then 1 else 0)
  {
    RunKeepsConsistent(Initial, events);
    AlternatingCounts(Run(Initial, events).history);
  }

  /** Running e then the rest is running the rest from the state after e. */
  lemma RunCons(s: ChatState, e: Event, rest: seq<Event>)
    requires e.Reply? ==> s.isLoading
    requires Feasible(Step(s, e), rest)
    ensures Feasible(s, [e] + rest)
    ensures Run(s, [e] + rest) == Run(Step(s, e), rest)
  {
    assert ([e] + rest)[0] == e;
    assert ([e] + rest)[1..] == rest;
  }

  /** Running two events is stepping twice. */
  lemma RunTwo(s: ChatState, e1: Event, e2: Event)
    requires e1.Reply? ==> s.isLoading
    requires e2.Reply? ==> Step(s, e1).isLoading
    ensures Feasible(s, [e1, e2])
    ensures Run(s, [e1, e2]) == Step(Step(s, e1), e2)
  {
    RunCons(Step(s, e1), e2, []);
    RunCons(s, e1, [e2]);
    assert [e2] + [] == [e2];
    assert [e1] + [e2] == [e1, e2];
  }

  /** The reply step of an exchange, on its own. */
  lemma SecondStep(s1: ChatState, o: Outcome, replyId: string, replyAt: int)
    requires s1.isLoading && s1.input == ""
    ensures Step(s1, Reply(o, replyId, replyAt)) ==
      ChatState(s1.history + [Message(replyId, Bot, ReplyText(o), replyAt)], "", false, false)
  {
  }

  /** An accepted submit followed by the settling of its request grows the
      transcript by exactly two messages, the user's then the bot's, and
      leaves both flags down. */
  lemma ExchangeAppendsTwo(s: ChatState, id: string, at: int, o: Outcome, replyId: string, replyAt: int)
    requires !SendRejected(s.input, s.isLoading)
    ensures Feasible(s, [Submit(id, at), Reply(o, replyId, replyAt)])
    ensures var t := Run(s, [Submit(id, at), Reply(o, replyId, replyAt)]);
      t.history == s.history + [Message(id, User, s.input, at), Message(replyId, Bot, ReplyText(o), replyAt)] &&
      t.input == "" && !t.isLoading && !t.isTyping
  {
    var user := Message(id, User, s.input, at);
    var bot := Message(replyId, Bot, ReplyText(o), replyAt);
    AcceptedSendEffects(s, id, at);
    var s1 := Step(s, Submit(id, at));
    SecondStep(s1, o, replyId, replyAt);
    RunTwo(s, Submit(id, at), Reply(o, replyId, replyAt));
    assert s.history + [user] + [bot] == s.history + [user, bot];
  }

  /** Typing "Hello", submitting it and receiving the outcome o leaves the
      user's message and the reply it produces, and both flags down. */
  lemma HelloSession(id: string, at: int, o: Outcome, replyId: string, replyAt: int)
    ensures var events := [Edit("Hello"), Submit(id, at), Reply(o, replyId, replyAt)];
      Feasible(Initial, events) &&
      Run(Initial, events) ==
        ChatState([Message(id, User, "Hello", at), Message(replyId, Bot, ReplyText(o), replyAt)], "", false, false)
  {
    var s1 := Step(Initial, Edit("Hello"));
    assert Trim(s1.input) != "" by {
      assert !IsTrimmable(s1.input[0]);
    }
    ExchangeAppendsTwo(s1, id, at, o, replyId, replyAt);
    RunCons(Initial, Edit("Hello"), [Submit(id, at), Reply(o, replyId, replyAt)]);
    assert [Edit("Hello")] + [Submit(id, at), Reply(o, replyId, replyAt)]
      == [Edit("Hello"), Submit(id, at), Reply(o, replyId, replyAt)];
  }

  /** The session "Hello" answered with "Hi there!". */
  lemma HelloAnswered(id: string, at: int, replyId: string, replyAt: int)
    ensures var events := [Edit("Hello"), Submit(id, at), Reply(Success("Hi there!"), replyId, replyAt)];
      Feasible(Initial, events) &&
      Run(Initial, events) ==
        ChatState([Message(id, User, "Hello", at), Message(replyId, Bot, "Hi there!", replyAt)], "", false, false)
  {
    HelloSession(id, at, Success("Hi there!"), replyId, replyAt);
  }

  /** The same session when the request fails: the reply is the fixed
      fallback text. */
  lemma HelloFailed(id: string, at: int, replyId: string, replyAt: int)
    ensures var events := [Edit("Hello"), Submit(id, at), Reply(Failure, replyId, replyAt)];
      Feasible(Initial, events) &&
      Run(Initial, events) ==
        ChatState([Message(id, User, "Hello", at), Message(replyId, Bot, FallbackReply, replyAt)], "", false, false)
  {
    HelloSession(id, at, Failure, replyId, replyAt);
  }

  /** Typing only spaces, tabs and line breaks and submitting adds nothing. */
  lemma BlankInputIgnored(text: string, id: string, at: int)
    requires AllTrimmable(text)
    ensures Feasible(Initial, [Edit(text), Submit(id, at)])
    ensures Run(Initial, [Edit(text), Submit(id, at)]) == Initial.(input := text)
  {
    RunTwo(Initial, Edit(text), Submit(id, at));
  }
}
