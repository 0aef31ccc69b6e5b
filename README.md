# LannzChatBot conversation state, in Dafny

This project models the `Chatbot` React component of LannzChatBot
(`frontend/src/components/chatbot.tsx`). The component owns four pieces of
state: the input box's `message`, the transcript `chatHistory`, and the flags
`isLoading` and `isTyping`. It changes that state in `handleSendMessage`,
`handleKeyPress` and the input box's `onChange`. From that state it derives
whether the send button is enabled, whether the welcome panel shows, and the
"N message(s)" line.

`handleSendMessage` is an `async` function with a single `await`. The model
splits it there into two steps:

- **Send**: the guard (reject input that is blank after `trim`, or any send
  while a request is pending), then the appended user message, the cleared
  input and the raised flags.
- **Complete**: the settled request, given as an `Outcome`
  (`Success(answer)` or `Failure`). It appends the answer or the fixed
  fallback text, then lowers both flags.

Three files:

- `ecmascript.dfy` (module `EcmaScript`): the two ECMAScript built-ins the
  component uses.
  - `String.prototype.trim`, over the exact set of WhiteSpace and
    LineTerminator code points that ECMA-262 strips.
  - Number-to-string conversion for non-negative integers, proved to read
    back to the same number.
- `chatbot.dfy` (module `ChatbotComponent`):
  - the `Message`, `Outcome`, `ChatState` and `Event` datatypes;
  - `Step`, one transition on a state value;
  - the view predicates;
  - the class `Chatbot`, whose fields are the component's four state
    variables. Its methods `Edit`, `Send`, `Complete` and `KeyUp` update
    those fields in place, and each is proved to follow `Step`.
- `conversation.dfy` (module `Conversation`): whole sessions, as event
  sequences from mount. It proves three things about every reachable state:
  - the transcript is append-only;
  - `isTyping == isLoading`, and user and bot messages alternate;
  - exactly one reply follows each accepted message.

Message ids come from `Math.random` and timestamps from the clock. Both are
parameters of the events and methods.

Two facts about the code that shape the model:

- The code keeps two flags, `isLoading` and `isTyping`, and always sets them
  together. The model keeps both and proves that they stay equal.
- Ids come from `Math.random().toString(36).substr(2, 9)` with no collision
  check. The model treats them as opaque and claims no uniqueness.

## Model

| member | source | states |
|---|---|---|
| EcmaScript.TrimStart | frontend/src/components/chatbot.tsx:72 | The stripped prefix is all trim-whitespace, and the kept suffix is empty or starts with a non-whitespace character. |
| EcmaScript.TrimEnd | frontend/src/components/chatbot.tsx:72 | The stripped suffix is all trim-whitespace, and the kept prefix is empty or ends with a non-whitespace character. |
| EcmaScript.Trim | frontend/src/components/chatbot.tsx:72 | `trim()` returns "" exactly when every character is WhiteSpace or LineTerminator. A non-empty result starts and ends with a non-whitespace character. |
| EcmaScript.TrimIsInfix | frontend/src/components/chatbot.tsx:72 | `trim()` returns a contiguous slice of its input. |
| EcmaScript.NumberToString | frontend/src/components/chatbot.tsx:264 | A length renders as a non-empty run of decimal digits with no leading zero. |
| EcmaScript.NumberToStringRoundTrip | frontend/src/components/chatbot.tsx:264 | Reading the rendered digits back gives the original count. |
| EcmaScript.NumberToStringInjective | frontend/src/components/chatbot.tsx:264 | Different counts render as different digit strings. |
| ChatbotComponent.CountLabel | frontend/src/components/chatbot.tsx:261-264 | There is no count line for an empty transcript. Otherwise the line starts with the count in canonical decimal (non-empty, no leading zero, reading back as the count), followed by " message" when the count is 1 and " messages" for any other count. |
| ChatbotComponent.ReplyText | frontend/src/components/chatbot.tsx:103-114 | No ensures of its own. The content of the bot message (the answer on success, the fallback text otherwise) is stated by `ReplyEffects`. |
| ChatbotComponent.SendRejected | frontend/src/components/chatbot.tsx:72 | The handler's guard holds exactly when a request is pending or every character of the input is trim-whitespace. |
| ChatbotComponent.SendButtonDisabled | frontend/src/components/chatbot.tsx:253 | The button is disabled exactly when a request is pending or every character of the input is trim-whitespace. |
| ChatbotComponent.TriggersSend | frontend/src/components/chatbot.tsx:127 | No ensures of its own. Its effect is stated by `KeyUpActsIffPlainEnterAndButtonEnabled`. |
| ChatbotComponent.ShowWelcome | frontend/src/components/chatbot.tsx:163 | No ensures of its own. `WelcomeXorCount` states that it is on exactly when the count line is off. |
| ChatbotComponent.AfterSubmit | frontend/src/components/chatbot.tsx:72-85 | No ensures of its own. `RejectedSendIsNoOp` and `AcceptedSendEffects` state both of its outcomes. |
| ChatbotComponent.Step | frontend/src/components/chatbot.tsx:70-131 | No ensures of its own. It is one transition for an edit (line 245), a send (lines 70-85), a key release (lines 126-131) or a settled request (lines 95-122). Its properties are stated by `StepAppendsOnly`, `StepKeepsConsistent` and the per-event lemmas, and each `Chatbot` method is proved to follow it. |
| ChatbotComponent.RejectedSendIsNoOp | frontend/src/components/chatbot.tsx:72 | A send with blank input, or any send while loading, leaves the transcript, the input and both flags unchanged. |
| ChatbotComponent.AcceptedSendEffects | frontend/src/components/chatbot.tsx:74-85 | An accepted send appends exactly one user message whose content is the untrimmed input. It clears the input and raises both flags. |
| ChatbotComponent.ReplyEffects | frontend/src/components/chatbot.tsx:95-122 | A settled request appends exactly one bot message and keeps the old transcript as a prefix. The message holds the answer on success and the fixed fallback text on failure. Both flags end lowered. |
| ChatbotComponent.StepAppendsOnly | frontend/src/components/chatbot.tsx:81-118 | No transition edits or removes a message. Each one extends the transcript by at most one message. |
| ChatbotComponent.AppendKeepsAlternating | frontend/src/components/chatbot.tsx:81-118 | Appending the role that is next in turn keeps the user/bot alternation. |
| ChatbotComponent.StepKeepsConsistent | frontend/src/components/chatbot.tsx:81-121 | Every transition preserves three facts: `isTyping == isLoading`, user/bot alternation, and "loading exactly when the last message is an unanswered user message". |
| ChatbotComponent.SendButtonMatchesGuard | frontend/src/components/chatbot.tsx:253 | The send button is enabled exactly when a send would change the state, that is, when the handler's guard lets it through. |
| ChatbotComponent.KeyUpActsIffPlainEnterAndButtonEnabled | frontend/src/components/chatbot.tsx:126-131 | A key release changes the state exactly when it is Enter without Shift and the send button (line 253) is enabled. |
| ChatbotComponent.WelcomeXorCount | frontend/src/components/chatbot.tsx:163-264 | Exactly one of the welcome panel and the message-count line is shown. |
| ChatbotComponent.Chatbot.constructor | frontend/src/components/chatbot.tsx:20-23 | The component mounts with an empty transcript, empty input and both flags down, which is a consistent state. |
| ChatbotComponent.Chatbot.Edit | frontend/src/components/chatbot.tsx:245 | Typing replaces the input buffer and leaves the transcript and flags alone. |
| ChatbotComponent.Chatbot.Send | frontend/src/components/chatbot.tsx:70-85 | Send follows `Step` for a submit and keeps the invariant. A rejected send changes no field and posts nothing. An accepted send posts the untrimmed input as the question and appends it as a user message. |
| ChatbotComponent.Chatbot.Complete | frontend/src/components/chatbot.tsx:95-122 | Complete follows `Step` for a reply and appends exactly one bot message (the answer or the fallback). Both flags end false and the invariant is kept. |
| ChatbotComponent.Chatbot.KeyUp | frontend/src/components/chatbot.tsx:126-131 | KeyUp follows `Step` for a key release. On Enter without Shift it posts what Send posts: nothing when the guard rejects, otherwise the untrimmed input. Any other key posts nothing and changes no field. |
| Conversation.RunKeepsHistoryPrefix | frontend/src/components/chatbot.tsx:81-118 | Over any sequence of events, the earlier transcript stays an unchanged prefix of the later one. |
| Conversation.RunKeepsConsistent | frontend/src/components/chatbot.tsx:81-122 | Any sequence of events from a consistent state ends in a consistent state. |
| Conversation.ReachableIsConsistent | frontend/src/components/chatbot.tsx:20-122 | Every state reachable from mount has `isTyping == isLoading` and an alternating transcript. |
| Conversation.TypingShownWhileAwaitingReply | frontend/src/components/chatbot.tsx:216 | In every reachable state, the typing indicator shows exactly while the last message is a user message with no reply yet. |
| Conversation.AlternatingCounts | frontend/src/components/chatbot.tsx:81-118 | In an alternating transcript, the user messages equal the bot messages, plus one when the transcript length is odd. |
| Conversation.EveryMessageGetsOneReply | frontend/src/components/chatbot.tsx:70-123 | In every reachable state, each user message has exactly one reply, except the one whose request is still pending. |
| Conversation.ExchangeAppendsTwo | frontend/src/components/chatbot.tsx:81-122 | An accepted send followed by its reply appends exactly two messages, user then bot. It clears the input and lowers both flags. |
| Conversation.HelloSession | frontend/src/components/chatbot.tsx:70-123 | From mount, typing "Hello", sending it and settling with any outcome gives exactly [user "Hello", bot reply] and an idle state. |
| Conversation.HelloAnswered | frontend/src/components/chatbot.tsx:95-107 | The "Hello" session answered with "Hi there!" ends with exactly those two messages. |
| Conversation.HelloFailed | frontend/src/components/chatbot.tsx:109-118 | The "Hello" session whose request fails ends with the user message and the fixed fallback text. |
| Conversation.BlankInputIgnored | frontend/src/components/chatbot.tsx:72 | Sending input made only of trim-whitespace adds nothing to the transcript and leaves the flags down. |

## Left out

- The HTTP request (lines 88-99), meaning the POST to the `/ask` endpoint, the status check and the JSON parse. The model has only its result, the `Outcome` passed to `Complete`. `Send` returns the question the request would carry.
- A 2xx response whose JSON body has no `answer` field. There the code stores `undefined` as the content. The model's `Success` always carries a string.
- `async`/`await` scheduling and React's batched state updates. `Send` and `Complete` are two sequential steps, and each handler sees the latest committed state. A second handler that runs on a stale closure before React re-renders is not modelled.
- No timeout or cancellation exists in the code. The model has no event for a request that never settles, and such a session simply stays loading.
- `ChatbotComponent.Chatbot.Complete`: requires `isLoading`. The code after the `await` only runs in a call that passed the guard. Traces enforce the same rule through `Conversation.Feasible`.
- Id generation with `Math.random` (line 67) and timestamps from `new Date()` (lines 78, 104, 115). These are opaque parameters, and ids are not claimed to be distinct.
- The `console.error` call in the catch block (line 110) and the `preventDefault` calls (lines 71, 128). These effects are not modelled.
- `formatTime` (lines 134-136). It depends on the locale and the clock.
- The auto-scroll effect, the JSX markup, the avatars, the status dot and the `disabled` attribute of the input box (lines 29-33, 138-270). They are presentation only. The proved properties hold even if edits arrive while a request is pending.
- The commented-out mock responder (lines 35-64), which is dead code.
- JavaScript strings are UTF-16 code units, and Dafny characters are Unicode scalar values. Every character `trim` strips is in the Basic Multilingual Plane, so the blank test agrees. Lone surrogates cannot be represented.
- `backend/app.py` and `frontend/src/App.tsx` are not part of this model. The first is a Flask wrapper around a language-model client, and the second is layout markup.
