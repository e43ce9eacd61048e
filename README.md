# Chat widget and mock authentication, modelled in Dafny

The repository is a React chat front end. Three pieces of it hold state logic,
and this project models each as a Dafny module:

- `ChatbotWidget` (`chatbot.dfy`) models the chat widget of `src/components/Chatbot.tsx`.
  Its state is a message list, the input box text and an `isTyping` flag.
  A submit either does nothing, when the input trims to the empty string, or appends a user message.
  An accepted submit also raises `isTyping` and schedules a reply timer.
  The timer appends a bot message taken from an 8-entry table and lowers `isTyping`.
  Ids are `messages.length + 1` for the user message and `messages.length + 2` for the reply.
  The `+ 2` uses the length the timer's closure captured at submit time.
  The send button is disabled only for blank input, so a second message can be sent while a reply is pending.
  The model therefore keeps a FIFO queue of pending timers, each holding its captured length.
  All timers have the same 1500 ms delay, so they fire in the order they were scheduled.
- `HomePage` (`home.dfy`) models the chat page of `src/pages/Home.tsx`.
  It has the same three fields and a 9-entry table, and its seed message has id `"welcome"`.
  Ids are clock readings (`Date.now()`), and each timer has its own random delay.
  The timers capture nothing the reply depends on, so a counter of pending timers is enough.
  Any timer that fires lowers `isTyping`, even when others are still pending.
- `AuthContext` (`auth.dfy`) models the mock provider of `src/context/AuthContext.tsx`.
  The users table lives only in the browser's key-value store, under `"users"`.
  The current user is a field that is mirrored under `"user"`.
  `register` rejects an email that is already in the table; otherwise it appends a record and logs the user in.
  `login` succeeds exactly when some record matches both the email and the password.
  `logout` clears the current user.
- `JsBuiltins` (`js_builtins.dfy`) models `String.prototype.trim` and the `Math.floor(Math.random() * n)` draw.
  `trim` removes the WhiteSpace and LineTerminator characters of ECMA-262 (sections 12.2 and 12.3).

Each chat component is written twice: as pure transition functions on a state value (`Submit`, `Reply`, `Type`), and as a class with the component's fields.
Each class method is proved to perform exactly the matching transition.
A `Valid` predicate holds in the initial state and every transition preserves it.
Trace properties are proved as lemmas about the transition functions.
One example is "k strictly alternating rounds give ids 1 … 2k+1"; another is the duplicate id caused by an overlapping submit.

Two behaviours of the code matter for what the model can promise:

- Neither component stops a submit while a reply is pending.
  Both render the list with `key={message.id}` (src/components/Chatbot.tsx:93, src/pages/Home.tsx:95), which expects the ids to be unique.
  In the widget, a message sent before the pending reply arrives gets the same id as that reply (`OverlappingSubmitDuplicatesId`).
  Ids are unique when every reply arrives before the next message is sent (`ConversationIdsUnique`).
- The typing indicator (src/components/Chatbot.tsx:111, src/pages/Home.tsx:97-105) is shown while `isTyping` holds.
  In both components the flag only implies that some reply is pending; it does not hold for as long as one is.
  The first timer to fire lowers it, even when another reply is still on its way (`TypingClearedWhileReplyPending`).

React state setters are modelled as taking effect immediately.
A re-render is assumed between two user events, so `handleSendMessage` always sees the current `messages` and `input`.
Clock readings and the values of `Math.random` are parameters of the methods that use them.

## Model

| member | source | states |
|---|---|---|
| JsBuiltins.TrimStartSuffix | src/components/Chatbot.tsx:46 | trimming the start leaves a suffix that does not begin with whitespace, and everything dropped is whitespace |
| JsBuiltins.TrimEndPrefix | src/components/Chatbot.tsx:46 | trimming the end leaves a prefix that does not end with whitespace, and everything dropped is whitespace |
| JsBuiltins.Trim | src/components/Chatbot.tsx:46 | `String.prototype.trim` returns the empty string iff the input is all whitespace; otherwise the result starts and ends with non-whitespace, and it is never longer than the input |
| JsBuiltins.BlankIffAllWhitespace | src/components/Chatbot.tsx:46 | `IsBlank`, the blank-input guard, holds exactly for inputs made only of whitespace; the same predicate models the widget's `input.trim() === ""` (here and on the send button, line 137) and the page's `!input.trim()` (src/pages/Home.tsx:50), since the empty string is the only falsy string |
| JsBuiltins.RandomIndex | src/components/Chatbot.tsx:64 | `Math.floor(Math.random() * n)` is always an index of the n-entry table |
| JsBuiltins.EveryIndexDrawable | src/pages/Home.tsx:66 | every entry of the table can be drawn by some value of `Math.random` |
| ChatbotWidget.Initial | src/components/Chatbot.tsx:12-21 | the mounted widget holds exactly one message, the welcome message with id 1 from the bot; the state is valid and settled (nothing pending, ids 1, 2, 3, …), not typing, with empty input |
| ChatbotWidget.Type | src/components/Chatbot.tsx:131 | typing only replaces the input text and keeps the state valid |
| ChatbotWidget.Submit | src/components/Chatbot.tsx:44-62 | the old list is a prefix of the new one; submit is a no-op iff the input is blank; otherwise it appends one user message with the untrimmed input and id old length + 1, clears the input, raises `isTyping` and queues one timer that captures the old length |
| ChatbotWidget.Reply | src/components/Chatbot.tsx:63-75 | the oldest timer appends exactly one bot message whose text is in the 8-entry table and whose id is captured length + 2, lowers `isTyping`, leaves the input alone and dequeues itself |
| ChatbotWidget.SubmitKeepsValid | src/components/Chatbot.tsx:49-60 | submit preserves the invariant: welcome first, user ids equal position + 1, pending timers point at user messages in order, user messages = bot replies − 1 + pending, typing only while something is pending |
| ChatbotWidget.ReplyKeepsValid | src/components/Chatbot.tsx:63-75 | a firing timer preserves the same invariant; every reply id lies between 3 and its position + 1 |
| ChatbotWidget.RoundKeepsSettled | src/components/Chatbot.tsx:44-75 | a submit followed by its reply, from a settled state, gives a settled state two messages longer |
| ChatbotWidget.ConverseKeepsSettled | src/components/Chatbot.tsx:50-67 | any number of strictly alternating rounds keeps ids equal to positions + 1 and adds two messages per round |
| ChatbotWidget.ConversationIdsUnique | src/components/Chatbot.tsx:50-67 | after k alternating rounds from mount the ids are exactly 1, 2, …, 2k+1, hence unique |
| ChatbotWidget.OverlappingSubmitDuplicatesId | src/components/Chatbot.tsx:50-67 | a second message sent before the pending reply fires gets the same id as that reply, so ids are no longer unique |
| ChatbotWidget.Chatbot.constructor | src/components/Chatbot.tsx:12-21 | the fields start in the initial state, which is valid |
| ChatbotWidget.Chatbot.SetInput | src/components/Chatbot.tsx:131 | the input field changes and nothing else does |
| ChatbotWidget.Chatbot.HandleSendMessage | src/components/Chatbot.tsx:44-62 | the handler performs exactly the `Submit` transition and preserves validity |
| ChatbotWidget.Chatbot.FireReply | src/components/Chatbot.tsx:63-75 | the timer body performs exactly the `Reply` transition and preserves validity |
| ChatbotWidget.Chatbot.SendDisabled | src/components/Chatbot.tsx:137 | the send button is disabled exactly when a submit would change nothing |
| HomePage.Initial | src/pages/Home.tsx:27-35 | the mounted page holds exactly one message; the state is valid: that message with id `"welcome"` from the bot, not typing, nothing pending, empty input |
| HomePage.Type | src/pages/Home.tsx:114 | typing only replaces the input text and keeps the state valid |
| HomePage.Submit | src/pages/Home.tsx:47-63 | the old list is a prefix of the new one; submit is a no-op iff the input is blank; otherwise it appends one user message with the untrimmed input stamped with the clock, clears the input, raises `isTyping` and adds one pending timer |
| HomePage.Reply | src/pages/Home.tsx:64-81 | a firing timer appends exactly one bot message whose text is in the 9-entry table, with id clock + 1, lowers `isTyping` and removes one pending timer |
| HomePage.SubmitKeepsValid | src/pages/Home.tsx:50-63 | submit preserves the invariant: welcome first and only there, bot texts from the table, user messages = bot replies − 1 + pending, typing only while something is pending |
| HomePage.ReplyKeepsValid | src/pages/Home.tsx:64-75 | a firing timer preserves the same invariant |
| HomePage.LengthCountsExchanges | src/pages/Home.tsx:59-74 | in every valid state, length + pending = 1 + 2 × user messages; after k accepted submits whose replies have all fired, in any interleaving, the list holds 1 + 2k messages |
| HomePage.TypingClearedWhileReplyPending | src/pages/Home.tsx:61-75 | after two quick submits, the first timer to fire lowers `isTyping` while one reply is still pending |
| HomePage.Home.constructor | src/pages/Home.tsx:27-35 | the fields start in the initial state, which is valid |
| HomePage.Home.SetInput | src/pages/Home.tsx:114 | the input field changes and nothing else does |
| HomePage.Home.HandleSendMessage | src/pages/Home.tsx:47-63 | the handler performs exactly the `Submit` transition at the given clock reading and preserves validity |
| HomePage.Home.FireReply | src/pages/Home.tsx:64-81 | a timer body performs exactly the `Reply` transition and preserves validity |
| AuthContext.StoredUsers | src/context/AuthContext.tsx:34 | reading `"users"` from the store: an absent key reads as the empty table |
| AuthContext.StoredUser | src/context/AuthContext.tsx:20-22 | reading `"user"` from the store: no saved user iff the key is absent |
| AuthContext.StoreReadsBack | src/context/AuthContext.tsx:70-86 | a table or user written to its key reads back unchanged, a write to one key leaves the other key's value alone, and a removed `"user"` key reads as no user |
| AuthContext.FindCredential | src/context/AuthContext.tsx:34-37 | `users.find` returns the first record matching both email and password, and returns none iff no record matches |
| AuthContext.EmailTaken | src/context/AuthContext.tsx:62-64 | `users.some` holds iff some record has the email |
| AuthContext.AppendFreshKeepsDistinct | src/context/AuthContext.tsx:64-70 | appending a record whose email is not taken keeps the table's emails pairwise distinct |
| AuthContext.RegisteredCredentialFound | src/context/AuthContext.tsx:35-44 | after a record with a fresh email is appended, the credential lookup for that email and password finds exactly that record |
| AuthContext.AuthProvider.constructor | src/context/AuthContext.tsx:20-23 | the current user starts as the user saved in the store, or none |
| AuthContext.AuthProvider.IsAuthenticated | src/context/AuthContext.tsx:25 | authenticated iff there is a current user, which in a valid provider is iff the store holds a saved user |
| AuthContext.AuthProvider.Login | src/context/AuthContext.tsx:27-53 | succeeds iff some record matches both email and password; on success the first match becomes the current user and is saved under `"user"`; on failure nothing changes |
| AuthContext.AuthProvider.Register | src/context/AuthContext.tsx:55-82 | fails with nothing changed iff the email is taken; otherwise appends the record at the end of the saved table, saves and sets the current user; email distinctness is preserved |
| AuthContext.AuthProvider.Logout | src/context/AuthContext.tsx:84-88 | no current user, the `"user"` key is removed, and the table is unchanged |
| AuthContext.RegisterThenLogin | src/context/AuthContext.tsx:64-77 | a successful register followed by a login with the same credentials succeeds and yields the registered user |

## Left out

- Rendering: the JSX, CSS class choice, `src/components/ChatMessage.tsx` and `src/App.tsx`. They hold no state logic.
- `scrollToBottom`, `useEffect` and the refs. They are DOM side effects.
- Timer delays (1500 ms, and `1000 + Math.random() * 2000`). A timer firing is an explicit `FireReply` call. In the widget the calls are FIFO; in the page any pending timer may fire.
- Timestamps and `formatTime` in the widget. They are clock and locale formatting used only for display.
- HomePage: `Date.now()` readings are parameters. No uniqueness claim is made for the page's ids, since two readings can coincide.
- `Math.random` is a real in [0, 1); floating-point rounding is not modelled.
- The toast notifications in the page and in the auth provider.
- JSON encoding of the stored values. The store maps keys to abstract values.
- The `catch` branches of `login` and `register`, which handle malformed storage. The provider's `Valid()` requires a well-formed store.
- The 1000 ms `await` in `login` and `register`. Everything after it runs without suspension, so each call is one atomic step.
- The `useAuth` hook and its error when no provider is mounted. This is React plumbing.
- Strings are sequences of Unicode scalar values, not UTF-16 code units. The whitespace that `trim` removes lies in the Basic Multilingual Plane either way.
