/** The chat page of src/pages/Home.tsx: the same three state fields as the
    widget, but ids come from the clock, the table has nine replies and
    every reply timer has its own random delay.

    The timers capture nothing that the reply depends on (the id and the
    text are computed when the timer fires), so the pending timers are
    interchangeable and a counter describes them. */
module HomePage {
  import opened JsBuiltins

  /** A message id: the literal "welcome" of the seeded message, or the
      decimal string of a clock reading in milliseconds. */
  datatype MessageId = Welcome | Stamp(ms: int)

  datatype Message = Message(id: MessageId, text: string, isUser: bool)

  const WelcomeText: string := "Hello! I'm your AI assistant. How can I help you today?"

  /** The nine canned replies, in table order. */
  const BotResponses: seq<string> := [
    "Hello! How can I help you today?",
    "That's an interesting question. Let me think about that.",
    "I'm a simple chatbot. I don't have all the answers yet.",
    "Could you tell me more about that?",
    "Thanks for sharing! Is there anything else you'd like to discuss?",
    "I'm learning every day, just like humans!",
    "That's a great point. I appreciate your perspective.",
    "I'm here to assist you with any questions you might have.",
    "Let me know if you need more information on any topic."
  ]

  /** The page state; `pending` counts the reply timers scheduled and not
      yet fired. */
  datatype HomeState = HomeState(messages: seq<Message>, input: string, isTyping: bool, pending: nat)

  function CountUser(m: seq<Message>): nat {
    if m == [] then 0 else CountUser(m[..|m| - 1]) + (if m[|m| - 1].isUser then 1 else 0)
  }

  function CountBot(m: seq<Message>): nat {
    if m == [] then 0 else CountBot(m[..|m| - 1]) + (if m[|m| - 1].isUser then 0 else 1)
  }

  lemma {:induction false} CountAppend(m: seq<Message>, x: Message)
    ensures CountUser(m + [x]) == CountUser(m) + (if x.isUser then 1 else 0)
    ensures CountBot(m + [x]) == CountBot(m) + (if x.isUser then 0 else 1)
  {
    assert (m + [x])[..|m + [x]| - 1] == m;
  }

  /** Every message is either the user's or the bot's. */
  lemma {:induction false} CountsCoverList(m: seq<Message>)
    ensures CountUser(m) + CountBot(m) == |m|
  {
    if m != [] {
      CountsCoverList(m[..|m| - 1]);
    }
  }

  /** What every reachable state satisfies:
      - the welcome message stays first, and no other message has its id;
      - every bot reply's text comes from the table;
      - user messages equal bot replies plus pending timers;
      - the typing flag is raised only while some timer is pending. */
  ghost predicate Valid(s: HomeState) {
    var m := s.messages;
    && |m| >= 1 && m[0] == Message(Welcome, WelcomeText, false)
    && (forall i :: 0 < i < |m| ==> m[i].id.Stamp?)
    && (forall i :: 0 < i < |m| && !m[i].isUser ==> m[i].text in BotResponses)
    && CountUser(m) + 1 == CountBot(m) + s.pending
    && (s.isTyping ==> s.pending > 0)
  }

  /** The state when the page mounts: the welcome message alone. */
  function Initial(): (s: HomeState)
    ensures s.messages == [Message(Welcome, WelcomeText, false)]
    ensures Valid(s) && s.pending == 0 && !s.isTyping && s.input == ""
  {
    HomeState([Message(Welcome, WelcomeText, false)], "", false, 0)
  }

  /** The onChange handler of the input box. */
  function Type(s: HomeState, text: string): (r: HomeState)
    ensures r.input == text && r.messages == s.messages && r.pending == s.pending && r.isTyping == s.isTyping
    ensures Valid(s) ==> Valid(r)
  {
    s.(input := text)
  }

  /** handleSendMessage at clock reading `now`: a blank input changes
      nothing; otherwise the input is appended, untrimmed, as a user message
      stamped `now`, the input box is cleared, the typing flag is raised and
      one more reply timer is pending. */
  function Submit(s: HomeState, now: int): (r: HomeState)
    ensures s.messages <= r.messages
    ensures IsBlank(s.input) <==> r == s
    ensures !IsBlank(s.input) ==>
      && r.messages == s.messages + [Message(Stamp(now), s.input, true)]
      && r.input == "" && r.isTyping && r.pending == s.pending + 1
  {
    if IsBlank(s.input) then s else Accept(s, now)
  }

  /** The part of handleSendMessage past the blank-input guard. */
  function Accept(s: HomeState, now: int): HomeState {
    HomeState(s.messages + [Message(Stamp(now), s.input, true)], "", true, s.pending + 1)
  }

  /** One pending timer fires at clock reading `now`: a bot message with a
      table entry chosen by `random` (the value of Math.random) and id
      now + 1 is appended, and the typing flag is lowered even when other
      timers are still pending. */
  function Reply(s: HomeState, now: int, random: real): (r: HomeState)
    requires s.pending > 0 && 0.0 <= random < 1.0
    ensures s.messages <= r.messages && |r.messages| == |s.messages| + 1
    ensures var b := r.messages[|s.messages|];
      !b.isUser && b.text in BotResponses && b.id == Stamp(now + 1)
    ensures r.input == s.input && !r.isTyping && r.pending == s.pending - 1
  {
    var text := BotResponses[RandomIndex(random, |BotResponses|)];
    HomeState(s.messages + [Message(Stamp(now + 1), text, false)], s.input, false, s.pending - 1)
  }

  /** Submitting preserves every invariant of Valid. */
  lemma SubmitKeepsValid(s: HomeState, now: int)
    requires Valid(s)
    ensures Valid(Submit(s, now))
  {
    if !IsBlank(s.input) {
      AcceptKeepsValid(s, now);
    }
  }

  lemma AcceptKeepsValid(s: HomeState, now: int)
    requires Valid(s)
    ensures Valid(Accept(s, now))
  {
    var r := Accept(s, now);
    var n := |s.messages|;
    CountAppend(s.messages, r.messages[n]);
    assert forall i :: 0 <= i < n ==> r.messages[i] == s.messages[i];
  }

  lemma SubmitStepKeepsValid(s: HomeState, now: int, r: HomeState)
    requires r == Submit(s, now)
    ensures Valid(s) ==> Valid(r)
  {
    if Valid(s) {
      SubmitKeepsValid(s, now);
    }
  }

  /** A firing timer preserves every invariant of Valid. */
  lemma ReplyKeepsValid(s: HomeState, now: int, random: real, r: HomeState)
    requires s.pending > 0 && 0.0 <= random < 1.0 && r == Reply(s, now, random)
    ensures Valid(s) ==> Valid(r)
  {
    if Valid(s) {
      var n := |s.messages|;
      CountAppend(s.messages, r.messages[n]);
      assert forall i :: 0 <= i < n ==> r.messages[i] == s.messages[i];
    }
  }

  /** In any valid state, the list holds the welcome message, one message
      per accepted submit and one per fired reply; so after k accepted
      submits whose k replies have all fired, in whatever interleaving, it
      holds 1 + 2k messages. */
  lemma LengthCountsExchanges(s: HomeState)
    requires Valid(s)
    ensures |s.messages| + s.pending == 1 + 2 * CountUser(s.messages)
    ensures s.pending == 0 ==> |s.messages| == 1 + 2 * CountUser(s.messages)
  {
    CountsCoverList(s.messages);
  }

  /** Nothing stops a second submit while a reply is pending, and the first
      timer to fire lowers the typing flag although a reply is still on its
      way. */
  lemma TypingClearedWhileReplyPending(first: string, second: string, t1: int, t2: int, t3: int, random: real)
    requires !IsBlank(first) && !IsBlank(second) && 0.0 <= random < 1.0
    ensures var s := Submit(Type(Submit(Type(Initial(), first), t1), second), t2);
      var r := Reply(s, t3, random);
      s.isTyping && s.pending == 2 && !r.isTyping && r.pending == 1 && Valid(r)
  {
    var s1 := Submit(Type(Initial(), first), t1);
    assert s1 == Accept(Type(Initial(), first), t1);
    AcceptKeepsValid(Type(Initial(), first), t1);
    var s := Submit(Type(s1, second), t2);
    assert s == Accept(Type(s1, second), t2);
    AcceptKeepsValid(Type(s1, second), t2);
    ReplyKeepsValid(s, t3, random, Reply(s, t3, random));
  }

  /** The page's state fields and its two handlers. The clock readings
      Date.now() and the values of Math.random are parameters. */
  class Home {
    var input: string
    var messages: seq<Message>
    var isTyping: bool
    /** How many reply timers are scheduled and have not fired. */
    var pending: nat

    ghost function State(): HomeState
      reads this
    {
      HomeState(messages, input, isTyping, pending)
    }

    constructor ()
      ensures State() == Initial() && Valid(State())
    {
      input := "";
      messages := [Message(Welcome, WelcomeText, false)];
      isTyping := false;
      pending := 0;
    }

    method SetInput(text: string)
      modifies this
      ensures State() == Type(old(State()), text)
    {
      input := text;
    }

    /** handleSendMessage, at clock reading `now`. */
    method HandleSendMessage(now: int)
      modifies this
      ensures State() == Submit(old(State()), now)
      ensures Valid(old(State())) ==> Valid(State())
    {
      ghost var before := State();
      if !IsBlank(input) {
        messages := messages + [Message(Stamp(now), input, true)];
        input := "";
        isTyping := true;
        pending := pending + 1;
        assert State() == Accept(before, now);
      }
      SubmitStepKeepsValid(before, now, State());
    }

    /** The body of a pending timer, firing at clock reading `now` with
        `random` the value Math.random returned. */
    method FireReply(now: int, random: real)
      requires pending > 0 && 0.0 <= random < 1.0
      modifies this
      ensures State() == Reply(old(State()), now, random)
      ensures Valid(old(State())) ==> Valid(State())
    {
      ghost var before := State();
      var text := BotResponses[RandomIndex(random, |BotResponses|)];
      messages := messages + [Message(Stamp(now + 1), text, false)];
      isTyping := false;
      pending := pending - 1;
      ReplyKeepsValid(before, now, random, State());
    }
  }
}
