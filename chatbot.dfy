/** The chat widget of src/components/Chatbot.tsx: a message list, the text
    of the input box and a typing flag, changed by a submit handler and by the
    timer callbacks it schedules.

    The state machine is given first as functions on a `ChatState` value;
    the class `Chatbot` holds the component's fields and its methods are
    proved to perform exactly those transitions. */
module ChatbotWidget {
  import opened JsBuiltins

  datatype Sender = User | Bot

  /** A chat bubble. The timestamp is left out: it only feeds display. */
  datatype Message = Message(id: int, text: string, sender: Sender)

  const WelcomeText: string := "Hello! How can I help you today?"

  /** The eight canned replies, in table order. */
  const BotResponses: seq<string> := [
    "I'm here to help! What would you like to know?",
    "That's an interesting question. Let me think about that.",
    "I understand your concern. Here's what I suggest...",
    "Thanks for sharing that with me. Can you tell me more?",
    "I'm still learning, but I'll do my best to assist you.",
    "That's a great point! Have you considered trying this approach?",
    "I appreciate your patience. Let me find the right information for you.",
    "I'm sorry to hear that. How can I make things better for you?"
  ]

  /** The component state. `pending` holds one entry per reply timer that has
      been scheduled and has not fired, oldest first (all timers share the
      same 1500 ms delay, so they fire in that order); each entry is the
      `messages.length` the timer's closure captured when it was scheduled. */
  datatype ChatState = ChatState(messages: seq<Message>, input: string, isTyping: bool, pending: seq<nat>)

  function CountSender(msgs: seq<Message>, who: Sender): nat {
    if msgs == [] then 0
    else CountSender(msgs[..|msgs| - 1], who) + (if msgs[|msgs| - 1].sender == who then 1 else 0)
  }

  /** What every reachable state satisfies:
      - the welcome message stays first;
      - a user message's id is its position plus one;
      - a bot reply's text comes from the table and its id is at least 3 and
        at most its position plus one (it never runs ahead of the list);
      - each pending timer belongs to a user message, oldest first;
      - user messages equal bot replies plus pending timers;
      - the typing flag is raised only while some timer is pending. */
  ghost predicate Valid(s: ChatState) {
    var m := s.messages;
    && |m| >= 1 && m[0] == Message(1, WelcomeText, Bot)
    && (forall i :: 0 <= i < |m| && m[i].sender == User ==> m[i].id == i + 1)
    && (forall i :: 0 < i < |m| && m[i].sender == Bot ==> m[i].text in BotResponses && 3 <= m[i].id <= i + 1)
    && (forall k :: 0 <= k < |s.pending| ==> 0 < s.pending[k] < |m| && m[s.pending[k]].sender == User)
    && (forall k, l :: 0 <= k < l < |s.pending| ==> s.pending[k] < s.pending[l])
    && CountSender(m, User) + 1 == CountSender(m, Bot) + |s.pending|
    && (s.isTyping ==> s.pending != [])
  }

  /** Ids equal positions plus one: 1, 2, 3, ... */
  ghost predicate SequentialIds(m: seq<Message>) {
    forall i :: 0 <= i < |m| ==> m[i].id == i + 1
  }

  ghost predicate UniqueIds(m: seq<Message>) {
    forall i, j :: 0 <= i < j < |m| ==> m[i].id != m[j].id
  }

  /** A valid state with no reply outstanding and ids 1, 2, 3, ... */
  ghost predicate Settled(s: ChatState) {
    Valid(s) && s.pending == [] && SequentialIds(s.messages)
  }

  /** The state when the component mounts: the welcome message alone. */
  function Initial(): (s: ChatState)
    ensures s.messages == [Message(1, WelcomeText, Bot)]
    ensures Settled(s) && !s.isTyping && s.input == ""
  {
    ChatState([Message(1, WelcomeText, Bot)], "", false, [])
  }

  /** The onChange handler of the input box. */
  function Type(s: ChatState, text: string): (r: ChatState)
    ensures r.input == text && r.messages == s.messages && r.pending == s.pending && r.isTyping == s.isTyping
    ensures Valid(s) ==> Valid(r)
  {
    s.(input := text)
  }

  lemma {:induction false} CountSenderAppend(m: seq<Message>, x: Message, who: Sender)
    ensures CountSender(m + [x], who) == CountSender(m, who) + (if x.sender == who then 1 else 0)
  {
    assert (m + [x])[..|m + [x]| - 1] == m;
  }

  /** handleSendMessage: a blank input changes nothing; otherwise the input is
      appended, untrimmed, as a user message whose id is the old length plus
      one, the input box is cleared, the typing flag is raised and one reply
      timer is scheduled, capturing the old length. */
  function Submit(s: ChatState): (r: ChatState)
    ensures s.messages <= r.messages
    ensures IsBlank(s.input) <==> r == s
    ensures !IsBlank(s.input) ==>
      && r.messages == s.messages + [Message(|s.messages| + 1, s.input, User)]
      && r.input == "" && r.isTyping && r.pending == s.pending + [|s.messages|]
  {
    if IsBlank(s.input) then s else Accept(s)
  }

  /** The part of handleSendMessage past the blank-input guard. */
  function Accept(s: ChatState): ChatState {
    ChatState(s.messages + [Message(|s.messages| + 1, s.input, User)], "", true, s.pending + [|s.messages|])
  }

  /** The oldest reply timer fires: a bot message with a table entry chosen by
      `random` (the value of Math.random) is appended, carrying the id its
      closure computed, captured length plus two; the typing flag is lowered
      whether or not other timers are still pending. */
  function Reply(s: ChatState, random: real): (r: ChatState)
    requires s.pending != [] && 0.0 <= random < 1.0
    ensures s.messages <= r.messages && |r.messages| == |s.messages| + 1
    ensures var b := r.messages[|s.messages|];
      b.sender == Bot && b.text in BotResponses && b.id == s.pending[0] + 2
    ensures r.input == s.input && !r.isTyping && r.pending == s.pending[1..]
  {
    var text := BotResponses[RandomIndex(random, |BotResponses|)];
    ChatState(s.messages + [Message(s.pending[0] + 2, text, Bot)], s.input, false, s.pending[1..])
  }

  /** Submitting preserves every invariant of Valid. */
  lemma SubmitKeepsValid(s: ChatState)
    requires Valid(s)
    ensures Valid(Submit(s))
  {
    if !IsBlank(s.input) {
      AcceptKeepsValid(s);
    }
  }

  lemma AcceptKeepsValid(s: ChatState)
    requires Valid(s)
    ensures Valid(Accept(s))
  {
    var r := Accept(s);
    var n := |s.messages|;
    var p := |s.pending|;
    CountSenderAppend(s.messages, r.messages[n], User);
    CountSenderAppend(s.messages, r.messages[n], Bot);
    assert forall i :: 0 <= i < n ==> r.messages[i] == s.messages[i];
    assert forall k :: 0 <= k < p ==> r.pending[k] == s.pending[k] < n;
    assert r.pending[p] == n && r.messages[n].sender == User;
  }

  lemma SubmitStepKeepsValid(s: ChatState, r: ChatState)
    requires r == Submit(s)
    ensures Valid(s) ==> Valid(r)
  {
    if Valid(s) {
      SubmitKeepsValid(s);
    }
  }

  /** A firing timer preserves every invariant of Valid; in particular its
      id, captured length plus two, is at most its own position plus one,
      because the captured length is an earlier position. */
  lemma ReplyKeepsValid(s: ChatState, random: real, r: ChatState)
    requires s.pending != [] && 0.0 <= random < 1.0 && r == Reply(s, random)
    ensures Valid(s) ==> Valid(r)
  {
    if Valid(s) {
      var n := |s.messages|;
      CountSenderAppend(s.messages, r.messages[n], User);
      CountSenderAppend(s.messages, r.messages[n], Bot);
      assert forall i :: 0 <= i < n ==> r.messages[i] == s.messages[i];
      assert forall k :: 0 <= k < |r.pending| ==> r.pending[k] == s.pending[k + 1];
    }
  }

  /** One round of a conversation in which every reply arrives before the
      next message is sent: type `text`, send it, and let the timer fire. */
  function Round(s: ChatState, text: string, random: real): ChatState
    requires !IsBlank(text) && 0.0 <= random < 1.0
  {
    Reply(Submit(Type(s, text)), random)
  }

  ghost predicate WellFormedTurns(turns: seq<(string, real)>) {
    forall k :: 0 <= k < |turns| ==> !IsBlank(turns[k].0) && 0.0 <= turns[k].1 < 1.0
  }

  function Converse(s: ChatState, turns: seq<(string, real)>): ChatState
    requires WellFormedTurns(turns)
    decreases |turns|
  {
    if turns == [] then s
    else Converse(Round(s, turns[0].0, turns[0].1), turns[1..])
  }

  /** A round from a settled state ends in a settled state two messages
      longer: the reply's captured length is the user message's position,
      so its id, captured length plus two, is its own position plus one. */
  lemma RoundKeepsSettled(s: ChatState, text: string, random: real)
    requires Settled(s) && !IsBlank(text) && 0.0 <= random < 1.0
    ensures Settled(Round(s, text, random))
    ensures |Round(s, text, random).messages| == |s.messages| + 2
  {
    var t := Type(s, text);
    assert Submit(t) == Accept(t);
    AcceptReplyKeepsSettled(t, random);
  }

  lemma AcceptReplyKeepsSettled(t: ChatState, random: real)
    requires Settled(t) && 0.0 <= random < 1.0
    ensures Settled(Reply(Accept(t), random))
    ensures |Reply(Accept(t), random).messages| == |t.messages| + 2
  {
    var u := Accept(t);
    AcceptKeepsValid(t);
    var r := Reply(u, random);
    ReplyKeepsValid(u, random, r);
    var n := |t.messages|;
    assert u.pending == [n];
    assert forall i :: 0 <= i < n ==> r.messages[i] == t.messages[i];
    assert r.messages[n].id == n + 1 && r.messages[n + 1].id == n + 2;
  }

  /** Strict alternation from any settled state keeps ids sequential. */
  lemma {:induction false} ConverseKeepsSettled(s: ChatState, turns: seq<(string, real)>)
    requires Settled(s) && WellFormedTurns(turns)
    ensures Settled(Converse(s, turns))
    ensures |Converse(s, turns).messages| == |s.messages| + 2 * |turns|
    decreases |turns|
  {
    if turns != [] {
      RoundKeepsSettled(s, turns[0].0, turns[0].1);
      var s' := Round(s, turns[0].0, turns[0].1);
      assert WellFormedTurns(turns[1..]) by {
        forall k | 0 <= k < |turns[1..]| ensures !IsBlank(turns[1..][k].0) && 0.0 <= turns[1..][k].1 < 1.0 {
          assert turns[1..][k] == turns[k + 1];
        }
      }
      ConverseKeepsSettled(s', turns[1..]);
    }
  }

  /** After k strictly alternating rounds from mount, the ids are exactly
      1, 2, ..., 2k + 1, hence pairwise distinct. */
  lemma ConversationIdsUnique(turns: seq<(string, real)>)
    requires WellFormedTurns(turns)
    ensures var m := Converse(Initial(), turns).messages;
      |m| == 2 * |turns| + 1 && SequentialIds(m) && UniqueIds(m)
  {
    ConverseKeepsSettled(Initial(), turns);
  }

  /** A second message sent while the first reply is still pending gets, as
      its user id, the very id that pending reply will carry: both closures
      compute their id from lengths that differ by one. */
  lemma OverlappingSubmitDuplicatesId(s: ChatState, first: string, second: string, random: real)
    requires Settled(s) && !IsBlank(first) && !IsBlank(second) && 0.0 <= random < 1.0
    ensures var r := Reply(Submit(Type(Submit(Type(s, first)), second)), random);
      var n := |s.messages|;
      |r.messages| == n + 3 && r.messages[n + 1].sender == User && r.messages[n + 2].sender == Bot
      && r.messages[n + 1].id == r.messages[n + 2].id && !UniqueIds(r.messages)
  {
    var n := |s.messages|;
    var u := Submit(Type(s, first));
    assert u == Accept(Type(s, first));
    var v := Submit(Type(u, second));
    assert v == Accept(Type(u, second));
    var r := Reply(v, random);
    assert r.messages[n + 1].id == n + 2;
  }

  /** The component's state fields and its two handlers. */
  class Chatbot {
    var messages: seq<Message>
    var input: string
    var isTyping: bool
    /** The reply timers scheduled and not yet fired, oldest first, each with
        the `messages.length` its closure captured. */
    var pending: seq<nat>

    ghost function State(): ChatState
      reads this
    {
      ChatState(messages, input, isTyping, pending)
    }

    constructor ()
      ensures State() == Initial() && Valid(State())
    {
      messages := [Message(1, WelcomeText, Bot)];
      input := "";
      isTyping := false;
      pending := [];
    }

    method SetInput(text: string)
      modifies this
      ensures State() == Type(old(State()), text)
    {
      input := text;
    }

    /** handleSendMessage. */
    method HandleSendMessage()
      modifies this
      ensures State() == Submit(old(State()))
      ensures Valid(old(State())) ==> Valid(State())
    {
      ghost var before := State();
      if !IsBlank(input) {
        var captured := |messages|;
        messages := messages + [Message(captured + 1, input, User)];
        input := "";
        isTyping := true;
        pending := pending + [captured];
        assert State() == Accept(before);
      }
      SubmitStepKeepsValid(before, State());
    }

    /** The body of the oldest pending timer, given the value Math.random
        returned. */
    method FireReply(random: real)
      requires pending != [] && 0.0 <= random < 1.0
      modifies this
      ensures State() == Reply(old(State()), random)
      ensures Valid(old(State())) ==> Valid(State())
    {
      ghost var before := State();
      var captured := pending[0];
      pending := pending[1..];
      var text := BotResponses[RandomIndex(random, |BotResponses|)];
      messages := messages + [Message(captured + 2, text, Bot)];
      isTyping := false;
      ReplyKeepsValid(before, random, State());
    }

    /** The send button's `disabled` attribute: set exactly when a submit
        would be a no-op. */
    function SendDisabled(): (disabled: bool)
      reads this
      ensures disabled <==> Submit(State()) == State()
    {
      IsBlank(input)
    }
  }
}
