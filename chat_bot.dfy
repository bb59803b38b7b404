/** The scripted chat (components/ChatBot.tsx): quick-reply buttons, a
    two-phase exchange with the language-model collaborator, and timers that
    bring up a follow-up menu or end the screen. */
module ChatBot {

  /** Who wrote a message: the user, or the model (the assistant). */
  datatype Role = User | Model

  /** A chat bubble; the clock-derived id of the source is not modelled. */
  datatype Message = Message(role: Role, text: string)

  /** What a pending timer does when it fires. */
  datatype Effect = SetOptions(options: seq<string>) | Complete

  /** A `setTimeout` not yet fired: its delay in milliseconds and its effect. */
  datatype Timer = Timer(delayMs: nat, effect: Effect)

  const Greeting: string := "Hey! 👋 ChipChip support here. We noticed you haven't ordered in a while. Is everything okay?"

  const InitialOptions: seq<string> := [
    "Prices are high 💸",
    "Quality was bad 🍅",
    "Just busy/forgot 🤷‍♂️",
    "Delivery too slow 🐢"
  ]

  const FollowUpOptions: seq<string> := ["Yes, I'll order! 😍", "Maybe next week"]

  const MaybeLater: string := "Maybe next week"

  /** `sub` occurs in `s` starting at position `i`. */
  predicate OccursAt(s: string, sub: string, i: nat)
  {
    i + |sub| <= |s| && s[i..i + |sub|] == sub
  }

  /** `s.includes(sub)`: `sub` occurs somewhere in `s`. The empty pattern
      occurs in every text, and a pattern longer than the text in none. */
  function Includes(s: string, sub: string): (b: bool)
    ensures sub == [] ==> b
    ensures b ==> |sub| <= |s|
  {
    assert sub == [] ==> OccursAt(s, sub, 0);
    exists i: nat | i <= |s| :: OccursAt(s, sub, i)
  }

  /** A text that lacks one of the characters of `sub` cannot include `sub`. */
  lemma MissingCharExcludes(s: string, sub: string, k: nat)
    requires k < |sub| && sub[k] !in s
    ensures !Includes(s, sub)
  {
  }

  /** `sub` is a prefix of `s`, so `s` includes it. */
  lemma PrefixIncludes(s: string, sub: string)
    requires |sub| <= |s| && s[..|sub|] == sub
    ensures Includes(s, sub)
  {
    assert s[0..0 + |sub|] == s[..|sub|];
    assert OccursAt(s, sub, 0);
  }

  /** The test of the first branch: the choice sounds like a commitment to
      order. It needs at least the three characters of "Yes". */
  function SoundsLikeOrder(option: string): (b: bool)
    ensures b ==> 3 <= |option|
  {
    Includes(option, "Yes") || Includes(option, "order")
  }

  /** The timers the tail of `handleOptionClick` sets for the chosen option:
      one or two, each after one or two seconds, the first of them the
      follow-up menu exactly when the option does not sound like ordering. */
  function Scheduled(option: string): (timers: seq<Timer>)
    ensures 1 <= |timers| <= 2
    ensures forall t :: t in timers ==> t.delayMs == 1000 || t.delayMs == 2000
    ensures timers[0].effect.SetOptions? <==> !SoundsLikeOrder(option)
  {
    (if SoundsLikeOrder(option) then [Timer(2000, Complete)]
     else [Timer(1000, SetOptions(FollowUpOptions))])
    + (if option == MaybeLater then [Timer(1000, Complete)] else [])
  }

  function CountCompletions(timers: seq<Timer>): nat
    decreases |timers|
  {
    if timers == [] then 0
    else (if timers[0].effect == Complete then 1 else 0) + CountCompletions(timers[1..])
  }

  /** Completion is scheduled exactly when the option sounds like ordering or
      is "Maybe next week"; the follow-up menu exactly when it does not sound
      like ordering. */
  lemma ScheduledEffects(option: string)
    ensures SoundsLikeOrder(option) ==> Scheduled(option) == [Timer(2000, Complete)]
    ensures !SoundsLikeOrder(option) && option != MaybeLater ==>
      Scheduled(option) == [Timer(1000, SetOptions(FollowUpOptions))]
    ensures option == MaybeLater ==>
      Scheduled(option) == [Timer(1000, SetOptions(FollowUpOptions)), Timer(1000, Complete)]
    ensures (exists t :: t in Scheduled(option) && t.effect == Complete)
            <==> SoundsLikeOrder(option) || option == MaybeLater
    ensures (exists t :: t in Scheduled(option) && t.effect.SetOptions?) <==> !SoundsLikeOrder(option)
    ensures forall t :: t in Scheduled(option) && t.effect.SetOptions? ==> t == Timer(1000, SetOptions(FollowUpOptions))
  {
    if SoundsLikeOrder(option) {
      assert Scheduled(option)[0] == Timer(2000, Complete);
    } else {
      assert Scheduled(option)[0] == Timer(1000, SetOptions(FollowUpOptions));
    }
    if option == MaybeLater {
      NotOrderLike(MaybeLater, 0, 0);
      assert Scheduled(option)[|Scheduled(option)| - 1] == Timer(1000, Complete);
    }
  }

  /** An option that lacks a character of "Yes" and one of "order" leads to the follow-up menu. */
  lemma NotOrderLike(option: string, kYes: nat, kOrder: nat)
    requires kYes < 3 && "Yes"[kYes] !in option
    requires kOrder < 5 && "order"[kOrder] !in option
    ensures !SoundsLikeOrder(option)
  {
    MissingCharExcludes(option, "Yes", kYes);
    MissingCharExcludes(option, "order", kOrder);
  }

  /** None of the four opening options sounds like ordering, so each one only
      schedules the follow-up menu, after one second. */
  lemma InitialOptionsLeadToFollowUp(k: nat)
    requires k < |InitialOptions|
    ensures !SoundsLikeOrder(InitialOptions[k])
    ensures Scheduled(InitialOptions[k]) == [Timer(1000, SetOptions(FollowUpOptions))]
  {
    if k == 0 {
      NotOrderLike("Prices are high 💸", 0, 0);
    } else if k == 1 {
      NotOrderLike("Quality was bad 🍅", 0, 0);
    } else if k == 2 {
      NotOrderLike("Just busy/forgot 🤷‍♂️", 0, 2);
    } else {
      NotOrderLike("Delivery too slow 🐢", 0, 2);
    }
  }

  /** The two follow-up options: accepting completes the screen after two
      seconds and nothing else; "Maybe next week" brings the menu back and
      completes after one second. */
  lemma FollowUpOutcomes()
    ensures Scheduled(FollowUpOptions[0]) == [Timer(2000, Complete)]
    ensures Scheduled(FollowUpOptions[1]) == [Timer(1000, SetOptions(FollowUpOptions)), Timer(1000, Complete)]
  {
    PrefixIncludes(FollowUpOptions[0], "Yes");
    NotOrderLike(MaybeLater, 0, 0);
  }

  /** Whatever the option, at most one completion is ever scheduled by one click. */
  lemma AtMostOneCompletion(option: string)
    ensures CountCompletions(Scheduled(option)) <= 1
  {
    var timers := Scheduled(option);
    if option == MaybeLater {
      NotOrderLike(MaybeLater, 0, 0);
      assert timers == [Timer(1000, SetOptions(FollowUpOptions)), Timer(1000, Complete)];
      assert timers[1..] == [Timer(1000, Complete)];
      assert timers[1..][1..] == [];
      assert CountCompletions(timers[1..]) == 1;
      assert timers[0].effect != Complete;
    } else {
      assert |timers| == 1 && timers[1..] == [];
    }
  }

  /** The chat screen's state: the transcript, the quick replies on show, the
      typing indicator, and the timers set and not yet fired. */
  class ChatSession {
    var messages: seq<Message>
    var options: seq<string>
    var isTyping: bool
    var pending: seq<Timer>

    constructor ()
      ensures messages == [Message(Model, Greeting)]
      ensures options == InitialOptions
      ensures !isTyping && pending == []
    {
      messages := [Message(Model, Greeting)];
      options := InitialOptions;
      isTyping := false;
      pending := [];
    }

    /** The part of `handleOptionClick` before the `await`. */
    method Send(option: string)
      modifies this
      ensures messages == old(messages) + [Message(User, option)]
      ensures options == [] && isTyping
      ensures pending == old(pending)
    {
      messages := messages + [Message(User, option)];
      options := [];
      isTyping := true;
    }

    /** The part of `handleOptionClick` after the `await`, given the reply. */
    method Receive(option: string, reply: string)
      modifies this
      ensures !isTyping
      ensures messages == old(messages) + [Message(Model, reply)]
      ensures options == old(options)
      ensures pending == old(pending) + Scheduled(option)
    {
      isTyping := false;
      messages := messages + [Message(Model, reply)];
      if SoundsLikeOrder(option) {
        pending := pending + [Timer(2000, Complete)];
      } else {
        pending := pending + [Timer(1000, SetOptions(FollowUpOptions))];
      }
      if option == MaybeLater {
        pending := pending + [Timer(1000, Complete)];
      }
    }

    /** A whole click when the collaborator answers `reply`: two messages,
        the earlier ones untouched. */
    method HandleOptionClick(option: string, reply: string)
      modifies this
      ensures messages == old(messages) + [Message(User, option), Message(Model, reply)]
      ensures |messages| == |old(messages)| + 2 && old(messages) <= messages
      ensures options == [] && !isTyping
      ensures pending == old(pending) + Scheduled(option)
    {
      Send(option);
      Receive(option, reply);
    }

    /** The timer at position `k` fires and leaves the pending list; `completes`
        is true when it calls `onComplete`. */
    method FireTimer(k: nat) returns (completes: bool)
      requires k < |pending|
      modifies this
      ensures pending == old(pending[..k] + pending[k + 1..])
      ensures messages == old(messages) && isTyping == old(isTyping)
      ensures completes <==> old(pending[k]).effect == Complete
      ensures options == match old(pending[k]).effect
                         case SetOptions(o) => o
                         case Complete => old(options)
    {
      var t := pending[k];
      pending := pending[..k] + pending[k + 1..];
      match t.effect
      case SetOptions(o) =>
        options := o;
        completes := false;
      case Complete =>
        completes := true;
    }
  }

  /** A short exchange: "Prices are high 💸", the
      follow-up menu once its timer fires, then "Maybe next week". */
  method PricesThenMaybeLater(reply1: string, reply2: string)
    returns (transcript: seq<Message>, menu: seq<string>, completions: nat)
    ensures transcript == [Message(Model, Greeting),
                           Message(User, InitialOptions[0]), Message(Model, reply1),
                           Message(User, MaybeLater), Message(Model, reply2)]
    ensures menu == FollowUpOptions
    ensures completions == 1
  {
    var chat := new ChatSession();
    chat.HandleOptionClick(InitialOptions[0], reply1);
    InitialOptionsLeadToFollowUp(0);
    var c := chat.FireTimer(0);
    menu := chat.options;
    chat.HandleOptionClick(MaybeLater, reply2);
    FollowUpOutcomes();
    var c1 := chat.FireTimer(0);
    var c2 := chat.FireTimer(0);
    completions := (if c1 then 1 else 0) + (if c2 then 1 else 0);
    transcript := chat.messages;
  }
}
