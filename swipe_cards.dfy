/** The swipe poll (components/SwipeCards.tsx): a deck of yes/no cards shown
    one at a time, swiped by dragging past a threshold or by the two buttons. */
module SwipeCards {
  import opened Wrappers
  import opened Arith

  /** A card of the poll; the labels are optional, as in the source's record type. */
  datatype SwipeCardData = SwipeCardData(
    id: int, question: string, imageUrl: string,
    yesLabel: Option<string>, noLabel: Option<string>)

  /** The three cards the root component passes in. */
  const SurveyCards: seq<SwipeCardData> := [
    SwipeCardData(1, "Was your delivery fast enough?",
      "https://images.unsplash.com/photo-1617788138017-80ad40651399?auto=format&fit=crop&w=600&q=80",
      Some("FAST ⚡️"), Some("SLOW 🐢")),
    SwipeCardData(2, "Are our prices fair for you?",
      "https://images.unsplash.com/photo-1604594849809-dfedbc827105?auto=format&fit=crop&w=600&q=80",
      Some("GOOD PRICE 👍"), Some("EXPENSIVE 💸")),
    SwipeCardData(3, "Do you want us to stock more Garlic?",
      "https://images.unsplash.com/photo-1615477209723-69f8841a22bd?auto=format&fit=crop&w=600&q=80",
      Some("YES PLEASE 🧄"), Some("NO THANKS 🙅‍♂️"))
  ]

  datatype SwipeDirection = Left | Right

  /** How far (in pixels) a card must be dragged before it counts as a swipe. */
  const Threshold: real := 100.0

  /** The classification of `handleDragEnd`: `None` means the card snaps back. */
  function ClassifyDrag(offsetX: real): (r: Option<SwipeDirection>)
    ensures r == Some(Right) <==> offsetX > Threshold
    ensures r == Some(Left) <==> offsetX < -Threshold
    ensures r == None <==> -Threshold <= offsetX <= Threshold
  {
    if offsetX > Threshold then Some(Right)
    else if offsetX < -Threshold then Some(Left)
    else None
  }

  /** The value `triggerSwipe` stores in `direction`. */
  function DirectionValue(d: SwipeDirection): (v: int)
    ensures v == 1 <==> d == Right
    ensures v == -1 <==> d == Left
  {
    match d
    case Right => 1
    case Left => -1
  }

  /** The deck's state: the active card and the exit direction of the animation. */
  datatype Deck = Deck(index: nat, direction: int)

  /** The deck's state stays well formed: a non-empty deck points at one of its cards. */
  predicate InRange(d: Deck, cardCount: nat)
  {
    (if cardCount == 0 then d.index == 0 else d.index < cardCount) &&
    -1 <= d.direction <= 1
  }

  /** The deck after one swipe and whether `onComplete` was called. */
  datatype SwipeOutcome = SwipeOutcome(deck: Deck, completes: bool)

  /** `triggerSwipe` followed at once by its timer body. */
  function Swipe(d: Deck, cardCount: nat, dir: SwipeDirection): (o: SwipeOutcome)
    ensures o.completes <==> d.index + 1 == cardCount
    ensures d.index + 1 < cardCount ==> o.deck == Deck(d.index + 1, 0)
    ensures d.index + 1 >= cardCount ==> o.deck == Deck(d.index, DirectionValue(dir))
    ensures InRange(d, cardCount) ==> InRange(o.deck, cardCount)
  {
    var dirVal := DirectionValue(dir);
    if d.index < cardCount then
      if d.index == cardCount - 1 then SwipeOutcome(Deck(d.index, dirVal), true)
      else SwipeOutcome(Deck(d.index + 1, 0), false)
    else SwipeOutcome(Deck(d.index, dirVal), false)
  }

  /** The deck after a run of swipes and how many of them called `onComplete`. */
  datatype RunOutcome = RunOutcome(deck: Deck, completions: nat)

  function Run(d: Deck, cardCount: nat, dirs: seq<SwipeDirection>): RunOutcome
    decreases |dirs|
  {
    if dirs == [] then RunOutcome(d, 0)
    else
      var o := Swipe(d, cardCount, dirs[0]);
      var rest := Run(o.deck, cardCount, dirs[1..]);
      RunOutcome(rest.deck, rest.completions + if o.completes then 1 else 0)
  }

  /** Whatever the directions, each swipe moves one card on until the last
      card, and every swipe made on the last card calls `onComplete`. */
  lemma {:induction false} RunCounts(d: Deck, cardCount: nat, dirs: seq<SwipeDirection>)
    requires d.index < cardCount
    ensures Run(d, cardCount, dirs).deck.index == Min(d.index + |dirs|, cardCount - 1)
    ensures Run(d, cardCount, dirs).completions == Max(0, |dirs| - (cardCount - 1 - d.index))
    decreases |dirs|
  {
    if dirs != [] {
      var o := Swipe(d, cardCount, dirs[0]);
      RunCounts(o.deck, cardCount, dirs[1..]);
    }
  }

  /** From the first card of a non-empty deck, exactly `cardCount` swipes call
      `onComplete` exactly once, and no shorter run calls it at all. */
  lemma CompletesOnLastSwipe(cardCount: nat, dirs: seq<SwipeDirection>)
    requires 0 < cardCount && |dirs| == cardCount
    ensures Run(Deck(0, 0), cardCount, dirs).completions == 1
    ensures Run(Deck(0, 0), cardCount, dirs).deck.index == cardCount - 1
    ensures forall k :: 0 <= k < |dirs| ==> Run(Deck(0, 0), cardCount, dirs[..k]).completions == 0
  {
    RunCounts(Deck(0, 0), cardCount, dirs);
    forall k | 0 <= k < |dirs|
      ensures Run(Deck(0, 0), cardCount, dirs[..k]).completions == 0
    {
      RunCounts(Deck(0, 0), cardCount, dirs[..k]);
    }
  }

  /** The survey's own deck of three cards completes on the third swipe. */
  lemma SurveyDeckCompletesOnThird(a: SwipeDirection, b: SwipeDirection, c: SwipeDirection)
    ensures Run(Deck(0, 0), |SurveyCards|, [a, b]).completions == 0
    ensures Run(Deck(0, 0), |SurveyCards|, [a, b, c]).completions == 1
  {
    RunCounts(Deck(0, 0), |SurveyCards|, [a, b]);
    RunCounts(Deck(0, 0), |SurveyCards|, [a, b, c]);
  }

  /** The component's state: `activeCardIndex` and `direction`, with a ghost
      count of the calls made to `onComplete`. */
  class SwipeDeck {
    const cards: seq<SwipeCardData>
    var activeCardIndex: nat
    var direction: int
    ghost var completedCount: nat

    function State(): Deck
      reads this
    {
      Deck(activeCardIndex, direction)
    }

    ghost predicate Valid()
      reads this
    {
      InRange(State(), |cards|)
    }

    constructor (cards: seq<SwipeCardData>)
      ensures this.cards == cards
      ensures State() == Deck(0, 0) && completedCount == 0
      ensures Valid()
    {
      this.cards := cards;
      activeCardIndex := 0;
      direction := 0;
      completedCount := 0;
    }

    /** `triggerSwipe`, with the delayed body run at once; `completes` is true
        when the call ends in `onComplete`. */
    method TriggerSwipe(dir: SwipeDirection) returns (completes: bool)
      requires Valid()
      modifies this
      ensures Valid()
      ensures State() == Swipe(old(State()), |cards|, dir).deck
      ensures completes == Swipe(old(State()), |cards|, dir).completes
      ensures completedCount == old(completedCount) + if completes then 1 else 0
    {
      var dirVal := if dir == Right then 1 else -1;
      direction := dirVal;
      completes := false;
      if activeCardIndex < |cards| {
        if activeCardIndex == |cards| - 1 {
          completes := true;
          completedCount := completedCount + 1;
        } else {
          activeCardIndex := activeCardIndex + 1;
          direction := 0;
        }
      }
    }

    /** `handleDragEnd`: swipe past the threshold, otherwise leave the deck alone. */
    method HandleDragEnd(offsetX: real) returns (completes: bool)
      requires Valid()
      modifies this
      ensures Valid()
      ensures ClassifyDrag(offsetX) == None ==>
        State() == old(State()) && !completes && completedCount == old(completedCount)
      ensures ClassifyDrag(offsetX).Some? ==>
        var o := Swipe(old(State()), |cards|, ClassifyDrag(offsetX).value);
        State() == o.deck && completes == o.completes &&
        completedCount == old(completedCount) + if completes then 1 else 0
    {
      if offsetX > Threshold {
        completes := TriggerSwipe(Right);
      } else if offsetX < -Threshold {
        completes := TriggerSwipe(Left);
      } else {
        completes := false;
      }
    }

    /** The render guard: the card on show, or nothing once the index is past the deck. */
    function ActiveCard(): (r: Option<SwipeCardData>)
      reads this
      ensures r.Some? <==> activeCardIndex < |cards|
      ensures r.Some? ==> r.value == cards[activeCardIndex]
    {
      if activeCardIndex >= |cards| then None else Some(cards[activeCardIndex])
    }
  }
}
