# Swipe survey: a Dafny model of its screen logic

The system is a mobile-web survey for a grocery-delivery app. It has six
screens: intro, swipe poll, rating slider, improvement grid, chat assistant
and completion. This project models the logic under the rendering:

- **Step controller** (`survey_flow.dfy`, module `SurveyFlow`): the
  `SurveyStep` enumeration, the `nextStep` switch as the function `Next`, and
  the component's `step` state as the class `StepController`. `Iterate` runs
  `Next` repeatedly. The progress dots over the four middle screens are pure
  functions of the step's ordinal.
- **Swipe poll** (`swipe_cards.dfy`, module `SwipeCards`): drag offsets are
  classified against the threshold of 100. `Swipe` is one swipe, with the
  250 ms timer body applied at once. `Run` is a sequence of swipes. The class
  `SwipeDeck` holds `activeCardIndex` and `direction`, plus a ghost count of
  `onComplete` calls.
- **Rating slider** (`emoji_slider.dfy`, module `EmojiSlider`): the three
  feedback bands of `getFeedback`, the emoji's rotation choice, and the
  slider's `value` state as the class `Slider`.
- **Improvement grid** (`visual_grid.dfy`, module `VisualGrid`): the toggle
  update (`Toggle`, built on the filter `Without`), the `selected` state as
  the class `Grid`, submit, and the button caption.
- **Chat assistant** (`chat_bot.dfy`, module `ChatBot`): the transcript,
  quick-reply options and typing indicator as the class `ChatSession`.
  `handleOptionClick` is split at its `await` into `Send` and `Receive`. The
  collaborator's reply is a plain string parameter of `Receive`. Every
  `setTimeout` becomes a `Timer` (a delay plus an effect, either `SetOptions`
  or `Complete`) in a pending list, and `FireTimer` fires one of them. The
  JavaScript `includes` test is the function `Includes`.
- `wrappers.dfy` holds the `Option` type used for optional card labels and for
  the drag classification; `arith.dfy` holds `Min` and `Max`.

A few behaviours of the code that are easy to misread; the model follows the code:

- A drag counts as a swipe only when it goes strictly past 100 pixels. A drag
  of exactly 100 snaps back.
- A swipe on the last card calls `onComplete` but does not move the index.
- "Maybe next week" schedules completion after one second. It also brings the
  two-option follow-up menu back after the same delay.
- The grid's selection is an ordered list, not a set. Deselecting an id
  removes every copy of it. Selecting appends at the end.
- The emoji's rotation uses `value > 70` while the caption uses `value >= 70`.
  So 70 is captioned "Super Fresh!" but keeps the neutral rotation.
  `RotationBoundaryMismatch` states this exactly.

## Model

| member | source | states |
|---|---|---|
| SurveyFlow.Ordinal | types.ts:3-10 | a step's position among the enumeration's values is in 0..5; it is 0 exactly for the intro and 5 exactly for completion |
| SurveyFlow.OrdinalInjective | types.ts:3-10 | two steps share an ordinal only if they are the same step |
| SurveyFlow.Next | App.tsx:38-47 | every step but completion moves exactly one ordinal forward; completion is a fixed point |
| SurveyFlow.IterateOrdinal | App.tsx:38-47 | after n calls from step s the ordinal is min(ordinal(s) + n, 5) |
| SurveyFlow.IterateMonotone | App.tsx:38-47 | along any run of calls the ordinal never decreases, and it strictly increases while the step is not completion |
| SurveyFlow.IntroReachesCompletion | App.tsx:36-46 | from the intro, n calls reach completion iff n >= 5; after n <= 5 calls the ordinal is n |
| SurveyFlow.IntroRoute | App.tsx:39-44 | the route from the intro is swipe poll, rating slider, improvement grid, chat bot, completion |
| SurveyFlow.StepController.constructor | App.tsx:36 | the step starts at the intro |
| SurveyFlow.StepController.Advance | App.tsx:38-47 | the new step is `Next` of the old one |
| SurveyFlow.DotFor | App.tsx:77-83 | a dot is wide (24) iff its screen is the current step, else 8; it is filled iff the current ordinal is at least its screen's ordinal, else grey |
| SurveyFlow.ShowsProgress | App.tsx:75 | the dots are shown iff the step's ordinal lies strictly between the intro's and completion's, that is iff the step is one of the four middle screens |
| SurveyFlow.ProgressDots | App.tsx:75-77 | four dots, one per middle screen in order, when the step is neither intro nor completion; no dots otherwise |
| SurveyFlow.ProgressDotsShape | App.tsx:75-83 | on a middle screen, dot i is wide iff i + 1 is the step's ordinal and filled iff i is below it |
| SwipeCards.ClassifyDrag | components/SwipeCards.tsx:47-58 | an offset above 100 swipes right, below -100 swipes left, and one in [-100, 100] snaps back |
| SwipeCards.DirectionValue | components/SwipeCards.tsx:63-64 | the stored direction is 1 for right and -1 for left |
| SwipeCards.Swipe | components/SwipeCards.tsx:60-78 | onComplete fires iff the index is the last card; before the last card the index goes up by one and the direction resets to 0; on the last card the index stays and the direction becomes the swipe's; the index stays in range |
| SwipeCards.RunCounts | components/SwipeCards.tsx:60-78 | from any card, after any mix of swipes, the index is min(start + swipes, last) and the completions are the swipes made on the last card |
| SwipeCards.CompletesOnLastSwipe | components/SwipeCards.tsx:60-78 | from card 0 of a non-empty deck, exactly len swipes fire onComplete exactly once and no shorter prefix fires it |
| SwipeCards.SurveyDeckCompletesOnThird | App.tsx:11-33 | the survey's three-card deck fires onComplete on the third swipe and not before |
| SwipeCards.SwipeDeck.constructor | components/SwipeCards.tsx:35-36 | index and direction start at 0, no completion yet |
| SwipeCards.SwipeDeck.TriggerSwipe | components/SwipeCards.tsx:60-78 | the new index and direction are those of `Swipe`; the completion count goes up by one exactly when onComplete fires |
| SwipeCards.SwipeDeck.HandleDragEnd | components/SwipeCards.tsx:47-58 | a drag within the threshold changes nothing; a drag past it is a swipe in its direction |
| SwipeCards.SwipeDeck.ActiveCard | components/SwipeCards.tsx:80-82 | a card is rendered iff the index is inside the deck, and it is the card at the index |
| EmojiSlider.BandOf | components/EmojiSlider.tsx:12-16 | over all integers: v < 30 is Not Fresh, 30 <= v < 70 is okay, v >= 70 is Super Fresh |
| EmojiSlider.BandMonotone | components/EmojiSlider.tsx:12-16 | a larger value never gives a lower band |
| EmojiSlider.Style | components/EmojiSlider.tsx:13-15 | the record of each band carries that band's caption, and no other band's |
| EmojiSlider.GetFeedback | components/EmojiSlider.tsx:12-16 | the caption is 'Not Fresh', 'It was okay' or 'Super Fresh!' exactly on the three bands |
| EmojiSlider.Rotation | components/EmojiSlider.tsx:37 | the emoji shakes iff v < 30 and celebrates iff v > 70 |
| EmojiSlider.RotationBoundaryMismatch | components/EmojiSlider.tsx:12-37 | rotation and band agree everywhere except v = 70, which is Super Fresh yet keeps the neutral rotation |
| EmojiSlider.Slider.constructor | components/EmojiSlider.tsx:9 | the value starts at 50 |
| EmojiSlider.Slider.OnChange | components/EmojiSlider.tsx:63-69 | the parsed input value, always an integer in [0, 100], replaces the value |
| EmojiSlider.Slider.HandleDragEnd | components/EmojiSlider.tsx:20-25 | reports exactly the current value and changes nothing |
| VisualGrid.ItemIdsOfItems | components/VisualGrid.tsx:9-14 | the four tiles have the distinct ids speed, price, packaging, freshness |
| VisualGrid.Without | components/VisualGrid.tsx:22 | filtering drops every copy of the id and keeps every other element with its multiplicity |
| VisualGrid.WithoutAppend | components/VisualGrid.tsx:22 | filtering distributes over concatenation, so the kept elements stay in order |
| VisualGrid.WithoutAbsent | components/VisualGrid.tsx:22 | filtering out an absent id leaves the list unchanged |
| VisualGrid.Toggle | components/VisualGrid.tsx:19-24 | the id is in the result iff it was absent; an absent id is appended at the end; a present id is removed and other ids keep their counts |
| VisualGrid.WithoutKeepsNoDuplicates | components/VisualGrid.tsx:22 | filtering a duplicate-free list gives a duplicate-free list |
| VisualGrid.ToggleKeepsNoDuplicates | components/VisualGrid.tsx:17-22 | toggling keeps the selection duplicate-free |
| VisualGrid.ToggleTwiceAbsent | components/VisualGrid.tsx:22 | toggling an absent id twice restores exactly the list |
| VisualGrid.ToggleTwicePresent | components/VisualGrid.tsx:22 | toggling a present id twice gives the list without it plus the id at the end, so the same elements |
| VisualGrid.ToggleAllWithinItems | components/VisualGrid.tsx:9-40 | toggles that pass only tile ids keep the selection a duplicate-free subset of the tile ids |
| VisualGrid.Grid.constructor | components/VisualGrid.tsx:17 | the selection starts empty |
| VisualGrid.Grid.ToggleItem | components/VisualGrid.tsx:19-24 | the new selection is `Toggle` of the old one |
| VisualGrid.Grid.IsSelected | components/VisualGrid.tsx:35 | a tile is drawn as selected iff its id occurs in the selection |
| VisualGrid.Grid.Submit | components/VisualGrid.tsx:84 | submit hands on exactly the current list, possibly empty |
| VisualGrid.Grid.SubmitLabel | components/VisualGrid.tsx:91 | the caption is 'Everything was perfect!' iff nothing is selected, else 'Fix these for me' |
| ChatBot.MissingCharExcludes | components/ChatBot.tsx:45 | a text lacking any one character of the pattern does not include the pattern |
| ChatBot.PrefixIncludes | components/ChatBot.tsx:45 | a text that starts with the pattern includes it |
| ChatBot.ScheduledEffects | components/ChatBot.tsx:45-55 | an option containing "Yes" or "order" schedules exactly one completion at 2000 ms; "Maybe next week" schedules the follow-up menu and a completion, both at 1000 ms; any other option schedules exactly the follow-up menu at 1000 ms; completion is scheduled iff the option contains "Yes" or "order" or is "Maybe next week", and a follow-up menu iff it contains neither pattern |
| ChatBot.Scheduled | components/ChatBot.tsx:45-55 | one click sets one or two timers, each after 1000 or 2000 ms, and the first is the follow-up menu exactly when the option contains neither "Yes" nor "order" |
| ChatBot.Includes | components/ChatBot.tsx:45 | `includes`: the pattern occurs at some position of the text; the empty pattern occurs in every text and a pattern longer than the text in none |
| ChatBot.SoundsLikeOrder | components/ChatBot.tsx:45 | the first branch's test, "Yes" or "order" included in the option; it can hold only for options of at least three characters |
| ChatBot.NotOrderLike | components/ChatBot.tsx:45 | an option lacking a character of "Yes" and one of "order" fails the first branch's test |
| ChatBot.InitialOptionsLeadToFollowUp | components/ChatBot.tsx:17-51 | none of the four opening options contains "Yes" or "order", and each schedules only the follow-up menu at 1000 ms |
| ChatBot.FollowUpOutcomes | components/ChatBot.tsx:45-55 | "Yes, I'll order! 😍" schedules only completion at 2000 ms; "Maybe next week" schedules the follow-up menu and completion, both at 1000 ms |
| ChatBot.AtMostOneCompletion | components/ChatBot.tsx:45-55 | one click never schedules more than one completion |
| ChatBot.ChatSession.constructor | components/ChatBot.tsx:11-22 | one greeting message from the model, the four opening options, not typing, no timers |
| ChatBot.ChatSession.Send | components/ChatBot.tsx:35-38 | exactly one user message with the option's text is appended; options are cleared; typing is on |
| ChatBot.ChatSession.Receive | components/ChatBot.tsx:42-55 | typing is off; exactly one model message with the reply is appended; the option's timers are added to the pending list |
| ChatBot.ChatSession.HandleOptionClick | components/ChatBot.tsx:34-56 | one click appends exactly the user and model messages after an unchanged prefix, clears the options and schedules the option's timers |
| ChatBot.ChatSession.FireTimer | components/ChatBot.tsx:45-55 | a firing timer leaves the pending list; a SetOptions timer replaces the options; only a Complete timer calls onComplete |
| ChatBot.PricesThenMaybeLater | components/ChatBot.tsx:34-56 | "Prices are high 💸" then "Maybe next week" gives a five-message transcript and shows the follow-up menu; onComplete is called exactly once |

## Left out

- The call to the language model (services/geminiService.ts) is not part of this model. `Receive` takes the reply as an arbitrary string, so the service's fallback strings are just possible replies. The `initializeChat` effect (components/ChatBot.tsx:24-26) is left out with it.
- Rendering, styling and animation are left out, because they are presentation only. This covers the motion values and their interpolations, the reset `x.set(0)` of the drag motion value, the card stack, the background layer, and the Completion screen with its confetti and reload.
- `navigator.vibrate` calls are left out, because they are device output.
- Message ids from `Date.now()`, the displayed clock and the auto-scroll effect are left out, because they are clock and DOM I/O.
- Timer delays are recorded but time does not pass. `FireTimer` may fire any pending timer, so every firing order is covered, and none is singled out as the real one. The 250 ms swipe timer and the 600 ms slider timer run at once.
- The stale-closure race of two swipes within 250 ms is left out, because the model has no real time.
- The drag offset is a real number. JavaScript's NaN and infinities are not modelled.
- The slider receives the already-parsed integer. The range input's string and `parseInt` are not modelled, because the input only produces integers in [0, 100].
- Strings are sequences of Unicode scalar values, while JavaScript strings are UTF-16. The patterns the chat tests for ("Yes", "order") are ASCII, so the two agree on them.
- The values the slider and the grid hand to `onComplete` go to `nextStep`, which ignores them. The model reports them and does not thread them further. The swipe poll collects no per-card answers, as in the code.
