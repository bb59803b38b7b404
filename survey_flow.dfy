/** The root controller of the survey (App.tsx): the screen that is showing,
    how `nextStep` advances it, and the progress dots drawn above the middle screens. */
module SurveyFlow {
  import opened Arith

  /** The six screens, in the order the `SurveyStep` enumeration declares them. */
  datatype SurveyStep = Intro | SwipePoll | RatingSlider | ImprovementGrid | ChatBot | Completion

  /** Position of a step among the enumeration's values
      (`Object.values(SurveyStep).indexOf(step)`); the values are the
      member names, so positions follow declaration order. */
  function Ordinal(s: SurveyStep): (n: nat)
    ensures n <= LastOrdinal
    ensures n == 0 <==> s == Intro
    ensures n == LastOrdinal <==> s == Completion
  {
    match s
    case Intro => 0
    case SwipePoll => 1
    case RatingSlider => 2
    case ImprovementGrid => 3
    case ChatBot => 4
    case Completion => 5
  }

  const LastOrdinal: nat := 5

  lemma OrdinalInjective(s: SurveyStep, t: SurveyStep)
    ensures Ordinal(s) == Ordinal(t) <==> s == t
  {
  }

  /** The switch of `nextStep`: one step forward, and the terminal step stays put. */
  function Next(s: SurveyStep): (r: SurveyStep)
    ensures s != Completion ==> Ordinal(r) == Ordinal(s) + 1
    ensures s == Completion ==> r == Completion
  {
    match s
    case Intro => SwipePoll
    case SwipePoll => RatingSlider
    case RatingSlider => ImprovementGrid
    case ImprovementGrid => ChatBot
    case ChatBot => Completion
    case Completion => Completion
  }

  /** The step reached after `n` calls of `nextStep` starting from `s`. */
  function Iterate(s: SurveyStep, n: nat): SurveyStep
    decreases n
  {
    if n == 0 then s else Next(Iterate(s, n - 1))
  }

  /** Every call moves one position forward until the terminal step. */
  lemma {:induction false} IterateOrdinal(s: SurveyStep, n: nat)
    ensures Ordinal(Iterate(s, n)) == Min(Ordinal(s) + n, LastOrdinal)
  {
    if n > 0 {
      IterateOrdinal(s, n - 1);
    }
  }

  /** The ordinal never decreases along a run of calls, and it strictly
      increases for as long as the step is not `Completion`. */
  lemma {:induction false} IterateMonotone(s: SurveyStep, m: nat, n: nat)
    requires m <= n
    ensures Ordinal(Iterate(s, m)) <= Ordinal(Iterate(s, n))
    ensures m < n && Iterate(s, m) != Completion ==> Ordinal(Iterate(s, m)) < Ordinal(Iterate(s, n))
  {
    IterateOrdinal(s, m);
    IterateOrdinal(s, n);
  }

  /** From the intro screen, exactly five calls reach `Completion`, fewer do not,
      and any further call stays there. */
  lemma {:induction false} IntroReachesCompletion(n: nat)
    ensures Iterate(Intro, n) == Completion <==> n >= 5
    ensures n <= 5 ==> Ordinal(Iterate(Intro, n)) == n
  {
    IterateOrdinal(Intro, n);
  }

  /** The whole route from the intro screen, one call at a time. */
  lemma {:induction false} IntroRoute()
    ensures Iterate(Intro, 1) == SwipePoll
    ensures Iterate(Intro, 2) == RatingSlider
    ensures Iterate(Intro, 3) == ImprovementGrid
    ensures Iterate(Intro, 4) == ChatBot
    ensures Iterate(Intro, 5) == Completion
  {
    IntroReachesCompletion(1);
    IntroReachesCompletion(2);
    IntroReachesCompletion(3);
    IntroReachesCompletion(4);
    IntroReachesCompletion(5);
  }

  /** The state held by the root component: `const [step, setStep] = useState(...)`. */
  class StepController {
    var step: SurveyStep

    constructor ()
      ensures step == Intro
    {
      step := Intro;
    }

    /** `nextStep`. */
    method Advance()
      modifies this
      ensures step == Next(old(step))
    {
      step := Next(step);
    }
  }

  // Progress dots

  /** The four screens that have a dot, in the order the dots are drawn. */
  const MiddleSteps: seq<SurveyStep> := [SwipePoll, RatingSlider, ImprovementGrid, ChatBot]

  const ActiveWidth: nat := 24
  const IdleWidth: nat := 8
  const FilledColor: string := "#10B981"
  const EmptyColor: string := "#D1D5DB"

  /** The dots are drawn on every screen except the first and the last. */
  function ShowsProgress(step: SurveyStep): (b: bool)
    ensures b <==> 0 < Ordinal(step) < LastOrdinal
    ensures b <==> step in MiddleSteps
  {
    step != Intro && step != Completion
  }

  datatype Dot = Dot(width: nat, color: string)

  /** The animated width and colour of the dot for screen `s` while `step` shows. */
  function DotFor(step: SurveyStep, s: SurveyStep): (d: Dot)
    ensures d.width == ActiveWidth <==> step == s
    ensures d.width == ActiveWidth || d.width == IdleWidth
    ensures d.color == FilledColor <==> Ordinal(step) >= Ordinal(s)
    ensures d.color == FilledColor || d.color == EmptyColor
  {
    OrdinalInjective(step, s);
    Dot(if Ordinal(step) == Ordinal(s) then ActiveWidth else IdleWidth,
        if Ordinal(step) >= Ordinal(s) then FilledColor else EmptyColor)
  }

  /** The row of dots: empty when hidden, else one dot per middle screen. */
  function ProgressDots(step: SurveyStep): (dots: seq<Dot>)
    ensures |dots| == if ShowsProgress(step) then |MiddleSteps| else 0
    ensures forall i :: 0 <= i < |dots| ==> dots[i] == DotFor(step, MiddleSteps[i])
  {
    if ShowsProgress(step) then seq(|MiddleSteps|, i requires 0 <= i < |MiddleSteps| => DotFor(step, MiddleSteps[i]))
    else []
  }

  /** On a middle screen exactly the dot of that screen is wide, and the
      dots up to and including it are filled. */
  lemma ProgressDotsShape(step: SurveyStep, i: nat)
    requires ShowsProgress(step) && i < |MiddleSteps|
    ensures ProgressDots(step)[i].width == ActiveWidth <==> i + 1 == Ordinal(step)
    ensures ProgressDots(step)[i].color == FilledColor <==> i < Ordinal(step)
  {
    assert Ordinal(MiddleSteps[i]) == i + 1;
    OrdinalInjective(step, MiddleSteps[i]);
  }
}
