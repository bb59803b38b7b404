/** The freshness rating (components/EmojiSlider.tsx): a slider over 0..100
    whose value picks one of three feedback bands. */
module EmojiSlider {

  /** What the range input (`min="0" max="100"`, integer steps) can deliver. */
  type Percent = v: int | 0 <= v <= 100

  const InitialValue: Percent := 50

  /** The three feedback bands, from worst to best. */
  datatype Band = NotFresh | Okay | SuperFresh

  /** The branches of `getFeedback`, over every integer. */
  function BandOf(v: int): (b: Band)
    ensures b == NotFresh <==> v < 30
    ensures b == Okay <==> 30 <= v < 70
    ensures b == SuperFresh <==> 70 <= v
  {
    if v < 30 then NotFresh
    else if v < 70 then Okay
    else SuperFresh
  }

  function Rank(b: Band): nat
  {
    match b
    case NotFresh => 0
    case Okay => 1
    case SuperFresh => 2
  }

  /** A larger value never gives a lower band. */
  lemma BandMonotone(v: int, w: int)
    requires v <= w
    ensures Rank(BandOf(v)) <= Rank(BandOf(w))
  {
  }

  /** The record `getFeedback` returns: emoji, gradient, caption and shadow. */
  datatype Feedback = Feedback(emoji: string, color: string, text: string, shadow: string)

  /** The three records of `getFeedback`: the caption names the band. */
  function Style(b: Band): (f: Feedback)
    ensures f.text == "Not Fresh" <==> b == NotFresh
    ensures f.text == "It was okay" <==> b == Okay
    ensures f.text == "Super Fresh!" <==> b == SuperFresh
  {
    match b
    case NotFresh => Feedback("😤", "from-red-500 to-red-600", "Not Fresh", "shadow-red-500/50")
    case Okay => Feedback("😐", "from-yellow-400 to-orange-500", "It was okay", "shadow-orange-500/50")
    case SuperFresh => Feedback("🤩", "from-emerald-400 to-green-600", "Super Fresh!", "shadow-emerald-500/50")
  }

  /** `getFeedback`: the caption names the band the value falls in. */
  function GetFeedback(v: int): (f: Feedback)
    ensures f.text == "Not Fresh" <==> v < 30
    ensures f.text == "It was okay" <==> 30 <= v < 70
    ensures f.text == "Super Fresh!" <==> 70 <= v
  {
    Style(BandOf(v))
  }

  /** The rotation keyframes of the emoji: a shake, a celebration, or none. */
  datatype Wiggle = Shake | Celebrate | Still

  function Rotation(v: int): (w: Wiggle)
    ensures w == Shake <==> v < 30
    ensures w == Celebrate <==> v > 70
  {
    if v < 30 then Shake
    else if v > 70 then Celebrate
    else Still
  }

  /** The rotation agrees with the bands everywhere except at 70, which is
      captioned "Super Fresh!" but keeps the neutral rotation. */
  lemma RotationBoundaryMismatch(v: int)
    ensures Rotation(v) == Shake <==> BandOf(v) == NotFresh
    ensures Rotation(v) == Celebrate <==> BandOf(v) == SuperFresh && v != 70
    ensures v == 70 ==> GetFeedback(v).text == "Super Fresh!" && Rotation(v) == Still
  {
  }

  /** The component's `value` state. */
  class Slider {
    var value: Percent

    constructor ()
      ensures value == InitialValue
    {
      value := InitialValue;
    }

    /** `onChange`: the integer parsed from the input replaces the value. */
    method OnChange(parsed: Percent)
      modifies this
      ensures value == parsed
    {
      value := parsed;
    }

    /** `handleDragEnd`: the value handed to `onComplete`, the delay run at once. */
    method HandleDragEnd() returns (reported: Percent)
      ensures reported == value
    {
      reported := value;
    }
  }
}
