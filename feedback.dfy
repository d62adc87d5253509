/**
 * The hot/cold feedback `makeGuess` gives on a wrong guess (script.js:131-141):
 * three distance thresholds scaled to the range, a warmth band for the
 * distance, and whether the guess was too low or too high.
 */
module Feedback {

  import opened JsMath

  datatype Warmth = Hot | Warm | Cool | Cold
  datatype Direction = TooLow | TooHigh
  datatype Thresholds = Thresholds(hot: int, warm: int, cool: int)
  datatype Hint = Hint(direction: Direction, warmth: Warmth)

  function Abs(x: int): (a: int)
    ensures a >= 0 && (a == x || a == -x)
  {
    if x < 0 then -x else x
  }

  /**
   * `Math.round(maxRange * percent / 100)` in exact integer arithmetic: it is
   * the nearest integer to the exact product, a half rounded up.
   */
  function ScaledRound(maxRange: nat, percent: nat): (r: nat)
    ensures r == Round((percent * maxRange) as real / 100.0)
  {
    FloorOfQuotient(percent * maxRange + 50, 100);
    (percent * maxRange + 50) / 100
  }

  /** Rounding a larger share of the same range never gives less. */
  lemma ScaledRoundMonotone(maxRange: nat, p: nat, q: nat)
    requires p <= q
    ensures ScaledRound(maxRange, p) <= ScaledRound(maxRange, q)
  {
    assert p * maxRange <= q * maxRange;
  }

  /**
   * The three thresholds of script.js:132-134: 5%, 10% and 20% of the range,
   * rounded, and at least 2, 5 and 10. They are ordered, so each band below
   * is a range of distances.
   */
  function ThresholdsFor(maxRange: nat): (t: Thresholds)
    ensures 2 <= t.hot <= t.warm <= t.cool
    ensures 5 <= t.warm && 10 <= t.cool
    ensures t.hot == Max(2, Round(maxRange as real * 0.05))
    ensures t.warm == Max(5, Round(maxRange as real * 0.10))
    ensures t.cool == Max(10, Round(maxRange as real * 0.20))
  {
    ScaledRoundMonotone(maxRange, 5, 10);
    ScaledRoundMonotone(maxRange, 10, 20);
    Thresholds(Max(2, ScaledRound(maxRange, 5)), Max(5, ScaledRound(maxRange, 10)),
               Max(10, ScaledRound(maxRange, 20)))
  }

  function WarmthOf(diff: int, t: Thresholds): Warmth
  {
    if diff <= t.hot then Hot
    else if diff <= t.warm then Warm
    else if diff <= t.cool then Cool
    else Cold
  }

  /**
   * The feedback for a guess that missed `answer`, with `maxRange` the
   * parsed level: each warmth covers exactly one band of distances, and the
   * direction says "Too low" exactly when the guess is below the answer.
   */
  function HintFor(guess: int, answer: int, maxRange: nat): (h: Hint)
    ensures h.direction == TooLow <==> guess < answer
    ensures var diff, t := Abs(guess - answer), ThresholdsFor(maxRange);
      && (h.warmth == Hot <==> diff <= t.hot)
      && (h.warmth == Warm <==> t.hot < diff <= t.warm)
      && (h.warmth == Cool <==> t.warm < diff <= t.cool)
      && (h.warmth == Cold <==> t.cool < diff)
  {
    var t := ThresholdsFor(maxRange);
    Hint(if guess < answer then TooLow else TooHigh, WarmthOf(Abs(guess - answer), t))
  }

  /** How close a warmth says the guess is: Hot is 3, Cold is 0. */
  function Closeness(w: Warmth): nat
  {
    match w
    case Hot => 3
    case Warm => 2
    case Cool => 1
    case Cold => 0
  }

  /** A guess nearer the answer is never told it is colder. */
  lemma CloserIsNeverColder(g: int, g': int, answer: int, maxRange: nat)
    requires Abs(g - answer) <= Abs(g' - answer)
    ensures Closeness(HintFor(g, answer, maxRange).warmth) >= Closeness(HintFor(g', answer, maxRange).warmth)
  {
  }

  /**
   * The floors of the thresholds hold whatever the range: within 2 is always
   * Hot, within 5 at least Warm, within 10 at least Cool; and Cold means more
   * than a fifth of the range away.
   */
  lemma WarmthFloors(guess: int, answer: int, maxRange: nat)
    ensures var diff, w := Abs(guess - answer), HintFor(guess, answer, maxRange).warmth;
      && (diff <= 2 ==> w == Hot)
      && (diff <= 5 ==> w != Cool && w != Cold)
      && (diff <= 10 ==> w != Cold)
      && (w == Cold ==> maxRange < 5 * diff)
  {
    var diff := Abs(guess - answer);
    var c := ScaledRound(maxRange, 20);
    assert 100 * c > 20 * maxRange + 50 - 100;
  }

  /** The worked example: range 1-100, answer 62; 50 is "Too low", Cool; 75 is "Too high", Cool. */
  lemma HundredExample()
    ensures ThresholdsFor(100) == Thresholds(5, 10, 20)
    ensures HintFor(50, 62, 100) == Hint(TooLow, Cool)
    ensures HintFor(75, 62, 100) == Hint(TooHigh, Cool)
  {
  }
}
