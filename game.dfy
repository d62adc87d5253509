/**
 * The game controller of script.js: the module-level state (`level`,
 * `answer`, `score`, the round timer, the leaderboard, the player's name and
 * the enabled/disabled flags of the controls) as the fields of one object,
 * and each event handler as a method that changes them step by step.
 */
module Game {

  import opened Wrappers
  import opened Feedback
  import opened Leaderboard

  /**
   * The `level` variable: undefined until `play` first finds a checked radio,
   * then that radio's value, held as what `parseInt(value, 10)` makes of it
   * (`None` for `NaN`).
   */
  datatype Level = Unset | Value(parsed: Option<int>)

  /** `parseInt(level, 10)`, `None` standing for `NaN`. */
  function LevelNumber(level: Level): Option<int>
  {
    match level
    case Unset => None
    case Value(p) => p
  }

  /** `parseInt(level, 10) || 0`: the top of the guessing range. */
  function MaxRange(level: Level): int
  {
    match LevelNumber(level)
    case Some(n) => n
    case None => 0
  }

  /** The check of script.js:114: a number from 1 to the top of the range. */
  predicate IsValidGuess(guess: Option<int>, maxRange: int)
  {
    guess.Some? && 1 <= guess.value <= maxRange
  }

  /** An unparseable or non-positive level leaves no valid guess at all. */
  lemma NoGuessWithoutRange(guess: Option<int>, level: Level)
    requires MaxRange(level) < 1
    ensures !IsValidGuess(guess, MaxRange(level))
  {
  }

  /**
   * The level after the radio loop of script.js:101-106: the value of the
   * last checked radio, or the level as it was when none is checked.
   */
  function SelectLevel(current: Level, checked: seq<bool>, values: seq<Option<int>>): Level
    requires |checked| == |values|
  {
    if |checked| == 0 then current
    else if checked[|checked| - 1] then Value(values[|values| - 1])
    else SelectLevel(current, checked[..|checked| - 1], values[..|values| - 1])
  }

  /** No radio after position `j` is checked. */
  predicate NoneCheckedAfter(checked: seq<bool>, j: int)
  {
    forall i :: 0 <= i < |checked| && j < i ==> !checked[i]
  }

  /** `SelectLevel` picks the last checked radio, and keeps the old level only when none is checked. */
  lemma {:induction false} SelectLevelIsLastChecked(current: Level, checked: seq<bool>, values: seq<Option<int>>)
    requires |checked| == |values|
    ensures NoneCheckedAfter(checked, -1) ==> SelectLevel(current, checked, values) == current
    ensures forall j :: 0 <= j < |checked| && checked[j] && NoneCheckedAfter(checked, j)
                        ==> SelectLevel(current, checked, values) == Value(values[j])
  {
    if |checked| > 0 {
      var n := |checked| - 1;
      var front, frontValues := checked[..n], values[..n];
      SelectLevelIsLastChecked(current, front, frontValues);
      forall j | 0 <= j < |checked| && checked[j] && NoneCheckedAfter(checked, j)
        ensures SelectLevel(current, checked, values) == Value(values[j])
      {
        if j < n {
          assert !checked[n];
          assert front[j] && NoneCheckedAfter(front, j);
          assert frontValues[j] == values[j];
        }
      }
      if NoneCheckedAfter(checked, -1) {
        assert !checked[n];
        assert NoneCheckedAfter(front, -1);
      }
    }
  }

  /** `answer` lies in the range whenever the range has numbers in it (script.js:108). */
  predicate AnswerFits(level: Level, answer: int)
  {
    MaxRange(level) >= 1 ==> 1 <= answer <= MaxRange(level)
  }

  /** The fields of a `Game`, as one value, so a method can say what it changed and that nothing else did. */
  datatype GameState = GameState(
    level: Level, answer: int, score: int,
    roundSeconds: nat, timerRunning: bool, lastDuration: Option<nat>,
    scoreArr: seq<Entry>, gameTimes: seq<nat>, firstName: string,
    playDisabled: bool, guessDisabled: bool, giveUpDisabled: bool,
    validGuesses: nat)

  /**
   * The state a round ends in, win or give-up: the timer stopped at
   * `duration`, one entry pushed and sorted in, a non-zero duration added to
   * the round times, and the controls reset. `lastDuration` ends as the
   * stopped duration again, because `reset` stops the timer once more.
   */
  function Concluded(s: GameState): GameState
  {
    var duration := s.roundSeconds;
    var e := Entry(s.score, PlayerName(s.firstName), Some(duration));
    s.(roundSeconds := 0, timerRunning := false, lastDuration := Some(duration),
       scoreArr := SortByScore(s.scoreArr + [e]),
       gameTimes := if duration > 0 then s.gameTimes + [duration] else s.gameTimes,
       playDisabled := false, guessDisabled := true, giveUpDisabled := true)
  }

  /**
   * Ending a round adds exactly the round's entry to a sorted leaderboard,
   * keeps it sorted, and places the entry after every earlier entry of the
   * same score.
   */
  lemma ConcludedRecordsRound(s: GameState, k: int)
    requires Sorted(s.scoreArr)
    ensures var e := Entry(s.score, PlayerName(s.firstName), Some(s.roundSeconds));
      && Concluded(s).scoreArr == Insert(s.scoreArr, e)
      && multiset(Concluded(s).scoreArr) == multiset(s.scoreArr) + multiset{e}
      && Sorted(Concluded(s).scoreArr)
      && WithScore(Concluded(s).scoreArr, k) == WithScore(s.scoreArr, k) + WithScore([e], k)
  {
    var e := Entry(s.score, PlayerName(s.firstName), Some(s.roundSeconds));
    PushThenSort(s.scoreArr, e);
    InsertKeepsTies(s.scoreArr, e, k);
  }

  /** The first round ended is the only entry of the leaderboard. */
  lemma FirstRoundRecorded(s: GameState)
    requires s.scoreArr == []
    ensures Concluded(s).scoreArr == [Entry(s.score, PlayerName(s.firstName), Some(s.roundSeconds))]
  {
    var e := Entry(s.score, PlayerName(s.firstName), Some(s.roundSeconds));
    assert [] + [e] == [e] && [e][..0] == [];
  }

  datatype GuessResult =
    | Invalid
    | Missed(hint: Hint)
    | Won(tries: int, duration: nat, report: Report)

  datatype Surrender = Surrender(answer: int, score: int, duration: nat, report: Report)

  class Game {
    /** The values of the level radios, parsed. */
    const radioValues: seq<Option<int>>
    /** The `disabled` flags of the level radios. */
    const levelDisabled: array<bool>

    var level: Level
    var answer: int
    var score: int
    var roundSeconds: nat
    /** Whether a round-timer interval is scheduled (`roundTimerInterval` non-null). */
    var timerRunning: bool
    var lastDuration: Option<nat>
    var scoreArr: seq<Entry>
    var gameTimes: seq<nat>
    var firstName: string
    var playDisabled: bool
    /** The `disabled` flag of the guess button and of the guess input, always set together. */
    var guessDisabled: bool
    var giveUpDisabled: bool
    /** The valid guesses made since the last `Play`. */
    ghost var validGuesses: nat

    ghost function State(): GameState
      reads this
    {
      GameState(level, answer, score, roundSeconds, timerRunning, lastDuration,
                scoreArr, gameTimes, firstName, playDisabled, guessDisabled, giveUpDisabled,
                validGuesses)
    }

    ghost predicate RadiosLocked()
      reads this, levelDisabled
    {
      forall k :: 0 <= k < levelDisabled.Length ==> levelDisabled[k]
    }

    ghost predicate RadiosUnlocked()
      reads this, levelDisabled
    {
      forall k :: 0 <= k < levelDisabled.Length ==> !levelDisabled[k]
    }

    /** The part of `Valid` that does not depend on the timer. */
    ghost predicate Settled()
      reads this, levelDisabled
    {
      && levelDisabled.Length == |radioValues|
      && Sorted(scoreArr)
      && (forall t :: t in gameTimes ==> t > 0)
      && AnswerFits(level, answer)
    }

    /**
     * What holds between events: the leaderboard is sorted, only positive
     * durations are kept, the answer is in range, and while the timer runs
     * the score counts the round's valid guesses, guessing and giving up
     * are enabled and the level radios are locked.
     */
    ghost predicate Valid()
      reads this, levelDisabled
    {
      && Settled()
      && (timerRunning ==> score == validGuesses && !guessDisabled && !giveUpDisabled && RadiosLocked())
    }

    /**
     * The page as loaded: no level, an empty leaderboard, no name, Play
     * disabled (script.js:65-67); the level radios and the guess and give-up
     * controls as the page declares them.
     */
    constructor (radioValues: seq<Option<int>>, radioDisabled: seq<bool>, guessDisabled: bool, giveUpDisabled: bool)
      requires |radioDisabled| == |radioValues|
      ensures Valid() && fresh(levelDisabled)
      ensures this.radioValues == radioValues
      ensures levelDisabled[..] == radioDisabled
      ensures State() == GameState(Unset, 0, 0, 0, false, None, [], [], "", true,
                                   guessDisabled, giveUpDisabled, 0)
    {
      this.radioValues := radioValues;
      levelDisabled := new bool[|radioValues|](i requires 0 <= i < |radioValues| => radioDisabled[i]);
      level, answer, score := Unset, 0, 0;
      roundSeconds, timerRunning, lastDuration := 0, false, None;
      scoreArr, gameTimes, firstName := [], [], "";
      playDisabled := true;
      this.guessDisabled, this.giveUpDisabled := guessDisabled, giveUpDisabled;
      validGuesses := 0;
    }

    /**
     * The save-name handler (script.js:71-82). `trimmed` is the input's
     * trimmed value and `cased` the same with its first letter upper-cased
     * and the rest lower-cased. A name enables Play; no name clears the name
     * and disables Play, even during a round.
     */
    method SaveName(trimmed: string, cased: string)
      requires Valid()
      requires trimmed != "" ==> cased != ""
      modifies this
      ensures Valid()
      ensures trimmed != "" ==> State() == old(State()).(firstName := cased, playDisabled := false)
      ensures trimmed == "" ==> State() == old(State()).(firstName := "", playDisabled := true)
    {
      if trimmed != "" {
        firstName := cased;
        playDisabled := false;
      } else {
        firstName := "";
        playDisabled := true;
      }
    }

    /** `startRoundTimer` (script.js:32-40): the count restarts at 0 and one interval is scheduled. */
    method StartRoundTimer()
      modifies this
      ensures State() == old(State()).(roundSeconds := 0, timerRunning := true)
    {
      roundSeconds := 0;
      timerRunning := true;
    }

    /** One firing of the interval callback (script.js:36-39). */
    method Tick()
      requires Valid() && timerRunning
      modifies this
      ensures Valid()
      ensures State() == old(State()).(roundSeconds := old(roundSeconds) + 1)
    {
      roundSeconds := roundSeconds + 1;
    }

    /**
     * `stopRoundTimer` (script.js:42-50): cancels the interval if there is
     * one, and records and returns the count, also when no timer runs.
     */
    method StopRoundTimer() returns (duration: nat)
      modifies this
      ensures duration == old(roundSeconds)
      ensures State() == old(State()).(timerRunning := false, lastDuration := Some(duration))
    {
      timerRunning := false;
      lastDuration := Some(roundSeconds);
      duration := roundSeconds;
    }

    /** `resetRoundTimer` (script.js:52-56): stop, then set the count back to 0. */
    method ResetRoundTimer()
      modifies this
      ensures State() == old(State()).(roundSeconds := 0, timerRunning := false,
                                       lastDuration := Some(old(roundSeconds)))
    {
      var _ := StopRoundTimer();
      roundSeconds := 0;
    }

    /**
     * `play` (script.js:93-110). `checked` holds each radio's `checked`
     * flag; `r` stands for `Math.floor(Math.random() * level) + 1`, which is
     * in 1..level whenever the level is a positive number.
     */
    method Play(checked: seq<bool>, r: int)
      requires Valid()
      requires |checked| == |radioValues|
      requires AnswerFits(SelectLevel(level, checked, radioValues), r)
      modifies this, levelDisabled
      ensures Valid()
      ensures State() == old(State()).(level := SelectLevel(old(level), checked, radioValues),
                                       answer := r, score := 0, roundSeconds := 0, timerRunning := true,
                                       playDisabled := true, guessDisabled := false, giveUpDisabled := false,
                                       validGuesses := 0)
      ensures MaxRange(level) >= 1 ==> 1 <= answer <= MaxRange(level)
      ensures RadiosLocked()
    {
      OpenRound();
      LockLevels(checked);
      answer := r;
    }

    /** The first steps of `play` (script.js:94-100): score zeroed, controls switched, timer started. */
    method OpenRound()
      modifies this
      ensures State() == old(State()).(score := 0, roundSeconds := 0, timerRunning := true,
                                       playDisabled := true, guessDisabled := false, giveUpDisabled := false,
                                       validGuesses := 0)
    {
      score := 0;
      validGuesses := 0;
      playDisabled := true;
      guessDisabled := false;
      giveUpDisabled := false;
      StartRoundTimer();
    }

    /**
     * The radio loop of script.js:101-106: every radio is disabled, and the
     * level becomes the value of each checked one in turn.
     */
    method LockLevels(checked: seq<bool>)
      requires levelDisabled.Length == |radioValues| == |checked|
      modifies this, levelDisabled
      ensures State() == old(State()).(level := SelectLevel(old(level), checked, radioValues))
      ensures RadiosLocked()
    {
      var i := 0;
      while i < levelDisabled.Length
        invariant 0 <= i <= levelDisabled.Length
        invariant level == SelectLevel(old(level), checked[..i], radioValues[..i])
        invariant State() == old(State()).(level := level)
        invariant forall k :: 0 <= k < i ==> levelDisabled[k]
      {
        assert checked[..i + 1][..i] == checked[..i];
        assert radioValues[..i + 1][..i] == radioValues[..i];
        if checked[i] {
          level := Value(radioValues[i]);
        }
        levelDisabled[i] := true;
        i := i + 1;
      }
      assert checked[..i] == checked && radioValues[..i] == radioValues;
    }

    /**
     * `reset` (script.js:144-156): guessing and giving up disabled, Play and
     * the level radios enabled, the timer stopped and zeroed. Score, answer
     * and level are left as they are.
     */
    method Reset()
      requires Valid()
      modifies this, levelDisabled
      ensures Valid()
      ensures State() == old(State()).(roundSeconds := 0, timerRunning := false,
                                       lastDuration := Some(old(roundSeconds)),
                                       playDisabled := false, guessDisabled := true, giveUpDisabled := true)
      ensures RadiosUnlocked()
    {
      guessDisabled := true;
      playDisabled := false;
      giveUpDisabled := true;
      ResetRoundTimer();
      ghost var stopped := State();
      for i := 0 to levelDisabled.Length
        invariant State() == stopped
        invariant forall k :: 0 <= k < i ==> !levelDisabled[k]
      {
        levelDisabled[i] := false;
      }
    }

    /** Pushes `e` onto the leaderboard and sorts it by score (script.js:175-178). */
    method PushEntry(e: Entry)
      requires Valid()
      modifies this
      ensures Valid()
      ensures State() == old(State()).(scoreArr := SortByScore(old(scoreArr) + [e]))
      ensures scoreArr == Insert(old(scoreArr), e)
    {
      PushThenSort(scoreArr, e);
      InsertSorted(scoreArr, e);
      scoreArr := SortByScore(scoreArr + [e]);
    }

    /** Adds a positive round time to the recorded times and clears `lastDuration` (script.js:210-211, 219). */
    method PushTime(d: nat)
      requires Valid() && d > 0
      modifies this
      ensures Valid()
      ensures State() == old(State()).(gameTimes := old(gameTimes) + [d], lastDuration := None)
    {
      gameTimes := gameTimes + [d];
      lastDuration := None;
    }

    /**
     * `updateScore` (script.js:171-221): pushes this round's entry, sorts
     * the leaderboard by score, and reports the win count, the score total
     * and average, the verdict on the highest-scoring entry, and, when the
     * entry has a non-zero duration, the fastest and average round times.
     */
    method UpdateScore() returns (report: Report)
      requires Valid()
      modifies this
      ensures Valid()
      ensures var e := Entry(old(score), PlayerName(old(firstName)), old(lastDuration));
        var recorded := e.duration.Some? && e.duration.value > 0;
        && State() == old(State()).(
             scoreArr := SortByScore(old(scoreArr) + [e]),
             gameTimes := if recorded then old(gameTimes) + [e.duration.value] else old(gameTimes),
             lastDuration := if recorded then None else old(lastDuration))
        && scoreArr == Insert(old(scoreArr), e)
        && report == Summary(scoreArr, LevelNumber(level), if recorded then Some(RoundTimes(gameTimes)) else None)
    {
      var entry := Entry(score, PlayerName(firstName), lastDuration);
      PushEntry(entry);
      var sum := SumScores(scoreArr);
      var wins := |scoreArr|;
      var recent := scoreArr[wins - 1];
      var verdict := VerdictOf(recent.score, VerdictDenominator(LevelNumber(level), recent.score));
      report := Report(wins, sum, AverageScore(sum, wins), recent, verdict, None);
      assert report == Summary(scoreArr, LevelNumber(level), None);
      if entry.duration.Some? && entry.duration.value != 0 {
        PushTime(entry.duration.value);
        report := report.(times := Some(RoundTimes(gameTimes)));
      }
    }

    /**
     * The end of a round, shared by a correct guess (script.js:123-126) and
     * giving up (script.js:164-169): the timer stops, the round is recorded
     * with the current score, and the controls are reset.
     */
    method ConcludeRound() returns (duration: nat, report: Report)
      requires Settled()
      modifies this, levelDisabled
      ensures Valid() && RadiosUnlocked()
      ensures duration == old(roundSeconds)
      ensures State() == Concluded(old(State()))
      ensures report == Summary(scoreArr, LevelNumber(level), if duration > 0 then Some(RoundTimes(gameTimes)) else None)
    {
      duration := StopRoundTimer();
      report := UpdateScore();
      Reset();
    }

    /** A valid guess adds one to the score (script.js:118). */
    method CountGuess()
      requires Valid()
      modifies this
      ensures Valid()
      ensures State() == old(State()).(score := old(score) + 1, validGuesses := old(validGuesses) + 1)
    {
      score := score + 1;
      validGuesses := validGuesses + 1;
    }

    /**
     * `makeGuess` (script.js:111-143). An invalid guess changes nothing. A
     * valid one adds one to the score; if it is the answer the round ends
     * with the score as its tries, and otherwise the hint for the guess is
     * given.
     */
    method MakeGuess(guess: Option<int>) returns (result: GuessResult)
      requires Valid()
      modifies this, levelDisabled
      ensures Valid()
      ensures !IsValidGuess(guess, MaxRange(old(level))) ==>
        result == Invalid && State() == old(State()) && unchanged(levelDisabled)
      ensures IsValidGuess(guess, MaxRange(old(level))) && guess.value != old(answer) ==>
        && result == Missed(HintFor(guess.value, old(answer), MaxRange(old(level)) as nat))
        && State() == old(State()).(score := old(score) + 1, validGuesses := old(validGuesses) + 1)
        && unchanged(levelDisabled)
      ensures IsValidGuess(guess, MaxRange(old(level))) && guess.value == old(answer) ==>
        && result.Won? && result.tries == old(score) + 1 && result.duration == old(roundSeconds)
        && State() == Concluded(old(State()).(score := old(score) + 1, validGuesses := old(validGuesses) + 1))
        && (old(timerRunning) ==> result.tries == validGuesses)
        && result.report == Summary(scoreArr, LevelNumber(level),
                                    if result.duration > 0 then Some(RoundTimes(gameTimes)) else None)
        && RadiosUnlocked()
    {
      var maxRange := MaxRange(level);
      if guess.None? || guess.value < 1 || guess.value > maxRange {
        return Invalid;
      }
      CountGuess();
      if guess.value == answer {
        var duration, report := ConcludeRound();
        return Won(score, duration, report);
      }
      var hint := HintFor(guess.value, answer, maxRange);
      result := Missed(hint);
    }

    /**
     * `handleGiveUp` (script.js:158-170). Nothing happens before the first
     * round has set a level; after that, in a round or not, the score becomes
     * the parsed level (0 if it does not parse) and the round ends.
     */
    method HandleGiveUp() returns (result: Option<Surrender>)
      requires Valid()
      modifies this, levelDisabled
      ensures Valid()
      ensures old(level).Unset? ==> result == None && State() == old(State()) && unchanged(levelDisabled)
      ensures old(level).Value? ==>
        && result.Some?
        && result.value.answer == old(answer)
        && result.value.score == MaxRange(old(level))
        && result.value.duration == old(roundSeconds)
        && State() == Concluded(old(State()).(score := MaxRange(old(level))))
        && result.value.report == Summary(scoreArr, LevelNumber(level),
                                          if result.value.duration > 0 then Some(RoundTimes(gameTimes)) else None)
        && RadiosUnlocked()
    {
      if level.Unset? {
        return None;
      }
      score := MaxRange(level);
      var duration, report := ConcludeRound();
      return Some(Surrender(answer, score, duration, report));
    }
  }

  /**
   * A round on level 100 of a page with levels 10 and 100, answer 62: the
   * guesses 50 and 75 are told Too low and Too high, both Cool, and count;
   * 101 is out of range and changes nothing.
   */
  method ExampleHints()
  {
    var game := new Game([Some(10), Some(100)], [false, false], true, true);
    game.SaveName("ada", "Ada");
    assert [false, true][..1] == [false];
    game.Play([false, true], 62);
    HundredExample();
    var first := game.MakeGuess(Some(50));
    assert first == Missed(Hint(TooLow, Cool));
    var second := game.MakeGuess(Some(75));
    assert second == Missed(Hint(TooHigh, Cool));
    var outOfRange := game.MakeGuess(Some(101));
    assert outOfRange == Invalid && game.score == 2;
  }

  /**
   * Ada finds 62 on level 100 with her first guess, two seconds in: one
   * entry of one try and two seconds, and one recorded round time.
   */
  method ExampleWin()
  {
    var game := new Game([Some(10), Some(100)], [false, false], true, true);
    game.SaveName("ada", "Ada");
    assert [false, true][..1] == [false];
    game.Play([false, true], 62);
    game.Tick();
    game.Tick();
    ghost var before := game.State();
    var found := game.MakeGuess(Some(62));
    FirstRoundRecorded(before.(score := 1, validGuesses := 1));
    assert found.Won? && found.tries == 1 && found.duration == 2;
    assert game.scoreArr == [Entry(1, "Ada", Some(2))] && game.gameTimes == [2];
  }

  /**
   * Giving up at once on level 10, with no name saved: the entry scores the
   * level, is recorded as Anonymous without a time, and is judged Awful.
   */
  method ExampleGiveUp()
  {
    var game := new Game([Some(10), Some(100)], [false, false], true, true);
    assert [true, false][..1] == [true];
    game.Play([true, false], 4);
    ghost var before := game.State();
    var gaveUp := game.HandleGiveUp();
    FirstRoundRecorded(before.(score := 10));
    assert gaveUp.Some? && gaveUp.value.score == 10 && gaveUp.value.duration == 0;
    assert game.scoreArr == [Entry(10, "Anonymous", Some(0))] && game.gameTimes == [];
    VerdictBoundaries();
    assert gaveUp.value.report.verdict == Awful;
  }
}
