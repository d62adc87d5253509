# Number-guessing game controller, modelled in Dafny

The model covers the controller of a browser number-guessing game (`script.js`).

**Playing a round.**
- A player saves a name, which unlocks the Play button.
- Play picks a level from the checked radio button, which sets the range 1..level.
- Play draws a secret answer, locks the level radios and starts a per-round timer.
- Every valid guess costs one point.
- A wrong guess is answered with a direction ("Too low"/"Too high") and a warmth: Hot, Warm, Cool or Cold. The warmth thresholds scale with the range.
- A correct guess, or giving up, ends the round.

**Ending a round.**
- Giving up scores the full range.
- The timer stops and an entry `{score, name, duration}` is pushed onto a leaderboard.
- The leaderboard is sorted ascending by score.
- The controller reports:
  - the win count;
  - the average score;
  - a verdict of Good, Okay, Bad or Awful on the score-to-range ratio;
  - when the round took a non-zero number of seconds, the fastest and the average round time.
- The controls are then reset.

**Pure helpers.** The clock string `mm:ss` and the ordinal suffix of the day of the month are modelled as pure functions.

**Modules.** There is one file per concern:
- `wrappers.dfy`: `Option`, which stands for JavaScript's `null`, `undefined` and `NaN`.
- `jsmath.dfy`: `Math.round` and `Math.max` over exact reals.
- `clock.dfy`: `formatTime` over decimal digit strings.
- `feedback.dfy`: the thresholds, the warmth and the direction.
- `leaderboard.dfy`: the entries, the stable sort, the totals, the verdict and the time statistics.
- `calendar.dfy`: the ordinal suffix.
- `game.dfy`: the `Game` class.

**The Game class.**
- Its fields are the game's module-level variables and the `disabled` flags of its controls.
- The level radios are an `array<bool>` of flags.
- Its methods are the event handlers and timer functions.
- Each method states its whole new state through a ghost `State()` snapshot.
- `Valid()` is the invariant that holds between events:
  - the leaderboard is sorted;
  - only positive durations are kept;
  - the answer lies in the range;
  - while the timer runs, the score equals the number of valid guesses this round, guessing is enabled and the radios are locked.
- These methods require and preserve `Valid()`: `SaveName`, `Tick`, `Play`, `Reset`, `PushEntry`, `PushTime`, `UpdateScore`, `CountGuess`, `MakeGuess` and `HandleGiveUp`. The constructor establishes it.
- `ConcludeRound` needs only `Settled()`, which is `Valid()` without the timer clause, and ends in `Valid()`. Giving up sets the score before the timer stops, so the timer clause does not hold at that point.
- The timer helpers (`StartRoundTimer`, `StopRoundTimer`, `ResetRoundTimer`) and the two steps of `Play` (`OpenRound`, `LockLevels`) carry no `Valid()` contract. They only state their new state; their callers re-establish `Valid()`.

**Behaviour kept as the code has it.**
- `reset` leaves score, answer and level alone.
- Giving up works whenever a level was ever chosen, not only during a round.
- The verdict judges the last entry after sorting. That is a highest score, not necessarily the round just played.
- A zero duration counts as "no time": it is not added to the time statistics.
- `reset` stops the timer again. That sets `lastDuration` back to the round's duration after `updateScore` had cleared it. Every later `updateScore` comes after a fresh stop, so this has no further effect.
- Saving a name during a round re-enables Play.

**Arithmetic.** Floating-point arithmetic is replaced by exact arithmetic:
- `Math.round(L*p/100)` is `(p*L + 50) / 100`.
- The mean time is `(2*sum + n) / (2*n)`.
- The verdict compares the exact rational `score / denominator` with 0.2, 0.4 and 0.7. It is also given as integer cross-multiplications.

## Model

| member | source | states |
|---|---|---|
| Clock.Decimal | script.js:27-28 | `String(n)` of a non-negative integer is a non-empty digit string, one digit below 10 and at most two below 100, starting with '0' only for 0 |
| Clock.DecimalRoundTrip | script.js:27-28 | reading the digits back gives the number again |
| Clock.PadStart | script.js:27-28 | `padStart` keeps the string as the tail, fills the front with the fill character, and reaches the width |
| Clock.ZeroPaddingKeepsValue | script.js:27-28 | padding with zeros does not change the value of a digit string |
| Clock.Field | script.js:27-28 | a clock field has at least two digits, reads back as its number, has exactly two below 100, and has no leading zero from 10 up |
| Clock.FormatTime | script.js:26-30 | the clock string; its shape is stated by `Clock.FormatTimeFields` and its injectivity by `Clock.FormatTimeInjective` |
| Clock.FormatTimeFields | script.js:26-30 | `formatTime(s)` is a minutes field worth `s/60`, a colon, and a two-digit seconds field worth `s%60`; seconds are at most 59 and `60*mm + ss == s` |
| Clock.FormatTimeInjective | script.js:26-30 | two durations with the same clock string are equal, so the string loses nothing |
| JsMath.Round | script.js:132-134 | `Math.round` over exact reals; `JsMath.RoundIsNearest` states it is the nearest integer, halves rounding up |
| JsMath.Max | script.js:132-134 | the maximum is at least both arguments and is one of them |
| JsMath.RoundIsNearest | script.js:132-134 | `Math.round` lies within half a unit of its argument, halves rounding up |
| JsMath.FloorOfQuotient | script.js:215 | integer division is the floor of the exact quotient |
| Feedback.Abs | script.js:131 | the distance is non-negative and is `x` or `-x` |
| Feedback.ScaledRound | script.js:132-134 | `(p*L + 50) / 100` is `Math.round` of `L*p/100` |
| Feedback.ScaledRoundMonotone | script.js:132-134 | a larger percentage never rounds to less |
| Feedback.ThresholdsFor | script.js:132-134 | each threshold is `Math.max(floor, Math.round(L*percent))`, with `2 <= hot <= warm <= cool`, `warm >= 5` and `cool >= 10` |
| Feedback.WarmthOf | script.js:135-139 | the warmth of a distance; `Feedback.HintFor` states each warmth iff its band of distances |
| Feedback.HintFor | script.js:131-141 | "Too low" iff guess < answer; Hot iff diff <= hot, Warm iff hot < diff <= warm, Cool iff warm < diff <= cool, Cold iff diff > cool |
| Feedback.CloserIsNeverColder | script.js:131-139 | a guess nearer the answer never gets a colder warmth |
| Feedback.WarmthFloors | script.js:132-139 | within 2 is always Hot, within 5 at least Warm, within 10 at least Cool; Cold means more than a fifth of the range away |
| Feedback.HundredExample | script.js:131-141 | on 1-100 the thresholds are 5/10/20, and for answer 62 the guesses 50 and 75 are Too low/Cool and Too high/Cool |
| Calendar.OrdinalSuffix | script.js:228-229 | the suffix of a day; `Calendar.SuffixOfMonthDays` and `Calendar.SuffixPeriodic` state which days get which suffix |
| Calendar.SuffixPeriodic | script.js:228-229 | the suffix depends only on the day modulo 100 |
| Calendar.SuffixOfMonthDays | script.js:228-229 | for days 1-31: "st" exactly on 1, 21 and 31; "nd" on 2 and 22; "rd" on 3 and 23; "th" on every other day |
| Leaderboard.PlayerName | script.js:173 | the recorded name is never empty; it is the saved name whenever one was saved, and "Anonymous" otherwise |
| Leaderboard.Insert | script.js:176-178 | inserting adds exactly the new entry (multiset) |
| Leaderboard.InsertSorted | script.js:176-178 | inserting into a sorted leaderboard keeps it sorted |
| Leaderboard.SortByScore | script.js:178 | the result is sorted ascending by score and is a permutation of the input |
| Leaderboard.InsertKeepsTies | script.js:176-178 | the new entry goes after every entry of the same score |
| Leaderboard.SortIsStable | script.js:178 | entries of equal score keep their relative order (the sort is stable) |
| Leaderboard.SortKeepsSorted | script.js:178 | sorting a sorted leaderboard changes nothing |
| Leaderboard.PushThenSort | script.js:176-178 | push-then-sort on a sorted leaderboard is insertion of the entry |
| Leaderboard.LastIsHighest | script.js:195 | the last entry of a sorted leaderboard has the highest score |
| Leaderboard.TotalScoreInsert | script.js:181-183 | inserting an entry adds its score to the total |
| Leaderboard.TotalScoreOfSort | script.js:178-183 | sorting leaves the score total unchanged |
| Leaderboard.SumScores | script.js:181-183 | the accumulator loop computes the total of the scores |
| Leaderboard.AverageScore | script.js:190 | the average times the count is the total |
| Leaderboard.VerdictDenominator | script.js:197 | the denominator is never zero; it is the parsed level when that is non-zero, else the score when that is non-zero |
| Leaderboard.VerdictOf | script.js:198-203 | the verdict band of `score / denominator` over exact rationals; `Leaderboard.VerdictBands` states each band in integers |
| Leaderboard.VerdictBands | script.js:198-203 | Good iff `5*score <= d`, Okay iff `d < 5*score <= 2*d`, Bad iff `2*d < 5*score` and `10*score <= 7*d`, Awful iff `10*score > 7*d` |
| Leaderboard.VerdictMonotone | script.js:198-203 | more tries against the same range never give a better verdict |
| Leaderboard.VerdictBoundaries | script.js:200-203 | the ratios 0.2, 0.4 and 0.7 fall in the better band; a full-range score is Awful |
| Leaderboard.MinTime | script.js:213 | the fastest time is one of the times and is at most every time |
| Leaderboard.RoundedMean | script.js:215 | `(2*sum + n) / (2*n)` is `Math.round(sum/n)` |
| Leaderboard.TotalTime | script.js:214 | the sum of the recorded times; `Leaderboard.RoundTimes` uses it as the sum whose rounded mean is the average time |
| Leaderboard.RoundTimes | script.js:213-215 | the fastest is the minimum of the times; the average is the rounded mean |
| Leaderboard.Summary | script.js:180-203 | wins are the leaderboard length; the sum is the total and the average times wins is the sum; the verdict is on the last entry, which has the highest score |
| Game.MaxRange | script.js:113 | `parseInt(level, 10) \|\| 0`; `Game.NoGuessWithoutRange` states that a range below 1 admits no guess |
| Game.IsValidGuess | script.js:114 | the validity test of a guess; `Game.Game.MakeGuess` states that an invalid guess changes nothing |
| Game.SelectLevel | script.js:101-106 | the level the radio loop leaves; `Game.SelectLevelIsLastChecked` states it is the last checked radio's value, or the old level when none is checked |
| Game.Concluded | script.js:123-126 | the state after a round ends; `Game.ConcludedRecordsRound` states it inserts exactly the round's entry, sorted and after its ties |
| Game.NoGuessWithoutRange | script.js:113-114 | with an unparseable or non-positive level no guess is valid |
| Game.SelectLevelIsLastChecked | script.js:101-106 | the level becomes the value of the last checked radio, and stays as it was when none is checked |
| Game.ConcludedRecordsRound | script.js:123-126 | ending a round inserts exactly the round's entry, keeps the leaderboard sorted, and puts the entry after earlier equal scores |
| Game.FirstRoundRecorded | script.js:176-178 | the first round ended leaves a leaderboard holding exactly its entry |
| Game.Game.constructor | script.js:62-67 | the initial state: no level, empty leaderboard and times, no name, Play disabled; the radios, guess and give-up controls as the page declares them |
| Game.Game.SaveName | script.js:71-82 | a non-empty name is stored and enables Play; an empty one clears the name and disables Play; nothing else changes |
| Game.Game.StartRoundTimer | script.js:32-40 | the count is zero and the timer runs; nothing else changes |
| Game.Game.Tick | script.js:36-39 | a running timer's count goes up by one; nothing else changes |
| Game.Game.StopRoundTimer | script.js:42-50 | returns the count, stores it as the last duration, and leaves no timer running, also when none ran |
| Game.Game.ResetRoundTimer | script.js:52-56 | the timer is stopped and the count is zero |
| Game.Game.Play | script.js:93-110 | score and count zero, timer running, level from the last checked radio, every radio disabled, Play disabled, guess and give-up enabled, answer in 1..level; `Valid()` is kept |
| Game.Game.OpenRound | script.js:94-100 | the first steps of `play`: score zero, controls switched, timer started |
| Game.Game.LockLevels | script.js:101-106 | every radio is disabled and the level is the value of the last checked radio; nothing else changes |
| Game.Game.Reset | script.js:144-156 | guess and give-up disabled, Play and every radio enabled, timer stopped with count zero; score, answer and level unchanged |
| Game.Game.PushEntry | script.js:176-178 | the leaderboard becomes the sorted leaderboard with the entry inserted; nothing else changes |
| Game.Game.PushTime | script.js:210-211 | a positive duration is appended to the times and the last duration cleared |
| Game.Game.UpdateScore | script.js:171-221 | exactly one entry (score, player name, last duration) is added and the leaderboard is sorted; a non-zero duration is added to the times; the report is the summary of the new leaderboard |
| Game.Game.ConcludeRound | script.js:123-126 | the timer stops at the round's duration, the round is recorded, and the controls are reset |
| Game.Game.CountGuess | script.js:118 | the score goes up by exactly one |
| Game.Game.MakeGuess | script.js:111-143 | an invalid guess changes nothing; a wrong valid guess adds one to the score and gets the hint; a correct one ends the round with tries equal to the round's valid guesses |
| Game.Game.HandleGiveUp | script.js:158-170 | nothing happens without a level; otherwise the score becomes the parsed level (0 if it does not parse) and the round ends with that score |

## Left out

- Display and DOM wiring are not modelled: element lookups, `textContent` messages, event listeners, and writing leaderboard rows into the page. Only the state and the `disabled` flags are modelled.
- The existence guards on optional elements are left out: every element is assumed present.
- `setInterval`/`clearInterval` are not modelled as scheduling. A running interval is a boolean, and each firing is an explicit `Tick` call.
- `Math.random` is a foreign call. `Play` takes the answer `r` as a parameter, required to lie in 1..level when the level is a positive number.
- `parseInt` string parsing is not modelled. The guess and the radio values arrive already parsed, as `Option<int>`, with `None` for `NaN`.
- Game.Game.Play: the answer draw converts the radio string with `Number`, while the range uses `parseInt`. The model assumes radio values are plain integers, for which the two agree.
- Game.Game.SaveName: `trim` and the locale-sensitive upper/lower-casing are not modelled. The trimmed input and its cased form are parameters; a non-empty input gives a non-empty name.
- Clearing the guess input's text and placeholder in `reset` is not modelled, because it is display.
- `toFixed(2)` formatting of the average is left out. The average is kept as an exact rational.
- Floating-point rounding is not modelled. `Math.round` and the percentage comparisons are taken over exact reals and integers. For the ranges a page offers they agree with the floating-point results.
- Only the ordinal suffix of `updateTime` (the date and time line) is modelled. `Date`, `toLocaleDateString` and `toLocaleTimeString` are locale-dependent library calls.
- Parsing a clock string back into seconds is not modelled, because the game never does it. `Clock.FormatTimeInjective` states instead that the string determines the duration.
- The initial `undefined` of `answer` and `score` is modelled as 0. No guess can be valid and no give-up takes effect before `play` has set a level, so the difference is never observed.
