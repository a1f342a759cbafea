# Reaction dot: the game's round and scoring state machine

This project models the logic of the browser game in `reaction-dot.js`. A dot
appears after a random delay, and the player taps it as fast as possible.
Each tap records a reaction time and completes a round. A tap faster than the
perfect threshold of the chosen difficulty extends the streak. A tap faster
than 0.8 times that threshold is also a perfect. When the last round has been
played the game ends: it computes the mean reaction time and an IQ score,
saves the game to a five-entry leaderboard sorted by mean, and updates the
statistics kept across games (games played, best mean, best IQ).

The project is split into modules that follow the program's parts:

- `Difficulty` holds the fixed difficulty table.
- `Scoring` holds the mean of line 224 and the rounding, perfect bonus and
  clamp of `calculateIQ`.
- `Rounds` states the tap rule, the start-of-game reset and the end-of-round
  decision as functions on the per-game counters, with lemmas about runs of
  taps.
- `Countdown` models the "Get Ready" counter of `startGame`.
- `Leaderboard` models `saveToLeaderboard`: push, stable sort by mean, keep
  five.
- `BestStats` models the statistics update at the end of a game.
- `ReactionDot` holds the class `Game`. Its fields are the module-level
  variables of the script, and its methods are the event handlers. Each
  method is proved against the functions of the modules above, and keeps the
  object invariant `Valid`. The module also holds a client method that
  runs the countdown of a fresh game.

The clock reading (`performance.now()`), `Math.random()`, the square-root
part of `calculateIQ`, the result of `calculateConsistencyScore`, the ISO date
string and the answer to `confirm` are parameters. Local storage is
represented by the `leaderboard` field and the three statistics fields.

## Model

| member | source | states |
|---|---|---|
| Difficulty.Settings | reaction-dot.js:38-71 | Every row of the difficulty table has at least one round, a positive delay interval with minDelay < maxDelay, and a positive perfect threshold. |
| Difficulty.Name | reaction-dot.js:276 | Definition: the selector value stored with each leaderboard entry, "easy", "medium", "hard" or "expert". |
| Difficulty.PerfectThreshold | reaction-dot.js:135-136 | The threshold a tap is judged against is a positive number of milliseconds. |
| Scoring.Sum | reaction-dot.js:224 | Definition: the left-to-right total of `reduce((a, b) => a + b, 0)`. Its properties are the lemmas below. |
| Scoring.Average | reaction-dot.js:224 | A game without taps has mean 0. |
| Scoring.SumAppend | reaction-dot.js:224 | The total of two runs of reactions put together is the sum of their totals. |
| Scoring.SumBounds | reaction-dot.js:224 | n reactions between lo and hi total between n·lo and n·hi. |
| Scoring.AverageWithin | reaction-dot.js:224 | The mean of a non-empty game lies between any lower and upper bound of its reactions. |
| Scoring.SumOrderInsensitive | reaction-dot.js:224 | Two games with the same reactions in any order have the same total. |
| Scoring.AverageOrderInsensitive | reaction-dot.js:224 | Two games with the same reactions in any order have the same mean. |
| Scoring.Round | reaction-dot.js:83 | Math.round returns the integer within half a unit of its argument, with halves rounded up. |
| Scoring.ClampIQ | reaction-dot.js:84 | The clamp lands in [70, 160]. It is the identity inside that range, 70 below it and 160 above it. |
| Scoring.CalculateIQ | reaction-dot.js:73-85 | The score is always in [70, 160], and a game without taps scores 70. |
| Scoring.RoundShift | reaction-dot.js:81-83 | Adding a whole number before rounding adds the same number after rounding. |
| Scoring.PerfectWorthTwo | reaction-dot.js:81-84 | Away from the clamp, one more perfect adds exactly 2 points. |
| Scoring.IQNonDecreasingInPerfects | reaction-dot.js:81-84 | More perfects never lower the score. |
| Scoring.IQNonDecreasingInBase | reaction-dot.js:83-84 | A higher pre-bonus score never lowers the final score. |
| Rounds.Consistent | reaction-dot.js:18-32 | Definition of the counter invariant: \|times\| == round, consecutivePerfects <= streak <= round, streak <= bestStreak and consecutivePerfects <= totalPerfects. Rounds.Tap, Rounds.Reset and Rounds.PlayConsistent prove that it is kept. |
| Rounds.Hit | reaction-dot.js:136 | Definition: a tap extends the streak when its reaction is strictly below the threshold. |
| Rounds.Perfect | reaction-dot.js:143 | Definition: a perfect is a hit whose reaction is also strictly below 0.8 times the threshold. |
| Rounds.Tap | reaction-dot.js:126-155 | A tap appends its reaction and counts a round. A hit adds 1 to the streak and sets the best streak to the larger of the old best and the new streak. A perfect also adds 1 to consecutivePerfects and to totalPerfects. A miss zeroes streak and consecutivePerfects and keeps the best streak. Without a perfect, totalPerfects is unchanged. Consistency is preserved. |
| Rounds.Reset | reaction-dot.js:182-187 | Starting a game zeroes round, times, streak and consecutivePerfects and clears running. The best streak and the perfect total carry over. The result is consistent. |
| Rounds.PlayRecords | reaction-dot.js:126-132 | A run of taps appends exactly those reactions to times, in order, and adds one round per tap. |
| Rounds.PlayConsistent | reaction-dot.js:126-155 | Any run of taps keeps \|times\| == round and consecutivePerfects <= streak <= bestStreak, with consecutivePerfects <= totalPerfects. |
| Rounds.PlayTotalPerfects | reaction-dot.js:143-145 | The perfect total grows by exactly the number of perfect taps, so it never decreases. |
| Rounds.PlayStreak | reaction-dot.js:136-137 | The streak equals the hits since the last miss. With no miss, it continues the streak from before the run. |
| Rounds.PlayBestStreak | reaction-dot.js:138 | The best streak never decreases. It is at least every streak reached during the run, and it equals the old best or one of those streaks. |
| Rounds.ThreeFastTaps | reaction-dot.js:136-145 | Three 200 ms taps against the easy threshold give streak 3 and three more perfects. The best streak becomes the larger of the old best and 3. |
| Rounds.PerfectThenMiss | reaction-dot.js:136-152 | A perfect followed by a miss leaves streak 0 and consecutivePerfects 0 and keeps the perfect counted in the total. |
| Rounds.RoundDelay | reaction-dot.js:121 | For r in [0, 1) and minDelay < maxDelay, the delay lies in [minDelay, maxDelay). Equal bounds give exactly that bound. |
| Rounds.NextStep | reaction-dot.js:116-122 | The game ends if and only if round >= roundsTotal. Otherwise the next dot's delay lies in [minDelay, maxDelay). |
| Rounds.EndsAtLastRound | reaction-dot.js:116-118 | A fresh game of n rounds ends after the n-th tap and after no earlier tap. |
| Countdown.Shown | reaction-dot.js:205 | Definition: the label of one tick, the counter while it is positive and "Go!" otherwise. Its properties are stated through Countdown.Labels. |
| Countdown.Finishes | reaction-dot.js:206-207 | Definition: the tick that finds the counter at c starts play exactly when c - 1 < -1. |
| Countdown.Labels | reaction-dot.js:202-212 | From a counter at c, play starts on tick c + 2. Tick i shows the label of c - i, and the last tick shows "Go!". |
| Countdown.FromStart | reaction-dot.js:202-212 | The countdown shows 3, 2, 1, "Go!", "Go!", and play starts on the fifth tick. |
| Leaderboard.Insert | reaction-dot.js:278 | Inserting adds exactly one entry. |
| Leaderboard.InsertPermutes | reaction-dot.js:278 | Inserting adds the new entry and loses or duplicates no other one. |
| Leaderboard.InsertSorted | reaction-dot.js:278 | Inserting into a list sorted by mean keeps it sorted. |
| Leaderboard.SortByAvg | reaction-dot.js:278 | Sorting keeps the length. |
| Leaderboard.SortByAvgPermutes | reaction-dot.js:278 | The sort returns a permutation of its input. |
| Leaderboard.SortByAvgSorted | reaction-dot.js:278 | The sort returns its input in ascending order of mean. |
| Leaderboard.InsertLast | reaction-dot.js:278 | An entry no better than every entry of the list goes last, after the equal ones (the sort is stable). |
| Leaderboard.Position | reaction-dot.js:278 | Every entry before the position has a mean at most e's, and the entry at the position, if any, has a larger mean. |
| Leaderboard.InsertAt | reaction-dot.js:278 | Inserting puts e at its position, with the entries before and after it in their old order. |
| Leaderboard.InsertSplit | reaction-dot.js:278 | On a sorted list, e goes after every entry whose mean is at most e's, the equal ones included, as a stable sort does. It goes before every entry with a larger mean, and the others keep their order. |
| Leaderboard.SortSorted | reaction-dot.js:278 | Sorting a sorted list changes nothing. |
| Leaderboard.Save | reaction-dot.js:268-281 | After saving, the board has min(old length + 1, 5) entries, sorted ascending by mean. |
| Leaderboard.SaveKeepsBest | reaction-dot.js:278-279 | The kept entries come from the old board plus the new entry. No entry that was cut has a lower mean than an entry that was kept. |
| Leaderboard.SaveSorted | reaction-dot.js:268-281 | On a sorted board, saving is a stable insertion followed by the cut to five entries. |
| Leaderboard.FullBoardUnchangedIff | reaction-dot.js:268-281 | A full, sorted board is left exactly as it was if and only if the new mean is no better than the worst mean on it. |
| Leaderboard.SaveAll | reaction-dot.js:268-281 | No games leave the board as it was. After one or more games the board is sorted and holds min(old length + games, 5) entries. |
| Leaderboard.SixGamesKeepFive | reaction-dot.js:279 | Six games from an empty board leave exactly five entries, sorted. |
| BestStats.Record | reaction-dot.js:251-262 | The game count goes up by 1. The best mean becomes the new mean or stays, and is at most both the new mean and the old best. The best IQ becomes the new IQ or stays, and is at least both. A result that is not strictly better leaves the matching best unchanged. |
| BestStats.RecordAgainKeepsBests | reaction-dot.js:254-262 | Recording the same result a second time changes neither best. |
| BestStats.RecordAllFromCleared | reaction-dot.js:251-262 | From cleared statistics, a run of games leaves the number of games, the smallest of their means and the largest of their IQ scores. |
| ReactionDot.FinalEntry | reaction-dot.js:224-225 | Definition: the entry endGame saves, made of the mean, the IQ score, the consistency score, the perfect total, the date and the selected difficulty's name (lines 270-277). |
| ReactionDot.Game.constructor | reaction-dot.js:18-35 | The initial state. The round counters are zero and no countdown is running. The rounds, dot size and delay bounds are easy's (lines 27-30). The selector's level, which decides the tap threshold (line 135), is the given one, so it can be any level. The statistics and board come from storage (lines 332-333), and the invariant holds. |
| ReactionDot.Game.Valid | reaction-dot.js:18-35 | Definition of the object invariant: Rounds.Consistent of the counters, at least one round, minDelay < maxDelay, and while the countdown is on, no round counted, no tap admitted and a counter between -1 and 3. Every method except the constructor requires it and keeps it. |
| ReactionDot.Game.SelectDifficulty | reaction-dot.js:170-180 | The chosen row's rounds, size and delay bounds take effect. Nothing checks whether a game is on, and the invariant is kept. |
| ReactionDot.Game.StartGame | reaction-dot.js:182-204 | The counters become Rounds.Reset of the old ones, so the best streak and the perfect total carry over. The countdown counter is set to 3. |
| ReactionDot.Game.CountdownTick | reaction-dot.js:204-213 | A tick shows the label of the counter and decrements it. The tick that takes the counter below -1 stops the countdown, admits taps and schedules the first dot through Rounds.NextStep. For r in [0, 1) that delay lies in [minDelay, maxDelay). |
| ReactionDot.Game.ShowDot | reaction-dot.js:112 | The clock reading is kept as the start of the reaction, and the invariant is kept. |
| ReactionDot.Game.HandleTap | reaction-dot.js:124-161 | A tap while not running changes nothing. Otherwise the reaction is the clock minus the start time, and the counters become Rounds.Tap of the old ones. The game ends, with the board and statistics updated, if and only if the new round count reaches roundsTotal. Otherwise neither changes. |
| ReactionDot.Game.ScoreTap | reaction-dot.js:126-160 | handleTap after its guard: Rounds.Tap on the counters, followed by nextRound. |
| ReactionDot.Game.RecordTap | reaction-dot.js:126-155 | The counters become Rounds.Tap with the selected difficulty's threshold, and the invariant is kept. |
| ReactionDot.Game.NextRound | reaction-dot.js:116-122 | The schedule is Rounds.NextStep. When the game ends, running is cleared, the board becomes Leaderboard.Save of the final entry, and the statistics become BestStats.Record. Otherwise nothing changes. |
| ReactionDot.Game.EndGame | reaction-dot.js:216-262 | Running is cleared. The board becomes Leaderboard.Save of the entry with the mean, the IQ score and the difficulty name. The statistics become BestStats.Record of the mean and the IQ score. |
| ReactionDot.Game.UpdateStats | reaction-dot.js:251-262 | The statistics become BestStats.Record, and the round counters are untouched. |
| ReactionDot.Game.SaveToLeaderboard | reaction-dot.js:268-281 | The board becomes Leaderboard.Save of the new entry, tagged with the selected difficulty's name. It is at most five long and sorted, and no other field changes. |
| ReactionDot.Game.ResetStats | reaction-dot.js:320-329 | A confirmed reset empties the board and clears the statistics. Otherwise nothing changes. The invariant is kept. |
| ReactionDot.StartsOnFifthTick | reaction-dot.js:182-213 | After startGame, the fifth tick shows "Go!", starts play with no round counted and schedules the first dot. The body also asserts that taps during the first four ticks are ignored. |

## Left out

- The DOM, styles, audio and the touch handlers (lines 1-15, 98-111, 113, 128-131, 139-142, 146-148, 153-154, 163-168, 176-179, 188-196, 218-222, 236-248, 283-317) are presentation only.
- Timers are left out. `setTimeout` and `setInterval` (lines 121, 148, 204, 213) are not modelled as timers: the delay is returned as a value, and each tick of the 700 ms interval is a call to `CountdownTick`.
- The call `startGame()` when the script loads (line 334) is not part of the constructor. A client calls StartGame after construction, as StartsOnFifthTick does.
- A second countdown started before the first one ends (a restart during the countdown) is not modelled. The model has one counter, and StartGame restarts it.
- A dot timer still pending from an earlier game is not modelled.
- The dot's `pointerEvents` gating (lines 110, 129, 193, 219) is not modelled. While running, the model accepts a tap between rounds, before the next dot is shown. The page stops such taps by disabling pointer events on the logo.
- `performance.now()` and `Math.random()` are the parameters `now` and `r`. `randomPos` (lines 98-105) is left out.
- Scoring.CalculateIQ: the part of `calculateIQ` before the perfect bonus (lines 75-80 and the first three terms of line 83) needs `Math.sqrt`. It is the parameter `base`. The model covers the bonus, the rounding, the clamp and the empty-game value.
- `calculateConsistencyScore` (lines 88-96) needs `Math.sqrt`. Its result is the parameter `consistency` of `EndReadings`. The assignment to `consistencyScore` at line 158 is not modelled, because nothing reads it.
- `gameStartTime`, `gameTime` and `lastReactionTime` (lines 33, 35, 197, 227) are not modelled. The last is never used, and the others only feed the result panel.
- The result message (lines 229-234) is not modelled.
- Floating point is not modelled: reaction times and means are exact reals, and Math.round is the floor of x + 0.5.
- Local storage and JSON are not modelled; the fields are the stored values.
- The `parseFloat(...) \|\| null` and `parseInt(...) \|\| 0` coercions of `showStats` (lines 300-302) and line 251 are not modelled. A stored best mean of exactly 0 would be read back as `null`. The reload of the statistics by `startGame` (line 198) is therefore the identity in the model.
- The date string `new Date().toISOString()` (line 275) is the parameter `date` of `EndReadings`.
- `confirm` (line 321) is the parameter `confirmed` of ResetStats.
- The `streakBonus` column of the difficulty table is kept in `Difficulty.Profile` but never read, as in the code.
- Round limit: the difficulty handler (lines 170-180) changes the number of rounds even during a game, so `round <= roundsTotal` is not an invariant of the model. nextRound only compares with `>=`.
- Delay bounds: the code never checks that minDelay <= maxDelay. Every row of the table has minDelay < maxDelay, and `Valid` records that as an invariant. It is not a guard.
