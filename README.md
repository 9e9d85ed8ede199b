# Dual n-back: round engine, scoring and daily progress

A dual n-back exercise shows, each round, a highlighted cell of a 3x3
grid and speaks a letter from A to Z. For each of the two cues, the
player says whether it repeats the cue from exactly `n` rounds before.
This project models two parts of the app and proves properties of them:

- **`NBack`** (`nback.dfy`) models the game object `DualNBackGame`. The
  model is a class with the same fields, and each of its methods changes
  only the fields it names. Those methods are start, stop, reset,
  next round, answer checking, and the reset that follows assigning `n`.
  - The object invariant `Valid` holds between calls. It says:
    - each history holds one entry per round;
    - every drawn cell lies in the grid and every drawn letter is one of A to Z;
    - the cue on show is the newest entry;
    - the score is at most two points per round that may have been scored;
    - the round timer is scheduled exactly while the game plays.
  - The two match checks are functions of the state. They are tied to a
    reference definition, `LagMatch`, of "the newest entry repeats the one
    `n` places before it".
  - The scoring and message building of `checkAnswer` are a method
    (`JudgeAnswer`) proved against `RoundScore` and `FeedbackMessage`.
  - Three short sessions with n = 2 pin the behaviour down on concrete
    rounds.
- **`Brain`** (`brain.dfy`) models the home screen's progress:
  - `HomeViewModel`: a class whose `PlayRound` counts a played round but
    stops at the daily goal;
  - `ProgressShade`: the three-way shade of a day's circle;
  - the lemmas relating both to integer comparisons and to `min`.

Random draws are parameters: a cell as `(row, col)` and a letter as its
index in the alphabet. The round timer is the boolean `timerScheduled`.
Its callback is an explicit call of `NextRound`. The delayed hiding of
the feedback is an explicit call of `HideFeedback`.

## Model

| member | source | states |
|---|---|---|
| NBack.Letter | dual-n-back/DualNBackGame.swift:34 | index k of the alphabet is a one-letter string from A to Z, the k-th letter after A |
| NBack.LetterIsLetter | dual-n-back/DualNBackGame.swift:34 | every index of the 26-letter alphabet gives a one-letter string from A to Z, and different indices give different letters |
| NBack.LagMatchNeedsHistory | dual-n-back/DualNBackGame.swift:131 | a history of n entries or fewer never reports a match |
| NBack.LagMatchOfNewEntry | dual-n-back/DualNBackGame.swift:79-80 | after a cue is appended, the history matches exactly when that cue equals the one drawn n rounds earlier (always when n = 0) |
| NBack.LagMatchIsLocal | dual-n-back/DualNBackGame.swift:132-134 | the match verdict depends only on the newest entry and the entry n places before it |
| NBack.RoundScore | dual-n-back/DualNBackGame.swift:99-120 | an accepted answer earns 0 to 2 points; 2 exactly when both cues are judged right, 0 exactly when both are judged wrong |
| NBack.JudgeAnswer | dual-n-back/DualNBackGame.swift:99-121 | each cue is judged right exactly when the player's claim equals the expected match; the points are the RoundScore of the answer; the message is the FeedbackMessage of the two verdicts |
| NBack.JoinedPair | dual-n-back/DualNBackGame.swift:121 | joining two strings puts the separator between them exactly once |
| NBack.FeedbackMessageSpelling | dual-n-back/DualNBackGame.swift:100-121 | the message is the position verdict, one space, then the audio verdict: "Position: " mark " Audio: " mark |
| NBack.FeedbackMessageReadsBack | dual-n-back/DualNBackGame.swift:102-121 | the message has 20 characters; index 10 is a tick exactly when the position was right, the last character a tick exactly when the audio was right |
| NBack.FeedbackMessageInjective | dual-n-back/DualNBackGame.swift:102-121 | different outcomes never produce the same message |
| NBack.HistoryConsistentAfterRound | dual-n-back/DualNBackGame.swift:67-82 | appending a grid cell and a letter in the same round keeps one entry per round and the shown cue equal to the newest entry |
| NBack.ScoreBoundedAfterRound | dual-n-back/DualNBackGame.swift:67-82 | a new, unanswered round keeps the score at most two points per scored round |
| NBack.ScoreBoundedAfterAnswer | dual-n-back/DualNBackGame.swift:92-120 | an answer past the first n rounds, in a round not yet answered, worth at most 2 points, keeps the score bound |
| NBack.DualNBackGame.constructor | dual-n-back/DualNBackGame.swift:13-34 | the initial state is the reset state with n = 2, an empty message and both answer flags false, and it satisfies the invariant |
| NBack.DualNBackGame.SetN | dual-n-back/DualNBackGame.swift:24-28 | assigning n stores it and leaves the reset state, whatever the value |
| NBack.DualNBackGame.StartGame | dual-n-back/DualNBackGame.swift:36-44 | after start the game plays round 1 with score 0, one history entry each (the drawn cell and letter, in the grid and the alphabet), a timer scheduled and no answer or feedback pending |
| NBack.DualNBackGame.StopGame | dual-n-back/DualNBackGame.swift:46-50 | stopping clears the playing flag and the timer and changes nothing else |
| NBack.DualNBackGame.ResetGame | dual-n-back/DualNBackGame.swift:52-61 | reset leaves round 0, score 0, empty histories, cell (0,0), letter "", no feedback, not playing and no timer; calling it on a reset game changes nothing, so resetting twice equals resetting once |
| NBack.DualNBackGame.NextRound | dual-n-back/DualNBackGame.swift:63-89 | when not playing nothing changes; otherwise each history grows by exactly the drawn entry, the round goes up by 1, the answer and feedback flags clear, the next timer is scheduled, and the invariant is kept |
| NBack.DualNBackGame.CheckAnswer | dual-n-back/DualNBackGame.swift:91-122 | when not playing, within the first n rounds or after an answer this round, nothing changes; otherwise each correctness flag is "claim == expected match", the score grows by exactly the RoundScore, the message is the FeedbackMessage and feedback shows; the score never decreases and the invariant is kept |
| NBack.DualNBackGame.RecordAnswer | dual-n-back/DualNBackGame.swift:104-122 | the field writes of an accepted answer: the two correctness flags, the score raised by the round's points, the message and the shown feedback, keeping the invariant |
| NBack.DualNBackGame.HideFeedback | dual-n-back/DualNBackGame.swift:125-127 | the delayed callback hides the feedback and keeps the invariant |
| NBack.DualNBackGame.CheckPositionMatch | dual-n-back/DualNBackGame.swift:130-135 | with one entry per round, the indices are in range and the result is exactly LagMatch of the cell history (false within the first n rounds) |
| NBack.DualNBackGame.CheckAudioMatch | dual-n-back/DualNBackGame.swift:137-142 | with one entry per round, the indices are in range and the result is exactly LagMatch of the letter history (false within the first n rounds) |
| NBack.TwoBackOpening | dual-n-back/DualNBackGame.swift:24-89 | with n = 2, three rounds drawn as (0,0)/A, (1,1)/B, (0,0)/C give round 3, score 0 and exactly those histories |
| NBack.TwoBackRoundThree | dual-n-back/DualNBackGame.swift:91-142 | in that round a right answer (position match, no audio match) scores 2 and a second answer in the same round leaves the score at 2 |
| NBack.TwoBackSession | dual-n-back/DualNBackGame.swift:63-142 | a wrong answer on both cues in round 4 adds nothing and shows "Position: ✗ Audio: ✗" |
| Brain.ProgressShade | dual-n-back/BrainModel.swift:75-84 | for any non-zero goal the circle is empty exactly when no round was completed; with goal 0 it is never empty |
| Brain.ShadeByCount | dual-n-back/BrainModel.swift:75-84 | for a positive goal the shade is empty exactly when the count is 0, partial exactly when it is non-zero and below the goal, full exactly when it reaches the goal |
| Brain.ShadeOfZeroGoal | dual-n-back/BrainModel.swift:75-84 | with goal 0 the shade is never empty, and it is full exactly when the count is not negative |
| Brain.AfterPlay | dual-n-back/BrainModel.swift:97-100 | one press raises the count by at most 1, by exactly 1 exactly when it is below the goal, and never past a goal it has not passed |
| Brain.AfterPlays | dual-n-back/BrainModel.swift:97-100 | k presses raise the count by at most k, never lower it, and never take a count within the goal past it |
| Brain.AfterPlaysIsMin | dual-n-back/BrainModel.swift:88-100 | from a count within the goal, k presses give min(count + k, goal) |
| Brain.AfterPlaysPastGoal | dual-n-back/BrainModel.swift:98 | from a count at or past the goal, any number of presses change nothing |
| Brain.HomeViewModel.constructor | dual-n-back/BrainModel.swift:88-91 | the model starts with goal 5, 3 rounds done and an empty history, so the count is within the goal |
| Brain.HomeViewModel.PlayRound | dual-n-back/BrainModel.swift:97-100 | the count becomes AfterPlay of the old count: one more below the goal, otherwise nothing changes; goal and history never change, and a count within the goal stays within it |
| Brain.OpeningDay | dual-n-back/BrainModel.swift:88-100 | from the initial state, three presses give the counts 4, 5 and 5 |

## Left out

- The round timer and the delayed hiding of feedback (DualNBackGame.swift:85-88, 125-127). They are run-time scheduling. The model keeps a `timerScheduled` flag, and the callbacks are explicit calls of `NextRound` and `HideFeedback`. The timer invalidation in `deinit` is not modelled.
- Random number generation (DualNBackGame.swift:71-76). The drawn row, column and letter index are parameters limited to the ranges the draws produce. The `?? "A"` fallback cannot be reached, because the alphabet is never empty.
- The 26-element alphabet constant is the function `Letter`, which computes the letter at index k. It is one-to-one like the array.
- `roundDuration` (DualNBackGame.swift:33) only paces the timer, so it is left out.
- Swift's `Int` overflow traps (at `score += roundScore` and `currentRound += 1`) are not modelled: the integers are unbounded. No session gets near 2^63 rounds.
- The lag `n` is a `nat`. Swift allows a negative n, and then the index `currentRound - 1 - n` points past the history and traps. The settings stepper offers only 1 to 10.
- NBack.DualNBackGame.CheckAnswer: the model takes the two expected matches just before it sets `answerSubmitted`, not just after. The checks read the histories, currentRound and n, but not answerSubmitted, so they give the same values.
- NBack.JudgeAnswer: the scoring and message part of `checkAnswer` is factored out of CheckAnswer, and the field writes of an accepted answer are in the helper `RecordAnswer`. The source writes `correctPosition` before it judges the audio cue; the model does the same field writes, grouped after both judgments. No state in between can be observed, because nothing else runs during the call.
- The source appends literal strings such as "Position: ✓". The model builds them as the cue name, ": " and the mark; `FeedbackMessageSpelling` shows these are the same strings.
- The game screens refer to operations the game class does not define: per-cue submission, missed-answer finalisation, per-modality tallies, a session countdown and performance tiers (GameViewAssets/ButtonView.swift, GameOverAlert.swift). The model follows DualNBackGame.swift as written, including its scoring of one combined answer per round.
- Property observation (`@Published`, `ObservableObject`) is a UI-framework notification mechanism and is left out.
- Brain.ProgressShade is computed on exact rationals. The source divides two `Double`s, which can differ from exact division only when the count or the goal has magnitude above 2^53 (for example, goal 2^53+1 rounds to the Double 2^53, so count 2^53 is drawn full while the model says partial). A zero goal is modelled by the IEEE results of dividing by zero: +infinity and NaN both give the full shade, and -infinity gives the partial shade.
- `fillFraction` and the ring trim value (BrainModel.swift:30, 93-95) are floating-point display values and are left out.
- `DailyProgress` keeps its date as an opaque day number. Its generated UUID is left out.
- The SwiftUI views are presentation only and are left out. So are user-defaults persistence, the notification, haptic and speech managers, the calendar helper and the app entry points.
- `dailyGoal` can be assigned from outside, so `roundsCompletedToday <= dailyGoal` is not an object invariant. `PlayRound` preserves it whenever it holds before the call.
