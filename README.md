# Arithmetic quiz: a Dafny model of its game logic

This project models the logic core of `script.js`, a browser quiz. The quiz
asks arithmetic questions, each with four answer buttons. There are six
operations: addition, subtraction, multiplication, division, powers and square
roots. There are three levels: easy, medium and advanced. Play runs in one of
three kinds of round:

- **Rapid mode:** 20 timed questions, with a ranking of the ten best scores.
- **Study mode:** untimed, with no end.
- **Error training:** replays the questions the player got wrong.

XP is earned and spent across rounds. Two actions cost XP: extending the time
and revealing the answer.

The model is split into modules that follow the script:

| file | module | what it holds |
|---|---|---|
| `wrappers.dfy` | `Wrappers` | `Option`, used wherever the script has `undefined`, `null` or "no result" |
| `text.dfy` | `Text` | `String(n)` for integers, `String.prototype.trim`, and `parseInt` on decimal text |
| `superscript.dfy` | `Superscript` | `toSuperscript` / `fromSuperscript` and their character tables |
| `error_bank.dfy` | `ErrorBank` | the saved-mistake record, the `slice(-50)` copy written to storage, `findIndex` and removal by timestamp |
| `generator.dfy` | `Generator` | `randomInt`, the operand construction for each operation, the distractor loop, the Fisher-Yates shuffle, `generateQuestion` and `buildQuestionFromSavedError` |
| `high_scores.dfy` | `HighScores` | the ranking: the qualification test, name cleaning, push, stable sort by score, and truncation to ten |
| `round.dfy` | `Round` | the pure rules of a round: limits, countdown arithmetic, timer-bar bands, score and XP per answer, and the result-screen suggestion |
| `game.dfy` | `Game` | the mutable `gameState` as the class `GameState`, with one method per handler |

How the browser's side of each handler is modelled:

- **Host inputs.** A handler receives what the browser would supply as a
  `HostInput`:
  - the random draws, one per call of `randomInt` or `Math.random`;
  - `Date.now()`;
  - the text typed into the record prompt.
- **Deferred callbacks.** A `setTimeout` callback goes into `pending`. The host
  fires one pending callback with `Advance`.
- **The countdown.** The `setInterval` countdown is the flag `timerRunning`, and
  each of its firings is one call of `Tick`.
- **Storage.** What the script writes to `localStorage` is kept in ghost fields:
  - `storedXp` is the XP;
  - `storedErrors` is `errors.slice(-50)`;
  - `storedHighScores` is `highScores.slice(0, 10)`.
- **Answer buttons.** `answered` means the answer buttons are disabled. It is
  set by an answer or a reveal, and cleared when the next question is rendered.
- **Running out of draws.** When a generator runs out of draws, it returns
  `None` and the handler reports `stalled`. The browser would keep drawing at
  that point, so the model stops. The predicates `Generator.GenerateStalls` and
  `Generator.RebuildStalls` say exactly when this happens, in terms of the
  reference function `Generator.Distractors` of the options loop, and every
  `stalled` result is tied to them.

## Model

| member | source | states |
|---|---|---|
| Text.NatToString | script.js:385 | `String(n)` of a natural number is a non-empty run of decimal digits, starting with `0` only for zero |
| Text.IntToString | script.js:385 | `String(n)` is non-empty and all digits, except a leading `-` exactly when `n` is negative |
| Text.DigitPrefix | script.js:890 | the part `parseInt` reads is the longest prefix of digits: a prefix, all digits, and followed by a non-digit or by nothing |
| Text.ParseInt | script.js:890 | `parseInt` of blank text is NaN; text starting with a digit reads as a non-negative number; a negative result needs a leading `-` |
| Text.TrimStartSpec | script.js:243 | removing leading white space keeps a suffix that does not start with white space, and removes only white space |
| Text.TrimEndSpec | script.js:243 | removing trailing white space keeps a prefix that does not end with white space, and removes only white space |
| Text.TrimSpec | script.js:243 | `trim()` returns a slice of the input that neither starts nor ends with white space, and everything around that slice is white space (also at script.js:257) |
| Text.DigitsValueOfNat | script.js:890 | the value of the digits of `String(n)` is `n` |
| Text.DigitPrefixOfDigits | script.js:890 | on a string of digits, `parseInt` reads the whole string |
| Text.ParseIntOfIntToString | script.js:890 | `parseInt(String(n)) == n` for every integer, so an answer button's text reads back as the option it shows (also at script.js:256 and 705) |
| Superscript.SupChar | script.js:381 | the forward table maps every decimal digit to a superscript digit and passes every other character through |
| Superscript.PlainChar | script.js:382 | the reverse table maps every superscript digit to a decimal digit and passes every other character through |
| Superscript.SuperscriptText | script.js:385 | mapping a string character by character keeps its length |
| Superscript.PlainText | script.js:389 | mapping back character by character keeps the length |
| Superscript.ToSuperscript | script.js:384-386 | `toSuperscript(n)` has as many characters as `String(n)` |
| Superscript.FromSuperscript | script.js:388-390 | `fromSuperscript` keeps the length of its input |
| Superscript.SuperscriptTextAt | script.js:385 | each output character of `toSuperscript` is the table image of the input character at the same position |
| Superscript.PlainTextAt | script.js:389 | each output character of `fromSuperscript` is the reverse-table image of the input character at the same position |
| Superscript.CharRoundTrip | script.js:381-382 | looking up a character that is not a superscript digit forward and then back returns it |
| Superscript.TextRoundTrip | script.js:384-390 | `fromSuperscript` undoes the forward mapping on any text that holds no superscript digit |
| Superscript.TextRoundTripReverse | script.js:384-390 | the forward mapping undoes `fromSuperscript` on any text that holds no decimal digit |
| Superscript.RoundTrip | script.js:384-390 | `fromSuperscript(toSuperscript(n)) == String(n)` for every integer `n` |
| Superscript.PassThrough | script.js:385-389 | text with no character from either table passes through both helpers unchanged |
| ErrorBank.Persisted | script.js:165 | the copy `salvarErros` writes holds `min(50, |errors|)` records |
| ErrorBank.PersistedIsTail | script.js:165 | that copy is exactly the last `min(50, |errors|)` records, in order |
| ErrorBank.PersistedBelowLimit | script.js:165 | a list of at most 50 records is written whole |
| ErrorBank.PersistedIgnoresNewest | script.js:165 | once 50 records are held, the stored copy does not change when a record is put at the front (script.js:681) |
| ErrorBank.FirstIndexOf | script.js:284 | `findIndex` gives no index exactly when no record has the timestamp; otherwise it gives an index that has it, and no earlier index has it |
| ErrorBank.FirstIndexIsUnique | script.js:284 | an index with the timestamp and no earlier match is the index `findIndex` returns |
| ErrorBank.FindIndexByTimestamp | script.js:284 | the search loop returns -1 or the first index holding `ts`, in agreement with `FirstIndexOf` |
| ErrorBank.RemoveFirst | script.js:283-287 | removal changes nothing when no record has the timestamp, and otherwise shortens the list by one |
| ErrorBank.RemoveFirstIsSplice | script.js:284-285 | removal is `splice(idx, 1)` at the first index holding `ts` |
| ErrorBank.RemoveFirstKeepsOthers | script.js:283-287 | removal takes out exactly that one record, and every record with another timestamp is kept |
| Generator.DiffFactor | script.js:429-441 | the level multiplier is 1, 2 or 3: 2 exactly for "medium", 3 exactly for "advanced", and 1 otherwise |
| Generator.RandomInt | script.js:375-377 | `randomInt(lo, hi)` lies in `[lo, hi]` |
| Generator.RandomIntCovers | script.js:375-377 | every value in `[lo, hi]` is produced by some draw |
| Generator.Pow | script.js:476 | a power of a positive base is positive |
| Generator.OptionSpread | script.js:493 | the distractor spread is the rounded tenth of the answer's magnitude: it is 1 exactly when that magnitude is below 15, and otherwise `k` with `10k - 5 <= |answer| < 10k + 5` |
| Generator.TrainingSpread | script.js:261 | the training spread is the rounded 15% of the answer's magnitude: it is 2 exactly when three times that magnitude is below 50, and otherwise `k` with `20k - 10 <= 3|answer| < 20k + 10` |
| Generator.FillOptions | script.js:491-499 | the loop computes exactly `Distractors`, the reference function that consumes one draw per turn and appends each non-negative new candidate; it keeps the answer first and the options distinct, adds only distractors within `5 * spread`, and stops at four options or when the draws run out |
| Generator.OptionsCanComplete | script.js:491-505 | for any non-negative answer, draws that give `answer + 1`, `answer + 2` and `answer + 3`, followed by three more draws, complete the options: a stall is not forced |
| Generator.SwapKeepsDistinct | script.js:504 | swapping two entries keeps a list of distinct values distinct |
| Generator.Shuffle | script.js:502-505 | the in-place Fisher-Yates loop only permutes the array, keeps distinct values distinct, uses one draw per swap, and finishes exactly when `length - 1` draws are left |
| Generator.PermutationKeepsOptions | script.js:501-505 | a permutation of a valid option list is a valid option list |
| Generator.MakeOptions | script.js:490-505 | the result is None exactly when the options loop or the shuffle runs out of draws; otherwise it is a permutation of the loop's options with four distinct values, containing the answer, every other value non-negative and near it (also at script.js:259-272) |
| Generator.OperandFacts | script.js:444-485 | every answer is non-negative; subtraction's answer is at least `10 * d`; division's divisor is at least 2 and `num1` is divisor times quotient; a power is at least 1; the square root's `num1` is the answer squared |
| Generator.DrawOperands | script.js:443-485 | the operands each operation draws fit that operation's ranges at the level's multiplier, and the answer follows from them |
| Generator.GenerateQuestion | script.js:424-516 | an unknown operation gives the "Erro" question; for a known one the result is None exactly when the draws run out (`GenerateStalls`), and otherwise a question with the drawn operands, whose text is the operation's prompt (script.js:449-484) followed by " = ?", whose answer is non-negative, and whose four options are valid |
| Generator.BuildQuestionFromSavedError | script.js:255-281 | the result is None exactly when the options cannot be completed from the draws (`RebuildStalls`); otherwise the question has the trimmed saved prompt, the saved answer, the record's operation (or ""), the record's timestamp, and four valid options at the wider spread |
| HighScores.SortedDescPairwise | script.js:247 | sorted best-first means no entry scores less than any entry after it |
| HighScores.SortedHeadIsBest | script.js:247 | the first entry of a sorted table is its best score |
| HighScores.SortedLastIsLowest | script.js:247 | the last entry of a sorted table is its lowest score |
| HighScores.SortedPrefix | script.js:248 | every prefix of a sorted table is sorted |
| HighScores.Take | script.js:248 | `slice(0, n)` keeps a prefix of at most `n` entries, and keeps all entries when there are at most `n` (also at script.js:188) |
| HighScores.MinScore | script.js:238 | `Math.min` of the scores is at most every score and equal to one of them |
| HighScores.QualifiesSpec | script.js:238 | a score qualifies exactly when the table has fewer than ten entries or the score beats some entry, so on a full table a tie with the lowest entry is rejected |
| HighScores.CleanNameSpec | script.js:242-244 | the stored name has 1 to 20 characters; a blank or cancelled prompt gives "Anônimo"; any other answer gives its trimmed text cut to 20 characters, starting with a non-blank character |
| HighScores.Insert | script.js:247 | inserting adds one entry, and the result is the old entries plus the new one |
| HighScores.InsertSorted | script.js:247 | inserting into a sorted table keeps it sorted |
| HighScores.SortDesc | script.js:247 | the sort returns a permutation of its input, sorted best-first |
| HighScores.SortDescOfSorted | script.js:247 | sorting a table that is already in order changes nothing, because the sort is stable |
| HighScores.SortAfterPush | script.js:246-247 | pushing onto a sorted table and then sorting is the same as one insertion |
| HighScores.InsertBefore | script.js:246-247 | the new entry lands at or before any entry whose score it beats |
| HighScores.AddEntry | script.js:246-248 | push, sort and `slice(0, 10)` always give at most ten entries, sorted best-first |
| HighScores.RankingAfterRound | script.js:225-250 | the ranking after a round is sorted and holds at most ten entries whenever it was so before |
| HighScores.AddEntryFacts | script.js:246-248 | adding keeps only old entries and the new one; a table with room grows by one; a qualifying entry is in the result, whatever the order of the table it joins |
| HighScores.RankingAfterRoundFacts | script.js:225-250 | for any table of at most ten entries, the ranking changes only after a Rapid round whose score qualifies; such a score is then in the ranking, and nothing else is added |
| HighScores.AddEntryKeepsNew | script.js:238-248 | a qualifying entry survives the truncation to ten, even when the table it joins is unsorted |
| HighScores.AddEntryEvictsLowest | script.js:238-248 | on a full table, the entry that drops out is the previous last entry, the lowest score |
| Round.BaseTime | script.js:554-567 | the level's time is 150, 300 or 450 ticks: 150 exactly for "easy", 450 exactly for "advanced", and 300 otherwise |
| Round.MaxTime | script.js:568-578 | the time limit is unbounded exactly in Study mode; in Rapid mode it is the level's time, doubled when voice reading or sign-language mode is on |
| Round.Extended | script.js:950 | `Math.min(maxTime, timeLeft + 50)` never exceeds the limit, never lowers the time, never exceeds the sum, and is either the sum or the limit, so it is the smaller of the two |
| Round.CountdownStep | script.js:799 | a tick never takes the time above its limit: a finite count drops by exactly one, and `Infinity - 1` stays `Infinity` |
| Round.TimeBand | script.js:809-828 | the bar is Low exactly when the percentage (`PercentBelow`, in JavaScript's arithmetic with `Infinity` and NaN) is below 25, and High exactly when it is not below 50 |
| Round.TimeBandFinite | script.js:809-822 | with a positive finite limit, the percentage tests are the integer comparisons `4 * t < m` and `2 * t >= m` |
| Round.TimeBandStudy | script.js:577 | with no time limit the bar stays High |
| Round.BandMonotone | script.js:815-828 | as the time runs down, the bar only moves towards Low |
| Round.BelowTenIsLow | script.js:815-821 | below 10% lies inside the Low band, so the low-time sound branch is reached only there |
| Round.XpGainedMatchesAnswers | script.js:759 | the result screen's `XpGained` equals the sum of the XP changes of the round's answers (script.js:733, 741) |
| Round.SuggestionFor | script.js:769-775 | Study mode is recommended exactly when misses exceed half the hits; congratulations are given exactly when that is not so, the score is above 1000 and the level is "advanced" |
| Game.GameState.constructor | script.js:44-69 | the initial `gameState`, with XP, mistakes and ranking as loaded from storage (script.js:1074-1076); the stored mistakes are at most 50, as `salvarErros` writes them |
| Game.GameState.SelectOperation | script.js:848 | clicking an operation card records the operation |
| Game.GameState.SelectMode | script.js:896-908 | the mode buttons set Rapid or Study mode |
| Game.GameState.ToggleVoiceRead | script.js:912-919 | the voice-reading toggle flips its flag |
| Game.GameState.StartTimer | script.js:788-790 | any running countdown is replaced, and a countdown runs afterwards exactly in Rapid mode |
| Game.GameState.StopTimer | script.js:832-837 | no countdown runs afterwards |
| Game.GameState.PlayAlertSound | script.js:91-101 | a sound plays (`AlertAllowed`) when it is forced, or when 1200 ms have passed since the last one; the last time is updated exactly when it plays |
| Game.GameState.TimeUp | script.js:801-807 | when the time runs out, the countdown stops, a forced sound plays, the round ends with the result screen for its counters, and the ranking is updated; the stored ranking is rewritten only on a Rapid-mode record |
| Game.GameState.SoundLowTime | script.js:818-821 | the low-time sound is requested, subject to the cooldown, and is latched for the rest of the round |
| Game.GameState.Tick | script.js:793-829 | a tick on an inactive round stops the countdown and changes nothing else, stored ranking included; otherwise the time drops by one; at zero or below the round ends and the ranking and its stored copy are updated as by `EndGame`; otherwise the band is reported; the low-time sound is requested only below 10% and at most once per round, and its count rises exactly when it is first requested |
| Game.GameState.SaveError | script.js:672-683 | the mistake (`MistakeOf`: prompt, answer, user answer, operation, time) is put at index 0 with the rest in the same order, and the stored copy is `slice(-50)` of the new list |
| Game.GameState.RemoveSavedErrorByTimestamp | script.js:283-287 | the first record holding the timestamp leaves, or nothing changes when there is none; the list is then stored |
| Game.GameState.ClearErrors | script.js:1021-1028 | after confirmation the mistakes are cleared in memory and in storage; otherwise neither changes |
| Game.GameState.ClearRanking | script.js:1001-1008 | after confirmation the ranking is cleared in memory and in storage; otherwise neither changes |
| Game.GameState.TryAddHighScore | script.js:225-250 | the ranking becomes `RankingAfterRound` of the round's record (`NewRecord`: cleaned name, score, operation, level, date), stays sorted with at most ten entries, and is stored exactly when the score qualified in Rapid mode |
| Game.GameState.EndGame | script.js:754-783 | the round becomes inactive, the countdown stops in Rapid mode, the result screen shows the round's counters, XP gain and suggestion, and the ranking is updated and stored as in `tryAddHighScore` (`RankingSaved`: the entry added when it qualifies, the stored copy rewritten only on a Rapid-mode record) |
| Game.GameState.FinishErrorTraining | script.js:289-292 | the training round ends |
| Game.GameState.NextTrainingQuestion | script.js:615-638 | with an empty queue the training ends; otherwise the question number rises by one and the first saved mistake leaves the queue; the handler stalls exactly when `RebuildStalls` holds for that mistake, and otherwise the question shown replays the mistake's trimmed prompt and its operation, asks for its answer, points back to its timestamp, and has valid options at the training spread |
| Game.GameState.ShowRoundQuestion | script.js:647-651 | the question number rises by one; the handler stalls exactly when the operation is known and `GenerateStalls` holds; otherwise the question shown is the "Erro" question or one generated for the current operation and level |
| Game.GameState.NextRoundQuestion | script.js:641-667 | a Rapid round whose questions are used up ends, with the result screen, and the ranking and its stored copy updated as by `EndGame` (`RankingSaved`); otherwise the next question is counted and shown, the ranking and its stored copy unchanged, stalling exactly when `GenerateStalls` holds; a Rapid round never counts past 20 questions |
| Game.GameState.NextQuestion | script.js:613-667 | either the question number rises by one or the round is over; the training queue changes only in training; a countdown is never started; when an ordinary Rapid round's questions are used up (`RoundEnds`) the round ends with the result screen and `RankingSaved`, and otherwise the result, the ranking and its stored copy are unchanged |
| Game.GameState.ResetCounters | script.js:537-540 | score, question number, hits and misses start again from zero (also at script.js:1045-1048) |
| Game.GameState.ChooseRound | script.js:534-549 | the round takes the chosen operation and level, is active, and leaves error training |
| Game.GameState.SetLimits | script.js:542-580 | 20 questions in Rapid mode and no limit in Study mode; the time limit follows level, mode and accessibility; the countdown starts full; the low-time sound is re-armed |
| Game.GameState.PrepareRound | script.js:533-580 | every field `startGame` sets before the first question has its new value |
| Game.GameState.StartGame | script.js:526-610 | with an empty operation or level nothing changes; otherwise counters, limits and training state are reset as above, the first question is shown unless `GenerateStalls` holds (on a stall the question and buttons are untouched), and the countdown runs afterwards exactly when it already ran or the round is Rapid and a question was shown |
| Game.GameState.AnswerInTraining | script.js:711-725 | in error training a right answer counts a hit and removes its saved mistake when the question carries a timestamp (`RemovesSource`, script.js:714), a wrong answer counts a miss; the next question is scheduled without restarting the countdown |
| Game.GameState.AnswerInRound | script.js:727-749 | a right answer counts a hit and scores `ScoreGain`: 20 times the question number (Rapid) or 10 (Study); a wrong answer counts a miss and is saved; XP changes by `AnswerXp`: +5, +2 or -2 |
| Game.GameState.HandleAnswer | script.js:686-750 | nothing happens when no round is active or the question was answered; otherwise the countdown pauses in Rapid mode and the answer is scored as in training or in a normal round; score and XP never change in training |
| Game.GameState.Advance | script.js:746-749 | a fired callback leaves `pending`, restarts a Rapid countdown when it was scheduled after an answer, and moves to the next question; when that ends the round (`RoundEnds`) the result screen is shown and the ranking and its stored copy are updated as by `EndGame`, and otherwise result, ranking and stored ranking are unchanged; its `modifies` clause keeps XP, mistakes, score, counters, mode, time, operation, level and voice reading (also at script.js:723 and 986-989) |
| Game.GameState.ExtendTime | script.js:945-955 | with at least 100 XP the XP drops by 100 and the time rises by 50 up to the limit; otherwise nothing changes |
| Game.GameState.ShowAnswer | script.js:957-990 | outside training it needs 250 XP and nothing changes without it; otherwise the cost (0 in training) is paid and, when a question is shown, the buttons are disabled, the countdown stops and the next question is scheduled |
| Game.GameState.Quit | script.js:877-884 | the countdown stops and the round is no longer active |
| Game.GameState.BackHome | script.js:870-873 | the countdown stops |
| Game.GameState.BeginTraining | script.js:1040-1044 | the training queue is a copy of the whole mistake list, newest first, and its length is the training total |
| Game.GameState.StartTraining | script.js:1033-1060 | with no saved mistakes nothing changes; otherwise the training round starts over a copy of the mistakes, counters reset, and the first mistake is shown unless `RebuildStalls` holds for it (on a stall the question and buttons are untouched), otherwise with its trimmed prompt, operation, answer, timestamp and valid options at the training spread; mode, time and countdown are left alone |

The class invariant `Game.GameState.Valid` is kept by every method that changes
the state. It says five things:

- the stored XP equals the XP;
- the stored mistakes are `slice(-50)` of the mistakes;
- the time left never exceeds the limit;
- in training, the questions shown plus the questions queued equal the training total;
- the low-time sound has run at most once in the round.

## Behaviour worth knowing

These are facts about `script.js` that a reader might not expect:

- **Stored mistakes.** The in-memory list is never capped, and `salvarErros`
  writes `errors.slice(-50)`. New mistakes are put at the front, so the stored
  slice holds the 50 oldest. `ErrorBank.PersistedIgnoresNewest` shows that once
  50 are held, a new mistake never reaches storage.
- **The alert below 10%.** It calls `playAlertSound()` without `force`, so the
  1200 ms cooldown applies. No sound plays between 10% and 25%.
- **Training rounds.** `totalQuestions` is not set for a training round; the
  round counts with `totalTraining`.
- **Revealing the answer.** The handler has no mode check and works whether or
  not a round is active. Used in training while Rapid mode is selected, its
  callback restarts the countdown, which then runs during training.
- **Extending the time.** The handler has no mode check. In Study mode the
  time stays unbounded.
- **The countdown at a new round.** `startGame` replaces the countdown only in
  Rapid mode, and starting a training round leaves it as it was.

## Left out

- DOM rendering and screen switching (`exibirTela`, `renderRanking`, `displayErrorList`, `updateErrorTrainingButton`, `showFeedbackMessage`, the answer-button highlights, the theme toggle): they only draw the page.
- The sign-language toggle: its only effect on the logic is the body class that `startGame` reads, and the model passes that as the parameter `libras`.
- Speech and sound output (`speak`, `questionToSpeech`, `alertSound.play`): these are browser APIs. `PlayAlertSound` returns whether a sound would play. The model assumes the audio element exists, where the script returns early when it is missing.
- Reading `localStorage` and JSON parsing (`carregarXP`, `carregarErros`, `carregarRanking`): the constructor takes the loaded values. Parse failures, and records with missing or non-numeric fields, are not modelled.
- `Math.random`: it is a sequence of integer draws. `Math.floor(Math.random() * n)` is a draw taken modulo `n`. A generator that runs out of draws returns `None`, where the browser would keep drawing.
- Timing: the 100 ms period of the countdown, and the 1200 ms, 1500 ms and 2500 ms delays before callbacks, are not modelled. Pending callbacks may fire in any order and at any time, and a tick can occur whenever the countdown runs.
- Floating point: the timer percentage is compared in integer arithmetic. `Math.round` of a tenth or of 15% of an integer is written as integer division with halves rounded up, which is exact for integer answers.
- String lengths: strings are sequences of Unicode code points. `slice(0, 20)` on a name counts UTF-16 code units, so the two differ for names containing characters outside the Basic Multilingual Plane.
- Errors thrown by the script: reading `currentQuestion.answer` while no question is shown throws. `handleAnswer` and the reveal handler then stop at that point. The model returns there, keeping what was already done (a paused countdown, XP already paid).
- `parseInt` with a `0x` prefix: without a radix, `parseInt` reads such text as hexadecimal. The model reads decimal text only, since the quiz parses only numbers it wrote itself.
- The answer's type: `parseInt` of the clicked button's text is the option itself, by `Text.ParseIntOfIntToString`. So `HandleAnswer` takes the selected option as an integer. `NaN` answers are not modelled.
- Game.GameState.StartGame: states that a question is shown, but not which one. The generated question's properties are stated on `Game.GameState.ShowRoundQuestion`, which it calls. What it leaves unchanged is stated by its `modifies` clause, not by `ensures`.
- Game.GameState.StartTraining: what it leaves unchanged (mode, time, countdown, XP, mistakes, ranking, pending callbacks) is stated by its `modifies` clause, not by `ensures`.
- Game.GameState.NextQuestion: states only what its callers rely on. The full behaviour of each branch is on `Game.GameState.NextTrainingQuestion` and `Game.GameState.NextRoundQuestion`.
- Game.GameState.Advance: does not state the question shown. `Game.GameState.NextQuestion` and its branches state it.
- Game.GameState.TryAddHighScore: the ranking is kept sorted only when it was sorted and held at most ten entries on entry. `carregarRanking` accepts any stored array, so this cannot be an invariant of the class.
