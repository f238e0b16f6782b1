/**
 * The quiz's single mutable `gameState` and the handlers that change it: start
 * a round, move to the next question, answer, end the round, the countdown
 * tick, the two paid actions, quitting, the error-training round and the
 * confirmations that clear the stored lists.
 *
 * What the browser supplies to a handler (random draws, `Date.now()`, the text
 * typed into the record prompt) comes in as a `HostInput`. A `setTimeout`
 * callback a handler schedules is appended to `pending`; the host fires any
 * pending callback, in any order, with `Advance`. The `setInterval` countdown
 * is `timerRunning`, and each of its firings is a call of `Tick`.
 *
 * The ghost fields mirror the browser's storage: the error bank as
 * `salvarErros` writes it, the ranking as `salvarRanking` writes it, and the XP
 * as `atualizarXP` writes it.
 */
module Game {
  import opened Wrappers
  import opened Text
  import opened ErrorBank
  import opened HighScores
  import opened Generator
  import opened Round

  /** What the browser supplies to one handler. */
  datatype HostInput = HostInput(draws: seq<int>, now: int, nameEntry: Option<string>)

  /** A callback waiting in `setTimeout`. */
  datatype Callback =
    | ResumeThenNext  // after an answer or a revealed answer: restart the countdown in Rapid mode, then the next question
    | NextOnly        // after an answer in error training: the next question

  /** What the result screen shows. */
  datatype RoundResult = RoundResult(score: int, hits: nat, misses: nat, xpGained: int, xpTotal: int, suggestion: Suggestion)

  /** The record `saveError` stores for a wrong answer. */
  function MistakeOf(q: Question, userAnswer: int, now: int): ErrorRecord
  {
    ErrorRecord(q.text, q.answer, userAnswer, q.operation, now)
  }

  /** The answer to a saved mistake counts for the training round only when its timestamp is truthy. */
  predicate RemovesSource(q: Question) {
    q.sourceTimestamp.Some? && q.sourceTimestamp.value != 0
  }

  /** The result screen for a round's counters. */
  function Summary(score: int, hits: nat, misses: nat, xp: int, rapid: bool, level: string): RoundResult
  {
    RoundResult(score, hits, misses, XpGained(hits, misses, rapid), xp, SuggestionFor(hits, misses, score, level))
  }

  /** The ranking entry `tryAddHighScore` builds. */
  function NewRecord(score: int, operation: string, level: string, env: HostInput): HighScore
  {
    HighScore(CleanName(env.nameEntry), score, operation, level, env.now)
  }

  /** `nextQuestion` ends an ordinary Rapid-mode round whose questions are used up. */
  predicate RoundEnds(training: bool, rapid: bool, number: nat, total: Bound) {
    !training && rapid && Reached(number, total)
  }

  /**
   * The ranking after `endGame`: the entry is added when it qualifies, and the
   * stored copy is rewritten only for a record in Rapid mode.
   */
  predicate RankingSaved(before: seq<HighScore>, storedBefore: seq<HighScore>, after: seq<HighScore>,
                         storedAfter: seq<HighScore>, rapid: bool, entry: HighScore)
  {
    && after == RankingAfterRound(before, rapid, entry)
    && storedAfter == if rapid && Qualifies(before, entry.score) then after else storedBefore
  }

  class GameState {
    var currentOperation: string
    var currentLevel: string
    var isGameActive: bool
    var score: int
    var xp: int
    var questionNumber: nat
    var totalQuestions: Bound
    var isVoiceReadActive: bool
    var isRapidMode: bool
    var errors: seq<ErrorRecord>
    var highScores: seq<HighScore>
    var timerRunning: bool
    var timeLeft: Bound
    var maxTime: Bound
    var hits: nat
    var misses: nat
    var lastAlertSoundAt: int
    var lowTimeAlertPlayed: bool
    var isErrorTraining: bool
    var trainingQueue: seq<ErrorRecord>
    var totalTraining: nat
    var currentQuestion: Option<Question>
    /** The answer buttons are disabled. */
    var answered: bool
    var pending: seq<Callback>
    /** The last result screen. */
    var result: Option<RoundResult>

    ghost var storedXp: int
    ghost var storedErrors: seq<ErrorRecord>
    ghost var storedHighScores: seq<HighScore>
    /** How often the low-time sound branch ran since the round started. */
    ghost var lowTimeAlerts: nat

    ghost predicate Valid()
      reads this
    {
      && storedXp == xp
      && storedErrors == Persisted(errors)
      && Within(timeLeft, maxTime)
      && (isErrorTraining ==> questionNumber + |trainingQueue| == totalTraining)
      && lowTimeAlerts == (if lowTimeAlertPlayed then 1 else 0)
    }

    /**
     * The page loads: the initial `gameState`, with XP, error bank and ranking
     * read from storage. The stored error bank is one `salvarErros` wrote, so it
     * holds at most 50 records.
     */
    constructor (savedXp: int, savedErrors: seq<ErrorRecord>, savedHighScores: seq<HighScore>)
      requires |savedErrors| <= PersistLimit
      ensures Valid()
      ensures currentOperation == "" && currentLevel == "" && !isGameActive
      ensures score == 0 && xp == savedXp && questionNumber == 0 && totalQuestions == Finite(RapidQuestions)
      ensures !isVoiceReadActive && isRapidMode
      ensures errors == savedErrors && highScores == savedHighScores
      ensures !timerRunning && timeLeft == Finite(0) && maxTime == Finite(0) && hits == 0 && misses == 0
      ensures lastAlertSoundAt == 0 && !lowTimeAlertPlayed
      ensures !isErrorTraining && trainingQueue == [] && totalTraining == 0
      ensures currentQuestion.None? && !answered && pending == [] && result.None?
      ensures storedErrors == savedErrors && storedHighScores == savedHighScores
    {
      currentOperation, currentLevel, isGameActive := "", "", false;
      score, xp, questionNumber, totalQuestions := 0, savedXp, 0, Finite(RapidQuestions);
      isVoiceReadActive, isRapidMode := false, true;
      errors, highScores := savedErrors, savedHighScores;
      timerRunning, timeLeft, maxTime, hits, misses := false, Finite(0), Finite(0), 0, 0;
      lastAlertSoundAt, lowTimeAlertPlayed := 0, false;
      isErrorTraining, trainingQueue, totalTraining := false, [], 0;
      currentQuestion, answered, pending, result := None, false, [], None;
      storedXp, storedErrors, storedHighScores, lowTimeAlerts := savedXp, savedErrors, savedHighScores, 0;
      PersistedBelowLimit(savedErrors);
    }

    // ---------------------------------------------------------------- settings

    /** An operation card is clicked. */
    method SelectOperation(operation: string)
      modifies this`currentOperation
      ensures currentOperation == operation
    {
      currentOperation := operation;
    }

    /** The Rapid or the Study mode button is clicked. */
    method SelectMode(rapid: bool)
      modifies this`isRapidMode
      ensures isRapidMode == rapid
    {
      isRapidMode := rapid;
    }

    method ToggleVoiceRead()
      modifies this`isVoiceReadActive
      ensures isVoiceReadActive == !old(isVoiceReadActive)
    {
      isVoiceReadActive := !isVoiceReadActive;
    }

    // ---------------------------------------------------------------- timer

    /** `startTimer`: any running countdown is replaced; none starts in Study mode. */
    method StartTimer()
      modifies this`timerRunning
      ensures timerRunning == isRapidMode
    {
      timerRunning := isRapidMode;
    }

    method StopTimer()
      modifies this`timerRunning
      ensures !timerRunning
    {
      timerRunning := false;
    }

    /** `playAlertSound`: unless forced, at most one sound per 1200 ms. */
    method PlayAlertSound(force: bool, now: int) returns (played: bool)
      modifies this`lastAlertSoundAt
      ensures played == AlertAllowed(force, now, old(lastAlertSoundAt))
      ensures lastAlertSoundAt == if played then now else old(lastAlertSoundAt)
    {
      if !force && now - lastAlertSoundAt < AlertCooldownMs {
        return false;
      }
      lastAlertSoundAt := now;
      played := true;
    }

    /** The branch of the countdown where the time has run out: stop, sound the alert, end the round. */
    method TimeUp(env: HostInput) returns (sound: bool)
      requires Valid()
      modifies this`timerRunning, this`lastAlertSoundAt, this`isGameActive, this`result,
        this`highScores, this`storedHighScores
      ensures Valid()
      ensures ValidTable(old(highScores)) ==> ValidTable(highScores)
      ensures !timerRunning && sound && lastAlertSoundAt == env.now && !isGameActive
      ensures result == Some(Summary(old(score), old(hits), old(misses), old(xp), old(isRapidMode), old(currentLevel)))
      ensures RankingSaved(old(highScores), old(storedHighScores), highScores, storedHighScores, isRapidMode, NewRecord(score, currentOperation, currentLevel, env))
    {
      StopTimer();
      sound := PlayAlertSound(true, env.now);
      EndGame(env);
    }

    /** The first time the time drops below 10%: the low-time sound is requested once per round. */
    method SoundLowTime(now: int) returns (sound: bool)
      requires Valid() && !lowTimeAlertPlayed
      modifies this`lastAlertSoundAt, this`lowTimeAlertPlayed, this`lowTimeAlerts
      ensures Valid()
      ensures lowTimeAlertPlayed && sound == AlertAllowed(false, now, old(lastAlertSoundAt))
      ensures lastAlertSoundAt == if sound then now else old(lastAlertSoundAt)
    {
      sound := PlayAlertSound(false, now);
      lowTimeAlertPlayed := true;
      lowTimeAlerts := lowTimeAlerts + 1;
    }

    /**
     * One firing of the countdown. It stops itself when the round is no longer
     * active, ends the round when the time runs out, and otherwise reports the
     * bar's band, playing the low-time sound the first time the time drops
     * below 10%.
     */
    method Tick(env: HostInput) returns (band: Option<Band>, sound: bool)
      requires Valid() && timerRunning
      modifies this`timeLeft, this`timerRunning, this`lastAlertSoundAt, this`lowTimeAlertPlayed,
        this`lowTimeAlerts, this`isGameActive, this`result, this`highScores, this`storedHighScores
      ensures Valid()
      ensures ValidTable(old(highScores)) ==> ValidTable(highScores)
      ensures !old(isGameActive) ==>
        !timerRunning && band.None? && !sound && timeLeft == old(timeLeft) && isGameActive == old(isGameActive)
        && unchanged(this`lastAlertSoundAt, this`lowTimeAlertPlayed, this`lowTimeAlerts, this`result)
        && unchanged(this`highScores, this`storedHighScores)
      ensures old(isGameActive) ==> timeLeft == Decrement(old(timeLeft))
      ensures old(isGameActive) && Expired(timeLeft) ==>
        !timerRunning && band.None? && sound && lastAlertSoundAt == env.now && !isGameActive
        && result == Some(Summary(old(score), old(hits), old(misses), old(xp), old(isRapidMode), old(currentLevel)))
        && RankingSaved(old(highScores), old(storedHighScores), highScores, storedHighScores, isRapidMode, NewRecord(score, currentOperation, currentLevel, env))
        && lowTimeAlertPlayed == old(lowTimeAlertPlayed)
      ensures old(isGameActive) && !Expired(timeLeft) ==>
        timerRunning && isGameActive && band == Some(TimeBand(timeLeft, maxTime))
        && unchanged(this`result, this`highScores, this`storedHighScores)
      ensures old(isGameActive) && !Expired(timeLeft) && BelowTenPercent(timeLeft, maxTime) && !old(lowTimeAlertPlayed) ==>
        lowTimeAlertPlayed && sound == AlertAllowed(false, env.now, old(lastAlertSoundAt))
        && lastAlertSoundAt == (if sound then env.now else old(lastAlertSoundAt))
      ensures old(isGameActive) && !Expired(timeLeft) && !(BelowTenPercent(timeLeft, maxTime) && !old(lowTimeAlertPlayed)) ==>
        !sound && unchanged(this`lowTimeAlertPlayed, this`lastAlertSoundAt)
      ensures lowTimeAlerts == old(lowTimeAlerts) + (if lowTimeAlertPlayed && !old(lowTimeAlertPlayed) then 1 else 0)
    {
      if !isGameActive {
        StopTimer();
        return None, false;
      }
      timeLeft := Decrement(timeLeft);
      if Expired(timeLeft) {
        sound := TimeUp(env);
        return None, sound;
      }
      band := Some(TimeBand(timeLeft, maxTime));
      sound := false;
      if band.value == Low {
        if BelowTenPercent(timeLeft, maxTime) && !lowTimeAlertPlayed {
          sound := SoundLowTime(env.now);
        }
      } else {
        assert !BelowTenPercent(timeLeft, maxTime) by {
          if BelowTenPercent(timeLeft, maxTime) {
            BelowTenIsLow(timeLeft, maxTime);
          }
        }
      }
    }

    // ---------------------------------------------------------------- storage

    /** `saveError`: the mistake goes first in the list, and the list is persisted. */
    method SaveError(q: Question, userAnswer: int, now: int)
      requires Valid()
      modifies this`errors, this`storedErrors
      ensures Valid()
      ensures errors == [MistakeOf(q, userAnswer, now)] + old(errors)
      ensures storedErrors == Persisted(errors)
    {
      errors := [MistakeOf(q, userAnswer, now)] + errors;
      storedErrors := Persisted(errors);
    }

    /** `removeSavedErrorByTimestamp`: the first record with that timestamp leaves; the list is persisted. */
    method RemoveSavedErrorByTimestamp(ts: int)
      requires Valid()
      modifies this`errors, this`storedErrors
      ensures Valid()
      ensures errors == RemoveFirst(old(errors), ts)
      ensures storedErrors == Persisted(errors)
    {
      var idx := FindIndexByTimestamp(errors, ts);
      if idx >= 0 {
        RemoveFirstIsSplice(errors, ts);
        errors := errors[..idx] + errors[idx + 1..];
      }
      storedErrors := Persisted(errors);
    }

    /** The error bank's clear button, after the confirmation dialog answered `confirmed`. */
    method ClearErrors(confirmed: bool)
      requires Valid()
      modifies this`errors, this`storedErrors
      ensures Valid()
      ensures errors == if confirmed then [] else old(errors)
      ensures storedErrors == if confirmed then [] else old(storedErrors)
    {
      if confirmed {
        errors := [];
        storedErrors := Persisted(errors);
      }
    }

    /** The ranking's clear button, after the confirmation dialog answered `confirmed`. */
    method ClearRanking(confirmed: bool)
      requires Valid()
      modifies this`highScores, this`storedHighScores
      ensures Valid()
      ensures ValidTable(old(highScores)) ==> ValidTable(highScores)
      ensures highScores == if confirmed then [] else old(highScores)
      ensures storedHighScores == if confirmed then [] else old(storedHighScores)
    {
      if confirmed {
        highScores := [];
        storedHighScores := Take(highScores, TableSize);
      }
    }

    /**
     * `tryAddHighScore`: only a Rapid round that qualifies enters the
     * ranking, under the name typed into the prompt; the ranking is persisted.
     */
    method TryAddHighScore(env: HostInput)
      requires Valid()
      modifies this`highScores, this`storedHighScores
      ensures Valid()
      ensures ValidTable(old(highScores)) ==> ValidTable(highScores)
      ensures RankingSaved(old(highScores), old(storedHighScores), highScores, storedHighScores, isRapidMode, NewRecord(score, currentOperation, currentLevel, env))
    {
      var qualifies := isRapidMode && Qualifies(highScores, score);
      highScores := RankingAfterRound(highScores, isRapidMode, NewRecord(score, currentOperation, currentLevel, env));
      if qualifies {
        storedHighScores := Take(highScores, TableSize);
      }
    }

    // ---------------------------------------------------------------- rounds

    /** `endGame`: the round stops, the result screen is filled in, and a Rapid score may enter the ranking. */
    method EndGame(env: HostInput)
      requires Valid()
      modifies this`isGameActive, this`timerRunning, this`result, this`highScores, this`storedHighScores
      ensures Valid()
      ensures ValidTable(old(highScores)) ==> ValidTable(highScores)
      ensures !isGameActive
      ensures timerRunning == (old(timerRunning) && !isRapidMode)
      ensures result == Some(Summary(old(score), old(hits), old(misses), old(xp), old(isRapidMode), old(currentLevel)))
      ensures RankingSaved(old(highScores), old(storedHighScores), highScores, storedHighScores, isRapidMode, NewRecord(score, currentOperation, currentLevel, env))
    {
      isGameActive := false;
      if isRapidMode {
        StopTimer();
      }
      result := Some(Summary(score, hits, misses, xp, isRapidMode, currentLevel));
      TryAddHighScore(env);
    }

    /** `finishErrorTraining`. */
    method FinishErrorTraining()
      modifies this`isGameActive, this`isErrorTraining
      ensures !isGameActive && !isErrorTraining
    {
      isGameActive := false;
      isErrorTraining := false;
    }

    /**
     * `nextQuestion` in error training: the next saved mistake is shown, or the
     * training round ends when none is left.
     */
    method NextTrainingQuestion(env: HostInput) returns (stalled: bool)
      requires Valid() && isErrorTraining
      modifies this`questionNumber, this`trainingQueue, this`currentQuestion, this`answered,
        this`isGameActive, this`isErrorTraining
      ensures Valid()
      ensures old(trainingQueue) == [] ==>
        !stalled && !isGameActive && !isErrorTraining && questionNumber == old(questionNumber)
        && unchanged(this`currentQuestion, this`answered)
      ensures old(trainingQueue) != [] ==>
        isErrorTraining && isGameActive == old(isGameActive)
        && questionNumber == old(questionNumber) + 1 && trainingQueue == old(trainingQueue)[1..]
        && (stalled <==> RebuildStalls(old(trainingQueue)[0], env.draws))
        && (stalled ==> unchanged(this`currentQuestion, this`answered))
        && (!stalled ==>
               !answered && currentQuestion.Some?
               && currentQuestion.value.text == Trim(old(trainingQueue)[0].question)
               && currentQuestion.value.operation == Some(old(trainingQueue)[0].operation.GetOr(""))
               && currentQuestion.value.answer == old(trainingQueue)[0].correctAnswer
               && currentQuestion.value.sourceTimestamp == Some(old(trainingQueue)[0].timestamp)
               && ValidOptions(currentQuestion.value.options, currentQuestion.value.answer,
                  TrainingSpread(currentQuestion.value.answer)))
    {
      if |trainingQueue| == 0 {
        FinishErrorTraining();
        stalled := false;
      } else {
        questionNumber := questionNumber + 1;
        var err := trainingQueue[0];
        trainingQueue := trainingQueue[1..];
        var q := BuildQuestionFromSavedError(err, env.draws);
        stalled := q.None?;
        if !stalled {
          currentQuestion := q;
          answered := false;
        }
      }
    }

    /** The branch of `nextQuestion` outside error training that counts and shows a generated question. */
    method ShowRoundQuestion(env: HostInput) returns (stalled: bool)
      requires Valid() && !isErrorTraining
      modifies this`questionNumber, this`currentQuestion, this`answered
      ensures Valid()
      ensures questionNumber == old(questionNumber) + 1
      ensures stalled <==> IsOperation(currentOperation) && GenerateStalls(currentOperation, currentLevel, env.draws)
      ensures stalled ==> unchanged(this`currentQuestion, this`answered)
      ensures !stalled ==>
        !answered && currentQuestion.Some?
        && (IsOperation(currentOperation) ==> Generated(currentQuestion.value, currentOperation, DiffFactor(currentLevel)))
        && (!IsOperation(currentOperation) ==> currentQuestion.value == Fallback)
    {
      questionNumber := questionNumber + 1;
      var q := GenerateQuestion(currentOperation, currentLevel, env.draws);
      stalled := q.None?;
      if !stalled {
        currentQuestion, answered := q, false;
      }
    }

    /**
     * `nextQuestion` outside error training: a Rapid round whose questions are
     * used up ends; otherwise the question is counted and a new one is shown.
     */
    method NextRoundQuestion(env: HostInput) returns (stalled: bool)
      requires Valid() && !isErrorTraining
      modifies this`questionNumber, this`currentQuestion, this`answered,
        this`isGameActive, this`timerRunning, this`result, this`highScores, this`storedHighScores
      ensures Valid()
      ensures ValidTable(old(highScores)) ==> ValidTable(highScores)
      ensures isRapidMode && Reached(old(questionNumber), totalQuestions) ==>
        !stalled && !isGameActive && !timerRunning
        && result == Some(Summary(old(score), old(hits), old(misses), old(xp), old(isRapidMode), old(currentLevel)))
        && RankingSaved(old(highScores), old(storedHighScores), highScores, storedHighScores, isRapidMode, NewRecord(score, currentOperation, currentLevel, env))
        && unchanged(this`questionNumber, this`currentQuestion, this`answered)
      ensures !(isRapidMode && Reached(old(questionNumber), totalQuestions)) ==>
        questionNumber == old(questionNumber) + 1 && isGameActive == old(isGameActive)
        && unchanged(this`timerRunning, this`result, this`highScores, this`storedHighScores)
        && (stalled <==> IsOperation(currentOperation) && GenerateStalls(currentOperation, currentLevel, env.draws))
        && (stalled ==> unchanged(this`currentQuestion, this`answered))
        && (!stalled ==>
               !answered && currentQuestion.Some?
               && (IsOperation(currentOperation) ==> Generated(currentQuestion.value, currentOperation, DiffFactor(currentLevel)))
               && (!IsOperation(currentOperation) ==> currentQuestion.value == Fallback))
      ensures isRapidMode && totalQuestions == Finite(RapidQuestions) && old(questionNumber) <= RapidQuestions
        ==> questionNumber <= RapidQuestions
    {
      if isRapidMode && Reached(questionNumber, totalQuestions) {
        EndGame(env);
        stalled := false;
      } else {
        stalled := ShowRoundQuestion(env);
      }
    }

    /** `nextQuestion`: the next saved mistake in error training, the next generated question otherwise. */
    method NextQuestion(env: HostInput) returns (stalled: bool)
      requires Valid()
      modifies this`questionNumber, this`trainingQueue, this`currentQuestion, this`answered,
        this`isGameActive, this`isErrorTraining, this`timerRunning, this`result,
        this`highScores, this`storedHighScores
      ensures Valid()
      ensures ValidTable(old(highScores)) ==> ValidTable(highScores)
      ensures questionNumber == old(questionNumber) + 1 || !isGameActive
      ensures old(isErrorTraining) ==> unchanged(this`timerRunning, this`result, this`highScores, this`storedHighScores)
      ensures !old(isErrorTraining) ==> !isErrorTraining && trainingQueue == old(trainingQueue)
      ensures RoundEnds(old(isErrorTraining), isRapidMode, old(questionNumber), totalQuestions) ==>
        !isGameActive
        && result == Some(Summary(old(score), old(hits), old(misses), old(xp), old(isRapidMode), old(currentLevel)))
        && RankingSaved(old(highScores), old(storedHighScores), highScores, storedHighScores, isRapidMode, NewRecord(score, currentOperation, currentLevel, env))
      ensures !RoundEnds(old(isErrorTraining), isRapidMode, old(questionNumber), totalQuestions) && !old(isErrorTraining) ==>
        unchanged(this`result, this`highScores, this`storedHighScores)
      ensures timerRunning ==> old(timerRunning)
      ensures isGameActive ==> timerRunning == old(timerRunning)
    {
      if isErrorTraining {
        stalled := NextTrainingQuestion(env);
      } else {
        stalled := NextRoundQuestion(env);
      }
    }

    /**
     * Score, question number, hits and misses start again from zero. In error
     * training this breaks `Valid` until the queue is reset too, so callers
     * re-establish it.
     */
    method ResetCounters()
      modifies this`score, this`questionNumber, this`hits, this`misses
      ensures score == 0 && questionNumber == 0 && hits == 0 && misses == 0
    {
      score, questionNumber, hits, misses := 0, 0, 0, 0;
    }

    /** `startGame` chooses the operation and level of a new, ordinary round. */
    method ChooseRound(operation: string, level: string)
      requires Valid()
      modifies this`currentOperation, this`currentLevel, this`isGameActive,
        this`isErrorTraining, this`trainingQueue, this`totalTraining
      ensures Valid()
      ensures currentOperation == operation && currentLevel == level && isGameActive
      ensures !isErrorTraining && trainingQueue == [] && totalTraining == 0
    {
      currentOperation, currentLevel, isGameActive := operation, level, true;
      isErrorTraining, trainingQueue, totalTraining := false, [], 0;
    }

    /** `startGame` sets the question count and time limit for the mode and re-arms the low-time sound. */
    method SetLimits(level: string, libras: bool)
      requires Valid()
      modifies this`totalQuestions, this`maxTime, this`timeLeft,
        this`lowTimeAlertPlayed, this`lastAlertSoundAt, this`lowTimeAlerts
      ensures Valid()
      ensures totalQuestions == (if isRapidMode then Finite(RapidQuestions) else Unbounded)
      ensures maxTime == MaxTime(level, isRapidMode, isVoiceReadActive || libras) && timeLeft == maxTime
      ensures !lowTimeAlertPlayed && lastAlertSoundAt == 0
    {
      totalQuestions := if isRapidMode then Finite(RapidQuestions) else Unbounded;
      maxTime := MaxTime(level, isRapidMode, isVoiceReadActive || libras);
      timeLeft := maxTime;
      lowTimeAlertPlayed, lastAlertSoundAt, lowTimeAlerts := false, 0, 0;
    }

    /** Everything `startGame` sets before it shows the first question of an ordinary round. */
    method PrepareRound(operation: string, level: string, libras: bool)
      requires Valid()
      modifies this`currentOperation, this`currentLevel, this`isGameActive,
        this`isErrorTraining, this`trainingQueue, this`totalTraining,
        this`score, this`questionNumber, this`hits, this`misses,
        this`totalQuestions, this`maxTime, this`timeLeft,
        this`lowTimeAlertPlayed, this`lastAlertSoundAt, this`lowTimeAlerts
      ensures Valid()
      ensures currentOperation == operation && currentLevel == level && isGameActive
      ensures !isErrorTraining && trainingQueue == [] && totalTraining == 0
      ensures score == 0 && questionNumber == 0 && hits == 0 && misses == 0
      ensures totalQuestions == (if isRapidMode then Finite(RapidQuestions) else Unbounded)
      ensures maxTime == MaxTime(level, isRapidMode, isVoiceReadActive || libras) && timeLeft == maxTime
      ensures !lowTimeAlertPlayed && lastAlertSoundAt == 0
    {
      ChooseRound(operation, level);
      ResetCounters();
      SetLimits(level, libras);
    }

    /**
     * `startGame`: with an operation and a level chosen, every round counter
     * is reset, the question count and the time limit follow the mode, the
     * first question is shown and, in Rapid mode, the countdown starts.
     */
    method StartGame(operation: string, level: string, libras: bool, env: HostInput) returns (started: bool, stalled: bool)
      requires Valid()
      modifies this`currentOperation, this`currentLevel, this`isGameActive,
        this`isErrorTraining, this`trainingQueue, this`totalTraining,
        this`score, this`questionNumber, this`hits, this`misses,
        this`totalQuestions, this`maxTime, this`timeLeft,
        this`lowTimeAlertPlayed, this`lastAlertSoundAt, this`lowTimeAlerts,
        this`currentQuestion, this`answered, this`timerRunning
      ensures Valid()
      ensures operation == "" || level == "" ==> !started && !stalled && unchanged(this)
      ensures operation != "" && level != "" ==>
        started && currentOperation == operation && currentLevel == level && isGameActive
        && score == 0 && questionNumber == 1 && hits == 0 && misses == 0
        && !lowTimeAlertPlayed && lastAlertSoundAt == 0
        && !isErrorTraining && trainingQueue == [] && totalTraining == 0
        && totalQuestions == (if isRapidMode then Finite(RapidQuestions) else Unbounded)
        && maxTime == MaxTime(level, isRapidMode, isVoiceReadActive || libras) && timeLeft == maxTime
        && timerRunning == (old(timerRunning) || (!stalled && isRapidMode))
        && (stalled <==> IsOperation(operation) && GenerateStalls(operation, level, env.draws))
        && (stalled ==> unchanged(this`currentQuestion, this`answered))
        && (!stalled ==> !answered && currentQuestion.Some?)
    {
      if operation == "" || level == "" {
        started, stalled := false, false;
      } else {
        PrepareRound(operation, level, libras);
        started := true;
        // the first question of a round never ends it: `nextQuestion` shows a question
        stalled := ShowRoundQuestion(env);
        if !stalled && isRapidMode {
          StartTimer();
        }
      }
    }

    /** The part of `handleAnswer` that runs in error training once the question `q` is answered. */
    method AnswerInTraining(q: Question, selected: int)
      requires Valid()
      modifies this`hits, this`misses, this`errors, this`storedErrors, this`pending
      ensures Valid()
      ensures pending == old(pending) + [NextOnly]
      ensures selected == q.answer ==>
        hits == old(hits) + 1 && misses == old(misses)
        && errors == (if RemovesSource(q) then RemoveFirst(old(errors), q.sourceTimestamp.value) else old(errors))
      ensures selected != q.answer ==> hits == old(hits) && misses == old(misses) + 1 && errors == old(errors)
      ensures errors != old(errors) ==> storedErrors == Persisted(errors)
    {
      if selected == q.answer {
        hits := hits + 1;
        if RemovesSource(q) {
          RemoveSavedErrorByTimestamp(q.sourceTimestamp.value);
        }
      } else {
        misses := misses + 1;
      }
      pending := pending + [NextOnly];
    }

    /** The part of `handleAnswer` that runs outside error training once the question `q` is answered. */
    method AnswerInRound(q: Question, selected: int, now: int)
      requires Valid()
      modifies this`hits, this`misses, this`score, this`xp, this`storedXp, this`errors, this`storedErrors, this`pending
      ensures Valid()
      ensures pending == old(pending) + [ResumeThenNext]
      ensures xp == old(xp) + AnswerXp(selected == q.answer, isRapidMode)
      ensures selected == q.answer ==>
        hits == old(hits) + 1 && misses == old(misses)
        && score == old(score) + ScoreGain(isRapidMode, questionNumber) && errors == old(errors)
      ensures selected != q.answer ==>
        hits == old(hits) && misses == old(misses) + 1 && score == old(score)
        && errors == [MistakeOf(q, selected, now)] + old(errors)
      ensures errors != old(errors) ==> storedErrors == Persisted(errors)
    {
      var gain := AnswerXp(selected == q.answer, isRapidMode);
      xp, storedXp := xp + gain, xp + gain;
      if selected == q.answer {
        hits := hits + 1;
        score := score + ScoreGain(isRapidMode, questionNumber);
      } else {
        misses := misses + 1;
        SaveError(q, selected, now);
      }
      pending := pending + [ResumeThenNext];
    }

    /**
     * `handleAnswer`: ignored when no round is active or the question was
     * already answered. The countdown pauses in Rapid mode; the next question
     * is scheduled. In error training a right answer removes the saved mistake
     * and nothing touches score or XP; otherwise a right answer scores and earns
     * XP and a wrong one costs XP and is saved to the error bank.
     */
    method HandleAnswer(selected: int, env: HostInput)
      requires Valid()
      modifies this`timerRunning, this`answered, this`hits, this`misses, this`score, this`xp, this`storedXp,
        this`errors, this`storedErrors, this`pending
      ensures Valid()
      ensures !old(isGameActive) || old(answered) ==>
        unchanged(this`timerRunning, this`answered, this`hits, this`misses, this`score, this`xp, this`errors, this`pending)
      ensures old(isGameActive) && !old(answered) ==> timerRunning == (old(timerRunning) && !isRapidMode)
      ensures old(isGameActive) && !old(answered) && old(currentQuestion).None? ==>
        unchanged(this`answered, this`hits, this`misses, this`score, this`xp, this`errors, this`pending)
      ensures old(isGameActive) && !old(answered) && old(currentQuestion).Some? && old(isErrorTraining) ==>
        var q := old(currentQuestion).value;
        answered && pending == old(pending) + [NextOnly] && score == old(score) && xp == old(xp)
        && (selected == q.answer ==>
             hits == old(hits) + 1 && misses == old(misses)
             && errors == (if RemovesSource(q) then RemoveFirst(old(errors), q.sourceTimestamp.value) else old(errors)))
        && (selected != q.answer ==> hits == old(hits) && misses == old(misses) + 1 && errors == old(errors))
      ensures old(isGameActive) && !old(answered) && old(currentQuestion).Some? && !old(isErrorTraining) ==>
        var q := old(currentQuestion).value;
        answered && pending == old(pending) + [ResumeThenNext]
        && xp == old(xp) + AnswerXp(selected == q.answer, isRapidMode)
        && (selected == q.answer ==>
             hits == old(hits) + 1 && misses == old(misses)
             && score == old(score) + ScoreGain(isRapidMode, questionNumber) && errors == old(errors))
        && (selected != q.answer ==>
             hits == old(hits) && misses == old(misses) + 1 && score == old(score)
             && errors == [MistakeOf(q, selected, env.now)] + old(errors))
      ensures errors != old(errors) ==> storedErrors == Persisted(errors)
    {
      if isGameActive && !answered {
        if isRapidMode {
          StopTimer();
        }
        // reading the answer of a missing question throws: the handler stops there
        if currentQuestion.Some? {
          answered := true;
          if isErrorTraining {
            AnswerInTraining(currentQuestion.value, selected);
          } else {
            AnswerInRound(currentQuestion.value, selected, env.now);
          }
        }
      }
    }

    /** The host fires the pending callback at index `k`. */
    method Advance(k: nat, env: HostInput) returns (stalled: bool)
      requires Valid() && k < |pending|
      modifies this`pending, this`timerRunning, this`questionNumber, this`trainingQueue,
        this`currentQuestion, this`answered, this`isGameActive, this`isErrorTraining, this`result,
        this`highScores, this`storedHighScores
      ensures Valid()
      ensures ValidTable(old(highScores)) ==> ValidTable(highScores)
      ensures pending == old(pending)[..k] + old(pending)[k + 1..]
      ensures questionNumber == old(questionNumber) + 1 || !isGameActive
      ensures old(pending)[k] == ResumeThenNext && isRapidMode && isGameActive ==> timerRunning
      ensures old(pending)[k] == NextOnly && timerRunning ==> old(timerRunning)
      ensures RoundEnds(old(isErrorTraining), isRapidMode, old(questionNumber), totalQuestions) ==>
        !isGameActive
        && result == Some(Summary(old(score), old(hits), old(misses), old(xp), old(isRapidMode), old(currentLevel)))
        && RankingSaved(old(highScores), old(storedHighScores), highScores, storedHighScores, isRapidMode, NewRecord(score, currentOperation, currentLevel, env))
      ensures !RoundEnds(old(isErrorTraining), isRapidMode, old(questionNumber), totalQuestions) ==>
        unchanged(this`result, this`highScores, this`storedHighScores)
    {
      TakeCallback(k);
      stalled := NextQuestion(env);
    }

    /** The callback at index `k` leaves `pending`; `ResumeThenNext` restarts the countdown in Rapid mode. */
    method TakeCallback(k: nat)
      requires Valid() && k < |pending|
      modifies this`pending, this`timerRunning
      ensures Valid()
      ensures pending == old(pending)[..k] + old(pending)[k + 1..]
      ensures timerRunning == (old(timerRunning) || (old(pending)[k] == ResumeThenNext && isRapidMode))
    {
      var callback := pending[k];
      pending := pending[..k] + pending[k + 1..];
      if callback == ResumeThenNext && isRapidMode {
        StartTimer();
      }
    }

    /** The extend-time button: for 100 XP, 50 more ticks, never beyond the round's limit. */
    method ExtendTime() returns (extended: bool)
      requires Valid()
      modifies this`xp, this`storedXp, this`timeLeft
      ensures Valid()
      ensures extended <==> old(xp) >= ExtendCost
      ensures extended ==> xp == old(xp) - ExtendCost && timeLeft == Extended(old(timeLeft), maxTime, ExtendTicks)
      ensures !extended ==> xp == old(xp) && timeLeft == old(timeLeft)
    {
      if xp >= ExtendCost {
        xp, storedXp := xp - ExtendCost, xp - ExtendCost;
        timeLeft := Extended(timeLeft, maxTime, ExtendTicks);
        return true;
      }
      return false;
    }

    /**
     * The show-answer button: 250 XP outside error training, free in it.
     * The countdown stops, the answer buttons are disabled and the next
     * question (with the countdown restarted in Rapid mode) is scheduled.
     */
    method ShowAnswer() returns (shown: bool)
      requires Valid()
      modifies this`xp, this`storedXp, this`answered, this`timerRunning, this`pending
      ensures Valid()
      ensures !isErrorTraining && old(xp) < RevealCost ==>
        !shown && unchanged(this`xp, this`answered, this`timerRunning, this`pending)
      ensures isErrorTraining || old(xp) >= RevealCost ==>
        xp == old(xp) - (if isErrorTraining then 0 else RevealCost)
      ensures (isErrorTraining || old(xp) >= RevealCost) && currentQuestion.None? ==>
        !shown && unchanged(this`answered, this`timerRunning, this`pending)
      ensures (isErrorTraining || old(xp) >= RevealCost) && currentQuestion.Some? ==>
        shown && answered && !timerRunning && pending == old(pending) + [ResumeThenNext]
    {
      var training := isErrorTraining;
      var cost := if training then 0 else RevealCost;
      if !training && xp < cost {
        return false;
      }
      if !training {
        xp, storedXp := xp - cost, xp - cost;
      }
      if currentQuestion.None? {
        // reading the answer of a missing question throws: the handler stops here
        return false;
      }
      answered := true;
      StopTimer();
      pending := pending + [ResumeThenNext];
      shown := true;
    }

    /** The quit button: the countdown stops and the round is cancelled. */
    method Quit()
      modifies this`timerRunning, this`isGameActive
      ensures !timerRunning && !isGameActive
    {
      StopTimer();
      if isGameActive {
        isGameActive := false;
      }
    }

    /** A back-to-home button: the countdown stops; the round itself stays active. */
    method BackHome()
      modifies this`timerRunning
      ensures !timerRunning
    {
      StopTimer();
    }

    /** The training set-up of the start-training button: the queue is a copy of the whole error bank. */
    method BeginTraining()
      modifies this`isErrorTraining, this`trainingQueue, this`totalTraining, this`isGameActive
      ensures isErrorTraining && trainingQueue == errors && totalTraining == |errors| && isGameActive
    {
      isErrorTraining, trainingQueue, totalTraining, isGameActive := true, errors, |errors|, true;
    }

    /**
     * The start-training button: with saved mistakes, a training round over a
     * copy of the error bank begins (newest mistake first) and shows its
     * first question. Mode, time limit and countdown are left as they are.
     */
    method StartTraining(env: HostInput) returns (started: bool, stalled: bool)
      requires Valid()
      modifies this`isErrorTraining, this`score, this`questionNumber, this`hits, this`misses,
        this`trainingQueue, this`totalTraining, this`isGameActive, this`currentQuestion, this`answered
      ensures Valid()
      ensures old(errors) == [] ==> !started && !stalled && unchanged(this)
      ensures old(errors) != [] ==>
        started && isErrorTraining && isGameActive && score == 0 && hits == 0 && misses == 0
        && totalTraining == |old(errors)| && questionNumber == 1 && trainingQueue == old(errors)[1..]
        && (stalled <==> RebuildStalls(old(errors)[0], env.draws))
        && (stalled ==> unchanged(this`currentQuestion, this`answered))
        && (!stalled ==>
               !answered && currentQuestion.Some?
               && currentQuestion.value.text == Trim(old(errors)[0].question)
               && currentQuestion.value.operation == Some(old(errors)[0].operation.GetOr(""))
               && currentQuestion.value.sourceTimestamp == Some(old(errors)[0].timestamp)
               && currentQuestion.value.answer == old(errors)[0].correctAnswer
               && ValidOptions(currentQuestion.value.options, currentQuestion.value.answer,
                  TrainingSpread(currentQuestion.value.answer)))
    {
      if |errors| == 0 {
        started, stalled := false, false;
      } else {
        BeginTraining();
        ResetCounters();
        started := true;
        stalled := NextTrainingQuestion(env);
      }
    }
  }
}
