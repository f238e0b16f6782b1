/**
 * The pure rules of a round: question count and time limit, the countdown
 * arithmetic, the timer bar's bands, the score and XP for each answer, and
 * the summary shown when a round ends.
 */
module Round {

  /** A count or a time that the source may set to `Infinity`. */
  datatype Bound = Finite(n: int) | Unbounded

  /** Questions in a Rapid round. */
  const RapidQuestions: nat := 20
  /** XP cost and effect of the extend-time button. */
  const ExtendCost: int := 100
  const ExtendTicks: int := 50
  /** XP cost of the show-answer button outside error training. */
  const RevealCost: int := 250
  /** Minimum milliseconds between two alert sounds that are not forced. */
  const AlertCooldownMs: int := 1200

  /** `questionNumber >= totalQuestions`, where nothing reaches `Infinity`. */
  predicate Reached(questionNumber: int, total: Bound) {
    total.Finite? && questionNumber >= total.n
  }

  /** `timeLeft <= maxTime`, both finite or both `Infinity`. */
  predicate Within(t: Bound, m: Bound) {
    (t.Unbounded? && m.Unbounded?) || (t.Finite? && m.Finite? && t.n <= m.n)
  }

  /** Ticks allowed per level: easy 150, medium 300, advanced 450, anything else 300. */
  function BaseTime(level: string): (t: nat)
    ensures t == 150 || t == 300 || t == 450
    ensures t == 150 <==> level == "easy"
    ensures t == 450 <==> level == "advanced"
  {
    match level
    case "easy" => 150
    case "medium" => 300
    case "advanced" => 450
    case _ => 300
  }

  /**
   * `maxTime` for a new round: the level's ticks, doubled when voice reading or
   * the sign-language mode is on in a Rapid round; `Infinity` in Study mode.
   */
  function MaxTime(level: string, rapid: bool, accessible: bool): (m: Bound)
    ensures m.Unbounded? <==> !rapid
    ensures rapid && !accessible ==> m == Finite(BaseTime(level))
    ensures rapid && accessible ==> m == Finite(2 * BaseTime(level))
  {
    if !rapid then Unbounded
    else if accessible then Finite(BaseTime(level) * 2)
    else Finite(BaseTime(level))
  }

  /** `timeLeft--`; `Infinity - 1` is `Infinity`. */
  function Decrement(t: Bound): Bound {
    match t
    case Finite(n) => Finite(n - 1)
    case Unbounded => Unbounded
  }

  /**
   * One tick of the countdown never takes the time above the limit: a finite
   * count drops by exactly one and `Infinity` stays `Infinity`.
   */
  lemma CountdownStep(t: Bound, m: Bound)
    requires Within(t, m)
    ensures Within(Decrement(t), m)
    ensures t.Unbounded? ==> Decrement(t) == Unbounded
    ensures t.Finite? ==> Decrement(t).Finite? && Decrement(t).n == t.n - 1
  {
  }

  /** `Math.min(maxTime, timeLeft + amount)`. */
  function Extended(t: Bound, m: Bound, amount: int): (r: Bound)
    requires Within(t, m) && amount >= 0
    ensures Within(r, m)
    ensures t.Finite? ==> r.Finite? && r.n >= t.n && (r.n == t.n + amount || r.n == m.n)
    ensures t.Finite? ==> r.n <= t.n + amount
  {
    match t
    case Unbounded => Unbounded
    case Finite(n) => if m.n < n + amount then m else Finite(n + amount)
  }

  /** The timer bar's colour: below 25%, below 50%, or the rest. */
  datatype Band = Low | Middle | High

  /** `timeLeft` reached zero: the round is over (`Infinity <= 0` is false). */
  predicate Expired(t: Bound) {
    t.Finite? && t.n <= 0
  }

  /**
   * `(timeLeft / maxTime) * 100 < p` in JavaScript arithmetic, for a positive
   * `p`: a finite count over `Infinity` is 0, `Infinity / Infinity` is NaN
   * (every comparison false), and a division by zero gives an infinity with
   * the sign of the numerator.
   */
  predicate PercentBelow(t: Bound, m: Bound, p: nat)
    requires p > 0
  {
    match (t, m)
    case (Finite(a), Finite(b)) =>
      if b > 0 then 100 * a < p * b
      else if b == 0 then a < 0
      else 100 * a > p * b
    case (Finite(_), Unbounded) => true
    case (Unbounded, Finite(b)) => b < 0
    case (Unbounded, Unbounded) => false
  }

  /** The band of the timer bar after a tick. */
  function TimeBand(t: Bound, m: Bound): (b: Band)
    ensures b == Low <==> PercentBelow(t, m, 25)
    ensures b == High <==> !PercentBelow(t, m, 50)
  {
    if PercentBelow(t, m, 25) then Low
    else if PercentBelow(t, m, 50) then Middle
    else High
  }

  /** With a time limit and `timeLeft <= maxTime` the band is the plain integer comparison. */
  lemma TimeBandFinite(t: int, m: int)
    requires 0 < m
    ensures TimeBand(Finite(t), Finite(m)) == Low <==> 4 * t < m
    ensures TimeBand(Finite(t), Finite(m)) == High <==> 2 * t >= m
  {
  }

  /** In Study mode (no limit) the bar never leaves High. */
  lemma TimeBandStudy()
    ensures TimeBand(Unbounded, Unbounded) == High
  {
  }

  /** The percentage is below 10. */
  predicate BelowTenPercent(t: Bound, m: Bound) {
    PercentBelow(t, m, 10)
  }

  function BandRank(b: Band): nat {
    match b
    case Low => 0
    case Middle => 1
    case High => 2
  }

  /** As time runs down the bar only moves towards Low. */
  lemma BandMonotone(t1: int, t2: int, m: Bound)
    requires t1 <= t2 && (m.Unbounded? || m.n >= 0)
    ensures BandRank(TimeBand(Finite(t1), m)) <= BandRank(TimeBand(Finite(t2), m))
  {
  }

  /** Below 10% is inside the Low band, so the sound branch is only reached there. */
  lemma BelowTenIsLow(t: Bound, m: Bound)
    requires BelowTenPercent(t, m)
    ensures TimeBand(t, m) == Low
  {
  }

  /** Whether `playAlertSound(force)` plays at time `now`, given the last time it played. */
  predicate AlertAllowed(force: bool, now: int, lastAt: int) {
    force || now - lastAt >= AlertCooldownMs
  }

  /** Points for a correct answer: 20 times the question number in Rapid mode, 10 in Study mode. */
  function ScoreGain(rapid: bool, questionNumber: nat): nat {
    if rapid then 20 * questionNumber else 10
  }

  /** The XP change of one answer outside error training. */
  function AnswerXp(correct: bool, rapid: bool): int {
    if !correct then -2 else if rapid then 5 else 2
  }

  /** `xpGained` on the result screen: hits at 5 (Rapid) or 2 (Study), minus 2 per miss. */
  function XpGained(hits: nat, misses: nat, rapid: bool): int {
    (if rapid then 5 * hits else 2 * hits) - 2 * misses
  }

  function Count(outcomes: seq<bool>, b: bool): nat {
    if outcomes == [] then 0 else (if outcomes[0] == b then 1 else 0) + Count(outcomes[1..], b)
  }

  /** The XP that a run of answers adds, one `AnswerXp` at a time. */
  function XpOf(outcomes: seq<bool>, rapid: bool): int {
    if outcomes == [] then 0 else AnswerXp(outcomes[0], rapid) + XpOf(outcomes[1..], rapid)
  }

  /**
   * The result screen's `xpGained` equals what the answers of the round added
   * to XP (when no paid action was used).
   */
  lemma {:induction false} XpGainedMatchesAnswers(outcomes: seq<bool>, rapid: bool)
    ensures XpOf(outcomes, rapid) == XpGained(Count(outcomes, true), Count(outcomes, false), rapid)
  {
    if outcomes != [] {
      XpGainedMatchesAnswers(outcomes[1..], rapid);
    }
  }

  /** The three study suggestions of the result screen. */
  datatype Suggestion = RecommendStudy | Congratulate | KeepPracticing

  /**
   * `erros > acertos / 2` (a real division) recommends Study mode; otherwise a
   * score above 1000 at the advanced level earns congratulations.
   */
  function SuggestionFor(hits: nat, misses: nat, score: int, level: string): (s: Suggestion)
    ensures s == RecommendStudy <==> 2 * misses > hits
    ensures s == Congratulate <==> 2 * misses <= hits && score > 1000 && level == "advanced"
  {
    if 2 * misses > hits then RecommendStudy
    else if score > 1000 && level == "advanced" then Congratulate
    else KeepPracticing
  }
}
