/**
 * The question generator: operands for the six operations, three distractors
 * near the answer, and a Fisher-Yates shuffle of the four options. A second
 * generator turns a saved mistake back into a question.
 *
 * `Math.random` is replaced by a sequence of draws: each call of `randomInt`
 * consumes one draw. When the draws run out before the options are complete,
 * the generators return None (the browser would still be drawing).
 */
module Generator {
  import opened Wrappers
  import opened Text
  import Superscript
  import opened ErrorBank

  /** A question as the quiz shows it and checks it. */
  datatype Question = Question(
    text: string,
    answer: int,
    options: seq<int>,
    operation: Option<string>,
    num1: Option<int>,
    num2: Option<int>,
    sourceTimestamp: Option<int>)

  /** What `generateQuestion` returns for an operation it does not know. */
  const Fallback: Question := Question("Erro", 0, [0, 1, 2, 3], None, None, None, None)

  predicate IsOperation(op: string) {
    op == "addition" || op == "subtraction" || op == "multiplication"
    || op == "division" || op == "potenciacao" || op == "radiciacao"
  }

  /** The level's difficulty multiplier; unknown levels count as easy. */
  function DiffFactor(level: string): (d: int)
    ensures 1 <= d <= 3
    ensures d == 2 <==> level == "medium"
    ensures d == 3 <==> level == "advanced"
  {
    match level
    case "easy" => 1
    case "medium" => 2
    case "advanced" => 3
    case _ => 1
  }

  /** `randomInt(lo, hi)` fed with one draw of the random source. */
  function RandomInt(lo: int, hi: int, draw: int): (r: int)
    requires lo <= hi
    ensures lo <= r <= hi
  {
    lo + draw % (hi - lo + 1)
  }

  /** Every value of the range is produced by some draw. */
  lemma RandomIntCovers(lo: int, hi: int, v: int)
    requires lo <= v <= hi
    ensures RandomInt(lo, hi, v - lo) == v
  {
  }

  function Abs(x: int): (r: nat)
    ensures r == x || r == -x
  {
    if x < 0 then -x else x
  }

  function Pow(b: int, e: nat): (r: int)
    ensures b >= 1 ==> r >= 1
  {
    if e == 0 then 1 else
      var p := Pow(b, e - 1);
      assert b >= 1 ==> b * p >= p;
      b * p
  }

  /** `Math.max(1, Math.round(Math.abs(answer) * 0.1))`, with halves rounded up. */
  function OptionSpread(answer: int): (k: int)
    ensures k >= 1
    ensures k == 1 || 10 * k - 5 <= Abs(answer) < 10 * k + 5
    ensures k == 1 ==> Abs(answer) < 15
  {
    var r := (Abs(answer) + 5) / 10;
    if r < 1 then 1 else r
  }

  /** `Math.max(2, Math.round(Math.abs(answer) * 0.15))`, with halves rounded up. */
  function TrainingSpread(answer: int): (k: int)
    ensures k >= 2
    ensures k == 2 || 20 * k - 10 <= 3 * Abs(answer) < 20 * k + 10
    ensures k == 2 ==> 3 * Abs(answer) < 50
  {
    var r := (3 * Abs(answer) + 10) / 20;
    if r < 2 then 2 else r
  }

  predicate Distinct(s: seq<int>) {
    forall i, j :: 0 <= i < j < |s| ==> s[i] != s[j]
  }

  /**
   * The promise about an option list: four different values, one of them the
   * answer, every other one a non-negative number within `5 * spread` of it.
   */
  predicate ValidOptions(options: seq<int>, answer: int, spread: int) {
    && |options| == 4
    && answer in options
    && Distinct(options)
    && forall k :: 0 <= k < |options| ==>
         options[k] == answer || (0 <= options[k] && Abs(options[k] - answer) <= 5 * spread)
  }

  /**
   * The distractor loop as a function of the draws: while fewer than four
   * options are held and a draw is left, the draw gives the candidate
   * `answer + randomInt(-5 * spread, 5 * spread)`, which is appended when it is
   * non-negative and not yet an option. The result is the options and the
   * index of the first draw not used.
   */
  function Distractors(answer: int, spread: int, draws: seq<int>, pos: nat, options: seq<int>): (seq<int>, nat)
    requires spread >= 1 && pos <= |draws|
    decreases |draws| - pos
  {
    if |options| >= 4 || pos == |draws| then (options, pos)
    else
      var incorrect := answer + RandomInt(-5 * spread, 5 * spread, draws[pos]);
      var grown := if incorrect >= 0 && incorrect !in options then options + [incorrect] else options;
      Distractors(answer, spread, draws, pos + 1, grown)
  }

  /**
   * The distractor loop: start from `[answer]` and keep drawing
   * `answer + randomInt(-5 * spread, 5 * spread)`, adding a candidate only when
   * it is non-negative and not yet present, until there are four options.
   */
  method FillOptions(answer: int, spread: int, draws: seq<int>, pos: nat) returns (options: seq<int>, next: nat)
    requires spread >= 1 && pos <= |draws|
    ensures (options, next) == Distractors(answer, spread, draws, pos, [answer])
    ensures pos <= next <= |draws|
    ensures 1 <= |options| <= 4 && options[0] == answer && Distinct(options)
    ensures forall k :: 1 <= k < |options| ==> 0 <= options[k] && Abs(options[k] - answer) <= 5 * spread
    ensures |options| < 4 ==> next == |draws|
  {
    options := [answer];
    next := pos;
    while |options| < 4 && next < |draws|
      invariant pos <= next <= |draws|
      invariant 1 <= |options| <= 4 && options[0] == answer && Distinct(options)
      invariant forall k :: 1 <= k < |options| ==> 0 <= options[k] && Abs(options[k] - answer) <= 5 * spread
      invariant Distractors(answer, spread, draws, next, options) == Distractors(answer, spread, draws, pos, [answer])
      decreases |draws| - next
    {
      var incorrect := answer + RandomInt(-5 * spread, 5 * spread, draws[next]);
      next := next + 1;
      // `incorrect !== answer` in `generateQuestion` is implied: the answer is options[0].
      if incorrect >= 0 && incorrect !in options {
        options := options + [incorrect];
      }
    }
  }

  /**
   * The options cannot be completed from the draws at `pos`: the loop runs out
   * of draws before it holds four options, or fewer than the three draws the
   * shuffle of four options needs are left after it.
   */
  predicate OptionsStall(answer: int, spread: int, draws: seq<int>, pos: nat)
    requires spread >= 1 && pos <= |draws|
  {
    var (options, next) := Distractors(answer, spread, draws, pos, [answer]);
    |options| < 4 || |draws| - next < 3
  }

  /** One turn of the distractor loop that adds its candidate `c`. */
  lemma DistractorsAdds(answer: int, spread: int, draws: seq<int>, pos: nat, options: seq<int>, c: int)
    requires spread >= 1 && pos < |draws| && |options| < 4
    requires c == answer + RandomInt(-5 * spread, 5 * spread, draws[pos]) && c >= 0 && c !in options
    ensures Distractors(answer, spread, draws, pos, options) == Distractors(answer, spread, draws, pos + 1, options + [c])
  {
  }

  /**
   * Any non-negative answer gets its options from six suitable draws: three
   * that give `answer + 1`, `answer + 2` and `answer + 3`, then any three for
   * the shuffle.
   */
  lemma OptionsCanComplete(answer: int, spread: int, draws: seq<int>, pos: nat)
    requires answer >= 0 && spread >= 1 && pos + 6 <= |draws|
    requires draws[pos] == 5 * spread + 1 && draws[pos + 1] == 5 * spread + 2 && draws[pos + 2] == 5 * spread + 3
    ensures !OptionsStall(answer, spread, draws, pos)
  {
    var s := 5 * spread;
    RandomIntCovers(-s, s, 1);
    RandomIntCovers(-s, s, 2);
    RandomIntCovers(-s, s, 3);
    DistractorsAdds(answer, spread, draws, pos, [answer], answer + 1);
    DistractorsAdds(answer, spread, draws, pos + 1, [answer, answer + 1], answer + 2);
    DistractorsAdds(answer, spread, draws, pos + 2, [answer, answer + 1, answer + 2], answer + 3);
    assert [answer] + [answer + 1] == [answer, answer + 1];
    assert [answer, answer + 1] + [answer + 2] == [answer, answer + 1, answer + 2];
  }

  lemma SwapKeepsDistinct(s: seq<int>, i: int, j: int)
    requires 0 <= i < |s| && 0 <= j < |s| && Distinct(s)
    ensures Distinct(s[i := s[j]][j := s[i]])
  {
    var t := s[i := s[j]][j := s[i]];
    forall p, q | 0 <= p < q < |t|
      ensures t[p] != t[q]
    {
      var sp := if p == i then j else if p == j then i else p;
      var sq := if q == i then j else if q == j then i else q;
      assert t[p] == s[sp] && t[q] == s[sq] && sp != sq;
    }
  }

  /**
   * Fisher-Yates in place: for i from the last index down to 1, swap a[i] with
   * a[randomInt(0, i)]. `done` is false when the draws ran out part way, which
   * happens exactly when fewer than `a.Length - 1` draws are left.
   */
  method Shuffle(a: array<int>, draws: seq<int>, pos: nat) returns (next: nat, done: bool)
    requires pos <= |draws|
    modifies a
    ensures done <==> |draws| - pos >= a.Length - 1
    ensures pos <= next <= |draws|
    ensures multiset(a[..]) == multiset(old(a[..]))
    ensures Distinct(old(a[..])) ==> Distinct(a[..])
    ensures done ==> next == pos + (if a.Length == 0 then 0 else a.Length - 1)
    ensures !done ==> next == |draws|
  {
    next := pos;
    var i := a.Length - 1;
    while i > 0
      invariant a.Length == 0 ==> i == -1 && next == pos
      invariant a.Length > 0 ==> 0 <= i < a.Length && next == pos + (a.Length - 1 - i)
      invariant pos <= next <= |draws|
      invariant multiset(a[..]) == multiset(old(a[..]))
      invariant Distinct(old(a[..])) ==> Distinct(a[..])
    {
      if next == |draws| {
        return next, false;
      }
      var j := RandomInt(0, i, draws[next]);
      next := next + 1;
      ghost var before := a[..];
      a[i], a[j] := a[j], a[i];
      assert a[..] == before[i := before[j]][j := before[i]];
      if Distinct(before) {
        SwapKeepsDistinct(before, i, j);
      }
      i := i - 1;
    }
    done := true;
  }

  /** A permutation of a valid option list is a valid option list. */
  lemma PermutationKeepsOptions(s: seq<int>, t: seq<int>, answer: int, spread: int)
    requires ValidOptions(s, answer, spread)
    requires multiset(s) == multiset(t) && Distinct(t)
    ensures ValidOptions(t, answer, spread)
  {
    assert |t| == |multiset(t)| == |multiset(s)| == |s|;
    assert answer in multiset(s);
    forall k | 0 <= k < |t|
      ensures t[k] == answer || (0 <= t[k] && Abs(t[k] - answer) <= 5 * spread)
    {
      assert t[k] in multiset(t);
      assert t[k] in s;
    }
  }

  /** The options loop and the shuffle, shared by both generators. */
  method MakeOptions(answer: int, spread: int, draws: seq<int>, pos: nat) returns (options: Option<seq<int>>)
    requires spread >= 1 && pos <= |draws|
    ensures options.None? <==> OptionsStall(answer, spread, draws, pos)
    ensures options.Some? ==> ValidOptions(options.value, answer, spread)
    ensures options.Some? ==> multiset(options.value) == multiset(Distractors(answer, spread, draws, pos, [answer]).0)
  {
    var opts, next := FillOptions(answer, spread, draws, pos);
    if |opts| < 4 {
      return None;
    }
    assert ValidOptions(opts, answer, spread);
    var a := new int[4](k requires 0 <= k < 4 => opts[k]);
    assert a[..] == opts;
    var _, done := Shuffle(a, draws, next);
    if !done {
      return None;
    }
    PermutationKeepsOptions(opts, a[..], answer, spread);
    options := Some(a[..]);
  }

  /** The prompt before " = ?", as `generateQuestion` writes it for each operation. */
  function Prompt(op: string, num1: int, num2: Option<int>): string {
    match op
    case "addition" => IntToString(num1) + " + " + IntToString(num2.GetOr(0))
    case "subtraction" => IntToString(num1) + " - " + IntToString(num2.GetOr(0))
    case "multiplication" => IntToString(num1) + " x " + IntToString(num2.GetOr(0))
    case "division" => IntToString(num1) + " ÷ " + IntToString(num2.GetOr(0))
    case "potenciacao" => IntToString(num1) + Superscript.ToSuperscript(num2.GetOr(0))
    case _ => "√" + IntToString(num1)
  }

  /** The ranges each operation draws from at multiplier `d`, and how the answer follows from the operands. */
  predicate OperandsFit(op: string, d: int, num1: int, num2: Option<int>, answer: int) {
    match op
    case "addition" =>
      num2.Some? && 10 * d <= num1 <= 50 * d && 5 * d <= num2.value <= 25 * d && answer == num1 + num2.value
    case "subtraction" =>
      num2.Some? && 20 * d <= num1 <= 80 * d && 5 * d <= num2.value <= num1 - 10 * d && answer == num1 - num2.value
    case "multiplication" =>
      num2.Some? && 2 <= num1 <= (if d < 3 then 12 else 25) && 2 <= num2.value <= (if d < 3 then 10 else 15)
      && answer == num1 * num2.value
    case "division" =>
      num2.Some? && 2 <= num2.value <= (if d < 3 then 8 else 12) && 2 <= answer <= (if d < 3 then 10 else 20)
      && num1 == num2.value * answer
    case "potenciacao" =>
      num2.Some? && 2 <= num1 <= (if d < 3 then 5 else 8) && 2 <= num2.value <= (if d < 3 then 4 else 5)
      && answer == Pow(num1, num2.value)
    case _ =>
      num2.None? && 2 <= answer <= (if d < 3 then 12 else 15) && num1 == answer * answer
  }

  /** Everything `generateQuestion` promises about a question for a known operation. */
  predicate Generated(q: Question, op: string, d: int) {
    && q.operation == Some(op)
    && q.sourceTimestamp.None?
    && q.num1.Some?
    && OperandsFit(op, d, q.num1.value, q.num2, q.answer)
    && q.text == Prompt(op, q.num1.value, q.num2) + " = ?"
    && q.answer >= 0
    && ValidOptions(q.options, q.answer, OptionSpread(q.answer))
    && forall k :: 0 <= k < |q.options| ==> q.options[k] >= 0
  }

  /** Facts that follow from the operand construction, the ones the quiz depends on. */
  lemma OperandFacts(op: string, d: int, num1: int, num2: Option<int>, answer: int)
    requires IsOperation(op) && 1 <= d <= 3 && OperandsFit(op, d, num1, num2, answer)
    ensures answer >= 0
    ensures op == "subtraction" ==> answer >= 10 * d
    ensures op == "division" ==> num2.value >= 2 && num1 == num2.value * answer
    ensures op == "radiciacao" ==> num1 == answer * answer
    ensures op == "potenciacao" ==> answer >= 1
  {
  }

  /** How many draws the operands of `op` use: one for the square root, two otherwise. */
  function OperandDraws(op: string): nat {
    if op == "radiciacao" then 1 else 2
  }

  /**
   * The `switch (operation)` of `generateQuestion`: the operands drawn for `op`
   * at multiplier `d`, as `(num1, num2, answer)`.
   */
  function DrawOperands(op: string, d: int, draws: seq<int>): (r: (int, Option<int>, int))
    requires IsOperation(op) && 1 <= d <= 3 && |draws| >= OperandDraws(op)
    ensures OperandsFit(op, d, r.0, r.1, r.2)
  {
    match op
    case "addition" =>
      var n1 := RandomInt(10 * d, 50 * d, draws[0]);
      var n2 := RandomInt(5 * d, 25 * d, draws[1]);
      (n1, Some(n2), n1 + n2)
    case "subtraction" =>
      var n1 := RandomInt(20 * d, 80 * d, draws[0]);
      var n2 := RandomInt(5 * d, n1 - 10 * d, draws[1]);
      (n1, Some(n2), n1 - n2)
    case "multiplication" =>
      var n1 := RandomInt(2, if d < 3 then 12 else 25, draws[0]);
      var n2 := RandomInt(2, if d < 3 then 10 else 15, draws[1]);
      (n1, Some(n2), n1 * n2)
    case "division" =>
      var divisor := RandomInt(2, if d < 3 then 8 else 12, draws[0]);
      var quotient := RandomInt(2, if d < 3 then 10 else 20, draws[1]);
      (divisor * quotient, Some(divisor), quotient)
    case "potenciacao" =>
      var n1 := RandomInt(2, if d < 3 then 5 else 8, draws[0]);
      var n2 := RandomInt(2, if d < 3 then 4 else 5, draws[1]);
      (n1, Some(n2), Pow(n1, n2))
    case _ =>
      var answer := RandomInt(2, if d < 3 then 12 else 15, draws[0]);
      (answer * answer, None, answer)
  }

  /**
   * `generateQuestion` cannot finish with `draws` for a known operation: too few
   * draws for the operands, or the options cannot be completed after them.
   */
  predicate GenerateStalls(op: string, level: string, draws: seq<int>)
    requires IsOperation(op)
  {
    || |draws| < OperandDraws(op)
    || (var answer := DrawOperands(op, DiffFactor(level), draws).2;
        OptionsStall(answer, OptionSpread(answer), draws, OperandDraws(op)))
  }

  /**
   * `generateQuestion(operation)` at the level whose multiplier is
   * `DiffFactor(level)`: the operands first, then the options.
   */
  method GenerateQuestion(operation: string, level: string, draws: seq<int>) returns (q: Option<Question>)
    ensures !IsOperation(operation) ==> q == Some(Fallback)
    ensures IsOperation(operation) ==> (q.None? <==> GenerateStalls(operation, level, draws))
    ensures IsOperation(operation) && q.Some? ==> Generated(q.value, operation, DiffFactor(level))
    ensures IsOperation(operation) && q.Some? ==>
      |draws| >= OperandDraws(operation) && q.value.num1.Some?
      && (q.value.num1.value, q.value.num2, q.value.answer) == DrawOperands(operation, DiffFactor(level), draws)
  {
    if !IsOperation(operation) {
      return Some(Fallback);
    }
    var d := DiffFactor(level);
    var need := OperandDraws(operation);
    if |draws| < need {
      return None;
    }
    var (num1, num2, answer) := DrawOperands(operation, d, draws);
    OperandFacts(operation, d, num1, num2, answer);
    var options := MakeOptions(answer, OptionSpread(answer), draws, need);
    if options.None? {
      return None;
    }
    q := Some(Question(Prompt(operation, num1, num2) + " = ?", answer, options.value,
                       Some(operation), Some(num1), num2, None));
  }

  /** `buildQuestionFromSavedError` cannot finish with `draws`: the options cannot be completed. */
  predicate RebuildStalls(err: ErrorRecord, draws: seq<int>) {
    OptionsStall(err.correctAnswer, TrainingSpread(err.correctAnswer), draws, 0)
  }

  /**
   * `buildQuestionFromSavedError`: the saved prompt (trimmed), the saved answer,
   * the wider distractor spread, and a back-reference to the record's timestamp.
   */
  method BuildQuestionFromSavedError(err: ErrorRecord, draws: seq<int>) returns (q: Option<Question>)
    ensures q.None? <==> RebuildStalls(err, draws)
    ensures q.Some? ==> q.value.text == Trim(err.question) && q.value.answer == err.correctAnswer
    ensures q.Some? ==> q.value.operation == Some(err.operation.GetOr(""))
    ensures q.Some? ==> q.value.sourceTimestamp == Some(err.timestamp)
    ensures q.Some? ==> q.value.num1.None? && q.value.num2.None?
    ensures q.Some? ==> ValidOptions(q.value.options, err.correctAnswer, TrainingSpread(err.correctAnswer))
  {
    var answer := err.correctAnswer;
    var options := MakeOptions(answer, TrainingSpread(answer), draws, 0);
    if options.None? {
      return None;
    }
    q := Some(Question(Trim(err.question), answer, options.value,
                       Some(err.operation.GetOr("")), None, None, Some(err.timestamp)));
  }
}
