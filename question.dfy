/**
 * One arithmetic question: an operator between two numbers, the user's answer
 * and the correct answer (class `Question` of mathtest.py).
 */
module MathQuestion {
  import opened Wrappers
  import opened PyText

  /** The operators a fresh `Question()` allows, in the order it lists them. */
  const DefaultOperators: seq<string> := ["/", "*", "+", "-"]

  /** `user_answer`: never set (`None`), the skip sentinel `''`, or the integer typed. */
  datatype Answer = Unanswered | Skipped | Given(value: int)

  /** Why evaluating the formula raises: it is not `<int> <op> <int>` for a known `op`, or it divides by zero. */
  datatype EvalError = NotEvaluable | DivisionByZero

  /** Why `_rand_question` raises: `randint(0, -1)` on an empty operator list. */
  datatype GenerateError = EmptyOperatorList

  /** The attributes of a question as values; an archived (deep-copied) question is one of these. */
  datatype QuestionState = QuestionState(
    operator: Option<string>,
    firstNumber: Option<int>,
    secondNumber: Option<int>,
    userAnswer: Answer,
    correctAnswer: Option<int>,
    validOperators: seq<string>)

  /** A question after `reset`: everything unset except the allowed operators. */
  function Blank(validOperators: seq<string>): QuestionState {
    QuestionState(None, None, None, Unanswered, None, validOperators)
  }

  function Abs(x: int): nat {
    if x < 0 then -x else x
  }

  /** `int(a / b)` in Python 3: true division, then truncation toward zero. */
  function TruncatedDivision(a: int, b: int): (q: int)
    requires b != 0
    ensures Abs(q) == Abs(a) / Abs(b)
    ensures q > 0 ==> (a > 0 <==> b > 0)
    ensures q < 0 ==> (a > 0 <==> b < 0)
  {
    var m := Abs(a) / Abs(b);
    DivisionOfNaturals(Abs(a), Abs(b));
    if (a < 0) == (b < 0) then m else -m
  }

  lemma DivisionOfNaturals(x: nat, y: nat)
    requires y > 0
    ensures x / y >= 0
    ensures x / y > 0 ==> x > 0
  {
  }

  /**
   * The value of `first op second` for the four operators, the way `_evaluate`
   * computes it: a missing operand or another operator cannot be evaluated, and
   * `/` by zero raises.
   */
  function Arith(op: Option<string>, a: Option<int>, b: Option<int>): (r: Result<int, EvalError>)
    ensures r.Success? <==>
              op.Some? && op.value in DefaultOperators && a.Some? && b.Some? && !(op.value == "/" && b.value == 0)
    ensures r == Failure(DivisionByZero) <==> op == Some("/") && a.Some? && b == Some(0)
  {
    if op.None? || a.None? || b.None? then Failure(NotEvaluable)
    else if op.value == "+" then Success(a.value + b.value)
    else if op.value == "-" then Success(a.value - b.value)
    else if op.value == "*" then Success(a.value * b.value)
    else if op.value == "/" then
      if b.value == 0 then Failure(DivisionByZero) else Success(TruncatedDivision(a.value, b.value))
    else Failure(NotEvaluable)
  }

  /** The operand ranges `_rand_question` draws from, per operator. */
  predicate Generable(op: string, a: int, b: int) {
    if op == "*" then 0 <= a <= 9 && 0 <= b <= 9
    else if op == "/" then 1 <= b <= 9 && 0 <= a && a % b == 0 && a / b <= 9
    else if op == "+" then 0 <= a <= 19 && 0 <= b <= 19
    else if op == "-" then 4 <= a <= 19 && 0 <= b <= a
    else false
  }

  /** `_check`: both operands set and the operator one this question allows. */
  predicate Check(q: QuestionState): (b: bool)
    ensures b ==> q.validOperators != []
    ensures b ==> (Arith(q.operator, q.firstNumber, q.secondNumber) == Failure(NotEvaluable) <==>
                   ShowOperator(q.operator) !in DefaultOperators)
  {
    q.firstNumber.Some? && q.secondNumber.Some? && q.operator.Some? && q.operator.value in q.validOperators
  }

  /** `evaluate`: Python's `user_answer == correct_answer` across `None`, `''` and integers. */
  function Evaluate(q: QuestionState): bool {
    match q.userAnswer
    case Unanswered => q.correctAnswer.None?
    case Skipped => false
    case Given(n) => q.correctAnswer == Some(n)
  }

  /**
   * Once `_evaluate` has set the correct answer to the value of the formula, the
   * question is right exactly when the user gave that integer; a skip or an
   * unset answer is then never right.
   */
  lemma EvaluateAfterCompute(q: QuestionState)
    requires Arith(q.operator, q.firstNumber, q.secondNumber).Success?
    ensures var v := Arith(q.operator, q.firstNumber, q.secondNumber).value;
            Evaluate(q.(correctAnswer := Some(v))) <==> q.userAnswer == Given(v)
  {
  }

  /** A question after `reset` counts as right: its unset answer equals its unset correct answer. */
  lemma EvaluateBlank(validOperators: seq<string>)
    ensures Evaluate(Blank(validOperators))
  {
  }

  function Show(x: Option<int>): string {
    if x.None? then "None" else Decimal(x.value)
  }

  function ShowOperator(op: Option<string>): string {
    if op.None? then "None" else op.value
  }

  /**
   * `__str__`: the text `"<first> <op> <second> = "`. With `=` removed it splits
   * into exactly the three words for the first number, the operator and the
   * second number, each operand reading back as the value it shows.
   */
  function Formula(q: QuestionState): (r: string)
    ensures PlainOperator(q.operator) ==>
              Words(Remove(r, '=')) == [Show(q.firstNumber), ShowOperator(q.operator), Show(q.secondNumber)]
    ensures ParseInt(Show(q.firstNumber)) == q.firstNumber && ParseInt(Show(q.secondNumber)) == q.secondNumber
  {
    var a, o, b := Show(q.firstNumber), ShowOperator(q.operator), Show(q.secondNumber);
    ShowRoundTrip(q.firstNumber);
    ShowRoundTrip(q.secondNumber);
    assert PlainOperator(q.operator) ==> Words(Remove(a + " " + o + " " + b + " = ", '=')) == [a, o, b] by {
      if PlainOperator(q.operator) {
        RemoveEqualsFromFormula(a, o, b);
        WordsOfFormula(a, o, b);
      }
    }
    a + " " + o + " " + b + " = "
  }

  /** `human_readable`: the formula with `*` shown as `×` and `/` as `÷`, character for character. */
  function HumanReadable(q: QuestionState): (r: string)
    ensures |r| == |Formula(q)|
    ensures '*' !in r && '/' !in r
    ensures forall i :: 0 <= i < |r| && Formula(q)[i] != '*' && Formula(q)[i] != '/' ==> r[i] == Formula(q)[i]
  {
    Translate(Formula(q))
  }

  /**
   * What `eval` makes of a text `<int> <op> <int>` (blank-separated); anything
   * else is not evaluable here. A value comes only from three words whose middle
   * one is an operator and whose outer ones are integers.
   */
  function EvalText(text: string): (r: Result<int, EvalError>)
    ensures r.Success? ==>
              |Words(text)| == 3 && Words(text)[1] in DefaultOperators &&
              ParseInt(Words(text)[0]).Some? && ParseInt(Words(text)[2]).Some?
    ensures |Words(text)| != 3 ==> r == Failure(NotEvaluable)
  {
    var words := Words(text);
    if |words| != 3 then Failure(NotEvaluable)
    else Arith(Some(words[1]), ParseInt(words[0]), ParseInt(words[2]))
  }

  /** An operator whose formula text `eval` splits into three words. */
  predicate PlainOperator(op: Option<string>) {
    op.Some? ==> op.value != [] && ' ' !in op.value && '=' !in op.value
  }

  lemma ShowRoundTrip(x: Option<int>)
    ensures ParseInt(Show(x)) == x
    ensures Show(x) != [] && ' ' !in Show(x) && '=' !in Show(x)
  {
    if x.Some? {
      DecimalRoundTrip(x.value);
    }
  }

  /** Removing `=` from `"<a> <o> <b> = "` leaves `"<a> <o> <b>  "` when the parts hold no `=`. */
  lemma RemoveEqualsFromFormula(a: string, o: string, b: string)
    requires '=' !in a && '=' !in o && '=' !in b
    ensures Remove(a + " " + o + " " + b + " = ", '=') == a + " " + o + " " + b + "  "
  {
    var body := a + " " + o + " " + b;
    assert '=' !in body by {
      forall i | 0 <= i < |body| ensures body[i] != '=' {
        if i < |a| { assert body[i] == a[i]; }
        else if i == |a| { }
        else if i < |a| + 1 + |o| { assert body[i] == o[i - |a| - 1]; }
        else if i == |a| + 1 + |o| { }
        else { assert body[i] == b[i - |a| - 2 - |o|]; }
      }
    }
    RemoveAppend(body, " = ", '=');
    RemoveAbsent(body, '=');
    assert Remove(" = ", '=') == "  ";
  }

  /** `"<a> <o> <b>  "` splits into the three words `a`, `o`, `b`. */
  lemma WordsOfFormula(a: string, o: string, b: string)
    requires a != [] && o != [] && b != []
    requires ' ' !in a && ' ' !in o && ' ' !in b
    ensures Words(a + " " + o + " " + b + "  ") == [a, o, b]
  {
    var r2 := b + " " + " ";
    var r1 := o + " " + r2;
    WordsOfBlank();
    WordsCons(b, " ");
    assert Words(r2) == [b];
    WordsCons(o, r2);
    assert Words(r1) == [o, b];
    WordsCons(a, r1);
    assert Words(a + " " + r1) == [a, o, b];
    ConcatFormula(a, o, b);
  }

  lemma WordsOfBlank()
    ensures Words(" ") == []
  {
    assert " "[1..] == [];
  }

  lemma ConcatFormula(a: string, o: string, b: string)
    ensures a + " " + o + " " + b + "  " == a + " " + (o + " " + (b + " " + " "))
  {
  }

  /**
   * Evaluating the formula text with `=` removed, as `_evaluate` does, gives
   * exactly `Arith` of the operator and operands: the string round trip
   * through `eval` is ordinary integer arithmetic.
   */
  lemma EvalOfFormula(q: QuestionState)
    requires PlainOperator(q.operator)
    ensures EvalText(Remove(Formula(q), '=')) == Arith(q.operator, q.firstNumber, q.secondNumber)
  {
    var o := ShowOperator(q.operator);
    assert Words(Remove(Formula(q), '=')) == [Show(q.firstNumber), o, Show(q.secondNumber)];
    assert ShowOperator(q.operator) == "None" ==> Arith(Some(o), q.firstNumber, q.secondNumber) == Failure(NotEvaluable);
  }

  /** The divisor of a generated division is at least 1 and divides exactly, with a quotient in [0, 9]. */
  lemma GeneratedDivision(a: int, b: int)
    requires Generable("/", a, b)
    ensures b != 0 && a % b == 0
    ensures Arith(Some("/"), Some(a), Some(b)) == Success(a / b)
    ensures 0 <= a / b <= 9 && (a / b) * b == a
  {
  }

  /** Every product `b * k` with `b` in [1, 9] and `k` in [0, 9], as `_rand_question` builds it, is a generable division. */
  lemma DivisionReachable(b: int, k: int)
    requires 1 <= b <= 9 && 0 <= k <= 9
    ensures Generable("/", b * k, b)
    ensures Arith(Some("/"), Some(b * k), Some(b)) == Success(k)
  {
    ProductDivision(b, k);
    assert TruncatedDivision(b * k, b) == k;
  }

  /** Dividing `b * k` by a positive `b` gives back `k` exactly. */
  lemma ProductDivision(b: int, k: int)
    requires b > 0 && k >= 0
    ensures (b * k) / b == k && (b * k) % b == 0
  {
    var q, r := (b * k) / b, (b * k) % b;
    assert b * k == b * q + r && 0 <= r < b;
    assert b * (k - q) == r;
    MultipleBound(b, k - q);
  }

  /** A non-zero multiple of a positive `b` is at least `b` away from zero. */
  lemma MultipleBound(b: int, d: int)
    requires b > 0
    ensures d >= 1 ==> b * d >= b
    ensures d <= -1 ==> b * d <= -b
  {
  }

  /** A generated subtraction never goes below zero. */
  lemma GeneratedSubtraction(a: int, b: int)
    requires Generable("-", a, b)
    ensures Arith(Some("-"), Some(a), Some(b)) == Success(a - b)
    ensures 0 <= a - b <= 19
  {
  }

  /** Every generated question evaluates, and its answer lies in the operator's range. */
  lemma GeneratedEvaluates(op: string, a: int, b: int)
    requires Generable(op, a, b)
    ensures op in DefaultOperators
    ensures Arith(Some(op), Some(a), Some(b)).Success?
    ensures 0 <= Arith(Some(op), Some(a), Some(b)).value <= MaxAnswer(op)
  {
  }

  /** The largest correct answer a generated question can have. */
  function MaxAnswer(op: string): int {
    if op == "*" then 81 else if op == "/" then 9 else if op == "+" then 38 else 19
  }

  /** The human-readable text of a question differs from its formula only at the operator. */
  lemma HumanReadableOfFormula(q: QuestionState)
    ensures HumanReadable(q)
         == Show(q.firstNumber) + " " + Translate(ShowOperator(q.operator)) + " " + Show(q.secondNumber) + " = "
  {
    var a, o, b := Show(q.firstNumber), ShowOperator(q.operator), Show(q.secondNumber);
    ShowRoundTrip(q.firstNumber);
    ShowRoundTrip(q.secondNumber);
    var s1 := a + " ";
    var s2 := s1 + o;
    var s3 := s2 + " ";
    var s4 := s3 + b;
    TranslateAppend(s4, " = ");
    TranslateAppend(s3, b);
    TranslateAppend(s2, " ");
    TranslateAppend(s1, o);
    TranslateAppend(a, " ");
    TranslateIdentity(a);
    TranslateIdentity(b);
    TranslateIdentity(" ");
    TranslateIdentity(" = ");
  }

  class Question {
    var operator: Option<string>
    var firstNumber: Option<int>
    var secondNumber: Option<int>
    var userAnswer: Answer
    var correctAnswer: Option<int>
    var validOperators: seq<string>

    /** `Question(**kwargs)`: each attribute from its keyword argument or its default. */
    constructor (operator: Option<string>, firstNumber: Option<int>, secondNumber: Option<int>,
                 userAnswer: Answer, correctAnswer: Option<int>, validOperators: Option<seq<string>>)
      ensures State() == QuestionState(operator, firstNumber, secondNumber, userAnswer, correctAnswer,
                                       if validOperators.Some? then validOperators.value else DefaultOperators)
    {
      this.operator := operator;
      this.firstNumber := firstNumber;
      this.secondNumber := secondNumber;
      this.userAnswer := userAnswer;
      this.correctAnswer := correctAnswer;
      this.validOperators := if validOperators.Some? then validOperators.value else DefaultOperators;
    }

    /** The question's attributes as a value: what `copy.deepcopy` archives. */
    function State(): QuestionState
      reads this
    {
      QuestionState(operator, firstNumber, secondNumber, userAnswer, correctAnswer, validOperators)
    }

    /**
     * `_rand_question`: take the supplied operator or pick one of `validOperators`,
     * then draw the operands from that operator's ranges. An operator outside the
     * four leaves the operands as they were.
     */
    method RandQuestion(operatorArg: Option<string>) returns (outcome: Outcome<GenerateError>)
      modifies this`operator, this`firstNumber, this`secondNumber
      ensures validOperators == [] ==> outcome == Fail(EmptyOperatorList) && State() == old(State())
      ensures validOperators != [] ==> outcome == Pass && operator.Some?
      ensures outcome.Pass? && operatorArg.Some? ==> operator == operatorArg
      ensures outcome.Pass? && operatorArg.None? ==> operator.value in validOperators
      ensures outcome.Pass? && operator.value in DefaultOperators ==>
                firstNumber.Some? && secondNumber.Some? &&
                Generable(operator.value, firstNumber.value, secondNumber.value)
      ensures outcome.Pass? && operator.value !in DefaultOperators ==>
                firstNumber == old(firstNumber) && secondNumber == old(secondNumber)
      ensures outcome.Pass? && operator.value in DefaultOperators ==>
                (Check(State()) <==> operator.value in validOperators)
      ensures outcome.Pass? && operatorArg.None? && (forall o :: o in validOperators ==> o in DefaultOperators) ==>
                Check(State()) && Arith(operator, firstNumber, secondNumber).Success?
    {
      if validOperators == [] {
        return Fail(EmptyOperatorList);
      }
      var pick :| 0 <= pick < |validOperators|;
      operator := if operatorArg.Some? then operatorArg else Some(validOperators[pick]);
      var op := operator.value;
      if op == "*" {
        var a :| 0 <= a <= 9;
        var b :| 0 <= b <= 9;
        firstNumber, secondNumber := Some(a), Some(b);
      } else if op == "/" {
        var b :| 1 <= b <= 9;
        var k :| 0 <= k <= 9;
        DivisionReachable(b, k);
        secondNumber := Some(b);
        firstNumber := Some(b * k);
        GeneratedDivision(b * k, b);
      } else if op == "+" {
        var a :| 0 <= a <= 19;
        var b :| 0 <= b <= 19;
        firstNumber, secondNumber := Some(a), Some(b);
      } else if op == "-" {
        var a :| 4 <= a <= 19;
        var b :| 0 <= b <= a;
        firstNumber, secondNumber := Some(a), Some(b);
      }
      outcome := Pass;
    }

    /** `_evaluate`: set `correctAnswer` to the value of the formula, or raise and change nothing. */
    method ComputeAnswer() returns (outcome: Outcome<EvalError>)
      modifies this`correctAnswer
      ensures Arith(operator, firstNumber, secondNumber).Success? ==>
                outcome == Pass && correctAnswer == Some(Arith(operator, firstNumber, secondNumber).value)
      ensures Arith(operator, firstNumber, secondNumber).Failure? ==>
                outcome == Fail(Arith(operator, firstNumber, secondNumber).error) && correctAnswer == old(correctAnswer)
    {
      var r := Arith(operator, firstNumber, secondNumber);
      if r.Success? {
        correctAnswer := Some(r.value);
        outcome := Pass;
      } else {
        outcome := Fail(r.error);
      }
    }

    /** `reset`: unset every attribute except `validOperators`. */
    method Reset()
      modifies this`operator, this`firstNumber, this`secondNumber, this`userAnswer, this`correctAnswer
      ensures State() == Blank(validOperators)
    {
      operator, firstNumber, secondNumber := None, None, None;
      userAnswer, correctAnswer := Unanswered, None;
    }
  }
}
