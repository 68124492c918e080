/**
 * The test ledger (class `Test` of mathtest.py): the current question and the
 * right, wrong and skipped questions archived so far, in the order scored.
 */
module MathTest {
  import opened Wrappers
  import opened MathQuestion

  /** The three archives as values. */
  datatype Ledger = Ledger(right: seq<QuestionState>, wrong: seq<QuestionState>, skip: seq<QuestionState>)

  /** Why `limit_operators` exits (with status 9): nothing in the list is an operator. */
  datatype LimitError = NoValidOperators

  function Total(l: Ledger): nat {
    |l.right| + |l.wrong| + |l.skip|
  }

  function Archive(l: Ledger): seq<QuestionState> {
    l.right + l.wrong + l.skip
  }

  /**
   * `grade`: the percentage of archived questions that are right, or 0 when
   * nothing has been archived.
   */
  function Grade(l: Ledger): (g: real)
    ensures 0.0 <= g <= 100.0
    ensures Total(l) == 0 ==> g == 0.0
    ensures Total(l) > 0 ==> g * (Total(l) as real) == 100.0 * (|l.right| as real)
    ensures g == 0.0 <==> l.right == []
    ensures g == 100.0 <==> (l.right != [] && l.wrong == [] && l.skip == [])
  {
    var total := |l.wrong| + |l.right| + |l.skip|;
    if total > 0 then
      var g := (|l.right| as real) / (total as real) * 100.0;
      GradeFraction(|l.right|, total, g);
      g
    else 0.0
  }

  lemma GradeFraction(r: nat, t: nat, g: real)
    requires 0 < t && r <= t
    requires g == (r as real) / (t as real) * 100.0
    ensures g * (t as real) == 100.0 * (r as real)
    ensures 0.0 <= g <= 100.0
    ensures g == 0.0 <==> r == 0
    ensures g == 100.0 <==> r == t
  {
  }

  /**
   * `score`'s filing of a question `q` (a deep copy): under `skip` when the answer
   * is the skip sentinel, under `right` when `evaluate` holds, under `wrong` otherwise.
   */
  function File(l: Ledger, q: QuestionState): (r: Ledger)
    ensures Total(r) == Total(l) + 1
    ensures l.right <= r.right && l.wrong <= r.wrong && l.skip <= r.skip
    ensures multiset(Archive(r)) == multiset(Archive(l)) + multiset{q}
    ensures |r.skip| > |l.skip| <==> q.userAnswer == Skipped
    ensures |r.right| > |l.right| <==> Evaluate(q)
    ensures |r.wrong| > |l.wrong| <==> (q.userAnswer != Skipped && !Evaluate(q))
  {
    if q.userAnswer == Skipped then l.(skip := l.skip + [q])
    else if Evaluate(q) then l.(right := l.right + [q])
    else l.(wrong := l.wrong + [q])
  }

  /** The operators in `ops` that a fresh question allows, in the order given. */
  function KeepValid(ops: seq<string>): (r: seq<string>)
    ensures |r| <= |ops|
    ensures forall i :: 0 <= i < |r| ==> r[i] in DefaultOperators
  {
    if ops == [] then []
    else KeepValid(ops[..|ops| - 1]) + (if ops[|ops| - 1] in DefaultOperators then [ops[|ops| - 1]] else [])
  }

  /** Filing a right answer never lowers the grade; filing a wrong or skipped one never raises it. */
  lemma GradeAfterFile(l: Ledger, q: QuestionState)
    ensures Evaluate(q) ==> Grade(File(l, q)) >= Grade(l)
    ensures !Evaluate(q) ==> Grade(File(l, q)) <= Grade(l)
  {
    var l' := File(l, q);
    GradeStep(l, l', Evaluate(q));
  }

  /** The grade moves toward 100 when the one added question is right, and toward 0 otherwise. */
  lemma GradeStep(l: Ledger, l': Ledger, addedRight: bool)
    requires Total(l') == Total(l) + 1
    requires |l'.right| == |l.right| + (if addedRight then 1 else 0)
    ensures addedRight ==> Grade(l') >= Grade(l)
    ensures !addedRight ==> Grade(l') <= Grade(l)
  {
    if Total(l) > 0 {
      var t := Total(l) as real;
      var g, g' := Grade(l), Grade(l');
      assert g * t == 100.0 * (|l.right| as real);
      assert g' * (t + 1.0) == 100.0 * (|l'.right| as real);
      if addedRight {
        RightRaises(t, g, g');
      } else {
        OtherLowers(t, g, g');
      }
    }
  }

  lemma RightRaises(t: real, g: real, g': real)
    requires t > 0.0 && g <= 100.0
    requires g' * (t + 1.0) == g * t + 100.0
    ensures g' >= g
  {
  }

  lemma OtherLowers(t: real, g: real, g': real)
    requires t > 0.0 && g' >= 0.0
    requires g' * (t + 1.0) == g * t
    ensures g' <= g
  {
  }

  /**
   * Scoring a question that has been reset (no answer, no correct answer) files
   * an empty question under `right`, since `None == None`, and so never lowers
   * the grade: what happens when `score` runs twice without a new answer.
   */
  lemma ScoreAfterResetFilesRight(l: Ledger, q: QuestionState)
    ensures var l1 := File(l, q);
            var l2 := File(l1, Blank(q.validOperators));
            l2 == l1.(right := l1.right + [Blank(q.validOperators)]) && Grade(l2) >= Grade(l1)
  {
    GradeAfterFile(File(l, q), Blank(q.validOperators));
  }

  /** An operator survives the filter exactly when it is in the list and is one of the four. */
  lemma {:induction false} KeepValidMembers(ops: seq<string>, x: string)
    ensures x in KeepValid(ops) <==> x in ops && x in DefaultOperators
    decreases |ops|
  {
    if ops != [] {
      var init := ops[..|ops| - 1];
      KeepValidMembers(init, x);
      assert ops == init + [ops[|ops| - 1]];
    }
  }

  /** Filtering a concatenation filters each part in turn: the input order is kept. */
  lemma {:induction false} KeepValidAppend(a: seq<string>, b: seq<string>)
    ensures KeepValid(a + b) == KeepValid(a) + KeepValid(b)
    decreases |b|
  {
    if b == [] {
      assert a + b == a;
    } else {
      var init := b[..|b| - 1];
      assert (a + b)[..|a + b| - 1] == a + init;
      KeepValidAppend(a, init);
    }
  }

  /** Each of the four operators is kept as often as it occurs; anything else is dropped. */
  lemma {:induction false} KeepValidCounts(ops: seq<string>, x: string)
    ensures multiset(KeepValid(ops))[x] == if x in DefaultOperators then multiset(ops)[x] else 0
    decreases |ops|
  {
    if ops != [] {
      var init := ops[..|ops| - 1];
      KeepValidCounts(init, x);
      assert ops == init + [ops[|ops| - 1]];
    }
  }

  /** A list of valid operators passes the filter unchanged, so filtering twice is filtering once. */
  lemma {:induction false} KeepValidIdempotent(ops: seq<string>)
    ensures KeepValid(KeepValid(ops)) == KeepValid(ops)
    decreases |ops|
  {
    if ops != [] {
      var init := ops[..|ops| - 1];
      var last := if ops[|ops| - 1] in DefaultOperators then [ops[|ops| - 1]] else [];
      KeepValidIdempotent(init);
      KeepValidAppend(KeepValid(init), last);
    }
  }

  class Test {
    var right: seq<QuestionState>
    var wrong: seq<QuestionState>
    var skip: seq<QuestionState>
    const question: Question

    /** `Test(**kwargs)`: empty archives and a question built from the same keyword arguments. */
    constructor (operator: Option<string>, firstNumber: Option<int>, secondNumber: Option<int>,
                 userAnswer: Answer, correctAnswer: Option<int>, validOperators: Option<seq<string>>)
      ensures Results() == Ledger([], [], [])
      ensures fresh(question)
      ensures question.State() == QuestionState(operator, firstNumber, secondNumber, userAnswer, correctAnswer,
                                                if validOperators.Some? then validOperators.value else DefaultOperators)
    {
      right, wrong, skip := [], [], [];
      question := new Question(operator, firstNumber, secondNumber, userAnswer, correctAnswer, validOperators);
    }

    function Results(): Ledger
      reads this
    {
      Ledger(right, wrong, skip)
    }

    /**
     * `score`: archive a copy of the current question under exactly one list,
     * then reset the question (its allowed operators stay).
     */
    method Score()
      modifies this, question
      ensures Results() == File(old(Results()), old(question.State()))
      ensures question.State() == Blank(old(question.validOperators))
    {
      var q := question.State();
      if q.userAnswer == Skipped {
        skip := skip + [q];
      } else if Evaluate(q) {
        right := right + [q];
      } else {
        wrong := wrong + [q];
      }
      question.Reset();
    }

    /** `reset`: empty the three archives; the current question is left as it is. */
    method Reset()
      modifies this
      ensures Results() == Ledger([], [], [])
    {
      right := [];
      wrong := [];
      skip := [];
    }

    /**
     * `limit_operators`: keep the members of `operatorList` that are operators,
     * in order, and make them the question's allowed operators; when none is,
     * fail (the program exits with status 9) and change nothing.
     */
    method LimitOperators(operatorList: seq<string>) returns (outcome: Outcome<LimitError>)
      modifies question`validOperators
      ensures KeepValid(operatorList) == [] ==>
                outcome == Fail(NoValidOperators) && question.validOperators == old(question.validOperators)
      ensures KeepValid(operatorList) != [] ==>
                outcome == Pass && question.validOperators == KeepValid(operatorList)
    {
      var validOperatorList: seq<string> := [];
      var i := 0;
      while i < |operatorList|
        invariant 0 <= i <= |operatorList|
        invariant validOperatorList == KeepValid(operatorList[..i])
      {
        if operatorList[i] in DefaultOperators {
          validOperatorList := validOperatorList + [operatorList[i]];
        }
        assert operatorList[..i + 1][..i] == operatorList[..i];
        i := i + 1;
      }
      assert operatorList[..i] == operatorList;
      if |validOperatorList| == 0 {
        return Fail(NoValidOperators);
      }
      question.validOperators := validOperatorList;
      outcome := Pass;
    }
  }

  /** Scenarios a caller of the classes can run. */
  method ScoringScenarios()
  {
    // "+" with pinned operands 5 and 3, answered 8: filed right, grade 100.
    var t := new Test(Some("+"), Some(5), Some(3), Unanswered, None, None);
    var evaluated := t.question.ComputeAnswer();
    assert t.question.correctAnswer == Some(8);
    t.question.userAnswer := Given(8);
    t.Score();
    assert |t.right| == 1 && t.wrong == [] && t.skip == [];
    assert Grade(t.Results()) == 100.0;

    // Scoring again without a new answer files the blank question under right too.
    t.Score();
    assert |t.right| == 2;

    // "/" with pinned operands 6 and 0 cannot be evaluated.
    var d := new Question(Some("/"), Some(6), Some(0), Unanswered, None, None);
    var failed := d.ComputeAnswer();
    assert failed == Fail(DivisionByZero) && d.correctAnswer == None;

    // A skipped "*" question with operands 4 and 5 goes to skip; right and wrong stay empty.
    var s := new Test(Some("*"), Some(4), Some(5), Skipped, None, None);
    s.Score();
    assert |s.skip| == 1 && s.right == [] && s.wrong == [];
    assert s.question.State() == Blank(DefaultOperators);

    // An operator list with no operator is refused and the allowed operators stay.
    var refused := s.LimitOperators([]);
    assert refused == Fail(NoValidOperators) && s.question.validOperators == DefaultOperators;
    var limited := s.LimitOperators(["+", "x", "-"]);
    assert limited == Pass;
  }
}
