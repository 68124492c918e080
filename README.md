# math-test: question engine and scoring ledger

This project models the core of `mathtest.py`, an arithmetic drill program. It covers:

- the `Question` class: one operator between two numbers, the user's answer and the correct answer;
- the `Test` class: the current question plus the ordered `right`, `wrong` and `skip` archives.

It has four modules:

- `Wrappers` (`wrappers.dfy`): `Option`, `Result` and `Outcome`. These stand for Python's `None` and for the places where the program raises or exits.
- `PyText` (`pytext.dfy`): the pieces of Python text handling the engine relies on.
  - `str()` of an integer (`Decimal`), read back by `ParseInt`.
  - `str.replace('=', '')` (`Remove`).
  - How `eval` splits a text `<int> <op> <int>` into words (`Words`).
  - The `*`→`×`, `/`→`÷` translation table (`Translate`).
- `MathQuestion` (`question.dfy`): the question, in two parts.
  - Its attributes as a value, `QuestionState`. An archived deep copy is one of these.
  - The class `Question`, whose methods assign the attributes in place: `RandQuestion` is `_rand_question`, `ComputeAnswer` is `_evaluate`, and `Reset` is `reset`.
  - Pure functions for the expression-only members: `Check` (`_check`), `Evaluate` (`evaluate`), `Formula` (`__str__`) and `HumanReadable` (`human_readable`).
- `MathTest` (`ledger.dfy`): the class `Test`. `Score` and `Reset` reassign its three list fields; `LimitOperators` assigns the question's `validOperators`.
  - The archives as a value, `Ledger`.
  - The pure functions `File` (where `score` puts a question), `Grade` and `KeepValid` (the filter in `limit_operators`).
  - Lemmas relating these functions.

How the model represents the source:

- `randint` becomes a nondeterministic choice inside `RandQuestion`, constrained to the range that `randint` is called with.
- `_evaluate` builds the formula text and hands it to `eval`. The model computes `Arith` directly on the operands instead. `EvalOfFormula` proves the two agree: splitting the formula text with `=` removed and evaluating it gives exactly `Arith`.
- `user_answer` is `Unanswered` (`None`), `Skipped` (the sentinel `''`) or `Given(n)`.
- `Evaluate` follows Python's `==` across these values. After a reset, `None == None` holds, so `score` files a blank question under `right`. The model keeps this (`ScoreAfterResetFilesRight`).
- Python's `/` followed by `int()` truncates toward zero (`TruncatedDivision`). Dafny's `/` is Euclidean, so the model does not use it for this.
- `limit_operators` filters against the operator list of a fresh `Question()`, not the current one. When nothing survives, the program exits with status 9. The model returns `Fail(NoValidOperators)` instead and leaves the allowed operators unchanged.
- When `valid_operators` is empty, `_rand_question` raises even if an operator is supplied. This is because the `randint(0, len - 1)` in its default argument is evaluated first. The model returns `Fail(EmptyOperatorList)` and changes nothing.

Two behaviours of the code a reader may not expect:

- `score` is not a no-op when no answer is pending: it files the blank question under `right`.
- `Test.reset` empties only the three archives. It does not touch the current question.

## Model

| member | source | states |
|---|---|---|
| `PyText.DecimalRoundTrip` | mathtest.py:68 | the decimal text `str()` writes for an operand reads back as the same integer |
| `PyText.Decimal` | mathtest.py:68 | an operand's text is non-empty and holds no blank, `=`, `*` or `/`, so it survives the `=` removal and the translation |
| `PyText.Remove` | mathtest.py:96 | `replace('=', '')` leaves no `=` and only characters of the input |
| `PyText.Translate` | mathtest.py:40 | the translation keeps the length, maps `*` to `×` and `/` to `÷`, keeps every other character, and leaves no `*` or `/` |
| `MathQuestion.TruncatedDivision` | mathtest.py:96 | `int(a / b)`: the magnitude is the floor of abs(a) / abs(b) and the sign is the product of the signs |
| `MathQuestion.Arith` | mathtest.py:95-96 | the answer exists exactly when the operator is one of `/ * + -`, both operands are set and no `/` has divisor 0; division by zero is its own error |
| `MathQuestion.EvalOfFormula` | mathtest.py:95-96 | evaluating the `__str__` text with `=` removed gives exactly `Arith` of the operator and operands, including the error cases |
| `MathQuestion.Check` | mathtest.py:90-93 | a complete question has a non-empty operator list, and its formula is not evaluable exactly when its operator is not one of the four (a `/` by 0 still fails, as division by zero) |
| `MathQuestion.EvaluateAfterCompute` | mathtest.py:98-103 | once the correct answer is the value of the formula, the question is right exactly when the user gave that integer; a skip or an unset answer is then wrong |
| `MathQuestion.EvaluateBlank` | mathtest.py:103 | a reset question counts as right, since its unset answer equals its unset correct answer |
| `MathQuestion.Formula` | mathtest.py:67-69 | with `=` removed, the text splits into exactly three words: the first number, the operator and the second number, each operand reading back as its value |
| `MathQuestion.HumanReadable` | mathtest.py:112-117 | the text has the formula's length, contains no `*` or `/`, and keeps every other character of the formula |
| `MathQuestion.EvalText` | mathtest.py:96 | reads only the three-word `<int> <op> <int>` text: a value comes only from three words with one of the four operators in the middle and integers outside |
| `MathQuestion.HumanReadableOfFormula` | mathtest.py:112-117 | the human-readable text is the formula with only the operator translated |
| `MathQuestion.GeneratedDivision` | mathtest.py:79-81 | a generated division has divisor in [1, 9] dividing the first number exactly, and a quotient in [0, 9] that `Arith` returns |
| `MathQuestion.DivisionReachable` | mathtest.py:79-81 | every `second * k` with `second` in [1, 9] and `k` in [0, 9] is a generable division whose answer is `k` |
| `MathQuestion.GeneratedSubtraction` | mathtest.py:85-88 | a generated subtraction has an answer in [0, 19], never negative |
| `MathQuestion.GeneratedEvaluates` | mathtest.py:74-88 | every generated question evaluates, with answer in [0, 81] for `*`, [0, 9] for `/`, [0, 38] for `+` and [0, 19] for `-` |
| `MathQuestion.Question.constructor` | mathtest.py:47-65 | every attribute comes from its keyword argument; the operator list defaults to `/ * + -` |
| `MathQuestion.Question.RandQuestion` | mathtest.py:71-88 | an empty operator list fails with nothing changed. Otherwise the operator is the one supplied or one from the list. A standard operator gets operands from its range and `_check` holds iff the operator is allowed. Any other operator leaves the operands as they were. |
| `MathQuestion.Question.ComputeAnswer` | mathtest.py:95-96 | the correct answer becomes `Arith` of the attributes, or the error is returned and the correct answer is unchanged |
| `MathQuestion.Question.Reset` | mathtest.py:119-127 | operator, operands, user answer and correct answer become unset; the operator list stays |
| `MathTest.Grade` | mathtest.py:171-181 | the grade is in [0, 100] and is 0 with nothing archived. Otherwise grade × total = 100 × right. It is 0 iff nothing is right and 100 iff all is right and something is archived. |
| `MathTest.File` | mathtest.py:215-223 | filing adds the question to exactly one archive and keeps the rest as prefixes. It goes to `skip` iff the answer is the skip sentinel, to `right` iff `evaluate` holds, and to `wrong` otherwise. |
| `MathTest.GradeAfterFile` | mathtest.py:177-181 | filing a right answer never lowers the grade; filing a wrong or skipped one never raises it |
| `MathTest.ScoreAfterResetFilesRight` | mathtest.py:215-224 | scoring again after a reset files the blank question under `right` and does not lower the grade |
| `MathTest.KeepValid` | mathtest.py:201-204 | the filtered list is no longer than the input and holds only `/ * + -` |
| `MathTest.KeepValidMembers` | mathtest.py:201-204 | an item survives the filter iff it is in the input and is one of the four operators |
| `MathTest.KeepValidAppend` | mathtest.py:201-204 | filtering a concatenation is concatenating the filtered parts, so input order is kept |
| `MathTest.KeepValidCounts` | mathtest.py:201-204 | each operator is kept as often as it occurs; anything else is dropped |
| `MathTest.KeepValidIdempotent` | mathtest.py:201-204 | filtering an already filtered list changes nothing |
| `MathTest.Test.constructor` | mathtest.py:162-166 | the archives start empty and the question is built from the same keyword arguments |
| `MathTest.Test.Score` | mathtest.py:211-224 | the archives become `File` of the old archives and a value copy of the old question; the question is then blank with its operator list kept |
| `MathTest.Test.Reset` | mathtest.py:183-193 | the three archives become empty |
| `MathTest.Test.LimitOperators` | mathtest.py:195-209 | with no valid operator in the list it fails and leaves the operator list unchanged; otherwise the operator list becomes the filtered list |

## Left out

- `Question.prompt`, `Test.prompt_skipped` and `Test.run`: console input and output and `KeyboardInterrupt` handling. A front end sets `userAnswer` directly, as `ScoringScenarios` does.
- `Test._rows_str`, `print_rows`, `_display_score`, `display_score` and `Test.__str__`: column layout and formatting, not logic.
- `Question.values`: a plain tuple of the attributes, called nowhere in `mathtest.py` or `mathtest_gui.py`. `QuestionState` holds the same values.
- The messages `score` and `limit_operators` print, and the process exit in `limit_operators`. The exit becomes the `NoValidOperators` outcome.
- `arg_parse` and `main`: argument parsing, interactive set-up prompts, exit codes and wall-clock timing.
- `mathtest_gui.py`: the Tkinter front end. The unique-question mode it drives (`Test.get_questions`, `question_list`, `get`, `display_string`, `Question.visualize_string`) has no definition in `mathtest.py`, so there is nothing to model.
- Python 2 branches: integer `/` inside `eval`, and `x` shown for `*` on Windows.
- `MathQuestion.Question.RandQuestion`: the model says which values can be drawn, not that `randint` draws them uniformly.
- `MathQuestion.Arith`: only `/ * + -` are evaluated. `eval` would also evaluate other Python operators passed as `operator` (for example `**` or `%`); the model reports those as not evaluable.
- `MathQuestion.EvalOfFormula`: proved only for operators with no blank or `=` in them. Other operator strings change how `eval` tokenises the text.
- `MathQuestion.TruncatedDivision`: it uses exact integer truncation. Python divides in floating point first, which can round differently once operands exceed 2^53. Generated operands never come close.
- `MathTest.Grade`: it is an exact `real`, not an IEEE double, so the result has no rounding.
- `limit_operators` given a Python string iterates over its characters. In the model that string is a sequence of one-character strings.
