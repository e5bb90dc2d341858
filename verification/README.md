# RPN calculator engine in Dafny

This project models the evaluation engine of a reverse-Polish-notation
calculator, the `RPNCalculator` class of `rpn_calc.cpp`, and proves what it
computes. An expression such as `5 5 + 3 *` is split on whitespace. Each
number token is pushed on an operand stack, and each operator token pops its
operands and pushes one result. The evaluation succeeds when exactly one
value is left. That value is popped, returned and recorded in a history.

The model follows the source's structure:

- `errors.dfy` (module `Errors`): error kinds and the `Option`, `Result` and
  `Outcome` wrappers. Every `throw` becomes an error value.
- `classify.dfy` (`Classify`):
  - the number shape;
  - the scanning method `IsNumber`, proved equal to that shape;
  - the operator names;
  - the exact numeric value of a number token.
- `tokenizer.dfy` (`Tokenizer`): whitespace splitting as a reference function
  `Tokens`, and the extraction loop `Split` proved against it.
- `combinatorics.dfy` (`Combinatorics`): the two integer algorithms
  `Fibonacci` and `Pascal`, proved against the recursive definitions `Fib`
  and `Choose` (Pascal's rule).
- `operand_stack.dfy` (`OperandStack`): the stack as a value (top = last
  element) and the push/pop/peek laws.
- `operators.dfy` (`Operators`):
  - the operator table (`Arity`, `Transform`) and `ApplyOp`, the effect of
    one operator on a stack;
  - the lemmas about arity, underflow, result placement and domain errors.
- `evaluator.dfy` (`Evaluator`):
  - `Run` and `Evaluate`, the meaning of evaluating a token sequence and an
    expression from a given stack;
  - the stack-height invariant;
  - worked evaluations.
- `calculator.dfy` (`Calculator`):
  - the class `RPNCalculator`, whose `stack` and `history` fields its methods
    update in place, each method proved against the value-level definitions;
  - the batch driver.

Stack values are `real`, so `+ - * /` are exact. The library functions
`sqrt`, `pow`, `sin`, `cos`, `tan` and the constant pi are fields of a
`MathLib` value given to the calculator when it is constructed. Nothing is
assumed about their values; only the checks the calculator makes on them are
modelled.

Facts about the code that shape the model:

- `processExpression` does not reset the stack (rpn_calc.cpp:214-242). Only
  `batchCalculation` clears it, before each expression (rpn_calc.cpp:267). A
  value left on the stack by an earlier interactive input therefore takes
  part in the next evaluation, as `Evaluator.LeftoverStackTakesPart` shows,
  and after a batch the stack holds what the last expression left.
- `isNumber` accepts `.` and `-.` (rpn_calc.cpp:18-38), and `std::stod` then
  throws on them (rpn_calc.cpp:227). This failure is the error
  `MalformedNumber`.
- The incomplete-expression error is raised whenever the final stack does not
  hold exactly one value (rpn_calc.cpp:235-237). `pascal` refuses
  non-integral coordinates in `calculate` (rpn_calc.cpp:203-205) and
  out-of-range ones in the `pascal` function (rpn_calc.cpp:64-66); these are
  two error kinds.
- An underflow is raised by the size check that precedes every pop (for
  example rpn_calc.cpp:138 and 163). The model's error records the operator
  and the number of operands it needs.

## Model

| member | source | states |
|---|---|---|
| Classify.IsNumber | rpn_calc.cpp:18-38 | The scan returns true exactly when the token is non-empty and not a lone `-`, and after an optional `-` holds only digits and dots with at most one dot. |
| Classify.NumberShapeExamples | rpn_calc.cpp:18-38 | The empty token, `-`, `1.2.3`, `1a` and `..` are rejected; `.`, `-.`, `12.5`, `-3` and `5.` are accepted. |
| Classify.IsOperator | rpn_calc.cpp:41-45 | Exactly the eleven operator names, case-sensitive; none of them, `-` included, has the number shape, so the number check that comes first never hides an operator. |
| Classify.ParseNumber | rpn_calc.cpp:227 | The exact decimal value of a number token: non-positive after a leading `-`, non-negative otherwise; absent when the token has no digit (see `ParseNumberFails`). |
| Classify.ParseNumberFails | rpn_calc.cpp:226-227 | Converting a number-shaped token fails exactly for `.` and `-.`. |
| Classify.DotsOnly | rpn_calc.cpp:28-37 | A digit-free body the scan accepts is empty or a single dot. |
| Classify.ParseFractionExample | rpn_calc.cpp:227 | `12.5` converts to exactly 12.5. |
| Classify.ParseNegativeExample | rpn_calc.cpp:227 | `-3` converts to -3. |
| Tokenizer.Split | rpn_calc.cpp:215-222 | The extraction loop returns exactly the whitespace-separated tokens of the expression, in order. |
| Tokenizer.TokensAreWords | rpn_calc.cpp:220-221 | Every token is non-empty and holds no whitespace. |
| Tokenizer.TokensKeepVisible | rpn_calc.cpp:220-221 | Concatenating the tokens gives the expression with its whitespace removed: nothing is lost or reordered. |
| Tokenizer.TokensOfJoin | rpn_calc.cpp:220-221 | Splitting words joined by single spaces gives back those words (round trip). |
| Combinatorics.Fibonacci | rpn_calc.cpp:48-60 | Fails (negative argument) exactly when n < 0; otherwise returns Fib(n) with Fib(0) = 0 and Fib(1) = 1. |
| Combinatorics.Pascal | rpn_calc.cpp:63-73 | Fails exactly when row < 0, col < 0 or col > row; otherwise returns C(row, col) as defined by Pascal's rule. |
| Combinatorics.PascalStepIsExact | rpn_calc.cpp:69-71 | Each step `result * (row - i + 1) / i` divides exactly and yields C(row, i) from C(row, i - 1). |
| Combinatorics.ChooseStep | rpn_calc.cpp:70 | k * C(n, k) = (n - k + 1) * C(n, k - 1), the identity behind the running product. |
| Combinatorics.ChooseEdges | rpn_calc.cpp:68-71 | C(n, 0) = C(n, n) = 1: column 0 needs no loop step and the last column of a row is 1. |
| Combinatorics.ChooseAboveRow | rpn_calc.cpp:64 | C(n, k) = 0 for k > n, the coordinates the source refuses. |
| OperandStack.PopAfterPush | rpn_calc.cpp:79-91 | Pop after push returns the pushed value and the previous stack. |
| OperandStack.PushAfterPop | rpn_calc.cpp:84-91 | Pop fails exactly on the empty stack; pushing back what it returned restores the stack. |
| OperandStack.PeekAgreesWithPop | rpn_calc.cpp:84-99 | Peek fails exactly when pop fails and otherwise sees the value pop would return. |
| Calculator.RPNCalculator.Push | rpn_calc.cpp:79-81 | The stack becomes the old stack with the value on top. |
| Calculator.RPNCalculator.Pop | rpn_calc.cpp:84-91 | On a non-empty stack returns the top and leaves the rest; on an empty stack reports the empty-stack error and changes nothing. |
| Calculator.RPNCalculator.Peek | rpn_calc.cpp:94-99 | Returns `Peeked` of the stack: the empty-stack error exactly when the stack is empty, otherwise the top, which by `PeekAgreesWithPop` is what a pop would return; changes nothing. |
| Calculator.RPNCalculator.Clear | rpn_calc.cpp:102-106 | The drain loop leaves the stack empty. |
| Calculator.RPNCalculator.Size | rpn_calc.cpp:109-111 | Returns the number of values on the stack. |
| Calculator.RPNCalculator.Calculate | rpn_calc.cpp:136-211 | The new stack and the outcome are those of `ApplyOp` on the old stack, for every operator name including unknown ones. |
| Calculator.RPNCalculator.CalculateBinary | rpn_calc.cpp:137-207 | The same for `+ - * / ^ pascal`: arity check, pop `b` then `a`, zero-divisor check between the pops, integrality and range checks after them. |
| Calculator.RPNCalculator.CalculateUnary | rpn_calc.cpp:162-198 | The same for `sqrt sin cos tan fib`: arity check, pop, domain check, push. |
| Calculator.RPNCalculator.ProcessExpression | rpn_calc.cpp:214-242 | Stack and result are those of `Evaluate` from the old stack. One history entry (expression, value) is appended on success and none on failure. |
| Calculator.RPNCalculator.ClearHistory | rpn_calc.cpp:257-259 | The history becomes empty. |
| Calculator.BatchCalculation | rpn_calc.cpp:263-275 | One result per expression, each equal to evaluating it from an empty stack (no expression sees another's leftovers); a failure does not stop the batch; the history gains exactly the successful entries, in order; the stack is left as the last expression left it (unchanged for an empty batch). |
| Operators.KnownOperators | rpn_calc.cpp:136-211 | Dispatch reports an unknown operator exactly for names the classifier does not accept. |
| Operators.UnderflowLeavesStack | rpn_calc.cpp:137-200 | With fewer values than the arity the operator fails before popping: the stack is unchanged. |
| Operators.ApplyOpShape | rpn_calc.cpp:137-207 | On success the top arity values are replaced by exactly one result and nothing below them changes. On failure values were only removed from the top. |
| Operators.Arithmetic | rpn_calc.cpp:137-173 | `+ - * / ^` push `a OP b` where `b` was the top; division when `b != 0`. |
| Operators.UnaryOperators | rpn_calc.cpp:162-190 | `sqrt` of a non-negative value, `sin`, `cos`, and `tan` where the cosine is non-zero replace the top by their result, angles taken in degrees. |
| Operators.UnaryDomainErrors | rpn_calc.cpp:162-197 | Negative `sqrt`, `tan` with zero cosine, and `fib` of a negative or non-integral value fail with the operand already popped. |
| Operators.BinaryDomainErrors | rpn_calc.cpp:155-206 | Division by zero fails with only `b` removed; `pascal` with a non-integral or out-of-range coordinate fails with both removed. |
| Operators.IntegerOperators | rpn_calc.cpp:191-207 | `fib` pushes Fib(n) and `pascal` pushes C(row, col) for valid integer arguments. |
| Evaluator.RunAppend | rpn_calc.cpp:225-233 | Running two token sequences in turn is running their concatenation; a failure stops everything after it. |
| Evaluator.InvalidTokenStops | rpn_calc.cpp:230-231 | The first token that is neither a number nor an operator fails the evaluation, whatever follows it. |
| Evaluator.RunNeverIncomplete | rpn_calc.cpp:225-233 | No token step reports an incomplete expression. |
| Evaluator.EvaluateOutcomes | rpn_calc.cpp:225-241 | An evaluation ends with a token's error, or with an incomplete expression exactly when all tokens succeeded but the height is not 1, or with the single remaining value. |
| Evaluator.RunHeight | rpn_calc.cpp:225-233 | Stack-machine invariant: a successful run changes the height by +1 per number, 0 per unary and -1 per binary operator. |
| Evaluator.EvaluateBalance | rpn_calc.cpp:235-241 | A successful evaluation has starting height plus net token effect equal to 1. |
| Evaluator.DigitToken | rpn_calc.cpp:226-227 | A one-digit token is a number and converts to its digit's value. |
| Evaluator.NegativeDigitToken | rpn_calc.cpp:21-37 | A minus sign before a digit makes a number token for the negated value. |
| Evaluator.LeftoverStackTakesPart | rpn_calc.cpp:214-242 | `+` evaluated on a stack already holding 1 and 2 succeeds with 3; on an empty stack it underflows. |
| Evaluator.IncompleteExample | rpn_calc.cpp:235-237 | `5 5` and the empty expression are incomplete; the stack keeps what was pushed. |
| Evaluator.AdditionExample | rpn_calc.cpp:137-142 | `5 5 +` evaluates to 10. |
| Evaluator.ChainExample | rpn_calc.cpp:137-154 | `5 5 + 3 *` evaluates to 30. |
| Evaluator.DivisionByZeroExample | rpn_calc.cpp:155-161 | `4 0 /` fails with division by zero and leaves 4 on the stack. |
| Evaluator.NegativeSquareRootExample | rpn_calc.cpp:162-167 | `-1 sqrt` fails with the negative-square-root error and an empty stack. |
| Evaluator.FibonacciExample | rpn_calc.cpp:191-198 | `5 fib` evaluates to 5. |
| Evaluator.PascalExample | rpn_calc.cpp:199-207 | `4 2 pascal` evaluates to 6. |
| Evaluator.PascalOutOfRangeExample | rpn_calc.cpp:199-207 | `3 5 pascal` fails as out of range with both coordinates popped. |
| Evaluator.RejectedTokenExamples | rpn_calc.cpp:226-231 | `abc` fails as an invalid token; `.` is a number token whose conversion fails. |

## Left out

- Console I/O: `displayStack`, `showHistory`, `showHelp`, `main` and the
  messages `batchCalculation` prints. `BatchCalculation` returns its results
  instead of printing them.
- Floating-point behaviour: the model computes over exact reals and exact
  integers, so rounding, overflow to infinity and loss of precision in
  `fibonacci`, `pascal` and `^` are not modelled.
- The values of `std::sqrt`, `std::pow`, `std::sin`, `std::cos`, `std::tan`
  and `M_PI`: they are fields of `MathLib` and left open.
- `ParseNumber`: the exact decimal value stands for `std::stod`'s nearest
  double. `std::stod`'s out-of-range failure on numerals too large or too
  small in magnitude for a double is not modelled.
- `static_cast<int>` of values outside the `int` range is undefined
  behaviour in the source. The model treats every integral value as an
  in-range integer.
- The text of a history entry (`expression + " = " + std::to_string(result)`)
  is modelled as the pair `Entry(expression, value)`.
- The error messages are modelled as error kinds.
- `std::isdigit` is modelled for the ASCII digits only.
- Calculator.RPNCalculator.Calculate: the model's dispatch first groups the
  operators by arity (`CalculateBinary`, `CalculateUnary`), then follows the
  source's chain of name comparisons within each group. The behaviour is
  unchanged, because the names are distinct and each group checks its arity
  first.
