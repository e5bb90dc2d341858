/**
 * The meaning of evaluating an expression against a stack: split it into
 * tokens, push each number, apply each operator, stop at the first failure,
 * and require exactly one value at the end.
 */
module Evaluator {
  import opened Errors
  import opened Classify
  import opened Tokenizer
  import opened Operators
  import Combinatorics

  /** The effect of one token: a number is pushed, an operator applied, anything else refused. */
  function Consume(lib: MathLib, t: string, st: seq<real>): Step {
    if NumberShape(t) then
      match ParseNumber(t)
      case None => Step(st, Fail(MalformedNumber(t)))
      case Some(v) => Step(st + [v], Pass)
    else if IsOperator(t) then ApplyOp(lib, t, st)
    else Step(st, Fail(InvalidToken(t)))
  }

  /** The tokens consumed in order, stopping at the first failure. */
  function Run(lib: MathLib, tokens: seq<string>, st: seq<real>): Step
    decreases |tokens|
  {
    if tokens == [] then Step(st, Pass)
    else
      var s := Consume(lib, tokens[0], st);
      if s.outcome.Fail? then s else Run(lib, tokens[1..], s.stack)
  }

  /** The stack an evaluation leaves and the value or error it reports. */
  datatype Evaluation = Evaluation(stack: seq<real>, result: Result<real>)

  /**
   * Evaluating `expression` starting from the stack `st`, which need not be
   * empty: values left by an earlier evaluation take part.
   */
  function Evaluate(lib: MathLib, expression: string, st: seq<real>): (e: Evaluation)
    ensures e.result.Ok? ==> e.stack == []
  {
    var s := Run(lib, Tokens(expression), st);
    if s.outcome.Fail? then Evaluation(s.stack, Err(s.outcome.error))
    else if |s.stack| != 1 then Evaluation(s.stack, Err(IncompleteExpression))
    else Evaluation([], Ok(s.stack[0]))
  }

  // ---------------------------------------------------------------------
  // Running a sequence of tokens
  // ---------------------------------------------------------------------

  /** Running two token sequences one after the other is running their concatenation. */
  lemma {:induction false} RunAppend(lib: MathLib, xs: seq<string>, ys: seq<string>, st: seq<real>)
    ensures Run(lib, xs + ys, st) ==
      var r := Run(lib, xs, st);
      if r.outcome.Fail? then r else Run(lib, ys, r.stack)
    decreases |xs|
  {
    if xs == [] {
      assert xs + ys == ys;
    } else {
      assert (xs + ys)[0] == xs[0] && (xs + ys)[1..] == xs[1..] + ys;
      var s := Consume(lib, xs[0], st);
      if s.outcome.Pass? {
        RunAppend(lib, xs[1..], ys, s.stack);
      }
    }
  }

  /**
   * Evaluation stops at the first token that is neither a number nor an
   * operator: whatever follows it is never looked at.
   */
  lemma InvalidTokenStops(lib: MathLib, pre: seq<string>, t: string, post: seq<string>, st: seq<real>)
    requires Run(lib, pre, st).outcome.Pass?
    requires !NumberShape(t) && !IsOperator(t)
    ensures Run(lib, pre + [t] + post, st) == Step(Run(lib, pre, st).stack, Fail(InvalidToken(t)))
  {
    RunAppend(lib, pre, [t] + post, st);
    assert pre + [t] + post == pre + ([t] + post);
    assert ([t] + post)[0] == t;
  }

  lemma ConsumeNeverIncomplete(lib: MathLib, t: string, st: seq<real>)
    ensures Consume(lib, t, st).outcome != Fail(IncompleteExpression)
  {
    if !NumberShape(t) && IsOperator(t) && |st| >= Arity(t) {
      var r := Transform(lib, t, st[|st| - Arity(t)..]);
      assert r.Err? ==> r.error != IncompleteExpression;
    }
  }

  /** No token reports an incomplete expression: only the final height check does. */
  lemma {:induction false} RunNeverIncomplete(lib: MathLib, tokens: seq<string>, st: seq<real>)
    ensures Run(lib, tokens, st).outcome != Fail(IncompleteExpression)
    decreases |tokens|
  {
    if tokens != [] {
      var s := Consume(lib, tokens[0], st);
      ConsumeNeverIncomplete(lib, tokens[0], st);
      if s.outcome.Pass? {
        RunNeverIncomplete(lib, tokens[1..], s.stack);
      }
    }
  }

  /**
   * The three ways an evaluation ends: a token's error, an incomplete
   * expression exactly when every token succeeded but the height is not one,
   * or the single remaining value.
   */
  lemma EvaluateOutcomes(lib: MathLib, expression: string, st: seq<real>)
    ensures var r := Run(lib, Tokens(expression), st);
      var e := Evaluate(lib, expression, st);
      && (r.outcome.Fail? ==> e == Evaluation(r.stack, Err(r.outcome.error)))
      && (e.result == Err(IncompleteExpression) <==> r.outcome.Pass? && |r.stack| != 1)
      && (e.result.Ok? <==> r.outcome.Pass? && |r.stack| == 1)
      && (e.result.Ok? ==> r.stack == [e.result.value])
  {
    RunNeverIncomplete(lib, Tokens(expression), st);
  }

  /** What a token does to the height of the stack when it succeeds. */
  function Effect(t: string): int {
    if NumberShape(t) then 1 else 1 - Arity(t)
  }

  function NetEffect(tokens: seq<string>): int {
    if tokens == [] then 0 else Effect(tokens[0]) + NetEffect(tokens[1..])
  }

  /**
   * The stack-machine invariant: a run that succeeds changes the height of
   * the stack by the sum of its tokens' effects (+1 per number, 0 per unary
   * operator, -1 per binary operator).
   */
  lemma {:induction false} RunHeight(lib: MathLib, tokens: seq<string>, st: seq<real>)
    ensures Run(lib, tokens, st).outcome.Pass? ==>
      |Run(lib, tokens, st).stack| == |st| + NetEffect(tokens)
    decreases |tokens|
  {
    if tokens != [] {
      var t := tokens[0];
      var s := Consume(lib, t, st);
      if s.outcome.Pass? {
        if !NumberShape(t) {
          ApplyOpShape(lib, t, st);
        }
        RunHeight(lib, tokens[1..], s.stack);
      }
    }
  }

  /** A successful evaluation consumed exactly what the stack and the tokens supplied. */
  lemma EvaluateBalance(lib: MathLib, expression: string, st: seq<real>)
    ensures Evaluate(lib, expression, st).result.Ok? ==> |st| + NetEffect(Tokens(expression)) == 1
  {
    RunHeight(lib, Tokens(expression), st);
  }

  // ---------------------------------------------------------------------
  // Worked evaluations
  // ---------------------------------------------------------------------

  /** A one-digit token is a number, and it converts to the digit's value. */
  lemma DigitToken(c: char)
    requires IsDigit(c)
    ensures NumberShape([c]) && ParseNumber([c]) == Some(DigitValue(c) as real)
  {
    DigitBody(c);
    var s := [c];
    assert s[0] == c && s != "-" && Unsigned(s) == s;
    assert Pow10(0) == 1;
  }

  /** A minus sign before one digit makes a number token for the negated digit. */
  lemma NegativeDigitToken(c: char)
    requires IsDigit(c)
    ensures NumberShape(['-', c]) && ParseNumber(['-', c]) == Some(-(DigitValue(c) as real))
  {
    DigitBody(c);
    var s := ['-', c];
    assert s[0] == '-' && |s| == 2 && Unsigned(s) == s[1..] == [c];
    assert Pow10(0) == 1;
  }

  lemma DigitBody(c: char)
    requires IsDigit(c)
    ensures DigitsAndDots([c]) && AtMostOneDot([c]) && HasDigit([c])
    ensures Mantissa([c]) == DigitValue(c) && FractionLength([c]) == 0
  {
    var s := [c];
    assert s[0] == c && s[..0] == [];
    assert IsDigit(s[0]);
  }

  lemma PushFives(lib: MathLib)
    ensures Run(lib, ["5", "5"], []) == Step([5.0, 5.0], Pass)
  {
    DigitToken('5');
    assert Run(lib, ["5"], [5.0]) == Step([5.0, 5.0], Pass);
  }

  /** A leftover stack takes part in the next evaluation. */
  lemma LeftoverStackTakesPart(lib: MathLib)
    ensures Evaluate(lib, "+", [1.0, 2.0]) == Evaluation([], Ok(3.0))
    ensures Evaluate(lib, "+", []) == Evaluation([], Err(Underflow("+", 2)))
  {
    TokensOfJoin(["+"]);
    AdditionStep(lib, 1.0, 2.0);
    assert IsOperator("+");
  }

  /** Two numbers and no operator leave two values: the expression is incomplete. */
  lemma IncompleteExample(lib: MathLib)
    ensures Evaluate(lib, "5 5", []) == Evaluation([5.0, 5.0], Err(IncompleteExpression))
    ensures Evaluate(lib, "", []) == Evaluation([], Err(IncompleteExpression))
  {
    assert Tokens("5 5") == ["5", "5"] by {
      TokensOfJoin(["5", "5"]);
      assert Join(["5", "5"]) == "5 5";
    }
    PushFives(lib);
  }

  lemma AdditionStep(lib: MathLib, a: real, b: real)
    ensures Run(lib, ["+"], [a, b]) == Step([a + b], Pass)
  {
    assert IsOperator("+");
    assert [a, b][..0] == [] && [a, b][0..] == [a, b];
  }

  lemma AdditionRun(lib: MathLib)
    ensures Run(lib, ["5", "5", "+"], []) == Step([10.0], Pass)
  {
    PushFives(lib);
    AdditionStep(lib, 5.0, 5.0);
    RunAppend(lib, ["5", "5"], ["+"], []);
    assert ["5", "5"] + ["+"] == ["5", "5", "+"];
  }

  lemma AdditionTokens()
    ensures Tokens("5 5 +") == ["5", "5", "+"]
  {
    TokensOfJoin(["5", "5", "+"]);
    assert Join(["5", "5", "+"]) == "5 5 +";
  }

  /** Two numbers then an operator: the calculator's own worked example. */
  lemma AdditionExample(lib: MathLib)
    ensures Evaluate(lib, "5 5 +", []) == Evaluation([], Ok(10.0))
  {
    AdditionTokens();
    AdditionRun(lib);
  }

  lemma MultiplicationStep(lib: MathLib, a: real, b: real)
    ensures Run(lib, ["*"], [a, b]) == Step([a * b], Pass)
  {
    assert IsOperator("*");
    assert [a, b][..0] == [] && [a, b][0..] == [a, b];
    assert Transform(lib, "*", [a, b]).Ok? && Transform(lib, "*", [a, b]).value == a * b;
  }

  lemma TimesThree(lib: MathLib)
    ensures Run(lib, ["3", "*"], [10.0]) == Step([30.0], Pass)
  {
    DigitToken('3');
    MultiplicationStep(lib, 10.0, 3.0);
  }

  lemma ChainRun(lib: MathLib)
    ensures Run(lib, ["5", "5", "+", "3", "*"], []) == Step([30.0], Pass)
  {
    AdditionRun(lib);
    TimesThree(lib);
    RunAppend(lib, ["5", "5", "+"], ["3", "*"], []);
    assert ["5", "5", "+"] + ["3", "*"] == ["5", "5", "+", "3", "*"];
  }

  lemma ChainTokens()
    ensures Tokens("5 5 + 3 *") == ["5", "5", "+", "3", "*"]
  {
    TokensOfJoin(["5", "5", "+", "3", "*"]);
    assert Join(["5", "5", "+", "3", "*"]) == "5 5 + 3 *";
  }

  /** An operator's result is the operand of the next one. */
  lemma ChainExample(lib: MathLib)
    ensures Evaluate(lib, "5 5 + 3 *", []) == Evaluation([], Ok(30.0))
  {
    ChainTokens();
    ChainRun(lib);
  }

  lemma DivisionByZeroStep(lib: MathLib, a: real)
    ensures Run(lib, ["/"], [a, 0.0]) == Step([a], Fail(DivisionByZero))
  {
    assert IsOperator("/");
    assert [a, 0.0][..1] == [a] && [a, 0.0][0..] == [a, 0.0];
  }

  lemma PushFourZero(lib: MathLib)
    ensures Run(lib, ["4", "0"], []) == Step([4.0, 0.0], Pass)
  {
    DigitToken('4');
    DigitToken('0');
    assert Run(lib, ["0"], [4.0]) == Step([4.0, 0.0], Pass);
  }

  lemma DivisionByZeroRun(lib: MathLib)
    ensures Run(lib, ["4", "0", "/"], []) == Step([4.0], Fail(DivisionByZero))
  {
    PushFourZero(lib);
    DivisionByZeroStep(lib, 4.0);
    RunAppend(lib, ["4", "0"], ["/"], []);
    assert ["4", "0"] + ["/"] == ["4", "0", "/"];
  }

  lemma DivisionByZeroTokens()
    ensures Tokens("4 0 /") == ["4", "0", "/"]
  {
    TokensOfJoin(["4", "0", "/"]);
    assert Join(["4", "0", "/"]) == "4 0 /";
  }

  /** A zero divisor is reported with the dividend still on the stack. */
  lemma DivisionByZeroExample(lib: MathLib)
    ensures Evaluate(lib, "4 0 /", []) == Evaluation([4.0], Err(DivisionByZero))
  {
    DivisionByZeroTokens();
    DivisionByZeroRun(lib);
  }

  lemma NegativeSquareRootRun(lib: MathLib)
    ensures Run(lib, ["-1", "sqrt"], []) == Step([], Fail(NegativeSquareRoot))
  {
    NegativeDigitToken('1');
    assert IsOperator("sqrt");
    assert [-1.0][..0] == [] && [-1.0][0..] == [-1.0];
  }

  lemma NegativeSquareRootTokens()
    ensures Tokens("-1 sqrt") == ["-1", "sqrt"]
  {
    TokensOfJoin(["-1", "sqrt"]);
    assert Join(["-1", "sqrt"]) == "-1 sqrt";
  }

  /** A negative number is a number token; its square root is refused after the pop. */
  lemma NegativeSquareRootExample(lib: MathLib)
    ensures Evaluate(lib, "-1 sqrt", []) == Evaluation([], Err(NegativeSquareRoot))
  {
    NegativeSquareRootTokens();
    NegativeSquareRootRun(lib);
  }

  lemma FibonacciStep(lib: MathLib)
    ensures Run(lib, ["fib"], [5.0]) == Step([5.0], Pass)
  {
    assert IsOperator("fib");
    assert Combinatorics.Fib(5) == 5;
    assert [5.0][..0] == [] && [5.0][0..] == [5.0];
  }

  lemma FibonacciRun(lib: MathLib)
    ensures Run(lib, ["5", "fib"], []) == Step([5.0], Pass)
  {
    DigitToken('5');
    FibonacciStep(lib);
  }

  lemma FibonacciTokens()
    ensures Tokens("5 fib") == ["5", "fib"]
  {
    TokensOfJoin(["5", "fib"]);
    assert Join(["5", "fib"]) == "5 fib";
  }

  /** The fifth Fibonacci number. */
  lemma FibonacciExample(lib: MathLib)
    ensures Evaluate(lib, "5 fib", []) == Evaluation([], Ok(5.0))
  {
    FibonacciTokens();
    FibonacciRun(lib);
  }

  lemma PascalStep(lib: MathLib)
    ensures Run(lib, ["pascal"], [4.0, 2.0]) == Step([6.0], Pass)
  {
    assert IsOperator("pascal");
    assert Combinatorics.Choose(4, 2) == 6;
    assert [4.0, 2.0][..0] == [] && [4.0, 2.0][0..] == [4.0, 2.0];
  }

  lemma PushFourTwo(lib: MathLib)
    ensures Run(lib, ["4", "2"], []) == Step([4.0, 2.0], Pass)
  {
    DigitToken('4');
    DigitToken('2');
    assert Run(lib, ["2"], [4.0]) == Step([4.0, 2.0], Pass);
  }

  lemma PascalRun(lib: MathLib)
    ensures Run(lib, ["4", "2", "pascal"], []) == Step([6.0], Pass)
  {
    PushFourTwo(lib);
    PascalStep(lib);
    RunAppend(lib, ["4", "2"], ["pascal"], []);
    assert ["4", "2"] + ["pascal"] == ["4", "2", "pascal"];
  }

  lemma PascalTokens()
    ensures Tokens("4 2 pascal") == ["4", "2", "pascal"]
  {
    TokensOfJoin(["4", "2", "pascal"]);
    assert Join(["4", "2", "pascal"]) == "4 2 pascal";
  }

  /** Row 4, column 2 of Pascal's triangle. */
  lemma PascalExample(lib: MathLib)
    ensures Evaluate(lib, "4 2 pascal", []) == Evaluation([], Ok(6.0))
  {
    PascalTokens();
    PascalRun(lib);
  }

  lemma PushThreeFive(lib: MathLib)
    ensures Run(lib, ["3", "5"], []) == Step([3.0, 5.0], Pass)
  {
    DigitToken('3');
    DigitToken('5');
    assert Run(lib, ["5"], [3.0]) == Step([3.0, 5.0], Pass);
  }

  lemma PascalOutOfRangeStep(lib: MathLib)
    ensures Run(lib, ["pascal"], [3.0, 5.0]) == Step([], Fail(PascalOutOfRange))
  {
    assert IsOperator("pascal");
    assert [3.0, 5.0][..0] == [] && [3.0, 5.0][0..] == [3.0, 5.0];
  }

  lemma PascalOutOfRangeRun(lib: MathLib)
    ensures Run(lib, ["3", "5", "pascal"], []) == Step([], Fail(PascalOutOfRange))
  {
    PushThreeFive(lib);
    PascalOutOfRangeStep(lib);
    RunAppend(lib, ["3", "5"], ["pascal"], []);
    assert ["3", "5"] + ["pascal"] == ["3", "5", "pascal"];
  }

  lemma PascalOutOfRangeTokens()
    ensures Tokens("3 5 pascal") == ["3", "5", "pascal"]
  {
    TokensOfJoin(["3", "5", "pascal"]);
    assert Join(["3", "5", "pascal"]) == "3 5 pascal";
  }

  /** A column past the end of its row is refused, with both coordinates popped. */
  lemma PascalOutOfRangeExample(lib: MathLib)
    ensures Evaluate(lib, "3 5 pascal", []) == Evaluation([], Err(PascalOutOfRange))
  {
    PascalOutOfRangeTokens();
    PascalOutOfRangeRun(lib);
  }

  lemma RejectedTokens()
    ensures !NumberShape("abc") && !IsOperator("abc")
    ensures NumberShape(".") && ParseNumber(".").None?
  {
    assert Unsigned("abc")[0] == 'a';
    assert Unsigned(".") == ".";
    ParseNumberFails(".");
  }

  /** A word that is not a token, and a lone dot that the number conversion refuses. */
  lemma RejectedTokenExamples(lib: MathLib)
    ensures Evaluate(lib, "abc", []) == Evaluation([], Err(InvalidToken("abc")))
    ensures Evaluate(lib, ".", []) == Evaluation([], Err(MalformedNumber(".")))
  {
    TokensOfJoin(["abc"]);
    TokensOfJoin(["."]);
    RejectedTokens();
  }
}
