/**
 * The calculator object: an operand stack and a history log, both updated in
 * place, and the batch driver that evaluates a list of expressions in turn.
 * Every method is proved against the value-level definitions of the other
 * modules.
 */
module Calculator {
  import opened Errors
  import opened Classify
  import opened Tokenizer
  import opened Combinatorics
  import opened OperandStack
  import opened Operators
  import opened Evaluator

  /** One history line: an expression and the value it evaluated to. */
  datatype Entry = Entry(expression: string, value: real)

  class RPNCalculator {
    /** The operand stack, bottom first: the top is the last element. */
    var stack: seq<real>
    var history: seq<Entry>
    /** The floating-point library the operators call. */
    const lib: MathLib

    constructor (lib: MathLib)
      ensures stack == [] && history == [] && this.lib == lib
    {
      stack := [];
      history := [];
      this.lib := lib;
    }

    method Push(value: real)
      modifies this`stack
      ensures stack == Pushed(old(stack), value)
    {
      stack := stack + [value];
    }

    method Pop() returns (r: Result<real>)
      modifies this`stack
      ensures Popped(old(stack)) == if r.Ok? then Ok((r.value, stack)) else Err(StackEmpty)
      ensures r.Err? ==> r.error == StackEmpty && stack == old(stack)
    {
      if stack == [] {
        return Err(StackEmpty);
      }
      r := Ok(stack[|stack| - 1]);
      stack := stack[..|stack| - 1];
    }

    /** Reads the top without changing anything. */
    method Peek() returns (r: Result<real>)
      ensures r == Peeked(stack)
    {
      if stack == [] {
        return Err(StackEmpty);
      }
      return Ok(stack[|stack| - 1]);
    }

    /** Drains the stack one pop at a time. */
    method Clear()
      modifies this`stack
      ensures stack == []
    {
      while stack != []
        decreases |stack|
      {
        var _ := Pop();
      }
    }

    method Size() returns (n: nat)
      ensures n == |stack|
    {
      return |stack|;
    }

    /**
     * Applies one operator: checks the arity before popping, pops `b` then
     * `a`, runs the domain check, pushes one result. A name that is not an
     * operator changes nothing.
     */
    method Calculate(operation: string) returns (outcome: Outcome)
      modifies this`stack
      ensures Step(stack, outcome) == ApplyOp(lib, operation, old(stack))
    {
      var n := Arity(operation);
      if n == 2 {
        outcome := CalculateBinary(operation);
      } else if n == 1 {
        outcome := CalculateUnary(operation);
      } else {
        outcome := Fail(UnknownOperator(operation));
      }
    }

    /** The operators `+ - * / ^ pascal`, which take `a` and `b`. */
    method CalculateBinary(operation: string) returns (outcome: Outcome)
      requires Arity(operation) == 2
      modifies this`stack
      ensures Step(stack, outcome) == ApplyOp(lib, operation, old(stack))
    {
      ghost var s := stack;
      if |stack| < 2 {
        return Fail(Underflow(operation, 2));
      }
      var b := Pop();
      // the divisor is checked before the dividend is popped
      if operation == "/" && b.value == 0.0 {
        assert s[|s| - 2..] == [s[|s| - 2], b.value] && stack == s[..|s| - 1];
        return Fail(DivisionByZero);
      }
      var a := Pop();
      assert s[|s| - 2..] == [a.value, b.value] && stack == s[..|s| - 2];
      if operation == "+" {
        Push(a.value + b.value);
      } else if operation == "-" {
        Push(a.value - b.value);
      } else if operation == "*" {
        assert Transform(lib, "*", [a.value, b.value]).value == a.value * b.value;
        Push(a.value * b.value);
      } else if operation == "/" {
        Push(a.value / b.value);
      } else if operation == "^" {
        Push(lib.pow(a.value, b.value));
      } else {
        var row, col := a.value, b.value;
        assert s == stack + [row, col];
        BinaryDomainErrors(lib, stack, row, col);
        if !IsIntegral(row) || !IsIntegral(col) { return Fail(PascalArguments); }
        var p := Pascal(row.Floor, col.Floor);
        if p.Err? { return Fail(p.error); }
        IntegerOperators(lib, stack, 0, row.Floor, col.Floor);
        Push(p.value as real);
      }
      outcome := Pass;
    }

    /** The operators `sqrt sin cos tan fib`, which take `a`. */
    method CalculateUnary(operation: string) returns (outcome: Outcome)
      requires Arity(operation) == 1
      modifies this`stack
      ensures Step(stack, outcome) == ApplyOp(lib, operation, old(stack))
    {
      ghost var s := stack;
      if stack == [] {
        return Fail(Underflow(operation, 1));
      }
      var a := Pop();
      assert s[|s| - 1..] == [a.value] && stack == s[..|s| - 1];
      if operation == "sqrt" {
        if a.value < 0.0 { return Fail(NegativeSquareRoot); }
        Push(lib.sqrt(a.value));
      } else if operation == "sin" {
        Push(lib.sin(Radians(lib, a.value)));
      } else if operation == "cos" {
        Push(lib.cos(Radians(lib, a.value)));
      } else if operation == "tan" {
        var rad := Radians(lib, a.value);
        if lib.cos(rad) == 0.0 { return Fail(TangentUndefined); }
        Push(lib.tan(rad));
      } else {
        if !IsIntegral(a.value) || a.value < 0.0 { return Fail(FibonacciArgument); }
        var f := Fibonacci(a.value.Floor);
        Push(f.value as real);
      }
      outcome := Pass;
    }

    /**
     * Evaluates one expression against the current stack, which is not
     * cleared first. On success the single remaining value is popped,
     * returned and recorded; on failure the history is left as it was.
     */
    method ProcessExpression(expression: string) returns (r: Result<real>)
      modifies this`stack, this`history
      ensures Evaluation(stack, r) == Evaluate(lib, expression, old(stack))
      ensures history == old(history) + (if r.Ok? then [Entry(expression, r.value)] else [])
    {
      var tokens := Split(expression);
      ghost var start := stack;
      var i := 0;
      while i < |tokens|
        invariant 0 <= i <= |tokens|
        invariant history == old(history)
        invariant Run(lib, tokens, start) == Run(lib, tokens[i..], stack)
      {
        var t := tokens[i];
        assert tokens[i..][0] == t && tokens[i..][1..] == tokens[i + 1..];
        var number := IsNumber(t);
        if number {
          var v := ParseNumber(t);
          if v.None? {
            return Err(MalformedNumber(t));
          }
          Push(v.value);
        } else if IsOperator(t) {
          var outcome := Calculate(t);
          if outcome.Fail? {
            return Err(outcome.error);
          }
        } else {
          return Err(InvalidToken(t));
        }
        i := i + 1;
      }
      if |stack| != 1 {
        return Err(IncompleteExpression);
      }
      var result := Pop();
      history := history + [Entry(expression, result.value)];
      return Ok(result.value);
    }

    method ClearHistory()
      modifies this`history
      ensures history == []
    {
      history := [];
    }
  }

  /** The history lines a batch adds: one per expression that evaluates from an empty stack. */
  function Recorded(lib: MathLib, expressions: seq<string>): seq<Entry> {
    if expressions == [] then []
    else
      var last := expressions[|expressions| - 1];
      Recorded(lib, expressions[..|expressions| - 1]) +
        match Evaluate(lib, last, []).result
        case Ok(v) => [Entry(last, v)]
        case Err(_) => []
  }

  /**
   * Evaluates each expression on a freshly cleared stack, so no expression
   * sees what another left behind; a failing expression does not stop the
   * batch. The results are returned in order instead of being printed. The
   * stack keeps what the last expression left on it.
   */
  method BatchCalculation(calculator: RPNCalculator, expressions: seq<string>) returns (results: seq<Result<real>>)
    modifies calculator
    ensures |results| == |expressions|
    ensures forall i :: 0 <= i < |expressions| ==> results[i] == Evaluate(calculator.lib, expressions[i], []).result
    ensures calculator.history == old(calculator.history) + Recorded(calculator.lib, expressions)
    ensures expressions == [] ==> calculator.stack == old(calculator.stack)
    ensures expressions != [] ==>
      calculator.stack == Evaluate(calculator.lib, expressions[|expressions| - 1], []).stack
  {
    results := [];
    var i := 0;
    while i < |expressions|
      invariant 0 <= i <= |expressions|
      invariant |results| == i
      invariant forall j :: 0 <= j < i ==> results[j] == Evaluate(calculator.lib, expressions[j], []).result
      invariant calculator.history == old(calculator.history) + Recorded(calculator.lib, expressions[..i])
      invariant i == 0 ==> calculator.stack == old(calculator.stack)
      invariant i > 0 ==> calculator.stack == Evaluate(calculator.lib, expressions[i - 1], []).stack
    {
      calculator.Clear();
      var r := calculator.ProcessExpression(expressions[i]);
      assert expressions[..i + 1][..i] == expressions[..i];
      results := results + [r];
      i := i + 1;
    }
    assert expressions[..i] == expressions;
  }
}
