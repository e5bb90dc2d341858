/**
 * The operator table: for each operator name its arity, its domain check and
 * its transform, and the effect of applying an operator to a stack.
 *
 * Operands are popped top first: the top value is `b`, the one below it `a`,
 * and a binary operator computes `a OP b`. A domain check runs after the pop,
 * so a failing operator leaves its operands removed; `/` checks its divisor
 * before popping the dividend, so a division by zero removes only `b`.
 */
module Operators {
  import opened Errors
  import opened Classify
  import Combinatorics

  /**
   * The floating-point library functions the calculator calls (square root,
   * power, the trigonometric functions of an angle in radians, and the value
   * it uses for pi). The model leaves their values open.
   */
  datatype MathLib = MathLib(
    sqrt: real -> real,
    pow: (real, real) -> real,
    sin: real -> real,
    cos: real -> real,
    tan: real -> real,
    pi: real)

  /** How many operands an operator takes; 0 for a name that is not an operator. */
  function Arity(op: string): (n: nat)
    ensures n <= 2
    ensures n > 0 <==> IsOperator(op)
  {
    if op in {"+", "-", "*", "/", "^", "pascal"} then 2
    else if op in {"sqrt", "sin", "cos", "tan", "fib"} then 1
    else 0
  }

  /** A value the integer conversion leaves unchanged. */
  predicate IsIntegral(x: real) {
    x == x.Floor as real
  }

  /** The trigonometric operators take degrees. */
  function Radians(lib: MathLib, degrees: real): real {
    degrees * lib.pi / 180.0
  }

  /**
   * The value an operator computes from its operands, listed bottom first
   * (`args[0]` is `a`, `args[1]` is `b`), or its domain error.
   */
  function Transform(lib: MathLib, op: string, args: seq<real>): Result<real>
    requires 0 < Arity(op) == |args|
  {
    if op == "+" then Ok(args[0] + args[1])
    else if op == "-" then Ok(args[0] - args[1])
    else if op == "*" then Ok(args[0] * args[1])
    else if op == "/" then
      if args[1] == 0.0 then Err(DivisionByZero) else Ok(args[0] / args[1])
    else if op == "sqrt" then
      if args[0] < 0.0 then Err(NegativeSquareRoot) else Ok(lib.sqrt(args[0]))
    else if op == "^" then Ok(lib.pow(args[0], args[1]))
    else if op == "sin" then Ok(lib.sin(Radians(lib, args[0])))
    else if op == "cos" then Ok(lib.cos(Radians(lib, args[0])))
    else if op == "tan" then
      if lib.cos(Radians(lib, args[0])) == 0.0 then Err(TangentUndefined)
      else Ok(lib.tan(Radians(lib, args[0])))
    else if op == "fib" then
      if !IsIntegral(args[0]) || args[0] < 0.0 then Err(FibonacciArgument)
      else Ok(Combinatorics.Fib(args[0].Floor) as real)
    else
      var row, col := args[0], args[1];
      if !IsIntegral(row) || !IsIntegral(col) then Err(PascalArguments)
      else if row < 0.0 || col < 0.0 || col > row then Err(PascalOutOfRange)
      else Ok(Combinatorics.Choose(row.Floor, col.Floor) as real)
  }

  /** A stack together with how the step that produced it ended. */
  datatype Step = Step(stack: seq<real>, outcome: Outcome)

  /** The effect of one operator on the stack `st`. */
  function ApplyOp(lib: MathLib, op: string, st: seq<real>): Step {
    var n := Arity(op);
    if n == 0 then Step(st, Fail(UnknownOperator(op)))
    else if |st| < n then Step(st, Fail(Underflow(op, n)))
    else
      match Transform(lib, op, st[|st| - n..])
      case Ok(v) => Step(st[..|st| - n] + [v], Pass)
      case Err(e) =>
        var popped := if op == "/" then 1 else n;
        Step(st[..|st| - popped], Fail(e))
  }

  // ---------------------------------------------------------------------
  // Properties of dispatch
  // ---------------------------------------------------------------------

  /** Classification and dispatch agree: dispatch knows every operator name. */
  lemma KnownOperators(lib: MathLib, op: string, st: seq<real>)
    ensures ApplyOp(lib, op, st).outcome == Fail(UnknownOperator(op)) <==> !IsOperator(op)
  {
  }

  /** Too few operands: the operator fails before popping anything. */
  lemma UnderflowLeavesStack(lib: MathLib, op: string, st: seq<real>)
    requires IsOperator(op) && |st| < Arity(op)
    ensures ApplyOp(lib, op, st) == Step(st, Fail(Underflow(op, Arity(op))))
  {
  }

  /**
   * On success the top Arity(op) values are replaced by exactly one result
   * and nothing below them changes; on failure values were only removed.
   */
  lemma ApplyOpShape(lib: MathLib, op: string, st: seq<real>)
    ensures var r := ApplyOp(lib, op, st);
      r.outcome.Pass? ==>
        |st| >= Arity(op) > 0 &&
        |r.stack| == |st| - Arity(op) + 1 &&
        r.stack[..|st| - Arity(op)] == st[..|st| - Arity(op)]
    ensures var r := ApplyOp(lib, op, st);
      r.outcome.Fail? ==> |r.stack| <= |st| && r.stack == st[..|r.stack|]
  {
  }

  /** The four arithmetic operators compute `a OP b` with `b` the former top. */
  lemma Arithmetic(lib: MathLib, st: seq<real>, a: real, b: real)
    ensures ApplyOp(lib, "+", st + [a, b]) == Step(st + [a + b], Pass)
    ensures ApplyOp(lib, "-", st + [a, b]) == Step(st + [a - b], Pass)
    ensures ApplyOp(lib, "*", st + [a, b]) == Step(st + [a * b], Pass)
    ensures b != 0.0 ==> ApplyOp(lib, "/", st + [a, b]) == Step(st + [a / b], Pass)
    ensures ApplyOp(lib, "^", st + [a, b]) == Step(st + [lib.pow(a, b)], Pass)
  {
    var s := st + [a, b];
    assert s[..|s| - 2] == st && s[|s| - 2..] == [a, b];
    assert Transform(lib, "*", [a, b]).Ok? && Transform(lib, "*", [a, b]).value == a * b;
  }

  /** The unary operators replace the top value `a` by their result. */
  lemma UnaryOperators(lib: MathLib, st: seq<real>, a: real)
    ensures a >= 0.0 ==> ApplyOp(lib, "sqrt", st + [a]) == Step(st + [lib.sqrt(a)], Pass)
    ensures ApplyOp(lib, "sin", st + [a]) == Step(st + [lib.sin(Radians(lib, a))], Pass)
    ensures ApplyOp(lib, "cos", st + [a]) == Step(st + [lib.cos(Radians(lib, a))], Pass)
    ensures lib.cos(Radians(lib, a)) != 0.0 ==>
      ApplyOp(lib, "tan", st + [a]) == Step(st + [lib.tan(Radians(lib, a))], Pass)
  {
    var s := st + [a];
    assert s[..|s| - 1] == st && s[|s| - 1..] == [a];
  }

  /** Domain errors of the unary operators fire after the pop: the operand is gone. */
  lemma UnaryDomainErrors(lib: MathLib, st: seq<real>, a: real)
    ensures a < 0.0 ==> ApplyOp(lib, "sqrt", st + [a]) == Step(st, Fail(NegativeSquareRoot))
    ensures lib.cos(Radians(lib, a)) == 0.0 ==>
      ApplyOp(lib, "tan", st + [a]) == Step(st, Fail(TangentUndefined))
    ensures !IsIntegral(a) || a < 0.0 ==>
      ApplyOp(lib, "fib", st + [a]) == Step(st, Fail(FibonacciArgument))
  {
    var s := st + [a];
    assert s[..|s| - 1] == st && s[|s| - 1..] == [a];
  }

  /**
   * Domain errors of the binary operators: a zero divisor is found with only
   * `b` popped; invalid Pascal coordinates are found with both popped.
   */
  lemma BinaryDomainErrors(lib: MathLib, st: seq<real>, a: real, b: real)
    ensures ApplyOp(lib, "/", st + [a, 0.0]) == Step(st + [a], Fail(DivisionByZero))
    ensures !IsIntegral(a) || !IsIntegral(b) ==>
      ApplyOp(lib, "pascal", st + [a, b]) == Step(st, Fail(PascalArguments))
    ensures IsIntegral(a) && IsIntegral(b) && (a < 0.0 || b < 0.0 || b > a) ==>
      ApplyOp(lib, "pascal", st + [a, b]) == Step(st, Fail(PascalOutOfRange))
  {
    var s := st + [a, b];
    assert s[..|s| - 2] == st && s[|s| - 2..] == [a, b];
    var z := st + [a, 0.0];
    assert z[..|z| - 1] == st + [a] && z[|z| - 2..] == [a, 0.0];
  }

  /** `fib` and `pascal` push the exact Fibonacci number and binomial coefficient. */
  lemma IntegerOperators(lib: MathLib, st: seq<real>, n: nat, row: nat, col: nat)
    requires col <= row
    ensures ApplyOp(lib, "fib", st + [n as real]) == Step(st + [Combinatorics.Fib(n) as real], Pass)
    ensures ApplyOp(lib, "pascal", st + [row as real, col as real])
         == Step(st + [Combinatorics.Choose(row, col) as real], Pass)
  {
    var s1, s2 := st + [n as real], st + [row as real, col as real];
    assert s1[..|s1| - 1] == st && s1[|s1| - 1..] == [n as real];
    assert s2[..|s2| - 2] == st && s2[|s2| - 2..] == [row as real, col as real];
  }
}
